# boringnode/bus — a Dafny model of the bus core

This project models the core of `@boringnode/bus`, a publish/subscribe bus
for Node.js, and proves properties of that model:

- **The two retry queues.** `RetryQueueWithDuplicates` is an
  insertion-ordered set of `(channel, envelope)` entries.
  `RetryQueueWithoutDuplicates` is an insertion-ordered map keyed by the
  hash of the payload. Each is a class whose `entries` (or `pairs`) field
  the methods update. Each class method is proved against a function that
  specifies it (`Enqueued`, `Dequeued`, `Processed`), and the properties
  the source promises are lemmas about those functions: FIFO order,
  eviction of the oldest entry at capacity, duplicates kept or refused,
  and a drain that stops at the first failing handler call.
- **The `RetryQueue` facade.** It picks one variant when it is built and
  forwards every call to it.
- **The `Bus`.** It holds a fixed id, a transport and a retry queue:
  - a failed publish is queued, stamped with the bus's id;
  - the queue is drained on every inbound message, on reconnect and on
    each tick of the retry interval.
  
  The drain (`#processErrorRetryQueue`) is a loop method, proved against
  `Drained`. `Drained` runs a generic `Drain` over the bus's round
  function, and its outcome is proved for a working transport and for a
  failing one, for each queue variant.
- **The transport contract** (`Transport` in `src/types/main.ts`). It is a
  class that records every call it receives. A `failing` flag stands for
  the chaos transport of the test helpers.
- **The in-memory transport.** Its instances share one channel table. A
  publish runs, in subscription order, the handler wrapper of every
  subscription registered under another id than the publisher's, and each
  wrapper records the message in its own transport.
- **The `BusManager`.** It resolves a name (or the default name) to a
  cached bus and builds that bus on first use. The cached buses own
  disjoint objects, so a call through one bus leaves the others as they
  were over the abstract transport (see "## Left out" for the in-memory
  transport, whose publish reaches the other buses' handlers).

The test files' scenarios are methods with concrete inputs, e.g.
`QueueWithDuplicates.EvictionScenario`.

## Where the code and its tests differ

The model follows the code in each case:

- The drain's handler in `src/bus.ts:46-49` republishes the entry and
  returns `true` whatever the republish did. `tests/bus.spec.ts:116-133`
  expects a failed republish to stay queued. With the code's handler, a
  drain through a failing transport behaves as follows:
  - **Deduplicating queue:** every entry is lost
    (`BusCore.DedupDrainLosesAll`), because each round removes one entry
    (`BusCore.DedupRoundShrinks`). When the queue has room, the republish
    of the head is refused as a duplicate (its payload is still queued),
    then the head is dequeued. When the queue is full, the enqueue first
    evicts the head and appends it again, stamped; the dequeue that
    follows then drops the next entry, which is never republished.
  - **Duplicate-preserving queue, not full:** the queue rotates without
    end (`BusCore.DupDrainReturnsToStart`).
  - **Duplicate-preserving queue, full, with `maxSize` at least 2:** the
    first round loses one entry. The enqueue evicts the head and appends
    it again, and the dequeue then drops the next entry. The queue then
    has room, so every later round rotates it without end.
  
  `BusCore.FailedRetryScenario` proves that the code leaves no entry
  where the test expects one.
- `tests/bus.spec.ts:78` and `tests/bus.spec.ts:130` call
  `processErrorRetryQueue()` on a plain `Bus`. The class has no such public
  method: the drain is the private `#processErrorRetryQueue`
  (`src/bus.ts:43-50`), so that call fails with a TypeError in the code.
  The scenarios built on those tests model instead the drain that the
  retry timer (`src/bus.ts:31-33`), a reconnect (`src/bus.ts:52-56`) and
  each inbound message (`src/bus.ts:61-62`) run.
- `RetryQueue.size()` (`src/retry_queue.ts:30-32`) returns the inner
  queue's `size` method, not a number. The bus only uses it in a debug
  message.

## Model

| member | source | states |
|---|---|---|
| QueueCommon.Removed | src/retry_queue_with_duplicates.ts:30-38 | the number of entries a drain removes is the length of the run of successful handler calls it starts with, at most the queue's size; the call after that run fails |
| QueueCommon.Calls | src/retry_queue_with_duplicates.ts:30-38 | the handler runs once per removed entry, plus once more for the failing call when one occurs |
| QueueCommon.FirstFailure | src/retry_queue_with_duplicates.ts:33-35 | when calls 0..k-1 succeed and call k fails, exactly k entries are removed and the handler ran k+1 times |
| QueueCommon.Processed | src/retry_queue_with_duplicates.ts:27-39 | a disabled queue is left alone and calls nothing; an enabled drain removes a prefix whose calls all succeeded, keeps the rest in order, and visits exactly the removed entries plus the first failing one |
| QueueCommon.Dequeued | src/retry_queue_with_duplicates.ts:53-63 | dequeue returns a message iff the queue is enabled and non-empty; that message is the oldest entry's, and the rest stays in order; otherwise nothing changes |
| QueueCommon.ProcessedStopsAt | src/retry_queue_with_duplicates.ts:33-35 | a drain whose call k is the first to fail leaves entries k.. and visits entries ..k |
| QueueCommon.ProcessedStopsAfter | src/retry_queue_without_duplicates.ts:38-42 | a drain that has visited a prefix and whose next call fails on the next entry stops there, leaving the rest and having visited that entry too |
| QueueCommon.ProcessedEmpties | src/retry_queue_with_duplicates.ts:30-38 | a drain whose calls all succeed visits every entry in order and empties the queue |
| QueueCommon.RejectionIsFalse | src/retry_queue_with_duplicates.ts:31 | a rejected handler call removes as many entries as one that resolves false |
| QueueWithDuplicates.Appended | src/retry_queue_with_duplicates.ts:44-48 | the new entry becomes the newest; the oldest entry is dropped exactly when the queue was full; the capacity bound is kept |
| QueueWithDuplicates.Enqueued | src/retry_queue_with_duplicates.ts:41-51 | enqueue returns true iff the queue is enabled; a disabled queue is unchanged |
| QueueWithDuplicates.DuplicatesAreKept | tests/retry_queue.spec.ts:30-43 | enqueueing one entry twice stores it twice and returns true both times |
| QueueWithDuplicates.RetryQueueWithDuplicates.constructor | src/retry_queue_with_duplicates.ts:16-21 | an empty queue; enabled unless `enabled` is false; maxSize as given |
| QueueWithDuplicates.RetryQueueWithDuplicates.Size | src/retry_queue_with_duplicates.ts:23-25 | the number of queued entries |
| QueueWithDuplicates.RetryQueueWithDuplicates.Enqueue | src/retry_queue_with_duplicates.ts:41-51 | the new entries and the flag are those of `Enqueued`; the capacity bound is kept |
| QueueWithDuplicates.RetryQueueWithDuplicates.Dequeue | src/retry_queue_with_duplicates.ts:53-63 | the new entries and the result are those of `Dequeued` |
| QueueWithDuplicates.RetryQueueWithDuplicates.Process | src/retry_queue_with_duplicates.ts:27-39 | the loop leaves the entries and visits the entries that `Processed` gives |
| QueueWithDuplicates.EnqueueRange | tests/retry_queue.spec.ts:61-63 | enqueueing payloads 0..n-1 queues them in that order |
| QueueWithDuplicates.DrainAll | tests/retry_queue.spec.ts:73-74 | dequeueing while the size is positive yields every queued message, oldest first, and empties the queue |
| QueueWithDuplicates.EvictionScenario | tests/retry_queue.spec.ts:58-80 | with maxSize 5, enqueueing payloads 0..5 keeps the size at 5 and dequeues payloads 1..5 |
| QueueWithDuplicates.ProcessScenario | tests/retry_queue.spec.ts:82-133 | a handler failing on its third call, by false or by a throw, runs 3 times and leaves 3 entries; an always-true handler sees payloads 0..4 in order and empties the queue |
| QueueWithoutDuplicates.Hashes | src/retry_queue_without_duplicates.ts:26-28 | the dedup key of each entry is the hash of its payload alone |
| QueueWithoutDuplicates.Enqueued | src/retry_queue_without_duplicates.ts:48-64 | when the queue is full, eviction runs first; then the entry is appended (and true returned) iff no remaining entry has its payload hash; hashes stay unique and the capacity bound is kept |
| QueueWithoutDuplicates.DuplicatePayloadRefused | src/retry_queue_without_duplicates.ts:55-59 | on a queue that is not full, an entry whose payload is already queued is refused, whatever its channel and bus id, and nothing changes |
| QueueWithoutDuplicates.FullQueueEvictsBeforeRefusing | src/retry_queue_without_duplicates.ts:51-59 | on a full queue, a refused duplicate still costs the oldest entry |
| QueueWithoutDuplicates.FullQueueRequeuesOldest | src/retry_queue_without_duplicates.ts:51-63 | on a full queue, re-enqueueing the oldest entry's payload evicts that entry and appends the new one; returns true |
| QueueWithoutDuplicates.ReorderedKeysAreDuplicates | tests/retry_queue.spec.ts:152-171 | if the hash ignores key order, an object with reordered keys is refused as a duplicate and the size stays 1 |
| QueueWithoutDuplicates.Values | src/retry_queue_without_duplicates.ts:37 | `map.values()`: the entries in insertion order |
| QueueWithoutDuplicates.Delete | src/retry_queue_without_duplicates.ts:72 | `map.delete` of an absent key changes nothing and never grows the map |
| QueueWithoutDuplicates.KeyedByHashDedups | src/retry_queue_without_duplicates.ts:57 | a map keyed by payload hash holds entries with unique hashes, and `has(key)` holds iff some queued payload hashes to key |
| QueueWithoutDuplicates.DeleteFirst | src/retry_queue_without_duplicates.ts:69-72 | deleting the key of the first value removes exactly the oldest entry and keeps the map keyed by hash |
| QueueWithoutDuplicates.RetryQueueWithoutDuplicates.Contents | src/retry_queue_without_duplicates.ts:12 | the queued entries never share a payload hash |
| QueueWithoutDuplicates.RetryQueueWithoutDuplicates.constructor | src/retry_queue_without_duplicates.ts:18-24 | an empty queue; enabled unless `enabled` is false; maxSize and hash as given |
| QueueWithoutDuplicates.RetryQueueWithoutDuplicates.Size | src/retry_queue_without_duplicates.ts:30-32 | the number of queued entries |
| QueueWithoutDuplicates.RetryQueueWithoutDuplicates.Enqueue | src/retry_queue_without_duplicates.ts:48-64 | the new contents and the flag are those of `Enqueued`; the map stays keyed by hash within capacity |
| QueueWithoutDuplicates.RetryQueueWithoutDuplicates.Append | src/retry_queue_without_duplicates.ts:61 | `map.set` of a new hash key on a queue with room appends the entry as the newest and keeps the hashes unique |
| QueueWithoutDuplicates.RetryQueueWithoutDuplicates.Dequeue | src/retry_queue_without_duplicates.ts:66-76 | fails with a TypeError and changes nothing iff the queue is enabled and empty; otherwise the new contents and the result are those of `Dequeued` |
| QueueWithoutDuplicates.RetryQueueWithoutDuplicates.Process | src/retry_queue_without_duplicates.ts:34-46 | the loop leaves the contents and visits the entries that `Processed` gives |
| QueueWithoutDuplicates.RetryQueueWithoutDuplicates.Advance | src/retry_queue_without_duplicates.ts:38-44 | a successful handler call dequeues exactly the entry it ran on, so the loop has visited one more prefix entry and the rest is queued |
| QueueWithoutDuplicates.EnqueueRange | tests/retry_queue.spec.ts:189-191 | payloads 0..n-1 with distinct hashes are all queued, in that order |
| QueueWithoutDuplicates.DuplicateScenario | tests/retry_queue.spec.ts:137-150 | the first enqueue of "foo" returns true with size 1; the second returns false with size 1 |
| QueueWithoutDuplicates.EvictionScenario | tests/retry_queue.spec.ts:186-208 | with maxSize 5 and distinct hashes, enqueueing payloads 0..5 keeps the size at 5 and dequeues payloads 1..5 |
| QueueWithoutDuplicates.Overflow | tests/retry_queue.spec.ts:186-199 | after payloads 0..4 fill a queue of capacity 5, enqueueing payload 5 keeps the size at 5 and leaves payloads 1..5 in order |
| QueueWithoutDuplicates.DrainAll | tests/retry_queue.spec.ts:201-202 | dequeueing while the size is positive yields every queued message, oldest first, and empties the queue |
| QueueWithoutDuplicates.DequeueInto | tests/retry_queue.spec.ts:202 | one dequeue of the drain appends the oldest remaining message to those drained so far |
| QueueWithoutDuplicates.ProcessScenario | tests/retry_queue.spec.ts:210-261 | a handler failing on its third call runs 3 times and leaves 3 entries; an always-true handler sees payloads 0..4 in order and empties the queue |
| QueueFacade.Enqueued | src/retry_queue.ts:38-40 | a disabled queue is unchanged and returns false; only the entry itself is ever added; the capacity bound is kept, and so are unique hashes in the deduplicating variant |
| QueueFacade.KeptAreQueued | src/retry_queue_without_duplicates.ts:51-53 | the entries left after a full queue evicts its head were all queued before |
| QueueFacade.EnqueueSize | src/retry_queue.ts:38-40 | one enqueue changes the size by at most one: true means one more entry, or the same count on a full queue; a refusal on a non-full queue changes nothing |
| QueueFacade.RetryQueue.Contents | src/retry_queue.ts:13 | the inner queue's entries: within capacity, with unique payload hashes when deduplicating |
| QueueFacade.RetryQueue.constructor | src/retry_queue.ts:15-24 | the deduplicating variant unless `removeDuplicates` is false; `enabled` and `maxSize` are forwarded with their defaults; the queue starts empty |
| QueueFacade.RetryQueue.InternalSize | src/retry_queue.ts:26-28 | the size of the inner queue |
| QueueFacade.RetryQueue.Enqueue | src/retry_queue.ts:38-40 | the held variant's enqueue: its new contents and flag |
| QueueFacade.RetryQueue.Dequeue | src/retry_queue.ts:42-44 | fails with a TypeError iff the deduplicating variant is enabled and empty; the contents become those of `Dequeued` |
| QueueFacade.RetryQueue.Process | src/retry_queue.ts:34-36 | the held variant's drain |
| QueueFacade.VariantSelection | tests/retry_queue.spec.ts:16-26 | `removeDuplicates: true` and the default build the deduplicating variant; false builds the other |
| QueueFacade.EmptyDequeueScenario | src/retry_queue_without_duplicates.ts:66-69 | dequeue on a new default queue throws a TypeError; on a duplicate-preserving one it returns quietly |
| Transports.Transport.constructor | test_helpers/chaos_transport.ts:22-25 | a transport without id, failing or not as given, that has seen no call |
| Transports.Transport.SetId | src/types/main.ts:59 | the id is set and the call recorded |
| Transports.Transport.OnReconnect | src/types/main.ts:60 | the callback registration is recorded; nothing else changes |
| Transports.Transport.Publish | test_helpers/chaos_transport.ts:53-56 | publish succeeds iff the transport is not failing; the publish and its outcome are recorded |
| Transports.Transport.Subscribe | src/types/main.ts:62-65 | the subscription is recorded |
| Transports.Transport.Unsubscribe | src/types/main.ts:66 | the unsubscription is recorded |
| Transports.Transport.Disconnect | src/types/main.ts:67 | the disconnection is recorded |
| Transports.Transport.SetFailing | test_helpers/chaos_transport.ts:40-51 | `alwaysThrow`/`neverThrow` switch later publishes to failing or succeeding; the id and the calls seen so far are unchanged |
| BusCore.PublishKeepsOwnEntries | src/bus.ts:80-83 | a publish adds only envelopes carrying the bus's own id, so every queued entry carries it |
| BusCore.RepublishHeadDedup | src/bus.ts:46-49 | republishing the head of a deduplicating queue through a failing transport is refused (not full), or evicts the head and re-appends its payload (full) |
| BusCore.RoundDupAppends | src/bus.ts:46-49 | on a duplicate-preserving queue with room, a failing round moves the head's payload to the tail under the bus's id |
| BusCore.RepublishKeepsSize | src/bus.ts:46-49 | republishing the head never shrinks the queue, so `process` always finds a head to dequeue |
| BusCore.RepublishLeavesEntries | src/bus.ts:46-49 | after republishing the head of a non-empty queue, the queue is still non-empty |
| BusCore.Drain | src/retry_queue_with_duplicates.ts:30-38 | n rounds of a drain visit at most n entries, and fewer only when the queue ran empty |
| BusCore.DrainStep | src/retry_queue_with_duplicates.ts:30-38 | a round on a non-empty queue visits its head and applies the round |
| BusCore.BusDrainStep | src/bus.ts:43-50 | while a bus drain has run fewer rounds than there were entries, the queue is non-empty and the next round visits its head |
| BusCore.DrainRunsEveryRound | src/retry_queue_with_duplicates.ts:30-38 | if each round removes at most one entry and keeps an invariant, n ≤ size rounds run the handler exactly n times and keep the invariant |
| BusCore.DrainShrinks | src/retry_queue_with_duplicates.ts:30-38 | if each round removes exactly one entry, n rounds leave size − n entries |
| BusCore.DrainDrops | src/retry_queue_with_duplicates.ts:30-38 | if each round drops the head, n rounds visit and remove the first n entries in order |
| BusCore.DrainRotates | src/retry_queue_with_duplicates.ts:30-38 | if each round moves the head to the tail, n rounds rotate the queue by n |
| BusCore.RoundKeepsUnique | src/bus.ts:46-49 | every round removes at most one entry and keeps payload hashes unique |
| BusCore.BusDrainRunsEveryRound | src/bus.ts:43-50 | a bus drain of n ≤ size rounds runs the handler on n entries |
| BusCore.RoundKeepsInvariants | src/bus.ts:46-49 | a round keeps the capacity bound and the bus id on every entry |
| BusCore.Republished | src/bus.ts:47 | the drain publishes each visited entry's payload on its channel, in order |
| BusCore.RepublishedStep | src/bus.ts:47 | one more visited entry adds its publish at the end |
| BusCore.DrainDeliversAll | src/bus.ts:43-50 | through a working transport, a drain republishes every entry in order and empties the queue, for either variant |
| BusCore.DedupRoundShrinks | src/bus.ts:46-49 | through a failing transport, each round on a deduplicating queue removes exactly one entry and keeps hashes unique |
| BusCore.RotatedTailUnique | src/retry_queue_without_duplicates.ts:51-61 | evicting the head of a full deduplicating queue, dropping the next entry and re-appending the head keeps payload hashes distinct |
| BusCore.DedupDrainLosesAll | src/bus.ts:46-49 | through a failing transport, a drain empties a deduplicating queue after visiting every entry, although nothing went out |
| BusCore.DedupDrainDrops | tests/bus.spec.ts:116-133 | on a deduplicating queue that is not full, a failing drain visits the entries in order and drops them all |
| BusCore.RotationStep | src/bus.ts:46-49 | on a duplicate-preserving queue with room, a failing round turns each rotation into the next |
| BusCore.DupDrainReturnsToStart | src/retry_queue_with_duplicates.ts:30-38 | through a failing transport, one pass over a duplicate-preserving queue with room ends at the starting queue, so the live iteration never ends |
| BusCore.Bus.constructor | src/bus.ts:20-37 | a queue built from the options, a timer iff the interval is truthy, and the transport gets the id and then the reconnect callback |
| BusCore.Bus.Publish | src/bus.ts:70-90 | returns true iff the transport delivered; otherwise the stamped envelope goes through the queue's enqueue; never throws |
| BusCore.Bus.ProcessErrorRetryQueue | src/bus.ts:43-50 | the loop ends with the queue and the visited entries of `Drained`, having made exactly the publishes of `Republished` |
| BusCore.Bus.RetryNext | src/bus.ts:46-49 | one more loop round keeps the drain's invariant: state equals `Drain` after one more round, and the log has one more publish |
| BusCore.Bus.RetryHead | src/bus.ts:46-49 | republishes the head, records it, and leaves the queue of `Round` |
| BusCore.Bus.OnReconnect | src/bus.ts:52-56 | a reconnect runs one drain |
| BusCore.Bus.Tick | src/bus.ts:31-33 | a tick of a running interval runs one drain |
| BusCore.Bus.Subscribe | src/bus.ts:58-61 | the transport receives the subscription |
| BusCore.Bus.Receive | src/bus.ts:61-67 | an inbound message runs one drain, then the user's handler with the message |
| BusCore.Bus.Disconnect | src/bus.ts:92-98 | stops the interval and disconnects the transport; the queue is kept |
| BusCore.Bus.Unsubscribe | src/bus.ts:100-102 | the transport receives the unsubscription |
| BusCore.RetryScenario | tests/bus.spec.ts:17-81 | a publish through a failing transport returns false and queues the payload under the bus id; after recovery, one drain (asked for or by the timer) republishes it and empties the queue |
| BusCore.FailedOnce | tests/bus.spec.ts:21-43 | a bus with the default deduplicating queue publishes once through a failing transport: false, one entry under its id, and the transport then recovers |
| BusCore.DisabledQueueScenario | tests/bus.spec.ts:83-114 | with the queue disabled, a failed publish is not queued and a drain republishes nothing |
| BusCore.FailedRetryScenario | tests/bus.spec.ts:116-133 | after a failed publish the size is 1; a drain through the still-failing transport leaves size 0 |
| MemoryDriver.OthersThan | src/drivers/memory_transport.ts:62 | filtering by id never lengthens the subscriber list |
| MemoryDriver.OthersThanMembers | src/drivers/memory_transport.ts:42-43 | a subscription is kept iff it is listed and registered under another id |
| MemoryDriver.OthersThanAppend | src/drivers/memory_transport.ts:62 | the filter distributes over concatenation, so order is kept |
| MemoryDriver.OthersThanIdempotent | src/drivers/memory_transport.ts:57-64 | unsubscribing twice equals unsubscribing once |
| MemoryDriver.SubscriberReceivesOthers | src/drivers/memory_transport.ts:49-55 | a subscription added under another id than the publisher's is delivered to after all earlier ones |
| MemoryDriver.OthersThanStep | src/drivers/memory_transport.ts:42-46 | the subscriptions delivered to after i+1 loop turns extend those after i by the i-th, unless it is the publisher's own |
| MemoryDriver.UnsubscribedHearNothing | src/drivers/memory_transport.ts:57-64 | after unsubscribe, no publish reaches a subscription of the unsubscribing id |
| MemoryDriver.DeliveredToStep | src/drivers/memory_transport.ts:42-46 | one more delivery adds one message to its own receiver and none to the others |
| MemoryDriver.SubscriptionTable.constructor | src/drivers/memory_transport.ts:16-22 | the shared table starts empty |
| MemoryDriver.MemoryTransport.constructor | src/drivers/memory_transport.ts:11 | no id yet and no received messages; shares the given table |
| MemoryDriver.MemoryTransport.SetId | src/drivers/memory_transport.ts:24-28 | sets the id; the received messages are unchanged |
| MemoryDriver.MemoryTransport.Deliver | src/drivers/memory_transport.ts:72-77 | the wrapper appends the message to its transport's received messages |
| MemoryDriver.MemoryTransport.Publish | src/drivers/memory_transport.ts:35-47 | delivers to exactly the channel's subscriptions under other ids, in order; each receiver records one copy per delivery to it; no receiver's id changes; table and id unchanged |
| MemoryDriver.MemoryTransport.Offer | src/drivers/memory_transport.ts:42-46 | one loop turn keeps the publish invariant: the filter over one more subscription, the receivers' records, and the receivers' ids |
| MemoryDriver.MemoryTransport.OfferAll | src/drivers/memory_transport.ts:42-46 | the whole loop delivers to exactly the subscriptions under other ids, in order, and keeps every receiver's id and the table |
| MemoryDriver.Inboxes | src/drivers/memory_transport.ts:72-77 | the received messages of each subscription's receiver, index by index |
| MemoryDriver.ReceiverIds | src/drivers/memory_transport.ts:24-28 | the id of each subscription's receiver, index by index |
| MemoryDriver.MemoryTransport.Subscribe | src/drivers/memory_transport.ts:49-55 | appends one subscription under the current id to the channel's list, creating it if absent |
| MemoryDriver.MemoryTransport.Unsubscribe | src/drivers/memory_transport.ts:57-64 | the channel keeps only the subscriptions under other ids |
| MemoryDriver.MemoryTransport.Disconnect | src/drivers/memory_transport.ts:66-68 | clears the shared table for every instance |
| MemoryDriver.MemoryTransport.OnReconnect | src/drivers/memory_transport.ts:70 | the callback is ignored; nothing changes |
| MemoryDriver.OwnMessageScenario | tests/drivers/memory_transport.spec.ts:13-23 | a transport's own publish reaches none of its subscriptions |
| MemoryDriver.OtherTransportScenario | tests/drivers/memory_transport.spec.ts:25-43 | a publish from another transport reaches the subscriber's handler once with the payload; the publisher records nothing |
| MemoryDriver.DisconnectScenario | src/drivers/memory_transport.ts:66-68 | after any instance disconnects, a publish reaches nobody |
| Manager.Target | src/bus_manager.ts:32-38 | a truthy explicit name wins, else a truthy default, else a RuntimeException; the chosen name is non-empty |
| Manager.BusManager.DistinctBuses | src/bus_manager.ts:46-52 | two names never share a cached bus |
| Manager.BusManager.constructor | src/bus_manager.ts:24-29 | the configuration is stored and the cache starts empty |
| Manager.BusManager.Use | src/bus_manager.ts:31-55 | no truthy name throws; a cached name returns its bus unchanged; an unknown name throws a TypeError; otherwise one fresh bus and transport are built from the name's configuration and cached under the name, with its timer running iff that configuration sets an interval and no message handled yet, and nothing else in the cache changes |
| Manager.BusManager.Build | src/bus_manager.ts:46-54 | a miss builds a bus over the configured transport and options and caches it under the name |
| Manager.BusManager.NewBus | src/bus_manager.ts:49-51 | the new bus has the fresh id, an empty queue with the configured options, a timer iff an interval is set, and its transport has seen only the id and the reconnect registration |
| Manager.BusManager.Add | src/bus_manager.ts:52 | caching a bus the manager does not yet reach keeps the manager's invariant and adds only that name |
| Manager.BusManager.UseDefault | src/bus_manager.ts:58 | `use()` with no name: the errors of `use`; on success the default bus is cached with its state as before, and every other cached bus is untouched |
| Manager.BusManager.PublishOn | src/bus_manager.ts:58 | publishing through one cached bus records one publish on its transport and updates its queue as a bus publish does, keeps its timer and handled messages, and leaves every other cached bus unchanged |
| Manager.BusManager.SubscribeOn | src/bus_manager.ts:62 | subscribing through one cached bus records one subscribe on its transport, keeps its queue, timer and handled messages, and leaves every other cached bus unchanged |
| Manager.BusManager.UnsubscribeOn | src/bus_manager.ts:66 | unsubscribing through one cached bus records one unsubscribe on its transport, keeps its queue, timer and handled messages, and leaves every other cached bus unchanged |
| Manager.BusManager.DisconnectOn | src/bus_manager.ts:70 | disconnecting one cached bus stops its timer, records one disconnect on its transport, keeps its queue and handled messages, and leaves every other cached bus unchanged |
| Manager.BusManager.Publish | src/bus_manager.ts:57-59 | `use()` then publish: the errors of `use`, and success whenever the default name is cached or configured; the result is the default bus's publish result, its transport's calls gain that publish, its queue becomes the queue after a bus publish of what it held before (empty for a new bus), and its timer and handled messages are as before; every other cached bus is unchanged |
| Manager.BusManager.Subscribe | src/bus_manager.ts:61-63 | `use()` then subscribe: the errors of `use`, and success whenever the default name is cached or configured; the default bus's transport gains one subscribe, its queue, timer and handled messages are as before; every other cached bus is unchanged |
| Manager.BusManager.Unsubscribe | src/bus_manager.ts:65-67 | `use()` then unsubscribe: the errors of `use`, and success whenever the default name is cached or configured; the default bus's transport gains one unsubscribe, its queue, timer and handled messages are as before; every other cached bus is unchanged |
| Manager.BusManager.Disconnect | src/bus_manager.ts:69-71 | `use()` then disconnect: the errors of `use`, and success whenever the default name is cached or configured; the default bus's interval stops and its transport gains one disconnect, its queue and handled messages are as before; every other cached bus is unchanged |
| Manager.CacheScenario | tests/bus_manager.spec.ts:28-43 | `use("memory")` twice gives one bus, the default gives the same bus, and "memory1" gives another |
| Manager.NoDefaultScenario | src/bus_manager.ts:32-38 | without a default name, `use()` and `publish` throw, while an explicit name still works |
| Manager.IsolationScenario | src/bus_manager.ts:69-71 | disconnecting through the manager stops the default bus's interval and leaves another cached bus with its interval running, its queue empty and its transport's calls as they were |

## Left out

- BusCore.Bus.ProcessErrorRetryQueue: runs one round per entry present when the drain starts, where the source keeps iterating the live queue. The two agree whenever the source's loop ends: `DrainDeliversAll` and `DedupDrainLosesAll` show the queue is empty after those rounds. They differ only for a duplicate-preserving queue under a failing transport, where the source never ends (`DupDrainReturnsToStart`).
- Asynchrony: every `await` is modelled as completing before the next step. Interleavings are not modelled, e.g. a timer tick during a drain, or a transport recovering mid-drain.
- Timers: `setInterval` and `clearInterval` become the `timerRunning` flag and the `Tick` method. Parsing a duration string into milliseconds is left out; only its truthiness matters here.
- `createId()` (cuid2) is random, so it becomes a parameter: `id` of the bus constructor, `freshId` of the manager.
- `MessageHasher.hash` is an uninterpreted function. The JSON encoders, the Redis and MQTT transports and the network are not part of this model.
- Numbers are unbounded integers. `maxSize` is a natural number or absent: a negative or fractional `maxSize` is not modelled.
- User handlers are named by a number and their effects are not modelled. The bus records each call it makes, and the memory transport records each message its wrapper receives.
- The bus is modelled over the abstract transport contract, not over `MemoryTransport`. A memory publish does not run the receiving bus's drain.
- MemoryDriver.MemoryTransport.SetId: returns nothing, where the source returns `this` for chaining.
- `ChaosTransport.setId` returns the inner transport, so the bus registers its reconnect callback on the inner transport. The model registers it on the same transport object.
- Transport factories: `transports[name].transport()` is modelled as the configuration of the transport it builds, a failing flag. `tests/bus_manager.spec.ts:15-20` passes bare factories where the code reads `.transport`.
- `RetryQueue.size()` returns a method rather than a number, so it is not modelled; `InternalSize` models `getInternalQueue().size()`.
- `Bus.getRetryQueue()` is the `errorRetryQueue` field; debug logging is left out.

/**
 * The bus (src/bus.ts): a fixed identity, a transport, and an error retry
 * queue that catches failed publishes and is drained whenever a message
 * arrives, the transport reconnects, or the retry timer fires.
 */
module BusCore {

  import opened Types
  import opened QueueCommon
  import opened QueueFacade
  import opened Transports
  import WithoutDup = QueueWithoutDuplicates

  /** Every queued entry carries this bus's id: only the bus's own publish fills its queue. */
  predicate OwnEntries(q: seq<Entry>, busId: string)
  {
    forall i :: 0 <= i < |q| ==> q[i].message.busId == busId
  }

  /**
   * The retry queue after `publish(channel, payload)`: unchanged when the
   * transport delivers, and otherwise the result of enqueueing the payload
   * stamped with the bus's id.
   */
  function AfterPublish(removeDuplicates: bool, enabled: bool, maxSize: Option<nat>, hash: Serializable -> string,
                        busId: string, failing: bool, q: seq<Entry>, channel: string, payload: Serializable)
    : (r: seq<Entry>)
  {
    if failing then Enqueued(removeDuplicates, enabled, maxSize, hash, q, Entry(channel, TransportMessage(busId, payload))).0
    else q
  }

  /** The envelope a failed republish of the entry enqueues: its channel and payload under the bus's id. */
  function Stamped(busId: string, e: Entry): Entry
  {
    Entry(e.channel, TransportMessage(busId, e.message.payload))
  }

  /**
   * Republishing the head of a deduplicating queue through a failing
   * transport: the enqueue is refused while the head is still queued, or,
   * on a full queue, evicts the head and takes its payload back at the tail.
   */
  lemma RepublishHeadDedup(maxSize: Option<nat>, hash: Serializable -> string, busId: string, q: seq<Entry>)
    requires |q| > 0 && WithoutDup.UniqueHashes(hash, q)
    ensures AfterPublish(true, true, maxSize, hash, busId, true, q, q[0].channel, q[0].message.payload)
         == if AtCapacity(maxSize, |q|) then q[1..] + [Stamped(busId, q[0])] else q
  {
    if AtCapacity(maxSize, |q|) {
      WithoutDup.FullQueueRequeuesOldest(maxSize, hash, q, Stamped(busId, q[0]));
    } else {
      WithoutDup.DuplicatePayloadRefused(maxSize, hash, q, Stamped(busId, q[0]), 0);
    }
  }

  /**
   * Republishing the head of a duplicate-preserving queue with room to
   * spare through a failing transport appends a copy of it under the bus's id.
   */
  lemma RoundDupAppends(maxSize: Option<nat>, hash: Serializable -> string, busId: string, q: seq<Entry>)
    requires |q| > 0 && !AtCapacity(maxSize, |q|)
    ensures Round(false, maxSize, hash, busId, true, q) == q[1..] + [Stamped(busId, q[0])]
  {
    assert AfterPublish(false, true, maxSize, hash, busId, true, q, q[0].channel, q[0].message.payload)
        == q + [Stamped(busId, q[0])];
  }

  /** Republishing the head of a queue never shrinks it. */
  lemma RepublishKeepsSize(removeDuplicates: bool, maxSize: Option<nat>, hash: Serializable -> string,
                           busId: string, failing: bool, q: seq<Entry>)
    requires |q| > 0 && (removeDuplicates ==> WithoutDup.UniqueHashes(hash, q))
    ensures |AfterPublish(removeDuplicates, true, maxSize, hash, busId, failing, q, q[0].channel, q[0].message.payload)| >= |q|
  {
    if failing && removeDuplicates {
      RepublishHeadDedup(maxSize, hash, busId, q);
    }
  }

  /** Republishing the head of a non-empty queue never leaves it empty. */
  lemma RepublishLeavesEntries(removeDuplicates: bool, maxSize: Option<nat>, hash: Serializable -> string,
                               busId: string, failing: bool, q: seq<Entry>)
    requires |q| > 0
    ensures |AfterPublish(removeDuplicates, true, maxSize, hash, busId, failing, q, q[0].channel, q[0].message.payload)| > 0
  {
  }

  /**
   * One round of the drain `#processErrorRetryQueue` runs on a queue q: the
   * handler republishes the head's payload on its channel (a failure
   * re-enqueues it) and returns true, so `process` then dequeues the head.
   * An empty queue has no round and is left as it is.
   */
  function Round(removeDuplicates: bool, maxSize: Option<nat>, hash: Serializable -> string,
                 busId: string, failing: bool, q: seq<Entry>): seq<Entry>
  {
    if q == [] then []
    else
      RepublishLeavesEntries(removeDuplicates, maxSize, hash, busId, failing, q);
      AfterPublish(removeDuplicates, true, maxSize, hash, busId, failing, q, q[0].channel, q[0].message.payload)[1..]
  }

  /** The round of one bus's drain, as a function of the queue. */
  function RoundOf(removeDuplicates: bool, maxSize: Option<nat>, hash: Serializable -> string,
                   busId: string, failing: bool): seq<Entry> -> seq<Entry>
  {
    q => Round(removeDuplicates, maxSize, hash, busId, failing, q)
  }

  /**
   * The first n rounds of a drain of q, or fewer if the queue runs empty:
   * the queue left behind and the entries the handler ran on, oldest first.
   */
  function Drain(round: seq<Entry> -> seq<Entry>, q: seq<Entry>, n: nat): (r: (seq<Entry>, seq<Entry>))
    ensures |r.1| <= n
    ensures |r.1| < n ==> r.0 == []
  {
    if n == 0 then (q, [])
    else
      var (rest, visited) := Drain(round, q, n - 1);
      if rest == [] then (rest, visited)
      else (round(rest), visited + [rest[0]])
  }

  /** One more round of a drain that has not run the queue empty. */
  lemma DrainStep(round: seq<Entry> -> seq<Entry>, q: seq<Entry>, n: nat)
    requires 0 < n && Drain(round, q, n - 1).0 != []
    ensures var prev := Drain(round, q, n - 1);
      Drain(round, q, n) == (round(prev.0), prev.1 + [prev.0[0]])
  {
  }

  /**
   * When each round removes at most one entry and keeps an invariant, a
   * drain of n rounds, n at most the queue's size, runs the handler exactly
   * n times: no round finds the queue empty.
   */
  lemma {:induction false} DrainRunsEveryRound(round: seq<Entry> -> seq<Entry>, inv: seq<Entry> -> bool,
                                              q: seq<Entry>, n: nat)
    requires n <= |q| && inv(q)
    requires forall s :: |s| > 0 && inv(s) ==> |round(s)| >= |s| - 1 && inv(round(s))
    ensures var r := Drain(round, q, n); |r.1| == n && |r.0| >= |q| - n && inv(r.0)
  {
    if n > 0 {
      DrainRunsEveryRound(round, inv, q, n - 1);
    }
  }

  /** When each round removes exactly one entry and keeps an invariant, n rounds leave |q| - n entries. */
  lemma {:induction false} DrainShrinks(round: seq<Entry> -> seq<Entry>, inv: seq<Entry> -> bool,
                                       q: seq<Entry>, n: nat)
    requires n <= |q| && inv(q)
    requires forall s :: |s| > 0 && inv(s) ==> |round(s)| == |s| - 1 && inv(round(s))
    ensures var r := Drain(round, q, n); |r.1| == n && |r.0| == |q| - n && inv(r.0)
  {
    if n > 0 {
      DrainShrinks(round, inv, q, n - 1);
    }
  }

  /** When each round on a suffix of q drops its head, n rounds visit and drop q's first n entries. */
  lemma {:induction false} DrainDrops(round: seq<Entry> -> seq<Entry>, q: seq<Entry>, n: nat)
    requires n <= |q|
    requires forall k :: 0 <= k < n ==> round(q[k..]) == q[k + 1..]
    ensures Drain(round, q, n) == (q[n..], q[..n])
  {
    if n > 0 {
      DrainDrops(round, q, n - 1);
      assert q[..n - 1] + [q[n - 1]] == q[..n];
    } else {
      assert q[0..] == q;
    }
  }

  /** When each round on a rotation of q moves its head to the tail, n rounds rotate q by n. */
  lemma {:induction false} DrainRotates(round: seq<Entry> -> seq<Entry>, q: seq<Entry>, n: nat)
    requires n <= |q|
    requires forall k :: 0 <= k < n ==> round(q[k..] + q[..k]) == q[k + 1..] + q[..k + 1]
    ensures Drain(round, q, n) == (q[n..] + q[..n], q[..n])
  {
    if n > 0 {
      DrainRotates(round, q, n - 1);
      assert (q[n - 1..] + q[..n - 1])[0] == q[n - 1];
      assert q[..n - 1] + [q[n - 1]] == q[..n];
    } else {
      assert q[0..] + q[..0] == q;
    }
  }

  /** The invariant a bus's queue keeps through a drain: unique payload hashes when it deduplicates. */
  function QueueInvariant(removeDuplicates: bool, hash: Serializable -> string): seq<Entry> -> bool
  {
    q => removeDuplicates ==> WithoutDup.UniqueHashes(hash, q)
  }

  /** A round removes at most one entry and keeps payload hashes unique. */
  lemma RoundKeepsUnique(removeDuplicates: bool, maxSize: Option<nat>, hash: Serializable -> string,
                         busId: string, failing: bool)
    ensures forall s :: |s| > 0 && QueueInvariant(removeDuplicates, hash)(s) ==>
      && |RoundOf(removeDuplicates, maxSize, hash, busId, failing)(s)| >= |s| - 1
      && QueueInvariant(removeDuplicates, hash)(RoundOf(removeDuplicates, maxSize, hash, busId, failing)(s))
  {
    forall s | |s| > 0 && QueueInvariant(removeDuplicates, hash)(s)
      ensures |Round(removeDuplicates, maxSize, hash, busId, failing, s)| >= |s| - 1
    {
      RepublishKeepsSize(removeDuplicates, maxSize, hash, busId, failing, s);
    }
  }

  /** A drain of a bus's queue runs one round per entry present when it starts. */
  lemma BusDrainRunsEveryRound(removeDuplicates: bool, maxSize: Option<nat>, hash: Serializable -> string,
                               busId: string, failing: bool, q: seq<Entry>, n: nat)
    requires n <= |q| && (removeDuplicates ==> WithoutDup.UniqueHashes(hash, q))
    ensures var r := Drain(RoundOf(removeDuplicates, maxSize, hash, busId, failing), q, n);
      |r.1| == n && |r.0| >= |q| - n
  {
    RoundKeepsUnique(removeDuplicates, maxSize, hash, busId, failing);
    DrainRunsEveryRound(RoundOf(removeDuplicates, maxSize, hash, busId, failing),
                        QueueInvariant(removeDuplicates, hash), q, n);
  }
  /** A bus drain that has not yet run one round per starting entry finds the queue non-empty and runs its next round. */
  lemma BusDrainStep(removeDuplicates: bool, maxSize: Option<nat>, hash: Serializable -> string,
                     busId: string, failing: bool, start: seq<Entry>, visited: seq<Entry>, q: seq<Entry>)
    requires |visited| < |start| && (removeDuplicates ==> WithoutDup.UniqueHashes(hash, start))
    requires (q, visited) == Drain(RoundOf(removeDuplicates, maxSize, hash, busId, failing), start, |visited|)
    ensures q != []
    ensures Drain(RoundOf(removeDuplicates, maxSize, hash, busId, failing), start, |visited| + 1)
         == (Round(removeDuplicates, maxSize, hash, busId, failing, q), visited + [q[0]])
  {
    BusDrainRunsEveryRound(removeDuplicates, maxSize, hash, busId, failing, start, |visited| + 1);
    DrainStep(RoundOf(removeDuplicates, maxSize, hash, busId, failing), start, |visited| + 1);
  }

  /** A publish adds to the queue only an envelope stamped with the bus's own id. */
  lemma PublishKeepsOwnEntries(removeDuplicates: bool, enabled: bool, maxSize: Option<nat>, hash: Serializable -> string,
                               busId: string, failing: bool, q: seq<Entry>, channel: string, payload: Serializable)
    requires OwnEntries(q, busId)
    ensures OwnEntries(AfterPublish(removeDuplicates, enabled, maxSize, hash, busId, failing, q, channel, payload), busId)
  {
    if failing && enabled {
      var e := Entry(channel, TransportMessage(busId, payload));
      var after := Enqueued(removeDuplicates, true, maxSize, hash, q, e).0;
      forall i | 0 <= i < |after|
        ensures after[i].message.busId == busId
      {
        assert after[i] in after;
        if after[i] != e {
          var j :| 0 <= j < |q| && q[j] == after[i];
        }
      }
    }
  }

  /**
   * A round keeps the bus's invariants on its queue: the capacity bound, and
   * every entry carrying the bus's id.
   */
  lemma RoundKeepsInvariants(removeDuplicates: bool, maxSize: Option<nat>, hash: Serializable -> string,
                             busId: string, failing: bool, q: seq<Entry>)
    requires |q| > 0 && (removeDuplicates ==> WithoutDup.UniqueHashes(hash, q))
    requires WithinCapacity(maxSize, |q|) && OwnEntries(q, busId)
    ensures var r := Round(removeDuplicates, maxSize, hash, busId, failing, q);
      WithinCapacity(maxSize, |r|) && OwnEntries(r, busId)
  {
    PublishKeepsOwnEntries(removeDuplicates, true, maxSize, hash, busId, failing, q, q[0].channel, q[0].message.payload);
  }

  /**
   * A whole drain: a disabled queue runs no handler; an enabled one runs the
   * rounds for the entries present when the drain starts.
   */
  function Drained(removeDuplicates: bool, enabled: bool, maxSize: Option<nat>, hash: Serializable -> string,
                   busId: string, failing: bool, q: seq<Entry>): (r: (seq<Entry>, seq<Entry>))
  {
    if enabled then Drain(RoundOf(removeDuplicates, maxSize, hash, busId, failing), q, |q|) else (q, [])
  }

  /** The transport calls the drain makes: one publish per visited entry, in order. */
  function Republished(visited: seq<Entry>, delivered: bool): (calls: seq<Call>)
    ensures |calls| == |visited|
    ensures forall i :: 0 <= i < |visited| ==>
      calls[i] == Published(visited[i].channel, visited[i].message.payload, delivered)
  {
    seq(|visited|, i requires 0 <= i < |visited| => Published(visited[i].channel, visited[i].message.payload, delivered))
  }

  /** The calls of one more visited entry follow those of the earlier ones. */
  lemma RepublishedStep(visited: seq<Entry>, head: Entry, delivered: bool)
    ensures Republished(visited + [head], delivered)
         == Republished(visited, delivered) + [Published(head.channel, head.message.payload, delivered)]
  {
    assert (visited + [head])[|visited|] == head;
  }

  /** A drain through a working transport republishes every queued entry in order and empties the queue. */
  lemma DrainDeliversAll(removeDuplicates: bool, maxSize: Option<nat>, hash: Serializable -> string,
                         busId: string, q: seq<Entry>)
    ensures Drained(removeDuplicates, true, maxSize, hash, busId, false, q) == ([], q)
  {
    var round := RoundOf(removeDuplicates, maxSize, hash, busId, false);
    forall k | 0 <= k < |q|
      ensures round(q[k..]) == q[k + 1..]
    {
      assert q[k..][1..] == q[k + 1..];
    }
    DrainDrops(round, q, |q|);
    assert q[|q|..] == [] && q[..|q|] == q;
  }

  /**
   * Through a failing transport, each round of a deduplicating queue loses
   * one entry: the re-enqueue of the head is refused (its payload is still
   * queued) or, on a full queue, evicts it and the next entry is dequeued.
   */
  lemma DedupRoundShrinks(maxSize: Option<nat>, hash: Serializable -> string, busId: string, q: seq<Entry>)
    requires |q| > 0 && WithoutDup.UniqueHashes(hash, q)
    ensures var r := Round(true, maxSize, hash, busId, true, q);
      |r| == |q| - 1 && WithoutDup.UniqueHashes(hash, r)
  {
    RepublishHeadDedup(maxSize, hash, busId, q);
    if AtCapacity(maxSize, |q|) && |q| > 1 {
      RotatedTailUnique(hash, busId, q);
      assert (q[1..] + [Stamped(busId, q[0])])[1..] == q[2..] + [Stamped(busId, q[0])];
    }
  }

  /** Dropping the first two entries and re-appending the first keeps the payload hashes distinct. */
  lemma RotatedTailUnique(hash: Serializable -> string, busId: string, q: seq<Entry>)
    requires |q| > 1 && WithoutDup.UniqueHashes(hash, q)
    ensures WithoutDup.UniqueHashes(hash, q[2..] + [Stamped(busId, q[0])])
  {
    var r := q[2..] + [Stamped(busId, q[0])];
    forall i, j | 0 <= i < j < |r|
      ensures hash(r[i].message.payload) != hash(r[j].message.payload)
    {
      if j == |r| - 1 {
        assert r[i] == q[i + 2];
      } else {
        assert r[i] == q[i + 2] && r[j] == q[j + 2];
      }
    }
  }

  /**
   * So a drain of the deduplicating queue through a failing transport
   * empties it, although no entry went out.
   */
  lemma DedupDrainLosesAll(maxSize: Option<nat>, hash: Serializable -> string, busId: string, q: seq<Entry>)
    requires WithoutDup.UniqueHashes(hash, q)
    ensures var r := Drained(true, true, maxSize, hash, busId, true, q); r.0 == [] && |r.1| == |q|
  {
    var round := RoundOf(true, maxSize, hash, busId, true);
    var inv := QueueInvariant(true, hash);
    forall s | |s| > 0 && inv(s)
      ensures |round(s)| == |s| - 1 && inv(round(s))
    {
      DedupRoundShrinks(maxSize, hash, busId, s);
    }
    DrainShrinks(round, inv, q, |q|);
  }

  /**
   * When the deduplicating queue is not full, a failing drain visits the
   * entries in order and drops each one: its re-enqueue is refused because
   * the entry itself is still queued.
   */
  lemma DedupDrainDrops(maxSize: Option<nat>, hash: Serializable -> string, busId: string, q: seq<Entry>)
    requires WithoutDup.UniqueHashes(hash, q) && !AtCapacity(maxSize, |q|)
    ensures Drained(true, true, maxSize, hash, busId, true, q) == ([], q)
  {
    var round := RoundOf(true, maxSize, hash, busId, true);
    forall k | 0 <= k < |q|
      ensures round(q[k..]) == q[k + 1..]
    {
      RepublishHeadDedup(maxSize, hash, busId, q[k..]);
      assert q[k..][1..] == q[k + 1..];
    }
    DrainDrops(round, q, |q|);
    assert q[|q|..] == [] && q[..|q|] == q;
  }

  /** Moving the head of a rotation `q[k..] + q[..k]` to its tail gives the next rotation. */
  lemma RotateOnce<T>(q: seq<T>, k: nat)
    requires k < |q|
    ensures (q[k..] + q[..k])[1..] + [q[k]] == q[k + 1..] + q[..k + 1]
  {
    assert (q[k..] + q[..k])[1..] == q[k + 1..] + q[..k];
    assert q[..k] + [q[k]] == q[..k + 1];
  }

  /** A failing round on a rotation of a duplicate-preserving queue with room to spare gives the next rotation. */
  lemma RotationStep(maxSize: Option<nat>, hash: Serializable -> string, busId: string, q: seq<Entry>, k: nat)
    requires k < |q| && !AtCapacity(maxSize, |q|) && OwnEntries(q, busId)
    ensures Round(false, maxSize, hash, busId, true, q[k..] + q[..k]) == q[k + 1..] + q[..k + 1]
  {
    var rest := q[k..] + q[..k];
    assert rest[0] == q[k] == Stamped(busId, q[k]);
    RoundDupAppends(maxSize, hash, busId, rest);
    RotateOnce(q, k);
  }

  /**
   * Through a failing transport, a duplicate-preserving queue with room to
   * spare rotates: each round moves the head to the tail (the re-enqueued
   * envelope equals it, as it already carries the bus's id). So a whole
   * drain ends where it started, and the source's loop, which goes on
   * while entries remain, would repeat it forever.
   */
  lemma DupDrainReturnsToStart(maxSize: Option<nat>, hash: Serializable -> string, busId: string, q: seq<Entry>)
    requires !AtCapacity(maxSize, |q|) && OwnEntries(q, busId)
    ensures Drained(false, true, maxSize, hash, busId, true, q) == (q, q)
  {
    var round := RoundOf(false, maxSize, hash, busId, true);
    forall k | 0 <= k < |q|
      ensures round(q[k..] + q[..k]) == q[k + 1..] + q[..k + 1]
    {
      RotationStep(maxSize, hash, busId, q, k);
    }
    DrainRotates(round, q, |q|);
    assert q[|q|..] + q[..|q|] == q && q[..|q|] == q;
  }

  class Bus {
    const transport: Transport
    /** `#busId`: drawn once by the constructor and never reassigned. */
    const busId: string
    const errorRetryQueue: RetryQueue
    /** Whether the constructor started the retry interval (`#retryQueueInterval` is set). */
    const hasTimer: bool
    /** Whether that interval is still scheduled. */
    var timerRunning: bool
    /** The calls the subscribe wrapper made to user handlers: the handler and the message. */
    var handled: seq<(nat, Serializable)>
    ghost const Repr: set<object>

    ghost predicate Valid()
      reads this, Repr
    {
      && Repr == {this, transport, errorRetryQueue} + errorRetryQueue.Repr
      && errorRetryQueue.Valid()
      && transport.id == Some(busId)
      && OwnEntries(errorRetryQueue.Contents(), busId)
      && (timerRunning ==> hasTimer)
    }

    /**
     * `new Bus(driver, {retryQueue: params})`, with `id` the value `createId()`
     * returns and `hash` the payload hash of the retry queue. The id reaches
     * the transport before anything is published, and the reconnect callback
     * is registered right after.
     */
    constructor (transport: Transport, params: RetryQueueOptions, id: string, hash: Serializable -> string)
      modifies transport
      ensures Valid() && fresh(Repr - {this, transport})
      ensures this.transport == transport && busId == id
      ensures transport.failing == old(transport.failing)
      ensures transport.log == old(transport.log) + [IdSet(id), ReconnectRegistered]
      ensures errorRetryQueue.Contents() == [] && errorRetryQueue.hash == hash
      ensures errorRetryQueue.removeDuplicates == RemovesDuplicates(params)
      ensures errorRetryQueue.Enabled() == (params.enabled != Some(false))
      ensures errorRetryQueue.MaxSize() == params.maxSize
      ensures hasTimer == IntervalConfigured(params.retryInterval) && timerRunning == hasTimer
      ensures handled == []
    {
      this.transport := transport;
      busId := id;
      var q := new RetryQueue(params, hash);
      errorRetryQueue := q;
      hasTimer := IntervalConfigured(params.retryInterval);
      timerRunning := IntervalConfigured(params.retryInterval);
      handled := [];
      Repr := {this, transport, q} + q.Repr;
      new;
      transport.SetId(id);
      transport.OnReconnect();
    }

    /**
     * `publish(channel, message)`: true when the transport took the message;
     * otherwise the message is enqueued under the bus's id and the result is
     * false, whether the queue accepted it or not. Nothing is thrown.
     */
    method Publish(channel: string, message: Serializable) returns (ok: bool)
      requires Valid()
      modifies transport, errorRetryQueue.Repr
      ensures Valid()
      ensures ok == !old(transport.failing) && transport.failing == old(transport.failing)
      ensures transport.log == old(transport.log) + [Published(channel, message, ok)]
      ensures errorRetryQueue.Contents()
           == AfterPublish(errorRetryQueue.removeDuplicates, errorRetryQueue.Enabled(), errorRetryQueue.MaxSize(),
                           errorRetryQueue.hash, busId, old(transport.failing), old(errorRetryQueue.Contents()),
                           channel, message)
    {
      PublishKeepsOwnEntries(errorRetryQueue.removeDuplicates, errorRetryQueue.Enabled(), errorRetryQueue.MaxSize(),
                             errorRetryQueue.hash, busId, transport.failing, errorRetryQueue.Contents(), channel, message);
      ok := transport.Publish(channel, message);
      if !ok {
        var wasAdded := errorRetryQueue.Enqueue(channel, TransportMessage(busId, message));
        if !wasAdded {
          return false;
        }
        return false;
      }
    }

    /**
     * `#processErrorRetryQueue()`: the queue's `process` with a handler that
     * republishes each entry's payload on its channel and returns true.
     */
    method ProcessErrorRetryQueue() returns (visited: seq<Entry>)
      requires Valid()
      modifies transport, errorRetryQueue.Repr
      ensures Valid()
      ensures transport.failing == old(transport.failing)
      ensures (errorRetryQueue.Contents(), visited)
           == Drained(errorRetryQueue.removeDuplicates, errorRetryQueue.Enabled(), errorRetryQueue.MaxSize(),
                      errorRetryQueue.hash, busId, old(transport.failing), old(errorRetryQueue.Contents()))
      ensures transport.log == old(transport.log) + Republished(visited, !old(transport.failing))
    {
      visited := [];
      if !errorRetryQueue.Enabled() {
        return;
      }
      var n := errorRetryQueue.InternalSize();
      ghost var start := errorRetryQueue.Contents();
      ghost var step := RoundOf(errorRetryQueue.removeDuplicates, errorRetryQueue.MaxSize(), errorRetryQueue.hash,
                                busId, transport.failing);
      ghost var log0 := transport.log;
      var round := 0;
      while round < n
        invariant round <= n == |start| && |visited| == round
        invariant DrainedSoFar(step, start, visited, old(transport.failing), old(errorRetryQueue.MaxSize()), log0)
      {
        var head := RetryNext(step, start, visited, old(transport.failing), old(errorRetryQueue.MaxSize()), log0);
        visited := visited + [head];
        round := round + 1;
      }
    }

    /**
     * The state of a drain of `start` after the rounds that visited
     * `visited`: the queue the rounds leave and the publishes they made.
     */
    ghost predicate DrainedSoFar(step: seq<Entry> -> seq<Entry>, start: seq<Entry>, visited: seq<Entry>,
                                 failing: bool, maxSize: Option<nat>, log0: seq<Call>)
      reads this, Repr
    {
      && Valid() && transport.failing == failing
      && errorRetryQueue.Enabled() && errorRetryQueue.MaxSize() == maxSize
      && step == RoundOf(errorRetryQueue.removeDuplicates, maxSize, errorRetryQueue.hash, busId, failing)
      && (errorRetryQueue.removeDuplicates ==> WithoutDup.UniqueHashes(errorRetryQueue.hash, start))
      && (errorRetryQueue.Contents(), visited) == Drain(step, start, |visited|)
      && transport.log == log0 + Republished(visited, !failing)
    }

    /** The next round of a drain that has not yet run one round per starting entry. */
    method RetryNext(ghost step: seq<Entry> -> seq<Entry>, ghost start: seq<Entry>, ghost visited: seq<Entry>,
                     ghost failing: bool, ghost maxSize: Option<nat>, ghost log0: seq<Call>) returns (head: Entry)
      requires DrainedSoFar(step, start, visited, failing, maxSize, log0) && |visited| < |start|
      modifies transport, errorRetryQueue.Repr
      ensures DrainedSoFar(step, start, visited + [head], failing, maxSize, log0)
    {
      BusDrainStep(errorRetryQueue.removeDuplicates, maxSize, errorRetryQueue.hash, busId, failing,
                   start, visited, errorRetryQueue.Contents());
      ghost var q0 := errorRetryQueue.Contents();
      ghost var next := Round(errorRetryQueue.removeDuplicates, maxSize, errorRetryQueue.hash, busId, failing, q0);
      ghost var log1 := transport.log;
      head := RetryHead();
      RepublishedStep(visited, head, !failing);
      assert errorRetryQueue.Contents() == next && head == q0[0];
      assert (next, visited + [head]) == Drain(step, start, |visited| + 1);
      assert transport.log == log1 + [Published(head.channel, head.message.payload, !failing)];
    }

    /**
     * One round of the drain: the handler republishes the oldest entry, then
     * `process` dequeues the head.
     */
    method RetryHead() returns (head: Entry)
      requires Valid() && errorRetryQueue.Enabled() && |errorRetryQueue.Contents()| > 0
      modifies transport, errorRetryQueue.Repr
      ensures Valid()
      ensures errorRetryQueue.Enabled() && errorRetryQueue.MaxSize() == old(errorRetryQueue.MaxSize())
      ensures head == old(errorRetryQueue.Contents())[0]
      ensures transport.failing == old(transport.failing)
      ensures transport.log == old(transport.log) + [Published(head.channel, head.message.payload, !old(transport.failing))]
      ensures errorRetryQueue.Contents()
           == Round(errorRetryQueue.removeDuplicates, errorRetryQueue.MaxSize(), errorRetryQueue.hash,
                    busId, old(transport.failing), old(errorRetryQueue.Contents()))
    {
      var q := errorRetryQueue;
      ghost var before := q.Contents();
      ghost var failing := transport.failing;
      head := q.Contents()[0];
      RepublishKeepsSize(q.removeDuplicates, q.MaxSize(), q.hash, busId, failing, before);
      RoundKeepsInvariants(q.removeDuplicates, q.MaxSize(), q.hash, busId, failing, before);
      ghost var republished := AfterPublish(q.removeDuplicates, true, q.MaxSize(), q.hash, busId, failing, before,
                                            head.channel, head.message.payload);
      assert Round(q.removeDuplicates, q.MaxSize(), q.hash, busId, failing, before) == republished[1..];
      var _ := Publish(head.channel, head.message.payload);
      assert q.Enabled() && q.Contents() == republished;
      var _ := q.Dequeue();
      assert q.Contents() == republished[1..];
    }

    /** The reconnect callback registered by the constructor (`#onReconnect`): one drain. */
    method OnReconnect() returns (visited: seq<Entry>)
      requires Valid()
      modifies transport, errorRetryQueue.Repr
      ensures Valid()
      ensures transport.failing == old(transport.failing)
      ensures (errorRetryQueue.Contents(), visited)
           == Drained(errorRetryQueue.removeDuplicates, errorRetryQueue.Enabled(), errorRetryQueue.MaxSize(),
                      errorRetryQueue.hash, busId, old(transport.failing), old(errorRetryQueue.Contents()))
      ensures transport.log == old(transport.log) + Republished(visited, !old(transport.failing))
    {
      visited := ProcessErrorRetryQueue();
    }

    /** One tick of the retry interval: a drain, and only while the interval is scheduled. */
    method Tick() returns (visited: seq<Entry>)
      requires Valid() && timerRunning
      modifies transport, errorRetryQueue.Repr
      ensures Valid()
      ensures transport.failing == old(transport.failing)
      ensures (errorRetryQueue.Contents(), visited)
           == Drained(errorRetryQueue.removeDuplicates, errorRetryQueue.Enabled(), errorRetryQueue.MaxSize(),
                      errorRetryQueue.hash, busId, old(transport.failing), old(errorRetryQueue.Contents()))
      ensures transport.log == old(transport.log) + Republished(visited, !old(transport.failing))
    {
      visited := ProcessErrorRetryQueue();
    }

    /** `subscribe(channel, handler)`: hands a wrapper of the handler to the transport. */
    method Subscribe(channel: string)
      requires Valid()
      modifies transport
      ensures Valid()
      ensures transport.failing == old(transport.failing)
      ensures transport.log == old(transport.log) + [Subscribed(channel)]
    {
      transport.Subscribe(channel);
    }

    /**
     * The wrapper `subscribe` registers, run on one inbound message: a full
     * drain first, then the user's handler with the message.
     */
    method Receive(handler: nat, message: Serializable) returns (visited: seq<Entry>)
      requires Valid()
      modifies this, transport, errorRetryQueue.Repr
      ensures Valid()
      ensures transport.failing == old(transport.failing) && timerRunning == old(timerRunning)
      ensures (errorRetryQueue.Contents(), visited)
           == Drained(errorRetryQueue.removeDuplicates, errorRetryQueue.Enabled(), errorRetryQueue.MaxSize(),
                      errorRetryQueue.hash, busId, old(transport.failing), old(errorRetryQueue.Contents()))
      ensures transport.log == old(transport.log) + Republished(visited, !old(transport.failing))
      ensures handled == old(handled) + [(handler, message)]
    {
      visited := ProcessErrorRetryQueue();
      handled := handled + [(handler, message)];
    }

    /** `disconnect()`: stops the retry interval if there is one, then disconnects the transport. */
    method Disconnect()
      requires Valid()
      modifies this, transport
      ensures Valid() && !timerRunning && handled == old(handled)
      ensures transport.failing == old(transport.failing)
      ensures transport.log == old(transport.log) + [Disconnected]
      ensures errorRetryQueue.Contents() == old(errorRetryQueue.Contents())
    {
      if hasTimer {
        timerRunning := false;
      }
      transport.Disconnect();
    }

    /** `unsubscribe(channel)`: only the transport acts. */
    method Unsubscribe(channel: string)
      requires Valid()
      modifies transport
      ensures Valid()
      ensures transport.failing == old(transport.failing)
      ensures transport.log == old(transport.log) + [Unsubscribed(channel)]
    {
      transport.Unsubscribe(channel);
    }
  }

  const TestingChannel := "testing-channel"

  /**
   * tests/bus.spec.ts, "should retry queue processing when asked" and "with
   * an interval": a publish through a failing transport is queued under the
   * bus's id; once the transport recovers, one drain (asked for, or a tick
   * of the interval) republishes it and empties the queue.
   */
  method RetryScenario(viaTimer: bool, id: string, hash: Serializable -> string)
      returns (firstOk: bool, queued: seq<Entry>, visited: seq<Entry>, left: seq<Entry>, log: seq<Call>)
    ensures !firstOk
    ensures queued == [Entry(TestingChannel, TransportMessage(id, Str("test")))]
    ensures visited == queued && left == []
    ensures log == [IdSet(id), ReconnectRegistered,
                    Published(TestingChannel, Str("test"), false), Published(TestingChannel, Str("test"), true)]
  {
    var bus;
    bus, firstOk, queued := FailedOnce(viaTimer, id, hash);
    DrainDeliversAll(true, None, hash, id, queued);
    if viaTimer {
      visited := bus.Tick();
    } else {
      visited := bus.ProcessErrorRetryQueue();
    }
    left := bus.errorRetryQueue.Contents();
    log := bus.transport.log;
  }

  /**
   * The set-up of `RetryScenario`: a bus with the default deduplicating
   * queue, and an interval when `viaTimer`, publishes once through a failing
   * transport, which then recovers.
   */
  method FailedOnce(viaTimer: bool, id: string, hash: Serializable -> string)
      returns (bus: Bus, firstOk: bool, queued: seq<Entry>)
    ensures fresh(bus.Repr) && bus.Valid() && bus.busId == id && !bus.transport.failing
    ensures viaTimer ==> bus.timerRunning
    ensures bus.errorRetryQueue.removeDuplicates && bus.errorRetryQueue.Enabled()
    ensures bus.errorRetryQueue.MaxSize() == None && bus.errorRetryQueue.hash == hash
    ensures !firstOk
    ensures queued == bus.errorRetryQueue.Contents() == [Entry(TestingChannel, TransportMessage(id, Str("test")))]
    ensures bus.transport.log == [IdSet(id), ReconnectRegistered, Published(TestingChannel, Str("test"), false)]
  {
    var transport := new Transport(false);
    var interval := if viaTimer then Some(Text("100ms")) else None;
    bus := new Bus(transport, RetryQueueOptions(None, None, None, interval), id, hash);
    transport.SetFailing(true);
    firstOk := bus.Publish(TestingChannel, Str("test"));
    queued := bus.errorRetryQueue.Contents();
    transport.SetFailing(false);
  }

  /**
   * tests/bus.spec.ts, "should not retry when retry queue is disabled": the
   * failed publish is not queued, so a later drain republishes nothing.
   */
  method DisabledQueueScenario(id: string, hash: Serializable -> string)
      returns (firstOk: bool, queued: seq<Entry>, visited: seq<Entry>, log: seq<Call>)
    ensures !firstOk && queued == [] && visited == []
    ensures log == [IdSet(id), ReconnectRegistered, Published(TestingChannel, Str("test"), false)]
  {
    var transport := new Transport(true);
    var bus := new Bus(transport, RetryQueueOptions(Some(false), None, None, None), id, hash);
    firstOk := bus.Publish(TestingChannel, Str("test"));
    queued := bus.errorRetryQueue.Contents();
    visited := bus.ProcessErrorRetryQueue();
    log := transport.log;
  }

  /**
   * tests/bus.spec.ts, "should not remove item from queue if publish
   * failed": after a failed publish one entry is queued; a drain through the
   * still-failing transport republishes it, the deduplicating queue refuses
   * the copy, and the handler's true then removes the entry, so the queue
   * ends empty rather than holding one entry.
   */
  method FailedRetryScenario(id: string, hash: Serializable -> string)
      returns (sizeAfterPublish: nat, visited: seq<Entry>, sizeAfterDrain: nat)
    ensures sizeAfterPublish == 1 && |visited| == 1 && sizeAfterDrain == 0
  {
    var transport := new Transport(true);
    var bus := new Bus(transport, RetryQueueOptions(Some(true), None, None, None), id, hash);
    var _ := bus.Publish(TestingChannel, Str("test"));
    sizeAfterPublish := bus.errorRetryQueue.InternalSize();
    DedupDrainDrops(None, hash, id, bus.errorRetryQueue.Contents());
    visited := bus.ProcessErrorRetryQueue();
    sizeAfterDrain := bus.errorRetryQueue.InternalSize();
  }
}

/**
 * The duplicate-preserving retry queue (src/retry_queue_with_duplicates.ts):
 * an insertion-ordered collection of (channel, envelope) entries in which
 * every enqueue makes a new entry, even for a message equal to a queued one.
 */
module QueueWithDuplicates {

  import opened Types
  import opened QueueCommon

  /**
   * The contents after an enabled `enqueue` of e on q: the oldest entry is
   * dropped first when the queue is full, and e becomes the newest entry.
   */
  function Appended(maxSize: Option<nat>, q: seq<Entry>, e: Entry): (r: seq<Entry>)
    ensures |r| == if AtCapacity(maxSize, |q|) then |q| else |q| + 1
    ensures r[|r| - 1] == e
    ensures r[..|r| - 1] == q[|q| + 1 - |r|..]
    ensures WithinCapacity(maxSize, |q|) ==> WithinCapacity(maxSize, |r|)
  {
    (if AtCapacity(maxSize, |q|) then q[1..] else q) + [e]
  }

  /** `enqueue(channel, message)`: the new contents and the returned flag. */
  function Enqueued(enabled: bool, maxSize: Option<nat>, q: seq<Entry>, e: Entry): (r: (seq<Entry>, bool))
    ensures r.1 == enabled
    ensures !enabled ==> r.0 == q
    ensures enabled ==> r.0 == Appended(maxSize, q, e)
  {
    if enabled then (Appended(maxSize, q, e), true) else (q, false)
  }

  /** Enqueueing the same message twice stores it twice. */
  lemma {:induction false} DuplicatesAreKept(maxSize: Option<nat>, q: seq<Entry>, e: Entry)
    requires !AtCapacity(maxSize, |q|) && !AtCapacity(maxSize, |q| + 1)
    ensures Enqueued(true, maxSize, Enqueued(true, maxSize, q, e).0, e) == (q + [e, e], true)
  {
    assert Enqueued(true, maxSize, q, e).0 == q + [e];
    assert Appended(maxSize, q + [e], e) == q + [e] + [e] == q + [e, e];
  }

  class RetryQueueWithDuplicates {
    var entries: seq<Entry>
    const enabled: bool
    const maxSize: Option<nat>

    /** The capacity bound holds between calls. */
    ghost predicate Valid()
      reads this
    {
      WithinCapacity(maxSize, |entries|)
    }

    /** `enabled` defaults to true and `maxSize` to null. */
    constructor (params: RetryQueueOptions)
      ensures Valid() && entries == []
      ensures enabled == (params.enabled != Some(false))
      ensures maxSize == params.maxSize
    {
      entries := [];
      enabled := params.enabled != Some(false);
      maxSize := params.maxSize;
    }

    method Size() returns (n: nat)
      ensures n == |entries|
    {
      n := |entries|;
    }

    method Enqueue(channel: string, message: TransportMessage) returns (added: bool)
      requires Valid()
      modifies this
      ensures Valid()
      ensures (entries, added) == Enqueued(enabled, maxSize, old(entries), Entry(channel, message))
    {
      if !enabled {
        return false;
      }
      if maxSize.Some? && maxSize.value != 0 && |entries| >= maxSize.value {
        var _ := Dequeue();
      }
      entries := entries + [Entry(channel, message)];
      return true;
    }

    method Dequeue() returns (m: Option<TransportMessage>)
      modifies this
      ensures (entries, m) == Dequeued(enabled, old(entries))
    {
      if !enabled {
        return None;
      }
      if |entries| > 0 {
        var first := entries[0];
        entries := entries[1..];
        return Some(first.message);
      }
      return None;
    }

    /**
     * `process(handler)`, with the handler's results given by `script`; the
     * handler itself does not touch this queue.
     */
    method Process(script: seq<HandlerOutcome>) returns (visited: seq<Entry>)
      requires Valid()
      modifies this
      ensures Valid()
      ensures (entries, visited) == Processed(enabled, old(entries), script)
    {
      visited := [];
      if !enabled {
        return;
      }
      ghost var start := entries;
      while |entries| > 0
        invariant Valid()
        invariant |visited| <= |start| && visited == start[..|visited|]
        invariant entries == start[|visited|..]
        invariant forall i :: 0 <= i < |visited| ==> Succeeds(script, i)
        decreases |entries|
      {
        var head := entries[0];
        ghost var k := |visited|;
        var result := Caught(Outcome(script, |visited|));
        visited := visited + [head];
        if !result {
          ProcessedStopsAt(start, script, k);
          assert visited == start[..k + 1];
          return;
        }
        var _ := Dequeue();
      }
      ProcessedEmpties(start, script);
    }
  }

  /** Enqueues payloads 0 .. n-1 on channel "testing", as the queue tests' set-up loops do. */
  method EnqueueRange(q: RetryQueueWithDuplicates, n: nat)
    requires q.Valid() && q.enabled && q.entries == [] && WithinCapacity(q.maxSize, n)
    modifies q
    ensures q.Valid() && |q.entries| == n
    ensures forall k :: 0 <= k < n ==> q.entries[k] == Entry("testing", Testing(k))
  {
    var i := 0;
    while i < n
      invariant 0 <= i <= n && q.Valid() && |q.entries| == i
      invariant forall k :: 0 <= k < i ==> q.entries[k] == Entry("testing", Testing(k))
    {
      var _ := q.Enqueue("testing", Testing(i));
      i := i + 1;
    }
  }

  /** Dequeues until the queue reports size 0: the messages come out oldest first. */
  method DrainAll(q: RetryQueueWithDuplicates) returns (drained: seq<Option<TransportMessage>>)
    requires q.Valid() && q.enabled
    modifies q
    ensures q.Valid() && q.entries == []
    ensures |drained| == |old(q.entries)|
    ensures forall k :: 0 <= k < |drained| ==> drained[k] == Some(old(q.entries)[k].message)
  {
    ghost var start := q.entries;
    drained := [];
    var n := q.Size();
    while n > 0
      invariant q.Valid() && q.enabled && n == |q.entries| && |drained| + n == |start|
      invariant q.entries == start[|drained|..]
      invariant forall k :: 0 <= k < |drained| ==> drained[k] == Some(start[k].message)
      decreases n
    {
      var m := q.Dequeue();
      drained := drained + [m];
      n := q.Size();
    }
  }

  /** tests/retry_queue.spec.ts: enqueueing payloads 0..5 with maxSize 5 drains as 1..5. */
  method EvictionScenario() returns (sizeBefore: nat, sizeAfter: nat, drained: seq<Option<TransportMessage>>)
    ensures sizeBefore == 5 && sizeAfter == 5
    ensures drained == [Some(Testing(1)), Some(Testing(2)), Some(Testing(3)), Some(Testing(4)), Some(Testing(5))]
  {
    var q := new RetryQueueWithDuplicates(RetryQueueOptions(None, None, Some(5), None));
    EnqueueRange(q, 5);
    sizeBefore := q.Size();
    var _ := q.Enqueue("testing", Testing(5));
    sizeAfter := q.Size();
    ghost var full := q.entries;
    assert forall k :: 0 <= k < 5 ==> full[k] == Entry("testing", Testing(k + 1));
    drained := DrainAll(q);
  }

  /**
   * tests/retry_queue.spec.ts: with five entries and a handler that fails on
   * its third call, by returning false or by throwing, the handler runs three
   * times and three entries stay queued; a handler that always succeeds sees
   * every payload in order and empties the queue.
   */
  method ProcessScenario(third: HandlerOutcome) returns (calls: nat, size: nat, allVisited: seq<Entry>, allSize: nat)
    requires third == Resolved(false) || third == Rejected
    ensures calls == 3 && size == 3
    ensures allSize == 0 && |allVisited| == 5
    ensures forall k :: 0 <= k < 5 ==> allVisited[k].message.payload == Num(k)
  {
    var q := new RetryQueueWithDuplicates(NoOptions);
    EnqueueRange(q, 5);
    var visited := q.Process([Resolved(true), Resolved(true), third]);
    FirstFailure([Resolved(true), Resolved(true), third], 5, 2);
    calls := |visited|;
    size := q.Size();
    var all := new RetryQueueWithDuplicates(NoOptions);
    EnqueueRange(all, 5);
    allVisited := all.Process([]);
    allSize := all.Size();
  }
}

/**
 * The deduplicating retry queue (src/retry_queue_without_duplicates.ts): an
 * insertion-ordered map from the hash of an entry's payload to the entry, so
 * that at most one entry per payload hash is queued.
 */
module QueueWithoutDuplicates {

  import opened Types
  import opened QueueCommon

  /** The dedup key of each queued entry, oldest first; only the payload is hashed. */
  function Hashes(hash: Serializable -> string, q: seq<Entry>): (hs: seq<string>)
    ensures |hs| == |q|
    ensures forall i :: 0 <= i < |q| ==> hs[i] == hash(q[i].message.payload)
  {
    seq(|q|, i requires 0 <= i < |q| => hash(q[i].message.payload))
  }

  /** No two queued entries share a payload hash. */
  predicate UniqueHashes(hash: Serializable -> string, q: seq<Entry>)
  {
    forall i, j :: 0 <= i < j < |q| ==> hash(q[i].message.payload) != hash(q[j].message.payload)
  }

  /**
   * `enqueue(channel, message)` on a queue holding q: the capacity eviction
   * runs first, then the entry is appended unless its payload hash is still
   * queued. Returns the new contents and the returned flag.
   */
  function Enqueued(enabled: bool, maxSize: Option<nat>, hash: Serializable -> string, q: seq<Entry>, e: Entry)
    : (r: (seq<Entry>, bool))
    ensures !enabled ==> r == (q, false)
    ensures enabled ==>
      var kept := if AtCapacity(maxSize, |q|) then q[1..] else q;
      && (r.1 <==> hash(e.message.payload) !in Hashes(hash, kept))
      && r.0 == if r.1 then kept + [e] else kept
    ensures UniqueHashes(hash, q) ==> UniqueHashes(hash, r.0)
    ensures WithinCapacity(maxSize, |q|) ==> WithinCapacity(maxSize, |r.0|)
  {
    if !enabled then (q, false)
    else
      var kept := if AtCapacity(maxSize, |q|) then q[1..] else q;
      if hash(e.message.payload) in Hashes(hash, kept) then (kept, false) else (kept + [e], true)
  }

  /**
   * The dedup key ignores channel and bus id: once an entry is queued, an
   * entry with an equal payload is refused while the queue is not full,
   * and nothing changes.
   */
  lemma DuplicatePayloadRefused(maxSize: Option<nat>, hash: Serializable -> string, q: seq<Entry>, e: Entry, i: nat)
    requires i < |q| && q[i].message.payload == e.message.payload
    requires !AtCapacity(maxSize, |q|)
    ensures Enqueued(true, maxSize, hash, q, e) == (q, false)
  {
    assert Hashes(hash, q)[i] == hash(e.message.payload);
  }

  /**
   * On a full queue the eviction runs before the duplicate check: a refused
   * duplicate still costs the oldest entry.
   */
  lemma {:induction false} FullQueueEvictsBeforeRefusing(maxSize: Option<nat>, hash: Serializable -> string, q: seq<Entry>, e: Entry, i: nat)
    requires AtCapacity(maxSize, |q|)
    requires 0 < i < |q| && q[i].message.payload == e.message.payload
    ensures Enqueued(true, maxSize, hash, q, e) == (q[1..], false)
  {
    assert Hashes(hash, q[1..])[i - 1] == hash(e.message.payload);
  }

  /**
   * On a full queue whose oldest entry has the new entry's payload, the
   * oldest entry is evicted and the new one appended: the duplicate moves to
   * the tail and enqueue returns true.
   */
  lemma FullQueueRequeuesOldest(maxSize: Option<nat>, hash: Serializable -> string, q: seq<Entry>, e: Entry)
    requires AtCapacity(maxSize, |q|) && UniqueHashes(hash, q)
    requires q[0].message.payload == e.message.payload
    ensures Enqueued(true, maxSize, hash, q, e) == (q[1..] + [e], true)
  {
  }

  /**
   * tests/retry_queue.spec.ts: `{test: "foo", test2: "bar"}` and
   * `{test2: "bar", test: "foo"}` are one entry. The hash's independence of
   * key order is the hypothesis; the second enqueue returns false and the
   * size stays 1.
   */
  lemma ReorderedKeysAreDuplicates(hash: Serializable -> string)
    requires hash(Obj([("test", Str("foo")), ("test2", Str("bar"))]))
          == hash(Obj([("test2", Str("bar")), ("test", Str("foo"))]))
    ensures var first := Enqueued(true, None, hash, [],
              Entry("testing", TransportMessage("testing", Obj([("test", Str("foo")), ("test2", Str("bar"))]))));
            var second := Enqueued(true, None, hash, first.0,
              Entry("testing", TransportMessage("testing", Obj([("test2", Str("bar")), ("test", Str("foo"))]))));
            first.1 && |first.0| == 1 && !second.1 && |second.0| == 1
  {
    var e := Entry("testing", TransportMessage("testing", Obj([("test", Str("foo")), ("test2", Str("bar"))])));
    assert Hashes(hash, [e])[0] == hash(e.message.payload);
  }

  /** The values of an insertion-ordered map, oldest first (`map.values()`). */
  function Values(pairs: seq<(string, Entry)>): (q: seq<Entry>)
    ensures |q| == |pairs|
    ensures forall i :: 0 <= i < |pairs| ==> q[i] == pairs[i].1
  {
    seq(|pairs|, i requires 0 <= i < |pairs| => pairs[i].1)
  }

  /** `map.has(key)`. */
  predicate Has(pairs: seq<(string, Entry)>, key: string)
  {
    exists i :: 0 <= i < |pairs| && pairs[i].0 == key
  }

  /** `map.delete(key)`: the pairs under other keys, in their order. */
  function Delete(pairs: seq<(string, Entry)>, key: string): (r: seq<(string, Entry)>)
    ensures |r| <= |pairs|
    ensures !Has(pairs, key) ==> r == pairs
  {
    if pairs == [] then []
    else if pairs[0].0 == key then Delete(pairs[1..], key)
    else [pairs[0]] + Delete(pairs[1..], key)
  }

  /**
   * The ordered map's invariant: each entry is stored under the hash of its
   * payload, and no key is listed twice.
   */
  ghost predicate KeyedByHash(hash: Serializable -> string, pairs: seq<(string, Entry)>)
  {
    && (forall i :: 0 <= i < |pairs| ==> pairs[i].0 == hash(pairs[i].1.message.payload))
    && (forall i, j :: 0 <= i < j < |pairs| ==> pairs[i].0 != pairs[j].0)
  }

  /** Keyed by hash, the map holds one entry per payload hash, and `has` asks whether a payload hash is queued. */
  lemma {:induction false} KeyedByHashDedups(hash: Serializable -> string, pairs: seq<(string, Entry)>, key: string)
    requires KeyedByHash(hash, pairs)
    ensures UniqueHashes(hash, Values(pairs))
    ensures Has(pairs, key) <==> key in Hashes(hash, Values(pairs))
  {
    if Has(pairs, key) {
      var i :| 0 <= i < |pairs| && pairs[i].0 == key;
      assert Hashes(hash, Values(pairs))[i] == key;
    }
    if key in Hashes(hash, Values(pairs)) {
      var i :| 0 <= i < |pairs| && Hashes(hash, Values(pairs))[i] == key;
      assert pairs[i].0 == key;
    }
  }

  /** Deleting the first key of a map keyed by hash drops exactly its oldest entry. */
  lemma DeleteFirst(hash: Serializable -> string, pairs: seq<(string, Entry)>)
    requires KeyedByHash(hash, pairs) && |pairs| > 0
    ensures Delete(pairs, pairs[0].0) == pairs[1..]
    ensures KeyedByHash(hash, pairs[1..])
  {
  }

  class RetryQueueWithoutDuplicates {
    /** `#queue`: the (hash, entry) pairs of the Map, in insertion order. */
    var pairs: seq<(string, Entry)>
    const enabled: bool
    const maxSize: Option<nat>
    /** MessageHasher.hash: the content hash, left uninterpreted. */
    const hash: Serializable -> string

    ghost predicate Valid()
      reads this
    {
      KeyedByHash(hash, pairs) && WithinCapacity(maxSize, |pairs|)
    }

    /** The queued entries, oldest first. */
    function Contents(): (q: seq<Entry>)
      reads this
      requires Valid()
      ensures UniqueHashes(hash, q)
    {
      Values(pairs)
    }

    /** `enabled` defaults to true and `maxSize` to null. */
    constructor (params: RetryQueueOptions, hash: Serializable -> string)
      ensures Valid() && Contents() == []
      ensures enabled == (params.enabled != Some(false))
      ensures maxSize == params.maxSize && this.hash == hash
    {
      pairs := [];
      enabled := params.enabled != Some(false);
      maxSize := params.maxSize;
      this.hash := hash;
    }

    method Size() returns (n: nat)
      requires Valid()
      ensures n == |Contents()|
    {
      n := |pairs|;
    }

    method Enqueue(channel: string, message: TransportMessage) returns (added: bool)
      requires Valid()
      modifies this
      ensures Valid()
      ensures (Contents(), added) == Enqueued(enabled, maxSize, hash, old(Contents()), Entry(channel, message))
    {
      if !enabled {
        return false;
      }
      ghost var q0 := Contents();
      if maxSize.Some? && maxSize.value != 0 && |pairs| >= maxSize.value {
        var _ := Dequeue();
      }
      ghost var kept := Contents();
      assert kept == if AtCapacity(maxSize, |q0|) then q0[1..] else q0;
      var h := hash(message.payload);
      KeyedByHashDedups(hash, pairs, h);
      if Has(pairs, h) {
        return false;
      }
      Append(h, Entry(channel, message));
      return true;
    }

    /** `map.set(key, entry)` for a key not yet in the map, on a queue with room. */
    method Append(key: string, e: Entry)
      requires Valid() && key == hash(e.message.payload) && !Has(pairs, key) && !AtCapacity(maxSize, |pairs|)
      modifies this
      ensures Valid() && Contents() == old(Contents()) + [e]
    {
      ghost var q := Contents();
      pairs := pairs + [(key, e)];
      assert Values(pairs) == q + [e];
    }

    /**
     * `dequeue()`. On an empty enabled queue the source destructures
     * `undefined` and throws a TypeError; nothing changes then.
     */
    method Dequeue() returns (m: Result<Option<TransportMessage>>)
      requires Valid()
      modifies this
      ensures Valid()
      ensures enabled && old(pairs) == [] <==> m.Failure?
      ensures m.Failure? ==> m.error == TypeError && pairs == old(pairs)
      ensures m.Success? ==> (Contents(), m.value) == Dequeued(enabled, old(Contents()))
    {
      if !enabled {
        return Success(None);
      }
      if pairs == [] {
        return Failure(TypeError);
      }
      ghost var q0 := Contents();
      var first := pairs[0].1;
      DeleteFirst(hash, pairs);
      pairs := Delete(pairs, hash(first.message.payload));
      assert Values(pairs) == q0[1..];
      return Success(Some(first.message));
    }

    /**
     * `process(handler)`, with the handler's results given by `script`; the
     * handler itself does not touch this queue.
     */
    method Process(script: seq<HandlerOutcome>) returns (visited: seq<Entry>)
      requires Valid()
      modifies this
      ensures Valid()
      ensures (Contents(), visited) == Processed(enabled, old(Contents()), script)
    {
      visited := [];
      if !enabled {
        return;
      }
      ghost var start := Contents();
      while |pairs| > 0
        invariant Processing(start, script, visited)
        decreases |start| - |visited|
      {
        var head := pairs[0].1;
        if !Caught(Outcome(script, |visited|)) {
          assert head == Contents()[0];
          ProcessedStopsAfter(start, script, visited, head);
          visited := visited + [head];
          return;
        }
        head := Advance(start, script, visited);
        visited := visited + [head];
      }
      ProcessedEmpties(start, script);
    }

    /**
     * The drain after the handler succeeded on the entries `visited`: they
     * were the oldest entries of `start` and are gone, the rest is queued.
     */
    ghost predicate Processing(start: seq<Entry>, script: seq<HandlerOutcome>, visited: seq<Entry>)
      reads this
    {
      && Valid() && enabled
      && |visited| <= |start| && visited == start[..|visited|]
      && Contents() == start[|visited|..]
      && forall i :: 0 <= i < |visited| ==> Succeeds(script, i)
    }

    /** One round of `process` whose handler call succeeds: the head is dequeued. */
    method Advance(ghost start: seq<Entry>, script: seq<HandlerOutcome>, ghost visited: seq<Entry>) returns (head: Entry)
      requires Processing(start, script, visited) && pairs != [] && Succeeds(script, |visited|)
      modifies this
      ensures Processing(start, script, visited + [head])
    {
      head := pairs[0].1;
      ghost var k := |visited|;
      assert head == Contents()[0] == start[k];
      var _ := Dequeue();
      assert Contents() == start[k + 1..];
      assert visited + [head] == start[..k + 1];
    }
  }

  /** The payloads 0 .. n-1 have pairwise distinct hashes. */
  predicate DistinctUpTo(hash: Serializable -> string, n: nat)
  {
    forall i, j :: 0 <= i < j < n ==> hash(Num(i)) != hash(Num(j))
  }

  /** Enqueues payloads 0 .. n-1 on channel "testing", as the queue tests' set-up loops do. */
  method EnqueueRange(q: RetryQueueWithoutDuplicates, n: nat)
    requires q.Valid() && q.enabled && q.Contents() == [] && WithinCapacity(q.maxSize, n)
    requires DistinctUpTo(q.hash, n)
    modifies q
    ensures q.Valid() && |q.Contents()| == n
    ensures forall k :: 0 <= k < n ==> q.Contents()[k] == Entry("testing", Testing(k))
  {
    var i := 0;
    while i < n
      invariant 0 <= i <= n && q.Valid() && |q.Contents()| == i
      invariant forall k :: 0 <= k < i ==> q.Contents()[k] == Entry("testing", Testing(k))
    {
      ghost var before := q.Contents();
      assert q.hash(Num(i)) !in Hashes(q.hash, before) by {
        forall k | 0 <= k < i
          ensures Hashes(q.hash, before)[k] != q.hash(Num(i))
        {
          assert before[k].message.payload == Num(k);
        }
      }
      var _ := q.Enqueue("testing", Testing(i));
      i := i + 1;
    }
  }

  /**
   * tests/retry_queue.spec.ts, "does not insert duplicates": the second
   * enqueue of payload "foo" returns false and the size stays 1.
   */
  method DuplicateScenario(hash: Serializable -> string) returns (first: bool, firstSize: nat, second: bool, secondSize: nat)
    ensures first && firstSize == 1 && !second && secondSize == 1
  {
    var q := new RetryQueueWithoutDuplicates(NoOptions, hash);
    first := q.Enqueue("testing", TransportMessage("testing", Str("foo")));
    firstSize := q.Size();
    assert Hashes(hash, q.Contents())[0] == hash(Str("foo"));
    second := q.Enqueue("testing", TransportMessage("testing", Str("foo")));
    secondSize := q.Size();
  }

  /**
   * tests/retry_queue.spec.ts: with maxSize 5, payloads 0..5 (whose hashes
   * differ) leave 1..5 queued, and dequeueing until the size is 0 yields them
   * in order.
   */
  method EvictionScenario(hash: Serializable -> string)
      returns (sizeBefore: nat, sizeAfter: nat, drained: seq<TransportMessage>)
    requires DistinctUpTo(hash, 6)
    ensures sizeBefore == 5 && sizeAfter == 5
    ensures drained == [Testing(1), Testing(2), Testing(3), Testing(4), Testing(5)]
  {
    var q;
    q, sizeBefore, sizeAfter := Overflow(hash);
    drained := DrainAll(q);
    assert |drained| == 5 && forall k :: 0 <= k < 5 ==> drained[k] == Testing(k + 1);
  }

  /** Fills a queue of capacity 5 with payloads 0 .. 4, then enqueues payload 5: payload 0 is evicted. */
  method Overflow(hash: Serializable -> string)
      returns (q: RetryQueueWithoutDuplicates, sizeBefore: nat, sizeAfter: nat)
    requires DistinctUpTo(hash, 6)
    ensures fresh(q) && q.Valid() && q.enabled
    ensures sizeBefore == 5 && sizeAfter == 5
    ensures |q.Contents()| == 5 && forall k :: 0 <= k < 5 ==> q.Contents()[k] == Entry("testing", Testing(k + 1))
  {
    q := new RetryQueueWithoutDuplicates(RetryQueueOptions(None, None, Some(5), None), hash);
    EnqueueRange(q, 5);
    sizeBefore := q.Size();
    ghost var five := q.Contents();
    assert hash(Num(5)) !in Hashes(hash, five[1..]) by {
      forall k | 0 <= k < 4
        ensures Hashes(hash, five[1..])[k] != hash(Num(5))
      {
        assert five[1..][k].message.payload == Num(k + 1);
      }
    }
    var _ := q.Enqueue("testing", Testing(5));
    sizeAfter := q.Size();
  }

  /** Dequeues until the queue reports size 0: the messages come out oldest first. */
  method DrainAll(q: RetryQueueWithoutDuplicates) returns (drained: seq<TransportMessage>)
    requires q.Valid() && q.enabled
    modifies q
    ensures q.Valid() && q.Contents() == []
    ensures |drained| == |old(q.Contents())|
    ensures forall k :: 0 <= k < |drained| ==> drained[k] == old(q.Contents())[k].message
  {
    ghost var start := q.Contents();
    drained := [];
    var n := q.Size();
    while n > 0
      invariant Draining(q, start, drained) && n == |q.Contents()|
      decreases n
    {
      drained := DequeueInto(q, start, drained);
      n := q.Size();
    }
  }

  /** A drain of `start` that has dequeued the messages `drained` so far. */
  ghost predicate Draining(q: RetryQueueWithoutDuplicates, start: seq<Entry>, drained: seq<TransportMessage>)
    reads q
  {
    && q.Valid() && q.enabled && |drained| <= |start| && q.Contents() == start[|drained|..]
    && forall k :: 0 <= k < |drained| ==> drained[k] == start[k].message
  }

  /** One more dequeue of a drain: its message is appended. */
  method DequeueInto(q: RetryQueueWithoutDuplicates, ghost start: seq<Entry>, drained: seq<TransportMessage>)
      returns (more: seq<TransportMessage>)
    requires Draining(q, start, drained) && |drained| < |start|
    modifies q
    ensures Draining(q, start, more) && |more| == |drained| + 1
  {
    ghost var before := q.Contents();
    var m := q.Dequeue();
    assert m == Success(Some(before[0].message)) && q.Contents() == before[1..];
    more := drained + [m.value.value];
  }

  /**
   * tests/retry_queue.spec.ts: on payloads 0..4 with distinct hashes, a
   * handler failing on its third call (false or thrown) runs three times
   * and leaves three entries; an always-successful one sees 0..4 in order
   * and empties the queue.
   */
  method ProcessScenario(hash: Serializable -> string, third: HandlerOutcome)
      returns (calls: nat, size: nat, allVisited: seq<Entry>, allSize: nat)
    requires DistinctUpTo(hash, 5)
    requires third == Resolved(false) || third == Rejected
    ensures calls == 3 && size == 3
    ensures allSize == 0 && |allVisited| == 5
    ensures forall k :: 0 <= k < 5 ==> allVisited[k].message.payload == Num(k)
  {
    var q := new RetryQueueWithoutDuplicates(NoOptions, hash);
    EnqueueRange(q, 5);
    var visited := q.Process([Resolved(true), Resolved(true), third]);
    FirstFailure([Resolved(true), Resolved(true), third], 5, 2);
    calls := |visited|;
    size := q.Size();
    var all := new RetryQueueWithoutDuplicates(NoOptions, hash);
    EnqueueRange(all, 5);
    allVisited := all.Process([]);
    allSize := all.Size();
  }
}

/**
 * The retry queue a bus owns (src/retry_queue.ts): a facade that picks one of
 * the two queue variants when it is built and forwards every call to it.
 */
module QueueFacade {

  import opened Types
  import opened QueueCommon
  import WithDup = QueueWithDuplicates
  import WithoutDup = QueueWithoutDuplicates

  /** `removeDuplicates` defaults to true: only an explicit false keeps duplicates. */
  predicate RemovesDuplicates(params: RetryQueueOptions)
  {
    params.removeDuplicates != Some(false)
  }

  /** `enqueue` on the variant the facade holds: the new contents and the returned flag. */
  function Enqueued(removeDuplicates: bool, enabled: bool, maxSize: Option<nat>, hash: Serializable -> string,
                    q: seq<Entry>, e: Entry): (r: (seq<Entry>, bool))
    ensures !enabled ==> r == (q, false)
    ensures forall x :: x in r.0 ==> x in q || x == e
    ensures WithinCapacity(maxSize, |q|) ==> WithinCapacity(maxSize, |r.0|)
    ensures removeDuplicates && WithoutDup.UniqueHashes(hash, q) ==> WithoutDup.UniqueHashes(hash, r.0)
  {
    KeptAreQueued(maxSize, q);
    if removeDuplicates then WithoutDup.Enqueued(enabled, maxSize, hash, q, e)
    else WithDup.Enqueued(enabled, maxSize, q, e)
  }

  /** Every entry an append keeps, after evicting the head of a full queue, was queued. */
  lemma KeptAreQueued(maxSize: Option<nat>, q: seq<Entry>)
    ensures forall x :: x in (if AtCapacity(maxSize, |q|) then q[1..] else q) ==> x in q
  {
    if AtCapacity(maxSize, |q|) {
      forall x | x in q[1..]
        ensures x in q
      {
        var i :| 0 <= i < |q| - 1 && q[1..][i] == x;
        assert q[i + 1] == x;
      }
    }
  }

  /**
   * One enqueue changes the size by at most one: it refuses (same size),
   * appends (one more), or evicts and appends (same size); a refusal on a
   * full deduplicating queue is the one case that shrinks it.
   */
  lemma EnqueueSize(removeDuplicates: bool, enabled: bool, maxSize: Option<nat>, hash: Serializable -> string,
                    q: seq<Entry>, e: Entry)
    ensures var r := Enqueued(removeDuplicates, enabled, maxSize, hash, q, e);
      && |q| - 1 <= |r.0| <= |q| + 1
      && (r.1 ==> |r.0| == (if AtCapacity(maxSize, |q|) then |q| else |q| + 1))
      && (!r.1 && !(enabled && AtCapacity(maxSize, |q|)) ==> r.0 == q)
  {
  }

  class RetryQueue {
    /** Which variant `#queue` holds; decided once, in the constructor. */
    const removeDuplicates: bool
    const withDuplicates: WithDup.RetryQueueWithDuplicates?
    const withoutDuplicates: WithoutDup.RetryQueueWithoutDuplicates?
    /** MessageHasher.hash, used by the deduplicating variant. */
    const hash: Serializable -> string
    ghost const Repr: set<object>

    ghost predicate Valid()
      reads this, Repr
    {
      && this in Repr
      && if removeDuplicates then
           && withoutDuplicates != null && withDuplicates == null
           && Repr == {this, withoutDuplicates}
           && withoutDuplicates.Valid() && withoutDuplicates.hash == hash
         else
           && withDuplicates != null && withoutDuplicates == null
           && Repr == {this, withDuplicates}
           && withDuplicates.Valid()
    }

    /** The inner queue's entries, oldest first. */
    function Contents(): (q: seq<Entry>)
      reads this, Repr
      requires Valid()
      ensures removeDuplicates ==> WithoutDup.UniqueHashes(hash, q)
      ensures WithinCapacity(MaxSize(), |q|)
    {
      if removeDuplicates then withoutDuplicates.Contents() else withDuplicates.entries
    }

    function Enabled(): bool
      reads this, Repr
      requires Valid()
    {
      if removeDuplicates then withoutDuplicates.enabled else withDuplicates.enabled
    }

    function MaxSize(): Option<nat>
      reads this, Repr
      requires Valid()
    {
      if removeDuplicates then withoutDuplicates.maxSize else withDuplicates.maxSize
    }

    /**
     * `enabled` defaults to true, `maxSize` to null and `removeDuplicates` to
     * true; only `enabled` and `maxSize` reach the inner queue.
     */
    constructor (params: RetryQueueOptions, hash: Serializable -> string)
      ensures Valid() && fresh(Repr) && Contents() == []
      ensures removeDuplicates == RemovesDuplicates(params)
      ensures Enabled() == (params.enabled != Some(false))
      ensures MaxSize() == params.maxSize && this.hash == hash
    {
      var forwarded := RetryQueueOptions(Some(params.enabled != Some(false)), None, params.maxSize, None);
      this.hash := hash;
      if RemovesDuplicates(params) {
        removeDuplicates := true;
        var inner := new WithoutDup.RetryQueueWithoutDuplicates(forwarded, hash);
        withoutDuplicates := inner;
        withDuplicates := null;
        Repr := {this, inner};
      } else {
        removeDuplicates := false;
        var inner := new WithDup.RetryQueueWithDuplicates(forwarded);
        withDuplicates := inner;
        withoutDuplicates := null;
        Repr := {this, inner};
      }
    }

    /** `getInternalQueue().size()`. */
    method InternalSize() returns (n: nat)
      requires Valid()
      ensures n == |Contents()|
    {
      if removeDuplicates {
        n := withoutDuplicates.Size();
      } else {
        n := withDuplicates.Size();
      }
    }

    method Enqueue(channel: string, message: TransportMessage) returns (added: bool)
      requires Valid()
      modifies Repr
      ensures Valid()
      ensures (Contents(), added)
           == Enqueued(removeDuplicates, Enabled(), MaxSize(), hash, old(Contents()), Entry(channel, message))
    {
      if removeDuplicates {
        added := withoutDuplicates.Enqueue(channel, message);
      } else {
        added := withDuplicates.Enqueue(channel, message);
      }
    }

    /**
     * `dequeue()`: removes the oldest entry and returns nothing. The
     * deduplicating variant throws on an empty enabled queue, and so does
     * the facade then.
     */
    method Dequeue() returns (failure: Option<Error>)
      requires Valid()
      modifies Repr
      ensures Valid()
      ensures failure.Some? <==> removeDuplicates && Enabled() && old(Contents()) == []
      ensures failure.Some? ==> failure.value == TypeError
      ensures Contents() == Dequeued(Enabled(), old(Contents())).0
    {
      failure := None;
      if removeDuplicates {
        var m := withoutDuplicates.Dequeue();
        if m.Failure? {
          failure := Some(m.error);
        }
      } else {
        var _ := withDuplicates.Dequeue();
      }
    }

    /** `process(handler)`, for a handler that does not touch this queue. */
    method Process(script: seq<HandlerOutcome>) returns (visited: seq<Entry>)
      requires Valid()
      modifies Repr
      ensures Valid()
      ensures (Contents(), visited) == Processed(Enabled(), old(Contents()), script)
    {
      if removeDuplicates {
        visited := withoutDuplicates.Process(script);
      } else {
        visited := withDuplicates.Process(script);
      }
    }
  }

  /**
   * tests/retry_queue.spec.ts: `removeDuplicates: true` (and the default)
   * builds the deduplicating variant, `removeDuplicates: false` the
   * duplicate-preserving one.
   */
  method VariantSelection(hash: Serializable -> string) returns (explicit: bool, byDefault: bool, keeping: bool)
    ensures explicit && byDefault && !keeping
  {
    var a := new RetryQueue(RetryQueueOptions(None, Some(true), None, None), hash);
    var b := new RetryQueue(NoOptions, hash);
    var c := new RetryQueue(RetryQueueOptions(None, Some(false), None, None), hash);
    explicit := a.removeDuplicates;
    byDefault := b.removeDuplicates;
    keeping := c.removeDuplicates;
  }

  /**
   * `dequeue()` on a new, empty queue: the deduplicating default throws a
   * TypeError, the duplicate-preserving variant returns quietly.
   */
  method EmptyDequeueScenario(hash: Serializable -> string) returns (byDefault: Option<Error>, keeping: Option<Error>)
    ensures byDefault == Some(TypeError) && keeping == None
  {
    var a := new RetryQueue(NoOptions, hash);
    byDefault := a.Dequeue();
    var b := new RetryQueue(RetryQueueOptions(None, Some(false), None, None), hash);
    keeping := b.Dequeue();
  }
}

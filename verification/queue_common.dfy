/**
 * Behaviour both retry-queue variants share
 * (src/retry_queue_with_duplicates.ts, src/retry_queue_without_duplicates.ts):
 * `dequeue` takes the oldest entry, and `process` runs the handler on the
 * entries oldest first, removes the head after each success and stops at the
 * first false or rejected result.
 */
module QueueCommon {

  import opened Types

  /** What one awaited handler call produced. */
  datatype HandlerOutcome = Resolved(value: bool) | Rejected

  /**
   * The outcome of the i-th handler call (0-based). A script lists the
   * outcomes of the first calls; calls past its end resolve to true.
   */
  function Outcome(script: seq<HandlerOutcome>, i: nat): HandlerOutcome
  {
    if i < |script| then script[i] else Resolved(true)
  }

  /** `await handler(...).catch(() => false)`: the value the loop tests. */
  function Caught(o: HandlerOutcome): bool
  {
    match o
    case Resolved(b) => b
    case Rejected => false
  }

  /** Whether the i-th handler call lets the drain go on. */
  predicate Succeeds(script: seq<HandlerOutcome>, i: nat)
  {
    Caught(Outcome(script, i))
  }

  /**
   * How many of n queued entries a drain removes: the length of the run of
   * successes the script starts with, capped at n.
   */
  function Removed(script: seq<HandlerOutcome>, n: nat): (k: nat)
    ensures k <= n
    ensures forall i :: 0 <= i < k ==> Succeeds(script, i)
    ensures k < n ==> !Succeeds(script, k)
  {
    if n == 0 then 0
    else
      var before := Removed(script, n - 1);
      if before == n - 1 && Succeeds(script, n - 1) then n else before
  }

  /** How many times the handler runs on n entries: the successes plus the failing call, if any. */
  function Calls(script: seq<HandlerOutcome>, n: nat): (c: nat)
    ensures Removed(script, n) <= c <= n
    ensures c == n || c == Removed(script, n) + 1
  {
    var k := Removed(script, n);
    if k < n then k + 1 else n
  }

  /** The drain removes exactly the entries before the first failing call. */
  lemma FirstFailure(script: seq<HandlerOutcome>, n: nat, k: nat)
    requires k < n && !Succeeds(script, k)
    requires forall i :: 0 <= i < k ==> Succeeds(script, i)
    ensures Removed(script, n) == k && Calls(script, n) == k + 1
  {
  }

  /**
   * One `process` call on a queue holding q: the entries whose handler calls
   * succeeded leave the head of the queue, the first failing entry and all
   * later ones stay in their order, and `visited` lists the entries the
   * handler ran on. A disabled queue calls no handler.
   */
  function Processed(enabled: bool, q: seq<Entry>, script: seq<HandlerOutcome>): (r: (seq<Entry>, seq<Entry>))
    ensures var (rest, visited) := r;
      && (!enabled ==> rest == q && visited == [])
      && (enabled ==>
          && |rest| <= |q| && rest == q[|q| - |rest|..]
          && (forall i :: 0 <= i < |q| - |rest| ==> Succeeds(script, i))
          && (rest == [] ==> visited == q)
          && (rest != [] ==> !Succeeds(script, |q| - |rest|) && visited == q[..|q| - |rest| + 1]))
  {
    if !enabled then (q, [])
    else (q[Removed(script, |q|)..], q[..Calls(script, |q|)])
  }

  /**
   * `dequeue()` on an enabled or disabled queue holding q: the new contents
   * and the message of the removed oldest entry, if any.
   */
  function Dequeued(enabled: bool, q: seq<Entry>): (r: (seq<Entry>, Option<TransportMessage>))
    ensures r.1.Some? <==> enabled && q != []
    ensures r.1.Some? ==> q == [Entry(q[0].channel, r.1.value)] + r.0
    ensures r.1.None? ==> r.0 == q
  {
    if enabled && q != [] then (q[1..], Some(q[0].message)) else (q, None)
  }

  /** A drain of `start` whose call k fails after k successes leaves `start[k..]` and visits `start[..k + 1]`. */
  lemma ProcessedStopsAt(start: seq<Entry>, script: seq<HandlerOutcome>, k: nat)
    requires k < |start| && !Succeeds(script, k)
    requires forall i :: 0 <= i < k ==> Succeeds(script, i)
    ensures Processed(true, start, script) == (start[k..], start[..k + 1])
  {
    FirstFailure(script, |start|, k);
  }

  /**
   * A drain that has removed the entries `visited` and whose next call
   * fails on `head`: it leaves the rest of `start` and has visited `head` too.
   */
  lemma ProcessedStopsAfter(start: seq<Entry>, script: seq<HandlerOutcome>, visited: seq<Entry>, head: Entry)
    requires |visited| < |start| && visited == start[..|visited|] && head == start[|visited|]
    requires !Succeeds(script, |visited|) && forall i :: 0 <= i < |visited| ==> Succeeds(script, i)
    ensures Processed(true, start, script) == (start[|visited|..], visited + [head])
  {
    ProcessedStopsAt(start, script, |visited|);
    assert visited + [head] == start[..|visited| + 1];
  }

  /** A drain of `start` whose calls all succeed visits every entry and empties the queue. */
  lemma ProcessedEmpties(start: seq<Entry>, script: seq<HandlerOutcome>)
    requires forall i :: 0 <= i < |start| ==> Succeeds(script, i)
    ensures Processed(true, start, script) == ([], start)
  {
    assert Removed(script, |start|) == |start|;
  }

  /** A rejected handler call and one that resolves false have the same effect. */
  lemma {:induction false} RejectionIsFalse(script: seq<HandlerOutcome>, i: nat, n: nat)
    requires i < |script| && script[i] == Rejected
    ensures Removed(script, n) == Removed(script[i := Resolved(false)], n)
    decreases n
  {
    if n > 0 {
      RejectionIsFalse(script, i, n - 1);
      assert Succeeds(script, n - 1) == Succeeds(script[i := Resolved(false)], n - 1);
    }
  }

  /** The envelope the queue tests enqueue: bus id "testing" and payload i. */
  function Testing(i: int): TransportMessage
  {
    TransportMessage("testing", Num(i))
  }
}

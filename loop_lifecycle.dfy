/**
 * Sequences of tracker calls. Every call touches one workspace, so what a
 * workspace's entry ends up as depends only on the calls made for that
 * workspace, in their order; and repeated rounds after registration give
 * the decisions the iteration bound promises.
 */
module LoopLifecycle {
  import opened Wrappers
  import opened LoopTracker

  /** One mutating tracker call. */
  datatype Call<K, P> =
    | Register(id: K, maxIterations: uint32, completionPromise: Option<string>, originalPrompt: string,
               sessionId: string, executorProfileId: P, workingDir: Option<string>)
    | UpdateSessionId(id: K, sessionId: string)
    | IncrementAndCheck(id: K)
    | Remove(id: K)

  /** The effect of one call on the whole map. */
  function Apply<K, P>(m: States<K, P>, c: Call<K, P>): States<K, P>
  {
    match c
    case Register(id, max, promise, prompt, sid, profile, dir) =>
      Registered(m, id, Start(max, promise, prompt, sid, profile, dir))
    case UpdateSessionId(id, sid) => WithSessionId(m, id, sid)
    case IncrementAndCheck(id) => Incremented(m, id)
    case Remove(id) => Removed(m, id)
  }

  /** The effect of one call on a single workspace's entry: the state machine
      Unregistered -> Active(0) -> Active(1) -> ... -> Removed. */
  function Step<K, P>(e: Option<LoopState<P>>, c: Call<K, P>): Option<LoopState<P>>
  {
    match c
    case Register(_, max, promise, prompt, sid, profile, dir) => Some(Start(max, promise, prompt, sid, profile, dir))
    case UpdateSessionId(_, sid) => if e.Some? then Some(e.value.(sessionId := sid)) else None
    case IncrementAndCheck(_) => if e.Some? then Some(e.value.Increment()) else None
    case Remove(_) => None
  }

  function Run<K, P>(m: States<K, P>, calls: seq<Call<K, P>>): States<K, P>
    decreases |calls|
  {
    if calls == [] then m else Run(Apply(m, calls[0]), calls[1..])
  }

  function RunEntry<K, P>(e: Option<LoopState<P>>, calls: seq<Call<K, P>>): Option<LoopState<P>>
    decreases |calls|
  {
    if calls == [] then e else RunEntry(Step(e, calls[0]), calls[1..])
  }

  /** The calls made for workspace `id`, in their original order. */
  ghost function CallsFor<K, P>(calls: seq<Call<K, P>>, id: K): (r: seq<Call<K, P>>)
    ensures forall j :: 0 <= j < |r| ==> r[j].id == id
    decreases |calls|
  {
    if calls == [] then []
    else if calls[0].id == id then [calls[0]] + CallsFor(calls[1..], id)
    else CallsFor(calls[1..], id)
  }

  /** A call changes its own workspace's entry as the state machine says and
      leaves every other workspace's entry alone. */
  lemma ApplyAt<K, P>(m: States<K, P>, c: Call<K, P>, k: K)
    ensures Lookup(Apply(m, c), k) == if k == c.id then Step(Lookup(m, k), c) else Lookup(m, k)
  {
    if k != c.id {
      assert k in m.Keys + Apply(m, c).Keys ==> Lookup(Apply(m, c), k) == Lookup(m, k);
    }
  }

  /** The entry of `id` after any interleaving of calls is the entry `id`
      had before, run through the calls made for `id` alone. */
  lemma {:induction false} RunIsolation<K, P>(m: States<K, P>, calls: seq<Call<K, P>>, id: K)
    ensures Lookup(Run(m, calls), id) == RunEntry(Lookup(m, id), CallsFor(calls, id))
    decreases |calls|
  {
    if calls != [] {
      var c := calls[0];
      RunIsolation(Apply(m, c), calls[1..], id);
      ApplyAt(m, c, id);
      if c.id == id {
        assert CallsFor(calls, id) == [c] + CallsFor(calls[1..], id);
        assert ([c] + CallsFor(calls[1..], id))[1..] == CallsFor(calls[1..], id);
      }
    }
  }

  /** Two interleavings that make the same calls for `id`, in the same order,
      leave `id` with the same entry. */
  lemma InterleavingIndependence<K, P>(m: States<K, P>, a: seq<Call<K, P>>, b: seq<Call<K, P>>, id: K)
    requires CallsFor(a, id) == CallsFor(b, id)
    ensures Lookup(Run(m, a), id) == Lookup(Run(m, b), id)
  {
    RunIsolation(m, a, id);
    RunIsolation(m, b, id);
  }

  /** Calls for other workspaces never disturb `id`'s entry. */
  lemma OtherWorkspacesDoNotInterfere<K, P>(m: States<K, P>, calls: seq<Call<K, P>>, id: K)
    requires forall j :: 0 <= j < |calls| ==> calls[j].id != id
    ensures Lookup(Run(m, calls), id) == Lookup(m, id)
  {
    RunIsolation(m, calls, id);
    NoCallsFor(calls, id);
  }

  lemma {:induction false} NoCallsFor<K, P>(calls: seq<Call<K, P>>, id: K)
    requires forall j :: 0 <= j < |calls| ==> calls[j].id != id
    ensures CallsFor(calls, id) == []
    decreases |calls|
  {
    if calls != [] {
      NoCallsFor(calls[1..], id);
    }
  }

  // ---------------------------------------------------------------------
  // Repeated rounds.
  // ---------------------------------------------------------------------

  /** The decisions returned by `n` successive `increment_and_check` calls
      on workspace `id`. */
  function Decisions<K, P>(m: States<K, P>, id: K, n: nat): (r: seq<bool>)
    ensures |r| == n
    decreases n
  {
    if n == 0 then []
    else
      var m' := Incremented(m, id);
      [CanContinueIn(m', id)] + Decisions(m', id, n - 1)
  }

  /** The map after `n` successive `increment_and_check` calls on `id`. */
  function IncrementedTimes<K, P>(m: States<K, P>, id: K, n: nat): States<K, P>
    decreases n
  {
    if n == 0 then m else IncrementedTimes(Incremented(m, id), id, n - 1)
  }

  /** After `n` rounds the counter has gone up by exactly `n`, nothing else in
      the entry has changed, and no other workspace has changed. */
  lemma {:induction false} IncrementedTimesEffect<K, P>(m: States<K, P>, id: K, n: nat)
    ensures id in m ==> (id in IncrementedTimes(m, id, n)
                         && IncrementedTimes(m, id, n)[id] == m[id].(iteration := m[id].iteration + n))
    ensures id !in m ==> IncrementedTimes(m, id, n) == m
    ensures IncrementedTimes(m, id, n).Keys == m.Keys
    ensures OthersUnchanged(m, IncrementedTimes(m, id, n), id)
    decreases n
  {
    if n > 0 {
      var m' := Incremented(m, id);
      IncrementedTimesEffect(m', id, n - 1);
    }
  }

  /** The j-th of `n` successive calls (counting from zero) returns whether
      the counter, after j + 1 bumps, is still below the bound; on an
      unregistered workspace every call returns false. */
  lemma {:induction false} DecisionsFollowBound<K, P>(m: States<K, P>, id: K, n: nat)
    ensures id in m ==> forall j :: 0 <= j < n ==>
      Decisions(m, id, n)[j] == (m[id].iteration + j + 1 < m[id].maxIterations)
    ensures id !in m ==> forall j :: 0 <= j < n ==> !Decisions(m, id, n)[j]
    decreases n
  {
    if n > 0 {
      var m' := Incremented(m, id);
      DecisionsFollowBound(m', id, n - 1);
      var rest := Decisions(m', id, n - 1);
      assert Decisions(m, id, n) == [CanContinueIn(m', id)] + rest;
      assert forall j :: 1 <= j < n ==> Decisions(m, id, n)[j] == rest[j - 1];
    }
  }

  /** A freshly registered loop with bound `max` grants exactly max - 1
      further rounds: calls 1 .. max - 1 return true, every later call
      returns false, and after `n` calls the counter is `n`. */
  lemma BudgetAfterRegister<K, P>(m: States<K, P>, id: K, max: uint32, promise: Option<string>, prompt: string,
                                  sid: string, profile: P, dir: Option<string>, n: nat)
    ensures var r := Registered(m, id, Start(max, promise, prompt, sid, profile, dir));
      && (forall j :: 0 <= j < n ==> Decisions(r, id, n)[j] == (j + 1 < max))
      && Lookup(IncrementedTimes(r, id, n), id) == Some(Start(max, promise, prompt, sid, profile, dir).(iteration := n))
  {
    var r := Registered(m, id, Start(max, promise, prompt, sid, profile, dir));
    DecisionsFollowBound(r, id, n);
    IncrementedTimesEffect(r, id, n);
  }

  /** With a bound of 5: four rounds continue, the fifth does not. */
  lemma BudgetOfFive<K, P>(m: States<K, P>, id: K, promise: Option<string>, prompt: string,
                           sid: string, profile: P, dir: Option<string>)
    ensures Decisions(Registered(m, id, Start(5, promise, prompt, sid, profile, dir)), id, 5)
      == [true, true, true, true, false]
  {
    var r := Registered(m, id, Start(5, promise, prompt, sid, profile, dir));
    BudgetAfterRegister(m, id, 5, promise, prompt, sid, profile, dir, 5);
    DecisionsFollowBound(r, id, 5);
  }
}

/**
 * The auto-loop tracker: per-workspace loop state, the map from workspace
 * to state that the tracker owns, and the completion-marker test.
 *
 * Workspace identifiers (UUIDs) and executor profile identifiers are opaque
 * tokens of the surrounding system; they are the type parameters K and P.
 */
module LoopTracker {
  import opened Wrappers

  /** The range of the source's `u32`. */
  type uint32 = x: int | 0 <= x <= 0xFFFF_FFFF

  /** Two newlines and the continuation token 繼續 (U+7E7C U+7E8C). */
  const ContinueSuffix: string := "\n\n\U{7E7C}\U{7E8C}"

  /** The state of one workspace's loop. */
  datatype LoopState<P> = LoopState(
    iteration: nat,
    maxIterations: uint32,
    completionPromise: Option<string>,
    originalPrompt: string,
    sessionId: string,
    executorProfileId: P,
    workingDir: Option<string>)
  {
    /** A loop may run another round while its counter is below the bound. */
    predicate CanContinue()
    {
      iteration < maxIterations
    }

    /** The state after one more round: the counter goes up by one and is
        never clamped at the bound. */
    function Increment(): (s: LoopState<P>)
      ensures s.iteration == iteration + 1
      ensures s.(iteration := iteration) == this
    {
      this.(iteration := iteration + 1)
    }

    /** The prompt sent for the next round: the original prompt followed by
        the continuation suffix. */
    function FollowUpPrompt(): (p: string)
      ensures |p| == |originalPrompt| + 4
      ensures p[..|originalPrompt|] == originalPrompt
      ensures p[|originalPrompt|..] == ['\n', '\n', '\U{7E7C}', '\U{7E8C}']
    {
      originalPrompt + ContinueSuffix
    }
  }

  /** A freshly registered loop: the supplied fields with the counter at zero. */
  function Start<P>(maxIterations: uint32, completionPromise: Option<string>, originalPrompt: string,
                    sessionId: string, executorProfileId: P, workingDir: Option<string>): (s: LoopState<P>)
    ensures s.iteration == 0 && s.maxIterations == maxIterations
    ensures s.completionPromise == completionPromise && s.originalPrompt == originalPrompt
    ensures s.sessionId == sessionId && s.executorProfileId == executorProfileId
    ensures s.workingDir == workingDir
    ensures s.CanContinue() <==> maxIterations > 0
  {
    LoopState(0, maxIterations, completionPromise, originalPrompt, sessionId, executorProfileId, workingDir)
  }

  lemma ExhaustedStaysExhausted<P>(s: LoopState<P>)
    requires !s.CanContinue()
    ensures !s.Increment().CanContinue()
    ensures s.Increment().iteration > s.maxIterations
  {
  }

  lemma FollowUpPromptExample<P>(s: LoopState<P>)
    requires s.originalPrompt == "Build the feature"
    ensures s.FollowUpPrompt() == "Build the feature\n\n\U{7E7C}\U{7E8C}"
  {
  }

  // ---------------------------------------------------------------------
  // The tracker's map and what each tracker operation does to it.
  // ---------------------------------------------------------------------

  type States<K, P> = map<K, LoopState<P>>

  /** A snapshot of the entry for `id`, or None if no loop is registered. */
  function Lookup<K, P>(m: States<K, P>, id: K): (r: Option<LoopState<P>>)
    ensures r.Some? <==> id in m
    ensures r.Some? ==> r.value == m[id]
  {
    if id in m then Some(m[id]) else None
  }

  /** Every workspace other than `id` has the same entry (or none) in both maps. */
  ghost predicate OthersUnchanged<K, P>(m: States<K, P>, m': States<K, P>, id: K)
  {
    forall k :: k in m.Keys + m'.Keys && k != id ==> Lookup(m', k) == Lookup(m, k)
  }

  /** The map after registering `s` for `id`, replacing any earlier entry. */
  function Registered<K, P>(m: States<K, P>, id: K, s: LoopState<P>): (r: States<K, P>)
    ensures Lookup(r, id) == Some(s)
    ensures r.Keys == m.Keys + {id}
    ensures OthersUnchanged(m, r, id)
  {
    m[id := s]
  }

  /** The map after replacing the session identifier of `id`'s loop; no
      change when `id` has no loop. */
  function WithSessionId<K, P>(m: States<K, P>, id: K, sessionId: string): (r: States<K, P>)
    ensures id !in m ==> r == m
    ensures r.Keys == m.Keys
    ensures id in m ==> r[id].sessionId == sessionId && r[id].(sessionId := m[id].sessionId) == m[id]
    ensures OthersUnchanged(m, r, id)
  {
    if id in m then m[id := m[id].(sessionId := sessionId)] else m
  }

  /** The map after one more round of `id`'s loop; no change when `id` has
      no loop. */
  function Incremented<K, P>(m: States<K, P>, id: K): (r: States<K, P>)
    ensures id !in m ==> r == m
    ensures r.Keys == m.Keys
    ensures id in m ==> r[id].iteration == m[id].iteration + 1 && r[id].(iteration := m[id].iteration) == m[id]
    ensures OthersUnchanged(m, r, id)
  {
    if id in m then m[id := m[id].Increment()] else m
  }

  /** The continuation decision read off a map: whether `id` has a loop that
      is still below its bound. */
  predicate CanContinueIn<K, P>(m: States<K, P>, id: K)
  {
    id in m && m[id].CanContinue()
  }

  /** The decision `increment_and_check` returns: true exactly when `id` has
      a loop whose counter, once bumped, is still below the bound. */
  lemma IncrementDecision<K, P>(m: States<K, P>, id: K)
    ensures CanContinueIn(Incremented(m, id), id) <==> id in m && m[id].iteration + 1 < m[id].maxIterations
    ensures id !in m ==> !CanContinueIn(Incremented(m, id), id)
  {
  }

  /** The map after removing `id`'s loop, if it had one. */
  function Removed<K, P>(m: States<K, P>, id: K): (r: States<K, P>)
    ensures Lookup(r, id) == None
    ensures r.Keys == m.Keys - {id}
    ensures OthersUnchanged(m, r, id)
  {
    m - {id}
  }

  /** The completion marker registered for `id`: None when `id` has no loop
      or its loop has no marker. */
  function CompletionPromiseOf<K, P>(m: States<K, P>, id: K): (r: Option<string>)
    ensures id !in m ==> r == None
    ensures id in m ==> r == m[id].completionPromise
  {
    match Lookup(m, id)
    case Some(s) => s.completionPromise
    case None => None
  }

  lemma RegisterThenQuery<K, P>(m: States<K, P>, id: K, maxIterations: uint32, completionPromise: Option<string>,
                                originalPrompt: string, sessionId: string, executorProfileId: P, workingDir: Option<string>)
    ensures var r := Registered(m, id, Start(maxIterations, completionPromise, originalPrompt, sessionId, executorProfileId, workingDir));
      && id in r
      && r[id].iteration == 0 && r[id].maxIterations == maxIterations
      && r[id].originalPrompt == originalPrompt && r[id].sessionId == sessionId
      && r[id].executorProfileId == executorProfileId && r[id].workingDir == workingDir
      && CompletionPromiseOf(r, id) == completionPromise
  {
  }

  /** Registering twice for the same workspace keeps only the second state. */
  lemma RegisterOverwrites<K, P>(m: States<K, P>, id: K, s1: LoopState<P>, s2: LoopState<P>)
    ensures Registered(Registered(m, id, s1), id, s2) == Registered(m, id, s2)
  {
  }

  lemma RemoveThenQuery<K, P>(m: States<K, P>, id: K)
    ensures id !in Removed(m, id)
    ensures Lookup(Removed(m, id), id) == None
    ensures CompletionPromiseOf(Removed(m, id), id) == None
    ensures !CanContinueIn(Incremented(Removed(m, id), id), id)
  {
  }

  lemma RemoveIdempotent<K, P>(m: States<K, P>, id: K)
    ensures Removed(Removed(m, id), id) == Removed(m, id)
    ensures id !in m ==> Removed(m, id) == m
  {
  }

  // ---------------------------------------------------------------------
  // The tracker object.
  // ---------------------------------------------------------------------

  /** The tracker owns the map; each method is one sequential update of it. */
  class Tracker<K(==), P> {
    var states: States<K, P>

    /** An empty tracker. */
    constructor ()
      ensures states == map[]
    {
      states := map[];
    }

    method Register(id: K, maxIterations: uint32, completionPromise: Option<string>, originalPrompt: string,
                    sessionId: string, executorProfileId: P, workingDir: Option<string>)
      modifies this
      ensures states == Registered(old(states), id, Start(maxIterations, completionPromise, originalPrompt,
                                                          sessionId, executorProfileId, workingDir))
    {
      var state := LoopState(0, maxIterations, completionPromise, originalPrompt, sessionId, executorProfileId, workingDir);
      states := states[id := state];
    }

    method Get(id: K) returns (r: Option<LoopState<P>>)
      ensures r.Some? <==> id in states
      ensures r.Some? ==> r.value == states[id]
    {
      if id in states {
        r := Some(states[id]);
      } else {
        r := None;
      }
    }

    method UpdateSessionId(id: K, sessionId: string)
      modifies this
      ensures states == WithSessionId(old(states), id, sessionId)
    {
      if id in states {
        states := states[id := states[id].(sessionId := sessionId)];
      }
    }

    method IncrementAndCheck(id: K) returns (canContinue: bool)
      modifies this
      ensures states == Incremented(old(states), id)
      ensures canContinue <==> id in old(states) && old(states)[id].iteration + 1 < old(states)[id].maxIterations
    {
      if id in states {
        var state := states[id].Increment();
        states := states[id := state];
        canContinue := state.CanContinue();
      } else {
        canContinue := false;
      }
    }

    method Remove(id: K)
      modifies this
      ensures states == Removed(old(states), id)
    {
      if id in states {
        states := states - {id};
      }
    }

    method HasActiveLoop(id: K) returns (active: bool)
      ensures active <==> Lookup(states, id).Some?
    {
      active := id in states;
    }

    method GetCompletionPromise(id: K) returns (r: Option<string>)
      ensures id !in states ==> r == None
      ensures id in states ==> r == states[id].completionPromise
    {
      if id in states {
        r := states[id].completionPromise;
      } else {
        r := None;
      }
    }
  }

  /** The lifecycle that the source's own test walks through: register with
      a bound of 5, one round, then remove; the contracts alone decide it. */
  method LifecycleScenario<K(==), P>(id: K, profile: P) returns (first: bool, iterationAfter: nat, activeAfterRemove: bool)
    ensures first && iterationAfter == 1 && !activeAfterRemove
  {
    var tracker := new Tracker<K, P>();
    tracker.Register(id, 5, Some("<promise>COMPLETE</promise>"), "Test prompt", "session-123", profile, None);
    var active := tracker.HasActiveLoop(id);
    assert active;
    var state := tracker.Get(id);
    assert state.value.iteration == 0 && state.value.maxIterations == 5;
    first := tracker.IncrementAndCheck(id);
    state := tracker.Get(id);
    iterationAfter := state.value.iteration;
    tracker.Remove(id);
    activeAfterRemove := tracker.HasActiveLoop(id);
  }

  // ---------------------------------------------------------------------
  // Completion detection.
  // ---------------------------------------------------------------------

  /** `needle` occurs in `haystack` starting at position `i`. */
  predicate OccursAt(haystack: string, needle: string, i: int)
  {
    0 <= i <= |haystack| - |needle| && haystack[i..i + |needle|] == needle
  }

  /** `needle` occurs as a contiguous run somewhere in `haystack`. */
  ghost predicate IsSubstring(haystack: string, needle: string)
  {
    exists i :: OccursAt(haystack, needle, i)
  }

  /** Exact, case-sensitive containment: a left-to-right search for `needle`. */
  function Contains(haystack: string, needle: string): (found: bool)
    ensures found <==> IsSubstring(haystack, needle)
    decreases |haystack|
  {
    if |haystack| < |needle| then
      assert forall i :: !OccursAt(haystack, needle, i);
      false
    else if haystack[..|needle|] == needle then
      assert OccursAt(haystack, needle, 0);
      true
    else
      var found := Contains(haystack[1..], needle);
      assert found ==> IsSubstring(haystack, needle) by {
        if found {
          var j :| OccursAt(haystack[1..], needle, j);
          assert haystack[j + 1..j + 1 + |needle|] == haystack[1..][j..j + |needle|];
          assert OccursAt(haystack, needle, j + 1);
        }
      }
      assert IsSubstring(haystack, needle) ==> found by {
        if IsSubstring(haystack, needle) {
          var i :| OccursAt(haystack, needle, i);
          assert i != 0;
          assert haystack[1..][i - 1..i - 1 + |needle|] == haystack[i..i + |needle|];
          assert OccursAt(haystack[1..], needle, i - 1);
        }
      }
      found
  }

  /** Whether agent output shows the completion marker. An empty marker
      never matches. */
  function CheckCompletionPromise(output: string, completionPromise: string): (found: bool)
    ensures completionPromise == [] ==> !found
    ensures found <==> completionPromise != [] && IsSubstring(output, completionPromise)
  {
    if completionPromise == [] then false else Contains(output, completionPromise)
  }

  /** Output that embeds a non-empty marker anywhere shows completion,
      as in "Task completed. <promise>COMPLETE-HUNTER</promise> Done.". */
  lemma MarkerFoundInContext(before: string, completionPromise: string, after: string)
    requires completionPromise != []
    ensures CheckCompletionPromise(before + completionPromise + after, completionPromise)
  {
    var output := before + completionPromise + after;
    assert output[|before|..|before| + |completionPromise|] == completionPromise;
    assert OccursAt(output, completionPromise, |before|);
  }
}

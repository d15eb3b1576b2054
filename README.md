# Copilot auto-loop tracker, modelled in Dafny

The tracker behind the Copilot auto-loop feature of the local deployment crate.
When a loop is enabled, the agent re-prompts itself with a follow-up prompt
(the original prompt plus "\n\n繼續") until its output shows a completion
marker or an iteration bound is used up. The tracker keeps one loop state per
workspace in a map. Callers register a loop, read snapshots, replace the
session id, bump the counter and ask whether to continue, and remove the loop.
A free function tests whether agent output contains the completion marker.

Files:

- `wrappers.dfy`: module `Wrappers`, the `Option` type.
- `loop_tracker.dfy`: module `LoopTracker`.
  - `LoopState` is the per-workspace record, with `CanContinue`, `Increment` and `FollowUpPrompt`.
  - Functions give the effect of each tracker operation on the map: `Registered`, `WithSessionId`, `Incremented`, `Removed`, `Lookup` and `CompletionPromiseOf`.
  - The `Tracker` class holds the map as a field. Each method is proved to update it exactly as the matching function says.
  - `Contains` and `CheckCompletionPromise` do the completion test.
- `loop_lifecycle.dfy`: module `LoopLifecycle`.
  - It covers sequences of tracker calls.
  - A workspace's final entry depends only on the calls made for that workspace, taken in order.
  - Repeated `increment_and_check` calls after registration return the decisions the bound promises.

Modelling choices:

- Workspace ids (`Uuid`) and executor profile ids are opaque. They become the type parameters `K` and `P`, with equality only.
- `max_iterations` has the `u32` range (`uint32`). `iteration` is a `nat`; see "Left out".
- Strings are `seq<char>`. Rust's `str::contains` works on UTF-8 bytes. For valid UTF-8, a byte-level match is the same as a match on the character sequence, so `Contains` searches the character sequence.
- `get` returns a clone in the source. Datatype values give the same snapshot semantics.

## Model

| member | source | states |
|---|---|---|
| `LoopTracker.LoopState.CanContinue` | crates/local-deployment/src/loop_tracker.rs:33-36 | true iff the counter is below the bound; its properties are proved in `Start`, `ExhaustedStaysExhausted` and `IncrementDecision` |
| `LoopTracker.LoopState.Increment` | crates/local-deployment/src/loop_tracker.rs:38-41 | the counter rises by exactly one and every other field is unchanged (no clamp at the bound) |
| `LoopTracker.LoopState.FollowUpPrompt` | crates/local-deployment/src/loop_tracker.rs:43-46 | the follow-up prompt is the original prompt as a prefix followed by exactly the four characters newline, newline, 繼, 續; the state is not changed |
| `LoopTracker.FollowUpPromptExample` | crates/local-deployment/src/loop_tracker.rs:210-221 | a state whose prompt is "Build the feature" yields "Build the feature\n\n繼續" |
| `LoopTracker.Start` | crates/local-deployment/src/loop_tracker.rs:75-83 | a registered state has iteration 0 and exactly the supplied fields; it can continue iff the bound is positive |
| `LoopTracker.ExhaustedStaysExhausted` | crates/local-deployment/src/loop_tracker.rs:33-41 | once `can_continue` is false, another increment keeps it false and pushes the counter past the bound |
| `LoopTracker.Lookup` | crates/local-deployment/src/loop_tracker.rs:92-95 | a snapshot is present iff the workspace has an entry, and then equals that entry |
| `LoopTracker.Registered` | crates/local-deployment/src/loop_tracker.rs:84 | after registering, the workspace maps to the new state, the key set gains only that id, and no other workspace's entry changes |
| `LoopTracker.WithSessionId` | crates/local-deployment/src/loop_tracker.rs:97-102 | for a present id only `session_id` of that entry changes; for an absent id the map is unchanged; other entries are untouched |
| `LoopTracker.Incremented` | crates/local-deployment/src/loop_tracker.rs:105-107 | for a present id only that entry's iteration rises by one; for an absent id the map is unchanged; other entries are untouched |
| `LoopTracker.IncrementDecision` | crates/local-deployment/src/loop_tracker.rs:104-120 | the decision is true iff the id is registered and its bumped counter is below the bound; an unregistered id gives false |
| `LoopTracker.Removed` | crates/local-deployment/src/loop_tracker.rs:122-127 | after removal the id has no entry, the key set loses only that id, and other entries are unchanged |
| `LoopTracker.CompletionPromiseOf` | crates/local-deployment/src/loop_tracker.rs:134-141 | None for an unregistered workspace, otherwise the entry's own optional marker |
| `LoopTracker.RegisterThenQuery` | crates/local-deployment/src/loop_tracker.rs:164-187 | right after registration the loop is active with iteration 0, the given bound and fields, and the given marker |
| `LoopTracker.RegisterOverwrites` | crates/local-deployment/src/loop_tracker.rs:84 | registering twice for one workspace leaves only the second state |
| `LoopTracker.RemoveThenQuery` | crates/local-deployment/src/loop_tracker.rs:122-132 | after removal the loop is inactive, `get` and `get_completion_promise` give None, and `increment_and_check` gives false |
| `LoopTracker.RemoveIdempotent` | crates/local-deployment/src/loop_tracker.rs:122-127 | removing twice equals removing once; removing an absent id changes nothing |
| `LoopTracker.Tracker.constructor` | crates/local-deployment/src/loop_tracker.rs:57-62 | a new tracker has an empty map |
| `LoopTracker.Tracker.Register` | crates/local-deployment/src/loop_tracker.rs:64-90 | the map becomes `Registered` of the old map with a fresh iteration-0 state built from the arguments |
| `LoopTracker.Tracker.Get` | crates/local-deployment/src/loop_tracker.rs:92-95 | returns Some of the entry iff one exists; reads only |
| `LoopTracker.Tracker.UpdateSessionId` | crates/local-deployment/src/loop_tracker.rs:97-102 | the map becomes `WithSessionId` of the old map |
| `LoopTracker.Tracker.IncrementAndCheck` | crates/local-deployment/src/loop_tracker.rs:104-120 | the map becomes `Incremented` of the old map; the result is true iff the id was registered and its new counter is below the bound |
| `LoopTracker.Tracker.Remove` | crates/local-deployment/src/loop_tracker.rs:122-127 | the map becomes `Removed` of the old map |
| `LoopTracker.Tracker.HasActiveLoop` | crates/local-deployment/src/loop_tracker.rs:129-132 | true iff the workspace has an entry; reads only |
| `LoopTracker.Tracker.GetCompletionPromise` | crates/local-deployment/src/loop_tracker.rs:134-141 | None for an unregistered workspace, otherwise that entry's marker; reads only |
| `LoopTracker.LifecycleScenario` | crates/local-deployment/src/loop_tracker.rs:164-197 | a caller using only the method contracts: register with bound 5, the first round continues, the counter is 1, and after removal the loop is inactive |
| `LoopTracker.Contains` | crates/local-deployment/src/loop_tracker.rs:149 | the left-to-right search returns true iff the needle occurs as a contiguous run at some position of the text |
| `LoopTracker.CheckCompletionPromise` | crates/local-deployment/src/loop_tracker.rs:144-157 | an empty marker never matches; otherwise true iff the marker occurs contiguously and exactly in the output |
| `LoopTracker.MarkerFoundInContext` | crates/local-deployment/src/loop_tracker.rs:199-205 | output made of any text, then a non-empty marker, then any text, shows completion |
| `LoopLifecycle.ApplyAt` | crates/local-deployment/src/loop_tracker.rs:64-127 | each mutating call changes its own workspace's entry as the single-loop state machine says and no other entry |
| `LoopLifecycle.RunIsolation` | crates/local-deployment/src/loop_tracker.rs:51-127 | after any sequence of calls, a workspace's entry is its initial entry run through only the calls for that workspace, in order |
| `LoopLifecycle.InterleavingIndependence` | crates/local-deployment/src/loop_tracker.rs:51-127 | two interleavings with the same calls for a workspace leave it with the same entry |
| `LoopLifecycle.OtherWorkspacesDoNotInterfere` | crates/local-deployment/src/loop_tracker.rs:51-127 | calls for other workspaces never change a workspace's entry |
| `LoopLifecycle.Decisions` | crates/local-deployment/src/loop_tracker.rs:104-120 | n successive `increment_and_check` calls yield n decisions |
| `LoopLifecycle.IncrementedTimesEffect` | crates/local-deployment/src/loop_tracker.rs:104-120 | after n rounds the counter has risen by exactly n, nothing else in that entry changed, and no other workspace changed; unregistered ids are untouched |
| `LoopLifecycle.DecisionsFollowBound` | crates/local-deployment/src/loop_tracker.rs:104-120 | the j-th decision is true iff iteration + j + 1 is below the bound; for an unregistered id every decision is false |
| `LoopLifecycle.BudgetAfterRegister` | crates/local-deployment/src/loop_tracker.rs:75-120 | after registration with bound `max`, call j + 1 returns true iff j + 1 < max, and after n calls the counter is n with every other field as registered |
| `LoopLifecycle.BudgetOfFive` | crates/local-deployment/src/loop_tracker.rs:164-192 | with bound 5 the five calls after registration return true, true, true, true, false |

## Left out

- `LoopTracker.LoopState.Increment`: `iteration` is an unbounded `nat`. The source's `u32` would panic (debug build) or wrap to 0 (release build) on the call after 4294967295, which comes at least one round after `can_continue` became false. With `max_iterations = 4294967295` that is the very next call. The release-build wrap would make `increment_and_check` return true again from that call on. This is not modelled: `DecisionsFollowBound` and `BudgetAfterRegister` promise false for every call from `max` on.
- `Arc<RwLock<…>>` and `async`/`.await`: they only serialise access. Each tracker method is one atomic, sequential update of the map field. `LoopLifecycle` treats interleavings as sequences of these calls.
- `tracing::info!` logging in `register`, `increment_and_check`, `remove` and `check_completion_promise`: it is an observability side channel with no functional effect.
- `CopilotLoopState::increment` mutates the struct inside the map. The model computes the bumped value (`LoopState.Increment`) and the tracker method writes it back into its entry. A value held in the map has no aliases, so nothing observable is lost. The model does not represent the struct as a mutable object.
- `ExecutorProfileId`, `Uuid` and `BaseCodingAgent` come from external crates. They are type parameters, and `Uuid::new_v4` is not modelled.
- `Clone`, `Debug` and `Default` derives. A cloned `CopilotLoopState` is a copy, which datatype values give for free. A cloned `CopilotLoopTracker` copies the `Arc`, so every clone shares one map. In the model, callers get that sharing by holding the same `Tracker` reference. `Default` builds the same empty tracker as `new()`, the `Tracker` constructor.
- The source test's negative example (a different marker that is absent from the output) is covered by the if-and-only-if of `CheckCompletionPromise`. It is not stated for that literal string.

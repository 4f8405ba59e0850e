# silt reactive runtime in Dafny

This is a model of the fine-grained reactive runtime in `src/lib.rs` of silt, with proofs about it. The runtime holds three things:

- a table of **signals**, each with a value and the set of effects subscribed to it;
- a table of **effects**, each with a closure and the set of signals it subscribed to;
- the **running-effect marker**, which names the effect whose closure is currently executing.

Reading a signal with `get` while an effect runs records an edge on both sides. Each edge is stored twice: the effect's id goes into the signal's subscribers, and the signal's id into the effect's subscriptions. Writing a signal with `set`, `update` or `mutate_with` stores the new value and then calls `rerun_subs`, which calls `run_effect` on every subscriber.

`run_effect` works in four steps:

1. set the marker;
2. remove every old edge of the effect, on both sides;
3. call the closure, whose reads then record the new edges;
4. set the marker back to none.

Effects therefore track dynamic dependencies, and a write inside a closure re-runs other effects synchronously and recursively.

The project has five modules.

- `Graph` (`graph.dfy`) is the data model:
  - signal and effect slots, and the runtime state as a value;
  - `Consistent` (each edge is recorded on both sides) and `InRange` (every stored id names an existing slot), the invariants every operation keeps;
  - the instruction scripts that stand for effect closures;
  - `ReadSet`, which gives the signals a script reads. It is the reference definition of what a run subscribes to.
- `Semantics` (`semantics.dfy`) gives each protocol as a function over the state: `create_signal`, `create_effect`, `run_effect`, `get`, `rerun_subs`, `set`, `update` and `mutate_with`. Each protocol that runs closures returns an `Outcome`: the new state and a *trace*, the ids of the closures invoked, in order. `create_signal` returns the new state with the fresh id, and `get` the new state with the value read.
- `Properties` (`properties.dfy`) proves what the protocols promise:
  - fresh ids;
  - a run subscribes exactly to what it reads;
  - old edges are dropped;
  - a completed `set`, `mutate_with` or `update` re-runs every subscriber present at the call; with read-only subscribers, `set` and `mutate_with` re-run each exactly once and `update` twice;
  - the writes register no dependency of their own: `update`'s internal read adds no edge, and only the re-run subscribers change their edges;
  - dynamic unsubscription.
- `Reactive` (`runtime.dfy`) is the runtime as the source has it: a class `Runtime` whose fields are updated in place. The unsubscribe loop of `run_effect` and the loop of `rerun_subs` are `while` loops with invariants. Each method's postcondition ties its success and its new state to the `Semantics` function of the same protocol.
- `Scenarios` (`scenarios.dfy`) replays the source's unit tests on `Runtime`, together with two dynamic-dependency runs.

Modelling choices:

- **Values.** Signal values are integers.
- **Closures.** An effect closure is a script of `Get`, `Set`, `Update`, `MutateWith` and `IfBelow(s, k, then, else)`. `IfBelow` reads `s` and branches on its value. The closures passed to `update` and `mutate_with` are the pure transforms `Op`.
- **Identifiers.** Signal and effect ids are indices into sequences. They are handed out in order and never reused, just as no slot is ever removed.
- **Fuel.** The source does not bound how deeply `run_effect` calls can nest. Runs that write signals they depend on therefore recurse without end. Every protocol that runs closures takes a `fuel` bound on that nesting. The outcome `Exhausted` stands for the stack overflow the source would hit.

### Four places where the code is surprising

- **`update` re-runs the subscribers twice.** It calls `set`, whose own `rerun_subs` call (`src/lib.rs:131`) re-runs every subscriber. Then it calls `rerun_subs` a second time (`src/lib.rs:143`). `Semantics.UpdateSignal` does the same, and `Properties.UpdateRerunsTwice` proves that each subscriber is invoked twice.
- **`update` drops the old value twice for types with destructors.** It hands `f` a bitwise copy of the stored value made by `ptr::read` (`src/lib.rs:137-140`). Then `set` assigns through the pointer (`src/lib.rs:126-128`), and that assignment drops the original, which `f` has already consumed. For a `T` with drop glue, such as `String`, the value is dropped twice. The model's integer values have no destructor, so it does not capture this.
- **`rerun_subs` iterates a set that changes under it.** The loop at `src/lib.rs:117-121` walks the live subscriber set. Meanwhile `run_effect` and `get` change that set through raw pointers (`src/lib.rs:75-76`, `src/lib.rs:101-102`). That has no defined meaning in Rust. The model iterates a snapshot of the subscriber set taken when `rerun_subs` is called, in ascending id order.
- **`run_effect` resets the marker to none** when a run ends, rather than restoring the effect that was running before (`src/lib.rs:86`). That is what is modelled. `Scenarios.NestedRunDropsOuterRead` shows the consequence: an effect that writes a watched signal and then reads another signal records no edge for that later read.

## Model

| member | source | states |
|---|---|---|
| Semantics.Empty | src/lib.rs:37-43 | A new runtime has empty signal and effect tables, no effect running, and satisfies the edge invariant. |
| Semantics.CreateSignal | src/lib.rs:45-59 | The new id is fresh (one past the existing slots). The new slot holds the value and has no subscribers. Every existing slot, every effect and the marker are unchanged. The edge invariant is kept. |
| Semantics.ClearEdges | src/lib.rs:72-82 | Unsubscribing leaves effect `e` with no subscriptions and removes `e` from the subscribers of every signal. Values and all other effects are unchanged, and the edge invariant is kept. |
| Semantics.GetSignal | src/lib.rs:98-114 | `get` returns the stored value. With no effect running it changes nothing. Inside effect `e` it adds exactly the edge between `e` and `s`, on both sides. |
| Semantics.RunEffect | src/lib.rs:69-87 | A completed run keeps the edge invariant and the table sizes. It ends with the marker at none, and its trace starts with the effect's own invocation. |
| Semantics.CreateEffect | src/lib.rs:61-67 | `create_effect` adds one effect slot with the given closure at a fresh id. It runs that effect first, and it leaves the marker at none and the invariant intact. |
| Semantics.SetSignal | src/lib.rs:124-132 | A completed `set`, including every re-run it causes, keeps the edge invariant, the table sizes and every closure. |
| Semantics.UpdateSignal | src/lib.rs:134-144 | A completed `update`, including both re-run passes, keeps the edge invariant, the table sizes and every closure. |
| Semantics.MutateSignal | src/lib.rs:146-152 | A completed `mutate_with` keeps the edge invariant, the table sizes and every closure. |
| Semantics.WithValue | src/lib.rs:125-129 | The in-place write leaves signal `s` holding `v` with its subscribers unchanged. Every other signal slot, every effect and the marker are unchanged, and the edge invariant is kept. |
| Semantics.RunEach | src/lib.rs:117-121 | A completed pass over the snapshot's effects keeps the edge invariant, the table sizes and every closure. |
| Semantics.RerunSubs | src/lib.rs:116-122 | A completed `rerun_subs` keeps the edge invariant, the table sizes and every closure. |
| Semantics.ExecInstr | src/lib.rs:84 | A completed step of a closure (a read, a write or a branch) keeps the edge invariant, the table sizes and every closure. |
| Semantics.ExecBody | src/lib.rs:84 | Running a closure to completion keeps the edge invariant, the table sizes and every closure. |
| Graph.Snapshot | src/lib.rs:116-122 | The sequence a re-run pass iterates holds exactly the subscribers, in strictly increasing order and without repeats. |
| Properties.GetTwiceOneEdge | src/lib.rs:98-106 | Reading the same signal twice in one run leaves the state as after the first read, so there is one edge, and the second read returns the same value. |
| Properties.ExecReadOnly | src/lib.rs:98-106 | A read-only closure invokes no effect. Outside any run it changes nothing. Inside run `e` it adds exactly the edges from `e` to the signals it reads (`ReadSet`), on both sides, and nothing else. |
| Properties.RunEffectReadOnly | src/lib.rs:69-87 | Re-running a read-only effect invokes its closure once and leaves values alone. The effect ends subscribed to exactly what its closure reads now, on both sides: every edge from an earlier run that is not repeated is gone. Other effects are untouched, and the marker ends at none. |
| Properties.CreateEffectRunsOnce | src/lib.rs:61-67 | `create_effect` with a read-only closure invokes it exactly once, at the fresh id. The new effect is subscribed to exactly what the closure read. Values and earlier effects are unchanged. |
| Properties.RunEachReadOnly | src/lib.rs:116-122 | A pass over read-only effects invokes each of them once, in order. Each ends subscribed to what it reads, values are unchanged, and effects outside the pass keep their subscriptions. |
| Properties.RunEachCovers | src/lib.rs:117-121 | Whatever the closures do, a completed pass has invoked every effect of its snapshot. |
| Properties.SetRerunsEverySubscriber | src/lib.rs:124-132 | Whatever the closures do, a completed `set` has re-run every effect that was subscribed to the signal at the call. |
| Properties.MutateRerunsEverySubscriber | src/lib.rs:146-152 | Whatever the closures do, a completed `mutate_with` has re-run every effect that was subscribed to the signal at the call. |
| Properties.UpdateRerunsEverySubscriber | src/lib.rs:134-144 | Whatever the closures do, a completed `update` has re-run every effect that was subscribed to the signal at the call. |
| Properties.SnapshotCountsOnce | src/lib.rs:116-122 | The snapshot a pass iterates contains each subscriber exactly once (multiset count 1) and nothing else. |
| Properties.RerunSubsReadOnly | src/lib.rs:116-122 | One `rerun_subs` pass over read-only subscribers re-runs the snapshot in order. Values stay unchanged, and only the re-run effects are resubscribed. |
| Properties.SetRerunsSubscribers | src/lib.rs:124-132 | After `set` the signal holds the written value (read-your-write) and no other value changes. Every subscriber present at the call is invoked exactly once and no other effect runs. Re-run subscribers depend on what they read under the new value, and all other edges are unchanged. |
| Properties.MutateIsSet | src/lib.rs:124-152 | `mutate_with` ends in the same outcome as `set` of `f(old)`. |
| Properties.MutateRerunsSubscribersOnce | src/lib.rs:146-152 | After `mutate_with` the value is `f(old)` and other values are unchanged. There is exactly one pass: each subscriber is invoked once and no other effect runs. Re-run subscribers depend on what they read under `f(old)`, and every other effect keeps its edges. |
| Properties.FirstPassKeepsSubscribers | src/lib.rs:124-132 | When every subscriber is read-only and reads `s` again in its re-run, `set` leaves `s` with the same subscriber set. |
| Properties.UpdateRerunsTwice | src/lib.rs:134-144 | After `update` the value is `f(old)` and other values are unchanged. As written, each subscriber is invoked exactly twice, once by `set` and once by the second `rerun_subs`, and no other effect runs. Re-run subscribers depend on what they read under `f(old)`. Every other effect, the writer included, keeps its edges, so the internal read registers no dependency. |
| Properties.RerunSubsUnwatched | src/lib.rs:116-122 | A pass over a signal with no subscribers runs nothing and changes nothing. |
| Properties.UnwatchedWrites | src/lib.rs:124-152 | On a signal with no subscribers, `set`, `mutate_with` and `update` only store the new value (`v`, `f(old)`, `f(old)`). Nothing runs, the writer gains no dependency, and `update`'s internal read registers no edge. |
| Properties.DynamicDependency | src/lib.rs:69-132 | For read-only closures, after effect `e` runs, a write to `s` re-runs `e` if and only if `e`'s closure read `s` in that run. |
| Properties.ReadSetSameValues | src/lib.rs:98-106 | What a closure reads depends only on signal values, not on the edges. |
| Properties.ReadSetKeeps | src/lib.rs:98-106 | A closure that reads `s` still reads it after a write to `s` alone. |
| Reactive.Runtime.constructor | src/lib.rs:37-43 | The new runtime's state is `Semantics.Empty()`, which satisfies the invariant. |
| Reactive.Runtime.CreateSignal | src/lib.rs:45-59 | The returned id and the new fields are exactly `Semantics.CreateSignal` of the old state, and the invariant is kept. |
| Reactive.Runtime.CreateEffect | src/lib.rs:61-67 | Succeeds exactly when `Semantics.CreateEffect` completes, and the new fields are then its state. |
| Reactive.Runtime.RunEffect | src/lib.rs:69-87 | The body proves that the in-place unsubscribe loop and the clearing of subscriptions produce `Semantics.ClearEdges`. The contract states that the method succeeds exactly when `Semantics.RunEffect` completes, and the new fields are then its state. |
| Reactive.Runtime.Get | src/lib.rs:98-114 | The returned value and the updated edge sets are exactly `Semantics.GetSignal` of the old state. |
| Reactive.Runtime.RerunSubs | src/lib.rs:116-122 | The loop over the snapshot succeeds exactly when `Semantics.RerunSubs` completes, and the new fields are then its state. |
| Reactive.Runtime.Set | src/lib.rs:124-132 | The in-place write followed by `rerun_subs` succeeds exactly when `Semantics.SetSignal` completes, and the new fields are then its state. |
| Reactive.Runtime.Update | src/lib.rs:134-144 | The untracked read, the `set` and the second `rerun_subs` succeed exactly when `Semantics.UpdateSignal` completes, and the new fields are then its state. |
| Reactive.Runtime.MutateWith | src/lib.rs:146-152 | The in-place transform followed by `rerun_subs` succeeds exactly when `Semantics.MutateSignal` completes, and the new fields are then its state. |
| Reactive.Runtime.ExecInstr | src/lib.rs:84 | One step of a closure (a `get`, one of the three writes, or a read followed by a branch) succeeds exactly when `Semantics.ExecInstr` completes, and the new fields are then its state. |
| Reactive.Runtime.ExecBody | src/lib.rs:84 | Calling a closure succeeds exactly when `Semantics.ExecBody` completes, and the new fields are then its state. |
| Scenarios.GetReturnsInitial | src/tests/signal.rs:3-9 | A new signal created with 42 reads 42. |
| Scenarios.SetThenGet | src/tests/signal.rs:11-19 | After `set`, `get` returns the written value. |
| Scenarios.UpdateCubes | src/tests/signal.rs:21-31 | `update` with cube on 3 leaves 27. |
| Scenarios.MutateWithSwaps | src/tests/signal.rs:33-44 | `mutate_with` replacing the value with 7 leaves 7. |
| Scenarios.CreateEffectRuns | src/tests/effect.rs:3-11 | `create_effect` runs its closure immediately, so the flag the closure sets is set. |
| Scenarios.RerunOnSubUpdate | src/tests/effect.rs:13-28 | An effect that reads `sub` and bumps `times_run` has run twice after one write to `sub`. |
| Scenarios.DynamicUnsubscription | src/lib.rs:69-87 | An effect bumps a counter and reads `s` only while the counter is below 3. After three writes to `s` it has run 3 times, not 4, because its last re-run no longer subscribed to `s`. |
| Scenarios.NestedRunDropsOuterRead | src/lib.rs:86 | An outer effect writes `x` (re-running an inner effect that reads `x`) and then reads `y`. Because the nested run reset the marker to none, the outer effect ends with no subscriptions and `y` has no subscribers. |

## Left out

- Type erasure: values are stored as `Box<dyn Any>` and recovered by `downcast` and `unwrap`. The model stores integers, because the typed handle makes a failed downcast unreachable through the public API.
- `RefCell` borrow panics. The loop of `rerun_subs` holds a shared borrow of the signal's slot for its whole length (`src/lib.rs:117-119`). So a closure re-run by the pass of signal `s` that calls `s.mutate_with` panics at its `borrow_mut` (`src/lib.rs:147-148`). Likewise, `run_effect` holds `effects.borrow()` while the closure runs (`src/lib.rs:84`), so a `create_effect` from inside a closure panics. The model has no borrow state and lets both go through.
- The raw-pointer aliasing in `get`, `set`, `update` and `run_effect`. Because `rerun_subs` iterates the live set while runs modify it, the order and repeats in the source are undefined. The model uses the ascending snapshot.
- `HashSet` iteration order. It is unspecified in the source; the model fixes it to ascending id order.
- `SlotMap` key internals (versions, the free list). Ids are sequence indices, and no slot is ever removed.
- The `'static` lifetime, `Box::leak` and the handle's `PhantomData`. These have no behaviour to model.
- Closures beyond scripts: a closure cannot create signals or effects, use host state, or return a value. In the `mutate_with` test, the swap also moves the old value 6 into the host variable `b`. Only the new value 7 is modelled.
- The `update` closure in the source takes the value by a bitwise copy (`ptr::read`). Here `Op` is applied to an integer.
- The depth of nested runs: it is bounded by `fuel`, and running out (`Exhausted`) stands for the stack overflow of the unbounded recursion in the source.
- Reactive.Runtime.CreateEffect, Reactive.Runtime.RunEffect, Reactive.Runtime.RerunSubs, Reactive.Runtime.Set, Reactive.Runtime.Update, Reactive.Runtime.MutateWith, Reactive.Runtime.ExecInstr, Reactive.Runtime.ExecBody: when the method returns `false` (fuel exhausted), the state is left unspecified.
- Properties.RunEffectReadOnly: proved only for read-only closures. A closure that writes triggers nested runs whose effect on the edge sets depends on the whole graph.
- Properties.CreateEffectRunsOnce: proved only for read-only closures, for the same reason.
- Properties.RunEachReadOnly: proved only for read-only effects.
- Properties.RerunSubsReadOnly: proved only for read-only subscribers.
- Properties.SetRerunsSubscribers: all its ensures (read-your-write, the other values, the exactly-once count and the edge result) are proved only for read-only subscribers. Writing subscribers cause nested passes, which re-run effects again and can write any signal.
- Properties.MutateRerunsSubscribersOnce: proved only for read-only subscribers.
- Properties.FirstPassKeepsSubscribers: proved only for read-only subscribers. A subscriber that writes a watched signal before reading `s` runs a nested pass, which resets the marker to none (`src/lib.rs:86`), so its read of `s` records no edge.
- Properties.UpdateRerunsTwice: proved only for read-only subscribers that read the signal again in their re-run. A subscriber that stops reading `s` in its first re-run is not in the second snapshot, so it runs once. Writing subscribers cause nested passes, as for `set`.
- Properties.DynamicDependency: proved only when every closure is read-only.

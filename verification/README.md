# AggregateBatchPush, modelled in Dafny

In the Pegasus dataflow engine, `AggregateBatchPush` is the fan-out decorator on the
sending side of a channel whose data for a given scope must all go to one peer. It
holds one event-carrying push per peer. The push of the resolved target peer is the
*data push*; the pushes of every other peer are the *event pushes*.

- Batches (`push`, `push_last`) and `flush` go to the data push only.
- An end-of-scope signal (`notify_end`) goes to every event push first when any of
  these holds:
  - the signal's tag is the root tag;
  - the tag's level (its length) is below the channel's `scope_level`;
  - the shared `has_cycles` flag is set.

  The data push always gets the signal last.
- `push_last` with a root tag also broadcasts the signal before the last batch.
- `close` closes the event pushes in order, then the data push.
- Every broadcast is fail-fast: the first failing peer ends it, the remaining peers and
  the data push are not called, and that peer's error is returned.

The project has five modules:

- `Tags` (tags.dfy): tags, signals, batches, ports and the channel descriptor, as values.
- `Peers` (peers.dfy): one peer's push as an object.
  - It keeps an append-only log of the calls made on it.
  - A fault oracle (`faults`, a set of call numbers) says which calls fail.
  - The shared cycle flag is an object with one operation, `Raise`, which only sets it.
- `FanoutSpec` (fanout_spec.dfy): the aggregate as a value.
  - `Fanout` holds the data push's state, the event pushes' states in list order, and
    every call made, in order.
  - Each operation is a function from the old `Fanout` to a `Step`: the new value and
    the result returned.
  - The fail-fast loop has two definitions: the recursive fold `Broadcast`, and the
    description `FailFast` (what it reaches, what it returns). They are proved equal.
  - The lemmas state the routing rules.
- `Aggregate` (aggregate.dfy): the class `AggregateBatchPush`.
  - Its fields are the data push object, the sequence of event push objects, the
    channel descriptor and the shared flag.
  - Its methods loop over the event pushes the way the source does. Each one is proved
    to produce exactly the step function's new value and result.
- `Scenario` (scenario.dfy): three peers with target 1 and a scope-level threshold of 2.
  - A level-1 signal is broadcast.
  - A level-2 signal stays with the data push until the cycle flag is raised. After
    that, the same signal is broadcast.
  - The scenario is proved on the value model and also driven through the class.

`Tag::is_root` is defined outside this file. The model takes the root tag to be the
empty tag: `IsRoot(tag)` is `|tag| == 0`.

## Model

| member | source | states |
|---|---|---|
| Aggregate.AggregateBatchPush.constructor | research/gaia-x/pegasus/pegasus/src/communication/decorator/aggregate.rs:22-36 | builds one fresh push per peer, each with the source worker and the shared cycle flag, then swap-removes the target's push; the result is exactly `New(push, target)`; requires `target < |push|`, where swap_remove would panic |
| FanoutSpec.NewPeers | research/gaia-x/pegasus/pegasus/src/communication/decorator/aggregate.rs:26-35 | after construction the data push is peer `target`'s own push; there are `n-1` event pushes; they hold every other peer exactly once; peer `n-1` moves to position `target` (if target was not last); every other position keeps its peer; all logs are empty |
| FanoutSpec.SwapRemoveOrder | research/gaia-x/pegasus/pegasus/src/communication/decorator/aggregate.rs:34 | swap_remove returns element `i`; the rest is one shorter; the former last element now sits at `i`; every other position is unchanged |
| FanoutSpec.SwapRemovePermutation | research/gaia-x/pegasus/pegasus/src/communication/decorator/aggregate.rs:34 | the removed element plus the rest is, as a multiset, the original list |
| Aggregate.AggregateBatchPush.Port | research/gaia-x/pegasus/pegasus/src/communication/decorator/aggregate.rs:40-42 | returns the descriptor's source port; modifies nothing |
| Aggregate.AggregateBatchPush.Push | research/gaia-x/pegasus/pegasus/src/communication/decorator/aggregate.rs:44-46 | the new state and result are exactly `PushStep` of the old state |
| FanoutSpec.PushTouchesDataOnly | research/gaia-x/pegasus/pegasus/src/communication/decorator/aggregate.rs:44-46 | `push` appends the batch to the data push's log only; event pushes are unchanged; the data push's outcome is returned |
| Aggregate.AggregateBatchPush.PushLast | research/gaia-x/pegasus/pegasus/src/communication/decorator/aggregate.rs:48-55 | the new state and result are exactly `PushLastStep` of the old state |
| FanoutSpec.PushLastRootBroadcast | research/gaia-x/pegasus/pegasus/src/communication/decorator/aggregate.rs:48-55 | non-root tag: only the data push gets `PushLast`. Root tag: event pushes get `NotifyEnd` in index order up to the first failing one, later ones untouched. On failure the data push is untouched and that peer's error is returned; otherwise the data push gets `PushLast` after all of them |
| Aggregate.AggregateBatchPush.NotifyEnd | research/gaia-x/pegasus/pegasus/src/communication/decorator/aggregate.rs:57-67 | the new state and result are exactly `NotifyEndStep` of the old state, with the flag read at call time; the flag is left as it was |
| FanoutSpec.NotifyEndBroadcastRule | research/gaia-x/pegasus/pegasus/src/communication/decorator/aggregate.rs:57-67 | the event pushes change if and only if (root, or level below `scope_level`, or flag set) and there is one; the data push is either untouched or got exactly the signal; on success the data push's call is the last one made |
| FanoutSpec.NotifyEndBroadcastDelivers | research/gaia-x/pegasus/pegasus/src/communication/decorator/aggregate.rs:58-66 | a successful broadcasting `notify_end` gave the signal to every event push in index order, then to the data push |
| FanoutSpec.NotifyEndFailFast | research/gaia-x/pegasus/pegasus/src/communication/decorator/aggregate.rs:62-64 | if event push `k` is the first to fail, pushes `0..k` got the signal, pushes after `k` and the data push are untouched, and push `k`'s error is returned |
| FanoutSpec.CyclesForceBroadcast | research/gaia-x/pegasus/pegasus/src/communication/decorator/aggregate.rs:58-64 | with the flag set, every event push up to the first failing one gets the signal, whatever the tag |
| FanoutSpec.DeepSignalStaysLocal | research/gaia-x/pegasus/pegasus/src/communication/decorator/aggregate.rs:58-66 | flag clear, non-root tag with level at least `scope_level`: no event push is touched; only the data push gets the signal |
| Aggregate.AggregateBatchPush.Flush | research/gaia-x/pegasus/pegasus/src/communication/decorator/aggregate.rs:69-71 | the new state and result are exactly `FlushStep` of the old state |
| FanoutSpec.FlushTouchesDataOnly | research/gaia-x/pegasus/pegasus/src/communication/decorator/aggregate.rs:69-71 | `flush` appends `Flush` to the data push's log only; event pushes are unchanged |
| Aggregate.AggregateBatchPush.Close | research/gaia-x/pegasus/pegasus/src/communication/decorator/aggregate.rs:73-78 | the new state and result are exactly `CloseStep` of the old state |
| FanoutSpec.CloseFailFast | research/gaia-x/pegasus/pegasus/src/communication/decorator/aggregate.rs:74-77 | if event push `k` is the first whose close fails, pushes `0..k` got `Close` in order, the rest and the data push stay open, and push `k`'s error is returned |
| FanoutSpec.CloseClosesAll | research/gaia-x/pegasus/pegasus/src/communication/decorator/aggregate.rs:73-78 | on success every event push's log and the data push's log end with `Close`; the closes were made in index order, data push last |
| Aggregate.AggregateBatchPush.BroadcastEvents | research/gaia-x/pegasus/pegasus/src/communication/decorator/aggregate.rs:62-64 | the `iter_mut` loop with early return on `?`: event pushes, calls made and result are exactly those of `FailFast` on the old states |
| FanoutSpec.FirstFailure | research/gaia-x/pegasus/pegasus/src/communication/decorator/aggregate.rs:62-64 | the index of the first push whose call fails, or the list's length: every push before it succeeds, and the push at it fails |
| FanoutSpec.BroadcastPushes | research/gaia-x/pegasus/pegasus/src/communication/decorator/aggregate.rs:62-64 | the fail-fast fold calls every push up to and including the first failing one, and no later one |
| FanoutSpec.BroadcastCalls | research/gaia-x/pegasus/pegasus/src/communication/decorator/aggregate.rs:62-64 | the fold's calls are made in index order, up to and including the first failing push |
| FanoutSpec.BroadcastResult | research/gaia-x/pegasus/pegasus/src/communication/decorator/aggregate.rs:62-64 | the fold returns the first failing push's error, or success when none fails |
| FanoutSpec.BroadcastFailFast | research/gaia-x/pegasus/pegasus/src/communication/decorator/aggregate.rs:62-64 | the recursive fold and the declarative `FailFast` description agree on every input |
| FanoutSpec.BroadcastOk | research/gaia-x/pegasus/pegasus/src/communication/decorator/aggregate.rs:62-64 | a broadcast succeeds if and only if no push fails; then every push got the call, in index order |
| FanoutSpec.BroadcastThenEffect | research/gaia-x/pegasus/pegasus/src/communication/decorator/aggregate.rs:48-55 | the shared shape of `push_last`, `notify_end` and `close`. Without a broadcast only the data push is called. With one, the pushes up to the first failing one get the signal in order, then the data push gets its call only if none failed; the error or the data push's outcome is returned |
| Peers.PeerPush.Invoke | research/gaia-x/pegasus/pegasus/src/communication/decorator/aggregate.rs:63 | one call on a peer's push: the call is appended to its log; it fails exactly when the oracle lists this call number, with an error naming the peer and the call |
| Peers.PeerPush.constructor | research/gaia-x/pegasus/pegasus/src/communication/decorator/aggregate.rs:28-30 | a new push for a peer, sharing the given flag, with an empty log |
| Peers.CycleFlag.Raise | research/gaia-x/pegasus/pegasus/src/communication/decorator/aggregate.rs:18 | the shared flag is set; no operation clears it |
| Scenario.ScenarioNew | research/gaia-x/pegasus/pegasus/src/communication/decorator/aggregate.rs:26-35 | three peers with target 1: the data push is peer 1, and the event pushes are peers 0 and 2, in that order |
| Scenario.ScenarioShallow | research/gaia-x/pegasus/pegasus/src/communication/decorator/aggregate.rs:57-67 | a level-1 signal with threshold 2 reaches peers 0 and 2, then peer 1 |
| Scenario.ScenarioDeepLocal | research/gaia-x/pegasus/pegasus/src/communication/decorator/aggregate.rs:57-67 | a level-2 signal with threshold 2 and the flag clear reaches only peer 1 |
| Scenario.ScenarioDeepCyclic | research/gaia-x/pegasus/pegasus/src/communication/decorator/aggregate.rs:57-67 | the same level-2 signal with the flag set reaches peers 0 and 2, then peer 1 |
| Scenario.ThreePeerScenario | research/gaia-x/pegasus/pegasus/src/communication/decorator/aggregate.rs:57-67 | the three signals in sequence: all succeed, and the final logs and the exact order of the seven calls are as listed |
| Scenario.SendSignals | research/gaia-x/pegasus/pegasus/src/communication/decorator/aggregate.rs:57-67 | driving a channel object with the three signals, raising the flag before the third, yields the chained `NotifyEndStep` value |
| Scenario.ThreePeerRun | research/gaia-x/pegasus/pegasus/src/communication/decorator/aggregate.rs:22-67 | construction plus the three signals through the class: the resulting logs of the data push and of both event pushes |

## Left out

- The internals of the per-peer push, of the underlying transport and of the event
  emitter are not part of this model. They are defined in evented.rs, the data plane
  and the event emitter. A peer push is modelled only by:
  - its log of calls;
  - a fault oracle that decides which call fails.
- Cross-thread visibility of the cycle flag is not modelled. The source keeps it in an
  `Arc<AtomicBool>` read with sequentially consistent ordering. The model reads a plain
  shared boolean at decision time.
- `Arc` cloning and the cloning of the emitter into every push are not modelled. Their
  only effect kept here is that every push shares the channel's flag, which `Valid()`
  states.
- Payload contents and the fields of an end signal other than its tag are not modelled.
  They are carried as opaque values and affect no routing decision.
- Transport errors carry only the peer and the call number. The transport's own error
  detail is left out.
- The "open" and "closed" states are not modelled. The component keeps no such state;
  calling it after `close` is the caller's error, and the model allows further calls.
- `Vec::swap_remove` is modelled on sequence values (`SwapRemove`). The constructor then
  stores the resulting sequence of push objects.
- `Tag::is_root` is defined outside this file. It is modelled as "the tag is empty".
- Worker ids (`u32`) are unbounded naturals. `t as u32` cannot truncate for any list
  that fits in memory, so no wrap-around is modelled.

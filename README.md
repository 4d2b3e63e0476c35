# Block scheduler model

A Dafny model of the block scheduler pallet (`frame/scheduler/src/lib.rs`).
The pallet lets callers register calls to be dispatched at a future block,
anonymously or under a schedule id, optionally repeating, with a priority. At
the start of every block, the hook `on_initialize` dispatches the tasks due
then within a weight budget.

The model has seven modules:

- `Types` (`types.dfy`) holds the values:
  - the task record `Scheduled`, its `MaybeHashed` call and `Period`;
  - task addresses, errors and events;
  - the runtime configuration `Config`, with the functions the pallet calls but does not define: weights, encoded length, privilege comparison;
  - `Chain`: preimage availability and call dispatch.

  Block numbers are `u32`, weights `u64`, and both use saturating addition where the source saturates.
- `Time` (`time.dfy`) covers `resolve_time`, the sanitisation of a requested period, and its count-down after each run. It also counts how many times a task is dispatched.
- `Weights` (`weights.dfy`) covers the case split of `MarginalWeightInfo::item`.
- `Stores` (`stores.dfy`) covers the two stores `Agenda` and `Lookup`, the three edits the pallet makes to an agenda (append, tombstone, move), and the central invariant `Sound`. `Sound` says that every `Lookup[id] = (w, i)` names a live task `Agenda[w][i]` that carries `id`. `Bounded` says that no block holds more than `maxScheduledPerBlock` positions, tombstones included. The source builds that bound into `Agenda`'s value type, a `BoundedVec`.
- `Queueing` (`queueing.dfy`) takes the due agenda without its tombstones and sorts it stably by priority.
- `Engine` (`engine.dfy`) is `on_initialize` as a function:
  - `Step` is one iteration of its loop, `Run` the loop, `OnInitializeSpec` the whole hook.
  - An iteration is split in two: `Prepare` removes the id from `Lookup` and unrequests a resolved preimage, and `Settle` carries out the branch that `Classify` picks.
  - Alongside sit the properties of a block's processing: `Lookup` stays sound, every block stays within the bound, the agenda of `now` is drained, other blocks only grow, only due tasks are dispatched, the head of the sorted queue runs whatever its weight when its own call is available, and the deferral, postponement, drop and periodic branches behave as listed below.
- `Pallet` (`pallet.dfy`) is the class `Scheduler`:
  - fields `agenda` and `lookup`, plus ghost logs of events and preimage requests;
  - the six `do_*` operations as methods that update the fields in place;
  - the two `next_dispatch_time` queries;
  - `OnInitialize`, a loop proved to produce exactly the state of `OnInitializeSpec`.

The constructor and the `do_*` methods other than `DoReschedule` keep `Valid()`. `Valid()` is `Sound`, plus well-formed periodic descriptors, plus `Bounded`. Under `Valid`, a `TooManyAgendas` from scheduling means the target block holds exactly `maxScheduledPerBlock` positions. The exceptions are these:

- The anonymous `do_reschedule` moves a task without updating `Lookup`, as the source does. `DoReschedule` keeps `Valid` for an anonymous task. When an id in `Lookup` names the moved task's old address, that id is left pointing at a tombstone. The named `next_dispatch_time` still answers with the old block for it. `DoReschedule` and `Stores.MoveNamedWithoutLookupBreaksSound` state this.
- `OnInitialize` keeps the well-formedness of the descriptors and the bound, but keeps `Sound` only when it does not panic. After a failed append, `Lookup` already names a position past the end of the block's list.
- `PlaceTask`, `Process`, `SettleTask` and `RunQueue` are the pieces of `OnInitialize`. They promise equality with `Engine.Place`, `Engine.Step`, `Engine.Settle` and `Engine.Run`, and claim nothing about `Valid` themselves.

In several places the code behaves differently from what a reader might expect. The model follows the code:

- **Hard deadline.** The test is `priority <= HARD_DEADLINE`, not equality. The constant is a parameter (`Config.hardDeadline`).
- **`do_cancel_named`:**
  - A `Lookup` entry whose index lies past the block's list still cancels successfully.
  - A hashed call's preimage is released only when a caller origin was given. `do_cancel` always releases it.
- **`next_dispatch_time`** answers with the block for a tombstone too, because it only checks the index.
- **Preimage request before later checks.** `do_schedule(_named)` records the preimage request before the `CallTooLong` and `TooManyAgendas` checks, so a failing call has still made the request.
- **Postponing into the block being drained.** A task whose preimage is missing is postponed to `now + delay`, with saturating addition. With a delay of zero, or at the last block number, that is `now` itself. The task is then appended to the agenda of the block just taken, and no later `on_initialize(now)` runs it. `Engine.OnInitializeCanRefillNow` shows this, and the drain lemmas carry the hypothesis that a postponement leads to a later block.
- **The first-item exemption is positional.** A task at position 0 of the sorted queue runs whatever its weight. If that task's preimage is missing, it is postponed or dropped, and the next task is taken with `order == 1` without the exemption. Above the hard deadline and over budget, that task is deferred, and the block may dispatch nothing. `Engine.OnInitializeUnavailableHeadLosesExemption` shows this.
- **No `CallLookupFailed`.** `on_initialize` never emits it: a missing preimage is postponed or dropped silently.

## Model

| member | source | states |
|---|---|---|
| Types.SatAddBlock | frame/scheduler/src/lib.rs:411 | `saturating_add` on `u32` block numbers, the postponement target. It is also used in `resolve_time` at line 825. Its bounds are stated by `Types.SatAddBlockSaturates`. |
| Types.SatAddBlockSaturates | frame/scheduler/src/lib.rs:411 | The result is at least either operand and at most their sum, and it falls short of the sum only by stopping at the largest block number. |
| Types.WrapAddBlock | frame/scheduler/src/lib.rs:480 | Plain `+` on `u32` block numbers, wrapping as a release build does. It is also used for `next` at line 383. Its wrap-around is stated by `Types.WrapAddBlockWraps`. `Engine.WrapAddMoves` proves a non-zero offset never gives back `now`. |
| Types.WrapAddBlockWraps | frame/scheduler/src/lib.rs:480 | The result is the sum or the sum less 2^32, and it is below the first operand exactly when the sum overflowed. |
| Types.SatAdd | frame/scheduler/src/lib.rs:439-440 | `saturating_add`/`saturating_accrue` on `u64` weights. Its bounds are stated by `Types.SatAddSaturates`. |
| Types.SatAddSaturates | frame/scheduler/src/lib.rs:439-440 | The result is at least either operand and at most their sum, and it falls short of the sum only by stopping at the largest weight. |
| Time.ResolveTime | frame/scheduler/src/lib.rs:818-833 | `At(x)` gives `x` and `After(x)` gives `now + x + 1`, saturating at the largest block. The result is accepted iff it is strictly after `now`, and otherwise the error is `TargetBlockNumberInPast`. |
| Time.SanitizePeriodic | frame/scheduler/src/lib.rs:846-850 | A requested period is kept iff `count > 1` and `period != 0`, and then stores `count - 1`, so a stored count is always at least 1. |
| Time.NextPeriodic | frame/scheduler/src/lib.rs:474-479 | After a run, `(p, c)` becomes `(p, c - 1)` if `c > 1`, and otherwise `None`. Well-formedness is kept. |
| Time.OccurrencesOfStored | frame/scheduler/src/lib.rs:474-489 | A stored descriptor with `c` repetitions left leads to exactly `c + 1` more dispatches. |
| Time.ScheduledRunsExactly | frame/scheduler/src/lib.rs:846-850 | A task scheduled with count `n >= 2` and a non-zero period is dispatched exactly `n` times; any other request is dispatched once. |
| Weights.ItemBenchmark | frame/scheduler/src/lib.rs:192-216 | `item` picks the aborted benchmark (named or not) iff `resolved` is `None`, whatever the periodicity. Otherwise it picks the benchmark whose named, periodic and resolved flags equal the item's. |
| Weights.Item | frame/scheduler/src/lib.rs:192-216 | `f(2) - f(1)` of the chosen benchmark is its per-item slope. |
| Stores.Slot | frame/scheduler/src/lib.rs:1054 | `Agenda::get(when)`. For a stored block the result is its list, and a non-empty result comes only from a stored block, so an absent block reads as empty. The same default is read as `decode_len(..).unwrap_or(0)` at lines 413, 449 and 483. |
| Stores.Append | frame/scheduler/src/lib.rs:859 | `try_append` (here and at line 954) puts the task at the end of the block's list and leaves every other block unchanged. |
| Stores.Tombstone | frame/scheduler/src/lib.rs:866-896 | Vacating a position keeps the list's length and every other entry, so no index shifts. |
| Stores.Forget | frame/scheduler/src/lib.rs:887-889 | `Lookup` loses exactly the id of the task, if it has one. |
| Stores.Move | frame/scheduler/src/lib.rs:906-911 | A reschedule leaves a tombstone at the old address, and the task is found at the old length of the target block. The target keeps its earlier entries, the old block its other positions, and every other block is unchanged. |
| Stores.AppendKeepsSound | frame/scheduler/src/lib.rs:859 | Appending never disturbs an existing task, so `Sound` is kept. |
| Stores.AppendNamedKeepsSound | frame/scheduler/src/lib.rs:954-957 | Appending a named task and recording `(when, old length)` under its id keeps `Sound`. |
| Stores.TombstoneKeepsSound | frame/scheduler/src/lib.rs:880-893 | Vacating a task and forgetting its id keeps `Sound`. |
| Stores.MoveNamedKeepsSound | frame/scheduler/src/lib.rs:1003-1019 | Moving a named task and pointing its id at the new address keeps `Sound`. |
| Stores.MoveAnonymousKeepsSound | frame/scheduler/src/lib.rs:906-919 | Moving an anonymous task keeps `Sound` without touching `Lookup`. |
| Stores.MoveNamedWithoutLookupBreaksSound | frame/scheduler/src/lib.rs:906-919 | Moving a named task without updating `Lookup`, as `do_reschedule` does, breaks `Sound`: the id points at a tombstone. |
| Stores.AppendKeepsBounded | frame/scheduler/src/lib.rs:859 | Appending to a block with room left keeps every block within `maxScheduledPerBlock`, the bound of the `BoundedVec` in `Agenda`'s type. |
| Stores.TombstoneKeepsBounded | frame/scheduler/src/lib.rs:978 | Vacating a position keeps every block within the bound. |
| Stores.MoveKeepsBounded | frame/scheduler/src/lib.rs:906-911 | A move into a block with room left keeps every block within the bound. |
| Stores.AppendKeepsWellFormed | frame/scheduler/src/lib.rs:846-857 | Appending a well-formed task keeps every stored periodic descriptor well formed. |
| Stores.TombstoneKeepsWellFormed | frame/scheduler/src/lib.rs:880-893 | Vacating a position keeps every stored descriptor well formed. |
| Stores.MoveKeepsWellFormed | frame/scheduler/src/lib.rs:906-911 | Moving a task keeps every stored descriptor well formed. |
| Queueing.Queue | frame/scheduler/src/lib.rs:375-379 | The queue holds exactly the live entries of the agenda with their original indices, in increasing index order. Tombstones are dropped. |
| Queueing.Insert | frame/scheduler/src/lib.rs:381 | Stable insertion keeps the elements (as a multiset) and the order: priority first, then original index. |
| Queueing.SortByPriority | frame/scheduler/src/lib.rs:381 | The sorted queue is a permutation of the queue, ordered by priority with ties in original index order. |
| Queueing.SortedHasSameElements | frame/scheduler/src/lib.rs:381 | Sorting neither loses nor invents a task. |
| Queueing.SortedByPriority | frame/scheduler/src/lib.rs:381 | Tasks are processed in non-decreasing priority, and equal priorities in agenda order. |
| Engine.Resolve | frame/scheduler/src/lib.rs:394 | `resolved`: a hash whose preimage the chain holds becomes that call and is reported as completed, and anything else is unchanged. `Engine.StepUnrequestsResolved`, `Engine.StepPostponesUnresolved` and `Engine.StepDropsUnresolved` state what follows from each outcome. |
| Engine.ItemWeight | frame/scheduler/src/lib.rs:424-432 | The item weight of a dispatch: `item(periodic, named, Some(resolved))`, plus one read and one write for a signed origin. `Engine.StepDispatchesAdmitted` states the charge. |
| Engine.TestWeight | frame/scheduler/src/lib.rs:439-440 | The weight compared with the limit: spent weight plus call weight plus item weight, saturating. `Engine.StepDefersOverBudget` uses it. |
| Engine.AbortedWeight | frame/scheduler/src/lib.rs:443 | The weight `item(false, named, None)` charged for a task that is postponed, dropped or deferred. |
| Engine.Place | frame/scheduler/src/lib.rs:444-454 | The same placement appears at lines 411-418 and 482-488. `Lookup` is written first, at the old length of the target block, and the append follows. A full block fails the `expect`, with the `Lookup` entry already written. `Engine.PlaceKeepsSoundExcept`, `Engine.PlaceKeepsBounded` and `Pallet.Scheduler.PlaceTask` state its properties. |
| Engine.Classify | frame/scheduler/src/lib.rs:393-440 | The branch an iteration takes, in source order: panic on an over-long call, then postpone or drop for a missing preimage, then defer iff `!(priority <= HARD_DEADLINE) && order > 0 && test_weight > limit`, else dispatch. `Engine.StepDispatchesAdmitted` and `Engine.StepDefersOverBudget` state the admission conditions, and `Engine.StepPostponesUnresolved` and `Engine.StepDropsUnresolved` the preimage branches. |
| Engine.Prepare | frame/scheduler/src/lib.rs:386-401 | The start of an iteration: the id leaves `Lookup` and a resolved preimage is unrequested. `Engine.StepKeepsSoundExcept` and `Engine.StepUnrequestsResolved` state what it does. |
| Engine.Settle | frame/scheduler/src/lib.rs:403-489 | The rest of an iteration on the branch `Classify` picks. `Pallet.Scheduler.SettleTask` is proved equal to it, and the `Step*` lemmas state its properties. |
| Engine.Step | frame/scheduler/src/lib.rs:386-490 | One iteration of the loop. A panicked state is left as it is. `Pallet.Scheduler.Process` is proved equal to it. |
| Engine.Run | frame/scheduler/src/lib.rs:385-491 | The loop over the sorted queue, the task at position `k` taken with `order == k`. `Pallet.Scheduler.RunQueue` is proved equal to it. |
| Engine.DueQueue | frame/scheduler/src/lib.rs:375-381 | The agenda of `now` without tombstones, stably sorted by priority. |
| Engine.Initial | frame/scheduler/src/lib.rs:375-385 | The state after `Agenda::take(now)`, with the weight at `on_initialize(0)`. |
| Engine.OnInitializeSpec | frame/scheduler/src/lib.rs:372-492 | The whole hook: take, sort, then the loop from `Initial`. `Pallet.Scheduler.OnInitialize` is proved equal to it, and the `OnInitialize*` lemmas state its properties. |
| Engine.RunStaysPanicked | frame/scheduler/src/lib.rs:417-418 | After a failed `.expect` no further task is processed. |
| Engine.PlaceKeepsSoundExcept | frame/scheduler/src/lib.rs:411-418 | Recording `(w, old length)` for a named task and appending it keeps `Lookup` sound, except for the ids still waiting in the queue. |
| Engine.StepKeepsSoundExcept | frame/scheduler/src/lib.rs:386-490 | One iteration removes the task's id from the ids still waiting, and every `Lookup` entry outside them stays valid. |
| Engine.RunKeepsSoundExcept | frame/scheduler/src/lib.rs:385-491 | After `k` iterations, the only `Lookup` entries that may be stale belong to the tasks not yet processed. |
| Engine.DueQueueCarriesNowIds | frame/scheduler/src/lib.rs:375-381 | Once `Agenda[now]` has been taken, every `Lookup` entry naming block `now` belongs to a task in the sorted queue. |
| Engine.OnInitializeKeepsSound | frame/scheduler/src/lib.rs:372-492 | `on_initialize` keeps the central invariant: every `Lookup[id] = (w, i)` again points at `Agenda[w][i] == Some(t)` with `t`'s id being `id`. |
| Engine.StepDispatchesAdmitted | frame/scheduler/src/lib.rs:434-472 | A task whose call is available is dispatched if it is first in the queue, within the hard deadline or within budget. `Dispatched` is emitted for its address and id, and the weight grows by item weight plus actual (or declared) call weight. A one-shot task then leaves both stores. |
| Engine.StepDefersOverBudget | frame/scheduler/src/lib.rs:434-456 | A task is deferred only if its priority exceeds the hard deadline, it is not first, and the test weight exceeds the limit. It is then not dispatched and is charged the aborted weight. It is appended to `now + 1` with its resolved call, and its id names that new position. |
| Engine.StepPostponesUnresolved | frame/scheduler/src/lib.rs:404-421 | A task whose preimage is missing is charged the aborted weight and re-appended unchanged at `now + delay`, with `Lookup` updated. It panics iff that block is full. |
| Engine.StepDropsUnresolved | frame/scheduler/src/lib.rs:404-421 | Without a postponement delay, such a task is dropped: the agenda is unchanged, its id is gone from `Lookup`, and no event is emitted. |
| Engine.StepRequeuesPeriodic | frame/scheduler/src/lib.rs:474-489 | After its dispatch, a periodic task is appended at `now + period` (a different block) with one run fewer owed, and its id names that position. |
| Engine.StepUnrequestsResolved | frame/scheduler/src/lib.rs:394-402 | A resolved preimage is unrequested exactly once, on every branch that does not panic (postpone, drop, defer or dispatch). |
| Engine.WrapAddMoves | frame/scheduler/src/lib.rs:383 | `now + d` in `u32` arithmetic is never `now` for `d != 0`. |
| Engine.StepOnlyAppends | frame/scheduler/src/lib.rs:386-490 | One iteration only appends to agendas. |
| Engine.RunOnlyAppends | frame/scheduler/src/lib.rs:385-491 | The loop only appends to agendas. |
| Engine.OnInitializeOnlyAppends | frame/scheduler/src/lib.rs:372-492 | Every block other than `now` keeps its tasks at their indices; at most some are appended. |
| Engine.StepLeavesNowEmpty | frame/scheduler/src/lib.rs:386-490 | No iteration puts a task back into block `now`, provided a postponement (if configured) leads to a later block: a non-zero delay and `now` below the last block number. |
| Engine.RunLeavesNowEmpty | frame/scheduler/src/lib.rs:385-491 | The loop leaves block `now` empty, under the same hypothesis on the postponement. |
| Engine.OnInitializeCanRefillNow | frame/scheduler/src/lib.rs:408-418 | Without that hypothesis the drain fails. Given a single task whose preimage is missing, a delay of zero (or `now` at the last block number) and room in the block, the task ends up back in the agenda of `now`, and the hook does not panic. |
| Engine.DueQueueWellFormed | frame/scheduler/src/lib.rs:375-381 | The due tasks carry well-formed periodic descriptors. |
| Engine.PlaceKeepsBounded | frame/scheduler/src/lib.rs:416-417 | A placement never takes a block past `maxScheduledPerBlock`: it appends below the bound and otherwise panics. |
| Engine.StepKeepsBounded | frame/scheduler/src/lib.rs:386-490 | One iteration keeps every block within the bound, on every branch including a panic. |
| Engine.RunKeepsBounded | frame/scheduler/src/lib.rs:385-491 | The loop keeps every block within the bound. |
| Engine.OnInitializeKeepsBounded | frame/scheduler/src/lib.rs:372-492 | The hook keeps every block within the bound, whether or not it panics. |
| Engine.OnInitializeDrainsNow | frame/scheduler/src/lib.rs:375 | After `on_initialize(now)` the agenda of `now` is empty, provided a postponement leads to a later block. |
| Engine.StepKeepsWellFormed | frame/scheduler/src/lib.rs:386-490 | One iteration keeps the stored periodic descriptors well formed. |
| Engine.RunKeepsWellFormed | frame/scheduler/src/lib.rs:385-491 | The loop keeps the stored periodic descriptors well formed. |
| Engine.OnInitializeKeepsWellFormed | frame/scheduler/src/lib.rs:372-492 | `on_initialize` keeps every stored periodic descriptor well formed. |
| Engine.StepEmitsDispatch | frame/scheduler/src/lib.rs:468-472 | One iteration adds at most one event: `Dispatched` for its own task's address and id. |
| Engine.RunEmitsDispatches | frame/scheduler/src/lib.rs:468-472 | The loop only appends `Dispatched` events, each about a task of the queue. |
| Engine.OnInitializeDispatchesOnlyDueTasks | frame/scheduler/src/lib.rs:468-472 | Every event is `Dispatched`, for a live task of block `now` and with that task's id; `CallLookupFailed` is never emitted. |
| Engine.RunEventsGrow | frame/scheduler/src/lib.rs:385-491 | Later iterations never retract an event. |
| Engine.RunDispatchesFirst | frame/scheduler/src/lib.rs:434-440 | The first task of the queue is dispatched, whatever its weight, provided its own call is available and encodes within bounds. |
| Engine.OnInitializeDispatchesFirst | frame/scheduler/src/lib.rs:434-440 | Forward progress: the first task of the sorted queue is dispatched first, whatever its weight, provided its own call is available and encodes within bounds. |
| Engine.OnInitializeUnavailableHeadLosesExemption | frame/scheduler/src/lib.rs:404-441 | The exemption belongs to position 0 only. Suppose the most urgent task's preimage is missing, and the task behind it is above the hard deadline and over budget. Then the block dispatches nothing, and the second task is deferred to `now + 1`. |
| Pallet.RequestOps | frame/scheduler/src/lib.rs:843 | `ensure_requested`: a hashed call requests its preimage once, and a plain call requests nothing. `Pallet.Scheduler.DoSchedule` states when it happens. |
| Pallet.UnrequestOps | frame/scheduler/src/lib.rs:887 | `ensure_unrequested`: a hashed call releases its preimage once. `Pallet.Scheduler.DoCancel` and `Pallet.Scheduler.DoCancelNamed` state when it happens. |
| Pallet.Refused | frame/scheduler/src/lib.rs:874-880 | The same test appears at lines 969-975. A caller origin, when given, is refused unless `cmp_privilege` is `Equal` or `Greater`; an incomparable pair is refused too. `Pallet.Scheduler.DoCancel` and `Pallet.Scheduler.DoCancelNamed` give `BadOrigin` exactly then. |
| Pallet.Scheduler.NextDispatchTime | frame/scheduler/src/lib.rs:1053-1055 | Answers with the address's block iff its index lies within that block's list, a tombstone included. |
| Pallet.Scheduler.NextDispatchTimeNamed | frame/scheduler/src/lib.rs:1094-1100 | Answers `Ok` iff the id is within the length bound, is in `Lookup` and its recorded index lies inside that block's list (a tombstone included); the answer is the recorded block. With valid stores, every id in `Lookup` answers with the block its live task is due at. |
| Pallet.Scheduler.DoSchedule | frame/scheduler/src/lib.rs:835-864 | Errors are checked in source order: `TargetBlockNumberInPast`, then the preimage request, then `CallTooLong`, then `TooManyAgendas`, and errors leave the agenda alone. Success appends the sanitised task, returns `(when, old length)`, emits `Scheduled` and keeps `Valid`. Under `Valid`, `TooManyAgendas` means the target block holds exactly `maxScheduledPerBlock` positions. |
| Pallet.Scheduler.DoScheduleNamed | frame/scheduler/src/lib.rs:922-961 | An id already in `Lookup` fails first with `FailedToSchedule` and changes nothing. Otherwise the method behaves as `DoSchedule`, and on success `Lookup[id]` is the returned address, which `NextDispatchTimeNamed` then reports. |
| Pallet.Scheduler.DoCancel | frame/scheduler/src/lib.rs:866-896 | An index past the list or a tombstone gives `NotFound`, and an insufficient or incomparable origin gives `BadOrigin`; both change nothing. Otherwise the entry becomes a tombstone with the length kept, the preimage is released, the id is forgotten and `Canceled` is emitted. |
| Pallet.Scheduler.DoCancelNamed | frame/scheduler/src/lib.rs:963-988 | An unknown id gives `NotFound`, and a refused origin on a live task gives `BadOrigin`; both change nothing. Otherwise `Lookup` loses the id, the position (if in range) is vacated, `Canceled` is emitted and `Valid` is kept. |
| Pallet.Scheduler.DoReschedule | frame/scheduler/src/lib.rs:898-920 | Errors are checked in order (`TargetBlockNumberInPast`, `RescheduleNoChange`, `NotFound`, `TooManyAgendas`) and change nothing. Success moves the task, leaves `Lookup` alone and emits `Canceled` then `Scheduled`. `Valid` is kept for an anonymous task. It is broken when the task's id names the old address in `Lookup`; such an id still answers the old block by name, though that position is now a tombstone. |
| Pallet.Scheduler.DoRescheduleNamed | frame/scheduler/src/lib.rs:990-1023 | Errors are checked in order (`ScheduleIdTooLong`, `TargetBlockNumberInPast`, `NotFound`, `RescheduleNoChange`, `NotFound`, `TooManyAgendas`) and change nothing. Success moves the task, points `Lookup[id]` at `(new_time, new_index)`, emits both events and keeps `Valid`. |
| Pallet.Scheduler.PlaceTask | frame/scheduler/src/lib.rs:411-418 | `Lookup` is written before the append, and the append panics on a full block. |
| Pallet.Scheduler.Process | frame/scheduler/src/lib.rs:386-402 | One loop iteration, updating the fields in place, produces exactly the state of `Engine.Step`. A call too long to encode panics after the id has left `Lookup`. |
| Pallet.Scheduler.SettleTask | frame/scheduler/src/lib.rs:403-490 | The rest of the iteration (postpone or drop, defer, dispatch and re-queue) produces exactly the state of `Engine.Settle` on the branch `Engine.Classify` picks. |
| Pallet.Scheduler.RunQueue | frame/scheduler/src/lib.rs:385-491 | The loop produces exactly the state of `Engine.Run`, stopping at the first panic. |
| Pallet.Scheduler.OnInitialize | frame/scheduler/src/lib.rs:372-492 | The stores, returned weight, events and preimage calls are those of `Engine.OnInitializeSpec`. Descriptor well-formedness and the per-block bound are always kept, and `Valid` is kept unless a panic occurs. Only `Dispatched` events for block `now` are added. |
| Pallet.Scheduler.OnInitializeFacts | frame/scheduler/src/lib.rs:372-492 | Collects the invariant preservation and event facts for the method. |

## Left out

- Storage migrations (`migrate_v1_to_v4`, `migrate_v2_to_v4`, `migrate_v3_to_v4`, `migrate_origin`) and the try-runtime checks: these translate formats of codec types that are not part of this model.
- SCALE encoding. `EncodedCallOrHashOf::new` is the length check `Config.encodedLen(call) > maxCallLen`. A task stores the `MaybeHashed` call itself, as if decoding the encoding always returned it.
- The preimage provider, `call.dispatch`, `get_dispatch_info` and origin conversion are external:
  - preimage availability and call dispatch are the oracles in `Chain`;
  - call weights are `Config.callWeight`;
  - the signed-origin test is `Origin.Signed?`.
  - Requests and releases of preimages are only logged, in `preimageOps`. The provider's reference counting is not modelled.
- Dispatched calls are assumed not to touch the scheduler's own storage. A call that schedules or cancels re-entrantly during `on_initialize` is not modelled, and the oracles are fixed for the whole block.
- Weights.Item: benchmark weight functions are taken to be affine (`base + slope * n`), so `f(2) - f(1)` is the slope and cannot underflow. Benchmark values of any other shape are not modelled.
- The extrinsics and their origin gates (`ScheduleOrigin::ensure_origin`) are not modelled, and neither are the `Anon`/`Named` trait wrappers that only map errors to `()`. The exception is the id-length check of `reschedule_named` and of the named `next_dispatch_time`.
- The storage transaction that reverts an extrinsic returning an error is not modelled. `DoSchedule` and `DoScheduleNamed` record the preimage request before they fail with `CallTooLong` or `TooManyAgendas`, as the function is written.
- Pallet.Scheduler.DoScheduleNamed: requires `|id| <= maxScheduleIdLen`, because the id's type is a bounded vector.
- Pallet.Scheduler.DoCancelNamed: requires `|id| <= maxScheduleIdLen`, for the same reason.
- `MaxAgendas` and `MaxSchedules`: they only bound storage metadata and are not checked by the code.
- The `.expect` panics of `on_initialize` become the outcome `panicked`, with the state reached at the panic point. The runtime's rejection of the whole block is not modelled.
- The current block number is the parameter `now` instead of a read of `frame_system`.
- `now + 1` and `now + period` are modelled as `u32` addition with wrap-around. A debug build would panic on overflow instead.
- The `error: LookupError` field of `CallLookupFailed` is not modelled; the event is never emitted.
- An agenda key that is absent and one holding an empty list are not distinguished (`Slot` reads both as empty).
- Pallet.Scheduler.DoReschedule: `Valid` is proved kept only when the moved task is anonymous. For a named task whose `Lookup` entry names the old address, the model proves that `Sound` is broken afterwards.
- `Sound` says every `Lookup` entry is correct. The converse, that every live named task has a `Lookup` entry, is not proved.

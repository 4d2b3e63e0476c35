/** `on_initialize` as a function of the stores: the agenda of block `now`
    is taken, its live tasks are sorted by priority and processed one by one
    under a weight budget. Each task is postponed (preimage missing), deferred
    to the next block (over budget) or dispatched; a periodic task is queued
    again `period` blocks later. */
module Engine {
  import opened Types
  import opened Time
  import opened Weights
  import opened Stores
  import opened Queueing

  /** The stores and the running totals while a block is processed.
      `panicked` records that an `.expect` failed: the hook stops there. */
  datatype EngineState = EngineState(
    agenda: Agenda,
    lookup: Lookup,
    total: Weight,
    events: seq<Event>,
    ops: seq<PreimageOp>,
    panicked: bool)

  /** `MaybeHashed::resolved`: a hash whose preimage is available becomes the
      call, and the hash is reported as completed; anything else is unchanged. */
  function Resolve(chain: Chain, call: MaybeHashed): (MaybeHashed, Option<PreimageHash>) {
    match call
    case Value(_) => (call, None)
    case Hash(h) =>
      match chain.preimage(h)
      case None => (call, None)
      case Some(c) => (Value(c), Some(h))
  }

  /** The item weight of a task about to be dispatched: `item(..)` plus one
      read and one write when the origin is a signed account. */
  function ItemWeight(cfg: Config, s: Scheduled, named: bool, resolved: bool): Weight {
    var w := Item(cfg.weightInfo, s.maybePeriodic.Some?, named, Some(resolved));
    if s.origin.Signed? then SatAdd(w, cfg.dbReadWrite) else w
  }

  /** The result of recording a task's address in `Lookup` (when named) and
      then appending it with `try_append(..).expect(..)`. */
  datatype Placed = Placed(agenda: Agenda, lookup: Lookup, ok: bool)

  function Place(cfg: Config, a: Agenda, l: Lookup, w: BlockNumber, s: Scheduled): Placed {
    var index := |Slot(a, w)|;
    var l' := if s.maybeId.Some? then l[s.maybeId.value := TaskAddress(w, index)] else l;
    if index < cfg.maxScheduledPerBlock then Placed(Append(a, w, s), l', true)
    else Placed(a, l', false)
  }

  function WithPlaced(e: EngineState, p: Placed): EngineState {
    e.(agenda := p.agenda, lookup := p.lookup, panicked := !p.ok)
  }

  /** What happens to one task. */
  datatype StepKind = Panic | Postpone | Drop | Defer | Dispatch

  /** The weight the budget test compares with `maximumWeight`. */
  function TestWeight(cfg: Config, total: Weight, s: Scheduled, c: Call, named: bool, resolved: bool): Weight {
    SatAdd(SatAdd(total, cfg.callWeight(c)), ItemWeight(cfg, s, named, resolved))
  }

  /** The branch `on_initialize` takes for the task `s` at position `order`
      of the sorted queue, given the weight `total` spent so far. */
  function Classify(cfg: Config, chain: Chain, order: nat, total: Weight, s: Scheduled): StepKind {
    var (call, completed) := Resolve(chain, s.call);
    if cfg.encodedLen(call) > cfg.maxCallLen then Panic
    else if call.Hash? then
      (if cfg.noPreimagePostponement.Some? then Postpone else Drop)
    else if !(s.priority <= cfg.hardDeadline) && order > 0 &&
            TestWeight(cfg, total, s.(call := call), call.call, s.maybeId.Some?, completed.Some?) > cfg.maximumWeight
    then Defer
    else Dispatch
  }

  /** The state once the task's id has left `Lookup` and a resolved
      preimage has been unrequested. */
  function Prepare(chain: Chain, s: Scheduled, e: EngineState): EngineState {
    var e1 := e.(lookup := Forget(e.lookup, s));
    var completed := Resolve(chain, s.call).1;
    if completed.Some? then e1.(ops := e1.ops + [Unrequest(completed.value)]) else e1
  }

  /** What becomes of the prepared task `item` on branch `kind`. */
  ghost function Settle(cfg: Config, chain: Chain, now: BlockNumber, next: BlockNumber,
                        item: Queued, kind: StepKind, e2: EngineState): EngineState
    requires kind == Dispatch ==> Resolve(chain, item.task.call).0.Value?
  {
    var s := item.task;
    var named := s.maybeId.Some?;
    var (call, completed) := Resolve(chain, s.call);
    var s1 := s.(call := call);
    var aborted := Item(cfg.weightInfo, false, named, None);
    match kind
    case Panic => e2.(panicked := true)
    case Drop => e2.(total := SatAdd(e2.total, aborted))
    case Postpone =>
      var until := SatAddBlock(now, cfg.noPreimagePostponement.GetOr(0));
      WithPlaced(e2.(total := SatAdd(e2.total, aborted)), Place(cfg, e2.agenda, e2.lookup, until, s1))
    case Defer =>
      WithPlaced(e2.(total := SatAdd(e2.total, aborted)), Place(cfg, e2.agenda, e2.lookup, next, s1))
    case Dispatch =>
      var c := call.call;
      var post := chain.dispatch(c, s1.origin);
      var e3 := e2.(
        total := SatAdd(SatAdd(e2.total, ItemWeight(cfg, s1, named, completed.Some?)),
                        post.actualWeight.GetOr(cfg.callWeight(c))),
        events := e2.events + [Dispatched(TaskAddress(now, item.index), s1.maybeId, post.result)]);
      match s1.maybePeriodic
      case None => e3
      case Some(p) =>
        WithPlaced(e3, Place(cfg, e3.agenda, e3.lookup, WrapAddBlock(now, p.period),
                             s1.(maybePeriodic := NextPeriodic(p))))
  }

  /** One iteration of the loop over the sorted queue: a call too long to
      encode panics with the id already gone from `Lookup`; otherwise the
      task is prepared and settled on the branch `Classify` picks. */
  ghost function Step(cfg: Config, chain: Chain, now: BlockNumber, next: BlockNumber,
                      order: nat, item: Queued, e: EngineState): EngineState
  {
    if e.panicked then e
    else
      var kind := Classify(cfg, chain, order, e.total, item.task);
      if kind == Panic then e.(lookup := Forget(e.lookup, item.task), panicked := true)
      else Settle(cfg, chain, now, next, item, kind, Prepare(chain, item.task, e))
  }

  /** The loop over `items`, the element at position `k` being processed with `order == k`. */
  ghost function Run(cfg: Config, chain: Chain, now: BlockNumber, next: BlockNumber,
                     items: seq<Queued>, init: EngineState): EngineState
    decreases |items|
  {
    if items == [] then init
    else
      var k := |items| - 1;
      Step(cfg, chain, now, next, k, items[k], Run(cfg, chain, now, next, items[..k], init))
  }

  /** The sorted queue of block `now`. */
  function DueQueue(a: Agenda, now: BlockNumber): seq<Queued> {
    SortByPriority(Queue(Slot(a, now)))
  }

  /** The state right after `Agenda::take(now)`, with `total` at `on_initialize(0)`. */
  function Initial(cfg: Config, a: Agenda, l: Lookup, now: BlockNumber): EngineState {
    EngineState(a - {now}, l, cfg.weightInfo(OnInitialize).base, [], [], false)
  }

  /** `on_initialize(now)`. */
  ghost function OnInitializeSpec(cfg: Config, chain: Chain, a: Agenda, l: Lookup, now: BlockNumber): EngineState {
    Run(cfg, chain, now, WrapAddBlock(now, 1), DueQueue(a, now), Initial(cfg, a, l, now))
  }

  /** The loop after `k + 1` tasks is one more step after `k` tasks. */
  lemma RunExtend(cfg: Config, chain: Chain, now: BlockNumber, next: BlockNumber,
                  items: seq<Queued>, init: EngineState, k: nat)
    requires k < |items|
    ensures Run(cfg, chain, now, next, items[..k + 1], init) ==
      Step(cfg, chain, now, next, k, items[k], Run(cfg, chain, now, next, items[..k], init))
  {
    assert items[..k + 1][..k] == items[..k];
  }

  // ---------------------------------------------------------------------
  // Panics stop the loop.

  lemma RunStaysPanicked(cfg: Config, chain: Chain, now: BlockNumber, next: BlockNumber,
                         items: seq<Queued>, init: EngineState, k: nat)
    requires k <= |items|
    requires Run(cfg, chain, now, next, items[..k], init).panicked
    ensures Run(cfg, chain, now, next, items, init) == Run(cfg, chain, now, next, items[..k], init)
  {
    var stuck := Run(cfg, chain, now, next, items[..k], init);
    var j := k;
    while j < |items|
      invariant k <= j <= |items|
      invariant Run(cfg, chain, now, next, items[..j], init) == stuck
    {
      RunExtend(cfg, chain, now, next, items, init, j);
      StepWhenPanicked(cfg, chain, now, next, j, items[j], stuck);
      j := j + 1;
    }
    assert items[..j] == items;
  }

  /** Once the loop has panicked, a step changes nothing. */
  lemma StepWhenPanicked(cfg: Config, chain: Chain, now: BlockNumber, next: BlockNumber,
                         order: nat, item: Queued, e: EngineState)
    requires e.panicked
    ensures Step(cfg, chain, now, next, order, item, e) == e
  {
  }

  // ---------------------------------------------------------------------
  // The central invariant: `Lookup` stays sound.

  /** The ids carried by the tasks of `items`. */
  ghost function PendingIds(items: seq<Queued>): set<Id> {
    set k | 0 <= k < |items| && items[k].task.maybeId.Some? :: items[k].task.maybeId.value
  }

  /** The id of `s`, if it is named. */
  ghost function IdOf(s: Scheduled): set<Id> {
    if s.maybeId.Some? then {s.maybeId.value} else {}
  }

  /** `Sound`, except for the ids of tasks still waiting in the queue: their
      `Lookup` entries still name block `now`, whose agenda has been taken. */
  ghost predicate SoundExcept(a: Agenda, l: Lookup, pending: set<Id>) {
    forall id :: id in l && id !in pending ==> PointsAt(a, l[id], id)
  }

  lemma PlaceKeepsSoundExcept(cfg: Config, a: Agenda, l: Lookup, w: BlockNumber, s: Scheduled, pending: set<Id>)
    requires SoundExcept(a, l, pending)
    requires Place(cfg, a, l, w, s).ok
    ensures SoundExcept(Place(cfg, a, l, w, s).agenda, Place(cfg, a, l, w, s).lookup, pending)
  {
    var p := Place(cfg, a, l, w, s);
    forall id | id in p.lookup && id !in pending ensures PointsAt(p.agenda, p.lookup[id], id) {
      if Some(id) == s.maybeId {
        assert HoldsAt(p.agenda, TaskAddress(w, |Slot(a, w)|), s);
      } else {
        var addr := l[id];
        assert PointsAt(a, addr, id);
        if addr.when == w {
          assert Slot(p.agenda, w)[addr.index] == Slot(a, w)[addr.index];
        }
      }
    }
  }

  lemma StepKeepsSoundExcept(cfg: Config, chain: Chain, now: BlockNumber, next: BlockNumber,
                             order: nat, item: Queued, e: EngineState, pending: set<Id>)
    requires !e.panicked
    requires SoundExcept(e.agenda, e.lookup, pending + IdOf(item.task))
    ensures var r := Step(cfg, chain, now, next, order, item, e);
      !r.panicked ==> SoundExcept(r.agenda, r.lookup, pending)
  {
    var s := item.task;
    var l1 := Forget(e.lookup, s);
    assert SoundExcept(e.agenda, l1, pending);
    var (call, completed) := Resolve(chain, s.call);
    var s1 := s.(call := call);
    match Classify(cfg, chain, order, e.total, s)
    case Panic =>
    case Drop =>
    case Postpone =>
      var until := SatAddBlock(now, cfg.noPreimagePostponement.value);
      if Place(cfg, e.agenda, l1, until, s1).ok {
        PlaceKeepsSoundExcept(cfg, e.agenda, l1, until, s1, pending);
      }
    case Defer =>
      if Place(cfg, e.agenda, l1, next, s1).ok {
        PlaceKeepsSoundExcept(cfg, e.agenda, l1, next, s1, pending);
      }
    case Dispatch =>
      if s1.maybePeriodic.Some? {
        var p := s1.maybePeriodic.value;
        var s2 := s1.(maybePeriodic := NextPeriodic(p));
        var wake := WrapAddBlock(now, p.period);
        if Place(cfg, e.agenda, l1, wake, s2).ok {
          PlaceKeepsSoundExcept(cfg, e.agenda, l1, wake, s2, pending);
        }
      }
  }

  lemma {:induction false} RunKeepsSoundExcept(cfg: Config, chain: Chain, now: BlockNumber, next: BlockNumber,
                                              items: seq<Queued>, init: EngineState, k: nat)
    requires k <= |items|
    requires !init.panicked ==> SoundExcept(init.agenda, init.lookup, PendingIds(items))
    ensures var r := Run(cfg, chain, now, next, items[..k], init);
      !r.panicked ==> SoundExcept(r.agenda, r.lookup, PendingIds(items[k..]))
  {
    if k == 0 {
      assert items[..0] == [] && items[0..] == items;
    } else {
      RunKeepsSoundExcept(cfg, chain, now, next, items, init, k - 1);
      assert items[..k][..k - 1] == items[..k - 1];
      var prev := Run(cfg, chain, now, next, items[..k - 1], init);
      assert items[k - 1..] == [items[k - 1]] + items[k..];
      assert PendingIds(items[k - 1..]) == PendingIds(items[k..]) + IdOf(items[k - 1].task) by {
        var tail := items[k - 1..];
        forall id | id in PendingIds(tail)
          ensures id in PendingIds(items[k..]) + IdOf(items[k - 1].task)
        {
          var j :| 0 <= j < |tail| && tail[j].task.maybeId == Some(id);
          if j > 0 {
            assert items[k..][j - 1] == tail[j];
          }
        }
        if items[k - 1].task.maybeId.Some? {
          assert tail[0] == items[k - 1];
        }
        forall id | id in PendingIds(items[k..]) ensures id in PendingIds(tail) {
          var j :| 0 <= j < |items[k..]| && items[k..][j].task.maybeId == Some(id);
          assert tail[j + 1] == items[k..][j];
        }
      }
      if !prev.panicked {
        StepKeepsSoundExcept(cfg, chain, now, next, k - 1, items[k - 1], prev, PendingIds(items[k..]));
      }
    }
  }

  /** Every task whose `Lookup` entry names block `now` is in the due queue. */
  lemma DueQueueCarriesNowIds(a: Agenda, l: Lookup, now: BlockNumber)
    requires Sound(a, l)
    ensures SoundExcept(a - {now}, l, PendingIds(DueQueue(a, now)))
  {
    var slot := Slot(a, now);
    var q := Queue(slot);
    forall id | id in l && id !in PendingIds(DueQueue(a, now))
      ensures PointsAt(a - {now}, l[id], id)
    {
      var addr := l[id];
      assert PointsAt(a, addr, id);
      if addr.when == now {
        var x := Queued(addr.index, slot[addr.index].value);
        assert x in q;
        SortedHasSameElements(q, x);
        assert false;
      }
      assert Slot(a - {now}, addr.when) == Slot(a, addr.when);
    }
  }

  /** `on_initialize` keeps the central invariant: afterwards every
      `Lookup[id] = (w, i)` again points at a live task carrying `id`
      (unless an `.expect` panicked, which discards the block). */
  lemma OnInitializeKeepsSound(cfg: Config, chain: Chain, a: Agenda, l: Lookup, now: BlockNumber)
    requires Sound(a, l)
    ensures var r := OnInitializeSpec(cfg, chain, a, l, now);
      !r.panicked ==> Sound(r.agenda, r.lookup)
  {
    var items := DueQueue(a, now);
    var next := WrapAddBlock(now, 1);
    var init := Initial(cfg, a, l, now);
    DueQueueCarriesNowIds(a, l, now);
    RunKeepsSoundExcept(cfg, chain, now, next, items, init, |items|);
    assert items[..|items|] == items;
    assert PendingIds(items[|items|..]) == {};
  }

  // ---------------------------------------------------------------------
  // What one step does, branch by branch.

  /** The weight charged for a task that is not dispatched: `item(false, named, None)`. */
  function AbortedWeight(cfg: Config, s: Scheduled): Weight {
    Item(cfg.weightInfo, false, s.maybeId.Some?, None)
  }

  /** A task whose call resolves is dispatched if it is the first of the
      queue, has a priority within the hard deadline, or fits in the budget;
      the dispatch is reported and its weight charged. A one-shot task then
      leaves both stores. */
  lemma StepDispatchesAdmitted(cfg: Config, chain: Chain, now: BlockNumber, next: BlockNumber,
                               order: nat, item: Queued, e: EngineState)
    requires !e.panicked
    requires Resolve(chain, item.task.call).0.Value?
    requires cfg.encodedLen(Resolve(chain, item.task.call).0) <= cfg.maxCallLen
    requires var s := item.task; var (call, completed) := Resolve(chain, s.call);
      order == 0 || s.priority <= cfg.hardDeadline ||
      TestWeight(cfg, e.total, s.(call := call), call.call, s.maybeId.Some?, completed.Some?) <= cfg.maximumWeight
    ensures Classify(cfg, chain, order, e.total, item.task) == Dispatch
    ensures var s := item.task; var (call, completed) := Resolve(chain, s.call);
      var r := Step(cfg, chain, now, next, order, item, e);
      var post := chain.dispatch(call.call, s.origin);
      r.events == e.events + [Dispatched(TaskAddress(now, item.index), s.maybeId, post.result)] &&
      r.total == SatAdd(SatAdd(e.total, ItemWeight(cfg, s.(call := call), s.maybeId.Some?, completed.Some?)),
                        post.actualWeight.GetOr(cfg.callWeight(call.call))) &&
      (s.maybePeriodic.None? ==> !r.panicked && r.agenda == e.agenda && r.lookup == Forget(e.lookup, s))
  {
  }

  /** A task is deferred to the next block only when all three hold: its
      priority is above the hard deadline, it is not first in the queue, and
      the budget would be exceeded. It is then not dispatched: it is charged
      the aborted weight and appended to block `next` with its call resolved,
      its id now naming that new position. */
  lemma StepDefersOverBudget(cfg: Config, chain: Chain, now: BlockNumber, next: BlockNumber,
                             order: nat, item: Queued, e: EngineState)
    requires !e.panicked
    requires Classify(cfg, chain, order, e.total, item.task) == Defer
    ensures var s := item.task; var (call, completed) := Resolve(chain, s.call);
      call.Value? && s.priority > cfg.hardDeadline && order > 0 &&
      TestWeight(cfg, e.total, s.(call := call), call.call, s.maybeId.Some?, completed.Some?) > cfg.maximumWeight
    ensures var s := item.task; var s1 := s.(call := Resolve(chain, s.call).0);
      var r := Step(cfg, chain, now, next, order, item, e);
      var at := TaskAddress(next, |Slot(e.agenda, next)|);
      r.events == e.events &&
      r.total == SatAdd(e.total, AbortedWeight(cfg, s)) &&
      (s.maybeId.Some? ==> s.maybeId.value in r.lookup && r.lookup[s.maybeId.value] == at) &&
      (r.panicked <==> |Slot(e.agenda, next)| >= cfg.maxScheduledPerBlock) &&
      (!r.panicked ==> HoldsAt(r.agenda, at, s1))
  {
  }

  /** A task whose preimage is missing is charged the aborted weight and,
      when a postponement delay is configured, appended unchanged to block
      `now + delay` (saturating), its id naming that position. */
  lemma StepPostponesUnresolved(cfg: Config, chain: Chain, now: BlockNumber, next: BlockNumber,
                                order: nat, item: Queued, e: EngineState)
    requires !e.panicked
    requires Classify(cfg, chain, order, e.total, item.task) == Postpone
    ensures var s := item.task;
      s.call.Hash? && chain.preimage(s.call.hash).None? && cfg.noPreimagePostponement.Some?
    ensures var s := item.task; var r := Step(cfg, chain, now, next, order, item, e);
      var until := SatAddBlock(now, cfg.noPreimagePostponement.value);
      var at := TaskAddress(until, |Slot(e.agenda, until)|);
      r.events == e.events && r.ops == e.ops &&
      r.total == SatAdd(e.total, AbortedWeight(cfg, s)) &&
      (s.maybeId.Some? ==> s.maybeId.value in r.lookup && r.lookup[s.maybeId.value] == at) &&
      (r.panicked <==> |Slot(e.agenda, until)| >= cfg.maxScheduledPerBlock) &&
      (!r.panicked ==> HoldsAt(r.agenda, at, s))
  {
  }

  /** Without a postponement delay, a task whose preimage is missing is
      dropped: it is charged the aborted weight and leaves both stores. */
  lemma StepDropsUnresolved(cfg: Config, chain: Chain, now: BlockNumber, next: BlockNumber,
                            order: nat, item: Queued, e: EngineState)
    requires !e.panicked
    requires Classify(cfg, chain, order, e.total, item.task) == Drop
    ensures var s := item.task;
      s.call.Hash? && chain.preimage(s.call.hash).None? && cfg.noPreimagePostponement.None?
    ensures var s := item.task; var r := Step(cfg, chain, now, next, order, item, e);
      !r.panicked && r.agenda == e.agenda && r.lookup == Forget(e.lookup, s) &&
      r.events == e.events && r.ops == e.ops &&
      r.total == SatAdd(e.total, AbortedWeight(cfg, s))
  {
  }

  /** After its dispatch a periodic task is appended to block `now + period`
      (a different block, the period being non-zero) with one run fewer
      owed, its id naming that position. */
  lemma StepRequeuesPeriodic(cfg: Config, chain: Chain, now: BlockNumber, next: BlockNumber,
                             order: nat, item: Queued, e: EngineState)
    requires !e.panicked
    requires Classify(cfg, chain, order, e.total, item.task) == Dispatch
    requires item.task.maybePeriodic.Some? && PeriodicWellFormed(item.task.maybePeriodic)
    ensures var s := item.task; var p := s.maybePeriodic.value;
      var s2 := s.(call := Resolve(chain, s.call).0, maybePeriodic := NextPeriodic(p));
      var wake := WrapAddBlock(now, p.period);
      var at := TaskAddress(wake, |Slot(e.agenda, wake)|);
      var r := Step(cfg, chain, now, next, order, item, e);
      wake != now &&
      Occurrences(s2.maybePeriodic) + 1 == Occurrences(s.maybePeriodic) &&
      (s.maybeId.Some? ==> s.maybeId.value in r.lookup && r.lookup[s.maybeId.value] == at) &&
      (r.panicked <==> |Slot(e.agenda, wake)| >= cfg.maxScheduledPerBlock) &&
      (!r.panicked ==> HoldsAt(r.agenda, at, s2))
  {
    WrapAddMoves(now, item.task.maybePeriodic.value.period);
  }

  /** A preimage that was resolved is unrequested once, whatever the
      task's fate (unless encoding the call panicked first). */
  lemma StepUnrequestsResolved(cfg: Config, chain: Chain, now: BlockNumber, next: BlockNumber,
                               order: nat, item: Queued, e: EngineState)
    requires !e.panicked
    requires Classify(cfg, chain, order, e.total, item.task) != Panic
    ensures var s := item.task; var r := Step(cfg, chain, now, next, order, item, e);
      if s.call.Hash? && chain.preimage(s.call.hash).Some?
      then r.ops == e.ops + [Unrequest(s.call.hash)]
      else r.ops == e.ops
  {
  }

  /** Block-number addition with wrap-around moves away from `now` for any
      non-zero offset. */
  lemma WrapAddMoves(now: BlockNumber, d: BlockNumber)
    requires d != 0
    ensures WrapAddBlock(now, d) != now
  {
    if now + d > BLOCK_MAX {
      assert WrapAddBlock(now, d) == now + d - (BLOCK_MAX + 1);
    }
  }

  // ---------------------------------------------------------------------
  // Properties of the whole block.

  ghost predicate ItemsWellFormed(items: seq<Queued>) {
    forall k :: 0 <= k < |items| ==> PeriodicWellFormed(items[k].task.maybePeriodic)
  }

  /** `slot` is `before` with entries added at its end. */
  ghost predicate Extends(before: seq<Option<Scheduled>>, slot: seq<Option<Scheduled>>) {
    |before| <= |slot| && slot[..|before|] == before
  }

  lemma PlaceOnlyAppends(cfg: Config, a: Agenda, l: Lookup, w: BlockNumber, s: Scheduled)
    ensures forall v :: Extends(Slot(a, v), Slot(Place(cfg, a, l, w, s).agenda, v))
  {
    var r := Place(cfg, a, l, w, s).agenda;
    forall v ensures Extends(Slot(a, v), Slot(r, v)) {
      assert Slot(r, v)[..|Slot(a, v)|] == Slot(a, v);
    }
  }

  lemma StepOnlyAppends(cfg: Config, chain: Chain, now: BlockNumber, next: BlockNumber,
                        order: nat, item: Queued, e: EngineState)
    ensures var r := Step(cfg, chain, now, next, order, item, e);
      forall w :: Extends(Slot(e.agenda, w), Slot(r.agenda, w))
  {
    var r := Step(cfg, chain, now, next, order, item, e);
    var s := item.task;
    var l1 := Forget(e.lookup, s);
    var s1 := s.(call := Resolve(chain, s.call).0);
    if e.panicked || r.agenda == e.agenda {
      forall w ensures Extends(Slot(e.agenda, w), Slot(r.agenda, w)) {
        assert Slot(r.agenda, w)[..|Slot(e.agenda, w)|] == Slot(e.agenda, w);
      }
    } else {
      match Classify(cfg, chain, order, e.total, s)
      case Panic =>
      case Drop =>
      case Postpone =>
        PlaceOnlyAppends(cfg, e.agenda, l1, SatAddBlock(now, cfg.noPreimagePostponement.value), s1);
      case Defer =>
        PlaceOnlyAppends(cfg, e.agenda, l1, next, s1);
      case Dispatch =>
        var p := s1.maybePeriodic.value;
        PlaceOnlyAppends(cfg, e.agenda, l1, WrapAddBlock(now, p.period), s1.(maybePeriodic := NextPeriodic(p)));
    }
  }

  lemma {:induction false} RunOnlyAppends(cfg: Config, chain: Chain, now: BlockNumber, next: BlockNumber,
                                         items: seq<Queued>, init: EngineState)
    ensures var r := Run(cfg, chain, now, next, items, init);
      forall w :: Extends(Slot(init.agenda, w), Slot(r.agenda, w))
    decreases |items|
  {
    if items != [] {
      var k := |items| - 1;
      var prev := Run(cfg, chain, now, next, items[..k], init);
      RunOnlyAppends(cfg, chain, now, next, items[..k], init);
      StepOnlyAppends(cfg, chain, now, next, k, items[k], prev);
      var r := Run(cfg, chain, now, next, items, init);
      forall w ensures Extends(Slot(init.agenda, w), Slot(r.agenda, w)) {
        var o := Slot(init.agenda, w);
        var m := Slot(prev.agenda, w);
        assert Slot(r.agenda, w)[..|o|] == Slot(r.agenda, w)[..|m|][..|o|];
      }
    }
  }

  /** `on_initialize` never removes or rewrites a task of another block: it
      only appends deferred, postponed and periodic tasks. */
  lemma OnInitializeOnlyAppends(cfg: Config, chain: Chain, a: Agenda, l: Lookup, now: BlockNumber, w: BlockNumber)
    requires w != now
    ensures Extends(Slot(a, w), Slot(OnInitializeSpec(cfg, chain, a, l, now).agenda, w))
  {
    RunOnlyAppends(cfg, chain, now, WrapAddBlock(now, 1), DueQueue(a, now), Initial(cfg, a, l, now));
    assert Slot(Initial(cfg, a, l, now).agenda, w) == Slot(a, w);
  }

  lemma StepLeavesNowEmpty(cfg: Config, chain: Chain, now: BlockNumber, next: BlockNumber,
                           order: nat, item: Queued, e: EngineState)
    requires Slot(e.agenda, now) == [] && next != now
    requires PeriodicWellFormed(item.task.maybePeriodic)
    requires cfg.noPreimagePostponement.Some? ==>
      cfg.noPreimagePostponement.value != 0 && now < BLOCK_MAX
    ensures Slot(Step(cfg, chain, now, next, order, item, e).agenda, now) == []
  {
    if !e.panicked {
      var s := item.task;
      var kind := Classify(cfg, chain, order, e.total, s);
      if kind != Panic {
        var e2 := Prepare(chain, s, e);
        assert e2.agenda == e.agenda;
        var s1 := s.(call := Resolve(chain, s.call).0);
        match kind
        case Drop =>
        case Postpone =>
          var until := SatAddBlock(now, cfg.noPreimagePostponement.value);
          assert until != now;
          assert Slot(Place(cfg, e2.agenda, e2.lookup, until, s1).agenda, now) == [];
        case Defer =>
          assert Slot(Place(cfg, e2.agenda, e2.lookup, next, s1).agenda, now) == [];
        case Dispatch =>
          if s.maybePeriodic.Some? {
            WrapAddMoves(now, s.maybePeriodic.value.period);
          }
      }
    }
  }

  lemma {:induction false} RunLeavesNowEmpty(cfg: Config, chain: Chain, now: BlockNumber, next: BlockNumber,
                                            items: seq<Queued>, init: EngineState)
    requires Slot(init.agenda, now) == [] && next != now
    requires ItemsWellFormed(items)
    requires cfg.noPreimagePostponement.Some? ==>
      cfg.noPreimagePostponement.value != 0 && now < BLOCK_MAX
    ensures Slot(Run(cfg, chain, now, next, items, init).agenda, now) == []
    decreases |items|
  {
    if items != [] {
      var k := |items| - 1;
      assert ItemsWellFormed(items[..k]) by {
        forall j | 0 <= j < k ensures PeriodicWellFormed(items[..k][j].task.maybePeriodic) {
          assert items[..k][j] == items[j];
        }
      }
      var prev := Run(cfg, chain, now, next, items[..k], init);
      assert Run(cfg, chain, now, next, items, init) == Step(cfg, chain, now, next, k, items[k], prev);
      RunLeavesNowEmpty(cfg, chain, now, next, items[..k], init);
      StepLeavesNowEmpty(cfg, chain, now, next, k, items[k], prev);
    }
  }

  /** The due queue holds tasks taken from the agenda, so it is well formed when the agenda is. */
  lemma DueQueueWellFormed(a: Agenda, now: BlockNumber)
    requires TasksWellFormed(a)
    ensures ItemsWellFormed(DueQueue(a, now))
  {
    var q := Queue(Slot(a, now));
    forall k | 0 <= k < |DueQueue(a, now)|
      ensures PeriodicWellFormed(DueQueue(a, now)[k].task.maybePeriodic)
    {
      var x := DueQueue(a, now)[k];
      SortedHasSameElements(q, x);
      var j :| 0 <= j < |q| && q[j] == x;
      assert a[now][x.index] == Some(x.task);
    }
  }

  /** `on_initialize` drains the agenda of block `now`: nothing is left
      there, provided a postponement (if any) leads to a later block. */
  lemma OnInitializeDrainsNow(cfg: Config, chain: Chain, a: Agenda, l: Lookup, now: BlockNumber)
    requires TasksWellFormed(a)
    requires cfg.noPreimagePostponement.Some? ==>
      cfg.noPreimagePostponement.value != 0 && now < BLOCK_MAX
    ensures Slot(OnInitializeSpec(cfg, chain, a, l, now).agenda, now) == []
  {
    DueQueueWellFormed(a, now);
    WrapAddMoves(now, 1);
    RunLeavesNowEmpty(cfg, chain, now, WrapAddBlock(now, 1), DueQueue(a, now), Initial(cfg, a, l, now));
  }

  /** The drain needs its hypothesis: with a postponement delay of zero, or
      at the last block number, `now + delay` saturates to `now` itself, so a
      task whose preimage is missing goes back into the agenda of the block
      just taken, where no later `on_initialize(now)` will find it. */
  lemma OnInitializeCanRefillNow(cfg: Config, chain: Chain, a: Agenda, l: Lookup, now: BlockNumber, t: Scheduled)
    requires Slot(a, now) == [Some(t)]
    requires t.call.Hash? && chain.preimage(t.call.hash).None?
    requires cfg.encodedLen(t.call) <= cfg.maxCallLen
    requires cfg.noPreimagePostponement.Some?
    requires cfg.noPreimagePostponement.value == 0 || now == BLOCK_MAX
    requires cfg.maxScheduledPerBlock > 0
    ensures var r := OnInitializeSpec(cfg, chain, a, l, now);
      !r.panicked && Slot(r.agenda, now) == [Some(t)]
  {
    var items := DueQueue(a, now);
    var init := Initial(cfg, a, l, now);
    assert Queue(Slot(a, now)) == [Queued(0, t)];
    assert items == [Queued(0, t)];
    assert items[..1] == items;
    RunOfOne(cfg, chain, now, WrapAddBlock(now, 1), items, init);
    assert Slot(init.agenda, now) == [];
    assert SatAddBlock(now, cfg.noPreimagePostponement.value) == now;
    StepPostponesUnresolved(cfg, chain, now, WrapAddBlock(now, 1), 0, items[0], init);
  }

  /** Each branch of one iteration appends only tasks with well-formed
      periodic descriptors, so the agenda stays well formed. */
  lemma StepKeepsWellFormed(cfg: Config, chain: Chain, now: BlockNumber, next: BlockNumber,
                            order: nat, item: Queued, e: EngineState)
    requires TasksWellFormed(e.agenda) && PeriodicWellFormed(item.task.maybePeriodic)
    ensures TasksWellFormed(Step(cfg, chain, now, next, order, item, e).agenda)
  {
    if !e.panicked {
      var s := item.task;
      var s1 := s.(call := Resolve(chain, s.call).0);
      match Classify(cfg, chain, order, e.total, s)
      case Panic =>
      case Drop =>
      case Postpone =>
        AppendKeepsWellFormed(e.agenda, SatAddBlock(now, cfg.noPreimagePostponement.value), s1);
      case Defer =>
        AppendKeepsWellFormed(e.agenda, next, s1);
      case Dispatch =>
        if s.maybePeriodic.Some? {
          var p := s.maybePeriodic.value;
          AppendKeepsWellFormed(e.agenda, WrapAddBlock(now, p.period), s1.(maybePeriodic := NextPeriodic(p)));
        }
    }
  }

  lemma {:induction false} RunKeepsWellFormed(cfg: Config, chain: Chain, now: BlockNumber, next: BlockNumber,
                                             items: seq<Queued>, init: EngineState)
    requires TasksWellFormed(init.agenda) && ItemsWellFormed(items)
    ensures TasksWellFormed(Run(cfg, chain, now, next, items, init).agenda)
    decreases |items|
  {
    if items != [] {
      var k := |items| - 1;
      assert ItemsWellFormed(items[..k]) by {
        forall j | 0 <= j < k ensures PeriodicWellFormed(items[..k][j].task.maybePeriodic) {
          assert items[..k][j] == items[j];
        }
      }
      var prev := Run(cfg, chain, now, next, items[..k], init);
      assert Run(cfg, chain, now, next, items, init) == Step(cfg, chain, now, next, k, items[k], prev);
      RunKeepsWellFormed(cfg, chain, now, next, items[..k], init);
      StepKeepsWellFormed(cfg, chain, now, next, k, items[k], prev);
    }
  }

  /** Every task `on_initialize` leaves in the agenda has a well-formed
      periodic descriptor, if every task before did. */
  lemma OnInitializeKeepsWellFormed(cfg: Config, chain: Chain, a: Agenda, l: Lookup, now: BlockNumber)
    requires TasksWellFormed(a)
    ensures TasksWellFormed(OnInitializeSpec(cfg, chain, a, l, now).agenda)
  {
    DueQueueWellFormed(a, now);
    var init := Initial(cfg, a, l, now);
    forall v: BlockNumber, i: int | v in init.agenda && 0 <= i < |init.agenda[v]| && init.agenda[v][i].Some?
      ensures PeriodicWellFormed(init.agenda[v][i].value.maybePeriodic)
    {
      assert init.agenda[v] == a[v];
    }
    RunKeepsWellFormed(cfg, chain, now, WrapAddBlock(now, 1), DueQueue(a, now), init);
  }

  // ---------------------------------------------------------------------
  // The per-block bound.

  /** `try_append` only appends below the bound, and a full block panics
      instead, so a placement keeps every block within the bound. */
  lemma PlaceKeepsBounded(cfg: Config, a: Agenda, l: Lookup, w: BlockNumber, s: Scheduled)
    requires Bounded(a, cfg.maxScheduledPerBlock)
    ensures Bounded(Place(cfg, a, l, w, s).agenda, cfg.maxScheduledPerBlock)
  {
    if |Slot(a, w)| < cfg.maxScheduledPerBlock {
      AppendKeepsBounded(a, w, s, cfg.maxScheduledPerBlock);
    }
  }

  /** One iteration keeps every block within the bound, on every branch,
      a panic included. */
  lemma StepKeepsBounded(cfg: Config, chain: Chain, now: BlockNumber, next: BlockNumber,
                         order: nat, item: Queued, e: EngineState)
    requires Bounded(e.agenda, cfg.maxScheduledPerBlock)
    ensures Bounded(Step(cfg, chain, now, next, order, item, e).agenda, cfg.maxScheduledPerBlock)
  {
    if !e.panicked {
      var s := item.task;
      var kind := Classify(cfg, chain, order, e.total, s);
      if kind != Panic {
        var e2 := Prepare(chain, s, e);
        assert e2.agenda == e.agenda;
        var s1 := s.(call := Resolve(chain, s.call).0);
        match kind
        case Drop =>
        case Postpone =>
          PlaceKeepsBounded(cfg, e2.agenda, e2.lookup, SatAddBlock(now, cfg.noPreimagePostponement.value), s1);
        case Defer =>
          PlaceKeepsBounded(cfg, e2.agenda, e2.lookup, next, s1);
        case Dispatch =>
          if s.maybePeriodic.Some? {
            var p := s.maybePeriodic.value;
            PlaceKeepsBounded(cfg, e2.agenda, e2.lookup, WrapAddBlock(now, p.period), s1.(maybePeriodic := NextPeriodic(p)));
          }
      }
    }
  }

  lemma {:induction false} RunKeepsBounded(cfg: Config, chain: Chain, now: BlockNumber, next: BlockNumber,
                                          items: seq<Queued>, init: EngineState)
    requires Bounded(init.agenda, cfg.maxScheduledPerBlock)
    ensures Bounded(Run(cfg, chain, now, next, items, init).agenda, cfg.maxScheduledPerBlock)
    decreases |items|
  {
    if items != [] {
      var k := |items| - 1;
      var prev := Run(cfg, chain, now, next, items[..k], init);
      assert Run(cfg, chain, now, next, items, init) == Step(cfg, chain, now, next, k, items[k], prev);
      RunKeepsBounded(cfg, chain, now, next, items[..k], init);
      StepKeepsBounded(cfg, chain, now, next, k, items[k], prev);
    }
  }

  /** `on_initialize` keeps every block within the bound, whether or not it panics. */
  lemma OnInitializeKeepsBounded(cfg: Config, chain: Chain, a: Agenda, l: Lookup, now: BlockNumber)
    requires Bounded(a, cfg.maxScheduledPerBlock)
    ensures Bounded(OnInitializeSpec(cfg, chain, a, l, now).agenda, cfg.maxScheduledPerBlock)
  {
    RunKeepsBounded(cfg, chain, now, WrapAddBlock(now, 1), DueQueue(a, now), Initial(cfg, a, l, now));
  }

  // ---------------------------------------------------------------------
  // Events.

  /** An event reporting the dispatch, at block `now`, of one of `items`. */
  ghost predicate DispatchOf(items: seq<Queued>, now: BlockNumber, ev: Event) {
    ev.Dispatched? && ev.task.when == now &&
    exists x :: x in items && x.index == ev.task.index && x.task.maybeId == ev.id
  }

  /** One iteration adds at most one event, the dispatch of its own task. */
  lemma StepEmitsDispatch(cfg: Config, chain: Chain, now: BlockNumber, next: BlockNumber,
                          order: nat, item: Queued, e: EngineState)
    ensures var r := Step(cfg, chain, now, next, order, item, e);
      r.events == e.events ||
      (|r.events| == |e.events| + 1 && r.events[..|e.events|] == e.events &&
       r.events[|e.events|].Dispatched? && r.events[|e.events|].task == TaskAddress(now, item.index) &&
       r.events[|e.events|].id == item.task.maybeId)
  {
    if !e.panicked {
      var kind := Classify(cfg, chain, order, e.total, item.task);
      if kind != Panic {
        var e2 := Prepare(chain, item.task, e);
        assert e2.events == e.events;
        var r := Settle(cfg, chain, now, next, item, kind, e2);
        if kind == Dispatch {
          assert r.events[..|e.events|] == e.events;
        }
      }
    }
  }

  lemma {:induction false} RunEmitsDispatches(cfg: Config, chain: Chain, now: BlockNumber, next: BlockNumber,
                                             items: seq<Queued>, init: EngineState)
    ensures var r := Run(cfg, chain, now, next, items, init);
      |init.events| <= |r.events| && r.events[..|init.events|] == init.events &&
      forall j :: |init.events| <= j < |r.events| ==> DispatchOf(items, now, r.events[j])
    decreases |items|
  {
    if items != [] {
      var k := |items| - 1;
      var prev := Run(cfg, chain, now, next, items[..k], init);
      RunEmitsDispatches(cfg, chain, now, next, items[..k], init);
      RunExtend(cfg, chain, now, next, items, init, k);
      assert items[..k + 1] == items;
      StepEmitsDispatch(cfg, chain, now, next, k, items[k], prev);
      DispatchesExtend(items, now, init.events, prev.events, Run(cfg, chain, now, next, items, init).events);
    }
  }

  /** The event-log bookkeeping of one more iteration, on sequences alone. */
  lemma DispatchesExtend(items: seq<Queued>, now: BlockNumber, ie: seq<Event>, pe: seq<Event>, re: seq<Event>)
    requires items != []
    requires |ie| <= |pe| && pe[..|ie|] == ie
    requires forall j :: |ie| <= j < |pe| ==> DispatchOf(items[..|items| - 1], now, pe[j])
    requires re == pe ||
      (|re| == |pe| + 1 && re[..|pe|] == pe && re[|pe|].Dispatched? &&
       re[|pe|].task == TaskAddress(now, items[|items| - 1].index) && re[|pe|].id == items[|items| - 1].task.maybeId)
    ensures |ie| <= |re| && re[..|ie|] == ie
    ensures forall j :: |ie| <= j < |re| ==> DispatchOf(items, now, re[j])
  {
    var k := |items| - 1;
    assert re[..|ie|] == re[..|pe|][..|ie|];
    forall j | |ie| <= j < |re| ensures DispatchOf(items, now, re[j]) {
      if j < |pe| {
        assert re[j] == pe[j];
        var x :| x in items[..k] && x.index == pe[j].task.index && x.task.maybeId == pe[j].id;
        assert x in items;
      } else {
        assert items[k] in items;
      }
    }
  }

  /** `on_initialize` emits only `Dispatched` events, each about a live task
      of block `now` with the id that task carries; in particular it never
      emits `CallLookupFailed`. */
  lemma OnInitializeDispatchesOnlyDueTasks(cfg: Config, chain: Chain, a: Agenda, l: Lookup, now: BlockNumber)
    ensures var r := OnInitializeSpec(cfg, chain, a, l, now);
      forall j :: 0 <= j < |r.events| ==>
        !r.events[j].CallLookupFailed? && r.events[j].Dispatched? && r.events[j].task.when == now &&
        r.events[j].task.index < |Slot(a, now)| && Slot(a, now)[r.events[j].task.index].Some? &&
        Slot(a, now)[r.events[j].task.index].value.maybeId == r.events[j].id
  {
    var items := DueQueue(a, now);
    var q := Queue(Slot(a, now));
    RunEmitsDispatches(cfg, chain, now, WrapAddBlock(now, 1), items, Initial(cfg, a, l, now));
    var r := OnInitializeSpec(cfg, chain, a, l, now);
    forall j | 0 <= j < |r.events|
      ensures r.events[j].task.index < |Slot(a, now)| && Slot(a, now)[r.events[j].task.index].Some? &&
        Slot(a, now)[r.events[j].task.index].value.maybeId == r.events[j].id
    {
      assert DispatchOf(items, now, r.events[j]);
      var x :| x in items && x.index == r.events[j].task.index && x.task.maybeId == r.events[j].id;
      SortedHasSameElements(q, x);
      var i :| 0 <= i < |q| && q[i] == x;
    }
  }

  lemma {:induction false} RunEventsGrow(cfg: Config, chain: Chain, now: BlockNumber, next: BlockNumber,
                                        items: seq<Queued>, init: EngineState, k: nat)
    requires k <= |items|
    ensures var before := Run(cfg, chain, now, next, items[..k], init).events;
      var after := Run(cfg, chain, now, next, items, init).events;
      |before| <= |after| && after[..|before|] == before
    decreases |items|
  {
    if k == |items| {
      assert items[..k] == items;
    } else {
      var m := |items| - 1;
      assert items[..m][..k] == items[..k];
      RunEventsGrow(cfg, chain, now, next, items[..m], init, k);
      var before := Run(cfg, chain, now, next, items[..k], init).events;
      var prev := Run(cfg, chain, now, next, items[..m], init);
      var mid := prev.events;
      StepEmitsDispatch(cfg, chain, now, next, m, items[m], prev);
      var after := Run(cfg, chain, now, next, items, init).events;
      assert after[..|before|] == after[..|mid|][..|before|];
    }
  }

  lemma RunOfOne(cfg: Config, chain: Chain, now: BlockNumber, next: BlockNumber,
                 items: seq<Queued>, init: EngineState)
    requires |items| > 0
    ensures Run(cfg, chain, now, next, items[..1], init) == Step(cfg, chain, now, next, 0, items[0], init)
  {
    var one := items[..1];
    assert one[..0] == [] && one[0] == items[0];
  }

  lemma RunDispatchesFirst(cfg: Config, chain: Chain, now: BlockNumber, next: BlockNumber,
                           items: seq<Queued>, init: EngineState)
    requires |items| > 0 && !init.panicked
    requires Resolve(chain, items[0].task.call).0.Value?
    requires cfg.encodedLen(Resolve(chain, items[0].task.call).0) <= cfg.maxCallLen
    ensures var x := items[0]; var call := Resolve(chain, x.task.call).0;
      var after := Run(cfg, chain, now, next, items, init).events;
      |init.events| < |after| &&
      after[|init.events|] == Dispatched(TaskAddress(now, x.index), x.task.maybeId, chain.dispatch(call.call, x.task.origin).result)
  {
    RunOfOne(cfg, chain, now, next, items, init);
    StepDispatchesAdmitted(cfg, chain, now, next, 0, items[0], init);
    RunEventsGrow(cfg, chain, now, next, items, init, 1);
    var first := Run(cfg, chain, now, next, items[..1], init).events;
    var after := Run(cfg, chain, now, next, items, init).events;
    assert after[|init.events|] == after[..|first|][|init.events|];
  }

  /** Forward progress: the first task of the sorted queue (one of the most
      urgent) is dispatched whatever its weight, as soon as its call is
      available and encodes within bounds; its dispatch is the first event. */
  lemma OnInitializeDispatchesFirst(cfg: Config, chain: Chain, a: Agenda, l: Lookup, now: BlockNumber)
    requires |DueQueue(a, now)| > 0
    requires Resolve(chain, DueQueue(a, now)[0].task.call).0.Value?
    requires cfg.encodedLen(Resolve(chain, DueQueue(a, now)[0].task.call).0) <= cfg.maxCallLen
    ensures var x := DueQueue(a, now)[0]; var r := OnInitializeSpec(cfg, chain, a, l, now);
      var call := Resolve(chain, x.task.call).0;
      |r.events| > 0 &&
      r.events[0] == Dispatched(TaskAddress(now, x.index), x.task.maybeId, chain.dispatch(call.call, x.task.origin).result)
  {
    RunDispatchesFirst(cfg, chain, now, WrapAddBlock(now, 1), DueQueue(a, now), Initial(cfg, a, l, now));
  }

  /** A block holding two live tasks, the first no less urgent, is queued as it stands. */
  lemma DueQueueOfTwo(a: Agenda, now: BlockNumber, x: Scheduled, y: Scheduled)
    requires Slot(a, now) == [Some(x), Some(y)] && x.priority <= y.priority
    ensures DueQueue(a, now) == [Queued(0, x), Queued(1, y)]
  {
    var q0, q1 := Queued(0, x), Queued(1, y);
    QueueOfTwo(Slot(a, now), x, y);
    var r := SortByPriority([q0, q1]);
    assert multiset(r) == multiset{q0, q1};
    assert r[0] in multiset(r) && r[1] in multiset(r);
  }

  /** The queue of a slot holding two live tasks. */
  lemma QueueOfTwo(slot: seq<Option<Scheduled>>, x: Scheduled, y: Scheduled)
    requires slot == [Some(x), Some(y)]
    ensures Queue(slot) == [Queued(0, x), Queued(1, y)]
  {
    assert slot[..1] == [Some(x)];
    assert Queue(slot[..1]) == [Queued(0, x)];
  }

  /** First iteration of the example below: the unavailable head is dropped. */
  lemma UnavailableHeadDropped(cfg: Config, chain: Chain, now: BlockNumber, next: BlockNumber,
                               x: Scheduled, e: EngineState)
    requires !e.panicked && next != now
    requires x.call.Hash? && chain.preimage(x.call.hash).None?
    requires cfg.encodedLen(x.call) <= cfg.maxCallLen && cfg.noPreimagePostponement.None?
    ensures var r := Step(cfg, chain, now, next, 0, Queued(0, x), e);
      !r.panicked && r.events == e.events && r.total == SatAdd(e.total, AbortedWeight(cfg, x)) &&
      r.agenda == e.agenda
  {
    assert Classify(cfg, chain, 0, e.total, x) == Drop;
    StepDropsUnresolved(cfg, chain, now, next, 0, Queued(0, x), e);
  }

  /** Second iteration of the example below: the task behind it is deferred. */
  lemma SecondOverBudgetDeferred(cfg: Config, chain: Chain, now: BlockNumber, next: BlockNumber,
                                 y: Scheduled, e: EngineState)
    requires !e.panicked
    requires y.call.Value? && cfg.encodedLen(y.call) <= cfg.maxCallLen && y.priority > cfg.hardDeadline
    requires TestWeight(cfg, e.total, y, y.call.call, y.maybeId.Some?, false) > cfg.maximumWeight
    requires |Slot(e.agenda, next)| < cfg.maxScheduledPerBlock
    ensures var r := Step(cfg, chain, now, next, 1, Queued(1, y), e);
      !r.panicked && r.events == e.events && HoldsAt(r.agenda, TaskAddress(next, |Slot(e.agenda, next)|), y)
  {
    assert Resolve(chain, y.call) == (y.call, None) && y.(call := y.call) == y;
    assert Classify(cfg, chain, 1, e.total, y) == Defer;
    StepDefersOverBudget(cfg, chain, now, next, 1, Queued(1, y), e);
  }

  /** The loop over an unavailable head and a second task over budget: the
      head is dropped and the second task is deferred to `next`. */
  lemma RunUnavailableThenDeferred(cfg: Config, chain: Chain, now: BlockNumber, next: BlockNumber,
                                   x: Scheduled, y: Scheduled, init: EngineState)
    requires !init.panicked && next != now
    requires x.call.Hash? && chain.preimage(x.call.hash).None?
    requires cfg.encodedLen(x.call) <= cfg.maxCallLen && cfg.noPreimagePostponement.None?
    requires y.call.Value? && cfg.encodedLen(y.call) <= cfg.maxCallLen && y.priority > cfg.hardDeadline
    requires TestWeight(cfg, SatAdd(init.total, AbortedWeight(cfg, x)),
                        y, y.call.call, y.maybeId.Some?, false) > cfg.maximumWeight
    requires |Slot(init.agenda, next)| < cfg.maxScheduledPerBlock
    ensures var r := Run(cfg, chain, now, next, [Queued(0, x), Queued(1, y)], init);
      r.events == init.events && !r.panicked &&
      HoldsAt(r.agenda, TaskAddress(next, |Slot(init.agenda, next)|), y)
  {
    var q0, q1 := Queued(0, x), Queued(1, y);
    var items := [q0, q1];
    assert items[..1] == [q0] && items[..2] == items;
    RunOfOne(cfg, chain, now, next, items, init);
    RunExtend(cfg, chain, now, next, items, init, 1);
    var e1 := Step(cfg, chain, now, next, 0, q0, init);
    UnavailableHeadDropped(cfg, chain, now, next, x, init);
    assert Slot(e1.agenda, next) == Slot(init.agenda, next);
    SecondOverBudgetDeferred(cfg, chain, now, next, y, e1);
  }

  /** The first-item exemption belongs to position 0 of the queue, not to
      the first task that can run: when the most urgent task's preimage is
      missing, the task behind it is taken with `order == 1` and, over
      budget and above the hard deadline, is deferred. The block then
      dispatches nothing. */
  lemma OnInitializeUnavailableHeadLosesExemption(cfg: Config, chain: Chain, a: Agenda, l: Lookup,
                                                 now: BlockNumber, x: Scheduled, y: Scheduled)
    requires Slot(a, now) == [Some(x), Some(y)] && x.priority <= y.priority
    requires x.call.Hash? && chain.preimage(x.call.hash).None?
    requires cfg.encodedLen(x.call) <= cfg.maxCallLen && cfg.noPreimagePostponement.None?
    requires y.call.Value? && cfg.encodedLen(y.call) <= cfg.maxCallLen && y.priority > cfg.hardDeadline
    requires TestWeight(cfg, SatAdd(cfg.weightInfo(OnInitialize).base, AbortedWeight(cfg, x)),
                        y, y.call.call, y.maybeId.Some?, false) > cfg.maximumWeight
    requires |Slot(a, WrapAddBlock(now, 1))| < cfg.maxScheduledPerBlock
    ensures var r := OnInitializeSpec(cfg, chain, a, l, now);
      var next := WrapAddBlock(now, 1);
      r.events == [] && !r.panicked && HoldsAt(r.agenda, TaskAddress(next, |Slot(a, next)|), y)
  {
    var next := WrapAddBlock(now, 1);
    var init := Initial(cfg, a, l, now);
    DueQueueOfTwo(a, now, x, y);
    WrapAddMoves(now, 1);
    assert Slot(init.agenda, next) == Slot(a, next);
    RunUnavailableThenDeferred(cfg, chain, now, next, x, y, init);
  }
}

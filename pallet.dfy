/** The scheduler pallet: the two stores as fields, the scheduling API that
    changes them in place, the two `next_dispatch_time` queries and the
    per-block hook `on_initialize`. */
module Pallet {
  import opened Types
  import opened Time
  import opened Weights
  import opened Stores
  import opened Queueing
  import opened Engine

  /** `ensure_requested`: a hashed call asks the preimage provider to keep its preimage. */
  function RequestOps(call: MaybeHashed): seq<PreimageOp> {
    if call.Hash? then [Request(call.hash)] else []
  }

  /** `ensure_unrequested`: a hashed call releases its preimage. */
  function UnrequestOps(call: MaybeHashed): seq<PreimageOp> {
    if call.Hash? then [Unrequest(call.hash)] else []
  }

  /** A caller `origin`, when given, may not touch task `s` unless it is at
      least as privileged as the task's own origin; incomparable origins are refused. */
  predicate Refused(cfg: Config, origin: Option<Origin>, s: Scheduled) {
    origin.Some? &&
    (cfg.privilegeCmp(origin.value, s.origin) == Some(Less) || cfg.privilegeCmp(origin.value, s.origin).None?)
  }

  class Scheduler {
    const cfg: Config
    /** `Agenda`: block number to the tasks due then. */
    var agenda: Agenda
    /** `Lookup`: schedule id to task address. */
    var lookup: Lookup
    /** Events deposited, oldest first. */
    ghost var events: seq<Event>
    /** Calls made to the preimage provider, oldest first. */
    ghost var preimageOps: seq<PreimageOp>

    /** The invariant the operations keep: `Lookup` is sound, every stored
        periodic descriptor is well formed and no block holds more than
        `maxScheduledPerBlock` positions. */
    ghost predicate Valid()
      reads this
    {
      Sound(agenda, lookup) && TasksWellFormed(agenda) && Bounded(agenda, cfg.maxScheduledPerBlock)
    }

    /** Genesis: both stores empty. */
    constructor(cfg: Config)
      ensures this.cfg == cfg
      ensures agenda == map[] && lookup == map[] && events == [] && preimageOps == []
      ensures Valid()
    {
      this.cfg := cfg;
      agenda := map[];
      lookup := map[];
      events := [];
      preimageOps := [];
    }

    /** `next_dispatch_time` by address: the block of the address, as long as
        the index lies within that block's list (a tombstone included). */
    function NextDispatchTime(addr: TaskAddress): (r: Result<BlockNumber, ()>)
      reads this
      ensures r.Ok? <==> addr.index < |Slot(agenda, addr.when)|
      ensures r.Ok? ==> r.value == addr.when
    {
      if addr.index < |Slot(agenda, addr.when)| then Ok(addr.when) else Err(())
    }

    /** `next_dispatch_time` by name: the block `Lookup` records for the id,
        as long as the recorded index lies within that block's list (which
        may hold a tombstone there). When the stores are valid, every id in
        `Lookup` answers with the block its live task is due at. */
    function NextDispatchTimeNamed(id: seq<U8>): (r: Result<BlockNumber, ()>)
      reads this
      ensures r.Ok? <==> |id| <= cfg.maxScheduleIdLen && id in lookup && NextDispatchTime(lookup[id]).Ok?
      ensures r.Ok? ==> r.value == lookup[id].when
      ensures Valid() && |id| <= cfg.maxScheduleIdLen && id in lookup ==>
        r == Ok(lookup[id].when) && PointsAt(agenda, lookup[id], id)
    {
      if |id| > cfg.maxScheduleIdLen then Err(())
      else if id !in lookup then Err(())
      else NextDispatchTime(lookup[id])
    }

    /** `do_schedule`: resolve the target block, request the preimage of a
        hashed call, check the encoded length, then append the task to the
        target block and report its address. */
    method DoSchedule(now: BlockNumber, when: DispatchTime, maybePeriodic: Option<Period>,
                      priority: Priority, origin: Origin, call: MaybeHashed)
      returns (r: Result<TaskAddress, Error>)
      modifies this
      ensures match ResolveTime(now, when)
        case Err(e) => r == Err(e) && unchanged(this)
        case Ok(w) =>
          lookup == old(lookup) && preimageOps == old(preimageOps) + RequestOps(call) &&
          if cfg.encodedLen(call) > cfg.maxCallLen then
            r == Err(CallTooLong) && agenda == old(agenda) && events == old(events)
          else if |Slot(old(agenda), w)| >= cfg.maxScheduledPerBlock then
            r == Err(TooManyAgendas) && agenda == old(agenda) && events == old(events)
          else
            var s := Task(None, priority, call, SanitizePeriodic(maybePeriodic), origin);
            r == Ok(TaskAddress(w, |Slot(old(agenda), w)|)) &&
            agenda == Append(old(agenda), w, s) &&
            events == old(events) + [Scheduled(w, |Slot(old(agenda), w)|)]
      ensures r.Ok? ==> now < r.value.when && NextDispatchTime(r.value) == Ok(r.value.when)
      ensures old(Valid()) ==> Valid()
      ensures old(Valid()) && r == Err(TooManyAgendas) ==>
        ResolveTime(now, when).Ok? && |Slot(agenda, ResolveTime(now, when).value)| == cfg.maxScheduledPerBlock
    {
      var target := ResolveTime(now, when);
      if target.Err? {
        return Err(target.error);
      }
      var w := target.value;
      preimageOps := preimageOps + RequestOps(call);
      if cfg.encodedLen(call) > cfg.maxCallLen {
        return Err(CallTooLong);
      }
      var s := Task(None, priority, call, SanitizePeriodic(maybePeriodic), origin);
      var slot := Slot(agenda, w);
      if |slot| >= cfg.maxScheduledPerBlock {
        return Err(TooManyAgendas);
      }
      agenda := agenda[w := slot + [Some(s)]];
      var index := |slot|;
      events := events + [Scheduled(w, index)];
      r := Ok(TaskAddress(w, index));
      if old(Valid()) {
        AppendKeepsSound(old(agenda), lookup, w, s);
        AppendKeepsWellFormed(old(agenda), w, s);
        AppendKeepsBounded(old(agenda), w, s, cfg.maxScheduledPerBlock);
      }
    }

    /** `do_schedule_named`: as `do_schedule`, refusing an id already in
        `Lookup` before anything else, and recording the new address under the id. */
    method DoScheduleNamed(now: BlockNumber, id: Id, when: DispatchTime, maybePeriodic: Option<Period>,
                           priority: Priority, origin: Origin, call: MaybeHashed)
      returns (r: Result<TaskAddress, Error>)
      requires |id| <= cfg.maxScheduleIdLen
      modifies this
      ensures id in old(lookup) ==> r == Err(FailedToSchedule) && unchanged(this)
      ensures id !in old(lookup) ==> match ResolveTime(now, when)
        case Err(e) => r == Err(e) && unchanged(this)
        case Ok(w) =>
          preimageOps == old(preimageOps) + RequestOps(call) &&
          if cfg.encodedLen(call) > cfg.maxCallLen then
            r == Err(CallTooLong) && agenda == old(agenda) && lookup == old(lookup) && events == old(events)
          else if |Slot(old(agenda), w)| >= cfg.maxScheduledPerBlock then
            r == Err(TooManyAgendas) && agenda == old(agenda) && lookup == old(lookup) && events == old(events)
          else
            var s := Task(Some(id), priority, call, SanitizePeriodic(maybePeriodic), origin);
            var addr := TaskAddress(w, |Slot(old(agenda), w)|);
            r == Ok(addr) &&
            agenda == Append(old(agenda), w, s) &&
            lookup == old(lookup)[id := addr] &&
            events == old(events) + [Scheduled(w, addr.index)]
      ensures r.Ok? ==> now < r.value.when && NextDispatchTimeNamed(id) == Ok(r.value.when)
      ensures old(Valid()) ==> Valid()
      ensures old(Valid()) && r == Err(TooManyAgendas) ==>
        ResolveTime(now, when).Ok? && |Slot(agenda, ResolveTime(now, when).value)| == cfg.maxScheduledPerBlock
    {
      if id in lookup {
        return Err(FailedToSchedule);
      }
      var target := ResolveTime(now, when);
      if target.Err? {
        return Err(target.error);
      }
      var w := target.value;
      preimageOps := preimageOps + RequestOps(call);
      if cfg.encodedLen(call) > cfg.maxCallLen {
        return Err(CallTooLong);
      }
      var s := Task(Some(id), priority, call, SanitizePeriodic(maybePeriodic), origin);
      var slot := Slot(agenda, w);
      if |slot| >= cfg.maxScheduledPerBlock {
        return Err(TooManyAgendas);
      }
      agenda := agenda[w := slot + [Some(s)]];
      var address := TaskAddress(w, |slot|);
      lookup := lookup[id := address];
      events := events + [Scheduled(w, address.index)];
      r := Ok(address);
      if old(Valid()) {
        AppendNamedKeepsSound(old(agenda), old(lookup), w, s);
        AppendKeepsWellFormed(old(agenda), w, s);
        AppendKeepsBounded(old(agenda), w, s, cfg.maxScheduledPerBlock);
      }
    }

    /** `do_cancel`: vacate the task at `addr`, leaving a tombstone, release
        its preimage and forget its id. An index past the list or a
        tombstone is `NotFound`; an insufficiently privileged caller is
        `BadOrigin`. Errors change nothing. */
    method DoCancel(origin: Option<Origin>, addr: TaskAddress) returns (r: Result<(), Error>)
      modifies this
      ensures var slot := Slot(old(agenda), addr.when);
        if addr.index >= |slot| || slot[addr.index].None? then
          r == Err(NotFound) && unchanged(this)
        else if Refused(cfg, origin, slot[addr.index].value) then
          r == Err(BadOrigin) && unchanged(this)
        else
          var s := slot[addr.index].value;
          r == Ok(()) &&
          agenda == Tombstone(old(agenda), addr) &&
          lookup == Forget(old(lookup), s) &&
          preimageOps == old(preimageOps) + UnrequestOps(s.call) &&
          events == old(events) + [Canceled(addr.when, addr.index)]
      ensures r.Ok? ==> NextDispatchTime(addr) == Ok(addr.when)
      ensures old(Valid()) ==> Valid()
    {
      var slot := Slot(agenda, addr.when);
      if addr.index >= |slot| {
        return Err(NotFound);
      }
      if slot[addr.index].Some? && Refused(cfg, origin, slot[addr.index].value) {
        return Err(BadOrigin);
      }
      if slot[addr.index].None? {
        return Err(NotFound);
      }
      var s := slot[addr.index].value;
      agenda := agenda[addr.when := slot[addr.index := None]];
      preimageOps := preimageOps + UnrequestOps(s.call);
      if s.maybeId.Some? {
        lookup := lookup - {s.maybeId.value};
      }
      events := events + [Canceled(addr.when, addr.index)];
      r := Ok(());
      if old(Valid()) {
        TombstoneKeepsSound(old(agenda), old(lookup), addr, s);
        TombstoneKeepsWellFormed(old(agenda), addr);
        TombstoneKeepsBounded(old(agenda), addr, cfg.maxScheduledPerBlock);
      }
    }

    /** `do_cancel_named`: the address comes from `Lookup`, whose entry is
        removed. As written, an index past the list is still a success, and
        the preimage is released only when a caller origin was given. */
    method DoCancelNamed(origin: Option<Origin>, id: Id) returns (r: Result<(), Error>)
      requires |id| <= cfg.maxScheduleIdLen
      modifies this
      ensures id !in old(lookup) ==> r == Err(NotFound) && unchanged(this)
      ensures id in old(lookup) ==>
        var addr := old(lookup)[id];
        var slot := Slot(old(agenda), addr.when);
        var live := addr.index < |slot| && slot[addr.index].Some?;
        if live && Refused(cfg, origin, slot[addr.index].value) then
          r == Err(BadOrigin) && unchanged(this)
        else
          r == Ok(()) &&
          lookup == old(lookup) - {id} &&
          (addr.index < |slot| ==> agenda == Tombstone(old(agenda), addr)) &&
          (addr.index >= |slot| ==> agenda == old(agenda)) &&
          preimageOps == old(preimageOps) +
            (if live && origin.Some? then UnrequestOps(slot[addr.index].value.call) else []) &&
          events == old(events) + [Canceled(addr.when, addr.index)]
      ensures old(Valid()) ==> Valid()
    {
      if id !in lookup {
        return Err(NotFound);
      }
      var addr := lookup[id];
      var slot := Slot(agenda, addr.when);
      if addr.index < |slot| {
        if origin.Some? && slot[addr.index].Some? {
          if Refused(cfg, origin, slot[addr.index].value) {
            return Err(BadOrigin);
          }
          preimageOps := preimageOps + UnrequestOps(slot[addr.index].value.call);
        }
        agenda := agenda[addr.when := slot[addr.index := None]];
      }
      lookup := lookup - {id};
      events := events + [Canceled(addr.when, addr.index)];
      r := Ok(());
      if old(Valid()) {
        var s := slot[addr.index].value;
        TombstoneKeepsSound(old(agenda), old(lookup), addr, s);
        TombstoneKeepsWellFormed(old(agenda), addr);
        TombstoneKeepsBounded(old(agenda), addr, cfg.maxScheduledPerBlock);
      }
    }

    /** `do_reschedule`: move the task at `addr` to the resolved block,
        leaving a tombstone behind. `Lookup` is not touched, so the stores
        stay valid only when the moved task is anonymous; an id still naming
        the old address keeps answering the old block by name. */
    method DoReschedule(now: BlockNumber, addr: TaskAddress, newTime: DispatchTime)
      returns (r: Result<TaskAddress, Error>)
      modifies this
      ensures match ResolveTime(now, newTime)
        case Err(e) => r == Err(e) && unchanged(this)
        case Ok(w) =>
          var slot := Slot(old(agenda), addr.when);
          if w == addr.when then
            r == Err(RescheduleNoChange) && unchanged(this)
          else if addr.index >= |slot| || slot[addr.index].None? then
            r == Err(NotFound) && unchanged(this)
          else if |Slot(old(agenda), w)| >= cfg.maxScheduledPerBlock then
            r == Err(TooManyAgendas) && unchanged(this)
          else
            var to := TaskAddress(w, |Slot(old(agenda), w)|);
            r == Ok(to) &&
            agenda == Move(old(agenda), addr, w) &&
            lookup == old(lookup) && preimageOps == old(preimageOps) &&
            events == old(events) + [Canceled(addr.when, addr.index), Scheduled(w, to.index)]
      ensures old(Valid()) && r.Ok? ==>
        var s := Slot(old(agenda), addr.when)[addr.index].value;
        TasksWellFormed(agenda) && Bounded(agenda, cfg.maxScheduledPerBlock) &&
        (s.maybeId.None? ==> Sound(agenda, lookup)) &&
        (s.maybeId.Some? && s.maybeId.value in lookup && lookup[s.maybeId.value] == addr ==> !Sound(agenda, lookup))
      ensures r.Ok? ==> forall id :: id in lookup && lookup[id] == addr && |id| <= cfg.maxScheduleIdLen ==>
        NextDispatchTimeNamed(id) == Ok(addr.when) && !PointsAt(agenda, addr, id)
      ensures r.Err? ==> unchanged(this)
    {
      var target := ResolveTime(now, newTime);
      if target.Err? {
        return Err(target.error);
      }
      var w := target.value;
      if w == addr.when {
        return Err(RescheduleNoChange);
      }
      var slot := Slot(agenda, addr.when);
      if addr.index >= |slot| || slot[addr.index].None? {
        return Err(NotFound);
      }
      var task := slot[addr.index].value;
      var dest := Slot(agenda, w);
      if |dest| >= cfg.maxScheduledPerBlock {
        return Err(TooManyAgendas);
      }
      agenda := agenda[addr.when := slot[addr.index := None]];
      agenda := agenda[w := dest + [Some(task)]];
      var newIndex := |dest|;
      events := events + [Canceled(addr.when, addr.index), Scheduled(w, newIndex)];
      r := Ok(TaskAddress(w, newIndex));
      if old(Valid()) {
        MoveKeepsWellFormed(old(agenda), addr, w);
        MoveKeepsBounded(old(agenda), addr, w, cfg.maxScheduledPerBlock);
        if task.maybeId.None? {
          MoveAnonymousKeepsSound(old(agenda), lookup, addr, w);
        } else if task.maybeId.value in lookup && lookup[task.maybeId.value] == addr {
          MoveNamedWithoutLookupBreaksSound(old(agenda), lookup, addr, w, task.maybeId.value);
        }
      }
    }

    /** `do_reschedule_named`: as `do_reschedule` with the address taken from
        `Lookup`, which then names the new address. An id longer than the
        bound is refused first. */
    method DoRescheduleNamed(now: BlockNumber, id: seq<U8>, newTime: DispatchTime)
      returns (r: Result<TaskAddress, Error>)
      modifies this
      ensures |id| > cfg.maxScheduleIdLen ==> r == Err(ScheduleIdTooLong) && unchanged(this)
      ensures |id| <= cfg.maxScheduleIdLen ==> match ResolveTime(now, newTime)
        case Err(e) => r == Err(e) && unchanged(this)
        case Ok(w) =>
          if id !in old(lookup) then
            r == Err(NotFound) && unchanged(this)
          else
            var addr := old(lookup)[id];
            var slot := Slot(old(agenda), addr.when);
            if w == addr.when then
              r == Err(RescheduleNoChange) && unchanged(this)
            else if addr.index >= |slot| || slot[addr.index].None? then
              r == Err(NotFound) && unchanged(this)
            else if |Slot(old(agenda), w)| >= cfg.maxScheduledPerBlock then
              r == Err(TooManyAgendas) && unchanged(this)
            else
              var to := TaskAddress(w, |Slot(old(agenda), w)|);
              r == Ok(to) &&
              agenda == Move(old(agenda), addr, w) &&
              lookup == old(lookup)[id := to] && preimageOps == old(preimageOps) &&
              events == old(events) + [Canceled(addr.when, addr.index), Scheduled(w, to.index)]
      ensures r.Ok? ==> NextDispatchTimeNamed(id) == Ok(r.value.when)
      ensures old(Valid()) ==> Valid()
    {
      if |id| > cfg.maxScheduleIdLen {
        return Err(ScheduleIdTooLong);
      }
      var target := ResolveTime(now, newTime);
      if target.Err? {
        return Err(target.error);
      }
      var w := target.value;
      if id !in lookup {
        return Err(NotFound);
      }
      var addr := lookup[id];
      if w == addr.when {
        return Err(RescheduleNoChange);
      }
      var slot := Slot(agenda, addr.when);
      if addr.index >= |slot| || slot[addr.index].None? {
        return Err(NotFound);
      }
      var task := slot[addr.index].value;
      var dest := Slot(agenda, w);
      if |dest| >= cfg.maxScheduledPerBlock {
        return Err(TooManyAgendas);
      }
      agenda := agenda[addr.when := slot[addr.index := None]];
      agenda := agenda[w := dest + [Some(task)]];
      var newIndex := |dest|;
      events := events + [Canceled(addr.when, addr.index), Scheduled(w, newIndex)];
      lookup := lookup[id := TaskAddress(w, newIndex)];
      r := Ok(TaskAddress(w, newIndex));
      if old(Valid()) {
        MoveKeepsWellFormed(old(agenda), addr, w);
        MoveKeepsBounded(old(agenda), addr, w, cfg.maxScheduledPerBlock);
        MoveNamedKeepsSound(old(agenda), old(lookup), addr, w, id);
      }
    }

    /** Record a task's address in `Lookup` (when named) and append it to
        block `w`; `ok` is false where `try_append(..).expect(..)` panics. */
    method PlaceTask(w: BlockNumber, s: Scheduled) returns (ok: bool)
      modifies this
      ensures var p := Place(cfg, old(agenda), old(lookup), w, s);
        agenda == p.agenda && lookup == p.lookup && ok == p.ok
      ensures events == old(events) && preimageOps == old(preimageOps)
    {
      var index := |Slot(agenda, w)|;
      if s.maybeId.Some? {
        lookup := lookup[s.maybeId.value := TaskAddress(w, index)];
      }
      if index < cfg.maxScheduledPerBlock {
        agenda := agenda[w := Slot(agenda, w) + [Some(s)]];
        ok := true;
      } else {
        ok := false;
      }
    }

    /** One iteration of the loop of `on_initialize`, for the task `item` at
        position `order` of the sorted queue; `ok` is false on a panic. The
        id leaves `Lookup` first, so a call too long to encode panics with
        the id already forgotten. */
    method Process(chain: Chain, now: BlockNumber, next: BlockNumber, order: nat, item: Queued,
                   total: Weight, ghost e: EngineState, ghost baseEvents: seq<Event>, ghost baseOps: seq<PreimageOp>)
      returns (total': Weight, ok: bool)
      requires !e.panicked && agenda == e.agenda && lookup == e.lookup && total == e.total
      requires events == baseEvents + e.events && preimageOps == baseOps + e.ops
      modifies this
      ensures var r := Step(cfg, chain, now, next, order, item, e);
        agenda == r.agenda && lookup == r.lookup && total' == r.total && ok == !r.panicked &&
        events == baseEvents + r.events && preimageOps == baseOps + r.ops
    {
      var s := item.task;
      if s.maybeId.Some? {
        lookup := lookup - {s.maybeId.value};
      }
      var (call, completed) := Resolve(chain, s.call);
      if cfg.encodedLen(call) > cfg.maxCallLen {
        return total, false;
      }
      if completed.Some? {
        preimageOps := preimageOps + [Unrequest(completed.value)];
      }
      ghost var e2 := Prepare(chain, item.task, e);
      total', ok := SettleTask(chain, now, next, order, item, call, completed, total, e2, baseEvents, baseOps);
    }

    /** The rest of one iteration once the task is prepared: postponed or
        dropped without a preimage, deferred to `next` over the weight
        limit, or else dispatched and, if periodic, queued again. */
    method SettleTask(chain: Chain, now: BlockNumber, next: BlockNumber, order: nat, item: Queued,
                      call: MaybeHashed, completed: Option<PreimageHash>,
                      total: Weight, ghost e2: EngineState, ghost baseEvents: seq<Event>, ghost baseOps: seq<PreimageOp>)
      returns (total': Weight, ok: bool)
      requires (call, completed) == Resolve(chain, item.task.call)
      requires Classify(cfg, chain, order, total, item.task) != Panic
      requires !e2.panicked && agenda == e2.agenda && lookup == e2.lookup && total == e2.total
      requires events == baseEvents + e2.events && preimageOps == baseOps + e2.ops
      modifies this
      ensures var r := Settle(cfg, chain, now, next, item, Classify(cfg, chain, order, total, item.task), e2);
        agenda == r.agenda && lookup == r.lookup && total' == r.total && ok == !r.panicked &&
        events == baseEvents + r.events && preimageOps == baseOps + r.ops
    {
      var s := item.task.(call := call);
      var named := s.maybeId.Some?;
      if call.Hash? {
        total' := SatAdd(total, Item(cfg.weightInfo, false, named, None));
        ok := true;
        if cfg.noPreimagePostponement.Some? {
          var until := SatAddBlock(now, cfg.noPreimagePostponement.value);
          ok := PlaceTask(until, s);
        }
        return;
      }
      var c := call.call;
      var callWeight := cfg.callWeight(c);
      var itemWeight := ItemWeight(cfg, s, named, completed.Some?);
      var testWeight := SatAdd(SatAdd(total, callWeight), itemWeight);
      if !(s.priority <= cfg.hardDeadline) && order > 0 && testWeight > cfg.maximumWeight {
        total' := SatAdd(total, Item(cfg.weightInfo, false, named, None));
        ok := PlaceTask(next, s);
        return;
      }
      var post := chain.dispatch(c, s.origin);
      total' := SatAdd(total, itemWeight);
      total' := SatAdd(total', post.actualWeight.GetOr(callWeight));
      events := events + [Dispatched(TaskAddress(now, item.index), s.maybeId, post.result)];
      ok := true;
      if s.maybePeriodic.Some? {
        var p := s.maybePeriodic.value;
        s := s.(maybePeriodic := NextPeriodic(p));
        var wake := WrapAddBlock(now, p.period);
        ok := PlaceTask(wake, s);
      }
    }

    /** The loop of `on_initialize` over the sorted queue, stopping at the
        first panic. */
    method RunQueue(chain: Chain, now: BlockNumber, next: BlockNumber, queued: seq<Queued>,
                    start: Weight, ghost init: EngineState) returns (weight: Weight, panicked: bool)
      requires !init.panicked && agenda == init.agenda && lookup == init.lookup && start == init.total
      requires init.events == [] && init.ops == []
      modifies this
      ensures var r := Run(cfg, chain, now, next, queued, init);
        agenda == r.agenda && lookup == r.lookup && weight == r.total && panicked == r.panicked &&
        events == old(events) + r.events && preimageOps == old(preimageOps) + r.ops
    {
      ghost var baseEvents := events;
      ghost var baseOps := preimageOps;
      assert queued[..0] == [];
      var total := start;
      for order := 0 to |queued|
        invariant var r := Run(cfg, chain, now, next, queued[..order], init);
          agenda == r.agenda && lookup == r.lookup && total == r.total && !r.panicked &&
          events == baseEvents + r.events && preimageOps == baseOps + r.ops
      {
        ghost var e := Run(cfg, chain, now, next, queued[..order], init);
        RunExtend(cfg, chain, now, next, queued, init, order);
        var ok;
        total, ok := Process(chain, now, next, order, queued[order], total, e, baseEvents, baseOps);
        if !ok {
          RunStaysPanicked(cfg, chain, now, next, queued, init, order + 1);
          return total, true;
        }
      }
      assert queued[..|queued|] == queued;
      weight, panicked := total, false;
    }

    /** `on_initialize(now)`: take the agenda of `now`, sort its live tasks
        by priority and process them in turn. The new stores, the weight
        returned, the events and the preimage calls are those of
        `OnInitializeSpec`; `panicked` reports a failed `.expect`. */
    method OnInitialize(now: BlockNumber, chain: Chain) returns (weight: Weight, panicked: bool)
      modifies this
      ensures var r := OnInitializeSpec(cfg, chain, old(agenda), old(lookup), now);
        agenda == r.agenda && lookup == r.lookup && weight == r.total && panicked == r.panicked &&
        events == old(events) + r.events && preimageOps == old(preimageOps) + r.ops
      ensures old(Valid()) ==> TasksWellFormed(agenda) && Bounded(agenda, cfg.maxScheduledPerBlock)
      ensures old(Valid()) && !panicked ==> Valid()
      ensures forall j :: |old(events)| <= j < |events| ==> events[j].Dispatched? && events[j].task.when == now
    {
      ghost var init := Initial(cfg, agenda, lookup, now);
      OnInitializeFacts(chain, now, agenda, lookup);
      var queued := DueQueue(agenda, now);
      agenda := agenda - {now};
      var next := WrapAddBlock(now, 1);
      weight, panicked := RunQueue(chain, now, next, queued, cfg.weightInfo(Benchmark.OnInitialize).base, init);
    }

    /** The properties of `OnInitializeSpec` that `OnInitialize` reports. */
    lemma OnInitializeFacts(chain: Chain, now: BlockNumber, a: Agenda, l: Lookup)
      ensures var r := OnInitializeSpec(cfg, chain, a, l, now);
        (TasksWellFormed(a) ==> TasksWellFormed(r.agenda)) &&
        (Bounded(a, cfg.maxScheduledPerBlock) ==> Bounded(r.agenda, cfg.maxScheduledPerBlock)) &&
        (Sound(a, l) && !r.panicked ==> Sound(r.agenda, r.lookup)) &&
        forall j :: 0 <= j < |r.events| ==> r.events[j].Dispatched? && r.events[j].task.when == now
    {
      if TasksWellFormed(a) {
        OnInitializeKeepsWellFormed(cfg, chain, a, l, now);
      }
      if Bounded(a, cfg.maxScheduledPerBlock) {
        OnInitializeKeepsBounded(cfg, chain, a, l, now);
      }
      if Sound(a, l) {
        OnInitializeKeepsSound(cfg, chain, a, l, now);
      }
      OnInitializeDispatchesOnlyDueTasks(cfg, chain, a, l, now);
    }
  }
}

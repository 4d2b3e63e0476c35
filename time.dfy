/** Target-block resolution and the periodic descriptor: how a `DispatchTime`
    becomes a block number, how a requested period is sanitised when a task is
    scheduled, and how it counts down each time the task runs. */
module Time {
  import opened Types

  /** `resolve_time`: `At(x)` is block `x`, `After(x)` is `now + x + 1`
      (saturating); a block that is not strictly after `now` is refused. */
  function ResolveTime(now: BlockNumber, when: DispatchTime): (r: Result<BlockNumber, Error>)
    ensures r.Ok? ==> now < r.value
    ensures r.Err? ==> r.error == TargetBlockNumberInPast
    ensures when.At? ==> (r.Ok? <==> now < when.block) && (r.Ok? ==> r.value == when.block)
    ensures when.After? ==> (r.Ok? <==> now < BLOCK_MAX)
    ensures when.After? && now + when.delay + 1 <= BLOCK_MAX ==> r == Ok(now + when.delay + 1)
    ensures when.After? && now < BLOCK_MAX < now + when.delay + 1 ==> r == Ok(BLOCK_MAX)
  {
    var target := match when
      case At(x) => x
      case After(x) => SatAddBlock(SatAddBlock(now, x), 1);
    if target <= now then Err(TargetBlockNumberInPast) else Ok(target)
  }

  /** A periodic descriptor as it may be stored: a non-zero period and at
      least one run still owed after the current one. */
  ghost predicate PeriodicWellFormed(p: Option<Period>) {
    p.Some? ==> p.value.period != 0 && p.value.count >= 1
  }

  /** The descriptor a task carries after one run: one fewer repetition, and
      none at all once the last repetition has been used. */
  function NextPeriodic(p: Period): (r: Option<Period>)
    ensures PeriodicWellFormed(Some(p)) ==> PeriodicWellFormed(r)
    ensures r.Some? ==> r.value.period == p.period && r.value.count + 1 == p.count
    ensures r.None? <==> p.count <= 1
  {
    if p.count > 1 then Some(Period(p.period, p.count - 1)) else None
  }

  /** The sanitisation done when scheduling: a period is kept only when it
      repeats (`count > 1`) at a non-zero interval, and it then stores
      `count - 1`, because the first run is the one being scheduled now. */
  function SanitizePeriodic(p: Option<Period>): (r: Option<Period>)
    ensures PeriodicWellFormed(r)
    ensures r.Some? <==> p.Some? && p.value.count > 1 && p.value.period != 0
    ensures r.Some? ==> r.value.period == p.value.period && r.value.count + 1 == p.value.count
  {
    match p
    case Some(Period(period, count)) =>
      if count > 1 && period != 0 then Some(Period(period, count - 1)) else None
    case None => None
  }

  /** How many times a task carrying descriptor `p` is still dispatched,
      counting the run it is queued for: one, plus one per remaining repetition. */
  function Occurrences(p: Option<Period>): nat
    decreases if p.Some? then p.value.count + 1 else 0
  {
    match p
    case None => 1
    case Some(q) => 1 + Occurrences(NextPeriodic(q))
  }

  /** A stored descriptor with `count` repetitions left yields `count + 1` runs. */
  lemma {:induction false} OccurrencesOfStored(p: Period)
    requires p.count >= 1
    ensures Occurrences(Some(p)) == p.count + 1
    decreases p.count
  {
    if p.count > 1 {
      OccurrencesOfStored(Period(p.period, p.count - 1));
    }
  }

  /** A task scheduled with a period of `n >= 2` runs at a non-zero interval
      is dispatched exactly `n` times; any other request yields a single run. */
  lemma ScheduledRunsExactly(p: Option<Period>)
    ensures p.Some? && p.value.count >= 2 && p.value.period != 0 ==>
      Occurrences(SanitizePeriodic(p)) == p.value.count
    ensures !(p.Some? && p.value.count >= 2 && p.value.period != 0) ==>
      Occurrences(SanitizePeriodic(p)) == 1
  {
    if p.Some? && p.value.count >= 2 && p.value.period != 0 {
      OccurrencesOfStored(SanitizePeriodic(p).value);
    }
  }
}

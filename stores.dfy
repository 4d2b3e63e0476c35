/** The two keyed stores: `Agenda` (block number to a bounded list of task
    slots, where `None` is a tombstone left by a cancellation) and `Lookup`
    (schedule id to task address), with the invariant that ties them. */
module Stores {
  import opened Types
  import opened Time

  /** `Agenda`. A block that is not a key holds the empty list, as the
      store's default-value query returns. The source's list type is bounded
      by `maxScheduledPerBlock`; here that bound is the invariant `Bounded`. */
  type Agenda = map<BlockNumber, seq<Option<Scheduled>>>

  /** `Lookup`. */
  type Lookup = map<Id, TaskAddress>

  /** `Agenda::get(w)`. */
  function Slot(a: Agenda, w: BlockNumber): (r: seq<Option<Scheduled>>)
    ensures w in a ==> r == a[w]
    ensures r != [] ==> w in a
  {
    if w in a then a[w] else []
  }

  /** `try_append` once the bound has been checked: `s` goes at the end of
      block `w`'s list and every other position keeps its task. */
  function Append(a: Agenda, w: BlockNumber, s: Scheduled): (r: Agenda)
    ensures Slot(r, w) == Slot(a, w) + [Some(s)]
    ensures forall v :: v != w ==> Slot(r, v) == Slot(a, v)
  {
    a[w := Slot(a, w) + [Some(s)]]
  }

  /** Vacating one position (`take()` or `*s = None`): the list keeps its
      length and every other position keeps its task. */
  function Tombstone(a: Agenda, addr: TaskAddress): (r: Agenda)
    requires addr.index < |Slot(a, addr.when)|
    ensures |Slot(r, addr.when)| == |Slot(a, addr.when)|
    ensures Slot(r, addr.when)[addr.index].None?
    ensures forall i :: 0 <= i < |Slot(a, addr.when)| && i != addr.index ==>
      Slot(r, addr.when)[i] == Slot(a, addr.when)[i]
    ensures forall v :: v != addr.when ==> Slot(r, v) == Slot(a, v)
  {
    a[addr.when := Slot(a, addr.when)[addr.index := None]]
  }

  /** The task `s` sits at `addr`. */
  ghost predicate HoldsAt(a: Agenda, addr: TaskAddress, s: Scheduled) {
    addr.index < |Slot(a, addr.when)| && Slot(a, addr.when)[addr.index] == Some(s)
  }

  /** A live task whose id is `id` sits at `addr`. */
  ghost predicate PointsAt(a: Agenda, addr: TaskAddress, id: Id) {
    addr.index < |Slot(a, addr.when)| &&
    Slot(a, addr.when)[addr.index].Some? &&
    Slot(a, addr.when)[addr.index].value.maybeId == Some(id)
  }

  /** The central invariant: every `Lookup[id] = (w, i)` points at a live
      task in `Agenda[w][i]` that carries `id`. */
  ghost predicate Sound(a: Agenda, l: Lookup) {
    forall id :: id in l ==> PointsAt(a, l[id], id)
  }

  /** Every stored periodic descriptor has a non-zero period and owes at least one run. */
  ghost predicate TasksWellFormed(a: Agenda) {
    forall w, i :: w in a && 0 <= i < |a[w]| && a[w][i].Some? ==>
      PeriodicWellFormed(a[w][i].value.maybePeriodic)
  }

  /** No block holds more than `max` positions (tombstones included): the
      bound the agenda's bounded list type enforces. */
  ghost predicate Bounded(a: Agenda, max: nat) {
    forall w :: w in a ==> |a[w]| <= max
  }

  /** `Lookup` without the entry of `s`, if `s` is named. */
  function Forget(l: Lookup, s: Scheduled): (r: Lookup)
    ensures s.maybeId.Some? ==> s.maybeId.value !in r
    ensures forall id :: id in r <==> id in l && Some(id) != s.maybeId
    ensures forall id :: id in r ==> r[id] == l[id]
  {
    if s.maybeId.Some? then l - {s.maybeId.value} else l
  }

  /** Appending never disturbs an existing task, so it keeps `Sound`. */
  lemma AppendKeepsSound(a: Agenda, l: Lookup, w: BlockNumber, s: Scheduled)
    requires Sound(a, l)
    ensures Sound(Append(a, w, s), l)
  {
    var r: Agenda := Append(a, w, s);
    forall id | id in l ensures PointsAt(r, l[id], id) {
      assert PointsAt(a, l[id], id);
      if l[id].when == w {
        assert Slot(r, w)[l[id].index] == Slot(a, w)[l[id].index];
      }
    }
  }

  /** Appending a named task and recording its new address keeps `Sound`:
      the recorded address is the old length of the list, where the task now sits. */
  lemma AppendNamedKeepsSound(a: Agenda, l: Lookup, w: BlockNumber, s: Scheduled)
    requires Sound(a, l) && s.maybeId.Some?
    ensures Sound(Append(a, w, s), l[s.maybeId.value := TaskAddress(w, |Slot(a, w)|)])
  {
    AppendKeepsSound(a, l, w, s);
    var r: Agenda := Append(a, w, s);
    assert PointsAt(r, TaskAddress(w, |Slot(a, w)|), s.maybeId.value);
  }

  /** Vacating a task and forgetting its id keeps `Sound`: under `Sound`
      only that id can point at the vacated position. */
  lemma TombstoneKeepsSound(a: Agenda, l: Lookup, addr: TaskAddress, s: Scheduled)
    requires Sound(a, l) && HoldsAt(a, addr, s)
    ensures Sound(Tombstone(a, addr), Forget(l, s))
  {
    var r: Agenda := Tombstone(a, addr);
    var l' := Forget(l, s);
    forall id | id in l' ensures PointsAt(r, l'[id], id) {
      assert PointsAt(a, l[id], id);
      assert l[id] != addr;
      if l[id].when == addr.when {
        assert Slot(r, addr.when)[l[id].index] == Slot(a, addr.when)[l[id].index];
      }
    }
  }

  lemma AppendKeepsWellFormed(a: Agenda, w: BlockNumber, s: Scheduled)
    requires TasksWellFormed(a) && PeriodicWellFormed(s.maybePeriodic)
    ensures TasksWellFormed(Append(a, w, s))
  {
    var r: Agenda := Append(a, w, s);
    forall v: BlockNumber, i: int | v in r && 0 <= i < |r[v]| && r[v][i].Some?
      ensures PeriodicWellFormed(r[v][i].value.maybePeriodic)
    {
      assert r[v] == Slot(r, v);
      if v != w || i < |Slot(a, w)| {
        assert r[v][i] == Slot(a, v)[i] && v in a;
      }
    }
  }

  lemma TombstoneKeepsWellFormed(a: Agenda, addr: TaskAddress)
    requires TasksWellFormed(a) && addr.index < |Slot(a, addr.when)|
    ensures TasksWellFormed(Tombstone(a, addr))
  {
    var r: Agenda := Tombstone(a, addr);
    forall v: BlockNumber, i: int | v in r && 0 <= i < |r[v]| && r[v][i].Some?
      ensures PeriodicWellFormed(r[v][i].value.maybePeriodic)
    {
      assert r[v] == Slot(r, v);
      assert r[v][i] == Slot(a, v)[i] && v in a;
    }
  }

  /** What both reschedules do to the agenda: take the task out of `addr`,
      leaving a tombstone, and append it to block `w`; every other position
      of every block keeps its task. */
  function Move(a: Agenda, addr: TaskAddress, w: BlockNumber): (r: Agenda)
    requires addr.index < |Slot(a, addr.when)| && Slot(a, addr.when)[addr.index].Some?
    requires w != addr.when
    ensures HoldsAt(r, TaskAddress(w, |Slot(a, w)|), Slot(a, addr.when)[addr.index].value)
    ensures |Slot(r, addr.when)| == |Slot(a, addr.when)| && Slot(r, addr.when)[addr.index].None?
    ensures Slot(r, w) == Slot(a, w) + [Slot(a, addr.when)[addr.index]]
    ensures forall i :: 0 <= i < |Slot(a, addr.when)| && i != addr.index ==>
      Slot(r, addr.when)[i] == Slot(a, addr.when)[i]
    ensures forall v :: v != w && v != addr.when ==> Slot(r, v) == Slot(a, v)
  {
    Append(Tombstone(a, addr), w, Slot(a, addr.when)[addr.index].value)
  }

  /** Moving a task and re-pointing its id at the new address keeps `Sound`. */
  lemma MoveNamedKeepsSound(a: Agenda, l: Lookup, addr: TaskAddress, w: BlockNumber, id: Id)
    requires Sound(a, l) && id in l && l[id] == addr && w != addr.when
    ensures Sound(Move(a, addr, w), l[id := TaskAddress(w, |Slot(a, w)|)])
  {
    var s := Slot(a, addr.when)[addr.index].value;
    TombstoneKeepsSound(a, l, addr, s);
    var t := Tombstone(a, addr);
    AppendNamedKeepsSound(t, Forget(l, s), w, s);
    assert Forget(l, s)[id := TaskAddress(w, |Slot(t, w)|)] == l[id := TaskAddress(w, |Slot(a, w)|)];
  }

  /** Moving an anonymous task leaves `Lookup` correct as it stands. */
  lemma MoveAnonymousKeepsSound(a: Agenda, l: Lookup, addr: TaskAddress, w: BlockNumber)
    requires Sound(a, l) && w != addr.when
    requires addr.index < |Slot(a, addr.when)| && Slot(a, addr.when)[addr.index].Some?
    requires Slot(a, addr.when)[addr.index].value.maybeId.None?
    ensures Sound(Move(a, addr, w), l)
  {
    var s := Slot(a, addr.when)[addr.index].value;
    TombstoneKeepsSound(a, l, addr, s);
    AppendKeepsSound(Tombstone(a, addr), l, w, s);
  }

  /** Moving a named task without touching `Lookup`, as the anonymous
      reschedule does, leaves its id pointing at the tombstone. */
  lemma MoveNamedWithoutLookupBreaksSound(a: Agenda, l: Lookup, addr: TaskAddress, w: BlockNumber, id: Id)
    requires Sound(a, l) && id in l && l[id] == addr && w != addr.when
    ensures !Sound(Move(a, addr, w), l)
  {
    assert !PointsAt(Move(a, addr, w), l[id], id);
  }

  lemma MoveKeepsWellFormed(a: Agenda, addr: TaskAddress, w: BlockNumber)
    requires TasksWellFormed(a) && w != addr.when
    requires addr.index < |Slot(a, addr.when)| && Slot(a, addr.when)[addr.index].Some?
    ensures TasksWellFormed(Move(a, addr, w))
  {
    var s := Slot(a, addr.when)[addr.index].value;
    assert a[addr.when][addr.index] == Some(s);
    TombstoneKeepsWellFormed(a, addr);
    AppendKeepsWellFormed(Tombstone(a, addr), w, s);
  }

  /** Appending to a block with room left keeps every block within the bound. */
  lemma AppendKeepsBounded(a: Agenda, w: BlockNumber, s: Scheduled, max: nat)
    requires Bounded(a, max) && |Slot(a, w)| < max
    ensures Bounded(Append(a, w, s), max)
  {
    var r := Append(a, w, s);
    forall v | v in r ensures |r[v]| <= max {
      assert r[v] == Slot(r, v);
    }
  }

  lemma TombstoneKeepsBounded(a: Agenda, addr: TaskAddress, max: nat)
    requires Bounded(a, max) && addr.index < |Slot(a, addr.when)|
    ensures Bounded(Tombstone(a, addr), max)
  {
    var r := Tombstone(a, addr);
    forall v | v in r ensures |r[v]| <= max {
      assert r[v] == Slot(r, v);
    }
  }

  /** A move into a block with room left keeps every block within the bound. */
  lemma MoveKeepsBounded(a: Agenda, addr: TaskAddress, w: BlockNumber, max: nat)
    requires Bounded(a, max) && w != addr.when && |Slot(a, w)| < max
    requires addr.index < |Slot(a, addr.when)| && Slot(a, addr.when)[addr.index].Some?
    ensures Bounded(Move(a, addr, w), max)
  {
    TombstoneKeepsBounded(a, addr, max);
    AppendKeepsBounded(Tombstone(a, addr), w, Slot(a, addr.when)[addr.index].value, max);
  }
}

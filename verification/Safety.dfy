/** Safety of whole schedules: however the drivers order the operations, no resource works
    on more operations at a minute than it has capacity for, and never outside its
    calendar. */
module Safety {
  import opened Minutes
  import opened Intervals
  import opened Bundle
  import opened Occupancy
  import opened Eligibility
  import opened Placement
  import opened Schedule
  import opened GreedyRuns

  lemma {:induction false} WorkIsReserved(b: Bundle, asWritten: bool, h: seq<Placed>, key: Key, m: int)
    ensures WorkCount(b, asWritten, h, key, m) <= CoverCount(Only(key, AllReservations(h)), m)
  {
    if h != [] {
      var front, x := h[..|h| - 1], h[|h| - 1];
      WorkIsReserved(b, asWritten, front, key, m);
      OnlyAppend(key, AllReservations(front), Reservations(x));
      CoverCountAppend(Only(key, AllReservations(front)), Only(key, Reservations(x)), m);
      if WorksAt(b, asWritten, front, x, key, m) {
        var i := ReservesItsSpan(x, key);
        HeldByMember(key, Reservations(x), i, m);
      }
    }
  }

  lemma CommonIsFree(v: View, c: Combo, key: Key, m: int)
    requires key in KeysOf(c) && m in Common(RoomFor(v, c))
    ensures m in FreeOf(v, key)
  {
    if key in OtherKeys(c) {
      var sets := FreeOfAll(v, OtherKeys(c));
      var i :| 0 <= i < |OtherKeys(c)| && OtherKeys(c)[i] == key;
      assert RoomFor(v, c).others == sets;
      assert m in CommonOf(sets);
      assert m in sets[i];
    }
  }

  /** A minute is common to a combination that takes anything exactly when each resource it
      takes is free. */
  lemma CommonIff(v: View, c: Combo, m: int)
    requires KeysOf(c) != []
    ensures m in Common(RoomFor(v, c)) <==> forall key :: Units(c, key) > 0 ==> m in FreeOf(v, key)
  {
    hide FreeOf;
    if m in Common(RoomFor(v, c)) {
      forall key | Units(c, key) > 0
        ensures m in FreeOf(v, key)
      {
        KeysAre(c, key);
        CommonIsFree(v, c, key, m);
      }
    } else if forall key :: Units(c, key) > 0 ==> m in FreeOf(v, key) {
      forall key | key in KeysOf(c)
        ensures m in FreeOf(v, key)
      {
        KeysAre(c, key);
      }
      FreeIsCommon(v, c, m);
    }
  }

  lemma FreeIsCommon(v: View, c: Combo, m: int)
    requires KeysOf(c) != [] && forall key :: key in KeysOf(c) ==> m in FreeOf(v, key)
    ensures m in Common(RoomFor(v, c))
  {
    hide FreeOf;
    var sets := FreeOfAll(v, OtherKeys(c));
    forall i | 0 <= i < |sets|
      ensures m in sets[i]
    {
      assert OtherKeys(c)[i] in KeysOf(c);
    }
    assert c.equipment.Some? ==> Key(EQUIPMENT, c.equipment.value.code) in KeysOf(c);
    assert |sets| == |OtherKeys(c)|;
  }

  /** On safe calendars a minute of a resource is free exactly when it is in a stretch of its
      calendar, in none in which it is away, and one more reservation fits its capacity. */
  lemma FreeIff(v: View, key: Key, m: int)
    requires SafeCalendars(v.b, v.asWritten)
    ensures m in FreeOf(v, key)
            <==> && (exists ref :: Keeps(v.b, key, ref) && Given(v.b.working, ref, m))
                 && !Given(v.b.unavailability, key, m)
                 && WithinCapacity(v.b, key, CoverCount(Only(key, v.booked), m) + 1)
  {
    var n := CoverCount(Only(key, v.booked), m);
    CalendarIs(v.b, key, m);
    CapacityIs(v.b, key);
    if v.asWritten {
      FreeExactWhenOneStretch(WindowSet(v.b, key), UaSet(v.b, key), Only(key, v.booked), CapOf(v.b, key));
    }
    assert SaturatedAt(Only(key, v.booked), CapOf(v.b, key), m) <==> n >= CapOf(v.b, key);
    hide Given, CoverCount, Only;
    if m in WindowSet(v.b, key) {
      CapacityFits(v.b, key, n + 1);
    }
  }

  lemma CapacityFits(b: Bundle, key: Key, n: int)
    requires EntryOf(b, key).Some?
    ensures n <= CapOf(b, key) <==> WithinCapacity(b, key, n)
  {
    AllAreFirst(b, key.code);
    hide FindEquipment, FindPerson, FindTooling, FindStation;
  }

  /** On safe calendars a free minute is open, available and has capacity left. */
  lemma FreeIsFree(v: View, key: Key, m: int)
    requires SafeCalendars(v.b, v.asWritten) && m in FreeOf(v, key)
    ensures m in WindowSet(v.b, key) && m !in UaSet(v.b, key)
    ensures CoverCount(Only(key, v.booked), m) < CapOf(v.b, key)
  {
    if v.asWritten {
      FreeExactWhenOneStretch(WindowSet(v.b, key), UaSet(v.b, key), Only(key, v.booked), CapOf(v.b, key));
    }
    assert m in FreeMinutes(false, WindowSet(v.b, key), UaSet(v.b, key), Only(key, v.booked), CapOf(v.b, key));
    assert !SaturatedAt(Only(key, v.booked), CapOf(v.b, key), m);
  }

  /** No minute of any schedule has more operations at work on a resource than its capacity:
      equipment and persons do one thing at a time, tooling and stations no more than their
      quantity. */
  lemma {:induction false} NeverOverbooked(b: Bundle, asWritten: bool, h: seq<Placed>, key: Key, m: int)
    requires ValidBundle(b) && SafeCalendars(b, asWritten) && GreedyRun(b, asWritten, h)
    ensures WorkCount(b, asWritten, h, key, m) <= CapOf(b, key)
    ensures WithinCapacity(b, key, WorkCount(b, asWritten, h, key, m))
  {
    hide ValidBundle, SafeCalendars, GreedyRun, KeysOf, FreeOf, RoomFor, Common, CoverCount, Only, CapOf, EntryOf,
      AllReservations, WorksAt, WithinCapacity, HasCapacity;
    CapacityIs(b, key);
    if h == [] {
      CapPositive(b, key);
    } else {
      var front, x := h[..|h| - 1], h[|h| - 1];
      GreedyRunAt(b, asWritten, h, |h| - 1);
      NeverOverbooked(b, asWritten, front, key, m);
      if WorksAt(b, asWritten, front, x, key, m) {
        WorkOnKey(b, asWritten, front, x, key, m);
        CommonIsFree(ViewAfter(b, asWritten, front), x.combo, key, m);
        FreeIsFree(ViewAfter(b, asWritten, front), key, m);
        WorkIsReserved(b, asWritten, front, key, m);
      }
    }
  }

  lemma WorkOnKey(b: Bundle, asWritten: bool, before: seq<Placed>, x: Placed, key: Key, m: int)
    requires WorksAt(b, asWritten, before, x, key, m)
    ensures key in KeysOf(x.combo) && m in Common(RoomFor(ViewAfter(b, asWritten, before), x.combo))
  {
    hide KeysOf, RoomFor, Common;
  }

  // ------------------------------------------------------------- with setup

  /** The machine is reserved for the setup of x at minute m. */
  ghost predicate SetsUpAt(x: Placed, key: Key, m: int) {
    x.combo.equipment.Some? && key == Key(EQUIPMENT, x.combo.equipment.value.code) && x.PlanStart() <= m < x.start
  }

  /** How many operations work on the resource, or have it set up, at minute m. */
  ghost function BusyCount(b: Bundle, asWritten: bool, h: seq<Placed>, key: Key, m: int): nat {
    if h == [] then 0
    else
      var front, x := h[..|h| - 1], h[|h| - 1];
      BusyCount(b, asWritten, front, key, m)
      + (if WorksAt(b, asWritten, front, x, key, m) || SetsUpAt(x, key, m) then 1 else 0)
  }

  /** What is reserved for the setup of x was free on the machine when x was placed. */
  ghost predicate SetupHeld(b: Bundle, asWritten: bool, before: seq<Placed>, x: Placed) {
    x.combo.equipment.Some? ==>
      Span(x.PlanStart(), x.start)
      <= FreeOf(ViewAfter(b, asWritten, before), Key(EQUIPMENT, x.combo.equipment.value.code))
  }

  ghost predicate HeldAt(b: Bundle, asWritten: bool, h: seq<Placed>, i: nat)
    requires i < |h|
  {
    SetupHeld(b, asWritten, h[..i], h[i])
  }

  ghost predicate SetupsHeld(b: Bundle, asWritten: bool, h: seq<Placed>) {
    forall i :: 0 <= i < |h| ==> HeldAt(b, asWritten, h, i)
  }

  /** A machine whose free minutes have no gap holds the setup of whatever is placed on it. */
  lemma HeldOnOneStretch(b: Bundle, asWritten: bool, before: seq<Placed>, x: Placed)
    requires ValidBundle(b) && GreedyStep(b, asWritten, before, x)
    requires x.combo.equipment.Some? ==>
      !HasGap(FreeOf(ViewAfter(b, asWritten, before), Key(EQUIPMENT, x.combo.equipment.value.code)))
    ensures SetupHeld(b, asWritten, before, x)
  {
    hide FreeOf, OpsOf, ValidBundle, EquipmentPlacement, HasGap, Combos;
    if x.combo.equipment.Some? {
      var v := ViewAfter(b, asWritten, before);
      var room, E := RoomFor(v, x.combo), FreeOf(v, Key(EQUIPMENT, x.combo.equipment.value.code));
      ChosenPlaced(v, Job(OpsOf(b, x.line)[x.op], x.meta, x.qty, x.anchor), x);
      assert room.equipment == Some(E) && Common(room) <= E;
      HeldWithoutGap(E, Common(room), x.anchor, x.setup, x.processing, x.start, x.end);
    }
  }

  lemma ChosenPlaced(v: View, job: Job, x: Placed)
    requires Chosen(v, job, x)
    ensures x.processing >= 0
            && PlacementIn(RoomFor(v, x.combo), x.anchor, x.setup, x.processing, Some((x.start, x.end)))
  {
    hide PlacementIn, RoomFor, SetupFor, ProcessingMinutes, Combos;
    var combos := Combos(v.b, job.op).value;
    var k :| 0 <= k < |combos| && combos[k] == x.combo
      && BestOf(v, job, combos, |combos|, Some(Pick(k, x.start, x.end)));
  }

  /** An operation reserves its machine for its setup. */
  lemma ReservesItsSetup(x: Placed, key: Key, m: int) returns (i: nat)
    requires SetsUpAt(x, key, m) && x.start <= x.end
    ensures i < |Reservations(x)| && Reservations(x)[i].key == key
    ensures Reservations(x)[i].alloc.start <= m < Reservations(x)[i].alloc.end
  {
    i := 0;
  }

  lemma {:induction false} BusyIsReserved(b: Bundle, asWritten: bool, h: seq<Placed>, key: Key, m: int)
    requires forall i :: 0 <= i < |h| ==> h[i].start <= h[i].end
    ensures BusyCount(b, asWritten, h, key, m) <= CoverCount(Only(key, AllReservations(h)), m)
  {
    hide Reservations, KeysOf, FreeOf, RoomFor, Common, CoverCount, Only;
    if h == [] {
      NothingBusy(b, asWritten, key, m);
    } else {
      var front, x := h[..|h| - 1], h[|h| - 1];
      BusyIsReserved(b, asWritten, front, key, m);
      OnlyAppend(key, AllReservations(front), Reservations(x));
      CoverCountAppend(Only(key, AllReservations(front)), Only(key, Reservations(x)), m);
      if WorksAt(b, asWritten, front, x, key, m) {
        var i := ReservesItsSpan(x, key);
        HeldByMember(key, Reservations(x), i, m);
      } else if SetsUpAt(x, key, m) {
        var i := ReservesItsSetup(x, key, m);
        HeldByMember(key, Reservations(x), i, m);
      }
    }
  }

  lemma NothingBusy(b: Bundle, asWritten: bool, key: Key, m: int)
    ensures BusyCount(b, asWritten, [], key, m) == 0
  {
  }

  lemma FrontHeld(b: Bundle, asWritten: bool, h: seq<Placed>)
    requires h != [] && SetupsHeld(b, asWritten, h)
    ensures SetupsHeld(b, asWritten, h[..|h| - 1]) && SetupHeld(b, asWritten, h[..|h| - 1], h[|h| - 1])
  {
    hide SetupHeld;
    var front := h[..|h| - 1];
    assert HeldAt(b, asWritten, h, |h| - 1);
    forall i | 0 <= i < |front|
      ensures HeldAt(b, asWritten, front, i)
    {
      assert HeldAt(b, asWritten, h, i);
      assert front[..i] == h[..i];
    }
  }

  /** Where every setup is held, setup counts too: a machine never works on one operation
      while it is set up for another. */
  lemma {:induction false} HeldSetupsNeverShare(b: Bundle, asWritten: bool, h: seq<Placed>, key: Key, m: int)
    requires ValidBundle(b) && SafeCalendars(b, asWritten) && GreedyRun(b, asWritten, h) && SetupsHeld(b, asWritten, h)
    ensures BusyCount(b, asWritten, h, key, m) <= CapOf(b, key)
    ensures WithinCapacity(b, key, BusyCount(b, asWritten, h, key, m))
  {
    CapacityIs(b, key);
    hide WithinCapacity, HasCapacity;
    hide ValidBundle, SafeCalendars, GreedyRun, SetupsHeld, SetupHeld, KeysOf, FreeOf, RoomFor, Common, CoverCount,
      Only, CapOf, EntryOf, AllReservations, WorksAt;
    if h == [] {
      CapPositive(b, key);
    } else {
      var front, x := h[..|h| - 1], h[|h| - 1];
      GreedyRunAt(b, asWritten, h, |h| - 1);
      FrontHeld(b, asWritten, h);
      HeldSetupsNeverShare(b, asWritten, front, key, m);
      if WorksAt(b, asWritten, front, x, key, m) || SetsUpAt(x, key, m) {
        BusyIsFree(b, asWritten, front, x, key, m);
        FreeIsFree(ViewAfter(b, asWritten, front), key, m);
        SpansRight(b, asWritten, front);
        BusyIsReserved(b, asWritten, front, key, m);
      }
    }
  }

  lemma CapPositive(b: Bundle, key: Key)
    requires ValidBundle(b)
    ensures CapOf(b, key) >= 1
  {
    if EntryOf(b, key).Some? {
      EntryCapacity(b, key);
    }
  }

  lemma BusyIsFree(b: Bundle, asWritten: bool, before: seq<Placed>, x: Placed, key: Key, m: int)
    requires SetupHeld(b, asWritten, before, x) && (WorksAt(b, asWritten, before, x, key, m) || SetsUpAt(x, key, m))
    ensures m in FreeOf(ViewAfter(b, asWritten, before), key)
  {
    hide FreeOf, RoomFor, Common;
    if WorksAt(b, asWritten, before, x, key, m) {
      CommonIsFree(ViewAfter(b, asWritten, before), x.combo, key, m);
    } else {
      assert m in Span(x.PlanStart(), x.start);
    }
  }

  lemma SpansRight(b: Bundle, asWritten: bool, h: seq<Placed>)
    requires ValidBundle(b) && GreedyRun(b, asWritten, h)
    ensures forall i :: 0 <= i < |h| ==> h[i].start <= h[i].end
  {
    hide ValidBundle, GreedyRun, RoomFor, FreeOf, Common;
    forall i | 0 <= i < |h|
      ensures h[i].start <= h[i].end
    {
      EveryOperationSound(b, asWritten, h, i);
    }
  }

  /** All work is done in the calendar windows of every resource of the operation, outside
      its unavailability. */
  lemma WorkInsideCalendar(b: Bundle, asWritten: bool, h: seq<Placed>, i: nat, key: Key, m: int)
    requires SafeCalendars(b, asWritten) && i < |h| && WorksAt(b, asWritten, h[..i], h[i], key, m)
    ensures m in WindowSet(b, key) && m !in UaSet(b, key)
    ensures (exists ref :: Keeps(b, key, ref) && Given(b.working, ref, m)) && !Given(b.unavailability, key, m)
  {
    CalendarIs(b, key, m);
    CommonIsFree(ViewAfter(b, asWritten, h[..i]), h[i].combo, key, m);
    FreeIsFree(ViewAfter(b, asWritten, h[..i]), key, m);
  }

  /** Every operation of a schedule works for exactly its processing minutes, the least that
      are enough for its quantity, on a combination that meets its requirements, with its setup,
      as the rules give it, behind the minute it was allowed to begin at. */
  lemma EveryOperationSound(b: Bundle, asWritten: bool, h: seq<Placed>, i: nat)
    requires ValidBundle(b) && GreedyRun(b, asWritten, h) && i < |h|
    ensures h[i].line < |b.lines| && h[i].op < |OpsOf(b, h[i].line)|
    ensures ComboFits(b, OpsOf(b, h[i].line)[h[i].op], h[i].combo)
    ensures h[i].anchor <= h[i].PlanStart() && h[i].start <= h[i].end
    ensures CountIn(Common(RoomFor(ViewAfter(b, asWritten, h[..i]), h[i].combo)), h[i].start, h[i].end)
            == h[i].processing
    ensures LeastMinutes(OpsOf(b, h[i].line)[h[i].op], h[i].qty, h[i].combo.equipment, h[i].processing)
    ensures SetupIs(b, AllReservations(h[..i]), OpsOf(b, h[i].line)[h[i].op], h[i].meta, h[i].combo, h[i].setup)
  {
    hide ComboFits, LeastMinutes, SetupIs, RoomFor, Common, CountIn;
    GreedyRunAt(b, asWritten, h, i);
    RunReservationsProper(b, asWritten, h[..i]);
    var x := h[i];
    ChosenSound(ViewAfter(b, asWritten, h[..i]), Job(OpsOf(b, x.line)[x.op], x.meta, x.qty, x.anchor), x);
  }
}

/** When the scheduler puts two things on one machine at once. */
module Overbooking {
  import opened Minutes
  import opened Intervals
  import opened WorkingTime
  import opened Bundle
  import opened Occupancy
  import opened Eligibility
  import opened Placement
  import opened Schedule
  import opened GreedyRuns
  import opened Safety
  import opened Supply
  import opened BatchFlow
  import opened StreamingFlow
  import opened Scheduler
  import opened OneMachine

  // ----------------------------------------------------- work, with line 84 as written

  /** The minutes of the plan: everything is placed at or after the epoch. */
  ghost function FromEpoch(W: iset<int>): iset<int> {
    iset m: int | m in W && m >= 0
  }

  ghost predicate AnchoredRun(h: seq<Placed>) {
    forall i :: 0 <= i < |h| ==> h[i].anchor >= 0
  }

  ghost predicate BookedFromEpoch(booked: seq<Interval>) {
    forall i :: 0 <= i < |booked| ==> booked[i].alloc.start >= 0
  }

  lemma {:induction false} ToolingFromEpoch(tooling: seq<Tooling>, a: Alloc)
    requires a.start >= 0
    ensures BookedFromEpoch(ToolingReservations(tooling, a))
  {
    if tooling != [] {
      ToolingFromEpoch(tooling[1..], a);
    }
  }

  lemma ReservesFromEpoch(x: Placed)
    requires 0 <= x.PlanStart()
    ensures BookedFromEpoch(Reservations(x))
  {
    ToolingFromEpoch(x.combo.tooling, Alloc(x.start, x.end, x.sid, x.meta));
  }

  lemma {:induction false} RunFromEpoch(b: Bundle, asWritten: bool, h: seq<Placed>)
    requires ValidBundle(b) && GreedyRun(b, asWritten, h) && AnchoredRun(h)
    ensures BookedFromEpoch(AllReservations(h))
  {
    hide ValidBundle, GreedyRun, Reservations, OpsOf, RoomFor, CountIn, ComboFits, Common;
    if h != [] {
      GreedyRunAt(b, asWritten, h, |h| - 1);
      RunFromEpoch(b, asWritten, h[..|h| - 1]);
      EveryOperationSound(b, asWritten, h, |h| - 1);
      ReservesFromEpoch(h[|h| - 1]);
    }
  }

  lemma {:induction false} OnlyFromEpoch(key: Key, booked: seq<Interval>, m: int)
    requires BookedFromEpoch(booked) && CoverCount(Only(key, booked), m) >= 1
    ensures m >= 0
  {
    if booked != [] {
      var front, last := booked[..|booked| - 1], booked[|booked| - 1];
      var one := if last.key == key then [last.alloc] else [];
      CoverCountAppend(Only(key, front), one, m);
      if CoverCount(Only(key, front), m) >= 1 {
        OnlyFromEpoch(key, front, m);
      } else {
        assert one[..|one| - 1] == [];
      }
    }
  }

  lemma LeakMeansGap(W: iset<int>, D: iset<int>, m: int)
    requires Leaked(W, D, m) && forall d :: d in D ==> d >= 0
    ensures HasGap(FromEpoch(W))
  {
    var g, h :| LeakedVia(W, D, g, h, m);
    assert g in Span(g, m + 1);
    assert GapAt(FromEpoch(W), g, h, m);
  }

  /** The minutes of a resource before anything is reserved, as line 84 leaves them. */
  ghost function OpenOf(b: Bundle, key: Key): iset<int> {
    SubtractMinutes(true, WindowSet(b, key), UaSet(b, key))
  }

  /** Line 84 leaks no reservation where these have no gap from the epoch on. */
  lemma FreeFromEpoch(v: View, key: Key, m: int)
    requires v.asWritten && ValidBundle(v.b) && BookedFromEpoch(v.booked)
    requires !HasGap(FromEpoch(OpenOf(v.b, key))) && m in FreeOf(v, key)
    ensures CoverCount(Only(key, v.booked), m) < CapOf(v.b, key)
  {
    hide ValidBundle, Only, CoverCount, CapOf, UaSet, WindowSet;
    CapPositive(v.b, key);
    var W, allocs, cap := OpenOf(v.b, key), Only(key, v.booked), CapOf(v.b, key);
    var D := Saturated(allocs, cap);
    forall d | d in D
      ensures d >= 0
    {
      assert SaturatedAt(allocs, cap, d);
      OnlyFromEpoch(key, v.booked, d);
    }
    if Leaked(W, D, m) {
      LeakMeansGap(W, D, m);
    }
    assert m !in D;
    assert !SaturatedAt(allocs, cap, m);
  }

  lemma {:induction false} NeverOverbookedFromEpoch(b: Bundle, h: seq<Placed>, key: Key, m: int)
    requires ValidBundle(b) && GreedyRun(b, true, h) && AnchoredRun(h)
    requires !HasGap(FromEpoch(OpenOf(b, key)))
    ensures WorkCount(b, true, h, key, m) <= CapOf(b, key)
  {
    hide ValidBundle, GreedyRun, KeysOf, FreeOf, RoomFor, Common, CoverCount, Only, CapOf, OpenOf, HasGap,
      AllReservations, WorksAt, BookedFromEpoch;
    if h == [] {
      CapPositive(b, key);
      NoWork(b, key, m);
    } else {
      var front, x := h[..|h| - 1], h[|h| - 1];
      GreedyRunAt(b, true, h, |h| - 1);
      NeverOverbookedFromEpoch(b, front, key, m);
      if WorksAt(b, true, front, x, key, m) {
        WorkIsFree(b, front, x, key, m);
        RunFromEpoch(b, true, front);
        FreeFromEpoch(ViewAfter(b, true, front), key, m);
        WorkIsReserved(b, true, front, key, m);
      }
    }
  }

  lemma NoWork(b: Bundle, key: Key, m: int)
    ensures WorkCount(b, true, [], key, m) == 0
  {
  }

  lemma WorkIsFree(b: Bundle, before: seq<Placed>, x: Placed, key: Key, m: int)
    requires WorksAt(b, true, before, x, key, m)
    ensures m in FreeOf(ViewAfter(b, true, before), key)
  {
    hide FreeOf, RoomFor, Common;
    CommonIsFree(ViewAfter(b, true, before), x.combo, key, m);
  }

  lemma BatchAnchored(b: Bundle, asWritten: bool, h: seq<Placed>)
    requires ValidBundle(b) && BatchRun(b, asWritten, h)
    ensures AnchoredRun(h)
  {
    hide BatchRun, ValidBundle, OpsOf, GreedyStep, AllDone, Blocked, PredecessorSids;
    forall i | 0 <= i < |h|
      ensures h[i].anchor >= 0
    {
      BatchRunAt(b, asWritten, h, i);
      assert 0 in BatchBounds(b, h[..i], h[i].line, OpsOf(b, h[i].line)[h[i].op]);
    }
  }

  lemma StreamAnchored(b: Bundle, asWritten: bool, h: seq<Placed>)
    requires ValidBundle(b) && StreamRun(b, asWritten, h)
    ensures AnchoredRun(h)
  {
    hide StreamRun, ValidBundle, OpsOf, GreedyStep, Blocked, StreamPredecessors, SizeOf, CountOf;
    forall i | 0 <= i < |h|
      ensures h[i].anchor >= 0
    {
      StreamRunAt(b, asWritten, h, i);
      var x := h[i];
      assert 0 in StreamBounds(b, h[..i], x.line, x.sid.batch.value - 1, OpsOf(b, x.line)[x.op]);
    }
  }

  // --------------------------------------------------------------- a gap overbooks

  lemma {:induction false} LastOpen(W: iset<int>, g: int, h: int) returns (g': int)
    requires g < h && g in W
    ensures g <= g' < h && g' in W && forall t :: g' < t < h ==> t !in W
    decreases h - g
  {
    if h - 1 in W || h - 1 == g {
      g' := h - 1;
    } else {
      g' := LastOpen(W, g, h - 1);
    }
  }

  lemma {:induction false} NextOpen(W: iset<int>, h: int, m: int) returns (m': int)
    requires h < m && m in W
    ensures h < m' <= m && m' in W && forall t :: h < t < m' ==> t !in W
    decreases m - h
  {
    if h + 1 in W || h + 1 == m {
      m' := h + 1;
    } else {
      m' := NextOpen(W, h + 1, m);
    }
  }

  /** g and m are open, and nothing between them is. */
  ghost predicate Break(W: iset<int>, g: int, m: int) {
    0 <= g < m - 1 && g in W && m in W && forall t :: g < t < m ==> t !in W
  }

  /** What line 84 leaves of the windows when the holes are taken out. */
  ghost function Left(windows: seq<Seg>, holes: seq<Seg>): iset<int> {
    SubtractMinutes(true, MinutesOf(windows), MinutesOf(holes))
  }

  /** The first order waits for its supply until g and needs two minutes; the second until m
      and needs one. */
  function GapShop(windows: seq<Seg>, holes: seq<Seg>, g: nat, m: nat): Shop {
    Shop(windows, holes, Task(2, 0, g), Some(Task(1, 0, m)))
  }

  lemma OverBreak(W: iset<int>, g: nat, m: nat)
    requires Break(W, g, m)
    ensures EquipmentPlacement(W, W, g, 0, 2, Some((g as int, m + 1)))
  {
    CountAll(W, g, g + 1);
    CountNone(W, g + 1, m);
    CountAll(W, m, m + 1);
    CountSplit(W, g, g + 1, m);
    CountSplit(W, g, m, m + 1);
    forall e | g <= e < m + 1
      ensures CountIn(W, g, e) < 2
    {
      CountMonotone(W, g, e, m);
    }
    assert SetupDone(W, g, 0, g);
    PlacedAtOpening(W, W, g, 0, 2, g, m + 1);
  }

  /** The first minute after the break comes back as free. */
  lemma OnLeak(W: iset<int>, g: nat, m: nat)
    requires Break(W, g, m)
    ensures var E := SubtractMinutes(true, W, Span(g, m + 1));
      m in E && EquipmentPlacement(E, E, m, 0, 1, Some((m as int, m + 1)))
  {
    var E := SubtractMinutes(true, W, Span(g, m + 1));
    assert LeakedVia(W, Span(g, m + 1), g, g + 1, m);
    hide SubtractMinutes;
    CountAll(E, m, m + 1);
    assert SetupDone(E, m, 0, m);
    assert FirstAt(E, m, m);
    assert EarliestEnd(E, m, 1, Some(m + 1));
    PlacedAtOpening(E, E, m, 0, 1, m, m + 1);
  }

  lemma MachineWorks(b: Bundle, asWritten: bool, before: seq<Placed>, x: Placed, m: int)
    requires x.combo == ON_MACHINE && x.start <= m < x.end && m in FreeOf(ViewAfter(b, asWritten, before), MACHINE_KEY)
    ensures WorksAt(b, asWritten, before, x, MACHINE_KEY, m)
  {
    hide FreeOf, RoomFor;
    MachineRoom(ViewAfter(b, asWritten, before));
    assert KeysOf(ON_MACHINE)[0] == MACHINE_KEY;
  }

  lemma CountOfTwo(b: Bundle, asWritten: bool, x: Placed, y: Placed, m: int)
    requires WorksAt(b, asWritten, [], x, MACHINE_KEY, m) && WorksAt(b, asWritten, [x], y, MACHINE_KEY, m)
    ensures WorkCount(b, asWritten, [x, y], MACHINE_KEY, m) == 2
  {
    hide WorksAt;
    assert [x][..0] == [] && [x, y][..1] == [x];
    assert WorkCount(b, asWritten, [], MACHINE_KEY, m) == 0 && WorkCount(b, asWritten, [x], MACHINE_KEY, m) == 1;
  }

  lemma GapSpans(windows: seq<Seg>, holes: seq<Seg>, g: nat, m: nat)
    requires Break(Left(windows, holes), g, m)
    ensures ShopSpans(GapShop(windows, holes, g, m), true, g, m + 1, m, m + 1)
    ensures m in Left(windows, holes) && g < m && m in SubtractMinutes(true, Left(windows, holes), Span(g, m + 1))
  {
    OverBreak(Left(windows, holes), g, m);
    OnLeak(Left(windows, holes), g, m);
    hide EquipmentPlacement, MinutesOf, SubtractMinutes;
  }

  /** Over any break of any calendar the code as written runs two orders at once, on a machine
      of capacity one, at the first minute after the break. */
  lemma AsWrittenOverbooks(windows: seq<Seg>, holes: seq<Seg>, g: nat, m: nat) returns (r: Outcome)
    requires Break(Left(windows, holes), g, m)
    ensures var b := ShopBundle(GapShop(windows, holes, g, m));
      && ValidBundle(b) && CapOf(b, MACHINE_KEY) == 1
      && r.Scheduled? && ScheduleRight(b, true, r) && WorkCount(b, true, r.operations, MACHINE_KEY, m) == 2
      && forall r': Outcome :: r'.Scheduled? && ScheduleRight(b, true, r') ==> r'.operations == r.operations
  {
    hide Break, ShopSpans, MinutesOf, SubtractMinutes, ShopBundle, ScheduleRight, ValidBundle, WorkCount, ShopRun,
      CapOf, AllReservations, WindowSet, UaSet;
    var s := GapShop(windows, holes, g, m);
    GapSpans(windows, holes, g, m);
    ShopScheduled(s, true, g, m + 1, m, m + 1);
    ShopCalendar(s);
    r := Scheduled(ShopRun(s, g, m + 1, m, m + 1), AllReservations(ShopRun(s, g, m + 1, m, m + 1)), []);
    BothWork(s, true, g, m + 1, m, m + 1, m);
  }

  lemma BothWork(s: Shop, asWritten: bool, s1: int, e1: int, s2: int, e2: int, m: int)
    requires s.second.Some? && s1 <= m < e1 && m in s.Open(asWritten) && s2 <= m < e2
    requires m in SubtractMinutes(asWritten, s.Open(asWritten), Span(s1 - s.first.setup, e1))
    ensures WorkCount(ShopBundle(s), asWritten, ShopRun(s, s1, e1, s2, e2), MACHINE_KEY, m) == 2
  {
    hide FreeOf, WorkCount, ShopBundle, WorksAt, SubtractMinutes, AllReservations;
    var b, x, y := ShopBundle(s), ShopPlaced(s, 0, s1, e1), ShopPlaced(s, 1, s2, e2);
    NothingHeld(s, asWritten);
    FirstHeld(s, asWritten, s1, e1);
    MachineWorks(b, asWritten, [], x, m);
    MachineWorks(b, asWritten, [x], y, m);
    CountOfTwo(b, asWritten, x, y, m);
  }

  // ------------------------------------------------------------------- exactly then

  ghost predicate Finished(b: Bundle, r: Outcome) {
    ValidBundle(b) && r.Scheduled? && CompletedRight(b, true, r)
  }

  /** The machine does one thing at a time, is open in W, and not available in U. */
  ghost predicate OnCalendar(b: Bundle, W: iset<int>, U: iset<int>) {
    CapOf(b, MACHINE_KEY) == 1 && WindowSet(b, MACHINE_KEY) == W && UaSet(b, MACHINE_KEY) == U
  }

  /** Whatever the rest of the bundle and whichever driver runs, no finished schedule of the
      code as written overbooks a machine with this calendar. */
  ghost predicate NeverOverbooks(W: iset<int>, U: iset<int>) {
    forall b, r: Outcome, m :: Finished(b, r) && OnCalendar(b, W, U) ==>
      WorkCount(b, true, r.operations, MACHINE_KEY, m) <= 1
  }

  /** And none has the machine at work while it is not available. */
  ghost predicate KeepsOut(W: iset<int>, U: iset<int>) {
    forall b, r: Outcome, m :: Finished(b, r) && OnCalendar(b, W, U) && m in U ==>
      WorkCount(b, true, r.operations, MACHINE_KEY, m) == 0
  }

  lemma FinishedIsAnchored(b: Bundle, r: Outcome)
    requires Finished(b, r)
    ensures GreedyRun(b, true, r.operations) && AnchoredRun(r.operations)
  {
    hide ValidBundle;
    if AnyStreaming(b) {
      StreamRunIsGreedy(b, true, r.operations);
      StreamAnchored(b, true, r.operations);
    } else {
      BatchRunIsGreedy(b, true, r.operations);
      BatchAnchored(b, true, r.operations);
    }
  }

  lemma ShopIsBatch(s: Shop)
    ensures !AnyStreaming(ShopBundle(s))
  {
  }

  /** With line 84, a calendar is safe exactly when what it leaves of the windows has no gap
      from the epoch on. */
  lemma NeverOverbooksIff(windows: seq<Seg>, holes: seq<Seg>)
    ensures NeverOverbooks(MinutesOf(windows), MinutesOf(holes))
            <==> !HasGap(FromEpoch(SubtractMinutes(true, MinutesOf(windows), MinutesOf(holes))))
  {
    hide OnCalendar, CompletedRight, ValidBundle, ScheduleRight, ShopBundle, WorkCount, MinutesOf, GreedyRun,
      AnchoredRun, SubtractMinutes;
    var W, U, E := MinutesOf(windows), MinutesOf(holes), Left(windows, holes);
    if HasGap(FromEpoch(E)) {
      var g, h, m :| GapAt(FromEpoch(E), g, h, m);
      var g' := LastOpen(E, g, h);
      var m' := NextOpen(E, h, m);
      assert Break(E, g', m');
      var s := GapShop(windows, holes, g', m');
      var r := AsWrittenOverbooks(windows, holes, g', m');
      ShopFinished(s, r);
      assert WorkCount(ShopBundle(s), true, r.operations, MACHINE_KEY, m') > 1;
    } else {
      forall b, r: Outcome, m | Finished(b, r) && OnCalendar(b, W, U)
        ensures WorkCount(b, true, r.operations, MACHINE_KEY, m) <= 1
      {
        FinishedSafe(b, r, W, U, m);
      }
    }
  }

  lemma ShopFinished(s: Shop, r: Outcome)
    requires r.Scheduled? && ScheduleRight(ShopBundle(s), true, r)
    ensures Finished(ShopBundle(s), r) && OnCalendar(ShopBundle(s), MinutesOf(s.windows), MinutesOf(s.holes))
  {
    hide ScheduleRight, ValidBundle, CapOf, WindowSet, UaSet, AnyStreaming, ShopBundle;
    ShopValid(s);
    ShopCalendar(s);
    ShopIsBatch(s);
  }

  lemma FinishedSafe(b: Bundle, r: Outcome, W: iset<int>, U: iset<int>, m: int)
    requires Finished(b, r) && OnCalendar(b, W, U) && !HasGap(FromEpoch(SubtractMinutes(true, W, U)))
    ensures WorkCount(b, true, r.operations, MACHINE_KEY, m) <= 1
  {
    hide ValidBundle, CompletedRight, GreedyRun, AnchoredRun, WorkCount, CapOf, WindowSet, UaSet, HasGap,
      SubtractMinutes;
    FinishedIsAnchored(b, r);
    NeverOverbookedFromEpoch(b, r.operations, MACHINE_KEY, m);
  }

  // ----------------------------------------------- work while the machine is not there

  /** An unavailability over a break before minute m of the plan. */
  ghost predicate StraddledAt(W: iset<int>, U: iset<int>, m: int) {
    m >= 0 && exists g, h :: LeakedVia(W, U, g, h, m)
  }

  lemma OneMinute(E: iset<int>, m: int)
    requires m in E
    ensures EquipmentPlacement(E, E, m, 0, 1, Some((m, m + 1)))
  {
    CountAll(E, m, m + 1);
    assert SetupDone(E, m, 0, m);
    assert FirstAt(E, m, m);
    assert EarliestEnd(E, m, 1, Some(m + 1));
    PlacedAtOpening(E, E, m, 0, 1, m, m + 1);
  }

  /** One order, due in a minute that the machine is not available but comes back as free. */
  lemma WorksInHole(windows: seq<Seg>, holes: seq<Seg>, m: nat) returns (b: Bundle, r: Outcome)
    requires StraddledAt(MinutesOf(windows), MinutesOf(holes), m)
    ensures Finished(b, r) && OnCalendar(b, MinutesOf(windows), MinutesOf(holes)) && m in MinutesOf(holes)
    ensures WorkCount(b, true, r.operations, MACHINE_KEY, m) == 1
  {
    var s := Shop(windows, holes, Task(1, 0, m), None);
    var x := ShopPlaced(s, 0, m, m + 1);
    b, r := ShopBundle(s), Scheduled([x], AllReservations([x]), []);
    var g, h :| LeakedVia(MinutesOf(windows), MinutesOf(holes), g, h, m);
    assert m in Span(g, m + 1) && Leaked(MinutesOf(windows), MinutesOf(holes), m);
    assert m in s.Open(true);
    OneMinute(s.Open(true), m);
    hide EquipmentPlacement, SubtractMinutes, LeakedVia, Leaked, ShopBundle, ScheduleRight, FreeOf, WorksAt;
    FirstScheduled(s, true, m, m + 1);
    ShopFinished(s, r);
    NothingHeld(s, true);
    MachineWorks(b, true, [], x, m);
    assert [x][..0] == [];
    NoWork(b, MACHINE_KEY, m);
  }

  lemma {:induction false} WorkOnlyOpen(b: Bundle, h: seq<Placed>, key: Key, m: int)
    requires ValidBundle(b) && GreedyRun(b, true, h) && AnchoredRun(h)
    requires WorkCount(b, true, h, key, m) > 0
    ensures m >= 0 && m in OpenOf(b, key)
  {
    hide ValidBundle, GreedyRun, KeysOf, FreeOf, RoomFor, Common, OpsOf, CountIn, ComboFits, OpenOf;
    var front, x := h[..|h| - 1], h[|h| - 1];
    GreedyRunAt(b, true, h, |h| - 1);
    if WorksAt(b, true, front, x, key, m) {
      WorkIsFree(b, front, x, key, m);
      FreeIsOpen(ViewAfter(b, true, front), key, m);
      EveryOperationSound(b, true, h, |h| - 1);
    } else {
      WorkOnlyOpen(b, front, key, m);
    }
  }

  lemma FreeIsOpen(v: View, key: Key, m: int)
    requires v.asWritten && m in FreeOf(v, key)
    ensures m in OpenOf(v.b, key)
  {
  }

  /** With line 84, a machine never works while it is not available exactly when no
      unavailability lies over a break before a minute of the plan. */
  lemma KeepsOutIff(windows: seq<Seg>, holes: seq<Seg>)
    ensures KeepsOut(MinutesOf(windows), MinutesOf(holes))
            <==> forall m :: !StraddledAt(MinutesOf(windows), MinutesOf(holes), m)
  {
    hide OnCalendar, CompletedRight, ValidBundle, WorkCount, MinutesOf, GreedyRun, AnchoredRun, StraddledAt, ShopBundle;
    var W, U := MinutesOf(windows), MinutesOf(holes);
    if m :| StraddledAt(W, U, m) {
      StraddledLate(W, U, m);
      var b, r := WorksInHole(windows, holes, m);
      assert WorkCount(b, true, r.operations, MACHINE_KEY, m) != 0;
    } else {
      forall b, r: Outcome, m | Finished(b, r) && OnCalendar(b, W, U) && m in U
        ensures WorkCount(b, true, r.operations, MACHINE_KEY, m) == 0
      {
        if WorkCount(b, true, r.operations, MACHINE_KEY, m) > 0 {
          WorkInHole(b, r, W, U, m);
        }
      }
    }
  }

  lemma StraddledLate(W: iset<int>, U: iset<int>, m: int)
    requires StraddledAt(W, U, m)
    ensures m >= 0
  {
  }

  lemma WorkInHole(b: Bundle, r: Outcome, W: iset<int>, U: iset<int>, m: int)
    requires Finished(b, r) && OnCalendar(b, W, U) && m in U && WorkCount(b, true, r.operations, MACHINE_KEY, m) > 0
    ensures StraddledAt(W, U, m)
  {
    hide ValidBundle, CompletedRight, GreedyRun, AnchoredRun, WorkCount, CapOf, WindowSet, UaSet;
    FinishedIsAnchored(b, r);
    WorkOnlyOpen(b, r.operations, MACHINE_KEY, m);
    assert Leaked(W, U, m);
  }

  // ------------------------------------------------- setup, with line 84 or without it

  /** A machine open for `day` minutes: one order waits for its supply until `from` and works
      until `to`; the other needs a longer setup than there is time before that. */
  datatype SetupCase = SetupCase(from: nat, to: nat, setup: nat, need: nat, day: nat)
  {
    predicate Valid() {
      0 < from < to && setup > from && need >= 1 && to + setup - from + need <= day
    }

    function Shop(): Shop
      requires Valid()
    {
      OneMachine.Shop([Seg(0, day)], [], Task(to - from, 0, from), Some(Task(need, setup, 0)))
    }

    /** When the second order is processed. */
    function Start(): int {
      to + setup - from
    }
  }

  lemma SetupCaseOpen(c: SetupCase, asWritten: bool)
    requires c.Valid()
    ensures c.Shop().Open(asWritten) == Span(0, c.day)
  {
    SubtractNothing(asWritten, Span(0, c.day), iset{});
    MinutesOfEmpty();
    MinutesOfAppend([], Seg(0, c.day));
    assert [] + [Seg(0, c.day)] == [Seg(0, c.day)];
  }

  lemma FirstInOneGo(W: iset<int>, from: nat, to: nat, day: nat)
    requires W == Span(0, day) && from < to <= day
    ensures EquipmentPlacement(W, W, from, 0, to - from, Some((from as int, to as int)))
  {
    CountAll(W, from, to);
    forall e | from <= e < to
      ensures CountIn(W, from, e) < to - from
    {
      CountAtMostLength(W, from, e);
    }
    assert SetupDone(W, from, 0, from);
    PlacedAtOpening(W, W, from, 0, to - from, from, to);
  }

  lemma LeftOver(asWritten: bool, from: nat, to: nat, day: nat)
    requires from < to <= day
    ensures SubtractMinutes(asWritten, Span(0, day), Span(from, to)) == Span(0, from) + Span(to, day)
  {
    SubtractAlwaysExactIff(Span(0, day));
  }

  lemma SetupCaseSpans(c: SetupCase, asWritten: bool)
    requires c.Valid()
    ensures ShopSpans(c.Shop(), asWritten, c.from, c.to, c.Start(), c.Start() + c.need)
  {
    hide EquipmentPlacement, SubtractMinutes;
    SetupCaseOpen(c, asWritten);
    FirstInOneGo(Span(0, c.day), c.from, c.to, c.day);
    LeftOver(asWritten, c.from, c.to, c.day);
    SetupHoldsTakenMinutes(0, c.from, c.to, c.day, c.setup, c.need);
  }

  /** In every such case, with line 84 or without it, the machine is reserved for setting up the
      second order in the very minute in which it finishes the first. */
  lemma SetupSharesMachine(c: SetupCase, asWritten: bool) returns (r: Outcome)
    requires c.Valid()
    ensures var b := ShopBundle(c.Shop());
      && ValidBundle(b) && CapOf(b, MACHINE_KEY) == 1
      && r.Scheduled? && ScheduleRight(b, asWritten, r)
         && BusyCount(b, asWritten, r.operations, MACHINE_KEY, c.to - 1) == 2
      && forall r': Outcome :: r'.Scheduled? && ScheduleRight(b, asWritten, r') ==> r'.operations == r.operations
  {
    hide EquipmentPlacement, MinutesOf, SubtractMinutes, ShopBundle, ScheduleRight, ValidBundle, BusyCount, FreeOf,
      ShopPlaced, CapOf, AllReservations, ShopSpans;
    var s, end := c.Shop(), c.Start() + c.need;
    SetupCaseSpans(c, asWritten);
    ShopScheduled(s, asWritten, c.from, c.to, c.Start(), end);
    ShopCalendar(s);
    r := Scheduled(ShopRun(s, c.from, c.to, c.Start(), end),
      AllReservations(ShopRun(s, c.from, c.to, c.Start(), end)), []);
    BothBusy(c, asWritten);
  }

  lemma BothBusy(c: SetupCase, asWritten: bool)
    requires c.Valid()
    ensures BusyCount(ShopBundle(c.Shop()), asWritten, ShopRun(c.Shop(), c.from, c.to, c.Start(), c.Start() + c.need),
                      MACHINE_KEY, c.to - 1) == 2
  {
    hide FreeOf, ShopBundle, WorksAt, SubtractMinutes, AllReservations, KeysOf;
    var s, b := c.Shop(), ShopBundle(c.Shop());
    var x, y := ShopPlaced(s, 0, c.from, c.to), ShopPlaced(s, 1, c.Start(), c.Start() + c.need);
    SetupCaseOpen(c, asWritten);
    NothingHeld(s, asWritten);
    MachineWorks(b, asWritten, [], x, c.to - 1);
    assert SetsUpAt(y, MACHINE_KEY, c.to - 1);
    assert [x][..0] == [] && [x, y][..1] == [x];
    assert BusyCount(b, asWritten, [], MACHINE_KEY, c.to - 1) == 0
        && BusyCount(b, asWritten, [x], MACHINE_KEY, c.to - 1) == 1;
  }
}

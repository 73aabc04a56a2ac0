/** One or two orders on one machine: the smallest shop that shows what a schedule can do. */
module OneMachine {
  import opened Minutes
  import opened Intervals
  import opened Bundle
  import opened Occupancy
  import opened Eligibility
  import opened Placement
  import opened Schedule
  import opened GreedyRuns
  import opened Supply
  import opened BatchFlow
  import opened Determined

  /** An order for one piece: its processing and setup minutes, and when its supply is ready. */
  datatype Task = Task(minutes: nat, setup: nat, ready: nat)

  /** An order, and perhaps another of a different product, on a machine that is open in the
      windows and not available in the holes. */
  datatype Shop = Shop(windows: seq<Seg>, holes: seq<Seg>, first: Task, second: Option<Task>)
  {
    function Of(l: nat): Task {
      if l == 0 || second.None? then first else second.value
    }

    /** The minutes of the machine before anything is reserved. */
    ghost function Open(asWritten: bool): iset<int> {
      SubtractMinutes(asWritten, MinutesOf(windows), MinutesOf(holes))
    }
  }

  const MACHINE := Equipment("E", true, [], 60.0, 1.0, "C")

  const MACHINE_KEY := Key(EQUIPMENT, "E")

  const ON_MACHINE := Combo(Some(MACHINE), None, None, [])

  function LineId(l: nat): string {
    if l == 0 then "A" else "B"
  }

  function Product(l: nat): string {
    if l == 0 then "X" else "Y"
  }

  function ShopOperation(t: Task): Operation {
    Operation("P", 1, [], 1, t.minutes as real, None, t.setup, None, ["E"], [], [], [], [], [])
  }

  function Tagged<K>(k: K, segs: seq<Seg>): seq<(K, Seg)> {
    seq(|segs|, i requires 0 <= i < |segs| => (k, segs[i]))
  }

  function ShopBundle(s: Shop): Bundle {
    Bundle([Line("A", "X", 1.0)] + (if s.second.Some? then [Line("B", "Y", 1.0)] else []),
           map["X" := Route([ShopOperation(s.Of(0))], false, 1), "Y" := Route([ShopOperation(s.Of(1))], false, 1)],
           [MACHINE], [], [], [], Tagged("C", s.windows), Tagged(MACHINE_KEY, s.holes),
           [SupplyEntry("A", None, false, Some(s.Of(0).ready)), SupplyEntry("B", None, false, Some(s.Of(1).ready))],
           map[])
  }

  /** The order of line l, processed from `start` to `end`. */
  function ShopPlaced(s: Shop, l: nat, start: int, end: int): Placed {
    Placed(l, 0, Sid(LineId(l), "P", 1, None), OpMeta(Product(l), None), [], 1.0, s.Of(l).ready, ON_MACHINE,
           s.Of(l).setup, s.Of(l).minutes, start, end)
  }

  // -------------------------------------------------------------------- the shop

  lemma ShopOps(s: Shop, l: nat)
    requires l < |ShopBundle(s).lines|
    ensures OpsOf(ShopBundle(s), l) == [ShopOperation(s.Of(l))]
  {
    assert BySequence([ShopOperation(s.Of(l))]) == [ShopOperation(s.Of(l))];
    assert ShopBundle(s).lines[l].productCode == Product(l);
  }

  lemma ShopValid(s: Shop)
    ensures ValidBundle(ShopBundle(s))
    ensures forall l :: 0 <= l < |ShopBundle(s).lines| ==> OpsOf(ShopBundle(s), l) == [ShopOperation(s.Of(l))]
  {
    forall l | 0 <= l < |ShopBundle(s).lines|
      ensures OpsOf(ShopBundle(s), l) == [ShopOperation(s.Of(l))]
    {
      ShopOps(s, l);
    }
    hide OpsOf;
  }

  lemma ShopCombos(s: Shop, l: nat)
    ensures Combos(ShopBundle(s), ShopOperation(s.Of(l))) == Some([ON_MACHINE])
  {
    var b, op := ShopBundle(s), ShopOperation(s.Of(l));
    assert EquipmentFits(op, MACHINE) && MACHINE in b.equipment;
    assert Some(MACHINE) in EligibleEquipment(b, op);
    assert EligibleEquipment(b, op) == [Some(MACHINE)];
    assert PairStations(Some(MACHINE), None, [None], []) == [ON_MACHINE];
    assert PairPersons(Some(MACHINE), [None], [None], []) == [ON_MACHINE];
    assert PairEquipment([Some(MACHINE)], [None], [None], []) == [ON_MACHINE];
  }

  lemma ShopMinutes(t: Task)
    ensures ProcessingMinutes(ShopOperation(t), 1.0, Some(MACHINE)) == Some(t.minutes)
  {
    var op := ShopOperation(t);
    assert GrossMinutes(op, 1.0) == t.minutes as real;
    assert SpeedFactor(MACHINE) == 1.0;
    assert WorkOn(op, 1.0, Some(MACHINE)) == t.minutes as real;
  }

  lemma {:induction false} TaggedSegs<K>(k: K, segs: seq<Seg>)
    ensures SegsFor(Tagged(k, segs), k) == segs
  {
    if segs != [] {
      var front := segs[..|segs| - 1];
      TaggedSegs(k, front);
      assert Tagged(k, segs)[..|Tagged(k, segs)| - 1] == Tagged(k, front);
    }
  }

  lemma ShopCalendar(s: Shop)
    ensures WindowSet(ShopBundle(s), MACHINE_KEY) == MinutesOf(s.windows)
    ensures UaSet(ShopBundle(s), MACHINE_KEY) == MinutesOf(s.holes) && CapOf(ShopBundle(s), MACHINE_KEY) == 1
  {
    TaggedSegs("C", s.windows);
    TaggedSegs(MACHINE_KEY, s.holes);
  }

  // --------------------------------------------------------------------- the steps

  lemma MachineRoom(v: View)
    ensures RoomFor(v, ON_MACHINE).equipment == Some(FreeOf(v, MACHINE_KEY))
    ensures Common(RoomFor(v, ON_MACHINE)) == FreeOf(v, MACHINE_KEY)
  {
    assert RoomFor(v, ON_MACHINE).others == [];
  }

  lemma ShopChoice(s: Shop, v: View, l: nat, start: int, end: int)
    requires l < |ShopBundle(s).lines| && v.b == ShopBundle(s)
    requires SetupFor(v.b, v.booked, ShopOperation(s.Of(l)), OpMeta(Product(l), None), ON_MACHINE) == s.Of(l).setup
    requires var E := FreeOf(v, MACHINE_KEY);
      EquipmentPlacement(E, E, s.Of(l).ready, s.Of(l).setup, s.Of(l).minutes, Some((start, end)))
    ensures var x := ShopPlaced(s, l, start, end);
      Chosen(v, Job(ShopOperation(s.Of(l)), x.meta, 1.0, x.anchor), x)
  {
    hide FreeOf, RoomFor, Combos, ProcessingMinutes, EquipmentPlacement, Chosen, ShopBundle, SetupFor;
    var x := ShopPlaced(s, l, start, end);
    ShopCombos(s, l);
    ShopMinutes(s.Of(l));
    MachineRoom(v);
    OnlyChoice(v, Job(ShopOperation(s.Of(l)), x.meta, 1.0, x.anchor), x);
  }

  lemma ShopStep(s: Shop, h: seq<Placed>, l: nat, start: int, end: int)
    requires l < |ShopBundle(s).lines|
    ensures BatchStep(ShopBundle(s), h, ShopPlaced(s, l, start, end))
  {
    ShopValid(s);
    ShopSupply(s, l);
    var b, op := ShopBundle(s), ShopOperation(s.Of(l));
    assert Ends(h, l, op.predecessors) == {};
    assert BatchBounds(b, h, l, op) == {0, s.Of(l).ready as int};
  }

  lemma ShopSupply(s: Shop, l: nat)
    requires l < 2
    ensures Dates(ShopBundle(s).supply, LineId(l), "P") == {s.Of(l).ready as int}
    ensures !Blocked(ShopBundle(s).supply, LineId(l), "P")
  {
    var supply := ShopBundle(s).supply;
    assert supply[l] in supply && DatedEntry(supply[l], LineId(l), "P");
    assert forall e :: e in supply && Concerns(e, LineId(l), "P") ==> e == supply[l];
  }

  lemma NothingHeld(s: Shop, asWritten: bool)
    ensures FreeOf(ViewAfter(ShopBundle(s), asWritten, []), MACHINE_KEY) == s.Open(asWritten)
    ensures SetupFor(ShopBundle(s), AllReservations([]), ShopOperation(s.first), OpMeta("X", None), ON_MACHINE)
            == s.first.setup
  {
    ShopCalendar(s);
    NothingSaturated(s.Open(asWritten), 1);
    SubtractNothing(asWritten, s.Open(asWritten), iset{});
  }

  lemma CoverOne(a: Alloc, m: int)
    ensures CoverCount([a], m) == if a.start <= m < a.end then 1 else 0
  {
    assert [a][..0] == [];
  }

  lemma HeldOnce(iv: Interval, allocs: seq<Alloc>)
    requires allocs == Only(iv.key, [iv])
    ensures allocs == [iv.alloc] && Saturated(allocs, 1) == Span(iv.alloc.start, iv.alloc.end)
  {
    assert [iv][..0] == [] && allocs == [iv.alloc];
    hide CoverCount, Only;
    forall m
      ensures CoverCount(allocs, m) == if iv.alloc.start <= m < iv.alloc.end then 1 else 0
    {
      CoverOne(iv.alloc, m);
    }
  }

  lemma FirstReserves(s: Shop, start: int, end: int)
    ensures var x := ShopPlaced(s, 0, start, end);
      AllReservations([x]) == [Interval(MACHINE_KEY, Alloc(start - s.first.setup, end, x.sid, x.meta))]
  {
    assert [ShopPlaced(s, 0, start, end)][..0] == [];
  }

  /** The machine once the first order is placed. */
  lemma FirstHeld(s: Shop, asWritten: bool, start: int, end: int)
    ensures var x := ShopPlaced(s, 0, start, end);
      && FreeOf(ViewAfter(ShopBundle(s), asWritten, [x]), MACHINE_KEY)
         == SubtractMinutes(asWritten, s.Open(asWritten), Span(start - s.first.setup, end))
      && SetupFor(ShopBundle(s), AllReservations([x]), ShopOperation(s.Of(1)), OpMeta("Y", None), ON_MACHINE)
         == s.Of(1).setup
  {
    var x := ShopPlaced(s, 0, start, end);
    var booked := AllReservations([x]);
    FirstReserves(s, start, end);
    ShopCalendar(s);
    HeldOnce(booked[0], Only(MACHINE_KEY, booked));
    assert [booked[0].alloc][..0] == [];
  }

  // ------------------------------------------------------------------ the schedule

  ghost predicate FirstSpan(s: Shop, asWritten: bool, start: int, end: int) {
    var E := s.Open(asWritten);
    EquipmentPlacement(E, E, s.first.ready, s.first.setup, s.first.minutes, Some((start, end)))
  }

  ghost predicate ShopSpans(s: Shop, asWritten: bool, s1: int, e1: int, s2: int, e2: int) {
    && s.second.Some? && FirstSpan(s, asWritten, s1, e1)
    && var E := SubtractMinutes(asWritten, s.Open(asWritten), Span(s1 - s.first.setup, e1));
       EquipmentPlacement(E, E, s.Of(1).ready, s.Of(1).setup, s.Of(1).minutes, Some((s2, e2)))
  }

  function ShopRun(s: Shop, s1: int, e1: int, s2: int, e2: int): seq<Placed> {
    [ShopPlaced(s, 0, s1, e1), ShopPlaced(s, 1, s2, e2)]
  }

  lemma FirstPlaces(s: Shop, asWritten: bool, start: int, end: int)
    requires FirstSpan(s, asWritten, start, end)
    ensures BatchRun(ShopBundle(s), asWritten, [ShopPlaced(s, 0, start, end)])
  {
    hide BatchRun, BatchStep, Chosen, FreeOf, EquipmentPlacement, ShopBundle, ValidBundle, SetupFor, OpsOf,
      SubtractMinutes;
    var b, x := ShopBundle(s), ShopPlaced(s, 0, start, end);
    ShopLines(s);
    ShopValid(s);
    NothingHeld(s, asWritten);
    ShopChoice(s, ViewAfter(b, asWritten, []), 0, start, end);
    ShopStep(s, [], 0, start, end);
    hide GreedyStep;
    NoRun(b, asWritten);
    BatchRunAppend(b, asWritten, [], x);
    assert [] + [x] == [x];
  }

  lemma ShopPlaces(s: Shop, asWritten: bool, s1: int, e1: int, s2: int, e2: int)
    requires ShopSpans(s, asWritten, s1, e1, s2, e2)
    ensures BatchRun(ShopBundle(s), asWritten, ShopRun(s, s1, e1, s2, e2))
  {
    hide BatchRun, BatchStep, Chosen, FreeOf, EquipmentPlacement, ShopBundle, ValidBundle, SetupFor, OpsOf,
      SubtractMinutes;
    var b, x, y := ShopBundle(s), ShopPlaced(s, 0, s1, e1), ShopPlaced(s, 1, s2, e2);
    ShopLines(s);
    ShopValid(s);
    FirstPlaces(s, asWritten, s1, e1);
    FirstHeld(s, asWritten, s1, e1);
    ShopChoice(s, ViewAfter(b, asWritten, [x]), 1, s2, e2);
    ShopStep(s, [x], 1, s2, e2);
    hide GreedyStep;
    assert [x] + [y] == [x, y];
    BatchRunAppend(b, asWritten, [x], y);
  }

  lemma ShopLines(s: Shop)
    ensures |ShopBundle(s).lines| == if s.second.Some? then 2 else 1
  {
  }

  lemma NoRun(b: Bundle, asWritten: bool)
    ensures BatchRun(b, asWritten, [])
  {
  }

  /** The shop has this schedule, and no other. */
  lemma ShopScheduled(s: Shop, asWritten: bool, s1: int, e1: int, s2: int, e2: int)
    requires ShopSpans(s, asWritten, s1, e1, s2, e2)
    ensures ValidBundle(ShopBundle(s))
    ensures var h := ShopRun(s, s1, e1, s2, e2);
      ScheduleRight(ShopBundle(s), asWritten, Scheduled(h, AllReservations(h), []))
    ensures forall r: Outcome :: r.Scheduled? && ScheduleRight(ShopBundle(s), asWritten, r) ==>
              r.operations == ShopRun(s, s1, e1, s2, e2)
  {
    var h := ShopRun(s, s1, e1, s2, e2);
    ShopValid(s);
    ShopPlaces(s, asWritten, s1, e1, s2, e2);
    ShopTurns(s, s1, e1, s2, e2);
    hide ValidBundle, BatchRun, ShopBundle, ShopRun, AllReservations, ShopSpans, Stops, SubtractMinutes;
    var right := Scheduled(h, AllReservations(h), []);
    assert ScheduleRight(ShopBundle(s), asWritten, right);
    forall r: Outcome | r.Scheduled? && ScheduleRight(ShopBundle(s), asWritten, r)
      ensures r.operations == h
    {
      BatchDetermined(ShopBundle(s), asWritten, r, right);
    }
  }

  lemma ShopTurns(s: Shop, s1: int, e1: int, s2: int, e2: int)
    requires s.second.Some?
    ensures var b, h := ShopBundle(s), ShopRun(s, s1, e1, s2, e2);
      RoundRobin(h) && Partitioned(b, h, []) && StopsRight(b, h) && BlocksOk(b, [])
  {
    hide OpsOf, ValidBundle, ShopOperation;
    ShopLines(s);
    ShopValid(s);
    var x, y := ShopPlaced(s, 0, s1, e1), ShopPlaced(s, 1, s2, e2);
    hide ShopBundle;
    assert [x, y][..1] == [x] && [x][..0] == [];
    forall l | 0 <= l < 2
      ensures ScheduledOf([x, y], l) == [0] && |OpsOf(ShopBundle(s), l)| == 1
    {
      assert ScheduledOf([x], l) == if l == 0 then [0] else [];
    }
  }

  /** With one order, the shop has this schedule. */
  lemma FirstScheduled(s: Shop, asWritten: bool, start: int, end: int)
    requires s.second.None? && FirstSpan(s, asWritten, start, end)
    ensures ValidBundle(ShopBundle(s))
    ensures var h := [ShopPlaced(s, 0, start, end)];
      ScheduleRight(ShopBundle(s), asWritten, Scheduled(h, AllReservations(h), []))
  {
    var x := ShopPlaced(s, 0, start, end);
    ShopValid(s);
    ShopLines(s);
    assert [x][..0] == [];
    assert ScheduledOf([x], 0) == [0] && |OpsOf(ShopBundle(s), 0)| == 1;
    FirstPlaces(s, asWritten, start, end);
    hide BatchRun, FirstSpan, ShopBundle, ShopPlaced, ValidBundle, OpsOf;
  }
}

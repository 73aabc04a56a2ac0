/** A bundle whose ids clash, and the batch that starts early because of it. */
module ClashingIds {
  import opened Minutes
  import opened WorkingTime
  import opened Bundle
  import opened ScheduleIds
  import opened Occupancy
  import opened Intervals
  import opened Eligibility
  import opened Placement
  import opened Schedule
  import opened GreedyRuns
  import opened Supply
  import opened TransferBatches
  import opened BatchFlow
  import opened StreamingFlow
  import opened StreamPromises
  import opened Determined

  /** Line a makes one batch of operation p::q in `short` minutes; line a::p makes two of
      operation q, `long` minutes each. Both work on a station with three places, open for
      `day` minutes. The line ids differ, and so do the operations of each route. */
  datatype Case = Case(a: string, p: string, q: string, short: nat, long: nat, day: nat)
  {
    ghost predicate Valid() {
      0 < short < long && short + long <= day
    }

    function LineId(l: nat): string {
      if l == 0 then a else a + "::" + p
    }

    function Code(l: nat): string {
      if l == 0 then p + "::" + q else q
    }

    function Product(l: nat): string {
      if l == 0 then "X" else "Y"
    }

    function Minutes(l: nat): nat {
      if l == 0 then short else long
    }

    function Pieces(l: nat): nat {
      if l == 0 then 1 else 2
    }
  }

  const STATION_S := Station("S", true, 3, "C")

  const STATION_KEY := Key(STATION, "S")

  const ON_STATION := Combo(None, None, Some(STATION_S), [])

  function StationOperation(c: Case, l: nat): Operation {
    Operation(c.Code(l), 1, [], 1, c.Minutes(l) as real, None, 0, None, [], [], [], [], [], ["S"])
  }

  function StationRoute(c: Case, l: nat): Route {
    Route([StationOperation(c, l)], true, 1)
  }

  function ClashBundle(c: Case): Bundle {
    Bundle([Line(c.LineId(0), "X", 1.0), Line(c.LineId(1), "Y", 2.0)],
           map["X" := StationRoute(c, 0), "Y" := StationRoute(c, 1)],
           [], [], [], [STATION_S], [("C", Seg(0, c.day))], [], [], map[])
  }

  /** Batch k of line l, which reports `preds` and starts at `start`. */
  function StationPlaced(c: Case, l: nat, k: nat, preds: seq<Sid>, start: int): Placed {
    Placed(l, 0, Sid(c.LineId(l), c.Code(l), 1, Some(k + 1)), OpMeta(c.Product(l), None), preds, 1.0, start,
           ON_STATION, 0, c.Minutes(l), start, start + c.Minutes(l))
  }

  function Single(c: Case): Placed {
    StationPlaced(c, 0, 0, [], 0)
  }

  function FirstBatch(c: Case): Placed {
    StationPlaced(c, 1, 0, [], 0)
  }

  function SecondBatch(c: Case): Placed {
    StationPlaced(c, 1, 1, [FirstBatch(c).sid], c.short)
  }

  // ------------------------------------------------------------------ the bundle

  lemma ClashBundleValid(c: Case)
    requires c.Valid()
    ensures ValidBundle(ClashBundle(c))
    ensures forall l :: 0 <= l < 2 ==> OpsOf(ClashBundle(c), l) == [StationOperation(c, l)]
  {
    forall l | 0 <= l < 2
      ensures OpsOf(ClashBundle(c), l) == [StationOperation(c, l)]
    {
      assert BySequence([StationOperation(c, l)]) == [StationOperation(c, l)];
    }
  }

  lemma StationCombos(c: Case, l: nat)
    ensures Combos(ClashBundle(c), StationOperation(c, l)) == Some([ON_STATION])
  {
    var b, op := ClashBundle(c), StationOperation(c, l);
    assert StationFits(op, STATION_S) && STATION_S in b.stations;
    assert Some(STATION_S) in EligibleStations(b, op);
    assert EligibleStations(b, op) == [Some(STATION_S)];
    assert PairStations(None, None, [Some(STATION_S)], []) == [ON_STATION];
    assert PairPersons(None, [None], [Some(STATION_S)], []) == [ON_STATION];
    assert PairEquipment([None], [None], [Some(STATION_S)], []) == [ON_STATION];
  }

  lemma StationMinutes(c: Case, l: nat)
    ensures ProcessingMinutes(StationOperation(c, l), 1.0, None) == Some(c.Minutes(l))
  {
    assert GrossMinutes(StationOperation(c, l), 1.0) == c.Minutes(l) as real;
  }

  lemma StationCalendar(c: Case)
    ensures WindowSet(ClashBundle(c), STATION_KEY) == Span(0, c.day)
    ensures UaSet(ClashBundle(c), STATION_KEY) == iset{}
    ensures CapOf(ClashBundle(c), STATION_KEY) == 3
  {
    var working := ClashBundle(c).working;
    assert working[..0] == [];
    assert SegsFor(working, "C") == [] + [Seg(0, c.day)];
    MinutesOfAppend([], Seg(0, c.day));
    MinutesOfEmpty();
  }

  // ------------------------------------------------------------------ room for three

  lemma {:induction false} CoverAtMost(allocs: seq<Alloc>, m: int)
    ensures CoverCount(allocs, m) <= |allocs|
  {
    if allocs != [] {
      CoverAtMost(allocs[..|allocs| - 1], m);
    }
  }

  lemma {:induction false} OnlyAtMost(key: Key, booked: seq<Interval>)
    ensures |Only(key, booked)| <= |booked|
  {
    if booked != [] {
      OnlyAtMost(key, booked[..|booked| - 1]);
    }
  }

  lemma {:induction false} OneEach(h: seq<Placed>)
    requires forall i :: 0 <= i < |h| ==> h[i].combo == ON_STATION
    ensures |AllReservations(h)| == |h|
  {
    if h != [] {
      OneEach(h[..|h| - 1]);
      assert |Reservations(h[|h| - 1])| == 1;
    }
  }

  /** With at most two operations placed, the station is free all day. */
  lemma StationFree(c: Case, asWritten: bool, h: seq<Placed>)
    requires |h| <= 2 && forall i :: 0 <= i < |h| ==> h[i].combo == ON_STATION
    ensures FreeOf(ViewAfter(ClashBundle(c), asWritten, h), STATION_KEY) == Span(0, c.day)
  {
    StationCalendar(c);
    var allocs := Only(STATION_KEY, AllReservations(h));
    OneEach(h);
    OnlyAtMost(STATION_KEY, AllReservations(h));
    forall m
      ensures !SaturatedAt(allocs, 3, m)
    {
      CoverAtMost(allocs, m);
    }
    assert Saturated(allocs, 3) == iset{};
    SubtractNothing(asWritten, Span(0, c.day), iset{});
  }

  lemma StationSpan(day: nat, start: nat, need: nat)
    requires need > 0 && start + need <= day
    ensures EarliestSpanOf(Span(0, day), start, need, Some((start, start + need)))
  {
    var P := Span(0, day);
    CountAll(P, start, start + need);
    forall e | start <= e < start + need
      ensures CountIn(P, start, e) < need
    {
      CountAtMostLength(P, start, e);
    }
  }

  lemma StationRoom(c: Case, v: View)
    requires FreeOf(v, STATION_KEY) == Span(0, c.day)
    ensures RoomFor(v, ON_STATION).equipment.None? && Common(RoomFor(v, ON_STATION)) == Span(0, c.day)
  {
    var room := RoomFor(v, ON_STATION);
    hide FreeOf;
    assert OtherKeys(ON_STATION) == [STATION_KEY];
    assert room.others == [Span(0, c.day)];
    assert forall m :: m in CommonOf(room.others) ==> m in room.others[0];
  }

  lemma StationPlacement(c: Case, v: View, start: nat, need: nat)
    requires need > 0 && start + need <= c.day && FreeOf(v, STATION_KEY) == Span(0, c.day)
    ensures PlacementIn(RoomFor(v, ON_STATION), start, 0, need, Some((start as int, start + need)))
  {
    StationRoom(c, v);
    hide FreeOf, RoomFor;
    StationSpan(c.day, start, need);
    assert 0 in Span(0, c.day);
  }

  lemma ChosenOnStation(c: Case, v: View, l: nat, k: nat, preds: seq<Sid>, start: nat)
    requires c.Valid() && l < 2 && start + c.Minutes(l) <= c.day
    requires v.b == ClashBundle(c) && FreeOf(v, STATION_KEY) == Span(0, c.day)
    ensures var x := StationPlaced(c, l, k, preds, start);
      Chosen(v, Job(StationOperation(c, l), x.meta, 1.0, start), x)
  {
    hide FreeOf, RoomFor, Combos, ProcessingMinutes, PlacementIn, Chosen, ClashBundle;
    var x := StationPlaced(c, l, k, preds, start);
    StationCombos(c, l);
    StationMinutes(c, l);
    StationPlacement(c, v, start, c.Minutes(l));
    OnlyChoice(v, Job(StationOperation(c, l), x.meta, 1.0, start), x);
  }

  /** Each batch is placed at its anchor, while the day is long enough. */
  lemma PlacedAtAnchor(c: Case, asWritten: bool, h: seq<Placed>, l: nat, k: nat, preds: seq<Sid>, start: nat)
    requires c.Valid() && l < 2 && start + c.Minutes(l) <= c.day
    requires |h| <= 2 && forall i :: 0 <= i < |h| ==> h[i].combo == ON_STATION
    ensures GreedyStep(ClashBundle(c), asWritten, h, StationPlaced(c, l, k, preds, start))
  {
    hide FreeOf, Chosen, OpsOf, ValidBundle;
    ClashBundleValid(c);
    StationFree(c, asWritten, h);
    ChosenOnStation(c, ViewAfter(ClashBundle(c), asWritten, h), l, k, preds, start);
  }

  // ------------------------------------------------------------------------- ids

  /** The two operations print the same ids. */
  lemma StemsAgree(c: Case)
    ensures Stem(c.LineId(0), c.Code(0), 1) == Stem(c.LineId(1), c.Code(1), 1)
  {
    var number := "#" + Decimal(1);
    assert c.LineId(0) + "::" + c.Code(0) == c.LineId(1) + "::" + c.Code(1);
  }

  lemma LookupErrs(c: Case)
    ensures IdText(Single(c).sid) == IdText(FirstBatch(c).sid)
    ensures FirstById([Single(c), FirstBatch(c)], FirstBatch(c).sid) == Some(Single(c))
  {
    StemsAgree(c);
    SameTextIff(Single(c).sid, FirstBatch(c).sid);
  }

  // -------------------------------------------------------------------- the steps

  lemma BatchesOfCase(c: Case, l: nat)
    requires c.Valid() && l < 2
    ensures SizeOf(ClashBundle(c), l) == 1 && CountOf(ClashBundle(c), l) == c.Pieces(l)
    ensures forall k: nat :: k < c.Pieces(l) ==> BatchQty(ClashBundle(c).lines[l].qty, 1, k) == 1.0
  {
  }

  lemma NothingAwaited(c: Case, l: nat)
    requires c.Valid() && l < 2
    ensures Dates(ClashBundle(c).supply, c.LineId(l), c.Code(l)) == {}
    ensures !Blocked(ClashBundle(c).supply, c.LineId(l), c.Code(l))
  {
  }

  lemma FirstSteps(c: Case, h: seq<Placed>, l: nat)
    requires c.Valid() && l < 2 && (if l == 0 then h == [] else h == [Single(c)])
    ensures StreamStep(ClashBundle(c), h, StationPlaced(c, l, 0, [], 0))
  {
    ClashBundleValid(c);
    BatchesOfCase(c, l);
    NothingAwaited(c, l);
    var b, op := ClashBundle(c), StationOperation(c, l);
    assert h[..0] == [];
    assert DoneAt(h, l, op.opCode).None?;
    assert StreamPredecessors(h, l, 0, op) == [];
    assert StreamBounds(b, h, l, 0, op) == {0};
  }

  /** The second batch waits for the operation that looking up the first batch's id finds. */
  lemma SecondStep(c: Case)
    requires c.Valid()
    ensures StreamStep(ClashBundle(c), [Single(c), FirstBatch(c)], SecondBatch(c))
  {
    ClashBundleValid(c);
    BatchesOfCase(c, 1);
    NothingAwaited(c, 1);
    var b, op, h := ClashBundle(c), StationOperation(c, 1), [Single(c), FirstBatch(c)];
    hide IdText;
    LookupErrs(c);
    assert DoneAt(h, 1, op.opCode) == Some(FirstBatch(c));
    assert StreamPredecessors(h, 1, 1, op) == [FirstBatch(c).sid];
    hide FirstById;
    assert EndsById(h, [FirstBatch(c).sid]) == {c.short} by {
      assert FirstBatch(c).sid in [FirstBatch(c).sid];
    }
    assert StreamBounds(b, h, 1, 1, op) == {0, c.short as int};
  }

  // ----------------------------------------------------------------- the schedule

  function Placements(c: Case): seq<Placed> {
    [Single(c), FirstBatch(c), SecondBatch(c)]
  }

  lemma CaseRun(c: Case, asWritten: bool)
    requires c.Valid()
    ensures StreamRun(ClashBundle(c), asWritten, Placements(c))
  {
    hide StreamRun, StreamStep, GreedyStep, ValidBundle, ClashBundle;
    var b, x, y, z := ClashBundle(c), Single(c), FirstBatch(c), SecondBatch(c);
    ClashBundleValid(c);
    RunOfNone(b, asWritten);
    PlacedAtAnchor(c, asWritten, [], 0, 0, [], 0);
    FirstSteps(c, [], 0);
    StreamRunAppend(b, asWritten, [], x);
    assert [] + [x] == [x] && [x] + [y] == [x, y] && [x, y] + [z] == [x, y, z];
    PlacedAtAnchor(c, asWritten, [x], 1, 0, [], 0);
    FirstSteps(c, [x], 1);
    StreamRunAppend(b, asWritten, [x], y);
    PlacedAtAnchor(c, asWritten, [x, y], 1, 1, [y.sid], c.short);
    SecondStep(c);
    StreamRunAppend(b, asWritten, [x, y], z);
  }

  lemma RunOfNone(b: Bundle, asWritten: bool)
    ensures StreamRun(b, asWritten, [])
  {
  }

  lemma CasePairs(c: Case, l: nat)
    requires c.Valid() && l < 2
    ensures LineComplete(ClashBundle(c), Placements(c), [], l)
  {
    ClashBundleValid(c);
    BatchesOfCase(c, l);
    NothingAwaited(c, l);
    var b, x, y, z := ClashBundle(c), Single(c), FirstBatch(c), SecondBatch(c);
    assert Placements(c)[..2] == [x, y] && [x, y][..1] == [x] && [x][..0] == [];
    assert ScheduledPairs([x], l) == if l == 0 then [(0, 0)] else [];
    assert ScheduledPairs([x, y], l) == [(0, 0)];
    assert ScheduledPairs(Placements(c), l) == if l == 0 then [(0, 0)] else [(0, 0), (1, 0)];
    hide ClashBundle, OpsOf, Blocked, SizeOf, CountOf;
    assert !OperationBlocked(b, l, 0);
    assert Pairs(b, l, 0, 0, false) == [] && Pairs(b, l, 0, 1, false) == [(0, 0)];
    assert Pairs(b, l, 0, 0, true) == [] && Pairs(b, l, 0, 1, true) == [];
    assert Pairs(b, l, 1, 0, false) == [(0, 0)] && Pairs(b, l, 1, 0, true) == [];
    assert Pairs(b, l, 1, 1, false) == [(0, 0), (1, 0)] && Pairs(b, l, 1, 1, true) == [];
  }

  /** The bundle of every such case has this schedule. */
  lemma CaseScheduled(c: Case, asWritten: bool)
    requires c.Valid()
    ensures ValidBundle(ClashBundle(c))
    ensures StreamScheduleRight(ClashBundle(c), asWritten, Scheduled(Placements(c), AllReservations(Placements(c)), []))
  {
    hide StreamRun, LineComplete, ValidBundle, AllReservations;
    ClashBundleValid(c);
    CaseRun(c, asWritten);
    CasePairs(c, 0);
    CasePairs(c, 1);
  }

  lemma CaseClashes(c: Case)
    requires c.Valid()
    ensures IdsClash(ClashBundle(c)) && ClashBundle(c).lines[0].lineId != ClashBundle(c).lines[1].lineId
  {
    ClashBundleValid(c);
    NothingAwaited(c, 0);
    NothingAwaited(c, 1);
    StemsAgree(c);
    assert ClashAt(ClashBundle(c), 0, 0, 1, 0);
    assert |c.LineId(0)| < |c.LineId(1)|;
  }

  /** In every finished schedule of every such bundle the second batch of the operation, which
      reports the first as its predecessor, begins before the first has ended: it waited for
      the other line. The line ids differ. */
  lemma ClashStartsEarly(c: Case, asWritten: bool, r: Outcome)
    requires c.Valid() && r.Scheduled? && StreamScheduleRight(ClashBundle(c), asWritten, r)
    ensures IdsClash(ClashBundle(c)) && ClashBundle(c).lines[0].lineId != ClashBundle(c).lines[1].lineId
    ensures |r.operations| == 3
    ensures var x, y := r.operations[1], r.operations[2];
      && x.line == y.line && x.sid.opCode == y.sid.opCode && x.sid.batch == Some(1) && y.sid.batch == Some(2)
      && x.sid in y.predecessors && y.PlanStart() < x.end
  {
    CaseClashes(c);
    hide ValidBundle, StreamScheduleRight, IdsClash, ClashBundle;
    CaseScheduled(c, asWritten);
    StreamDetermined(ClashBundle(c), asWritten, r, Scheduled(Placements(c), AllReservations(Placements(c)), []));
  }
}

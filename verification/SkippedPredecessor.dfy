/** A streaming route whose first operation waits for supply that has no date, and whose
    second, which names it as predecessor, runs all the same. */
module SkippedPredecessor {
  import opened Minutes
  import opened Bundle
  import opened Occupancy
  import opened Intervals
  import opened Eligibility
  import opened Placement
  import opened Schedule
  import opened GreedyRuns
  import opened Supply
  import opened BatchFlow
  import opened StreamingFlow
  import opened StreamPromises
  import opened ClashingIds
  import opened Determined

  function Blank(code: string, number: int, preds: seq<string>): Operation {
    Operation(code, number, preds, 1, 1.0, None, 0, None, [], [], [], [], [], ["S"])
  }

  const CUT := Blank("P", 1, [])

  const SEW := Blank("Q", 2, ["P"])

  /** One piece; nothing is known of when the supply for cutting arrives. */
  const SKIPPING :=
    Bundle([Line("A", "X", 1.0)], map["X" := Route([CUT, SEW], true, 1)],
           [], [], [], [STATION_S], [("C", Seg(0, 1))], [], [SupplyEntry("A", Some("P"), false, None)], map[])

  const SEWN :=
    Placed(0, 1, Sid("A", "Q", 2, Some(1)), OpMeta("X", None), [], 1.0, 0, ON_STATION, 0, 1, 0, 1)

  const NOT_CUT := Block(0, 0, Some(0), "A", "P", SupplyNotReady)

  lemma SkippingValid()
    ensures ValidBundle(SKIPPING) && OpsOf(SKIPPING, 0) == [CUT, SEW]
    ensures SizeOf(SKIPPING, 0) == 1 && CountOf(SKIPPING, 0) == 1
    ensures OperationBlocked(SKIPPING, 0, 0) && !OperationBlocked(SKIPPING, 0, 1)
  {
    assert CUT in [CUT, SEW];
    assert [CUT, SEW][1..] == [SEW] && [SEW][1..] == [];
    assert BySequence([SEW]) == [SEW];
    assert BySequence([CUT, SEW]) == [CUT, SEW];
    assert Blocking(SKIPPING.supply[0], "A", "P");
  }

  lemma SewingChosen(asWritten: bool)
    ensures GreedyStep(SKIPPING, asWritten, [], SEWN)
  {
    SkippingValid();
    SewingCombos();
    SewingFree(asWritten);
    var v := ViewAfter(SKIPPING, asWritten, []);
    SewingMinutes();
    SewingRoom(v);
    hide FreeOf, RoomFor, Combos, PlacementIn, Chosen, ProcessingMinutes;
    OnlyChoice(v, Job(SEW, SEWN.meta, 1.0, 0), SEWN);
  }

  lemma SewingCombos()
    ensures Combos(SKIPPING, SEW) == Some([ON_STATION])
  {
    assert StationFits(SEW, STATION_S) && STATION_S in SKIPPING.stations;
    assert Some(STATION_S) in EligibleStations(SKIPPING, SEW);
    assert EligibleStations(SKIPPING, SEW) == [Some(STATION_S)];
    assert PairStations(None, None, [Some(STATION_S)], []) == [ON_STATION];
    assert PairPersons(None, [None], [Some(STATION_S)], []) == [ON_STATION];
    assert PairEquipment([None], [None], [Some(STATION_S)], []) == [ON_STATION];
  }

  lemma SewingMinutes()
    ensures ProcessingMinutes(SEW, 1.0, None) == Some(1)
  {
    assert GrossMinutes(SEW, 1.0) == 1.0;
  }

  lemma SewingFree(asWritten: bool)
    ensures FreeOf(ViewAfter(SKIPPING, asWritten, []), STATION_KEY) == Span(0, 1)
  {
    var working := SKIPPING.working;
    assert working[..0] == [];
    assert SegsFor(working, "C") == [] + [Seg(0, 1)];
    MinutesOfAppend([], Seg(0, 1));
    MinutesOfEmpty();
    NothingSaturated(Span(0, 1), 3);
    SubtractNothing(asWritten, Span(0, 1), iset{});
  }

  lemma SewingRoom(v: View)
    requires FreeOf(v, STATION_KEY) == Span(0, 1)
    ensures PlacementIn(RoomFor(v, ON_STATION), 0, 0, 1, Some((0, 1)))
  {
    var room := RoomFor(v, ON_STATION);
    hide FreeOf;
    assert OtherKeys(ON_STATION) == [STATION_KEY];
    assert room.others == [Span(0, 1)];
    assert forall m :: m in CommonOf(room.others) ==> m in room.others[0];
    assert Common(room) == Span(0, 1);
    StationSpan(1, 0, 1);
    assert 0 in Span(0, 1);
  }

  /** Nothing that was placed answers to the predecessor's id, so nothing is waited for. */
  lemma SewingStep()
    ensures StreamStep(SKIPPING, [], SEWN)
  {
    SkippingValid();
    assert Dates(SKIPPING.supply, "A", "Q") == {};
    assert StreamPredecessors([], 0, 0, SEW) == [];
    assert StreamBounds(SKIPPING, [], 0, 0, SEW) == {0};
  }

  lemma SkippingRun(asWritten: bool)
    ensures StreamRun(SKIPPING, asWritten, [SEWN])
  {
    hide StreamStep, GreedyStep;
    SewingChosen(asWritten);
    SewingStep();
    assert [SEWN][..0] == [];
  }

  lemma SkippingPairs()
    ensures LineComplete(SKIPPING, [SEWN], [NOT_CUT], 0)
  {
    SkippingValid();
    assert [SEWN][..0] == [] && [NOT_CUT][..0] == [];
    assert ScheduledPairs([SEWN], 0) == [(0, 1)] && BlockedPairs([NOT_CUT], 0) == [(0, 0)];
    hide OpsOf, SizeOf, CountOf, OperationBlocked;
    assert Pairs(SKIPPING, 0, 0, 0, false) == [] && Pairs(SKIPPING, 0, 0, 0, true) == [];
    assert Pairs(SKIPPING, 0, 0, 1, false) == [] && Pairs(SKIPPING, 0, 0, 1, true) == [(0, 0)];
    assert Pairs(SKIPPING, 0, 0, 2, false) == [(0, 1)] && Pairs(SKIPPING, 0, 0, 2, true) == [(0, 0)];
  }

  lemma SkippingScheduled(asWritten: bool)
    ensures StreamScheduleRight(SKIPPING, asWritten, Scheduled([SEWN], AllReservations([SEWN]), [NOT_CUT]))
  {
    SkippingValid();
    BlockedIff(SKIPPING.supply, "A", "P");
    hide StreamRun, LineComplete, OpsOf, MissingFor;
    SkippingRun(asWritten);
    SkippingPairs();
  }

  /** The bundle is scheduled, and in every schedule of it the operation runs though the
      predecessor it names is blocked and never went before it. */
  lemma PredecessorSkipped(asWritten: bool, r: Outcome)
    requires r.Scheduled? && StreamScheduleRight(SKIPPING, asWritten, r)
    ensures OpsOf(SKIPPING, 0) == [CUT, SEW] && CUT.opCode in SEW.predecessors && OperationBlocked(SKIPPING, 0, 0)
    ensures |r.operations| == 1 && r.operations[0].op == 1 && r.operations[0].predecessors == []
    ensures !exists j: nat :: WentBefore(r.operations, 0, 0, j)
  {
    SkippingValid();
    SkippingScheduled(asWritten);
    hide StreamScheduleRight, ValidBundle, OpsOf;
    StreamDetermined(SKIPPING, asWritten, r, Scheduled([SEWN], AllReservations([SEWN]), [NOT_CUT]));
  }
}

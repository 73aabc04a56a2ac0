/** Where one operation fits on one combination of resources. */
module Placement {
  import opened Minutes
  import opened Intervals
  import opened WorkingTime

  /** Setup has had its working minutes on the equipment by t. */
  ghost predicate SetupDone(E: iset<int>, anchor: int, setup: int, t: int) {
    anchor <= t && CountIn(E, anchor, t) >= setup
  }

  ghost predicate OpenedBy(P: iset<int>, anchor: int, p: int, t: int) {
    anchor <= p <= t && p in P
  }

  /** t can be taken as the start of processing: setup is done and a common working minute
      has come up. */
  ghost predicate Ready(E: iset<int>, P: iset<int>, anchor: int, setup: int, t: int) {
    SetupDone(E, anchor, setup, t) && exists p :: OpenedBy(P, anchor, p, t)
  }

  /** E holds the free minutes of the equipment, P those free on every resource at once. */
  ghost predicate EquipmentPlacement(E: iset<int>, P: iset<int>, anchor: int, setup: int, need: int,
                                     r: Option<(int, int)>) {
    match r
    case None => forall t, e :: Ready(E, P, anchor, setup, t) ==> CountIn(P, t, e) < need
    case Some((s, e)) =>
      && Ready(E, P, anchor, setup, s)
      && (forall t :: t < s ==> !Ready(E, P, anchor, setup, t))
      && EarliestEnd(P, s, need, Some(e))
  }

  ghost predicate ManualPlacement(P: iset<int>, anchor: int, setup: int, need: int, r: Option<(int, int)>) {
    if P == iset{} then r == None else EarliestSpanOf(P, anchor + setup, need, r)
  }

  /** The free minutes of a combination: its equipment, if any, and its other resources. */
  datatype Room = Room(equipment: Option<iset<int>>, others: seq<iset<int>>)

  ghost function Common(room: Room): iset<int> {
    if room.equipment.Some? then room.equipment.value * CommonOf(room.others)
    else if room.others == [] then iset{}
    else CommonOf(room.others)
  }

  ghost predicate PlacementIn(room: Room, anchor: int, setup: int, need: int, r: Option<(int, int)>) {
    match room.equipment
    case Some(E) => EquipmentPlacement(E, Common(room), anchor, setup, need, r)
    case None => ManualPlacement(Common(room), anchor, setup, need, r)
  }

  ghost function RoomOf(eqFree: Option<seq<Seg>>, others: seq<seq<Seg>>): Room {
    Room(match eqFree case None => None case Some(segs) => Some(MinutesOf(segs)), SetsOf(others))
  }

  // --------------------------------------------------------------- the search

  lemma ReadyNeedsOpening(E: iset<int>, P: iset<int>, anchor: int, setup: int, s0: int)
    requires FirstAt(P, anchor, s0)
    ensures forall t :: Ready(E, P, anchor, setup, t) <==> s0 <= t && SetupDone(E, anchor, setup, t)
  {
    forall t
      ensures Ready(E, P, anchor, setup, t) <==> s0 <= t && SetupDone(E, anchor, setup, t)
    {
      if s0 <= t {
        assert OpenedBy(P, anchor, s0, t);
      }
    }
  }

  /** Walking back over the setup from s stays at or after the anchor exactly when the
      setup is done by s. */
  lemma SetupFits(E: iset<int>, anchor: int, setup: int, s: int, back: Option<int>)
    requires anchor <= s && LatestStart(E, s, setup, back)
    ensures (back.Some? && back.value >= anchor) <==> SetupDone(E, anchor, setup, s)
  {
    if back.Some? && back.value >= anchor {
      CountLaterStart(E, anchor, back.value, s);
    }
    if SetupDone(E, anchor, setup, s) {
      assert back.Some?;
    }
  }

  lemma SetupMonotone(E: iset<int>, anchor: int, setup: int, alt: Option<int>)
    requires EarliestEnd(E, anchor, setup, alt)
    ensures forall t :: SetupDone(E, anchor, setup, t) <==> alt.Some? && alt.value <= t
  {
    forall t
      ensures SetupDone(E, anchor, setup, t) <==> alt.Some? && alt.value <= t
    {
      if alt.Some? && alt.value <= t {
        CountMonotone(E, anchor, alt.value, t);
      }
    }
  }

  lemma PlacedAtOpening(E: iset<int>, P: iset<int>, anchor: int, setup: int, need: int, s0: int, end: int)
    requires FirstAt(P, anchor, s0) && SetupDone(E, anchor, setup, s0) && EarliestEnd(P, s0, need, Some(end))
    ensures EquipmentPlacement(E, P, anchor, setup, need, Some((s0, end)))
  {
    ReadyNeedsOpening(E, P, anchor, setup, s0);
  }

  lemma PlacedAfterSetup(E: iset<int>, P: iset<int>, anchor: int, setup: int, need: int, s0: int, alt: int,
                         altEnd: Option<int>)
    requires FirstAt(P, anchor, s0) && s0 < alt
    requires EarliestEnd(E, anchor, setup, Some(alt)) && EarliestEnd(P, alt, need, altEnd)
    ensures EquipmentPlacement(E, P, anchor, setup, need,
                               if altEnd.Some? then Some((alt, altEnd.value)) else None)
  {
    ReadyNeedsOpening(E, P, anchor, setup, s0);
    SetupMonotone(E, anchor, setup, Some(alt));
    if altEnd == None {
      forall t, e | Ready(E, P, anchor, setup, t)
        ensures CountIn(P, t, e) < need
      {
        CountLaterStart(P, alt, t, e);
      }
    }
  }

  lemma NoRoomFromOpening(E: iset<int>, P: iset<int>, anchor: int, setup: int, need: int, s0: int)
    requires FirstAt(P, anchor, s0)
    requires EarliestEnd(P, s0, need, None) || EarliestEnd(E, anchor, setup, None)
    ensures EquipmentPlacement(E, P, anchor, setup, need, None)
  {
    ReadyNeedsOpening(E, P, anchor, setup, s0);
    if EarliestEnd(P, s0, need, None) {
      forall t, e | Ready(E, P, anchor, setup, t)
        ensures CountIn(P, t, e) < need
      {
        CountLaterStart(P, s0, t, e);
      }
    }
  }

  /** The loop over the common segments of `_place_processing`. */
  method PlaceOnEquipment(eqFree: seq<Seg>, procSegs: seq<Seg>, anchor: int, setup: int, need: int)
      returns (r: Option<(int, int)>)
    requires Canonical(eqFree) && Canonical(procSegs) && setup >= 0 && need >= 0
    ensures EquipmentPlacement(MinutesOf(eqFree), MinutesOf(procSegs), anchor, setup, need, r)
  {
    ghost var E, P := MinutesOf(eqFree), MinutesOf(procSegs);
    ghost var tried := false;
    for i := 0 to |procSegs|
      invariant !tried ==> forall k :: 0 <= k < i ==> procSegs[k].hi <= anchor
      invariant tried ==> EquipmentPlacement(E, P, anchor, setup, need, None)
      invariant tried ==> exists s0 :: FirstAt(P, anchor, s0)
    {
      var a, b := procSegs[i].lo, procSegs[i].hi;
      if b <= anchor {
        continue;
      }
      var start := Max(a, anchor);
      if !tried {
        FirstSegmentPast(procSegs, i, anchor);
      }
      assert Hit(procSegs, i, start);
      assert OpenedBy(P, anchor, start, start);
      var end := WorkingEnd(procSegs, start, need);
      if end == None {
        if !tried {
          NoRoomFromOpening(E, P, anchor, setup, need, start);
        }
        return None;
      }
      var setupStart := WorkingBack(eqFree, start, setup);
      SetupFits(E, anchor, setup, start, setupStart);
      if setupStart.Some? && setupStart.value >= anchor {
        assert Ready(E, P, anchor, setup, start);
        assert !tried;
        PlacedAtOpening(E, P, anchor, setup, need, start, end.value);
        return Some((start, end.value));
      }
      var alt := WorkingEnd(eqFree, anchor, setup);
      SetupMonotone(E, anchor, setup, alt);
      if alt.Some? && alt.value > start {
        var altEnd := WorkingEnd(procSegs, alt.value, need);
        if !tried {
          PlacedAfterSetup(E, P, anchor, setup, need, start, alt.value, altEnd);
        }
        if altEnd.Some? {
          assert OpenedBy(P, anchor, start, alt.value);
          assert Ready(E, P, anchor, setup, alt.value);
          assert !tried;
          return Some((alt.value, altEnd.value));
        }
      } else if !tried {
        NoRoomFromOpening(E, P, anchor, setup, need, start);
      }
      tried := true;
    }
    if !tried {
      forall t
        ensures !Ready(E, P, anchor, setup, t)
      {
      }
    }
    return None;
  }

  method Place(eqFree: Option<seq<Seg>>, others: seq<seq<Seg>>, anchor: int, setup: int, need: int)
      returns (r: Option<(int, int)>)
    requires eqFree.Some? ==> Canonical(eqFree.value)
    requires setup >= 0 && need >= 0
    ensures PlacementIn(RoomOf(eqFree, others), anchor, setup, need, r)
  {
    ghost var room := RoomOf(eqFree, others);
    var common := IntersectMany(others);
    if eqFree.Some? {
      if eqFree.value == [] {
        MinutesOfEmpty();
        NowhereToProcess(room.equipment.value, Common(room), anchor, setup, need);
        return None;
      }
      var procSegs := eqFree.value;
      if others != [] {
        procSegs := IntersectMany([eqFree.value, common]);
        IntersectionIsCommon(eqFree.value, common, others);
      } else {
        assert Common(room) == MinutesOf(procSegs);
      }
      r := PlaceOnEquipment(eqFree.value, procSegs, anchor, setup, need);
      return;
    }
    if common == [] {
      MinutesOfEmpty();
      assert Common(room) == iset{};
      return None;
    }
    assert Hit(common, 0, common[0].lo);
    assert common[0].lo in Common(room);
    r := EarliestSpan(common, anchor + setup, need);
  }

  lemma NowhereToProcess(E: iset<int>, P: iset<int>, anchor: int, setup: int, need: int)
    requires P == iset{}
    ensures EquipmentPlacement(E, P, anchor, setup, need, None)
  {
    forall t
      ensures !Ready(E, P, anchor, setup, t)
    {
    }
  }

  lemma IntersectionIsCommon(eqFree: seq<Seg>, common: seq<Seg>, others: seq<seq<Seg>>)
    requires others != [] && MinutesOf(common) == CommonOf(SetsOf(others))
    ensures CommonOf(SetsOf([eqFree, common])) == Common(RoomOf(Some(eqFree), others))
  {
    var sets := SetsOf([eqFree, common]);
    forall m: int
      ensures m in CommonOf(sets) <==> m in MinutesOf(eqFree) && m in MinutesOf(common)
    {
      if m in CommonOf(sets) {
        assert m in sets[0] && m in sets[1];
      }
    }
  }

  // ------------------------------------------------------------ the promises

  /** Processing can start on the working minute s and have its minutes by e. */
  ghost predicate Feasible(room: Room, anchor: int, setup: int, need: int, s: int, e: int) {
    && s in Common(room) && s <= e && CountIn(Common(room), s, e) >= need
    && match room.equipment
       case Some(E) => SetupDone(E, anchor, setup, s)
       case None => anchor + setup <= s
  }

  lemma PlacementUnique(room: Room, anchor: int, setup: int, need: int, r: Option<(int, int)>, r': Option<(int, int)>)
    requires need >= 0
    requires PlacementIn(room, anchor, setup, need, r) && PlacementIn(room, anchor, setup, need, r')
    ensures r == r'
  {
    match room.equipment {
      case Some(E) => EquipmentPlacementUnique(E, Common(room), anchor, setup, need, r, r');
      case None =>
        if Common(room) != iset{} {
          ManualPlacementUnique(Common(room), anchor + setup, need, r, r');
        }
    }
  }

  lemma EquipmentPlacementUnique(E: iset<int>, P: iset<int>, anchor: int, setup: int, need: int,
                                 r: Option<(int, int)>, r': Option<(int, int)>)
    requires EquipmentPlacement(E, P, anchor, setup, need, r) && EquipmentPlacement(E, P, anchor, setup, need, r')
    ensures r == r'
  {
    if r.Some? {
      assert CountIn(P, r.value.0, r.value.1) >= need;
      assert r'.Some?;
    }
    if r'.Some? {
      assert CountIn(P, r'.value.0, r'.value.1) >= need;
      assert r.value.0 == r'.value.0;
    }
  }

  lemma ManualPlacementUnique(P: iset<int>, minStart: int, need: int, r: Option<(int, int)>, r': Option<(int, int)>)
    requires EarliestSpanOf(P, minStart, need, r) && EarliestSpanOf(P, minStart, need, r')
    ensures r == r'
  {
    if need > 0 && r.Some? {
      NothingBeforeFirst(P, minStart, r.value.0);
    }
    if need > 0 && r'.Some? {
      NothingBeforeFirst(P, minStart, r'.value.0);
    }
  }

  /** What a placement holds: exactly the processing minutes asked for, each on every
      resource at once, with the setup behind the anchor. */
  lemma PlacementSound(room: Room, anchor: int, setup: int, need: int, s: int, e: int)
    requires setup >= 0 && need >= 0
    requires PlacementIn(room, anchor, setup, need, Some((s, e)))
    ensures s <= e && CountIn(Common(room), s, e) == need
    ensures anchor <= s - setup
    ensures room.equipment.Some? ==> CountIn(room.equipment.value, anchor, s) >= setup
    ensures need > 0 ==> e - 1 in Common(room)
  {
    var P := Common(room);
    match room.equipment {
      case Some(E) =>
        EarliestEndTight(P, s, need, e);
        CountAtMostLength(E, anchor, s);
      case None =>
        if need > 0 {
          EarliestEndTight(P, s, need, e);
        }
    }
  }

  /** No feasible processing start is earlier, and none ends earlier. */
  lemma PlacementBest(room: Room, anchor: int, setup: int, need: int, r: Option<(int, int)>, s': int, e': int)
    requires setup >= 0 && need >= 0
    requires PlacementIn(room, anchor, setup, need, r)
    requires Feasible(room, anchor, setup, need, s', e')
    ensures r.Some? && r.value.0 <= s' && r.value.1 <= e'
  {
    var P := Common(room);
    match room.equipment {
      case Some(E) =>
        assert OpenedBy(P, anchor, s', s');
        assert Ready(E, P, anchor, setup, s');
        assert CountIn(P, s', e') >= need;
        assert r.Some?;
        var (s, e) := r.value;
        assert s <= s';
        CountLaterStart(P, s, s', e');
      case None =>
        EarliestSpanOptimal(P, anchor + setup, need, r, s', e');
    }
  }

  /** A placement is returned only where a feasible start exists, at the first common
      working minute of the span returned. */
  lemma PlacementWitness(room: Room, anchor: int, setup: int, need: int, s: int, e: int) returns (s': int)
    requires setup >= 0 && need > 0
    requires PlacementIn(room, anchor, setup, need, Some((s, e)))
    ensures FirstAt(Common(room), s, s') && Feasible(room, anchor, setup, need, s', e)
  {
    var P := Common(room);
    PlacementSound(room, anchor, setup, need, s, e);
    s' := FirstWorking(P, s, e);
    CountSplit(P, s, s', e);
    forall t | s <= t < s'
      ensures t !in P
    {
      CountSplit(P, s, t, s');
      CountSplit(P, t, t + 1, s');
    }
    if room.equipment.Some? {
      CountMonotone(room.equipment.value, anchor, s, s');
    }
  }

  ghost predicate SomeFeasible(room: Room, anchor: int, setup: int, need: int) {
    exists s, e :: Feasible(room, anchor, setup, need, s, e)
  }

  /** Room for an operation of no processing minutes: on equipment a common working minute
      comes up and the setup gets done, each some time after the anchor; without equipment
      there is some common working minute. */
  ghost predicate SomeOpening(room: Room, anchor: int, setup: int) {
    match room.equipment
    case Some(E) => (exists p :: anchor <= p && p in Common(room)) && exists t :: SetupDone(E, anchor, setup, t)
    case None => Common(room) != iset{}
  }

  ghost predicate HasRoom(room: Room, anchor: int, setup: int, need: int) {
    if need > 0 then SomeFeasible(room, anchor, setup, need) else SomeOpening(room, anchor, setup)
  }

  /** Soundness and completeness: a span comes back exactly when there is room for one. */
  lemma PlacementComplete(room: Room, anchor: int, setup: int, need: int, r: Option<(int, int)>)
    requires setup >= 0 && need >= 0
    requires PlacementIn(room, anchor, setup, need, r)
    ensures r.Some? <==> HasRoom(room, anchor, setup, need)
  {
    if need == 0 {
      NothingToPlace(room, anchor, setup, r);
    } else {
      if r.Some? {
        var s' := PlacementWitness(room, anchor, setup, need, r.value.0, r.value.1);
      }
      if SomeFeasible(room, anchor, setup, need) {
        var s, e :| Feasible(room, anchor, setup, need, s, e);
        PlacementBest(room, anchor, setup, need, r, s, e);
      }
    }
  }

  lemma NothingToPlace(room: Room, anchor: int, setup: int, r: Option<(int, int)>)
    requires setup >= 0 && PlacementIn(room, anchor, setup, 0, r)
    ensures r.Some? <==> SomeOpening(room, anchor, setup)
  {
    if room.equipment.Some? {
      var E, P := room.equipment.value, Common(room);
      if r.Some? {
        var p :| OpenedBy(P, anchor, p, r.value.0);
      }
      if SomeOpening(room, anchor, setup) {
        var p :| anchor <= p && p in P;
        var t :| SetupDone(E, anchor, setup, t);
        var u := if p >= t then p else t;
        CountMonotone(E, anchor, t, u);
        assert OpenedBy(P, anchor, p, u);
        assert Ready(E, P, anchor, setup, u);
        assert CountIn(P, u, u) >= 0;
      }
    }
  }

  /** On equipment the reported start is a working minute of the combination, unless it is
      the very minute the setup completes. */
  lemma PlacementStart(E: iset<int>, P: iset<int>, anchor: int, setup: int, need: int, s: int, e: int)
    requires EquipmentPlacement(E, P, anchor, setup, need, Some((s, e)))
    ensures s in P || EarliestEnd(E, anchor, setup, Some(s))
  {
    if s !in P {
      var p :| OpenedBy(P, anchor, p, s);
      forall t | anchor <= t < s
        ensures CountIn(E, anchor, t) < setup
      {
        CountMonotone(E, anchor, t, s - 1);
        assert OpenedBy(P, anchor, p, s - 1);
        assert !Ready(E, P, anchor, setup, s - 1);
      }
    }
  }

  // ------------------------------------------------------------ the setup reserved

  lemma {:induction false} CountFull(M: iset<int>, lo: int, hi: int, m: int)
    requires lo <= m < hi && m !in M
    ensures CountIn(M, lo, hi) < hi - lo
  {
    CountSplit(M, lo, m, hi);
    CountSplit(M, m, m + 1, hi);
    CountAtMostLength(M, lo, m);
    CountAtMostLength(M, m + 1, hi);
    CountNone(M, m, m + 1);
  }

  /** Setup works on free minutes of the equipment, but what is reserved for it are the wall
      minutes just before processing. E is what is free on the equipment; whatever is free on
      the other resources, from whichever anchor, every placement reserves free minutes. */
  ghost predicate SetupAlwaysHeld(E: iset<int>) {
    forall P, anchor, setup, need, s, e :: PlacedWithSetup(E, P, anchor, setup, need, s, e) ==> Span(s - setup, s) <= E
  }

  ghost predicate PlacedWithSetup(E: iset<int>, P: iset<int>, anchor: int, setup: int, need: int, s: int, e: int) {
    P <= E && setup >= 0 && need >= 0 && EquipmentPlacement(E, P, anchor, setup, need, Some((s, e)))
  }

  /** Without a gap, the setup minutes worked are the last before processing. */
  lemma HeldWithoutGap(E: iset<int>, P: iset<int>, anchor: int, setup: int, need: int, s: int, e: int)
    requires !HasGap(E) && PlacedWithSetup(E, P, anchor, setup, need, s, e)
    ensures Span(s - setup, s) <= E
  {
    PlacementStart(E, P, anchor, setup, need, s, e);
    if setup > 0 && s !in P {
      EarliestEndTight(E, anchor, setup, s);
    }
    forall m | m in Span(s - setup, s)
      ensures m in E
    {
      if m !in E {
        var last := if s in P then s else s - 1;
        forall g | anchor <= g < m
          ensures g !in E
        {
          assert !GapAt(E, g, m, last);
        }
        CountAtMostLength(E, anchor, s);
        CountNone(E, anchor, m + 1);
        CountSplit(E, anchor, m + 1, s);
        CountAtMostLength(E, m + 1, s);
      }
    }
  }

  /** Over a gap, a setup of as many minutes as there are between is not all held. */
  lemma NotHeldOverGap(E: iset<int>, g: int, h: int, m: int)
    requires GapAt(E, g, h, m)
    ensures var P, setup := iset{m}, CountIn(E, g, m);
      PlacedWithSetup(E, P, g, setup, 1, m, m + 1) && !(Span(m - setup, m) <= E)
  {
    var P, setup := iset{m}, CountIn(E, g, m);
    assert OpenedBy(P, g, m, m);
    assert EarliestEnd(P, m, 1, Some(m + 1)) by {
      assert CountIn(P, m, m) == 0 && CountIn(P, m, m + 1) == 1;
    }
    CountFull(E, g, m, h);
    assert CountIn(E, g, g) == 0 && CountIn(E, g, g + 1) == 1;
    if Span(m - setup, m) <= E {
      CountAll(E, m - setup, m);
      CountSplit(E, g, m - setup, m);
      CountSplit(E, g, g + 1, m - setup);
    }
  }

  /** What is reserved for setup is free in every placement exactly when the free minutes of
      the equipment have no gap. */
  lemma SetupAlwaysHeldIff(E: iset<int>)
    ensures SetupAlwaysHeld(E) <==> !HasGap(E)
  {
    hide PlacedWithSetup;
    if HasGap(E) {
      var g, h, m :| GapAt(E, g, h, m);
      NotHeldOverGap(E, g, h, m);
    } else {
      forall P, anchor, setup, need, s, e | PlacedWithSetup(E, P, anchor, setup, need, s, e)
        ensures Span(s - setup, s) <= E
      {
        HeldWithoutGap(E, P, anchor, setup, need, s, e);
      }
    }
  }

  /** A setup that begins before a break, or before another operation's reservation, and ends
      after it reserves closed or taken minutes in place of the ones it worked. */
  lemma SetupHoldsTakenMinutes(a: int, b: int, c: int, d: int, setup: int, need: int)
    requires a < b < c && setup > b - a && need >= 1 && c + setup - (b - a) + need <= d
    ensures var E, s := Span(a, b) + Span(c, d), c + setup - (b - a);
      EquipmentPlacement(E, E, a, setup, need, Some((s, s + need))) && c - 1 in Span(s - setup, s) && c - 1 !in E
  {
    var E, s := Span(a, b) + Span(c, d), c + setup - (b - a);
    CountAll(E, a, b);
    CountNone(E, b, c);
    CountAll(E, c, s);
    CountSplit(E, a, b, c);
    CountSplit(E, a, c, s);
    forall e | a <= e < s
      ensures CountIn(E, a, e) < setup
    {
      CountMonotone(E, a, e, s - 1);
      CountSplit(E, a, s - 1, s);
      CountAll(E, s - 1, s);
    }
    CountAll(E, s, s + need);
    forall e | s <= e < s + need
      ensures CountIn(E, s, e) < need
    {
      CountAtMostLength(E, s, e);
    }
    PlacedAfterSetup(E, E, a, setup, need, a, s, Some(s + need));
  }
}

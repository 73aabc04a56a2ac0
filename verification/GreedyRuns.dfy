/** Schedules as runs of greedy placements, whatever their order, and what they reserve. */
module GreedyRuns {
  import opened Minutes
  import opened Bundle
  import opened Occupancy
  import opened Eligibility
  import opened Placement
  import opened Schedule

  ghost function ViewAfter(b: Bundle, asWritten: bool, h: seq<Placed>): View {
    View(b, asWritten, AllReservations(h))
  }

  ghost predicate GreedyStep(b: Bundle, asWritten: bool, h: seq<Placed>, x: Placed)
  {
    && x.line < |b.lines| && x.op < |OpsOf(b, x.line)|
    && Chosen(ViewAfter(b, asWritten, h), Job(OpsOf(b, x.line)[x.op], x.meta, x.qty, x.anchor), x)
  }

  ghost predicate GreedyAt(b: Bundle, asWritten: bool, h: seq<Placed>, i: nat)
    requires i < |h|
  {
    GreedyStep(b, asWritten, h[..i], h[i])
  }

  /** Every operation of h was the greedy choice given the ones before it. */
  ghost predicate GreedyRun(b: Bundle, asWritten: bool, h: seq<Placed>)
  {
    forall i :: 0 <= i < |h| ==> GreedyAt(b, asWritten, h, i)
  }

  /** x, placed after `before`, does processing work on the resource at minute m: m is in its
      span and was free on all of its combination. There are exactly as many such minutes as
      the operation needs. */
  ghost predicate WorksAt(b: Bundle, asWritten: bool, before: seq<Placed>, x: Placed, key: Key, m: int) {
    key in KeysOf(x.combo) && x.start <= m < x.end && m in Common(RoomFor(ViewAfter(b, asWritten, before), x.combo))
  }

  /** How many operations work on the resource at minute m. */
  ghost function WorkCount(b: Bundle, asWritten: bool, h: seq<Placed>, key: Key, m: int): nat {
    if h == [] then 0
    else WorkCount(b, asWritten, h[..|h| - 1], key, m)
         + (if WorksAt(b, asWritten, h[..|h| - 1], h[|h| - 1], key, m) then 1 else 0)
  }

  /** The calendars on which the code as written is safe; with line 84 left out, all. */
  ghost predicate SafeCalendars(b: Bundle, asWritten: bool) {
    asWritten ==> forall key :: OneStretch(WindowSet(b, key), UaSet(b, key))
  }

  // ------------------------------------------------------------ reservations

  lemma {:induction false} OnlyAppend(key: Key, xs: seq<Interval>, ys: seq<Interval>)
    ensures Only(key, xs + ys) == Only(key, xs) + Only(key, ys)
  {
    if ys == [] {
      assert xs + ys == xs;
    } else {
      OnlyAppend(key, xs, ys[..|ys| - 1]);
      assert (xs + ys)[..|xs + ys| - 1] == xs + ys[..|ys| - 1];
    }
  }

  lemma {:induction false} CoverCountAppend(xs: seq<Alloc>, ys: seq<Alloc>, m: int)
    ensures CoverCount(xs + ys, m) == CoverCount(xs, m) + CoverCount(ys, m)
  {
    if ys == [] {
      assert xs + ys == xs;
    } else {
      CoverCountAppend(xs, ys[..|ys| - 1], m);
      assert (xs + ys)[..|xs + ys| - 1] == xs + ys[..|ys| - 1];
    }
  }

  /** A reservation in the list holds its minutes. */
  lemma {:induction false} HeldByMember(key: Key, booked: seq<Interval>, i: nat, m: int)
    requires i < |booked| && booked[i].key == key && booked[i].alloc.start <= m < booked[i].alloc.end
    ensures CoverCount(Only(key, booked), m) >= 1
  {
    var front := booked[..|booked| - 1];
    var last := booked[|booked| - 1];
    var one := if last.key == key then [last.alloc] else [];
    CoverCountAppend(Only(key, front), one, m);
    if i < |front| {
      HeldByMember(key, front, i, m);
    } else {
      assert one[..|one| - 1] == [];
    }
  }

  lemma {:induction false} ToolingHolds(tooling: seq<Tooling>, a: Alloc, key: Key)
    requires key in ToolingKeys(tooling)
    ensures Interval(key, a) in ToolingReservations(tooling, a)
  {
    if key != Key(TOOLING, tooling[0].code) {
      ToolingHolds(tooling[1..], a, key);
    }
  }

  /** An operation reserves each of its resources for all of its processing span. */
  lemma ReservesItsSpan(x: Placed, key: Key) returns (i: nat)
    requires key in KeysOf(x.combo)
    ensures i < |Reservations(x)| && Reservations(x)[i].key == key
    ensures Reservations(x)[i].alloc.start <= x.start && Reservations(x)[i].alloc.end == x.end
  {
    var held := Alloc(x.start, x.end, x.sid, x.meta);
    var r := Reservations(x);
    if x.combo.equipment.Some? && key == Key(EQUIPMENT, x.combo.equipment.value.code) {
      i := 0;
    } else {
      assert key in OtherKeys(x.combo);
      if key in ToolingKeys(x.combo.tooling) {
        ToolingHolds(x.combo.tooling, held, key);
      }
      assert Interval(key, held) in r;
      i :| 0 <= i < |r| && r[i] == Interval(key, held);
    }
  }

  lemma {:induction false} ToolingHeld(tooling: seq<Tooling>, a: Alloc, key: Key, m: int)
    ensures CoverCount(Only(key, ToolingReservations(tooling, a)), m)
            == if key.kind == TOOLING && a.start <= m < a.end then Tools(tooling, key.code) else 0
    ensures key in ToolingKeys(tooling) <==> key.kind == TOOLING && Tools(tooling, key.code) > 0
  {
    if tooling != [] {
      var first := Interval(Key(TOOLING, tooling[0].code), a);
      ToolingHeld(tooling[1..], a, key, m);
      OneHeld(first, key, m);
      OnlyAppend(key, [first], ToolingReservations(tooling[1..], a));
      CoverCountAppend(Only(key, [first]), Only(key, ToolingReservations(tooling[1..], a)), m);
    }
  }

  lemma OneHeld(iv: Interval, key: Key, m: int)
    ensures CoverCount(Only(key, [iv]), m) == if iv.key == key && iv.alloc.start <= m < iv.alloc.end then 1 else 0
  {
    assert [iv][..0] == [] && [iv.alloc][..0] == [];
    assert Only(key, [iv]) == if iv.key == key then [iv.alloc] else [];
  }

  lemma HeldTogether(xs: seq<Interval>, ys: seq<Interval>, key: Key, m: int)
    ensures CoverCount(Only(key, xs + ys), m) == CoverCount(Only(key, xs), m) + CoverCount(Only(key, ys), m)
  {
    OnlyAppend(key, xs, ys);
    CoverCountAppend(Only(key, xs), Only(key, ys), m);
  }

  lemma MachineHeld(x: Placed, key: Key, m: int)
    ensures CoverCount(Only(key, EquipmentReservation(x)), m)
            == if key.kind == EQUIPMENT && x.start - x.setup <= m < x.end then Units(x.combo, key) else 0
  {
    if x.combo.equipment.Some? {
      OneHeld(EquipmentReservation(x)[0], key, m);
    }
  }

  lemma PersonHeld(c: Combo, a: Alloc, key: Key, m: int)
    ensures CoverCount(Only(key, PersonReservation(c.person, a)), m)
            == if key.kind == PERSON && a.start <= m < a.end then Units(c, key) else 0
  {
    if c.person.Some? {
      OneHeld(PersonReservation(c.person, a)[0], key, m);
    }
  }

  lemma StationHeld(c: Combo, a: Alloc, key: Key, m: int)
    ensures CoverCount(Only(key, StationReservation(c.station, a)), m)
            == if key.kind == STATION && a.start <= m < a.end then Units(c, key) else 0
  {
    if c.station.Some? {
      OneHeld(StationReservation(c.station, a)[0], key, m);
    }
  }

  /** An operation reserves as much of each resource as its combination takes, a machine from
      the start of its setup and the others from the start of processing, to its end. */
  lemma ReservesExactly(x: Placed, key: Key, m: int)
    ensures CoverCount(Only(key, Reservations(x)), m)
            == if (if key.kind == EQUIPMENT then x.start - x.setup else x.start) <= m < x.end
               then Units(x.combo, key) else 0
  {
    var held := Alloc(x.start, x.end, x.sid, x.meta);
    var machine, person, station := EquipmentReservation(x), PersonReservation(x.combo.person, held),
      StationReservation(x.combo.station, held);
    var tooling := ToolingReservations(x.combo.tooling, held);
    assert Reservations(x) == machine + person + station + tooling;
    MachineHeld(x, key, m);
    PersonHeld(x.combo, held, key, m);
    StationHeld(x.combo, held, key, m);
    ToolingHeld(x.combo.tooling, held, key, m);
    hide CoverCount, Only, EquipmentReservation, PersonReservation, StationReservation, ToolingReservations,
      Reservations;
    HeldTogether(machine, person, key, m);
    HeldTogether(machine + person, station, key, m);
    HeldTogether(machine + person + station, tooling, key, m);
  }

  lemma {:induction false} ToolingUnder(tooling: seq<Tooling>, a: Alloc)
    ensures forall iv :: iv in ToolingReservations(tooling, a) ==> iv.alloc == a
  {
    if tooling != [] {
      ToolingUnder(tooling[1..], a);
    }
  }

  /** Every reservation is kept under the id, product and family of its operation. */
  lemma ReservedUnder(x: Placed, iv: Interval)
    requires iv in Reservations(x)
    ensures iv.alloc.sid == x.sid && iv.alloc.meta == x.meta && iv.alloc.end == x.end
  {
    ToolingUnder(x.combo.tooling, Alloc(x.start, x.end, x.sid, x.meta));
  }

  /** An operation is on a resource exactly when its combination takes some of it. */
  lemma KeysAre(c: Combo, key: Key)
    ensures key in KeysOf(c) <==> Units(c, key) > 0
  {
    ToolingHeld(c.tooling, Alloc(0, 0, Sid("", "", 0, None), OpMeta("", None)), key, 0);
  }

  // ------------------------------------------------------------ runs

  lemma GreedyRunAt(b: Bundle, asWritten: bool, h: seq<Placed>, i: nat)
    requires ValidBundle(b) && GreedyRun(b, asWritten, h) && i < |h|
    ensures GreedyRun(b, asWritten, h[..i]) && GreedyStep(b, asWritten, h[..i], h[i])
  {
    hide GreedyStep, ValidBundle;
    assert GreedyAt(b, asWritten, h, i);
    forall j | 0 <= j < i
      ensures GreedyAt(b, asWritten, h[..i], j)
    {
      assert GreedyAt(b, asWritten, h, j);
      assert h[..i][..j] == h[..j];
    }
  }

  lemma StepSound(b: Bundle, asWritten: bool, h: seq<Placed>, x: Placed)
    requires ValidBundle(b) && ValidView(ViewAfter(b, asWritten, h)) && GreedyStep(b, asWritten, h, x)
    ensures x.start <= x.end && x.anchor <= x.PlanStart()
  {
    ChosenSound(ViewAfter(b, asWritten, h), Job(OpsOf(b, x.line)[x.op], x.meta, x.qty, x.anchor), x);
  }

  lemma {:induction false} RunReservationsProper(b: Bundle, asWritten: bool, h: seq<Placed>)
    requires ValidBundle(b) && GreedyRun(b, asWritten, h)
    ensures ProperBooked(AllReservations(h))
  {
    hide ValidBundle, GreedyStep, GreedyRun, Reservations;
    if h != [] {
      GreedyRunAt(b, asWritten, h, |h| - 1);
      RunReservationsProper(b, asWritten, h[..|h| - 1]);
      StepSound(b, asWritten, h[..|h| - 1], h[|h| - 1]);
      ReservationsProper(h[|h| - 1]);
    }
  }

  lemma {:induction false} ToolingProper(tooling: seq<Tooling>, a: Alloc)
    requires a.start <= a.end
    ensures ProperBooked(ToolingReservations(tooling, a))
  {
    if tooling != [] {
      ToolingProper(tooling[1..], a);
    }
  }

  lemma ReservationsProper(x: Placed)
    requires x.start <= x.end
    ensures ProperBooked(Reservations(x))
  {
    ToolingProper(x.combo.tooling, Alloc(x.start, x.end, x.sid, x.meta));
  }
}

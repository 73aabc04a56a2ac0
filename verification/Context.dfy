/** The run context: the resources of one scheduling run, created on first use, and the
    reservations made on them. */
module Context {
  import opened Minutes
  import opened Intervals
  import opened Bundle
  import opened Occupancy
  import opened Eligibility
  import opened Placement
  import opened Schedule

  /** Windows (or unavailability) grouped by calendar (or resource), each group merged. */
  ghost predicate Grouped<K(!new)>(pairs: seq<(K, Seg)>, groups: map<K, seq<Seg>>) {
    forall k :: MinutesOf(if k in groups then groups[k] else []) == MinutesOf(SegsFor(pairs, k))
  }

  method Group<K(==, !new)>(pairs: seq<(K, Seg)>) returns (groups: map<K, seq<Seg>>)
    ensures Grouped(pairs, groups)
  {
    var raw: map<K, seq<Seg>> := map[];
    for i := 0 to |pairs|
      invariant forall k :: (if k in raw then raw[k] else []) == SegsFor(pairs[..i], k)
    {
      var (k, seg) := pairs[i];
      assert pairs[..i + 1][..i] == pairs[..i];
      raw := raw[k := (if k in raw then raw[k] else []) + [seg]];
    }
    assert pairs[..|pairs|] == pairs;
    groups := map[];
    var keys := raw.Keys;
    while keys != {}
      invariant keys <= raw.Keys && groups.Keys == raw.Keys - keys
      invariant forall k :: k in groups ==> MinutesOf(groups[k]) == MinutesOf(raw[k])
      decreases keys
    {
      var k :| k in keys;
      var merged := Merge(raw[k]);
      groups := groups[k := merged];
      keys := keys - {k};
    }
  }

  datatype Choice =
    | Picked(combo: Combo, setup: nat, processing: int, start: int, end: int)
    | NothingFeasible
    | NoEligible
    | InvalidYield

  class RunContext {
    const b: Bundle
    const asWritten: bool
    const windowsByRef: map<string, seq<Seg>>
    const uaBy: map<Key, seq<Seg>>
    var byCode: map<Key, Resource>
    /** Every reservation made so far. */
    ghost var booked: seq<Interval>

    ghost function Repr(): set<object>
      reads this
    {
      {this} + byCode.Values
    }

    ghost predicate ResourceOk(key: Key, r: Resource)
      reads this, r
    {
      && r.key == key && EntryOf(b, key).Some? && r.cap == CapOf(b, key) && r.cap >= 1
      && MinutesOf(r.windows) == WindowSet(b, key) && MinutesOf(r.ua) == UaSet(b, key)
      && r.allocs == Only(key, booked)
    }

    ghost predicate Valid()
      reads this, byCode.Values
    {
      && ValidView(Now())
      && Grouped(b.working, windowsByRef) && Grouped(b.unavailability, uaBy)
      && (forall key :: key in byCode ==> ResourceOk(key, byCode[key]))
      && (forall i :: 0 <= i < |booked| ==> booked[i].key in byCode)
    }

    /** What the next placement decision sees. */
    ghost function Now(): (v: View)
      reads this
      ensures v.b == b
    {
      View(b, asWritten, booked)
    }

    constructor (b: Bundle, asWritten: bool)
      requires ValidBundle(b)
      ensures Valid() && fresh(Repr())
      ensures this.b == b && this.asWritten == asWritten && booked == []
    {
      var windows := Group(b.working);
      var ua := Group(b.unavailability);
      this.b, this.asWritten := b, asWritten;
      windowsByRef, uaBy := windows, ua;
      byCode := map[];
      booked := [];
    }

    /** A resource not used before, with its calendar and unavailability. */
    method NewResource(key: Key, entry: Entry) returns (r: Resource)
      requires Valid() && key !in byCode && EntryOf(b, key) == Some(entry)
      ensures fresh(r) && ResourceOk(key, r)
    {
      EntryCapacity(b, key);
      var ref := entry.calendarRef;
      var windows := if ref in windowsByRef then windowsByRef[ref] else [];
      var ua := if key in uaBy then uaBy[key] else [];
      r := new Resource(key, entry.cap, windows, ua);
      NothingBooked(key, booked);
    }

    /** The resource of a code, created when first asked for; None when the snapshot has no
        such code. */
    method ResourceFor(kind: Kind, code: string) returns (res: Option<Resource>)
      requires Valid()
      modifies this
      ensures Valid() && Now() == old(Now()) && fresh(Repr() - old(Repr()))
      ensures res.None? <==> EntryOf(b, Key(kind, code)).None?
      ensures res.Some? ==> Key(kind, code) in byCode && res.value == byCode[Key(kind, code)]
      ensures res.Some? ==> HasCapacity(b, Key(kind, code), res.value.cap)
    {
      hide Grouped, EntryOf, WindowSet, UaSet, CapOf, MinutesOf, ValidBundle, Only, ProperBooked, HasCapacity;
      var key := Key(kind, code);
      CapacityIs(b, key);
      if key in byCode {
        return Some(byCode[key]);
      }
      var entry := EntryOf(b, key);
      if entry.None? {
        return None;
      }
      var r := NewResource(key, entry.value);
      byCode := byCode[key := r];
      return Some(r);
    }

    lemma NothingBooked(key: Key, booked: seq<Interval>)
      requires forall i :: 0 <= i < |booked| ==> booked[i].key != key
      ensures Only(key, booked) == []
    {
    }

    lemma OnlyProper(key: Key, booked: seq<Interval>)
      requires forall i :: 0 <= i < |booked| ==> booked[i].alloc.start <= booked[i].alloc.end
      ensures Proper(Only(key, booked))
    {
    }

    /** The free segments of one resource. */
    method FreeFor(kind: Kind, code: string) returns (segs: seq<Seg>)
      requires Valid() && EntryOf(b, Key(kind, code)).Some?
      modifies this
      ensures Valid() && Now() == old(Now()) && fresh(Repr() - old(Repr()))
      ensures Canonical(segs) && MinutesOf(segs) == FreeOf(Now(), Key(kind, code))
    {
      var res := ResourceFor(kind, code);
      OnlyProper(Key(kind, code), booked);
      segs := res.value.FreeSegments(asWritten);
    }

    /** The free segments of the resources of a combination other than its equipment. */
    method OthersFree(combo: Combo) returns (others: seq<seq<Seg>>)
      requires Valid()
      requires forall key :: key in OtherKeys(combo) ==> EntryOf(b, key).Some?
      modifies this
      ensures Valid() && Now() == old(Now()) && fresh(Repr() - old(Repr()))
      ensures SetsOf(others) == FreeOfAll(Now(), OtherKeys(combo))
    {
      hide FreeOf, EntryOf, Valid, SetsOf, FreeOfAll, ToolingKeys;
      var persons, stations := [], [];
      if combo.person.Some? {
        assert Key(PERSON, combo.person.value.code) in OtherKeys(combo);
        persons := OneFree(PERSON, combo.person.value.code);
      }
      assert SetsOf(persons) == FreeOfAll(Now(), PersonKeys(combo.person));
      if combo.station.Some? {
        assert Key(STATION, combo.station.value.code) in OtherKeys(combo);
        stations := OneFree(STATION, combo.station.value.code);
      }
      assert SetsOf(stations) == FreeOfAll(Now(), StationKeys(combo.station));
      var pools := ToolingFree(combo.tooling);
      SetsOfConcat(persons, stations);
      SetsOfConcat(persons + stations, pools);
      FreeOfAllConcat(Now(), PersonKeys(combo.person), StationKeys(combo.station));
      FreeOfAllConcat(Now(), PersonKeys(combo.person) + StationKeys(combo.station), ToolingKeys(combo.tooling));
      others := persons + stations + pools;
    }

    method OneFree(kind: Kind, code: string) returns (lists: seq<seq<Seg>>)
      requires Valid() && EntryOf(b, Key(kind, code)).Some?
      modifies this
      ensures Valid() && Now() == old(Now()) && fresh(Repr() - old(Repr()))
      ensures SetsOf(lists) == FreeOfAll(Now(), [Key(kind, code)])
    {
      var segs := FreeFor(kind, code);
      lists := [segs];
    }

    method ToolingFree(tooling: seq<Tooling>) returns (pools: seq<seq<Seg>>)
      requires Valid()
      requires forall key :: key in ToolingKeys(tooling) ==> EntryOf(b, key).Some?
      modifies this
      ensures Valid() && Now() == old(Now()) && fresh(Repr() - old(Repr()))
      ensures SetsOf(pools) == FreeOfAll(Now(), ToolingKeys(tooling))
    {
      pools := [];
      for i := 0 to |tooling|
        invariant Valid() && Now() == old(Now()) && fresh(Repr() - old(Repr()))
        invariant SetsOf(pools) == FreeOfAll(Now(), ToolingKeys(tooling[..i]))
      {
        ToolingKeysAppend(tooling, i);
        var segs := FreeFor(TOOLING, tooling[i].code);
        SetsOfConcat(pools, [segs]);
        FreeOfAllConcat(Now(), ToolingKeys(tooling[..i]), [Key(TOOLING, tooling[i].code)]);
        pools := pools + [segs];
        assert SetsOf([segs]) == FreeOfAll(Now(), [Key(TOOLING, tooling[i].code)]);
      }
      assert tooling[..|tooling|] == tooling;
    }

    /** `_place_processing`: the earliest placement on one combination. */
    method PlaceProcessing(combo: Combo, anchor: int, setup: nat, processing: int) returns (r: Option<(int, int)>)
      requires Valid() && processing >= 0
      requires forall key :: key in KeysOf(combo) ==> EntryOf(b, key).Some?
      modifies this
      ensures Valid() && Now() == old(Now()) && fresh(Repr() - old(Repr()))
      ensures PlacementIn(RoomFor(Now(), combo), anchor, setup, processing, r)
    {
      var others := OthersFree(combo);
      var eqFree := None;
      if combo.equipment.Some? {
        assert Key(EQUIPMENT, combo.equipment.value.code) in KeysOf(combo);
        var segs := FreeFor(EQUIPMENT, combo.equipment.value.code);
        eqFree := Some(segs);
      }
      assert RoomOf(eqFree, others) == RoomFor(Now(), combo);
      r := Place(eqFree, others, anchor, setup, processing);
    }

    /** Setup minutes on this combination, after the operation that held the equipment last. */
    method SetupMinutes(op: Operation, meta: OpMeta, combo: Combo) returns (setup: nat)
      requires Valid()
      requires forall key :: key in KeysOf(combo) ==> EntryOf(b, key).Some?
      modifies this
      ensures Valid() && Now() == old(Now()) && fresh(Repr() - old(Repr()))
      ensures setup == SetupFor(b, booked, op, meta, combo) && SetupIs(b, booked, op, meta, combo, setup)
    {
      hide SetupIs;
      SetupForIs(b, booked, op, meta, combo);
      if combo.equipment.None? {
        return op.setupMinutes;
      }
      assert Key(EQUIPMENT, combo.equipment.value.code) in KeysOf(combo);
      var res := ResourceFor(EQUIPMENT, combo.equipment.value.code);
      match LastByStart(res.value.allocs) {
        case None => setup := op.setupMinutes;
        case Some(prev) => setup := SetupAfter(b.setupMatrix, op.setupMinutes, meta, prev.meta);
      }
    }

    /** One combination tried: how long the job takes there, and where it would go. */
    method TryCombo(job: Job, combo: Combo) returns (processing: Option<int>, setup: nat, r: Option<(int, int)>)
      requires Valid() && ValidJob(job)
      requires Combos(b, job.op).Some? && combo in Combos(b, job.op).value
      modifies this
      ensures Valid() && Now() == old(Now()) && fresh(Repr() - old(Repr()))
      ensures processing.None? ==> !YieldRateOk(job.op)
      ensures processing.Some? ==> Tried(Now(), job, combo, processing.value, setup, r)
    {
      hide ComboFits, LeastMinutes, SetupIs, KeysOf;
      CombosAreFitting(b, job.op, combo);
      FittingEntries(b, job.op, combo);
      processing := ProcessingMinutes(job.op, job.qty, combo.equipment);
      if processing.None? {
        return None, 0, None;
      }
      ProcessingMinutesAreLeast(job.op, job.qty, combo.equipment);
      setup := SetupMinutes(job.op, job.meta, combo);
      r := PlaceProcessing(combo, job.anchor, setup, processing.value);
    }

    /** The greedy choice for one operation: the loop over its combinations. */
    method ChooseCombo(job: Job) returns (c: Choice)
      requires Valid() && ValidJob(job)
      modifies this
      ensures Valid() && Now() == old(Now()) && fresh(Repr() - old(Repr()))
      ensures c.NoEligible? <==> Combos(b, job.op).None?
      ensures c.Picked? ==> PickedRight(Now(), job, c)
      ensures c.NothingFeasible? ==> NoneFeasible(Now(), job)
      ensures c.InvalidYield? ==> !YieldRateOk(job.op)
    {
      hide Valid, Now, Tried, Combos, Leading, PickedRight, NoneFeasible, ValidJob, YieldRateOk;
      var all := Combos(b, job.op);
      if all.None? {
        return NoEligible;
      }
      var combos := all.value;
      var best: Option<Pick> := None;
      var bestSetup, bestProcessing := 0, 0;
      LeadingStart(Now(), job, combos);
      for k := 0 to |combos|
        invariant Valid() && Now() == old(Now()) && fresh(Repr() - old(Repr()))
        invariant Leading(Now(), job, combos, k, best, bestSetup, bestProcessing)
      {
        var combo := combos[k];
        var processing, setup, r := TryCombo(job, combo);
        if processing.None? {
          return InvalidYield;
        }
        LeadingStep(Now(), job, combos, k, best, bestSetup, bestProcessing, setup, processing.value, r);
        if r.Some? && (best.None? || r.value.0 < best.value.start) {
          best := Some(Pick(k, r.value.0, r.value.1));
          bestSetup, bestProcessing := setup, processing.value;
        }
      }
      LeadingDone(Now(), job, combos, best, bestSetup, bestProcessing);
      if best.None? {
        return NothingFeasible;
      }
      return Picked(combos[best.value.k], bestSetup, bestProcessing, best.value.start, best.value.end);
    }

    method Reserve(kind: Kind, code: string, start: int, end: int, sid: Sid, meta: OpMeta, intervals: seq<Interval>)
        returns (out: seq<Interval>)
      requires Valid() && start <= end && EntryOf(b, Key(kind, code)).Some?
      modifies this, Repr()
      ensures Valid() && fresh(Repr() - old(Repr()))
      ensures out == intervals + [Interval(Key(kind, code), Alloc(start, end, sid, meta))]
      ensures booked == old(booked) + [Interval(Key(kind, code), Alloc(start, end, sid, meta))]
    {
      hide Grouped, EntryOf, WindowSet, UaSet, CapOf, MinutesOf, ValidBundle;
      var res := ResourceFor(kind, code);
      var a := Alloc(start, end, sid, meta);
      ghost var was := booked;
      res.value.allocs := res.value.allocs + [a];
      booked := booked + [Interval(Key(kind, code), a)];
      assert booked[..|booked| - 1] == was;
      out := intervals + [Interval(Key(kind, code), a)];
    }

    /** Reserve every resource of a placed operation as one combination. */
    method ReserveAll(x: Placed, intervals: seq<Interval>) returns (out: seq<Interval>)
      requires Valid() && x.start <= x.end
      requires forall key :: key in KeysOf(x.combo) ==> EntryOf(b, key).Some?
      modifies this, Repr()
      ensures Valid() && fresh(Repr() - old(Repr()))
      ensures out == intervals + Reservations(x)
      ensures booked == old(booked) + Reservations(x)
    {
      hide Valid, EntryOf, ToolingReservations, ToolingKeys;
      out := intervals;
      var held := Alloc(x.start, x.end, x.sid, x.meta);
      if x.combo.equipment.Some? {
        assert Key(EQUIPMENT, x.combo.equipment.value.code) in KeysOf(x.combo);
        out := Reserve(EQUIPMENT, x.combo.equipment.value.code, x.start - x.setup, x.end, x.sid, x.meta, out);
      }
      assert booked == old(booked) + EquipmentReservation(x);
      assert out == intervals + EquipmentReservation(x);
      out := ReservePersonAndStation(x.combo, held, out);
      out := ReserveTooling(x.combo.tooling, held, out);
      assert Reservations(x) == EquipmentReservation(x)
        + (PersonReservation(x.combo.person, held) + StationReservation(x.combo.station, held))
        + ToolingReservations(x.combo.tooling, held);
    }

    method ReservePersonAndStation(c: Combo, held: Alloc, intervals: seq<Interval>) returns (out: seq<Interval>)
      requires Valid() && held.start <= held.end
      requires forall key :: key in KeysOf(c) ==> EntryOf(b, key).Some?
      modifies this, Repr()
      ensures Valid() && fresh(Repr() - old(Repr()))
      ensures out == intervals + (PersonReservation(c.person, held) + StationReservation(c.station, held))
      ensures booked == old(booked) + (PersonReservation(c.person, held) + StationReservation(c.station, held))
    {
      hide Valid, EntryOf;
      out := intervals;
      if c.person.Some? {
        assert Key(PERSON, c.person.value.code) in KeysOf(c);
        out := Reserve(PERSON, c.person.value.code, held.start, held.end, held.sid, held.meta, out);
      }
      if c.station.Some? {
        assert Key(STATION, c.station.value.code) in KeysOf(c);
        out := Reserve(STATION, c.station.value.code, held.start, held.end, held.sid, held.meta, out);
      }
    }

    method ReserveTooling(tooling: seq<Tooling>, a: Alloc, intervals: seq<Interval>) returns (out: seq<Interval>)
      requires Valid() && a.start <= a.end
      requires forall key :: key in ToolingKeys(tooling) ==> EntryOf(b, key).Some?
      modifies this, Repr()
      ensures Valid() && fresh(Repr() - old(Repr()))
      ensures out == intervals + ToolingReservations(tooling, a)
      ensures booked == old(booked) + ToolingReservations(tooling, a)
    {
      hide Valid, EntryOf, ToolingReservations, ToolingKeys;
      out := intervals;
      NoToolingReservations(a);
      for i := 0 to |tooling|
        invariant Valid() && fresh(Repr() - old(Repr()))
        invariant out == intervals + ToolingReservations(tooling[..i], a)
        invariant booked == old(booked) + ToolingReservations(tooling[..i], a)
      {
        ToolingKeysAppend(tooling, i);
        ToolingReservationsAppend(tooling, i, a);
        out := Reserve(TOOLING, tooling[i].code, a.start, a.end, a.sid, a.meta, out);
      }
      assert tooling[..|tooling|] == tooling;
    }
  }

  lemma {:induction false} ToolingReservationsConcat(xs: seq<Tooling>, ys: seq<Tooling>, a: Alloc)
    ensures ToolingReservations(xs + ys, a) == ToolingReservations(xs, a) + ToolingReservations(ys, a)
  {
    if xs == [] {
      assert xs + ys == ys;
    } else {
      var zs, first := xs + ys, [Interval(Key(TOOLING, xs[0].code), a)];
      assert zs[1..] == xs[1..] + ys;
      assert ToolingReservations(zs, a) == first + ToolingReservations(zs[1..], a);
      assert ToolingReservations(xs, a) == first + ToolingReservations(xs[1..], a);
      hide ToolingReservations;
      ToolingReservationsConcat(xs[1..], ys, a);
    }
  }

  lemma NoToolingReservations(a: Alloc)
    ensures ToolingReservations([], a) == []
  {
  }

  lemma ToolingReservationsAppend(tooling: seq<Tooling>, i: nat, a: Alloc)
    requires i < |tooling|
    ensures ToolingReservations(tooling[..i + 1], a)
            == ToolingReservations(tooling[..i], a) + [Interval(Key(TOOLING, tooling[i].code), a)]
  {
    ToolingReservationsConcat(tooling[..i], [tooling[i]], a);
    assert tooling[..i + 1] == tooling[..i] + [tooling[i]];
  }

  /** The choice is the best over all combinations. */
  ghost predicate PickedRight(v: View, job: Job, c: Choice)
    requires c.Picked?
  {
    && ValidJob(job) && ValidCombo(c.combo)
    && Combos(v.b, job.op).Some? && c.combo in Combos(v.b, job.op).value
    && c.setup == SetupFor(v.b, v.booked, job.op, job.meta, c.combo)
    && ProcessingMinutes(job.op, job.qty, c.combo.equipment) == Some(c.processing) && c.processing >= 0
    && var combos := Combos(v.b, job.op).value;
       exists k :: 0 <= k < |combos| && combos[k] == c.combo
                   && BestOf(v, job, combos, |combos|, Some(Pick(k, c.start, c.end)))
  }

  ghost predicate NoneFeasible(v: View, job: Job) {
    Combos(v.b, job.op).Some?
    && forall c :: c in Combos(v.b, job.op).value ==> Candidate(v, job, c, None)
  }

  lemma BestOfStep(v: View, job: Job, combos: seq<Combo>, k: nat, r: Option<(int, int)>, best: Option<Pick>,
                   best': Option<Pick>)
    requires k < |combos| && BestOf(v, job, combos, k, best) && Candidate(v, job, combos[k], r)
    requires best' == if r.Some? && (best.None? || r.value.0 < best.value.start)
                      then Some(Pick(k, r.value.0, r.value.1)) else best
    ensures BestOf(v, job, combos, k + 1, best')
  {
    hide Candidate;
    if best'.Some? {
      var p := best'.value;
      forall j | 0 <= j < k + 1
        ensures Outdone(v, job, combos[j], j, p)
      {
        if j == k {
          assert Candidate(v, job, combos[j], r);
        } else if best.Some? {
          assert Outdone(v, job, combos[j], j, best.value);
          var q :| Candidate(v, job, combos[j], q)
                   && (q.Some? ==>
                         best.value.start < q.value.0 || (best.value.start == q.value.0 && best.value.k <= j));
          assert Candidate(v, job, combos[j], q);
        } else {
          assert Candidate(v, job, combos[j], None);
        }
      }
    }
  }

  ghost predicate Tried(v: View, job: Job, c: Combo, processing: int, setup: nat, r: Option<(int, int)>) {
    && Candidate(v, job, c, r) && setup == SetupFor(v.b, v.booked, job.op, job.meta, c)
    && ProcessingMinutes(job.op, job.qty, c.equipment) == Some(processing)
  }

  /** The leader of the first n combinations, with its setup and processing minutes. */
  ghost predicate Leading(v: View, job: Job, combos: seq<Combo>, n: nat, best: Option<Pick>, setup: nat,
                          processing: int) {
    && n <= |combos| && BestOf(v, job, combos, n, best)
    && (best.Some? ==>
          var c := combos[best.value.k];
          ValidJob(job) && ValidCombo(c) && setup == SetupFor(v.b, v.booked, job.op, job.meta, c)
          && ProcessingMinutes(job.op, job.qty, c.equipment) == Some(processing))
  }

  lemma LeadingStart(v: View, job: Job, combos: seq<Combo>)
    ensures Leading(v, job, combos, 0, None, 0, 0)
  {
  }

  lemma LeadingStep(v: View, job: Job, combos: seq<Combo>, k: nat, best: Option<Pick>, bestSetup: nat,
                    bestProcessing: int, setup: nat, processing: int, r: Option<(int, int)>)
    requires k < |combos| && Leading(v, job, combos, k, best, bestSetup, bestProcessing)
    requires Tried(v, job, combos[k], processing, setup, r)
    ensures if r.Some? && (best.None? || r.value.0 < best.value.start)
            then Leading(v, job, combos, k + 1, Some(Pick(k, r.value.0, r.value.1)), setup, processing)
            else Leading(v, job, combos, k + 1, best, bestSetup, bestProcessing)
  {
    hide SetupFor, ProcessingMinutes;
    BestOfStep(v, job, combos, k, r, best,
               if r.Some? && (best.None? || r.value.0 < best.value.start)
               then Some(Pick(k, r.value.0, r.value.1)) else best);
  }

  lemma LeadingDone(v: View, job: Job, combos: seq<Combo>, best: Option<Pick>, setup: nat, processing: int)
    requires Combos(v.b, job.op) == Some(combos) && Leading(v, job, combos, |combos|, best, setup, processing)
    requires ValidJob(job)
    ensures best.None? ==> NoneFeasible(v, job)
    ensures best.Some? ==> best.value.k < |combos|
    ensures best.Some? ==>
              PickedRight(v, job, Picked(combos[best.value.k], setup, processing, best.value.start, best.value.end))
  {
    hide Candidate, SetupFor, Combos;
    if best.Some? {
      ProcessingMinutesAreLeast(job.op, job.qty, combos[best.value.k].equipment);
    }
  }

  lemma {:induction false} ToolingEntries(b: Bundle, codes: seq<string>, tooling: seq<Tooling>, key: Key)
    requires |tooling| == |codes| && key in ToolingKeys(tooling)
    requires forall i :: 0 <= i < |codes| ==> FindTooling(b.tooling, codes[i]) == Some(tooling[i])
    ensures EntryOf(b, key).Some?
  {
    FoundTooling(b.tooling, codes[0]);
    if key != Key(TOOLING, tooling[0].code) {
      ToolingEntries(b, codes[1..], tooling[1..], key);
    }
  }

  /** The resources of a fitting combination are all in the snapshot. */
  lemma FittingEntries(b: Bundle, op: Operation, c: Combo)
    requires ValidBundle(b) && ComboFits(b, op, c)
    ensures ValidCombo(c)
    ensures forall key :: key in KeysOf(c) ==> EntryOf(b, key).Some?
  {
    forall key | key in KeysOf(c)
      ensures EntryOf(b, key).Some?
    {
      if c.equipment.Some? && key == Key(EQUIPMENT, c.equipment.value.code) {
        MemberEquipment(b.equipment, c.equipment.value);
      } else if c.person.Some? && key == Key(PERSON, c.person.value.code) {
        MemberPerson(b.persons, c.person.value);
      } else if c.station.Some? && key == Key(STATION, c.station.value.code) {
        MemberStation(b.stations, c.station.value);
      } else {
        assert key in ToolingKeys(c.tooling);
        FitsIff(b, op, c);
        ToolingEntries(b, op.toolingCodes, c.tooling, key);
      }
    }
  }

  lemma SetsOfConcat(xs: seq<seq<Seg>>, ys: seq<seq<Seg>>)
    ensures SetsOf(xs + ys) == SetsOf(xs) + SetsOf(ys)
  {
  }

  lemma FreeOfAllConcat(v: View, xs: seq<Key>, ys: seq<Key>)
    ensures FreeOfAll(v, xs + ys) == FreeOfAll(v, xs) + FreeOfAll(v, ys)
  {
  }

  lemma {:induction false} ToolingKeysConcat(xs: seq<Tooling>, ys: seq<Tooling>)
    ensures ToolingKeys(xs + ys) == ToolingKeys(xs) + ToolingKeys(ys)
  {
    if xs == [] {
      assert xs + ys == ys;
    } else {
      var zs, first := xs + ys, [Key(TOOLING, xs[0].code)];
      assert zs[1..] == xs[1..] + ys;
      assert ToolingKeys(zs) == first + ToolingKeys(zs[1..]);
      assert ToolingKeys(xs) == first + ToolingKeys(xs[1..]);
      hide ToolingKeys;
      ToolingKeysConcat(xs[1..], ys);
    }
  }

  lemma ToolingKeysAppend(tooling: seq<Tooling>, i: nat)
    requires i < |tooling|
    ensures ToolingKeys(tooling[..i + 1]) == ToolingKeys(tooling[..i]) + [Key(TOOLING, tooling[i].code)]
    ensures Key(TOOLING, tooling[i].code) in ToolingKeys(tooling)
  {
    ToolingKeysConcat(tooling[..i], [tooling[i]]);
    assert tooling[..i + 1] == tooling[..i] + [tooling[i]];
    ToolingKeysConcat(tooling[..i + 1], tooling[i + 1..]);
    assert tooling[..i + 1] + tooling[i + 1..] == tooling;
  }
}

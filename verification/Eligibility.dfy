/** Which equipment, persons, stations and tooling an operation may use, and how long it
    takes there. */
module Eligibility {
  import opened Minutes
  import opened Bundle

  datatype Combo = Combo(equipment: Option<Equipment>, person: Option<Person>,
                         station: Option<Station>, tooling: seq<Tooling>)

  predicate Meets(required: seq<string>, offered: seq<string>) {
    forall c :: c in required ==> c in offered
  }

  predicate EquipmentFits(op: Operation, eq: Equipment) {
    eq.active && (op.equipmentCodes == [] || eq.code in op.equipmentCodes)
    && Meets(op.equipmentCapabilities, eq.capabilities)
  }

  predicate PersonFits(op: Operation, p: Person) {
    p.active && (op.personCodes == [] || p.code in op.personCodes)
    && Meets(op.skillCodes, p.skills)
    && (p.qualifiedOperations == [] || op.opCode in p.qualifiedOperations)
  }

  predicate StationFits(op: Operation, s: Station) {
    s.active && s.code in op.stationCodes
  }

  /** The candidates in input order, wrapped. */
  function Keep<T(!new)>(p: T -> bool, xs: seq<T>): (kept: seq<Option<T>>)
    ensures forall k :: k in kept <==> k.Some? && k.value in xs && p(k.value)
    ensures |kept| <= |xs|
  {
    if xs == [] then [] else (if p(xs[0]) then [Some(xs[0])] else []) + Keep(p, xs[1..])
  }

  /** No requirement is one choice, to use none; otherwise the fitting candidates. */
  function Choices<T(!new)>(required: bool, p: T -> bool, xs: seq<T>): seq<Option<T>> {
    if required then Keep(p, xs) else [None]
  }

  predicate NeedsEquipment(op: Operation) {
    op.equipmentCodes != [] || op.equipmentCapabilities != []
  }

  predicate NeedsPerson(op: Operation) {
    op.personCodes != [] || op.skillCodes != []
  }

  predicate NeedsStation(op: Operation) {
    op.stationCodes != []
  }

  function EligibleEquipment(b: Bundle, op: Operation): seq<Option<Equipment>> {
    Choices(NeedsEquipment(op), eq => EquipmentFits(op, eq), b.equipment)
  }

  function EligiblePersons(b: Bundle, op: Operation): seq<Option<Person>> {
    Choices(NeedsPerson(op), p => PersonFits(op, p), b.persons)
  }

  function EligibleStations(b: Bundle, op: Operation): seq<Option<Station>> {
    Choices(NeedsStation(op), s => StationFits(op, s), b.stations)
  }

  predicate NoPool(b: Bundle, code: string) {
    var pool := FindTooling(b.tooling, code);
    pool.None? || !pool.value.active
  }

  /** One active pool per required code; a code required twice is taken twice. */
  function EligibleTooling(b: Bundle, codes: seq<string>): (r: Option<seq<Tooling>>)
    ensures r.Some? ==> |r.value| == |codes|
    ensures r.Some? ==> forall i :: 0 <= i < |codes| ==>
              FindTooling(b.tooling, codes[i]) == Some(r.value[i]) && r.value[i].active
    ensures r.None? <==> exists i :: 0 <= i < |codes| && NoPool(b, codes[i])
  {
    if codes == [] then Some([])
    else
      if NoPool(b, codes[0]) then None
      else
        match EligibleTooling(b, codes[1..])
        case None => None
        case Some(rest) => Some([FindTooling(b.tooling, codes[0]).value] + rest)
  }

  function PairStations(eq: Option<Equipment>, p: Option<Person>, stations: seq<Option<Station>>,
                        tooling: seq<Tooling>): seq<Combo> {
    if stations == [] then []
    else [Combo(eq, p, stations[0], tooling)] + PairStations(eq, p, stations[1..], tooling)
  }

  function PairPersons(eq: Option<Equipment>, persons: seq<Option<Person>>, stations: seq<Option<Station>>,
                       tooling: seq<Tooling>): seq<Combo> {
    if persons == [] then []
    else PairStations(eq, persons[0], stations, tooling) + PairPersons(eq, persons[1..], stations, tooling)
  }

  function PairEquipment(eqs: seq<Option<Equipment>>, persons: seq<Option<Person>>, stations: seq<Option<Station>>,
                         tooling: seq<Tooling>): seq<Combo> {
    if eqs == [] then []
    else PairPersons(eqs[0], persons, stations, tooling) + PairEquipment(eqs[1..], persons, stations, tooling)
  }

  /** Every equipment x person x station choice, in input order, or None when one of the
      requirements has no candidate. */
  function Combos(b: Bundle, op: Operation): Option<seq<Combo>> {
    var eqs, persons, stations := EligibleEquipment(b, op), EligiblePersons(b, op), EligibleStations(b, op);
    match EligibleTooling(b, op.toolingCodes)
    case None => None
    case Some(tooling) =>
      if eqs == [] || persons == [] || stations == [] then None
      else Some(PairEquipment(eqs, persons, stations, tooling))
  }

  /** c gives the operation an active resource of each kind it requires, and none of a kind it
      does not: a machine of the codes it names, if any, with the capabilities it needs; a
      person of the codes it names, if any, with the skills it needs, who, if qualified for
      some operations only, is qualified for this one; a station of the codes it names; and for
      each tooling code the first pool of that code. */
  ghost predicate ComboFits(b: Bundle, op: Operation, c: Combo) {
    && MachineFits(b, op, c.equipment) && WorkerFits(b, op, c.person)
    && (if op.stationCodes == [] then c.station.None?
        else c.station.Some? && c.station.value in b.stations && c.station.value.active
             && c.station.value.code in op.stationCodes)
    && |c.tooling| == |op.toolingCodes|
    && forall k :: 0 <= k < |c.tooling| ==> PoolFits(b, op.toolingCodes[k], c.tooling[k])
  }

  ghost predicate MachineFits(b: Bundle, op: Operation, eq: Option<Equipment>) {
    if op.equipmentCodes == [] && op.equipmentCapabilities == [] then eq.None?
    else
      && eq.Some? && eq.value in b.equipment && eq.value.active
      && (op.equipmentCodes != [] ==> eq.value.code in op.equipmentCodes)
      && forall x :: x in op.equipmentCapabilities ==> x in eq.value.capabilities
  }

  ghost predicate WorkerFits(b: Bundle, op: Operation, p: Option<Person>) {
    if op.personCodes == [] && op.skillCodes == [] then p.None?
    else
      && p.Some? && p.value in b.persons && p.value.active
      && (op.personCodes != [] ==> p.value.code in op.personCodes)
      && (forall x :: x in op.skillCodes ==> x in p.value.skills)
      && (p.value.qualifiedOperations != [] ==> op.opCode in p.value.qualifiedOperations)
  }

  ghost predicate PoolFits(b: Bundle, code: string, pool: Tooling) {
    pool.active && exists i: nat :: Pool(b, i, code) && b.tooling[i] == pool
  }

  /** Choosing kind by kind comes to the same. */
  lemma FitsIff(b: Bundle, op: Operation, c: Combo)
    ensures ComboFits(b, op, c)
            <==> && c.equipment in EligibleEquipment(b, op) && c.person in EligiblePersons(b, op)
                 && c.station in EligibleStations(b, op) && |c.tooling| == |op.toolingCodes|
                 && forall k :: 0 <= k < |c.tooling| ==>
                      c.tooling[k].active && FindTooling(b.tooling, op.toolingCodes[k]) == Some(c.tooling[k])
  {
    hide FindTooling, PoolFits;
    assert MachineFits(b, op, c.equipment) <==> c.equipment in EligibleEquipment(b, op);
    assert WorkerFits(b, op, c.person) <==> c.person in EligiblePersons(b, op);
    forall k | 0 <= k < |c.tooling| && |c.tooling| == |op.toolingCodes|
      ensures PoolFits(b, op.toolingCodes[k], c.tooling[k])
              <==> c.tooling[k].active && FindTooling(b.tooling, op.toolingCodes[k]) == Some(c.tooling[k])
    {
      PoolFitsIff(b, op.toolingCodes[k], c.tooling[k]);
    }
  }

  lemma PoolFitsIff(b: Bundle, code: string, pool: Tooling)
    ensures PoolFits(b, code, pool) <==> pool.active && FindTooling(b.tooling, code) == Some(pool)
  {
    hide FindTooling;
    AllAreFirst(b, code);
  }

  lemma {:induction false} InPairStations(eq: Option<Equipment>, p: Option<Person>, stations: seq<Option<Station>>,
                                          tooling: seq<Tooling>, c: Combo)
    ensures c in PairStations(eq, p, stations, tooling)
            <==> c.equipment == eq && c.person == p && c.station in stations && c.tooling == tooling
  {
    if stations != [] {
      InPairStations(eq, p, stations[1..], tooling, c);
    }
  }

  lemma {:induction false} InPairPersons(eq: Option<Equipment>, persons: seq<Option<Person>>,
                                         stations: seq<Option<Station>>, tooling: seq<Tooling>, c: Combo)
    ensures c in PairPersons(eq, persons, stations, tooling)
            <==> c.equipment == eq && c.person in persons && c.station in stations && c.tooling == tooling
  {
    if persons != [] {
      InPairStations(eq, persons[0], stations, tooling, c);
      InPairPersons(eq, persons[1..], stations, tooling, c);
    }
  }

  lemma {:induction false} InPairEquipment(eqs: seq<Option<Equipment>>, persons: seq<Option<Person>>,
                                           stations: seq<Option<Station>>, tooling: seq<Tooling>, c: Combo)
    ensures c in PairEquipment(eqs, persons, stations, tooling)
            <==> c.equipment in eqs && c.person in persons && c.station in stations && c.tooling == tooling
  {
    if eqs != [] {
      InPairPersons(eqs[0], persons, stations, tooling, c);
      InPairEquipment(eqs[1..], persons, stations, tooling, c);
    }
  }

  /** The combinations tried are exactly the ones that meet the operation's requirements. */
  lemma CombosAreFitting(b: Bundle, op: Operation, c: Combo)
    requires Combos(b, op).Some?
    ensures c in Combos(b, op).value <==> ComboFits(b, op, c)
  {
    var eqs, persons, stations := EligibleEquipment(b, op), EligiblePersons(b, op), EligibleStations(b, op);
    var tooling := EligibleTooling(b, op.toolingCodes).value;
    InPairEquipment(eqs, persons, stations, tooling, c);
    FitsIff(b, op, c);
    hide ComboFits, EligibleEquipment, EligiblePersons, EligibleStations, FindTooling;
    if ComboFits(b, op, c) {
      assert c.tooling == tooling;
    }
  }

  lemma CombosNonEmpty(b: Bundle, op: Operation)
    requires Combos(b, op).Some?
    ensures Combos(b, op).value != []
  {
    var eqs, persons, stations := EligibleEquipment(b, op), EligiblePersons(b, op), EligibleStations(b, op);
    var tooling := EligibleTooling(b, op.toolingCodes).value;
    InPairEquipment(eqs, persons, stations, tooling, Combo(eqs[0], persons[0], stations[0], tooling));
  }

  /** The scheduler refuses an operation exactly when no combination fits it. */
  lemma NoCombosIff(b: Bundle, op: Operation)
    ensures Combos(b, op).None? <==> forall c :: !ComboFits(b, op, c)
  {
    if Combos(b, op).Some? {
      CombosNonEmpty(b, op);
      CombosAreFitting(b, op, Combos(b, op).value[0]);
    } else {
      forall c
        ensures !ComboFits(b, op, c)
      {
        FitsIff(b, op, c);
      }
    }
  }

  // --------------------------------------------------------------- the order of trying

  /** The candidates stand in input order. */
  lemma {:induction false} KeepAppend<T(!new)>(p: T -> bool, xs: seq<T>, x: T)
    ensures Keep(p, xs + [x]) == Keep(p, xs) + (if p(x) then [Some(x)] else [])
  {
    if xs == [] {
      assert xs + [x] == [x] && [x][1..] == [];
    } else {
      KeepAppend(p, xs[1..], x);
      assert (xs + [x])[1..] == xs[1..] + [x];
    }
  }

  lemma {:induction false} StationsAt(eq: Option<Equipment>, p: Option<Person>, stations: seq<Option<Station>>,
                                      tooling: seq<Tooling>)
    ensures var r := PairStations(eq, p, stations, tooling);
      |r| == |stations| && forall k :: 0 <= k < |stations| ==> r[k] == Combo(eq, p, stations[k], tooling)
  {
    if stations != [] {
      StationsAt(eq, p, stations[1..], tooling);
    }
  }

  /** i rows of n. */
  function Rows(i: nat, n: nat): nat {
    if i == 0 then 0 else n + Rows(i - 1, n)
  }

  lemma {:induction false} PersonsAt(eq: Option<Equipment>, persons: seq<Option<Person>>,
                                     stations: seq<Option<Station>>, tooling: seq<Tooling>, j: nat, k: nat)
    requires j < |persons| && k < |stations|
    ensures var r, n := PairPersons(eq, persons, stations, tooling), |stations|;
      && |r| == Rows(|persons|, n) && Rows(j, n) + k < |r|
      && r[Rows(j, n) + k] == Combo(eq, persons[j], stations[k], tooling)
  {
    hide PairStations;
    var n, rest := |stations|, persons[1..];
    var row, tail := PairStations(eq, persons[0], stations, tooling), PairPersons(eq, rest, stations, tooling);
    StationsAt(eq, persons[0], stations, tooling);
    assert PairPersons(eq, persons, stations, tooling) == row + tail;
    assert rest == [] ==> tail == [];
    hide PairPersons;
    if rest != [] {
      PersonsAt(eq, rest, stations, tooling, if j > 0 then j - 1 else 0, k);
    }
    InRow(row, tail, j, n, k);
  }

  /** Where row j stands behind a first row. */
  lemma InRow(row: seq<Combo>, tail: seq<Combo>, j: nat, n: nat, k: nat)
    requires |row| == n && k < n && (j > 0 ==> Rows(j - 1, n) + k < |tail|)
    ensures Rows(j, n) + k < |row + tail|
    ensures (row + tail)[Rows(j, n) + k] == if j == 0 then row[k] else tail[Rows(j - 1, n) + k]
  {
  }

  /** Machine by machine, for each person by person, for each station by station. */
  lemma {:induction false} EquipmentAt(eqs: seq<Option<Equipment>>, persons: seq<Option<Person>>,
                                       stations: seq<Option<Station>>, tooling: seq<Tooling>, i: nat, j: nat, k: nat)
    requires i < |eqs| && j < |persons| && k < |stations|
    ensures var r, m := PairEquipment(eqs, persons, stations, tooling), Rows(|persons|, |stations|);
      var at := Rows(i, m) + (Rows(j, |stations|) + k);
      |r| == Rows(|eqs|, m) && at < |r| && r[at] == Combo(eqs[i], persons[j], stations[k], tooling)
  {
    hide PairPersons;
    var rest, m := eqs[1..], Rows(|persons|, |stations|);
    var row, tail := PairPersons(eqs[0], persons, stations, tooling), PairEquipment(rest, persons, stations, tooling);
    PersonsAt(eqs[0], persons, stations, tooling, j, k);
    assert PairEquipment(eqs, persons, stations, tooling) == row + tail;
    assert rest == [] ==> tail == [];
    hide PairEquipment;
    if rest != [] {
      EquipmentAt(rest, persons, stations, tooling, if i > 0 then i - 1 else 0, j, k);
    }
    InRow(row, tail, i, m, Rows(j, |stations|) + k);
  }

  /** The combinations are tried machine by machine, then person by person, then station by
      station, each in input order, so the place of one tells the places of its parts. */
  lemma CombosInOrder(b: Bundle, op: Operation, i: nat, j: nat, k: nat)
    requires Combos(b, op).Some?
    requires var eqs, persons, stations := EligibleEquipment(b, op), EligiblePersons(b, op), EligibleStations(b, op);
      i < |eqs| && j < |persons| && k < |stations|
    ensures var eqs, persons, stations := EligibleEquipment(b, op), EligiblePersons(b, op), EligibleStations(b, op);
      var r, m, n := Combos(b, op).value, Rows(|persons|, |stations|), |stations|;
      var at := Rows(i, m) + (Rows(j, n) + k);
      && |r| == Rows(|eqs|, m) && at < |r|
      && r[at].equipment == eqs[i] && r[at].person == persons[j] && r[at].station == stations[k]
  {
    hide EligibleEquipment, EligiblePersons, EligibleStations, Rows;
    EquipmentAt(EligibleEquipment(b, op), EligiblePersons(b, op), EligibleStations(b, op),
                EligibleTooling(b, op.toolingCodes).value, i, j, k);
  }

  // ------------------------------------------------------------------ duration

  function Ceil(x: real): int {
    -((-x).Floor)
  }

  /** No yield rate reads as one; one that is given must lie in (0, 1]. */
  predicate YieldRateOk(op: Operation) {
    op.yieldRate.Some? ==> 0.0 < op.yieldRate.value <= 1.0
  }

  function YieldOf(op: Operation): real {
    match op.yieldRate case None => 1.0 case Some(rate) => rate
  }

  /** Standard minutes for a quantity, grossed up for yield loss. */
  function GrossMinutes(op: Operation, qty: real): real
    requires op.quantityBasis >= 1 && YieldRateOk(op)
  {
    qty / YieldOf(op) / (op.quantityBasis as real) * op.standardMinutes
  }

  /** Sixty an hour at full efficiency is the reference. */
  function SpeedFactor(eq: Equipment): real
    requires eq.capacityPerHour > 0.0 && eq.efficiency > 0.0
  {
    PositiveProduct(eq.capacityPerHour, eq.efficiency);
    60.0 / (eq.capacityPerHour * eq.efficiency)
  }

  /** Working minutes of an operation, rounded up; None for a bad yield rate. */
  function ProcessingMinutes(op: Operation, qty: real, equipment: Option<Equipment>): Option<int>
    requires op.quantityBasis >= 1
    requires equipment.Some? ==> equipment.value.capacityPerHour > 0.0 && equipment.value.efficiency > 0.0
  {
    if YieldRateOk(op) then Some(Ceil(WorkOn(op, qty, equipment))) else None
  }

  function WorkOn(op: Operation, qty: real, equipment: Option<Equipment>): real
    requires op.quantityBasis >= 1 && YieldRateOk(op)
    requires equipment.Some? ==> equipment.value.capacityPerHour > 0.0 && equipment.value.efficiency > 0.0
  {
    match equipment
    case None => GrossMinutes(op, qty)
    case Some(eq) => GrossMinutes(op, qty) * SpeedFactor(eq)
  }

  lemma PositiveProduct(x: real, y: real)
    requires x > 0.0 && y > 0.0
    ensures x * y > 0.0
  {
  }

  lemma NonNegativeProduct(x: real, y: real)
    requires x >= 0.0 && y >= 0.0
    ensures x * y >= 0.0
  {
  }

  /** Multiplied out, the division and the speed of the machine are gone. */
  lemma GrossTimesBasis(op: Operation, qty: real)
    requires op.quantityBasis >= 1 && YieldRateOk(op)
    ensures GrossMinutes(op, qty) * (YieldOf(op) * op.quantityBasis as real) == qty * op.standardMinutes
  {
    var y, basis, s := YieldOf(op), op.quantityBasis as real, op.standardMinutes;
    Cancel(qty, y);
    Cancel(qty / y, basis);
    assert qty / y / basis * s * (y * basis) == (qty / y / basis * basis) * y * s;
  }

  lemma Cancel(x: real, y: real)
    requires y > 0.0
    ensures x / y * y == x
  {
  }

  lemma WorkTimesSpeed(g: real, k: real, c: real)
    requires c > 0.0
    ensures g * (60.0 / c) * (k * c) == g * k * 60.0
  {
    Cancel(60.0, c);
    assert g * (60.0 / c) * (k * c) == g * k * (60.0 / c * c);
  }

  /** The numbers that a minute of work is measured against, and that the work amounts to. */
  function Pace(op: Operation, equipment: Option<Equipment>): real {
    var y := if op.yieldRate.Some? then op.yieldRate.value else 1.0;
    y * op.quantityBasis as real
    * (if equipment.Some? then equipment.value.capacityPerHour * equipment.value.efficiency else 1.0)
  }

  function Load(op: Operation, qty: real, equipment: Option<Equipment>): real {
    qty * op.standardMinutes * (if equipment.Some? then 60.0 else 1.0)
  }

  /** n is the least number of minutes for the quantity: with rate y, on a machine, the least
      n with n * y * basis * capacity * efficiency >= qty * standard minutes * 60, and without
      one the least with n * y * basis >= qty * standard minutes. */
  ghost predicate LeastMinutes(op: Operation, qty: real, equipment: Option<Equipment>, n: int) {
    n as real * Pace(op, equipment) >= Load(op, qty, equipment) > (n - 1) as real * Pace(op, equipment)
  }

  lemma WorkTimesPace(op: Operation, qty: real, equipment: Option<Equipment>)
    requires op.quantityBasis >= 1 && YieldRateOk(op)
    requires equipment.Some? ==> equipment.value.capacityPerHour > 0.0 && equipment.value.efficiency > 0.0
    ensures Pace(op, equipment) > 0.0
    ensures WorkOn(op, qty, equipment) * Pace(op, equipment) == Load(op, qty, equipment)
  {
    var k := YieldOf(op) * op.quantityBasis as real;
    PositiveProduct(YieldOf(op), op.quantityBasis as real);
    GrossTimesBasis(op, qty);
    if equipment.Some? {
      var c := equipment.value.capacityPerHour * equipment.value.efficiency;
      PositiveProduct(equipment.value.capacityPerHour, equipment.value.efficiency);
      PositiveProduct(k, c);
      WorkTimesSpeed(GrossMinutes(op, qty), k, c);
    }
  }

  lemma AtLeastIff(k: real, w: real, pace: real)
    requires pace > 0.0
    ensures k * pace >= w * pace <==> k >= w
  {
  }

  lemma CeilIsLeast(w: real, pace: real, load: real)
    requires pace > 0.0 && w * pace == load
    ensures Ceil(w) as real * pace >= load > (Ceil(w) - 1) as real * pace
    ensures load >= 0.0 ==> Ceil(w) >= 0
  {
    CeilIs(w);
    hide Ceil;
    AtLeastIff(Ceil(w) as real, w, pace);
    AtLeastIff((Ceil(w) - 1) as real, w, pace);
    AtLeastIff(w, 0.0, pace);
    assert 0.0 * pace == 0.0;
  }

  lemma CeilIs(x: real)
    ensures Ceil(x) as real >= x > (Ceil(x) - 1) as real
  {
  }

  /** Minutes are refused exactly when a yield rate is given that is not in (0, 1]; otherwise
      they are the least that are enough, and never negative. */
  lemma ProcessingMinutesAreLeast(op: Operation, qty: real, equipment: Option<Equipment>)
    requires op.quantityBasis >= 1 && op.standardMinutes >= 0.0 && qty >= 0.0
    requires equipment.Some? ==> equipment.value.capacityPerHour > 0.0 && equipment.value.efficiency > 0.0
    ensures ProcessingMinutes(op, qty, equipment).None?
            <==> op.yieldRate.Some? && (op.yieldRate.value <= 0.0 || op.yieldRate.value > 1.0)
    ensures ProcessingMinutes(op, qty, equipment).Some? ==>
              var n := ProcessingMinutes(op, qty, equipment).value; n >= 0 && LeastMinutes(op, qty, equipment, n)
  {
    if YieldRateOk(op) {
      WorkTimesPace(op, qty, equipment);
      NonNegativeProduct(qty, op.standardMinutes);
      hide WorkOn, Pace, Ceil;
      CeilIsLeast(WorkOn(op, qty, equipment), Pace(op, equipment), Load(op, qty, equipment));
    }
  }
}

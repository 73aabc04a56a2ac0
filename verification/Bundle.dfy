/** The input of the scheduler: order lines, routes, resources, calendar and supply, as the
    snapshot validators leave them. Times are minutes since the planning epoch. */
module Bundle {
  import opened Minutes

  datatype Kind = EQUIPMENT | PERSON | TOOLING | STATION

  datatype Key = Key(kind: Kind, code: string)

  datatype Equipment = Equipment(code: string, active: bool, capabilities: seq<string>,
                                 capacityPerHour: real, efficiency: real, calendarRef: string)

  datatype Person = Person(code: string, active: bool, skills: seq<string>,
                           qualifiedOperations: seq<string>, calendarRef: string)

  datatype Tooling = Tooling(code: string, active: bool, quantityAvailable: int, calendarRef: string)

  datatype Station = Station(code: string, active: bool, parallelSlots: int, calendarRef: string)

  /** `yieldRate` is None when the field is missing, empty or the number zero. */
  datatype Operation = Operation(
    opCode: string, sequenceNo: int, predecessors: seq<string>,
    quantityBasis: int, standardMinutes: real, yieldRate: Option<real>,
    setupMinutes: nat, setupFamily: Option<string>,
    equipmentCodes: seq<string>, equipmentCapabilities: seq<string>,
    personCodes: seq<string>, skillCodes: seq<string>,
    toolingCodes: seq<string>, stationCodes: seq<string>)

  datatype Route = Route(operations: seq<Operation>, streaming: bool, transferBatch: nat)

  datatype Line = Line(lineId: string, productCode: string, qty: real)

  /** readyAt is the dated readiness of a NOT_READY entry, if it has one. */
  datatype SupplyEntry = SupplyEntry(lineId: string, opCode: Option<string>, ready: bool, readyAt: Option<int>)

  datatype Bundle = Bundle(
    lines: seq<Line>, routes: map<string, Route>,
    equipment: seq<Equipment>, persons: seq<Person>, tooling: seq<Tooling>, stations: seq<Station>,
    working: seq<(string, Seg)>, unavailability: seq<(Key, Seg)>,
    supply: seq<SupplyEntry>, setupMatrix: map<string, map<string, nat>>)

  /** What a reservation remembers of its operation, for the next changeover. */
  datatype OpMeta = OpMeta(productCode: string, setupFamily: Option<string>)

  /** The schedule operation id. */
  datatype Sid = Sid(lineId: string, opCode: string, sequenceNo: int, batch: Option<nat>)

  datatype Alloc = Alloc(start: int, end: int, sid: Sid, meta: OpMeta)

  // --------------------------------------------------- what the validators demand

  predicate ValidOperation(route: Route, op: Operation) {
    && op.sequenceNo >= 1 && op.quantityBasis >= 1 && op.standardMinutes >= 0.0
    && forall p :: p in op.predecessors ==>
         p != op.opCode && exists q :: q in route.operations && q.opCode == p
  }

  predicate ValidRoute(route: Route) {
    && route.operations != []
    && (forall op :: op in route.operations ==> ValidOperation(route, op))
    && (forall i, j :: 0 <= i < j < |route.operations| ==>
          route.operations[i].opCode != route.operations[j].opCode)
    && route.transferBatch >= 1
  }

  predicate ValidBundle(b: Bundle) {
    && (forall line :: line in b.lines ==> line.qty > 0.0 && line.productCode in b.routes)
    && (forall product :: product in b.routes ==> ValidRoute(b.routes[product]))
    && (forall eq :: eq in b.equipment ==> eq.capacityPerHour > 0.0 && eq.efficiency > 0.0)
    && (forall tl :: tl in b.tooling ==> tl.quantityAvailable >= 1)
    && (forall st :: st in b.stations ==> st.parallelSlots >= 1)
  }

  // ----------------------------------------------------------------- lookups

  function FindEquipment(xs: seq<Equipment>, code: string): Option<Equipment> {
    if xs == [] then None else if xs[0].code == code then Some(xs[0]) else FindEquipment(xs[1..], code)
  }

  function FindPerson(xs: seq<Person>, code: string): Option<Person> {
    if xs == [] then None else if xs[0].code == code then Some(xs[0]) else FindPerson(xs[1..], code)
  }

  function FindTooling(xs: seq<Tooling>, code: string): Option<Tooling> {
    if xs == [] then None else if xs[0].code == code then Some(xs[0]) else FindTooling(xs[1..], code)
  }

  function FindStation(xs: seq<Station>, code: string): Option<Station> {
    if xs == [] then None else if xs[0].code == code then Some(xs[0]) else FindStation(xs[1..], code)
  }

  /** Capacity and calendar of a resource; equipment and persons do one thing at a time. */
  datatype Entry = Entry(cap: int, calendarRef: string)

  function EntryOf(b: Bundle, key: Key): Option<Entry> {
    match key.kind
    case EQUIPMENT =>
      (match FindEquipment(b.equipment, key.code) case None => None case Some(x) => Some(Entry(1, x.calendarRef)))
    case PERSON =>
      (match FindPerson(b.persons, key.code) case None => None case Some(x) => Some(Entry(1, x.calendarRef)))
    case TOOLING =>
      (match FindTooling(b.tooling, key.code)
       case None => None case Some(x) => Some(Entry(x.quantityAvailable, x.calendarRef)))
    case STATION =>
      (match FindStation(b.stations, key.code)
       case None => None case Some(x) => Some(Entry(x.parallelSlots, x.calendarRef)))
  }

  lemma MemberEquipment(xs: seq<Equipment>, x: Equipment)
    requires x in xs
    ensures FindEquipment(xs, x.code).Some?
  {
  }

  lemma MemberPerson(xs: seq<Person>, x: Person)
    requires x in xs
    ensures FindPerson(xs, x.code).Some?
  {
  }

  lemma MemberStation(xs: seq<Station>, x: Station)
    requires x in xs
    ensures FindStation(xs, x.code).Some?
  {
  }

  lemma FoundTooling(xs: seq<Tooling>, code: string)
    ensures FindTooling(xs, code).Some? ==>
              FindTooling(xs, code).value in xs && FindTooling(xs, code).value.code == code
  {
  }

  lemma FoundStation(xs: seq<Station>, code: string)
    ensures FindStation(xs, code).Some? ==> FindStation(xs, code).value in xs
  {
  }

  lemma EntryCapacity(b: Bundle, key: Key)
    requires ValidBundle(b) && EntryOf(b, key).Some?
    ensures EntryOf(b, key).value.cap >= 1
  {
    FoundTooling(b.tooling, key.code);
    FoundStation(b.stations, key.code);
  }

  // ----------------------------------------------------------------- calendar

  function SegsFor<K(==)>(pairs: seq<(K, Seg)>, k: K): seq<Seg> {
    if pairs == [] then []
    else
      var last := pairs[|pairs| - 1];
      SegsFor(pairs[..|pairs| - 1], k) + (if last.0 == k then [last.1] else [])
  }

  /** The open minutes of a resource's calendar. */
  ghost function WindowSet(b: Bundle, key: Key): iset<int> {
    match EntryOf(b, key)
    case None => iset{}
    case Some(entry) => MinutesOf(SegsFor(b.working, entry.calendarRef))
  }

  ghost function UaSet(b: Bundle, key: Key): iset<int> {
    MinutesOf(SegsFor(b.unavailability, key))
  }

  function CapOf(b: Bundle, key: Key): int {
    match EntryOf(b, key) case None => 1 case Some(entry) => entry.cap
  }

  // ------------------------------------------------- what the snapshot says of a code

  /** A code stands for the first resource in the snapshot that bears it. */
  ghost predicate Machine(b: Bundle, i: nat, code: string) {
    i < |b.equipment| && b.equipment[i].code == code && forall j :: 0 <= j < i ==> b.equipment[j].code != code
  }

  ghost predicate Worker(b: Bundle, i: nat, code: string) {
    i < |b.persons| && b.persons[i].code == code && forall j :: 0 <= j < i ==> b.persons[j].code != code
  }

  ghost predicate Pool(b: Bundle, i: nat, code: string) {
    i < |b.tooling| && b.tooling[i].code == code && forall j :: 0 <= j < i ==> b.tooling[j].code != code
  }

  ghost predicate Bench(b: Bundle, i: nat, code: string) {
    i < |b.stations| && b.stations[i].code == code && forall j :: 0 <= j < i ==> b.stations[j].code != code
  }

  /** A machine and a person do one thing at a time; a pool of tooling as many as it has
      tools, a station as many as it has slots. */
  ghost predicate WithinCapacity(b: Bundle, key: Key, n: int) {
    match key.kind
    case EQUIPMENT => n <= 1
    case PERSON => n <= 1
    case TOOLING => forall i: nat :: Pool(b, i, key.code) ==> n <= b.tooling[i].quantityAvailable
    case STATION => forall i: nat :: Bench(b, i, key.code) ==> n <= b.stations[i].parallelSlots
  }

  /** n is that capacity. */
  ghost predicate HasCapacity(b: Bundle, key: Key, n: int) {
    match key.kind
    case EQUIPMENT => n == 1
    case PERSON => n == 1
    case TOOLING => forall i: nat :: Pool(b, i, key.code) ==> n == b.tooling[i].quantityAvailable
    case STATION => forall i: nat :: Bench(b, i, key.code) ==> n == b.stations[i].parallelSlots
  }

  /** The resource exists and keeps the calendar. */
  ghost predicate Keeps(b: Bundle, key: Key, ref: string) {
    match key.kind
    case EQUIPMENT => exists i: nat :: Machine(b, i, key.code) && b.equipment[i].calendarRef == ref
    case PERSON => exists i: nat :: Worker(b, i, key.code) && b.persons[i].calendarRef == ref
    case TOOLING => exists i: nat :: Pool(b, i, key.code) && b.tooling[i].calendarRef == ref
    case STATION => exists i: nat :: Bench(b, i, key.code) && b.stations[i].calendarRef == ref
  }

  /** One of the stretches given for k covers the minute. */
  ghost predicate Given<K>(pairs: seq<(K, Seg)>, k: K, m: int) {
    exists i :: 0 <= i < |pairs| && pairs[i].0 == k && pairs[i].1.lo <= m < pairs[i].1.hi
  }

  lemma {:induction false} MachineIsFirst(b: Bundle, xs: seq<Equipment>, code: string, n: nat)
    requires n <= |b.equipment| && xs == b.equipment[n..] && forall j :: 0 <= j < n ==> b.equipment[j].code != code
    ensures FindEquipment(xs, code).Some? ==>
              exists i: nat :: Machine(b, i, code) && b.equipment[i] == FindEquipment(xs, code).value
    ensures FindEquipment(xs, code).None? ==> forall i: nat :: !Machine(b, i, code)
  {
    if xs != [] {
      if xs[0].code == code {
        assert Machine(b, n, code);
      } else {
        MachineIsFirst(b, xs[1..], code, n + 1);
      }
    }
  }

  lemma {:induction false} WorkerIsFirst(b: Bundle, xs: seq<Person>, code: string, n: nat)
    requires n <= |b.persons| && xs == b.persons[n..] && forall j :: 0 <= j < n ==> b.persons[j].code != code
    ensures FindPerson(xs, code).Some? ==>
              exists i: nat :: Worker(b, i, code) && b.persons[i] == FindPerson(xs, code).value
    ensures FindPerson(xs, code).None? ==> forall i: nat :: !Worker(b, i, code)
  {
    if xs != [] {
      if xs[0].code == code {
        assert Worker(b, n, code);
      } else {
        WorkerIsFirst(b, xs[1..], code, n + 1);
      }
    }
  }

  lemma {:induction false} PoolIsFirst(b: Bundle, xs: seq<Tooling>, code: string, n: nat)
    requires n <= |b.tooling| && xs == b.tooling[n..] && forall j :: 0 <= j < n ==> b.tooling[j].code != code
    ensures FindTooling(xs, code).Some? ==>
              exists i: nat :: Pool(b, i, code) && b.tooling[i] == FindTooling(xs, code).value
    ensures FindTooling(xs, code).None? ==> forall i: nat :: !Pool(b, i, code)
  {
    if xs != [] {
      if xs[0].code == code {
        assert Pool(b, n, code);
      } else {
        PoolIsFirst(b, xs[1..], code, n + 1);
      }
    }
  }

  lemma {:induction false} BenchIsFirst(b: Bundle, xs: seq<Station>, code: string, n: nat)
    requires n <= |b.stations| && xs == b.stations[n..] && forall j :: 0 <= j < n ==> b.stations[j].code != code
    ensures FindStation(xs, code).Some? ==>
              exists i: nat :: Bench(b, i, code) && b.stations[i] == FindStation(xs, code).value
    ensures FindStation(xs, code).None? ==> forall i: nat :: !Bench(b, i, code)
  {
    if xs != [] {
      if xs[0].code == code {
        assert Bench(b, n, code);
      } else {
        BenchIsFirst(b, xs[1..], code, n + 1);
      }
    }
  }

  lemma AllAreFirst(b: Bundle, code: string)
    ensures var x := FindEquipment(b.equipment, code);
      if x.Some? then exists i: nat :: Machine(b, i, code) && b.equipment[i] == x.value
      else forall i: nat :: !Machine(b, i, code)
    ensures var x := FindPerson(b.persons, code);
      if x.Some? then exists i: nat :: Worker(b, i, code) && b.persons[i] == x.value
      else forall i: nat :: !Worker(b, i, code)
    ensures var x := FindTooling(b.tooling, code);
      if x.Some? then exists i: nat :: Pool(b, i, code) && b.tooling[i] == x.value
      else forall i: nat :: !Pool(b, i, code)
    ensures var x := FindStation(b.stations, code);
      if x.Some? then exists i: nat :: Bench(b, i, code) && b.stations[i] == x.value
      else forall i: nat :: !Bench(b, i, code)
  {
    MachineIsFirst(b, b.equipment, code, 0);
    WorkerIsFirst(b, b.persons, code, 0);
    PoolIsFirst(b, b.tooling, code, 0);
    BenchIsFirst(b, b.stations, code, 0);
  }

  /** The capacity that the scheduler counts with is the one in the snapshot. */
  lemma CapacityIs(b: Bundle, key: Key)
    ensures HasCapacity(b, key, CapOf(b, key))
    ensures forall n :: n <= CapOf(b, key) ==> WithinCapacity(b, key, n)
  {
    AllAreFirst(b, key.code);
    hide FindEquipment, FindPerson, FindTooling, FindStation;
  }

  lemma {:induction false} SegsForCover<K>(pairs: seq<(K, Seg)>, k: K, m: int)
    ensures m in MinutesOf(SegsFor(pairs, k)) <==> Given(pairs, k, m)
  {
    if pairs == [] {
      MinutesOfEmpty();
    } else {
      var front, last := pairs[..|pairs| - 1], pairs[|pairs| - 1];
      SegsForCover(front, k, m);
      GivenNext(pairs, k, m);
      MinutesOfAppend(SegsFor(front, k), last.1);
      hide Given, MinutesOf;
      if last.0 != k {
        assert SegsFor(pairs, k) == SegsFor(front, k);
      }
    }
  }

  lemma GivenNext<K>(pairs: seq<(K, Seg)>, k: K, m: int)
    requires pairs != []
    ensures var last := pairs[|pairs| - 1];
      Given(pairs, k, m) <==> Given(pairs[..|pairs| - 1], k, m) || (last.0 == k && last.1.lo <= m < last.1.hi)
  {
    var n := |pairs| - 1;
    if Given(pairs, k, m) {
      var i :| 0 <= i < |pairs| && pairs[i].0 == k && pairs[i].1.lo <= m < pairs[i].1.hi;
      assert i < n ==> pairs[..n][i] == pairs[i];
    }
    if Given(pairs[..n], k, m) {
      var i :| 0 <= i < n && pairs[..n][i].0 == k && pairs[..n][i].1.lo <= m < pairs[..n][i].1.hi;
      assert pairs[i] == pairs[..n][i];
    }
  }

  /** A resource works in the stretches of its own calendar and is away in those that name it. */
  lemma CalendarIs(b: Bundle, key: Key, m: int)
    ensures m in WindowSet(b, key) <==> exists ref :: Keeps(b, key, ref) && Given(b.working, ref, m)
    ensures m in UaSet(b, key) <==> Given(b.unavailability, key, m)
  {
    EntryKeeps(b, key);
    SegsForCover(b.unavailability, key, m);
    if EntryOf(b, key).Some? {
      SegsForCover(b.working, EntryOf(b, key).value.calendarRef, m);
    }
    hide Keeps, Given, EntryOf, SegsFor;
  }

  lemma EntryKeeps(b: Bundle, key: Key)
    ensures forall ref :: Keeps(b, key, ref) <==> EntryOf(b, key).Some? && EntryOf(b, key).value.calendarRef == ref
  {
    AllAreFirst(b, key.code);
    hide FindEquipment, FindPerson, FindTooling, FindStation;
  }

  // ------------------------------------------------------- operations in sequence

  function InsertBySequence(op: Operation, xs: seq<Operation>): seq<Operation> {
    if xs == [] then [op]
    else if op.sequenceNo <= xs[0].sequenceNo then [op] + xs
    else [xs[0]] + InsertBySequence(op, xs[1..])
  }

  /** A stable sort by sequence number. */
  function BySequence(xs: seq<Operation>): seq<Operation> {
    if xs == [] then [] else InsertBySequence(xs[0], BySequence(xs[1..]))
  }

  ghost predicate InSequence(xs: seq<Operation>) {
    forall i, j :: 0 <= i < j < |xs| ==> xs[i].sequenceNo <= xs[j].sequenceNo
  }

  lemma {:induction false} InsertBySequenceHolds(op: Operation, xs: seq<Operation>)
    ensures multiset(InsertBySequence(op, xs)) == multiset{op} + multiset(xs)
  {
    if xs != [] && op.sequenceNo > xs[0].sequenceNo {
      assert xs == [xs[0]] + xs[1..];
      InsertBySequenceHolds(op, xs[1..]);
    }
  }

  lemma {:induction false} InsertBySequenceSorts(op: Operation, xs: seq<Operation>)
    requires InSequence(xs)
    ensures InSequence(InsertBySequence(op, xs))
  {
    if xs != [] && op.sequenceNo > xs[0].sequenceNo {
      var rest := InsertBySequence(op, xs[1..]);
      InsertBySequenceSorts(op, xs[1..]);
      InsertBySequenceHolds(op, xs[1..]);
      forall k | 0 <= k < |rest|
        ensures xs[0].sequenceNo <= rest[k].sequenceNo
      {
        assert rest[k] in multiset(rest);
        assert rest[k] == op || rest[k] in xs[1..];
      }
    }
  }

  /** The operations that carry one sequence number, in the order they stand. */
  function WithNumber(xs: seq<Operation>, n: int): seq<Operation> {
    if xs == [] then [] else (if xs[0].sequenceNo == n then [xs[0]] else []) + WithNumber(xs[1..], n)
  }

  lemma WithNumberCons(o: Operation, xs: seq<Operation>, n: int)
    ensures WithNumber([o] + xs, n) == (if o.sequenceNo == n then [o] else []) + WithNumber(xs, n)
  {
    assert ([o] + xs)[1..] == xs;
  }

  lemma {:induction false} InsertBySequenceStable(op: Operation, xs: seq<Operation>, n: int)
    ensures WithNumber(InsertBySequence(op, xs), n) == (if op.sequenceNo == n then [op] else []) + WithNumber(xs, n)
  {
    hide WithNumber;
    if xs != [] && op.sequenceNo > xs[0].sequenceNo {
      var rest := InsertBySequence(op, xs[1..]);
      InsertBySequenceStable(op, xs[1..], n);
      WithNumberCons(xs[0], rest, n);
      WithNumberCons(xs[0], xs[1..], n);
      assert xs == [xs[0]] + xs[1..];
    } else {
      assert InsertBySequence(op, xs) == [op] + xs;
      WithNumberCons(op, xs, n);
    }
  }

  /** The drivers walk a route in sequence order, without losing or inventing operations, and
      operations of one number in the order the route gives them. */
  lemma {:induction false} BySequenceSorts(xs: seq<Operation>)
    ensures multiset(BySequence(xs)) == multiset(xs) && |BySequence(xs)| == |xs|
    ensures InSequence(BySequence(xs))
    ensures forall n :: WithNumber(BySequence(xs), n) == WithNumber(xs, n)
  {
    hide WithNumber;
    if xs != [] {
      BySequenceSorts(xs[1..]);
      InsertBySequenceHolds(xs[0], BySequence(xs[1..]));
      InsertBySequenceSorts(xs[0], BySequence(xs[1..]));
      assert xs == [xs[0]] + xs[1..];
      forall n
        ensures WithNumber(BySequence(xs), n) == WithNumber(xs, n)
      {
        InsertBySequenceStable(xs[0], BySequence(xs[1..]), n);
        WithNumberCons(xs[0], xs[1..], n);
      }
    }
    assert |multiset(BySequence(xs))| == |multiset(xs)|;
  }

  lemma InSequenceOfRoute(xs: seq<Operation>, o: Operation)
    ensures o in BySequence(xs) <==> o in xs
  {
    BySequenceSorts(xs);
    assert o in multiset(BySequence(xs)) <==> o in multiset(xs);
  }

  ghost predicate DistinctCodes(xs: seq<Operation>) {
    forall i, j :: 0 <= i < j < |xs| ==> xs[i].opCode != xs[j].opCode
  }

  lemma {:induction false} InsertKeepsDistinct(op: Operation, xs: seq<Operation>)
    requires DistinctCodes(xs) && forall o :: o in xs ==> o.opCode != op.opCode
    ensures DistinctCodes(InsertBySequence(op, xs))
  {
    if xs != [] && op.sequenceNo > xs[0].sequenceNo {
      var rest := InsertBySequence(op, xs[1..]);
      InsertKeepsDistinct(op, xs[1..]);
      InsertBySequenceHolds(op, xs[1..]);
      forall k | 0 <= k < |rest|
        ensures xs[0].opCode != rest[k].opCode
      {
        assert rest[k] in multiset(rest);
        assert rest[k] == op || rest[k] in xs[1..];
      }
    }
  }

  lemma {:induction false} BySequenceDistinct(xs: seq<Operation>)
    requires DistinctCodes(xs)
    ensures DistinctCodes(BySequence(xs))
  {
    if xs != [] {
      BySequenceDistinct(xs[1..]);
      forall o | o in BySequence(xs[1..])
        ensures o.opCode != xs[0].opCode
      {
        InSequenceOfRoute(xs[1..], o);
      }
      InsertKeepsDistinct(xs[0], BySequence(xs[1..]));
    }
  }

  lemma OpsDistinct(b: Bundle, l: nat)
    requires ValidBundle(b) && l < |b.lines|
    ensures DistinctCodes(OpsOf(b, l))
  {
    assert b.lines[l] in b.lines;
    BySequenceDistinct(b.routes[b.lines[l].productCode].operations);
  }

  /** The route of a line's product; every line of a valid bundle has one. */
  function RouteOf(b: Bundle, l: nat): Route {
    if l < |b.lines| && b.lines[l].productCode in b.routes then b.routes[b.lines[l].productCode]
    else Route([], false, 1)
  }

  /** The operations of a line, in sequence order. */
  function OpsOf(b: Bundle, l: nat): seq<Operation> {
    BySequence(RouteOf(b, l).operations)
  }
}

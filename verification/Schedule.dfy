/** What a schedule is: the operations placed so far, the reservations they made, and what
    the scheduler promises about the next one. */
module Schedule {
  import opened Minutes
  import opened Bundle
  import opened Occupancy
  import opened Eligibility
  import opened Placement

  /** One reservation, as the schedule reports it. */
  datatype Interval = Interval(key: Key, alloc: Alloc)

  /** A scheduled operation. `line` and `op` are the positions of its order line in the input
      and of its operation in the sequence of the route; `anchor` is the earliest minute it
      was allowed to begin; `start` is the start of processing, after setup. */
  datatype Placed = Placed(line: nat, op: nat, sid: Sid, meta: OpMeta, predecessors: seq<Sid>,
                           qty: real, anchor: int, combo: Combo, setup: nat, processing: int,
                           start: int, end: int)
  {
    function PlanStart(): int { start - setup }
  }

  // ------------------------------------------------------------- reservations

  function ToolingReservations(tooling: seq<Tooling>, a: Alloc): seq<Interval> {
    if tooling == [] then []
    else [Interval(Key(TOOLING, tooling[0].code), a)] + ToolingReservations(tooling[1..], a)
  }

  /** Equipment is held from the start of setup, everything else from the start of
      processing. */
  function Reservations(x: Placed): seq<Interval> {
    var held := Alloc(x.start, x.end, x.sid, x.meta);
    EquipmentReservation(x) + PersonReservation(x.combo.person, held) + StationReservation(x.combo.station, held)
    + ToolingReservations(x.combo.tooling, held)
  }

  function EquipmentReservation(x: Placed): seq<Interval> {
    if x.combo.equipment.None? then []
    else [Interval(Key(EQUIPMENT, x.combo.equipment.value.code), Alloc(x.start - x.setup, x.end, x.sid, x.meta))]
  }

  function PersonReservation(p: Option<Person>, held: Alloc): seq<Interval> {
    if p.None? then [] else [Interval(Key(PERSON, p.value.code), held)]
  }

  function StationReservation(s: Option<Station>, held: Alloc): seq<Interval> {
    if s.None? then [] else [Interval(Key(STATION, s.value.code), held)]
  }

  function AllReservations(h: seq<Placed>): seq<Interval> {
    if h == [] then [] else AllReservations(h[..|h| - 1]) + Reservations(h[|h| - 1])
  }

  /** The reservations on one resource, oldest first. */
  function Only(key: Key, booked: seq<Interval>): seq<Alloc> {
    if booked == [] then []
    else
      var last := booked[|booked| - 1];
      Only(key, booked[..|booked| - 1]) + (if last.key == key then [last.alloc] else [])
  }

  function Tools(tooling: seq<Tooling>, code: string): nat {
    if tooling == [] then 0 else (if tooling[0].code == code then 1 else 0) + Tools(tooling[1..], code)
  }

  /** How much of a resource the combination takes: tooling as often as it is listed. */
  function Units(c: Combo, key: Key): nat {
    match key.kind
    case EQUIPMENT => if c.equipment.Some? && c.equipment.value.code == key.code then 1 else 0
    case PERSON => if c.person.Some? && c.person.value.code == key.code then 1 else 0
    case STATION => if c.station.Some? && c.station.value.code == key.code then 1 else 0
    case TOOLING => Tools(c.tooling, key.code)
  }

  // --------------------------------------------------------------- free room

  /** The data a placement decision is made from. */
  datatype View = View(b: Bundle, asWritten: bool, booked: seq<Interval>)

  ghost function FreeOf(v: View, key: Key): iset<int> {
    FreeMinutes(v.asWritten, WindowSet(v.b, key), UaSet(v.b, key), Only(key, v.booked), CapOf(v.b, key))
  }

  function ToolingKeys(tooling: seq<Tooling>): seq<Key> {
    if tooling == [] then [] else [Key(TOOLING, tooling[0].code)] + ToolingKeys(tooling[1..])
  }

  /** The resources of a combination other than its equipment. */
  function OtherKeys(c: Combo): seq<Key> {
    PersonKeys(c.person) + StationKeys(c.station) + ToolingKeys(c.tooling)
  }

  function PersonKeys(p: Option<Person>): seq<Key> {
    if p.None? then [] else [Key(PERSON, p.value.code)]
  }

  function StationKeys(s: Option<Station>): seq<Key> {
    if s.None? then [] else [Key(STATION, s.value.code)]
  }

  function KeysOf(c: Combo): seq<Key> {
    (match c.equipment case None => [] case Some(eq) => [Key(EQUIPMENT, eq.code)]) + OtherKeys(c)
  }

  ghost function FreeOfAll(v: View, keys: seq<Key>): (sets: seq<iset<int>>)
    ensures |sets| == |keys| && forall i :: 0 <= i < |keys| ==> sets[i] == FreeOf(v, keys[i])
  {
    seq(|keys|, i requires 0 <= i < |keys| => FreeOf(v, keys[i]))
  }

  ghost function RoomFor(v: View, c: Combo): Room {
    Room(match c.equipment case None => None case Some(eq) => Some(FreeOf(v, Key(EQUIPMENT, eq.code))),
         FreeOfAll(v, OtherKeys(c)))
  }

  // ------------------------------------------------------------------- setup

  /** The reservation that starts last; of several, the newest. */
  function LastByStart(allocs: seq<Alloc>): Option<Alloc> {
    if allocs == [] then None
    else
      var last := allocs[|allocs| - 1];
      match LastByStart(allocs[..|allocs| - 1])
      case None => Some(last)
      case Some(best) => if last.start >= best.start then Some(last) else Some(best)
  }

  function Family(m: OpMeta): string {
    match m.setupFamily case None => "" case Some(f) => f
  }

  /** Setup minutes on given equipment after the operation that held it last. */
  function SetupAfter(matrix: map<string, map<string, nat>>, declared: nat, cur: OpMeta, prev: OpMeta): nat {
    if cur.setupFamily.Some? && cur.setupFamily == prev.setupFamily && cur.productCode == prev.productCode then 0
    else if Family(cur) != "" && Family(prev) != "" && Family(cur) != Family(prev)
            && Family(prev) in matrix && Family(cur) in matrix[Family(prev)]
    then matrix[Family(prev)][Family(cur)]
    else declared
  }

  function SetupFor(b: Bundle, booked: seq<Interval>, op: Operation, meta: OpMeta, c: Combo): nat {
    match c.equipment
    case None => op.setupMinutes
    case Some(eq) =>
      match LastByStart(Only(Key(EQUIPMENT, eq.code), booked))
      case None => op.setupMinutes
      case Some(prev) => SetupAfter(b.setupMatrix, op.setupMinutes, meta, prev.meta)
  }

  /** Reservation i is the one on the resource that starts last, the newest of equals. */
  ghost predicate HeldLast(booked: seq<Interval>, key: Key, i: nat) {
    && i < |booked| && booked[i].key == key
    && forall j :: 0 <= j < |booked| && booked[j].key == key ==>
         booked[j].alloc.start < booked[i].alloc.start || (booked[j].alloc.start == booked[i].alloc.start && j <= i)
  }

  /** Families f and g differ, and the setup matrix has an entry under f for g. */
  ghost predicate ChangesOver(b: Bundle, f: Option<string>, g: Option<string>) {
    && f.Some? && g.Some? && f.value != "" && g.value != "" && f != g
    && f.value in b.setupMatrix && g.value in b.setupMatrix[f.value]
  }

  /** n is the setup after the operation that the reservation remembers: none for the same
      family and product, the matrix entry where families change and there is one, and what
      the operation declares otherwise. */
  ghost predicate SetupAfterIs(b: Bundle, op: Operation, meta: OpMeta, prev: OpMeta, n: nat) {
    var f, g := prev.setupFamily, meta.setupFamily;
    if f == g && g.Some? && prev.productCode == meta.productCode then n == 0
    else if ChangesOver(b, f, g) then n == b.setupMatrix[f.value][g.value]
    else n == op.setupMinutes
  }

  /** And on a combination: without a machine, or on one not reserved yet, what the operation
      declares. */
  ghost predicate SetupIs(b: Bundle, booked: seq<Interval>, op: Operation, meta: OpMeta, c: Combo, n: nat) {
    match c.equipment
    case None => n == op.setupMinutes
    case Some(eq) =>
      var key := Key(EQUIPMENT, eq.code);
      if exists i: nat :: HeldLast(booked, key, i)
      then forall i: nat :: HeldLast(booked, key, i) ==> SetupAfterIs(b, op, meta, booked[i].alloc.meta, n)
      else (forall i :: 0 <= i < |booked| ==> booked[i].key != key) && n == op.setupMinutes
  }

  lemma {:induction false} LastByStartIs(booked: seq<Interval>, key: Key) returns (i: nat)
    ensures match LastByStart(Only(key, booked))
      case None => forall j :: 0 <= j < |booked| ==> booked[j].key != key
      case Some(a) => HeldLast(booked, key, i) && booked[i].alloc == a
  {
    i := 0;
    if booked != [] {
      var front, last := booked[..|booked| - 1], booked[|booked| - 1];
      i := LastByStartIs(front, key);
      var allocs := Only(key, front);
      assert (allocs + [last.alloc])[..|allocs|] == allocs;
      assert Only(key, booked) == if last.key == key then allocs + [last.alloc] else allocs;
      if last.key == key && (allocs == [] || last.alloc.start >= booked[i].alloc.start) {
        i := |front|;
      }
    }
  }

  /** The setup is the one the rules give. */
  lemma SetupForIs(b: Bundle, booked: seq<Interval>, op: Operation, meta: OpMeta, c: Combo)
    ensures SetupIs(b, booked, op, meta, c, SetupFor(b, booked, op, meta, c))
  {
    if c.equipment.Some? {
      var i := LastByStartIs(booked, Key(EQUIPMENT, c.equipment.value.code));
      hide LastByStart, Only;
    }
  }

  // ----------------------------------------------------------- greedy choice

  datatype Job = Job(op: Operation, meta: OpMeta, qty: real, anchor: int)

  ghost predicate ProperBooked(booked: seq<Interval>) {
    forall i :: 0 <= i < |booked| ==> booked[i].alloc.start <= booked[i].alloc.end
  }

  ghost predicate ValidView(v: View) {
    ValidBundle(v.b) && ProperBooked(v.booked)
  }

  ghost predicate ValidJob(job: Job) {
    job.op.quantityBasis >= 1 && job.op.standardMinutes >= 0.0 && job.qty >= 0.0
  }

  ghost predicate ValidCombo(c: Combo) {
    c.equipment.Some? ==> c.equipment.value.capacityPerHour > 0.0 && c.equipment.value.efficiency > 0.0
  }

  /** r is where the job goes on combination c: its earliest placement, if it has one. */
  ghost predicate Candidate(v: View, job: Job, c: Combo, r: Option<(int, int)>) {
    && ValidJob(job) && ValidCombo(c)
    && ProcessingMinutes(job.op, job.qty, c.equipment).Some?
    && PlacementIn(RoomFor(v, c), job.anchor, SetupFor(v.b, v.booked, job.op, job.meta, c),
                   ProcessingMinutes(job.op, job.qty, c.equipment).value, r)
  }

  datatype Pick = Pick(k: nat, start: int, end: int)

  /** Combination j has been tried and does not beat the pick: it has no placement, a later
      start, or the same start further down the list. */
  ghost predicate Outdone(v: View, job: Job, c: Combo, j: int, p: Pick) {
    exists r :: Candidate(v, job, c, r)
                && (r.Some? ==> p.start < r.value.0 || (p.start == r.value.0 && p.k <= j))
  }

  ghost predicate BestOf(v: View, job: Job, combos: seq<Combo>, n: nat, best: Option<Pick>)
    requires n <= |combos|
  {
    match best
    case None => forall j {:trigger Candidate(v, job, combos[j], None)} :: 0 <= j < n ==>
          Candidate(v, job, combos[j], None)
    case Some(p) =>
      && p.k < n && Candidate(v, job, combos[p.k], Some((p.start, p.end)))
      && forall j {:trigger Outdone(v, job, combos[j], j, p)} :: 0 <= j < n ==> Outdone(v, job, combos[j], j, p)
  }

  /** x is where the greedy choice puts its job in view v. */
  ghost predicate Chosen(v: View, job: Job, x: Placed) {
    && Combos(v.b, job.op).Some?
    && x.meta == job.meta && x.qty == job.qty && x.anchor == job.anchor
    && ValidJob(job) && ValidCombo(x.combo)
    && x.setup == SetupFor(v.b, v.booked, job.op, job.meta, x.combo)
    && ProcessingMinutes(job.op, job.qty, x.combo.equipment) == Some(x.processing) && x.processing >= 0
    && var combos := Combos(v.b, job.op).value;
       exists k :: 0 <= k < |combos| && combos[k] == x.combo
                   && BestOf(v, job, combos, |combos|, Some(Pick(k, x.start, x.end)))
  }

  lemma OutdoneIsLater(v: View, job: Job, c: Combo, j: int, p: Pick, s: int, e: int)
    requires Outdone(v, job, c, j, p)
    requires ValidJob(job) && ValidCombo(c) && ProcessingMinutes(job.op, job.qty, c.equipment).Some?
    requires Feasible(RoomFor(v, c), job.anchor, SetupFor(v.b, v.booked, job.op, job.meta, c),
                      ProcessingMinutes(job.op, job.qty, c.equipment).value, s, e)
    ensures p.start <= s
  {
    var r :| Candidate(v, job, c, r) && (r.Some? ==> p.start < r.value.0 || (p.start == r.value.0 && p.k <= j));
    ProcessingMinutesAreLeast(job.op, job.qty, c.equipment);
    PlacementBest(RoomFor(v, c), job.anchor, SetupFor(v.b, v.booked, job.op, job.meta, c),
                  ProcessingMinutes(job.op, job.qty, c.equipment).value, r, s, e);
  }

  /** The promise of the greedy step: over every combination that meets the operation's
      requirements, no feasible start is earlier than the chosen one. */
  lemma GreedyIsEarliest(v: View, job: Job, x: Placed, c: Combo, s: int, e: int)
    requires Chosen(v, job, x) && ComboFits(v.b, job.op, c) && ValidCombo(c)
    requires ProcessingMinutes(job.op, job.qty, c.equipment).Some?
    requires Feasible(RoomFor(v, c), job.anchor, SetupFor(v.b, v.booked, job.op, job.meta, c),
                      ProcessingMinutes(job.op, job.qty, c.equipment).value, s, e)
    ensures x.start <= s
  {
    hide FreeOf, RoomFor, Candidate, Feasible, SetupFor, ProcessingMinutes, Combos, ComboFits;
    var combos := Combos(v.b, job.op).value;
    CombosAreFitting(v.b, job.op, c);
    var j :| 0 <= j < |combos| && combos[j] == c;
    var k :| 0 <= k < |combos| && combos[k] == x.combo
             && BestOf(v, job, combos, |combos|, Some(Pick(k, x.start, x.end)));
    OutdoneIsLater(v, job, c, j, Pick(k, x.start, x.end), s, e);
  }

  /** Ties go to the first in input order: every earlier combination starts strictly later or
      not at all. */
  lemma GreedyTieBreak(v: View, job: Job, x: Placed, j: nat, r: Option<(int, int)>)
    requires Chosen(v, job, x)
    requires j < |Combos(v.b, job.op).value|
    requires Candidate(v, job, Combos(v.b, job.op).value[j], r)
    requires forall i :: 0 <= i <= j ==> Combos(v.b, job.op).value[i] != x.combo
    ensures r.Some? ==> x.start < r.value.0
  {
    var combos := Combos(v.b, job.op).value;
    var k :| 0 <= k < |combos| && combos[k] == x.combo
             && BestOf(v, job, combos, |combos|, Some(Pick(k, x.start, x.end)));
    assert Outdone(v, job, combos[j], j, Pick(k, x.start, x.end));
    var r' :| Candidate(v, job, combos[j], r')
              && (r'.Some? ==> x.start < r'.value.0 || (x.start == r'.value.0 && k <= j));
    ProcessingMinutesAreLeast(job.op, job.qty, combos[j].equipment);
    PlacementUnique(RoomFor(v, combos[j]), job.anchor, SetupFor(v.b, v.booked, job.op, job.meta, combos[j]),
                    ProcessingMinutes(job.op, job.qty, combos[j].equipment).value, r, r');
  }

  /** With one combination to choose from, its placement is the choice. */
  lemma OnlyChoice(v: View, job: Job, x: Placed)
    requires Combos(v.b, job.op) == Some([x.combo])
    requires x.meta == job.meta && x.qty == job.qty && x.anchor == job.anchor
    requires x.setup == SetupFor(v.b, v.booked, job.op, job.meta, x.combo)
    requires ValidJob(job) && ValidCombo(x.combo) && x.processing >= 0
    requires ProcessingMinutes(job.op, job.qty, x.combo.equipment) == Some(x.processing)
    requires PlacementIn(RoomFor(v, x.combo), x.anchor, x.setup, x.processing, Some((x.start, x.end)))
    ensures Chosen(v, job, x)
  {
    hide PlacementIn, RoomFor, SetupFor, ProcessingMinutes, Combos;
    var p := Pick(0, x.start, x.end);
    assert Candidate(v, job, x.combo, Some((x.start, x.end)));
    assert Outdone(v, job, [x.combo][0], 0, p);
    assert BestOf(v, job, [x.combo], 1, Some(p));
    assert [x.combo][0] == x.combo;
  }

  /** What a chosen operation holds on its resources. */
  lemma ChosenSound(v: View, job: Job, x: Placed)
    requires ValidView(v) && Chosen(v, job, x)
    ensures x.start <= x.end && x.anchor <= x.PlanStart()
    ensures CountIn(Common(RoomFor(v, x.combo)), x.start, x.end) == x.processing
    ensures x.combo.equipment.Some? ==>
      CountIn(FreeOf(v, Key(EQUIPMENT, x.combo.equipment.value.code)), x.anchor, x.start) >= x.setup
    ensures ComboFits(v.b, job.op, x.combo)
    ensures LeastMinutes(job.op, job.qty, x.combo.equipment, x.processing)
    ensures SetupIs(v.b, v.booked, job.op, job.meta, x.combo, x.setup)
  {
    hide ComboFits, ProcessingMinutes, LeastMinutes, SetupFor, SetupIs, Combos;
    var combos := Combos(v.b, job.op).value;
    var k :| 0 <= k < |combos| && combos[k] == x.combo
             && BestOf(v, job, combos, |combos|, Some(Pick(k, x.start, x.end)));
    CombosAreFitting(v.b, job.op, x.combo);
    ProcessingMinutesAreLeast(job.op, job.qty, x.combo.equipment);
    SetupForIs(v.b, v.booked, job.op, job.meta, x.combo);
    PlacementSound(RoomFor(v, x.combo), x.anchor, x.setup, x.processing, x.start, x.end);
  }
}

/** The plan store as a state machine: the value of its tables, and what each call does to
    them. */
module PlanStore {
  import opened Minutes

  /** `Other` is any status string outside the lifecycle; a caller can save a plan with one. */
  datatype Status = Draft | Approved | Released | Dispatched | Execution | Other(name: string)

  function Rank(s: Status): int {
    match s
    case Draft => 0
    case Approved => 1
    case Released => 2
    case Dispatched => 3
    case Execution => 4
    case Other(_) => -1
  }

  predicate Protected(s: Status) {
    s == Released || s == Dispatched || s == Execution
  }

  const PRODUCTION := "production"

  const PASS := "pass"

  datatype Report = Report(status: Option<string>, details: string)

  /** The columns only the first save of a version writes. */
  datatype Identity = Identity(scenario: string, tenant: string, task: string, inputHash: string, solverHash: string,
                               purpose: string, bundle: string)

  /** The columns every save of a version writes, other than its status. */
  datatype Content = Content(parent: Option<string>, algorithm: string, report: Report, schedule: string)

  datatype Plan = Plan(identity: Identity, content: Content, status: Status,
                       releasedAt: Option<int>, createdAt: int, updatedAt: int)

  datatype Head = Head(tenant: string, plan: string, revision: nat)

  datatype IdemKey = IdemKey(scenario: string, key: string)

  datatype IdemRow = IdemRow(plan: string, inputHash: string)

  datatype Stamp = Stamp(gate: string, actor: string, task: string, trace: string, revision: string)

  datatype Event = Event(plan: string, from: Status, to: Status, stamp: Stamp, at: int)

  datatype Ticket = Ticket(id: string, plan: string, key: string, tenant: string, task: string, operations: seq<string>,
                           target: string, payload: string, requestedBy: string, at: int)

  datatype Store = Store(plans: map<string, Plan>, heads: map<string, Head>, idem: map<IdemKey, IdemRow>,
                         log: seq<Event>, tickets: seq<Ticket>)

  const EMPTY := Store(map[], map[], map[], [], [])

  datatype Error =
    | PlanProtected | InvalidStatus | PlanNotFound | IllegalTransition | StaleRevision
    | PurposeNotReleasable | ValidationFailed | HeadConflict | NotReleased | TicketIdTaken

  datatype Call =
    | Save(now: int, version: string, identity: Identity, content: Content, status: Status, key: string)
    | SetHead(scenario: string, version: string, tenant: string, expected: Option<int>)
    | Move(now: int, version: string, to: Status, stamp: Stamp, expectedFrom: Option<Status>)
    | Release(now: int, version: string, scenario: string, tenant: string, stamp: Stamp,
              expectedFrom: Option<Status>, expected: Option<int>)
    | Issue(ticket: Ticket)

  // ------------------------------------------------------------------ one call

  function Revision(st: Store, scenario: string): nat {
    if scenario in st.heads then st.heads[scenario].revision else 0
  }

  predicate Passing(p: Plan) {
    p.content.report.status == Some(PASS)
  }

  predicate Conflict(st: Store, scenario: string, expected: Option<int>) {
    expected.Some? && Revision(st, scenario) != expected.value
  }

  function MoveFailure(st: Store, version: string, to: Status, expectedFrom: Option<Status>): Option<Error> {
    if to.Other? then Some(InvalidStatus)
    else if version !in st.plans then Some(PlanNotFound)
    else
      var p := st.plans[version];
      if p.status.Other? then Some(InvalidStatus)
      else if Rank(to) != Rank(p.status) + 1 then Some(IllegalTransition)
      else if expectedFrom.Some? && p.status != expectedFrom.value then Some(StaleRevision)
      else if p.identity.purpose != PRODUCTION && Protected(to) then Some(PurposeNotReleasable)
      else if to == Released && !Passing(p) then Some(ValidationFailed)
      else None
  }

  function ReleaseFailure(st: Store, version: string, scenario: string, expectedFrom: Option<Status>,
                          expected: Option<int>): Option<Error> {
    if version !in st.plans then Some(PlanNotFound)
    else
      var p := st.plans[version];
      if Protected(p.status) then Some(PlanProtected)
      else if expectedFrom.Some? && p.status != expectedFrom.value then Some(StaleRevision)
      else if p.status != Draft && p.status != Approved then Some(IllegalTransition)
      else if p.identity.purpose != PRODUCTION then Some(PurposeNotReleasable)
      else if !Passing(p) then Some(ValidationFailed)
      else if Conflict(st, scenario, expected) then Some(HeadConflict)
      else None
  }

  function TicketFor(tickets: seq<Ticket>, plan: string, key: string): (r: Option<Ticket>)
    ensures r.Some? ==> r.value in tickets && r.value.plan == plan && r.value.key == key
    ensures r.None? ==> forall t :: t in tickets ==> t.plan != plan || t.key != key
  {
    if tickets == [] then None
    else if tickets[0].plan == plan && tickets[0].key == key then Some(tickets[0])
    else TicketFor(tickets[1..], plan, key)
  }

  predicate IdTaken(tickets: seq<Ticket>, id: string) {
    exists i :: 0 <= i < |tickets| && tickets[i].id == id
  }

  datatype Reply = Refused(error: Error) | Issued(ticket: Ticket, replayed: bool)

  function Answer(st: Store, t: Ticket): Reply {
    if t.plan !in st.plans then Refused(PlanNotFound)
    else if st.plans[t.plan].status != Released then Refused(NotReleased)
    else
      match TicketFor(st.tickets, t.plan, t.key)
      case Some(first) => Issued(first, true)
      case None => if IdTaken(st.tickets, t.id) then Refused(TicketIdTaken) else Issued(t, false)
  }

  function Failure(st: Store, c: Call): Option<Error> {
    match c
    case Save(_, version, _, _, status, _) =>
      if (version in st.plans && Protected(st.plans[version].status)) || Protected(status) then Some(PlanProtected)
      else None
    case SetHead(scenario, _, _, expected) =>
      if Conflict(st, scenario, expected) then Some(HeadConflict) else None
    case Move(_, version, to, _, expectedFrom) => MoveFailure(st, version, to, expectedFrom)
    case Release(_, version, scenario, _, _, expectedFrom, expected) =>
      ReleaseFailure(st, version, scenario, expectedFrom, expected)
    case Issue(t) => if Answer(st, t).Refused? then Some(Answer(st, t).error) else None
  }

  /** The first save writes every column; a later one leaves the identity columns alone. */
  function Saved(st: Store, now: int, version: string, identity: Identity, content: Content, status: Status): Plan {
    if version in st.plans then st.plans[version].(content := content, status := status, updatedAt := now)
    else Plan(identity, content, status, None, now, now)
  }

  /** A plan's new status and the event that tells of it, for a caller that saw it as `from`. */
  function Written(st: Store, now: int, version: string, from: Status, to: Status, stamp: Stamp): Store
    requires version in st.plans
  {
    var p := st.plans[version];
    var q := p.(status := to, updatedAt := now, releasedAt := if to == Released then Some(now) else p.releasedAt);
    st.(plans := st.plans[version := q], log := st.log + [Event(version, from, to, stamp, now)])
  }

  function Moved(st: Store, now: int, version: string, to: Status, stamp: Stamp): Store
    requires version in st.plans
  {
    Written(st, now, version, st.plans[version].status, to, stamp)
  }

  function Headed(st: Store, scenario: string, version: string, tenant: string): Store {
    var who := if scenario in st.heads then st.heads[scenario].tenant else tenant;
    st.(heads := st.heads[scenario := Head(who, version, Revision(st, scenario) + 1)])
  }

  /** The gate name on the event into review when the apply gate does both steps. */
  function Review(stamp: Stamp): Stamp {
    stamp.(gate := stamp.gate + ":review")
  }

  function Effect(st: Store, c: Call): Store
    requires Failure(st, c).None?
  {
    match c
    case Save(now, version, identity, content, status, key) =>
      var k := IdemKey(identity.scenario, key);
      st.(plans := st.plans[version := Saved(st, now, version, identity, content, status)],
          idem := if key == "" || k in st.idem then st.idem else st.idem[k := IdemRow(version, identity.inputHash)])
    case SetHead(scenario, version, tenant, _) => Headed(st, scenario, version, tenant)
    case Move(now, version, to, stamp, _) => Moved(st, now, version, to, stamp)
    case Release(now, version, scenario, tenant, stamp, _, _) =>
      var st1 := if st.plans[version].status == Draft then Moved(st, now, version, Approved, Review(stamp)) else st;
      Headed(Moved(st1, now, version, Released, stamp), scenario, version, tenant)
    case Issue(t) => if Answer(st, t).replayed then st else st.(tickets := st.tickets + [t])
  }

  /** A call that fails leaves every table as it was. */
  function After(st: Store, c: Call): Store {
    if Failure(st, c).Some? then st else Effect(st, c)
  }

  /** The store after a run of calls on an empty one. */
  function Run(calls: seq<Call>): Store {
    if calls == [] then EMPTY else After(Run(calls[..|calls| - 1]), calls[|calls| - 1])
  }

  // ------------------------------------------------ the apply gate, step by step

  function Steps(c: Call, st: Store): seq<Call>
    requires c.Release?
  {
    (if c.version in st.plans && st.plans[c.version].status == Draft
     then [Move(c.now, c.version, Approved, Review(c.stamp), c.expectedFrom),
           Move(c.now, c.version, Released, c.stamp, None)]
     else [Move(c.now, c.version, Released, c.stamp, c.expectedFrom)])
    + [SetHead(c.scenario, c.version, c.tenant, c.expected)]
  }

  /** The store after the calls, or None if one of them fails. */
  function AllOf(st: Store, calls: seq<Call>): Option<Store>
    decreases |calls|
  {
    if calls == [] then Some(st)
    else if Failure(st, calls[0]).Some? then None
    else AllOf(Effect(st, calls[0]), calls[1..])
  }

  /** A release goes through exactly when each of its adjacent moves and the head swap would,
      and does what they would do one after the other. */
  lemma ReleaseIsItsSteps(st: Store, c: Call)
    requires c.Release?
    ensures Failure(st, c).None? <==> AllOf(st, Steps(c, st)).Some?
    ensures Failure(st, c).None? ==> AllOf(st, Steps(c, st)) == Some(Effect(st, c))
  {
    var last := SetHead(c.scenario, c.version, c.tenant, c.expected);
    LastOf(last);
    if c.version in st.plans && st.plans[c.version].status == Draft {
      var review := Move(c.now, c.version, Approved, Review(c.stamp), c.expectedFrom);
      var release := Move(c.now, c.version, Released, c.stamp, None);
      assert Steps(c, st) == [review, release, last];
      assert [review, release, last][1..] == [release, last];
      if Failure(st, review).None? {
        TwoOf(Effect(st, review), release, last);
      }
    } else {
      var release := Move(c.now, c.version, Released, c.stamp, c.expectedFrom);
      assert Steps(c, st) == [release, last];
      TwoOf(st, release, last);
    }
  }

  lemma LastOf(c: Call)
    ensures forall st :: AllOf(st, [c]) == if Failure(st, c).Some? then None else Some(Effect(st, c))
  {
    assert [c][1..] == [];
  }

  lemma TwoOf(st: Store, c: Call, d: Call)
    ensures AllOf(st, [c, d])
            == if Failure(st, c).Some? || Failure(Effect(st, c), d).Some? then None else Some(Effect(Effect(st, c), d))
  {
    assert [c, d][1..] == [d];
    LastOf(d);
  }
}

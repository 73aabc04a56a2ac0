/** What each row of the plan store is, told by the calls that were made. */
module PlanHistory {
  import opened Minutes
  import opened PlanStore
  import opened PlanPromises

  // ----------------------------------------------------------------- which calls count

  /** Call i saves version v, and goes through. */
  ghost predicate Saves(calls: seq<Call>, v: string, i: nat) {
    i < |calls| && calls[i].Save? && calls[i].version == v && Succeeds(calls, i)
  }

  /** Call i saves v or moves it to another status, and goes through. */
  ghost predicate Writes(calls: seq<Call>, v: string, i: nat) {
    && i < |calls| && (calls[i].Save? || calls[i].Move? || calls[i].Release?)
    && calls[i].version == v && Succeeds(calls, i)
  }

  /** Call i releases v, through either entry, and goes through. */
  ghost predicate Releases(calls: seq<Call>, v: string, i: nat) {
    && i < |calls| && (calls[i].Release? || (calls[i].Move? && calls[i].to == Released))
    && calls[i].version == v && Succeeds(calls, i)
  }

  ghost predicate FirstSave(calls: seq<Call>, v: string, i: nat) {
    Saves(calls, v, i) && forall j: nat :: j < i ==> !Saves(calls, v, j)
  }

  ghost predicate LastSave(calls: seq<Call>, v: string, i: nat) {
    Saves(calls, v, i) && forall j: nat :: i < j ==> !Saves(calls, v, j)
  }

  ghost predicate LastWrite(calls: seq<Call>, v: string, i: nat) {
    Writes(calls, v, i) && forall j: nat :: i < j ==> !Writes(calls, v, j)
  }

  ghost predicate LastRelease(calls: seq<Call>, v: string, i: nat) {
    Releases(calls, v, i) && forall j: nat :: i < j ==> !Releases(calls, v, j)
  }

  // -------------------------------------------------------------------- one call more

  lemma FrontSame(calls: seq<Call>, v: string, i: nat)
    requires i < |calls| - 1
    ensures var front := calls[..|calls| - 1];
      && (Saves(front, v, i) <==> Saves(calls, v, i)) && (Writes(front, v, i) <==> Writes(calls, v, i))
      && (Releases(front, v, i) <==> Releases(calls, v, i))
  {
    assert calls[..|calls| - 1][..i] == calls[..i];
  }

  lemma FrontAll(calls: seq<Call>, v: string)
    requires calls != []
    ensures var front, n := calls[..|calls| - 1], |calls| - 1;
      && (forall i: nat :: i < n ==> (Saves(front, v, i) <==> Saves(calls, v, i)))
      && (forall i: nat :: i < n ==> (Writes(front, v, i) <==> Writes(calls, v, i)))
      && (forall i: nat :: i < n ==> (Releases(front, v, i) <==> Releases(calls, v, i)))
  {
    var front, n := calls[..|calls| - 1], |calls| - 1;
    forall i: nat | i < n
      ensures (Saves(front, v, i) <==> Saves(calls, v, i)) && (Writes(front, v, i) <==> Writes(calls, v, i))
      ensures Releases(front, v, i) <==> Releases(calls, v, i)
    {
      FrontSame(calls, v, i);
    }
  }

  /** What a call that goes through leaves of version v. */
  lemma SaveLeaves(st: Store, c: Call, v: string)
    requires c.Save? && c.version == v && Failure(st, c).None?
    ensures v in After(st, c).plans
    ensures var p := After(st, c).plans[v];
      && p.content == c.content && p.status == c.status && p.updatedAt == c.now
      && (if v in st.plans
          then p.identity == st.plans[v].identity && p.createdAt == st.plans[v].createdAt
               && p.releasedAt == st.plans[v].releasedAt
          else p.identity == c.identity && p.createdAt == c.now && p.releasedAt.None?)
  {
  }

  lemma MoveLeaves(st: Store, c: Call, v: string)
    requires (c.Move? || c.Release?) && c.version == v && Failure(st, c).None?
    ensures v in st.plans && v in After(st, c).plans
    ensures var p, q := st.plans[v], After(st, c).plans[v];
      var to := if c.Move? then c.to else Released;
      && q.identity == p.identity && q.createdAt == p.createdAt && q.content == p.content
      && q.status == to && q.updatedAt == c.now && q.releasedAt == if to == Released then Some(c.now) else p.releasedAt
  {
  }

  lemma OtherLeaves(st: Store, c: Call, v: string)
    requires Failure(st, c).Some? || c.SetHead? || c.Issue? || c.version != v
    ensures v in After(st, c).plans <==> v in st.plans
    ensures v in st.plans ==> After(st, c).plans[v] == st.plans[v]
  {
  }

  // ---------------------------------------------------------------------- whole runs

  /** A version is in the store exactly when some save of it went through. Its identity and
      creation time are those of the first such save, its content (parent, algorithm, report
      and schedule) that of the last. */
  lemma {:induction false} StoredPlanIs(calls: seq<Call>, v: string) returns (first: nat, last: nat)
    ensures v !in Run(calls).plans ==> forall i: nat :: !Saves(calls, v, i)
    ensures v in Run(calls).plans ==>
              var p := Run(calls).plans[v];
              && FirstSave(calls, v, first) && p.identity == calls[first].identity && p.createdAt == calls[first].now
              && LastSave(calls, v, last) && p.content == calls[last].content
  {
    first, last := 0, 0;
    if calls != [] {
      var front, n := calls[..|calls| - 1], |calls| - 1;
      var st, c := Run(front), calls[n];
      first, last := StoredPlanIs(front, v);
      FrontAll(calls, v);
      assert Run(calls) == After(st, c) && calls[..n] == front;
      assert Succeeds(calls, n) <==> Failure(st, c).None?;
      if c.Save? && c.version == v && Failure(st, c).None? {
        SaveLeaves(st, c, v);
        first := if v in st.plans then first else n;
        last := n;
      } else if (c.Move? || c.Release?) && c.version == v && Failure(st, c).None? {
        MoveLeaves(st, c, v);
      } else {
        OtherLeaves(st, c, v);
      }
      hide Run, After, Failure, Succeeds, Writes, Releases;
    }
  }

  /** The status that a call writes. */
  function Wrote(c: Call): Status
    requires c.Save? || c.Move? || c.Release?
  {
    match c
    case Save(_, _, _, _, status, _) => status
    case Move(_, _, to, _, _) => to
    case _ => Released
  }

  /** Its status and update time are those of the last save or transition of it that went
      through. */
  lemma {:induction false} StatusIs(calls: seq<Call>, v: string) returns (i: nat)
    ensures v !in Run(calls).plans ==> forall i: nat :: !Writes(calls, v, i)
    ensures v in Run(calls).plans ==>
              var p := Run(calls).plans[v];
              LastWrite(calls, v, i) && p.updatedAt == calls[i].now && p.status == Wrote(calls[i])
  {
    i := 0;
    if calls != [] {
      var front, n := calls[..|calls| - 1], |calls| - 1;
      var st, c := Run(front), calls[n];
      i := StatusIs(front, v);
      FrontAll(calls, v);
      assert Run(calls) == After(st, c) && calls[..n] == front;
      assert Succeeds(calls, n) <==> Failure(st, c).None?;
      if c.Save? && c.version == v && Failure(st, c).None? {
        SaveLeaves(st, c, v);
        i := n;
      } else if (c.Move? || c.Release?) && c.version == v && Failure(st, c).None? {
        MoveLeaves(st, c, v);
        i := n;
      } else {
        OtherLeaves(st, c, v);
      }
      hide Run, After, Failure, Succeeds, Saves, Releases;
    }
  }

  /** And its release time is that of its release, if it was released. */
  lemma {:induction false} ReleaseTimeIs(calls: seq<Call>, v: string) returns (i: nat)
    ensures v in Run(calls).plans && Run(calls).plans[v].releasedAt.Some? ==>
              LastRelease(calls, v, i) && Run(calls).plans[v].releasedAt == Some(calls[i].now)
    ensures v !in Run(calls).plans || Run(calls).plans[v].releasedAt.None? ==> forall j: nat :: !Releases(calls, v, j)
  {
    hide Saves, Writes;
    i := 0;
    if calls != [] {
      var front, n := calls[..|calls| - 1], |calls| - 1;
      var st, c := Run(front), calls[n];
      i := ReleaseTimeIs(front, v);
      FrontAll(calls, v);
      assert Run(calls) == After(st, c) && calls[..n] == front;
      assert Succeeds(calls, n) <==> Failure(st, c).None?;
      if c.Save? && c.version == v && Failure(st, c).None? {
        SaveLeaves(st, c, v);
      } else if (c.Move? || c.Release?) && c.version == v && Failure(st, c).None? {
        MoveLeaves(st, c, v);
        i := if c.Release? || c.to == Released then n else i;
      } else {
        OtherLeaves(st, c, v);
      }
      hide Run, After, Failure, Succeeds;
    }
  }

  // ------------------------------------------------------------------- what is refused

  /** The status that may follow. */
  function Next(s: Status): Option<Status> {
    match s
    case Draft => Some(Approved)
    case Approved => Some(Released)
    case Released => Some(Dispatched)
    case Dispatched => Some(Execution)
    case _ => None
  }

  datatype Check = Check(fails: bool, error: Error)

  /** The error of the first check that fails. */
  function FirstFailing(checks: seq<Check>): Option<Error> {
    if checks == [] then None else if checks[0].fails then Some(checks[0].error) else FirstFailing(checks[1..])
  }

  function StatusOf(st: Store, v: string): Option<Status> {
    if v in st.plans then Some(st.plans[v].status) else None
  }

  predicate Stands(st: Store, v: string, among: set<Status>) {
    v in st.plans && st.plans[v].status in among
  }

  function HeadRevision(st: Store, scenario: string): nat {
    if scenario in st.heads then st.heads[scenario].revision else 0
  }

  predicate Productive(st: Store, v: string) {
    v in st.plans && st.plans[v].identity.purpose == "production"
  }

  predicate Passed(st: Store, v: string) {
    v in st.plans && st.plans[v].content.report.status == Some("pass")
  }

  /** What a transition is checked for, in order. */
  function MoveChecks(st: Store, c: Call): seq<Check>
    requires c.Move?
  {
    var s := StatusOf(st, c.version);
    [Check(c.to.Other?, InvalidStatus),
     Check(s.None?, PlanNotFound),
     Check(s.Some? && s.value.Other?, InvalidStatus),
     Check(s.Some? && Next(s.value) != Some(c.to), IllegalTransition),
     Check(c.expectedFrom.Some? && s != c.expectedFrom, StaleRevision),
     Check(!Productive(st, c.version) && c.to in {Released, Dispatched, Execution}, PurposeNotReleasable),
     Check(!Passed(st, c.version) && c.to == Released, ValidationFailed)]
  }

  /** And a release. */
  function ReleaseChecks(st: Store, c: Call): seq<Check>
    requires c.Release?
  {
    var s := StatusOf(st, c.version);
    [Check(s.None?, PlanNotFound),
     Check(Stands(st, c.version, {Released, Dispatched, Execution}), PlanProtected),
     Check(c.expectedFrom.Some? && s != c.expectedFrom, StaleRevision),
     Check(!Stands(st, c.version, {Draft, Approved}), IllegalTransition),
     Check(!Productive(st, c.version), PurposeNotReleasable),
     Check(!Passed(st, c.version), ValidationFailed),
     Check(c.expected.Some? && c.expected.value != HeadRevision(st, c.scenario), HeadConflict)]
  }

  lemma {:induction false} FirstFailingIs(checks: seq<Check>, i: nat)
    requires i <= |checks| && (forall j :: 0 <= j < i ==> !checks[j].fails) && (i < |checks| ==> checks[i].fails)
    ensures FirstFailing(checks) == if i < |checks| then Some(checks[i].error) else None
  {
    if i > 0 {
      FirstFailingIs(checks[1..], i - 1);
    }
  }

  lemma MoveRefusedIff(st: Store, c: Call)
    requires c.Move?
    ensures Failure(st, c) == FirstFailing(MoveChecks(st, c))
  {
    var checks := MoveChecks(st, c);
    var i: nat := if checks[0].fails then 0 else if checks[1].fails then 1 else if checks[2].fails then 2
      else if checks[3].fails then 3 else if checks[4].fails then 4 else if checks[5].fails then 5
      else if checks[6].fails then 6 else 7;
    FirstFailingIs(checks, i);
  }

  lemma ReleaseRefusedIff(st: Store, c: Call)
    requires c.Release?
    ensures Failure(st, c) == FirstFailing(ReleaseChecks(st, c))
  {
    var checks := ReleaseChecks(st, c);
    var i: nat := if checks[0].fails then 0 else if checks[1].fails then 1 else if checks[2].fails then 2
      else if checks[3].fails then 3 else if checks[4].fails then 4 else if checks[5].fails then 5
      else if checks[6].fails then 6 else 7;
    FirstFailingIs(checks, i);
  }

  /** A save is refused for a protected plan and for a protected status, a head swap for a
      revision that is not the one expected, and nothing else. */
  lemma SaveRefusedIff(st: Store, c: Call)
    requires c.Save? || c.SetHead?
    ensures c.Save? ==>
              Failure(st, c) == if Stands(st, c.version, {Released, Dispatched, Execution})
                                   || c.status in {Released, Dispatched, Execution} then Some(PlanProtected) else None
    ensures c.SetHead? ==>
              Failure(st, c) == if c.expected.Some?
                && c.expected.value != HeadRevision(st, c.scenario) then Some(HeadConflict) else None
  {
  }

  /** A dispatch is refused for a plan that is not there or not released, or, when it is new
      under its plan and key, for an id that is taken. */
  lemma IssueRefusedIff(st: Store, c: Call)
    requires c.Issue?
    ensures var t := c.ticket;
      var unseen := forall u :: u in st.tickets ==> u.plan != t.plan || u.key != t.key;
      Failure(st, c) == if t.plan !in st.plans then Some(PlanNotFound)
                        else if st.plans[t.plan].status != Released then Some(NotReleased)
                        else if unseen && exists u :: u in st.tickets && u.id == t.id then Some(TicketIdTaken)
                        else None
  {
    var t := c.ticket;
    if IdTaken(st.tickets, t.id) {
      var i :| 0 <= i < |st.tickets| && st.tickets[i].id == t.id;
      assert st.tickets[i] in st.tickets;
    }
    if u :| u in st.tickets && u.id == t.id {
      var i :| 0 <= i < |st.tickets| && st.tickets[i] == u;
      assert IdTaken(st.tickets, t.id);
    }
  }

  // --------------------------------------------------------------------- the log

  /** The events a call writes: its own move, or both moves of a release of a draft. */
  function Logged(st: Store, c: Call): seq<Event> {
    match c
    case Move(now, v, to, stamp, _) => if v in st.plans then [Event(v, st.plans[v].status, to, stamp, now)] else []
    case Release(now, v, _, _, stamp, _, _) =>
      var review := Stamp(stamp.gate + ":review", stamp.actor, stamp.task, stamp.trace, stamp.revision);
      (if StatusOf(st, v) == Some(Draft) then [Event(v, Draft, Approved, review, now)] else [])
      + [Event(v, Approved, Released, stamp, now)]
    case _ => []
  }

  ghost function LogOf(calls: seq<Call>): seq<Event> {
    if calls == [] then []
    else
      var front, c := calls[..|calls| - 1], calls[|calls| - 1];
      LogOf(front) + (if Failure(Run(front), c).None? then Logged(Run(front), c) else [])
  }

  lemma LoggedBy(st: Store, c: Call)
    requires Failure(st, c).None?
    ensures After(st, c).log == st.log + Logged(st, c)
  {
  }

  /** The log holds the events of the calls that went through, in order, and no others. */
  lemma {:induction false} LogIs(calls: seq<Call>)
    ensures Run(calls).log == LogOf(calls)
  {
    if calls != [] {
      var front, c := calls[..|calls| - 1], calls[|calls| - 1];
      LogIs(front);
      if Failure(Run(front), c).None? {
        LoggedBy(Run(front), c);
      }
      hide Logged;
    }
  }

  // ----------------------------------------------------------------------- heads

  /** Call i moves the head of the scenario. */
  ghost predicate MovesHead(calls: seq<Call>, s: string, i: nat) {
    i < |calls| && (calls[i].SetHead? || calls[i].Release?) && calls[i].scenario == s && Succeeds(calls, i)
  }

  lemma FrontMoves(calls: seq<Call>, s: string)
    requires calls != []
    ensures forall i: nat :: i < |calls| - 1 ==> (MovesHead(calls[..|calls| - 1], s, i) <==> MovesHead(calls, s, i))
  {
    forall i: nat | i < |calls| - 1
      ensures MovesHead(calls[..|calls| - 1], s, i) <==> MovesHead(calls, s, i)
    {
      assert calls[..|calls| - 1][..i] == calls[..i];
    }
  }

  lemma HeadLeft(st: Store, c: Call, s: string)
    ensures var moves, st' := (c.SetHead? || c.Release?) && c.scenario == s && Failure(st, c).None?, After(st, c);
      && (s in st'.heads <==> s in st.heads || moves)
      && (moves ==> st'.heads[s].plan == c.version
                    && st'.heads[s].tenant == if s in st.heads then st.heads[s].tenant else c.tenant)
      && (!moves && s in st.heads ==> st'.heads[s] == st.heads[s])
  {
  }

  /** A head names the plan of the last call that moved it and the tenant of the first. */
  lemma {:induction false} HeadIs(calls: seq<Call>, s: string) returns (first: nat, last: nat)
    ensures s !in Run(calls).heads ==> forall i: nat :: !MovesHead(calls, s, i)
    ensures s in Run(calls).heads ==>
              && MovesHead(calls, s, first) && (forall j: nat :: j < first ==> !MovesHead(calls, s, j))
              && MovesHead(calls, s, last) && (forall j: nat :: last < j ==> !MovesHead(calls, s, j))
              && Run(calls).heads[s].plan == calls[last].version && Run(calls).heads[s].tenant == calls[first].tenant
  {
    first, last := 0, 0;
    if calls != [] {
      var front, n := calls[..|calls| - 1], |calls| - 1;
      var st, c := Run(front), calls[n];
      first, last := HeadIs(front, s);
      FrontMoves(calls, s);
      assert Run(calls) == After(st, c) && calls[..n] == front;
      assert Succeeds(calls, n) <==> Failure(st, c).None?;
      HeadLeft(st, c, s);
      hide Run, After, Failure, Succeeds;
      if MovesHead(calls, s, n) {
        first := if s in st.heads then first else n;
        last := n;
      }
    }
  }

  // --------------------------------------------------------------------- dispatch

  /** Call i is the first to be issued a ticket for its plan and key. */
  ghost predicate Issues(calls: seq<Call>, i: nat, t: Ticket) {
    && i < |calls| && calls[i] == Issue(t) && Succeeds(calls, i)
    && forall u :: u in Run(calls[..i]).tickets ==> u.plan != t.plan || u.key != t.key
  }

  lemma IssueLeaves(st: Store, c: Call, t: Ticket)
    ensures t in After(st, c).tickets
            <==> t in st.tickets
                 || (c == Issue(t) && Failure(st, c).None?
                     && forall u :: u in st.tickets ==> u.plan != t.plan || u.key != t.key)
  {
  }

  /** The dispatch rows are the tickets that were asked for, each under a plan and key for
      which there was none. */
  lemma {:induction false} TicketsAre(calls: seq<Call>, t: Ticket)
    ensures t in Run(calls).tickets <==> exists i: nat :: Issues(calls, i, t)
  {
    if calls != [] {
      var front, n := calls[..|calls| - 1], |calls| - 1;
      TicketsAre(front, t);
      assert Run(calls) == After(Run(front), calls[n]) && calls[..n] == front;
      assert Succeeds(calls, n) <==> Failure(Run(front), calls[n]).None?;
      IssueLeaves(Run(front), calls[n], t);
      forall i: nat | i < n
        ensures Issues(front, i, t) <==> Issues(calls, i, t)
      {
        assert front[..i] == calls[..i];
      }
      hide Run, After, Failure, Succeeds;
      assert Issues(calls, n, t)
        <==> (&& calls[n] == Issue(t) && Succeeds(calls, n)
              && forall u :: u in Run(front).tickets ==> u.plan != t.plan || u.key != t.key);
    }
  }
}

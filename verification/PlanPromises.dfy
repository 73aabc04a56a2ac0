/** What every run of the plan store keeps. */
module PlanPromises {
  import opened Minutes
  import opened PlanStore

  // ----------------------------------------------------------- what always holds

  /** The protected statuses a plan entered, oldest first, as the log tells it. */
  ghost function Passages(log: seq<Event>, v: string): seq<Status> {
    if log == [] then []
    else
      var last := log[|log| - 1];
      Passages(log[..|log| - 1], v) + (if last.plan == v && Protected(last.to) then [last.to] else [])
  }

  ghost function Ladder(s: Status): seq<Status> {
    match s
    case Released => [Released]
    case Dispatched => [Released, Dispatched]
    case Execution => [Released, Dispatched, Execution]
    case _ => []
  }

  ghost predicate SoundlyReleased(p: Plan) {
    Protected(p.status) ==> p.identity.purpose == PRODUCTION && Passing(p) && p.releasedAt.Some?
  }

  ghost predicate Adjacent(e: Event) {
    Rank(e.from) >= 0 && Rank(e.to) == Rank(e.from) + 1
  }

  ghost predicate PlansOk(st: Store) {
    && (forall v :: v in st.plans ==> SoundlyReleased(st.plans[v]))
    && (forall k :: k in st.idem ==> st.idem[k].plan in st.plans)
  }

  ghost predicate LogOk(st: Store) {
    && (forall i :: 0 <= i < |st.log| ==> Adjacent(st.log[i]) && st.log[i].plan in st.plans)
    && (forall v :: v in st.plans ==> Passages(st.log, v) == Ladder(st.plans[v].status))
  }

  ghost predicate TicketsOk(st: Store) {
    && (forall i :: 0 <= i < |st.tickets| ==>
          st.tickets[i].plan in st.plans && Protected(st.plans[st.tickets[i].plan].status))
    && (forall i, j :: 0 <= i < j < |st.tickets| ==>
          st.tickets[i].id != st.tickets[j].id
          && (st.tickets[i].plan != st.tickets[j].plan || st.tickets[i].key != st.tickets[j].key))
  }

  ghost predicate Sound(st: Store) {
    PlansOk(st) && LogOk(st) && TicketsOk(st)
  }

  // --------------------------------------------------------- what never goes back

  /** What a later state keeps of a plan: who it is, and once protected, all of it but its
      status, which only moves forward. */
  ghost predicate PlanKept(p: Plan, q: Plan) {
    && p.identity == q.identity && p.createdAt == q.createdAt
    && (Protected(p.status) ==>
          Protected(q.status) && Rank(p.status) <= Rank(q.status)
          && p.content == q.content && p.releasedAt == q.releasedAt)
  }

  ghost predicate HeadKept(h: Head, g: Head) {
    h.revision <= g.revision && h.tenant == g.tenant && (h.revision == g.revision ==> h == g)
  }

  ghost predicate PlansGrow(st: Store, st': Store) {
    && (forall v :: v in st.plans ==> v in st'.plans && PlanKept(st.plans[v], st'.plans[v]))
    && (forall k :: k in st.idem ==> k in st'.idem && st'.idem[k] == st.idem[k])
  }

  ghost predicate HeadsGrow(st: Store, st': Store) {
    forall s :: s in st.heads ==> s in st'.heads && HeadKept(st.heads[s], st'.heads[s])
  }

  ghost predicate Grows(st: Store, st': Store) {
    PlansGrow(st, st') && HeadsGrow(st, st') && st.log <= st'.log && st.tickets <= st'.tickets
  }

  lemma GrowsThrough(a: Store, b: Store, c: Store)
    requires Grows(a, b) && Grows(b, c)
    ensures Grows(a, c)
  {
  }

  // ---------------------------------------------------------------- the effects

  lemma PassagesAppend(log: seq<Event>, e: Event, v: string)
    ensures Passages(log + [e], v) == Passages(log, v) + (if e.plan == v && Protected(e.to) then [e.to] else [])
  {
    assert (log + [e])[..|log + [e]| - 1] == log;
  }

  lemma TicketsKept(st: Store, st': Store)
    requires TicketsOk(st) && PlansGrow(st, st') && st'.tickets == st.tickets
    ensures TicketsOk(st')
  {
  }

  lemma SaveKeepsPlans(st: Store, c: Call)
    requires PlansOk(st) && c.Save? && Failure(st, c).None?
    ensures PlansOk(Effect(st, c)) && PlansGrow(st, Effect(st, c))
  {
  }

  lemma SaveKeepsLog(st: Store, c: Call)
    requires LogOk(st) && c.Save? && Failure(st, c).None?
    ensures LogOk(Effect(st, c))
  {
    hide Passages;
    if c.version !in st.plans {
      NotLogged(st.log, c.version);
    }
    var st' := Effect(st, c);
    forall v | v in st'.plans
      ensures Passages(st'.log, v) == Ladder(st'.plans[v].status)
    {
      if v == c.version && v in st.plans {
        assert Ladder(st.plans[v].status) == [];
      }
    }
  }

  lemma SaveKeeps(st: Store, c: Call)
    requires Sound(st) && c.Save? && Failure(st, c).None?
    ensures Sound(Effect(st, c)) && Grows(st, Effect(st, c))
  {
    SaveKeepsPlans(st, c);
    SaveKeepsLog(st, c);
    TicketsKept(st, Effect(st, c));
    hide PlansOk, LogOk, TicketsOk, PlansGrow;
  }

  lemma {:induction false} NotLogged(log: seq<Event>, v: string)
    requires forall i :: 0 <= i < |log| ==> log[i].plan != v
    ensures Passages(log, v) == []
  {
    if log != [] {
      NotLogged(log[..|log| - 1], v);
    }
  }

  ghost predicate LegalMove(p: Plan, to: Status) {
    && Rank(p.status) >= 0 && Rank(to) == Rank(p.status) + 1
    && (Protected(to) ==> p.identity.purpose == PRODUCTION)
    && (to == Released ==> Passing(p))
  }

  lemma MovedKeepsPlans(st: Store, now: int, version: string, to: Status, stamp: Stamp)
    requires PlansOk(st) && version in st.plans && LegalMove(st.plans[version], to)
    ensures PlansOk(Moved(st, now, version, to, stamp)) && PlansGrow(st, Moved(st, now, version, to, stamp))
  {
  }

  lemma MovedKeepsLog(st: Store, now: int, version: string, to: Status, stamp: Stamp)
    requires LogOk(st) && version in st.plans && LegalMove(st.plans[version], to)
    ensures LogOk(Moved(st, now, version, to, stamp))
  {
    hide Passages;
    var st' := Moved(st, now, version, to, stamp);
    var e := Event(version, st.plans[version].status, to, stamp, now);
    assert st'.log == st.log + [e];
    forall v | v in st'.plans
      ensures Passages(st'.log, v) == Ladder(st'.plans[v].status)
    {
      PassagesAppend(st.log, e, v);
    }
  }

  lemma MovedLeaves(st: Store, now: int, version: string, to: Status, stamp: Stamp)
    requires version in st.plans
    ensures var st' := Moved(st, now, version, to, stamp);
      HeadsGrow(st, st') && st.log <= st'.log && st'.tickets == st.tickets
  {
  }

  lemma MovedKeeps(st: Store, now: int, version: string, to: Status, stamp: Stamp)
    requires Sound(st) && version in st.plans && LegalMove(st.plans[version], to)
    ensures Sound(Moved(st, now, version, to, stamp)) && Grows(st, Moved(st, now, version, to, stamp))
  {
    hide PlansOk, LogOk, TicketsOk, PlansGrow, HeadsGrow, LegalMove, Moved;
    MovedKeepsPlans(st, now, version, to, stamp);
    MovedKeepsLog(st, now, version, to, stamp);
    MovedLeaves(st, now, version, to, stamp);
    TicketsKept(st, Moved(st, now, version, to, stamp));
  }

  lemma HeadedKeeps(st: Store, scenario: string, version: string, tenant: string)
    requires Sound(st)
    ensures Sound(Headed(st, scenario, version, tenant)) && Grows(st, Headed(st, scenario, version, tenant))
  {
  }

  lemma IssueKeepsTickets(st: Store, t: Ticket)
    requires TicketsOk(st) && Answer(st, t) == Issued(t, false)
    ensures TicketsOk(st.(tickets := st.tickets + [t]))
  {
    forall i | 0 <= i < |st.tickets|
      ensures st.tickets[i].id != t.id && (st.tickets[i].plan != t.plan || st.tickets[i].key != t.key)
    {
      assert st.tickets[i] in st.tickets;
    }
  }

  lemma IssueKeeps(st: Store, c: Call)
    requires Sound(st) && c.Issue? && Failure(st, c).None?
    ensures Sound(Effect(st, c)) && Grows(st, Effect(st, c))
  {
    hide TicketsOk, PlansOk, LogOk, Grows, TicketFor, IdTaken;
    if !Answer(st, c.ticket).replayed {
      IssueKeepsTickets(st, c.ticket);
      OnlyTickets(st, [c.ticket]);
    } else {
      NothingGrows(st);
    }
  }

  lemma OnlyTickets(st: Store, more: seq<Ticket>)
    requires PlansOk(st) && LogOk(st)
    ensures var st' := st.(tickets := st.tickets + more); PlansOk(st') && LogOk(st') && Grows(st, st')
  {
  }

  lemma ReleaseKeeps(st: Store, c: Call)
    requires Sound(st) && c.Release? && Failure(st, c).None?
    ensures Sound(Effect(st, c)) && Grows(st, Effect(st, c))
  {
    hide Sound, Grows;
    var st1 := if st.plans[c.version].status == Draft then Moved(st, c.now, c.version, Approved, Review(c.stamp))
               else st;
    if st.plans[c.version].status == Draft {
      MovedKeeps(st, c.now, c.version, Approved, Review(c.stamp));
    } else {
      NothingGrows(st);
    }
    MovedKeeps(st1, c.now, c.version, Released, c.stamp);
    var st2 := Moved(st1, c.now, c.version, Released, c.stamp);
    HeadedKeeps(st2, c.scenario, c.version, c.tenant);
    GrowsThrough(st, st1, st2);
    GrowsThrough(st, st2, Effect(st, c));
  }

  lemma NothingGrows(st: Store)
    ensures Grows(st, st)
  {
  }

  lemma CallKeeps(st: Store, c: Call)
    requires Sound(st)
    ensures Sound(After(st, c)) && Grows(st, After(st, c))
  {
    hide Sound, Grows;
    if Failure(st, c).Some? {
      NothingGrows(st);
    } else {
      match c
      case Save(_, _, _, _, _, _) => SaveKeeps(st, c);
      case SetHead(s, v, t, _) => HeadedKeeps(st, s, v, t);
      case Move(now, v, to, stamp, _) => MovedKeeps(st, now, v, to, stamp);
      case Release(_, _, _, _, _, _, _) => ReleaseKeeps(st, c);
      case Issue(_) => IssueKeeps(st, c);
    }
  }

  // ------------------------------------------------------------------ whole runs

  /** In every reachable store a protected plan was releasable and released, the log tells
      each plan's protected statuses exactly once and in order, and each ticket names such a
      plan, one ticket to a plan and key. */
  lemma {:induction false} RunSound(calls: seq<Call>)
    ensures Sound(Run(calls))
  {
    if calls != [] {
      hide Sound;
      RunSound(calls[..|calls| - 1]);
      CallKeeps(Run(calls[..|calls| - 1]), calls[|calls| - 1]);
    } else {
      assert Sound(EMPTY);
    }
  }

  /** Whatever calls follow, a protected plan stays as it is and moves only forward, and no
      event, ticket or idempotency row is lost or changed. */
  lemma {:induction false} RunGrows(calls: seq<Call>, i: nat)
    requires i <= |calls|
    ensures Grows(Run(calls[..i]), Run(calls))
  {
    hide Grows, Sound;
    if i == |calls| {
      assert calls[..i] == calls;
      NothingGrows(Run(calls));
    } else {
      var front := calls[..|calls| - 1];
      assert front[..i] == calls[..i];
      RunGrows(front, i);
      RunSound(front);
      CallKeeps(Run(front), calls[|calls| - 1]);
      GrowsThrough(Run(calls[..i]), Run(front), Run(calls));
    }
  }

  lemma Between(calls: seq<Call>, i: nat, j: nat)
    requires i < j <= |calls|
    ensures Grows(After(Run(calls[..i]), calls[i]), Run(calls[..j]))
  {
    hide Grows;
    var front := calls[..i + 1];
    assert front[..i] == calls[..i];
    assert calls[..j][..i + 1] == front;
    RunGrows(calls[..j], i + 1);
  }

  ghost predicate Succeeds(calls: seq<Call>, i: nat)
    requires i < |calls|
  {
    Failure(Run(calls[..i]), calls[i]).None?
  }

  /** No plan is released twice, through either entry. */
  lemma ReleasedOnce(calls: seq<Call>, i: nat, j: nat)
    requires i < j < |calls| && Succeeds(calls, i) && Succeeds(calls, j)
    requires IsRelease(calls[i]) && IsRelease(calls[j])
    ensures calls[i].version != calls[j].version
  {
    Between(calls, i, j);
  }

  ghost predicate IsRelease(c: Call) {
    c.Release? || (c.Move? && c.to == Released)
  }

  // ----------------------------------------------------------------------- heads

  ghost predicate Advances(st: Store, c: Call, s: string) {
    Failure(st, c).None? && (c.SetHead? || c.Release?) && c.scenario == s
  }

  ghost function AdvanceCount(calls: seq<Call>, s: string): nat {
    if calls == [] then 0
    else
      var front := calls[..|calls| - 1];
      AdvanceCount(front, s) + (if Advances(Run(front), calls[|calls| - 1], s) then 1 else 0)
  }

  lemma RevisionAfter(st: Store, c: Call, s: string)
    ensures Revision(After(st, c), s) == Revision(st, s) + (if Advances(st, c, s) then 1 else 0)
    ensures !Advances(st, c, s) ==> (s in After(st, c).heads <==> s in st.heads)
                                    && (s in st.heads ==> After(st, c).heads[s] == st.heads[s])
    ensures Advances(st, c, s) ==> s in After(st, c).heads && After(st, c).heads[s].plan == c.version
  {
  }

  /** A head's revision counts the calls that moved it. */
  lemma {:induction false} RevisionCounts(calls: seq<Call>, s: string)
    ensures Revision(Run(calls), s) == AdvanceCount(calls, s)
  {
    if calls != [] {
      var front := calls[..|calls| - 1];
      RevisionCounts(front, s);
      RevisionAfter(Run(front), calls[|calls| - 1], s);
    }
  }

  /** Two calls that expect the same revision of a head cannot both move it. */
  lemma SwapIsExclusive(calls: seq<Call>, i: nat, j: nat, s: string)
    requires i < j < |calls|
    requires Advances(Run(calls[..i]), calls[i], s) && Advances(Run(calls[..j]), calls[j], s)
    requires calls[i].expected.Some? && calls[j].expected.Some?
    ensures calls[i].expected.value < calls[j].expected.value
  {
    RevisionAfter(Run(calls[..i]), calls[i], s);
    Between(calls, i, j);
  }

  /** A bare head swap goes through exactly when the caller counted every move before it. */
  lemma SwapSucceedsIff(calls: seq<Call>, i: nat)
    requires i < |calls| && calls[i].SetHead? && calls[i].expected.Some?
    ensures Succeeds(calls, i) <==> calls[i].expected.value == AdvanceCount(calls[..i], calls[i].scenario)
  {
    RevisionCounts(calls[..i], calls[i].scenario);
  }

  /** Heads moved by releases only, so far. */
  ghost predicate OnlyReleases(calls: seq<Call>) {
    forall i :: 0 <= i < |calls| ==> !calls[i].SetHead?
  }

  ghost predicate HeadsOk(st: Store) {
    && (forall s :: s in st.heads ==> st.heads[s].plan in st.plans && Protected(st.plans[st.heads[s].plan].status))
    && (forall s, t :: s in st.heads && t in st.heads && s != t ==> st.heads[s].plan != st.heads[t].plan)
  }

  lemma HeadsKept(st: Store, st': Store)
    requires HeadsOk(st) && PlansGrow(st, st') && st'.heads == st.heads
    ensures HeadsOk(st')
  {
  }

  /** A plan that becomes a head as it becomes protected was no head before. */
  lemma HeadsWith(st: Store, st': Store, s: string, h: Head)
    requires HeadsOk(st) && PlansGrow(st, st') && st'.heads == st.heads[s := h]
    requires h.plan in st.plans && !Protected(st.plans[h.plan].status) && Protected(st'.plans[h.plan].status)
    ensures HeadsOk(st')
  {
    assert forall t :: t in st.heads ==> st.heads[t].plan != h.plan;
  }

  lemma ReleaseMakesHead(st: Store, c: Call)
    requires c.Release? && Failure(st, c).None?
    ensures var st' := Effect(st, c);
      && c.version in st.plans && !Protected(st.plans[c.version].status)
      && c.version in st'.plans && Protected(st'.plans[c.version].status)
      && c.scenario in st'.heads && st'.heads[c.scenario].plan == c.version
      && st'.heads == st.heads[c.scenario := st'.heads[c.scenario]]
  {
  }

  lemma ReleaseKeepsHeads(st: Store, c: Call)
    requires Sound(st) && HeadsOk(st) && c.Release? && Failure(st, c).None?
    ensures HeadsOk(Effect(st, c))
  {
    hide Sound, HeadsOk, PlansGrow, HeadsGrow, Effect, Failure, Protected;
    ReleaseMakesHead(st, c);
    ReleaseKeeps(st, c);
    HeadsWith(st, Effect(st, c), c.scenario, Effect(st, c).heads[c.scenario]);
  }

  lemma CallKeepsHeads(st: Store, c: Call)
    requires Sound(st) && HeadsOk(st) && !c.SetHead?
    ensures HeadsOk(After(st, c))
  {
    CallKeeps(st, c);
    hide Sound, HeadsOk, PlansGrow;
    if c.Release? && Failure(st, c).None? {
      ReleaseKeepsHeads(st, c);
    } else {
      HeadsKept(st, After(st, c));
    }
  }

  /** While only releases move heads, every head names a protected plan and no plan is the
      head of two scenarios. */
  lemma {:induction false} HeadsAreReleased(calls: seq<Call>)
    requires OnlyReleases(calls)
    ensures HeadsOk(Run(calls))
  {
    if calls != [] {
      var front := calls[..|calls| - 1];
      HeadsAreReleased(front);
      RunSound(front);
      CallKeepsHeads(Run(front), calls[|calls| - 1]);
    }
  }

  /** Every head belongs to the scenario of the plan it names. */
  ghost predicate HeadsHome(st: Store) {
    forall s :: s in st.heads ==> st.heads[s].plan in st.plans && st.plans[st.heads[s].plan].identity.scenario == s
  }

  /** Call i, if it is a release that goes through, names the scenario of its own plan. */
  ghost predicate NamesOwn(calls: seq<Call>, i: nat)
    requires i < |calls|
  {
    calls[i].Release? && Succeeds(calls, i) ==>
      calls[i].version in Run(calls[..i]).plans
      && Run(calls[..i]).plans[calls[i].version].identity.scenario == calls[i].scenario
  }

  ghost predicate AlwaysHome(calls: seq<Call>) {
    forall n :: 0 <= n <= |calls| ==> HeadsHome(Run(calls[..n]))
  }

  lemma RunNext(calls: seq<Call>, i: nat)
    requires i < |calls|
    ensures Run(calls[..i + 1]) == After(Run(calls[..i]), calls[i])
  {
    assert calls[..i + 1][..i] == calls[..i];
  }

  lemma CallKeepsHome(st: Store, c: Call)
    requires Sound(st) && HeadsHome(st) && !c.SetHead?
    requires c.Release? && Failure(st, c).None? ==>
               c.version in st.plans && st.plans[c.version].identity.scenario == c.scenario
    ensures HeadsHome(After(st, c))
  {
    CallKeeps(st, c);
    hide Sound, After;
    var st' := After(st, c);
    forall s | s in st'.heads
      ensures st'.heads[s].plan in st'.plans && st'.plans[st'.heads[s].plan].identity.scenario == s
    {
      RevisionAfter(st, c, s);
    }
  }

  lemma {:induction false} OwnKeepsHome(calls: seq<Call>, n: nat)
    requires OnlyReleases(calls) && n <= |calls| && forall i :: 0 <= i < |calls| ==> NamesOwn(calls, i)
    ensures HeadsHome(Run(calls[..n]))
  {
    if n > 0 {
      hide HeadsHome, Sound, After;
      OwnKeepsHome(calls, n - 1);
      RunSound(calls[..n - 1]);
      RunNext(calls, n - 1);
      assert NamesOwn(calls, n - 1);
      CallKeepsHome(Run(calls[..n - 1]), calls[n - 1]);
    }
  }

  /** A release moves the head of the scenario its caller names, whatever the plan's own is.
      So while only releases move heads, heads belong to the scenarios of their plans at every
      point of a run exactly when every release that went through named its plan's scenario. */
  lemma HeadsHomeIff(calls: seq<Call>)
    requires OnlyReleases(calls)
    ensures AlwaysHome(calls) <==> forall i :: 0 <= i < |calls| ==> NamesOwn(calls, i)
  {
    hide HeadsHome, Sound, After;
    if forall i :: 0 <= i < |calls| ==> NamesOwn(calls, i) {
      forall n: nat | n <= |calls|
        ensures HeadsHome(Run(calls[..n]))
      {
        OwnKeepsHome(calls, n);
      }
    }
    if AlwaysHome(calls) {
      forall i | 0 <= i < |calls|
        ensures NamesOwn(calls, i)
      {
        assert HeadsHome(Run(calls[..i + 1]));
        HomeNames(calls, i);
      }
    }
  }

  lemma HomeNames(calls: seq<Call>, i: nat)
    requires i < |calls| && HeadsHome(Run(calls[..i + 1]))
    ensures NamesOwn(calls, i)
  {
    var st, c := Run(calls[..i]), calls[i];
    RunNext(calls, i);
    if c.Release? && Succeeds(calls, i) {
      RevisionAfter(st, c, c.scenario);
      RunSound(calls[..i]);
      CallKeeps(st, c);
    }
  }

  /** A plan of one scenario, released into another, becomes the head there. */
  lemma HeadElsewhere(own: string, other: string, version: string, stamp: Stamp)
    requires own != other
    ensures var identity := Identity(own, "", "", "", "", PRODUCTION, "");
      var content := Content(None, "", Report(Some(PASS), ""), "");
      var calls := [Save(0, version, identity, content, Draft, ""),
                    Release(0, version, other, "", stamp, None, Some(0))];
      var st := Run(calls);
      other in st.heads && st.heads[other].plan == version && version in st.plans
      && st.plans[version].identity.scenario == own && !HeadsHome(st)
  {
    var save := Save(0, version, Identity(own, "", "", "", "", PRODUCTION, ""),
                     Content(None, "", Report(Some(PASS), ""), ""), Draft, "");
    var release := Release(0, version, other, "", stamp, None, Some(0));
    var calls := [save, release];
    assert calls[..1] == [save] && [save][..0] == [];
    var st := After(EMPTY, save);
    assert Run([save]) == st && Failure(st, release).None?;
    assert Run(calls) == Effect(st, release);
  }

  // -------------------------------------------------------------------- dispatch

  lemma {:induction false} TicketForHolds(tickets: seq<Ticket>, i: nat, plan: string, key: string)
    requires i < |tickets| && tickets[i].plan == plan && tickets[i].key == key
    requires forall j :: 0 <= j < i ==> tickets[j].plan != plan || tickets[j].key != key
    ensures TicketFor(tickets, plan, key) == Some(tickets[i])
  {
    if i > 0 {
      TicketForHolds(tickets[1..], i - 1, plan, key);
    }
  }

  lemma {:induction false} TicketForPrefix(some: seq<Ticket>, all: seq<Ticket>, plan: string, key: string)
    requires some <= all && TicketFor(some, plan, key).Some?
    ensures TicketFor(all, plan, key) == TicketFor(some, plan, key)
  {
    if !(some[0].plan == plan && some[0].key == key) {
      TicketForPrefix(some[1..], all[1..], plan, key);
    }
  }

  lemma TicketForNew(tickets: seq<Ticket>, t: Ticket)
    requires TicketFor(tickets, t.plan, t.key).None?
    ensures TicketFor(tickets + [t], t.plan, t.key) == Some(t)
  {
    TicketForHolds(tickets + [t], |tickets|, t.plan, t.key);
  }

  /** Asking again for a ticket that was issued returns that ticket for as long as the plan
      has not moved on from released, and is refused from then on. */
  lemma ReplayIff(calls: seq<Call>, i: nat, j: nat)
    requires i < j < |calls| && calls[i].Issue? && calls[j].Issue? && Succeeds(calls, i)
    requires calls[i].ticket.plan == calls[j].ticket.plan && calls[i].ticket.key == calls[j].ticket.key
    ensures calls[j].ticket.plan in Run(calls[..j]).plans
    ensures var now := Run(calls[..j]);
      Answer(now, calls[j].ticket)
      == if now.plans[calls[j].ticket.plan].status == Released
         then Issued(Answer(Run(calls[..i]), calls[i].ticket).ticket, true)
         else Refused(NotReleased)
  {
    var st, t, now := Run(calls[..i]), calls[i].ticket, Run(calls[..j]);
    Between(calls, i, j);
    var st1 := After(st, calls[i]);
    if TicketFor(st.tickets, t.plan, t.key).None? {
      TicketForNew(st.tickets, t);
    }
    TicketForPrefix(st1.tickets, now.tickets, t.plan, t.key);
  }

  const SOME_PLAN := Identity("s", "", "", "h", "", PRODUCTION, "")

  const PASSED := Content(None, "", Report(Some(PASS), ""), "")

  const BY_HAND := Stamp("", "", "", "", "")

  /** One call more on a run that is known. */
  lemma RunThen(calls: seq<Call>, c: Call)
    ensures Run(calls + [c]) == After(Run(calls), c)
  {
    assert (calls + [c])[..|calls + [c]| - 1] == calls;
  }

  /** Saved, released, dispatched and moved on: the ticket that was issued is refused. */
  lemma ReplayRefused(t: Ticket)
    ensures var calls := [Save(0, t.plan, SOME_PLAN, PASSED, Draft, ""),
                          Release(0, t.plan, "s", "", BY_HAND, None, Some(0)),
                          Issue(t), Move(0, t.plan, Dispatched, BY_HAND, None), Issue(t)];
      Succeeds(calls, 2) && Answer(Run(calls[..2]), t) == Issued(t, false)
      && Answer(Run(calls[..4]), t) == Refused(NotReleased)
  {
    var save := Save(0, t.plan, SOME_PLAN, PASSED, Draft, "");
    var release := Release(0, t.plan, "s", "", BY_HAND, None, Some(0));
    var issue, move := Issue(t), Move(0, t.plan, Dispatched, BY_HAND, None);
    var calls := [save, release, issue, move, issue];
    assert calls[..2] == [save, release] && calls[..4] == [save, release, issue, move];
    RunTwo(save, release);
    RunThen(calls[..2], issue);
    assert calls[..2] + [issue] == [save, release, issue];
    RunThen([save, release, issue], move);
    assert [save, release, issue] + [move] == calls[..4];
    JustReleased(t.plan);
    hide Run;
    Dispatching(Run([save, release]), t);
  }

  lemma RunTwo(a: Call, b: Call)
    ensures Run([a, b]) == After(After(EMPTY, a), b)
  {
    hide After;
    assert [a][..0] == [] && Run([a]) == After(Run([]), a);
    assert [a, b][..1] == [a];
  }

  lemma JustReleased(version: string)
    ensures var st := After(EMPTY, Save(0, version, SOME_PLAN, PASSED, Draft, ""));
      var st' := After(st, Release(0, version, "s", "", BY_HAND, None, Some(0)));
      version in st'.plans && st'.plans[version].status == Released && st'.plans[version].identity == SOME_PLAN
      && st'.tickets == []
  {
  }

  lemma Dispatching(st: Store, t: Ticket)
    requires t.plan in st.plans && st.plans[t.plan].status == Released && st.tickets == []
    requires st.plans[t.plan].identity.purpose == PRODUCTION
    ensures Answer(st, t) == Issued(t, false)
    ensures Answer(After(After(st, Issue(t)), Move(0, t.plan, Dispatched, BY_HAND, None)), t) == Refused(NotReleased)
  {
    assert After(st, Issue(t)).plans == st.plans;
  }

  // ----------------------------------------------------------------- idempotency

  /** Call i is a save that goes through under the idempotency key. */
  ghost predicate SavesUnder(calls: seq<Call>, i: nat, k: IdemKey) {
    && i < |calls| && calls[i].Save? && Succeeds(calls, i) && calls[i].key != ""
    && IdemKey(calls[i].identity.scenario, calls[i].key) == k
  }

  ghost predicate FirstUnder(calls: seq<Call>, i: nat, k: IdemKey) {
    SavesUnder(calls, i, k) && forall j :: 0 <= j < i ==> !SavesUnder(calls, j, k)
  }

  lemma SavesUnderFront(calls: seq<Call>, i: nat, k: IdemKey)
    requires i < |calls| - 1
    ensures SavesUnder(calls[..|calls| - 1], i, k) <==> SavesUnder(calls, i, k)
  {
    assert calls[..|calls| - 1][..i] == calls[..i];
  }

  lemma IdemAfter(st: Store, c: Call, k: IdemKey)
    ensures var saves := c.Save? && Failure(st, c).None? && c.key != "" && IdemKey(c.identity.scenario, c.key) == k;
      && (k in After(st, c).idem <==> k in st.idem || saves)
      && (k in st.idem ==> After(st, c).idem[k] == st.idem[k])
      && (k !in st.idem && saves ==> After(st, c).idem[k] == IdemRow(c.version, c.identity.inputHash))
  {
  }

  /** The store has a row under a key exactly when some save went through under it, and the
      row is what the first such save wrote. */
  lemma {:induction false} KeyTellsFirstSave(calls: seq<Call>, k: IdemKey) returns (i: nat)
    ensures k in Run(calls).idem ==>
              FirstUnder(calls, i, k) && Run(calls).idem[k] == IdemRow(calls[i].version, calls[i].identity.inputHash)
    ensures k !in Run(calls).idem ==> forall j: nat :: !SavesUnder(calls, j, k)
  {
    i := 0;
    if calls != [] {
      var front, n := calls[..|calls| - 1], |calls| - 1;
      i := KeyTellsFirstSave(front, k);
      IdemAfter(Run(front), calls[n], k);
      assert Run(calls) == After(Run(front), calls[n]);
      hide After, Failure, Run;
      forall j: nat | j < n
        ensures SavesUnder(front, j, k) <==> SavesUnder(calls, j, k)
      {
        SavesUnderFront(calls, j, k);
      }
      if k !in Run(front).idem && k in Run(calls).idem {
        i := n;
      }
    }
  }

  /** The row under an idempotency key is the one its first save wrote. */
  lemma FirstSaveWins(calls: seq<Call>, i: nat, j: nat)
    requires i < j <= |calls| && calls[i].Save? && Succeeds(calls, i) && calls[i].key != ""
    ensures var k := IdemKey(calls[i].identity.scenario, calls[i].key);
      k in Run(calls[..j]).idem
      && (k !in Run(calls[..i]).idem ==>
           Run(calls[..j]).idem[k] == IdemRow(calls[i].version, calls[i].identity.inputHash))
  {
    Between(calls, i, j);
  }

  /** The hash on that row is the hash of the plan it names, now and ever after, exactly when
      the save made the plan or repeated the hash that the plan was first saved with. */
  lemma RowHashIff(calls: seq<Call>, i: nat, j: nat)
    requires i < j <= |calls| && calls[i].Save? && Succeeds(calls, i) && calls[i].key != ""
    requires IdemKey(calls[i].identity.scenario, calls[i].key) !in Run(calls[..i]).idem
    ensures var k, st, now := IdemKey(calls[i].identity.scenario, calls[i].key), Run(calls[..i]), Run(calls[..j]);
      k in now.idem && now.idem[k].plan in now.plans
      && (now.idem[k].inputHash == now.plans[now.idem[k].plan].identity.inputHash
          <==> calls[i].version !in st.plans
               || st.plans[calls[i].version].identity.inputHash == calls[i].identity.inputHash)
  {
    Between(calls, i, j);
    FirstSaveWins(calls, i, j);
  }

  /** A version saved again with another hash, under a fresh key: the row tells of a hash that
      is not the plan's. */
  lemma RowHashElsewhere(hash: string, key: string)
    requires hash != SOME_PLAN.inputHash && key != ""
    ensures var calls := [Save(0, "v", SOME_PLAN, PASSED, Draft, ""),
                          Save(0, "v", SOME_PLAN.(inputHash := hash), PASSED, Draft, key)];
      var k, st := IdemKey("s", key), Run(calls);
      k in st.idem && st.idem[k] == IdemRow("v", hash) && "v" in st.plans && st.plans["v"].identity.inputHash != hash
  {
    var first := Save(0, "v", SOME_PLAN, PASSED, Draft, "");
    var second := Save(0, "v", SOME_PLAN.(inputHash := hash), PASSED, Draft, key);
    RunTwo(first, second);
  }
}

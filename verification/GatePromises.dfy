/** Runs and the stores their gates act on, over whole histories: when a run is left with
    nothing to answer, and what an apply gate that is behind a run has done. */
module GatePromises {
  import opened Minutes
  import opened ScheduleIds
  import opened RunGraph
  import opened Gates
  import opened RunPromises
  import Canonical
  import CanonicalPromises
  import CanonicalRows
  import PlanStore
  import PlanPromises

  // ------------------------------------------------------------------- histories

  ghost predicate Sane(w: World) {
    RunPromises.Good(w.run) && CanonicalPromises.Good(w.canon) && PlanPromises.Sound(w.plans)
  }

  lemma SaneParts(w: World)
    requires Sane(w)
    ensures RunPromises.Good(w.run) && Known(w)
  {
  }

  /** What a later world keeps of an earlier one. */
  ghost predicate Since(w: World, w': World) {
    && RunPromises.Later(w.run, w'.run) && CanonicalPromises.Later(w.canon, w'.canon)
    && PlanPromises.Grows(w.plans, w'.plans)
  }

  lemma SinceThrough(a: World, b: World, c: World)
    requires Since(a, b) && Since(b, c)
    ensures Since(a, c)
  {
    hide RunPromises.Later, CanonicalPromises.Later, PlanPromises.Grows;
    RunPromises.LaterThrough(a.run, b.run, c.run);
    CanonicalPromises.LaterThrough(a.canon, b.canon, c.canon);
    PlanPromises.GrowsThrough(a.plans, b.plans, c.plans);
  }

  lemma SinceSelf(w: World)
    ensures Since(w, w)
  {
    RunPromises.LaterSelf(w.run);
    PlanPromises.NothingGrows(w.plans);
  }

  lemma CandidateKeeps(s: Setting, canon: Canonical.Store, items: seq<Canonical.Item>, who: Canonical.Approver,
                       wire: Wire)
    requires CanonicalPromises.Good(canon)
    ensures CanonicalPromises.Later(canon, CandidateApplied(s, canon, items, who, wire).1)
  {
    assert Canonical.BatchesKnown(canon);
    hide CanonicalPromises.Good, CanonicalPromises.Later, Incomplete;
    var taken := Canonical.Ingest(canon, items, CATALOG_TENANT, Or(s.task, "task"));
    CanonicalPromises.CallKeeps(canon, Canonical.Take(items, CATALOG_TENANT, Or(s.task, "task")));
    CanonicalPromises.CallKeeps(taken, Canonical.Put(|canon.batches|, who));
    CanonicalPromises.LaterThrough(canon, taken, Catalogued(canon, items, s.task, who));
    CanonLaterSelf(canon);
  }

  lemma CanonLaterSelf(canon: Canonical.Store)
    ensures CanonicalPromises.Later(canon, canon)
  {
  }

  lemma ApplyKeeps(s: Setting, plans: PlanStore.Store, out: Output, request: map<string, string>, sender: Sender)
    requires PlanPromises.Sound(plans)
    ensures var plans' := ApplyApplied(s, plans, out, request, sender).1;
      PlanPromises.Sound(plans') && PlanPromises.Grows(plans, plans')
  {
    hide PlanPromises.Sound, PlanPromises.Grows, PlanStore.Effect, PlanStore.Failure, Preview, AlreadyApplied;
    PlanPromises.CallKeeps(plans, ReleaseCall(s, plans, out, request, sender));
    PlanPromises.NothingGrows(plans);
  }

  lemma EffectsKeep(s: Setting, w: World, a: Answer, sender: Sender)
    requires Sane(w)
    ensures var (_, canon, plans) := Effects(s, w, a, sender);
      && CanonicalPromises.Good(canon) && CanonicalPromises.Later(w.canon, canon)
      && PlanPromises.Sound(plans) && PlanPromises.Grows(w.plans, plans)
  {
    hide CanonicalPromises.Good, PlanPromises.Sound, CanonicalPromises.Later, PlanPromises.Grows, CandidateApplied,
      ApplyApplied;
    hide RunPromises.AllPassed, RunPromises.AllAuthorized, RunPromises.AllActedRight, RunPromises.Told;
    CanonLaterSelf(w.canon);
    PlanPromises.NothingGrows(w.plans);
    if Applies(w.run, a) {
      var out := Asked(w.run);
      CandidateKeeps(s, w.canon, out.records, Approving(a, sender), sender.wire);
      ApplyKeeps(s, w.plans, out, w.run.request, sender);
    }
  }

  lemma ThenKeeps(s: Setting, w: World, e: Event)
    requires Sane(w)
    ensures Sane(Then(s, w, e)) && Since(w, Then(s, w, e))
  {
    hide CanonicalPromises.Good, PlanPromises.Sound, CanonicalPromises.Later, PlanPromises.Grows, Effects;
    hide RunPromises.AllPassed, RunPromises.AllAuthorized, RunPromises.AllActedRight, RunPromises.Told,
      RunPromises.Later;
    hide After, Shape;
    assert Known(w);
    SinceSelf(w);
    match e
    case Drive(_, _) => RunPromises.CallKeeps(w.run, RunCall(s, w, e));
    case Respond(answer, sender, _, _) =>
      RunPromises.CallKeeps(w.run, RunCall(s, w, e));
      EffectsKeep(s, w, answer, sender);
    case Plans(call) => PlanPromises.CallKeeps(w.plans, call);
    case Canon(call) => CanonicalPromises.CallKeeps(w.canon, call);
  }

  /** The run and the stores, empty at first, after the events. */
  ghost function Worlds(s: Setting, request: map<string, string>, events: seq<Event>): (w: World)
    ensures Sane(w)
  {
    if events == [] then World(New(request), Canonical.EMPTY, PlanStore.EMPTY)
    else
      var front := Worlds(s, request, events[..|events| - 1]);
      ThenKeeps(s, front, events[|events| - 1]);
      Then(s, front, events[|events| - 1])
  }

  lemma {:induction false} WorldsSince(s: Setting, request: map<string, string>, events: seq<Event>, i: nat)
    requires i <= |events|
    ensures Since(Worlds(s, request, events[..i]), Worlds(s, request, events))
  {
    hide Since, Sane, Then;
    if i == |events| {
      assert events[..i] == events;
      SinceSelf(Worlds(s, request, events));
    } else {
      var front := events[..|events| - 1];
      assert front[..i] == events[..i];
      WorldsSince(s, request, front, i);
      ThenKeeps(s, Worlds(s, request, front), events[|events| - 1]);
      SinceThrough(Worlds(s, request, events[..i]), Worlds(s, request, front), Worlds(s, request, events));
    }
  }

  lemma WorldsNext(s: Setting, request: map<string, string>, events: seq<Event>, i: nat)
    requires i < |events|
    ensures Worlds(s, request, events[..i + 1]) == Then(s, Worlds(s, request, events[..i]), events[i])
  {
    assert events[..i + 1][..i] == events[..i];
  }

  // ----------------------------------------------- the calls a run sees of a history

  ghost function RunCalls(s: Setting, request: map<string, string>, events: seq<Event>): seq<Call> {
    if events == [] then []
    else
      var front, e := events[..|events| - 1], events[|events| - 1];
      RunCalls(s, request, front)
      + (if e.Drive? || e.Respond? then [RunCall(s, Worlds(s, request, front), e)] else [])
  }

  lemma HistoryNext(request: map<string, string>, calls: seq<Call>, c: Call)
    ensures History(request, calls + [c]) == After(History(request, calls), c)
  {
    assert (calls + [c])[..|calls + [c]| - 1] == calls;
  }

  /** What is shown of every history of calls on a run holds of a run among the stores. */
  lemma {:induction false} RunsAreHistories(s: Setting, request: map<string, string>, events: seq<Event>)
    ensures Worlds(s, request, events).run == History(request, RunCalls(s, request, events))
  {
    hide Sane, RunCall, Effects, After, RunPromises.Good;
    if events != [] {
      var front, e := events[..|events| - 1], events[|events| - 1];
      var calls := RunCalls(s, request, events);
      RunsAreHistories(s, request, front);
      SaneParts(Worlds(s, request, front));
      if e.Drive? || e.Respond? {
        var c := RunCall(s, Worlds(s, request, front), e);
        assert calls == RunCalls(s, request, front) + [c] && calls[..|calls| - 1] == RunCalls(s, request, front);
        HistoryNext(request, RunCalls(s, request, front), c);
      } else {
        assert calls == RunCalls(s, request, front);
      }
    }
  }

  // ------------------------------------------------------------------ stranded runs

  /** The request gives the field. */
  predicate Gives(request: map<string, string>, key: string) {
    key in request && request[key] != ""
  }

  /** What an approval is about is what is kept under the tool of the gate, if anything. */
  lemma AskedOutputIs(run: Run)
    requires run.gate.Some?
    ensures var tool := run.gate.value.tool;
      Asked(run) == if tool in run.outputs then run.outputs[tool] else Output([], "", "")
  {
  }

  /** An approval of the open gate will fail and leave nothing to answer: the records of a
      candidate gate are to be catalogued and two of them name the same entity, or the
      exchange breaks off; or an apply gate has no plan version outside a preview. */
  ghost predicate Breaks(s: Setting, run: Run, wire: Wire)
    requires run.gate.Some?
  {
    match run.gate.value.kind
    case Candidate =>
      s.m0 && Asked(run).records != [] && (wire.Cut? || CanonicalPromises.NamesClash(Asked(run).records))
    case Apply =>
      Asked(run).plan == "" && (s.m5 || Gives(run.request, "m5_db_path")) && !Gives(run.request, "legacy_preview")
    case _ => false
  }

  lemma CandidateLostIff(s: Setting, canon: Canonical.Store, items: seq<Canonical.Item>, who: Canonical.Approver,
                         wire: Wire)
    requires CanonicalPromises.Good(canon)
    ensures CandidateApplied(s, canon, items, who, wire).0
            == if s.m0 && items != [] && (wire.Cut? || CanonicalPromises.NamesClash(items)) then Lost else Fine
  {
    hide CanonicalPromises.Good, CanonicalPromises.NamesClash, CanonicalPromises.EntryCount, CanonicalPromises.Readback;
    CanonicalPromises.CatalogShortIff(canon, items, CATALOG_TENANT, Or(s.task, "task"), who);
  }

  lemma LostIff(s: Setting, w: World, a: Answer, sender: Sender)
    requires Known(w) && Applies(w.run, a)
    ensures Effects(s, w, a, sender).0 == Lost <==> Breaks(s, w.run, sender.wire)
  {
    hide CanonicalPromises.Good, CanonicalPromises.NamesClash, CandidateApplied, PlanStore.Failure, PlanStore.Effect;
    CandidateLostIff(s, w.canon, Asked(w.run).records, Approving(a, sender), sender.wire);
  }

  /** The event is a plain approval of a gate that breaks. */
  ghost predicate Strands(s: Setting, run: Run, e: Event) {
    e.Respond? && Applies(run, e.answer) && Breaks(s, run, e.sender.wire)
  }

  /** A stranded run stays as it is whatever happens. */
  lemma ThenStrandedIff(s: Setting, w: World, e: Event)
    requires Sane(w)
    ensures Stranded(w.run) ==> Then(s, w, e).run == w.run && !Strands(s, w.run, e)
    ensures !Stranded(w.run) ==> (Stranded(Then(s, w, e).run) <==> Strands(s, w.run, e))
  {
    hide Sane, RunPromises.Good, Breaks, Effects, After, CanonicalPromises.Good, PlanPromises.Sound;
    hide RunPromises.AllPassed, RunPromises.AllAuthorized, RunPromises.AllActedRight, RunPromises.Told;
    if e.Drive? || e.Respond? {
      SaneParts(w);
      CallLosesIff(w.run, RunCall(s, w, e));
      if e.Respond? && Applies(w.run, e.answer) {
        LostIff(s, w, e.answer, e.sender);
      }
    }
  }

  ghost predicate StrandsAt(s: Setting, request: map<string, string>, events: seq<Event>, i: nat)
    requires i < |events|
  {
    Strands(s, Worlds(s, request, events[..i]).run, events[i])
  }

  /** A run is stranded exactly when some plain approval answered a candidate gate whose
      records name one entity twice (or found the exchange broken), or an apply gate without
      a plan version outside a preview. */
  lemma {:induction false} StrandedIff(s: Setting, request: map<string, string>, events: seq<Event>)
    ensures Stranded(Worlds(s, request, events).run)
            <==> exists i: nat :: i < |events| && StrandsAt(s, request, events, i)
  {
    hide Sane, Strands, Then, Stranded;
    if events == [] {
      NewNotStranded(request);
    } else {
      var n := |events| - 1;
      var front := events[..n];
      StrandedIff(s, request, front);
      ThenStrandedIff(s, Worlds(s, request, front), events[n]);
      forall i: nat | i < n
        ensures StrandsAt(s, request, events, i) <==> StrandsAt(s, request, front, i)
      {
        assert front[..i] == events[..i];
      }
      assert StrandsAt(s, request, events, n) <==> Strands(s, Worlds(s, request, front).run, events[n]);
    }
  }

  lemma NewNotStranded(request: map<string, string>)
    ensures !Stranded(New(request))
  {
  }

  /** A stranded run stays as it is for ever. */
  lemma {:induction false} StrandedForEver(s: Setting, request: map<string, string>, events: seq<Event>, i: nat)
    requires i <= |events| && Stranded(Worlds(s, request, events[..i]).run)
    ensures Worlds(s, request, events).run == Worlds(s, request, events[..i]).run
  {
    hide Sane, Strands, Then, Stranded;
    if i == |events| {
      assert events[..i] == events;
    } else {
      var front := events[..|events| - 1];
      assert front[..i] == events[..i];
      StrandedForEver(s, request, front, i);
      ThenStrandedIff(s, Worlds(s, request, front), events[|events| - 1]);
    }
  }

  // ------------------------------------------------------- runs that are stranded

  const STEP := Step("s", "M", "t", false)

  /** A run of one step, held at a gate of the kind, which is then approved. */
  function OneStep(kind: GateKind, out: Output, sender: Sender): seq<Event> {
    [Drive(Planning([STEP], false, false), [Turn(false, Got(Result(false, Hold(kind), None, out)))]),
     Respond(Answer(ApproveIt, Absent, false), sender, Planning([], false, false), [])]
  }

  lemma OneStepAsks(s: Setting, request: map<string, string>, kind: GateKind, out: Output, sender: Sender)
    ensures var run := Worlds(s, request, OneStep(kind, out, sender)[..1]).run;
      && run.status == Waiting && run.gate == Some(Gate(kind, 0, false, "t")) && run.request == request
      && Asked(run) == out
  {
    hide Sane, Known, RunPromises.Good;
    var events := OneStep(kind, out, sender);
    var e := events[0];
    assert events[..1] == [e] && [e][..0] == [];
    var run := New(request);
    var run1 := Planned(run, e.planning);
    var run2 := Worked(run1, e.turns[0]);
    var run3 := Examined(run2);
    assert e.turns[1..] == [];
    assert Looped(run1, e.turns) == Looped(run3, []);
    assert Worlds(s, request, [e]).run == run3;
  }

  lemma NoneClash(records: seq<Canonical.Item>)
    requires records == []
    ensures !CanonicalPromises.NamesClash(records)
  {
  }

  /** Approving such a run strands it when two of the records name one entity, and when an
      apply gate has no plan version outside a preview. */
  lemma OneStepStrands(s: Setting, request: map<string, string>, kind: GateKind, out: Output, sender: Sender)
    requires (kind == Candidate && s.m0 && CanonicalPromises.NamesClash(out.records))
             || (kind == Apply && out.plan == "" && (s.m5 || Gives(request, "m5_db_path"))
                 && !Gives(request, "legacy_preview"))
    ensures Stranded(Worlds(s, request, OneStep(kind, out, sender)).run)
  {
    hide Sane, Then, CanonicalPromises.NamesClash, OutputOf, Worlds, Stranded;
    var events := OneStep(kind, out, sender);
    OneStepAsks(s, request, kind, out, sender);
    if out.records == [] {
      NoneClash(out.records);
    }
    assert StrandsAt(s, request, events, 1);
    StrandedIff(s, request, events);
  }

  const TWINS := [Canonical.Item("product", map["canonical_key" := "P"]),
                  Canonical.Item("product", map["canonical_key" := "P"])]

  /** Two rows of one product, approved with the service up and the wire whole. */
  lemma TwinsStrand(s: Setting, sender: Sender)
    requires s.m0 && sender.wire == Delivered
    ensures Stranded(Worlds(s, map[], OneStep(Candidate, Output(TWINS, "", ""), sender)).run)
  {
    assert CanonicalPromises.SameName(TWINS, 0, 1);
    OneStepStrands(s, map[], Candidate, Output(TWINS, "", ""), sender);
  }

  /** A draft that was never saved, approved where there is a plan database. */
  lemma UnsavedPlanStrands(s: Setting, sender: Sender)
    requires s.m5
    ensures Stranded(Worlds(s, map[], OneStep(Apply, NO_OUTPUT, sender)).run)
  {
    OneStepStrands(s, map[], Apply, NO_OUTPUT, sender);
  }

  // ------------------------------------------------------------- behind an apply gate

  /** The head revision that the request asks for is not the one there is; with no number
      asked for, the scenario is to have no head yet, if it is named and has none. */
  predicate OutOfStep(plans: PlanStore.Store, scenario: string, request: map<string, string>) {
    var revision := if scenario in plans.heads then plans.heads[scenario].revision else 0;
    var text := if "expected_head_revision" in request then request["expected_head_revision"] else "";
    if text != "" && (forall c :: c in text ==> '0' <= c <= '9') then revision != Read(text)
    else (scenario == "" || scenario !in plans.heads) && revision != 0
  }

  /** The plan of the gate can be released: a draft or approved production plan with a passing
      report, in step with the head of the scenario. */
  predicate MayRelease(plans: PlanStore.Store, out: Output, request: map<string, string>) {
    && out.plan in plans.plans && plans.plans[out.plan].status in {PlanStore.Draft, PlanStore.Approved}
    && plans.plans[out.plan].identity.purpose == "production"
    && plans.plans[out.plan].content.report.status == Some("pass")
    && !OutOfStep(plans, out.scenario, request)
  }

  /** It was released before, and is still the head of the scenario, which is named. */
  predicate StillHead(plans: PlanStore.Store, out: Output) {
    && out.scenario != "" && out.scenario in plans.heads && plans.heads[out.scenario].plan == out.plan
    && out.plan in plans.plans && plans.plans[out.plan].status == PlanStore.Released
  }

  lemma AskedIs(request: map<string, string>)
    ensures var text := if "expected_head_revision" in request then request["expected_head_revision"] else "";
      AskedRevision(request)
      == if text != "" && (forall c :: c in text ==> '0' <= c <= '9') then Some(Read(text)) else None
  {
    var text := if "expected_head_revision" in request then request["expected_head_revision"] else "";
    assert Field(request, "expected_head_revision") == text;
    assert (forall c :: c in text ==> Numeric(c)) <==> forall c :: c in text ==> '0' <= c <= '9';
  }

  lemma OutOfStepIff(plans: PlanStore.Store, scenario: string, request: map<string, string>)
    ensures PlanStore.Conflict(plans, scenario, ExpectedRevision(plans, scenario, request))
            <==> OutOfStep(plans, scenario, request)
  {
    AskedIs(request);
    hide AskedRevision, Read;
  }

  lemma ReleaseIff(s: Setting, plans: PlanStore.Store, out: Output, request: map<string, string>, sender: Sender)
    ensures PlanStore.Failure(plans, ReleaseCall(s, plans, out, request, sender)).None? <==>
              MayRelease(plans, out, request)
  {
    OutOfStepIff(plans, out.scenario, request);
    hide OutOfStep, PlanStore.Conflict, ExpectedRevision;
  }

  /** A plan that may be released is not protected, so it is not the head of a release before. */
  lemma HeadIff(s: Setting, plans: PlanStore.Store, out: Output, request: map<string, string>)
    ensures AlreadyApplied(plans, out) <==> StillHead(plans, out)
    ensures HasDatabase(s, request) <==> s.m5 || Gives(request, "m5_db_path")
    ensures StillHead(plans, out) ==> !MayRelease(plans, out, request)
  {
    hide OutOfStep;
  }

  lemma ReleaseLeaves(s: Setting, plans: PlanStore.Store, out: Output, request: map<string, string>, sender: Sender)
    requires PlanStore.Failure(plans, ReleaseCall(s, plans, out, request, sender)).None?
    ensures JustReleased(s, plans, PlanStore.After(plans, ReleaseCall(s, plans, out, request, sender)), out, sender)
  {
    hide ExpectedRevision;
  }

  /** What a release through the gate leaves: the plan released, at the head of the scenario,
      one revision on, and the event that tells who released it. */
  ghost predicate JustReleased(s: Setting, plans: PlanStore.Store, plans': PlanStore.Store, out: Output,
                               sender: Sender) {
    && out.scenario in plans'.heads && out.plan in plans'.plans && plans'.plans[out.plan].status == PlanStore.Released
    && plans'.plans[out.plan].releasedAt == Some(sender.now) && plans'.heads[out.scenario].plan == out.plan
    && plans'.heads[out.scenario].revision
       == (if out.scenario in plans.heads then plans.heads[out.scenario].revision else 0) + 1
    && |plans'.log| > 0
    && var e := plans'.log[|plans'.log| - 1];
       && e.plan == out.plan && e.from == PlanStore.Approved && e.to == PlanStore.Released && e.at == sender.now
       && e.stamp == PlanStore.Stamp("apply", sender.actor, s.task, s.task + ":apply", "")
  }

  lemma ApplyReleases(s: Setting, plans: PlanStore.Store, out: Output, request: map<string, string>, sender: Sender)
    requires (s.m5 || Gives(request, "m5_db_path")) && out.plan != ""
    ensures var (how, plans') := ApplyApplied(s, plans, out, request, sender);
      && (how == Fine <==> MayRelease(plans, out, request) || StillHead(plans, out))
      && (MayRelease(plans, out, request) ==> JustReleased(s, plans, plans', out, sender))
      && (!MayRelease(plans, out, request) ==> plans' == plans)
  {
    var call := ReleaseCall(s, plans, out, request, sender);
    ReleaseIff(s, plans, out, request, sender);
    HeadIff(s, plans, out, request);
    if PlanStore.Failure(plans, call).None? {
      ReleaseLeaves(s, plans, out, request, sender);
    } else if AlreadyApplied(plans, out) {
      HeadIsProtected(s, plans, out, request, sender);
    }
    hide MayRelease, StillHead, AlreadyApplied, HasDatabase, JustReleased, PlanStore.Failure, PlanStore.After,
      ReleaseCall;
  }

  lemma HeadIsProtected(s: Setting, plans: PlanStore.Store, out: Output, request: map<string, string>, sender: Sender)
    requires AlreadyApplied(plans, out)
    ensures PlanStore.Failure(plans, ReleaseCall(s, plans, out, request, sender)) == Some(PlanStore.PlanProtected)
  {
  }

  /** An approval takes the run past its step exactly when applying it went well. */
  lemma PastGateIff(s: Setting, w: World, e: Event)
    requires Sane(w) && e.Respond? && Applies(w.run, e.answer)
    ensures Then(s, w, e).run.next > w.run.next <==> Effects(s, w, e.answer, e.sender).0 == Fine
  {
    hide RunPromises.Good, Effects, CanonicalPromises.Good, PlanPromises.Sound;
    SaneParts(w);
    var how := Effects(s, w, e.answer, e.sender).0;
    var run := Decided(w.run, e.answer, how);
    RunPromises.DecidedKeeps(w.run, e.answer, how);
    RunPromises.RanKeeps(run, e.planning, e.turns);
  }

  /** The event answers an apply gate about a plan with a plain approval, where there is a plan
      database. */
  ghost predicate AppliesPlan(s: Setting, run: Run, e: Event) {
    && e.Respond? && run.gate.Some? && Applies(run, e.answer) && run.gate.value.kind == Apply
    && (s.m5 || Gives(run.request, "m5_db_path")) && Asked(run).plan != ""
  }

  /** A run goes past an apply gate about a plan exactly when the plan can be released, or was
      and still heads its scenario. In the first case it is released by this approval; in the
      second, and if the run stays, the plan store is as it was. */
  ghost predicate GateReleases(s: Setting, w: World, e: Event, w': World)
    requires AppliesPlan(s, w.run, e)
  {
    var out := Asked(w.run);
    && (w'.run.next > w.run.next <==> MayRelease(w.plans, out, w.run.request) || StillHead(w.plans, out))
    && (if MayRelease(w.plans, out, w.run.request) then JustReleased(s, w.plans, w'.plans, out, e.sender)
        else w'.plans == w.plans)
  }

  lemma ThenReleases(s: Setting, w: World, e: Event)
    requires Sane(w) && AppliesPlan(s, w.run, e)
    ensures GateReleases(s, w, e, Then(s, w, e))
  {
    var out := Asked(w.run);
    hide Sane, PlanPromises.Sound, CanonicalPromises.Good, RunPromises.Good, Then, ApplyApplied, Applies;
    hide MayRelease, StillHead, JustReleased, Effects;
    PastGateIff(s, w, e);
    ApplyEffects(s, w, e);
    ApplyReleases(s, w.plans, out, w.run.request, e.sender);
  }

  /** An apply gate about a plan is passed by a release, now or before, and whatever happens
      later the plan stays protected, as it was. */
  lemma PastApplyGate(s: Setting, request: map<string, string>, events: seq<Event>, i: nat)
    requires i < |events| && AppliesPlan(s, Worlds(s, request, events[..i]).run, events[i])
    ensures var w, w' := Worlds(s, request, events[..i]), Worlds(s, request, events[..i + 1]);
      && GateReleases(s, w, events[i], w')
      && (w'.run.next > w.run.next ==>
            StaysReleased(w'.plans, Worlds(s, request, events).plans, Asked(w.run).plan))
  {
    hide Sane, Since, Then, Applies, MayRelease, StaysReleased, Worlds, ReleasedIn, JustReleased, StillHead;
    WorldsNext(s, request, events, i);
    ThenReleases(s, Worlds(s, request, events[..i]), events[i]);
    assert events[..i + 1] <= events;
    WorldsSince(s, request, events, i + 1);
    var w, w' := Worlds(s, request, events[..i]), Worlds(s, request, events[..i + 1]);
    if w'.run.next > w.run.next {
      PassedIsReleased(s, w, events[i], w');
      ReleasedStays(w', Worlds(s, request, events), Asked(w.run).plan);
    }
  }

  ghost predicate ReleasedIn(plans: PlanStore.Store, v: string) {
    v in plans.plans && plans.plans[v].status == PlanStore.Released
  }

  lemma PassedIsReleased(s: Setting, w: World, e: Event, w': World)
    requires AppliesPlan(s, w.run, e) && GateReleases(s, w, e, w') && w'.run.next > w.run.next
    ensures ReleasedIn(w'.plans, Asked(w.run).plan)
  {
    hide Applies, MayRelease;
  }

  lemma ApplyEffects(s: Setting, w: World, e: Event)
    requires Sane(w) && AppliesPlan(s, w.run, e)
    ensures var (how, plans) := ApplyApplied(s, w.plans, Asked(w.run), w.run.request, e.sender);
      Effects(s, w, e.answer, e.sender).0 == how && Then(s, w, e).plans == plans
  {
    hide PlanPromises.Sound, CanonicalPromises.Good, ApplyApplied, Applies, After;
  }

  ghost predicate StaysReleased(plans: PlanStore.Store, plans': PlanStore.Store, v: string) {
    && v in plans.plans && v in plans'.plans && PlanStore.Protected(plans'.plans[v].status)
    && plans'.plans[v].content == plans.plans[v].content && plans'.plans[v].releasedAt == plans.plans[v].releasedAt
  }

  lemma ReleasedStays(w: World, w': World, v: string)
    requires Since(w, w') && ReleasedIn(w.plans, v)
    ensures StaysReleased(w.plans, w'.plans, v)
  {
    hide RunPromises.Later, CanonicalPromises.Later;
    assert PlanPromises.PlanKept(w.plans.plans[v], w'.plans.plans[v]);
  }

  // ---------------------------------------------------------- behind a candidate gate

  /** What a plain approval of a candidate gate leaves in the canonical store: nothing without
      records or without the service; else, unless the exchange broke off before they were
      stored, one batch with the records, each published under whoever answered, with the
      reason of an override. */
  lemma CandidateTells(s: Setting, w: World, a: Answer, sender: Sender)
    requires Sane(w) && Applies(w.run, a) && w.run.gate.value.kind == Candidate
    ensures var items, canon' := Asked(w.run).records, Effects(s, w, a, sender).1;
      var reason := if !a.overridden then "" else if sender.reason == "" then OVERRIDE else sender.reason;
      var who := Canonical.Approver(if sender.actor == "" then "operator" else sender.actor, reason, a.overridden);
      if !s.m0 || items == [] || sender.wire == Cut(false) then canon' == w.canon
      else
        && canon'.batches
           == w.canon.batches + [Canonical.Batch("default", if s.task == "" then "task" else s.task, true)]
        && CanonicalRows.Told(w.canon, canon', items, |w.canon.batches|, |w.canon.candidates|, who, |items|)
    ensures Effects(s, w, a, sender).2 == w.plans
  {
    SaneParts(w);
    hide RunPromises.Good, CanonicalPromises.Good, PlanPromises.Sound, Applies, CanonicalRows.Told, Incomplete;
    CanonicalRows.CatalogueTells(w.canon, Asked(w.run).records, "default", Or(s.task, "task"), Approving(a, sender));
  }
}

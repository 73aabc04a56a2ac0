/** The executor: nodes that update the run in place, and approvals that act on the canonical
    store and the plan store. */
module RunExecutor {
  import opened Minutes
  import opened RunGraph
  import opened RunPromises
  import opened Gates
  import Canonical
  import CanonicalPromises
  import PlanStore
  import PlanRepository

  class Executor {
    const setting: Setting
    const catalog: Canonical.M0Store
    const repository: PlanRepository.Repository

    var status: Status
    var plan: seq<Step>
    var next: nat
    var current: Option<Result>
    var records: seq<Record>
    var gate: Option<Gate>
    var approvals: seq<Approval>
    var authorized: seq<string>
    var trace: seq<Note>
    var outputs: map<string, Output>
    var request: map<string, string>

    ghost function State(): Run
      reads this
    {
      Run(status, plan, next, current, records, gate, approvals, authorized, trace, outputs, request)
    }

    ghost function Around(): World
      reads this, catalog, repository
    {
      World(State(), catalog.Tables(), repository.Contents())
    }

    constructor (setting: Setting, catalog: Canonical.M0Store, repository: PlanRepository.Repository,
                 asked: map<string, string>)
      ensures State() == History(asked, [])
      ensures this.setting == setting && this.catalog == catalog && this.repository == repository
    {
      this.setting, this.catalog, this.repository := setting, catalog, repository;
      status, plan, next, current := Queued, [], 0, None;
      records, gate, approvals, authorized, trace := [], None, [], [], [];
      outputs, request := map[], asked;
    }

    method PlannerNode(p: Planning)
      modifies this
      ensures State() == Planned(old(State()), p)
    {
      if status == Waiting {
        return;
      }
      if plan == [] {
        plan := p.steps;
        if p.error {
          status := Failed;
          return;
        }
      }
      if p.gap {
        status := Failed;
      } else if plan == [] || next >= |plan| {
        status := Completed;
      } else {
        status := Running;
      }
    }

    method WorkerNode(t: Turn)
      modifies this
      ensures State() == Worked(old(State()), t)
    {
      if status != Running || next >= |plan| {
        return;
      }
      var step := plan[next];
      var demanded := step.free && !t.exempt;
      if demanded && step.id !in authorized {
        gate := Some(Gate(Authorization, next, true, step.tool));
        status := Waiting;
        return;
      }
      records := records + [Record(step.id, InProgress)];
      trace := trace + [Acted(next, demanded, LeavesBlocked(t.outcome))];
      match t.outcome
      case Got(result) =>
        current := Some(result);
        outputs := Stored(outputs, step, result.output);
      case Empty =>
        current := None;
        outputs := Stored(outputs, step, NO_OUTPUT);
      case Refused => SetRecord(Held); status := Failed;
      case Broke => SetRecord(Dead); status := Failed;
    }

    method SetRecord(s: RecordStatus)
      requires records != []
      modifies this`records
      ensures records == Relabel(old(records), s)
    {
      var last := |records| - 1;
      records := records[last := records[last].(status := s)];
    }

    method ReviewerNode()
      requires Reviewable(State()) ==> next < |plan| && records != []
      modifies this
      ensures State() == Examined(old(State()))
    {
      if status != Running || current.None? {
        return;
      }
      var verdict := Judge(current.value);
      trace := trace + [Reviewed(next, verdict == Approve)];
      match verdict
      case Terminal =>
        SetRecord(Dead);
        status := Failed;
      case Hold(kind) =>
        SetRecord(Held);
        gate := Some(Gate(kind, next, false, ToolOf(plan[next], current.value)));
        status := Waiting;
      case Approve =>
        SetRecord(Done);
        next := next + 1;
        current := None;
        if next >= |plan| {
          status := Completed;
        }
    }

    /** Runs until it stops, or until the turns it is given are used up. */
    method Execute(p: Planning, turns: seq<Turn>)
      requires RunPromises.Good(State())
      modifies this
      ensures State() == Ran(old(State()), p, turns) && Good(State())
    {
      hide Good, Later;
      if status == Waiting {
        return;
      }
      PlannedKeeps(State(), p);
      PlannerNode(p);
      ghost var start := State();
      var i := 0;
      while status == Running && i < |turns|
        invariant i <= |turns| && Good(State()) && Ready(State())
        invariant Looped(State(), turns[i..]) == Looped(start, turns)
      {
        ghost var before := State();
        WorkedKeeps(before, turns[i]);
        WorkerNode(turns[i]);
        ExaminedKeeps(State());
        ReviewerNode();
        assert turns[i..][1..] == turns[i + 1..];
        i := i + 1;
      }
      RanKeeps(old(State()), p, turns);
    }

    method ValidateResumeDecision(a: Answer) returns (objection: Option<Invalid>)
      ensures objection == Objection(State(), a)
    {
      if status != Waiting || gate.None? {
        return Some(NotWaiting);
      }
      if a.decision.Unsupported? {
        return Some(UnsupportedDecision);
      }
      if a.supplement.Malformed? {
        return Some(BadSupplement);
      }
      if gate.value.kind == Data {
        if a.decision == ApproveIt && !a.overridden {
          return Some(DataGate);
        }
        if !Rejects(a.decision) && !Supplies(a.supplement) && !a.overridden {
          return Some(DataGate);
        }
      }
      return None;
    }

    /** A candidate gate: the records go to the canonical service, whose counts are read back. */
    method PublishRecords(items: seq<Canonical.Item>, who: Canonical.Approver, wire: Wire) returns (how: Applied)
      requires CanonicalPromises.Good(catalog.Tables())
      modifies catalog
      ensures (how, catalog.Tables()) == CandidateApplied(setting, old(catalog.Tables()), items, who, wire)
    {
      hide Incomplete, CanonicalPromises.Good;
      if items == [] || !setting.m0 {
        return Fine;
      }
      if wire == Cut(false) {
        return Lost;
      }
      CanonicalPromises.CataloguedKeeps(catalog.Tables(), items, CATALOG_TENANT, Or(setting.task, "task"), who);
      GoodKnown(Canonical.Ingest(catalog.Tables(), items, CATALOG_TENANT, Or(setting.task, "task")));
      var b := catalog.IngestBatch(items, CATALOG_TENANT, Or(setting.task, "task"));
      var found := catalog.PublishBatch(b, who);
      if wire.Cut? || Incomplete(catalog.Tables(), b, |items|) {
        return Lost;
      }
      return Fine;
    }

    /** An apply gate: the plan is released, unless it was and still heads its scenario. */
    method ApplyRelease(out: Output, sender: Sender) returns (how: Applied)
      modifies repository
      ensures (how, repository.Contents()) == ApplyApplied(setting, old(repository.Contents()), out, request, sender)
    {
      hide PlanStore.Failure, PlanStore.Effect;
      var database := Field(request, "m5_db_path") != "" || setting.m5;
      var preview := Field(request, "legacy_preview") != "" || !database;
      if out.plan == "" {
        return if preview then Fine else Lost;
      }
      if !database {
        return Fine;
      }
      var expected := AskedRevision(request);
      if expected.None? && (out.scenario == "" || out.scenario !in repository.heads) {
        expected := Some(0);
      }
      var stamp := PlanStore.Stamp("apply", sender.actor, setting.task, setting.task + ":apply", "");
      var error, revision := repository.ApplyRelease(sender.now, out.plan, out.scenario, setting.tenant, stamp,
                                                     None, expected);
      if error.None? {
        return Fine;
      }
      if error.value == PlanStore.PlanProtected
         && out.plan in repository.plans && repository.plans[out.plan].status == PlanStore.Released
         && out.scenario != "" && out.scenario in repository.heads && repository.heads[out.scenario].plan == out.plan {
        return Fine;
      }
      return Conflict;
    }

    method ApplyApproval(asked: Gate, a: Answer, sender: Sender) returns (how: Applied)
      requires CanonicalPromises.Good(catalog.Tables())
      modifies catalog, repository
      ensures (how, catalog.Tables(), repository.Contents())
              == Approved(setting, old(catalog.Tables()), old(repository.Contents()), asked.kind,
                          OutputOf(outputs, asked.tool), request, a, sender)
    {
      hide CanonicalPromises.Good, CandidateApplied, ApplyApplied;
      var out := OutputOf(outputs, asked.tool);
      match asked.kind
      case Candidate => how := PublishRecords(out.records, Approving(a, sender), sender.wire);
      case Apply => how := ApplyRelease(out, sender);
      case _ => how := Fine;
    }

    /** The answer is written down and the gate closed. */
    method WriteDown(a: Answer) returns (asked: Gate)
      requires gate.Some?
      modifies this`approvals, this`trace, this`gate
      ensures asked == old(gate).value
      ensures var approval := Approval(a.decision, asked, Supplies(a.supplement), a.overridden);
        State() == old(State()).(approvals := old(approvals) + [approval], trace := old(trace) + [Answered(approval)],
                                 gate := None)
    {
      asked := gate.value;
      var approval := Approval(a.decision, asked, Supplies(a.supplement), a.overridden);
      approvals := approvals + [approval];
      trace := trace + [Answered(approval)];
      gate := None;
    }

    /** The step is to run again, on the request as supplied. */
    method Redo(a: Answer)
      requires records != []
      modifies this`request, this`records, this`current, this`status
      ensures State() == old(State()).(records := Relabel(old(records), Superseded), current := None, status := Running,
                                       request := Supplied(old(request), a.supplement))
    {
      request := Supplied(request, a.supplement);
      SetRecord(Superseded);
      current := None;
      status := Running;
    }

    /** The step counts as done before the approval is applied. */
    method Settle(asked: Gate, a: Answer, sender: Sender) returns (failed: bool)
      requires records != [] && CanonicalPromises.Good(catalog.Tables())
      modifies this, catalog, repository
      ensures var (how, canon, plans) := Approved(setting, old(catalog.Tables()), old(repository.Contents()),
              asked.kind, OutputOf(old(outputs), asked.tool), old(request), a, sender);
        && State() == Settled(old(State()), asked, how)
        && catalog.Tables() == canon && repository.Contents() == plans
        && (failed <==> how != Fine)
    {
      hide CanonicalPromises.Good, Approved;
      SetRecord(Done);
      var how := ApplyApproval(asked, a, sender);
      failed := how != Fine;
      match how
      case Conflict =>
        gate := Some(asked);
        status := Waiting;
      case Lost =>
      case Fine =>
        next := asked.index + 1;
        current := None;
        status := Running;
    }

    /** `failed`: applying the approval raised an error. */
    method PrepareResume(a: Answer, sender: Sender) returns (objection: Option<Invalid>, failed: bool)
      requires RunPromises.Good(State()) && CanonicalPromises.Good(catalog.Tables())
      modifies this, catalog, repository
      ensures objection == Objection(old(State()), a)
      ensures var (how, canon, plans) := Effects(setting, old(Around()), a, sender);
        && State() == Decided(old(State()), a, how)
        && catalog.Tables() == canon && repository.Contents() == plans
        && (failed <==> Applies(old(State()), a) && how != Fine)
    {
      GateParts(State());
      hide RunPromises.Good, Shape, CanonicalPromises.Good, Approved, Settled, Objection, Effects;
      ghost var before := Around();
      Untouched(setting, before, a, sender);
      failed := false;
      objection := ValidateResumeDecision(a);
      if objection.Some? {
        return;
      }
      var asked := WriteDown(a);
      if Rejects(a.decision) {
        status := Failed;
        return;
      }
      if asked.preExecution {
        authorized := authorized + [plan[asked.index].id];
        status := Running;
        return;
      }
      if Supplies(a.supplement) || a.decision == Retry {
        Redo(a);
        return;
      }
      failed := Settle(asked, a, sender);
    }

    method ResumeRun(a: Answer, sender: Sender, p: Planning, turns: seq<Turn>)
      requires RunPromises.Good(State()) && CanonicalPromises.Good(catalog.Tables())
      modifies this, catalog, repository
      ensures Around() == Then(setting, old(Around()), Respond(a, sender, p, turns)) && RunPromises.Good(State())
    {
      GateParts(State());
      hide RunPromises.Good, Shape, CanonicalPromises.Good, Effects;
      ghost var before := Around();
      DecidedKeeps(State(), a, Effects(setting, before, a, sender).0);
      var objection, failed := PrepareResume(a, sender);
      if objection.None? && status == Running {
        Execute(p, turns);
      }
    }
  }

  /** A run that waits at a gate has the step and the record that the answer is about. */
  lemma GateParts(st: Run)
    requires RunPromises.Good(st)
    ensures Shape(st)
    ensures st.gate.Some? ==> st.gate.value.index < |st.plan| && (!st.gate.value.preExecution ==> st.records != [])
  {
  }

  lemma Untouched(s: Setting, w: World, a: Answer, sender: Sender)
    requires Known(w)
    ensures !Applies(w.run, a) ==> Effects(s, w, a, sender) == (Fine, w.canon, w.plans)
    ensures Applies(w.run, a) ==>
              w.run.gate.Some?
              && Effects(s, w, a, sender)
                 == Approved(s, w.canon, w.plans, w.run.gate.value.kind, Asked(w.run), w.run.request, a, sender)
  {
  }

  lemma GoodKnown(canon: Canonical.Store)
    requires CanonicalPromises.Good(canon)
    ensures Canonical.BatchesKnown(canon)
  {
  }
}

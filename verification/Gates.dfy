/** What approving a gate does outside the run: candidates are published to the canonical
    store, and an apply gate releases its plan in the plan store. */
module Gates {
  import opened Minutes
  import opened ScheduleIds
  import opened RunGraph
  import Canonical
  import CanonicalPromises
  import PlanStore

  /** How the service is set up, and for whom the run is. `m0`: an address of the canonical
      service is configured; `m5`: a plan database is. */
  datatype Setting = Setting(m0: bool, m5: bool, tenant: string, task: string)

  /** The canonical service answers, or the exchange breaks off, before or after the service
      has stored the records. */
  datatype Wire = Delivered | Cut(stored: bool)

  /** Who answers a gate, when, with what reason for an override, and what the wire does. */
  datatype Sender = Sender(actor: string, now: int, reason: string, wire: Wire)

  datatype World = World(run: Run, canon: Canonical.Store, plans: PlanStore.Store)

  // ------------------------------------------------------------- candidate gates

  const CATALOG_TENANT := "default"

  /** What stands for the reason of an override that gives none. */
  const OVERRIDE := "\U{4EBA}\U{5DE5}\U{6279}\U{51C6}\U{8986}\U{76D6}\U{6570}\U{636E} Gate"

  function Or(text: string, fallback: string): string {
    if text == "" then fallback else text
  }

  function Approving(a: Answer, sender: Sender): Canonical.Approver {
    var reason := if a.overridden then Or(sender.reason, OVERRIDE) else "";
    Canonical.Approver(Or(sender.actor, "operator"), reason, a.overridden)
  }

  function Catalogued(canon: Canonical.Store, items: seq<Canonical.Item>, task: string, who: Canonical.Approver)
    : Canonical.Store
    requires Canonical.BatchesKnown(canon)
  {
    Canonical.Publish(Canonical.Ingest(canon, items, CATALOG_TENANT, Or(task, "task")), |canon.batches|, who)
  }

  /** The counts that the service reads back for the batch fall short of the records sent. */
  predicate Incomplete(canon: Canonical.Store, b: nat, sent: nat)
    requires CanonicalPromises.Good(canon)
  {
    |CanonicalPromises.Readback(canon, b)| < sent || CanonicalPromises.EntryCount(canon.ledger, b) < sent
  }

  function CandidateApplied(s: Setting, canon: Canonical.Store, items: seq<Canonical.Item>, who: Canonical.Approver,
                            wire: Wire)
    : (r: (Applied, Canonical.Store))
    requires CanonicalPromises.Good(canon)
    ensures CanonicalPromises.Good(r.1)
  {
    if items == [] || !s.m0 then (Fine, canon)
    else
      CanonicalPromises.CataloguedKeeps(canon, items, CATALOG_TENANT, Or(s.task, "task"), who);
      var canon' := Catalogued(canon, items, s.task, who);
      match wire
      case Cut(stored) => (Lost, if stored then canon' else canon)
      case Delivered => (if Incomplete(canon', |canon.batches|, |items|) then Lost else Fine, canon')
  }

  // ----------------------------------------------------------------- apply gates

  function Field(request: map<string, string>, key: string): string {
    if key in request then request[key] else ""
  }

  predicate HasDatabase(s: Setting, request: map<string, string>) {
    Field(request, "m5_db_path") != "" || s.m5
  }

  predicate Preview(s: Setting, request: map<string, string>) {
    Field(request, "legacy_preview") != "" || !HasDatabase(s, request)
  }

  /** The head revision the request expects, if it gives a number. */
  function AskedRevision(request: map<string, string>): Option<int> {
    var text := Field(request, "expected_head_revision");
    if text != "" && (forall c :: c in text ==> Numeric(c)) then Some(Read(text)) else None
  }

  /** With no head and no revision asked for, the release must be the scenario's first. */
  function ExpectedRevision(plans: PlanStore.Store, scenario: string, request: map<string, string>): Option<int> {
    var asked := AskedRevision(request);
    if asked.None? && (scenario == "" || scenario !in plans.heads) then Some(0) else asked
  }

  function ReleaseCall(s: Setting, plans: PlanStore.Store, out: Output, request: map<string, string>,
                       sender: Sender): PlanStore.Call {
    PlanStore.Release(sender.now, out.plan, out.scenario, s.tenant,
                      PlanStore.Stamp("apply", sender.actor, s.task, s.task + ":apply", ""),
                      None, ExpectedRevision(plans, out.scenario, request))
  }

  /** An earlier release of the same plan stands, and the plan is still the scenario's head. */
  predicate AlreadyApplied(plans: PlanStore.Store, out: Output) {
    && out.plan in plans.plans && plans.plans[out.plan].status == PlanStore.Released
    && out.scenario != "" && out.scenario in plans.heads && plans.heads[out.scenario].plan == out.plan
  }

  function ApplyApplied(s: Setting, plans: PlanStore.Store, out: Output, request: map<string, string>, sender: Sender)
    : (Applied, PlanStore.Store)
  {
    if out.plan == "" then (if Preview(s, request) then Fine else Lost, plans)
    else if !HasDatabase(s, request) then (Fine, plans)
    else
      var call := ReleaseCall(s, plans, out, request, sender);
      match PlanStore.Failure(plans, call)
      case None => (Fine, PlanStore.After(plans, call))
      case Some(error) =>
        (if error == PlanStore.PlanProtected && AlreadyApplied(plans, out) then Fine else Conflict, plans)
  }

  // -------------------------------------------------------------- answering a gate

  ghost predicate Known(w: World) {
    Shape(w.run) && CanonicalPromises.Good(w.canon)
  }

  /** The output the open gate is about. */
  function Asked(run: Run): Output
    requires run.gate.Some?
  {
    OutputOf(run.outputs, run.gate.value.tool)
  }

  /** How applying the approval of a gate of the kind ends, with the stores as it leaves them. */
  function Approved(s: Setting, canon: Canonical.Store, plans: PlanStore.Store, kind: GateKind, out: Output,
                    request: map<string, string>, a: Answer, sender: Sender)
    : (r: (Applied, Canonical.Store, PlanStore.Store))
    requires CanonicalPromises.Good(canon)
    ensures CanonicalPromises.Good(r.1)
  {
    match kind
    case Candidate =>
      var (how, canon') := CandidateApplied(s, canon, out.records, Approving(a, sender), sender.wire);
      (how, canon', plans)
    case Apply =>
      var (how, plans') := ApplyApplied(s, plans, out, request, sender);
      (how, canon, plans')
    case _ => (Fine, canon, plans)
  }

  /** An answer that is no plain approval touches nothing outside the run. */
  function Effects(s: Setting, w: World, a: Answer, sender: Sender): (r: (Applied, Canonical.Store, PlanStore.Store))
    requires Known(w)
    ensures CanonicalPromises.Good(r.1)
  {
    if !Applies(w.run, a) then (Fine, w.canon, w.plans)
    else Approved(s, w.canon, w.plans, w.run.gate.value.kind, Asked(w.run), w.run.request, a, sender)
  }

  // ------------------------------------------------------------------------ worlds

  /** What happens: the run is driven on, a gate is answered, or someone else uses a store. */
  datatype Event = Drive(planning: Planning, turns: seq<Turn>)
                 | Respond(answer: Answer, sender: Sender, planning: Planning, turns: seq<Turn>)
                 | Plans(planCall: PlanStore.Call)
                 | Canon(canonCall: Canonical.Call)

  /** The call on the run that the event is. */
  ghost function RunCall(s: Setting, w: World, e: Event): Call
    requires Known(w) && (e.Drive? || e.Respond?)
  {
    match e
    case Drive(planning, turns) => Go(planning, turns)
    case Respond(answer, sender, planning, turns) => Resume(answer, Effects(s, w, answer, sender).0, planning, turns)
  }

  ghost function Then(s: Setting, w: World, e: Event): World
    requires Known(w)
  {
    match e
    case Drive(_, _) => w.(run := After(w.run, RunCall(s, w, e)))
    case Respond(answer, sender, _, _) =>
      var (_, canon, plans) := Effects(s, w, answer, sender);
      World(After(w.run, RunCall(s, w, e)), canon, plans)
    case Plans(call) => w.(plans := PlanStore.After(w.plans, call))
    case Canon(call) => w.(canon := Canonical.After(w.canon, call))
  }
}

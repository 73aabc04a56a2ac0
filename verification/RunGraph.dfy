/** The human-gated run: what the planner, worker and reviewer nodes and a human decision do
    to a run. What a tool answers and what the reviewer makes of a result that is not blocked
    are inputs; how applying an approval ends is told by the gates. */
module RunGraph {
  import opened Minutes
  import Canonical

  datatype Status = Queued | Running | Waiting | Failed | Completed

  datatype Step = Step(id: string, unit: string, tool: string, free: bool)

  datatype GateKind = Data | Candidate | Engineering | Review | Apply | Authorization | OtherGate(name: string)

  /** `tool`: the tool whose output the gate is about. */
  datatype Gate = Gate(kind: GateKind, index: nat, preExecution: bool, tool: string)

  datatype Verdict = Approve | Hold(kind: GateKind) | Terminal

  /** What of a tool's output an approval acts on: candidate records, and the plan version and
      scenario of a draft. */
  datatype Output = Output(records: seq<Canonical.Item>, plan: string, scenario: string)

  const NO_OUTPUT := Output([], "", "")

  /** `blocked`: the result says it failed or that an input is missing. `invoked`: the tool a
      skill says it called. */
  datatype Result = Result(blocked: bool, judged: Verdict, invoked: Option<string>, output: Output)

  datatype Outcome = Got(result: Result) | Empty | Refused | Broke

  /** One turn of the loop. `exempt`: the reviewer lets this free step run unasked. */
  datatype Turn = Turn(exempt: bool, outcome: Outcome)

  datatype RecordStatus = InProgress | Done | Held | Superseded | Dead

  datatype Record = Record(id: string, status: RecordStatus)

  datatype Decision = Allow | ApproveIt | Continue | Retry | Reject | Stop | Unsupported(name: string)

  datatype Approval = Approval(decision: Decision, gate: Gate, supplemented: bool, overridden: bool)

  /** `index` of a review is the step under review; `demanded`: this step had to be
      authorized before it ran; `blocked`: it left a blocked result. */
  datatype Note = Acted(index: nat, demanded: bool, blocked: bool) | Reviewed(index: nat, approved: bool)
                | Answered(approval: Approval)

  datatype Run = Run(status: Status, plan: seq<Step>, next: nat, current: Option<Result>, records: seq<Record>,
                     gate: Option<Gate>, approvals: seq<Approval>, authorized: seq<string>, trace: seq<Note>,
                     outputs: map<string, Output>, request: map<string, string>)

  function New(request: map<string, string>): Run {
    Run(Queued, [], 0, None, [], None, [], [], [], map[], request)
  }

  // --------------------------------------------------------------------- nodes

  /** `gap`: a tool that the workflow needs has no handler. */
  datatype Planning = Planning(steps: seq<Step>, error: bool, gap: bool)

  function Planned(st: Run, p: Planning): Run {
    if st.status == Waiting then st
    else
      var st1 := if st.plan == [] then st.(plan := p.steps) else st;
      if (st.plan == [] && p.error) || p.gap then st1.(status := Failed)
      else if st1.next >= |st1.plan| then st1.(status := Completed)
      else st1.(status := Running)
  }

  predicate Demands(st: Run, exempt: bool)
    requires st.next < |st.plan|
  {
    st.plan[st.next].free && !exempt
  }

  /** An output is kept under its tool and under its module. */
  function Stored(outputs: map<string, Output>, step: Step, output: Output): map<string, Output> {
    outputs[step.tool := output][step.unit := output]
  }

  function OutputOf(outputs: map<string, Output>, tool: string): Output {
    if tool in outputs then outputs[tool] else NO_OUTPUT
  }

  predicate LeavesBlocked(o: Outcome) {
    o.Got? && o.result.blocked
  }

  function Worked(st: Run, t: Turn): Run {
    if st.status != Running || st.next >= |st.plan| then st
    else
      var step := st.plan[st.next];
      if Demands(st, t.exempt) && step.id !in st.authorized then
        st.(gate := Some(Gate(Authorization, st.next, true, step.tool)), status := Waiting)
      else
        var st1 := st.(trace := st.trace + [Acted(st.next, Demands(st, t.exempt), LeavesBlocked(t.outcome))]);
        match t.outcome
        case Got(result) =>
          st1.(records := st.records + [Record(step.id, InProgress)], current := Some(result),
               outputs := Stored(st.outputs, step, result.output))
        case Empty =>
          st1.(records := st.records + [Record(step.id, InProgress)], current := None,
               outputs := Stored(st.outputs, step, NO_OUTPUT))
        case Refused => st1.(records := st.records + [Record(step.id, Held)], status := Failed)
        case Broke => st1.(records := st.records + [Record(step.id, Dead)], status := Failed)
  }

  function Relabel(records: seq<Record>, s: RecordStatus): seq<Record>
    requires records != []
  {
    records[|records| - 1 := records[|records| - 1].(status := s)]
  }

  function Judge(r: Result): Verdict {
    if r.blocked then Hold(Data) else r.judged
  }

  function ToolOf(step: Step, r: Result): string {
    match r.invoked case None => step.tool case Some(tool) => if tool == "" then step.tool else tool
  }

  predicate Reviewable(st: Run) {
    st.status == Running && st.current.Some?
  }

  function Examined(st: Run): Run
    requires Reviewable(st) ==> st.next < |st.plan| && st.records != []
  {
    if !Reviewable(st) then st
    else
      var verdict := Judge(st.current.value);
      var st1 := st.(trace := st.trace + [Reviewed(st.next, verdict == Approve)]);
      match verdict
      case Terminal => st1.(records := Relabel(st.records, Dead), status := Failed)
      case Hold(kind) =>
        st1.(records := Relabel(st.records, Held), status := Waiting,
             gate := Some(Gate(kind, st.next, false, ToolOf(st.plan[st.next], st.current.value))))
      case Approve =>
        st1.(records := Relabel(st.records, Done), next := st.next + 1, current := None,
             status := if st.next + 1 >= |st.plan| then Completed else Running)
  }

  /** The reviewer looks only at a result the worker has just recorded. */
  ghost predicate Ready(st: Run) {
    st.status == Running ==> st.next < |st.plan|
  }

  /** The loop, for as many turns as it gets before it stops or is cut off. */
  function Looped(st: Run, turns: seq<Turn>): Run
    requires Ready(st)
    decreases |turns|
  {
    if st.status != Running || turns == [] then st
    else Looped(Examined(Worked(st, turns[0])), turns[1..])
  }

  function Ran(st: Run, p: Planning, turns: seq<Turn>): Run {
    if st.status == Waiting then st else Looped(Planned(st, p), turns)
  }

  // ------------------------------------------------------------------- decisions

  datatype Supplement = Absent | Malformed | Facts(facts: map<string, string>)

  predicate Supplies(s: Supplement) {
    s.Facts? && s.facts != map[]
  }

  /** The request with the facts that were supplied; the new ones win. */
  function Supplied(request: map<string, string>, s: Supplement): map<string, string> {
    if s.Facts? then request + s.facts else request
  }

  datatype Answer = Answer(decision: Decision, supplement: Supplement, overridden: bool)

  datatype Invalid = NotWaiting | UnsupportedDecision | BadSupplement | DataGate

  predicate Rejects(d: Decision) {
    d == Reject || d == Stop
  }

  function Objection(st: Run, a: Answer): Option<Invalid> {
    if st.status != Waiting || st.gate.None? then Some(NotWaiting)
    else if a.decision.Unsupported? then Some(UnsupportedDecision)
    else if a.supplement.Malformed? then Some(BadSupplement)
    else if st.gate.value.kind == Data
         && ((a.decision == ApproveIt && !a.overridden)
             || (!Rejects(a.decision) && !Supplies(a.supplement) && !a.overridden)) then Some(DataGate)
    else None
  }

  /** How applying an approval ends: done; a conflict that opens the gate again; or a failure
      that does not. */
  datatype Applied = Fine | Conflict | Lost

  predicate Applies(st: Run, a: Answer) {
    Objection(st, a).None? && !Rejects(a.decision) && !st.gate.value.preExecution
    && !Supplies(a.supplement) && a.decision != Retry
  }

  function Decided(st: Run, a: Answer, how: Applied): Run
    requires st.gate.Some? ==> st.gate.value.index < |st.plan| && (!st.gate.value.preExecution ==> st.records != [])
  {
    if Objection(st, a).Some? then st
    else
      var gate := st.gate.value;
      var approval := Approval(a.decision, gate, Supplies(a.supplement), a.overridden);
      var st1 := st.(approvals := st.approvals + [approval], trace := st.trace + [Answered(approval)], gate := None);
      if Rejects(a.decision) then st1.(status := Failed)
      else if gate.preExecution then
        st1.(authorized := st.authorized + [st.plan[gate.index].id], status := Running)
      else if Supplies(a.supplement) || a.decision == Retry then
        st1.(records := Relabel(st.records, Superseded), current := None, status := Running,
             request := Supplied(st.request, a.supplement))
      else Settled(st1, gate, how)
  }

  /** An approval is recorded before it is applied. */
  function Settled(st: Run, gate: Gate, how: Applied): Run
    requires st.records != []
  {
    var st1 := st.(records := Relabel(st.records, Done));
    match how
    case Conflict => st1.(gate := Some(gate), status := Waiting)
    case Lost => st1
    case Fine => st1.(next := gate.index + 1, current := None, status := Running)
  }

  // ------------------------------------------------------------------------ runs

  datatype Call = Go(planning: Planning, turns: seq<Turn>)
                | Resume(answer: Answer, how: Applied, planning: Planning, turns: seq<Turn>)

  /** What every operation needs of a run: the open gate is at the current step, and a step
      that is held or running has its record. */
  ghost predicate Shape(st: Run) {
    && st.next <= |st.plan|
    && (st.gate.Some? ==> st.status == Waiting && st.gate.value.index == st.next < |st.plan|)
    && (st.gate.Some? && !st.gate.value.preExecution ==> st.records != [])
    && (st.status == Completed ==> st.next == |st.plan|)
    && (st.gate.Some? ==> AsksRight(st.gate.value))
    && (forall k :: 0 <= k < |st.trace| && st.trace[k].Answered? ==> AsksRight(st.trace[k].approval.gate))
  }

  ghost predicate AsksRight(g: Gate) {
    g.preExecution ==> g.kind == Authorization
  }

  function After(st: Run, c: Call): Run
    requires Shape(st)
  {
    match c
    case Go(planning, turns) => Ran(st, planning, turns)
    case Resume(answer, how, planning, turns) =>
      var st1 := Decided(st, answer, how);
      if Objection(st, answer).Some? || st1.status != Running then st1 else Ran(st1, planning, turns)
  }
}

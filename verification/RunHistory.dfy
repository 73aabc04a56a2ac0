/** What the trace of a run tells of results that were blocked. */
module RunHistory {
  import opened Minutes
  import opened RunGraph
  import opened RunPromises

  // ------------------------------------------------------------- what always holds

  /** The newest note of an act. */
  function LastAct(trace: seq<Note>): Option<Note> {
    if trace == [] then None
    else if trace[|trace| - 1].Acted? then Some(trace[|trace| - 1])
    else LastAct(trace[..|trace| - 1])
  }

  /** A review looks at the act just before it, and approves no blocked result. An answer to a
      gate that was not opened before the step ran is about the newest act, and about a data
      gate if that left a blocked result. A blocked result is reviewed at once. */
  ghost predicate NoteRight(trace: seq<Note>, m: nat)
    requires m < |trace|
  {
    match trace[m]
    case Acted(i, _, blocked) => blocked ==> m + 1 < |trace| && trace[m + 1] == Reviewed(i, false)
    case Reviewed(i, ok) => m > 0 && trace[m - 1].Acted? && trace[m - 1].index == i && (ok ==> !trace[m - 1].blocked)
    case Answered(p) => p.gate.preExecution || AboutAct(trace[..m], p.gate)
  }

  ghost predicate AboutAct(trace: seq<Note>, gate: Gate) {
    var act := LastAct(trace);
    act.Some? && act.value.Acted? && act.value.index == gate.index && (act.value.blocked ==> gate.kind == Data)
  }

  ghost predicate GateRight(st: Run) {
    st.gate.Some? && !st.gate.value.preExecution ==> AboutAct(st.trace, st.gate.value)
  }

  /** The newest note is a review of a blocked result: the run waits at a data gate there. */
  ghost predicate HeldRight(st: Run) {
    var n := |st.trace|;
    n > 1 && st.trace[n - 1].Reviewed? && st.trace[n - 2].Acted? && st.trace[n - 2].blocked ==>
      && st.status == Waiting && st.gate.Some? && st.gate.value.kind == Data && !st.gate.value.preExecution
      && st.gate.value.index == st.next == st.trace[n - 1].index
  }

  /** Step i was let through at note m, and did not run again. */
  ghost predicate LetThrough(trace: seq<Note>, i: nat, m: nat) {
    && m < |trace|
    && (trace[m] == Reviewed(i, true) || (trace[m].Answered? && Passes(trace[m].approval, i)))
    && forall n :: m < n < |trace| && trace[n].Acted? ==> trace[n].index != i
  }

  ghost predicate Through(trace: seq<Note>, i: nat) {
    exists m: nat :: LetThrough(trace, i, m)
  }

  ghost predicate AllLetThrough(st: Run) {
    forall i: nat :: i < st.next ==> Through(st.trace, i)
  }

  ghost predicate AllRight(trace: seq<Note>) {
    forall m :: 0 <= m < |trace| ==> NoteRight(trace, m)
  }

  ghost predicate Telling(st: Run) {
    AllRight(st.trace) && GateRight(st) && HeldRight(st) && AllLetThrough(st)
  }

  // -------------------------------------------------------------------- growing traces

  lemma LastActAppend(trace: seq<Note>, n: Note)
    ensures LastAct(trace + [n]) == if n.Acted? then Some(n) else LastAct(trace)
  {
    assert (trace + [n])[..|trace|] == trace;
  }

  lemma {:induction false} LastActAt(trace: seq<Note>) returns (q: nat)
    ensures LastAct(trace).Some? ==>
              q < |trace| && trace[q] == LastAct(trace).value && forall n :: q < n < |trace| ==> !trace[n].Acted?
    ensures LastAct(trace).None? ==> forall n :: 0 <= n < |trace| ==> !trace[n].Acted?
  {
    q := 0;
    if trace != [] {
      if trace[|trace| - 1].Acted? {
        q := |trace| - 1;
      } else {
        q := LastActAt(trace[..|trace| - 1]);
      }
    }
  }

  lemma RightAppend(trace: seq<Note>, n: Note)
    requires AllRight(trace) && NoteRight(trace + [n], |trace|)
    ensures AllRight(trace + [n])
  {
    var more := trace + [n];
    forall m | 0 <= m < |trace|
      ensures NoteRight(more, m)
    {
      assert NoteRight(trace, m) && more[..m] == trace[..m];
    }
  }

  /** An act and the review of its result. */
  lemma RightAppendTwo(trace: seq<Note>, act: Note, review: Note)
    requires AllRight(trace) && act.Acted? && review.Reviewed? && review.index == act.index
    requires act.blocked ==> !review.approved
    ensures AllRight(trace + [act, review])
  {
    var more := trace + [act, review];
    forall m | 0 <= m < |trace|
      ensures NoteRight(more, m)
    {
      assert NoteRight(trace, m) && more[..m] == trace[..m];
    }
    assert more[|trace|] == act && more[|trace| + 1] == review;
  }

  /** Acts of later steps leave the earlier ones let through. */
  lemma ThroughLater(st: Run, trace: seq<Note>)
    requires AllLetThrough(st) && st.trace <= trace
    requires forall n :: |st.trace| <= n < |trace| && trace[n].Acted? ==> trace[n].index >= st.next
    ensures forall i: nat :: i < st.next ==> Through(trace, i)
  {
    forall i: nat | i < st.next
      ensures Through(trace, i)
    {
      assert Through(st.trace, i);
      var m: nat :| LetThrough(st.trace, i, m);
      assert LetThrough(trace, i, m);
    }
  }

  // ------------------------------------------------------------------------ one turn

  function Turned(st: Run, t: Turn): Run
    requires st.status == Running && st.next < |st.plan|
  {
    Examined(Worked(st, t))
  }

  /** A step that is to be authorized and is not opens its gate and leaves all else. */
  lemma TurnAsks(st: Run, t: Turn)
    requires st.status == Running && st.next < |st.plan|
    requires st.plan[st.next].free && !t.exempt && st.plan[st.next].id !in st.authorized
    ensures Turned(st, t)
            == st.(gate := Some(Gate(Authorization, st.next, true, st.plan[st.next].tool)), status := Waiting)
  {
  }

  ghost predicate RunsNow(st: Run, t: Turn) {
    && st.status == Running && st.next < |st.plan|
    && (st.plan[st.next].free && !t.exempt ==> st.plan[st.next].id in st.authorized)
  }

  /** A step that leaves no result fails the run, or is run again if it left nothing at all. */
  lemma TurnFails(st: Run, t: Turn)
    requires RunsNow(st, t) && !t.outcome.Got?
    ensures var st', step := Turned(st, t), st.plan[st.next];
      var kept := if t.outcome.Refused? then Held else if t.outcome.Broke? then Dead else InProgress;
      && st'.next == st.next && st'.gate == st.gate
      && st'.status == (if t.outcome.Empty? then Running else Failed)
      && st'.trace == st.trace + [Acted(st.next, step.free && !t.exempt, false)]
      && st'.records == st.records + [Record(step.id, kept)]
      && (t.outcome.Empty? ==> st'.current.None?)
  {
  }

  /** A blocked result is held behind a data gate whatever the reviewer makes of it; any other
      is held, ends the run, or lets it go on. */
  lemma TurnReviews(st: Run, t: Turn)
    requires RunsNow(st, t) && t.outcome.Got?
    ensures var st', step, result := Turned(st, t), st.plan[st.next], t.outcome.result;
      var act := Acted(st.next, step.free && !t.exempt, result.blocked);
      var tool := if result.invoked.None? || result.invoked.value == "" then step.tool else result.invoked.value;
      if result.blocked || result.judged.Hold? then
        var kind := if result.blocked then Data else result.judged.kind;
        && st'.status == Waiting && st'.gate == Some(Gate(kind, st.next, false, tool)) && st'.next == st.next
        && st'.trace == st.trace + [act, Reviewed(st.next, false)]
        && st'.records == st.records + [Record(step.id, Held)] && st'.current == Some(result)
      else if result.judged.Terminal? then
        && st'.status == Failed && st'.next == st.next && st'.gate == st.gate
        && st'.trace == st.trace + [act, Reviewed(st.next, false)]
        && st'.records == st.records + [Record(step.id, Dead)]
      else
        && st'.next == st.next + 1 && st'.status == (if st.next + 1 == |st.plan| then Completed else Running)
        && st'.gate == st.gate && st'.trace == st.trace + [act, Reviewed(st.next, true)]
        && st'.records == st.records + [Record(step.id, Done)] && st'.current.None?
  {
  }

  /** Neither the worker nor the reviewer touches the plan, the request or the decisions, and
      the reviewer touches no output. */
  lemma WorkedLeaves(st: Run, t: Turn)
    ensures var st' := Worked(st, t);
      && st'.plan == st.plan && st'.request == st.request
      && st'.approvals == st.approvals && st'.authorized == st.authorized
  {
    hide Stored, Demands;
  }

  lemma ExaminedLeaves(st: Run)
    requires Reviewable(st) ==> st.next < |st.plan| && st.records != []
    ensures var st' := Examined(st);
      && st'.plan == st.plan && st'.request == st.request
      && st'.approvals == st.approvals && st'.authorized == st.authorized
      && st'.outputs == st.outputs
  {
    hide Relabel, Judge, ToolOf;
  }

  /** The worker keeps a result under its module and its tool. */
  lemma TurnStores(st: Run, t: Turn)
    requires RunsNow(st, t) && t.outcome.Got?
    ensures var outputs, step := Worked(st, t).outputs, st.plan[st.next];
      && (forall k :: k != step.unit && k != step.tool ==> OutputOf(outputs, k) == OutputOf(st.outputs, k))
      && OutputOf(outputs, step.unit) == OutputOf(outputs, step.tool) == t.outcome.result.output
  {
  }

  /** A run that waits is not driven on. One that lacks a tool, or whose planning fails, fails
      and does nothing; one with a plan keeps it. */
  lemma PlanningTells(st: Run, p: Planning, turns: seq<Turn>)
    requires Shape(st)
    ensures var st' := Ran(st, p, turns);
      && (st.status == Waiting ==> st' == st)
      && (st.status != Waiting && (p.gap || (st.plan == [] && p.error)) ==>
            st' == st.(plan := if st.plan == [] then p.steps else st.plan, status := Failed))
      && (st.status != Waiting && !p.gap && !(st.plan == [] && p.error) && turns == [] ==>
            var plan := if st.plan == [] then p.steps else st.plan;
            st' == st.(plan := plan, status := if st.next < |plan| then Running else Completed))
  {
  }

  /** What an answer is refused for: no open gate; a decision that is not one of the six; facts
      that are no object; and at a data gate anything but a rejection, an override, or facts
      with a decision other than approval. */
  lemma RefusedIff(st: Run, a: Answer)
    ensures var open := st.status == Waiting && st.gate.Some?;
      var known := a.decision in {Allow, ApproveIt, Continue, Retry, Reject, Stop};
      var facts := a.supplement.Facts? && a.supplement.facts.Keys != {};
      && (Objection(st, a) == Some(NotWaiting) <==> !open)
      && (Objection(st, a) == Some(UnsupportedDecision) <==> open && !known)
      && (Objection(st, a) == Some(BadSupplement) <==> open && known && a.supplement.Malformed?)
      && (Objection(st, a).None?
          <==> && open && known && !a.supplement.Malformed?
               && (st.gate.value.kind == Data ==>
                     a.decision in {Reject, Stop} || a.overridden || (facts && a.decision != ApproveIt)))
  {
    if a.supplement.Facts? {
      assert a.supplement.facts == map[] <==> a.supplement.facts.Keys == {};
    }
  }

  /** What an answer does: a rejection fails the run; at a gate before a step any other
      authorizes that step; after a step facts or a retry send it back, on the request with the
      facts; and what is left lets the step go, once its approval is applied. */
  lemma AnswerTells(st: Run, a: Answer, how: Applied)
    requires Shape(st) && Objection(st, a).None?
    ensures st.gate.Some? && st.gate.value.index < |st.plan|
    ensures var facts := a.supplement.Facts? && a.supplement.facts != map[];
      Decided(st, a, how).approvals == st.approvals + [Approval(a.decision, st.gate.value, facts, a.overridden)]
    ensures var st', gate := Decided(st, a, how), st.gate.value;
      var facts := a.supplement.Facts? && a.supplement.facts != map[];
      if a.decision in {Reject, Stop} then
        st'.status == Failed && st'.gate.None? && st'.next == st.next && st'.records == st.records
      else if gate.preExecution then
        && st'.status == Running && st'.gate.None? && st'.next == st.next
        && st'.authorized == st.authorized + [st.plan[gate.index].id]
      else if facts || a.decision == Retry then
        && st'.status == Running && st'.gate.None? && st'.next == st.next && st'.current.None?
        && LastIs(st', st, Superseded)
        && (forall k :: Field(st'.request, k) == if facts && k in a.supplement.facts then Some(a.supplement.facts[k])
                                                 else Field(st.request, k))
      else
        && LastIs(st', st, Done)
        && match how
           case Fine => st'.status == Running && st'.gate.None? && st'.next == st.next + 1 && st'.current.None?
           case Conflict => st'.status == Waiting && st'.gate == st.gate && st'.next == st.next
           case Lost => st'.status == Waiting && st'.gate.None? && st'.next == st.next
  {
    hide AsksRight;
  }

  function Field(request: map<string, string>, key: string): Option<string> {
    if key in request then Some(request[key]) else None
  }

  /** The last record has the status, and the others are as they were. */
  ghost predicate LastIs(st': Run, st: Run, status: RecordStatus) {
    && st.records != [] && |st'.records| == |st.records|
    && st'.records[..|st.records| - 1] == st.records[..|st.records| - 1]
    && st'.records[|st.records| - 1] == Record(st.records[|st.records| - 1].id, status)
  }

  // ---------------------------------------------------------------------- every history

  lemma TurnTells(st: Run, t: Turn)
    requires Telling(st) && Shape(st) && st.status == Running && st.next < |st.plan|
    ensures Telling(Turned(st, t))
  {
    hide Telling, Turned;
    TellingParts(st);
    if !RunsNow(st, t) {
      AskTells(st, t);
    } else if !t.outcome.Got? {
      FailTells(st, t);
    } else {
      ReviewTells(st, t);
    }
  }

  lemma AskTells(st: Run, t: Turn)
    requires AllRight(st.trace) && HeldRight(st) && AllLetThrough(st)
    requires st.status == Running && st.next < |st.plan| && !RunsNow(st, t)
    ensures Telling(Turned(st, t))
  {
    hide AllRight, AllLetThrough, Telling;
    TurnAsks(st, t);
    hide Turned;
    TurnKeeps(st, Turned(st, t));
  }

  lemma FailTells(st: Run, t: Turn)
    requires AllRight(st.trace) && AllLetThrough(st) && Shape(st) && RunsNow(st, t) && !t.outcome.Got?
    ensures Telling(Turned(st, t))
  {
    hide AllRight, AllLetThrough, Telling;
    TurnFails(st, t);
    hide Turned;
    var st' := Turned(st, t);
    OneAct(st.trace, st'.trace[|st.trace|]);
    TurnKeeps(st, st');
  }

  lemma ReviewTells(st: Run, t: Turn)
    requires AllRight(st.trace) && AllLetThrough(st) && Shape(st) && RunsNow(st, t) && t.outcome.Got?
    ensures Telling(Turned(st, t))
  {
    hide AllRight, AllLetThrough, Telling;
    TurnReviews(st, t);
    hide Turned;
    var st' := Turned(st, t);
    var act, review := st'.trace[|st.trace|], st'.trace[|st.trace| + 1];
    assert st'.trace == st.trace + [act, review];
    RightAppendTwo(st.trace, act, review);
    ActThenReview(st.trace, act, review);
    TurnKeeps(st, st');
  }

  lemma TellingParts(st: Run)
    requires Telling(st)
    ensures AllRight(st.trace) && GateRight(st) && HeldRight(st) && AllLetThrough(st)
  {
  }

  lemma OneAct(trace: seq<Note>, act: Note)
    requires AllRight(trace) && act.Acted? && !act.blocked
    ensures AllRight(trace + [act])
  {
    assert (trace + [act])[|trace|] == act;
    RightAppend(trace, act);
  }

  lemma ActThenReview(trace: seq<Note>, act: Note, review: Note)
    requires act.Acted? && review.Reviewed?
    ensures LastAct(trace + [act, review]) == Some(act)
  {
    assert trace + [act, review] == trace + [act] + [review];
    LastActAppend(trace, act);
    LastActAppend(trace + [act], review);
  }

  /** What a turn has to show for a run that still tells: a new gate is about the newest act,
      and a step passed was approved just now. */
  lemma TurnKeeps(st: Run, st': Run)
    requires AllLetThrough(st) && AllRight(st'.trace) && GateRight(st') && HeldRight(st') && st.trace <= st'.trace
    requires forall n :: |st.trace| <= n < |st'.trace| && st'.trace[n].Acted? ==> st'.trace[n].index >= st.next
    requires st'.next == st.next
             || (st'.next == st.next + 1 && |st'.trace| > 0 && st'.trace[|st'.trace| - 1] == Reviewed(st.next, true))
    ensures Telling(st')
  {
    hide AllRight, GateRight, HeldRight, NoteRight;
    ThroughLater(st, st'.trace);
    if st'.next == st.next + 1 {
      assert LetThrough(st'.trace, st.next, |st'.trace| - 1);
    }
  }

  lemma {:induction false} LoopedTells(st: Run, turns: seq<Turn>)
    requires Telling(st) && RunPromises.Good(st) && Ready(st)
    ensures Telling(Looped(st, turns))
    decreases |turns|
  {
    hide Telling, RunPromises.Good;
    if st.status == Running && turns != [] {
      GoodShape(st);
      TurnTells(st, turns[0]);
      WorkedKeeps(st, turns[0]);
      ExaminedKeeps(Worked(st, turns[0]));
      LoopedTells(Turned(st, turns[0]), turns[1..]);
    }
  }

  lemma GoodShape(st: Run)
    requires RunPromises.Good(st)
    ensures Shape(st)
  {
  }

  lemma PlannedTells(st: Run, p: Planning)
    requires Telling(st) && Shape(st)
    ensures Telling(Planned(st, p))
  {
    hide AllRight, AllLetThrough, LastAct;
    if st.status != Waiting {
      assert AllLetThrough(Planned(st, p)) by {
        SameTrace(st, Planned(st, p));
      }
    }
  }

  lemma SameTrace(st: Run, st': Run)
    requires AllLetThrough(st) && st'.trace == st.trace && st'.next == st.next
    ensures AllLetThrough(st')
  {
  }

  lemma RanTells(st: Run, p: Planning, turns: seq<Turn>)
    requires Telling(st) && RunPromises.Good(st)
    ensures Telling(Ran(st, p, turns))
  {
    hide Telling, RunPromises.Good;
    if st.status != Waiting {
      GoodShape(st);
      PlannedTells(st, p);
      PlannedKeeps(st, p);
      LoopedTells(Planned(st, p), turns);
    }
  }

  /** What an answer has to show: it is told, about the gate there was; a gate that is open
      again is that gate; and a step passed was passed by it. */
  lemma DecidedTells(st: Run, a: Answer, how: Applied)
    requires Telling(st) && RunPromises.Good(st)
    ensures Telling(Decided(st, a, how))
  {
    hide AllRight, AllLetThrough, NoteRight, AllPassed, AllAuthorized, AllActedRight, Told, AboutAct;
    var st' := Decided(st, a, how);
    if Objection(st, a).None? {
      var approval := Approval(a.decision, st.gate.value, Supplies(a.supplement), a.overridden);
      assert st'.trace == st.trace + [Answered(approval)];
      AnswerRight(st.trace, approval);
      StillAbout(st.trace, Answered(approval), st.gate.value);
      hide Decided;
      AnswerKeeps(st, st', approval);
    }
  }

  lemma AnswerRight(trace: seq<Note>, p: Approval)
    requires AllRight(trace) && (p.gate.preExecution || AboutAct(trace, p.gate))
    ensures AllRight(trace + [Answered(p)])
  {
    assert (trace + [Answered(p)])[..|trace|] == trace;
    RightAppend(trace, Answered(p));
  }

  lemma StillAbout(trace: seq<Note>, n: Note, gate: Gate)
    requires !n.Acted?
    ensures AboutAct(trace + [n], gate) <==> AboutAct(trace, gate)
  {
    LastActAppend(trace, n);
  }

  lemma AnswerKeeps(st: Run, st': Run, p: Approval)
    requires AllLetThrough(st) && AllRight(st'.trace) && GateRight(st') && st'.trace == st.trace + [Answered(p)]
    requires st'.next == st.next || (st'.next == st.next + 1 && Passes(p, st.next))
    ensures Telling(st')
  {
    hide AllRight, GateRight, NoteRight, Passes;
    ThroughLater(st, st'.trace);
    if st'.next == st.next + 1 {
      assert LetThrough(st'.trace, st.next, |st.trace|);
    }
  }

  lemma CallTells(st: Run, c: Call)
    requires Telling(st) && RunPromises.Good(st)
    ensures Telling(After(st, c))
  {
    hide Telling, RunPromises.Good, Decided, Ran, Objection;
    GoodShape(st);
    match c
    case Go(planning, turns) => RanTells(st, planning, turns);
    case Resume(answer, how, planning, turns) =>
      DecidedTells(st, answer, how);
      DecidedKeeps(st, answer, how);
      RanTells(Decided(st, answer, how), planning, turns);
  }

  lemma {:induction false} HistoryTells(request: map<string, string>, calls: seq<Call>)
    ensures Telling(History(request, calls))
  {
    hide Telling, RunPromises.Good, After;
    if calls == [] {
      NewTells(request);
    } else {
      HistoryTells(request, calls[..|calls| - 1]);
      CallTells(History(request, calls[..|calls| - 1]), calls[|calls| - 1]);
    }
  }

  lemma NewTells(request: map<string, string>)
    ensures Telling(New(request))
  {
  }

  // ------------------------------------------------------------------------- promises

  /** A step that left a blocked result was reviewed at once and not approved; while that is
      the last the trace tells, the run waits at a data gate there, opened after the step ran,
      and has not gone on. */
  lemma BlockedIsHeld(request: map<string, string>, calls: seq<Call>, n: nat)
    requires var trace := History(request, calls).trace; n < |trace| && trace[n].Acted? && trace[n].blocked
    ensures var st := History(request, calls);
      && n + 1 < |st.trace| && st.trace[n + 1] == Reviewed(st.trace[n].index, false)
      && (n + 2 == |st.trace| ==>
            && st.status == Waiting && st.gate.Some? && st.gate.value.kind == Data && !st.gate.value.preExecution
            && st.gate.value.index == st.next == st.trace[n].index)
  {
    HistoryTells(request, calls);
    assert NoteRight(History(request, calls).trace, n);
  }

  /** No approval of the reviewer follows a blocked result: what it approves is the result of
      an act of the step just before, which was not blocked. */
  lemma ApprovedIsNotBlocked(request: map<string, string>, calls: seq<Call>, m: nat)
    requires m < |History(request, calls).trace| && History(request, calls).trace[m].Reviewed?
    requires History(request, calls).trace[m].approved
    ensures var trace := History(request, calls).trace;
      m > 0 && trace[m - 1].Acted? && trace[m - 1].index == trace[m].index && !trace[m - 1].blocked
  {
    HistoryTells(request, calls);
    assert NoteRight(History(request, calls).trace, m);
  }

  /** A human let step i go on at its data gate, overriding it. */
  ghost predicate Overrides(n: Note, i: nat) {
    && n.Answered? && n.approval.gate.kind == Data && n.approval.gate.index == i && !n.approval.gate.preExecution
    && n.approval.overridden && !n.approval.supplemented && n.approval.decision !in {Reject, Stop, Retry}
  }

  /** A step whose last result was blocked is behind the run only with such an answer, given
      after it. */
  lemma BlockedNeedsOverride(request: map<string, string>, calls: seq<Call>, i: nat, n: nat)
    requires var st := History(request, calls);
      && i < st.next && n < |st.trace| && st.trace[n].Acted? && st.trace[n].index == i && st.trace[n].blocked
      && forall k :: n < k < |st.trace| && st.trace[k].Acted? ==> st.trace[k].index != i
    ensures exists k :: n < k < |History(request, calls).trace| && Overrides(History(request, calls).trace[k], i)
  {
    HistoryTells(request, calls);
    assert Through(History(request, calls).trace, i);
    hide History, NoteRight, LetThrough;
    var m: nat :| LetThrough(History(request, calls).trace, i, m);
    OverrideFollows(History(request, calls).trace, i, n, m);
  }

  lemma OverrideFollows(trace: seq<Note>, i: nat, n: nat, m: nat)
    requires AllRight(trace) && LetThrough(trace, i, m)
    requires n < |trace| && trace[n].Acted? && trace[n].index == i && trace[n].blocked
    requires forall k :: n < k < |trace| && trace[k].Acted? ==> trace[k].index != i
    ensures n < m < |trace| && Overrides(trace[m], i)
  {
    assert NoteRight(trace, m);
    if trace[m].Answered? {
      var q := LastActAt(trace[..m]);
      assert trace[q] == trace[..m][q];
    }
  }
}

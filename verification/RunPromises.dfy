/** What every history of a human-gated run keeps. */
module RunPromises {
  import opened RunGraph

  // ----------------------------------------------------------- what always holds

  /** The approval let step i through: a human was asked after it ran, did not send it back,
      and on a data gate overrode it. */
  ghost predicate Passes(a: Approval, i: nat) {
    && a.gate.index == i && !a.gate.preExecution && !Rejects(a.decision) && a.decision != Retry && !a.supplemented
    && (a.gate.kind == Data ==> a.overridden)
  }

  ghost predicate Passed(st: Run, i: nat) {
    Reviewed(i, true) in st.trace || exists k :: 0 <= k < |st.approvals| && Passes(st.approvals[k], i)
  }

  ghost predicate Authorizes(a: Approval, plan: seq<Step>, id: string) {
    a.gate.preExecution && !Rejects(a.decision) && a.gate.index < |plan| && plan[a.gate.index].id == id
  }

  ghost predicate AllPassed(st: Run) {
    forall i :: 0 <= i < st.next ==> Passed(st, i)
  }

  /** The note tells of an answer that authorizes the step. */
  ghost predicate Allows(n: Note, plan: seq<Step>, id: string) {
    n.Answered? && Authorizes(n.approval, plan, id)
  }

  ghost predicate AllowedBefore(st: Run, n: nat, id: string)
    requires n <= |st.trace|
  {
    exists k :: 0 <= k < n && Allows(st.trace[k], st.plan, id)
  }

  ghost predicate AllAuthorized(st: Run) {
    && (st.plan == [] ==> st.authorized == [])
    && forall id :: id in st.authorized ==> AllowedBefore(st, |st.trace|, id)
  }

  /** Note n, if it tells that a step ran that had to be authorized, stands after the answer
      that authorized it. */
  ghost predicate ActedRight(st: Run, n: nat)
    requires n < |st.trace|
  {
    st.trace[n].Acted? && st.trace[n].demanded ==>
      st.trace[n].index < |st.plan| && AllowedBefore(st, n, st.plan[st.trace[n].index].id)
  }

  ghost predicate AllActedRight(st: Run) {
    forall n :: 0 <= n < |st.trace| ==> ActedRight(st, n)
  }

  function Answers(trace: seq<Note>): seq<Approval> {
    if trace == [] then []
    else
      var last := trace[|trace| - 1];
      Answers(trace[..|trace| - 1]) + (if last.Answered? then [last.approval] else [])
  }

  /** The trace tells of every approval, in order. */
  ghost predicate Told(st: Run) {
    Answers(st.trace) == st.approvals
  }

  ghost predicate Good(st: Run) {
    Shape(st) && AllPassed(st) && AllAuthorized(st) && AllActedRight(st) && Told(st)
  }

  /** What a later state of the run keeps. */
  ghost predicate Later(st: Run, st': Run) {
    && (st.plan != [] ==> st'.plan == st.plan)
    && st.next <= st'.next
    && st.approvals <= st'.approvals && st.authorized <= st'.authorized && st.trace <= st'.trace
  }

  lemma LaterThrough(a: Run, b: Run, c: Run)
    requires Later(a, b) && Later(b, c)
    ensures Later(a, c)
  {
  }

  // ------------------------------------------------- what carries over to a later state

  lemma PassedLater(st: Run, st': Run)
    requires AllPassed(st) && Later(st, st')
    ensures forall i :: 0 <= i < st.next ==> Passed(st', i)
  {
    forall i | 0 <= i < st.next
      ensures Passed(st', i)
    {
      assert Passed(st, i);
      if Reviewed(i, true) !in st.trace {
        var k :| 0 <= k < |st.approvals| && Passes(st.approvals[k], i);
        assert st'.approvals[k] == st.approvals[k];
      }
    }
  }

  lemma AllowedLater(st: Run, st': Run, n: nat, id: string)
    requires Later(st, st') && st.plan != [] && n <= |st.trace| && AllowedBefore(st, n, id)
    ensures forall n' :: n <= n' <= |st'.trace| ==> AllowedBefore(st', n', id)
  {
    var k :| 0 <= k < n && Allows(st.trace[k], st.plan, id);
    assert st'.trace[k] == st.trace[k];
  }

  /** With no new authorization, the old ones stand. */
  lemma AuthorizedLater(st: Run, st': Run)
    requires AllAuthorized(st) && Later(st, st') && st'.authorized == st.authorized
    ensures AllAuthorized(st')
  {
    hide AllowedBefore;
    forall id | id in st'.authorized
      ensures AllowedBefore(st', |st'.trace|, id)
    {
      AllowedLater(st, st', |st.trace|, id);
    }
  }

  lemma ActedLater(st: Run, st': Run)
    requires AllActedRight(st) && Later(st, st')
    ensures forall n :: 0 <= n < |st.trace| ==> ActedRight(st', n)
  {
    hide AllowedBefore;
    forall n | 0 <= n < |st.trace|
      ensures ActedRight(st', n)
    {
      assert ActedRight(st, n) && st'.trace[n] == st.trace[n];
      if st.trace[n].Acted? && st.trace[n].demanded {
        AllowedLater(st, st', n, st.plan[st.trace[n].index].id);
      }
    }
  }

  lemma AnswersAppend(trace: seq<Note>, n: Note)
    ensures Answers(trace + [n]) == Answers(trace) + (if n.Answered? then [n.approval] else [])
  {
    assert (trace + [n])[..|trace + [n]| - 1] == trace;
  }

  /** A step that only moves the machinery: nothing passed, authorized or done. */
  lemma GoodLater(st: Run, st': Run)
    requires Good(st) && Later(st, st') && Shape(st') && Told(st')
    requires st'.next == st.next && st'.authorized == st.authorized
    requires forall n :: |st.trace| <= n < |st'.trace| ==> ActedRight(st', n)
    ensures Good(st')
  {
    hide AllowedBefore;
    PassedLater(st, st');
    AuthorizedLater(st, st');
    ActedLater(st, st');
  }

  // ----------------------------------------------------------------------- nodes

  lemma PlannedKeeps(st: Run, p: Planning)
    requires Good(st)
    ensures Good(Planned(st, p)) && Later(st, Planned(st, p)) && Ready(Planned(st, p))
  {
    GoodLater(st, Planned(st, p));
  }

  /** What a worker's turn changes of the trace. */
  lemma WorkedParts(st: Run, t: Turn)
    requires Shape(st) && Ready(st)
    ensures var st' := Worked(st, t);
      && Shape(st') && Later(st, st') && Ready(st')
      && st'.next == st.next && st'.authorized == st.authorized && st'.approvals == st.approvals
      && (Reviewable(st') ==> st'.records != [])
      && (st'.trace == st.trace
          || (&& st.next < |st.plan|
              && st'.trace == st.trace + [Acted(st.next, Demands(st, t.exempt), LeavesBlocked(t.outcome))]
              && (Demands(st, t.exempt) ==> st.plan[st.next].id in st.authorized)))
  {
  }

  lemma WorkedKeeps(st: Run, t: Turn)
    requires Good(st) && Ready(st)
    ensures Good(Worked(st, t)) && Later(st, Worked(st, t)) && Ready(Worked(st, t))
    ensures Reviewable(Worked(st, t)) ==> Worked(st, t).records != []
  {
    hide AllPassed, AllActedRight, AllowedBefore, Worked, Shape;
    var st' := Worked(st, t);
    WorkedParts(st, t);
    if st'.trace != st.trace {
      var n := Acted(st.next, Demands(st, t.exempt), LeavesBlocked(t.outcome));
      assert st'.trace == st.trace + [n];
      AnswersAppend(st.trace, n);
      if n.demanded {
        AllowedLater(st, st', |st.trace|, st.plan[st.next].id);
      }
    }
    GoodLater(st, st');
  }

  /** What an examination changes of the trace, and of how far the run is. */
  lemma ExaminedParts(st: Run)
    requires Shape(st) && Ready(st) && (Reviewable(st) ==> st.records != [])
    ensures var st' := Examined(st);
      && Shape(st') && Later(st, st') && Ready(st') && st'.authorized == st.authorized && st'.approvals == st.approvals
      && (st'.trace == st.trace || exists ok :: st'.trace == st.trace + [Reviewed(st.next, ok)])
      && (st'.next == st.next || (st'.next == st.next + 1 && st'.trace == st.trace + [Reviewed(st.next, true)]))
  {
    if Reviewable(st) {
      assert Examined(st).trace == st.trace + [Reviewed(st.next, Judge(st.current.value) == Approve)];
    }
  }

  lemma ExaminedKeeps(st: Run)
    requires Good(st) && Ready(st) && (Reviewable(st) ==> st.records != [])
    ensures Good(Examined(st)) && Later(st, Examined(st)) && Ready(Examined(st))
  {
    hide AllActedRight, AllowedBefore, AllAuthorized, Examined, Shape, Answers;
    var st' := Examined(st);
    ExaminedParts(st);
    ActedExtends(st, st');
    AuthorizedLater(st, st');
    PassedLater(st, st');
    if st'.trace != st.trace {
      AnswersAppend(st.trace, st'.trace[|st.trace|]);
    }
    if st'.next != st.next {
      assert st'.trace[|st.trace|] == Reviewed(st.next, true);
    }
  }

  /** New notes that tell of no act leave the order of acts and answers as it was. */
  lemma ActedExtends(st: Run, st': Run)
    requires AllActedRight(st) && Later(st, st')
    requires forall n :: |st.trace| <= n < |st'.trace| ==> !st'.trace[n].Acted?
    ensures AllActedRight(st')
  {
    hide AllowedBefore;
    ActedLater(st, st');
  }

  lemma {:induction false} LoopedKeeps(st: Run, turns: seq<Turn>)
    requires Good(st) && Ready(st)
    ensures Good(Looped(st, turns)) && Later(st, Looped(st, turns))
    decreases |turns|
  {
    hide Good, Later;
    if st.status == Running && turns != [] {
      var st1 := Worked(st, turns[0]);
      WorkedKeeps(st, turns[0]);
      ExaminedKeeps(st1);
      LoopedKeeps(Examined(st1), turns[1..]);
      LaterThrough(st, st1, Examined(st1));
      LaterThrough(st, Examined(st1), Looped(st, turns));
    } else {
      LaterSelf(st);
    }
  }

  lemma LaterSelf(st: Run)
    ensures Later(st, st)
  {
  }

  lemma RanKeeps(st: Run, p: Planning, turns: seq<Turn>)
    requires Good(st)
    ensures Good(Ran(st, p, turns)) && Later(st, Ran(st, p, turns))
  {
    hide Good, Later;
    if st.status == Waiting {
      LaterSelf(st);
    } else {
      PlannedKeeps(st, p);
      LoopedKeeps(Planned(st, p), turns);
      LaterThrough(st, Planned(st, p), Ran(st, p, turns));
    }
  }

  lemma DecidedLater(st: Run, a: Answer, how: Applied)
    requires Shape(st)
    ensures Shape(Decided(st, a, how)) && Later(st, Decided(st, a, how))
    ensures var st' := Decided(st, a, how);
      || (st'.trace == st.trace && st'.approvals == st.approvals)
      || exists p :: st'.trace == st.trace + [Answered(p)] && st'.approvals == st.approvals + [p]
  {
    var st' := Decided(st, a, how);
    if Objection(st, a).None? {
      var p := st'.approvals[|st.approvals|];
      assert st'.trace == st.trace + [Answered(p)];
    }
  }

  lemma DecidedPasses(st: Run, a: Answer, how: Applied)
    requires Good(st)
    ensures AllPassed(Decided(st, a, how)) && AllActedRight(Decided(st, a, how)) && Told(Decided(st, a, how))
  {
    hide AllActedRight, AllowedBefore, AllAuthorized;
    var st' := Decided(st, a, how);
    DecidedLater(st, a, how);
    ActedExtends(st, st');
    PassedLater(st, st');
    if st'.trace != st.trace {
      AnswersAppend(st.trace, st'.trace[|st.trace|]);
    }
    if st'.next != st.next {
      assert Passes(st'.approvals[|st.approvals|], st.next);
    }
  }

  /** A decision authorizes only the step it was asked about, and passes only that step. */
  lemma DecidedKeeps(st: Run, a: Answer, how: Applied)
    requires Good(st)
    ensures Good(Decided(st, a, how))
  {
    hide AllActedRight, AllowedBefore, AllPassed, Told;
    var st' := Decided(st, a, how);
    DecidedLater(st, a, how);
    DecidedPasses(st, a, how);
    if st'.authorized != st.authorized {
      AuthorizedMore(st, st');
    } else {
      AuthorizedLater(st, st');
    }
  }

  lemma AuthorizedMore(st: Run, st': Run)
    requires AllAuthorized(st) && Later(st, st') && st.plan != []
    requires |st'.trace| == |st.trace| + 1 && |st'.authorized| == |st.authorized| + 1
    requires Allows(st'.trace[|st.trace|], st.plan, st'.authorized[|st.authorized|])
    ensures AllAuthorized(st')
  {
    forall id | id in st'.authorized
      ensures AllowedBefore(st', |st'.trace|, id)
    {
      if id in st.authorized {
        AllowedLater(st, st', |st.trace|, id);
      } else {
        assert id == st'.authorized[|st.authorized|];
      }
    }
  }

  lemma CallKeeps(st: Run, c: Call)
    requires Good(st)
    ensures Good(After(st, c)) && Later(st, After(st, c))
  {
    hide AllPassed, AllAuthorized, AllActedRight, Told, Later, Decided, Ran, Objection;
    match c
    case Go(planning, turns) => RanKeeps(st, planning, turns);
    case Resume(answer, how, planning, turns) =>
      var st1 := Decided(st, answer, how);
      DecidedLater(st, answer, how);
      DecidedKeeps(st, answer, how);
      RanKeeps(st1, planning, turns);
      LaterThrough(st, st1, Ran(st1, planning, turns));
  }

  // -------------------------------------------------------------------- histories

  /** The run after a history of calls. */
  ghost function History(request: map<string, string>, calls: seq<Call>): (st: Run)
    ensures Good(st)
  {
    if calls == [] then New(request)
    else
      var before := History(request, calls[..|calls| - 1]);
      CallKeeps(before, calls[|calls| - 1]);
      After(before, calls[|calls| - 1])
  }

  /** Every step behind the run, and so every step of a completed one, was approved by the
      reviewer, or let through by a human who, on a data gate, overrode it. */
  lemma EveryStepPassed(request: map<string, string>, calls: seq<Call>, i: nat)
    requires var st := History(request, calls); i < (if st.status == Completed then |st.plan| else st.next)
    ensures var st := History(request, calls);
      || Reviewed(i, true) in st.trace
      || exists k :: 0 <= k < |st.approvals| && Passes(st.approvals[k], i)
  {
    assert Passed(History(request, calls), i);
  }

  /** With step ids that differ, a free step that had to be authorized ran only after its own
      gate was answered with something other than a rejection. */
  lemma ActedAfterItsGate(request: map<string, string>, calls: seq<Call>, n: nat)
    requires n < |History(request, calls).trace| && History(request, calls).trace[n].Acted?
             && History(request, calls).trace[n].demanded
    requires var plan := History(request, calls).plan;
      forall i, j :: 0 <= i < j < |plan| ==> plan[i].id != plan[j].id
    ensures var st := History(request, calls);
      exists k :: 0 <= k < n && st.trace[k].Answered?
                  && st.trace[k].approval.gate.preExecution && st.trace[k].approval.gate.kind == Authorization
                  && st.trace[k].approval.gate.index == st.trace[n].index
                  && !Rejects(st.trace[k].approval.decision)
  {
    var st := History(request, calls);
    assert ActedRight(st, n);
    var id := st.plan[st.trace[n].index].id;
    var k :| 0 <= k < n && Allows(st.trace[k], st.plan, id);
    assert AsksRight(st.trace[k].approval.gate);
  }

  /** Nothing a caller does takes a step, a decision or an authorization back. */
  lemma {:induction false} HistoryLater(request: map<string, string>, calls: seq<Call>, i: nat)
    requires i <= |calls|
    ensures Later(History(request, calls[..i]), History(request, calls))
  {
    hide Later, Good, After;
    if i == |calls| {
      assert calls[..i] == calls;
      LaterSelf(History(request, calls));
    } else {
      var front := calls[..|calls| - 1];
      assert front[..i] == calls[..i];
      HistoryLater(request, front, i);
      CallKeeps(History(request, front), calls[|calls| - 1]);
      LaterThrough(History(request, calls[..i]), History(request, front), History(request, calls));
    }
  }

  // ---------------------------------------------------------------- stranded runs

  /** Waiting for a human, with nothing to answer. */
  ghost predicate Stranded(st: Run) {
    st.status == Waiting && st.gate.None?
  }

  /** The call answers the gate with a plain approval, and applying it fails without opening
      the gate again. */
  ghost predicate Loses(st: Run, c: Call) {
    c.Resume? && Applies(st, c.answer) && c.how == Lost
  }

  lemma {:induction false} LoopedKeepsGate(st: Run, turns: seq<Turn>)
    requires Ready(st) && !Stranded(st)
    ensures !Stranded(Looped(st, turns))
    decreases |turns|
  {
    if st.status == Running && turns != [] {
      LoopedKeepsGate(Examined(Worked(st, turns[0])), turns[1..]);
    }
  }

  /** A stranded run stays as it is whatever is called. */
  lemma CallLosesIff(st: Run, c: Call)
    requires Good(st)
    ensures Stranded(st) ==> After(st, c) == st && !Loses(st, c)
    ensures !Stranded(st) ==> (Stranded(After(st, c)) <==> Loses(st, c))
  {
    if !Stranded(st) {
      match c
      case Go(planning, turns) =>
        PlannedKeeps(st, planning);
        LoopedKeepsGate(Planned(st, planning), turns);
      case Resume(answer, how, planning, turns) =>
        var st1 := Decided(st, answer, how);
        DecidedKeeps(st, answer, how);
        PlannedKeeps(st1, planning);
        if Objection(st, answer).None? && st1.status == Running {
          LoopedKeepsGate(Planned(st1, planning), turns);
        }
    }
  }
}

/** What a finished batch schedule promises. */
module BatchPromises {
  import opened Minutes
  import opened Bundle
  import opened Eligibility
  import opened Placement
  import opened Schedule
  import opened GreedyRuns
  import opened Safety
  import opened Context
  import opened Supply
  import opened BatchFlow

  /** Every operation begins, setup included, after all its predecessors have ended. */
  lemma AfterPredecessors(b: Bundle, asWritten: bool, h: seq<Placed>, i: nat, p: string) returns (j: nat)
    requires ValidBundle(b) && BatchRun(b, asWritten, h) && i < |h|
    requires h[i].line < |b.lines| && h[i].op < |OpsOf(b, h[i].line)| && p in OpsOf(b, h[i].line)[h[i].op].predecessors
    ensures j < i && h[j].line == h[i].line && h[j].sid.opCode == p
    ensures h[j].end <= h[i].PlanStart() && 0 <= h[i].PlanStart()
  {
    BatchRunAt(b, asWritten, h, i);
    BatchRunIsGreedy(b, asWritten, h);
    EveryOperationSound(b, asWritten, h, i);
    var front, x := h[..i], h[i];
    assert DoneAt(front, x.line, p).Some?;
    j := DoneIsEarlier(front, x.line, p);
    var op := OpsOf(b, x.line)[x.op];
    assert h[j].end in Ends(front, x.line, op.predecessors);
    assert h[j].end in BatchBounds(b, front, x.line, op) && 0 in BatchBounds(b, front, x.line, op);
  }

  /** Every operation waits for its supply: no undated shortage concerns it, and it begins at
      or after every dated one. */
  lemma AfterSupply(b: Bundle, asWritten: bool, h: seq<Placed>, i: nat, e: SupplyEntry)
    requires ValidBundle(b) && BatchRun(b, asWritten, h) && i < |h|
    requires e in b.supply && h[i].line < |b.lines| && h[i].op < |OpsOf(b, h[i].line)|
    requires e.lineId == b.lines[h[i].line].lineId
    requires e.opCode.None? || e.opCode.value == "" || e.opCode.value == OpsOf(b, h[i].line)[h[i].op].opCode
    ensures e.ready || (e.readyAt.Some? && e.readyAt.value <= h[i].PlanStart())
  {
    BatchRunAt(b, asWritten, h, i);
    BatchRunIsGreedy(b, asWritten, h);
    EveryOperationSound(b, asWritten, h, i);
    var x := h[i];
    var line, op := b.lines[x.line], OpsOf(b, x.line)[x.op];
    assert !Blocking(e, line.lineId, op.opCode);
    if !e.ready {
      assert DatedEntry(e, line.lineId, op.opCode);
      assert e.readyAt.value in BatchBounds(b, h[..i], x.line, op);
    }
  }

  lemma {:induction false} PredecessorSidsAre(h: seq<Placed>, l: nat, preds: seq<string>, k: nat)
    requires AllDone(h, l, preds) && k < |preds|
    ensures |PredecessorSids(h, l, preds)| == |preds|
    ensures PredecessorSids(h, l, preds)[k] == DoneAt(h, l, preds[k]).value.sid
  {
    assert DoneAt(h, l, preds[0]).Some?;
    var rest := preds[1..];
    assert PredecessorSids(h, l, preds) == [DoneAt(h, l, preds[0]).value.sid] + PredecessorSids(h, l, rest);
    if rest == [] {
      NoPredecessorSids(h, l);
    } else {
      PredecessorSidsAre(h, l, rest, if k > 0 then k - 1 else 0);
    }
  }

  /** The id is that of an operation of the same line under the code, placed before i. */
  ghost predicate NamesBefore(h: seq<Placed>, i: nat, code: string, sid: Sid) {
    exists j :: 0 <= j < i < |h| && h[j].line == h[i].line && h[j].sid.opCode == code && h[j].sid == sid
  }

  /** An operation is reported with the whole quantity of its line, under the line's id and
      product and its own code, number and family, and with the ids of its predecessors, in
      the order the route names them. */
  lemma BatchReports(b: Bundle, asWritten: bool, h: seq<Placed>, i: nat)
    requires ValidBundle(b) && BatchRun(b, asWritten, h) && i < |h|
    ensures h[i].line < |b.lines| && h[i].op < |OpsOf(b, h[i].line)|
    ensures var x, line, op := h[i], b.lines[h[i].line], OpsOf(b, h[i].line)[h[i].op];
      && x.qty == line.qty && x.meta == OpMeta(line.productCode, op.setupFamily)
      && x.sid == Sid(line.lineId, op.opCode, op.sequenceNo, None)
      && |x.predecessors| == |op.predecessors|
      && forall k :: 0 <= k < |op.predecessors| ==> NamesBefore(h, i, op.predecessors[k], x.predecessors[k])
  {
    hide BatchRun, ValidBundle, OpsOf, GreedyStep, BatchBounds, Blocked, PredecessorSids;
    BatchRunAt(b, asWritten, h, i);
    var x, op := h[i], OpsOf(b, h[i].line)[h[i].op];
    if op.predecessors == [] {
      NoPredecessorSids(h[..i], x.line);
    } else {
      PredecessorSidsAre(h[..i], x.line, op.predecessors, 0);
    }
    forall k | 0 <= k < |op.predecessors|
      ensures NamesBefore(h, i, op.predecessors[k], x.predecessors[k])
    {
      PredecessorSidsAre(h[..i], x.line, op.predecessors, k);
      assert DoneAt(h[..i], x.line, op.predecessors[k]).Some?;
      var j := DoneIsEarlier(h[..i], x.line, op.predecessors[k]);
      assert h[j] == h[..i][j];
    }
  }

  lemma NoPredecessorSids(h: seq<Placed>, l: nat)
    ensures PredecessorSids(h, l, []) == []
  {
  }

  /** And it waits for nothing else: the minute it may begin at is the epoch, the end of a
      predecessor, or the date of a supply entry of its line that is for all operations or for
      this one. */
  lemma WaitsForReason(b: Bundle, asWritten: bool, h: seq<Placed>, i: nat)
    requires ValidBundle(b) && BatchRun(b, asWritten, h) && i < |h|
    ensures h[i].line < |b.lines| && h[i].op < |OpsOf(b, h[i].line)|
    ensures var x, op := h[i], OpsOf(b, h[i].line)[h[i].op];
      || x.anchor == 0
      || (exists j :: 0 <= j < i && h[j].line == x.line && h[j].sid.opCode in op.predecessors && x.anchor == h[j].end)
      || DatedFor(b.supply, b.lines[x.line].lineId, op.opCode, x.anchor)
  {
    hide BatchRun, ValidBundle, OpsOf, GreedyStep, Blocked, PredecessorSids;
    BatchRunAt(b, asWritten, h, i);
    var x, op := h[i], OpsOf(b, h[i].line)[h[i].op];
    assert x.anchor in BatchBounds(b, h[..i], x.line, op);
    if x.anchor in Dates(b.supply, b.lines[x.line].lineId, op.opCode) {
      DatesIff(b.supply, b.lines[x.line].lineId, op.opCode, x.anchor);
    } else if x.anchor != 0 {
      assert x.anchor in Ends(h[..i], x.line, op.predecessors);
      var p :| p in op.predecessors && DoneAt(h[..i], x.line, p).Some?
        && DoneAt(h[..i], x.line, p).value.end == x.anchor;
      var j := DoneIsEarlier(h[..i], x.line, p);
      assert h[j] == h[..i][j];
    }
  }

  /** In a complete schedule no resource is ever overbooked and all work keeps to the
      calendars. */
  lemma ScheduleNeverOverbooked(b: Bundle, asWritten: bool, r: Outcome, key: Key, m: int)
    requires ValidBundle(b) && SafeCalendars(b, asWritten)
    requires r.Scheduled? && ScheduleRight(b, asWritten, r)
    ensures WithinCapacity(b, key, WorkCount(b, asWritten, r.operations, key, m))
    ensures forall i :: 0 <= i < |r.operations| && WorksAt(b, asWritten, r.operations[..i], r.operations[i], key, m) ==>
              m in WindowSet(b, key) && m !in UaSet(b, key)
  {
    BatchRunIsGreedy(b, asWritten, r.operations);
    NeverOverbooked(b, asWritten, r.operations, key, m);
    forall i | 0 <= i < |r.operations| && WorksAt(b, asWritten, r.operations[..i], r.operations[i], key, m)
      ensures m in WindowSet(b, key) && m !in UaSet(b, key)
    {
      WorkInsideCalendar(b, asWritten, r.operations, i, key, m);
    }
  }

  /** NO_FEASIBLE_WINDOW is honest: no combination that fits the operation has room for it. */
  lemma NoWindowMeansNone(v: View, job: Job, c: Combo)
    requires NoneFeasible(v, job) && ComboFits(v.b, job.op, c) && ValidJob(job) && ValidCombo(c)
    requires ProcessingMinutes(job.op, job.qty, c.equipment).Some?
    ensures !HasRoom(RoomFor(v, c), job.anchor, SetupFor(v.b, v.booked, job.op, job.meta, c),
                     ProcessingMinutes(job.op, job.qty, c.equipment).value)
  {
    CombosAreFitting(v.b, job.op, c);
    assert Candidate(v, job, c, None);
    ProcessingMinutesAreLeast(job.op, job.qty, c.equipment);
    hide HasRoom, ProcessingMinutes, SetupFor;
    PlacementComplete(RoomFor(v, c), job.anchor, SetupFor(v.b, v.booked, job.op, job.meta, c),
                      ProcessingMinutes(job.op, job.qty, c.equipment).value, None);
  }

  /** Nothing is blocked without cause: behind every blocked operation stands an operation of
      the same order line id whose supply is missing and undated. */
  lemma {:induction false} BlockedHasCause(b: Bundle, blocks: seq<Block>, n: nat) returns (m: nat)
    requires ValidBundle(b) && BlocksOk(b, blocks) && n < |blocks|
    ensures m <= n && blocks[m].lineId == blocks[n].lineId
    ensures MissingFor(b.supply, blocks[m].lineId, blocks[m].opCode)
  {
    assert BlockOk(b, blocks, n);
    m := n;
    if blocks[n].reason == PredecessorBlocked {
      var k :| 0 <= k < n && blocks[k].lineId == blocks[n].lineId;
      m := BlockedHasCause(b, blocks, k);
    } else {
      BlockedIff(b.supply, blocks[n].lineId, blocks[n].opCode);
    }
  }

  /** With complete supply nothing is blocked, so every operation of every line is scheduled,
      in route order. */
  lemma FullSupplySchedulesAll(b: Bundle, asWritten: bool, r: Outcome, l: nat)
    requires ValidBundle(b) && r.Scheduled? && ScheduleRight(b, asWritten, r) && l < |b.lines|
    requires forall e :: e in b.supply ==> e.ready || e.readyAt.Some?
    ensures ScheduledOf(r.operations, l) == Range(0, |OpsOf(b, l)|)
  {
    if r.blocks != [] {
      var m := BlockedHasCause(b, r.blocks, 0);
    }
    assert r.blocks == [];
  }

  /** A route whose operations name only earlier ones as predecessors. */
  ghost predicate WellOrdered(b: Bundle)
  {
    forall l, i :: 0 <= l < |b.lines| && 0 <= i < |OpsOf(b, l)| ==> !IllOrdered(b, l, i)
  }

  lemma PrefixOfRange(xs: seq<nat>, ys: seq<nat>, n: nat)
    requires xs + ys == Range(0, n)
    ensures xs == Range(0, |xs|) && forall i :: 0 <= i < |ys| ==> ys[i] == |xs| + i
  {
    forall i | 0 <= i < |xs|
      ensures xs[i] == i
    {
      assert (xs + ys)[i] == xs[i];
    }
    forall i | 0 <= i < |ys|
      ensures ys[i] == |xs| + i
    {
      assert (xs + ys)[|xs| + i] == ys[i];
    }
  }

  lemma {:induction false} FirstAtOp(h: seq<Placed>, l: nat, i: nat) returns (n: nat)
    requires i < |ScheduledOf(h, l)| && ScheduledOf(h, l)[i] == i
    ensures n < |h| && h[n].line == l && h[n].op == i && |ScheduledOf(h[..n], l)| == i
    ensures ScheduledOf(h[..n], l) == ScheduledOf(h, l)[..i]
  {
    var front := h[..|h| - 1];
    if i < |ScheduledOf(front, l)| {
      n := FirstAtOp(front, l, i);
      assert front[..n] == h[..n];
    } else {
      n := |h| - 1;
    }
  }

  lemma PlacedCode(b: Bundle, asWritten: bool, h: seq<Placed>, j: nat)
    requires ValidBundle(b) && BatchRun(b, asWritten, h) && j < |h|
    ensures h[j].line < |b.lines| && h[j].op < |OpsOf(b, h[j].line)|
    ensures h[j].sid.opCode == OpsOf(b, h[j].line)[h[j].op].opCode
    ensures AllDone(h[..j], h[j].line, OpsOf(b, h[j].line)[h[j].op].predecessors)
  {
    BatchRunAt(b, asWritten, h, j);
  }

  /** The predecessors of a scheduled operation are earlier in its route. */
  lemma PredecessorEarlier(b: Bundle, asWritten: bool, h: seq<Placed>, l: nat, i: nat, cut: nat, p: string)
    returns (k: nat)
    requires ValidBundle(b) && BatchRun(b, asWritten, h) && l < |b.lines| && i < cut <= |OpsOf(b, l)|
    requires ScheduledOf(h, l) == Range(0, cut) && p in OpsOf(b, l)[i].predecessors
    ensures k < i && OpsOf(b, l)[k].opCode == p
  {
    hide BatchRun, ValidBundle, OpsOf;
    var n := FirstAtOp(h, l, i);
    PlacedCode(b, asWritten, h, n);
    assert DoneAt(h[..n], l, p).Some?;
    var j := DoneIsEarlier(h[..n], l, p);
    PlacedCode(b, asWritten, h, j);
    ScheduledHas(h[..n], l, j);
    k := h[j].op;
  }

  /** An operation that its route places before one of its predecessors is never scheduled:
      a complete schedule has it blocked. */
  lemma IllOrderedNeverScheduled(b: Bundle, asWritten: bool, r: Outcome, l: nat, i: nat)
    requires ValidBundle(b) && r.Scheduled? && ScheduleRight(b, asWritten, r)
    requires l < |b.lines| && i < |OpsOf(b, l)| && IllOrdered(b, l, i)
    ensures i !in ScheduledOf(r.operations, l) && i in BlockedOf(r.blocks, l)
  {
    var xs, ys := ScheduledOf(r.operations, l), BlockedOf(r.blocks, l);
    assert xs + ys == Range(0, |OpsOf(b, l)|);
    PrefixOfRange(xs, ys, |OpsOf(b, l)|);
    hide ValidBundle, OpsOf, ScheduledOf, BlockedOf, BatchRun;
    if i < |xs| {
      var p :| p in OpsOf(b, l)[i].predecessors && forall k :: 0 <= k < i ==> OpsOf(b, l)[k].opCode != p;
      var k := PredecessorEarlier(b, asWritten, r.operations, l, i, |xs|, p);
    }
    assert |xs| <= i;
    assert ys[i - |xs|] == i;
  }

  /** The order of the routes decides how the driver can end: SCHEDULE_STUCK is out of reach
      when every predecessor is earlier in its own route, and with complete supply a schedule
      is out of reach when some predecessor is not. */
  lemma EndsByRouteOrder(b: Bundle, asWritten: bool, r: Outcome, run: seq<Placed>)
    requires ValidBundle(b)
    requires r.Scheduled? ==> ScheduleRight(b, asWritten, r)
    requires r.Failed? ==> FailureRight(b, asWritten, run, r.error)
    ensures r.Failed? && r.error.ScheduleStuck? ==> !WellOrdered(b)
    ensures r.Scheduled? && (forall e :: e in b.supply ==> e.ready || e.readyAt.Some?) ==> WellOrdered(b)
  {
    if r.Scheduled? && forall e :: e in b.supply ==> e.ready || e.readyAt.Some? {
      hide ValidBundle, OpsOf, ScheduleRight, ScheduledOf, IllOrdered;
      forall l, i | 0 <= l < |b.lines| && 0 <= i < |OpsOf(b, l)|
        ensures !IllOrdered(b, l, i)
      {
        FullSupplySchedulesAll(b, asWritten, r, l);
        assert Range(0, |OpsOf(b, l)|)[i] == i;
        if IllOrdered(b, l, i) {
          IllOrderedNeverScheduled(b, asWritten, r, l, i);
        }
      }
    }
  }
}

/** The schedule is determined by the bundle: whatever finished schedules there are, they hold
    the same operations in the same order at the same times. */
module Determined {
  import opened Minutes
  import opened Bundle
  import opened Eligibility
  import opened Placement
  import opened Schedule
  import opened GreedyRuns
  import opened Supply
  import opened TransferBatches
  import opened BatchFlow
  import opened BatchPromises
  import opened StreamingFlow
  import opened StreamPromises

  // ------------------------------------------------------------- one placement

  /** The choice for a job leaves nothing open. */
  lemma ChosenUnique(v: View, job: Job, x: Placed, y: Placed)
    requires Chosen(v, job, x) && Chosen(v, job, y)
    ensures x.combo == y.combo && x.setup == y.setup && x.processing == y.processing && x.start == y.start
            && x.end == y.end
  {
    hide SetupFor, ProcessingMinutes, Combos, RoomFor, PlacementIn;
    var combos := Combos(v.b, job.op).value;
    var k :| 0 <= k < |combos| && combos[k] == x.combo
      && BestOf(v, job, combos, |combos|, Some(Pick(k, x.start, x.end)));
    var n :| 0 <= n < |combos| && combos[n] == y.combo
      && BestOf(v, job, combos, |combos|, Some(Pick(n, y.start, y.end)));
    NotOutdone(v, job, combos, k, x.start, x.end, n, y.start, y.end);
    NotOutdone(v, job, combos, n, y.start, y.end, k, x.start, x.end);
    CandidateUnique(v, job, combos[k], Some((x.start, x.end)), Some((y.start, y.end)));
  }

  lemma NotOutdone(v: View, job: Job, combos: seq<Combo>, k: nat, s: int, e: int, n: nat, s': int, e': int)
    requires k < |combos| && n < |combos|
    requires BestOf(v, job, combos, |combos|, Some(Pick(k, s, e)))
             && BestOf(v, job, combos, |combos|, Some(Pick(n, s', e')))
    ensures s < s' || (s == s' && k <= n)
  {
    hide Candidate;
    var p := Pick(k, s, e);
    assert Outdone(v, job, combos[n], n, p);
    var r :| Candidate(v, job, combos[n], r) && (r.Some? ==> s < r.value.0 || (s == r.value.0 && k <= n));
    CandidateUnique(v, job, combos[n], r, Some((s', e')));
  }

  lemma CandidateUnique(v: View, job: Job, c: Combo, r: Option<(int, int)>, r': Option<(int, int)>)
    requires Candidate(v, job, c, r) && Candidate(v, job, c, r')
    ensures r == r'
  {
    ProcessingMinutesAreLeast(job.op, job.qty, c.equipment);
    hide PlacementIn, SetupFor, ProcessingMinutes, RoomFor;
    PlacementUnique(RoomFor(v, c), job.anchor, SetupFor(v.b, v.booked, job.op, job.meta, c),
                    ProcessingMinutes(job.op, job.qty, c.equipment).value, r, r');
  }

  lemma GreedyUnique(b: Bundle, asWritten: bool, h: seq<Placed>, x: Placed, y: Placed)
    requires GreedyStep(b, asWritten, h, x) && GreedyStep(b, asWritten, h, y)
    requires x.line == y.line && x.op == y.op && x.meta == y.meta && x.qty == y.qty && x.anchor == y.anchor
    ensures x.combo == y.combo && x.setup == y.setup && x.processing == y.processing && x.start == y.start
            && x.end == y.end
  {
    hide Chosen, OpsOf;
    ChosenUnique(ViewAfter(b, asWritten, h), Job(OpsOf(b, x.line)[x.op], x.meta, x.qty, x.anchor), x, y);
  }

  // ------------------------------------------------------------------- order

  /** Where an operation stands in the order of turns. */
  datatype Turn = Turn(a: nat, b: nat, c: nat)

  ghost predicate Sooner(s: Turn, t: Turn) {
    s.a < t.a || (s.a == t.a && (s.b < t.b || (s.b == t.b && s.c < t.c)))
  }

  ghost predicate Ascending(ts: seq<Turn>) {
    forall i, j :: 0 <= i < j < |ts| ==> Sooner(ts[i], ts[j])
  }

  lemma FirstIsFirst(ts: seq<Turn>, us: seq<Turn>)
    requires Ascending(ts) && Ascending(us) && ts != [] && us != [] && ts[0] in us && us[0] in ts
    ensures ts[0] == us[0]
  {
    var i :| 0 <= i < |us| && us[i] == ts[0];
    var j :| 0 <= j < |ts| && ts[j] == us[0];
  }

  /** The same turns in order are the same sequence. */
  lemma {:induction false} SameTurns(ts: seq<Turn>, us: seq<Turn>)
    requires Ascending(ts) && Ascending(us) && forall t :: t in ts <==> t in us
    ensures ts == us
  {
    assert |us| > 0 ==> us[0] in us;
    if ts != [] {
      assert ts[0] in us;
      FirstIsFirst(ts, us);
      forall t
        ensures t in ts[1..] <==> t in us[1..]
      {
        NotTwice(ts, t);
        NotTwice(us, t);
      }
      SameTurns(ts[1..], us[1..]);
      assert ts == [ts[0]] + ts[1..] && us == [us[0]] + us[1..];
    }
  }

  lemma NotTwice(ts: seq<Turn>, t: Turn)
    requires Ascending(ts) && ts != []
    ensures t in ts[1..] <==> t in ts && t != ts[0]
  {
  }

  // ------------------------------------------------------------- the batch driver

  function BatchTurns(h: seq<Placed>): seq<Turn> {
    seq(|h|, i requires 0 <= i < |h| => Turn(h[i].op, h[i].line, 0))
  }

  lemma BatchStepUnique(b: Bundle, asWritten: bool, h: seq<Placed>, x: Placed, y: Placed)
    requires GreedyStep(b, asWritten, h, x) && BatchStep(b, h, x) && GreedyStep(b, asWritten, h, y)
             && BatchStep(b, h, y)
    requires x.line == y.line && x.op == y.op
    ensures x == y
  {
    hide GreedyStep, BatchBounds, AllDone, Blocked, PredecessorSids, OpsOf;
    GreedyUnique(b, asWritten, h, x, y);
  }

  lemma NextSame(b: Bundle, asWritten: bool, h: seq<Placed>, h': seq<Placed>, n: nat)
    requires ValidBundle(b) && BatchRun(b, asWritten, h) && BatchRun(b, asWritten, h')
    requires n < |h| == |h'| && h[..n] == h'[..n] && h[n].line == h'[n].line && h[n].op == h'[n].op
    ensures h[n] == h'[n]
  {
    hide GreedyStep, BatchStep, BatchRun, ValidBundle;
    BatchRunAt(b, asWritten, h, n);
    BatchRunAt(b, asWritten, h', n);
    BatchStepUnique(b, asWritten, h[..n], h[n], h'[n]);
  }

  /** The order of the operations fixes a batch run. */
  lemma {:induction false} BatchTurnsFix(b: Bundle, asWritten: bool, h: seq<Placed>, h': seq<Placed>, n: nat)
    requires ValidBundle(b) && BatchRun(b, asWritten, h) && BatchRun(b, asWritten, h')
    requires n <= |h| == |h'| && forall i :: 0 <= i < |h| ==> h[i].line == h'[i].line && h[i].op == h'[i].op
    ensures h[..n] == h'[..n]
  {
    hide BatchRun, ValidBundle;
    if n > 0 {
      BatchTurnsFix(b, asWritten, h, h', n - 1);
      NextSame(b, asWritten, h, h', n - 1);
      OneMoreSame(h, h', n - 1);
    }
  }

  lemma OneMoreSame(h: seq<Placed>, h': seq<Placed>, n: nat)
    requires n < |h| == |h'| && h[..n] == h'[..n] && h[n] == h'[n]
    ensures h[..n + 1] == h'[..n + 1]
  {
    assert h[..n + 1] == h[..n] + [h[n]] && h'[..n + 1] == h'[..n] + [h'[n]];
  }

  lemma SameBatchTurns(h: seq<Placed>, h': seq<Placed>)
    requires BatchTurns(h) == BatchTurns(h')
    ensures |h| == |h'| && forall i :: 0 <= i < |h| ==> h[i].line == h'[i].line && h[i].op == h'[i].op
  {
    assert |BatchTurns(h)| == |h| && |BatchTurns(h')| == |h'|;
    forall i | 0 <= i < |h|
      ensures h[i].line == h'[i].line && h[i].op == h'[i].op
    {
      assert BatchTurns(h)[i] == BatchTurns(h')[i];
    }
  }

  lemma BlockedNeverScheduled(b: Bundle, asWritten: bool, h: seq<Placed>, l: nat, i: nat)
    requires ValidBundle(b) && BatchRun(b, asWritten, h) && l < |b.lines| && i < |OpsOf(b, l)|
    requires Blocked(b.supply, b.lines[l].lineId, OpsOf(b, l)[i].opCode)
    ensures i !in ScheduledOf(h, l)
  {
    hide BatchRun, ValidBundle, OpsOf, Blocked;
    if i in ScheduledOf(h, l) {
      ScheduledMember(h, l, i);
      var n :| 0 <= n < |h| && h[n].line == l && h[n].op == i;
      BatchRunAt(b, asWritten, h, n);
    }
  }

  lemma NeverPastStop(b: Bundle, asWritten: bool, r: Outcome, l: nat, i: nat)
    requires ValidBundle(b) && r.Scheduled? && ScheduleRight(b, asWritten, r)
    requires l < |b.lines| && i < |OpsOf(b, l)| && Stops(b, l, i)
    ensures i !in ScheduledOf(r.operations, l)
  {
    hide ValidBundle, OpsOf, BatchRun, Blocked, IllOrdered;
    if IllOrdered(b, l, i) {
      IllOrderedNeverScheduled(b, asWritten, r, l, i);
    } else {
      BlockedNeverScheduled(b, asWritten, r.operations, l, i);
    }
  }

  lemma ScheduledPrefix(b: Bundle, asWritten: bool, r: Outcome, l: nat)
    requires ValidBundle(b) && r.Scheduled? && ScheduleRight(b, asWritten, r) && l < |b.lines|
    ensures var c := |ScheduledOf(r.operations, l)|;
      c <= |OpsOf(b, l)| && ScheduledOf(r.operations, l) == Range(0, c) && (c < |OpsOf(b, l)| ==> Stops(b, l, c))
  {
    hide ValidBundle, OpsOf, BatchRun, Stops, RoundRobin;
    var xs, ys := ScheduledOf(r.operations, l), BlockedOf(r.blocks, l);
    assert xs + ys == Range(0, |OpsOf(b, l)|);
    PrefixOfRange(xs, ys, |OpsOf(b, l)|);
    assert |xs| + |ys| == |OpsOf(b, l)|;
  }

  /** A line schedules exactly the operations before the first whose supply is missing or that
      its route places before one of its predecessors. */
  lemma ScheduledIff(b: Bundle, asWritten: bool, r: Outcome, l: nat, i: nat)
    requires ValidBundle(b) && r.Scheduled? && ScheduleRight(b, asWritten, r) && l < |b.lines| && i < |OpsOf(b, l)|
    ensures i in ScheduledOf(r.operations, l) <==> forall k :: 0 <= k <= i ==> !Stops(b, l, k)
  {
    hide ValidBundle, OpsOf, ScheduleRight, Stops, ScheduledOf;
    ScheduledPrefix(b, asWritten, r, l);
    var c := |ScheduledOf(r.operations, l)|;
    if i < c {
      assert ScheduledOf(r.operations, l)[i] == i;
      forall k | 0 <= k <= i
        ensures !Stops(b, l, k)
      {
        assert ScheduledOf(r.operations, l)[k] == k;
        if Stops(b, l, k) {
          NeverPastStop(b, asWritten, r, l, k);
        }
      }
    }
  }

  // ------------------------------------------------------------- how the driver ends

  lemma RunNeverPastStop(b: Bundle, asWritten: bool, h: seq<Placed>, l: nat, cut: nat, k: nat)
    requires ValidBundle(b) && BatchRun(b, asWritten, h) && l < |b.lines| && k < cut <= |OpsOf(b, l)|
    requires ScheduledOf(h, l) == Range(0, cut)
    ensures !Stops(b, l, k)
  {
    hide ValidBundle, OpsOf, BatchRun, Blocked, ScheduledOf;
    assert ScheduledOf(h, l)[k] == k;
    if Blocked(b.supply, b.lines[l].lineId, OpsOf(b, l)[k].opCode) {
      BlockedNeverScheduled(b, asWritten, h, l, k);
    }
    if IllOrdered(b, l, k) {
      var p :| p in OpsOf(b, l)[k].predecessors && forall j :: 0 <= j < k ==> OpsOf(b, l)[j].opCode != p;
      var j := PredecessorEarlier(b, asWritten, h, l, k, cut, p);
    }
  }

  /** The first operation that line l cannot pass is one its route places before one of its
      predecessors. */
  ghost predicate StuckLine(b: Bundle, l: nat, i: nat) {
    && l < |b.lines| && i < |OpsOf(b, l)| && IllOrdered(b, l, i)
    && forall k :: 0 <= k < i ==> !Stops(b, l, k)
  }

  ghost predicate DistinctLines(b: Bundle) {
    forall i, j :: 0 <= i < j < |b.lines| ==> b.lines[i].lineId != b.lines[j].lineId
  }

  lemma {:induction false} FirstBlocked(blocks: seq<Block>, l: nat) returns (n: nat)
    requires BlockedOf(blocks, l) != []
    ensures n < |blocks| && blocks[n].line == l && blocks[n].op == BlockedOf(blocks, l)[0]
    ensures forall m :: 0 <= m < n ==> blocks[m].line != l
  {
    var front := blocks[..|blocks| - 1];
    if BlockedOf(front, l) != [] {
      n := FirstBlocked(front, l);
    } else {
      n := |front|;
      forall m | 0 <= m < n
        ensures blocks[m].line != l
      {
        if blocks[m].line == l {
          BlockedHas(front, l, m);
        }
      }
    }
  }

  lemma {:induction false} BlockedHas(blocks: seq<Block>, l: nat, m: nat)
    requires m < |blocks| && blocks[m].line == l
    ensures BlockedOf(blocks, l) != []
  {
    if m < |blocks| - 1 {
      BlockedHas(blocks[..|blocks| - 1], l, m);
    }
  }

  lemma OtherLine(b: Bundle, blocks: seq<Block>, m: nat, n: nat)
    requires DistinctLines(b) && BlocksOk(b, blocks) && m < n < |blocks| && blocks[m].line != blocks[n].line
    ensures blocks[m].lineId != blocks[n].lineId
  {
    assert BlockOk(b, blocks, m) && BlockOk(b, blocks, n);
  }

  /** With distinct line ids a line is first blocked where its supply is missing and its
      predecessors are done. */
  lemma FirstBlockOrdered(b: Bundle, blocks: seq<Block>, l: nat)
    requires ValidBundle(b) && DistinctLines(b) && BlocksOk(b, blocks) && BlockedOf(blocks, l) != []
    ensures l < |b.lines| && BlockedOf(blocks, l)[0] < |OpsOf(b, l)| && !IllOrdered(b, l, BlockedOf(blocks, l)[0])
  {
    hide ValidBundle, OpsOf, IllOrdered, Blocked, BlockedOf;
    var n := FirstBlocked(blocks, l);
    assert BlockOk(b, blocks, n);
    forall m | 0 <= m < n
      ensures blocks[m].lineId != blocks[n].lineId
    {
      OtherLine(b, blocks, m, n);
    }
  }

  lemma StuckLineFails(b: Bundle, asWritten: bool, r: Outcome, l: nat, i: nat)
    requires ValidBundle(b) && DistinctLines(b) && StuckLine(b, l, i) && r.Scheduled?
    ensures !ScheduleRight(b, asWritten, r)
  {
    hide ValidBundle, OpsOf, IllOrdered, Blocked, BlockedOf, BatchRun, RoundRobin, ScheduledOf, DistinctLines;
    if ScheduleRight(b, asWritten, r) {
      var xs, ys := ScheduledOf(r.operations, l), BlockedOf(r.blocks, l);
      ScheduledPrefix(b, asWritten, r, l);
      assert xs + ys == Range(0, |OpsOf(b, l)|);
      if i < |xs| {
        RunNeverPastStop(b, asWritten, r.operations, l, |xs|, i);
      }
      assert |xs| == i;
      PrefixOfRange(xs, ys, |OpsOf(b, l)|);
      FirstBlockOrdered(b, r.blocks, l);
    }
  }

  /** If no operation fails for want of a resource, a yield rate or a window, the driver ends
      in SCHEDULE_STUCK only when some line is stuck; and, with distinct line ids, exactly
      then. */
  lemma StuckIff(b: Bundle, asWritten: bool, r: Outcome, run: seq<Placed>)
    requires ValidBundle(b)
    requires r.Scheduled? ==> ScheduleRight(b, asWritten, r)
    requires r.Failed? ==> r.error.ScheduleStuck? && FailureRight(b, asWritten, run, r.error)
    ensures r.Failed? ==> exists l: nat, i: nat :: StuckLine(b, l, i)
    ensures DistinctLines(b) ==> (r.Failed? <==> exists l: nat, i: nat :: StuckLine(b, l, i))
  {
    hide ValidBundle, OpsOf, ScheduleRight, IllOrdered, Stops, BatchRun, DistinctLines;
    if r.Failed? {
      var l, i := r.error.line, r.error.op;
      forall k | 0 <= k < i
        ensures !Stops(b, l, k)
      {
        RunNeverPastStop(b, asWritten, run, l, i, k);
      }
      assert StuckLine(b, l, i);
    } else if DistinctLines(b) {
      if l: nat, i: nat :| StuckLine(b, l, i) {
        StuckLineFails(b, asWritten, r, l, i);
      }
    }
  }

  lemma BatchTurnIff(b: Bundle, asWritten: bool, r: Outcome, t: Turn)
    requires ValidBundle(b) && r.Scheduled? && ScheduleRight(b, asWritten, r)
    ensures t in BatchTurns(r.operations)
            <==> t.c == 0 && t.b < |b.lines| && t.a < |OpsOf(b, t.b)| && forall k :: 0 <= k <= t.a ==> !Stops(b, t.b, k)
  {
    hide ValidBundle, OpsOf, ScheduledOf, Stops, BatchRun, RoundRobin, Partitioned, StopsRight, BlocksOk;
    var h := r.operations;
    if t in BatchTurns(h) {
      var i :| 0 <= i < |h| && BatchTurns(h)[i] == t;
      PlacedCode(b, asWritten, h, i);
      ScheduledHas(h, t.b, i);
      ScheduledIff(b, asWritten, r, t.b, t.a);
    }
    if t.c == 0 && t.b < |b.lines| && t.a < |OpsOf(b, t.b)| {
      ScheduledIff(b, asWritten, r, t.b, t.a);
      if t.a in ScheduledOf(h, t.b) {
        ScheduledMember(h, t.b, t.a);
        var i :| 0 <= i < |h| && h[i].line == t.b && h[i].op == t.a;
        assert BatchTurns(h)[i] == t;
      }
    }
  }

  lemma BatchTurnsAscend(h: seq<Placed>)
    requires RoundRobin(h)
    ensures Ascending(BatchTurns(h))
  {
  }

  /** A bundle has one batch schedule. */
  lemma BatchDetermined(b: Bundle, asWritten: bool, r: Outcome, r': Outcome)
    requires ValidBundle(b) && r.Scheduled? && ScheduleRight(b, asWritten, r)
    requires r'.Scheduled? && ScheduleRight(b, asWritten, r')
    ensures r.operations == r'.operations && r.intervals == r'.intervals
  {
    hide ValidBundle, OpsOf, Stops, BatchRun, Partitioned, StopsRight, BlocksOk, RoundRobin, BatchTurns, Ascending;
    var h, h' := r.operations, r'.operations;
    BatchTurnsAscend(h);
    BatchTurnsAscend(h');
    forall t
      ensures t in BatchTurns(h) <==> t in BatchTurns(h')
    {
      BatchTurnIff(b, asWritten, r, t);
      BatchTurnIff(b, asWritten, r', t);
    }
    SameTurns(BatchTurns(h), BatchTurns(h'));
    SameBatchTurns(h, h');
    BatchTurnsFix(b, asWritten, h, h', |h|);
    assert h[..|h|] == h && h'[..|h'|] == h';
  }

  // --------------------------------------------------------- the streaming driver

  ghost predicate HasBatches(h: seq<Placed>) {
    forall i :: 0 <= i < |h| ==> h[i].sid.batch.Some? && h[i].sid.batch.value >= 1
  }

  ghost function StreamTurns(h: seq<Placed>): seq<Turn>
    requires HasBatches(h)
  {
    seq(|h|, i requires 0 <= i < |h| => Turn(h[i].line, h[i].sid.batch.value - 1, h[i].op))
  }

  lemma StreamStepUnique(b: Bundle, asWritten: bool, h: seq<Placed>, x: Placed, y: Placed)
    requires GreedyStep(b, asWritten, h, x) && StreamStep(b, h, x) && GreedyStep(b, asWritten, h, y)
             && StreamStep(b, h, y)
    requires x.line == y.line && x.op == y.op && x.sid.batch == y.sid.batch
    ensures x == y
  {
    hide GreedyStep, StreamBounds, Blocked, StreamPredecessors, OpsOf, SizeOf, CountOf, BatchQty;
    GreedyUnique(b, asWritten, h, x, y);
  }

  lemma RunHasBatches(b: Bundle, asWritten: bool, h: seq<Placed>)
    requires ValidBundle(b) && StreamRun(b, asWritten, h)
    ensures HasBatches(h)
  {
    hide StreamRun, ValidBundle, OpsOf, OperationBlocked;
    forall i | 0 <= i < |h|
      ensures h[i].sid.batch.Some? && h[i].sid.batch.value >= 1
    {
      StepPair(b, asWritten, h, i);
    }
  }

  lemma NextStreamSame(b: Bundle, asWritten: bool, h: seq<Placed>, h': seq<Placed>, n: nat)
    requires ValidBundle(b) && StreamRun(b, asWritten, h) && StreamRun(b, asWritten, h')
    requires n < |h| == |h'| && h[..n] == h'[..n]
    requires h[n].line == h'[n].line && h[n].op == h'[n].op && h[n].sid.batch == h'[n].sid.batch
    ensures h[n] == h'[n]
  {
    hide GreedyStep, StreamStep, StreamRun, ValidBundle;
    StreamRunAt(b, asWritten, h, n);
    StreamRunAt(b, asWritten, h', n);
    StreamStepUnique(b, asWritten, h[..n], h[n], h'[n]);
  }

  ghost predicate SameOrder(h: seq<Placed>, h': seq<Placed>) {
    |h| == |h'| && forall i :: 0 <= i < |h| ==>
      h[i].line == h'[i].line && h[i].op == h'[i].op && h[i].sid.batch == h'[i].sid.batch
  }

  /** The order of the batches fixes a streaming run. */
  lemma {:induction false} StreamTurnsFix(b: Bundle, asWritten: bool, h: seq<Placed>, h': seq<Placed>, n: nat)
    requires ValidBundle(b) && StreamRun(b, asWritten, h) && StreamRun(b, asWritten, h')
    requires SameOrder(h, h') && n <= |h|
    ensures h[..n] == h'[..n]
  {
    hide StreamRun, ValidBundle;
    if n > 0 {
      StreamTurnsFix(b, asWritten, h, h', n - 1);
      NextStreamSame(b, asWritten, h, h', n - 1);
      OneMoreSame(h, h', n - 1);
    }
  }

  lemma SameStreamTurns(h: seq<Placed>, h': seq<Placed>)
    requires HasBatches(h) && HasBatches(h') && StreamTurns(h) == StreamTurns(h')
    ensures SameOrder(h, h')
  {
    assert |StreamTurns(h)| == |h| && |StreamTurns(h')| == |h'|;
    forall i | 0 <= i < |h|
      ensures h[i].line == h'[i].line && h[i].op == h'[i].op && h[i].sid.batch == h'[i].sid.batch
    {
      assert StreamTurns(h)[i] == StreamTurns(h')[i];
    }
  }

  lemma StreamTurnsAscend(b: Bundle, asWritten: bool, r: Outcome)
    requires ValidBundle(b) && r.Scheduled? && StreamScheduleRight(b, asWritten, r) && HasBatches(r.operations)
    ensures Ascending(StreamTurns(r.operations))
  {
    hide ValidBundle, StreamRun, LineComplete;
    var h := r.operations;
    forall i, j | 0 <= i < j < |h|
      ensures Sooner(StreamTurns(h)[i], StreamTurns(h)[j])
    {
      if h[i].line == h[j].line {
        EarlierPair(b, asWritten, r, i, j);
      }
    }
  }

  lemma {:induction false} PairOf(h: seq<Placed>, i: nat)
    requires HasBatches(h) && i < |h|
    ensures (h[i].sid.batch.value - 1, h[i].op) in ScheduledPairs(h, h[i].line)
  {
    if i < |h| - 1 {
      PairOf(h[..|h| - 1], i);
    }
  }

  lemma StreamTurnIff(b: Bundle, asWritten: bool, r: Outcome, t: Turn)
    requires ValidBundle(b) && r.Scheduled? && StreamScheduleRight(b, asWritten, r) && HasBatches(r.operations)
    ensures t in StreamTurns(r.operations)
            <==> t.a < |b.lines| && SizeOf(b, t.a) >= 1 && (t.b, t.c) in Pairs(b, t.a, CountOf(b, t.a), 0, false)
  {
    hide ValidBundle, OpsOf, StreamRun, ScheduledPairs, Pairs, OperationBlocked, SizeOf, CountOf, LineComplete;
    var h := r.operations;
    if t in StreamTurns(h) {
      var i :| 0 <= i < |h| && StreamTurns(h)[i] == t;
      ScheduleRuns(b, asWritten, r);
      StepPair(b, asWritten, h, i);
      PairOf(h, i);
      LineOf(b, asWritten, r, t.a);
    }
    if t.a < |b.lines| {
      LineOf(b, asWritten, r, t.a);
      if (t.b, t.c) in ScheduledPairs(h, t.a) {
        var i := PairScheduled(h, t.a, (t.b, t.c));
        assert StreamTurns(h)[i] == t;
      }
    }
  }

  /** A bundle has one streaming schedule. */
  lemma StreamDetermined(b: Bundle, asWritten: bool, r: Outcome, r': Outcome)
    requires ValidBundle(b) && r.Scheduled? && StreamScheduleRight(b, asWritten, r)
    requires r'.Scheduled? && StreamScheduleRight(b, asWritten, r')
    ensures r.operations == r'.operations && r.intervals == r'.intervals
  {
    hide ValidBundle, OpsOf, StreamRun, Pairs, SizeOf, CountOf, LineComplete, LinesInOrder, HasBatches;
    var h, h' := r.operations, r'.operations;
    RunHasBatches(b, asWritten, h);
    RunHasBatches(b, asWritten, h');
    StreamTurnsAscend(b, asWritten, r);
    StreamTurnsAscend(b, asWritten, r');
    forall t
      ensures t in StreamTurns(h) <==> t in StreamTurns(h')
    {
      StreamTurnIff(b, asWritten, r, t);
      StreamTurnIff(b, asWritten, r', t);
    }
    SameTurns(StreamTurns(h), StreamTurns(h'));
    SameStreamTurns(h, h');
    StreamTurnsFix(b, asWritten, h, h', |h|);
    assert h[..|h|] == h && h'[..|h'|] == h';
  }
}

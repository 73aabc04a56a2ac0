/** What a finished streaming schedule promises. */
module StreamPromises {
  import opened Minutes
  import opened Bundle
  import opened ScheduleIds
  import opened Eligibility
  import opened Placement
  import opened Supply
  import opened Schedule
  import opened GreedyRuns
  import opened Safety
  import opened TransferBatches
  import opened BatchFlow
  import opened StreamingFlow

  /** What the ids of all batches of operation i of line l begin with. */
  function StemOf(b: Bundle, l: nat, i: nat): string
    requires l < |b.lines| && i < |OpsOf(b, l)|
  {
    Stem(b.lines[l].lineId, OpsOf(b, l)[i].opCode, OpsOf(b, l)[i].sequenceNo)
  }

  ghost predicate ClashAt(b: Bundle, l: nat, i: nat, l': nat, i': nat) {
    && l < |b.lines| && i < |OpsOf(b, l)| && !OperationBlocked(b, l, i)
    && l' < |b.lines| && i' < |OpsOf(b, l')| && !OperationBlocked(b, l', i')
    && (l != l' || i != i') && StemOf(b, l, i) == StemOf(b, l', i')
  }

  /** Two operations that are both scheduled print the same ids. The validators let this pass:
      they ask neither that line ids differ nor that codes leave "::" and "#" out. */
  ghost predicate IdsClash(b: Bundle) {
    exists l, i, l', i' :: ClashAt(b, l, i, l', i')
  }

  lemma StreamNeverOverbooked(b: Bundle, asWritten: bool, r: Outcome, key: Key, m: int)
    requires ValidBundle(b) && SafeCalendars(b, asWritten)
    requires r.Scheduled? && StreamScheduleRight(b, asWritten, r)
    ensures WithinCapacity(b, key, WorkCount(b, asWritten, r.operations, key, m))
  {
    StreamRunIsGreedy(b, asWritten, r.operations);
    NeverOverbooked(b, asWritten, r.operations, key, m);
  }

  /** Whatever the ids, a batch operation begins after the first operation whose id reads like
      that of a predecessor it reports. */
  lemma AfterReported(b: Bundle, asWritten: bool, h: seq<Placed>, i: nat, s: Sid)
    requires ValidBundle(b) && StreamRun(b, asWritten, h) && i < |h|
    requires s in h[i].predecessors && FirstById(h[..i], s).Some?
    ensures FirstById(h[..i], s).value.end <= h[i].PlanStart()
  {
    StreamRunAt(b, asWritten, h, i);
    StreamRunIsGreedy(b, asWritten, h);
    EveryOperationSound(b, asWritten, h, i);
    var x, front := h[i], h[..i];
    assert FirstById(front, s).value.end in EndsById(front, x.predecessors);
  }

  lemma {:induction false} UpstreamAre(h: seq<Placed>, l: nat, k: nat, preds: seq<string>, s: Sid)
    ensures s in Upstream(h, l, k, preds)
            <==> exists n ::
                   0 <= n < |preds| && ByKey(h, l, k, preds[n]).Some? && ByKey(h, l, k, preds[n]).value.sid == s
  {
    if preds != [] {
      UpstreamAre(h, l, k, preds[1..], s);
      assert preds == [preds[0]] + preds[1..];
    }
  }

  lemma {:induction false} ByKeyIs(h: seq<Placed>, l: nat, k: nat, code: string) returns (j: nat)
    requires ByKey(h, l, k, code).Some?
    ensures j < |h| && h[j] == ByKey(h, l, k, code).value
    ensures h[j].line == l && h[j].sid.batch == Some(k + 1) && h[j].sid.opCode == code
  {
    j := |h| - 1;
    if !(h[j].line == l && h[j].sid.batch == Some(k + 1) && h[j].sid.opCode == code) {
      j := ByKeyIs(h[..|h| - 1], l, k, code);
    }
  }

  /** An operation of the same line: of the same batch under the code of a predecessor, or of
      an earlier placement of the same code. */
  ghost predicate Awaited(h: seq<Placed>, i: nat, j: nat, preds: seq<string>) {
    && j < i < |h| && h[j].line == h[i].line
    && ((h[j].sid.batch == h[i].sid.batch && h[j].sid.opCode in preds) || h[j].sid.opCode == h[i].sid.opCode)
  }

  /** The nth share of a total, counted from one: full batches from the first on, and what is
      left in the last. */
  ghost predicate Share(total: real, size: int, n: nat, qty: real) {
    && size >= 1 && n >= 1 && (n == 1 || ((n - 1) * size) as real < total.Floor as real)
    && qty == if total >= (n * size) as real then size as real else total - ((n - 1) * size) as real
  }

  ghost predicate AwaitedId(h: seq<Placed>, i: nat, preds: seq<string>, s: Sid) {
    exists j: nat :: Awaited(h, i, j, preds) && h[j].sid == s
  }

  /** A batch operation is reported with its share of the line, under the line's id and product
      and its own code, number, family and batch; the ids it reports are of operations it is to
      wait for. */
  lemma StreamReports(b: Bundle, asWritten: bool, h: seq<Placed>, i: nat)
    requires ValidBundle(b) && StreamRun(b, asWritten, h) && i < |h|
    ensures h[i].line < |b.lines| && h[i].op < |OpsOf(b, h[i].line)| && h[i].sid.batch.Some?
    ensures b.lines[h[i].line].productCode in b.routes
    ensures var x, line, op := h[i], b.lines[h[i].line], OpsOf(b, h[i].line)[h[i].op];
      var route, n := b.routes[line.productCode], x.sid.batch.value;
      && Share(line.qty, if route.streaming then route.transferBatch as int else line.qty.Floor, n, x.qty)
      && x.meta == OpMeta(line.productCode, op.setupFamily)
      && x.sid == Sid(line.lineId, op.opCode, op.sequenceNo, Some(n))
      && forall s :: s in x.predecessors ==> AwaitedId(h, i, op.predecessors, s)
  {
    hide StreamRun, ValidBundle, OpsOf, GreedyStep, Blocked, StreamPredecessors, BatchQty, BatchCount, Share,
      StreamBounds;
    StreamRunAt(b, asWritten, h, i);
    var x, line, op := h[i], b.lines[h[i].line], OpsOf(b, h[i].line)[h[i].op];
    LineSize(b, x.line);
    hide SizeOf;
    ShareIs(line.qty, SizeOf(b, x.line), x.sid.batch.value - 1);
    forall s | s in x.predecessors
      ensures AwaitedId(h, i, op.predecessors, s)
    {
      var j := AwaitedAt(h[..i], x.line, x.sid.batch.value - 1, op, s);
      assert h[j] == h[..i][j];
      assert Awaited(h, i, j, op.predecessors);
    }
  }

  lemma LineSize(b: Bundle, l: nat)
    requires ValidBundle(b) && l < |b.lines|
    ensures b.lines[l].qty > 0.0 && b.lines[l].productCode in b.routes
    ensures var route := b.routes[b.lines[l].productCode];
      SizeOf(b, l) == if route.streaming then route.transferBatch as int else b.lines[l].qty.Floor
  {
    assert b.lines[l] in b.lines;
  }

  /** Batch k of a quantity, counted from nothing. */
  lemma ShareIs(total: real, size: nat, k: nat)
    requires size >= 1 && total > 0.0 && k < BatchCount(total, size)
    ensures Share(total, size, k + 1, BatchQty(total, size, k))
  {
    var n := BatchCount(total, size);
    BatchCountBounds(total, size, n, total.Floor);
    MulOrder(k, n - 1, size);
    MulMinus(k + 1, 1, size);
  }

  lemma AwaitedAt(h: seq<Placed>, l: nat, k: nat, op: Operation, s: Sid) returns (j: nat)
    requires s in StreamPredecessors(h, l, k, op)
    ensures j < |h| && h[j].line == l && h[j].sid == s
    ensures (h[j].sid.batch == Some(k + 1) && h[j].sid.opCode in op.predecessors) || h[j].sid.opCode == op.opCode
  {
    UpstreamAre(h, l, k, op.predecessors, s);
    if s in Upstream(h, l, k, op.predecessors) {
      var n :| 0 <= n < |op.predecessors| && ByKey(h, l, k, op.predecessors[n]).Some?
               && ByKey(h, l, k, op.predecessors[n]).value.sid == s;
      j := ByKeyIs(h, l, k, op.predecessors[n]);
    } else {
      j := DoneIsEarlier(h, l, op.opCode);
    }
  }

  /** It waits for nothing else: it may begin at the epoch, or when the first operation under
      an id it reports ends, or at the date of a supply entry that is for it. */
  lemma StreamWaitsForReason(b: Bundle, asWritten: bool, h: seq<Placed>, i: nat)
    requires ValidBundle(b) && StreamRun(b, asWritten, h) && i < |h|
    ensures h[i].line < |b.lines| && h[i].op < |OpsOf(b, h[i].line)|
    ensures var x, op := h[i], OpsOf(b, h[i].line)[h[i].op];
      || x.anchor == 0
      || (exists s :: s in x.predecessors && FirstById(h[..i], s).Some? && FirstById(h[..i], s).value.end == x.anchor)
      || DatedFor(b.supply, b.lines[x.line].lineId, op.opCode, x.anchor)
  {
    hide StreamRun, ValidBundle, OpsOf, GreedyStep, Blocked, StreamPredecessors, FirstById, SizeOf, CountOf;
    StreamRunAt(b, asWritten, h, i);
    var x, op := h[i], OpsOf(b, h[i].line)[h[i].op];
    assert x.anchor in StreamBounds(b, h[..i], x.line, x.sid.batch.value - 1, op);
    DatesIff(b.supply, b.lines[x.line].lineId, op.opCode, x.anchor);
  }

  /** Every operation waits for its supply: none of it is missing without a date, and the
      operation begins at or after every date. */
  lemma StreamAfterSupply(b: Bundle, asWritten: bool, h: seq<Placed>, i: nat, t: int)
    requires ValidBundle(b) && StreamRun(b, asWritten, h) && i < |h|
    ensures h[i].line < |b.lines| && h[i].op < |OpsOf(b, h[i].line)|
    ensures var lineId, code := b.lines[h[i].line].lineId, OpsOf(b, h[i].line)[h[i].op].opCode;
      !MissingFor(b.supply, lineId, code) && (DatedFor(b.supply, lineId, code, t) ==> t <= h[i].PlanStart())
  {
    hide StreamRun, ValidBundle, OpsOf, StreamPredecessors, FirstById, SizeOf, CountOf, ComboFits, LeastMinutes,
      SetupIs;
    hide RoomFor, Common;
    StreamRunAt(b, asWritten, h, i);
    StreamRunIsGreedy(b, asWritten, h);
    EveryOperationSound(b, asWritten, h, i);
    var x, op := h[i], OpsOf(b, h[i].line)[h[i].op];
    BlockedIff(b.supply, b.lines[x.line].lineId, op.opCode);
    DatesIff(b.supply, b.lines[x.line].lineId, op.opCode, t);
    if t in Dates(b.supply, b.lines[x.line].lineId, op.opCode) {
      assert t in StreamBounds(b, h[..i], x.line, x.sid.batch.value - 1, op);
    }
  }

  // ------------------------------------------------------- order of a line's pairs

  ghost predicate PairBefore(p: (nat, nat), q: (nat, nat)) {
    p.0 < q.0 || (p.0 == q.0 && p.1 < q.1)
  }

  ghost predicate Increasing(ps: seq<(nat, nat)>) {
    forall i, j :: 0 <= i < j < |ps| ==> PairBefore(ps[i], ps[j])
  }

  lemma {:induction false} PairsIncrease(b: Bundle, l: nat, k: nat, i: nat, blocked: bool)
    requires ValidBundle(b) && l < |b.lines| && i <= |OpsOf(b, l)|
    ensures Increasing(Pairs(b, l, k, i, blocked))
    ensures forall n :: 0 <= n < |Pairs(b, l, k, i, blocked)| ==> PairBefore(Pairs(b, l, k, i, blocked)[n], (k, i))
    decreases k, i
  {
    if i > 0 {
      PairsIncrease(b, l, k, i - 1, blocked);
    } else if k > 0 {
      PairsIncrease(b, l, k - 1, |OpsOf(b, l)|, blocked);
    }
  }

  /** The position of operation i among its line's pairs. */
  lemma {:induction false} PositionOf(h: seq<Placed>, l: nat, i: nat)
    requires i < |h| && h[i].line == l && h[i].sid.batch.Some? && h[i].sid.batch.value >= 1
    ensures |ScheduledPairs(h[..i], l)| < |ScheduledPairs(h, l)|
    ensures ScheduledPairs(h, l)[|ScheduledPairs(h[..i], l)|] == (h[i].sid.batch.value - 1, h[i].op)
  {
    var front := h[..|h| - 1];
    if i < |front| {
      PositionOf(front, l, i);
      assert front[..i] == h[..i];
    } else {
      assert front == h[..i];
    }
  }

  lemma StepPair(b: Bundle, asWritten: bool, h: seq<Placed>, i: nat)
    requires ValidBundle(b) && StreamRun(b, asWritten, h) && i < |h|
    ensures h[i].line < |b.lines| && h[i].op < |OpsOf(b, h[i].line)|
    ensures h[i].sid.batch.Some? && h[i].sid.batch.value >= 1
    ensures h[i].sid.lineId == b.lines[h[i].line].lineId
    ensures h[i].sid.opCode == OpsOf(b, h[i].line)[h[i].op].opCode
    ensures h[i].sid.sequenceNo == OpsOf(b, h[i].line)[h[i].op].sequenceNo
    ensures !OperationBlocked(b, h[i].line, h[i].op)
    ensures h[i].predecessors
            == StreamPredecessors(h[..i], h[i].line, h[i].sid.batch.value - 1, OpsOf(b, h[i].line)[h[i].op])
  {
    StreamRunAt(b, asWritten, h, i);
  }

  /** Within a line, earlier in the schedule means an earlier batch, or an earlier operation
      of the same batch. */
  lemma EarlierPair(b: Bundle, asWritten: bool, r: Outcome, i: nat, j: nat)
    requires ValidBundle(b) && r.Scheduled? && StreamScheduleRight(b, asWritten, r)
    requires i < j < |r.operations| && r.operations[i].line == r.operations[j].line
    ensures r.operations[i].sid.batch.Some? && r.operations[i].sid.batch.value >= 1
    ensures r.operations[j].sid.batch.Some? && r.operations[j].sid.batch.value >= 1
    ensures PairBefore((r.operations[i].sid.batch.value - 1, r.operations[i].op),
                       (r.operations[j].sid.batch.value - 1, r.operations[j].op))
  {
    hide StreamRun, ValidBundle, OpsOf, StreamScheduleRight, Pairs, ScheduledPairs, OperationBlocked,
      StreamPredecessors, CountOf;
    var h, l := r.operations, r.operations[i].line;
    ScheduleRuns(b, asWritten, r);
    StepPair(b, asWritten, h, i);
    StepPair(b, asWritten, h, j);
    LineOf(b, asWritten, r, l);
    PairsIncrease(b, l, CountOf(b, l), 0, false);
    PositionOf(h, l, i);
    PositionOf(h, l, j);
    PositionOf(h[..j], l, i);
    assert h[..j][..i] == h[..i];
  }

  // --------------------------------------------------------------- precedence

  lemma SameIdSameOperation(b: Bundle, asWritten: bool, r: Outcome, i: nat, j: nat)
    requires ValidBundle(b) && !IdsClash(b) && r.Scheduled? && StreamScheduleRight(b, asWritten, r)
    requires i <= j < |r.operations| && IdText(r.operations[i].sid) == IdText(r.operations[j].sid)
    ensures i == j
  {
    hide StreamScheduleRight, StreamRun, ValidBundle, OpsOf, IdText, Stem, IdsClash, OperationBlocked;
    var h := r.operations;
    ScheduleRuns(b, asWritten, r);
    StepPair(b, asWritten, h, i);
    StepPair(b, asWritten, h, j);
    SameTextIff(h[i].sid, h[j].sid);
    NoClash(b, h[i].line, h[i].op, h[j].line, h[j].op);
    if i < j {
      EarlierPair(b, asWritten, r, i, j);
    }
  }

  lemma NoClash(b: Bundle, l: nat, i: nat, l': nat, i': nat)
    requires !IdsClash(b) && l < |b.lines| && i < |OpsOf(b, l)| && l' < |b.lines| && i' < |OpsOf(b, l')|
    requires !OperationBlocked(b, l, i) && !OperationBlocked(b, l', i') && StemOf(b, l, i) == StemOf(b, l', i')
    ensures l == l' && i == i'
  {
    assert !ClashAt(b, l, i, l', i');
  }

  lemma {:induction false} FirstByIdAt(h: seq<Placed>, s: Sid)
    ensures FirstById(h, s).None? <==> forall i :: 0 <= i < |h| ==> IdText(h[i].sid) != IdText(s)
    ensures FirstById(h, s).Some? ==>
              exists i :: 0 <= i < |h| && h[i] == FirstById(h, s).value && IdText(h[i].sid) == IdText(s)
  {
    hide IdText;
    if h != [] && IdText(h[0].sid) != IdText(s) {
      FirstByIdAt(h[1..], s);
      assert h == [h[0]] + h[1..];
      if FirstById(h, s).Some? {
        var i :| 0 <= i < |h| - 1 && h[1..][i] == FirstById(h, s).value && IdText(h[1..][i].sid) == IdText(s);
        assert h[i + 1] == FirstById(h, s).value;
      }
    }
  }

  /** With ids that do not clash, looking an operation up by its id finds that operation. */
  lemma LookupFinds(b: Bundle, asWritten: bool, r: Outcome, i: nat, j: nat)
    requires ValidBundle(b) && !IdsClash(b) && r.Scheduled? && StreamScheduleRight(b, asWritten, r)
    requires j < i <= |r.operations|
    ensures FirstById(r.operations[..i], r.operations[j].sid) == Some(r.operations[j])
  {
    hide StreamScheduleRight, FirstById, ValidBundle, IdText, IdsClash;
    var h, s := r.operations[..i], r.operations[j].sid;
    FirstByIdAt(h, s);
    assert IdText(h[j].sid) == IdText(s);
    var n :| 0 <= n < |h| && h[n] == FirstById(h, s).value && IdText(h[n].sid) == IdText(s);
    if n <= j {
      SameIdSameOperation(b, asWritten, r, n, j);
    } else {
      SameIdSameOperation(b, asWritten, r, j, n);
    }
  }

  lemma AfterOperation(b: Bundle, asWritten: bool, r: Outcome, i: nat, j: nat)
    requires ValidBundle(b) && !IdsClash(b) && r.Scheduled? && StreamScheduleRight(b, asWritten, r)
    requires j < i < |r.operations| && r.operations[j].sid in r.operations[i].predecessors
    ensures r.operations[j].end <= r.operations[i].PlanStart()
  {
    LookupFinds(b, asWritten, r, i, j);
    AfterReported(b, asWritten, r.operations, i, r.operations[j].sid);
  }

  lemma {:induction false} UpstreamHas(h: seq<Placed>, l: nat, k: nat, preds: seq<string>, p: string)
    requires p in preds && ByKey(h, l, k, p).Some?
    ensures ByKey(h, l, k, p).value.sid in Upstream(h, l, k, preds)
  {
    if preds[0] != p {
      UpstreamHas(h, l, k, preds[1..], p);
    }
  }

  /** The newest operation under a key is at or after any operation under it. */
  lemma {:induction false} ByKeyNewest(h: seq<Placed>, l: nat, k: nat, code: string, j: nat) returns (n: nat)
    requires j < |h| && h[j].line == l && h[j].sid.batch == Some(k + 1) && h[j].sid.opCode == code
    ensures j <= n < |h| && ByKey(h, l, k, code) == Some(h[n])
    ensures h[n].line == l && h[n].sid.batch == Some(k + 1) && h[n].sid.opCode == code
  {
    var last := h[|h| - 1];
    if last.line == l && last.sid.batch == Some(k + 1) && last.sid.opCode == code {
      n := |h| - 1;
    } else {
      n := ByKeyNewest(h[..|h| - 1], l, k, code, j);
    }
  }

  lemma {:induction false} DoneNewest(h: seq<Placed>, l: nat, code: string, j: nat) returns (n: nat)
    requires j < |h| && h[j].line == l && h[j].sid.opCode == code
    ensures j <= n < |h| && DoneAt(h, l, code) == Some(h[n]) && h[n].line == l && h[n].sid.opCode == code
  {
    var last := h[|h| - 1];
    if last.line == l && last.sid.opCode == code {
      n := |h| - 1;
    } else {
      n := DoneNewest(h[..|h| - 1], l, code, j);
    }
  }

  /** A batch enters an operation only after the same batch has left each predecessor that
      was scheduled before it. */
  lemma AfterUpstream(b: Bundle, asWritten: bool, r: Outcome, i: nat, j: nat)
    requires ValidBundle(b) && !IdsClash(b) && r.Scheduled? && StreamScheduleRight(b, asWritten, r)
    requires j < i < |r.operations|
    requires var x, y := r.operations[i], r.operations[j];
      && x.line == y.line && x.sid.batch == y.sid.batch && x.line < |b.lines| && x.op < |OpsOf(b, x.line)|
      && y.sid.opCode in OpsOf(b, x.line)[x.op].predecessors
    ensures r.operations[j].end <= r.operations[i].PlanStart()
  {
    hide StreamScheduleRight, StreamRun, ValidBundle, OpsOf, ByKey, Upstream, IdsClash;
    var h, x, y := r.operations, r.operations[i], r.operations[j];
    ScheduleRuns(b, asWritten, r);
    StepPair(b, asWritten, h, i);
    var k := x.sid.batch.value - 1;
    var n := ByKeyNewest(h[..i], x.line, k, y.sid.opCode, j);
    SameKeySameSid(b, asWritten, r, j, n);
    UpstreamHas(h[..i], x.line, k, OpsOf(b, x.line)[x.op].predecessors, y.sid.opCode);
    AfterOperation(b, asWritten, r, i, j);
  }

  lemma ScheduleRuns(b: Bundle, asWritten: bool, r: Outcome)
    requires ValidBundle(b) && r.Scheduled? && StreamScheduleRight(b, asWritten, r)
    ensures StreamRun(b, asWritten, r.operations)
  {
  }

  lemma SameKeySameSid(b: Bundle, asWritten: bool, r: Outcome, j: nat, n: nat)
    requires ValidBundle(b) && r.Scheduled? && StreamScheduleRight(b, asWritten, r)
    requires j <= n < |r.operations| && r.operations[j].line == r.operations[n].line
    requires r.operations[j].sid.batch == r.operations[n].sid.batch
             && r.operations[j].sid.opCode == r.operations[n].sid.opCode
    ensures j == n
  {
    var h := r.operations;
    StepPair(b, asWritten, h, j);
    StepPair(b, asWritten, h, n);
    OpsDistinct(b, h[j].line);
    hide StreamScheduleRight, StreamRun, ValidBundle, OpsOf;
    if j < n {
      EarlierPair(b, asWritten, r, j, n);
    }
  }

  /** The batches of one operation run one after the other, in order. */
  lemma {:induction false} BatchesInOrder(b: Bundle, asWritten: bool, r: Outcome, i: nat, j: nat)
    requires ValidBundle(b) && !IdsClash(b) && r.Scheduled? && StreamScheduleRight(b, asWritten, r)
    requires j < i < |r.operations| && r.operations[j].line == r.operations[i].line
    requires r.operations[j].sid.opCode == r.operations[i].sid.opCode
    ensures r.operations[j].end <= r.operations[i].PlanStart()
    ensures r.operations[j].sid.batch.Some? && r.operations[i].sid.batch.Some?
    ensures r.operations[j].sid.batch.value < r.operations[i].sid.batch.value
    decreases i
  {
    hide StreamScheduleRight, StreamRun, ValidBundle, OpsOf, IdsClash, Upstream, DoneAt, GreedyRun;
    var h, x := r.operations, r.operations[i];
    ScheduleRuns(b, asWritten, r);
    StepPair(b, asWritten, h, i);
    StepPair(b, asWritten, h, j);
    OpsDistinct(b, x.line);
    EarlierPair(b, asWritten, r, j, i);
    var n := DoneNewest(h[..i], x.line, x.sid.opCode, j);
    assert h[n].sid in x.predecessors;
    AfterOperation(b, asWritten, r, i, n);
    if j < n {
      BatchesInOrder(b, asWritten, r, n, j);
      StreamRunIsGreedy(b, asWritten, h);
      EveryOperationSound(b, asWritten, h, n);
    }
  }

  // ------------------------------------------------------ predecessors left out

  lemma {:induction false} PairsHave(b: Bundle, l: nat, k: nat, n: nat, batch: nat, q: nat)
    requires ValidBundle(b) && l < |b.lines| && n <= |OpsOf(b, l)| && q < |OpsOf(b, l)|
    requires batch < k || (batch == k && q < n)
    requires !OperationBlocked(b, l, q)
    ensures (batch, q) in Pairs(b, l, k, n, false)
    decreases k, n
  {
    hide ValidBundle, OpsOf, OperationBlocked;
    if n > 0 {
      if !(batch == k && q == n - 1) {
        PairsHave(b, l, k, n - 1, batch, q);
      }
    } else {
      PairsHave(b, l, k - 1, |OpsOf(b, l)|, batch, q);
    }
  }

  lemma {:induction false} PairScheduled(h: seq<Placed>, l: nat, p: (nat, nat)) returns (j: nat)
    requires p in ScheduledPairs(h, l)
    ensures j < |h| && h[j].line == l && h[j].sid.batch == Some(p.0 + 1) && h[j].op == p.1
  {
    var front := h[..|h| - 1];
    if p in ScheduledPairs(front, l) {
      j := PairScheduled(front, l, p);
    } else {
      j := |h| - 1;
    }
  }

  /** The same batch of operation q of the line of operation i, scheduled before it. */
  ghost predicate WentBefore(h: seq<Placed>, i: nat, q: nat, j: nat) {
    j < i < |h| && h[j].line == h[i].line && h[j].sid.batch == h[i].sid.batch && h[j].op == q
  }

  lemma BatchInRange(b: Bundle, asWritten: bool, h: seq<Placed>, i: nat)
    requires ValidBundle(b) && StreamRun(b, asWritten, h) && i < |h|
    ensures h[i].line < |b.lines| && h[i].op < |OpsOf(b, h[i].line)| && SizeOf(b, h[i].line) >= 1
    ensures h[i].sid.batch.Some? && 1 <= h[i].sid.batch.value <= CountOf(b, h[i].line)
    ensures !OperationBlocked(b, h[i].line, h[i].op)
  {
    StreamRunAt(b, asWritten, h, i);
  }

  /** A batch waits for the same batch of operation q only when q is earlier in the route and
      its supply is not missing; any other predecessor the route names is passed over. */
  lemma PredecessorWentBeforeIff(b: Bundle, asWritten: bool, r: Outcome, i: nat, q: nat)
    requires ValidBundle(b) && r.Scheduled? && StreamScheduleRight(b, asWritten, r) && i < |r.operations|
    requires r.operations[i].line < |b.lines| && q < |OpsOf(b, r.operations[i].line)| && q != r.operations[i].op
    ensures (exists j: nat :: WentBefore(r.operations, i, q, j))
            <==> q < r.operations[i].op && !OperationBlocked(b, r.operations[i].line, q)
  {
    hide ValidBundle, StreamRun, OpsOf, OperationBlocked, StreamScheduleRight, ScheduledPairs, Pairs;
    var h, l := r.operations, r.operations[i].line;
    ScheduleRuns(b, asWritten, r);
    BatchInRange(b, asWritten, h, i);
    var k := h[i].sid.batch.value - 1;
    if q < h[i].op && !OperationBlocked(b, l, q) {
      PairsHave(b, l, CountOf(b, l), 0, k, q);
      LineOf(b, asWritten, r, l);
      var j := PairScheduled(h, l, (k, q));
      if i < j {
        EarlierPair(b, asWritten, r, i, j);
      }
      assert WentBefore(h, i, q, j);
    }
    if exists j: nat :: WentBefore(h, i, q, j) {
      var j: nat :| WentBefore(h, i, q, j);
      BatchInRange(b, asWritten, h, j);
      EarlierPair(b, asWritten, r, j, i);
    }
  }

  lemma LineOf(b: Bundle, asWritten: bool, r: Outcome, l: nat)
    requires ValidBundle(b) && r.Scheduled? && StreamScheduleRight(b, asWritten, r) && l < |b.lines|
    ensures SizeOf(b, l) >= 1 && ScheduledPairs(r.operations, l) == Pairs(b, l, CountOf(b, l), 0, false)
  {
    assert LineComplete(b, r.operations, r.blocks, l);
  }

  // ------------------------------------------------------------ ids that clash

  /** Every operation is the one that looking up its own id finds. */
  ghost predicate AllFound(h: seq<Placed>) {
    forall j :: 0 <= j < |h| ==> FirstById(h, h[j].sid) == Some(h[j])
  }

  lemma ScheduledOnce(b: Bundle, asWritten: bool, r: Outcome, l: nat, i: nat) returns (j: nat)
    requires ValidBundle(b) && r.Scheduled? && StreamScheduleRight(b, asWritten, r)
    requires l < |b.lines| && i < |OpsOf(b, l)| && !OperationBlocked(b, l, i)
    ensures j < |r.operations| && r.operations[j].line == l && r.operations[j].op == i
    ensures r.operations[j].sid.batch == Some(1)
  {
    hide ValidBundle, StreamRun, OpsOf, OperationBlocked, StreamScheduleRight, ScheduledPairs, Pairs, BatchCount;
    LineOf(b, asWritten, r, l);
    CountPositive(b, l);
    PairsHave(b, l, CountOf(b, l), 0, 0, i);
    j := PairScheduled(r.operations, l, (0, i));
  }

  lemma CountPositive(b: Bundle, l: nat)
    requires l < |b.lines| && SizeOf(b, l) >= 1
    ensures CountOf(b, l) >= 1
  {
  }

  /** In a finished streaming schedule every operation is found under its own id exactly when
      no two operations that are scheduled print the same ids. */
  lemma AllFoundIff(b: Bundle, asWritten: bool, r: Outcome)
    requires ValidBundle(b) && r.Scheduled? && StreamScheduleRight(b, asWritten, r)
    ensures AllFound(r.operations) <==> !IdsClash(b)
  {
    hide StreamScheduleRight, FirstById, ValidBundle, IdText, StreamRun, OpsOf, Stem, OperationBlocked;
    var h := r.operations;
    if !IdsClash(b) {
      assert h[..|h|] == h;
      forall j | 0 <= j < |h|
        ensures FirstById(h, h[j].sid) == Some(h[j])
      {
        LookupFinds(b, asWritten, r, |h|, j);
      }
    } else {
      var l, i, l', i' :| ClashAt(b, l, i, l', i');
      var j := ScheduledOnce(b, asWritten, r, l, i);
      var j' := ScheduledOnce(b, asWritten, r, l', i');
      ScheduleRuns(b, asWritten, r);
      StepPair(b, asWritten, h, j);
      StepPair(b, asWritten, h, j');
      SameTextIff(h[j].sid, h[j'].sid);
      SameTextSameFind(h, h[j].sid, h[j'].sid);
      assert h[j] != h[j'];
    }
  }

  lemma {:induction false} SameTextSameFind(h: seq<Placed>, s: Sid, t: Sid)
    requires IdText(s) == IdText(t)
    ensures FirstById(h, s) == FirstById(h, t)
  {
    hide IdText;
    if h != [] && IdText(h[0].sid) != IdText(s) {
      SameTextSameFind(h[1..], s, t);
    }
  }

  // -------------------------------------------------------------- conservation

  /** The quantity of operation i of line l over all its scheduled batches. */
  ghost function QtyOf(h: seq<Placed>, l: nat, i: nat): real {
    if h == [] then 0.0
    else
      var last := h[|h| - 1];
      QtyOf(h[..|h| - 1], l, i) + (if last.line == l && last.op == i then last.qty else 0.0)
  }

  ghost function PairsQty(ps: seq<(nat, nat)>, total: real, size: nat, i: nat): real {
    if ps == [] then 0.0
    else
      var last := ps[|ps| - 1];
      PairsQty(ps[..|ps| - 1], total, size, i) + (if last.1 == i then BatchQty(total, size, last.0) else 0.0)
  }

  lemma PairsQtyAppend(ps: seq<(nat, nat)>, p: (nat, nat), total: real, size: nat, i: nat)
    ensures PairsQty(ps + [p], total, size, i)
            == PairsQty(ps, total, size, i) + (if p.1 == i then BatchQty(total, size, p.0) else 0.0)
  {
    assert (ps + [p])[..|ps + [p]| - 1] == ps;
  }

  /** What holds before the last operation holds after it. */
  lemma QtyStep(h: seq<Placed>, l: nat, i: nat, total: real, size: nat)
    requires h != [] && size >= 1
    requires h[|h| - 1].sid.batch.Some? && h[|h| - 1].sid.batch.value >= 1
    requires h[|h| - 1].line == l ==> h[|h| - 1].qty == BatchQty(total, size, h[|h| - 1].sid.batch.value - 1)
    requires QtyOf(h[..|h| - 1], l, i) == PairsQty(ScheduledPairs(h[..|h| - 1], l), total, size, i)
    ensures QtyOf(h, l, i) == PairsQty(ScheduledPairs(h, l), total, size, i)
  {
    hide BatchQty;
    var front, x := h[..|h| - 1], h[|h| - 1];
    if x.line == l {
      PairsQtyAppend(ScheduledPairs(front, l), (x.sid.batch.value - 1, x.op), total, size, i);
    } else {
      assert ScheduledPairs(h, l) == ScheduledPairs(front, l);
    }
  }

  lemma {:induction false} QtyIsPairs(b: Bundle, asWritten: bool, h: seq<Placed>, l: nat, i: nat)
    requires ValidBundle(b) && StreamRun(b, asWritten, h) && l < |b.lines| && SizeOf(b, l) >= 1
    ensures QtyOf(h, l, i) == PairsQty(ScheduledPairs(h, l), b.lines[l].qty, SizeOf(b, l), i)
  {
    hide StreamRun, ValidBundle, SizeOf, BatchQty, QtyOf, PairsQty, ScheduledPairs;
    if h == [] {
      NoQty(l, i, b.lines[l].qty, SizeOf(b, l));
    } else {
      RunHasBatch(b, asWritten, h);
      StepQty(b, asWritten, h);
      QtyIsPairs(b, asWritten, h[..|h| - 1], l, i);
      QtyStep(h, l, i, b.lines[l].qty, SizeOf(b, l));
    }
  }

  lemma NoQty(l: nat, i: nat, total: real, size: nat)
    requires size >= 1
    ensures QtyOf([], l, i) == PairsQty(ScheduledPairs([], l), total, size, i)
  {
  }

  lemma StepQty(b: Bundle, asWritten: bool, h: seq<Placed>)
    requires ValidBundle(b) && StreamRun(b, asWritten, h) && h != []
    ensures var x := h[|h| - 1];
      && x.line < |b.lines| && SizeOf(b, x.line) >= 1 && x.sid.batch.Some? && x.sid.batch.value >= 1
      && x.qty == BatchQty(b.lines[x.line].qty, SizeOf(b, x.line), x.sid.batch.value - 1)
  {
    hide GreedyStep, StreamRun;
    StreamRunAt(b, asWritten, h, |h| - 1);
  }

  lemma {:induction false} PairsAreBatches(b: Bundle, l: nat, k: nat, n: nat, i: nat)
    requires ValidBundle(b) && l < |b.lines| && SizeOf(b, l) >= 1 && n <= |OpsOf(b, l)| && i < |OpsOf(b, l)|
    requires !OperationBlocked(b, l, i)
    ensures PairsQty(Pairs(b, l, k, n, false), b.lines[l].qty, SizeOf(b, l), i)
            == SumQty(b.lines[l].qty, SizeOf(b, l), k)
               + (if i < n then BatchQty(b.lines[l].qty, SizeOf(b, l), k) else 0.0)
    decreases k, n
  {
    hide ValidBundle, SizeOf, BatchQty, OpsOf, OperationBlocked;
    if n > 0 {
      PairsAreBatches(b, l, k, n - 1, i);
      var before := Pairs(b, l, k, n - 1, false);
      if OperationBlocked(b, l, n - 1) {
        assert Pairs(b, l, k, n, false) == before;
      } else {
        var now := before + [(k, n - 1)];
        assert Pairs(b, l, k, n, false) == now;
        assert now[..|now| - 1] == before && now[|now| - 1] == (k, n - 1);
      }
    } else if k > 0 {
      PairsAreBatches(b, l, k - 1, |OpsOf(b, l)|, i);
    }
  }

  /** Over a whole schedule, every operation of a line makes the line's quantity, unless the
      last batch is cut short of a fraction of a piece; a blocked operation makes nothing. */
  lemma QuantityConservedIff(b: Bundle, asWritten: bool, r: Outcome, l: nat, i: nat)
    requires ValidBundle(b) && r.Scheduled? && StreamScheduleRight(b, asWritten, r)
    requires l < |b.lines| && i < |OpsOf(b, l)| && !OperationBlocked(b, l, i)
    ensures SizeOf(b, l) >= 1
    ensures var total := b.lines[l].qty;
      QtyOf(r.operations, l, i) == total
      <==> total == total.Floor as real || total.Floor % SizeOf(b, l) != 0 || total.Floor == 0
  {
    assert LineComplete(b, r.operations, r.blocks, l);
    assert b.lines[l] in b.lines;
    var total, size := b.lines[l].qty, SizeOf(b, l);
    hide OperationBlocked, ValidBundle, OpsOf, StreamRun;
    QtyIsPairs(b, asWritten, r.operations, l, i);
    PairsAreBatches(b, l, CountOf(b, l), 0, i);
    BatchesConserveIff(total, size);
  }
}

/** The streaming driver: every order line is split into transfer batches, and each batch
    may enter an operation as soon as the same batch has left its predecessors and the
    previous batch has left the operation. */
module StreamingFlow {
  import opened Minutes
  import opened Intervals
  import opened Bundle
  import opened ScheduleIds
  import opened Eligibility
  import opened Schedule
  import opened GreedyRuns
  import opened Context
  import opened Supply
  import opened TransferBatches
  import opened BatchFlow

  // ---------------------------------------------------------- what a run is

  function WholePieces(qty: real): nat {
    if qty < 0.0 then 0 else qty.Floor
  }

  /** The transfer batch of a line; a line that does not stream is one batch of all its whole
      pieces. */
  function SizeOf(b: Bundle, l: nat): nat
    requires l < |b.lines|
  {
    if RouteOf(b, l).streaming then RouteOf(b, l).transferBatch else WholePieces(b.lines[l].qty)
  }

  function CountOf(b: Bundle, l: nat): nat
    requires l < |b.lines| && SizeOf(b, l) >= 1
  {
    BatchCount(b.lines[l].qty, SizeOf(b, l))
  }

  /** Batch k of a line under an operation code, if scheduled: the newest such operation. */
  function ByKey(h: seq<Placed>, l: nat, k: nat, code: string): Option<Placed> {
    if h == [] then None
    else
      var last := h[|h| - 1];
      if last.line == l && last.sid.batch == Some(k + 1) && last.sid.opCode == code then Some(last)
      else ByKey(h[..|h| - 1], l, k, code)
  }

  /** Scheduled predecessors of batch k: the same batch upstream. */
  function Upstream(h: seq<Placed>, l: nat, k: nat, preds: seq<string>): seq<Sid> {
    if preds == [] then []
    else
      (match ByKey(h, l, k, preds[0]) case None => [] case Some(x) => [x.sid]) + Upstream(h, l, k, preds[1..])
  }

  /** And the previous batch of the same operation. */
  function StreamPredecessors(h: seq<Placed>, l: nat, k: nat, op: Operation): seq<Sid> {
    Upstream(h, l, k, op.predecessors) + (match DoneAt(h, l, op.opCode) case None => [] case Some(x) => [x.sid])
  }

  /** The first operation of the schedule whose id reads like this one. */
  function FirstById(h: seq<Placed>, sid: Sid): Option<Placed> {
    if h == [] then None else if IdText(h[0].sid) == IdText(sid) then Some(h[0]) else FirstById(h[1..], sid)
  }

  ghost function EndsById(h: seq<Placed>, sids: seq<Sid>): set<int> {
    set s | s in sids && FirstById(h, s).Some? :: FirstById(h, s).value.end
  }

  ghost function StreamBounds(b: Bundle, h: seq<Placed>, l: nat, k: nat, op: Operation): set<int>
    requires l < |b.lines|
  {
    {0} + EndsById(h, StreamPredecessors(h, l, k, op)) + Dates(b.supply, b.lines[l].lineId, op.opCode)
  }

  ghost predicate StreamStep(b: Bundle, h: seq<Placed>, x: Placed)
  {
    && x.line < |b.lines| && x.op < |OpsOf(b, x.line)| && SizeOf(b, x.line) >= 1
    && x.sid.batch.Some? && 1 <= x.sid.batch.value <= CountOf(b, x.line)
    && var line, op, k := b.lines[x.line], OpsOf(b, x.line)[x.op], x.sid.batch.value - 1;
       && !Blocked(b.supply, line.lineId, op.opCode)
       && IsLatest(StreamBounds(b, h, x.line, k, op), x.anchor)
       && x.qty == BatchQty(line.qty, SizeOf(b, x.line), k)
       && x.meta == OpMeta(line.productCode, op.setupFamily)
       && x.sid == Sid(line.lineId, op.opCode, op.sequenceNo, Some(k + 1))
       && x.predecessors == StreamPredecessors(h, x.line, k, op)
  }

  ghost predicate StreamAt(b: Bundle, asWritten: bool, h: seq<Placed>, i: nat)
    requires i < |h|
  {
    GreedyStep(b, asWritten, h[..i], h[i]) && StreamStep(b, h[..i], h[i])
  }

  ghost predicate StreamRun(b: Bundle, asWritten: bool, h: seq<Placed>)
  {
    forall i :: 0 <= i < |h| ==> StreamAt(b, asWritten, h, i)
  }

  lemma StreamRunIsGreedy(b: Bundle, asWritten: bool, h: seq<Placed>)
    requires ValidBundle(b) && StreamRun(b, asWritten, h)
    ensures GreedyRun(b, asWritten, h)
  {
    hide GreedyStep, StreamStep, ValidBundle;
    forall i | 0 <= i < |h|
      ensures GreedyAt(b, asWritten, h, i)
    {
      assert StreamAt(b, asWritten, h, i);
    }
  }

  lemma StreamRunAppend(b: Bundle, asWritten: bool, h: seq<Placed>, x: Placed)
    requires ValidBundle(b) && StreamRun(b, asWritten, h)
    requires GreedyStep(b, asWritten, h, x) && StreamStep(b, h, x)
    ensures StreamRun(b, asWritten, h + [x])
  {
    hide GreedyStep, StreamStep, ValidBundle;
    var h' := h + [x];
    forall i | 0 <= i < |h'|
      ensures StreamAt(b, asWritten, h', i)
    {
      if i < |h| {
        assert StreamAt(b, asWritten, h, i);
        assert h'[..i] == h[..i];
      } else {
        assert h'[..i] == h;
      }
    }
  }

  lemma StreamRunAt(b: Bundle, asWritten: bool, h: seq<Placed>, i: nat)
    requires ValidBundle(b) && StreamRun(b, asWritten, h) && i < |h|
    ensures StreamRun(b, asWritten, h[..i]) && GreedyStep(b, asWritten, h[..i], h[i]) && StreamStep(b, h[..i], h[i])
  {
    hide GreedyStep, StreamStep, ValidBundle;
    assert StreamAt(b, asWritten, h, i);
    forall j | 0 <= j < i
      ensures StreamAt(b, asWritten, h[..i], j)
    {
      assert StreamAt(b, asWritten, h, j);
      assert h[..i][..j] == h[..j];
    }
  }

  // ------------------------------------------------------------- coverage

  /** The (batch, operation) pairs of line l in the schedule. */
  function ScheduledPairs(h: seq<Placed>, l: nat): seq<(nat, nat)> {
    if h == [] then []
    else
      var last := h[|h| - 1];
      ScheduledPairs(h[..|h| - 1], l)
      + (if last.line == l && last.sid.batch.Some? && last.sid.batch.value >= 1 then
           [(last.sid.batch.value - 1, last.op)] else [])
  }

  function BlockedPairs(blocks: seq<Block>, l: nat): seq<(nat, nat)> {
    if blocks == [] then []
    else
      var last := blocks[|blocks| - 1];
      BlockedPairs(blocks[..|blocks| - 1], l)
      + (if last.line == l && last.batch.Some? then [(last.batch.value, last.op)] else [])
  }

  ghost predicate OperationBlocked(b: Bundle, l: nat, i: nat)
    requires l < |b.lines| && i < |OpsOf(b, l)|
  {
    Blocked(b.supply, b.lines[l].lineId, OpsOf(b, l)[i].opCode)
  }

  /** The pairs before operation i of batch k whose operation is blocked, or is not. */
  ghost function Pairs(b: Bundle, l: nat, k: nat, i: nat, blocked: bool): seq<(nat, nat)>
    requires l < |b.lines| && i <= |OpsOf(b, l)|
    decreases k, i
  {
    if i > 0 then
      Pairs(b, l, k, i - 1, blocked) + (if OperationBlocked(b, l, i - 1) == blocked then [(k, i - 1)] else [])
    else if k > 0 then Pairs(b, l, k - 1, |OpsOf(b, l)|, blocked)
    else []
  }

  /** Lines before l are complete, later ones untouched, and line l stands before operation i
      of batch k. */
  ghost predicate Covered(b: Bundle, h: seq<Placed>, blocks: seq<Block>, l: nat, k: nat, i: nat)
  {
    && (forall j :: 0 <= j < l && j < |b.lines| ==> LineComplete(b, h, blocks, j))
    && (forall j :: l < j ==> ScheduledPairs(h, j) == [] && BlockedPairs(blocks, j) == [])
    && (l < |b.lines| ==>
          i <= |OpsOf(b, l)| && ScheduledPairs(h, l) == Pairs(b, l, k, i, false)
            && BlockedPairs(blocks, l) == Pairs(b, l, k, i, true))
  }

  /** One line after the other. */
  ghost predicate LinesInOrder(h: seq<Placed>) {
    forall i, j :: 0 <= i < j < |h| ==> h[i].line <= h[j].line
  }

  ghost predicate LinesUpTo(h: seq<Placed>, l: nat) {
    LinesInOrder(h) && forall i :: 0 <= i < |h| ==> h[i].line <= l
  }

  /** Every operation of every batch of the line is scheduled once, in order, or blocked
      because its supply is missing and undated. */
  ghost predicate LineComplete(b: Bundle, h: seq<Placed>, blocks: seq<Block>, l: nat)
    requires l < |b.lines|
  {
    && SizeOf(b, l) >= 1
    && ScheduledPairs(h, l) == Pairs(b, l, CountOf(b, l), 0, false)
    && BlockedPairs(blocks, l) == Pairs(b, l, CountOf(b, l), 0, true)
  }

  /** Each block names a batch of an operation whose supply is missing, under the ids of both. */
  ghost predicate BatchBlocksOk(b: Bundle, blocks: seq<Block>) {
    forall n :: 0 <= n < |blocks| ==> BatchBlockOk(b, blocks[n])
  }

  ghost predicate BatchBlockOk(b: Bundle, x: Block) {
    && x.line < |b.lines| && x.op < |OpsOf(b, x.line)| && x.batch.Some? && x.reason == SupplyNotReady
    && x.lineId == b.lines[x.line].lineId && x.opCode == OpsOf(b, x.line)[x.op].opCode
    && MissingFor(b.supply, x.lineId, x.opCode)
  }

  ghost predicate StreamScheduleRight(b: Bundle, asWritten: bool, r: Outcome)
    requires r.Scheduled?
  {
    && StreamRun(b, asWritten, r.operations)
    && r.intervals == AllReservations(r.operations)
    && LinesInOrder(r.operations) && BatchBlocksOk(b, r.blocks)
    && forall l :: 0 <= l < |b.lines| ==> LineComplete(b, r.operations, r.blocks, l)
  }

  ghost predicate StreamFailureRight(b: Bundle, asWritten: bool, run: seq<Placed>, error: Error)
  {
    && error.line < |b.lines|
    && match error
       case ZeroBatchSize(l) => !RouteOf(b, l).streaming && b.lines[l].qty < 1.0
       case NoEligibleResource(l, i) => i < |OpsOf(b, l)| && forall c :: !ComboFits(b, OpsOf(b, l)[i], c)
       case BadYieldRate(l, i) => i < |OpsOf(b, l)| && !YieldRateOk(OpsOf(b, l)[i])
       case ScheduleStuck(_, _) => false
       case NoFeasibleWindow(l, i) =>
         && i < |OpsOf(b, l)| && StreamRun(b, asWritten, run)
         && exists k, anchor :: MayStream(b, run, l, k, i, anchor)
              && NoneFeasible(ViewAfter(b, asWritten, run), StreamJob(b, l, k, i, anchor))
  }

  ghost predicate MayStream(b: Bundle, h: seq<Placed>, l: nat, k: nat, i: nat, anchor: int)
    requires l < |b.lines| && i < |OpsOf(b, l)|
  {
    && SizeOf(b, l) >= 1 && k < CountOf(b, l) && !OperationBlocked(b, l, i)
    && IsLatest(StreamBounds(b, h, l, k, OpsOf(b, l)[i]), anchor)
  }

  function StreamJob(b: Bundle, l: nat, k: nat, i: nat, anchor: int): Job
    requires l < |b.lines| && i < |OpsOf(b, l)|
  {
    var line, op := b.lines[l], OpsOf(b, l)[i];
    Job(op, OpMeta(line.productCode, op.setupFamily), BatchQty(line.qty, SizeOf(b, l), k), anchor)
  }

  function StreamPlaced(b: Bundle, h: seq<Placed>, l: nat, k: nat, i: nat, anchor: int, c: Choice): Placed
    requires l < |b.lines| && i < |OpsOf(b, l)| && c.Picked?
  {
    var job, op := StreamJob(b, l, k, i, anchor), OpsOf(b, l)[i];
    Placed(l, i, Sid(b.lines[l].lineId, op.opCode, op.sequenceNo, Some(k + 1)), job.meta,
           StreamPredecessors(h, l, k, op), job.qty, anchor, c.combo, c.setup, c.processing, c.start, c.end)
  }

  // ------------------------------------------------------------ the tables

  /** by_key and previous_by_op, as the driver keeps them for the line in hand. */
  ghost predicate KeysOk(h: seq<Placed>, l: nat, byKey: map<(nat, string), Sid>, previous: map<string, Sid>) {
    && (forall k: nat, code :: SidOf(ByKey(h, l, k, code)) == if (k, code) in byKey then Some(byKey[(k, code)])
       else None)
    && (forall code :: SidOf(DoneAt(h, l, code)) == if code in previous then Some(previous[code]) else None)
  }

  function SidOf(x: Option<Placed>): Option<Sid> {
    match x case None => None case Some(placed) => Some(placed.sid)
  }

  lemma KeysAfterPlace(h: seq<Placed>, l: nat, k: nat, x: Placed, byKey: map<(nat, string), Sid>,
                       previous: map<string, Sid>)
    requires KeysOk(h, l, byKey, previous) && x.line == l && x.sid.batch == Some(k + 1)
    ensures KeysOk(h + [x], l, byKey[(k, x.sid.opCode) := x.sid], previous[x.sid.opCode := x.sid])
  {
    var h' := h + [x];
    assert h'[..|h'| - 1] == h;
  }

  lemma {:induction false} KeysFresh(h: seq<Placed>, l: nat)
    requires forall i :: 0 <= i < |h| ==> h[i].line != l
    ensures KeysOk(h, l, map[], map[])
  {
    if h != [] {
      KeysFresh(h[..|h| - 1], l);
    }
  }

  lemma NoPairs(h: seq<Placed>, l: nat)
    requires h != [] && ScheduledPairs(h, l) == []
    requires h[|h| - 1].sid.batch.Some? && h[|h| - 1].sid.batch.value >= 1
    ensures h[|h| - 1].line != l && ScheduledPairs(h[..|h| - 1], l) == []
  {
  }

  lemma {:induction false} Untouched(b: Bundle, asWritten: bool, h: seq<Placed>, l: nat, i: nat)
    requires ValidBundle(b) && StreamRun(b, asWritten, h) && ScheduledPairs(h, l) == [] && i < |h|
    ensures h[i].line != l
  {
    hide StreamRun, ValidBundle, ScheduledPairs;
    RunHasBatch(b, asWritten, h);
    NoPairs(h, l);
    if i < |h| - 1 {
      Untouched(b, asWritten, h[..|h| - 1], l, i);
    }
  }

  lemma RunHasBatch(b: Bundle, asWritten: bool, h: seq<Placed>)
    requires ValidBundle(b) && StreamRun(b, asWritten, h) && h != []
    ensures StreamRun(b, asWritten, h[..|h| - 1])
    ensures h[|h| - 1].sid.batch.Some? && h[|h| - 1].sid.batch.value >= 1
  {
    hide GreedyStep, ValidBundle, StreamRun;
    StreamRunAt(b, asWritten, h, |h| - 1);
  }

  method CollectPredecessors(ghost h: seq<Placed>, l: nat, k: nat, op: Operation,
                             byKey: map<(nat, string), Sid>, previous: map<string, Sid>) returns (preds: seq<Sid>)
    requires KeysOk(h, l, byKey, previous)
    ensures preds == StreamPredecessors(h, l, k, op)
  {
    preds := [];
    for i := 0 to |op.predecessors|
      invariant preds == Upstream(h, l, k, op.predecessors[..i])
    {
      var p := op.predecessors[i];
      UpstreamAppend(h, l, k, op.predecessors[..i], p);
      assert op.predecessors[..i + 1] == op.predecessors[..i] + [p];
      if (k, p) in byKey {
        preds := preds + [byKey[(k, p)]];
      }
    }
    assert op.predecessors[..|op.predecessors|] == op.predecessors;
    if op.opCode in previous {
      preds := preds + [previous[op.opCode]];
    }
  }

  lemma {:induction false} UpstreamAppend(h: seq<Placed>, l: nat, k: nat, preds: seq<string>, p: string)
    ensures Upstream(h, l, k, preds + [p])
            == Upstream(h, l, k, preds) + (match ByKey(h, l, k, p) case None => [] case Some(x) => [x.sid])
  {
    if preds == [] {
      assert preds + [p] == [p];
    } else {
      UpstreamAppend(h, l, k, preds[1..], p);
      assert (preds + [p])[1..] == preds[1..] + [p];
    }
  }

  method LatestEnd(operations: seq<Placed>, preds: seq<Sid>) returns (anchor: int)
    ensures IsLatest({0} + EndsById(operations, preds), anchor)
  {
    hide FirstById;
    anchor := 0;
    for i := 0 to |preds|
      invariant anchor in {0} + EndsById(operations, preds) && 0 <= anchor
      invariant forall j :: 0 <= j < i && FirstById(operations, preds[j]).Some? ==>
        FirstById(operations, preds[j]).value.end <= anchor
    {
      var found := FirstById(operations, preds[i]);
      assert preds[i] in preds;
      if found.Some? {
        anchor := Max(anchor, found.value.end);
      }
    }
    forall d | d in EndsById(operations, preds)
      ensures d <= anchor
    {
      var s :| s in preds && FirstById(operations, s).Some? && FirstById(operations, s).value.end == d;
      var j :| 0 <= j < |preds| && preds[j] == s;
    }
  }

  // ------------------------------------------------------------- the driver

  lemma CoveredAfterPlace(b: Bundle, h: seq<Placed>, blocks: seq<Block>, l: nat, k: nat, i: nat, x: Placed)
    requires ValidBundle(b) && Covered(b, h, blocks, l, k, i) && l < |b.lines| && i < |OpsOf(b, l)|
    requires x.line == l && x.op == i && x.sid.batch == Some(k + 1) && !OperationBlocked(b, l, i)
    ensures Covered(b, h + [x], blocks, l, k, i + 1)
  {
    var h' := h + [x];
    assert h'[..|h'| - 1] == h;
    hide ValidBundle, OpsOf, OperationBlocked;
    assert forall j: nat :: j != l ==> ScheduledPairs(h', j) == ScheduledPairs(h, j);
    assert forall j: nat :: j < l && j < |b.lines| && LineComplete(b, h, blocks, j) ==> LineComplete(b, h', blocks, j);
  }

  lemma CoveredAfterBlock(b: Bundle, h: seq<Placed>, blocks: seq<Block>, l: nat, k: nat, i: nat, x: Block)
    requires ValidBundle(b) && Covered(b, h, blocks, l, k, i) && l < |b.lines| && i < |OpsOf(b, l)|
    requires x.line == l && x.op == i && x.batch == Some(k) && OperationBlocked(b, l, i)
    ensures Covered(b, h, blocks + [x], l, k, i + 1)
  {
    var blocks' := blocks + [x];
    assert blocks'[..|blocks'| - 1] == blocks;
    hide ValidBundle, OpsOf, OperationBlocked;
    assert forall j: nat :: j != l ==> BlockedPairs(blocks', j) == BlockedPairs(blocks, j);
    assert forall j: nat :: j < l && j < |b.lines| && LineComplete(b, h, blocks, j) ==> LineComplete(b, h, blocks', j);
  }

  lemma CoveredNextBatch(b: Bundle, h: seq<Placed>, blocks: seq<Block>, l: nat, k: nat)
    requires ValidBundle(b) && l < |b.lines| && Covered(b, h, blocks, l, k, |OpsOf(b, l)|)
    ensures Covered(b, h, blocks, l, k + 1, 0)
  {
  }

  lemma CoveredNextLine(b: Bundle, h: seq<Placed>, blocks: seq<Block>, l: nat)
    requires ValidBundle(b) && l < |b.lines| && SizeOf(b, l) >= 1 && Covered(b, h, blocks, l, CountOf(b, l), 0)
    ensures Covered(b, h, blocks, l + 1, 0, 0)
  {
    if l + 1 < |b.lines| {
      assert Pairs(b, l + 1, 0, 0, false) == [] && Pairs(b, l + 1, 0, 0, true) == [];
    }
  }

  ghost predicate StreamBooked(b: Bundle, asWritten: bool, ctx: RunContext, operations: seq<Placed>,
                               intervals: seq<Interval>)
    reads ctx
  {
    && ctx.b == b && ctx.asWritten == asWritten
    && ctx.booked == intervals == AllReservations(operations)
    && StreamRun(b, asWritten, operations)
  }

  lemma StreamJobValid(b: Bundle, l: nat, k: nat, i: nat, anchor: int)
    requires ValidBundle(b) && l < |b.lines| && i < |OpsOf(b, l)| && SizeOf(b, l) >= 1 && k < CountOf(b, l)
    ensures ValidJob(StreamJob(b, l, k, i, anchor)) && StreamJob(b, l, k, i, anchor).op == OpsOf(b, l)[i]
  {
    OperationValid(b, l, i);
    assert ValidJob(BatchJob(b, l, i, anchor));
    assert b.lines[l] in b.lines;
    BatchQtyBounds(b.lines[l].qty, SizeOf(b, l), k);
  }

  lemma StreamPlacedStep(b: Bundle, asWritten: bool, h: seq<Placed>, l: nat, k: nat, i: nat, anchor: int, c: Choice)
    requires ValidBundle(b) && l < |b.lines| && i < |OpsOf(b, l)|
    requires MayStream(b, h, l, k, i, anchor)
    requires c.Picked? && PickedRight(ViewAfter(b, asWritten, h), StreamJob(b, l, k, i, anchor), c)
    ensures var x := StreamPlaced(b, h, l, k, i, anchor, c);
      && GreedyStep(b, asWritten, h, x) && StreamStep(b, h, x)
      && x.line == l && x.op == i && x.sid.opCode == OpsOf(b, l)[i].opCode && x.sid.batch == Some(k + 1)
      && (forall key :: key in KeysOf(x.combo) ==> EntryOf(b, key).Some?)
  {
    var x := StreamPlaced(b, h, l, k, i, anchor, c);
    StreamJobValid(b, l, k, i, anchor);
    PlacedIsGreedy(b, asWritten, h, l, i, StreamJob(b, l, k, i, anchor), c, x);
    CombosAreFitting(b, OpsOf(b, l)[i], c.combo);
    FittingEntries(b, OpsOf(b, l)[i], c.combo);
    hide GreedyStep, ValidBundle, StreamBounds, OperationBlocked, KeysOf, EntryOf, Combos, ComboFits, OpsOf;
  }

  lemma StreamPlacedRight(b: Bundle, asWritten: bool, h: seq<Placed>, x: Placed)
    requires ValidBundle(b) && StreamRun(b, asWritten, h)
    requires GreedyStep(b, asWritten, h, x) && StreamStep(b, h, x)
    ensures StreamRun(b, asWritten, h + [x]) && AllReservations(h + [x]) == AllReservations(h) + Reservations(x)
    ensures x.start <= x.end
  {
    var h' := h + [x];
    assert h'[..|h'| - 1] == h;
    hide ValidBundle, GreedyStep, StreamStep, StreamRun, Reservations;
    StreamRunAppend(b, asWritten, h, x);
    StreamRunIsGreedy(b, asWritten, h);
    RunReservationsProper(b, asWritten, h);
    StepSound(b, asWritten, h, x);
  }

  lemma StreamFailure(b: Bundle, asWritten: bool, h: seq<Placed>, l: nat, k: nat, i: nat, anchor: int, c: Choice)
    requires ValidBundle(b) && l < |b.lines| && i < |OpsOf(b, l)| && MayStream(b, h, l, k, i, anchor)
    requires StreamRun(b, asWritten, h)
    requires c.NoEligible? ==> Combos(b, OpsOf(b, l)[i]).None?
    requires c.InvalidYield? ==> !YieldRateOk(OpsOf(b, l)[i])
    requires c.NothingFeasible? ==> NoneFeasible(ViewAfter(b, asWritten, h), StreamJob(b, l, k, i, anchor))
    ensures c.NoEligible? ==> StreamFailureRight(b, asWritten, h, NoEligibleResource(l, i))
    ensures c.InvalidYield? ==> StreamFailureRight(b, asWritten, h, BadYieldRate(l, i))
    ensures c.NothingFeasible? ==> StreamFailureRight(b, asWritten, h, NoFeasibleWindow(l, i))
  {
    NoCombosIff(b, OpsOf(b, l)[i]);
  }

  /** Place batch k of operation i of line l. */
  method PlaceBatch(b: Bundle, asWritten: bool, ctx: RunContext, l: nat, k: nat, i: nat, anchor: int,
                    operations: seq<Placed>, intervals: seq<Interval>)
      returns (error: Option<Error>, operations': seq<Placed>, intervals': seq<Interval>)
    requires ValidBundle(b) && l < |b.lines| && i < |OpsOf(b, l)| && MayStream(b, operations, l, k, i, anchor)
    requires ctx.Valid() && StreamBooked(b, asWritten, ctx, operations, intervals)
    modifies ctx, ctx.Repr()
    ensures ctx.Valid() && fresh(ctx.Repr() - old(ctx.Repr()))
    ensures StreamBooked(b, asWritten, ctx, operations', intervals')
    ensures error.Some? ==> operations' == operations && StreamFailureRight(b, asWritten, operations, error.value)
    ensures error.None? ==> |operations'| == |operations| + 1 && operations' == operations + [operations'[|operations|]]
    ensures error.None? ==> operations'[|operations|].line == l && operations'[|operations|].op == i
    ensures error.None? ==> operations'[|operations|].sid.opCode == OpsOf(b, l)[i].opCode
    ensures error.None? ==> operations'[|operations|].sid.batch == Some(k + 1)
  {
    hide SizeOf, CountOf, RunContext.Valid, ValidBundle, OpsOf, MayStream, PickedRight, NoneFeasible,
      StreamFailureRight, StreamRun, Combos, GreedyStep, StreamStep,
      YieldRateOk, Reservations, AllReservations, KeysOf, EntryOf, StreamPlaced, StreamJob, ValidJob;
    operations', intervals' := operations, intervals;
    MayStreamBounds(b, operations, l, k, i, anchor);
    StreamJobValid(b, l, k, i, anchor);
    var job := StreamJob(b, l, k, i, anchor);
    var c := ctx.ChooseCombo(job);
    if c.Picked? {
      StreamPlacedStep(b, asWritten, operations, l, k, i, anchor, c);
      var x := StreamPlaced(b, operations, l, k, i, anchor, c);
      StreamPlacedRight(b, asWritten, operations, x);
      intervals' := ctx.ReserveAll(x, intervals);
      return None, operations + [x], intervals';
    }
    StreamFailure(b, asWritten, operations, l, k, i, anchor, c);
    error := Some(match c
                  case NoEligible => NoEligibleResource(l, i)
                  case InvalidYield => BadYieldRate(l, i)
                  case _ => NoFeasibleWindow(l, i));
  }

  lemma MayStreamBounds(b: Bundle, h: seq<Placed>, l: nat, k: nat, i: nat, anchor: int)
    requires ValidBundle(b) && l < |b.lines| && i < |OpsOf(b, l)| && MayStream(b, h, l, k, i, anchor)
    ensures SizeOf(b, l) >= 1 && k < CountOf(b, l)
  {
  }

  /** Is batch k of operation i blocked, and if not from which minute on may it be placed? */
  method InspectBatch(b: Bundle, operations: seq<Placed>, l: nat, k: nat, i: nat,
                      byKey: map<(nat, string), Sid>, previous: map<string, Sid>) returns (g: Gate)
    requires ValidBundle(b) && l < |b.lines| && i < |OpsOf(b, l)| && SizeOf(b, l) >= 1 && k < CountOf(b, l)
    requires KeysOk(operations, l, byKey, previous)
    ensures g.Opens? || g == Blocks(SupplyNotReady)
    ensures g.Opens? ==> MayStream(b, operations, l, k, i, g.anchor)
    ensures g.Blocks? ==> OperationBlocked(b, l, i)
  {
    var line, op := b.lines[l], OpsOf(b, l)[i];
    var preds := CollectPredecessors(operations, l, k, op, byKey, previous);
    var anchor := LatestEnd(operations, preds);
    var readyAnchor, blocker := SupplyReady(b.supply, line.lineId, op.opCode);
    if blocker.Some? {
      return Blocks(SupplyNotReady);
    }
    LatestOfBoth({0} + EndsById(operations, preds), Dates(b.supply, line.lineId, op.opCode), anchor, readyAnchor);
    if readyAnchor.Some? {
      anchor := Max(anchor, readyAnchor.value);
    }
    return Opens(anchor);
  }

  /** The two tables of the line in hand. */
  datatype Tables = Tables(byKey: map<(nat, string), Sid>, previous: map<string, Sid>)

  ghost predicate Streaming(b: Bundle, asWritten: bool, ctx: RunContext, operations: seq<Placed>,
                            intervals: seq<Interval>, blocks: seq<Block>, l: nat, k: nat, i: nat)
    reads ctx, ctx.Repr()
  {
    && ctx.Valid() && StreamBooked(b, asWritten, ctx, operations, intervals) && Covered(b, operations, blocks, l, k, i)
    && LinesUpTo(operations, l) && BatchBlocksOk(b, blocks)
  }

  /** One operation of one batch: block it, or place it. */
  method StreamTurn(b: Bundle, asWritten: bool, ctx: RunContext, l: nat, k: nat, i: nat, t: Tables,
                    operations: seq<Placed>, intervals: seq<Interval>, blocks: seq<Block>)
      returns (error: Option<Error>, t': Tables, operations': seq<Placed>, intervals': seq<Interval>,
        blocks': seq<Block>)
    requires ValidBundle(b) && l < |b.lines| && i < |OpsOf(b, l)| && SizeOf(b, l) >= 1 && k < CountOf(b, l)
    requires Streaming(b, asWritten, ctx, operations, intervals, blocks, l, k, i)
    requires KeysOk(operations, l, t.byKey, t.previous)
    modifies ctx, ctx.Repr()
    ensures fresh(ctx.Repr() - old(ctx.Repr()))
    ensures error.None? ==> Streaming(b, asWritten, ctx, operations', intervals', blocks', l, k, i + 1)
    ensures error.None? ==> KeysOk(operations', l, t'.byKey, t'.previous)
    ensures error.None? ==> if OperationBlocked(b, l, i) then
                              && operations' == operations && intervals' == intervals
                              && blocks' == blocks + [Block(l, i, Some(k), b.lines[l].lineId, OpsOf(b, l)[i].opCode,
                                 SupplyNotReady)]
                            else
                              && |operations'| == |operations| + 1
                                 && operations' == operations + [operations'[|operations|]]
                              && operations'[|operations|].line == l && operations'[|operations|].op == i
                              && operations'[|operations|].sid.batch == Some(k + 1)
                              && intervals' == intervals + Reservations(operations'[|operations|]) && blocks' == blocks
    ensures error.Some? ==>
              operations' == operations && blocks' == blocks
              && StreamFailureRight(b, asWritten, operations, error.value)
  {
    error, t', operations', intervals', blocks' := None, t, operations, intervals, blocks;
    hide RunContext.Valid, ValidBundle, StreamBooked, Covered, Reservations, StreamFailureRight, OpsOf, KeysOk,
      SizeOf, CountOf, MayStream, MissingFor, Blocked;
    BookedNow(b, asWritten, ctx, operations, intervals);
    var g := InspectBatch(b, operations, l, k, i, t.byKey, t.previous);
    if g.Blocks? {
      var x := Block(l, i, Some(k), b.lines[l].lineId, OpsOf(b, l)[i].opCode, SupplyNotReady);
      CoveredAfterBlock(b, operations, blocks, l, k, i, x);
      BlockedIff(b.supply, x.lineId, x.opCode);
      blocks' := blocks + [x];
      return;
    }
    error, operations', intervals' := PlaceBatch(b, asWritten, ctx, l, k, i, g.anchor, operations, intervals);
    if error.None? {
      var x := operations'[|operations|];
      NotBlocked(b, operations, l, k, i, g.anchor);
      CoveredAfterPlace(b, operations, blocks, l, k, i, x);
      KeysAfterPlace(operations, l, k, x, t.byKey, t.previous);
      BookedAfter(b, asWritten, ctx, operations, x, intervals');
      t' := Tables(t.byKey[(k, x.sid.opCode) := x.sid], t.previous[x.sid.opCode := x.sid]);
    }
  }

  lemma BookedNow(b: Bundle, asWritten: bool, ctx: RunContext, h: seq<Placed>, intervals: seq<Interval>)
    requires StreamBooked(b, asWritten, ctx, h, intervals)
    ensures intervals == AllReservations(h)
  {
  }

  lemma BookedAfter(b: Bundle, asWritten: bool, ctx: RunContext, h: seq<Placed>, x: Placed, intervals: seq<Interval>)
    requires StreamBooked(b, asWritten, ctx, h + [x], intervals)
    ensures intervals == AllReservations(h) + Reservations(x)
  {
    hide StreamRun, Reservations;
    assert (h + [x])[..|h + [x]| - 1] == h;
  }

  /** Scheduling by transfer batches: lines, then batches, then operations. */
  method ScheduleStreaming(b: Bundle, asWritten: bool) returns (r: Outcome, ghost run: seq<Placed>)
    requires ValidBundle(b)
    ensures r.Scheduled? ==> StreamScheduleRight(b, asWritten, r)
    ensures r.Failed? ==> StreamFailureRight(b, asWritten, run, r.error)
  {
    hide ValidBundle, Streaming, StreamScheduleRight, StreamFailureRight, OpsOf, KeysOk, SizeOf, CountOf;
    var ctx := OpenStream(b, asWritten);
    var operations, intervals, blocks := [], [], [];
    for l := 0 to |b.lines|
      invariant fresh(ctx.Repr()) && Streaming(b, asWritten, ctx, operations, intervals, blocks, l, 0, 0)
    {
      if SizeOf(b, l) == 0 {
        NoSize(b, asWritten, operations, l);
        return Failed(ZeroBatchSize(l)), operations;
      }
      LineUntouched(b, asWritten, ctx, operations, intervals, blocks, l);
      var t := Tables(map[], map[]);
      for k := 0 to CountOf(b, l)
        invariant fresh(ctx.Repr()) && Streaming(b, asWritten, ctx, operations, intervals, blocks, l, k, 0)
        invariant KeysOk(operations, l, t.byKey, t.previous)
      {
        for i := 0 to |OpsOf(b, l)|
          invariant fresh(ctx.Repr()) && Streaming(b, asWritten, ctx, operations, intervals, blocks, l, k, i)
          invariant KeysOk(operations, l, t.byKey, t.previous)
        {
          var error;
          error, t, operations, intervals, blocks :=
            StreamTurn(b, asWritten, ctx, l, k, i, t, operations, intervals, blocks);
          if error.Some? {
            return Failed(error.value), operations;
          }
        }
        NextBatch(b, asWritten, ctx, operations, intervals, blocks, l, k);
      }
      NextLine(b, asWritten, ctx, operations, intervals, blocks, l);
    }
    StreamDone(b, asWritten, ctx, operations, intervals, blocks);
    return Scheduled(operations, intervals, blocks), operations;
  }

  lemma NextBatch(b: Bundle, asWritten: bool, ctx: RunContext, h: seq<Placed>, intervals: seq<Interval>,
                  blocks: seq<Block>, l: nat, k: nat)
    requires ValidBundle(b) && l < |b.lines| && Streaming(b, asWritten, ctx, h, intervals, blocks, l, k, |OpsOf(b, l)|)
    ensures Streaming(b, asWritten, ctx, h, intervals, blocks, l, k + 1, 0)
  {
    hide RunContext.Valid, StreamBooked;
    CoveredNextBatch(b, h, blocks, l, k);
  }

  lemma NextLine(b: Bundle, asWritten: bool, ctx: RunContext, h: seq<Placed>, intervals: seq<Interval>,
                 blocks: seq<Block>, l: nat)
    requires ValidBundle(b) && l < |b.lines| && SizeOf(b, l) >= 1
    requires Streaming(b, asWritten, ctx, h, intervals, blocks, l, CountOf(b, l), 0)
    ensures Streaming(b, asWritten, ctx, h, intervals, blocks, l + 1, 0, 0)
  {
    hide RunContext.Valid, StreamBooked;
    CoveredNextLine(b, h, blocks, l);
  }

  method OpenStream(b: Bundle, asWritten: bool) returns (ctx: RunContext)
    requires ValidBundle(b)
    ensures fresh(ctx.Repr()) && Streaming(b, asWritten, ctx, [], [], [], 0, 0, 0)
  {
    ctx := new RunContext(b, asWritten);
    NothingCovered(b);
  }

  lemma NothingCovered(b: Bundle)
    requires ValidBundle(b)
    ensures Covered(b, [], [], 0, 0, 0)
  {
    if |b.lines| > 0 {
      assert Pairs(b, 0, 0, 0, false) == [] && Pairs(b, 0, 0, 0, true) == [];
    }
  }

  lemma NoSize(b: Bundle, asWritten: bool, h: seq<Placed>, l: nat)
    requires ValidBundle(b) && l < |b.lines| && SizeOf(b, l) == 0
    ensures StreamFailureRight(b, asWritten, h, ZeroBatchSize(l))
  {
    assert b.lines[l] in b.lines;
  }

  lemma NotBlocked(b: Bundle, h: seq<Placed>, l: nat, k: nat, i: nat, anchor: int)
    requires ValidBundle(b) && l < |b.lines| && i < |OpsOf(b, l)| && MayStream(b, h, l, k, i, anchor)
    ensures !OperationBlocked(b, l, i)
  {
  }

  lemma LineUntouched(b: Bundle, asWritten: bool, ctx: RunContext, h: seq<Placed>, intervals: seq<Interval>,
                      blocks: seq<Block>, l: nat)
    requires ValidBundle(b) && l < |b.lines| && Streaming(b, asWritten, ctx, h, intervals, blocks, l, 0, 0)
    ensures KeysOk(h, l, map[], map[])
  {
    hide RunContext.Valid;
    assert Pairs(b, l, 0, 0, false) == [];
    forall i | 0 <= i < |h|
      ensures h[i].line != l
    {
      Untouched(b, asWritten, h, l, i);
    }
    KeysFresh(h, l);
  }

  lemma StreamDone(b: Bundle, asWritten: bool, ctx: RunContext, h: seq<Placed>, intervals: seq<Interval>,
                   blocks: seq<Block>)
    requires ValidBundle(b) && Streaming(b, asWritten, ctx, h, intervals, blocks, |b.lines|, 0, 0)
    ensures StreamScheduleRight(b, asWritten, Scheduled(h, intervals, blocks))
  {
    hide RunContext.Valid;
  }
}

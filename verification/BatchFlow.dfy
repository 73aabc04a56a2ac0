/** The round-robin driver: every pass gives each order line one chance to place its next
    operation; a line whose supply is not ready is blocked from there on. */
module BatchFlow {
  import opened Minutes
  import opened Intervals
  import opened Bundle
  import opened Eligibility
  import opened Schedule
  import opened GreedyRuns
  import opened Context
  import opened Supply

  datatype Reason = SupplyNotReady | PredecessorBlocked

  datatype Block = Block(line: nat, op: nat, batch: Option<nat>, lineId: string, opCode: string, reason: Reason)

  /** The position of an operation: its order line and its place in the route's sequence. */
  datatype Error =
    | NoEligibleResource(line: nat, op: nat)
    | BadYieldRate(line: nat, op: nat)
    | NoFeasibleWindow(line: nat, op: nat)
    | ScheduleStuck(line: nat, op: nat)
    | ZeroBatchSize(line: nat)

  datatype Outcome =
    | Scheduled(operations: seq<Placed>, intervals: seq<Interval>, blocks: seq<Block>)
    | Failed(error: Error)

  // ---------------------------------------------------------- what a run is

  /** The operation of a line scheduled under a code, the newest if there are several. */
  function DoneAt(h: seq<Placed>, l: nat, code: string): Option<Placed> {
    if h == [] then None
    else
      var last := h[|h| - 1];
      if last.line == l && last.sid.opCode == code then Some(last) else DoneAt(h[..|h| - 1], l, code)
  }

  ghost predicate AllDone(h: seq<Placed>, l: nat, preds: seq<string>) {
    forall p :: p in preds ==> DoneAt(h, l, p).Some?
  }

  ghost function Ends(h: seq<Placed>, l: nat, preds: seq<string>): set<int> {
    set p | p in preds && DoneAt(h, l, p).Some? :: DoneAt(h, l, p).value.end
  }

  /** What the operation has to wait for: the epoch, its predecessors, its dated supply. */
  ghost function BatchBounds(b: Bundle, h: seq<Placed>, l: nat, op: Operation): set<int>
    requires l < |b.lines|
  {
    {0} + Ends(h, l, op.predecessors) + Dates(b.supply, b.lines[l].lineId, op.opCode)
  }

  function PredecessorSids(h: seq<Placed>, l: nat, preds: seq<string>): seq<Sid> {
    if preds == [] then []
    else
      (match DoneAt(h, l, preds[0]) case None => [] case Some(x) => [x.sid]) + PredecessorSids(h, l, preds[1..])
  }

  ghost predicate BatchStep(b: Bundle, h: seq<Placed>, x: Placed)
  {
    && x.line < |b.lines| && x.op < |OpsOf(b, x.line)|
    && var line, op := b.lines[x.line], OpsOf(b, x.line)[x.op];
       && AllDone(h, x.line, op.predecessors)
       && !Blocked(b.supply, line.lineId, op.opCode)
       && IsLatest(BatchBounds(b, h, x.line, op), x.anchor)
       && x.qty == line.qty
       && x.meta == OpMeta(line.productCode, op.setupFamily)
       && x.sid == Sid(line.lineId, op.opCode, op.sequenceNo, None)
       && x.predecessors == PredecessorSids(h, x.line, op.predecessors)
  }

  ghost predicate BatchAt(b: Bundle, asWritten: bool, h: seq<Placed>, i: nat)
    requires i < |h|
  {
    GreedyStep(b, asWritten, h[..i], h[i]) && BatchStep(b, h[..i], h[i])
  }

  /** Every operation of h was ready when placed, and placed greedily. */
  ghost predicate BatchRun(b: Bundle, asWritten: bool, h: seq<Placed>)
  {
    forall i :: 0 <= i < |h| ==> BatchAt(b, asWritten, h, i)
  }

  lemma BatchRunIsGreedy(b: Bundle, asWritten: bool, h: seq<Placed>)
    requires ValidBundle(b) && BatchRun(b, asWritten, h)
    ensures GreedyRun(b, asWritten, h)
  {
    hide GreedyStep, BatchStep, ValidBundle;
    forall i | 0 <= i < |h|
      ensures GreedyAt(b, asWritten, h, i)
    {
      assert BatchAt(b, asWritten, h, i);
    }
  }

  lemma BatchRunAppend(b: Bundle, asWritten: bool, h: seq<Placed>, x: Placed)
    requires ValidBundle(b) && BatchRun(b, asWritten, h)
    requires GreedyStep(b, asWritten, h, x) && BatchStep(b, h, x)
    ensures BatchRun(b, asWritten, h + [x])
  {
    hide GreedyStep, BatchStep, ValidBundle;
    var h' := h + [x];
    forall i | 0 <= i < |h'|
      ensures BatchAt(b, asWritten, h', i)
    {
      if i < |h| {
        assert BatchAt(b, asWritten, h, i);
        assert h'[..i] == h[..i];
      } else {
        assert h'[..i] == h;
      }
    }
  }

  // ------------------------------------------------------- who is where

  function Range(lo: int, hi: int): (r: seq<nat>)
    requires 0 <= lo <= hi
    ensures |r| == hi - lo && forall i :: 0 <= i < |r| ==> r[i] == lo + i
  {
    seq(hi - lo, i requires 0 <= i < hi - lo => lo + i)
  }

  /** The operations of line l in the schedule, as positions in the route's sequence. */
  function ScheduledOf(h: seq<Placed>, l: nat): seq<nat> {
    if h == [] then []
    else
      var last := h[|h| - 1];
      ScheduledOf(h[..|h| - 1], l) + (if last.line == l then [last.op] else [])
  }

  function BlockedOf(blocks: seq<Block>, l: nat): seq<nat> {
    if blocks == [] then []
    else
      var last := blocks[|blocks| - 1];
      BlockedOf(blocks[..|blocks| - 1], l) + (if last.line == l then [last.op] else [])
  }

  datatype Rec = Rec(next: nat, done: map<string, Placed>, blocked: bool)

  ghost predicate DoneOk(h: seq<Placed>, l: nat, done: map<string, Placed>) {
    forall code :: DoneAt(h, l, code) == if code in done then Some(done[code]) else None
  }

  /** Operation i of line l has a predecessor that no earlier operation of its route is. */
  ghost predicate IllOrdered(b: Bundle, l: nat, i: nat)
    requires l < |b.lines| && i < |OpsOf(b, l)|
  {
    exists p :: p in OpsOf(b, l)[i].predecessors && forall k :: 0 <= k < i ==> OpsOf(b, l)[k].opCode != p
  }

  /** Line l gets no further than operation i. */
  ghost predicate Stops(b: Bundle, l: nat, i: nat)
    requires l < |b.lines| && i < |OpsOf(b, l)|
  {
    Blocked(b.supply, b.lines[l].lineId, OpsOf(b, l)[i].opCode) || IllOrdered(b, l, i)
  }

  ghost predicate RecOk(b: Bundle, h: seq<Placed>, blocks: seq<Block>, rec: Rec, l: nat)
    requires l < |b.lines|
  {
    var n := |OpsOf(b, l)|;
    && DoneOk(h, l, rec.done)
    && (if rec.blocked then
          && ScheduledOf(h, l) + BlockedOf(blocks, l) == Range(0, n)
          && |ScheduledOf(h, l)| < n && Stops(b, l, |ScheduledOf(h, l)|)
        else rec.next <= n && ScheduledOf(h, l) == Range(0, rec.next) && BlockedOf(blocks, l) == [])
  }

  /** A block names an operation whose supply is missing, though its predecessors are done, or
      follows an earlier block of the same order line id. */
  ghost predicate BlockOk(b: Bundle, blocks: seq<Block>, n: nat)
    requires n < |blocks|
  {
    var x := blocks[n];
    && x.line < |b.lines| && x.op < |OpsOf(b, x.line)|
    && x.lineId == b.lines[x.line].lineId && x.opCode == OpsOf(b, x.line)[x.op].opCode && x.batch.None?
    && match x.reason
       case SupplyNotReady => Blocked(b.supply, x.lineId, x.opCode) && !IllOrdered(b, x.line, x.op)
       case PredecessorBlocked => exists m :: 0 <= m < n && blocks[m].lineId == x.lineId
  }

  ghost predicate BlocksOk(b: Bundle, blocks: seq<Block>)
  {
    forall n :: 0 <= n < |blocks| ==> BlockOk(b, blocks, n)
  }

  ghost predicate RecsOk(b: Bundle, h: seq<Placed>, blocks: seq<Block>, recs: seq<Rec>)
  {
    |recs| == |b.lines| && forall l :: 0 <= l < |recs| ==> RecOk(b, h, blocks, recs[l], l)
  }

  function Left(b: Bundle, rec: Rec, l: nat): nat
    requires l < |b.lines|
  {
    if rec.blocked || rec.next >= |OpsOf(b, l)| then 0 else |OpsOf(b, l)| - rec.next
  }

  /** Operations left on lines that are not blocked. */
  ghost function Remaining(b: Bundle, recs: seq<Rec>, n: nat): nat
    requires n <= |recs| == |b.lines|
  {
    if n == 0 then 0 else Remaining(b, recs, n - 1) + Left(b, recs[n - 1], n - 1)
  }

  lemma {:induction false} RemainingUpdate(b: Bundle, recs: seq<Rec>, l: nat, rec: Rec, n: nat)
    requires ValidBundle(b) && n <= |recs| == |b.lines| && l < |recs|
    ensures Remaining(b, recs[l := rec], n)
            == Remaining(b, recs, n) + (if l < n then Left(b, rec, l) - Left(b, recs[l], l) else 0)
  {
    if n > 0 {
      RemainingUpdate(b, recs, l, rec, n - 1);
    }
  }

  /** The line's next operation waits for a predecessor that is not scheduled. */
  ghost predicate Waiting(b: Bundle, rec: Rec, l: nat)
    requires l < |b.lines|
  {
    !rec.blocked && rec.next < |OpsOf(b, l)|
    && exists p :: p in OpsOf(b, l)[rec.next].predecessors && p !in rec.done
  }

  ghost predicate Settled(b: Bundle, rec: Rec, l: nat)
    requires l < |b.lines|
  {
    rec.blocked || rec.next >= |OpsOf(b, l)| || Waiting(b, rec, l)
  }

  // ------------------------------------------------------------ whose turn it is

  /** x is placed in an earlier round than y, or in the same round on an earlier line. */
  ghost predicate TurnBefore(x: Placed, y: Placed) {
    x.op < y.op || (x.op == y.op && x.line < y.line)
  }

  /** Operation n of every line that gets so far is placed before operation n + 1 of any. */
  ghost predicate RoundRobin(h: seq<Placed>) {
    forall i, j :: 0 <= i < j < |h| ==> TurnBefore(h[i], h[j])
  }

  /** In round r it is line l's turn: all that is placed was placed before, and every line
      that can still move stands at the operation of its next turn. */
  ghost predicate InRound(b: Bundle, h: seq<Placed>, recs: seq<Rec>, r: nat, l: nat)
    requires |recs| == |b.lines|
  {
    && RoundRobin(h)
    && (forall i :: 0 <= i < |h| ==> h[i].op < r || (h[i].op == r && h[i].line < l))
    && (forall k :: 0 <= k < |recs| && !Settled(b, recs[k], k) ==> recs[k].next == if k < l then r + 1 else r)
  }

  lemma RoundAfterPlace(b: Bundle, h: seq<Placed>, recs: seq<Rec>, r: nat, l: nat, x: Placed)
    requires l < |recs| == |b.lines| && InRound(b, h, recs, r, l) && !Settled(b, recs[l], l)
    requires x.line == l && x.op == recs[l].next
    ensures InRound(b, h + [x], recs[l := Rec(recs[l].next + 1, recs[l].done[x.sid.opCode := x], false)], r, l + 1)
  {
    hide Settled;
  }

  lemma RoundAfterBlock(b: Bundle, h: seq<Placed>, recs: seq<Rec>, r: nat, l: nat, rec: Rec)
    requires l < |recs| == |b.lines| && InRound(b, h, recs, r, l) && rec.blocked
    ensures InRound(b, h, recs[l := rec], r, l + 1)
  {
    assert Settled(b, rec, l);
    hide Settled;
  }

  lemma RoundAfterStay(b: Bundle, h: seq<Placed>, recs: seq<Rec>, r: nat, l: nat)
    requires l < |recs| == |b.lines| && InRound(b, h, recs, r, l) && Settled(b, recs[l], l)
    ensures InRound(b, h, recs, r, l + 1)
  {
    hide Settled;
  }

  lemma NextRound(b: Bundle, h: seq<Placed>, recs: seq<Rec>, r: nat)
    requires |recs| == |b.lines| && InRound(b, h, recs, r, |recs|)
    requires forall i :: 0 <= i < |h| ==> h[i].line < |recs|
    ensures InRound(b, h, recs, r + 1, 0)
  {
    hide Settled;
  }

  // ------------------------------------------------------------ bookkeeping

  lemma {:induction false} ScheduledMember(h: seq<Placed>, l: nat, k: nat)
    requires k in ScheduledOf(h, l)
    ensures exists i :: 0 <= i < |h| && h[i].line == l && h[i].op == k
  {
    if h[|h| - 1].line == l && h[|h| - 1].op == k {
    } else {
      ScheduledMember(h[..|h| - 1], l, k);
      var i :| 0 <= i < |h| - 1 && h[..|h| - 1][i].line == l && h[..|h| - 1][i].op == k;
      assert h[i].line == l && h[i].op == k;
    }
  }

  lemma {:induction false} DoneMember(h: seq<Placed>, l: nat, i: nat)
    requires i < |h| && h[i].line == l
    ensures DoneAt(h, l, h[i].sid.opCode).Some?
  {
    if i < |h| - 1 {
      DoneMember(h[..|h| - 1], l, i);
    }
  }

  lemma BatchRunAt(b: Bundle, asWritten: bool, h: seq<Placed>, i: nat)
    requires ValidBundle(b) && BatchRun(b, asWritten, h) && i < |h|
    ensures BatchRun(b, asWritten, h[..i]) && GreedyStep(b, asWritten, h[..i], h[i]) && BatchStep(b, h[..i], h[i])
  {
    hide GreedyStep, BatchStep, ValidBundle;
    assert BatchAt(b, asWritten, h, i);
    forall j | 0 <= j < i
      ensures BatchAt(b, asWritten, h[..i], j)
    {
      assert BatchAt(b, asWritten, h, j);
      assert h[..i][..j] == h[..j];
    }
  }

  /** A line that waits has an operation before one of its predecessors. */
  lemma WaitingIsIllOrdered(b: Bundle, asWritten: bool, h: seq<Placed>, blocks: seq<Block>, rec: Rec, l: nat)
    requires ValidBundle(b) && l < |b.lines| && BatchRun(b, asWritten, h)
    requires RecOk(b, h, blocks, rec, l) && Waiting(b, rec, l)
    ensures IllOrdered(b, l, rec.next)
  {
    var p :| p in OpsOf(b, l)[rec.next].predecessors && p !in rec.done;
    forall k | 0 <= k < rec.next
      ensures OpsOf(b, l)[k].opCode != p
    {
      assert ScheduledOf(h, l)[k] == k;
      ScheduledMember(h, l, k);
      var i :| 0 <= i < |h| && h[i].line == l && h[i].op == k;
      BatchRunAt(b, asWritten, h, i);
      DoneMember(h, l, i);
      assert h[i].sid.opCode == OpsOf(b, l)[k].opCode;
    }
  }

  lemma {:induction false} DoneIsEarlier(h: seq<Placed>, l: nat, code: string) returns (j: nat)
    requires DoneAt(h, l, code).Some?
    ensures j < |h| && h[j] == DoneAt(h, l, code).value && h[j].line == l && h[j].sid.opCode == code
  {
    j := |h| - 1;
    if !(h[j].line == l && h[j].sid.opCode == code) {
      j := DoneIsEarlier(h[..|h| - 1], l, code);
    }
  }

  lemma {:induction false} ScheduledHas(h: seq<Placed>, l: nat, j: nat)
    requires j < |h| && h[j].line == l
    ensures h[j].op in ScheduledOf(h, l)
  {
    if j < |h| - 1 {
      ScheduledHas(h[..|h| - 1], l, j);
    }
  }

  /** A line that does not wait has only earlier operations for predecessors. */
  lemma ReadyIsOrdered(b: Bundle, asWritten: bool, h: seq<Placed>, blocks: seq<Block>, rec: Rec, l: nat)
    requires ValidBundle(b) && l < |b.lines| && BatchRun(b, asWritten, h) && RecOk(b, h, blocks, rec, l)
    requires !rec.blocked && rec.next < |OpsOf(b, l)| && !Waiting(b, rec, l)
    ensures !IllOrdered(b, l, rec.next)
  {
    hide BatchRun, ValidBundle, OpsOf;
    forall p | p in OpsOf(b, l)[rec.next].predecessors
      ensures exists k :: 0 <= k < rec.next && OpsOf(b, l)[k].opCode == p
    {
      assert p in rec.done && DoneAt(h, l, p).Some?;
      var j := DoneIsEarlier(h, l, p);
      BatchRunAt(b, asWritten, h, j);
      ScheduledHas(h, l, j);
      assert OpsOf(b, l)[h[j].op].opCode == p;
    }
  }

  lemma RecAfterPlace(b: Bundle, h: seq<Placed>, blocks: seq<Block>, rec: Rec, l: nat, x: Placed)
    requires l < |b.lines| && RecOk(b, h, blocks, rec, l) && !rec.blocked && rec.next < |OpsOf(b, l)|
    requires x.line == l && x.op == rec.next
    ensures RecOk(b, h + [x], blocks, Rec(rec.next + 1, rec.done[x.sid.opCode := x], false), l)
  {
    hide OpsOf;
    assert (h + [x])[..|h + [x]| - 1] == h;
    assert ScheduledOf(h + [x], l) == Range(0, rec.next + 1);
  }

  lemma RecUntouched(b: Bundle, h: seq<Placed>, blocks: seq<Block>, rec: Rec, k: nat, x: Placed)
    requires k < |b.lines| && RecOk(b, h, blocks, rec, k) && x.line != k
    ensures RecOk(b, h + [x], blocks, rec, k)
  {
    hide OpsOf;
    assert (h + [x])[..|h + [x]| - 1] == h;
  }

  /** Placing the next operation of line l advances that line and leaves the others alone. */
  lemma RecsAfterPlace(b: Bundle, h: seq<Placed>, blocks: seq<Block>, recs: seq<Rec>, l: nat, x: Placed)
    requires RecsOk(b, h, blocks, recs) && l < |recs|
    requires !recs[l].blocked && recs[l].next < |OpsOf(b, l)| && x.line == l && x.op == recs[l].next
    ensures RecsOk(b, h + [x], blocks,
                   recs[l := Rec(recs[l].next + 1, recs[l].done[x.sid.opCode := x], false)])
  {
    hide RecOk, OpsOf;
    var recs' := recs[l := Rec(recs[l].next + 1, recs[l].done[x.sid.opCode := x], false)];
    forall k | 0 <= k < |recs'|
      ensures RecOk(b, h + [x], blocks, recs'[k], k)
    {
      assert RecOk(b, h, blocks, recs[k], k);
      if k == l {
        RecAfterPlace(b, h, blocks, recs[l], l, x);
      } else {
        RecUntouched(b, h, blocks, recs[k], k, x);
      }
    }
  }

  lemma RecsAfterBlock(b: Bundle, h: seq<Placed>, blocks: seq<Block>, blocks': seq<Block>, recs: seq<Rec>, l: nat)
    requires ValidBundle(b) && RecsOk(b, h, blocks, recs) && l < |recs|
    requires !recs[l].blocked && recs[l].next < |OpsOf(b, l)| && Stops(b, l, recs[l].next)
    requires BlockedOf(blocks', l) == Range(recs[l].next, |OpsOf(b, l)|)
    requires forall k :: 0 <= k < |recs| && k != l ==> BlockedOf(blocks', k) == BlockedOf(blocks, k)
    ensures RecsOk(b, h, blocks', recs[l := Rec(|OpsOf(b, l)| + 1, recs[l].done, true)])
  {
    var n := |OpsOf(b, l)|;
    assert RecOk(b, h, blocks, recs[l], l);
    assert Range(0, recs[l].next) + Range(recs[l].next, n) == Range(0, n);
    var recs' := recs[l := Rec(n + 1, recs[l].done, true)];
    forall k | 0 <= k < |recs'|
      ensures RecOk(b, h, blocks', recs'[k], k)
    {
      assert RecOk(b, h, blocks, recs[k], k);
    }
  }

  lemma BlocksOkAppend(b: Bundle, blocks: seq<Block>, x: Block)
    requires ValidBundle(b) && BlocksOk(b, blocks) && BlockOk(b, blocks + [x], |blocks|)
    ensures BlocksOk(b, blocks + [x])
  {
    forall n | 0 <= n < |blocks|
      ensures BlockOk(b, blocks + [x], n)
    {
      assert BlockOk(b, blocks, n);
      if blocks[n].reason == PredecessorBlocked {
        var m :| 0 <= m < n && blocks[m].lineId == blocks[n].lineId;
        assert (blocks + [x])[m].lineId == (blocks + [x])[n].lineId;
      }
    }
  }

  // ------------------------------------------------------------- the driver

  /** The blocks of operations `from` to `to` of line l: the first for its own reason, the
      others for the one before them. */
  function Cascade(b: Bundle, l: nat, from: nat, to: nat, reason: Reason): (blocks: seq<Block>)
    requires l < |b.lines| && from <= to <= |OpsOf(b, l)|
    ensures |blocks| == to - from
  {
    seq(to - from, k requires 0 <= k < to - from =>
      Block(l, from + k, None, b.lines[l].lineId, OpsOf(b, l)[from + k].opCode,
            if k == 0 then reason else PredecessorBlocked))
  }

  ghost predicate MayBlock(b: Bundle, l: nat, from: nat, reason: Reason, blocks: seq<Block>)
    requires l < |b.lines| && from < |OpsOf(b, l)|
  {
    match reason
    case SupplyNotReady => Blocked(b.supply, b.lines[l].lineId, OpsOf(b, l)[from].opCode) && !IllOrdered(b, l, from)
    case PredecessorBlocked => exists m :: 0 <= m < |blocks| && blocks[m].lineId == b.lines[l].lineId
  }

  lemma CascadeNext(b: Bundle, l: nat, from: nat, k: nat, reason: Reason, blocks: seq<Block>)
    requires ValidBundle(b) && l < |b.lines| && from <= k < |OpsOf(b, l)| && MayBlock(b, l, from, reason, blocks)
    requires BlocksOk(b, blocks + Cascade(b, l, from, k, reason))
    ensures var x := Block(l, k, None, b.lines[l].lineId, OpsOf(b, l)[k].opCode,
                          if k == from then reason else PredecessorBlocked);
      && Cascade(b, l, from, k + 1, reason) == Cascade(b, l, from, k, reason) + [x]
      && BlocksOk(b, blocks + Cascade(b, l, from, k, reason) + [x])
  {
    var out := blocks + Cascade(b, l, from, k, reason);
    var x := Block(l, k, None, b.lines[l].lineId, OpsOf(b, l)[k].opCode,
                   if k == from then reason else PredecessorBlocked);
    if k > from {
      assert (out + [x])[|out| - 1].lineId == x.lineId;
    } else if reason == PredecessorBlocked {
      var m :| 0 <= m < |blocks| && blocks[m].lineId == b.lines[l].lineId;
      assert (out + [x])[m].lineId == x.lineId;
    }
    hide ValidBundle, OpsOf, Blocked;
    BlocksOkAppend(b, out, x);
  }

  lemma BlockedAppend(blocks: seq<Block>, x: Block)
    ensures forall j :: BlockedOf(blocks + [x], j) == BlockedOf(blocks, j) + (if x.line == j then [x.op] else [])
  {
    assert (blocks + [x])[..|blocks + [x]| - 1] == blocks;
  }

  /** Block operation `from` of line l and every one after it. */
  method CascadeBlock(b: Bundle, l: nat, from: nat, reason: Reason, blocks: seq<Block>) returns (out: seq<Block>)
    requires ValidBundle(b) && l < |b.lines| && from < |OpsOf(b, l)| && BlocksOk(b, blocks)
    requires MayBlock(b, l, from, reason, blocks)
    ensures out == blocks + Cascade(b, l, from, |OpsOf(b, l)|, reason) && BlocksOk(b, out)
    ensures BlockedOf(out, l) == BlockedOf(blocks, l) + Range(from, |OpsOf(b, l)|)
    ensures forall k :: k != l ==> BlockedOf(out, k) == BlockedOf(blocks, k)
  {
    hide BlocksOk, BlockedOf, ValidBundle, OpsOf, MayBlock, Cascade;
    var ops := OpsOf(b, l);
    out := blocks;
    assert blocks + Cascade(b, l, from, from, reason) == blocks;
    for k := from to |ops|
      invariant out == blocks + Cascade(b, l, from, k, reason) && BlocksOk(b, out)
      invariant BlockedOf(out, l) == BlockedOf(blocks, l) + Range(from, k)
      invariant forall j :: j != l ==> BlockedOf(out, j) == BlockedOf(blocks, j)
    {
      var x := Block(l, k, None, b.lines[l].lineId, ops[k].opCode, if k == from then reason else PredecessorBlocked);
      CascadeNext(b, l, from, k, reason, blocks);
      BlockedAppend(out, x);
      out := out + [x];
      assert Range(from, k + 1) == Range(from, k) + [k];
    }
  }

  /** What a failure says about the input and the operations placed before it. */
  ghost predicate FailureRight(b: Bundle, asWritten: bool, run: seq<Placed>, error: Error)
  {
    if error.ZeroBatchSize? then false
    else
      && error.line < |b.lines| && error.op < |OpsOf(b, error.line)|
      && var line, op := b.lines[error.line], OpsOf(b, error.line)[error.op];
         match error
         case NoEligibleResource(_, _) => forall c :: !ComboFits(b, op, c)
         case BadYieldRate(_, _) => !YieldRateOk(op)
         case NoFeasibleWindow(l, _) =>
           && BatchRun(b, asWritten, run)
           && exists anchor :: IsLatest(BatchBounds(b, run, l, op), anchor)
                && NoneFeasible(ViewAfter(b, asWritten, run),
                                Job(op, OpMeta(line.productCode, op.setupFamily), line.qty, anchor))
         case ScheduleStuck(l, i) =>
           BatchRun(b, asWritten, run) && ScheduledOf(run, l) == Range(0, i) && IllOrdered(b, l, i)
  }

  datatype Progress = Moved | Stayed | Stopped(error: Error)

  method PredecessorEnd(ghost h: seq<Placed>, ghost l: nat, done: map<string, Placed>, preds: seq<string>)
    returns (anchor: int)
    requires DoneOk(h, l, done) && forall p :: p in preds ==> p in done
    ensures IsLatest({0} + Ends(h, l, preds), anchor)
  {
    anchor := 0;
    for i := 0 to |preds|
      invariant anchor in {0} + Ends(h, l, preds)
      invariant 0 <= anchor && forall k :: 0 <= k < i ==> done[preds[k]].end <= anchor
    {
      var p := preds[i];
      assert p in preds && DoneAt(h, l, p) == Some(done[p]);
      anchor := Max(anchor, done[p].end);
    }
    forall d | d in Ends(h, l, preds)
      ensures d <= anchor
    {
      var p :| p in preds && DoneAt(h, l, p).Some? && DoneAt(h, l, p).value.end == d;
      var k :| 0 <= k < |preds| && preds[k] == p;
      assert done[preds[k]].end == d;
    }
  }

  lemma LatestOfBoth(xs: set<int>, ys: set<int>, x: int, y: Option<int>)
    requires IsLatest(xs, x) && (y.None? ==> ys == {}) && (y.Some? ==> IsLatest(ys, y.value))
    ensures IsLatest(xs + ys, if y.None? then x else Max(x, y.value))
  {
  }

  ghost predicate Booked(b: Bundle, asWritten: bool, ctx: RunContext, operations: seq<Placed>, intervals: seq<Interval>)
    reads ctx
  {
    ctx.b == b && ctx.asWritten == asWritten && ctx.booked == intervals == AllReservations(operations)
    && BatchRun(b, asWritten, operations)
  }

  lemma PlacedIsGreedy(b: Bundle, asWritten: bool, h: seq<Placed>, l: nat, i: nat, job: Job, c: Choice, x: Placed)
    requires ValidBundle(b) && l < |b.lines| && i < |OpsOf(b, l)| && job.op == OpsOf(b, l)[i]
    requires c.Picked? && PickedRight(ViewAfter(b, asWritten, h), job, c)
    requires x.line == l && x.op == i && x.meta == job.meta && x.qty == job.qty && x.anchor == job.anchor
    requires x.combo == c.combo && x.setup == c.setup && x.processing == c.processing && x.start == c.start
             && x.end == c.end
    ensures GreedyStep(b, asWritten, h, x)
  {
    hide BestOf, Combos, SetupFor, ProcessingMinutes, ValidBundle, OpsOf;
  }

  lemma OperationValid(b: Bundle, l: nat, i: nat)
    requires ValidBundle(b) && l < |b.lines| && i < |OpsOf(b, l)|
    ensures forall anchor :: ValidJob(BatchJob(b, l, i, anchor))
  {
    InSequenceOfRoute(b.routes[b.lines[l].productCode].operations, OpsOf(b, l)[i]);
    assert b.lines[l] in b.lines;
  }

  /** The job of operation i of line l, once its anchor is known. */
  function BatchJob(b: Bundle, l: nat, i: nat, anchor: int): Job
    requires l < |b.lines| && i < |OpsOf(b, l)|
  {
    var line, op := b.lines[l], OpsOf(b, l)[i];
    Job(op, OpMeta(line.productCode, op.setupFamily), line.qty, anchor)
  }

  ghost predicate MayStart(b: Bundle, h: seq<Placed>, l: nat, i: nat, anchor: int)
    requires l < |b.lines| && i < |OpsOf(b, l)|
  {
    var op := OpsOf(b, l)[i];
    && AllDone(h, l, op.predecessors)
    && !Blocked(b.supply, b.lines[l].lineId, op.opCode)
    && IsLatest(BatchBounds(b, h, l, op), anchor)
  }

  function BatchPlaced(b: Bundle, h: seq<Placed>, l: nat, i: nat, anchor: int, c: Choice): Placed
    requires l < |b.lines| && i < |OpsOf(b, l)| && c.Picked?
  {
    var line, op := b.lines[l], OpsOf(b, l)[i];
    Placed(l, i, Sid(line.lineId, op.opCode, op.sequenceNo, None), OpMeta(line.productCode, op.setupFamily),
           PredecessorSids(h, l, op.predecessors), line.qty, anchor, c.combo, c.setup, c.processing, c.start, c.end)
  }

  lemma BatchPlacedRight(b: Bundle, asWritten: bool, h: seq<Placed>, l: nat, i: nat, anchor: int, c: Choice)
    requires ValidBundle(b) && l < |b.lines| && i < |OpsOf(b, l)| && BatchRun(b, asWritten, h)
    requires MayStart(b, h, l, i, anchor)
    requires c.Picked? && PickedRight(ViewAfter(b, asWritten, h), BatchJob(b, l, i, anchor), c)
    ensures var x := BatchPlaced(b, h, l, i, anchor, c);
      && BatchRun(b, asWritten, h + [x]) && AllReservations(h + [x]) == AllReservations(h) + Reservations(x)
      && x.start <= x.end && (forall key :: key in KeysOf(x.combo) ==> EntryOf(b, key).Some?)
      && x.line == l && x.op == i && x.sid.opCode == OpsOf(b, l)[i].opCode
  {
    var x := BatchPlaced(b, h, l, i, anchor, c);
    var h' := h + [x];
    assert h'[..|h'| - 1] == h;
    PlacedIsGreedy(b, asWritten, h, l, i, BatchJob(b, l, i, anchor), c, x);
    BatchRunIsGreedy(b, asWritten, h);
    RunReservationsProper(b, asWritten, h);
    StepSound(b, asWritten, h, x);
    CombosAreFitting(b, OpsOf(b, l)[i], c.combo);
    FittingEntries(b, OpsOf(b, l)[i], c.combo);
    hide Reservations, GreedyStep, ValidBundle, BatchRun, BatchBounds, AllDone, Blocked, KeysOf, EntryOf;
    BatchRunAppend(b, asWritten, h, x);
  }

  /** Whether operation i of line l may be placed now, and from which minute on. */
  datatype Gate = Waits | Blocks(reason: Reason) | Opens(anchor: int)

  method Inspect(b: Bundle, ghost h: seq<Placed>, l: nat, rec: Rec, blocks: seq<Block>) returns (g: Gate)
    requires ValidBundle(b) && l < |b.lines| && !rec.blocked && rec.next < |OpsOf(b, l)|
    requires DoneOk(h, l, rec.done)
    ensures g.Waits? ==> Waiting(b, rec, l)
    ensures g.Opens? ==> MayStart(b, h, l, rec.next, g.anchor)
    ensures g == Blocks(SupplyNotReady) ==>
              Blocked(b.supply, b.lines[l].lineId, OpsOf(b, l)[rec.next].opCode) && !Waiting(b, rec, l)
    ensures g == Blocks(PredecessorBlocked) ==> Waiting(b, rec, l)
    ensures g == Blocks(PredecessorBlocked) ==> exists m :: 0 <= m < |blocks| && blocks[m].lineId == b.lines[l].lineId
  {
    var line, op := b.lines[l], OpsOf(b, l)[rec.next];
    if exists q :: q in op.predecessors && q !in rec.done {
      if exists q :: q in op.predecessors && q !in rec.done && BlockedUnder(blocks, line.lineId, q) {
        return Blocks(PredecessorBlocked);
      }
      return Waits;
    }
    var anchor := PredecessorEnd(h, l, rec.done, op.predecessors);
    var readyAnchor, blocker := SupplyReady(b.supply, line.lineId, op.opCode);
    if blocker.Some? {
      return Blocks(SupplyNotReady);
    }
    LatestOfBoth({0} + Ends(h, l, op.predecessors), Dates(b.supply, line.lineId, op.opCode), anchor, readyAnchor);
    if readyAnchor.Some? {
      anchor := Max(anchor, readyAnchor.value);
    }
    return Opens(anchor);
  }

  predicate BlockedUnder(blocks: seq<Block>, lineId: string, code: string) {
    exists m :: 0 <= m < |blocks| && blocks[m].lineId == lineId && blocks[m].opCode == code
  }

  /** Place operation i of line l: choose the combination, reserve it, report it. */
  method PlaceNext(b: Bundle, asWritten: bool, ctx: RunContext, l: nat, i: nat, anchor: int,
                   operations: seq<Placed>, intervals: seq<Interval>)
      returns (error: Option<Error>, operations': seq<Placed>, intervals': seq<Interval>)
    requires ValidBundle(b) && l < |b.lines| && i < |OpsOf(b, l)| && MayStart(b, operations, l, i, anchor)
    requires ctx.Valid() && Booked(b, asWritten, ctx, operations, intervals)
    modifies ctx, ctx.Repr()
    ensures ctx.Valid() && fresh(ctx.Repr() - old(ctx.Repr())) && Booked(b, asWritten, ctx, operations', intervals')
    ensures error.Some? ==> operations' == operations && FailureRight(b, asWritten, operations, error.value)
    ensures error.None? ==> |operations'| == |operations| + 1 && operations' == operations + [operations'[|operations|]]
    ensures error.None? ==> operations'[|operations|].line == l && operations'[|operations|].op == i
    ensures error.None? ==> operations'[|operations|].sid.opCode == OpsOf(b, l)[i].opCode
  {
    hide RunContext.Valid, ValidBundle, OpsOf, MayStart, PickedRight, NoneFeasible, FailureRight, BatchRun, Combos,
      YieldRateOk, Reservations, AllReservations, KeysOf, EntryOf, BatchPlaced, BatchJob, ValidJob;
    operations', intervals' := operations, intervals;
    var job := BatchJob(b, l, i, anchor);
    OperationValid(b, l, i);
    JobOperation(b, l, i, anchor);
    var c := ctx.ChooseCombo(job);
    if c.Picked? {
      BatchPlacedRight(b, asWritten, operations, l, i, anchor, c);
      var x := BatchPlaced(b, operations, l, i, anchor, c);
      intervals' := ctx.ReserveAll(x, intervals);
      return None, operations + [x], intervals';
    }
    PlaceFailureRight(b, asWritten, operations, l, i, anchor, c);
    error := Some(match c
                  case NoEligible => NoEligibleResource(l, i)
                  case InvalidYield => BadYieldRate(l, i)
                  case _ => NoFeasibleWindow(l, i));
  }

  lemma JobOperation(b: Bundle, l: nat, i: nat, anchor: int)
    requires ValidBundle(b) && l < |b.lines| && i < |OpsOf(b, l)|
    ensures BatchJob(b, l, i, anchor).op == OpsOf(b, l)[i]
  {
  }

  lemma PlaceFailureRight(b: Bundle, asWritten: bool, h: seq<Placed>, l: nat, i: nat, anchor: int, c: Choice)
    requires ValidBundle(b) && l < |b.lines| && i < |OpsOf(b, l)| && MayStart(b, h, l, i, anchor)
    requires BatchRun(b, asWritten, h)
    requires c.NoEligible? ==> Combos(b, OpsOf(b, l)[i]).None?
    requires c.InvalidYield? ==> !YieldRateOk(OpsOf(b, l)[i])
    requires c.NothingFeasible? ==> NoneFeasible(ViewAfter(b, asWritten, h), BatchJob(b, l, i, anchor))
    ensures c.NoEligible? ==> FailureRight(b, asWritten, h, NoEligibleResource(l, i))
    ensures c.InvalidYield? ==> FailureRight(b, asWritten, h, BadYieldRate(l, i))
    ensures c.NothingFeasible? ==> FailureRight(b, asWritten, h, NoFeasibleWindow(l, i))
  {
    NoCombosIff(b, OpsOf(b, l)[i]);
  }

  lemma PlaceAdvances(b: Bundle, h: seq<Placed>, blocks: seq<Block>, recs: seq<Rec>, l: nat, x: Placed)
    requires ValidBundle(b) && RecsOk(b, h, blocks, recs) && l < |recs|
    requires !recs[l].blocked && recs[l].next < |OpsOf(b, l)| && x.line == l && x.op == recs[l].next
    ensures var recs' := recs[l := Rec(recs[l].next + 1, recs[l].done[x.sid.opCode := x], false)];
      && RecsOk(b, h + [x], blocks, recs')
      && Remaining(b, recs', |recs|) < Remaining(b, recs, |recs|)
  {
    RecsAfterPlace(b, h, blocks, recs, l, x);
    RemainingUpdate(b, recs, l, Rec(recs[l].next + 1, recs[l].done[x.sid.opCode := x], false), |recs|);
  }

  lemma BlockAdvances(b: Bundle, h: seq<Placed>, blocks: seq<Block>, blocks': seq<Block>, recs: seq<Rec>, l: nat)
    requires ValidBundle(b) && RecsOk(b, h, blocks, recs) && l < |recs|
    requires !recs[l].blocked && recs[l].next < |OpsOf(b, l)| && Stops(b, l, recs[l].next)
    requires BlockedOf(blocks', l) == BlockedOf(blocks, l) + Range(recs[l].next, |OpsOf(b, l)|)
    requires forall k :: k != l ==> BlockedOf(blocks', k) == BlockedOf(blocks, k)
    ensures var recs' := recs[l := Rec(|OpsOf(b, l)| + 1, recs[l].done, true)];
      && RecsOk(b, h, blocks', recs')
      && Remaining(b, recs', |recs|) < Remaining(b, recs, |recs|)
  {
    assert RecOk(b, h, blocks, recs[l], l);
    RecsAfterBlock(b, h, blocks, blocks', recs, l);
    RemainingUpdate(b, recs, l, Rec(|OpsOf(b, l)| + 1, recs[l].done, true), |recs|);
  }

  /** Everything the driver keeps between turns. */
  ghost predicate Consistent(b: Bundle, asWritten: bool, ctx: RunContext, operations: seq<Placed>,
                             intervals: seq<Interval>, blocks: seq<Block>, recs: seq<Rec>)
    reads ctx, ctx.Repr()
  {
    && ctx.Valid() && Booked(b, asWritten, ctx, operations, intervals)
    && RecsOk(b, operations, blocks, recs) && BlocksOk(b, blocks)
  }

  lemma RecAt(b: Bundle, h: seq<Placed>, blocks: seq<Block>, recs: seq<Rec>, l: nat)
    requires ValidBundle(b) && RecsOk(b, h, blocks, recs) && l < |recs|
    ensures |recs| == |b.lines| && RecOk(b, h, blocks, recs[l], l) && DoneOk(h, l, recs[l].done)
  {
    assert RecOk(b, h, blocks, recs[l], l);
  }

  lemma SettledWhen(b: Bundle, rec: Rec, l: nat)
    requires ValidBundle(b) && l < |b.lines|
    ensures rec.blocked || rec.next >= |OpsOf(b, l)| || Waiting(b, rec, l) ==> Settled(b, rec, l)
  {
  }

  /** What a turn of line l that moves does: place its next operation, or block the rest of
      it; all else stays. */
  ghost predicate TurnMoves(b: Bundle, l: nat, recs: seq<Rec>, operations: seq<Placed>, blocks: seq<Block>,
                            recs': seq<Rec>, operations': seq<Placed>, blocks': seq<Block>)
    requires l < |recs| == |b.lines|
  {
    || (&& |operations'| == |operations| + 1 && operations' == operations + [operations'[|operations|]]
        && blocks' == blocks
        && var x := operations'[|operations|];
           && x.line == l && x.op == recs[l].next && !Settled(b, recs[l], l)
           && recs' == recs[l := Rec(recs[l].next + 1, recs[l].done[x.sid.opCode := x], false)])
    || (&& operations' == operations && recs[l].next < |OpsOf(b, l)|
        && recs' == recs[l := Rec(|OpsOf(b, l)| + 1, recs[l].done, true)]
        && exists reason :: blocks' == blocks + Cascade(b, l, recs[l].next, |OpsOf(b, l)|, reason))
  }

  lemma NotWaiting(b: Bundle, h: seq<Placed>, rec: Rec, l: nat, anchor: int)
    requires l < |b.lines| && !rec.blocked && rec.next < |OpsOf(b, l)| && DoneOk(h, l, rec.done)
    requires MayStart(b, h, l, rec.next, anchor)
    ensures !Settled(b, rec, l)
  {
    forall p | p in OpsOf(b, l)[rec.next].predecessors
      ensures p in rec.done
    {
      assert DoneAt(h, l, p).Some?;
    }
  }

  lemma StopsAt(b: Bundle, asWritten: bool, h: seq<Placed>, blocks: seq<Block>, rec: Rec, l: nat, reason: Reason)
    requires ValidBundle(b) && l < |b.lines| && BatchRun(b, asWritten, h) && RecOk(b, h, blocks, rec, l)
    requires !rec.blocked && rec.next < |OpsOf(b, l)|
    requires match reason
      case SupplyNotReady => Blocked(b.supply, b.lines[l].lineId, OpsOf(b, l)[rec.next].opCode) && !Waiting(b, rec, l)
      case PredecessorBlocked => Waiting(b, rec, l)
    ensures Stops(b, l, rec.next) && (reason == SupplyNotReady ==> !IllOrdered(b, l, rec.next))
  {
    hide RecOk, BatchRun, Waiting, OpsOf, ValidBundle;
    if reason == PredecessorBlocked {
      WaitingIsIllOrdered(b, asWritten, h, blocks, rec, l);
    } else {
      ReadyIsOrdered(b, asWritten, h, blocks, rec, l);
    }
  }

  /** One turn of one order line: wait, block, or place its next operation. */
  method Turn(b: Bundle, asWritten: bool, ctx: RunContext, l: nat, recs: seq<Rec>,
              operations: seq<Placed>, intervals: seq<Interval>, blocks: seq<Block>)
      returns (p: Progress, recs': seq<Rec>, operations': seq<Placed>, intervals': seq<Interval>, blocks': seq<Block>)
    requires ValidBundle(b) && l < |recs| == |b.lines|
    requires Consistent(b, asWritten, ctx, operations, intervals, blocks, recs)
    modifies ctx, ctx.Repr()
    ensures fresh(ctx.Repr() - old(ctx.Repr())) && |recs'| == |recs|
    ensures Consistent(b, asWritten, ctx, operations', intervals', blocks', recs')
    ensures !p.Moved? ==> recs' == recs && operations' == operations && intervals' == intervals && blocks' == blocks
    ensures p.Stayed? ==> Settled(b, recs[l], l)
    ensures p.Moved? ==> TurnMoves(b, l, recs, operations, blocks, recs', operations', blocks')
    ensures p.Moved? ==> Remaining(b, recs', |recs|) < Remaining(b, recs, |recs|)
    ensures p.Stopped? ==> FailureRight(b, asWritten, operations, p.error)
  {
    recs', operations', intervals', blocks' := recs, operations, intervals, blocks;
    hide RunContext.Valid, ValidBundle, OpsOf, RecOk, RecsOk, DoneOk, BlocksOk, FailureRight, Settled, Remaining,
      MayStart, Waiting, BlockedOf, Blocked, Stops, BatchRun, Cascade;
    RecAt(b, operations, blocks, recs, l);
    SettledWhen(b, recs[l], l);
    var rec := recs[l];
    var n := |OpsOf(b, l)|;
    if rec.blocked || rec.next >= n {
      return Stayed, recs', operations', intervals', blocks';
    }
    var gate := Inspect(b, operations, l, rec, blocks);
    match gate {
      case Waits =>
        p := Stayed;
      case Blocks(reason) =>
        StopsAt(b, asWritten, operations, blocks, rec, l, reason);
        blocks' := CascadeBlock(b, l, rec.next, reason, blocks);
        BlockAdvances(b, operations, blocks, blocks', recs, l);
        recs' := recs[l := Rec(n + 1, rec.done, true)];
        p := Moved;
      case Opens(anchor) =>
        var error;
        error, operations', intervals' := PlaceNext(b, asWritten, ctx, l, rec.next, anchor, operations, intervals);
        if error.Some? {
          p := Stopped(error.value);
        } else {
          var x := operations'[|operations|];
          NotWaiting(b, operations, rec, l, anchor);
          PlaceAdvances(b, operations, blocks, recs, l, x);
          recs' := recs[l := Rec(rec.next + 1, rec.done[x.sid.opCode := x], false)];
          p := Moved;
        }
    }
  }

  ghost predicate AllSettled(b: Bundle, recs: seq<Rec>, n: nat)
    requires n <= |recs| == |b.lines|
  {
    forall l :: 0 <= l < n ==> Settled(b, recs[l], l)
  }

  /** Each operation of each line is scheduled or blocked, once, the scheduled ones first. */
  ghost predicate Partitioned(b: Bundle, h: seq<Placed>, blocks: seq<Block>)
  {
    forall l :: 0 <= l < |b.lines| ==> ScheduledOf(h, l) + BlockedOf(blocks, l) == Range(0, |OpsOf(b, l)|)
  }

  /** A line that is not scheduled to its end stops at an operation it cannot pass. */
  ghost predicate StopsRight(b: Bundle, h: seq<Placed>)
  {
    forall l :: 0 <= l < |b.lines| && |ScheduledOf(h, l)| < |OpsOf(b, l)| ==> Stops(b, l, |ScheduledOf(h, l)|)
  }

  ghost predicate ScheduleRight(b: Bundle, asWritten: bool, r: Outcome)
    requires r.Scheduled?
  {
    && BatchRun(b, asWritten, r.operations)
    && r.intervals == AllReservations(r.operations)
    && RoundRobin(r.operations)
    && Partitioned(b, r.operations, r.blocks) && StopsRight(b, r.operations)
    && BlocksOk(b, r.blocks)
  }

  lemma FinishedIsRight(b: Bundle, asWritten: bool, h: seq<Placed>, intervals: seq<Interval>, blocks: seq<Block>,
                        recs: seq<Rec>)
    requires ValidBundle(b) && RecsOk(b, h, blocks, recs) && BlocksOk(b, blocks)
    requires BatchRun(b, asWritten, h) && intervals == AllReservations(h) && RoundRobin(h)
    requires forall l :: 0 <= l < |recs| ==> recs[l].blocked || recs[l].next >= |OpsOf(b, l)|
    ensures ScheduleRight(b, asWritten, Scheduled(h, intervals, blocks))
  {
    hide OpsOf, Stops, RoundRobin, BatchRun;
    forall l | 0 <= l < |b.lines|
      ensures ScheduledOf(h, l) + BlockedOf(blocks, l) == Range(0, |OpsOf(b, l)|)
      ensures |ScheduledOf(h, l)| < |OpsOf(b, l)| ==> Stops(b, l, |ScheduledOf(h, l)|)
    {
      assert RecOk(b, h, blocks, recs[l], l);
    }
  }

  lemma StuckIsIllOrdered(b: Bundle, asWritten: bool, h: seq<Placed>, blocks: seq<Block>, recs: seq<Rec>, l: nat)
    requires ValidBundle(b) && RecsOk(b, h, blocks, recs) && BatchRun(b, asWritten, h)
    requires l < |recs| && AllSettled(b, recs, |recs|) && !recs[l].blocked && recs[l].next < |OpsOf(b, l)|
    ensures FailureRight(b, asWritten, h, ScheduleStuck(l, recs[l].next))
  {
    assert Settled(b, recs[l], l) && RecOk(b, h, blocks, recs[l], l);
    WaitingIsIllOrdered(b, asWritten, h, blocks, recs[l], l);
  }

  lemma ConsistentParts(b: Bundle, asWritten: bool, ctx: RunContext, operations: seq<Placed>, intervals: seq<Interval>,
                        blocks: seq<Block>, recs: seq<Rec>)
    requires ValidBundle(b) && Consistent(b, asWritten, ctx, operations, intervals, blocks, recs)
    ensures BatchRun(b, asWritten, operations) && intervals == AllReservations(operations)
    ensures RecsOk(b, operations, blocks, recs) && BlocksOk(b, blocks)
  {
  }

  method Open(b: Bundle, asWritten: bool) returns (ctx: RunContext, recs: seq<Rec>)
    requires ValidBundle(b)
    ensures fresh(ctx.Repr()) && |recs| == |b.lines| && Consistent(b, asWritten, ctx, [], [], [], recs)
    ensures forall k :: 0 <= k < |recs| ==> recs[k].next == 0
  {
    ctx := new RunContext(b, asWritten);
    recs := seq(|b.lines|, i requires 0 <= i < |b.lines| => Rec(0, map[], false));
  }

  lemma NoneSettled(b: Bundle, recs: seq<Rec>)
    requires ValidBundle(b) && |recs| == |b.lines|
    ensures AllSettled(b, recs, 0)
  {
  }

  lemma OneMoreSettled(b: Bundle, recs: seq<Rec>, l: nat, progress: bool)
    requires ValidBundle(b) && l < |recs| == |b.lines| && (progress || AllSettled(b, recs, l)) && Settled(b, recs[l], l)
    ensures progress || AllSettled(b, recs, l + 1)
  {
  }

  /** Nothing moves any more: the schedule is complete, or some line is stuck. */
  method Finish(b: Bundle, asWritten: bool, ghost ctx: RunContext, recs: seq<Rec>, operations: seq<Placed>,
                intervals: seq<Interval>, blocks: seq<Block>)
      returns (r: Outcome)
    requires ValidBundle(b) && |recs| == |b.lines|
    requires Consistent(b, asWritten, ctx, operations, intervals, blocks, recs) && AllSettled(b, recs, |recs|)
    requires RoundRobin(operations)
    ensures r.Scheduled? ==> ScheduleRight(b, asWritten, r)
    ensures r.Failed? ==> FailureRight(b, asWritten, operations, r.error)
  {
    hide Consistent, Booked, BatchRun, RecsOk, FailureRight, Settled, AllSettled, IllOrdered, ScheduleRight, RoundRobin;
    ConsistentParts(b, asWritten, ctx, operations, intervals, blocks, recs);
    for l := 0 to |recs|
      invariant forall k :: 0 <= k < l ==> recs[k].blocked || recs[k].next >= |OpsOf(b, k)|
    {
      if !recs[l].blocked && recs[l].next < |OpsOf(b, l)| {
        StuckIsIllOrdered(b, asWritten, operations, blocks, recs, l);
        return Failed(ScheduleStuck(l, recs[l].next));
      }
    }
    FinishedIsRight(b, asWritten, operations, intervals, blocks, recs);
    return Scheduled(operations, intervals, blocks);
  }

  /** A turn of line l keeps the rounds, whatever it did. */
  lemma RoundAfterTurn(b: Bundle, r: nat, l: nat, p: Progress, recs: seq<Rec>, operations: seq<Placed>,
                       blocks: seq<Block>, recs': seq<Rec>, operations': seq<Placed>, blocks': seq<Block>)
    requires l < |recs| == |b.lines| && InRound(b, operations, recs, r, l)
    requires p.Stayed? ==> recs' == recs && operations' == operations && Settled(b, recs[l], l)
    requires p.Moved? ==> TurnMoves(b, l, recs, operations, blocks, recs', operations', blocks')
    requires p.Moved? || p.Stayed?
    ensures |recs'| == |b.lines| && InRound(b, operations', recs', r, l + 1)
  {
    hide InRound, Settled, Cascade, OpsOf;
    if p.Stayed? {
      RoundAfterStay(b, operations, recs, r, l);
    } else if operations' == operations {
      RoundAfterBlock(b, operations, recs, r, l, recs'[l]);
    } else {
      RoundAfterPlace(b, operations, recs, r, l, operations'[|operations|]);
    }
  }

  lemma RoundStart(b: Bundle, recs: seq<Rec>)
    requires |recs| == |b.lines| && forall k :: 0 <= k < |recs| ==> recs[k].next == 0
    ensures InRound(b, [], recs, 0, 0)
  {
  }

  lemma RoundParts(b: Bundle, h: seq<Placed>, recs: seq<Rec>, r: nat, l: nat)
    requires |recs| == |b.lines| && InRound(b, h, recs, r, l)
    ensures RoundRobin(h)
  {
  }

  lemma RoundOver(b: Bundle, asWritten: bool, ctx: RunContext, h: seq<Placed>, intervals: seq<Interval>,
                  blocks: seq<Block>, recs: seq<Rec>, r: nat)
    requires ValidBundle(b) && |recs| == |b.lines| && Consistent(b, asWritten, ctx, h, intervals, blocks, recs)
    requires InRound(b, h, recs, r, |recs|)
    ensures InRound(b, h, recs, r + 1, 0)
  {
    hide InRound, RunContext.Valid, RecsOk, BlocksOk, ValidBundle, BatchRun;
    forall i | 0 <= i < |h|
      ensures h[i].line < |recs|
    {
      BatchRunAt(b, asWritten, h, i);
    }
    NextRound(b, h, recs, r);
  }

  /** Batch scheduling of all order lines. A failure comes with the operations placed before
      it, `run`. */
  method ScheduleBatch(b: Bundle, asWritten: bool) returns (r: Outcome, ghost run: seq<Placed>)
    requires ValidBundle(b)
    ensures r.Scheduled? ==> ScheduleRight(b, asWritten, r)
    ensures r.Failed? ==> FailureRight(b, asWritten, run, r.error) && RoundRobin(run)
  {
    hide Consistent, ValidBundle, OpsOf, FailureRight, ScheduleRight, Settled, AllSettled, Remaining, InRound,
      TurnMoves, RoundRobin;
    var ctx, recs := Open(b, asWritten);
    var operations, intervals, blocks := [], [], [];
    ghost var round := 0;
    RoundStart(b, recs);
    while true
      invariant fresh(ctx.Repr()) && |recs| == |b.lines|
      invariant Consistent(b, asWritten, ctx, operations, intervals, blocks, recs)
      invariant InRound(b, operations, recs, round, 0)
      decreases Remaining(b, recs, |recs|)
    {
      var progress := false;
      ghost var before := Remaining(b, recs, |recs|);
      NoneSettled(b, recs);
      for l := 0 to |recs|
        invariant fresh(ctx.Repr()) && |recs| == |b.lines|
        invariant Consistent(b, asWritten, ctx, operations, intervals, blocks, recs)
        invariant InRound(b, operations, recs, round, l)
        invariant if progress then Remaining(b, recs, |recs|) < before
                  else Remaining(b, recs, |recs|) == before && AllSettled(b, recs, l)
      {
        ghost var oldRecs, oldOperations, oldBlocks := recs, operations, blocks;
        var p;
        p, recs, operations, intervals, blocks := Turn(b, asWritten, ctx, l, recs, operations, intervals, blocks);
        if p.Stopped? {
          RoundParts(b, operations, recs, round, l);
          return Failed(p.error), operations;
        }
        RoundAfterTurn(b, round, l, p, oldRecs, oldOperations, oldBlocks, recs, operations, blocks);
        if p.Moved? {
          progress := true;
        } else {
          OneMoreSettled(b, recs, l, progress);
        }
      }
      RoundParts(b, operations, recs, round, |recs|);
      if !progress {
        r := Finish(b, asWritten, ctx, recs, operations, intervals, blocks);
        return r, operations;
      }
      RoundOver(b, asWritten, ctx, operations, intervals, blocks, recs, round);
      round := round + 1;
    }
  }
}

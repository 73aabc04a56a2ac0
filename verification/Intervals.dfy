/** The interval helpers of the scheduler: merging, subtracting and intersecting segment
    lists, and walking forwards and backwards over working minutes. */
module Intervals {
  import opened Minutes

  // ---------------------------------------------------------------- merge

  predicate Before(s: Seg, t: Seg) {
    s.lo < t.lo || (s.lo == t.lo && s.hi <= t.hi)
  }

  function InsertSorted(s: Seg, xs: seq<Seg>): seq<Seg> {
    if xs == [] then [s]
    else if Before(s, xs[0]) then [s] + xs
    else [xs[0]] + InsertSorted(s, xs[1..])
  }

  /** The segments with b > a in ascending order. */
  function SortedNonEmpty(segs: seq<Seg>): seq<Seg> {
    if segs == [] then []
    else
      var rest := SortedNonEmpty(segs[1..]);
      if segs[0].hi > segs[0].lo then InsertSorted(segs[0], rest) else rest
  }

  ghost predicate Ascending(xs: seq<Seg>) {
    && (forall i :: 0 <= i < |xs| ==> xs[i].lo < xs[i].hi)
    && (forall i, j :: 0 <= i < j < |xs| ==> xs[i].lo <= xs[j].lo)
  }

  lemma MinutesOfCons(s: Seg, xs: seq<Seg>)
    ensures MinutesOf([s] + xs) == Span(s.lo, s.hi) + MinutesOf(xs)
  {
    var more := [s] + xs;
    forall m: int
      ensures m in MinutesOf(more) <==> m in Span(s.lo, s.hi) + MinutesOf(xs)
    {
      if m in MinutesOf(more) {
        var i :| Hit(more, i, m);
        assert i > 0 ==> Hit(xs, i - 1, m);
      }
      if m in MinutesOf(xs) {
        var i :| Hit(xs, i, m);
        assert Hit(more, i + 1, m);
      }
      if m in Span(s.lo, s.hi) {
        assert Hit(more, 0, m);
      }
    }
  }

  lemma {:induction false} InsertSortedKeeps(s: Seg, xs: seq<Seg>)
    requires s.lo < s.hi && Ascending(xs)
    ensures Ascending(InsertSorted(s, xs))
    ensures MinutesOf(InsertSorted(s, xs)) == Span(s.lo, s.hi) + MinutesOf(xs)
    ensures InsertSorted(s, xs) != []
    ensures InsertSorted(s, xs)[0] == s || (xs != [] && InsertSorted(s, xs)[0] == xs[0])
  {
    if xs == [] || Before(s, xs[0]) {
      MinutesOfCons(s, xs);
      assert InsertSorted(s, xs) == [s] + xs;
    } else {
      InsertSortedKeeps(s, xs[1..]);
      MinutesOfCons(xs[0], InsertSorted(s, xs[1..]));
      MinutesOfCons(xs[0], xs[1..]);
      assert xs == [xs[0]] + xs[1..];
    }
  }

  lemma {:induction false} SortedNonEmptyKeeps(segs: seq<Seg>)
    ensures Ascending(SortedNonEmpty(segs))
    ensures MinutesOf(SortedNonEmpty(segs)) == MinutesOf(segs)
  {
    if segs != [] {
      SortedNonEmptyKeeps(segs[1..]);
      MinutesOfCons(segs[0], segs[1..]);
      assert segs == [segs[0]] + segs[1..];
      if segs[0].hi > segs[0].lo {
        InsertSortedKeeps(segs[0], SortedNonEmpty(segs[1..]));
      }
    }
  }

  function Max(a: int, b: int): int { if a >= b then a else b }

  function Min(a: int, b: int): int { if a <= b then a else b }

  method Merge(segs: seq<Seg>) returns (out: seq<Seg>)
    ensures Canonical(out)
    ensures MinutesOf(out) == MinutesOf(segs)
  {
    MinutesOfEmpty();
    hide MinutesOf;
    var sorted := SortedNonEmpty(segs);
    SortedNonEmptyKeeps(segs);
    out := [];
    for i := 0 to |sorted|
      invariant Canonical(out)
      invariant MinutesOf(out) == MinutesOf(sorted[..i])
      invariant out != [] && i < |sorted| ==> out[|out| - 1].lo <= sorted[i].lo
    {
      var s := sorted[i];
      MinutesOfAppend(sorted[..i], s);
      assert sorted[..i + 1] == sorted[..i] + [s];
      if out != [] && s.lo <= out[|out| - 1].hi {
        var last := out[|out| - 1];
        ghost var front := out[..|out| - 1];
        MinutesOfAppend(front, last);
        assert out == front + [last];
        out := out[..|out| - 1] + [Seg(last.lo, Max(last.hi, s.hi))];
        MinutesOfAppend(front, Seg(last.lo, Max(last.hi, s.hi)));
      } else {
        MinutesOfAppend(out, s);
        out := out + [s];
      }
    }
    assert sorted[..|sorted|] == sorted;
  }

  // ------------------------------------------------------------- subtract

  /** m is dropped but kept all the same: an unbroken dropped stretch reaches back from m,
      past a minute h outside S, to an earlier minute g of S. */
  ghost predicate LeakedVia(S: iset<int>, D: iset<int>, g: int, h: int, m: int) {
    && g < h < m && g in S && h !in S && m in S
    && Span(g, m + 1) <= D
  }

  ghost predicate Leaked(S: iset<int>, D: iset<int>, m: int) {
    exists g, h :: LeakedVia(S, D, g, h, m)
  }

  /** What subtraction leaves: the set difference, and, for the loop as it is written, the
      leaked minutes as well. */
  ghost function SubtractMinutes(asWritten: bool, S: iset<int>, D: iset<int>): iset<int> {
    if asWritten then (S - D) + (iset m: int | Leaked(S, D, m)) else S - D
  }

  /** Drop j had its turn at an earlier segment than k and is not looked at again. */
  ghost predicate LookedPast(asWritten: bool, S: seq<Seg>, D: seq<Seg>, k: int, j: int)
    requires 0 <= k < |S| && 0 <= j < |D|
  {
    asWritten && k > 0 && D[j].lo < S[k - 1].hi
  }

  /** The minute m of segment k survives. */
  ghost predicate Kept(asWritten: bool, S: seq<Seg>, D: seq<Seg>, k: int, m: int) {
    && Hit(S, k, m)
    && forall j :: Hit(D, j, m) ==> LookedPast(asWritten, S, D, k, j)
  }

  ghost predicate KeptBefore(asWritten: bool, S: seq<Seg>, D: seq<Seg>, n: int, m: int) {
    exists k :: k < n && Kept(asWritten, S, D, k, m)
  }

  /** What the loop has put out when it stands at minute `cur` of segment k. */
  ghost predicate PutOut(asWritten: bool, S: seq<Seg>, D: seq<Seg>, k: int, cur: int, m: int) {
    KeptBefore(asWritten, S, D, k, m) || (m < cur && Kept(asWritten, S, D, k, m))
  }

  ghost function Output(asWritten: bool, S: seq<Seg>, D: seq<Seg>, k: int, cur: int): iset<int> {
    iset m: int | PutOut(asWritten, S, D, k, cur, m)
  }

  lemma OutputAtSegmentStart(asWritten: bool, S: seq<Seg>, D: seq<Seg>, k: int, cur: int, cur': int)
    requires 0 <= k < |S| && S[k].hi <= cur && (k + 1 < |S| ==> cur' <= S[k + 1].lo)
    ensures Output(asWritten, S, D, k + 1, cur') == Output(asWritten, S, D, k, cur)
  {
  }

  lemma OutputPiece(asWritten: bool, S: seq<Seg>, D: seq<Seg>, k: int, cur: int, cut: int)
    requires 0 <= k < |S| && S[k].lo <= cur <= cut <= S[k].hi
    requires forall j :: 0 <= j < |D| && cur < D[j].hi && D[j].lo < cut ==> LookedPast(asWritten, S, D, k, j)
    ensures Output(asWritten, S, D, k, cut) == Output(asWritten, S, D, k, cur) + Span(cur, cut)
  {
  }

  lemma OutputDrop(asWritten: bool, S: seq<Seg>, D: seq<Seg>, k: int, cur: int, j: int)
    requires 0 <= k < |S| && 0 <= j < |D| && D[j].lo <= cur && !LookedPast(asWritten, S, D, k, j)
    ensures Output(asWritten, S, D, k, Max(cur, D[j].hi)) == Output(asWritten, S, D, k, cur)
  {
    forall m | cur <= m < D[j].hi
      ensures !Kept(asWritten, S, D, k, m)
    {
      assert Hit(D, j, m);
    }
  }

  /** Past the end of the segment the output no longer changes. */
  lemma OutputEnd(asWritten: bool, S: seq<Seg>, D: seq<Seg>, k: int, cur: int)
    requires 0 <= k < |S|
    ensures Output(asWritten, S, D, k, Min(cur, S[k].hi)) == Output(asWritten, S, D, k, cur)
  {
  }

  /** The inner loop stands before drop j at minute cur, having put out `out`. */
  ghost predicate Carving(asWritten: bool, S: seq<Seg>, D: seq<Seg>, k: nat, di: nat, j: nat, cur: int, out: seq<Seg>)
    requires k < |S| && di <= |D|
  {
    && di <= j <= |D| && S[k].lo <= cur && (j < |D| ==> cur < D[j].hi)
    && (forall q :: di <= q < j ==> D[q].hi <= cur && D[q].lo < S[k].hi)
    && Canonical(out)
    && (out != [] ==> out[|out| - 1].hi <= S[k].hi)
    && (out != [] ==> out[|out| - 1].hi < S[k].lo || (j > di && out[|out| - 1].hi < cur))
    && MinutesOf(out) == Output(asWritten, S, D, k, Min(cur, S[k].hi))
  }

  lemma CanonicalAppend(out: seq<Seg>, s: Seg)
    requires Canonical(out) && s.lo < s.hi && (out != [] ==> out[|out| - 1].hi < s.lo)
    ensures Canonical(out + [s])
  {
  }

  lemma CarvingStart(asWritten: bool, S: seq<Seg>, D: seq<Seg>, k: nat, di: nat, done: seq<Seg>)
    requires k < |S| && di <= |D| && Canonical(S) && Canonical(done)
    requires done != [] ==> done[|done| - 1].hi < S[k].lo
    requires MinutesOf(done) == Output(asWritten, S, D, k, S[k].lo)
    requires forall q :: di <= q < |D| ==> S[k].lo < D[q].hi
    ensures Carving(asWritten, S, D, k, di, di, S[k].lo, done)
  {
  }

  lemma CarvingStep(asWritten: bool, S: seq<Seg>, D: seq<Seg>, k: nat, di: nat, j: nat, cur: int, out: seq<Seg>)
    requires k < |S| && di <= |D| && Canonical(S) && Canonical(D)
    requires forall q :: 0 <= q < di && S[k].lo < D[q].hi ==> LookedPast(asWritten, S, D, k, q)
    requires forall q :: di <= q < |D| ==> S[k].lo < D[q].hi && !LookedPast(asWritten, S, D, k, q)
    requires Carving(asWritten, S, D, k, di, j, cur, out)
    requires j < |D| && D[j].lo < S[k].hi
    ensures Carving(asWritten, S, D, k, di, j + 1, Max(cur, D[j].hi),
                    if D[j].lo > cur then out + [Seg(cur, Min(D[j].lo, S[k].hi))] else out)
  {
    var da, db := D[j].lo, D[j].hi;
    OutputEnd(asWritten, S, D, k, Max(cur, db));
    if da > cur {
      OutputPiece(asWritten, S, D, k, cur, da);
      MinutesOfAppend(out, Seg(cur, da));
      CanonicalAppend(out, Seg(cur, da));
      OutputDrop(asWritten, S, D, k, da, j);
    } else {
      OutputDrop(asWritten, S, D, k, cur, j);
      OutputEnd(asWritten, S, D, k, cur);

    }
  }

  lemma CarvingEnd(asWritten: bool, S: seq<Seg>, D: seq<Seg>, k: nat, di: nat, j: nat, cur: int, out: seq<Seg>)
    requires k < |S| && di <= |D| && Canonical(S) && Canonical(D)
    requires forall q :: 0 <= q < di && S[k].lo < D[q].hi ==> LookedPast(asWritten, S, D, k, q)
    requires Carving(asWritten, S, D, k, di, j, cur, out)
    requires j < |D| ==> S[k].hi <= D[j].lo
    ensures var end := if cur < S[k].hi then out + [Seg(cur, S[k].hi)] else out;
      && Canonical(end) && (end != [] ==> end[|end| - 1].hi <= S[k].hi)
      && MinutesOf(end) == Output(asWritten, S, D, k, S[k].hi)
    ensures di <= j <= |D| && forall q :: di <= q < |D| ==> (q < j <==> D[q].lo < S[k].hi)
  {
    if cur < S[k].hi {
      OutputPiece(asWritten, S, D, k, cur, S[k].hi);
      MinutesOfAppend(out, Seg(cur, S[k].hi));
      CanonicalAppend(out, Seg(cur, S[k].hi));
    }
  }

  /** Drops from di on that start inside segment k are taken out of it (the inner loop). */
  method Carve(ghost asWritten: bool, S: seq<Seg>, D: seq<Seg>, k: nat, di: nat, done: seq<Seg>)
      returns (out: seq<Seg>, j: nat)
    requires k < |S| && di <= |D| && Canonical(S) && Canonical(D) && Canonical(done)
    requires done != [] ==> done[|done| - 1].hi < S[k].lo
    requires MinutesOf(done) == Output(asWritten, S, D, k, S[k].lo)
    requires forall q :: 0 <= q < di && S[k].lo < D[q].hi ==> LookedPast(asWritten, S, D, k, q)
    requires forall q :: di <= q < |D| ==> S[k].lo < D[q].hi && !LookedPast(asWritten, S, D, k, q)
    ensures Canonical(out)
    ensures out != [] ==> out[|out| - 1].hi <= S[k].hi
    ensures MinutesOf(out) == Output(asWritten, S, D, k, S[k].hi)
    ensures di <= j <= |D| && forall q :: di <= q < |D| ==> (q < j <==> D[q].lo < S[k].hi)
  {
    var a, b := S[k].lo, S[k].hi;
    var cur := a;
    out, j := done, di;
    CarvingStart(asWritten, S, D, k, di, done);
    hide *;

    while j < |D| && D[j].lo < b
      invariant Carving(asWritten, S, D, k, di, j, cur, out)
    {
      var da, db := D[j].lo, D[j].hi;
      CarvingStep(asWritten, S, D, k, di, j, cur, out);
      if da > cur {
        out := out + [Seg(cur, Min(da, b))];
      }
      cur := Max(cur, db);
      j := j + 1;
    }
    CarvingEnd(asWritten, S, D, k, di, j, cur, out);
    out := if cur < b then out + [Seg(cur, b)] else out;
  }

  /** The drop cursor before segment i. */
  ghost predicate Cursor(asWritten: bool, S: seq<Seg>, D: seq<Seg>, i: nat, di: nat)
    requires i <= |S|
  {
    && di <= |D|
    && (i == 0 ==> di == 0)
    && (i > 0 && asWritten ==> forall j :: 0 <= j < |D| ==> (j < di <==> D[j].lo < S[i - 1].hi))
    && (i > 0 && !asWritten ==> forall j :: 0 <= j < di ==> D[j].hi <= S[i - 1].lo)
  }

  lemma CursorReady(asWritten: bool, S: seq<Seg>, D: seq<Seg>, i: nat, d0: nat, di: nat)
    requires Canonical(S) && Canonical(D) && i < |S| && Cursor(asWritten, S, D, i, d0)
    requires d0 <= di <= |D| && forall j :: d0 <= j < di ==> D[j].hi <= S[i].lo
    requires di < |D| ==> S[i].lo < D[di].hi
    ensures forall q :: 0 <= q < di && S[i].lo < D[q].hi ==> LookedPast(asWritten, S, D, i, q)
    ensures forall q :: di <= q < |D| ==> S[i].lo < D[q].hi && !LookedPast(asWritten, S, D, i, q)
  {
  }

  lemma CursorNext(asWritten: bool, S: seq<Seg>, D: seq<Seg>, i: nat, d0: nat, di: nat, j: nat)
    requires Canonical(S) && Canonical(D) && i < |S| && Cursor(asWritten, S, D, i, d0)
    requires d0 <= di <= j <= |D| && forall q :: d0 <= q < di ==> D[q].hi <= S[i].lo
    requires forall q :: di <= q < |D| ==> (q < j <==> D[q].lo < S[i].hi)
    ensures Cursor(asWritten, S, D, i + 1, if asWritten then j else di)
  {
  }

  /** The loop of the source; line 84, `di = j`, runs when `asWritten` is set. */
  method Subtract(asWritten: bool, segs: seq<Seg>, drops: seq<Seg>) returns (out: seq<Seg>)
    ensures Canonical(out)
    ensures MinutesOf(out) == SubtractMinutes(asWritten, MinutesOf(segs), MinutesOf(drops))
  {
    var S := Merge(segs);
    var D := Merge(drops);
    out := [];
    var di := 0;
    for i := 0 to |S|
      invariant di <= |D| && Cursor(asWritten, S, D, i, di)
      invariant Canonical(out)
      invariant out != [] ==> i > 0 && out[|out| - 1].hi <= S[i - 1].hi
      invariant MinutesOf(out) == Output(asWritten, S, D, i, if i < |S| then S[i].lo else 0)
    {
      var cur := S[i].lo;
      ghost var d0 := di;
      while di < |D| && D[di].hi <= cur
        invariant d0 <= di <= |D|
        invariant forall j :: d0 <= j < di ==> D[j].hi <= cur
      {
        di := di + 1;
      }
      CursorReady(asWritten, S, D, i, d0, di);
      var j;
      out, j := Carve(asWritten, S, D, i, di, out);
      OutputAtSegmentStart(asWritten, S, D, i, S[i].hi, if i + 1 < |S| then S[i + 1].lo else 0);
      CursorNext(asWritten, S, D, i, d0, di, j);
      if asWritten {
        di := j;
      }
    }
    KeptIsSubtract(asWritten, S, D);
  }

  lemma KeptIsSubtract(asWritten: bool, S: seq<Seg>, D: seq<Seg>)
    requires Canonical(S) && Canonical(D)
    ensures forall m :: KeptBefore(asWritten, S, D, |S|, m)
                        <==> m in SubtractMinutes(asWritten, MinutesOf(S), MinutesOf(D))
  {
    forall m
      ensures KeptBefore(asWritten, S, D, |S|, m)
              <==> m in SubtractMinutes(asWritten, MinutesOf(S), MinutesOf(D))
    {
      if m in MinutesOf(S) {
        var k :| Hit(S, k, m);
        KeptMinute(asWritten, S, D, k, m);
        assert forall k' :: Hit(S, k', m) ==> k' == k;
      }
    }
  }

  lemma KeptMinute(asWritten: bool, S: seq<Seg>, D: seq<Seg>, k: int, m: int)
    requires Canonical(S) && Canonical(D) && Hit(S, k, m)
    ensures Kept(asWritten, S, D, k, m)
            <==> m in SubtractMinutes(asWritten, MinutesOf(S), MinutesOf(D))
  {
    if m in MinutesOf(D) {
      var j :| Hit(D, j, m);
      assert forall j' :: Hit(D, j', m) ==> j' == j;
      if asWritten {
        if k > 0 && D[j].lo < S[k - 1].hi {
          var g, h := Max(D[j].lo, S[k - 1].lo), S[k - 1].hi;
          assert Hit(S, k - 1, g);
          forall x | x in Span(g, m + 1)
            ensures x in MinutesOf(D)
          {
            assert Hit(D, j, x);
          }
          assert LeakedVia(MinutesOf(S), MinutesOf(D), g, h, m);
        }
        if Leaked(MinutesOf(S), MinutesOf(D), m) {
          var g, h :| LeakedVia(MinutesOf(S), MinutesOf(D), g, h, m);
          SameSegment(D, g, m, j);
          var q :| Hit(S, q, g);
          assert !Hit(S, q, h);
          assert q < k;
        }
      }
    }
  }

  /** A stretch of covered minutes lies within one canonical segment. */
  lemma SameSegment(D: seq<Seg>, g: int, m: int, j: int)
    requires Canonical(D) && g <= m && Span(g, m + 1) <= MinutesOf(D) && Hit(D, j, m)
    ensures D[j].lo <= g
  {
    assert D[j].lo - 1 !in MinutesOf(D);
    assert D[j].lo - 1 !in Span(g, m + 1);
  }

  /** Some dropped stretch joins two open minutes across a closed one. */
  ghost predicate Straddles(S: iset<int>, D: iset<int>) {
    exists g, h, m :: LeakedVia(S, D, g, h, m)
  }

  /** The loop as written is set difference exactly when no drop straddles a gap. */
  lemma SubtractExactIff(S: iset<int>, D: iset<int>)
    ensures SubtractMinutes(true, S, D) == S - D <==> !Straddles(S, D)
  {
    if Straddles(S, D) {
      var g, h, m :| LeakedVia(S, D, g, h, m);
      assert m in Span(g, m + 1);
      assert Leaked(S, D, m);
      assert m in SubtractMinutes(true, S, D);
    } else {
      assert forall m :: !Leaked(S, D, m);
    }
  }

  ghost predicate GapAt(S: iset<int>, g: int, h: int, m: int) {
    g < h < m && g in S && h !in S && m in S
  }

  ghost predicate HasGap(S: iset<int>) {
    exists g, h, m :: GapAt(S, g, h, m)
  }

  /** Only a set of open minutes without a gap is safe from every list of drops. */
  lemma SubtractAlwaysExactIff(S: iset<int>)
    ensures (forall D: iset<int> :: SubtractMinutes(true, S, D) == S - D) <==> !HasGap(S)
  {
    if HasGap(S) {
      var g, h, m :| GapAt(S, g, h, m);
      var D := Span(g, m + 1);
      assert LeakedVia(S, D, g, h, m);
      SubtractExactIff(S, D);
    } else {
      forall D: iset<int>
        ensures SubtractMinutes(true, S, D) == S - D
      {
        SubtractExactIff(S, D);
        if g, h, m :| LeakedVia(S, D, g, h, m) {
          assert GapAt(S, g, h, m);
        }
      }
    }
  }

  /** A drop over a lunch break is forgotten after the break. */
  lemma SubtractForgetsDrop(m: int)
    requires 20 <= m < 25
    ensures var open := MinutesOf([Seg(0, 10), Seg(20, 30)]);
      var dropped := MinutesOf([Seg(5, 25)]);
      m in dropped && m in SubtractMinutes(true, open, dropped)
  {
    var segs, drops := [Seg(0, 10), Seg(20, 30)], [Seg(5, 25)];
    assert Hit(segs, 0, 5) && Hit(segs, 1, m);
    assert 10 !in MinutesOf(segs);
    forall x | x in Span(5, m + 1)
      ensures x in MinutesOf(drops)
    {
      assert Hit(drops, 0, x);
    }
    assert m in Span(5, m + 1);
    assert LeakedVia(MinutesOf(segs), MinutesOf(drops), 5, 10, m);
    assert Leaked(MinutesOf(segs), MinutesOf(drops), m);
  }

  // ------------------------------------------------------------ intersect

  ghost predicate InAll(sets: seq<iset<int>>, m: int) {
    forall i :: 0 <= i < |sets| ==> m in sets[i]
  }

  ghost function CommonOf(sets: seq<iset<int>>): iset<int> {
    iset m: int | InAll(sets, m)
  }

  ghost function SetsOf(lists: seq<seq<Seg>>): (sets: seq<iset<int>>)
    ensures |sets| == |lists|
    ensures forall i :: 0 <= i < |lists| ==> sets[i] == MinutesOf(lists[i])
  {
    seq(|lists|, i requires 0 <= i < |lists| => MinutesOf(lists[i]))
  }

  lemma CommonOfAppend(sets: seq<iset<int>>, more: iset<int>)
    ensures CommonOf(sets + [more]) == CommonOf(sets) * more
  {
    var all := sets + [more];
    forall m: int
      ensures m in CommonOf(all) <==> m in CommonOf(sets) * more
    {
      if m in CommonOf(all) {
        assert all[|sets|] == more;
        assert forall i :: 0 <= i < |sets| ==> sets[i] == all[i];
      }
    }
  }

  /** The two cursors stand at segments i and j; minutes before f are settled. */
  ghost predicate Zipping(A: seq<Seg>, B: seq<Seg>, i: nat, j: nat, f: int, nxt: seq<Seg>) {
    && i <= |A| && j <= |B|
    && Canonical(nxt) && (nxt != [] ==> nxt[|nxt| - 1].hi <= f)
    && (forall p :: 0 <= p < i ==> A[p].hi <= f)
    && (forall q :: 0 <= q < j ==> B[q].hi <= f)
    && (i < |A| && j < |B| ==> f <= A[i].hi && f <= B[j].hi && (f < A[i].lo || f < B[j].lo))
    && (forall m :: m in MinutesOf(nxt) <==> InBothBefore(A, B, f, m))
  }

  ghost predicate InBothBefore(A: seq<Seg>, B: seq<Seg>, f: int, m: int) {
    m < f && m in MinutesOf(A) && m in MinutesOf(B)
  }

  lemma ZippingPiece(A: seq<Seg>, B: seq<Seg>, i: nat, j: nat, f: int, m: int)
    requires Canonical(A) && Canonical(B) && i < |A| && j < |B|
    requires forall p :: 0 <= p < i ==> A[p].hi <= f
    requires forall q :: 0 <= q < j ==> B[q].hi <= f
    requires f < A[i].lo || f < B[j].lo
    requires f <= m < A[i].hi && m < B[j].hi
    ensures m in MinutesOf(A) && m in MinutesOf(B) <==> A[i].lo <= m && B[j].lo <= m
  {
    if A[i].lo <= m && B[j].lo <= m {
      assert Hit(A, i, m) && Hit(B, j, m);
    }
  }

  lemma ZippingStep(A: seq<Seg>, B: seq<Seg>, i: nat, j: nat, f: int, nxt: seq<Seg>, nxt': seq<Seg>)
    requires Canonical(A) && Canonical(B)
    requires Zipping(A, B, i, j, f, nxt) && i < |A| && j < |B|
    requires nxt' == var a, b := Max(A[i].lo, B[j].lo), Min(A[i].hi, B[j].hi); if b > a then nxt + [Seg(a, b)] else nxt
    ensures A[i].hi <= B[j].hi ==> Zipping(A, B, i + 1, j, Min(A[i].hi, B[j].hi), nxt')
    ensures A[i].hi > B[j].hi ==> Zipping(A, B, i, j + 1, Min(A[i].hi, B[j].hi), nxt')
  {
    var a, b := Max(A[i].lo, B[j].lo), Min(A[i].hi, B[j].hi);
    forall m: int
      ensures m in MinutesOf(nxt') <==> InBothBefore(A, B, b, m)
    {
      MinutesOfAppend(nxt, Seg(a, b));
      assert m in MinutesOf(nxt) <==> InBothBefore(A, B, f, m);
      if f <= m < b {
        ZippingPiece(A, B, i, j, f, m);
      }
    }
    if b > a {
      CanonicalAppend(nxt, Seg(a, b));
    }
  }

  lemma ZippingEnd(A: seq<Seg>, B: seq<Seg>, i: nat, j: nat, f: int, nxt: seq<Seg>)
    requires Zipping(A, B, i, j, f, nxt) && (i == |A| || j == |B|)
    ensures Canonical(nxt) && MinutesOf(nxt) == MinutesOf(A) * MinutesOf(B)
  {
    assert i == |A| ==> forall m :: m in MinutesOf(A) ==> m < f;
    assert j == |B| ==> forall m :: m in MinutesOf(B) ==> m < f;
    assert forall m :: m in MinutesOf(nxt) <==> InBothBefore(A, B, f, m);
  }

  /** The two-pointer walk over two canonical lists. */
  method IntersectPair(A: seq<Seg>, B: seq<Seg>) returns (nxt: seq<Seg>)
    requires Canonical(A) && Canonical(B)
    ensures Canonical(nxt)
    ensures MinutesOf(nxt) == MinutesOf(A) * MinutesOf(B)
  {
    var i, j := 0, 0;
    nxt := [];
    ghost var f := if |A| > 0 && |B| > 0 then Min(A[0].lo, B[0].lo) - 1 else 0;
    ZippingStart(A, B, f);
    hide *;
    while i < |A| && j < |B|
      invariant Zipping(A, B, i, j, f, nxt)
      decreases |A| + |B| - i - j
    {
      var a, b := Max(A[i].lo, B[j].lo), Min(A[i].hi, B[j].hi);
      ghost var before := nxt;
      nxt := if b > a then nxt + [Seg(a, b)] else nxt;
      ZippingStep(A, B, i, j, f, before, nxt);
      f := b;
      if A[i].hi <= B[j].hi {
        i := i + 1;
      } else {
        j := j + 1;
      }
    }
    ZippingBounds(A, B, i, j, f, nxt);
    ZippingEnd(A, B, i, j, f, nxt);
  }

  lemma ZippingStart(A: seq<Seg>, B: seq<Seg>, f: int)
    requires Canonical(A) && Canonical(B)
    requires |A| > 0 && |B| > 0 ==> f < A[0].lo && f < B[0].lo
    ensures Zipping(A, B, 0, 0, f, [])
  {
    if |A| > 0 && |B| > 0 {
      assert forall m :: m in MinutesOf(A) ==> A[0].lo <= m;
    }
  }

  lemma ZippingBounds(A: seq<Seg>, B: seq<Seg>, i: nat, j: nat, f: int, nxt: seq<Seg>)
    requires Zipping(A, B, i, j, f, nxt)
    ensures i <= |A| && j <= |B|
  {
  }

  method IntersectMany(lists: seq<seq<Seg>>) returns (result: seq<Seg>)
    ensures Canonical(result)
    ensures lists == [] ==> result == []
    ensures lists != [] ==> MinutesOf(result) == CommonOf(SetsOf(lists))
  {
    if lists == [] {
      return [];
    }
    result := Merge(lists[0]);
    CommonOfOne(lists);
    for n := 1 to |lists|
      invariant Canonical(result)
      invariant MinutesOf(result) == CommonOf(SetsOf(lists[..n]))
    {
      if result == [] {
        CommonOfPrefixEmpty(lists, n);
        return [];
      }
      var segs := Merge(lists[n]);
      CommonOfAppend(SetsOf(lists[..n]), MinutesOf(lists[n]));
      assert SetsOf(lists[..n + 1]) == SetsOf(lists[..n]) + [MinutesOf(lists[n])];
      result := IntersectPair(result, segs);
    }
    assert lists[..|lists|] == lists;
  }

  lemma CommonOfOne(lists: seq<seq<Seg>>)
    requires lists != []
    ensures CommonOf(SetsOf(lists[..1])) == MinutesOf(lists[0])
  {
    var sets := SetsOf(lists[..1]);
    assert |sets| == 1 && sets[0] == MinutesOf(lists[0]);
  }

  lemma CommonOfPrefixEmpty(lists: seq<seq<Seg>>, n: nat)
    requires n <= |lists| && CommonOf(SetsOf(lists[..n])) == MinutesOf([])
    ensures CommonOf(SetsOf(lists)) == MinutesOf([])
  {
    forall m: int
      ensures m !in CommonOf(SetsOf(lists))
    {
      assert m !in CommonOf(SetsOf(lists[..n]));
      var i :| 0 <= i < n && m !in SetsOf(lists[..n])[i];
      assert SetsOf(lists)[i] == SetsOf(lists[..n])[i];
    }
  }
}

/** Walking over working minutes: how far a need of working minutes reaches forwards from a
    start, backwards from an end, and where the earliest such span lies. */
module WorkingTime {
  import opened Minutes
  import opened Intervals

  /** r is the least end whose span from `start` holds `need` working minutes, None when no
      span from `start` does. */
  ghost predicate EarliestEnd(M: iset<int>, start: int, need: int, r: Option<int>) {
    match r
    case None => forall e :: CountIn(M, start, e) < need
    case Some(e) =>
      start <= e && CountIn(M, start, e) >= need
      && forall e' :: start <= e' < e ==> CountIn(M, start, e') < need
  }

  /** r is the greatest start whose span up to `end` holds `need` working minutes. */
  ghost predicate LatestStart(M: iset<int>, end: int, need: int, r: Option<int>) {
    match r
    case None => forall s :: CountIn(M, s, end) < need
    case Some(s) =>
      s <= end && CountIn(M, s, end) >= need
      && forall s' :: s < s' <= end ==> CountIn(M, s', end) < need
  }

  ghost predicate FirstAt(M: iset<int>, lo: int, s: int) {
    lo <= s && s in M && forall t :: lo <= t < s ==> t !in M
  }

  /** r is the span from the first working minute at or after `minStart`. */
  ghost predicate EarliestSpanOf(M: iset<int>, minStart: int, need: int, r: Option<(int, int)>) {
    if need <= 0 then r == Some((minStart, minStart))
    else
      match r
      case None => forall e :: CountIn(M, minStart, e) < need
      case Some((s, e)) => FirstAt(M, minStart, s) && EarliestEnd(M, s, need, Some(e))
  }

  // -------------------------------------------------------- walking forward

  /** Segments before i end by f; the others start after f, unless f is still the start. */
  ghost predicate Forward(segs: seq<Seg>, i: nat, start: int, f: int) {
    && i <= |segs| && start <= f
    && (forall k :: 0 <= k < i ==> segs[k].hi <= f)
    && (forall k :: i <= k < |segs| ==> f == start || f < segs[k].lo)
  }

  lemma ForwardCount(segs: seq<Seg>, i: nat, start: int, f: int, x: int)
    requires Canonical(segs) && i < |segs| && Forward(segs, i, start, f)
    requires start < segs[i].hi && f <= x <= segs[i].hi
    ensures CountIn(MinutesOf(segs), start, x)
            == CountIn(MinutesOf(segs), start, f) + Max(0, x - Max(segs[i].lo, start))
  {
    var M := MinutesOf(segs);
    var s := Max(segs[i].lo, start);
    CountSplit(M, start, f, x);
    if x <= s {
      assert forall m :: f <= m < x ==> m !in M;
      CountNone(M, f, x);
    } else {
      assert forall m :: f <= m < s ==> m !in M;
      CountNone(M, f, s);
      forall m | m in Span(s, x)
        ensures m in M
      {
        assert Hit(segs, i, m);
      }
      CountAll(M, s, x);
      CountSplit(M, f, s, x);
    }
  }

  lemma ForwardDone(segs: seq<Seg>, start: int, f: int)
    requires Canonical(segs) && Forward(segs, |segs|, start, f)
    ensures forall e :: CountIn(MinutesOf(segs), start, e) <= CountIn(MinutesOf(segs), start, f)
  {
    var M := MinutesOf(segs);
    forall e
      ensures CountIn(M, start, e) <= CountIn(M, start, f)
    {
      if e <= f {
        CountMonotone(M, start, e, f);
      } else {
        assert forall m :: f <= m < e ==> m !in M;
        CountNone(M, f, e);
        CountSplit(M, start, f, e);
      }
    }
  }

  /** The segment in hand holds what is still needed: the walk ends at x. */
  lemma ForwardFound(segs: seq<Seg>, i: nat, start: int, f: int, need: int)
    requires Canonical(segs) && i < |segs| && Forward(segs, i, start, f) && start < segs[i].hi
    requires CountIn(MinutesOf(segs), start, f) < need
    requires CountIn(MinutesOf(segs), start, f) + segs[i].hi - Max(segs[i].lo, start) >= need
    ensures EarliestEnd(MinutesOf(segs), start, need,
                        Some(Max(segs[i].lo, start) + need - CountIn(MinutesOf(segs), start, f)))
  {
    var M := MinutesOf(segs);
    var e := Max(segs[i].lo, start) + need - CountIn(M, start, f);
    if segs[i].lo < f && f != start {
      assert false;
    }
    ForwardCount(segs, i, start, f, e);
    forall e' | start <= e' < e
      ensures CountIn(M, start, e') < need
    {
      if e' <= f {
        CountMonotone(M, start, e', f);
      } else {
        ForwardCount(segs, i, start, f, e');
      }
    }
  }

  method WorkingEnd(segs: seq<Seg>, start: int, need: int) returns (r: Option<int>)
    requires Canonical(segs)
    ensures EarliestEnd(MinutesOf(segs), start, need, r)
  {
    if need <= 0 {
      return Some(start);
    }
    var acc := 0;
    ghost var f := start;
    for i := 0 to |segs|
      invariant Forward(segs, i, start, f)
      invariant acc == CountIn(MinutesOf(segs), start, f) && acc < need
    {
      var a, b := segs[i].lo, segs[i].hi;
      if b <= start {
        continue;
      }
      var s := Max(a, start);
      if acc + (b - s) >= need {
        ForwardFound(segs, i, start, f, need);
        return Some(s + (need - acc));
      }
      ForwardCount(segs, i, start, f, b);
      acc := acc + b - s;
      f := b;
    }
    ForwardDone(segs, start, f);
    return None;
  }

  // ------------------------------------------------------- walking backward

  ghost predicate Backward(segs: seq<Seg>, i: nat, end: int, f: int) {
    && i <= |segs| && f <= end
    && (forall k :: i <= k < |segs| ==> f <= segs[k].lo)
    && (forall k :: 0 <= k < i ==> f == end || segs[k].hi < f)
  }

  lemma BackwardCount(segs: seq<Seg>, i: nat, end: int, f: int, x: int)
    requires Canonical(segs) && i < |segs| && Backward(segs, i + 1, end, f)
    requires segs[i].lo < end && segs[i].lo <= x <= f
    ensures CountIn(MinutesOf(segs), x, end)
            == CountIn(MinutesOf(segs), f, end) + Max(0, Min(segs[i].hi, end) - x)
  {
    var M := MinutesOf(segs);
    var e := Min(segs[i].hi, end);
    CountSplit(M, x, f, end);
    if e <= x {
      assert forall m :: x <= m < f ==> m !in M;
      CountNone(M, x, f);
    } else {
      assert forall m :: e <= m < f ==> m !in M;
      CountNone(M, e, f);
      forall m | m in Span(x, e)
        ensures m in M
      {
        assert Hit(segs, i, m);
      }
      CountAll(M, x, e);
      CountSplit(M, x, e, f);
    }
  }

  lemma BackwardDone(segs: seq<Seg>, end: int, f: int)
    requires Canonical(segs) && Backward(segs, 0, end, f)
    ensures forall s :: CountIn(MinutesOf(segs), s, end) <= CountIn(MinutesOf(segs), f, end)
  {
    var M := MinutesOf(segs);
    forall s
      ensures CountIn(M, s, end) <= CountIn(M, f, end)
    {
      if f <= s {
        CountLaterStart(M, f, s, end);
      } else {
        assert forall m :: s <= m < f ==> m !in M;
        CountNone(M, s, f);
        CountSplit(M, s, f, end);
      }
    }
  }

  lemma BackwardFound(segs: seq<Seg>, i: nat, end: int, f: int, need: int)
    requires Canonical(segs) && i < |segs| && Backward(segs, i + 1, end, f) && segs[i].lo < end
    requires CountIn(MinutesOf(segs), f, end) < need
    requires CountIn(MinutesOf(segs), f, end) + Min(segs[i].hi, end) - segs[i].lo >= need
    ensures LatestStart(MinutesOf(segs), end, need,
                        Some(Min(segs[i].hi, end) - (need - CountIn(MinutesOf(segs), f, end))))
  {
    var M := MinutesOf(segs);
    var s := Min(segs[i].hi, end) - (need - CountIn(M, f, end));
    BackwardCount(segs, i, end, f, s);
    forall s' | s < s' <= end
      ensures CountIn(M, s', end) < need
    {
      if f <= s' {
        CountLaterStart(M, f, s', end);
      } else {
        BackwardCount(segs, i, end, f, s');
      }
    }
  }

  method WorkingBack(segs: seq<Seg>, end: int, need: int) returns (r: Option<int>)
    requires Canonical(segs)
    ensures LatestStart(MinutesOf(segs), end, need, r)
  {
    if need <= 0 {
      return Some(end);
    }
    var acc := 0;
    ghost var f := end;
    for i := |segs| downto 0
      invariant Backward(segs, i, end, f)
      invariant acc == CountIn(MinutesOf(segs), f, end) && acc < need
    {
      var a, b := segs[i].lo, segs[i].hi;
      if a >= end {
        continue;
      }
      var e := Min(b, end);
      if acc + (e - a) >= need {
        BackwardFound(segs, i, end, f, need);
        return Some(e - (need - acc));
      }
      BackwardCount(segs, i, end, f, a);
      acc := acc + e - a;
      f := a;
    }
    BackwardDone(segs, end, f);
    return None;
  }

  // ------------------------------------------------------------ earliest span

  /** The first segment that reaches past `lo` opens at the first working minute. */
  lemma FirstSegmentPast(segs: seq<Seg>, i: nat, lo: int)
    requires Canonical(segs) && i < |segs| && lo < segs[i].hi
    requires forall k :: 0 <= k < i ==> segs[k].hi <= lo
    ensures FirstAt(MinutesOf(segs), lo, Max(segs[i].lo, lo))
  {
    assert Hit(segs, i, Max(segs[i].lo, lo));
  }

  method EarliestSpan(segs: seq<Seg>, minStart: int, need: int) returns (r: Option<(int, int)>)
    requires Canonical(segs)
    ensures EarliestSpanOf(MinutesOf(segs), minStart, need, r)
  {
    if need <= 0 {
      return Some((minStart, minStart));
    }
    ghost var first := true;
    for i := 0 to |segs|
      invariant first ==> forall k :: 0 <= k < i ==> segs[k].hi <= minStart
      invariant !first ==> forall e :: CountIn(MinutesOf(segs), minStart, e) < need
    {
      var a, b := segs[i].lo, segs[i].hi;
      if b <= minStart {
        continue;
      }
      var start := Max(a, minStart);
      var end := WorkingEnd(segs, start, need);
      if first {
        FirstSegmentPast(segs, i, minStart);
        NothingBeforeFirst(MinutesOf(segs), minStart, start);
      }
      if end.Some? {
        if !first {
          CountLaterStart(MinutesOf(segs), minStart, start, end.value);
          assert false;
        }
        return Some((start, end.value));
      }
      first := false;
    }
    if first {
      forall e
        ensures CountIn(MinutesOf(segs), minStart, e) < need
      {
        CountNone(MinutesOf(segs), minStart, e);
      }
    }
    return None;
  }

  lemma NothingBeforeFirst(M: iset<int>, lo: int, s: int)
    requires FirstAt(M, lo, s)
    ensures forall e :: CountIn(M, lo, e) == CountIn(M, s, e)
  {
    forall e
      ensures CountIn(M, lo, e) == CountIn(M, s, e)
    {
      CountNone(M, lo, Min(s, e));
      if s <= e {
        CountSplit(M, lo, s, e);
      }
    }
  }

  // -------------------------------------------------------------- the promises

  /** The least end is tight: exactly `need` working minutes, the last of them just before it. */
  lemma EarliestEndTight(M: iset<int>, start: int, need: int, e: int)
    requires EarliestEnd(M, start, need, Some(e))
    ensures need >= 0 ==> CountIn(M, start, e) == need
    ensures need > 0 ==> start < e && e - 1 in M
    ensures need <= 0 ==> e == start
  {
    if start < e {
      assert CountIn(M, start, e - 1) < need;
    }
  }

  lemma LatestStartTight(M: iset<int>, end: int, need: int, s: int)
    requires LatestStart(M, end, need, Some(s))
    ensures need >= 0 ==> CountIn(M, s, end) == need
    ensures need > 0 ==> s < end && s in M
    ensures need <= 0 ==> s == end
  {
    if s < end {
      assert CountIn(M, s + 1, end) < need;
      CountSplit(M, s, s + 1, end);
    }
  }

  /** Walking back from where the forward walk ended comes home exactly when the start was
      itself a working minute; otherwise it lands later, on the first working minute. */
  lemma BackUndoesEnd(M: iset<int>, start: int, need: int, e: int, s: int)
    requires need > 0
    requires EarliestEnd(M, start, need, Some(e)) && LatestStart(M, e, need, Some(s))
    ensures FirstAt(M, start, s)
    ensures s == start <==> start in M
  {
    EarliestEndTight(M, start, need, e);
    LatestStartTight(M, e, need, s);
    assert CountIn(M, start, e) == need;
    assert start <= s;
    CountSplit(M, start, s, e);
    forall t | start <= t < s
      ensures t !in M
    {
      CountSplit(M, start, t, s);
      CountSplit(M, t, t + 1, s);
    }
  }

  /** And walking forward from where the backward walk ended comes back exactly when the
      minute before the end was a working one. */
  lemma EndUndoesBack(M: iset<int>, end: int, need: int, s: int, e: int)
    requires need > 0
    requires LatestStart(M, end, need, Some(s)) && EarliestEnd(M, s, need, Some(e))
    ensures e <= end && CountIn(M, e, end) == 0
    ensures e == end <==> end - 1 in M
  {
    LatestStartTight(M, end, need, s);
    EarliestEndTight(M, s, need, e);
    assert CountIn(M, s, end) == need;
    assert e <= end;
    CountSplit(M, s, e, end);
  }

  /** No span from minStart on that holds the need ends earlier, and none that opens on a
      working minute starts earlier. */
  lemma EarliestSpanOptimal(M: iset<int>, minStart: int, need: int, r: Option<(int, int)>, s': int, e': int)
    requires EarliestSpanOf(M, minStart, need, r)
    requires minStart <= s' <= e' && CountIn(M, s', e') >= need
    ensures r.Some? && r.value.1 <= e'
    ensures s' in M ==> r.value.0 <= s'
    ensures need > 0 ==> CountIn(M, r.value.0, r.value.1) == need
  {
    if need > 0 {
      CountLaterStart(M, minStart, s', e');
      if r.Some? {
        var (s, e) := r.value;
        NothingBeforeFirst(M, minStart, s);
        assert CountIn(M, s, e') >= need;
        EarliestEndTight(M, s, need, e);
        if e' < e && e' < s {
          CountNone(M, minStart, e');
        }
      }
    }
  }
}

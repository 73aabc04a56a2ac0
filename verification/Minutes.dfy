/** Sets of whole minutes, the segment lists that denote them, and how much working time
    such a set holds between two minutes. Everything the scheduler promises is stated on
    these sets. */
module Minutes {

  datatype Option<+T> = None | Some(value: T)

  /** The half-open stretch of minutes [lo, hi). */
  datatype Seg = Seg(lo: int, hi: int)

  ghost predicate Within(lo: int, hi: int, m: int) {
    lo <= m < hi
  }

  ghost function Span(lo: int, hi: int): iset<int> {
    iset m: int | Within(lo, hi, m)
  }

  ghost predicate Hit(segs: seq<Seg>, i: int, m: int) {
    0 <= i < |segs| && segs[i].lo <= m < segs[i].hi
  }

  ghost predicate Covers(segs: seq<Seg>, m: int) {
    exists i :: Hit(segs, i, m)
  }

  ghost function MinutesOf(segs: seq<Seg>): iset<int> {
    iset m: int | Covers(segs, m)
  }

  /** Sorted, non-empty segments with at least one closed minute between neighbours. */
  ghost predicate Canonical(segs: seq<Seg>) {
    && (forall i :: 0 <= i < |segs| ==> segs[i].lo < segs[i].hi)
    && (forall i, j :: 0 <= i < j < |segs| ==> segs[i].hi < segs[j].lo)
  }

  lemma MinutesOfEmpty()
    ensures MinutesOf([]) == iset{}
  {
  }

  lemma MinutesOfAppend(segs: seq<Seg>, s: Seg)
    ensures MinutesOf(segs + [s]) == MinutesOf(segs) + Span(s.lo, s.hi)
  {
    var more := segs + [s];
    forall m: int
      ensures m in MinutesOf(more) <==> m in MinutesOf(segs) + Span(s.lo, s.hi)
    {
      if m in MinutesOf(more) {
        var i :| Hit(more, i, m);
        assert i < |segs| ==> Hit(segs, i, m);
      }
      if m in MinutesOf(segs) {
        var i :| Hit(segs, i, m);
        assert Hit(more, i, m);
      }
      if m in Span(s.lo, s.hi) {
        assert Hit(more, |segs|, m);
      }
    }
  }

  /** A canonical list is determined by its minutes, so an equation between minute sets
      fixes the very list the code returns. */
  lemma {:induction false} CanonicalUnique(s: seq<Seg>, t: seq<Seg>)
    requires Canonical(s) && Canonical(t) && MinutesOf(s) == MinutesOf(t)
    ensures s == t
    decreases |s|
  {
    if |s| == 0 {
      if |t| > 0 {
        FirstSegment(t, s);
      }
    } else {
      FirstSegment(s, t);
      FirstSegment(t, s);
      assert s[0] == t[0];
      TailMinutes(s);
      TailMinutes(t);
      CanonicalUnique(s[1..], t[1..]);
      assert s == [s[0]] + s[1..] && t == [t[0]] + t[1..];
    }
  }

  lemma FirstSegment(s: seq<Seg>, t: seq<Seg>)
    requires Canonical(s) && Canonical(t) && MinutesOf(s) == MinutesOf(t) && |s| > 0
    ensures |t| > 0 && t[0].lo <= s[0].lo && (t[0].lo == s[0].lo ==> s[0].hi <= t[0].hi)
  {
    assert Hit(s, 0, s[0].lo);
    assert s[0].lo in MinutesOf(t);
    var i :| Hit(t, i, s[0].lo);
    assert t[0].lo <= t[i].lo;
    assert t[0].hi !in MinutesOf(t);
    assert !Hit(s, 0, t[0].hi);
  }

  lemma TailMinutes(s: seq<Seg>)
    requires Canonical(s) && |s| > 0
    ensures MinutesOf(s[1..]) == MinutesOf(s) - Span(s[0].lo, s[0].hi)
  {
    forall m: int
      ensures m in MinutesOf(s[1..]) <==> m in MinutesOf(s) - Span(s[0].lo, s[0].hi)
    {
      if m in MinutesOf(s[1..]) {
        var i :| Hit(s[1..], i, m);
        assert Hit(s, i + 1, m);
      }
      if m in MinutesOf(s) - Span(s[0].lo, s[0].hi) {
        var i :| Hit(s, i, m);
        assert i > 0;
        assert Hit(s[1..], i - 1, m);
      }
    }
  }

  /** Working minutes of M in [lo, hi). */
  ghost function CountIn(M: iset<int>, lo: int, hi: int): nat
    decreases hi - lo
  {
    if hi <= lo then 0 else CountIn(M, lo, hi - 1) + (if hi - 1 in M then 1 else 0)
  }

  lemma {:induction false} CountSplit(M: iset<int>, lo: int, mid: int, hi: int)
    requires lo <= mid <= hi
    ensures CountIn(M, lo, hi) == CountIn(M, lo, mid) + CountIn(M, mid, hi)
    decreases hi - mid
  {
    if mid < hi {
      CountSplit(M, lo, mid, hi - 1);
    }
  }

  lemma {:induction false} CountAtMostLength(M: iset<int>, lo: int, hi: int)
    requires lo <= hi
    ensures CountIn(M, lo, hi) <= hi - lo
    decreases hi - lo
  {
    if lo < hi {
      CountAtMostLength(M, lo, hi - 1);
    }
  }

  lemma {:induction false} CountAll(M: iset<int>, lo: int, hi: int)
    requires lo <= hi && Span(lo, hi) <= M
    ensures CountIn(M, lo, hi) == hi - lo
    decreases hi - lo
  {
    if lo < hi {
      assert hi - 1 in Span(lo, hi);
      assert Span(lo, hi - 1) <= Span(lo, hi);
      CountAll(M, lo, hi - 1);
    }
  }

  lemma {:induction false} CountNone(M: iset<int>, lo: int, hi: int)
    requires M !! Span(lo, hi)
    ensures CountIn(M, lo, hi) == 0
    decreases hi - lo
  {
    if lo < hi {
      assert hi - 1 in Span(lo, hi);
      assert Span(lo, hi - 1) <= Span(lo, hi);
      CountNone(M, lo, hi - 1);
    }
  }

  /** A positive count has a first working minute. */
  lemma {:induction false} FirstWorking(M: iset<int>, lo: int, hi: int) returns (m: int)
    requires CountIn(M, lo, hi) > 0
    ensures lo <= m < hi && m in M && CountIn(M, lo, m) == 0
    decreases hi - lo
  {
    if CountIn(M, lo, hi - 1) > 0 {
      m := FirstWorking(M, lo, hi - 1);
    } else {
      m := hi - 1;
    }
  }

  lemma CountMonotone(M: iset<int>, lo: int, hi: int, hi': int)
    requires hi <= hi'
    ensures CountIn(M, lo, hi) <= CountIn(M, lo, hi')
  {
    if lo <= hi {
      CountSplit(M, lo, hi, hi');
    }
  }

  lemma CountLaterStart(M: iset<int>, lo: int, lo': int, hi: int)
    requires lo <= lo'
    ensures CountIn(M, lo', hi) <= CountIn(M, lo, hi)
  {
    if lo' <= hi {
      CountSplit(M, lo, lo', hi);
    }
  }
}

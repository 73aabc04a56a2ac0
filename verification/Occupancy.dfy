/** One resource: its calendar windows, its unavailability, and what is reserved on it. */
module Occupancy {
  import opened Minutes
  import opened Intervals
  import opened Bundle

  /** How many reservations hold minute m. */
  ghost function CoverCount(allocs: seq<Alloc>, m: int): nat {
    if allocs == [] then 0
    else
      var last := allocs[|allocs| - 1];
      CoverCount(allocs[..|allocs| - 1], m) + (if last.start <= m < last.end then 1 else 0)
  }

  ghost predicate SaturatedAt(allocs: seq<Alloc>, cap: int, m: int) {
    CoverCount(allocs, m) >= cap
  }

  ghost function Saturated(allocs: seq<Alloc>, cap: int): iset<int> {
    iset m: int | SaturatedAt(allocs, cap, m)
  }

  /** The minutes left of a calendar once unavailability and saturated minutes are gone. */
  ghost function FreeMinutes(asWritten: bool, windows: iset<int>, ua: iset<int>,
                             allocs: seq<Alloc>, cap: int): iset<int> {
    SubtractMinutes(asWritten, SubtractMinutes(asWritten, windows, ua), Saturated(allocs, cap))
  }

  ghost predicate Proper(allocs: seq<Alloc>) {
    forall i :: 0 <= i < |allocs| ==> allocs[i].start <= allocs[i].end
  }

  function SegsOf(allocs: seq<Alloc>): seq<Seg> {
    if allocs == [] then []
    else
      var last := allocs[|allocs| - 1];
      SegsOf(allocs[..|allocs| - 1]) + [Seg(last.start, last.end)]
  }

  /** With capacity one, merging the reservations gives the saturated minutes. */
  lemma {:induction false} MergedIsSaturated(allocs: seq<Alloc>)
    ensures MinutesOf(SegsOf(allocs)) == Saturated(allocs, 1)
  {
    if allocs != [] {
      var front, last := allocs[..|allocs| - 1], allocs[|allocs| - 1];
      MergedIsSaturated(front);
      MinutesOfAppend(SegsOf(front), Seg(last.start, last.end));
      forall m: int
        ensures m in MinutesOf(SegsOf(allocs)) <==> m in Saturated(allocs, 1)
      {
        assert m in Saturated(front, 1) <==> CoverCount(front, m) >= 1;
      }
    }
  }

  // ----------------------------------------------------------- event sweep

  /** Reservations begun by t less reservations ended by t. */
  ghost function Running(allocs: seq<Alloc>, t: int): int {
    if allocs == [] then 0
    else
      var last := allocs[|allocs| - 1];
      Running(allocs[..|allocs| - 1], t) + (if last.start <= t then 1 else 0) - (if last.end <= t then 1 else 0)
  }

  lemma {:induction false} RunningIsCoverCount(allocs: seq<Alloc>, t: int)
    requires Proper(allocs)
    ensures Running(allocs, t) == CoverCount(allocs, t)
  {
    if allocs != [] {
      RunningIsCoverCount(allocs[..|allocs| - 1], t);
    }
  }

  ghost function DeltaAt(allocs: seq<Alloc>, t: int): int {
    if allocs == [] then 0
    else
      var last := allocs[|allocs| - 1];
      DeltaAt(allocs[..|allocs| - 1], t) + (if last.start == t then 1 else 0) - (if last.end == t then 1 else 0)
  }

  ghost predicate EventAt(allocs: seq<Alloc>, t: int) {
    exists i :: 0 <= i < |allocs| && (allocs[i].start == t || allocs[i].end == t)
  }

  lemma {:induction false} RunningSteady(allocs: seq<Alloc>, t: int, t': int)
    requires t <= t' && forall u :: t < u <= t' ==> !EventAt(allocs, u)
    ensures Running(allocs, t) == Running(allocs, t')
  {
    if allocs != [] {
      var front, last := allocs[..|allocs| - 1], allocs[|allocs| - 1];
      assert EventAt(allocs, last.start) && EventAt(allocs, last.end);
      forall u | t < u <= t'
        ensures !EventAt(front, u)
      {
        assert !EventAt(allocs, u);
      }
      RunningSteady(front, t, t');
    }
  }

  lemma {:induction false} RunningStep(allocs: seq<Alloc>, t: int)
    ensures Running(allocs, t) == Running(allocs, t - 1) + DeltaAt(allocs, t)
  {
    if allocs != [] {
      RunningStep(allocs[..|allocs| - 1], t);
    }
  }

  lemma {:induction false} RunningBeforeAll(allocs: seq<Alloc>, t: int)
    requires forall u :: u <= t ==> !EventAt(allocs, u)
    ensures Running(allocs, t) == 0
  {
    if allocs != [] {
      var front, last := allocs[..|allocs| - 1], allocs[|allocs| - 1];
      assert EventAt(allocs, last.start) && EventAt(allocs, last.end);
      forall u | u <= t
        ensures !EventAt(front, u)
      {
        assert !EventAt(allocs, u);
      }
      RunningBeforeAll(front, t);
    }
  }

  lemma {:induction false} RunningAfterAll(allocs: seq<Alloc>, t: int)
    requires forall u :: t < u ==> !EventAt(allocs, u)
    ensures Running(allocs, t) == 0
  {
    if allocs != [] {
      var front, last := allocs[..|allocs| - 1], allocs[|allocs| - 1];
      assert EventAt(allocs, last.start) && EventAt(allocs, last.end);
      forall u | t < u
        ensures !EventAt(front, u)
      {
        assert !EventAt(allocs, u);
      }
      RunningAfterAll(front, t);
    }
  }

  /** events holds, for every start and end, how many reservations begin less how many end. */
  ghost predicate EventsOf(allocs: seq<Alloc>, events: map<int, int>) {
    && (forall t :: t in events <==> EventAt(allocs, t))
    && (forall t :: t in events ==> events[t] == DeltaAt(allocs, t))
  }

  lemma {:induction false} NoEventNoDelta(allocs: seq<Alloc>, t: int)
    requires !EventAt(allocs, t)
    ensures DeltaAt(allocs, t) == 0
  {
    if allocs != [] {
      var front, last := allocs[..|allocs| - 1], allocs[|allocs| - 1];
      assert last.start != t && last.end != t;
      assert !EventAt(front, t);
      NoEventNoDelta(front, t);
    }
  }

  method CollectEvents(allocs: seq<Alloc>) returns (events: map<int, int>)
    ensures EventsOf(allocs, events)
  {
    events := map[];
    for n := 0 to |allocs|
      invariant EventsOf(allocs[..n], events)
    {
      var a := allocs[n];
      ghost var seen, next := allocs[..n], allocs[..n + 1];
      assert next[..|next| - 1] == seen && next[|next| - 1] == a;
      forall t
        ensures EventAt(next, t) <==> EventAt(seen, t) || t == a.start || t == a.end
        ensures !EventAt(seen, t) ==> DeltaAt(seen, t) == 0
      {
        if EventAt(seen, t) {
          var i :| 0 <= i < |seen| && (seen[i].start == t || seen[i].end == t);
          assert next[i] == seen[i];
        } else {
          NoEventNoDelta(seen, t);
        }
        assert next[n] == a;
      }
      var begun := (if a.start in events then events[a.start] else 0) + 1;
      events := events[a.start := begun];
      var ended := (if a.end in events then events[a.end] else 0) - 1;
      events := events[a.end := ended];
    }
    assert allocs[..|allocs|] == allocs;
  }

  ghost predicate SortedItemsOf(events: map<int, int>, items: seq<(int, int)>) {
    && (forall i, j :: 0 <= i < j < |items| ==> items[i].0 < items[j].0)
    && (forall i :: 0 <= i < |items| ==> items[i].0 in events && items[i].1 == events[items[i].0])
    && (forall t :: t in events ==> exists i :: 0 <= i < |items| && items[i].0 == t)
  }

  lemma {:induction false} LeastExists(keys: set<int>)
    requires keys != {}
    ensures exists k :: k in keys && forall t :: t in keys ==> k <= t
  {
    assert (forall t :: t !in keys) ==> keys == {};
    var k :| k in keys;
    if keys != {k} {
      var rest := keys - {k};
      LeastExists(rest);
      var least :| least in rest && forall t :: t in rest ==> least <= t;
      var m := if k <= least then k else least;
      forall t | t in keys
        ensures m <= t
      {
        assert t == k || t in rest;
      }
      assert m in keys;
    }
  }

  function SortedKeys(keys: set<int>): seq<int> {
    if keys == {} then []
    else
      LeastExists(keys);
      var k :| k in keys && forall t :: t in keys ==> k <= t;
      [k] + SortedKeys(keys - {k})
  }

  lemma {:induction false} SortedKeysHold(keys: set<int>)
    ensures forall t :: t in SortedKeys(keys) <==> t in keys
    ensures forall i :: 0 <= i < |SortedKeys(keys)| ==> SortedKeys(keys)[i] in keys
  {
    if keys != {} {
      var ks := SortedKeys(keys);
      SortedKeysHold(keys - {ks[0]});
      assert ks == [ks[0]] + SortedKeys(keys - {ks[0]});
    }
  }

  lemma {:induction false} SortedKeysAscend(keys: set<int>)
    ensures forall i, j :: 0 <= i < j < |SortedKeys(keys)| ==> SortedKeys(keys)[i] < SortedKeys(keys)[j]
  {
    if keys != {} {
      var ks := SortedKeys(keys);
      var rest := SortedKeys(keys - {ks[0]});
      SortedKeysAscend(keys - {ks[0]});
      SortedKeysHold(keys - {ks[0]});
      assert ks == [ks[0]] + rest;
      forall j | 0 < j < |ks|
        ensures ks[0] < ks[j]
      {
        assert ks[j] == rest[j - 1] && rest[j - 1] in rest;
      }
    }
  }

  function ItemsAt(events: map<int, int>, ks: seq<int>): (items: seq<(int, int)>)
    requires forall i :: 0 <= i < |ks| ==> ks[i] in events
    ensures |items| == |ks| && forall i :: 0 <= i < |ks| ==> items[i] == (ks[i], events[ks[i]])
  {
    if ks == [] then [] else [(ks[0], events[ks[0]])] + ItemsAt(events, ks[1..])
  }

  function SortedItems(events: map<int, int>): seq<(int, int)> {
    SortedKeysHold(events.Keys);
    ItemsAt(events, SortedKeys(events.Keys))
  }

  lemma SortedItemsAscend(events: map<int, int>)
    ensures SortedItemsOf(events, SortedItems(events))
  {
    SortedKeysAscend(events.Keys);
    SortedKeysHold(events.Keys);
    var ks, items := SortedKeys(events.Keys), SortedItems(events);
    forall t | t in events
      ensures exists i :: 0 <= i < |items| && items[i].0 == t
    {
      assert t in ks;
      var i :| 0 <= i < |ks| && ks[i] == t;
      assert items[i].0 == t;
    }
  }

  /** Minutes before t that the sweep has found saturated. */
  ghost predicate Swept(allocs: seq<Alloc>, cap: int, t: int, drops: seq<Seg>) {
    forall m :: m in MinutesOf(drops) <==> m < t && SaturatedAt(allocs, cap, m)
  }

  /** The sweep stands before item idx with `active` running since the previous item. */
  ghost predicate Sweeping(allocs: seq<Alloc>, items: seq<(int, int)>, cap: int, idx: nat, active: int, drops: seq<Seg>)
    requires |items| > 0
  {
    && idx <= |items|
    && active == Running(allocs, if idx == 0 then items[0].0 - 1 else items[idx - 1].0)
    && Swept(allocs, cap, if idx < |items| then items[idx].0 else items[|items| - 1].0, drops)
  }

  lemma NoEventBetween(allocs: seq<Alloc>, events: map<int, int>, items: seq<(int, int)>, idx: nat)
    requires EventsOf(allocs, events) && SortedItemsOf(events, items) && idx <= |items|
    ensures forall u :: EventAt(allocs, u) && (idx > 0 ==> items[idx - 1].0 < u) ==> idx < |items| && items[idx].0 <= u
  {
    forall u | EventAt(allocs, u) && (idx > 0 ==> items[idx - 1].0 < u)
      ensures idx < |items| && items[idx].0 <= u
    {
      assert u in events;
      var i :| 0 <= i < |items| && items[i].0 == u;
      assert i >= idx;
    }
  }

  lemma SweepStart(allocs: seq<Alloc>, events: map<int, int>, items: seq<(int, int)>, cap: int)
    requires Proper(allocs) && EventsOf(allocs, events) && SortedItemsOf(events, items) && |items| > 0 && cap >= 1
    ensures Sweeping(allocs, items, cap, 0, 0, [])
  {
    NoEventBetween(allocs, events, items, 0);
    RunningBeforeAll(allocs, items[0].0 - 1);
    forall m | m < items[0].0
      ensures !SaturatedAt(allocs, cap, m)
    {
      RunningBeforeAll(allocs, m);
      RunningIsCoverCount(allocs, m);
    }
  }

  lemma SweepStep(allocs: seq<Alloc>, events: map<int, int>, items: seq<(int, int)>, cap: int,
                  idx: nat, active: int, drops: seq<Seg>, drops': seq<Seg>)
    requires Proper(allocs) && EventsOf(allocs, events) && SortedItemsOf(events, items)
    requires idx < |items| && cap >= 1 && Sweeping(allocs, items, cap, idx, active, drops)
    requires var t := items[idx].0;
      var nxt := if idx + 1 < |items| then items[idx + 1].0 else t;
      drops' == if active + items[idx].1 >= cap && nxt > t then drops + [Seg(t, nxt)] else drops
    ensures Sweeping(allocs, items, cap, idx + 1, active + items[idx].1, drops')
  {
    var t := items[idx].0;
    var nxt := if idx + 1 < |items| then items[idx + 1].0 else t;
    NoEventBetween(allocs, events, items, idx);
    NoEventBetween(allocs, events, items, idx + 1);
    if idx > 0 {
      RunningSteady(allocs, items[idx - 1].0, t - 1);
    }
    RunningStep(allocs, t);
    forall m | t <= m < nxt
      ensures SaturatedAt(allocs, cap, m) <==> active + items[idx].1 >= cap
    {
      RunningSteady(allocs, t, m);
      RunningIsCoverCount(allocs, m);
    }
    MinutesOfAppend(drops, Seg(t, nxt));
  }

  lemma SweepEnd(allocs: seq<Alloc>, events: map<int, int>, items: seq<(int, int)>, cap: int, active: int,
                 drops: seq<Seg>)
    requires Proper(allocs) && EventsOf(allocs, events) && SortedItemsOf(events, items) && |items| > 0
    requires cap >= 1 && Sweeping(allocs, items, cap, |items|, active, drops)
    ensures MinutesOf(drops) == Saturated(allocs, cap)
  {
    NoEventBetween(allocs, events, items, |items|);
    forall m | items[|items| - 1].0 <= m
      ensures !SaturatedAt(allocs, cap, m)
    {
      RunningAfterAll(allocs, m);
      RunningIsCoverCount(allocs, m);
    }
  }

  method SaturatedFromEvents(events: map<int, int>, cap: int, ghost allocs: seq<Alloc>) returns (out: seq<Seg>)
    requires Proper(allocs) && EventsOf(allocs, events) && cap >= 1
    ensures Canonical(out)
    ensures MinutesOf(out) == Saturated(allocs, cap)
  {
    hide *;
    var starts := SortedItems(events);
    SortedItemsAscend(events);
    if starts == [] {
      NoEventsNothingSaturated(allocs, events, cap);
      return [];
    }
    var drops := [];
    var active := 0;
    SweepStart(allocs, events, starts, cap);
    for idx := 0 to |starts|
      invariant Sweeping(allocs, starts, cap, idx, active, drops)
    {
      var (t, delta) := starts[idx];
      ghost var before := drops;
      var nxt := if idx + 1 < |starts| then starts[idx + 1].0 else t;
      drops := if active + delta >= cap && nxt > t then drops + [Seg(t, nxt)] else drops;
      SweepStep(allocs, events, starts, cap, idx, active, before, drops);
      active := active + delta;
    }
    SweepEnd(allocs, events, starts, cap, active, drops);
    out := Merge(drops);
  }

  lemma NoEventsNothingSaturated(allocs: seq<Alloc>, events: map<int, int>, cap: int)
    requires Proper(allocs) && EventsOf(allocs, events) && cap >= 1 && SortedItemsOf(events, [])
    ensures Canonical([]) && MinutesOf([]) == Saturated(allocs, cap)
  {
    forall m: int
      ensures m !in Saturated(allocs, cap)
    {
      RunningBeforeAll(allocs, m);
      RunningIsCoverCount(allocs, m);
    }
  }

  class Resource {
    const key: Key
    const cap: int
    const windows: seq<Seg>
    const ua: seq<Seg>
    var allocs: seq<Alloc>

    ghost predicate Valid()
      reads this
    {
      cap >= 1 && Proper(allocs)
    }

    ghost function Free(asWritten: bool): iset<int>
      reads this
    {
      FreeMinutes(asWritten, MinutesOf(windows), MinutesOf(ua), allocs, cap)
    }

    constructor (key: Key, cap: int, windows: seq<Seg>, ua: seq<Seg>)
      requires cap >= 1
      ensures Valid() && this.key == key && this.cap == cap && this.windows == windows && this.ua == ua
      ensures allocs == []
    {
      this.key, this.cap, this.windows, this.ua := key, cap, windows, ua;
      allocs := [];
    }

    method FreeSegments(asWritten: bool) returns (segs: seq<Seg>)
      requires Valid()
      ensures Canonical(segs)
      ensures MinutesOf(segs) == Free(asWritten)
    {
      segs := Subtract(asWritten, windows, ua);
      if cap == 1 {
        var occ := Merge(SegsOf(allocs));
        MergedIsSaturated(allocs);
        segs := Subtract(asWritten, segs, occ);
        return;
      }
      if allocs == [] {
        NothingSaturated(MinutesOf(segs), cap);
        SubtractNothing(asWritten, MinutesOf(segs), Saturated([], cap));
        return;
      }
      var events := CollectEvents(allocs);
      var drops := SaturatedFromEvents(events, cap, allocs);
      segs := Subtract(asWritten, segs, drops);
    }
  }

  lemma NothingSaturated(S: iset<int>, cap: int)
    requires cap >= 1
    ensures Saturated([], cap) == iset{}
  {
  }

  lemma SubtractNothing(asWritten: bool, S: iset<int>, D: iset<int>)
    requires D == iset{}
    ensures SubtractMinutes(asWritten, S, D) == S
  {
    forall g, h, m
      ensures !LeakedVia(S, D, g, h, m)
    {
      assert g < m ==> m in Span(g, m + 1);
    }
  }

  /** The calendars on which the loop as written reports the true free minutes whatever is
      reserved: no unavailability straddles a closed minute, and what is open is one stretch. */
  ghost predicate OneStretch(windows: iset<int>, ua: iset<int>) {
    !Straddles(windows, ua) && !HasGap(windows - ua)
  }

  lemma FreeExactWhenOneStretch(windows: iset<int>, ua: iset<int>, allocs: seq<Alloc>, cap: int)
    requires OneStretch(windows, ua)
    ensures FreeMinutes(true, windows, ua, allocs, cap) == FreeMinutes(false, windows, ua, allocs, cap)
  {
    SubtractExactIff(windows, ua);
    SubtractAlwaysExactIff(windows - ua);
  }

  ghost predicate AlwaysExact(windows: iset<int>, ua: iset<int>) {
    forall allocs, cap :: Proper(allocs) && cap >= 1 ==>
      FreeMinutes(true, windows, ua, allocs, cap) == FreeMinutes(false, windows, ua, allocs, cap)
  }

  lemma FreeAlwaysExactIff(windows: iset<int>, ua: iset<int>)
    ensures AlwaysExact(windows, ua) <==> OneStretch(windows, ua)
  {
    if OneStretch(windows, ua) {
      forall allocs, cap | Proper(allocs) && cap >= 1
        ensures FreeMinutes(true, windows, ua, allocs, cap) == FreeMinutes(false, windows, ua, allocs, cap)
      {
        FreeExactWhenOneStretch(windows, ua, allocs, cap);
      }
    } else if Straddles(windows, ua) {
      SubtractExactIff(windows, ua);
      NothingSaturated(windows, 1);
      SubtractNothing(true, SubtractMinutes(true, windows, ua), Saturated([], 1));
      assert FreeMinutes(true, windows, ua, [], 1) != FreeMinutes(false, windows, ua, [], 1);
    } else {
      SubtractExactIff(windows, ua);
      var g, h, m :| GapAt(windows - ua, g, h, m);
      var hold := [Alloc(g, m + 1, Sid("", "", 0, None), OpMeta("", None))];
      assert hold[..0] == [];
      assert forall x :: CoverCount(hold, x) == if g <= x < m + 1 then 1 else 0;
      assert Saturated(hold, 1) == Span(g, m + 1);
      assert LeakedVia(windows - ua, Saturated(hold, 1), g, h, m);
      SubtractExactIff(windows - ua, Saturated(hold, 1));
      assert FreeMinutes(true, windows, ua, hold, 1) != FreeMinutes(false, windows, ua, hold, 1);
    }
  }
}

/** Calls that read a plan under one lock and write under another, with whatever others do in
    between. */
module PlanRaces {
  import opened Minutes
  import opened PlanStore
  import opened PlanPromises

  /** What a caller has seen and is about to write. */
  datatype Seen = Seen(call: Call, from: Status)

  /** The store, and the callers between their two locks. */
  datatype Racing = Racing(st: Store, seen: map<nat, Seen>)

  datatype Step = Whole(call: Call) | Look(id: nat, call: Call) | Write(id: nat)

  /** A transition or a dispatch that may go on to write. */
  predicate Goes(st: Store, c: Call) {
    match c
    case Move(_, _, _, _, _) => Failure(st, c).None?
    case Issue(t) => t.plan in st.plans && st.plans[t.plan].status == Released
    case _ => false
  }

  function Target(c: Call): string {
    match c case Move(_, version, _, _, _) => version case Issue(t) => t.plan case _ => ""
  }

  /** The write looks at the row of the tickets again, but not at the plan. */
  function Late(st: Store, x: Seen): Store {
    match x.call
    case Move(now, version, to, stamp, _) =>
      if version in st.plans then Written(st, now, version, x.from, to, stamp) else st
    case Issue(t) =>
      if TicketFor(st.tickets, t.plan, t.key).Some? || IdTaken(st.tickets, t.id) then st
      else st.(tickets := st.tickets + [t])
    case _ => st
  }

  function Next(w: Racing, s: Step): Racing {
    match s
    case Whole(c) => w.(st := After(w.st, c))
    case Look(id, c) =>
      if Goes(w.st, c) then w.(seen := w.seen[id := Seen(c, w.st.plans[Target(c)].status)]) else w
    case Write(id) =>
      if id in w.seen then Racing(Late(w.st, w.seen[id]), w.seen - {id}) else w
  }

  function Raced(steps: seq<Step>): Racing {
    if steps == [] then Racing(EMPTY, map[]) else Next(Raced(steps[..|steps| - 1]), steps[|steps| - 1])
  }

  // ------------------------------------------------------------- what was seen still tells

  ghost predicate SeenOk(st: Store, x: Seen) {
    match x.call
    case Move(_, version, to, _, _) =>
      && version in st.plans && Rank(x.from) >= 0 && Rank(to) == Rank(x.from) + 1
      && (Protected(to) ==> st.plans[version].identity.purpose == PRODUCTION)
    case Issue(t) => t.plan in st.plans && Protected(st.plans[t.plan].status)
    case _ => false
  }

  ghost predicate AllSeenOk(w: Racing) {
    forall id :: id in w.seen ==> SeenOk(w.st, w.seen[id])
  }

  ghost predicate Steady(w: Racing) {
    Sound(w.st) && AllSeenOk(w)
  }

  lemma SeenLater(st: Store, st': Store, x: Seen)
    requires SeenOk(st, x) && Grows(st, st')
    ensures SeenOk(st', x)
  {
    var v := Target(x.call);
    assert PlanKept(st.plans[v], st'.plans[v]);
  }

  lemma AllSeenLater(w: Racing, w': Racing)
    requires AllSeenOk(w) && Grows(w.st, w'.st)
    requires forall id :: id in w'.seen ==> id in w.seen && w'.seen[id] == w.seen[id]
    ensures AllSeenOk(w')
  {
    hide Grows, SeenOk;
    forall id | id in w'.seen
      ensures SeenOk(w'.st, w'.seen[id])
    {
      SeenLater(w.st, w'.st, w.seen[id]);
    }
  }

  // ---------------------------------------------------------------------- late writes

  /** The plan is as far on its protected way as it was when it was looked at, and still
      passes if it is to be released. */
  ghost predicate InTime(st: Store, x: Seen) {
    x.call.Move? && x.call.version in st.plans ==>
      && Ladder(st.plans[x.call.version].status) == Ladder(x.from)
      && (x.call.to == Released ==> Passing(st.plans[x.call.version]))
  }

  lemma LateMovePlans(st: Store, x: Seen)
    requires PlansOk(st) && SeenOk(st, x) && x.call.Move? && InTime(st, x)
    ensures PlansOk(Late(st, x)) && PlansGrow(st, Late(st, x))
  {
  }

  lemma LateMoveLog(st: Store, x: Seen)
    requires LogOk(st) && SeenOk(st, x) && x.call.Move?
    ensures LogOk(Late(st, x)) <==> Ladder(st.plans[x.call.version].status) == Ladder(x.from)
  {
    hide Passages;
    var v, to, st' := x.call.version, x.call.to, Late(st, x);
    var e := Event(v, x.from, to, x.call.stamp, x.call.now);
    assert st'.log == st.log + [e];
    forall u
      ensures Passages(st'.log, u) == Passages(st.log, u) + (if u == v && Protected(to) then [to] else [])
    {
      PassagesAppend(st.log, e, u);
    }
    var now := Ladder(st.plans[v].status);
    assert Passages(st'.log, v) == now + (if Protected(to) then [to] else []);
    assert Ladder(to) == Ladder(x.from) + (if Protected(to) then [to] else []);
    if Passages(st'.log, v) == Ladder(to) {
      assert Protected(to) ==> Ladder(to)[..|Ladder(to)| - 1] == now;
    }
  }

  lemma LateMoveKeeps(st: Store, x: Seen)
    requires Sound(st) && SeenOk(st, x) && x.call.Move?
    ensures Sound(Late(st, x)) <==> InTime(st, x)
    ensures InTime(st, x) ==> Grows(st, Late(st, x))
  {
    LateMoveLog(st, x);
    if InTime(st, x) {
      LateMovePlans(st, x);
      TicketsKept(st, Late(st, x));
    } else if LogOk(Late(st, x)) {
      assert !Passing(Late(st, x).plans[x.call.version]);
      assert !SoundlyReleased(Late(st, x).plans[x.call.version]);
    }
  }

  lemma LateIssueKeeps(st: Store, x: Seen)
    requires Sound(st) && SeenOk(st, x) && x.call.Issue?
    ensures Sound(Late(st, x)) && Grows(st, Late(st, x))
  {
    hide LogOk, PlansOk;
    var t, st' := x.call.ticket, Late(st, x);
    if st' == st {
      NothingGrows(st);
    } else {
      OnlyTickets(st, [t]);
      forall i | 0 <= i < |st.tickets|
        ensures st.tickets[i].id != t.id && (st.tickets[i].plan != t.plan || st.tickets[i].key != t.key)
      {
        assert st.tickets[i] in st.tickets;
      }
    }
  }

  // ------------------------------------------------------------------ interleavings

  ghost predicate WriteInTime(w: Racing, s: Step) {
    s.Write? && s.id in w.seen ==> InTime(w.st, w.seen[s.id])
  }

  lemma NextIff(w: Racing, s: Step)
    requires Steady(w)
    ensures Sound(Next(w, s).st) <==> WriteInTime(w, s)
    ensures WriteInTime(w, s) ==> Steady(Next(w, s))
  {
    hide Sound, Grows, SeenOk, InTime, Late;
    var w' := Next(w, s);
    match s
    case Whole(c) =>
      CallKeeps(w.st, c);
      AllSeenLater(w, w');
    case Look(id, c) =>
      LookKeeps(w, id, c);
    case Write(id) =>
      if id in w.seen {
        var x := w.seen[id];
        if x.call.Move? {
          LateMoveKeeps(w.st, x);
        } else {
          IssueSeen(w.st, x);
          LateIssueKeeps(w.st, x);
        }
        if InTime(w.st, x) {
          AllSeenLater(w, w');
        }
      }
  }

  lemma IssueSeen(st: Store, x: Seen)
    requires SeenOk(st, x) && !x.call.Move?
    ensures x.call.Issue? && InTime(st, x)
  {
  }

  lemma LookKeeps(w: Racing, id: nat, c: Call)
    requires AllSeenOk(w)
    ensures AllSeenOk(Next(w, Look(id, c)))
  {
  }

  ghost predicate AlwaysSound(steps: seq<Step>) {
    forall n :: 0 <= n <= |steps| ==> Sound(Raced(steps[..n]).st)
  }

  ghost predicate AlwaysInTime(steps: seq<Step>) {
    forall n :: 0 <= n < |steps| ==> WriteInTime(Raced(steps[..n]), steps[n])
  }

  lemma RacedNext(steps: seq<Step>, n: nat)
    requires n < |steps|
    ensures Raced(steps[..n + 1]) == Next(Raced(steps[..n]), steps[n])
  {
    assert steps[..n + 1][..n] == steps[..n];
  }

  lemma {:induction false} SteadyUpTo(steps: seq<Step>, n: nat)
    requires n <= |steps| && (AlwaysSound(steps) || AlwaysInTime(steps))
    ensures Steady(Raced(steps[..n]))
  {
    hide Sound, WriteInTime, Steady, Next;
    if n == 0 {
      EmptySteady();
    } else {
      SteadyUpTo(steps, n - 1);
      RacedNext(steps, n - 1);
      NextIff(Raced(steps[..n - 1]), steps[n - 1]);
    }
  }

  lemma EmptySteady()
    ensures Steady(Raced([]))
  {
  }

  /** However transitions and dispatches interleave, the store keeps what it promises exactly
      as long as each transition writes in time: its plan has entered no protected status
      since it was looked at, and still passes if it is to be released. A dispatch never comes
      too late. */
  lemma RacesSoundIff(steps: seq<Step>)
    ensures AlwaysSound(steps) <==> AlwaysInTime(steps)
  {
    hide Sound, WriteInTime, Steady, Next;
    if AlwaysSound(steps) {
      forall n | 0 <= n < |steps|
        ensures WriteInTime(Raced(steps[..n]), steps[n])
      {
        SteadyUpTo(steps, n);
        RacedNext(steps, n);
        NextIff(Raced(steps[..n]), steps[n]);
      }
    }
    if AlwaysInTime(steps) {
      forall n | 0 <= n <= |steps|
        ensures Sound(Raced(steps[..n]).st)
      {
        SteadyUpTo(steps, n);
        SteadySound(Raced(steps[..n]));
      }
    }
  }

  lemma SteadySound(w: Racing)
    requires Steady(w)
    ensures Sound(w.st)
  {
  }

  const RELEASE := Move(0, "v", Released, BY_HAND, None)

  const DISPATCH := Move(0, "v", Dispatched, BY_HAND, None)

  const SAVE := Save(0, "v", SOME_PLAN, PASSED, Approved, "")

  /** Two callers release one plan; before the second has written, the plan is dispatched. */
  const LATE_RELEASE := [Whole(SAVE), Look(0, RELEASE), Whole(RELEASE), Whole(DISPATCH), Write(0)]

  /** The late write takes the dispatched plan back to released, and its release is logged
      twice. */
  lemma DispatchedGoesBack()
    ensures var w, w' := Raced(LATE_RELEASE[..4]), Raced(LATE_RELEASE);
      && "v" in w.st.plans && w.st.plans["v"].status == Dispatched
      && "v" in w'.st.plans && w'.st.plans["v"].status == Released
      && Passages(w'.st.log, "v") == [Released, Dispatched, Released]
  {
    FirstThree();
    FirstFour();
    var w := Raced(LATE_RELEASE[..4]);
    assert LATE_RELEASE[..5] == LATE_RELEASE;
    RacedNext(LATE_RELEASE, 4);
    hide Raced, Passages;
    PassagesAppend(w.st.log, Event("v", Approved, Released, BY_HAND, 0), "v");
    assert [Released, Dispatched] + [Released] == [Released, Dispatched, Released];
  }

  lemma FirstThree()
    ensures var w := Raced(LATE_RELEASE[..3]);
      && "v" in w.st.plans && w.st.plans["v"].status == Released && w.st.plans["v"].identity == SOME_PLAN
      && Passages(w.st.log, "v") == [Released] && w.seen == map[0 := Seen(RELEASE, Approved)]
  {
    RacedNext(LATE_RELEASE, 0);
    RacedNext(LATE_RELEASE, 1);
    RacedNext(LATE_RELEASE, 2);
    assert LATE_RELEASE[..0] == [] && Raced([]).st == EMPTY;
    hide Raced, Passages;
    PassagesAppend([], Event("v", Approved, Released, BY_HAND, 0), "v");
    NotLogged([], "v");
  }

  lemma FirstFour()
    requires var w := Raced(LATE_RELEASE[..3]);
      && "v" in w.st.plans && w.st.plans["v"].status == Released && w.st.plans["v"].identity == SOME_PLAN
      && Passages(w.st.log, "v") == [Released]
    ensures var w, w' := Raced(LATE_RELEASE[..3]), Raced(LATE_RELEASE[..4]);
      && "v" in w'.st.plans && w'.st.plans["v"].status == Dispatched
      && Passages(w'.st.log, "v") == [Released, Dispatched] && w'.seen == w.seen
  {
    RacedNext(LATE_RELEASE, 3);
    hide Raced, Passages;
    PassagesAppend(Raced(LATE_RELEASE[..3]).st.log, Event("v", Released, Dispatched, BY_HAND, 0), "v");
    assert [Released] + [Dispatched] == [Released, Dispatched];
  }
}

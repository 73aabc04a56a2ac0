/** What any sequence of ingests and publications keeps in the canonical store. */
module CanonicalPromises {
  import opened Canonical

  /** The version numbers of entity e, oldest first. */
  ghost function Numbers(versions: seq<Version>, e: nat): seq<nat> {
    if versions == [] then []
    else
      var last := versions[|versions| - 1];
      Numbers(versions[..|versions| - 1], e) + (if last.entity == e then [last.number] else [])
  }

  ghost function Upto(n: nat): seq<nat> {
    seq(n, i requires 0 <= i < n => i + 1)
  }

  ghost predicate OneEach(st: Store) {
    forall i, j :: 0 <= i < j < |st.entities| ==> st.entities[i].name != st.entities[j].name
  }

  ghost predicate Numbered(st: Store) {
    forall e :: 0 <= e < |st.entities| ==> Numbers(st.versions, e) == Upto(st.entities[e].current)
  }

  /** Row k of versions, ledger, outbox and consents tells of one publication: of a candidate
      of the batch, under the name it has. */
  ghost predicate RowRight(st: Store, k: nat)
    requires BatchesKnown(st)
    requires k < |st.versions| && k < |st.ledger| && k < |st.outbox| && k < |st.consents|
  {
    var v, l, c := st.versions[k], st.ledger[k], st.consents[k];
    && v.entity < |st.entities| && v.batch < |st.batches|
    && l.entity == v.entity && l.version == v.number && l.batch == v.batch
    && st.outbox[k] == Message(k, v.entity, v.number)
    && c.batch == v.batch && c.candidate < |st.candidates| && l.actor == c.actor && l.overridden == c.overridden
    && st.candidates[c.candidate].batch == v.batch && st.candidates[c.candidate].fields == v.fields
    && st.entities[v.entity].name == NameOf(st, c.candidate)
  }

  ghost predicate InStep(st: Store) {
    |st.versions| == |st.ledger| == |st.outbox| == |st.consents|
  }

  ghost predicate RowsRight(st: Store)
    requires BatchesKnown(st) && InStep(st)
  {
    forall k :: 0 <= k < |st.versions| ==> RowRight(st, k)
  }

  ghost predicate Good(st: Store) {
    BatchesKnown(st) && InStep(st) && OneEach(st) && Numbered(st) && RowsRight(st)
  }

  /** What a later state keeps: every row but an entity's current number and the published
      marks, and that number only grows. */
  ghost predicate Later(st: Store, st': Store) {
    && st.versions <= st'.versions && st.ledger <= st'.ledger && st.outbox <= st'.outbox && st.consents <= st'.consents
    && |st.entities| <= |st'.entities| && |st.candidates| <= |st'.candidates| && |st.batches| <= |st'.batches|
    && (forall e :: 0 <= e < |st.entities| ==>
          st.entities[e].name == st'.entities[e].name && st.entities[e].current <= st'.entities[e].current)
    && (forall i :: 0 <= i < |st.candidates| ==>
          st.candidates[i].(published := false) == st'.candidates[i].(published := false))
    && (forall b :: 0 <= b < |st.batches| ==> st.batches[b].(published := false) == st'.batches[b].(published := false))
  }

  lemma LaterThrough(a: Store, b: Store, c: Store)
    requires Later(a, b) && Later(b, c)
    ensures Later(a, c)
  {
  }

  lemma NameLater(st: Store, st': Store, i: nat)
    requires BatchesKnown(st) && BatchesKnown(st') && Later(st, st') && i < |st.candidates|
    ensures NameOf(st', i) == NameOf(st, i)
  {
    assert st.candidates[i].(published := false) == st'.candidates[i].(published := false);
    var b := st.candidates[i].batch;
    assert st.batches[b].(published := false) == st'.batches[b].(published := false);
  }

  lemma RowLater(st: Store, st': Store, k: nat)
    requires Good(st) && BatchesKnown(st') && InStep(st') && Later(st, st') && k < |st.versions|
    ensures RowRight(st', k)
  {
    assert RowRight(st, k);
    var i := st.consents[k].candidate;
    NameLater(st, st', i);
    assert st.candidates[i].(published := false) == st'.candidates[i].(published := false);
  }

  // ------------------------------------------------------------------ one candidate

  lemma NumbersAppend(versions: seq<Version>, v: Version, e: nat)
    ensures Numbers(versions + [v], e) == Numbers(versions, e) + (if v.entity == e then [v.number] else [])
  {
    assert (versions + [v])[..|versions + [v]| - 1] == versions;
  }

  lemma {:induction false} NumbersNone(versions: seq<Version>, e: nat)
    requires forall k :: 0 <= k < |versions| ==> versions[k].entity != e
    ensures Numbers(versions, e) == []
  {
    if versions != [] {
      NumbersNone(versions[..|versions| - 1], e);
    }
  }

  lemma BumpedKeeps(entities: seq<Entity>, name: Name)
    requires forall i, j :: 0 <= i < j < |entities| ==> entities[i].name != entities[j].name
    ensures var (es, e) := Bumped(entities, name);
      && (forall i, j :: 0 <= i < j < |es| ==> es[i].name != es[j].name)
      && es[e].name == name && |entities| <= |es|
      && (forall i :: 0 <= i < |es| && i != e ==> i < |entities| && es[i] == entities[i])
      && (if e < |entities| then entities[e].name == name && es[e].current == entities[e].current + 1
          else e == |entities| && es[e].current == 1)
  {
  }

  lemma PublishedOneNumbers(st: Store, i: nat, who: Approver)
    requires Good(st) && i < |st.candidates|
    ensures Numbered(PublishedOne(st, i, who))
  {
    hide RowRight, NameOf;
    BumpedKeeps(st.entities, NameOf(st, i));
    var (es, e) := Bumped(st.entities, NameOf(st, i));
    var st' := PublishedOne(st, i, who);
    var v := Version(e, es[e].current, st.candidates[i].fields, st.candidates[i].batch);
    assert st'.entities == es && st'.versions == st.versions + [v];
    if e == |st.entities| {
      forall k | 0 <= k < |st.versions|
        ensures st.versions[k].entity != e
      {
        RowEntity(st, k);
      }
      NumbersNone(st.versions, e);
    }
    forall d | 0 <= d < |es|
      ensures Numbers(st'.versions, d) == Upto(es[d].current)
    {
      NumbersAppend(st.versions, v, d);
    }
  }

  lemma RowEntity(st: Store, k: nat)
    requires Good(st) && k < |st.versions|
    ensures st.versions[k].entity < |st.entities|
  {
    assert RowRight(st, k);
  }

  lemma PublishedOneLater(st: Store, i: nat, who: Approver)
    requires Good(st) && i < |st.candidates|
    ensures var st' := PublishedOne(st, i, who);
      Later(st, st') && BatchesKnown(st') && InStep(st') && OneEach(st')
  {
    BumpedKeeps(st.entities, NameOf(st, i));
    hide Bumped, RowRight, NameOf, Numbers, Upto;
  }

  lemma PublishedOneKeeps(st: Store, i: nat, who: Approver)
    requires Good(st) && i < |st.candidates|
    ensures Good(PublishedOne(st, i, who)) && Later(st, PublishedOne(st, i, who))
  {
    hide Later, OneEach, Numbered, RowRight;
    PublishedOneLater(st, i, who);
    PublishedOneNumbers(st, i, who);
    var st' := PublishedOne(st, i, who);
    forall k | 0 <= k < |st'.versions|
      ensures RowRight(st', k)
    {
      if k < |st.versions| {
        RowLater(st, st', k);
      } else {
        NewRow(st, i, who);
      }
    }
  }

  lemma NewRow(st: Store, i: nat, who: Approver)
    requires Good(st) && i < |st.candidates|
    ensures var st' := PublishedOne(st, i, who);
      && |st'.versions| == |st.versions| + 1 && InStep(st') && BatchesKnown(st')
      && RowRight(st', |st.versions|) && st'.consents[|st.versions|].candidate == i
      && st'.entities[st'.versions[|st.versions|].entity].current == st'.versions[|st.versions|].number
  {
    PublishedOneLater(st, i, who);
    var st' := PublishedOne(st, i, who);
    NameLater(st, st', i);
    BumpedKeeps(st.entities, NameOf(st, i));
    hide Later, OneEach, Numbered, NameOf, Bumped;
  }

  // ------------------------------------------------------------------- whole calls

  lemma {:induction false} PublishedUpToKeeps(st: Store, b: nat, n: nat, who: Approver)
    requires Good(st) && n <= |st.candidates|
    ensures Good(PublishedUpTo(st, b, n, who)) && Later(st, PublishedUpTo(st, b, n, who))
  {
    hide Good, Later, PublishedOne;
    if n == 0 {
      LaterSelf(st);
    } else {
      PublishedUpToKeeps(st, b, n - 1, who);
      var st1 := PublishedUpTo(st, b, n - 1, who);
      if st1.candidates[n - 1].batch == b {
        PublishedOneKeeps(st1, n - 1, who);
        LaterThrough(st, st1, PublishedOne(st1, n - 1, who));
      }
    }
  }

  lemma LaterSelf(st: Store)
    ensures Later(st, st)
  {
  }

  /** Nothing but marks and new batches and candidates. */
  lemma GoodLater(st: Store, st': Store)
    requires Good(st) && Later(st, st') && BatchesKnown(st')
    requires st'.entities == st.entities && st'.versions == st.versions && st'.ledger == st.ledger
    requires st'.outbox == st.outbox && st'.consents == st.consents
    ensures Good(st')
  {
    hide Later, RowRight;
    forall k | 0 <= k < |st'.versions|
      ensures RowRight(st', k)
    {
      RowLater(st, st', k);
    }
  }

  lemma PublishKeeps(st: Store, b: nat, who: Approver)
    requires Good(st)
    ensures Good(Publish(st, b, who)) && Later(st, Publish(st, b, who))
  {
    if b < |st.batches| {
      hide Good;
      PublishedUpToKeeps(st, b, |st.candidates|, who);
      var st1 := PublishedUpTo(st, b, |st.candidates|, who);
      MarkLater(st1, b);
      GoodLater(st1, Publish(st, b, who));
      LaterThrough(st, st1, Publish(st, b, who));
    } else {
      LaterSelf(st);
    }
  }

  lemma MarkLater(st: Store, b: nat)
    requires b < |st.batches|
    ensures Later(st, st.(batches := st.batches[b := st.batches[b].(published := true)]))
  {
  }

  lemma CallKeeps(st: Store, c: Call)
    requires Good(st)
    ensures Good(After(st, c)) && Later(st, After(st, c))
  {
    match c
    case Take(items, tenant, task) =>
      var st' := Ingest(st, items, tenant, task);
      assert Later(st, st');
      hide Good, Later, Ingest;
      GoodLater(st, st');
    case Put(b, who) =>
      hide Good, Later;
      PublishKeeps(st, b, who);
  }

  /** In every reachable store each name has one entity, an entity's versions are 1 up to its
      current number, in order, and version, ledger, outbox and approval rows match one to
      one. */
  lemma {:induction false} RunGood(calls: seq<Call>)
    ensures Good(Run(calls))
  {
    if calls != [] {
      hide Good;
      RunGood(calls[..|calls| - 1]);
      CallKeeps(Run(calls[..|calls| - 1]), calls[|calls| - 1]);
    }
  }

  /** No row is ever changed or lost, older payloads included. */
  lemma {:induction false} RunLater(calls: seq<Call>, i: nat)
    requires i <= |calls|
    ensures Later(Run(calls[..i]), Run(calls))
  {
    hide Good, Later;
    if i == |calls| {
      assert calls[..i] == calls;
      LaterSelf(Run(calls));
    } else {
      var front := calls[..|calls| - 1];
      assert front[..i] == calls[..i];
      RunLater(front, i);
      RunGood(front);
      CallKeeps(Run(front), calls[|calls| - 1]);
      LaterThrough(Run(calls[..i]), Run(front), Run(calls));
    }
  }

  // ---------------------------------------------------------------------- reading back

  /** Ledger row k of the batch, joined with the version that is its entity's current one. */
  predicate Shown(st: Store, b: nat, k: nat)
    requires Good(st)
  {
    k < |st.ledger| && st.ledger[k].batch == b && ShowsCurrent(st, k)
  }

  predicate ShowsCurrent(st: Store, k: nat)
    requires Good(st) && k < |st.ledger|
  {
    RowEntity(st, k);
    assert RowRight(st, k);
    st.entities[st.ledger[k].entity].current == st.ledger[k].version
  }

  function ShownName(st: Store, k: nat): Name
    requires Good(st) && k < |st.ledger|
  {
    RowEntity(st, k);
    assert RowRight(st, k);
    st.entities[st.ledger[k].entity].name
  }

  /** A version number of an entity stands in one row. */
  lemma {:induction false} OneRow(versions: seq<Version>, e: nat, n: nat, j: nat, k: nat)
    requires Numbers(versions, e) == Upto(n) && j < k < |versions|
    requires versions[j].entity == e && versions[k].entity == e
    ensures versions[j].number < versions[k].number
  {
    var front, last := versions[..|versions| - 1], versions[|versions| - 1];
    if last.entity == e {
      assert Upto(n)[..n - 1] == Upto(n - 1);
      assert Numbers(front, e) == Numbers(versions, e)[..n - 1];
      if k < |versions| - 1 {
        OneRow(front, e, n - 1, j, k);
      } else {
        NumberIn(front, e, n - 1, j);
        assert Numbers(versions, e) == Numbers(front, e) + [last.number];
        assert Upto(n)[n - 1] == n;
      }
    } else {
      OneRow(front, e, n, j, k);
    }
  }

  lemma {:induction false} NumberIn(versions: seq<Version>, e: nat, n: nat, j: nat)
    requires Numbers(versions, e) == Upto(n) && j < |versions| && versions[j].entity == e
    ensures versions[j].number <= n
  {
    var front, last := versions[..|versions| - 1], versions[|versions| - 1];
    if last.entity == e {
      assert Upto(n)[..n - 1] == Upto(n - 1);
      assert Numbers(front, e) == Numbers(versions, e)[..n - 1];
      if j < |versions| - 1 {
        NumberIn(front, e, n - 1, j);
      } else {
        assert Numbers(versions, e) == Numbers(front, e) + [last.number];
        assert Upto(n)[n - 1] == n;
      }
    } else {
      NumberIn(front, e, n, j);
    }
  }

  lemma ShownDiffer(st: Store, b: nat, j: nat, k: nat)
    requires Good(st) && Shown(st, b, j) && Shown(st, b, k) && j != k
    ensures ShownName(st, j) != ShownName(st, k)
  {
    assert RowRight(st, j) && RowRight(st, k);
    var e := st.ledger[j].entity;
    if e == st.ledger[k].entity {
      assert Numbers(st.versions, e) == Upto(st.entities[e].current);
      OneRow(st.versions, e, st.entities[e].current, if j < k then j else k, if j < k then k else j);
    }
  }

  /** Row k shows the name of candidate i, and tells of the last candidate of the batch under
      that name among the first n. */
  ghost predicate ReadsBack(st: Store, b: nat, n: nat, i: nat, k: nat)
    requires Good(st) && i < |st.candidates| && n <= |st.candidates|
  {
    && Shown(st, b, k) && ShownName(st, k) == NameOf(st, i) && st.consents[k].candidate < n
    && forall j :: 0 <= j < n && st.candidates[j].batch == b && NameOf(st, j) == NameOf(st, i) ==>
         j <= st.consents[k].candidate
  }

  ghost predicate SomeRow(st: Store, b: nat, n: nat, i: nat)
    requires Good(st) && i < |st.candidates| && n <= |st.candidates|
  {
    exists k: nat :: ReadsBack(st, b, n, i, k)
  }

  ghost predicate AllReadBack(st: Store, b: nat, n: nat)
    requires Good(st) && n <= |st.candidates|
  {
    forall i :: 0 <= i < n && st.candidates[i].batch == b ==> SomeRow(st, b, n, i)
  }

  lemma StillShown(st: Store, i: nat, who: Approver, b: nat, k: nat)
    requires Good(st) && i < |st.candidates| && Shown(st, b, k) && ShownName(st, k) != NameOf(st, i)
    requires Good(PublishedOne(st, i, who))
    ensures var st' := PublishedOne(st, i, who);
      Shown(st', b, k) && ShownName(st', k) == ShownName(st, k) && st'.consents[k] == st.consents[k]
  {
    assert RowRight(st, k);
    BumpedKeeps(st.entities, NameOf(st, i));
    hide Bumped, Numbered, OneEach, RowRight, NameOf;
  }

  /** Publishing candidate n shows it, in place of any earlier candidate under its name. */
  lemma PublishedOneReads(st: Store, b: nat, n: nat, i: nat, who: Approver)
    requires Good(st) && n < |st.candidates| && st.candidates[n].batch == b && AllReadBack(st, b, n)
    requires i <= n && st.candidates[i].batch == b
    requires Good(PublishedOne(st, n, who)) && Later(st, PublishedOne(st, n, who))
    ensures SomeRow(PublishedOne(st, n, who), b, n + 1, i)
  {
    var st' := PublishedOne(st, n, who);
    var K := |st.ledger|;
    NamesLater(st, st');
    if NameOf(st, i) == NameOf(st, n) {
      NewRow(st, n, who);
      hide Good, PublishedOne, NameOf;
      assert ReadsBack(st', b, n + 1, i, K);
    } else {
      assert SomeRow(st, b, n, i);
      var k: nat :| ReadsBack(st, b, n, i, k);
      StillShown(st, n, who, b, k);
      hide Good, PublishedOne, NameOf, Shown, ShownName;
      assert ReadsBack(st', b, n + 1, i, k);
    }
  }

  lemma NamesLater(st: Store, st': Store)
    requires BatchesKnown(st) && BatchesKnown(st') && Later(st, st')
    ensures forall i :: 0 <= i < |st.candidates| ==>
              NameOf(st', i) == NameOf(st, i) && st'.candidates[i].batch == st.candidates[i].batch
  {
    forall i | 0 <= i < |st.candidates|
      ensures NameOf(st', i) == NameOf(st, i) && st'.candidates[i].batch == st.candidates[i].batch
    {
      NameLater(st, st', i);
      assert st.candidates[i].(published := false) == st'.candidates[i].(published := false);
    }
  }

  lemma StepReads(st: Store, b: nat, n: nat, who: Approver)
    requires Good(st) && n < |st.candidates| && AllReadBack(st, b, n)
    ensures var st' := if st.candidates[n].batch == b then PublishedOne(st, n, who) else st;
      Good(st') && |st'.candidates| == |st.candidates| && AllReadBack(st', b, n + 1)
  {
    assert BatchesKnown(st);
    hide Good, Later, PublishedOne, SomeRow;
    var st' := if st.candidates[n].batch == b then PublishedOne(st, n, who) else st;
    if st.candidates[n].batch == b {
      PublishedOneKeeps(st, n, who);
      SameCandidates(st, n, who);
      forall i | 0 <= i <= n && st'.candidates[i].batch == b
        ensures SomeRow(st', b, n + 1, i)
      {
        PublishedOneReads(st, b, n, i, who);
      }
    } else {
      forall i | 0 <= i <= n && st.candidates[i].batch == b
        ensures SomeRow(st, b, n + 1, i)
      {
        OneMore(st, b, n, i);
      }
    }
  }

  lemma SameCandidates(st: Store, n: nat, who: Approver)
    requires BatchesKnown(st) && n < |st.candidates|
    ensures |PublishedOne(st, n, who).candidates| == |st.candidates|
    ensures forall i :: 0 <= i < |st.candidates| ==>
              PublishedOne(st, n, who).candidates[i].batch == st.candidates[i].batch
  {
  }

  lemma {:induction false} PublishedUpToReads(st: Store, b: nat, n: nat, who: Approver)
    requires Good(st) && n <= |st.candidates|
    ensures Good(PublishedUpTo(st, b, n, who)) && AllReadBack(PublishedUpTo(st, b, n, who), b, n)
  {
    hide Good, AllReadBack, PublishedOne;
    if n > 0 {
      PublishedUpToReads(st, b, n - 1, who);
      StepReads(PublishedUpTo(st, b, n - 1, who), b, n - 1, who);
    } else {
      NothingRead(st, b);
    }
  }

  lemma NothingRead(st: Store, b: nat)
    requires Good(st)
    ensures AllReadBack(st, b, 0)
  {
  }

  lemma OneMore(st: Store, b: nat, n: nat, i: nat)
    requires Good(st) && n < |st.candidates| && i < |st.candidates| && st.candidates[n].batch != b
             && SomeRow(st, b, n, i)
    ensures SomeRow(st, b, n + 1, i)
  {
    var k: nat :| ReadsBack(st, b, n, i, k);
    hide Good, NameOf, Shown, ShownName;
    assert ReadsBack(st, b, n + 1, i, k);
  }

  /** The rows that reading the batch back shows, by the name they show. */
  function Readback(st: Store, b: nat): map<nat, Name>
    requires Good(st)
  {
    map k: nat | k < |st.ledger| && Shown(st, b, k) :: ShownName(st, k)
  }

  ghost function NamesOf(st: Store, b: nat): map<nat, Name>
    requires BatchesKnown(st)
  {
    map i: nat | i < |st.candidates| && st.candidates[i].batch == b :: NameOf(st, i)
  }

  ghost predicate Injective(m: map<nat, Name>) {
    forall i, j :: i in m && j in m && i != j ==> m[i] != m[j]
  }

  lemma Without(m: map<nat, Name>, i: nat)
    requires i in m
    ensures var rest := m - {i};
      && m.Keys == rest.Keys + {i} && i !in rest.Keys && m.Values == rest.Values + {m[i]}
      && (Injective(m) <==> Injective(rest) && m[i] !in rest.Values)
  {
    var rest := m - {i};
    assert forall j :: j in rest ==> m[j] == rest[j] && m[j] in rest.Values;
    if m[i] in rest.Values {
      var j :| j in rest && rest[j] == m[i];
      assert j in m && i != j;
    }
  }

  /** A map has no more values than keys, and as many exactly when it is injective. */
  lemma {:induction false} ValuesIff(m: map<nat, Name>)
    ensures |m.Values| <= |m.Keys|
    ensures |m.Values| == |m.Keys| <==> Injective(m)
    decreases |m|
  {
    if m == map[] {
      assert m.Values == {};
    } else {
      hide Injective;
      var i :| i in m;
      Without(m, i);
      ValuesIff(m - {i});
    }
  }

  lemma ReadsExactly(st: Store, b: nat)
    requires Good(st) && AllReadBack(st, b, |st.candidates|)
    ensures Readback(st, b).Values == NamesOf(st, b).Values
    ensures Injective(Readback(st, b))
  {
    forall i | i in NamesOf(st, b)
      ensures NameOf(st, i) in Readback(st, b).Values
    {
      assert SomeRow(st, b, |st.candidates|, i);
      var k: nat :| ReadsBack(st, b, |st.candidates|, i, k);
      assert Readback(st, b)[k] == NameOf(st, i);
    }
    forall k | k in Readback(st, b)
      ensures ShownName(st, k) in NamesOf(st, b).Values
    {
      assert RowRight(st, k);
      assert NamesOf(st, b)[st.consents[k].candidate] == ShownName(st, k);
    }
    forall j, k | j in Readback(st, b) && k in Readback(st, b) && j != k
      ensures Readback(st, b)[j] != Readback(st, b)[k]
    {
      ShownDiffer(st, b, j, k);
    }
  }

  /** Right after a publication, reading the batch back shows each name of the batch once,
      with its last candidate; so it shows as many rows as the batch has candidates exactly
      when no two of them share a name. */
  lemma ReadbackAfterPublish(st: Store, b: nat, who: Approver)
    requires Good(st) && b < |st.batches|
    ensures var st' := Publish(st, b, who);
      && Good(st') && AllReadBack(st', b, |st'.candidates|)
      && Readback(st', b).Values == NamesOf(st', b).Values
      && |Readback(st', b)| <= |NamesOf(st', b)|
      && (|Readback(st', b)| == |NamesOf(st', b)|
          <==> Injective(NamesOf(st', b)))
  {
    assert BatchesKnown(st);
    hide Good, AllReadBack, Readback, NamesOf, PublishedUpTo;
    var st1 := PublishedUpTo(st, b, |st.candidates|, who);
    PublishedUpToReads(st, b, |st.candidates|, who);
    var st' := Publish(st, b, who);
    PublishKeeps(st, b, who);
    MarkReads(st1, b);
    ReadsExactly(st', b);
    ValuesIff(Readback(st', b));
    ValuesIff(NamesOf(st', b));
    MapSize(Readback(st', b));
    MapSize(NamesOf(st', b));
  }

  lemma MapSize(m: map<nat, Name>)
    ensures |m.Keys| == |m|
  {
  }

  /** The mark on a batch changes no name and no row. */
  lemma MarkReads(st: Store, b: nat)
    requires Good(st) && b < |st.batches| && AllReadBack(st, b, |st.candidates|)
    requires Good(st.(batches := st.batches[b := st.batches[b].(published := true)]))
    ensures AllReadBack(st.(batches := st.batches[b := st.batches[b].(published := true)]), b, |st.candidates|)
  {
    var st' := st.(batches := st.batches[b := st.batches[b].(published := true)]);
    forall i | 0 <= i < |st.candidates| && st.candidates[i].batch == b
      ensures SomeRow(st', b, |st.candidates|, i)
    {
      assert SomeRow(st, b, |st.candidates|, i);
      var k: nat :| ReadsBack(st, b, |st.candidates|, i, k);
      MarkLater(st, b);
      NamesLater(st, st');
      hide Good, NameOf, Later;
      assert ReadsBack(st', b, |st.candidates|, i, k);
    }
  }

  // ------------------------------------------------------------------ publishing again

  function EntryCount(ledger: seq<Entry>, b: nat): nat {
    if ledger == [] then 0
    else EntryCount(ledger[..|ledger| - 1], b) + (if ledger[|ledger| - 1].batch == b then 1 else 0)
  }

  ghost function CandidateCount(cs: seq<Candidate>, b: nat): nat {
    if cs == [] then 0
    else CandidateCount(cs[..|cs| - 1], b) + (if cs[|cs| - 1].batch == b then 1 else 0)
  }

  lemma CandidateNext(cs: seq<Candidate>, n: nat, b: nat)
    requires n < |cs|
    ensures CandidateCount(cs[..n + 1], b) == CandidateCount(cs[..n], b) + (if cs[n].batch == b then 1 else 0)
  {
    assert cs[..n + 1][..n] == cs[..n];
  }

  lemma UpToNext(st: Store, b: nat, n: nat, who: Approver)
    requires BatchesKnown(st) && n < |st.candidates|
    ensures var st1 := PublishedUpTo(st, b, n, who);
      && st1.candidates[n].batch == st.candidates[n].batch
      && PublishedUpTo(st, b, n + 1, who) == if st.candidates[n].batch == b then PublishedOne(st1, n, who) else st1
  {
    hide PublishedOne;
    var st1 := PublishedUpTo(st, b, n, who);
    assert st1.candidates[n].(published := false) == st.candidates[n].(published := false);
  }

  lemma {:induction false} PublishedUpToCounts(st: Store, b: nat, n: nat, who: Approver, d: nat)
    requires BatchesKnown(st) && n <= |st.candidates|
    ensures EntryCount(PublishedUpTo(st, b, n, who).ledger, d)
            == EntryCount(st.ledger, d) + (if b == d then CandidateCount(st.candidates[..n], b) else 0)
  {
    hide PublishedOne, EntryCount, CandidateCount, PublishedUpTo;
    if n == 0 {
      NothingCounted(st, b, who);
    } else {
      var st1 := PublishedUpTo(st, b, n - 1, who);
      PublishedUpToCounts(st, b, n - 1, who, d);
      CandidateNext(st.candidates, n - 1, b);
      UpToNext(st, b, n - 1, who);
      if st.candidates[n - 1].batch == b {
        EntryAppends(st1, n - 1, who, d);
      }
    }
  }

  lemma NothingCounted(st: Store, b: nat, who: Approver)
    requires BatchesKnown(st)
    ensures PublishedUpTo(st, b, 0, who) == st && CandidateCount(st.candidates[..0], b) == 0
  {
  }

  lemma EntryAppends(st: Store, i: nat, who: Approver, d: nat)
    requires i < |st.candidates| && st.candidates[i].batch < |st.batches|
    ensures EntryCount(PublishedOne(st, i, who).ledger, d)
            == EntryCount(st.ledger, d) + (if st.candidates[i].batch == d then 1 else 0)
  {
    var st' := PublishedOne(st, i, who);
    assert st'.ledger[..|st'.ledger| - 1] == st.ledger;
  }

  /** A publication writes one ledger row for each candidate of its batch and none for any
      other batch, however often the batch was published before. */
  lemma PublishCounts(st: Store, b: nat, who: Approver, d: nat)
    requires BatchesKnown(st) && b < |st.batches|
    ensures EntryCount(Publish(st, b, who).ledger, d)
            == EntryCount(st.ledger, d) + (if b == d then CandidateCount(st.candidates, b) else 0)
  {
    PublishedUpToCounts(st, b, |st.candidates|, who, d);
    assert st.candidates[..|st.candidates|] == st.candidates;
  }

  const ORDER := Item("order", map["order_id" := "O"])

  /** One order, taken in and published twice: its entity has a second version with the same
      fields. */
  lemma OrderTwice(who: Approver)
    ensures var st := Run([Take([ORDER], "t", "k"), Put(0, who), Put(0, who)]);
      && |st.candidates| == 1 && |st.entities| == 1 && |st.ledger| == 2
      && st.versions == [Version(0, 1, ORDER.fields, 0), Version(0, 2, ORDER.fields, 0)]
  {
    var take, put := Take([ORDER], "t", "k"), Put(0, who);
    RunThree(take, put, put);
    OrderTaken();
    hide Run, Publish, CandidatesFrom;
    FirstTwice(Ingest(EMPTY, [ORDER], "t", "k"), who);
  }

  lemma FirstTwice(st: Store, who: Approver)
    requires |st.candidates| == 1 && st.candidates[0].batch == 0 && |st.batches| == 1
    requires st.entities == [] && st.versions == [] && st.ledger == []
    ensures BatchesKnown(st) && BatchesKnown(Publish(st, 0, who))
    ensures var st', fields := Publish(Publish(st, 0, who), 0, who), st.candidates[0].fields;
      && |st'.candidates| == 1 && |st'.entities| == 1 && |st'.ledger| == 2
      && st'.versions == [Version(0, 1, fields, 0), Version(0, 2, fields, 0)]
  {
    hide Publish, NameOf;
    OneCandidate(st, who);
    OneCandidate(Publish(st, 0, who), who);
  }

  lemma OrderTaken()
    ensures var st := Ingest(EMPTY, [ORDER], "t", "k");
      && st.candidates == [Candidate(0, "order", ORDER.fields, false)] && |st.batches| == 1
      && st.entities == [] && st.versions == [] && st.ledger == []
  {
    assert [ORDER][..0] == [];
  }

  lemma RunThree(a: Call, b: Call, c: Call)
    ensures Run([a, b, c]) == After(After(After(EMPTY, a), b), c)
  {
    hide Ingest, Publish;
    assert [a][..0] == [] && Run([a]) == After(Run([]), a);
    assert [a, b][..1] == [a] && Run([a, b]) == After(Run([a]), b);
    assert [a, b, c][..2] == [a, b];
  }

  lemma OneCandidate(st: Store, who: Approver)
    requires |st.candidates| == 1 && st.candidates[0].batch == 0 && |st.batches| == 1
    requires |st.entities| <= 1 && forall e :: e in st.entities ==> e.name == NameOf(st, 0)
    ensures BatchesKnown(st)
    ensures var st', n := Publish(st, 0, who), if |st.entities| == 1 then st.entities[0].current + 1 else 1;
      && |st'.candidates| == 1 && st'.candidates[0].(published := false) == st.candidates[0].(published := false)
      && |st'.batches| == 1 && st'.batches[0].tenant == st.batches[0].tenant
      && st'.entities == [Entity(NameOf(st, 0), n)] && NameOf(st', 0) == NameOf(st, 0)
      && st'.versions == st.versions + [Version(0, n, st.candidates[0].fields, 0)] && |st'.ledger| == |st.ledger| + 1
  {
    assert PublishedUpTo(st, 0, 1, who) == PublishedOne(st, 0, who);
  }

  // ---------------------------------------------------------------- in one go

  /** The catalog's publication: a batch taken in and published at once. */
  lemma CataloguedKeeps(st: Store, items: seq<Item>, tenant: string, task: string, who: Approver)
    requires Good(st)
    ensures Good(Ingest(st, items, tenant, task)) && |Ingest(st, items, tenant, task).batches| == |st.batches| + 1
    ensures Good(Publish(Ingest(st, items, tenant, task), |st.batches|, who))
  {
    CallKeeps(st, Take(items, tenant, task));
    hide Good;
    PublishKeeps(Ingest(st, items, tenant, task), |st.batches|, who);
  }

  /** Records i and j fill the same naming field, of the same kind, alike. */
  predicate SameName(items: seq<Item>, i: nat, j: nat)
    requires i < |items| && j < |items|
  {
    && Kind(items[i].kind) == Kind(items[j].kind)
    && KeyFrom(KEY_FIELDS, items[i].fields, 0) == KeyFrom(KEY_FIELDS, items[j].fields, 0)
    && KeyFrom(KEY_FIELDS, items[i].fields, 0).Named?
  }

  /** Two of the records name the same entity. */
  ghost predicate NamesClash(items: seq<Item>) {
    exists i: nat, j: nat :: i < j < |items| && SameName(items, i, j)
  }

  lemma {:induction false} KeyNamed(names: seq<string>, fields: map<string, string>, x: nat, y: nat)
    ensures KeyFrom(names, fields, x).Named? <==> KeyFrom(names, fields, y).Named?
    ensures KeyFrom(names, fields, x).Named? ==> KeyFrom(names, fields, x) == KeyFrom(names, fields, y)
    ensures KeyFrom(names, fields, x).Nameless? ==> KeyFrom(names, fields, x) == Nameless(x)
  {
    if names != [] {
      KeyNamed(names[1..], fields, x, y);
    }
  }

  /** m names the records at the places from n on. */
  ghost predicate NamesItems(m: map<nat, Name>, items: seq<Item>, n: nat, tenant: string) {
    && m.Keys == RangeSet(n, |items|)
    && forall i :: 0 <= i < |items| ==> NamesItem(m, items, n, tenant, i)
  }

  ghost predicate NamesItem(m: map<nat, Name>, items: seq<Item>, n: nat, tenant: string, i: nat)
    requires i < |items|
  {
    n + i in m && m[n + i] == Name(tenant, Kind(items[i].kind), KeyFrom(KEY_FIELDS, items[i].fields, n + i))
  }

  /** The candidates of a batch just taken in are its items, at the end of the table. */
  lemma TakenAt(st: Store, items: seq<Item>, tenant: string, task: string, p: nat)
    requires Good(st)
    ensures var st1, b, n := Ingest(st, items, tenant, task), |st.batches|, |st.candidates|;
      && BatchesKnown(st1) && |st1.candidates| == n + |items|
      && (p < n ==> st1.candidates[p].batch != b)
      && (n <= p < n + |items| ==>
            st1.candidates[p].batch == b
            && NameOf(st1, p) == Name(tenant, Kind(items[p - n].kind), KeyFrom(KEY_FIELDS, items[p - n].fields, p)))
  {
    hide KeyFrom, RowRight, Numbered, OneEach, CandidatesFrom;
    var st1, b, n := Ingest(st, items, tenant, task), |st.batches|, |st.candidates|;
    if n <= p < n + |items| {
      assert st1.candidates[p] == CandidatesFrom(items, b)[p - n];
      assert st1.batches[b] == Batch(tenant, task, false);
    } else if p < n {
      assert st1.candidates[p] == st.candidates[p];
    }
  }

  lemma TakenNames(st: Store, items: seq<Item>, tenant: string, task: string)
    requires Good(st)
    ensures BatchesKnown(Ingest(st, items, tenant, task))
    ensures NamesItems(NamesOf(Ingest(st, items, tenant, task), |st.batches|), items, |st.candidates|, tenant)
  {
    var st1, b, n := Ingest(st, items, tenant, task), |st.batches|, |st.candidates|;
    var m := NamesOf(st1, b);
    hide KeyFrom, Good, Ingest, NameOf, RangeSet;
    forall p: nat
      ensures p in m <==> n <= p < n + |items|
    {
      TakenAt(st, items, tenant, task, p);
    }
    forall i | 0 <= i < |items|
      ensures NamesItem(m, items, n, tenant, i)
    {
      TakenAt(st, items, tenant, task, n + i);
    }
  }

  lemma SameNameIff(m: map<nat, Name>, items: seq<Item>, n: nat, tenant: string, i: nat, j: nat)
    requires i < j < |items| && NamesItem(m, items, n, tenant, i) && NamesItem(m, items, n, tenant, j)
    ensures m[n + i] == m[n + j] <==> SameName(items, i, j)
  {
    hide KeyFrom;
    KeyNamed(KEY_FIELDS, items[i].fields, n + i, 0);
    KeyNamed(KEY_FIELDS, items[j].fields, n + j, 0);
  }

  lemma InjectiveItemsIff(m: map<nat, Name>, items: seq<Item>, n: nat, tenant: string)
    requires NamesItems(m, items, n, tenant)
    ensures Injective(m) <==> !NamesClash(items)
  {
    hide SameName, NamesItem, RangeSet;
    if NamesClash(items) {
      var i: nat, j: nat :| i < j < |items| && SameName(items, i, j);
      SameNameIff(m, items, n, tenant, i, j);
      assert n + i in m && n + j in m;
    } else {
      forall p, q | p in m && q in m && p != q
        ensures m[p] != m[q]
      {
        var i: nat, j: nat := if p < q then p - n else q - n, if p < q then q - n else p - n;
        assert NamesItem(m, items, n, tenant, i) && NamesItem(m, items, n, tenant, j);
        SameNameIff(m, items, n, tenant, i, j);
      }
    }
  }

  lemma NamesInjectiveIff(st: Store, items: seq<Item>, tenant: string, task: string)
    requires Good(st)
    ensures BatchesKnown(Ingest(st, items, tenant, task))
    ensures |NamesOf(Ingest(st, items, tenant, task), |st.batches|)| == |items|
    ensures Injective(NamesOf(Ingest(st, items, tenant, task), |st.batches|)) <==> !NamesClash(items)
  {
    hide Good, Ingest, Injective, NamesItem, NamesClash, NamesOf;
    TakenNames(st, items, tenant, task);
    MapSize(NamesOf(Ingest(st, items, tenant, task), |st.batches|));
    InjectiveItemsIff(NamesOf(Ingest(st, items, tenant, task), |st.batches|), items, |st.candidates|, tenant);
  }

  ghost function RangeSet(n: nat, k: nat): (s: set<nat>)
    ensures |s| == k && forall i: nat :: i in s <==> n <= i < n + k
  {
    if k == 0 then {} else RangeSet(n, k - 1) + {n + k - 1}
  }

  lemma SameNamesPublished(st: Store, b: nat, who: Approver)
    requires Good(st) && b < |st.batches|
    ensures BatchesKnown(Publish(st, b, who)) && NamesOf(Publish(st, b, who), b) == NamesOf(st, b)
  {
    var st' := Publish(st, b, who);
    PublishKeeps(st, b, who);
    NamesLater(st, st');
    assert |st'.candidates| == |st.candidates|;
    hide NameOf, Publish, Good;
    assert NamesOf(st', b).Keys == NamesOf(st, b).Keys;
  }

  lemma {:induction false} NoEntryYet(st: Store, ledger: seq<Entry>, b: nat)
    requires forall k :: 0 <= k < |ledger| ==> ledger[k].batch != b
    ensures EntryCount(ledger, b) == 0
  {
    if ledger != [] {
      NoEntryYet(st, ledger[..|ledger| - 1], b);
    }
  }

  lemma {:induction false} AllCounted(cs: seq<Candidate>, before: seq<Candidate>, b: nat)
    requires (forall i :: 0 <= i < |before| ==> before[i].batch != b) && forall i :: 0 <= i < |cs| ==> cs[i].batch == b
    ensures CandidateCount(before + cs, b) == |cs|
  {
    if cs != [] {
      AllCounted(cs[..|cs| - 1], before, b);
      assert (before + cs)[..|before + cs| - 1] == before + cs[..|cs| - 1];
    } else {
      assert before + cs == before;
      if before != [] {
        AllCounted([], before[..|before| - 1], b);
        assert before[..|before| - 1] + [] == before[..|before| - 1];
      }
    }
  }

  lemma LedgerOfBatch(st: Store, items: seq<Item>, tenant: string, task: string, who: Approver)
    requires Good(st)
    ensures BatchesKnown(Ingest(st, items, tenant, task))
    ensures EntryCount(Publish(Ingest(st, items, tenant, task), |st.batches|, who).ledger, |st.batches|) == |items|
  {
    var st1, b := Ingest(st, items, tenant, task), |st.batches|;
    forall k | 0 <= k < |st.ledger|
      ensures st.ledger[k].batch != b
    {
      assert RowRight(st, k);
    }
    NoEntryYet(st, st.ledger, b);
    AllCounted(CandidatesFrom(items, b), st.candidates, b);
    PublishCounts(st1, b, who, b);
  }

  /** Publishing records shows fewer of them than were sent exactly when two of them name the
      same entity; the ledger always has a row for each. */
  lemma CatalogShortIff(st: Store, items: seq<Item>, tenant: string, task: string, who: Approver)
    requires Good(st)
    ensures var st', b := Publish(Ingest(st, items, tenant, task), |st.batches|, who), |st.batches|;
      && Good(Ingest(st, items, tenant, task)) && Good(st')
      && EntryCount(st'.ledger, b) == |items|
      && (|Readback(st', b)| < |items| <==> NamesClash(items))
  {
    hide Good, Readback, NamesOf, NamesClash, EntryCount, Publish, AllReadBack, Injective;
    var st1, b := Ingest(st, items, tenant, task), |st.batches|;
    CataloguedKeeps(st, items, tenant, task, who);
    LedgerOfBatch(st, items, tenant, task, who);
    ReadbackAfterPublish(st1, b, who);
    SameNamesPublished(st1, b, who);
    NamesInjectiveIff(st, items, tenant, task);
  }
}

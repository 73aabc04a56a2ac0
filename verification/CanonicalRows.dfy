/** What names an entity, and what a catalogued batch leaves in the tables, row by row. */
module CanonicalRows {
  import opened Canonical
  import opened CanonicalPromises

  // ------------------------------------------------------------------------ naming

  predicate Filled(fields: map<string, string>, name: string) {
    name in fields && fields[name] != ""
  }

  lemma {:induction false} KeyFromIs(names: seq<string>, fields: map<string, string>, fallback: nat) returns (i: nat)
    ensures i <= |names| && forall j :: 0 <= j < i ==> !Filled(fields, names[j])
    ensures if i < |names| then Filled(fields, names[i]) && KeyFrom(names, fields, fallback) == Named(fields[names[i]])
            else KeyFrom(names, fields, fallback) == Nameless(fallback)
  {
    i := 0;
    if names != [] && !Filled(fields, names[0]) {
      var j := KeyFromIs(names[1..], fields, fallback);
      i := j + 1;
      assert forall k :: 0 < k < i ==> names[k] == names[1..][k - 1];
    }
  }

  /** A candidate names the entity of its batch's tenant, of its kind, under the first of the
      ten naming fields it fills; one that fills none is an entity of its own. */
  lemma NameIs(st: Store, c: nat) returns (i: nat)
    requires c < |st.candidates| && st.candidates[c].batch < |st.batches|
    ensures var names := ["canonical_key", "product_code", "order_id", "material_code", "equipment_code",
                          "station_code", "person_code", "tooling_code", "calendar_ref", "supplier_code"];
      var x, fields := NameOf(st, c), st.candidates[c].fields;
      && x.tenant == st.batches[st.candidates[c].batch].tenant && x.kind == st.candidates[c].kind
      && i <= 10 && (forall j :: 0 <= j < i ==> !Filled(fields, names[j]))
      && (if i < 10 then Filled(fields, names[i]) && x.key == Named(fields[names[i]]) else x.key == Nameless(c))
  {
    i := KeyFromIs(KEY_FIELDS, st.candidates[c].fields, c);
    hide KeyFrom;
  }

  // ---------------------------------------------------------------------- the rows

  /** Row at + i of each table tells of record i, published by the approver, and its candidate
      at place n + i is the record, of kind `order` if it names none, and marked. */
  ghost predicate RowTells(st: Store, items: seq<Item>, b: nat, n: nat, at: nat, i: nat, who: Approver)
    requires i < |items|
  {
    && at + i < |st.versions| && at + i < |st.ledger| && at + i < |st.outbox| && at + i < |st.consents|
    && n + i < |st.candidates|
    && st.consents[at + i] == Consent(b, n + i, who.actor, who.overridden, who.reason)
    && st.versions[at + i].fields == items[i].fields && st.versions[at + i].batch == b
    && st.ledger[at + i].batch == b && st.ledger[at + i].actor == who.actor
    && st.ledger[at + i].overridden == who.overridden
    && st.ledger[at + i].entity == st.versions[at + i].entity && st.ledger[at + i].version == st.versions[at + i].number
    && st.outbox[at + i] == Message(at + i, st.versions[at + i].entity, st.versions[at + i].number)
    && st.candidates[n + i]
       == Candidate(b, if items[i].kind == "" then "order" else items[i].kind, items[i].fields, true)
  }

  /** The first j records, and no others, have been published on top of the rows there were. */
  ghost predicate Told(st: Store, st': Store, items: seq<Item>, b: nat, n: nat, who: Approver, j: nat)
    requires j <= |items|
  {
    && |st'.versions| == |st'.ledger| == |st'.outbox| == |st'.consents| == |st.versions| + j
    && st.versions <= st'.versions && st.ledger <= st'.ledger && st.outbox <= st'.outbox && st.consents <= st'.consents
    && forall i :: 0 <= i < j ==> RowTells(st', items, b, n, |st.versions|, i, who)
  }

  /** The table of a batch just taken in. */
  ghost predicate JustTaken(st: Store, items: seq<Item>, b: nat, n: nat) {
    && Good(st) && |st.candidates| == n + |items| && b < |st.batches|
    && (forall p :: 0 <= p < n ==> st.candidates[p].batch != b)
    && forall i :: 0 <= i < |items| ==>
         st.candidates[n + i]
         == Candidate(b, if items[i].kind == "" then "order" else items[i].kind, items[i].fields, false)
  }

  lemma {:induction false} NoneBefore(st: Store, b: nat, n: nat, who: Approver)
    requires BatchesKnown(st) && n <= |st.candidates| && forall p :: 0 <= p < n ==> st.candidates[p].batch != b
    ensures PublishedUpTo(st, b, n, who) == st
  {
    if n > 0 {
      NoneBefore(st, b, n - 1, who);
      UpToNext(st, b, n - 1, who);
    }
  }

  lemma PublishedRow(st: Store, st1: Store, items: seq<Item>, b: nat, n: nat, who: Approver, j: nat)
    requires InStep(st) && j < |items| && Told(st, st1, items, b, n, who, j)
    requires n + j < |st1.candidates| && b < |st1.batches|
    requires st1.candidates[n + j]
             == Candidate(b, if items[j].kind == "" then "order" else items[j].kind, items[j].fields, false)
    ensures Told(st, PublishedOne(st1, n + j, who), items, b, n, who, j + 1)
  {
    hide NameOf, Bumped;
    var st2 := PublishedOne(st1, n + j, who);
    forall i | 0 <= i < j + 1
      ensures RowTells(st2, items, b, n, |st.versions|, i, who)
    {
      if i < j {
        assert RowTells(st1, items, b, n, |st.versions|, i, who);
      }
    }
  }

  /** From place p on the candidates are as they were. */
  ghost predicate Untouched(st: Store, st': Store, p: nat) {
    && |st'.candidates| == |st.candidates|
    && forall q :: p <= q < |st.candidates| ==> st'.candidates[q] == st.candidates[q]
  }

  lemma {:induction false} RowsUpTo(st: Store, items: seq<Item>, b: nat, n: nat, who: Approver, j: nat)
    requires JustTaken(st, items, b, n) && j <= |items| && BatchesKnown(st) && n + j <= |st.candidates|
    ensures Told(st, PublishedUpTo(st, b, n + j, who), items, b, n, who, j)
    ensures Untouched(st, PublishedUpTo(st, b, n + j, who), n + j)
  {
    hide Good, PublishedUpTo, Told, PublishedOne, Untouched, JustTaken;
    if j == 0 {
      RowsAtFirst(st, items, b, n, who);
    } else {
      var m: nat := n + j - 1;
      var st1 := PublishedUpTo(st, b, m, who);
      RowsUpTo(st, items, b, n, who, j - 1);
      RowsNext(st, st1, items, b, n, who, j - 1);
      UpToNext(st, b, m, who);
    }
  }

  lemma RowsAtFirst(st: Store, items: seq<Item>, b: nat, n: nat, who: Approver)
    requires JustTaken(st, items, b, n) && BatchesKnown(st)
    ensures n <= |st.candidates|
    ensures Told(st, PublishedUpTo(st, b, n, who), items, b, n, who, 0)
            && Untouched(st, PublishedUpTo(st, b, n, who), n)
  {
    NoneBefore(st, b, n, who);
  }

  lemma RowsNext(st: Store, st1: Store, items: seq<Item>, b: nat, n: nat, who: Approver, j: nat)
    requires JustTaken(st, items, b, n) && j < |items| && st1.batches == st.batches
    requires Told(st, st1, items, b, n, who, j) && Untouched(st, st1, n + j)
    ensures n + j < |st.candidates| && st.candidates[n + j].batch == b
    ensures n + j < |st1.candidates| && st1.candidates[n + j].batch < |st1.batches|
    ensures Told(st, PublishedOne(st1, n + j, who), items, b, n, who, j + 1)
    ensures Untouched(st, PublishedOne(st1, n + j, who), n + j + 1)
  {
    hide PublishedOne, Told, OneEach, Numbered, RowRight;
    assert st1.candidates[n + j] == st.candidates[n + j];
    PublishedRow(st, st1, items, b, n, who, j);
    OthersStay(st1, n + j, who);
  }

  lemma OthersStay(st: Store, i: nat, who: Approver)
    requires i < |st.candidates| && st.candidates[i].batch < |st.batches|
    ensures |PublishedOne(st, i, who).candidates| == |st.candidates|
    ensures forall p :: 0 <= p < |st.candidates| && p != i ==>
              PublishedOne(st, i, who).candidates[p] == st.candidates[p]
  {
  }

  lemma TakenIs(st: Store, items: seq<Item>, tenant: string, task: string)
    requires Good(st)
    ensures JustTaken(Ingest(st, items, tenant, task), items, |st.batches|, |st.candidates|)
    ensures Ingest(st, items, tenant, task).batches == st.batches + [Batch(tenant, task, false)]
  {
    CataloguedKeeps(st, items, tenant, task, Approver("", "", false));
    hide RowRight, Numbered, OneEach, Publish;
    var st1 := Ingest(st, items, tenant, task);
    forall i | 0 <= i < |items|
      ensures st1.candidates[|st.candidates| + i]
              == Candidate(|st.batches|, if items[i].kind == "" then "order" else items[i].kind, items[i].fields, false)
    {
      assert st1.candidates[|st.candidates| + i] == CandidatesFrom(items, |st.batches|)[i];
    }
  }

  /** Taken in and published at once, the records make one batch of the tenant and the task,
      marked as published, and for each record, in order, one version with its fields and one
      ledger, outbox and approval row under the approver; nothing else is written. */
  lemma CatalogueTells(st: Store, items: seq<Item>, tenant: string, task: string, who: Approver)
    requires Good(st)
    ensures BatchesKnown(Ingest(st, items, tenant, task))
    ensures var st' := Publish(Ingest(st, items, tenant, task), |st.batches|, who);
      && st'.batches == st.batches + [Batch(tenant, task, true)]
      && Told(st, st', items, |st.batches|, |st.candidates|, who, |items|)
  {
    hide Good, Told, JustTaken, PublishedUpTo;
    var st1, b, n := Ingest(st, items, tenant, task), |st.batches|, |st.candidates|;
    CataloguedKeeps(st, items, tenant, task, who);
    TakenIs(st, items, tenant, task);
    TakenSize(st1, items, b, n);
    RowsUpTo(st1, items, b, n, who, |items|);
    MarkTells(st, st1, PublishedUpTo(st1, b, n + |items|, who), items, b, n, who);
  }

  lemma TakenSize(st: Store, items: seq<Item>, b: nat, n: nat)
    requires JustTaken(st, items, b, n)
    ensures Good(st) && BatchesKnown(st) && |st.candidates| == n + |items| && b < |st.batches|
  {
  }

  lemma MarkTells(st: Store, st1: Store, st2: Store, items: seq<Item>, b: nat, n: nat, who: Approver)
    requires Told(st1, st2, items, b, n, who, |items|) && b < |st2.batches|
    requires st1.versions == st.versions && st1.ledger == st.ledger && st1.outbox == st.outbox
             && st1.consents == st.consents
    ensures Told(st, st2.(batches := st2.batches[b := st2.batches[b].(published := true)]), items, b, n, who, |items|)
  {
    var st3 := st2.(batches := st2.batches[b := st2.batches[b].(published := true)]);
    forall i | 0 <= i < |items|
      ensures RowTells(st3, items, b, n, |st.versions|, i, who)
    {
      assert RowTells(st2, items, b, n, |st1.versions|, i, who);
    }
  }
}

/** The canonical store: batches of candidates, published as versions of entities. Row
    numbers stand for the random ids of the rows. */
module Canonical {
  import opened Minutes

  /** The field that names an entity, or the candidate when no such field is filled. */
  datatype Key = Named(text: string) | Nameless(candidate: nat)

  datatype Name = Name(tenant: string, kind: string, key: Key)

  datatype Entity = Entity(name: Name, current: nat)

  datatype Version = Version(entity: nat, number: nat, fields: map<string, string>, batch: nat)

  datatype Entry = Entry(batch: nat, entity: nat, version: nat, actor: string, overridden: bool)

  datatype Message = Message(entry: nat, entity: nat, version: nat)

  datatype Consent = Consent(batch: nat, candidate: nat, actor: string, overridden: bool, reason: string)

  datatype Batch = Batch(tenant: string, task: string, published: bool)

  datatype Candidate = Candidate(batch: nat, kind: string, fields: map<string, string>, published: bool)

  datatype Store = Store(batches: seq<Batch>, candidates: seq<Candidate>, entities: seq<Entity>, versions: seq<Version>,
                         ledger: seq<Entry>, outbox: seq<Message>, consents: seq<Consent>)

  const EMPTY := Store([], [], [], [], [], [], [])

  // --------------------------------------------------------------------- naming

  const KEY_FIELDS := ["canonical_key", "product_code", "order_id", "material_code", "equipment_code", "station_code",
                       "person_code", "tooling_code", "calendar_ref", "supplier_code"]

  function KeyFrom(names: seq<string>, fields: map<string, string>, fallback: nat): Key {
    if names == [] then Nameless(fallback)
    else if names[0] in fields && fields[names[0]] != "" then Named(fields[names[0]])
    else KeyFrom(names[1..], fields, fallback)
  }

  function NameOf(st: Store, i: nat): Name
    requires i < |st.candidates| && st.candidates[i].batch < |st.batches|
  {
    var c := st.candidates[i];
    Name(st.batches[c.batch].tenant, c.kind, KeyFrom(KEY_FIELDS, c.fields, i))
  }

  function Find(entities: seq<Entity>, name: Name): (r: Option<nat>)
    ensures r.Some? ==> r.value < |entities| && entities[r.value].name == name
    ensures r.None? <==> forall i :: 0 <= i < |entities| ==> entities[i].name != name
  {
    if entities == [] then None
    else if entities[|entities| - 1].name == name then Some(|entities| - 1)
    else Find(entities[..|entities| - 1], name)
  }

  // ------------------------------------------------------------------ publishing

  datatype Approver = Approver(actor: string, reason: string, overridden: bool)

  function Bumped(entities: seq<Entity>, name: Name): (r: (seq<Entity>, nat))
    ensures r.1 < |r.0|
  {
    match Find(entities, name)
    case Some(e) => (entities[e := entities[e].(current := entities[e].current + 1)], e)
    case None => (entities + [Entity(name, 1)], |entities|)
  }

  /** One candidate becomes the next version of the entity it names. */
  function PublishedOne(st: Store, i: nat, who: Approver): Store
    requires i < |st.candidates| && st.candidates[i].batch < |st.batches|
  {
    var c := st.candidates[i];
    var (entities, e) := Bumped(st.entities, NameOf(st, i));
    var number := entities[e].current;
    st.(entities := entities,
        versions := st.versions + [Version(e, number, c.fields, c.batch)],
        consents := st.consents + [Consent(c.batch, i, who.actor, who.overridden, who.reason)],
        ledger := st.ledger + [Entry(c.batch, e, number, who.actor, who.overridden)],
        outbox := st.outbox + [Message(|st.ledger|, e, number)],
        candidates := st.candidates[i := c.(published := true)])
  }

  ghost predicate BatchesKnown(st: Store) {
    forall i :: 0 <= i < |st.candidates| ==> st.candidates[i].batch < |st.batches|
  }

  /** The first n candidates of the table, those of the batch published. */
  function PublishedUpTo(st: Store, b: nat, n: nat, who: Approver): (st': Store)
    requires BatchesKnown(st) && n <= |st.candidates|
    ensures BatchesKnown(st') && |st'.candidates| == |st.candidates| && st'.batches == st.batches
    ensures forall i :: 0 <= i < |st.candidates| ==>
              st'.candidates[i].(published := false) == st.candidates[i].(published := false)
  {
    if n == 0 then st
    else
      var st1 := PublishedUpTo(st, b, n - 1, who);
      if st1.candidates[n - 1].batch == b then PublishedOne(st1, n - 1, who) else st1
  }

  function Publish(st: Store, b: nat, who: Approver): Store
    requires BatchesKnown(st)
  {
    if b >= |st.batches| then st
    else
      var st1 := PublishedUpTo(st, b, |st.candidates|, who);
      st1.(batches := st1.batches[b := st1.batches[b].(published := true)])
  }

  // -------------------------------------------------------------------- ingestion

  datatype Item = Item(kind: string, fields: map<string, string>)

  function Kind(kind: string): string {
    if kind == "" then "order" else kind
  }

  function CandidatesFrom(items: seq<Item>, b: nat): (cs: seq<Candidate>)
    ensures |cs| == |items|
    ensures forall i :: 0 <= i < |items| ==> cs[i] == Candidate(b, Kind(items[i].kind), items[i].fields, false)
  {
    if items == [] then []
    else CandidatesFrom(items[..|items| - 1], b)
         + [Candidate(b, Kind(items[|items| - 1].kind), items[|items| - 1].fields, false)]
  }

  function Ingest(st: Store, items: seq<Item>, tenant: string, task: string): Store {
    st.(batches := st.batches + [Batch(tenant, task, false)],
        candidates := st.candidates + CandidatesFrom(items, |st.batches|))
  }

  datatype Call = Take(items: seq<Item>, tenant: string, task: string) | Put(batch: nat, who: Approver)

  function After(st: Store, c: Call): (st': Store)
    requires BatchesKnown(st)
    ensures BatchesKnown(st')
  {
    match c
    case Take(items, tenant, task) => Ingest(st, items, tenant, task)
    case Put(b, who) => Publish(st, b, who)
  }

  function Run(calls: seq<Call>): (st: Store)
    ensures BatchesKnown(st)
  {
    if calls == [] then EMPTY else After(Run(calls[..|calls| - 1]), calls[|calls| - 1])
  }

  // ------------------------------------------------------------------- the tables

  class M0Store {
    var batches: seq<Batch>
    var candidates: seq<Candidate>
    var entities: seq<Entity>
    var versions: seq<Version>
    var ledger: seq<Entry>
    var outbox: seq<Message>
    var consents: seq<Consent>

    function Tables(): Store
      reads this
    {
      Store(batches, candidates, entities, versions, ledger, outbox, consents)
    }

    constructor ()
      ensures Tables() == Run([])
    {
      batches, candidates, entities, versions, ledger, outbox, consents := [], [], [], [], [], [], [];
    }

    method IngestBatch(items: seq<Item>, tenant: string, task: string) returns (b: nat)
      modifies this`batches, this`candidates
      ensures b == |old(batches)| && Tables() == Ingest(old(Tables()), items, tenant, task)
    {
      b := |batches|;
      batches := batches + [Batch(tenant, task, false)];
      var i := 0;
      while i < |items|
        invariant i <= |items| && batches == old(batches) + [Batch(tenant, task, false)]
        invariant candidates == old(candidates) + CandidatesFrom(items[..i], b)
      {
        assert items[..i + 1][..i] == items[..i];
        candidates := candidates + [Candidate(b, Kind(items[i].kind), items[i].fields, false)];
        i := i + 1;
      }
      assert items[..|items|] == items;
    }

    method PublishCandidate(i: nat, who: Approver)
      requires i < |candidates| && candidates[i].batch < |batches|
      modifies this`entities, this`versions, this`consents, this`ledger, this`outbox, this`candidates
      ensures Tables() == PublishedOne(old(Tables()), i, who) && |candidates| == |old(candidates)|
    {
      var c := candidates[i];
      var name := Name(batches[c.batch].tenant, c.kind, KeyFrom(KEY_FIELDS, c.fields, i));
      var found := Find(entities, name);
      var e, number := |entities|, 1;
      if found.Some? {
        e := found.value;
        number := entities[e].current + 1;
        entities := entities[e := entities[e].(current := number)];
      } else {
        entities := entities + [Entity(name, 1)];
      }
      versions := versions + [Version(e, number, c.fields, c.batch)];
      consents := consents + [Consent(c.batch, i, who.actor, who.overridden, who.reason)];
      outbox := outbox + [Message(|ledger|, e, number)];
      ledger := ledger + [Entry(c.batch, e, number, who.actor, who.overridden)];
      candidates := candidates[i := c.(published := true)];
    }

    method PublishBatch(b: nat, who: Approver) returns (found: bool)
      requires BatchesKnown(Tables())
      modifies this
      ensures found <==> b < |old(batches)|
      ensures Tables() == Publish(old(Tables()), b, who)
    {
      hide PublishedOne;
      if b >= |batches| {
        return false;
      }
      var i := 0;
      ghost var start := Tables();
      while i < |candidates|
        invariant i <= |candidates| == |start.candidates| && BatchesKnown(start)
        invariant Tables() == PublishedUpTo(start, b, i, who)
      {
        if candidates[i].batch == b {
          PublishCandidate(i, who);
        }
        i := i + 1;
      }
      batches := batches[b := batches[b].(published := true)];
      return true;
    }
  }
}

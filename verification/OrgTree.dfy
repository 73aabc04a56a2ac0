/** Deriving department nodes from a roster. */
module OrgTree {
  import opened Minutes

  // ------------------------------------------------------------ department names

  predicate Space(c: char) {
    || '\t' <= c <= '\r' || '\U{1C}' <= c <= ' ' || '\U{2000}' <= c <= '\U{200A}'
    || c in {'\U{85}', '\U{A0}', '\U{1680}', '\U{2028}', '\U{2029}', '\U{202F}', '\U{205F}', '\U{3000}'}
  }

  function NoSpaces(s: string): string {
    if s == [] then [] else (if Space(s[0]) then [] else [s[0]]) + NoSpaces(s[1..])
  }

  lemma {:induction false} NoSpacesHas(s: string)
    ensures forall c :: c in NoSpaces(s) <==> c in s && !Space(c)
    ensures (forall c :: c in s ==> !Space(c)) ==> NoSpaces(s) == s
  {
    hide Space;
    if s != [] {
      NoSpacesHas(s[1..]);
      assert s == [s[0]] + s[1..];
    }
  }

  /** The last character of a department's name. */
  const BU := '\U{90E8}'

  function StripBu(s: string): (r: string)
    ensures r <= s && (s != [] ==> r != [])
    ensures |r| > 1 ==> r[|r| - 1] != BU
    ensures (|s| > 1 ==> s[|s| - 1] != BU) ==> r == s
  {
    if |s| > 1 && s[|s| - 1] == BU then StripBu(s[..|s| - 1]) else s
  }

  function Normalize(s: string): string {
    StripBu(NoSpaces(s))
  }

  /** A normal name is its own normal form. */
  lemma NormalizeIsIdempotent(s: string)
    ensures Normalize(Normalize(s)) == Normalize(s)
  {
    hide Space;
    NoSpacesHas(s);
    NoSpacesHas(Normalize(s));
  }

  lemma {:induction false} NoSpacesAppend(s: string, c: char)
    ensures NoSpaces(s + [c]) == NoSpaces(s) + (if Space(c) then "" else [c])
  {
    hide Space;
    if s == "" {
      assert s + [c] == [c] && [c][1..] == "";
    } else {
      NoSpacesAppend(s[1..], c);
      assert (s + [c])[0] == s[0] && (s + [c])[1..] == s[1..] + [c];
    }
  }

  lemma StripLast(t: string, c: char)
    ensures StripBu(t + [c]) == if t != "" && c == BU then StripBu(t) else t + [c]
  {
    assert (t + [c])[..|t + [c]| - 1] == t && (t + [c])[|t + [c]| - 1] == c;
  }

  /** Written character by character: white space adds nothing, and the last character of a
      department's name is what is taken off the end, as often as it stands there, down to one
      character. */
  lemma NormalIs(s: string, c: char)
    ensures Normalize("") == ""
    ensures Space(c) ==> Normalize(s + [c]) == Normalize(s)
    ensures !Space(c) && c == BU && NoSpaces(s) != "" ==> Normalize(s + [c]) == Normalize(s)
    ensures !Space(c) && (c != BU || NoSpaces(s) == "") ==> Normalize(s + [c]) == NoSpaces(s) + [c]
  {
    hide Space;
    NoSpacesAppend(s, c);
    assert NoSpaces("") == "" && StripBu("") == "";
    hide NoSpaces, StripBu;
    StripLast(NoSpaces(s), c);
    assert NoSpaces(s) + "" == NoSpaces(s);
  }

  const SHENG := '\U{751F}'

  const CHAN := '\U{4EA7}'

  lemma SpacesAre()
    ensures Space(' ') && !Space(SHENG) && !Space(CHAN) && !Space(BU)
  {
  }

  /** Production, spelt with a blank and its last character twice. */
  lemma NormalReads()
    ensures Normalize([SHENG, ' ', CHAN, BU, BU]) == [SHENG, CHAN] && Normalize([BU]) == [BU]
  {
    SpacesAre();
    hide Space;
    NoSpacesAppend("", SHENG);
    NoSpacesAppend([SHENG], ' ');
    NoSpacesAppend([SHENG, ' '], CHAN);
    NoSpacesAppend("", BU);
    hide StripBu, BU, SHENG, CHAN;
    assert "" + [SHENG] == [SHENG] && [SHENG] + [' '] == [SHENG, ' '] && [SHENG, ' '] + [CHAN] == [SHENG, ' ', CHAN];
    assert [SHENG, ' ', CHAN] + [BU] == [SHENG, ' ', CHAN, BU];
    assert [SHENG, ' ', CHAN, BU] + [BU] == [SHENG, ' ', CHAN, BU, BU] && "" + [BU] == [BU];
    assert [SHENG] + "" == [SHENG] && [SHENG] + [CHAN] == [SHENG, CHAN];
    assert NoSpaces("") == "" && NoSpaces([SHENG]) == [SHENG] && NoSpaces([SHENG, ' ']) == [SHENG];
    NotStripped();
    NormalOf([SHENG, ' ', CHAN], [SHENG, CHAN]);
    NormalOf([BU], [BU]);
  }

  lemma NotStripped()
    ensures StripBu([SHENG, CHAN]) == [SHENG, CHAN] && StripBu([BU]) == [BU]
  {
  }

  lemma NormalOf(s: string, t: string)
    requires NoSpaces(s) == t && t != "" && StripBu(t) == t
    ensures Normalize(s) == t && Normalize(s + [BU]) == t && Normalize(s + [BU] + [BU]) == t
  {
    SpacesAre();
    hide Space;
    NoSpacesAppend(s, BU);
    NormalIs(s, BU);
    NormalIs(s + [BU], BU);
  }

  // ------------------------------------------------------------------------ plan

  datatype Node = Node(id: string, name: string, parent: Option<string>, kind: string, manual: bool)

  const COMPANY := "company"

  function DeptId(norm: string): string {
    "dept:" + norm
  }

  predicate HasId(nodes: seq<Node>, id: string) {
    exists i :: 0 <= i < |nodes| && nodes[i].id == id
  }

  predicate ManualNamed(nodes: seq<Node>, norm: string) {
    exists i :: 0 <= i < |nodes| && nodes[i].manual && Normalize(nodes[i].name) == norm
  }

  ghost predicate DistinctIds(nodes: seq<Node>) {
    forall i, j :: 0 <= i < j < |nodes| ==> nodes[i].id != nodes[j].id
  }

  predicate ManualId(nodes: seq<Node>, id: string) {
    exists i :: 0 <= i < |nodes| && nodes[i].manual && nodes[i].id == id
  }

  /** The id of the last node under a normal name. */
  function IdOfName(nodes: seq<Node>, norm: string): Option<string> {
    if nodes == [] then None
    else
      var last := nodes[|nodes| - 1];
      if last.id != "" && Normalize(last.name) == norm then Some(last.id) else IdOfName(nodes[..|nodes| - 1], norm)
  }

  datatype Dept = Dept(id: string, name: string)

  ghost predicate PlannedId(planned: seq<Dept>, id: string) {
    exists i :: 0 <= i < |planned| && planned[i].id == id
  }

  /** The roster asks for a department no node stands for yet. */
  ghost predicate Asked(tree: seq<Node>, fragments: seq<string>, id: string) {
    exists i :: 0 <= i < |fragments| && Wanted(tree, fragments[i]) && id == DeptId(Normalize(fragments[i]))
  }

  predicate Wanted(tree: seq<Node>, fragment: string) {
    var norm := Normalize(fragment);
    norm != "" && !HasId(tree, DeptId(norm)) && !ManualNamed(tree, norm)
  }

  /** The department fragments of all workers, in order. */
  function Flat(workers: seq<seq<string>>): seq<string> {
    if workers == [] then [] else Flat(workers[..|workers| - 1]) + workers[|workers| - 1]
  }

  /** Planned so far: each department the fragments ask for, once, under its first spelling. */
  ghost predicate PlanRight(tree: seq<Node>, fragments: seq<string>, planned: seq<Dept>) {
    && (forall id :: PlannedId(planned, id) <==> Asked(tree, fragments, id))
    && (forall i, j :: 0 <= i < j < |planned| ==> planned[i].id != planned[j].id)
    && (forall i :: 0 <= i < |planned| ==> SpelledFirst(fragments, planned[i]))
  }

  ghost predicate SpelledFirst(fragments: seq<string>, d: Dept) {
    exists k :: 0 <= k < |fragments| && FirstSpelling(fragments, d, k)
  }

  ghost predicate FirstSpelling(fragments: seq<string>, d: Dept, k: nat)
    requires k < |fragments|
  {
    fragments[k] == d.name && d.id == DeptId(Normalize(d.name))
    && forall j :: 0 <= j < k ==> DeptId(Normalize(fragments[j])) != d.id
  }

  /** The node a department name stands for, once the plan is carried out. */
  function Home(tree: seq<Node>, norm: string): Option<string> {
    if HasId(tree, DeptId(norm)) || !ManualNamed(tree, norm) then Some(DeptId(norm)) else IdOfName(tree, norm)
  }

  /** A worker belongs to the home of the first of their departments that has one. */
  function Primary(tree: seq<Node>, fragments: seq<string>): Option<string> {
    if fragments == [] then None
    else
      var before, norm := Primary(tree, fragments[..|fragments| - 1]), Normalize(fragments[|fragments| - 1]);
      if before.Some? || norm == "" then before else Home(tree, norm)
  }

  /** That is: the first fragment with a name that stands for a node decides, and every earlier
      one is empty or stands for none. A name stands for the derived department, unless one made
      by hand bears it and the derived one is not there. */
  lemma {:induction false} PrimaryIs(tree: seq<Node>, fragments: seq<string>) returns (k: nat)
    ensures k <= |fragments|
    ensures forall j :: 0 <= j < k ==> Normalize(fragments[j]) == "" || Home(tree, Normalize(fragments[j])).None?
    ensures if k == |fragments| then Primary(tree, fragments).None?
            else Normalize(fragments[k]) != "" && Home(tree, Normalize(fragments[k])).Some?
                 && Primary(tree, fragments) == Home(tree, Normalize(fragments[k]))
  {
    hide Normalize, Home;
    k := 0;
    if fragments != [] {
      k := PrimaryIs(tree, fragments[..|fragments| - 1]);
      var norm := Normalize(fragments[|fragments| - 1]);
      if k == |fragments| - 1 && (norm == "" || Home(tree, norm).None?) {
        k := |fragments|;
      }
    }
  }

  lemma PlanStep(tree: seq<Node>, fragments: seq<string>, planned: seq<Dept>, f: string)
    requires PlanRight(tree, fragments, planned)
    ensures var id := DeptId(Normalize(f));
      if Wanted(tree, f) && !PlannedId(planned, id) then PlanRight(tree, fragments + [f], planned + [Dept(id, f)])
      else PlanRight(tree, fragments + [f], planned)
  {
    hide Normalize;
    var id, all := DeptId(Normalize(f)), fragments + [f];
    assert all[|fragments|] == f && forall i :: 0 <= i < |fragments| ==> all[i] == fragments[i];
    assert forall x :: Asked(tree, all, x) <==> Asked(tree, fragments, x) || (Wanted(tree, f) && x == id);
    forall d | SpelledFirst(fragments, d)
      ensures SpelledFirst(all, d)
    {
      var k :| 0 <= k < |fragments| && FirstSpelling(fragments, d, k);
      assert FirstSpelling(all, d, k);
    }
    if Wanted(tree, f) && !PlannedId(planned, id) {
      NewDept(tree, fragments, planned, f);
    }
  }

  lemma NewDept(tree: seq<Node>, fragments: seq<string>, planned: seq<Dept>, f: string)
    requires PlanRight(tree, fragments, planned) && Wanted(tree, f) && !PlannedId(planned, DeptId(Normalize(f)))
    ensures var d := Dept(DeptId(Normalize(f)), f);
      && SpelledFirst(fragments + [f], d)
      && forall x :: PlannedId(planned + [d], x) <==> PlannedId(planned, x) || x == d.id
  {
    hide Normalize;
    var d, all := Dept(DeptId(Normalize(f)), f), fragments + [f];
    assert !Asked(tree, fragments, d.id);
    forall j | 0 <= j < |fragments|
      ensures DeptId(Normalize(fragments[j])) != d.id
    {
      SameDept(tree, fragments[j], f);
    }
    assert FirstSpelling(all, d, |fragments|);
    assert (planned + [d])[|planned|] == d && forall i :: 0 <= i < |planned| ==> (planned + [d])[i] == planned[i];
  }

  /** One id, one normal name: either both are wanted or neither is. */
  lemma SameDept(tree: seq<Node>, f: string, g: string)
    ensures DeptId(Normalize(f)) == DeptId(Normalize(g)) ==>
              Normalize(f) == Normalize(g) && (Wanted(tree, f) <==> Wanted(tree, g))
  {
    assert DeptId(Normalize(f))[5..] == Normalize(f) && DeptId(Normalize(g))[5..] == Normalize(g);
  }

  lemma NothingPlanned(tree: seq<Node>)
    ensures PlanRight(tree, [], [])
  {
  }

  ghost predicate Known(tree: seq<Node>, planned: seq<Dept>, known: set<string>) {
    forall id :: id in known <==> HasId(tree, id) || PlannedId(planned, id)
  }

  lemma KnownAtFirst(tree: seq<Node>)
    ensures Known(tree, [], set i | 0 <= i < |tree| :: tree[i].id)
  {
  }

  lemma AddKnown(tree: seq<Node>, planned: seq<Dept>, known: set<string>, d: Dept)
    requires Known(tree, planned, known)
    ensures Known(tree, planned + [d], known + {d.id})
  {
    hide HasId;
    assert (planned + [d])[|planned|] == d && forall i :: 0 <= i < |planned| ==> (planned + [d])[i] == planned[i];
  }

  /** How a fragment stands to the tree and the plan, case by case. */
  lemma Standing(tree: seq<Node>, fragments: seq<string>, planned: seq<Dept>, f: string)
    requires PlanRight(tree, fragments, planned)
    ensures var norm, id := Normalize(f), DeptId(Normalize(f));
      && (norm == "" ==> !Wanted(tree, f))
      && (norm != "" && (HasId(tree, id) || PlannedId(planned, id)) ==>
            Home(tree, norm) == Some(id) && !(Wanted(tree, f) && !PlannedId(planned, id)))
      && (norm != "" && !HasId(tree, id) && !PlannedId(planned, id) ==>
            (Wanted(tree, f) <==> !ManualNamed(tree, norm))
            && Home(tree, norm) == if ManualNamed(tree, norm) then IdOfName(tree, norm) else Some(id))
  {
    hide Normalize, HasId, ManualNamed, IdOfName;
    var id := DeptId(Normalize(f));
    if PlannedId(planned, id) {
      assert Asked(tree, fragments, id);
      var i :| 0 <= i < |fragments| && Wanted(tree, fragments[i]) && id == DeptId(Normalize(fragments[i]));
      SameDept(tree, fragments[i], f);
    }
  }

  method PlanOrg(tree: seq<Node>, workers: seq<seq<string>>)
    returns (planned: seq<Dept>, primaries: seq<Option<string>>)
    ensures PlanRight(tree, Flat(workers), planned)
    ensures |primaries| == |workers| && forall i :: 0 <= i < |workers| ==> primaries[i] == Primary(tree, workers[i])
  {
    hide PlanRight, Home, Wanted, Normalize, HasId, ManualNamed, IdOfName, PlannedId;
    planned, primaries := [], [];
    NothingPlanned(tree);
    var known := set i | 0 <= i < |tree| :: tree[i].id;
    KnownAtFirst(tree);
    var w := 0;
    while w < |workers|
      invariant w <= |workers| && PlanRight(tree, Flat(workers[..w]), planned) && Known(tree, planned, known)
      invariant |primaries| == w && forall i :: 0 <= i < w ==> primaries[i] == Primary(tree, workers[i])
    {
      var fragments, primary := workers[w], None;
      ghost var before := Flat(workers[..w]);
      assert workers[..w + 1][..w] == workers[..w];
      assert before + fragments[..0] == before;
      var k := 0;
      while k < |fragments|
        invariant k <= |fragments| && PlanRight(tree, before + fragments[..k], planned) && Known(tree, planned, known)
        invariant primary == Primary(tree, fragments[..k])
      {
        var f := fragments[k];
        var norm := Normalize(f);
        var id := DeptId(norm);
        PlanStep(tree, before + fragments[..k], planned, f);
        Standing(tree, before + fragments[..k], planned, f);
        assert before + fragments[..k] + [f] == before + fragments[..k + 1];
        assert fragments[..k + 1][..k] == fragments[..k];
        if norm != "" {
          var home := Some(id);
          if id !in known {
            if ManualNamed(tree, norm) {
              home := IdOfName(tree, norm);
            } else {
              AddKnown(tree, planned, known, Dept(id, f));
              planned := planned + [Dept(id, f)];
              known := known + {id};
            }
          }
          if primary.None? {
            primary := home;
          }
        }
        k := k + 1;
      }
      assert fragments[..|fragments|] == fragments;
      primaries := primaries + [primary];
      w := w + 1;
    }
    assert workers[..|workers|] == workers;
  }

  // -------------------------------------------------------------------- carrying out

  function DeptNode(d: Dept): Node {
    Node(d.id, d.name, Some(COMPANY), "dept", false)
  }

  function DeptNodes(planned: seq<Dept>): seq<Node> {
    seq(|planned|, i requires 0 <= i < |planned| => DeptNode(planned[i]))
  }

  const ROOT := Node(COMPANY, "\U{516C}\U{53F8}", None, "company", false)

  function Created(tree: seq<Node>, planned: seq<Dept>): seq<Node> {
    (if HasId(tree, COMPANY) then [] else [ROOT]) + DeptNodes(planned)
  }

  /** What the derivation adds: the company, if it is not there, under its own name, and the
      departments of the plan, in order, below it, under an id that is made of the normal name;
      none of them counts as made by hand. */
  lemma CreatedAre(tree: seq<Node>, fragments: seq<string>, planned: seq<Dept>)
    requires PlanRight(tree, fragments, planned)
    ensures var made, n := Created(tree, planned), if HasId(tree, "company") then 0 else 1;
      && |made| == n + |planned|
      && (n == 1 ==> made[0] == Node("company", "\U{516C}\U{53F8}", None, "company", false))
      && forall i :: 0 <= i < |planned| ==>
           made[n + i] == Node("dept:" + Normalize(planned[i].name), planned[i].name, Some("company"), "dept", false)
  {
    hide HasId, Normalize, Asked;
    forall i | 0 <= i < |planned|
      ensures planned[i].id == DeptId(Normalize(planned[i].name))
    {
      assert SpelledFirst(fragments, planned[i]);
    }
  }

  /** Text order, character by character. */
  predicate TextLeq(s: string, u: string) {
    s == [] || (u != [] && (s[0] < u[0] || (s[0] == u[0] && TextLeq(s[1..], u[1..]))))
  }

  ghost predicate InIdOrder(nodes: seq<Node>) {
    forall i, j :: 0 <= i < j < |nodes| ==> TextLeq(nodes[i].id, nodes[j].id)
  }

  function InsertById(n: Node, nodes: seq<Node>): (r: seq<Node>)
    ensures multiset(r) == multiset{n} + multiset(nodes)
  {
    if nodes == [] then [n]
    else if TextLeq(n.id, nodes[0].id) then [n] + nodes
    else
      assert nodes == [nodes[0]] + nodes[1..];
      [nodes[0]] + InsertById(n, nodes[1..])
  }

  /** The tree as it is listed. */
  function ById(nodes: seq<Node>): (r: seq<Node>)
    ensures multiset(r) == multiset(nodes)
  {
    if nodes == [] then []
    else
      assert nodes == [nodes[0]] + nodes[1..];
      InsertById(nodes[0], ById(nodes[1..]))
  }

  lemma {:induction false} TextLeqTotal(s: string, u: string)
    ensures TextLeq(s, u) || TextLeq(u, s)
  {
    if s != [] && u != [] && s[0] == u[0] {
      TextLeqTotal(s[1..], u[1..]);
    }
  }

  lemma {:induction false} TextLeqThrough(s: string, u: string, v: string)
    requires TextLeq(s, u) && TextLeq(u, v)
    ensures TextLeq(s, v)
  {
    if s != [] && s[0] == u[0] && u[0] == v[0] {
      TextLeqThrough(s[1..], u[1..], v[1..]);
    }
  }

  lemma {:induction false} InsertByIdOrders(n: Node, nodes: seq<Node>)
    requires InIdOrder(nodes)
    ensures InIdOrder(InsertById(n, nodes))
  {
    if nodes != [] {
      var rest := InsertById(n, nodes[1..]);
      if TextLeq(n.id, nodes[0].id) {
        forall j | 0 <= j < |nodes|
          ensures TextLeq(n.id, nodes[j].id)
        {
          if j > 0 {
            TextLeqThrough(n.id, nodes[0].id, nodes[j].id);
          }
        }
      } else {
        TextLeqTotal(n.id, nodes[0].id);
        InsertByIdOrders(n, nodes[1..]);
        forall j | 0 <= j < |rest|
          ensures TextLeq(nodes[0].id, rest[j].id)
        {
          assert rest[j] in multiset(rest);
          assert rest[j] == n || rest[j] in nodes[1..];
        }
      }
    }
  }

  /** The listing is in id order and holds the same nodes. */
  lemma {:induction false} ByIdOrders(nodes: seq<Node>)
    ensures InIdOrder(ById(nodes))
    ensures forall n :: n in ById(nodes) <==> n in nodes
  {
    assert forall n :: n in ById(nodes) <==> n in multiset(ById(nodes));
    if nodes != [] {
      ByIdOrders(nodes[1..]);
      InsertByIdOrders(nodes[0], ById(nodes[1..]));
    }
  }

  /** What a roster asks for depends on the nodes there are, not on their order. */
  lemma SameNodesSamePlan(tree: seq<Node>, tree': seq<Node>, fragments: seq<string>, planned: seq<Dept>)
    requires forall n :: n in tree <==> n in tree'
    ensures PlanRight(tree, fragments, planned) <==> PlanRight(tree', fragments, planned)
    ensures Created(tree, planned) == Created(tree', planned)
  {
    hide Normalize;
    assert forall id :: HasId(tree, id) <==> exists n :: n in tree && n.id == id;
    assert forall id :: HasId(tree', id) <==> exists n :: n in tree' && n.id == id;
    assert forall norm :: ManualNamed(tree, norm) <==> exists n :: n in tree && n.manual && Normalize(n.name) == norm;
    assert forall norm :: ManualNamed(tree', norm) <==> exists n :: n in tree' && n.manual && Normalize(n.name) == norm;
    assert forall id :: HasId(tree, id) <==> HasId(tree', id);
    assert forall norm :: ManualNamed(tree, norm) <==> ManualNamed(tree', norm);
    hide HasId, ManualNamed;
    assert forall f :: Wanted(tree, f) <==> Wanted(tree', f);
    hide Wanted;
    assert forall id :: Asked(tree, fragments, id) <==> Asked(tree', fragments, id);
  }

  /** No node is its own parent, or the child of a node without an id. */
  function Cleared(n: Node): Node {
    if n.parent == Some("") || n.parent == Some(n.id) then n.(parent := None) else n
  }

  /** So a node keeps its parent unless that is itself or has no id, and is otherwise as given. */
  lemma ClearedIs(n: Node)
    ensures Cleared(n).parent == if n.parent.Some? && n.parent.value != ""
            && n.parent.value != n.id then n.parent else None
    ensures Cleared(n).(parent := n.parent) == n
  {
  }

  class OrgStore {
    var nodes: seq<Node>

    /** An id that is there is written over; one that is not is added. */
    method Upsert(n: Node)
      modifies this
      ensures !HasId(old(nodes), n.id) ==> nodes == old(nodes) + [Cleared(n)]
      ensures HasId(old(nodes), n.id) ==>
                exists i :: 0 <= i < |old(nodes)| && old(nodes)[i].id == n.id && nodes == old(nodes)[i := Cleared(n)]
    {
      var node := n;
      if node.parent == Some("") || node.parent == Some(node.id) {
        node := node.(parent := None);
      }
      var i := 0;
      while i < |nodes|
        invariant i <= |nodes| && nodes == old(nodes)
        invariant forall j :: 0 <= j < i ==> nodes[j].id != n.id
      {
        if nodes[i].id == n.id {
          nodes := nodes[i := node];
          return;
        }
        i := i + 1;
      }
      nodes := nodes + [node];
    }

    /** Existing nodes stay as they are; the plan's departments, and the company if it is
        missing, are added. */
    method Derive(workers: seq<seq<string>>) returns (planned: seq<Dept>, primaries: seq<Option<string>>)
      modifies this
      ensures PlanRight(old(nodes), Flat(workers), planned)
      ensures nodes == old(nodes) + Created(old(nodes), planned)
      ensures |primaries| == |workers|
      ensures forall i :: 0 <= i < |workers| ==> primaries[i] == Primary(ById(old(nodes)), workers[i])
    {
      hide PlanRight, HasId, Primary, Normalize, ById, Created;
      ghost var tree := nodes;
      planned, primaries := PlanOrg(ById(nodes), workers);
      ByIdOrders(tree);
      SameNodesSamePlan(tree, ById(tree), Flat(workers), planned);
      AddAll(planned, Flat(workers));
    }

    method AddAll(planned: seq<Dept>, ghost fragments: seq<string>)
      requires PlanRight(nodes, fragments, planned)
      modifies this
      ensures nodes == old(nodes) + Created(old(nodes), planned)
    {
      hide PlanRight, HasId;
      ghost var tree := nodes;
      ghost var root := if HasId(tree, COMPANY) then [] else [ROOT];
      if !HasId(nodes, COMPANY) {
        Upsert(ROOT);
      }
      var i := 0;
      assert DeptNodes(planned[..0]) == [];
      while i < |planned|
        invariant i <= |planned| && nodes == tree + root + DeptNodes(planned[..i])
      {
        NotThereYet(tree, fragments, planned, i);
        DeptHasParent(tree, fragments, planned, i);
        assert DeptNodes(planned[..i + 1]) == DeptNodes(planned[..i]) + [DeptNode(planned[i])];
        Upsert(DeptNode(planned[i]));
        i := i + 1;
      }
      assert planned[..|planned|] == planned;
    }
  }

  lemma DeptHasParent(tree: seq<Node>, fragments: seq<string>, planned: seq<Dept>, i: nat)
    requires PlanRight(tree, fragments, planned) && i < |planned|
    ensures Cleared(DeptNode(planned[i])) == DeptNode(planned[i])
  {
    hide Normalize;
    assert PlannedId(planned, planned[i].id);
    assert Asked(tree, fragments, planned[i].id);
    assert planned[i].id[0] != COMPANY[0];
  }

  lemma NotThereYet(tree: seq<Node>, fragments: seq<string>, planned: seq<Dept>, i: nat)
    requires PlanRight(tree, fragments, planned) && i < |planned|
    ensures !HasId(tree + (if HasId(tree, COMPANY) then [] else [ROOT]) + DeptNodes(planned[..i]), planned[i].id)
  {
    hide Normalize;
    assert PlannedId(planned, planned[i].id);
    assert Asked(tree, fragments, planned[i].id);
    assert planned[i].id[0] != COMPANY[0];
  }

  /** The new nodes have new ids, all different. */
  lemma CreatedAreNew(tree: seq<Node>, fragments: seq<string>, planned: seq<Dept>)
    requires PlanRight(tree, fragments, planned) && DistinctIds(tree)
    ensures DistinctIds(tree + Created(tree, planned))
  {
    var all := tree + Created(tree, planned);
    forall i, j | 0 <= i < j < |all|
      ensures all[i].id != all[j].id
    {
      var base := |all| - |planned|;
      if j >= base {
        NotThereYet(tree, fragments, planned, j - base);
        var before := tree + (if HasId(tree, COMPANY) then [] else [ROOT]) + DeptNodes(planned[..j - base]);
        assert all[i] == before[i];
      }
    }
  }

  lemma CompanyStands(tree: seq<Node>, planned: seq<Dept>)
    ensures HasId(tree + Created(tree, planned), COMPANY)
  {
    var tree' := tree + Created(tree, planned);
    if HasId(tree, COMPANY) {
      var i :| 0 <= i < |tree| && tree[i].id == COMPANY;
      assert tree'[i] == tree[i];
    } else {
      assert tree'[|tree|] == ROOT;
    }
  }

  /** Run again on the same roster, or on any part of it, the derivation creates nothing. */
  lemma DerivingAgain(tree: seq<Node>, fragments: seq<string>, planned: seq<Dept>, part: seq<string>, again: seq<Dept>)
    requires PlanRight(tree, fragments, planned)
    requires forall i :: 0 <= i < |part| ==> part[i] in fragments
    requires PlanRight(tree + Created(tree, planned), part, again)
    ensures Created(tree + Created(tree, planned), again) == []
  {
    var tree' := tree + Created(tree, planned);
    CompanyStands(tree, planned);
    assert again != [] ==> PlannedId(again, again[0].id);
    forall i | 0 <= i < |part|
      ensures !Wanted(tree', part[i])
    {
      StandsAfter(tree, fragments, planned, part[i]);
    }
    assert forall id :: !PlannedId(again, id);
  }

  lemma StandsAfter(tree: seq<Node>, fragments: seq<string>, planned: seq<Dept>, f: string)
    requires PlanRight(tree, fragments, planned) && f in fragments
    ensures !Wanted(tree + Created(tree, planned), f)
  {
    hide Normalize;
    var tree', norm := tree + Created(tree, planned), Normalize(f);
    if Wanted(tree, f) {
      assert Asked(tree, fragments, DeptId(norm));
      var i :| 0 <= i < |planned| && planned[i].id == DeptId(norm);
      assert tree'[|tree'| - |planned| + i].id == DeptId(norm);
    } else if HasId(tree, DeptId(norm)) {
      var i :| 0 <= i < |tree| && tree[i].id == DeptId(norm);
      assert tree'[i].id == DeptId(norm);
    } else if norm != "" {
      var i :| 0 <= i < |tree| && tree[i].manual && Normalize(tree[i].name) == norm;
      assert tree'[i] == tree[i];
    }
  }

  lemma {:induction false} IdOfNameThere(nodes: seq<Node>, norm: string)
    ensures IdOfName(nodes, norm).Some? ==> HasId(nodes, IdOfName(nodes, norm).value)
  {
    if nodes != [] {
      IdOfNameThere(nodes[..|nodes| - 1], norm);
    }
  }

  /** Every worker's primary department is a node of the derived tree. */
  lemma {:induction false} PrimaryIsThere(tree: seq<Node>, fragments: seq<string>, planned: seq<Dept>,
                                          mine: seq<string>)
    requires PlanRight(tree, fragments, planned) && forall i :: 0 <= i < |mine| ==> mine[i] in fragments
    ensures Primary(tree, mine).Some? ==> HasId(tree + Created(tree, planned), Primary(tree, mine).value)
  {
    if mine != [] {
      var front, f := mine[..|mine| - 1], mine[|mine| - 1];
      PrimaryIsThere(tree, fragments, planned, front);
      if Primary(tree, front).None? && Normalize(f) != "" {
        HomeIsThere(tree, fragments, planned, f);
      }
    }
  }

  lemma HomeIsThere(tree: seq<Node>, fragments: seq<string>, planned: seq<Dept>, f: string)
    requires PlanRight(tree, fragments, planned) && f in fragments && Normalize(f) != ""
    ensures Home(tree, Normalize(f)).Some? ==> HasId(tree + Created(tree, planned), Home(tree, Normalize(f)).value)
  {
    hide Normalize;
    var tree', norm := tree + Created(tree, planned), Normalize(f);
    if Wanted(tree, f) {
      assert Asked(tree, fragments, DeptId(norm));
      var i :| 0 <= i < |planned| && planned[i].id == DeptId(norm);
      assert tree'[|tree'| - |planned| + i].id == DeptId(norm);
    } else {
      IdOfNameThere(tree, norm);
      if Home(tree, norm).Some? {
        var i :| 0 <= i < |tree| && tree[i].id == Home(tree, norm).value;
        assert tree'[i] == tree[i];
      }
    }
  }

  // ------------------------------------------------------- departments made by hand

  ghost predicate Bears(n: Node, norm: string) {
    n.id != "" && Normalize(n.name) == norm
  }

  ghost predicate LastBearer(tree: seq<Node>, norm: string, i: nat) {
    i < |tree| && Bears(tree[i], norm) && forall j :: i < j < |tree| ==> !Bears(tree[j], norm)
  }

  lemma {:induction false} IdOfNameIsLast(tree: seq<Node>, norm: string) returns (i: nat)
    ensures IdOfName(tree, norm).Some? ==> LastBearer(tree, norm, i) && IdOfName(tree, norm).value == tree[i].id
  {
    hide Normalize;
    i := 0;
    if tree != [] {
      var n := |tree| - 1;
      i := IdOfNameIsLast(tree[..n], norm);
      if Bears(tree[n], norm) {
        i := n;
      }
    }
  }

  lemma {:induction false} NoBearer(tree: seq<Node>, norm: string, i: nat)
    requires IdOfName(tree, norm).None? && i < |tree|
    ensures !Bears(tree[i], norm)
  {
    hide Normalize;
    if i < |tree| - 1 {
      NoBearer(tree[..|tree| - 1], norm, i);
    }
  }

  /** A department that stands under a node made by hand is that worker's home exactly when
      the last node to bear the name is one made by hand; the derived or root node that comes
      after it wins otherwise. */
  lemma HomeIsManualIff(tree: seq<Node>, norm: string)
    requires DistinctIds(tree) && !HasId(tree, DeptId(norm)) && ManualNamed(tree, norm)
    ensures Home(tree, norm).Some? && ManualId(tree, Home(tree, norm).value)
            <==> exists i: nat :: LastBearer(tree, norm, i) && tree[i].manual
  {
    hide Normalize;
    if Home(tree, norm).Some? {
      var i := IdOfNameIsLast(tree, norm);
      assert ManualId(tree, tree[i].id) <==> tree[i].manual;
      assert forall j: nat :: LastBearer(tree, norm, j) ==> j == i;
    } else {
      forall i: nat | i < |tree|
        ensures !Bears(tree[i], norm)
      {
        NoBearer(tree, norm, i);
      }
    }
  }

  /** A department made by hand under the root's own name: the listing shows it before the
      root, and its workers' home is the root. */
  const UNDER_ROOT := [Node("a", ROOT.name, Some(COMPANY), "dept", true), ROOT]

  lemma RootTakesHome()
    ensures InIdOrder(UNDER_ROOT) && DistinctIds(UNDER_ROOT) && ManualNamed(UNDER_ROOT, Normalize(ROOT.name))
    ensures Home(UNDER_ROOT, Normalize(ROOT.name)) == Some(COMPANY) && !ManualId(UNDER_ROOT, COMPANY)
  {
    hide Normalize;
    var norm := Normalize(ROOT.name);
    assert UNDER_ROOT[0].manual && Normalize(UNDER_ROOT[0].name) == norm;
    assert DeptId(norm)[0] == 'd' && "a"[0] == 'a' && COMPANY[0] == 'c';
    assert IdOfName(UNDER_ROOT, norm) == Some(COMPANY);
  }
}

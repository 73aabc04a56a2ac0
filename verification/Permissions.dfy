/** Roles to permissions, and the two readings of them: the decision on one permission and
    the set of all effective ones. */
module Permissions {
  import opened Minutes

  /** How much data a permission reaches; without a scope it reaches the whole tenant. */
  datatype Scope = Own | Dept | Tenant

  function Width(s: Scope): nat {
    match s
    case Own => 0
    case Dept => 1
    case Tenant => 2
  }

  datatype Spec = Spec(code: string, scope: Option<Scope>)

  /** The permissions of the bound roles; a role that does not exist has none. */
  function SpecsOf(roles: map<string, seq<Spec>>, bound: seq<string>): seq<Spec> {
    if bound == [] then []
    else
      var last := bound[|bound| - 1];
      SpecsOf(roles, bound[..|bound| - 1]) + (if last in roles then roles[last] else [])
  }

  /** p is granted, at a reach of at least w. */
  ghost predicate Grants(specs: seq<Spec>, p: string, w: nat) {
    exists i :: 0 <= i < |specs| && specs[i].code == p && Reach(specs[i].scope) >= w
  }

  function Reach(s: Option<Scope>): nat {
    match s
    case None => 2
    case Some(scope) => Width(scope)
  }

  datatype Resolved = Resolved(permissions: set<string>, scopes: map<string, Scope>)

  function ReachOf(r: Resolved, p: string): nat {
    if p in r.scopes then Width(r.scopes[p]) else 2
  }

  /** The union of the bound roles, each permission at its widest reach. */
  ghost predicate ResolvesTo(specs: seq<Spec>, r: Resolved) {
    && (forall p :: p in r.permissions <==> Grants(specs, p, 0))
    && (forall p :: p in r.scopes <==> p in r.permissions && Spec(p, None) !in specs)
    && (forall p, w: nat :: p in r.permissions ==> (w <= ReachOf(r, p) <==> Grants(specs, p, w) || w == 0))
  }

  /** What the loop has gathered: permissions, those with no scope, and the widest scope of
      each of the others so far. */
  ghost predicate Gathered(specs: seq<Spec>, permissions: set<string>, unscoped: set<string>,
                           scopes: map<string, Scope>) {
    && (forall p :: p in permissions <==> exists i :: 0 <= i < |specs| && specs[i].code == p)
    && (forall p :: p in unscoped <==> exists i :: 0 <= i < |specs| && specs[i] == Spec(p, None))
    && (forall p :: p in scopes <==> exists i :: 0 <= i < |specs| && specs[i].code == p && specs[i].scope.Some?)
    && (forall p :: p in scopes ==> exists i :: 0 <= i < |specs| && specs[i] == Spec(p, Some(scopes[p])))
    && (forall i :: 0 <= i < |specs| && specs[i].scope.Some? ==>
          specs[i].code in scopes && Width(specs[i].scope.value) <= Width(scopes[specs[i].code]))
  }

  lemma GatherUnscoped(specs: seq<Spec>, s: Spec, permissions: set<string>, unscoped: set<string>,
                       scopes: map<string, Scope>)
    requires Gathered(specs, permissions, unscoped, scopes) && s.scope.None?
    ensures Gathered(specs + [s], permissions + {s.code}, unscoped + {s.code}, scopes)
  {
    var all := specs + [s];
    assert all[|specs|] == s && forall i :: 0 <= i < |specs| ==> all[i] == specs[i];
  }

  lemma GatherWider(specs: seq<Spec>, s: Spec, permissions: set<string>, unscoped: set<string>,
                    scopes: map<string, Scope>)
    requires Gathered(specs, permissions, unscoped, scopes) && s.scope.Some?
    requires s.code !in scopes || Width(s.scope.value) > Width(scopes[s.code])
    ensures Gathered(specs + [s], permissions + {s.code}, unscoped, scopes[s.code := s.scope.value])
  {
    var all := specs + [s];
    assert all[|specs|] == s && forall i :: 0 <= i < |specs| ==> all[i] == specs[i];
  }

  lemma GatherNarrower(specs: seq<Spec>, s: Spec, permissions: set<string>, unscoped: set<string>,
                       scopes: map<string, Scope>)
    requires Gathered(specs, permissions, unscoped, scopes) && s.scope.Some?
    requires s.code in scopes && Width(s.scope.value) <= Width(scopes[s.code])
    ensures Gathered(specs + [s], permissions + {s.code}, unscoped, scopes)
  {
    var all := specs + [s];
    assert all[|specs|] == s && forall i :: 0 <= i < |specs| ==> all[i] == specs[i];
  }

  /** Dropping the scope of whatever some role grants without one leaves the widest reach. */
  lemma GatheredReach(specs: seq<Spec>, permissions: set<string>, unscoped: set<string>, scopes: map<string, Scope>,
                      p: string, w: nat)
    requires Gathered(specs, permissions, unscoped, scopes) && p in permissions
    ensures w <= ReachOf(Resolved(permissions, scopes - unscoped), p) <==> Grants(specs, p, w) || w == 0
  {
    if p in unscoped {
      var i :| 0 <= i < |specs| && specs[i] == Spec(p, None);
      assert w <= 2 ==> Grants(specs, p, w);
    } else if p in scopes {
      var i :| 0 <= i < |specs| && specs[i] == Spec(p, Some(scopes[p]));
      assert w <= Width(scopes[p]) ==> Grants(specs, p, w);
    }
  }

  lemma GatheredResolves(specs: seq<Spec>, permissions: set<string>, unscoped: set<string>, scopes: map<string, Scope>)
    requires Gathered(specs, permissions, unscoped, scopes)
    ensures ResolvesTo(specs, Resolved(permissions, scopes - unscoped))
  {
    forall p, w: nat | p in permissions
      ensures w <= ReachOf(Resolved(permissions, scopes - unscoped), p) <==> Grants(specs, p, w) || w == 0
    {
      GatheredReach(specs, permissions, unscoped, scopes, p, w);
    }
    assert forall p :: p in permissions <==> Grants(specs, p, 0);
    assert forall p :: p in unscoped <==> Spec(p, None) in specs;
    hide Grants, ReachOf;
  }

  method Resolve(roles: map<string, seq<Spec>>, bound: seq<string>) returns (r: Resolved)
    ensures ResolvesTo(SpecsOf(roles, bound), r)
  {
    hide Gathered, ResolvesTo;
    var permissions, unscoped, scopes := {}, {}, map[];
    NothingGathered();
    var i := 0;
    while i < |bound|
      invariant i <= |bound|
      invariant Gathered(SpecsOf(roles, bound[..i]), permissions, unscoped, scopes)
    {
      var specs := if bound[i] in roles then roles[bound[i]] else [];
      ghost var before := SpecsOf(roles, bound[..i]);
      assert bound[..i + 1][..i] == bound[..i];
      var j := 0;
      assert before + specs[..0] == before;
      while j < |specs|
        invariant j <= |specs| && Gathered(before + specs[..j], permissions, unscoped, scopes)
      {
        var s := specs[j];
        ghost var so := before + specs[..j];
        assert before + specs[..j + 1] == so + [s];
        if s.scope.None? {
          GatherUnscoped(so, s, permissions, unscoped, scopes);
          unscoped := unscoped + {s.code};
        } else if s.code !in scopes || Width(s.scope.value) > Width(scopes[s.code]) {
          GatherWider(so, s, permissions, unscoped, scopes);
          scopes := scopes[s.code := s.scope.value];
        } else {
          GatherNarrower(so, s, permissions, unscoped, scopes);
        }
        permissions := permissions + {s.code};
        j := j + 1;
      }
      assert specs[..|specs|] == specs;
      i := i + 1;
    }
    assert bound[..|bound|] == bound;
    GatheredResolves(SpecsOf(roles, bound), permissions, unscoped, scopes);
    return Resolved(permissions, scopes - unscoped);
  }

  lemma NothingGathered()
    ensures Gathered([], {}, {}, map[])
  {
  }

  /** Some bound role gives the permission with the scope. */
  ghost predicate Gives(roles: map<string, seq<Spec>>, bound: seq<string>, p: string, scope: Option<Scope>) {
    exists k :: 0 <= k < |bound| && bound[k] in roles && Spec(p, scope) in roles[bound[k]]
  }

  /** A permission is held exactly when some bound role gives it. It has no scope exactly when
      one gives it without; and otherwise the tenant's, if one gives that, or else the
      department's, if one gives that, or else the user's own. */
  lemma WidestWins(roles: map<string, seq<Spec>>, bound: seq<string>, r: Resolved, p: string)
    requires ResolvesTo(SpecsOf(roles, bound), r)
    ensures p in r.permissions
            <==> Gives(roles, bound, p, None) || Gives(roles, bound, p, Some(Tenant))
                 || Gives(roles, bound, p, Some(Dept)) || Gives(roles, bound, p, Some(Own))
    ensures p in r.scopes <==> p in r.permissions && !Gives(roles, bound, p, None)
    ensures p in r.scopes ==>
              r.scopes[p] == if Gives(roles, bound, p, Some(Tenant)) then Tenant
                             else if Gives(roles, bound, p, Some(Dept)) then Dept else Own
  {
    var specs := SpecsOf(roles, bound);
    forall scope: Option<Scope>
      ensures Gives(roles, bound, p, scope) <==> Spec(p, scope) in specs
    {
      SpecOfRole(roles, bound, Spec(p, scope));
    }
    GrantsBy(specs, p);
    hide Gives, SpecsOf, Grants;
  }

  lemma GrantsBy(specs: seq<Spec>, p: string)
    ensures Grants(specs, p, 2) <==> Spec(p, None) in specs || Spec(p, Some(Tenant)) in specs
    ensures Grants(specs, p, 1) <==> Grants(specs, p, 2) || Spec(p, Some(Dept)) in specs
    ensures Grants(specs, p, 0) <==> Grants(specs, p, 1) || Spec(p, Some(Own)) in specs
  {
  }

  // ---------------------------------------------------------------- more roles

  lemma {:induction false} SpecOfRole(roles: map<string, seq<Spec>>, bound: seq<string>, s: Spec)
    ensures s in SpecsOf(roles, bound) <==> exists k :: 0 <= k < |bound| && bound[k] in roles && s in roles[bound[k]]
  {
    if bound != [] {
      SpecOfRole(roles, bound[..|bound| - 1], s);
      assert bound == bound[..|bound| - 1] + [bound[|bound| - 1]];
    }
  }

  /** Binding more roles, in any order, neither takes a permission away nor narrows it. */
  lemma MoreRolesNeverNarrow(roles: map<string, seq<Spec>>, few: seq<string>, many: seq<string>, r: Resolved,
                             r': Resolved, p: string)
    requires forall k :: 0 <= k < |few| ==> few[k] in many
    requires ResolvesTo(SpecsOf(roles, few), r) && ResolvesTo(SpecsOf(roles, many), r')
    requires p in r.permissions
    ensures p in r'.permissions && ReachOf(r, p) <= ReachOf(r', p)
  {
    var w := ReachOf(r, p);
    assert Grants(SpecsOf(roles, few), p, w);
    var i :| 0 <= i < |SpecsOf(roles, few)| && SpecsOf(roles, few)[i].code == p
      && Reach(SpecsOf(roles, few)[i].scope) >= w;
    var s := SpecsOf(roles, few)[i];
    SpecOfRole(roles, few, s);
    SpecOfRole(roles, many, s);
    var k :| 0 <= k < |few| && few[k] in roles && s in roles[few[k]];
    var n :| 0 <= n < |many| && many[n] == few[k];
    var j :| 0 <= j < |SpecsOf(roles, many)| && SpecsOf(roles, many)[j] == s;
    assert Grants(SpecsOf(roles, many), p, w) && Grants(SpecsOf(roles, many), p, 0);
  }

  // ------------------------------------------------------------------- decisions

  /** A user as both readings see one: what their bindings give, the trusted-header roles and
      what those give while they are honoured, and whether they are the first administrator of
      a tenant that has no bindings yet. */
  datatype User = User(granted: set<string>, legacyOn: bool, legacy: seq<string>,
                       legacyGrants: map<string, set<string>>, bootstrap: bool)

  const ADMIN := "identity.admin"

  datatype Reason = Binding | LegacyRole(role: string) | Bootstrap | FailClosed

  datatype Ruling = Ruling(allowed: bool, reason: Reason)

  predicate RoleGives(u: User, role: string, p: string) {
    role in u.legacyGrants && p in u.legacyGrants[role]
  }

  /** Why the permission holds, in order of precedence. */
  ghost predicate ReasonRight(u: User, p: string, why: Reason) {
    match why
    case Binding => p in u.granted
    case LegacyRole(role) =>
      p !in u.granted && u.legacyOn
      && exists k :: 0 <= k < |u.legacy| && u.legacy[k] == role && RoleGives(u, role, p)
                     && forall j :: 0 <= j < k ==> !RoleGives(u, u.legacy[j], p)
    case Bootstrap =>
      p !in u.granted && u.bootstrap && p == "identity.admin"
      && (u.legacyOn ==> forall j :: 0 <= j < |u.legacy| ==> !RoleGives(u, u.legacy[j], p))
    case FailClosed =>
      p !in u.granted && !(u.bootstrap && p == "identity.admin")
      && (u.legacyOn ==> forall j :: 0 <= j < |u.legacy| ==> !RoleGives(u, u.legacy[j], p))
  }

  method Decide(u: User, p: string) returns (d: Ruling)
    ensures ReasonRight(u, p, d.reason) && (d.allowed <==> d.reason != FailClosed)
  {
    if p in u.granted {
      return Ruling(true, Binding);
    }
    if u.legacyOn {
      var k := 0;
      while k < |u.legacy|
        invariant k <= |u.legacy| && forall j :: 0 <= j < k ==> !RoleGives(u, u.legacy[j], p)
      {
        if RoleGives(u, u.legacy[k], p) {
          return Ruling(true, LegacyRole(u.legacy[k]));
        }
        k := k + 1;
      }
    }
    if u.bootstrap && p == ADMIN {
      return Ruling(true, Bootstrap);
    }
    return Ruling(false, FailClosed);
  }

  ghost predicate EffectiveFor(u: User, all: set<string>) {
    forall p :: p in all <==> exists why: Reason :: why != FailClosed && ReasonRight(u, p, why)
  }

  method EffectivePermissions(u: User) returns (all: set<string>)
    ensures EffectiveFor(u, all)
  {
    all := u.granted;
    if u.legacyOn {
      var k := 0;
      while k < |u.legacy|
        invariant k <= |u.legacy|
        invariant forall p :: p in all <==> p in u.granted || exists j :: 0 <= j < k && RoleGives(u, u.legacy[j], p)
      {
        if u.legacy[k] in u.legacyGrants {
          all := all + u.legacyGrants[u.legacy[k]];
        }
        k := k + 1;
      }
    }
    if u.bootstrap {
      all := all + {ADMIN};
    }
    forall p
      ensures p in all <==> exists why: Reason :: why != FailClosed && ReasonRight(u, p, why)
    {
      SomeReason(u, p);
    }
  }

  /** Some reason allows p exactly when one of the three sources gives it. */
  lemma SomeReason(u: User, p: string)
    ensures (exists why: Reason :: why != FailClosed && ReasonRight(u, p, why))
            <==> p in u.granted || (u.legacyOn && exists j :: 0 <= j < |u.legacy| && RoleGives(u, u.legacy[j], p))
                 || (u.bootstrap && p == ADMIN)
  {
    if p in u.granted {
      assert ReasonRight(u, p, Binding);
    } else if u.legacyOn && exists j :: 0 <= j < |u.legacy| && RoleGives(u, u.legacy[j], p) {
      var j :| 0 <= j < |u.legacy| && RoleGives(u, u.legacy[j], p);
      var k := FirstGiver(u, p, j);
      assert ReasonRight(u, p, LegacyRole(u.legacy[k]));
    } else if u.bootstrap && p == ADMIN {
      assert ReasonRight(u, p, Bootstrap);
    }
  }

  lemma {:induction false} FirstGiver(u: User, p: string, j: nat) returns (k: nat)
    requires j < |u.legacy| && RoleGives(u, u.legacy[j], p)
    ensures k <= j && RoleGives(u, u.legacy[k], p) && forall i :: 0 <= i < k ==> !RoleGives(u, u.legacy[i], p)
  {
    if i :| 0 <= i < j && RoleGives(u, u.legacy[i], p) {
      k := FirstGiver(u, p, i);
    } else {
      k := j;
    }
  }

  /** The decision on a permission and the effective set agree: the one allows exactly what
      the other holds, whatever reason the decision gives. */
  lemma DecisionIsMembership(u: User, all: set<string>, p: string, d: Ruling)
    requires EffectiveFor(u, all)
    requires ReasonRight(u, p, d.reason) && (d.allowed <==> d.reason != FailClosed)
    ensures d.allowed <==> p in all
  {
    SomeReason(u, p);
  }
}

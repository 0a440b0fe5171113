/** Resource-scoped access control (internal/auth/rbac.go, internal/domain/user/user.go). */
module Rbac {

  datatype Option<+T> = None | Some(value: T)

  datatype Kind = Platform | Organization | Project | Environment | Cluster | OtherKind(name: string)

  datatype Role = PlatformAdmin | OrgAdmin | ProjectAdmin | ClusterAdmin | Operator | Viewer | OtherRole(name: string)

  /** A role outside the table weighs nothing. */
  function Weight(r: Role): nat {
    match r
    case Viewer => 1
    case Operator => 2
    case ClusterAdmin => 3
    case ProjectAdmin => 4
    case OrgAdmin => 5
    case PlatformAdmin => 6
    case OtherRole(_) => 0
  }

  predicate Satisfies(r: Role, required: Role) {
    Weight(r) >= Weight(required)
  }

  const LADDER := [Viewer, Operator, ClusterAdmin, ProjectAdmin, OrgAdmin, PlatformAdmin]

  /** The roles form a ladder, each satisfying exactly those up to itself; a role outside it
      satisfies only requirements outside it, and those are satisfied by everybody. */
  lemma {:induction false} RoleLadder(i: nat, j: nat, other: string, another: string)
    requires i < |LADDER| && j < |LADDER|
    ensures Satisfies(LADDER[i], LADDER[j]) <==> j <= i
    ensures !Satisfies(OtherRole(other), LADDER[j])
    ensures Satisfies(LADDER[i], OtherRole(other)) && Satisfies(OtherRole(another), OtherRole(other))
  {
  }

  datatype Scope = Scope(kind: Kind, id: nat)

  /** 0 is the zero id. */
  const PLATFORM := Scope(Platform, 0)

  datatype Binding = Binding(role: Role, kind: Kind, id: nat)

  /** The parents the repositories know: of clusters, of environments and of projects. A missing
      entry is a Get that fails. */
  datatype Tenancy = Tenancy(clusters: map<nat, nat>, environments: map<nat, nat>, projects: map<nat, nat>)

  // ------------------------------------------------------------------ the hierarchy

  predicate HasParent(k: Kind) {
    k.Cluster? || k.Environment? || k.Project?
  }

  /** One level up; None at the top, or when the lookup fails. */
  function Parent(t: Tenancy, s: Scope): Option<Scope> {
    match s.kind
    case Cluster => if s.id in t.clusters then Some(Scope(Environment, t.clusters[s.id])) else None
    case Environment => if s.id in t.environments then Some(Scope(Project, t.environments[s.id])) else None
    case Project => if s.id in t.projects then Some(Scope(Organization, t.projects[s.id])) else None
    case _ => None
  }

  function Level(k: Kind): nat {
    match k
    case Cluster => 3
    case Environment => 2
    case Project => 1
    case _ => 0
  }

  /** n levels up. */
  function Climb(t: Tenancy, s: Scope, n: nat): Option<Scope>
    decreases n
  {
    if n == 0 then Some(s)
    else if Parent(t, s).None? then None
    else Climb(t, Parent(t, s).value, n - 1)
  }

  ghost predicate AtOrAbove(t: Tenancy, a: Scope, s: Scope) {
    exists n: nat :: Climb(t, s, n) == Some(a)
  }

  /** The scopes a check looks at, most specific first; None when a lookup fails. */
  function Chain(t: Tenancy, s: Scope): Option<seq<Scope>>
    decreases Level(s.kind)
  {
    if !HasParent(s.kind) then Some([s, PLATFORM])
    else if Parent(t, s).None? then None
    else
      var above := Chain(t, Parent(t, s).value);
      if above.None? then None else Some([s] + above.value)
  }

  lemma {:induction false} ProjectChain(t: Tenancy, id: nat)
    requires id in t.projects
    ensures Chain(t, Scope(Project, id)) == Some([Scope(Project, id), Scope(Organization, t.projects[id]), PLATFORM])
  {
    assert [Scope(Project, id)] + [Scope(Organization, t.projects[id]), PLATFORM]
        == [Scope(Project, id), Scope(Organization, t.projects[id]), PLATFORM];
  }

  /** The unrolled lookups. */
  method ScopeChain(t: Tenancy, kind: Kind, id: nat) returns (chain: Option<seq<Scope>>)
    ensures chain == Chain(t, Scope(kind, id))
    ensures match kind
            case Cluster =>
              (chain.Some? <==> id in t.clusters && t.clusters[id] in t.environments
                                && t.environments[t.clusters[id]] in t.projects) &&
              (chain.Some? ==>
                 chain.value == [Scope(Cluster, id), Scope(Environment, t.clusters[id]),
                                 Scope(Project, t.environments[t.clusters[id]]),
                                 Scope(Organization, t.projects[t.environments[t.clusters[id]]]), Scope(Platform, 0)])
            case Environment =>
              (chain.Some? <==> id in t.environments && t.environments[id] in t.projects) &&
              (chain.Some? ==>
                 chain.value == [Scope(Environment, id), Scope(Project, t.environments[id]),
                                 Scope(Organization, t.projects[t.environments[id]]), Scope(Platform, 0)])
            case Project =>
              (chain.Some? <==> id in t.projects) &&
              (chain.Some? ==> chain.value == [Scope(Project, id), Scope(Organization, t.projects[id]), Scope(Platform, 0)])
            case _ => chain == Some([Scope(kind, id), Scope(Platform, 0)])
  {
    var scopes := [Scope(kind, id)];
    match kind {
      case Cluster =>
        if id !in t.clusters {
          return None;
        }
        var environment := t.clusters[id];
        scopes := scopes + [Scope(Environment, environment)];
        if environment !in t.environments {
          return None;
        }
        var project := t.environments[environment];
        scopes := scopes + [Scope(Project, project)];
        assert Chain(t, Scope(Project, project)).None? <==> project !in t.projects;
        if project !in t.projects {
          return None;
        }
        scopes := scopes + [Scope(Organization, t.projects[project])];
        ProjectChain(t, project);
        assert Chain(t, Scope(Environment, environment)).Some?;
      case Environment =>
        if id !in t.environments {
          return None;
        }
        var project := t.environments[id];
        scopes := scopes + [Scope(Project, project)];
        assert Chain(t, Scope(Project, project)).None? <==> project !in t.projects;
        if project !in t.projects {
          return None;
        }
        scopes := scopes + [Scope(Organization, t.projects[project])];
        ProjectChain(t, project);
      case Project =>
        if id !in t.projects {
          return None;
        }
        scopes := scopes + [Scope(Organization, t.projects[id])];
        ProjectChain(t, id);
      case _ =>
    }
    scopes := scopes + [PLATFORM];
    assert Chain(t, Scope(kind, id)).Some? && scopes == Chain(t, Scope(kind, id)).value;
    chain := Some(scopes);
  }

  // ------------------------------------------------------------------ the decision

  predicate Applies(b: Binding, scope: Scope) {
    b.kind == scope.kind && (scope.kind.Platform? || b.id == scope.id)
  }

  ghost predicate Granted(bindings: seq<Binding>, chain: seq<Scope>, required: Role) {
    exists b, scope :: b in bindings && scope in chain && Applies(b, scope) && Satisfies(b.role, required)
  }

  /** The chain holds the resource, everything above it, and PLATFORM. */
  lemma {:induction false} ChainMembers(t: Tenancy, s: Scope, x: Scope)
    requires Chain(t, s).Some?
    ensures x in Chain(t, s).value <==> x == PLATFORM || AtOrAbove(t, x, s)
    decreases Level(s.kind)
  {
    assert Climb(t, s, 0) == Some(s);
    if HasParent(s.kind) {
      var p := Parent(t, s).value;
      ChainMembers(t, p, x);
      if AtOrAbove(t, x, p) {
        var n: nat :| Climb(t, p, n) == Some(x);
        assert Climb(t, s, n + 1) == Some(x);
      }
      if AtOrAbove(t, x, s) && x != s {
        var n: nat :| Climb(t, s, n) == Some(x);
        assert Climb(t, p, n - 1) == Some(x);
      }
    } else if AtOrAbove(t, x, s) {
      var n: nat :| Climb(t, s, n) == Some(x);
    }
  }

  /** Some binding on the resource, on something above it, or on the platform (whatever its id)
      weighs enough. */
  ghost predicate Entitled(bindings: seq<Binding>, t: Tenancy, s: Scope, required: Role) {
    exists b :: b in bindings && Covers(b, t, s) && Satisfies(b.role, required)
  }

  ghost predicate Covers(b: Binding, t: Tenancy, s: Scope) {
    b.kind.Platform? || AtOrAbove(t, Scope(b.kind, b.id), s)
  }

  /** When the lookups succeed, access is granted exactly to the entitled. */
  lemma {:induction false} GrantedIffEntitled(bindings: seq<Binding>, t: Tenancy, s: Scope, required: Role)
    requires Chain(t, s).Some?
    ensures Granted(bindings, Chain(t, s).value, required) <==> Entitled(bindings, t, s, required)
  {
    var chain := Chain(t, s).value;
    if Granted(bindings, chain, required) {
      var b, scope :| b in bindings && scope in chain && Applies(b, scope) && Satisfies(b.role, required);
      ChainMembers(t, s, scope);
      assert Covers(b, t, s);
    }
    if Entitled(bindings, t, s, required) {
      var b :| b in bindings && Covers(b, t, s) && Satisfies(b.role, required);
      var scope := if b.kind.Platform? then PLATFORM else Scope(b.kind, b.id);
      ChainMembers(t, s, scope);
      assert Applies(b, scope);
    }
  }

  /** For a cluster: a binding of enough weight on the cluster itself, its environment, its
      project, its organization or the platform, and on nothing else. */
  lemma {:induction false} EntitledToCluster(bindings: seq<Binding>, t: Tenancy, id: nat, required: Role)
    requires id in t.clusters && t.clusters[id] in t.environments && t.environments[t.clusters[id]] in t.projects
    ensures var environment := t.clusters[id];
            var project := t.environments[environment];
            Entitled(bindings, t, Scope(Cluster, id), required) <==>
              exists b :: b in bindings && Weight(b.role) >= Weight(required) &&
                          match b.kind
                          case Platform => true
                          case Organization => b.id == t.projects[project]
                          case Project => b.id == project
                          case Environment => b.id == environment
                          case Cluster => b.id == id
                          case OtherKind(_) => false
  {
    var s, environment := Scope(Cluster, id), t.clusters[id];
    var project := t.environments[environment];
    ProjectChain(t, project);
    assert Chain(t, Scope(Environment, environment)).Some?;
    var chain := Chain(t, s).value;
    assert chain == [s, Scope(Environment, environment), Scope(Project, project),
                     Scope(Organization, t.projects[project]), PLATFORM];
    forall b | b in bindings
      ensures Covers(b, t, s) <==> b.kind.Platform? || Scope(b.kind, b.id) in chain
    {
      ChainMembers(t, s, Scope(b.kind, b.id));
    }
  }

  /** The search: every scope of the chain, and for each every binding. */
  method AnyBindingGrants(bindings: seq<Binding>, chain: seq<Scope>, required: Role) returns (granted: bool)
    ensures granted <==> Granted(bindings, chain, required)
  {
    for i := 0 to |chain|
      invariant !Granted(bindings, chain[..i], required)
    {
      var scope := chain[i];
      for j := 0 to |bindings|
        invariant !Granted(bindings[..j], [scope], required)
      {
        var b := bindings[j];
        if b.kind != scope.kind {
          continue;
        }
        if !scope.kind.Platform? && b.id != scope.id {
          continue;
        }
        if Satisfies(b.role, required) {
          assert b in bindings && scope in chain;
          return true;
        }
      }
      assert bindings[..|bindings|] == bindings;
      assert forall s :: s in chain[..i + 1] ==> s in chain[..i] || s in [scope];
    }
    assert chain[..|chain|] == chain;
    return false;
  }

  datatype Answer = Allowed | Forbidden | Unavailable

  /** Access is granted exactly to the entitled; it stays open (unavailable) when the bindings
      cannot be loaded, and for a user who has some when a lookup above the resource fails.
      bindings is None when they cannot be loaded. */
  method Authorize(bindings: Option<seq<Binding>>, t: Tenancy, kind: Kind, id: nat, required: Role) returns (answer: Answer)
    ensures answer == Allowed <==>
              bindings.Some? && Chain(t, Scope(kind, id)).Some? && Entitled(bindings.value, t, Scope(kind, id), required)
    ensures answer == Unavailable <==> bindings.None? || (bindings.value != [] && Chain(t, Scope(kind, id)).None?)
  {
    if bindings.None? {
      return Unavailable;
    }
    if |bindings.value| == 0 {
      return Forbidden;
    }
    var chain := ScopeChain(t, kind, id);
    if chain.None? {
      return Unavailable;
    }
    GrantedIffEntitled(bindings.value, t, Scope(kind, id), required);
    var granted := AnyBindingGrants(bindings.value, chain.value, required);
    answer := if granted then Allowed else Forbidden;
  }

  // ------------------------------------------------------------------ its laws

  lemma {:induction false} AboveIsTransitive(t: Tenancy, s: Scope, m: nat, n: nat)
    requires Climb(t, s, m).Some?
    ensures Climb(t, s, m + n) == Climb(t, Climb(t, s, m).value, n)
    decreases m
  {
    if m > 0 {
      AboveIsTransitive(t, Parent(t, s).value, m - 1, n);
    }
  }

  lemma {:induction false} ChainAbove(t: Tenancy, s: Scope, n: nat)
    requires Chain(t, s).Some? && Climb(t, s, n).Some?
    ensures Chain(t, Climb(t, s, n).value).Some?
    decreases n
  {
    if n > 0 {
      ChainAbove(t, Parent(t, s).value, n - 1);
    }
  }

  /** Whoever is entitled on something is entitled on everything below it, and there the lookups
      above cannot fail if those below succeed. */
  lemma {:induction false} Inheritance(bindings: seq<Binding>, t: Tenancy, a: Scope, s: Scope, required: Role)
    requires AtOrAbove(t, a, s) && Chain(t, s).Some?
    ensures Chain(t, a).Some?
    ensures Entitled(bindings, t, a, required) ==> Entitled(bindings, t, s, required)
  {
    var m: nat :| Climb(t, s, m) == Some(a);
    ChainAbove(t, s, m);
    if Entitled(bindings, t, a, required) {
      var b :| b in bindings && Covers(b, t, a) && Satisfies(b.role, required);
      if !b.kind.Platform? {
        var n: nat :| Climb(t, a, n) == Some(Scope(b.kind, b.id));
        AboveIsTransitive(t, s, m, n);
      }
      assert Covers(b, t, s);
    }
  }

  /** Every binding of the first list is matched in the second by one on the same resource of at
      least its weight: bindings were added, roles raised, or both. */
  ghost predicate AtLeast(bindings: seq<Binding>, more: seq<Binding>) {
    forall b :: b in bindings ==> exists c :: c in more && c.kind == b.kind && c.id == b.id && Satisfies(c.role, b.role)
  }

  /** More bindings or higher roles never take access away, and asking for less never hurts. */
  lemma {:induction false} Monotone(bindings: seq<Binding>, more: seq<Binding>, t: Tenancy, s: Scope, required: Role,
                                    less: Role)
    requires AtLeast(bindings, more) && Satisfies(required, less) && Entitled(bindings, t, s, required)
    ensures Entitled(more, t, s, less)
    ensures forall chain :: Granted(bindings, chain, required) ==> Granted(more, chain, less)
  {
    var b :| b in bindings && Covers(b, t, s) && Satisfies(b.role, required);
    var c :| c in more && c.kind == b.kind && c.id == b.id && Satisfies(c.role, b.role);
    assert Covers(c, t, s) && Satisfies(c.role, less);
    forall chain | Granted(bindings, chain, required) ensures Granted(more, chain, less) {
      var b, scope :| b in bindings && scope in chain && Applies(b, scope) && Satisfies(b.role, required);
      var c :| c in more && c.kind == b.kind && c.id == b.id && Satisfies(c.role, b.role);
      assert Applies(c, scope) && Satisfies(c.role, less);
    }
  }
}

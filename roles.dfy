/**
 * The value-level specification of the role resolver: which role container a
 * role goes to, and what looking up or creating a list of roles in that
 * container does to it.
 */
module Roles {
  import opened Wrappers
  import opened JavaText

  /** A role container: the realm itself, or one of its clients. */
  datatype Scope = RealmScope | ClientScope(clientId: string)

  /**
   * A `RoleModel`: its container, its name and the id its container
   * allocated when the role was created.
   */
  datatype Role = Role(container: Scope, name: string, id: nat)

  /** The contents of one role container: roles by name and the next id to allocate. */
  datatype Store = Store(scope: Scope, roles: map<string, Role>, nextId: nat)

  /** Every role is filed under its own name, belongs to this container and has an id already allocated. */
  predicate WellFormed(s: Store) {
    forall n :: n in s.roles ==>
      s.roles[n].container == s.scope && s.roles[n].name == n && s.roles[n].id < s.nextId
  }

  /** `getRole(name)`, and `addRole(name)` when that finds nothing. */
  function GetOrCreate(s: Store, name: string): (Store, Role) {
    if name in s.roles then (s, s.roles[name])
    else
      var role := Role(s.scope, name, s.nextId);
      (Store(s.scope, s.roles[name := role], s.nextId + 1), role)
  }

  /**
   * One step files `name` (a new role only if it was missing), returns the
   * role filed under it, and keeps every other role and the store's invariant.
   */
  lemma GetOrCreateStep(s: Store, name: string)
    requires WellFormed(s)
    ensures var (t, role) := GetOrCreate(s, name);
      && role.name == name && role.container == s.scope
      && name in t.roles && t.roles[name] == role && t.scope == s.scope
      && (forall n :: n in s.roles ==> n in t.roles && t.roles[n] == s.roles[n])
      && t.roles.Keys == s.roles.Keys + {name}
      && (name !in s.roles ==> forall n :: n in s.roles ==> s.roles[n].id != role.id)
      && WellFormed(t)
  {
  }

  /** The container after a sequence of get-or-create steps, and the roles they produced, in order. */
  datatype Resolution = Resolution(store: Store, resolved: seq<Role>)

  /** Get-or-create every name of `names`, left to right. */
  function ResolveAll(s: Store, names: seq<string>): Resolution
    decreases |names|
  {
    if names == [] then Resolution(s, [])
    else
      var prev := ResolveAll(s, names[..|names| - 1]);
      var (store, role) := GetOrCreate(prev.store, names[|names| - 1]);
      Resolution(store, prev.resolved + [role])
  }

  /**
   * The resolver keeps the container well formed and in its scope, never
   * changes or removes a role that existed, and gives every role it creates
   * an id that was not allocated before.
   */
  lemma {:induction false} ResolveAllPreserves(s: Store, names: seq<string>)
    requires WellFormed(s)
    ensures var r := ResolveAll(s, names).store;
      && WellFormed(r) && r.scope == s.scope && r.nextId >= s.nextId
      && (forall n :: n in s.roles ==> n in r.roles && r.roles[n] == s.roles[n])
      && (forall n :: n in r.roles && n !in s.roles ==> r.roles[n].id >= s.nextId)
    decreases |names|
  {
    if names != [] {
      ResolveAllPreserves(s, names[..|names| - 1]);
    }
  }

  /** The container gains exactly the names of `names` that it lacked. */
  lemma {:induction false} ResolveAllDomain(s: Store, names: seq<string>)
    ensures forall n :: n in ResolveAll(s, names).store.roles <==> n in s.roles || n in names
    decreases |names|
  {
    if names != [] {
      var init := names[..|names| - 1];
      ResolveAllDomain(s, init);
      assert names == init + [names[|names| - 1]];
      forall n ensures n in names <==> n in init || n == names[|names| - 1] {
        if n in names {
          var i :| 0 <= i < |names| && names[i] == n;
          if i < |names| - 1 { assert init[i] == n; }
        }
      }
    }
  }

  /**
   * One role per name, in order, and each is the role that the container
   * holds under that name afterwards.
   */
  lemma {:induction false} ResolveAllResolved(s: Store, names: seq<string>)
    ensures var r := ResolveAll(s, names);
      && |r.resolved| == |names|
      && forall i :: 0 <= i < |names| ==> names[i] in r.store.roles && r.resolved[i] == r.store.roles[names[i]]
    decreases |names|
  {
    if names != [] {
      var init := names[..|names| - 1];
      ResolveAllResolved(s, init);
      var prev := ResolveAll(s, init);
      forall i | 0 <= i < |init| ensures init[i] in GetOrCreate(prev.store, names[|names| - 1]).0.roles {
      }
    }
  }

  /** The resolved roles carry the requested names and the container's scope; repeated names give the same role. */
  lemma ResolveAllRoles(s: Store, names: seq<string>)
    requires WellFormed(s)
    ensures var r := ResolveAll(s, names).resolved;
      && |r| == |names|
      && (forall i :: 0 <= i < |names| ==> r[i].name == names[i] && r[i].container == s.scope)
      && (forall i, j :: 0 <= i < |names| && 0 <= j < |names| && names[i] == names[j] ==> r[i] == r[j])
  {
    ResolveAllPreserves(s, names);
    ResolveAllResolved(s, names);
  }

  /** A name the container already holds resolves to the role it held before. */
  lemma ResolveAllKeepsExisting(s: Store, names: seq<string>, i: nat)
    requires WellFormed(s)
    requires i < |names| && names[i] in s.roles
    ensures |ResolveAll(s, names).resolved| == |names|
    ensures ResolveAll(s, names).resolved[i] == s.roles[names[i]]
  {
    ResolveAllPreserves(s, names);
    ResolveAllResolved(s, names);
  }

  /** When every name is already present, nothing is created and each name resolves to its existing role. */
  lemma {:induction false} ResolveAllNoCreation(s: Store, names: seq<string>)
    requires forall i :: 0 <= i < |names| ==> names[i] in s.roles
    ensures ResolveAll(s, names).store == s
    ensures ResolveAll(s, names).resolved == seq(|names|, i requires 0 <= i < |names| => s.roles[names[i]])
    decreases |names|
  {
    if names != [] {
      ResolveAllNoCreation(s, names[..|names| - 1]);
    }
  }

  /** Resolving the same names a second time changes nothing and yields the same roles. */
  lemma ResolveAllIdempotent(s: Store, names: seq<string>)
    ensures var first := ResolveAll(s, names);
      ResolveAll(first.store, names) == first
  {
    var first := ResolveAll(s, names);
    ResolveAllResolved(s, names);
    ResolveAllNoCreation(first.store, names);
    assert first.resolved == seq(|names|, i requires 0 <= i < |names| => first.store.roles[names[i]]);
  }

  /** The role-mapping stream: the baseline untouched, then one role per name in order. */
  lemma RoleMappingsShape(baseline: seq<Role>, s: Store, names: seq<string>)
    requires WellFormed(s)
    ensures var out := baseline + ResolveAll(s, names).resolved;
      && |out| == |baseline| + |names|
      && out[..|baseline|] == baseline
      && (forall i :: 0 <= i < |names| ==> out[|baseline| + i].name == names[i] && out[|baseline| + i].container == s.scope)
  {
    ResolveAllRoles(s, names);
  }

  /** Two requests for a missing "editor" role produce one new realm role, mapped twice. */
  lemma EditorTwice(roles: map<string, Role>, next: nat)
    requires "editor" !in roles
    ensures var r := ResolveAll(Store(RealmScope, roles, next), ["editor", "editor"]);
      && r.resolved == [Role(RealmScope, "editor", next), Role(RealmScope, "editor", next)]
      && r.store == Store(RealmScope, roles["editor" := Role(RealmScope, "editor", next)], next + 1)
  {
    var names := ["editor", "editor"];
    assert names[..1] == ["editor"];
    assert names[..1][..0] == [];
  }

  /**
   * `getResourceClient`: a configured client id that is non-blank and names
   * an existing client selects that client; anything else selects the realm.
   */
  function ResolveScope(clientId: Option<string>, clients: set<string>): (scope: Scope)
    ensures scope.ClientScope? <==> clientId.Some? && !IsBlank(clientId.value) && clientId.value in clients
    ensures scope.ClientScope? ==> scope.clientId == clientId.value
  {
    if clientId.None? then RealmScope
    else
      TrimEmptyIffBlank(clientId.value);
      if Trim(clientId.value) == [] then RealmScope
      else if clientId.value in clients then ClientScope(clientId.value)
      else RealmScope
  }

  /** An id that names no client behaves exactly as if no id were configured. */
  lemma UnknownClientFallsBack(clientId: string, clients: set<string>)
    requires clientId !in clients
    ensures ResolveScope(Some(clientId), clients) == ResolveScope(None, clients) == RealmScope
  {
  }
}

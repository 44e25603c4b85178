/**
 * The Keycloak collaborators the adapter drives, reduced to what it uses:
 * role containers (a realm and its clients) that look up and create roles
 * by name, and the realm's lookup of a client by its client id.
 */
module Keycloak {
  import opened Wrappers
  import opened Roles

  /** A `RoleContainerModel`: a mutable map from role name to role. */
  class RoleContainer {
    const scope: Scope
    var roles: map<string, Role>
    var nextId: nat

    /** The container's current contents as a value. */
    function Value(): Store
      reads this
    {
      Store(scope, roles, nextId)
    }

    ghost predicate Valid()
      reads this
    {
      WellFormed(Value())
    }

    constructor (scope: Scope)
      ensures Valid() && Value() == Store(scope, map[], 0)
    {
      this.scope := scope;
      roles := map[];
      nextId := 0;
    }

    /** `getRole(name)`: the role stored under `name`, or null. */
    method GetRole(name: string) returns (role: Option<Role>)
      requires Valid()
      ensures role.Some? <==> name in roles
      ensures role.Some? ==> role.value.name == name && role.value.container == scope && role.value == roles[name]
    {
      role := if name in roles then Some(roles[name]) else None;
    }

    /** `addRole(name)`: file a new role under `name` with a freshly allocated id. */
    method AddRole(name: string) returns (role: Role)
      requires Valid() && name !in roles
      modifies this
      ensures Valid()
      ensures role == Role(scope, name, old(nextId))
      ensures forall n :: n in old(roles) ==> old(roles)[n].id != role.id
      ensures Value() == GetOrCreate(old(Value()), name).0 && role == GetOrCreate(old(Value()), name).1
    {
      role := Role(scope, name, nextId);
      roles := roles[name := role];
      nextId := nextId + 1;
    }
  }

  /** A `RealmModel`: the realm's own role container and its clients by client id. */
  class RealmModel {
    const realmRoles: RoleContainer
    const clients: map<string, RoleContainer>
    /** How many times `getClientByClientId` has been called. */
    ghost var clientLookups: nat

    /** Every role container of the realm. */
    function Containers(): set<RoleContainer> {
      {realmRoles} + set id | id in clients :: clients[id]
    }

    /** Each container carries the scope it is reached by, so no two of them are the same object. */
    predicate Wired() {
      && realmRoles.scope == RealmScope
      && forall id :: id in clients ==> clients[id].scope == ClientScope(id)
    }

    ghost predicate Valid()
      reads Containers()
    {
      Wired() && forall c :: c in Containers() ==> c.Valid()
    }

    constructor (realmRoles: RoleContainer, clients: map<string, RoleContainer>)
      requires realmRoles.scope == RealmScope
      requires forall id :: id in clients ==> clients[id].scope == ClientScope(id)
      requires realmRoles.Valid() && forall id :: id in clients ==> clients[id].Valid()
      ensures Valid() && this.realmRoles == realmRoles && this.clients == clients
      ensures clientLookups == 0
    {
      this.realmRoles := realmRoles;
      this.clients := clients;
      clientLookups := 0;
    }

    /** The container of a scope, which for a client scope must name a known client. */
    function ContainerOf(scope: Scope): (c: RoleContainer)
      requires Wired()
      requires scope.ClientScope? ==> scope.clientId in clients
      ensures c in Containers() && c.scope == scope
    {
      if scope.RealmScope? then realmRoles else clients[scope.clientId]
    }

    /** `getClientByClientId(clientId)`: the client with exactly that id, or null. */
    method GetClientByClientId(clientId: string) returns (client: Option<RoleContainer>)
      modifies this
      ensures client.Some? <==> clientId in clients
      ensures client.Some? ==> client.value == clients[clientId]
      ensures clientLookups == old(clientLookups) + 1
    {
      client := if clientId in clients then Some(clients[clientId]) else None;
      clientLookups := clientLookups + 1;
    }
  }
}

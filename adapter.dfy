/**
 * `RemoteUserAdapter`: presents a remote user record to Keycloak as a
 * federated user, builds its attribute map and, when configured, maps the
 * record's role names onto realm or client roles, creating missing ones.
 */
module RemoteUser {
  import opened Wrappers
  import opened JavaText
  import opened UserAttributes
  import opened Roles
  import opened Keycloak

  /** The provider settings the adapter reads: ADD_ROLES_TO_TOKEN and RESOURCE_CLIENT_ID; null is `None`. */
  datatype Config = Config(addRolesToToken: Option<string>, resourceClientId: Option<string>)

  /** `RemoteUserEntity`: the record fetched from the remote user service. */
  class RemoteUserEntity {
    const id: string
    var userName: string
    var email: string
    var emailVerified: bool
    var firstName: string
    var lastName: string
    var roles: seq<string>
    var attributes: map<string, string>

    constructor (id: string, userName: string, email: string, emailVerified: bool,
                 firstName: string, lastName: string, roles: seq<string>, attributes: map<string, string>)
      ensures this.id == id && this.userName == userName && this.email == email
      ensures this.emailVerified == emailVerified && this.firstName == firstName && this.lastName == lastName
      ensures this.roles == roles && this.attributes == attributes
    {
      this.id := id;
      this.userName := userName;
      this.email := email;
      this.emailVerified := emailVerified;
      this.firstName := firstName;
      this.lastName := lastName;
      this.roles := roles;
      this.attributes := attributes;
    }
  }

  class RemoteUserAdapter {
    const model: Config
    const realm: RealmModel
    const user: RemoteUserEntity
    /** The composite storage id, computed once by Keycloak when the adapter is made. */
    const keycloakId: string

    constructor (model: Config, realm: RealmModel, user: RemoteUserEntity, keycloakId: string)
      ensures this.model == model && this.realm == realm && this.user == user && this.keycloakId == keycloakId
    {
      this.model := model;
      this.realm := realm;
      this.user := user;
      this.keycloakId := keycloakId;
    }

    function GetId(): string {
      keycloakId
    }

    function GetUsername(): string
      reads user
    {
      user.userName
    }

    /** `setUsername(s)`: overwrite the record's user name and nothing else. */
    method SetUsername(s: string)
      modifies user
      ensures GetUsername() == s
      ensures user.email == old(user.email) && user.emailVerified == old(user.emailVerified)
      ensures user.firstName == old(user.firstName) && user.lastName == old(user.lastName)
      ensures user.roles == old(user.roles) && user.attributes == old(user.attributes)
    {
      user.userName := s;
    }

    function IsEmailVerified(): bool
      reads user
    {
      user.emailVerified
    }

    function GetEmail(): string
      reads user
    {
      user.email
    }

    function GetFirstName(): string
      reads user
    {
      user.firstName
    }

    function GetLastName(): string
      reads user
    {
      user.lastName
    }

    /** The part of the record that `getAttributes` reads. */
    function CurrentProfile(): Profile
      reads user
    {
      Profile(GetUsername(), GetEmail(), GetFirstName(), GetLastName(), user.attributes)
    }

    /**
     * `getAttributes()`: seed a multivalued map with the four standard fields,
     * then add every custom attribute, in whatever order the map yields them.
     */
    method GetAttributes() returns (attributes: MultivaluedMap)
      ensures attributes == Attributes(CurrentProfile())
    {
      ghost var p := CurrentProfile();
      attributes := map[];
      attributes := Add(attributes, USERNAME, GetUsername());
      attributes := Add(attributes, EMAIL, GetEmail());
      attributes := Add(attributes, FIRST_NAME, GetFirstName());
      attributes := Add(attributes, LAST_NAME, GetLastName());
      SeedMatches(p);
      var pending := user.attributes.Keys;
      while pending != {}
        invariant pending <= user.attributes.Keys
        invariant attributes == AttributesAfter(p, user.attributes.Keys - pending)
        decreases pending
      {
        var key :| key in pending;
        AddCustom(p, user.attributes.Keys - pending, key);
        assert user.attributes.Keys - (pending - {key}) == (user.attributes.Keys - pending) + {key};
        attributes := Add(attributes, key, user.attributes[key]);
        pending := pending - {key};
      }
      assert user.attributes.Keys - pending == user.attributes.Keys;
    }

    /** `getAttributeStream(name)`: the seed value and the custom value of `name`, whichever exist. */
    method GetAttributeStream(name: string) returns (values: seq<string>)
      ensures values == SeedValues(CurrentProfile(), name) + CustomValues(CurrentProfile(), name)
      ensures values == [] <==> name !in StandardKeys && name !in user.attributes
    {
      var attributes := GetAttributes();
      AttributesContent(CurrentProfile(), name);
      values := AttributeStream(attributes, name);
    }

    /** `getFirstAttribute(name)`: the standard value, else the custom value, else null. */
    method GetFirstAttribute(name: string) returns (first: Option<string>)
      ensures name in StandardKeys ==> first == Some(StandardValue(CurrentProfile(), name))
      ensures name !in StandardKeys && name in user.attributes ==> first == Some(user.attributes[name])
      ensures name !in StandardKeys && name !in user.attributes ==> first == None
    {
      var attributes := GetAttributes();
      FirstAttributeOfProfile(CurrentProfile(), name);
      first := FirstAttribute(attributes, name);
    }

    /** Whether ADD_ROLES_TO_TOKEN is set, read as `Boolean.parseBoolean` does. */
    predicate AddsFederationRoles() {
      ParseBoolean(model.addRolesToToken)
    }

    /** `getClientByClientId` is consulted only for a non-blank configured id. */
    predicate LooksUpClient() {
      model.resourceClientId.Some? && !IsBlank(model.resourceClientId.value)
    }

    /** The container the federation roles go to once the flag is on. */
    function TargetContainer(): (c: RoleContainer)
      requires realm.Wired()
      ensures c in realm.Containers()
    {
      realm.ContainerOf(ResolveScope(model.resourceClientId, realm.clients.Keys))
    }

    /**
     * `getResourceClient()`: no client for a null or blank id, otherwise the
     * realm's client with exactly that id, if there is one.
     */
    method GetResourceClient() returns (client: Option<RoleContainer>)
      requires realm.Wired()
      modifies realm
      ensures client.Some? <==> ResolveScope(model.resourceClientId, realm.clients.Keys).ClientScope?
      ensures client.Some? ==> client.value == TargetContainer()
      ensures realm.clientLookups == old(realm.clientLookups) + (if LooksUpClient() then 1 else 0)
    {
      var clientId := model.resourceClientId;
      if clientId.Some? {
        TrimEmptyIffBlank(clientId.value);
      }
      if clientId.None? || Trim(clientId.value) == [] {
        return None;
      }
      client := realm.GetClientByClientId(clientId.value);
    }

    /**
     * `getRoleMappingsStream()` over the baseline `baseline` that Keycloak's
     * federated storage supplies.
     */
    method GetRoleMappingsStream(baseline: seq<Role>) returns (roleMappings: seq<Role>)
      requires realm.Valid()
      modifies realm, realm.Containers()
      ensures realm.Valid()
      ensures !AddsFederationRoles() ==>
        && roleMappings == baseline
        && realm.clientLookups == old(realm.clientLookups)
        && forall c :: c in realm.Containers() ==> c.Value() == old(c.Value())
      ensures AddsFederationRoles() ==>
        var target := TargetContainer();
        var r := ResolveAll(old(target.Value()), user.roles);
        && roleMappings == baseline + r.resolved
        && target.Value() == r.store
        && (forall c :: c in realm.Containers() && c != target ==> c.Value() == old(c.Value()))
        && realm.clientLookups == old(realm.clientLookups) + (if LooksUpClient() then 1 else 0)
    {
      roleMappings := baseline;
      var addFederationRoles := ParseBoolean(model.addRolesToToken);
      if !addFederationRoles {
        return;
      }

      var resourceClient := GetResourceClient();
      var target := if resourceClient.None? then realm.realmRoles else resourceClient.value;
      assert target == TargetContainer();
      assert target.Valid();
      if resourceClient.None? {
        roleMappings := AddRealmRoles(roleMappings);
      } else {
        roleMappings := AddClientRoles(resourceClient.value, roleMappings);
      }
      forall c | c in realm.Containers() ensures c.Valid() {
        if c != target {
          assert c.Value() == old(c.Value());
        }
      }
    }

    /** The client-scoped loop of `getRoleMappingsStream`: get or create each role in `client` and append it. */
    method AddClientRoles(client: RoleContainer, roleMappings: seq<Role>) returns (result: seq<Role>)
      requires client.Valid()
      modifies client
      ensures client.Valid()
      ensures var r := ResolveAll(old(client.Value()), user.roles);
        result == roleMappings + r.resolved && client.Value() == r.store
    {
      ghost var before := client.Value();
      result := roleMappings;
      var i := 0;
      while i < |user.roles|
        invariant 0 <= i <= |user.roles|
        invariant client.Valid()
        invariant client.Value() == ResolveAll(before, user.roles[..i]).store
        invariant result == roleMappings + ResolveAll(before, user.roles[..i]).resolved
      {
        var role := user.roles[i];
        var roleModel: Role;
        var found := client.GetRole(role);
        if found.None? {
          roleModel := client.AddRole(role);
        } else {
          roleModel := found.value;
        }
        result := result + [roleModel];
        assert user.roles[..i + 1][..i] == user.roles[..i];
        i := i + 1;
      }
      assert user.roles[..i] == user.roles;
    }

    /** `addRealmRoles(roleMappings)`: get or create each role in the realm and append it. */
    method AddRealmRoles(roleMappings: seq<Role>) returns (result: seq<Role>)
      requires realm.Valid()
      modifies realm.realmRoles
      ensures realm.realmRoles.Valid()
      ensures var r := ResolveAll(old(realm.realmRoles.Value()), user.roles);
        result == roleMappings + r.resolved && realm.realmRoles.Value() == r.store
    {
      var store := realm.realmRoles;
      ghost var before := store.Value();
      assert store.Valid();
      result := roleMappings;
      var i := 0;
      while i < |user.roles|
        invariant 0 <= i <= |user.roles|
        invariant store.Valid()
        invariant store.Value() == ResolveAll(before, user.roles[..i]).store
        invariant result == roleMappings + ResolveAll(before, user.roles[..i]).resolved
      {
        var role := user.roles[i];
        var roleModel: Role;
        var found := store.GetRole(role);
        if found.None? {
          roleModel := store.AddRole(role);
        } else {
          roleModel := found.value;
        }
        result := result + [roleModel];
        assert user.roles[..i + 1][..i] == user.roles[..i];
        i := i + 1;
      }
      assert user.roles[..i] == user.roles;
    }
  }

  /**
   * Roles ["editor", "editor"] with ADD_ROLES_TO_TOKEN set to "TRUE", a blank
   * RESOURCE_CLIENT_ID and a realm without an "editor" role: one realm role
   * is created and mapped twice after the baseline.
   */
  method EditorTwiceScenario(baseline: seq<Role>) returns (roleMappings: seq<Role>)
    ensures roleMappings == baseline + [Role(RealmScope, "editor", 0), Role(RealmScope, "editor", 0)]
  {
    var realmRoles := new RoleContainer(RealmScope);
    var realm := new RealmModel(realmRoles, map[]);
    var user := new RemoteUserEntity("42", "alice", "alice@example.org", true, "Alice", "Liddell",
                                     ["editor", "editor"], map[]);
    var adapter := new RemoteUserAdapter(Config(Some("TRUE"), Some(" ")), realm, user, "f:provider:42");
    EditorTwice(map[], 0);
    roleMappings := adapter.GetRoleMappingsStream(baseline);
  }
}

# RemoteUserAdapter, modelled in Dafny

This project models `RemoteUserAdapter`, the Keycloak user adapter of the
remote-user federation provider. The adapter wraps a user record fetched from
a remote service and presents it to Keycloak as a federated user. The model
covers the three parts of it that have behaviour of their own:

- **User name.** The adapter reads and overwrites the wrapped record's user
  name. The other getters are plain field reads.
- **Attribute map.** `getAttributes` builds a multivalued map. It appends the
  four standard fields (`username`, `email`, `firstName`, `lastName`), then
  every custom attribute of the record. A custom value for a standard key is
  appended after the seed value, never merged. `getAttributeStream` and
  `getFirstAttribute` are views of that map.
- **Role resolver.** `getRoleMappingsStream` takes Keycloak's own role
  mappings for the user (the *baseline*). When the ADD_ROLES_TO_TOKEN setting
  parses as true, it picks a role container: the client named by
  RESOURCE_CLIENT_ID if that id is non-blank and the realm has such a client,
  otherwise the realm. For each of the record's role names, in order, it looks
  the role up in that container, creates it if it is missing, and appends it
  after the baseline.

Files and modules:

- `wrappers.dfy` (`Wrappers`): `Option`, where `None` is Java's `null`.
- `java_text.dfy` (`JavaText`): `String.trim`, `equalsIgnoreCase` and
  `Boolean.parseBoolean`, as far as the adapter needs them.
- `attributes.dfy` (`UserAttributes`): the attribute map as a value.
  `Attributes` is a declarative reference definition; `Add` models
  `MultivaluedHashMap.add`. This file also holds the two lookups.
- `roles.dfy` (`Roles`): the resolver as values. A role container's contents
  are a `Store`: roles by name, plus the next id to allocate. `GetOrCreate` is
  one loop step and `ResolveAll` is the whole loop. `ResolveScope` is the
  choice that `getResourceClient` makes.
- `keycloak.dfy` (`Keycloak`): the collaborators as mutable classes.
  `RoleContainer` is a realm's or a client's role store, with `getRole` and
  `addRole`. `RealmModel` holds the realm's own container and its clients by
  client id. A ghost counter records how many times `getClientByClientId` was
  called, which is how "no client lookup" is stated.
- `adapter.dfy` (`RemoteUser`): `RemoteUserEntity` (the wrapped record) and
  `RemoteUserAdapter`, with the imperative methods. Each method is proved
  against the value-level definitions above.

A role is a `Role(container, name, id)`. `addRole` gives the new role the
container's `nextId` and then increments it. So the id of a created role was
never used in that container. Because the container is part of the role,
roles of different containers are never equal.

## Model

| member | source | states |
|---|---|---|
| `RemoteUser.RemoteUserAdapter.constructor` | src/main/java/org/forrest/keycloak/provider/RemoteUserAdapter.java:25-30 | the adapter keeps the configuration, the realm, the wrapped record and the fixed storage id it is given |
| `RemoteUser.RemoteUserAdapter.GetUsername` | src/main/java/org/forrest/keycloak/provider/RemoteUserAdapter.java:43-46 | reads the user name of the wrapped record; `SetUsername` is stated through it |
| `RemoteUser.RemoteUserAdapter.SetUsername` | src/main/java/org/forrest/keycloak/provider/RemoteUserAdapter.java:43-51 | after `setUsername(s)`, `getUsername()` returns exactly `s`, and every other field of the record is unchanged |
| `RemoteUser.RemoteUserAdapter.GetAttributes` | src/main/java/org/forrest/keycloak/provider/RemoteUserAdapter.java:73-84 | appending the four standard fields to an empty multimap, then every custom attribute in any iteration order, yields exactly the reference map `Attributes` of the record |
| `UserAttributes.Add` | src/main/java/org/forrest/keycloak/provider/RemoteUserAdapter.java:76-81 | `MultivaluedHashMap.add`: append the value to the key's list, creating the list when the key is new |
| `UserAttributes.AddAppends` | src/main/java/org/forrest/keycloak/provider/RemoteUserAdapter.java:76-81 | after `add`, the map has the old keys plus `k`; the list of `k` is its earlier values followed by `v`; every other key keeps its list |
| `UserAttributes.Attributes` | src/main/java/org/forrest/keycloak/provider/RemoteUserAdapter.java:74-84 | the reference definition of the built map: the standard keys and the custom keys, each holding its seed value (if standard) followed by its custom value (if any) |
| `UserAttributes.SeedMatches` | src/main/java/org/forrest/keycloak/provider/RemoteUserAdapter.java:75-79 | the four `add` calls on an empty map give each standard key the one-element list holding its getter's value, and no other key |
| `UserAttributes.AddCustom` | src/main/java/org/forrest/keycloak/provider/RemoteUserAdapter.java:80-82 | adding one more custom attribute appends its value to its key's list and leaves every other key as it was |
| `UserAttributes.AttributesContent` | src/main/java/org/forrest/keycloak/provider/RemoteUserAdapter.java:74-84 | a key is in the map if and only if it is standard or custom; its list is the seed value (if standard) followed by the custom value (if any) |
| `UserAttributes.StandardAttributesFirst` | src/main/java/org/forrest/keycloak/provider/RemoteUserAdapter.java:76-79 | `username`, `email`, `firstName` and `lastName` are always present, and each list starts with the matching getter's value |
| `UserAttributes.CustomAttributeLast` | src/main/java/org/forrest/keycloak/provider/RemoteUserAdapter.java:80-82 | every custom key is present, and its list ends with its custom value |
| `UserAttributes.StandardKeyOverride` | src/main/java/org/forrest/keycloak/provider/RemoteUserAdapter.java:76-82 | a custom value for a standard key gives the two-element list [seed, custom]; nothing is deduplicated |
| `UserAttributes.CustomOnlyKey` | src/main/java/org/forrest/keycloak/provider/RemoteUserAdapter.java:80-82 | a custom key that is not standard holds exactly its one custom value |
| `UserAttributes.AttributeListsNonEmpty` | src/main/java/org/forrest/keycloak/provider/RemoteUserAdapter.java:74-84 | no key of the built map holds an empty list |
| `UserAttributes.AttributeStream` | src/main/java/org/forrest/keycloak/provider/RemoteUserAdapter.java:87-90 | `getAttributeStream` over a built map: the list held for the name if the key is present, otherwise the empty sequence |
| `UserAttributes.FirstAttribute` | src/main/java/org/forrest/keycloak/provider/RemoteUserAdapter.java:93-96 | over any multimap, the first attribute is present exactly when the attribute stream of that name is non-empty, and it is then the stream's head |
| `UserAttributes.FirstAttributeOfProfile` | src/main/java/org/forrest/keycloak/provider/RemoteUserAdapter.java:93-96 | on the built map, the first attribute of a standard key is its getter's value; of a custom-only key, its custom value; it is null exactly when the key is neither |
| `RemoteUser.RemoteUserAdapter.GetAttributeStream` | src/main/java/org/forrest/keycloak/provider/RemoteUserAdapter.java:86-90 | yields the seed value and then the custom value of `name`, whichever exist, so it is exactly the list the map holds for a present key; it is empty if and only if the key is neither standard nor custom |
| `RemoteUser.RemoteUserAdapter.GetFirstAttribute` | src/main/java/org/forrest/keycloak/provider/RemoteUserAdapter.java:92-96 | returns the getter's value for a standard key, the custom value for a custom-only key, and null for any other name |
| `JavaText.ParseBoolean` | src/main/java/org/forrest/keycloak/provider/RemoteUserAdapter.java:101 | the setting counts as on exactly when it is non-null and is the four letters of "true" in any case |
| `JavaText.ParseBooleanSamples` | src/main/java/org/forrest/keycloak/provider/RemoteUserAdapter.java:101 | "true", "TRUE" and "tRuE" are on; null, "", "yes", "1" and " true" are off |
| `JavaText.TrimEmptyIffBlank` | src/main/java/org/forrest/keycloak/provider/RemoteUserAdapter.java:132 | `trim().isEmpty()` holds if and only if every character is at most U+0020 |
| `Roles.ResolveScope` | src/main/java/org/forrest/keycloak/provider/RemoteUserAdapter.java:129-142 | the client scope is chosen if and only if the id is non-null, not blank, and names an existing client, and it is that client's scope; otherwise the realm scope is chosen |
| `Roles.UnknownClientFallsBack` | src/main/java/org/forrest/keycloak/provider/RemoteUserAdapter.java:137-141 | an id that names no client selects the realm, exactly as a missing id does |
| `Keycloak.RoleContainer.GetRole` | src/main/java/org/forrest/keycloak/provider/RemoteUserAdapter.java:115 | `getRole(name)` is non-null exactly when the container holds `name`, and it is then the role filed under that name in this container |
| `Keycloak.RoleContainer.AddRole` | src/main/java/org/forrest/keycloak/provider/RemoteUserAdapter.java:117 | `addRole(name)` files a new role under `name` whose id differs from every existing role's id; this is one get-or-create step on a missing name |
| `Keycloak.RealmModel.GetClientByClientId` | src/main/java/org/forrest/keycloak/provider/RemoteUserAdapter.java:137 | returns the client with exactly that id, or null; every call is counted |
| `Keycloak.RealmModel.ContainerOf` | src/main/java/org/forrest/keycloak/provider/RemoteUserAdapter.java:107-111 | a scope leads to one of the realm's containers, the one carrying that scope |
| `RemoteUser.RemoteUserAdapter.TargetContainer` | src/main/java/org/forrest/keycloak/provider/RemoteUserAdapter.java:107-111 | the container that the federation roles go to is one of the realm's containers |
| `RemoteUser.RemoteUserAdapter.GetResourceClient` | src/main/java/org/forrest/keycloak/provider/RemoteUserAdapter.java:129-142 | returns a client exactly when the scope choice picks one, and then that client's container; it calls `getClientByClientId` once for a non-blank id and never otherwise |
| `RemoteUser.RemoteUserAdapter.GetRoleMappingsStream` | src/main/java/org/forrest/keycloak/provider/RemoteUserAdapter.java:98-123 | with the flag off: the result is the baseline, no client lookup happens and no container changes. With the flag on: the result is the baseline followed by the get-or-create of each role name in the chosen container, that container ends as `ResolveAll` says, and every other container is unchanged |
| `RemoteUser.RemoteUserAdapter.AddClientRoles` | src/main/java/org/forrest/keycloak/provider/RemoteUserAdapter.java:113-121 | appends the get-or-create of each role name in the resolved client's container to the given mappings, and leaves that container as `ResolveAll` says |
| `RemoteUser.RemoteUserAdapter.AddRealmRoles` | src/main/java/org/forrest/keycloak/provider/RemoteUserAdapter.java:144-157 | appends the get-or-create of each role name in the realm's container to the given mappings, and leaves that container as `ResolveAll` says |
| `Roles.GetOrCreate` | src/main/java/org/forrest/keycloak/provider/RemoteUserAdapter.java:115-119 | one loop step: the role filed under the name, or a new role created in this container when there is none |
| `Roles.GetOrCreateStep` | src/main/java/org/forrest/keycloak/provider/RemoteUserAdapter.java:149-153 | one step returns the role filed under the name afterwards, with that name and the container's scope; it adds only that name, keeps every other role, gives a new role an id no existing role has, and keeps the store well formed |
| `Roles.ResolveAll` | src/main/java/org/forrest/keycloak/provider/RemoteUserAdapter.java:148-155 | the store and the roles produced by get-or-creating each name left to right |
| `Roles.ResolveAllPreserves` | src/main/java/org/forrest/keycloak/provider/RemoteUserAdapter.java:114-121 | the resolver keeps the container well formed and in its scope; roles that already existed keep their ids; created roles get ids that were never allocated |
| `Roles.ResolveAllDomain` | src/main/java/org/forrest/keycloak/provider/RemoteUserAdapter.java:148-155 | afterwards the container holds exactly the names it held before plus the requested names: every requested name exists, and no other name is added |
| `Roles.ResolveAllResolved` | src/main/java/org/forrest/keycloak/provider/RemoteUserAdapter.java:114-121 | one role is produced per requested name, in order, and each is the role the container holds under that name afterwards |
| `Roles.ResolveAllRoles` | src/main/java/org/forrest/keycloak/provider/RemoteUserAdapter.java:148-155 | the i-th produced role has the i-th name and the container's scope; repeated names produce the same role |
| `Roles.ResolveAllKeepsExisting` | src/main/java/org/forrest/keycloak/provider/RemoteUserAdapter.java:115-116 | a name the container already held resolves to the role it held before, so no new role is made for it |
| `Roles.ResolveAllNoCreation` | src/main/java/org/forrest/keycloak/provider/RemoteUserAdapter.java:149-150 | when every name is already present, the container is unchanged and each name resolves to its existing role |
| `Roles.ResolveAllIdempotent` | src/main/java/org/forrest/keycloak/provider/RemoteUserAdapter.java:114-121 | resolving the same names a second time changes nothing and produces the same roles |
| `Roles.RoleMappingsShape` | src/main/java/org/forrest/keycloak/provider/RemoteUserAdapter.java:120 | the flag-on result is as long as the baseline and the role names together; it starts with the baseline unchanged, followed by one role per name, in order, all in the chosen scope |
| `Roles.EditorTwice` | src/main/java/org/forrest/keycloak/provider/RemoteUserAdapter.java:148-155 | for roles ["editor", "editor"] and a realm store without "editor": one realm role is created, the store gains only it, and it is produced twice |
| `RemoteUser.EditorTwiceScenario` | src/main/java/org/forrest/keycloak/provider/RemoteUserAdapter.java:98-123 | through `GetRoleMappingsStream`, with the flag "TRUE", a blank client id, no clients and an empty realm store: the result is the baseline followed by the one new "editor" realm role twice |

## Left out

- Logging (`log`, the static logger, the DEBUG_ENABLED setting): it only writes to the log and does not affect any result.
- `credentialManager()`: it only allocates a new Keycloak `UserCredentialManager`.
- `getId()`: `StorageId.keycloakId` is a Keycloak call. The model takes its result as the fixed field `keycloakId`, returned by `GetId`.
- `super.getRoleMappingsStream()` and Keycloak's federated storage: the baseline is an input sequence of `GetRoleMappingsStream`.
- The laziness of `Stream.concat`: streams are finite sequences.
- Failures of role creation, and races between concurrent requests: Keycloak handles these, not the adapter. `AddRole` therefore requires that the name is absent, which is the only way the adapter calls it.
- Null fields, map values and list entries of the remote record (user name, email, names, the role list and its names, the attribute map and its values): the model takes them all as non-null. So where Java's `getFirstAttribute` would return null for a custom-only key whose value is null (the `list.get(0)` at line 95), `GetFirstAttribute` has no such case. `RemoteUserEntity` and the setting-key constants are not part of this model's sources; the entity's fields are the ones the adapter reads, and the two settings are fields of the typed `Config`.
- `JavaText.ParseBoolean`: case folding is modelled for ASCII only. No non-ASCII character folds to a letter of "true", so the result is the same.
- The client-scoped loop, which the source writes inline in `getRoleMappingsStream`, is the separate method `AddClientRoles`. It has the same steps as `AddRealmRoles`.
- Iteration order of the custom attribute map: `GetAttributes` consumes the keys in an arbitrary order. The result does not depend on it, because each key has one custom value.

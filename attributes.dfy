/**
 * The attribute view of a federated user: the multivalued map built by
 * `getAttributes` and the two lookups derived from it.
 */
module UserAttributes {
  import opened Wrappers

  /** The names of Keycloak's standard user attributes (`UserModel`). */
  const USERNAME := "username"
  const EMAIL := "email"
  const FIRST_NAME := "firstName"
  const LAST_NAME := "lastName"

  const StandardKeys: set<string> := {USERNAME, EMAIL, FIRST_NAME, LAST_NAME}

  /** What `getAttributes` reads from the wrapped remote user record. */
  datatype Profile = Profile(
    username: string,
    email: string,
    firstName: string,
    lastName: string,
    custom: map<string, string>)

  /** A `MultivaluedHashMap<String, String>`: each key holds a list of values. */
  type MultivaluedMap = map<string, seq<string>>

  /** `MultivaluedHashMap.add`: append `v` to the list of `k`, creating it if needed. */
  function Add(m: MultivaluedMap, k: string, v: string): MultivaluedMap {
    m[k := (if k in m then m[k] else []) + [v]]
  }

  /** `add` appends `v` as the last value of `k`, keeps the earlier values, and no other key changes. */
  lemma AddAppends(m: MultivaluedMap, k: string, v: string)
    ensures var r := Add(m, k, v);
      && r.Keys == m.Keys + {k}
      && |r[k]| > 0 && r[k][|r[k]| - 1] == v
      && r[k][..|r[k]| - 1] == (if k in m then m[k] else [])
      && forall j :: j in m && j != k ==> r[j] == m[j]
  {
    var old_ := if k in m then m[k] else [];
    assert Add(m, k, v)[k][..|old_|] == old_;
  }

  /** The getter that supplies the seed value of a standard key. */
  function StandardValue(p: Profile, k: string): string
    requires k in StandardKeys
  {
    if k == USERNAME then p.username
    else if k == EMAIL then p.email
    else if k == FIRST_NAME then p.firstName
    else p.lastName
  }

  /** The values a key receives from the four standard fields. */
  function SeedValues(p: Profile, k: string): seq<string> {
    if k in StandardKeys then [StandardValue(p, k)] else []
  }

  /** The value a key receives from the custom attributes, if it has one. */
  function CustomValues(p: Profile, k: string): seq<string> {
    if k in p.custom then [p.custom[k]] else []
  }

  /**
   * The map after the four standard fields and the custom attributes whose
   * keys are in `added` have been appended.
   */
  function AttributesAfter(p: Profile, added: set<string>): MultivaluedMap
    requires added <= p.custom.Keys
  {
    map k | k in StandardKeys + added :: SeedValues(p, k) + (if k in added then [p.custom[k]] else [])
  }

  /** The complete result of `getAttributes`. */
  function Attributes(p: Profile): MultivaluedMap {
    AttributesAfter(p, p.custom.Keys)
  }

  /** Seeding an empty map with the four standard fields, in the source's order. */
  lemma SeedMatches(p: Profile)
    ensures Add(Add(Add(Add(map[], USERNAME, p.username), EMAIL, p.email), FIRST_NAME, p.firstName), LAST_NAME, p.lastName)
            == AttributesAfter(p, {})
  {
    var m := Add(Add(Add(Add(map[], USERNAME, p.username), EMAIL, p.email), FIRST_NAME, p.firstName), LAST_NAME, p.lastName);
    var e := AttributesAfter(p, {});
    assert m.Keys == StandardKeys == e.Keys;
    forall k | k in m ensures m[k] == e[k] {
      assert k == USERNAME || k == EMAIL || k == FIRST_NAME || k == LAST_NAME;
    }
  }

  /** Appending one more custom attribute extends the partial map by that key. */
  lemma AddCustom(p: Profile, added: set<string>, k: string)
    requires added <= p.custom.Keys && k in p.custom && k !in added
    ensures Add(AttributesAfter(p, added), k, p.custom[k]) == AttributesAfter(p, added + {k})
  {
    var m := Add(AttributesAfter(p, added), k, p.custom[k]);
    var e := AttributesAfter(p, added + {k});
    assert m.Keys == e.Keys;
    forall j | j in m ensures m[j] == e[j] {
      if j == k {
        assert j !in StandardKeys ==> k !in AttributesAfter(p, added);
      }
    }
  }

  /** Every key of the result holds its seed value (if standard) followed by its custom value (if any). */
  lemma AttributesContent(p: Profile, k: string)
    ensures k in Attributes(p) <==> k in StandardKeys || k in p.custom
    ensures k in Attributes(p) ==> Attributes(p)[k] == SeedValues(p, k) + CustomValues(p, k)
  {
  }

  /** The four standard keys are always present, each list starting with its getter's value. */
  lemma StandardAttributesFirst(p: Profile)
    ensures USERNAME in Attributes(p) && Attributes(p)[USERNAME][0] == p.username
    ensures EMAIL in Attributes(p) && Attributes(p)[EMAIL][0] == p.email
    ensures FIRST_NAME in Attributes(p) && Attributes(p)[FIRST_NAME][0] == p.firstName
    ensures LAST_NAME in Attributes(p) && Attributes(p)[LAST_NAME][0] == p.lastName
  {
    AttributesContent(p, USERNAME);
    AttributesContent(p, EMAIL);
    AttributesContent(p, FIRST_NAME);
    AttributesContent(p, LAST_NAME);
  }

  /** Every custom attribute is present, its list ending with the custom value. */
  lemma CustomAttributeLast(p: Profile, k: string)
    requires k in p.custom
    ensures k in Attributes(p)
    ensures |Attributes(p)[k]| > 0 && Attributes(p)[k][|Attributes(p)[k]| - 1] == p.custom[k]
  {
    AttributesContent(p, k);
  }

  /** A custom value for a standard key is kept beside the seed: no deduplication. */
  lemma StandardKeyOverride(p: Profile, k: string)
    requires k in StandardKeys && k in p.custom
    ensures Attributes(p)[k] == [StandardValue(p, k), p.custom[k]]
  {
    AttributesContent(p, k);
  }

  /** A custom key that is not standard holds exactly its one custom value. */
  lemma CustomOnlyKey(p: Profile, k: string)
    requires k !in StandardKeys && k in p.custom
    ensures Attributes(p)[k] == [p.custom[k]]
  {
    AttributesContent(p, k);
  }

  /** No list of the result is empty. */
  lemma AttributeListsNonEmpty(p: Profile, k: string)
    requires k in Attributes(p)
    ensures Attributes(p)[k] != []
  {
    AttributesContent(p, k);
  }

  /** `getAttributeStream`: the list held for `name`, or nothing. */
  function AttributeStream(attrs: MultivaluedMap, name: string): seq<string> {
    if name in attrs then attrs[name] else []
  }

  /**
   * `getFirstAttribute`: the head of `getOrDefault(name, List.of())`, or null;
   * it is the head of `AttributeStream`.
   */
  function FirstAttribute(attrs: MultivaluedMap, name: string): (first: Option<string>)
    ensures first.Some? <==> AttributeStream(attrs, name) != []
    ensures first.Some? ==> first.value == AttributeStream(attrs, name)[0]
  {
    var list := if name in attrs then attrs[name] else [];
    if list == [] then None else Some(list[0])
  }

  /** `getFirstAttribute` on the built map: the standard value, else the custom value, else null. */
  lemma FirstAttributeOfProfile(p: Profile, name: string)
    ensures name in StandardKeys ==> FirstAttribute(Attributes(p), name) == Some(StandardValue(p, name))
    ensures name !in StandardKeys && name in p.custom ==> FirstAttribute(Attributes(p), name) == Some(p.custom[name])
    ensures FirstAttribute(Attributes(p), name) == None <==> name !in StandardKeys && name !in p.custom
  {
    AttributesContent(p, name);
  }
}

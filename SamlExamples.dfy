/**
  The fixtures of the SAML provider's tests and the outcomes they assert:
  the credential of "marissa-saml" with its typed attribute values, the
  mapping table of saml.user, saml.admin and saml.test, and a login per
  configuration the tests try.
 */
module SamlExamples {
  import opened Wrappers
  import opened SamlAttributes
  import opened SamlGroups
  import opened SamlUsers
  import opened SamlLogin

  const SamlOrigin: string := "saml"
  const PasswordAuthnContext: string := "urn:oasis:names:tc:SAML:2.0:ac:classes:Password"
  const UaaUser: string := "uaa.user"

  /** The local groups the fixture maps saml.user, saml.admin and saml.test of the saml origin to. */
  const FixtureMappings: set<ExternalGroupMapping> := {
    ExternalGroupMapping("uaa.saml.user", "saml.user", SamlOrigin),
    ExternalGroupMapping("uaa.saml.admin", "saml.admin", SamlOrigin),
    ExternalGroupMapping("uaa.saml.test", "saml.test", SamlOrigin)
  }

  /** The attributes of the fixture credential, minus the typed-value samples. */
  function FixtureAttributes(): seq<Attribute> {
    [ Attribute("firstName", [XsString("Marissa")]),
      Attribute("lastName", [XsString("Bloggs")]),
      Attribute("emailAddress", [XsString("marissa.bloggs@test.com")]),
      Attribute("phone", [XsString("1234567890")]),
      Attribute("groups", [XsAny("saml.user"), XsString("saml.admin"), XsString("saml.unmapped")]),
      Attribute("2ndgroups", [XsString("saml.test")]),
      Attribute("costCenter", [XsString("Denver,CO")]),
      Attribute("manager", [XsString("John the Sloth"), XsString("Kari the Ant Eater")]) ]
  }

  /** One attribute per typed value kind; the date-time's rendering is a parameter. */
  function TypedAttributes(dateTime: string): seq<Attribute> {
    [ Attribute("XSURI", [XsUri("http://localhost:8080/someuri")]),
      Attribute("XSAny", [XsAny("XSAnyValue")]),
      Attribute("XSQName", [XsQName("", "XSQNameValue")]),
      Attribute("XSInteger", [XsInteger(3)]),
      Attribute("XSBoolean", [XsBoolean(true)]),
      Attribute("XSDateTime", [XsDateTime(dateTime)]),
      Attribute("XSBase64Binary", [XsBase64Binary("00001111")]) ]
  }

  function FixtureCredential(dateTime: string): Credential {
    Credential("marissa-saml", FixtureAttributes() + TypedAttributes(dateTime), [PasswordAuthnContext])
  }

  /** A provider definition with the given mappings and otherwise the fixture's defaults. */
  function Definition(mappings: map<string, MappingTarget>): ProviderDefinition {
    ProviderDefinition(SamlOrigin, mappings, ExplicitlyMapped, [], [], true, false)
  }

  /** A name no other attribute of the list carries is found at its own position. */
  lemma FindUniquelyNamed(attributes: seq<Attribute>, k: nat)
    requires k < |attributes|
    requires forall j :: 0 <= j < |attributes| && j != k ==> attributes[j].name != attributes[k].name
    ensures FindAttribute(attributes, attributes[k].name) == Some(attributes[k])
  {
  }

  /** The fixture's attribute names are pairwise different. */
  lemma FixtureNamesDistinct(dateTime: string)
    ensures var a := FixtureCredential(dateTime).attributes;
            forall i, j :: 0 <= i < |a| && 0 <= j < |a| && i != j ==> a[i].name != a[j].name
  {
  }

  lemma FindInFixture(dateTime: string, k: nat)
    requires k < |FixtureCredential(dateTime).attributes|
    ensures var a := FixtureCredential(dateTime).attributes;
            FindAttribute(a, a[k].name) == Some(a[k])
  {
    FixtureNamesDistinct(dateTime);
    FindUniquelyNamed(FixtureCredential(dateTime).attributes, k);
  }

  lemma FixtureEmailAddress(dateTime: string)
    ensures FindAttribute(FixtureCredential(dateTime).attributes, "emailAddress")
            == Some(Attribute("emailAddress", [XsString("marissa.bloggs@test.com")]))
  {
    FindInFixture(dateTime, 2);
  }

  lemma FixtureCostCenter(dateTime: string)
    ensures FindAttribute(FixtureCredential(dateTime).attributes, "costCenter")
            == Some(Attribute("costCenter", [XsString("Denver,CO")]))
  {
    FindInFixture(dateTime, 6);
  }

  lemma FixtureManager(dateTime: string)
    ensures FindAttribute(FixtureCredential(dateTime).attributes, "manager")
            == Some(Attribute("manager", [XsString("John the Sloth"), XsString("Kari the Ant Eater")]))
  {
    FindInFixture(dateTime, 7);
  }

  lemma FixtureCustomValues()
    ensures StringValuesOf([XsString("Denver,CO")]) == ["Denver,CO"]
    ensures StringValuesOf([XsString("John the Sloth"), XsString("Kari the Ant Eater")])
            == ["John the Sloth", "Kari the Ant Eater"]
  {
  }

  /** The group attributes read as the fixture wrote them; an xs:any value counts by its text. */
  lemma FixtureGroupStrings(dateTime: string)
    ensures AttributeStrings(FixtureCredential(dateTime), "groups") == ["saml.user", "saml.admin", "saml.unmapped"]
    ensures AttributeStrings(FixtureCredential(dateTime), "2ndgroups") == ["saml.test"]
  {
    var a := FixtureCredential(dateTime).attributes;
    FindInFixture(dateTime, 4);
    FindInFixture(dateTime, 5);
    assert a[4].name == "groups" && a[5].name == "2ndgroups";
  }

  /** The raw groups of one named attribute are the values it carries. */
  lemma RawGroupsOfOneName(cred: Credential, n: string, vs: seq<string>)
    requires AttributeStrings(cred, n) == vs
    ensures RawGroupsFrom(cred, [n]) == set v | v in vs
  {
    var one: seq<string> := [n];
    assert one[0] == n && one[1..] == [];
  }

  /** The raw groups of two named attributes are the union of the values they carry. */
  lemma RawGroupsOfTwoNames(cred: Credential, n1: string, n2: string, s1: seq<string>, s2: seq<string>)
    requires AttributeStrings(cred, n1) == s1 && AttributeStrings(cred, n2) == s2
    ensures RawGroupsFrom(cred, [n1, n2]) == (set v | v in s1) + (set v | v in s2)
  {
    var two: seq<string> := [n1, n2];
    assert two[0] == n1 && two[1..] == [n2];
    RawGroupsOfOneName(cred, n2, s2);
  }

  const FixtureGroupsValues: seq<string> := ["saml.user", "saml.admin", "saml.unmapped"]
  const FixtureSecondGroupsValues: seq<string> := ["saml.test"]

  lemma FixtureGroupsValueSet()
    ensures (set v | v in FixtureGroupsValues) == {"saml.user", "saml.admin", "saml.unmapped"}
  {
  }

  lemma FixtureSecondGroupsValueSet()
    ensures (set v | v in FixtureSecondGroupsValues) == {"saml.test"}
  {
  }

  lemma GroupsAttributeGroups(cred: Credential)
    requires AttributeStrings(cred, "groups") == FixtureGroupsValues
    ensures RawGroupsFrom(cred, ["groups"]) == {"saml.user", "saml.admin", "saml.unmapped"}
  {
    RawGroupsOfOneName(cred, "groups", FixtureGroupsValues);
    FixtureGroupsValueSet();
  }

  lemma BothGroupAttributesGroups(cred: Credential)
    requires AttributeStrings(cred, "groups") == FixtureGroupsValues
    requires AttributeStrings(cred, "2ndgroups") == FixtureSecondGroupsValues
    ensures RawGroupsFrom(cred, ["2ndgroups", "groups"]) == {"saml.user", "saml.admin", "saml.unmapped", "saml.test"}
  {
    RawGroupsOfTwoNames(cred, "2ndgroups", "groups", FixtureSecondGroupsValues, FixtureGroupsValues);
    FixtureGroupsValueSet();
    FixtureSecondGroupsValueSet();
    FixtureGroupsUnion(set v | v in FixtureSecondGroupsValues, set v | v in FixtureGroupsValues);
  }

  lemma FixtureGroupsUnion(second: set<string>, first: set<string>)
    requires second == {"saml.test"} && first == {"saml.user", "saml.admin", "saml.unmapped"}
    ensures second + first == {"saml.user", "saml.admin", "saml.unmapped", "saml.test"}
  {
  }

  lemma RawGroupsOneSource(dateTime: string)
    ensures RawGroupsFrom(FixtureCredential(dateTime), ["groups"]) == {"saml.user", "saml.admin", "saml.unmapped"}
  {
    FixtureGroupStrings(dateTime);
    GroupsAttributeGroups(FixtureCredential(dateTime));
  }

  lemma RawGroupsTwoSources(dateTime: string)
    ensures RawGroupsFrom(FixtureCredential(dateTime), ["2ndgroups", "groups"])
            == {"saml.user", "saml.admin", "saml.unmapped", "saml.test"}
  {
    FixtureGroupStrings(dateTime);
    BothGroupAttributesGroups(FixtureCredential(dateTime));
  }

  /** test_group_attribute_not_set: with no group mapping, uaa.user is the only authority. */
  lemma GroupAttributeNotSet(dateTime: string)
    ensures var def := Definition(map[]);
            Authorities({UaaUser}, def.groupMappingMode, FixtureMappings, SamlOrigin,
                        RawGroups(def, FixtureCredential(dateTime))) == {UaaUser}
  {
    var def := Definition(map[]);
    assert RawGroups(def, FixtureCredential(dateTime)) == {};
    NoRawGroupsOnlyDefaults({UaaUser}, def.groupMappingMode, FixtureMappings, SamlOrigin);
  }

  /** The fixture table maps the three raw groups of the groups attribute to two local groups. */
  lemma FixtureTableOnGroups(raw: set<string>)
    requires raw == {"saml.user", "saml.admin", "saml.unmapped"}
    ensures MapAuthorities(FixtureMappings, SamlOrigin, raw) == {"uaa.saml.user", "uaa.saml.admin"}
  {
    var user := ExternalGroupMapping("uaa.saml.user", "saml.user", SamlOrigin);
    var admin := ExternalGroupMapping("uaa.saml.admin", "saml.admin", SamlOrigin);
    var test := ExternalGroupMapping("uaa.saml.test", "saml.test", SamlOrigin);
    assert user in FixtureMappings && admin in FixtureMappings;
    assert "saml.test" !in raw;
    assert forall m :: m in FixtureMappings ==> m == user || m == admin || m == test;
  }

  /** The fixture table maps all four raw groups of both attributes to three local groups. */
  lemma FixtureTableOnAllGroups(raw: set<string>)
    requires raw == {"saml.user", "saml.admin", "saml.unmapped", "saml.test"}
    ensures MapAuthorities(FixtureMappings, SamlOrigin, raw) == {"uaa.saml.user", "uaa.saml.admin", "uaa.saml.test"}
  {
    var user := ExternalGroupMapping("uaa.saml.user", "saml.user", SamlOrigin);
    var admin := ExternalGroupMapping("uaa.saml.admin", "saml.admin", SamlOrigin);
    var test := ExternalGroupMapping("uaa.saml.test", "saml.test", SamlOrigin);
    assert user in FixtureMappings && admin in FixtureMappings && test in FixtureMappings;
    assert forall m :: m in FixtureMappings ==> m == user || m == admin || m == test;
  }

  /** test_group_mapping: the groups attribute grants uaa.saml.user and uaa.saml.admin besides uaa.user. */
  lemma GroupMapping(dateTime: string)
    ensures var def := Definition(map[GroupAttributeName := Single("groups")]);
            Authorities({UaaUser}, def.groupMappingMode, FixtureMappings, SamlOrigin,
                        RawGroups(def, FixtureCredential(dateTime)))
            == {UaaUser, "uaa.saml.user", "uaa.saml.admin"}
  {
    RawGroupsOneSource(dateTime);
    FixtureTableOnGroups(RawGroupsFrom(FixtureCredential(dateTime), ["groups"]));
  }

  /** test_multiple_group_attributes: both group attributes together grant four authorities. */
  lemma MultipleGroupAttributes(dateTime: string)
    ensures var def := Definition(map[GroupAttributeName := Multiple(["2ndgroups", "groups"])]);
            Authorities({UaaUser}, def.groupMappingMode, FixtureMappings, SamlOrigin,
                        RawGroups(def, FixtureCredential(dateTime)))
            == {UaaUser, "uaa.saml.user", "uaa.saml.admin", "uaa.saml.test"}
  {
    RawGroupsTwoSources(dateTime);
    FixtureTableOnAllGroups(RawGroupsFrom(FixtureCredential(dateTime), ["2ndgroups", "groups"]));
  }

  /** test_external_groups_as_scopes: every raw group, mapped or not, is an authority as it is. */
  lemma ExternalGroupsAsScopes(dateTime: string)
    ensures var def := Definition(map[GroupAttributeName := Multiple(["2ndgroups", "groups"])]).(groupMappingMode := AsScopes);
            Authorities({UaaUser}, def.groupMappingMode, FixtureMappings, SamlOrigin,
                        RawGroups(def, FixtureCredential(dateTime)))
            == {UaaUser, "saml.user", "saml.admin", "saml.unmapped", "saml.test"}
  {
    RawGroupsTwoSources(dateTime);
  }

  /** externalGroup_NotMapped_ToScope: once saml.user and saml.admin are unmapped, only uaa.user is left. */
  method ExternalGroupNotMappedToScope(dateTime: string) returns (authorities: set<string>)
    ensures authorities == {UaaUser}
  {
    var manager := new ExternalMembershipManager();
    manager.MapExternalGroup("uaa.saml.user", "saml.user", SamlOrigin);
    manager.MapExternalGroup("uaa.saml.admin", "saml.admin", SamlOrigin);
    manager.MapExternalGroup("uaa.saml.test", "saml.test", SamlOrigin);
    manager.UnmapExternalGroup("uaa.saml.user", "saml.user", SamlOrigin);
    manager.UnmapExternalGroup("uaa.saml.admin", "saml.admin", SamlOrigin);
    assert manager.mappings == {ExternalGroupMapping("uaa.saml.test", "saml.test", SamlOrigin)};
    var def := Definition(map[GroupAttributeName := Single("groups")]);
    RawGroupsOneSource(dateTime);
    UnmappedScopesLeaveDefaults(FixtureCredential(dateTime));
    authorities := Authorities({UaaUser}, def.groupMappingMode, manager.mappings, SamlOrigin,
                               RawGroups(def, FixtureCredential(dateTime)));
  }

  /** With only saml.test mapped, the fixture's groups attribute grants nothing beyond uaa.user. */
  lemma UnmappedScopesLeaveDefaults(cred: Credential)
    requires RawGroupsFrom(cred, ["groups"]) == {"saml.user", "saml.admin", "saml.unmapped"}
    ensures var def := Definition(map[GroupAttributeName := Single("groups")]);
            Authorities({UaaUser}, def.groupMappingMode, {ExternalGroupMapping("uaa.saml.test", "saml.test", SamlOrigin)},
                        SamlOrigin, RawGroups(def, cred)) == {UaaUser}
  {
    var def := Definition(map[GroupAttributeName := Single("groups")]);
    GroupsAttributeOmitsSamlTest(cred);
    OnlyUnassertedRowMapped(RawGroups(def, cred), ExternalGroupMapping("uaa.saml.test", "saml.test", SamlOrigin));
  }

  lemma GroupsAttributeOmitsSamlTest(cred: Credential)
    requires RawGroupsFrom(cred, ["groups"]) == {"saml.user", "saml.admin", "saml.unmapped"}
    ensures "saml.test" !in RawGroups(Definition(map[GroupAttributeName := Single("groups")]), cred)
  {
    var def := Definition(map[GroupAttributeName := Single("groups")]);
    GroupsMappingNames(def);
    assert RawGroups(def, cred) == RawGroupsFrom(cred, ["groups"]);
    SamlTestNotAmongGroups(RawGroupsFrom(cred, ["groups"]));
  }

  lemma SamlTestNotAmongGroups(raw: set<string>)
    requires raw == {"saml.user", "saml.admin", "saml.unmapped"}
    ensures "saml.test" !in raw
  {
  }

  lemma GroupsMappingNames(def: ProviderDefinition)
    requires def.attributeMappings == map[GroupAttributeName := Single("groups")]
    ensures GroupAttributeNames(def) == ["groups"]
  {
  }

  /** A mapping table whose one row names a group the login did not assert grants only uaa.user. */
  lemma OnlyUnassertedRowMapped(raw: set<string>, m: ExternalGroupMapping)
    requires m.externalGroup !in raw
    ensures Authorities({UaaUser}, ExplicitlyMapped, {m}, SamlOrigin, raw) == {UaaUser}
  {
    assert MapAuthorities({m}, SamlOrigin, raw) == {};
  }

  /** The three whitelist tests: none, the exact saml.admin, and saml*. */
  lemma WhitelistOnGroups(raw: set<string>)
    requires raw == {"saml.user", "saml.admin", "saml.unmapped"}
    ensures FilterExternalGroups([], raw) == {}
    ensures FilterExternalGroups(["saml.admin"], raw) == {"saml.admin"}
    ensures FilterExternalGroups(["saml*"], raw) == {"saml.user", "saml.admin", "saml.unmapped"}
  {
    EmptyWhitelistNoExternalGroups(raw);
    ExactWhitelistEntry("saml.admin", raw);
    PrefixWildcardWhitelist("saml", raw);
    assert "saml" + "*" == "saml*";
    assert "saml.user"[..4] == "saml" && "saml.admin"[..4] == "saml" && "saml.unmapped"[..4] == "saml";
  }

  lemma WhitelistedExternalGroups(dateTime: string)
    ensures var raw := RawGroupsFrom(FixtureCredential(dateTime), ["groups"]);
            && FilterExternalGroups([], raw) == {}
            && FilterExternalGroups(["saml.admin"], raw) == {"saml.admin"}
            && FilterExternalGroups(["saml*"], raw) == {"saml.user", "saml.admin", "saml.unmapped"}
  {
    RawGroupsOneSource(dateTime);
    WhitelistOnGroups(RawGroupsFrom(FixtureCredential(dateTime), ["groups"]));
  }

  // ---------------------------------------------------------------------------
  // Attributes

  /** test_non_string_attributes: how each typed value kind reads as a string. */
  lemma TypedValuesAsStrings(dateTime: string)
    ensures StringValueOf(XsUri("http://localhost:8080/someuri")) == "http://localhost:8080/someuri"
    ensures StringValueOf(XsAny("XSAnyValue")) == "XSAnyValue"
    ensures StringValueOf(XsQName("", "XSQNameValue")) == "XSQNameValue"
    ensures StringValueOf(XsInteger(3)) == "3"
    ensures StringValueOf(XsBoolean(true)) == "true"
    ensures StringValueOf(XsDateTime(dateTime)) == dateTime
    ensures StringValueOf(XsBase64Binary("00001111")) == "00001111"
  {
  }

  /** The integer sample mapped as a custom attribute reaches the principal as "3". */
  lemma IntegerCustomAttribute(dateTime: string)
    ensures var def := Definition(map[UserAttributePrefix + "XSInteger" := Single("XSInteger")]);
            var custom := CustomAttributes(UserAttributes(def, FixtureCredential(dateTime)));
            "XSInteger" in custom && custom["XSInteger"] == ["3"]
  {
    var cred := FixtureCredential(dateTime);
    FindInFixture(dateTime, 11);
    var a := cred.attributes[11];
    assert a == Attribute("XSInteger", [XsInteger(3)]);
    CustomAttributeKeepsAllValues(Definition(map[UserAttributePrefix + "XSInteger" := Single("XSInteger")]),
                                  cred, "XSInteger", a);
  }

  lemma UserAttributeKeyIsMapped(def: ProviderDefinition, cred: Credential, key: string)
    requires key in UserAttributes(def, cred)
    ensures key in def.attributeMappings
  {
  }

  /** A prefixed key of a two-entry mapping is one of the two suffixes. */
  lemma PrefixedKeyOfTwo(m: map<string, MappingTarget>, k1: string, k2: string, n1: string, n2: string, s: string)
    requires m == map[UserAttributePrefix + k1 := Single(n1), UserAttributePrefix + k2 := Single(n2)]
    requires UserAttributePrefix + s in m
    ensures s == k1 || s == k2
  {
    var key := UserAttributePrefix + s;
    assert key == UserAttributePrefix + k1 || key == UserAttributePrefix + k2;
    assert s == key[|UserAttributePrefix|..];
    assert k1 == (UserAttributePrefix + k1)[|UserAttributePrefix|..];
    assert k2 == (UserAttributePrefix + k2)[|UserAttributePrefix|..];
  }

  /** Two custom mappings give user attributes under those two keys at most. */
  lemma TwoCustomMappingsKeys(def: ProviderDefinition, cred: Credential, k1: string, k2: string, n1: string, n2: string)
    requires def.attributeMappings == map[UserAttributePrefix + k1 := Single(n1), UserAttributePrefix + k2 := Single(n2)]
    ensures forall s :: s in CustomAttributes(UserAttributes(def, cred)) ==> s == k1 || s == k2
  {
    forall s | s in CustomAttributes(UserAttributes(def, cred)) ensures s == k1 || s == k2 {
      UserAttributeKeyIsMapped(def, cred, UserAttributePrefix + s);
      PrefixedKeyOfTwo(def.attributeMappings, k1, k2, n1, n2, s);
    }
  }

  /** Two custom mappings to present attributes give exactly those two user attributes, every value kept. */
  lemma TwoCustomMappings(def: ProviderDefinition, cred: Credential, k1: string, k2: string, a1: Attribute, a2: Attribute)
    requires def.attributeMappings == map[UserAttributePrefix + k1 := Single(a1.name), UserAttributePrefix + k2 := Single(a2.name)]
    requires k1 != k2
    requires FindAttribute(cred.attributes, a1.name) == Some(a1) && a1.values != []
    requires FindAttribute(cred.attributes, a2.name) == Some(a2) && a2.values != []
    ensures CustomAttributes(UserAttributes(def, cred)) == map[k1 := StringValuesOf(a1.values), k2 := StringValuesOf(a2.values)]
  {
    assert UserAttributePrefix + k1 != UserAttributePrefix + k2 by {
      assert (UserAttributePrefix + k1)[|UserAttributePrefix|..] == k1;
      assert (UserAttributePrefix + k2)[|UserAttributePrefix|..] == k2;
    }
    CustomAttributeKeepsAllValues(def, cred, k1, a1);
    CustomAttributeKeepsAllValues(def, cred, k2, a2);
    TwoCustomMappingsKeys(def, cred, k1, k2, a1.name, a2.name);
    MapOfTwoKeys(CustomAttributes(UserAttributes(def, cred)), k1, k2, StringValuesOf(a1.values), StringValuesOf(a2.values));
  }

  lemma MapOfTwoKeys(m: map<string, seq<string>>, k1: string, k2: string, v1: seq<string>, v2: seq<string>)
    requires k1 != k2 && k1 in m && k2 in m && m[k1] == v1 && m[k2] == v2
    requires forall s :: s in m ==> s == k1 || s == k2
    ensures m == map[k1 := v1, k2 := v2]
  {
  }

  /**
    user_authentication_contains_custom_attributes: two custom mappings give
    exactly two user attributes, the manager one with both of its values.
   */
  lemma CustomAttributesOfFixture(dateTime: string)
    ensures var def := Definition(map[UserAttributePrefix + "costCenters" := Single("costCenter"),
                                      UserAttributePrefix + "managers" := Single("manager")]);
            CustomAttributes(UserAttributes(def, FixtureCredential(dateTime)))
            == map["costCenters" := ["Denver,CO"], "managers" := ["John the Sloth", "Kari the Ant Eater"]]
  {
    FixtureCostCenter(dateTime);
    FixtureManager(dateTime);
    FixtureCustomValues();
    TwoCustomMappings(Definition(map[UserAttributePrefix + "costCenters" := Single("costCenter"),
                                     UserAttributePrefix + "managers" := Single("manager")]),
                      FixtureCredential(dateTime), "costCenters", "managers",
                      Attribute("costCenter", [XsString("Denver,CO")]),
                      Attribute("manager", [XsString("John the Sloth"), XsString("Kari the Ant Eater")]));
  }

  /** With the email mapped to an attribute carrying one value, that value is the email the login reads. */
  lemma MappedEmailRead(def: ProviderDefinition, cred: Credential, email: string)
    requires def.attributeMappings == map["surname" := Single("lastName"), EmailAttributeName := Single("emailAddress")]
    requires FindAttribute(cred.attributes, "emailAddress") == Some(Attribute("emailAddress", [XsString(email)]))
    ensures GetFirst(UserAttributes(def, cred), EmailAttributeName) == Some(email)
  {
  }

  /** Names that are not mapped do not appear among the user attributes. */
  lemma UnmappedNamesAbsent(def: ProviderDefinition, cred: Credential)
    requires def.attributeMappings == map["surname" := Single("lastName"), EmailAttributeName := Single("emailAddress")]
    ensures GivenNameAttributeName !in UserAttributes(def, cred)
    ensures FamilyNameAttributeName !in UserAttributes(def, cred)
  {
  }

  /** With only the email and an unknown key mapped, the user attributes hold the email and nothing custom. */
  lemma EmailOnlyMapping(def: ProviderDefinition, cred: Credential, email: string)
    requires def.attributeMappings == map["surname" := Single("lastName"), EmailAttributeName := Single("emailAddress")]
    requires FindAttribute(cred.attributes, "emailAddress") == Some(Attribute("emailAddress", [XsString(email)]))
    ensures var attrs := UserAttributes(def, cred);
            && GetFirst(attrs, EmailAttributeName) == Some(email)
            && GivenNameAttributeName !in attrs && FamilyNameAttributeName !in attrs
            && CustomAttributes(attrs) == map[]
  {
    MappedEmailRead(def, cred, email);
    UnmappedNamesAbsent(def, cred);
    NoCustomMappingNoCustomAttributes(def, cred);
  }

  /** With only the email mapped, the names of the login's user default to the email's two halves. */
  lemma DefaultNamesWithEmailOnly(def: ProviderDefinition, cred: Credential, name: string, local: string, domain: string)
    requires def.attributeMappings == map["surname" := Single("lastName"), EmailAttributeName := Single("emailAddress")]
    requires '@' !in local && '@' !in domain
    requires FindAttribute(cred.attributes, "emailAddress") == Some(Attribute("emailAddress", [XsString(local + "@" + domain)]))
    ensures var u := GetUser(name, SamlOrigin, UserAttributes(def, cred), UnconfiguredEmailDomain);
            u.email == local + "@" + domain && u.givenName == local && u.familyName == domain
  {
    EmailOnlyMapping(def, cred, local + "@" + domain);
    DefaultNamesFromEmail(name, SamlOrigin, UserAttributes(def, cred), UnconfiguredEmailDomain, local, domain);
  }

  lemma FixtureEmailHalves()
    ensures "marissa.bloggs@test.com" == "marissa.bloggs" + "@" + "test.com"
    ensures '@' !in "marissa.bloggs" && '@' !in "test.com"
  {
  }

  /** The definition of the default-values test: only the email (and an unused surname) mapped. */
  const EmailOnlyDefinition: ProviderDefinition :=
    Definition(map["surname" := Single("lastName"), EmailAttributeName := Single("emailAddress")])

  /** Neither key of that definition carries the custom-attribute prefix: both are shorter than it. */
  lemma EmailOnlyDefinitionHasNoCustomMapping()
    ensures forall key :: key in EmailOnlyDefinition.attributeMappings ==> !HasUserAttributePrefix(key)
  {
    assert EmailOnlyDefinition.attributeMappings.Keys == {"surname", EmailAttributeName};
  }

  /**
    shadowUser_GetsCreatedWithDefaultValues_IfAttributeNotMapped: with only
    the email mapped, the names come from the email's two halves and no
    custom attribute appears.
   */
  lemma DefaultValuesIfNotMapped(dateTime: string)
    ensures var def := EmailOnlyDefinition;
            var attrs := UserAttributes(def, FixtureCredential(dateTime));
            var u := GetUser("marissa-saml", SamlOrigin, attrs, UnconfiguredEmailDomain);
            && u.email == "marissa.bloggs@test.com"
            && u.givenName == "marissa.bloggs"
            && u.familyName == "test.com"
            && CustomAttributes(attrs) == map[]
  {
    var def := EmailOnlyDefinition;
    var cred := FixtureCredential(dateTime);
    FixtureEmailAddress(dateTime);
    FixtureEmailHalves();
    DefaultNamesWithEmailOnly(def, cred, "marissa-saml", "marissa.bloggs", "test.com");
    EmailOnlyDefinitionHasNoCustomMapping();
    NoCustomMappingNoCustomAttributes(def, cred);
  }

  /** A key mapped to an attribute that carries one string value reads as that value. */
  lemma MappedFieldRead(def: ProviderDefinition, cred: Credential, key: string, name: string, value: string)
    requires key in def.attributeMappings && def.attributeMappings[key] == Single(name)
    requires FindAttribute(cred.attributes, name) == Some(Attribute(name, [XsString(value)]))
    ensures GetFirst(UserAttributes(def, cred), key) == Some(value)
  {
    assert AttributeStrings(cred, name) == [value];
  }

  lemma FixtureFirstName(dateTime: string)
    ensures FindAttribute(FixtureCredential(dateTime).attributes, "firstName")
            == Some(Attribute("firstName", [XsString("Marissa")]))
  {
    FindInFixture(dateTime, 0);
  }

  lemma FixtureLastName(dateTime: string)
    ensures FindAttribute(FixtureCredential(dateTime).attributes, "lastName")
            == Some(Attribute("lastName", [XsString("Bloggs")]))
  {
    FindInFixture(dateTime, 1);
  }

  lemma FixturePhone(dateTime: string)
    ensures FindAttribute(FixtureCredential(dateTime).attributes, "phone")
            == Some(Attribute("phone", [XsString("1234567890")]))
  {
    FindInFixture(dateTime, 3);
  }

  /** The mapping of the shadow-account tests: names, email and phone from the fixture's attributes. */
  const UserFieldMappings: map<string, MappingTarget> := map[
    GivenNameAttributeName := Single("firstName"),
    FamilyNameAttributeName := Single("lastName"),
    EmailAttributeName := Single("emailAddress"),
    PhoneNumberAttributeName := Single("phone")]

  /** The user a login describes when its names, email and phone are all mapped and email_verified is not. */
  lemma UserOfMappedFields(name: string, attrs: map<string, seq<string>>,
                           given: string, family: string, email: string, phone: string)
    requires GetFirst(attrs, GivenNameAttributeName) == Some(given)
    requires GetFirst(attrs, FamilyNameAttributeName) == Some(family)
    requires GetFirst(attrs, EmailAttributeName) == Some(email)
    requires GetFirst(attrs, PhoneNumberAttributeName) == Some(phone)
    requires EmailVerifiedAttributeName !in attrs
    ensures var u := GetUser(name, SamlOrigin, attrs, UnconfiguredEmailDomain);
            && u.givenName == given && u.familyName == family
            && u.email == email && u.phoneNumber == Some(phone) && !u.verified
  {
  }

  /** UserFieldMappings maps exactly the four fields, each to one attribute. */
  lemma UserFieldMappingsEntries()
    ensures GivenNameAttributeName in UserFieldMappings && UserFieldMappings[GivenNameAttributeName] == Single("firstName")
    ensures FamilyNameAttributeName in UserFieldMappings && UserFieldMappings[FamilyNameAttributeName] == Single("lastName")
    ensures EmailAttributeName in UserFieldMappings && UserFieldMappings[EmailAttributeName] == Single("emailAddress")
    ensures PhoneNumberAttributeName in UserFieldMappings && UserFieldMappings[PhoneNumberAttributeName] == Single("phone")
    ensures EmailVerifiedAttributeName !in UserFieldMappings
  {
  }

  /** A login through UserFieldMappings reads the four fields from the attributes they name. */
  lemma MappedUserFields(cred: Credential, given: string, family: string, email: string, phone: string)
    requires FindAttribute(cred.attributes, "firstName") == Some(Attribute("firstName", [XsString(given)]))
    requires FindAttribute(cred.attributes, "lastName") == Some(Attribute("lastName", [XsString(family)]))
    requires FindAttribute(cred.attributes, "emailAddress") == Some(Attribute("emailAddress", [XsString(email)]))
    requires FindAttribute(cred.attributes, "phone") == Some(Attribute("phone", [XsString(phone)]))
    ensures var u := GetUser(cred.nameId, SamlOrigin, UserAttributes(Definition(UserFieldMappings), cred), UnconfiguredEmailDomain);
            && u.givenName == given && u.familyName == family
            && u.email == email && u.phoneNumber == Some(phone) && !u.verified
  {
    var def := Definition(UserFieldMappings);
    var attrs := UserAttributes(def, cred);
    UserFieldMappingsEntries();
    MappedFieldRead(def, cred, GivenNameAttributeName, "firstName", given);
    MappedFieldRead(def, cred, FamilyNameAttributeName, "lastName", family);
    MappedFieldRead(def, cred, EmailAttributeName, "emailAddress", email);
    MappedFieldRead(def, cred, PhoneNumberAttributeName, "phone", phone);
    UserOfMappedFields(cred.nameId, attrs, given, family, email, phone);
  }

  /**
    shadowAccount_createdWith_MappedUserAttributes: the user the login
    describes carries the mapped given and family names, email and phone.
   */
  lemma ShadowAccountWithMappedAttributes(dateTime: string)
    ensures var attrs := UserAttributes(Definition(UserFieldMappings), FixtureCredential(dateTime));
            var u := GetUser("marissa-saml", SamlOrigin, attrs, UnconfiguredEmailDomain);
            && u.givenName == "Marissa" && u.familyName == "Bloggs"
            && u.email == "marissa.bloggs@test.com" && u.phoneNumber == Some("1234567890")
            && !u.verified
  {
    FixtureFirstName(dateTime);
    FixtureLastName(dateTime);
    FixtureEmailAddress(dateTime);
    FixturePhone(dateTime);
    MappedUserFields(FixtureCredential(dateTime), "Marissa", "Bloggs", "marissa.bloggs@test.com", "1234567890");
  }

  // ---------------------------------------------------------------------------
  // Email synthesis

  const NewPrincipal: string := "new-uaa-principal"

  /** emailIsNullNameDoesNotContainCommercialAt: the default domain is appended. */
  lemma EmailSynthesisNoAt()
    ensures SynthesizeEmail(NewPrincipal, UnconfiguredEmailDomain)
            == NewPrincipal + "@" + UnconfiguredEmailDomain
  {
    SynthesizeEmailWithoutAt(NewPrincipal, UnconfiguredEmailDomain);
  }

  /** emailIsNullNameContainsLeadingCommericalAt: the leading '@' is dropped. */
  lemma EmailSynthesisLeadingAt()
    ensures SynthesizeEmail("@" + NewPrincipal, UnconfiguredEmailDomain)
            == NewPrincipal + "@" + UnconfiguredEmailDomain
  {
    SynthesizeEmailLeadingAt(NewPrincipal, UnconfiguredEmailDomain);
  }

  /** emailIsNullNameContainsTrailingCommericalAt: the trailing '@' is dropped. */
  lemma EmailSynthesisTrailingAt()
    ensures SynthesizeEmail(NewPrincipal + "@", UnconfiguredEmailDomain)
            == NewPrincipal + "@" + UnconfiguredEmailDomain
  {
    SynthesizeEmailTrailingAt(NewPrincipal, UnconfiguredEmailDomain);
  }

  /** emailIsNullNameContainsMiddleCommericalAt: the name is already an email. */
  lemma EmailSynthesisMiddleAt()
    ensures SynthesizeEmail("new-u@a-principal", UnconfiguredEmailDomain) == "new-u@a-principal"
  {
    assert "new-u@a-principal" == "new-u" + "@" + "a-principal";
    SynthesizeEmailInternalAt("new-u", "a-principal", UnconfiguredEmailDomain);
  }

  // ---------------------------------------------------------------------------
  // Authentication context

  /** authnContext_isvalidated_fail and _good: the password context against two other contexts, and against itself. */
  lemma AuthnContextFixtures(dateTime: string)
    ensures !AuthnContextAccepted(["some-context", "another-context"], FixtureCredential(dateTime).authnContextClassRefs)
    ensures AuthnContextAccepted([PasswordAuthnContext], FixtureCredential(dateTime).authnContextClassRefs)
    ensures AuthnContextAccepted([], FixtureCredential(dateTime).authnContextClassRefs)
  {
    SingleContextAccepted(["some-context", "another-context"], PasswordAuthnContext);
    SingleContextAccepted([PasswordAuthnContext], PasswordAuthnContext);
  }
}

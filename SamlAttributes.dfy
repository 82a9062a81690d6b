/**
  Typed SAML attribute values and their conversion to strings, the attributes of
  an authenticated credential, the identity provider's definition (attribute
  mappings, group mode, whitelist, allowed authentication contexts) and the
  user attributes a login extracts from a credential.
 */
module SamlAttributes {
  import opened Wrappers

  /** An <AttributeValue> payload, one constructor per XML schema type the provider reads. */
  datatype AttributeValue =
    | XsString(text: string)                       // xs:string
    | XsUri(uri: string)                           // xs:anyURI
    | XsAny(textContent: string)                   // xs:any: only its text content is read
    | XsQName(namespaceUri: string, localPart: string)
    | XsInteger(n: int)
    | XsBoolean(b: bool)
    | XsDateTime(rendered: string)                 // the date-time's own string form, kept opaque
    | XsBase64Binary(payload: string)              // already base64 text

  // ---------------------------------------------------------------------------
  // Decimal and boolean text

  predicate IsDigit(c: char) { '0' <= c <= '9' }

  predicate AllDigits(s: string) { forall i :: 0 <= i < |s| ==> IsDigit(s[i]) }

  function DigitChar(d: nat): (c: char)
    requires d < 10
    ensures IsDigit(c) && c as int - '0' as int == d
  {
    ('0' as int + d) as char
  }

  /** The decimal form of n, without leading zeros. */
  function NatToDecimal(n: nat): (s: string)
    ensures |s| >= 1 && AllDigits(s)
    ensures |s| > 1 ==> s[0] != '0'
  {
    if n < 10 then [DigitChar(n)] else NatToDecimal(n / 10) + [DigitChar(n % 10)]
  }

  /** The integer's decimal form, as Integer.toString writes it: a '-' for negative values. */
  function IntToDecimal(i: int): string {
    if i < 0 then "-" + NatToDecimal(-i) else NatToDecimal(i)
  }

  function DecimalToNat(s: string): nat
    requires AllDigits(s)
  {
    if s == [] then 0 else DecimalToNat(s[..|s| - 1]) * 10 + (s[|s| - 1] as int - '0' as int)
  }

  /** Reads back an optionally signed decimal number; anything else is not a number. */
  function ParseInteger(s: string): Option<int> {
    if |s| > 1 && s[0] == '-' && AllDigits(s[1..]) then Some(-(DecimalToNat(s[1..]) as int))
    else if |s| > 0 && AllDigits(s) then Some(DecimalToNat(s))
    else None
  }

  lemma {:induction false} NatDecimalRoundTrip(n: nat)
    ensures DecimalToNat(NatToDecimal(n)) == n
  {
    if n >= 10 {
      var prefix := NatToDecimal(n / 10);
      var s := prefix + [DigitChar(n % 10)];
      assert s[..|s| - 1] == prefix;
      NatDecimalRoundTrip(n / 10);
    }
  }

  /** An integer attribute's string reads back as the same integer. */
  lemma IntegerRoundTrip(i: int)
    ensures ParseInteger(IntToDecimal(i)) == Some(i)
  {
    if i < 0 {
      NegativeRoundTrip(-i);
    } else {
      NonNegativeRoundTrip(i);
    }
  }

  lemma NegativeRoundTrip(n: nat)
    ensures ParseInteger("-" + NatToDecimal(n)) == Some(-(n as int))
  {
    var digits := NatToDecimal(n);
    ParseNegativeDigits(digits);
    NatDecimalRoundTrip(n);
  }

  lemma NonNegativeRoundTrip(n: nat)
    ensures ParseInteger(NatToDecimal(n)) == Some(n)
  {
    ParseDigits(NatToDecimal(n));
    NatDecimalRoundTrip(n);
  }

  lemma ParseNegativeDigits(digits: string)
    requires |digits| >= 1 && AllDigits(digits)
    ensures ParseInteger("-" + digits) == Some(-(DecimalToNat(digits) as int))
  {
    var s := "-" + digits;
    assert s[0] == '-' && s[1..] == digits;
  }

  lemma ParseDigits(digits: string)
    requires |digits| >= 1 && AllDigits(digits)
    ensures ParseInteger(digits) == Some(DecimalToNat(digits))
  {
    assert IsDigit(digits[0]);
  }

  function BooleanText(b: bool): string { if b then "true" else "false" }

  function ToLowerAscii(c: char): char {
    if 'A' <= c <= 'Z' then (c as int + 32) as char else c
  }

  /** Boolean.valueOf: true exactly for "true" in any letter case; every other string is false. */
  function ParseBoolean(s: string): (b: bool)
    ensures b <==> |s| == 4 && forall i :: 0 <= i < 4 ==> ToLowerAscii(s[i]) == "true"[i]
  {
    |s| == 4 && ToLowerAscii(s[0]) == 't' && ToLowerAscii(s[1]) == 'r'
    && ToLowerAscii(s[2]) == 'u' && ToLowerAscii(s[3]) == 'e'
  }

  lemma BooleanRoundTrip(b: bool)
    ensures ParseBoolean(BooleanText(b)) == b
  {
    if !b {
      assert |BooleanText(b)| == 5;
    }
  }

  // ---------------------------------------------------------------------------
  // The codec

  /** The string a typed attribute value contributes to the user's attributes. */
  function StringValueOf(v: AttributeValue): (r: string)
    ensures v.XsInteger? ==> ParseInteger(r) == Some(v.n)
    ensures v.XsBoolean? ==> ParseBoolean(r) == v.b
  {
    match v
    case XsString(t) => t
    case XsUri(u) => u
    case XsAny(t) => t
    case XsQName(_, local) => local
    case XsInteger(n) => IntegerRoundTrip(n); IntToDecimal(n)
    case XsBoolean(b) => BooleanRoundTrip(b); BooleanText(b)
    case XsDateTime(rendered) => rendered
    case XsBase64Binary(p) => p
  }

  /** Every value of a multi-valued attribute, converted, in the order the assertion gives them. */
  function StringValuesOf(values: seq<AttributeValue>): (r: seq<string>)
    ensures |r| == |values|
    ensures forall i :: 0 <= i < |values| ==> r[i] == StringValueOf(values[i])
  {
    if values == [] then [] else [StringValueOf(values[0])] + StringValuesOf(values[1..])
  }

  // ---------------------------------------------------------------------------
  // The credential

  datatype Attribute = Attribute(name: string, values: seq<AttributeValue>)

  /** What the SAML layer hands over once it has validated the response. */
  datatype Credential = Credential(
    nameId: string,                        // the subject's NameID, used as username
    attributes: seq<Attribute>,
    authnContextClassRefs: seq<string>)    // one per authentication statement that has a class ref

  /** The first attribute with the given name, as the credential's attribute lookup returns it. */
  function FindAttribute(attributes: seq<Attribute>, name: string): (r: Option<Attribute>)
    ensures r.None? <==> forall i :: 0 <= i < |attributes| ==> attributes[i].name != name
    ensures r.Some? ==> exists i :: 0 <= i < |attributes| && attributes[i] == r.value
                          && r.value.name == name
                          && forall j :: 0 <= j < i ==> attributes[j].name != name
  {
    if attributes == [] then None
    else if attributes[0].name == name then Some(attributes[0])
    else
      var r := FindAttribute(attributes[1..], name);
      assert r.Some? ==> exists i :: 0 <= i < |attributes[1..]| && attributes[1..][i] == r.value
                          && r.value.name == name
                          && forall j :: 0 <= j < i ==> attributes[1..][j].name != name;
      r
  }

  /** The strings of the named attribute; an attribute the credential does not carry gives none. */
  function AttributeStrings(cred: Credential, name: string): (r: seq<string>)
    ensures FindAttribute(cred.attributes, name).None? ==> r == []
    ensures FindAttribute(cred.attributes, name).Some? ==>
              var a := FindAttribute(cred.attributes, name).value;
              |r| == |a.values| && forall i :: 0 <= i < |r| ==> r[i] == StringValueOf(a.values[i])
  {
    match FindAttribute(cred.attributes, name)
    case None => []
    case Some(a) => StringValuesOf(a.values)
  }

  // ---------------------------------------------------------------------------
  // The provider definition

  /** A mapping names one external attribute, or (for groups) a list of them. */
  datatype MappingTarget = Single(attributeName: string) | Multiple(attributeNames: seq<string>)

  datatype GroupMappingMode = ExplicitlyMapped | AsScopes

  datatype ProviderDefinition = ProviderDefinition(
    originKey: string,
    attributeMappings: map<string, MappingTarget>,
    groupMappingMode: GroupMappingMode,
    externalGroupsWhitelist: seq<string>,
    authnContext: seq<string>,             // empty: no restriction
    addShadowUserOnLogin: bool,
    storeCustomAttributes: bool)

  const EmailAttributeName: string := "email"
  const GivenNameAttributeName: string := "given_name"
  const FamilyNameAttributeName: string := "family_name"
  const PhoneNumberAttributeName: string := "phone_number"
  const EmailVerifiedAttributeName: string := "email_verified"
  const GroupAttributeName: string := "external_groups"
  const UserAttributePrefix: string := "user.attribute."

  /**
    The user attributes of a login: for every mapping to a single external
    attribute, the mapped attribute's strings under the mapping's key. A key
    whose attribute is absent or carries no value is left out.
   */
  function UserAttributes(def: ProviderDefinition, cred: Credential): (r: map<string, seq<string>>)
    ensures forall key :: key in r <==>
      key in def.attributeMappings && def.attributeMappings[key].Single?
      && match FindAttribute(cred.attributes, def.attributeMappings[key].attributeName)
         case None => false
         case Some(a) => a.values != []
    ensures forall key :: key in r ==>
      r[key] == AttributeStrings(cred, def.attributeMappings[key].attributeName)
  {
    map key | key in def.attributeMappings && def.attributeMappings[key].Single?
                && AttributeStrings(cred, def.attributeMappings[key].attributeName) != []
      :: AttributeStrings(cred, def.attributeMappings[key].attributeName)
  }

  /** The first value under a key, as a multi-value map's getFirst gives it. */
  function GetFirst(attrs: map<string, seq<string>>, key: string): (r: Option<string>)
    ensures r.Some? <==> key in attrs && attrs[key] != []
    ensures r.Some? ==> r.value == attrs[key][0]
  {
    if key in attrs && attrs[key] != [] then Some(attrs[key][0]) else None
  }

  predicate HasUserAttributePrefix(key: string) {
    |UserAttributePrefix| <= |key| && key[..|UserAttributePrefix|] == UserAttributePrefix
  }

  lemma PrefixSplit(key: string)
    requires HasUserAttributePrefix(key)
    ensures key == UserAttributePrefix + key[|UserAttributePrefix|..]
  {
  }

  /**
    The custom attributes a login carries: the user attributes whose key starts
    with "user.attribute.", under the rest of the key.
   */
  function CustomAttributes(attrs: map<string, seq<string>>): (r: map<string, seq<string>>)
    ensures forall s :: s in r <==> UserAttributePrefix + s in attrs
    ensures forall s :: s in r ==> r[s] == attrs[UserAttributePrefix + s]
  {
    forall key | key in attrs && HasUserAttributePrefix(key)
      ensures key == UserAttributePrefix + key[|UserAttributePrefix|..]
    {
      PrefixSplit(key);
    }
    assert forall s :: HasUserAttributePrefix(UserAttributePrefix + s)
                       && (UserAttributePrefix + s)[|UserAttributePrefix|..] == s;
    map key | key in attrs && HasUserAttributePrefix(key)
      :: key[|UserAttributePrefix|..] := attrs[key]
  }

  /** With no "user.attribute." mapping, a login carries no custom attribute. */
  lemma NoCustomMappingNoCustomAttributes(def: ProviderDefinition, cred: Credential)
    requires forall key :: key in def.attributeMappings ==> !HasUserAttributePrefix(key)
    ensures CustomAttributes(UserAttributes(def, cred)) == map[]
  {
    var attrs := UserAttributes(def, cred);
    forall s ensures UserAttributePrefix + s !in attrs {
      assert HasUserAttributePrefix(UserAttributePrefix + s);
    }
    assert CustomAttributes(attrs).Keys == {};
  }

  /** A custom mapping to a present attribute carries all of that attribute's values, in order. */
  lemma CustomAttributeKeepsAllValues(def: ProviderDefinition, cred: Credential, s: string, a: Attribute)
    requires UserAttributePrefix + s in def.attributeMappings
    requires def.attributeMappings[UserAttributePrefix + s] == Single(a.name)
    requires FindAttribute(cred.attributes, a.name) == Some(a) && a.values != []
    ensures s in CustomAttributes(UserAttributes(def, cred))
    ensures CustomAttributes(UserAttributes(def, cred))[s] == StringValuesOf(a.values)
  {
  }
}

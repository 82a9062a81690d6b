# SAML login reconciliation and client metadata of the UAA, in Dafny

This project models two parts of the Cloud Foundry UAA server, as their tests
describe them.

**The SAML login provider (`LoginSamlAuthenticationProvider`).** A validated
SAML credential is turned into a UAA login:

- the typed attribute values of the assertion are read as strings (xs:string,
  xs:anyURI, xs:any, xs:QName, xs:integer, xs:boolean, xs:dateTime,
  xs:base64Binary);
- the identity provider's definition maps user fields and custom
  `user.attribute.*` keys to SAML attributes;
- the asserted authentication context class references are checked against the
  allowed list;
- raw external groups become authorities through the external-group mapping
  table, or verbatim in AS_SCOPES mode, next to the zone's default groups; a
  whitelist with `*` wildcards selects the external groups kept on the login;
- the shadow user of the login is found by name, else by email (and renamed),
  else created if the provider allows it; an invite acceptance renames the
  invited user; a user whose tracked fields (email, given and family name,
  phone, email_verified) drifted is updated and its modification time set;
- the principal carries the user, authorities, external groups, custom
  attributes, `ext` as authentication method and the context class references;
  the user-info record is overwritten only when the provider stores custom
  attributes.

**The client-metadata admin endpoints.** Metadata is kept per registered
client. Create answers 201, or 404 for an unknown client and 409 for a second
create. Read answers 200 or 404. Update and delete carry the version they
expect in an If-Match header, in the manner of section 3.1 of RFC 7232: a
missing header is 400, a stale version 412, and an update bumps the version.
Without the clients.write scope every write is 403, before anything else is
looked at.

Layout:

- `Wrappers.dfy` holds Option and Result.
- `SamlAttributes.dfy`: the value codec, the credential, the provider definition and the user attributes.
- `SamlGroups.dfy`: wildcard matching, raw groups, authorities and the whitelist.
- `SamlUsers.dfy`: email synthesis, the user a login describes, the drift check, the user table, and `Reconcile`. `Reconcile` is the specification of find/update/rename/create.
- `SamlLogin.dfy`: the context check, the principal, and the `Login` specification. It also holds the stores (`UserDatabase`, `ExternalMembershipManager`) and the provider as classes. The provider's `CreateIfMissing` and `Authenticate` are proved equal to `Reconcile` and `Login`.
- `SamlExamples.dfy`: the tests' fixture credential and mapping table, with one lemma per asserted outcome.
- `SamlScenarios.dfy`: the multi-login test sequences, driving the provider on a fresh store.
- `ClientMetadata.dfy`: the endpoints as functions of a table, with their properties. It also has the class `ClientMetadataEndpoints`, proved equal to those functions.
- `ClientMetadataScenarios.dfy`: one method per request sequence of the endpoint tests.

Source paths below are relative to the repository root. `S` is
`server/src/test/java/org/cloudfoundry/identity/uaa/provider/saml/LoginSamlAuthenticationProviderTests.java`
and `C` is
`uaa/src/test/java/org/cloudfoundry/identity/uaa/client/ClientMetadataAdminEndpointsMockMvcTest.java`;
the table writes them out in full.

## Model

| member | source | states |
|---|---|---|
| SamlAttributes.StringValueOf | server/src/test/java/org/cloudfoundry/identity/uaa/provider/saml/LoginSamlAuthenticationProviderTests.java:457-477 | an xs:integer value's string parses back to that integer, and an xs:boolean value's string reads back as that boolean |
| SamlAttributes.StringValuesOf | server/src/test/java/org/cloudfoundry/identity/uaa/provider/saml/LoginSamlAuthenticationProviderTests.java:151-215 | a multi-valued attribute reads as one string per value, in the assertion's order |
| SamlAttributes.NatDecimalRoundTrip | server/src/test/java/org/cloudfoundry/identity/uaa/provider/saml/LoginSamlAuthenticationProviderTests.java:170-174 | the decimal text of a natural number reads back as that number |
| SamlAttributes.IntegerRoundTrip | server/src/test/java/org/cloudfoundry/identity/uaa/provider/saml/LoginSamlAuthenticationProviderTests.java:457-477 | the string an xs:integer value becomes (with '-' when negative) parses back to the same integer |
| SamlAttributes.ParseBoolean | server/src/test/java/org/cloudfoundry/identity/uaa/provider/saml/LoginSamlAuthenticationProviderTests.java:619-627 | an email_verified string is true exactly when it spells "true" in any letter case |
| SamlAttributes.BooleanRoundTrip | server/src/test/java/org/cloudfoundry/identity/uaa/provider/saml/LoginSamlAuthenticationProviderTests.java:176-180 | the string an xs:boolean becomes reads back as the same boolean |
| SamlAttributes.FindAttribute | server/src/test/java/org/cloudfoundry/identity/uaa/provider/saml/LoginSamlAuthenticationProviderTests.java:143-149 | the lookup finds nothing exactly when no attribute has the name, and otherwise the first attribute that has it |
| SamlAttributes.AttributeStrings | server/src/test/java/org/cloudfoundry/identity/uaa/provider/saml/LoginSamlAuthenticationProviderTests.java:151-215 | an absent attribute gives no strings; a present one gives its values converted one by one |
| SamlAttributes.UserAttributes | server/src/test/java/org/cloudfoundry/identity/uaa/provider/saml/LoginSamlAuthenticationProviderTests.java:457-477 | a key is present exactly when it maps to one attribute the credential carries with at least one value, and then holds all of that attribute's strings |
| SamlAttributes.GetFirst | server/src/test/java/org/cloudfoundry/identity/uaa/provider/saml/LoginSamlAuthenticationProviderTests.java:470-476 | the first value under a key, and none exactly when the key is absent or empty |
| SamlAttributes.CustomAttributes | server/src/test/java/org/cloudfoundry/identity/uaa/provider/saml/LoginSamlAuthenticationProviderTests.java:892-915 | a custom attribute s exists exactly when `user.attribute.` + s is a user attribute, with the same values |
| SamlAttributes.NoCustomMappingNoCustomAttributes | server/src/test/java/org/cloudfoundry/identity/uaa/provider/saml/LoginSamlAuthenticationProviderTests.java:875-890 | without a `user.attribute.` mapping the login carries no custom attribute |
| SamlAttributes.CustomAttributeKeepsAllValues | server/src/test/java/org/cloudfoundry/identity/uaa/provider/saml/LoginSamlAuthenticationProviderTests.java:912-915 | a custom mapping to a present attribute keeps every one of its values, in order |
| SamlGroups.GlobMatch | server/src/test/java/org/cloudfoundry/identity/uaa/provider/saml/LoginSamlAuthenticationProviderTests.java:518-537 | every whitelist entry matches the group it spells |
| SamlGroups.LiteralPatternMatchesItself | server/src/test/java/org/cloudfoundry/identity/uaa/provider/saml/LoginSamlAuthenticationProviderTests.java:518-527 | a whitelist entry without '*' matches exactly the group it spells |
| SamlGroups.StarMatchesEverything | server/src/test/java/org/cloudfoundry/identity/uaa/provider/saml/LoginSamlAuthenticationProviderTests.java:529-537 | a lone '*' matches every group |
| SamlGroups.PrefixWildcardMatchesPrefixes | server/src/test/java/org/cloudfoundry/identity/uaa/provider/saml/LoginSamlAuthenticationProviderTests.java:529-537 | "p*" matches exactly the groups that start with p |
| SamlGroups.GroupAttributeNames | server/src/test/java/org/cloudfoundry/identity/uaa/provider/saml/LoginSamlAuthenticationProviderTests.java:500-506 | with no external_groups mapping no attribute is read for groups |
| SamlGroups.RawGroupsFrom | server/src/test/java/org/cloudfoundry/identity/uaa/provider/saml/LoginSamlAuthenticationProviderTests.java:400-415 | a group is raw exactly when one of the named group attributes carries it |
| SamlGroups.RawGroups | server/src/test/java/org/cloudfoundry/identity/uaa/provider/saml/LoginSamlAuthenticationProviderTests.java:500-506 | with no external_groups mapping the login has no raw group |
| SamlGroups.Authorities | server/src/test/java/org/cloudfoundry/identity/uaa/provider/saml/LoginSamlAuthenticationProviderTests.java:423-455 | the zone's default groups are always granted; in the default mode every mapping of this origin whose external group was asserted grants its local group; in AS_SCOPES mode every raw group is granted |
| SamlGroups.ExplicitlyMappedAuthorities | server/src/test/java/org/cloudfoundry/identity/uaa/provider/saml/LoginSamlAuthenticationProviderTests.java:441-455 | in the default mode a group is an authority exactly when it is a default group or the local group of a mapping of this origin whose external group the login asserted |
| SamlGroups.UnmappedGroupGrantsNothing | server/src/test/java/org/cloudfoundry/identity/uaa/provider/saml/LoginSamlAuthenticationProviderTests.java:479-499 | a raw group no mapping of this origin names grants nothing: dropping it changes no authority |
| SamlGroups.AsScopesGrantsEveryRawGroup | server/src/test/java/org/cloudfoundry/identity/uaa/provider/saml/LoginSamlAuthenticationProviderTests.java:423-439 | in AS_SCOPES mode the authorities are the defaults plus every raw group, mapped or not |
| SamlGroups.NoRawGroupsOnlyDefaults | server/src/test/java/org/cloudfoundry/identity/uaa/provider/saml/LoginSamlAuthenticationProviderTests.java:500-506 | with no raw group only the default groups are granted, in either mode |
| SamlGroups.FilterExternalGroups | server/src/test/java/org/cloudfoundry/identity/uaa/provider/saml/LoginSamlAuthenticationProviderTests.java:508-537 | the external groups of a login are among its raw groups |
| SamlGroups.OneEntryWhitelist | server/src/test/java/org/cloudfoundry/identity/uaa/provider/saml/LoginSamlAuthenticationProviderTests.java:518-527 | a one-entry whitelist admits exactly what its entry matches |
| SamlGroups.WhitelistConcatenation | server/src/test/java/org/cloudfoundry/identity/uaa/provider/saml/LoginSamlAuthenticationProviderTests.java:508-537 | a joined whitelist keeps exactly what either part keeps |
| SamlGroups.WhitelistIsUnionOfEntries | server/src/test/java/org/cloudfoundry/identity/uaa/provider/saml/LoginSamlAuthenticationProviderTests.java:508-537 | a whitelist keeps a group exactly when one of its entries, alone, keeps it |
| SamlGroups.EmptyWhitelistNoExternalGroups | server/src/test/java/org/cloudfoundry/identity/uaa/provider/saml/LoginSamlAuthenticationProviderTests.java:508-516 | an empty whitelist keeps no external group |
| SamlGroups.ExactWhitelistEntry | server/src/test/java/org/cloudfoundry/identity/uaa/provider/saml/LoginSamlAuthenticationProviderTests.java:518-527 | an exact entry keeps that group alone, if it was asserted |
| SamlGroups.PrefixWildcardWhitelist | server/src/test/java/org/cloudfoundry/identity/uaa/provider/saml/LoginSamlAuthenticationProviderTests.java:529-537 | a "p*" entry keeps exactly the asserted groups starting with p |
| SamlUsers.SplitAtFirstAt | server/src/test/java/org/cloudfoundry/identity/uaa/provider/saml/LoginSamlAuthenticationProviderTests.java:886-889 | for local@rest with '@'-free local, the text before the first '@' is local and after it is rest |
| SamlUsers.SynthesizeEmail | server/src/test/java/org/cloudfoundry/identity/uaa/provider/saml/LoginSamlAuthenticationProviderTests.java:660-692 | a name of the form local@domain is kept as it is; any other name becomes its '@'-free text, then '@', then the zone's domain, and splits back into those two at its first '@' |
| SamlUsers.SynthesizeEmailWithoutAt | server/src/test/java/org/cloudfoundry/identity/uaa/provider/saml/LoginSamlAuthenticationProviderTests.java:660-667 | a name without '@' gets "@" and the default domain appended |
| SamlUsers.SynthesizeEmailLeadingAt | server/src/test/java/org/cloudfoundry/identity/uaa/provider/saml/LoginSamlAuthenticationProviderTests.java:669-676 | a leading '@' is dropped before the domain is appended |
| SamlUsers.SynthesizeEmailTrailingAt | server/src/test/java/org/cloudfoundry/identity/uaa/provider/saml/LoginSamlAuthenticationProviderTests.java:678-684 | a trailing '@' is dropped before the domain is appended |
| SamlUsers.SynthesizeEmailInternalAt | server/src/test/java/org/cloudfoundry/identity/uaa/provider/saml/LoginSamlAuthenticationProviderTests.java:686-692 | a name with one '@' inside it is already the email |
| SamlUsers.SynthesizedEmailHasAt | server/src/test/java/org/cloudfoundry/identity/uaa/provider/saml/LoginSamlAuthenticationProviderTests.java:660-692 | every synthesised email contains an '@' |
| SamlUsers.GetUser | server/src/test/java/org/cloudfoundry/identity/uaa/provider/saml/LoginSamlAuthenticationProviderTests.java:593-743 | the login's user has the subject name and origin; it takes the mapped email, given name, family name and phone, else a synthesised email and no phone; it is verified exactly when email_verified is mapped and reads as "true" in any letter case |
| SamlUsers.DefaultNamesFromEmail | server/src/test/java/org/cloudfoundry/identity/uaa/provider/saml/LoginSamlAuthenticationProviderTests.java:875-890 | unmapped given and family names are the two halves of a local@domain email |
| SamlUsers.ModifyAttributes | server/src/test/java/org/cloudfoundry/identity/uaa/provider/saml/LoginSamlAuthenticationProviderTests.java:593-628 | the updated record is the login's candidate under the stored user's username and origin |
| SamlUsers.HaveUserAttributesChanged | server/src/test/java/org/cloudfoundry/identity/uaa/provider/saml/LoginSamlAuthenticationProviderTests.java:706-723 | a change is reported exactly when copying the tracked fields would alter the stored record |
| SamlUsers.EachTrackedFieldIsCompared | server/src/test/java/org/cloudfoundry/identity/uaa/provider/saml/LoginSamlAuthenticationProviderTests.java:706-723 | an identical copy is unchanged; a change in email, phone, verified, given or family name alone is detected; the username is not compared |
| SamlUsers.LookupIds | server/src/test/java/org/cloudfoundry/identity/uaa/provider/saml/LoginSamlAuthenticationProviderTests.java:854-866 | a lookup finds nothing, exactly one stored user, or reports more than one |
| SamlUsers.Reconcile | server/src/test/java/org/cloudfoundry/identity/uaa/provider/saml/LoginSamlAuthenticationProviderTests.java:539-866 | the table stays well formed; a failure changes nothing; a success stores the returned user and leaves every other user as it was; any write carries the login's time |
| SamlUsers.ReconciledUserIsFoundByName | server/src/test/java/org/cloudfoundry/identity/uaa/provider/saml/LoginSamlAuthenticationProviderTests.java:593-628 | after a successful login the user is the only one of that name and origin, and its tracked fields agree with the login |
| SamlUsers.ReconcileIsIdempotent | server/src/test/java/org/cloudfoundry/identity/uaa/provider/saml/LoginSamlAuthenticationProviderTests.java:695-704 | a second login with the same attributes returns the same user and leaves the table, modification time included, as the first left it |
| SamlUsers.NoShadowUserWhenCreationDisabled | server/src/test/java/org/cloudfoundry/identity/uaa/provider/saml/LoginSamlAuthenticationProviderTests.java:810-835 | with no match by name or email and creation disabled the login fails and creates nothing |
| SamlUsers.NewShadowUserCreated | server/src/test/java/org/cloudfoundry/identity/uaa/provider/saml/LoginSamlAuthenticationProviderTests.java:725-743 | with no match and creation enabled exactly one user, the login's, is added under a fresh id |
| SamlUsers.UserFoundByEmailIsRenamed | server/src/test/java/org/cloudfoundry/identity/uaa/provider/saml/LoginSamlAuthenticationProviderTests.java:837-852 | the one user with the mapped email keeps its id, takes the subject name and the login's fields; no user is added and every other user stays as it was |
| SamlUsers.SharedEmailIsAmbiguous | server/src/test/java/org/cloudfoundry/identity/uaa/provider/saml/LoginSamlAuthenticationProviderTests.java:854-866 | two users with the mapped email fail the login and change nothing |
| SamlUsers.DriftUpdatesTrackedFields | server/src/test/java/org/cloudfoundry/identity/uaa/provider/saml/LoginSamlAuthenticationProviderTests.java:593-628 | a user found by name is rewritten with the login's fields and time exactly when one drifted, else left untouched |
| SamlUsers.InviteAcceptanceRenamesInvitedUser | server/src/test/java/org/cloudfoundry/identity/uaa/provider/saml/LoginSamlAuthenticationProviderTests.java:539-553 | the invited user takes the subject name and keeps id, email and verified flag; every other user stays as it was |
| SamlUsers.InviteEmailMismatchChangesNothing | server/src/test/java/org/cloudfoundry/identity/uaa/provider/saml/LoginSamlAuthenticationProviderTests.java:555-575 | a mapped email other than the invited one fails the login and leaves the table as it was |
| SamlLogin.AuthnContextAccepted | server/src/test/java/org/cloudfoundry/identity/uaa/provider/saml/LoginSamlAuthenticationProviderTests.java:783-808 | an empty allowed list accepts every login; otherwise an assertion is accepted only when it carries at least one context class reference and every one it carries is allowed |
| SamlLogin.SingleContextAccepted | server/src/test/java/org/cloudfoundry/identity/uaa/provider/saml/LoginSamlAuthenticationProviderTests.java:783-808 | one asserted context passes exactly when the allowed list is empty or names it |
| SamlLogin.Principal | server/src/test/java/org/cloudfoundry/identity/uaa/provider/saml/LoginSamlAuthenticationProviderTests.java:386-421 | the principal names the shadow user and the provider's origin, holds the default groups, external groups drawn from the raw ones, "ext" as method, and exactly the asserted context references |
| SamlLogin.Login | server/src/test/java/org/cloudfoundry/identity/uaa/provider/saml/LoginSamlAuthenticationProviderTests.java:783-808 | a rejected context fails the login; a failure changes neither store; a successful login's user is stored |
| SamlLogin.UserInfoStoredOnlyWhenConfigured | server/src/test/java/org/cloudfoundry/identity/uaa/provider/saml/LoginSamlAuthenticationProviderTests.java:744-781 | the user-info record changes only when custom attributes are stored, and then holds the custom attributes and the whitelisted groups as roles |
| SamlLogin.LoginPrincipal | server/src/test/java/org/cloudfoundry/identity/uaa/provider/saml/LoginSamlAuthenticationProviderTests.java:386-455 | a successful login passed the context check and carries the authorities, external groups and custom attributes the definition and the mapping table give |
| SamlLogin.UserDatabase.RetrieveUserById | server/src/test/java/org/cloudfoundry/identity/uaa/provider/saml/LoginSamlAuthenticationProviderTests.java:546-548 | the stored user under an id, or none |
| SamlLogin.UserDatabase.Retrieve | server/src/test/java/org/cloudfoundry/identity/uaa/provider/saml/LoginSamlAuthenticationProviderTests.java:854-866 | a query expecting one row answers as LookupIds specifies |
| SamlLogin.UserDatabase.RetrieveUserByName | server/src/test/java/org/cloudfoundry/identity/uaa/provider/saml/LoginSamlAuthenticationProviderTests.java:696-704 | the lookup of the users with that username and origin |
| SamlLogin.UserDatabase.RetrieveUserByEmail | server/src/test/java/org/cloudfoundry/identity/uaa/provider/saml/LoginSamlAuthenticationProviderTests.java:643-644 | the lookup of the users with that email and origin |
| SamlLogin.UserDatabase.CreateUser | server/src/test/java/org/cloudfoundry/identity/uaa/provider/saml/LoginSamlAuthenticationProviderTests.java:868-873 | a new user is stored under the next free id with the given time; the user-info records stay |
| SamlLogin.UserDatabase.UpdateUser | server/src/test/java/org/cloudfoundry/identity/uaa/provider/saml/LoginSamlAuthenticationProviderTests.java:593-628 | an existing user is overwritten in place and the table stays well formed |
| SamlLogin.UserDatabase.GetUserInfo | server/src/test/java/org/cloudfoundry/identity/uaa/provider/saml/LoginSamlAuthenticationProviderTests.java:759-760 | the user-info record of a user, or none when none was stored |
| SamlLogin.UserDatabase.StoreUserInfo | server/src/test/java/org/cloudfoundry/identity/uaa/provider/saml/LoginSamlAuthenticationProviderTests.java:772-780 | the user's record is overwritten; users are untouched |
| SamlLogin.ExternalMembershipManager.MapExternalGroup | server/src/test/java/org/cloudfoundry/identity/uaa/provider/saml/LoginSamlAuthenticationProviderTests.java:244-246 | the mapping table gains exactly the given row |
| SamlLogin.ExternalMembershipManager.UnmapExternalGroup | server/src/test/java/org/cloudfoundry/identity/uaa/provider/saml/LoginSamlAuthenticationProviderTests.java:482-483 | the mapping table loses exactly the given row |
| SamlLogin.LoginSamlAuthenticationProvider.CreateIfMissing | server/src/test/java/org/cloudfoundry/identity/uaa/provider/saml/LoginSamlAuthenticationProviderTests.java:630-658 | the result and the new user table are those Reconcile specifies; user-info records stay |
| SamlLogin.LoginSamlAuthenticationProvider.Authenticate | server/src/test/java/org/cloudfoundry/identity/uaa/provider/saml/LoginSamlAuthenticationProviderTests.java:917-923 | the principal or error, the user table and the user-info records are those Login specifies |
| SamlExamples.FixtureGroupStrings | server/src/test/java/org/cloudfoundry/identity/uaa/provider/saml/LoginSamlAuthenticationProviderTests.java:185-199 | the group attributes read as written; the xs:any value counts by its text |
| SamlExamples.GroupAttributeNotSet | server/src/test/java/org/cloudfoundry/identity/uaa/provider/saml/LoginSamlAuthenticationProviderTests.java:500-506 | with no group mapping uaa.user is the only authority |
| SamlExamples.GroupMapping | server/src/test/java/org/cloudfoundry/identity/uaa/provider/saml/LoginSamlAuthenticationProviderTests.java:441-455 | the groups attribute grants uaa.user, uaa.saml.user and uaa.saml.admin |
| SamlExamples.MultipleGroupAttributes | server/src/test/java/org/cloudfoundry/identity/uaa/provider/saml/LoginSamlAuthenticationProviderTests.java:400-415 | both group attributes grant four authorities |
| SamlExamples.ExternalGroupsAsScopes | server/src/test/java/org/cloudfoundry/identity/uaa/provider/saml/LoginSamlAuthenticationProviderTests.java:423-439 | in AS_SCOPES mode the four raw groups and uaa.user are the authorities |
| SamlExamples.ExternalGroupNotMappedToScope | server/src/test/java/org/cloudfoundry/identity/uaa/provider/saml/LoginSamlAuthenticationProviderTests.java:479-499 | once saml.user and saml.admin are unmapped, uaa.user is the only authority |
| SamlExamples.WhitelistedExternalGroups | server/src/test/java/org/cloudfoundry/identity/uaa/provider/saml/LoginSamlAuthenticationProviderTests.java:508-537 | no whitelist keeps nothing, "saml.admin" keeps saml.admin, "saml*" keeps all three groups |
| SamlExamples.TypedValuesAsStrings | server/src/test/java/org/cloudfoundry/identity/uaa/provider/saml/LoginSamlAuthenticationProviderTests.java:457-477 | each typed sample reads as the string the test expects |
| SamlExamples.IntegerCustomAttribute | server/src/test/java/org/cloudfoundry/identity/uaa/provider/saml/LoginSamlAuthenticationProviderTests.java:473 | the integer 3 mapped as a custom attribute reaches the principal as "3" |
| SamlExamples.CustomAttributesOfFixture | server/src/test/java/org/cloudfoundry/identity/uaa/provider/saml/LoginSamlAuthenticationProviderTests.java:892-915 | two custom mappings give exactly two custom attributes, the manager one with both values |
| SamlExamples.DefaultValuesIfNotMapped | server/src/test/java/org/cloudfoundry/identity/uaa/provider/saml/LoginSamlAuthenticationProviderTests.java:875-890 | with only the email mapped the names are "marissa.bloggs" and "test.com" and no custom attribute appears |
| SamlExamples.ShadowAccountWithMappedAttributes | server/src/test/java/org/cloudfoundry/identity/uaa/provider/saml/LoginSamlAuthenticationProviderTests.java:725-743 | the mapped given and family names, email and phone reach the user |
| SamlExamples.MappedUserFields | server/src/test/java/org/cloudfoundry/identity/uaa/provider/saml/LoginSamlAuthenticationProviderTests.java:728-732 | any credential read through that mapping gives the user exactly those four attribute values |
| SamlExamples.EmailSynthesisNoAt | server/src/test/java/org/cloudfoundry/identity/uaa/provider/saml/LoginSamlAuthenticationProviderTests.java:660-667 | "new-uaa-principal" gets the unconfigured default domain |
| SamlExamples.EmailSynthesisLeadingAt | server/src/test/java/org/cloudfoundry/identity/uaa/provider/saml/LoginSamlAuthenticationProviderTests.java:669-676 | "@new-uaa-principal" gives the same email as without the '@' |
| SamlExamples.EmailSynthesisTrailingAt | server/src/test/java/org/cloudfoundry/identity/uaa/provider/saml/LoginSamlAuthenticationProviderTests.java:678-684 | "new-uaa-principal@" gives the same email as without the '@' |
| SamlExamples.EmailSynthesisMiddleAt | server/src/test/java/org/cloudfoundry/identity/uaa/provider/saml/LoginSamlAuthenticationProviderTests.java:686-692 | "new-u@a-principal" is its own email |
| SamlExamples.AuthnContextFixtures | server/src/test/java/org/cloudfoundry/identity/uaa/provider/saml/LoginSamlAuthenticationProviderTests.java:783-808 | the password context fails against two other contexts and passes against itself or no restriction |
| SamlScenarios.RepeatedLoginKeepsUser | server/src/test/java/org/cloudfoundry/identity/uaa/provider/saml/LoginSamlAuthenticationProviderTests.java:695-704 | the user read after a second identical login is the one read after the first, modification time included |
| SamlScenarios.NoShadowAccountWhenCreationDisabled | server/src/test/java/org/cloudfoundry/identity/uaa/provider/saml/LoginSamlAuthenticationProviderTests.java:810-835 | the login fails as creation-disabled and no user of that name exists |
| SamlScenarios.InvitedUserTakesLoginName | server/src/test/java/org/cloudfoundry/identity/uaa/provider/saml/LoginSamlAuthenticationProviderTests.java:539-553 | the invited user is renamed to the login name, keeps its email and stays unverified |
| SamlScenarios.InvitedUserEmailMismatch | server/src/test/java/org/cloudfoundry/identity/uaa/provider/saml/LoginSamlAuthenticationProviderTests.java:555-575 | a different mapped email fails the login and the invited user is unchanged and unverified |
| SamlScenarios.UserInfoStoredOnceConfigured | server/src/test/java/org/cloudfoundry/identity/uaa/provider/saml/LoginSamlAuthenticationProviderTests.java:744-781 | no user-info record after a non-storing login; after a storing one, the custom attributes and whitelisted groups |
| SamlScenarios.ChangedAttributesUpdateUser | server/src/test/java/org/cloudfoundry/identity/uaa/provider/saml/LoginSamlAuthenticationProviderTests.java:593-628 | a second login with other attributes keeps the user's id and name and takes the new tracked fields |
| SamlScenarios.OtherNameSameEmailRenamesUser | server/src/test/java/org/cloudfoundry/identity/uaa/provider/saml/LoginSamlAuthenticationProviderTests.java:630-658 | createIfMissing under a new name with the same email renames the existing user, same id |
| SamlScenarios.ExistingEmailUserIsRenamed | server/src/test/java/org/cloudfoundry/identity/uaa/provider/saml/LoginSamlAuthenticationProviderTests.java:837-852 | the login finds the existing user by email, renames it, and the store still holds one user |
| SamlScenarios.SharedEmailFailsLogin | server/src/test/java/org/cloudfoundry/identity/uaa/provider/saml/LoginSamlAuthenticationProviderTests.java:854-866 | two users with the mapped email fail the login and the store still holds two users |
| ClientMetadata.Code | uaa/src/test/java/org/cloudfoundry/identity/uaa/client/ClientMetadataAdminEndpointsMockMvcTest.java:72-87 | only Ok and Created are success codes |
| ClientMetadata.Create | uaa/src/test/java/org/cloudfoundry/identity/uaa/client/ClientMetadataAdminEndpointsMockMvcTest.java:72-114 | only a 201 changes the table; the table stays well formed and the client registry is untouched |
| ClientMetadata.Retrieve | uaa/src/test/java/org/cloudfoundry/identity/uaa/client/ClientMetadataAdminEndpointsMockMvcTest.java:116-134 | 200 with the stored entry exactly when metadata exists |
| ClientMetadata.Update | uaa/src/test/java/org/cloudfoundry/identity/uaa/client/ClientMetadataAdminEndpointsMockMvcTest.java:160-224 | only a 200 changes the table; no entry is added or removed |
| ClientMetadata.Delete | uaa/src/test/java/org/cloudfoundry/identity/uaa/client/ClientMetadataAdminEndpointsMockMvcTest.java:226-278 | only a 200 changes the table; no entry is added |
| ClientMetadata.WritesNeedWriteScope | uaa/src/test/java/org/cloudfoundry/identity/uaa/client/ClientMetadataAdminEndpointsMockMvcTest.java:98-114 | without clients.write every write is 403 and changes nothing, whatever the client |
| ClientMetadata.CreateOutcomes | uaa/src/test/java/org/cloudfoundry/identity/uaa/client/ClientMetadataAdminEndpointsMockMvcTest.java:72-96 | 201 exactly for a registered client without metadata, 404 exactly for an unknown client, 409 exactly for existing metadata |
| ClientMetadata.CreatedIsRetrieved | uaa/src/test/java/org/cloudfoundry/identity/uaa/client/ClientMetadataAdminEndpointsMockMvcTest.java:116-125 | created metadata reads back at version 1; other clients read as before |
| ClientMetadata.SecondCreateConflicts | uaa/src/test/java/org/cloudfoundry/identity/uaa/client/ClientMetadataAdminEndpointsMockMvcTest.java:89-96 | a second create is 409 and changes nothing |
| ClientMetadata.UpdateOutcomes | uaa/src/test/java/org/cloudfoundry/identity/uaa/client/ClientMetadataAdminEndpointsMockMvcTest.java:185-224 | 200 exactly for the current version of existing metadata, 412 exactly for another version of existing metadata, 404 exactly for missing metadata, 400 without If-Match |
| ClientMetadata.UpdatedIsRetrieved | uaa/src/test/java/org/cloudfoundry/identity/uaa/client/ClientMetadataAdminEndpointsMockMvcTest.java:160-183 | an update is what a later read returns, one version on; other clients read as before |
| ClientMetadata.StaleVersionIsRejected | uaa/src/test/java/org/cloudfoundry/identity/uaa/client/ClientMetadataAdminEndpointsMockMvcTest.java:185-204 | after an update, a write that still names the old version is 412 and changes nothing |
| ClientMetadata.DeleteOutcomes | uaa/src/test/java/org/cloudfoundry/identity/uaa/client/ClientMetadataAdminEndpointsMockMvcTest.java:226-278 | 200 exactly for the current version of existing metadata, 412 exactly for another version of existing metadata, 404 exactly for missing metadata, 400 without If-Match |
| ClientMetadata.DeleteKeepsOtherClients | uaa/src/test/java/org/cloudfoundry/identity/uaa/client/ClientMetadataAdminEndpointsMockMvcTest.java:226-237 | a delete, whatever its outcome, leaves every other client's metadata reading as before |
| ClientMetadata.DeleteThenCreateStartsOver | uaa/src/test/java/org/cloudfoundry/identity/uaa/client/ClientMetadataAdminEndpointsMockMvcTest.java:226-237 | deleted metadata reads as 404 and can be created again at version 1 |
| ClientMetadata.ClientMetadataEndpoints.AddClientDetails | uaa/src/test/java/org/cloudfoundry/identity/uaa/client/ClientMetadataAdminEndpointsMockMvcTest.java:74-75 | the client is registered and no metadata changes |
| ClientMetadata.ClientMetadataEndpoints.CreateClientMetadata | uaa/src/test/java/org/cloudfoundry/identity/uaa/client/ClientMetadataAdminEndpointsMockMvcTest.java:287-296 | the response and the new table are those Create specifies |
| ClientMetadata.ClientMetadataEndpoints.RetrieveClientMetadata | uaa/src/test/java/org/cloudfoundry/identity/uaa/client/ClientMetadataAdminEndpointsMockMvcTest.java:280-285 | 200 with the stored entry exactly when metadata exists, else 404 |
| ClientMetadata.ClientMetadataEndpoints.RetrieveAllClientMetadata | uaa/src/test/java/org/cloudfoundry/identity/uaa/client/ClientMetadataAdminEndpointsMockMvcTest.java:136-158 | the listing holds every stored entry exactly once and nothing else |
| ClientMetadata.ClientMetadataEndpoints.UpdateClientMetadata | uaa/src/test/java/org/cloudfoundry/identity/uaa/client/ClientMetadataAdminEndpointsMockMvcTest.java:160-224 | the response and the new table are those Update specifies |
| ClientMetadata.ClientMetadataEndpoints.DeleteClientMetadata | uaa/src/test/java/org/cloudfoundry/identity/uaa/client/ClientMetadataAdminEndpointsMockMvcTest.java:226-278 | the response and the new table are those Delete specifies |
| ClientMetadataScenarios.CreateForRegisteredClient | uaa/src/test/java/org/cloudfoundry/identity/uaa/client/ClientMetadataAdminEndpointsMockMvcTest.java:72-79 | 201 with the metadata at version 1 |
| ClientMetadataScenarios.CreateForUnknownClient | uaa/src/test/java/org/cloudfoundry/identity/uaa/client/ClientMetadataAdminEndpointsMockMvcTest.java:81-87 | 404 |
| ClientMetadataScenarios.CreateTwice | uaa/src/test/java/org/cloudfoundry/identity/uaa/client/ClientMetadataAdminEndpointsMockMvcTest.java:89-96 | 201, then 409 |
| ClientMetadataScenarios.CreateWithoutWriteScope | uaa/src/test/java/org/cloudfoundry/identity/uaa/client/ClientMetadataAdminEndpointsMockMvcTest.java:98-114 | 403 even though the client is unknown |
| ClientMetadataScenarios.RetrieveCreatedAndUnknown | uaa/src/test/java/org/cloudfoundry/identity/uaa/client/ClientMetadataAdminEndpointsMockMvcTest.java:116-134 | 200 with the created entry; 404 for another client |
| ClientMetadataScenarios.RetrieveAllAfterThreeCreates | uaa/src/test/java/org/cloudfoundry/identity/uaa/client/ClientMetadataAdminEndpointsMockMvcTest.java:136-158 | the listing contains each of the three clients |
| ClientMetadataScenarios.UpdateWithCurrentVersion | uaa/src/test/java/org/cloudfoundry/identity/uaa/client/ClientMetadataAdminEndpointsMockMvcTest.java:160-183 | If-Match 1 is 200 and the new launch URL is in the answer and in a later read, at version 2 |
| ClientMetadataScenarios.UpdateWithStaleVersion | uaa/src/test/java/org/cloudfoundry/identity/uaa/client/ClientMetadataAdminEndpointsMockMvcTest.java:185-204 | If-Match 100 is 412 and the entry reads as created |
| ClientMetadataScenarios.UpdateWithoutVersion | uaa/src/test/java/org/cloudfoundry/identity/uaa/client/ClientMetadataAdminEndpointsMockMvcTest.java:206-224 | no If-Match is 400 |
| ClientMetadataScenarios.DeleteWithCurrentVersion | uaa/src/test/java/org/cloudfoundry/identity/uaa/client/ClientMetadataAdminEndpointsMockMvcTest.java:226-237 | If-Match 1 is 200 and a later read is 404 |
| ClientMetadataScenarios.DeleteUnknown | uaa/src/test/java/org/cloudfoundry/identity/uaa/client/ClientMetadataAdminEndpointsMockMvcTest.java:239-247 | deleting metadata of an unknown client is 404 |
| ClientMetadataScenarios.DeleteWithStaleVersion | uaa/src/test/java/org/cloudfoundry/identity/uaa/client/ClientMetadataAdminEndpointsMockMvcTest.java:249-263 | If-Match 100 is 412 and the entry reads as created |
| ClientMetadataScenarios.DeleteWithoutVersion | uaa/src/test/java/org/cloudfoundry/identity/uaa/client/ClientMetadataAdminEndpointsMockMvcTest.java:265-278 | no If-Match is 400 and the entry is still there |

## Left out

- The Java implementation of `LoginSamlAuthenticationProvider` is not modelled line by line. The Dafny class of that name follows what the provider's tests assert. Where they are silent the model makes a choice, and the lines below name each one.
- Validation of the SAML response, signatures, XML parsing and the assertion consumer are left out. The model starts from the validated credential: NameID, attributes and context class references.
- Authentication events (the three published events, `ScimUserBootstrap`), relay state and the saved-request redirect are left out, because they are side channels that do not feed the login's outcome.
- SamlAttributes.StringValueOf: an xs:dateTime value is kept as its own rendering, because Joda-Time's `DateTime.toString` format is not part of this model.
- SamlAttributes.IntToDecimal: the attribute's Java `Integer` range is not modelled, because the model's integers are unbounded.
- SamlUsers.SynthesizeEmail: a name with '@' that is not of the form local@domain loses every '@' and gets the zone's domain. For "a@b@c" that gives "abc@" + domain, and for "@" it gives "@" + domain. The tests at lines 660-692 fix only names without '@', with one leading or trailing '@', or with one '@' inside. Keeping "a@b@c" unchanged would fit those tests equally well.
- SamlUsers.GetUser: an unmapped given name is the email's text before its first '@'. An unmapped family name is its text between the first and the second '@'. Either one is "" when that text is missing. This happens for an email without '@' ("a"), one ending at its first '@' ("a@", "@"), or the empty email. The tests at lines 875-890 fix only the local@domain case. A split-based implementation could fail on those other emails instead of giving "".
- SamlUsers.Reconcile: emails are compared exactly, with no case folding, because the store's collation is not part of this model.
- SamlUsers.Reconcile: on invite acceptance the email is checked only when one is mapped. A login with no email mapping renames the invited user unconditionally, as the invite test does.
- SamlLogin.AuthnContextAccepted: when an assertion carries several context class references, every one must be allowed. The tests at lines 783-808 assert a single reference, so accepting when any one is allowed would fit them equally well.
- SamlLogin.Login: the user-info roles are the whitelisted external groups, as the custom-attributes test asserts (one role, saml.admin), not the full authority list.
- Identity zones, multi-tenancy, JDBC persistence and concurrent first logins are left out. The model has one zone and one sequential store; the zone's default groups and email domain are parameters.
- The clock is the `now` parameter of each login.
- For the client metadata, MockMvc, HTTP transport, JSON and token acquisition are left out. The caller's clients.write scope is a boolean.
- The clients.read check on reads is left out: no test exercises it.
- ClientMetadata.Update: an update of missing metadata is 404. No test at lines 160-224 updates missing metadata, so this mirrors the delete test at lines 239-247.
- ClientMetadata.Update: a missing If-Match is 400 before existence is looked at, so it is 400 even for a client without metadata; ClientMetadata.Delete checks in the same order. The tests at lines 206-224 and 265-278 send no If-Match only for existing metadata, so the opposite order would fit them equally well.
- If-Match values that are not integers, and the `*` wildcard, are left out.
- ClientMetadata.ClientMetadataEndpoints.RetrieveAllClientMetadata: the order of the listing is left unspecified, as the database leaves it.
- ClientMetadataScenarios.CreateForRegisteredClient and the other scenarios take the metadata as a parameter, because the default field values of the metadata object are not part of this model.

/**
  Login sequences of the SAML provider's tests, run against a fresh user
  store: each method drives LoginSamlAuthenticationProvider the way one test
  does and states what the test observes afterwards. The credential and the
  provider definition are parameters; a precondition carries what the test's
  configuration fixes (a mapped or unmapped email, creation on or off).
 */
module SamlScenarios {
  import opened Wrappers
  import opened SamlAttributes
  import opened SamlGroups
  import opened SamlUsers
  import opened SamlLogin

  /** The invited user of the invitation tests: a uaa-origin account, not yet verified. */
  const InvitedEmail: string := "marissa.invited@test.org"
  const InvitedRecord: UserRecord :=
    UserRecord(InvitedEmail, "uaa", InvitedEmail, "Marissa", "Bloggs", None, false)

  /** A provider over an empty user store and an empty group mapping table. */
  method NewProvider(zone: ZoneConfig) returns (provider: LoginSamlAuthenticationProvider)
    ensures fresh(provider.userDatabase) && fresh(provider.externalMembershipManager)
    ensures provider.userDatabase.Valid() && provider.zone == zone
    ensures provider.userDatabase.users == map[] && provider.userDatabase.nextId == 0
    ensures provider.userDatabase.userInfo == map[]
  {
    var db := new UserDatabase();
    var manager := new ExternalMembershipManager();
    provider := new LoginSamlAuthenticationProvider(db, manager, zone);
  }

  /** dont_update_existingUser_if_attributes_areTheSame: a repeated login leaves the stored user, and its modification time, as they were. */
  method RepeatedLoginKeepsUser(zone: ZoneConfig, def: ProviderDefinition, cred: Credential, now: nat, later: nat)
    returns (first: Lookup, second: Lookup)
    requires AuthnContextAccepted(def.authnContext, cred.authnContextClassRefs) && def.addShadowUserOnLogin
    ensures first.Unique? && first.user.modified == now
    ensures second == first
  {
    var provider := NewProvider(zone);
    var db := provider.userDatabase;
    var attrs := UserAttributes(def, cred);
    var t0 := db.Table();
    NewShadowUserCreated(t0, cred.nameId, def.originKey, attrs, zone.emailDomain, now);
    var r1 := provider.Authenticate(def, cred, None, now);
    ReconciledUserIsFoundByName(t0, cred.nameId, def.originKey, true, attrs, zone.emailDomain, now);
    LookupSingleton(db.Table(), r1.value.userId);
    first := db.RetrieveUserByName(cred.nameId, def.originKey);
    ReconcileIsIdempotent(t0, cred.nameId, def.originKey, true, attrs, zone.emailDomain, now, later);
    var r2 := provider.Authenticate(def, cred, None, later);
    second := db.RetrieveUserByName(cred.nameId, def.originKey);
  }

  /** shadowAccountNotCreated_givenShadowAccountCreationDisabled: the login fails and no user of that name exists. */
  method NoShadowAccountWhenCreationDisabled(zone: ZoneConfig, def: ProviderDefinition, cred: Credential, now: nat)
    returns (r: Result<UaaAuthentication, LoginError>, byName: Lookup)
    requires AuthnContextAccepted(def.authnContext, cred.authnContextClassRefs) && !def.addShadowUserOnLogin
    ensures r == Failure(ShadowAccountCreationDisabled)
    ensures byName == NoMatch
  {
    var provider := NewProvider(zone);
    var db := provider.userDatabase;
    NoShadowUserWhenCreationDisabled(db.Table(), cred.nameId, def.originKey, UserAttributes(def, cred), zone.emailDomain, now);
    r := provider.Authenticate(def, cred, None, now);
    byName := db.RetrieveUserByName(cred.nameId, def.originKey);
  }

  /**
    update_invitedUser_whose_username_is_notEmail: with no email mapping, the
    invited user takes the login's name and keeps its email and its
    unverified state.
   */
  method InvitedUserTakesLoginName(zone: ZoneConfig, def: ProviderDefinition, cred: Credential, now: nat, later: nat)
    returns (invited: Option<StoredUser>)
    requires AuthnContextAccepted(def.authnContext, cred.authnContextClassRefs)
    requires EmailAttributeName !in def.attributeMappings
    ensures invited.Some?
    ensures invited.value.record.username == cred.nameId
    ensures invited.value.record.email == InvitedEmail && !invited.value.record.verified
  {
    var provider := NewProvider(zone);
    var db := provider.userDatabase;
    var u := db.CreateUser(InvitedRecord, now);
    assert EmailAttributeName !in UserAttributes(def, cred);
    InviteAcceptanceRenamesInvitedUser(db.Table(), cred.nameId, def.originKey, def.addShadowUserOnLogin,
                                       UserAttributes(def, cred), zone.emailDomain, later, u.id);
    var r := provider.Authenticate(def, cred, Some(u.id), later);
    invited := db.RetrieveUserById(u.id);
  }

  /**
    invitedUser_authentication_whenAuthenticatedEmailDoesNotMatchInvitedEmail:
    a mapped email other than the invited one fails the login, and the
    invited user is left unverified under its own name.
   */
  method InvitedUserEmailMismatch(zone: ZoneConfig, def: ProviderDefinition, cred: Credential, now: nat, later: nat)
    returns (r: Result<UaaAuthentication, LoginError>, invited: Option<StoredUser>)
    requires AuthnContextAccepted(def.authnContext, cred.authnContextClassRefs)
    requires GetFirst(UserAttributes(def, cred), EmailAttributeName).Some?
    requires GetFirst(UserAttributes(def, cred), EmailAttributeName).value != InvitedEmail
    ensures r == Failure(EmailMismatch)
    ensures invited.Some? && invited.value.record == InvitedRecord
  {
    var provider := NewProvider(zone);
    var db := provider.userDatabase;
    var u := db.CreateUser(InvitedRecord, now);
    InviteEmailMismatchChangesNothing(db.Table(), cred.nameId, def.originKey, def.addShadowUserOnLogin,
                                      UserAttributes(def, cred), zone.emailDomain, later, u.id);
    r := provider.Authenticate(def, cred, Some(u.id), later);
    invited := db.RetrieveUserById(u.id);
  }

  /**
    custom_user_attributes_stored_if_configured: a login whose provider does
    not store custom attributes leaves no user-info record; a later login of
    the same user through a provider that does stores that login's custom
    attributes and whitelisted external groups.
   */
  method UserInfoStoredOnceConfigured(zone: ZoneConfig, def: ProviderDefinition, cred: Credential,
                                      def2: ProviderDefinition, now: nat, later: nat)
    returns (before: Option<UserInfo>, after: Option<UserInfo>)
    requires AuthnContextAccepted(def.authnContext, cred.authnContextClassRefs) && def.addShadowUserOnLogin
    requires !def.storeCustomAttributes
    requires def2 == def.(attributeMappings := def2.attributeMappings,
                          externalGroupsWhitelist := def2.externalGroupsWhitelist, storeCustomAttributes := true)
    requires AuthnContextAccepted(def2.authnContext, cred.authnContextClassRefs)
    ensures before == None
    ensures after == Some(UserInfo(CustomAttributes(UserAttributes(def2, cred)),
                                   FilterExternalGroups(def2.externalGroupsWhitelist, RawGroups(def2, cred))))
  {
    var provider := NewProvider(zone);
    var db := provider.userDatabase;
    var attrs := UserAttributes(def, cred);
    var t0 := db.Table();
    NewShadowUserCreated(t0, cred.nameId, def.originKey, attrs, zone.emailDomain, now);
    var r1 := provider.Authenticate(def, cred, None, now);
    var id := r1.value.userId;
    before := db.GetUserInfo(id);
    ReconciledUserIsFoundByName(t0, cred.nameId, def.originKey, true, attrs, zone.emailDomain, now);
    DriftUpdatesTrackedFields(db.Table(), cred.nameId, def.originKey, true, UserAttributes(def2, cred),
                              zone.emailDomain, later, id);
    var r2 := provider.Authenticate(def2, cred, None, later);
    after := db.GetUserInfo(id);
  }

  /**
    update_existingUser_if_attributes_different: a second login of the same
    name, with other attributes, keeps the user's id and brings its tracked
    fields in line with the new login.
   */
  method ChangedAttributesUpdateUser(zone: ZoneConfig, def: ProviderDefinition, cred: Credential,
                                     def2: ProviderDefinition, cred2: Credential, now: nat, later: nat)
    returns (first: Lookup, second: Lookup)
    requires AuthnContextAccepted(def.authnContext, cred.authnContextClassRefs) && def.addShadowUserOnLogin
    requires AuthnContextAccepted(def2.authnContext, cred2.authnContextClassRefs)
    requires cred2.nameId == cred.nameId && def2.originKey == def.originKey
    ensures first.Unique? && second.Unique? && second.user.id == first.user.id
    ensures var candidate := GetUser(cred.nameId, def.originKey, UserAttributes(def2, cred2), zone.emailDomain);
            && second.user.record == ModifyAttributes(first.user.record, candidate)
            && second.user.record.username == cred.nameId
  {
    var provider := NewProvider(zone);
    var db := provider.userDatabase;
    var attrs := UserAttributes(def, cred);
    var t0 := db.Table();
    NewShadowUserCreated(t0, cred.nameId, def.originKey, attrs, zone.emailDomain, now);
    var r1 := provider.Authenticate(def, cred, None, now);
    var id := r1.value.userId;
    ReconciledUserIsFoundByName(t0, cred.nameId, def.originKey, true, attrs, zone.emailDomain, now);
    LookupSingleton(db.Table(), id);
    first := db.RetrieveUserByName(cred.nameId, def.originKey);
    var t1 := db.Table();
    var attrs2 := UserAttributes(def2, cred2);
    DriftUpdatesTrackedFields(t1, cred.nameId, def.originKey, def2.addShadowUserOnLogin, attrs2, zone.emailDomain, later, id);
    ReconciledUserIsFoundByName(t1, cred.nameId, def.originKey, def2.addShadowUserOnLogin, attrs2, zone.emailDomain, later);
    var r2 := provider.Authenticate(def2, cred2, None, later);
    LookupSingleton(db.Table(), id);
    second := db.RetrieveUserByName(cred.nameId, def.originKey);
  }

  /**
    update_existingUser_if_username_different: after a login with a mapped
    email, creating the user of another name with that same email renames the
    existing user instead of adding one.
   */
  method OtherNameSameEmailRenamesUser(zone: ZoneConfig, def: ProviderDefinition, cred: Credential,
                                       newName: string, attrs: map<string, seq<string>>, now: nat, later: nat)
    returns (first: StoredUser, renamed: Result<StoredUser, LoginError>)
    requires AuthnContextAccepted(def.authnContext, cred.authnContextClassRefs) && def.addShadowUserOnLogin
    requires GetFirst(UserAttributes(def, cred), EmailAttributeName).Some?
    requires GetFirst(attrs, EmailAttributeName) == GetFirst(UserAttributes(def, cred), EmailAttributeName)
    requires newName != cred.nameId
    ensures renamed.Success? && renamed.value.id == first.id
    ensures renamed.value.record.username == newName && first.record.username == cred.nameId
  {
    var provider := NewProvider(zone);
    var db := provider.userDatabase;
    var attrs1 := UserAttributes(def, cred);
    var t0 := db.Table();
    NewShadowUserCreated(t0, cred.nameId, def.originKey, attrs1, zone.emailDomain, now);
    var r1 := provider.Authenticate(def, cred, None, now);
    first := db.users[r1.value.userId];
    var t1 := db.Table();
    assert t1.users == map[first.id := first];
    assert IdsByName(t1, newName, def.originKey) == {};
    assert IdsByEmail(t1, GetFirst(attrs, EmailAttributeName).value, def.originKey) == {first.id};
    UserFoundByEmailIsRenamed(t1, newName, def.originKey, false, attrs, zone.emailDomain, later, first.id);
    renamed := provider.CreateIfMissing(newName, def.originKey, false, attrs, None, later);
  }

  /** The user createSamlUser stores: a saml-origin account with the given username and email. */
  function SamlUser(username: string, origin: string, email: string): UserRecord {
    UserRecord(username, origin, email, "Marissa", "Bloggs", None, false)
  }

  /**
    should_NotCreateShadowAccount_AndInstead_UpdateExistingUserUsername_if_userWithEmailExists:
    the login finds the existing user by its mapped email and renames it; no
    shadow user is added.
   */
  method ExistingEmailUserIsRenamed(zone: ZoneConfig, def: ProviderDefinition, cred: Credential,
                                    existingName: string, now: nat, later: nat)
    returns (created: StoredUser, byName: Lookup, count: nat)
    requires AuthnContextAccepted(def.authnContext, cred.authnContextClassRefs)
    requires GetFirst(UserAttributes(def, cred), EmailAttributeName).Some?
    requires existingName != cred.nameId
    ensures byName.Unique? && byName.user.id == created.id
    ensures byName.user.record.username == cred.nameId
    ensures count == 1
  {
    var provider := NewProvider(zone);
    var db := provider.userDatabase;
    var attrs := UserAttributes(def, cred);
    var email := GetFirst(attrs, EmailAttributeName).value;
    created := db.CreateUser(SamlUser(existingName, def.originKey, email), now);
    var t1 := db.Table();
    assert t1.users == map[created.id := created];
    assert IdsByName(t1, cred.nameId, def.originKey) == {};
    assert IdsByEmail(t1, email, def.originKey) == {created.id};
    UserFoundByEmailIsRenamed(t1, cred.nameId, def.originKey, def.addShadowUserOnLogin, attrs, zone.emailDomain, later, created.id);
    var r := provider.Authenticate(def, cred, None, later);
    assert db.users.Keys == {created.id};
    assert IdsByName(db.Table(), cred.nameId, def.originKey) == {created.id};
    LookupSingleton(db.Table(), created.id);
    byName := db.RetrieveUserByName(cred.nameId, def.originKey);
    count := |db.users|;
  }

  /** error_when_multipleUsers_with_sameEmail: two users with the mapped email make the login fail and add no user. */
  method SharedEmailFailsLogin(zone: ZoneConfig, def: ProviderDefinition, cred: Credential,
                               name1: string, name2: string, now: nat, later: nat)
    returns (r: Result<UaaAuthentication, LoginError>, count: nat)
    requires AuthnContextAccepted(def.authnContext, cred.authnContextClassRefs)
    requires GetFirst(UserAttributes(def, cred), EmailAttributeName).Some?
    requires name1 != cred.nameId && name2 != cred.nameId
    ensures r == Failure(AmbiguousUserMatch)
    ensures count == 2
  {
    var provider := NewProvider(zone);
    var db := provider.userDatabase;
    var attrs := UserAttributes(def, cred);
    var email := GetFirst(attrs, EmailAttributeName).value;
    var a := db.CreateUser(SamlUser(name1, def.originKey, email), now);
    var b := db.CreateUser(SamlUser(name2, def.originKey, email), now);
    var t2 := db.Table();
    assert t2.users == map[a.id := a, b.id := b];
    TwoUsersOfOneEmail(t2, a, b, cred.nameId, def.originKey, email);
    SharedEmailIsAmbiguous(t2, cred.nameId, def.originKey, def.addShadowUserOnLogin, attrs, zone.emailDomain, later, a.id, b.id);
    ReconcileFailureFailsLogin(t2, db.userInfo, zone, provider.externalMembershipManager.mappings, def, cred, None, later);
    r := provider.Authenticate(def, cred, None, later);
    assert db.users.Keys == {a.id, b.id};
    count := |db.users|;
  }

  /** A table of two users who share an email and carry other names: the name finds nobody, the email both. */
  lemma TwoUsersOfOneEmail(t: UserTable, a: StoredUser, b: StoredUser, name: string, origin: string, email: string)
    requires t.users == map[a.id := a, b.id := b]
    requires a.record.username != name && b.record.username != name
    requires a.record.email == email && b.record.email == email
    requires a.record.origin == origin && b.record.origin == origin
    ensures IdsByName(t, name, origin) == {}
    ensures {a.id, b.id} <= IdsByEmail(t, email, origin)
  {
  }
}

/**
  A SAML login end to end: the authentication-context check, the user store
  and the external-group mapping table as mutable objects, the provider whose
  createIfMissing and authenticate run against them, and the principal and
  user-info record a successful login produces.
 */
module SamlLogin {
  import opened Wrappers
  import opened SamlAttributes
  import opened SamlGroups
  import opened SamlUsers

  // ---------------------------------------------------------------------------
  // Authentication context

  /**
    An empty allowed list admits every login; otherwise the assertion must
    carry at least one class reference and each of them must be allowed.
   */
  predicate AuthnContextAccepted(allowed: seq<string>, asserted: seq<string>)
    ensures allowed == [] ==> AuthnContextAccepted(allowed, asserted)
    ensures allowed != [] && AuthnContextAccepted(allowed, asserted) ==>
              asserted != [] && forall c :: c in asserted ==> c in allowed
    ensures allowed != [] && asserted == [] ==> !AuthnContextAccepted(allowed, asserted)
  {
    allowed == [] || (asserted != [] && forall i :: 0 <= i < |asserted| ==> asserted[i] in allowed)
  }

  /** With a single asserted class reference, the check passes exactly when the list is empty or names it. */
  lemma SingleContextAccepted(allowed: seq<string>, ref: string)
    ensures AuthnContextAccepted(allowed, [ref]) <==> allowed == [] || ref in allowed
  {
    assert [ref][0] == ref;
  }

  // ---------------------------------------------------------------------------
  // Outputs of a login

  /** The zone's settings a login reads: the groups every user holds and the domain for synthesised emails. */
  datatype ZoneConfig = ZoneConfig(defaultGroups: set<string>, emailDomain: string)

  const ExternalAuthenticationMethod: string := "ext"

  /** The principal of a successful login. */
  datatype UaaAuthentication = UaaAuthentication(
    userId: UserId,
    username: string,
    origin: string,
    authorities: set<string>,
    externalGroups: set<string>,
    userAttributes: map<string, seq<string>>,
    authenticationMethods: set<string>,
    authContextClassRef: set<string>)

  /** The durable per-user record of custom attributes and roles. */
  datatype UserInfo = UserInfo(userAttributes: map<string, seq<string>>, roles: set<string>)

  datatype LoginOutcome = LoginOutcome(
    result: Result<UaaAuthentication, LoginError>,
    table: UserTable,
    userInfo: map<UserId, UserInfo>)

  /** The principal of a login whose shadow user is u. */
  function Principal(zone: ZoneConfig, mappings: set<ExternalGroupMapping>, def: ProviderDefinition,
                     cred: Credential, u: StoredUser): (p: UaaAuthentication)
    ensures p.userId == u.id && p.username == u.record.username
    ensures p.origin == def.originKey
    ensures zone.defaultGroups <= p.authorities
    ensures p.externalGroups <= RawGroups(def, cred)
    ensures p.authenticationMethods == {"ext"}
    ensures forall c :: c in p.authContextClassRef <==> c in cred.authnContextClassRefs
  {
    var raw := RawGroups(def, cred);
    UaaAuthentication(
      u.id,
      u.record.username,
      def.originKey,
      Authorities(zone.defaultGroups, def.groupMappingMode, mappings, def.originKey, raw),
      FilterExternalGroups(def.externalGroupsWhitelist, raw),
      CustomAttributes(UserAttributes(def, cred)),
      {ExternalAuthenticationMethod},
      set c | c in cred.authnContextClassRefs)
  }

  /**
    A whole login: the context check, then reconciliation of the shadow user,
    then the principal, and the user-info record overwritten when the provider
    stores custom attributes. A failure changes neither store.
   */
  ghost function Login(t: UserTable, info: map<UserId, UserInfo>, zone: ZoneConfig,
                       mappings: set<ExternalGroupMapping>, def: ProviderDefinition,
                       cred: Credential, invited: Option<UserId>, now: nat): (r: LoginOutcome)
    requires Wf(t)
    ensures Wf(r.table)
    ensures r.result.Failure? ==> r.table == t && r.userInfo == info
    ensures !AuthnContextAccepted(def.authnContext, cred.authnContextClassRefs) ==>
              r.result == Failure(AuthnContextRejected)
    ensures r.result.Success? ==> r.result.value.userId in r.table.users
  {
    if !AuthnContextAccepted(def.authnContext, cred.authnContextClassRefs) then
      LoginOutcome(Failure(AuthnContextRejected), t, info)
    else
      var rec := Reconcile(t, cred.nameId, def.originKey, def.addShadowUserOnLogin,
                           UserAttributes(def, cred), invited, zone.emailDomain, now);
      match rec.result
      case Failure(e) => LoginOutcome(Failure(e), t, info)
      case Success(u) =>
        var p := Principal(zone, mappings, def, cred, u);
        var info' := if def.storeCustomAttributes then info[u.id := UserInfo(p.userAttributes, p.externalGroups)] else info;
        LoginOutcome(Success(p), rec.table, info')
  }

  /**
    The user-info record is written only by a successful login of a provider
    that stores custom attributes, and then holds that login's custom
    attributes and its whitelisted external groups as roles.
   */
  lemma UserInfoStoredOnlyWhenConfigured(t: UserTable, info: map<UserId, UserInfo>, zone: ZoneConfig,
                                         mappings: set<ExternalGroupMapping>, def: ProviderDefinition,
                                         cred: Credential, invited: Option<UserId>, now: nat)
    requires Wf(t)
    ensures var r := Login(t, info, zone, mappings, def, cred, invited, now);
            && (!def.storeCustomAttributes ==> r.userInfo == info)
            && (def.storeCustomAttributes && r.result.Success? ==>
                  var p := r.result.value;
                  r.userInfo == info[p.userId := UserInfo(p.userAttributes, p.externalGroups)])
  {
  }

  /** A successful login's principal is the shadow user's reconciliation result, dressed with groups and attributes. */
  lemma LoginPrincipal(t: UserTable, info: map<UserId, UserInfo>, zone: ZoneConfig,
                       mappings: set<ExternalGroupMapping>, def: ProviderDefinition,
                       cred: Credential, invited: Option<UserId>, now: nat)
    requires Wf(t)
    requires Login(t, info, zone, mappings, def, cred, invited, now).result.Success?
    ensures var p := Login(t, info, zone, mappings, def, cred, invited, now).result.value;
            var raw := RawGroups(def, cred);
            && AuthnContextAccepted(def.authnContext, cred.authnContextClassRefs)
            && p.authenticationMethods == {"ext"}
            && (forall c :: c in p.authContextClassRef <==> c in cred.authnContextClassRefs)
            && p.authorities == Authorities(zone.defaultGroups, def.groupMappingMode, mappings, def.originKey, raw)
            && p.externalGroups == FilterExternalGroups(def.externalGroupsWhitelist, raw)
            && p.userAttributes == CustomAttributes(UserAttributes(def, cred))
  {
  }

  /** Past the context check, a login fails exactly as the reconciliation of its user does, and changes nothing. */
  lemma ReconcileFailureFailsLogin(t: UserTable, info: map<UserId, UserInfo>, zone: ZoneConfig,
                                   mappings: set<ExternalGroupMapping>, def: ProviderDefinition,
                                   cred: Credential, invited: Option<UserId>, now: nat)
    requires Wf(t)
    requires AuthnContextAccepted(def.authnContext, cred.authnContextClassRefs)
    requires Reconcile(t, cred.nameId, def.originKey, def.addShadowUserOnLogin, UserAttributes(def, cred),
                       invited, zone.emailDomain, now).result.Failure?
    ensures var e := Reconcile(t, cred.nameId, def.originKey, def.addShadowUserOnLogin, UserAttributes(def, cred),
                               invited, zone.emailDomain, now).result.error;
            Login(t, info, zone, mappings, def, cred, invited, now) == LoginOutcome(Failure(e), t, info)
  {
  }

  // ---------------------------------------------------------------------------
  // The stores

  /** The user store: users by id, the next free id, and the user-info records. */
  class UserDatabase {
    var users: map<UserId, StoredUser>
    var nextId: UserId
    var userInfo: map<UserId, UserInfo>

    function Table(): UserTable
      reads this
    {
      UserTable(users, nextId)
    }

    ghost predicate Valid()
      reads this
    {
      Wf(Table())
    }

    constructor ()
      ensures Valid() && users == map[] && nextId == 0 && userInfo == map[]
    {
      users := map[];
      nextId := 0;
      userInfo := map[];
    }

    method RetrieveUserById(id: UserId) returns (r: Option<StoredUser>)
      ensures r.Some? <==> id in users
      ensures r.Some? ==> r.value == users[id]
    {
      r := if id in users then Some(users[id]) else None;
    }

    /** A lookup that expects at most one row. */
    method Retrieve(ids: set<UserId>) returns (r: Lookup)
      requires Valid() && ids <= users.Keys
      ensures r == LookupIds(Table(), ids)
    {
      if ids == {} {
        r := NoMatch;
      } else if |ids| == 1 {
        var id :| id in ids;
        r := Unique(users[id]);
        SingletonMember(ids, id, LookupIds(Table(), ids).user.id);
      } else {
        r := Ambiguous;
      }
    }

    method RetrieveUserByName(username: string, origin: string) returns (r: Lookup)
      requires Valid()
      ensures r == LookupIds(Table(), IdsByName(Table(), username, origin))
    {
      r := Retrieve(IdsByName(Table(), username, origin));
    }

    method RetrieveUserByEmail(email: string, origin: string) returns (r: Lookup)
      requires Valid()
      ensures r == LookupIds(Table(), IdsByEmail(Table(), email, origin))
    {
      r := Retrieve(IdsByEmail(Table(), email, origin));
    }

    /** Inserts a new user under the next free id. */
    method CreateUser(record: UserRecord, now: nat) returns (u: StoredUser)
      requires Valid()
      modifies this
      ensures Valid()
      ensures u == StoredUser(old(nextId), record, now)
      ensures Table() == Store(old(Table()), u)
      ensures userInfo == old(userInfo)
    {
      u := StoredUser(nextId, record, now);
      users := users[nextId := u];
      nextId := nextId + 1;
    }

    /** Overwrites a stored user. */
    method UpdateUser(u: StoredUser)
      requires Valid() && u.id in users
      modifies this
      ensures Valid()
      ensures Table() == Store(old(Table()), u)
      ensures userInfo == old(userInfo)
    {
      users := users[u.id := u];
    }

    /** The user-info record of a user, if one was stored. */
    method GetUserInfo(id: UserId) returns (r: Option<UserInfo>)
      ensures r.Some? <==> id in userInfo
      ensures r.Some? ==> r.value == userInfo[id]
    {
      r := if id in userInfo then Some(userInfo[id]) else None;
    }

    /** Overwrites the user-info record of a user. */
    method StoreUserInfo(id: UserId, info: UserInfo)
      modifies this
      ensures userInfo == old(userInfo)[id := info]
      ensures users == old(users) && nextId == old(nextId)
    {
      userInfo := userInfo[id := info];
    }
  }

  /** The table mapping external groups of an origin to local groups. */
  class ExternalMembershipManager {
    var mappings: set<ExternalGroupMapping>

    constructor ()
      ensures mappings == {}
    {
      mappings := {};
    }

    method MapExternalGroup(groupName: string, externalGroup: string, origin: string)
      modifies this
      ensures mappings == old(mappings) + {ExternalGroupMapping(groupName, externalGroup, origin)}
    {
      mappings := mappings + {ExternalGroupMapping(groupName, externalGroup, origin)};
    }

    method UnmapExternalGroup(groupName: string, externalGroup: string, origin: string)
      modifies this
      ensures mappings == old(mappings) - {ExternalGroupMapping(groupName, externalGroup, origin)}
    {
      mappings := mappings - {ExternalGroupMapping(groupName, externalGroup, origin)};
    }
  }

  // ---------------------------------------------------------------------------
  // The provider

  class LoginSamlAuthenticationProvider {
    const userDatabase: UserDatabase
    const externalMembershipManager: ExternalMembershipManager
    const zone: ZoneConfig

    constructor (userDatabase: UserDatabase, externalMembershipManager: ExternalMembershipManager, zone: ZoneConfig)
      ensures this.userDatabase == userDatabase
      ensures this.externalMembershipManager == externalMembershipManager
      ensures this.zone == zone
    {
      this.userDatabase := userDatabase;
      this.externalMembershipManager := externalMembershipManager;
      this.zone := zone;
    }

    /** Finds, updates, renames or creates the shadow user of a login, as Reconcile specifies. */
    method CreateIfMissing(subject: string, origin: string, addNew: bool, attrs: map<string, seq<string>>,
                           invited: Option<UserId>, now: nat) returns (r: Result<StoredUser, LoginError>)
      requires userDatabase.Valid()
      modifies userDatabase
      ensures userDatabase.Valid()
      ensures var spec := Reconcile(old(userDatabase.Table()), subject, origin, addNew, attrs, invited, zone.emailDomain, now);
              r == spec.result && userDatabase.Table() == spec.table
      ensures userDatabase.userInfo == old(userDatabase.userInfo)
    {
      var candidate := GetUser(subject, origin, attrs, zone.emailDomain);
      var mappedEmail := GetFirst(attrs, EmailAttributeName);
      if invited.Some? {
        var found := userDatabase.RetrieveUserById(invited.value);
        if found.None? {
          return Failure(InvitedUserNotFound);
        }
        var u := found.value;
        if mappedEmail.Some? && mappedEmail.value != u.record.email {
          return Failure(EmailMismatch);
        }
        if u.record.username == subject {
          return Success(u);
        }
        var merged := u.(record := u.record.(username := subject), modified := now);
        userDatabase.UpdateUser(merged);
        return Success(merged);
      }
      var byName := userDatabase.RetrieveUserByName(subject, origin);
      match byName {
        case Ambiguous =>
          return Failure(AmbiguousUserMatch);
        case Unique(u) =>
          if HaveUserAttributesChanged(u.record, candidate) {
            var updated := u.(record := ModifyAttributes(u.record, candidate), modified := now);
            userDatabase.UpdateUser(updated);
            return Success(updated);
          }
          return Success(u);
        case NoMatch =>
      }
      var byEmail := NoMatch;
      if mappedEmail.Some? {
        byEmail := userDatabase.RetrieveUserByEmail(mappedEmail.value, origin);
      }
      match byEmail {
        case Ambiguous =>
          return Failure(AmbiguousUserMatch);
        case Unique(u) =>
          var renamed := u.(record := ModifyAttributes(u.record.(username := subject), candidate), modified := now);
          userDatabase.UpdateUser(renamed);
          return Success(renamed);
        case NoMatch =>
      }
      if !addNew {
        return Failure(ShadowAccountCreationDisabled);
      }
      var created := userDatabase.CreateUser(candidate, now);
      return Success(created);
    }

    /** Authenticates a validated SAML credential, as Login specifies. */
    method Authenticate(def: ProviderDefinition, cred: Credential, invited: Option<UserId>, now: nat)
      returns (r: Result<UaaAuthentication, LoginError>)
      requires userDatabase.Valid()
      modifies userDatabase
      ensures userDatabase.Valid()
      ensures var spec := Login(old(userDatabase.Table()), old(userDatabase.userInfo), zone,
                                externalMembershipManager.mappings, def, cred, invited, now);
              r == spec.result && userDatabase.Table() == spec.table && userDatabase.userInfo == spec.userInfo
    {
      if !AuthnContextAccepted(def.authnContext, cred.authnContextClassRefs) {
        return Failure(AuthnContextRejected);
      }
      var attrs := UserAttributes(def, cred);
      var user := CreateIfMissing(cred.nameId, def.originKey, def.addShadowUserOnLogin, attrs, invited, now);
      if user.Failure? {
        return Failure(user.error);
      }
      var p := Principal(zone, externalMembershipManager.mappings, def, cred, user.value);
      if def.storeCustomAttributes {
        userDatabase.StoreUserInfo(user.value.id, UserInfo(p.userAttributes, p.externalGroups));
      }
      return Success(p);
    }
  }
}

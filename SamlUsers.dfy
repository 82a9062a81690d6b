/**
  The shadow user of a SAML login: the record a login builds from the subject
  name and the mapped attributes (with the email synthesised from the name and
  the names defaulted from the email when unmapped), the five-field drift test,
  the user table, and the reconciliation of a login against that table:
  invite acceptance, lookup by username, then by email, then creation or
  refusal.
 */
module SamlUsers {
  import opened Wrappers
  import opened SamlAttributes

  // ---------------------------------------------------------------------------
  // Splitting and synthesising email addresses

  /** The text before the first '@' (all of s if it has none), as split("@")[0] gives it. */
  function Before(s: string): (r: string)
    ensures '@' !in r
  {
    if s == [] || s[0] == '@' then [] else [s[0]] + Before(s[1..])
  }

  /** The text after the first '@' (empty if s has none). */
  function After(s: string): string {
    if s == [] then [] else if s[0] == '@' then s[1..] else After(s[1..])
  }

  /** Every '@' of s removed. */
  function RemoveAt(s: string): (r: string)
    ensures '@' !in r
  {
    if s == [] then [] else (if s[0] == '@' then [] else [s[0]]) + RemoveAt(s[1..])
  }

  lemma {:induction false} RemoveAtOfConcat(a: string, b: string)
    ensures RemoveAt(a + b) == RemoveAt(a) + RemoveAt(b)
  {
    if a != [] {
      assert (a + b)[0] == a[0] && (a + b)[1..] == a[1..] + b;
      RemoveAtOfConcat(a[1..], b);
      var head: string := if a[0] == '@' then [] else [a[0]];
      assert RemoveAt(a + b) == head + (RemoveAt(a[1..]) + RemoveAt(b));
      assert RemoveAt(a) == head + RemoveAt(a[1..]);
    } else {
      assert a + b == b;
    }
  }

  lemma {:induction false} RemoveAtOfAtFree(s: string)
    requires '@' !in s
    ensures RemoveAt(s) == s
  {
    if s != [] {
      assert '@' !in s[1..];
      RemoveAtOfAtFree(s[1..]);
    }
  }

  lemma {:induction false} BeforeOfAtFree(s: string)
    requires '@' !in s
    ensures Before(s) == s
  {
    if s != [] {
      assert '@' !in s[1..];
      BeforeOfAtFree(s[1..]);
    }
  }

  /** Splitting local + "@" + rest at its first '@' gives back local and rest. */
  lemma {:induction false} SplitAtFirstAt(local: string, rest: string)
    requires '@' !in local
    ensures Before(local + "@" + rest) == local
    ensures After(local + "@" + rest) == rest
  {
    var s := local + "@" + rest;
    if local == [] {
      assert s == "@" + rest;
      assert s[1..] == rest;
    } else {
      assert s[0] == local[0] && s[1..] == local[1..] + "@" + rest;
      assert '@' !in local[1..];
      SplitAtFirstAt(local[1..], rest);
    }
  }

  /** A name of the form local@domain, one '@' with text on both sides. */
  predicate IsSingleInternalAt(name: string) {
    '@' in name && Before(name) != [] && After(name) != [] && '@' !in After(name)
  }

  /**
    The email of a login that maps none: the subject name with "@" and the
    zone's domain appended when the name has no '@'; the name itself when it
    is local@domain; otherwise the name with every '@' removed, then "@" and
    the domain.
   */
  function SynthesizeEmail(name: string, domain: string): (r: string)
    ensures IsSingleInternalAt(name) ==> r == name
    ensures !IsSingleInternalAt(name) ==> Before(r) == RemoveAt(name) && After(r) == domain
  {
    if '@' !in name then
      RemoveAtOfAtFree(name);
      SplitAtFirstAt(name, domain);
      name + "@" + domain
    else if IsSingleInternalAt(name) then name
    else
      SplitAtFirstAt(RemoveAt(name), domain);
      RemoveAt(name) + "@" + domain
  }

  /** The domain appended when the zone configures none. */
  const UnconfiguredEmailDomain: string := "this-default-was-not-configured.invalid"

  /** A name without '@' gets "@" and the domain appended; the result splits back into name and domain. */
  lemma SynthesizeEmailWithoutAt(name: string, domain: string)
    requires '@' !in name
    ensures SynthesizeEmail(name, domain) == name + "@" + domain
    ensures Before(SynthesizeEmail(name, domain)) == name
    ensures After(SynthesizeEmail(name, domain)) == domain
  {
    SplitAtFirstAt(name, domain);
  }

  /** A leading '@' is dropped before the domain is appended. */
  lemma SynthesizeEmailLeadingAt(name: string, domain: string)
    requires '@' !in name
    ensures SynthesizeEmail("@" + name, domain) == name + "@" + domain
  {
    var s := "@" + name;
    SplitAtFirstAt([], name);
    assert Before(s) == [] by { assert s == [] + "@" + name; }
    assert !IsSingleInternalAt(s);
    RemoveAtOfConcat("@", name);
    RemoveAtOfAtFree(name);
    assert RemoveAt("@") == [];
    assert RemoveAt(s) == name;
    assert SynthesizeEmail(s, domain) == RemoveAt(s) + "@" + domain;
  }

  /** A trailing '@' is dropped before the domain is appended. */
  lemma SynthesizeEmailTrailingAt(name: string, domain: string)
    requires '@' !in name
    ensures SynthesizeEmail(name + "@", domain) == name + "@" + domain
  {
    var s := name + "@";
    assert s == name + "@" + [];
    SplitAtFirstAt(name, []);
    assert After(s) == [];
    assert !IsSingleInternalAt(s);
    RemoveAtOfConcat(name, "@");
    RemoveAtOfAtFree(name);
    assert RemoveAt("@") == [];
    assert RemoveAt(s) == name;
    assert '@' in s by { assert s[|name|] == '@'; }
    assert SynthesizeEmail(s, domain) == RemoveAt(s) + "@" + domain;
  }

  /** A name with one '@' between two non-empty parts is already an email and is kept as it is. */
  lemma SynthesizeEmailInternalAt(local: string, rest: string, domain: string)
    requires '@' !in local && '@' !in rest && local != [] && rest != []
    ensures SynthesizeEmail(local + "@" + rest, domain) == local + "@" + rest
  {
    var s := local + "@" + rest;
    SplitAtFirstAt(local, rest);
    assert s[|local|] == '@';
  }

  /** The synthesised email always holds an '@'. */
  lemma SynthesizedEmailHasAt(name: string, domain: string)
    ensures '@' in SynthesizeEmail(name, domain)
  {
    var e := SynthesizeEmail(name, domain);
    if '@' !in name {
      assert e[|name|] == '@';
    } else if !IsSingleInternalAt(name) {
      assert e[|RemoveAt(name)|] == '@';
    }
  }

  // ---------------------------------------------------------------------------
  // User records

  type UserId = nat

  /** The fields of a user account this core reads and writes. */
  datatype UserRecord = UserRecord(
    username: string,
    origin: string,
    email: string,
    givenName: string,
    familyName: string,
    phoneNumber: Option<string>,
    verified: bool)

  /** A stored user: its id, its record and the time of its last change. */
  datatype StoredUser = StoredUser(id: UserId, record: UserRecord, modified: nat)

  /**
    The user a login describes: username and origin from the login, the five
    tracked fields from the mapped attributes; an unmapped email is synthesised
    from the name, unmapped names default to the email's local part and domain,
    an unmapped phone is absent and an unmapped email_verified is false.
   */
  function GetUser(name: string, origin: string, attrs: map<string, seq<string>>, domain: string): (u: UserRecord)
    ensures u.username == name && u.origin == origin
    ensures GetFirst(attrs, EmailAttributeName).Some? ==> u.email == GetFirst(attrs, EmailAttributeName).value
    ensures GetFirst(attrs, EmailAttributeName).None? ==> u.email == SynthesizeEmail(name, domain)
    ensures GetFirst(attrs, GivenNameAttributeName).Some? ==> u.givenName == GetFirst(attrs, GivenNameAttributeName).value
    ensures GetFirst(attrs, FamilyNameAttributeName).Some? ==> u.familyName == GetFirst(attrs, FamilyNameAttributeName).value
    ensures u.phoneNumber == GetFirst(attrs, PhoneNumberAttributeName)
    ensures u.verified <==> GetFirst(attrs, EmailVerifiedAttributeName).Some?
                            && ParseBoolean(GetFirst(attrs, EmailVerifiedAttributeName).value)
  {
    var email := GetFirst(attrs, EmailAttributeName).GetOr(SynthesizeEmail(name, domain));
    UserRecord(
      name,
      origin,
      email,
      GetFirst(attrs, GivenNameAttributeName).GetOr(Before(email)),
      GetFirst(attrs, FamilyNameAttributeName).GetOr(Before(After(email))),
      GetFirst(attrs, PhoneNumberAttributeName),
      match GetFirst(attrs, EmailVerifiedAttributeName)
      case Some(v) => ParseBoolean(v)
      case None => false)
  }

  /** Unmapped given and family names come from the two halves of a local@domain email. */
  lemma DefaultNamesFromEmail(name: string, origin: string, attrs: map<string, seq<string>>, domain: string,
                              local: string, emailDomain: string)
    requires '@' !in local && '@' !in emailDomain
    requires GetUser(name, origin, attrs, domain).email == local + "@" + emailDomain
    requires GivenNameAttributeName !in attrs && FamilyNameAttributeName !in attrs
    ensures GetUser(name, origin, attrs, domain).givenName == local
    ensures GetUser(name, origin, attrs, domain).familyName == emailDomain
  {
    SplitAtFirstAt(local, emailDomain);
    BeforeOfAtFree(emailDomain);
  }

  /** The record with its five tracked fields taken from the candidate; username and origin stay. */
  function ModifyAttributes(u: UserRecord, candidate: UserRecord): (r: UserRecord)
    ensures r == candidate.(username := u.username, origin := u.origin)
  {
    u.(email := candidate.email, givenName := candidate.givenName, familyName := candidate.familyName,
       phoneNumber := candidate.phoneNumber, verified := candidate.verified)
  }

  /** Whether a login's record differs from the stored one in email, phone, verified, given or family name. */
  function HaveUserAttributesChanged(existing: UserRecord, candidate: UserRecord): (changed: bool)
    ensures changed <==> ModifyAttributes(existing, candidate) != existing
  {
    existing.verified != candidate.verified
    || existing.givenName != candidate.givenName
    || existing.familyName != candidate.familyName
    || existing.phoneNumber != candidate.phoneNumber
    || existing.email != candidate.email
  }

  /** An identical copy has not changed, and a change in any one tracked field is detected. */
  lemma EachTrackedFieldIsCompared(u: UserRecord, email: string, phone: Option<string>, given: string, family: string)
    ensures !HaveUserAttributesChanged(u, u)
    ensures email != u.email ==> HaveUserAttributesChanged(u, u.(email := email))
    ensures phone != u.phoneNumber ==> HaveUserAttributesChanged(u, u.(phoneNumber := phone))
    ensures HaveUserAttributesChanged(u, u.(verified := !u.verified))
    ensures given != u.givenName ==> HaveUserAttributesChanged(u, u.(givenName := given))
    ensures family != u.familyName ==> HaveUserAttributesChanged(u, u.(familyName := family))
    ensures HaveUserAttributesChanged(u, u.(username := email)) == false
  {
  }

  // ---------------------------------------------------------------------------
  // The user table

  datatype UserTable = UserTable(users: map<UserId, StoredUser>, nextId: UserId)

  /** Every user is stored under its own id, and ids below nextId are the only ones in use. */
  ghost predicate Wf(t: UserTable) {
    forall id :: id in t.users ==> t.users[id].id == id && id < t.nextId
  }

  function IdsByName(t: UserTable, username: string, origin: string): set<UserId> {
    set id | id in t.users && t.users[id].record.username == username && t.users[id].record.origin == origin
  }

  function IdsByEmail(t: UserTable, email: string, origin: string): set<UserId> {
    set id | id in t.users && t.users[id].record.email == email && t.users[id].record.origin == origin
  }

  /** The outcome of a query that expects one row: none, exactly one, or more than one. */
  datatype Lookup = NoMatch | Unique(user: StoredUser) | Ambiguous

  ghost function LookupIds(t: UserTable, ids: set<UserId>): (r: Lookup)
    requires Wf(t) && ids <= t.users.Keys
    ensures r.NoMatch? <==> ids == {}
    ensures r.Unique? <==> |ids| == 1
    ensures r.Unique? ==> r.user.id in ids && t.users[r.user.id] == r.user
  {
    if ids == {} then NoMatch
    else if |ids| == 1 then
      var id :| id in ids;
      Unique(t.users[id])
    else Ambiguous
  }

  lemma SingletonMember(ids: set<UserId>, a: UserId, b: UserId)
    requires |ids| == 1 && a in ids && b in ids
    ensures a == b
  {
    var rest := ids - {a};
    assert |rest| == 0;
    assert b !in rest;
  }

  lemma LookupSingleton(t: UserTable, id: UserId)
    requires Wf(t) && id in t.users
    ensures LookupIds(t, {id}) == Unique(t.users[id])
  {
  }

  function Store(t: UserTable, u: StoredUser): (r: UserTable)
    ensures r.users.Keys == t.users.Keys + {u.id}
  {
    t.(users := t.users[u.id := u], nextId := if u.id < t.nextId then t.nextId else u.id + 1)
  }

  lemma StorePreservesWf(t: UserTable, u: StoredUser)
    requires Wf(t)
    ensures Wf(Store(t, u))
  {
  }

  // ---------------------------------------------------------------------------
  // Reconciliation

  /** The failures of a SAML login. */
  datatype LoginError =
    | AuthnContextRejected              // the asserted authentication context is not allowed
    | EmailMismatch                     // invite acceptance with a different mapped email
    | AmbiguousUserMatch                // more than one user answers a lookup that expects one
    | ShadowAccountCreationDisabled     // no user, and shadow users may not be created
    | InvitedUserNotFound               // the invited user id names no user

  datatype Reconciled = Reconciled(result: Result<StoredUser, LoginError>, table: UserTable)

  /**
    The shadow user of a login and the table after it. An invite acceptance
    renames the invited user to the subject name, unless a mapped email
    differs from the invited one. Otherwise the user with the subject name in
    this origin is taken, and updated when a tracked field drifted; failing
    that, the one user of this origin with the mapped email is renamed and
    updated; failing that, a new user is created, if the provider allows it.
   */
  ghost function Reconcile(t: UserTable, subject: string, origin: string, addNew: bool,
                           attrs: map<string, seq<string>>, invited: Option<UserId>,
                           domain: string, now: nat): (r: Reconciled)
    requires Wf(t)
    ensures Wf(r.table)
    ensures r.result.Failure? ==> r.table == t
    ensures r.result.Success? ==> var u := r.result.value;
              u.id in r.table.users && r.table.users[u.id] == u
    ensures r.result.Success? && r.table != t ==> r.result.value.modified == now
    ensures r.result.Success? ==> r.table.users == t.users[r.result.value.id := r.result.value]
  {
    var candidate := GetUser(subject, origin, attrs, domain);
    var mappedEmail := GetFirst(attrs, EmailAttributeName);
    if invited.Some? then
      if invited.value !in t.users then Reconciled(Failure(InvitedUserNotFound), t)
      else
        var u := t.users[invited.value];
        if mappedEmail.Some? && mappedEmail.value != u.record.email then Reconciled(Failure(EmailMismatch), t)
        else if u.record.username == subject then Reconciled(Success(u), t)
        else
          var merged := u.(record := u.record.(username := subject), modified := now);
          Reconciled(Success(merged), Store(t, merged))
    else
      match LookupIds(t, IdsByName(t, subject, origin))
      case Ambiguous => Reconciled(Failure(AmbiguousUserMatch), t)
      case Unique(u) =>
        if HaveUserAttributesChanged(u.record, candidate) then
          var updated := u.(record := ModifyAttributes(u.record, candidate), modified := now);
          Reconciled(Success(updated), Store(t, updated))
        else Reconciled(Success(u), t)
      case NoMatch =>
        var byEmail := if mappedEmail.Some? then LookupIds(t, IdsByEmail(t, mappedEmail.value, origin)) else NoMatch;
        match byEmail
        case Ambiguous => Reconciled(Failure(AmbiguousUserMatch), t)
        case Unique(u) =>
          var renamed := u.(record := ModifyAttributes(u.record.(username := subject), candidate), modified := now);
          Reconciled(Success(renamed), Store(t, renamed))
        case NoMatch =>
          if !addNew then Reconciled(Failure(ShadowAccountCreationDisabled), t)
          else
            var created := StoredUser(t.nextId, candidate, now);
            Reconciled(Success(created), Store(t, created))
  }

  /** Storing a user changes the name lookup at that id only. */
  lemma IdsByNameAfterStore(t: UserTable, u: StoredUser, username: string, origin: string)
    ensures IdsByName(Store(t, u), username, origin)
            == (IdsByName(t, username, origin) - {u.id})
               + (if u.record.username == username && u.record.origin == origin then {u.id} else {})
  {
  }

  /**
    After a successful login outside an invite, the returned user is the one
    and only user of that name in that origin, and its tracked fields agree
    with the login's record.
   */
  lemma ReconciledUserIsFoundByName(t: UserTable, subject: string, origin: string, addNew: bool,
                                    attrs: map<string, seq<string>>, domain: string, now: nat)
    requires Wf(t)
    requires Reconcile(t, subject, origin, addNew, attrs, None, domain, now).result.Success?
    ensures var r := Reconcile(t, subject, origin, addNew, attrs, None, domain, now);
            var u := r.result.value;
            && IdsByName(r.table, subject, origin) == {u.id}
            && u.record.username == subject && u.record.origin == origin
            && !HaveUserAttributesChanged(u.record, GetUser(subject, origin, attrs, domain))
  {
    var r := Reconcile(t, subject, origin, addNew, attrs, None, domain, now);
    var u := r.result.value;
    var t1 := r.table;
    var before := IdsByName(t, subject, origin);
    if t1 == t {
      assert u.id in before;
      forall id | id in before ensures id == u.id {
        SingletonMember(before, id, u.id);
      }
    } else {
      IdsByNameAfterStore(t, u, subject, origin);
      assert t1 == Store(t, u);
      if before != {} {
        assert |before| == 1;
        forall id | id in before ensures id == u.id {
          var w :| w in before && t.users[w] == LookupIds(t, before).user;
          SingletonMember(before, id, w);
          SingletonMember(before, u.id, w);
        }
      }
    }
  }

  /**
    A second login with the same attributes finds the user the first one
    returned, changes nothing and returns the same user: the stored record and
    its modification time stay as they are.
   */
  lemma ReconcileIsIdempotent(t: UserTable, subject: string, origin: string, addNew: bool,
                              attrs: map<string, seq<string>>, domain: string, now: nat, later: nat)
    requires Wf(t)
    requires Reconcile(t, subject, origin, addNew, attrs, None, domain, now).result.Success?
    ensures var first := Reconcile(t, subject, origin, addNew, attrs, None, domain, now);
            Reconcile(first.table, subject, origin, addNew, attrs, None, domain, later) == first
  {
    var first := Reconcile(t, subject, origin, addNew, attrs, None, domain, now);
    ReconciledUserIsFoundByName(t, subject, origin, addNew, attrs, domain, now);
    LookupSingleton(first.table, first.result.value.id);
  }

  /** With no user by name or email, a provider that does not add shadow users refuses and creates nothing. */
  lemma NoShadowUserWhenCreationDisabled(t: UserTable, subject: string, origin: string,
                                         attrs: map<string, seq<string>>, domain: string, now: nat)
    requires Wf(t)
    requires IdsByName(t, subject, origin) == {}
    requires GetFirst(attrs, EmailAttributeName).Some? ==>
               IdsByEmail(t, GetFirst(attrs, EmailAttributeName).value, origin) == {}
    ensures Reconcile(t, subject, origin, false, attrs, None, domain, now)
            == Reconciled(Failure(ShadowAccountCreationDisabled), t)
  {
  }

  /** With no user by name or email and creation allowed, exactly one new user with the login's record is added. */
  lemma NewShadowUserCreated(t: UserTable, subject: string, origin: string,
                             attrs: map<string, seq<string>>, domain: string, now: nat)
    requires Wf(t)
    requires IdsByName(t, subject, origin) == {}
    requires GetFirst(attrs, EmailAttributeName).Some? ==>
               IdsByEmail(t, GetFirst(attrs, EmailAttributeName).value, origin) == {}
    ensures var r := Reconcile(t, subject, origin, true, attrs, None, domain, now);
            r.result == Success(StoredUser(t.nextId, GetUser(subject, origin, attrs, domain), now))
            && t.nextId !in t.users && r.table.users == t.users[t.nextId := r.result.value]
  {
  }

  /**
    With no user by name and exactly one user of this origin with the mapped
    email, that user keeps its id, takes the subject name and the login's
    tracked fields, no user is added and every other user stays as it was.
   */
  lemma UserFoundByEmailIsRenamed(t: UserTable, subject: string, origin: string, addNew: bool,
                                  attrs: map<string, seq<string>>, domain: string, now: nat, id: UserId)
    requires Wf(t)
    requires IdsByName(t, subject, origin) == {}
    requires GetFirst(attrs, EmailAttributeName).Some?
    requires IdsByEmail(t, GetFirst(attrs, EmailAttributeName).value, origin) == {id}
    ensures var r := Reconcile(t, subject, origin, addNew, attrs, None, domain, now);
            && r.result.Success? && r.result.value.id == id
            && r.result.value.record == ModifyAttributes(t.users[id].record.(username := subject),
                                                         GetUser(subject, origin, attrs, domain))
            && r.table.users.Keys == t.users.Keys
            && r.table.users == t.users[id := r.result.value]
  {
    LookupSingleton(t, id);
  }

  /** Two or more users of this origin with the mapped email make the login fail, changing nothing. */
  lemma SharedEmailIsAmbiguous(t: UserTable, subject: string, origin: string, addNew: bool,
                               attrs: map<string, seq<string>>, domain: string, now: nat, a: UserId, b: UserId)
    requires Wf(t)
    requires IdsByName(t, subject, origin) == {}
    requires GetFirst(attrs, EmailAttributeName).Some?
    requires a != b && {a, b} <= IdsByEmail(t, GetFirst(attrs, EmailAttributeName).value, origin)
    ensures Reconcile(t, subject, origin, addNew, attrs, None, domain, now)
            == Reconciled(Failure(AmbiguousUserMatch), t)
  {
    var ids := IdsByEmail(t, GetFirst(attrs, EmailAttributeName).value, origin);
    assert |{a, b}| == 2;
    assert |ids| >= 2 by {
      assert |ids| == |{a, b}| + |ids - {a, b}|;
    }
  }

  /**
    A login that finds its user by name rewrites the five tracked fields and
    the modification time exactly when one of them drifted; otherwise the
    table is left as it was.
   */
  lemma DriftUpdatesTrackedFields(t: UserTable, subject: string, origin: string, addNew: bool,
                                  attrs: map<string, seq<string>>, domain: string, now: nat, id: UserId)
    requires Wf(t)
    requires IdsByName(t, subject, origin) == {id}
    ensures var r := Reconcile(t, subject, origin, addNew, attrs, None, domain, now);
            var old_ := t.users[id];
            var candidate := GetUser(subject, origin, attrs, domain);
            && r.result.Success? && r.result.value.id == id
            && (HaveUserAttributesChanged(old_.record, candidate) ==>
                  r.result.value == StoredUser(id, ModifyAttributes(old_.record, candidate), now)
                  && r.table.users == t.users[id := r.result.value])
            && (!HaveUserAttributesChanged(old_.record, candidate) ==>
                  r.result.value == old_ && r.table == t)
  {
    LookupSingleton(t, id);
  }

  /**
    Invite acceptance: the invited user takes the subject name and keeps its
    id, origin, email and verified flag, provided no mapped email differs
    from the invited one; every other user stays as it was.
   */
  lemma InviteAcceptanceRenamesInvitedUser(t: UserTable, subject: string, origin: string, addNew: bool,
                                           attrs: map<string, seq<string>>, domain: string, now: nat, id: UserId)
    requires Wf(t) && id in t.users
    requires GetFirst(attrs, EmailAttributeName).Some? ==>
               GetFirst(attrs, EmailAttributeName).value == t.users[id].record.email
    ensures var r := Reconcile(t, subject, origin, addNew, attrs, Some(id), domain, now);
            && r.result.Success? && r.result.value.id == id
            && r.result.value.record == t.users[id].record.(username := subject)
            && r.table.users.Keys == t.users.Keys
            && r.table.users == t.users[id := r.result.value]
  {
  }

  /** Invite acceptance with a mapped email other than the invited one fails and leaves the invited user as it was. */
  lemma InviteEmailMismatchChangesNothing(t: UserTable, subject: string, origin: string, addNew: bool,
                                          attrs: map<string, seq<string>>, domain: string, now: nat, id: UserId)
    requires Wf(t) && id in t.users
    requires GetFirst(attrs, EmailAttributeName).Some?
    requires GetFirst(attrs, EmailAttributeName).value != t.users[id].record.email
    ensures Reconcile(t, subject, origin, addNew, attrs, Some(id), domain, now)
            == Reconciled(Failure(EmailMismatch), t)
  {
  }
}

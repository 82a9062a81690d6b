/**
  Group resolution of a SAML login: the raw external groups are the union of
  the values of every attribute the "external_groups" mapping names; they become
  authorities either through the external-group mapping table (the default
  mode) or verbatim (AS_SCOPES), always next to the zone's default groups; and
  the "external groups" of the login are the raw groups a whitelist pattern
  matches, where '*' stands for any run of characters.
 */
module SamlGroups {
  import opened Wrappers
  import opened SamlAttributes

  // ---------------------------------------------------------------------------
  // Whitelist patterns

  /** Whether the whole of s matches the pattern; '*' matches any substring, every other character itself. */
  function GlobMatch(pattern: string, s: string): (r: bool)
    ensures pattern == s ==> r
    decreases |pattern|, |s|
  {
    if pattern == [] then s == []
    else if pattern[0] == '*' then GlobMatch(pattern[1..], s) || (s != [] && GlobMatch(pattern, s[1..]))
    else s != [] && s[0] == pattern[0] && GlobMatch(pattern[1..], s[1..])
  }

  /** A pattern without '*' matches exactly the string it spells. */
  lemma {:induction false} LiteralPatternMatchesItself(pattern: string, s: string)
    requires '*' !in pattern
    ensures GlobMatch(pattern, s) <==> s == pattern
  {
    if pattern != [] && s != [] {
      assert '*' !in pattern[1..];
      LiteralPatternMatchesItself(pattern[1..], s[1..]);
      if s == pattern {
        assert s[1..] == pattern[1..];
      }
      if s[0] == pattern[0] && s[1..] == pattern[1..] {
        assert s == [s[0]] + s[1..];
        assert pattern == [pattern[0]] + pattern[1..];
      }
    }
  }

  /** A lone '*' matches every string. */
  lemma {:induction false} StarMatchesEverything(s: string)
    ensures GlobMatch("*", s)
  {
    if s != [] {
      StarMatchesEverything(s[1..]);
    }
  }

  /** A star-free prefix followed by '*' matches exactly the strings that start with that prefix. */
  lemma {:induction false} PrefixWildcardMatchesPrefixes(prefix: string, s: string)
    requires '*' !in prefix
    ensures GlobMatch(prefix + "*", s) <==> |prefix| <= |s| && s[..|prefix|] == prefix
  {
    if prefix == [] {
      assert prefix + "*" == "*";
      StarMatchesEverything(s);
    } else {
      var p := prefix + "*";
      assert p[0] == prefix[0] && p[1..] == prefix[1..] + "*";
      assert '*' !in prefix[1..];
      if s != [] {
        PrefixWildcardMatchesPrefixes(prefix[1..], s[1..]);
        if |prefix| <= |s| && s[..|prefix|] == prefix {
          assert s[1..][..|prefix[1..]|] == prefix[1..];
        }
        if s[0] == prefix[0] && |prefix[1..]| <= |s[1..]| && s[1..][..|prefix[1..]|] == prefix[1..] {
          assert s[..|prefix|] == [s[0]] + s[1..][..|prefix[1..]|];
          assert prefix == [prefix[0]] + prefix[1..];
        }
      }
    }
  }

  // ---------------------------------------------------------------------------
  // Raw groups

  /** The external attributes the "external_groups" mapping names: one, a list, or none. */
  function GroupAttributeNames(def: ProviderDefinition): (names: seq<string>)
    ensures GroupAttributeName !in def.attributeMappings ==> names == []
  {
    if GroupAttributeName !in def.attributeMappings then []
    else match def.attributeMappings[GroupAttributeName]
      case Single(n) => [n]
      case Multiple(ns) => ns
  }

  /** The union of the string values of the named attributes; a group named twice counts once. */
  function RawGroupsFrom(cred: Credential, names: seq<string>): (groups: set<string>)
    ensures forall g :: g in groups <==>
      exists i :: 0 <= i < |names| && g in AttributeStrings(cred, names[i])
  {
    if names == [] then {}
    else
      var rest := RawGroupsFrom(cred, names[1..]);
      assert forall g :: g in rest <==>
        exists i :: 1 <= i < |names| && g in AttributeStrings(cred, names[i]) by {
        forall g | g in rest
          ensures exists i :: 1 <= i < |names| && g in AttributeStrings(cred, names[i])
        {
          var k :| 0 <= k < |names[1..]| && g in AttributeStrings(cred, names[1..][k]);
          assert names[1..][k] == names[k + 1];
        }
        forall g, i | 1 <= i < |names| && g in AttributeStrings(cred, names[i])
          ensures g in rest
        {
          assert names[1..][i - 1] == names[i];
        }
      }
      (set v | v in AttributeStrings(cred, names[0])) + rest
  }

  /**
    The raw groups of a login: every value of every attribute the
    "external_groups" mapping names. With no such mapping configured, no
    external group takes part in the login.
   */
  function RawGroups(def: ProviderDefinition, cred: Credential): (groups: set<string>)
    ensures GroupAttributeName !in def.attributeMappings ==> groups == {}
  {
    RawGroupsFrom(cred, GroupAttributeNames(def))
  }

  // ---------------------------------------------------------------------------
  // Authorities

  /** A row of the external-group mapping table: the local group an external group of an origin grants. */
  datatype ExternalGroupMapping = ExternalGroupMapping(groupName: string, externalGroup: string, origin: string)

  /** The local groups the mapping table grants for the raw groups of a login from the given origin. */
  function MapAuthorities(mappings: set<ExternalGroupMapping>, origin: string, raw: set<string>): set<string> {
    set m | m in mappings && m.origin == origin && m.externalGroup in raw :: m.groupName
  }

  /** The authorities of a login: the zone's default groups, and the raw groups mapped or taken verbatim. */
  function Authorities(defaults: set<string>, mode: GroupMappingMode,
                       mappings: set<ExternalGroupMapping>, origin: string, raw: set<string>): (r: set<string>)
    ensures defaults <= r
    ensures mode == ExplicitlyMapped ==>
              forall m :: m in mappings && m.origin == origin && m.externalGroup in raw ==> m.groupName in r
    ensures mode == AsScopes ==> raw <= r
  {
    match mode
    case ExplicitlyMapped => defaults + MapAuthorities(mappings, origin, raw)
    case AsScopes => defaults + raw
  }

  /**
    In the default mode, an authority is granted exactly when it is a default
    group or the local group of a mapping row of this origin whose external
    group the login asserted.
   */
  lemma ExplicitlyMappedAuthorities(defaults: set<string>, mappings: set<ExternalGroupMapping>,
                                    origin: string, raw: set<string>, a: string)
    ensures a in Authorities(defaults, ExplicitlyMapped, mappings, origin, raw) <==>
              a in defaults
              || exists m :: m in mappings && m.origin == origin && m.externalGroup in raw && m.groupName == a
  {
  }

  /** A raw group the table does not map for this origin grants nothing in the default mode. */
  lemma UnmappedGroupGrantsNothing(mappings: set<ExternalGroupMapping>, origin: string, raw: set<string>, g: string)
    requires forall m :: m in mappings && m.origin == origin ==> m.externalGroup != g
    ensures MapAuthorities(mappings, origin, raw) == MapAuthorities(mappings, origin, raw - {g})
  {
  }

  /** In AS_SCOPES mode every raw group, mapped or not, is an authority, next to the defaults. */
  lemma AsScopesGrantsEveryRawGroup(defaults: set<string>, mappings: set<ExternalGroupMapping>,
                                    origin: string, raw: set<string>)
    ensures Authorities(defaults, AsScopes, mappings, origin, raw) == defaults + raw
  {
  }

  /** With no raw group, only the default groups are granted, whatever the mode. */
  lemma NoRawGroupsOnlyDefaults(defaults: set<string>, mode: GroupMappingMode,
                                mappings: set<ExternalGroupMapping>, origin: string)
    ensures Authorities(defaults, mode, mappings, origin, {}) == defaults
  {
    assert MapAuthorities(mappings, origin, {}) == {};
  }

  // ---------------------------------------------------------------------------
  // External groups (whitelist)

  predicate Whitelisted(whitelist: seq<string>, g: string) {
    exists i :: 0 <= i < |whitelist| && GlobMatch(whitelist[i], g)
  }

  /** The raw groups some whitelist pattern matches. */
  function FilterExternalGroups(whitelist: seq<string>, raw: set<string>): (r: set<string>)
    ensures r <= raw
  {
    set g | g in raw && Whitelisted(whitelist, g)
  }

  lemma OneEntryWhitelist(entry: string, g: string)
    ensures Whitelisted([entry], g) <==> GlobMatch(entry, g)
  {
    assert [entry][0] == entry;
  }

  /** Joining two whitelists keeps what either keeps. */
  lemma WhitelistConcatenation(w1: seq<string>, w2: seq<string>, raw: set<string>)
    ensures FilterExternalGroups(w1 + w2, raw) == FilterExternalGroups(w1, raw) + FilterExternalGroups(w2, raw)
  {
    forall g ensures Whitelisted(w1 + w2, g) <==> Whitelisted(w1, g) || Whitelisted(w2, g) {
      if Whitelisted(w1 + w2, g) {
        var i :| 0 <= i < |w1 + w2| && GlobMatch((w1 + w2)[i], g);
        if i < |w1| {
          assert w1[i] == (w1 + w2)[i];
        } else {
          assert w2[i - |w1|] == (w1 + w2)[i];
        }
      }
      if Whitelisted(w1, g) {
        var i :| 0 <= i < |w1| && GlobMatch(w1[i], g);
        assert (w1 + w2)[i] == w1[i];
      }
      if Whitelisted(w2, g) {
        var i :| 0 <= i < |w2| && GlobMatch(w2[i], g);
        assert (w1 + w2)[|w1| + i] == w2[i];
      }
    }
  }

  /** A whitelist keeps a group exactly when one of its entries, alone, would keep it. */
  lemma WhitelistIsUnionOfEntries(whitelist: seq<string>, raw: set<string>, g: string)
    ensures g in FilterExternalGroups(whitelist, raw) <==>
              exists i :: 0 <= i < |whitelist| && g in FilterExternalGroups([whitelist[i]], raw)
  {
    if g in FilterExternalGroups(whitelist, raw) {
      var i :| 0 <= i < |whitelist| && GlobMatch(whitelist[i], g);
      OneEntryWhitelist(whitelist[i], g);
    }
    if exists i :: 0 <= i < |whitelist| && g in FilterExternalGroups([whitelist[i]], raw) {
      var i :| 0 <= i < |whitelist| && g in FilterExternalGroups([whitelist[i]], raw);
      OneEntryWhitelist(whitelist[i], g);
    }
  }

  /** An empty whitelist lets no external group through. */
  lemma EmptyWhitelistNoExternalGroups(raw: set<string>)
    ensures FilterExternalGroups([], raw) == {}
  {
  }

  /** A whitelist holding one exact group name lets through that group alone, if it was asserted. */
  lemma ExactWhitelistEntry(entry: string, raw: set<string>)
    requires '*' !in entry
    ensures FilterExternalGroups([entry], raw) == if entry in raw then {entry} else {}
  {
    forall g ensures Whitelisted([entry], g) <==> g == entry {
      OneEntryWhitelist(entry, g);
      LiteralPatternMatchesItself(entry, g);
    }
  }

  /** A whitelist entry "p*" lets through exactly the asserted groups that start with p. */
  lemma PrefixWildcardWhitelist(prefix: string, raw: set<string>)
    requires '*' !in prefix
    ensures FilterExternalGroups([prefix + "*"], raw)
            == set g | g in raw && |prefix| <= |g| && g[..|prefix|] == prefix
  {
    forall g ensures Whitelisted([prefix + "*"], g) <==> |prefix| <= |g| && g[..|prefix|] == prefix {
      OneEntryWhitelist(prefix + "*", g);
      PrefixWildcardMatchesPrefixes(prefix, g);
    }
  }
}

/**
  The client-metadata admin endpoints: a table of metadata keyed by client
  id, next to the registry of clients. Create inserts version 1 for a
  registered client; update and delete name the version they expect in an
  If-Match header (optimistic concurrency in the style of section 3.1 of
  RFC 7232): a missing header is a bad request, a stale version fails the
  precondition, and a successful update bumps the version. Every write needs
  the clients.write scope, checked before anything else.
 */
module ClientMetadata {
  import opened Wrappers

  /** What a client's metadata records besides its registration. */
  datatype Metadata = Metadata(
    appLaunchUrl: Option<string>,
    appIcon: Option<string>,
    showOnHomePage: bool,
    clientName: Option<string>)

  /** A row of the table: the client, its metadata and the version of that metadata. */
  datatype Entry = Entry(clientId: string, metadata: Metadata, version: nat)

  /** The statuses the endpoints answer with. */
  datatype Status = Ok | Created | BadRequest | Forbidden | NotFound | Conflict | PreconditionFailed

  function Code(s: Status): (c: nat)
    ensures 200 <= c < 500
    ensures c < 300 <==> s == Ok || s == Created
  {
    match s
    case Ok => 200
    case Created => 201
    case BadRequest => 400
    case Forbidden => 403
    case NotFound => 404
    case Conflict => 409
    case PreconditionFailed => 412
  }

  datatype Response = Response(status: Status, body: Option<Entry>)

  /** The registered client ids and the metadata table. */
  datatype Table = Table(clients: set<string>, entries: map<string, Entry>)

  /** The version a freshly created entry carries, and so the If-Match its first update must send. */
  const InitialVersion: nat := 1

  /** Metadata exists only for registered clients, under their own id, with a version of at least 1. */
  predicate Wf(t: Table) {
    forall id :: id in t.entries ==>
      id in t.clients && t.entries[id].clientId == id && t.entries[id].version >= InitialVersion
  }

  /** The response of a request and the table after it. */
  datatype Step = Step(response: Response, table: Table)

  /** A request that fails: no body, and the table as it was. */
  function Refuse(t: Table, s: Status): Step {
    Step(Response(s, None), t)
  }

  // ---------------------------------------------------------------------------
  // The endpoints as functions of the table

  /** POST /oauth/clients/{id}/meta. */
  function Create(t: Table, canWrite: bool, id: string, m: Metadata): (r: Step)
    ensures Wf(t) ==> Wf(r.table)
    ensures r.response.status != Created ==> r.table == t
    ensures r.table.clients == t.clients
  {
    if !canWrite then Refuse(t, Forbidden)
    else if id !in t.clients then Refuse(t, NotFound)
    else if id in t.entries then Refuse(t, Conflict)
    else
      var e := Entry(id, m, InitialVersion);
      Step(Response(Created, Some(e)), t.(entries := t.entries[id := e]))
  }

  /** GET /oauth/clients/{id}/meta. */
  function Retrieve(t: Table, id: string): (r: Response)
    ensures r.status == Ok <==> id in t.entries
    ensures r.status == Ok ==> r.body == Some(t.entries[id])
  {
    if id in t.entries then Response(Ok, Some(t.entries[id])) else Response(NotFound, None)
  }

  /** PUT /oauth/clients/{id}/meta with an optional If-Match version. */
  function Update(t: Table, canWrite: bool, id: string, ifMatch: Option<int>, m: Metadata): (r: Step)
    ensures Wf(t) ==> Wf(r.table)
    ensures r.response.status != Ok ==> r.table == t
    ensures r.table.clients == t.clients && r.table.entries.Keys == t.entries.Keys
  {
    if !canWrite then Refuse(t, Forbidden)
    else if ifMatch.None? then Refuse(t, BadRequest)
    else if id !in t.entries then Refuse(t, NotFound)
    else if ifMatch.value != t.entries[id].version then Refuse(t, PreconditionFailed)
    else
      var e := Entry(id, m, t.entries[id].version + 1);
      Step(Response(Ok, Some(e)), t.(entries := t.entries[id := e]))
  }

  /** DELETE /oauth/clients/{id}/meta with an optional If-Match version. */
  function Delete(t: Table, canWrite: bool, id: string, ifMatch: Option<int>): (r: Step)
    ensures Wf(t) ==> Wf(r.table)
    ensures r.response.status != Ok ==> r.table == t
    ensures r.table.clients == t.clients && r.table.entries.Keys <= t.entries.Keys
  {
    if !canWrite then Refuse(t, Forbidden)
    else if ifMatch.None? then Refuse(t, BadRequest)
    else if id !in t.entries then Refuse(t, NotFound)
    else if ifMatch.value != t.entries[id].version then Refuse(t, PreconditionFailed)
    else Step(Response(Ok, Some(t.entries[id])), t.(entries := t.entries - {id}))
  }

  // ---------------------------------------------------------------------------
  // What the endpoints promise

  /** Without clients.write every write is forbidden, whatever the client id, and changes nothing. */
  lemma WritesNeedWriteScope(t: Table, id: string, ifMatch: Option<int>, m: Metadata)
    ensures Create(t, false, id, m) == Refuse(t, Forbidden)
    ensures Update(t, false, id, ifMatch, m) == Refuse(t, Forbidden)
    ensures Delete(t, false, id, ifMatch) == Refuse(t, Forbidden)
  {
  }

  /** Create succeeds exactly for a registered client without metadata, 404 for an unknown client, 409 for a second create. */
  lemma CreateOutcomes(t: Table, id: string, m: Metadata)
    requires Wf(t)
    ensures Create(t, true, id, m).response.status == Created <==> id in t.clients && id !in t.entries
    ensures Create(t, true, id, m).response.status == NotFound <==> id !in t.clients
    ensures Create(t, true, id, m).response.status == Conflict <==> id in t.entries
  {
  }

  /** Created metadata reads back at version 1; every other client's metadata reads as before. */
  lemma CreatedIsRetrieved(t: Table, id: string, m: Metadata, other: string)
    requires Create(t, true, id, m).response.status == Created
    ensures Retrieve(Create(t, true, id, m).table, id) == Response(Ok, Some(Entry(id, m, InitialVersion)))
    ensures other != id ==> Retrieve(Create(t, true, id, m).table, other) == Retrieve(t, other)
  {
  }

  /** A second create for the same client conflicts and changes nothing. */
  lemma SecondCreateConflicts(t: Table, id: string, m: Metadata, m2: Metadata)
    requires Create(t, true, id, m).response.status == Created
    ensures var t1 := Create(t, true, id, m).table;
            Create(t1, true, id, m2) == Refuse(t1, Conflict)
  {
  }

  /**
    An authorised update with a version succeeds exactly when metadata exists
    and the version is current; without a version it is a bad request even
    for a client without metadata.
   */
  lemma UpdateOutcomes(t: Table, id: string, ifMatch: Option<int>, m: Metadata)
    ensures Update(t, true, id, ifMatch, m).response.status == Ok <==>
              ifMatch.Some? && id in t.entries && ifMatch.value == t.entries[id].version
    ensures Update(t, true, id, None, m).response.status == BadRequest
    ensures Update(t, true, id, ifMatch, m).response.status == PreconditionFailed <==>
              ifMatch.Some? && id in t.entries && ifMatch.value != t.entries[id].version
    ensures Update(t, true, id, ifMatch, m).response.status == NotFound <==> ifMatch.Some? && id !in t.entries
  {
  }

  /** A successful update is what a later read returns, one version on. */
  lemma UpdatedIsRetrieved(t: Table, id: string, v: int, m: Metadata, other: string)
    requires Update(t, true, id, Some(v), m).response.status == Ok
    ensures Retrieve(Update(t, true, id, Some(v), m).table, id) == Response(Ok, Some(Entry(id, m, v + 1)))
    ensures other != id ==> Retrieve(Update(t, true, id, Some(v), m).table, other) == Retrieve(t, other)
  {
  }

  /**
    Two writers holding the same version: once the first update lands, the
    second fails the precondition and is lost neither silently nor partly.
   */
  lemma StaleVersionIsRejected(t: Table, id: string, v: int, m1: Metadata, m2: Metadata)
    requires Update(t, true, id, Some(v), m1).response.status == Ok
    ensures var t1 := Update(t, true, id, Some(v), m1).table;
            && Update(t1, true, id, Some(v), m2) == Refuse(t1, PreconditionFailed)
            && Delete(t1, true, id, Some(v)) == Refuse(t1, PreconditionFailed)
  {
  }

  /**
    An authorised delete with a version succeeds exactly when metadata exists
    and the version is current, fails the precondition exactly when metadata
    exists under another version, and is 404 exactly when there is none.
   */
  lemma DeleteOutcomes(t: Table, id: string, ifMatch: Option<int>)
    ensures Delete(t, true, id, ifMatch).response.status == Ok <==>
              ifMatch.Some? && id in t.entries && ifMatch.value == t.entries[id].version
    ensures Delete(t, true, id, None).response.status == BadRequest
    ensures Delete(t, true, id, ifMatch).response.status == NotFound <==> ifMatch.Some? && id !in t.entries
    ensures Delete(t, true, id, ifMatch).response.status == PreconditionFailed <==>
              ifMatch.Some? && id in t.entries && ifMatch.value != t.entries[id].version
  {
  }

  /** A delete, whatever its outcome, leaves every other client's metadata reading as before. */
  lemma DeleteKeepsOtherClients(t: Table, canWrite: bool, id: string, ifMatch: Option<int>, other: string)
    requires other != id
    ensures Retrieve(Delete(t, canWrite, id, ifMatch).table, other) == Retrieve(t, other)
  {
  }

  /** After a delete the metadata is gone, and the client may create it afresh at version 1. */
  lemma DeleteThenCreateStartsOver(t: Table, id: string, v: int, m: Metadata)
    requires Wf(t)
    requires Delete(t, true, id, Some(v)).response.status == Ok
    ensures var t1 := Delete(t, true, id, Some(v)).table;
            && Retrieve(t1, id) == Response(NotFound, None)
            && Create(t1, true, id, m).response == Response(Created, Some(Entry(id, m, InitialVersion)))
  {
  }

  // ---------------------------------------------------------------------------
  // The endpoints over a mutable table

  class ClientMetadataEndpoints {
    var clients: set<string>
    var entries: map<string, Entry>

    function State(): Table
      reads this
    {
      Table(clients, entries)
    }

    ghost predicate Valid()
      reads this
    {
      Wf(State())
    }

    constructor ()
      ensures Valid() && clients == {} && entries == map[]
    {
      clients := {};
      entries := map[];
    }

    /** Registers a client, as the client registry's addClientDetails does. */
    method AddClientDetails(id: string)
      requires Valid()
      modifies this
      ensures Valid()
      ensures clients == old(clients) + {id} && entries == old(entries)
    {
      clients := clients + {id};
    }

    method CreateClientMetadata(canWrite: bool, id: string, m: Metadata) returns (r: Response)
      requires Valid()
      modifies this
      ensures Valid()
      ensures var s := Create(old(State()), canWrite, id, m); r == s.response && State() == s.table
    {
      if !canWrite {
        return Response(Forbidden, None);
      }
      if id !in clients {
        return Response(NotFound, None);
      }
      if id in entries {
        return Response(Conflict, None);
      }
      var e := Entry(id, m, InitialVersion);
      entries := entries[id := e];
      return Response(Created, Some(e));
    }

    method RetrieveClientMetadata(id: string) returns (r: Response)
      ensures r.status == Ok <==> id in entries
      ensures r.status == Ok ==> r.body == Some(entries[id])
      ensures r.status != Ok ==> r == Response(NotFound, None)
    {
      if id in entries {
        r := Response(Ok, Some(entries[id]));
      } else {
        r := Response(NotFound, None);
      }
    }

    /** GET /oauth/clients/meta: every entry once, in no particular order. */
    method RetrieveAllClientMetadata() returns (all: seq<Entry>)
      requires Valid()
      ensures forall i :: 0 <= i < |all| ==> all[i].clientId in entries && entries[all[i].clientId] == all[i]
      ensures forall id :: id in entries ==> exists i :: 0 <= i < |all| && all[i].clientId == id
      ensures forall i, j :: 0 <= i < j < |all| ==> all[i].clientId != all[j].clientId
    {
      all := [];
      var pending := entries.Keys;
      while pending != {}
        invariant pending <= entries.Keys
        invariant forall i :: 0 <= i < |all| ==>
                    all[i].clientId in entries && entries[all[i].clientId] == all[i] && all[i].clientId !in pending
        invariant forall id :: id in entries && id !in pending ==> exists i :: 0 <= i < |all| && all[i].clientId == id
        invariant forall i, j :: 0 <= i < j < |all| ==> all[i].clientId != all[j].clientId
        decreases pending
      {
        var id :| id in pending;
        ghost var before := all;
        all := all + [entries[id]];
        pending := pending - {id};
        forall k | k in entries && k !in pending
          ensures exists i :: 0 <= i < |all| && all[i].clientId == k
        {
          if k == id {
            assert all[|before|].clientId == k;
          } else {
            var i :| 0 <= i < |before| && before[i].clientId == k;
            assert all[i] == before[i];
          }
        }
      }
    }

    method UpdateClientMetadata(canWrite: bool, id: string, ifMatch: Option<int>, m: Metadata) returns (r: Response)
      requires Valid()
      modifies this
      ensures Valid()
      ensures var s := Update(old(State()), canWrite, id, ifMatch, m); r == s.response && State() == s.table
    {
      if !canWrite {
        return Response(Forbidden, None);
      }
      if ifMatch.None? {
        return Response(BadRequest, None);
      }
      if id !in entries {
        return Response(NotFound, None);
      }
      var current := entries[id];
      if ifMatch.value != current.version {
        return Response(PreconditionFailed, None);
      }
      var e := Entry(id, m, current.version + 1);
      entries := entries[id := e];
      return Response(Ok, Some(e));
    }

    method DeleteClientMetadata(canWrite: bool, id: string, ifMatch: Option<int>) returns (r: Response)
      requires Valid()
      modifies this
      ensures Valid()
      ensures var s := Delete(old(State()), canWrite, id, ifMatch); r == s.response && State() == s.table
    {
      if !canWrite {
        return Response(Forbidden, None);
      }
      if ifMatch.None? {
        return Response(BadRequest, None);
      }
      if id !in entries {
        return Response(NotFound, None);
      }
      var current := entries[id];
      if ifMatch.value != current.version {
        return Response(PreconditionFailed, None);
      }
      entries := entries - {id};
      return Response(Ok, Some(current));
    }
  }
}

/**
  The request sequences of the client-metadata admin tests, each against a
  fresh table: which status every request gets and what a later read shows.
  A caller holds clients.write or not; the metadata sent is a parameter.
 */
module ClientMetadataScenarios {
  import opened Wrappers
  import opened ClientMetadata

  /** createClientMetadata: create for a registered client is 201 and returns version 1. */
  method CreateForRegisteredClient(id: string, m: Metadata) returns (r: Response)
    ensures r == Response(Created, Some(Entry(id, m, InitialVersion)))
  {
    var endpoints := new ClientMetadataEndpoints();
    endpoints.AddClientDetails(id);
    r := endpoints.CreateClientMetadata(true, id, m);
  }

  /** createClientMetadata_WithNoClient: create for a client id nobody registered is 404. */
  method CreateForUnknownClient(id: string, m: Metadata) returns (r: Response)
    ensures r.status == NotFound
  {
    var endpoints := new ClientMetadataEndpoints();
    r := endpoints.CreateClientMetadata(true, id, m);
  }

  /** createDuplicateClientMetadata_isConflict: the second create for a client is 409. */
  method CreateTwice(id: string, m: Metadata) returns (first: Response, second: Response)
    ensures first.status == Created && second.status == Conflict
  {
    var endpoints := new ClientMetadataEndpoints();
    endpoints.AddClientDetails(id);
    first := endpoints.CreateClientMetadata(true, id, m);
    second := endpoints.CreateClientMetadata(true, id, m);
  }

  /** createUnauthorized_BecauseInsufficientScope: without clients.write, create is 403 even for an unknown client. */
  method CreateWithoutWriteScope(id: string, m: Metadata) returns (r: Response)
    ensures r.status == Forbidden
  {
    var endpoints := new ClientMetadataEndpoints();
    r := endpoints.CreateClientMetadata(false, id, m);
  }

  /** getClientMetadata and getClientMetadata_WhichDoesNotExist: 200 with the created entry, 404 for another client. */
  method RetrieveCreatedAndUnknown(id: string, unknown: string, m: Metadata) returns (found: Response, missing: Response)
    requires unknown != id
    ensures found == Response(Ok, Some(Entry(id, m, InitialVersion)))
    ensures missing.status == NotFound
  {
    var endpoints := new ClientMetadataEndpoints();
    endpoints.AddClientDetails(id);
    var created := endpoints.CreateClientMetadata(true, id, m);
    found := endpoints.RetrieveClientMetadata(id);
    missing := endpoints.RetrieveClientMetadata(unknown);
  }

  /** retrieveAllClientMetadata: after three creates the listing holds each of the three clients. */
  method RetrieveAllAfterThreeCreates(id1: string, id2: string, id3: string, m: Metadata) returns (all: seq<Entry>)
    ensures exists i :: 0 <= i < |all| && all[i].clientId == id1
    ensures exists i :: 0 <= i < |all| && all[i].clientId == id2
    ensures exists i :: 0 <= i < |all| && all[i].clientId == id3
  {
    var endpoints := new ClientMetadataEndpoints();
    endpoints.AddClientDetails(id1);
    var r1 := endpoints.CreateClientMetadata(true, id1, m);
    endpoints.AddClientDetails(id2);
    var r2 := endpoints.CreateClientMetadata(true, id2, m);
    endpoints.AddClientDetails(id3);
    var r3 := endpoints.CreateClientMetadata(true, id3, m);
    assert {id1, id2, id3} <= endpoints.entries.Keys;
    all := endpoints.RetrieveAllClientMetadata();
  }

  /** updateClientMetadata_WithCorrectVersion: If-Match 1 after create replaces the launch URL, in the answer and in a later read. */
  method UpdateWithCurrentVersion(id: string, m: Metadata, url: string) returns (updated: Response, read: Response)
    ensures updated.status == Ok && updated.body.Some? && updated.body.value.metadata.appLaunchUrl == Some(url)
    ensures read.status == Ok && read.body.Some? && read.body.value.metadata.appLaunchUrl == Some(url)
    ensures read.body.value.version == InitialVersion + 1
  {
    var endpoints := new ClientMetadataEndpoints();
    endpoints.AddClientDetails(id);
    var created := endpoints.CreateClientMetadata(true, id, m);
    updated := endpoints.UpdateClientMetadata(true, id, Some(1), m.(appLaunchUrl := Some(url)));
    read := endpoints.RetrieveClientMetadata(id);
  }

  /** updateClientMetadata_WithIncorrectVersion: If-Match 100 against version 1 is 412 and the entry stays as created. */
  method UpdateWithStaleVersion(id: string, m: Metadata, url: string) returns (updated: Response, read: Response)
    ensures updated.status == PreconditionFailed
    ensures read == Response(Ok, Some(Entry(id, m, InitialVersion)))
  {
    var endpoints := new ClientMetadataEndpoints();
    endpoints.AddClientDetails(id);
    var created := endpoints.CreateClientMetadata(true, id, m);
    updated := endpoints.UpdateClientMetadata(true, id, Some(100), m.(appLaunchUrl := Some(url)));
    read := endpoints.RetrieveClientMetadata(id);
  }

  /** updateClientMetadata_WithNoVersion: an update without If-Match is 400. */
  method UpdateWithoutVersion(id: string, m: Metadata, url: string) returns (updated: Response)
    ensures updated.status == BadRequest
  {
    var endpoints := new ClientMetadataEndpoints();
    endpoints.AddClientDetails(id);
    var created := endpoints.CreateClientMetadata(true, id, m);
    updated := endpoints.UpdateClientMetadata(true, id, None, m.(appLaunchUrl := Some(url)));
  }

  /** deleteClientMetadata: If-Match 1 after create is 200, and the metadata is gone. */
  method DeleteWithCurrentVersion(id: string, m: Metadata) returns (deleted: Response, read: Response)
    ensures deleted.status == Ok
    ensures read.status == NotFound
  {
    var endpoints := new ClientMetadataEndpoints();
    endpoints.AddClientDetails(id);
    var created := endpoints.CreateClientMetadata(true, id, m);
    deleted := endpoints.DeleteClientMetadata(true, id, Some(1));
    read := endpoints.RetrieveClientMetadata(id);
  }

  /** deleteClientMetadata_withInvalidId: deleting metadata of an unknown client is 404. */
  method DeleteUnknown(id: string) returns (deleted: Response)
    ensures deleted.status == NotFound
  {
    var endpoints := new ClientMetadataEndpoints();
    deleted := endpoints.DeleteClientMetadata(true, id, Some(1));
  }

  /** deleteClientMetadata_WithIncorrectVersion: If-Match 100 against version 1 is 412 and the entry stays. */
  method DeleteWithStaleVersion(id: string, m: Metadata) returns (deleted: Response, read: Response)
    ensures deleted.status == PreconditionFailed
    ensures read == Response(Ok, Some(Entry(id, m, InitialVersion)))
  {
    var endpoints := new ClientMetadataEndpoints();
    endpoints.AddClientDetails(id);
    var created := endpoints.CreateClientMetadata(true, id, m);
    deleted := endpoints.DeleteClientMetadata(true, id, Some(100));
    read := endpoints.RetrieveClientMetadata(id);
  }

  /** deleteClientMetadata_WithNoVersion: a delete without If-Match is 400 and the entry stays. */
  method DeleteWithoutVersion(id: string, m: Metadata) returns (deleted: Response, read: Response)
    ensures deleted.status == BadRequest
    ensures read.status == Ok
  {
    var endpoints := new ClientMetadataEndpoints();
    endpoints.AddClientDetails(id);
    var created := endpoints.CreateClientMetadata(true, id, m);
    deleted := endpoints.DeleteClientMetadata(true, id, None);
    read := endpoints.RetrieveClientMetadata(id);
  }
}

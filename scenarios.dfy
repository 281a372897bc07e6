/**
 * Properties that span several calls, stated as client methods: each runs a
 * short sequence of operations against the model and its postconditions say
 * what the sequence must produce.
 */
module Scenarios {
  import opened Outcomes
  import opened StrConv
  import opened Entities
  import opened AppDto
  import opened Repositories
  import opened UseCases
  import opened ProxyClientDto
  import opened Handlers

  /**
   * Creating a client and then reading it back by the id it received gives
   * the very transfer object the create returned: same id, title, os and
   * download link (both leave the timestamps zero).
   */
  method CreateThenGetById(uc: ProxyClientUseCase, d: ProxyClientDTO)
    returns (created: Result<ProxyClientDTO>, fetched: Result<ProxyClientDTO>)
    requires uc.repo.Valid() && HasRequiredFields(d) && uc.repo.nextId <= MaxInt64
    modifies uc.repo
    ensures created.Ok? && fetched == created
    ensures created.value.title == d.title && created.value.os == d.os
    ensures created.value.downloadLink == d.downloadLink
  {
    created := uc.CreateProxyClient(d, false);
    fetched := uc.GetProxyClientByID(created.value.id, false);
  }

  /**
   * Deleting the same non-zero id twice: the second delete always fails with
   * NotFound, so delete is not idempotent; the table has lost exactly that id.
   */
  method DeleteTwice(uc: ProxyClientUseCase, id: Int64) returns (first: Outcome, second: Outcome)
    requires uc.repo.Valid() && id != 0
    modifies uc.repo
    ensures first == (if id in old(uc.repo.rows) then Pass else Fail(NotFound))
    ensures second == Fail(NotFound)
    ensures uc.repo.rows == old(uc.repo.rows) - {id}
  {
    first := uc.DeleteProxyClient(id, NoFault);
    second := uc.DeleteProxyClient(id, NoFault);
  }

  /**
   * Updating an existing row moves its updated_at strictly forward and
   * leaves its id and created_at as they were.
   */
  method UpdateRefreshesUpdatedAt(repo: ProxyClientRepository, client: ProxyClient) returns (r: Outcome)
    requires repo.Valid() && client.id in repo.rows
    modifies repo
    ensures r == Pass && client.id in repo.rows
    ensures repo.rows[client.id].id == client.id
    ensures repo.rows[client.id].createdAt == old(repo.rows[client.id].createdAt)
    ensures repo.rows[client.id].updatedAt > old(repo.rows[client.id].updatedAt)
    ensures repo.rows[client.id].createdAt < repo.rows[client.id].updatedAt
  {
    r := repo.Update(client, NoFault);
  }

  /**
   * A client created through the API is found again by listing with its id
   * spelled in canonical base 10: the list holds exactly that one client,
   * now with its real timestamps.
   */
  method CreateThenListById(h: ProxyClientHandler, req: ProxyClientRequest)
    returns (created: HttpResponse, listed: HttpResponse)
    requires h.useCase.repo.Valid() && IsValid(req, h.isUrl) && h.useCase.repo.nextId <= MaxInt64
    modifies h.useCase.repo
    ensures created.status == StatusCreated && created.body.ClientJson?
    ensures listed.status == StatusOK && listed.body.ClientListJson?
    ensures |listed.body.clients| == 1
    ensures var c := listed.body.clients[0];
      && c.id == created.body.client.id
      && ProxyClientRequest(c.title, c.os, c.downloadLink) == req
      && c.createdAt == c.updatedAt == h.formatTime(h.useCase.repo.clock)
  {
    var id: Int64 := h.useCase.repo.nextId;
    created := h.CreateProxyClient(Some(req), false);
    var q := ListQuery(FormatInt(id), "", "");
    ghost var row := h.useCase.repo.rows[id];
    assert Matches(q, FullCopy(row));
    listed := h.GetAllProxyClients(q, false);
    ghost var dtos: seq<ProxyClientDTO> :| ListsMatches(dtos, h.useCase.repo.rows, q)
                      && listed.body.clients == ToResponses(dtos, h.formatTime);
    IdQueryListsAtMostOne(dtos, h.useCase.repo.rows, q);
    ghost var k :| 0 <= k < |dtos| && dtos[k].id == id;
    assert dtos == [FullCopy(row)];
  }
}

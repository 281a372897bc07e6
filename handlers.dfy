/**
 * The four HTTP handlers of the proxy-client API, each as a decision from an
 * already-decoded request to a status code and a payload.
 *
 * A JSON body is given as an Option: None is a body that failed to decode.
 * The path id is the raw path segment. The list endpoint's query is the three
 * optional parameters, "" meaning absent. What the store's driver does wrong
 * is passed through to the repository as in the use cases.
 */
module Handlers {
  import opened Outcomes
  import opened StrConv
  import opened Entities
  import opened AppDto
  import opened Repositories
  import opened UseCases
  import opened ProxyClientDto
  import opened Mapper

  const StatusOK := 200
  const StatusCreated := 201
  const StatusNoContent := 204
  const StatusBadRequest := 400
  const StatusNotFound := 404
  const StatusInternalServerError := 500

  const ErrInvalidRequestBody := "invalid request body"
  const ErrFailedToCreateProxyClient := "failed to create proxy client"
  const ErrFailedToFetchProxyClients := "failed to fetch proxy clients"
  const ErrNoVpnClientsFound := "no vpn clients found"
  const ErrInvalidVpnClientId := "invalid vpn client id"
  const ErrFailedToUpdateProxyClient := "failed to update proxy client"
  const ErrFailedToDeleteProxyClient := "failed to delete proxy client"

  datatype Body =
    | NoBody
    | ErrorText(message: string)
    | ValidationFailed(errors: seq<FieldError>)  // "validation failed: " and the validator's report
    | ClientJson(client: ProxyClientResponse)
    | ClientListJson(clients: seq<ProxyClientResponse>)
    | SuccessJson                                // {"success": true}

  datatype HttpResponse = HttpResponse(status: int, body: Body)

  /** The list endpoint's query parameters id, title and os; "" is an absent parameter. */
  datatype ListQuery = ListQuery(id: string, title: string, os: string)

  const NoParameters := ListQuery("", "", "")

  /**
   * The list filter: every parameter that is present must equal the client's
   * field, the id compared as its canonical base-10 spelling.
   */
  predicate Matches(q: ListQuery, c: ProxyClientDTO) {
    && (q.id == "" || FormatInt(c.id) == q.id)
    && (q.title == "" || c.title == q.title)
    && (q.os == "" || c.os == q.os)
  }

  /** The clients that match, in their original order. */
  function Filter(clients: seq<ProxyClientDTO>, q: ListQuery): seq<ProxyClientDTO>
    decreases |clients|
  {
    if clients == [] then []
    else
      var last := clients[|clients| - 1];
      Filter(clients[..|clients| - 1], q) + (if Matches(q, last) then [last] else [])
  }

  function ToResponses(clients: seq<ProxyClientDTO>, formatTime: Time -> string): seq<ProxyClientResponse> {
    seq(|clients|, k requires 0 <= k < |clients| => MapAppDTOToResponse(clients[k], formatTime))
  }

  /**
   * `dtos` lists exactly the stored rows that match `q`: each as a full copy,
   * each once, in some order.
   */
  ghost predicate ListsMatches(dtos: seq<ProxyClientDTO>, rows: map<Int64, ProxyClientRow>, q: ListQuery) {
    && (forall k :: 0 <= k < |dtos| ==>
          dtos[k].id in rows && dtos[k] == FullCopy(rows[dtos[k].id]) && Matches(q, dtos[k]))
    && DistinctIds(dtos)
    && (forall id :: id in rows && Matches(q, FullCopy(rows[id])) ==>
          exists k :: 0 <= k < |dtos| && dtos[k].id == id)
  }

  ghost predicate SomeRowMatches(rows: map<Int64, ProxyClientRow>, q: ListQuery) {
    exists id :: id in rows && Matches(q, FullCopy(rows[id]))
  }

  /** Every stored row would pass the request validation rules. */
  ghost predicate RowsFollowRules(rows: map<Int64, ProxyClientRow>, isUrl: string -> bool) {
    forall id :: id in rows ==>
      IsValid(ProxyClientRequest(rows[id].title, rows[id].os, rows[id].downloadLink), isUrl)
  }

  /** The filtering loop of the list handler: keep the matching clients, in order, as responses. */
  method FilterClients(clients: seq<ProxyClientDTO>, q: ListQuery, formatTime: Time -> string)
    returns (filtered: seq<ProxyClientResponse>)
    ensures filtered == ToResponses(Filter(clients, q), formatTime)
  {
    filtered := [];
    for i := 0 to |clients|
      invariant filtered == ToResponses(Filter(clients[..i], q), formatTime)
    {
      assert clients[..i + 1][..i] == clients[..i];
      var client := clients[i];
      if Matches(q, client) {
        filtered := filtered + [MapAppDTOToResponse(client, formatTime)];
      }
    }
    assert clients[..|clients|] == clients;
  }

  /** A client is kept exactly when it was in the input and matches. */
  lemma {:induction false} FilterMembership(clients: seq<ProxyClientDTO>, q: ListQuery, c: ProxyClientDTO)
    ensures c in Filter(clients, q) <==> c in clients && Matches(q, c)
    decreases |clients|
  {
    if clients != [] {
      var init := clients[..|clients| - 1];
      FilterMembership(init, q, c);
      assert clients == init + [clients[|clients| - 1]];
    }
  }

  /** Filtering distributes over concatenation, so the input's order is kept. */
  lemma {:induction false} FilterAppend(s: seq<ProxyClientDTO>, t: seq<ProxyClientDTO>, q: ListQuery)
    ensures Filter(s + t, q) == Filter(s, q) + Filter(t, q)
    decreases |t|
  {
    if t == [] {
      assert s + t == s;
    } else {
      var init := t[..|t| - 1];
      var last := t[|t| - 1];
      FilterAppend(s, init, q);
      assert (s + t)[..|s + t| - 1] == s + init;
      assert (s + t)[|s + t| - 1] == last;
    }
  }

  /** With no query parameters every client is kept. */
  lemma {:induction false} FilterWithoutParameters(clients: seq<ProxyClientDTO>)
    ensures Filter(clients, NoParameters) == clients
    decreases |clients|
  {
    if clients != [] {
      FilterWithoutParameters(clients[..|clients| - 1]);
      assert clients == clients[..|clients| - 1] + [clients[|clients| - 1]];
    }
  }

  /** Filtering never makes two kept clients share an id. */
  lemma {:induction false} FilterKeepsIdsDistinct(clients: seq<ProxyClientDTO>, q: ListQuery)
    requires DistinctIds(clients)
    ensures DistinctIds(Filter(clients, q))
    decreases |clients|
  {
    if clients != [] {
      var init := clients[..|clients| - 1];
      var last := clients[|clients| - 1];
      FilterKeepsIdsDistinct(init, q);
      var fi := Filter(init, q);
      var f := Filter(clients, q);
      assert f == fi + (if Matches(q, last) then [last] else []);
      forall j, k | 0 <= j < k < |f| ensures f[j].id != f[k].id {
        if k == |fi| {
          assert f[j] == fi[j] && f[k] == last;
          FilterMembership(init, q, fi[j]);
          var i :| 0 <= i < |init| && init[i] == fi[j];
          assert clients[i] == fi[j] && clients[|clients| - 1] == last;
        } else {
          assert f[j] == fi[j] && f[k] == fi[k];
        }
      }
    }
  }

  /** A present id parameter that matches parses, as an int64, to the client's id. */
  lemma IdParameterParsesToId(q: ListQuery, c: ProxyClientDTO)
    requires q.id != "" && Matches(q, c)
    ensures ParseInt64(q.id) == Some(c.id)
  {
    FormatParseRoundTrip(c.id);
  }

  /** An id parameter with a leading zero, such as "007", matches no client at all. */
  lemma LeadingZeroIdMatchesNothing(q: ListQuery, c: ProxyClientDTO)
    requires |q.id| >= 2 && q.id[0] == '0'
    ensures !Matches(q, c)
  {
    LeadingZeroNeverFormatted(q.id, c.id);
  }

  /** A listing filtered by a present id parameter holds at most one client. */
  lemma IdQueryListsAtMostOne(dtos: seq<ProxyClientDTO>, rows: map<Int64, ProxyClientRow>, q: ListQuery)
    requires ListsMatches(dtos, rows, q) && q.id != ""
    ensures |dtos| <= 1
  {
    if |dtos| >= 2 {
      assert FormatInt(dtos[0].id) == q.id == FormatInt(dtos[1].id);
      FormatIntInjective(dtos[0].id, dtos[1].id);
      assert false;
    }
  }

  /** Filtering a listing of the whole table lists exactly the matching rows. */
  lemma FilterOfTableListing(dtos: seq<ProxyClientDTO>, rows: map<Int64, ProxyClientRow>, q: ListQuery)
    requires ListsTable(dtos, rows)
    ensures ListsMatches(Filter(dtos, q), rows, q)
    ensures Filter(dtos, q) == [] <==> !SomeRowMatches(rows, q)
  {
    var f := Filter(dtos, q);
    forall k | 0 <= k < |f|
      ensures f[k].id in rows && f[k] == FullCopy(rows[f[k].id]) && Matches(q, f[k])
    {
      FilterMembership(dtos, q, f[k]);
    }
    FilterKeepsIdsDistinct(dtos, q);
    forall id | id in rows && Matches(q, FullCopy(rows[id]))
      ensures exists k :: 0 <= k < |f| && f[k].id == id
    {
      var j :| 0 <= j < |dtos| && dtos[j].id == id;
      FilterMembership(dtos, q, dtos[j]);
      var k :| 0 <= k < |f| && f[k] == dtos[j];
    }
    if f != [] {
      assert f[0].id in rows && Matches(q, FullCopy(rows[f[0].id]));
    }
  }

  /**
   * The example of two stored clients, (1, "A", windows) and (2, "B", linux):
   * os=linux keeps only the second and os=macos keeps none.
   */
  lemma FilterByOsExample(t1: Time, t2: Time)
    ensures var c1 := ProxyClientDTO(1, "A", "windows", "", t1, t1);
      var c2 := ProxyClientDTO(2, "B", "linux", "", t2, t2);
      && Filter([c1, c2], ListQuery("", "", "linux")) == [c2]
      && Filter([c1, c2], ListQuery("", "", "macos")) == []
  {
    var c1 := ProxyClientDTO(1, "A", "windows", "", t1, t1);
    var c2 := ProxyClientDTO(2, "B", "linux", "", t2, t2);
    var linux := ListQuery("", "", "linux");
    var macos := ListQuery("", "", "macos");
    assert [c1, c2][..1] == [c1] && [c1][..0] == [];
    assert Filter([c1], linux) == [] && Filter([c1], macos) == [];
    assert Filter([c1, c2], linux) == Filter([c1], linux) + [c2];
    assert Filter([c1, c2], macos) == Filter([c1], macos);
  }

  class ProxyClientHandler {
    const useCase: ProxyClientUseCase
    /** The validator's url rule. */
    const isUrl: string -> bool
    /** time.Time.Format with the RFC 3339 layout. */
    const formatTime: Time -> string

    constructor (useCase: ProxyClientUseCase, isUrl: string -> bool, formatTime: Time -> string)
      ensures this.useCase == useCase && this.isUrl == isUrl && this.formatTime == formatTime
    {
      this.useCase := useCase;
      this.isUrl := isUrl;
      this.formatTime := formatTime;
    }

    /**
     * POST /proxy-clients: 400 for a body that does not decode or does not
     * validate, 500 when the use case fails, otherwise 201 with the new
     * client, whose timestamps are shown as the formatted zero time.
     */
    method CreateProxyClient(body: Option<ProxyClientRequest>, fails: bool) returns (resp: HttpResponse)
      requires useCase.repo.Valid()
      modifies useCase.repo
      ensures useCase.repo.Valid()
      ensures body.None? ==>
        resp == HttpResponse(StatusBadRequest, ErrorText(ErrInvalidRequestBody)) && unchanged(useCase.repo)
      ensures body.Some? && !IsValid(body.value, isUrl) ==>
        && resp == HttpResponse(StatusBadRequest, ValidationFailed(Validate(body.value, isUrl)))
        && unchanged(useCase.repo)
      ensures body.Some? && IsValid(body.value, isUrl) && (fails || old(useCase.repo.nextId) > MaxInt64) ==>
        && resp == HttpResponse(StatusInternalServerError, ErrorText(ErrFailedToCreateProxyClient))
        && unchanged(useCase.repo)
      ensures body.Some? && IsValid(body.value, isUrl) && !fails && old(useCase.repo.nextId) <= MaxInt64 ==>
        var id: Int64 := old(useCase.repo.nextId);
        var req := body.value;
        var now := useCase.repo.clock;
        && resp == HttpResponse(StatusCreated, ClientJson(ProxyClientResponse(
             id, req.title, req.os, req.downloadLink, formatTime(ZeroTime), formatTime(ZeroTime))))
        && now == old(useCase.repo.clock) + 1
        && useCase.repo.rows == old(useCase.repo.rows)[id := ProxyClientRow(id, req.title, req.os, req.downloadLink, now, now)]
        && useCase.repo.nextId == id + 1
      ensures old(RowsFollowRules(useCase.repo.rows, isUrl)) ==> RowsFollowRules(useCase.repo.rows, isUrl)
    {
      if body.None? {
        return HttpResponse(StatusBadRequest, ErrorText(ErrInvalidRequestBody));
      }
      var req := body.value;
      var errors := Validate(req, isUrl);
      if errors != [] {
        return HttpResponse(StatusBadRequest, ValidationFailed(errors));
      }
      var appDto := MapRequestToAppDTO(req);
      var created := useCase.CreateProxyClient(appDto, fails);
      if created.Err? {
        return HttpResponse(StatusInternalServerError, ErrorText(ErrFailedToCreateProxyClient));
      }
      resp := HttpResponse(StatusCreated, ClientJson(MapAppDTOToResponse(created.value, formatTime)));
    }

    /**
     * GET /proxy-clients: 500 when the use case fails, 404 when no stored
     * client matches the query, otherwise 200 with exactly the matching
     * clients, each once.
     */
    method GetAllProxyClients(q: ListQuery, fails: bool) returns (resp: HttpResponse)
      requires useCase.repo.Valid()
      ensures fails ==> resp == HttpResponse(StatusInternalServerError, ErrorText(ErrFailedToFetchProxyClients))
      ensures !fails && !SomeRowMatches(useCase.repo.rows, q) ==>
        resp == HttpResponse(StatusNotFound, ErrorText(ErrNoVpnClientsFound))
      ensures !fails && SomeRowMatches(useCase.repo.rows, q) ==>
        && resp.status == StatusOK && resp.body.ClientListJson?
        && exists dtos :: ListsMatches(dtos, useCase.repo.rows, q)
                          && resp.body.clients == ToResponses(dtos, formatTime)
    {
      var clients := useCase.GetAllProxyClients(fails);
      if clients.Err? {
        return HttpResponse(StatusInternalServerError, ErrorText(ErrFailedToFetchProxyClients));
      }
      var filtered := FilterClients(clients.value, q, formatTime);
      FilterOfTableListing(clients.value, useCase.repo.rows, q);
      if |filtered| == 0 {
        return HttpResponse(StatusNotFound, ErrorText(ErrNoVpnClientsFound));
      }
      resp := HttpResponse(StatusOK, ClientListJson(filtered));
    }

    /**
     * PATCH /clients/{id}: 400 for a path id that is not a base-10 int64, then
     * 400 for a body that does not decode or validate; the path id replaces
     * the id. Any use-case failure, id 0 and an unknown id included, is 500,
     * never 404; success is 200 with {"success": true}.
     */
    method UpdateProxyClient(rawId: string, body: Option<ProxyClientRequest>, fault: DbFault)
      returns (resp: HttpResponse)
      requires useCase.repo.Valid()
      modifies useCase.repo
      ensures useCase.repo.Valid()
      ensures resp.status != StatusNotFound
      ensures ParseInt64(rawId).None? ==>
        resp == HttpResponse(StatusBadRequest, ErrorText(ErrInvalidVpnClientId)) && unchanged(useCase.repo)
      ensures ParseInt64(rawId).Some? && body.None? ==>
        resp == HttpResponse(StatusBadRequest, ErrorText(ErrInvalidRequestBody)) && unchanged(useCase.repo)
      ensures ParseInt64(rawId).Some? && body.Some? && !IsValid(body.value, isUrl) ==>
        && resp == HttpResponse(StatusBadRequest, ValidationFailed(Validate(body.value, isUrl)))
        && unchanged(useCase.repo)
      ensures ParseInt64(rawId).Some? && body.Some? && IsValid(body.value, isUrl) ==>
        var id := ParseInt64(rawId).value;
        var req := body.value;
        if id == 0 || fault == StatementFails || id !in old(useCase.repo.rows) then
          && resp == HttpResponse(StatusInternalServerError, ErrorText(ErrFailedToUpdateProxyClient))
          && unchanged(useCase.repo)
        else
          && resp == (if fault == RowsAffectedFails
                      then HttpResponse(StatusInternalServerError, ErrorText(ErrFailedToUpdateProxyClient))
                      else HttpResponse(StatusOK, SuccessJson))
          && useCase.repo.clock == old(useCase.repo.clock) + 1
          && useCase.repo.nextId == old(useCase.repo.nextId)
          && useCase.repo.rows == old(useCase.repo.rows)[id := old(useCase.repo.rows)[id].(
               title := req.title,
               os := req.os,
               downloadLink := req.downloadLink,
               updatedAt := useCase.repo.clock)]
      ensures old(RowsFollowRules(useCase.repo.rows, isUrl)) ==> RowsFollowRules(useCase.repo.rows, isUrl)
    {
      var parsed := ParseInt64(rawId);
      if parsed.None? {
        return HttpResponse(StatusBadRequest, ErrorText(ErrInvalidVpnClientId));
      }
      if body.None? {
        return HttpResponse(StatusBadRequest, ErrorText(ErrInvalidRequestBody));
      }
      var req := body.value;
      var errors := Validate(req, isUrl);
      if errors != [] {
        return HttpResponse(StatusBadRequest, ValidationFailed(errors));
      }
      var appDto := MapRequestToAppDTO(req).(id := parsed.value);
      var outcome := useCase.UpdateProxyClient(appDto, fault);
      if outcome.Fail? {
        return HttpResponse(StatusInternalServerError, ErrorText(ErrFailedToUpdateProxyClient));
      }
      resp := HttpResponse(StatusOK, SuccessJson);
    }

    /**
     * DELETE /clients/{id}: 400 for a path id that is not a base-10 int64,
     * 500 for any use-case failure (id 0 and an unknown id included), and 204
     * with no body once the row is gone.
     */
    method DeleteProxyClient(rawId: string, fault: DbFault) returns (resp: HttpResponse)
      requires useCase.repo.Valid()
      modifies useCase.repo
      ensures useCase.repo.Valid()
      ensures resp.status != StatusNotFound
      ensures ParseInt64(rawId).None? ==>
        resp == HttpResponse(StatusBadRequest, ErrorText(ErrInvalidVpnClientId)) && unchanged(useCase.repo)
      ensures ParseInt64(rawId).Some? ==>
        var id := ParseInt64(rawId).value;
        if id == 0 || fault == StatementFails || id !in old(useCase.repo.rows) then
          && resp == HttpResponse(StatusInternalServerError, ErrorText(ErrFailedToDeleteProxyClient))
          && unchanged(useCase.repo)
        else
          && resp == (if fault == RowsAffectedFails
                      then HttpResponse(StatusInternalServerError, ErrorText(ErrFailedToDeleteProxyClient))
                      else HttpResponse(StatusNoContent, NoBody))
          && useCase.repo.rows == old(useCase.repo.rows) - {id}
          && useCase.repo.nextId == old(useCase.repo.nextId)
          && useCase.repo.clock == old(useCase.repo.clock)
      ensures old(RowsFollowRules(useCase.repo.rows, isUrl)) ==> RowsFollowRules(useCase.repo.rows, isUrl)
    {
      var parsed := ParseInt64(rawId);
      if parsed.None? {
        return HttpResponse(StatusBadRequest, ErrorText(ErrInvalidVpnClientId));
      }
      var outcome := useCase.DeleteProxyClient(parsed.value, fault);
      if outcome.Fail? {
        return HttpResponse(StatusInternalServerError, ErrorText(ErrFailedToDeleteProxyClient));
      }
      resp := HttpResponse(StatusNoContent, NoBody);
    }
  }
}

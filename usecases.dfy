/**
 * The proxy-client use cases: input guards, delegation to the repository,
 * and the projection of entities into transfer objects. Every failure the
 * repository reports is passed on as a failure, never as a result.
 */
module UseCases {
  import opened Outcomes
  import opened StrConv
  import opened Entities
  import opened AppDto
  import opened Repositories

  /** The guard of CreateProxyClient: title, os and download_link are all non-empty. */
  predicate HasRequiredFields(d: ProxyClientDTO) {
    d.title != "" && d.os != "" && d.downloadLink != ""
  }

  /** The transfer object GetAllProxyClients builds: all six fields. */
  function FullCopy(row: ProxyClientRow): ProxyClientDTO {
    ProxyClientDTO(row.id, row.title, row.os, row.downloadLink, row.createdAt, row.updatedAt)
  }

  /**
   * The transfer object CreateProxyClient and GetProxyClientByID build: id,
   * title, os and download link; the timestamps are left at their zero value.
   */
  function CopyWithoutTimestamps(row: ProxyClientRow): ProxyClientDTO {
    ProxyClientDTO(row.id, row.title, row.os, row.downloadLink, ZeroTime, ZeroTime)
  }

  /** No two transfer objects in `dtos` carry the same id. */
  predicate DistinctIds(dtos: seq<ProxyClientDTO>) {
    forall j, k :: 0 <= j < k < |dtos| ==> dtos[j].id != dtos[k].id
  }

  /**
   * `dtos` lists the table: one full copy of every row, each exactly once,
   * in some order.
   */
  ghost predicate ListsTable(dtos: seq<ProxyClientDTO>, rows: map<Int64, ProxyClientRow>) {
    && |dtos| == |rows|
    && (forall k :: 0 <= k < |dtos| ==> dtos[k].id in rows && dtos[k] == FullCopy(rows[dtos[k].id]))
    && DistinctIds(dtos)
    && (forall id :: id in rows ==> exists k :: 0 <= k < |dtos| && dtos[k].id == id)
  }

  class ProxyClientUseCase {
    const repo: ProxyClientRepository

    constructor (repo: ProxyClientRepository)
      ensures this.repo == repo
    {
      this.repo := repo;
    }

    /**
     * Rejects a transfer object with an empty title, os or download link
     * without touching the repository; otherwise inserts an entity built from
     * those three fields and returns the new id with the same three fields.
     */
    method CreateProxyClient(d: ProxyClientDTO, fails: bool) returns (r: Result<ProxyClientDTO>)
      requires repo.Valid()
      modifies repo
      ensures repo.Valid()
      ensures !HasRequiredFields(d) ==> r == Err(Validation) && unchanged(repo)
      ensures HasRequiredFields(d) && (fails || old(repo.nextId) > MaxInt64) ==>
        r == Err(Persistence) && unchanged(repo)
      ensures HasRequiredFields(d) && !fails && old(repo.nextId) <= MaxInt64 ==>
        var id: Int64 := old(repo.nextId);
        && r == Ok(ProxyClientDTO(id, d.title, d.os, d.downloadLink, ZeroTime, ZeroTime))
        && repo.clock == old(repo.clock) + 1
        && repo.rows == old(repo.rows)[id := ProxyClientRow(id, d.title, d.os, d.downloadLink, repo.clock, repo.clock)]
        && repo.nextId == id + 1
    {
      if d.title == "" || d.os == "" || d.downloadLink == "" {
        return Err(Validation);
      }
      var client := new ProxyClient(d.title, d.os, d.downloadLink);
      var created := repo.Create(client, fails);
      if created.Err? {
        return Err(created.error);
      }
      r := Ok(CopyWithoutTimestamps(created.value.Row()));
    }

    /** Lists every stored client as a full transfer object; a failed read is an error. */
    method GetAllProxyClients(fails: bool) returns (r: Result<seq<ProxyClientDTO>>)
      requires repo.Valid()
      ensures fails ==> r == Err(Persistence)
      ensures !fails ==> r.Ok? && ListsTable(r.value, repo.rows)
    {
      var fetched := repo.GetAll(fails);
      if fetched.Err? {
        return Err(fetched.error);
      }
      var clients := fetched.value;
      var dtos: seq<ProxyClientDTO> := [];
      for i := 0 to |clients|
        invariant |dtos| == i
        invariant forall k :: 0 <= k < i ==> dtos[k] == FullCopy(clients[k].Row())
      {
        dtos := dtos + [FullCopy(clients[i].Row())];
      }
      forall id | id in repo.rows
        ensures exists k :: 0 <= k < |dtos| && dtos[k].id == id
      {
        var k :| 0 <= k < |clients| && clients[k].id == id;
        assert dtos[k].id == id;
      }
      r := Ok(dtos);
    }

    /** The stored client with this id, without timestamps, or NotFound. */
    method GetProxyClientByID(id: Int64, fails: bool) returns (r: Result<ProxyClientDTO>)
      requires repo.Valid()
      ensures fails ==> r == Err(Persistence)
      ensures !fails && id in repo.rows ==> r == Ok(CopyWithoutTimestamps(repo.rows[id]))
      ensures !fails && id !in repo.rows ==> r == Err(NotFound)
    {
      var fetched := repo.GetByID(id, fails);
      if fetched.Err? {
        return Err(fetched.error);
      }
      r := Ok(CopyWithoutTimestamps(fetched.value.Row()));
    }

    /**
     * Rejects id 0 without touching the repository; otherwise replaces the
     * title, os and download link of the row with that id (empty values are
     * not rejected here).
     */
    method UpdateProxyClient(d: ProxyClientDTO, fault: DbFault) returns (r: Outcome)
      requires repo.Valid()
      modifies repo
      ensures repo.Valid()
      ensures d.id == 0 ==> r == Fail(Validation) && unchanged(repo)
      ensures d.id != 0 && (fault == StatementFails || d.id !in old(repo.rows)) ==>
        && r == Fail(if fault == NoFault then NotFound else Persistence)
        && unchanged(repo)
      ensures d.id != 0 && fault != StatementFails && d.id in old(repo.rows) ==>
        && r == (if fault == RowsAffectedFails then Fail(Persistence) else Pass)
        && repo.clock == old(repo.clock) + 1
        && repo.nextId == old(repo.nextId)
        && repo.rows == old(repo.rows)[d.id := old(repo.rows)[d.id].(
             title := d.title,
             os := d.os,
             downloadLink := d.downloadLink,
             updatedAt := repo.clock)]
    {
      if d.id == 0 {
        return Fail(Validation);
      }
      var client := new ProxyClient.FromRow(ProxyClientRow(d.id, d.title, d.os, d.downloadLink, ZeroTime, ZeroTime));
      r := repo.Update(client, fault);
    }

    /** Rejects id 0 without touching the repository; otherwise deletes the row with that id. */
    method DeleteProxyClient(id: Int64, fault: DbFault) returns (r: Outcome)
      requires repo.Valid()
      modifies repo
      ensures repo.Valid()
      ensures id == 0 ==> r == Fail(Validation) && unchanged(repo)
      ensures id != 0 && (fault == StatementFails || id !in old(repo.rows)) ==>
        && r == Fail(if fault == NoFault then NotFound else Persistence)
        && unchanged(repo)
      ensures id != 0 && fault != StatementFails && id in old(repo.rows) ==>
        && r == (if fault == RowsAffectedFails then Fail(Persistence) else Pass)
        && repo.rows == old(repo.rows) - {id}
        && repo.nextId == old(repo.nextId) && repo.clock == old(repo.clock)
    {
      if id == 0 {
        return Fail(Validation);
      }
      r := repo.Delete(id, fault);
    }
  }
}

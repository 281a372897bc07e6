/**
 * The proxy-client repository over the proxy_clients table. The table is a
 * map from id to row; the id column's sequence is a counter; the NOW() the
 * statements call is an abstract clock that ticks once for every statement
 * that stamps a row. Each operation is one autocommitted statement, so a
 * statement either takes effect entirely or not at all.
 *
 * What the driver may do wrong is an explicit parameter: `fails` for the
 * statements whose only error is the statement's own, and a DbFault for
 * Update and Delete, which also ask the driver for the affected-row count.
 */
module Repositories {
  import opened Outcomes
  import opened StrConv
  import opened Entities

  /** How an UPDATE or DELETE goes wrong, if it does. */
  datatype DbFault =
    | NoFault
    | StatementFails      // Exec returns an error; the statement had no effect
    | RowsAffectedFails   // the statement ran, then RowsAffected returns an error

  class ProxyClientRepository {
    /** The table, keyed by the id column. */
    var rows: map<Int64, ProxyClientRow>
    /** The next value of the id sequence; beyond MaxInt64 the sequence is exhausted. */
    var nextId: int
    /** The last value NOW() returned. */
    var clock: Time

    /**
     * Every row is stored under its own id, which the sequence has already
     * handed out; its timestamps are real (not zero), created_at is not after
     * updated_at, and neither is in the future.
     */
    ghost predicate Valid()
      reads this
    {
      && 1 <= nextId <= MaxInt64 + 1
      && forall id :: id in rows ==>
           && 0 < id < nextId
           && rows[id].id == id
           && ZeroTime < rows[id].createdAt <= rows[id].updatedAt <= clock
    }

    /** An empty table with a fresh sequence. */
    constructor ()
      ensures Valid()
      ensures rows == map[] && nextId == 1 && clock == ZeroTime
    {
      rows := map[];
      nextId := 1;
      clock := ZeroTime;
    }

    /**
     * INSERT ... VALUES (title, os, download_link, NOW(), NOW())
     * RETURNING id, created_at, updated_at, scanned back into `client`.
     * On success the same entity is returned, now carrying a fresh id and
     * equal timestamps, and the table has gained exactly that row.
     */
    method Create(client: ProxyClient, fails: bool) returns (r: Result<ProxyClient>)
      requires Valid()
      modifies this, client
      ensures Valid()
      ensures fails || old(nextId) > MaxInt64 ==>
        r == Err(Persistence) && unchanged(this, client)
      ensures !fails && old(nextId) <= MaxInt64 ==>
        && r == Ok(client)
        && client.id == old(nextId)
        && client.id !in old(rows)
        && client.title == old(client.title)
        && client.os == old(client.os)
        && client.downloadLink == old(client.downloadLink)
        && clock == old(clock) + 1
        && client.createdAt == clock && client.updatedAt == clock
        && rows == old(rows)[client.id := client.Row()]
        && nextId == old(nextId) + 1
    {
      if fails || nextId > MaxInt64 {
        return Err(Persistence);
      }
      clock := clock + 1;
      client.id, client.createdAt, client.updatedAt := nextId, clock, clock;
      rows := rows[client.id := client.Row()];
      nextId := nextId + 1;
      r := Ok(client);
    }

    /**
     * SELECT every row, in no particular order: each row is returned exactly
     * once, as a new entity. An empty table gives an empty sequence.
     */
    method GetAll(fails: bool) returns (r: Result<seq<ProxyClient>>)
      requires Valid()
      ensures fails ==> r == Err(Persistence)
      ensures !fails ==> r.Ok? && |r.value| == |rows|
      ensures !fails ==> forall k :: 0 <= k < |r.value| ==>
        fresh(r.value[k]) && r.value[k].id in rows && r.value[k].Row() == rows[r.value[k].id]
      ensures !fails ==> forall j, k :: 0 <= j < k < |r.value| ==> r.value[j].id != r.value[k].id
      ensures !fails ==> forall id :: id in rows ==> exists k :: 0 <= k < |r.value| && r.value[k].id == id
    {
      if fails {
        return Err(Persistence);
      }
      var result: seq<ProxyClient> := [];
      var pending := rows.Keys;
      while pending != {}
        invariant pending <= rows.Keys
        invariant |result| + |pending| == |rows|
        invariant forall k :: 0 <= k < |result| ==>
          fresh(result[k]) && result[k].id in rows && result[k].id !in pending
          && result[k].Row() == rows[result[k].id]
        invariant forall j, k :: 0 <= j < k < |result| ==> result[j].id != result[k].id
        invariant forall id :: id in rows && id !in pending ==>
          exists k :: 0 <= k < |result| && result[k].id == id
        decreases pending
      {
        var id :| id in pending;
        var client := new ProxyClient.FromRow(rows[id]);
        ghost var before := result;
        result := result + [client];
        pending := pending - {id};
        forall other | other in rows && other !in pending
          ensures exists k :: 0 <= k < |result| && result[k].id == other
        {
          if other == id {
            assert result[|before|].id == other;
          } else {
            var k :| 0 <= k < |before| && before[k].id == other;
            assert result[k] == before[k];
          }
        }
      }
      r := Ok(result);
    }

    /** SELECT ... WHERE id = $1: the stored row as a new entity, or NotFound. */
    method GetByID(id: Int64, fails: bool) returns (r: Result<ProxyClient>)
      requires Valid()
      ensures fails ==> r == Err(Persistence)
      ensures !fails && id in rows ==> r.Ok? && fresh(r.value) && r.value.Row() == rows[id]
      ensures !fails && id !in rows ==> r == Err(NotFound)
    {
      if fails {
        return Err(Persistence);
      }
      if id !in rows {
        return Err(NotFound);
      }
      var client := new ProxyClient.FromRow(rows[id]);
      r := Ok(client);
    }

    /**
     * UPDATE ... SET title, os, download_link, updated_at = NOW() WHERE id.
     * On an existing id the row takes the entity's three fields and a new
     * updated_at, keeping its id and created_at; no other row changes. When
     * no row matches, the table is untouched and the error is NotFound.
     */
    method Update(client: ProxyClient, fault: DbFault) returns (r: Outcome)
      requires Valid()
      modifies this
      ensures Valid()
      ensures fault == StatementFails ==>
        r == Fail(Persistence) && unchanged(this)
      ensures fault != StatementFails && client.id !in old(rows) ==>
        && r == Fail(if fault == RowsAffectedFails then Persistence else NotFound)
        && unchanged(this)
      ensures fault != StatementFails && client.id in old(rows) ==>
        && r == (if fault == RowsAffectedFails then Fail(Persistence) else Pass)
        && clock == old(clock) + 1
        && nextId == old(nextId)
        && rows == old(rows)[client.id := old(rows)[client.id].(
             title := client.title,
             os := client.os,
             downloadLink := client.downloadLink,
             updatedAt := clock)]
    {
      if fault == StatementFails {
        return Fail(Persistence);
      }
      var affected := 0;
      if client.id in rows {
        clock := clock + 1;
        var row := rows[client.id];
        rows := rows[client.id := row.(title := client.title, os := client.os,
                                       downloadLink := client.downloadLink, updatedAt := clock)];
        affected := 1;
      }
      if fault == RowsAffectedFails {
        return Fail(Persistence);
      }
      if affected == 0 {
        return Fail(NotFound);
      }
      r := Pass;
    }

    /**
     * DELETE ... WHERE id: removes exactly that row. When no row matches, the
     * table is untouched and the error is NotFound.
     */
    method Delete(id: Int64, fault: DbFault) returns (r: Outcome)
      requires Valid()
      modifies this
      ensures Valid()
      ensures fault == StatementFails ==>
        r == Fail(Persistence) && unchanged(this)
      ensures fault != StatementFails && id !in old(rows) ==>
        && r == Fail(if fault == RowsAffectedFails then Persistence else NotFound)
        && unchanged(this)
      ensures fault != StatementFails && id in old(rows) ==>
        && r == (if fault == RowsAffectedFails then Fail(Persistence) else Pass)
        && rows == old(rows) - {id}
        && nextId == old(nextId) && clock == old(clock)
    {
      if fault == StatementFails {
        return Fail(Persistence);
      }
      var affected := 0;
      if id in rows {
        rows := rows - {id};
        affected := 1;
      }
      if fault == RowsAffectedFails {
        return Fail(Persistence);
      }
      if affected == 0 {
        return Fail(NotFound);
      }
      r := Pass;
    }
  }
}

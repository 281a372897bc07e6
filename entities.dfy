/**
 * The persistence entity of a proxy client: a downloadable VPN client app
 * described by a title, a target OS and a download link, plus the id and the
 * two timestamps the store assigns.
 */
module Entities {
  import opened StrConv

  /**
   * An instant of the store's clock. Go's zero time.Time, which an entity
   * holds before the store fills it in, is ZeroTime.
   */
  type Time = nat

  const ZeroTime: Time := 0

  /** One row of the proxy_clients table, as a value. */
  datatype ProxyClientRow = ProxyClientRow(
    id: Int64,
    title: string,
    os: string,
    downloadLink: string,
    createdAt: Time,
    updatedAt: Time)

  /** The entity object the repository reads from and writes back into. */
  class ProxyClient {
    var id: Int64
    var title: string
    var os: string
    var downloadLink: string
    var createdAt: Time
    var updatedAt: Time

    /** The fields as one row value. */
    function Row(): ProxyClientRow
      reads this
    {
      ProxyClientRow(id, title, os, downloadLink, createdAt, updatedAt)
    }

    /** A new entity carrying only the client-settable fields; id and timestamps are zero. */
    constructor (title: string, os: string, downloadLink: string)
      ensures Row() == ProxyClientRow(0, title, os, downloadLink, ZeroTime, ZeroTime)
    {
      this.id := 0;
      this.title := title;
      this.os := os;
      this.downloadLink := downloadLink;
      this.createdAt := ZeroTime;
      this.updatedAt := ZeroTime;
    }

    /** A new entity scanned from a stored row. */
    constructor FromRow(row: ProxyClientRow)
      ensures Row() == row
    {
      this.id := row.id;
      this.title := row.title;
      this.os := row.os;
      this.downloadLink := row.downloadLink;
      this.createdAt := row.createdAt;
      this.updatedAt := row.updatedAt;
    }
  }
}

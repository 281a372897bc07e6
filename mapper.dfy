/**
 * Conversions between the wire objects and the transfer object. Timestamps
 * become text through `formatTime`, which stands for Go's time.Time.Format
 * with the RFC 3339 layout (date-time, section 5.6 of RFC 3339); the same
 * formatter is applied to both timestamps.
 */
module Mapper {
  import opened Entities
  import opened AppDto
  import opened ProxyClientDto

  /** A transfer object carrying the three client-settable fields; id and timestamps are zero. */
  function MapRequestToAppDTO(req: ProxyClientRequest): ProxyClientDTO {
    ProxyClientDTO(0, req.title, req.os, req.downloadLink, ZeroTime, ZeroTime)
  }

  /** The response object for a transfer object, with formatted timestamps. */
  function MapAppDTOToResponse(d: ProxyClientDTO, formatTime: Time -> string): ProxyClientResponse {
    ProxyClientResponse(d.id, d.title, d.os, d.downloadLink, formatTime(d.createdAt), formatTime(d.updatedAt))
  }

  /**
   * Mapping a request to a transfer object and on to a response keeps title,
   * os and download link; the response carries id 0 and the formatted zero
   * time in both timestamps.
   */
  lemma RequestToResponseRoundTrip(req: ProxyClientRequest, formatTime: Time -> string)
    ensures var resp := MapAppDTOToResponse(MapRequestToAppDTO(req), formatTime);
      && ProxyClientRequest(resp.title, resp.os, resp.downloadLink) == req
      && resp.id == 0
      && resp.createdAt == resp.updatedAt == formatTime(ZeroTime)
  {
  }

  /**
   * A response shows the transfer object's id, title, os and download link
   * unchanged, created_at as the formatted creation time and updated_at as the
   * formatted update time; two timestamps equal as instants are equal as text.
   */
  lemma ResponseShowsTransferObject(d: ProxyClientDTO, formatTime: Time -> string)
    ensures var resp := MapAppDTOToResponse(d, formatTime);
      && resp.id == d.id && resp.title == d.title && resp.os == d.os && resp.downloadLink == d.downloadLink
      && resp.createdAt == formatTime(d.createdAt) && resp.updatedAt == formatTime(d.updatedAt)
      && (d.createdAt == d.updatedAt ==> resp.createdAt == resp.updatedAt)
  {
  }
}

/**
 * The wire request and response of the proxy-client endpoints, and the
 * validation rules declared on the request: title is required; os is
 * required and one of five names; download_link is required and a URL.
 *
 * The validator checks each field's rules in the order they are declared and
 * stops at the first one the field breaks; it reports every field that broke
 * a rule, in field order. Whether a string is a URL is the validator's own
 * business, so it is a parameter, `isUrl`.
 */
module ProxyClientDto {
  import opened StrConv

  datatype ProxyClientRequest = ProxyClientRequest(
    title: string,
    os: string,
    downloadLink: string)

  /** The response object; the timestamps are already formatted text. */
  datatype ProxyClientResponse = ProxyClientResponse(
    id: Int64,
    title: string,
    os: string,
    downloadLink: string,
    createdAt: string,
    updatedAt: string)

  datatype Field = TitleField | OsField | DownloadLinkField

  /** The rules of the validate tags: required, oneof=..., url. */
  datatype Rule = Required | OneOf | Url

  /** One field and the first of its rules that it broke. */
  datatype FieldError = FieldError(field: Field, rule: Rule)

  /** The values the os field's oneof rule admits. */
  const OperatingSystems: seq<string> := ["windows", "macos", "linux", "android", "ios"]

  function CheckTitle(title: string): seq<FieldError> {
    if title == "" then [FieldError(TitleField, Required)] else []
  }

  function CheckOs(os: string): seq<FieldError> {
    if os == "" then [FieldError(OsField, Required)]
    else if os !in OperatingSystems then [FieldError(OsField, OneOf)]
    else []
  }

  function CheckDownloadLink(link: string, isUrl: string -> bool): seq<FieldError> {
    if link == "" then [FieldError(DownloadLinkField, Required)]
    else if !isUrl(link) then [FieldError(DownloadLinkField, Url)]
    else []
  }

  /** The validator's findings on a request; empty when the request passes. */
  function Validate(req: ProxyClientRequest, isUrl: string -> bool): seq<FieldError> {
    CheckTitle(req.title) + CheckOs(req.os) + CheckDownloadLink(req.downloadLink, isUrl)
  }

  predicate IsValid(req: ProxyClientRequest, isUrl: string -> bool) {
    Validate(req, isUrl) == []
  }

  /**
   * A request passes exactly when all three declared rules hold: a non-empty
   * title, an os from the list, and a non-empty download link that is a URL.
   */
  lemma ValidIffRulesHold(req: ProxyClientRequest, isUrl: string -> bool)
    ensures IsValid(req, isUrl) <==>
      && req.title != ""
      && req.os in OperatingSystems
      && req.downloadLink != "" && isUrl(req.downloadLink)
  {
  }

  /**
   * Each reported error names a rule the field actually broke, and each broken
   * field is reported once, with the first rule it broke: an empty value is
   * reported as Required, not as OneOf or Url.
   */
  lemma ValidationReportsBrokenRules(req: ProxyClientRequest, isUrl: string -> bool)
    ensures FieldError(TitleField, Required) in Validate(req, isUrl) <==> req.title == ""
    ensures FieldError(OsField, Required) in Validate(req, isUrl) <==> req.os == ""
    ensures FieldError(OsField, OneOf) in Validate(req, isUrl) <==>
      req.os != "" && req.os !in OperatingSystems
    ensures FieldError(DownloadLinkField, Required) in Validate(req, isUrl) <==> req.downloadLink == ""
    ensures FieldError(DownloadLinkField, Url) in Validate(req, isUrl) <==>
      req.downloadLink != "" && !isUrl(req.downloadLink)
    ensures forall e :: e in Validate(req, isUrl) ==>
      e.rule == Required || e == FieldError(OsField, OneOf) || e == FieldError(DownloadLinkField, Url)
    ensures forall i, j :: 0 <= i < j < |Validate(req, isUrl)| ==>
      Validate(req, isUrl)[i].field != Validate(req, isUrl)[j].field
    ensures |Validate(req, isUrl)| ==
      (if req.title == "" then 1 else 0)
      + (if req.os !in OperatingSystems then 1 else 0)
      + (if req.downloadLink == "" || !isUrl(req.downloadLink) then 1 else 0)
  {
  }

  /** "bsd" and the empty string are not accepted as an os, whatever the other fields hold. */
  lemma UnknownOsRejected(title: string, link: string, isUrl: string -> bool)
    ensures !IsValid(ProxyClientRequest(title, "bsd", link), isUrl)
    ensures !IsValid(ProxyClientRequest(title, "", link), isUrl)
  {
    assert FieldError(OsField, OneOf) in Validate(ProxyClientRequest(title, "bsd", link), isUrl);
    assert FieldError(OsField, Required) in Validate(ProxyClientRequest(title, "", link), isUrl);
  }
}

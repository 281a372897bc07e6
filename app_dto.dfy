/** The internal transfer object passed between the handlers and the use cases. */
module AppDto {
  import opened StrConv
  import opened Entities

  datatype ProxyClientDTO = ProxyClientDTO(
    id: Int64,
    title: string,
    os: string,
    downloadLink: string,
    createdAt: Time,
    updatedAt: Time)
}

# surfshadow-server proxy-client pipeline, in Dafny

surfshadow-server publishes downloadable VPN ("proxy") client apps. A proxy
client has a title, a target operating system and a download link. The store
assigns it an id and two timestamps. The server's only logic is the CRUD
pipeline for these records. This project models that pipeline layer by
layer and proves its contracts:

- `Repositories`: the `proxy_clients` table as a class. It holds a map from
  id to row, the id sequence as a counter, and an abstract clock that stands
  for SQL `NOW()`. Create, Update and Delete change that state in place;
  GetAll and GetByID only read it. Create also writes the new id and timestamps back into the
  caller's entity object, which is a class (`Entities.ProxyClient`).
- `UseCases`: the use-case class. It holds input guards (three non-empty
  fields on create, a non-zero id on update and delete), delegates to the
  repository, and projects entities into transfer objects (`AppDto`).
- `ProxyClientDto`: the wire request and response, and the validation rules
  declared on the request (`required`, `oneof`, `url`).
- `Mapper`: the field copies between request, transfer object and response.
- `Handlers`: the four HTTP handlers, each a decision from an already-decoded
  request to a status code and payload. Also the list filter, and its loop
  (`FilterClients`).
- `StrConv`: Go's `strconv.ParseInt(s, 10, 64)` and `strconv.FormatInt(n, 10)`,
  which the handlers use on ids.
- `Scenarios`: properties spanning several calls, such as delete twice, or
  create then list by id.

Failures are kept as kinds (`Validation`, `NotFound`, `Persistence`), not as
Go error strings. The driver's failures are explicit parameters of the
repository operations. For Create, GetAll and GetByID this is `fails`. For
Update and Delete it is a `DbFault`, because the driver can fail either on
the statement or when it reports the affected-row count. The validator's URL
rule is a parameter `isUrl`. The RFC 3339 timestamp formatter
(`time.Time.Format(time.RFC3339)`, date-time as in section 5.6 of RFC 3339)
is a parameter `formatTime`.

Two behaviours of the code are modelled as written:

- Update and Delete answer 500, never 404, for an unknown id, and also for
  id 0, which the use case rejects as invalid input
  (internal/presentation/handlers/proxy_client_handler.go:192-197, :233-238).
  The handlers' own annotations (proxy_client_handler.go:160, :219) and
  docs/docs.go advertise a 404 that is never produced.
- The create response shows the formatted zero time in both timestamps,
  because the use case copies only id, title, os and download link from the
  stored entity (internal/application/usecases/proxy_client_usecase.go:55-60).

## Model

| member | source | states |
|---|---|---|
| StrConv.NatToDecimalValue | internal/presentation/handlers/proxy_client_handler.go:122 | the canonical decimal spelling of a natural number is a non-empty digit string whose value is that number |
| StrConv.NatToDecimalNoLeadingZero | internal/presentation/handlers/proxy_client_handler.go:122 | a canonical spelling starts with '0' only for zero |
| StrConv.FormatParseRoundTrip | internal/presentation/handlers/proxy_client_handler.go:166 | ParseInt(FormatInt(n, 10), 10, 64) gives back n for every int64 n |
| StrConv.FormatIntInjective | internal/presentation/handlers/proxy_client_handler.go:122 | two int64 values with the same FormatInt spelling are equal |
| StrConv.LeadingZeroNeverFormatted | internal/presentation/handlers/proxy_client_handler.go:122 | a string of length at least two that starts with '0' (e.g. "007") is the FormatInt spelling of no integer |
| StrConv.ParseInt64Examples | internal/presentation/handlers/proxy_client_handler.go:166 | the path-id parser accepts "42", "+7", "007" and "-5" with their values, and rejects "", "+", "-", "1a" and " 1" |
| Entities.ProxyClient.constructor | internal/application/usecases/proxy_client_usecase.go:41-45 | an entity built from title, os and download link has id 0 and zero timestamps |
| Entities.ProxyClient.FromRow | internal/infrastructure/db/repositories/proxy_client_repository.go:86-87 | an entity scanned from a row carries exactly that row's six fields |
| Repositories.ProxyClientRepository.constructor | internal/infrastructure/db/repositories/proxy_client_repository.go:27-32 | a new repository has an empty table, a fresh id sequence and the clock at zero, and satisfies the table invariant |
| Repositories.ProxyClientRepository.Create | internal/infrastructure/db/repositories/proxy_client_repository.go:34-52 | on success it adds exactly one row under a fresh id not already in the table; both timestamps equal the new clock value; id and timestamps are written back into the caller's entity, which is returned with title, os and download link unchanged. On a driver failure or an exhausted sequence it returns Persistence and changes neither table nor entity. The table invariant is kept |
| Repositories.ProxyClientRepository.GetAll | internal/infrastructure/db/repositories/proxy_client_repository.go:54-75 | returns every stored row exactly once, as new entities in no promised order; an empty table gives an empty sequence; a driver failure is Persistence |
| Repositories.ProxyClientRepository.GetByID | internal/infrastructure/db/repositories/proxy_client_repository.go:77-95 | returns a new entity equal to the stored row when the id is present, NotFound when no row matches, Persistence on a driver failure |
| Repositories.ProxyClientRepository.Update | internal/infrastructure/db/repositories/proxy_client_repository.go:97-126 | on an existing id, replaces title, os and download link and sets updated_at to the new clock value; id, created_at and every other row stay unchanged. On an absent id it reports NotFound (zero rows affected) and leaves the table untouched. A failing statement is Persistence with no change; a failing row count is Persistence after the change |
| Repositories.ProxyClientRepository.Delete | internal/infrastructure/db/repositories/proxy_client_repository.go:128-156 | on an existing id, removes exactly that row; on an absent id, NotFound with the table untouched; the two driver faults as for Update |
| UseCases.ProxyClientUseCase.constructor | internal/application/usecases/proxy_client_usecase.go:26-31 | the use case holds the given repository |
| UseCases.ProxyClientUseCase.CreateProxyClient | internal/application/usecases/proxy_client_usecase.go:33-61 | an empty title, os or download link gives Validation without touching the repository. Otherwise the repository gains the row built from the three fields, and the result has the new id, the three fields and zero timestamps. Any repository failure is an error and never a result |
| UseCases.ProxyClientUseCase.GetAllProxyClients | internal/application/usecases/proxy_client_usecase.go:63-91 | without a failure, the result lists the table: one full six-field copy of every row, each id exactly once (empty for an empty table); a repository failure is Persistence |
| UseCases.ProxyClientUseCase.GetProxyClientByID | internal/application/usecases/proxy_client_usecase.go:93-110 | the stored row's id, title, os and download link with zero timestamps, NotFound for an absent id, and Persistence on a driver failure |
| UseCases.ProxyClientUseCase.UpdateProxyClient | internal/application/usecases/proxy_client_usecase.go:112-138 | id 0 gives Validation without touching the repository; empty fields are not rejected; any other id is updated exactly as the repository's Update promises, and its failures are passed on |
| UseCases.ProxyClientUseCase.DeleteProxyClient | internal/application/usecases/proxy_client_usecase.go:140-159 | id 0 gives Validation without touching the repository; any other id is deleted exactly as the repository's Delete promises, and its failures are passed on |
| ProxyClientDto.ValidIffRulesHold | internal/presentation/dto/proxy_client/proxy_client_request.go:4-6 | a request is valid exactly when the title is non-empty, the os is one of windows, macos, linux, android or ios, and the download link is non-empty and a URL |
| ProxyClientDto.ValidationReportsBrokenRules | internal/presentation/dto/proxy_client/proxy_client_request.go:4-6 | the validator reports, for each field, exactly the first declared rule the field breaks (an empty value as `required`): every reported error is one of the five declared (field, rule) pairs, no field is reported twice, and the report has one entry per broken field |
| ProxyClientDto.UnknownOsRejected | internal/presentation/dto/proxy_client/proxy_client_request.go:5 | os "bsd" and os "" are rejected whatever the other fields hold |
| Mapper.RequestToResponseRoundTrip | internal/presentation/mapper/mapper.go:11-28 | a request mapped to a transfer object and on to a response keeps title, os and download link; the response has id 0 and the formatted zero time in both timestamps |
| Mapper.ResponseShowsTransferObject | internal/presentation/mapper/mapper.go:19-29 | the response copies id, title, os and download link unchanged; created_at is the formatted created_at and updated_at the formatted updated_at, through the same formatter, so equal instants give equal text |
| Handlers.FilterClients | internal/presentation/handlers/proxy_client_handler.go:120-127 | the filtering loop yields the responses of exactly the clients the filter keeps, in input order |
| Handlers.FilterMembership | internal/presentation/handlers/proxy_client_handler.go:121-126 | a client is kept exactly when it was in the input and every non-empty query parameter matches it |
| Handlers.FilterAppend | internal/presentation/handlers/proxy_client_handler.go:120-127 | filtering distributes over concatenation, so it keeps the use case's order |
| Handlers.FilterWithoutParameters | internal/presentation/handlers/proxy_client_handler.go:120-127 | with no query parameters every client is kept |
| Handlers.FilterKeepsIdsDistinct | internal/presentation/handlers/proxy_client_handler.go:120-127 | the kept clients still have pairwise distinct ids |
| Handlers.IdParameterParsesToId | internal/presentation/handlers/proxy_client_handler.go:122 | a present id parameter that matches a client parses, as an int64, to that client's id |
| Handlers.LeadingZeroIdMatchesNothing | internal/presentation/handlers/proxy_client_handler.go:122 | an id parameter with a leading zero, such as "007", matches no client |
| Handlers.IdQueryListsAtMostOne | internal/presentation/handlers/proxy_client_handler.go:120-127 | a listing filtered by a present id parameter holds at most one client |
| Handlers.FilterOfTableListing | internal/presentation/handlers/proxy_client_handler.go:112-132 | filtering a listing of the whole table lists exactly the matching rows, each once; the result is empty exactly when no stored row matches |
| Handlers.FilterByOsExample | internal/presentation/handlers/proxy_client_handler.go:124 | of (1, "A", windows) and (2, "B", linux), os=linux keeps only the second and os=macos keeps neither |
| Handlers.ProxyClientHandler.constructor | internal/presentation/handlers/proxy_client_handler.go:34-39 | the handler holds the given use case, URL rule and time formatter |
| Handlers.ProxyClientHandler.CreateProxyClient | internal/presentation/handlers/proxy_client_handler.go:52-91 | a body that does not decode gives 400; a body that fails validation gives 400 with the validator's report; either way the table is untouched. A use-case failure gives 500. Success gives 201 with the mapped response, and the table gains the row. Stored rows keep satisfying the request rules |
| Handlers.ProxyClientHandler.GetAllProxyClients | internal/presentation/handlers/proxy_client_handler.go:106-148 | a use-case failure gives 500; 404 when no stored row matches the query; otherwise 200 with the responses of exactly the matching rows, each once |
| Handlers.ProxyClientHandler.UpdateProxyClient | internal/presentation/handlers/proxy_client_handler.go:163-210 | a path id that is not a base-10 int64 gives 400 before anything else; then 400 for an undecodable or invalid body; the path id overrides the body. Any use-case failure, including id 0 and an unknown id, gives 500 and never 404; success gives 200 with {"success": true} and the row updated |
| Handlers.ProxyClientHandler.DeleteProxyClient | internal/presentation/handlers/proxy_client_handler.go:222-242 | a path id that is not a base-10 int64 gives 400; any use-case failure gives 500 and never 404; success gives 204 with no body and the row removed |
| Scenarios.CreateThenGetById | internal/application/usecases/proxy_client_usecase.go:33-110 | reading a just-created client by its new id gives back the same transfer object the create returned |
| Scenarios.DeleteTwice | internal/infrastructure/db/repositories/proxy_client_repository.go:128-156 | deleting the same non-zero id twice: the second delete always fails with NotFound, and the table has lost exactly that id |
| Scenarios.UpdateRefreshesUpdatedAt | internal/infrastructure/db/repositories/proxy_client_repository.go:100-104 | an update of an existing row moves updated_at strictly forward past created_at and keeps id and created_at |
| Scenarios.CreateThenListById | internal/presentation/handlers/proxy_client_handler.go:52-148 | a client created through the API is listed, when the query's id is its canonical spelling, as the only result, carrying its real (equal) timestamps |

## Left out

- HTTP and JSON plumbing are not modelled. This covers decoding, `http.ResponseWriter`, `mux.Vars` and the encode-failure branches after the status is written. A body appears only as decoded (`Some`) or undecodable (`None`).
- The text of error messages is modelled only as the handlers' fixed strings. The `%w`/`%v` wrapping and the validator's error text are left out; validation failures carry the list of broken rules instead.
- Logging is left out (the zap singleton and the request-logging middleware). It only observes.
- The server lifecycle and process entry are left out (the listener, signals, timeouts and main), as are router wiring and the swagger route, config loading, the connection pool and the migrations. All of these are I/O, concurrency or foreign libraries. `docs/docs.go` is generated documentation; the 404 it advertises for update and delete is never produced.
- Real time is left out. `NOW()` is a clock that ticks once for each statement that stamps a row. RFC 3339 formatting is the parameter `formatTime`.
- The validator's `url` rule is the parameter `isUrl`; its definition is go-playground's own code.
- The SQL driver's failures are inputs (`fails`, `DbFault`), not derived from any database state. A failed insert does not consume an id in the model, while a real PostgreSQL sequence may skip one.
- Concurrent requests against the same table are left out. Each operation is one atomic step.
- Repositories.ProxyClientRepository.GetAll: the model returns rows in an order it chooses, and nothing is promised about that order, matching the absence of ORDER BY. The use case's per-element order is kept by its loop, but its contract speaks only of the table.
- StrConv.ParseInt64Examples: it states no examples at the int64 boundary (19-digit strings). The range check itself is part of `ParseInt64`, and `FormatParseRoundTrip` covers every int64.

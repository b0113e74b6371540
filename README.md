# Alexa smart-home skill library: the deferred-directive pipeline

This project models the core of `alexa-smart-home`, a Go library for
writing Alexa Smart Home skills against version 3 of the Smart Home API.
The pipeline it models works like this:

- Alexa sends a directive (a `Request`) to the skill. A `NamespaceMux` or
  `EndpointMux` routes it to a handler.
- The `DeferredRelayHandler` publishes the directive to an SQS FIFO queue
  through `RelayHandler.Relay`. It then answers Alexa at once with a
  `DeferredResponse`.
- Elsewhere, a `QueueProcessor` receives the queued directives in order
  and hands each one to the deferred `Handler`.
- The deferred `Handler` runs the real router and gives any response to
  `HTTPEventSender.Send`.
- `Send` posts the response to the event gateway with the user's own OAuth
  token. When the transport had to refresh that token, `Send` persists the
  new one.
- Along the way, an `AuthorizationHandler` answers `AcceptGrant` by
  exchanging the grant code and storing the user's token.
- A `ResponseBuilder` builds every envelope.

Modules, one per source file:

| module | file | form |
|---|---|---|
| `AlexaTypes` | `types.dfy` | the envelope types, the JSON codec as an oracle, the error kinds |
| `Responses` | `responses.dfy` | the seven builders, as functions over a message-id generator |
| `Home` | `home.dfy` | handlers as total functions, and the two muxes as classes with a map field |
| `Handlers` | `handlers.dfy` | the composed handlers as functions; `AuthorizationHandler` as a method writing the token store |
| `Auth` | `auth.dfy` | the user-id reader, the OAuth provider, and `TokenStore`, a class whose writes are logged |
| `Sniffer` | `sniffer.dfy` | `TokenSniffer`, a class that remembers the last successful token |
| `Deferred` | `deferred.dfy` | `HTTPEventSender` and the coordinator `Handler` |
| `SqsRelayer` | `relayer.dfy` | the queue message and `Relay` |
| `SqsReader` | `reader.dfy` | `QueueClient` and `QueueProcessor` |

How state-changing operations are modelled:

- Every state-changing method is proved against a pure function of its
  inputs: `SendPlan`, `Plan`, `AcceptGrant`, `Step` and `Batch`.
- The method's postcondition states that the error it returns and each
  effect it had match that function.
- The effects are the POSTs made, the token writes, the queue deletes and
  the new token map.
- Lemmas about those functions state what the source promises.

External parties are oracles held as fields or parameters. These are the
SQS client, the token store's reads and write outcomes, the user-id
lookup, OAuth 2.0, the HTTP gateway and JSON.

## Model

| member | source | states |
|---|---|---|
| Responses.DeferredResponse | alexa/responses.go:29-42 | namespace Alexa, name DeferredResponse, payload version 3, the generator's id, the request's correlation token, no endpoint and no context, empty payload |
| Responses.DiscoverResponse | alexa/responses.go:45-68 | fails exactly when the endpoints' payload does not marshal; otherwise Alexa.Discovery / Discover.Response with that payload, no correlation token, no endpoint, no context |
| Responses.BasicErrorResponse | alexa/responses.go:71-97 | fails exactly when the error payload does not marshal; otherwise an ErrorResponse in the request's namespace, addressed to the request's endpoint id and scope with no cookie, carrying its correlation token |
| Responses.CustomErrorResponse | alexa/responses.go:100-117 | an ErrorResponse in the request's namespace, addressed to the request, whose payload is passed through unchanged |
| Responses.StateReportResponse | alexa/responses.go:120-140 | a StateReport addressed to the request whose context holds exactly the given properties in order, with the empty payload |
| Responses.BasicResponse | alexa/responses.go:143-163 | a Response event addressed to the request holding exactly the given properties in order, with the empty payload |
| Responses.AcceptGrantResponse | alexa/responses.go:166-177 | Alexa.Authorization / AcceptGrant.Response, stamped, no correlation token, no endpoint, no context |
| Responses.RequestBuildersCorrelate | alexa/responses.go:29-163 | every builder that takes a request copies its correlation token and the generator's id; all but DeferredResponse address the request's endpoint; only BasicErrorResponse can fail |
| Responses.SampleStateReport | alexa/handlers_test.go:32-64 | the test's sample request under a fixed generator yields exactly the expected StateReport |
| Home.RouteNamespace | alexa/home.go:34-40 | an unregistered namespace fails with UnhandledNamespace; a registered one gives that handler's reply unchanged |
| Home.RouteEndpoint | alexa/home.go:64-75 | an unregistered id fails with UnhandledEndpoint; otherwise the handler's response is kept and its error, if any, is wrapped |
| Home.NamespaceRoutingIsExact | alexa/home.go:35-39 | two requests with one namespace both fail with UnhandledNamespace or are both answered by the one handler registered under it, whatever else they hold; removing any registration under another string leaves the reply unchanged |
| Home.NamespaceMux.constructor | alexa/home.go:28-30 | a new mux has an empty map, so every dispatch fails with UnhandledNamespace |
| Home.NamespaceMux.HandleRequest | alexa/home.go:34-40 | dispatch on the current map: the registered handler's reply, or UnhandledNamespace |
| Home.NamespaceMux.Handle | alexa/home.go:43-45 | afterwards the namespace maps to the new handler, overwriting any earlier one, and every other namespace routes as before |
| Home.NamespaceMux.HandleFunc | alexa/home.go:48-50 | the same effect as Handle |
| Home.EndpointMux.constructor | alexa/home.go:58-60 | a new mux has an empty map, so every dispatch fails with UnhandledEndpoint |
| Home.EndpointMux.HandleRequest | alexa/home.go:64-75 | an unregistered id fails; a failed handler's response is still returned, with its error wrapped; success is (resp, nil) |
| Home.EndpointMux.Handle | alexa/home.go:78-80 | afterwards the id routes to the new handler's response, and every other id routes as before |
| Home.EndpointMux.HandleFunc | alexa/home.go:83-85 | the same effect as Handle |
| Handlers.DeferredRelayHandler | alexa/handlers.go:21-28 | when Relay fails, the reply is a wrapped error with no response; otherwise it is the DeferredResponse for the request |
| Handlers.DeferredRelayAcknowledges | alexa/handlers.go:26 | after a successful relay the acknowledgement carries the request's correlation token and the generator's id |
| Handlers.StaticDiscoveryHandler | alexa/handlers.go:32-40 | every request gets the same reply: the discovery response for the fixed endpoints, or its marshal error unwrapped |
| Handlers.NameSwitch | alexa/handlers.go:95-134 | the first name goes to the first handler, the second name to the second, and any other name fails without invoking either |
| Handlers.PercentageControllerHandler | alexa/handlers.go:95-106 | SetPercentage goes to setPct and AdjustPercentage to adjustPct; any other name fails with UnexpectedName |
| Handlers.PowerControllerHandler | alexa/handlers.go:109-120 | TurnOn goes to turnOn and TurnOff to turnOff; any other name fails with UnexpectedName |
| Handlers.SceneControllerHandler | alexa/handlers.go:123-134 | Activate goes to activate and Deactivate to deactivate; any other name fails with UnexpectedName |
| Handlers.GrantFailure | alexa/handlers.go:60-66 | an ACCEPT_GRANT_FAILED error response for the request, or a wrapped Go error when that response cannot be built |
| Handlers.AcceptGrant | alexa/handlers.go:46-91 | exactly one of a response and a Go error; at most one token write, and only of the token the grant code exchanged for, under the id the grantee token resolved to |
| Handlers.AuthorizationHandler | alexa/handlers.go:44-92 | the reply, the store's write log and its new token map are those of the AcceptGrant step chain |
| Handlers.AcceptGrantGoErrors | alexa/handlers.go:46-91 | exactly one of a response and a Go error comes back; the Go error occurs only when the payload fails to decode (exactly then) or the error response fails to build |
| Handlers.AcceptGrantFailures | alexa/handlers.go:58-88 | a failed exchange or lookup answers ACCEPT_GRANT_FAILED with no write; a failed write answers it after the one write attempted |
| Handlers.AcceptGrantSucceeds | alexa/handlers.go:69-90 | AcceptGrant.Response comes back exactly when every step succeeds; then the exchanged token was written once, under the grantee's resolved user id |
| Auth.Stored | aws/s3store/token.go:28-46 | after the writes, the stored ids are the earlier ones plus each id whose write succeeded |
| Auth.StoredAppend | aws/s3store/token.go:28-46 | applying two runs of writes one after the other equals applying them concatenated |
| Auth.TokenStore.constructor | aws/s3store/token.go:23-26 | an empty store with no writes |
| Auth.TokenStore.Write | aws/s3store/token.go:28-46 | the write is logged and its outcome is the store's answer; on success the id holds the token and every other id keeps its token |
| Sniffer.LastSuccessPresent | deferred/token.go:8-16 | from the zero value, LastToken is set exactly when some call succeeded |
| Sniffer.LastSuccessIsLatest | deferred/token.go:13-16 | LastToken is the result of the most recent successful call |
| Sniffer.TokenSniffer.constructor | deferred/token.go:7-10 | the zero value: no token seen and no call made |
| Sniffer.TokenSniffer.Token | deferred/token.go:12-18 | the source's answer is returned unchanged; a success becomes LastToken and a failure leaves it; the invariant LastToken == last success is kept |
| Deferred.HTTPEventSender.constructor | deferred/deferred.go:51-56 | the sender holds its collaborators, and no POST has been made |
| Deferred.HTTPEventSender.SendPlan | deferred/deferred.go:59-117 | at most one POST and one write; the POST carries the marshalled response; a write follows the POST and stores the token whose access token that POST carried |
| Deferred.HTTPEventSender.Send | deferred/deferred.go:59-117 | the error, the POSTs, the token writes and the new token map are those of SendPlan; the write uses the sniffer's LastToken |
| Deferred.HTTPEventSender.SendOutcomes | deferred/deferred.go:59-117 | every error is a SendError, the nil-endpoint panic or a failed refresh write, and only the last writes a token; at most one POST and one write; no POST means an error and no write |
| Deferred.HTTPEventSender.SendStageFailures | deferred/deferred.go:60-108 | a failure at each step gives its own outcome and writes nothing: marshalling, missing endpoint, user-id lookup, store read, token source or HTTP call (SendError PerformRequest), body read, and a status other than 200/202; the steps before the HTTP call also make no POST |
| Deferred.HTTPEventSender.MissingTokenStopsBeforePost | deferred/deferred.go:70-76 | a user with no stored token gets the missing-token SendError before any POST |
| Deferred.HTTPEventSender.RefreshWrittenIff | deferred/deferred.go:106-116 | after a 200/202 the store is written exactly when the used token's access token differs from the stored one, once, under the resolved user id; only that write's failure fails the send, and not as a SendError |
| Deferred.Handler.constructor | deferred/deferred.go:30-33 | the coordinator holds its request handler and its sender |
| Deferred.Handler.Plan | deferred/deferred.go:38-48 | a handler failure is an error; nothing is posted or written unless the request handler succeeded with a response |
| Deferred.Handler.HandleRequest | deferred/deferred.go:38-48 | the error, the POSTs, the writes and the new token map are those of Plan |
| Deferred.Handler.PlanOutcomes | deferred/deferred.go:35-48 | a handler failure is wrapped and nothing is sent; no response means no error and nothing sent; a handler success with a response has exactly Send's outcome; a SendError or a POST only follows such a success |
| SqsRelayer.QueueMessage | aws/sqsrelay/relayer.go:27-37 | a message exists exactly when the request marshals; its body is that JSON, sent to the configured queue URL, with group id alexa.HandleRequest and the request's message id as the dedup id |
| SqsRelayer.Relay | aws/sqsrelay/relayer.go:26-45 | a marshal failure sends nothing and errs; otherwise exactly one send of the queue message, and the call errs exactly when that send does |
| SqsRelayer.DeferredRelayOverQueue | alexa/handlers.go:21-28 | with this publisher as its Relayer, DeferredRelayHandler answers with the DeferredResponse exactly when the request marshals and its one queue message is accepted; otherwise the reply is RelayFailed wrapping the marshal or send error, with no response |
| SqsRelayer.DuplicatesShareDedupId | aws/sqsrelay/relayer.go:32-37 | two requests with one message id are both sent, with the same dedup id and group id |
| SqsReader.QueueClient.constructor | aws/sqsrelay/reader.go:15-19 | a client with no deletes made |
| SqsReader.QueueClient.Delete | aws/sqsrelay/reader.go:55 | the delete is logged and its outcome is the client's answer |
| SqsReader.QueueProcessor.constructor | aws/sqsrelay/reader.go:22-27 | the processor holds its client, queue URL, handler and wait time |
| SqsReader.QueueProcessor.Step | aws/sqsrelay/reader.go:42-57 | a message deletes at most its own receipt handle, and one that completes is deleted |
| SqsReader.QueueProcessor.Batch | aws/sqsrelay/reader.go:41-58 | a batch deletes at most as many messages as it holds, and all of them when it succeeds |
| SqsReader.QueueProcessor.StepOutcome | aws/sqsrelay/reader.go:42-57 | a message ends the batch exactly when it does not complete, and is deleted exactly when it was decoded and handled |
| SqsReader.QueueProcessor.BatchDeletesHandledPrefix | aws/sqsrelay/reader.go:41-57 | the deletes of a batch are those of a prefix of it, in receive order, each with its own receipt handle, and every deleted message was handled first |
| SqsReader.QueueProcessor.BatchStopsAtFirstFailure | aws/sqsrelay/reader.go:43-57 | if message k is the first that fails, the batch ends with its error, the earlier messages are deleted, k only if it was handled, and later messages are not attempted |
| SqsReader.QueueProcessor.BatchSucceedsIff | aws/sqsrelay/reader.go:41-58 | a batch succeeds exactly when every message completes, and then every message is deleted in order |
| SqsReader.QueueProcessor.RelayedRequestIsHandled | aws/sqsrelay/reader.go:42-54 | when the codec reads back what it wrote, a relayed directive is handled as the original request and deleted by its own receipt handle |
| SqsReader.QueueProcessor.HandleMessage | aws/sqsrelay/reader.go:42-57 | the error, deletes, POSTs, writes and token map of one message are those of Step |
| SqsReader.QueueProcessor.HandleBatch | aws/sqsrelay/reader.go:41-58 | the error and every effect of the loop over a batch are those of Batch |
| SqsReader.QueueProcessor.Process | aws/sqsrelay/reader.go:30-59 | a receive error stops the pass with nothing handled, deleted, posted or written and the token map unchanged; otherwise the pass has Batch's effects and stops exactly on Batch's error; no pass stops without an error |

## Left out

- External parties are pure oracles. These are JSON, SQS, the object store,
  the profile lookup, OAuth 2.0 and the HTTP gateway. Asked the same
  question, each gives the same answer.
- `Auth.TokenStore`: its reads are an oracle fixed when the store is
  made, so no read ever observes a write. For example, a second message
  for the same user in one batch always reads the token stored before the
  first message's refresh. This is one behaviour the eventually
  consistent object store allows (aws/s3store/token.go:21-22). A store
  whose reads catch up with its writes is not modelled.
- The message-id generator is a fixed generator, as in the library's test.
  Fresh UUIDs are not modelled.
- Error text is not modelled. Errors are structured values naming the
  failed stage and the wrapped cause. The AcceptGrant error message is the
  fixed prefix without the cause's text.
- `context.Context`, cancellation, `time.Time` and the float temperature
  of the test's sample are not modelled. A time of sample is an `int`, and
  property values are raw JSON strings.
- `http.NewRequest` with the constant gateway URL cannot fail, so its
  "failed to build event request" SendError is not modelled.
- HTTP details are not modelled; only the gateway's status and whether the
  body read succeeded are. The oauth2 transport asks the token source once
  per request and replaces the Authorization header with that token. The
  model's POST carries the token the transport used.
- `Deferred.HTTPEventSender.Send`: a response without an event endpoint
  makes Go panic on a nil dereference. The model reports this as the
  distinct outcome `NilDereference`, not as a returned error.
- `SqsReader.QueueProcessor.Process`: the endless outer `for` loop is
  modelled as one pass, a receive followed by the batch. The result
  `Round` says whether Process returns, and with which error, or goes
  round again, so Process never returns without an error.
- `Handlers.AuthorizationHandler` is a method applied to one request rather
  than a `Handler` value. Its token write changes the store, and a `Handler`
  here is a pure function.
- `Deferred.Handler`: the EventSender interface and `EventSenderFunc` are not
  modelled separately. The coordinator holds the concrete `HTTPEventSender`.
- `Home.NamespaceMux.AsHandler` and `Home.EndpointMux.AsHandler` take a
  snapshot of the registrations when called. In Go the mux is used as a
  Handler through a pointer, so it also sees registrations made later. A
  Handler here is a pure function, so it cannot read the mux's current map.
- `Home.NamespaceMux.Handle`: a Go handler may be nil. A mux that holds a
  nil handler reports the namespace or endpoint as unhandled. Handlers
  here are total functions, so registering nil is not modelled.
- `Handlers.DeferredRelayHandler`: "Relay is called exactly once" holds by
  construction, since the handler applies the relayer once. Its side
  effects are modelled by `SqsRelayer.Relay` (exactly one send).
- Not part of this model:
  - the debug wrappers (`alexa/debug.go`, `lambda/debug.go`);
  - the example programs (`example/lambda/main.go`,
    `example/sqsagent/main.go`);
  - the HTTP internals of `ProfileUserIDReader`;
  - the S3 calls inside `aws/s3store/token.go`, which become the
    `TokenStore` oracle.

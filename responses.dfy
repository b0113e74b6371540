/**
 * ResponseBuilder: the envelopes of the Smart Home API, version 3. Every
 * builder is a struct literal filled from the request, plus one call of
 * the message-id generator.
 */
module Responses {
  import opened Wrappers
  import opened AlexaTypes

  /**
   * The builder's only state is its message-id generator. A generator is a
   * value here, so two calls of one builder see the same id, as with the
   * fixed generator of the library's own test; fresh UUIDs are not modelled.
   */
  datatype ResponseBuilder = ResponseBuilder(messageId: () -> string)

  /** Payload version 3 and a message id that is the generator's value. */
  predicate Stamped(b: ResponseBuilder, r: Response) {
    && r.event.header.payloadVersion == PayloadVersion
    && r.event.header.messageId == b.messageId()
  }

  /** The response answers `req`: it carries the request's correlation token. */
  predicate Correlates(r: Response, req: Request) {
    r.event.header.correlationToken == req.directive.header.correlationToken
  }

  /** The event is addressed to the request's endpoint id and scope, with no cookie. */
  predicate Addressed(r: Response, req: Request) {
    && r.event.endpoint.Some?
    && r.event.endpoint.value.endpointId == req.directive.endpoint.endpointId
    && r.event.endpoint.value.scope == req.directive.endpoint.scope
    && r.event.endpoint.value.cookie == map[]
  }

  /** No endpoint and no context: the fields are omitted, not empty. */
  predicate Unaddressed(r: Response) {
    r.event.endpoint.None? && r.context.None?
  }

  /** An error response for `req`: its namespace and the name "ErrorResponse". */
  predicate IsErrorFor(r: Response, req: Request) {
    && r.event.header.namespace == req.directive.header.namespace
    && r.event.header.name == "ErrorResponse"
  }

  /** The response carries exactly `props`, in order. */
  predicate Reports(r: Response, props: seq<ContextProperty>) {
    r.context == Some(ResponseContext(props))
  }

  function EndpointOf(req: Request): ResponseEndpoint {
    ResponseEndpoint(req.directive.endpoint.endpointId, map[], req.directive.endpoint.scope)
  }

  /** Announces that the answer goes to the event gateway later. */
  function DeferredResponse(b: ResponseBuilder, req: Request): (r: Response)
    ensures Stamped(b, r) && Correlates(r, req) && Unaddressed(r)
    ensures r.event.header.namespace == NamespaceAlexa && r.event.header.name == "DeferredResponse"
    ensures r.event.payload == EmptyPayload
  {
    Response(None, Event(
      Header(NamespaceAlexa, "DeferredResponse", b.messageId(),
             req.directive.header.correlationToken, PayloadVersion),
      None, EmptyPayload))
  }

  /** Describes the endpoints; fails exactly when their payload does not marshal. */
  function DiscoverResponse(b: ResponseBuilder, codec: Codec, endpoints: seq<DiscoverEndpoint>)
    : (r: Result<Response, Error>)
    ensures r.Err? <==> codec.discoverPayload(DiscoverPayload(endpoints)).None?
    ensures r.Err? ==> r.error == PayloadMarshalFailed
    ensures r.Ok? ==>
      && Stamped(b, r.value) && Unaddressed(r.value)
      && r.value.event.header.namespace == NamespaceDiscovery
      && r.value.event.header.name == "Discover.Response"
      && r.value.event.header.correlationToken == ""
      && Some(r.value.event.payload) == codec.discoverPayload(DiscoverPayload(endpoints))
  {
    match codec.discoverPayload(DiscoverPayload(endpoints))
    case None => Err(PayloadMarshalFailed)
    case Some(payload) =>
      Ok(Response(None, Event(
        Header(NamespaceDiscovery, "Discover.Response", b.messageId(), "", PayloadVersion),
        None, payload)))
  }

  /** An error of the given type and message; fails exactly when that payload does not marshal. */
  function BasicErrorResponse(b: ResponseBuilder, codec: Codec, req: Request, errorType: string, msg: string)
    : (r: Result<Response, Error>)
    ensures r.Err? <==> codec.errorPayload(errorType, msg).None?
    ensures r.Err? ==> r.error == PayloadMarshalFailed
    ensures r.Ok? ==>
      && Stamped(b, r.value) && Correlates(r.value, req) && Addressed(r.value, req)
      && IsErrorFor(r.value, req) && r.value.context.None?
      && Some(r.value.event.payload) == codec.errorPayload(errorType, msg)
  {
    match codec.errorPayload(errorType, msg)
    case None => Err(PayloadMarshalFailed)
    case Some(payload) =>
      Ok(Response(None, Event(
        Header(req.directive.header.namespace, "ErrorResponse", b.messageId(),
               req.directive.header.correlationToken, PayloadVersion),
        Some(EndpointOf(req)), payload)))
  }

  /** An error response whose payload is passed through untouched. */
  function CustomErrorResponse(b: ResponseBuilder, req: Request, payload: RawMessage): (r: Response)
    ensures Stamped(b, r) && Correlates(r, req) && Addressed(r, req)
    ensures IsErrorFor(r, req) && r.context.None? && r.event.payload == payload
  {
    Response(None, Event(
      Header(req.directive.header.namespace, "ErrorResponse", b.messageId(),
             req.directive.header.correlationToken, PayloadVersion),
      Some(EndpointOf(req)), payload))
  }

  /** A StateReport carrying exactly the given properties. */
  function StateReportResponse(b: ResponseBuilder, req: Request, properties: seq<ContextProperty>)
    : (r: Response)
    ensures Stamped(b, r) && Correlates(r, req) && Addressed(r, req) && Reports(r, properties)
    ensures r.event.header.namespace == NamespaceAlexa && r.event.header.name == "StateReport"
    ensures r.event.payload == EmptyPayload
  {
    Response(Some(ResponseContext(properties)), Event(
      Header(NamespaceAlexa, "StateReport", b.messageId(),
             req.directive.header.correlationToken, PayloadVersion),
      Some(EndpointOf(req)), EmptyPayload))
  }

  /** A plain Response event carrying exactly the given properties. */
  function BasicResponse(b: ResponseBuilder, req: Request, properties: seq<ContextProperty>)
    : (r: Response)
    ensures Stamped(b, r) && Correlates(r, req) && Addressed(r, req) && Reports(r, properties)
    ensures r.event.header.namespace == NamespaceAlexa && r.event.header.name == "Response"
    ensures r.event.payload == EmptyPayload
  {
    Response(Some(ResponseContext(properties)), Event(
      Header(NamespaceAlexa, "Response", b.messageId(),
             req.directive.header.correlationToken, PayloadVersion),
      Some(EndpointOf(req)), EmptyPayload))
  }

  /** The acknowledgement of a successful AcceptGrant. */
  function AcceptGrantResponse(b: ResponseBuilder): (r: Response)
    ensures Stamped(b, r) && Unaddressed(r)
    ensures r.event.header.namespace == NamespaceAuthorization
    ensures r.event.header.name == "AcceptGrant.Response"
    ensures r.event.header.correlationToken == "" && r.event.payload == EmptyPayload
  {
    Response(None, Event(
      Header(NamespaceAuthorization, "AcceptGrant.Response", b.messageId(), "", PayloadVersion),
      None, EmptyPayload))
  }

  /** The builders that take a request, as one sum, to state what they share. */
  datatype RequestBuilder =
    | Deferred
    | BasicError(errorType: string, msg: string)
    | CustomError(payload: RawMessage)
    | StateReport(properties: seq<ContextProperty>)
    | Basic(properties: seq<ContextProperty>)

  function BuildFor(b: ResponseBuilder, codec: Codec, k: RequestBuilder, req: Request): Result<Response, Error> {
    match k
    case Deferred => Ok(DeferredResponse(b, req))
    case BasicError(t, m) => BasicErrorResponse(b, codec, req, t, m)
    case CustomError(p) => Ok(CustomErrorResponse(b, req, p))
    case StateReport(ps) => Ok(StateReportResponse(b, req, ps))
    case Basic(ps) => Ok(BasicResponse(b, req, ps))
  }

  /**
   * Every builder that takes a request answers it: the response it builds
   * is stamped with the generator's id and carries the request's
   * correlation token; all but DeferredResponse address the request's
   * endpoint; only BasicErrorResponse can fail.
   */
  lemma RequestBuildersCorrelate(b: ResponseBuilder, codec: Codec, k: RequestBuilder, req: Request)
    ensures BuildFor(b, codec, k, req).Err? ==> k.BasicError?
    ensures BuildFor(b, codec, k, req).Ok? ==>
      var r := BuildFor(b, codec, k, req).value;
      && Stamped(b, r) && Correlates(r, req)
      && (k.Deferred? <==> !Addressed(r, req))
  {
  }

  /**
   * The library's own test: a StateReport for its sample request, built
   * with a fixed generator, is the expected response.
   */
  lemma SampleStateReport(temperature: RawMessage, sampled: Time)
    ensures
      var req := Request(RequestDirective(
        Header(NamespaceAlexa, "ReportState", "e9d21467-85db-4f34-90d7-0b9d92759f16",
               "correlationTokenSample", PayloadVersion),
        RequestEndpoint(Scope("BearerToken", "bearerTokenSample"), "temp-sensor-1", map[]),
        EmptyPayload));
      var prop := ContextProperty(NamespaceTemperatureSensor, "temperature", temperature, sampled, 60000);
      var b := ResponseBuilder(() => "843cf5d3-1923-4508-bc5e-8d30da3e593b");
      StateReportResponse(b, req, [prop]) ==
        Response(Some(ResponseContext([prop])), Event(
          Header(NamespaceAlexa, "StateReport", "843cf5d3-1923-4508-bc5e-8d30da3e593b",
                 "correlationTokenSample", "3"),
          Some(ResponseEndpoint("temp-sensor-1", map[], Scope("BearerToken", "bearerTokenSample"))),
          "{}"))
  {
  }
}

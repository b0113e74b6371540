/**
 * The wire types of the Alexa Smart Home API, version 3, as the library
 * declares them, with the JSON payloads kept opaque.
 */
module AlexaTypes {
  import opened Wrappers

  /** An undecoded JSON document (Go's json.RawMessage). */
  type RawMessage = string

  /** A point in time; only compared, never computed with. */
  type Time = int

  newtype int32 = x: int | -0x8000_0000 <= x < 0x8000_0000

  const NamespaceAlexa: string := "Alexa"
  const NamespaceAuthorization: string := "Alexa.Authorization"
  const NamespaceDiscovery: string := "Alexa.Discovery"
  const NamespacePowerController: string := "Alexa.PowerController"
  const NamespaceTemperatureSensor: string := "Alexa.TemperatureSensor"

  /** The payload with no content, the JSON text `{}`. */
  const EmptyPayload: RawMessage := "{}"

  /** The payload version every response of this API carries. */
  const PayloadVersion: string := "3"

  datatype Header = Header(
    namespace: string,
    name: string,
    messageId: string,
    correlationToken: string,   // the empty string when absent
    payloadVersion: string)

  datatype Scope = Scope(typ: string, token: string)

  datatype RequestEndpoint = RequestEndpoint(
    scope: Scope,
    endpointId: string,
    cookie: map<string, string>)

  datatype RequestDirective = RequestDirective(
    header: Header,
    endpoint: RequestEndpoint,
    payload: RawMessage)

  /** A directive sent by the smart home service. */
  datatype Request = Request(directive: RequestDirective)

  datatype ContextProperty = ContextProperty(
    namespace: string,
    name: string,
    value: RawMessage,
    timeOfSample: Time,
    uncertaintyInMilliseconds: int32)

  datatype ResponseContext = ResponseContext(properties: seq<ContextProperty>)

  datatype ResponseEndpoint = ResponseEndpoint(
    endpointId: string,
    cookie: map<string, string>,
    scope: Scope)

  /** An event; a nil endpoint pointer is None, so it is left out of the JSON. */
  datatype Event = Event(
    header: Header,
    endpoint: Option<ResponseEndpoint>,
    payload: RawMessage)

  /** A response to a directive, or an event posted to the event gateway. */
  datatype Response = Response(context: Option<ResponseContext>, event: Event)

  datatype DiscoverProperty = DiscoverProperty(name: string)

  datatype DiscoverProperties = DiscoverProperties(
    supported: seq<DiscoverProperty>,
    proactivelyReported: bool,
    retrievable: bool)

  datatype DiscoverCapability = DiscoverCapability(
    typ: string,
    interface: string,
    version: string,
    properties: DiscoverProperties)

  datatype DiscoverEndpoint = DiscoverEndpoint(
    endpointId: string,
    manufacturerName: string,
    friendlyName: string,
    description: string,
    displayCategories: seq<string>,
    cookie: map<string, string>,
    capabilities: seq<DiscoverCapability>)

  datatype DiscoverPayload = DiscoverPayload(endpoints: seq<DiscoverEndpoint>)

  datatype AcceptGrantGrant = AcceptGrantGrant(typ: string, code: string)

  datatype AcceptGrantGrantee = AcceptGrantGrantee(typ: string, token: string)

  datatype AcceptGrantPayload = AcceptGrantPayload(grant: AcceptGrantGrant, grantee: AcceptGrantGrantee)

  /** An OAuth 2.0 token as golang.org/x/oauth2 holds it. */
  datatype Token = Token(
    accessToken: string,
    tokenType: string,
    refreshToken: string,
    expiry: Time)

  /**
   * The encoding/json package as the core uses it. Each entry says what
   * marshalling or unmarshalling yields; None is a failure.
   */
  datatype Codec = Codec(
    discoverPayload: DiscoverPayload -> Option<RawMessage>,
    errorPayload: (string, string) -> Option<RawMessage>,
    encodeRequest: Request -> Option<RawMessage>,
    decodeRequest: string -> Option<Request>,
    encodeResponse: Response -> Option<RawMessage>,
    decodeAcceptGrant: RawMessage -> Option<AcceptGrantPayload>)

  /** The stage of HTTPEventSender.Send at which a SendError arose. */
  datatype SendStage =
    | MarshalResponse
    | RetrieveUserId
    | RetrieveAccessToken
    | MissingAccessToken
    | PerformRequest
    | ReadEventBody
    | UnexpectedStatus(statusCode: int)

  /**
   * The errors of the core. Each Go fmt.Errorf or error type becomes one
   * constructor naming the stage that failed and wrapping the cause;
   * the message text is not kept.
   */
  datatype Error =
    | UnhandledNamespace(namespace: string)
    | UnhandledEndpoint(endpointId: string)
    | EndpointFailed(endpointId: string, cause: Error)
    | UnexpectedName(router: string, name: string)
    | RelayFailed(cause: Error)
    | PayloadMarshalFailed
    | PayloadUnmarshalFailed
    | ErrorResponseFailed(cause: Error)
    | RequestMarshalFailed
    | QueueSendFailed(cause: Error)
    | HandleFailed(cause: Error)
    | SendError(stage: SendStage)
    | TokenUpdateFailed(cause: Error)
    | NilDereference(field: string)                 // a Go runtime panic, not an error return
    | ReceiveFailed(cause: Error)
    | MessageReadFailed(body: string)
    | HandleRequestFailed(cause: Error)
    | DeleteFailed(cause: Error)
  {
    /** True of the SendError type of the deferred package. */
    predicate IsSendError() { SendError? }
  }
}

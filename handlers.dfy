/**
 * The handlers the library composes: relay-then-acknowledge, static
 * discovery, the three routers that pick a handler by directive name, and
 * the AcceptGrant step chain.
 */
module Handlers {
  import opened Wrappers
  import opened AlexaTypes
  import opened Responses
  import opened Home
  import opened Auth

  /** Relayer: hands the request on for later handling; Some is the failure. */
  type Relayer = Request -> Option<Error>

  /** Relays the request and, once that succeeded, answers with a DeferredResponse. */
  function DeferredRelayHandler(relayer: Relayer, builder: ResponseBuilder): (h: Handler)
    ensures forall req: Request :: relayer(req).Some? ==> h(req) == Failed(RelayFailed(relayer(req).value))
    ensures forall req: Request :: relayer(req).None? ==> h(req) == Reply(Some(DeferredResponse(builder, req)), None)
  {
    (req: Request) => match relayer(req)
           case Some(e) => Failed(RelayFailed(e))
           case None => Reply(Some(DeferredResponse(builder, req)), None)
  }

  /** Succeeding relay answers the directive it was given. */
  lemma DeferredRelayAcknowledges(relayer: Relayer, builder: ResponseBuilder, req: Request)
    requires relayer(req).None?
    ensures var r := DeferredRelayHandler(relayer, builder)(req);
      r.err.None? && r.resp.Some? && Correlates(r.resp.value, req) && Stamped(builder, r.resp.value)
      && r.resp.value.event.header.name == "DeferredResponse"
  {
  }

  /** The reply a handler gives for a builder's result. */
  function FromResult(r: Result<Response, Error>): Reply {
    match r
    case Ok(resp) => Reply(Some(resp), None)
    case Err(e) => Failed(e)
  }

  /** Answers every request with the discovery response of the fixed endpoints. */
  function StaticDiscoveryHandler(builder: ResponseBuilder, codec: Codec, endpoints: seq<DiscoverEndpoint>)
    : (h: Handler)
    ensures forall req: Request :: h(req) == FromResult(DiscoverResponse(builder, codec, endpoints))
    ensures forall req: Request, other: Request :: h(req) == h(other)
  {
    (req: Request) => FromResult(DiscoverResponse(builder, codec, endpoints))
  }

  /** Sends `first` the requests named `name1`, `second` those named `name2`, and fails any other. */
  function NameSwitch(router: string, name1: string, first: Handler, name2: string, second: Handler)
    : (h: Handler)
    requires name1 != name2
    ensures forall req: Request :: req.directive.header.name == name1 ==> h(req) == first(req)
    ensures forall req: Request :: req.directive.header.name == name2 ==> h(req) == second(req)
    ensures forall req: Request :: req.directive.header.name !in {name1, name2} ==>
      h(req) == Failed(UnexpectedName(router, req.directive.header.name))
  {
    (req: Request) =>
      if req.directive.header.name == name1 then first(req)
      else if req.directive.header.name == name2 then second(req)
      else Failed(UnexpectedName(router, req.directive.header.name))
  }

  /** Routes SetPercentage and AdjustPercentage. */
  function PercentageControllerHandler(setPct: Handler, adjustPct: Handler): (h: Handler)
    ensures forall req: Request :: req.directive.header.name == "SetPercentage" ==> h(req) == setPct(req)
    ensures forall req: Request :: req.directive.header.name == "AdjustPercentage" ==> h(req) == adjustPct(req)
    ensures forall req: Request :: req.directive.header.name !in {"SetPercentage", "AdjustPercentage"} ==>
      h(req) == Failed(UnexpectedName("PercentageControllerHandler", req.directive.header.name))
  {
    NameSwitch("PercentageControllerHandler", "SetPercentage", setPct, "AdjustPercentage", adjustPct)
  }

  /** Routes TurnOn and TurnOff. */
  function PowerControllerHandler(turnOn: Handler, turnOff: Handler): (h: Handler)
    ensures forall req: Request :: req.directive.header.name == "TurnOn" ==> h(req) == turnOn(req)
    ensures forall req: Request :: req.directive.header.name == "TurnOff" ==> h(req) == turnOff(req)
    ensures forall req: Request :: req.directive.header.name !in {"TurnOn", "TurnOff"} ==>
      h(req) == Failed(UnexpectedName("PowerControllerHandler", req.directive.header.name))
  {
    NameSwitch("PowerControllerHandler", "TurnOn", turnOn, "TurnOff", turnOff)
  }

  /** Routes Activate and Deactivate. */
  function SceneControllerHandler(activate: Handler, deactivate: Handler): (h: Handler)
    ensures forall req: Request :: req.directive.header.name == "Activate" ==> h(req) == activate(req)
    ensures forall req: Request :: req.directive.header.name == "Deactivate" ==> h(req) == deactivate(req)
    ensures forall req: Request :: req.directive.header.name !in {"Activate", "Deactivate"} ==>
      h(req) == Failed(UnexpectedName("SceneControllerHandler", req.directive.header.name))
  {
    NameSwitch("SceneControllerHandler", "Activate", activate, "Deactivate", deactivate)
  }

  /** The error type every failed step of AcceptGrant reports. */
  const AcceptGrantFailed: string := "ACCEPT_GRANT_FAILED"

  /**
   * The reply for a failed AcceptGrant step: an ACCEPT_GRANT_FAILED error
   * response, or a Go error when even that response cannot be built.
   */
  function GrantFailure(builder: ResponseBuilder, codec: Codec, req: Request, msg: string): (r: Reply)
    ensures codec.errorPayload(AcceptGrantFailed, msg).Some? ==>
      && r.err.None? && r.resp.Some?
      && IsErrorFor(r.resp.value, req) && Correlates(r.resp.value, req)
      && Some(r.resp.value.event.payload) == codec.errorPayload(AcceptGrantFailed, msg)
    ensures codec.errorPayload(AcceptGrantFailed, msg).None? ==>
      r == Failed(ErrorResponseFailed(PayloadMarshalFailed))
  {
    match BasicErrorResponse(builder, codec, req, AcceptGrantFailed, msg)
    case Ok(resp) => Reply(Some(resp), None)
    case Err(e) => Failed(ErrorResponseFailed(e))
  }

  /** What AcceptGrant answers and which token writes it makes. */
  datatype GrantOutcome = GrantOutcome(reply: Reply, writes: seq<TokenWrite>)

  /**
   * The AcceptGrant chain as a value: decode the payload, exchange the
   * code, resolve the grantee's user id, write the token. `writeFault` is
   * the store's answer to that write.
   */
  function AcceptGrant(config: OAuthConfig, oauth: OAuthProvider, userIds: UserIdReader,
                       writeFault: (string, Token) -> Option<Error>,
                       builder: ResponseBuilder, codec: Codec, req: Request): (r: GrantOutcome)
    ensures r.reply.err.Some? <==> r.reply.resp.None?
    ensures |r.writes| <= 1
    ensures r.writes != [] ==>
      && codec.decodeAcceptGrant(req.directive.payload).Some?
      && oauth.exchange(config, codec.decodeAcceptGrant(req.directive.payload).value.grant.code) == Ok(r.writes[0].token)
      && userIds(codec.decodeAcceptGrant(req.directive.payload).value.grantee.token) == Ok(r.writes[0].userId)
  {
    match codec.decodeAcceptGrant(req.directive.payload)
    case None => GrantOutcome(Failed(PayloadUnmarshalFailed), [])
    case Some(payload) =>
      match oauth.exchange(config, payload.grant.code)
      case Err(_) => GrantOutcome(GrantFailure(builder, codec, req, "failed to exchange token"), [])
      case Ok(token) =>
        match userIds(payload.grantee.token)
        case Err(_) => GrantOutcome(GrantFailure(builder, codec, req, "failed to lookup userid"), [])
        case Ok(userId) =>
          if writeFault(userId, token).Some? then
            GrantOutcome(GrantFailure(builder, codec, req, "failed to store token"), [TokenWrite(userId, token)])
          else
            GrantOutcome(Reply(Some(AcceptGrantResponse(builder)), None), [TokenWrite(userId, token)])
  }

  /**
   * AuthorizationHandler applied to one request: the step chain above,
   * with the write made on `store`.
   */
  method AuthorizationHandler(clientId: string, clientSecret: string, oauth: OAuthProvider,
                              userIds: UserIdReader, store: TokenStore,
                              builder: ResponseBuilder, codec: Codec, req: Request)
    returns (reply: Reply)
    modifies store
    ensures var o := AcceptGrant(OAuthConfig(clientId, clientSecret), oauth, userIds, store.writeFault, builder, codec, req);
      && reply == o.reply
      && store.writes == old(store.writes) + o.writes
      && store.tokens == Stored(old(store.tokens), store.writeFault, o.writes)
  {
    var payload := codec.decodeAcceptGrant(req.directive.payload);
    if payload.None? {
      return Failed(PayloadUnmarshalFailed);
    }
    var config := OAuthConfig(clientId, clientSecret);
    var token := oauth.exchange(config, payload.value.grant.code);
    if token.Err? {
      return GrantFailure(builder, codec, req, "failed to exchange token");
    }
    var userId := userIds(payload.value.grantee.token);
    if userId.Err? {
      return GrantFailure(builder, codec, req, "failed to lookup userid");
    }
    var err := store.Write(userId.value, token.value);
    if err.Some? {
      return GrantFailure(builder, codec, req, "failed to store token");
    }
    return Reply(Some(AcceptGrantResponse(builder)), None);
  }

  /**
   * AuthorizationHandler returns a Go error only when the payload does not
   * decode or an error response cannot be built; otherwise it answers
   * with a response.
   */
  lemma AcceptGrantGoErrors(config: OAuthConfig, oauth: OAuthProvider, userIds: UserIdReader,
                            writeFault: (string, Token) -> Option<Error>,
                            builder: ResponseBuilder, codec: Codec, req: Request)
    ensures var r := AcceptGrant(config, oauth, userIds, writeFault, builder, codec, req).reply;
      && (r.err.Some? <==> r.resp.None?)
      && (r.err.Some? ==> r.err.value in {PayloadUnmarshalFailed, ErrorResponseFailed(PayloadMarshalFailed)})
      && (r.err == Some(PayloadUnmarshalFailed) <==> codec.decodeAcceptGrant(req.directive.payload).None?)
  {
  }

  /**
   * A failed exchange or a failed lookup writes nothing; a failed write is
   * the one write attempted. Each answers ACCEPT_GRANT_FAILED.
   */
  lemma AcceptGrantFailures(config: OAuthConfig, oauth: OAuthProvider, userIds: UserIdReader,
                            writeFault: (string, Token) -> Option<Error>,
                            builder: ResponseBuilder, codec: Codec, req: Request)
    requires codec.decodeAcceptGrant(req.directive.payload).Some?
    ensures var payload := codec.decodeAcceptGrant(req.directive.payload).value;
      var o := AcceptGrant(config, oauth, userIds, writeFault, builder, codec, req);
      && (oauth.exchange(config, payload.grant.code).Err? ==>
            o == GrantOutcome(GrantFailure(builder, codec, req, "failed to exchange token"), []))
      && (oauth.exchange(config, payload.grant.code).Ok? && userIds(payload.grantee.token).Err? ==>
            o == GrantOutcome(GrantFailure(builder, codec, req, "failed to lookup userid"), []))
      && (oauth.exchange(config, payload.grant.code).Ok? && userIds(payload.grantee.token).Ok? &&
          writeFault(userIds(payload.grantee.token).value, oauth.exchange(config, payload.grant.code).value).Some? ==>
            o.reply == GrantFailure(builder, codec, req, "failed to store token") && |o.writes| == 1)
  {
  }

  /**
   * A grant that goes through writes the exchanged token once, under the
   * id the grantee's token resolves to, and answers AcceptGrant.Response.
   */
  lemma AcceptGrantSucceeds(config: OAuthConfig, oauth: OAuthProvider, userIds: UserIdReader,
                            writeFault: (string, Token) -> Option<Error>,
                            builder: ResponseBuilder, codec: Codec, req: Request)
    ensures var o := AcceptGrant(config, oauth, userIds, writeFault, builder, codec, req);
      o.reply.resp.Some? && o.reply.resp.value.event.header.name == "AcceptGrant.Response" <==>
        && codec.decodeAcceptGrant(req.directive.payload).Some?
        && var payload := codec.decodeAcceptGrant(req.directive.payload).value;
        && oauth.exchange(config, payload.grant.code).Ok?
        && userIds(payload.grantee.token).Ok?
        && writeFault(userIds(payload.grantee.token).value, oauth.exchange(config, payload.grant.code).value).None?
        && o.writes == [TokenWrite(userIds(payload.grantee.token).value, oauth.exchange(config, payload.grant.code).value)]
        && o.reply == Reply(Some(AcceptGrantResponse(builder)), None)
  {
  }
}

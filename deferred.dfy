/**
 * The deferred pipeline's tail: the coordinator that runs a relayed
 * directive through the router and forwards any response, and the event
 * sender that posts that response to the event gateway with the user's
 * own token, persisting a token the transport refreshed on the way.
 */
module Deferred {
  import opened Wrappers
  import opened AlexaTypes
  import Home
  import opened Auth
  import opened Sniffer

  /** The two statuses the gateway answers a delivered event with. */
  predicate Accepted(statusCode: int) {
    statusCode == 200 || statusCode == 202
  }

  /** One POST to the event gateway: the response's JSON and the bearer token sent with it. */
  datatype Post = Post(body: RawMessage, accessToken: string)

  /** The gateway's answer once the call was made: its status, and whether its body could be read. */
  datatype GatewayReply = GatewayReply(statusCode: int, bodyRead: bool)

  /** The observable effects of one send or one coordinated request: the error, the POSTs, the token writes. */
  datatype SendTrace = SendTrace(err: Option<Error>, posts: seq<Post>, writes: seq<TokenWrite>)

  function Quiet(err: Option<Error>): SendTrace {
    SendTrace(err, [], [])
  }

  /** HTTPEventSender with its collaborators; `posts` logs the POSTs made. */
  class HTTPEventSender {
    const tokenStore: TokenStore
    const userIdReader: UserIdReader
    const clientId: string
    const clientSecret: string
    const oauth: OAuthProvider
    const gateway: Post -> Result<GatewayReply, Error>
    ghost var posts: seq<Post>

    constructor (tokenStore: TokenStore, userIdReader: UserIdReader, clientId: string, clientSecret: string,
                 oauth: OAuthProvider, gateway: Post -> Result<GatewayReply, Error>)
      ensures this.tokenStore == tokenStore && this.userIdReader == userIdReader
      ensures this.clientId == clientId && this.clientSecret == clientSecret
      ensures this.oauth == oauth && this.gateway == gateway && posts == []
    {
      this.tokenStore := tokenStore;
      this.userIdReader := userIdReader;
      this.clientId := clientId;
      this.clientSecret := clientSecret;
      this.oauth := oauth;
      this.gateway := gateway;
      posts := [];
    }

    /**
     * What Send does with `resp`, as a value. The transport asks the
     * sniffer for a token once; that first answer is both the token the
     * POST carries and the sniffer's LastToken when it succeeds.
     */
    function SendPlan(codec: Codec, resp: Response): (r: SendTrace)
      ensures |r.posts| <= 1 && |r.writes| <= 1
      ensures r.posts != [] ==> Some(r.posts[0].body) == codec.encodeResponse(resp)
      ensures r.writes != [] ==> |r.posts| == 1 && r.writes[0].token.accessToken == r.posts[0].accessToken
    {
      match codec.encodeResponse(resp)
      case None => Quiet(Some(SendError(MarshalResponse)))
      case Some(body) =>
        if resp.event.endpoint.None? then Quiet(Some(NilDereference("Event.Endpoint")))
        else
          match userIdReader(resp.event.endpoint.value.scope.token)
          case Err(_) => Quiet(Some(SendError(RetrieveUserId)))
          case Ok(userId) =>
            match tokenStore.read(userId)
            case Err(_) => Quiet(Some(SendError(RetrieveAccessToken)))
            case Ok(None) => Quiet(Some(SendError(MissingAccessToken)))
            case Ok(Some(stored)) =>
              match oauth.tokenSource(OAuthConfig(clientId, clientSecret), stored)
              case Err(_) => Quiet(Some(SendError(PerformRequest)))
              case Ok(used) =>
                var post := Post(body, used.accessToken);
                match gateway(post)
                case Err(_) => SendTrace(Some(SendError(PerformRequest)), [post], [])
                case Ok(answer) =>
                  if !answer.bodyRead then SendTrace(Some(SendError(ReadEventBody)), [post], [])
                  else if !Accepted(answer.statusCode) then
                    SendTrace(Some(SendError(UnexpectedStatus(answer.statusCode))), [post], [])
                  else if stored.accessToken != used.accessToken then
                    var err := tokenStore.writeFault(userId, used);
                    SendTrace(if err.Some? then Some(TokenUpdateFailed(err.value)) else None,
                              [post], [TokenWrite(userId, used)])
                  else SendTrace(None, [post], [])
    }

    /**
     * Send's error kinds: every failure up to and including the status
     * check is a SendError (or the panic on a missing endpoint) and writes
     * no token; only a failed refresh write is a plain error. At most one
     * POST and one write happen, and no write without a POST.
     */
    lemma SendOutcomes(codec: Codec, resp: Response)
      ensures var t := SendPlan(codec, resp);
        t.err.Some? ==> t.err.value.SendError? || t.err.value.NilDereference? || t.err.value.TokenUpdateFailed?
      ensures var t := SendPlan(codec, resp);
        t.err.Some? && !t.err.value.TokenUpdateFailed? ==> t.writes == []
      ensures var t := SendPlan(codec, resp);
        t.err.Some? && t.err.value.TokenUpdateFailed? ==> |t.writes| == 1 && |t.posts| == 1
      ensures |SendPlan(codec, resp).posts| <= 1 && |SendPlan(codec, resp).writes| <= 1
      ensures SendPlan(codec, resp).posts == [] ==> SendPlan(codec, resp).writes == [] && SendPlan(codec, resp).err.Some?
    {
    }

    /**
     * Each step up to the status check that fails ends Send with its own
     * SendError, or with the panic on a missing endpoint, and writes no
     * token; a step before the HTTP call also makes no POST.
     */
    lemma SendStageFailures(codec: Codec, resp: Response, body: RawMessage, userId: string,
                            stored: AlexaTypes.Token, used: AlexaTypes.Token, answer: GatewayReply)
      ensures codec.encodeResponse(resp).None? ==> SendPlan(codec, resp) == Quiet(Some(SendError(MarshalResponse)))
      ensures codec.encodeResponse(resp) == Some(body) && resp.event.endpoint.None? ==>
        SendPlan(codec, resp) == Quiet(Some(NilDereference("Event.Endpoint")))
      ensures (codec.encodeResponse(resp) == Some(body) && resp.event.endpoint.Some?
        && userIdReader(resp.event.endpoint.value.scope.token).Err?) ==>
        SendPlan(codec, resp) == Quiet(Some(SendError(RetrieveUserId)))
      ensures (codec.encodeResponse(resp) == Some(body) && resp.event.endpoint.Some?
        && userIdReader(resp.event.endpoint.value.scope.token) == Ok(userId)
        && tokenStore.read(userId).Err?) ==>
        SendPlan(codec, resp) == Quiet(Some(SendError(RetrieveAccessToken)))
      ensures (codec.encodeResponse(resp) == Some(body) && resp.event.endpoint.Some?
        && userIdReader(resp.event.endpoint.value.scope.token) == Ok(userId)
        && tokenStore.read(userId) == Ok(Some(stored))
        && oauth.tokenSource(OAuthConfig(clientId, clientSecret), stored).Err?) ==>
        SendPlan(codec, resp) == Quiet(Some(SendError(PerformRequest)))
      ensures (codec.encodeResponse(resp) == Some(body) && resp.event.endpoint.Some?
        && userIdReader(resp.event.endpoint.value.scope.token) == Ok(userId)
        && tokenStore.read(userId) == Ok(Some(stored))
        && oauth.tokenSource(OAuthConfig(clientId, clientSecret), stored) == Ok(used)
        && gateway(Post(body, used.accessToken)).Err?) ==>
        SendPlan(codec, resp) == SendTrace(Some(SendError(PerformRequest)), [Post(body, used.accessToken)], [])
      ensures (codec.encodeResponse(resp) == Some(body) && resp.event.endpoint.Some?
        && userIdReader(resp.event.endpoint.value.scope.token) == Ok(userId)
        && tokenStore.read(userId) == Ok(Some(stored))
        && oauth.tokenSource(OAuthConfig(clientId, clientSecret), stored) == Ok(used)
        && gateway(Post(body, used.accessToken)) == Ok(answer) && !answer.bodyRead) ==>
        SendPlan(codec, resp) == SendTrace(Some(SendError(ReadEventBody)), [Post(body, used.accessToken)], [])
      ensures (codec.encodeResponse(resp) == Some(body) && resp.event.endpoint.Some?
        && userIdReader(resp.event.endpoint.value.scope.token) == Ok(userId)
        && tokenStore.read(userId) == Ok(Some(stored))
        && oauth.tokenSource(OAuthConfig(clientId, clientSecret), stored) == Ok(used)
        && gateway(Post(body, used.accessToken)) == Ok(answer) && answer.bodyRead && !Accepted(answer.statusCode)) ==>
        SendPlan(codec, resp) ==
          SendTrace(Some(SendError(UnexpectedStatus(answer.statusCode))), [Post(body, used.accessToken)], [])
    {
    }

    /** A user with no stored token stops Send before any POST, with the missing-token SendError. */
    lemma MissingTokenStopsBeforePost(codec: Codec, resp: Response, userId: string)
      requires codec.encodeResponse(resp).Some? && resp.event.endpoint.Some?
      requires userIdReader(resp.event.endpoint.value.scope.token) == Ok(userId)
      requires tokenStore.read(userId) == Ok(None)
      ensures SendPlan(codec, resp).err == Some(SendError(MissingAccessToken))
      ensures SendPlan(codec, resp).posts == [] && SendPlan(codec, resp).writes == []
    {
    }

    /**
     * Once the gateway accepted the event, the store is written exactly
     * when the token the transport used differs from the stored one, once,
     * under the resolved user id; the send then fails only if that write
     * fails, and that failure is not a SendError.
     */
    lemma RefreshWrittenIff(codec: Codec, resp: Response, body: RawMessage, userId: string,
                            stored: AlexaTypes.Token, used: AlexaTypes.Token, answer: GatewayReply)
      requires codec.encodeResponse(resp) == Some(body) && resp.event.endpoint.Some?
      requires userIdReader(resp.event.endpoint.value.scope.token) == Ok(userId)
      requires tokenStore.read(userId) == Ok(Some(stored))
      requires oauth.tokenSource(OAuthConfig(clientId, clientSecret), stored) == Ok(used)
      requires gateway(Post(body, used.accessToken)) == Ok(answer)
      requires answer.bodyRead && Accepted(answer.statusCode)
      ensures SendPlan(codec, resp).posts == [Post(body, used.accessToken)]
      ensures SendPlan(codec, resp).writes != [] <==> stored.accessToken != used.accessToken
      ensures SendPlan(codec, resp).writes != [] ==> SendPlan(codec, resp).writes == [TokenWrite(userId, used)]
      ensures SendPlan(codec, resp).err.Some? <==>
        stored.accessToken != used.accessToken && tokenStore.writeFault(userId, used).Some?
      ensures SendPlan(codec, resp).err.Some? ==> !SendPlan(codec, resp).err.value.IsSendError()
    {
    }

    /** Send: posts `resp` as the user the response's scope token resolves to. */
    method Send(codec: Codec, resp: Response) returns (err: Option<Error>)
      modifies this, tokenStore
      ensures var t := SendPlan(codec, resp);
        && err == t.err
        && posts == old(posts) + t.posts
        && tokenStore.writes == old(tokenStore.writes) + t.writes
        && tokenStore.tokens == Stored(old(tokenStore.tokens), tokenStore.writeFault, t.writes)
    {
      var body := codec.encodeResponse(resp);
      if body.None? {
        return Some(SendError(MarshalResponse));
      }
      if resp.event.endpoint.None? {
        return Some(NilDereference("Event.Endpoint"));
      }
      var profile := userIdReader(resp.event.endpoint.value.scope.token);
      if profile.Err? {
        return Some(SendError(RetrieveUserId));
      }
      var token := tokenStore.read(profile.value);
      if token.Err? {
        return Some(SendError(RetrieveAccessToken));
      }
      if token.value.None? {
        return Some(SendError(MissingAccessToken));
      }
      var stored := token.value.value;
      var config := OAuthConfig(clientId, clientSecret);
      var source := oauth.tokenSource;
      var sniffer := new TokenSniffer((i: nat) => source(config, stored));

      // httpClient.Do: the oauth2 transport takes its token from the sniffer, then posts.
      var used := sniffer.Token();
      if used.Err? {
        return Some(SendError(PerformRequest));
      }
      var post := Post(body.value, used.value.accessToken);
      var answer := gateway(post);
      posts := posts + [post];
      if answer.Err? {
        return Some(SendError(PerformRequest));
      }
      if !answer.value.bodyRead {
        return Some(SendError(ReadEventBody));
      }
      if !Accepted(answer.value.statusCode) {
        return Some(SendError(UnexpectedStatus(answer.value.statusCode)));
      }

      if sniffer.lastToken.Some? && stored.accessToken != sniffer.lastToken.value.accessToken {
        var werr := tokenStore.Write(profile.value, sniffer.lastToken.value);
        if werr.Some? {
          return Some(TokenUpdateFailed(werr.value));
        }
      }
      return None;
    }
  }

  /** The deferred Handler: a request handler and the sender of what it produces. */
  class Handler {
    const requestHandler: Home.Handler
    const eventSender: HTTPEventSender

    constructor (requestHandler: Home.Handler, eventSender: HTTPEventSender)
      ensures this.requestHandler == requestHandler && this.eventSender == eventSender
    {
      this.requestHandler := requestHandler;
      this.eventSender := eventSender;
    }

    /** What HandleRequest does with `req`, as a value. */
    function Plan(codec: Codec, req: Request): (r: SendTrace)
      ensures requestHandler(req).err.Some? ==> r.err.Some?
      ensures r.posts != [] || r.writes != [] ==> requestHandler(req).err.None? && requestHandler(req).resp.Some?
    {
      var reply := requestHandler(req);
      if reply.err.Some? then Quiet(Some(HandleFailed(reply.err.value)))
      else if reply.resp.None? then Quiet(None)
      else eventSender.SendPlan(codec, reply.resp.value)
    }

    /**
     * The coordinator sends only what the request handler produced: a
     * handler failure is wrapped and nothing is posted or written, no
     * response means nothing is sent and no error, and a SendError can
     * only come from sending a response the handler produced.
     */
    lemma PlanOutcomes(codec: Codec, req: Request)
      ensures requestHandler(req).err.Some? ==>
        Plan(codec, req) == Quiet(Some(HandleFailed(requestHandler(req).err.value)))
      ensures requestHandler(req).err.None? && requestHandler(req).resp.None? ==> Plan(codec, req) == Quiet(None)
      ensures requestHandler(req).err.None? && requestHandler(req).resp.Some? ==>
        Plan(codec, req) == eventSender.SendPlan(codec, requestHandler(req).resp.value)
      ensures Plan(codec, req).err.Some? && Plan(codec, req).err.value.IsSendError() ==>
        requestHandler(req).err.None? && requestHandler(req).resp.Some?
      ensures Plan(codec, req).posts != [] ==>
        requestHandler(req).err.None? && requestHandler(req).resp.Some? &&
        Plan(codec, req) == eventSender.SendPlan(codec, requestHandler(req).resp.value)
    {
    }

    /** HandleRequest: handle, then send any response; a SendError means handled but not delivered. */
    method HandleRequest(codec: Codec, req: Request) returns (err: Option<Error>)
      modifies eventSender, eventSender.tokenStore
      ensures var t := Plan(codec, req);
        && err == t.err
        && eventSender.posts == old(eventSender.posts) + t.posts
        && eventSender.tokenStore.writes == old(eventSender.tokenStore.writes) + t.writes
        && eventSender.tokenStore.tokens ==
             Stored(old(eventSender.tokenStore.tokens), eventSender.tokenStore.writeFault, t.writes)
    {
      var reply := requestHandler(req);
      if reply.err.Some? {
        return Some(HandleFailed(reply.err.value));
      }
      if reply.resp.None? {
        return None;
      }
      err := eventSender.Send(codec, reply.resp.value);
    }
  }
}

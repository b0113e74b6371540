/**
 * RelayHandler: publishes a directive to a FIFO queue so that a consumer
 * elsewhere can handle it later.
 */
module SqsRelayer {
  import opened Wrappers
  import opened AlexaTypes
  import Handlers
  import Responses
  import Home

  /** The one message group of every relayed directive, which makes the queue deliver them in order. */
  const GroupId: string := "alexa.HandleRequest"

  datatype SendMessageInput = SendMessageInput(
    messageBody: string,
    queueUrl: string,
    messageGroupId: string,
    messageDeduplicationId: string)

  /** The queue client's SendMessage, by what it answers a message (Some is the failure), and the queue URL. */
  datatype RelayHandler = RelayHandler(sqs: SendMessageInput -> Option<Error>, queueUrl: string)

  /** The send calls one Relay makes, and what it returns. */
  datatype RelayResult = RelayResult(sent: seq<SendMessageInput>, err: Option<Error>)

  /** The queue message for `req`: the request's JSON, deduplicated by its message id. */
  function QueueMessage(queueUrl: string, codec: Codec, req: Request): (m: Option<SendMessageInput>)
    ensures m.Some? <==> codec.encodeRequest(req).Some?
    ensures m.Some? ==>
      && Some(m.value.messageBody) == codec.encodeRequest(req)
      && m.value.queueUrl == queueUrl
      && m.value.messageGroupId == GroupId
      && m.value.messageDeduplicationId == req.directive.header.messageId
  {
    match codec.encodeRequest(req)
    case None => None
    case Some(payload) => Some(SendMessageInput(payload, queueUrl, GroupId, req.directive.header.messageId))
  }

  /** Relay: marshal, then exactly one send of the queue message. */
  function Relay(h: RelayHandler, codec: Codec, req: Request): (r: RelayResult)
    ensures codec.encodeRequest(req).None? ==> r == RelayResult([], Some(RequestMarshalFailed))
    ensures codec.encodeRequest(req).Some? ==>
      && |r.sent| == 1 && Some(r.sent[0]) == QueueMessage(h.queueUrl, codec, req)
      && (r.err.None? <==> h.sqs(r.sent[0]).None?)
      && (r.err.Some? ==> r.err.value == QueueSendFailed(h.sqs(r.sent[0]).value))
  {
    match QueueMessage(h.queueUrl, codec, req)
    case None => RelayResult([], Some(RequestMarshalFailed))
    case Some(msg) =>
      match h.sqs(msg)
      case Some(e) => RelayResult([msg], Some(QueueSendFailed(e)))
      case None => RelayResult([msg], None)
  }

  /** The RelayHandler as the Relayer that DeferredRelayHandler takes. */
  function AsRelayer(h: RelayHandler, codec: Codec): (relayer: Handlers.Relayer)
    ensures forall req: Request :: relayer(req) == Relay(h, codec, req).err
  {
    (req: Request) => Relay(h, codec, req).err
  }

  /**
   * The publisher detects no duplicates: two requests with one message id
   * are both sent, with the same deduplication id, and it is up to the
   * queue to drop the second.
   */
  lemma DuplicatesShareDedupId(h: RelayHandler, codec: Codec, req: Request, again: Request)
    requires req.directive.header.messageId == again.directive.header.messageId
    requires codec.encodeRequest(req).Some? && codec.encodeRequest(again).Some?
    ensures |Relay(h, codec, req).sent| == 1 && |Relay(h, codec, again).sent| == 1
    ensures Relay(h, codec, req).sent[0].messageDeduplicationId ==
            Relay(h, codec, again).sent[0].messageDeduplicationId
    ensures Relay(h, codec, req).sent[0].messageGroupId == Relay(h, codec, again).sent[0].messageGroupId
  {
  }

  /**
   * DeferredRelayHandler over this publisher: Alexa gets the
   * DeferredResponse exactly when the request marshalled and its one queue
   * message was accepted; otherwise it gets the wrapped relay error and no
   * response.
   */
  lemma DeferredRelayOverQueue(h: RelayHandler, codec: Codec, builder: Responses.ResponseBuilder, req: Request)
    ensures var reply := Handlers.DeferredRelayHandler(AsRelayer(h, codec), builder)(req);
      && (reply.resp.Some? <==>
            codec.encodeRequest(req).Some? && h.sqs(QueueMessage(h.queueUrl, codec, req).value).None?)
      && (reply.resp.Some? ==> reply == Home.Reply(Some(Responses.DeferredResponse(builder, req)), None))
      && (codec.encodeRequest(req).None? ==> reply == Home.Failed(RelayFailed(RequestMarshalFailed)))
      && (codec.encodeRequest(req).Some? && h.sqs(QueueMessage(h.queueUrl, codec, req).value).Some? ==>
            reply == Home.Failed(RelayFailed(QueueSendFailed(h.sqs(QueueMessage(h.queueUrl, codec, req).value).value))))
  {
  }
}

/**
 * QueueProcessor: receives relayed directives from the queue, hands each
 * to the deferred Handler in receive order, and deletes a message only
 * once it was handled; the first failure abandons the rest of the batch.
 */
module SqsReader {
  import opened Wrappers
  import opened AlexaTypes
  import opened Auth
  import Deferred
  import SqsRelayer

  datatype Message = Message(body: string, receiptHandle: string)

  datatype ReceiveMessageInput = ReceiveMessageInput(queueUrl: string, waitTimeSeconds: int)

  datatype DeleteMessageInput = DeleteMessageInput(queueUrl: string, receiptHandle: string)

  /** The deletes that acknowledge `msgs`, one per message, in order. */
  function Deletes(queueUrl: string, msgs: seq<Message>): (d: seq<DeleteMessageInput>)
    ensures |d| == |msgs|
    ensures forall k :: 0 <= k < |msgs| ==> d[k] == DeleteMessageInput(queueUrl, msgs[k].receiptHandle)
  {
    seq(|msgs|, k requires 0 <= k < |msgs| => DeleteMessageInput(queueUrl, msgs[k].receiptHandle))
  }

  /** SQSMessageReader: what a receive returns, what a delete answers (Some is the failure), and the deletes made. */
  class QueueClient {
    const receive: ReceiveMessageInput -> Result<seq<Message>, Error>
    const deleteFault: DeleteMessageInput -> Option<Error>
    ghost var deletes: seq<DeleteMessageInput>

    constructor (receive: ReceiveMessageInput -> Result<seq<Message>, Error>,
                 deleteFault: DeleteMessageInput -> Option<Error>)
      ensures this.receive == receive && this.deleteFault == deleteFault && deletes == []
    {
      this.receive := receive;
      this.deleteFault := deleteFault;
      deletes := [];
    }

    method Delete(input: DeleteMessageInput) returns (err: Option<Error>)
      modifies this
      ensures err == deleteFault(input) && deletes == old(deletes) + [input]
    {
      err := deleteFault(input);
      deletes := deletes + [input];
    }
  }

  /** The effects of one batch: the error that ended it, the deletes, and the handler's POSTs and token writes. */
  datatype BatchTrace = BatchTrace(
    err: Option<Error>,
    deleted: seq<DeleteMessageInput>,
    posts: seq<Deferred.Post>,
    writes: seq<TokenWrite>)

  /** The effects of one message that completed, followed by those of the rest of the batch. */
  function Then(deleted: seq<DeleteMessageInput>, posts: seq<Deferred.Post>, writes: seq<TokenWrite>,
                rest: BatchTrace): BatchTrace {
    BatchTrace(rest.err, deleted + rest.deleted, posts + rest.posts, writes + rest.writes)
  }

  /** Effects that end the batch, after those of the messages that completed. */
  lemma ThenStops(deleted: seq<DeleteMessageInput>, posts: seq<Deferred.Post>, writes: seq<TokenWrite>,
                  err: Option<Error>, d: seq<DeleteMessageInput>, p: seq<Deferred.Post>, w: seq<TokenWrite>)
    ensures Then(deleted, posts, writes, BatchTrace(err, d, p, w)) == BatchTrace(err, deleted + d, posts + p, writes + w)
  {
  }

  /** Two completed stretches compose into one. */
  lemma ThenThen(deleted: seq<DeleteMessageInput>, posts: seq<Deferred.Post>, writes: seq<TokenWrite>,
                 d: seq<DeleteMessageInput>, p: seq<Deferred.Post>, w: seq<TokenWrite>, rest: BatchTrace)
    ensures Then(deleted, posts, writes, Then(d, p, w, rest)) == Then(deleted + d, posts + p, writes + w, rest)
  {
    assert deleted + (d + rest.deleted) == deleted + d + rest.deleted;
    assert posts + (p + rest.posts) == posts + p + rest.posts;
    assert writes + (w + rest.writes) == writes + w + rest.writes;
  }

  lemma AppendAssoc<T>(a: seq<T>, b: seq<T>, c: seq<T>)
    ensures a + b + c == a + (b + c)
  {
  }

  /**
   * How one pass of Process's loop ends: Process returns `err`, or the
   * loop goes round to receive again. Process never returns without an
   * error.
   */
  datatype Round = Stop(err: Error) | Continue

  class QueueProcessor {
    const sqs: QueueClient
    const queueUrl: string
    const handler: Deferred.Handler
    const queueWaitTimeSeconds: int

    constructor (sqs: QueueClient, queueUrl: string, handler: Deferred.Handler, queueWaitTimeSeconds: int)
      ensures this.sqs == sqs && this.queueUrl == queueUrl
      ensures this.handler == handler && this.queueWaitTimeSeconds == queueWaitTimeSeconds
    {
      this.sqs := sqs;
      this.queueUrl := queueUrl;
      this.handler := handler;
      this.queueWaitTimeSeconds := queueWaitTimeSeconds;
    }

    /** The delete that acknowledges `m`. */
    function DeleteOf(m: Message): DeleteMessageInput {
      DeleteMessageInput(queueUrl, m.receiptHandle)
    }

    /** `m` decodes and the deferred Handler handles it without error. */
    predicate Handled(codec: Codec, m: Message) {
      codec.decodeRequest(m.body).Some? && handler.Plan(codec, codec.decodeRequest(m.body).value).err.None?
    }

    /** `m` is handled and then deleted. */
    predicate Completes(codec: Codec, m: Message) {
      Handled(codec, m) && sqs.deleteFault(DeleteOf(m)).None?
    }

    /** What the loop body does with one message `m`, as a value; `err` is None when `m` completed. */
    function Step(codec: Codec, m: Message): (r: BatchTrace)
      ensures r.deleted == [] || r.deleted == [DeleteOf(m)]
      ensures r.err.None? ==> r.deleted == [DeleteOf(m)]
    {
      match codec.decodeRequest(m.body)
      case None => BatchTrace(Some(MessageReadFailed(m.body)), [], [], [])
      case Some(req) =>
        var t := handler.Plan(codec, req);
        if t.err.Some? then BatchTrace(Some(HandleRequestFailed(t.err.value)), [], t.posts, t.writes)
        else BatchTrace(if sqs.deleteFault(DeleteOf(m)).Some? then Some(DeleteFailed(sqs.deleteFault(DeleteOf(m)).value)) else None,
                        [DeleteOf(m)], t.posts, t.writes)
    }

    /** What the loop over one received batch does, as a value. */
    function Batch(codec: Codec, msgs: seq<Message>): (r: BatchTrace)
      ensures |r.deleted| <= |msgs|
      ensures r.err.None? ==> |r.deleted| == |msgs|
      decreases |msgs|
    {
      if msgs == [] then BatchTrace(None, [], [], [])
      else
        var s := Step(codec, msgs[0]);
        if s.err.Some? then s else Then(s.deleted, s.posts, s.writes, Batch(codec, msgs[1..]))
    }

    /** One step of Batch: the effects of `msgs[i]`, then those of the rest unless it failed. */
    lemma BatchStep(codec: Codec, msgs: seq<Message>, i: nat)
      requires i < |msgs|
      ensures var s := Step(codec, msgs[i]);
        Batch(codec, msgs[i..]) == if s.err.Some? then s else Then(s.deleted, s.posts, s.writes, Batch(codec, msgs[i + 1..]))
    {
      assert msgs[i..][0] == msgs[i] && msgs[i..][1..] == msgs[i + 1..];
    }

    /** A message ends the batch exactly when it does not complete, and it is deleted exactly when it was handled. */
    lemma StepOutcome(codec: Codec, m: Message)
      ensures Step(codec, m).err.None? <==> Completes(codec, m)
      ensures Step(codec, m).deleted == if Handled(codec, m) then [DeleteOf(m)] else []
    {
    }

    /**
     * The deletes of a batch are those of a prefix of the batch, in
     * receive order, each with its own message's receipt handle, and every
     * deleted message was handled first.
     */
    lemma {:induction false} BatchDeletesHandledPrefix(codec: Codec, msgs: seq<Message>)
      ensures |Batch(codec, msgs).deleted| <= |msgs|
      ensures Batch(codec, msgs).deleted == Deletes(queueUrl, msgs[..|Batch(codec, msgs).deleted|])
      ensures forall j :: 0 <= j < |Batch(codec, msgs).deleted| ==> Handled(codec, msgs[j])
      decreases |msgs|
    {
      if msgs != [] {
        var s := Step(codec, msgs[0]);
        StepOutcome(codec, msgs[0]);
        if s.err.None? {
          var rest := Batch(codec, msgs[1..]);
          BatchDeletesHandledPrefix(codec, msgs[1..]);
          var n := |rest.deleted|;
          assert msgs[..n + 1] == [msgs[0]] + msgs[1..][..n];
          forall j | 0 <= j < n + 1
            ensures Handled(codec, msgs[j])
          {
            if j > 0 {
              assert msgs[j] == msgs[1..][j - 1];
            }
          }
        }
      }
    }

    /**
     * If message `k` is the first that does not complete, the batch ends
     * with its error: the messages before it are deleted, it is deleted
     * only if it was handled, and the messages after it are not attempted.
     */
    lemma {:induction false} BatchStopsAtFirstFailure(codec: Codec, msgs: seq<Message>, k: nat)
      requires k < |msgs|
      requires forall j :: 0 <= j < k ==> Completes(codec, msgs[j])
      requires !Completes(codec, msgs[k])
      ensures Batch(codec, msgs).err == Step(codec, msgs[k]).err && Batch(codec, msgs).err.Some?
      ensures Batch(codec, msgs).deleted ==
        Deletes(queueUrl, msgs[..k]) + (if Handled(codec, msgs[k]) then [DeleteOf(msgs[k])] else [])
      ensures Batch(codec, msgs) == Batch(codec, msgs[..k + 1])
      decreases k
    {
      StepOutcome(codec, msgs[0]);
      if k > 0 {
        var s := Step(codec, msgs[0]);
        assert s.err.None? && s.deleted == [DeleteOf(msgs[0])];
        assert msgs[1..][..k] == msgs[..k + 1][1..];
        forall j | 0 <= j < k - 1
          ensures Completes(codec, msgs[1..][j])
        {
          assert msgs[1..][j] == msgs[j + 1];
        }
        BatchStopsAtFirstFailure(codec, msgs[1..], k - 1);
        assert Batch(codec, msgs) == Then(s.deleted, s.posts, s.writes, Batch(codec, msgs[1..]));
        assert msgs[..k + 1][0] == msgs[0];
        assert Batch(codec, msgs[..k + 1]) == Then(s.deleted, s.posts, s.writes, Batch(codec, msgs[1..][..k]));
        assert msgs[..k] == [msgs[0]] + msgs[1..][..k - 1];
        assert Deletes(queueUrl, msgs[..k]) == [DeleteOf(msgs[0])] + Deletes(queueUrl, msgs[1..][..k - 1]);
        assert msgs[1..][k - 1] == msgs[k];
        AppendAssoc(s.deleted, Deletes(queueUrl, msgs[1..][..k - 1]),
                    if Handled(codec, msgs[k]) then [DeleteOf(msgs[k])] else []);
      } else {
        StepOutcome(codec, msgs[k]);
        assert msgs[..1][0] == msgs[0];
      }
    }

    /** The batch succeeds exactly when every message completes, and then every message is deleted, in order. */
    lemma {:induction false} BatchSucceedsIff(codec: Codec, msgs: seq<Message>)
      ensures Batch(codec, msgs).err.None? <==> forall j :: 0 <= j < |msgs| ==> Completes(codec, msgs[j])
      ensures Batch(codec, msgs).err.None? ==> Batch(codec, msgs).deleted == Deletes(queueUrl, msgs)
      decreases |msgs|
    {
      if msgs != [] {
        StepOutcome(codec, msgs[0]);
        BatchSucceedsIff(codec, msgs[1..]);
        if Completes(codec, msgs[0]) {
          forall j | 0 < j < |msgs|
            ensures msgs[j] == msgs[1..][j - 1]
          {
          }
          assert Deletes(queueUrl, msgs) == [DeleteOf(msgs[0])] + Deletes(queueUrl, msgs[1..]);
        }
      }
    }

    /**
     * A directive the relay published comes back as itself: when the codec
     * reads back what it wrote, a message with the relayed body is handled
     * exactly as the original request, and deleted by its own receipt handle.
     */
    lemma RelayedRequestIsHandled(relayQueueUrl: string, codec: Codec, req: Request, receiptHandle: string)
      requires codec.encodeRequest(req).Some?
      requires codec.decodeRequest(codec.encodeRequest(req).value) == Some(req)
      ensures SqsRelayer.QueueMessage(relayQueueUrl, codec, req).Some?
      ensures var m := Message(SqsRelayer.QueueMessage(relayQueueUrl, codec, req).value.messageBody, receiptHandle);
        && (Handled(codec, m) <==> handler.Plan(codec, req).err.None?)
        && Step(codec, m).posts == handler.Plan(codec, req).posts
        && Step(codec, m).writes == handler.Plan(codec, req).writes
        && (Handled(codec, m) ==> Step(codec, m).deleted == [DeleteMessageInput(queueUrl, receiptHandle)])
    {
    }

    /** The body of the loop over a batch: decode `m`, handle it, then delete it. */
    method HandleMessage(codec: Codec, m: Message) returns (err: Option<Error>)
      modifies sqs, handler.eventSender, handler.eventSender.tokenStore
      ensures var s := Step(codec, m);
        && err == s.err
        && sqs.deletes == old(sqs.deletes) + s.deleted
        && handler.eventSender.posts == old(handler.eventSender.posts) + s.posts
        && handler.eventSender.tokenStore.writes == old(handler.eventSender.tokenStore.writes) + s.writes
        && handler.eventSender.tokenStore.tokens ==
             Stored(old(handler.eventSender.tokenStore.tokens), handler.eventSender.tokenStore.writeFault, s.writes)
    {
      var homeReq := codec.decodeRequest(m.body);
      if homeReq.None? {
        return Some(MessageReadFailed(m.body));
      }
      var herr := handler.HandleRequest(codec, homeReq.value);
      if herr.Some? {
        return Some(HandleRequestFailed(herr.value));
      }
      var derr := sqs.Delete(DeleteOf(m));
      if derr.Some? {
        return Some(DeleteFailed(derr.value));
      }
      return None;
    }

    /** The loop over one received batch. */
    method HandleBatch(codec: Codec, msgs: seq<Message>) returns (err: Option<Error>)
      modifies sqs, handler.eventSender, handler.eventSender.tokenStore
      ensures err == Batch(codec, msgs).err
      ensures sqs.deletes == old(sqs.deletes) + Batch(codec, msgs).deleted
      ensures handler.eventSender.posts == old(handler.eventSender.posts) + Batch(codec, msgs).posts
      ensures handler.eventSender.tokenStore.writes == old(handler.eventSender.tokenStore.writes) + Batch(codec, msgs).writes
      ensures handler.eventSender.tokenStore.tokens ==
        Stored(old(handler.eventSender.tokenStore.tokens), handler.eventSender.tokenStore.writeFault, Batch(codec, msgs).writes)
    {
      var store := handler.eventSender.tokenStore;
      ghost var deleted: seq<DeleteMessageInput> := [];
      ghost var posts: seq<Deferred.Post> := [];
      ghost var writes: seq<TokenWrite> := [];
      var i := 0;
      while i < |msgs|
        invariant 0 <= i <= |msgs|
        invariant sqs.deletes == old(sqs.deletes) + deleted
        invariant handler.eventSender.posts == old(handler.eventSender.posts) + posts
        invariant store.writes == old(store.writes) + writes
        invariant store.tokens == Stored(old(store.tokens), store.writeFault, writes)
        invariant Batch(codec, msgs) == Then(deleted, posts, writes, Batch(codec, msgs[i..]))
      {
        ghost var s := Step(codec, msgs[i]);
        BatchStep(codec, msgs, i);
        StoredAppend(old(store.tokens), store.writeFault, writes, s.writes);
        if s.err.Some? {
          ThenStops(deleted, posts, writes, s.err, s.deleted, s.posts, s.writes);
        } else {
          ThenThen(deleted, posts, writes, s.deleted, s.posts, s.writes, Batch(codec, msgs[i + 1..]));
        }
        err := HandleMessage(codec, msgs[i]);
        AppendAssoc(old(sqs.deletes), deleted, s.deleted);
        AppendAssoc(old(handler.eventSender.posts), posts, s.posts);
        AppendAssoc(old(store.writes), writes, s.writes);
        deleted, posts, writes := deleted + s.deleted, posts + s.posts, writes + s.writes;
        if err.Some? {
          assert Batch(codec, msgs) == BatchTrace(err, deleted, posts, writes);
          return;
        }
        i := i + 1;
      }
      assert msgs[i..] == [];
      assert deleted + [] == deleted && posts + [] == posts && writes + [] == writes;
      return None;
    }

    /** One pass of Process's loop: one receive, then the batch. */
    method Process(codec: Codec) returns (r: Round)
      modifies sqs, handler.eventSender, handler.eventSender.tokenStore
      ensures sqs.receive(ReceiveMessageInput(queueUrl, queueWaitTimeSeconds)).Err? ==>
        && r == Stop(ReceiveFailed(sqs.receive(ReceiveMessageInput(queueUrl, queueWaitTimeSeconds)).error))
        && sqs.deletes == old(sqs.deletes)
        && handler.eventSender.posts == old(handler.eventSender.posts)
        && handler.eventSender.tokenStore.writes == old(handler.eventSender.tokenStore.writes)
        && handler.eventSender.tokenStore.tokens == old(handler.eventSender.tokenStore.tokens)
      ensures sqs.receive(ReceiveMessageInput(queueUrl, queueWaitTimeSeconds)).Ok? ==>
        var t := Batch(codec, sqs.receive(ReceiveMessageInput(queueUrl, queueWaitTimeSeconds)).value);
        && r == (if t.err.Some? then Stop(t.err.value) else Continue)
        && sqs.deletes == old(sqs.deletes) + t.deleted
        && handler.eventSender.posts == old(handler.eventSender.posts) + t.posts
        && handler.eventSender.tokenStore.writes == old(handler.eventSender.tokenStore.writes) + t.writes
        && handler.eventSender.tokenStore.tokens ==
             Stored(old(handler.eventSender.tokenStore.tokens), handler.eventSender.tokenStore.writeFault, t.writes)
    {
      var resp := sqs.receive(ReceiveMessageInput(queueUrl, queueWaitTimeSeconds));
      if resp.Err? {
        return Stop(ReceiveFailed(resp.error));
      }
      var err := HandleBatch(codec, resp.value);
      r := if err.Some? then Stop(err.value) else Continue;
    }
  }
}

/** The wrapped LLM client's `messages` resource, as the core sees it. It is foreign: it records
    every call it receives and answers the n-th call from a fixed oracle. Each method is one of the
    SDK's call shapes (the two `create` overloads, `stream`, `parse`). */
module Client {
  import opened Wrappers
  import opened Types

  datatype ApiCall =
    | CreateCall(body: MessageCreateParams, options: Option<RequestOptions>)
    | StreamCall(body: MessageCreateParams, options: Option<RequestOptions>)
    /** `boundToProxy`: whether `this` was the intercepting proxy, so that parse's own
        internal `create` calls are intercepted too. */
    | ParseCall(body: MessageCreateParams, options: Option<RequestOptions>, boundToProxy: bool)

  class MessagesApi {
    var calls: seq<ApiCall>
    const messageReply: nat -> Sync<APIPromise<Message>>
    const streamReply: nat -> Sync<APIPromise<SourceStream>>
    const liveReply: nat -> Sync<LiveStream>
    const parseReply: nat -> Sync<APIPromise<Message>>

    constructor (messageReply: nat -> Sync<APIPromise<Message>>, streamReply: nat -> Sync<APIPromise<SourceStream>>,
                 liveReply: nat -> Sync<LiveStream>, parseReply: nat -> Sync<APIPromise<Message>>)
      ensures calls == []
      ensures this.messageReply == messageReply && this.streamReply == streamReply
      ensures this.liveReply == liveReply && this.parseReply == parseReply
    {
      calls := [];
      this.messageReply := messageReply;
      this.streamReply := streamReply;
      this.liveReply := liveReply;
      this.parseReply := parseReply;
    }

    /** `create` with `stream` not true: a promise of a message (or a synchronous throw). */
    method Create(body: MessageCreateParams, options: Option<RequestOptions>) returns (r: Sync<APIPromise<Message>>)
      requires !IsStreamingBody(body)
      modifies this
      ensures r == messageReply(|old(calls)|)
      ensures calls == old(calls) + [CreateCall(body, options)]
    {
      r := messageReply(|calls|);
      calls := calls + [CreateCall(body, options)];
    }

    /** `create` with `stream: true`: a promise of an event stream (or a synchronous throw). */
    method CreateStreaming(body: MessageCreateParams, options: Option<RequestOptions>) returns (r: Sync<APIPromise<SourceStream>>)
      requires IsStreamingBody(body)
      modifies this
      ensures r == streamReply(|old(calls)|)
      ensures calls == old(calls) + [CreateCall(body, options)]
    {
      r := streamReply(|calls|);
      calls := calls + [CreateCall(body, options)];
    }

    /** `stream`: a live event-emitting stream, returned synchronously. */
    method Stream(body: MessageCreateParams, options: Option<RequestOptions>) returns (r: Sync<LiveStream>)
      modifies this
      ensures r == liveReply(|old(calls)|)
      ensures calls == old(calls) + [StreamCall(body, options)]
    {
      r := liveReply(|calls|);
      calls := calls + [StreamCall(body, options)];
    }

    method Parse(body: MessageCreateParams, options: Option<RequestOptions>, boundToProxy: bool) returns (r: Sync<APIPromise<Message>>)
      modifies this
      ensures r == parseReply(|old(calls)|)
      ensures calls == old(calls) + [ParseCall(body, options, boundToProxy)]
    {
      r := parseReply(|calls|);
      calls := calls + [ParseCall(body, options, boundToProxy)];
    }
  }
}

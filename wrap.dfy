/** src/wrap.ts: `wrapAnthropicClient` replaces the client's `messages` with an intercepting
    proxy whose `create`, `stream` and `parse` trace the call and fall back to the original
    method on any instrumentation failure; every other property is the original's. */
module Wrap {
  import opened Wrappers
  import opened Types
  import opened PrefactorCore
  import opened SpanLifecycle
  import opened Client
  import opened CreateHandler
  import opened CreateStreamHandler
  import opened StreamHandler
  import opened Init
  import WrapUtils

  /** A property key looked up on `client.messages`. */
  datatype Property = Named(name: string) | SymbolKey(id: nat)

  datatype Member = WrappedCreate | WrappedStream | WrappedParse | Original(property: Property)

  /** The proxy's `get` trap. */
  function Get(property: Property): (r: Member)
    ensures r == WrappedCreate <==> property == Named("create")
    ensures r == WrappedStream <==> property == Named("stream")
    ensures r == WrappedParse <==> property == Named("parse")
    ensures r.Original? <==> property !in {Named("create"), Named("stream"), Named("parse")}
    ensures r.Original? ==> r.property == property
  {
    if property == Named("create") then WrappedCreate
    else if property == Named("stream") then WrappedStream
    else if property == Named("parse") then WrappedParse
    else Original(property)
  }

  /** The `agentInfo` literal built inline in `wrapAnthropicClient`. */
  function InlineAgentInfo(config: Option<PluginConfig>): Option<AgentInfo> {
    if config.Some? && config.value.prefactorConfig.Some? && config.value.prefactorConfig.value.httpConfig.Some? then
      var http := config.value.prefactorConfig.value.httpConfig.value;
      Some(AgentInfo(http.agentId, http.agentIdentifier, http.agentName, http.agentDescription))
    else if config.Some? then Some(AgentInfo(config.value.agentId, Some(DefaultAgentIdentifier), None, None))
    else None
  }

  /** The inline literal and `extractAgentInfo` derive the same identity from every config. */
  lemma InlineAgentInfoIsExtractAgentInfo(config: Option<PluginConfig>)
    ensures InlineAgentInfo(config) == WrapUtils.ExtractAgentInfo(config)
  {
  }

  /** What the wrapped `create` returns: a message promise (the handler's, or the original's on
      fallback), the handler's wrapped stream promise, or on fallback the original stream promise. */
  datatype CreateReturn =
    | MessagePromise(message: Sync<APIPromise<Message>>)
    | TracedStream(traced: Sync<WrappedStreamPromise>)
    | OriginalStream(original: Sync<APIPromise<SourceStream>>)

  /** The proxy and the closure state its wrapped methods share. */
  class MessagesProxy {
    const target: MessagesApi
    const tracer: Tracer
    const agentManager: AgentManager
    const runtime: PluginRuntime
    const agentInfo: Option<AgentInfo>
    const config: Option<PluginConfig>

    constructor (target: MessagesApi, tracer: Tracer, agentManager: AgentManager, runtime: PluginRuntime,
                 agentInfo: Option<AgentInfo>, config: Option<PluginConfig>)
      ensures this.target == target && this.tracer == tracer && this.agentManager == agentManager
      ensures this.runtime == runtime && this.agentInfo == agentInfo && this.config == config
    {
      this.target := target;
      this.tracer := tracer;
      this.agentManager := agentManager;
      this.runtime := runtime;
      this.agentInfo := agentInfo;
      this.config := config;
    }

    /** `wrappedCreate`: starts the agent instance if needed, routes on `body.stream === true`,
        and when the handler throws calls the original `create` again and returns its outcome. */
    method Create(body: MessageCreateParams, options: Option<RequestOptions>) returns (r: CreateReturn)
      modifies tracer, target, runtime, agentManager
      ensures agentManager.calls ==
        if old(runtime.agentInstanceStarted) then old(agentManager.calls)
        else old(agentManager.calls) + [StartInstanceCall(agentInfo)]
      ensures runtime.agentInstanceStarted ==
        (old(runtime.agentInstanceStarted) || agentManager.failure(|old(agentManager.calls)|).None?)
      ensures IsStreamingBody(body) <==> !r.MessagePromise?
      ensures var n := |old(tracer.trace)|;
              var m := |old(target.calls)|;
              var start := tracer.StartAnswer(n);
              var afterStart := old(tracer.trace) + [StartSpanCall(Descriptor(
                                  if IsStreamingBody(body) then CreateStreamSpanName else CreateSpanName,
                                  body, config, IsStreamingBody(body)), start)];
              var once := old(target.calls) + [CreateCall(body, options)];
        // a throwing startSpan: the original is called once, as the fallback
        && (start.Raised? ==> target.calls == once && tracer.trace == afterStart)
        && (start.Raised? && !IsStreamingBody(body) ==> r == MessagePromise(target.messageReply(m)))
        && (start.Raised? && IsStreamingBody(body) ==> r == OriginalStream(target.streamReply(m)))
        // the original throws inside the handler: the span stays open and the original is called twice
        && (start.Value? && !IsStreamingBody(body) && target.messageReply(m).Raised? ==>
              target.calls == once + [CreateCall(body, options)] && tracer.trace == afterStart
              && r == MessagePromise(target.messageReply(m + 1)))
        && (start.Value? && IsStreamingBody(body) && target.streamReply(m).Raised? ==>
              target.calls == once + [CreateCall(body, options)] && tracer.trace == afterStart
              && r == OriginalStream(target.streamReply(m + 1)))
        // otherwise the handler's promise is returned and the settlement closes the span
        && (start.Value? && !IsStreamingBody(body) && target.messageReply(m).Value? ==>
              target.calls == once && r == MessagePromise(target.messageReply(m))
              && tracer.trace == afterStart + SettlementCalls(n, n + 1, tracer.failure, target.messageReply(m).value.outcome, config))
        && (start.Value? && IsStreamingBody(body) && target.streamReply(m).Value? ==>
              && target.calls == once && r.TracedStream? && r.traced.Value?
              && r.traced.value.viaThenUnwrap == target.streamReply(m).value.hasThenUnwrap
              && (target.streamReply(m).value.outcome.Rejected? ==>
                    r.traced.value.outcome == Rejected(target.streamReply(m).value.outcome.error)
                    && tracer.trace == afterStart + [EndSpanCall(n, Errored(target.streamReply(m).value.outcome.error))])
              && (target.streamReply(m).value.outcome.Resolved? ==>
                    r.traced.value.outcome.Resolved? && tracer.trace == afterStart))
      ensures r.TracedStream? && r.traced.Value? && r.traced.value.outcome.Resolved? ==>
        var w := r.traced.value.outcome.value;
        && fresh(w) && fresh(w.ender) && w.ender.tracer == tracer && w.ender.span == |old(tracer.trace)|
        && !w.ender.spanEnded && w.source == target.streamReply(|old(target.calls)|).value.outcome.value
    {
      runtime.EnsureAgentInstanceStarted(agentManager, agentInfo);
      if IsStreamingBody(body) {
        r := CreateStreamingOrFallBack(body, options);
      } else {
        r := CreateOrFallBack(body, options);
      }
    }

    /** The non-streaming branch of `wrappedCreate` and its `catch`. */
    method CreateOrFallBack(body: MessageCreateParams, options: Option<RequestOptions>) returns (r: CreateReturn)
      requires !IsStreamingBody(body)
      modifies tracer, target
      ensures r.MessagePromise?
      ensures var n := |old(tracer.trace)|;
              var m := |old(target.calls)|;
              var start := tracer.StartAnswer(n);
              var afterStart := old(tracer.trace) + [StartSpanCall(Descriptor(CreateSpanName, body, config, false), start)];
              var once := old(target.calls) + [CreateCall(body, options)];
        && (start.Raised? ==> target.calls == once && tracer.trace == afterStart
                              && r == MessagePromise(target.messageReply(m)))
        && (start.Value? && target.messageReply(m).Raised? ==>
              target.calls == once + [CreateCall(body, options)] && tracer.trace == afterStart
              && r == MessagePromise(target.messageReply(m + 1)))
        && (start.Value? && target.messageReply(m).Value? ==>
              target.calls == once && r == MessagePromise(target.messageReply(m))
              && tracer.trace == afterStart + SettlementCalls(n, n + 1, tracer.failure, target.messageReply(m).value.outcome, config))
    {
      var traced := HandleNonStreamingCreate(tracer, target, body, options, config);
      if traced.Raised? {
        var original := target.Create(body, options);
        r := MessagePromise(original);
      } else {
        r := MessagePromise(traced);
      }
    }

    /** The streaming branch of `wrappedCreate` and its `catch`. */
    method CreateStreamingOrFallBack(body: MessageCreateParams, options: Option<RequestOptions>) returns (r: CreateReturn)
      requires IsStreamingBody(body)
      modifies tracer, target
      ensures !r.MessagePromise?
      ensures var n := |old(tracer.trace)|;
              var m := |old(target.calls)|;
              var start := tracer.StartAnswer(n);
              var afterStart := old(tracer.trace) + [StartSpanCall(Descriptor(CreateStreamSpanName, body, config, true), start)];
              var once := old(target.calls) + [CreateCall(body, options)];
        && (start.Raised? ==> target.calls == once && tracer.trace == afterStart
                              && r == OriginalStream(target.streamReply(m)))
        && (start.Value? && target.streamReply(m).Raised? ==>
              target.calls == once + [CreateCall(body, options)] && tracer.trace == afterStart
              && r == OriginalStream(target.streamReply(m + 1)))
        && (start.Value? && target.streamReply(m).Value? ==>
              && target.calls == once && r.TracedStream? && r.traced.Value?
              && r.traced.value.viaThenUnwrap == target.streamReply(m).value.hasThenUnwrap
              && (target.streamReply(m).value.outcome.Rejected? ==>
                    r.traced.value.outcome == Rejected(target.streamReply(m).value.outcome.error)
                    && tracer.trace == afterStart + [EndSpanCall(n, Errored(target.streamReply(m).value.outcome.error))])
              && (target.streamReply(m).value.outcome.Resolved? ==>
                    r.traced.value.outcome.Resolved? && tracer.trace == afterStart))
      ensures r.TracedStream? && r.traced.Value? && r.traced.value.outcome.Resolved? ==>
        var w := r.traced.value.outcome.value;
        && fresh(w) && fresh(w.ender) && w.ender.tracer == tracer && w.ender.span == |old(tracer.trace)|
        && !w.ender.spanEnded && w.source == target.streamReply(|old(target.calls)|).value.outcome.value
    {
      var traced := HandleStreamingCreate(tracer, target, body, options, config);
      if traced.Raised? {
        var original := target.CreateStreaming(body, options);
        r := OriginalStream(original);
      } else {
        r := TracedStream(traced);
      }
    }

    /** `wrappedStream`: the traced live stream, or on a throwing handler the original `stream`'s. */
    method Stream(body: MessageCreateParams, options: Option<RequestOptions>) returns (r: Sync<LiveStream>, tap: StreamTap?)
      modifies tracer, target, runtime, agentManager
      ensures agentManager.calls ==
        if old(runtime.agentInstanceStarted) then old(agentManager.calls)
        else old(agentManager.calls) + [StartInstanceCall(agentInfo)]
      ensures runtime.agentInstanceStarted ==
        (old(runtime.agentInstanceStarted) || agentManager.failure(|old(agentManager.calls)|).None?)
      ensures var m := |old(target.calls)|;
              var start := tracer.StartAnswer(|old(tracer.trace)|);
              var once := old(target.calls) + [StreamCall(body, options)];
        && tracer.trace == old(tracer.trace) + [StartSpanCall(Descriptor(StreamSpanName, body, config, true), start)]
        && (start.Raised? ==> target.calls == once && r == target.liveReply(m) && tap == null)
        && (start.Value? && target.liveReply(m).Raised? ==>
              target.calls == once + [StreamCall(body, options)] && r == target.liveReply(m + 1) && tap == null)
        && (start.Value? && target.liveReply(m).Value? ==>
              target.calls == once && r == target.liveReply(m) && tap != null)
      ensures tap != null ==>
        && fresh(tap) && fresh(tap.ender) && tap.listening == AllListeners && tap.config == config
        && tap.ender.tracer == tracer && tap.ender.span == |old(tracer.trace)| && !tap.ender.spanEnded
    {
      runtime.EnsureAgentInstanceStarted(agentManager, agentInfo);
      r, tap := HandleMessageStream(tracer, target, body, options, config);
      if r.Raised? {
        r := target.Stream(body, options);
        tap := null;
      }
    }

    /** `wrappedParse`: the original `parse` with `this` bound to the proxy, and on a throw the
        original `parse` called again on the original resource. No span is opened here. */
    method Parse(body: MessageCreateParams, options: Option<RequestOptions>) returns (r: Sync<APIPromise<Message>>)
      modifies target, runtime, agentManager
      ensures agentManager.calls ==
        if old(runtime.agentInstanceStarted) then old(agentManager.calls)
        else old(agentManager.calls) + [StartInstanceCall(agentInfo)]
      ensures runtime.agentInstanceStarted ==
        (old(runtime.agentInstanceStarted) || agentManager.failure(|old(agentManager.calls)|).None?)
      ensures var m := |old(target.calls)|;
              var bound := old(target.calls) + [ParseCall(body, options, true)];
        && (target.parseReply(m).Value? ==> target.calls == bound && r == target.parseReply(m))
        && (target.parseReply(m).Raised? ==>
              target.calls == bound + [ParseCall(body, options, false)] && r == target.parseReply(m + 1))
    {
      runtime.EnsureAgentInstanceStarted(agentManager, agentInfo);
      r := target.Parse(body, options, true);
      if r.Raised? {
        r := target.Parse(body, options, false);
      }
    }
  }

  /** What `client.messages` holds: the SDK's resource, or the proxy in front of it. */
  datatype MessagesSlot = Raw(api: MessagesApi) | Proxied(proxy: MessagesProxy)

  /** The part of the SDK client the wrapper touches. */
  class AnthropicClient {
    var messages: MessagesSlot

    constructor (api: MessagesApi)
      ensures messages == Raw(api)
    {
      messages := Raw(api);
    }
  }

  /** `wrapAnthropicClient`. `initCore` runs first and outside any guard, so its error reaches the
      caller and the client is left as it was; on success the very same client comes back with
      only `messages` replaced by a proxy over the original resource. */
  method WrapAnthropicClient(client: AnthropicClient, runtime: PluginRuntime, config: Option<PluginConfig>)
    returns (r: Sync<AnthropicClient>)
    requires client.messages.Raw? && runtime.Valid()
    modifies client, runtime
    ensures runtime.Valid()
    ensures r.Raised? <==> old(runtime.InitFailure(config)).Some?
    ensures r.Raised? ==> r.error == old(runtime.InitFailure(config)).value && client.messages == old(client.messages)
    ensures r.Value? ==>
      && r.value == client && client.messages.Proxied? && runtime.globalCore.Some?
      && client.messages.proxy.target == old(client.messages.api)
      && client.messages.proxy.tracer == runtime.globalCore.value.tracer
      && client.messages.proxy.agentManager == runtime.globalCore.value.agentManager
      && client.messages.proxy.runtime == runtime
      && client.messages.proxy.config == config
      && client.messages.proxy.agentInfo == WrapUtils.ExtractAgentInfo(config)
    ensures old(runtime.globalCore).Some? ==>
      r.Value? && runtime.globalCore == old(runtime.globalCore) && runtime.coreCalls == old(runtime.coreCalls)
  {
    var core := runtime.InitCore(config);
    if core.Raised? {
      r := Raised(core.error);
      return;
    }
    var original := client.messages.api;
    InlineAgentInfoIsExtractAgentInfo(config);
    var proxy := new MessagesProxy(original, core.value.tracer, core.value.agentManager, runtime,
                                   InlineAgentInfo(config), config);
    client.messages := Proxied(proxy);
    r := Value(client);
  }
}

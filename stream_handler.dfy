/** The `messages.stream` handler (src/handlers/stream.ts): three one-shot listeners on the
    returned event emitter, all closing the span through one span ender. */
module StreamHandler {
  import opened Wrappers
  import opened Types
  import opened PrefactorCore
  import opened SpanLifecycle
  import opened Client
  import SpanPayload
  import TokenUsageExtraction

  const StreamSpanName := "anthropic:messages.stream"

  /** The options a listener hands to the span ender for a terminal event. On `finalMessage`,
      token extraction is evaluated before the ender is called, so when it throws the fallback
      `endSpan({})` is still the ender's first call. */
  function ListenerOptions(ev: EmitterEvent, config: Option<PluginConfig>): (o: EndOptions)
    ensures ev.FinalMessage? && ev.message.usage.Some? ==>
      && o.Completed? && o.outputs == SpanPayload.BuildOutputs(ev.message, config)
      && o.tokenUsage == Some(TokenUsageExtraction.ExtractTokenUsage(ev.message).value)
      && TokenUsageExtraction.Consistent(o.tokenUsage.value)
      && o.tokenUsage.value.completionTokens == ev.message.usage.value.outputTokens
    ensures ev.FinalMessage? && ev.message.usage.None? ==> o == NoData
    ensures !ev.FinalMessage? ==> o == Errored(ev.error)
  {
    match ev
    case FinalMessage(message) =>
      (match TokenUsageExtraction.ExtractTokenUsage(message)
       case Success(usage) => Completed(SpanPayload.BuildOutputs(message, config), Some(usage))
       case Failure(_) => NoData)
    case ErrorEvent(e) => Errored(e)
    case AbortEvent(e) => Errored(e)
  }

  const AllListeners: set<EmitterEventName> := {FinalMessageName, ErrorName, AbortName}

  /** The `once` listeners registered on the live stream, and the ender they share. */
  class StreamTap {
    const ender: SpanEnder
    const config: Option<PluginConfig>
    var listening: set<EmitterEventName>

    constructor (tracer: Tracer, span: SpanId, config: Option<PluginConfig>)
      ensures fresh(ender) && ender.tracer == tracer && ender.span == span && !ender.spanEnded
      ensures this.config == config && listening == AllListeners
    {
      ender := new SpanEnder(tracer, span);
      this.config := config;
      listening := AllListeners;
    }

    /** The emitter delivers one event: a `once` listener for its name runs and is removed;
        an event with no listener left does nothing. */
    method Emit(ev: EmitterEvent)
      modifies this, ender, ender.tracer
      ensures listening == old(listening) - {NameOf(ev)}
      ensures NameOf(ev) in old(listening) ==> ender.spanEnded
      ensures ender.spanEnded == (old(ender.spanEnded) || NameOf(ev) in old(listening))
      ensures ender.tracer.trace ==
        if NameOf(ev) in old(listening) && !old(ender.spanEnded)
        then old(ender.tracer.trace) + [EndSpanCall(ender.span, ListenerOptions(ev, config))]
        else old(ender.tracer.trace)
    {
      var name := NameOf(ev);
      if name in listening {
        listening := listening - {name};
        ender.End(ListenerOptions(ev, config));
      }
    }

    /** The emitter delivers a run of terminal events: whatever they are and however they repeat,
        the span is closed exactly once, with the outcome of the first. */
    method EmitAll(events: seq<EmitterEvent>)
      requires listening == AllListeners && !ender.spanEnded
      modifies this, ender, ender.tracer
      ensures ender.spanEnded == (|events| > 0)
      ensures ender.tracer.trace ==
        if events == [] then old(ender.tracer.trace)
        else old(ender.tracer.trace) + [EndSpanCall(ender.span, ListenerOptions(events[0], config))]
    {
      var i := 0;
      while i < |events|
        invariant 0 <= i <= |events|
        invariant i == 0 ==> listening == AllListeners && !ender.spanEnded && ender.tracer.trace == old(ender.tracer.trace)
        invariant i > 0 ==> ender.spanEnded
        invariant i > 0 ==> ender.tracer.trace == old(ender.tracer.trace) + [EndSpanCall(ender.span, ListenerOptions(events[0], config))]
      {
        Emit(events[i]);
        i := i + 1;
      }
    }
  }

  /** `handleMessageStream`: opens the span, calls the original `stream` synchronously and hangs
      the three listeners on what it returns. A throwing `startSpan` or `stream` propagates; in the
      second case the span stays open and no listener exists. */
  method HandleMessageStream(tracer: Tracer, target: MessagesApi, body: MessageCreateParams,
                             options: Option<RequestOptions>, config: Option<PluginConfig>)
    returns (r: Sync<LiveStream>, tap: StreamTap?)
    modifies tracer, target
    ensures var start := tracer.StartAnswer(|old(tracer.trace)|);
      && tracer.trace == old(tracer.trace) + [StartSpanCall(Descriptor(StreamSpanName, body, config, true), start)]
      && (start.Raised? ==> r == Raised(start.error) && tap == null && target.calls == old(target.calls))
      && (start.Value? ==> target.calls == old(target.calls) + [StreamCall(body, options)]
                           && r == target.liveReply(|old(target.calls)|))
      && (tap != null <==> r.Value?)
    ensures tap != null ==>
      && fresh(tap) && fresh(tap.ender) && tap.listening == AllListeners && tap.config == config
      && tap.ender.tracer == tracer && tap.ender.span == |old(tracer.trace)| && !tap.ender.spanEnded
  {
    tap := null;
    var start := CreateSpan(tracer, StreamSpanName, body, config, true);
    if start.Raised? {
      r := Raised(start.error);
      return;
    }
    r := target.Stream(body, options);
    if r.Value? {
      tap := new StreamTap(tracer, start.value, config);
    }
  }
}

/** The streaming `create` handler (src/handlers/create-stream.ts): the stream wrapper that
    re-emits every event while capturing usage and stop reason, and the outer-rejection latch. */
module CreateStreamHandler {
  import opened Wrappers
  import opened Types
  import opened PrefactorCore
  import opened SpanLifecycle
  import opened Client
  import TokenUsageExtraction

  const CreateStreamSpanName := "anthropic:messages.create[stream]"

  // ---- What the iteration loop captures, as functions of the events seen so far ----

  /** `initialUsage` after the events: the usage of the last `message_start`, else `initial`. */
  function CapturedStart(initial: Option<Usage>, events: seq<StreamEvent>): Option<Usage>
    decreases |events|
  {
    if events == [] then initial
    else if events[|events| - 1].MessageStart? then Some(events[|events| - 1].startUsage)
    else CapturedStart(initial, events[..|events| - 1])
  }

  /** `deltaUsage` after the events: the usage of the last `message_delta`, else `initial`. */
  function CapturedDelta(initial: Option<DeltaUsage>, events: seq<StreamEvent>): Option<DeltaUsage>
    decreases |events|
  {
    if events == [] then initial
    else if events[|events| - 1].MessageDelta? then Some(events[|events| - 1].deltaUsage)
    else CapturedDelta(initial, events[..|events| - 1])
  }

  /** `stopReason` after the events: the stop reason of the last `message_delta`, else `initial`. */
  function CapturedStopReason(initial: Option<string>, events: seq<StreamEvent>): Option<string>
    decreases |events|
  {
    if events == [] then initial
    else if events[|events| - 1].MessageDelta? then events[|events| - 1].deltaStopReason
    else CapturedStopReason(initial, events[..|events| - 1])
  }

  /** The captured start usage is that of the last `message_start` in the stream. */
  lemma {:induction false} CapturedStartIsLastStart(initial: Option<Usage>, events: seq<StreamEvent>, i: nat)
    requires i < |events| && events[i].MessageStart?
    requires forall j :: i < j < |events| ==> !events[j].MessageStart?
    ensures CapturedStart(initial, events) == Some(events[i].startUsage)
    decreases |events|
  {
    if i < |events| - 1 {
      var prefix := events[..|events| - 1];
      assert prefix[i] == events[i];
      forall j | i < j < |prefix| ensures !prefix[j].MessageStart? { assert prefix[j] == events[j]; }
      CapturedStartIsLastStart(initial, prefix, i);
    }
  }

  /** Without any `message_start` the captured start usage is the initial one. */
  lemma {:induction false} CapturedStartWithoutStart(initial: Option<Usage>, events: seq<StreamEvent>)
    requires forall j :: 0 <= j < |events| ==> !events[j].MessageStart?
    ensures CapturedStart(initial, events) == initial
    decreases |events|
  {
    if events != [] {
      var prefix := events[..|events| - 1];
      forall j | 0 <= j < |prefix| ensures !prefix[j].MessageStart? { assert prefix[j] == events[j]; }
      CapturedStartWithoutStart(initial, prefix);
    }
  }

  /** The captured delta usage and stop reason both come from the last `message_delta`. */
  lemma {:induction false} CapturedDeltaIsLastDelta(d0: Option<DeltaUsage>, s0: Option<string>, events: seq<StreamEvent>, i: nat)
    requires i < |events| && events[i].MessageDelta?
    requires forall j :: i < j < |events| ==> !events[j].MessageDelta?
    ensures CapturedDelta(d0, events) == Some(events[i].deltaUsage)
    ensures CapturedStopReason(s0, events) == events[i].deltaStopReason
    decreases |events|
  {
    if i < |events| - 1 {
      var prefix := events[..|events| - 1];
      assert prefix[i] == events[i];
      forall j | i < j < |prefix| ensures !prefix[j].MessageDelta? { assert prefix[j] == events[j]; }
      CapturedDeltaIsLastDelta(d0, s0, prefix, i);
    }
  }

  /** Without any `message_delta` the delta usage and the stop reason keep their initial values
      (from a fresh wrapper: undefined and null). */
  lemma {:induction false} CapturedWithoutDelta(d0: Option<DeltaUsage>, s0: Option<string>, events: seq<StreamEvent>)
    requires forall j :: 0 <= j < |events| ==> !events[j].MessageDelta?
    ensures CapturedDelta(d0, events) == d0
    ensures CapturedStopReason(s0, events) == s0
    decreases |events|
  {
    if events != [] {
      var prefix := events[..|events| - 1];
      forall j | 0 <= j < |prefix| ensures !prefix[j].MessageDelta? { assert prefix[j] == events[j]; }
      CapturedWithoutDelta(d0, s0, prefix);
    }
  }

  /** What the wrapper passes to its span ender once iteration stops: the source's error, or no
      content, the last stop reason, and exactly the streaming usage of the captured frames: its
      prompt count sums both frames, its completion count is the delta's output, else the
      `message_start` output, else 0 (`?? undefined` when no frame was seen). */
  function StreamEndOptions(source: SourceStream, initial: Option<Usage>, delta: Option<DeltaUsage>, stop: Option<string>): (o: EndOptions)
    ensures source.failure.Some? ==> o == Errored(source.failure.value)
    ensures source.failure.None? ==>
      var init := CapturedStart(initial, source.events);
      var last := CapturedDelta(delta, source.events);
      && o.Completed? && o.outputs.content.None?
      && o.outputs.stopReason == CapturedStopReason(stop, source.events)
      && o.tokenUsage == TokenUsageExtraction.ExtractStreamingTokenUsage(init, last)
      && (o.tokenUsage.None? <==> init.None? && last.None?)
      && (o.tokenUsage.Some? ==>
            && o.tokenUsage.value.promptTokens == TokenUsageExtraction.SumUsageTokens(TokenUsageExtraction.OfFinal(init))
                                                  + TokenUsageExtraction.SumUsageTokens(TokenUsageExtraction.OfDelta(last))
            && TokenUsageExtraction.Consistent(o.tokenUsage.value))
      && (last.Some? && last.value.outputTokens.Some? ==> o.tokenUsage.value.completionTokens == last.value.outputTokens.value)
  {
    match source.failure
    case Some(e) => Errored(e)
    case None =>
      Completed(Outputs(None, CapturedStopReason(stop, source.events)),
                TokenUsageExtraction.ExtractStreamingTokenUsage(CapturedStart(initial, source.events),
                                                                CapturedDelta(delta, source.events)))
  }

  // ---- The proxy over the source stream ----

  datatype StreamProperty = AsyncIteratorSymbol | NamedProperty(name: string)

  datatype StreamAccess = WrappedIteration | OriginalMember(property: StreamProperty)

  /** The proxy's `get` trap: only `Symbol.asyncIterator` is intercepted. */
  function StreamProxyGet(property: StreamProperty): (r: StreamAccess)
    ensures r == WrappedIteration <==> property == AsyncIteratorSymbol
    ensures r.OriginalMember? ==> r.property == property
  {
    if property == AsyncIteratorSymbol then WrappedIteration else OriginalMember(property)
  }

  /** `createStreamWrapper`: the closure state shared by the wrapped iterator. */
  class StreamWrapper {
    const source: SourceStream
    const ender: SpanEnder
    var initialUsage: Option<Usage>
    var deltaUsage: Option<DeltaUsage>
    var stopReason: Option<string>

    constructor (source: SourceStream, tracer: Tracer, span: SpanId)
      ensures this.source == source && fresh(ender)
      ensures ender.tracer == tracer && ender.span == span && !ender.spanEnded
      ensures initialUsage.None? && deltaUsage.None? && stopReason.None?
    {
      this.source := source;
      ender := new SpanEnder(tracer, span);
      initialUsage, deltaUsage, stopReason := None, None, None;
    }

    /** One `for await` over the wrapped iterator: the consumer receives exactly the source's
        events, unchanged and in order; the source's error is rethrown; the span ender is called
        once with the outcome. */
    method Iterate() returns (delivered: seq<StreamEvent>, raised: Option<Error>)
      modifies this, ender, ender.tracer
      ensures delivered == source.events
      ensures raised == source.failure
      ensures initialUsage == CapturedStart(old(initialUsage), source.events)
      ensures deltaUsage == CapturedDelta(old(deltaUsage), source.events)
      ensures stopReason == CapturedStopReason(old(stopReason), source.events)
      ensures ender.spanEnded
      ensures ender.tracer.trace ==
        if old(ender.spanEnded) then old(ender.tracer.trace)
        else old(ender.tracer.trace)
             + [EndSpanCall(ender.span, StreamEndOptions(source, old(initialUsage), old(deltaUsage), old(stopReason)))]
    {
      ghost var init0, delta0, stop0 := initialUsage, deltaUsage, stopReason;
      var events := source.events;
      delivered := [];
      var i := 0;
      while i < |events|
        invariant 0 <= i <= |events|
        invariant delivered == events[..i]
        invariant initialUsage == CapturedStart(init0, events[..i])
        invariant deltaUsage == CapturedDelta(delta0, events[..i])
        invariant stopReason == CapturedStopReason(stop0, events[..i])
        invariant unchanged(ender, ender.tracer)
      {
        var event := events[i];
        match event {
          case MessageStart(u) => initialUsage := Some(u);
          case MessageDelta(d, s) => deltaUsage := Some(d); stopReason := s;
          case OtherEvent(_) =>
        }
        delivered := delivered + [event];
        assert events[..i + 1][..i] == events[..i];
        i := i + 1;
      }
      assert events[..i] == events;
      match source.failure {
        case Some(e) =>
          ender.End(Errored(e));
          raised := Some(e);
        case None =>
          ender.End(Completed(Outputs(None, stopReason),
                              TokenUsageExtraction.ExtractStreamingTokenUsage(initialUsage, deltaUsage)));
          raised := None;
      }
    }
  }

  /** The handler's return value: the promise of the wrapped stream, and which transform made it. */
  datatype WrappedStreamPromise = WrappedStreamPromise(outcome: Settled<StreamWrapper>, viaThenUnwrap: bool)

  /** `handleStreamingCreate`. A rejection of the outer promise closes the span with its error once,
      under the handler's own `spanEnded` flag, and reaches the caller unchanged; a resolution is
      transformed into a wrapper around the source stream, via `_thenUnwrap` when the promise has it. */
  method HandleStreamingCreate(tracer: Tracer, target: MessagesApi, body: MessageCreateParams,
                               options: Option<RequestOptions>, config: Option<PluginConfig>)
    returns (r: Sync<WrappedStreamPromise>)
    requires IsStreamingBody(body)
    modifies tracer, target
    ensures var n := |old(tracer.trace)|;
            var start := tracer.StartAnswer(n);
            var reply := target.streamReply(|old(target.calls)|);
            var afterStart := old(tracer.trace) + [StartSpanCall(Descriptor(CreateStreamSpanName, body, config, true), start)];
      && (start.Raised? ==> r == Raised(start.error) && tracer.trace == afterStart && target.calls == old(target.calls))
      && (start.Value? ==> target.calls == old(target.calls) + [CreateCall(body, options)])
      && (start.Value? && reply.Raised? ==> r == Raised(reply.error) && tracer.trace == afterStart)
      && (start.Value? && reply.Value? && reply.value.outcome.Rejected? ==>
            && r == Value(WrappedStreamPromise(Rejected(reply.value.outcome.error), reply.value.hasThenUnwrap))
            && tracer.trace == afterStart + [EndSpanCall(n, Errored(reply.value.outcome.error))])
      && (start.Value? && reply.Value? && reply.value.outcome.Resolved? ==>
            && r.Value? && r.value.viaThenUnwrap == reply.value.hasThenUnwrap && r.value.outcome.Resolved?
            && tracer.trace == afterStart)
    ensures r.Value? && r.value.outcome.Resolved? ==>
      var w := r.value.outcome.value;
      && fresh(w) && fresh(w.ender)
      && w.source == target.streamReply(|old(target.calls)|).value.outcome.value
      && w.ender.tracer == tracer && w.ender.span == |old(tracer.trace)| && !w.ender.spanEnded
      && w.initialUsage.None? && w.deltaUsage.None? && w.stopReason.None?
  {
    var start := CreateSpan(tracer, CreateStreamSpanName, body, config, true);
    if start.Raised? {
      r := Raised(start.error);
      return;
    }
    var span := start.value;
    var reply := target.CreateStreaming(body, options);
    if reply.Raised? {
      r := Raised(reply.error);
      return;
    }
    var promise := reply.value;
    var spanEnded := false;
    // resultPromise.catch(...)
    if promise.outcome.Rejected? && !spanEnded {
      spanEnded := true;
      var _ := tracer.EndSpan(span, Errored(promise.outcome.error));
    }
    // resultPromise._thenUnwrap(...) or resultPromise.then(...): the same transform either way
    match promise.outcome {
      case Rejected(e) =>
        r := Value(WrappedStreamPromise(Rejected(e), promise.hasThenUnwrap));
      case Resolved(stream) =>
        var wrapper := new StreamWrapper(stream, tracer, span);
        r := Value(WrappedStreamPromise(Resolved(wrapper), promise.hasThenUnwrap));
    }
  }
}

/** The non-streaming `create` handler (src/handlers/create.ts). The promise's settlement is
    given by the reply; the reaction the handler attaches with `.then` runs right after the call. */
module CreateHandler {
  import opened Wrappers
  import opened Types
  import opened PrefactorCore
  import opened SpanLifecycle
  import opened Client
  import SpanPayload
  import TokenUsageExtraction

  const CreateSpanName := "anthropic:messages.create"

  /** The tracer calls the settlement reaction makes for span `span`, when the first of them is
      the tracer's n-th call. */
  function SettlementCalls(span: SpanId, n: nat, failure: nat -> Option<Error>, outcome: Settled<Message>,
                           config: Option<PluginConfig>): (r: seq<TracerCall>)
    ensures 1 <= |r| <= 2
    ensures forall c | c in r :: c.EndSpanCall? && c.span == span
    ensures |r| == 2 <==> outcome.Resolved? && outcome.value.usage.Some? && failure(n).Some?
  {
    match outcome
    case Rejected(e) => [EndSpanCall(span, Errored(e))]
    case Resolved(m) =>
      match TokenUsageExtraction.ExtractTokenUsage(m)
      case Failure(_) => [EndSpanCall(span, NoData)]
      case Success(u) =>
        [EndSpanCall(span, Completed(SpanPayload.BuildOutputs(m, config), Some(u)))]
        + (if failure(n).Some? then [EndSpanCall(span, NoData)] else [])
  }

  /** Every settlement closes the span: the first `endSpan` carries the outcome (the rejection's own
      error, or the outputs with consistent usage, or `{}` when usage cannot be read); a second
      `endSpan(span, {})` follows only when that first call threw. */
  lemma SettlementEndsSpan(span: SpanId, n: nat, failure: nat -> Option<Error>, outcome: Settled<Message>,
                           config: Option<PluginConfig>)
    ensures var ends := EndsOf(SettlementCalls(span, n, failure, outcome, config), span);
      && 1 <= |ends| <= 2
      && |ends| == |SettlementCalls(span, n, failure, outcome, config)|
      && (outcome.Rejected? ==> ends == [Errored(outcome.error)])
      && (outcome.Resolved? && outcome.value.usage.None? ==> ends == [NoData])
      && (outcome.Resolved? && outcome.value.usage.Some? ==>
            && ends[0].Completed?
            && ends[0].outputs == SpanPayload.BuildOutputs(outcome.value, config)
            && ends[0].tokenUsage == Some(TokenUsageExtraction.ExtractTokenUsage(outcome.value).value)
            && TokenUsageExtraction.Consistent(ends[0].tokenUsage.value)
            && (|ends| == 2 <==> failure(n).Some?)
            && (|ends| == 2 ==> ends[1] == NoData))
  {
    var calls := SettlementCalls(span, n, failure, outcome, config);
    if outcome.Resolved? && outcome.value.usage.Some? && failure(n).Some? {
      var first := calls[..1];
      assert calls == first + calls[1..];
      EndsOfAppend(first, calls[1..], span);
      assert EndsOf(first, span) == [calls[0].options] by { assert first[..0] == []; }
      assert EndsOf(calls[1..], span) == [NoData] by { assert calls[1..][..0] == []; }
    } else {
      assert calls[..0] == [];
    }
  }

  /** `handleNonStreamingCreate`. A throwing `startSpan` throws before the original is called; a
      synchronous throw of the original propagates with the span left open; otherwise the very
      same promise is returned and its settlement closes the span. */
  method HandleNonStreamingCreate(tracer: Tracer, target: MessagesApi, body: MessageCreateParams,
                                  options: Option<RequestOptions>, config: Option<PluginConfig>)
    returns (r: Sync<APIPromise<Message>>)
    requires !IsStreamingBody(body)
    modifies tracer, target
    ensures var n := |old(tracer.trace)|;
            var start := tracer.StartAnswer(n);
            var reply := target.messageReply(|old(target.calls)|);
      && |tracer.trace| > n && tracer.trace[n] == StartSpanCall(Descriptor(CreateSpanName, body, config, false), start)
      && (start.Raised? ==> r == Raised(start.error) && tracer.trace == old(tracer.trace) + [tracer.trace[n]]
                            && target.calls == old(target.calls))
      && (start.Value? ==> r == reply && target.calls == old(target.calls) + [CreateCall(body, options)])
      && (start.Value? && reply.Raised? ==> tracer.trace == old(tracer.trace) + [tracer.trace[n]])
      && (start.Value? && reply.Value? ==>
            tracer.trace == old(tracer.trace) + [tracer.trace[n]]
                            + SettlementCalls(n, n + 1, tracer.failure, reply.value.outcome, config))
  {
    var start := CreateSpan(tracer, CreateSpanName, body, config, false);
    if start.Raised? {
      r := Raised(start.error);
      return;
    }
    var span := start.value;
    r := target.Create(body, options);
    if r.Raised? {
      return;
    }
    match r.value.outcome {
      case Rejected(e) =>
        HandleSpanError(tracer, span, e);
      case Resolved(m) =>
        match TokenUsageExtraction.ExtractTokenUsage(m) {
          case Failure(_) =>
            // building the payload threw: end the span without data
            var _ := tracer.EndSpan(span, NoData);
          case Success(u) =>
            var thrown := tracer.EndSpan(span, Completed(SpanPayload.BuildOutputs(m, config), Some(u)));
            if thrown.Some? {
              // the second, unguarded `endSpan(span, {})`; if it throws, the `.then` promise rejects and
              // nothing handles that rejection, which this model does not record
              var _ := tracer.EndSpan(span, NoData);
            }
        }
    }
  }
}

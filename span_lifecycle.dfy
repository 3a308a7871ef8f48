/** The side-effecting span helpers of src/handlers/utils.ts: opening a span, the one-shot
    span ender, and the error-path closer. */
module SpanLifecycle {
  import opened Wrappers
  import opened Types
  import opened PrefactorCore
  import SpanPayload

  function Descriptor(name: string, body: MessageCreateParams, config: Option<PluginConfig>, streaming: bool): SpanDescriptor {
    SpanDescriptor(name, LlmSpanType, SpanPayload.BuildSpanInputs(body, config, streaming))
  }

  /** `createSpan`: exactly one `startSpan` with the built inputs; a throwing tracer throws here too. */
  method CreateSpan(tracer: Tracer, name: string, body: MessageCreateParams, config: Option<PluginConfig>, streaming: bool)
    returns (r: Sync<SpanId>)
    modifies tracer
    ensures r == tracer.StartAnswer(|old(tracer.trace)|)
    ensures tracer.trace == old(tracer.trace) + [StartSpanCall(Descriptor(name, body, config, streaming), r)]
  {
    r := tracer.StartSpan(Descriptor(name, body, config, streaming));
  }

  /** The closure `createSpanEnder` returns, with the `spanEnded` flag it closes over. */
  class SpanEnder {
    const tracer: Tracer
    const span: SpanId
    var spanEnded: bool

    constructor (tracer: Tracer, span: SpanId)
      ensures this.tracer == tracer && this.span == span && !spanEnded
    {
      this.tracer := tracer;
      this.span := span;
      spanEnded := false;
    }

    /** The first call forwards its options to `endSpan`; every later call does nothing.
        The flag is set before the tracer call, so a throwing `endSpan` is swallowed and not retried. */
    method End(options: EndOptions)
      modifies this, tracer
      ensures spanEnded
      ensures tracer.trace == if old(spanEnded) then old(tracer.trace)
                              else old(tracer.trace) + [EndSpanCall(span, options)]
    {
      if spanEnded {
        return;
      }
      spanEnded := true;
      var thrown := tracer.EndSpan(span, options);
      // a thrown error is logged and swallowed
    }
  }

  /** `handleSpanError`: exactly one `endSpan(span, {error})`; a tracer failure is swallowed. */
  method HandleSpanError(tracer: Tracer, span: SpanId, error: Error)
    modifies tracer
    ensures tracer.trace == old(tracer.trace) + [EndSpanCall(span, Errored(error))]
  {
    var thrown := tracer.EndSpan(span, Errored(error));
  }

  /** Two calls on a fresh ender, with different options, reach the tracer once, with the first. */
  method EnderIdempotence(tracer: Tracer, span: SpanId, first: EndOptions, second: EndOptions)
    modifies tracer
    ensures tracer.trace == old(tracer.trace) + [EndSpanCall(span, first)]
  {
    var ender := new SpanEnder(tracer, span);
    ender.End(first);
    ender.End(second);
  }
}

/** The tracing library's runtime objects, as the core sees them: a tracer and an agent-instance
    manager. Both are foreign, so each records every call made into it, in order, and answers from
    a fixed oracle that says which call (by position) throws. */
module PrefactorCore {
  import opened Wrappers
  import opened Types

  /** One call into the tracer. A `startSpan` records the handle it returned or the error it threw. */
  datatype TracerCall =
    | StartSpanCall(descriptor: SpanDescriptor, result: Sync<SpanId>)
    | EndSpanCall(span: SpanId, options: EndOptions)

  class Tracer {
    /** Every call made into this tracer, in order. */
    var trace: seq<TracerCall>
    /** Whether, and with what, the n-th call into this tracer throws. */
    const failure: nat -> Option<Error>

    constructor (failure: nat -> Option<Error>)
      ensures trace == [] && this.failure == failure
    {
      trace := [];
      this.failure := failure;
    }

    /** What `startSpan` answers as the n-th call: the handle n, or the error it throws. */
    function StartAnswer(n: nat): (r: Sync<SpanId>)
      ensures failure(n).None? ==> r == Value(n)
      ensures failure(n).Some? ==> r == Raised(failure(n).value)
    {
      match failure(n)
      case None => Value(n)
      case Some(e) => Raised(e)
    }

    method StartSpan(descriptor: SpanDescriptor) returns (r: Sync<SpanId>)
      modifies this
      ensures r == StartAnswer(|old(trace)|)
      ensures trace == old(trace) + [StartSpanCall(descriptor, r)]
    {
      r := StartAnswer(|trace|);
      trace := trace + [StartSpanCall(descriptor, r)];
    }

    /** `endSpan`: the attempt is recorded whether or not it throws. */
    method EndSpan(span: SpanId, options: EndOptions) returns (thrown: Option<Error>)
      modifies this
      ensures thrown == failure(|old(trace)|)
      ensures trace == old(trace) + [EndSpanCall(span, options)]
    {
      thrown := failure(|trace|);
      trace := trace + [EndSpanCall(span, options)];
    }
  }

  /** The calls a trace makes to `endSpan` for one span, in order. */
  function EndsOf(trace: seq<TracerCall>, span: SpanId): (r: seq<EndOptions>)
    ensures |r| <= |trace|
  {
    if trace == [] then []
    else
      var last := trace[|trace| - 1];
      EndsOf(trace[..|trace| - 1], span) + (if last.EndSpanCall? && last.span == span then [last.options] else [])
  }

  lemma {:induction false} EndsOfAppend(t1: seq<TracerCall>, t2: seq<TracerCall>, span: SpanId)
    ensures EndsOf(t1 + t2, span) == EndsOf(t1, span) + EndsOf(t2, span)
    decreases |t2|
  {
    if t2 == [] {
      assert t1 + t2 == t1;
    } else {
      var t2' := t2[..|t2| - 1];
      assert (t1 + t2)[..|t1 + t2| - 1] == t1 + t2';
      EndsOfAppend(t1, t2', span);
    }
  }

  /** One call into the agent-instance manager. */
  datatype ManagerCall = RegisterSchemaCall(schema: AgentSchema) | StartInstanceCall(info: Option<AgentInfo>)

  class AgentManager {
    var calls: seq<ManagerCall>
    const failure: nat -> Option<Error>

    constructor (failure: nat -> Option<Error>)
      ensures calls == [] && this.failure == failure
    {
      calls := [];
      this.failure := failure;
    }

    method RegisterSchema(schema: AgentSchema) returns (thrown: Option<Error>)
      modifies this
      ensures thrown == failure(|old(calls)|)
      ensures calls == old(calls) + [RegisterSchemaCall(schema)]
    {
      thrown := failure(|calls|);
      calls := calls + [RegisterSchemaCall(schema)];
    }

    method StartInstance(info: Option<AgentInfo>) returns (thrown: Option<Error>)
      modifies this
      ensures thrown == failure(|old(calls)|)
      ensures calls == old(calls) + [StartInstanceCall(info)]
    {
      thrown := failure(|calls|);
      calls := calls + [StartInstanceCall(info)];
    }
  }
}

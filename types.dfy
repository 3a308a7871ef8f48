/** The data shapes the core reads and produces: the LLM SDK's request, response and stream
    event records, the plugin's configuration, the tracing library's configuration and payloads. */
module Types {
  import opened Wrappers

  // ---- Request side (the SDK's MessageCreateParams) ----

  datatype MessageParam = MessageParam(role: string, content: string)

  /** `system` is either a plain string or a list of text blocks. */
  datatype SystemPrompt = SystemText(text: string) | SystemBlocks(blocks: seq<string>)

  datatype Tool = Tool(name: string)

  datatype MessageCreateParams = MessageCreateParams(
    model: string,
    maxTokens: nat,
    messages: seq<MessageParam>,
    system: Option<SystemPrompt>,
    tools: Option<seq<Tool>>,
    stream: Option<bool>)

  /** Per-request options passed through untouched (`options?: any`). */
  datatype RequestOptions = RequestOptions(entries: map<string, string>)

  /** `body.stream === true`: only the boolean true selects the streaming call shape. */
  predicate IsStreamingBody(body: MessageCreateParams) {
    body.stream == Some(true)
  }

  // ---- Response side ----

  datatype ContentBlock = ContentBlock(kind: string, text: string)

  /** Usage of a final message or of a `message_start` frame; absent fields are null. */
  datatype Usage = Usage(
    inputTokens: Option<nat>,
    outputTokens: nat,
    cacheCreationInputTokens: Option<nat>,
    cacheReadInputTokens: Option<nat>)

  /** Usage carried by a `message_delta` frame; every field may be null. */
  datatype DeltaUsage = DeltaUsage(
    inputTokens: Option<nat>,
    outputTokens: Option<nat>,
    cacheCreationInputTokens: Option<nat>,
    cacheReadInputTokens: Option<nat>)

  /** A response message; `usage` is None when the object carries no usage record at all. */
  datatype Message = Message(content: seq<ContentBlock>, stopReason: Option<string>, usage: Option<Usage>)

  /** Raw stream events: `message_start`, `message_delta`, and every other kind, passed through. */
  datatype StreamEvent =
    | MessageStart(startUsage: Usage)
    | MessageDelta(deltaUsage: DeltaUsage, deltaStopReason: Option<string>)
    | OtherEvent(kind: string)

  /** A single-pass source stream: it yields `events` in order, then ends, or throws `failure`. */
  datatype SourceStream = SourceStream(events: seq<StreamEvent>, failure: Option<Error>)

  /** The live, event-emitting object returned by the SDK's `messages.stream()`; opaque. */
  datatype LiveStream = LiveStream(id: nat)

  /** Terminal emitter events of a live stream. */
  datatype EmitterEvent = FinalMessage(message: Message) | ErrorEvent(error: Error) | AbortEvent(error: Error)

  datatype EmitterEventName = FinalMessageName | ErrorName | AbortName

  function NameOf(ev: EmitterEvent): EmitterEventName {
    match ev
    case FinalMessage(_) => FinalMessageName
    case ErrorEvent(_) => ErrorName
    case AbortEvent(_) => AbortName
  }

  // ---- Tracing library configuration (Partial<CoreConfig>) ----

  datatype Transport = Http | Stdio

  datatype AgentSchema = AgentSchema(externalIdentifier: string, spanSchemaTypes: seq<string>, spanResultSchemaTypes: seq<string>)

  datatype HttpConfig = HttpConfig(
    apiUrl: Option<string>,
    apiToken: Option<string>,
    agentId: Option<string>,
    agentIdentifier: Option<string>,
    agentName: Option<string>,
    agentDescription: Option<string>,
    agentSchema: Option<AgentSchema>)

  datatype CoreConfig = CoreConfig(transportType: Option<Transport>, httpConfig: Option<HttpConfig>)

  /** The schema both src/init-utils.ts and src/init.ts register when none is given. */
  const DefaultAnthropicAgentSchema := AgentSchema("anthropic-schema", ["anthropic:llm"], ["anthropic:llm"])
  const DefaultAgentIdentifier := "1.0.0"
  const DefaultApiUrl := "https://api.prefactor.ai"

  // ---- Plugin configuration (src/types.ts) ----

  datatype PluginConfig = PluginConfig(
    agentId: Option<string>,
    apiKey: Option<string>,
    apiUrl: Option<string>,
    environmentId: Option<string>,
    captureInputs: Option<bool>,
    captureOutputs: Option<bool>,
    maxInputMessages: Option<int>,
    prefactorConfig: Option<CoreConfig>)

  /** The process environment variables the plugin reads. */
  datatype Env = Env(apiUrl: Option<string>, apiToken: Option<string>, agentId: Option<string>)

  /** Identity passed to the agent manager's `startInstance`. */
  datatype AgentInfo = AgentInfo(
    agentId: Option<string>,
    agentIdentifier: Option<string>,
    agentName: Option<string>,
    agentDescription: Option<string>)

  // ---- Span payloads ----

  datatype TokenUsage = TokenUsage(promptTokens: nat, completionTokens: nat, totalTokens: nat)

  /** The `messages` input: the captured turns, or the literal '[redacted]' marker. */
  datatype MessagesInput = Captured(turns: seq<MessageParam>) | Redacted

  const RedactedMarker := "[redacted]"

  /** Span inputs. `streaming` says whether the key `streaming: true` is present;
      `system` and `toolCount` are None when their key is absent. */
  datatype SpanInputs = SpanInputs(
    model: string,
    maxTokens: nat,
    streaming: bool,
    messages: MessagesInput,
    system: Option<SystemPrompt>,
    toolCount: Option<nat>)

  /** Span outputs; `content` is None when the key is absent. */
  datatype Outputs = Outputs(content: Option<seq<ContentBlock>>, stopReason: Option<string>)

  /** What a handler passes to `tracer.endSpan`: outputs and optional usage, an error, or `{}`. */
  datatype EndOptions =
    | Completed(outputs: Outputs, tokenUsage: Option<TokenUsage>)
    | Errored(error: Error)
    | NoData

  datatype SpanDescriptor = SpanDescriptor(name: string, spanType: string, inputs: SpanInputs)

  /** `toAnthropicSpanType(SpanType.LLM)`. */
  const LlmSpanType := "anthropic:llm"

  type SpanId = nat
}

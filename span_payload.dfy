/** The pure span payload builders of src/handlers/utils.ts: the message cap, the span inputs
    and the span outputs. `serializeValue` is taken as the identity on the captured values. */
module SpanPayload {
  import opened Wrappers
  import opened Types
  import Js

  /** DEFAULT_MAX_MESSAGES of src/handlers/constants.ts. */
  const DefaultMaxMessages := 3

  /** `getMaxMessages`: the configured cap when present (`??`), otherwise 3. */
  function GetMaxMessages(config: Option<PluginConfig>): (k: int)
    ensures config.Some? && config.value.maxInputMessages.Some? ==> k == config.value.maxInputMessages.value
    ensures config.None? || config.value.maxInputMessages.None? ==> k == DefaultMaxMessages
  {
    if config.Some? && config.value.maxInputMessages.Some? then config.value.maxInputMessages.value
    else DefaultMaxMessages
  }

  /** `config?.captureInputs !== false`. */
  predicate CapturesInputs(config: Option<PluginConfig>) {
    !(config.Some? && config.value.captureInputs == Some(false))
  }

  /** `config?.captureOutputs !== false`. */
  predicate CapturesOutputs(config: Option<PluginConfig>) {
    !(config.Some? && config.value.captureOutputs == Some(false))
  }

  /** Truthiness of `body.system`: a string is falsy when empty; an array is always truthy. */
  predicate SystemTruthy(system: Option<SystemPrompt>) {
    system.Some? && system.value != SystemText("")
  }

  /** `buildSpanInputs`. */
  function BuildSpanInputs(body: MessageCreateParams, config: Option<PluginConfig>, streaming: bool): (r: SpanInputs)
    ensures r.model == body.model && r.maxTokens == body.maxTokens
    ensures r.streaming == streaming
    ensures r.messages == Redacted <==> !CapturesInputs(config)
    ensures r.messages.Captured? ==> r.messages.turns == Js.SliceFrom(body.messages, -GetMaxMessages(config))
    ensures r.system.Some? <==> SystemTruthy(body.system)
    ensures r.system.Some? ==> r.system == body.system
    ensures r.toolCount.Some? <==> body.tools.Some?
    ensures r.toolCount.Some? ==> r.toolCount.value == |body.tools.value|
  {
    var maxMessages := GetMaxMessages(config);
    SpanInputs(
      body.model,
      body.maxTokens,
      streaming,
      if CapturesInputs(config) then Captured(Js.SliceFrom(body.messages, -maxMessages)) else Redacted,
      if SystemTruthy(body.system) then body.system else None,
      if body.tools.Some? then Some(|body.tools.value|) else None)
  }

  /** With capture on and a cap k >= 1, the captured turns are the last min(k, n), in order. */
  lemma CapturedTurnsAreLastK(body: MessageCreateParams, config: Option<PluginConfig>, streaming: bool)
    requires CapturesInputs(config) && GetMaxMessages(config) >= 1
    ensures var k := GetMaxMessages(config);
            var n := |body.messages|;
            var turns := BuildSpanInputs(body, config, streaming).messages.turns;
            |turns| == Js.Min(k, n) && turns == body.messages[n - Js.Min(k, n)..]
  {
    Js.SliceFromNegativeKeepsLast(body.messages, GetMaxMessages(config));
  }

  /** A cap of 0 captures every turn, because `slice(-0)` is `slice(0)`. */
  lemma ZeroCapCapturesAll(body: MessageCreateParams, config: Option<PluginConfig>, streaming: bool)
    requires CapturesInputs(config) && GetMaxMessages(config) == 0
    ensures BuildSpanInputs(body, config, streaming).messages == Captured(body.messages)
  {
    Js.SliceFromZeroKeepsAll(body.messages);
  }

  /** Redaction hides the turns whatever the cap or the number of turns. */
  lemma RedactionIgnoresMessages(b1: MessageCreateParams, b2: MessageCreateParams, config: Option<PluginConfig>, streaming: bool)
    requires !CapturesInputs(config)
    ensures BuildSpanInputs(b1, config, streaming).messages == BuildSpanInputs(b2, config, streaming).messages == Redacted
  {
  }

  /** `buildOutputs`: only `{stop_reason}` when output capture is off, else `{content, stop_reason}`. */
  function BuildOutputs(message: Message, config: Option<PluginConfig>): (r: Outputs)
    ensures r.stopReason == message.stopReason
    ensures r.content.None? <==> !CapturesOutputs(config)
    ensures r.content.Some? ==> r.content.value == message.content
  {
    if CapturesOutputs(config) then Outputs(Some(message.content), message.stopReason)
    else Outputs(None, message.stopReason)
  }

  /** Scenario of tests/handlers/create.test.ts: five turns with a cap of 2 capture turns 4 and 5. */
  lemma ScenarioCapTwoOfFive(m1: MessageParam, m2: MessageParam, m3: MessageParam, m4: MessageParam, m5: MessageParam)
    ensures var config := Some(PluginConfig(None, None, None, None, None, None, Some(2), None));
            var body := MessageCreateParams("claude-sonnet-4-5-20250929", 100, [m1, m2, m3, m4, m5], None, None, None);
            BuildSpanInputs(body, config, false).messages == Captured([m4, m5])
  {
    var s := [m1, m2, m3, m4, m5];
    assert s[3..] == [m4, m5];
  }
}

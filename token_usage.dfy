/** Token-usage arithmetic (src/token-usage.ts): normalises the provider's usage records into
    prompt / completion / total counts. Null or absent fields count as 0. */
module TokenUsageExtraction {
  import opened Wrappers
  import opened Types

  function OrZero(n: Option<nat>): nat { n.GetOr(0) }

  /** The prompt-side fields of one record: input plus cache creation plus cache read. */
  function PromptSum(input: Option<nat>, creation: Option<nat>, read: Option<nat>): nat {
    OrZero(input) + OrZero(creation) + OrZero(read)
  }

  /** The parameter type `Usage | MessageDeltaUsage` of `sumUsageTokens`. */
  datatype UsageRecord = FinalRecord(final: Usage) | DeltaRecord(delta: DeltaUsage) {
    function InputTokens(): Option<nat> {
      match this
      case FinalRecord(u) => u.inputTokens
      case DeltaRecord(d) => d.inputTokens
    }

    function CacheCreationInputTokens(): Option<nat> {
      match this
      case FinalRecord(u) => u.cacheCreationInputTokens
      case DeltaRecord(d) => d.cacheCreationInputTokens
    }

    function CacheReadInputTokens(): Option<nat> {
      match this
      case FinalRecord(u) => u.cacheReadInputTokens
      case DeltaRecord(d) => d.cacheReadInputTokens
    }
  }

  function OfFinal(usage: Option<Usage>): Option<UsageRecord> {
    if usage.Some? then Some(FinalRecord(usage.value)) else None
  }

  function OfDelta(usage: Option<DeltaUsage>): Option<UsageRecord> {
    if usage.Some? then Some(DeltaRecord(usage.value)) else None
  }

  /** `sumUsageTokens`: an absent record gives 0. */
  function SumUsageTokens(usage: Option<UsageRecord>): (n: nat)
    ensures usage.None? ==> n == 0
    ensures usage.Some? ==> n == OrZero(usage.value.InputTokens()) + OrZero(usage.value.CacheCreationInputTokens())
                                 + OrZero(usage.value.CacheReadInputTokens())
  {
    match usage
    case None => 0
    case Some(u) => PromptSum(u.InputTokens(), u.CacheCreationInputTokens(), u.CacheReadInputTokens())
  }

  /** The invariant every normalised triple keeps. */
  predicate Consistent(t: TokenUsage) {
    t.totalTokens == t.promptTokens + t.completionTokens
  }

  /** Reading `message.usage.output_tokens` of a message without usage throws a TypeError. */
  const MissingUsageError := Error("Cannot read properties of undefined (reading 'output_tokens')")

  /** `extractTokenUsage`: fails exactly when the message has no usage record; otherwise
      prompt = input + cache creation + cache read, completion = output, total = their sum. */
  function ExtractTokenUsage(message: Message): (r: Result<TokenUsage, Error>)
    ensures r.Failure? <==> message.usage.None?
    ensures r.Failure? ==> r.error == MissingUsageError
    ensures r.Success? ==>
      && r.value.promptTokens == OrZero(message.usage.value.inputTokens)
                                 + OrZero(message.usage.value.cacheCreationInputTokens)
                                 + OrZero(message.usage.value.cacheReadInputTokens)
      && r.value.completionTokens == message.usage.value.outputTokens
      && Consistent(r.value)
  {
    match message.usage
    case None => Failure(MissingUsageError)
    case Some(u) =>
      var input := SumUsageTokens(OfFinal(message.usage));
      Success(TokenUsage(input, u.outputTokens, input + u.outputTokens))
  }

  /** The completion count of a stream: the delta's output tokens when non-null,
      else the initial frame's, else 0. */
  function StreamingCompletion(initial: Option<Usage>, delta: Option<DeltaUsage>): nat {
    if delta.Some? && delta.value.outputTokens.Some? then delta.value.outputTokens.value
    else if initial.Some? then initial.value.outputTokens
    else 0
  }

  /** `extractStreamingTokenUsage`: None exactly when both frames are absent; otherwise the prompt
      count sums the prompt fields of both frames and the delta's output count takes precedence. */
  function ExtractStreamingTokenUsage(initial: Option<Usage>, delta: Option<DeltaUsage>): (r: Option<TokenUsage>)
    ensures r.None? <==> initial.None? && delta.None?
    ensures r.Some? ==>
      && r.value.promptTokens == SumUsageTokens(OfFinal(initial)) + SumUsageTokens(OfDelta(delta))
      && Consistent(r.value)
    ensures r.Some? && delta.Some? && delta.value.outputTokens.Some? ==>
      r.value.completionTokens == delta.value.outputTokens.value
    ensures r.Some? && (delta.None? || delta.value.outputTokens.None?) && initial.Some? ==>
      r.value.completionTokens == initial.value.outputTokens
    ensures r.Some? && initial.None? && (delta.None? || delta.value.outputTokens.None?) ==>
      r.value.completionTokens == 0
  {
    if initial.None? && delta.None? then None
    else
      var input := SumUsageTokens(OfFinal(initial)) + SumUsageTokens(OfDelta(delta));
      var output := StreamingCompletion(initial, delta);
      Some(TokenUsage(input, output, input + output))
  }

  /** With only one frame present, streaming extraction agrees with final extraction. */
  lemma StreamingInitialOnlyMatchesFinal(message: Message)
    requires message.usage.Some?
    ensures ExtractStreamingTokenUsage(message.usage, None) == Some(ExtractTokenUsage(message).value)
  {
  }

  // ---- Scenarios from tests/token-usage.test.ts ----

  /** Both cache fields count towards the prompt (the test uses 100, 50, 20 and 30). */
  lemma ScenarioFinalWithBothCacheFields(input: nat, output: nat, creation: nat, read: nat)
    ensures ExtractTokenUsage(Message([], None, Some(Usage(Some(input), output, Some(creation), Some(read)))))
            == Success(TokenUsage(input + creation + read, output, input + creation + read + output))
  {
  }

  /** Null cache fields count 0 (the test uses 100 and 50). */
  lemma ScenarioFinalWithoutCacheFields(input: nat, output: nat)
    ensures ExtractTokenUsage(Message([], None, Some(Usage(Some(input), output, None, None))))
            == Success(TokenUsage(input, output, input + output))
  {
  }

  lemma ScenarioStreamingNothing()
    ensures ExtractStreamingTokenUsage(None, None) == None
  {
  }

  /** A delta frame carrying only an output count (75 in the test) yields 0 / n / n. */
  lemma ScenarioStreamingDeltaOnly(n: nat)
    ensures ExtractStreamingTokenUsage(None, Some(DeltaUsage(None, Some(n), None, None))) == Some(TokenUsage(0, n, n))
  {
  }

  /** The prompt fields of both frames are summed (the test uses 100 + 20 and an output of 75). */
  lemma ScenarioStreamingCombined(input: nat, initialOutput: nat, creation: nat, output: nat)
    ensures ExtractStreamingTokenUsage(Some(Usage(Some(input), initialOutput, Some(creation), None)),
                                       Some(DeltaUsage(None, Some(output), None, None)))
            == Some(TokenUsage(input + creation, output, input + creation + output))
  {
  }

  /** The delta's output count wins over the initial frame's (the test uses 75 over 10). */
  lemma ScenarioStreamingDeltaWins(input: nat, initialOutput: nat, output: nat)
    ensures ExtractStreamingTokenUsage(Some(Usage(Some(input), initialOutput, None, None)),
                                       Some(DeltaUsage(None, Some(output), None, None)))
            == Some(TokenUsage(input, output, input + output))
  {
  }
}

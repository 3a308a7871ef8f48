/** src/wrap-utils.ts: the agent identity reported when the agent instance starts, and the
    generic try-instrumented-else-original combinator. */
module WrapUtils {
  import opened Wrappers
  import opened Types

  /** `extractAgentInfo`: nothing without a config; the four identity fields of an explicit
      `httpConfig`; otherwise the config's `agentId` with the default identifier. */
  function ExtractAgentInfo(config: Option<PluginConfig>): (r: Option<AgentInfo>)
    ensures config.None? <==> r.None?
    ensures config.Some? && config.value.prefactorConfig.Some? && config.value.prefactorConfig.value.httpConfig.Some? ==>
      var http := config.value.prefactorConfig.value.httpConfig.value;
      r == Some(AgentInfo(http.agentId, http.agentIdentifier, http.agentName, http.agentDescription))
    ensures config.Some? && (config.value.prefactorConfig.None? || config.value.prefactorConfig.value.httpConfig.None?) ==>
      r == Some(AgentInfo(config.value.agentId, Some(DefaultAgentIdentifier), None, None))
  {
    if config.None? then None
    else if config.value.prefactorConfig.Some? && config.value.prefactorConfig.value.httpConfig.Some? then
      var http := config.value.prefactorConfig.value.httpConfig.value;
      Some(AgentInfo(http.agentId, http.agentIdentifier, http.agentName, http.agentDescription))
    else Some(AgentInfo(config.value.agentId, Some(DefaultAgentIdentifier), None, None))
  }

  /** `wrapWithFallback`: `fn()`'s value when it returns, else `fallback()`'s outcome, whose own
      throw propagates. The operation name only labels the log line. */
  function WrapWithFallback<T>(fn: () -> Sync<T>, fallback: () -> Sync<T>, operationName: string): (r: Sync<T>)
    ensures fn().Value? ==> r == fn()
    ensures fn().Raised? ==> r == fallback()
    ensures r.Raised? ==> fn().Raised? && fallback().Raised? && r.error == fallback().error
  {
    match fn()
    case Value(v) => Value(v)
    case Raised(_) => fallback()
  }
}

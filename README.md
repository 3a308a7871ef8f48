# prefactor-anthropic, modelled in Dafny

`prefactor-anthropic` wraps an Anthropic SDK client so that every `messages.create`,
`messages.create({stream: true})` and `messages.stream` call is traced as one LLM span on a
Prefactor tracer. This project models that core and proves what it does:

- the token-usage arithmetic;
- the span payload builders and the one-shot span ender;
- the three call-shape handlers, including the stream wrapper's capture loop;
- the bounded diagnostic error log;
- the endpoint hostname validator and config assembly;
- the one-time initialisation state;
- the interception proxy with its fallback to the original SDK method.

Foreign collaborators are modelled as classes that record every call they receive, in order:

- the tracer and the agent-instance manager of `@prefactor/core` (`PrefactorCore`);
- the SDK's `messages` resource (`Client`).

Each collaborator answers its n-th call from an oracle fixed at construction, which says whether
that call throws and what it returns. A promise is given by how it settles (`Settled`). The
reaction a handler attaches to it is run right after the call that produced it.

Files, in dependency order:

| file | module | models |
|---|---|---|
| wrappers.dfy | `Wrappers` | Option, Result, thrown errors, promises |
| js.dfy | `Js` | `slice`, truthiness, ASCII `toLowerCase`, `split`/`join` |
| types.dfy | `Types` | request, response, stream event and config shapes (src/types.ts) |
| token_usage.dfy | `TokenUsageExtraction` | src/token-usage.ts |
| span_payload.dfy | `SpanPayload` | the pure builders of src/handlers/utils.ts |
| prefactor_core.dfy | `PrefactorCore` | the tracer and agent manager, as recorded collaborators |
| span_lifecycle.dfy | `SpanLifecycle` | `createSpan`, `createSpanEnder`, `handleSpanError` |
| client.dfy | `Client` | the SDK `messages` resource, as a recorded collaborator |
| create_handler.dfy | `CreateHandler` | src/handlers/create.ts |
| create_stream_handler.dfy | `CreateStreamHandler` | src/handlers/create-stream.ts |
| stream_handler.dfy | `StreamHandler` | src/handlers/stream.ts |
| error_tracker.dfy | `ErrorTracking` | src/error-tracker.ts |
| init_utils.dfy | `InitUtils` | src/init-utils.ts |
| init.dfy | `Init` | src/init.ts |
| wrap_utils.dfy | `WrapUtils` | src/wrap-utils.ts |
| wrap.dfy | `Wrap` | src/wrap.ts |

## Behaviour of the source worth knowing

- `wrapAnthropicClient` calls `initCore` before anything is guarded (src/wrap.ts:40). A failing
  `createConfig`, `createCore` or `registerSchema` therefore reaches the caller, and the client
  is not wrapped. The fallback covers only the calls made through the proxy.
  `Wrap.WrapAnthropicClient` states this. The test at tests/wrap.test.ts:233-271 expects
  wrapping to succeed although `createCore` throws; it can pass only if the core is already
  cached, since `createCore` is reached outside any guard (src/wrap.ts:40).
- `initCore` does not use `buildCoreConfig` (src/init.ts:55-112), so initialisation performs no
  hostname validation. On the simplified-config path it takes the agent id from the config alone
  (src/init.ts:70); with no config at all it takes it from `PREFACTOR_AGENT_ID` (src/init.ts:92).
  `Init.SelectAgreesWithBuildCoreConfig` states where the two builders agree and where they part.
- The streaming `create` closes its span through two independent one-shot flags:
  - the handler's own `spanEnded`, for a rejected outer promise (src/handlers/create-stream.ts:85-95);
  - the span ender inside the stream wrapper, for iteration (src/handlers/create-stream.ts:27).

  The two never share state. A promise settles once, so at most one of the two closes the span.
- Nothing retries a failed `endSpan` (src/handlers/create-stream.ts:47-55), and nothing in the
  handlers reports to the error log: src/error-tracker.ts is a stand-alone structure.
- A synchronous throw of the original `create` inside a handler (src/handlers/create.ts:20)
  leaves the span open. The proxy's fallback (src/wrap.ts:84-86) then calls the original
  `create` a second time with the same arguments. `Wrap.MessagesProxy.Create` states this.

## Model

| member | source | states |
|---|---|---|
| TokenUsageExtraction.SumUsageTokens | src/token-usage.ts:8-15 | on a final or a `message_delta` record: an absent record counts 0; otherwise input + cache creation + cache read, each absent field counting 0 |
| TokenUsageExtraction.ExtractTokenUsage | src/token-usage.ts:17-25 | fails (the TypeError of reading `output_tokens`) exactly when usage is absent; otherwise prompt is the three-field sum, completion is `output_tokens` and total = prompt + completion |
| TokenUsageExtraction.ExtractStreamingTokenUsage | src/token-usage.ts:27-41 | null exactly when both frames are absent; prompt sums both frames; completion is the delta's output if non-null, else the initial's, else 0; total = prompt + completion |
| TokenUsageExtraction.StreamingInitialOnlyMatchesFinal | src/token-usage.ts:17-41 | with only the initial frame, streaming extraction equals final extraction |
| TokenUsageExtraction.ScenarioFinalWithBothCacheFields | tests/token-usage.test.ts:63-81 | both cache fields add to the prompt count (the test: 100 + 20 + 30 and 50 give 150/50/200) |
| TokenUsageExtraction.ScenarioFinalWithoutCacheFields | tests/token-usage.test.ts:6-23 | null cache fields count 0 (the test: 100/50/150) |
| TokenUsageExtraction.ScenarioStreamingNothing | tests/token-usage.test.ts:84-87 | no frames give null |
| TokenUsageExtraction.ScenarioStreamingDeltaOnly | tests/token-usage.test.ts:106-118 | a delta frame carrying only an output count n (75 in the test) gives 0/n/n |
| TokenUsageExtraction.ScenarioStreamingCombined | tests/token-usage.test.ts:120-139 | prompt fields of both frames are summed and the delta's output is the completion (the test: 120/75/195) |
| TokenUsageExtraction.ScenarioStreamingDeltaWins | tests/token-usage.test.ts:141-160 | the delta's output count wins over the initial one (the test: 75 over 10) |
| SpanPayload.GetMaxMessages | src/handlers/utils.ts:14-16 | the configured cap when present, else 3 |
| SpanPayload.BuildSpanInputs | src/handlers/utils.ts:18-35 | model and max_tokens copied; `streaming` iff the flag; `[redacted]` iff `captureInputs === false`, else `slice(-k)` of the turns; `system` iff truthy; `tool_count` = tools length iff tools present |
| SpanPayload.CapturedTurnsAreLastK | src/handlers/utils.ts:28-31 | with capture on and k >= 1, exactly the last min(k, n) turns, in order |
| SpanPayload.ZeroCapCapturesAll | src/handlers/utils.ts:28-31 | a cap of 0 captures every turn (`slice(-0)`) |
| SpanPayload.RedactionIgnoresMessages | src/handlers/utils.ts:29-31 | with capture off every body gives the same `[redacted]` marker |
| SpanPayload.ScenarioCapTwoOfFive | tests/handlers/create.test.ts:263-295 | five turns with a cap of 2 capture the last two |
| SpanPayload.BuildOutputs | src/handlers/utils.ts:52-61 | stop_reason always copied; content present iff `captureOutputs !== false`, and then the message's content |
| PrefactorCore.Tracer.StartAnswer | src/handlers/utils.ts:44-48 | the n-th tracer call returns handle n unless the oracle says it throws |
| SpanLifecycle.CreateSpan | src/handlers/utils.ts:37-50 | exactly one `startSpan` with name, LLM span type and the built inputs; its throw propagates |
| SpanLifecycle.SpanEnder.constructor | src/handlers/utils.ts:63-64 | a fresh ender has not ended its span |
| SpanLifecycle.SpanEnder.End | src/handlers/utils.ts:63-74 | the first call forwards its options to `endSpan` once, whether or not that throws; every later call leaves the trace unchanged |
| SpanLifecycle.HandleSpanError | src/handlers/utils.ts:76-87 | exactly one `endSpan(span, {error})`, never rethrown |
| SpanLifecycle.EnderIdempotence | src/handlers/utils.ts:63-74 | two calls with different options reach the tracer once, with the first options |
| CreateHandler.SettlementCalls | src/handlers/create.ts:22-35 | the settlement makes one or two tracer calls, all of them `endSpan` on the handler's span; two exactly when a message with usage was received and the first `endSpan` threw |
| CreateHandler.SettlementEndsSpan | src/handlers/create.ts:22-35 | a rejection ends the span with its own error; a message ends it with its outputs and exactly the usage `extractTokenUsage` gives, or `{}` when usage cannot be read; a second `endSpan({})` follows exactly when the first threw |
| CreateHandler.HandleNonStreamingCreate | src/handlers/create.ts:11-38 | one `startSpan` named `anthropic:messages.create` before the original; the original gets the same body and options and its very promise is returned; the trace is the start plus the settlement's calls |
| CreateStreamHandler.CapturedStartIsLastStart | src/handlers/create-stream.ts:31-33 | the captured initial usage is that of the last `message_start` |
| CreateStreamHandler.CapturedStartWithoutStart | src/handlers/create-stream.ts:24-33 | with no `message_start` the initial usage stays as it was |
| CreateStreamHandler.CapturedDeltaIsLastDelta | src/handlers/create-stream.ts:34-38 | delta usage and stop reason come from the last `message_delta` |
| CreateStreamHandler.CapturedWithoutDelta | src/handlers/create-stream.ts:25-38 | with no `message_delta` the delta usage and the stop reason (null) stay as they were |
| CreateStreamHandler.StreamEndOptions | src/handlers/create-stream.ts:43-46 | a source error ends the span with that error; on exhaustion it ends with no content, the captured stop reason, and exactly `extractStreamingTokenUsage` of the captured frames: prompt sums both frames, completion is the delta's output, else the `message_start` output, else 0, and no usage exactly when no frame was seen |
| CreateStreamHandler.StreamProxyGet | src/handlers/create-stream.ts:60-67 | only `Symbol.asyncIterator` is intercepted; every other property is the original's |
| CreateStreamHandler.StreamWrapper.constructor | src/handlers/create-stream.ts:24-27 | no usage or stop reason captured yet, and a fresh span ender |
| CreateStreamHandler.StreamWrapper.Iterate | src/handlers/create-stream.ts:29-58 | the consumer receives exactly the source events in order; the source error is rethrown; the span is ended once, with that error or with the completion options |
| CreateStreamHandler.HandleStreamingCreate | src/handlers/create-stream.ts:70-106 | span `anthropic:messages.create[stream]` with `streaming: true`; a rejected outer promise ends the span once with its error and is passed on; a resolved one becomes a fresh wrapper, via `_thenUnwrap` when present |
| StreamHandler.ListenerOptions | src/handlers/stream.ts:25-38 | `finalMessage` gives its outputs and exactly the usage `extractTokenUsage` gives, or `{}` when extraction throws; `error` and `abort` give `{error}` |
| StreamHandler.StreamTap.constructor | src/handlers/stream.ts:23-38 | listeners for all three terminal events on a fresh ender |
| StreamHandler.StreamTap.Emit | src/handlers/stream.ts:25-38 | an event with a listener removes it and runs it through the shared ender; one without does nothing |
| StreamHandler.StreamTap.EmitAll | src/handlers/stream.ts:23-38 | over any run of terminal events `endSpan` is called at most once, with the first event's outcome |
| StreamHandler.HandleMessageStream | src/handlers/stream.ts:13-41 | span `anthropic:messages.stream` with `streaming: true`; the original's stream is returned as is, with listeners attached; its throw propagates |
| ErrorTracking.TrackAllKeepsMostRecent | src/error-tracker.ts:14-28 | after any run of `track` calls the log holds exactly the most recent 100 entries, oldest first |
| ErrorTracking.SpanErrorTracker.Track | src/error-tracker.ts:16-28 | appends one entry (retry count default 0) and drops only the oldest beyond 100; the bound is kept |
| ErrorTracking.SpanErrorTracker.RecentErrors | src/error-tracker.ts:30-32 | `slice(-count)`: the last min(count, n) entries for count >= 1 (default 10), all of them for 0 |
| ErrorTracking.Filter | src/error-tracker.ts:34-39 | keeps every entry at or after the cutoff whose operation matches (a falsy operation matches all) as often as it occurs, and no other entry |
| ErrorTracking.FilterCountsMatchingIndices | src/error-tracker.ts:34-39 | the filtered length is the number of positions in the log holding a matching entry |
| ErrorTracking.SpanErrorTracker.ErrorCount | src/error-tracker.ts:34-39 | the number of log positions whose entry is at or after `now - sinceMs` (0 when `sinceMs` is falsy) and matches the operation; never more than the log length; with no filter every entry |
| ErrorTracking.SpanErrorTracker.Clear | src/error-tracker.ts:41-43 | the log is empty |
| ErrorTracking.ClearedCountsAreZero | src/error-tracker.ts:30-43 | after clearing, every count and the recent list are empty |
| ErrorTracking.TallyCounts | src/error-tracker.ts:50-52 | the per-operation record has a key exactly for each operation that occurs, mapped to its count |
| ErrorTracking.TallySumsToLength | src/error-tracker.ts:45-59 | the per-operation counts add up to the number of entries |
| ErrorTracking.SpanErrorTracker.GetStats | src/error-tracker.ts:45-59 | total is the length, recent5min is the five-minute count and at most the total, byOperation sums to the total and holds each operation's count |
| ErrorTracking.ErrorCountAgreesWithStats | src/error-tracker.ts:34-59 | counting one operation agrees with its entry in the statistics |
| InitUtils.PrivateOctetsAreCidrBlocks | src/init-utils.ts:79-85 | the octet test is membership of the address in 10/8, 172.16/12, 192.168/16, 169.254/16 or 127/8 |
| InitUtils.ValidateHost | src/init-utils.ts:43-96 | an allowlisted hostname passes; any rejection is the allowlist error or the invalid-IP error |
| InitUtils.AcceptedHostIsAllowlistedOrPrivate | src/init-utils.ts:43-96 | every accepted hostname is allowlisted, localhost, 127.x.x.x, a private IPv6 literal or an IPv4 literal in a private block |
| InitUtils.IPv6Decision | src/init-utils.ts:57-69 | a non-allowlisted IPv6-looking hostname passes iff, brackets stripped, it is `::1` or starts with `fc`, `fd` or `fe80:` |
| InitUtils.IPv4Decision | src/init-utils.ts:72-89 | a non-loopback dotted quad fails with `Invalid IP address` iff an octet exceeds 255, and otherwise passes iff it is in a private block |
| InitUtils.OtherHostRejected | src/init-utils.ts:90-93 | any other non-allowlisted name is rejected |
| InitUtils.QuadIsNotIPv6 | src/init-utils.ts:52-72 | a dotted quad is neither `localhost` nor IPv6-looking |
| InitUtils.QuadVerdict | src/init-utils.ts:43-89 | a dotted quad is never allowlisted; it passes when its first part is `127`, else fails as an invalid IP when an octet exceeds 255, else passes iff its octets are private |
| InitUtils.ScenarioAllowlisted | src/init-utils.ts:44-47 | `api.prefactor.ai` and a subdomain pass |
| InitUtils.ScenarioLoopbackBeforeRangeCheck | src/init-utils.ts:51-55 | `127.999.999.999` passes, as the loopback pattern is matched before the octet range |
| InitUtils.ScenarioOctetOutOfRange | src/init-utils.ts:76-78 | `999.1.1.1` fails as an invalid IP address |
| InitUtils.ScenarioPrivateIPv4 | src/init-utils.ts:80-85 | `10.0.0.1` passes |
| InitUtils.ScenarioPublicIPv4 | src/init-utils.ts:87-89 | `8.8.8.8` is rejected as not allowlisted |
| InitUtils.ValidateApiUrl | src/init-utils.ts:40-102 | an unparsable URL fails as `Invalid API URL`; otherwise the hostname decides |
| InitUtils.WithDefaultSchema | src/init-utils.ts:19-32 | a non-http config is returned as is; for http the schema is defaulted only when missing, all else kept |
| InitUtils.BuildCoreConfig | src/init-utils.ts:17-123 | a full config wins unvalidated; otherwise the URL is validated before the token, a falsy token fails with a message that depends on whether config was given, and success is http with identifier 1.0.0 and the default schema |
| InitUtils.ApiUrlPrecedence | src/init-utils.ts:35 | the URL comes from the config, then the environment, then the default |
| Init.EnsureSchema | src/init.ts:99-112 | the schema is added only to an http config with an httpConfig and no schema |
| Init.SelectCoreConfig | src/init.ts:54-112 | a full config is used as given; a config without `prefactorConfig` needs `apiKey`; no config needs URL and token in the environment; an http result always has a schema |
| Init.SelectAgreesWithBuildCoreConfig | src/init.ts:57-77 | for a simplified config with a validated URL and an agent id the two builders agree; with a rejected URL only `initCore` succeeds |
| Init.FullConfigAgreesWithBuildCoreConfig | src/init.ts:55-112 | for a full config the two builders agree except for http without an httpConfig |
| Init.PluginRuntime.constructor | src/init.ts:27-29 | no core cached, latch cleared |
| Init.PluginRuntime.InitCore | src/init.ts:41-124 | a cached core is returned without rebuilding; otherwise the selected config goes through createConfig and createCore, the core is cached, and `registerSchema` is called exactly when the final config has a schema; it raises exactly the error `InitFailure` names for the state it starts from |
| Init.PluginRuntime.EnsureAgentInstanceStarted | src/init.ts:126-142 | once started nothing happens; otherwise one `startInstance`, and the latch is set only when it does not throw |
| Init.PluginRuntime.Shutdown | src/init.ts:32-39 | core, tracer and latch are reset |
| Init.PluginRuntime.GetTracer | src/init.ts:144-149 | the cached tracer without initialising; otherwise `initCore()` from the environment: the config error, the `createConfig` error or the `createCore` error with nothing cached, else the fresh tracer is cached and returned unless the schema is registered and `registerSchema` throws, whose error is then raised |
| Init.RestartAfterShutdown | src/init.ts:32-142 | after a shutdown the agent instance is started again |
| WrapUtils.ExtractAgentInfo | src/wrap-utils.ts:4-21 | undefined without config; the four identity fields of an explicit httpConfig; else agentId with identifier 1.0.0 |
| WrapUtils.WrapWithFallback | src/wrap-utils.ts:23-34 | `fn()`'s value when it returns, else `fallback()`, whose throw propagates |
| Wrap.Get | src/wrap.ts:58-124 | `create`, `stream` and `parse` are intercepted; every other property passes through unchanged |
| Wrap.InlineAgentInfoIsExtractAgentInfo | src/wrap.ts:44-56 | the inline agent info equals `extractAgentInfo(config)` |
| Wrap.MessagesProxy.Create | src/wrap.ts:60-88 | starts the agent instance first; routes on `body.stream === true`; a throwing handler falls back to the original `create` with the same arguments and returns its outcome |
| Wrap.MessagesProxy.CreateOrFallBack | src/wrap.ts:74-86 | the non-streaming handler's promise, or after a throw the original `create`'s, called with the same arguments |
| Wrap.MessagesProxy.CreateStreamingOrFallBack | src/wrap.ts:65-86 | the streaming handler's wrapped promise, or after a throw the original `create`'s, called with the same arguments |
| Wrap.MessagesProxy.Stream | src/wrap.ts:91-107 | starts the agent instance first; the traced stream, or on a throw the original `stream`'s |
| Wrap.MessagesProxy.Parse | src/wrap.ts:110-121 | starts the agent instance first; the original `parse` bound to the proxy, or on a throw called again on the original resource |
| Wrap.WrapAnthropicClient | src/wrap.ts:36-131 | `initCore` runs first; the wrap raises exactly when `initCore` would, with the same error (config, `createConfig`, `createCore` or `registerSchema`), and leaves the client unchanged; otherwise the same client is returned with only `messages` replaced by a proxy over the original |

## Left out

- `serializeValue` is taken to be the identity on messages, system prompts and content.
- Logging and console output are left out: `configureLogging`, `secureLogger` and `console.error`. They have no effect on the values the core returns.
- src/secure-logger.ts, src/index.ts, example.ts and the scripts are not part of this model: they are redaction by regular expression, re-exports, a demo and build scripts.
- `new URL(...)`, `process.env` and `Date.now()` become parameters: `hostOf`, `Env` and `now`. `toLowerCase` is modelled on ASCII letters only.
- InitUtils.ValidateHost: `hostOf` is unconstrained, so the validator is proved over every string. A WHATWG URL parser lowercases and canonicalises IPv4 hostnames and rejects octets above 255, so the `Invalid IP address` branch (src/init-utils.ts:76-78) and the inputs of `InitUtils.ScenarioOctetOutOfRange` and `InitUtils.ScenarioLoopbackBeforeRangeCheck` cannot come from a real parsed URL.
- The `beforeExit` hook and the re-export of the core's `shutdown` are runtime wiring. Only the registered reset is modelled, as `Init.PluginRuntime.Shutdown`.
- JavaScript `Proxy` and `Reflect` are modelled as routing functions (`Wrap.Get`, `CreateStreamHandler.StreamProxyGet`). Property values are not modelled.
- Promise chaining and microtask order are collapsed, as is `EventEmitter.once`: the reaction to a settled promise runs next, and emitter events arrive as an explicit sequence.
- A stream that is iterated more than once, or abandoned early, is not modelled. The source code does not handle either case.
- Wrap.WrapAnthropicClient: requires a client whose `messages` is still the SDK's own. Wrapping an already wrapped client is not modelled.
- Wrap.MessagesProxy.Parse: the spans that `parse`'s internal `create` calls produce through the proxy are not modelled. The contract records only that the proxy is passed as `this`.
- The createConfig/createCore defaults of `@prefactor/core` are not modelled. `createConfig` is an arbitrary function, and `createCore` yields a fresh tracer and agent manager.
- `SpanErrorTracker` (src/error-tracker.ts:62) is a module-level singleton in the source, `spanErrorTracker`. Here it is a class that callers construct.
- ErrorTracking.Tally: operation names that are `Object.prototype` members are counted like any other key. In the source, `byOperation` is a plain `{}` (src/error-tracker.ts:47-51): for `toString` or `constructor` the inherited function makes `(x || 0) + 1` a string, and an assignment to `__proto__` adds no key.
- CreateHandler.HandleNonStreamingCreate: if the second, unguarded `endSpan(span, {})` throws (src/handlers/create.ts:31), the promise made by `.then` rejects and nothing handles it; the model records the call but not that unhandled rejection.

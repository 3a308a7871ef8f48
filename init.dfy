/** The one-time initialisation state of src/init.ts: the cached core runtime, the
    agent-instance latch, and the reset performed by the shutdown handler. The module-level
    variables are the fields of `PluginRuntime`; `@prefactor/core`'s `createConfig` is the
    function `createConfig`, and `createCore` answers from the `createCoreFailure` oracle. */
module Init {
  import opened Wrappers
  import opened Types
  import opened PrefactorCore
  import Js
  import InitUtils

  const MissingApiKey := "apiKey is required in PrefactorAnthropicConfig, or provide full prefactorConfig"
  const MissingEnvVars := "Either provide PrefactorAnthropicConfig or set PREFACTOR_API_URL and PREFACTOR_API_TOKEN environment variables"

  /** The `tracer` and `agentManager` that `initCore` hands out. */
  datatype CoreHandles = CoreHandles(tracer: Tracer, agentManager: AgentManager)

  /** The closing step of config selection: an http config that has an `httpConfig` but no
      schema gets the default one; any other config is left as it is. */
  function EnsureSchema(core: CoreConfig): (r: CoreConfig)
    ensures r.transportType == core.transportType && r.httpConfig.Some? == core.httpConfig.Some?
    ensures core.transportType == Some(Http) && core.httpConfig.Some? ==>
      r.httpConfig.value == core.httpConfig.value.(agentSchema := r.httpConfig.value.agentSchema)
      && r.httpConfig.value.agentSchema == Some(core.httpConfig.value.agentSchema.GetOr(DefaultAnthropicAgentSchema))
    ensures !(core.transportType == Some(Http) && core.httpConfig.Some? && core.httpConfig.value.agentSchema.None?) ==> r == core
  {
    if core.transportType == Some(Http) && core.httpConfig.Some? && core.httpConfig.value.agentSchema.None? then
      core.(httpConfig := Some(core.httpConfig.value.(agentSchema := Some(DefaultAnthropicAgentSchema))))
    else core
  }

  function DefaultHttp(apiUrl: string, apiToken: string, agentId: Option<string>): CoreConfig {
    CoreConfig(Some(Http), Some(HttpConfig(Some(apiUrl), Some(apiToken), agentId, Some(DefaultAgentIdentifier),
                                           None, None, Some(DefaultAnthropicAgentSchema))))
  }

  /** The configuration `initCore` passes to `createConfig`, or the error it throws first. */
  function SelectCoreConfig(config: Option<PluginConfig>, env: Env): (r: Result<CoreConfig, Error>)
    ensures config.Some? && config.value.prefactorConfig.Some? ==>
      r == Success(EnsureSchema(config.value.prefactorConfig.value))
    ensures config.Some? && config.value.prefactorConfig.None? ==>
      && (!Js.TruthyOpt(config.value.apiKey) <==> r == Failure(Error(MissingApiKey)))
      && (Js.TruthyOpt(config.value.apiKey) ==>
            r == Success(DefaultHttp(InitUtils.ResolveApiUrl(config, env), config.value.apiKey.value, config.value.agentId)))
    ensures config.None? ==>
      && (!(Js.TruthyOpt(env.apiUrl) && Js.TruthyOpt(env.apiToken)) <==> r == Failure(Error(MissingEnvVars)))
      && (Js.TruthyOpt(env.apiUrl) && Js.TruthyOpt(env.apiToken) ==>
            r == Success(DefaultHttp(env.apiUrl.value, env.apiToken.value, env.agentId)))
    // whatever the source, an http config with an httpConfig always carries a schema
    ensures r.Success? && r.value.transportType == Some(Http) && r.value.httpConfig.Some? ==>
      r.value.httpConfig.value.agentSchema.Some?
  {
    if config.Some? && config.value.prefactorConfig.Some? then
      Success(EnsureSchema(config.value.prefactorConfig.value))
    else if config.Some? then
      if !Js.TruthyOpt(config.value.apiKey) then Failure(Error(MissingApiKey))
      else Success(EnsureSchema(DefaultHttp(InitUtils.ResolveApiUrl(config, env), config.value.apiKey.value, config.value.agentId)))
    else if !Js.TruthyOpt(env.apiUrl) || !Js.TruthyOpt(env.apiToken) then Failure(Error(MissingEnvVars))
    else Success(EnsureSchema(DefaultHttp(env.apiUrl.value, env.apiToken.value, env.agentId)))
  }

  /** `initCore` performs no endpoint validation of its own: for a simplified config whose URL
      passes `buildCoreConfig`'s validator and which names its agent, the two agree; for one whose
      URL fails it, `initCore` still proceeds. */
  lemma SelectAgreesWithBuildCoreConfig(config: Option<PluginConfig>, env: Env, hostOf: string -> Option<string>)
    requires config.Some? && config.value.prefactorConfig.None?
    requires Js.TruthyOpt(config.value.apiKey) && config.value.agentId.Some?
    ensures var url := InitUtils.ResolveApiUrl(config, env);
      && (InitUtils.ValidateApiUrl(url, hostOf).None? ==> SelectCoreConfig(config, env) == InitUtils.BuildCoreConfig(config, env, hostOf))
      && (InitUtils.ValidateApiUrl(url, hostOf).Some? ==>
            InitUtils.BuildCoreConfig(config, env, hostOf).Failure? && SelectCoreConfig(config, env).Success?)
  {
  }

  /** The two ways of handing a full `prefactorConfig` agree, except when it is http without an
      `httpConfig`: `buildCoreConfig` then makes one holding only the schema. */
  lemma FullConfigAgreesWithBuildCoreConfig(config: Option<PluginConfig>, env: Env, hostOf: string -> Option<string>)
    requires config.Some? && config.value.prefactorConfig.Some?
    ensures var core := config.value.prefactorConfig.value;
      !(core.transportType == Some(Http) && core.httpConfig.None?) ==>
        InitUtils.BuildCoreConfig(config, env, hostOf) == SelectCoreConfig(config, env)
  {
  }

  class PluginRuntime {
    var globalCore: Option<CoreHandles>
    var globalTracer: Option<Tracer>
    var agentInstanceStarted: bool
    /** The configurations passed to `createCore`, in order. */
    var coreCalls: seq<CoreConfig>
    const env: Env
    const createConfig: CoreConfig -> Sync<CoreConfig>
    const createCoreFailure: nat -> Option<Error>
    const tracerFailure: nat -> Option<Error>
    const managerFailure: nat -> Option<Error>

    ghost predicate Valid()
      reads this
    {
      globalTracer == if globalCore.Some? then Some(globalCore.value.tracer) else None
    }

    /** The state at module load. */
    constructor (env: Env, createConfig: CoreConfig -> Sync<CoreConfig>, createCoreFailure: nat -> Option<Error>,
                 tracerFailure: nat -> Option<Error>, managerFailure: nat -> Option<Error>)
      ensures Valid() && globalCore.None? && !agentInstanceStarted && coreCalls == []
      ensures this.env == env && this.createConfig == createConfig && this.createCoreFailure == createCoreFailure
      ensures this.tracerFailure == tracerFailure && this.managerFailure == managerFailure
    {
      globalCore, globalTracer, agentInstanceStarted, coreCalls := None, None, false, [];
      this.env := env;
      this.createConfig := createConfig;
      this.createCoreFailure := createCoreFailure;
      this.tracerFailure := tracerFailure;
      this.managerFailure := managerFailure;
    }

    /** The error `initCore(config)` raises from the current state, or None when it returns a
        core: the config error, the `createConfig` error, the `createCore` error, or the
        `registerSchema` error when the final config carries a schema. */
    ghost function InitFailure(config: Option<PluginConfig>): Option<Error>
      reads this
    {
      if globalCore.Some? then None
      else if SelectCoreConfig(config, env).Failure? then Some(SelectCoreConfig(config, env).error)
      else
        var created := createConfig(SelectCoreConfig(config, env).value);
        if created.Raised? then Some(created.error)
        else if createCoreFailure(|coreCalls|).Some? then createCoreFailure(|coreCalls|)
        else
          var final := created.value;
          var schema := if final.httpConfig.Some? then final.httpConfig.value.agentSchema else None;
          if schema.Some? then managerFailure(0) else None
    }

    /** `initCore`. Once a core exists it is returned as is. Otherwise the selected config goes
        through `createConfig` and `createCore`; the new core is cached before `registerSchema`,
        which is called exactly when the final config carries a schema, so a throwing
        `registerSchema` leaves the core cached. */
    method InitCore(config: Option<PluginConfig>) returns (r: Sync<CoreHandles>)
      requires Valid()
      modifies this
      ensures Valid() && agentInstanceStarted == old(agentInstanceStarted)
      ensures r.Raised? <==> old(InitFailure(config)).Some?
      ensures r.Raised? ==> r.error == old(InitFailure(config)).value
      ensures old(globalCore).Some? ==> r == Value(old(globalCore).value) && unchanged(this)
      ensures old(globalCore).None? && SelectCoreConfig(config, env).Failure? ==>
        r == Raised(SelectCoreConfig(config, env).error) && unchanged(this)
      ensures old(globalCore).None? && SelectCoreConfig(config, env).Success? &&
              createConfig(SelectCoreConfig(config, env).value).Raised? ==>
        r == Raised(createConfig(SelectCoreConfig(config, env).value).error) && unchanged(this)
      ensures old(globalCore).None? && SelectCoreConfig(config, env).Success? &&
              createConfig(SelectCoreConfig(config, env).value).Value? ==>
        var final := createConfig(SelectCoreConfig(config, env).value).value;
        var schema := if final.httpConfig.Some? then final.httpConfig.value.agentSchema else None;
        && coreCalls == old(coreCalls) + [final]
        && (createCoreFailure(|old(coreCalls)|).Some? ==>
              r == Raised(createCoreFailure(|old(coreCalls)|).value) && globalCore.None?)
        && (createCoreFailure(|old(coreCalls)|).None? ==>
              && globalCore.Some?
              && fresh(globalCore.value.tracer) && fresh(globalCore.value.agentManager)
              && globalCore.value.tracer.trace == [] && globalCore.value.tracer.failure == tracerFailure
              && globalCore.value.agentManager.failure == managerFailure
              && globalCore.value.agentManager.calls == (if schema.Some? then [RegisterSchemaCall(schema.value)] else [])
              && r == (if schema.Some? && managerFailure(0).Some? then Raised(managerFailure(0).value)
                       else Value(globalCore.value)))
    {
      if globalCore.Some? {
        r := Value(globalCore.value);
        return;
      }
      var selected := SelectCoreConfig(config, env);
      if selected.Failure? {
        r := Raised(selected.error);
        return;
      }
      var created := createConfig(selected.value);
      if created.Raised? {
        r := Raised(created.error);
        return;
      }
      var final := created.value;
      var coreFailure := createCoreFailure(|coreCalls|);
      coreCalls := coreCalls + [final];
      if coreFailure.Some? {
        r := Raised(coreFailure.value);
        return;
      }
      var tracer := new Tracer(tracerFailure);
      var agentManager := new AgentManager(managerFailure);
      var core := CoreHandles(tracer, agentManager);
      globalCore := Some(core);
      globalTracer := Some(tracer);
      if final.httpConfig.Some? && final.httpConfig.value.agentSchema.Some? {
        var thrown := agentManager.RegisterSchema(final.httpConfig.value.agentSchema.value);
        if thrown.Some? {
          r := Raised(thrown.value);
          return;
        }
      }
      r := Value(core);
    }

    /** `ensureAgentInstanceStarted`: once the latch is set nothing happens; otherwise one
        `startInstance`, and the latch is set only when it does not throw (a throw is logged and
        swallowed, so the next call tries again). */
    method EnsureAgentInstanceStarted(agentManager: AgentManager, agentInfo: Option<AgentInfo>)
      modifies this, agentManager
      ensures globalCore == old(globalCore) && globalTracer == old(globalTracer) && coreCalls == old(coreCalls)
      ensures old(agentInstanceStarted) ==> agentInstanceStarted && agentManager.calls == old(agentManager.calls)
      ensures !old(agentInstanceStarted) ==>
        && agentManager.calls == old(agentManager.calls) + [StartInstanceCall(agentInfo)]
        && agentInstanceStarted == agentManager.failure(|old(agentManager.calls)|).None?
    {
      if agentInstanceStarted {
        return;
      }
      var thrown := agentManager.StartInstance(agentInfo);
      if thrown.None? {
        agentInstanceStarted := true;
      }
    }

    /** The handler registered with `registerShutdownHandler`. */
    method Shutdown()
      modifies this
      ensures Valid() && globalCore.None? && globalTracer.None? && !agentInstanceStarted
      ensures coreCalls == old(coreCalls)
    {
      globalCore := None;
      globalTracer := None;
      agentInstanceStarted := false;
    }

    /** `getTracer`: the cached tracer, else the one a fresh `initCore()` caches (or its error). */
    method GetTracer() returns (r: Sync<Tracer>)
      requires Valid()
      modifies this
      ensures Valid()
      ensures old(globalTracer).Some? ==> r == Value(old(globalTracer).value) && unchanged(this)
      ensures r.Value? ==> globalTracer == Some(r.value)
      ensures old(globalTracer).None? && SelectCoreConfig(None, env).Failure? ==>
        r == Raised(SelectCoreConfig(None, env).error) && unchanged(this)
      ensures old(globalTracer).None? && SelectCoreConfig(None, env).Success? &&
              createConfig(SelectCoreConfig(None, env).value).Raised? ==>
        r == Raised(createConfig(SelectCoreConfig(None, env).value).error) && unchanged(this)
      ensures old(globalTracer).None? && SelectCoreConfig(None, env).Success? &&
              createConfig(SelectCoreConfig(None, env).value).Value? ==>
        var final := createConfig(SelectCoreConfig(None, env).value).value;
        var schema := if final.httpConfig.Some? then final.httpConfig.value.agentSchema else None;
        && coreCalls == old(coreCalls) + [final]
        && (createCoreFailure(|old(coreCalls)|).Some? ==>
              r == Raised(createCoreFailure(|old(coreCalls)|).value) && globalTracer.None?)
        && (createCoreFailure(|old(coreCalls)|).None? ==>
              && globalTracer.Some? && fresh(globalTracer.value)
              && r == (if schema.Some? && managerFailure(0).Some? then Raised(managerFailure(0).value)
                       else Value(globalTracer.value)))
    {
      if globalTracer.None? {
        var init := InitCore(None);
        if init.Raised? {
          r := Raised(init.error);
          return;
        }
      }
      r := Value(globalTracer.value);
    }
  }

  /** The agent-instance latch across a shutdown: a runtime that started its instance, once
      shut down, starts it again on the next call. */
  method RestartAfterShutdown(runtime: PluginRuntime, agentManager: AgentManager, info: Option<AgentInfo>)
    requires runtime.agentInstanceStarted && agentManager.failure(|agentManager.calls|).None?
    modifies runtime, agentManager
    ensures runtime.agentInstanceStarted
    ensures agentManager.calls == old(agentManager.calls) + [StartInstanceCall(info)]
  {
    runtime.EnsureAgentInstanceStarted(agentManager, info);
    runtime.Shutdown();
    runtime.EnsureAgentInstanceStarted(agentManager, info);
  }
}

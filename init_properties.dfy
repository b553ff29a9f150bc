/**
 * Properties of the definition resolution and of the project layout of the
 * `init` command, stated over `ExecuteInit` and its stages.
 */
module InitProperties {
  import opened Outcomes
  import opened Sequencing
  import opened Paths
  import opened InitProject

  /** The definition handed to the OpenAPI stage: the default definition with
      the initial state applied. */
  function StatedDefinition(opts: InitOptions, env: InitEnv): Definition
    requires env.defaultDefinition.Some?
  {
    ApplyInitialState(env.defaultDefinition.value, opts.initialState)
  }

  /** The directories are attempted in list order, one `MkdirAll` each, and
      the attempt stops exactly when one of them fails. */
  lemma DirectoriesAttemptedInListOrder(name: string, fsOk: FsEffect -> bool)
    ensures var attempted := AttemptInOrder(DirectoryEffects(name), fsOk);
            && |attempted| <= |Dirs|
            && (forall i :: 0 <= i < |attempted| ==> attempted[i] == MkdirAll(Join(name, Dirs[i])))
            && (!StoppedByFailure(attempted, fsOk) ==> |attempted| == |Dirs|)
            && (StoppedByFailure(attempted, fsOk) <==>
                  exists i :: 0 <= i < |Dirs| && !fsOk(DirectoryEffects(name)[i]))
  {
    var effects := DirectoryEffects(name);
    var attempted := AttemptInOrder(effects, fsOk);
    AttemptIsPrefix(effects, fsOk);
    forall i | 0 <= i < |attempted|
      ensures attempted[i] == MkdirAll(Join(name, Dirs[i]))
    {
      assert attempted[i] == effects[i];
    }
    StoppedIffSomeFailure(effects, fsOk);
  }

  /** Without an OpenAPI document or an override file, the result is the
      default definition with the initial state applied; in particular an empty
      initial state keeps the default status. */
  lemma DefaultAndStateOnly(opts: InitOptions, env: InitEnv)
    requires opts.swaggerPath == "" && opts.definitionPath == ""
    requires ExecuteInit(opts, env).result.Ok?
    ensures env.defaultDefinition.Some?
    ensures ExecuteInit(opts, env).result.value == StatedDefinition(opts, env)
    ensures ExecuteInit(opts, env).result.value.status ==
              if opts.initialState == "" then env.defaultDefinition.value.status else opts.initialState
  {
  }

  /** With an OpenAPI document and no override, the initial state is applied
      before population, and the URLs are cleared after it. */
  lemma PopulateSeesInitialState(opts: InitOptions, env: InitEnv)
    requires opts.swaggerPath != "" && opts.definitionPath == ""
    requires ExecuteInit(opts, env).result.Ok?
    ensures env.defaultDefinition.Some? && env.loadSwagger(opts.swaggerPath).Some?
    ensures env.populate(StatedDefinition(opts, env), env.loadSwagger(opts.swaggerPath).value).Some?
    ensures ExecuteInit(opts, env).result.value ==
              ClearUrlsForEndpointConfig(
                env.populate(StatedDefinition(opts, env), env.loadSwagger(opts.swaggerPath).value).value)
  {
  }

  /** A non-empty initial state survives to the end when population keeps the
      status and no override is given. */
  lemma InitialStateSurvivesStatusKeepingPopulate(opts: InitOptions, env: InitEnv)
    requires opts.initialState != "" && opts.definitionPath == ""
    requires forall d, doc :: env.populate(d, doc).Some? ==> env.populate(d, doc).value.status == d.status
    requires ExecuteInit(opts, env).result.Ok?
    ensures ExecuteInit(opts, env).result.value.status == opts.initialState
  {
    if opts.swaggerPath != "" {
      PopulateSeesInitialState(opts, env);
    }
  }

  /** The endpoint invariant: once the OpenAPI stage has produced an endpoint
      configuration, both URLs are empty. */
  lemma SwaggerStageKeepsEndpointInvariant(opts: InitOptions, env: InitEnv, def: Definition)
    requires opts.swaggerPath != ""
    requires SwaggerStage(opts, env, def).result.Ok?
    ensures var populated := env.populate(def, env.loadSwagger(opts.swaggerPath).value);
            populated.Some?
            && SwaggerStage(opts, env, def).result.value.endpointConfig == populated.value.endpointConfig
            && (populated.value.endpointConfig.Some? ==>
                  SwaggerStage(opts, env, def).result.value.productionUrl == ""
                  && SwaggerStage(opts, env, def).result.value.sandboxUrl == "")
  {
  }

  /** Without an override, a project initialized from an OpenAPI document that
      has an endpoint configuration carries no URL. */
  lemma EndpointInvariantWithoutOverride(opts: InitOptions, env: InitEnv)
    requires opts.swaggerPath != "" && opts.definitionPath == ""
    requires ExecuteInit(opts, env).result.Ok?
    requires ExecuteInit(opts, env).result.value.endpointConfig.Some?
    ensures ExecuteInit(opts, env).result.value.productionUrl == ""
    ensures ExecuteInit(opts, env).result.value.sandboxUrl == ""
  {
    PopulateSeesInitialState(opts, env);
  }

  /** The definition after the OpenAPI stage, when both earlier stages succeed. */
  function BeforeOverride(opts: InitOptions, env: InitEnv): Option<Definition> {
    var prepared := Prepare(opts, env);
    if prepared.result.Err? then None
    else
      var swagger := SwaggerStage(opts, env, prepared.result.value);
      if swagger.result.Err? then None else Some(swagger.result.value)
  }

  /** The override stage merges the current definition with the substituted,
      parsed override, in that order, and decodes the result. */
  lemma OverrideStageMerges(opts: InitOptions, env: InitEnv, def: Definition)
    requires opts.definitionPath != ""
    requires OverrideStage(opts, env, def).Ok?
    ensures var content := env.readFile(opts.definitionPath);
            && content.Some?
            && var data := env.envSubstitute(content.value);
            && data.Some?
            && var overrideDef := env.parseDefinition(data.value);
            && overrideDef.Some?
            && var original := env.toJson(def);
            && var overlay := env.toJson(overrideDef.value);
            && original.Some? && overlay.Some?
            && var merged := env.mergeJson(original.value, overlay.value);
            && merged.Some?
            && env.fromJson(merged.value) == Some(OverrideStage(opts, env, def).value)
  {
  }

  /** The final writes do not change the definition. */
  lemma WriteStageKeepsDefinition(opts: InitOptions, env: InitEnv, def: Definition)
    requires WriteStage(opts, env, def).result.Ok?
    ensures WriteStage(opts, env, def).result.value == def
    ensures env.toYaml(def).Some?
    ensures WriteStage(opts, env, def).effects[0] == WriteFile(Join(opts.outputDir, DefinitionFile), env.toYaml(def).value)
  {
  }

  /** With an override file, the final definition is the override stage's
      result on the definition the OpenAPI stage produced. */
  lemma OverrideIsMergedLast(opts: InitOptions, env: InitEnv)
    requires opts.definitionPath != ""
    requires ExecuteInit(opts, env).result.Ok?
    ensures BeforeOverride(opts, env).Some?
    ensures OverrideStage(opts, env, BeforeOverride(opts, env).value) == ExecuteInit(opts, env).result
  {
    var prepared := Prepare(opts, env);
    assert prepared.result.Ok?;
    var swagger := SwaggerStage(opts, env, prepared.result.value);
    assert swagger.result.Ok?;
    var overridden := OverrideStage(opts, env, swagger.result.value);
    assert overridden.Ok?;
    WriteStageKeepsDefinition(opts, env, overridden.value);
  }

  /** No stage before the override consults the merge function. */
  lemma EarlyStagesIgnoreMerge(opts: InitOptions, env: InitEnv, otherMerge: (Json, Json) -> Option<Json>, def: Definition)
    ensures Prepare(opts, env.(mergeJson := otherMerge)) == Prepare(opts, env)
    ensures SwaggerStage(opts, env.(mergeJson := otherMerge), def) == SwaggerStage(opts, env, def)
    ensures WriteStage(opts, env.(mergeJson := otherMerge), def) == WriteStage(opts, env, def)
  {
  }

  /** A failed environment substitution ends the command before any parsing or
      merging: the merge function is never consulted and `api.yaml` is never
      written. */
  lemma SubstitutionFailureStopsBeforeMerge(opts: InitOptions, env: InitEnv, otherMerge: (Json, Json) -> Option<Json>)
    requires opts.definitionPath != ""
    requires env.readFile(opts.definitionPath).Some?
    requires env.envSubstitute(env.readFile(opts.definitionPath).value).None?
    ensures ExecuteInit(opts, env).result.Err?
    ensures BeforeOverride(opts, env).Some? ==> ExecuteInit(opts, env).result == Err(EnvSubstituteFailed)
    ensures ExecuteInit(opts, env.(mergeJson := otherMerge)) == ExecuteInit(opts, env)
    ensures forall e :: e in ExecuteInit(opts, env).effects ==>
              !(e.WriteFile? && e.path == Join(opts.outputDir, DefinitionFile))
  {
    JoinDistinguishesNames(opts.outputDir, SwaggerFile, DefinitionFile);
    PrepareWritesNoDefinition(opts, env);
    var prepared := Prepare(opts, env);
    EarlyStagesIgnoreMerge(opts, env, otherMerge, Definition("", "", "", None));
    if prepared.result.Ok? {
      var def := prepared.result.value;
      EarlyStagesIgnoreMerge(opts, env, otherMerge, def);
      SwaggerStageWritesNoDefinition(opts, env, def);
      var swagger := SwaggerStage(opts, env, def);
      if swagger.result.Ok? {
        assert OverrideStage(opts, env, swagger.result.value) == Err(EnvSubstituteFailed);
        assert OverrideStage(opts, env.(mergeJson := otherMerge), swagger.result.value) == Err(EnvSubstituteFailed);
      }
    }
  }

  /** The first stages only create directories. */
  lemma PrepareWritesNoDefinition(opts: InitOptions, env: InitEnv)
    ensures forall e :: e in Prepare(opts, env).effects ==> e.MkdirAll?
  {
    if opts.outputDir != "" && !env.fsOk(MkdirAll(opts.outputDir)) {
    } else if !env.workingDirOk || env.defaultDefinition.None? {
    } else {
      var dirs := AttemptInOrder(DirectoryEffects(opts.outputDir), env.fsOk);
      DirectoriesAttemptedInListOrder(opts.outputDir, env.fsOk);
      assert forall e :: e in dirs ==> e.MkdirAll?;
    }
  }

  /** The OpenAPI stage writes only the swagger artifact. */
  lemma SwaggerStageWritesNoDefinition(opts: InitOptions, env: InitEnv, def: Definition)
    ensures forall e :: e in SwaggerStage(opts, env, def).effects ==>
              e.WriteFile? && e.path == Join(opts.outputDir, SwaggerFile)
  {
  }

  /** On success, `api.yaml` holds the YAML form of the final definition. */
  lemma DefinitionFileHoldsFinalDefinition(opts: InitOptions, env: InitEnv)
    requires ExecuteInit(opts, env).result.Ok?
    ensures env.toYaml(ExecuteInit(opts, env).result.value).Some?
    ensures WriteFile(Join(opts.outputDir, DefinitionFile), env.toYaml(ExecuteInit(opts, env).result.value).value)
              in ExecuteInit(opts, env).effects
  {
  }
}

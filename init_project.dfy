/**
 * The `init` command: the pre-flight checks of its `Run` function, the
 * directory layout it creates, and `executeInitCmd`, which resolves the API
 * definition from the default definition, the initial state, an OpenAPI
 * document and an override file, and writes the project files.
 *
 * Filesystem effects are recorded in an effect log; whether each one succeeds
 * is a parameter. The library functions whose code is not part of this model
 * (`Swagger2Populate`, `EnvSubstitute`, `MergeJSON`, the JSON and YAML codecs)
 * are opaque function parameters of `InitEnv`.
 */
module InitProject {
  import opened Outcomes
  import opened Sequencing
  import opened Paths

  /** The API definition, reduced to the fields this command reads or writes. */
  datatype Definition = Definition(
    status: string,
    productionUrl: string,
    sandboxUrl: string,
    endpointConfig: Option<EndpointConfig>)

  /** An endpoint configuration (load balancing, failover, ...) is carried as is. */
  type EndpointConfig = string

  /** A loaded OpenAPI document. */
  type SwaggerDoc = string

  /** Serialised JSON text. */
  type Json = string

  /** A filesystem mutation performed by the command. */
  datatype FsEffect = MkdirAll(path: string) | WriteFile(path: string, content: string)

  datatype InitOptions = InitOptions(
    outputDir: string,       // the project path, `args[0]`
    swaggerPath: string,     // `--oas`
    definitionPath: string,  // `--definition` / `-d`
    initialState: string,    // `--initial-state`
    force: bool)             // `--force` / `-f`

  /** What the world answers when `executeInitCmd` asks. */
  datatype InitEnv = InitEnv(
    fsOk: FsEffect -> bool,                                // `os.MkdirAll` / `ioutil.WriteFile` succeed
    workingDirOk: bool,                                    // `filepath.Abs` / `os.Getwd` succeed
    defaultDefinition: Option<Definition>,                 // `loadDefaultSpecFromDisk`
    loadSwagger: string -> Option<SwaggerDoc>,             // `loads.Spec`
    populate: (Definition, SwaggerDoc) -> Option<Definition>, // `v2.Swagger2Populate`
    swaggerToYaml: SwaggerDoc -> Option<string>,           // `utils.JsonToYaml(doc.Raw())`
    defaultSwagger: string,                                // embedded `/init/swagger-default.yaml`
    readFile: string -> Option<string>,                    // `ioutil.ReadFile`
    envSubstitute: string -> Option<string>,               // `utils.EnvSubstitute`
    parseDefinition: string -> Option<Definition>,         // `yaml2.Unmarshal` into a definition
    toJson: Definition -> Option<Json>,                    // `json.Marshal`
    mergeJson: (Json, Json) -> Option<Json>,               // `utils.MergeJSON`
    fromJson: Json -> Option<Definition>,                  // `json.Unmarshal`
    toYaml: Definition -> Option<string>,                  // `yaml2.Marshal`
    paramsFileName: string,                                // `DefaultAPIMParamsFileName`
    renderedParams: Option<string>,                        // `scaffoldParams` template output
    readme: string)                                        // embedded `/init/README.md`

  datatype InitError =
    | OutputDirFailed
    | WorkingDirFailed
    | DefaultDefinitionUnreadable
    | DirectoryFailed(path: string)
    | SwaggerLoadFailed
    | PopulateFailed
    | SwaggerConvertFailed
    | SwaggerWriteFailed
    | DefinitionReadFailed
    | EnvSubstituteFailed
    | DefinitionParseFailed
    | MarshalFailed
    | MergeFailed
    | UnmarshalFailed
    | DefinitionEncodeFailed
    | DefinitionWriteFailed
    | ParamsFailed
    | ReadmeWriteFailed

  /** The effects of a stage of `executeInitCmd` and how it ended. */
  datatype InitRun = InitRun(effects: seq<FsEffect>, result: Result<Definition, InitError>)

  // ---------------------------------------------------------------------
  // Pre-flight checks of `InitCommand.Run`
  // ---------------------------------------------------------------------

  /** What `os.Stat` says about the project path. */
  datatype TargetStat = Missing | StatError | ExistingFile | ExistingDirectory

  /** Why the command exits without initializing a project. */
  datatype InitAbort =
    | NotADirectory
    | ExistsWithoutForce
    | StatPanic
    | InvalidInitialState
    | InitFailed(error: InitError)

  datatype Gate = Proceed | Stop(reason: InitAbort)

  /** The existence check: an existing path must be a directory, and an existing
      directory is reused only with `--force`. A stat error other than "does not
      exist" reaches `stat.IsDir()` with a nil `FileInfo`, which panics. */
  function PreflightGate(target: TargetStat, force: bool): (g: Gate)
    ensures g == Proceed <==> target == Missing || (target == ExistingDirectory && force)
    ensures target == ExistingFile ==> g == Stop(NotADirectory)
    ensures target == ExistingDirectory && !force ==> g == Stop(ExistsWithoutForce)
    ensures target == StatError ==> g == Stop(StatPanic)
  {
    match target
    case Missing => Proceed
    case StatError => Stop(StatPanic)
    case ExistingFile => Stop(NotADirectory)
    case ExistingDirectory => if force then Proceed else Stop(ExistsWithoutForce)
  }

  /** The `validState` loop: is `state` one of `validStates`? */
  method ValidateInitialState(state: string, validStates: seq<string>) returns (validState: bool)
    ensures validState <==> state in validStates
  {
    validState := false;
    for i := 0 to |validStates|
      invariant !validState
      invariant state !in validStates[..i]
    {
      if state == validStates[i] {
        validState := true;
        break;
      }
    }
  }

  // ---------------------------------------------------------------------
  // `createDirectories`
  // ---------------------------------------------------------------------

  /** The project layout, in creation order. */
  const Dirs: seq<string> := [
    "Meta-information",
    "Image",
    "Docs",
    "Docs/FileContents",
    "Sequences",
    "Sequences/fault-sequence",
    "Sequences/in-sequence",
    "Sequences/out-sequence",
    "Interceptors",
    "libs"
  ]

  /** One `os.MkdirAll` per entry of `dirs`, under the project path `name`. */
  function MkdirsUnder(name: string, dirs: seq<string>): (effects: seq<FsEffect>)
    ensures |effects| == |dirs|
  {
    seq(|dirs|, i requires 0 <= i < |dirs| => MkdirAll(Join(name, dirs[i])))
  }

  /** The project layout under `name`, one `os.MkdirAll` per entry of `Dirs`. */
  function DirectoryEffects(name: string): seq<FsEffect> {
    MkdirsUnder(name, Dirs)
  }

  /** `createDirectories`: creates the directories of `dirs` (the package's
      `Dirs`, passed in) in list order and returns at the first failure. */
  method CreateDirectories(name: string, dirs: seq<string>, fsOk: FsEffect -> bool)
    returns (attempted: seq<FsEffect>, failed: bool)
    ensures attempted == AttemptInOrder(MkdirsUnder(name, dirs), fsOk)
    ensures failed == StoppedByFailure(attempted, fsOk)
  {
    ghost var effects := MkdirsUnder(name, dirs);
    ghost var all := AttemptInOrder(effects, fsOk);
    attempted := [];
    for i := 0 to |dirs|
      invariant attempted + AttemptFrom(effects, fsOk, i) == all
      invariant forall j :: 0 <= j < |attempted| ==> fsOk(attempted[j])
    {
      var mkdir := MkdirAll(Join(name, dirs[i]));
      if !fsOk(mkdir) {
        attempted := attempted + [mkdir];
        failed := true;
        return;
      }
      AppendStep(attempted, [mkdir], AttemptFrom(effects, fsOk, i + 1), all);
      attempted := attempted + [mkdir];
    }
    failed := false;
  }

  // ---------------------------------------------------------------------
  // Definition resolution, stage by stage
  // ---------------------------------------------------------------------

  const SwaggerFile: string := "Meta-information/swagger.yaml"
  const DefinitionFile: string := "Meta-information/api.yaml"
  const ReadmeFile: string := "README.md"

  /** `def.Status = initCmdInitialState` when a state was given. */
  function ApplyInitialState(def: Definition, state: string): (r: Definition)
    ensures r.status == (if state == "" then def.status else state)
    ensures r.productionUrl == def.productionUrl && r.sandboxUrl == def.sandboxUrl
    ensures r.endpointConfig == def.endpointConfig
  {
    if state != "" then def.(status := state) else def
  }

  /** The endpoint invariant: a definition with an endpoint configuration
      carries no production or sandbox URL. */
  function ClearUrlsForEndpointConfig(def: Definition): (r: Definition)
    ensures r.endpointConfig == def.endpointConfig && r.status == def.status
    ensures r.endpointConfig.Some? ==> r.productionUrl == "" && r.sandboxUrl == ""
    ensures r.endpointConfig.None? ==> r == def
  {
    if def.endpointConfig.Some? then def.(productionUrl := "", sandboxUrl := "") else def
  }

  /** A write that ends the stage with `def` when it succeeds and with `error`
      otherwise. */
  function WriteOrFail(env: InitEnv, write: FsEffect, def: Definition, error: InitError): InitRun {
    InitRun([write], if env.fsOk(write) then Ok(def) else Err(error))
  }

  /** Output directory, default definition, initial state and directory layout. */
  function Prepare(opts: InitOptions, env: InitEnv): InitRun {
    var outDir := if opts.outputDir != "" then [MkdirAll(opts.outputDir)] else [];
    if opts.outputDir != "" && !env.fsOk(MkdirAll(opts.outputDir)) then
      InitRun(outDir, Err(OutputDirFailed))
    else if !env.workingDirOk then
      InitRun(outDir, Err(WorkingDirFailed))
    else if env.defaultDefinition.None? then
      InitRun(outDir, Err(DefaultDefinitionUnreadable))
    else
      var def := ApplyInitialState(env.defaultDefinition.value, opts.initialState);
      var dirs := AttemptInOrder(DirectoryEffects(opts.outputDir), env.fsOk);
      if StoppedByFailure(dirs, env.fsOk) then
        InitRun(outDir + dirs, Err(DirectoryFailed(dirs[|dirs| - 1].path)))
      else
        InitRun(outDir + dirs, Ok(def))
  }

  /** Population from the OpenAPI document and the swagger artifact, or the
      embedded default swagger when no document was given. */
  function SwaggerStage(opts: InitOptions, env: InitEnv, def: Definition): InitRun {
    var savePath := Join(opts.outputDir, SwaggerFile);
    if opts.swaggerPath == "" then
      WriteOrFail(env, WriteFile(savePath, env.defaultSwagger), def, SwaggerWriteFailed)
    else
      match env.loadSwagger(opts.swaggerPath)
      case None => InitRun([], Err(SwaggerLoadFailed))
      case Some(doc) =>
        match env.populate(def, doc)
        case None => InitRun([], Err(PopulateFailed))
        case Some(populated) =>
          var cleared := ClearUrlsForEndpointConfig(populated);
          match env.swaggerToYaml(doc)
          case None => InitRun([], Err(SwaggerConvertFailed))
          case Some(yaml) => WriteOrFail(env, WriteFile(savePath, yaml), cleared, SwaggerWriteFailed)
  }

  /** The override file: read, substitute environment variables in the raw
      text, parse, and merge over the current definition through JSON. */
  function OverrideStage(opts: InitOptions, env: InitEnv, def: Definition): Result<Definition, InitError> {
    if opts.definitionPath == "" then Ok(def)
    else
      match env.readFile(opts.definitionPath)
      case None => Err(DefinitionReadFailed)
      case Some(content) =>
        match env.envSubstitute(content)
        case None => Err(EnvSubstituteFailed)
        case Some(data) =>
          match env.parseDefinition(data)
          case None => Err(DefinitionParseFailed)
          case Some(overrideDef) =>
            match env.toJson(def)
            case None => Err(MarshalFailed)
            case Some(original) =>
              match env.toJson(overrideDef)
              case None => Err(MarshalFailed)
              case Some(overlay) =>
                match env.mergeJson(original, overlay)
                case None => Err(MergeFailed)
                case Some(merged) =>
                  match env.fromJson(merged)
                  case None => Err(UnmarshalFailed)
                  case Some(final) => Ok(final)
  }

  /** `api.yaml`, the params file and the README. */
  function WriteStage(opts: InitOptions, env: InitEnv, def: Definition): InitRun {
    match env.toYaml(def)
    case None => InitRun([], Err(DefinitionEncodeFailed))
    case Some(apiData) =>
      var api := WriteFile(Join(opts.outputDir, DefinitionFile), apiData);
      if !env.fsOk(api) then InitRun([api], Err(DefinitionWriteFailed))
      else
        match env.renderedParams
        case None => InitRun([api], Err(ParamsFailed))
        case Some(params) =>
          var paramsWrite := WriteFile(Join(opts.outputDir, env.paramsFileName), params);
          if !env.fsOk(paramsWrite) then InitRun([api, paramsWrite], Err(ParamsFailed))
          else
            var readme := WriteFile(Join(opts.outputDir, ReadmeFile), env.readme);
            InitRun([api, paramsWrite, readme], if env.fsOk(readme) then Ok(def) else Err(ReadmeWriteFailed))
  }

  /** `executeInitCmd`, as the stages run one after another. */
  function ExecuteInit(opts: InitOptions, env: InitEnv): InitRun {
    var prepared := Prepare(opts, env);
    if prepared.result.Err? then prepared
    else
      var swagger := SwaggerStage(opts, env, prepared.result.value);
      if swagger.result.Err? then InitRun(prepared.effects + swagger.effects, swagger.result)
      else
        var overridden := OverrideStage(opts, env, swagger.result.value);
        if overridden.Err? then InitRun(prepared.effects + swagger.effects, overridden)
        else
          var written := WriteStage(opts, env, overridden.value);
          InitRun(prepared.effects + swagger.effects + written.effects, written.result)
  }

  /** `executeInitCmd`: the definition is updated in place as the stages run. */
  method ExecuteInitCmd(opts: InitOptions, env: InitEnv)
    returns (effects: seq<FsEffect>, result: Result<Definition, InitError>)
    ensures InitRun(effects, result) == ExecuteInit(opts, env)
  {
    effects, result := PrepareProject(opts, env);
    if result.Err? {
      return;
    }
    var swaggerEffects;
    swaggerEffects, result := WriteSwagger(opts, env, result.value);
    effects := effects + swaggerEffects;
    if result.Err? {
      return;
    }
    result := MergeOverride(opts, env, result.value);
    if result.Err? {
      return;
    }
    var written;
    written, result := WriteProjectFiles(opts, env, result.value);
    effects := effects + written;
  }

  /** The part of `executeInitCmd` up to `createDirectories`. */
  method PrepareProject(opts: InitOptions, env: InitEnv)
    returns (effects: seq<FsEffect>, result: Result<Definition, InitError>)
    ensures InitRun(effects, result) == Prepare(opts, env)
  {
    effects := [];
    if opts.outputDir != "" {
      effects := effects + [MkdirAll(opts.outputDir)];
      if !env.fsOk(MkdirAll(opts.outputDir)) {
        return effects, Err(OutputDirFailed);
      }
    }
    if !env.workingDirOk {
      return effects, Err(WorkingDirFailed);
    }
    if env.defaultDefinition.None? {
      return effects, Err(DefaultDefinitionUnreadable);
    }
    var def := env.defaultDefinition.value;
    if opts.initialState != "" {
      def := def.(status := opts.initialState);
    }
    var dirs, dirFailed := CreateDirectories(opts.outputDir, Dirs, env.fsOk);
    effects := effects + dirs;
    if dirFailed {
      return effects, Err(DirectoryFailed(dirs[|dirs| - 1].path));
    }
    result := Ok(def);
  }

  /** The `--oas` branch of `executeInitCmd` and its `else`. */
  method WriteSwagger(opts: InitOptions, env: InitEnv, def: Definition)
    returns (effects: seq<FsEffect>, result: Result<Definition, InitError>)
    ensures InitRun(effects, result) == SwaggerStage(opts, env, def)
  {
    var swaggerSavePath := Join(opts.outputDir, SwaggerFile);
    if opts.swaggerPath != "" {
      var doc := env.loadSwagger(opts.swaggerPath);
      if doc.None? {
        return [], Err(SwaggerLoadFailed);
      }
      var populated := env.populate(def, doc.value);
      if populated.None? {
        return [], Err(PopulateFailed);
      }
      var current := populated.value;
      if current.endpointConfig.Some? {
        current := current.(productionUrl := "");
        current := current.(sandboxUrl := "");
      }
      var yamlSwagger := env.swaggerToYaml(doc.value);
      if yamlSwagger.None? {
        return [], Err(SwaggerConvertFailed);
      }
      var write := WriteFile(swaggerSavePath, yamlSwagger.value);
      effects := [write];
      result := if env.fsOk(write) then Ok(current) else Err(SwaggerWriteFailed);
    } else {
      var write := WriteFile(swaggerSavePath, env.defaultSwagger);
      effects := [write];
      result := if env.fsOk(write) then Ok(def) else Err(SwaggerWriteFailed);
    }
  }

  /** The `--definition` branch of `executeInitCmd`. */
  method MergeOverride(opts: InitOptions, env: InitEnv, def: Definition)
    returns (result: Result<Definition, InitError>)
    ensures result == OverrideStage(opts, env, def)
  {
    if opts.definitionPath == "" {
      return Ok(def);
    }
    var content := env.readFile(opts.definitionPath);
    if content.None? {
      return Err(DefinitionReadFailed);
    }
    var data := env.envSubstitute(content.value);
    if data.None? {
      return Err(EnvSubstituteFailed);
    }
    var apiDef := env.parseDefinition(data.value);
    if apiDef.None? {
      return Err(DefinitionParseFailed);
    }
    var originalDefBytes := env.toJson(def);
    if originalDefBytes.None? {
      return Err(MarshalFailed);
    }
    var newDefBytes := env.toJson(apiDef.value);
    if newDefBytes.None? {
      return Err(MarshalFailed);
    }
    var finalDefBytes := env.mergeJson(originalDefBytes.value, newDefBytes.value);
    if finalDefBytes.None? {
      return Err(MergeFailed);
    }
    var tmpDef := env.fromJson(finalDefBytes.value);
    if tmpDef.None? {
      return Err(UnmarshalFailed);
    }
    result := Ok(tmpDef.value);
  }

  /** The writes that end `executeInitCmd`. */
  method WriteProjectFiles(opts: InitOptions, env: InitEnv, def: Definition)
    returns (effects: seq<FsEffect>, result: Result<Definition, InitError>)
    ensures InitRun(effects, result) == WriteStage(opts, env, def)
  {
    var apiData := env.toYaml(def);
    if apiData.None? {
      return [], Err(DefinitionEncodeFailed);
    }
    var api := WriteFile(Join(opts.outputDir, DefinitionFile), apiData.value);
    effects := [api];
    if !env.fsOk(api) {
      return effects, Err(DefinitionWriteFailed);
    }
    if env.renderedParams.None? {
      return effects, Err(ParamsFailed);
    }
    var paramsWrite := WriteFile(Join(opts.outputDir, env.paramsFileName), env.renderedParams.value);
    effects := effects + [paramsWrite];
    if !env.fsOk(paramsWrite) {
      return effects, Err(ParamsFailed);
    }
    var readme := WriteFile(Join(opts.outputDir, ReadmeFile), env.readme);
    effects := effects + [readme];
    result := if env.fsOk(readme) then Ok(def) else Err(ReadmeWriteFailed);
  }

  // ---------------------------------------------------------------------
  // `InitCommand.Run`
  // ---------------------------------------------------------------------

  datatype InitOutcome = Aborted(reason: InitAbort) | Initialized(def: Definition)

  /** `InitCommand.Run`: the existence check, the initial-state check, then
      `executeInitCmd`; every failure ends the process. */
  method RunInit(opts: InitOptions, target: TargetStat, validStates: seq<string>, env: InitEnv)
    returns (effects: seq<FsEffect>, outcome: InitOutcome)
    ensures PreflightGate(target, opts.force).Stop? ==>
              effects == [] && outcome == Aborted(PreflightGate(target, opts.force).reason)
    ensures PreflightGate(target, opts.force) == Proceed && opts.initialState != ""
              && opts.initialState !in validStates ==>
              effects == [] && outcome == Aborted(InvalidInitialState)
    ensures PreflightGate(target, opts.force) == Proceed
              && (opts.initialState == "" || opts.initialState in validStates) ==>
              effects == ExecuteInit(opts, env).effects
              && outcome == match ExecuteInit(opts, env).result
                            case Ok(def) => Initialized(def)
                            case Err(e) => Aborted(InitFailed(e))
  {
    var gate := PreflightGate(target, opts.force);
    if gate.Stop? {
      return [], Aborted(gate.reason);
    }
    if opts.initialState != "" {
      var validState := ValidateInitialState(opts.initialState, validStates);
      if !validState {
        return [], Aborted(InvalidInitialState);
      }
    }
    var result;
    effects, result := ExecuteInitCmd(opts, env);
    outcome := match result
               case Ok(def) => Initialized(def)
               case Err(e) => Aborted(InitFailed(e));
  }
}

# apictl `init` and `add api`, modelled in Dafny

This project models two commands of `apictl`, the WSO2 API Manager command-line tool.

- **`apictl init <path>`** scaffolds an API project. It first checks the project path and the `--initial-state` flag. It then works in this order, and the first failure ends it:
  1. it creates the project directory;
  2. it loads the default definition and applies the initial state to it;
  3. it creates the ten sub-directories, in a fixed order;
  4. it writes `Meta-information/swagger.yaml`: either the OpenAPI document (`--oas`), after populating the definition from it, or the embedded default swagger;
  5. it merges an override file (`--definition`) into the definition;
  6. it writes `Meta-information/api.yaml`, the params file and `README.md`.

  So an unreadable default definition leaves the project directory without sub-directories. A failed override leaves `swagger.yaml` already written and no `api.yaml`.
- **`apictl add api`** (Kubernetes mode) issues `kubectl` commands in this order:
  - it creates the swagger configmap `<name>-swagger`;
  - for a project directory, it creates the Ballerina interceptor configmap `<name>-interceptors` when `Interceptors` has an entry, and one configmap per Java interceptor jar under `libs`;
  - it applies the API custom resource that references them.

## How the model is built

The model works on values. Nothing touches a disk or a cluster.

- **External answers are inputs.** What the outside world answers is a parameter:
  - `os.Stat`, `os.Open`, `Readdir` and `filepath.Walk`;
  - whether a `mkdir`, a write or a `kubectl` invocation succeeds (`fsOk`, `exec`);
  - the embedded templates and the user's files;
  - the library functions whose code is not part of this model (`Swagger2Populate`, `EnvSubstitute`, `MergeJSON`, the JSON and YAML codecs), which are opaque functions in `InitEnv`.
- **Effects are logs.** What a command does is the log it returns: `FsEffect`s for `init` and `Command`s for `add api`.
- **Exits are outcomes.** `HandleErrorAndExit` and `os.Exit` become the `Aborted` outcome.

The files and what they model:

- `sequencing.dfy`: `AttemptInOrder`, the pattern "perform the steps in order and stop after the first failure". `createDirectories` and the jar loop of `handleJavaInterceptors` both follow it.
- `paths.dfy`: the parts of `path/filepath` that both commands use (`Join`, `Ext`, `Base`), for slash-separated paths. Substrings are built by `Slice`, which `SliceIsSubsequence` shows to be the ordinary subsequence.
- `json_prefix.dfy`: `hasPrefix` and `hasJSONPrefix` over bytes.
- `init_project.dfy`: `init`, as a specification function plus imperative methods:
  - the specification function `ExecuteInit` is built from four stage functions;
  - the method `ExecuteInitCmd` updates the definition in place, stage by stage, and each stage method is proved equal to its stage function;
  - `RunInit` adds the existence check and the initial-state loop;
  - `createDirectories` reads the package list `dirs`; `CreateDirectories` receives that list (`Dirs`) as a parameter.
- `init_properties.dfy`: what `executeInitCmd` promises, stated over `ExecuteInit`.
- `add_api.dfy`: `add api`.
  - The package variables `balInterceptorsConfName`, `balInterceptors` and `javaInterceptors` are the fields of the class `AddApiCommand`. Its `Run` updates them.
  - The handlers and `createAPI` are methods with results.
  - `ConfigMapCommand` is the command that `createConfigMapWithNamespace` runs; `ConfigMapArgs` is the argument list it hands `kubectl`. That function succeeds exactly when `exec` says the command succeeds.
  - `InterceptorCommands` and `InterceptorsAbort` are the specification of the interceptor part of a run: the creates it issues and whether it ends the process. `ConfigMapsAbort` says whether the configmap part as a whole ends it.
  - `Filled` is the resource `createAPI` builds from the template and its arguments.

Notes on behaviour, following the code:

- **The initial state is applied first.** `init` applies it before population and before the override merge, so either of those can still change the status. The model says which status survives in `InitialStateSurvivesStatusKeepingPopulate`.
- **Population updates the definition in place.** `Swagger2Populate` changes the definition; no merge is involved.
- **A failed stat panics in `init`.** When `os.Stat` on the project path fails for a reason other than "does not exist", the code calls `IsDir` on a nil `FileInfo`. The model records this as the abort `StatPanic`.
- **A failed stat returns quietly in `add api`.** The command prints the error and returns normally (`Returned`).
- **An unusual swagger path still reaches `createAPI`.** When the path is neither a directory nor a regular file (a device or a socket, say), the switch has no matching case, and `createAPI` is still called. The custom resource then names a `<name>-swagger` configmap that this run never created.
- **Regular-file mode uses whatever the package variables hold.** In a fresh process those are their zero values. So the resource has no Java interceptors and keeps the template's Ballerina reference (`RunInFreshProcess`).
- **Jar file names are not de-duplicated.** Two jars with the same file name in different sub-directories of `libs` get the same configmap name (`JarNameIgnoresDirectory`). So the second `kubectl create` is asked to create a configmap that already exists.

## Model

| member | source | states |
|---|---|---|
| Sequencing.AttemptIsPrefix | import-export-cli/cmd/init.go:74-82 | the attempted steps are a prefix of the steps, every attempted step but the last succeeded, nothing after a failing step is attempted, and a run shorter than the list stopped on a failure |
| Sequencing.AttemptFromInOrder | import-export-cli/cmd/init.go:74-82 | a run started at step i attempts the next steps in list order, never more than remain |
| Sequencing.AttemptFromOkBeforeLast | import-export-cli/cmd/init.go:74-82 | a run started at step i succeeded on every attempted step but the last |
| Sequencing.AttemptFromStopsAtFailure | import-export-cli/cmd/init.go:74-82 | a run started at step i attempts nothing after a failing step |
| Sequencing.AttemptFromStopsOnlyOnFailure | import-export-cli/cmd/init.go:74-82 | a run started at step i that stops short of the last step stopped on a failure |
| Sequencing.AttemptedAreSteps | import-export-cli/cmd/init.go:74-82 | only listed steps are ever attempted |
| Sequencing.AllSucceedFrom | import-export-cli/cmd/init.go:74-82 | when every step from i on succeeds, the run from i attempts exactly the remaining steps |
| Sequencing.AllSucceed | import-export-cli/cmd/init.go:74-82 | when every step succeeds, all steps are attempted and the run did not stop |
| Sequencing.FirstFailureFrom | import-export-cli/cmd/init.go:74-82 | when the steps from k to i-1 succeed and step i fails, the run from k attempts exactly steps k..i |
| Sequencing.FirstFailure | import-export-cli/cmd/init.go:74-82 | when the first failure is at index i, exactly steps 0..i are attempted and the run stopped |
| Sequencing.StoppedIffSomeFailure | import-export-cli/cmd/init.go:74-82 | a run stops early exactly when some step fails |
| Sequencing.FailingPrefix | import-export-cli/cmd/addApi.go:238-248 | once the last issued step failed after successes, the attempt is exactly what was issued, whatever would have followed |
| Sequencing.AttemptFromShift | import-export-cli/cmd/addApi.go:88-89 | once the steps of a first block are behind, a run over the two blocks continues as a run over the second block alone |
| Sequencing.CompletedRun | import-export-cli/cmd/addApi.go:238-250 | a run that did not stop on a failure attempted every step, and every step succeeded |
| Sequencing.StoppedAfterSuccess | import-export-cli/cmd/addApi.go:82-89 | after steps whose last one succeeded, the run stopped on a failure exactly when what follows did |
| Sequencing.PrependSucceeded | import-export-cli/cmd/addApi.go:82-89 | a successful create followed by successful creates: every create succeeded |
| Sequencing.AppendStep | import-export-cli/cmd/addApi.go:238-247 | moving one step's commands from what remains to what was issued keeps the whole list |
| Paths.JoinLayout | import-export-cli/cmd/init.go:75 | the joined path ends with the relative part; with an empty directory it is the relative part, and otherwise it starts with the directory, followed by one separator and the relative part |
| Paths.JoinDistinguishesNames | import-export-cli/cmd/init.go:142 | two different file names under one directory give different paths, so the swagger file and `api.yaml` never coincide |
| Paths.SliceIsSubsequence | import-export-cli/cmd/addApi.go:239-241 | the characters taken one at a time from `start` to `end` are the subsequence `path[start..end]` |
| Paths.ExtScanFindsExtension | import-export-cli/cmd/addApi.go:239 | a scan that has seen neither a separator nor a dot yet still ends with an extension of the path |
| Paths.ExtIsExtension | import-export-cli/cmd/addApi.go:239 | the extension is empty or starts with its only dot, has no separator, and is a suffix of the path |
| Paths.JarExtensionIffSuffix | import-export-cli/cmd/addApi.go:239 | a path has extension ".jar" exactly when it ends with ".jar" |
| Paths.StripEnd | import-export-cli/cmd/addApi.go:241 | dropping trailing separators ends at the start or after a character that is not a separator (its value is fixed together with `StripEndDropsOnlySeparators`) |
| Paths.StripEndDropsOnlySeparators | import-export-cli/cmd/addApi.go:241 | only trailing separators are dropped: every character from the end found up to `i` is a separator |
| Paths.ElementStart | import-export-cli/cmd/addApi.go:241 | the last element starts at the start of the path or right after a separator |
| Paths.Base | import-export-cli/cmd/addApi.go:241 | the base name is never empty, and it is "." for the empty path |
| Paths.ElementHasNoSeparator | import-export-cli/cmd/addApi.go:241 | the last element of a path contains no separator |
| Paths.ElementStartAt | import-export-cli/cmd/addApi.go:241 | the last element starts right after the last separator, or at the start of a path without one |
| Paths.ElementStartNoLaterThan | import-export-cli/cmd/addApi.go:241 | the last element starts at `j` or earlier when no separator lies between `j` and the end |
| Paths.BaseOfJoin | import-export-cli/cmd/addApi.go:241 | under a non-empty directory, the base name of a separator-free file name is that file name |
| Paths.JarSuffixChars | import-export-cli/cmd/addApi.go:239 | a path ending in ".jar" ends in a dot, 'j', 'a' and 'r' |
| Paths.BaseIsLastElement | import-export-cli/cmd/addApi.go:241 | for a non-empty path without a trailing separator, the base name is the path from its last element's start on |
| Paths.BaseOfJarShape | import-export-cli/cmd/addApi.go:241 | the base name of a jar path ends with ".jar" and has no separator |
| Paths.BaseOfJar | import-export-cli/cmd/addApi.go:241 | the base name of a jar path is its last element, from the start found by `ElementStart` to the end: a separator-free name ending in ".jar" |
| JsonPrefix.FirstNonSpace | import-export-cli/cmd/init.go:114 | the index found is the first non-whitespace byte from the starting point on: every byte before it is whitespace, and it is the end of the buffer or a non-whitespace byte |
| JsonPrefix.TrimLeftSpace | import-export-cli/cmd/init.go:114 | the result is a suffix of the buffer, everything dropped is whitespace, and the result does not start with whitespace |
| JsonPrefix.HasPrefix | import-export-cli/cmd/init.go:113-116 | a match needs at least as many bytes as the prefix, and a prefix that starts with whitespace never matches (`HasPrefixAt` states exactly when it holds) |
| JsonPrefix.HasJsonPrefix | import-export-cli/cmd/init.go:108-110 | true exactly when the first non-whitespace byte is `{` |
| JsonPrefix.FirstNonSpaceAt | import-export-cli/cmd/init.go:114 | an index with only whitespace before it and no whitespace at it is the first non-whitespace index |
| JsonPrefix.HasPrefixAt | import-export-cli/cmd/init.go:113-116 | with k the index of the first non-whitespace byte, `hasPrefix` holds exactly when the prefix occurs at k |
| JsonPrefix.LeadingWhitespaceIrrelevant | import-export-cli/cmd/init.go:113-116 | prepending whitespace changes neither the trimmed buffer nor the answer |
| JsonPrefix.BlankBufferIsNotJson | import-export-cli/cmd/init.go:108-116 | an empty or all-whitespace buffer trims to nothing and is not JSON |
| InitProject.PreflightGate | import-export-cli/cmd/init.go:312-323 | the command proceeds exactly when the path does not exist or is a directory and `--force` is given; a file, an unforced directory and a failed stat each stop it with their own reason |
| InitProject.ValidateInitialState | import-export-cli/cmd/init.go:326-333 | the flag loop finds the state exactly when it is one of the valid states |
| InitProject.MkdirsUnder | import-export-cli/cmd/init.go:73-76 | one `MkdirAll` per listed directory |
| InitProject.CreateDirectories | import-export-cli/cmd/init.go:73-83 | the directories attempted are `AttemptInOrder` of one `MkdirAll` per entry of the list, in list order, and the result reports a failure exactly when the attempt stopped on one |
| InitProject.ApplyInitialState | import-export-cli/cmd/init.go:168-171 | a non-empty state replaces the status, an empty one keeps it, and nothing else changes |
| InitProject.ClearUrlsForEndpointConfig | import-export-cli/cmd/init.go:193-196 | with an endpoint configuration both URLs are empty afterwards; without one the definition is unchanged |
| InitProject.ExecuteInitCmd | import-export-cli/cmd/init.go:140-299 | the in-place run produces exactly the effects and the result of `ExecuteInit` |
| InitProject.PrepareProject | import-export-cli/cmd/init.go:141-176 | the output directory, the default definition with the initial state, and the layout, as the `Prepare` stage |
| InitProject.WriteSwagger | import-export-cli/cmd/init.go:178-217 | population, URL clearing and the swagger artifact, or the default swagger, as the `SwaggerStage` stage |
| InitProject.MergeOverride | import-export-cli/cmd/init.go:219-266 | read, substitute, parse, encode both, merge and decode, failing at the first error, as the `OverrideStage` stage |
| InitProject.WriteProjectFiles | import-export-cli/cmd/init.go:268-298 | `api.yaml`, the params file and the README, in that order, stopping at the first failure, as the `WriteStage` stage |
| InitProject.RunInit | import-export-cli/cmd/init.go:307-346 | a failed existence check or an invalid non-empty initial state aborts before any filesystem effect; otherwise the effects and the outcome are those of `executeInitCmd` |
| InitProperties.DirectoriesAttemptedInListOrder | import-export-cli/cmd/init.go:59-83 | the i-th attempted `MkdirAll` is for the i-th listed directory; all ten are attempted unless one fails, and the run stops exactly when some directory fails |
| InitProperties.DefaultAndStateOnly | import-export-cli/cmd/init.go:163-171 | without `--oas` and `--definition` the result is the default definition with the initial state; an empty state keeps the default status |
| InitProperties.PopulateSeesInitialState | import-export-cli/cmd/init.go:168-196 | population receives the definition that already carries the initial state, and the result is its output with the URLs cleared |
| InitProperties.InitialStateSurvivesStatusKeepingPopulate | import-export-cli/cmd/init.go:168-196 | without an override, a non-empty initial state is the final status whenever population keeps the status |
| InitProperties.SwaggerStageKeepsEndpointInvariant | import-export-cli/cmd/init.go:188-196 | after the OpenAPI stage, a definition with an endpoint configuration has both URLs empty |
| InitProperties.EndpointInvariantWithoutOverride | import-export-cli/cmd/init.go:178-217 | without an override, a resulting definition with an endpoint configuration has both URLs empty |
| InitProperties.OverrideStageMerges | import-export-cli/cmd/init.go:220-265 | a successful override is the decode of `MergeJSON(encode(current), encode(override))`, with the override parsed from the substituted text |
| InitProperties.WriteStageKeepsDefinition | import-export-cli/cmd/init.go:268-298 | the final writes leave the definition as it is, and the first of them writes its YAML to `api.yaml` |
| InitProperties.OverrideIsMergedLast | import-export-cli/cmd/init.go:219-266 | with an override, the final definition is the override stage applied to the definition the OpenAPI stage produced |
| InitProperties.EarlyStagesIgnoreMerge | import-export-cli/cmd/init.go:140-217 | no stage other than the override consults `MergeJSON` |
| InitProperties.SubstitutionFailureStopsBeforeMerge | import-export-cli/cmd/init.go:230-235 | a failed substitution makes the command fail with that error, never consults `MergeJSON`, and never writes `api.yaml` |
| InitProperties.PrepareWritesNoDefinition | import-export-cli/cmd/init.go:144-176 | the first stage only creates directories |
| InitProperties.SwaggerStageWritesNoDefinition | import-export-cli/cmd/init.go:178-217 | the OpenAPI stage writes only `Meta-information/swagger.yaml` |
| InitProperties.DefinitionFileHoldsFinalDefinition | import-export-cli/cmd/init.go:268-279 | on success, `api.yaml` was written with the YAML form of the final definition |
| AddApi.JarsFrom | import-export-cli/cmd/addApi.go:238-239 | no more jars are selected than paths remain to be walked |
| AddApi.NamesStep | import-export-cli/cmd/addApi.go:238-241 | one more walked path extends the collected names by its configmap name if it is a jar, and by nothing otherwise |
| AddApi.CommandsStep | import-export-cli/cmd/addApi.go:238-243 | one more walked path extends the issued creates by its configmap create if it is a jar, and by nothing otherwise |
| AddApi.JavaStep | import-export-cli/cmd/addApi.go:238-247 | looking at one more walked path keeps the loop invariant: a jar appends its name and its create, any other path appends nothing |
| AddApi.JavaStopsAtFailure | import-export-cli/cmd/addApi.go:243-246 | after a failed create, what was issued is exactly the in-order attempt of all creates, stopped by that failure |
| AddApi.JavaCompletes | import-export-cli/cmd/addApi.go:238-250 | a loop that ends without a failure has collected every name and issued every create, all of which succeeded |
| AddApi.HandleJavaInterceptors | import-export-cli/cmd/addApi.go:218-251 | an unopenable `libs` aborts with no command; otherwise the creates are `AttemptInOrder` of one create per jar in walk order, the handler aborts exactly when one fails, and when none fails it returns one name per jar, in the same order |
| AddApi.JarsFromSelectJars | import-export-cli/cmd/addApi.go:238-239 | a path is selected exactly when it was walked and has extension ".jar" |
| AddApi.JarsFromShift | import-export-cli/cmd/addApi.go:231-239 | past the end of `a`, the jars selected from `a + b` are those selected from `b` |
| AddApi.JarPathsFollowWalkOrder | import-export-cli/cmd/addApi.go:231-239 | selection follows walk order: the jars of `a + b` are the jars of `a` followed by those of `b` |
| AddApi.MapJarsFollowsJars | import-export-cli/cmd/addApi.go:238-244 | mapping a function over the selected jars gives, at position k, its value on the k-th jar |
| AddApi.NamesAreMapped | import-export-cli/cmd/addApi.go:240-241 | the names are the configmap name `<name>-<base>` of each selected jar, in walk order |
| AddApi.CommandsAreMapped | import-export-cli/cmd/addApi.go:240-243 | the commands are the configmap create of each selected jar, in walk order |
| AddApi.NamesMatchCommands | import-export-cli/cmd/addApi.go:240-244 | the k-th name is `<name>-<base of the k-th jar>`, and the k-th command creates that configmap from that jar |
| AddApi.JavaCommandsAreCreates | import-export-cli/cmd/addApi.go:243 | every Java interceptor command is a configmap create |
| AddApi.LibsRootIsNotJar | import-export-cli/cmd/addApi.go:222-239 | the walk's root `<path>/libs` never has extension ".jar" |
| AddApi.LibsRootSkipped | import-export-cli/cmd/addApi.go:222-243 | when the walk visits `<path>/libs` first, the jars, the names and the creates are those of the paths after it |
| AddApi.JarNameIgnoresDirectory | import-export-cli/cmd/addApi.go:241 | a jar's configmap name depends only on its file name, so jars with the same file name in different directories share a name |
| AddApi.ConfigMapCommand | import-export-cli/cmd/addApi.go:111-120 | the command is a configmap command whose `kubectl` arguments are the operation, "configmap", the name, "--from-file", the file and "-n" with the namespace |
| AddApi.ConfigMapArgsIdentifyCommand | import-export-cli/cmd/addApi.go:112-120 | two configmap commands get the same `kubectl` arguments exactly when they are the same command |
| AddApi.InterceptorsAbortIffStopped | import-export-cli/cmd/addApi.go:86-89 | the interceptor part ends the process exactly when `Interceptors` cannot be opened, `libs` cannot be opened, or its last create failed |
| AddApi.InterceptorsComplete | import-export-cli/cmd/addApi.go:86-89 | when the interceptor part does not end the process, it issued the Ballerina create (if any) and every Java create, and all of them succeeded |
| AddApi.InterceptorsAttemptInOrder | import-export-cli/cmd/addApi.go:86-89 | once `Interceptors` opens and `libs` opens, the Ballerina create and the Java creates form one run that stops at its first failure |
| AddApi.HandleBalInterceptors | import-export-cli/cmd/addApi.go:194-216 | an unopenable `Interceptors` directory aborts with no command; an empty one gives "" and no command; otherwise one create for the directory, aborting if it fails and returning the configmap name if it succeeds |
| AddApi.FilledIgnoresTemplate | import-export-cli/cmd/addApi.go:141-159 | with a timestamp and a Ballerina reference given, every field of the built resource comes from the arguments, whatever the template holds |
| AddApi.CreateApi | import-export-cli/cmd/addApi.go:132-192 | a template that does not unmarshal aborts; otherwise the resource is `Filled` from the template: name, namespace, swagger configmap, replicas and override are the arguments, the timestamp and the Ballerina reference change only when non-empty, the Java list is the argument, and a manifest that marshals is applied once (abort otherwise) |
| AddApi.AddApiCommand.constructor | import-export-cli/cmd/addApi.go:51-53 | the package variables start empty |
| AddApi.AddApiCommand.Run | import-export-cli/cmd/addApi.go:61-107 | wrong mode or a missing name or path aborts, and a failed stat returns, both with no command and no state change, and only a failed stat returns; past those checks the run completes exactly when `ConfigMapsAbort` does not hold, the template unmarshals and the `Filled` resource marshals, and that resource is the one applied; the swagger create comes first and its failure ends the run; an aborted run issues no apply and leaves exactly the creates made up to the failure (none for an unusual path, the swagger create for a file, the swagger create and `InterceptorCommands` for a directory); for a directory, a failed swagger create or `InterceptorsAbort` always aborts; a completed run ends with its only apply, after successful creates, and the resource carries the flags and the current interceptor references; a directory sets those references from its contents; any other path leaves them unchanged |
| AddApi.AddApiCommand.CreateConfigMaps | import-export-cli/cmd/addApi.go:69-98 | it aborts exactly when `ConfigMapsAbort` holds; the swagger configmap comes from `<dir>/Meta-information/swagger.yaml` or from the file itself; a file issues that create alone and aborts exactly when it fails; a directory follows a successful create with `InterceptorCommands` and aborts exactly when the create fails or `InterceptorsAbort` holds; any other kind of path creates nothing and changes nothing; without an abort every create succeeded |
| AddApi.AddApiCommand.CreateProjectConfigMaps | import-export-cli/cmd/addApi.go:77-89 | the swagger create from `<dir>/Meta-information/swagger.yaml`, then, if it succeeds, exactly `InterceptorCommands`; aborts exactly when the create fails or `InterceptorsAbort` holds; without an abort the references are recorded and every create succeeded |
| AddApi.AddApiCommand.HandleInterceptors | import-export-cli/cmd/addApi.go:86-89 | names the Ballerina configmap `<name>-interceptors`; issues exactly `InterceptorCommands` and aborts exactly when `InterceptorsAbort` holds; an abort keeps the Java references; when nothing aborts, records the Ballerina reference (set only when the directory has an entry) and the Java names, after the Ballerina create and the Java creates, all successful |
| AddApi.RunInFreshProcess | import-export-cli/cmd/addApi.go:51-107 | the command log of `Run`: wrong mode or a missing name or path aborts with no command, and a failed stat returns with none; the swagger create comes first and its failure ends the run; an aborted run leaves exactly the creates made up to the failure and no apply; a completed run issues the swagger create, for a directory the Ballerina and Java creates, all successful, and then its only apply; only a failed stat returns; past the checks a fresh run completes exactly when `ConfigMapsAbort` does not hold, the template unmarshals and the resource `Filled` with the fresh references (those of a project directory, or the zero values) marshals, and that resource is applied; in a fresh process a single swagger file yields a resource with no Java interceptors and the template's Ballerina reference, while a directory yields the names of its jars and `<name>-interceptors` exactly when `Interceptors` has an entry |

## Left out

- Cobra command and flag wiring, and help and example strings (import-export-cli/cmd/init.go:301-306, 349-358; addApi.go:38-50, 54-60, 253-260). This is CLI glue.
- Printing and logging (`fmt.Println`, `utils.Logln`). They have no effect on the model's state.
- Real filesystem and process effects. They are parameters (`fsOk`, `exec`, `TargetStat`, `PathKind`, `DirProbe`, `libsOpens`, `libsWalk`) and effect logs.
- `filepath.Abs` and `os.Getwd` are one success flag, `workingDirOk`. The resolved directory is only printed.
- `loadDefaultSpecFromDisk`, `loads.Spec`, `Swagger2Populate`, `JsonToYaml`, `EnvSubstitute`, `MergeJSON`, the YAML and JSON codecs and the embedded `box` assets are opaque functions or values. Their code is not part of this model, so no merge or substitution behaviour is invented.
- `scaffoldParams` is one write of an already rendered template. A template execution that fails after `os.Create` leaves a partly written file, and this is not modelled.
- `utils.ValidInitialStates`, `DefaultAPIMParamsFileName` and `GetMainConfigFromFile` are defined outside this model. They are parameters: `validStates`, `paramsFileName` and `kubernetesMode`. `k8sUtils.K8sCreate` is taken as "create", the operation the interceptor calls at import-export-cli/cmd/addApi.go:88-89 pass.
- The error values given to `HandleErrorAndExit` are not modelled, only that the process exits. Some of those calls pass a stale or nil `err` (import-export-cli/cmd/addApi.go:84, 96, 211, 245).
- The temporary manifest file of `createAPI` (import-export-cli/cmd/addApi.go:165-176) is not modelled, and neither is its `log.Fatal`. The manifest is represented by the resource it holds.
- The error branch after `filepath.Walk` (import-export-cli/cmd/addApi.go:235-237) is not modelled. The walk callback always returns nil, so that branch is never taken. The walk itself is the parameter `libsWalk`.
- Go's Unicode `IsSpace` table is not modelled. Whitespace is its ASCII part (tab, line feed, vertical tab, form feed, carriage return, space).
- The project path of `handleJavaInterceptors` is not a parameter of `HandleJavaInterceptors`. The directory `<path>/libs` is seen only through `libsOpens` and the walk `libsWalk`. That the walk starts at `<path>/libs` is the hypothesis of `LibsRootSkipped`, not something the model derives.
- Lexical cleaning in `filepath.Join` and `filepath.FromSlash` is not modelled. Paths are slash-separated, and `Join` does not remove duplicate separators.
- The API definition is reduced to status, production URL, sandbox URL and endpoint configuration. The custom resource is reduced to the fields `createAPI` sets.
- JarsFrom: its own contract gives only a length bound. Which paths it selects, and in which order, is stated by JarsFromSelectJars and JarPathsFollowWalkOrder; the names and creates built from it are stated by NamesMatchCommands.
- StripEnd: its own contract does not say that only separators are dropped. `StripEndDropsOnlySeparators` states it, as a separate lemma so that every use of `Base` does not carry the quantifier.
- MkdirsUnder: its own contract gives only the count. The directory of each effect is stated by DirectoriesAttemptedInListOrder.
- AddApi.AddApiCommand.HandleInterceptors: on an abort it does not state what `balInterceptors` then holds. The process exits, so that variable is never read again.

/**
 * The `add api` command in Kubernetes mode: a configmap for the swagger
 * definition, optional configmaps for Ballerina and Java interceptors, and one
 * `kubectl apply` of the API custom resource that references them by name.
 *
 * Each `kubectl` invocation is a `Command` in the log the run returns; whether
 * it succeeds is the parameter `exec`. Filesystem facts (what `os.Stat`,
 * `os.Open`, `Readdir` and `filepath.Walk` report) are parameters too.
 */
module AddApi {
  import opened Outcomes
  import opened Sequencing
  import opened Paths

  // ---------------------------------------------------------------------
  // The custom resource
  // ---------------------------------------------------------------------

  datatype Interceptors = Interceptors(ballerina: string, java: seq<string>)

  datatype DefinitionRef = DefinitionRef(swaggerConfigmapName: string, interceptors: Interceptors)

  datatype ApiSpec = ApiSpec(definition: DefinitionRef, replicas: int, override: bool, updateTimeStamp: string)

  /** The API custom resource, reduced to the fields this command sets. */
  datatype ApiResource = ApiResource(name: string, namespace: string, spec: ApiSpec)

  // ---------------------------------------------------------------------
  // Commands handed to the cluster
  // ---------------------------------------------------------------------

  /** `kubectl <operation> configmap <name> --from-file <source> -n <namespace>`
      and `kubectl apply -f <manifest file> -n <namespace>`; the manifest file
      is represented by the resource it holds. */
  datatype Command =
    | CreateConfigMap(operation: string, name: string, source: string, namespace: string)
    | Apply(manifest: ApiResource, namespace: string)

  /** The operation passed to `kubectl` for every configmap of this command. */
  const K8sCreate: string := "create"

  const SwaggerSuffix: string := "-swagger"
  const InterceptorsSuffix: string := "-interceptors"
  const SwaggerInProject: string := "Meta-information/swagger.yaml"
  const InterceptorsDir: string := "Interceptors"
  const LibsDir: string := "libs"

  /** The arguments `kubectl` receives for a configmap command. */
  function ConfigMapArgs(c: Command): seq<string>
    requires c.CreateConfigMap?
  {
    [c.operation, "configmap", c.name, "--from-file", c.source, "-n", c.namespace]
  }

  /** `createConfigMapWithNamespace`: the command it runs, with the operation
      first, then the configmap name, the file it is built from and the
      namespace. */
  function ConfigMapCommand(name: string, filePath: string, namespace: string, operation: string): (c: Command)
    ensures c.CreateConfigMap?
    ensures ConfigMapArgs(c) == [operation, "configmap", name, "--from-file", filePath, "-n", namespace]
  {
    CreateConfigMap(operation, name, filePath, namespace)
  }

  /** The argument list identifies the configmap command: two commands that
      hand `kubectl` the same arguments are the same command. */
  lemma ConfigMapArgsIdentifyCommand(c: Command, d: Command)
    requires c.CreateConfigMap? && d.CreateConfigMap?
    ensures ConfigMapArgs(c) == ConfigMapArgs(d) <==> c == d
  {
    if ConfigMapArgs(c) == ConfigMapArgs(d) {
      assert ConfigMapArgs(c)[0] == ConfigMapArgs(d)[0];
      assert ConfigMapArgs(c)[2] == ConfigMapArgs(d)[2];
      assert ConfigMapArgs(c)[4] == ConfigMapArgs(d)[4];
      assert ConfigMapArgs(c)[6] == ConfigMapArgs(d)[6];
    }
  }

  // ---------------------------------------------------------------------
  // Java interceptors: selection and naming
  // ---------------------------------------------------------------------

  /** A walked path is a Java interceptor when its extension is ".jar". */
  predicate IsJar(path: string) {
    Ext(path) == JarExtension
  }

  /** The jars among `walked[i..]`, in walk order. */
  function JarsFrom(walked: seq<string>, i: nat): (jars: seq<string>)
    requires i <= |walked|
    ensures |jars| <= |walked| - i
    decreases |walked| - i
  {
    if i == |walked| then []
    else (if IsJar(walked[i]) then [walked[i]] else []) + JarsFrom(walked, i + 1)
  }

  /** The walked paths that are jars, in walk order. */
  function JarPaths(walked: seq<string>): seq<string> {
    JarsFrom(walked, 0)
  }

  /** The configmap name of one jar: `<api name>-<base name>`. */
  function JavaConfigMapName(apiName: string, jarPath: string): string {
    apiName + "-" + Base(jarPath)
  }

  /** The configmap create for one jar. */
  function JarCommand(operation: string, namespace: string, apiName: string, jarPath: string): Command {
    ConfigMapCommand(JavaConfigMapName(apiName, jarPath), jarPath, namespace, operation)
  }

  /** The configmap names of the jars among `walked[i..]`, in walk order. */
  function NamesFrom(apiName: string, walked: seq<string>, i: nat): (names: seq<string>)
    requires i <= |walked|
    decreases |walked| - i
  {
    if i == |walked| then []
    else (if IsJar(walked[i]) then [JavaConfigMapName(apiName, walked[i])] else []) + NamesFrom(apiName, walked, i + 1)
  }

  /** The configmap creates for the jars among `walked[i..]`, in walk order. */
  function CommandsFrom(operation: string, namespace: string, apiName: string, walked: seq<string>, i: nat): (cmds: seq<Command>)
    requires i <= |walked|
    decreases |walked| - i
  {
    if i == |walked| then []
    else (if IsJar(walked[i]) then [JarCommand(operation, namespace, apiName, walked[i])] else [])
         + CommandsFrom(operation, namespace, apiName, walked, i + 1)
  }

  /** The configmap names of all walked jars. */
  function JavaConfigMapNames(apiName: string, walked: seq<string>): seq<string> {
    NamesFrom(apiName, walked, 0)
  }

  /** The configmap creates for all walked jars. */
  function JavaCommands(operation: string, namespace: string, apiName: string, walked: seq<string>): seq<Command> {
    CommandsFrom(operation, namespace, apiName, walked, 0)
  }

  /** After the loop of `handleJavaInterceptors` has looked at `walked[..i]`:
      the names and commands so far, followed by those still to come, are
      those of the whole walk. */
  ghost predicate JavaProgress(operation: string, namespace: string, apiName: string, walked: seq<string>,
                               i: nat, names: seq<string>, issued: seq<Command>)
  {
    i <= |walked|
    && names + NamesFrom(apiName, walked, i) == JavaConfigMapNames(apiName, walked)
    && issued + CommandsFrom(operation, namespace, apiName, walked, i) == JavaCommands(operation, namespace, apiName, walked)
  }

  /** One more walked path extends the configmap names by its own, if any. */
  lemma NamesStep(apiName: string, walked: seq<string>, i: nat, names: seq<string>)
    requires i < |walked| && names + NamesFrom(apiName, walked, i) == JavaConfigMapNames(apiName, walked)
    ensures (names + (if IsJar(walked[i]) then [JavaConfigMapName(apiName, walked[i])] else []))
            + NamesFrom(apiName, walked, i + 1) == JavaConfigMapNames(apiName, walked)
  {
    AppendStep(names, if IsJar(walked[i]) then [JavaConfigMapName(apiName, walked[i])] else [],
               NamesFrom(apiName, walked, i + 1), JavaConfigMapNames(apiName, walked));
  }

  /** One more walked path extends the configmap creates by its own, if any. */
  lemma CommandsStep(operation: string, namespace: string, apiName: string, walked: seq<string>,
                     i: nat, issued: seq<Command>)
    requires i < |walked|
    requires issued + CommandsFrom(operation, namespace, apiName, walked, i) == JavaCommands(operation, namespace, apiName, walked)
    ensures (issued + (if IsJar(walked[i]) then [JarCommand(operation, namespace, apiName, walked[i])] else []))
            + CommandsFrom(operation, namespace, apiName, walked, i + 1) == JavaCommands(operation, namespace, apiName, walked)
  {
    AppendStep(issued, if IsJar(walked[i]) then [JarCommand(operation, namespace, apiName, walked[i])] else [],
               CommandsFrom(operation, namespace, apiName, walked, i + 1), JavaCommands(operation, namespace, apiName, walked));
  }

  /** Looking at one more walked path keeps the progress invariant: a jar
      appends its name and its create, anything else appends nothing. */
  lemma JavaStep(operation: string, namespace: string, apiName: string, walked: seq<string>,
                 i: nat, names: seq<string>, issued: seq<Command>)
    requires i < |walked| && JavaProgress(operation, namespace, apiName, walked, i, names, issued)
    ensures IsJar(walked[i]) ==>
              JavaProgress(operation, namespace, apiName, walked, i + 1,
                           names + [JavaConfigMapName(apiName, walked[i])],
                           issued + [JarCommand(operation, namespace, apiName, walked[i])])
    ensures !IsJar(walked[i]) ==> JavaProgress(operation, namespace, apiName, walked, i + 1, names, issued)
  {
    NamesStep(apiName, walked, i, names);
    CommandsStep(operation, namespace, apiName, walked, i, issued);
    if !IsJar(walked[i]) {
      assert names + [] == names;
      assert issued + [] == issued;
    }
  }

  /** A failed create ends the walk: what was issued is exactly the attempt. */
  lemma JavaStopsAtFailure(operation: string, namespace: string, apiName: string, walked: seq<string>,
                           i: nat, names: seq<string>, issued: seq<Command>, exec: Command -> bool)
    requires JavaProgress(operation, namespace, apiName, walked, i, names, issued)
    requires issued != [] && !exec(issued[|issued| - 1])
    requires forall j :: 0 <= j < |issued| - 1 ==> exec(issued[j])
    ensures issued == AttemptInOrder(JavaCommands(operation, namespace, apiName, walked), exec)
    ensures StoppedByFailure(issued, exec)
  {
    FailingPrefix(issued, CommandsFrom(operation, namespace, apiName, walked, i), exec);
  }

  /** A walk that ends without a failure issued every create. */
  lemma JavaCompletes(operation: string, namespace: string, apiName: string, walked: seq<string>,
                      names: seq<string>, issued: seq<Command>, exec: Command -> bool)
    requires JavaProgress(operation, namespace, apiName, walked, |walked|, names, issued)
    requires forall j :: 0 <= j < |issued| ==> exec(issued[j])
    ensures names == JavaConfigMapNames(apiName, walked)
    ensures issued == JavaCommands(operation, namespace, apiName, walked)
    ensures issued == AttemptInOrder(issued, exec) && !StoppedByFailure(issued, exec)
  {
    AllSucceed(issued, exec);
  }

  /** `handleJavaInterceptors`: opens `<path>/libs`, walks it, and creates one
      configmap per jar in walk order, exiting on the first failure. The
      directory is seen only through what opening it (`libsOpens`) and walking
      it (`walked`) report; `LibsRootSkipped` covers the walk's first entry,
      the directory itself. */
  method HandleJavaInterceptors(operation: string, namespace: string, apiName: string,
                                libsOpens: bool, walked: seq<string>, exec: Command -> bool)
    returns (names: seq<string>, issued: seq<Command>, aborted: bool)
    ensures !libsOpens ==> aborted && issued == []
    ensures libsOpens ==> issued == AttemptInOrder(JavaCommands(operation, namespace, apiName, walked), exec)
    ensures libsOpens ==> aborted == StoppedByFailure(issued, exec)
    ensures !aborted ==> names == JavaConfigMapNames(apiName, walked)
    ensures !aborted ==> issued == JavaCommands(operation, namespace, apiName, walked)
                         && forall j :: 0 <= j < |issued| ==> exec(issued[j])
  {
    names, issued := [], [];
    if !libsOpens {
      return names, issued, true;
    }
    for i := 0 to |walked|
      invariant JavaProgress(operation, namespace, apiName, walked, i, names, issued)
      invariant forall j :: 0 <= j < |issued| ==> exec(issued[j])
    {
      JavaStep(operation, namespace, apiName, walked, i, names, issued);
      var filePath := walked[i];
      if IsJar(filePath) {
        var name := JavaConfigMapName(apiName, filePath);
        var cmd := ConfigMapCommand(name, filePath, namespace, operation);
        names := names + [name];
        issued := issued + [cmd];
        if !exec(cmd) {
          JavaStopsAtFailure(operation, namespace, apiName, walked, i + 1, names, issued, exec);
          return names, issued, true;
        }
      }
    }
    JavaCompletes(operation, namespace, apiName, walked, names, issued, exec);
    aborted := false;
  }

  /** Exactly the paths of `walked[i..]` with extension ".jar" are selected. */
  lemma {:induction false} JarsFromSelectJars(walked: seq<string>, i: nat)
    requires i <= |walked|
    ensures forall p :: p in JarsFrom(walked, i) <==> p in walked[i..] && IsJar(p)
    decreases |walked| - i
  {
    if i < |walked| {
      JarsFromSelectJars(walked, i + 1);
      assert walked[i..] == [walked[i]] + walked[i + 1..];
    }
  }

  /** Past the end of `a`, selection on `a + b` is selection on `b`. */
  lemma {:induction false} JarsFromShift(a: seq<string>, b: seq<string>, j: nat)
    requires j <= |b|
    ensures JarsFrom(a + b, |a| + j) == JarsFrom(b, j)
    decreases |b| - j
  {
    if j < |b| {
      JarsFromShift(a, b, j + 1);
      assert (a + b)[|a| + j] == b[j];
    }
  }

  /** Selection follows walk order: walking `a` and then `b` selects the jars
      of `a[i..]` followed by the jars of `b`. */
  lemma {:induction false} JarPathsFollowWalkOrder(a: seq<string>, b: seq<string>, i: nat)
    requires i <= |a|
    ensures JarsFrom(a + b, i) == JarsFrom(a, i) + JarPaths(b)
    decreases |a| - i
  {
    if i < |a| {
      JarPathsFollowWalkOrder(a, b, i + 1);
      assert (a + b)[i] == a[i];
      var head := if IsJar(a[i]) then [a[i]] else [];
      assert head + (JarsFrom(a, i + 1) + JarPaths(b)) == (head + JarsFrom(a, i + 1)) + JarPaths(b);
    } else {
      JarsFromShift(a, b, 0);
    }
  }

  /** `f` applied to each jar among `walked[i..]`, in walk order: the shape
      shared by the names and the creates of the jar loop. */
  function MapJarsFrom<T>(walked: seq<string>, i: nat, f: string -> T): seq<T>
    requires i <= |walked|
    decreases |walked| - i
  {
    if i == |walked| then []
    else (if IsJar(walked[i]) then [f(walked[i])] else []) + MapJarsFrom(walked, i + 1, f)
  }

  /** The k-th mapped element is `f` of the k-th selected jar. */
  lemma {:induction false} MapJarsFollowsJars<T>(walked: seq<string>, i: nat, f: string -> T)
    requires i <= |walked|
    ensures var jars := JarsFrom(walked, i);
            && |MapJarsFrom(walked, i, f)| == |jars|
            && forall k :: 0 <= k < |jars| ==> MapJarsFrom(walked, i, f)[k] == f(jars[k])
    decreases |walked| - i
  {
    if i < |walked| {
      MapJarsFollowsJars(walked, i + 1, f);
      var jars, restJars := JarsFrom(walked, i), JarsFrom(walked, i + 1);
      var mapped, restMapped := MapJarsFrom(walked, i, f), MapJarsFrom(walked, i + 1, f);
      if IsJar(walked[i]) {
        assert jars == [walked[i]] + restJars;
        assert mapped == [f(walked[i])] + restMapped;
        forall k | 1 <= k < |jars|
          ensures mapped[k] == f(jars[k])
        {
          assert jars[k] == restJars[k - 1];
          assert mapped[k] == restMapped[k - 1];
        }
      }
    }
  }

  /** The names from `walked[i..]` are the configmap names of the jars there. */
  lemma {:induction false} NamesAreMapped(apiName: string, walked: seq<string>, i: nat)
    requires i <= |walked|
    ensures NamesFrom(apiName, walked, i) == MapJarsFrom(walked, i, p => JavaConfigMapName(apiName, p))
    decreases |walked| - i
  {
    if i < |walked| {
      NamesAreMapped(apiName, walked, i + 1);
    }
  }

  /** The commands from `walked[i..]` are the creates of the jars there. */
  lemma {:induction false} CommandsAreMapped(operation: string, namespace: string, apiName: string, walked: seq<string>, i: nat)
    requires i <= |walked|
    ensures CommandsFrom(operation, namespace, apiName, walked, i)
            == MapJarsFrom(walked, i, p => JarCommand(operation, namespace, apiName, p))
    decreases |walked| - i
  {
    if i < |walked| {
      CommandsAreMapped(operation, namespace, apiName, walked, i + 1);
    }
  }

  /** The k-th name and the k-th command both belong to the k-th walked jar:
      the command creates, from that jar, the configmap of that name. */
  lemma NamesMatchCommands(operation: string, namespace: string, apiName: string, walked: seq<string>)
    ensures var jars := JarPaths(walked);
            && |JavaConfigMapNames(apiName, walked)| == |jars|
            && |JavaCommands(operation, namespace, apiName, walked)| == |jars|
            && forall k :: 0 <= k < |jars| ==>
                 JavaConfigMapNames(apiName, walked)[k] == JavaConfigMapName(apiName, jars[k])
                 && JavaCommands(operation, namespace, apiName, walked)[k]
                    == CreateConfigMap(operation, JavaConfigMapName(apiName, jars[k]), jars[k], namespace)
  {
    NamesAreMapped(apiName, walked, 0);
    MapJarsFollowsJars(walked, 0, p => JavaConfigMapName(apiName, p));
    CommandsAreMapped(operation, namespace, apiName, walked, 0);
    MapJarsFollowsJars(walked, 0, p => JarCommand(operation, namespace, apiName, p));
  }

  /** Every Java interceptor command creates a configmap. */
  lemma {:induction false} JavaCommandsAreCreates(operation: string, namespace: string, apiName: string, walked: seq<string>, i: nat)
    requires i <= |walked|
    ensures forall c :: c in CommandsFrom(operation, namespace, apiName, walked, i) ==> c.CreateConfigMap?
    decreases |walked| - i
  {
    if i < |walked| {
      JavaCommandsAreCreates(operation, namespace, apiName, walked, i + 1);
    }
  }

  /** The walk's root `<path>/libs` is never taken for a jar. */
  lemma LibsRootIsNotJar(path: string)
    ensures !IsJar(Join(path, LibsDir))
  {
    var root := Join(path, LibsDir);
    JoinLayout(path, LibsDir);
    JarExtensionIffSuffix(root);
    assert root[|root| - 1] == LibsDir[3] == 's';
    assert !EndsWith(root, JarExtension) by {
      assert root[|root| - |JarExtension| + 3] != JarExtension[3];
    }
  }

  /** `filepath.Walk` visits the root `<path>/libs` first; that visit adds no
      jar, no configmap name and no command. */
  lemma LibsRootSkipped(operation: string, namespace: string, apiName: string, path: string, walked: seq<string>)
    requires walked != [] && walked[0] == Join(path, LibsDir)
    ensures JarPaths(walked) == JarsFrom(walked, 1)
    ensures JavaConfigMapNames(apiName, walked) == NamesFrom(apiName, walked, 1)
    ensures JavaCommands(operation, namespace, apiName, walked) == CommandsFrom(operation, namespace, apiName, walked, 1)
  {
    LibsRootIsNotJar(path);
  }

  /** A jar's configmap name depends only on its file name, not on the
      directory it sits in; two jars with the same file name in different
      sub-directories of `libs` get the same configmap name. */
  lemma JarNameIgnoresDirectory(apiName: string, dir: string, file: string)
    requires dir != "" && Separator !in file && EndsWith(file, JarExtension)
    ensures JavaConfigMapName(apiName, Join(dir, file)) == apiName + "-" + file
  {
    assert file[|file| - |JarExtension| + 3] == JarExtension[3];
    BaseOfJoin(dir, file);
  }


  // ---------------------------------------------------------------------
  // Ballerina interceptors
  // ---------------------------------------------------------------------

  /** What opening `<path>/Interceptors` and reading one entry of it gives:
      `Readdir(1)` reports no error exactly when an entry was read. */
  datatype DirProbe = OpenFails | Opened(hasEntry: bool)

  /** `handleBalInterceptors`: one configmap for the whole interceptors
      directory when it has an entry; its name is returned as the reference. */
  method HandleBalInterceptors(configMapName: string, path: string, operation: string, namespace: string,
                               probe: DirProbe, exec: Command -> bool)
    returns (reference: string, issued: seq<Command>, aborted: bool)
    ensures probe == OpenFails ==> aborted && issued == []
    ensures probe == Opened(false) ==> !aborted && reference == "" && issued == []
    ensures probe == Opened(true) ==>
              issued == [ConfigMapCommand(configMapName, Join(path, InterceptorsDir), namespace, operation)]
              && aborted == !exec(issued[0])
              && (!aborted ==> reference == configMapName)
  {
    var interceptorsPath := Join(path, InterceptorsDir);
    if probe.OpenFails? {
      return "", [], true;
    }
    if probe.hasEntry {
      var cmd := ConfigMapCommand(configMapName, interceptorsPath, namespace, operation);
      issued := [cmd];
      if !exec(cmd) {
        return "", issued, true;
      }
      return configMapName, issued, false;
    }
    return "", [], false;
  }

  // ---------------------------------------------------------------------
  // The custom resource and its apply
  // ---------------------------------------------------------------------

  /** Stands for the resource when the template could not be read. */
  const Unfilled: ApiResource := ApiResource("", "", ApiSpec(DefinitionRef("", Interceptors("", [])), 0, false, ""))

  /** The resource `createAPI` builds from the template: name, namespace,
      swagger configmap, replicas and override always; the timestamp and the
      Ballerina reference only when non-empty; the Java references always. */
  function Filled(template: ApiResource, name: string, namespace: string, configMapName: string, replicas: int,
                  timestamp: string, balInterceptors: string, override: bool, javaInterceptors: seq<string>): ApiResource
  {
    var ballerina := if balInterceptors != "" then balInterceptors else template.spec.definition.interceptors.ballerina;
    var stamp := if timestamp != "" then timestamp else template.spec.updateTimeStamp;
    ApiResource(name, namespace,
                ApiSpec(DefinitionRef(configMapName, Interceptors(ballerina, javaInterceptors)), replicas, override, stamp))
  }

  /** Given a timestamp and a Ballerina reference, the template no longer
      matters: every field of the resource comes from the arguments. */
  lemma FilledIgnoresTemplate(t1: ApiResource, t2: ApiResource, name: string, namespace: string, configMapName: string,
                              replicas: int, timestamp: string, balInterceptors: string, override: bool,
                              javaInterceptors: seq<string>)
    requires timestamp != "" && balInterceptors != ""
    ensures Filled(t1, name, namespace, configMapName, replicas, timestamp, balInterceptors, override, javaInterceptors)
            == Filled(t2, name, namespace, configMapName, replicas, timestamp, balInterceptors, override, javaInterceptors)
  {
  }

  /** `createAPI`: fills the embedded template (`None` when it does not
      unmarshal) and applies it. A manifest that does not marshal ends the
      process; a failed apply is only printed. */
  method CreateApi(template: Option<ApiResource>, marshalOk: ApiResource -> bool,
                   name: string, namespace: string, configMapName: string, replicas: int,
                   timestamp: string, balInterceptors: string, override: bool, javaInterceptors: seq<string>)
    returns (manifest: ApiResource, issued: seq<Command>, aborted: bool)
    ensures template.None? ==> aborted && issued == []
    ensures template.Some? ==>
              && manifest.name == name
              && manifest.namespace == namespace
              && manifest.spec.definition.swaggerConfigmapName == configMapName
              && manifest.spec.replicas == replicas
              && manifest.spec.override == override
              && manifest.spec.updateTimeStamp ==
                   (if timestamp != "" then timestamp else template.value.spec.updateTimeStamp)
              && manifest.spec.definition.interceptors.ballerina ==
                   (if balInterceptors != "" then balInterceptors else template.value.spec.definition.interceptors.ballerina)
              && manifest.spec.definition.interceptors.java == javaInterceptors
              && manifest == Filled(template.value, name, namespace, configMapName, replicas,
                                    timestamp, balInterceptors, override, javaInterceptors)
              && aborted == !marshalOk(manifest)
              && issued == (if aborted then [] else [Apply(manifest, namespace)])
  {
    if template.None? {
      return Unfilled, [], true;
    }
    manifest := template.value;
    manifest := manifest.(name := name);
    manifest := manifest.(namespace := namespace);
    manifest := manifest.(spec := manifest.spec.(definition := manifest.spec.definition.(swaggerConfigmapName := configMapName)));
    manifest := manifest.(spec := manifest.spec.(replicas := replicas));
    manifest := manifest.(spec := manifest.spec.(override := override));
    if timestamp != "" {
      manifest := manifest.(spec := manifest.spec.(updateTimeStamp := timestamp));
    }
    var interceptors := manifest.spec.definition.interceptors;
    if balInterceptors != "" {
      interceptors := interceptors.(ballerina := balInterceptors);
    }
    if |javaInterceptors| > 0 {
      interceptors := interceptors.(java := javaInterceptors);
    } else {
      interceptors := interceptors.(java := []);
    }
    manifest := manifest.(spec := manifest.spec.(definition := manifest.spec.definition.(interceptors := interceptors)));
    if !marshalOk(manifest) {
      return manifest, [], true;
    }
    issued := [Apply(manifest, namespace)];
    aborted := false;
  }

  // ---------------------------------------------------------------------
  // The command
  // ---------------------------------------------------------------------

  /** What `os.Stat` says about the swagger path. */
  datatype PathKind = StatFails | Directory | RegularFile | OtherFile

  /** The command-line flags of `add api`. */
  datatype AddApiFlags = AddApiFlags(apiName: string, swaggerFilePath: string, replicas: int, namespace: string, override: bool)

  /** Everything the command learns from outside: the configured mode, the
      filesystem, the embedded template, the YAML encoder and the cluster. */
  datatype Cluster = Cluster(
    kubernetesMode: bool,
    swaggerKind: PathKind,
    interceptorsProbe: DirProbe,
    libsOpens: bool,
    libsWalk: seq<string>,
    template: Option<ApiResource>,
    marshalOk: ApiResource -> bool,
    exec: Command -> bool)

  /** How a run ends: the process exits on an error, returns quietly after a
      failed `os.Stat`, or completes after the apply, which may have failed. */
  datatype RunOutcome = Aborted | Returned | Completed(manifest: ApiResource, applied: bool)

  /** The run goes past its flag checks and its `os.Stat`. */
  predicate Proceeds(flags: AddApiFlags, cluster: Cluster) {
    cluster.kubernetesMode && flags.apiName != "" && flags.swaggerFilePath != "" && !cluster.swaggerKind.StatFails?
  }

  /** The file the swagger configmap is created from, if the path is a
      project directory or a regular file. */
  function SwaggerSource(flags: AddApiFlags, kind: PathKind): Option<string> {
    match kind
    case Directory => Some(Join(flags.swaggerFilePath, SwaggerInProject))
    case RegularFile => Some(flags.swaggerFilePath)
    case _ => None
  }

  /** The configmap create for the Ballerina interceptors, present exactly
      when the `Interceptors` directory has an entry. */
  function BalCommands(flags: AddApiFlags, probe: DirProbe): seq<Command> {
    if probe == Opened(true)
    then [ConfigMapCommand(flags.apiName + InterceptorsSuffix, Join(flags.swaggerFilePath, InterceptorsDir), flags.namespace, K8sCreate)]
    else []
  }

  /** The Java creates of a run: those attempted in walk order up to the
      first failure, or none when `libs` cannot be opened. */
  function JavaLog(flags: AddApiFlags, cluster: Cluster): seq<Command> {
    if cluster.libsOpens
    then AttemptInOrder(JavaCommands(K8sCreate, flags.namespace, flags.apiName, cluster.libsWalk), cluster.exec)
    else []
  }

  /** The Java part ends the process: `libs` cannot be opened or a create failed. */
  predicate JavaAborts(flags: AddApiFlags, cluster: Cluster) {
    !cluster.libsOpens || StoppedByFailure(JavaLog(flags, cluster), cluster.exec)
  }

  /** The configmap creates of the interceptor part of a run, in order: none
      when the `Interceptors` directory cannot be opened; the Ballerina create
      alone when it fails; otherwise the Ballerina create, if any, followed by
      the Java creates. */
  function InterceptorCommands(flags: AddApiFlags, cluster: Cluster): seq<Command> {
    var bal := BalCommands(flags, cluster.interceptorsProbe);
    if cluster.interceptorsProbe == OpenFails then []
    else if bal != [] && !cluster.exec(bal[0]) then bal
    else bal + JavaLog(flags, cluster)
  }

  /** The interceptor part of a run ends the process: the directory cannot be
      opened, the Ballerina create failed, or the Java part ends it. */
  predicate InterceptorsAbort(flags: AddApiFlags, cluster: Cluster) {
    var bal := BalCommands(flags, cluster.interceptorsProbe);
    cluster.interceptorsProbe == OpenFails || (bal != [] && !cluster.exec(bal[0])) || JavaAborts(flags, cluster)
  }

  /** The swagger configmap create of a run whose path is a project directory
      or a regular file. */
  function SwaggerCommand(flags: AddApiFlags, source: string): Command {
    ConfigMapCommand(flags.apiName + SwaggerSuffix, source, flags.namespace, K8sCreate)
  }

  /** The configmap part of a run ends the process: the swagger create failed,
      or, for a project directory, the interceptor part ends it. */
  predicate ConfigMapsAbort(flags: AddApiFlags, cluster: Cluster) {
    match SwaggerSource(flags, cluster.swaggerKind)
    case None => false
    case Some(source) =>
      !cluster.exec(SwaggerCommand(flags, source))
      || (cluster.swaggerKind == Directory && InterceptorsAbort(flags, cluster))
  }

  /** The interceptor references a fresh process holds when it calls
      `createAPI`: those of a project directory, or the zero values. */
  function FreshReferences(flags: AddApiFlags, cluster: Cluster): Interceptors {
    if cluster.swaggerKind == Directory
    then Interceptors(if cluster.interceptorsProbe == Opened(true) then flags.apiName + InterceptorsSuffix else "",
                      JavaConfigMapNames(flags.apiName, cluster.libsWalk))
    else Interceptors("", [])
  }

  /** The interceptor part ends the process exactly when the directory cannot
      be opened, `libs` cannot be opened, or the last create it issued failed. */
  lemma InterceptorsAbortIffStopped(flags: AddApiFlags, cluster: Cluster)
    ensures InterceptorsAbort(flags, cluster) <==>
              cluster.interceptorsProbe == OpenFails || !cluster.libsOpens
              || StoppedByFailure(InterceptorCommands(flags, cluster), cluster.exec)
  {
    var bal := BalCommands(flags, cluster.interceptorsProbe);
    if cluster.interceptorsProbe != OpenFails && cluster.libsOpens {
      if bal != [] && !cluster.exec(bal[0]) {
        assert InterceptorCommands(flags, cluster) == bal;
      } else {
        assert InterceptorCommands(flags, cluster) == bal + JavaLog(flags, cluster);
        StoppedAfterSuccess(bal, JavaLog(flags, cluster), cluster.exec);
      }
    }
  }

  /** When the interceptor part does not end the process, it issued the
      Ballerina create, if any, and every Java create, and all succeeded. */
  lemma InterceptorsComplete(flags: AddApiFlags, cluster: Cluster)
    requires !InterceptorsAbort(flags, cluster)
    ensures InterceptorCommands(flags, cluster) ==
              BalCommands(flags, cluster.interceptorsProbe)
              + JavaCommands(K8sCreate, flags.namespace, flags.apiName, cluster.libsWalk)
    ensures forall c :: c in InterceptorCommands(flags, cluster) ==> cluster.exec(c)
  {
    var java := JavaCommands(K8sCreate, flags.namespace, flags.apiName, cluster.libsWalk);
    CompletedRun(java, cluster.exec);
  }

  /** Once the directory opens and `libs` opens, the Ballerina and the
      Java creates form one run that stops at its first failure. */
  lemma InterceptorsAttemptInOrder(flags: AddApiFlags, cluster: Cluster)
    requires cluster.interceptorsProbe != OpenFails && cluster.libsOpens
    ensures InterceptorCommands(flags, cluster) ==
              AttemptInOrder(BalCommands(flags, cluster.interceptorsProbe)
                             + JavaCommands(K8sCreate, flags.namespace, flags.apiName, cluster.libsWalk), cluster.exec)
  {
    var bal := BalCommands(flags, cluster.interceptorsProbe);
    var java := JavaCommands(K8sCreate, flags.namespace, flags.apiName, cluster.libsWalk);
    AttemptFromShift(bal, java, cluster.exec, 0);
    if bal != [] {
      assert AttemptFrom(bal + java, cluster.exec, 0)
             == if cluster.exec(bal[0]) then [bal[0]] + AttemptFrom(bal + java, cluster.exec, 1) else [bal[0]];
    }
  }

  /** The package-level state of the command: the Ballerina configmap name and
      the interceptor references handed to `createAPI`. */
  class AddApiCommand {
    var balInterceptorsConfName: string
    var balInterceptors: string
    var javaInterceptors: seq<string>

    /** A fresh process: every package variable holds its zero value. */
    constructor ()
      ensures balInterceptorsConfName == "" && balInterceptors == "" && javaInterceptors == []
    {
      balInterceptorsConfName := "";
      balInterceptors := "";
      javaInterceptors := [];
    }

    /** `addApiCmd.Run`: the checks, the swagger configmap, the interceptor
        configmaps for a project directory, and the API resource. */
    method Run(flags: AddApiFlags, cluster: Cluster) returns (issued: seq<Command>, outcome: RunOutcome)
      modifies this
      ensures !cluster.kubernetesMode || flags.apiName == "" || flags.swaggerFilePath == "" ==>
                issued == [] && outcome == Aborted && unchanged(this)
      // the run returns quietly exactly after a failed stat
      ensures outcome == Returned <==>
                cluster.kubernetesMode && flags.apiName != "" && flags.swaggerFilePath != "" && cluster.swaggerKind == StatFails
      ensures cluster.kubernetesMode && flags.apiName != "" && flags.swaggerFilePath != "" && cluster.swaggerKind == StatFails ==>
                issued == [] && outcome == Returned && unchanged(this)
      // the swagger configmap comes first, and its failure ends the run
      ensures Proceeds(flags, cluster) && SwaggerSource(flags, cluster.swaggerKind).Some? ==>
                issued != []
                && issued[0] == ConfigMapCommand(flags.apiName + SwaggerSuffix, SwaggerSource(flags, cluster.swaggerKind).value,
                                                 flags.namespace, K8sCreate)
                && (!cluster.exec(issued[0]) ==> issued == [issued[0]] && outcome == Aborted)
      // no apply on an aborted run; exactly one, last, on a completed one
      ensures outcome.Aborted? ==> forall c :: c in issued ==> c.CreateConfigMap?
      // an aborted run leaves behind the configmaps created up to the failure
      ensures Proceeds(flags, cluster) && outcome.Aborted? ==>
                && (SwaggerSource(flags, cluster.swaggerKind).None? ==> issued == [])
                && (cluster.swaggerKind == RegularFile ==> issued == [issued[0]])
                && (cluster.swaggerKind == Directory ==>
                      issued == [issued[0]] + (if cluster.exec(issued[0]) then InterceptorCommands(flags, cluster) else []))
      ensures (Proceeds(flags, cluster) && cluster.swaggerKind == Directory
               && (!cluster.exec(issued[0]) || InterceptorsAbort(flags, cluster))) ==> outcome == Aborted
      ensures outcome.Completed? ==>
                && Proceeds(flags, cluster)
                && issued != []
                && issued[|issued| - 1] == Apply(outcome.manifest, flags.namespace)
                && outcome.applied == cluster.exec(issued[|issued| - 1])
                && forall i :: 0 <= i < |issued| - 1 ==> issued[i].CreateConfigMap? && cluster.exec(issued[i])
      // the resource carries the flags and the current interceptor references
      ensures outcome.Completed? ==>
                && cluster.template.Some?
                && var m := outcome.manifest;
                && m.name == flags.apiName
                && m.namespace == flags.namespace
                && m.spec.definition.swaggerConfigmapName == flags.apiName + SwaggerSuffix
                && m.spec.replicas == flags.replicas
                && m.spec.override == flags.override
                && m.spec.updateTimeStamp == cluster.template.value.spec.updateTimeStamp
                && m.spec.definition.interceptors.ballerina ==
                     (if balInterceptors != "" then balInterceptors else cluster.template.value.spec.definition.interceptors.ballerina)
                && m.spec.definition.interceptors.java == javaInterceptors
      ensures outcome.Completed? ==>
                outcome.manifest == Filled(cluster.template.value, flags.apiName, flags.namespace, flags.apiName + SwaggerSuffix,
                                           flags.replicas, "", balInterceptors, flags.override, javaInterceptors)
      // past its checks, the run completes exactly when no configmap create
      // ends it, the template unmarshals and the filled resource marshals
      ensures Proceeds(flags, cluster) ==>
                (outcome.Completed? <==>
                   && !ConfigMapsAbort(flags, cluster)
                   && cluster.template.Some?
                   && cluster.marshalOk(Filled(cluster.template.value, flags.apiName, flags.namespace, flags.apiName + SwaggerSuffix,
                                               flags.replicas, "", balInterceptors, flags.override, javaInterceptors)))
      // a project directory sets the interceptor references from its own contents
      ensures outcome.Completed? && cluster.swaggerKind == Directory ==>
                && balInterceptorsConfName == flags.apiName + InterceptorsSuffix
                && balInterceptors == (if cluster.interceptorsProbe == Opened(true) then balInterceptorsConfName else "")
                && javaInterceptors == JavaConfigMapNames(flags.apiName, cluster.libsWalk)
                && issued == [issued[0]] + BalCommands(flags, cluster.interceptorsProbe)
                             + JavaCommands(K8sCreate, flags.namespace, flags.apiName, cluster.libsWalk)
                             + [issued[|issued| - 1]]
      ensures Proceeds(flags, cluster) && cluster.swaggerKind == Directory && !ConfigMapsAbort(flags, cluster) ==>
                && balInterceptors == (if cluster.interceptorsProbe == Opened(true) then flags.apiName + InterceptorsSuffix else "")
                && javaInterceptors == JavaConfigMapNames(flags.apiName, cluster.libsWalk)
      // any other path leaves them as they were
      ensures cluster.swaggerKind != Directory ==> unchanged(this)
      ensures outcome.Completed? && cluster.swaggerKind != Directory ==>
                issued == (if cluster.swaggerKind == RegularFile then [issued[0]] else []) + [issued[|issued| - 1]]
    {
      issued := [];
      if !cluster.kubernetesMode || flags.apiName == "" || flags.swaggerFilePath == "" {
        return [], Aborted;
      }
      if cluster.swaggerKind.StatFails? {
        return [], Returned;
      }
      var configMaps, aborted := CreateConfigMaps(flags, cluster);
      issued := configMaps;
      if aborted {
        return issued, Aborted;
      }
      var configMapName := flags.apiName + SwaggerSuffix;
      var manifest, applyIssued, apiAborted :=
        CreateApi(cluster.template, cluster.marshalOk, flags.apiName, flags.namespace, configMapName, flags.replicas,
                  "", balInterceptors, flags.override, javaInterceptors);
      if apiAborted {
        return configMaps, Aborted;
      }
      issued := configMaps + applyIssued;
      outcome := Completed(manifest, cluster.exec(applyIssued[0]));
    }

    /** The configmap part of `Run` once the swagger path exists: the swagger
        configmap for a directory or a regular file, then the interceptors of
        a directory; any other kind of path creates nothing. */
    method CreateConfigMaps(flags: AddApiFlags, cluster: Cluster) returns (issued: seq<Command>, aborted: bool)
      modifies this
      ensures forall c :: c in issued ==> c.CreateConfigMap?
      ensures SwaggerSource(flags, cluster.swaggerKind).Some? ==>
                issued != []
                && issued[0] == ConfigMapCommand(flags.apiName + SwaggerSuffix, SwaggerSource(flags, cluster.swaggerKind).value,
                                                 flags.namespace, K8sCreate)
                && (!cluster.exec(issued[0]) ==> issued == [issued[0]] && aborted)
      ensures SwaggerSource(flags, cluster.swaggerKind).None? ==> issued == [] && !aborted
      ensures cluster.swaggerKind == RegularFile ==> issued == [issued[0]] && aborted == !cluster.exec(issued[0])
      ensures cluster.swaggerKind == Directory ==>
                && issued == [issued[0]] + (if cluster.exec(issued[0]) then InterceptorCommands(flags, cluster) else [])
                && aborted == (!cluster.exec(issued[0]) || InterceptorsAbort(flags, cluster))
      ensures aborted == ConfigMapsAbort(flags, cluster)
      ensures cluster.swaggerKind != Directory ==> unchanged(this)
      ensures !aborted ==> forall j :: 0 <= j < |issued| ==> cluster.exec(issued[j])
      ensures !aborted && cluster.swaggerKind == Directory ==>
                && balInterceptorsConfName == flags.apiName + InterceptorsSuffix
                && balInterceptors == (if cluster.interceptorsProbe == Opened(true) then balInterceptorsConfName else "")
                && javaInterceptors == JavaConfigMapNames(flags.apiName, cluster.libsWalk)
                && issued == [issued[0]] + BalCommands(flags, cluster.interceptorsProbe)
                             + JavaCommands(K8sCreate, flags.namespace, flags.apiName, cluster.libsWalk)
    {
      match cluster.swaggerKind {
        case Directory =>
          issued, aborted := CreateProjectConfigMaps(flags, cluster);

        case RegularFile =>
          var cmd := ConfigMapCommand(flags.apiName + SwaggerSuffix, flags.swaggerFilePath, flags.namespace, K8sCreate);
          issued, aborted := [cmd], !cluster.exec(cmd);
        case _ =>
          issued, aborted := [], false;
      }
    }

    /** The configmaps of a project directory: the swagger configmap from
        `Meta-information/swagger.yaml`, whose failure ends the run, then the
        interceptors. */
    method CreateProjectConfigMaps(flags: AddApiFlags, cluster: Cluster) returns (issued: seq<Command>, aborted: bool)
      modifies this
      ensures issued != []
      ensures issued[0] == ConfigMapCommand(flags.apiName + SwaggerSuffix, Join(flags.swaggerFilePath, SwaggerInProject),
                                            flags.namespace, K8sCreate)
      ensures issued == [issued[0]] + (if cluster.exec(issued[0]) then InterceptorCommands(flags, cluster) else [])
      ensures aborted == (!cluster.exec(issued[0]) || InterceptorsAbort(flags, cluster))
      ensures forall c :: c in issued ==> c.CreateConfigMap?
      ensures !aborted ==>
                && balInterceptorsConfName == flags.apiName + InterceptorsSuffix
                && balInterceptors == (if cluster.interceptorsProbe == Opened(true) then balInterceptorsConfName else "")
                && javaInterceptors == JavaConfigMapNames(flags.apiName, cluster.libsWalk)
                && issued == [issued[0]] + BalCommands(flags, cluster.interceptorsProbe)
                             + JavaCommands(K8sCreate, flags.namespace, flags.apiName, cluster.libsWalk)
                && forall j :: 0 <= j < |issued| ==> cluster.exec(issued[j])
    {
      var cmd := ConfigMapCommand(flags.apiName + SwaggerSuffix, Join(flags.swaggerFilePath, SwaggerInProject),
                                  flags.namespace, K8sCreate);
      if !cluster.exec(cmd) {
        assert [cmd] == [cmd] + [];
        return [cmd], true;
      }
      var interceptorsIssued, interceptorsAborted := HandleInterceptors(flags, cluster);
      issued := [cmd] + interceptorsIssued;
      aborted := interceptorsAborted;
      if !aborted {
        PrependSucceeded(cmd, interceptorsIssued, cluster.exec);
        AppendStep([cmd], BalCommands(flags, cluster.interceptorsProbe),
                   JavaCommands(K8sCreate, flags.namespace, flags.apiName, cluster.libsWalk), issued);
      }
    }

    /** The interceptor part of `Run` for a project directory: names the
      Ballerina configmap, then creates the Ballerina and the Java interceptor
      configmaps, recording their references. */
    method HandleInterceptors(flags: AddApiFlags, cluster: Cluster) returns (issued: seq<Command>, aborted: bool)
      modifies this
      ensures balInterceptorsConfName == flags.apiName + InterceptorsSuffix
      ensures forall c :: c in issued ==> c.CreateConfigMap?
      ensures issued == InterceptorCommands(flags, cluster)
      ensures aborted == InterceptorsAbort(flags, cluster)
      ensures aborted ==> javaInterceptors == old(javaInterceptors)
      ensures !aborted ==>
                && balInterceptors == (if cluster.interceptorsProbe == Opened(true) then balInterceptorsConfName else "")
                && javaInterceptors == JavaConfigMapNames(flags.apiName, cluster.libsWalk)
                && issued == BalCommands(flags, cluster.interceptorsProbe)
                             + JavaCommands(K8sCreate, flags.namespace, flags.apiName, cluster.libsWalk)
                && forall j :: 0 <= j < |issued| ==> cluster.exec(issued[j])
    {
      balInterceptorsConfName := flags.apiName + InterceptorsSuffix;
      var reference, balIssued, balAborted :=
        HandleBalInterceptors(balInterceptorsConfName, flags.swaggerFilePath, K8sCreate, flags.namespace,
                              cluster.interceptorsProbe, cluster.exec);
      issued := balIssued;
      if balAborted {
        return issued, true;
      }
      balInterceptors := reference;
      var names, javaIssued, javaAborted :=
        HandleJavaInterceptors(K8sCreate, flags.namespace, flags.apiName,
                               cluster.libsOpens, cluster.libsWalk, cluster.exec);
      JavaCommandsAreCreates(K8sCreate, flags.namespace, flags.apiName, cluster.libsWalk, 0);
      issued := issued + javaIssued;
      if javaAborted {
        if cluster.libsOpens {
          AttemptedAreSteps(JavaCommands(K8sCreate, flags.namespace, flags.apiName, cluster.libsWalk), cluster.exec);
        }
        return issued, true;
      }
      javaInterceptors := names;
      aborted := false;
    }
  }

  /** One invocation of the command in a fresh process. Only a project
      directory brings interceptor references; for a single swagger file the
      resource gets no Java interceptors and keeps the template's Ballerina
      reference. */
  method RunInFreshProcess(flags: AddApiFlags, cluster: Cluster) returns (issued: seq<Command>, outcome: RunOutcome)
    ensures !cluster.kubernetesMode || flags.apiName == "" || flags.swaggerFilePath == "" ==> issued == [] && outcome == Aborted
    ensures cluster.kubernetesMode && flags.apiName != "" && flags.swaggerFilePath != "" && cluster.swaggerKind == StatFails ==>
              issued == [] && outcome == Returned
    // the swagger configmap comes first, and its failure ends the run
    ensures Proceeds(flags, cluster) && SwaggerSource(flags, cluster.swaggerKind).Some? ==>
              issued != []
              && issued[0] == ConfigMapCommand(flags.apiName + SwaggerSuffix, SwaggerSource(flags, cluster.swaggerKind).value,
                                               flags.namespace, K8sCreate)
              && (!cluster.exec(issued[0]) ==> issued == [issued[0]] && outcome == Aborted)
    // an aborted run issues no apply and leaves the creates made up to the failure
    ensures outcome.Aborted? ==> forall c :: c in issued ==> c.CreateConfigMap?
    ensures Proceeds(flags, cluster) && outcome.Aborted? ==>
              && (SwaggerSource(flags, cluster.swaggerKind).None? ==> issued == [])
              && (cluster.swaggerKind == RegularFile ==> issued == [issued[0]])
              && (cluster.swaggerKind == Directory ==>
                    issued == [issued[0]] + (if cluster.exec(issued[0]) then InterceptorCommands(flags, cluster) else []))
    // a completed run ends with its only apply, of the resource it built
    ensures outcome.Completed? ==>
              && issued != []
              && issued[|issued| - 1] == Apply(outcome.manifest, flags.namespace)
              && outcome.applied == cluster.exec(issued[|issued| - 1])
              && forall i :: 0 <= i < |issued| - 1 ==> issued[i].CreateConfigMap? && cluster.exec(issued[i])
    ensures outcome.Completed? && cluster.swaggerKind == Directory ==>
              issued == [issued[0]] + BalCommands(flags, cluster.interceptorsProbe)
                        + JavaCommands(K8sCreate, flags.namespace, flags.apiName, cluster.libsWalk)
                        + [issued[|issued| - 1]]
    ensures outcome.Completed? && cluster.swaggerKind != Directory ==>
              issued == (if cluster.swaggerKind == RegularFile then [issued[0]] else []) + [issued[|issued| - 1]]
    ensures outcome == Returned <==>
              cluster.kubernetesMode && flags.apiName != "" && flags.swaggerFilePath != "" && cluster.swaggerKind == StatFails
    ensures Proceeds(flags, cluster) ==>
              (outcome.Completed? <==>
                 && !ConfigMapsAbort(flags, cluster)
                 && cluster.template.Some?
                 && cluster.marshalOk(Filled(cluster.template.value, flags.apiName, flags.namespace, flags.apiName + SwaggerSuffix,
                                             flags.replicas, "", FreshReferences(flags, cluster).ballerina, flags.override,
                                             FreshReferences(flags, cluster).java)))
    ensures outcome.Completed? ==> cluster.template.Some?
    ensures outcome.Completed? ==>
              outcome.manifest == Filled(cluster.template.value, flags.apiName, flags.namespace, flags.apiName + SwaggerSuffix,
                                         flags.replicas, "", FreshReferences(flags, cluster).ballerina, flags.override,
                                         FreshReferences(flags, cluster).java)
    ensures outcome.Completed? && cluster.swaggerKind != Directory ==>
              && outcome.manifest.spec.definition.interceptors.java == []
              && outcome.manifest.spec.definition.interceptors.ballerina
                 == cluster.template.value.spec.definition.interceptors.ballerina
    ensures outcome.Completed? && cluster.swaggerKind == Directory ==>
              && outcome.manifest.spec.definition.interceptors.java == JavaConfigMapNames(flags.apiName, cluster.libsWalk)
              && outcome.manifest.spec.definition.interceptors.ballerina ==
                   (if cluster.interceptorsProbe == Opened(true) then flags.apiName + InterceptorsSuffix
                    else cluster.template.value.spec.definition.interceptors.ballerina)
  {
    var command := new AddApiCommand();
    issued, outcome := command.Run(flags, cluster);
  }
}

/**
  `telepresence/startup.py`: how telepresence finds the local Kubernetes
  client environment before it starts proxying.  `KubeInfo` settles which
  command-line tool to use (`kubectl` or `oc`), the context, the namespace,
  the cluster and its API server, and whether the cluster is a local VM; it
  then builds the command lines for every later cluster call.
  `final_checks` makes one last call to see that the cluster answers.

  Everything outside the process is an input: which tools are on `$PATH`,
  the effective user id, what the HTTPS probe of the API server gives, what
  each command run gives (the runner's world) and what the JSON of
  `config view` decodes to.
*/
module Startup {
  import opened Execution
  import opened Messages
  import opened Text

  datatype Tool = Kubectl | Oc {
    /** The name of the tool's binary, as the source spells it. */
    function Name(): string
    {
      if Kubectl? then "kubectl" else "oc"
    }
  }

  // ---------------------------------------------------------------------
  // kubectl_or_oc

  /**
    How `urlopen(url)` and reading its body end: the body is read, a
    `URLError` or an `HTTPError` (both caught), or any other exception.
  */
  datatype Probe = BodyRead | UrlError | HttpError | Raised(exception: Exception)

  /** The endpoint only OpenShift API servers answer. */
  function OpenShiftUrl(server: string): string
  {
    server + "/version/openshift"
  }

  /**
    `kubectl_or_oc(server)`: `oc` only when it is on the path and the
    OpenShift endpoint of the server answers; `kubectl` when `oc` is missing
    or the probe fails with a URL or HTTP error.
  */
  function KubectlOrOc(server: string, ocOnPath: bool, urlopen: string -> Probe): (r: Result<Tool>)
    ensures !ocOnPath ==> r == Ok(Kubectl)
    ensures ocOnPath ==> (r == Ok(Oc) <==> urlopen(OpenShiftUrl(server)) == BodyRead)
    ensures ocOnPath && (urlopen(OpenShiftUrl(server)).UrlError? || urlopen(OpenShiftUrl(server)).HttpError?) ==> r == Ok(Kubectl)
    ensures r.Err? <==> ocOnPath && urlopen(OpenShiftUrl(server)).Raised?
    ensures r.Err? ==> r.failure == Crash(urlopen(OpenShiftUrl(server)).exception)
  {
    if !ocOnPath then Ok(Kubectl)
    else
      match urlopen(OpenShiftUrl(server))
      case BodyRead => Ok(Oc)
      case UrlError => Ok(Kubectl)
      case HttpError => Ok(Kubectl)
      case Raised(e) => Err(Crash(e))
  }

  /**
    The choice looks at one URL only, the OpenShift endpoint of the server,
    and at no URL at all when `oc` is missing.
  */
  lemma KubectlOrOcProbesOneUrl(server: string, ocOnPath: bool, p: string -> Probe, q: string -> Probe)
    requires ocOnPath ==> p(OpenShiftUrl(server)) == q(OpenShiftUrl(server))
    ensures KubectlOrOc(server, ocOnPath, p) == KubectlOrOc(server, ocOnPath, q)
  {
  }

  // ---------------------------------------------------------------------
  // The kube-config, as `config view -o json` gives it

  /** An entry of `contexts`: its name and the `cluster` and optional `namespace` of its `context`. */
  datatype ContextEntry = ContextEntry(name: string, cluster: string, namespace: Option<string>)

  /** An entry of `clusters`: its name and the `server` of its `cluster`. */
  datatype ClusterEntry = ClusterEntry(name: string, server: string)

  datatype KubeConfig = KubeConfig(contexts: seq<ContextEntry>, clusters: seq<ClusterEntry>)

  /** The position of the first entry with the wanted name, as a `for` loop with `break` finds it. */
  function FirstNamed<T>(xs: seq<T>, name: T -> string, wanted: string): (r: Option<nat>)
    ensures r.Some? ==> r.value < |xs| && name(xs[r.value]) == wanted
  {
    if xs == [] then None
    else if name(xs[0]) == wanted then Some(0)
    else
      match FirstNamed(xs[1..], name, wanted)
      case None => None
      case Some(k) => Some(k + 1)
  }

  /** No entry before the one found has the wanted name, and none at all when nothing is found. */
  lemma {:induction false} FirstNamedIsFirst<T>(xs: seq<T>, name: T -> string, wanted: string)
    ensures var r := FirstNamed(xs, name, wanted);
      && (r.Some? ==> forall j :: 0 <= j < r.value ==> name(xs[j]) != wanted)
      && (r.None? <==> forall j :: 0 <= j < |xs| ==> name(xs[j]) != wanted)
  {
    if xs != [] && name(xs[0]) != wanted {
      FirstNamedIsFirst(xs[1..], name, wanted);
      assert forall j :: 1 <= j < |xs| ==> xs[j] == xs[1..][j - 1];
    }
  }

  function ContextName(c: ContextEntry): string
  {
    c.name
  }

  function ClusterName(c: ClusterEntry): string
  {
    c.name
  }

  /**
    The scan of a `for ... else` loop: the position of the first entry with
    the wanted name, or the length of the list when no entry has it.
  */
  method ScanByName<T>(xs: seq<T>, name: T -> string, wanted: string) returns (i: nat)
    ensures i <= |xs|
    ensures FirstNamed(xs, name, wanted) == if i < |xs| then Some(i) else None
  {
    i := 0;
    while i < |xs|
      invariant i <= |xs|
      invariant forall j :: 0 <= j < i ==> name(xs[j]) != wanted
    {
      if name(xs[i]) == wanted {
        break;
      }
      i := i + 1;
    }
    FirstNamedIsFirst(xs, name, wanted);
  }

  // ---------------------------------------------------------------------
  // The gates of KubeInfo.__init__

  const LocalVmMessage := "Looks like we're in a local VM, e.g. minikube.\n"

  /** The first progress line of a successful resolution. */
  function CommandMessage(command: Tool, kubectlVersion: string): string
  {
    "Command: " + command.Name() + " " + kubectlVersion
  }

  /** The second progress line of a successful resolution. */
  function ContextMessage(context: string, namespace: string, clusterVersion: string): string
  {
    "Context: " + context + ", namespace: " + namespace + ", version: " + clusterVersion + "\n"
  }

  function VersionCommand(tool: Tool): seq<string>
  {
    [tool.Name(), "version", "--short"]
  }

  function CurrentContextCommand(tool: Tool): seq<string>
  {
    [tool.Name(), "config", "current-context"]
  }

  function ConfigCommand(tool: Tool): seq<string>
  {
    [tool.Name(), "config", "view", "-o", "json"]
  }

  function NamespaceCommand(tool: Tool, context: string, namespace: string): seq<string>
  {
    [tool.Name(), "--context", context, "get", "ns", namespace]
  }

  const MinishiftIp: seq<string> := ["minishift", "ip"]

  /**
    The preliminary tool for the set-up calls: `kubectl` whenever it is on
    the path, `oc` only when `kubectl` is missing, and a failure when
    neither is there.
  */
  function PrelimTool(kubectlOnPath: bool, ocOnPath: bool): (r: Result<Tool>)
    ensures r == Ok(Kubectl) <==> kubectlOnPath
    ensures r == Ok(Oc) <==> !kubectlOnPath && ocOnPath
    ensures r.Err? <==> !kubectlOnPath && !ocOnPath
    ensures r.Err? ==> r.failure == Fatal(NeitherTool)
  {
    if kubectlOnPath then Ok(Kubectl)
    else if ocOnPath then Ok(Oc)
    else Err(Fatal(NeitherTool))
  }

  datatype Versions = Versions(kubectl: string, cluster: string)

  /** The stand-in for both versions when `version --short` exits non-zero. */
  function VersionPlaceholder(description: string): string
  {
    "(error: " + description + ")"
  }

  /** `line.split(": v")[1]`: the text after the first marker, up to a second one; an `IndexError` without a marker. */
  function VersionField(line: string): (r: Result<string>)
    ensures r.Ok? <==> |Split(line, ": v")| >= 2
    ensures r.Err? ==> r.failure == Crash(IndexError)
  {
    var parts := Split(line, ": v");
    if |parts| < 2 then Err(Crash(IndexError)) else Ok(parts[1])
  }

  /**
    The best-effort version gate: a non-zero exit gives the same placeholder
    for both versions; any other failure is not caught.
  */
  function ParseVersions(run: Run): (r: Result<Versions>)
    ensures run.NonZeroExit? ==> r == Ok(Versions(VersionPlaceholder(run.description), VersionPlaceholder(run.description)))
    ensures run.OsError? ==> r == Err(Crash(OSError))
    ensures r.Err? && run.Completed? ==> r.failure == Crash(IndexError)
  {
    match run
    case NonZeroExit(description, _) =>
      var placeholder := VersionPlaceholder(description);
      Ok(Versions(placeholder, placeholder))
    case OsError(_) => Err(Escaped(run))
    case Completed(output) =>
      var lines := Split(output, "\n");
      var kubectl :- VersionField(lines[0]);
      if |lines| < 2 then Err(Crash(IndexError))
      else
        var cluster :- VersionField(lines[1]);
        Ok(Versions(kubectl, cluster))
  }

  /** The output `kubectl version --short` prints for a client and a server version. */
  function VersionOutput(client: string, server: string): string
  {
    VersionLine("Client Version", client) + VersionLine("Server Version", server)
  }

  /** One line of that output: `<heading>: v<version>`. */
  function VersionLine(heading: string, version: string): string
  {
    heading + ": v" + version + "\n"
  }

  /** The version gate reads back the two versions of a well-formed `version --short` output. */
  lemma ParseVersionOutput(client: string, server: string)
    requires ':' !in client && '\n' !in client && ':' !in server && '\n' !in server
    ensures ParseVersions(Completed(VersionOutput(client, server))) == Ok(Versions(client, server))
  {
    ParseVersionLines("Client Version", client, "Server Version", server);
  }

  /** Two lines `<heading>: v<version>` give back both versions. */
  lemma ParseVersionLines(heading1: string, client: string, heading2: string, server: string)
    requires ':' !in heading1 && '\n' !in heading1 && ':' !in heading2 && '\n' !in heading2
    requires ':' !in client && '\n' !in client && ':' !in server && '\n' !in server
    ensures ParseVersions(Completed(VersionLine(heading1, client) + VersionLine(heading2, server)))
      == Ok(Versions(client, server))
  {
    var first := heading1 + ": v" + client;
    var second := heading2 + ": v" + server;
    var output := VersionLine(heading1, client) + VersionLine(heading2, server);
    assert output == first + "\n" + (second + "\n" + "");
    SplitAt(first, "\n", second + "\n" + "");
    SplitAt(second, "\n", "");
    var lines := Split(output, "\n");
    assert lines[0] == first && lines[1] == second;
    LabelledVersion(heading1, client);
    LabelledVersion(heading2, server);
  }

  /** A line `<heading>: v<version>` yields the version when neither part holds a colon. */
  lemma LabelledVersion(heading: string, version: string)
    requires ':' !in heading && ':' !in version
    ensures VersionField(heading + ": v" + version) == Ok(version)
  {
    SplitAt(heading, ": v", version);
    SplitWhole(version, ": v");
  }

  /** The context gate when no context was given: the output of `config current-context`. */
  function CurrentContext(run: Run, euid: nat): (r: Result<string>)
    ensures run.Completed? ==> r == Ok(run.output)
    ensures run.NonZeroExit? ==> r == Err(Fatal(NoContext(euid == 0)))
    ensures run.OsError? ==> r == Err(Crash(OSError))
  {
    match run
    case Completed(output) => Ok(output)
    case NonZeroExit(_, _) => Err(Fatal(NoContext(euid == 0)))
    case OsError(_) => Err(Escaped(run))
  }

  /** The config gate: the output of `config view -o json`, decoded; neither failure is caught. */
  function LoadConfig(run: Run, decode: string -> Option<KubeConfig>): (r: Result<KubeConfig>)
    ensures r.Ok? <==> run.Completed? && decode(run.output).Some?
    ensures r.Ok? ==> r.value == decode(run.output).value
    ensures run.Completed? && r.Err? ==> r.failure == Crash(ValueError)
  {
    match run
    case Completed(output) =>
      if decode(output).Some? then Ok(decode(output).value) else Err(Crash(ValueError))
    case _ => Err(Escaped(run))
  }

  // ---------------------------------------------------------------------
  // _check_if_in_local_vm

  /** Whether the local-VM check runs `minishift ip`. */
  predicate RunsMinishift(context: string, command: Tool)
  {
    context != "minikube" && command == Oc
  }

  /** The local-VM check, on the server it is given. */
  function InLocalVm(context: string, command: Tool, server: string, minishift: Run): bool
  {
    if context == "minikube" then true
    else if command == Oc then
      match minishift
      case Completed(output) =>
        var ip := Strip(output);
        ip != [] && IsSubstring(ip, server)
      case _ => false
    else false
  }

  /**
    The local-VM check is true for the `minikube` context; otherwise exactly
    when the tool is `oc` and `minishift ip` prints a non-empty address
    that occurs in the server URL.  A failure of `minishift ip` means false.
  */
  lemma InLocalVmMeaning(context: string, command: Tool, server: string, minishift: Run)
    ensures InLocalVm(context, command, server, minishift)
      <==> context == "minikube"
           || (RunsMinishift(context, command) && minishift.Completed? && Strip(minishift.output) != []
               && OccursIn(Strip(minishift.output), server))
  {
    if RunsMinishift(context, command) && minishift.Completed? {
      IsSubstringMeaning(Strip(minishift.output), server);
    }
  }

  /**
    The check as written: it reads the server of `runner.kubectl`, which is
    not this object; `None` stands for a runner whose `kubectl` is not set
    yet, where reading `.server` raises `AttributeError`.
  */
  function InLocalVmAsWritten(context: string, command: Tool, kubectlServer: Option<string>, minishift: Run): (r: Result<bool>)
    ensures kubectlServer.Some? ==> r == Ok(InLocalVm(context, command, kubectlServer.value, minishift))
    ensures r.Err? <==> kubectlServer.None? && RunsMinishift(context, command) && minishift.Completed? && Strip(minishift.output) != []
  {
    if context == "minikube" then Ok(true)
    else if command == Oc then
      match minishift
      case Completed(output) =>
        var ip := Strip(output);
        if ip == [] then Ok(false)
        else if kubectlServer.None? then Err(Crash(AttributeError))
        else Ok(IsSubstring(ip, kubectlServer.value))
      case _ => Ok(false)
    else Ok(false)
  }

  /**
    A minishift cluster seen while `KubeInfo` is being built: whenever
    `minishift ip` prints an address that occurs in this object's server,
    the check as written raises instead of answering, while the check on
    the object's own server finds the VM.
  */
  lemma LocalVmCheckReadsWrongServer(context: string, ip: string, server: string)
    requires context != "minikube"
    requires ip != [] && !IsSpace(ip[0]) && !IsSpace(ip[|ip| - 1])
    requires OccursIn(ip, server)
    ensures InLocalVmAsWritten(context, Oc, None, Completed(ip + "\n")) == Err(Crash(AttributeError))
    ensures InLocalVm(context, Oc, server, Completed(ip + "\n"))
  {
    StripNewline(ip);
    IsSubstringMeaning(ip, server);
  }

  // ---------------------------------------------------------------------
  // The resolution as a whole

  /** Everything the resolution reads from outside the runner. */
  datatype Env = Env(
    kubectlOnPath: bool,
    ocOnPath: bool,
    euid: nat,
    urlopen: string -> Probe,
    decodeConfig: string -> Option<KubeConfig>)

  /** The command-line arguments the resolution reads and fills in. */
  datatype ArgValues = ArgValues(context: Option<string>, namespace: Option<string>, verbose: bool)

  /** The fields of a constructed `KubeInfo`. */
  datatype Settings = Settings(
    command: Tool,
    context: string,
    namespace: string,
    cluster: string,
    server: string,
    kubectlVersion: string,
    clusterVersion: string,
    verbose: bool,
    inLocalVm: bool)

  /**
    What building a `KubeInfo` does: its outcome, the commands it runs in
    order, the lines it writes, and the arguments as it leaves them.
  */
  datatype Resolution = Resolution(outcome: Result<Settings>, commands: seq<seq<string>>, written: seq<string>, args: ArgValues)

  /** The same resolution, preceded by commands run before it. */
  function After(done: seq<seq<string>>, r: Resolution): Resolution
  {
    r.(commands := done + r.commands)
  }

  /**
    How far a resolution has got: the gates passed so far and what they
    settled.  The gates come in the order `__init__` passes them.
  */
  datatype Stage =
    | Start
    | AtContext(tool: Tool, versions: Versions)
    | AtConfig(tool: Tool, versions: Versions, context: string)
    | AtCluster(tool: Tool, versions: Versions, context: string, config: KubeConfig)
    | AtNamespace(tool: Tool, versions: Versions, context: string, namespace: string, cluster: string, config: KubeConfig)
    | AtServer(versions: Versions, context: string, namespace: string, cluster: string, config: KubeConfig)

  /** The number of gates still ahead at a stage. */
  function GatesLeft(stage: Stage): nat
  {
    match stage
    case Start => 5
    case AtContext(_, _) => 4
    case AtConfig(_, _, _) => 3
    case AtCluster(_, _, _, _) => 2
    case AtNamespace(_, _, _, _, _, _) => 1
    case AtServer(_, _, _, _, _) => 0
  }

  /**
    The rest of `KubeInfo(runner, args)` from a stage on, for a runner that
    has already run `m` commands and arguments as they stand: the gate of
    the stage, which goes on to the next stage when it passes.
  */
  function ResolveFrom(env: Env, world: World, m: nat, args: ArgValues, stage: Stage): Resolution
    decreases GatesLeft(stage), 1
  {
    match stage
    case Start => VersionGate(env, world, m, args)
    case AtContext(tool, versions) => ContextGate(env, world, m, args, tool, versions)
    case AtConfig(tool, versions, context) => ConfigGate(env, world, m, args, tool, versions, context)
    case AtCluster(tool, versions, context, config) => ClusterGate(env, world, m, args, tool, versions, context, config)
    case AtNamespace(tool, versions, context, namespace, cluster, config) =>
      NamespaceGate(env, world, m, args, tool, versions, context, namespace, cluster, config)
    case AtServer(versions, context, namespace, cluster, config) =>
      ServerGate(env, world, m, args, versions, context, namespace, cluster, config)
  }

  /** The preliminary tool, then the best-effort versions. */
  function VersionGate(env: Env, world: World, m: nat, args: ArgValues): Resolution
    decreases 5, 0
  {
    match PrelimTool(env.kubectlOnPath, env.ocOnPath)
    case Err(f) => Resolution(Err(f), [], [], args)
    case Ok(tool) =>
      var c := VersionCommand(tool);
      match ParseVersions(world(m, c))
      case Err(f) => Resolution(Err(f), [c], [], args)
      case Ok(versions) => After([c], ResolveFrom(env, world, m + 1, args, AtContext(tool, versions)))
  }

  /** The given context, or else the current one, which must be set. */
  function ContextGate(env: Env, world: World, m: nat, args: ArgValues, tool: Tool, versions: Versions): Resolution
    decreases 4, 0
  {
    if args.context.Some? then
      ResolveFrom(env, world, m, args, AtConfig(tool, versions, args.context.value))
    else
      var c := CurrentContextCommand(tool);
      match CurrentContext(world(m, c), env.euid)
      case Err(f) => Resolution(Err(f), [c], [], args)
      case Ok(context) =>
        After([c], ResolveFrom(env, world, m + 1, args.(context := Some(context)), AtConfig(tool, versions, context)))
  }

  /** The kube-config, as `config view -o json` gives it. */
  function ConfigGate(env: Env, world: World, m: nat, args: ArgValues, tool: Tool, versions: Versions,
                      context: string): Resolution
    decreases 3, 0
  {
    var c := ConfigCommand(tool);
    match LoadConfig(world(m, c), env.decodeConfig)
    case Err(f) => Resolution(Err(f), [c], [], args)
    case Ok(config) => After([c], ResolveFrom(env, world, m + 1, args, AtCluster(tool, versions, context, config)))
  }

  /** The context entry gives the cluster and, unless one was given, the namespace. */
  function ClusterGate(env: Env, world: World, m: nat, args: ArgValues, tool: Tool, versions: Versions,
                       context: string, config: KubeConfig): Resolution
    decreases 2, 0
  {
    match FirstNamed(config.contexts, ContextName, context)
    case None => Resolution(Err(Fatal(NoCluster)), [], [], args)
    case Some(i) =>
      var entry := config.contexts[i];
      var namespace := args.namespace.GetOr(entry.namespace.GetOr("default"));
      ResolveFrom(env, world, m, args.(namespace := Some(namespace)),
                  AtNamespace(tool, versions, context, namespace, entry.cluster, config))
  }

  /** The namespace must exist. */
  function NamespaceGate(env: Env, world: World, m: nat, args: ArgValues, tool: Tool, versions: Versions,
                         context: string, namespace: string, cluster: string, config: KubeConfig): Resolution
    decreases 1, 0
  {
    var c := NamespaceCommand(tool, context, namespace);
    match world(m, c)
    case NonZeroExit(_, _) => Resolution(Err(Fatal(NoNamespace(namespace))), [c], [], args)
    case OsError(_) => Resolution(Err(Crash(OSError)), [c], [], args)
    case Completed(_) =>
      After([c], ResolveFrom(env, world, m + 1, args, AtServer(versions, context, namespace, cluster, config)))
  }

  /** The server, the final tool, the progress lines and the local-VM check. */
  function ServerGate(env: Env, world: World, m: nat, args: ArgValues, versions: Versions,
                      context: string, namespace: string, cluster: string, config: KubeConfig): Resolution
  {
    match FirstNamed(config.clusters, ClusterName, cluster)
    case None => Resolution(Err(Fatal(NoServer)), [], [], args)
    case Some(j) =>
      var server := config.clusters[j].server;
      match KubectlOrOc(server, env.ocOnPath, env.urlopen)
      case Err(f) => Resolution(Err(f), [], [], args)
      case Ok(command) =>
        var inVm := InLocalVm(context, command, server, world(m, MinishiftIp));
        var lines := [CommandMessage(command, versions.kubectl), ContextMessage(context, namespace, versions.cluster)]
          + (if inVm then [LocalVmMessage] else []);
        var settings := Settings(command, context, namespace, cluster, server,
                                 versions.kubectl, versions.cluster, args.verbose, inVm);
        Resolution(Ok(settings), if RunsMinishift(context, command) then [MinishiftIp] else [], lines, args)
  }

  /** `KubeInfo(runner, args)` for a runner that has already run `n` commands. */
  function Resolve(env: Env, world: World, n: nat, given: ArgValues): Resolution
  {
    ResolveFrom(env, world, n, given, Start)
  }

  /** With neither tool on the path the resolution fails before it runs any command. */
  lemma NeitherToolFails(env: Env, world: World, n: nat, given: ArgValues)
    requires !env.kubectlOnPath && !env.ocOnPath
    ensures Resolve(env, world, n, given) == Resolution(Err(Fatal(NeitherTool)), [], [], given)
  {
  }

  /**
    The set-up calls use the preliminary tool: the first command is the
    version query of `kubectl` when it is on the path and of `oc` otherwise.
  */
  lemma FirstCommandUsesPrelimTool(env: Env, world: World, n: nat, given: ArgValues)
    requires env.kubectlOnPath || env.ocOnPath
    ensures |Resolve(env, world, n, given).commands| >= 1
    ensures Resolve(env, world, n, given).commands[0]
      == VersionCommand(if env.kubectlOnPath then Kubectl else Oc)
  {
  }

  /**
    When no context is given and `config current-context` exits non-zero,
    the resolution fails with the no-context message (with the sudo hint
    for root) and reads no config.
  */
  lemma NoCurrentContextFails(env: Env, world: World, n: nat, given: ArgValues, tool: Tool)
    requires PrelimTool(env.kubectlOnPath, env.ocOnPath) == Ok(tool)
    requires ParseVersions(world(n, VersionCommand(tool))).Ok?
    requires given.context.None? && world(n + 1, CurrentContextCommand(tool)).NonZeroExit?
    ensures Resolve(env, world, n, given).outcome == Err(Fatal(NoContext(env.euid == 0)))
    ensures Resolve(env, world, n, given).commands == [VersionCommand(tool), CurrentContextCommand(tool)]
  {
    var versions := ParseVersions(world(n, VersionCommand(tool))).value;
    assert Resolve(env, world, n, given) == VersionGate(env, world, n, given)
      == After([VersionCommand(tool)], ResolveFrom(env, world, n + 1, given, AtContext(tool, versions)));
    assert ResolveFrom(env, world, n + 1, given, AtContext(tool, versions)) == ContextGate(env, world, n + 1, given, tool, versions);
  }

  /**
    The gates after the config is loaded, all or nothing: a missing context
    entry, a missing namespace or a missing cluster entry fails with its own
    message, and a success takes the cluster and namespace from the first
    entry named after the context (a given namespace wins, then the entry's,
    then "default"), the server from the first cluster entry with that
    cluster's name, and the tool from probing that server.
  */
  lemma ClusterGates(env: Env, world: World, m: nat, given: ArgValues, tool: Tool, versions: Versions,
                     context: string, config: KubeConfig)
    ensures var r := ResolveFrom(env, world, m, given, AtCluster(tool, versions, context, config));
      && (FirstNamed(config.contexts, ContextName, context).None? ==>
            r.outcome == Err(Fatal(NoCluster)) && r.commands == [])
      && (FirstNamed(config.contexts, ContextName, context).Some? ==>
            var entry := config.contexts[FirstNamed(config.contexts, ContextName, context).value];
            var namespace := if given.namespace.Some? then given.namespace.value
                             else if entry.namespace.Some? then entry.namespace.value else "default";
            var c := NamespaceCommand(tool, context, namespace);
            && |r.commands| >= 1 && r.commands[0] == c
            && r.args == given.(namespace := Some(namespace))
            && (world(m, c).NonZeroExit? ==> r.outcome == Err(Fatal(NoNamespace(namespace))))
            && (world(m, c).Completed? && FirstNamed(config.clusters, ClusterName, entry.cluster).None? ==>
                  r.outcome == Err(Fatal(NoServer)))
            && (r.outcome.Ok? ==>
                  var s := r.outcome.value;
                  && world(m, c).Completed?
                  && s.context == context && s.namespace == namespace && s.cluster == entry.cluster
                  && FirstNamed(config.clusters, ClusterName, entry.cluster).Some?
                  && s.server == config.clusters[FirstNamed(config.clusters, ClusterName, entry.cluster).value].server
                  && KubectlOrOc(s.server, env.ocOnPath, env.urlopen) == Ok(s.command)
                  && s.verbose == given.verbose))
  {
    var stage := AtCluster(tool, versions, context, config);
    if FirstNamed(config.contexts, ContextName, context).Some? {
      var entry := config.contexts[FirstNamed(config.contexts, ContextName, context).value];
      var namespace := given.namespace.GetOr(entry.namespace.GetOr("default"));
      var args := given.(namespace := Some(namespace));
      var next := AtNamespace(tool, versions, context, namespace, entry.cluster, config);
      assert ResolveFrom(env, world, m, given, stage) == ResolveFrom(env, world, m, args, next);
      var c := NamespaceCommand(tool, context, namespace);
      if world(m, c).Completed? {
        var last := AtServer(versions, context, namespace, entry.cluster, config);
        assert ResolveFrom(env, world, m, args, next) == After([c], ResolveFrom(env, world, m + 1, args, last));
      }
    }
  }

  /**
    The example of a one-context config: resolving context "a" gives
    namespace "ns1", cluster "c1" and server "https://x"; asking for a
    context the config lacks fails with the cluster message, not a crash.
  */
  lemma OneContextExample(env: Env, world: World, m: nat)
    requires !env.ocOnPath
    requires forall i: nat, argv :: world(i, argv) == Completed("")
    ensures var config := KubeConfig([ContextEntry("a", "c1", Some("ns1"))], [ClusterEntry("c1", "https://x")]);
      var versions := Versions("1.10.0", "1.10.0");
      var given := ArgValues(None, None, false);
      && ResolveFrom(env, world, m, given, AtCluster(Kubectl, versions, "a", config)).outcome
         == Ok(Settings(Kubectl, "a", "ns1", "c1", "https://x", "1.10.0", "1.10.0", false, false))
      && ResolveFrom(env, world, m, given, AtCluster(Kubectl, versions, "missing", config)).outcome
         == Err(Fatal(NoCluster))
  {
    var config := KubeConfig([ContextEntry("a", "c1", Some("ns1"))], [ClusterEntry("c1", "https://x")]);
    assert ContextName(config.contexts[0]) == "a";
    assert ClusterName(config.clusters[0]) == "c1";
    assert FirstNamed(config.contexts, ContextName, "a") == Some(0);
    assert FirstNamed(config.clusters, ClusterName, "c1") == Some(0);
    assert ContextName(config.contexts[0]) != "missing";
    var versions := Versions("1.10.0", "1.10.0");
    var args := ArgValues(None, Some("ns1"), false);
    var c := NamespaceCommand(Kubectl, "a", "ns1");
    assert ResolveFrom(env, world, m, ArgValues(None, None, false), AtCluster(Kubectl, versions, "a", config))
      == NamespaceGate(env, world, m, args, Kubectl, versions, "a", "ns1", "c1", config)
      == After([c], ServerGate(env, world, m + 1, args, versions, "a", "ns1", "c1", config));
  }

  // ---------------------------------------------------------------------
  // The builder

  /** An argument of `kubectl(...)`: a string, or a whole list of strings. */
  datatype Arg = Word(text: string) | Words(items: seq<string>)

  /** The arguments `__call__` appends: a single list stands for its items, otherwise the strings given. */
  function CallArguments(inArgs: seq<Arg>): (r: seq<string>)
    requires |inArgs| == 1 || forall i :: 0 <= i < |inArgs| ==> inArgs[i].Word?
    ensures |inArgs| == 1 && inArgs[0].Words? ==> r == inArgs[0].items
    ensures !(|inArgs| == 1 && inArgs[0].Words?) ==> |r| == |inArgs| && forall i :: 0 <= i < |r| ==> r[i] == inArgs[i].text
  {
    if |inArgs| == 1 && inArgs[0].Words? then inArgs[0].items
    else seq(|inArgs|, i requires 0 <= i < |inArgs| => inArgs[i].text)
  }

  /** The command line for running the tool against the resolved context and namespace. */
  function CommandLine(s: Settings, args: seq<string>): seq<string>
  {
    [s.command.Name()] + (if s.verbose then ["--v=4"] else []) + ["--context", s.context, "--namespace", s.namespace] + args
  }

  /** The parts of a command line: tool name, verbosity, context, namespace and arguments. */
  datatype CommandParts = CommandParts(tool: string, verbose: bool, context: string, namespace: string, args: seq<string>)

  /** Reads a command line back into its parts. */
  function ParseCommandLine(line: seq<string>): Option<CommandParts>
  {
    if |line| < 5 then None
    else
      var verbose := line[1] == "--v=4";
      var k := if verbose then 2 else 1;
      if |line| < k + 4 || line[k] != "--context" || line[k + 2] != "--namespace" then None
      else Some(CommandParts(line[0], verbose, line[k + 1], line[k + 3], line[k + 4..]))
  }

  /**
    The shape of the command line: 5 words, one more when verbose, then the
    arguments; reading it back gives the tool, the verbosity, the context,
    the namespace and the arguments it was built from.
  */
  lemma CommandLineRoundTrip(s: Settings, args: seq<string>)
    ensures |CommandLine(s, args)| == 5 + (if s.verbose then 1 else 0) + |args|
    ensures ParseCommandLine(CommandLine(s, args))
      == Some(CommandParts(s.command.Name(), s.verbose, s.context, s.namespace, args))
  {
    var line := CommandLine(s, args);
    var k := if s.verbose then 2 else 1;
    assert line[k..k + 4] == ["--context", s.context, "--namespace", s.namespace];
    assert line[k + 4..] == args;
  }

  // ---------------------------------------------------------------------
  // final_checks

  /** The sentinel query `final_checks` runs. */
  const ConnectivityArgs: seq<string> := ["get", "pods", "telepresence-connectivity-check", "--ignore-not-found"]

  /** The outcome of the final check and the lines it writes to standard error. */
  datatype Check = Check(outcome: Result<()>, stderr: seq<string>)

  /**
    The classification of the connectivity query: it passes when the
    command runs; a non-zero exit echoes the exception and the captured
    output and fails with "Cluster access failed"; an OS error fails with a
    different message.
  */
  function FinalVerdict(run: Run): (r: Check)
    ensures r.outcome.Ok? <==> run.Completed?
    ensures run.Completed? ==> r.stderr == []
    ensures run.NonZeroExit? ==>
              && r.outcome == Err(Fatal(ClusterAccessFailed))
              && |r.stderr| >= 1 && r.stderr[0] == "Error accessing Kubernetes: " + run.description + "\n"
              && |r.stderr| == (if run.output != [] then 2 else 1)
              && (run.output != [] ==> r.stderr[1] == Strip(run.output) + "\n")
    ensures run.OsError? ==> r.outcome == Err(Fatal(AccessError(run.description))) && r.stderr == []
  {
    match run
    case Completed(_) => Check(Ok(()), [])
    case NonZeroExit(description, output) =>
      var lines := ["Error accessing Kubernetes: " + description + "\n"]
        + (if output != [] then [Strip(output) + "\n"] else []);
      Check(Err(Fatal(ClusterAccessFailed)), lines)
    case OsError(description) =>
      Check(Err(Fatal(AccessError(description))), [])
  }

  // ---------------------------------------------------------------------
  // Objects

  /** The command-line arguments `KubeInfo` reads and fills in. */
  class Args {
    var context: Option<string>
    var namespace: Option<string>
    const verbose: bool

    constructor (context: Option<string>, namespace: Option<string>, verbose: bool)
      ensures this.context == context && this.namespace == namespace && this.verbose == verbose
    {
      this.context := context;
      this.namespace := namespace;
      this.verbose := verbose;
    }

    function Values(): ArgValues
      reads this
    {
      ArgValues(context, namespace, verbose)
    }
  }

  /** The local machine's Kubernetes configuration. */
  class KubeInfo {
    var command: Tool
    var context: string
    var namespace: string
    var cluster: string
    var server: string
    var kubectlVersion: string
    var clusterVersion: string
    var verbose: bool
    var inLocalVm: bool

    /** A fresh object whose fields are not set yet. */
    constructor Blank()
      ensures context == "" && namespace == "" && server == ""
    {
      command := Kubectl;
      context := "";
      namespace := "";
      cluster := "";
      server := "";
      kubectlVersion := "";
      clusterVersion := "";
      verbose := false;
      inLocalVm := false;
    }

    /** The fields of this object as a value. */
    function Fields(): Settings
      reads this
    {
      Settings(command, context, namespace, cluster, server, kubectlVersion, clusterVersion, verbose, inLocalVm)
    }

    /**
      `KubeInfo(runner, args)`: passes the gates one after another, setting
      the fields as it goes and filling in `args.context` and
      `args.namespace`; any gate that fails ends the construction and no
      object is returned.
    */
    static method Create(runner: Runner, env: Env, args: Args) returns (r: Result<KubeInfo>)
      modifies runner, args
      ensures var res := Resolve(env, runner.world, |old(runner.log)|, old(args.Values()));
        && runner.log == old(runner.log) + res.commands
        && runner.written == old(runner.written) + res.written
        && args.Values() == res.args
        && (res.outcome.Ok? ==> r.Ok? && fresh(r.value) && r.value.Fields() == res.outcome.value)
        && (res.outcome.Err? ==> r == Err(res.outcome.failure))
    {
      ghost var m := |runner.log|;
      ghost var given := args.Values();
      ghost var res := ResolveFrom(env, runner.world, m, given, Start);
      var prelim := PrelimTool(env.kubectlOnPath, env.ocOnPath);
      if prelim.Err? {
        assert res == Resolution(Err(prelim.failure), [], [], given);
        return Err(prelim.failure);
      }
      var tool := prelim.value;
      var c := VersionCommand(tool);
      var versionRun := runner.GetOutput(c);
      var parsed := ParseVersions(versionRun);
      if parsed.Err? {
        assert res == Resolution(Err(parsed.failure), [c], [], given);
        return Err(parsed.failure);
      }
      var versions := parsed.value;
      assert res == After([c], ResolveFrom(env, runner.world, m + 1, given, AtContext(tool, versions)));
      var info := new KubeInfo.Blank();
      info.kubectlVersion, info.clusterVersion := versions.kubectl, versions.cluster;
      var gates := info.FindContext(runner, env, args, tool);
      if gates.Err? {
        return Err(gates.failure);
      }
      r := Ok(info);
    }

    /** The context of `__init__`: the one given, or else the current one, which fills in `args.context`. */
    method FindContext(runner: Runner, env: Env, args: Args, tool: Tool) returns (r: Result<()>)
      modifies this, runner, args
      ensures var res := ContextGate(env, runner.world, |old(runner.log)|, old(args.Values()), tool,
                                     Versions(old(kubectlVersion), old(clusterVersion)));
        && runner.log == old(runner.log) + res.commands
        && runner.written == old(runner.written) + res.written
        && args.Values() == res.args
        && (res.outcome.Ok? ==> r.Ok? && Fields() == res.outcome.value)
        && (res.outcome.Err? ==> r == Err(res.outcome.failure))
    {
      ghost var m := |runner.log|;
      ghost var given := args.Values();
      ghost var versions := Versions(kubectlVersion, clusterVersion);
      ghost var res := ContextGate(env, runner.world, m, given, tool, versions);
      if args.context.None? {
        var c := CurrentContextCommand(tool);
        var contextRun := runner.GetOutput(c);
        var found := CurrentContext(contextRun, env.euid);
        if found.Err? {
          assert res == Resolution(Err(found.failure), [c], [], given);
          return Err(found.failure);
        }
        args.context := Some(found.value);
        assert res == After([c], ResolveFrom(env, runner.world, m + 1, args.Values(), AtConfig(tool, versions, found.value)));
      } else {
        assert res == ResolveFrom(env, runner.world, m, given, AtConfig(tool, versions, args.context.value));
      }
      context := args.context.value;
      r := ReadConfig(runner, env, args, tool);
    }

    /** `config view -o json`: the kube-config the rest of `__init__` reads. */
    method ReadConfig(runner: Runner, env: Env, args: Args, tool: Tool) returns (r: Result<()>)
      modifies this, runner, args
      ensures var res := ConfigGate(env, runner.world, |old(runner.log)|, old(args.Values()), tool,
                                    Versions(old(kubectlVersion), old(clusterVersion)), old(context));
        && runner.log == old(runner.log) + res.commands
        && runner.written == old(runner.written) + res.written
        && args.Values() == res.args
        && (res.outcome.Ok? ==> r.Ok? && Fields() == res.outcome.value)
        && (res.outcome.Err? ==> r == Err(res.outcome.failure))
    {
      ghost var m := |runner.log|;
      ghost var given := args.Values();
      ghost var versions := Versions(kubectlVersion, clusterVersion);
      ghost var res := ConfigGate(env, runner.world, m, given, tool, versions, context);
      var c := ConfigCommand(tool);
      var configRun := runner.GetOutput(c);
      var loaded := LoadConfig(configRun, env.decodeConfig);
      if loaded.Err? {
        assert res == Resolution(Err(loaded.failure), [c], [], given);
        return Err(loaded.failure);
      }
      assert res == After([c], ResolveFrom(env, runner.world, m + 1, given, AtCluster(tool, versions, context, loaded.value)));
      r := LookUpCluster(runner, env, args, tool, loaded.value);
    }

    /**
      The second half of `__init__`: the context entry gives the cluster
      and, unless one was given, the namespace; the namespace must exist.
    */
    method LookUpCluster(runner: Runner, env: Env, args: Args, tool: Tool, config: KubeConfig) returns (r: Result<()>)
      modifies this, runner, args
      ensures var res := ClusterGate(env, runner.world, |old(runner.log)|, old(args.Values()), tool,
                                     Versions(old(kubectlVersion), old(clusterVersion)), old(context), config);
        && runner.log == old(runner.log) + res.commands
        && runner.written == old(runner.written) + res.written
        && args.Values() == res.args
        && (res.outcome.Ok? ==> r.Ok? && Fields() == res.outcome.value)
        && (res.outcome.Err? ==> r == Err(res.outcome.failure))
    {
      ghost var m := |runner.log|;
      ghost var given := args.Values();
      ghost var versions := Versions(kubectlVersion, clusterVersion);
      ghost var res := ClusterGate(env, runner.world, m, given, tool, versions, context, config);
      var i := ScanByName(config.contexts, ContextName, context);
      if i == |config.contexts| {
        assert res == Resolution(Err(Fatal(NoCluster)), [], [], given);
        return Err(Fatal(NoCluster));
      }
      var entry := config.contexts[i];
      if args.namespace.None? {
        args.namespace := Some(entry.namespace.GetOr("default"));
      }
      assert res == ResolveFrom(env, runner.world, m, args.Values(),
                                AtNamespace(tool, versions, context, args.namespace.value, entry.cluster, config));
      cluster := entry.cluster;
      r := CheckNamespace(runner, env, args.Values(), tool, config);
    }

    /** `get ns` on the namespace: a failure ends the construction, success moves on to the server. */
    method CheckNamespace(runner: Runner, env: Env, args: ArgValues, tool: Tool, config: KubeConfig) returns (r: Result<()>)
      requires args.namespace.Some?
      modifies this, runner
      ensures var res := NamespaceGate(env, runner.world, |old(runner.log)|, args, tool,
                                       Versions(old(kubectlVersion), old(clusterVersion)),
                                       old(context), args.namespace.value, old(cluster), config);
        && runner.log == old(runner.log) + res.commands
        && runner.written == old(runner.written) + res.written
        && (res.outcome.Ok? ==> r.Ok? && Fields() == res.outcome.value)
        && (res.outcome.Err? ==> r == Err(res.outcome.failure))
    {
      ghost var m := |runner.log|;
      ghost var versions := Versions(kubectlVersion, clusterVersion);
      ghost var next := AtServer(versions, context, args.namespace.value, cluster, config);
      ghost var res := NamespaceGate(env, runner.world, m, args, tool, versions, context, args.namespace.value, cluster, config);
      var c := NamespaceCommand(tool, context, args.namespace.value);
      var namespaceRun := runner.GetOutput(c);
      if namespaceRun.NonZeroExit? {
        assert res == Resolution(Err(Fatal(NoNamespace(args.namespace.value))), [c], [], args);
        return Err(Fatal(NoNamespace(args.namespace.value)));
      } else if namespaceRun.OsError? {
        assert res == Resolution(Err(Crash(OSError)), [c], [], args);
        return Err(Crash(OSError));
      }
      assert res == After([c], ResolveFrom(env, runner.world, m + 1, args, next));
      namespace := args.namespace.value;
      r := LookUpServer(runner, env, args, config);
    }

    /**
      The end of `__init__`: the cluster entry gives the server, probing the
      server gives the tool, and the local-VM check runs.
    */
    method LookUpServer(runner: Runner, env: Env, args: ArgValues, config: KubeConfig) returns (r: Result<()>)
      modifies this, runner
      ensures var res := ServerGate(env, runner.world, |old(runner.log)|, args,
                                    Versions(old(kubectlVersion), old(clusterVersion)),
                                    old(context), old(namespace), old(cluster), config);
        && runner.log == old(runner.log) + res.commands
        && runner.written == old(runner.written) + res.written
        && (res.outcome.Ok? ==> r.Ok? && Fields() == res.outcome.value)
        && (res.outcome.Err? ==> r == Err(res.outcome.failure))
    {
      ghost var m := |runner.log|;
      ghost var versions := Versions(kubectlVersion, clusterVersion);
      ghost var res := ServerGate(env, runner.world, m, args, versions, context, namespace, cluster, config);
      var j := ScanByName(config.clusters, ClusterName, cluster);
      if j == |config.clusters| {
        assert res == Resolution(Err(Fatal(NoServer)), [], [], args);
        return Err(Fatal(NoServer));
      }
      server := config.clusters[j].server;
      var choice := KubectlOrOc(server, env.ocOnPath, env.urlopen);
      if choice.Err? {
        assert res == Resolution(Err(choice.failure), [], [], args);
        return Err(choice.failure);
      }
      var tool := choice.value;
      command := tool;
      verbose := args.verbose;
      Announce(runner);
      r := Ok(());
    }

    /**
      The progress lines of `__init__`: the tool and its version, then the
      context, namespace and cluster version, then the local-VM check and,
      when it finds a VM, a line saying so.
    */
    method Announce(runner: Runner)
      modifies this, runner
      ensures Fields() == old(Fields()).(inLocalVm := inLocalVm)
      ensures inLocalVm == InLocalVm(context, command, server, runner.world(|old(runner.log)|, MinishiftIp))
      ensures runner.log == old(runner.log) + (if RunsMinishift(context, command) then [MinishiftIp] else [])
      ensures runner.written == old(runner.written)
        + [CommandMessage(command, kubectlVersion), ContextMessage(context, namespace, clusterVersion)]
        + (if inLocalVm then [LocalVmMessage] else [])
    {
      runner.Write(CommandMessage(command, kubectlVersion));
      runner.Write(ContextMessage(context, namespace, clusterVersion));
      inLocalVm := CheckIfInLocalVm(runner);
      if inLocalVm {
        runner.Write(LocalVmMessage);
      }
    }

    /** `_check_if_in_local_vm`, on this object's own server. */
    method CheckIfInLocalVm(runner: Runner) returns (inVm: bool)
      modifies runner
      ensures runner.log == old(runner.log) + (if RunsMinishift(context, command) then [MinishiftIp] else [])
      ensures runner.written == old(runner.written)
      ensures inVm == InLocalVm(context, command, server, runner.world(|old(runner.log)|, MinishiftIp))
    {
      if context == "minikube" {
        return true;
      }
      if command == Oc {
        var run := runner.GetOutput(MinishiftIp);
        if !run.Completed? {
          return false;
        }
        var ip := Strip(run.output);
        if ip != [] && IsSubstring(ip, server) {
          return true;
        }
      }
      return false;
    }

    /** `kubectl(*in_args)`: the command line for running the tool with the given arguments. */
    method Call(inArgs: seq<Arg>) returns (result: seq<string>)
      requires |inArgs| == 1 || forall i :: 0 <= i < |inArgs| ==> inArgs[i].Word?
      ensures result == CommandLine(Fields(), CallArguments(inArgs))
    {
      var args;
      if |inArgs| == 1 && inArgs[0].Words? {
        args := inArgs[0].items;
      } else {
        args := CallArguments(inArgs);
      }
      result := [command.Name()];
      if verbose {
        result := result + ["--v=4"];
      }
      result := result + ["--context", context];
      result := result + ["--namespace", namespace];
      result := result + args;
    }
  }

  /** The connectivity query of `final_checks`, built by the resolved `KubeInfo`. */
  function ConnectivityCommand(s: Settings): seq<string>
  {
    CommandLine(s, ConnectivityArgs)
  }

  /** `final_checks(runner, args)`: runs the sentinel query and classifies how it ends. */
  method FinalChecks(runner: Runner, kubectl: KubeInfo) returns (outcome: Result<()>, stderr: seq<string>)
    modifies runner
    ensures runner.log == old(runner.log) + [ConnectivityCommand(kubectl.Fields())]
    ensures runner.written == old(runner.written)
    ensures Check(outcome, stderr) == FinalVerdict(runner.world(|old(runner.log)|, ConnectivityCommand(kubectl.Fields())))
  {
    var query := [Word("get"), Word("pods"), Word("telepresence-connectivity-check"), Word("--ignore-not-found")];
    assert CallArguments(query) == ConnectivityArgs;
    var argv := kubectl.Call(query);
    var run := runner.GetOutput(argv);
    stderr := [];
    match run {
      case Completed(_) =>
        outcome := Ok(());
      case NonZeroExit(description, output) =>
        stderr := stderr + ["Error accessing Kubernetes: " + description + "\n"];
        if output != [] {
          stderr := stderr + [Strip(output) + "\n"];
        }
        outcome := Err(Fatal(ClusterAccessFailed));
      case OsError(description) =>
        outcome := Err(Fatal(AccessError(description)));
    }
  }
}

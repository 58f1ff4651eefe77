# Telepresence start-up and proxy ranges, modelled in Dafny

Telepresence starts by working out how to talk to the user's Kubernetes
cluster (`telepresence/startup.py`). It also works out which IP ranges
to send through its VPN-like tunnel (`telepresence/outbound/vpn.py`).
This project models both parts and proves what each one does.

- **Start-up (module `Startup`).** `kubectl_or_oc` chooses between
  `kubectl` and `oc` by probing the API server for an OpenShift
  endpoint. `KubeInfo.__init__` then runs its gates in order:
  1. a preliminary tool,
  2. the client and server versions,
  3. the current context,
  4. the kubeconfig,
  5. the context's cluster and namespace,
  6. a check that the namespace exists,
  7. the cluster's server,
  8. the final tool,
  9. the log lines and the local-VM check.

  `KubeInfo.__call__` builds a `kubectl` command line. `final_checks`
  runs the connectivity check and reports its failure.
- **Proxy ranges (module `Vpn`).**
  - `covering_cidr` gives the smallest network of prefix length at most 24
    that holds a list of addresses. Its collapse-and-widen loop is in
    `Cidr`, over the network arithmetic of `Ipv4`.
  - `k8s_resolve` sorts `--also-proxy` targets into ranges and hostnames,
    resolves the hostnames inside the cluster and caches the answers.
  - `podCIDRs` reads the pod ranges from the nodes, or falls back to a
    cover of the pod IPs.
  - `serviceCIDR` creates services until at least eight cluster IPs
    exist, covers them, then deletes what it created.
  - `get_proxy_cidrs` combines the three, and caches the pod and service
    ranges per context.
- **Supporting modules.**
  - `Text` models the Python string operations the code relies on:
    `strip`, `split`, `join` and substring `in`.
  - `Messages` holds each `runner.fail` message as a value, with its text.
  - `Execution` holds a subprocess outcome (`Run`), the failure an outcome
    raises, and a `Runner` class. The class records each command it runs
    and each line written to the log file.

External effects are parameters:
- The functions of `vpn.py` take `kubectl`, a function from arguments to a
  command line. In the program this is `runner.kubectl`, the
  `KubeInfo.__call__` of `Startup.KubeInfo.Call`. Nothing in `Vpn` depends
  on its shape, so it stays a parameter there.
- Every subprocess is answered by a `World` oracle from its position in the
  runner's command log and its argument vector.
- `shutil.which` is a boolean on the environment record.
- `urlopen` is a function from URL to probe outcome.
- `os.geteuid` is a number on the environment record.
- JSON and `ipaddress` parsing are functions that return `None` on
  malformed input.

Each imperative piece of the source is a method over the `Runner` (and
over the `KubeInfo` or `ContextCache` object it updates). It is proved equal
to a function that states the whole effect: the outcome, the commands run
in order, the lines written, and the new cache. Lemmas then state what the
source promises about those functions.

The code disagrees with its own intent in one place. Line 179 of
`startup.py` says to check by the server, and `_check_if_in_local_vm`
reads `runner.kubectl.server`. But it runs while the `KubeInfo` is still
being built, so it should read that object's own `server`. The model
follows the code for the as-written member and uses the corrected reading
in construction (see "## Findings").

## Model

| member | source | states |
|---|---|---|
| Startup.KubectlOrOc | telepresence/startup.py:32-51 | Without `oc` on the path the tool is kubectl. With `oc`, it is oc exactly when reading `<server>/version/openshift` succeeds and kubectl on URLError or HTTPError. Any other exception escapes as a crash. |
| Startup.KubectlOrOcProbesOneUrl | telepresence/startup.py:38-51 | The choice depends only on the outcome of probing that one URL. |
| Startup.PrelimTool | telepresence/startup.py:64-72 | Preliminary tool: kubectl exactly when it is on the path, oc exactly when only oc is, and otherwise the "Found neither" failure. |
| Startup.NeitherToolFails | telepresence/startup.py:64-72 | With neither tool on the path, construction fails with "Found neither", runs no command and writes nothing. |
| Startup.FirstCommandUsesPrelimTool | telepresence/startup.py:64-77 | Otherwise the first command run is `version --short` with the preliminary tool. |
| Startup.VersionField | telepresence/startup.py:78-79 | A version is found exactly when the line splits on ": v" into at least two parts. Otherwise IndexError. |
| Startup.ParseVersions | telepresence/startup.py:74-82 | A failing version command sets both versions to the "(error: …)" placeholder. An OSError escapes. Unparseable output raises IndexError. |
| Startup.ParseVersionOutput | telepresence/startup.py:74-79 | Round trip: the `Client Version`/`Server Version` output of two versions parses back to those versions. |
| Startup.ParseVersionLines | telepresence/startup.py:74-79 | The same for any two colon-free headings. |
| Startup.LabelledVersion | telepresence/startup.py:78 | "heading: v" followed by a version parses to that version. |
| Startup.CurrentContext | telepresence/startup.py:86-105 | The output of `config current-context` is the context. A failing command gives "No current-context", with the sudo hint exactly when the effective user is root. An OSError escapes. |
| Messages.SudoHintOnlyForRoot | telepresence/startup.py:93-105 | The "No current-context" text ends with the sudo hint exactly when running as root. |
| Startup.NoCurrentContextFails | telepresence/startup.py:86-105 | With no `--context` and a failing `current-context`, construction fails with that message after exactly the version and context commands. |
| Startup.LoadConfig | telepresence/startup.py:111-113 | The kubeconfig is read exactly when `config view` completes and its output decodes. Otherwise a completed run raises ValueError. |
| Startup.FirstNamedIsFirst | telepresence/startup.py:114-123 | The lookup gives the first entry with the wanted name. It gives none exactly when no entry has that name (`for … else`). |
| Startup.ScanByName | telepresence/startup.py:114-121 | The scanning loop stops at that first entry, or at the end when there is none. |
| Startup.ClusterGates | telepresence/startup.py:114-143 | A missing context fails with "Unable to find cluster information" before any command. Otherwise the namespace is `--namespace`, then the context's, then "default". `get ns` runs first, and its failure gives "Namespace … does not exist". A missing cluster gives "Unable to find server information". On success the context, namespace, cluster, server, tool (by `kubectl_or_oc` on that server) and verbosity are the ones named. |
| Startup.OneContextExample | telepresence/startup.py:114-143 | A concrete kubeconfig with one context resolves to its cluster and namespace, and an unknown context fails. |
| Startup.KubeInfo.Create | telepresence/startup.py:57-157 | Construction runs exactly the commands, writes exactly the lines and updates `args` exactly as the gate functions say. It yields a fresh object with the resolved fields, or the gates' failure. |
| Startup.KubeInfo.FindContext | telepresence/startup.py:84-106 | The context gate onwards, on the object's fields. |
| Startup.KubeInfo.ReadConfig | telepresence/startup.py:108-113 | The kubeconfig gate onwards. |
| Startup.KubeInfo.LookUpCluster | telepresence/startup.py:114-123 | The context-entry scan onwards, assigning `args.namespace` and the cluster. |
| Startup.KubeInfo.CheckNamespace | telepresence/startup.py:125-133 | The namespace check onwards. |
| Startup.KubeInfo.LookUpServer | telepresence/startup.py:135-143 | The server scan, tool choice and verbosity onwards. |
| Startup.KubeInfo.Announce | telepresence/startup.py:145-155 | Writes the Command and Context lines, then the local-VM line exactly when the check says so. Only `inLocalVm` changes. |
| Startup.KubeInfo.CheckIfInLocalVm | telepresence/startup.py:175-187 | Runs `minishift ip` exactly when the context is not "minikube" and the tool is oc. The answer is `InLocalVm` of the object's own server. |
| Startup.InLocalVmMeaning | telepresence/startup.py:175-187 | In a local VM exactly when the context is "minikube", or the tool is oc and the stripped, non-empty output of `minishift ip` occurs in the server. |
| Startup.InLocalVmAsWritten | telepresence/startup.py:185 | Reading the runner's `kubectl.server` agrees with the corrected check when that attribute exists. It raises exactly when it does not and the comparison is reached. |
| Startup.LocalVmCheckReadsWrongServer | telepresence/startup.py:185 | A minishift IP found in the server: the code as written raises AttributeError, and the corrected check says "in a local VM". |
| Startup.CallArguments | telepresence/startup.py:161-166 | A single non-string argument supplies the whole list. Otherwise the arguments themselves, in order. |
| Startup.KubeInfo.Call | telepresence/startup.py:159-173 | The command line is the object's fields rendered by `CommandLine` around those arguments. |
| Startup.CommandLineRoundTrip | telepresence/startup.py:167-173 | The line is tool, optional `--v=4`, `--context` and `--namespace` with their values, then the arguments. It parses back to exactly those parts. |
| Startup.FinalVerdict | telepresence/startup.py:196-212 | Access is fine exactly when the check completes. A failing check writes exactly the line "Error accessing Kubernetes: …", followed by the stripped output as a second line only when there is output, and fails with "Cluster access failed". An OSError fails with the "Unexpected error" text. |
| Startup.FinalChecks | telepresence/startup.py:190-212 | Runs the connectivity command once; outcome and stderr lines are `FinalVerdict` of its run, and the log file is left unchanged. |
| Messages.AccessErrorIsNotClusterAccess | telepresence/startup.py:204-212 | The two ways `final_checks` fails give different texts. |
| Text.StripTrims | telepresence/startup.py:182 | `strip` leaves a contiguous piece of the text, with only whitespace before and after it. |
| Text.StripEnds | telepresence/startup.py:182 | The stripped text neither starts nor ends with whitespace. |
| Text.StripIdempotent | telepresence/startup.py:182 | Stripping twice is stripping once. |
| Text.StripNewline | telepresence/startup.py:182 | The stripped output "ip\n" is "ip". |
| Text.JoinSplit | telepresence/startup.py:77-79 | Joining the pieces of a split with the separator gives the text back. |
| Text.SplitAt | telepresence/startup.py:77-79 | Splitting at the first separator splits off the part before it. |
| Text.IsSubstringMeaning | telepresence/startup.py:185 | Substring `in` holds exactly when the text occurs at some index. |
| Execution.Escaped | telepresence/outbound/vpn.py:158-163 | A command that does not complete raises CalledProcessError exactly when it exited non-zero. Otherwise it raises OSError. |
| Execution.Checked | telepresence/outbound/vpn.py:207-211 | `check_call` passes exactly when the command completes, and otherwise raises what escapes. |
| Ipv4.Slash24 | telepresence/outbound/vpn.py:43 | The /24 of an address is a valid network of prefix 24 that holds it. |
| Ipv4.Supernet | telepresence/outbound/vpn.py:47 | `supernet()` is valid, one bit shorter, and holds the network. |
| Ipv4.NestedOrDisjoint | telepresence/outbound/vpn.py:38-39 | Two valid networks are nested or disjoint, which is what collapsing relies on. |
| Ipv4.SupernetWithin | telepresence/outbound/vpn.py:47 | Widening a network strictly inside another stays inside it. |
| Ipv4.HalvesFill | telepresence/outbound/vpn.py:38-39 | The two halves of a supernet hold all of its addresses between them, so merging them adds no address. |
| Ipv4.Halves | telepresence/outbound/vpn.py:38-39 | A network longer than one address splits into a lower and an upper half whose supernet it is. |
| Cidr.Insert | telepresence/outbound/vpn.py:38-39 | Adding a network to a collapsed list keeps it collapsed with the same addresses. Collapsed means sorted, disjoint, and no two neighbours are halves of one supernet. A network inside another is dropped, and two halves are merged into their supernet. |
| Cidr.Collapse | telepresence/outbound/vpn.py:38-39 | `collapse_addresses` gives a collapsed list covering the same addresses. |
| Cidr.Fill | telepresence/outbound/vpn.py:38-39 | A network whose every address a collapsed list holds lies inside one network of that list. |
| Cidr.Maximal | telepresence/outbound/vpn.py:38-39 | No network of a collapsed list can be widened within the addresses the list holds. |
| Cidr.CanonicalUnique | telepresence/outbound/vpn.py:38-39 | Two collapsed lists that hold the same addresses are the same list. |
| Cidr.CollapseUnique | telepresence/outbound/vpn.py:38-39 | Any collapsed list with the addresses of the input is `Collapse` of it, so `Collapse` agrees with `collapse_addresses`. |
| Cidr.CollapseMergesHalves | telepresence/outbound/vpn.py:38-39 | 10.0.0.0/24 and 10.0.1.0/24 collapse to 10.0.0.0/23. |
| Cidr.Slash24s | telepresence/outbound/vpn.py:42-44 | The /24 network of each address, in order. |
| Cidr.WidenFirst | telepresence/outbound/vpn.py:47 | The first network replaced by its supernet, the rest unchanged. |
| Cidr.WidenLeast | telepresence/outbound/vpn.py:45-47 | Widening a network until it holds an address stops inside every network that holds both. |
| Cidr.SmallestCover | telepresence/outbound/vpn.py:41-48 | The cover is a valid network of prefix at most 24 holding each address. |
| Cidr.SmallestCoverIsLeast | telepresence/outbound/vpn.py:41-48 | It lies inside every other network holding each address. |
| Cidr.LeastCoverUnique | telepresence/outbound/vpn.py:41-48 | Two such least covers are equal. |
| Cidr.CoveringCidr | telepresence/outbound/vpn.py:41-48 | The collapse-and-widen loop ends with the least cover. |
| Vpn.ParseAllMeaning | telepresence/outbound/vpn.py:42-44 | The texts parse exactly when each one is an address, and then give those addresses in order. |
| Vpn.CoverTextMeaning | telepresence/outbound/vpn.py:31-48 | `covering_cidr` fails its assertion on an empty list and raises ValueError on a text that is not an address. Otherwise it returns the `with_prefixlen` text of the least network holding each address. |
| Vpn.CoveringCidrText | telepresence/outbound/vpn.py:31-48 | The method computes that result. |
| Vpn.BucketsPartition | telepresence/outbound/vpn.py:103-122 | Each target becomes a range (a network, or a cached IP) or a hostname, and nothing else. The two lists together are as long as the targets. |
| Vpn.SortTargets | telepresence/outbound/vpn.py:109-122 | The sorting loop produces those two lists. |
| Vpn.RememberMeaning | telepresence/outbound/vpn.py:147-148 | After storing the pairs, each host maps to the IP of its last pair. Other entries are unchanged. |
| Vpn.StorePairs | telepresence/outbound/vpn.py:147-148 | The storing loop updates the IP cache to exactly that map. |
| Vpn.NoHostnamesNoLookup | telepresence/outbound/vpn.py:124-150 | With no hostname to resolve, nothing runs, the cache is unchanged, and the result is the ranges. |
| Vpn.ResolveUpdatesCache | telepresence/outbound/vpn.py:124-150 | A successful lookup returns the resolved IPs followed by the ranges. It stores the pairs `zip` forms, cut to the shorter list, and leaves other entries unchanged. |
| Vpn.K8sResolve | telepresence/outbound/vpn.py:95-150 | The method runs, writes, caches and returns exactly what `ResolveTargets` says, including the logged DNS failure on a non-zero exit. |
| Vpn.NodeCidrsMeaning | telepresence/outbound/vpn.py:177-181 | A range comes from the nodes exactly when some node gives it as `podCIDR`. |
| Vpn.PodIpsMeaning | telepresence/outbound/vpn.py:168-174 | The pod IPs are exactly those pods that have one, in order. The list is empty exactly when no pod has one. |
| Vpn.PodCidrsFromNodes | telepresence/outbound/vpn.py:158-161 | When the nodes can be listed, `podCIDRs` runs one command, writes nothing, and returns exactly the nodes' ranges. |
| Vpn.PodCidrsFallback | telepresence/outbound/vpn.py:162-176 | When listing nodes fails, it logs "Failed to get nodes", lists the pods, and returns the empty set when no pod has an IP. Otherwise it returns the cover of the pod IPs, failing as that cover fails. |
| Vpn.CollectNodeCidrs | telepresence/outbound/vpn.py:177-181 | The loop collects exactly the nodes' ranges. |
| Vpn.CollectPodIps | telepresence/outbound/vpn.py:168-174 | The loop collects exactly the pod IPs. |
| Vpn.PodCidrs | telepresence/outbound/vpn.py:153-182 | The method runs, writes and returns exactly what `PodCidrsFrom` says. |
| Vpn.ServiceIpsMeaning | telepresence/outbound/vpn.py:192-200 | The service IPs are exactly the cluster IPs other than "None". |
| Vpn.CheckCallsPass | telepresence/outbound/vpn.py:205-219 | A run of `check_call`s passes exactly when every command completes. It then ran exactly those commands and wrote nothing. |
| Vpn.CheckCallsStop | telepresence/outbound/vpn.py:205-219 | After a `check_call` fails, no later command runs. |
| Vpn.CommandsAt | telepresence/outbound/vpn.py:206-219 | The i-th creation and deletion commands name the i-th service. |
| Vpn.ServiceCidrWritesNothing | telepresence/outbound/vpn.py:185-228 | `serviceCIDR` writes nothing to the log file. |
| Vpn.ServiceCidrEnough | telepresence/outbound/vpn.py:202-216 | With eight or more cluster IPs, it only lists and covers them. |
| Vpn.CheckCallsFirstFailure | telepresence/outbound/vpn.py:205-212 | When the f-th `check_call` is the first to fail, exactly the calls through it ran and its error is the outcome. |
| Vpn.CreatingFails | telepresence/outbound/vpn.py:205-212 | From the creations on, the first failing creation ends the work with its error, after the creations through it. |
| Vpn.CreationFailureStops | telepresence/outbound/vpn.py:185-219 | When a creation fails, `serviceCIDR` fails with its error after the first listing and the creations through it. Nothing is listed again and no service is deleted, so the services it created stay in the cluster. |
| Vpn.CoveringCleansUp | telepresence/outbound/vpn.py:216-219 | A successful end deletes each created service in order and returns the cover. |
| Vpn.RelistingCleansUp | telepresence/outbound/vpn.py:213-219 | It lists again exactly when services were created, and covers the latest listing. |
| Vpn.CreatingCleansUp | telepresence/outbound/vpn.py:205-219 | Every creation and every deletion ran, in order. |
| Vpn.ServiceCidrCleansUp | telepresence/outbound/vpn.py:185-219 | On success it created exactly max(0, 8 − n) services, listed again exactly when it created any, deleted exactly those it created in the same order, and returned the cover of the latest listing. |
| Vpn.GetServiceIps | telepresence/outbound/vpn.py:192-200 | One `get services` command, whose output gives the service IPs. |
| Vpn.CreateNext | telepresence/outbound/vpn.py:206-211 | One pass of the creation loop, which stops the loop when it fails. |
| Vpn.CreateServices | telepresence/outbound/vpn.py:205-212 | The creation loop creates the planned names in order and stops at the first failure. |
| Vpn.DeleteServices | telepresence/outbound/vpn.py:218-219 | The deletion loop deletes each created name in order and stops at the first failure. |
| Vpn.CreateAndCover | telepresence/outbound/vpn.py:205-219 | Creating, relisting, covering and deleting behave as `ServiceCidrFrom` says. |
| Vpn.RelistAndCover | telepresence/outbound/vpn.py:213-219 | Relisting, covering and deleting behave as `ServiceCidrFrom` says. |
| Vpn.ServiceCidr | telepresence/outbound/vpn.py:185-219 | The method runs and returns exactly what `ServiceCidrEffect` says. |
| Vpn.ResolveFailureStops | telepresence/outbound/vpn.py:83-89 | When `k8s_resolve` fails, `get_proxy_cidrs` fails with its error after its commands and lines alone. No range is looked up, and the cached pod and service ranges are unchanged. |
| Vpn.PodQueryFailureStops | telepresence/outbound/vpn.py:83-89 | When the pod ranges are not cached and their query fails, `get_proxy_cidrs` fails with that error. After resolving it ran only the pod query, looked up no service range, and cached neither range. |
| Vpn.ServiceLookupOk | telepresence/outbound/vpn.py:87-89 | The service range is added and cached, and the pod entry is untouched. |
| Vpn.PodLookupOk | telepresence/outbound/vpn.py:86-89 | The pod and service ranges are added, and both are then in the cache. |
| Vpn.ProxyCidrsUnion | telepresence/outbound/vpn.py:64-92 | On success a range is returned exactly when it is a resolved target, a pod range or the service range, and both ranges are cached. |
| Vpn.ProxyCidrsCached | telepresence/outbound/vpn.py:84-89 | With both ranges cached, only the target lookup runs, and the cached ranges are returned unchanged. |
| Vpn.AddServiceRange | telepresence/outbound/vpn.py:87-89 | The service lookup, on the runner and the context cache. |
| Vpn.QueryPodRanges | telepresence/outbound/vpn.py:86 | A pod-range miss: the query, storing its result, then the service lookup. |
| Vpn.AddPodRanges | telepresence/outbound/vpn.py:86-89 | The pod lookup onwards. |
| Vpn.GetProxyCidrs | telepresence/outbound/vpn.py:64-92 | `get_proxy_cidrs` runs, writes, caches and returns exactly what `ProxyCidrsFrom` says. |

## Left out

- Subprocesses, `shutil.which`, `urlopen` with its SSL context, and
  `os.geteuid` are parameters, not implementations: the `World` oracle,
  booleans, a probe function and a number.
- JSON decoding and `ipaddress` parsing are parameters that return `None`
  on malformed input. A `KeyError` on a missing JSON field is folded into
  that same ValueError-style failure.
- `telepresence/runner.py` and `telepresence/cache.py` are not part of this
  model. `runner.depend`, `runner.fail`, `runner.span` and `span.end` are
  modelled only by their effect: a fatal failure carries its message, and
  spans do nothing.
- The context cache is a record with three entries: the IP map, the pod
  ranges and the service range. Its persistence to disk and `child`
  nesting are not modelled.
- `random_name` is not modelled. The names it would return are a sequence
  of at least eight strings, which is all `serviceCIDR` can consume.
- The `runner.show` message at the end of `serviceCIDR` (lines 221-227)
  and `runner.chatty` are not modelled.
- The text of `_GET_IPS_PY` is a parameter (`script`). What it does inside
  the pod is the `ips` parser of the oracle's output.
- `connect_sshuttle`, `get_hellotelepresence` and the rest of `vpn.py` and
  `startup.py` outside the functions above are not modelled.
- Vpn.GetProxyCidrs: returns a set, not a list, because `list(set)` has no
  order the code relies on.
- Vpn.PodCidrs: returns a set, for the same reason.
- Startup.KubeInfo.Create: the `stderr=STDOUT` merge of `current-context`
  is not modelled. The oracle's output is taken as the whole text.

## Findings

| source | as written | input that shows it | evidently intended | confidence | as-written member | corrected member |
|---|---|---|---|---|---|---|
| telepresence/startup.py:185 | `_check_if_in_local_vm` tests `ip in runner.kubectl.server`. It runs from `KubeInfo.__init__`, before the runner has this object as its `kubectl`. | A context other than "minikube", tool `oc`, `minishift ip` printing "192.168.99.100\n", and a server holding that IP: the runner has no `kubectl` yet, so reading its `.server` raises AttributeError instead of answering true. | Test the server being set up, `self.server`, and answer true. | not executed | Startup.LocalVmCheckReadsWrongServer | Startup.KubeInfo.CheckIfInLocalVm |

/**
  The proxy ranges of telepresence/outbound/vpn.py: which IP ranges to route
  through the tunnel.  `--also-proxy` targets are resolved inside the
  cluster and remembered in a per-context cache, the pod range comes from
  the nodes (or, failing that, from the pods), and the service range is
  guessed from the services' cluster IPs after topping them up to eight.

  Every `kubectl` command goes through a `Runner` whose outcomes come from
  its world; JSON decoding and `ipaddress` parsing are oracles in `Parsers`.
*/
module Vpn {
  import opened Execution
  import opened Messages
  import opened Ipv4
  import opened Cidr

  // ---------------------------------------------------------------------
  // What the commands return, once decoded

  /** A node's `spec.podCIDR`, which may be missing. */
  datatype Node = Node(podCidr: Option<string>)

  /** A pod's `status.podIP`, which may be missing. */
  datatype Pod = Pod(podIp: Option<string>)

  /** A service's `spec.clusterIP`, which may be missing. */
  datatype Service = Service(clusterIp: Option<string>)

  /** The pod and container the in-cluster lookups run in. */
  datatype RemoteInfo = RemoteInfo(podName: string, containerName: string)

  /**
    The parsing telepresence leaves to `ipaddress` and `json`: `network` is
    `ipaddress.ip_network(target)` as its normalised text, None where it
    raises ValueError; `address` is the address `IPv4Interface(ip + "/24")`
    reads; the others are `json.loads` of a command's output (with
    `["items"]` taken for the lists), None where decoding fails.
  */
  datatype Parsers = Parsers(
    network: string -> Option<string>,
    address: string -> Option<Address>,
    ips: string -> Option<seq<string>>,
    nodes: string -> Option<seq<Node>>,
    pods: string -> Option<seq<Pod>>,
    services: string -> Option<seq<Service>>)

  /** What a step does: its outcome, the commands it runs in order and the lines it writes. */
  datatype Effect<T> = Effect(outcome: Result<T>, commands: seq<seq<string>>, written: seq<string>)

  // ---------------------------------------------------------------------
  // check_call on several commands in turn

  /**
    `check_call` on the first `k` commands in turn: the first command that
    fails stops the rest, and its exception escapes.
  */
  function CheckCalls(world: World, m: nat, commands: seq<seq<string>>, k: nat): (e: Effect<()>)
    requires k <= |commands|
    ensures e.outcome.Ok? ==> |e.commands| == k
    decreases k
  {
    if k == 0 then Effect(Ok(()), [], [])
    else
      var before := CheckCalls(world, m, commands, k - 1);
      if before.outcome.Err? then before
      else
        var run := world(m + k - 1, commands[k - 1]);
        Effect(if run.Completed? then Ok(()) else Err(Escaped(run)), before.commands + [commands[k - 1]], [])
  }

  /** The calls pass exactly when every command completes, and then every command ran. */
  lemma {:induction false} CheckCallsPass(world: World, m: nat, commands: seq<seq<string>>, k: nat)
    requires k <= |commands|
    ensures var e := CheckCalls(world, m, commands, k);
      && (e.outcome.Ok? <==> forall j :: 0 <= j < k ==> world(m + j, commands[j]).Completed?)
      && (e.outcome.Ok? ==> e.commands == commands[..k])
      && e.written == []
    decreases k
  {
    if k > 0 {
      CheckCallsPass(world, m, commands, k - 1);
      assert commands[..k - 1] + [commands[k - 1]] == commands[..k];
    }
  }

  /** When all `k` calls pass, the commands run are exactly the `k` given. */
  lemma CheckCallsRan(world: World, m: nat, commands: seq<seq<string>>, k: nat)
    requires k == |commands| && CheckCalls(world, m, commands, k).outcome.Ok?
    ensures CheckCalls(world, m, commands, k).commands == commands
  {
    CheckCallsPass(world, m, commands, k);
    assert commands[..k] == commands;
  }

  /** Once a call has failed, the commands after it do not run. */
  lemma {:induction false} CheckCallsStop(world: World, m: nat, commands: seq<seq<string>>, k: nat, k': nat)
    requires k <= k' <= |commands|
    requires CheckCalls(world, m, commands, k).outcome.Err?
    ensures CheckCalls(world, m, commands, k') == CheckCalls(world, m, commands, k)
    decreases k'
  {
    if k' > k {
      CheckCallsStop(world, m, commands, k, k' - 1);
    }
  }

  /** One more call after calls that all passed: it runs, and when it fails it is the last. */
  lemma CheckCallsNext(world: World, m: nat, commands: seq<seq<string>>, i: nat)
    requires i < |commands| && CheckCalls(world, m, commands, i).outcome.Ok?
    ensures var run := world(m + i, commands[i]);
      && CheckCalls(world, m, commands, i + 1)
         == Effect(if run.Completed? then Ok(()) else Err(Escaped(run)), CheckCalls(world, m, commands, i).commands + [commands[i]], [])
      && (!run.Completed? ==> CheckCalls(world, m, commands, |commands|) == CheckCalls(world, m, commands, i + 1))
  {
    if !world(m + i, commands[i]).Completed? {
      CheckCallsStop(world, m, commands, i + 1, |commands|);
    }
  }

  /** When the f-th call is the first to fail, the calls through it ran and its error is the outcome. */
  lemma CheckCallsFirstFailure(world: World, m: nat, commands: seq<seq<string>>, k: nat, f: nat)
    requires f < k <= |commands|
    requires forall j :: 0 <= j < f ==> world(m + j, commands[j]).Completed?
    requires !world(m + f, commands[f]).Completed?
    ensures CheckCalls(world, m, commands, k) == Effect(Err(Escaped(world(m + f, commands[f]))), commands[..f + 1], [])
  {
    CheckCallsPass(world, m, commands, f);
    CheckCallsNext(world, m, commands, f);
    assert commands[..f] + [commands[f]] == commands[..f + 1];
    CheckCallsStop(world, m, commands, f + 1, k);
  }

  // ---------------------------------------------------------------------
  // covering_cidr on text

  /** The decimal digit character for `d`. */
  function Digit(d: nat): char
    requires d < 10
  {
    ('0' as int + d) as char
  }

  /** The decimal digits of `n`. */
  function Decimal(n: nat): string
    decreases n
  {
    if n < 10 then [Digit(n)] else Decimal(n / 10) + [Digit(n % 10)]
  }

  /** The octets in decimal, most significant first, separated by dots. */
  function Dotted(octets: seq<nat>): string
    decreases |octets|
  {
    if octets == [] then []
    else if |octets| == 1 then Decimal(octets[0])
    else Dotted(octets[..|octets| - 1]) + ['.'] + Decimal(octets[|octets| - 1])
  }

  /** `network.with_prefixlen`: the dotted-quad base address, a slash and the prefix length. */
  function WithPrefixLen(n: Network): string
  {
    var a := n.base;
    Dotted([a / 0x100_0000 % 256, a / 0x1_0000 % 256, a / 0x100 % 256, a % 256]) + ['/'] + Decimal(n.prefix)
  }

  /** Every text read as an address; the first that does not read makes the whole list fail. */
  function ParseAll(ips: seq<string>, address: string -> Option<Address>): (r: Option<seq<Address>>)
    ensures r.Some? ==> |r.value| == |ips|
  {
    if ips == [] then Some([])
    else match (address(ips[0]), ParseAll(ips[1..], address))
      case (Some(a), Some(rest)) => Some([a] + rest)
      case _ => None
  }

  /** The list reads exactly when every text reads, and then it holds their addresses in order. */
  lemma {:induction false} ParseAllMeaning(ips: seq<string>, address: string -> Option<Address>)
    ensures var r := ParseAll(ips, address);
      && (r.Some? <==> forall i :: 0 <= i < |ips| ==> address(ips[i]).Some?)
      && (r.Some? ==> forall i :: 0 <= i < |ips| ==> address(ips[i]) == Some(r.value[i]))
  {
    if ips != [] {
      ParseAllMeaning(ips[1..], address);
      assert forall i :: 1 <= i < |ips| ==> ips[i] == ips[1..][i - 1];
    }
  }

  /**
    `covering_cidr` on the texts of addresses: an empty list fails its
    assertion, a text that is not an IPv4 address raises ValueError, and
    otherwise the result is the text of the least covering network.
  */
  function CoverText(ips: seq<string>, address: string -> Option<Address>): (r: Result<string>)
  {
    if ips == [] then Err(Crash(AssertionError))
    else match ParseAll(ips, address)
      case None => Err(Crash(ValueError))
      case Some(addresses) => Ok(WithPrefixLen(SmallestCover(addresses)))
  }

  /**
    `covering_cidr` succeeds exactly on a non-empty list of addresses, and
    then names a network of prefix length at most 24 that holds each of them
    and lies inside every other such network.
  */
  lemma CoverTextMeaning(ips: seq<string>, address: string -> Option<Address>)
    ensures var r := CoverText(ips, address);
      && (ips == [] ==> r == Err(Crash(AssertionError)))
      && (r.Ok? <==> ips != [] && forall i :: 0 <= i < |ips| ==> address(ips[i]).Some?)
      && (r.Ok? ==>
            var addresses := seq(|ips|, i requires 0 <= i < |ips| => address(ips[i]).value);
            exists n :: r.value == WithPrefixLen(n) && IsCover(n, addresses)
              && forall m :: IsCover(m, addresses) ==> Within(n, m))
  {
    ParseAllMeaning(ips, address);
    var r := CoverText(ips, address);
    if r.Ok? {
      var addresses := seq(|ips|, i requires 0 <= i < |ips| => address(ips[i]).value);
      var parsed := ParseAll(ips, address).value;
      assert forall i :: 0 <= i < |ips| ==> parsed[i] == addresses[i];
      assert parsed == addresses;
      var n := SmallestCover(addresses);
      forall m | IsCover(m, addresses)
        ensures Within(n, m)
      {
        SmallestCoverIsLeast(addresses, m);
      }
      assert IsCover(n, addresses);
    }
  }

  /** `covering_cidr` called on texts: the widening loop on the parsed addresses. */
  method CoveringCidrText(ips: seq<string>, address: string -> Option<Address>) returns (r: Result<string>)
    ensures r == CoverText(ips, address)
  {
    if ips == [] {
      return Err(Crash(AssertionError));
    }
    var parsed := ParseAll(ips, address);
    if parsed.None? {
      return Err(Crash(ValueError));
    }
    var n := CoveringCidr(parsed.value);
    r := Ok(WithPrefixLen(n));
  }

  // ---------------------------------------------------------------------
  // k8s_resolve

  /** Where a proxy target goes: a literal network or a cached address gives a range, anything else is a hostname to resolve. */
  datatype Bucket = Range(text: string) | Hostname(name: string)

  function Sort(target: string, cache: map<string, string>, network: string -> Option<string>): Bucket
  {
    if network(target).Some? then Range(network(target).value)
    else if target in cache then Range(cache[target])
    else Hostname(target)
  }

  /** The targets that are hostnames to resolve, in input order. */
  function Hostnames(targets: seq<string>, cache: map<string, string>, network: string -> Option<string>): seq<string>
  {
    if targets == [] then []
    else
      var last := targets[|targets| - 1];
      Hostnames(targets[..|targets| - 1], cache, network) + (if Sort(last, cache, network).Hostname? then [last] else [])
  }

  /** The ranges of the targets that are networks or cached, in input order. */
  function Ranges(targets: seq<string>, cache: map<string, string>, network: string -> Option<string>): seq<string>
  {
    if targets == [] then []
    else
      var bucket := Sort(targets[|targets| - 1], cache, network);
      Ranges(targets[..|targets| - 1], cache, network) + (if bucket.Range? then [bucket.text] else [])
  }

  /**
    Each target goes to exactly one bucket: the two lists together are as
    long as the targets, the hostnames are exactly the targets sorted as
    hostnames, and the ranges are exactly the ranges the other targets give.
  */
  lemma {:induction false} BucketsPartition(targets: seq<string>, cache: map<string, string>, network: string -> Option<string>)
    ensures |Hostnames(targets, cache, network)| + |Ranges(targets, cache, network)| == |targets|
    ensures forall h :: h in Hostnames(targets, cache, network) <==> h in targets && Sort(h, cache, network).Hostname?
    ensures forall t :: t in Ranges(targets, cache, network) <==>
      exists i :: 0 <= i < |targets| && Sort(targets[i], cache, network) == Range(t)
  {
    if targets != [] {
      var init := targets[..|targets| - 1];
      BucketsPartition(init, cache, network);
      assert targets == init + [targets[|targets| - 1]];
      forall t | t in Ranges(targets, cache, network)
        ensures exists i :: 0 <= i < |targets| && Sort(targets[i], cache, network) == Range(t)
      {
        if t in Ranges(init, cache, network) {
          var i :| 0 <= i < |init| && Sort(init[i], cache, network) == Range(t);
          assert targets[i] == init[i];
        } else {
          assert Sort(targets[|targets| - 1], cache, network) == Range(t);
        }
      }
      forall t | exists i :: 0 <= i < |targets| && Sort(targets[i], cache, network) == Range(t)
        ensures t in Ranges(targets, cache, network)
      {
        var i :| 0 <= i < |targets| && Sort(targets[i], cache, network) == Range(t);
        if i < |init| {
          assert init[i] == targets[i];
        }
      }
    }
  }

  /** The command that resolves the hostnames inside the remote container. */
  function LookupCommand(kubectl: seq<string> -> seq<string>, remote: RemoteInfo, script: string, hostnames: seq<string>): seq<string>
  {
    kubectl(["exec", "--container=" + remote.containerName, remote.podName, "--", "python3", "-c", script] + hostnames)
  }

  /** The cache after storing each hostname's address, pairing them up in order; a later pair wins. */
  function Remember(cache: map<string, string>, hosts: seq<string>, ips: seq<string>): map<string, string>
    requires |hosts| == |ips|
  {
    if hosts == [] then cache
    else Remember(cache, hosts[..|hosts| - 1], ips[..|ips| - 1])[hosts[|hosts| - 1] := ips[|ips| - 1]]
  }

  /**
    What storing the pairs does: a key that is not among the hostnames keeps
    what it had, and each hostname ends up with the address of its last
    occurrence.
  */
  lemma {:induction false} RememberMeaning(cache: map<string, string>, hosts: seq<string>, ips: seq<string>)
    requires |hosts| == |ips|
    ensures var r := Remember(cache, hosts, ips);
      && (forall k :: k !in hosts ==> (k in r <==> k in cache) && (k in cache ==> r[k] == cache[k]))
      && (forall j :: 0 <= j < |hosts| && hosts[j] !in hosts[j + 1..] ==> hosts[j] in r && r[hosts[j]] == ips[j])
  {
    if hosts != [] {
      var n := |hosts| - 1;
      RememberMeaning(cache, hosts[..n], ips[..n]);
      var before := Remember(cache, hosts[..n], ips[..n]);
      var r := Remember(cache, hosts, ips);
      forall k | k !in hosts
        ensures (k in r <==> k in cache) && (k in cache ==> r[k] == cache[k])
      {
        assert k !in hosts[..n];
      }
      forall j | 0 <= j < |hosts| && hosts[j] !in hosts[j + 1..]
        ensures hosts[j] in r && r[hosts[j]] == ips[j]
      {
        if j < n {
          assert hosts[n] in hosts[j + 1..];
          assert hosts[..n][j + 1..] == hosts[j + 1..n];
          assert hosts[j] !in hosts[..n][j + 1..];
          assert hosts[..n][j] == hosts[j];
        }
      }
    }
  }

  /** What `k8s_resolve` does, and the cache it leaves behind. */
  datatype Resolved = Resolved(effect: Effect<seq<string>>, cache: map<string, string>)

  /**
    `k8s_resolve`: sort the targets; with hostnames to resolve, run the
    lookup script in the remote container; a failed lookup writes the error
    and fails naming every target; the resolved addresses are stored in the
    cache and come first in the result, followed by the ranges.
  */
  function ResolveTargets(world: World, m: nat, kubectl: seq<string> -> seq<string>, remote: RemoteInfo, script: string,
                          targets: seq<string>, cache: map<string, string>, p: Parsers): Resolved
  {
    var hostnames := Hostnames(targets, cache, p.network);
    var ranges := Ranges(targets, cache, p.network);
    if hostnames == [] then Resolved(Effect(Ok(ranges), [], []), cache)
    else
      var c := LookupCommand(kubectl, remote, script, hostnames);
      var run := world(m, c);
      match run
      case NonZeroExit(description, _) => Resolved(Effect(Err(Fatal(DnsLookupFailed(targets))), [c], [description]), cache)
      case OsError(_) => Resolved(Effect(Err(Escaped(run)), [c], []), cache)
      case Completed(output) =>
        if p.ips(output).None? then Resolved(Effect(Err(Crash(ValueError)), [c], []), cache)
        else
          var resolved := p.ips(output).value;
          var n := if |hostnames| < |resolved| then |hostnames| else |resolved|;
          Resolved(Effect(Ok(resolved + ranges), [c], []), Remember(cache, hostnames[..n], resolved[..n]))
  }

  /** With nothing to resolve no command runs, the result is the ranges and the cache is untouched. */
  lemma NoHostnamesNoLookup(world: World, m: nat, kubectl: seq<string> -> seq<string>, remote: RemoteInfo, script: string,
                            targets: seq<string>, cache: map<string, string>, p: Parsers)
    requires forall i :: 0 <= i < |targets| ==> p.network(targets[i]).Some? || targets[i] in cache
    ensures ResolveTargets(world, m, kubectl, remote, script, targets, cache, p)
      == Resolved(Effect(Ok(Ranges(targets, cache, p.network)), [], []), cache)
  {
    BucketsPartition(targets, cache, p.network);
  }

  /**
    After a lookup that decodes to `resolved`, the result is the resolved
    addresses followed by the ranges; every resolved hostname maps to the
    address paired with its last occurrence, and every other key keeps what
    it had.
  */
  lemma ResolveUpdatesCache(world: World, m: nat, kubectl: seq<string> -> seq<string>, remote: RemoteInfo, script: string,
                            targets: seq<string>, cache: map<string, string>, p: Parsers, resolved: seq<string>)
    requires Hostnames(targets, cache, p.network) != []
    requires world(m, LookupCommand(kubectl, remote, script, Hostnames(targets, cache, p.network))).Completed?
    requires p.ips(world(m, LookupCommand(kubectl, remote, script, Hostnames(targets, cache, p.network))).output) == Some(resolved)
    ensures var r := ResolveTargets(world, m, kubectl, remote, script, targets, cache, p);
      var hostnames := Hostnames(targets, cache, p.network);
      var n := if |hostnames| < |resolved| then |hostnames| else |resolved|;
      var pairs := hostnames[..n];
      && r.effect.outcome == Ok(resolved + Ranges(targets, cache, p.network))
      && (forall k :: k !in pairs ==> (k in r.cache <==> k in cache) && (k in cache ==> r.cache[k] == cache[k]))
      && (forall j :: 0 <= j < n && pairs[j] !in pairs[j + 1..] ==> pairs[j] in r.cache && r.cache[pairs[j]] == resolved[j])
  {
    var hostnames := Hostnames(targets, cache, p.network);
    var n := if |hostnames| < |resolved| then |hostnames| else |resolved|;
    RememberMeaning(cache, hostnames[..n], resolved[..n]);
    assert ResolveTargets(world, m, kubectl, remote, script, targets, cache, p).cache == Remember(cache, hostnames[..n], resolved[..n]);
  }

  /** What a per-context cache holds. */
  datatype CacheState = CacheState(ips: map<string, string>, podCidrs: Option<set<string>>, serviceCidr: Option<string>)

  /**
    The cache of the current context: the `ips` child that `k8s_resolve`
    reads and writes, and the memoised results of `podCIDRs` and
    `serviceCIDR`.
  */
  class ContextCache {
    var ips: map<string, string>
    var podCidrs: Option<set<string>>
    var serviceCidr: Option<string>

    constructor (state: CacheState)
      ensures State() == state
    {
      ips := state.ips;
      podCidrs := state.podCidrs;
      serviceCidr := state.serviceCidr;
    }

    function State(): CacheState
      reads this
    {
      CacheState(ips, podCidrs, serviceCidr)
    }
  }

  /** The first loop of `k8s_resolve`: each target goes to the hostnames or to the ranges. */
  method SortTargets(targets: seq<string>, cache: map<string, string>, network: string -> Option<string>)
    returns (hostnames: seq<string>, ranges: seq<string>)
    ensures hostnames == Hostnames(targets, cache, network)
    ensures ranges == Ranges(targets, cache, network)
  {
    hostnames, ranges := [], [];
    for i := 0 to |targets|
      invariant hostnames == Hostnames(targets[..i], cache, network)
      invariant ranges == Ranges(targets[..i], cache, network)
    {
      assert targets[..i + 1][..i] == targets[..i];
      var target := targets[i];
      var parsed := network(target);
      if parsed.Some? {
        ranges := ranges + [parsed.value];
        continue;
      }
      if target in cache {
        ranges := ranges + [cache[target]];
        continue;
      }
      hostnames := hostnames + [target];
    }
    assert targets[..|targets|] == targets;
  }

  /** The second loop of `k8s_resolve`: each hostname is stored with its address, in order. */
  method StorePairs(cache: ContextCache, hosts: seq<string>, ips: seq<string>)
    requires |hosts| == |ips|
    modifies cache
    ensures cache.State() == old(cache.State()).(ips := Remember(old(cache.ips), hosts, ips))
  {
    for i := 0 to |hosts|
      invariant cache.State() == old(cache.State()).(ips := Remember(old(cache.ips), hosts[..i], ips[..i]))
    {
      assert hosts[..i + 1][..i] == hosts[..i];
      assert ips[..i + 1][..i] == ips[..i];
      cache.ips := cache.ips[hosts[i] := ips[i]];
    }
    assert hosts[..|hosts|] == hosts && ips[..|ips|] == ips;
  }

  /**
    `k8s_resolve`: sorts the targets, runs the lookup when there are
    hostnames, and stores the resolved pairs in the cache.
  */
  method K8sResolve(runner: Runner, cache: ContextCache, kubectl: seq<string> -> seq<string>, remote: RemoteInfo, script: string,
                    targets: seq<string>, p: Parsers) returns (r: Result<seq<string>>)
    modifies runner, cache
    ensures var e := ResolveTargets(runner.world, |old(runner.log)|, kubectl, remote, script, targets, old(cache.ips), p);
      && r == e.effect.outcome
      && runner.log == old(runner.log) + e.effect.commands
      && runner.written == old(runner.written) + e.effect.written
      && cache.State() == old(cache.State()).(ips := e.cache)
  {
    ghost var m := |runner.log|;
    ghost var e := ResolveTargets(runner.world, m, kubectl, remote, script, targets, cache.ips, p);
    var hostnames, ranges := SortTargets(targets, cache.ips, p.network);
    var resolved: seq<string>;
    if hostnames != [] {
      ghost var c := LookupCommand(kubectl, remote, script, hostnames);
      var run := runner.GetOutput(LookupCommand(kubectl, remote, script, hostnames));
      if run.NonZeroExit? {
        assert e.effect == Effect(Err(Fatal(DnsLookupFailed(targets))), [c], [run.description]);
        runner.Write(run.description);
        return Err(Fatal(DnsLookupFailed(targets)));
      }
      if run.OsError? {
        assert e.effect == Effect(Err(Escaped(run)), [c], []);
        return Err(Escaped(run));
      }
      var decoded := p.ips(run.output);
      if decoded.None? {
        assert e.effect == Effect(Err(Crash(ValueError)), [c], []);
        return Err(Crash(ValueError));
      }
      resolved := decoded.value;
      assert e.effect == Effect(Ok(resolved + ranges), [c], []);
    } else {
      resolved := [];
      assert resolved + ranges == ranges;
      assert e.effect == Effect(Ok(resolved + ranges), [], []);
    }
    var n := if |hostnames| < |resolved| then |hostnames| else |resolved|;
    StorePairs(cache, hostnames[..n], resolved[..n]);
    r := Ok(resolved + ranges);
  }

  // ---------------------------------------------------------------------
  // podCIDRs

  /** The distinct pod ranges the nodes name. */
  function NodeCidrs(nodes: seq<Node>): set<string>
  {
    if nodes == [] then {}
    else
      var last := nodes[|nodes| - 1];
      NodeCidrs(nodes[..|nodes| - 1]) + (if last.podCidr.Some? then {last.podCidr.value} else {})
  }

  /** A range is among the nodes' ranges exactly when some node names it. */
  lemma {:induction false} NodeCidrsMeaning(nodes: seq<Node>)
    ensures forall c :: c in NodeCidrs(nodes) <==> exists i :: 0 <= i < |nodes| && nodes[i].podCidr == Some(c)
  {
    if nodes != [] {
      var init := nodes[..|nodes| - 1];
      NodeCidrsMeaning(init);
      forall c | c in NodeCidrs(nodes)
        ensures exists i :: 0 <= i < |nodes| && nodes[i].podCidr == Some(c)
      {
        if c in NodeCidrs(init) {
          var i :| 0 <= i < |init| && init[i].podCidr == Some(c);
          assert nodes[i] == init[i];
        } else {
          assert nodes[|nodes| - 1].podCidr == Some(c);
        }
      }
      forall c | exists i :: 0 <= i < |nodes| && nodes[i].podCidr == Some(c)
        ensures c in NodeCidrs(nodes)
      {
        var i :| 0 <= i < |nodes| && nodes[i].podCidr == Some(c);
        if i < |init| {
          assert init[i] == nodes[i];
        }
      }
    }
  }

  /** The pods' addresses in order, skipping pods that have none. */
  function PodIps(pods: seq<Pod>): seq<string>
  {
    if pods == [] then []
    else
      var last := pods[|pods| - 1];
      PodIps(pods[..|pods| - 1]) + (if last.podIp.Some? then [last.podIp.value] else [])
  }

  /**
    The pod addresses are exactly those of the pods that have one, and
    there are no more of them than pods; there are none exactly when no pod
    has an address.
  */
  lemma {:induction false} PodIpsMeaning(pods: seq<Pod>)
    ensures |PodIps(pods)| <= |pods|
    ensures forall x :: x in PodIps(pods) <==> exists i :: 0 <= i < |pods| && pods[i].podIp == Some(x)
    ensures PodIps(pods) == [] <==> forall i :: 0 <= i < |pods| ==> pods[i].podIp.None?
  {
    if pods != [] {
      var init := pods[..|pods| - 1];
      PodIpsMeaning(init);
      forall x | x in PodIps(pods)
        ensures exists i :: 0 <= i < |pods| && pods[i].podIp == Some(x)
      {
        if x in PodIps(init) {
          var i :| 0 <= i < |init| && init[i].podIp == Some(x);
          assert pods[i] == init[i];
        } else {
          assert pods[|pods| - 1].podIp == Some(x);
        }
      }
      forall x | exists i :: 0 <= i < |pods| && pods[i].podIp == Some(x)
        ensures x in PodIps(pods)
      {
        var i :| 0 <= i < |pods| && pods[i].podIp == Some(x);
        if i < |init| {
          assert init[i] == pods[i];
        }
      }
      if PodIps(pods) != [] {
        assert PodIps(pods)[0] in PodIps(pods);
      }
    }
  }

  function NodesCommand(kubectl: seq<string> -> seq<string>): seq<string>
  {
    kubectl(["get", "nodes", "-o", "json"])
  }

  function PodsCommand(kubectl: seq<string> -> seq<string>): seq<string>
  {
    kubectl(["get", "pods", "-o", "json"])
  }

  /** The line written when the nodes cannot be listed. */
  function NodesFailed(description: string): string
  {
    "Failed to get nodes: " + description
  }

  /**
    Where `podCIDRs` is: listing the nodes; after that failed with
    `description`, listing the pods; reading the pods from the `output` of
    that listing; covering the pods' addresses `ips`.
  */
  datatype PodStep =
    | ListingNodes
    | ListingPods(description: string)
    | ReadingPods(output: string)
    | CoveringPods(ips: seq<string>)

  function PodStepsLeft(step: PodStep): nat
  {
    match step
    case ListingNodes => 3
    case ListingPods(_) => 2
    case ReadingPods(_) => 1
    case CoveringPods(_) => 0
  }

  /**
    `podCIDRs` from `step` on, with `m` commands already run: the nodes'
    ranges when the nodes can be listed; when listing them exits non-zero,
    the error is written and the pods' addresses are covered instead,
    giving no range when no pod has an address. Only the non-zero exit of
    the nodes query is caught.
  */
  function PodCidrsFrom(world: World, m: nat, kubectl: seq<string> -> seq<string>, p: Parsers, step: PodStep): Effect<set<string>>
    decreases PodStepsLeft(step)
  {
    match step
    case ListingNodes =>
      var nodesQuery := NodesCommand(kubectl);
      var run := world(m, nodesQuery);
      (match run
       case Completed(output) =>
         if p.nodes(output).None? then Effect(Err(Crash(ValueError)), [nodesQuery], [])
         else Effect(Ok(NodeCidrs(p.nodes(output).value)), [nodesQuery], [])
       case OsError(_) => Effect(Err(Escaped(run)), [nodesQuery], [])
       case NonZeroExit(description, _) => After([nodesQuery], PodCidrsFrom(world, m + 1, kubectl, p, ListingPods(description))))
    case ListingPods(description) =>
      var podsQuery := PodsCommand(kubectl);
      var written := [NodesFailed(description)];
      var podsRun := world(m, podsQuery);
      if !podsRun.Completed? then Effect(Err(Escaped(podsRun)), [podsQuery], written)
      else
        var reading := PodCidrsFrom(world, m + 1, kubectl, p, ReadingPods(podsRun.output));
        Effect(reading.outcome, [podsQuery], written)
    case ReadingPods(output) =>
      if p.pods(output).None? then Effect(Err(Crash(ValueError)), [], [])
      else PodCidrsFrom(world, m, kubectl, p, CoveringPods(PodIps(p.pods(output).value)))
    case CoveringPods(ips) =>
      if ips == [] then Effect(Ok({}), [], [])
      else
        var cover := CoverText(ips, p.address);
        Effect(if cover.Ok? then Ok({cover.value}) else Err(cover.failure), [], [])
  }

  /** When the nodes can be listed, the ranges are exactly those some node names, and nothing else runs. */
  lemma PodCidrsFromNodes(world: World, m: nat, kubectl: seq<string> -> seq<string>, p: Parsers, nodes: seq<Node>)
    requires world(m, NodesCommand(kubectl)).Completed?
    requires p.nodes(world(m, NodesCommand(kubectl)).output) == Some(nodes)
    ensures var e := PodCidrsFrom(world, m, kubectl, p, ListingNodes);
      && e.commands == [NodesCommand(kubectl)] && e.written == []
      && e.outcome.Ok?
      && forall c :: c in e.outcome.value <==> exists i :: 0 <= i < |nodes| && nodes[i].podCidr == Some(c)
  {
    NodeCidrsMeaning(nodes);
  }

  /**
    The fallback: when listing the nodes exits non-zero and the pods are
    listed, the error is written, and the outcome is no range when no pod
    has an address, and otherwise the one range that covers them all.
  */
  lemma PodCidrsFallback(world: World, m: nat, kubectl: seq<string> -> seq<string>, p: Parsers, pods: seq<Pod>)
    requires world(m, NodesCommand(kubectl)).NonZeroExit?
    requires world(m + 1, PodsCommand(kubectl)).Completed?
    requires p.pods(world(m + 1, PodsCommand(kubectl)).output) == Some(pods)
    ensures var e := PodCidrsFrom(world, m, kubectl, p, ListingNodes);
      && e.commands == [NodesCommand(kubectl), PodsCommand(kubectl)]
      && e.written == [NodesFailed(world(m, NodesCommand(kubectl)).description)]
      && ((forall i :: 0 <= i < |pods| ==> pods[i].podIp.None?) ==> e.outcome == Ok({}))
      && ((exists i :: 0 <= i < |pods| && pods[i].podIp.Some?) ==>
            var cover := CoverText(PodIps(pods), p.address);
            && (e.outcome.Ok? <==> cover.Ok?)
            && (e.outcome.Ok? ==> e.outcome.value == {cover.value}))
  {
    var description := world(m, NodesCommand(kubectl)).description;
    var listing := PodCidrsFrom(world, m + 1, kubectl, p, ListingPods(description));
    var reading := PodCidrsFrom(world, m + 2, kubectl, p, ReadingPods(world(m + 1, PodsCommand(kubectl)).output));
    assert PodCidrsFrom(world, m, kubectl, p, ListingNodes) == After([NodesCommand(kubectl)], listing);
    assert listing == Effect(reading.outcome, [PodsCommand(kubectl)], [NodesFailed(description)]);
    assert reading == PodCidrsFrom(world, m + 2, kubectl, p, CoveringPods(PodIps(pods)));
    PodIpsMeaning(pods);
  }

  /** The loop over the nodes: each range a node names is added to the set. */
  method CollectNodeCidrs(nodes: seq<Node>) returns (cidrs: set<string>)
    ensures cidrs == NodeCidrs(nodes)
  {
    cidrs := {};
    for i := 0 to |nodes|
      invariant cidrs == NodeCidrs(nodes[..i])
    {
      assert nodes[..i + 1][..i] == nodes[..i];
      var podCidr := nodes[i].podCidr;
      if podCidr.Some? {
        cidrs := cidrs + {podCidr.value};
      }
    }
    assert nodes[..|nodes|] == nodes;
  }

  /** The loop over the pods: each pod's address, where it has one, is appended. */
  method CollectPodIps(pods: seq<Pod>) returns (ips: seq<string>)
    ensures ips == PodIps(pods)
  {
    ips := [];
    for i := 0 to |pods|
      invariant ips == PodIps(pods[..i])
    {
      assert pods[..i + 1][..i] == pods[..i];
      match pods[i].podIp
      case Some(ip) => ips := ips + [ip];
      case None =>
    }
    assert pods[..|pods|] == pods;
  }

  /** `podCIDRs`, run against the runner. */
  method PodCidrs(runner: Runner, kubectl: seq<string> -> seq<string>, p: Parsers) returns (r: Result<set<string>>)
    modifies runner
    ensures var e := PodCidrsFrom(runner.world, |old(runner.log)|, kubectl, p, ListingNodes);
      && r == e.outcome
      && runner.log == old(runner.log) + e.commands
      && runner.written == old(runner.written) + e.written
  {
    ghost var m := |runner.log|;
    ghost var e := PodCidrsFrom(runner.world, m, kubectl, p, ListingNodes);
    var run := runner.GetOutput(NodesCommand(kubectl));
    if run.OsError? {
      return Err(Escaped(run));
    }
    if run.Completed? {
      var nodes := p.nodes(run.output);
      if nodes.None? {
        return Err(Crash(ValueError));
      }
      var cidrs := CollectNodeCidrs(nodes.value);
      return Ok(cidrs);
    }
    ghost var listing := PodCidrsFrom(runner.world, m + 1, kubectl, p, ListingPods(run.description));
    assert e == After([NodesCommand(kubectl)], listing);
    runner.Write(NodesFailed(run.description));
    var podsRun := runner.GetOutput(PodsCommand(kubectl));
    if !podsRun.Completed? {
      return Err(Escaped(podsRun));
    }
    ghost var reading := PodCidrsFrom(runner.world, m + 2, kubectl, p, ReadingPods(podsRun.output));
    assert listing == Effect(reading.outcome, [PodsCommand(kubectl)], [NodesFailed(run.description)]);
    var pods := p.pods(podsRun.output);
    if pods.None? {
      return Err(Crash(ValueError));
    }
    var ips := CollectPodIps(pods.value);
    assert reading == PodCidrsFrom(runner.world, m + 2, kubectl, p, CoveringPods(ips));
    if ips == [] {
      return Ok({});
    }
    var cover := CoveringCidrText(ips, p.address);
    if cover.Err? {
      return Err(cover.failure);
    }
    r := Ok({cover.value});
  }

  // ---------------------------------------------------------------------
  // serviceCIDR

  /** `get_service_ips`' filter: the cluster IPs in order, leaving out a missing one and "None". */
  function ServiceIps(services: seq<Service>): seq<string>
  {
    if services == [] then []
    else
      var ip := services[|services| - 1].clusterIp;
      ServiceIps(services[..|services| - 1]) + (if ip.Some? && ip.value != "None" then [ip.value] else [])
  }

  /** The kept addresses are exactly the cluster IPs other than "None", and there are no more of them than services. */
  lemma {:induction false} ServiceIpsMeaning(services: seq<Service>)
    ensures |ServiceIps(services)| <= |services|
    ensures forall x :: x in ServiceIps(services) <==>
      x != "None" && exists i :: 0 <= i < |services| && services[i].clusterIp == Some(x)
  {
    if services != [] {
      var init := services[..|services| - 1];
      ServiceIpsMeaning(init);
      forall x | x in ServiceIps(services)
        ensures exists i :: 0 <= i < |services| && services[i].clusterIp == Some(x)
      {
        if x in ServiceIps(init) {
          var i :| 0 <= i < |init| && init[i].clusterIp == Some(x);
          assert services[i] == init[i];
        } else {
          assert services[|services| - 1].clusterIp == Some(x);
        }
      }
      forall x | x != "None" && exists i :: 0 <= i < |services| && services[i].clusterIp == Some(x)
        ensures x in ServiceIps(services)
      {
        var i :| 0 <= i < |services| && services[i].clusterIp == Some(x);
        if i < |init| {
          assert init[i] == services[i];
        }
      }
    }
  }

  function ServicesCommand(kubectl: seq<string> -> seq<string>): seq<string>
  {
    kubectl(["get", "services", "-o", "json"])
  }

  function CreateCommand(kubectl: seq<string> -> seq<string>, name: string): seq<string>
  {
    kubectl(["create", "service", "clusterip", name, "--tcp=3000"])
  }

  function DeleteCommand(kubectl: seq<string> -> seq<string>, name: string): seq<string>
  {
    kubectl(["delete", "service", name])
  }

  /** One creation command per name, in order. */
  function CreateCommands(kubectl: seq<string> -> seq<string>, names: seq<string>): (cs: seq<seq<string>>)
    ensures |cs| == |names|
    decreases |names|
  {
    if names == [] then []
    else CreateCommands(kubectl, names[..|names| - 1]) + [CreateCommand(kubectl, names[|names| - 1])]
  }

  /** One deletion command per name, in order. */
  function DeleteCommands(kubectl: seq<string> -> seq<string>, names: seq<string>): (cs: seq<seq<string>>)
    ensures |cs| == |names|
    decreases |names|
  {
    if names == [] then []
    else DeleteCommands(kubectl, names[..|names| - 1]) + [DeleteCommand(kubectl, names[|names| - 1])]
  }

  /** The i-th creation command creates the i-th name, and the i-th deletion command deletes it. */
  lemma {:induction false} CommandsAt(kubectl: seq<string> -> seq<string>, names: seq<string>, i: nat)
    requires i < |names|
    ensures CreateCommands(kubectl, names)[i] == CreateCommand(kubectl, names[i])
    ensures DeleteCommands(kubectl, names)[i] == DeleteCommand(kubectl, names[i])
    decreases |names|
  {
    if i < |names| - 1 {
      CommandsAt(kubectl, names[..|names| - 1], i);
    }
  }

  /** How many services must be created for there to be at least eight. */
  function Shortfall(n: nat): nat
  {
    if n < 8 then 8 - n else 0
  }

  /** `get_service_ips`: list the services and keep their cluster IPs; nothing is caught. */
  function QueryServiceIps(run: Run, p: Parsers): Result<seq<string>>
  {
    match run
    case Completed(output) =>
      if p.services(output).None? then Err(Crash(ValueError)) else Ok(ServiceIps(p.services(output).value))
    case _ => Err(Escaped(run))
  }

  /**
    `serviceCIDR`: list the cluster IPs; create services until there are
    eight; list them again only if some were created; cover the addresses;
    then delete the services it created.  Nothing is caught, so a failure
    before the deletions leaves the new services in place.  `names` holds
    what successive calls of `random_name` return; eight are always enough.
  */
  function ServiceCidrEffect(world: World, m: nat, kubectl: seq<string> -> seq<string>, p: Parsers, names: seq<string>): Effect<string>
    requires |names| >= 8
  {
    ServiceCidrFrom(world, m, kubectl, p, Listing(names))
  }

  /** The effect of `e` when the commands `prefix` ran first. */
  function After<T>(prefix: seq<seq<string>>, e: Effect<T>): Effect<T>
  {
    Effect(e.outcome, prefix + e.commands, e.written)
  }

  /**
    Where `serviceCIDR` is in its work: about to list the services; about
    to create the services `created` after the first listing gave `listed`;
    about to list again (only when it created some); about to cover the
    addresses `ips` and delete what it created.
  */
  datatype ServiceStep =
    | Listing(names: seq<string>)
    | Creating(listed: seq<string>, created: seq<string>)
    | Relisting(listed: seq<string>, created: seq<string>)
    | Covering(ips: seq<string>, created: seq<string>)

  function StepsLeft(step: ServiceStep): nat
  {
    match step
    case Listing(_) => 3
    case Creating(_, _) => 2
    case Relisting(_, _) => 1
    case Covering(_, _) => 0
  }

  /** The rest of `serviceCIDR` from `step` on, when its next command is the n-th. */
  function ServiceCidrFrom(world: World, n: nat, kubectl: seq<string> -> seq<string>, p: Parsers, step: ServiceStep): Effect<string>
    requires step.Listing? ==> |step.names| >= 8
    decreases StepsLeft(step)
  {
    match step
    case Listing(names) =>
      var query := ServicesCommand(kubectl);
      var first := QueryServiceIps(world(n, query), p);
      if first.Err? then Effect(Err(first.failure), [query], [])
      else After([query], ServiceCidrFrom(world, n + 1, kubectl, p, Creating(first.value, names[..Shortfall(|first.value|)])))
    case Creating(listed, created) =>
      var creating := CheckCalls(world, n, CreateCommands(kubectl, created), |created|);
      if creating.outcome.Err? then Effect(Err(creating.outcome.failure), creating.commands, [])
      else After(creating.commands, ServiceCidrFrom(world, n + |created|, kubectl, p, Relisting(listed, created)))
    case Relisting(listed, created) =>
      if created == [] then ServiceCidrFrom(world, n, kubectl, p, Covering(listed, created))
      else
        var query := ServicesCommand(kubectl);
        var ips := QueryServiceIps(world(n, query), p);
        if ips.Err? then Effect(Err(ips.failure), [query], [])
        else After([query], ServiceCidrFrom(world, n + 1, kubectl, p, Covering(ips.value, created)))
    case Covering(ips, created) =>
      var cover := CoverText(ips, p.address);
      if cover.Err? then Effect(Err(cover.failure), [], [])
      else
        var deleting := CheckCalls(world, n, DeleteCommands(kubectl, created), |created|);
        var outcome := if deleting.outcome.Ok? then Ok(cover.value) else Err(deleting.outcome.failure);
        Effect(outcome, deleting.commands, [])
  }

  /** A failed creation ends the work: nothing is listed again, covered or deleted. */
  lemma CreationFailed(world: World, n: nat, kubectl: seq<string> -> seq<string>, p: Parsers, listed: seq<string>, created: seq<string>)
    requires CheckCalls(world, n, CreateCommands(kubectl, created), |created|).outcome.Err?
    ensures var creating := CheckCalls(world, n, CreateCommands(kubectl, created), |created|);
      ServiceCidrFrom(world, n, kubectl, p, Creating(listed, created)) == Effect(Err(creating.outcome.failure), creating.commands, [])
  {
  }

  /** Once every creation passed, the rest is the creations followed by the second listing, the cover and the deletions. */
  lemma CreationsPassed(world: World, n: nat, kubectl: seq<string> -> seq<string>, p: Parsers, listed: seq<string>, created: seq<string>)
    requires CheckCalls(world, n, CreateCommands(kubectl, created), |created|).outcome.Ok?
    ensures ServiceCidrFrom(world, n, kubectl, p, Creating(listed, created))
      == After(CheckCalls(world, n, CreateCommands(kubectl, created), |created|).commands,
               ServiceCidrFrom(world, n + |created|, kubectl, p, Relisting(listed, created)))
  {
  }

  /** The first k creation commands create the first k names. */
  lemma CreatePrefix(kubectl: seq<string> -> seq<string>, names: seq<string>, k: nat)
    requires k <= |names|
    ensures CreateCommands(kubectl, names)[..k] == CreateCommands(kubectl, names[..k])
  {
    forall i | 0 <= i < k
      ensures CreateCommands(kubectl, names)[i] == CreateCommands(kubectl, names[..k])[i]
    {
      CommandsAt(kubectl, names, i);
      CommandsAt(kubectl, names[..k], i);
    }
  }

  /**
    From the creations on, with the first k names to create, the f-th
    creation failing first ends the work with its error.
  */
  lemma CreatingFails(world: World, n: nat, kubectl: seq<string> -> seq<string>, p: Parsers, listed: seq<string>,
                      names: seq<string>, k: nat, f: nat)
    requires f < k <= |names|
    requires forall j :: 0 <= j < f ==> world(n + j, CreateCommand(kubectl, names[j])).Completed?
    requires !world(n + f, CreateCommand(kubectl, names[f])).Completed?
    ensures ServiceCidrFrom(world, n, kubectl, p, Creating(listed, names[..k]))
      == Effect(Err(Escaped(world(n + f, CreateCommand(kubectl, names[f])))), CreateCommands(kubectl, names[..f + 1]), [])
  {
    var created := names[..k];
    var creates := CreateCommands(kubectl, created);
    forall j | 0 <= j <= f
      ensures creates[j] == CreateCommand(kubectl, names[j])
    {
      CommandsAt(kubectl, created, j);
    }
    CheckCallsFirstFailure(world, n, creates, k, f);
    CreationFailed(world, n, kubectl, p, listed, created);
    CreatePrefix(kubectl, created, f + 1);
    assert created[..f + 1] == names[..f + 1];
  }

  /**
    When the f-th creation is the first to fail, `serviceCIDR` fails with
    its error straight after it: the services created before it are not
    listed again and not deleted, so they stay in the cluster.
  */
  lemma CreationFailureStops(world: World, m: nat, kubectl: seq<string> -> seq<string>, p: Parsers, names: seq<string>, f: nat)
    requires |names| >= 8
    requires QueryServiceIps(world(m, ServicesCommand(kubectl)), p).Ok?
    requires f < Shortfall(|QueryServiceIps(world(m, ServicesCommand(kubectl)), p).value|)
    requires forall j :: 0 <= j < f ==> world(m + 1 + j, CreateCommand(kubectl, names[j])).Completed?
    requires !world(m + 1 + f, CreateCommand(kubectl, names[f])).Completed?
    ensures var e := ServiceCidrEffect(world, m, kubectl, p, names);
      && e.commands == [ServicesCommand(kubectl)] + CreateCommands(kubectl, names[..f + 1])
      && e.outcome == Err(Escaped(world(m + 1 + f, CreateCommand(kubectl, names[f]))))
      && e.written == []
  {
    var listed := QueryServiceIps(world(m, ServicesCommand(kubectl)), p).value;
    CreatingFails(world, m + 1, kubectl, p, listed, names, Shortfall(|listed|), f);
  }

  /** `serviceCIDR` writes nothing to the log file. */
  lemma {:induction false} ServiceCidrWritesNothing(world: World, n: nat, kubectl: seq<string> -> seq<string>, p: Parsers, step: ServiceStep)
    requires step.Listing? ==> |step.names| >= 8
    ensures ServiceCidrFrom(world, n, kubectl, p, step).written == []
    decreases StepsLeft(step)
  {
    match step
    case Listing(names) =>
      var first := QueryServiceIps(world(n, ServicesCommand(kubectl)), p);
      if first.Ok? {
        ServiceCidrWritesNothing(world, n + 1, kubectl, p, Creating(first.value, names[..Shortfall(|first.value|)]));
      }
    case Creating(listed, created) =>
      ServiceCidrWritesNothing(world, n + |created|, kubectl, p, Relisting(listed, created));
    case Relisting(listed, created) =>
      ServiceCidrWritesNothing(world, n, kubectl, p, Covering(listed, created));
      if created != [] {
        var ips := QueryServiceIps(world(n, ServicesCommand(kubectl)), p);
        if ips.Ok? {
          ServiceCidrWritesNothing(world, n + 1, kubectl, p, Covering(ips.value, created));
        }
      }
    case Covering(_, _) =>
  }

  /**
    With eight or more cluster IPs listed, nothing is created, listed again
    or deleted: the outcome is the cover of the listed addresses.
  */
  lemma ServiceCidrEnough(world: World, m: nat, kubectl: seq<string> -> seq<string>, p: Parsers, names: seq<string>)
    requires |names| >= 8
    requires QueryServiceIps(world(m, ServicesCommand(kubectl)), p).Ok?
    requires |QueryServiceIps(world(m, ServicesCommand(kubectl)), p).value| >= 8
    ensures var e := ServiceCidrEffect(world, m, kubectl, p, names);
      && e.commands == [ServicesCommand(kubectl)]
      && e.outcome == CoverText(QueryServiceIps(world(m, ServicesCommand(kubectl)), p).value, p.address)
  {
    var listed := QueryServiceIps(world(m, ServicesCommand(kubectl)), p).value;
    assert names[..Shortfall(|listed|)] == [];
    var covering := ServiceCidrFrom(world, m + 1, kubectl, p, Covering(listed, []));
    assert covering.commands == [] && covering.outcome == CoverText(listed, p.address);
    assert ServiceCidrFrom(world, m + 1, kubectl, p, Relisting(listed, [])) == covering;
    assert CheckCalls(world, m + 1, CreateCommands(kubectl, []), 0) == Effect(Ok(()), [], []);
    assert ServiceCidrFrom(world, m + 1, kubectl, p, Creating(listed, [])) == After([], covering);
  }

  /** When covering and deleting succeed, they deleted each created service, in order, and gave the cover of `ips`. */
  lemma CoveringCleansUp(world: World, n: nat, kubectl: seq<string> -> seq<string>, p: Parsers, ips: seq<string>, created: seq<string>)
    requires ServiceCidrFrom(world, n, kubectl, p, Covering(ips, created)).outcome.Ok?
    ensures var e := ServiceCidrFrom(world, n, kubectl, p, Covering(ips, created));
      && e.commands == DeleteCommands(kubectl, created)
      && e.outcome == CoverText(ips, p.address)
  {
    CheckCallsRan(world, n, DeleteCommands(kubectl, created), |created|);
  }

  /**
    When the steps after the creations succeed, they listed the services
    again exactly when some were created, deleted each created service in
    order, and gave the cover of the latest listing.
  */
  lemma RelistingCleansUp(world: World, n: nat, kubectl: seq<string> -> seq<string>, p: Parsers, listed: seq<string>, created: seq<string>)
    requires ServiceCidrFrom(world, n, kubectl, p, Relisting(listed, created)).outcome.Ok?
    ensures var e := ServiceCidrFrom(world, n, kubectl, p, Relisting(listed, created));
      var query := ServicesCommand(kubectl);
      && (created != [] ==> QueryServiceIps(world(n, query), p).Ok?)
      && var ips := if created == [] then listed else QueryServiceIps(world(n, query), p).value;
      && e.commands == (if created == [] then [] else [query]) + DeleteCommands(kubectl, created)
      && e.outcome == CoverText(ips, p.address)
  {
    if created == [] {
      CoveringCleansUp(world, n, kubectl, p, listed, created);
    } else {
      CoveringCleansUp(world, n + 1, kubectl, p, QueryServiceIps(world(n, ServicesCommand(kubectl)), p).value, created);
    }
  }

  /** When the steps after the first listing succeed, every creation and every deletion ran, in order. */
  lemma CreatingCleansUp(world: World, n: nat, kubectl: seq<string> -> seq<string>, p: Parsers, listed: seq<string>, created: seq<string>)
    requires ServiceCidrFrom(world, n, kubectl, p, Creating(listed, created)).outcome.Ok?
    ensures var e := ServiceCidrFrom(world, n, kubectl, p, Creating(listed, created));
      var query := ServicesCommand(kubectl);
      && e.commands == CreateCommands(kubectl, created) + (if created == [] then [] else [query]) + DeleteCommands(kubectl, created)
      && e.outcome == ServiceCidrFrom(world, n + |created|, kubectl, p, Relisting(listed, created)).outcome
  {
    var creates := CreateCommands(kubectl, created);
    var creating := CheckCalls(world, n, creates, |created|);
    var rest := ServiceCidrFrom(world, n + |created|, kubectl, p, Relisting(listed, created));
    CreationsPassed(world, n, kubectl, p, listed, created);
    assert creating.outcome.Ok?;
    CheckCallsRan(world, n, creates, |created|);
    RelistingCleansUp(world, n + |created|, kubectl, p, listed, created);
    var again: seq<seq<string>> := if created == [] then [] else [ServicesCommand(kubectl)];
    assert rest.commands == again + DeleteCommands(kubectl, created);
    Appended(creates, again, DeleteCommands(kubectl, created));
  }

  /**
    When `serviceCIDR` succeeds after listing n cluster IPs, it ran exactly
    max(0, 8 - n) creations, a second listing exactly when it created
    some, and then deleted exactly the services it created, in the same
    order; its result is the cover of the latest listing.
  */
  lemma ServiceCidrCleansUp(world: World, m: nat, kubectl: seq<string> -> seq<string>, p: Parsers, names: seq<string>)
    requires |names| >= 8
    requires ServiceCidrEffect(world, m, kubectl, p, names).outcome.Ok?
    ensures var query := ServicesCommand(kubectl);
      var first := QueryServiceIps(world(m, query), p);
      && first.Ok?
      && var created := names[..Shortfall(|first.value|)];
      && |created| == (if |first.value| < 8 then 8 - |first.value| else 0)
      && (created != [] ==> QueryServiceIps(world(m + 1 + |created|, query), p).Ok?)
      && var ips := if created == [] then first.value else QueryServiceIps(world(m + 1 + |created|, query), p).value;
      && var e := ServiceCidrEffect(world, m, kubectl, p, names);
      && e.commands == [query] + CreateCommands(kubectl, created) + (if created == [] then [] else [query]) + DeleteCommands(kubectl, created)
      && e.outcome == CoverText(ips, p.address)
  {
    var query := ServicesCommand(kubectl);
    var first := QueryServiceIps(world(m, query), p);
    var created := names[..Shortfall(|first.value|)];
    var again := if created == [] then [] else [query];
    CreatingCleansUp(world, m + 1, kubectl, p, first.value, created);
    RelistingCleansUp(world, m + 1 + |created|, kubectl, p, first.value, created);
    Appended([query], CreateCommands(kubectl, created) + again, DeleteCommands(kubectl, created));
    Appended([query], CreateCommands(kubectl, created), again);
  }

  /** A prefix one longer is the prefix with the next element appended. */
  lemma Grown<T>(s: seq<T>, i: nat)
    requires i < |s|
    ensures s[..i + 1] == s[..i] + [s[i]]
  {
  }

  /** Appending to a log in two steps appends the two parts joined. */
  lemma Appended<T>(log: seq<T>, a: seq<T>, b: seq<T>)
    ensures log + a + b == log + (a + b)
  {
  }

  /** `get_service_ips`, run against the runner. */
  method GetServiceIps(runner: Runner, kubectl: seq<string> -> seq<string>, p: Parsers) returns (r: Result<seq<string>>)
    modifies runner
    ensures r == QueryServiceIps(runner.world(|old(runner.log)|, ServicesCommand(kubectl)), p)
    ensures runner.log == old(runner.log) + [ServicesCommand(kubectl)] && runner.written == old(runner.written)
  {
    var run := runner.GetOutput(ServicesCommand(kubectl));
    if !run.Completed? {
      return Err(Escaped(run));
    }
    var services := p.services(run.output);
    if services.None? {
      return Err(Crash(ValueError));
    }
    r := Ok(ServiceIps(services.value));
  }

  /**
    One pass of the creation loop: `check_call` on the creation of `name`,
    the next of the planned services after creations that all passed.
    When it fails, it is the last creation to run.
  */
  method CreateNext(runner: Runner, kubectl: seq<string> -> seq<string>, name: string, ghost planned: seq<string>, ghost i: nat, ghost m: nat)
    returns (r: Result<()>)
    requires i < |planned| && planned[i] == name
    requires CheckCalls(runner.world, m, CreateCommands(kubectl, planned), i).outcome.Ok?
    requires |runner.log| == m + i
    modifies runner
    ensures var commands := CreateCommands(kubectl, planned);
      && runner.log == old(runner.log) + [CreateCommand(kubectl, name)]
      && runner.written == old(runner.written)
      && CheckCalls(runner.world, m, commands, i + 1).commands
         == CheckCalls(runner.world, m, commands, i).commands + [CreateCommand(kubectl, name)]
      && (r.Ok? ==> CheckCalls(runner.world, m, commands, i + 1).outcome.Ok?)
      && (r.Err? ==> CheckCalls(runner.world, m, commands, |planned|) == CheckCalls(runner.world, m, commands, i + 1)
                     && CheckCalls(runner.world, m, commands, i + 1).outcome == r)
  {
    CommandsAt(kubectl, planned, i);
    CheckCallsNext(runner.world, m, CreateCommands(kubectl, planned), i);
    var run := runner.GetOutput(CreateCommand(kubectl, name));
    r := if run.Completed? then Ok(()) else Err(Escaped(run));
  }

  /**
    The creation loop of `serviceCIDR`: while fewer than eight services are
    known, create one more under the next random name with `check_call`.
  */
  method CreateServices(runner: Runner, kubectl: seq<string> -> seq<string>, have: nat, names: seq<string>)
    returns (created: seq<string>, r: Result<()>)
    requires |names| >= 8
    modifies runner
    ensures var planned := names[..Shortfall(have)];
      var e := CheckCalls(runner.world, |old(runner.log)|, CreateCommands(kubectl, planned), |planned|);
      && r == e.outcome
      && runner.log == old(runner.log) + e.commands
      && runner.written == old(runner.written)
      && (r.Ok? ==> created == planned)
  {
    ghost var m := |runner.log|;
    ghost var planned := names[..Shortfall(have)];
    ghost var commands := CreateCommands(kubectl, planned);
    created := [];
    while have + |created| < 8
      invariant |created| <= |planned| && (have + |created| < 8 <==> |created| < |planned|)
      invariant created == planned[..|created|]
      invariant CheckCalls(runner.world, m, commands, |created|).outcome.Ok?
      invariant runner.log == old(runner.log) + CheckCalls(runner.world, m, commands, |created|).commands
      invariant runner.written == old(runner.written)
      decreases 8 - (have + |created|)
    {
      ghost var i := |created|;
      var name := names[|created|];
      var step := CreateNext(runner, kubectl, name, planned, i, m);
      if step.Err? {
        return created, step;
      }
      Grown(planned, i);
      created := created + [name];
    }
    assert created == planned;
    r := Ok(());
  }

  /** The deletion loop of `serviceCIDR`: delete each created service with `check_call`. */
  method DeleteServices(runner: Runner, kubectl: seq<string> -> seq<string>, created: seq<string>) returns (r: Result<()>)
    modifies runner
    ensures var e := CheckCalls(runner.world, |old(runner.log)|, DeleteCommands(kubectl, created), |created|);
      && r == e.outcome
      && runner.log == old(runner.log) + e.commands
      && runner.written == old(runner.written)
  {
    ghost var m := |runner.log|;
    ghost var commands := DeleteCommands(kubectl, created);
    for i := 0 to |created|
      invariant CheckCalls(runner.world, m, commands, i).outcome.Ok?
      invariant runner.log == old(runner.log) + CheckCalls(runner.world, m, commands, i).commands
      invariant runner.written == old(runner.written)
    {
      ghost var before := CheckCalls(runner.world, m, commands, i);
      CommandsAt(kubectl, created, i);
      var run := runner.GetOutput(DeleteCommand(kubectl, created[i]));
      CheckCallsNext(runner.world, m, commands, i);
      assert runner.log == old(runner.log) + (before.commands + [commands[i]]);
      if !run.Completed? {
        return Err(Escaped(run));
      }
    }
    r := Ok(());
  }

  /** `serviceCIDR`, run against the runner. */
  method ServiceCidr(runner: Runner, kubectl: seq<string> -> seq<string>, p: Parsers, names: seq<string>) returns (r: Result<string>)
    requires |names| >= 8
    modifies runner
    ensures var e := ServiceCidrEffect(runner.world, |old(runner.log)|, kubectl, p, names);
      && r == e.outcome
      && runner.log == old(runner.log) + e.commands
      && runner.written == old(runner.written)
  {
    ghost var query := ServicesCommand(kubectl);
    var ips := GetServiceIps(runner, kubectl, p);
    if ips.Err? {
      return Err(ips.failure);
    }
    ghost var step := Creating(ips.value, names[..Shortfall(|ips.value|)]);
    ghost var between := runner.log;
    r := CreateAndCover(runner, kubectl, p, ips.value, names);
    ghost var rest := ServiceCidrFrom(runner.world, |between|, kubectl, p, step);
    Appended(old(runner.log), [query], rest.commands);
  }

  /** Lines 205-219 of `serviceCIDR`: create the missing services, then cover and delete them. */
  method CreateAndCover(runner: Runner, kubectl: seq<string> -> seq<string>, p: Parsers, listed: seq<string>, names: seq<string>)
    returns (r: Result<string>)
    requires |names| >= 8
    modifies runner
    ensures var e := ServiceCidrFrom(runner.world, |old(runner.log)|, kubectl, p, Creating(listed, names[..Shortfall(|listed|)]));
      && r == e.outcome
      && runner.log == old(runner.log) + e.commands
      && runner.written == old(runner.written)
  {
    ghost var planned := names[..Shortfall(|listed|)];
    ghost var creating := CheckCalls(runner.world, |runner.log|, CreateCommands(kubectl, planned), |planned|);
    var created, created_ok := CreateServices(runner, kubectl, |listed|, names);
    if created_ok.Err? {
      CreationFailed(runner.world, |old(runner.log)|, kubectl, p, listed, planned);
      return Err(created_ok.failure);
    }
    ghost var between := runner.log;
    assert created == planned && |between| == |old(runner.log)| + |planned|;
    r := RelistAndCover(runner, kubectl, p, listed, created);
    ghost var rest := ServiceCidrFrom(runner.world, |between|, kubectl, p, Relisting(listed, created));
    CreationsPassed(runner.world, |old(runner.log)|, kubectl, p, listed, created);
    Appended(old(runner.log), creating.commands, rest.commands);
  }

  /** Lines 213-219 of `serviceCIDR`: list again if services were created, cover, and delete what was created. */
  method RelistAndCover(runner: Runner, kubectl: seq<string> -> seq<string>, p: Parsers, listed: seq<string>, created: seq<string>)
    returns (r: Result<string>)
    modifies runner
    ensures var e := ServiceCidrFrom(runner.world, |old(runner.log)|, kubectl, p, Relisting(listed, created));
      && r == e.outcome
      && runner.log == old(runner.log) + e.commands
      && runner.written == old(runner.written)
  {
    ghost var again: seq<seq<string>> := if created == [] then [] else [ServicesCommand(kubectl)];
    var ips: Result<seq<string>> := Ok(listed);
    if created != [] {
      ips := GetServiceIps(runner, kubectl, p);
      if ips.Err? {
        return Err(ips.failure);
      }
    }
    ghost var n := |runner.log|;
    var cover := CoveringCidrText(ips.value, p.address);
    if cover.Err? {
      return Err(cover.failure);
    }
    ghost var deleting := CheckCalls(runner.world, n, DeleteCommands(kubectl, created), |created|);
    var deleted := DeleteServices(runner, kubectl, created);
    Appended(old(runner.log), again, deleting.commands);
    if deleted.Err? {
      return Err(deleted.failure);
    }
    r := Ok(cover.value);
  }

  // ---------------------------------------------------------------------
  // get_proxy_cidrs

  /** `set(xs)`: the elements of `xs`. */
  function SetOf(xs: seq<string>): set<string>
  {
    set x | x in xs
  }

  /** What `get_proxy_cidrs` does: its effect, and the cache of the context afterwards. */
  datatype Proxied = Proxied(effect: Effect<set<string>>, cache: CacheState)

  /**
    Where `get_proxy_cidrs` is, with the ranges gathered so far: resolving
    the targets; looking the pod ranges up in the context's cache, or
    querying them on a miss; looking the service range up, or querying it
    on a miss.
  */
  datatype ProxyStep =
    | Resolving
    | LookingUpPods(gathered: set<string>)
    | QueryingPods(gathered: set<string>)
    | LookingUpService(gathered: set<string>)
    | QueryingService(gathered: set<string>)

  function ProxyStepsLeft(step: ProxyStep): nat
  {
    match step
    case Resolving => 4
    case LookingUpPods(_) => 3
    case QueryingPods(_) => 2
    case LookingUpService(_) => 1
    case QueryingService(_) => 0
  }

  /** `rest`, run after `commands` and `written`. */
  function Then(commands: seq<seq<string>>, written: seq<string>, rest: Proxied): Proxied
  {
    Proxied(Effect(rest.effect.outcome, commands + rest.effect.commands, written + rest.effect.written), rest.cache)
  }

  /**
    `get_proxy_cidrs` from `step` on, with `n` commands already run and the
    context's cache as `cache`. Each `context_cache.lookup` returns a stored
    value without running anything; on a miss it runs the query and stores
    what it returns, and an error leaves the entry missing. The result is a
    set: the order of the returned list is not modelled.
  */
  function ProxyCidrsFrom(world: World, n: nat, kubectl: seq<string> -> seq<string>, remote: RemoteInfo, script: string,
                          targets: seq<string>, cache: CacheState, p: Parsers, names: seq<string>, step: ProxyStep): Proxied
    requires |names| >= 8
    decreases ProxyStepsLeft(step)
  {
    match step
    case Resolving =>
      var resolving := ResolveTargets(world, n, kubectl, remote, script, targets, cache.ips, p);
      var resolved := resolving.effect;
      var afterResolve := cache.(ips := resolving.cache);
      if resolved.outcome.Err? then Proxied(Effect(Err(resolved.outcome.failure), resolved.commands, resolved.written), afterResolve)
      else
        Then(resolved.commands, resolved.written,
             ProxyCidrsFrom(world, n + |resolved.commands|, kubectl, remote, script, targets, afterResolve, p, names,
                            LookingUpPods(SetOf(resolved.outcome.value))))
    case LookingUpPods(gathered) =>
      if cache.podCidrs.Some? then
        ProxyCidrsFrom(world, n, kubectl, remote, script, targets, cache, p, names, LookingUpService(gathered + cache.podCidrs.value))
      else ProxyCidrsFrom(world, n, kubectl, remote, script, targets, cache, p, names, QueryingPods(gathered))
    case QueryingPods(gathered) =>
      var pods := PodCidrsFrom(world, n, kubectl, p, ListingNodes);
      if pods.outcome.Err? then Proxied(Effect(Err(pods.outcome.failure), pods.commands, pods.written), cache)
      else
        Then(pods.commands, pods.written,
             ProxyCidrsFrom(world, n + |pods.commands|, kubectl, remote, script, targets, cache.(podCidrs := Some(pods.outcome.value)),
                            p, names, LookingUpService(gathered + pods.outcome.value)))
    case LookingUpService(gathered) =>
      if cache.serviceCidr.Some? then Proxied(Effect(Ok(gathered + {cache.serviceCidr.value}), [], []), cache)
      else ProxyCidrsFrom(world, n, kubectl, remote, script, targets, cache, p, names, QueryingService(gathered))
    case QueryingService(gathered) =>
      var service := ServiceCidrEffect(world, n, kubectl, p, names);
      if service.outcome.Err? then Proxied(Effect(Err(service.outcome.failure), service.commands, service.written), cache)
      else Proxied(Effect(Ok(gathered + {service.outcome.value}), service.commands, service.written),
                   cache.(serviceCidr := Some(service.outcome.value)))
  }

  /**
    From the service lookup on: a success returns the gathered ranges and
    the service range, which is then in the cache, and the pod entry is
    left as it was.
  */
  lemma ServiceLookupOk(world: World, n: nat, kubectl: seq<string> -> seq<string>, remote: RemoteInfo, script: string,
                        targets: seq<string>, cache: CacheState, p: Parsers, names: seq<string>, gathered: set<string>)
    requires |names| >= 8
    requires ProxyCidrsFrom(world, n, kubectl, remote, script, targets, cache, p, names, LookingUpService(gathered)).effect.outcome.Ok?
    ensures var r := ProxyCidrsFrom(world, n, kubectl, remote, script, targets, cache, p, names, LookingUpService(gathered));
      && r.cache.serviceCidr.Some? && r.cache.podCidrs == cache.podCidrs
      && r.effect.outcome.value == gathered + {r.cache.serviceCidr.value}
  {
    if cache.serviceCidr.None? {
      assert ProxyCidrsFrom(world, n, kubectl, remote, script, targets, cache, p, names, LookingUpService(gathered))
        == ProxyCidrsFrom(world, n, kubectl, remote, script, targets, cache, p, names, QueryingService(gathered));
    }
  }

  /**
    From the pod lookup on: a success returns the gathered ranges, the pod
    ranges and the service range, and both ranges are then in the cache.
  */
  lemma PodLookupOk(world: World, n: nat, kubectl: seq<string> -> seq<string>, remote: RemoteInfo, script: string,
                    targets: seq<string>, cache: CacheState, p: Parsers, names: seq<string>, gathered: set<string>)
    requires |names| >= 8
    requires ProxyCidrsFrom(world, n, kubectl, remote, script, targets, cache, p, names, LookingUpPods(gathered)).effect.outcome.Ok?
    ensures var r := ProxyCidrsFrom(world, n, kubectl, remote, script, targets, cache, p, names, LookingUpPods(gathered));
      && r.cache.podCidrs.Some? && r.cache.serviceCidr.Some?
      && r.effect.outcome.value == gathered + r.cache.podCidrs.value + {r.cache.serviceCidr.value}
  {
    if cache.podCidrs.Some? {
      ServiceLookupOk(world, n, kubectl, remote, script, targets, cache, p, names, gathered + cache.podCidrs.value);
    } else {
      var pods := PodCidrsFrom(world, n, kubectl, p, ListingNodes);
      ServiceLookupOk(world, n + |pods.commands|, kubectl, remote, script, targets, cache.(podCidrs := Some(pods.outcome.value)),
                      p, names, gathered + pods.outcome.value);
    }
  }

  /**
    `get_proxy_cidrs` resolves the targets first: a failure there is its
    failure, and a success goes on to the pod lookup with the resolved
    targets gathered.
  */
  lemma ResolvingFirst(world: World, m: nat, kubectl: seq<string> -> seq<string>, remote: RemoteInfo, script: string,
                       targets: seq<string>, cache: CacheState, p: Parsers, names: seq<string>)
    requires |names| >= 8
    ensures var resolving := ResolveTargets(world, m, kubectl, remote, script, targets, cache.ips, p);
      var r := ProxyCidrsFrom(world, m, kubectl, remote, script, targets, cache, p, names, Resolving);
      && (resolving.effect.outcome.Err? ==> r.effect.outcome == Err(resolving.effect.outcome.failure))
      && (resolving.effect.outcome.Ok? ==>
            r == Then(resolving.effect.commands, resolving.effect.written,
                      ProxyCidrsFrom(world, m + |resolving.effect.commands|, kubectl, remote, script, targets,
                                     cache.(ips := resolving.cache), p, names, LookingUpPods(SetOf(resolving.effect.outcome.value)))))
  {
  }

  /** A pod query that succeeds is followed by the service lookup, with the pod ranges stored and gathered. */
  lemma PodsQueriedThenService(world: World, m: nat, kubectl: seq<string> -> seq<string>, remote: RemoteInfo, script: string,
                               targets: seq<string>, cache: CacheState, p: Parsers, names: seq<string>, gathered: set<string>)
    requires |names| >= 8
    requires PodCidrsFrom(world, m, kubectl, p, ListingNodes).outcome.Ok?
    ensures var pods := PodCidrsFrom(world, m, kubectl, p, ListingNodes);
      ProxyCidrsFrom(world, m, kubectl, remote, script, targets, cache, p, names, QueryingPods(gathered))
      == Then(pods.commands, pods.written,
              ProxyCidrsFrom(world, m + |pods.commands|, kubectl, remote, script, targets,
                             cache.(podCidrs := Some(pods.outcome.value)), p, names, LookingUpService(gathered + pods.outcome.value)))
  {
  }

  /**
    When `k8s_resolve` fails, `get_proxy_cidrs` fails with its error after
    its commands and lines alone: no range is looked up, and the cached pod
    and service ranges are left as they were.
  */
  lemma ResolveFailureStops(world: World, m: nat, kubectl: seq<string> -> seq<string>, remote: RemoteInfo, script: string,
                            targets: seq<string>, cache: CacheState, p: Parsers, names: seq<string>)
    requires |names| >= 8
    requires ResolveTargets(world, m, kubectl, remote, script, targets, cache.ips, p).effect.outcome.Err?
    ensures var resolved := ResolveTargets(world, m, kubectl, remote, script, targets, cache.ips, p).effect;
      var r := ProxyCidrsFrom(world, m, kubectl, remote, script, targets, cache, p, names, Resolving);
      && r.effect.outcome == Err(resolved.outcome.failure)
      && r.effect.commands == resolved.commands && r.effect.written == resolved.written
      && r.cache.podCidrs == cache.podCidrs && r.cache.serviceCidr == cache.serviceCidr
  {
  }

  /**
    When the pod ranges are not cached and querying them fails,
    `get_proxy_cidrs` fails with that error: after resolving, it ran the pod
    query alone, no service range is looked up, and neither range is cached.
  */
  lemma PodQueryFailureStops(world: World, m: nat, kubectl: seq<string> -> seq<string>, remote: RemoteInfo, script: string,
                             targets: seq<string>, cache: CacheState, p: Parsers, names: seq<string>)
    requires |names| >= 8 && cache.podCidrs.None?
    requires ResolveTargets(world, m, kubectl, remote, script, targets, cache.ips, p).effect.outcome.Ok?
    requires var resolved := ResolveTargets(world, m, kubectl, remote, script, targets, cache.ips, p).effect;
      PodCidrsFrom(world, m + |resolved.commands|, kubectl, p, ListingNodes).outcome.Err?
    ensures var resolved := ResolveTargets(world, m, kubectl, remote, script, targets, cache.ips, p).effect;
      var pods := PodCidrsFrom(world, m + |resolved.commands|, kubectl, p, ListingNodes);
      var r := ProxyCidrsFrom(world, m, kubectl, remote, script, targets, cache, p, names, Resolving);
      && r.effect.outcome == pods.outcome
      && r.effect.commands == resolved.commands + pods.commands
      && r.effect.written == resolved.written + pods.written
      && r.cache.podCidrs == None && r.cache.serviceCidr == cache.serviceCidr
  {
    var resolving := ResolveTargets(world, m, kubectl, remote, script, targets, cache.ips, p);
    var n := m + |resolving.effect.commands|;
    var afterResolve := cache.(ips := resolving.cache);
    ResolvingFirst(world, m, kubectl, remote, script, targets, cache, p, names);
    var looking := ProxyCidrsFrom(world, n, kubectl, remote, script, targets, afterResolve, p, names,
                                  LookingUpPods(SetOf(resolving.effect.outcome.value)));
    assert looking == ProxyCidrsFrom(world, n, kubectl, remote, script, targets, afterResolve, p, names,
                                     QueryingPods(SetOf(resolving.effect.outcome.value)));
  }

  /**
    When `get_proxy_cidrs` succeeds, the targets were resolved, both
    ranges are then in the cache, and a range is returned exactly when it
    is a resolved target, one of the pod ranges or the service range.
  */
  lemma ProxyCidrsUnion(world: World, m: nat, kubectl: seq<string> -> seq<string>, remote: RemoteInfo, script: string,
                        targets: seq<string>, cache: CacheState, p: Parsers, names: seq<string>)
    requires |names| >= 8
    requires ProxyCidrsFrom(world, m, kubectl, remote, script, targets, cache, p, names, Resolving).effect.outcome.Ok?
    ensures var r := ProxyCidrsFrom(world, m, kubectl, remote, script, targets, cache, p, names, Resolving);
      var resolved := ResolveTargets(world, m, kubectl, remote, script, targets, cache.ips, p).effect.outcome;
      && resolved.Ok? && r.cache.podCidrs.Some? && r.cache.serviceCidr.Some?
      && forall x :: x in r.effect.outcome.value <==>
           x in resolved.value || x in r.cache.podCidrs.value || x == r.cache.serviceCidr.value
  {
    var resolving := ResolveTargets(world, m, kubectl, remote, script, targets, cache.ips, p);
    ResolvingFirst(world, m, kubectl, remote, script, targets, cache, p, names);
    var gathered := SetOf(resolving.effect.outcome.value);
    var n := m + |resolving.effect.commands|;
    var rest := ProxyCidrsFrom(world, n, kubectl, remote, script, targets, cache.(ips := resolving.cache), p, names, LookingUpPods(gathered));
    var r := ProxyCidrsFrom(world, m, kubectl, remote, script, targets, cache, p, names, Resolving);
    assert r == Then(resolving.effect.commands, resolving.effect.written, rest);
    PodLookupOk(world, n, kubectl, remote, script, targets, cache.(ips := resolving.cache), p, names, gathered);
    assert r.effect.outcome.value == gathered + r.cache.podCidrs.value + {r.cache.serviceCidr.value};
  }

  /**
    With both ranges already in the cache, `get_proxy_cidrs` runs only the
    lookup of the targets, leaves both entries as they were and returns
    them with the resolved targets.
  */
  lemma ProxyCidrsCached(world: World, m: nat, kubectl: seq<string> -> seq<string>, remote: RemoteInfo, script: string,
                         targets: seq<string>, cache: CacheState, p: Parsers, names: seq<string>)
    requires |names| >= 8
    requires cache.podCidrs.Some? && cache.serviceCidr.Some?
    ensures var r := ProxyCidrsFrom(world, m, kubectl, remote, script, targets, cache, p, names, Resolving);
      var resolving := ResolveTargets(world, m, kubectl, remote, script, targets, cache.ips, p);
      && r.effect.commands == resolving.effect.commands
      && r.effect.written == resolving.effect.written
      && r.cache == CacheState(resolving.cache, cache.podCidrs, cache.serviceCidr)
      && (resolving.effect.outcome.Ok? ==>
            r.effect.outcome == Ok(SetOf(resolving.effect.outcome.value) + cache.podCidrs.value + {cache.serviceCidr.value}))
  {
    var resolving := ResolveTargets(world, m, kubectl, remote, script, targets, cache.ips, p);
    if resolving.effect.outcome.Ok? {
      var gathered := SetOf(resolving.effect.outcome.value);
      var after := cache.(ips := resolving.cache);
      var n := m + |resolving.effect.commands|;
      assert ProxyCidrsFrom(world, n, kubectl, remote, script, targets, after, p, names, LookingUpPods(gathered))
        == Proxied(Effect(Ok(gathered + cache.podCidrs.value + {cache.serviceCidr.value}), [], []), after);
    }
  }

  /** The service lookup of `get_proxy_cidrs` and what follows it, run against the runner and the cache. */
  method AddServiceRange(runner: Runner, cache: ContextCache, kubectl: seq<string> -> seq<string>, remote: RemoteInfo, script: string,
                         targets: seq<string>, p: Parsers, names: seq<string>, gathered: set<string>) returns (r: Result<set<string>>)
    requires |names| >= 8
    modifies runner, cache
    ensures var e := ProxyCidrsFrom(runner.world, |old(runner.log)|, kubectl, remote, script, targets, old(cache.State()), p, names,
                                    LookingUpService(gathered));
      && r == e.effect.outcome
      && runner.log == old(runner.log) + e.effect.commands
      && runner.written == old(runner.written) + e.effect.written
      && cache.State() == e.cache
  {
    if cache.serviceCidr.Some? {
      return Ok(gathered + {cache.serviceCidr.value});
    }
    ServiceCidrWritesNothing(runner.world, |runner.log|, kubectl, p, Listing(names));
    var service := ServiceCidr(runner, kubectl, p, names);
    if service.Err? {
      return Err(service.failure);
    }
    cache.serviceCidr := Some(service.value);
    r := Ok(gathered + {service.value});
  }

  /** The pod query of `get_proxy_cidrs` on a cache miss and what follows it, run against the runner and the cache. */
  method QueryPodRanges(runner: Runner, cache: ContextCache, kubectl: seq<string> -> seq<string>, remote: RemoteInfo, script: string,
                        targets: seq<string>, p: Parsers, names: seq<string>, gathered: set<string>) returns (r: Result<set<string>>)
    requires |names| >= 8
    modifies runner, cache
    ensures var e := ProxyCidrsFrom(runner.world, |old(runner.log)|, kubectl, remote, script, targets, old(cache.State()), p, names,
                                    QueryingPods(gathered));
      && r == e.effect.outcome
      && runner.log == old(runner.log) + e.effect.commands
      && runner.written == old(runner.written) + e.effect.written
      && cache.State() == e.cache
  {
    ghost var queried := PodCidrsFrom(runner.world, |runner.log|, kubectl, p, ListingNodes);
    ghost var e := ProxyCidrsFrom(runner.world, |runner.log|, kubectl, remote, script, targets, cache.State(), p, names,
                                  QueryingPods(gathered));
    var pods := PodCidrs(runner, kubectl, p);
    if pods.Err? {
      assert e.effect == Effect(Err(pods.failure), queried.commands, queried.written) && e.cache == old(cache.State());
      return Err(pods.failure);
    }
    cache.podCidrs := Some(pods.value);
    PodsQueriedThenService(runner.world, |old(runner.log)|, kubectl, remote, script, targets, old(cache.State()), p, names, gathered);
    ghost var rest := ProxyCidrsFrom(runner.world, |runner.log|, kubectl, remote, script, targets, cache.State(), p, names,
                                     LookingUpService(gathered + pods.value));
    assert e == Then(queried.commands, queried.written, rest);
    r := AddServiceRange(runner, cache, kubectl, remote, script, targets, p, names, gathered + pods.value);
    Appended(old(runner.log), queried.commands, rest.effect.commands);
    Appended(old(runner.written), queried.written, rest.effect.written);
  }

  /** The pod lookup of `get_proxy_cidrs` and what follows it, run against the runner and the cache. */
  method AddPodRanges(runner: Runner, cache: ContextCache, kubectl: seq<string> -> seq<string>, remote: RemoteInfo, script: string,
                      targets: seq<string>, p: Parsers, names: seq<string>, gathered: set<string>) returns (r: Result<set<string>>)
    requires |names| >= 8
    modifies runner, cache
    ensures var e := ProxyCidrsFrom(runner.world, |old(runner.log)|, kubectl, remote, script, targets, old(cache.State()), p, names,
                                    LookingUpPods(gathered));
      && r == e.effect.outcome
      && runner.log == old(runner.log) + e.effect.commands
      && runner.written == old(runner.written) + e.effect.written
      && cache.State() == e.cache
  {
    if cache.podCidrs.Some? {
      r := AddServiceRange(runner, cache, kubectl, remote, script, targets, p, names, gathered + cache.podCidrs.value);
    } else {
      r := QueryPodRanges(runner, cache, kubectl, remote, script, targets, p, names, gathered);
    }
  }

  /** `get_proxy_cidrs`, run against the runner and the cache of the current context. */
  method GetProxyCidrs(runner: Runner, cache: ContextCache, kubectl: seq<string> -> seq<string>, remote: RemoteInfo, script: string,
                       targets: seq<string>, p: Parsers, names: seq<string>) returns (r: Result<set<string>>)
    requires |names| >= 8
    modifies runner, cache
    ensures var e := ProxyCidrsFrom(runner.world, |old(runner.log)|, kubectl, remote, script, targets, old(cache.State()), p, names,
                                    Resolving);
      && r == e.effect.outcome
      && runner.log == old(runner.log) + e.effect.commands
      && runner.written == old(runner.written) + e.effect.written
      && cache.State() == e.cache
  {
    ghost var resolving := ResolveTargets(runner.world, |runner.log|, kubectl, remote, script, targets, cache.ips, p);
    ResolvingFirst(runner.world, |runner.log|, kubectl, remote, script, targets, cache.State(), p, names);
    var resolved := K8sResolve(runner, cache, kubectl, remote, script, targets, p);
    if resolved.Err? {
      return Err(resolved.failure);
    }
    var result := SetOf(resolved.value);
    ghost var rest := ProxyCidrsFrom(runner.world, |runner.log|, kubectl, remote, script, targets, cache.State(), p, names,
                                     LookingUpPods(result));
    r := AddPodRanges(runner, cache, kubectl, remote, script, targets, p, names, result);
    Appended(old(runner.log), resolving.effect.commands, rest.effect.commands);
    Appended(old(runner.written), resolving.effect.written, rest.effect.written);
  }
}

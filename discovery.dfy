/** aws/discovery.go: the EC2 discovery strategy, which turns the running
    instances into member addresses across the configured port range. */
module AwsDiscovery {
  import opened Wrappers
  import opened Errors
  import opened Cluster
  import opened Ec2
  import opened AwsConfig
  import opened AwsClient
  import Decimal

  /** "host:port" with the port in decimal: the host, a ':' right after it,
      then the port's decimal text. AddressInjective shows that host and port
      can be recovered from it. */
  function Address(ip: string, port: int): (r: string)
    ensures |r| == |ip| + 1 + |Decimal.Itoa(port)| && r[|ip|] == ':'
  {
    ip + ":" + Decimal.Itoa(port)
  }

  /** The text after the last ':' of a string (all of it when there is none). */
  function AfterLastColon(a: string): string
    decreases |a|
  {
    if a == [] || a[|a| - 1] == ':' then [] else AfterLastColon(a[..|a| - 1]) + [a[|a| - 1]]
  }

  lemma {:induction false} AfterLastColonOf(host: string, d: string)
    requires forall i :: 0 <= i < |d| ==> d[i] != ':'
    ensures AfterLastColon(host + ":" + d) == d
    decreases |d|
  {
    var a := host + ":" + d;
    if d != [] {
      assert a[..|a| - 1] == host + ":" + d[..|d| - 1];
      AfterLastColonOf(host, d[..|d| - 1]);
    }
  }

  /** "host:port" determines host and port: the port text never holds a ':'. */
  lemma AddressInjective(ip1: string, p1: int, ip2: string, p2: int)
    ensures Address(ip1, p1) == Address(ip2, p2) <==> ip1 == ip2 && p1 == p2
  {
    if Address(ip1, p1) == Address(ip2, p2) {
      AddressParts(ip1, p1, ip2, p2);
    }
  }

  lemma AddressParts(ip1: string, p1: int, ip2: string, p2: int)
    requires Address(ip1, p1) == Address(ip2, p2)
    ensures ip1 == ip2 && p1 == p2
  {
    var d1, d2 := Decimal.Itoa(p1), Decimal.Itoa(p2);
    Decimal.ItoaHasNoColon(p1);
    Decimal.ItoaHasNoColon(p2);
    AfterLastColonOf(ip1, d1);
    AfterLastColonOf(ip2, d2);
    var a := ip1 + ":" + d1;
    assert d1 == d2;
    assert ip1 == a[..|ip1|] == ip2;
    Decimal.ItoaInjective(p1, p2);
  }

  /** The node for one instance at one port; the public address is set only
      when public addresses are in use. */
  function NodeFor(x: Instance, port: int, usePublicIP: bool): (n: Node)
    ensures n.privateAddr == Address(x.privateIp, port)
    ensures usePublicIP ==> n.publicAddr == Address(x.publicIp, port)
    ensures n.publicAddr == "" <==> !usePublicIP
  {
    Node(Address(x.privateIp, port), if usePublicIP then Address(x.publicIp, port) else "")
  }

  /** The inner loop: one node per instance, in instance order, at `port`. */
  function NodesAt(iss: seq<Instance>, port: int, usePublicIP: bool): (r: seq<Node>)
    ensures |r| == |iss|
    ensures forall j :: 0 <= j < |iss| ==> r[j] == NodeFor(iss[j], port, usePublicIP)
  {
    seq(|iss|, j requires 0 <= j < |iss| => NodeFor(iss[j], port, usePublicIP))
  }

  /** The nodes produced for the ports min..last, port-major and instance-minor. */
  function Expand(iss: seq<Instance>, min: int, last: int, usePublicIP: bool): (r: seq<Node>)
    ensures last < min ==> r == []
    ensures iss == [] ==> r == []
    decreases if last < min then 0 else last - min + 1
  {
    if last < min then [] else Expand(iss, min, last - 1, usePublicIP) + NodesAt(iss, last, usePublicIP)
  }

  /** One node per instance and port. */
  lemma {:induction false} ExpandLength(iss: seq<Instance>, min: int, max: int, usePublicIP: bool)
    requires min <= max + 1
    ensures |Expand(iss, min, max, usePublicIP)| == |iss| * (max - min + 1)
    decreases max - min + 1
  {
    if min <= max {
      ExpandLength(iss, min, max - 1, usePublicIP);
      assert |iss| * (max - min + 1) == |iss| * (max - min) + |iss|;
    }
  }

  /** The node for port min + q and instance j sits at index q * N + j. */
  lemma {:induction false} ExpandAtOffset(iss: seq<Instance>, min: int, max: int, usePublicIP: bool, q: nat, j: nat, k: nat)
    requires min + q <= max && j < |iss| && k == q * |iss| + j
    ensures k < |Expand(iss, min, max, usePublicIP)|
    ensures Expand(iss, min, max, usePublicIP)[k] == NodeFor(iss[j], min + q, usePublicIP)
    decreases max - min + 1
  {
    var prefix, row := Expand(iss, min, max - 1, usePublicIP), NodesAt(iss, max, usePublicIP);
    assert Expand(iss, min, max, usePublicIP) == prefix + row;
    ExpandLength(iss, min, max - 1, usePublicIP);
    if min + q < max {
      ExpandAtOffset(iss, min, max - 1, usePublicIP, q, j, k);
    } else {
      assert |prefix| == |iss| * q;
      CommuteOffset(q, |iss|, j, k, |prefix|);
      IndexInSecond(prefix, row, j, k);
    }
  }

  /** Index |prefix| + j of prefix + row is row's j-th element. */
  lemma IndexInSecond(prefix: seq<Node>, row: seq<Node>, j: nat, k: nat)
    requires j < |row| && k - |prefix| == j && k >= |prefix|
    ensures k < |prefix + row| && (prefix + row)[k] == row[j]
  {
  }

  lemma CommuteOffset(q: nat, n: nat, j: nat, k: nat, len: nat)
    requires k == q * n + j && len == n * q
    ensures k - len == j
  {
  }

  /** The node for port p and instance j sits at index (p - min) * N + j:
      ports outermost, instances innermost. */
  lemma ExpandAt(iss: seq<Instance>, min: int, max: int, usePublicIP: bool, p: int, j: nat, k: nat)
    requires min <= p <= max && j < |iss| && k == (p - min) * |iss| + j
    ensures k < |Expand(iss, min, max, usePublicIP)|
    ensures Expand(iss, min, max, usePublicIP)[k] == NodeFor(iss[j], p, usePublicIP)
  {
    ExpandAtOffset(iss, min, max, usePublicIP, p - min, j, k);
  }

  lemma MulMonotone(a: int, b: int, n: nat)
    requires a <= b
    ensures a * n <= b * n
  {
    assert b * n == a * n + (b - a) * n;
  }

  /** Conversely, index k holds instance k mod N at port min + k div N. */
  lemma ExpandAtIndex(iss: seq<Instance>, min: int, max: int, usePublicIP: bool, k: nat)
    requires min <= max && k < |Expand(iss, min, max, usePublicIP)|
    ensures |iss| > 0 && min <= min + k / |iss| <= max
    ensures Expand(iss, min, max, usePublicIP)[k] == NodeFor(iss[k % |iss|], min + k / |iss|, usePublicIP)
  {
    ExpandLength(iss, min, max, usePublicIP);
    var n := |iss|;
    var q, j := DivBound(k, n, max - min + 1);
    ExpandAtOffset(iss, min, max, usePublicIP, q, j, k);
  }

  /** k < n * c gives n > 0 and k's quotient and remainder by n. */
  lemma DivBound(k: nat, n: nat, c: nat) returns (q: nat, j: nat)
    requires k < n * c
    ensures n > 0 && q == k / n && j == k % n
    ensures q < c && j < n && k == q * n + j
  {
    if n == 0 {
      assert false;
    }
    q, j := k / n, k % n;
    if q >= c {
      MulMonotone(c, q, n);
      assert false;
    }
  }

  /** No two instances share a private IP. */
  predicate DistinctPrivateIps(iss: seq<Instance>)
  {
    forall a, b :: 0 <= a < |iss| && 0 <= b < |iss| && a != b ==> iss[a].privateIp != iss[b].privateIp
  }

  /** Instances with distinct private IPs yield nodes with pairwise distinct
      private addresses: no member address is reported twice. */
  lemma ExpandPrivateAddrsDistinct(iss: seq<Instance>, min: int, max: int, usePublicIP: bool)
    requires DistinctPrivateIps(iss)
    ensures forall k1, k2 :: 0 <= k1 < k2 < |Expand(iss, min, max, usePublicIP)| ==>
      Expand(iss, min, max, usePublicIP)[k1].privateAddr != Expand(iss, min, max, usePublicIP)[k2].privateAddr
  {
    forall k1, k2 | 0 <= k1 < k2 < |Expand(iss, min, max, usePublicIP)|
      ensures Expand(iss, min, max, usePublicIP)[k1].privateAddr != Expand(iss, min, max, usePublicIP)[k2].privateAddr
    {
      DistinctAt(iss, min, max, usePublicIP, k1, k2);
    }
  }

  lemma DistinctAt(iss: seq<Instance>, min: int, max: int, usePublicIP: bool, k1: nat, k2: nat)
    requires DistinctPrivateIps(iss)
    requires k1 < k2 < |Expand(iss, min, max, usePublicIP)|
    ensures Expand(iss, min, max, usePublicIP)[k1].privateAddr != Expand(iss, min, max, usePublicIP)[k2].privateAddr
  {
    if max < min {
      assert false;
    }
    var e := Expand(iss, min, max, usePublicIP);
    ExpandAtIndex(iss, min, max, usePublicIP, k1);
    ExpandAtIndex(iss, min, max, usePublicIP, k2);
    var n := |iss|;
    var j1, j2, p1, p2 := k1 % n, k2 % n, min + k1 / n, min + k2 / n;
    DivModDetermines(k1, k2, n);
    DistinctPairAddrs(iss, j1, p1, j2, p2);
  }

  /** Two different (instance, port) pairs give different private addresses. */
  lemma DistinctPairAddrs(iss: seq<Instance>, j1: nat, p1: int, j2: nat, p2: int)
    requires DistinctPrivateIps(iss)
    requires j1 < |iss| && j2 < |iss| && (j1 != j2 || p1 != p2)
    ensures Address(iss[j1].privateIp, p1) != Address(iss[j2].privateIp, p2)
  {
    AddressInjective(iss[j1].privateIp, p1, iss[j2].privateIp, p2);
  }

  lemma DivModDetermines(k1: nat, k2: nat, n: nat)
    requires n > 0
    ensures k1 / n == k2 / n && k1 % n == k2 % n <==> k1 == k2
  {
    if k1 / n == k2 / n && k1 % n == k2 % n {
      assert k1 == n * (k1 / n) + k1 % n;
    }
  }

  /** Without public addresses every node's public address is empty; with
      them it is the instance's public IP at the node's port. */
  lemma ExpandPublicAddresses(iss: seq<Instance>, min: int, max: int, usePublicIP: bool)
    ensures !usePublicIP ==>
      forall k :: 0 <= k < |Expand(iss, min, max, usePublicIP)| ==> Expand(iss, min, max, usePublicIP)[k].publicAddr == ""
    ensures usePublicIP && min <= max && |iss| > 0 ==>
      forall k :: 0 <= k < |Expand(iss, min, max, usePublicIP)| ==>
        Expand(iss, min, max, usePublicIP)[k].publicAddr == Address(iss[k % |iss|].publicIp, min + k / |iss|)
  {
    if min <= max {
      var e := Expand(iss, min, max, usePublicIP);
      forall k | 0 <= k < |e|
        ensures usePublicIP ==> e[k].publicAddr == Address(iss[k % |iss|].publicIp, min + k / |iss|)
        ensures !usePublicIP ==> e[k].publicAddr == ""
      {
        ExpandAtIndex(iss, min, max, usePublicIP, k);
      }
    }
  }

  /** The inner loop of DiscoverNodes: appends one node per instance, in
      instance order, at `port`. */
  method AppendNodesAt(nodes: seq<Node>, iss: seq<Instance>, port: int, usePublicIP: bool) returns (r: seq<Node>)
    ensures r == nodes + NodesAt(iss, port, usePublicIP)
  {
    r := nodes;
    for j := 0 to |iss|
      invariant r == nodes + NodesAt(iss, port, usePublicIP)[..j]
    {
      var p := Decimal.Itoa(port);
      var node := Node(iss[j].privateIp + ":" + p, "");
      if usePublicIP {
        node := node.(publicAddr := iss[j].publicIp + ":" + p);
      }
      assert NodesAt(iss, port, usePublicIP)[..j + 1] == NodesAt(iss, port, usePublicIP)[..j] + [node];
      r := r + [node];
    }
    assert NodesAt(iss, port, usePublicIP)[..|iss|] == NodesAt(iss, port, usePublicIP);
  }

  /** The outer loop of DiscoverNodes: every port of the range in ascending
      order, each with one node per instance. */
  method ExpandPorts(instances: seq<Instance>, pr: PortRange, usePublicIP: bool) returns (nodes: seq<Node>)
    ensures nodes == Expand(instances, pr.min, pr.max, usePublicIP)
  {
    nodes := [];
    var port := pr.min;
    while port <= pr.max
      invariant pr.min <= port <= if pr.min <= pr.max then pr.max + 1 else pr.min
      invariant nodes == Expand(instances, pr.min, port - 1, usePublicIP)
    {
      nodes := AppendNodesAt(nodes, instances, port, usePublicIP);
      port := port + 1;
    }
  }

  const DiscoverNodesTrace := "aws.EC2DiscoveryStrategy.DiscoverNodes"
  const StartedMessage := "Started EC2 Discovery Strategy "

  /** What DiscoverNodes returns for a DescribeInstances response: the cause
      wrapped with "discovering instances: ", or every running instance at
      every port of the range. */
  function DiscoveryOutcome(resp: Result<seq<Reservation>, Error>, pr: PortRange, usePublicIP: bool): (r: Result<seq<Node>, Error>)
    ensures resp.Failure? <==> r.Failure?
    ensures resp.Failure? ==> r.error == Wrapped(DiscoveringInstances, resp.error)
    ensures resp.Success? && pr.max < pr.min ==> r.value == []
  {
    match resp
    case Failure(cause) => Failure(Wrapped(DiscoveringInstances, cause))
    case Success(rs) => Success(Expand(RunningInstances(rs), pr.min, pr.max, usePublicIP))
  }

  /** A provider error comes back with "discovering instances: " in front of
      its text and no nodes; on success there is one node per running
      instance and port, and none at all when no instance is running. */
  lemma DiscoveryOutcomeShape(resp: Result<seq<Reservation>, Error>, pr: PortRange, usePublicIP: bool)
    ensures resp.Failure? <==> DiscoveryOutcome(resp, pr, usePublicIP).Failure?
    ensures resp.Failure? ==>
      ErrorText(DiscoveryOutcome(resp, pr, usePublicIP).error) == DiscoveringInstances + ErrorText(resp.error)
    ensures resp.Success? && pr.min <= pr.max + 1 ==>
      |DiscoveryOutcome(resp, pr, usePublicIP).value| == |RunningInstances(resp.value)| * (pr.max - pr.min + 1)
    ensures resp.Success? && RunningInstances(resp.value) == [] ==> DiscoveryOutcome(resp, pr, usePublicIP).value == []
  {
    if resp.Success? {
      if pr.min <= pr.max + 1 {
        ExpandLength(RunningInstances(resp.value), pr.min, pr.max, usePublicIP);
      }
    }
  }

  /** What DiscoverNodes logs: its trace line, the client's entries, then
      the error, or the debug table of the nodes. */
  function DiscoveryLog(resp: Result<seq<Reservation>, Error>, pr: PortRange, usePublicIP: bool): (r: seq<LogEntry>)
    ensures |r| == |InstancesLog(resp)| + 2
    ensures r[0] == LogEntry(WeightTrace, Text(DiscoverNodesTrace))
    ensures r[1..|r| - 1] == InstancesLog(resp)
    ensures r[|r| - 1].weight == if resp.Failure? then WeightError else WeightDebug
  {
    [LogEntry(WeightTrace, Text(DiscoverNodesTrace))] + InstancesLog(resp)
      + match DiscoveryOutcome(resp, pr, usePublicIP)
        case Failure(e) => [LogEntry(WeightError, Text(ErrorText(e)))]
        case Success(nodes) => [LogEntry(WeightDebug, NodeTable(nodes))]
  }

  /** EC2DiscoveryStrategy. `started` records that Start has bound a logger. */
  class EC2DiscoveryStrategy {
    var client: Client
    var filters: seq<AwsFilter>
    var portRange: PortRange
    var logger: Logger?
    var usePublicIP: bool
    ghost var started: bool

    ghost predicate Valid()
      reads this, client
    {
      && 0 < portRange.min <= portRange.max
      && (started ==> logger != null && client.logger == logger)
    }

    constructor (client: Client, filters: seq<AwsFilter>, portRange: PortRange)
      requires 0 < portRange.min <= portRange.max
      ensures Valid() && !started
      ensures this.client == client && this.filters == filters && this.portRange == portRange
      ensures logger == null && !usePublicIP
    {
      this.client := client;
      this.filters := filters;
      this.portRange := portRange;
      logger := null;
      usePublicIP := false;
      started := false;
    }

    /** Binds the logger and the public-address preference, hands the logger
        to the client, logs one info line and never fails. `version` is the
        plugin's version string. */
    method Start(opts: StrategyOptions, version: string) returns (e: Option<Error>)
      requires Valid() && opts.logger != null
      modifies this, client, opts.logger
      ensures Valid() && started
      ensures e == None
      ensures usePublicIP == opts.usePublicIP && logger == opts.logger && client.logger == opts.logger
      ensures client == old(client) && client.api == old(client.api)
      ensures filters == old(filters) && portRange == old(portRange)
      ensures logger.entries == old(opts.logger.entries) + [LogEntry(WeightInfo, Text(StartedMessage + version))]
    {
      usePublicIP := opts.usePublicIP;
      logger := opts.logger;
      client.logger := logger;
      started := true;
      logger.Log(WeightInfo, Text(StartedMessage + version));
      return None;
    }

    /** One discovery cycle: one DescribeInstances call, then either the
        wrapped error or every running instance at every port in range. */
    method DiscoverNodes() returns (r: Result<seq<Node>, Error>)
      requires Valid() && started
      modifies logger, client.api
      ensures Valid()
      ensures client.api.requests == old(client.api.requests) + [RequestFor(filters)]
      ensures r == DiscoveryOutcome(client.api.respond(|old(client.api.requests)|, RequestFor(filters)), portRange, usePublicIP)
      ensures logger.entries == old(logger.entries)
        + DiscoveryLog(client.api.respond(|old(client.api.requests)|, RequestFor(filters)), portRange, usePublicIP)
    {
      ghost var resp := client.api.respond(|client.api.requests|, RequestFor(filters));
      ghost var head := old(logger.entries) + [LogEntry(WeightTrace, Text(DiscoverNodesTrace))];
      logger.Log(WeightTrace, Text(DiscoverNodesTrace));
      var iss := client.GetInstances(filters);
      assert logger.entries == head + InstancesLog(resp);
      if iss.Failure? {
        var err := Wrapped(DiscoveringInstances, iss.error);
        logger.Log(WeightError, Text(ErrorText(err)));
        assert DiscoveryLog(resp, portRange, usePublicIP)
          == [LogEntry(WeightTrace, Text(DiscoverNodesTrace))] + InstancesLog(resp) + [LogEntry(WeightError, Text(ErrorText(err)))];
        return Failure(err);
      }
      var nodes := ExpandPorts(iss.value, portRange, usePublicIP);
      logger.Log(WeightDebug, NodeTable(nodes));
      assert DiscoveryLog(resp, portRange, usePublicIP)
        == [LogEntry(WeightTrace, Text(DiscoverNodesTrace))] + InstancesLog(resp) + [LogEntry(WeightDebug, NodeTable(nodes))];
      r := Success(nodes);
    }
  }

  /** NewEC2DiscoveryStrategy: validates a copy of the config (Go passes it by
      value), returns the validation error and no strategy, or a fresh,
      unstarted strategy holding the config's filters and its defaulted port
      range. `sdk` is the client the AWS SDK would build. */
  method NewEC2DiscoveryStrategy(cfg: Config, sdk: DescribeInstancesApi) returns (r: Result<EC2DiscoveryStrategy, Error>)
    ensures ValidationError(cfg.err, cfg.portRange).Some? ==> r == Failure(ValidationError(cfg.err, cfg.portRange).value)
    ensures ValidationError(cfg.err, cfg.portRange) == None ==>
      && r.Success? && fresh(r.value) && fresh(r.value.client)
      && r.value.Valid() && !r.value.started
      && r.value.filters == cfg.filters
      && r.value.portRange == Defaulted(cfg.portRange)
      && 0 < r.value.portRange.min <= r.value.portRange.max
      && r.value.client.api == (if cfg.ec2Client != null then cfg.ec2Client else sdk)
      && r.value.client.logger == null
  {
    var local := cfg.Copy();
    var e := local.Validate();
    if e.Some? {
      return Failure(e.value);
    }
    var c := local.NewEc2Client(sdk);
    var fs := local.filters;
    var ds := new EC2DiscoveryStrategy(c, fs, local.portRange);
    return Success(ds);
  }
}

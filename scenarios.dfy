/** End-to-end runs of the strategy against a fixed provider, as the plugin's
    own tests drive it: a configuration, a tag filter, construction, Start,
    and one discovery cycle. */
module AwsScenarios {
  import opened Wrappers
  import opened Errors
  import opened Cluster
  import opened Ec2
  import opened AwsFilters
  import opened AwsConfig
  import opened AwsClient
  import opened AwsDiscovery
  import Decimal

  /** Two running instances and one shutting down, each code carrying reason
      bits 0xab in its high byte. */
  const Reservations := [Reservation([
    Ec2Instance(Some("i-01475d6ea60de2207"), Some("18.117.130.41"), Some("172.31.20.2"),
                Some(Ec2InstanceState(Some(0xab00 + 16)))),
    Ec2Instance(Some("i-01b835aa71f8f5405"), Some("3.142.208.176"), Some("172.31.18.15"),
                Some(Ec2InstanceState(Some(0xab00 + 16)))),
    Ec2Instance(Some("i-01d835aa71f8f5405"), Some("3.142.207.17"), Some("172.31.18.16"),
                Some(Ec2InstanceState(Some(0xab00 + 32))))])]

  const Running := [
    Instance("i-01475d6ea60de2207", "18.117.130.41", "172.31.20.2"),
    Instance("i-01b835aa71f8f5405", "3.142.208.176", "172.31.18.15")]

  lemma PortsInDecimal()
    ensures Decimal.Itoa(6000) == "6000" && Decimal.Itoa(6001) == "6001"
  {
    assert Decimal.NatToDecimal(6) == "6";
    assert Decimal.NatToDecimal(60) == "60";
    assert Decimal.NatToDecimal(600) == "600";
  }

  /** The reservation keeps its two running instances, in order. */
  lemma ScenarioRunning()
    ensures RunningInstances(Reservations) == Running
  {
    var xs := Reservations[0].instances;
    assert xs[..2][..1] == xs[..1] && xs[..1][..0] == [];
    assert xs[..|xs| - 1] == xs[..2];
    assert KeepRunning(xs[..1]) == [Running[0]];
    assert KeepRunning(xs[..2]) == Running;
    assert KeepRunning(xs) == Running;
    assert RunningUpTo(Reservations, 1) == RunningUpTo(Reservations, 0) + KeepRunning(xs);
  }

  /** Ports 6000..6001, instances in response order, private addresses only. */
  lemma ScenarioNodes(usePublicIP: bool)
    ensures Expand(Running, 6000, 6001, usePublicIP) ==
      if usePublicIP then
        [Node("172.31.20.2:6000", "18.117.130.41:6000"), Node("172.31.18.15:6000", "3.142.208.176:6000"),
         Node("172.31.20.2:6001", "18.117.130.41:6001"), Node("172.31.18.15:6001", "3.142.208.176:6001")]
      else
        [Node("172.31.20.2:6000", ""), Node("172.31.18.15:6000", ""),
         Node("172.31.20.2:6001", ""), Node("172.31.18.15:6001", "")]
  {
    PortsInDecimal();
    assert Address("172.31.20.2", 6000) == "172.31.20.2:6000";
    assert Address("172.31.18.15", 6000) == "172.31.18.15:6000";
    assert Address("172.31.20.2", 6001) == "172.31.20.2:6001";
    assert Address("172.31.18.15", 6001) == "172.31.18.15:6001";
    assert Address("18.117.130.41", 6000) == "18.117.130.41:6000";
    assert Address("3.142.208.176", 6000) == "3.142.208.176:6000";
    assert Address("18.117.130.41", 6001) == "18.117.130.41:6001";
    assert Address("3.142.208.176", 6001) == "3.142.208.176:6001";
    var at0, at1 := NodesAt(Running, 6000, usePublicIP), NodesAt(Running, 6001, usePublicIP);
    assert at0 == [NodeFor(Running[0], 6000, usePublicIP), NodeFor(Running[1], 6000, usePublicIP)];
    assert at1 == [NodeFor(Running[0], 6001, usePublicIP), NodeFor(Running[1], 6001, usePublicIP)];
    assert Expand(Running, 6000, 5999, usePublicIP) == [];
    assert Expand(Running, 6000, 6000, usePublicIP) == at0;
    assert Expand(Running, 6000, 6001, usePublicIP) == at0 + at1;
  }

  /** A zero config with a Tag filter still validates; a filter that fails
      makes Validate return that filter's error. */
  lemma ValidateAfterFilters()
    ensures var (s, e) := SetFiltersOutcome([Tag("Foo", "Bar")], Settings([], PortRange(0, 0)), None);
      ValidationError(e, s.portRange) == None && s.filters == [TagFilter("Foo", "Bar")]
    ensures var failing := Custom((s: Settings) => (s, Some(FilterError("some error"))));
      var (s, e) := SetFiltersOutcome([failing], Settings([], PortRange(0, 0)), None);
      ValidationError(e, s.portRange) == Some(FilterError("some error"))
  {
    AllTagsAppendInOrder([Tag("Foo", "Bar")], Settings([], PortRange(0, 0)));
    assert TagFilters([Tag("Foo", "Bar")]) == [TagFilter("Foo", "Bar")];
  }

  /** Builds the strategy over a provider that answers `respond`, with the
      port range min..max and the given Tag filters, starts it with a fresh
      logger and version 1.0.0, and runs one discovery cycle. */
  method RunOnce(respond: (nat, DescribeInput) -> Result<seq<Reservation>, Error>, filters: seq<Filter>,
                 min: int, max: int, usePublicIP: bool)
    returns (r: Result<seq<Node>, Error>, log: seq<LogEntry>, request: DescribeInput)
    requires forall i :: 0 <= i < |filters| ==> filters[i].Tag?
    requires ValidationError(None, PortRange(min, max)) == None
    ensures request == RequestFor(TagFilters(filters))
    ensures r == DiscoveryOutcome(respond(0, request), Defaulted(PortRange(min, max)), usePublicIP)
    ensures log == [LogEntry(WeightInfo, Text(StartedMessage + "1.0.0"))]
      + DiscoveryLog(respond(0, request), Defaulted(PortRange(min, max)), usePublicIP)
  {
    var api := new DescribeInstancesApi(respond);
    var cfg := new Config([], PortRange(min, max), api);
    cfg.SetFilters(filters);
    AllTagsAppendInOrder(filters, Settings([], PortRange(min, max)));
    assert [] + TagFilters(filters) == TagFilters(filters);
    assert cfg.filters == TagFilters(filters) && cfg.err == None;
    assert cfg.portRange == PortRange(min, max);
    var sdk := new DescribeInstancesApi((n: nat, inp: DescribeInput) => Failure(ProviderError("no session")));
    var st := NewEC2DiscoveryStrategy(cfg, sdk);
    var ds := st.value;
    assert ds.client.api == api && api.requests == [];
    var lg := new Logger();
    var e := ds.Start(StrategyOptions(lg, usePublicIP), "1.0.0");
    assert lg.entries == [LogEntry(WeightInfo, Text(StartedMessage + "1.0.0"))];
    assert ds.filters == TagFilters(filters) && ds.portRange == Defaulted(PortRange(min, max));
    assert ds.client.api == api && api.requests == [] && ds.logger == lg;
    request := RequestFor(ds.filters);
    r := ds.DiscoverNodes();
    log := lg.entries;
  }

  /** The provider's answer: four nodes, and the log of both traces, one
      instance table and the node table. */
  lemma SucceedingResponse(usePublicIP: bool)
    ensures DiscoveryOutcome(Success(Reservations), PortRange(6000, 6001), usePublicIP)
      == Success(Expand(Running, 6000, 6001, usePublicIP))
    ensures DiscoveryLog(Success(Reservations), PortRange(6000, 6001), usePublicIP) == [
      LogEntry(600, Text("aws.EC2DiscoveryStrategy.DiscoverNodes")),
      LogEntry(600, Text("aws.client.GetInstances")),
      LogEntry(500, InstanceTable([
        ("i-01475d6ea60de2207", "172.31.20.2", "18.117.130.41"),
        ("i-01b835aa71f8f5405", "172.31.18.15", "3.142.208.176")])),
      LogEntry(500, NodeTable(Expand(Running, 6000, 6001, usePublicIP)))]
  {
    ScenarioRunning();
    assert RunningUpTo(Reservations, 1) == Running;
    assert LogsUpTo(Reservations, 1) == [LogEntry(WeightDebug, InstanceTable(InstanceRows(Running)))];
    assert InstanceRows(Running) == [
      ("i-01475d6ea60de2207", "172.31.20.2", "18.117.130.41"),
      ("i-01b835aa71f8f5405", "172.31.18.15", "3.142.208.176")];
  }

  /** A failed call: the wrapped error, logged at error weight after both traces. */
  lemma FailingResponse(pr: PortRange)
    ensures DiscoveryOutcome(Failure(ProviderError("discovery failed")), pr, false)
      == Failure(Wrapped(DiscoveringInstances, ProviderError("discovery failed")))
    ensures DiscoveryLog(Failure(ProviderError("discovery failed")), pr, false) == [
      LogEntry(600, Text("aws.EC2DiscoveryStrategy.DiscoverNodes")),
      LogEntry(600, Text("aws.client.GetInstances")),
      LogEntry(200, Text("discovering instances: discovery failed"))]
  {
    assert DiscoveringInstances + "discovery failed" == "discovering instances: discovery failed";
  }

  /** The successful cycle: the four nodes of ScenarioNodes, and the log of
      Start, the two traces, one instance table and the node table. */
  method DiscoverySucceeds(usePublicIP: bool) returns (r: Result<seq<Node>, Error>, log: seq<LogEntry>)
    ensures r == Success(Expand(Running, 6000, 6001, usePublicIP))
    ensures log == [
      LogEntry(400, Text("Started EC2 Discovery Strategy 1.0.0")),
      LogEntry(600, Text("aws.EC2DiscoveryStrategy.DiscoverNodes")),
      LogEntry(600, Text("aws.client.GetInstances")),
      LogEntry(500, InstanceTable([
        ("i-01475d6ea60de2207", "172.31.20.2", "18.117.130.41"),
        ("i-01b835aa71f8f5405", "172.31.18.15", "3.142.208.176")])),
      LogEntry(500, NodeTable(r.value))]
  {
    var respond := (n: nat, inp: DescribeInput) => Success(Reservations);
    var request;
    r, log, request := RunOnce(respond, [Tag("App", "foo")], 6000, 6001, usePublicIP);
    assert respond(0, request) == Success(Reservations);
    assert Defaulted(PortRange(6000, 6001)) == PortRange(6000, 6001);
    SucceedingResponse(usePublicIP);
    assert StartedMessage + "1.0.0" == "Started EC2 Discovery Strategy 1.0.0";
  }

  /** The failing cycle, with no filters and the default ports: the
      provider's error comes back wrapped, and the log ends with its text at
      error weight. */
  method DiscoveryFails() returns (r: Result<seq<Node>, Error>, log: seq<LogEntry>)
    ensures r == Failure(Wrapped(DiscoveringInstances, ProviderError("discovery failed")))
    ensures log == [
      LogEntry(400, Text("Started EC2 Discovery Strategy 1.0.0")),
      LogEntry(600, Text("aws.EC2DiscoveryStrategy.DiscoverNodes")),
      LogEntry(600, Text("aws.client.GetInstances")),
      LogEntry(200, Text("discovering instances: discovery failed"))]
  {
    var respond := (n: nat, inp: DescribeInput) => Failure(ProviderError("discovery failed"));
    var request;
    r, log, request := RunOnce(respond, [], 0, 0, false);
    assert respond(0, request) == Failure(ProviderError("discovery failed"));
    FailingResponse(Defaulted(PortRange(0, 0)));
    assert StartedMessage + "1.0.0" == "Started EC2 Discovery Strategy 1.0.0";
  }
}

/** aws/client.go: the inventory client, which asks EC2 for its instances and
    keeps the running ones. */
module AwsClient {
  import opened Wrappers
  import opened Errors
  import opened Cluster
  import opened Ec2
  import opened AwsUtil

  /** The normalised record of one running instance. */
  datatype Instance = Instance(id: string, publicIp: string, privateIp: string)

  /** The state byte of an SDK instance; a missing state reads as 0. */
  function StateOf(x: Ec2Instance): (r: Byte)
    ensures x.state == None || x.state.value.code == None ==> r == 0
    ensures x.state.Some? && x.state.value.code.Some? ==> (x.state.value.code.value - r) % 256 == 0
  {
    if x.state == None then 0 else InstanceState(x.state.value.code)
  }

  /** Running means a state code is present and its low byte is 16. */
  predicate IsRunning(x: Ec2Instance)
    ensures IsRunning(x) <==> x.state.Some? && x.state.value.code.Some? && x.state.value.code.value % 256 == 16
  {
    StateOf(x) == InstanceRunning
  }

  /** The record kept for an instance: absent fields become "". */
  function Normalise(x: Ec2Instance): (r: Instance)
    ensures x.instanceId.Some? ==> r.id == x.instanceId.value
    ensures x.publicIpAddress.Some? ==> r.publicIp == x.publicIpAddress.value
    ensures x.privateIpAddress.Some? ==> r.privateIp == x.privateIpAddress.value
    ensures x.instanceId == None ==> r.id == ""
    ensures x.publicIpAddress == None ==> r.publicIp == ""
    ensures x.privateIpAddress == None ==> r.privateIp == ""
  {
    Instance(DrefStr(x.instanceId), DrefStr(x.publicIpAddress), DrefStr(x.privateIpAddress))
  }

  /** The inner loop of GetInstances: the running instances of one list,
      normalised, in their order. */
  function KeepRunning(xs: seq<Ec2Instance>): (r: seq<Instance>)
    ensures |r| <= |xs|
    decreases |xs|
  {
    if xs == [] then []
    else
      var last := xs[|xs| - 1];
      KeepRunning(xs[..|xs| - 1]) + if IsRunning(last) then [Normalise(last)] else []
  }

  /** All instances of the first n reservations, reservation by reservation. */
  function FlattenUpTo(rs: seq<Reservation>, n: nat): seq<Ec2Instance>
    requires n <= |rs|
    decreases n
  {
    if n == 0 then [] else FlattenUpTo(rs, n - 1) + rs[n - 1].instances
  }

  function Flatten(rs: seq<Reservation>): seq<Ec2Instance>
  {
    FlattenUpTo(rs, |rs|)
  }

  /** The instances GetInstances has collected after n reservations: the kept
      instances of each in turn. Never more than the instances seen. */
  function RunningUpTo(rs: seq<Reservation>, n: nat): (r: seq<Instance>)
    requires n <= |rs|
    ensures |r| <= |FlattenUpTo(rs, n)|
    decreases n
  {
    if n == 0 then [] else RunningUpTo(rs, n - 1) + KeepRunning(rs[n - 1].instances)
  }

  /** What GetInstances returns on success. */
  function RunningInstances(rs: seq<Reservation>): (r: seq<Instance>)
    ensures |r| <= |Flatten(rs)|
  {
    RunningUpTo(rs, |rs|)
  }

  lemma {:induction false} KeepRunningAppend(xs: seq<Ec2Instance>, ys: seq<Ec2Instance>)
    ensures KeepRunning(xs + ys) == KeepRunning(xs) + KeepRunning(ys)
    decreases |ys|
  {
    if ys == [] {
      assert xs + ys == xs;
    } else {
      var zs := xs + ys;
      assert zs[..|zs| - 1] == xs + ys[..|ys| - 1];
      KeepRunningAppend(xs, ys[..|ys| - 1]);
    }
  }

  /** Filtering reservation by reservation is filtering the flattened list. */
  lemma RunningInstancesFiltersFlatten(rs: seq<Reservation>)
    ensures RunningInstances(rs) == KeepRunning(Flatten(rs))
  {
    RunningUpToFiltersFlatten(rs, |rs|);
  }

  lemma {:induction false} RunningUpToFiltersFlatten(rs: seq<Reservation>, n: nat)
    requires n <= |rs|
    ensures RunningUpTo(rs, n) == KeepRunning(FlattenUpTo(rs, n))
    decreases n
  {
    if n > 0 {
      RunningUpToFiltersFlatten(rs, n - 1);
      KeepRunningAppend(FlattenUpTo(rs, n - 1), rs[n - 1].instances);
    }
  }

  /** The positions of the running instances of xs, ascending. */
  function RunningIndices(xs: seq<Ec2Instance>): seq<nat>
    decreases |xs|
  {
    if xs == [] then []
    else RunningIndices(xs[..|xs| - 1]) + if IsRunning(xs[|xs| - 1]) then [|xs| - 1] else []
  }

  lemma RunningIndicesBound(xs: seq<Ec2Instance>, k: nat)
    requires k < |RunningIndices(xs)|
    ensures RunningIndices(xs)[k] < |xs|
    decreases |xs|
  {
    var init := xs[..|xs| - 1];
    if k < |RunningIndices(init)| {
      RunningIndicesBound(init, k);
    }
  }

  /** KeepRunning is exactly the normalised subsequence of running instances:
      it has one element per running position, and its k-th element comes
      from the k-th running position. */
  lemma {:induction false} KeepRunningAtRunningIndex(xs: seq<Ec2Instance>, k: nat)
    ensures |KeepRunning(xs)| == |RunningIndices(xs)|
    ensures k < |RunningIndices(xs)| ==>
      RunningIndices(xs)[k] < |xs| && KeepRunning(xs)[k] == Normalise(xs[RunningIndices(xs)[k]])
    decreases |xs|
  {
    if xs != [] {
      var init := xs[..|xs| - 1];
      KeepRunningAtRunningIndex(init, k);
      if k < |RunningIndices(xs)| {
        RunningIndicesBound(xs, k);
        if k < |RunningIndices(init)| {
          RunningIndicesBound(init, k);
          assert xs[RunningIndices(init)[k]] == init[RunningIndices(init)[k]];
        }
      }
    }
  }

  /** The running positions rise strictly, so the order of the provider's
      response is kept. */
  lemma {:induction false} RunningIndicesIncrease(xs: seq<Ec2Instance>, k: nat, l: nat)
    requires k < l < |RunningIndices(xs)|
    ensures RunningIndices(xs)[k] < RunningIndices(xs)[l]
    decreases |xs|
  {
    var init := xs[..|xs| - 1];
    if l < |RunningIndices(init)| {
      RunningIndicesIncrease(init, k, l);
    } else {
      RunningIndicesBound(init, k);
    }
  }

  /** A position is among the running positions iff its instance is running. */
  lemma {:induction false} RunningIndicesComplete(xs: seq<Ec2Instance>, i: nat)
    requires i < |xs|
    ensures IsRunning(xs[i]) <==> i in RunningIndices(xs)
    decreases |xs|
  {
    var init := xs[..|xs| - 1];
    if i < |init| {
      RunningIndicesComplete(init, i);
      assert xs[i] == init[i];
      assert i != |xs| - 1;
    } else {
      if i in RunningIndices(init) {
        var k :| 0 <= k < |RunningIndices(init)| && RunningIndices(init)[k] == i;
        RunningIndicesBound(init, k);
      }
    }
  }

  /** An instance with no state, or a state without a code, is never kept. */
  lemma MissingStateExcluded(x: Ec2Instance)
    requires x.state == None || x.state.value.code == None
    ensures !IsRunning(x)
  {
  }

  /** Reason bits are ignored: state code 0xab00|16 is kept, 0xab00|32 is not. */
  lemma ReasonBitsIgnored(x: Ec2Instance, hi: int)
    requires x.state.Some? && x.state.value.code.Some?
    requires -0x80_0000 <= hi < 0x80_0000
    ensures x.state.value.code.value == hi * 256 + 16 ==> IsRunning(x)
    ensures x.state.value.code.value == hi * 256 + 32 ==> !IsRunning(x)
  {
    var c := x.state.value.code.value;
    if c == hi * 256 + 16 {
      RunningIffLowByte(c, hi, 16);
    } else if c == hi * 256 + 32 {
      RunningIffLowByte(c, hi, 32);
    }
  }

  lemma KeepRunningPrefix(xs: seq<Ec2Instance>, j: nat)
    requires j < |xs|
    ensures KeepRunning(xs[..j + 1])
      == KeepRunning(xs[..j]) + if IsRunning(xs[j]) then [Normalise(xs[j])] else []
  {
    assert xs[..j + 1][..j] == xs[..j];
  }

  /** The DescribeInstances input: the filters are attached only when there are any. */
  function RequestFor(filters: seq<AwsFilter>): (inp: DescribeInput)
    ensures inp.filters.Some? <==> |filters| > 0
    ensures inp.filters.Some? ==> inp.filters.value == filters
  {
    DescribeInput(if |filters| > 0 then Some(filters) else None)
  }

  /** The debug table of instances (id, private, public), line by line. */
  function InstanceRows(iss: seq<Instance>): seq<(string, string, string)>
  {
    seq(|iss|, k requires 0 <= k < |iss| => (iss[k].id, iss[k].privateIp, iss[k].publicIp))
  }

  /** The debug entries GetInstances logs over the first n reservations:
      after each, the table of all instances kept so far. */
  function LogsUpTo(rs: seq<Reservation>, n: nat): (log: seq<LogEntry>)
    requires n <= |rs|
    ensures |log| == n
    ensures forall i :: 0 <= i < n ==> log[i].weight == WeightDebug
    decreases n
  {
    if n == 0 then [] else LogsUpTo(rs, n - 1) + [LogEntry(WeightDebug, InstanceTable(InstanceRows(RunningUpTo(rs, n))))]
  }

  function ReservationLogs(rs: seq<Reservation>): (log: seq<LogEntry>)
    ensures |log| == |rs|
    ensures forall i :: 0 <= i < |rs| ==> log[i].weight == WeightDebug
  {
    LogsUpTo(rs, |rs|)
  }

  const GetInstancesTrace := "aws.client.GetInstances"

  /** What GetInstances returns for a DescribeInstances response: the
      provider's error unchanged, or the running instances in order. */
  function InstancesOutcome(resp: Result<seq<Reservation>, Error>): (r: Result<seq<Instance>, Error>)
    ensures resp.Failure? <==> r.Failure?
    ensures resp.Failure? ==> r.error == resp.error
    ensures resp.Success? ==> |r.value| <= |Flatten(resp.value)|
  {
    match resp
    case Failure(e) => Failure(e)
    case Success(rs) => Success(RunningInstances(rs))
  }

  /** What GetInstances logs for a response: a trace line on entry, then one
      debug table per reservation when the call succeeded. */
  function InstancesLog(resp: Result<seq<Reservation>, Error>): (r: seq<LogEntry>)
    ensures |r| == 1 + if resp.Failure? then 0 else |resp.value|
    ensures r[0] == LogEntry(WeightTrace, Text(GetInstancesTrace))
    ensures forall i :: 1 <= i < |r| ==> r[i].weight == WeightDebug
  {
    [LogEntry(WeightTrace, Text(GetInstancesTrace))] + if resp.Failure? then [] else ReservationLogs(resp.value)
  }

  /** The inner loop of GetInstances: appends the running instances of one
      reservation, normalised, to `instances`, skipping the others. */
  method AppendRunning(instances: seq<Instance>, xs: seq<Ec2Instance>) returns (r: seq<Instance>)
    ensures r == instances + KeepRunning(xs)
  {
    r := instances;
    var j := 0;
    while j < |xs|
      invariant 0 <= j <= |xs|
      invariant r == instances + KeepRunning(xs[..j])
    {
      var x := xs[j];
      var state: Byte := 0;
      if x.state != None {
        state := InstanceState(x.state.value.code);
      }
      KeepRunningPrefix(xs, j);
      if state != InstanceRunning {
        j := j + 1;
        continue;
      }
      var id := DrefStr(x.instanceId);
      var pip := DrefStr(x.publicIpAddress);
      var prip := DrefStr(x.privateIpAddress);
      r := r + [Instance(id, pip, prip)];
      j := j + 1;
    }
    assert xs[..j] == xs;
  }

  /** The plugin's wrapper around the injected DescribeInstances capability. */
  class Client {
    const api: DescribeInstancesApi
    var logger: Logger?

    constructor (api: DescribeInstancesApi)
      ensures this.api == api && logger == null
    {
      this.api := api;
      logger := null;
    }

    /** One DescribeInstances call; its error is returned unchanged, otherwise
        the running instances of the response in order. */
    method GetInstances(filters: seq<AwsFilter>) returns (r: Result<seq<Instance>, Error>)
      requires logger != null
      modifies logger, api
      ensures api.requests == old(api.requests) + [RequestFor(filters)]
      ensures r == InstancesOutcome(api.respond(|old(api.requests)|, RequestFor(filters)))
      ensures logger.entries == old(logger.entries) + InstancesLog(api.respond(|old(api.requests)|, RequestFor(filters)))
    {
      logger.Log(WeightTrace, Text(GetInstancesTrace));
      var out := api.DescribeInstances(RequestFor(filters));
      if out.Failure? {
        assert InstancesLog(out) == [LogEntry(WeightTrace, Text(GetInstancesTrace))];
        return Failure(out.error);
      }
      var rs := out.value;
      ghost var log0 := old(logger.entries) + [LogEntry(WeightTrace, Text(GetInstancesTrace))];
      var instances: seq<Instance> := [];
      var i := 0;
      while i < |rs|
        invariant 0 <= i <= |rs|
        invariant instances == RunningUpTo(rs, i)
        invariant logger.entries == log0 + LogsUpTo(rs, i)
        modifies logger
      {
        instances := AppendRunning(instances, rs[i].instances);
        assert instances == RunningUpTo(rs, i + 1);
        logger.Log(WeightDebug, InstanceTable(InstanceRows(instances)));
        assert logger.entries == log0 + LogsUpTo(rs, i + 1);
        i := i + 1;
      }
      assert InstancesLog(out) == [LogEntry(WeightTrace, Text(GetInstancesTrace))] + ReservationLogs(rs);
      r := Success(instances);
    }
  }
}

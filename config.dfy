/** aws/config.go: the plugin configuration, its validation and the filter list. */
module AwsConfig {
  import opened Wrappers
  import opened Errors
  import opened Cluster
  import opened Ec2
  import opened AwsFilters
  import opened AwsClient

  const DefaultMinPort := 5701
  const DefaultMaxPort := 5703

  /** The port range after defaulting: each non-positive bound is replaced by
      its default, independently of the other; positive bounds are kept. */
  function Defaulted(pr: PortRange): (r: PortRange)
    ensures r.min > 0 && r.max > 0
    ensures pr.min > 0 ==> r.min == pr.min
    ensures pr.max > 0 ==> r.max == pr.max
    ensures pr.min <= 0 ==> r.min == DefaultMinPort
    ensures pr.max <= 0 ==> r.max == DefaultMaxPort
  {
    PortRange(if pr.min <= 0 then DefaultMinPort else pr.min,
              if pr.max <= 0 then DefaultMaxPort else pr.max)
  }

  /** The port range Validate leaves behind: untouched when a filter error was
      recorded (it returns before defaulting), defaulted otherwise. */
  function RangeAfterValidate(err: Option<Error>, pr: PortRange): (r: PortRange)
    ensures err.Some? ==> r == pr
    ensures err == None ==> r.min > 0 && r.max > 0
    ensures err == None && pr.min > 0 && pr.max > 0 ==> r == pr
  {
    if err.Some? then pr else Defaulted(pr)
  }

  /** The error Validate returns: the recorded filter error first, then an
      invalid range naming the defaulted minimum, otherwise none. */
  function ValidationError(err: Option<Error>, pr: PortRange): (r: Option<Error>)
    ensures err.Some? ==> r == err
    ensures err == None && r.Some? ==>
      r.value == InvalidPortRange(Defaulted(pr).min) && Defaulted(pr).max < Defaulted(pr).min
  {
    if err.Some? then err
    else
      var d := Defaulted(pr);
      if d.max < d.min then Some(InvalidPortRange(d.min)) else None
  }

  /** Validate succeeds iff no filter error was recorded and the defaulted
      range is not inverted; a recorded error is returned as it is. */
  lemma ValidateSucceedsIff(err: Option<Error>, pr: PortRange)
    ensures ValidationError(err, pr) == None <==> err == None && Defaulted(pr).min <= Defaulted(pr).max
    ensures err.Some? ==> ValidationError(err, pr) == err && RangeAfterValidate(err, pr) == pr
    ensures ValidationError(err, pr) == None ==> 0 < RangeAfterValidate(err, pr).min <= RangeAfterValidate(err, pr).max
  {
  }

  /** A second Validate returns what the first returned and changes nothing more. */
  lemma ValidateIdempotent(err: Option<Error>, pr: PortRange)
    ensures var pr' := RangeAfterValidate(err, pr);
      ValidationError(err, pr') == ValidationError(err, pr) && RangeAfterValidate(err, pr') == pr'
  {
  }

  /** The zero config becomes [5701, 5703]; {5000, 5000} is valid; {6000, 5000} is not. */
  lemma ValidateExamples()
    ensures ValidationError(None, PortRange(0, 0)) == None
    ensures RangeAfterValidate(None, PortRange(0, 0)) == PortRange(5701, 5703)
    ensures ValidationError(None, PortRange(5000, 5000)) == None
    ensures ValidationError(None, PortRange(6000, 5000)) == Some(InvalidPortRange(6000))
  {
  }

  /** The outcome of SetFilters on the settings and recorded error: the filters
      run in order, and the first error replaces the recorded one. */
  function SetFiltersOutcome(fs: seq<Filter>, s: Settings, err: Option<Error>): (r: (Settings, Option<Error>))
    ensures r.0 == ApplyFilters(fs, s).0
    ensures r.1 == None <==> err == None && ApplyFilters(fs, s).1 == None
    ensures ApplyFilters(fs, s).1.Some? ==> r.1 == ApplyFilters(fs, s).1
  {
    var (s', e) := ApplyFilters(fs, s);
    (s', if e.Some? then e else err)
  }

  /** SetFilters never clears a recorded error; a list of Tag builders leaves
      the recorded error as it was. */
  lemma SetFiltersKeepsError(fs: seq<Filter>, s: Settings, err: Option<Error>)
    ensures err.Some? ==> SetFiltersOutcome(fs, s, err).1.Some?
    ensures (forall i :: 0 <= i < |fs| ==> fs[i].Tag?) ==> SetFiltersOutcome(fs, s, err).1 == err
  {
    if forall i :: 0 <= i < |fs| ==> fs[i].Tag? {
      AllTagsAppendInOrder(fs, s);
    }
  }

  /** aws.Config. The AWS session is not modelled; `ec2Client` is the injected
      DescribeInstances capability, or null to use the SDK's. */
  class Config {
    var filters: seq<AwsFilter>
    var portRange: PortRange
    var err: Option<Error>
    const ec2Client: DescribeInstancesApi?

    /** A `Config{Filters: ..., PortRange: ..., ec2Client: ...}` literal. */
    constructor (filters: seq<AwsFilter>, portRange: PortRange, ec2Client: DescribeInstancesApi?)
      ensures this.filters == filters && this.portRange == portRange && err == None
      ensures this.ec2Client == ec2Client
    {
      this.filters := filters;
      this.portRange := portRange;
      err := None;
      this.ec2Client := ec2Client;
    }

    /** A copy of the struct, as Go makes when a Config is passed by value. */
    method Copy() returns (c: Config)
      ensures fresh(c)
      ensures c.filters == filters && c.portRange == portRange && c.err == err && c.ec2Client == ec2Client
    {
      c := new Config(filters, portRange, ec2Client);
      c.err := err;
    }

    method Validate() returns (e: Option<Error>)
      modifies this`portRange
      ensures e == ValidationError(old(err), old(portRange))
      ensures portRange == RangeAfterValidate(old(err), old(portRange))
      ensures e == None ==> 0 < portRange.min <= portRange.max
    {
      if err != None {
        return err;
      }
      if portRange.min <= 0 {
        portRange := portRange.(min := DefaultMinPort);
      }
      if portRange.max <= 0 {
        portRange := portRange.(max := DefaultMaxPort);
      }
      if portRange.max < portRange.min {
        return Some(InvalidPortRange(portRange.min));
      }
      return None;
    }

    method SetFilters(fs: seq<Filter>)
      modifies this`filters, this`portRange, this`err
      ensures (Settings(filters, portRange), err) == SetFiltersOutcome(fs, old(Settings(filters, portRange)), old(err))
    {
      ghost var s0 := Settings(filters, portRange);
      var i := 0;
      while i < |fs|
        invariant 0 <= i <= |fs|
        invariant ApplyFilters(fs[..i], s0) == (Settings(filters, portRange), None)
        invariant err == old(err)
      {
        ApplyFiltersSnoc(fs, s0, i);
        var (s, e) := ApplyFilter(fs[i], Settings(filters, portRange));
        filters, portRange := s.filters, s.portRange;
        if e.Some? {
          err := e;
          StopsAtFirstError(fs, s0, i);
          return;
        }
        i := i + 1;
      }
      assert fs[..i] == fs;
    }

    /** newEC2Client: the injected capability when there is one, otherwise the
        client built from the AWS session, which is passed in as `sdk`. */
    method NewEc2Client(sdk: DescribeInstancesApi) returns (c: Client)
      ensures fresh(c) && c.logger == null
      ensures c.api == if ec2Client != null then ec2Client else sdk
    {
      if ec2Client != null {
        c := new Client(ec2Client);
      } else {
        c := new Client(sdk);
      }
    }
  }
}

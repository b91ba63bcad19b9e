/** The boundary with the EC2 SDK: the request and response shapes of
    DescribeInstances and the injected capability that answers it. */
module Ec2 {
  import opened Wrappers
  import opened Errors

  /** Go's int32. */
  type Int32 = x: int | -0x8000_0000 <= x < 0x8000_0000

  /** types.Filter: a provider-side query predicate. */
  datatype AwsFilter = AwsFilter(name: string, values: seq<string>)

  /** types.InstanceState: the 16-bit state code with reason bits in its high byte. */
  datatype Ec2InstanceState = Ec2InstanceState(code: Option<Int32>)

  /** types.Instance, reduced to the fields the plugin reads. */
  datatype Ec2Instance = Ec2Instance(
    instanceId: Option<string>,
    publicIpAddress: Option<string>,
    privateIpAddress: Option<string>,
    state: Option<Ec2InstanceState>)

  datatype Reservation = Reservation(instances: seq<Ec2Instance>)

  /** ec2.DescribeInstancesInput; `filters` is None when the field is left nil. */
  datatype DescribeInput = DescribeInput(filters: Option<seq<AwsFilter>>)

  /** ec2.DescribeInstancesAPIClient. The n-th call (counting from 0) with input
      `inp` answers `respond(n, inp)`; `requests` records every call. */
  class DescribeInstancesApi {
    var requests: seq<DescribeInput>
    const respond: (nat, DescribeInput) -> Result<seq<Reservation>, Error>

    constructor (respond: (nat, DescribeInput) -> Result<seq<Reservation>, Error>)
      ensures requests == [] && this.respond == respond
    {
      requests := [];
      this.respond := respond;
    }

    method DescribeInstances(inp: DescribeInput) returns (out: Result<seq<Reservation>, Error>)
      modifies this
      ensures requests == old(requests) + [inp]
      ensures out == respond(|old(requests)|, inp)
    {
      out := respond(|requests|, inp);
      requests := requests + [inp];
    }
  }
}

# Hazelcast Go client: AWS EC2 discovery, modelled in Dafny

This project models the AWS discovery plugin of the Hazelcast Go client. The
plugin finds cluster members that run on EC2:

- a `Config` holds the provider filters and the member port range;
  `Validate` defaults the range and reports a recorded filter error;
  `SetFilters` runs filter builders such as `Tag` over the config;
- the inventory `client` issues one `DescribeInstances` call and keeps the
  instances whose state byte is "running" (16), with absent fields read as "";
- the `EC2DiscoveryStrategy` is built from a validated copy of the config,
  bound to a logger by `Start`, and on each `DiscoverNodes` turns the running
  instances into member addresses `ip:port` for every port of the range,
  port-major and instance-minor.

Modules, one per source file plus the boundary types:

| file | module | models |
|---|---|---|
| `util.dfy` | `AwsUtil` | `aws/util.go`: state-byte decoding, `drefStr` |
| `filters.dfy` | `AwsFilters` | `aws/filters.go`: the `Filter` type, `Tag`, and filter application |
| `config.dfy` | `AwsConfig` | `aws/config.go`: `Config`, `Validate`, `SetFilters`, `newEC2Client` |
| `client.dfy` | `AwsClient` | `aws/client.go`: `instance`, `client`, `GetInstances` |
| `discovery.dfy` | `AwsDiscovery` | `aws/discovery.go`: the strategy, `Start`, `DiscoverNodes`, the constructor |
| `decimal.dfy` | `Decimal` | `strconv.Itoa` for ports, and the parser that inverts it |
| `errors.dfy` | `Errors` | the errors the plugin creates or wraps, and their text |
| `cluster.dfy` | `Cluster` | the host client's `PortRange`, `Node`, log weights and a recording logger |
| `ec2.dfy` | `Ec2` | the SDK's request and response shapes and the `DescribeInstances` capability |
| `wrappers.dfy` | `Wrappers` | `Option` and `Result` |
| `scenarios.dfy` | `AwsScenarios` | the runs the plugin's tests perform, end to end |

Go's in-place state is kept in place:

- `Config`, `client`, `EC2DiscoveryStrategy`, the logger and the SDK client
  are classes whose methods update their fields under `modifies` clauses.
- Every loop of the source is a `while` or `for` loop with invariants. The
  loops are proved against specification functions: `KeepRunning`,
  `RunningUpTo`, `NodesAt`, `Expand` and `ApplyFilters`.
- The properties the source promises are proved about those functions as
  lemmas.
- The provider is a capability object. Its n-th call with input `inp`
  answers `respond(n, inp)`, an arbitrary function, and it records every
  request. This lets a contract state "exactly one call, with this input".
- The logger records every `(weight, message)` pair in order. The messages
  are symbolic rather than formatted text: a string, a table of instances or
  a table of nodes.

## Model

| member | source | states |
|---|---|---|
| `AwsUtil.InstanceState` | aws/util.go:5-10 | a nil code reads as state 0; otherwise the state is a byte congruent to the code modulo 256 |
| `AwsUtil.InstanceStateIsMaskedBits` | aws/util.go:9 | the state equals the bitwise AND of the code's 32-bit two's complement pattern with 0xFF, negative codes included |
| `AwsUtil.MaskLowBits` | aws/util.go:9 | AND with 2^k - 1 keeps exactly the k low bits (the value modulo 2^k) |
| `AwsUtil.RunningIffLowByte` | aws/util.go:3-9 | a code `hi*256 + lo` reads as `lo` whatever the reason bits `hi`, and is "running" iff `lo` is 16 |
| `AwsUtil.DrefStr` | aws/util.go:12-17 | nil dereferences to "", a present string to itself |
| `AwsFilters.TagFilter` | aws/filters.go:11-15 | the filter a Tag builder appends: its name is "tag:" followed by the tag name, and its values are exactly [value]; `TagAppendsOneFilter` and `TwoTagsInCallOrder` are stated through it |
| `AwsFilters.ApplyFilter` | aws/filters.go:10-17 | a Tag builder returns no error, keeps the port range and earlier filters and appends exactly one; a custom filter's outcome is its own |
| `AwsFilters.ApplyFilters` | aws/config.go:53-60 | no filters change nothing; a list of Tag builders records no error, keeps the port range and appends one filter per builder |
| `AwsFilters.TagAppendsOneFilter` | aws/filters.go:9-19 | one application of `Tag(n, v)` appends exactly one filter, named "tag:"+n with values [v]; earlier filters and the port range are unchanged; no error |
| `AwsFilters.ApplyFiltersSnoc` | aws/config.go:53-60 | after an error-free prefix, applying one more filter applies it to the state the prefix left |
| `AwsFilters.StopsAtFirstError` | aws/config.go:53-60 | if filter k is the first to fail, the outcome is the state filter k left plus its error: later filters never run, earlier effects are kept |
| `AwsFilters.AllTagsAppendInOrder` | aws/config.go:53-60 | a list of Tag builders appends one filter per tag in call order and records no error |
| `AwsFilters.TwoTagsInCallOrder` | aws/filters.go:16 | `SetFilters(Tag(a,x), Tag(b,y))` appends the tag:a filter, then the tag:b filter |
| `AwsFilters.TagAppliedTwice` | aws/filters.go:9-19 | corrected builder: two applications of one Tag value append two identical "tag:"+n filters |
| `AwsFilters.TagClosure.constructor` | aws/filters.go:9-10 | the closure captures its own fresh `name` variable and `value` |
| `AwsFilters.TagClosure.Apply` | aws/filters.go:10-17 | as written: the captured name becomes "tag:"+name, and the appended filter points at that shared variable |
| `AwsFilters.TagAppliedTwiceAsWritten` | aws/filters.go:11-16 | as written: applying Tag("Foo","Bar") twice leaves both appended filters named "tag:tag:Foo" |
| `AwsConfig.Defaulted` | aws/config.go:41-46 | each non-positive bound is replaced by its default (5701 for min, 5703 for max), independently; positive bounds are kept; both bounds end positive |
| `AwsConfig.RangeAfterValidate` | aws/config.go:37-46 | a recorded error leaves the range untouched; otherwise both bounds end positive and an already positive range is kept |
| `AwsConfig.ValidationError` | aws/config.go:37-51 | a recorded error is returned first; any other error is the invalid range naming the defaulted min, and only when the defaulted max is below it |
| `AwsConfig.ValidateSucceedsIff` | aws/config.go:37-51 | Validate succeeds iff no filter error was recorded and the defaulted max is at least the defaulted min; a recorded error is returned as it is and leaves the range untouched; on success 0 < min <= max |
| `AwsConfig.ValidateIdempotent` | aws/config.go:37-51 | a second Validate returns the same result and leaves the range as the first left it |
| `AwsConfig.ValidateExamples` | aws/config_test.go:35-52 | the zero config is valid and becomes [5701, 5703]; {5000,5000} is valid; {6000,5000} fails naming 6000 |
| `AwsConfig.SetFiltersOutcome` | aws/config.go:53-60 | the filters and range are those the loop leaves; the recorded error ends empty iff none was recorded and no filter failed, and a filter's error replaces the recorded one; `Config.SetFilters` and `SetFiltersKeepsError` are stated through it |
| `AwsConfig.SetFiltersKeepsError` | aws/config.go:53-60 | SetFilters never clears a recorded error, and Tag builders leave it as it was |
| `AwsConfig.Config.constructor` | aws/config.go:29-35 | a config literal: the given filters, range and injected client, no recorded error |
| `AwsConfig.Config.Copy` | aws/discovery.go:42 | a fresh config equal field by field, as when the struct is passed by value |
| `AwsConfig.Config.Validate` | aws/config.go:37-51 | returns the error and leaves the range that the specification functions give; on success 0 < min <= max |
| `AwsConfig.Config.SetFilters` | aws/config.go:53-60 | the new filters, range and recorded error are those of applying the filters in order up to the first failure, whose error replaces the recorded one |
| `AwsConfig.Config.NewEc2Client` | aws/config.go:62-67 | a fresh client, with no logger, over the injected capability when there is one and over the SDK client otherwise |
| `AwsClient.StateOf` | aws/client.go:63-66 | a missing state or code reads as 0; otherwise the state byte is congruent to the code modulo 256 |
| `AwsClient.IsRunning` | aws/client.go:63-69 | an instance is running iff it has a state with a code whose low byte is 16 |
| `AwsClient.Normalise` | aws/client.go:70-77 | each field of the kept record is the provider's value when present and "" when nil |
| `AwsClient.KeepRunning` | aws/client.go:62-79 | never more instances than the input has |
| `AwsClient.RunningUpTo` | aws/client.go:61-88 | the first n reservations yield no more instances than they hold together |
| `AwsClient.KeepRunningAtRunningIndex` | aws/client.go:62-79 | the kept list has one element per running position, and its k-th element is the normalised instance at the k-th running position |
| `AwsClient.RunningIndicesIncrease` | aws/client.go:61-79 | the running positions rise strictly, so the provider's order is kept |
| `AwsClient.RunningIndicesComplete` | aws/client.go:63-69 | a position is kept iff its instance's state byte is 16 |
| `AwsClient.KeepRunningAppend` | aws/client.go:61-79 | filtering a concatenation filters each part |
| `AwsClient.RunningInstances` | aws/client.go:60-89 | never more instances than all reservations hold together |
| `AwsClient.RunningInstancesFiltersFlatten` | aws/client.go:61-79 | filtering reservation by reservation equals filtering the flattened instance list |
| `AwsClient.MissingStateExcluded` | aws/client.go:63-69 | an instance with no state, or a state with no code, is never kept |
| `AwsClient.ReasonBitsIgnored` | aws/discovery_test.go:50-64 | code `hi*256 + 16` is kept and `hi*256 + 32` is dropped, whatever the reason bits |
| `AwsClient.KeepRunningPrefix` | aws/client.go:62-78 | one inner-loop step appends the normalised instance if it is running and nothing otherwise |
| `AwsClient.RequestFor` | aws/client.go:52-55 | filters are attached to the request iff the list is non-empty, and then unchanged |
| `AwsClient.LogsUpTo` | aws/client.go:80-87 | one debug entry per reservation processed |
| `AwsClient.ReservationLogs` | aws/client.go:80-87 | one debug entry per reservation of the response |
| `AwsClient.InstancesLog` | aws/client.go:49-87 | the trace entry first, then nothing more on a provider error and one debug entry per reservation on success |
| `AwsClient.InstancesOutcome` | aws/client.go:56-89 | a provider error is returned unchanged with no instances; on success at most as many instances as the response holds |
| `AwsClient.AppendRunning` | aws/client.go:62-79 | the inner loop appends exactly the kept instances of one reservation, in order |
| `AwsClient.Client.constructor` | aws/client.go:44-46 | a client over the given capability, with no logger |
| `AwsClient.Client.GetInstances` | aws/client.go:48-90 | exactly one DescribeInstances call, with the request RequestFor gives; the result is the provider's error or the running instances; the log gains the trace entry, then one debug table per reservation |
| `Ec2.DescribeInstancesApi.DescribeInstances` | aws/client.go:56 | each call is recorded, and its answer depends only on the call's index and input |
| `Cluster.Logger.Log` | aws/discovery.go:102-120 | each log call appends one entry carrying its weight |
| `Decimal.NatToDecimal` | aws/discovery.go:77 | a non-empty string of digits, with no leading zero unless the value is 0 |
| `Decimal.Itoa` | aws/discovery.go:77 | non-empty; it starts with a digit iff the value is non-negative |
| `Decimal.DecimalRoundTrip` | aws/discovery.go:77 | parsing the decimal rendering of n gives back n |
| `Decimal.AtoiItoa` | aws/discovery.go:77 | parsing the rendering of any integer, sign included, gives it back |
| `Decimal.ItoaInjective` | aws/discovery.go:77 | distinct ports have distinct renderings |
| `Decimal.ItoaHasNoColon` | aws/discovery.go:77-79 | a rendered port never contains the ':' separator |
| `Errors.ErrorText` | aws/config.go:48 | a provider or filter error reads as its own text; a wrapped error is its prefix followed by the cause's text; the invalid-range text is the fixed prefix followed by a number that parses back to the min it names |
| `AwsDiscovery.Address` | aws/discovery.go:77-82 | "host:port": the host's characters, a ':' right after them, then the port's decimal text; `AddressInjective` recovers host and port from it |
| `AwsDiscovery.AfterLastColonOf` | aws/discovery.go:79 | the text after the last ':' of "host:port" is the port text |
| `AwsDiscovery.AddressInjective` | aws/discovery.go:77-82 | two addresses are equal iff their hosts and ports are equal |
| `AwsDiscovery.NodeFor` | aws/discovery.go:77-83 | the private address is the private IP and port; the public address is the public IP and port when public addresses are in use and "" iff they are not |
| `AwsDiscovery.NodesAt` | aws/discovery.go:76-85 | one node per instance at the given port, in instance order |
| `AwsDiscovery.Expand` | aws/discovery.go:75-86 | an empty range or no instances give no nodes |
| `AwsDiscovery.ExpandLength` | aws/discovery.go:75-86 | one node per instance and port: N x (max - min + 1) |
| `AwsDiscovery.ExpandAtOffset` | aws/discovery.go:75-86 | the node for port min+q and instance j sits at index q*N + j |
| `AwsDiscovery.ExpandAt` | aws/discovery.go:75-86 | index k = (port - min)*N + j is in bounds and holds instance j's private address (and public address when in use) at that port |
| `AwsDiscovery.ExpandAtIndex` | aws/discovery.go:75-86 | conversely, index k holds instance k mod N at port min + k div N, which lies in the range |
| `AwsDiscovery.ExpandPrivateAddrsDistinct` | aws/discovery.go:75-86 | instances with distinct private IPs give pairwise distinct private member addresses |
| `AwsDiscovery.ExpandPublicAddresses` | aws/discovery.go:75-86 | without public addresses every node's public address is ""; with them, node k's public address is instance k mod N's public IP at port min + k div N |
| `AwsDiscovery.AppendNodesAt` | aws/discovery.go:76-85 | the inner loop appends one node per instance at one port, in instance order |
| `AwsDiscovery.ExpandPorts` | aws/discovery.go:75-86 | the outer loop produces every port of the range in ascending order |
| `AwsDiscovery.DiscoveryOutcome` | aws/discovery.go:68-86 | the result fails iff the provider call failed, and then carries the cause wrapped with "discovering instances: "; an empty range gives no nodes |
| `AwsDiscovery.DiscoveryOutcomeShape` | aws/discovery.go:68-99 | a provider error comes back as "discovering instances: " followed by the cause's text, with no nodes; on success one node per running instance and port, none when nothing runs |
| `AwsDiscovery.DiscoveryLog` | aws/discovery.go:65-98 | the strategy's trace entry, then exactly the client's entries, then one last entry at error weight on failure and debug weight on success |
| `AwsDiscovery.EC2DiscoveryStrategy.constructor` | aws/discovery.go:49-53 | the strategy holds the client, the filters and the range it is given; it is not started and has no logger |
| `AwsDiscovery.EC2DiscoveryStrategy.Start` | aws/discovery.go:56-62 | binds usePublicIP and the logger, gives the same logger to the client, logs one info line with the version, returns no error; filters, range and client are unchanged |
| `AwsDiscovery.EC2DiscoveryStrategy.DiscoverNodes` | aws/discovery.go:64-100 | exactly one provider call, with the strategy's filters; the result is the wrapped error or every running instance at every port; the log gains the trace entry, the client's entries, then the error or the node table; only the logger and the provider change |
| `AwsDiscovery.NewEC2DiscoveryStrategy` | aws/discovery.go:42-54 | a validation error is returned with no strategy; otherwise a fresh, unstarted strategy holding the config's filters and its defaulted range (0 < min <= max) over the injected or SDK client; the caller's config is not changed |
| `AwsScenarios.ScenarioRunning` | aws/discovery_test.go:42-68 | of the mock reservation, the two instances with code 0xab00 + 16 are kept, in order, and the 0xab00 + 32 one is dropped |
| `AwsScenarios.ScenarioNodes` | aws/discovery_test.go:106-112 | the four expected nodes for ports 6000..6001, with public addresses exactly when they are in use |
| `AwsScenarios.SucceedingResponse` | aws/discovery_test.go:113-128 | a successful cycle logs both traces, one instance table and the node table |
| `AwsScenarios.FailingResponse` | aws/discovery_test.go:185-191 | a failing cycle logs both traces and "discovering instances: discovery failed" at weight 200 |
| `AwsScenarios.RunOnce` | aws/discovery_test.go:88-105 | a config with the given Tag filters and port range, construction, Start and one discovery cycle send one request carrying those filters and give the outcome and log of DiscoveryOutcome and DiscoveryLog |
| `AwsScenarios.DiscoverySucceeds` | aws/discovery_test.go:88-129 | the success test's nodes and its log entries, in order |
| `AwsScenarios.DiscoveryFails` | aws/discovery_test.go:169-192 | with no filters and the default ports, as in the failure test: its wrapped error and its log entries, in order |
| `AwsScenarios.ValidateAfterFilters` | aws/config_test.go:53-61 | a Tag filter keeps the zero config valid; a failing filter makes Validate return that filter's error |

## Left out

- The AWS SDK is not modelled: `ec2.NewFromConfig`, the `aws.Config` credentials field and the request transport. The SDK-built client is passed to `NewEC2DiscoveryStrategy` as the `sdk` parameter, and every client answers through `respond`.
- `context.Context` is not modelled. The source only passes it through to the SDK.
- Log text formatting is not modelled (`fmt.Sprintf`, `strings.Builder`, the lazy message thunks). Messages are kept as a string, an instance table or a node table.
- The host logger's level filtering is not modelled. Every log call is recorded, as the tests' mock logger records it.
- `discovery.Version` is passed to `Start` as a parameter. It is defined outside the plugin.
- `instance.String()` is not modelled. It is used only for debugging output.
- Custom filters are not modelled as closures. They are pure functions from the exported config fields (filters and port range) to new fields and an optional error. A Go closure could also reach other state, which the model does not capture.
- The `%w` wrap of `hzerrors.ErrInvalidConfiguration` in Validate's error is not modelled. `InvalidPortRange` keeps the minimum it names, and its text omits the sentinel's suffix.
- AwsDiscovery.EC2DiscoveryStrategy.DiscoverNodes: requires that `Start` ran. Without it the Go code calls a method on a nil logger and panics, and the model has no panics.
- AwsDiscovery.EC2DiscoveryStrategy.Start: requires a non-nil logger in the options. With a nil one, the info line at aws/discovery.go:60 calls a method on a nil logger and panics, and the model has no panics.
- AwsClient.Client.GetInstances: requires that the client has a logger. Without one, the trace call at aws/client.go:49 panics on the nil logger, and the model has no panics.
- AwsDiscovery.ExpandPorts: ports are unbounded integers. In Go, a range whose max is the largest `int` would make `port++` wrap around and never leave the loop.
- Ports wider than Go's `int` are not modelled. The EC2 state code is the one fixed-width value, modelled as `Int32`.
- examples/aws/main.go is not part of this model. It connects to a live cluster and is not plugin logic.
- Aliasing through filter values is modelled only for the `Tag` builder's own name variable, in `TagClosure`. The rest of the model holds filters as values.
- AwsFilters.ApplyFilter, AwsFilters.ApplyFilters and AwsConfig.Config.SetFilters: the `Tag(name, value)` case of `Filter` stands for a Tag closure on its first application. A Go closure applied again has already renamed its captured name, so `t := Tag("a", "b"); cfg.SetFilters(t, t)` appends two filters both named "tag:tag:a". The model appends two named "tag:a". This is the corrected behaviour of the finding below; the as-written behaviour is `TagClosure`.
- AwsDiscovery.NewEC2DiscoveryStrategy: the `make` and `copy` at aws/discovery.go:47-48 copy the slice but not what its elements point to. Each `types.Filter` keeps its `Name` pointer and its `Values` backing array, so the strategy shares them with the caller's config. For a Tag filter, `Name` points at the builder closure's captured `name` (aws/filters.go:13). A later rename through that closure, or a write through `Values`, would change the strategy's filters in Go. The model holds the filters as values and does not capture this.

## Findings

| source | as written | input that shows it | evidently intended | confidence | as-written member | corrected member |
|---|---|---|---|---|---|---|
| aws/filters.go:11-13 | the closure reassigns its captured `name` to "tag:"+name on every call and stores a pointer to that variable as the filter's Name | applying one `Tag("Foo", "Bar")` value twice (for example by passing it to two configs) leaves both appended filters named "tag:tag:Foo" | every application appends a filter named "tag:Foo" and never renames earlier filters | not executed | `AwsFilters.TagAppliedTwiceAsWritten` | `AwsFilters.TagAppliedTwice` |

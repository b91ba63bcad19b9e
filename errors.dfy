/** The error values the discovery plugin produces or passes along. */
module Errors {
  import Decimal

  datatype Error =
    | FilterError(text: string)       // returned by a user-supplied filter
    | InvalidPortRange(floor: int)    // port range max below the (defaulted) min
    | ProviderError(text: string)     // a failed DescribeInstances call
    | Wrapped(prefix: string, cause: Error)  // `fmt.Errorf(prefix + "%w", cause)`

  const DiscoveringInstances := "discovering instances: "
  const InvalidRangeText := "port range max should be greater or equal to "

  /** The text of `err.Error()`. */
  function ErrorText(e: Error): (r: string)
    ensures e.FilterError? || e.ProviderError? ==> r == e.text
    ensures e.Wrapped? ==>
      |r| >= |e.prefix| && r[..|e.prefix|] == e.prefix && r[|e.prefix|..] == ErrorText(e.cause)
    ensures e.InvalidPortRange? ==>
      |r| > |InvalidRangeText| && r[..|InvalidRangeText|] == InvalidRangeText
      && Decimal.Atoi(r[|InvalidRangeText|..]) == e.floor
  {
    match e
    case FilterError(t) => t
    case InvalidPortRange(floor) =>
      Decimal.AtoiItoa(floor);
      InvalidRangeText + Decimal.Itoa(floor)
    case ProviderError(t) => t
    case Wrapped(p, c) => p + ErrorText(c)
  }
}

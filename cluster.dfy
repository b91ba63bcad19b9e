/** The types the plugin shares with the host cluster client: the port range,
    the discovered node, and the leveled logger the client injects. */
module Cluster {

  /** An inclusive range of member ports. */
  datatype PortRange = PortRange(min: int, max: int)

  /** A discovered member; PublicAddr is "" when no public address is reported. */
  datatype Node = Node(privateAddr: string, publicAddr: string)

  /** Log weights of the host client's logger. */
  const WeightError := 200
  const WeightInfo := 400
  const WeightDebug := 500
  const WeightTrace := 600

  /** What a log call reports, before any text formatting. */
  datatype Message =
    | Text(text: string)
    | InstanceTable(rows: seq<(string, string, string)>)  // (id, private, public) per line
    | NodeTable(nodes: seq<Node>)

  datatype LogEntry = LogEntry(weight: int, message: Message)

  /** A logger sink that records every call made to it, in order. */
  class Logger {
    var entries: seq<LogEntry>

    constructor ()
      ensures entries == []
    {
      entries := [];
    }

    method Log(weight: int, message: Message)
      modifies this
      ensures entries == old(entries) + [LogEntry(weight, message)]
    {
      entries := entries + [LogEntry(weight, message)];
    }
  }

  /** The options the host client passes to a discovery strategy's Start. */
  datatype StrategyOptions = StrategyOptions(logger: Logger?, usePublicIP: bool)
}

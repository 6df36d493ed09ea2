/** The messages the managers exchange, one datatype per message tag, and the few
    names every other module uses. */
module Messages {

  type Value = string

  datatype Option<+T> = None | Some(value: T)

  /** The acceptance an acceptor reports with its promise. */
  datatype Report = Report(id: int, value: Value)

  datatype ConsensusMsg =
    | Prepare(id: int)
    | Promise(roundId: int, report: Option<Report>)
    | Propose(id: int, roundId: int, value: Value)
    | Accept(proposeId: int)
    | Accepted(roundId: int, value: Value)

  datatype FailureMsg =
    | Ping
    | State(id: int, log: seq<Value>)
    | StateUpdated(recoveryId: int)
    | Recovered(recoveredNodeId: int)

  datatype ElectionMsg = Election | Alive | Victory

  datatype ClientMsg =
    | Shutdown
    | Port(port: string)
    | Disconnect
    | Replicate(value: Value)
    | Success

  datatype Tag = LeaderElection | Consensus | FailureDetection | Client

  datatype Message =
    | ConsensusMessage(consensus: ConsensusMsg)
    | FailureMessage(failure: FailureMsg)
    | ElectionMessage(election: ElectionMsg)
    | ClientMessage(client: ClientMsg)
  {
    function Tag(): Tag {
      match this
      case ConsensusMessage(_) => Consensus
      case FailureMessage(_) => FailureDetection
      case ElectionMessage(_) => LeaderElection
      case ClientMessage(_) => Client
    }
  }

  /** The communicator a message travels on: the cluster's own, or a client connection. */
  datatype Connection = World | ClientConnection

  /** The nodes of a cluster of n. */
  function Nodes(n: int): (nodes: set<int>)
    ensures n >= 0 ==> |nodes| == n
    ensures forall x :: x in nodes <==> 0 <= x < n
    decreases n
  {
    if n <= 0 then {} else Nodes(n - 1) + {n - 1}
  }
}

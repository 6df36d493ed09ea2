/** The ClientManager of src/manager/client-manager.cc: commands and their acknowledgement, the lock around a client
    connection, and one node's part in the two rings. */
module ClientManager {
  import opened Messages
  import opened Messenger
  import opened Consensus
  import Rings
  import opened ConsensusManager
  import FailureManager
  import Cluster

  /** A recovery of the node in a slot of the liveness vector whose thread waits for the mutex. */
  datatype Waiting = Waiting(thread: nat, nodeIndex: int, id: int)

  /** What happens while a request is handled: what the consensus thread receives during a round and the ids the clock
      gives, or the recoveries that get the mutex between two connections. */
  datatype Surroundings = Surroundings(
    id: int, proposeId: int, promises: seq<Letter>, accepts: seq<Letter>, rest: seq<Letter>, recoveries: seq<Waiting>)

  predicate WithinCluster(around: Surroundings, n: int) {
    && FromCluster(around.promises, n) && FromCluster(around.accepts, n) && FromCluster(around.rest, n)
    && SlotsOk(around.recoveries, n)
  }

  predicate SlotsOk(recoveries: seq<Waiting>, n: int) {
    forall i :: 0 <= i < |recoveries| ==> 0 <= recoveries[i].nodeIndex < n - 1
  }

  /** A message of the client connection with what surrounds its handling. */
  datatype Request = Request(src: int, message: ClientMsg, around: Surroundings)

  /** What serving requests leaves: the fields, the values acknowledged, the requests taken until SHUTDOWN, and what
      was sent. */
  datatype Served = Served(member: Member, acknowledged: seq<Value>, taken: nat, mail: seq<Envelope>)

  /** The STATE messages of recoveries that run one after the other, the log unchanged. */
  function RecoveryMail(rank: int, log: seq<Value>, recoveries: seq<Waiting>): (mail: seq<Envelope>)
    ensures |mail| == |recoveries|
  {
    seq(|recoveries|, i requires 0 <= i < |recoveries| =>
      Envelope(IndexToId(rank, recoveries[i].nodeIndex), FailureMessage(State(recoveries[i].id, log)), World))
  }

  /** One request after others. */
  function ServeOne(view: set<int>, rank: int, n: int, before: Served, request: Request): Served
    requires n > 0
  {
    var a, m := request.around, before.member;
    match request.message
    case Replicate(value) =>
      var outcome := Round(n, m, value, a.id, a.promises, a.accepts, a.rest);
      var mail := before.mail + RoundMail(view, rank, n, m, value, a.id, a.proposeId, a.promises, a.accepts, a.rest);
      if outcome.reached
      then Served(outcome.end, before.acknowledged + [value], before.taken + 1,
                  mail + [Envelope(request.src, ClientMessage(Success), ClientConnection)])
      else Served(outcome.end, before.acknowledged, before.taken + 1, mail)
    case Disconnect => before.(taken := before.taken + 1, mail := before.mail + RecoveryMail(rank, m.log, a.recoveries))
    case _ => before.(taken := before.taken + 1)
  }

  function Serve(view: set<int>, rank: int, n: int, m: Member, requests: seq<Request>): (served: Served)
    requires n > 0
    ensures served.taken <= |requests|
  {
    if requests == [] then Served(m, [], 0, [])
    else
      var before, request := Serve(view, rank, n, m, requests[..|requests| - 1]), requests[|requests| - 1];
      if before.taken < |requests| - 1 || request.message.Shutdown? then before
      else ServeOne(view, rank, n, before, request)
  }

  /** Requests before the first SHUTDOWN are taken, and no others. */
  lemma {:induction false} TakenUntilShutdown(view: set<int>, rank: int, n: int, m: Member, requests: seq<Request>)
    requires n > 0
    ensures var k := Serve(view, rank, n, m, requests).taken;
      && (forall i :: 0 <= i < k ==> !requests[i].message.Shutdown?)
      && (k < |requests| ==> requests[k].message.Shutdown?)
  {
    if requests != [] {
      TakenUntilShutdown(view, rank, n, m, requests[..|requests| - 1]);
    }
  }

  /** No other leader's values arrive. */
  ghost predicate SoleLeader(around: Surroundings) {
    Logged(around.promises) == [] && Logged(around.accepts) == [] && Logged(around.rest) == []
  }

  /** Over a whole session of a sole leader, recoveries between connections included, the log grows by exactly the
      acknowledged values, in the order of their acknowledgement: SUCCESS is sent only for logged values, and every
      value logged is acknowledged. */
  lemma {:induction false} LogIsAcknowledged(view: set<int>, rank: int, n: int, m: Member, requests: seq<Request>)
    requires n > 0 && forall i :: 0 <= i < |requests| ==> SoleLeader(requests[i].around)
    ensures var served := Serve(view, rank, n, m, requests); served.member.log == m.log + served.acknowledged
  {
    if requests != [] {
      var before, request := Serve(view, rank, n, m, requests[..|requests| - 1]), requests[|requests| - 1];
      LogIsAcknowledged(view, rank, n, m, requests[..|requests| - 1]);
      var a := request.around;
      assert SoleLeader(a);
      if request.message.Replicate? {
        RoundLog(n, before.member, request.message.value, a.id, a.promises, a.accepts, a.rest);
      }
    }
  }

  /** After a command the context is the one a fresh node has, so the next command starts from scratch. */
  lemma {:induction false} ContextIsFresh(view: set<int>, rank: int, n: int, m: Member, requests: seq<Request>)
    requires n > 0 && m.context == FRESH
    ensures Serve(view, rank, n, m, requests).member.context == FRESH
  {
    if requests != [] {
      ContextIsFresh(view, rank, n, m, requests[..|requests| - 1]);
    }
  }

  /** The PORT message of a node: to its predecessor, unless that is suspected. */
  function PortMail(view: set<int>, rank: int, n: int, port: string): seq<Envelope> {
    var prev := Rings.Prev(rank, n);
    if prev == rank || prev in view then [Envelope(prev, ClientMessage(Port(port)), World)] else []
  }

  /** It goes to the one node whose successor is the sender, and to nobody when that is suspected. */
  lemma PortExact(view: set<int>, rank: int, n: int, port: string, d: int)
    requires 0 <= rank < n && 0 <= d < n && Rings.Next(d, n) == rank
    ensures PortMail(view, rank, n, port)
            == if d == rank || d in view then [Envelope(d, ClientMessage(Port(port)), World)] else []
  {
    Rings.NextOfPrev(rank, n);
  }

  /** The ports among `mail` for node d. */
  function PortsTo(mail: seq<Envelope>, d: int): seq<string> {
    if mail == [] then []
    else
      var before, last := PortsTo(mail[..|mail| - 1], d), mail[|mail| - 1];
      match last.message
      case ClientMessage(Port(port)) => if last.dst == d then before + [port] else before
      case _ => before
  }

  /** A node that suspects nobody sends what module Rings lets it send, so what is proved there of the exchange holds of
      this class. */
  lemma PortIsRingSend(ports: seq<string>, peers: seq<Rings.Peer>, rank: int, view: set<int>)
    requires |ports| == |peers| && Rings.Enabled(peers, Rings.SendPort(rank))
    requires forall x :: 0 <= x < |ports| && x != rank ==> x in view
    ensures var peers' := Rings.Apply(ports, peers, Rings.SendPort(rank));
      && |peers'| == |peers| && peers'[rank].sent
      && forall d :: 0 <= d < |peers| ==>
           && peers'[d].inbox == peers[d].inbox + PortsTo(PortMail(view, rank, |ports|, ports[rank]), d)
           && peers'[d].nextPort == peers[d].nextPort && (d != rank ==> peers'[d].sent == peers[d].sent)
  {
    var mail := PortMail(view, rank, |ports|, ports[rank]);
    assert mail[..0] == [];
  }

  class ClientManager {
    const messenger: Messenger
    const consensusManager: ConsensusManager
    const failureManager: FailureManager.FailureManager
    const port: string
    var nextNodePort: string
    /** Connections made to the ports of other nodes, and what was sent there. */
    var handedOn: seq<(string, ClientMsg)>
    /** Its part in the exchange of ports so far. */
    ghost var exchange: seq<Rings.Step>

    ghost predicate Valid()
      reads this, messenger, consensusManager, failureManager, failureManager.messenger, failureManager.electionManager
    {
      && messenger.Valid() && consensusManager.messenger == messenger
      && failureManager.Valid() && failureManager.messenger == messenger
         && failureManager.logFile == consensusManager.logFile
    }

    constructor (messenger: Messenger, consensusManager: ConsensusManager,
                 failureManager: FailureManager.FailureManager, port: string)
      requires messenger.Valid() && consensusManager.messenger == messenger
      requires failureManager.Valid() && failureManager.messenger == messenger
               && failureManager.logFile == consensusManager.logFile
      ensures Valid() && this.messenger == messenger && this.consensusManager == consensusManager
      ensures this.failureManager == failureManager && this.port == port && handedOn == [] && exchange == []
    {
      this.messenger, this.consensusManager, this.failureManager, this.port :=
          messenger, consensusManager, failureManager, port;
      nextNodePort, handedOn, exchange := "", [], [];
    }

    /** A command is replicated, and acknowledged on its connection only if consensus was reached. */
    method HandleMessage(src: int, message: ClientMsg, connection: Connection, around: Surroundings)
      returns (acknowledged: bool)
      requires Valid() && connection.ClientConnection? && WithinCluster(around, messenger.clusterSize)
      modifies consensusManager, consensusManager.logFile, messenger`sent
      ensures Valid()
      ensures message.Replicate? ==>
        var was, a := old(consensusManager.Fields()), around;
        var outcome := Round(messenger.clusterSize, was, message.value, a.id, a.promises, a.accepts, a.rest);
        && consensusManager.Fields() == outcome.end && acknowledged == outcome.reached
        && messenger.sent == old(messenger.sent)
           + RoundMail(messenger.View(), messenger.rank, messenger.clusterSize, was, message.value, a.id,
                       a.proposeId, a.promises, a.accepts, a.rest)
           + (if acknowledged then [Envelope(src, ClientMessage(Success), connection)] else [])
      ensures !message.Replicate? ==>
        !acknowledged && consensusManager.Fields() == old(consensusManager.Fields())
            && messenger.sent == old(messenger.sent)
    {
      acknowledged := false;
      match message {
        case Replicate(value) =>
          acknowledged := consensusManager.StartConsensus(value, around.id, around.proposeId, around.promises,
                                                          around.accepts, around.rest);
          if acknowledged {
            messenger.Send(src, ClientMessage(Success), connection);
          }
        case _ =>
      }
    }

    /** Between two connections the mutex is free: the recoveries that wait for it run, one at a time, and send the
        log as it is; the mutex is held again once a client is accepted. */
    method AcceptConnection(recoveries: seq<Waiting>)
      requires Valid() && SlotsOk(recoveries, messenger.clusterSize)
      requires failureManager.clientConnMutex == Cluster.ClientThread
      modifies failureManager`clientConnMutex, failureManager`curRecoveryId, messenger`sent
      ensures Valid() && failureManager.clientConnMutex == Cluster.ClientThread
      ensures messenger.sent == old(messenger.sent)
              + RecoveryMail(messenger.rank, consensusManager.logFile.entries, recoveries)
      ensures failureManager.curRecoveryId == if recoveries == [] then old(failureManager.curRecoveryId) else -1
    {
      failureManager.AllowRecovery();
      var i := 0;
      while i < |recoveries|
        invariant 0 <= i <= |recoveries| && Valid() && failureManager.clientConnMutex == Cluster.Free
        invariant messenger.sent == old(messenger.sent)
                  + RecoveryMail(messenger.rank, consensusManager.logFile.entries, recoveries[..i])
        invariant failureManager.curRecoveryId == if i == 0 then old(failureManager.curRecoveryId) else -1
      {
        failureManager.TransferState(recoveries[i].thread, recoveries[i].nodeIndex, recoveries[i].id);
        failureManager.CloseRecovery(recoveries[i].thread);
        RecoveryMailNext(messenger.rank, consensusManager.logFile.entries, recoveries, i);
        i := i + 1;
      }
      assert recoveries[..i] == recoveries;
      failureManager.DisallowRecovery();
    }

    /** Serves what arrives until SHUTDOWN, accepting a new connection after each DISCONNECT. `acknowledged` are the
        values SUCCESS was sent for. */
    method ReceivePendingMessages(requests: seq<Request>) returns (taken: nat, acknowledged: seq<Value>)
      requires Valid() && forall i :: 0 <= i < |requests| ==> WithinCluster(requests[i].around, messenger.clusterSize)
      requires failureManager.clientConnMutex == Cluster.ClientThread
      modifies consensusManager, consensusManager.logFile, messenger`sent
      modifies failureManager`clientConnMutex, failureManager`curRecoveryId
      ensures Valid() && failureManager.clientConnMutex == Cluster.ClientThread
      ensures var served := Serve(messenger.View(), messenger.rank, messenger.clusterSize,
                                  old(consensusManager.Fields()), requests);
        && consensusManager.Fields() == served.member && acknowledged == served.acknowledged && taken == served.taken
        && messenger.sent == old(messenger.sent) + served.mail
    {
      ghost var was, n, view, rank :=
          consensusManager.Fields(), messenger.clusterSize, messenger.View(), messenger.rank;
      taken, acknowledged := 0, [];
      var isUp := true;
      assert requests[..0] == [];
      while isUp && taken < |requests|
        invariant taken <= |requests| && Valid() && failureManager.clientConnMutex == Cluster.ClientThread
        invariant old(messenger.sent) <= messenger.sent
        invariant Serve(view, rank, n, was, requests[..taken]) ==
                  Served(consensusManager.Fields(), acknowledged, taken, messenger.sent[|old(messenger.sent)|..])
        invariant isUp || (taken < |requests| && requests[taken].message.Shutdown?)
      {
        isUp := !requests[taken].message.Shutdown?;
        if isUp {
          ServeNext(view, rank, n, was, requests, taken);
          var success := HandleRequest(requests[taken], old(messenger.sent),
                                       Served(consensusManager.Fields(), acknowledged, taken,
                                              messenger.sent[|old(messenger.sent)|..]));
          if success {
            acknowledged := acknowledged + [requests[taken].message.value];
          }
          taken := taken + 1;
        }
      }
      if isUp {
        assert requests[..taken] == requests;
      } else {
        StopsAtShutdown(view, rank, n, was, requests, taken);
      }
    }

    /** One iteration of the receive loop; `start` is what had been sent when the loop began. */
    method HandleRequest(request: Request, ghost start: seq<Envelope>, ghost before: Served) returns (success: bool)
      requires Valid() && WithinCluster(request.around, messenger.clusterSize) && !request.message.Shutdown?
      requires failureManager.clientConnMutex == Cluster.ClientThread
      requires start <= messenger.sent && before.member == consensusManager.Fields()
               && before.mail == messenger.sent[|start|..]
      modifies consensusManager, consensusManager.logFile, messenger`sent
      modifies failureManager`clientConnMutex, failureManager`curRecoveryId
      ensures Valid() && failureManager.clientConnMutex == Cluster.ClientThread
              && (success ==> request.message.Replicate?)
      ensures start <= messenger.sent
      ensures ServeOne(messenger.View(), messenger.rank, messenger.clusterSize, before, request) ==
              Served(consensusManager.Fields(),
                     if success then before.acknowledged + [request.message.value] else before.acknowledged,
                     before.taken + 1, messenger.sent[|start|..])
    {
      if !request.message.Disconnect? {
        success := HandleMessage(request.src, request.message, ClientConnection, request.around);
      } else {
        AcceptConnection(request.around.recoveries);
        success := false;
      }
    }

    method SendPort()
      requires Valid()
      modifies this`exchange, messenger`sent
      ensures messenger.sent == old(messenger.sent)
              + PortMail(messenger.View(), messenger.rank, messenger.clusterSize, port)
      ensures exchange == old(exchange) + [Rings.SendPort(messenger.rank)]
    {
      var prevNodeId := if messenger.rank == 0 then messenger.clusterSize - 1 else messenger.rank - 1;
      messenger.Send(prevNodeId, ClientMessage(Port(port)), World);
      exchange := exchange + [Rings.SendPort(messenger.rank)];
    }

    method ReceivePort(received: string)
      modifies this`exchange, this`nextNodePort
      ensures nextNodePort == received && exchange == old(exchange) + [Rings.ReceivePort(messenger.rank)]
    {
      nextNodePort := received;
      exchange := exchange + [Rings.ReceivePort(messenger.rank)];
    }

    /** `received` is the PORT message receivePort blocks for. Node 0 sends before it receives, the others after. */
    method ExchangePorts(received: string)
      requires Valid()
      modifies this`exchange, this`nextNodePort, messenger`sent
      ensures Valid() && nextNodePort == received
      ensures messenger.sent == old(messenger.sent)
              + PortMail(messenger.View(), messenger.rank, messenger.clusterSize, port)
      ensures exchange == old(exchange) + Rings.Order(messenger.rank)
    {
      if messenger.rank == 0 {
        SendPort();
        ReceivePort(received);
      } else {
        ReceivePort(received);
        SendPort();
      }
    }

    /** enableClientConn. */
    method EnableClientConn()
      modifies messenger`publishedPort
      ensures messenger.publishedPort == Some(port)
    {
      messenger.PublishPort(port);
    }

    /** SHUTDOWN goes on to the next node unless that is the leader. */
    method ShutdownNeighbor()
      requires Valid()
      modifies this`handedOn
      ensures handedOn == old(handedOn) +
              if failureManager.electionManager.leaderNodeId != Rings.Next(messenger.rank, messenger.clusterSize)
              then [(nextNodePort, Shutdown)] else []
    {
      Rings.NextIsMod(messenger.rank, messenger.clusterSize);
      if failureManager.electionManager.leaderNodeId != (messenger.rank + 1) % messenger.clusterSize {
        handedOn := handedOn + [(nextNodePort, Shutdown)];
      }
    }
  }

  lemma RecoveryMailNext(rank: int, log: seq<Value>, recoveries: seq<Waiting>, i: nat)
    requires i < |recoveries|
    ensures RecoveryMail(rank, log, recoveries[..i + 1]) == RecoveryMail(rank, log, recoveries[..i])
            + [Envelope(IndexToId(rank, recoveries[i].nodeIndex), FailureMessage(State(recoveries[i].id, log)), World)]
  {
  }

  /** How one more request is served. */
  lemma ServeNext(view: set<int>, rank: int, n: int, m: Member, requests: seq<Request>, k: nat)
    requires n > 0 && k < |requests| && Serve(view, rank, n, m, requests[..k]).taken == k
             && !requests[k].message.Shutdown?
    ensures Serve(view, rank, n, m, requests[..k + 1])
            == ServeOne(view, rank, n, Serve(view, rank, n, m, requests[..k]), requests[k])
  {
    assert requests[..k + 1][..k] == requests[..k];
  }

  /** Nothing after a SHUTDOWN is served. */
  lemma {:induction false} StopsAtShutdown(view: set<int>, rank: int, n: int, m: Member, requests: seq<Request>, k: nat)
    requires n > 0 && k < |requests| && requests[k].message.Shutdown?
             && Serve(view, rank, n, m, requests[..k]).taken == k
    ensures Serve(view, rank, n, m, requests) == Serve(view, rank, n, m, requests[..k])
  {
    if k + 1 < |requests| {
      var before := requests[..|requests| - 1];
      assert before[..k] == requests[..k];
      StopsAtShutdown(view, rank, n, m, before, k);
    } else {
      assert requests[..|requests| - 1] == requests[..k];
    }
  }
}

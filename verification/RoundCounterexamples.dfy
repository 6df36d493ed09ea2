/** Rounds and runs of the consensus manager that break a property without the assumption it is stated under. */
module RoundCounterexamples {
  import opened Messages
  import opened Consensus
  import opened Cluster
  import opened Reaching
  import Choice
  import ConsensusManager
  import Votes

  // ---------------------------------------------------------------------------
  // Two proposers

  function HandledInTurn(m: Member, a: ConsensusMsg, b: ConsensusMsg, c: ConsensusMsg): Member {
    Handle(Handle(Handle(m, a).0, b).0, c).0
  }

  /** Proposer and acceptor share one context. A second proposer whose PROPOSE arrives between the promises and
      broadcastPropose replaces the value: the first round then proposes `other` although the promise it counted reports
      `adopted`. */
  lemma SecondProposerChangesChoice(value: Value, adopted: Value, other: Value, id: int, proposeId: int)
    requires adopted != other && id > 0
    ensures var m := HandledInTurn(ConsensusManager.Started(NEW_MEMBER, id),
                                   Promise(id, Some(Report(0, adopted))), Prepare(id + 1),
                                       Propose(proposeId, id + 1, other));
      && m.context.promiseCount == 1 >= Quorum(3) && m.context.roundId == id
      && ProposedValue(m.context, value) == other
      && Consensus.Choice(value, [Some(Report(0, adopted))]) == adopted
  {
    var reports := [Some(Report(0, adopted))];
    assert reports[..0] == [];
  }

  // ---------------------------------------------------------------------------
  // Parts of runs with one proposer at a time

  /** The channels once p has sent m to everybody it does not suspect. */
  ghost predicate SentToAll(s: System, s': System, p: int, m: ConsensusMsg)
    requires IsNode(s, p)
  {
    forall a, b {:trigger Queue(s'.consensus, a, b)} ::
      Queue(s'.consensus, a, b) ==
        if a == p && IsNode(s, b) && b != p && b in s.nodes[p].alive then Queue(s.consensus, a, b) + [m]
        else Queue(s.consensus, a, b)
  }

  lemma Connects(s: System, p: int) returns (s': System)
    requires Reachable(OneProposer, s) && IsNode(s, p) && s.nodes[p].client.Starting?
    ensures Reachable(OneProposer, s') && s' == s.(nodes := s'.nodes)
    ensures s'.nodes == s.nodes[p := s.nodes[p].(client := Connected, lock := ClientThread)]
  {
    s' := Next(OneProposer, s, Step.Disconnect(p));
    s' := Next(OneProposer, s', Connect(p));
    s' := Next(OneProposer, s', TakeLock(p));
  }

  /** p starts a round and sends PREPARE. */
  lemma Asks(s: System, p: int, value: Value, id: int) returns (s': System)
    requires Reachable(OneProposer, s) && IsNode(s, p) && s.nodes[p].client.Connected?
    requires 0 <= id && id !in s.used && s.nodes[p].lastRoundId < id && s.nodes[p].lastProposeId < id
    ensures Reachable(OneProposer, s') && SentToAll(s, s', p, Prepare(id))
    ensures s'.used == s.used + {id} && s'.proposals == s.proposals
    ensures s'.nodes == s.nodes[p := s.nodes[p].(member := ConsensusManager.Started(s.nodes[p].member, id),
                                                 client := AwaitingPromises(value), lastRoundId := id)]
  {
    s' := Next(OneProposer, s, StartRound(p, value, id));
    s' := SendAll(OneProposer, s', p);
  }

  /** p is about to send what its context makes of `value`. */
  lemma CountsPromises(s: System, p: int, value: Value, id: int) returns (s': System)
    requires Reachable(OneProposer, s) && IsNode(s, p) && s.nodes[p].client == AwaitingPromises(value)
    requires s.nodes[p].member.context.promiseCount >= Quorum(|s.nodes|) && s.nodes[p].lastRoundId < id
    ensures var context := s.nodes[p].member.context; var proposed := ProposedValue(context, value);
      && Reachable(OneProposer, s') && s'
         == s.(nodes := s'.nodes, proposals := s.proposals[context.roundId := proposed])
      && s'.nodes == s.nodes[p := s.nodes[p].(
           client := Broadcasting(value, Propose(id, context.roundId, proposed), 0), lastProposeId := id)]
  {
    s' := Next(OneProposer, s, CountPromises(p));
    s' := Next(OneProposer, s', StartPropose(p, id));
  }

  /** p sends what its context makes of `value`. */
  lemma Proposes(s: System, p: int, value: Value, id: int) returns (s': System)
    requires Reachable(OneProposer, s) && IsNode(s, p) && s.nodes[p].client == AwaitingPromises(value)
    requires s.nodes[p].member.context.promiseCount >= Quorum(|s.nodes|) && s.nodes[p].lastRoundId < id
    ensures var context := s.nodes[p].member.context; var proposed := ProposedValue(context, value);
      && Reachable(OneProposer, s') && SentToAll(s, s', p, Propose(id, context.roundId, proposed))
      && s'.used == s.used && s'.proposals == s.proposals[context.roundId := proposed]
    ensures s'.nodes == s.nodes[p := s.nodes[p].(client := AwaitingAccepts(value), lastProposeId := id)]
  {
    s' := CountsPromises(s, p, value, id);
    s' := SendAll(OneProposer, s', p);
  }

  /** p finds too few ACCEPTs and resets its context. */
  lemma GivesUp(s: System, p: int) returns (s': System)
    requires Reachable(OneProposer, s) && IsNode(s, p) && s.nodes[p].client.AwaitingAccepts?
    requires s.nodes[p].member.context.acceptCount < Quorum(|s.nodes|)
    ensures Reachable(OneProposer, s') && s' == s.(nodes := s'.nodes)
    ensures s'.nodes == s.nodes[p := s.nodes[p].(member := s.nodes[p].member.(context := FRESH), client := Connected,
                                                 heard := [], votes := [])]
  {
    s' := Next(OneProposer, s, CountAccepts(p));
    s' := Next(OneProposer, s', Step.Reset(p));
  }

  /** q handles the only message of p on its channel. */
  lemma Hands(s: System, p: int, q: int, m: ConsensusMsg) returns (s': System)
    requires Reachable(OneProposer, s) && IsNode(s, p) && IsNode(s, q) && p != q
    requires p in s.nodes[q].alive && q in s.nodes[p].alive
    requires Queue(s.consensus, p, q) == [m] && (InRound(s.nodes[q].client) ==> m.Promise? || m.Accept?)
    ensures var (node, reply) := Receive(s.nodes[q], p, m);
      && Reachable(OneProposer, s') && s' == s.(nodes := s.nodes[q := node], consensus := s'.consensus)
      && forall a, b {:trigger Queue(s'.consensus, a, b)} ::
           Queue(s'.consensus, a, b) ==
             if a == p && b == q then []
             else if a == q && b == p && reply.Some? then Queue(s.consensus, a, b) + [reply.value]
             else Queue(s.consensus, a, b)
  {
    s' := Next(OneProposer, s, DeliverConsensus(p, q));
    DeliveryEffect(s, p, q);
  }

  /** q handles the message of p, and p the answer. */
  lemma Exchange(s: System, p: int, q: int, m: ConsensusMsg) returns (s': System)
    requires Reachable(OneProposer, s) && IsNode(s, p) && IsNode(s, q) && p != q
    requires p in s.nodes[q].alive && q in s.nodes[p].alive && !InRound(s.nodes[q].client)
    requires Queue(s.consensus, p, q) == [m] && Queue(s.consensus, q, p) == [] && (m.Prepare? || m.Propose?)
    requires Receive(s.nodes[q], p, m).1.Some?
    ensures var (node, reply) := Receive(s.nodes[q], p, m);
      var node' := Receive(s.nodes[p], q, reply.value).0;
      && Reachable(OneProposer, s') && s' == s.(nodes := s.nodes[q := node][p := node'], consensus := s'.consensus)
      && forall a, b {:trigger Queue(s'.consensus, a, b)} ::
           Queue(s'.consensus, a, b) ==
             if (a == p && b == q) || (a == q && b == p) then [] else Queue(s.consensus, a, b)
  {
    s' := Hands(s, p, q, m);
    s' := Hands(s', q, p, Receive(s.nodes[q], p, m).1.value);
  }

  // ---------------------------------------------------------------------------
  // An ACCEPT of an earlier round

  /** Nodes 0 and 1 of three, with nothing but `back` between them. */
  ghost predicate Two(s: System, a: Node, b: Node, back: seq<ConsensusMsg>) {
    && |s.nodes| == 3 && s.nodes[0] == a && s.nodes[1] == b && s.nodes[2].events == []
    && Queue(s.consensus, 0, 1) == [] && Queue(s.consensus, 1, 0) == back
  }

  function Start(p: int): Node {
    InitialNode(3, p).(leaderId := 0)
  }

  function Ready(): Node {
    Start(0).(client := Connected)
  }

  /** Node 1 has promised round 1 and accepted `other` in it. */
  function Acceptor(other: Value): Node {
    Start(1).(member := NEW_MEMBER.(maxRoundId := 1,
                                    context := FRESH.(valueAccepted := true, acceptedId := 1, acceptedValue := other)),
              events := [Promised(1), Voted(1, other)])
  }

  lemma ReadyAtStart() returns (s: System)
    ensures Reachable(OneProposer, s) && Two(s, Ready(), Start(1), []) && s.used == {}
  {
    s := Fresh(OneProposer, 3);
    s := Connects(s, 0);
  }

  lemma FirstRoundAsked(other: Value) returns (s: System)
    ensures Reachable(OneProposer, s) && s.used == {1}
    ensures Two(s, Ready().(member := NEW_MEMBER.(context := FRESH.(roundId := 1, promiseCount := 1)),
                            client := AwaitingPromises(other), lastRoundId := 1, heard := [Heard(1, None)]),
                Start(1).(member := NEW_MEMBER.(maxRoundId := 1), events := [Promised(1)]), [])
  {
    s := ReadyAtStart();
    assert 1 in Start(0).alive && 0 in Start(1).alive;
    s := Asks(s, 0, other, 1);
    s := Exchange(s, 0, 1, Prepare(1));
  }

  lemma FirstRoundAccepted(other: Value) returns (s: System)
    ensures Reachable(OneProposer, s) && s.used == {1}
    ensures Two(s, Ready().(member := NEW_MEMBER.(context := FRESH.(roundId := 1, promiseCount := 1)),
                            client := AwaitingAccepts(other), lastRoundId := 1, lastProposeId := 2,
                            heard := [Heard(1, None)]),
                Acceptor(other), [Accept(2)])
  {
    s := FirstRoundAsked(other);
    assert 1 in Start(0).alive && 0 in Start(1).alive;
    s := Proposes(s, 0, other, 2);
    s := Hands(s, 0, 1, Propose(2, 1, other));
  }

  /** The ACCEPT of round 1 is still on its way when node 0 gives up. */
  lemma FirstRoundFails(other: Value) returns (s: System)
    ensures Reachable(OneProposer, s) && s.used == {1}
    ensures Two(s, Ready().(lastRoundId := 1, lastProposeId := 2), Acceptor(other), [Accept(2)])
  {
    s := FirstRoundAccepted(other);
    s := GivesUp(s, 0);
  }

  /** It is handled before the next round starts. */
  lemma StaleHandled(other: Value) returns (s: System)
    ensures Reachable(OneProposer, s) && s.used == {1}
    ensures Two(s, Ready().(member := NEW_MEMBER.(context := FRESH.(acceptCount := 1)),
                            lastRoundId := 1, lastProposeId := 2, votes := [Vote(1, 2)]),
                Acceptor(other), [])
  {
    s := FirstRoundFails(other);
    assert 1 in Start(0).alive && 0 in Start(1).alive;
    s := Hands(s, 1, 0, Accept(2));
  }

  /** Node 0 in round 3, whose PREPARE keeps the count. */
  function Again(value: Value): Node {
    Ready().(member := NEW_MEMBER.(context := FRESH.(roundId := 3, acceptCount := 1)), client :=
             AwaitingPromises(value),
             lastRoundId := 3, lastProposeId := 2, votes := [Vote(1, 2)])
  }

  lemma AsksAgain(value: Value, other: Value) returns (s: System)
    ensures Reachable(OneProposer, s) && Queue(s.consensus, 0, 1) == [Prepare(3)]
    ensures Two(s.(consensus := map[]), Again(value), Acceptor(other), []) && Queue(s.consensus, 1, 0) == []
  {
    s := StaleHandled(other);
    assert 1 in Start(0).alive && 0 in Start(1).alive;
    s := Asks(s, 0, value, 3);
  }

  /** Node 0 once node 1 has reported `other`. */
  function Told(value: Value, other: Value): Node {
    Again(value).(member := NEW_MEMBER.(context := FRESH.(roundId := 3, promiseCount := 1, acceptCount := 1,
                                                          maxAcceptedId := 1, acceptedValue := other)),
                  heard := [Heard(1, Some(Report(1, other)))])
  }

  lemma PromisedAgain(value: Value, other: Value) returns (s: System)
    ensures Reachable(OneProposer, s)
    ensures Two(s, Told(value, other), Acceptor(other).(member := Acceptor(other).member.(maxRoundId := 3),
                                                       events := [Promised(1), Voted(1, other), Promised(3)]), [])
  {
    s := AsksAgain(value, other);
    assert 1 in Start(0).alive && 0 in Start(1).alive;
    s := Exchange(s, 0, 1, Prepare(3));
  }

  lemma QuorumCounted(value: Value, other: Value) returns (s: System)
    ensures Reachable(OneProposer, s) && |s.nodes| == 3
    ensures s.nodes[0] == Told(value, other).(client := Committing(value), lastProposeId := 4)
    ensures s.nodes[1].events == [Promised(1), Voted(1, other), Promised(3)] && s.nodes[2].events == []
  {
    s := PromisedAgain(value, other);
    s := Proposes(s, 0, value, 4);
    s := Next(OneProposer, s, CountAccepts(0));
  }

  /** A run of three nodes, with unique increasing ids and one proposer, that logs a value in a round nobody has
      accepted: handleAcceptMessage counts an ACCEPT of an earlier round. */
  lemma StaleAcceptCommits(value: Value, other: Value) returns (s: System)
    ensures Reachable(OneProposer, s) && |s.nodes| == 3
    ensures s.nodes[0].client == Announcing(value) && s.nodes[0].member.log == [value]
    ensures s.nodes[0].lastRoundId == s.nodes[0].member.context.roundId == 3
    ensures forall a, v :: IsNode(s, a) ==> Voted(3, v) !in s.nodes[a].events
    ensures Votes.Acceptors(s.nodes[0]) == {} && s.nodes[0].member.context.acceptCount == 1 >= Quorum(3)
  {
    s := QuorumCounted(value, other);
    s := Next(OneProposer, s, Append(0));
  }

  // ---------------------------------------------------------------------------
  // A proposer that adopts a value

  /** p may ask q: nothing is on the channels between them, they trust each other, and q has accepted nothing. */
  ghost predicate MayAsk(s: System, p: int, q: int, id: int) {
    && IsNode(s, p) && IsNode(s, q) && p != q
    && q in s.nodes[p].alive && p in s.nodes[q].alive
    && Queue(s.consensus, p, q) == [] && Queue(s.consensus, q, p) == []
    && !InRound(s.nodes[q].client) && s.nodes[q].member.maxRoundId < id
  }

  /** Channels that are not p's are as they were. */
  ghost predicate OthersChannels(s: System, s': System, p: int) {
    forall a, b {:trigger Queue(s'.consensus, a, b)} :: a != p && b != p ==>
      Queue(s'.consensus, a, b) == Queue(s.consensus, a, b)
  }

  /** What p does with q and u leaves alone. */
  ghost predicate Among(s: System, s': System, p: int, q: int, u: int) {
    && |s'.nodes| == |s.nodes| && IsNode(s, p) && IsNode(s, q) && IsNode(s, u)
    && (forall x {:trigger s'.nodes[x]} :: IsNode(s, x) && x != p && x != q && x != u ==> s'.nodes[x] == s.nodes[x])
    && (forall x {:trigger s'.nodes[x]} :: IsNode(s, x) ==> s'.nodes[x].alive == s.nodes[x].alive)
    && (forall x {:trigger s'.nodes[x]} :: x == q || x == u ==>
          s'.nodes[x].client == s.nodes[x].client
          && s'.nodes[x].lastRoundId == s.nodes[x].lastRoundId
          && s'.nodes[x].lastProposeId == s.nodes[x].lastProposeId)
    && OthersChannels(s, s', p)
  }

  /** q, which has accepted nothing, promises, and p counts the promise. */
  lemma Promises(s: System, p: int, q: int, id: int) returns (s': System)
    requires Reachable(OneProposer, s) && IsNode(s, p) && IsNode(s, q) && p != q
    requires p in s.nodes[q].alive && q in s.nodes[p].alive && !InRound(s.nodes[q].client)
    requires Queue(s.consensus, p, q) == [Prepare(id)] && Queue(s.consensus, q, p) == []
    requires s.nodes[q].member.maxRoundId < id && s.nodes[q].member.context == FRESH
    requires s.nodes[p].member.context == FRESH.(roundId := id, promiseCount := s.nodes[p].member.context.promiseCount)
    ensures Reachable(OneProposer, s') && s' == s.(nodes := s'.nodes, consensus := s'.consensus)
    ensures |s'.nodes| == |s.nodes|
    ensures forall x {:trigger s'.nodes[x]} :: IsNode(s, x) && x != p && x != q ==> s'.nodes[x] == s.nodes[x]
    ensures s'.nodes[q] == s.nodes[q].(member := s.nodes[q].member.(maxRoundId := id), events := s'.nodes[q].events)
    ensures var context := s.nodes[p].member.context;
      s'.nodes[p] == s.nodes[p].(heard := s'.nodes[p].heard,
        member := s.nodes[p].member.(context := context.(promiseCount := context.promiseCount + 1)))
    ensures Queue(s'.consensus, p, q) == [] == Queue(s'.consensus, q, p)
    ensures forall u :: u != q && u != p ==>
      Queue(s'.consensus, p, u) == Queue(s.consensus, p, u) && Queue(s'.consensus, u, p) == Queue(s.consensus, u, p)
    ensures OthersChannels(s, s', p)
  {
    s' := Exchange(s, p, q, Prepare(id));
  }

  lemma AsksBoth(s: System, p: int, q: int, u: int, value: Value, id: int) returns (s': System)
    requires Reachable(OneProposer, s) && MayAsk(s, p, q, id) && MayAsk(s, p, u, id) && q != u
    requires s.nodes[p].client.Connected?
    requires 0 <= id && id !in s.used && s.nodes[p].lastRoundId < id && s.nodes[p].lastProposeId < id
    ensures Reachable(OneProposer, s') && s'.used == s.used + {id} && s'.proposals == s.proposals
    ensures s'.nodes == s.nodes[p := s.nodes[p].(member := ConsensusManager.Started(s.nodes[p].member, id),
                                                 client := AwaitingPromises(value), lastRoundId := id)]
    ensures Queue(s'.consensus, p, q) == [Prepare(id)] == Queue(s'.consensus, p, u)
    ensures Queue(s'.consensus, q, p) == [] == Queue(s'.consensus, u, p)
    ensures OthersChannels(s, s', p)
  {
    s' := Asks(s, p, value, id);
  }

  /** p asks, and q and u promise. */
  lemma AskedTwice(s: System, p: int, q: int, u: int, value: Value, id: int) returns (s': System)
    requires Reachable(OneProposer, s) && MayAsk(s, p, q, id) && MayAsk(s, p, u, id) && q != u
    requires s.nodes[p].client.Connected? && s.nodes[p].member.context == FRESH
    requires s.nodes[q].member.context == s.nodes[u].member.context == FRESH
    requires 0 <= id && id !in s.used && s.nodes[p].lastRoundId < id && s.nodes[p].lastProposeId < id
    ensures Reachable(OneProposer, s') && Among(s, s', p, q, u)
    ensures s'.used == s.used + {id} && s'.proposals == s.proposals
    ensures s'.nodes[q].member == s.nodes[q].member.(maxRoundId := id)
    ensures s'.nodes[u].member == s.nodes[u].member.(maxRoundId := id)
    ensures s'.nodes[p].member.context == FRESH.(roundId := id, promiseCount := 2)
    ensures s'.nodes[p].client == AwaitingPromises(value) && s'.nodes[p].lastRoundId == id
    ensures Queue(s'.consensus, p, q) == [] && Queue(s'.consensus, q, p) == []
  {
    var s1 := AsksBoth(s, p, q, u, value, id);
    assert s1.nodes[q] == s.nodes[q] && s1.nodes[u] == s.nodes[u];
    var s2 := Promises(s1, p, q, id);
    assert s2.nodes[u] == s.nodes[u] && s2.nodes[q].client == s.nodes[q].client;
    assert Queue(s2.consensus, p, u) == [Prepare(id)] && Queue(s2.consensus, u, p) == [];
    s' := Promises(s2, p, u, id);
    assert s'.nodes[q] == s2.nodes[q];
  }

  /** p proposes, and q accepts. */
  lemma ProposesTo(s: System, p: int, q: int, u: int, value: Value, id: int) returns (s': System)
    requires Reachable(OneProposer, s) && IsNode(s, p) && IsNode(s, q) && IsNode(s, u) && p != q && p != u
             && |s.nodes| == 5
    requires q in s.nodes[p].alive && p in s.nodes[q].alive && !InRound(s.nodes[q].client)
    requires Queue(s.consensus, p, q) == [] && Queue(s.consensus, q, p) == []
    requires s.nodes[p].member.context == FRESH.(roundId := id, promiseCount := 2)
    requires s.nodes[p].client == AwaitingPromises(value) && s.nodes[p].lastRoundId == id
    requires s.nodes[q].member.maxRoundId == id && s.nodes[q].member.context == FRESH
    ensures Reachable(OneProposer, s') && Among(s, s', p, q, u)
    ensures s'.used == s.used && s'.proposals == s.proposals[id := value]
    ensures s'.nodes[q].member == s.nodes[q].member.(
              context := FRESH.(valueAccepted := true, acceptedId := id, acceptedValue := value))
    ensures q != u ==> s'.nodes[u] == s.nodes[u]
  {
    s' := Proposes(s, p, value, id + 1);
    s' := Hands(s', p, q, Propose(id + 1, id, value));
  }

  /** Of five nodes q accepts what p proposes, with the promise of u. */
  lemma Accepts(s: System, p: int, q: int, u: int, value: Value, id: int) returns (s': System)
    requires Reachable(OneProposer, s) && MayAsk(s, p, q, id) && MayAsk(s, p, u, id) && q != u && |s.nodes| == 5
    requires s.nodes[p].client.Connected? && s.nodes[p].member.context == FRESH
    requires s.nodes[q].member.context == s.nodes[u].member.context == FRESH
    requires 0 <= id && id !in s.used && s.nodes[p].lastRoundId < id && s.nodes[p].lastProposeId < id
    ensures Reachable(OneProposer, s') && Among(s, s', p, q, u)
    ensures s'.used == s.used + {id} && s'.proposals == s.proposals[id := value]
    ensures s'.nodes[q].member == s.nodes[q].member.(maxRoundId := id,
              context := FRESH.(valueAccepted := true, acceptedId := id, acceptedValue := value))
    ensures s'.nodes[u].member == s.nodes[u].member.(maxRoundId := id)
  {
    s' := AskedTwice(s, p, q, u, value, id);
    s' := ProposesTo(s', p, q, u, value, id);
  }

  /** Nobody has done anything yet but connect clients. */
  ghost predicate Untouched(s: System) {
    && |s.nodes| == 5 && s.consensus == map[] && s.used == {} && s.proposals == map[]
    && forall x {:trigger s.nodes[x]} :: IsNode(s, x) ==>
         && s.nodes[x].member == NEW_MEMBER && s.nodes[x].lastRoundId == s.nodes[x].lastProposeId == -1
         && s.nodes[x].alive == Nodes(5) - {x} && (s.nodes[x].client.Starting? || s.nodes[x].client.Connected?)
  }

  lemma ConnectsUntouched(s: System, p: int) returns (s': System)
    requires Reachable(OneProposer, s) && Untouched(s) && IsNode(s, p) && s.nodes[p].client.Starting?
    ensures Reachable(OneProposer, s') && Untouched(s') && s'.nodes[p].client.Connected?
    ensures forall x {:trigger s'.nodes[x]} :: IsNode(s, x) && x != p ==> s'.nodes[x] == s.nodes[x]
  {
    s' := Connects(s, p);
  }

  lemma OneConnected() returns (s: System)
    ensures Reachable(OneProposer, s) && Untouched(s) && s.nodes[0].client.Connected?
    ensures forall x {:trigger s.nodes[x]} :: 0 < x < 5 ==> s.nodes[x].client.Starting?
  {
    s := Fresh(OneProposer, 5);
    s := ConnectsUntouched(s, 0);
  }

  lemma TwoConnected() returns (s: System)
    ensures Reachable(OneProposer, s) && Untouched(s) && s.nodes[2].client.Starting? && s.nodes[4].client.Starting?
    ensures s.nodes[0].client.Connected? && s.nodes[1].client.Connected?
  {
    s := OneConnected();
    s := ConnectsUntouched(s, 1);
  }

  lemma FourConnected() returns (s: System)
    ensures Reachable(OneProposer, s) && Untouched(s)
    ensures forall x {:trigger s.nodes[x]} :: x == 0 || x == 1 || x == 2 || x == 4 ==> s.nodes[x].client.Connected?
  {
    s := TwoConnected();
    s := ConnectsUntouched(s, 2);
    s := ConnectsUntouched(s, 4);
  }

  /** Node 0 has accepted what round 1 proposed. */
  lemma OneAcceptance(own: Value) returns (s: System)
    ensures Reachable(OneProposer, s) && |s.nodes| == 5 && s.used == {1} && s.proposals == map[1 := own]
    ensures MayAsk(s, 2, 3, 4) && MayAsk(s, 2, 4, 4) && MayAsk(s, 0, 3, 10) && MayAsk(s, 4, 0, 20)
    ensures forall x {:trigger s.nodes[x]} :: x == 0 || x == 2 || x == 4 ==>
      s.nodes[x].client.Connected? && s.nodes[x].lastRoundId == s.nodes[x].lastProposeId == -1
    ensures s.nodes[0].member == NEW_MEMBER.(maxRoundId := 1,
              context := FRESH.(valueAccepted := true, acceptedId := 1, acceptedValue := own))
    ensures s.nodes[2].member == s.nodes[3].member == NEW_MEMBER && s.nodes[4].member == NEW_MEMBER.(maxRoundId := 1)
  {
    var s0 := FourConnected();
    s := Accepts(s0, 1, 0, 4, own, 1);
    assert s.nodes[2] == s0.nodes[2] && s.nodes[3] == s0.nodes[3] && s.nodes[4].alive == s0.nodes[4].alive;
  }

  /** Node 0 has accepted what round 1 proposed, and node 3 what round 4 did. */
  lemma TwoAcceptances(own: Value, reported: Value) returns (s: System)
    ensures Reachable(OneProposer, s) && |s.nodes| == 5 && s.used == {1, 4}
            && s.proposals == map[1 := own, 4 := reported]
    ensures MayAsk(s, 0, 3, 10) && MayAsk(s, 4, 0, 20) && 4 in s.nodes[0].alive
    ensures s.nodes[0].client.Connected? && s.nodes[4].client.Connected?
    ensures forall x {:trigger s.nodes[x]} :: x == 0 || x == 4 ==>
            s.nodes[x].lastRoundId == s.nodes[x].lastProposeId == -1
    ensures s.nodes[0].member == NEW_MEMBER.(maxRoundId := 1,
              context := FRESH.(valueAccepted := true, acceptedId := 1, acceptedValue := own))
    ensures s.nodes[3].member == NEW_MEMBER.(maxRoundId := 4,
              context := FRESH.(valueAccepted := true, acceptedId := 4, acceptedValue := reported))
  {
    var s1 := OneAcceptance(own);
    s := Accepts(s1, 2, 3, 4, reported, 4);
    assert s.nodes[0] == s1.nodes[0];
  }

  /** A run of five nodes, with unique increasing ids and one proposer at a time, after which node 0 holds, under the
      id of round 1 that proposed `own` and that it accepted, the value `reported` that node 3 accepted in round 4:
      node 0 counted node 3's promise in a round of its own. If a PREPARE of another node reaches it in that round, it
      puts a promise on the channel that reports the pair nobody proposed. */
  lemma AdoptionOverwritesAcceptance(own: Value, reported: Value, value: Value) returns (s: System)
    ensures Reachable(OneProposer, s) && |s.nodes| == 5
    ensures var context := s.nodes[0].member.context;
      && context.valueAccepted && context.acceptedId == 1 && 1 in s.proposals && s.proposals[1] == own
      && context.acceptedValue == reported && context.maxAcceptedId == 4
    ensures Enabled(s, DeliverConsensus(4, 0))
    ensures Promise(20, Some(Report(1, reported))) in Queue(Apply(s, DeliverConsensus(4, 0)).consensus, 0, 4)
  {
    var s0 := TwoAcceptances(own, reported);
    var s1 := Asks(s0, 4, value, 20);
    s := Asks(s1, 0, value, 10);
    s := Exchange(s, 0, 3, Prepare(10));
  }
}

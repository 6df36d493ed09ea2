/** The replicated-log server as a step system: any number of nodes running the consensus, failure
    and client managers over FIFO channels, one channel per tag and ordered pair of nodes.

    A step is one receive handler, one section of a thread between two waits, or one send of a
    broadcast loop. A crashed node is one that takes no steps. Fields under "history" are never
    read by a step; they record what happened, for stating properties. */
module Cluster {
  import opened Messages
  import opened Consensus

  /** Who holds clientConnMutex. */
  datatype Owner = Free | ClientThread | RecoveryThread(thread: nat)

  /** Where a handleNodeRecovery thread is. */
  datatype Phase = Spawned | Published | Locked | Sent | Closed

  datatype Recovery = Recovery(id: int, target: int, phase: Phase)

  /** Where the client thread is, down to the waits and broadcast loops of startConsensus. */
  datatype ClientPc =
    | Starting
    | Accepting
    | Locking
    | Connected
    | Broadcasting(value: Value, message: ConsensusMsg, next: int)
    | AwaitingPromises(value: Value)
    | Proposing(value: Value)
    | AwaitingAccepts(value: Value)
    | Committing(value: Value)
    | Announcing(value: Value)
    | Writing(value: Value, reached: bool)
    | Replying(value: Value)

  /** startConsensus is running. */
  predicate InRound(pc: ClientPc) {
    !(pc.Starting? || pc.Accepting? || pc.Locking? || pc.Connected? || pc.Replying?)
  }

  /** startConsensus broadcasts nothing else. */
  predicate Broadcasts(pc: ClientPc) {
    pc.Broadcasting? ==> pc.message.Prepare? || pc.message.Propose? || pc.message.Accepted?
  }

  /** The client thread is between disallowRecovery and allowRecovery. */
  predicate HoldsLock(pc: ClientPc) {
    !(pc.Accepting? || pc.Locking?)
  }

  datatype Event = Promised(roundId: int) | Voted(roundId: int, value: Value)

  datatype Heard = Heard(src: int, report: Option<Report>)

  /** An ACCEPT that was handled: its sender, and the id of the PROPOSE it answers. */
  datatype Vote = Vote(src: int, proposeId: int)

  datatype Node = Node(
    member: Member,
    alive: set<int>,
    leaderId: int,
    client: ClientPc,
    lock: Owner,
    curRecoveryId: int,
    recoveries: map<nat, Recovery>,
    // history: the ids of its last PREPARE and PROPOSE, what its context has counted since it was
    // last reset, everything it ever promised or accepted, and the values it acknowledged to clients
    lastRoundId: int,
    lastProposeId: int,
    heard: seq<Heard>,
    votes: seq<Vote>,
    events: seq<Event>,
    acks: seq<Value>)

  datatype Link = Link(src: int, dst: int)

  datatype System = System(
    nodes: seq<Node>,
    consensus: map<Link, seq<ConsensusMsg>>,
    failure: map<Link, seq<FailureMsg>>,
    // history: values given to startConsensus, the value each round proposed, the round ids given
    submitted: set<Value>,
    proposals: map<int, Value>,
    used: set<int>)

  // ---------------------------------------------------------------------------
  // Channels

  function Queue<M>(net: map<Link, seq<M>>, src: int, dst: int): seq<M> {
    if Link(src, dst) in net then net[Link(src, dst)] else []
  }

  function Enqueue<M>(net: map<Link, seq<M>>, src: int, dst: int, message: M): (net': map<Link, seq<M>>)
    ensures forall a, b {:trigger Queue(net', a, b)} ::
      Queue(net', a, b) == if a == src && b == dst then Queue(net, a, b) + [message] else Queue(net, a, b)
  {
    net[Link(src, dst) := Queue(net, src, dst) + [message]]
  }

  function Dequeue<M>(net: map<Link, seq<M>>, src: int, dst: int): (net': map<Link, seq<M>>)
    requires Queue(net, src, dst) != []
    ensures forall a, b {:trigger Queue(net', a, b)} ::
      Queue(net', a, b) == if a == src && b == dst then Queue(net, a, b)[1..] else Queue(net, a, b)
  {
    net[Link(src, dst) := Queue(net, src, dst)[1..]]
  }

  /** A broadcast the liveness vector does not filter. */
  function EnqueueAll<M>(net: map<Link, seq<M>>, src: int, n: int, message: M): (net': map<Link, seq<M>>)
    ensures forall a, b {:trigger Queue(net', a, b)} ::
      Queue(net', a, b) ==
        if a == src && 0 <= b < n && b != src then Queue(net, a, b) + [message] else Queue(net, a, b)
    decreases n
  {
    if n <= 0 then net
    else
      var fewer := EnqueueAll(net, src, n - 1, message);
      if n - 1 == src then fewer else Enqueue(fewer, src, n - 1, message)
  }

  // ---------------------------------------------------------------------------
  // Steps

  datatype Step =
    // the client thread of p
    | Disconnect(p: int)
    | Connect(p: int)
    | TakeLock(p: int)
    | StartRound(p: int, value: Value, id: int)
    | SendNext(p: int)
    | CountPromises(p: int)
    | StartPropose(p: int, id: int)
    | CountAccepts(p: int)
    | Append(p: int)
    | Announce(p: int)
    | Reset(p: int)
    | Reply(p: int)
    // the consensus and failure threads of dst
    | DeliverConsensus(src: int, dst: int)
    | DeliverFailure(src: int, dst: int)
    // the threads checkTimeStamps starts at p
    | Suspect(p: int, other: int)
    | Spawn(p: int, other: int, thread: nat, id: int)
    | Publish(p: int, thread: nat)
    | LockWindow(p: int, thread: nat)
    | Transfer(p: int, thread: nat)
    | CloseWindow(p: int, thread: nat)
    // the election manager of p
    | Elect(p: int, leader: int)

  predicate IsNode(s: System, p: int) {
    0 <= p < |s.nodes|
  }

  predicate ThreadAt(s: System, p: int, thread: nat, phase: Phase) {
    IsNode(s, p) && thread in s.nodes[p].recoveries && s.nodes[p].recoveries[thread].phase == phase
  }

  /** The node whose code a step runs. */
  function Actor(step: Step): int {
    if step.DeliverConsensus? || step.DeliverFailure? then step.dst else step.p
  }

  predicate Enabled(s: System, step: Step) {
    && IsNode(s, Actor(step))
    && var node := s.nodes[Actor(step)];
    match step
    case Disconnect(p) => node.client.Starting? || node.client.Connected?
    case Connect(p) => node.client.Accepting?
    case TakeLock(p) => node.client.Locking? && node.lock == Free
    case StartRound(p, value, id) => node.client.Connected? && id >= 0
    case SendNext(p) => node.client.Broadcasting?
    case CountPromises(p) => node.client.AwaitingPromises?
    case StartPropose(p, id) => node.client.Proposing?
    case CountAccepts(p) => node.client.AwaitingAccepts?
    case Append(p) => node.client.Committing?
    case Announce(p) => node.client.Announcing?
    case Reset(p) => node.client.Writing?
    case Reply(p) => node.client.Replying?
    case DeliverConsensus(src, dst) => IsNode(s, src) && Queue(s.consensus, src, dst) != []
    case DeliverFailure(src, dst) => IsNode(s, src) && Queue(s.failure, src, dst) != []
    case Suspect(p, other) => IsNode(s, other) && other != p
    case Spawn(p, other, thread, id) =>
      && IsNode(s, other) && other != p && other !in node.alive
      && node.curRecoveryId == -1 && node.leaderId == p
      && thread !in node.recoveries && id >= 0
    case Publish(p, thread) => ThreadAt(s, p, thread, Spawned)
    case LockWindow(p, thread) => ThreadAt(s, p, thread, Published) && node.lock == Free
    case Transfer(p, thread) => ThreadAt(s, p, thread, Locked)
    case CloseWindow(p, thread) => ThreadAt(s, p, thread, Sent)
    case Elect(p, leader) => true
  }

  function Put(s: System, p: int, node: Node): System
    requires IsNode(s, p)
  {
    s.(nodes := s.nodes[p := node])
  }

  /** Messenger::send of a consensus message: filtered by the sender's liveness vector. */
  function Send(s: System, src: int, dst: int, message: ConsensusMsg): System
    requires IsNode(s, src)
  {
    if dst in s.nodes[src].alive then s.(consensus := Enqueue(s.consensus, src, dst, message)) else s
  }

  /** What follows a finished broadcast loop. */
  function AfterBroadcast(value: Value, message: ConsensusMsg): ClientPc {
    match message
    case Prepare(_) => AwaitingPromises(value)
    case Propose(_, _, _) => AwaitingAccepts(value)
    case _ => Writing(value, true)
  }

  /** A consensus message handled, with the history it leaves. */
  function Receive(node: Node, src: int, message: ConsensusMsg): (Node, Option<ConsensusMsg>) {
    var (member, reply) := Handle(node.member, message);
    var node' := node.(member := member);
    match message
    case Prepare(id) =>
      (if reply.Some? then node'.(events := node.events + [Promised(id)]) else node', reply)
    case Promise(roundId, report) =>
      (if roundId == node.member.context.roundId then node'.(heard := node.heard + [Heard(src, report)]) else node',
       reply)
    case Propose(_, roundId, value) =>
      (if reply.Some? then node'.(events := node.events + [Voted(roundId, value)]) else node', reply)
    case Accept(proposeId) => (node'.(votes := node.votes + [Vote(src, proposeId)]), reply)
    case Accepted(_, _) => (node'.(heard := [], votes := []), reply)
  }

  function HandleConsensus(s: System, src: int, dst: int): System
    requires IsNode(s, src) && IsNode(s, dst) && Queue(s.consensus, src, dst) != []
  {
    var message := Queue(s.consensus, src, dst)[0];
    var s1 := s.(consensus := Dequeue(s.consensus, src, dst));
    if src in s.nodes[dst].alive then
      var (node, reply) := Receive(s.nodes[dst], src, message);
      var s2 := Put(s1, dst, node);
      if reply.Some? then Send(s2, dst, src, reply.value) else s2
    else s1
  }

  /** The receiver of a failure message afterwards. */
  function FailureReceived(node: Node, src: int, dst: int, message: FailureMsg): Node {
    match message
    case Ping => node
    case State(_, log) => node.(member := node.member.(log := log))
    case StateUpdated(recoveryId) => if Honours(node, dst, recoveryId) then node.(alive := node.alive + {src}) else node
    case Recovered(other) => if other == dst then node else node.(alive := node.alive + {other})
  }

  /** STATE_UPDATED answers the current recovery of a leader. */
  predicate Honours(node: Node, p: int, recoveryId: int) {
    node.curRecoveryId == recoveryId && node.leaderId == p
  }

  /** The failure channels once the receiver has answered or announced. */
  function FailureSent(net: map<Link, seq<FailureMsg>>, node: Node, src: int, dst: int, n: int,
                       message: FailureMsg): map<Link, seq<FailureMsg>>
  {
    match message
    case State(id, _) => Enqueue(net, dst, src, StateUpdated(id))
    case StateUpdated(recoveryId) =>
      if Honours(node, dst, recoveryId) then EnqueueAll(net, dst, n, Recovered(src)) else net
    case _ => net
  }

  function HandleFailure(s: System, src: int, dst: int): System
    requires IsNode(s, src) && IsNode(s, dst) && Queue(s.failure, src, dst) != []
  {
    var node, message := s.nodes[dst], Queue(s.failure, src, dst)[0];
    Put(s, dst, FailureReceived(node, src, dst, message))
    .(failure := FailureSent(Dequeue(s.failure, src, dst), node, src, dst, |s.nodes|, message))
  }

  function SetPhase(node: Node, thread: nat, phase: Phase): Node
    requires thread in node.recoveries
  {
    node.(recoveries := node.recoveries[thread := node.recoveries[thread].(phase := phase)])
  }

  /** The next iteration of the broadcast loop p is in. */
  function SendOne(s: System, p: int): System
    requires IsNode(s, p) && s.nodes[p].client.Broadcasting?
  {
    var node, pc := s.nodes[p], s.nodes[p].client;
    if pc.next < |s.nodes| then
      var s1 := Put(s, p, node.(client := pc.(next := pc.next + 1)));
      if pc.next != p then Send(s1, p, pc.next, pc.message) else s1
    else Put(s, p, node.(client := AfterBroadcast(pc.value, pc.message)))
  }

  function SendState(s: System, p: int, thread: nat): System
    requires ThreadAt(s, p, thread, Locked)
  {
    var node, recovery := s.nodes[p], s.nodes[p].recoveries[thread];
    Put(s, p, SetPhase(node, thread, Sent))
    .(failure := Enqueue(s.failure, p, recovery.target, State(recovery.id, node.member.log)))
  }

  function Apply(s: System, step: Step): System
    requires Enabled(s, step)
  {
    var node := s.nodes[Actor(step)];
    var context := node.member.context;
    match step
    case Disconnect(p) => Put(s, p, node.(client := Accepting, lock := Free))
    case Connect(p) => Put(s, p, node.(client := Locking))
    case TakeLock(p) => Put(s, p, node.(client := Connected, lock := ClientThread))
    case StartRound(p, value, id) =>
      Put(s, p, node.(member := node.member.(context := context.(roundId := id)),
                      client := Broadcasting(value, Prepare(id), 0),
                      lastRoundId := id))
      .(submitted := s.submitted + {value}, used := s.used + {id})
    case SendNext(p) => SendOne(s, p)
    case CountPromises(p) =>
      Put(s, p, node.(client := if context.promiseCount >= Quorum(|s.nodes|) then Proposing(node.client.value)
                                else Writing(node.client.value, false)))
    case StartPropose(p, id) =>
      var value := ProposedValue(context, node.client.value);
      Put(s, p, node.(client := Broadcasting(node.client.value, Propose(id, context.roundId, value), 0),
                      lastProposeId := id))
      .(proposals := s.proposals[context.roundId := value])
    case CountAccepts(p) =>
      Put(s, p, node.(client := if context.acceptCount >= Quorum(|s.nodes|) then Committing(node.client.value)
                                else Writing(node.client.value, false)))
    case Append(p) =>
      Put(s, p, node.(member := node.member.(log := node.member.log + [node.client.value]),
                      client := Announcing(node.client.value)))
    case Announce(p) =>
      Put(s, p, node.(client := Broadcasting(node.client.value, Accepted(context.roundId, node.client.value), 0)))
    case Reset(p) =>
      Put(s, p, node.(member := node.member.(context := FRESH), heard := [], votes := [],
                      client := if node.client.reached then Replying(node.client.value) else Connected))
    case Reply(p) => Put(s, p, node.(client := Connected, acks := node.acks + [node.client.value]))
    case DeliverConsensus(src, dst) => HandleConsensus(s, src, dst)
    case DeliverFailure(src, dst) => HandleFailure(s, src, dst)
    case Suspect(p, other) => Put(s, p, node.(alive := node.alive - {other}))
    case Spawn(p, other, thread, id) =>
      Put(s, p, node.(recoveries := node.recoveries[thread := Recovery(id, other, Spawned)]))
    case Publish(p, thread) =>
      Put(s, p, SetPhase(node, thread, Published).(curRecoveryId := node.recoveries[thread].id))
    case LockWindow(p, thread) => Put(s, p, SetPhase(node, thread, Locked).(lock := RecoveryThread(thread)))
    case Transfer(p, thread) => SendState(s, p, thread)
    case CloseWindow(p, thread) =>
      Put(s, p, SetPhase(node, thread, Closed).(curRecoveryId := -1, lock := Free))
    case Elect(p, leader) => Put(s, p, node.(leaderId := leader))
  }

  // ---------------------------------------------------------------------------
  // What a delivery does, channel by channel

  function Popped<M>(net: map<Link, seq<M>>, src: int, dst: int, a: int, b: int): seq<M>
    requires Queue(net, src, dst) != []
  {
    if a == src && b == dst then Queue(net, a, b)[1..] else Queue(net, a, b)
  }

  /** The receiver afterwards and its reply: nothing happens when it filters the sender. */
  function Outcome(node: Node, src: int, message: ConsensusMsg): (Node, Option<ConsensusMsg>) {
    if src in node.alive then Receive(node, src, message) else (node, None)
  }

  ghost predicate Delivered(s: System, s': System, src: int, dst: int) {
    && IsNode(s, src) && IsNode(s, dst) && Queue(s.consensus, src, dst) != []
    && s' == s.(nodes := s'.nodes, consensus := s'.consensus)
    && var (node, reply) := Outcome(s.nodes[dst], src, Queue(s.consensus, src, dst)[0]);
    && s'.nodes == s.nodes[dst := node]
    && forall a, b {:trigger Queue(s'.consensus, a, b)} ::
         Queue(s'.consensus, a, b) ==
           if a == dst && b == src && reply.Some? then Popped(s.consensus, src, dst, a, b) + [reply.value]
           else Popped(s.consensus, src, dst, a, b)
  }

  lemma DeliveryEffect(s: System, src: int, dst: int)
    requires IsNode(s, src) && IsNode(s, dst) && Queue(s.consensus, src, dst) != []
    ensures Delivered(s, HandleConsensus(s, src, dst), src, dst)
  {
    var s' := HandleConsensus(s, src, dst);
    var (node, reply) := Outcome(s.nodes[dst], src, Queue(s.consensus, src, dst)[0]);
    assert s'.nodes == s.nodes[dst := node];
  }

  lemma DeliveredMember(s: System, s': System, src: int, dst: int, a: int, b: int, m: ConsensusMsg)
    requires Delivered(s, s', src, dst) && m in Queue(s'.consensus, a, b)
    ensures m in Queue(s.consensus, a, b) ||
            (a == dst && b == src && Outcome(s.nodes[dst], src, Queue(s.consensus, src, dst)[0]).1 == Some(m))
  {
    if m in Popped(s.consensus, src, dst, a, b) {
    }
  }

  /** What a send of a broadcast loop does. */
  ghost predicate SentNext(s: System, s': System, p: int) {
    && IsNode(s, p) && s.nodes[p].client.Broadcasting?
    && s'.failure == s.failure && |s'.nodes| == |s.nodes|
    && s'.submitted == s.submitted && s'.proposals == s.proposals && s'.used == s.used
    && var node, node' := s.nodes[p], s'.nodes[p];
    && node' == node.(client := node'.client)
    && node'.client == (if node.client.next < |s.nodes| then node.client.(next := node.client.next + 1)
                        else AfterBroadcast(node.client.value, node.client.message))
    && (forall q {:trigger s'.nodes[q]} :: IsNode(s, q) && q != p ==> s'.nodes[q] == s.nodes[q])
    && (forall a, b {:trigger Queue(s'.consensus, a, b)} ::
          Queue(s'.consensus, a, b) ==
            if a == p && b == node.client.next && b < |s.nodes| && b != p && b in node.alive
            then Queue(s.consensus, a, b) + [node.client.message] else Queue(s.consensus, a, b))
  }

  lemma SendChannels(s: System, p: int)
    requires IsNode(s, p) && s.nodes[p].client.Broadcasting?
    ensures SentNext(s, SendOne(s, p), p)
  {
  }

  /** The steps of the client thread. */
  predicate IsClientStep(step: Step) {
    step.Disconnect? || step.Connect? || step.TakeLock? || step.StartRound? || step.SendNext? || step.CountPromises?
    || step.StartPropose? || step.CountAccepts? || step.Append? || step.Announce? || step.Reset? || step.Reply?
  }

  /** A client step changes its own node, and no channel unless it is a send. */
  lemma ClientEffect(s: System, step: Step)
    requires Enabled(s, step) && IsClientStep(step) && !step.SendNext?
    ensures var s' := Apply(s, step);
      && s'.consensus == s.consensus && s'.failure == s.failure
      && s'.nodes == s.nodes[step.p := s'.nodes[step.p]]
  {
  }

  /** Equal in everything the consensus manager reads and records, up to the log. */
  ghost predicate SameRound(node: Node, node': Node) {
    && node'.member.context == node.member.context && node'.member.maxRoundId == node.member.maxRoundId
    && node'.client == node.client
    && node'.lastRoundId == node.lastRoundId && node'.lastProposeId == node.lastProposeId
    && node'.heard == node.heard && node'.votes == node.votes
    && node'.events == node.events && node'.acks == node.acks
  }

  ghost predicate RoundsUntouched(s: System, s': System) {
    && s'.consensus == s.consensus && |s'.nodes| == |s.nodes|
    && s'.proposals == s.proposals && s'.used == s.used && s'.submitted == s.submitted
    && forall p {:trigger s'.nodes[p]} :: IsNode(s, p) ==> SameRound(s.nodes[p], s'.nodes[p])
  }

  /** The failure and election managers leave rounds alone. */
  lemma OtherEffect(s: System, step: Step)
    requires Enabled(s, step) && !IsClientStep(step) && !step.DeliverConsensus?
    ensures RoundsUntouched(s, Apply(s, step))
  {
    if step.DeliverFailure? {
      FailureEffect(s, step.src, step.dst);
    }
  }

  lemma FailureEffect(s: System, src: int, dst: int)
    requires IsNode(s, src) && IsNode(s, dst) && Queue(s.failure, src, dst) != []
    ensures RoundsUntouched(s, HandleFailure(s, src, dst))
  {
    ReceivedRound(s.nodes[dst], src, dst, Queue(s.failure, src, dst)[0]);
  }

  lemma ReceivedRound(node: Node, src: int, dst: int, message: FailureMsg)
    ensures SameRound(node, FailureReceived(node, src, dst, message))
  {
  }

  /** What a failure message does, channel by channel: STATE replaces the log and is answered to its sender;
      STATE_UPDATED that answers the current recovery of a leader makes its sender alive and is announced to all others;
      RECOVERED makes its node alive, except at that node itself; PING changes nothing. */
  lemma FailureHandled(s: System, src: int, dst: int)
    requires IsNode(s, src) && IsNode(s, dst) && src != dst && Queue(s.failure, src, dst) != []
    ensures var s', node, m := HandleFailure(s, src, dst), s.nodes[dst], Queue(s.failure, src, dst)[0];
      && s'.nodes[dst].member.log == (if m.State? then m.log else node.member.log)
      && (forall x :: x in s'.nodes[dst].alive <==>
            || x in node.alive
            || (m.StateUpdated? && x == src && node.curRecoveryId == m.recoveryId && node.leaderId == dst)
            || (m.Recovered? && x == m.recoveredNodeId && x != dst))
      && s'.nodes[dst].leaderId == node.leaderId && s'.nodes[dst].curRecoveryId == node.curRecoveryId
      && forall a, b {:trigger Queue(s'.failure, a, b)} ::
           Queue(s'.failure, a, b) == Popped(s.failure, src, dst, a, b)
           + if a != dst || b == dst then []
             else if m.State? && b == src then [StateUpdated(m.id)]
             else if m.StateUpdated? && node.curRecoveryId == m.recoveryId && node.leaderId == dst && IsNode(s, b)
             then [Recovered(src)] else []
  {
    var node, m := s.nodes[dst], Queue(s.failure, src, dst)[0];
    var net := Dequeue(s.failure, src, dst);
    forall a, b
      ensures Queue(FailureSent(net, node, src, dst, |s.nodes|, m), a, b) == Popped(s.failure, src, dst, a, b)
        + if a != dst || b == dst then []
          else if m.State? && b == src then [StateUpdated(m.id)]
          else if m.StateUpdated? && node.curRecoveryId == m.recoveryId && node.leaderId == dst && IsNode(s, b)
          then [Recovered(src)] else []
    {
      assert Queue(net, a, b) == Popped(s.failure, src, dst, a, b);
    }
  }

  /** A suspicion takes exactly one node out of the view, and any node may come to be taken for the leader. */
  lemma MarksEffect(s: System, p: int, other: int)
    requires IsNode(s, p)
    ensures Enabled(s, Elect(p, other)) && Apply(s, Elect(p, other)).nodes[p] == s.nodes[p].(leaderId := other)
    ensures Enabled(s, Suspect(p, other)) <==> IsNode(s, other) && other != p
    ensures Enabled(s, Suspect(p, other)) ==>
            Apply(s, Suspect(p, other)).nodes[p] == s.nodes[p].(alive := s.nodes[p].alive - {other})
  {
  }

  // ---------------------------------------------------------------------------
  // Runs

  function InitialNode(n: int, p: int): Node {
    Node(NEW_MEMBER, Nodes(n) - {p}, -1, Starting, ClientThread, -1, map[],
         -1, -1, [], [], [], [])
  }

  /** Every node freshly started, nothing in flight. The elected leaders are left open. */
  ghost predicate Initial(s: System) {
    && |s.nodes| > 0
    && (forall p :: 0 <= p < |s.nodes| ==>
          s.nodes[p] == InitialNode(|s.nodes|, p).(leaderId := s.nodes[p].leaderId))
    && s.consensus == map[] && s.failure == map[]
    && s.submitted == {} && s.proposals == map[] && s.used == {}
  }

  ghost predicate StepAt(states: seq<System>, steps: seq<Step>, i: int)
    requires |states| == |steps| + 1 && 0 <= i < |steps|
  {
    Enabled(states[i], steps[i]) && states[i + 1] == Apply(states[i], steps[i])
  }

  ghost predicate IsRun(states: seq<System>, steps: seq<Step>) {
    && |states| == |steps| + 1
    && Initial(states[0])
    && forall i {:trigger StepAt(states, steps, i)} :: 0 <= i < |steps| ==> StepAt(states, steps, i)
  }

  lemma RunStep(states: seq<System>, steps: seq<Step>, k: nat)
    requires IsRun(states, steps) && k < |steps|
    ensures Enabled(states[k], steps[k]) && states[k + 1] == Apply(states[k], steps[k])
  {
    assert StepAt(states, steps, k);
  }

  lemma SizeIsFixed(s: System, step: Step)
    requires Enabled(s, step)
    ensures |Apply(s, step).nodes| == |s.nodes|
  {
  }

  /** Nodes are never added or removed. */
  lemma {:induction false} RunSize(states: seq<System>, steps: seq<Step>, k: nat)
    requires IsRun(states, steps) && k < |states|
    ensures |states[k].nodes| == |states[0].nodes|
  {
    if k > 0 {
      RunSize(states, steps, k - 1);
      RunStep(states, steps, k - 1);
      SizeIsFixed(states[k - 1], steps[k - 1]);
    }
  }
}

/** Runs of the failure manager that break a property without the assumption it is stated under. */
module Counterexamples {
  import opened Messages
  import opened Consensus
  import opened Cluster
  import opened Reaching
  import opened RecoveryLock
  import opened Replication

  // ---------------------------------------------------------------------------
  // A STATE that arrives after its window

  /** The leader's client thread, lock, recoveries, context and log. */
  datatype Looks = Looks(up: bool, client: ClientPc, lock: Owner, current: int, recoveries: map<nat, Recovery>,
                         context: Context, log: seq<Value>)

  /** Of three nodes, leader 0 looks like `l`, suspects node 2, and node 1 follows with `follower`; nothing is on its
      consensus channels with the leader, and `failure` and `back` are on the two failure channels. */
  ghost predicate At(s: System, l: Looks, follower: Member, failure: seq<FailureMsg>, back: seq<FailureMsg>) {
    && |s.nodes| == 3
    && var node, node1 := s.nodes[0], s.nodes[1];
    && node.alive == (if l.up then {1} else {}) && node.leaderId == 0
    && node.client == l.client && node.lock == l.lock && node.curRecoveryId == l.current
       && node.recoveries == l.recoveries
    && node.member.context == l.context && node.member.log == l.log
    && 0 in node1.alive && node1.member == follower
    && Queue(s.consensus, 0, 1) == [] && Queue(s.consensus, 1, 0) == []
    && Queue(s.failure, 0, 1) == failure && Queue(s.failure, 1, 0) == back
  }

  ghost predicate Reach(l: Looks, follower: Member, failure: seq<FailureMsg>, back: seq<FailureMsg>) {
    exists s :: Reachable(StableLeader, s) && At(s, l, follower, failure, back)
  }

  function Phases(a: Phase, b: Phase): map<nat, Recovery> {
    map[0 := Recovery(1, 1, a), 1 := Recovery(2, 1, b)]
  }

  function Idle(up: bool, lock: Owner, current: int, a: Phase, b: Phase): Looks {
    Looks(up, Accepting, lock, current, Phases(a, b), FRESH, [])
  }

  /** The leader suspects both others and no client is connected. */
  lemma Suspecting() returns (s: System)
    ensures Reachable(StableLeader, s) && At(s, Looks(false, Accepting, Free, -1, map[], FRESH, []), NEW_MEMBER, [], [])
  {
    var s0 := Disconnected();
    s := Next(StableLeader, s0, Suspect(0, 2));
    assert s.nodes[0].alive == {1} && s.nodes[1] == s0.nodes[1];
    s := Next(StableLeader, s, Suspect(0, 1));
  }

  lemma Disconnected() returns (s: System)
    ensures Reachable(StableLeader, s) && |s.nodes| == 3 && s.nodes[1] == InitialNode(3, 1).(leaderId := 0)
            && s.consensus == map[] && s.failure == map[]
    ensures s.nodes[0] == InitialNode(3, 0).(leaderId := 0, client := Accepting, lock := Free)
            && s.nodes[0].alive == {1, 2}
    ensures 0 in s.nodes[1].alive
  {
    s := Fresh(StableLeader, 3);
    assert Nodes(3) - {0} == {1, 2} && 0 in Nodes(3) - {1};
    s := Next(StableLeader, s, Step.Disconnect(0));
  }

  /** Two recoveries of node 1 are spawned before either publishes its id. */
  lemma TwoSpawned()
    ensures Reach(Idle(false, Free, -1, Spawned, Spawned), NEW_MEMBER, [], [])
  {
    var s := Suspecting();
    s := Next(StableLeader, s, Spawn(0, 1, 0, 1));
    assert At(s, Looks(false, Accepting, Free, -1, map[0 := Recovery(1, 1, Spawned)], FRESH, []), NEW_MEMBER, [], []);
    s := Next(StableLeader, s, Spawn(0, 1, 1, 2));
    assert At(s, Idle(false, Free, -1, Spawned, Spawned), NEW_MEMBER, [], []);
  }

  // One step at a time

  predicate Phased(l: Looks, thread: nat, phase: Phase) {
    thread in l.recoveries && l.recoveries[thread].phase == phase
  }

  /** Steps of the leader that change nothing but how it looks. */
  predicate Ready(l: Looks, step: Step) {
    match step
    case Publish(p, t) => p == 0 && Phased(l, t, Spawned)
    case LockWindow(p, t) => p == 0 && Phased(l, t, Published) && l.lock == Free
    case CloseWindow(p, t) => p == 0 && Phased(l, t, Sent)
    case Connect(p) => p == 0 && l.client.Accepting?
    case TakeLock(p) => p == 0 && l.client.Locking? && l.lock == Free
    case StartRound(p, _, id) => p == 0 && l.client.Connected? && id >= 0
    case CountPromises(p) => p == 0 && l.client.AwaitingPromises? && l.context.promiseCount >= 1
    case StartPropose(p, id) => p == 0 && l.client.Proposing?
    case CountAccepts(p) => p == 0 && l.client.AwaitingAccepts? && l.context.acceptCount >= 1
    case Append(p) => p == 0 && l.client.Committing?
    case Announce(p) => p == 0 && l.client.Announcing?
    case Reset(p) => p == 0 && l.client.Writing? && l.client.reached
    case Reply(p) => p == 0 && l.client.Replying?
    case _ => false
  }

  function InPhase(l: Looks, thread: nat, phase: Phase): Looks
    requires thread in l.recoveries
  {
    l.(recoveries := l.recoveries[thread := l.recoveries[thread].(phase := phase)])
  }

  function After(l: Looks, step: Step): Looks
    requires Ready(l, step)
  {
    match step
    case Publish(_, t) => InPhase(l, t, Published).(current := l.recoveries[t].id)
    case LockWindow(_, t) => InPhase(l, t, Locked).(lock := RecoveryThread(t))
    case CloseWindow(_, t) => InPhase(l, t, Closed).(current := -1, lock := Free)
    case Connect(_) => l.(client := Locking)
    case TakeLock(_) => l.(client := Connected, lock := ClientThread)
    case StartRound(_, value, id) =>
        l.(client := Broadcasting(value, Prepare(id), 0), context := l.context.(roundId := id))
    case CountPromises(_) => l.(client := Proposing(l.client.value))
    case StartPropose(_, id) =>
      var value := l.client.value;
      l.(client := Broadcasting(value, Propose(id, l.context.roundId, ProposedValue(l.context, value)), 0))
    case CountAccepts(_) => l.(client := Committing(l.client.value))
    case Append(_) => l.(client := Announcing(l.client.value), log := l.log + [l.client.value])
    case Announce(_) => l.(client := Broadcasting(l.client.value, Accepted(l.context.roundId, l.client.value), 0))
    case Reset(_) => l.(client := Replying(l.client.value), context := FRESH)
    case _ => l.(client := Connected)
  }

  lemma LocalAllowed(s: System, step: Step, l: Looks, follower: Member, failure: seq<FailureMsg>)
    requires At(s, l, follower, failure, []) && Ready(l, step)
    ensures Trusted(0, s, step)
  {
  }

  lemma LocalLooks(s: System, step: Step, l: Looks, follower: Member, failure: seq<FailureMsg>)
    requires At(s, l, follower, failure, []) && Ready(l, step) && Enabled(s, step)
    ensures At(Apply(s, step), After(l, step), follower, failure, [])
  {
    if IsClientStep(step) {
      ClientEffect(s, step);
      LocalNode(s, step, l, follower, failure);
    }
  }

  lemma LocalNode(s: System, step: Step, l: Looks, follower: Member, failure: seq<FailureMsg>)
    requires At(s, l, follower, failure, []) && Ready(l, step) && Enabled(s, step) && IsClientStep(step)
    ensures var node, l' := Apply(s, step).nodes[0], After(l, step);
      && node.alive == s.nodes[0].alive && node.leaderId == 0 && node.recoveries == l'.recoveries
         && node.curRecoveryId == l'.current
      && node.client == l'.client && node.lock == l'.lock && node.member.context == l'.context
         && node.member.log == l'.log
  {
  }

  lemma Local(step: Step, l: Looks, follower: Member, failure: seq<FailureMsg>)
    requires Reach(l, follower, failure, []) && Ready(l, step)
    ensures Reach(After(l, step), follower, failure, [])
  {
    var s :| Reachable(StableLeader, s) && At(s, l, follower, failure, []);
    LocalAllowed(s, step, l, follower, failure);
    LocalLooks(s, step, l, follower, failure);
    var s' := Next(StableLeader, s, step);
  }

  lemma Transferred(thread: nat, l: Looks, follower: Member, failure: seq<FailureMsg>)
    requires Reach(l, follower, failure, []) && Phased(l, thread, Locked) && l.recoveries[thread].target == 1
    ensures Reach(InPhase(l, thread, Sent), follower, failure + [State(l.recoveries[thread].id, l.log)], [])
  {
    var s :| Reachable(StableLeader, s) && At(s, l, follower, failure, []);
    var s' := Next(StableLeader, s, Transfer(0, thread));
    assert At(s', InPhase(l, thread, Sent), follower, failure + [State(l.recoveries[thread].id, l.log)], []);
  }

  lemma StateHandled(l: Looks, follower: Member, id: int, state: seq<Value>)
    requires Reach(l, follower, [State(id, state)], [])
    ensures Reach(l, follower.(log := state), [], [StateUpdated(id)])
  {
    var s :| Reachable(StableLeader, s) && At(s, l, follower, [State(id, state)], []);
    StateEffect(s, l, follower, id, state);
    var s' := Next(StableLeader, s, DeliverFailure(0, 1));
  }

  lemma StateEffect(s: System, l: Looks, follower: Member, id: int, state: seq<Value>)
    requires At(s, l, follower, [State(id, state)], [])
    ensures Allowed(StableLeader, s, DeliverFailure(0, 1))
    ensures At(HandleFailure(s, 0, 1), l, follower.(log := state), [], [StateUpdated(id)])
  {
  }

  lemma UpdateHonoured(l: Looks, follower: Member, id: int)
    requires Reach(l, follower, [], [StateUpdated(id)]) && l.current == id
    ensures Reach(l.(up := true), follower, [Recovered(1)], [])
  {
    var s :| Reachable(StableLeader, s) && At(s, l, follower, [], [StateUpdated(id)]);
    UpdateEffect(s, l, follower, id);
    var s' := Next(StableLeader, s, DeliverFailure(1, 0));
  }

  lemma UpdateEffect(s: System, l: Looks, follower: Member, id: int)
    requires At(s, l, follower, [], [StateUpdated(id)]) && l.current == id
    ensures Allowed(StableLeader, s, DeliverFailure(1, 0))
    ensures At(HandleFailure(s, 1, 0), l.(up := true), follower, [Recovered(1)], [])
  {
    assert Honours(s.nodes[0], 0, id);
    assert HandleFailure(s, 1, 0).nodes[0].alive == {1};
  }

  lemma RecoveredHandled(l: Looks, follower: Member, rest: seq<FailureMsg>)
    requires Reach(l, follower, [Recovered(1)] + rest, [])
    ensures Reach(l, follower, rest, [])
  {
    var s :| Reachable(StableLeader, s) && At(s, l, follower, [Recovered(1)] + rest, []);
    var s' := Next(StableLeader, s, DeliverFailure(0, 1));
    assert ([Recovered(1)] + rest)[1..] == rest;
    assert At(s', l, follower, rest, []);
  }

  /** What the follower's reply does to the leader's context. */
  function Counting(context: Context, reply: Option<ConsensusMsg>): Context {
    if reply.Some? then Handle(Member(context, -1, []), reply.value).0.context else context
  }

  /** A broadcast of the leader reaches node 1 alone. */
  lemma BroadcastSent(value: Value, m: ConsensusMsg, l: Looks, follower: Member, failure: seq<FailureMsg>)
    returns (s: System)
    requires l.up && l.client == Broadcasting(value, m, 0) && Reach(l, follower, failure, [])
    ensures Reachable(StableLeader, s)
            && At(s.(consensus := map[]), l.(client := AfterBroadcast(value, m)), follower, failure, [])
    ensures Queue(s.consensus, 0, 1) == [m] && Queue(s.consensus, 1, 0) == []
  {
    var s0 :| Reachable(StableLeader, s0) && At(s0, l, follower, failure, []);
    s := SendAll(StableLeader, s0, 0);
  }

  /** A broadcast of the leader, handled and answered by node 1, the answer handled in turn. */
  lemma BroadcastHandled(value: Value, m: ConsensusMsg, l: Looks, follower: Member, failure: seq<FailureMsg>)
    requires l.up && l.client == Broadcasting(value, m, 0) && Reach(l, follower, failure, [])
    requires m.Prepare? || m.Propose? || m.Accepted?
    ensures var (follower', reply) := Handle(follower, m);
      Reach(l.(client := AfterBroadcast(value, m), context := Counting(l.context, reply)), follower', failure, [])
  {
    var s := BroadcastSent(value, m, l, follower, failure);
    var (follower', reply) := Handle(follower, m);
    var l' := l.(client := AfterBroadcast(value, m));
    var s' := FollowerHandles(s, m, l', follower, failure);
    if reply.Some? {
      AnswerHandled(s', reply.value, l', follower', failure);
    } else {
      assert At(s', l', follower', failure, []);
    }
  }

  lemma FollowerHandles(s: System, m: ConsensusMsg, l: Looks, follower: Member, failure: seq<FailureMsg>)
    returns (s': System)
    requires Reachable(StableLeader, s) && At(s.(consensus := map[]), l, follower, failure, []) && l.up
    requires Queue(s.consensus, 0, 1) == [m] && Queue(s.consensus, 1, 0) == []
             && (m.Prepare? || m.Propose? || m.Accepted?)
    ensures var (follower', reply) := Handle(follower, m);
      && Reachable(StableLeader, s') && At(s'.(consensus := map[]), l, follower', failure, [])
      && Queue(s'.consensus, 0, 1) == [] && Queue(s'.consensus, 1, 0) == if reply.Some? then [reply.value] else []
  {
    s' := Next(StableLeader, s, DeliverConsensus(0, 1));
    DeliveryEffect(s, 0, 1);
  }

  lemma AnswerHandled(s: System, reply: ConsensusMsg, l: Looks, follower: Member, failure: seq<FailureMsg>)
    requires Reachable(StableLeader, s) && l.up && |s.nodes| == 3 && Queue(s.consensus, 1, 0) == [reply]
             && Queue(s.consensus, 0, 1) == []
    requires At(s.(consensus := map[]), l, follower, failure, []) && (reply.Promise? || reply.Accept?)
    ensures Reach(l.(context := Counting(l.context, Some(reply))), follower, failure, [])
  {
    var s' := Next(StableLeader, s, DeliverConsensus(1, 0));
    DeliveryEffect(s, 1, 0);
    assert At(s', l.(context := Counting(l.context, Some(reply))), follower, failure, []);
  }

  // The run

  lemma PhaseMoved(l: Looks, a: Phase, b: Phase, x: Phase)
    requires l.recoveries == Phases(a, b)
    ensures InPhase(l, 0, x) == l.(recoveries := Phases(x, b))
    ensures InPhase(l, 1, x) == l.(recoveries := Phases(a, x))
  {
    assert Phases(a, b)[0 := Recovery(1, 1, x)] == Phases(x, b);
    assert Phases(a, b)[1 := Recovery(2, 1, x)] == Phases(a, x);
  }

  /** Both recoveries publish their ids, the first last. */
  lemma BothPublish()
    ensures Reach(Idle(false, Free, 1, Published, Published), NEW_MEMBER, [], [])
  {
    var l, l1 := Idle(false, Free, -1, Spawned, Spawned), Idle(false, Free, 2, Spawned, Published);
    TwoSpawned();
    PhaseMoved(l, Spawned, Spawned, Published);
    Local(Publish(0, 1), l, NEW_MEMBER, []);
    PhaseMoved(l1, Spawned, Published, Published);
    Local(Publish(0, 0), l1, NEW_MEMBER, []);
  }

  lemma FirstLocks()
    ensures Reach(Idle(false, RecoveryThread(0), 1, Locked, Published), NEW_MEMBER, [], [])
  {
    var l := Idle(false, Free, 1, Published, Published);
    BothPublish();
    PhaseMoved(l, Published, Published, Locked);
    Local(LockWindow(0, 0), l, NEW_MEMBER, []);
  }

  /** The first recovery is honoured while the second waits for the lock. */
  lemma FirstHonoured()
    ensures Reach(Idle(true, RecoveryThread(0), 1, Sent, Published), NEW_MEMBER, [Recovered(1)], [])
  {
    var l, l1 := Idle(false, RecoveryThread(0), 1, Locked, Published),
        Idle(false, RecoveryThread(0), 1, Sent, Published);
    FirstLocks();
    PhaseMoved(l, Locked, Published, Sent);
    Transferred(0, l, NEW_MEMBER, []);
    assert [] + [State(1, [])] == [State(1, [])];
    StateHandled(l1, NEW_MEMBER, 1, []);
    UpdateHonoured(l1, NEW_MEMBER, 1);
  }

  lemma FirstCloses()
    ensures Reach(Idle(true, Free, -1, Closed, Published), NEW_MEMBER, [Recovered(1)], [])
  {
    var l := Idle(true, RecoveryThread(0), 1, Sent, Published);
    FirstHonoured();
    PhaseMoved(l, Sent, Published, Closed);
    Local(CloseWindow(0, 0), l, NEW_MEMBER, [Recovered(1)]);
  }

  /** The second takes the lock after that. */
  lemma SecondLocks()
    ensures Reach(Idle(true, RecoveryThread(1), -1, Closed, Locked), NEW_MEMBER, [Recovered(1)], [])
  {
    var l := Idle(true, Free, -1, Closed, Published);
    FirstCloses();
    PhaseMoved(l, Closed, Published, Locked);
    Local(LockWindow(0, 1), l, NEW_MEMBER, [Recovered(1)]);
  }

  /** Its STATE is on the way when its window closes. */
  lemma SecondSends()
    ensures Reach(Idle(true, Free, -1, Closed, Closed), NEW_MEMBER, [State(2, [])], [])
  {
    var l, l1 := Idle(true, RecoveryThread(1), -1, Closed, Locked), Idle(true, RecoveryThread(1), -1, Closed, Sent);
    SecondLocks();
    PhaseMoved(l, Closed, Locked, Sent);
    Transferred(1, l, NEW_MEMBER, [Recovered(1)]);
    RecoveredHandled(l1, NEW_MEMBER, [State(2, [])]);
    PhaseMoved(l1, Closed, Sent, Closed);
    Local(CloseWindow(0, 1), l1, NEW_MEMBER, [State(2, [])]);
  }

  lemma Prepares(value: Value, l: Looks, failure: seq<FailureMsg>)
    requires l.up && l.client == Connected && l.context == FRESH && Reach(l, NEW_MEMBER, failure, [])
    ensures Reach(l.(client := Proposing(value), context := FRESH.(roundId := 3, promiseCount := 1)),
                  NEW_MEMBER.(maxRoundId := 3), failure, [])
  {
    var l1 := After(l, StartRound(0, value, 3));
    Local(StartRound(0, value, 3), l, NEW_MEMBER, failure);
    BroadcastHandled(value, Prepare(3), l1, NEW_MEMBER, failure);
    Local(CountPromises(0), l1.(client := AwaitingPromises(value), context := FRESH.(roundId := 3, promiseCount := 1)),
          NEW_MEMBER.(maxRoundId := 3), failure);
  }

  function Accepting1(value: Value): Member {
    NEW_MEMBER.(maxRoundId := 3, context := FRESH.(valueAccepted := true, acceptedId := 3, acceptedValue := value))
  }

  lemma Proposes(value: Value, l: Looks, failure: seq<FailureMsg>)
    requires l.up && l.client == Proposing(value) && l.context == FRESH.(roundId := 3, promiseCount := 1)
    requires Reach(l, NEW_MEMBER.(maxRoundId := 3), failure, [])
    ensures Reach(l.(client := Committing(value), context := l.context.(acceptCount := 1)), Accepting1(value),
                  failure, [])
  {
    var l1 := After(l, StartPropose(0, 4));
    Local(StartPropose(0, 4), l, NEW_MEMBER.(maxRoundId := 3), failure);
    BroadcastHandled(value, Propose(4, 3, value), l1, NEW_MEMBER.(maxRoundId := 3), failure);
    Local(CountAccepts(0), l1.(client := AwaitingAccepts(value), context := l.context.(acceptCount := 1)),
          Accepting1(value), failure);
  }

  lemma Appends(value: Value, l: Looks, failure: seq<FailureMsg>)
    requires l.client == Committing(value) && l.log == [] && l.context.roundId == 3
             && Reach(l, Accepting1(value), failure, [])
    ensures Reach(l.(client := Broadcasting(value, Accepted(3, value), 0), log := [value]), Accepting1(value),
                  failure, [])
  {
    assert [] + [value] == [value];
    Local(Append(0), l, Accepting1(value), failure);
    Local(Announce(0), l.(client := Announcing(value), log := [value]), Accepting1(value), failure);
  }

  lemma Commits(value: Value, l: Looks, failure: seq<FailureMsg>)
    requires l.up && l.client == Committing(value) && l.log == [] && l.context.roundId == 3
             && Reach(l, Accepting1(value), failure, [])
    ensures Reach(l.(client := Writing(value, true), log := [value]), NEW_MEMBER.(maxRoundId := 3, log := [value]),
                  failure, [])
  {
    Appends(value, l, failure);
    assert [] + [value] == [value];
    BroadcastHandled(value, Accepted(3, value),
                     l.(client := Broadcasting(value, Accepted(3, value), 0), log := [value]), Accepting1(value),
                     failure);
  }

  /** A round of the leader, up to its acknowledgement. */
  lemma RoundOf(value: Value, l: Looks, failure: seq<FailureMsg>)
    requires l.up && l.client == Connected && l.log == [] && l.context == FRESH && Reach(l, NEW_MEMBER, failure, [])
    ensures Reach(l.(log := [value]), NEW_MEMBER.(maxRoundId := 3, log := [value]), failure, [])
  {
    var follower := NEW_MEMBER.(maxRoundId := 3, log := [value]);
    var context := FRESH.(roundId := 3, promiseCount := 1);
    Prepares(value, l, failure);
    Proposes(value, l.(client := Proposing(value), context := context), failure);
    Commits(value, l.(client := Committing(value), context := context.(acceptCount := 1)), failure);
    var l1 := l.(client := Writing(value, true), context := context.(acceptCount := 1), log := [value]);
    Local(Step.Reset(0), l1, follower, failure);
    Local(Reply(0), l1.(client := Replying(value), context := FRESH), follower, failure);
  }

  function ServingClient(): Looks {
    Idle(true, ClientThread, -1, Closed, Closed).(client := Connected)
  }

  lemma ClientConnects()
    ensures Reach(ServingClient(), NEW_MEMBER, [State(2, [])], [])
  {
    var l := Idle(true, Free, -1, Closed, Closed);
    SecondSends();
    Local(Connect(0), l, NEW_MEMBER, [State(2, [])]);
    Local(TakeLock(0), l.(client := Locking), NEW_MEMBER, [State(2, [])]);
  }

  lemma Overwritten(value: Value)
    ensures Reach(ServingClient().(log := [value]), NEW_MEMBER.(maxRoundId := 3), [], [StateUpdated(2)])
  {
    ClientConnects();
    RoundOf(value, ServingClient(), [State(2, [])]);
    StateHandled(ServingClient().(log := [value]), NEW_MEMBER.(maxRoundId := 3, log := [value]), 2, []);
  }

  /** A run of three nodes under a stable leader after which the leader marks node 1 alive and has logged a value that
      node 1 had logged and lost again; nothing is on its way to node 1. A STATE that outlives its window, and is no
      longer current, overwrites what was logged since it was sent. */
  lemma LateStateLosesEntry(value: Value) returns (s: System)
    ensures Reachable(StableLeader, s) && |s.nodes| == 3
    ensures 1 in s.nodes[0].alive && 0 in s.nodes[1].alive
    ensures s.nodes[0].member.log == [value] && s.nodes[1].member.log == []
    ensures Queue(s.consensus, 0, 1) == [] && Queue(s.failure, 0, 1) == [] && s.nodes[0].client == Connected
    ensures !InStep(0, s, 1)
  {
    Overwritten(value);
    s :| Reachable(StableLeader, s)
        && At(s, ServingClient().(log := [value]), NEW_MEMBER.(maxRoundId := 3), [], [StateUpdated(2)]);
  }

  // ---------------------------------------------------------------------------
  // Two recoveries that share an id

  /** Leader 0 of three, without a client, suspects both others and recovers them in one pass, under one id. */
  function Recovering(a: Phase, b: Phase, current: int, lock: Owner): Node {
    InitialNode(3, 0).(leaderId := 0, alive := {}, client := Accepting, lock := lock, curRecoveryId := current,
                       recoveries := map[0 := Recovery(1, 1, a), 1 := Recovery(1, 2, b)])
  }

  ghost predicate Sharing(s: System, leader: Node, back: seq<FailureMsg>) {
    && |s.nodes| == 3 && s.nodes[0] == leader && s.consensus == map[]
    && Queue(s.failure, 0, 1) == [] && Queue(s.failure, 1, 0) == back
  }

  /** A step of the leader that sends nothing. */
  lemma Leads(s: System, step: Step, leader: Node, leader': Node, back: seq<FailureMsg>) returns (s': System)
    requires Reachable(SharedIds, s) && Sharing(s, leader, back) && Enabled(s, step)
    requires !step.DeliverConsensus? && !step.DeliverFailure? && !step.SendNext? && !step.Transfer? && step.p == 0
    requires Apply(s, step).nodes[0] == leader'
    ensures Reachable(SharedIds, s') && Sharing(s', leader', back)
  {
    s' := Next(SharedIds, s, step);
  }

  function Unconnected(alive: set<int>): Node {
    Recovering(Spawned, Spawned, -1, Free).(alive := alive, recoveries := map[])
  }

  lemma NoClient() returns (s: System)
    ensures Reachable(SharedIds, s) && Sharing(s, Unconnected({1, 2}), [])
  {
    s := Fresh(SharedIds, 3);
    assert Nodes(3) - {0} == {1, 2};
    s := Leads(s, Step.Disconnect(0), InitialNode(3, 0).(leaderId := 0), Unconnected({1, 2}), []);
  }

  lemma BothSuspected() returns (s: System)
    ensures Reachable(SharedIds, s) && Sharing(s, Unconnected({}), [])
  {
    s := NoClient();
    assert {1, 2} - {1} == {2} && {2} - {2} == {};
    s := Leads(s, Suspect(0, 1), Unconnected({1, 2}), Unconnected({2}), []);
    s := Leads(s, Suspect(0, 2), Unconnected({2}), Unconnected({}), []);
  }

  lemma BothSpawned() returns (s: System)
    ensures Reachable(SharedIds, s) && Sharing(s, Recovering(Spawned, Spawned, -1, Free), [])
  {
    var both := Recovering(Spawned, Spawned, -1, Free);
    var one := both.(recoveries := map[0 := Recovery(1, 1, Spawned)]);
    s := BothSuspected();
    s := Leads(s, Spawn(0, 1, 0, 1), Unconnected({}), one, []);
    assert map[0 := Recovery(1, 1, Spawned)][1 := Recovery(1, 2, Spawned)] == both.recoveries;
    s := Leads(s, Spawn(0, 2, 1, 1), one, both, []);
  }

  lemma SharedPhases(a: Phase, b: Phase, x: Phase)
    ensures map[0 := Recovery(1, 1, a), 1 := Recovery(1, 2, b)][0 := Recovery(1, 1, x)]
            == map[0 := Recovery(1, 1, x), 1 := Recovery(1, 2, b)]
    ensures map[0 := Recovery(1, 1, a), 1 := Recovery(1, 2, b)][1 := Recovery(1, 2, x)]
            == map[0 := Recovery(1, 1, a), 1 := Recovery(1, 2, x)]
  {
  }

  lemma FirstLocked() returns (s: System)
    ensures Reachable(SharedIds, s) && Sharing(s, Recovering(Locked, Spawned, 1, RecoveryThread(0)), [])
  {
    var l0, l1 := Recovering(Spawned, Spawned, -1, Free), Recovering(Published, Spawned, 1, Free);
    s := BothSpawned();
    SharedPhases(Spawned, Spawned, Published);
    s := Leads(s, Publish(0, 0), l0, l1, []);
    SharedPhases(Published, Spawned, Locked);
    s := Leads(s, LockWindow(0, 0), l1, Recovering(Locked, Spawned, 1, RecoveryThread(0)), []);
  }

  lemma FirstSent() returns (s: System)
    ensures Reachable(SharedIds, s) && |s.nodes| == 3 && s.consensus == map[]
    ensures s.nodes[0] == Recovering(Sent, Spawned, 1, RecoveryThread(0))
    ensures Queue(s.failure, 0, 1) == [State(1, [])] && Queue(s.failure, 1, 0) == []
  {
    s := FirstLocked();
    SharedPhases(Locked, Spawned, Sent);
    s := Next(SharedIds, s, Transfer(0, 0));
  }

  /** The first recovery has sent its STATE, and node 1 answers. */
  lemma FirstAnswered() returns (s: System)
    ensures Reachable(SharedIds, s)
    ensures Sharing(s, Recovering(Sent, Spawned, 1, RecoveryThread(0)), [StateUpdated(1)])
  {
    s := FirstSent();
    s := Next(SharedIds, s, DeliverFailure(0, 1));
  }

  lemma FirstClosed() returns (s: System)
    ensures Reachable(SharedIds, s) && Sharing(s, Recovering(Closed, Spawned, -1, Free), [StateUpdated(1)])
  {
    var l0, l1 := Recovering(Sent, Spawned, 1, RecoveryThread(0)), Recovering(Closed, Spawned, -1, Free);
    s := FirstAnswered();
    SharedPhases(Sent, Spawned, Closed);
    s := Leads(s, CloseWindow(0, 0), l0, l1, [StateUpdated(1)]);
  }

  /** The answer is still on its way when the first has closed its window and the second publishes the same id. */
  lemma SecondPublishes() returns (s: System)
    ensures Reachable(SharedIds, s) && Sharing(s, Recovering(Closed, Published, 1, Free), [StateUpdated(1)])
  {
    s := FirstClosed();
    SharedPhases(Closed, Spawned, Published);
    s := Leads(s, Publish(0, 1), Recovering(Closed, Spawned, -1, Free), Recovering(Closed, Published, 1, Free),
               [StateUpdated(1)]);
  }

  function Serving(value: Value): Node {
    Recovering(Closed, Published, 1, ClientThread).(client := Broadcasting(value, Prepare(7), 0), lastRoundId := 7,
                                                    member := NEW_MEMBER.(context := FRESH.(roundId := 7)))
  }

  lemma RoundStarted(value: Value) returns (s: System)
    ensures Reachable(SharedIds, s) && Sharing(s, Serving(value), [StateUpdated(1)])
  {
    var l0 := Recovering(Closed, Published, 1, Free);
    var l1, l2 := l0.(client := Locking), l0.(client := Connected, lock := ClientThread);
    s := SecondPublishes();
    s := Leads(s, Connect(0), l0, l1, [StateUpdated(1)]);
    s := Leads(s, TakeLock(0), l1, l2, [StateUpdated(1)]);
    s := Leads(s, StartRound(0, value, 7), l2, Serving(value), [StateUpdated(1)]);
  }

  /** Why a published id must not be one of a closed recovery: ids are whole seconds, and one pass of checkTimeStamps
      spawns a recovery for every node that is back. In this run, under a stable leader, the late STATE_UPDATED of the
      first node is honoured although its window is closed and a round runs. */
  lemma SharedIdLosesTheLock(value: Value) returns (s: System)
    ensures Reachable(SharedIds, s) && |s.nodes| == 3
    ensures Started(s.nodes[0], s.nodes[0].curRecoveryId, 1) && !OwnsTheLock(s.nodes[0])
    ensures s.nodes[0].lock == ClientThread && InRound(s.nodes[0].client)
    ensures Queue(s.failure, 1, 0) == [StateUpdated(1)] && Honours(s.nodes[0], 0, 1)
    ensures Enabled(s, DeliverFailure(1, 0)) && 1 in Apply(s, DeliverFailure(1, 0)).nodes[0].alive
  {
    s := RoundStarted(value);
    assert s.nodes[0].recoveries[0] == Recovery(1, 1, Closed);
    assert Started(s.nodes[0], 1, 1);
  }
}

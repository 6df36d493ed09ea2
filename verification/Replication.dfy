/** The replicated log under one stable leader, across crashes and recoveries. */
module Replication {
  import opened Messages
  import opened Consensus
  import opened Cluster
  import opened RecoveryLock

  /** The values of the ACCEPTED messages in a channel, in order. */
  function Pending(q: seq<ConsensusMsg>): seq<Value> {
    if q == [] then []
    else (if q[0].Accepted? then [q[0].value] else []) + Pending(q[1..])
  }

  lemma {:induction false} PendingAppend(q: seq<ConsensusMsg>, m: ConsensusMsg)
    ensures Pending(q + [m]) == Pending(q) + if m.Accepted? then [m.value] else []
  {
    if q == [] {
      assert ([] + [m])[1..] == [];
    } else {
      PendingAppend(q[1..], m);
      assert (q + [m])[1..] == q[1..] + [m];
    }
  }

  /** What the leader has logged but its broadcast loop has not yet sent to x. */
  function Owed(pc: ClientPc, x: int): seq<Value> {
    match pc
    case Announcing(value) => [value]
    case Broadcasting(_, Accepted(_, value), next) => if next <= x then [value] else []
    case _ => []
  }

  // ---------------------------------------------------------------------------
  // What is asked of the environment

  /** Only the leader is given commands and recovers nodes. */
  ghost predicate OnlyLeads(leader: int, step: Step) {
    (step.StartRound? || step.Spawn?) ==> step.p == leader
  }

  /** A node the leader counts as alive does not itself suspect the leader. */
  ghost predicate Trusting(leader: int, s: System, step: Step)
    requires Enabled(s, step) && IsNode(s, leader)
  {
    step.DeliverConsensus? && step.src == leader && step.dst in s.nodes[leader].alive ==>
      leader in s.nodes[step.dst].alive
  }

  /** STATE is handled when no ACCEPTED is queued behind the other tag. */
  ghost predicate Settled(leader: int, s: System, step: Step)
    requires Enabled(s, step)
  {
    step.DeliverFailure? && step.src == leader && Queue(s.failure, leader, step.dst)[0].State? ==>
      Pending(Queue(s.consensus, leader, step.dst)) == []
  }

  /** A STATE for a node the leader already counts as alive again is handled within its RECOVERY_DURATION window. */
  ghost predicate Timely(leader: int, s: System, step: Step)
    requires Enabled(s, step) && IsNode(s, leader)
  {
    step.DeliverFailure? && step.src == leader && Queue(s.failure, leader, step.dst)[0].State?
    && step.dst in s.nodes[leader].alive ==>
      Window(s.nodes[leader], Queue(s.failure, leader, step.dst)[0].id, step.dst)
  }

  /** A STATE for a node the leader already counts as alive again carries everything the leader has logged, but for
      what its broadcast loop still owes that node. */
  ghost predicate StillCurrent(leader: int, s: System, step: Step)
    requires Enabled(s, step) && IsNode(s, leader)
  {
    step.DeliverFailure? && step.src == leader && Queue(s.failure, leader, step.dst)[0].State?
    && step.dst in s.nodes[leader].alive ==>
      Queue(s.failure, leader, step.dst)[0].log + Owed(s.nodes[leader].client, step.dst) == s.nodes[leader].member.log
  }

  /** One stable leader. */
  ghost predicate Stable(leader: int, s: System, step: Step) {
    && Enabled(s, step) && IsNode(s, leader)
    && OnlyLeads(leader, step) && DistinctIds(s, step) && Settled(leader, s, step)
  }

  /** One stable leader, whom no live follower suspects. */
  ghost predicate Trusted(leader: int, s: System, step: Step) {
    Stable(leader, s, step) && Trusting(leader, s, step)
  }

  // ---------------------------------------------------------------------------
  // The invariant

  /** A node that only follows: no startConsensus runs and nobody is being recovered. */
  ghost predicate Quiet(node: Node) {
    && !InRound(node.client) && !node.client.Replying?
    && (HoldsLock(node.client) <==> node.lock == ClientThread)
    && node.recoveries == map[] && node.curRecoveryId == -1
  }

  /** Which failure messages can be on the channel from a to b. */
  ghost predicate FailureOk(leader: int, l: Node, a: int, b: int, m: FailureMsg) {
    match m
    case Ping => true
    case State(id, _) => a == leader && b != leader && Started(l, id, b)
    case StateUpdated(id) => a != leader && b == leader && Started(l, id, a)
    case Recovered(_) => a == leader && b != leader
  }

  /** Everybody else only follows, and only the leader sends ACCEPTED, STATE and RECOVERED. */
  ghost predicate Followers(leader: int, s: System)
    requires IsNode(s, leader)
  {
    && (forall p {:trigger s.nodes[p]} :: IsNode(s, p) && p != leader ==> Quiet(s.nodes[p]))
    && (forall a, b, m {:trigger m in Queue(s.consensus, a, b)} ::
          m in Queue(s.consensus, a, b) && m.Accepted? ==> a == leader && b != leader)
    && (forall a, b, m {:trigger m in Queue(s.failure, a, b)} ::
          m in Queue(s.failure, a, b) ==> FailureOk(leader, s.nodes[leader], a, b, m))
  }

  /** Every STATE `id` in q carries `log` and is the last STATE in q. */
  ghost predicate LastState(q: seq<FailureMsg>, id: int, log: seq<Value>) {
    && (forall m :: m in q && m.State? && m.id == id ==> m.log == log)
    && (forall i, j :: 0 <= i < j < |q| && q[i].State? && q[i].id == id ==> !q[j].State?)
  }

  ghost predicate NoState(q: seq<FailureMsg>) {
    forall m :: m in q ==> !m.State?
  }

  lemma LastStatePopped(q: seq<FailureMsg>, id: int, log: seq<Value>)
    requires q != [] && LastState(q, id, log)
    ensures LastState(q[1..], id, log)
    ensures q[0].State? && q[0].id == id ==> NoState(q[1..])
  {
    assert forall i :: 0 <= i < |q[1..]| ==> q[1..][i] == q[i + 1];
  }

  lemma LastStateAppended(q: seq<FailureMsg>, id: int, log: seq<Value>, m: FailureMsg)
    requires LastState(q, id, log)
    requires m.State? ==> m.id == id && m.log == log && forall k :: k in q && k.State? ==> k.id != id
    ensures LastState(q + [m], id, log)
  {
  }

  /** While the window of recovery `id` of x is open, the STATE it sent is the leader's log and the last one
      sent to x, and once x has answered, x's log is the leader's. */
  ghost predicate TransferOk(leader: int, s: System, id: int, x: int)
    requires IsNode(s, leader) && IsNode(s, x)
  {
    var toX, back := Queue(s.failure, leader, x), Queue(s.failure, x, leader);
    && LastState(toX, id, s.nodes[leader].member.log)
    && (StateUpdated(id) in back ==>
          && NoState(toX)
          && s.nodes[x].member.log == s.nodes[leader].member.log
          && Pending(Queue(s.consensus, leader, x)) == [])
  }

  ghost predicate Transfers(leader: int, s: System)
    requires IsNode(s, leader)
  {
    forall id, x {:trigger Window(s.nodes[leader], id, x)} ::
      Window(s.nodes[leader], id, x) && IsNode(s, x) ==> TransferOk(leader, s, id, x)
  }

  /** The log of x, followed by what is on its way to x, is the leader's log. */
  ghost predicate InStep(leader: int, s: System, x: int)
    requires IsNode(s, leader) && IsNode(s, x)
  {
    s.nodes[x].member.log + Pending(Queue(s.consensus, leader, x)) + Owed(s.nodes[leader].client, x)
    == s.nodes[leader].member.log
  }

  ghost predicate LogsAgree(leader: int, s: System)
    requires IsNode(s, leader)
  {
    forall x {:trigger InStep(leader, s, x)} ::
      x in s.nodes[leader].alive && IsNode(s, x) && x != leader ==> InStep(leader, s, x)
  }

  /** What holds whether or not logs agree. */
  ghost predicate Base(leader: int, s: System) {
    && IsNode(s, leader)
    && Followers(leader, s)
    && Ownership(leader, |s.nodes|, s.nodes[leader])
    && Transfers(leader, s)
  }

  ghost predicate Inv(leader: int, s: System) {
    Base(leader, s) && LogsAgree(leader, s)
  }

  // ---------------------------------------------------------------------------
  // Steps that touch no channel and no log

  /** Nothing about STATE messages is forgotten from l to l', and no window opens. */
  ghost predicate Remembers(l: Node, l': Node) {
    && (forall id, x {:trigger Started(l', id, x)} :: Started(l, id, x) ==> Started(l', id, x))
    && (forall id, x {:trigger Window(l', id, x)} :: Window(l', id, x) ==> Window(l, id, x))
  }

  lemma FrameKeeps(leader: int, s: System, s': System)
    requires Base(leader, s)
    requires s'.consensus == s.consensus && s'.failure == s.failure && |s'.nodes| == |s.nodes|
    requires forall p {:trigger s'.nodes[p]} :: IsNode(s, p) ==>
               s'.nodes[p].member.log == s.nodes[p].member.log && (p != leader ==> Quiet(s'.nodes[p]))
    requires Ownership(leader, |s.nodes|, s'.nodes[leader])
    requires Remembers(s.nodes[leader], s'.nodes[leader])
    ensures Base(leader, s')
  {
    FrameFollowers(leader, s, s');
    forall id, x | Window(s'.nodes[leader], id, x) && IsNode(s', x)
      ensures TransferOk(leader, s', id, x)
    {
      assert TransferOk(leader, s, id, x);
    }
  }

  lemma FrameFollowers(leader: int, s: System, s': System)
    requires IsNode(s, leader) && Followers(leader, s)
    requires s'.consensus == s.consensus && s'.failure == s.failure && |s'.nodes| == |s.nodes|
    requires forall p {:trigger s'.nodes[p]} :: IsNode(s, p) && p != leader ==> Quiet(s'.nodes[p])
    requires forall id, x {:trigger Started(s'.nodes[leader], id, x)} ::
               Started(s.nodes[leader], id, x) ==> Started(s'.nodes[leader], id, x)
    ensures Followers(leader, s')
  {
    forall a, b, m | m in Queue(s'.failure, a, b)
      ensures FailureOk(leader, s'.nodes[leader], a, b, m)
    {
      assert FailureOk(leader, s.nodes[leader], a, b, m);
    }
  }

  /** Only a log write, its announcement and its sends change what is owed. */
  lemma LocalOwed(s: System, step: Step, x: int)
    requires Enabled(s, step) && LocalStep(step) && 0 <= x
    ensures Owed(Apply(s, step).nodes[step.p].client, x) == Owed(s.nodes[step.p].client, x)
  {
  }

  lemma LocalKeeps(leader: int, s: System, step: Step)
    requires Base(leader, s) && Stable(leader, s, step) && LocalStep(step)
    ensures Base(leader, Apply(s, step))
  {
    assert step.p != leader ==> Quiet(s.nodes[step.p]);
    LocalEffect(s, step);
    LocalFrame(leader, s, Apply(s, step), step.p);
  }

  lemma LocalFrame(leader: int, s: System, s': System, p: int)
    requires Base(leader, s) && IsNode(s, p)
    requires s'.consensus == s.consensus && s'.failure == s.failure && |s'.nodes| == |s.nodes|
    requires forall q {:trigger s'.nodes[q]} :: IsNode(s, q) && q != p ==> s'.nodes[q] == s.nodes[q]
    requires s'.nodes[p].member.log == s.nodes[p].member.log && SameThreads(s.nodes[p], s'.nodes[p])
    requires p != leader ==> !InRound(s'.nodes[p].client) && !s'.nodes[p].client.Replying?
    ensures Base(leader, s')
  {
    SameRecoveries(s.nodes[leader], s'.nodes[leader]);
    if p == leader {
      SameOwnership(leader, |s.nodes|, s.nodes[leader], s'.nodes[leader]);
    }
    FrameKeeps(leader, s, s');
  }

  lemma SuspectKeeps(leader: int, s: System, step: Step)
    requires Base(leader, s) && Stable(leader, s, step) && step.Suspect?
    ensures Base(leader, Apply(s, step))
  {
    SameRecoveries(s.nodes[leader], Apply(s, step).nodes[leader]);
    FrameKeeps(leader, s, Apply(s, step));
  }

  /** The steps of a recovery thread before and after its STATE. */
  lemma RecoveryKeeps(leader: int, s: System, step: Step)
    requires Base(leader, s) && Stable(leader, s, step)
    requires step.Spawn? || step.Publish? || step.LockWindow? || step.CloseWindow?
    ensures Base(leader, Apply(s, step))
  {
    assert step.p != leader ==> Quiet(s.nodes[step.p]);
    var s' := Apply(s, step);
    OwnershipStep(s, step, s', leader);
    RecoveryRemembers(s, step);
    assert s'.nodes == s.nodes[leader := s'.nodes[leader]];
    FrameKeeps(leader, s, s');
  }

  lemma RecoveryRemembers(s: System, step: Step)
    requires Enabled(s, step) && (step.Spawn? || step.Publish? || step.LockWindow? || step.CloseWindow?)
    ensures Remembers(s.nodes[step.p], Apply(s, step).nodes[step.p])
  {
    var l, l' := s.nodes[step.p], Apply(s, step).nodes[step.p];
    match step {
      case Spawn(_, other, thread, id) => SpawnRemembers(l, l', thread, id, other);
      case Publish(_, thread) => PhaseRemembers(l, l', thread, Published);
      case LockWindow(_, thread) => PhaseRemembers(l, l', thread, Locked);
      case CloseWindow(_, thread) => PhaseRemembers(l, l', thread, Closed);
    }
  }

  // ---------------------------------------------------------------------------
  // The log writes and the sends of the leader

  /** While the client thread holds the lock no window is open. */
  lemma NoWindow(leader: int, n: int, l: Node)
    requires Ownership(leader, n, l) && HoldsLock(l.client)
    ensures forall id, x {:trigger Window(l, id, x)} :: !Window(l, id, x)
  {
    forall id, x | Window(l, id, x)
      ensures false
    {
      OneWindow(leader, n, l, id, x, id, x);
    }
  }

  lemma AppendKeeps(leader: int, s: System, step: Step)
    requires Base(leader, s) && Stable(leader, s, step) && step.Append?
    ensures Base(leader, Apply(s, step))
  {
    var s' := Apply(s, step);
    var l, l' := s.nodes[leader], s'.nodes[leader];
    assert step.p == leader;
    SameRecoveries(l, l');
    assert Ownership(leader, |s.nodes|, l');
    FrameFollowers(leader, s, s');
    NoWindow(leader, |s.nodes|, l');
  }

  /** What a send of the leader's broadcast loop does to what followers are about to log. */
  lemma SendEffect(leader: int, s: System, s': System, x: int)
    requires SentNext(s, s', leader)
    requires x in s.nodes[leader].alive && IsNode(s, x) && x != leader
    ensures Pending(Queue(s'.consensus, leader, x)) + Owed(s'.nodes[leader].client, x)
            == Pending(Queue(s.consensus, leader, x)) + Owed(s.nodes[leader].client, x)
  {
    PendingAppend(Queue(s.consensus, leader, x), s.nodes[leader].client.message);
  }

  lemma SendKeeps(leader: int, s: System, step: Step)
    requires Base(leader, s) && Stable(leader, s, step) && step.SendNext?
    ensures Base(leader, Apply(s, step))
  {
    assert step.p == leader;
    SendChannels(s, leader);
    var s' := Apply(s, step);
    SendFollowers(leader, s, s');
    var l, l' := s.nodes[leader], s'.nodes[leader];
    SameRecoveries(l, l');
    assert Ownership(leader, |s.nodes|, l');
    NoWindow(leader, |s.nodes|, l');
  }

  lemma SendFollowers(leader: int, s: System, s': System)
    requires IsNode(s, leader) && Followers(leader, s) && s.nodes[leader].client.Broadcasting?
    requires s' == SendOne(s, leader)
    ensures Followers(leader, s')
  {
    SendChannels(s, leader);
    var l, l' := s.nodes[leader], s'.nodes[leader];
    SameRecoveries(l, l');
    forall a, b, m | m in Queue(s'.failure, a, b)
      ensures FailureOk(leader, l', a, b, m)
    {
      assert FailureOk(leader, l, a, b, m);
    }
  }

  lemma Regroup(a: seq<Value>, b: seq<Value>, c: seq<Value>)
    ensures a + b + c == a + (b + c)
  {
  }

  lemma TransferKeeps(leader: int, s: System, step: Step)
    requires Base(leader, s) && Stable(leader, s, step) && step.Transfer?
    ensures Base(leader, Apply(s, step))
  {
    assert step.p == leader;
    var s', thread := Apply(s, step), step.thread;
    assert s' == SendState(s, leader, thread);
    OwnershipStep(s, step, s', leader);
    TransferFollowers(leader, s, thread);
    TransferOpensWindow(leader, s, thread);
  }

  lemma TransferFollowers(leader: int, s: System, thread: nat)
    requires IsNode(s, leader) && Followers(leader, s) && Ownership(leader, |s.nodes|, s.nodes[leader])
    requires ThreadAt(s, leader, thread, Locked)
    ensures Followers(leader, SendState(s, leader, thread))
  {
    var s' := SendState(s, leader, thread);
    var l, l' := s.nodes[leader], s'.nodes[leader];
    PhaseRemembers(l, l', thread, Sent);
    var r := l.recoveries[thread];
    assert Started(l', r.id, r.target) by {
      assert l'.recoveries[thread] == Recovery(r.id, r.target, Sent);
    }
    forall a, b, m | m in Queue(s'.failure, a, b)
      ensures FailureOk(leader, l', a, b, m)
    {
      if m in Queue(s.failure, a, b) {
        assert FailureOk(leader, l, a, b, m);
      }
    }
  }

  lemma TransferOpensWindow(leader: int, s: System, thread: nat)
    requires IsNode(s, leader) && Followers(leader, s) && Ownership(leader, |s.nodes|, s.nodes[leader])
    requires ThreadAt(s, leader, thread, Locked)
    ensures Transfers(leader, SendState(s, leader, thread))
  {
    var s' := SendState(s, leader, thread);
    var l, l' := s.nodes[leader], s'.nodes[leader];
    var r := l.recoveries[thread];
    assert Window(l', r.id, r.target) by {
      assert l'.recoveries[thread] == Recovery(r.id, r.target, Sent);
    }
    FreshTransfer(leader, s, r.id, r.target);
    LastStateAppended(Queue(s.failure, leader, r.target), r.id, l.member.log, State(r.id, l.member.log));
    assert TransferOk(leader, s', r.id, r.target);
    forall id, x | Window(l', id, x)
      ensures id == r.id && x == r.target
    {
      OneWindow(leader, |s.nodes|, l', id, x, r.id, r.target);
    }
  }

  /** A recovery that has not sent its STATE has neither STATE nor STATE_UPDATED in flight. */
  lemma FreshTransfer(leader: int, s: System, id: int, x: int)
    requires IsNode(s, leader) && Followers(leader, s) && !Started(s.nodes[leader], id, x)
    ensures forall m :: m in Queue(s.failure, leader, x) && m.State? ==> m.id != id
    ensures StateUpdated(id) !in Queue(s.failure, x, leader)
  {
    forall m | m in Queue(s.failure, leader, x) && m.State?
      ensures m.id != id
    {
      assert FailureOk(leader, s.nodes[leader], leader, x, m);
    }
    assert StateUpdated(id) in Queue(s.failure, x, leader) ==>
        FailureOk(leader, s.nodes[leader], x, leader, StateUpdated(id));
  }

  // ---------------------------------------------------------------------------
  // Deliveries

  /** What the delivery of a consensus message means for the log: an ACCEPTED the receiver does not filter is
      appended, and no delivery puts an ACCEPTED on a channel. */
  ghost predicate LogDelivered(s: System, s': System, src: int, dst: int) {
    && IsNode(s, src) && IsNode(s, dst) && Queue(s.consensus, src, dst) != []
    && s'.failure == s.failure && |s'.nodes| == |s.nodes|
    && (forall p {:trigger s'.nodes[p]} :: IsNode(s, p) && p != dst ==> s'.nodes[p] == s.nodes[p])
    && var node, node', head := s.nodes[dst], s'.nodes[dst], Queue(s.consensus, src, dst)[0];
    && node'.client == node.client && node'.lock == node.lock && node'.alive == node.alive
    && node'.recoveries == node.recoveries && node'.curRecoveryId == node.curRecoveryId
    && node'.member.log == node.member.log + (if head.Accepted? && src in node.alive then [head.value] else [])
    && (forall a, b {:trigger Queue(s'.consensus, a, b)} ::
          Pending(Queue(s'.consensus, a, b)) == Pending(Popped(s.consensus, src, dst, a, b)))
    && (forall a, b, m {:trigger m in Queue(s'.consensus, a, b)} ::
          m in Queue(s'.consensus, a, b) && m.Accepted? ==> m in Queue(s.consensus, a, b))
  }

  lemma LogEffect(s: System, s': System, src: int, dst: int)
    requires Delivered(s, s', src, dst)
    ensures LogDelivered(s, s', src, dst)
  {
    var (node, reply) := Outcome(s.nodes[dst], src, Queue(s.consensus, src, dst)[0]);
    OutcomeLog(s.nodes[dst], src, Queue(s.consensus, src, dst)[0]);
    forall a, b
      ensures Pending(Queue(s'.consensus, a, b)) == Pending(Popped(s.consensus, src, dst, a, b))
      ensures forall m :: m in Queue(s'.consensus, a, b) && m.Accepted? ==> m in Queue(s.consensus, a, b)
    {
      if reply.Some? {
        PendingAppend(Popped(s.consensus, src, dst, a, b), reply.value);
      }
      assert forall m :: m in Popped(s.consensus, src, dst, a, b) ==> m in Queue(s.consensus, a, b);
    }
  }

  lemma DeliverConsensusKeeps(leader: int, s: System, step: Step)
    requires Base(leader, s) && Stable(leader, s, step) && step.DeliverConsensus?
    ensures Base(leader, Apply(s, step))
  {
    DeliveryEffect(s, step.src, step.dst);
    LogEffect(s, Apply(s, step), step.src, step.dst);
    LogDeliveredKeeps(leader, s, Apply(s, step), step.src, step.dst);
  }

  lemma LogDeliveredKeeps(leader: int, s: System, s': System, src: int, dst: int)
    requires Base(leader, s) && LogDelivered(s, s', src, dst)
    ensures Base(leader, s')
  {
    LogDeliveredFollowers(leader, s, s', src, dst);
    SameRecoveries(s.nodes[leader], s'.nodes[leader]);
    assert Ownership(leader, |s.nodes|, s'.nodes[leader]);
    forall id, x | Window(s'.nodes[leader], id, x) && IsNode(s', x)
      ensures TransferOk(leader, s', id, x)
    {
      assert TransferOk(leader, s, id, x);
      LogDeliveredTransfer(leader, s, s', src, dst, id, x);
    }
  }

  lemma LogDeliveredFollowers(leader: int, s: System, s': System, src: int, dst: int)
    requires IsNode(s, leader) && Followers(leader, s) && LogDelivered(s, s', src, dst)
    ensures Followers(leader, s')
    ensures s'.nodes[leader].member.log == s.nodes[leader].member.log
  {
    var head := Queue(s.consensus, src, dst)[0];
    assert head in Queue(s.consensus, src, dst);
    SameRecoveries(s.nodes[leader], s'.nodes[leader]);
    forall a, b, m | m in Queue(s'.failure, a, b)
      ensures FailureOk(leader, s'.nodes[leader], a, b, m)
    {
      assert FailureOk(leader, s.nodes[leader], a, b, m);
    }
  }

  lemma LogDeliveredTransfer(leader: int, s: System, s': System, src: int, dst: int, id: int, x: int)
    requires IsNode(s, leader) && IsNode(s, x) && Followers(leader, s) && LogDelivered(s, s', src, dst)
    requires s'.nodes[leader].member.log == s.nodes[leader].member.log
    requires TransferOk(leader, s, id, x)
    ensures TransferOk(leader, s', id, x)
  {
    var q, head := Queue(s.consensus, leader, x), Queue(s.consensus, src, dst)[0];
    assert head in Queue(s.consensus, src, dst);
    if Pending(q) == [] && q != [] {
      assert !q[0].Accepted?;
      assert Pending(q) == [] + Pending(q[1..]);
    }
  }

  lemma LogDeliveredInStep(leader: int, s: System, s': System, src: int, dst: int, x: int)
    requires IsNode(s, leader) && Followers(leader, s) && LogDelivered(s, s', src, dst)
    requires s'.nodes[leader].member.log == s.nodes[leader].member.log
    requires s'.nodes[leader].client == s.nodes[leader].client
    requires IsNode(s, x) && x != leader && InStep(leader, s, x)
    requires src == leader && dst == x ==> leader in s.nodes[x].alive
    ensures InStep(leader, s', x)
  {
    var q, head := Queue(s.consensus, leader, x), Queue(s.consensus, src, dst)[0];
    assert head in Queue(s.consensus, src, dst);
    if src == leader && dst == x {
      assert Pending(q) == (if q[0].Accepted? then [q[0].value] else []) + Pending(q[1..]);
      assert s'.nodes[x].member.log + Pending(q[1..]) == s.nodes[x].member.log + Pending(q);
    } else {
      assert s'.nodes[x].member.log == s.nodes[x].member.log;
    }
  }

  lemma DeliverFailureKeeps(leader: int, s: System, step: Step)
    requires Base(leader, s) && Stable(leader, s, step) && step.DeliverFailure?
    ensures Base(leader, Apply(s, step))
  {
    var m := Queue(s.failure, step.src, step.dst)[0];
    assert m in Queue(s.failure, step.src, step.dst);
    assert FailureOk(leader, s.nodes[leader], step.src, step.dst, m);
    match m
    case Ping => PlainKeeps(leader, s, step);
    case State(_, _) => StateKeeps(leader, s, step);
    case StateUpdated(_) => StateUpdatedKeeps(leader, s, step);
    case Recovered(_) => PlainKeeps(leader, s, step);
  }

  /** Taking the head off a failure channel, and letting followers trust more nodes. */
  ghost predicate JustPopped(leader: int, s: System, s': System, src: int, dst: int) {
    && IsNode(s, leader) && Queue(s.failure, src, dst) != []
    && s'.consensus == s.consensus && |s'.nodes| == |s.nodes| && s'.nodes[leader] == s.nodes[leader]
    && (forall p {:trigger s'.nodes[p]} :: IsNode(s, p) ==> s'.nodes[p] == s.nodes[p].(alive := s'.nodes[p].alive))
    && (forall a, b {:trigger Queue(s'.failure, a, b)} :: Queue(s'.failure, a, b) == Popped(s.failure, src, dst, a, b))
  }

  lemma PoppedKeeps(leader: int, s: System, s': System, src: int, dst: int)
    requires Base(leader, s) && JustPopped(leader, s, s', src, dst)
    ensures Base(leader, s')
  {
    forall a, b, m | m in Queue(s'.failure, a, b)
      ensures FailureOk(leader, s'.nodes[leader], a, b, m)
    {
      assert m in Queue(s.failure, a, b);
      assert FailureOk(leader, s.nodes[leader], a, b, m);
    }
    assert Followers(leader, s') by {
      assert forall p {:trigger s'.nodes[p]} :: IsNode(s, p) && p != leader ==> Quiet(s.nodes[p]) && Quiet(s'.nodes[p]);
    }
    forall id, x | Window(s'.nodes[leader], id, x) && IsNode(s', x)
      ensures TransferOk(leader, s', id, x)
    {
      assert TransferOk(leader, s, id, x);
      PoppedTransfer(leader, s, s', src, dst, id, x);
    }
  }

  lemma PoppedTransfer(leader: int, s: System, s': System, src: int, dst: int, id: int, x: int)
    requires IsNode(s, leader) && IsNode(s, x) && JustPopped(leader, s, s', src, dst) && TransferOk(leader, s, id, x)
    ensures TransferOk(leader, s', id, x)
  {
    assert s'.nodes[x].member == s.nodes[x].member;
    if src == leader && dst == x {
      LastStatePopped(Queue(s.failure, leader, x), id, s.nodes[leader].member.log);
    }
  }

  /** PING, and RECOVERED, which only ever reaches followers. */
  lemma PlainKeeps(leader: int, s: System, step: Step)
    requires Base(leader, s) && Stable(leader, s, step) && step.DeliverFailure?
    requires !Queue(s.failure, step.src, step.dst)[0].State? && !Queue(s.failure, step.src, step.dst)[0].StateUpdated?
    requires Queue(s.failure, step.src, step.dst)[0].Recovered? ==> step.dst != leader
    ensures Base(leader, Apply(s, step))
  {
    assert JustPopped(leader, s, Apply(s, step), step.src, step.dst);
    PoppedKeeps(leader, s, Apply(s, step), step.src, step.dst);
  }

  /** STATE at a follower: its log becomes the one carried, and STATE_UPDATED goes back. */
  ghost predicate StateHandled(leader: int, s: System, s': System, x: int) {
    && IsNode(s, leader) && IsNode(s, x) && x != leader
    && Queue(s.failure, leader, x) != [] && Queue(s.failure, leader, x)[0].State?
    && s'.consensus == s.consensus && |s'.nodes| == |s.nodes|
    && var head := Queue(s.failure, leader, x)[0];
    && (forall p {:trigger s'.nodes[p]} :: IsNode(s, p) && p != x ==> s'.nodes[p] == s.nodes[p])
    && s'.nodes[x] == s.nodes[x].(member := s.nodes[x].member.(log := head.log))
    && (forall a, b {:trigger Queue(s'.failure, a, b)} ::
          Queue(s'.failure, a, b) ==
            if a == x && b == leader then Queue(s.failure, a, b) + [StateUpdated(head.id)]
            else if a == leader && b == x then Queue(s.failure, a, b)[1..]
            else Queue(s.failure, a, b))
  }

  lemma StateKeeps(leader: int, s: System, step: Step)
    requires Base(leader, s) && Stable(leader, s, step) && step.DeliverFailure?
    requires Queue(s.failure, step.src, step.dst)[0].State? && step.src == leader && step.dst != leader
    ensures Base(leader, Apply(s, step))
  {
    assert StateHandled(leader, s, Apply(s, step), step.dst);
    StateHandledKeeps(leader, s, Apply(s, step), step.dst);
  }

  lemma StateHandledKeeps(leader: int, s: System, s': System, x: int)
    requires Base(leader, s) && StateHandled(leader, s, s', x)
    requires Pending(Queue(s.consensus, leader, x)) == []
    ensures Base(leader, s')
  {
    StateFollowers(leader, s, s', x);
    forall id, y | Window(s'.nodes[leader], id, y) && IsNode(s', y)
      ensures TransferOk(leader, s', id, y)
    {
      assert TransferOk(leader, s, id, y);
      if y == x {
        StateTransfer(leader, s, s', x, id);
      }
    }
  }

  lemma StateFollowers(leader: int, s: System, s': System, x: int)
    requires IsNode(s, leader) && Followers(leader, s) && StateHandled(leader, s, s', x)
    ensures Followers(leader, s')
  {
    var head := Queue(s.failure, leader, x)[0];
    assert head in Queue(s.failure, leader, x);
    assert FailureOk(leader, s.nodes[leader], leader, x, head);
    assert Quiet(s.nodes[x]);
    forall a, b, m | m in Queue(s'.failure, a, b)
      ensures FailureOk(leader, s'.nodes[leader], a, b, m)
    {
      if m in Queue(s.failure, a, b) {
        assert FailureOk(leader, s.nodes[leader], a, b, m);
      }
    }
  }

  lemma StateTransfer(leader: int, s: System, s': System, x: int, id: int)
    requires IsNode(s, leader) && StateHandled(leader, s, s', x) && TransferOk(leader, s, id, x)
    requires Pending(Queue(s.consensus, leader, x)) == []
    ensures TransferOk(leader, s', id, x)
  {
    var toX := Queue(s.failure, leader, x);
    assert toX[0] in toX;
    LastStatePopped(toX, id, s.nodes[leader].member.log);
  }

  /** STATE_UPDATED, honoured or not. */
  lemma StateUpdatedKeeps(leader: int, s: System, step: Step)
    requires Base(leader, s) && Stable(leader, s, step) && step.DeliverFailure?
    requires Queue(s.failure, step.src, step.dst)[0].StateUpdated? && step.src != leader && step.dst == leader
    ensures Base(leader, Apply(s, step))
  {
    var x, id := step.src, Queue(s.failure, step.src, step.dst)[0].recoveryId;
    var popped := s.(failure := Dequeue(s.failure, x, leader));
    PoppedKeeps(leader, s, popped, x, leader);
    if s.nodes[leader].curRecoveryId == id && s.nodes[leader].leaderId == leader {
      RecoveredKeeps(leader, popped, Apply(s, step), x);
    } else {
      assert Apply(s, step) == popped;
    }
  }

  /** When STATE_UPDATED is honoured the recovered node has exactly the leader's log. */
  lemma HonouredInStep(leader: int, s: System, x: int, id: int)
    requires Base(leader, s) && IsNode(s, x) && x != leader
    requires s.nodes[leader].curRecoveryId == id && StateUpdated(id) in Queue(s.failure, x, leader)
    ensures s.nodes[x].member.log == s.nodes[leader].member.log
    ensures InStep(leader, s, x)
  {
    var l := s.nodes[leader];
    assert FailureOk(leader, l, x, leader, StateUpdated(id));
    CurrentAndStarted(leader, |s.nodes|, l, x);
    assert TransferOk(leader, s, id, x);
    assert Owed(l.client, x) == [];
  }

  ghost predicate Announced(leader: int, s: System, s': System, x: int) {
    && IsNode(s, leader)
    && s' == Put(s, leader, s.nodes[leader].(alive := s.nodes[leader].alive + {x}))
             .(failure := EnqueueAll(s.failure, leader, |s.nodes|, Recovered(x)))
  }

  /** Announcing a recovery. */
  lemma RecoveredKeeps(leader: int, s: System, s': System, x: int)
    requires Base(leader, s) && IsNode(s, x) && x != leader && Announced(leader, s, s', x)
    ensures Base(leader, s')
  {
    SameRecoveries(s.nodes[leader], s'.nodes[leader]);
    assert Ownership(leader, |s.nodes|, s'.nodes[leader]);
    RecoveredFollowers(leader, s, s', x);
    forall id, y | Window(s'.nodes[leader], id, y) && IsNode(s', y)
      ensures TransferOk(leader, s', id, y)
    {
      assert TransferOk(leader, s, id, y);
      OneWindow(leader, |s.nodes|, s.nodes[leader], id, y, id, y);
      RecoveredTransfer(leader, s, s', x, id, y);
    }
  }

  lemma RecoveredTransfer(leader: int, s: System, s': System, x: int, id: int, y: int)
    requires IsNode(s, y) && y != leader && Announced(leader, s, s', x) && TransferOk(leader, s, id, y)
    ensures TransferOk(leader, s', id, y)
  {
    LastStateAppended(Queue(s.failure, leader, y), id, s.nodes[leader].member.log, Recovered(x));
  }

  lemma RecoveredFollowers(leader: int, s: System, s': System, x: int)
    requires IsNode(s, leader) && Followers(leader, s) && Announced(leader, s, s', x)
    ensures Followers(leader, s')
  {
    SameRecoveries(s.nodes[leader], s'.nodes[leader]);
    forall a, b, m | m in Queue(s'.failure, a, b)
      ensures FailureOk(leader, s'.nodes[leader], a, b, m)
    {
      if m in Queue(s.failure, a, b) {
        assert FailureOk(leader, s.nodes[leader], a, b, m);
      } else {
        assert m == Recovered(x) && a == leader && b != leader;
      }
    }
  }

  lemma BaseStep(leader: int, s: System, step: Step, s': System)
    requires Base(leader, s) && Stable(leader, s, step) && s' == Apply(s, step)
    ensures Base(leader, s')
  {
    match step
    case SendNext(_) => SendKeeps(leader, s, step);
    case Append(_) => AppendKeeps(leader, s, step);
    case DeliverConsensus(_, _) => DeliverConsensusKeeps(leader, s, step);
    case DeliverFailure(_, _) => DeliverFailureKeeps(leader, s, step);
    case Suspect(_, _) => SuspectKeeps(leader, s, step);
    case Transfer(_, _) => TransferKeeps(leader, s, step);
    case Spawn(_, _, _, _) => RecoveryKeeps(leader, s, step);
    case Publish(_, _) => RecoveryKeeps(leader, s, step);
    case LockWindow(_, _) => RecoveryKeeps(leader, s, step);
    case CloseWindow(_, _) => RecoveryKeeps(leader, s, step);
    case _ => LocalKeeps(leader, s, step);
  }

  // ---------------------------------------------------------------------------
  // The log of one node

  lemma AppendInStep(leader: int, s: System, step: Step, x: int)
    requires Base(leader, s) && Stable(leader, s, step) && step.Append? && IsNode(s, x) && x != leader
             && InStep(leader, s, x)
    ensures IsNode(Apply(s, step), leader) && IsNode(Apply(s, step), x) && InStep(leader, Apply(s, step), x)
  {
    assert step.p == leader;
    assert Apply(s, step).nodes[x] == s.nodes[x];
  }

  lemma SendInStep(leader: int, s: System, step: Step, x: int)
    requires Base(leader, s) && Stable(leader, s, step) && step.SendNext?
    requires IsNode(s, x) && x != leader && x in s.nodes[leader].alive && InStep(leader, s, x)
    ensures IsNode(Apply(s, step), leader) && IsNode(Apply(s, step), x) && InStep(leader, Apply(s, step), x)
  {
    assert step.p == leader;
    var s' := Apply(s, step);
    SendChannels(s, leader);
    SendEffect(leader, s, s', x);
    assert s'.nodes[x] == s.nodes[x];
    Regroup(s.nodes[x].member.log, Pending(Queue(s.consensus, leader, x)), Owed(s.nodes[leader].client, x));
    Regroup(s.nodes[x].member.log, Pending(Queue(s'.consensus, leader, x)), Owed(s'.nodes[leader].client, x));
  }

  /** The failure manager's own steps leave logs, client threads and consensus channels alone. */
  lemma ThreadEffect(s: System, step: Step)
    requires Enabled(s, step) && (step.Suspect? || step.Spawn? || step.Publish? || step.LockWindow? || step.Transfer?
                                  || step.CloseWindow?)
    ensures var s', node, node' := Apply(s, step), s.nodes[step.p], Apply(s, step).nodes[step.p];
      && s'.consensus == s.consensus && s'.nodes == s.nodes[step.p := node']
      && node'.member == node.member && node'.client == node.client && node'.alive <= node.alive
  {
  }

  /** Every other step than a log write, a send or a delivery. */
  lemma LocalInStep(leader: int, s: System, step: Step, x: int)
    requires Base(leader, s) && Stable(leader, s, step) && IsNode(s, x) && x != leader
    requires !step.Append? && !step.SendNext? && !step.DeliverConsensus? && !step.DeliverFailure?
    ensures var s' := Apply(s, step);
            IsNode(s', leader) && IsNode(s', x) && (InStep(leader, s', x) <==> InStep(leader, s, x))
            && s'.nodes[leader].alive <= s.nodes[leader].alive
  {
    if LocalStep(step) {
      assert step.p != leader ==> Quiet(s.nodes[step.p]);
      LocalEffect(s, step);
      LocalOwed(s, step, x);
    } else {
      ThreadEffect(s, step);
    }
    SameInStep(leader, s, Apply(s, step), x);
  }

  lemma SameInStep(leader: int, s: System, s': System, x: int)
    requires IsNode(s, leader) && IsNode(s, x) && |s'.nodes| == |s.nodes| && s'.consensus == s.consensus
    requires s'.nodes[leader].member.log == s.nodes[leader].member.log
             && s'.nodes[x].member.log == s.nodes[x].member.log
    requires Owed(s'.nodes[leader].client, x) == Owed(s.nodes[leader].client, x)
    ensures InStep(leader, s', x) <==> InStep(leader, s, x)
  {
  }

  /** A failure message other than STATE: nobody's log changes, and a node that becomes alive has the leader's. */
  lemma FailureInStep(leader: int, s: System, step: Step, x: int)
    requires Base(leader, s) && Stable(leader, s, step) && step.DeliverFailure? && IsNode(s, x) && x != leader
    requires !Queue(s.failure, step.src, step.dst)[0].State?
    ensures var s' := Apply(s, step);
            IsNode(s', leader) && IsNode(s', x) && (InStep(leader, s', x) <==> InStep(leader, s, x))
    ensures x in Apply(s, step).nodes[leader].alive && x !in s.nodes[leader].alive ==> InStep(leader, s, x)
  {
    var m := Queue(s.failure, step.src, step.dst)[0];
    assert m in Queue(s.failure, step.src, step.dst);
    assert FailureOk(leader, s.nodes[leader], step.src, step.dst, m);
    var s' := Apply(s, step);
    assert s'.consensus == s.consensus;
    if m.StateUpdated? && s.nodes[leader].curRecoveryId == m.recoveryId && step.src == x {
      HonouredInStep(leader, s, x, m.recoveryId);
    }
  }

  lemma StateInStep(leader: int, s: System, step: Step, x: int)
    requires Base(leader, s) && Stable(leader, s, step) && step.DeliverFailure? && IsNode(s, x) && x != leader
    requires Queue(s.failure, step.src, step.dst)[0].State?
    ensures var s' := Apply(s, step);
            IsNode(s', leader) && IsNode(s', x) && s'.nodes[leader].alive == s.nodes[leader].alive
    ensures x != step.dst ==> (InStep(leader, Apply(s, step), x) <==> InStep(leader, s, x))
    ensures x == step.dst && x in s.nodes[leader].alive ==>
              (InStep(leader, Apply(s, step), x) <==> StillCurrent(leader, s, step))
  {
    var m := Queue(s.failure, step.src, step.dst)[0];
    assert m in Queue(s.failure, step.src, step.dst);
    assert FailureOk(leader, s.nodes[leader], step.src, step.dst, m);
    assert StateHandled(leader, s, Apply(s, step), step.dst);
    Regroup(m.log, [], Owed(s.nodes[leader].client, step.dst));
  }

  lemma ConsensusInStep(leader: int, s: System, step: Step, x: int)
    requires Base(leader, s) && Trusted(leader, s, step) && step.DeliverConsensus? && IsNode(s, x) && x != leader
    requires x in s.nodes[leader].alive && InStep(leader, s, x)
    ensures IsNode(Apply(s, step), leader) && IsNode(Apply(s, step), x) && InStep(leader, Apply(s, step), x)
    ensures Apply(s, step).nodes[leader].alive == s.nodes[leader].alive
  {
    var s' := Apply(s, step);
    DeliveryEffect(s, step.src, step.dst);
    LogEffect(s, s', step.src, step.dst);
    LogDeliveredFollowers(leader, s, s', step.src, step.dst);
    LogDeliveredInStep(leader, s, s', step.src, step.dst, x);
  }

  /** One node that is alive after a step: it is in step, if it was before and no STATE that is no longer current
      reaches it. */
  lemma InStepStep(leader: int, s: System, step: Step, s': System, x: int)
    requires Base(leader, s) && Trusted(leader, s, step) && s' == Apply(s, step) && StillCurrent(leader, s, step)
    requires IsNode(s, x) && x != leader && (x in s.nodes[leader].alive ==> InStep(leader, s, x))
    ensures IsNode(s', leader) && IsNode(s', x) && (x in s'.nodes[leader].alive ==> InStep(leader, s', x))
  {
    SizeIsFixed(s, step);
    if x in s'.nodes[leader].alive {
      if step.DeliverFailure? {
        if Queue(s.failure, step.src, step.dst)[0].State? {
          StateInStep(leader, s, step, x);
        } else {
          FailureInStep(leader, s, step, x);
        }
      } else {
        AliveBefore(leader, s, step, x);
        if step.Append? {
          AppendInStep(leader, s, step, x);
        } else if step.SendNext? {
          SendInStep(leader, s, step, x);
        } else if step.DeliverConsensus? {
          ConsensusInStep(leader, s, step, x);
        } else {
          LocalInStep(leader, s, step, x);
        }
      }
    }
  }

  /** Only failure messages make a node alive. */
  lemma AliveBefore(leader: int, s: System, step: Step, x: int)
    requires Enabled(s, step) && IsNode(s, leader) && !step.DeliverFailure?
    ensures IsNode(Apply(s, step), leader) && (x in Apply(s, step).nodes[leader].alive ==> x in s.nodes[leader].alive)
  {
    if step.DeliverConsensus? {
      DeliveryEffect(s, step.src, step.dst);
      OutcomeLog(s.nodes[step.dst], step.src, Queue(s.consensus, step.src, step.dst)[0]);
    } else if step.SendNext? {
      SendChannels(s, step.p);
    } else if IsClientStep(step) {
      ClientEffect(s, step);
      ClientAlive(s, step);
    } else if !step.Elect? {
      ThreadEffect(s, step);
    }
  }

  lemma ClientAlive(s: System, step: Step)
    requires Enabled(s, step) && IsClientStep(step) && !step.SendNext?
    ensures Apply(s, step).nodes[step.p].alive == s.nodes[step.p].alive
  {
  }

  /** The invariant survives a step if and only if the step is not the delivery, to a node counted as alive, of a
      STATE that is no longer current. */
  lemma InvStepIff(leader: int, s: System, step: Step, s': System)
    requires Inv(leader, s) && Trusted(leader, s, step) && s' == Apply(s, step)
    ensures Inv(leader, s') <==> StillCurrent(leader, s, step)
  {
    BaseStep(leader, s, step, s');
    if StillCurrent(leader, s, step) {
      forall x | x in s'.nodes[leader].alive && IsNode(s', x) && x != leader
        ensures InStep(leader, s', x)
      {
        SizeIsFixed(s, step);
        assert x in s.nodes[leader].alive ==> InStep(leader, s, x);
        InStepStep(leader, s, step, s', x);
      }
    } else {
      StateDestination(leader, s, step);
      StateInStep(leader, s, step, step.dst);
      assert !InStep(leader, s', step.dst);
    }
  }

  lemma StateDestination(leader: int, s: System, step: Step)
    requires Base(leader, s) && Enabled(s, step) && step.DeliverFailure?
             && Queue(s.failure, step.src, step.dst)[0].State?
    ensures step.src == leader && step.dst != leader && IsNode(s, step.dst)
  {
    var m := Queue(s.failure, step.src, step.dst)[0];
    assert m in Queue(s.failure, step.src, step.dst);
    assert FailureOk(leader, s.nodes[leader], step.src, step.dst, m);
  }

  /** Inside its window a STATE is current: nothing was logged since it was sent, and nothing is owed. */
  lemma TimelyIsCurrent(leader: int, s: System, step: Step)
    requires Base(leader, s) && Enabled(s, step) && Timely(leader, s, step)
    ensures StillCurrent(leader, s, step)
  {
    if step.DeliverFailure? && step.src == leader && Queue(s.failure, leader, step.dst)[0].State?
       && step.dst in s.nodes[leader].alive {
      var head := Queue(s.failure, leader, step.dst)[0];
      assert head in Queue(s.failure, leader, step.dst);
      assert TransferOk(leader, s, head.id, step.dst);
      OneWindow(leader, |s.nodes|, s.nodes[leader], head.id, step.dst, head.id, step.dst);
      assert Owed(s.nodes[leader].client, step.dst) == [];
    }
  }

  // ---------------------------------------------------------------------------
  // Whole runs

  ghost predicate StableAt(leader: int, states: seq<System>, steps: seq<Step>, i: int)
    requires |states| == |steps| + 1 && 0 <= i < |steps|
  {
    Stable(leader, states[i], steps[i])
  }

  ghost predicate StableRun(leader: int, states: seq<System>, steps: seq<Step>) {
    && IsRun(states, steps)
    && IsNode(states[0], leader)
    && forall i {:trigger StableAt(leader, states, steps, i)} :: 0 <= i < |steps| ==> StableAt(leader, states, steps, i)
  }

  lemma {:induction false} BaseHolds(leader: int, states: seq<System>, steps: seq<Step>, k: nat)
    requires StableRun(leader, states, steps) && k < |states|
    ensures Base(leader, states[k])
  {
    if k == 0 {
      InvStarts(leader, states[0]);
    } else {
      BaseHolds(leader, states, steps, k - 1);
      RunStep(states, steps, k - 1);
      assert StableAt(leader, states, steps, k - 1);
      BaseStep(leader, states[k - 1], steps[k - 1], states[k]);
    }
  }

  lemma InvStarts(leader: int, s: System)
    requires Initial(s) && IsNode(s, leader)
    ensures Inv(leader, s)
  {
    forall p | IsNode(s, p)
      ensures s.nodes[p] == InitialNode(|s.nodes|, p).(leaderId := s.nodes[p].leaderId)
    {
    }
  }

  /** In every run under a stable leader, however late its STATE messages are and whomever its followers suspect:
      whenever STATE_UPDATED is honoured, the log of the node it comes from is exactly the leader's current log, and
      no round runs. The node may be marked alive already, as when two recoveries of it overlap. */
  lemma HonouredIsCurrent(leader: int, states: seq<System>, steps: seq<Step>, k: nat, x: int)
    requires StableRun(leader, states, steps) && k < |steps| && steps[k] == DeliverFailure(x, leader)
    requires IsNode(states[k], leader) && Queue(states[k].failure, x, leader) != []
    requires Queue(states[k].failure, x, leader)[0].StateUpdated?
    requires Honours(states[k].nodes[leader], leader, Queue(states[k].failure, x, leader)[0].recoveryId)
    ensures IsNode(states[k], x) && x != leader
    ensures IsNode(states[k + 1], leader) && x in states[k + 1].nodes[leader].alive
    ensures states[k].nodes[x].member.log == states[k].nodes[leader].member.log
    ensures states[k + 1].nodes[leader].member.log == states[k].nodes[leader].member.log
    ensures !InRound(states[k].nodes[leader].client)
  {
    var s := states[k];
    BaseHolds(leader, states, steps, k);
    RunStep(states, steps, k);
    var m := Queue(s.failure, x, leader)[0];
    assert m in Queue(s.failure, x, leader);
    assert FailureOk(leader, s.nodes[leader], x, leader, m);
    HonouredInStep(leader, s, x, m.recoveryId);
  }

  ghost predicate TrustedAt(leader: int, states: seq<System>, steps: seq<Step>, i: int)
    requires |states| == |steps| + 1 && 0 <= i < |steps|
  {
    Trusted(leader, states[i], steps[i])
  }

  /** A run under a stable leader whom no live follower suspects. */
  ghost predicate TrustedRun(leader: int, states: seq<System>, steps: seq<Step>) {
    && StableRun(leader, states, steps)
    && forall i {:trigger TrustedAt(leader, states, steps, i)} ::
         0 <= i < |steps| ==> TrustedAt(leader, states, steps, i)
  }

  ghost predicate CurrentAt(leader: int, states: seq<System>, steps: seq<Step>, i: int)
    requires |states| == |steps| + 1 && 0 <= i < |steps|
  {
    Enabled(states[i], steps[i]) && IsNode(states[i], leader) && StillCurrent(leader, states[i], steps[i])
  }

  /** No STATE that is no longer current reached a node counted as alive before step k. */
  ghost predicate CurrentSoFar(leader: int, states: seq<System>, steps: seq<Step>, k: int)
    requires |states| == |steps| + 1 && 0 <= k <= |steps|
  {
    forall i {:trigger CurrentAt(leader, states, steps, i)} :: 0 <= i < k ==> CurrentAt(leader, states, steps, i)
  }

  ghost predicate AgreeAt(leader: int, states: seq<System>, i: int)
    requires 0 <= i < |states|
  {
    IsNode(states[i], leader) && LogsAgree(leader, states[i])
  }

  lemma {:induction false} InvHolds(leader: int, states: seq<System>, steps: seq<Step>, k: nat)
    requires TrustedRun(leader, states, steps) && k < |states| && CurrentSoFar(leader, states, steps, k)
    ensures Inv(leader, states[k])
  {
    if k == 0 {
      InvStarts(leader, states[0]);
    } else {
      InvHolds(leader, states, steps, k - 1);
      RunStep(states, steps, k - 1);
      assert TrustedAt(leader, states, steps, k - 1) && CurrentAt(leader, states, steps, k - 1);
      InvStepIff(leader, states[k - 1], steps[k - 1], states[k]);
    }
  }

  /** Exactly when the replicated log holds: in a run under a stable, trusted leader, the log of each node it counts
      as alive, followed by the ACCEPTED values queued to it and the one its broadcast loop still owes it, is the
      leader's log in every state up to k, if and only if every STATE that reached such a node before was still
      current. */
  lemma {:induction false} ReplicatedLogIff(leader: int, states: seq<System>, steps: seq<Step>, k: nat)
    requires TrustedRun(leader, states, steps) && k < |states|
    ensures (forall i {:trigger AgreeAt(leader, states, i)} :: 0 <= i <= k ==> AgreeAt(leader, states, i))
            <==> CurrentSoFar(leader, states, steps, k)
  {
    if CurrentSoFar(leader, states, steps, k) {
      forall i | 0 <= i <= k ensures AgreeAt(leader, states, i) {
        InvHolds(leader, states, steps, i);
      }
    }
    if forall i {:trigger AgreeAt(leader, states, i)} :: 0 <= i <= k ==> AgreeAt(leader, states, i) {
      forall i | 0 <= i < k ensures CurrentAt(leader, states, steps, i) {
        assert AgreeAt(leader, states, i) && AgreeAt(leader, states, i + 1);
        AgreementIsCurrent(leader, states, steps, i);
      }
    }
  }

  lemma AgreementIsCurrent(leader: int, states: seq<System>, steps: seq<Step>, i: nat)
    requires TrustedRun(leader, states, steps) && i < |steps| && AgreeAt(leader, states, i)
             && AgreeAt(leader, states, i + 1)
    ensures CurrentAt(leader, states, steps, i)
  {
    BaseHolds(leader, states, steps, i);
    BaseHolds(leader, states, steps, i + 1);
    RunStep(states, steps, i);
    assert TrustedAt(leader, states, steps, i);
    InvStepIff(leader, states[i], steps[i], states[i + 1]);
  }

  ghost predicate TimelyAt(leader: int, states: seq<System>, steps: seq<Step>, i: int)
    requires |states| == |steps| + 1 && 0 <= i < |steps|
  {
    Enabled(states[i], steps[i]) && IsNode(states[i], leader) && Timely(leader, states[i], steps[i])
  }

  /** A run under a stable leader whose STATE messages stay within their windows. */
  ghost predicate TimelyRun(leader: int, states: seq<System>, steps: seq<Step>) {
    && TrustedRun(leader, states, steps)
    && forall i {:trigger TimelyAt(leader, states, steps, i)} :: 0 <= i < |steps| ==> TimelyAt(leader, states, steps, i)
  }

  lemma {:induction false} TimelyStaysCurrent(leader: int, states: seq<System>, steps: seq<Step>, k: nat)
    requires TimelyRun(leader, states, steps) && k <= |steps|
    ensures CurrentSoFar(leader, states, steps, k)
  {
    forall i | 0 <= i < k ensures CurrentAt(leader, states, steps, i) {
      BaseHolds(leader, states, steps, i);
      assert TimelyAt(leader, states, steps, i);
      TimelyIsCurrent(leader, states[i], steps[i]);
    }
  }

  /** The windows of recovery are enough: with timely STATE messages the replicated log holds in every state. */
  lemma ReplicatedLog(leader: int, states: seq<System>, steps: seq<Step>, k: nat, x: int)
    requires TimelyRun(leader, states, steps) && k < |states|
    requires IsNode(states[k], x) && x != leader && IsNode(states[k], leader) && x in states[k].nodes[leader].alive
    ensures states[k].nodes[x].member.log + Pending(Queue(states[k].consensus, leader, x))
            + Owed(states[k].nodes[leader].client, x)
            == states[k].nodes[leader].member.log
  {
    TimelyStaysCurrent(leader, states, steps, k);
    InvHolds(leader, states, steps, k);
    assert InStep(leader, states[k], x);
  }
}

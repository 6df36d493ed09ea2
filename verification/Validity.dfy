/** Where logged values come from, and what acknowledging a value to a client means. */
module Validity {
  import opened Messages
  import opened Consensus
  import opened Cluster
  import RecoveryLock
  import Replication

  // ---------------------------------------------------------------------------
  // Every run: logs hold only values that were given to startConsensus

  ghost predicate Given(log: seq<Value>, submitted: set<Value>) {
    forall v :: v in log ==> v in submitted
  }

  ghost predicate PcGiven(pc: ClientPc, submitted: set<Value>) {
    && (InRound(pc) ==> pc.value in submitted)
    && (pc.Broadcasting? && pc.message.Accepted? ==> pc.message.value in submitted)
  }

  ghost predicate NodeGiven(node: Node, submitted: set<Value>) {
    Given(node.member.log, submitted) && PcGiven(node.client, submitted)
  }

  ghost predicate ConsensusGiven(m: ConsensusMsg, submitted: set<Value>) {
    m.Accepted? ==> m.value in submitted
  }

  ghost predicate FailureGiven(m: FailureMsg, submitted: set<Value>) {
    m.State? ==> Given(m.log, submitted)
  }

  ghost predicate AllGiven(s: System) {
    && (forall p {:trigger s.nodes[p]} :: IsNode(s, p) ==> NodeGiven(s.nodes[p], s.submitted))
    && (forall a, b, m {:trigger m in Queue(s.consensus, a, b)} ::
          m in Queue(s.consensus, a, b) ==> ConsensusGiven(m, s.submitted))
    && (forall a, b, m {:trigger m in Queue(s.failure, a, b)} ::
          m in Queue(s.failure, a, b) ==> FailureGiven(m, s.submitted))
  }

  lemma ConsensusDeliveryGiven(s: System, src: int, dst: int)
    requires AllGiven(s) && IsNode(s, src) && IsNode(s, dst) && Queue(s.consensus, src, dst) != []
    ensures AllGiven(HandleConsensus(s, src, dst))
  {
    var s', head := HandleConsensus(s, src, dst), Queue(s.consensus, src, dst)[0];
    DeliveryEffect(s, src, dst);
    RecoveryLock.OutcomeLog(s.nodes[dst], src, head);
    assert head in Queue(s.consensus, src, dst) && ConsensusGiven(head, s.submitted);
    var (node, reply) := Outcome(s.nodes[dst], src, head);
    assert NodeGiven(node, s.submitted) by {
      assert NodeGiven(s.nodes[dst], s.submitted);
    }
    forall a, b, m | m in Queue(s'.consensus, a, b)
      ensures ConsensusGiven(m, s.submitted)
    {
      if m in Popped(s.consensus, src, dst, a, b) {
        assert m in Queue(s.consensus, a, b);
      }
    }
  }

  lemma FailureDeliveryGiven(s: System, src: int, dst: int)
    requires AllGiven(s) && IsNode(s, src) && IsNode(s, dst) && Queue(s.failure, src, dst) != []
    ensures AllGiven(HandleFailure(s, src, dst))
  {
    var s', head := HandleFailure(s, src, dst), Queue(s.failure, src, dst)[0];
    assert head in Queue(s.failure, src, dst) && FailureGiven(head, s.submitted);
    assert NodeGiven(s.nodes[dst], s.submitted);
    forall a, b, m | m in Queue(s'.failure, a, b)
      ensures FailureGiven(m, s.submitted)
    {
      if m.State? {
        assert m in Queue(s.failure, a, b);
      }
    }
  }

  lemma SendGiven(s: System, p: int)
    requires AllGiven(s) && IsNode(s, p) && s.nodes[p].client.Broadcasting?
    ensures AllGiven(SendOne(s, p))
  {
    SendChannels(s, p);
    assert NodeGiven(s.nodes[p], s.submitted);
  }

  lemma TransferGiven(s: System, p: int, thread: nat)
    requires AllGiven(s) && ThreadAt(s, p, thread, Locked)
    ensures AllGiven(SendState(s, p, thread))
  {
    assert NodeGiven(s.nodes[p], s.submitted);
  }

  /** A step that changes one node and no channel. */
  lemma OneNodeGiven(s: System, s': System, p: int)
    requires AllGiven(s) && IsNode(s, p) && |s'.nodes| == |s.nodes| && s'.nodes == s.nodes[p := s'.nodes[p]]
    requires s'.consensus == s.consensus && s'.failure == s.failure && s.submitted <= s'.submitted
    requires NodeGiven(s'.nodes[p], s'.submitted)
    ensures AllGiven(s')
  {
  }

  lemma OtherGiven(s: System, step: Step)
    requires AllGiven(s) && Enabled(s, step)
    requires !step.DeliverConsensus? && !step.DeliverFailure? && !step.SendNext? && !step.Transfer?
    ensures AllGiven(Apply(s, step))
  {
    assert NodeGiven(s.nodes[step.p], s.submitted);
    OneNodeGiven(s, Apply(s, step), step.p);
  }

  lemma {:induction false} ValuesGiven(states: seq<System>, steps: seq<Step>, k: nat)
    requires IsRun(states, steps) && k < |states|
    ensures AllGiven(states[k])
  {
    if k == 0 {
      var s := states[0];
      forall p | IsNode(s, p)
        ensures NodeGiven(s.nodes[p], s.submitted)
      {
        assert s.nodes[p] == InitialNode(|s.nodes|, p).(leaderId := s.nodes[p].leaderId);
      }
    } else {
      var s, step := states[k - 1], steps[k - 1];
      ValuesGiven(states, steps, k - 1);
      RunStep(states, steps, k - 1);
      match step
      case DeliverConsensus(src, dst) => ConsensusDeliveryGiven(s, src, dst);
      case DeliverFailure(src, dst) => FailureDeliveryGiven(s, src, dst);
      case SendNext(p) => SendGiven(s, p);
      case Transfer(p, thread) => TransferGiven(s, p, thread);
      case _ => OtherGiven(s, step);
    }
  }

  /** In every run, whoever leads and whatever is lost: a logged value was given to some startConsensus. */
  lemma LoggedWasSubmitted(states: seq<System>, steps: seq<Step>, k: nat, p: int, v: Value)
    requires IsRun(states, steps) && k < |states| && IsNode(states[k], p)
    requires v in states[k].nodes[p].member.log
    ensures exists i :: 0 <= i < k && steps[i].StartRound? && steps[i].value == v
  {
    ValuesGiven(states, steps, k);
    assert NodeGiven(states[k].nodes[p], states[k].submitted);
    SubmittedOnce(states, steps, k, v);
  }

  lemma {:induction false} SubmittedOnce(states: seq<System>, steps: seq<Step>, k: nat, v: Value)
    requires IsRun(states, steps) && k < |states| && v in states[k].submitted
    ensures exists i :: 0 <= i < k && steps[i].StartRound? && steps[i].value == v
  {
    if k > 0 {
      RunStep(states, steps, k - 1);
      SubmittedGrows(states[k - 1], steps[k - 1]);
      if v in states[k - 1].submitted {
        SubmittedOnce(states, steps, k - 1, v);
      }
    }
  }

  lemma SubmittedGrows(s: System, step: Step)
    requires Enabled(s, step)
    ensures Apply(s, step).submitted == s.submitted + if step.StartRound? then {step.value} else {}
  {
  }

  // ---------------------------------------------------------------------------
  // Runs with one stable leader: its log is what it acknowledged, plus the value being acknowledged

  /** The value startConsensus has logged and the client has not been told about. */
  function Unacknowledged(pc: ClientPc): seq<Value> {
    match pc
    case Announcing(value) => [value]
    case Broadcasting(value, Accepted(_, _), _) => [value]
    case Writing(value, true) => [value]
    case Replying(value) => [value]
    case _ => []
  }

  ghost predicate Acknowledges(node: Node) {
    && node.member.log == node.acks + Unacknowledged(node.client)
    && Broadcasts(node.client)
  }

  /** Only p's own client thread moves it and acknowledges values. */
  lemma ClientUntouched(s: System, step: Step, p: int)
    requires Enabled(s, step) && IsNode(s, p) && !(IsClientStep(step) && step.p == p)
    ensures IsNode(Apply(s, step), p)
    ensures Apply(s, step).nodes[p].client == s.nodes[p].client && Apply(s, step).nodes[p].acks == s.nodes[p].acks
  {
    if step.DeliverConsensus? {
      DeliveryEffect(s, step.src, step.dst);
      OutcomeKeepsClient(s.nodes[step.dst], step.src, Queue(s.consensus, step.src, step.dst)[0]);
    } else if step.SendNext? {
      SendChannels(s, step.p);
    } else if IsClientStep(step) {
      ClientEffect(s, step);
    } else {
      OtherEffect(s, step);
    }
  }

  lemma OutcomeKeepsClient(node: Node, src: int, message: ConsensusMsg)
    ensures var (node', reply) := Outcome(node, src, message);
      node'.acks == node.acks && node'.client == node.client
  {
  }

  /** The leader's log is written by its client thread only. */
  lemma LeaderLogUntouched(leader: int, s: System, step: Step)
    requires IsNode(s, leader) && Replication.Followers(leader, s) && Enabled(s, step)
    requires !(IsClientStep(step) && step.p == leader)
    ensures IsNode(Apply(s, step), leader)
    ensures Apply(s, step).nodes[leader].member.log == s.nodes[leader].member.log
  {
    if step.DeliverConsensus? {
      DeliveryEffect(s, step.src, step.dst);
      var head := Queue(s.consensus, step.src, step.dst)[0];
      assert head in Queue(s.consensus, step.src, step.dst);
      RecoveryLock.OutcomeLog(s.nodes[step.dst], step.src, head);
    } else if step.DeliverFailure? {
      var head := Queue(s.failure, step.src, step.dst)[0];
      assert head in Queue(s.failure, step.src, step.dst);
      assert Replication.FailureOk(leader, s.nodes[leader], step.src, step.dst, head);
    } else if step.SendNext? {
      SendChannels(s, step.p);
    } else if IsClientStep(step) {
      ClientEffect(s, step);
    }
  }

  lemma ClientAcknowledges(s: System, step: Step)
    requires Enabled(s, step) && IsClientStep(step) && Acknowledges(s.nodes[step.p])
    ensures Acknowledges(Apply(s, step).nodes[step.p])
  {
    if step.SendNext? {
      SendChannels(s, step.p);
    }
  }

  lemma AcknowledgesStep(leader: int, s: System, step: Step)
    requires IsNode(s, leader) && Replication.Followers(leader, s) && Enabled(s, step)
    requires Acknowledges(s.nodes[leader])
    ensures IsNode(Apply(s, step), leader) && Acknowledges(Apply(s, step).nodes[leader])
  {
    if IsClientStep(step) && step.p == leader {
      ClientAcknowledges(s, step);
    } else {
      ClientUntouched(s, step, leader);
      LeaderLogUntouched(leader, s, step);
    }
  }

  lemma {:induction false} AcknowledgesHolds(leader: int, states: seq<System>, steps: seq<Step>, k: nat)
    requires Replication.StableRun(leader, states, steps) && k < |states|
    ensures Replication.Base(leader, states[k]) && Acknowledges(states[k].nodes[leader])
  {
    Replication.BaseHolds(leader, states, steps, k);
    if k == 0 {
      assert states[0].nodes[leader] ==
        InitialNode(|states[0].nodes|, leader).(leaderId := states[0].nodes[leader].leaderId);
    } else {
      AcknowledgesHolds(leader, states, steps, k - 1);
      RunStep(states, steps, k - 1);
      AcknowledgesStep(leader, states[k - 1], steps[k - 1]);
    }
  }

  /** At every moment the leader's log is exactly the values it acknowledged, in order, plus at most the one whose
      startConsensus succeeded and is not yet acknowledged; and when no live follower suspects the leader, as long as
      no STATE that is no longer current has reached a node counted as alive, every acknowledged value is in the log
      of, or on its way to, every node counted as alive. */
  lemma AcknowledgedIsReplicated(leader: int, states: seq<System>, steps: seq<Step>, k: nat, x: int)
    requires Replication.StableRun(leader, states, steps) && k < |states| && IsNode(states[k], leader)
    ensures var l := states[k].nodes[leader];
      && l.member.log == l.acks + Unacknowledged(l.client) && |Unacknowledged(l.client)| <= 1
      && (Replication.TrustedRun(leader, states, steps) && Replication.CurrentSoFar(leader, states, steps, k)
          && IsNode(states[k], x) && x != leader && x in l.alive ==>
            l.acks <= states[k].nodes[x].member.log + Replication.Pending(Queue(states[k].consensus, leader, x))
                      + Replication.Owed(l.client, x))
  {
    AcknowledgesHolds(leader, states, steps, k);
    if Replication.TrustedRun(leader, states, steps) && Replication.CurrentSoFar(leader, states, steps, k)
       && IsNode(states[k], x) && x != leader && x in states[k].nodes[leader].alive {
      Replication.InvHolds(leader, states, steps, k);
      assert Replication.InStep(leader, states[k], x);
    }
  }

  // ---------------------------------------------------------------------------
  // One call of startConsensus, of any node in any run

  /** Steps i to j, exclusive, neither begin nor end a call of startConsensus at p, and give it neither ACCEPTED nor
      STATE. */
  ghost predicate SameCall(states: seq<System>, steps: seq<Step>, i: int, j: int, p: int)
    requires |states| == |steps| + 1 && 0 <= i <= j <= |steps|
  {
    forall k {:trigger OwnCall(states[k], steps[k], p)} :: i <= k < j ==> OwnCall(states[k], steps[k], p)
  }

  ghost predicate OwnCall(s: System, step: Step, p: int) {
    && Enabled(s, step)
    && (step.StartRound? || step.Reset? ==> step.p != p)
    && (step.DeliverConsensus? && step.dst == p && step.src in s.nodes[p].alive ==>
        !Queue(s.consensus, step.src, p)[0].Accepted?)
    && (step.DeliverFailure? && step.dst == p ==> !Queue(s.failure, step.src, p)[0].State?)
  }

  /** From the step that starts a call to the step that resets the context, whatever else happens: the log of the node
      grows by the call's value when consensus is reported, and not at all otherwise. */
  lemma OneEntryPerCall(states: seq<System>, steps: seq<Step>, i: nat, j: nat, p: int)
    requires IsRun(states, steps) && i < j < |steps|
    requires steps[i].StartRound? && steps[i].p == p && steps[j] == Reset(p) && SameCall(states, steps, i + 1, j, p)
    ensures IsNode(states[i], p) && IsNode(states[j], p) && IsNode(states[j + 1], p)
            && states[j].nodes[p].client.Writing?
    ensures var reached := states[j].nodes[p].client.reached;
      && states[j].nodes[p].client.value == steps[i].value
      && states[j + 1].nodes[p].member.log == states[i].nodes[p].member.log + (if reached then [steps[i].value] else [])
      && states[j + 1].nodes[p].member.context == FRESH
  {
    RunStep(states, steps, i);
    RunStep(states, steps, j);
    CallProgress(states, steps, i, j, p);
  }

  lemma {:induction false} CallProgress(states: seq<System>, steps: seq<Step>, i: nat, j: nat, p: int)
    requires IsRun(states, steps) && i < j < |states|
    requires steps[i].StartRound? && steps[i].p == p && SameCall(states, steps, i + 1, j, p)
    ensures IsNode(states[i], p) && IsNode(states[j], p)
    ensures Running(states[j].nodes[p], steps[i].value, states[i].nodes[p].member.log)
  {
    RunStep(states, steps, j - 1);
    SizeIsFixed(states[j - 1], steps[j - 1]);
    if j > i + 1 {
      CallProgress(states, steps, i, j - 1, p);
      assert OwnCall(states[j - 1], steps[j - 1], p);
      RoundGoesOn(states[j - 1], steps[j - 1], states[j], steps[i].value, states[i].nodes[p].member.log, p);
    }
  }

  ghost predicate Running(node: Node, value: Value, log: seq<Value>) {
    && InRound(node.client) && node.client.value == value
    && node.member.log == log + Unacknowledged(node.client)
    && Broadcasts(node.client)
  }

  lemma RoundGoesOn(s: System, step: Step, s': System, value: Value, log: seq<Value>, p: int)
    requires Enabled(s, step) && IsNode(s, p) && s' == Apply(s, step) && OwnCall(s, step, p)
    requires Running(s.nodes[p], value, log)
    ensures IsNode(s', p) && Running(s'.nodes[p], value, log)
  {
    if IsClientStep(step) && step.p == p {
      if step.SendNext? {
        SendChannels(s, p);
      }
    } else {
      ClientUntouched(s, step, p);
      LogUntouched(s, step, p);
    }
  }

  lemma LogUntouched(s: System, step: Step, p: int)
    requires IsNode(s, p) && OwnCall(s, step, p) && !(IsClientStep(step) && step.p == p)
    ensures IsNode(Apply(s, step), p) && Apply(s, step).nodes[p].member.log == s.nodes[p].member.log
  {
    if step.DeliverConsensus? {
      DeliveryEffect(s, step.src, step.dst);
      RecoveryLock.OutcomeLog(s.nodes[step.dst], step.src, Queue(s.consensus, step.src, step.dst)[0]);
    } else if step.SendNext? {
      SendChannels(s, step.p);
    } else if IsClientStep(step) {
      ClientEffect(s, step);
    }
  }

  // ---------------------------------------------------------------------------
  // Every run: nothing is logged by a leader without a quorum of ACCEPT

  /** acceptCount is the number of ACCEPT messages handled since the context was last reset; they were for some round.
      */
  ghost predicate CountsVotes(node: Node) {
    node.member.context.acceptCount == |node.votes|
  }

  lemma OutcomeCounts(node: Node, src: int, message: ConsensusMsg)
    ensures CountsVotes(node) ==> CountsVotes(Outcome(node, src, message).0)
  {
  }

  lemma ClientCounts(s: System, step: Step)
    requires Enabled(s, step) && IsClientStep(step) && !step.SendNext?
    ensures CountsVotes(s.nodes[step.p]) ==> CountsVotes(Apply(s, step).nodes[step.p])
  {
  }

  lemma AcceptsStep(s: System, step: Step, p: int)
    requires Enabled(s, step) && IsNode(s, p) && CountsVotes(s.nodes[p])
    ensures IsNode(Apply(s, step), p) && CountsVotes(Apply(s, step).nodes[p])
  {
    if step.DeliverConsensus? {
      DeliveryEffect(s, step.src, step.dst);
      OutcomeCounts(s.nodes[step.dst], step.src, Queue(s.consensus, step.src, step.dst)[0]);
    } else if step.SendNext? {
      SendChannels(s, step.p);
    } else if IsClientStep(step) {
      ClientEffect(s, step);
      ClientCounts(s, step);
    } else {
      OtherEffect(s, step);
      assert SameRound(s.nodes[p], Apply(s, step).nodes[p]);
    }
  }

  lemma {:induction false} AcceptsCounted(states: seq<System>, steps: seq<Step>, k: nat, p: int)
    requires IsRun(states, steps) && k < |states| && IsNode(states[k], p)
    ensures states[k].nodes[p].member.context.acceptCount == |states[k].nodes[p].votes|
  {
    if k == 0 {
      assert states[0].nodes[p] == InitialNode(|states[0].nodes|, p).(leaderId := states[0].nodes[p].leaderId);
    } else {
      RunStep(states, steps, k - 1);
      SizeIsFixed(states[k - 1], steps[k - 1]);
      AcceptsCounted(states, steps, k - 1, p);
      AcceptsStep(states[k - 1], steps[k - 1], p);
    }
  }

  /** In every run, whatever is lost or late: a client thread comes to log its value only from a count of at least
      (N-1)/2 ACCEPT messages handled since its context was last reset, and no other step of the client thread writes
      the log. */
  lemma LogsAfterQuorum(states: seq<System>, steps: seq<Step>, k: nat, p: int)
    requires IsRun(states, steps) && k < |steps| && IsNode(states[k], p) && IsNode(states[k + 1], p)
    ensures states[k + 1].nodes[p].client.Committing? && !states[k].nodes[p].client.Committing? ==>
      steps[k] == CountAccepts(p) && |states[k].nodes[p].votes| >= Quorum(|states[k].nodes|)
    ensures IsClientStep(steps[k]) && states[k + 1].nodes[p].member.log != states[k].nodes[p].member.log ==>
      && steps[k] == Append(p) && states[k].nodes[p].client.Committing?
      && states[k + 1].nodes[p].member.log == states[k].nodes[p].member.log + [states[k].nodes[p].client.value]
  {
    var s, step := states[k], steps[k];
    RunStep(states, steps, k);
    AcceptsCounted(states, steps, k, p);
    if step.SendNext? {
      SendChannels(s, step.p);
    } else if IsClientStep(step) {
      ClientEffect(s, step);
    } else {
      ClientUntouched(s, step, p);
    }
  }

  // ---------------------------------------------------------------------------
  // Every run: SUCCESS follows a quorum and a log write

  /** startConsensus has found a quorum of ACCEPT. */
  predicate HasQuorum(pc: ClientPc) {
    pc.Committing? || HasLogged(pc)
  }

  /** startConsensus has written its value to the log. */
  predicate HasLogged(pc: ClientPc) {
    pc.Announcing? || (pc.Broadcasting? && pc.message.Accepted?) || (pc.Writing? && pc.reached) || pc.Replying?
  }

  /** In step c the client thread of p counted a quorum of ACCEPT for its value, and has started no call since. */
  ghost predicate CountedAt(states: seq<System>, steps: seq<Step>, c: int, k: int, p: int, value: Value)
    requires |states| == |steps| + 1 && 0 <= c < k <= |steps|
  {
    && steps[c] == CountAccepts(p) && IsNode(states[c], p)
    && states[c].nodes[p].client == AwaitingAccepts(value)
    && |states[c].nodes[p].votes| >= Quorum(|states[c].nodes|)
    && forall i :: c < i < k && steps[i].StartRound? ==> steps[i].p != p
  }

  /** In step a, after c, it wrote the value to its log. */
  ghost predicate LoggedAt(states: seq<System>, steps: seq<Step>, a: int, p: int, value: Value)
    requires |states| == |steps| + 1 && 0 <= a < |steps|
  {
    && steps[a] == Append(p) && IsNode(states[a], p) && states[a].nodes[p].client == Committing(value)
    && IsNode(states[a + 1], p) && states[a + 1].nodes[p].member.log == states[a].nodes[p].member.log + [value]
  }

  ghost predicate Traced(states: seq<System>, steps: seq<Step>, k: int, p: int)
    requires |states| == |steps| + 1 && 0 <= k <= |steps| && IsNode(states[k], p)
  {
    var pc := states[k].nodes[p].client;
    && Broadcasts(pc)
    && (pc.Committing? ==>
          exists c {:trigger CountedAt(states, steps, c, k, p, pc.value)} ::
            0 <= c < k && CountedAt(states, steps, c, k, p, pc.value))
    && (HasLogged(pc) ==>
          exists c, a {:trigger CountedAt(states, steps, c, k, p, pc.value), LoggedAt(states, steps, a, p, pc.value)} ::
            0 <= c < a < k && CountedAt(states, steps, c, k, p, pc.value) && LoggedAt(states, steps, a, p, pc.value))
  }

  /** How one step brings the client thread of p there. */
  ghost predicate QuorumMove(s: System, step: Step, s': System, p: int)
    requires IsNode(s, p) && IsNode(s', p)
  {
    var pc, pc' := s.nodes[p].client, s'.nodes[p].client;
    && Broadcasts(pc')
    && (pc'.Committing? ==>
          pc == pc' || (step == CountAccepts(p) && pc == AwaitingAccepts(pc'.value)
                        && s.nodes[p].member.context.acceptCount >= Quorum(|s.nodes|)))
    && (HasLogged(pc') ==>
          (HasLogged(pc) && pc.value == pc'.value) ||
          (step == Append(p) && pc == Committing(pc'.value)
           && s'.nodes[p].member.log == s.nodes[p].member.log + [pc'.value]))
    && (HasQuorum(pc') ==> !(step.StartRound? && step.p == p))
  }

  lemma QuorumClientStep(s: System, step: Step)
    requires Enabled(s, step) && IsClientStep(step) && Broadcasts(s.nodes[step.p].client)
    ensures IsNode(Apply(s, step), step.p) && QuorumMove(s, step, Apply(s, step), step.p)
  {
    if step.SendNext? {
      SendChannels(s, step.p);
    }
  }

  lemma QuorumStep(s: System, step: Step, p: int)
    requires Enabled(s, step) && IsNode(s, p) && Broadcasts(s.nodes[p].client)
    ensures IsNode(Apply(s, step), p) && QuorumMove(s, step, Apply(s, step), p)
  {
    if IsClientStep(step) && step.p == p {
      QuorumClientStep(s, step);
    } else {
      ClientUntouched(s, step, p);
    }
  }

  lemma CountedLater(states: seq<System>, steps: seq<Step>, c: int, k: int, p: int, value: Value)
    requires |states| == |steps| + 1 && 0 <= c < k < |steps| && CountedAt(states, steps, c, k, p, value)
    requires !(steps[k].StartRound? && steps[k].p == p)
    ensures CountedAt(states, steps, c, k + 1, p, value)
  {
  }

  lemma {:induction false} TracedHolds(states: seq<System>, steps: seq<Step>, k: nat, p: int)
    requires IsRun(states, steps) && k <= |steps| && IsNode(states[k], p)
    ensures Traced(states, steps, k, p)
  {
    if k == 0 {
      assert states[0].nodes[p] == InitialNode(|states[0].nodes|, p).(leaderId := states[0].nodes[p].leaderId);
    } else {
      RunStep(states, steps, k - 1);
      SizeIsFixed(states[k - 1], steps[k - 1]);
      TracedHolds(states, steps, k - 1, p);
      TracedStep(states, steps, k - 1, p);
    }
  }

  lemma TracedStep(states: seq<System>, steps: seq<Step>, k: nat, p: int)
    requires IsRun(states, steps) && k < |steps| && IsNode(states[k], p) && Traced(states, steps, k, p)
    requires Enabled(states[k], steps[k]) && states[k + 1] == Apply(states[k], steps[k])
    ensures IsNode(states[k + 1], p) && Traced(states, steps, k + 1, p)
  {
    QuorumStep(states[k], steps[k], p);
    var pc, pc' := states[k].nodes[p].client, states[k + 1].nodes[p].client;
    if pc'.Committing? && pc != pc' {
      AcceptsCounted(states, steps, k, p);
      assert CountedAt(states, steps, k, k + 1, p, pc'.value);
    } else if HasQuorum(pc') {
      var c :| 0 <= c < k && CountedAt(states, steps, c, k, p, pc.value);
      CountedLater(states, steps, c, k, p, pc.value);
      if HasLogged(pc') && !HasLogged(pc) {
        assert LoggedAt(states, steps, k, p, pc'.value);
      } else if HasLogged(pc') {
        var d, a :| 0 <= d < a < k && CountedAt(states, steps, d, k, p, pc.value)
            && LoggedAt(states, steps, a, p, pc.value);
        CountedLater(states, steps, d, k, p, pc.value);
      }
    }
  }

  /** In every run, whatever is lost or late: before SUCCESS is sent for a value, the same call of startConsensus has
      counted at least (N-1)/2 ACCEPT messages handled since its context was last reset, and has then written the
      value to its log. */
  lemma SuccessFollowsQuorum(states: seq<System>, steps: seq<Step>, k: nat, p: int) returns (c: nat, a: nat)
    requires IsRun(states, steps) && k < |steps| && steps[k] == Reply(p) && IsNode(states[k], p)
    ensures c < a < k && states[k].nodes[p].client.Replying?
    ensures CountedAt(states, steps, c, k, p, states[k].nodes[p].client.value)
    ensures LoggedAt(states, steps, a, p, states[k].nodes[p].client.value)
  {
    RunStep(states, steps, k);
    TracedHolds(states, steps, k, p);
    c, a :| c < a < k && CountedAt(states, steps, c, k, p, states[k].nodes[p].client.value)
            && LoggedAt(states, steps, a, p, states[k].nodes[p].client.value);
  }
}

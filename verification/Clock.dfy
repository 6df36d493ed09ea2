/** Message ids are whole seconds of a clock: how far apart the rounds of one proposer are, and what an acceptor that
    hears only that proposer does with them. */
module Clock {
  import opened Messages
  import opened Messenger
  import opened Consensus
  import opened Cluster
  import opened Rounds
  import Votes

  const PROMISE_WAIT_DURATION: real := 5.0
  const ACCEPT_WAIT_DURATION: real := 5.0
  const LOG_WRITE_DURATION: real := 3.0

  /** times[i] is when step i happens. The client thread sleeps between setting a round's id and counting promises,
      between its PROPOSE and counting ACCEPTs, and before the reset; as time does not go back, this also bounds the
      later rounds of the same node. */
  ghost predicate Timed(steps: seq<Step>, times: seq<real>) {
    && |times| == |steps|
    && (forall i :: 0 <= i < |times| ==> 0.0 <= times[i])
    && (forall i, j :: 0 <= i < j < |times| ==> times[i] <= times[j])
    && (forall i :: 0 <= i < |steps| && (steps[i].StartRound? || steps[i].StartPropose?) ==>
          steps[i].id == IdAt(times[i]))
    && (forall i, j :: 0 <= i < j < |steps| && steps[i].StartRound? && steps[j] == CountPromises(steps[i].p) ==>
          times[i] + PROMISE_WAIT_DURATION <= times[j])
    && (forall i, j :: 0 <= i < j < |steps| && steps[i].CountPromises? && steps[j] == Reset(steps[i].p) ==>
          times[i] + LOG_WRITE_DURATION <= times[j])
    && (forall i, j :: 0 <= i < j < |steps| && steps[i].StartPropose? && steps[j] == CountAccepts(steps[i].p) ==>
          times[i] + ACCEPT_WAIT_DURATION <= times[j])
  }

  /** Truncation to whole seconds keeps a gap of eight seconds. */
  lemma IdGap(a: real, b: real)
    requires 0.0 <= a && a + PROMISE_WAIT_DURATION + LOG_WRITE_DURATION <= b
    ensures IdAt(a) + 8 <= IdAt(b)
  {
  }

  /** The round has not yet counted its promises. */
  predicate Preparing(pc: ClientPc) {
    (pc.Broadcasting? && pc.message.Prepare?) || pc.AwaitingPromises?
  }

  /** Its PROPOSE is going out, or its ACCEPTs are waited for. */
  predicate Collecting(pc: ClientPc) {
    (pc.Broadcasting? && pc.message.Propose?) || pc.AwaitingAccepts?
  }

  /** What is known about time k when the round of step i of node p is the last one it started, or an earlier one. */
  ghost predicate Passed(states: seq<System>, steps: seq<Step>, times: seq<real>, i: int, p: int, k: int)
    requires |states| == |steps| + 1 && |times| == |steps| && 0 <= i < k <= |steps| && IsNode(states[k], p)
  {
    var pc := states[k].nodes[p].client;
    && (Preparing(pc) || forall j :: k <= j < |steps| && steps[j] == Reset(p) ==> times[i] + 8.0 <= times[j])
    && (Preparing(pc) || forall j :: k <= j < |steps| ==> times[i] + PROMISE_WAIT_DURATION <= times[j])
    && (InRound(pc) || forall j :: k <= j < |steps| ==> times[i] + 8.0 <= times[j])
  }

  /** How one step moves the client thread of p. */
  ghost predicate PcMoves(step: Step, p: int, pc: ClientPc, pc': ClientPc) {
    && (Preparing(pc) && !Preparing(pc') ==> step == CountPromises(p))
    && (InRound(pc) && !InRound(pc') ==> step == Reset(p) && !Preparing(pc))
    && (!Preparing(pc) && Preparing(pc') ==> step.StartRound? && step.p == p)
    && (!InRound(pc) && InRound(pc') ==> Preparing(pc'))
    && (Collecting(pc) && !Collecting(pc') ==> step == CountAccepts(p))
    && (!Collecting(pc) && Collecting(pc') ==> step.StartPropose? && step.p == p)
  }

  lemma PcClientStep(s: System, step: Step)
    requires Enabled(s, step) && IsClientStep(step)
    ensures IsNode(Apply(s, step), step.p)
            && PcMoves(step, step.p, s.nodes[step.p].client, Apply(s, step).nodes[step.p].client)
  {
    if step.SendNext? {
      SendChannels(s, step.p);
    }
  }

  lemma PcStep(s: System, step: Step, p: int)
    requires Enabled(s, step) && IsNode(s, p)
    ensures IsNode(Apply(s, step), p) && PcMoves(step, p, s.nodes[p].client, Apply(s, step).nodes[p].client)
  {
    if step.DeliverConsensus? {
      DeliveryEffect(s, step.src, step.dst);
    } else if IsClientStep(step) {
      PcClientStep(s, step);
      if step.SendNext? {
        SendChannels(s, step.p);
      } else {
        ClientEffect(s, step);
      }
    } else {
      OtherEffect(s, step);
    }
  }

  lemma {:induction false} RoundPasses(states: seq<System>, steps: seq<Step>, times: seq<real>, i: nat, k: nat)
    requires IsRun(states, steps) && Timed(steps, times)
    requires i < k <= |steps| && steps[i].StartRound?
    ensures IsNode(states[k], steps[i].p) && Passed(states, steps, times, i, steps[i].p, k)
  {
    var p := steps[i].p;
    RunStep(states, steps, k - 1);
    if k > i + 1 {
      RoundPasses(states, steps, times, i, k - 1);
      PcStep(states[k - 1], steps[k - 1], p);
      if steps[k - 1] == CountPromises(p) {
        assert times[i] + PROMISE_WAIT_DURATION <= times[k - 1];
        forall j | k <= j < |steps| && steps[j] == Reset(p) ensures times[i] + 8.0 <= times[j] {
          assert times[k - 1] + LOG_WRITE_DURATION <= times[j];
        }
      }
    }
  }

  /** Consecutive rounds of one proposer, and so any two, get ids at least PROMISE_WAIT_DURATION + LOG_WRITE_DURATION
      apart. */
  lemma RoundIdGap(states: seq<System>, steps: seq<Step>, times: seq<real>, i: nat, j: nat)
    requires IsRun(states, steps) && Timed(steps, times)
    requires i < j < |steps| && steps[i].StartRound? && steps[j].StartRound? && steps[i].p == steps[j].p
    ensures steps[i].id + 8 <= steps[j].id
  {
    RoundPasses(states, steps, times, i, j);
    RunStep(states, steps, j);
    IdGap(times[i], times[j]);
  }

  /** After a PROPOSE of p: p still collects ACCEPTs, or ACCEPT_WAIT_DURATION has passed for good. */
  lemma {:induction false} ProposePasses(states: seq<System>, steps: seq<Step>, times: seq<real>, i: nat, k: nat)
    requires IsRun(states, steps) && Timed(steps, times)
    requires i < k <= |steps| && steps[i].StartPropose?
    ensures IsNode(states[k], steps[i].p)
    ensures Collecting(states[k].nodes[steps[i].p].client)
            || forall j :: k <= j < |steps| ==> times[i] + ACCEPT_WAIT_DURATION <= times[j]
  {
    var p := steps[i].p;
    RunStep(states, steps, k - 1);
    if k > i + 1 {
      ProposePasses(states, steps, times, i, k - 1);
      PcStep(states[k - 1], steps[k - 1], p);
      if steps[k - 1] == CountAccepts(p) {
        assert times[i] + ACCEPT_WAIT_DURATION <= times[k - 1];
      }
    }
  }

  /** The last ids of a node are those of a round it started, and of a PROPOSE it sent out. */
  ghost predicate LastIds(states: seq<System>, steps: seq<Step>, k: int, p: int)
    requires |states| == |steps| + 1 && 0 <= k <= |steps| && IsNode(states[k], p)
  {
    var node := states[k].nodes[p];
    && (node.lastRoundId == -1 ||
        exists i :: 0 <= i < k && steps[i].StartRound? && steps[i].p == p && steps[i].id == node.lastRoundId)
    && (node.lastProposeId == -1 ||
        exists i :: 0 <= i < k && steps[i].StartPropose? && steps[i].p == p && steps[i].id == node.lastProposeId)
  }

  lemma {:induction false} LastIdsGiven(states: seq<System>, steps: seq<Step>, k: nat, p: int)
    requires IsRun(states, steps) && k <= |steps| && IsNode(states[k], p)
    ensures LastIds(states, steps, k, p)
  {
    if k > 0 {
      var s, step := states[k - 1], steps[k - 1];
      RunStep(states, steps, k - 1);
      SizeIsFixed(s, step);
      LastIdsGiven(states, steps, k - 1, p);
      LastIdsStep(s, step, p);
    } else {
      assert states[0].nodes[p] == InitialNode(|states[0].nodes|, p).(leaderId := states[0].nodes[p].leaderId);
    }
  }

  lemma LastIdsStep(s: System, step: Step, p: int)
    requires Enabled(s, step) && IsNode(s, p)
    ensures IsNode(Apply(s, step), p)
    ensures var node, node' := s.nodes[p], Apply(s, step).nodes[p];
      && node'.lastRoundId == (if step.StartRound? && step.p == p then step.id else node.lastRoundId)
      && node'.lastProposeId == (if step.StartPropose? && step.p == p then step.id else node.lastProposeId)
  {
    if step.DeliverConsensus? {
      DeliveryEffect(s, step.src, step.dst);
    } else if step.SendNext? {
      SendChannels(s, step.p);
    } else if IsClientStep(step) {
      ClientEffect(s, step);
      ClientIds(s, step);
    } else {
      OtherEffect(s, step);
    }
  }

  lemma ClientIds(s: System, step: Step)
    requires Enabled(s, step) && IsClientStep(step) && !step.SendNext?
    ensures var node, node' := s.nodes[step.p], Apply(s, step).nodes[step.p];
      && node'.lastRoundId == (if step.StartRound? then step.id else node.lastRoundId)
      && node'.lastProposeId == (if step.StartPropose? then step.id else node.lastProposeId)
  {
  }

  /** On the clock a node's own ids increase: round after round, and PREPARE after PROPOSE after PREPARE. */
  lemma ClockMakesIdsIncrease(states: seq<System>, steps: seq<Step>, times: seq<real>)
    requires IsRun(states, steps) && Timed(steps, times)
    ensures IncreasingRun(states, steps)
    ensures forall j {:trigger Votes.VotingAt(states, steps, j)} ::
      0 <= j < |steps| ==> Votes.VotingAt(states, steps, j)
  {
    forall j | 0 <= j < |steps|
      ensures IncreasingAt(states, steps, j) && Votes.VotingAt(states, steps, j)
    {
      RunStep(states, steps, j);
      if steps[j].StartRound? {
        RoundIsLater(states, steps, times, j);
      } else if steps[j].StartPropose? {
        ProposeIsLater(states, steps, times, j);
      }
    }
  }

  lemma RoundIsLater(states: seq<System>, steps: seq<Step>, times: seq<real>, j: nat)
    requires IsRun(states, steps) && Timed(steps, times) && j < |steps| && steps[j].StartRound?
    ensures IsNode(states[j], steps[j].p)
    ensures var node := states[j].nodes[steps[j].p]; steps[j].id > node.lastRoundId && steps[j].id > node.lastProposeId
  {
    RunStep(states, steps, j);
    var p, node := steps[j].p, states[j].nodes[steps[j].p];
    LastIdsGiven(states, steps, j, p);
    if node.lastRoundId != -1 {
      var i :| 0 <= i < j && steps[i].StartRound? && steps[i].p == p && steps[i].id == node.lastRoundId;
      RoundIdGap(states, steps, times, i, j);
    }
    if node.lastProposeId != -1 {
      var i :| 0 <= i < j && steps[i].StartPropose? && steps[i].p == p && steps[i].id == node.lastProposeId;
      ProposePasses(states, steps, times, i, j);
    }
  }

  lemma ProposeIsLater(states: seq<System>, steps: seq<Step>, times: seq<real>, j: nat)
    requires IsRun(states, steps) && Timed(steps, times) && j < |steps| && steps[j].StartPropose?
    ensures IsNode(states[j], steps[j].p) && steps[j].id > states[j].nodes[steps[j].p].lastRoundId
  {
    RunStep(states, steps, j);
    var p, node := steps[j].p, states[j].nodes[steps[j].p];
    LastIdsGiven(states, steps, j, p);
    if node.lastRoundId != -1 {
      var i :| 0 <= i < j && steps[i].StartRound? && steps[i].p == p && steps[i].id == node.lastRoundId;
      RoundPasses(states, steps, times, i, j);
    }
  }

  // ---------------------------------------------------------------------------
  // An acceptor that hears one proposer only

  /** Every PREPARE on its way from p to a, or still to be sent to it, is newer than all a has seen. */
  ghost predicate Newer(q: seq<ConsensusMsg>, seen: int, last: int, pc: ClientPc, a: int) {
    && seen <= last
    && (forall i :: 0 <= i < |q| && q[i].Prepare? ==> seen < q[i].id <= last)
    && (forall i, j :: 0 <= i < j < |q| && q[i].Prepare? && q[j].Prepare? ==> q[i].id < q[j].id)
    && (pc.Broadcasting? && pc.message.Prepare? && pc.next <= a ==>
          seen < pc.message.id <= last && forall i :: 0 <= i < |q| && q[i].Prepare? ==> q[i].id < pc.message.id)
  }

  ghost predicate Ahead(s: System, p: int, a: int)
    requires IsNode(s, p) && IsNode(s, a)
  {
    Newer(Queue(s.consensus, p, a), s.nodes[a].member.maxRoundId, s.nodes[p].lastRoundId, s.nodes[p].client, a)
  }

  lemma NewerPopped(q: seq<ConsensusMsg>, seen: int, seen': int, last: int, pc: ClientPc, a: int)
    requires Newer(q, seen, last, pc, a) && q != []
    requires seen' == seen || (q[0].Prepare? && seen' == q[0].id)
    ensures Newer(q[1..], seen', last, pc, a)
  {
    assert forall i :: 0 <= i < |q[1..]| ==> q[1..][i] == q[i + 1];
  }

  lemma NewerAppended(q: seq<ConsensusMsg>, seen: int, last: int, pc: ClientPc, a: int, m: ConsensusMsg)
    requires Newer(q, seen, last, pc, a) && !m.Prepare?
    ensures Newer(q + [m], seen, last, pc, a)
  {
  }

  ghost predicate AllAhead(s: System, p: int)
    requires IsNode(s, p)
  {
    && (forall a {:trigger Ahead(s, p, a)} :: IsNode(s, a) && a != p ==> Ahead(s, p, a))
    && (forall q {:trigger s.nodes[q]} :: IsNode(s, q) && q != p ==> s.nodes[q].lastRoundId == -1)
  }

  ghost predicate OnlyProposer(p: int, steps: seq<Step>) {
    forall i :: 0 <= i < |steps| && steps[i].StartRound? ==> steps[i].p == p
  }

  lemma OutcomeSeen(node: Node, src: int, m: ConsensusMsg)
    ensures var (node', reply) := Outcome(node, src, m);
      && node'.client == node.client && node'.lastRoundId == node.lastRoundId
      && node'.member.maxRoundId ==
           (if src in node.alive && m.Prepare? && m.id > node.member.maxRoundId then m.id else node.member.maxRoundId)
      && (reply.Some? ==> !reply.value.Prepare?)
  {
  }

  lemma DeliverAhead(s: System, s': System, src: int, dst: int, p: int, a: int)
    requires Delivered(s, s', src, dst) && IsNode(s, p) && IsNode(s, a) && a != p
    requires Ahead(s, p, a) && OwnIds(s, src) && (src != p ==> s.nodes[src].lastRoundId == -1)
    ensures IsNode(s', p) && IsNode(s', a) && Ahead(s', p, a)
  {
    var head, q := Queue(s.consensus, src, dst)[0], Queue(s.consensus, p, a);
    var last, pc, seen := s.nodes[p].lastRoundId, s.nodes[p].client, s.nodes[a].member.maxRoundId;
    assert head in Queue(s.consensus, src, dst);
    OutcomeSeen(s.nodes[dst], src, head);
    assert src != p ==> !head.Prepare?;
    if src == p && dst == a {
      NewerPopped(q, seen, s'.nodes[a].member.maxRoundId, last, pc, a);
    } else {
      var reply := Outcome(s.nodes[dst], src, head).1;
      if reply.Some? { NewerAppended(q, seen, last, pc, a, reply.value); }
    }
  }

  lemma SendAhead(s: System, from: int, p: int, a: int)
    requires IsNode(s, from) && s.nodes[from].client.Broadcasting?
    requires IsNode(s, p) && IsNode(s, a) && a != p
    requires Ahead(s, p, a) && Counted(|s.nodes|, from, s.nodes[from])
    ensures |SendOne(s, from).nodes| == |s.nodes| && Ahead(SendOne(s, from), p, a)
  {
    SendChannels(s, from);
  }

  lemma AheadStep(s: System, step: Step, s': System, p: int)
    requires Enabled(s, step) && s' == Apply(s, step) && IsNode(s, p)
    requires AllAhead(s, p) && RoundsOk(s)
    requires OwnIdsIncrease(s, step) && (step.StartRound? ==> step.p == p)
    ensures IsNode(s', p) && AllAhead(s', p)
  {
    SizeIsFixed(s, step);
    forall q | IsNode(s', q) && q != p ensures s'.nodes[q].lastRoundId == -1 {
      LastIdsStep(s, step, q);
    }
    assert ProposerOk(s, p);
    forall a | IsNode(s', a) && a != p ensures Ahead(s', p, a) {
      assert Ahead(s, p, a);
      if step.DeliverConsensus? {
        DeliveryEffect(s, step.src, step.dst);
        assert ProposerOk(s, step.src);
        assert step.src != p ==> s.nodes[step.src].lastRoundId == -1;
        DeliverAhead(s, s', step.src, step.dst, p, a);
      } else if step.SendNext? {
        assert ProposerOk(s, step.p);
        SendAhead(s, step.p, p, a);
      } else if IsClientStep(step) {
        ClientEffect(s, step);
        ClientAhead(s, step, p, a);
      } else {
        OtherEffect(s, step);
        assert SameRound(s.nodes[p], s'.nodes[p]) && SameRound(s.nodes[a], s'.nodes[a]);
      }
    }
  }

  lemma ClientAhead(s: System, step: Step, p: int, a: int)
    requires Enabled(s, step) && IsClientStep(step) && !step.SendNext? && IsNode(s, p) && IsNode(s, a) && a != p
    requires Ahead(s, p, a) && OwnIdsIncrease(s, step)
    ensures |Apply(s, step).nodes| == |s.nodes| && Ahead(Apply(s, step), p, a)
  {
    ClientEffect(s, step);
  }

  lemma {:induction false} AheadHolds(states: seq<System>, steps: seq<Step>, k: nat, p: int)
    requires IncreasingRun(states, steps) && OnlyProposer(p, steps) && k <= |steps| && IsNode(states[0], p)
    ensures IsNode(states[k], p) && AllAhead(states[k], p)
  {
    if k == 0 {
      var s := states[0];
      forall q | IsNode(s, q)
        ensures s.nodes[q].lastRoundId == -1 && s.nodes[q].member == NEW_MEMBER && s.nodes[q].client == Starting
      {
        assert s.nodes[q] == InitialNode(|s.nodes|, q).(leaderId := s.nodes[q].leaderId);
      }
    } else {
      AheadHolds(states, steps, k - 1, p);
      RoundsHold(states, steps, k - 1);
      RunStep(states, steps, k - 1);
      assert IncreasingAt(states, steps, k - 1);
      AheadStep(states[k - 1], steps[k - 1], states[k], p);
    }
  }

  /** When one node alone starts rounds, on a clock, every PREPARE of it that an acceptor handles is answered with a
      promise of that round: whatever was delivered, dropped or reset before, no round is refused. */
  lemma EveryRoundPromised(states: seq<System>, steps: seq<Step>, times: seq<real>, k: nat, p: int)
    requires IsRun(states, steps) && Timed(steps, times) && OnlyProposer(p, steps)
    requires k < |steps| && steps[k].DeliverConsensus? && IsNode(states[0], p)
    requires Enabled(states[k], steps[k]) && Queue(states[k].consensus, steps[k].src, steps[k].dst)[0].Prepare?
    ensures var id, acceptor := Queue(states[k].consensus, steps[k].src, steps[k].dst)[0].id,
            states[k].nodes[steps[k].dst];
      && steps[k].src == p
      && acceptor.member.maxRoundId < id
      && var (member, reply) := Handle(acceptor.member, Prepare(id));
         member.maxRoundId == id && reply.Some? && reply.value.Promise? && reply.value.roundId == id
  {
    ClockMakesIdsIncrease(states, steps, times);
    AheadHolds(states, steps, k, p);
    RoundsHold(states, steps, k);
    var s, src, dst := states[k], steps[k].src, steps[k].dst;
    var head := Queue(s.consensus, src, dst)[0];
    assert head in Queue(s.consensus, src, dst);
    assert ProposerOk(s, src);
    assert src == dst ==> Queue(s.consensus, src, src) == [];
    assert Ahead(s, p, dst);
  }
}
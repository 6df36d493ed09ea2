/** Which value a round proposes and its acceptors hold. For every run in which round ids are unique and a node
    that runs startConsensus hears nothing of other proposers. */
module Choice {
  import opened Messages
  import opened Consensus
  import opened Cluster
  import opened Rounds

  /** Round ids are unique, and each node's own ids increase; ids of different nodes come in any order. */
  ghost predicate FreshId(s: System, step: Step)
    requires Enabled(s, step)
  {
    step.StartRound? ==> step.id !in s.used && step.id > s.nodes[step.p].lastRoundId
  }

  /** One proposing node at a time: while a node runs startConsensus it handles only PROMISE and ACCEPT. */
  ghost predicate SoleProposer(s: System, step: Step)
    requires Enabled(s, step)
  {
    step.DeliverConsensus? && InRound(s.nodes[step.dst].client) && step.src in s.nodes[step.dst].alive ==>
      Queue(s.consensus, step.src, step.dst)[0].Promise? || Queue(s.consensus, step.src, step.dst)[0].Accept?
  }

  ghost predicate Orderly(s: System, step: Step)
    requires Enabled(s, step)
  {
    FreshId(s, step) && SoleProposer(s, step)
  }

  // ---------------------------------------------------------------------------
  // The invariant

  ghost predicate ReportOk(proposals: map<int, Value>, report: Option<Report>) {
    report.Some? ==> report.value.id in proposals && proposals[report.value.id] == report.value.value
  }

  /** What is true of a consensus message in flight or being broadcast. */
  ghost predicate MessageOk(proposals: map<int, Value>, m: ConsensusMsg) {
    && (m.Propose? ==> m.roundId in proposals && proposals[m.roundId] == m.value)
    && (m.Promise? ==> ReportOk(proposals, m.report))
  }

  /** startConsensus has not yet read the value to propose. */
  predicate Asking(pc: ClientPc) {
    (pc.Broadcasting? && pc.message.Prepare?) || pc.AwaitingPromises? || pc.Proposing?
  }

  ghost predicate NodeOk(proposals: map<int, Value>, used: set<int>, node: Node) {
    var context := node.member.context;
    && (node.lastRoundId == -1 || node.lastRoundId in used)
    && (InRound(node.client) ==> 0 <= context.roundId == node.lastRoundId)
    && (Asking(node.client) ==> context.roundId !in proposals)
    && (node.client.Broadcasting? ==> MessageOk(proposals, node.client.message))
    && (context.valueAccepted ==> context.acceptedId in proposals && context.acceptedId <= node.member.maxRoundId)
    && (context.valueAccepted && context.maxAcceptedId == -1 ==> context.acceptedValue == proposals[context.acceptedId])
    && (context.maxAcceptedId != -1 ==> context.acceptedValue == BestValue(Reports(node.heard)))
    && (forall h :: h in node.heard ==> ReportOk(proposals, h.report))
  }

  ghost predicate Proposals(proposals: map<int, Value>, used: set<int>) {
    forall r :: r in proposals ==> 0 <= r && r in used
  }

  ghost predicate DistinctRounds(s: System) {
    forall p, q {:trigger s.nodes[p], s.nodes[q]} :: IsNode(s, p) && IsNode(s, q) && p != q ==>
      s.nodes[p].lastRoundId != s.nodes[q].lastRoundId || s.nodes[p].lastRoundId == -1
  }

  ghost predicate MessagesOk(s: System) {
    forall a, b, m {:trigger m in Queue(s.consensus, a, b)} ::
      m in Queue(s.consensus, a, b) ==> MessageOk(s.proposals, m)
  }

  ghost predicate NodesOk(s: System) {
    forall p {:trigger s.nodes[p]} :: IsNode(s, p) ==> NodeOk(s.proposals, s.used, s.nodes[p])
  }

  ghost predicate ChoiceOk(s: System) {
    RoundsOk(s) && Proposals(s.proposals, s.used) && DistinctRounds(s) && MessagesOk(s) && NodesOk(s)
  }

  // ---------------------------------------------------------------------------
  // Steps

  lemma OtherChoice(s: System, step: Step)
    requires ChoiceOk(s) && Enabled(s, step) && !IsClientStep(step) && !step.DeliverConsensus?
    ensures Proposals(Apply(s, step).proposals, Apply(s, step).used) && DistinctRounds(Apply(s, step))
    ensures MessagesOk(Apply(s, step)) && NodesOk(Apply(s, step))
  {
    OtherEffect(s, step);
    var s' := Apply(s, step);
    assert forall p {:trigger s'.nodes[p]} :: IsNode(s, p) ==> SameRound(s.nodes[p], s'.nodes[p]);
  }

  /** A client step adds at most the proposal of its own round, which nobody proposed before. */
  ghost predicate ProposalsGrow(s: System, s': System) {
    && s'.used >= s.used
    && forall r :: r in s.proposals ==> r in s'.proposals && s'.proposals[r] == s.proposals[r]
  }

  lemma NodeKept(s: System, s': System, node: Node)
    requires NodeOk(s.proposals, s.used, node) && ProposalsGrow(s, s')
    requires Asking(node.client) ==> node.member.context.roundId !in s'.proposals
    ensures NodeOk(s'.proposals, s'.used, node)
  {
    if node.client.Broadcasting? {
      assert MessageOk(s'.proposals, node.client.message);
    }
    forall h | h in node.heard
      ensures ReportOk(s'.proposals, h.report)
    {
      assert ReportOk(s.proposals, h.report);
    }
  }

  lemma ClientNode(s: System, step: Step)
    requires Enabled(s, step) && IsClientStep(step) && !step.SendNext? && FreshId(s, step)
    requires Counted(|s.nodes|, step.p, s.nodes[step.p]) && Proposals(s.proposals, s.used)
    requires NodeOk(s.proposals, s.used, s.nodes[step.p])
    ensures var s', node, node' := Apply(s, step), s.nodes[step.p], Apply(s, step).nodes[step.p];
      && ProposalsGrow(s, s') && Proposals(s'.proposals, s'.used)
      && NodeOk(s'.proposals, s'.used, node')
      && (node'.lastRoundId == node.lastRoundId || node'.lastRoundId !in s.used)
      && (forall r :: r in s'.proposals && r !in s.proposals ==> r == node.lastRoundId && InRound(node.client))
  {
    if step.StartPropose? {
      StartProposeNode(s, step);
    }
  }

  lemma StartProposeNode(s: System, step: Step)
    requires Enabled(s, step) && step.StartPropose?
    requires NodeOk(s.proposals, s.used, s.nodes[step.p])
    ensures NodeOk(Apply(s, step).proposals, s.used, Apply(s, step).nodes[step.p])
  {
    var s', node := Apply(s, step), s.nodes[step.p];
    assert Asking(node.client);
    forall h | h in node.heard
      ensures ReportOk(s'.proposals, h.report)
    {
      assert ReportOk(s.proposals, h.report);
    }
  }

  /** Everything about the other nodes and the channels survives new proposals of a round that is p's own. */
  lemma OthersKept(s: System, s': System, p: int)
    requires NodesOk(s) && MessagesOk(s) && DistinctRounds(s) && ProposalsGrow(s, s') && IsNode(s, p)
    requires s'.consensus == s.consensus && IsNode(s', p) && s'.nodes == s.nodes[p := s'.nodes[p]]
    requires forall r :: r in s'.proposals && r !in s.proposals ==>
             r == s.nodes[p].lastRoundId && InRound(s.nodes[p].client)
    requires NodeOk(s.proposals, s.used, s.nodes[p])
    requires NodeOk(s'.proposals, s'.used, s'.nodes[p])
    ensures NodesOk(s') && MessagesOk(s')
  {
    forall q | IsNode(s', q)
      ensures NodeOk(s'.proposals, s'.used, s'.nodes[q])
    {
      if q != p {
        assert s'.nodes[q] == s.nodes[q];
        NodeKept(s, s', s.nodes[q]);
      }
    }
    forall a, b, m | m in Queue(s'.consensus, a, b)
      ensures MessageOk(s'.proposals, m)
    {
      assert MessageOk(s.proposals, m);
    }
  }

  lemma ClientChoice(s: System, step: Step)
    requires ChoiceOk(s) && Enabled(s, step) && FreshId(s, step) && IsClientStep(step) && !step.SendNext?
    ensures Proposals(Apply(s, step).proposals, Apply(s, step).used) && DistinctRounds(Apply(s, step))
    ensures MessagesOk(Apply(s, step)) && NodesOk(Apply(s, step))
  {
    var s', p := Apply(s, step), step.p;
    assert ProposerOk(s, p) && NodeOk(s.proposals, s.used, s.nodes[p]);
    ClientEffect(s, step);
    ClientNode(s, step);
    OthersKept(s, s', p);
    ClientDistinct(s, s', p);
  }

  lemma ClientDistinct(s: System, s': System, p: int)
    requires IsNode(s, p) && DistinctRounds(s) && NodesOk(s) && IsNode(s', p) && s'.nodes == s.nodes[p := s'.nodes[p]]
    requires s'.nodes[p].lastRoundId == s.nodes[p].lastRoundId || s'.nodes[p].lastRoundId !in s.used
    ensures DistinctRounds(s')
  {
    forall q | IsNode(s, q)
      ensures s.nodes[q].lastRoundId == -1 || s.nodes[q].lastRoundId in s.used
    {
      assert NodeOk(s.proposals, s.used, s.nodes[q]);
    }
  }

  lemma SendChoice(s: System, p: int)
    requires ChoiceOk(s) && IsNode(s, p) && s.nodes[p].client.Broadcasting?
    ensures Proposals(SendOne(s, p).proposals, SendOne(s, p).used) && DistinctRounds(SendOne(s, p))
    ensures MessagesOk(SendOne(s, p)) && NodesOk(SendOne(s, p))
  {
    SendChannels(s, p);
    assert ProposerOk(s, p);
    assert NodeOk(s.proposals, s.used, s.nodes[p]);
    assert SendOne(s, p).proposals == s.proposals && SendOne(s, p).used == s.used;
  }

  lemma DeliverChoice(s: System, s': System, src: int, dst: int)
    requires ChoiceOk(s) && Delivered(s, s', src, dst)
    requires InRound(s.nodes[dst].client) && src in s.nodes[dst].alive ==>
               Queue(s.consensus, src, dst)[0].Promise? || Queue(s.consensus, src, dst)[0].Accept?
    ensures Proposals(s'.proposals, s'.used) && DistinctRounds(s') && MessagesOk(s') && NodesOk(s')
  {
    var head := Queue(s.consensus, src, dst)[0];
    assert head in Queue(s.consensus, src, dst);
    assert ProposerOk(s, dst) && NodeOk(s.proposals, s.used, s.nodes[dst]);
    OutcomeRound(s.nodes[dst], src, head);
    OutcomeChoice(s.proposals, s.used, |s.nodes|, dst, s.nodes[dst], src, head);
    DeliverMessages(s, s', src, dst);
    DeliverNodes(s, s', dst);
  }

  lemma DeliverNodes(s: System, s': System, p: int)
    requires IsNode(s, p) && DistinctRounds(s) && NodesOk(s) && IsNode(s', p) && s'.nodes == s.nodes[p := s'.nodes[p]]
    requires s'.proposals == s.proposals && s'.used == s.used
    requires s'.nodes[p].lastRoundId == s.nodes[p].lastRoundId && NodeOk(s.proposals, s.used, s'.nodes[p])
    ensures DistinctRounds(s') && NodesOk(s')
  {
  }

  lemma DeliverMessages(s: System, s': System, src: int, dst: int)
    requires Delivered(s, s', src, dst) && MessagesOk(s)
    requires var reply := Outcome(s.nodes[dst], src, Queue(s.consensus, src, dst)[0]).1;
      reply.Some? ==> MessageOk(s.proposals, reply.value)
    ensures MessagesOk(s')
  {
    forall a, b, m | m in Queue(s'.consensus, a, b)
      ensures MessageOk(s.proposals, m)
    {
      DeliveredMember(s, s', src, dst, a, b, m);
    }
  }

  lemma OutcomeChoice(proposals: map<int, Value>, used: set<int>, n: int, p: int, node: Node, src: int,
                      message: ConsensusMsg)
    requires n > 0 && Counted(n, p, node) && NodeOk(proposals, used, node) && MessageOk(proposals, message)
    requires InRound(node.client) && src in node.alive ==> message.Promise? || message.Accept?
    ensures var (node', reply) := Outcome(node, src, message);
      NodeOk(proposals, used, node') && (reply.Some? ==> MessageOk(proposals, reply.value))
  {
    if message.Promise? {
      PromiseChoice(proposals, used, n, p, node, src, message.roundId, message.report);
    }
  }

  lemma PromiseChoice(proposals: map<int, Value>, used: set<int>, n: int, p: int, node: Node, src: int, roundId: int,
                      report: Option<Report>)
    requires n > 0 && Counted(n, p, node) && NodeOk(proposals, used, node) && ReportOk(proposals, report)
    ensures NodeOk(proposals, used, Receive(node, src, Promise(roundId, report)).0)
  {
    if roundId == node.member.context.roundId {
      SourcesAppend(node.heard, Heard(src, report));
      TallyAppend(Reports(node.heard), report);
    }
  }

  lemma ChoiceStep(s: System, step: Step, s': System)
    requires ChoiceOk(s) && Enabled(s, step) && Orderly(s, step) && s' == Apply(s, step)
    ensures ChoiceOk(s')
  {
    RoundsStep(s, step, s');
    if step.DeliverConsensus? {
      DeliveryEffect(s, step.src, step.dst);
      DeliverChoice(s, s', step.src, step.dst);
    } else if step.SendNext? {
      SendChoice(s, step.p);
    } else if IsClientStep(step) {
      ClientChoice(s, step);
    } else {
      OtherChoice(s, step);
    }
  }

  // ---------------------------------------------------------------------------
  // Whole runs

  ghost predicate OrderlyAt(states: seq<System>, steps: seq<Step>, i: int)
    requires |states| == |steps| + 1 && 0 <= i < |steps|
  {
    Enabled(states[i], steps[i]) && Orderly(states[i], steps[i])
  }

  ghost predicate OrderlyRun(states: seq<System>, steps: seq<Step>) {
    && IsRun(states, steps)
    && forall i {:trigger OrderlyAt(states, steps, i)} :: 0 <= i < |steps| ==> OrderlyAt(states, steps, i)
  }

  lemma ChoiceStarts(s: System)
    requires Initial(s)
    ensures ChoiceOk(s)
  {
    RoundsStart(s);
    forall p | IsNode(s, p)
      ensures NodeOk(s.proposals, s.used, s.nodes[p]) && s.nodes[p].lastRoundId == -1
    {
      assert s.nodes[p] == InitialNode(|s.nodes|, p).(leaderId := s.nodes[p].leaderId);
    }
  }

  lemma {:induction false} ChoiceHolds(states: seq<System>, steps: seq<Step>, k: nat)
    requires OrderlyRun(states, steps) && k < |states|
    ensures ChoiceOk(states[k])
  {
    if k == 0 {
      ChoiceStarts(states[0]);
    } else {
      ChoiceHolds(states, steps, k - 1);
      RunStep(states, steps, k - 1);
      assert OrderlyAt(states, steps, k - 1);
      ChoiceStep(states[k - 1], steps[k - 1], states[k]);
    }
  }

  /** In every state a node that holds an acceptance holds the value its round proposed, if and only if it counts no
      promise that reports another one: handlePromiseMessage writes an adopted value over the accepted one. */
  lemma AcceptedValueIff(states: seq<System>, steps: seq<Step>, k: nat, p: int)
    requires OrderlyRun(states, steps) && k < |states| && IsNode(states[k], p)
    requires states[k].nodes[p].member.context.valueAccepted
    ensures var context, proposals := states[k].nodes[p].member.context, states[k].proposals;
      && context.acceptedId in proposals && (context.maxAcceptedId != -1 ==> context.maxAcceptedId in proposals)
      && (context.acceptedValue == proposals[context.acceptedId] <==>
            context.maxAcceptedId == -1 || proposals[context.maxAcceptedId] == proposals[context.acceptedId])
    ensures !InRound(states[k].nodes[p].client) ==> states[k].nodes[p].member.context.maxAcceptedId == -1
  {
    ChoiceHolds(states, steps, k);
    var s, node := states[k], states[k].nodes[p];
    assert ProposerOk(s, p) && NodeOk(s.proposals, s.used, node);
    if node.member.context.maxAcceptedId != -1 {
      var reports := Reports(node.heard);
      BestIsReported(reports);
      var i :| 0 <= i < |reports| && reports[i] == Some(Report(MaxReported(reports), BestValue(reports)));
      assert node.heard[i] in node.heard;
    }
  }

  /** All nodes that hold an acceptance of round r and have adopted nothing, as every node outside its own
      startConsensus, hold the same value: the one round r proposed. */
  lemma SameRoundSameValue(states: seq<System>, steps: seq<Step>, k: nat, p: int, q: int)
    requires OrderlyRun(states, steps) && k < |states| && IsNode(states[k], p) && IsNode(states[k], q)
    requires !InRound(states[k].nodes[p].client) || states[k].nodes[p].member.context.maxAcceptedId == -1
    requires !InRound(states[k].nodes[q].client) || states[k].nodes[q].member.context.maxAcceptedId == -1
    requires states[k].nodes[p].member.context.valueAccepted && states[k].nodes[q].member.context.valueAccepted
    requires states[k].nodes[p].member.context.acceptedId == states[k].nodes[q].member.context.acceptedId
    ensures states[k].nodes[p].member.context.acceptedValue == states[k].nodes[q].member.context.acceptedValue
  {
    AcceptedValueIff(states, steps, k, p);
    AcceptedValueIff(states, steps, k, q);
  }

  /** The value a PROPOSE carries: the client's exactly when no counted promise reported an acceptance, otherwise the
      value of the highest round reported; and the order in which the promises arrived is irrelevant. */
  lemma ProposeCarriesChoice(states: seq<System>, steps: seq<Step>, k: nat)
    requires OrderlyRun(states, steps) && k < |steps| && steps[k].StartPropose? && IsNode(states[k], steps[k].p)
    requires states[k].nodes[steps[k].p].client.Proposing?
    ensures var node := states[k].nodes[steps[k].p]; var reports := Reports(node.heard);
      var value := node.client.value; var proposed := ProposedValue(node.member.context, value);
      && proposed == Choice(value, reports)
      && (MaxReported(reports) == -1 <==> forall r :: r in reports ==> r.None?)
      && (MaxReported(reports) != -1 ==>
            Some(Report(MaxReported(reports), proposed)) in reports
            && forall r :: r in reports && r.Some? ==> r.value.id <= MaxReported(reports))
      && (forall permuted :: multiset(permuted) == multiset(reports) ==> Choice(value, permuted) == proposed)
  {
    ChoiceHolds(states, steps, k);
    var s, p := states[k], steps[k].p;
    var node := s.nodes[p];
    assert ProposerOk(s, p) && NodeOk(s.proposals, s.used, node);
    var reports := Reports(node.heard);
    BestIsReported(reports);
    forall r | r in reports
      ensures ReportOk(s.proposals, r)
    {
      var i :| 0 <= i < |reports| && reports[i] == r;
      assert node.heard[i] in node.heard;
    }
    forall r | r in reports && r.Some?
      ensures MaxReported(reports) != -1
    {
      assert ReportedId(r) <= MaxReported(reports) && r.value.id in s.proposals;
    }
    assert Consistent(reports);
    forall permuted | multiset(permuted) == multiset(reports)
      ensures Choice(node.client.value, permuted) == Choice(node.client.value, reports)
    {
      ChoiceIgnoresOrder(node.client.value, reports, permuted);
    }
  }
}

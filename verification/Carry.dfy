/** A value accepted by a quorum survives a change of leader: every PROPOSE of the new leader carries it. */
module Carry {
  import opened Messages
  import opened Consensus
  import opened Cluster
  import opened Rounds
  import opened Choice

  /** The situation when the old leader falls silent: its last round is the latest of all, and at least (N-1)/2 nodes
      other than the two leaders have accepted it. */
  ghost predicate AcceptedByQuorum(s: System, former: int, heir: int, r: int, acceptors: set<int>) {
    && IsNode(s, former) && IsNode(s, heir) && former != heir
    && (forall u :: u in s.used ==> u <= r) && s.nodes[former].lastRoundId == r && r in s.proposals
    && !InRound(s.nodes[heir].client)
    && |acceptors| >= Quorum(|s.nodes|)
    && forall a :: a in acceptors ==>
         && IsNode(s, a) && a != former && a != heir && !InRound(s.nodes[a].client)
         && s.nodes[a].member.context.valueAccepted && s.nodes[a].member.context.acceptedId == r
  }

  /** From then on: the old leader takes no step, only the new one starts rounds, with ids above the old leader's
      last, and no acceptor of the quorum resets its context by handling ACCEPTED. */
  ghost predicate Takeover(s: System, step: Step, former: int, heir: int, r: int, acceptors: set<int>)
    requires Enabled(s, step)
  {
    && Orderly(s, step)
    && Actor(step) != former
    && (step.StartRound? ==> step.p == heir && step.id > r)
    && (step.DeliverConsensus? && step.dst in acceptors && step.src in s.nodes[step.dst].alive ==>
          !Queue(s.consensus, step.src, step.dst)[0].Accepted?)
  }

  // ---------------------------------------------------------------------------
  // The invariant

  ghost predicate ReportsFrom(r: int, report: Option<Report>) {
    report.Some? && report.value.id >= r
  }

  /** A promise for one of the new leader's rounds: never the old leader's, and one that reports round r or later when
      it comes from the quorum. */
  ghost predicate PromiseCarries(former: int, r: int, acceptors: set<int>, src: int, report: Option<Report>) {
    src != former && (src in acceptors ==> ReportsFrom(r, report))
  }

  /** The node, outside any startConsensus of its own, holds an acceptance of round r or later. */
  ghost predicate Holds(node: Node, r: int) {
    !InRound(node.client) && node.member.context.valueAccepted && node.member.context.acceptedId >= r
  }

  ghost predicate Holders(s: System, former: int, heir: int, r: int, acceptors: set<int>) {
    && |s.nodes| > 0 && |acceptors| >= Quorum(|s.nodes|)
    && forall a {:trigger a in acceptors} :: a in acceptors ==>
         IsNode(s, a) && a != former && a != heir && Holds(s.nodes[a], r)
  }

  /** Only the new leader has rounds later than r. */
  ghost predicate Lags(s: System, former: int, heir: int, r: int)
    requires IsNode(s, former)
  {
    && s.nodes[former].lastRoundId == r
    && forall w {:trigger IsNode(s, w)} :: IsNode(s, w) && w != heir ==>
         s.nodes[w].lastRoundId <= r && (w != former ==> s.nodes[w].lastRoundId != r)
  }

  ghost predicate Answers(s: System, former: int, heir: int, r: int, acceptors: set<int>) {
    forall a, m {:trigger m in Queue(s.consensus, a, heir)} ::
      m in Queue(s.consensus, a, heir) && m.Promise? && m.roundId > r ==>
          PromiseCarries(former, r, acceptors, a, m.report)
  }

  ghost predicate Hears(node: Node, former: int, r: int, acceptors: set<int>) {
    && (InRound(node.client) ==> node.lastRoundId > r)
    && forall h :: h in node.heard ==> PromiseCarries(former, r, acceptors, h.src, h.report)
  }

  ghost predicate ProposedSince(proposals: map<int, Value>, r: int, v: Value) {
    r in proposals && forall k :: k in proposals && k >= r ==> proposals[k] == v
  }

  ghost predicate Carries(s: System, former: int, heir: int, r: int, v: Value, acceptors: set<int>) {
    && IsNode(s, former) && IsNode(s, heir) && former != heir
    && ProposedSince(s.proposals, r, v)
    && Holders(s, former, heir, r, acceptors)
    && Lags(s, former, heir, r)
    && Answers(s, former, heir, r, acceptors)
    && Hears(s.nodes[heir], former, r, acceptors)
  }

  lemma CarriesStart(s: System, former: int, heir: int, r: int, acceptors: set<int>)
    requires ChoiceOk(s) && AcceptedByQuorum(s, former, heir, r, acceptors)
    ensures Carries(s, former, heir, r, s.proposals[r], acceptors)
  {
    assert ProposerOk(s, heir);
    forall w | IsNode(s, w) && w != heir
      ensures s.nodes[w].lastRoundId <= r && (w != former ==> s.nodes[w].lastRoundId != r)
    {
      assert NodeOk(s.proposals, s.used, s.nodes[w]);
      assert s.nodes[w].lastRoundId == s.nodes[former].lastRoundId ==> w == former || r == -1;
    }
    assert NodeOk(s.proposals, s.used, s.nodes[heir]);
  }

  // ---------------------------------------------------------------------------
  // The new leader's choice

  /** A quorum of promises that excludes the old leader meets the acceptors, when N is odd: the highest report is at
      least r. */
  lemma HeardTheQuorum(n: int, former: int, heir: int, r: int, acceptors: set<int>, heard: seq<Heard>)
    requires n % 2 == 1 && 0 <= former < n && 0 <= heir < n && former != heir
    requires |acceptors| >= Quorum(n) && |heard| >= Quorum(n) && DistinctSources(heard)
    requires forall a :: a in acceptors ==> 0 <= a < n && a != former && a != heir
    requires forall h :: h in heard ==>
             0 <= h.src < n && h.src != heir && PromiseCarries(former, r, acceptors, h.src, h.report)
    ensures MaxReported(Reports(heard)) >= r
  {
    SourcesSize(heard);
    var sources, others := Sources(heard), Nodes(n) - {former, heir};
    assert Nodes(n) == others + {former, heir};
    assert sources <= others && acceptors <= others;
    MustMeet(sources, acceptors, others);
    var a :| a in sources * acceptors;
    var h :| h in heard && h.src == a;
    HeardFrom(r, heard, h);
  }

  lemma HeardFrom(r: int, heard: seq<Heard>, h: Heard)
    requires h in heard && ReportsFrom(r, h.report)
    ensures MaxReported(Reports(heard)) >= r
  {
    var i :| 0 <= i < |heard| && heard[i] == h;
    assert Reports(heard)[i] == h.report;
    BestIsReported(Reports(heard));
    assert h.report in Reports(heard);
  }

  /** The PROPOSE of the new leader carries v. */
  lemma NewLeaderProposes(s: System, former: int, heir: int, r: int, v: Value, acceptors: set<int>)
    requires ChoiceOk(s) && Carries(s, former, heir, r, v, acceptors) && |s.nodes| % 2 == 1
    requires s.nodes[heir].client.Proposing?
    ensures ProposedValue(s.nodes[heir].member.context, s.nodes[heir].client.value) == v
  {
    var node := s.nodes[heir];
    assert ProposerOk(s, heir) && NodeOk(s.proposals, s.used, node);
    HeardTheQuorum(|s.nodes|, former, heir, r, acceptors, node.heard);
    var reports := Reports(node.heard);
    BestIsReported(reports);
    assert Proposals(s.proposals, s.used);
    var best := Some(Report(MaxReported(reports), BestValue(reports)));
    var i :| 0 <= i < |reports| && reports[i] == best;
    assert node.heard[i] in node.heard;
    assert ReportOk(s.proposals, node.heard[i].report);
  }

  // ---------------------------------------------------------------------------
  // Steps

  /** Nobody's rounds, acceptances and counts change. */
  lemma UnchangedCarries(s: System, s': System, former: int, heir: int, r: int, v: Value, acceptors: set<int>)
    requires Carries(s, former, heir, r, v, acceptors)
    requires |s'.nodes| == |s.nodes| && s'.proposals == s.proposals
    requires forall p {:trigger s'.nodes[p]} :: IsNode(s, p) ==>
      && s'.nodes[p].member.context == s.nodes[p].member.context && s'.nodes[p].lastRoundId == s.nodes[p].lastRoundId
      && s'.nodes[p].heard == s.nodes[p].heard && InRound(s'.nodes[p].client) == InRound(s.nodes[p].client)
    requires forall a, m {:trigger m in Queue(s'.consensus, a, heir)} ::
      m in Queue(s'.consensus, a, heir) && m.Promise? ==> m in Queue(s.consensus, a, heir)
    ensures Carries(s', former, heir, r, v, acceptors)
  {
    forall a | a in acceptors
      ensures IsNode(s', a) && Holds(s'.nodes[a], r)
    {
      assert Holds(s.nodes[a], r);
    }
    forall w | IsNode(s', w) && w != heir
      ensures s'.nodes[w].lastRoundId <= r && (w != former ==> s'.nodes[w].lastRoundId != r)
    {
      assert IsNode(s, w);
    }
  }

  lemma OtherCarries(s: System, step: Step, former: int, heir: int, r: int, v: Value, acceptors: set<int>)
    requires Carries(s, former, heir, r, v, acceptors)
    requires Enabled(s, step) && !IsClientStep(step) && !step.DeliverConsensus?
    ensures Carries(Apply(s, step), former, heir, r, v, acceptors)
  {
    OtherEffect(s, step);
    var s' := Apply(s, step);
    assert forall p {:trigger s'.nodes[p]} :: IsNode(s, p) ==> SameRound(s.nodes[p], s'.nodes[p]);
    UnchangedCarries(s, s', former, heir, r, v, acceptors);
  }

  lemma SendCarries(s: System, p: int, former: int, heir: int, r: int, v: Value, acceptors: set<int>)
    requires RoundsOk(s) && Carries(s, former, heir, r, v, acceptors)
    requires IsNode(s, p) && s.nodes[p].client.Broadcasting?
    ensures Carries(SendOne(s, p), former, heir, r, v, acceptors)
  {
    var s' := SendOne(s, p);
    SendChannels(s, p);
    assert ProposerOk(s, p);
    assert s'.proposals == s.proposals;
    forall q | IsNode(s, q)
      ensures s'.nodes[q].member.context == s.nodes[q].member.context
              && s'.nodes[q].lastRoundId == s.nodes[q].lastRoundId
      ensures s'.nodes[q].heard == s.nodes[q].heard && InRound(s'.nodes[q].client) == InRound(s.nodes[q].client)
    {
      assert q != p ==> s'.nodes[q] == s.nodes[q];
    }
    UnchangedCarries(s, s', former, heir, r, v, acceptors);
  }

  /** What Carries needs to know about a client step. */
  lemma ClientPart(s: System, step: Step)
    requires Enabled(s, step) && IsClientStep(step) && !step.SendNext?
    requires Counted(|s.nodes|, step.p, s.nodes[step.p]) && NodeOk(s.proposals, s.used, s.nodes[step.p])
    ensures var s', node, node' := Apply(s, step), s.nodes[step.p], Apply(s, step).nodes[step.p];
      && (step.StartRound? || (node'.lastRoundId == node.lastRoundId
                               && (InRound(node'.client) ==> InRound(node.client))))
      && (step.StartRound? ==> node'.lastRoundId == step.id)
      && (node'.heard == node.heard || node'.heard == [])
      && (!InRound(node.client) && !step.StartRound? ==> node'.member == node.member)
      && s'.proposals == (if step.StartPropose?
                          then s.proposals[node.lastRoundId := ProposedValue(node.member.context, node.client.value)]
                          else s.proposals)
  {
  }

  lemma ClientCarries(s: System, step: Step, former: int, heir: int, r: int, v: Value, acceptors: set<int>)
    requires ChoiceOk(s) && Carries(s, former, heir, r, v, acceptors) && |s.nodes| % 2 == 1
    requires Enabled(s, step) && Takeover(s, step, former, heir, r, acceptors) && IsClientStep(step) && !step.SendNext?
    ensures Carries(Apply(s, step), former, heir, r, v, acceptors)
  {
    assert ProposerOk(s, step.p) && NodeOk(s.proposals, s.used, s.nodes[step.p]);
    ClientEffect(s, step);
    ClientPart(s, step);
    if step.StartPropose? && step.p == heir {
      NewLeaderProposes(s, former, heir, r, v, acceptors);
    }
    assert Proposals(s.proposals, s.used);
    ClientMoved(s, Apply(s, step), step.p, former, heir, r, v, acceptors);
  }

  /** One node other than the old leader goes on with its rounds. */
  lemma ClientMoved(s: System, s': System, p: int, former: int, heir: int, r: int, v: Value, acceptors: set<int>)
    requires Carries(s, former, heir, r, v, acceptors) && IsNode(s, p) && p != former && IsNode(s', p)
    requires s'.consensus == s.consensus && s'.nodes == s.nodes[p := s'.nodes[p]]
    requires ProposedSince(s'.proposals, r, v)
    requires var node, node' := s.nodes[p], s'.nodes[p];
      && (p != heir ==> node'.lastRoundId == node.lastRoundId && (InRound(node'.client) ==> InRound(node.client)))
      && (p == heir ==> (InRound(node'.client) ==> node'.lastRoundId > r))
      && (node'.heard == node.heard || node'.heard == [])
      && (!InRound(node.client) && p != heir ==> node'.member == node.member)
    ensures Carries(s', former, heir, r, v, acceptors)
  {
    forall a | a in acceptors
      ensures IsNode(s', a) && Holds(s'.nodes[a], r)
    {
      assert Holds(s.nodes[a], r);
      assert a != p ==> s'.nodes[a] == s.nodes[a];
    }
    forall w | IsNode(s', w) && w != heir
      ensures s'.nodes[w].lastRoundId <= r && (w != former ==> s'.nodes[w].lastRoundId != r)
    {
      assert IsNode(s, w);
    }
  }

  // ---------------------------------------------------------------------------
  // Deliveries

  /** An acceptor keeps holding round r or later, and says so in every promise. */
  lemma OutcomeHolds(node: Node, src: int, message: ConsensusMsg, r: int)
    requires Holds(node, r) && node.member.context.acceptedId <= node.member.maxRoundId
    requires src in node.alive ==> !message.Accepted?
    ensures var (node', reply) := Outcome(node, src, message);
      Holds(node', r) && (reply.Some? && reply.value.Promise? ==> ReportsFrom(r, reply.value.report))
  {
  }

  lemma DeliverCarries(s: System, s': System, src: int, dst: int, former: int, heir: int, r: int, v: Value,
                       acceptors: set<int>)
    requires ChoiceOk(s) && Carries(s, former, heir, r, v, acceptors) && Delivered(s, s', src, dst)
    requires dst != former
    requires dst in acceptors && src in s.nodes[dst].alive ==> !Queue(s.consensus, src, dst)[0].Accepted?
    ensures Carries(s', former, heir, r, v, acceptors)
  {
    var head := Queue(s.consensus, src, dst)[0];
    assert ProposerOk(s, dst) && ProposerOk(s, heir) && ProposerOk(s, src);
    assert NodeOk(s.proposals, s.used, s.nodes[dst]);
    OutcomeRound(s.nodes[dst], src, head);
    if dst in acceptors {
      OutcomeHolds(s.nodes[dst], src, head, r);
    }
    DeliverHolders(s, s', src, dst, former, heir, r, acceptors);
    DeliverLags(s, s', src, dst, former, heir, r);
    DeliverAnswers(s, s', src, dst, former, heir, r, acceptors);
    DeliverHears(s, s', src, dst, former, heir, r, acceptors);
  }

  lemma DeliverHolders(s: System, s': System, src: int, dst: int, former: int, heir: int, r: int, acceptors: set<int>)
    requires Delivered(s, s', src, dst) && Holders(s, former, heir, r, acceptors)
    requires dst in acceptors ==> Holds(s'.nodes[dst], r)
    ensures Holders(s', former, heir, r, acceptors)
  {
    forall a | a in acceptors
      ensures IsNode(s', a) && Holds(s'.nodes[a], r)
    {
      assert Holds(s.nodes[a], r);
      assert a != dst ==> s'.nodes[a] == s.nodes[a];
    }
  }

  lemma DeliverLags(s: System, s': System, src: int, dst: int, former: int, heir: int, r: int)
    requires Delivered(s, s', src, dst) && IsNode(s, former) && Lags(s, former, heir, r)
    requires s'.nodes[dst].lastRoundId == s.nodes[dst].lastRoundId
    ensures Lags(s', former, heir, r)
  {
    forall w | IsNode(s', w) && w != heir
      ensures s'.nodes[w].lastRoundId <= r && (w != former ==> s'.nodes[w].lastRoundId != r)
    {
      assert IsNode(s, w);
      assert w != dst ==> s'.nodes[w] == s.nodes[w];
    }
  }

  lemma DeliverAnswers(s: System, s': System, src: int, dst: int, former: int, heir: int, r: int, acceptors: set<int>)
    requires Delivered(s, s', src, dst) && Answers(s, former, heir, r, acceptors) && dst != former
    requires var reply := Outcome(s.nodes[dst], src, Queue(s.consensus, src, dst)[0]).1;
      dst in acceptors && reply.Some? && reply.value.Promise? ==> ReportsFrom(r, reply.value.report)
    ensures Answers(s', former, heir, r, acceptors)
  {
    forall a, m | m in Queue(s'.consensus, a, heir) && m.Promise? && m.roundId > r
      ensures PromiseCarries(former, r, acceptors, a, m.report)
    {
      DeliveredMember(s, s', src, dst, a, heir, m);
    }
  }

  lemma DeliverHears(s: System, s': System, src: int, dst: int, former: int, heir: int, r: int, acceptors: set<int>)
    requires Delivered(s, s', src, dst) && Answers(s, former, heir, r, acceptors) && IsNode(s, heir)
    requires Hears(s.nodes[heir], former, r, acceptors)
    requires Counted(|s.nodes|, heir, s.nodes[heir]) && NodeOk(s.proposals, s.used, s.nodes[heir]) && OwnIds(s, heir)
    ensures Hears(s'.nodes[heir], former, r, acceptors)
  {
    var head := Queue(s.consensus, src, dst)[0];
    assert head in Queue(s.consensus, src, dst);
    OutcomeRound(s.nodes[dst], src, head);
    assert dst != heir ==> s'.nodes[heir] == s.nodes[heir];
  }

  // ---------------------------------------------------------------------------
  // Whole runs

  lemma CarriesStep(s: System, step: Step, s': System, former: int, heir: int, r: int, v: Value, acceptors: set<int>)
    requires ChoiceOk(s) && Carries(s, former, heir, r, v, acceptors) && |s.nodes| % 2 == 1
    requires Enabled(s, step) && Takeover(s, step, former, heir, r, acceptors) && s' == Apply(s, step)
    ensures Carries(s', former, heir, r, v, acceptors)
  {
    if step.DeliverConsensus? {
      DeliveryEffect(s, step.src, step.dst);
      DeliverCarries(s, s', step.src, step.dst, former, heir, r, v, acceptors);
    } else if step.SendNext? {
      SendCarries(s, step.p, former, heir, r, v, acceptors);
    } else if IsClientStep(step) {
      ClientCarries(s, step, former, heir, r, v, acceptors);
    } else {
      OtherCarries(s, step, former, heir, r, v, acceptors);
    }
  }

  ghost predicate TakeoverAt(states: seq<System>, steps: seq<Step>, i: int, former: int, heir: int, r: int,
                             acceptors: set<int>)
    requires |states| == |steps| + 1 && 0 <= i < |steps|
  {
    Enabled(states[i], steps[i]) && Takeover(states[i], steps[i], former, heir, r, acceptors)
  }

  /** An orderly run in which the old leader falls silent in state t with its last PROPOSE accepted by a quorum. */
  ghost predicate TakeoverRun(states: seq<System>, steps: seq<Step>, t: nat, former: int, heir: int, r: int,
                              acceptors: set<int>)
  {
    && OrderlyRun(states, steps) && t < |states|
    && |states[0].nodes| % 2 == 1
    && AcceptedByQuorum(states[t], former, heir, r, acceptors)
    && forall i {:trigger TakeoverAt(states, steps, i, former, heir, r, acceptors)} :: t <= i < |steps| ==>
         TakeoverAt(states, steps, i, former, heir, r, acceptors)
  }

  lemma {:induction false} CarriesHolds(states: seq<System>, steps: seq<Step>, t: nat, k: nat, former: int,
                                        heir: int, r: int, acceptors: set<int>)
    requires TakeoverRun(states, steps, t, former, heir, r, acceptors) && t <= k < |states|
    ensures r in states[t].proposals
    ensures Carries(states[k], former, heir, r, states[t].proposals[r], acceptors)
    ensures |states[k].nodes| % 2 == 1
  {
    ChoiceHolds(states, steps, t);
    RunSize(states, steps, k);
    if k == t {
      CarriesStart(states[t], former, heir, r, acceptors);
    } else {
      CarriesHolds(states, steps, t, k - 1, former, heir, r, acceptors);
      CarriesNext(states, steps, t, k - 1, former, heir, r, states[t].proposals[r], acceptors);
    }
  }

  lemma CarriesNext(states: seq<System>, steps: seq<Step>, t: nat, k: nat, former: int, heir: int, r: int, v: Value,
                    acceptors: set<int>)
    requires TakeoverRun(states, steps, t, former, heir, r, acceptors) && t <= k < |steps|
    requires Carries(states[k], former, heir, r, v, acceptors) && |states[k].nodes| % 2 == 1
    ensures Carries(states[k + 1], former, heir, r, v, acceptors)
  {
    ChoiceHolds(states, steps, k);
    RunStep(states, steps, k);
    assert TakeoverAt(states, steps, k, former, heir, r, acceptors);
    CarriesStep(states[k], steps[k], states[k + 1], former, heir, r, v, acceptors);
  }

  /** However many rounds the new leader needs: whenever one of its prepare phases succeeds, the PROPOSE that follows
      carries the value the old leader's last round proposed. */
  lemma AcceptedValueIsCarried(states: seq<System>, steps: seq<Step>, t: nat, k: nat, former: int, heir: int, r: int,
                               acceptors: set<int>)
    requires TakeoverRun(states, steps, t, former, heir, r, acceptors) && t <= k < |steps|
    requires steps[k].StartPropose? && steps[k].p == heir && IsNode(states[k], heir)
             && states[k].nodes[heir].client.Proposing?
    ensures r in states[t].proposals
    ensures ProposedValue(states[k].nodes[heir].member.context, states[k].nodes[heir].client.value)
            == states[t].proposals[r]
  {
    CarriesHolds(states, steps, t, k, former, heir, r, acceptors);
    ChoiceHolds(states, steps, k);
    NewLeaderProposes(states[k], former, heir, r, states[t].proposals[r], acceptors);
  }
}

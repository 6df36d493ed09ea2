/** What a count of ACCEPT messages has behind it. For every run in which round ids are unique, a node that runs
    startConsensus hears nothing of other proposers, and the ids of a node's own messages go up. */
module Votes {
  import opened Messages
  import opened Consensus
  import opened Cluster
  import opened Rounds
  import opened Choice
  import Validity

  /** PREPARE and PROPOSE of one node carry increasing ids (see Clock: the waits between them see to that). */
  ghost predicate MessageIdsIncrease(s: System, step: Step)
    requires Enabled(s, step)
  {
    && (step.StartRound? ==> step.id > s.nodes[step.p].lastProposeId)
    && (step.StartPropose? ==> step.id > s.nodes[step.p].lastRoundId)
  }

  /** The senders of the votes whose id is above that of round r. */
  function VotersAbove(votes: seq<Vote>, r: int): set<int> {
    set v | v in votes && v.proposeId > r :: v.src
  }

  /** The nodes counted for the PROPOSE of the last round: handled ACCEPT messages whose id is above that round's. */
  function Acceptors(node: Node): set<int> {
    VotersAbove(node.votes, node.lastRoundId)
  }

  /** Every ACCEPT handled since the context was reset carries an id above that of the last round. handleAcceptMessage
      receives the id and does not look at it. */
  ghost predicate OnlyOwnVotes(node: Node) {
    forall v :: v in node.votes ==> v.proposeId > node.lastRoundId
  }

  // ---------------------------------------------------------------------------
  // The invariant

  /** No two ACCEPT messages counted for round r are of the same node. */
  ghost predicate DistinctVotes(votes: seq<Vote>, r: int) {
    forall i, j :: 0 <= i < j < |votes| && votes[i].proposeId > r && votes[j].proposeId > r ==>
      votes[i].src != votes[j].src
  }

  function ProposeOwed(pc: ClientPc, a: int): nat {
    if pc.Broadcasting? && pc.message.Propose? && pc.next <= a then 1 else 0
  }

  /** Where the one acceptance a may give to p's last round can be: still to be asked for, on its way, or handled. */
  function VoteTokens(s: System, p: int, a: int): nat
    requires IsNode(s, p)
  {
    var node := s.nodes[p];
    ProposeOwed(node.client, a)
    + Count(Queue(s.consensus, p, a), ProposeAbove(node.lastRoundId))
    + Count(Queue(s.consensus, a, p), AcceptAbove(node.lastRoundId))
    + if a in Acceptors(node) then 1 else 0
  }

  /** a accepted what round r proposed. */
  ghost predicate HasVoted(s: System, a: int, r: int) {
    IsNode(s, a) && r in s.proposals && Voted(r, s.proposals[r]) in s.nodes[a].events
  }

  ghost predicate OneVote(s: System, p: int, a: int)
    requires IsNode(s, p)
  {
    var node := s.nodes[p];
    && VoteTokens(s, p, a) <= 1
    && (a in Acceptors(node) || Count(Queue(s.consensus, a, p), AcceptAbove(node.lastRoundId)) > 0 ==>
          HasVoted(s, a, node.lastRoundId))
  }

  /** What p keeps of its own PROPOSE ids. */
  ghost predicate Tally(n: int, p: int, node: Node) {
    && DistinctVotes(node.votes, node.lastRoundId)
    && (forall v :: v in node.votes ==> 0 <= v.src < n && v.src != p && v.proposeId <= node.lastProposeId)
    && (Asking(node.client) ==> node.lastProposeId <= node.lastRoundId)
    && (node.client.Broadcasting? && node.client.message.Propose? ==>
          && node.lastRoundId < node.client.message.id <= node.lastProposeId
          && node.client.message.roundId == node.lastRoundId)
  }

  /** A PROPOSE of p, or an ACCEPT to p, carries an id p has given; above the last round's it is of that round. */
  ghost predicate InFlight(s: System, p: int)
    requires IsNode(s, p)
  {
    var node := s.nodes[p];
    && (forall a, m {:trigger m in Queue(s.consensus, p, a)} :: m in Queue(s.consensus, p, a) && m.Propose? ==>
          m.id <= node.lastProposeId && (m.id > node.lastRoundId ==> m.roundId == node.lastRoundId))
    && (forall a, m {:trigger m in Queue(s.consensus, a, p)} :: m in Queue(s.consensus, a, p) && m.Accept? ==>
          m.proposeId <= node.lastProposeId)
  }

  ghost predicate VoterOk(s: System, p: int)
    requires IsNode(s, p)
  {
    && Tally(|s.nodes|, p, s.nodes[p])
    && InFlight(s, p)
    && (forall a {:trigger OneVote(s, p, a)} :: IsNode(s, a) && a != p ==> OneVote(s, p, a))
  }

  ghost predicate VotesOk(s: System) {
    ChoiceOk(s) && forall p {:trigger VoterOk(s, p)} :: IsNode(s, p) ==> VoterOk(s, p)
  }

  /** Votes and proposals are never taken back. */
  ghost predicate Remembered(s: System, s': System) {
    && |s'.nodes| == |s.nodes|
    && ProposalsGrow(s, s')
    && forall a {:trigger s'.nodes[a]} :: IsNode(s, a) ==> s.nodes[a].events <= s'.nodes[a].events
  }

  lemma VoteKept(s: System, s': System, a: int, r: int)
    requires Remembered(s, s') && HasVoted(s, a, r)
    ensures HasVoted(s', a, r)
  {
    assert s'.nodes[a].events[..|s.nodes[a].events|] == s.nodes[a].events;
  }

  // ---------------------------------------------------------------------------
  // Steps that leave the channels alone

  /** p's last round goes on, or stands still: what p still owes becomes less, and votes are kept or forgotten. */
  ghost predicate SameVote(node: Node, node': Node) {
    && node'.lastRoundId == node.lastRoundId && node'.lastProposeId == node.lastProposeId
    && (node'.votes == node.votes || node'.votes == [])
    && forall a {:trigger ProposeOwed(node'.client, a)} ::
         ProposeOwed(node'.client, a) <= ProposeOwed(node.client, a)
  }

  lemma VoterKept(s: System, s': System, p: int)
    requires IsNode(s, p) && VoterOk(s, p) && Remembered(s, s') && s'.consensus == s.consensus
    requires SameVote(s.nodes[p], s'.nodes[p]) && Tally(|s'.nodes|, p, s'.nodes[p])
    ensures VoterOk(s', p)
  {
    forall a | IsNode(s', a) && a != p
      ensures OneVote(s', p, a)
    {
      assert OneVote(s, p, a);
      if HasVoted(s, a, s.nodes[p].lastRoundId) {
        VoteKept(s, s', a, s.nodes[p].lastRoundId);
      }
    }
  }

  /** A round begins, or it begins to propose: nothing in flight and nothing counted is above its id. */
  lemma FreshVoter(s: System, s': System, p: int)
    requires IsNode(s, p) && VoterOk(s, p) && |s'.nodes| == |s.nodes| && s'.consensus == s.consensus
    requires Tally(|s'.nodes|, p, s'.nodes[p]) && s'.nodes[p].votes == s.nodes[p].votes
    requires s.nodes[p].lastProposeId <= s'.nodes[p].lastRoundId
    requires s.nodes[p].lastProposeId <= s'.nodes[p].lastProposeId
    ensures VoterOk(s', p)
  {
    var r := s'.nodes[p].lastRoundId;
    assert Acceptors(s'.nodes[p]) == {};
    forall a | IsNode(s', a) && a != p
      ensures OneVote(s', p, a)
    {
      CountZero(Queue(s.consensus, p, a), ProposeAbove(r));
      CountZero(Queue(s.consensus, a, p), AcceptAbove(r));
    }
  }

  lemma StartTally(s: System, step: Step)
    requires Enabled(s, step) && (step.StartRound? || step.StartPropose?)
    requires MessageIdsIncrease(s, step) && FreshId(s, step)
    requires Tally(|s.nodes|, step.p, s.nodes[step.p]) && NodeOk(s.proposals, s.used, s.nodes[step.p])
    ensures Tally(|s.nodes|, step.p, Apply(s, step).nodes[step.p])
  {
  }

  lemma ClientTally(s: System, step: Step)
    requires Enabled(s, step) && IsClientStep(step) && !step.SendNext?
    requires MessageIdsIncrease(s, step) && FreshId(s, step)
    requires Tally(|s.nodes|, step.p, s.nodes[step.p]) && NodeOk(s.proposals, s.used, s.nodes[step.p])
    ensures var node, node' := s.nodes[step.p], Apply(s, step).nodes[step.p];
      && Tally(|s.nodes|, step.p, node')
      && (step.StartRound? || step.StartPropose? ==>
            && node'.votes == node.votes
            && node.lastProposeId <= node'.lastRoundId && node.lastProposeId <= node'.lastProposeId)
      && (!step.StartRound? && !step.StartPropose? ==> SameVote(node, node'))
  {
    if step.StartRound? || step.StartPropose? {
      StartTally(s, step);
    }
  }

  lemma ClientRemembers(s: System, step: Step)
    requires Enabled(s, step) && IsClientStep(step) && !step.SendNext?
    requires NodeOk(s.proposals, s.used, s.nodes[step.p]) && FreshId(s, step)
    ensures Remembered(s, Apply(s, step))
  {
    ClientEffect(s, step);
    if step.StartPropose? {
      assert Asking(s.nodes[step.p].client);
    }
  }

  lemma ClientVoter(s: System, step: Step, s': System, p: int)
    requires VotesOk(s) && Enabled(s, step) && IsClientStep(step) && !step.SendNext? && s' == Apply(s, step)
    requires MessageIdsIncrease(s, step) && FreshId(s, step) && IsNode(s, p)
    ensures IsNode(s', p) && VoterOk(s', p)
  {
    assert VoterOk(s, step.p) && VoterOk(s, p) && NodeOk(s.proposals, s.used, s.nodes[step.p]);
    ClientEffect(s, step);
    ClientTally(s, step);
    ClientRemembers(s, step);
    if p == step.p && (step.StartRound? || step.StartPropose?) {
      FreshVoter(s, s', p);
    } else {
      VoterKept(s, s', p);
    }
  }

  // ---------------------------------------------------------------------------
  // Sends

  lemma SendVoter(s: System, s': System, p: int, q: int)
    requires SentNext(s, s', p) && IsNode(s, q)
    requires Counted(|s.nodes|, p, s.nodes[p]) && VoterOk(s, q) && VoterOk(s, p)
    ensures VoterOk(s', q)
  {
    SendTally(s, s', p, q);
    SendInFlight(s, s', p, q);
    forall a | IsNode(s', a) && a != q
      ensures OneVote(s', q, a)
    {
      assert OneVote(s, q, a);
      SendVoteTokens(s, s', p, q, a);
      assert s'.nodes[a].events == s.nodes[a].events;
    }
  }

  lemma SendTally(s: System, s': System, p: int, q: int)
    requires SentNext(s, s', p) && IsNode(s, q) && Tally(|s.nodes|, q, s.nodes[q])
    ensures Tally(|s.nodes|, q, s'.nodes[q]) && s'.nodes[q].votes == s.nodes[q].votes
    ensures s'.nodes[q].lastRoundId == s.nodes[q].lastRoundId && s'.nodes[q].lastProposeId == s.nodes[q].lastProposeId
  {
  }

  lemma SendInFlight(s: System, s': System, p: int, q: int)
    requires SentNext(s, s', p) && IsNode(s, q) && InFlight(s, q) && Tally(|s.nodes|, p, s.nodes[p])
    requires !s.nodes[p].client.message.Accept?
    ensures InFlight(s', q)
  {
  }

  lemma SendVoteTokens(s: System, s': System, p: int, q: int, a: int)
    requires SentNext(s, s', p) && IsNode(s, q) && IsNode(s, a) && a != q
    requires !s.nodes[p].client.message.Accept?
    ensures VoteTokens(s', q, a) <= VoteTokens(s, q, a)
    ensures Count(Queue(s'.consensus, a, q), AcceptAbove(s.nodes[q].lastRoundId)) ==
            Count(Queue(s.consensus, a, q), AcceptAbove(s.nodes[q].lastRoundId))
  {
    var m, r := s.nodes[p].client.message, s.nodes[q].lastRoundId;
    CountAppend(Queue(s.consensus, q, a), m, ProposeAbove(r));
    CountAppend(Queue(s.consensus, a, q), m, AcceptAbove(r));
    assert Acceptors(s'.nodes[q]) == Acceptors(s.nodes[q]);
  }

  // ---------------------------------------------------------------------------
  // Deliveries

  /** What a delivery does to the receiver's own vote, and when it answers with ACCEPT. */
  lemma OutcomeVote(node: Node, src: int, message: ConsensusMsg)
    ensures var (node', reply) := Outcome(node, src, message);
      && node'.client == node.client
      && node'.lastRoundId == node.lastRoundId && node'.lastProposeId == node.lastProposeId
      && (|| node'.votes == node.votes || node'.votes == []
          || (message.Accept? && node'.votes == node.votes + [Vote(src, message.proposeId)]))
      && (reply.Some? && reply.value.Accept? ==>
            message.Propose? && reply.value.proposeId == message.id
            && Voted(message.roundId, message.value) in node'.events)
      && (reply.Some? ==> !reply.value.Propose?)
      && node.events <= node'.events
  {
    var node' := Outcome(node, src, message).0;
    if message.Propose? && src in node.alive && message.roundId == node.member.maxRoundId {
      assert node'.events == node.events + [Voted(message.roundId, message.value)];
    }
  }

  lemma DeliverTally(s: System, s': System, src: int, dst: int)
    requires Delivered(s, s', src, dst) && src != dst && VoterOk(s, dst)
    ensures Tally(|s'.nodes|, dst, s'.nodes[dst])
  {
    var head, node, node' := Queue(s.consensus, src, dst)[0], s.nodes[dst], s'.nodes[dst];
    assert head in Queue(s.consensus, src, dst);
    OutcomeVote(node, src, head);
    if head.Accept? && head.proposeId > node.lastRoundId {
      CountPositive(Queue(s.consensus, src, dst), AcceptAbove(node.lastRoundId), head);
      assert OneVote(s, dst, src);
      assert src !in Acceptors(node);
      forall v | v in node.votes && v.proposeId > node.lastRoundId
        ensures v.src != src
      {
        assert v.src in Acceptors(node);
      }
    }
  }

  lemma DeliverInFlight(s: System, s': System, src: int, dst: int, p: int)
    requires Delivered(s, s', src, dst) && IsNode(s, p) && InFlight(s, p)
    ensures InFlight(s', p)
  {
    var head := Queue(s.consensus, src, dst)[0];
    assert head in Queue(s.consensus, src, dst);
    OutcomeVote(s.nodes[dst], src, head);
    assert p != dst ==> s'.nodes[p] == s.nodes[p];
    forall a, m | m in Queue(s'.consensus, p, a) && m.Propose?
      ensures m in Queue(s.consensus, p, a)
    {
      DeliveredMember(s, s', src, dst, p, a, m);
    }
    forall a, m | m in Queue(s'.consensus, a, p) && m.Accept?
      ensures m.proposeId <= s.nodes[p].lastProposeId
    {
      DeliveredMember(s, s', src, dst, a, p, m);
    }
  }

  /** A delivery moves a vote on, or loses it. */
  lemma DeliverVoteTokens(s: System, s': System, src: int, dst: int, p: int, a: int)
    requires Delivered(s, s', src, dst) && src != dst && IsNode(s, p) && IsNode(s, a) && a != p
    ensures VoteTokens(s', p, a) <= VoteTokens(s, p, a)
  {
    var head, r := Queue(s.consensus, src, dst)[0], s.nodes[p].lastRoundId;
    OutcomeVote(s.nodes[dst], src, head);
    DeliverCount(s, s', src, dst, p, a, ProposeAbove(r));
    DeliverCount(s, s', src, dst, a, p, AcceptAbove(r));
    if dst == p {
      AcceptorsAfter(s.nodes[p], src, head, a);
    } else {
      assert s'.nodes[p] == s.nodes[p];
    }
  }

  /** Only an ACCEPT of the last round adds an acceptor, and only its sender. */
  lemma AcceptorsAfter(node: Node, src: int, message: ConsensusMsg, a: int)
    ensures var node' := Outcome(node, src, message).0;
      a in Acceptors(node') ==> a in Acceptors(node) || (a == src && Matches(AcceptAbove(node.lastRoundId), message))
  {
  }

  lemma DeliverHasVoted(s: System, s': System, src: int, dst: int, p: int, a: int)
    requires Delivered(s, s', src, dst) && src != dst && IsNode(s, p) && IsNode(s, a) && a != p
    requires MessagesOk(s) && InFlight(s, p) && OneVote(s, p, a)
    ensures a in Acceptors(s'.nodes[p])
            || Count(Queue(s'.consensus, a, p), AcceptAbove(s.nodes[p].lastRoundId)) > 0 ==>
              HasVoted(s', a, s.nodes[p].lastRoundId)
  {
    var q, r := Queue(s.consensus, src, dst), s.nodes[p].lastRoundId;
    assert q[0] in q && MessageOk(s.proposals, q[0]);
    OutcomeVote(s.nodes[dst], src, q[0]);
    DeliverCount(s, s', src, dst, a, p, AcceptAbove(r));
    if HasVoted(s, a, r) {
      assert a != dst ==> s'.nodes[a] == s.nodes[a];
      VoteKept(s, s', a, r);
    } else if dst == p {
      AcceptorsAfter(s.nodes[p], src, q[0], a);
    } else {
      assert s'.nodes[p] == s.nodes[p];
    }
  }

  /** A delivery at dst, seen from p's vote. */
  lemma DeliverVoter(s: System, s': System, src: int, dst: int, p: int)
    requires VotesOk(s) && Delivered(s, s', src, dst) && IsNode(s, p)
    ensures VoterOk(s', p)
  {
    assert VoterOk(s, p) && VoterOk(s, dst) && ProposerOk(s, dst);
    DeliverTally(s, s', src, dst);
    OutcomeVote(s.nodes[dst], src, Queue(s.consensus, src, dst)[0]);
    assert p != dst ==> s'.nodes[p] == s.nodes[p];
    DeliverInFlight(s, s', src, dst, p);
    forall a | IsNode(s', a) && a != p
      ensures OneVote(s', p, a)
    {
      assert OneVote(s, p, a);
      DeliverVoteTokens(s, s', src, dst, p, a);
      DeliverHasVoted(s, s', src, dst, p, a);
    }
  }

  // ---------------------------------------------------------------------------
  // Whole runs

  lemma VoterStep(s: System, step: Step, s': System, p: int)
    requires VotesOk(s) && Enabled(s, step) && FreshId(s, step) && MessageIdsIncrease(s, step) && s' == Apply(s, step)
    requires IsNode(s, p)
    ensures IsNode(s', p) && VoterOk(s', p)
  {
    if step.DeliverConsensus? {
      DeliveryEffect(s, step.src, step.dst);
      DeliverVoter(s, s', step.src, step.dst, p);
    } else if step.SendNext? {
      assert VoterOk(s, step.p) && VoterOk(s, p) && ProposerOk(s, step.p);
      SendChannels(s, step.p);
      SendVoter(s, s', step.p, p);
    } else if IsClientStep(step) {
      ClientVoter(s, step, s', p);
    } else {
      assert VoterOk(s, p);
      OtherEffect(s, step);
      VoterKept(s, s', p);
    }
  }

  ghost predicate VotingAt(states: seq<System>, steps: seq<Step>, i: int)
    requires |states| == |steps| + 1 && 0 <= i < |steps|
  {
    Enabled(states[i], steps[i]) && MessageIdsIncrease(states[i], steps[i])
  }

  /** An orderly run in which the ids a node gives to its PREPARE and PROPOSE messages go up. Any message may be late.
      */
  ghost predicate VotingRun(states: seq<System>, steps: seq<Step>) {
    && OrderlyRun(states, steps)
    && forall i {:trigger VotingAt(states, steps, i)} :: 0 <= i < |steps| ==> VotingAt(states, steps, i)
  }

  lemma VotesStart(s: System)
    requires Initial(s)
    ensures VotesOk(s)
  {
    ChoiceStarts(s);
    forall p | IsNode(s, p)
      ensures VoterOk(s, p)
    {
      assert s.nodes[p] == InitialNode(|s.nodes|, p).(leaderId := s.nodes[p].leaderId);
    }
  }

  lemma {:induction false} VotesHold(states: seq<System>, steps: seq<Step>, k: nat)
    requires VotingRun(states, steps) && k < |states|
    ensures VotesOk(states[k])
  {
    if k == 0 {
      VotesStart(states[0]);
    } else {
      VotesHold(states, steps, k - 1);
      RunStep(states, steps, k - 1);
      SizeIsFixed(states[k - 1], steps[k - 1]);
      assert OrderlyAt(states, steps, k - 1) && VotingAt(states, steps, k - 1);
      ChoiceStep(states[k - 1], steps[k - 1], states[k]);
      forall p | IsNode(states[k], p) ensures VoterOk(states[k], p) {
        VoterStep(states[k - 1], steps[k - 1], states[k], p);
      }
    }
  }

  lemma VotersAppend(votes: seq<Vote>, v: Vote, r: int)
    ensures VotersAbove(votes + [v], r) == VotersAbove(votes, r) + if v.proposeId > r then {v.src} else {}
  {
  }

  lemma {:induction false} DistinctSize(votes: seq<Vote>, r: int)
    requires DistinctVotes(votes, r)
    ensures |VotersAbove(votes, r)| <= |votes|
    ensures |VotersAbove(votes, r)| == |votes| <==> forall v :: v in votes ==> v.proposeId > r
  {
    if votes == [] {
      assert VotersAbove(votes, r) == {};
    } else {
      var init, last := votes[..|votes| - 1], votes[|votes| - 1];
      assert votes == init + [last];
      DistinctSize(init, r);
      VotersAppend(init, last, r);
      assert last.proposeId > r ==> last.src !in VotersAbove(init, r);
    }
  }

  /** In every state: acceptCount is the number of distinct nodes, never p itself, that accepted what p's last round
      proposed and whose ACCEPT was handled since the context was reset, if and only if every ACCEPT handled since then
      carries an id above that round's. Without the condition it is more, and those nodes are still such acceptors. */
  lemma AcceptCountIff(states: seq<System>, steps: seq<Step>, k: nat, p: int)
    requires VotingRun(states, steps) && k < |states| && IsNode(states[k], p)
    ensures var node := states[k].nodes[p];
      && (node.member.context.acceptCount == |Acceptors(node)| <==> OnlyOwnVotes(node))
      && node.member.context.acceptCount >= |Acceptors(node)|
      && p !in Acceptors(node)
      && forall a :: a in Acceptors(node) ==> HasVoted(states[k], a, node.lastRoundId)
  {
    VotesHold(states, steps, k);
    Validity.AcceptsCounted(states, steps, k, p);
    var s, node := states[k], states[k].nodes[p];
    assert VoterOk(s, p);
    DistinctSize(node.votes, node.lastRoundId);
    forall a | a in Acceptors(node)
      ensures HasVoted(s, a, node.lastRoundId)
    {
      assert OneVote(s, p, a);
    }
  }

  /** When the accept phase succeeds, and only ACCEPT messages with ids above the round's were handled since the context
      was reset, at least (N-1)/2 nodes other than p accepted this round and the value it proposed. */
  lemma CommitHasQuorum(states: seq<System>, steps: seq<Step>, k: nat, p: int)
    requires VotingRun(states, steps) && k < |steps| && steps[k] == CountAccepts(p) && IsNode(states[k], p)
    requires IsNode(states[k + 1], p) && states[k + 1].nodes[p].client.Committing?
    requires OnlyOwnVotes(states[k].nodes[p])
    ensures var node := states[k].nodes[p];
      && |Acceptors(node)| >= Quorum(|states[k].nodes|) && p !in Acceptors(node)
      && forall a :: a in Acceptors(node) ==> HasVoted(states[k], a, node.member.context.roundId)
  {
    RunStep(states, steps, k);
    ChoiceHolds(states, steps, k);
    assert NodeOk(states[k].proposals, states[k].used, states[k].nodes[p]);
    AcceptCountIff(states, steps, k, p);
  }

  // ---------------------------------------------------------------------------
  // Waits that are long enough

  /** When p starts a round, nothing of its earlier rounds is in flight or has been counted since the reset. */
  ghost predicate CleanStart(s: System, step: Step, p: int)
    requires Enabled(s, step)
  {
    step.StartRound? && step.p == p ==>
      && s.nodes[p].votes == []
      && (forall a, m {:trigger m in Queue(s.consensus, p, a)} :: m in Queue(s.consensus, p, a) ==> !m.Propose?)
      && (forall a, m {:trigger m in Queue(s.consensus, a, p)} :: m in Queue(s.consensus, a, p) ==> !m.Accept?)
  }

  /** All that is counted, on its way or still to be counted is of the last round. */
  ghost predicate AllOwn(s: System, p: int)
    requires IsNode(s, p)
  {
    var r := s.nodes[p].lastRoundId;
    && OnlyOwnVotes(s.nodes[p])
    && (forall a, m {:trigger m in Queue(s.consensus, p, a)} ::
          m in Queue(s.consensus, p, a) && m.Propose? ==> m.id > r)
    && (forall a, m {:trigger m in Queue(s.consensus, a, p)} ::
          m in Queue(s.consensus, a, p) && m.Accept? ==> m.proposeId > r)
  }

  lemma OwnDelivery(s: System, s': System, src: int, dst: int, p: int)
    requires Delivered(s, s', src, dst) && IsNode(s, p) && AllOwn(s, p)
    ensures IsNode(s', p) && AllOwn(s', p)
  {
    var head := Queue(s.consensus, src, dst)[0];
    assert head in Queue(s.consensus, src, dst);
    OutcomeVote(s.nodes[dst], src, head);
    assert p != dst ==> s'.nodes[p] == s.nodes[p];
    forall a, m | m in Queue(s'.consensus, p, a) && m.Propose?
      ensures m in Queue(s.consensus, p, a)
    {
      DeliveredMember(s, s', src, dst, p, a, m);
    }
    forall a, m | m in Queue(s'.consensus, a, p) && m.Accept?
      ensures m.proposeId > s.nodes[p].lastRoundId
    {
      DeliveredMember(s, s', src, dst, a, p, m);
    }
  }

  lemma OwnSend(s: System, s': System, from: int, p: int)
    requires SentNext(s, s', from) && IsNode(s, p) && AllOwn(s, p)
    requires Broadcasts(s.nodes[from].client) && Tally(|s.nodes|, from, s.nodes[from])
    ensures IsNode(s', p) && AllOwn(s', p)
  {
  }

  lemma ClientVotes(s: System, step: Step)
    requires Enabled(s, step) && IsClientStep(step) && !step.SendNext?
    ensures var node, node' := s.nodes[step.p], Apply(s, step).nodes[step.p];
      && (node'.votes == node.votes || node'.votes == [])
      && (!step.StartRound? ==> node'.lastRoundId == node.lastRoundId)
  {
  }

  lemma OwnClient(s: System, step: Step, s': System, p: int)
    requires Enabled(s, step) && IsClientStep(step) && !step.SendNext? && s' == Apply(s, step)
    requires IsNode(s, p) && CleanStart(s, step, p) && AllOwn(s, p)
    ensures IsNode(s', p) && AllOwn(s', p)
  {
    ClientEffect(s, step);
    ClientVotes(s, step);
  }

  lemma OwnStep(s: System, step: Step, s': System, p: int)
    requires VotesOk(s) && Enabled(s, step) && s' == Apply(s, step) && IsNode(s, p)
    requires CleanStart(s, step, p) && AllOwn(s, p)
    ensures IsNode(s', p) && AllOwn(s', p)
  {
    if step.DeliverConsensus? {
      DeliveryEffect(s, step.src, step.dst);
      OwnDelivery(s, s', step.src, step.dst, p);
    } else if step.SendNext? {
      assert VoterOk(s, step.p) && ProposerOk(s, step.p);
      SendChannels(s, step.p);
      OwnSend(s, s', step.p, p);
    } else if IsClientStep(step) {
      OwnClient(s, step, s', p);
    } else {
      OtherEffect(s, step);
      assert SameRound(s.nodes[p], s'.nodes[p]);
    }
  }

  ghost predicate CleanAt(states: seq<System>, steps: seq<Step>, i: int, p: int)
    requires |states| == |steps| + 1 && 0 <= i < |steps|
  {
    Enabled(states[i], steps[i]) && CleanStart(states[i], steps[i], p)
  }

  /** When every PROPOSE and ACCEPT of a node's round is delivered or lost before its next round, only ACCEPT messages
      of the last round are ever counted: the condition of AcceptCountIff and CommitHasQuorum holds in every state. */
  lemma {:induction false} CleanStartsCountOwn(states: seq<System>, steps: seq<Step>, k: nat, p: int)
    requires VotingRun(states, steps) && k < |states| && IsNode(states[k], p)
    requires forall i {:trigger CleanAt(states, steps, i, p)} :: 0 <= i < k ==> CleanAt(states, steps, i, p)
    ensures AllOwn(states[k], p)
  {
    if k == 0 {
      assert states[0].nodes[p] == InitialNode(|states[0].nodes|, p).(leaderId := states[0].nodes[p].leaderId);
    } else {
      VotesHold(states, steps, k - 1);
      RunStep(states, steps, k - 1);
      SizeIsFixed(states[k - 1], steps[k - 1]);
      CleanStartsCountOwn(states, steps, k - 1, p);
      assert CleanAt(states, steps, k - 1, p);
      OwnStep(states[k - 1], steps[k - 1], states[k], p);
    }
  }

  // ---------------------------------------------------------------------------
  // What is logged, and what was accepted

  /** startConsensus is past StartPropose and has not given up. */
  predicate Proposed(pc: ClientPc) {
    (pc.Broadcasting? && !pc.message.Prepare?) || pc.AwaitingAccepts? || pc.Committing? || pc.Announcing?
  }

  /** In step j node p, at the end of its prepare phase, proposed for `value` what its context made of it. */
  ghost predicate ProposedAt(states: seq<System>, steps: seq<Step>, j: int, s: System, p: int, value: Value, r: int)
    requires |states| == |steps| + 1 && 0 <= j < |steps|
  {
    && steps[j].StartPropose? && steps[j].p == p && IsNode(states[j], p)
    && states[j].nodes[p].client == Proposing(value) && states[j].nodes[p].member.context.roundId == r
    && r in s.proposals && s.proposals[r] == ProposedValue(states[j].nodes[p].member.context, value)
  }

  /** In step c node p counted a quorum of ACCEPT in the round it is in; what it counted it still has at `node`. */
  ghost predicate QuorumAt(states: seq<System>, steps: seq<Step>, c: int, p: int, node: Node)
    requires |states| == |steps| + 1 && 0 <= c < |steps|
  {
    && steps[c] == CountAccepts(p) && IsNode(states[c], p)
    && node.client.Committing? && states[c].nodes[p].client == AwaitingAccepts(node.client.value)
    && states[c].nodes[p].member.context.acceptCount >= Quorum(|states[c].nodes|)
    && states[c].nodes[p].lastRoundId == node.lastRoundId && states[c].nodes[p].votes <= node.votes
  }

  ghost predicate Origin(states: seq<System>, steps: seq<Step>, k: int, p: int)
    requires |states| == |steps| + 1 && 0 <= k <= |steps| && IsNode(states[k], p)
  {
    var s, node := states[k], states[k].nodes[p];
    var r := node.member.context.roundId;
    && (Proposed(node.client) ==>
          exists j {:trigger ProposedAt(states, steps, j, s, p, node.client.value, r)} ::
            0 <= j < k && ProposedAt(states, steps, j, s, p, node.client.value, r))
    && (node.client.Committing? ==>
          exists c {:trigger QuorumAt(states, steps, c, p, node)} :: 0 <= c < k && QuorumAt(states, steps, c, p, node))
  }

  /** The proposal of p goes on: the same call, the same round, nothing counted is lost. */
  ghost predicate GoesOn(node: Node, node': Node)
    requires Proposed(node.client) && Proposed(node'.client)
  {
    && node'.client.value == node.client.value && node'.member.context.roundId == node.member.context.roundId
    && node'.lastRoundId == node.lastRoundId && node.votes <= node'.votes
  }

  /** How a step moves the proposal of p on. */
  ghost predicate ProposalMoves(s: System, step: Step, s': System, p: int)
    requires IsNode(s, p) && IsNode(s', p)
  {
    var node, node' := s.nodes[p], s'.nodes[p];
    var r := node.member.context.roundId;
    && (Proposed(node'.client) && !(step.StartPropose? && step.p == p) ==>
          Proposed(node.client) && GoesOn(node, node'))
    && (Proposed(node'.client) && step.StartPropose? && step.p == p ==>
          && node.client == Proposing(node'.client.value) && node'.member.context.roundId == r
          && s'.proposals == s.proposals[r := ProposedValue(node.member.context, node'.client.value)])
    && (node'.client.Committing? ==>
          || node.client.Committing?
          || (step == CountAccepts(p) && node.client.AwaitingAccepts?
              && node.member.context.acceptCount >= Quorum(|s.nodes|)))
  }

  lemma ProposalClientStep(s: System, step: Step, s': System)
    requires Enabled(s, step) && IsClientStep(step) && !step.SendNext? && s' == Apply(s, step)
    requires Counted(|s.nodes|, step.p, s.nodes[step.p]) && NodeOk(s.proposals, s.used, s.nodes[step.p])
    ensures IsNode(s', step.p) && ProposalMoves(s, step, s', step.p)
  {
  }

  lemma ProposalDelivery(s: System, step: Step, s': System, p: int)
    requires Enabled(s, step) && step.DeliverConsensus? && Delivered(s, s', step.src, step.dst)
    requires SoleProposer(s, step) && IsNode(s, p)
    ensures IsNode(s', p) && ProposalMoves(s, step, s', p)
  {
    OutcomeAccepts(s.nodes[step.dst], step.src, Queue(s.consensus, step.src, step.dst)[0]);
  }

  lemma ProposalStep(s: System, step: Step, s': System, p: int)
    requires ChoiceOk(s) && Enabled(s, step) && Orderly(s, step) && s' == Apply(s, step) && IsNode(s, p)
    ensures IsNode(s', p) && ProposalMoves(s, step, s', p)
  {
    assert ProposerOk(s, p) && NodeOk(s.proposals, s.used, s.nodes[p]);
    if step.DeliverConsensus? {
      DeliveryEffect(s, step.src, step.dst);
      ProposalDelivery(s, step, s', p);
    } else if step.SendNext? {
      SendChannels(s, step.p);
    } else if IsClientStep(step) {
      ClientEffect(s, step);
      assert ProposerOk(s, step.p) && NodeOk(s.proposals, s.used, s.nodes[step.p]);
      ProposalClientStep(s, step, s');
    } else {
      OtherEffect(s, step);
      assert SameRound(s.nodes[p], s'.nodes[p]);
    }
  }

  /** Proposals stay as they are. */
  lemma ProposalsStay(s: System, step: Step, s': System)
    requires ChoiceOk(s) && Enabled(s, step) && Orderly(s, step) && s' == Apply(s, step)
    ensures ProposalsGrow(s, s')
  {
    if step.DeliverConsensus? {
      DeliveryEffect(s, step.src, step.dst);
    } else if step.SendNext? {
      SendChannels(s, step.p);
    } else if IsClientStep(step) {
      assert ProposerOk(s, step.p) && NodeOk(s.proposals, s.used, s.nodes[step.p]);
      ClientNode(s, step);
    } else {
      OtherEffect(s, step);
    }
  }

  /** In a round that hears nothing of other proposers ACCEPT messages are only added. */
  lemma OutcomeAccepts(node: Node, src: int, message: ConsensusMsg)
    requires src in node.alive ==> message.Promise? || message.Accept? || !InRound(node.client)
    ensures var node' := Outcome(node, src, message).0;
      && node'.client == node.client && node'.lastRoundId == node.lastRoundId
      && (InRound(node.client) ==> node.votes <= node'.votes
                                   && node'.member.context.roundId == node.member.context.roundId)
  {
  }

  lemma OriginStep(states: seq<System>, steps: seq<Step>, k: nat, p: int)
    requires OrderlyRun(states, steps) && k < |steps| && IsNode(states[k], p) && Origin(states, steps, k, p)
    ensures IsNode(states[k + 1], p) && Origin(states, steps, k + 1, p)
  {
    ChoiceHolds(states, steps, k);
    RunStep(states, steps, k);
    assert OrderlyAt(states, steps, k);
    SizeIsFixed(states[k], steps[k]);
    ProposalStep(states[k], steps[k], states[k + 1], p);
    ProposalsStay(states[k], steps[k], states[k + 1]);
    var node, node' := states[k].nodes[p], states[k + 1].nodes[p];
    if Proposed(node'.client) {
      var value, r := node'.client.value, node'.member.context.roundId;
      if steps[k].StartPropose? && steps[k].p == p {
        assert ProposedAt(states, steps, k, states[k + 1], p, value, r);
      } else {
        var j :| 0 <= j < k && ProposedAt(states, steps, j, states[k], p, value, r);
        assert ProposedAt(states, steps, j, states[k + 1], p, value, r);
      }
      if node'.client.Committing? {
        QuorumStep(states, steps, k, p);
      }
    }
  }

  lemma QuorumStep(states: seq<System>, steps: seq<Step>, k: nat, p: int)
    requires |states| == |steps| + 1 && k < |steps| && IsNode(states[k], p) && Origin(states, steps, k, p)
    requires IsNode(states[k + 1], p) && ProposalMoves(states[k], steps[k], states[k + 1], p)
    requires states[k + 1].nodes[p].client.Committing?
    ensures exists c {:trigger QuorumAt(states, steps, c, p, states[k + 1].nodes[p])} ::
              0 <= c <= k && QuorumAt(states, steps, c, p, states[k + 1].nodes[p])
  {
    var node, node' := states[k].nodes[p], states[k + 1].nodes[p];
    if node.client.Committing? {
      var c :| 0 <= c < k && QuorumAt(states, steps, c, p, node);
      assert QuorumAt(states, steps, c, p, node');
    } else {
      assert QuorumAt(states, steps, k, p, node');
    }
  }

  lemma {:induction false} OriginHolds(states: seq<System>, steps: seq<Step>, k: nat, p: int)
    requires OrderlyRun(states, steps) && k <= |steps| && IsNode(states[k], p)
    ensures Origin(states, steps, k, p)
  {
    if k == 0 {
      assert states[0].nodes[p] == InitialNode(|states[0].nodes|, p).(leaderId := states[0].nodes[p].leaderId);
    } else {
      RunStep(states, steps, k - 1);
      SizeIsFixed(states[k - 1], steps[k - 1]);
      OriginHolds(states, steps, k - 1, p);
      OriginStep(states, steps, k - 1, p);
    }
  }

  /** Where a value that is written to the log was proposed. */
  lemma LoggedProposal(states: seq<System>, steps: seq<Step>, k: nat, p: int) returns (j: nat)
    requires OrderlyRun(states, steps) && k < |steps| && steps[k] == Append(p) && IsNode(states[k], p)
    ensures states[k].nodes[p].client.Committing? && j < k
    ensures var node := states[k].nodes[p];
      && ProposedAt(states, steps, j, states[k], p, node.client.value, node.member.context.roundId)
      && node.member.context.roundId == node.lastRoundId
  {
    RunStep(states, steps, k);
    ChoiceHolds(states, steps, k);
    OriginHolds(states, steps, k, p);
    var s, node := states[k], states[k].nodes[p];
    assert NodeOk(s.proposals, s.used, node);
    j :| j < k && ProposedAt(states, steps, j, s, p, node.client.value, node.member.context.roundId);
  }

  /** Where its ACCEPT messages were counted. */
  lemma LoggedCount(states: seq<System>, steps: seq<Step>, k: nat, p: int) returns (c: nat)
    requires OrderlyRun(states, steps) && k < |steps| && steps[k] == Append(p) && IsNode(states[k], p)
    ensures c < k && QuorumAt(states, steps, c, p, states[k].nodes[p])
  {
    RunStep(states, steps, k);
    OriginHolds(states, steps, k, p);
    c :| c < k && QuorumAt(states, steps, c, p, states[k].nodes[p]);
  }

  /** Those counted in step c are acceptors in state k. */
  lemma CountedAcceptors(states: seq<System>, steps: seq<Step>, c: nat, k: nat, p: int)
    requires VotingRun(states, steps) && c < k < |steps| && IsNode(states[k], p)
    requires QuorumAt(states, steps, c, p, states[k].nodes[p])
    ensures var counted, r := states[c].nodes[p], states[k].nodes[p].lastRoundId;
      && |states[c].nodes| == |states[k].nodes|
      && p !in Acceptors(counted) && (forall a :: a in Acceptors(counted) ==> HasVoted(states[k], a, r))
      && (|Acceptors(counted)| == counted.member.context.acceptCount <==> OnlyOwnVotes(counted))
  {
    var node, counted := states[k].nodes[p], states[c].nodes[p];
    RunSize(states, steps, k);
    RunSize(states, steps, c);
    AcceptCountIff(states, steps, c, p);
    AcceptCountIff(states, steps, k, p);
    forall a | a in Acceptors(counted)
      ensures HasVoted(states[k], a, node.lastRoundId)
    {
      var v :| v in counted.votes && v.proposeId > node.lastRoundId && v.src == a;
      assert v in node.votes[..|counted.votes|];
      assert a in Acceptors(node);
    }
  }

  /** When a value is written to a leader's log, the call that writes it proposed in step j and counted a quorum of
      ACCEPT in step c. The acceptors counted then accepted the value the round proposed; they are as many as were
      counted if and only if every ACCEPT counted had an id above the round's, and then they are a quorum. The value
      logged is the one they accepted if and only if, at step j, the round had adopted nothing or adopted the very
      value it logs. */
  lemma LoggedIsAcceptedIff(states: seq<System>, steps: seq<Step>, k: nat, p: int) returns (j: nat, c: nat)
    requires VotingRun(states, steps) && k < |steps| && steps[k] == Append(p) && IsNode(states[k], p)
    ensures j < k && steps[j].StartPropose? && steps[j].p == p && IsNode(states[j], p)
    ensures c < k && steps[c] == CountAccepts(p) && IsNode(states[c], p)
    ensures states[k].nodes[p].client.Committing? && IsNode(states[k + 1], p)
    ensures var s, node := states[k], states[k].nodes[p];
      var r, value := node.member.context.roundId, node.client.value;
      var counted, before := states[c].nodes[p], states[j].nodes[p];
      && states[k + 1].nodes[p].member.log == node.member.log + [value]
      && before.client == Proposing(value) && before.member.context.roundId == r
      && counted.client == AwaitingAccepts(value) && counted.member.context.acceptCount >= Quorum(|s.nodes|)
      && p !in Acceptors(counted) && (forall a :: a in Acceptors(counted) ==> HasVoted(s, a, r))
      && (|Acceptors(counted)| == counted.member.context.acceptCount <==> OnlyOwnVotes(counted))
      && r in s.proposals
      && (value == s.proposals[r] <==>
            before.member.context.maxAcceptedId == -1 || before.member.context.acceptedValue == value)
  {
    j := LoggedProposal(states, steps, k, p);
    c := LoggedCount(states, steps, k, p);
    RunStep(states, steps, k);
    CountedAcceptors(states, steps, c, k, p);
  }
}

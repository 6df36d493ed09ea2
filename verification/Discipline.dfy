/** What an acceptor may promise and accept over a whole run, whatever the network and the proposers do. */
module Discipline {
  import opened Messages
  import opened Consensus
  import opened Cluster

  /** The history of an acceptor whose m_maxRoundId is `max`. */
  ghost predicate Disciplined(events: seq<Event>, max: int) {
    // promises go up strictly: at most one per round id
    && (forall i, j :: 0 <= i < j < |events| && events[i].Promised? && events[j].Promised? ==>
          events[i].roundId < events[j].roundId)
    // nothing below a promised round is accepted after the promise
    && (forall i, j :: 0 <= i < j < |events| && events[i].Promised? && events[j].Voted? ==>
          events[i].roundId <= events[j].roundId)
    // a round is accepted exactly when it was promised before, but for the id -1 of a context without a round
    && (forall j :: 0 <= j < |events| && events[j].Voted? ==>
          (Promised(events[j].roundId) in events[..j] <==> events[j].roundId != -1))
    && (forall e :: e in events && e.Promised? ==> 0 <= e.roundId <= max)
    && (max == -1 || (max >= 0 && Promised(max) in events))
  }

  lemma PromiseDisciplined(events: seq<Event>, max: int, id: int)
    requires Disciplined(events, max) && id > max
    ensures Disciplined(events + [Promised(id)], id)
  {
    var events' := events + [Promised(id)];
    assert events'[|events|] == Promised(id);
    forall i | 0 <= i < |events| && events[i].Promised?
      ensures events[i].roundId < id
    {
      assert events[i] in events;
    }
    forall j | 0 <= j < |events'| && events'[j].Voted?
      ensures Promised(events'[j].roundId) in events'[..j] <==> events'[j].roundId != -1
    {
      assert events'[..j] == events[..j];
    }
  }

  lemma VoteDisciplined(events: seq<Event>, max: int, value: Value)
    requires Disciplined(events, max)
    ensures Disciplined(events + [Voted(max, value)], max)
  {
    var events' := events + [Voted(max, value)];
    forall i | 0 <= i < |events| && events[i].Promised?
      ensures 0 <= events[i].roundId <= max
    {
      assert events[i] in events;
    }
    forall j | 0 <= j < |events'| && events'[j].Voted?
      ensures Promised(events'[j].roundId) in events'[..j] <==> events'[j].roundId != -1
    {
      assert events'[..j] == events[..j];
    }
  }

  ghost predicate AllDisciplined(s: System) {
    forall p {:trigger s.nodes[p]} :: IsNode(s, p) ==> Disciplined(s.nodes[p].events, s.nodes[p].member.maxRoundId)
  }

  /** Every handler keeps it, whoever the message is from. */
  lemma OutcomeDisciplined(node: Node, src: int, message: ConsensusMsg)
    requires Disciplined(node.events, node.member.maxRoundId)
    ensures var node' := Outcome(node, src, message).0; Disciplined(node'.events, node'.member.maxRoundId)
  {
    if message.Prepare? && message.id > node.member.maxRoundId {
      PromiseDisciplined(node.events, node.member.maxRoundId, message.id);
    } else if message.Propose? && message.roundId == node.member.maxRoundId {
      VoteDisciplined(node.events, node.member.maxRoundId, message.value);
    }
  }

  lemma DisciplinedStep(s: System, step: Step)
    requires AllDisciplined(s) && Enabled(s, step)
    ensures AllDisciplined(Apply(s, step))
  {
    if step.DeliverConsensus? {
      DeliveryEffect(s, step.src, step.dst);
      OutcomeDisciplined(s.nodes[step.dst], step.src, Queue(s.consensus, step.src, step.dst)[0]);
    } else if step.SendNext? {
      SendChannels(s, step.p);
    } else if IsClientStep(step) {
      ClientEffect(s, step);
      ClientKeepsHistory(s, step);
    } else {
      OtherEffect(s, step);
    }
  }

  /** startConsensus, its resets included, does not touch what the acceptor side of the node remembers. */
  lemma ClientKeepsHistory(s: System, step: Step)
    requires Enabled(s, step) && IsClientStep(step) && !step.SendNext?
    ensures var node, node' := s.nodes[step.p], Apply(s, step).nodes[step.p];
      node'.events == node.events && node'.member.maxRoundId == node.member.maxRoundId
  {
  }

  /** In every state of every run, across all context resets, each node's promises and acceptances so far obey:
      strictly increasing promises, no acceptance below an earlier promise, and no unpromised round accepted. */
  lemma {:induction false} PromiseDiscipline(states: seq<System>, steps: seq<Step>, k: nat)
    requires IsRun(states, steps) && k < |states|
    ensures AllDisciplined(states[k])
  {
    if k == 0 {
      assert forall p {:trigger states[0].nodes[p]} :: IsNode(states[0], p) ==>
        states[0].nodes[p] == InitialNode(|states[0].nodes|, p).(leaderId := states[0].nodes[p].leaderId);
    } else {
      PromiseDiscipline(states, steps, k - 1);
      RunStep(states, steps, k - 1);
      DisciplinedStep(states[k - 1], steps[k - 1]);
    }
  }

  /** The history only grows: what a node promised or accepted once stays in it. */
  lemma {:induction false} HistoryGrows(states: seq<System>, steps: seq<Step>, i: nat, j: nat, p: int)
    requires IsRun(states, steps) && i <= j < |states| && IsNode(states[i], p)
    ensures IsNode(states[j], p) && states[i].nodes[p].events <= states[j].nodes[p].events
  {
    if i < j {
      HistoryGrows(states, steps, i, j - 1, p);
      RunStep(states, steps, j - 1);
      EventsGrow(states[j - 1], steps[j - 1], p);
    }
  }

  lemma EventsGrow(s: System, step: Step, p: int)
    requires Enabled(s, step) && IsNode(s, p)
    ensures IsNode(Apply(s, step), p) && s.nodes[p].events <= Apply(s, step).nodes[p].events
  {
    if step.DeliverConsensus? {
      DeliveryEffect(s, step.src, step.dst);
      OutcomeGrows(s.nodes[step.dst], step.src, Queue(s.consensus, step.src, step.dst)[0]);
    } else if step.SendNext? {
      SendChannels(s, step.p);
    } else if IsClientStep(step) {
      ClientEffect(s, step);
      ClientKeepsHistory(s, step);
    } else {
      OtherEffect(s, step);
    }
  }

  lemma OutcomeGrows(node: Node, src: int, message: ConsensusMsg)
    ensures node.events <= Outcome(node, src, message).0.events
  {
  }

  /** Round r is the highest an acceptor has promised, -1 when it has promised none. */
  ghost predicate HighestPromise(events: seq<Event>, r: int) {
    && (if r == -1 then forall e :: e in events ==> !e.Promised? else Promised(r) in events)
    && forall e :: e in events && e.Promised? ==> e.roundId <= r
  }

  lemma MaxIsHighest(events: seq<Event>, max: int, r: int)
    requires Disciplined(events, max)
    ensures r == max <==> HighestPromise(events, r)
  {
    assert max == -1 ==> forall e :: e in events && e.Promised? ==> 0 <= e.roundId <= max;
    assert max != -1 ==> Promised(max) in events;
  }

  /** The effect of handling a message: what is done, and what goes back to the sender. */
  ghost predicate Answers(s: System, s': System, src: int, dst: int, answer: Option<ConsensusMsg>)
    requires Queue(s.consensus, src, dst) != []
  {
    Queue(s'.consensus, dst, src)
    == Popped(s.consensus, src, dst, dst, src) + if answer.Some? then [answer.value] else []
  }

  /** When ACCEPT is sent, in every run: a PROPOSE from a node that is not suspected is accepted, and answered by an
      ACCEPT with its id, if and only if its round is the highest the node has promised in its whole life, whether or
      not it has accepted a round, this one or another, before. Otherwise nothing happens. */
  lemma AcceptIff(states: seq<System>, steps: seq<Step>, k: nat, src: int, dst: int)
    requires IsRun(states, steps) && k < |steps| && steps[k] == DeliverConsensus(src, dst)
    requires IsNode(states[k], dst) && src in states[k].nodes[dst].alive
    requires Queue(states[k].consensus, src, dst) != [] && Queue(states[k].consensus, src, dst)[0].Propose?
    ensures IsNode(states[k + 1], dst)
    ensures var node, node', m :=
        states[k].nodes[dst], states[k + 1].nodes[dst], Queue(states[k].consensus, src, dst)[0];
      if HighestPromise(node.events, m.roundId)
      then Answers(states[k], states[k + 1], src, dst, Some(Accept(m.id)))
           && node'.events == node.events + [Voted(m.roundId, m.value)]
           && node'.member.context == node.member.context.(valueAccepted := true, acceptedId := m.roundId,
                                                           acceptedValue := m.value)
      else Answers(states[k], states[k + 1], src, dst, None) && node' == node
  {
    PromiseDiscipline(states, steps, k);
    RunStep(states, steps, k);
    DeliveryEffect(states[k], src, dst);
    var node := states[k].nodes[dst];
    assert Disciplined(node.events, node.member.maxRoundId);
    MaxIsHighest(node.events, node.member.maxRoundId, Queue(states[k].consensus, src, dst)[0].roundId);
  }

  /** When PROMISE is sent, in every run: a PREPARE from a node that is not suspected is promised if and only if its id
      is above every round promised so far; the promise reports the acceptance the context holds, if it holds one. */
  lemma PromiseIff(states: seq<System>, steps: seq<Step>, k: nat, src: int, dst: int)
    requires IsRun(states, steps) && k < |steps| && steps[k] == DeliverConsensus(src, dst)
    requires IsNode(states[k], dst) && src in states[k].nodes[dst].alive
    requires Queue(states[k].consensus, src, dst) != [] && Queue(states[k].consensus, src, dst)[0].Prepare?
    ensures IsNode(states[k + 1], dst)
    ensures var node, node', id :=
        states[k].nodes[dst], states[k + 1].nodes[dst], Queue(states[k].consensus, src, dst)[0].id;
      var context := node.member.context;
      if id >= 0 && forall e :: e in node.events && e.Promised? ==> e.roundId < id
      then node'.events == node.events + [Promised(id)] && node'.member.context == context
           && Answers(states[k], states[k + 1], src, dst,
                      Some(Promise(id, if context.valueAccepted
                                       then Some(Report(context.acceptedId, context.acceptedValue)) else None)))
      else Answers(states[k], states[k + 1], src, dst, None) && node' == node
  {
    PromiseDiscipline(states, steps, k);
    RunStep(states, steps, k);
    DeliveryEffect(states[k], src, dst);
    var node := states[k].nodes[dst];
    assert Disciplined(node.events, node.member.maxRoundId);
    assert node.member.maxRoundId != -1 ==> Promised(node.member.maxRoundId) in node.events;
  }

  /** Why -1 is excepted: a node that has promised nothing accepts a PROPOSE with round -1, which is what
      broadcastPropose sends when an ACCEPTED of another leader resets the context after the majority check. */
  lemma UnpromisedRound(log: seq<Value>, foreign: Value, value: Value, id: int)
    ensures var reset := OnAccepted(Member(FRESH.(roundId := 5, promiseCount := 3), 4, log), foreign);
      var (member, reply) := OnPropose(NEW_MEMBER, id, reset.context.roundId, ProposedValue(reset.context, value));
      reply == Some(Accept(id)) && member.context.acceptedId == -1 && member.maxRoundId == -1
  {
  }
}

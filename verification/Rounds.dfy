/** What the counters of a round count. For every run in which a node's own round ids increase. */
module Rounds {
  import opened Messages
  import opened Consensus
  import opened Cluster

  /** The ids one node gives its rounds increase (see Clock: they do, by at least 8). */
  ghost predicate OwnIdsIncrease(s: System, step: Step)
    requires Enabled(s, step)
  {
    step.StartRound? ==> step.id > s.nodes[step.p].lastRoundId
  }

  // ---------------------------------------------------------------------------
  // Counting messages in a channel

  datatype Pattern =
    | PrepareOf(roundId: int)
    | PromiseOf(roundId: int)
    | ProposeAbove(roundId: int)
    | AcceptAbove(roundId: int)

  predicate Matches(k: Pattern, m: ConsensusMsg) {
    match k
    case PrepareOf(roundId) => m == Prepare(roundId)
    case PromiseOf(roundId) => m.Promise? && m.roundId == roundId
    case ProposeAbove(roundId) => m.Propose? && m.id > roundId
    case AcceptAbove(roundId) => m.Accept? && m.proposeId > roundId
  }

  function Count(q: seq<ConsensusMsg>, k: Pattern): nat {
    if q == [] then 0 else (if Matches(k, q[0]) then 1 else 0) + Count(q[1..], k)
  }

  lemma {:induction false} CountAppend(q: seq<ConsensusMsg>, m: ConsensusMsg, k: Pattern)
    ensures Count(q + [m], k) == Count(q, k) + if Matches(k, m) then 1 else 0
  {
    if q == [] {
      assert ([] + [m])[1..] == [];
    } else {
      CountAppend(q[1..], m, k);
      assert (q + [m])[1..] == q[1..] + [m];
    }
  }

  lemma {:induction false} CountZero(q: seq<ConsensusMsg>, k: Pattern)
    requires forall m :: m in q ==> !Matches(k, m)
    ensures Count(q, k) == 0
  {
    if q != [] {
      assert q[0] in q;
      CountZero(q[1..], k);
    }
  }

  lemma {:induction false} CountPositive(q: seq<ConsensusMsg>, k: Pattern, m: ConsensusMsg)
    requires m in q && Matches(k, m)
    ensures Count(q, k) >= 1
  {
    if q[0] != m {
      assert m in q[1..];
      CountPositive(q[1..], k, m);
    }
  }

  // ---------------------------------------------------------------------------
  // The nodes heard from

  function Sources(heard: seq<Heard>): set<int> {
    set h | h in heard :: h.src
  }

  function Reports(heard: seq<Heard>): (reports: seq<Option<Report>>)
    ensures |reports| == |heard|
  {
    seq(|heard|, i requires 0 <= i < |heard| => heard[i].report)
  }

  ghost predicate DistinctSources(heard: seq<Heard>) {
    forall i, j :: 0 <= i < j < |heard| ==> heard[i].src != heard[j].src
  }

  lemma {:induction false} SourcesSize(heard: seq<Heard>)
    requires DistinctSources(heard)
    ensures |Sources(heard)| == |heard|
  {
    if heard == [] {
      assert Sources(heard) == {};
    } else {
      var last := heard[|heard| - 1];
      assert heard == heard[..|heard| - 1] + [last];
      SourcesSize(heard[..|heard| - 1]);
      assert Sources(heard) == Sources(heard[..|heard| - 1]) + {last.src};
      assert last.src !in Sources(heard[..|heard| - 1]);
    }
  }

  lemma SourcesAppend(heard: seq<Heard>, h: Heard)
    ensures Sources(heard + [h]) == Sources(heard) + {h.src}
    ensures Reports(heard + [h]) == Reports(heard) + [h.report]
  {
  }

  // ---------------------------------------------------------------------------
  // The invariant

  /** The counters of p's context, and the round it is in. */
  ghost predicate Counted(n: int, p: int, node: Node)
    requires n > 0
  {
    var context := node.member.context;
    && -1 <= context.roundId <= node.lastRoundId
    && (context.roundId == -1 ==> node.heard == [])
    && (!InRound(node.client) ==> context.roundId == -1)
    && context.promiseCount == |node.heard|
    && context.maxAcceptedId == MaxReported(Reports(node.heard))
    && DistinctSources(node.heard)
    && (forall h :: h in node.heard ==> 0 <= h.src < n && h.src != p)
    && Broadcasts(node.client)
    && (node.client.Broadcasting? && node.client.message.Prepare? ==> 0 <= node.client.message.id <= node.lastRoundId)
    && (node.client.Proposing? ==> context.roundId == -1 || context.promiseCount >= Quorum(n))
  }

  /** Consensus messages of p's rounds in flight carry ids p has used. */
  ghost predicate OwnIds(s: System, p: int)
    requires IsNode(s, p)
  {
    && Queue(s.consensus, p, p) == []
    && (forall a, m {:trigger m in Queue(s.consensus, p, a)} ::
          m in Queue(s.consensus, p, a) && m.Prepare? ==> 0 <= m.id <= s.nodes[p].lastRoundId)
    && (forall a, m {:trigger m in Queue(s.consensus, a, p)} ::
          m in Queue(s.consensus, a, p) && m.Promise? ==> 0 <= m.roundId <= s.nodes[p].lastRoundId)
  }

  function PrepareOwed(pc: ClientPc, roundId: int, a: int): nat {
    if pc.Broadcasting? && pc.message == Prepare(roundId) && pc.next <= a then 1 else 0
  }

  /** Where the one promise a may give for p's round can be: still to be asked for, on its way, or handled. */
  function Tokens(s: System, p: int, a: int, roundId: int): nat
    requires IsNode(s, p)
  {
    PrepareOwed(s.nodes[p].client, roundId, a)
    + Count(Queue(s.consensus, p, a), PrepareOf(roundId))
    + Count(Queue(s.consensus, a, p), PromiseOf(roundId))
    + if a in Sources(s.nodes[p].heard) then 1 else 0
  }

  ghost predicate AskedOnce(s: System, p: int)
    requires IsNode(s, p)
  {
    var roundId := s.nodes[p].member.context.roundId;
    roundId != -1 ==>
      forall a {:trigger Tokens(s, p, a, roundId)} :: IsNode(s, a) && a != p ==> Tokens(s, p, a, roundId) <= 1
  }

  ghost predicate ProposerOk(s: System, p: int)
    requires IsNode(s, p)
  {
    Counted(|s.nodes|, p, s.nodes[p]) && OwnIds(s, p) && AskedOnce(s, p)
  }

  ghost predicate RoundsOk(s: System) {
    forall p {:trigger ProposerOk(s, p)} :: IsNode(s, p) ==> ProposerOk(s, p)
  }

  // ---------------------------------------------------------------------------
  // Steps that leave the channels alone

  lemma OtherKeeps(s: System, step: Step)
    requires RoundsOk(s) && Enabled(s, step) && !IsClientStep(step) && !step.DeliverConsensus?
    ensures RoundsOk(Apply(s, step))
  {
    OtherEffect(s, step);
    var s' := Apply(s, step);
    forall p | IsNode(s', p)
      ensures ProposerOk(s', p)
    {
      assert ProposerOk(s, p);
      assert SameRound(s.nodes[p], s'.nodes[p]);
      TokensSame(s, s', p);
    }
  }

  lemma TokensSame(s: System, s': System, p: int)
    requires IsNode(s, p) && |s'.nodes| == |s.nodes| && s'.consensus == s.consensus
    requires s'.nodes[p].heard == s.nodes[p].heard && s'.nodes[p].client == s.nodes[p].client
    ensures forall a, roundId {:trigger Tokens(s', p, a, roundId)} ::
      Tokens(s', p, a, roundId) == Tokens(s, p, a, roundId)
  {
  }

  /** A client step at p, by what it may do to p's round. */
  ghost predicate ClientMoves(node: Node, node': Node) {
    && node'.lastRoundId >= node.lastRoundId
    && (|| (node'.lastRoundId > node.lastRoundId && node'.member.context.roundId == node'.lastRoundId
            && node'.heard == node.heard == [] && node'.client.Broadcasting?
            && node'.client.message == Prepare(node'.lastRoundId) && node'.client.next == 0)
        || (node'.member.context.roundId == -1)
        || (node'.member.context.roundId == node.member.context.roundId && node'.heard == node.heard
            && !(node'.client.Broadcasting? && node'.client.message.Prepare?)))
  }

  lemma ClientCounted(s: System, step: Step)
    requires Enabled(s, step) && IsClientStep(step) && !step.SendNext? && OwnIdsIncrease(s, step)
    requires Counted(|s.nodes|, step.p, s.nodes[step.p])
    ensures Counted(|s.nodes|, step.p, Apply(s, step).nodes[step.p])
    ensures ClientMoves(s.nodes[step.p], Apply(s, step).nodes[step.p])
  {
  }

  lemma ClientKeeps(s: System, step: Step)
    requires RoundsOk(s) && Enabled(s, step) && OwnIdsIncrease(s, step) && IsClientStep(step) && !step.SendNext?
    ensures RoundsOk(Apply(s, step))
  {
    var s', p := Apply(s, step), step.p;
    ClientEffect(s, step);
    assert ProposerOk(s, p);
    ClientCounted(s, step);
    ClientAskedOnce(s, s', p);
    forall q | IsNode(s', q)
      ensures ProposerOk(s', q)
    {
      assert ProposerOk(s, q);
      if q != p {
        TokensSame(s, s', q);
      }
    }
  }

  lemma ClientAskedOnce(s: System, s': System, p: int)
    requires IsNode(s, p) && OwnIds(s, p) && AskedOnce(s, p)
    requires |s'.nodes| == |s.nodes| && s'.consensus == s.consensus && ClientMoves(s.nodes[p], s'.nodes[p])
    ensures OwnIds(s', p) && AskedOnce(s', p)
  {
    var node, node' := s.nodes[p], s'.nodes[p];
    var roundId := node'.member.context.roundId;
    if roundId != -1 {
      forall a | IsNode(s', a) && a != p
        ensures Tokens(s', p, a, roundId) <= 1
      {
        if node'.lastRoundId > node.lastRoundId && roundId == node'.lastRoundId {
          CountZero(Queue(s.consensus, p, a), PrepareOf(roundId));
          CountZero(Queue(s.consensus, a, p), PromiseOf(roundId));
        } else {
          assert Tokens(s, p, a, roundId) <= 1;
        }
      }
    }
  }

  // ---------------------------------------------------------------------------
  // Sends

  lemma SendKeeps(s: System, p: int)
    requires RoundsOk(s) && IsNode(s, p) && s.nodes[p].client.Broadcasting?
    ensures RoundsOk(SendOne(s, p))
  {
    var s' := SendOne(s, p);
    SendChannels(s, p);
    forall q | IsNode(s', q)
      ensures ProposerOk(s', q)
    {
      assert ProposerOk(s, q) && ProposerOk(s, p);
      if q != p {
        assert s'.nodes[q] == s.nodes[q];
      }
      SendOwnIds(s, p, q);
      SendAskedOnce(s, p, q);
    }
  }

  lemma SendOwnIds(s: System, p: int, q: int)
    requires IsNode(s, p) && IsNode(s, q) && s.nodes[p].client.Broadcasting?
    requires OwnIds(s, q) && Counted(|s.nodes|, p, s.nodes[p])
    ensures OwnIds(SendOne(s, p), q)
  {
    SendChannels(s, p);
  }

  lemma SendAskedOnce(s: System, p: int, q: int)
    requires IsNode(s, p) && IsNode(s, q) && s.nodes[p].client.Broadcasting?
    requires AskedOnce(s, q) && Counted(|s.nodes|, p, s.nodes[p])
    ensures AskedOnce(SendOne(s, p), q)
  {
    var s', roundId := SendOne(s, p), s.nodes[q].member.context.roundId;
    SendChannels(s, p);
    if roundId != -1 {
      forall a | IsNode(s', a) && a != q
        ensures Tokens(s', q, a, roundId) <= 1
      {
        assert Tokens(s, q, a, roundId) <= 1;
        SendTokens(s, p, q, a, roundId);
      }
    }
  }

  lemma SendTokens(s: System, p: int, q: int, a: int, roundId: int)
    requires IsNode(s, p) && IsNode(s, q) && IsNode(s, a) && a != q && s.nodes[p].client.Broadcasting?
    requires !s.nodes[p].client.message.Promise?
    ensures Tokens(SendOne(s, p), q, a, roundId) <= Tokens(s, q, a, roundId)
  {
    var pc, s' := s.nodes[p].client, SendOne(s, p);
    CountAppend(Queue(s.consensus, q, a), pc.message, PrepareOf(roundId));
    CountAppend(Queue(s.consensus, a, q), pc.message, PromiseOf(roundId));
    SendChannels(s, p);
    if q == p {
      assert Queue(s'.consensus, q, a) != Queue(s.consensus, q, a) ==> pc.next == a;
      assert Queue(s'.consensus, a, q) == Queue(s.consensus, a, q);
      assert s'.nodes[q].heard == s.nodes[q].heard;
    } else {
      assert s'.nodes[q] == s.nodes[q];
      assert Queue(s'.consensus, q, a) == Queue(s.consensus, q, a);
    }
  }

  // ---------------------------------------------------------------------------
  // Deliveries

  lemma DeliverKeeps(s: System, s': System, src: int, dst: int)
    requires RoundsOk(s) && Delivered(s, s', src, dst)
    ensures RoundsOk(s')
  {
    assert ProposerOk(s, dst) && ProposerOk(s, src);
    DeliverCounted(s, s', src, dst);
    forall p | IsNode(s', p)
      ensures ProposerOk(s', p)
    {
      assert ProposerOk(s, p);
      DeliverOwnIds(s, s', src, dst, p);
      DeliverAskedOnce(s, s', src, dst, p);
    }
  }

  /** What the receiver's round becomes, and what it answers. */
  lemma OutcomeRound(node: Node, src: int, message: ConsensusMsg)
    ensures var (node', reply) := Outcome(node, src, message);
      && node'.client == node.client && node'.lastRoundId == node.lastRoundId
      && (|| (node'.member.context.roundId == node.member.context.roundId
              && node'.heard == node.heard +
                   if message.Promise? && message.roundId == node.member.context.roundId && src in node.alive
                   then [Heard(src, message.report)] else [])
          || (node'.member.context == FRESH && node'.heard == []))
      && (reply.Some? && reply.value.Promise? ==> message.Prepare? && reply.value.roundId == message.id)
      && (reply.Some? ==> !reply.value.Prepare?)
  {
  }

  lemma DeliverCounted(s: System, s': System, src: int, dst: int)
    requires Delivered(s, s', src, dst)
    requires Counted(|s.nodes|, dst, s.nodes[dst]) && OwnIds(s, dst) && AskedOnce(s, dst)
    ensures Counted(|s.nodes|, dst, s'.nodes[dst])
  {
    var node, q := s.nodes[dst], Queue(s.consensus, src, dst);
    var head := q[0];
    assert head in q;
    if head.Promise? && head.roundId == node.member.context.roundId && src in node.alive {
      assert Count(q, PromiseOf(head.roundId)) >= 1;
      assert Tokens(s, dst, src, head.roundId) <= 1;
      assert src !in Sources(node.heard);
      PromiseCounted(|s.nodes|, dst, node, src, head.roundId, head.report);
    } else {
      OtherCounted(|s.nodes|, dst, node, src, head);
    }
  }

  lemma PromiseCounted(n: int, p: int, node: Node, src: int, roundId: int, report: Option<Report>)
    requires n > 0 && Counted(n, p, node) && roundId == node.member.context.roundId && roundId != -1
    requires src !in Sources(node.heard) && 0 <= src < n && src != p
    ensures Counted(n, p, Receive(node, src, Promise(roundId, report)).0)
  {
    var h := Heard(src, report);
    var heard' := node.heard + [h];
    SourcesAppend(node.heard, h);
    TallyAppend(Reports(node.heard), report);
    forall i, j | 0 <= i < j < |heard'|
      ensures heard'[i].src != heard'[j].src
    {
      assert heard'[i] in node.heard;
      assert heard'[i].src in Sources(node.heard);
    }
  }

  lemma OtherCounted(n: int, p: int, node: Node, src: int, message: ConsensusMsg)
    requires n > 0 && Counted(n, p, node)
    requires !(message.Promise? && message.roundId == node.member.context.roundId && src in node.alive)
    ensures Counted(n, p, Outcome(node, src, message).0)
  {
  }

  lemma DeliverOwnIds(s: System, s': System, src: int, dst: int, p: int)
    requires Delivered(s, s', src, dst) && IsNode(s, p) && OwnIds(s, p) && OwnIds(s, src) && OwnIds(s, dst)
    ensures OwnIds(s', p)
  {
    var head := Queue(s.consensus, src, dst)[0];
    var reply := Outcome(s.nodes[dst], src, head).1;
    assert head in Queue(s.consensus, src, dst);
    OutcomeRound(s.nodes[dst], src, head);
    assert s'.nodes[p].lastRoundId == s.nodes[p].lastRoundId;
    assert src != dst;
    forall a, m | m in Queue(s'.consensus, p, a) && m.Prepare?
      ensures 0 <= m.id <= s.nodes[p].lastRoundId
    {
      DeliveredMember(s, s', src, dst, p, a, m);
    }
    forall a, m | m in Queue(s'.consensus, a, p) && m.Promise?
      ensures 0 <= m.roundId <= s.nodes[p].lastRoundId
    {
      DeliveredMember(s, s', src, dst, a, p, m);
    }
  }

  lemma DeliverAskedOnce(s: System, s': System, src: int, dst: int, p: int)
    requires Delivered(s, s', src, dst) && IsNode(s, p) && AskedOnce(s, p) && src != dst
    ensures AskedOnce(s', p)
  {
    var roundId := s'.nodes[p].member.context.roundId;
    var head := Queue(s.consensus, src, dst)[0];
    OutcomeRound(s.nodes[dst], src, head);
    if roundId != -1 {
      assert roundId == s.nodes[p].member.context.roundId;
      forall a | IsNode(s', a) && a != p
        ensures Tokens(s', p, a, roundId) <= 1
      {
        assert Tokens(s, p, a, roundId) <= 1;
        DeliverTokens(s, s', src, dst, p, a, roundId);
      }
    }
  }

  /** A delivery moves a promise on, or loses it; it never makes a second one. */
  lemma DeliverTokens(s: System, s': System, src: int, dst: int, p: int, a: int, roundId: int)
    requires Delivered(s, s', src, dst) && src != dst && IsNode(s, p) && IsNode(s, a) && a != p
    requires roundId == s.nodes[p].member.context.roundId == s'.nodes[p].member.context.roundId != -1
    ensures Tokens(s', p, a, roundId) <= Tokens(s, p, a, roundId)
  {
    var head := Queue(s.consensus, src, dst)[0];
    DeliverCount(s, s', src, dst, p, a, PrepareOf(roundId));
    DeliverCount(s, s', src, dst, a, p, PromiseOf(roundId));
    if dst == p {
      OutcomeRound(s.nodes[dst], src, head);
      HeardAfter(s.nodes[dst], src, head, a, roundId);
    } else {
      assert s'.nodes[p] == s.nodes[p];
      PromiseAnswers(s.nodes[dst], src, head, roundId);
    }
  }

  /** A promise answers the PREPARE of its round. */
  lemma PromiseAnswers(node: Node, src: int, message: ConsensusMsg, roundId: int)
    ensures var reply := Outcome(node, src, message).1;
      reply.Some? && Matches(PromiseOf(roundId), reply.value) ==> Matches(PrepareOf(roundId), message)
  {
  }

  /** A delivery takes the message off its channel, and only puts the reply on the one going back. */
  lemma DeliverCount(s: System, s': System, src: int, dst: int, a: int, b: int, k: Pattern)
    requires Delivered(s, s', src, dst)
    ensures var reply := Outcome(s.nodes[dst], src, Queue(s.consensus, src, dst)[0]).1;
      Count(Queue(s'.consensus, a, b), k)
      + (if a == src && b == dst && Matches(k, Queue(s.consensus, src, dst)[0]) then 1 else 0)
      == Count(Queue(s.consensus, a, b), k)
      + (if a == dst && b == src && reply.Some? && Matches(k, reply.value) then 1 else 0)
  {
    var reply := Outcome(s.nodes[dst], src, Queue(s.consensus, src, dst)[0]).1;
    if a == dst && b == src && reply.Some? {
      CountAppend(Popped(s.consensus, src, dst, a, b), reply.value, k);
    }
  }

  /** Only a promise of the current round adds to the nodes heard from, and only its sender. */
  lemma HeardAfter(node: Node, src: int, message: ConsensusMsg, a: int, roundId: int)
    requires roundId != -1
    ensures var node' := Outcome(node, src, message).0;
      node.member.context.roundId == roundId == node'.member.context.roundId ==>
        (a in Sources(node'.heard) ==> a in Sources(node.heard) || (a == src && Matches(PromiseOf(roundId), message)))
  {
  }

  // ---------------------------------------------------------------------------
  // Whole runs

  lemma RoundsStep(s: System, step: Step, s': System)
    requires RoundsOk(s) && Enabled(s, step) && OwnIdsIncrease(s, step) && s' == Apply(s, step)
    ensures RoundsOk(s')
  {
    if step.DeliverConsensus? {
      DeliveryEffect(s, step.src, step.dst);
      DeliverKeeps(s, s', step.src, step.dst);
    } else if step.SendNext? {
      SendKeeps(s, step.p);
    } else if IsClientStep(step) {
      ClientKeeps(s, step);
    } else {
      OtherKeeps(s, step);
    }
  }

  lemma RoundsStart(s: System)
    requires Initial(s)
    ensures RoundsOk(s)
  {
    forall p | IsNode(s, p)
      ensures ProposerOk(s, p)
    {
      assert s.nodes[p] == InitialNode(|s.nodes|, p).(leaderId := s.nodes[p].leaderId);
    }
  }

  ghost predicate IncreasingAt(states: seq<System>, steps: seq<Step>, i: int)
    requires |states| == |steps| + 1 && 0 <= i < |steps|
  {
    Enabled(states[i], steps[i]) && OwnIdsIncrease(states[i], steps[i])
  }

  ghost predicate IncreasingRun(states: seq<System>, steps: seq<Step>) {
    && IsRun(states, steps)
    && forall i {:trigger IncreasingAt(states, steps, i)} :: 0 <= i < |steps| ==> IncreasingAt(states, steps, i)
  }

  lemma {:induction false} RoundsHold(states: seq<System>, steps: seq<Step>, k: nat)
    requires IncreasingRun(states, steps) && k < |states|
    ensures RoundsOk(states[k])
  {
    if k == 0 {
      RoundsStart(states[0]);
    } else {
      RoundsHold(states, steps, k - 1);
      RunStep(states, steps, k - 1);
      assert IncreasingAt(states, steps, k - 1);
      RoundsStep(states[k - 1], steps[k - 1], states[k]);
    }
  }

  // ---------------------------------------------------------------------------
  // Every promise counted was given

  /** A promise on its way to p, and one p has counted, was given by its sender for the round it names. */
  ghost predicate Backed(s: System, p: int)
    requires IsNode(s, p)
  {
    && (forall h :: h in s.nodes[p].heard ==>
          IsNode(s, h.src) && Promised(s.nodes[p].member.context.roundId) in s.nodes[h.src].events)
    && (forall a, m {:trigger m in Queue(s.consensus, a, p)} ::
          m in Queue(s.consensus, a, p) && m.Promise? && IsNode(s, a) ==> Promised(m.roundId) in s.nodes[a].events)
  }

  ghost predicate AllBacked(s: System) {
    forall p {:trigger Backed(s, p)} :: IsNode(s, p) ==> Backed(s, p)
  }

  ghost predicate EventsKept(s: System, s': System) {
    |s'.nodes| == |s.nodes| && forall a {:trigger s'.nodes[a]} :: IsNode(s, a) ==>
        s.nodes[a].events <= s'.nodes[a].events
  }

  lemma EventKept(s: System, s': System, a: int, e: Event)
    requires EventsKept(s, s') && IsNode(s, a) && e in s.nodes[a].events
    ensures e in s'.nodes[a].events
  {
    assert s'.nodes[a].events[..|s.nodes[a].events|] == s.nodes[a].events;
  }

  /** Steps after which p counts the same promises, or none, and no promise is new on a channel. */
  lemma BackedKept(s: System, s': System, p: int)
    requires IsNode(s, p) && Backed(s, p) && EventsKept(s, s')
    requires s'.nodes[p].heard == [] ||
             (s'.nodes[p].heard == s.nodes[p].heard
              && s'.nodes[p].member.context.roundId == s.nodes[p].member.context.roundId)
    requires forall a, m {:trigger m in Queue(s'.consensus, a, p)} ::
               m in Queue(s'.consensus, a, p) && m.Promise? ==> m in Queue(s.consensus, a, p)
    ensures Backed(s', p)
  {
    forall h | h in s'.nodes[p].heard
      ensures IsNode(s', h.src) && Promised(s'.nodes[p].member.context.roundId) in s'.nodes[h.src].events
    {
      EventKept(s, s', h.src, Promised(s.nodes[p].member.context.roundId));
    }
    forall a, m | m in Queue(s'.consensus, a, p) && m.Promise? && IsNode(s', a)
      ensures Promised(m.roundId) in s'.nodes[a].events
    {
      EventKept(s, s', a, Promised(m.roundId));
    }
  }

  /** What a delivery makes the receiver promise and count. */
  lemma OutcomeBacked(node: Node, src: int, message: ConsensusMsg)
    ensures var (node', reply) := Outcome(node, src, message);
      && node.events <= node'.events
      && (reply.Some? && reply.value.Promise? ==> Promised(reply.value.roundId) in node'.events)
      && (|| node'.heard == []
          || (node'.heard == node.heard && node'.member.context.roundId == node.member.context.roundId)
          || (message.Promise? && message.roundId == node.member.context.roundId == node'.member.context.roundId
              && node'.heard == node.heard + [Heard(src, message.report)]))
  {
  }

  lemma DeliverBacked(s: System, s': System, src: int, dst: int, p: int)
    requires Delivered(s, s', src, dst) && IsNode(s, p) && Backed(s, p) && Backed(s, dst)
    ensures IsNode(s', p) && Backed(s', p)
  {
    var head := Queue(s.consensus, src, dst)[0];
    assert head in Queue(s.consensus, src, dst);
    OutcomeBacked(s.nodes[dst], src, head);
    assert EventsKept(s, s');
    forall h | h in s'.nodes[p].heard
      ensures IsNode(s', h.src) && Promised(s'.nodes[p].member.context.roundId) in s'.nodes[h.src].events
    {
      if h in s.nodes[p].heard && s'.nodes[p].member.context.roundId == s.nodes[p].member.context.roundId {
        EventKept(s, s', h.src, Promised(s.nodes[p].member.context.roundId));
      } else {
        assert p == dst && h.src == src;
        EventKept(s, s', src, Promised(s.nodes[p].member.context.roundId));
      }
    }
    forall a, m | m in Queue(s'.consensus, a, p) && m.Promise? && IsNode(s', a)
      ensures Promised(m.roundId) in s'.nodes[a].events
    {
      DeliveredMember(s, s', src, dst, a, p, m);
      if m in Queue(s.consensus, a, p) {
        EventKept(s, s', a, Promised(m.roundId));
      }
    }
  }

  lemma ClientHeard(s: System, step: Step)
    requires Enabled(s, step) && IsClientStep(step) && !step.SendNext?
    requires Counted(|s.nodes|, step.p, s.nodes[step.p])
    ensures var node, node' := s.nodes[step.p], Apply(s, step).nodes[step.p];
      && node'.events == node.events
      && (node'.heard == [] || (node'.heard == node.heard
                                && node'.member.context.roundId == node.member.context.roundId))
  {
  }

  lemma SendBacked(s: System, from: int, p: int)
    requires RoundsOk(s) && IsNode(s, from) && s.nodes[from].client.Broadcasting? && IsNode(s, p) && Backed(s, p)
    ensures IsNode(SendOne(s, from), p) && Backed(SendOne(s, from), p)
  {
    SendChannels(s, from);
    assert ProposerOk(s, from);
    BackedKept(s, SendOne(s, from), p);
  }

  lemma BackedStep(s: System, step: Step, s': System, p: int)
    requires RoundsOk(s) && AllBacked(s) && Enabled(s, step) && s' == Apply(s, step) && IsNode(s, p)
    ensures IsNode(s', p) && Backed(s', p)
  {
    assert Backed(s, p) && ProposerOk(s, p);
    if step.DeliverConsensus? {
      DeliveryEffect(s, step.src, step.dst);
      assert Backed(s, step.dst);
      DeliverBacked(s, s', step.src, step.dst, p);
    } else if step.SendNext? {
      SendBacked(s, step.p, p);
    } else if IsClientStep(step) {
      ClientBacked(s, step, p);
    } else {
      OtherEffect(s, step);
      assert SameRound(s.nodes[p], s'.nodes[p]);
      BackedKept(s, s', p);
    }
  }

  lemma ClientBacked(s: System, step: Step, p: int)
    requires RoundsOk(s) && Enabled(s, step) && IsClientStep(step) && !step.SendNext? && IsNode(s, p) && Backed(s, p)
    ensures IsNode(Apply(s, step), p) && Backed(Apply(s, step), p)
  {
    assert ProposerOk(s, step.p);
    ClientEffect(s, step);
    ClientHeard(s, step);
    BackedKept(s, Apply(s, step), p);
  }

  lemma {:induction false} BackedHolds(states: seq<System>, steps: seq<Step>, k: nat)
    requires IncreasingRun(states, steps) && k < |states|
    ensures AllBacked(states[k])
  {
    if k == 0 {
      forall p | IsNode(states[0], p) ensures Backed(states[0], p) {
        assert states[0].nodes[p] == InitialNode(|states[0].nodes|, p).(leaderId := states[0].nodes[p].leaderId);
      }
    } else {
      RoundsHold(states, steps, k - 1);
      BackedHolds(states, steps, k - 1);
      RunStep(states, steps, k - 1);
      SizeIsFixed(states[k - 1], steps[k - 1]);
      forall p | IsNode(states[k], p) ensures Backed(states[k], p) {
        BackedStep(states[k - 1], steps[k - 1], states[k], p);
      }
    }
  }

  /** In every state of every run in which a node's own round ids increase: promiseCount is the number of distinct
      nodes, never p itself, whose promise has been handled, and each of them did promise the round p is in. A context
      that was reset counts nothing, so a late promise of an earlier round is never counted. */
  lemma PromiseCountIsDistinctNodes(states: seq<System>, steps: seq<Step>, k: nat, p: int)
    requires IncreasingRun(states, steps) && k < |states| && IsNode(states[k], p)
    ensures var node := states[k].nodes[p];
      && node.member.context.promiseCount == |Sources(node.heard)|
      && p !in Sources(node.heard)
      && (forall a :: a in Sources(node.heard) ==>
            IsNode(states[k], a) && Promised(node.member.context.roundId) in states[k].nodes[a].events)
      && (node.member.context.roundId == -1 ==> node.member.context.promiseCount == 0)
  {
    RoundsHold(states, steps, k);
    BackedHolds(states, steps, k);
    assert ProposerOk(states[k], p) && Backed(states[k], p);
    SourcesSize(states[k].nodes[p].heard);
  }
}

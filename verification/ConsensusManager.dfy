/** The ConsensusManager of src/manager/consensus-manager.cc, its handlers proved against the transitions of module
    Consensus, and a whole startConsensus against the function Round. */
module ConsensusManager {
  import opened Messages
  import Messenger
  import LogFile
  import opened Consensus

  /** A consensus message with its sender, as the consensus thread receives it. */
  datatype Letter = Letter(src: int, message: ConsensusMsg)

  predicate FromCluster(inbox: seq<Letter>, n: int) {
    forall i :: 0 <= i < |inbox| ==> 0 <= inbox[i].src < n
  }

  /** The fields once the consensus thread has handled an inbox. */
  function HearAll(m: Member, inbox: seq<Letter>): Member {
    if inbox == [] then m
    else Handle(HearAll(m, inbox[..|inbox| - 1]), inbox[|inbox| - 1].message).0
  }

  /** What send hands on: nothing when there is no reply or the receiver is suspected. */
  function Posted(view: set<int>, rank: int, dst: int, reply: Option<ConsensusMsg>): seq<Messenger.Envelope> {
    if reply.Some? && (dst == rank || dst in view)
    then [Messenger.Envelope(dst, ConsensusMessage(reply.value), World)]
    else []
  }

  /** The replies to an inbox. */
  function Replies(view: set<int>, rank: int, m: Member, inbox: seq<Letter>): seq<Messenger.Envelope> {
    if inbox == [] then []
    else
      var last := inbox[|inbox| - 1];
      Replies(view, rank, m, inbox[..|inbox| - 1])
      + Posted(view, rank, last.src, Handle(HearAll(m, inbox[..|inbox| - 1]), last.message).1)
  }

  /** What the client thread finds at its turning points: the member after the promise wait, after the accept wait, and
      at the end. */
  datatype Outcome = Outcome(promised: Member, accepted: Member, end: Member, reached: bool)

  predicate HasPromises(n: int, m: Member)
    requires n > 0
  {
    m.context.promiseCount >= Quorum(n)
  }

  predicate HasAccepts(n: int, m: Member)
    requires n > 0
  {
    m.context.acceptCount >= Quorum(n)
  }

  function Started(m: Member, id: int): Member {
    m.(context := m.context.(roundId := id))
  }

  function Written(m: Member, value: Value, reached: bool): Member {
    if reached then m.(log := m.log + [value]) else m
  }

  function AfterAccepts(n: int, promised: Member, accepts: seq<Letter>): Member
    requires n > 0
  {
    if HasPromises(n, promised) then HearAll(promised, accepts) else promised
  }

  predicate Reaches(n: int, promised: Member, accepted: Member)
    requires n > 0
  {
    HasPromises(n, promised) && HasAccepts(n, accepted)
  }

  /** One startConsensus, during whose waits the consensus thread handles `promises`, `accepts` and `rest`. */
  function Round(n: int, m: Member, value: Value, id: int, promises: seq<Letter>, accepts: seq<Letter>,
                 rest: seq<Letter>): Outcome
    requires n > 0
  {
    var promised := HearAll(Started(m, id), promises);
    var accepted := AfterAccepts(n, promised, accepts);
    var reached := Reaches(n, promised, accepted);
    Outcome(promised, accepted, HearAll(Written(accepted, value, reached), rest).(context := FRESH), reached)
  }

  class ConsensusManager {
    const messenger: Messenger.Messenger
    const logFile: LogFile.LogFileManager
    var context: Context
    var maxRoundId: int

    ghost predicate Valid()
      reads this, messenger
    {
      messenger.Valid()
    }

    ghost function Fields(): Member
      reads this, logFile
    {
      Member(context, maxRoundId, logFile.entries)
    }

    constructor (messenger: Messenger.Messenger, logFile: LogFile.LogFileManager)
      requires messenger.Valid()
      ensures Valid() && this.messenger == messenger && this.logFile == logFile
      ensures Fields() == NEW_MEMBER.(log := logFile.entries)
    {
      this.messenger, this.logFile := messenger, logFile;
      context, maxRoundId := FRESH, -1;
    }

    method Reply(dst: int, message: ConsensusMsg)
      requires Valid() && 0 <= dst < messenger.clusterSize
      modifies messenger`sent
      ensures messenger.sent == old(messenger.sent) + Posted(messenger.View(), messenger.rank, dst, Some(message))
    {
      messenger.Send(dst, ConsensusMessage(message), World);
    }

    method HandlePrepare(src: int, id: int)
      requires Valid() && 0 <= src < messenger.clusterSize
      modifies this, messenger`sent
      ensures Valid() && Fields() == OnPrepare(old(Fields()), id).0
      ensures messenger.sent == old(messenger.sent)
              + Posted(messenger.View(), messenger.rank, src, OnPrepare(old(Fields()), id).1)
    {
      if id > maxRoundId {
        maxRoundId := id;
        if context.valueAccepted {
          Reply(src, Promise(id, Some(Report(context.acceptedId, context.acceptedValue))));
        } else {
          Reply(src, Promise(id, None));
        }
      }
    }

    method HandlePropose(src: int, id: int, roundId: int, value: Value)
      requires Valid() && 0 <= src < messenger.clusterSize
      modifies this, messenger`sent
      ensures Valid() && Fields() == OnPropose(old(Fields()), id, roundId, value).0
      ensures messenger.sent ==
              old(messenger.sent) + Posted(messenger.View(), messenger.rank, src,
                                           OnPropose(old(Fields()), id, roundId, value).1)
    {
      if roundId == maxRoundId {
        context := context.(valueAccepted := true, acceptedId := roundId);
        context := context.(acceptedValue := value);
        Reply(src, Accept(id));
      }
    }

    method HandleAccepted(value: Value)
      requires Valid()
      modifies this, logFile
      ensures Valid() && Fields() == OnAccepted(old(Fields()), value)
    {
      logFile.Append(value);
      context := FRESH;
    }

    method HandlePromise(roundId: int, report: Option<Report>)
      requires Valid()
      modifies this
      ensures Valid() && Fields() == OnPromise(old(Fields()), roundId, report)
    {
      if roundId == context.roundId {
        var acceptedId := if report.Some? then report.value.id else -1;
        if acceptedId > context.maxAcceptedId {
          context := context.(acceptedValue := if report.Some? then report.value.value else "");
          context := context.(maxAcceptedId := acceptedId);
        }
        context := context.(promiseCount := context.promiseCount + 1);
      }
    }

    method HandleAccept()
      requires Valid()
      modifies this
      ensures Valid() && Fields() == OnAccept(old(Fields()))
    {
      context := context.(acceptCount := context.acceptCount + 1);
    }

    method HandleMessage(src: int, message: ConsensusMsg)
      requires Valid() && 0 <= src < messenger.clusterSize
      modifies this, logFile, messenger`sent
      ensures Valid() && Fields() == Handle(old(Fields()), message).0
      ensures messenger.sent == old(messenger.sent)
              + Posted(messenger.View(), messenger.rank, src, Handle(old(Fields()), message).1)
    {
      match message {
        case Prepare(id) => HandlePrepare(src, id);
        case Promise(roundId, report) => HandlePromise(roundId, report);
        case Propose(id, roundId, value) => HandlePropose(src, id, roundId, value);
        case Accept(_) => HandleAccept();
        case Accepted(_, value) => HandleAccepted(value);
      }
    }

    /** The consensus thread while the client thread sleeps. */
    method Receive(inbox: seq<Letter>)
      requires Valid() && FromCluster(inbox, messenger.clusterSize)
      modifies this, logFile, messenger`sent
      ensures Valid() && Fields() == HearAll(old(Fields()), inbox)
      ensures messenger.sent == old(messenger.sent) + Replies(messenger.View(), messenger.rank, old(Fields()), inbox)
    {
      ghost var was := Fields();
      var i := 0;
      assert inbox[..0] == [];
      while i < |inbox|
        invariant 0 <= i <= |inbox|
        invariant Valid() && Fields() == HearAll(was, inbox[..i])
        invariant messenger.sent == old(messenger.sent) + Replies(messenger.View(), messenger.rank, was, inbox[..i])
      {
        HandleMessage(inbox[i].src, inbox[i].message);
        assert inbox[..i + 1][..i] == inbox[..i];
        i := i + 1;
      }
      assert inbox[..i] == inbox;
    }

    method BroadcastPrepare(id: int)
      requires Valid()
      modifies this, messenger`sent
      ensures Valid() && Fields() == old(Fields()).(context := old(context).(roundId := id))
      ensures messenger.sent == old(messenger.sent)
              + Messenger.ToOthers(messenger.View(), messenger.rank, messenger.clusterSize,
                                   ConsensusMessage(Prepare(id)))
    {
      context := context.(roundId := id);
      messenger.Broadcast(ConsensusMessage(Prepare(id)), 0, messenger.clusterSize, false);
    }

    method BroadcastPropose(id: int, value: Value)
      requires Valid()
      modifies messenger`sent
      ensures messenger.sent == old(messenger.sent) +
              Messenger.ToOthers(messenger.View(), messenger.rank, messenger.clusterSize,
                                 ConsensusMessage(Propose(id, context.roundId, ProposedValue(context, value))))
    {
      var proposeValue := if context.maxAcceptedId == -1 then value else context.acceptedValue;
      messenger.Broadcast(ConsensusMessage(Propose(id, context.roundId, proposeValue)), 0, messenger.clusterSize,
                          false);
    }

    method BroadcastAccepted(value: Value)
      requires Valid()
      modifies messenger`sent
      ensures messenger.sent == old(messenger.sent) +
              Messenger.ToOthers(messenger.View(), messenger.rank, messenger.clusterSize,
                                 ConsensusMessage(Accepted(context.roundId, value)))
    {
      messenger.Broadcast(ConsensusMessage(Accepted(context.roundId, value)), 0, messenger.clusterSize, false);
    }

    /** broadcastPrepare, and receivePromises while `promises` arrive. */
    method PreparePhase(id: int, promises: seq<Letter>) returns (majorityPromised: bool)
      requires Valid() && FromCluster(promises, messenger.clusterSize)
      modifies this, logFile, messenger`sent
      ensures Valid() && Fields() == HearAll(Started(old(Fields()), id), promises)
      ensures majorityPromised == HasPromises(messenger.clusterSize, Fields())
      ensures messenger.sent == old(messenger.sent) +
              PrepareMail(messenger.View(), messenger.rank, messenger.clusterSize, old(Fields()), id, promises)
    {
      BroadcastPrepare(id);
      Receive(promises);
      majorityPromised := context.promiseCount >= (messenger.clusterSize - 1) / 2;
    }

    /** broadcastPropose, and receiveAccepts while `accepts` arrive. */
    method ProposePhase(value: Value, id: int, accepts: seq<Letter>) returns (majorityAccepted: bool)
      requires Valid() && FromCluster(accepts, messenger.clusterSize)
      modifies this, logFile, messenger`sent
      ensures Valid() && Fields() == HearAll(old(Fields()), accepts)
      ensures majorityAccepted == HasAccepts(messenger.clusterSize, Fields())
      ensures messenger.sent == old(messenger.sent) +
              ProposeMail(messenger.View(), messenger.rank, messenger.clusterSize, old(Fields()), value, id, accepts)
    {
      BroadcastPropose(id, value);
      Receive(accepts);
      majorityAccepted := context.acceptCount >= (messenger.clusterSize - 1) / 2;
    }

    /** The part of startConsensus after a majority promised, up to its last sleep. */
    method ProposeAndCommit(value: Value, proposeId: int, accepts: seq<Letter>) returns (consensusReached: bool)
      requires Valid() && FromCluster(accepts, messenger.clusterSize)
      modifies this, logFile, messenger`sent
      ensures Valid()
      ensures var accepted := HearAll(old(Fields()), accepts);
              consensusReached == HasAccepts(messenger.clusterSize, accepted)
                  && Fields() == Written(accepted, value, consensusReached)
      ensures messenger.sent == old(messenger.sent)
              + CommitMail(messenger.View(), messenger.rank, messenger.clusterSize, old(Fields()), value, proposeId,
                           accepts)
    {
      consensusReached := false;
      var majorityAccepted := ProposePhase(value, proposeId, accepts);
      if majorityAccepted {
        logFile.Append(value);
        BroadcastAccepted(value);
        consensusReached := true;
      }
    }

    /** startConsensus up to its last sleep. */
    method Attempt(value: Value, id: int, proposeId: int, promises: seq<Letter>, accepts: seq<Letter>)
      returns (consensusReached: bool)
      requires Valid() && FromCluster(promises, messenger.clusterSize) && FromCluster(accepts, messenger.clusterSize)
      modifies this, logFile, messenger`sent
      ensures Valid()
      ensures var promised := HearAll(Started(old(Fields()), id), promises);
              var accepted := AfterAccepts(messenger.clusterSize, promised, accepts);
              consensusReached == Reaches(messenger.clusterSize, promised, accepted)
                  && Fields() == Written(accepted, value, consensusReached)
      ensures messenger.sent == old(messenger.sent)
              + AttemptMail(messenger.View(), messenger.rank, messenger.clusterSize, old(Fields()), value, id,
                            proposeId, promises, accepts)
    {
      ghost var was, sent, view, rank, n :=
          Fields(), messenger.sent, messenger.View(), messenger.rank, messenger.clusterSize;
      consensusReached := false;
      var majorityPromised := PreparePhase(id, promises);
      ghost var promised, prepareMail :=
          HearAll(Started(was, id), promises), PrepareMail(view, rank, n, was, id, promises);
      assert Fields() == promised && messenger.sent == sent + prepareMail;
      if majorityPromised {
        consensusReached := ProposeAndCommit(value, proposeId, accepts);
        assert messenger.sent == sent + (prepareMail + CommitMail(view, rank, n, promised, value, proposeId, accepts));
      }
    }

    /** `promises`, `accepts` and `rest` are what arrives during the three sleeps. */
    method StartConsensus(value: Value, id: int, proposeId: int, promises: seq<Letter>, accepts: seq<Letter>,
                          rest: seq<Letter>)
      returns (consensusReached: bool)
      requires Valid() && FromCluster(promises, messenger.clusterSize) && FromCluster(accepts, messenger.clusterSize)
      requires FromCluster(rest, messenger.clusterSize)
      modifies this, logFile, messenger`sent
      ensures Valid()
      ensures var outcome := Round(messenger.clusterSize, old(Fields()), value, id, promises, accepts, rest);
              Fields() == outcome.end && consensusReached == outcome.reached
      ensures messenger.sent == old(messenger.sent)
              + RoundMail(messenger.View(), messenger.rank, messenger.clusterSize, old(Fields()), value, id,
                          proposeId, promises, accepts, rest)
    {
      ghost var was, sent, view, rank, n :=
          Fields(), messenger.sent, messenger.View(), messenger.rank, messenger.clusterSize;
      consensusReached := Attempt(value, id, proposeId, promises, accepts);
      ghost var attempt, last := AttemptMail(view, rank, n, was, value, id, proposeId, promises, accepts), Fields();
      assert messenger.sent == sent + attempt;
      Receive(rest);
      ghost var answers := Replies(view, rank, last, rest);
      assert messenger.sent == sent + attempt + answers == sent + (attempt + answers);
      context := FRESH;
    }
  }

  function PrepareMail(view: set<int>, rank: int, n: int, m: Member, id: int,
                       promises: seq<Letter>): seq<Messenger.Envelope>
  {
    Messenger.ToOthers(view, rank, n, ConsensusMessage(Prepare(id))) + Replies(view, rank, Started(m, id), promises)
  }

  function ProposeMail(view: set<int>, rank: int, n: int, promised: Member, value: Value, id: int,
                       accepts: seq<Letter>): seq<Messenger.Envelope>
  {
    Messenger.ToOthers(view, rank, n,
                       ConsensusMessage(Propose(id, promised.context.roundId, ProposedValue(promised.context, value))))
    + Replies(view, rank, promised, accepts)
  }

  function CommitMail(view: set<int>, rank: int, n: int, promised: Member, value: Value, id: int,
                      accepts: seq<Letter>): seq<Messenger.Envelope>
    requires n > 0
  {
    var accepted, proposeMail := HearAll(promised, accepts), ProposeMail(view, rank, n, promised, value, id, accepts);
    if HasAccepts(n, accepted)
    then proposeMail + Messenger.ToOthers(view, rank, n, ConsensusMessage(Accepted(accepted.context.roundId, value)))
    else proposeMail
  }

  function AttemptMail(view: set<int>, rank: int, n: int, m: Member, value: Value, id: int, proposeId: int,
                       promises: seq<Letter>, accepts: seq<Letter>): seq<Messenger.Envelope>
    requires n > 0
  {
    var promised, prepareMail := HearAll(Started(m, id), promises), PrepareMail(view, rank, n, m, id, promises);
    if HasPromises(n, promised) then prepareMail + CommitMail(view, rank, n, promised, value, proposeId, accepts)
    else prepareMail
  }

  /** Everything a startConsensus, and the consensus thread during it, hands to MPI. */
  function RoundMail(view: set<int>, rank: int, n: int, m: Member, value: Value, id: int, proposeId: int,
                     promises: seq<Letter>, accepts: seq<Letter>, rest: seq<Letter>): seq<Messenger.Envelope>
    requires n > 0
  {
    var outcome := Round(n, m, value, id, promises, accepts, rest);
    AttemptMail(view, rank, n, m, value, id, proposeId, promises, accepts)
    + Replies(view, rank, Written(outcome.accepted, value, outcome.reached), rest)
  }

  // ---------------------------------------------------------------------------
  // What a round does

  /** The values ACCEPTED messages of an inbox make the node log. */
  function Logged(inbox: seq<Letter>): seq<Value> {
    if inbox == [] then []
    else
      var before, last := Logged(inbox[..|inbox| - 1]), inbox[|inbox| - 1].message;
      if last.Accepted? then before + [last.value] else before
  }

  lemma {:induction false} HeardLog(m: Member, inbox: seq<Letter>)
    ensures HearAll(m, inbox).log == m.log + Logged(inbox)
    ensures HearAll(m, inbox).maxRoundId >= m.maxRoundId
  {
    if inbox != [] {
      HeardLog(m, inbox[..|inbox| - 1]);
    }
  }

  /** Every round ends with a fresh context, and besides what other leaders' ACCEPTED messages add, it adds the client's
      value, once, if and only if it reports consensus. */
  lemma RoundLog(n: int, m: Member, value: Value, id: int, promises: seq<Letter>, accepts: seq<Letter>,
                 rest: seq<Letter>)
    requires n > 0
    ensures var outcome := Round(n, m, value, id, promises, accepts, rest);
      && outcome.end.context == FRESH && outcome.end.maxRoundId >= m.maxRoundId
      && outcome.end.log ==
           outcome.accepted.log + (if outcome.reached then [value] else []) + Logged(rest)
      && outcome.accepted.log ==
           m.log + Logged(promises) + if HasPromises(n, outcome.promised) then Logged(accepts) else []
  {
    var started := Started(m, id);
    var outcome := Round(n, m, value, id, promises, accepts, rest);
    HeardLog(started, promises);
    HeardLog(outcome.promised, accepts);
    HeardLog(Written(outcome.accepted, value, outcome.reached), rest);
  }

  /** The promises an inbox holds for round id, in order of arrival. */
  function PromisesFor(id: int, inbox: seq<Letter>): seq<Option<Report>> {
    if inbox == [] then []
    else
      var before, last := PromisesFor(id, inbox[..|inbox| - 1]), inbox[|inbox| - 1].message;
      if last.Promise? && last.roundId == id then before + [last.report] else before
  }

  function AcceptsIn(inbox: seq<Letter>): nat {
    if inbox == [] then 0
    else AcceptsIn(inbox[..|inbox| - 1]) + if inbox[|inbox| - 1].message.Accept? then 1 else 0
  }

  /** No other proposer is heard. */
  ghost predicate OneProposer(inbox: seq<Letter>) {
    forall l :: l in inbox ==> l.message.Promise? || l.message.Accept?
  }

  lemma {:induction false} Tallied(m: Member, id: int, inbox: seq<Letter>)
    requires OneProposer(inbox)
    requires m.context.roundId == id && m.context.promiseCount == 0 && m.context.maxAcceptedId == -1
    ensures var context := HearAll(m, inbox).context;
      && context.roundId == id
      && context.promiseCount == |PromisesFor(id, inbox)|
      && context.acceptCount == m.context.acceptCount + AcceptsIn(inbox)
      && context.maxAcceptedId == MaxReported(PromisesFor(id, inbox))
      && (context.maxAcceptedId != -1 ==> context.acceptedValue == BestValue(PromisesFor(id, inbox)))
  {
    if inbox != [] {
      var before, last := inbox[..|inbox| - 1], inbox[|inbox| - 1];
      assert last in inbox;
      Tallied(m, id, before);
      if last.message.Promise? {
        TallyAppend(PromisesFor(id, before), last.message.report);
      }
    }
  }

  lemma {:induction false} AcceptsCounted(m: Member, inbox: seq<Letter>)
    requires OneProposer(inbox)
    ensures HearAll(m, inbox).context.acceptCount == m.context.acceptCount + AcceptsIn(inbox)
  {
    if inbox != [] {
      assert inbox[|inbox| - 1] in inbox;
      AcceptsCounted(m, inbox[..|inbox| - 1]);
    }
  }

  /** A round no other proposer disturbs proposes exactly when a quorum of promises for it arrived in time, then
      proposes the choice those promises determine, and reaches consensus exactly when moreover a quorum of ACCEPT
      messages arrived since its start, for whatever proposal they were meant. */
  lemma UndisturbedRound(n: int, m: Member, value: Value, id: int, promises: seq<Letter>, accepts: seq<Letter>,
                         rest: seq<Letter>)
    requires n > 0 && m.context == FRESH && OneProposer(promises) && OneProposer(accepts)
    ensures var outcome, reports := Round(n, m, value, id, promises, accepts, rest), PromisesFor(id, promises);
      && (HasPromises(n, outcome.promised) <==> |reports| >= Quorum(n))
      && ProposedValue(outcome.promised.context, value) == Choice(value, reports)
      && outcome.promised.context.roundId == id
      && (outcome.reached <==> |reports| >= Quorum(n) && AcceptsIn(promises) + AcceptsIn(accepts) >= Quorum(n))
  {
    var promised := HearAll(Started(m, id), promises);
    Tallied(Started(m, id), id, promises);
    AcceptsCounted(promised, accepts);
  }

  /** The value logged is the client's even when the round proposed, and its acceptors accepted, an adopted one: in a
      cluster of three, one promise that reports `adopted` and one ACCEPT are enough. */
  lemma LoggedNotProposed(value: Value, adopted: Value, id: int, proposeId: int)
    requires value != adopted && id > 0
    ensures var promises := [Letter(1, Promise(id, Some(Report(0, adopted))))];
            var outcome := Round(3, NEW_MEMBER, value, id, promises, [Letter(1, Accept(proposeId))], []);
            outcome.reached && ProposedValue(outcome.promised.context, value) == adopted && outcome.end.log == [value]
  {
    var promises, accepts := [Letter(1, Promise(id, Some(Report(0, adopted))))], [Letter(1, Accept(proposeId))];
    assert promises[..0] == [] && accepts[..0] == [];
    assert HearAll(Started(NEW_MEMBER, id), promises[..0]) == Started(NEW_MEMBER, id);
    assert HearAll(Started(NEW_MEMBER, id), promises)
           == OnPromise(Started(NEW_MEMBER, id), id, Some(Report(0, adopted)));
    var promised := HearAll(Started(NEW_MEMBER, id), promises);
    assert HearAll(promised, accepts[..0]) == promised;
    assert HearAll(promised, accepts) == OnAccept(promised);
  }
}

/** What src/manager/consensus-manager.cc sends: the answers of the consensus thread, told from the letters alone, and
    the three broadcasts of a startConsensus. */
module ConsensusMail {
  import opened Messages
  import opened Messenger
  import opened Consensus
  import opened ConsensusManager

  // ---------------------------------------------------------------------------
  // Answers

  /** A PREPARE at position k is above m_maxRoundId and every PREPARE before it. */
  ghost predicate Newest(m: Member, inbox: seq<Letter>, k: int, id: int)
    requires 0 <= k <= |inbox|
  {
    id > m.maxRoundId && forall j :: 0 <= j < k && inbox[j].message.Prepare? ==> inbox[j].message.id < id
  }

  /** The highest round promised before position k. */
  ghost predicate Highest(m: Member, inbox: seq<Letter>, k: int, id: int)
    requires 0 <= k <= |inbox|
  {
    && (id == m.maxRoundId || exists j :: 0 <= j < k && inbox[j].message == Prepare(id))
    && id >= m.maxRoundId
    && forall j :: 0 <= j < k && inbox[j].message.Prepare? ==> inbox[j].message.id <= id
  }

  /** Letter k is a PROPOSE of the highest round promised. */
  ghost predicate Accepts(m: Member, inbox: seq<Letter>, k: int)
    requires 0 <= k < |inbox|
  {
    inbox[k].message.Propose? && Highest(m, inbox, k, inbox[k].message.roundId)
  }

  /** No other PROPOSE is accepted, and no ACCEPTED arrives, at positions lo..k. */
  ghost predicate Quiet(m: Member, inbox: seq<Letter>, lo: int, k: int)
    requires 0 <= lo && k <= |inbox|
  {
    forall i :: lo <= i < k ==> !inbox[i].message.Accepted? && !Accepts(m, inbox, i)
  }

  /** Letter j is the acceptance a promise at position k has to report. */
  ghost predicate InForce(m: Member, inbox: seq<Letter>, k: int, j: int)
    requires 0 <= k <= |inbox|
  {
    0 <= j < k && Accepts(m, inbox, j) && Quiet(m, inbox, j + 1, k)
  }

  /** So is one of before the first letter. */
  ghost predicate StillInForce(m: Member, inbox: seq<Letter>, k: int)
    requires 0 <= k <= |inbox|
  {
    m.context.valueAccepted && Quiet(m, inbox, 0, k)
  }

  /** The value handlePromiseMessage reads: "" when there is none. */
  function Brought(report: Option<Report>): Value {
    if report.Some? then report.value.value else ""
  }

  /** A promise among positions lo..k has brought the value. */
  ghost predicate Adopted(inbox: seq<Letter>, lo: int, k: int, value: Value)
    requires 0 <= lo && k <= |inbox|
  {
    exists i :: lo <= i < k && inbox[i].message.Promise? && Brought(inbox[i].message.report) == value
  }

  ghost predicate SomeInForce(m: Member, inbox: seq<Letter>, k: int)
    requires 0 <= k <= |inbox|
  {
    StillInForce(m, inbox, k) || exists j :: InForce(m, inbox, k, j)
  }

  /** The report is of the acceptance of round `id`, held since position lo, with its value unless a promise received
      since then brought another. */
  ghost predicate IsReportOf(inbox: seq<Letter>, lo: int, k: int, id: int, value: Value, report: Report)
    requires 0 <= lo && k <= |inbox|
  {
    report.id == id && (report.value == value || Adopted(inbox, lo, k, report.value))
  }

  /** What a promise at position k reports: the last acceptance since the last ACCEPTED. */
  ghost predicate Reports(m: Member, inbox: seq<Letter>, k: int, report: Option<Report>)
    requires 0 <= k <= |inbox|
  {
    && (report.Some? <==> SomeInForce(m, inbox, k))
    && (report.Some? && StillInForce(m, inbox, k) ==>
          IsReportOf(inbox, 0, k, m.context.acceptedId, m.context.acceptedValue, report.value))
    && (forall j :: report.Some? && InForce(m, inbox, k, j) ==>
          IsReportOf(inbox, j + 1, k, inbox[j].message.roundId, inbox[j].message.value, report.value))
  }

  /** Letter k calls for an answer. */
  ghost predicate Answered(m: Member, inbox: seq<Letter>, k: int)
    requires 0 <= k < |inbox|
  {
    match inbox[k].message
    case Prepare(id) => Newest(m, inbox, k, id)
    case Propose(_, _, _) => Accepts(m, inbox, k)
    case _ => false
  }

  /** `answer` is the one letter k calls for. */
  ghost predicate IsAnswer(m: Member, inbox: seq<Letter>, k: int, answer: ConsensusMsg)
    requires 0 <= k < |inbox|
  {
    && Answered(m, inbox, k)
    && match inbox[k].message
       case Prepare(id) => answer.Promise? && answer.roundId == id && Reports(m, inbox, k, answer.report)
       case Propose(id, _, _) => answer == Accept(id)
       case _ => false
  }

  lemma {:induction false} PromisedSoFar(m: Member, inbox: seq<Letter>, k: int)
    requires 0 <= k <= |inbox|
    ensures Highest(m, inbox, k, HearAll(m, inbox[..k]).maxRoundId)
  {
    if k > 0 {
      PromisedSoFar(m, inbox, k - 1);
      assert inbox[..k][..k - 1] == inbox[..k - 1];
    }
  }

  lemma OneHighest(m: Member, inbox: seq<Letter>, k: int, a: int, b: int)
    requires 0 <= k <= |inbox| && Highest(m, inbox, k, a) && Highest(m, inbox, k, b)
    ensures a == b
  {
  }

  /** The acceptance a context holds, as a promise would report it. */
  function Held(context: Context): Option<Report> {
    if context.valueAccepted then Some(Report(context.acceptedId, context.acceptedValue)) else None
  }

  lemma {:induction false} HeldSoFar(m: Member, inbox: seq<Letter>, k: int)
    requires 0 <= k <= |inbox|
    ensures Reports(m, inbox, k, Held(HearAll(m, inbox[..k]).context))
  {
    if k > 0 {
      HeldSoFar(m, inbox, k - 1);
      assert inbox[..k][..k - 1] == inbox[..k - 1];
      HeldNext(m, inbox, k - 1);
    }
  }

  lemma AdoptedMore(inbox: seq<Letter>, lo: int, k: int, value: Value)
    requires 0 <= lo <= k < |inbox|
    requires Adopted(inbox, lo, k, value) || (inbox[k].message.Promise? && Brought(inbox[k].message.report) == value)
    ensures Adopted(inbox, lo, k + 1, value)
  {
  }

  lemma HeldNext(m: Member, inbox: seq<Letter>, k: int)
    requires 0 <= k < |inbox| && Reports(m, inbox, k, Held(HearAll(m, inbox[..k]).context))
    ensures Reports(m, inbox, k + 1, Held(Handle(HearAll(m, inbox[..k]), inbox[k].message).0.context))
  {
    var before, message := HearAll(m, inbox[..k]), inbox[k].message;
    PromisedSoFar(m, inbox, k);
    if Accepts(m, inbox, k) {
      OneHighest(m, inbox, k, before.maxRoundId, message.roundId);
      assert InForce(m, inbox, k + 1, k);
    } else if !message.Accepted? {
      HeldOn(m, inbox, k, k + 1, Held(before.context), Held(Handle(before, message).0.context));
    }
  }

  /** A letter that neither makes nor ends an acceptance can at most change its value. */
  lemma HeldOn(m: Member, inbox: seq<Letter>, k: int, k': int, held: Option<Report>, held': Option<Report>)
    requires 0 <= k < |inbox| && k' == k + 1 && Reports(m, inbox, k, held)
    requires !Accepts(m, inbox, k) && !inbox[k].message.Accepted? && (held.Some? <==> held'.Some?)
    requires held.Some? ==> held'.value.id == held.value.id
    requires held.Some? ==> (held'.value.value == held.value.value
             || (inbox[k].message.Promise? && Brought(inbox[k].message.report) == held'.value.value))
    ensures Reports(m, inbox, k', held')
  {
    assert StillInForce(m, inbox, k') <==> StillInForce(m, inbox, k);
    assert forall j :: InForce(m, inbox, k', j) <==> InForce(m, inbox, k, j);
    if held'.Some? && StillInForce(m, inbox, k') {
      ReportOn(inbox, 0, k, m.context.acceptedId, m.context.acceptedValue, held.value, held'.value);
    }
    forall j | held'.Some? && InForce(m, inbox, k', j)
      ensures IsReportOf(inbox, j + 1, k', inbox[j].message.roundId, inbox[j].message.value, held'.value)
    {
      ReportOn(inbox, j + 1, k, inbox[j].message.roundId, inbox[j].message.value, held.value, held'.value);
    }
  }

  lemma ReportOn(inbox: seq<Letter>, lo: int, k: int, id: int, value: Value, report: Report, report': Report)
    requires 0 <= lo <= k < |inbox| && IsReportOf(inbox, lo, k, id, value, report) && report'.id == report.id
    requires report'.value == report.value
             || (inbox[k].message.Promise? && Brought(inbox[k].message.report) == report'.value)
    ensures IsReportOf(inbox, lo, k + 1, id, value, report')
  {
    if Adopted(inbox, lo, k, report.value) {
      AdoptedMore(inbox, lo, k, report.value);
    }
  }

  /** What the handlers answer. */
  lemma AnswerTo(m: Member, inbox: seq<Letter>, k: int)
    requires 0 <= k < |inbox|
    ensures var answer := Handle(HearAll(m, inbox[..k]), inbox[k].message).1;
      && (answer.Some? <==> Answered(m, inbox, k))
      && (answer.Some? ==> IsAnswer(m, inbox, k, answer.value))
  {
    PromisedSoFar(m, inbox, k);
    HeldSoFar(m, inbox, k);
    if Accepts(m, inbox, k) {
      OneHighest(m, inbox, k, HearAll(m, inbox[..k]).maxRoundId, inbox[k].message.roundId);
    }
  }

  /** `mail` answers exactly the letters at the positions `at`: those that call for an answer and whose sender is not
      suspected, one envelope each, in the order of arrival. */
  ghost predicate AnswersOf(view: set<int>, rank: int, m: Member, inbox: seq<Letter>, mail: seq<Envelope>, at: seq<nat>,
                            upTo: int)
    requires 0 <= upTo <= |inbox|
  {
    && |at| == |mail|
    && (forall j :: 0 <= j < |at| ==> at[j] < upTo)
    && (forall i, j :: 0 <= i < j < |at| ==> at[i] < at[j])
    && (forall j :: 0 <= j < |at| ==>
          && mail[j].message.ConsensusMessage?
          && mail[j] == Envelope(inbox[at[j]].src, mail[j].message, World)
          && IsAnswer(m, inbox, at[j], mail[j].message.consensus))
    && (forall k :: k in at <==>
          0 <= k < upTo && Answered(m, inbox, k) && (inbox[k].src == rank || inbox[k].src in view))
  }

  lemma {:induction false} RepliesUpTo(view: set<int>, rank: int, m: Member, inbox: seq<Letter>, upTo: int)
      returns (at: seq<nat>)
    requires 0 <= upTo <= |inbox|
    ensures AnswersOf(view, rank, m, inbox, Replies(view, rank, m, inbox[..upTo]), at, upTo)
  {
    at := [];
    if upTo > 0 {
      var k := upTo - 1;
      at := RepliesUpTo(view, rank, m, inbox, k);
      assert inbox[..upTo][..k] == inbox[..k];
      AnswerTo(m, inbox, k);
      if Answered(m, inbox, k) && (inbox[k].src == rank || inbox[k].src in view) {
        at := at + [k];
      }
    }
  }

  /** The consensus thread answers exactly the PREPARE messages above all it has promised, by a promise that reports the
      acceptance in force, and the PROPOSE messages of the highest round it has promised, by an ACCEPT, whether it has
      accepted before or not; each answer goes to the sender, unless that is suspected, in the order of arrival. */
  lemma RepliesExact(view: set<int>, rank: int, m: Member, inbox: seq<Letter>) returns (at: seq<nat>)
    ensures AnswersOf(view, rank, m, inbox, Replies(view, rank, m, inbox), at, |inbox|)
  {
    at := RepliesUpTo(view, rank, m, inbox, |inbox|);
    assert inbox[..|inbox|] == inbox;
  }

  // ---------------------------------------------------------------------------
  // A whole startConsensus

  ghost predicate OnlyAnswers(view: set<int>, rank: int, m: Member, inbox: seq<Letter>, mail: seq<Envelope>) {
    exists at :: AnswersOf(view, rank, m, inbox, mail, at, |inbox|)
  }

  lemma OnlyReplies(view: set<int>, rank: int, m: Member, inbox: seq<Letter>)
    ensures OnlyAnswers(view, rank, m, inbox, Replies(view, rank, m, inbox))
  {
    var at := RepliesExact(view, rank, m, inbox);
  }

  lemma PrepareMailExact(view: set<int>, rank: int, n: int, m: Member, id: int, promises: seq<Letter>)
      returns (prepare: seq<Envelope>, first: seq<Envelope>)
    ensures PrepareMail(view, rank, n, m, id, promises) == prepare + first
    ensures IsBroadcast(prepare, ConsensusMessage(Prepare(id)), Unsuspected(view, rank, 0, n))
    ensures OnlyAnswers(view, rank, m.(context := m.context.(roundId := id)), promises, first)
  {
    prepare := ToOthers(view, rank, n, ConsensusMessage(Prepare(id)));
    first := Replies(view, rank, Started(m, id), promises);
    BroadcastExact(view, rank, ConsensusMessage(Prepare(id)), 0, n);
    OnlyReplies(view, rank, Started(m, id), promises);
  }

  lemma CommitMailExact(view: set<int>, rank: int, n: int, promised: Member, value: Value, proposeId: int,
                        accepts: seq<Letter>)
      returns (propose: seq<Envelope>, second: seq<Envelope>, accepted: seq<Envelope>)
    requires n > 0
    ensures CommitMail(view, rank, n, promised, value, proposeId, accepts) == propose + second + accepted
    ensures var proposed := Propose(proposeId, promised.context.roundId, ProposedValue(promised.context, value));
            IsBroadcast(propose, ConsensusMessage(proposed), Unsuspected(view, rank, 0, n))
    ensures OnlyAnswers(view, rank, promised, accepts, second)
    ensures var context := HearAll(promised, accepts).context;
            if context.acceptCount >= Quorum(n)
            then IsBroadcast(accepted, ConsensusMessage(Accepted(context.roundId, value)),
                             Unsuspected(view, rank, 0, n))
            else accepted == []
  {
    var context := HearAll(promised, accepts).context;
    var proposeMessage := ConsensusMessage(Propose(proposeId, promised.context.roundId,
                                                   ProposedValue(promised.context, value)));
    var acceptedMessage := ConsensusMessage(Accepted(context.roundId, value));
    propose, second := ToOthers(view, rank, n, proposeMessage), Replies(view, rank, promised, accepts);
    accepted := if context.acceptCount >= Quorum(n) then ToOthers(view, rank, n, acceptedMessage) else [];
    BroadcastExact(view, rank, proposeMessage, 0, n);
    BroadcastExact(view, rank, acceptedMessage, 0, n);
    OnlyReplies(view, rank, promised, accepts);
  }

  /** What a startConsensus sends, in this order: its PREPARE to every other node it does not suspect, always; answers;
      its PROPOSE, with the value the promises determine, to each of them if and only if a quorum promised; answers; its
      ACCEPTED, with the client's value, to each of them if and only if it reports consensus; answers. */
  lemma RoundMailExact(view: set<int>, rank: int, n: int, m: Member, value: Value, id: int, proposeId: int,
                       promises: seq<Letter>, accepts: seq<Letter>, rest: seq<Letter>)
      returns (prepare: seq<Envelope>, first: seq<Envelope>, propose: seq<Envelope>, second: seq<Envelope>,
               accepted: seq<Envelope>, third: seq<Envelope>)
    requires n > 0
    ensures RoundMail(view, rank, n, m, value, id, proposeId, promises, accepts, rest)
            == prepare + first + (propose + second + accepted) + third
    ensures var outcome, others := Round(n, m, value, id, promises, accepts, rest), Unsuspected(view, rank, 0, n);
      && IsBroadcast(prepare, ConsensusMessage(Prepare(id)), others)
      && (if outcome.promised.context.promiseCount >= (n - 1) / 2
          then IsBroadcast(propose, ConsensusMessage(Propose(proposeId, outcome.promised.context.roundId,
                                                             ProposedValue(outcome.promised.context, value))), others)
          else propose == [] && second == [])
      && (if outcome.reached
          then IsBroadcast(accepted, ConsensusMessage(Accepted(outcome.accepted.context.roundId, value)), others)
          else accepted == [])
      && OnlyAnswers(view, rank, m.(context := m.context.(roundId := id)), promises, first)
      && (outcome.promised.context.promiseCount >= (n - 1) / 2 ==>
            OnlyAnswers(view, rank, outcome.promised, accepts, second))
      && OnlyAnswers(view, rank, Written(outcome.accepted, value, outcome.reached), rest, third)
  {
    var outcome := Round(n, m, value, id, promises, accepts, rest);
    var promised, last := outcome.promised, Written(outcome.accepted, value, outcome.reached);
    prepare, first := PrepareMailExact(view, rank, n, m, id, promises);
    propose, second, accepted := [], [], [];
    third := Replies(view, rank, last, rest);
    if HasPromises(n, promised) {
      propose, second, accepted := CommitMailExact(view, rank, n, promised, value, proposeId, accepts);
    }
    OnlyReplies(view, rank, last, rest);
  }
}

/** src/manager/consensus-manager.cc: what one node does with each consensus message.

    The functions are the transitions of one node; the class in ConsensusManager.dfy is proved
    against them, and the cluster in Cluster.dfy takes its steps with them. */
module Consensus {
  import opened Messages

  /** ConsensusManager::Context. */
  datatype Context = Context(
    roundId: int,
    maxAcceptedId: int,
    valueAccepted: bool,
    acceptedId: int,
    acceptedValue: Value,
    promiseCount: int,
    acceptCount: int)

  /** Context{}. */
  const FRESH := Context(-1, -1, false, -1, "", 0, 0)

  /** The fields of a ConsensusManager, with the log file it writes. */
  datatype Member = Member(context: Context, maxRoundId: int, log: seq<Value>)

  const NEW_MEMBER := Member(FRESH, -1, [])

  /** Responders, other than the proposer, a phase of a round waits for. */
  function Quorum(clusterSize: int): int
    requires clusterSize > 0
  {
    (clusterSize - 1) / 2
  }

  function OnPrepare(m: Member, id: int): (Member, Option<ConsensusMsg>) {
    if id > m.maxRoundId then
      var report :=
        if m.context.valueAccepted then Some(Report(m.context.acceptedId, m.context.acceptedValue)) else None;
      (m.(maxRoundId := id), Some(Promise(id, report)))
    else
      (m, None)
  }

  function OnPropose(m: Member, id: int, roundId: int, value: Value): (Member, Option<ConsensusMsg>) {
    if roundId == m.maxRoundId then
      (m.(context := m.context.(valueAccepted := true, acceptedId := roundId, acceptedValue := value)),
       Some(Accept(id)))
    else
      (m, None)
  }

  function OnAccepted(m: Member, value: Value): Member {
    m.(log := m.log + [value], context := FRESH)
  }

  /** The id a promise carries when it is read back: -1 when it reports nothing. */
  function ReportedId(report: Option<Report>): int {
    if report.Some? then report.value.id else -1
  }

  function OnPromise(m: Member, roundId: int, report: Option<Report>): Member {
    if roundId == m.context.roundId then
      var context :=
        if ReportedId(report) > m.context.maxAcceptedId
        then m.context.(acceptedValue := if report.Some? then report.value.value else "",
                        maxAcceptedId := ReportedId(report))
        else m.context;
      m.(context := context.(promiseCount := context.promiseCount + 1))
    else
      m
  }

  function OnAccept(m: Member): Member {
    m.(context := m.context.(acceptCount := m.context.acceptCount + 1))
  }

  /** handleMessage: the new fields, and the reply to the sender if there is one. */
  function Handle(m: Member, message: ConsensusMsg): (Member, Option<ConsensusMsg>) {
    match message
    case Prepare(id) => OnPrepare(m, id)
    case Promise(roundId, report) => (OnPromise(m, roundId, report), None)
    case Propose(id, roundId, value) => OnPropose(m, id, roundId, value)
    case Accept(_) => (OnAccept(m), None)
    case Accepted(_, value) => (OnAccepted(m, value), None)
  }

  /** The value broadcastPropose puts in its PROPOSE. */
  function ProposedValue(context: Context, value: Value): Value {
    if context.maxAcceptedId == -1 then value else context.acceptedValue
  }

  // ---------------------------------------------------------------------------
  // The choice of a value from the promises of a round

  /** The largest id reported, -1 when no promise reports one. */
  function MaxReported(reports: seq<Option<Report>>): (id: int)
    ensures id >= -1
  {
    if reports == [] then -1
    else
      var before, last := MaxReported(reports[..|reports| - 1]), ReportedId(reports[|reports| - 1]);
      if last > before then last else before
  }

  function BestValue(reports: seq<Option<Report>>): Value {
    if reports == [] then ""
    else
      var last := reports[|reports| - 1];
      if ReportedId(last) > MaxReported(reports[..|reports| - 1]) then
        if last.Some? then last.value.value else ""
      else BestValue(reports[..|reports| - 1])
  }

  lemma TallyAppend(reports: seq<Option<Report>>, report: Option<Report>)
    ensures MaxReported(reports + [report]) ==
            if ReportedId(report) > MaxReported(reports) then ReportedId(report) else MaxReported(reports)
    ensures BestValue(reports + [report]) ==
            if ReportedId(report) > MaxReported(reports) then (if report.Some? then report.value.value else "")
            else BestValue(reports)
  {
    assert (reports + [report])[..|reports|] == reports;
  }

  /** Reports of the same round carry the same value. */
  ghost predicate Consistent(reports: seq<Option<Report>>) {
    forall a, b :: Some(a) in reports && Some(b) in reports && a.id == b.id ==> a == b
  }

  /** MaxReported and BestValue pick a reported acceptance of the highest round, if any round is reported. */
  lemma {:induction false} BestIsReported(reports: seq<Option<Report>>)
    ensures forall r :: r in reports ==> ReportedId(r) <= MaxReported(reports)
    ensures MaxReported(reports) != -1 ==> Some(Report(MaxReported(reports), BestValue(reports))) in reports
  {
    if reports != [] {
      BestIsReported(reports[..|reports| - 1]);
      var last := reports[|reports| - 1];
      assert reports == reports[..|reports| - 1] + [last];
      if ReportedId(last) > MaxReported(reports[..|reports| - 1]) {
        assert last == Some(Report(MaxReported(reports), BestValue(reports)));
      }
    }
  }

  /** The value a PROPOSE carries once exactly the promises `reports` were counted. */
  function Choice(value: Value, reports: seq<Option<Report>>): Value {
    if MaxReported(reports) == -1 then value else BestValue(reports)
  }

  /** The order in which promises arrive does not matter. */
  lemma ChoiceIgnoresOrder(value: Value, reports: seq<Option<Report>>, permuted: seq<Option<Report>>)
    requires Consistent(reports)
    requires multiset(reports) == multiset(permuted)
    ensures MaxReported(reports) == MaxReported(permuted)
    ensures Choice(value, reports) == Choice(value, permuted)
  {
    SameElements(reports, permuted);
    MaxAtMost(reports, permuted);
    MaxAtMost(permuted, reports);
    BestIsReported(reports);
    BestIsReported(permuted);
  }

  lemma MaxAtMost(reports: seq<Option<Report>>, more: seq<Option<Report>>)
    requires forall r :: r in reports ==> r in more
    ensures MaxReported(reports) <= MaxReported(more)
  {
    BestIsReported(reports);
    BestIsReported(more);
    if MaxReported(reports) != -1 {
      assert Some(Report(MaxReported(reports), BestValue(reports))) in more;
    }
  }

  lemma SameElements<T>(a: seq<T>, b: seq<T>)
    requires multiset(a) == multiset(b)
    ensures forall x :: x in a <==> x in b
  {
    forall x: T
      ensures x in a <==> x in b
    {
      assert x in a <==> x in multiset(a);
      assert x in b <==> x in multiset(b);
    }
  }

  // ---------------------------------------------------------------------------
  // Quorums

  /** Parts that are together larger than the whole share an element. */
  lemma MustMeet(a: set<int>, b: set<int>, whole: set<int>)
    requires a <= whole && b <= whole && |a| + |b| > |whole|
    ensures a * b != {}
  {
    if a * b == {} {
      assert |a + b| == |a| + |b|;
      Contained(a + b, whole);
    }
  }

  lemma Contained(a: set<int>, b: set<int>)
    requires a <= b
    ensures |a| <= |b|
  {
    assert b == a + (b - a);
    assert a * (b - a) == {};
  }

  /** A proposer with a quorum of responders other than itself. */
  ghost predicate IsRoundQuorum(n: int, q: set<int>) {
    n > 0 && (forall x :: x in q ==> 0 <= x < n) && |q| == 1 + Quorum(n)
  }

  /** Any two such sets meet exactly when the cluster size is odd. */
  lemma QuorumsMeetIffOdd(n: int)
    requires n > 0
    ensures (forall a, b :: IsRoundQuorum(n, a) && IsRoundQuorum(n, b) ==> a * b != {}) <==> n % 2 == 1
  {
    if n % 2 == 1 {
      forall a, b | IsRoundQuorum(n, a) && IsRoundQuorum(n, b)
        ensures a * b != {}
      {
        MustMeet(a, b, Nodes(n));
      }
    } else {
      var low, high := Nodes(n / 2), Nodes(n) - Nodes(n / 2);
      assert low <= Nodes(n);
      assert IsRoundQuorum(n, low) && IsRoundQuorum(n, high);
      assert low * high == {};
    }
  }
}

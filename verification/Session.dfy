/** What a whole session of receivePendingMessages sends to clients and to recovering nodes. */
module Session {
  import opened Messages
  import opened Messenger
  import opened Consensus
  import opened ConsensusManager
  import opened ClientManager
  import ConsensusMail

  /** The session up to request k. */
  function Upto(view: set<int>, rank: int, n: int, m: Member, requests: seq<Request>, k: nat): Served
    requires n > 0 && k <= |requests|
  {
    Serve(view, rank, n, m, requests[..k])
  }

  lemma {:induction false} TakenOneByOne(view: set<int>, rank: int, n: int, m: Member, requests: seq<Request>, k: nat)
    requires n > 0 && k < |requests| && k < Serve(view, rank, n, m, requests).taken
    ensures Upto(view, rank, n, m, requests, k).taken == k
    ensures Upto(view, rank, n, m, requests, k + 1).taken == k + 1
    ensures Upto(view, rank, n, m, requests, k + 1)
            == ServeOne(view, rank, n, Upto(view, rank, n, m, requests, k), requests[k])
  {
    var before := requests[..|requests| - 1];
    if k < |before| {
      if k < Serve(view, rank, n, m, before).taken {
        TakenOneByOne(view, rank, n, m, before, k);
        assert before[..k] == requests[..k] && before[..k + 1] == requests[..k + 1];
      }
    } else {
      assert before == requests[..k] && requests == requests[..k + 1];
    }
  }

  lemma {:induction false} AllTaken(view: set<int>, rank: int, n: int, m: Member, requests: seq<Request>)
    requires n > 0
    ensures var k := Serve(view, rank, n, m, requests).taken;
            Upto(view, rank, n, m, requests, k) == Serve(view, rank, n, m, requests)
  {
    if requests == [] {
      assert requests[..0] == requests;
    } else {
      var before := requests[..|requests| - 1];
      AllTaken(view, rank, n, m, before);
      var k := Serve(view, rank, n, m, requests).taken;
      if k <= |before| {
        assert before[..k] == requests[..k];
      } else {
        assert requests[..k] == requests;
      }
    }
  }

  /** STATE with this log to the node of each slot, in turn. */
  ghost predicate StatesOf(mail: seq<Envelope>, rank: int, log: seq<Value>, recoveries: seq<Waiting>) {
    && |mail| == |recoveries|
    && forall i :: 0 <= i < |mail| ==>
         mail[i] == Envelope(IndexToId(rank, recoveries[i].nodeIndex), FailureMessage(State(recoveries[i].id, log)),
                             World)
  }

  /** Nothing but consensus messages on the cluster's communicator. */
  ghost predicate Traffic(mail: seq<Envelope>) {
    forall i :: 0 <= i < |mail| ==> mail[i].message.ConsensusMessage? && mail[i].connection == World
  }

  /** An ACCEPTED with the value is on its way to node x. */
  ghost predicate Announced(mail: seq<Envelope>, x: int, value: Value) {
    exists i :: 0 <= i < |mail| && mail[i].dst == x && mail[i].message.ConsensusMessage?
                && mail[i].message.consensus.Accepted? && mail[i].message.consensus.value == value
  }

  ghost predicate AllTold(view: set<int>, rank: int, n: int, mail: seq<Envelope>, value: Value) {
    forall x :: x in Unsuspected(view, rank, 0, n) ==> Announced(mail, x, value)
  }

  /** A round that reports consensus announces the value to every other node that is not suspected before SUCCESS, the
      last message, answers the request on its connection; otherwise there is no answer. All the rest is consensus
      traffic. */
  ghost predicate RoundAnswered(view: set<int>, rank: int, n: int, sent: seq<Envelope>, request: Request, reached: bool)
    requires request.message.Replicate?
  {
    if reached then
      && sent != [] && sent[|sent| - 1] == Envelope(request.src, ClientMessage(Success), ClientConnection)
      && Traffic(sent[..|sent| - 1]) && AllTold(view, rank, n, sent[..|sent| - 1], request.message.value)
    else Traffic(sent)
  }

  lemma AnnouncedMore(before: seq<Envelope>, mail: seq<Envelope>, after: seq<Envelope>, x: int, value: Value)
    requires Announced(mail, x, value)
    ensures Announced(before + mail + after, x, value)
  {
    var i :| 0 <= i < |mail| && mail[i].dst == x && mail[i].message.ConsensusMessage?
             && mail[i].message.consensus.Accepted? && mail[i].message.consensus.value == value;
    assert (before + mail + after)[|before| + i] == mail[i];
  }

  lemma BroadcastTells(view: set<int>, rank: int, n: int, mail: seq<Envelope>, roundId: int, value: Value)
    requires IsBroadcast(mail, ConsensusMessage(Accepted(roundId, value)), Unsuspected(view, rank, 0, n))
    ensures AllTold(view, rank, n, mail, value)
  {
  }

  lemma TrafficBoth(a: seq<Envelope>, b: seq<Envelope>)
    requires Traffic(a) && Traffic(b)
    ensures Traffic(a + b)
  {
  }

  lemma RoundTraffic(view: set<int>, rank: int, n: int, m: Member, value: Value, id: int, proposeId: int,
                     promises: seq<Letter>, accepts: seq<Letter>, rest: seq<Letter>)
    requires n > 0
    ensures var mail := RoundMail(view, rank, n, m, value, id, proposeId, promises, accepts, rest);
      Traffic(mail) && (Round(n, m, value, id, promises, accepts, rest).reached ==> AllTold(view, rank, n, mail, value))
  {
    var prepare, first, propose, second, accepted, third :=
        ConsensusMail.RoundMailExact(view, rank, n, m, value, id, proposeId, promises, accepts, rest);
    var commit := propose + second + accepted;
    TrafficBoth(propose, second);
    TrafficBoth(propose + second, accepted);
    TrafficBoth(prepare, first);
    TrafficBoth(prepare + first, commit);
    TrafficBoth(prepare + first + commit, third);
    var outcome := Round(n, m, value, id, promises, accepts, rest);
    if outcome.reached {
      BroadcastTells(view, rank, n, accepted, outcome.accepted.context.roundId, value);
      forall x | x in Unsuspected(view, rank, 0, n) ensures Announced(prepare + first + commit + third, x, value) {
        AnnouncedMore(propose + second, accepted, [], x, value);
        assert propose + second + accepted + [] == commit;
        AnnouncedMore(prepare + first, commit, third, x, value);
      }
    }
  }

  lemma ReplicateServed(view: set<int>, rank: int, n: int, before: Served, request: Request)
    requires n > 0 && request.message.Replicate?
    ensures var after, a := ServeOne(view, rank, n, before, request), request.around;
      var outcome := Round(n, before.member, request.message.value, a.id, a.promises, a.accepts, a.rest);
      && before.mail <= after.mail && after.member == outcome.end
      && after.acknowledged == before.acknowledged + (if outcome.reached then [request.message.value] else [])
      && RoundAnswered(view, rank, n, after.mail[|before.mail|..], request, outcome.reached)
  {
    var a, value, after := request.around, request.message.value, ServeOne(view, rank, n, before, request);
    RoundTraffic(view, rank, n, before.member, value, a.id, a.proposeId, a.promises, a.accepts, a.rest);
    var mail := RoundMail(view, rank, n, before.member, value, a.id, a.proposeId, a.promises, a.accepts, a.rest);
    var success := [Envelope(request.src, ClientMessage(Success), ClientConnection)];
    if Round(n, before.member, value, a.id, a.promises, a.accepts, a.rest).reached {
      assert after.mail == before.mail + mail + success;
      assert after.mail[|before.mail|..] == mail + success;
      assert (mail + success)[..|mail|] == mail;
    } else {
      assert after.mail == before.mail + mail;
      assert after.mail[|before.mail|..] == mail;
    }
  }

  /** What serving one request leaves and sends, and whether it is acknowledged. */
  lemma RequestServed(view: set<int>, rank: int, n: int, m: Member, requests: seq<Request>, k: nat)
    requires n > 0 && k < |requests| && k < Serve(view, rank, n, m, requests).taken
    ensures var before, after := Upto(view, rank, n, m, requests, k), Upto(view, rank, n, m, requests, k + 1);
      && before.mail <= after.mail
      && var r, a, sent := requests[k], requests[k].around, after.mail[|before.mail|..];
         match r.message
         case Replicate(value) =>
           var outcome := Round(n, before.member, value, a.id, a.promises, a.accepts, a.rest);
           && after.member == outcome.end
           && after.acknowledged == before.acknowledged + (if outcome.reached then [value] else [])
           && RoundAnswered(view, rank, n, sent, r, outcome.reached)
         case Disconnect =>
           && after.member == before.member && after.acknowledged == before.acknowledged
           && StatesOf(sent, rank, before.member.log, a.recoveries)
         case _ => after.member == before.member && after.acknowledged == before.acknowledged && sent == []
  {
    TakenOneByOne(view, rank, n, m, requests, k);
    if requests[k].message.Replicate? {
      ReplicateServed(view, rank, n, Upto(view, rank, n, m, requests, k), requests[k]);
    }
  }

  // ---------------------------------------------------------------------------
  // A whole session

  /** The messages among `mail` for clients. */
  function ToClients(mail: seq<Envelope>): seq<Envelope> {
    if mail == [] then []
    else ToClients(mail[..|mail| - 1])
         + if mail[|mail| - 1].message.ClientMessage? then [mail[|mail| - 1]] else []
  }

  /** Those of the failure manager. */
  function OfRecoveries(mail: seq<Envelope>): seq<Envelope> {
    if mail == [] then []
    else OfRecoveries(mail[..|mail| - 1])
         + if mail[|mail| - 1].message.FailureMessage? then [mail[|mail| - 1]] else []
  }

  lemma {:induction false} PartsAppend(a: seq<Envelope>, b: seq<Envelope>)
    ensures ToClients(a + b) == ToClients(a) + ToClients(b)
    ensures OfRecoveries(a + b) == OfRecoveries(a) + OfRecoveries(b)
  {
    if b == [] {
      assert a + b == a;
    } else {
      PartsAppend(a, b[..|b| - 1]);
      assert (a + b)[..|a + b| - 1] == a + b[..|b| - 1];
    }
  }

  lemma {:induction false} OnlyConsensus(mail: seq<Envelope>)
    requires forall i :: 0 <= i < |mail| ==> mail[i].message.ConsensusMessage?
    ensures ToClients(mail) == [] && OfRecoveries(mail) == []
  {
    if mail != [] {
      OnlyConsensus(mail[..|mail| - 1]);
    }
  }

  lemma {:induction false} OnlyFailure(mail: seq<Envelope>)
    requires forall i :: 0 <= i < |mail| ==> mail[i].message.FailureMessage?
    ensures ToClients(mail) == [] && OfRecoveries(mail) == mail
  {
    if mail != [] {
      OnlyFailure(mail[..|mail| - 1]);
      assert mail == mail[..|mail| - 1] + [mail[|mail| - 1]];
    }
  }

  /** Request k reaches consensus in the state the requests before it leave. */
  ghost predicate Succeeds(view: set<int>, rank: int, n: int, m: Member, requests: seq<Request>, k: nat)
    requires n > 0 && k < |requests|
  {
    var a := requests[k].around;
    && requests[k].message.Replicate?
    && Round(n, Upto(view, rank, n, m, requests, k).member, requests[k].message.value, a.id, a.promises, a.accepts,
             a.rest).reached
  }

  /** What one request adds for clients and for recovering nodes. */
  lemma RequestParts(view: set<int>, rank: int, n: int, m: Member, requests: seq<Request>, k: nat)
      returns (states: seq<Envelope>)
    requires n > 0 && k < |requests| && k < Serve(view, rank, n, m, requests).taken
    ensures var before, after := Upto(view, rank, n, m, requests, k), Upto(view, rank, n, m, requests, k + 1);
      && ToClients(after.mail) == ToClients(before.mail)
         + (if Succeeds(view, rank, n, m, requests, k)
            then [Envelope(requests[k].src, ClientMessage(Success), ClientConnection)] else [])
      && after.acknowledged == before.acknowledged
         + (if Succeeds(view, rank, n, m, requests, k) then [requests[k].message.value] else [])
      && OfRecoveries(after.mail) == OfRecoveries(before.mail) + states
      && (if requests[k].message.Disconnect?
          then StatesOf(states, rank, before.member.log, requests[k].around.recoveries) else states == [])
  {
    RequestServed(view, rank, n, m, requests, k);
    var before, after := Upto(view, rank, n, m, requests, k), Upto(view, rank, n, m, requests, k + 1);
    var sent := after.mail[|before.mail|..];
    assert after.mail == before.mail + sent;
    PartsAppend(before.mail, sent);
    states := [];
    if requests[k].message.Disconnect? {
      OnlyFailure(sent);
      states := sent;
    } else if Succeeds(view, rank, n, m, requests, k) {
      OnlyConsensus(sent[..|sent| - 1]);
    } else {
      OnlyConsensus(sent);
    }
  }

  /** `answer` is the SUCCESS for request i, which asked to replicate `value`. */
  ghost predicate SuccessFor(requests: seq<Request>, i: nat, value: Value, answer: Envelope) {
    && i < |requests| && requests[i].message == Replicate(value)
    && answer == Envelope(requests[i].src, ClientMessage(Success), ClientConnection)
  }

  /** `at` are the requests among the first k that succeed; their values are `acknowledged`, and `answers` are one
      SUCCESS for each, to its sender and on its connection, in their order. */
  ghost predicate Acknowledges(view: set<int>, rank: int, n: int, m: Member, requests: seq<Request>, k: nat,
                               at: seq<nat>, acknowledged: seq<Value>, answers: seq<Envelope>)
    requires n > 0 && k <= |requests|
  {
    && |at| == |acknowledged| == |answers|
    && (forall i, j :: 0 <= i < j < |at| ==> at[i] < at[j])
    && (forall i :: i in at <==> 0 <= i < k && Succeeds(view, rank, n, m, requests, i))
    && (forall j :: 0 <= j < |at| ==> SuccessFor(requests, at[j], acknowledged[j], answers[j]))
  }

  lemma AcknowledgesMore(view: set<int>, rank: int, n: int, m: Member, requests: seq<Request>, k: nat, at: seq<nat>,
                         acknowledged: seq<Value>, answers: seq<Envelope>, answer: Envelope)
    requires n > 0 && k < |requests| && Acknowledges(view, rank, n, m, requests, k, at, acknowledged, answers)
    requires answer == Envelope(requests[k].src, ClientMessage(Success), ClientConnection)
    ensures if Succeeds(view, rank, n, m, requests, k)
            then Acknowledges(view, rank, n, m, requests, k + 1, at + [k], acknowledged + [requests[k].message.value],
                              answers + [answer])
            else Acknowledges(view, rank, n, m, requests, k + 1, at, acknowledged, answers)
  {
    forall i | 0 <= i < |at| ensures at[i] < k {
      assert at[i] in at;
    }
  }

  lemma {:induction false} AcknowledgesUpto(view: set<int>, rank: int, n: int, m: Member, requests: seq<Request>,
                                            k: nat) returns (at: seq<nat>)
    requires n > 0 && k <= |requests| && k <= Serve(view, rank, n, m, requests).taken
    ensures var served := Upto(view, rank, n, m, requests, k);
            Acknowledges(view, rank, n, m, requests, k, at, served.acknowledged, ToClients(served.mail))
  {
    at := [];
    if k > 0 {
      at := AcknowledgesUpto(view, rank, n, m, requests, k - 1);
      var before := Upto(view, rank, n, m, requests, k - 1);
      var states := RequestParts(view, rank, n, m, requests, k - 1);
      AcknowledgesMore(view, rank, n, m, requests, k - 1, at, before.acknowledged, ToClients(before.mail),
                       Envelope(requests[k - 1].src, ClientMessage(Success), ClientConnection));
      if Succeeds(view, rank, n, m, requests, k - 1) {
        at := at + [k - 1];
      }
    }
  }

  /** Over a whole session the clients get exactly one SUCCESS for each request whose round reached consensus, in order:
      the values acknowledged are theirs. */
  lemma SuccessExact(view: set<int>, rank: int, n: int, m: Member, requests: seq<Request>) returns (at: seq<nat>)
    requires n > 0
    ensures var served := Serve(view, rank, n, m, requests);
      Acknowledges(view, rank, n, m, requests, served.taken, at, served.acknowledged, ToClients(served.mail))
  {
    AllTaken(view, rank, n, m, requests);
    at := AcknowledgesUpto(view, rank, n, m, requests, Serve(view, rank, n, m, requests).taken);
  }

  /** The number-th recovery that runs after request `request`. */
  datatype Turn = Turn(request: nat, number: nat)

  /** Such a recovery runs while the first k requests are served. */
  predicate Runs(requests: seq<Request>, k: nat, turn: Turn) {
    && turn.request < k && turn.request < |requests| && requests[turn.request].message.Disconnect?
    && turn.number < |requests[turn.request].around.recoveries|
  }

  predicate Before(a: Turn, b: Turn) {
    a.request < b.request || (a.request == b.request && a.number < b.number)
  }

  ghost predicate InOrder(turns: seq<Turn>) {
    forall i, j :: 0 <= i < j < |turns| ==> Before(turns[i], turns[j])
  }

  function TurnsAfter(requests: seq<Request>, k: nat): seq<Turn>
    requires k < |requests|
  {
    if requests[k].message.Disconnect?
    then seq(|requests[k].around.recoveries|, i requires 0 <= i => Turn(k, i))
    else []
  }

  function Turns(requests: seq<Request>, k: nat): seq<Turn>
    requires k <= |requests|
  {
    if k == 0 then [] else Turns(requests, k - 1) + TurnsAfter(requests, k - 1)
  }

  /** Exactly the recoveries that run, in order. */
  lemma {:induction false} TurnsExact(requests: seq<Request>, k: nat)
    requires k <= |requests|
    ensures forall turn :: turn in Turns(requests, k) <==> Runs(requests, k, turn)
    ensures InOrder(Turns(requests, k))
  {
    if k > 0 {
      TurnsExact(requests, k - 1);
      var before, own := Turns(requests, k - 1), TurnsAfter(requests, k - 1);
      forall turn | Runs(requests, k, turn) && turn.request == k - 1 ensures turn in own {
        assert own[turn.number] == turn;
      }
      forall i | 0 <= i < |before| ensures before[i].request < k - 1 {
        assert before[i] in before;
      }
    }
  }

  /** STATE of a recovery: to the node of its slot, with the log the request before it leaves. */
  ghost predicate IsTransfer(view: set<int>, rank: int, n: int, m: Member, requests: seq<Request>, turn: Turn,
                             state: Envelope)
    requires n > 0
  {
    && Runs(requests, |requests|, turn)
    && var waiting := requests[turn.request].around.recoveries[turn.number];
       state == Envelope(IndexToId(rank, waiting.nodeIndex),
                         FailureMessage(State(waiting.id, Upto(view, rank, n, m, requests, turn.request).member.log)),
                         World)
  }

  /** `states` are the STATE messages of the recoveries `turns`. */
  ghost predicate Transfers(view: set<int>, rank: int, n: int, m: Member, requests: seq<Request>, turns: seq<Turn>,
                            states: seq<Envelope>)
    requires n > 0
  {
    && |states| == |turns|
    && forall j :: 0 <= j < |turns| ==> IsTransfer(view, rank, n, m, requests, turns[j], states[j])
  }

  lemma TransfersMore(view: set<int>, rank: int, n: int, m: Member, requests: seq<Request>, k: nat,
                      turns: seq<Turn>, before: seq<Envelope>, states: seq<Envelope>)
    requires n > 0 && k < |requests| && Transfers(view, rank, n, m, requests, turns, before)
    requires if requests[k].message.Disconnect?
             then StatesOf(states, rank, Upto(view, rank, n, m, requests, k).member.log, requests[k].around.recoveries)
             else states == []
    ensures Transfers(view, rank, n, m, requests, turns + TurnsAfter(requests, k), before + states)
  {
    var own := TurnsAfter(requests, k);
    forall i | 0 <= i < |own| ensures IsTransfer(view, rank, n, m, requests, own[i], states[i]) {
    }
  }

  lemma {:induction false} TransfersUpto(view: set<int>, rank: int, n: int, m: Member, requests: seq<Request>, k: nat)
    requires n > 0 && k <= |requests| && k <= Serve(view, rank, n, m, requests).taken
    ensures Transfers(view, rank, n, m, requests, Turns(requests, k),
                      OfRecoveries(Upto(view, rank, n, m, requests, k).mail))
  {
    if k > 0 {
      TransfersUpto(view, rank, n, m, requests, k - 1);
      var states := RequestParts(view, rank, n, m, requests, k - 1);
      TransfersMore(view, rank, n, m, requests, k - 1, Turns(requests, k - 1),
                    OfRecoveries(Upto(view, rank, n, m, requests, k - 1).mail), states);
    }
  }

  /** Over a whole session the STATE messages are exactly those of the recoveries that run after a DISCONNECT, in order,
      each with the log of that moment. */
  lemma StatesExact(view: set<int>, rank: int, n: int, m: Member, requests: seq<Request>) returns (turns: seq<Turn>)
    requires n > 0
    ensures var served := Serve(view, rank, n, m, requests);
      && (forall turn :: turn in turns <==> Runs(requests, served.taken, turn)) && InOrder(turns)
      && Transfers(view, rank, n, m, requests, turns, OfRecoveries(served.mail))
  {
    var k := Serve(view, rank, n, m, requests).taken;
    turns := Turns(requests, k);
    AllTaken(view, rank, n, m, requests);
    TransfersUpto(view, rank, n, m, requests, k);
    TurnsExact(requests, k);
  }
}

/** A whole startConsensus of the class is a run of the cluster's client thread: same fields, same messages. */
module StartConsensus {
  import opened Messages
  import opened Consensus
  import opened Cluster
  import opened ConsensusManager
  import Messenger

  /** A step of the client thread or the consensus thread of p. */
  predicate Own(p: int, step: Step) {
    (IsClientStep(step) && step.p == p) || (step.DeliverConsensus? && step.dst == p)
  }

  /** Such steps lead from s to s'. */
  ghost predicate Leads(s: System, p: int, steps: seq<Step>, s': System)
    decreases |steps|
  {
    if steps == [] then s' == s
    else Own(p, steps[0]) && Enabled(s, steps[0]) && Leads(Apply(s, steps[0]), p, steps[1..], s')
  }

  lemma {:induction false} LeadsOn(s: System, p: int, a: seq<Step>, mid: System, b: seq<Step>, s': System)
    requires Leads(s, p, a, mid) && Leads(mid, p, b, s')
    ensures Leads(s, p, a + b, s')
    decreases |a|
  {
    if a == [] {
      assert a + b == b;
    } else {
      var all := a + b;
      assert all[0] == a[0] && all[1..] == a[1..] + b;
      LeadsOn(Apply(s, a[0]), p, a[1..], mid, b, s');
    }
  }

  lemma OneStep(s: System, p: int, step: Step)
    requires Enabled(s, step) && Own(p, step)
    ensures Leads(s, p, [step], Apply(s, step))
  {
    assert [step][1..] == [];
  }

  /** The consensus messages among `mail` for node dst. */
  function SentTo(mail: seq<Messenger.Envelope>, dst: int): seq<ConsensusMsg> {
    if mail == [] then []
    else
      var before, last := SentTo(mail[..|mail| - 1], dst), mail[|mail| - 1];
      if last.dst == dst && last.message.ConsensusMessage? then before + [last.message.consensus] else before
  }

  lemma {:induction false} SentToAppend(a: seq<Messenger.Envelope>, b: seq<Messenger.Envelope>, dst: int)
    ensures SentTo(a + b, dst) == SentTo(a, dst) + SentTo(b, dst)
  {
    if b == [] {
      assert a + b == a;
    } else {
      SentToAppend(a, b[..|b| - 1], dst);
      assert (a + b)[..|a + b| - 1] == a + b[..|b| - 1];
    }
  }

  /** The letters of an inbox that are from node src. */
  function SentBy(inbox: seq<Letter>, src: int): (messages: seq<ConsensusMsg>) {
    if inbox == [] then []
    else
      var before, last := SentBy(inbox[..|inbox| - 1], src), inbox[|inbox| - 1];
      if last.src == src then before + [last.message] else before
  }

  lemma {:induction false} SentByAppend(a: seq<Letter>, b: seq<Letter>, src: int)
    ensures SentBy(a + b, src) == SentBy(a, src) + SentBy(b, src)
  {
    if b == [] {
      assert a + b == a;
    } else {
      SentByAppend(a, b[..|b| - 1], src);
      assert (a + b)[..|a + b| - 1] == a + b[..|b| - 1];
    }
  }

  /** Node p suspects only others, and the letters are from nodes it does not suspect. */
  ghost predicate Regular(s: System, p: int) {
    IsNode(s, p) && p !in s.nodes[p].alive && forall x :: x in s.nodes[p].alive ==> IsNode(s, x)
  }

  ghost predicate FromUnsuspected(s: System, p: int, inbox: seq<Letter>)
    requires IsNode(s, p)
  {
    forall l :: l in inbox ==> l.src in s.nodes[p].alive
  }

  /** The letters are the next ones on the channels to p. */
  ghost predicate Waiting(s: System, p: int, inbox: seq<Letter>) {
    forall x {:trigger WaitsAt(s, p, inbox, x)} :: WaitsAt(s, p, inbox, x)
  }

  ghost predicate WaitsAt(s: System, p: int, inbox: seq<Letter>, x: int) {
    SentBy(inbox, x) <= Queue(s.consensus, x, p)
  }

  /** By these steps node p takes `inbox` off its channels and sends `mail`; no other node changes and no other
      channel. */
  ghost predicate Acts(s: System, steps: seq<Step>, s': System, p: int, inbox: seq<Letter>,
                       mail: seq<Messenger.Envelope>)
  {
    && Leads(s, p, steps, s')
    && Regular(s, p) && Regular(s', p)
    && s'.nodes == s.nodes[p := s'.nodes[p]] && s'.nodes[p].alive == s.nodes[p].alive
    && s'.failure == s.failure
    && Channels(s.consensus, s'.consensus, p, inbox, mail)
  }

  ghost predicate Channels(net: map<Link, seq<ConsensusMsg>>, net': map<Link, seq<ConsensusMsg>>, p: int,
                           inbox: seq<Letter>, mail: seq<Messenger.Envelope>)
  {
    forall a, b {:trigger ChannelAt(net, net', p, a, b, inbox, mail)} :: ChannelAt(net, net', p, a, b, inbox, mail)
  }

  ghost predicate ChannelAt(net: map<Link, seq<ConsensusMsg>>, net': map<Link, seq<ConsensusMsg>>, p: int, a: int,
                            b: int, inbox: seq<Letter>, mail: seq<Messenger.Envelope>)
  {
    Channel(Queue(net, a, b), Queue(net', a, b), p, a, b, inbox, mail)
  }

  ghost predicate Channel(queue: seq<ConsensusMsg>, queue': seq<ConsensusMsg>, p: int, a: int, b: int,
                          inbox: seq<Letter>, mail: seq<Messenger.Envelope>)
  {
    if b == p then queue == SentBy(inbox, a) + queue'
    else if a == p then queue' == queue + SentTo(mail, b)
    else queue' == queue
  }

  lemma WaitingRest(s: System, s1: System, p: int, a: seq<Letter>, b: seq<Letter>, mail: seq<Messenger.Envelope>)
    requires Waiting(s, p, a + b) && Channels(s.consensus, s1.consensus, p, a, mail)
    ensures Waiting(s1, p, b)
  {
    forall x ensures WaitsAt(s1, p, b, x) {
      SentByAppend(a, b, x);
      assert WaitsAt(s, p, a + b, x);
      assert ChannelAt(s.consensus, s1.consensus, p, x, p, a, mail);
      Prefix(SentBy(a, x), SentBy(b, x), Queue(s1.consensus, x, p));
    }
  }

  lemma WaitingFirst(s: System, p: int, a: seq<Letter>, b: seq<Letter>)
    requires Waiting(s, p, a + b)
    ensures Waiting(s, p, a)
  {
    forall x ensures WaitsAt(s, p, a, x) {
      SentByAppend(a, b, x);
      assert WaitsAt(s, p, a + b, x);
    }
  }

  lemma Prefix<T>(a: seq<T>, b: seq<T>, c: seq<T>)
    requires a + b <= a + c
    ensures b <= c
  {
    assert c == (a + c)[|a|..];
    assert b == (a + b)[|a|..] == (a + c)[..|a| + |b|][|a|..];
  }

  /** First one and then the other. */
  lemma ActsOn(s: System, a: seq<Step>, s1: System, b: seq<Step>, s': System, p: int, inbox: seq<Letter>,
               inbox': seq<Letter>, mail: seq<Messenger.Envelope>, mail': seq<Messenger.Envelope>)
    requires Acts(s, a, s1, p, inbox, mail) && Acts(s1, b, s', p, inbox', mail')
    ensures Acts(s, a + b, s', p, inbox + inbox', mail + mail')
  {
    LeadsOn(s, p, a, s1, b, s');
    ChannelsOn(s.consensus, s1.consensus, s'.consensus, p, inbox, inbox', mail, mail');
  }

  lemma ChannelsOn(net: map<Link, seq<ConsensusMsg>>, net1: map<Link, seq<ConsensusMsg>>,
                   net': map<Link, seq<ConsensusMsg>>, p: int, inbox: seq<Letter>, inbox': seq<Letter>,
                   mail: seq<Messenger.Envelope>, mail': seq<Messenger.Envelope>)
    requires Channels(net, net1, p, inbox, mail) && Channels(net1, net', p, inbox', mail')
    ensures Channels(net, net', p, inbox + inbox', mail + mail')
  {
    forall x, y ensures ChannelAt(net, net', p, x, y, inbox + inbox', mail + mail') {
      assert ChannelAt(net, net1, p, x, y, inbox, mail) && ChannelAt(net1, net', p, x, y, inbox', mail');
      ChannelOn(Queue(net, x, y), Queue(net1, x, y), Queue(net', x, y), p, x, y, inbox, inbox', mail, mail');
    }
  }

  lemma ChannelOn(queue: seq<ConsensusMsg>, queue1: seq<ConsensusMsg>, queue': seq<ConsensusMsg>, p: int, a: int,
                  b: int, inbox: seq<Letter>, inbox': seq<Letter>, mail: seq<Messenger.Envelope>,
                  mail': seq<Messenger.Envelope>)
    requires Channel(queue, queue1, p, a, b, inbox, mail) && Channel(queue1, queue', p, a, b, inbox', mail')
    ensures Channel(queue, queue', p, a, b, inbox + inbox', mail + mail')
  {
    SentByAppend(inbox, inbox', a);
    SentToAppend(mail, mail', b);
  }

  /** A step of the client thread that sends nothing. */
  lemma Silent(s: System, step: Step, p: int)
    requires Regular(s, p) && Enabled(s, step) && IsClientStep(step) && !step.SendNext? && step.p == p
    ensures Acts(s, [step], Apply(s, step), p, [], [])
  {
    OneStep(s, p, step);
    ClientEffect(s, step);
  }

  // ---------------------------------------------------------------------------
  // Broadcasts

  /** What one iteration of a broadcast loop sends. */
  function OneSend(view: set<int>, p: int, n: int, dst: int, message: ConsensusMsg): seq<Messenger.Envelope> {
    if dst < n && dst != p && dst in view then [Messenger.Envelope(dst, ConsensusMessage(message), World)] else []
  }

  lemma Sends(s: System, p: int) returns (s': System)
    requires Regular(s, p) && s.nodes[p].client.Broadcasting?
    ensures var pc := s.nodes[p].client;
      && Acts(s, [SendNext(p)], s', p, [], OneSend(s.nodes[p].alive, p, |s.nodes|, pc.next, pc.message))
      && s'.nodes[p] == s.nodes[p].(client := if pc.next < |s.nodes| then pc.(next := pc.next + 1)
                                              else AfterBroadcast(pc.value, pc.message))
  {
    SendChannels(s, p);
    OneStep(s, p, SendNext(p));
    s' := Apply(s, SendNext(p));
    var pc := s.nodes[p].client;
    var mail := OneSend(s.nodes[p].alive, p, |s.nodes|, pc.next, pc.message);
    assert mail != [] ==> mail[..0] == [];
    forall y ensures SentTo(mail, y) == if mail != [] && y == pc.next then [pc.message] else [] {
    }
  }

  function FirstSends(view: set<int>, p: int, n: int, message: ConsensusMsg, j: nat): seq<Messenger.Envelope> {
    Messenger.Envelopes(Messenger.Recipients(view, p, Tag.Consensus, 0, j, false), ConsensusMessage(message))
  }

  lemma FirstSendsNext(view: set<int>, p: int, n: int, message: ConsensusMsg, j: nat)
    requires j < n
    ensures FirstSends(view, p, n, message, j + 1)
            == FirstSends(view, p, n, message, j) + OneSend(view, p, n, j, message)
  {
  }

  lemma SendsOneMore(s: System, before: seq<Step>, s1: System, p: int, mail: seq<Messenger.Envelope>)
      returns (steps: seq<Step>, s': System)
    requires Acts(s, before, s1, p, [], mail) && s1.nodes[p].client.Broadcasting?
    ensures var pc := s1.nodes[p].client;
      && Acts(s, steps, s', p, [], mail + OneSend(s.nodes[p].alive, p, |s.nodes|, pc.next, pc.message))
      && s'.nodes[p] == s1.nodes[p].(client := if pc.next < |s.nodes| then pc.(next := pc.next + 1)
                                               else AfterBroadcast(pc.value, pc.message))
  {
    s' := Sends(s1, p);
    var pc := s1.nodes[p].client;
    ActsOn(s, before, s1, [SendNext(p)], s', p, [], [], mail,
           OneSend(s.nodes[p].alive, p, |s.nodes|, pc.next, pc.message));
    steps := before + [SendNext(p)];
  }

  lemma {:induction false} SendsUpTo(s: System, p: int, value: Value, message: ConsensusMsg, j: nat)
      returns (steps: seq<Step>, s': System)
    requires Regular(s, p) && j <= |s.nodes| && s.nodes[p].client == Broadcasting(value, message, 0)
    ensures Acts(s, steps, s', p, [], FirstSends(s.nodes[p].alive, p, |s.nodes|, message, j))
    ensures s'.nodes[p] == s.nodes[p].(client := Broadcasting(value, message, j))
  {
    var view, n := s.nodes[p].alive, |s.nodes|;
    if j == 0 {
      steps, s' := [], s;
    } else {
      var before, s1 := SendsUpTo(s, p, value, message, j - 1);
      steps, s' := SendsOneMore(s, before, s1, p, FirstSends(view, p, n, message, j - 1));
      FirstSendsNext(view, p, n, message, j - 1);
    }
  }

  /** A whole broadcast loop. */
  lemma SendsAll(s: System, p: int, value: Value, message: ConsensusMsg) returns (steps: seq<Step>, s': System)
    requires Regular(s, p) && s.nodes[p].client == Broadcasting(value, message, 0)
    ensures Acts(s, steps, s', p, [], Messenger.ToOthers(s.nodes[p].alive, p, |s.nodes|, ConsensusMessage(message)))
    ensures s'.nodes[p] == s.nodes[p].(client := AfterBroadcast(value, message))
  {
    var before, s1 := SendsUpTo(s, p, value, message, |s.nodes|);
    var mail := Messenger.ToOthers(s.nodes[p].alive, p, |s.nodes|, ConsensusMessage(message));
    steps, s' := SendsOneMore(s, before, s1, p, mail);
    assert mail + [] == mail;
  }

  // ---------------------------------------------------------------------------
  // The consensus thread

  lemma HeardChannels(s: System, s': System, p: int, letter: Letter, mail: seq<Messenger.Envelope>)
    requires Regular(s, p) && letter.src in s.nodes[p].alive && Delivered(s, s', letter.src, p)
    requires Queue(s.consensus, letter.src, p)[0] == letter.message
    requires mail == Posted(s.nodes[p].alive, p, letter.src, Handle(s.nodes[p].member, letter.message).1)
    ensures Channels(s.consensus, s'.consensus, p, [letter], mail)
  {
    var reply := Handle(s.nodes[p].member, letter.message).1;
    assert [letter][..0] == [] && (mail != [] ==> mail[..0] == []);
    forall a, b ensures ChannelAt(s.consensus, s'.consensus, p, a, b, [letter], mail) {
      assert SentBy([letter], a) == if a == letter.src then [letter.message] else [];
      assert SentTo(mail, b) == if b == letter.src && reply.Some? then [reply.value] else [];
    }
  }

  lemma Hears(s: System, p: int, letter: Letter) returns (s': System)
    requires Regular(s, p) && letter.src in s.nodes[p].alive && Waiting(s, p, [letter])
    ensures Acts(s, [DeliverConsensus(letter.src, p)], s', p, [letter],
                 Posted(s.nodes[p].alive, p, letter.src, Handle(s.nodes[p].member, letter.message).1))
    ensures s'.nodes[p].member == Handle(s.nodes[p].member, letter.message).0
    ensures s'.nodes[p].client == s.nodes[p].client
  {
    assert [letter][..0] == [];
    assert WaitsAt(s, p, [letter], letter.src) && SentBy([letter], letter.src) == [letter.message];
    var step := DeliverConsensus(letter.src, p);
    s' := Apply(s, step);
    DeliveryEffect(s, letter.src, p);
    OneStep(s, p, step);
    HeardChannels(s, s', p, letter,
                  Posted(s.nodes[p].alive, p, letter.src, Handle(s.nodes[p].member, letter.message).1));
    assert s'.nodes == s.nodes[p := s'.nodes[p]];
  }

  /** The consensus thread handles an inbox. */
  lemma {:induction false} HearsAll(s: System, p: int, inbox: seq<Letter>) returns (steps: seq<Step>, s': System)
    requires Regular(s, p) && FromUnsuspected(s, p, inbox) && Waiting(s, p, inbox)
    ensures Acts(s, steps, s', p, inbox, Replies(s.nodes[p].alive, p, s.nodes[p].member, inbox))
    ensures s'.nodes[p].member == HearAll(s.nodes[p].member, inbox) && s'.nodes[p].client == s.nodes[p].client
    decreases |inbox|
  {
    steps, s' := [], s;
    if inbox != [] {
      var before, last := inbox[..|inbox| - 1], inbox[|inbox| - 1];
      assert inbox == before + [last];
      WaitingFirst(s, p, before, [last]);
      var s1;
      steps, s1 := HearsAll(s, p, before);
      WaitingRest(s, s1, p, before, [last], Replies(s.nodes[p].alive, p, s.nodes[p].member, before));
      s' := Hears(s1, p, last);
      var step := DeliverConsensus(last.src, p);
      ActsOn(s, steps, s1, [step], s', p, before, [last], Replies(s.nodes[p].alive, p, s.nodes[p].member, before),
             Posted(s.nodes[p].alive, p, last.src, Handle(s1.nodes[p].member, last.message).1));
      steps := steps + [step];
    }
  }

  // ---------------------------------------------------------------------------
  // The client thread

  /** A silent step and then others. */
  lemma SilentFirst(s: System, step: Step, b: seq<Step>, s': System, p: int, inbox: seq<Letter>,
                    mail: seq<Messenger.Envelope>) returns (steps: seq<Step>)
    requires Regular(s, p) && Enabled(s, step) && IsClientStep(step) && !step.SendNext? && step.p == p
    requires Acts(Apply(s, step), b, s', p, inbox, mail)
    ensures Acts(s, steps, s', p, inbox, mail)
  {
    Silent(s, step, p);
    ActsOn(s, [step], Apply(s, step), b, s', p, [], inbox, [], mail);
    assert [] + inbox == inbox && [] + mail == mail;
    steps := [step] + b;
  }

  lemma SilentKeeps(s: System, step: Step, p: int, inbox: seq<Letter>)
    requires Regular(s, p) && Enabled(s, step) && IsClientStep(step) && !step.SendNext? && step.p == p
    requires Waiting(s, p, inbox)
    ensures Waiting(Apply(s, step), p, inbox)
  {
    Silent(s, step, p);
    assert [] + inbox == inbox;
    WaitingRest(s, Apply(s, step), p, [], inbox, []);
  }

  lemma SilentLast(s: System, a: seq<Step>, s1: System, step: Step, p: int, inbox: seq<Letter>,
                   mail: seq<Messenger.Envelope>) returns (steps: seq<Step>)
    requires Acts(s, a, s1, p, inbox, mail)
    requires Enabled(s1, step) && IsClientStep(step) && !step.SendNext? && step.p == p
    ensures Acts(s, steps, Apply(s1, step), p, inbox, mail)
  {
    Silent(s1, step, p);
    ActsOn(s, a, s1, [step], Apply(s1, step), p, inbox, [], mail, []);
    assert inbox + [] == inbox && mail + [] == mail;
    steps := a + [step];
  }

  /** A broadcast, and what is heard while its answers are waited for. */
  lemma AsksAndHears(s: System, p: int, value: Value, message: ConsensusMsg, inbox: seq<Letter>)
      returns (steps: seq<Step>, s': System)
    requires Regular(s, p) && FromUnsuspected(s, p, inbox) && Waiting(s, p, inbox)
    requires s.nodes[p].client == Broadcasting(value, message, 0)
    ensures var view, m := s.nodes[p].alive, s.nodes[p].member;
            Acts(s, steps, s', p, inbox, Messenger.ToOthers(view, p, |s.nodes|, ConsensusMessage(message))
                                         + Replies(view, p, m, inbox))
    ensures s'.nodes[p].member == HearAll(s.nodes[p].member, inbox)
    ensures s'.nodes[p].client == AfterBroadcast(value, message)
  {
    var view, m := s.nodes[p].alive, s.nodes[p].member;
    var asks, s1 := SendsAll(s, p, value, message);
    var mail := Messenger.ToOthers(view, p, |s.nodes|, ConsensusMessage(message));
    assert [] + inbox == inbox;
    WaitingRest(s, s1, p, [], inbox, mail);
    var hears;
    hears, s' := HearsAll(s1, p, inbox);
    ActsOn(s, asks, s1, hears, s', p, [], inbox, mail, Replies(view, p, m, inbox));
    steps := asks + hears;
  }

  /** broadcastPrepare and receivePromises. */
  lemma Prepares(s: System, p: int, value: Value, id: int, promises: seq<Letter>)
      returns (steps: seq<Step>, s': System)
    requires Regular(s, p) && FromUnsuspected(s, p, promises) && Waiting(s, p, promises)
    requires s.nodes[p].client.Connected? && id >= 0
    ensures Acts(s, steps, s', p, promises,
                 PrepareMail(s.nodes[p].alive, p, |s.nodes|, s.nodes[p].member, id, promises))
    ensures s'.nodes[p].member == HearAll(Started(s.nodes[p].member, id), promises)
    ensures s'.nodes[p].client
            == if HasPromises(|s.nodes|, s'.nodes[p].member) then Proposing(value) else ClientPc.Writing(value, false)
  {
    var start := StartRound(p, value, id);
    var s0 := Apply(s, start);
    SilentKeeps(s, start, p, promises);
    var b, s1 := AsksAndHears(s0, p, value, Prepare(id), promises);
    var mail := PrepareMail(s.nodes[p].alive, p, |s.nodes|, s.nodes[p].member, id, promises);
    var most := SilentFirst(s, start, b, s1, p, promises, mail);
    steps := SilentLast(s, most, s1, CountPromises(p), p, promises, mail);
    s' := Apply(s1, CountPromises(p));
  }

  /** broadcastPropose and receiveAccepts. */
  lemma Proposes(s: System, p: int, value: Value, proposeId: int, accepts: seq<Letter>)
      returns (steps: seq<Step>, s': System)
    requires Regular(s, p) && FromUnsuspected(s, p, accepts) && Waiting(s, p, accepts)
    requires s.nodes[p].client == Proposing(value)
    ensures Acts(s, steps, s', p, accepts,
                 ProposeMail(s.nodes[p].alive, p, |s.nodes|, s.nodes[p].member, value, proposeId, accepts))
    ensures s'.nodes[p].member == HearAll(s.nodes[p].member, accepts)
    ensures s'.nodes[p].client
            == if HasAccepts(|s.nodes|, s'.nodes[p].member) then Committing(value) else ClientPc.Writing(value, false)
  {
    var context := s.nodes[p].member.context;
    var start := StartPropose(p, proposeId);
    var s0 := Apply(s, start);
    SilentKeeps(s, start, p, accepts);
    var message := Propose(proposeId, context.roundId, ProposedValue(context, value));
    var b, s1 := AsksAndHears(s0, p, value, message, accepts);
    var mail := ProposeMail(s.nodes[p].alive, p, |s.nodes|, s.nodes[p].member, value, proposeId, accepts);
    var most := SilentFirst(s, start, b, s1, p, accepts, mail);
    steps := SilentLast(s, most, s1, CountAccepts(p), p, accepts, mail);
    s' := Apply(s1, CountAccepts(p));
  }

  /** broadcastAccepted. */
  lemma Announces(s: System, p: int, value: Value) returns (steps: seq<Step>, s': System)
    requires Regular(s, p) && s.nodes[p].client == Announcing(value)
    ensures var m := s.nodes[p].member;
      && Acts(s, steps, s', p, [], Messenger.ToOthers(s.nodes[p].alive, p, |s.nodes|,
                                                      ConsensusMessage(Accepted(m.context.roundId, value))))
      && s'.nodes[p].member == m && s'.nodes[p].client == ClientPc.Writing(value, true)
  {
    var message := Accepted(s.nodes[p].member.context.roundId, value);
    var s1 := Apply(s, Announce(p));
    Silent(s, Announce(p), p);
    var sends;
    sends, s' := SendsAll(s1, p, value, message);
    steps := SilentFirst(s, Announce(p), sends, s', p, [],
                         Messenger.ToOthers(s.nodes[p].alive, p, |s.nodes|, ConsensusMessage(message)));
  }

  /** The log write and broadcastAccepted. */
  lemma Commits(s: System, p: int, value: Value) returns (steps: seq<Step>, s': System)
    requires Regular(s, p) && s.nodes[p].client == Committing(value)
    ensures var m := s.nodes[p].member;
      && Acts(s, steps, s', p, [], Messenger.ToOthers(s.nodes[p].alive, p, |s.nodes|,
                                                      ConsensusMessage(Accepted(m.context.roundId, value))))
      && s'.nodes[p].member == Written(m, value, true)
      && s'.nodes[p].client == ClientPc.Writing(value, true)
  {
    var s1 := Apply(s, Append(p));
    Silent(s, Append(p), p);
    var b;
    b, s' := Announces(s1, p, value);
    var message := Accepted(s.nodes[p].member.context.roundId, value);
    steps := SilentFirst(s, Append(p), b, s', p, [],
                         Messenger.ToOthers(s.nodes[p].alive, p, |s.nodes|, ConsensusMessage(message)));
  }

  /** Once a majority promised, up to the last sleep. */
  lemma ProposesAndCommits(s: System, p: int, value: Value, proposeId: int, accepts: seq<Letter>)
      returns (steps: seq<Step>, s': System)
    requires Regular(s, p) && FromUnsuspected(s, p, accepts) && Waiting(s, p, accepts)
    requires s.nodes[p].client == Proposing(value)
    ensures var m, n := s.nodes[p].member, |s.nodes|;
      var accepted := HearAll(m, accepts);
      && Acts(s, steps, s', p, accepts, CommitMail(s.nodes[p].alive, p, n, m, value, proposeId, accepts))
      && s'.nodes[p].member == Written(accepted, value, HasAccepts(n, accepted))
      && s'.nodes[p].client == ClientPc.Writing(value, HasAccepts(n, accepted))
  {
    steps, s' := Proposes(s, p, value, proposeId, accepts);
    if s'.nodes[p].client.Committing? {
      var proposes, s1 := steps, s';
      var commits;
      commits, s' := Commits(s1, p, value);
      var mail := ProposeMail(s.nodes[p].alive, p, |s.nodes|, s.nodes[p].member, value, proposeId, accepts);
      ActsOn(s, proposes, s1, commits, s', p, accepts, [], mail,
             Messenger.ToOthers(s.nodes[p].alive, p, |s.nodes|,
                                ConsensusMessage(Accepted(s1.nodes[p].member.context.roundId, value))));
      assert accepts + [] == accepts;
      steps := proposes + commits;
    }
  }

  /** The letters handled up to the last sleep: `accepts` arrive only once a majority promised. */
  function Taken(n: int, m: Member, id: int, promises: seq<Letter>, accepts: seq<Letter>): seq<Letter>
    requires n > 0
  {
    if HasPromises(n, HearAll(Started(m, id), promises)) then promises + accepts else promises
  }

  /** startConsensus up to its last sleep. */
  lemma Attempts(s: System, p: int, value: Value, id: int, proposeId: int, promises: seq<Letter>, accepts: seq<Letter>)
      returns (steps: seq<Step>, s': System)
    requires Regular(s, p) && FromUnsuspected(s, p, promises) && FromUnsuspected(s, p, accepts)
    requires Waiting(s, p, Taken(|s.nodes|, s.nodes[p].member, id, promises, accepts))
    requires s.nodes[p].client.Connected? && id >= 0
    ensures var view, n, m := s.nodes[p].alive, |s.nodes|, s.nodes[p].member;
      var outcome := Round(n, m, value, id, promises, accepts, []);
      && Acts(s, steps, s', p, Taken(n, m, id, promises, accepts),
              AttemptMail(view, p, n, m, value, id, proposeId, promises, accepts))
      && s'.nodes[p].member == Written(outcome.accepted, value, outcome.reached)
      && s'.nodes[p].client == ClientPc.Writing(value, outcome.reached)
  {
    var view, n, m := s.nodes[p].alive, |s.nodes|, s.nodes[p].member;
    var promised := HearAll(Started(m, id), promises);
    if HasPromises(n, promised) {
      WaitingFirst(s, p, promises, accepts);
    }
    steps, s' := Prepares(s, p, value, id, promises);
    if HasPromises(n, promised) {
      var prepares, s1 := steps, s';
      var mail := PrepareMail(view, p, n, m, id, promises);
      WaitingRest(s, s1, p, promises, accepts, mail);
      var b;
      b, s' := ProposesAndCommits(s1, p, value, proposeId, accepts);
      ActsOn(s, prepares, s1, b, s', p, promises, accepts, mail,
             CommitMail(view, p, n, promised, value, proposeId, accepts));
      steps := prepares + b;
    }
  }

  /** A whole startConsensus. */
  lemma Calls(s: System, p: int, value: Value, id: int, proposeId: int, promises: seq<Letter>, accepts: seq<Letter>,
                  rest: seq<Letter>) returns (steps: seq<Step>, s': System)
    requires Regular(s, p) && FromUnsuspected(s, p, promises + accepts + rest)
    requires Waiting(s, p, Taken(|s.nodes|, s.nodes[p].member, id, promises, accepts) + rest)
    requires s.nodes[p].client.Connected? && id >= 0
    ensures Leads(s, p, steps, s')
    ensures var view, n, m := s.nodes[p].alive, |s.nodes|, s.nodes[p].member;
      var outcome := Round(n, m, value, id, promises, accepts, rest);
      && |s'.nodes| == n && s'.nodes[p].member == outcome.end
      && s'.nodes[p].client == (if outcome.reached then Replying(value) else Connected)
      && forall x :: IsNode(s, x) && x != p ==>
           && s'.nodes[x] == s.nodes[x]
           && Queue(s'.consensus, p, x) == Queue(s.consensus, p, x)
              + SentTo(RoundMail(view, p, n, m, value, id, proposeId, promises, accepts, rest), x)
           && Queue(s.consensus, x, p)
              == SentBy(Taken(n, m, id, promises, accepts) + rest, x) + Queue(s'.consensus, x, p)
  {
    var view, n, m := s.nodes[p].alive, |s.nodes|, s.nodes[p].member;
    var taken := Taken(n, m, id, promises, accepts);
    assert forall l :: l in promises || l in accepts || l in rest ==> l in promises + accepts + rest;
    WaitingFirst(s, p, taken, rest);
    var attempt := AttemptMail(view, p, n, m, value, id, proposeId, promises, accepts);
    var a, s1 := Attempts(s, p, value, id, proposeId, promises, accepts);
    WaitingRest(s, s1, p, taken, rest, attempt);
    var b, s2 := HearsAll(s1, p, rest);
    ActsOn(s, a, s1, b, s2, p, taken, rest, attempt, Replies(view, p, s1.nodes[p].member, rest));
    var mail := RoundMail(view, p, n, m, value, id, proposeId, promises, accepts, rest);
    steps := SilentLast(s, a + b, s2, Reset(p), p, taken + rest, mail);
    s' := Apply(s2, Reset(p));
    InAndOut(s.consensus, s'.consensus, p, taken + rest, mail);
  }

  lemma InAndOut(net: map<Link, seq<ConsensusMsg>>, net': map<Link, seq<ConsensusMsg>>, p: int, inbox: seq<Letter>,
                 mail: seq<Messenger.Envelope>)
    requires Channels(net, net', p, inbox, mail)
    ensures forall x :: x != p ==>
      && Queue(net', p, x) == Queue(net, p, x) + SentTo(mail, x)
      && Queue(net, x, p) == SentBy(inbox, x) + Queue(net', x, p)
  {
    forall x | x != p
      ensures Queue(net', p, x) == Queue(net, p, x) + SentTo(mail, x)
      ensures Queue(net, x, p) == SentBy(inbox, x) + Queue(net', x, p)
    {
      assert ChannelAt(net, net', p, p, x, inbox, mail) && ChannelAt(net, net', p, x, p, inbox, mail);
    }
  }

  // ---------------------------------------------------------------------------
  // In a run

  /** A node suspects and recovers only others. */
  ghost predicate AboutOthers(node: Node, p: int, n: int) {
    && p !in node.alive && (forall x :: x in node.alive ==> 0 <= x < n)
    && (forall t :: t in node.recoveries ==> 0 <= node.recoveries[t].target < n && node.recoveries[t].target != p)
  }

  /** Failure messages go to others and speak of nodes of the cluster. */
  ghost predicate FailureOk(net: map<Link, seq<FailureMsg>>, n: int) {
    && (forall a, b {:trigger Queue(net, a, b)} :: Queue(net, a, b) != [] ==> a != b)
    && (forall a, b, m {:trigger m in Queue(net, a, b)} ::
          m in Queue(net, a, b) && m.Recovered? ==> 0 <= m.recoveredNodeId < n)
  }

  ghost predicate AllAboutOthers(s: System) {
    && FailureOk(s.failure, |s.nodes|)
    && forall p {:trigger s.nodes[p]} :: IsNode(s, p) ==> AboutOthers(s.nodes[p], p, |s.nodes|)
  }

  lemma TakenOk(net: map<Link, seq<FailureMsg>>, src: int, dst: int, n: int)
    requires FailureOk(net, n) && Queue(net, src, dst) != []
    ensures FailureOk(Dequeue(net, src, dst), n)
  {
    var net' := Dequeue(net, src, dst);
    forall a, b, m | m in Queue(net', a, b) ensures m in Queue(net, a, b) {
    }
    forall a, b | Queue(net', a, b) != [] ensures a != b {
      assert Queue(net, a, b) != [];
    }
  }

  lemma SentOk(net: map<Link, seq<FailureMsg>>, node: Node, src: int, dst: int, n: int, message: FailureMsg)
    requires FailureOk(net, n) && src != dst && 0 <= src < n
    ensures FailureOk(FailureSent(net, node, src, dst, n, message), n)
  {
    var net' := FailureSent(net, node, src, dst, n, message);
    forall a, b, m: FailureMsg | m in Queue(net', a, b) && m.Recovered? ensures 0 <= m.recoveredNodeId < n {
      assert m in Queue(net, a, b) || m == Recovered(src);
    }
    forall a, b | Queue(net', a, b) != [] ensures a != b {
      assert Queue(net, a, b) != [] ==> a != b;
    }
  }

  lemma FailureDelivered(s: System, src: int, dst: int)
    requires AllAboutOthers(s) && IsNode(s, src) && IsNode(s, dst) && Queue(s.failure, src, dst) != []
    ensures AllAboutOthers(HandleFailure(s, src, dst))
  {
    var node, message, n := s.nodes[dst], Queue(s.failure, src, dst)[0], |s.nodes|;
    assert message in Queue(s.failure, src, dst) && src != dst;
    TakenOk(s.failure, src, dst, n);
    SentOk(Dequeue(s.failure, src, dst), node, src, dst, n, message);
    assert AboutOthers(node, dst, n);
    assert AboutOthers(FailureReceived(node, src, dst, message), dst, n);
  }

  /** A step that changes one node and no failure channel. */
  lemma OneNode(s: System, s': System, p: int)
    requires AllAboutOthers(s) && IsNode(s, p)
    requires |s'.nodes| == |s.nodes| && s'.nodes == s.nodes[p := s'.nodes[p]] && s'.failure == s.failure
    requires AboutOthers(s'.nodes[p], p, |s.nodes|)
    ensures AllAboutOthers(s')
  {
  }

  lemma StateSent(s: System, p: int, thread: nat)
    requires AllAboutOthers(s) && ThreadAt(s, p, thread, Locked)
    ensures AllAboutOthers(SendState(s, p, thread))
  {
    assert AboutOthers(s.nodes[p], p, |s.nodes|);
  }

  lemma AboutOthersStep(s: System, step: Step)
    requires AllAboutOthers(s) && Enabled(s, step)
    ensures AllAboutOthers(Apply(s, step))
  {
    assert AboutOthers(s.nodes[Actor(step)], Actor(step), |s.nodes|);
    if step.DeliverConsensus? {
      DeliveryEffect(s, step.src, step.dst);
      OneNode(s, Apply(s, step), step.dst);
    } else if step.DeliverFailure? {
      FailureDelivered(s, step.src, step.dst);
    } else if step.SendNext? {
      SendChannels(s, step.p);
      OneNode(s, Apply(s, step), step.p);
    } else if step.Transfer? {
      StateSent(s, step.p, step.thread);
    } else {
      OneNode(s, Apply(s, step), step.p);
    }
  }

  lemma {:induction false} AboutOthersHolds(states: seq<System>, steps: seq<Step>, k: nat)
    requires IsRun(states, steps) && k < |states|
    ensures AllAboutOthers(states[k])
  {
    if k == 0 {
      var s := states[0];
      forall p | IsNode(s, p) ensures AboutOthers(s.nodes[p], p, |s.nodes|) {
        assert s.nodes[p] == InitialNode(|s.nodes|, p).(leaderId := s.nodes[p].leaderId);
      }
    } else {
      AboutOthersHolds(states, steps, k - 1);
      RunStep(states, steps, k - 1);
      AboutOthersStep(states[k - 1], steps[k - 1]);
    }
  }

  lemma {:induction false} GoesOn(states: seq<System>, steps: seq<Step>, p: int, more: seq<Step>, s': System)
      returns (states': seq<System>)
    requires IsRun(states, steps) && Leads(states[|steps|], p, more, s')
    ensures forall step :: step in more ==> Own(p, step)
    ensures IsRun(states', steps + more) && states <= states' && states'[|steps + more|] == s'
    decreases |more|
  {
    if more == [] {
      states' := states;
      assert steps + more == steps;
    } else {
      var s1 := Apply(states[|steps|], more[0]);
      forall i | 0 <= i < |steps + [more[0]]| ensures StepAt(states + [s1], steps + [more[0]], i) {
        if i < |steps| {
          assert StepAt(states, steps, i);
        }
      }
      states' := GoesOn(states + [s1], steps + [more[0]], p, more[1..], s');
      assert steps + [more[0]] + more[1..] == steps + more;
    }
  }

  /** Every startConsensus, whatever arrives during its waits, is a run of the client thread and the consensus thread of
      the same node in the cluster: from the same fields it leads to the same fields, reports the same, and puts on each
      channel exactly the messages the class hands to MPI for that node, in the same order. So what is proved of every
      run of the cluster holds of the class. */
  lemma CallIsRun(states: seq<System>, steps: seq<Step>, p: int, value: Value, id: int, proposeId: int,
                  promises: seq<Letter>, accepts: seq<Letter>, rest: seq<Letter>)
      returns (states': seq<System>, more: seq<Step>)
    requires IsRun(states, steps) && IsNode(states[|steps|], p)
    requires var s := states[|steps|];
      && FromUnsuspected(s, p, promises + accepts + rest) && s.nodes[p].client.Connected? && id >= 0
      && Waiting(s, p, Taken(|s.nodes|, s.nodes[p].member, id, promises, accepts) + rest)
    ensures IsRun(states', steps + more) && states <= states' && forall step :: step in more ==> Own(p, step)
    ensures var s, s' := states[|steps|], states'[|steps + more|];
      var view, n, m := s.nodes[p].alive, |s.nodes|, s.nodes[p].member;
      var outcome := Round(n, m, value, id, promises, accepts, rest);
      && |s'.nodes| == n && s'.nodes[p].member == outcome.end
      && s'.nodes[p].client == (if outcome.reached then Replying(value) else Connected)
      && forall x :: IsNode(s, x) && x != p ==>
           && s'.nodes[x] == s.nodes[x]
           && Queue(s'.consensus, p, x) == Queue(s.consensus, p, x)
              + SentTo(RoundMail(view, p, n, m, value, id, proposeId, promises, accepts, rest), x)
           && Queue(s.consensus, x, p)
              == SentBy(Taken(n, m, id, promises, accepts) + rest, x) + Queue(s'.consensus, x, p)
  {
    var s := states[|steps|];
    AboutOthersHolds(states, steps, |steps|);
    assert AboutOthers(s.nodes[p], p, |s.nodes|);
    var s';
    more, s' := Calls(s, p, value, id, proposeId, promises, accepts, rest);
    states' := GoesOn(states, steps, p, more, s');
  }
}

/** The ElectionManager of src/manager/election-manager.cc, proved against the transitions of module Election. */
module ElectionManager {
  import opened Messages
  import opened Messenger
  import opened Election

  /** What one iteration of the loop of waitForVictory reads: the fields, and the whole seconds since m_start. */
  datatype Poll = Poll(fields: Elector, elapsed: int)

  /** The poll at which the loop ends, |polls| when it goes on. */
  function LastPoll(polls: seq<Poll>): (k: nat)
    ensures k <= |polls|
    ensures forall i :: 0 <= i < k ==> KeepWaiting(polls[i].fields, polls[i].elapsed)
    ensures k < |polls| ==> !KeepWaiting(polls[k].fields, polls[k].elapsed)
  {
    if polls == [] || !KeepWaiting(polls[0].fields, polls[0].elapsed) then 0 else 1 + LastPoll(polls[1..])
  }

  /** The last iteration is the first that sees no ALIVE wait and either a leader or the end of
      ELECTION_WAIT_DURATION. */
  lemma LoopEndsIff(polls: seq<Poll>, k: nat)
    requires k < |polls|
    ensures LastPoll(polls) == k <==>
            && (forall i :: 0 <= i < k ==> KeepWaiting(polls[i].fields, polls[i].elapsed))
            && !polls[k].fields.aliveReceived && (polls[k].fields.leaderId != -1 || polls[k].elapsed >= 2)
  {
  }

  function Addressees(items: seq<Item>): (to: seq<int>)
    ensures |to| == |items|
  {
    seq(|items|, i requires 0 <= i < |items| => Target(items[i]))
  }

  /** The messages of module Election are those Messenger.broadcast sends. */
  lemma {:induction false} CallsAreRecipients(view: set<int>, rank: int, lo: int, hi: int)
    requires rank < lo
    ensures Addressees(Calls(view, hi, rank, lo)) == Recipients(view, rank, LeaderElection, lo, hi, false)
    decreases hi - lo
  {
    if lo < hi {
      CallsAreRecipients(view, rank, lo, hi - 1);
      CallsSnoc(view, rank, lo, hi - 1);
    }
  }

  lemma {:induction false} CallsSnoc(view: set<int>, src: int, lo: int, hi: int)
    requires lo <= hi
    ensures Calls(view, hi + 1, src, lo) ==
            Calls(view, hi, src, lo) + if hi in view then [Item.Election(src, hi)] else []
    decreases hi - lo
  {
    if lo < hi {
      CallsSnoc(view, src, lo + 1, hi);
    } else {
      assert Calls(view, hi + 1, src, hi + 1) == [];
    }
  }

  lemma {:induction false} VictoriesAreRecipients(view: set<int>, rank: int, lo: int, hi: int)
    ensures Addressees(Victories(view, hi, rank, lo)) == Recipients(view, rank, LeaderElection, lo, hi, false)
    decreases hi - lo
  {
    if lo < hi {
      VictoriesAreRecipients(view, rank, lo, hi - 1);
      VictoriesSnoc(view, rank, lo, hi - 1);
    }
  }

  lemma {:induction false} VictoriesSnoc(view: set<int>, src: int, lo: int, hi: int)
    requires lo <= hi
    ensures Victories(view, hi + 1, src, lo) ==
            Victories(view, hi, src, lo) + if hi in view && hi != src then [Item.Victory(src, hi)] else []
    decreases hi - lo
  {
    if lo < hi {
      VictoriesSnoc(view, src, lo + 1, hi);
    } else {
      assert Victories(view, hi + 1, src, hi + 1) == [];
    }
  }

  /** Mail for the items of a broadcast. */
  function Mail(items: seq<Item>, message: ElectionMsg): seq<Envelope> {
    Envelopes(Addressees(items), ElectionMessage(message))
  }

  /** Every live node above is called, and victory is announced to every other live node. */
  lemma ElectionMail(view: set<int>, rank: int, n: int)
    requires 0 <= rank < n
    ensures IsBroadcast(Mail(Calls(view, n, rank, rank + 1), ElectionMsg.Election),
                        ElectionMessage(ElectionMsg.Election), Unsuspected(view, rank, rank + 1, n))
    ensures IsBroadcast(Mail(Victories(view, n, rank, 0), ElectionMsg.Victory), ElectionMessage(ElectionMsg.Victory),
                        Unsuspected(view, rank, 0, n))
  {
    CallsAreRecipients(view, rank, rank + 1, n);
    VictoriesAreRecipients(view, rank, 0, n);
    BroadcastExact(view, rank, ElectionMessage(ElectionMsg.Election), rank + 1, n);
    BroadcastExact(view, rank, ElectionMessage(ElectionMsg.Victory), 0, n);
  }

  class ElectionManager {
    const messenger: Messenger
    /** The port of the node's client manager. */
    const clientPort: string
    var leaderNodeId: int
    var aliveReceived: bool
    var start: real

    ghost predicate Valid()
      reads this, messenger
    {
      messenger.Valid()
    }

    /** The fields, with history variables. */
    ghost predicate Is(e: Elector)
      reads this
    {
      leaderNodeId == e.leaderId && aliveReceived == e.aliveReceived
    }

    constructor (messenger: Messenger, clientPort: string)
      requires messenger.Valid()
      ensures Valid() && this.messenger == messenger && this.clientPort == clientPort && Is(IDLE)
    {
      this.messenger, this.clientPort := messenger, clientPort;
      leaderNodeId, aliveReceived, start := -1, false, 0.0;
    }

    /** Whoever was the leader is forgotten. */
    method BroadcastElection(now: real, ghost e: Elector)
      requires Valid() && Is(e)
      modifies this, messenger`sent
      ensures leaderNodeId == -1 && !aliveReceived
      ensures Valid() && Is(Restarted(e)) && start == now
      ensures messenger.sent == old(messenger.sent) +
              Mail(Calls(messenger.View(), messenger.clusterSize, messenger.rank, messenger.rank + 1),
                   ElectionMsg.Election)
    {
      aliveReceived := false;
      leaderNodeId := -1;
      start := now;
      CallsAreRecipients(messenger.View(), messenger.rank, messenger.rank + 1, messenger.clusterSize);
      messenger.Broadcast(ElectionMessage(ElectionMsg.Election), messenger.rank + 1, -1, false);
    }

    method DeclareVictory()
      requires Valid()
      modifies this`leaderNodeId, messenger`sent
      ensures Valid() && leaderNodeId == messenger.rank
      ensures messenger.sent == old(messenger.sent) +
              Mail(Victories(messenger.View(), messenger.clusterSize, messenger.rank, 0), ElectionMsg.Victory)
    {
      VictoriesAreRecipients(messenger.View(), messenger.rank, 0, messenger.clusterSize);
      messenger.Broadcast(ElectionMessage(ElectionMsg.Victory), 0, messenger.clusterSize, false);
      leaderNodeId := messenger.rank;
    }

    /** What the other threads leave in the fields between two iterations is `polls`; `over` is false while the loop
        goes on. A victor lets clients connect to it. */
    method WaitForVictory(polls: seq<Poll>) returns (over: bool)
      requires Valid()
      modifies this`leaderNodeId, this`aliveReceived, messenger`sent, messenger`publishedPort
      ensures Valid() && over == (LastPoll(polls) < |polls|)
      ensures over ==>
        var last := polls[LastPoll(polls)].fields;
        && !aliveReceived
        && leaderNodeId == (if last.leaderId == -1 then messenger.rank else last.leaderId)
        && messenger.sent == old(messenger.sent) +
             (if last.leaderId == -1 then Mail(Victories(messenger.View(), messenger.clusterSize, messenger.rank, 0),
                                               ElectionMsg.Victory)
              else [])
        && messenger.publishedPort == (if last.leaderId == -1 then Some(clientPort) else old(messenger.publishedPort))
      ensures !over ==> messenger.sent == old(messenger.sent) && messenger.publishedPort == old(messenger.publishedPort)
    {
      var keepWaiting, i := true, 0;
      while keepWaiting && i < |polls|
        invariant 0 <= i <= |polls| && messenger.sent == old(messenger.sent)
                  && messenger.publishedPort == old(messenger.publishedPort)
        invariant forall k :: 0 <= k < i - 1 ==> KeepWaiting(polls[k].fields, polls[k].elapsed)
        invariant i == 0 ==> keepWaiting
        invariant i > 0 ==>
          Is(polls[i - 1].fields) && keepWaiting == KeepWaiting(polls[i - 1].fields, polls[i - 1].elapsed)
      {
        leaderNodeId, aliveReceived := polls[i].fields.leaderId, polls[i].fields.aliveReceived;
        keepWaiting := aliveReceived || (leaderNodeId == -1 && polls[i].elapsed < 2);
        i := i + 1;
      }
      over := !keepWaiting;
      if over && leaderNodeId == -1 {
        DeclareVictory();
        messenger.PublishPort(clientPort);
      }
    }

    /** setAliveReceived, which an aliveWait thread calls before it sleeps and at its end. */
    method SetAliveReceived(value: bool, ghost e: Elector)
      requires Is(e)
      modifies this`aliveReceived
      ensures Is(e.(aliveReceived := value))
    {
      aliveReceived := value;
    }

    /** aliveWait once its sleep is over, up to the setAliveReceived(false) that other threads may get in before. */
    method WakeAliveWait(now: real, ghost e: Elector)
      requires Valid() && Is(e)
      modifies this, messenger`sent
      ensures Valid() && Is(if e.leaderId == -1 then Restarted(e) else e)
      ensures messenger.sent == old(messenger.sent) +
              if e.leaderId == -1
              then Mail(Calls(messenger.View(), messenger.clusterSize, messenger.rank, messenger.rank + 1),
                        ElectionMsg.Election) else []
    {
      if leaderNodeId == -1 {
        BroadcastElection(now, e);
      }
    }

    /** `spawned`: an aliveWait thread was started. */
    method HandleMessage(src: int, message: ElectionMsg, now: real, ghost e: Elector) returns (spawned: bool)
      requires Valid() && Is(e) && 0 <= src < messenger.clusterSize
      modifies this, messenger`sent
      ensures Valid() && spawned == (message.Alive? && src > messenger.rank)
      ensures Is(match message
                 case Election => Restarted(e)
                 case Alive => e
                 case Victory => e.(leaderId := src))
      ensures messenger.sent == old(messenger.sent) +
              if message.Election? then
                (if src == messenger.rank || src in messenger.View()
                 then [Envelope(src, ElectionMessage(ElectionMsg.Alive), World)] else [])
                + Mail(Calls(messenger.View(), messenger.clusterSize, messenger.rank, messenger.rank + 1),
                       ElectionMsg.Election)
              else []
    {
      spawned := false;
      match message {
        case Election =>
          messenger.Send(src, ElectionMessage(ElectionMsg.Alive), World);
          BroadcastElection(now, e);
        case Alive =>
          spawned := src > messenger.rank;
        case Victory =>
          leaderNodeId := src;
      }
    }
  }
}

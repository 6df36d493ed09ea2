/** The FailureManager of src/manager/failure-manager.cc: liveness marks, and the state transfer a leader gives a node
    that came back. */
module FailureManager {
  import opened Messages
  import opened Messenger
  import LogFile
  import ElectionManager
  import opened Cluster

  const TIMEOUT_DURATION := 1

  /** duration_cast to whole seconds. */
  function Elapsed(now: real, lastSeen: real): int
    requires lastSeen <= now
  {
    (now - lastSeen).Floor
  }

  /** checkTimeStamps starts a handleNodeFailure thread. */
  predicate Fails(isAlive: bool, lastSeen: real, now: real)
    requires lastSeen <= now
  {
    isAlive && Elapsed(now, lastSeen) > TIMEOUT_DURATION
  }

  /** checkTimeStamps starts a handleNodeRecovery thread. */
  predicate Recovers(isAlive: bool, lastSeen: real, now: real, curRecoveryId: int, leader: int, rank: int)
    requires lastSeen <= now
  {
    !isAlive && Elapsed(now, lastSeen) < TIMEOUT_DURATION && curRecoveryId == -1 && leader == rank
  }

  /** Truncation makes the timeout two seconds, and a node counts as back when it was heard within the last one. */
  lemma TimeoutsInSeconds(isAlive: bool, lastSeen: real, now: real, curRecoveryId: int, leader: int, rank: int)
    requires lastSeen <= now
    ensures Fails(isAlive, lastSeen, now) <==> isAlive && now - lastSeen >= 2.0
    ensures Recovers(isAlive, lastSeen, now, curRecoveryId, leader, rank) <==>
            !isAlive && now - lastSeen < 1.0 && curRecoveryId == -1 && leader == rank
    ensures !(Fails(isAlive, lastSeen, now) && Recovers(isAlive, lastSeen, now, curRecoveryId, leader, rank))
  {
  }

  class FailureManager {
    const messenger: Messenger
    const logFile: LogFile.LogFileManager
    const electionManager: ElectionManager.ElectionManager
    var timeStamps: seq<real>
    var isAlive: seq<bool>
    var curRecoveryId: int
    /** Who holds clientConnMutex. */
    var clientConnMutex: Owner

    /** The liveness views of the failure manager and of the messenger agree. */
    ghost predicate Valid()
      reads this, messenger, electionManager
    {
      && messenger.Valid() && electionManager.messenger == messenger
      && |timeStamps| == messenger.clusterSize - 1
      && isAlive == messenger.processIsAlive
    }

    /** init: everybody is alive; the client thread starts as holder of clientConnMutex. */
    constructor (messenger: Messenger, logFile: LogFile.LogFileManager,
                 electionManager: ElectionManager.ElectionManager, now: real)
      requires messenger.Valid() && electionManager.messenger == messenger && messenger.history == []
      ensures Valid() && fresh(this)
      ensures this.messenger == messenger && this.logFile == logFile && this.electionManager == electionManager
      ensures curRecoveryId == -1 && clientConnMutex == ClientThread
      ensures forall t :: t in timeStamps ==> t == now
      ensures forall x :: 0 <= x < messenger.clusterSize && x != messenger.rank ==> x in messenger.View()
    {
      this.messenger, this.logFile, this.electionManager := messenger, logFile, electionManager;
      timeStamps := seq(messenger.clusterSize - 1, _ => now);
      isAlive := seq(messenger.clusterSize - 1, _ => true);
      curRecoveryId, clientConnMutex := -1, ClientThread;
      new;
      IndexBijection(messenger.clusterSize, messenger.rank);
    }

    /** `elect`: the failed node was the leader, so an election is started. */
    method HandleNodeFailure(nodeIndex: int) returns (elect: bool)
      requires Valid() && 0 <= nodeIndex < messenger.clusterSize - 1
      modifies this`isAlive, messenger`processIsAlive, messenger`history
      ensures Valid()
      ensures messenger.View() == old(messenger.View()) - {IndexToId(messenger.rank, nodeIndex)}
      ensures elect == (electionManager.leaderNodeId == IndexToId(messenger.rank, nodeIndex))
    {
      isAlive := isAlive[nodeIndex := false];
      messenger.SetNodeStatus(nodeIndex, false);
      elect := electionManager.leaderNodeId == IndexToId(messenger.rank, nodeIndex);
    }

    /** One pass over the time stamps, the clock read anew for each: the slots for which a handleNodeFailure and a
        handleNodeRecovery thread are started. */
    method CheckTimeStamps(clock: seq<real>) returns (failed: seq<int>, recovering: seq<int>)
      requires Valid() && |clock| == |timeStamps| && forall i :: 0 <= i < |clock| ==> timeStamps[i] <= clock[i]
      ensures Increasing(failed) && Increasing(recovering)
      ensures forall i :: i in failed <==> 0 <= i < |clock| && Fails(isAlive[i], timeStamps[i], clock[i])
      ensures forall i :: i in recovering <==>
                0 <= i < |clock| && Recovers(isAlive[i], timeStamps[i], clock[i], curRecoveryId,
                                             electionManager.leaderNodeId, messenger.rank)
    {
      failed, recovering := [], [];
      var i := 0;
      while i < messenger.clusterSize - 1
        invariant 0 <= i <= |clock|
        invariant Increasing(failed) && Increasing(recovering)
        invariant forall j :: j in failed <==> 0 <= j < i && Fails(isAlive[j], timeStamps[j], clock[j])
        invariant forall j :: j in recovering <==>
                    0 <= j < i && Recovers(isAlive[j], timeStamps[j], clock[j], curRecoveryId,
                                           electionManager.leaderNodeId, messenger.rank)
      {
        var elapsed := Elapsed(clock[i], timeStamps[i]);
        if isAlive[i] && elapsed > TIMEOUT_DURATION {
          IncreasingAppend(failed, i);
          failed := failed + [i];
        } else if !isAlive[i] && elapsed < TIMEOUT_DURATION {
          if curRecoveryId == -1 && electionManager.leaderNodeId == messenger.rank {
            IncreasingAppend(recovering, i);
            recovering := recovering + [i];
          }
        }
        i := i + 1;
      }
    }

    method BroadcastPing()
      requires Valid()
      modifies messenger`sent
      ensures messenger.sent == old(messenger.sent)
              + ToOthers(messenger.View(), messenger.rank, messenger.clusterSize, FailureMessage(Ping))
    {
      messenger.Broadcast(FailureMessage(Ping), 0, messenger.clusterSize, false);
    }

    method HandlePing(src: int, now: real)
      requires Valid() && 0 <= src < messenger.clusterSize && src != messenger.rank
      modifies this`timeStamps
      ensures Valid() && timeStamps == old(timeStamps)[IdToIndex(messenger.rank, src) := now]
    {
      timeStamps := timeStamps[IdToIndex(messenger.rank, src) := now];
    }

    method EnableComm(recovered: int)
      requires Valid() && 0 <= recovered < messenger.clusterSize && recovered != messenger.rank
      modifies this`isAlive, messenger`processIsAlive, messenger`history
      ensures Valid() && messenger.View() == old(messenger.View()) + {recovered}
    {
      var nodeIndex := IdToIndex(messenger.rank, recovered);
      messenger.SetNodeStatus(nodeIndex, true);
      isAlive := isAlive[nodeIndex := true];
    }

    /** RECOVERED: the recovered node itself forgets how long the others were silent, the others count it as alive. */
    method HandleRecovered(recovered: int, now: real)
      requires Valid() && 0 <= recovered < messenger.clusterSize
      modifies this`isAlive, this`timeStamps, messenger`processIsAlive, messenger`history
      ensures Valid()
      ensures recovered == messenger.rank ==>
              messenger.View() == old(messenger.View()) && timeStamps == seq(|old(timeStamps)|, _ => now)
      ensures recovered != messenger.rank ==>
              messenger.View() == old(messenger.View()) + {recovered} && timeStamps == old(timeStamps)
    {
      if messenger.rank == recovered {
        var i := 0;
        while i < messenger.clusterSize - 1
          invariant 0 <= i <= |timeStamps| == messenger.clusterSize - 1
          invariant forall j :: 0 <= j < i ==> timeStamps[j] == now
          invariant isAlive == messenger.processIsAlive == old(isAlive) && messenger.history == old(messenger.history)
        {
          timeStamps := timeStamps[i := now];
          i := i + 1;
        }
      } else {
        EnableComm(recovered);
      }
    }

    /** STATE: the log is overwritten and the sender told. */
    method HandleState(src: int, id: int, log: seq<Value>)
      requires Valid() && 0 <= src < messenger.clusterSize
      modifies logFile, messenger`sent
      ensures Valid() && logFile.entries == log
      ensures messenger.sent == old(messenger.sent) + [Envelope(src, FailureMessage(StateUpdated(id)), World)]
    {
      logFile.Replace(log);
      messenger.Send(src, FailureMessage(StateUpdated(id)), World);
    }

    /** STATE_UPDATED: honoured when it answers the current recovery of a leader. VICTORY goes back in any case, and is
        filtered when the sender is still suspected. */
    method HandleStateUpdate(src: int, recoveryId: int)
      requires Valid() && 0 <= src < messenger.clusterSize && src != messenger.rank
      modifies this`isAlive, messenger`processIsAlive, messenger`history, messenger`sent
      ensures Valid()
      ensures var honoured := curRecoveryId == recoveryId && electionManager.leaderNodeId == messenger.rank;
        && messenger.View() == (if honoured then old(messenger.View()) + {src} else old(messenger.View()))
        && messenger.sent == old(messenger.sent)
           + (if honoured then ToOthers(old(messenger.View()), messenger.rank, messenger.clusterSize,
                                        FailureMessage(Recovered(src))) else [])
           + (if src in messenger.View() then [Envelope(src, ElectionMessage(Victory), World)] else [])
    {
      var correctRecoveryId := curRecoveryId == recoveryId;
      var amLeader := electionManager.leaderNodeId == messenger.rank;
      if correctRecoveryId && amLeader {
        messenger.Broadcast(FailureMessage(Recovered(src)), 0, messenger.clusterSize, false);
        EnableComm(src);
      }
      messenger.Send(src, ElectionMessage(Victory), World);
    }

    // -------------------------------------------------------------------------
    // clientConnMutex

    method AllowRecovery()
      requires clientConnMutex == ClientThread
      modifies this`clientConnMutex
      ensures clientConnMutex == Free
    {
      clientConnMutex := Free;
    }

    method DisallowRecovery()
      requires clientConnMutex == Free
      modifies this`clientConnMutex
      ensures clientConnMutex == ClientThread
    {
      clientConnMutex := ClientThread;
    }

    /** handleNodeRecovery up to its lock. */
    method PublishRecovery(id: int)
      modifies this`curRecoveryId
      ensures curRecoveryId == id
    {
      curRecoveryId := id;
    }

    /** handleNodeRecovery between its lock and its sleep. */
    method TransferState(thread: nat, nodeIndex: int, id: int)
      requires Valid() && 0 <= nodeIndex < messenger.clusterSize - 1 && clientConnMutex == Free
      modifies this`clientConnMutex, messenger`sent
      ensures Valid() && clientConnMutex == RecoveryThread(thread)
      ensures messenger.sent == old(messenger.sent) +
              [Envelope(IndexToId(messenger.rank, nodeIndex), FailureMessage(State(id, logFile.entries)), World)]
    {
      clientConnMutex := RecoveryThread(thread);
      var logContents := logFile.Read();
      messenger.Send(IndexToId(messenger.rank, nodeIndex), FailureMessage(State(id, logContents)), World);
    }

    /** The end of handleNodeRecovery: the id goes before the lock. */
    method CloseRecovery(thread: nat)
      requires clientConnMutex == RecoveryThread(thread)
      modifies this`curRecoveryId, this`clientConnMutex
      ensures curRecoveryId == -1 && clientConnMutex == Free
    {
      curRecoveryId := -1;
      clientConnMutex := Free;
    }
  }

  lemma IncreasingAppend(to: seq<int>, x: int)
    requires Increasing(to) && forall y :: y in to ==> y < x
    ensures Increasing(to + [x])
  {
    forall i | 0 <= i < |to| ensures to[i] < x {
      assert to[i] in to;
    }
  }

  /** Failure messages reach everybody, suspected or not. */
  lemma FailureReachesAll(view: set<int>, rank: int, n: int, message: FailureMsg)
    ensures forall x :: 0 <= x < n && x != rank ==>
            Envelope(x, FailureMessage(message), World) in ToOthers(view, rank, n, FailureMessage(message))
    ensures forall view' ::
      ToOthers(view', rank, n, FailureMessage(message)) == ToOthers(view, rank, n, FailureMessage(message))
  {
    RecipientsExact(view, rank, FailureDetection, 0, n, false);
    var to := Recipients(view, rank, FailureDetection, 0, n, false);
    forall x | 0 <= x < n && x != rank
      ensures Envelope(x, FailureMessage(message), World) in ToOthers(view, rank, n, FailureMessage(message))
    {
      assert x in to;
      var k :| 0 <= k < |to| && to[k] == x;
      assert ToOthers(view, rank, n, FailureMessage(message))[k] == Envelope(x, FailureMessage(message), World);
    }
    forall view' ensures Recipients(view', rank, FailureDetection, 0, n, false) == to {
      SameRecipients(view', view, rank, 0, n);
    }
  }

  lemma {:induction false} SameRecipients(a: set<int>, b: set<int>, rank: int, lo: int, hi: int)
    ensures Recipients(a, rank, FailureDetection, lo, hi, false) == Recipients(b, rank, FailureDetection, lo, hi, false)
    decreases hi - lo
  {
    if lo < hi {
      SameRecipients(a, b, rank, lo, hi - 1);
    }
  }
}

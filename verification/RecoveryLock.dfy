/** Who owns clientConnMutex during a recovery: for every node of every run, and any number of recovery threads. */
module RecoveryLock {
  import opened Messages
  import opened Consensus
  import opened Cluster

  /** A recovery `id` of x is between sending STATE and closing its window. */
  ghost predicate Window(node: Node, id: int, x: int) {
    exists t :: t in node.recoveries && node.recoveries[t] == Recovery(id, x, Sent)
  }

  /** A recovery `id` of x has sent its STATE. */
  ghost predicate Started(node: Node, id: int, x: int) {
    exists t :: t in node.recoveries && node.recoveries[t].id == id && node.recoveries[t].target == x &&
                (node.recoveries[t].phase.Sent? || node.recoveries[t].phase.Closed?)
  }

  // ---------------------------------------------------------------------------
  // The invariant

  /** clientConnMutex and the recoveries of a node. */
  ghost predicate Locks(p: int, n: int, node: Node) {
    && (HoldsLock(node.client) <==> node.lock == ClientThread)
    && (forall t {:trigger node.recoveries[t]} :: t in node.recoveries ==>
          && (node.recoveries[t].phase.Locked? || node.recoveries[t].phase.Sent? <==> node.lock == RecoveryThread(t))
          && node.recoveries[t].id >= 0
          && 0 <= node.recoveries[t].target < n && node.recoveries[t].target != p)
    && (node.lock.RecoveryThread? ==> node.lock.thread in node.recoveries)
  }

  /** A current recovery that has sent its STATE is inside its window. */
  ghost predicate CurrentInWindow(node: Node) {
    forall x {:trigger Started(node, node.curRecoveryId, x)} ::
      Started(node, node.curRecoveryId, x) ==> Window(node, node.curRecoveryId, x)
  }

  /** ... and so it holds clientConnMutex, and no startConsensus of the node runs. */
  ghost predicate OwnsTheLock(node: Node) {
    forall x {:trigger Started(node, node.curRecoveryId, x)} :: Started(node, node.curRecoveryId, x) ==>
      Window(node, node.curRecoveryId, x) && node.lock.RecoveryThread? && !InRound(node.client)
  }

  /** The id that recovery t publishes is not that of a recovery already closed, whose STATE_UPDATED may still come,
      unless the same node is inside the window of another recovery with that id. */
  ghost predicate NotReused(node: Node, t: nat)
    requires t in node.recoveries
  {
    var id := node.recoveries[t].id;
    forall u {:trigger node.recoveries[u]} ::
      u in node.recoveries && node.recoveries[u].id == id && node.recoveries[u].phase.Closed? ==>
        Window(node, id, node.recoveries[u].target)
  }

  /** A step of p that publishes a recovery id publishes none that is reused. */
  ghost predicate PublishesNew(s: System, step: Step, p: int)
    requires Enabled(s, step)
  {
    step.Publish? && step.p == p ==> NotReused(s.nodes[p], step.thread)
  }

  /** At most one window is open, and the client thread is then outside its connection. */
  lemma OneWindow(p: int, n: int, node: Node, id: int, x: int, id': int, x': int)
    requires Locks(p, n, node) && Window(node, id, x) && Window(node, id', x')
    ensures id == id' && x == x'
    ensures !HoldsLock(node.client) && node.lock.RecoveryThread?
    ensures 0 <= x < n && x != p
  {
    var t :| t in node.recoveries && node.recoveries[t] == Recovery(id, x, Sent);
    var u :| u in node.recoveries && node.recoveries[u] == Recovery(id', x', Sent);
    assert node.lock == RecoveryThread(t) && node.lock == RecoveryThread(u);
  }

  /** A recovery id is current, and a STATE with that id was sent, only inside the window of that recovery:
      its thread holds clientConnMutex, so the client thread is not connected and no round runs. */
  lemma CurrentAndStarted(p: int, n: int, node: Node, x: int)
    requires Locks(p, n, node) && CurrentInWindow(node) && Started(node, node.curRecoveryId, x)
    ensures Window(node, node.curRecoveryId, x)
    ensures node.lock.RecoveryThread? && (node.client.Accepting? || node.client.Locking?)
  {
    OneWindow(p, n, node, node.curRecoveryId, x, node.curRecoveryId, x);
  }

  lemma OwnsIsCurrentInWindow(p: int, n: int, node: Node)
    requires Locks(p, n, node)
    ensures OwnsTheLock(node) <==> CurrentInWindow(node)
  {
    if CurrentInWindow(node) {
      forall x | Started(node, node.curRecoveryId, x)
        ensures Window(node, node.curRecoveryId, x) && node.lock.RecoveryThread? && !InRound(node.client)
      {
        CurrentAndStarted(p, n, node, x);
      }
    }
  }

  // ---------------------------------------------------------------------------
  // Steps that are not of a recovery thread

  /** The steps of the client thread that neither send nor write the log, and those of the election manager. */
  predicate LocalStep(step: Step) {
    step.Disconnect? || step.Connect? || step.TakeLock? || step.StartRound? || step.CountPromises? || step.StartPropose?
    || step.CountAccepts? || step.Announce? || step.Reset? || step.Reply? || step.Elect?
  }

  predicate RecoveryStep(step: Step) {
    step.Spawn? || step.Publish? || step.LockWindow? || step.Transfer? || step.CloseWindow?
  }

  /** Nothing about locks and recoveries changes, except that the client thread takes or frees the lock. */
  ghost predicate SameThreads(node: Node, node': Node) {
    && node'.recoveries == node.recoveries && node'.curRecoveryId == node.curRecoveryId
    && (HoldsLock(node'.client) <==> node'.lock == ClientThread)
    && (node.lock.RecoveryThread? || node'.lock.RecoveryThread? ==> node'.lock == node.lock)
  }

  /** What such a step leaves alone. */
  lemma LocalEffect(s: System, step: Step)
    requires Enabled(s, step) && LocalStep(step)
    requires HoldsLock(s.nodes[step.p].client) <==> s.nodes[step.p].lock == ClientThread
    ensures var s', node, node' := Apply(s, step), s.nodes[step.p], Apply(s, step).nodes[step.p];
      && s'.consensus == s.consensus && s'.failure == s.failure && |s'.nodes| == |s.nodes|
      && (forall q {:trigger s'.nodes[q]} :: IsNode(s, q) && q != step.p ==> s'.nodes[q] == s.nodes[q])
      && node'.member.log == node.member.log && node'.alive == node.alive && SameThreads(node, node')
      && (!step.StartRound? && !InRound(node.client) && !node.client.Replying? ==>
            !InRound(node'.client) && !node'.client.Replying?)
  {
  }

  /** What a consensus message leaves alone, and what it appends to the log. */
  lemma OutcomeLog(node: Node, src: int, message: ConsensusMsg)
    ensures var (node', reply) := Outcome(node, src, message);
      && node'.client == node.client && node'.lock == node.lock && node'.alive == node.alive
      && node'.recoveries == node.recoveries && node'.curRecoveryId == node.curRecoveryId
      && node'.member.log ==
           node.member.log + (if message.Accepted? && src in node.alive then [message.value] else [])
      && (reply.Some? ==> !reply.value.Accepted?)
  {
  }

  /** The failure thread of a node touches neither its locks nor its recoveries. */
  lemma FailureThreads(node: Node, src: int, dst: int, message: FailureMsg)
    ensures var node' := FailureReceived(node, src, dst, message);
      && node'.client == node.client && node'.lock == node.lock
      && node'.recoveries == node.recoveries && node'.curRecoveryId == node.curRecoveryId
  {
  }

  /** Every step but one of a recovery thread of p. */
  lemma OutsideThreads(s: System, step: Step, p: int)
    requires Enabled(s, step) && IsNode(s, p) && !(RecoveryStep(step) && step.p == p)
    requires HoldsLock(s.nodes[p].client) <==> s.nodes[p].lock == ClientThread
    ensures IsNode(Apply(s, step), p) && SameThreads(s.nodes[p], Apply(s, step).nodes[p])
  {
    if step.DeliverConsensus? {
      DeliveryEffect(s, step.src, step.dst);
      OutcomeLog(s.nodes[step.dst], step.src, Queue(s.consensus, step.src, step.dst)[0]);
    } else if step.DeliverFailure? {
      FailureThreads(s.nodes[step.dst], step.src, step.dst, Queue(s.failure, step.src, step.dst)[0]);
    } else if step.SendNext? {
      SendChannels(s, step.p);
    } else if LocalStep(step) && step.p == p {
      LocalEffect(s, step);
    } else if IsClientStep(step) {
      ClientEffect(s, step);
    }
  }

  /** What is remembered of STATE messages depends on the recoveries alone. */
  lemma SameRecoveries(node: Node, node': Node)
    requires node'.recoveries == node.recoveries
    ensures forall id, x {:trigger Started(node', id, x)} :: Started(node', id, x) <==> Started(node, id, x)
    ensures forall id, x {:trigger Window(node', id, x)} :: Window(node', id, x) <==> Window(node, id, x)
  {
  }

  // ---------------------------------------------------------------------------
  // The steps of a recovery thread

  /** A recovery that has just been spawned has sent nothing. */
  lemma SpawnRemembers(node: Node, node': Node, thread: nat, id: int, x: int)
    requires thread !in node.recoveries
    requires node'.recoveries == node.recoveries[thread := Recovery(id, x, Spawned)]
    ensures forall id, x {:trigger Started(node', id, x)} :: Started(node', id, x) <==> Started(node, id, x)
    ensures forall id, x {:trigger Window(node', id, x)} :: Window(node', id, x) <==> Window(node, id, x)
  {
    forall id, x
      ensures Started(node', id, x) <==> Started(node, id, x)
      ensures Window(node', id, x) <==> Window(node, id, x)
    {
      if Started(node, id, x) {
        var t :| t in node.recoveries && node.recoveries[t].id == id && node.recoveries[t].target == x &&
                 (node.recoveries[t].phase.Sent? || node.recoveries[t].phase.Closed?);
        assert node'.recoveries[t] == node.recoveries[t];
      }
      if Window(node, id, x) {
        var t :| t in node.recoveries && node.recoveries[t] == Recovery(id, x, Sent);
        assert node'.recoveries[t] == node.recoveries[t];
      }
    }
  }

  /** Moving one recovery on: it starts when it sends its STATE, and its window is open until it is closed. */
  lemma PhaseRemembers(node: Node, node': Node, thread: nat, phase: Phase)
    requires thread in node.recoveries && !node.recoveries[thread].phase.Closed?
    requires node'.recoveries == node.recoveries[thread := node.recoveries[thread].(phase := phase)]
    requires node.recoveries[thread].phase.Sent? ==> phase.Closed?
    ensures var moved := node.recoveries[thread];
      && (forall id, x {:trigger Started(node', id, x)} ::
            Started(node', id, x) <==>
              Started(node, id, x) || ((phase.Sent? || phase.Closed?) && id == moved.id && x == moved.target))
      && (forall id, x {:trigger Window(node', id, x)} :: Window(node', id, x) ==>
            Window(node, id, x) || (phase.Sent? && id == moved.id && x == moved.target))
      && (phase.Sent? ==> Window(node', moved.id, moved.target))
      && (!moved.phase.Sent? ==>
            forall id, x {:trigger Window(node', id, x)} :: Window(node, id, x) ==> Window(node', id, x))
  {
    forall id, x
      ensures Started(node, id, x) ==> Started(node', id, x)
      ensures !node.recoveries[thread].phase.Sent? && Window(node, id, x) ==> Window(node', id, x)
    {
      if Started(node, id, x) {
        var t :| t in node.recoveries && node.recoveries[t].id == id && node.recoveries[t].target == x &&
                 (node.recoveries[t].phase.Sent? || node.recoveries[t].phase.Closed?);
        assert t in node'.recoveries && node'.recoveries[t].id == id;
      }
      if Window(node, id, x) {
        var t :| t in node.recoveries && node.recoveries[t] == Recovery(id, x, Sent);
        assert t != thread ==> node'.recoveries[t] == node.recoveries[t];
      }
    }
    assert node'.recoveries[thread].phase == phase;
  }

  lemma RecoveryLocks(s: System, step: Step, p: int)
    requires Enabled(s, step) && RecoveryStep(step) && step.p == p && Locks(p, |s.nodes|, s.nodes[p])
    ensures IsNode(Apply(s, step), p) && Locks(p, |s.nodes|, Apply(s, step).nodes[p])
  {
  }

  /** Of the steps of recovery threads only the publication of a reused id can put a started recovery outside its
      window. */
  lemma RecoveryCurrent(s: System, step: Step, p: int)
    requires Enabled(s, step) && RecoveryStep(step) && step.p == p
    requires Locks(p, |s.nodes|, s.nodes[p]) && CurrentInWindow(s.nodes[p])
    ensures IsNode(Apply(s, step), p)
    ensures CurrentInWindow(Apply(s, step).nodes[p]) <==> PublishesNew(s, step, p)
  {
    var node, node' := s.nodes[p], Apply(s, step).nodes[p];
    match step
    case Spawn(_, other, thread, id) => SpawnRemembers(node, node', thread, id, other);
    case Publish(_, thread) =>
      PhaseRemembers(node, node', thread, Published);
      PublishCurrent(node, node', thread);
    case LockWindow(_, thread) => PhaseRemembers(node, node', thread, Locked);
    case Transfer(_, thread) => PhaseRemembers(node, node', thread, Sent);
    case CloseWindow(_, thread) => CloseCurrent(p, |s.nodes|, node, node', thread);
  }

  lemma PublishCurrent(node: Node, node': Node, thread: nat)
    requires thread in node.recoveries && node.recoveries[thread].phase == Spawned
    requires node' == SetPhase(node, thread, Published).(curRecoveryId := node.recoveries[thread].id)
    ensures CurrentInWindow(node') <==> NotReused(node, thread)
  {
    var id := node.recoveries[thread].id;
    PhaseRemembers(node, node', thread, Published);
    if CurrentInWindow(node') {
      forall u | u in node.recoveries && node.recoveries[u].id == id && node.recoveries[u].phase.Closed?
        ensures Window(node, id, node.recoveries[u].target)
      {
        assert Started(node, id, node.recoveries[u].target);
        assert Started(node', id, node.recoveries[u].target);
      }
    }
    if NotReused(node, thread) {
      forall x | Started(node', id, x)
        ensures Window(node', id, x)
      {
        var t :| t in node.recoveries && node.recoveries[t].id == id && node.recoveries[t].target == x &&
                 (node.recoveries[t].phase.Sent? || node.recoveries[t].phase.Closed?);
        assert node.recoveries[t].phase.Sent? ==> node.recoveries[t] == Recovery(id, x, Sent);
        assert Window(node, id, x);
        assert Window(node', id, x);
      }
    }
  }

  lemma CloseCurrent(p: int, n: int, node: Node, node': Node, thread: nat)
    requires Locks(p, n, node) && thread in node.recoveries && node.recoveries[thread].phase == Sent
    requires node' == SetPhase(node, thread, Closed).(curRecoveryId := -1, lock := Free)
    ensures CurrentInWindow(node')
  {
  }

  // ---------------------------------------------------------------------------
  // Every run

  lemma LocksStep(s: System, step: Step, s': System, p: int)
    requires Enabled(s, step) && s' == Apply(s, step) && IsNode(s, p) && Locks(p, |s.nodes|, s.nodes[p])
    ensures IsNode(s', p) && |s'.nodes| == |s.nodes| && Locks(p, |s.nodes|, s'.nodes[p])
  {
    SizeIsFixed(s, step);
    if RecoveryStep(step) && step.p == p {
      RecoveryLocks(s, step, p);
    } else {
      OutsideThreads(s, step, p);
    }
  }

  /** A step puts a started recovery outside its window exactly when it publishes a reused id. */
  lemma CurrentStepIff(s: System, step: Step, s': System, p: int)
    requires Enabled(s, step) && s' == Apply(s, step) && IsNode(s, p)
    requires Locks(p, |s.nodes|, s.nodes[p]) && CurrentInWindow(s.nodes[p])
    ensures IsNode(s', p) && (CurrentInWindow(s'.nodes[p]) <==> PublishesNew(s, step, p))
  {
    if RecoveryStep(step) && step.p == p {
      RecoveryCurrent(s, step, p);
    } else {
      OutsideThreads(s, step, p);
      SameRecoveries(s.nodes[p], s'.nodes[p]);
    }
  }

  lemma {:induction false} LocksHold(states: seq<System>, steps: seq<Step>, k: nat, p: int)
    requires IsRun(states, steps) && k < |states| && IsNode(states[0], p)
    ensures IsNode(states[k], p) && Locks(p, |states[k].nodes|, states[k].nodes[p])
  {
    if k == 0 {
      assert states[0].nodes[p] == InitialNode(|states[0].nodes|, p).(leaderId := states[0].nodes[p].leaderId);
    } else {
      LocksHold(states, steps, k - 1, p);
      RunStep(states, steps, k - 1);
      LocksStep(states[k - 1], steps[k - 1], states[k], p);
    }
  }

  ghost predicate OwnsAt(states: seq<System>, i: int, p: int)
    requires 0 <= i < |states|
  {
    IsNode(states[i], p) && OwnsTheLock(states[i].nodes[p])
  }

  ghost predicate NewAt(states: seq<System>, steps: seq<Step>, i: int, p: int)
    requires |states| == |steps| + 1 && 0 <= i < |steps|
  {
    Enabled(states[i], steps[i]) && PublishesNew(states[i], steps[i], p)
  }

  /** Before step k node p publishes no reused id. */
  ghost predicate NewSoFar(states: seq<System>, steps: seq<Step>, k: int, p: int)
    requires |states| == |steps| + 1 && 0 <= k <= |steps|
  {
    forall i {:trigger NewAt(states, steps, i, p)} :: 0 <= i < k ==> NewAt(states, steps, i, p)
  }

  lemma {:induction false} CurrentHolds(states: seq<System>, steps: seq<Step>, k: nat, p: int)
    requires IsRun(states, steps) && k < |states| && IsNode(states[0], p) && NewSoFar(states, steps, k, p)
    ensures OwnsAt(states, k, p)
  {
    LocksHold(states, steps, k, p);
    if k == 0 {
      assert states[0].nodes[p] == InitialNode(|states[0].nodes|, p).(leaderId := states[0].nodes[p].leaderId);
    } else {
      CurrentHolds(states, steps, k - 1, p);
      LocksHold(states, steps, k - 1, p);
      RunStep(states, steps, k - 1);
      assert NewAt(states, steps, k - 1, p);
      OwnsIsCurrentInWindow(p, |states[k - 1].nodes|, states[k - 1].nodes[p]);
      CurrentStepIff(states[k - 1], steps[k - 1], states[k], p);
    }
    OwnsIsCurrentInWindow(p, |states[k].nodes|, states[k].nodes[p]);
  }

  /** Exactly when recoveries own the lock, for every node of every run, whoever leads or suspects whom, and however
      many recovery threads there are: in all states up to k a current recovery whose STATE was sent is inside its
      window and holds the lock, and no startConsensus of the node runs, if and only if the node has published no
      reused id. */
  lemma {:induction false} RecoveryOwnsTheLockIff(states: seq<System>, steps: seq<Step>, k: nat, p: int)
    requires IsRun(states, steps) && k < |states| && IsNode(states[0], p)
    ensures (forall i {:trigger OwnsAt(states, i, p)} :: 0 <= i <= k ==> OwnsAt(states, i, p))
            <==> NewSoFar(states, steps, k, p)
  {
    if NewSoFar(states, steps, k, p) {
      forall i | 0 <= i <= k ensures OwnsAt(states, i, p) {
        CurrentHolds(states, steps, i, p);
      }
    }
    if forall i {:trigger OwnsAt(states, i, p)} :: 0 <= i <= k ==> OwnsAt(states, i, p) {
      forall i | 0 <= i < k ensures NewAt(states, steps, i, p) {
        assert OwnsAt(states, i, p) && OwnsAt(states, i + 1, p);
        OwningIsNew(states, steps, i, p);
      }
    }
  }

  lemma OwningIsNew(states: seq<System>, steps: seq<Step>, i: nat, p: int)
    requires IsRun(states, steps) && i < |steps| && IsNode(states[0], p) && OwnsAt(states, i, p)
             && OwnsAt(states, i + 1, p)
    ensures NewAt(states, steps, i, p)
  {
    RunStep(states, steps, i);
    LocksHold(states, steps, i, p);
    LocksHold(states, steps, i + 1, p);
    OwnsIsCurrentInWindow(p, |states[i].nodes|, states[i].nodes[p]);
    OwnsIsCurrentInWindow(p, |states[i + 1].nodes|, states[i + 1].nodes[p]);
    CurrentStepIff(states[i], steps[i], states[i + 1], p);
  }

  // ---------------------------------------------------------------------------
  // Recoveries with distinct ids

  /** No two recoveries of a node share a message id. */
  ghost predicate DistinctIds(s: System, step: Step)
    requires Enabled(s, step)
  {
    step.Spawn? ==> forall t :: t in s.nodes[step.p].recoveries ==> s.nodes[step.p].recoveries[t].id != step.id
  }

  ghost predicate Distinct(node: Node) {
    forall t, u {:trigger node.recoveries[t], node.recoveries[u]} ::
      t in node.recoveries && u in node.recoveries && node.recoveries[t].id == node.recoveries[u].id ==> t == u
  }

  /** clientConnMutex and the recoveries of a node whose recovery ids differ. */
  ghost predicate Ownership(p: int, n: int, node: Node) {
    Locks(p, n, node) && Distinct(node) && CurrentInWindow(node)
  }

  lemma SameOwnership(p: int, n: int, node: Node, node': Node)
    requires Ownership(p, n, node) && SameThreads(node, node')
    ensures Ownership(p, n, node')
  {
    SameRecoveries(node, node');
  }

  lemma DistinctStep(s: System, step: Step, p: int)
    requires Enabled(s, step) && RecoveryStep(step) && step.p == p && DistinctIds(s, step) && Distinct(s.nodes[p])
    ensures IsNode(Apply(s, step), p) && Distinct(Apply(s, step).nodes[p])
    ensures PublishesNew(s, step, p)
  {
  }

  lemma OwnershipStep(s: System, step: Step, s': System, p: int)
    requires Enabled(s, step) && s' == Apply(s, step) && DistinctIds(s, step)
    requires IsNode(s, p) && Ownership(p, |s.nodes|, s.nodes[p])
    ensures IsNode(s', p) && |s'.nodes| == |s.nodes| && Ownership(p, |s.nodes|, s'.nodes[p])
    ensures PublishesNew(s, step, p)
  {
    LocksStep(s, step, s', p);
    CurrentStepIff(s, step, s', p);
    if RecoveryStep(step) && step.p == p {
      DistinctStep(s, step, p);
    } else {
      OutsideThreads(s, step, p);
    }
  }

  ghost predicate DistinctAt(states: seq<System>, steps: seq<Step>, i: int)
    requires |states| == |steps| + 1 && 0 <= i < |steps|
  {
    Enabled(states[i], steps[i]) && DistinctIds(states[i], steps[i])
  }

  /** A run in which no node gives two recoveries the same id. */
  ghost predicate DistinctRun(states: seq<System>, steps: seq<Step>) {
    && IsRun(states, steps)
    && forall i {:trigger DistinctAt(states, steps, i)} :: 0 <= i < |steps| ==> DistinctAt(states, steps, i)
  }

  lemma {:induction false} OwnershipHolds(states: seq<System>, steps: seq<Step>, k: nat, p: int)
    requires DistinctRun(states, steps) && k < |states| && IsNode(states[0], p)
    ensures IsNode(states[k], p) && Ownership(p, |states[k].nodes|, states[k].nodes[p])
    ensures NewSoFar(states, steps, k, p)
  {
    if k == 0 {
      assert states[0].nodes[p] == InitialNode(|states[0].nodes|, p).(leaderId := states[0].nodes[p].leaderId);
    } else {
      OwnershipHolds(states, steps, k - 1, p);
      RunStep(states, steps, k - 1);
      assert DistinctAt(states, steps, k - 1);
      OwnershipStep(states[k - 1], steps[k - 1], states[k], p);
      assert NewAt(states, steps, k - 1, p);
    }
  }

  /** Distinct recovery ids are enough: while a recovery's id is current and its STATE has been sent, that recovery is
      inside its window and holds the lock, so no startConsensus of the node runs. */
  lemma RecoveryOwnsTheLock(states: seq<System>, steps: seq<Step>, k: nat, p: int, x: int)
    requires DistinctRun(states, steps) && k < |states| && IsNode(states[0], p) && IsNode(states[k], p)
    requires Started(states[k].nodes[p], states[k].nodes[p].curRecoveryId, x)
    ensures Window(states[k].nodes[p], states[k].nodes[p].curRecoveryId, x)
    ensures states[k].nodes[p].lock.RecoveryThread?
    ensures !InRound(states[k].nodes[p].client)
  {
    OwnershipHolds(states, steps, k, p);
    CurrentHolds(states, steps, k, p);
  }
}

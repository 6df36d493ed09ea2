/** src/manager/election-manager.cc: the bully election of a cluster whose live set is fixed, as a step system.

    Everything a node still has to do or receive is an item in flight, and items are taken in any order. A broadcast
    puts all its messages in flight at once. */
module Election {
  import Messages

  /** The fields of an ElectionManager, and two history variables. */
  datatype Elector = Elector(
    leaderId: int,
    aliveReceived: bool,
    waiting: bool,      // its waitForVictory loop is polling
    begun: bool,        // history: it has broadcast ELECTION
    declared: nat)      // history: how often it has declared victory

  const IDLE := Elector(-1, false, false, false, 0)

  datatype Item =
    | Start(node: int)              // a triggerElection thread that has not broadcast yet
    | Election(src: int, dst: int)
    | Alive(src: int, dst: int)
    | Flag(node: int)               // an aliveWait thread that has not set m_aliveReceived yet
    | Expiry(node: int)             // an aliveWait thread asleep
    | Clear(node: int)              // an aliveWait thread that has yet to clear m_aliveReceived
    | Victory(src: int, dst: int)

  /** `sent` counts the ELECTION messages sent so far. */
  datatype Cluster = Cluster(live: set<int>, nodes: seq<Elector>, items: seq<Item>, sent: nat)

  // ---------------------------------------------------------------------------
  // Handlers

  /** The fields after the first part of broadcastElection. */
  function Restarted(e: Elector): Elector {
    e.(aliveReceived := false, leaderId := -1, begun := true)
  }

  /** The loop of waitForVictory goes on. */
  predicate KeepWaiting(e: Elector, elapsed: int) {
    e.aliveReceived || (e.leaderId == -1 && elapsed < 2)
  }

  /** ELECTION to the live nodes among lo..n. */
  function Calls(live: set<int>, n: int, src: int, lo: int): (items: seq<Item>)
    decreases n - lo
  {
    if lo >= n then []
    else (if lo in live then [Election(src, lo)] else []) + Calls(live, n, src, lo + 1)
  }

  /** VICTORY to the live nodes among lo..n other than src. */
  function Victories(live: set<int>, n: int, src: int, lo: int): (items: seq<Item>)
    decreases n - lo
  {
    if lo >= n then []
    else (if lo in live && lo != src then [Victory(src, lo)] else []) + Victories(live, n, src, lo + 1)
  }

  // ---------------------------------------------------------------------------
  // Steps

  datatype Step =
    | Take(k: nat)      // an item in flight happens
    | Timeout(node: int)   // waitForVictory gives up waiting, or finds a leader
    | Leave(node: int)  // waitForVictory finds a leader

  predicate Urgent(item: Item) {
    item.Start? || item.Election? || item.Alive? || item.Flag?
  }

  /** ELECTION_WAIT_DURATION is long enough: nothing that belongs to the exchange of ELECTION and ALIVE is in flight,
      and nobody is about to start one. */
  predicate Settled(items: seq<Item>) {
    forall m :: m in items ==> !Urgent(m)
  }

  /** The node an item happens at. */
  function Target(item: Item): int {
    match item
    case Start(i) => i
    case Election(_, i) => i
    case Alive(_, i) => i
    case Flag(i) => i
    case Expiry(i) => i
    case Clear(i) => i
    case Victory(_, i) => i
  }

  predicate Enabled(s: Cluster, step: Step) {
    match step
    case Take(k) => k < |s.items| && 0 <= Target(s.items[k]) < |s.nodes|
    case Timeout(i) => 0 <= i < |s.nodes| && s.nodes[i].waiting && !KeepWaiting(s.nodes[i], 2) && Settled(s.items)
    case Leave(i) => 0 <= i < |s.nodes| && s.nodes[i].waiting && !KeepWaiting(s.nodes[i], 0)
  }

  /** VICTORY arrives before any aliveWait expires. */
  predicate Prompt(s: Cluster, step: Step)
    requires Enabled(s, step)
  {
    step.Take? && s.items[step.k].Expiry? ==> s.nodes[s.items[step.k].node].leaderId != -1
  }

  function Broadcast(s: Cluster, i: int): Cluster
    requires 0 <= i < |s.nodes|
  {
    var calls := Calls(s.live, |s.nodes|, i, i + 1);
    s.(nodes := s.nodes[i := Restarted(s.nodes[i])], items := s.items + calls, sent := s.sent + |calls|)
  }

  function Without<T>(items: seq<T>, k: nat): seq<T>
    requires k < |items|
  {
    items[..k] + items[k + 1..]
  }

  function Apply(s: Cluster, step: Step): Cluster
    requires Enabled(s, step)
  {
    match step
    case Take(k) => Happen(s.(items := Without(s.items, k)), s.items[k])
    case Timeout(i) =>
      var e := s.nodes[i].(waiting := false);
      if e.leaderId == -1
      then s.(nodes := s.nodes[i := e.(leaderId := i, declared := e.declared + 1)],
              items := s.items + Victories(s.live, |s.nodes|, i, 0))
      else s.(nodes := s.nodes[i := e])
    case Leave(i) => s.(nodes := s.nodes[i := s.nodes[i].(waiting := false)])
  }

  /** What an item does once it has left the items in flight. */
  function Happen(s: Cluster, item: Item): Cluster
    requires 0 <= Target(item) < |s.nodes|
  {
    match item
    case Start(i) =>
      var s1 := Broadcast(s, i);
      s1.(nodes := s1.nodes[i := s1.nodes[i].(waiting := true)])
    case Election(src, i) => Broadcast(s.(items := s.items + [Alive(i, src)]), i)
    case Alive(src, i) => if src > i then s.(items := s.items + [Flag(i)]) else s
    case Flag(i) => s.(nodes := s.nodes[i := s.nodes[i].(aliveReceived := true)], items := s.items + [Expiry(i)])
    case Expiry(i) =>
      var s1 := if s.nodes[i].leaderId == -1 then Broadcast(s, i) else s;
      s1.(items := s1.items + [Clear(i)])
    case Clear(i) => s.(nodes := s.nodes[i := s.nodes[i].(aliveReceived := false)])
    case Victory(src, i) => s.(nodes := s.nodes[i := s.nodes[i].(leaderId := src)])
  }

  // ---------------------------------------------------------------------------
  // Runs

  function Starts(starters: set<int>, n: int): seq<Item> {
    if n <= 0 then []
    else if n - 1 in starters then Starts(starters, n - 1) + [Start(n - 1)]
    else Starts(starters, n - 1)
  }

  /** Nodes 0..n, of which `live` are up and `starters` call startElection. Whom each takes for the leader so far is
      left open: nobody when the cluster starts, a node outside `live` when the leader has failed. */
  ghost predicate Initial(s: Cluster, n: nat, live: set<int>, starters: set<int>) {
    && |s.nodes| == n && (forall i :: 0 <= i < n ==> s.nodes[i] == IDLE.(leaderId := s.nodes[i].leaderId))
    && s.live == live && s.items == Starts(starters, n) && s.sent == 0
  }

  ghost predicate StepAt(states: seq<Cluster>, steps: seq<Step>, i: int)
    requires |states| == |steps| + 1 && 0 <= i < |steps|
  {
    Enabled(states[i], steps[i]) && states[i + 1] == Apply(states[i], steps[i])
  }

  /** `highest` is the highest live node. */
  ghost predicate IsRun(n: nat, live: set<int>, starters: set<int>, highest: int, states: seq<Cluster>,
                        steps: seq<Step>)
  {
    && starters <= live && highest in live && (forall x :: x in live ==> 0 <= x < n && x <= highest)
    && |states| == |steps| + 1 && Initial(states[0], n, live, starters)
    && forall i {:trigger StepAt(states, steps, i)} :: 0 <= i < |steps| ==> StepAt(states, steps, i)
  }

  ghost predicate PromptRun(states: seq<Cluster>, steps: seq<Step>)
    requires |states| == |steps| + 1
  {
    forall i {:trigger StepAt(states, steps, i)} :: 0 <= i < |steps| && StepAt(states, steps, i) ==>
        Prompt(states[i], steps[i])
  }

  ghost predicate Possible(s: Cluster, step: Step) {
    Enabled(s, step) && Prompt(s, step)
  }

  /** Nothing more can happen, unless an aliveWait expires early. */
  ghost predicate Quiescent(s: Cluster) {
    forall step :: !Possible(s, step)
  }

  // ---------------------------------------------------------------------------
  // The cost of an election

  /** Live nodes above i. */
  function Above(live: set<int>, n: int, i: int): nat
    decreases n - i
  {
    if i + 1 >= n then 0 else (if i + 1 in live then 1 else 0) + Above(live, n, i + 1)
  }

  function Pow2(k: nat): (p: nat)
    ensures p >= 1
  {
    if k == 0 then 1 else 2 * Pow2(k - 1)
  }

  /** The ELECTION messages one broadcast by i causes in all. */
  function Cascade(live: set<int>, n: int, i: int): nat {
    Pow2(Above(live, n, i)) - 1
  }

  /** The ELECTION messages still to come because of what is in flight. */
  function Due(live: set<int>, n: int, items: seq<Item>): nat {
    if items == [] then 0
    else
      (match items[0]
       case Start(i) => Cascade(live, n, i)
       case Election(_, i) => Cascade(live, n, i)
       case _ => 0)
      + Due(live, n, items[1..])
  }

  /** What bounds the number of steps. */
  function Weight(live: set<int>, n: int, item: Item): nat {
    match item
    case Start(i) => 5 * Pow2(Above(live, n, i)) + (if n < 0 then 0 else n) + 1
    case Election(_, i) => 5 * Pow2(Above(live, n, i))
    case Alive(_, _) => 4
    case Flag(_) => 3
    case Expiry(_) => 2
    case Clear(_) => 1
    case Victory(_, _) => 1
  }

  function Weights(live: set<int>, n: int, items: seq<Item>): nat {
    if items == [] then 0 else Weight(live, n, items[0]) + Weights(live, n, items[1..])
  }

  function Waiting(e: Elector, cost: nat): nat {
    if e.waiting then cost else 0
  }

  function Waiters(nodes: seq<Elector>, cost: nat): nat {
    if nodes == [] then 0 else Waiting(nodes[0], cost) + Waiters(nodes[1..], cost)
  }

  function Measure(s: Cluster): nat {
    Weights(s.live, |s.nodes|, s.items) + Waiters(s.nodes, |s.nodes| + 1)
  }

  lemma {:induction false} DueAppend(live: set<int>, n: int, a: seq<Item>, b: seq<Item>)
    ensures Due(live, n, a + b) == Due(live, n, a) + Due(live, n, b)
  {
    if a == [] {
      assert a + b == b;
    } else {
      DueAppend(live, n, a[1..], b);
      assert (a + b)[1..] == a[1..] + b;
    }
  }

  lemma {:induction false} WeightsAppend(live: set<int>, n: int, a: seq<Item>, b: seq<Item>)
    ensures Weights(live, n, a + b) == Weights(live, n, a) + Weights(live, n, b)
  {
    if a == [] {
      assert a + b == b;
    } else {
      WeightsAppend(live, n, a[1..], b);
      assert (a + b)[1..] == a[1..] + b;
    }
  }

  /** Taking item k away. */
  lemma Taken(live: set<int>, n: int, items: seq<Item>, k: nat)
    requires k < |items|
    ensures Due(live, n, items) == Due(live, n, Without(items, k)) + Due(live, n, [items[k]])
    ensures Weights(live, n, items) == Weights(live, n, Without(items, k)) + Weight(live, n, items[k])
  {
    assert items == items[..k] + ([items[k]] + items[k + 1..]);
    DueAppend(live, n, items[..k], [items[k]] + items[k + 1..]);
    DueAppend(live, n, [items[k]], items[k + 1..]);
    DueAppend(live, n, items[..k], items[k + 1..]);
    WeightsAppend(live, n, items[..k], [items[k]] + items[k + 1..]);
    WeightsAppend(live, n, [items[k]], items[k + 1..]);
    WeightsAppend(live, n, items[..k], items[k + 1..]);
    assert [items[k]][1..] == [];
  }

  /** A broadcast by i sends one ELECTION per live node above it, and these cause the rest of its cascade. */
  lemma {:induction false} CallsCost(live: set<int>, n: int, src: int, lo: int)
    ensures |Calls(live, n, src, lo)| + Due(live, n, Calls(live, n, src, lo)) == Cascade(live, n, lo - 1)
    ensures Weights(live, n, Calls(live, n, src, lo)) == 5 * Cascade(live, n, lo - 1)
    decreases n - lo
  {
    if lo < n {
      CallsCost(live, n, src, lo + 1);
      if lo in live {
        DueAppend(live, n, [Election(src, lo)], Calls(live, n, src, lo + 1));
        WeightsAppend(live, n, [Election(src, lo)], Calls(live, n, src, lo + 1));
        assert [Election(src, lo)][1..] == [];
      } else {
        assert Calls(live, n, src, lo) == Calls(live, n, src, lo + 1);
      }
    }
  }

  lemma {:induction false} VictoriesCost(live: set<int>, n: int, src: int, lo: int)
    requires 0 <= lo
    ensures Weights(live, n, Victories(live, n, src, lo)) <= if lo < n then n - lo else 0
    ensures Due(live, n, Victories(live, n, src, lo)) == 0
    decreases n - lo
  {
    if lo < n {
      VictoriesCost(live, n, src, lo + 1);
      if lo in live && lo != src {
        WeightsAppend(live, n, [Victory(src, lo)], Victories(live, n, src, lo + 1));
        DueAppend(live, n, [Victory(src, lo)], Victories(live, n, src, lo + 1));
        assert [Victory(src, lo)][1..] == [];
      } else {
        assert Victories(live, n, src, lo) == Victories(live, n, src, lo + 1);
      }
    }
  }

  lemma {:induction false} WaitersUpdate(nodes: seq<Elector>, cost: nat, i: nat, e: Elector)
    requires i < |nodes|
    ensures Waiters(nodes[i := e], cost) + Waiting(nodes[i], cost) == Waiters(nodes, cost) + Waiting(e, cost)
  {
    if i == 0 {
      assert nodes[i := e][1..] == nodes[1..];
    } else {
      WaitersUpdate(nodes[1..], cost, i - 1, e);
      assert nodes[i := e][1..] == nodes[1..][i - 1 := e];
    }
  }

  /** What a broadcast by i adds. */
  lemma BroadcastCost(s: Cluster, i: int)
    requires 0 <= i < |s.nodes|
    ensures var s' := Broadcast(s, i);
      && s'.sent + Due(s.live, |s.nodes|, s'.items)
         == s.sent + Due(s.live, |s.nodes|, s.items) + Cascade(s.live, |s.nodes|, i)
      && Weights(s.live, |s.nodes|, s'.items) == Weights(s.live, |s.nodes|, s.items) + 5 * Cascade(s.live, |s.nodes|, i)
      && Waiters(s'.nodes, |s.nodes| + 1) == Waiters(s.nodes, |s.nodes| + 1)
  {
    var n := |s.nodes|;
    CallsCost(s.live, n, i, i + 1);
    DueAppend(s.live, n, s.items, Calls(s.live, n, i, i + 1));
    WeightsAppend(s.live, n, s.items, Calls(s.live, n, i, i + 1));
    WaitersUpdate(s.nodes, |s.nodes| + 1, i, Restarted(s.nodes[i]));
  }

  /** One more item. */
  lemma Added(live: set<int>, n: int, items: seq<Item>, item: Item)
    ensures Due(live, n, items + [item]) == Due(live, n, items) + Due(live, n, [item])
    ensures Weights(live, n, items + [item]) == Weights(live, n, items) + Weight(live, n, item)
  {
    DueAppend(live, n, items, [item]);
    WeightsAppend(live, n, items, [item]);
    assert [item][1..] == [];
  }

  ghost predicate CostOk(s: Cluster, item: Item, s': Cluster) {
    && |s'.nodes| == |s.nodes| && s'.live == s.live
    && s'.sent + Due(s.live, |s.nodes|, s'.items)
       == s.sent + Due(s.live, |s.nodes|, s.items) + Due(s.live, |s.nodes|, [item])
    && Measure(s') < Measure(s) + Weight(s.live, |s.nodes|, item)
  }

  lemma BroadcastingCost(s: Cluster, item: Item)
    requires item.Start? || item.Election?
    requires 0 <= Target(item) < |s.nodes|
    ensures CostOk(s, item, Happen(s, item))
  {
    var i := Target(item);
    assert [item][1..] == [];
    match item
    case Start(_) =>
      BroadcastCost(s, i);
      WaitersUpdate(Broadcast(s, i).nodes, |s.nodes| + 1, i, Broadcast(s, i).nodes[i].(waiting := true));
    case Election(src, _) =>
      Added(s.live, |s.nodes|, s.items, Alive(i, src));
      assert [Alive(i, src)][1..] == [];
      BroadcastCost(s.(items := s.items + [Alive(i, src)]), i);
  }

  lemma WaitingItemCost(s: Cluster, item: Item)
    requires item.Alive? || item.Flag? || item.Expiry?
    requires 0 <= Target(item) < |s.nodes|
    requires item.Expiry? ==> s.nodes[item.node].leaderId != -1
    ensures CostOk(s, item, Happen(s, item))
  {
    var i := Target(item);
    WaitersUpdate(s.nodes, |s.nodes| + 1, i, Happen(s, item).nodes[i]);
    assert s.nodes[i := s.nodes[i]] == s.nodes;
    var next := if item.Alive? then Flag(i) else if item.Flag? then Expiry(i) else Clear(i);
    Added(s.live, |s.nodes|, s.items, next);
    assert [item][1..] == [] && [next][1..] == [];
  }

  lemma HappenCost(s: Cluster, item: Item)
    requires 0 <= Target(item) < |s.nodes|
    requires item.Expiry? ==> s.nodes[item.node].leaderId != -1
    ensures CostOk(s, item, Happen(s, item))
  {
    if item.Start? || item.Election? {
      BroadcastingCost(s, item);
    } else if item.Clear? || item.Victory? {
      WaitersUpdate(s.nodes, |s.nodes| + 1, Target(item), Happen(s, item).nodes[Target(item)]);
      assert [item][1..] == [];
    } else {
      WaitingItemCost(s, item);
    }
  }

  /** Every step brings the end nearer, and ELECTION messages sent or still due are as many as before. */
  lemma StepCost(s: Cluster, step: Step)
    requires Enabled(s, step) && Prompt(s, step)
    ensures var s' := Apply(s, step);
      && |s'.nodes| == |s.nodes| && s'.live == s.live
      && Measure(s') < Measure(s)
      && s'.sent + Due(s.live, |s.nodes|, s'.items) == s.sent + Due(s.live, |s.nodes|, s.items)
  {
    match step
    case Take(k) =>
      Taken(s.live, |s.nodes|, s.items, k);
      HappenCost(s.(items := Without(s.items, k)), s.items[k]);
    case Timeout(i) => TimeoutCost(s, i);
    case Leave(i) => WaitersUpdate(s.nodes, |s.nodes| + 1, i, s.nodes[i].(waiting := false));
  }

  lemma TimeoutCost(s: Cluster, i: int)
    requires Enabled(s, Timeout(i))
    ensures var s' := Apply(s, Timeout(i));
      && |s'.nodes| == |s.nodes|
      && Measure(s') < Measure(s)
      && Due(s.live, |s.nodes|, s'.items) == Due(s.live, |s.nodes|, s.items)
  {
    var n := |s.nodes|;
    var s' := Apply(s, Timeout(i));
    var victories := Victories(s.live, n, i, 0);
    VictoriesCost(s.live, n, i, 0);
    DueAppend(s.live, n, s.items, victories);
    WeightsAppend(s.live, n, s.items, victories);
    WaitersUpdate(s.nodes, n + 1, i, s'.nodes[i]);
    assert s'.nodes == s.nodes[i := s'.nodes[i]];
  }

  lemma {:induction false} RunCost(n: nat, live: set<int>, starters: set<int>, highest: int, states: seq<Cluster>,
                                   steps: seq<Step>, k: nat)
    requires IsRun(n, live, starters, highest, states, steps) && PromptRun(states, steps) && k <= |steps|
    ensures |states[k].nodes| == n && states[k].live == live
    ensures k + Measure(states[k]) <= Measure(states[0])
    ensures states[k].sent + Due(live, n, states[k].items) == Due(live, n, Starts(starters, n))
  {
    if k > 0 {
      RunCost(n, live, starters, highest, states, steps, k - 1);
      assert StepAt(states, steps, k - 1);
      StepCost(states[k - 1], steps[k - 1]);
    }
  }

  // ---------------------------------------------------------------------------
  // The exact cost

  lemma Stuck(s: Cluster, k: nat)
    requires Quiescent(s) && k < |s.items| && 0 <= Target(s.items[k]) < |s.nodes|
    ensures s.items[k].Expiry?
  {
    assert !Possible(s, Take(k));
  }

  lemma {:induction false} NothingDue(live: set<int>, n: int, items: seq<Item>)
    requires forall k :: 0 <= k < |items| ==> items[k].Expiry?
    ensures Due(live, n, items) == 0
  {
    if items != [] {
      NothingDue(live, n, items[1..]);
    }
  }

  /** The sum of Cascade over the nodes below n that started an election. */
  function TotalCascade(live: set<int>, n: int, starters: set<int>, upTo: nat): nat {
    if upTo == 0 then 0
    else TotalCascade(live, n, starters, upTo - 1) + if upTo - 1 in starters then Cascade(live, n, upTo - 1) else 0
  }

  lemma {:induction false} StartsDue(live: set<int>, n: int, starters: set<int>, upTo: nat)
    ensures Due(live, n, Starts(starters, upTo)) == TotalCascade(live, n, starters, upTo)
  {
    if upTo > 0 {
      StartsDue(live, n, starters, upTo - 1);
      if upTo - 1 in starters {
        Added(live, n, Starts(starters, upTo - 1), Start(upTo - 1));
        assert [Start(upTo - 1)][1..] == [];
      }
    }
  }

  /** Whatever the order of delivery, a run is no longer than Measure of its first state, it never exceeds the total of
      the cascades, and when it comes to rest it has sent exactly that many ELECTION messages. */
  lemma ElectionCost(n: nat, live: set<int>, starters: set<int>, highest: int, states: seq<Cluster>, steps: seq<Step>)
    requires IsRun(n, live, starters, highest, states, steps) && PromptRun(states, steps)
    ensures |steps| <= Measure(states[0])
    ensures states[|steps|].sent <= TotalCascade(live, n, starters, n)
    ensures Quiescent(states[|steps|]) ==> states[|steps|].sent == TotalCascade(live, n, starters, n)
  {
    var last := states[|steps|];
    RunCost(n, live, starters, highest, states, steps, |steps|);
    StartsDue(live, n, starters, n);
    if Quiescent(last) {
      ToldHolds(n, live, starters, highest, states, steps, |steps|);
      forall k | 0 <= k < |last.items| ensures last.items[k].Expiry? {
        assert ItemOk(last, starters, highest, last.items[k]);
        Stuck(last, k);
      }
      NothingDue(live, n, last.items);
    }
  }

  lemma {:induction false} AboveAll(n: int, i: int)
    requires -1 <= i < n
    ensures Above(Messages.Nodes(n), n, i) == n - 1 - i
    decreases n - i
  {
    if i + 1 < n {
      AboveAll(n, i + 1);
    }
  }

  lemma {:induction false} OneStarts(n: int, i: nat, upTo: nat)
    requires upTo <= n && i < n
    ensures TotalCascade(Messages.Nodes(n), n, {i}, upTo) == if i < upTo then Pow2(n - 1 - i) - 1 else 0
  {
    if upTo > 0 {
      OneStarts(n, i, upTo - 1);
      AboveAll(n, i);
    }
  }

  lemma {:induction false} AllStart(n: int, upTo: nat)
    requires upTo <= n
    ensures TotalCascade(Messages.Nodes(n), n, Messages.Nodes(n), upTo) + upTo + Pow2(n - upTo) == Pow2(n)
  {
    if upTo > 0 {
      AllStart(n, upTo - 1);
      AboveAll(n, upTo - 1);
      assert Pow2(n - (upTo - 1)) == 2 * Pow2(n - upTo);
    }
  }

  /** With every node up, an election started by node i alone costs 2^(n-1-i) - 1 ELECTION messages, and one started by
      every node 2^n - n - 1. */
  lemma CostWithEveryoneUp(n: nat, i: nat)
    requires i < n
    ensures TotalCascade(Messages.Nodes(n), n, {i}, n) == Pow2(n - 1 - i) - 1
    ensures TotalCascade(Messages.Nodes(n), n, Messages.Nodes(n), n) == Pow2(n) - n - 1
  {
    OneStarts(n, i, n);
    AllStart(n, n);
  }

  // ---------------------------------------------------------------------------
  // Who wins

  /** ELECTION climbs, ALIVE descends, only nodes below the highest that have broadcast ever wait after an ALIVE,
      VICTORY is that of the highest. */
  ghost predicate ItemOk(s: Cluster, starters: set<int>, highest: int, item: Item) {
    match item
    case Start(i) => i in starters && i in s.live
    case Election(a, b) => a < b && Began(s, a) && b in s.live
    case Alive(a, b) => a > b && a in s.live && Began(s, b)
    case Flag(i) => Began(s, i) && i < highest
    case Expiry(i) => Began(s, i) && i < highest
    case Clear(i) => Began(s, i) && i < highest
    case Victory(a, b) => a == highest && b in s.live && 0 <= a < |s.nodes| && s.nodes[a].declared > 0
  }

  predicate Began(s: Cluster, i: int) {
    i in s.live && 0 <= i < |s.nodes| && s.nodes[i].begun
  }

  ghost predicate Static(s: Cluster, n: int, starters: set<int>, highest: int) {
    |s.nodes| == n && starters <= s.live && highest in s.live && forall x :: x in s.live ==> 0 <= x < n && x <= highest
  }

  ghost predicate ItemsOk(s: Cluster, starters: set<int>, highest: int)
    requires Static(s, |s.nodes|, starters, highest)
  {
    forall m :: m in s.items ==> ItemOk(s, starters, highest, m)
  }

  ghost predicate NodeOk(s: Cluster, highest: int, i: int)
    requires 0 <= i < |s.nodes| && 0 <= highest < |s.nodes|
  {
    var e := s.nodes[i];
    && (e.begun ==> e.leaderId == -1 || (e.leaderId == highest && s.nodes[highest].declared > 0))
    && (e.declared > 0 ==> i == highest)
    && (e.waiting ==> e.begun) && (e.begun ==> i in s.live)
    && (e.aliveReceived ==> i < highest && (Expiry(i) in s.items || Clear(i) in s.items))
  }

  ghost predicate NodesOk(s: Cluster, starters: set<int>, highest: int)
    requires Static(s, |s.nodes|, starters, highest)
  {
    forall i :: 0 <= i < |s.nodes| ==> NodeOk(s, highest, i)
  }

  /** An answer of the highest live node is on its way to node i. */
  ghost predicate Covered(items: seq<Item>, highest: int, i: int) {
    Election(i, highest) in items || Alive(highest, i) in items || Flag(i) in items
  }

  /** A node below the highest live one that has broadcast cannot win. */
  ghost predicate Beaten(s: Cluster, highest: int, i: int)
    requires 0 <= i < |s.nodes|
  {
    s.nodes[i].begun && i < highest ==>
        s.nodes[i].aliveReceived || s.nodes[i].leaderId != -1 || Covered(s.items, highest, i)
  }

  ghost predicate AllBeaten(s: Cluster, highest: int) {
    forall i :: 0 <= i < |s.nodes| ==> Beaten(s, highest, i)
  }

  function Ones(b: bool): nat {
    if b then 1 else 0
  }

  /** The highest live node declares once if it calls startElection, and otherwise never. */
  ghost predicate Once(s: Cluster, starters: set<int>, highest: int)
    requires 0 <= highest < |s.nodes|
  {
    multiset(s.items)[Start(highest)] + Ones(s.nodes[highest].waiting) + s.nodes[highest].declared
        == Ones(highest in starters)
  }

  ghost predicate Inv(s: Cluster, n: int, starters: set<int>, highest: int) {
    && Static(s, n, starters, highest)
    && ItemsOk(s, starters, highest) && NodesOk(s, starters, highest) && AllBeaten(s, highest)
    && Once(s, starters, highest)
  }

  /** The step is not that of an aliveWait thread clearing the flag that alone holds a node back: one set, for a newer
      ALIVE, between its own broadcastElection and its own setAliveReceived(false). */
  ghost predicate Harmless(s: Cluster, step: Step, highest: int)
    requires Enabled(s, step)
  {
    step.Take? && s.items[step.k].Clear? && s.items[step.k].node < highest ==>
      var e := s.nodes[s.items[step.k].node];
      !e.begun || !e.aliveReceived || e.leaderId != -1 || Covered(s.items, highest, s.items[step.k].node)
  }

  /** Once victory is declared the exchange is over and every live node knows, or is about to be told; an aliveWait
      thread that has woken up found that leader. */
  ghost predicate Told(s: Cluster, highest: int)
    requires 0 <= highest < |s.nodes|
  {
    && (s.nodes[highest].declared > 0 ==>
          Settled(s.items) && forall i :: i in s.live && 0 <= i < |s.nodes| ==>
              s.nodes[i].leaderId == highest || Victory(highest, i) in s.items)
    && (forall i :: Clear(i) in s.items ==> 0 <= i < |s.nodes| && s.nodes[i].leaderId == highest)
  }

  lemma {:induction false} CallsElements(live: set<int>, n: int, src: int, lo: int)
    ensures forall m :: m in Calls(live, n, src, lo) <==>
              m.Election? && m.src == src && lo <= m.dst < n && m.dst in live
    decreases n - lo
  {
    if lo < n {
      CallsElements(live, n, src, lo + 1);
    }
  }

  lemma {:induction false} VictoriesElements(live: set<int>, n: int, src: int, lo: int)
    ensures forall m :: m in Victories(live, n, src, lo) <==>
              m.Victory? && m.src == src && lo <= m.dst < n && m.dst in live && m.dst != src
    decreases n - lo
  {
    if lo < n {
      VictoriesElements(live, n, src, lo + 1);
    }
  }

  lemma Removed(items: seq<Item>, k: nat)
    requires k < |items|
    ensures forall m :: m in items <==> m in Without(items, k) || m == items[k]
    ensures multiset(items) == multiset(Without(items, k)) + multiset{items[k]}
  {
    assert items == items[..k] + [items[k]] + items[k + 1..];
  }

  function AddedBy(s: Cluster, step: Step): (added: seq<Item>)
    requires Enabled(s, step)
  {
    match step
    case Take(k) =>
      var i := Target(s.items[k]);
      var calls := Calls(s.live, |s.nodes|, i, i + 1);
      (match s.items[k]
       case Start(_) => calls
       case Election(src, _) => [Alive(i, src)] + calls
       case Alive(src, _) => if src > i then [Flag(i)] else []
       case Flag(_) => [Expiry(i)]
       case Expiry(_) => if s.nodes[i].leaderId == -1 then calls + [Clear(i)] else [Clear(i)]
       case Clear(_) => []
       case Victory(_, _) => [])
    case Timeout(i) => if s.nodes[i].leaderId == -1 then Victories(s.live, |s.nodes|, i, 0) else []
    case Leave(_) => []
  }

  /** The items a step leaves alone. */
  function Kept(s: Cluster, step: Step): (kept: seq<Item>)
    requires Enabled(s, step)
  {
    if step.Take? then Without(s.items, step.k) else s.items
  }

  function NodeOf(s: Cluster, step: Step): int
    requires Enabled(s, step)
  {
    match step
    case Take(k) => Target(s.items[k])
    case Timeout(i) => i
    case Leave(i) => i
  }

  /** The node a step happens at, after it. */
  function NodeAfter(s: Cluster, step: Step): Elector
    requires Enabled(s, step)
  {
    var e := s.nodes[NodeOf(s, step)];
    match step
    case Take(k) =>
      (match s.items[k]
       case Start(_) => Restarted(e).(waiting := true)
       case Election(_, _) => Restarted(e)
       case Alive(_, _) => e
       case Flag(_) => e.(aliveReceived := true)
       case Expiry(_) => if e.leaderId == -1 then Restarted(e) else e
       case Clear(_) => e.(aliveReceived := false)
       case Victory(src, _) => e.(leaderId := src))
    case Timeout(i) =>
      if e.leaderId == -1 then e.(waiting := false, leaderId := i, declared := e.declared + 1)
      else e.(waiting := false)
    case Leave(_) => e.(waiting := false)
  }

  /** Apply, seen from the node the step happens at. */
  ghost predicate Moves(s: Cluster, step: Step, s': Cluster) {
    && Enabled(s, step)
    && s'.items == Kept(s, step) + AddedBy(s, step)
    && s'.live == s.live
    && s'.nodes == s.nodes[NodeOf(s, step) := NodeAfter(s, step)]
  }

  lemma StepMoves(s: Cluster, step: Step)
    requires Enabled(s, step)
    ensures Moves(s, step, Apply(s, step))
  {
    match step
    case Take(k) =>
      if s.items[k].Election? {
        var i := Target(s.items[k]);
        var calls := Calls(s.live, |s.nodes|, i, i + 1);
        assert Kept(s, step) + [Alive(i, s.items[k].src)] + calls
               == Kept(s, step) + ([Alive(i, s.items[k].src)] + calls);
      } else if s.items[k].Expiry? {
        var i := Target(s.items[k]);
        var calls := Calls(s.live, |s.nodes|, i, i + 1);
        assert Kept(s, step) + calls + [Clear(i)] == Kept(s, step) + (calls + [Clear(i)]);
      }
    case Timeout(_) =>
    case Leave(_) =>
  }

  lemma StepKeeps(s: Cluster, step: Step)
    requires Enabled(s, step)
    ensures forall m :: m in s.items <==> m in Kept(s, step) || (step.Take? && m == s.items[step.k])
  {
    if step.Take? { Removed(s.items, step.k); }
  }

  /** Only the highest live node can time out without a leader. */
  lemma OnlyHighestTimesOut(s: Cluster, starters: set<int>, highest: int, i: int)
    requires Inv(s, |s.nodes|, starters, highest) && Enabled(s, Timeout(i)) && s.nodes[i].leaderId == -1
    ensures i == highest
  {
    assert Beaten(s, highest, i) && NodeOk(s, highest, i);
    assert !Covered(s.items, highest, i);
  }

  lemma TakingAdds(s: Cluster, k: nat, s': Cluster, starters: set<int>, highest: int, m: Item)
    requires Inv(s, |s.nodes|, starters, highest) && Moves(s, Take(k), s') && m in AddedBy(s, Take(k))
    ensures ItemOk(s', starters, highest, m) && !m.Victory?
  {
    var i := Target(s.items[k]);
    assert ItemOk(s, starters, highest, s.items[k]);
    CallsElements(s.live, |s.nodes|, i, i + 1);
  }

  lemma TimeoutAdds(s: Cluster, i: int, s': Cluster, starters: set<int>, highest: int, m: Item)
    requires Inv(s, |s.nodes|, starters, highest) && Moves(s, Timeout(i), s') && m in AddedBy(s, Timeout(i))
    ensures ItemOk(s', starters, highest, m)
  {
    OnlyHighestTimesOut(s, starters, highest, i);
    VictoriesElements(s.live, |s.nodes|, i, 0);
  }

  lemma AddedOk(s: Cluster, step: Step, s': Cluster, starters: set<int>, highest: int)
    requires Inv(s, |s.nodes|, starters, highest) && Moves(s, step, s')
    ensures forall m :: m in AddedBy(s, step) ==> ItemOk(s', starters, highest, m)
  {
    forall m | m in AddedBy(s, step) ensures ItemOk(s', starters, highest, m) {
      match step
      case Take(k) => TakingAdds(s, k, s', starters, highest, m);
      case Timeout(i) => TimeoutAdds(s, i, s', starters, highest, m);
    }
  }

  lemma DeclaredGrows(s: Cluster, step: Step, s': Cluster, i: int)
    requires Moves(s, step, s') && 0 <= i < |s.nodes|
    ensures |s'.nodes| == |s.nodes| && s'.nodes[i].declared >= s.nodes[i].declared
    ensures s.nodes[i].begun ==> s'.nodes[i].begun
  {
  }

  lemma ItemsStep(s: Cluster, step: Step, s': Cluster, starters: set<int>, highest: int)
    requires Inv(s, |s.nodes|, starters, highest) && Moves(s, step, s')
    ensures Static(s', |s.nodes|, starters, highest) && ItemsOk(s', starters, highest)
  {
    StepKeeps(s, step);
    AddedOk(s, step, s', starters, highest);
    forall m | m in Kept(s, step) ensures ItemOk(s', starters, highest, m) {
      assert ItemOk(s, starters, highest, m);
      if m.Victory? {
        DeclaredGrows(s, step, s', m.src);
      }
    }
  }

  /** The node a step happens at. */
  lemma OwnNode(s: Cluster, step: Step, s': Cluster, starters: set<int>, highest: int)
    requires Inv(s, |s.nodes|, starters, highest) && Moves(s, step, s')
    ensures var i := NodeOf(s, step); |s'.nodes| == |s.nodes| && NodeOk(s', highest, i)
  {
    var i := NodeOf(s, step);
    StepKeeps(s, step);
    DeclaredGrows(s, step, s', highest);
    assert NodeOk(s, highest, i);
    match step
    case Take(k) =>
      assert ItemOk(s, starters, highest, s.items[k]);
      assert s.items[k].Flag? ==> Expiry(i) in AddedBy(s, step);
      assert s.items[k].Expiry? ==> Clear(i) in AddedBy(s, step);
    case Timeout(_) =>
      if s.nodes[i].leaderId == -1 {
        OnlyHighestTimesOut(s, starters, highest, i);
      }
    case Leave(_) =>
  }

  lemma NodesStep(s: Cluster, step: Step, s': Cluster, starters: set<int>, highest: int)
    requires Inv(s, |s.nodes|, starters, highest) && Moves(s, step, s')
    requires Static(s', |s.nodes|, starters, highest)
    ensures NodesOk(s', starters, highest)
  {
    StepKeeps(s, step);
    DeclaredGrows(s, step, s', highest);
    OwnNode(s, step, s', starters, highest);
    forall i | 0 <= i < |s'.nodes| ensures NodeOk(s', highest, i) {
      assert NodeOk(s, highest, i);
    }
  }

  lemma CallsHighest(live: set<int>, n: int, highest: int, i: int)
    requires i < highest < n && highest in live
    ensures Election(i, highest) in Calls(live, n, i, i + 1)
  {
    CallsElements(live, n, i, i + 1);
  }

  /** The node an item happens at is still beaten: a restart calls the highest node anew, its ALIVE starts an aliveWait,
      and the other items but Clear leave the node with a leader or an ALIVE. */
  lemma ItemAnswers(s: Cluster, k: nat, starters: set<int>, highest: int)
    requires Inv(s, |s.nodes|, starters, highest) && Enabled(s, Take(k)) && Target(s.items[k]) < highest
    requires !s.items[k].Clear? && (s.items[k].Expiry? ==> s.nodes[s.items[k].node].leaderId == -1)
    ensures var e := NodeAfter(s, Take(k));
            e.aliveReceived || e.leaderId != -1 || Covered(AddedBy(s, Take(k)), highest, Target(s.items[k]))
  {
    var item, i := s.items[k], Target(s.items[k]);
    assert ItemOk(s, starters, highest, item);
    CallsHighest(s.live, |s.nodes|, highest, i);
    var calls := Calls(s.live, |s.nodes|, i, i + 1);
    match item
    case Start(_) => assert AddedBy(s, Take(k)) == calls;
    case Election(src, _) => CoveredMore([Alive(i, src)], calls, highest, i);
    case Alive(src, _) => assert Flag(i) in [Flag(i)];
    case Flag(_) =>
    case Expiry(_) => assert Election(i, highest) in calls + [Clear(i)];
    case Victory(_, _) =>
  }

  lemma CoveredMore(a: seq<Item>, b: seq<Item>, highest: int, i: int)
    requires Covered(b, highest, i)
    ensures Covered(a + b, highest, i)
  {
  }

  /** The node is beaten after the item exactly when it was not the flag that held it back that was cleared. */
  lemma TakerBeaten(s: Cluster, k: nat, s': Cluster, starters: set<int>, highest: int)
    requires Inv(s, |s.nodes|, starters, highest) && Moves(s, Take(k), s')
    ensures Beaten(s', highest, Target(s.items[k])) <==> Harmless(s, Take(k), highest)
  {
    var item, i := s.items[k], Target(s.items[k]);
    assert Beaten(s, highest, i);
    if i < highest {
      if item.Clear? {
        ClearBeaten(s, k, s', highest);
      } else if item.Expiry? && s.nodes[i].leaderId != -1 {
        assert NodeAfter(s, Take(k)) == s.nodes[i];
      } else {
        ItemAnswers(s, k, starters, highest);
        if Covered(AddedBy(s, Take(k)), highest, i) {
          CoveredMore(Kept(s, Take(k)), AddedBy(s, Take(k)), highest, i);
        }
      }
    }
  }

  lemma ClearBeaten(s: Cluster, k: nat, s': Cluster, highest: int)
    requires Moves(s, Take(k), s') && s.items[k].Clear? && s.items[k].node < highest
             && Beaten(s, highest, s.items[k].node)
    ensures Beaten(s', highest, s.items[k].node) <==> Harmless(s, Take(k), highest)
  {
    Removed(s.items, k);
    assert s'.items == Kept(s, Take(k));
  }

  lemma OwnBeaten(s: Cluster, step: Step, s': Cluster, starters: set<int>, highest: int)
    requires Inv(s, |s.nodes|, starters, highest) && Moves(s, step, s')
    ensures |s'.nodes| == |s.nodes| && (Beaten(s', highest, NodeOf(s, step)) <==> Harmless(s, step, highest))
  {
    if step.Take? {
      TakerBeaten(s, step.k, s', starters, highest);
    } else {
      assert Beaten(s, highest, NodeOf(s, step));
    }
  }

  lemma BeatenStep(s: Cluster, step: Step, s': Cluster, starters: set<int>, highest: int)
    requires Inv(s, |s.nodes|, starters, highest) && Moves(s, step, s')
    ensures AllBeaten(s', highest) <==> Harmless(s, step, highest)
  {
    OwnBeaten(s, step, s', starters, highest);
    forall i | 0 <= i < |s'.nodes| && i != NodeOf(s, step) ensures Beaten(s', highest, i) {
      StepKeeps(s, step);
      assert Beaten(s, highest, i);
      assert step.Take? ==> Target(s.items[step.k]) != i;
    }
  }

  lemma NoStartAdded(s: Cluster, step: Step, i: int)
    requires Enabled(s, step)
    ensures Start(i) !in AddedBy(s, step)
  {
    CallsElements(s.live, |s.nodes|, NodeOf(s, step), NodeOf(s, step) + 1);
    VictoriesElements(s.live, |s.nodes|, NodeOf(s, step), 0);
  }

  lemma StartsKept(s: Cluster, step: Step, s': Cluster, i: int)
    requires Moves(s, step, s')
    ensures multiset(s'.items)[Start(i)] + Ones(step.Take? && s.items[step.k] == Start(i))
            == multiset(s.items)[Start(i)]
  {
    NoStartAdded(s, step, i);
    assert multiset(s'.items) == multiset(Kept(s, step)) + multiset(AddedBy(s, step));
    if step.Take? {
      Removed(s.items, step.k);
    }
  }

  lemma OnceStep(s: Cluster, step: Step, s': Cluster, starters: set<int>, highest: int)
    requires Inv(s, |s.nodes|, starters, highest) && Moves(s, step, s')
    ensures |s'.nodes| == |s.nodes| && Once(s', starters, highest)
  {
    StartsKept(s, step, s', highest);
    assert NodeOk(s, highest, highest);
  }

  /** The invariant survives a step if and only if the step is harmless. */
  lemma InvStepIff(s: Cluster, step: Step, s': Cluster, n: int, starters: set<int>, highest: int)
    requires Inv(s, n, starters, highest) && Enabled(s, step) && s' == Apply(s, step)
    ensures |s'.nodes| == n && (Inv(s', n, starters, highest) <==> Harmless(s, step, highest))
    ensures AllBeaten(s', highest) <==> Harmless(s, step, highest)
  {
    StepMoves(s, step);
    ItemsStep(s, step, s', starters, highest);
    NodesStep(s, step, s', starters, highest);
    BeatenStep(s, step, s', starters, highest);
    OnceStep(s, step, s', starters, highest);
  }

  lemma {:induction false} StartsElements(starters: set<int>, n: int)
    ensures forall m :: m in Starts(starters, n) <==> m.Start? && 0 <= m.node < n && m.node in starters
  {
    if n > 0 {
      StartsElements(starters, n - 1);
    }
  }

  lemma {:induction false} StartsOnce(starters: set<int>, n: int, i: int)
    ensures multiset(Starts(starters, n))[Start(i)] == Ones(0 <= i < n && i in starters)
  {
    if n > 0 {
      StartsOnce(starters, n - 1, i);
    }
  }

  ghost predicate HarmlessAt(states: seq<Cluster>, steps: seq<Step>, highest: int, i: int)
    requires |states| == |steps| + 1 && 0 <= i < |steps|
  {
    Enabled(states[i], steps[i]) && Harmless(states[i], steps[i], highest)
  }

  /** Every step before k is harmless. */
  ghost predicate HarmlessSoFar(states: seq<Cluster>, steps: seq<Step>, highest: int, k: int)
    requires |states| == |steps| + 1 && 0 <= k <= |steps|
  {
    forall i {:trigger HarmlessAt(states, steps, highest, i)} :: 0 <= i < k ==> HarmlessAt(states, steps, highest, i)
  }

  lemma InvStarts(s: Cluster, n: nat, live: set<int>, starters: set<int>, highest: int)
    requires Initial(s, n, live, starters)
    requires starters <= live && highest in live && (forall x :: x in live ==> 0 <= x < n && x <= highest)
    ensures Inv(s, n, starters, highest)
  {
    StartsElements(starters, n);
    StartsOnce(starters, n, highest);
  }

  lemma {:induction false} InvHolds(n: nat, live: set<int>, starters: set<int>, highest: int, states: seq<Cluster>,
                                    steps: seq<Step>, k: nat)
    requires IsRun(n, live, starters, highest, states, steps) && k <= |steps|
             && HarmlessSoFar(states, steps, highest, k)
    ensures Inv(states[k], n, starters, highest)
  {
    if k == 0 {
      InvStarts(states[0], n, live, starters, highest);
    } else {
      InvHolds(n, live, starters, highest, states, steps, k - 1);
      assert StepAt(states, steps, k - 1) && HarmlessAt(states, steps, highest, k - 1);
      InvStepIff(states[k - 1], steps[k - 1], states[k], n, starters, highest);
    }
  }

  ghost predicate BeatenAt(states: seq<Cluster>, highest: int, i: int)
    requires 0 <= i < |states|
  {
    AllBeaten(states[i], highest)
  }

  lemma CoveredIsHarmless(n: nat, live: set<int>, starters: set<int>, highest: int, states: seq<Cluster>,
                          steps: seq<Step>, k: nat)
    requires IsRun(n, live, starters, highest, states, steps) && k < |steps|
    requires HarmlessSoFar(states, steps, highest, k) && BeatenAt(states, highest, k + 1)
    ensures HarmlessAt(states, steps, highest, k)
  {
    InvHolds(n, live, starters, highest, states, steps, k);
    assert StepAt(states, steps, k);
    InvStepIff(states[k], steps[k], states[k + 1], n, starters, highest);
  }

  /** Exactly when the covering invariant holds: up to state k every live node below the highest one that has
      broadcast has a leader, has heard an ALIVE, or has an answer of the highest node on its way, if and only if no
      aliveWait thread has cleared the flag that alone held its node back. */
  lemma {:induction false} CoveredIff(n: nat, live: set<int>, starters: set<int>, highest: int, states: seq<Cluster>,
                                      steps: seq<Step>, k: nat)
    requires IsRun(n, live, starters, highest, states, steps) && k <= |steps|
    ensures (forall i {:trigger BeatenAt(states, highest, i)} :: 0 <= i <= k ==> BeatenAt(states, highest, i))
            <==> HarmlessSoFar(states, steps, highest, k)
  {
    if HarmlessSoFar(states, steps, highest, k) {
      forall i | 0 <= i <= k ensures BeatenAt(states, highest, i) {
        InvHolds(n, live, starters, highest, states, steps, i);
      }
    }
    if forall i {:trigger BeatenAt(states, highest, i)} :: 0 <= i <= k ==> BeatenAt(states, highest, i) {
      if k > 0 {
        CoveredIff(n, live, starters, highest, states, steps, k - 1);
        assert BeatenAt(states, highest, k);
        CoveredIsHarmless(n, live, starters, highest, states, steps, k - 1);
      }
    }
  }

  // ---------------------------------------------------------------------------
  // Told

  lemma ToldOnVictory(s: Cluster, i: int, s': Cluster, starters: set<int>, highest: int)
    requires Inv(s, |s.nodes|, starters, highest) && Moves(s, Timeout(i), s')
    requires s.nodes[highest].declared == 0 && Told(s, highest)
    ensures |s'.nodes| == |s.nodes| && Told(s', highest)
  {
    NoClear(s, starters, highest);
    if s.nodes[i].leaderId == -1 {
      OnlyHighestTimesOut(s, starters, highest, i);
      VictoriesElements(s.live, |s.nodes|, i, 0);
    }
  }

  /** Before victory nobody that has broadcast has a leader. */
  lemma NoClear(s: Cluster, starters: set<int>, highest: int)
    requires Inv(s, |s.nodes|, starters, highest) && Told(s, highest) && s.nodes[highest].declared == 0
    ensures forall i :: Clear(i) !in s.items
    ensures forall i :: 0 <= i < |s.nodes| && s.nodes[i].begun ==> s.nodes[i].leaderId == -1
  {
    forall i | 0 <= i < |s.nodes| && s.nodes[i].begun ensures s.nodes[i].leaderId == -1 {
      assert NodeOk(s, highest, i);
    }
    forall i ensures Clear(i) !in s.items {
      assert Clear(i) in s.items ==> ItemOk(s, starters, highest, Clear(i));
    }
  }

  /** After victory only a Clear is added, for a node that knows. */
  lemma NothingAdded(s: Cluster, step: Step, starters: set<int>, highest: int)
    requires Inv(s, |s.nodes|, starters, highest) && Told(s, highest) && s.nodes[highest].declared > 0
    requires Enabled(s, step) && Prompt(s, step)
    ensures AddedBy(s, step) == if step.Take? && s.items[step.k].Expiry? then [Clear(s.items[step.k].node)] else []
  {
    assert NodeOk(s, highest, highest);
    if step.Take? {
      assert !Urgent(s.items[step.k]);
    }
    if step.Timeout? && s.nodes[step.node].leaderId == -1 {
      OnlyHighestTimesOut(s, starters, highest, step.node);
    }
  }

  lemma ToldAfterVictory(s: Cluster, step: Step, s': Cluster, starters: set<int>, highest: int)
    requires Inv(s, |s.nodes|, starters, highest) && Told(s, highest) && s.nodes[highest].declared > 0
    requires Moves(s, step, s') && Prompt(s, step)
    ensures |s'.nodes| == |s.nodes| && Told(s', highest)
  {
    StepKeeps(s, step);
    NothingAdded(s, step, starters, highest);
    if step.Take? {
      assert ItemOk(s, starters, highest, s.items[step.k]) && !Urgent(s.items[step.k]);
    }
    assert NodeOk(s, highest, NodeOf(s, step));
  }

  lemma ToldStep(s: Cluster, step: Step, s': Cluster, starters: set<int>, highest: int)
    requires Inv(s, |s.nodes|, starters, highest) && Told(s, highest)
    requires Moves(s, step, s') && Prompt(s, step)
    ensures |s'.nodes| == |s.nodes| && Told(s', highest)
  {
    if s.nodes[highest].declared > 0 {
      ToldAfterVictory(s, step, s', starters, highest);
    } else if step.Timeout? {
      ToldOnVictory(s, step.node, s', starters, highest);
    } else {
      NoClear(s, starters, highest);
      NoClearAdded(s, step, starters, highest);
      StepKeeps(s, step);
    }
  }

  lemma NoClearAdded(s: Cluster, step: Step, starters: set<int>, highest: int)
    requires Inv(s, |s.nodes|, starters, highest) && Told(s, highest) && s.nodes[highest].declared == 0
    requires Enabled(s, step) && Prompt(s, step)
    ensures forall i :: Clear(i) !in AddedBy(s, step)
  {
    NoClear(s, starters, highest);
    if step.Take? {
      assert ItemOk(s, starters, highest, s.items[step.k]);
    }
    CallsElements(s.live, |s.nodes|, NodeOf(s, step), NodeOf(s, step) + 1);
    VictoriesElements(s.live, |s.nodes|, NodeOf(s, step), 0);
  }

  /** A prompt step is harmless: a thread that clears the flag found the leader, and no ELECTION comes after it. */
  lemma PromptIsHarmless(s: Cluster, step: Step, starters: set<int>, highest: int)
    requires Inv(s, |s.nodes|, starters, highest) && Told(s, highest) && Enabled(s, step)
    ensures Harmless(s, step, highest)
  {
    if step.Take? {
      assert s.items[step.k] in s.items;
    }
  }

  lemma BothStep(s: Cluster, step: Step, s': Cluster, n: int, starters: set<int>, highest: int)
    requires Inv(s, n, starters, highest) && Told(s, highest)
    requires Enabled(s, step) && Prompt(s, step) && s' == Apply(s, step)
    ensures Inv(s', n, starters, highest) && Told(s', highest)
  {
    StepMoves(s, step);
    PromptIsHarmless(s, step, starters, highest);
    InvStepIff(s, step, s', n, starters, highest);
    ToldStep(s, step, s', starters, highest);
  }

  lemma {:induction false} ToldHolds(n: nat, live: set<int>, starters: set<int>, highest: int, states: seq<Cluster>,
                                     steps: seq<Step>, k: nat)
    requires IsRun(n, live, starters, highest, states, steps) && PromptRun(states, steps) && k <= |steps|
    ensures Inv(states[k], n, starters, highest) && Told(states[k], highest)
  {
    if k == 0 {
      InvStarts(states[0], n, live, starters, highest);
      StartsElements(starters, n);
    } else {
      ToldHolds(n, live, starters, highest, states, steps, k - 1);
      assert StepAt(states, steps, k - 1);
      BothStep(states[k - 1], steps[k - 1], states[k], n, starters, highest);
    }
  }

  lemma PromptRunIsHarmless(n: nat, live: set<int>, starters: set<int>, highest: int, states: seq<Cluster>,
                            steps: seq<Step>)
    requires IsRun(n, live, starters, highest, states, steps) && PromptRun(states, steps)
    ensures HarmlessSoFar(states, steps, highest, |steps|)
  {
    forall i | 0 <= i < |steps| ensures HarmlessAt(states, steps, highest, i) {
      ToldHolds(n, live, starters, highest, states, steps, i);
      assert StepAt(states, steps, i);
      PromptIsHarmless(states[i], steps[i], starters, highest);
    }
  }

  // ---------------------------------------------------------------------------
  // The leader of before

  /** A node that has not broadcast has the leader it had, or has heard of the new one. */
  ghost predicate OldLeader(start: Cluster, s: Cluster, highest: int, i: int)
    requires |start.nodes| == |s.nodes| && 0 <= i < |s.nodes| && 0 <= highest < |s.nodes|
  {
    !s.nodes[i].begun ==>
      || s.nodes[i].leaderId == start.nodes[i].leaderId
      || (s.nodes[i].leaderId == highest && s.nodes[highest].declared > 0)
  }

  ghost predicate OldLeaders(start: Cluster, s: Cluster, highest: int) {
    && |start.nodes| == |s.nodes| && 0 <= highest < |s.nodes|
    && forall i :: 0 <= i < |s.nodes| ==> OldLeader(start, s, highest, i)
  }

  lemma OldLeaderStep(start: Cluster, s: Cluster, step: Step, s': Cluster, starters: set<int>, highest: int)
    requires Inv(s, |s.nodes|, starters, highest) && OldLeaders(start, s, highest) && Moves(s, step, s')
    ensures OldLeaders(start, s', highest)
  {
    DeclaredGrows(s, step, s', highest);
    forall i | 0 <= i < |s'.nodes| ensures OldLeader(start, s', highest, i) {
      assert OldLeader(start, s, highest, i) && NodeOk(s, highest, i);
      if step.Take? {
        assert ItemOk(s, starters, highest, s.items[step.k]);
      }
    }
  }

  lemma {:induction false} OldLeaderHolds(n: nat, live: set<int>, starters: set<int>, highest: int,
                                          states: seq<Cluster>, steps: seq<Step>, k: nat)
    requires IsRun(n, live, starters, highest, states, steps) && k <= |steps|
             && HarmlessSoFar(states, steps, highest, k)
    ensures OldLeaders(states[0], states[k], highest)
  {
    if k > 0 {
      OldLeaderHolds(n, live, starters, highest, states, steps, k - 1);
      InvHolds(n, live, starters, highest, states, steps, k - 1);
      assert StepAt(states, steps, k - 1);
      StepMoves(states[k - 1], steps[k - 1]);
      OldLeaderStep(states[0], states[k - 1], steps[k - 1], states[k], starters, highest);
    }
  }

  /** Node i or one below it calls startElection. */
  predicate Reached(starters: set<int>, i: int) {
    exists j :: j in starters && j <= i
  }

  /** Who broadcasts: an election spreads from those that start it to all live nodes above, and to no others. */
  ghost predicate Spread(s: Cluster, starters: set<int>) {
    && (forall j :: j in starters && 0 <= j < |s.nodes| ==> s.nodes[j].begun || Start(j) in s.items)
    && (forall i, j :: 0 <= j < i < |s.nodes| && i in s.live && s.nodes[j].begun ==>
          s.nodes[i].begun || Election(j, i) in s.items)
    && (forall i :: 0 <= i < |s.nodes| && s.nodes[i].begun ==> Reached(starters, i))
  }

  /** A step that makes its node broadcast for the first time calls everybody above it. */
  lemma BeginnerCalls(s: Cluster, step: Step, s': Cluster, starters: set<int>, highest: int)
    requires Inv(s, |s.nodes|, starters, highest) && Moves(s, step, s')
    requires var i := NodeOf(s, step); !s.nodes[i].begun && s'.nodes[i].begun
    ensures forall x :: NodeOf(s, step) < x < |s.nodes| && x in s.live ==> Election(NodeOf(s, step), x) in s'.items
    ensures step.Take? && (s.items[step.k].Start? || s.items[step.k].Election?)
  {
    var i := NodeOf(s, step);
    assert NodeOk(s, highest, i) && ItemOk(s, starters, highest, s.items[step.k]);
    CallsElements(s.live, |s.nodes|, i, i + 1);
  }

  lemma SpreadStep(s: Cluster, step: Step, s': Cluster, starters: set<int>, highest: int)
    requires Inv(s, |s.nodes|, starters, highest) && Spread(s, starters) && Moves(s, step, s')
    ensures Spread(s', starters)
  {
    var own := NodeOf(s, step);
    StepKeeps(s, step);
    if step.Take? {
      assert ItemOk(s, starters, highest, s.items[step.k]);
    }
    if !s.nodes[own].begun && s'.nodes[own].begun {
      BeginnerCalls(s, step, s', starters, highest);
    }
  }

  lemma {:induction false} SpreadHolds(n: nat, live: set<int>, starters: set<int>, highest: int,
                                       states: seq<Cluster>, steps: seq<Step>, k: nat)
    requires IsRun(n, live, starters, highest, states, steps) && k <= |steps|
             && HarmlessSoFar(states, steps, highest, k)
    ensures Spread(states[k], starters)
  {
    if k == 0 {
      StartsElements(starters, n);
    } else {
      SpreadHolds(n, live, starters, highest, states, steps, k - 1);
      InvHolds(n, live, starters, highest, states, steps, k - 1);
      assert StepAt(states, steps, k - 1);
      StepMoves(states[k - 1], steps[k - 1]);
      SpreadStep(states[k - 1], steps[k - 1], states[k], starters, highest);
    }
  }

  // ---------------------------------------------------------------------------
  // Agreement

  /** At every moment of every run in which no aliveWait thread clears the flag that alone holds its node back, as in
      every prompt run: no node but the highest live one has declared victory, that one at most once, and only if it
      called startElection; a node keeps the leader it had until it broadcasts, then it has none, and nobody but the
      highest ever becomes a leader anew; every ELECTION in flight goes up and every ALIVE down; and a node below the
      highest that has broadcast has a leader, has heard an ALIVE, or has an answer of the highest on its way. */
  lemma OnlyTheHighestWins(n: nat, live: set<int>, starters: set<int>, highest: int, states: seq<Cluster>,
                           steps: seq<Step>, k: nat, i: nat)
    requires IsRun(n, live, starters, highest, states, steps) && k <= |steps| && i < n
    requires HarmlessSoFar(states, steps, highest, k)
    ensures |states[k].nodes| == n
    ensures states[k].nodes[i].declared <= (if i == highest && highest in starters then 1 else 0)
    ensures |states[0].nodes| == n
    ensures states[k].nodes[i].begun ==> states[k].nodes[i].leaderId in {-1, highest}
    ensures !states[k].nodes[i].begun ==> states[k].nodes[i].leaderId in {states[0].nodes[i].leaderId, highest}
    ensures states[k].nodes[i].begun || states[0].nodes[i].leaderId != highest ==>
            states[k].nodes[i].leaderId == highest ==> states[k].nodes[highest].declared == 1
    ensures forall m :: m in states[k].items && m.Election? ==> m.src < m.dst
    ensures forall m :: m in states[k].items && m.Alive? ==> m.src > m.dst
    ensures states[k].nodes[i].begun && i < highest ==>
      states[k].nodes[i].aliveReceived || states[k].nodes[i].leaderId != -1 || Covered(states[k].items, highest, i)
  {
    var s := states[k];
    InvHolds(n, live, starters, highest, states, steps, k);
    OldLeaderHolds(n, live, starters, highest, states, steps, k);
    assert NodeOk(s, highest, i) && Beaten(s, highest, i) && OldLeader(states[0], s, highest, i);
    assert forall m :: m in s.items ==> ItemOk(s, starters, highest, m);
  }

  /** A node waits only after it has broadcast. */
  ghost predicate WaitersBegan(s: Cluster) {
    forall i :: 0 <= i < |s.nodes| && s.nodes[i].waiting ==> s.nodes[i].begun
  }

  lemma {:induction false} WaitersHaveBegun(n: nat, live: set<int>, starters: set<int>, highest: int,
                                            states: seq<Cluster>, steps: seq<Step>, k: nat)
    requires IsRun(n, live, starters, highest, states, steps) && k <= |steps|
    ensures |states[k].nodes| == n && WaitersBegan(states[k])
  {
    if k > 0 {
      WaitersHaveBegun(n, live, starters, highest, states, steps, k - 1);
      assert StepAt(states, steps, k - 1);
      StepMoves(states[k - 1], steps[k - 1]);
    }
  }

  /** Who else declares, in every run and however early an aliveWait thread expires: a node below the highest live one
      declares victory in a step if and only if its waitForVictory times out in that step while nothing holds it back
      any more: it has heard no ALIVE, knows no leader, and no answer of the highest node is on its way. */
  lemma LowerDeclaresIff(n: nat, live: set<int>, starters: set<int>, highest: int,
                         states: seq<Cluster>, steps: seq<Step>, k: nat, i: nat)
    requires IsRun(n, live, starters, highest, states, steps) && k < |steps| && i < highest
    ensures i < |states[k].nodes| && i < |states[k + 1].nodes|
    ensures states[k + 1].nodes[i].declared > states[k].nodes[i].declared
            <==> steps[k] == Timeout(i) && !Beaten(states[k], highest, i)
  {
    WaitersHaveBegun(n, live, starters, highest, states, steps, k);
    assert StepAt(states, steps, k);
    StepMoves(states[k], steps[k]);
  }

  lemma AtRest(s: Cluster, starters: set<int>, highest: int)
    requires Inv(s, |s.nodes|, starters, highest) && Quiescent(s)
    ensures forall m :: m in s.items ==> m.Expiry?
    ensures s.items != [] ==> exists i :: i in s.live && 0 <= i < |s.nodes| && s.nodes[i].leaderId == -1
  {
    forall k | 0 <= k < |s.items|
      ensures s.items[k].Expiry? && s.items[k].node in s.live && s.nodes[s.items[k].node].leaderId == -1
    {
      assert ItemOk(s, starters, highest, s.items[k]);
      assert !Possible(s, Take(k));
    }
  }

  /** When an election is over exactly the live nodes from the lowest starter on have broadcast. */
  lemma WhoBroadcast(s: Cluster, starters: set<int>, highest: int, i: int)
    requires Inv(s, |s.nodes|, starters, highest) && Spread(s, starters) && Quiescent(s) && 0 <= i < |s.nodes|
    ensures s.nodes[i].begun <==> i in s.live && Reached(starters, i)
  {
    AtRest(s, starters, highest);
    assert NodeOk(s, highest, i);
    if i in s.live && Reached(starters, i) {
      var j :| j in starters && j <= i;
      assert Start(j) !in s.items && Election(j, i) !in s.items;
    }
  }

  /** Whoever was the leader before, a prompt run comes to rest with a new one exactly when the highest live node called
      startElection. That node has then declared victory, every live node follows it, and nothing of the election is
      left: no message, no wait. Otherwise the live nodes from the lowest starter on are left without a leader, and the
      others with the one they had. */
  lemma Agreement(n: nat, live: set<int>, starters: set<int>, highest: int, states: seq<Cluster>, steps: seq<Step>)
    requires IsRun(n, live, starters, highest, states, steps) && PromptRun(states, steps)
    requires Quiescent(states[|steps|])
    ensures var s := states[|steps|];
      && |s.nodes| == n && 0 <= highest < n
      && (highest in starters ==>
            && s.nodes[highest].declared == 1 && s.items == []
            && forall i :: i in live && 0 <= i < n ==>
               s.nodes[i].leaderId == highest && !s.nodes[i].waiting && !s.nodes[i].aliveReceived)
      && |states[0].nodes| == n
      && (highest !in starters ==> forall i :: 0 <= i < n ==>
            && s.nodes[i].declared == 0
            && s.nodes[i].leaderId == if i in live && Reached(starters, i) then -1 else states[0].nodes[i].leaderId)
  {
    var s := states[|steps|];
    RunCost(n, live, starters, highest, states, steps, |steps|);
    ToldHolds(n, live, starters, highest, states, steps, |steps|);
    AtRest(s, starters, highest);
    assert NodeOk(s, highest, highest);
    if highest in starters {
      assert !Possible(s, Timeout(highest));
      assert Start(highest) !in s.items;
      assert s.nodes[highest].declared == 1;
      forall i | i in live && 0 <= i < n ensures s.nodes[i].leaderId == highest {
        assert Victory(highest, i) !in s.items;
      }
      forall i | 0 <= i < n ensures !s.nodes[i].waiting && !s.nodes[i].aliveReceived {
        assert NodeOk(s, highest, i);
        assert !Possible(s, Leave(i));
      }
    } else {
      PromptRunIsHarmless(n, live, starters, highest, states, steps);
      OldLeaderHolds(n, live, starters, highest, states, steps, |steps|);
      SpreadHolds(n, live, starters, highest, states, steps, |steps|);
      forall i | 0 <= i < n
        ensures s.nodes[i].declared == 0
        ensures s.nodes[i].leaderId == if i in live && Reached(starters, i) then -1 else states[0].nodes[i].leaderId
      {
        WhoBroadcast(s, starters, highest, i);
        assert NodeOk(s, highest, i) && OldLeader(states[0], s, highest, i);
      }
    }
  }

  // ---------------------------------------------------------------------------
  // A false victory

  lemma RunMore(n: nat, live: set<int>, starters: set<int>, highest: int, states: seq<Cluster>, steps: seq<Step>,
                step: Step, s': Cluster)
    requires IsRun(n, live, starters, highest, states, steps) && Enabled(states[|steps|], step)
             && s' == Apply(states[|steps|], step)
    ensures IsRun(n, live, starters, highest, states + [s'], steps + [step])
  {
    var states', steps' := states + [s'], steps + [step];
    forall i | 0 <= i < |steps'| ensures StepAt(states', steps', i) {
      if i < |steps| {
        assert StepAt(states, steps, i);
      }
    }
  }

  /** What can be reached with nodes 0 and 1 up, of which 0 has called startElection. */
  ghost predicate Reachable(s: Cluster) {
    exists states, steps :: IsRun(2, {0, 1}, {0}, 1, states, steps) && states[|steps|] == s
  }

  lemma ReachNext(s: Cluster, step: Step, s': Cluster)
    requires Reachable(s) && Enabled(s, step) && s' == Apply(s, step)
    ensures Reachable(s')
  {
    var states, steps :| IsRun(2, {0, 1}, {0}, 1, states, steps) && states[|steps|] == s;
    RunMore(2, {0, 1}, {0}, 1, states, steps, step, s');
    assert (states + [s'])[|steps + [step]|] == s';
  }

  function Pair(alive: bool, declared: nat, begun: bool, items: seq<Item>, sent: nat): Cluster {
    Cluster({0, 1}, [Elector(if declared > 0 then 0 else -1, alive, declared == 0, true, declared),
                     IDLE.(begun := begun)], items, sent)
  }

  lemma PairCalls()
    ensures Starts({0}, 2) == [Start(0)]
    ensures Calls({0, 1}, 2, 0, 1) == [Election(0, 1)] && Calls({0, 1}, 2, 1, 2) == []
  {
  }

  lemma Called()
    ensures Reachable(Pair(false, 0, false, [Election(0, 1)], 1))
  {
    PairCalls();
    var s := Cluster({0, 1}, [IDLE, IDLE], Starts({0}, 2), 0);
    assert IsRun(2, {0, 1}, {0}, 1, [s], []) && [s][0] == s;
    ReachNext(s, Take(0), Pair(false, 0, false, [Election(0, 1)], 1));
  }

  /** Node 1 answers, and an aliveWait thread of node 0 sets the flag. */
  lemma Answers(rest: seq<Item>, begun: bool, sent: nat)
    requires rest == [] || rest == [Clear(0)]
    requires Reachable(Pair(false, 0, begun, [Election(0, 1)] + rest, sent))
    ensures Reachable(Pair(true, 0, true, rest + [Expiry(0)], sent))
  {
    PairCalls();
    var s, s1 := Pair(false, 0, begun, [Election(0, 1)] + rest, sent), Pair(false, 0, true, rest + [Alive(1, 0)], sent);
    assert Without(s.items, 0) == rest && rest + [Alive(1, 0)] + [] == rest + [Alive(1, 0)];
    ReachNext(s, Take(0), s1);
    Flagged(rest, sent);
  }

  lemma Flagged(rest: seq<Item>, sent: nat)
    requires Reachable(Pair(false, 0, true, rest + [Alive(1, 0)], sent))
    ensures Reachable(Pair(true, 0, true, rest + [Expiry(0)], sent))
  {
    var s, s1 := Pair(false, 0, true, rest + [Alive(1, 0)], sent), Pair(false, 0, true, rest + [Flag(0)], sent);
    assert Without(s.items, |rest|) == rest && Without(s1.items, |rest|) == rest;
    ReachNext(s, Take(|rest|), s1);
    ReachNext(s1, Take(|rest|), Pair(true, 0, true, rest + [Expiry(0)], sent));
  }

  /** Node 0 has broadcast and node 1 has answered; the aliveWait thread of node 0 wakes up without a leader and
      broadcasts again, and before it clears the flag node 1 has answered that too. */
  lemma AnsweredAgain()
    ensures Reachable(Pair(true, 0, true, [Clear(0), Expiry(0)], 2))
  {
    Called();
    assert [Election(0, 1)] + [] == [Election(0, 1)] && [] + [Expiry(0)] == [Expiry(0)];
    Answers([], false, 1);
    PairCalls();
    var s, s1 := Pair(true, 0, true, [Expiry(0)], 1), Pair(false, 0, true, [Election(0, 1)] + [Clear(0)], 2);
    ReachNext(s, Take(0), s1);
    Answers([Clear(0)], true, 2);
    assert [Clear(0)] + [Expiry(0)] == [Clear(0), Expiry(0)];
  }

  /** Why a harmless run is asked for: the flag of the second answer is cleared by the thread of the first, and after
      two seconds node 0 declares victory although node 1 is up. */
  lemma FalseVictory() returns (s: Cluster)
    ensures Reachable(s)
    ensures s.live == {0, 1} && |s.nodes| == 2 && s.nodes[0].declared == 1 && s.nodes[0].leaderId == 0
  {
    AnsweredAgain();
    var s1 := Pair(true, 0, true, [Clear(0), Expiry(0)], 2);
    var s2 := Pair(false, 0, true, [Expiry(0)], 2);
    ReachNext(s1, Take(0), s2);
    s := Apply(s2, Timeout(0));
    ReachNext(s2, Timeout(0), s);
  }
}

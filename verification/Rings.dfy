/** The two rings of src/manager/client-manager.cc: the exchange of ports at startup, and the shutdown chain. */
module Rings {
  import opened Messages

  function Next(i: int, n: int): int {
    if i + 1 == n then 0 else i + 1
  }

  /** The expression shutdownNeighbor uses. */
  lemma NextIsMod(i: int, n: int)
    requires 0 <= i < n
    ensures Next(i, n) == (i + 1) % n
  {
  }

  /** prevNodeId of sendPort. */
  function Prev(i: int, n: int): int {
    if i == 0 then n - 1 else i - 1
  }

  // ---------------------------------------------------------------------------
  // exchangePorts

  /** `sent`: its sendPort is over. `nextPort`: what its receivePort returned. `inbox`: PORT messages not yet
      received. */
  datatype Peer = Peer(sent: bool, nextPort: Option<string>, inbox: seq<string>)

  datatype Step = SendPort(i: int) | ReceivePort(i: int)

  /** Node 0 sends first and then receives; every other node receives first. */
  predicate Enabled(peers: seq<Peer>, step: Step) {
    && 0 <= step.i < |peers|
    && var p := peers[step.i];
    match step
    case SendPort(i) => !p.sent && (i == 0 || p.nextPort.Some?)
    case ReceivePort(i) => p.nextPort.None? && (i == 0 ==> p.sent) && p.inbox != []
  }

  function Apply(ports: seq<string>, peers: seq<Peer>, step: Step): seq<Peer>
    requires |ports| == |peers| && Enabled(peers, step)
  {
    var i := step.i;
    match step
    case SendPort(_) =>
      var to := Prev(i, |peers|);
      var peers1 := peers[i := peers[i].(sent := true)];
      peers1[to := peers1[to].(inbox := peers1[to].inbox + [ports[i]])]
    case ReceivePort(_) => peers[i := peers[i].(nextPort := Some(peers[i].inbox[0]), inbox := peers[i].inbox[1..])]
  }

  ghost predicate StepAt(ports: seq<string>, states: seq<seq<Peer>>, steps: seq<Step>, k: int)
    requires |states| == |steps| + 1 && 0 <= k < |steps|
  {
    && |states[k]| == |ports| && Enabled(states[k], steps[k])
    && states[k + 1] == Apply(ports, states[k], steps[k])
  }

  ghost predicate IsRun(ports: seq<string>, states: seq<seq<Peer>>, steps: seq<Step>) {
    && |ports| >= 2 && |states| == |steps| + 1 && states[0] == seq(|ports|, _ => Peer(false, None, []))
    && forall k {:trigger StepAt(ports, states, steps, k)} :: 0 <= k < |steps| ==> StepAt(ports, states, steps, k)
  }

  /** How many sends come before that of node i: 0 sends first, then n-1, n-2, and so on down to 1. */
  function SendOrder(i: int, n: int): int {
    if i == 0 then 0 else n - i
  }

  /** How many steps come before node i has received, counting its own. */
  function ReceivedAt(i: int, n: int): int {
    if i == 0 then 2 * n else 2 * (n - i)
  }

  /** Node i after `time` steps. */
  function PeerAt(ports: seq<string>, time: int, i: int): Peer
    requires 0 <= i < |ports|
  {
    var n := |ports|;
    var port := ports[Next(i, n)];
    Peer(time > 2 * SendOrder(i, n),
         if time >= ReceivedAt(i, n) then Some(port) else None,
         if time == ReceivedAt(i, n) - 1 then [port] else [])
  }

  ghost predicate AtTime(ports: seq<string>, peers: seq<Peer>, time: int) {
    |peers| == |ports| && forall i :: 0 <= i < |ports| ==> peers[i] == PeerAt(ports, time, i)
  }

  lemma NextOfPrev(i: int, n: int)
    requires 0 <= i < n
    ensures 0 <= Prev(i, n) < n && Next(Prev(i, n), n) == i
    ensures ReceivedAt(Prev(i, n), n) == 2 * SendOrder(i, n) + 2
  {
  }

  /** The whole system moves in lockstep, so a run can only go one way. */
  lemma OneWay(ports: seq<string>, peers: seq<Peer>, step: Step, time: nat)
    requires |ports| >= 2 && AtTime(ports, peers, time) && Enabled(peers, step)
    ensures time < 2 * |ports| && AtTime(ports, Apply(ports, peers, step), time + 1)
    ensures step.SendPort? ==> time == 2 * SendOrder(step.i, |ports|)
  {
    var n := |ports|;
    assert peers[step.i] == PeerAt(ports, time, step.i);
    NextOfPrev(step.i, n);
    forall j | 0 <= j < n
      ensures Apply(ports, peers, step)[j] == PeerAt(ports, time + 1, j)
    {
      assert peers[j] == PeerAt(ports, time, j);
    }
  }

  lemma {:induction false} Timed(ports: seq<string>, states: seq<seq<Peer>>, steps: seq<Step>, k: nat)
    requires IsRun(ports, states, steps) && k <= |steps|
    ensures k <= 2 * |ports| && AtTime(ports, states[k], k)
  {
    if k > 0 {
      Timed(ports, states, steps, k - 1);
      assert StepAt(ports, states, steps, k - 1);
      OneWay(ports, states[k - 1], steps[k - 1], k - 1);
    }
  }

  /** Until the exchange is over some step is possible. */
  lemma CanMove(ports: seq<string>, peers: seq<Peer>, time: nat)
    requires |ports| >= 2 && AtTime(ports, peers, time) && time < 2 * |ports|
    ensures exists step :: Enabled(peers, step)
  {
    var n := |ports|;
    var sender := if time / 2 == 0 then 0 else n - time / 2;
    assert peers[sender] == PeerAt(ports, time, sender);
    if time % 2 == 0 {
      assert Enabled(peers, SendPort(sender));
    } else {
      var receiver := Prev(sender, n);
      NextOfPrev(sender, n);
      assert peers[receiver] == PeerAt(ports, time, receiver);
      assert Enabled(peers, ReceivePort(receiver));
    }
  }

  /** The exchange takes exactly 2 n steps and cannot stop before; then every node holds the port of the next one. */
  lemma ExchangeCompletes(ports: seq<string>, states: seq<seq<Peer>>, steps: seq<Step>)
    requires IsRun(ports, states, steps)
    ensures |steps| <= 2 * |ports|
    ensures (forall step :: !Enabled(states[|steps|], step)) <==> |steps| == 2 * |ports|
    ensures |states[|steps|]| == |ports|
    ensures |steps| == 2 * |ports| ==> forall i :: 0 <= i < |ports| ==>
              states[|steps|][i] == Peer(true, Some(ports[Next(i, |ports|)]), [])
  {
    var last := states[|steps|];
    Timed(ports, states, steps, |steps|);
    if |steps| < 2 * |ports| {
      CanMove(ports, last, |steps|);
    } else {
      forall step ensures !Enabled(last, step) {
        if Enabled(last, step) {
          OneWay(ports, last, step, |steps|);
        }
      }
      forall i | 0 <= i < |ports| ensures last[i] == Peer(true, Some(ports[Next(i, |ports|)]), []) {
        assert last[i] == PeerAt(ports, |steps|, i);
      }
    }
  }

  /** The order in which node i does its part. */
  function Order(i: int): seq<Step> {
    if i == 0 then [SendPort(i), ReceivePort(i)] else [ReceivePort(i), SendPort(i)]
  }

  function StepsOf(steps: seq<Step>, i: int): seq<Step> {
    if steps == [] then []
    else StepsOf(steps[..|steps| - 1], i) + if steps[|steps| - 1].i == i then [steps[|steps| - 1]] else []
  }

  /** How much of it is done. */
  function Done(peer: Peer): nat {
    (if peer.sent then 1 else 0) + if peer.nextPort.Some? then 1 else 0
  }

  ghost predicate InOrder(peer: Peer, steps: seq<Step>, i: int) {
    steps == Order(i)[..Done(peer)] && (i == 0 && peer.nextPort.Some? ==> peer.sent)
    && (i != 0 && peer.sent ==> peer.nextPort.Some?)
  }

  lemma {:induction false} InOrderSoFar(ports: seq<string>, states: seq<seq<Peer>>, steps: seq<Step>, k: nat, i: int)
    requires IsRun(ports, states, steps) && k <= |steps| && 0 <= i < |ports|
    ensures |states[k]| == |ports| && InOrder(states[k][i], StepsOf(steps[..k], i), i)
  {
    if k > 0 {
      InOrderSoFar(ports, states, steps, k - 1, i);
      assert StepAt(ports, states, steps, k - 1);
      assert steps[..k][..k - 1] == steps[..k - 1];
      if steps[k - 1].i == i {
        OrderNext(states[k - 1][i], states[k][i], StepsOf(steps[..k - 1], i), steps[k - 1], i);
      }
    }
  }

  /** In every run each node sends and receives at most once, in its own order, and by the end of the exchange it has
      done both. */
  lemma OwnOrder(ports: seq<string>, states: seq<seq<Peer>>, steps: seq<Step>, i: int)
    requires IsRun(ports, states, steps) && 0 <= i < |ports|
    ensures StepsOf(steps, i) <= Order(i)
    ensures |steps| == 2 * |ports| ==> StepsOf(steps, i) == Order(i)
  {
    assert steps[..|steps|] == steps;
    InOrderSoFar(ports, states, steps, |steps|, i);
    ExchangeCompletes(ports, states, steps);
  }

  lemma OrderNext(peer: Peer, peer': Peer, steps: seq<Step>, step: Step, i: int)
    requires InOrder(peer, steps, i) && step.i == i
    requires if step.SendPort? then !peer.sent && (i == 0 || peer.nextPort.Some?)
             else peer.nextPort.None? && (i == 0 ==> peer.sent)
    requires peer'.sent == (peer.sent || step.SendPort?)
             && (peer'.nextPort.Some? <==> peer.nextPort.Some? || step.ReceivePort?)
    ensures InOrder(peer', steps + [step], i)
  {
  }

  /** Whoever sends finds the receiver already waiting for it and nothing else on the way, so the exchange does not
      depend on MPI_Send buffering the message. */
  lemma SendsMeetReceivers(ports: seq<string>, states: seq<seq<Peer>>, steps: seq<Step>, k: nat)
    requires IsRun(ports, states, steps) && k < |steps| && steps[k].SendPort?
    ensures |states[k]| == |ports| && 0 <= steps[k].i < |ports|
    ensures var to := Prev(steps[k].i, |ports|);
      to != steps[k].i && states[k][to].nextPort.None? && states[k][to].inbox == [] && (to == 0 ==> states[k][to].sent)
  {
    Timed(ports, states, steps, k);
    assert StepAt(ports, states, steps, k);
    OneWay(ports, states[k], steps[k], k);
    var to := Prev(steps[k].i, |ports|);
    NextOfPrev(steps[k].i, |ports|);
    assert states[k][to] == PeerAt(ports, k, to);
  }

  // ---------------------------------------------------------------------------
  // The shutdown chain

  /** `down` are the nodes that have left their receive loop, in order; `called` is the node SHUTDOWN is on its way
      to. */
  datatype Chain = Chain(down: seq<int>, called: Option<int>)

  /** The node that opened a port. */
  function Owner(ports: seq<string>, port: string): (i: int)
    requires port in ports
    ensures 0 <= i < |ports| && ports[i] == port
  {
    if ports[|ports| - 1] == port then |ports| - 1 else Owner(ports[..|ports| - 1], port)
  }

  ghost predicate Distinct(ports: seq<string>) {
    forall i, j :: 0 <= i < j < |ports| ==> ports[i] != ports[j]
  }

  /** Node i leaves its loop and runs shutdownNeighbor, `nextPorts` being what exchangePorts left. A node that is
      already down has closed its port and answers no more. */
  function ShutDown(ports: seq<string>, nextPorts: seq<string>, leaders: seq<int>, chain: Chain): Chain
    requires |ports| == |nextPorts| == |leaders| > 0 && forall i :: 0 <= i < |nextPorts| ==> nextPorts[i] in ports
  {
    match chain.called
    case None => chain
    case Some(i) =>
      if !(0 <= i < |ports|) || i in chain.down then chain
      else Chain(chain.down + [i],
                 if leaders[i] != Next(i, |ports|) then Some(Owner(ports, nextPorts[i])) else None)
  }

  function After(ports: seq<string>, nextPorts: seq<string>, leaders: seq<int>, first: int, k: nat): Chain
    requires |ports| == |nextPorts| == |leaders| > 0 && forall i :: 0 <= i < |nextPorts| ==> nextPorts[i] in ports
  {
    if k == 0 then Chain([], Some(first))
        else ShutDown(ports, nextPorts, leaders, After(ports, nextPorts, leaders, first, k - 1))
  }

  /** What the exchange leaves. */
  ghost predicate Exchanged(ports: seq<string>, nextPorts: seq<string>) {
    |nextPorts| == |ports| > 0 && Distinct(ports) && forall i :: 0 <= i < |ports| ==>
        nextPorts[i] == ports[Next(i, |ports|)]
  }

  /** The k-th node from `first` on. */
  function Around(first: int, n: int, k: int): int {
    if first + k < n then first + k else first + k - n
  }

  lemma AroundNext(first: int, n: int, k: nat)
    requires 0 <= first < n && k < n
    ensures 0 <= Around(first, n, k) < n
    ensures Next(Around(first, n, k), n) == Around(first, n, k + 1)
  {
  }

  /** Nodes the chain passes before coming round, when the nodes in front of the last do not stop it. */
  predicate PassesOn(leaders: seq<int>, first: int, k: int)
    requires |leaders| > 0 && 0 <= first < |leaders| && 0 <= k < |leaders|
  {
    leaders[Around(first, |leaders|, k)] != Around(first, |leaders|, k + 1)
  }

  lemma {:induction false} ChainAfter(ports: seq<string>, nextPorts: seq<string>, leaders: seq<int>, first: int, k: nat)
    requires Exchanged(ports, nextPorts) && |leaders| == |ports| && 0 <= first < |ports| && k <= |ports|
    requires forall j {:trigger PassesOn(leaders, first, j)} :: 0 <= j < k - 1 ==> PassesOn(leaders, first, j)
    ensures var n, chain := |ports|, After(ports, nextPorts, leaders, first, k);
      && chain.down == seq(k, j requires 0 <= j < k => Around(first, n, j))
      && chain.called == if k == 0 || PassesOn(leaders, first, k - 1) then Some(Around(first, n, k)) else None
  {
    var n := |ports|;
    if k > 0 {
      ChainAfter(ports, nextPorts, leaders, first, k - 1);
      assert k > 1 ==> PassesOn(leaders, first, k - 2);
      AroundNext(first, n, k - 1);
      var i := Around(first, n, k - 1);
      forall j: nat | j < k - 1 ensures Around(first, n, j) != i {
        AroundNext(first, n, j);
      }
      assert nextPorts[i] == ports[Next(i, n)];
    }
  }

  /** When all nodes agree on the leader, SHUTDOWN given to the leader visits all n nodes, each exactly once and in ring
      order, and the last one, the leader's predecessor, passes it to nobody. */
  lemma ShutdownVisitsAll(ports: seq<string>, nextPorts: seq<string>, leaders: seq<int>, leader: int)
    requires Exchanged(ports, nextPorts) && |leaders| == |ports| && 0 <= leader < |ports|
    requires forall i :: 0 <= i < |leaders| ==> leaders[i] == leader
    ensures var n, chain := |ports|, After(ports, nextPorts, leaders, leader, |ports|);
      && |chain.down| == n && chain.called == None
      && (forall i :: 0 <= i < n ==> i in chain.down)
      && (forall j, k :: 0 <= j < k < n ==> chain.down[j] != chain.down[k])
      && chain.down[0] == leader && Next(chain.down[n - 1], n) == leader
  {
    var n := |ports|;
    forall j | 0 <= j < n ensures PassesOn(leaders, leader, j) <==> j < n - 1 {
      AroundNext(leader, n, j);
    }
    VisitsAll(ports, nextPorts, leaders, leader);
    AroundNext(leader, n, n - 1);
  }

  lemma VisitsAll(ports: seq<string>, nextPorts: seq<string>, leaders: seq<int>, first: int)
    requires Exchanged(ports, nextPorts) && |leaders| == |ports| && 0 <= first < |ports|
    requires forall j {:trigger PassesOn(leaders, first, j)} :: 0 <= j < |ports| - 1 ==> PassesOn(leaders, first, j)
    ensures var n, chain := |ports|, After(ports, nextPorts, leaders, first, |ports|);
      && chain.down == seq(n, j requires 0 <= j < n => Around(first, n, j))
      && chain.called == (if PassesOn(leaders, first, n - 1) then Some(first) else None)
      && (forall i :: 0 <= i < n ==> i in chain.down)
      && (forall j, k :: 0 <= j < k < n ==> chain.down[j] != chain.down[k])
  {
    var n, chain := |ports|, After(ports, nextPorts, leaders, first, |ports|);
    ChainAfter(ports, nextPorts, leaders, first, n);
    AroundNext(first, n, n - 1);
    forall i | 0 <= i < n ensures i in chain.down {
      var j := if i >= first then i - first else i - first + n;
      AroundNext(first, n, j);
      assert chain.down[j] == i;
    }
    forall j, k | 0 <= j < k < n ensures chain.down[j] != chain.down[k] {
      AroundNext(first, n, j);
      AroundNext(first, n, k);
    }
  }

  /** The chain comes to rest: SHUTDOWN is on its way to nobody. */
  ghost predicate Finishes(ports: seq<string>, nextPorts: seq<string>, leaders: seq<int>, first: int, k: nat)
    requires Exchanged(ports, nextPorts) && |leaders| == |ports|
  {
    var chain := After(ports, nextPorts, leaders, first, k);
    chain.called == None && forall i :: 0 <= i < |ports| ==> i in chain.down
  }

  /** Without that agreement: the chain started at `first` shuts every node down and comes to rest exactly when the
      predecessor of `first` takes `first` for the leader and no other node takes its own successor for it. */
  lemma ShutdownIff(ports: seq<string>, nextPorts: seq<string>, leaders: seq<int>, first: int)
    requires Exchanged(ports, nextPorts) && |leaders| == |ports| && 0 <= first < |ports|
    ensures (exists k :: Finishes(ports, nextPorts, leaders, first, k)) <==>
            forall i :: 0 <= i < |ports| ==> (leaders[i] == Next(i, |ports|) <==> Next(i, |ports|) == first)
  {
    var n := |ports|;
    ByPosition(leaders, first);
    if forall j {:trigger PassesOn(leaders, first, j)} :: 0 <= j < n ==> (PassesOn(leaders, first, j) <==> j < n - 1) {
      VisitsAll(ports, nextPorts, leaders, first);
      assert Finishes(ports, nextPorts, leaders, first, n);
    } else {
      forall k: nat ensures !Finishes(ports, nextPorts, leaders, first, k) {
        if Reach(leaders, first, n) < n {
          StopsShort(ports, nextPorts, leaders, first, Reach(leaders, first, n), k);
        } else {
          Unfinished(ports, nextPorts, leaders, first, k);
        }
      }
    }
  }

  /** The condition of ShutdownIff, counted from `first`. */
  lemma ByPosition(leaders: seq<int>, first: int)
    requires 0 <= first < |leaders|
    ensures (forall i :: 0 <= i < |leaders| ==>
             (leaders[i] == Next(i, |leaders|) <==> Next(i, |leaders|) == first)) <==>
            forall j {:trigger PassesOn(leaders, first, j)} :: 0 <= j < |leaders| ==>
                (PassesOn(leaders, first, j) <==> j < |leaders| - 1)
  {
    var n := |leaders|;
    forall j | 0 <= j < n
      ensures var i := Around(first, n, j);
              (leaders[i] == Next(i, n) <==> Next(i, n) == first) <==> (PassesOn(leaders, first, j) <==> j < n - 1)
    {
      AroundNext(first, n, j);
    }
    if forall j {:trigger PassesOn(leaders, first, j)} :: 0 <= j < n ==> (PassesOn(leaders, first, j) <==> j < n - 1) {
      forall i | 0 <= i < n ensures leaders[i] == Next(i, n) <==> Next(i, n) == first {
        var j := Around(n - first, n, i);
        assert PassesOn(leaders, first, j) <==> j < n - 1;
      }
    }
  }

  /** How far the chain gets: to the first node that stops it, or all round. */
  function Reach(leaders: seq<int>, first: int, k: nat): (r: nat)
    requires |leaders| > 0 && 0 <= first < |leaders| && k <= |leaders|
    ensures r <= k
    ensures forall j {:trigger PassesOn(leaders, first, j)} :: 0 <= j < r - 1 ==> PassesOn(leaders, first, j)
    ensures r < k ==> r > 0 && !PassesOn(leaders, first, r - 1)
  {
    if k == 0 then 0
    else
      var r := Reach(leaders, first, k - 1);
      if r < k - 1 || (k > 1 && !PassesOn(leaders, first, k - 2)) then r else k
  }

  /** From there on nothing changes. */
  lemma {:induction false} Stays(ports: seq<string>, nextPorts: seq<string>, leaders: seq<int>, first: int, r: nat,
                                 k: nat)
    requires Exchanged(ports, nextPorts) && |leaders| == |ports| && r <= k
    requires var chain := After(ports, nextPorts, leaders, first, r);
             chain.called == None || chain.called.value in chain.down
    ensures After(ports, nextPorts, leaders, first, k) == After(ports, nextPorts, leaders, first, r)
  {
    if r < k {
      Stays(ports, nextPorts, leaders, first, r, k - 1);
    }
  }

  lemma {:induction false} DownGrows(ports: seq<string>, nextPorts: seq<string>, leaders: seq<int>, first: int,
                                     k: nat, r: nat)
    requires Exchanged(ports, nextPorts) && |leaders| == |ports| && k <= r
    ensures |After(ports, nextPorts, leaders, first, k).down| <= k
    ensures forall i :: i in After(ports, nextPorts, leaders, first, k).down ==>
            i in After(ports, nextPorts, leaders, first, r).down
  {
    if k < r {
      DownGrows(ports, nextPorts, leaders, first, k, r - 1);
    } else if k > 0 {
      DownGrows(ports, nextPorts, leaders, first, k - 1, k - 1);
    }
  }

  /** A node before the last that stops the chain leaves the one after it up. */
  lemma StopsShort(ports: seq<string>, nextPorts: seq<string>, leaders: seq<int>, first: int, r: nat, k: nat)
    requires Exchanged(ports, nextPorts) && |leaders| == |ports| && 0 <= first < |ports| && 0 < r < |ports|
    requires forall j {:trigger PassesOn(leaders, first, j)} :: 0 <= j < r - 1 ==> PassesOn(leaders, first, j)
    requires !PassesOn(leaders, first, r - 1)
    ensures !Finishes(ports, nextPorts, leaders, first, k)
  {
    var n := |ports|;
    ChainAfter(ports, nextPorts, leaders, first, r);
    var up := Around(first, n, r);
    forall j: nat | j < r ensures Around(first, n, j) != up {
    }
    assert up !in After(ports, nextPorts, leaders, first, r).down;
    if k < r {
      DownGrows(ports, nextPorts, leaders, first, k, r);
    } else {
      Stays(ports, nextPorts, leaders, first, r, k);
    }
  }

  /** When every node passes SHUTDOWN on, it is always on its way to somebody. */
  lemma Unfinished(ports: seq<string>, nextPorts: seq<string>, leaders: seq<int>, first: int, k: nat)
    requires Exchanged(ports, nextPorts) && |leaders| == |ports| && 0 <= first < |ports|
    requires forall j {:trigger PassesOn(leaders, first, j)} :: 0 <= j < |ports| ==> PassesOn(leaders, first, j)
    ensures After(ports, nextPorts, leaders, first, k).called.Some?
  {
    var n := |ports|;
    if k <= n {
      ChainAfter(ports, nextPorts, leaders, first, k);
    } else {
      ChainAfter(ports, nextPorts, leaders, first, n);
      assert After(ports, nextPorts, leaders, first, n).down[0] == first;
      Stays(ports, nextPorts, leaders, first, n, k);
    }
  }
}

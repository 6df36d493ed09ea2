/** The turn file of src/client.cc: any number of clients take turns by appending to a file all of them read. */
module TokenRing {

  datatype Phase = Waiting | Turn | Replicated

  /** `position` counts the lines of the turn file already read, `done` the commands whose turn is over. */
  datatype Client = Client(position: nat, done: nat, phase: Phase)

  /** `lines` is the turn file, `replicated` the (client, command number) pairs in the order of their replication. */
  datatype Ring = Ring(clients: seq<Client>, lines: seq<int>, replicated: seq<(int, nat)>)

  datatype Step =
    | Poll(i: int)        // one getline of waitForTurn that finds a line
    | Replicate(i: int)
    | Pass(i: int)        // setTurn

  /** The line setTurn appends. */
  function NextTurn(i: int, n: int): int
    requires n > 0
  {
    (i + 1) % n
  }

  /** `counts[i]` is the number of commands of client i. */
  predicate Enabled(counts: seq<nat>, s: Ring, step: Step)
    requires |counts| == |s.clients|
  {
    && 0 <= step.i < |counts|
    && var c := s.clients[step.i];
    match step
    case Poll(i) => c.phase.Waiting? && c.done < counts[i] && c.position < |s.lines|
    case Replicate(i) => c.phase.Turn?
    case Pass(i) => c.phase.Replicated?
  }

  function Apply(counts: seq<nat>, s: Ring, step: Step): Ring
    requires |counts| == |s.clients| && Enabled(counts, s, step)
  {
    var i, c := step.i, s.clients[step.i];
    match step
    case Poll(_) =>
      s.(clients := s.clients[i := Client(c.position + 1, c.done, if s.lines[c.position] == i then Turn else Waiting)])
    case Replicate(_) =>
      s.(clients := s.clients[i := c.(phase := Replicated)], replicated := s.replicated + [(i, c.done)])
    case Pass(_) =>
      s.(clients := s.clients[i := c.(phase := Waiting, done := c.done + 1)], lines :=
         s.lines + [NextTurn(i, |counts|)])
  }

  function Initial(n: nat): Ring {
    Ring(seq(n, _ => Client(0, 0, Waiting)), [0], [])
  }

  ghost predicate StepAt(counts: seq<nat>, states: seq<Ring>, steps: seq<Step>, k: int)
    requires |states| == |steps| + 1 && 0 <= k < |steps|
  {
    && |states[k].clients| == |counts| && Enabled(counts, states[k], steps[k])
    && states[k + 1] == Apply(counts, states[k], steps[k])
  }

  ghost predicate IsRun(counts: seq<nat>, states: seq<Ring>, steps: seq<Step>) {
    && |counts| > 0 && |states| == |steps| + 1 && states[0] == Initial(|counts|)
    && forall k {:trigger StepAt(counts, states, steps, k)} :: 0 <= k < |steps| ==> StepAt(counts, states, steps, k)
  }

  /** Every client waits for a line that nobody will append, or has no commands left. */
  ghost predicate Quiescent(counts: seq<nat>, s: Ring)
    requires |counts| == |s.clients|
  {
    forall step {:trigger Enabled(counts, s, step)} :: !Enabled(counts, s, step)
  }

  // ---------------------------------------------------------------------------
  // The invariant

  /** The turn of client i's command number d. */
  function Slot(n: int, i: int, d: int): int {
    d * n + i
  }

  /** Turns already over. */
  function Turns(s: Ring): int {
    |s.lines| - 1
  }

  lemma SlotMod(n: int, i: int, d: int)
    requires 0 <= i < n
    ensures Slot(n, i, d) % n == i && Slot(n, i, d) / n == d
    ensures (Slot(n, i, d) + 1) % n == NextTurn(i, n)
    ensures Slot(n, i, d + 1) == Slot(n, i, d) + n
  {
    SlotNext(n, i, d);
    ModOf(n, d, i);
    if i + 1 < n {
      ModOf(n, d, i + 1);
      ModOf(n, 0, i + 1);
    } else {
      ModOf(n, d + 1, 0);
      ModOf(n, 1, 0);
    }
  }

  lemma SlotNext(n: int, i: int, d: int)
    ensures Slot(n, i, d + 1) == Slot(n, i, d) + n
    ensures Slot(n, i, d) + 1 == Slot(n, i + 1, d)
    ensures i + 1 == n ==> Slot(n, i, d) + 1 == Slot(n, 0, d + 1)
    ensures Slot(n, i, 0) == i && Slot(n, 0, 1) == n
  {
    assert (d + 1) * n == d * n + n;
  }

  lemma Apart(n: int, q: int, d: int)
    requires q < d && n >= 0
    ensures q * n + n <= d * n
  {
    assert d * n == q * n + (d - q) * n;
    assert (d - q) * n == (d - q - 1) * n + n;
  }

  /** Quotient and remainder are unique. */
  lemma Unique(n: int, q: int, m: int, d: int, r: int)
    requires 0 <= m < n && 0 <= r < n && q * n + m == d * n + r
    ensures q == d && m == r
  {
    if d > q {
      Apart(n, q, d);
    } else if q > d {
      Apart(n, d, q);
    }
  }

  lemma Divided(x: int, n: int)
    requires n > 0
    ensures x == Slot(n, x % n, x / n)
  {
  }

  lemma ModOf(n: int, d: int, r: int)
    requires 0 <= r < n
    ensures Slot(n, r, d) % n == r && Slot(n, r, d) / n == d
  {
    Divided(Slot(n, r, d), n);
    Unique(n, Slot(n, r, d) / n, Slot(n, r, d) % n, d, r);
  }

  /** Only one number of a stretch of n leaves remainder i. */
  lemma NextOwn(n: int, i: int, d: int, x: int)
    requires 0 <= i < n && Slot(n, i, d) - n < x <= Slot(n, i, d)
    ensures x % n == i <==> x == Slot(n, i, d)
  {
    ModOf(n, d, i);
    if x % n == i {
      var e := x / n;
      Divided(x, n);
      if e < d {
        Apart(n, e, d);
      } else if e > d {
        Apart(n, d, e);
      }
    }
  }

  ghost predicate ClientOk(counts: seq<nat>, s: Ring, i: int)
    requires |counts| == |s.clients| && 0 <= i < |counts|
  {
    var n, c := |counts|, s.clients[i];
    var slot := Slot(n, i, c.done);
    && slot - n < Turns(s) <= slot
    && c.done <= counts[i] && c.position <= |s.lines|
    && (c.phase.Waiting? ==> slot - n < c.position <= slot)
    && (!c.phase.Waiting? ==> c.position == slot + 1 && c.done < counts[i])
  }

  ghost predicate ClientsOk(counts: seq<nat>, s: Ring)
    requires |counts| == |s.clients|
  {
    forall i :: 0 <= i < |counts| ==> ClientOk(counts, s, i)
  }

  ghost predicate LinesOk(s: Ring) {
    |s.lines| > 0 && |s.clients| > 0 && forall j :: 0 <= j < |s.lines| ==> s.lines[j] == j % |s.clients|
  }

  /** The k-th replication is command k div n of client k mod n. */
  ghost predicate HistoryOk(counts: seq<nat>, s: Ring)
    requires |counts| == |s.clients| > 0
  {
    && (forall k :: 0 <= k < |s.replicated| ==>
        s.replicated[k] == (k % |counts|, k / |counts|) && k / |counts| < counts[k % |counts|])
    && (forall i :: 0 <= i < |counts| && !s.clients[i].phase.Waiting? ==>
          |s.replicated| == Turns(s) + if s.clients[i].phase.Replicated? then 1 else 0)
    && ((forall i :: 0 <= i < |counts| ==> s.clients[i].phase.Waiting?) ==> |s.replicated| == Turns(s))
  }

  ghost predicate Inv(counts: seq<nat>, s: Ring) {
    |counts| == |s.clients| > 0 && LinesOk(s) && ClientsOk(counts, s) && HistoryOk(counts, s)
  }

  /** A client between waitForTurn and setTurn owns the last line of the turn file. */
  lemma HolderSlot(counts: seq<nat>, s: Ring, i: int)
    requires Inv(counts, s) && 0 <= i < |counts| && !s.clients[i].phase.Waiting?
    ensures Turns(s) == Slot(|counts|, i, s.clients[i].done)
    ensures Turns(s) % |counts| == i && Turns(s) / |counts| == s.clients[i].done
  {
    assert ClientOk(counts, s, i);
    SlotMod(|counts|, i, s.clients[i].done);
  }

  /** At most one client has the turn. */
  lemma OneHolder(counts: seq<nat>, s: Ring, i: int, j: int)
    requires Inv(counts, s) && 0 <= i < |counts| && 0 <= j < |counts|
    requires !s.clients[i].phase.Waiting? && !s.clients[j].phase.Waiting?
    ensures i == j
  {
    HolderSlot(counts, s, i);
    HolderSlot(counts, s, j);
  }

  lemma PollKeeps(counts: seq<nat>, s: Ring, i: int, s': Ring)
    requires Inv(counts, s) && Enabled(counts, s, Poll(i)) && s' == Apply(counts, s, Poll(i))
    ensures Inv(counts, s')
  {
    var c := s.clients[i];
    assert ClientOk(counts, s, i);
    NextOwn(|counts|, i, c.done, c.position);
    forall j | 0 <= j < |counts| ensures ClientOk(counts, s', j) {
      assert ClientOk(counts, s, j);
    }
    forall j | 0 <= j < |counts| && !s'.clients[j].phase.Waiting?
      ensures |s'.replicated| == Turns(s') + if s'.clients[j].phase.Replicated? then 1 else 0
    {
      if j == i {
        assert Turns(s) == Slot(|counts|, i, c.done);
        SlotMod(|counts|, i, c.done);
        forall k | 0 <= k < |counts| ensures s.clients[k].phase.Waiting? {
          if !s.clients[k].phase.Waiting? {
            HolderSlot(counts, s, k);
          }
        }
      }
    }
    if s'.clients[i].phase.Waiting? && forall k :: 0 <= k < |counts| ==> s'.clients[k].phase.Waiting? {
      assert forall k :: 0 <= k < |counts| ==> s.clients[k].phase.Waiting? by {
        forall k | 0 <= k < |counts| ensures s.clients[k].phase.Waiting? {
          assert s'.clients[k].phase.Waiting?;
        }
      }
    }
  }

  lemma ReplicateKeeps(counts: seq<nat>, s: Ring, i: int, s': Ring)
    requires Inv(counts, s) && Enabled(counts, s, Replicate(i)) && s' == Apply(counts, s, Replicate(i))
    ensures Inv(counts, s')
  {
    HolderSlot(counts, s, i);
    assert ClientOk(counts, s, i);
    forall j | 0 <= j < |counts| ensures ClientOk(counts, s', j) {
      assert ClientOk(counts, s, j);
    }
    forall j | 0 <= j < |counts| && !s'.clients[j].phase.Waiting?
      ensures j == i
    {
      if j != i {
        OneHolder(counts, s, i, j);
      }
    }
    assert s'.clients[i].phase.Replicated?;
  }

  lemma PassKeeps(counts: seq<nat>, s: Ring, i: int, s': Ring)
    requires Inv(counts, s) && Enabled(counts, s, Pass(i)) && s' == Apply(counts, s, Pass(i))
    ensures Inv(counts, s')
  {
    var n := |counts|;
    HolderSlot(counts, s, i);
    SlotMod(n, i, s.clients[i].done);
    forall j | 0 <= j < n ensures ClientOk(counts, s', j) && s'.clients[j].phase.Waiting? {
      assert ClientOk(counts, s, j);
      SlotMod(n, j, s.clients[j].done);
      if j != i && !s.clients[j].phase.Waiting? {
        OneHolder(counts, s, i, j);
      }
    }
  }

  lemma {:induction false} InvHolds(counts: seq<nat>, states: seq<Ring>, steps: seq<Step>, k: nat)
    requires IsRun(counts, states, steps) && k <= |steps|
    ensures Inv(counts, states[k])
  {
    if k > 0 {
      InvHolds(counts, states, steps, k - 1);
      assert StepAt(counts, states, steps, k - 1);
      match steps[k - 1]
      case Poll(i) => PollKeeps(counts, states[k - 1], i, states[k]);
      case Replicate(i) => ReplicateKeeps(counts, states[k - 1], i, states[k]);
      case Pass(i) => PassKeeps(counts, states[k - 1], i, states[k]);
    } else {
      forall i | 0 <= i < |counts| ensures ClientOk(counts, states[0], i) {
        assert Slot(|counts|, i, 0) == i;
      }
    }
  }

  /** In every run of any clients with any numbers of commands: line j of the turn file is j mod n, at most one client
      is between waitForTurn and setTurn, and the k-th replication is command k div n of client k mod n. */
  lemma RoundRobin(counts: seq<nat>, states: seq<Ring>, steps: seq<Step>, k: nat)
    requires IsRun(counts, states, steps) && k <= |steps|
    ensures var s, n := states[k], |counts|;
      && |s.clients| == n
      && (forall j :: 0 <= j < |s.lines| ==> s.lines[j] == j % n)
      && (forall i, j :: 0 <= i < n && 0 <= j < n && !s.clients[i].phase.Waiting? && !s.clients[j].phase.Waiting? ==>
          i == j)
      && (forall r :: 0 <= r < |s.replicated| ==> s.replicated[r] == (r % n, r / n))
  {
    InvHolds(counts, states, steps, k);
    var s := states[k];
    forall i, j | 0 <= i < |counts| && 0 <= j < |counts| && !s.clients[i].phase.Waiting? && !s.clients[j].phase.Waiting?
      ensures i == j
    {
      OneHolder(counts, s, i, j);
    }
  }

  // ---------------------------------------------------------------------------
  // Termination

  function Positions(clients: seq<Client>): nat {
    if clients == [] then 0 else clients[0].position + Positions(clients[1..])
  }

  lemma {:induction false} PositionsUpdate(clients: seq<Client>, i: nat, c: Client)
    requires i < |clients|
    ensures Positions(clients[i := c]) + clients[i].position == Positions(clients) + c.position
  {
    if i == 0 {
      assert clients[i := c][1..] == clients[1..];
    } else {
      PositionsUpdate(clients[1..], i - 1, c);
      assert clients[i := c][1..] == clients[1..][i - 1 := c];
    }
  }

  lemma {:induction false} PositionsAtMost(clients: seq<Client>, bound: nat)
    requires forall i :: 0 <= i < |clients| ==> clients[i].position <= bound
    ensures Positions(clients) <= |clients| * bound
  {
    if clients != [] {
      PositionsAtMost(clients[1..], bound);
      assert |clients| * bound == bound + (|clients| - 1) * bound;
    }
  }

  lemma {:induction false} NothingRead(clients: seq<Client>)
    requires forall i :: 0 <= i < |clients| ==> clients[i].position == 0
    ensures Positions(clients) == 0
  {
    if clients != [] {
      NothingRead(clients[1..]);
    }
  }

  /** Every step reads a line, replicates a command or appends a line. */
  lemma {:induction false} StepsCounted(counts: seq<nat>, states: seq<Ring>, steps: seq<Step>, k: nat)
    requires IsRun(counts, states, steps) && k <= |steps|
    ensures k + 1 == Positions(states[k].clients) + |states[k].replicated| + |states[k].lines|
  {
    if k == 0 {
      NothingRead(states[0].clients);
    } else {
      StepsCounted(counts, states, steps, k - 1);
      assert StepAt(counts, states, steps, k - 1);
      var i := steps[k - 1].i;
      var before, after := states[k - 1].clients, states[k].clients;
      PositionsUpdate(before, i, after[i]);
      assert after == before[i := after[i]];
    }
  }

  /** A run of n clients is no longer than (n + 2) (n m + n + 1) steps, where m is the fewest commands of a client. */
  lemma RunsEnd(counts: seq<nat>, states: seq<Ring>, steps: seq<Step>, i: nat)
    requires IsRun(counts, states, steps) && i < |counts|
    ensures |steps| <= (|counts| + 2) * (Slot(|counts|, i, counts[i]) + 1)
  {
    var s, n := states[|steps|], |counts|;
    var bound := Slot(n, i, counts[i]) + 1;
    StepsCounted(counts, states, steps, |steps|);
    InvHolds(counts, states, steps, |steps|);
    TurnsAtMost(counts, s, i);
    forall j | 0 <= j < n ensures s.clients[j].position <= bound {
      assert ClientOk(counts, s, j);
    }
    PositionsAtMost(s.clients, bound);
    assert |s.replicated| <= Turns(s) + 1;
    assert (n + 2) * bound == n * bound + 2 * bound;
  }

  // ---------------------------------------------------------------------------
  // What gets replicated

  lemma TurnsAtMost(counts: seq<nat>, s: Ring, i: nat)
    requires Inv(counts, s) && i < |counts|
    ensures 0 <= Turns(s) <= Slot(|counts|, i, counts[i])
  {
    assert ClientOk(counts, s, i);
    if s.clients[i].done < counts[i] {
      Apart(|counts|, s.clients[i].done, counts[i]);
    }
  }

  /** At rest everybody waits, and the client whose turn it is has no commands left. */
  lemma Stopped(counts: seq<nat>, s: Ring)
    requires Inv(counts, s) && Quiescent(counts, s)
    ensures var h := Turns(s) % |counts|;
      s.clients[h].done == counts[h] && Turns(s) == Slot(|counts|, h, counts[h])
    ensures |s.replicated| == Turns(s)
  {
    forall i | 0 <= i < |counts| ensures s.clients[i].phase.Waiting? {
      assert !Enabled(counts, s, Replicate(i)) && !Enabled(counts, s, Pass(i));
    }
    var n := |counts|;
    var h := Turns(s) % n;
    assert ClientOk(counts, s, h);
    NextOwn(n, h, s.clients[h].done, Turns(s));
    assert !Enabled(counts, s, Poll(h));
  }

  /** When the clients come to rest, the turns taken are the least of n m_i + i over all clients i: the ring stops at
      the first client asked for a command it does not have, whatever the others still wait to send. */
  lemma TotalTurns(counts: seq<nat>, states: seq<Ring>, steps: seq<Step>)
    requires IsRun(counts, states, steps) && |states[|steps|].clients| == |counts| && Quiescent(counts, states[|steps|])
    ensures var total := |states[|steps|].replicated|;
      && Turns(states[|steps|]) == total
      && (forall i {:trigger counts[i]} :: 0 <= i < |counts| ==> total <= Slot(|counts|, i, counts[i]))
      && exists i :: 0 <= i < |counts| && total == Slot(|counts|, i, counts[i])
  {
    var s := states[|steps|];
    InvHolds(counts, states, steps, |steps|);
    Stopped(counts, s);
    forall i | 0 <= i < |counts| ensures |s.replicated| <= Slot(|counts|, i, counts[i]) {
      TurnsAtMost(counts, s, i);
    }
    var h := Turns(s) % |counts|;
    assert |s.replicated| == Slot(|counts|, h, counts[h]);
  }

  /** No client runs out more than one turn before another still has commands. */
  ghost predicate Balanced(counts: seq<nat>) {
    forall i, j {:trigger counts[i], counts[j]} :: 0 <= i < |counts| && 0 <= j < |counts| ==>
        counts[j] <= counts[i] + if j < i then 1 else 0
  }

  /** Client j gets all its turns exactly when no client stops the ring before. */
  lemma DoneIff(counts: seq<nat>, s: Ring, j: nat)
    requires Inv(counts, s) && Quiescent(counts, s) && j < |counts|
    ensures s.clients[j].done == counts[j] <==> Slot(|counts|, j, counts[j]) - |counts| < Turns(s)
  {
    var n, d := |counts|, s.clients[j].done;
    assert ClientOk(counts, s, j);
    if d < counts[j] {
      Apart(n, d, counts[j]);
    }
  }

  lemma SlotOrder(n: int, i: int, a: int, j: int, b: int)
    requires 0 <= i < n && 0 <= j < n
    ensures Slot(n, j, b) - n < Slot(n, i, a) <==> b <= a + if j < i then 1 else 0
  {
    SlotNext(n, i, a);
    if b <= a {
      if b < a { Apart(n, b, a); }
    } else if b > a + 1 {
      Apart(n, a + 1, b);
    }
  }

  /** The clients come to rest with every command replicated if and only if the numbers of commands are balanced. */
  lemma AllReplicatedIffBalanced(counts: seq<nat>, states: seq<Ring>, steps: seq<Step>)
    requires IsRun(counts, states, steps) && |states[|steps|].clients| == |counts| && Quiescent(counts, states[|steps|])
    ensures (forall j {:trigger counts[j]} :: 0 <= j < |counts| ==> states[|steps|].clients[j].done == counts[j])
            <==> Balanced(counts)
  {
    var s, n := states[|steps|], |counts|;
    InvHolds(counts, states, steps, |steps|);
    Stopped(counts, s);
    var h := Turns(s) % n;
    forall j | 0 <= j < n
      ensures s.clients[j].done == counts[j] <==> counts[j] <= counts[h] + if j < h then 1 else 0
    {
      DoneIff(counts, s, j);
      SlotOrder(n, h, counts[h], j, counts[j]);
    }
    if forall j :: 0 <= j < n ==> s.clients[j].done == counts[j] {
      forall i, j | 0 <= i < n && 0 <= j < n ensures counts[j] <= counts[i] + if j < i then 1 else 0 {
        TurnsAtMost(counts, s, i);
        DoneIff(counts, s, j);
        SlotOrder(n, i, counts[i], j, counts[j]);
      }
    }
  }

  /** With m commands each, n clients take exactly n * m turns and replicate everything. */
  lemma EqualCounts(counts: seq<nat>, states: seq<Ring>, steps: seq<Step>, m: nat)
    requires IsRun(counts, states, steps) && |states[|steps|].clients| == |counts| && Quiescent(counts, states[|steps|])
    requires forall i :: 0 <= i < |counts| ==> counts[i] == m
    ensures |states[|steps|].replicated| == |counts| * m
    ensures forall j :: 0 <= j < |counts| ==> states[|steps|].clients[j].done == m
  {
    TotalTurns(counts, states, steps);
    AllReplicatedIffBalanced(counts, states, steps);
    assert Balanced(counts);
    forall j | 0 <= j < |counts| ensures states[|steps|].clients[j].done == m {
      assert counts[j] == m;
    }
    assert Slot(|counts|, 0, counts[0]) == |counts| * m;
  }
}

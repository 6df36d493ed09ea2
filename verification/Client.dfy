/** The client of src/client.cc: its turns and its retries. */
module Client {
  import opened Messages
  import TokenRing

  /** A line of the turn file, as getline and stoi read it. */
  datatype Line = Blank | Turn(id: int) | Shutdown

  /** waitForTurn stops at such a line. */
  predicate Stops(line: Line, clientId: int) {
    line.Shutdown? || line == Turn(clientId)
  }

  /** The first line from `from` on at which waitForTurn stops, |lines| when there is none. */
  function FirstStop(lines: seq<Line>, from: nat, clientId: int): (k: nat)
    requires from <= |lines|
    ensures from <= k <= |lines|
    ensures forall j :: from <= j < k ==> !Stops(lines[j], clientId)
    ensures k < |lines| ==> Stops(lines[k], clientId)
    decreases |lines| - from
  {
    if from == |lines| || Stops(lines[from], clientId) then from else FirstStop(lines, from + 1, clientId)
  }

  /** One try of replicate: the response, None when RESPONSE_WAIT_DURATION passed without any. */
  type Response = Option<ClientMsg>

  /** A line of the command file, with the lines the other clients append while its turn is waited for and the
      responses to its tries. */
  datatype Job = Job(line: string, others: seq<Line>, answers: seq<Response>)

  /** The number of commands in a command file: its lines before the first empty one. */
  function Commands(jobs: seq<Job>): (n: nat)
    ensures n <= |jobs|
    ensures forall i :: 0 <= i < n ==> jobs[i].line != ""
    ensures n < |jobs| ==> jobs[n].line == ""
  {
    if jobs == [] || jobs[0].line == "" then 0 else 1 + Commands(jobs[1..])
  }

  lemma CommandsEnd(jobs: seq<Job>, k: nat)
    requires k <= Commands(jobs)
    ensures k == |jobs| || jobs[k].line == "" <==> k == Commands(jobs)
  {
  }

  /** The tries replicate makes: up to and including the first that is answered by SUCCESS. */
  function Tries(responses: seq<Response>): (tries: nat)
    ensures tries <= |responses|
    ensures forall i :: 0 <= i < tries - 1 ==> responses[i] != Some(Success)
    ensures responses != [] ==> tries > 0
    ensures tries > 0 ==> tries == |responses| || responses[tries - 1] == Some(Success)
  {
    if responses == [] then 0
    else if responses[0] == Some(Success) then 1
    else 1 + Tries(responses[1..])
  }

  /** The file itself, which all clients share. */
  class SharedFile {
    var lines: seq<Line>

    constructor (lines: seq<Line>)
      ensures this.lines == lines
    {
      this.lines := lines;
    }
  }

  class Client {
    const clientId: int
    const clientCount: int
    const turns: SharedFile
    /** Lines of the turn file already read. */
    var position: nat
    /** What went to the server, in order. */
    var sent: seq<ClientMsg>

    ghost predicate Valid()
      reads this, turns
    {
      0 <= clientId < clientCount && position <= |turns.lines|
    }

    constructor (clientId: int, clientCount: int, turns: SharedFile)
      requires 0 <= clientId < clientCount
      ensures Valid() && this.clientId == clientId && this.clientCount == clientCount && this.turns == turns
      ensures position == 0 && sent == []
    {
      this.clientId, this.clientCount, this.turns := clientId, clientCount, turns;
      position, sent := 0, [];
    }

    /** waitForTurn on the lines there are: it reads up to and including the first that stops it, or all of them, and
        then goes on waiting (`myTurn` is false). */
    method WaitForTurn() returns (myTurn: bool)
      requires Valid()
      modifies this`position
      ensures Valid() && myTurn == (FirstStop(turns.lines, old(position), clientId) < |turns.lines|)
      ensures position == if myTurn then FirstStop(turns.lines, old(position), clientId) + 1 else |turns.lines|
      ensures forall j :: old(position) <= j < (if myTurn then position - 1 else position) ==>
              !turns.lines[j].Shutdown? && turns.lines[j] != Turn(clientId)
      ensures myTurn ==> turns.lines[position - 1].Shutdown? || turns.lines[position - 1] == Turn(clientId)
    {
      var isUp := true;
      while isUp && position < |turns.lines|
        invariant old(position) <= position <= |turns.lines|
        invariant forall j :: old(position) <= j < (if isUp then position else position - 1) ==>
                  !Stops(turns.lines[j], clientId)
        invariant !isUp ==> position > old(position) && Stops(turns.lines[position - 1], clientId)
        decreases isUp, |turns.lines| - position
      {
        var line := turns.lines[position];
        position := position + 1;
        if !line.Blank? {
          isUp := !line.Shutdown? && line.id != clientId;
        }
      }
      myTurn := !isUp;
    }

    method SetTurn()
      requires Valid()
      modifies turns
      ensures Valid() && turns.lines == old(turns.lines) + [Turn(TokenRing.NextTurn(clientId, clientCount))]
    {
      turns.lines := turns.lines + [Turn((clientId + 1) % clientCount)];
    }

    /** Tries again, with a new connection, until SUCCESS answers: one REPLICATE a try, so a command whose SUCCESS
        came too late is sent again. `replicated` is false while no try has succeeded. */
    method Replicate(data: string, responses: seq<Response>) returns (replicated: bool)
      requires Valid()
      modifies this`sent
      ensures Valid() && replicated == (exists i :: 0 <= i < |responses| && responses[i] == Some(Success))
      ensures sent == old(sent) + Conversation(data, Tries(responses))
    {
      replicated := false;
      var i := 0;
      while !replicated && i < |responses|
        invariant 0 <= i <= |responses|
        invariant replicated ==> i > 0 && responses[i - 1] == Some(Success)
        invariant forall j :: 0 <= j < (if replicated then i - 1 else i) ==> responses[j] != Some(Success)
        invariant sent == old(sent) + Conversation(data, i)
        decreases |responses| - i
      {
        sent := sent + [ClientMsg.Replicate(data)];
        replicated := responses[i] == Some(Success);
        sent := sent + [Disconnect];
        i := i + 1;
      }
      TriesAre(responses, i);
    }

    /** What the client has done so far. */
    ghost function State(done: nat, stuck: bool): Progress
      reads this, turns
    {
      Progress(TurnFile(turns.lines, position), sent, done, stuck)
    }

    /** One turn: when it is over, the command is replicated and the turn passed on. */
    method TakeTurn(job: Job, ghost done: nat) returns (over: bool)
      requires Valid()
      modifies this`position, this`sent, turns
      ensures Valid()
      ensures State(if over then done + 1 else done, !over)
              == NextCommand(old(State(done, false)), clientId, clientCount, job)
    {
      turns.lines := turns.lines + job.others;
      over := WaitForTurn();
      if over {
        over := Replicate(job.line, job.answers);
        if over {
          SetTurn();
        }
      }
    }

    /** The commands are given to the server in their order, each in a turn of this client. The client ends with all
        commands done, or stuck in the turn of command `done`. */
    method ReplicateCommands(jobs: seq<Job>) returns (done: nat)
      requires Valid()
      modifies this`position, this`sent, turns
      ensures Valid() && done <= Commands(jobs)
      ensures done < Commands(jobs) ==>
              State(done, true) == AfterCommands(old(State(0, false)), clientId, clientCount, jobs, done + 1)
      ensures done == Commands(jobs) ==>
              State(done, false) == AfterCommands(old(State(0, false)), clientId, clientCount, jobs, done)
    {
      done := 0;
      CommandsEnd(jobs, 0);
      var doneReading := done == |jobs| || jobs[done].line == "";
      while !doneReading
        invariant done <= Commands(jobs) && Valid() && doneReading == (done == Commands(jobs))
        invariant State(done, false) == AfterCommands(old(State(0, false)), clientId, clientCount, jobs, done)
        decreases |jobs| - done
      {
        var over := TakeTurn(jobs[done], done);
        if !over {
          return;
        }
        done := done + 1;
        CommandsEnd(jobs, done);
        doneReading := done == |jobs| || jobs[done].line == "";
      }
    }
  }

  /** The turn file and how far the client has read it. */
  datatype TurnFile = TurnFile(lines: seq<Line>, position: nat)

  /** `stuck`: the client waits for a turn or a SUCCESS that does not come. */
  datatype Progress = Progress(turns: TurnFile, sent: seq<ClientMsg>, done: nat, stuck: bool)

  predicate TurnComes(t: TurnFile, clientId: int, others: seq<Line>) {
    t.position <= |t.lines| && FirstStop(t.lines + others, t.position, clientId) < |t.lines + others|
  }

  /** After the turn of one command: a turn that comes is read up to its line, the command is sent as often as it is
      tried, and once it succeeds the next client's id is appended. */
  function NextCommand(p: Progress, clientId: int, clientCount: int, job: Job): Progress
    requires clientCount > 0
  {
    var lines := p.turns.lines + job.others;
    if !TurnComes(p.turns, clientId, job.others) then
      Progress(TurnFile(lines, |lines|), p.sent, p.done, true)
    else
      var read, sent := FirstStop(lines, p.turns.position, clientId) + 1,
          p.sent + Conversation(job.line, Tries(job.answers));
      if Some(Success) in job.answers
      then Progress(TurnFile(lines + [Turn(TokenRing.NextTurn(clientId, clientCount))], read), sent, p.done + 1, false)
      else Progress(TurnFile(lines, read), sent, p.done, true)
  }

  /** After the first k commands, or as many of them as get their turn and their SUCCESS. */
  function AfterCommands(start: Progress, clientId: int, clientCount: int, jobs: seq<Job>, k: nat): Progress
    requires clientCount > 0 && k <= |jobs|
  {
    if k == 0 then start
    else
      var p := AfterCommands(start, clientId, clientCount, jobs, k - 1);
      if p.stuck then p else NextCommand(p, clientId, clientCount, jobs[k - 1])
  }

  lemma NextDone(p: Progress, clientId: int, clientCount: int, job: Job)
    requires clientCount > 0
    ensures var q := NextCommand(p, clientId, clientCount, job);
      && (!q.stuck <==> TurnComes(p.turns, clientId, job.others) && Some(Success) in job.answers)
      && q.done == if q.stuck then p.done else p.done + 1
  {
  }

  /** A client that is not stuck has done all the commands so far. */
  lemma {:induction false} DoneUnlessStuck(start: Progress, clientId: int, clientCount: int, jobs: seq<Job>, k: nat)
    requires clientCount > 0 && k <= |jobs| && start.done == 0 && !start.stuck
    ensures var p := AfterCommands(start, clientId, clientCount, jobs, k);
            p.done <= k && (p.stuck <==> p.done < k)
  {
    if k > 0 {
      DoneUnlessStuck(start, clientId, clientCount, jobs, k - 1);
      NextDone(AfterCommands(start, clientId, clientCount, jobs, k - 1), clientId, clientCount, jobs[k - 1]);
    }
  }

  lemma OneMore(start: Progress, clientId: int, clientCount: int, jobs: seq<Job>, i: nat)
    requires clientCount > 0 && i < |jobs| && !AfterCommands(start, clientId, clientCount, jobs, i).stuck
    ensures !AfterCommands(start, clientId, clientCount, jobs, i + 1).stuck
            <==> TurnAndSuccess(start, clientId, clientCount, jobs, i)
  {
    NextDone(AfterCommands(start, clientId, clientCount, jobs, i), clientId, clientCount, jobs[i]);
  }

  lemma {:induction false} HadTurn(start: Progress, clientId: int, clientCount: int, jobs: seq<Job>, i: nat, k: nat)
    requires clientCount > 0 && i < k <= |jobs| && !AfterCommands(start, clientId, clientCount, jobs, k).stuck
    ensures TurnAndSuccess(start, clientId, clientCount, jobs, i)
  {
    if i < k - 1 {
      HadTurn(start, clientId, clientCount, jobs, i, k - 1);
    } else {
      OneMore(start, clientId, clientCount, jobs, i);
    }
  }

  lemma {:induction false} TurnsSuffice(start: Progress, clientId: int, clientCount: int, jobs: seq<Job>, k: nat)
    requires clientCount > 0 && k <= |jobs| && !start.stuck
    requires forall i :: 0 <= i < k ==> TurnAndSuccess(start, clientId, clientCount, jobs, i)
    ensures !AfterCommands(start, clientId, clientCount, jobs, k).stuck
  {
    if k > 0 {
      TurnsSuffice(start, clientId, clientCount, jobs, k - 1);
      OneMore(start, clientId, clientCount, jobs, k - 1);
    }
  }

  /** The first k commands are done exactly when each of them got a turn and a SUCCESS. */
  lemma DoneIff(start: Progress, clientId: int, clientCount: int, jobs: seq<Job>, k: nat)
    requires clientCount > 0 && k <= |jobs| && start.done == 0 && !start.stuck
    ensures AfterCommands(start, clientId, clientCount, jobs, k).done == k
            <==> forall i :: 0 <= i < k ==> TurnAndSuccess(start, clientId, clientCount, jobs, i)
  {
    DoneUnlessStuck(start, clientId, clientCount, jobs, k);
    if !AfterCommands(start, clientId, clientCount, jobs, k).stuck {
      forall i | 0 <= i < k ensures TurnAndSuccess(start, clientId, clientCount, jobs, i) {
        HadTurn(start, clientId, clientCount, jobs, i, k);
      }
    }
    if forall i :: 0 <= i < k ==> TurnAndSuccess(start, clientId, clientCount, jobs, i) {
      TurnsSuffice(start, clientId, clientCount, jobs, k);
    }
  }

  /** Then each of them was sent, in order and as often as it was tried, and the last turn ended with the next
      client's id on the turn file. */
  lemma {:induction false} DoneIsSent(start: Progress, clientId: int, clientCount: int, jobs: seq<Job>, k: nat)
    requires clientCount > 0 && k <= |jobs| && !AfterCommands(start, clientId, clientCount, jobs, k).stuck
    ensures var p := AfterCommands(start, clientId, clientCount, jobs, k);
      && p.sent == start.sent + Session(jobs, k)
      && (k > 0 ==>
            && p.turns.lines != []
            && p.turns.lines[|p.turns.lines| - 1] == Turn(TokenRing.NextTurn(clientId, clientCount)))
  {
    if k > 0 {
      DoneIsSent(start, clientId, clientCount, jobs, k - 1);
      SessionNext(start.sent, jobs, k - 1);
    }
  }

  predicate TurnAndSuccess(start: Progress, clientId: int, clientCount: int, jobs: seq<Job>, i: nat)
    requires clientCount > 0 && i < |jobs|
  {
    var p := AfterCommands(start, clientId, clientCount, jobs, i);
    TurnComes(p.turns, clientId, jobs[i].others) && Some(Success) in jobs[i].answers
  }

  /** What `tries` tries of one command send. */
  function Conversation(data: string, tries: nat): (messages: seq<ClientMsg>)
    ensures |messages| == 2 * tries
  {
    if tries == 0 then [] else Conversation(data, tries - 1) + [Replicate(data), Disconnect]
  }

  /** Each try sends one REPLICATE with the command and then one DISCONNECT. */
  lemma {:induction false} ConversationExact(data: string, tries: nat)
    ensures forall i :: 0 <= i < tries ==>
            Conversation(data, tries)[2 * i] == Replicate(data) && Conversation(data, tries)[2 * i + 1] == Disconnect
  {
    if tries > 0 {
      ConversationExact(data, tries - 1);
    }
  }

  /** `messages` are a REPLICATE and a DISCONNECT for each of the commands `of`. */
  ghost predicate Alternate(jobs: seq<Job>, messages: seq<ClientMsg>, of: seq<nat>) {
    && |messages| == 2 * |of|
    && forall i :: 0 <= i < |of| ==> Exchange(jobs, of[i], messages[2 * i], messages[2 * i + 1])
  }

  ghost predicate Exchange(jobs: seq<Job>, c: nat, first: ClientMsg, second: ClientMsg) {
    c < |jobs| && first == Replicate(jobs[c].line) && second == Disconnect
  }

  /** How often command c has been tried. */
  function Tried(start: Progress, clientId: int, clientCount: int, jobs: seq<Job>, k: nat, c: nat): nat
    requires clientCount > 0 && k <= |jobs|
  {
    if c >= k then 0
    else
      var p := AfterCommands(start, clientId, clientCount, jobs, c);
      if !p.stuck && TurnComes(p.turns, clientId, jobs[c].others) then Tries(jobs[c].answers) else 0
  }

  lemma AlternateMore(jobs: seq<Job>, messages: seq<ClientMsg>, of: seq<nat>, c: nat, tries: nat)
    requires Alternate(jobs, messages, of) && c < |jobs|
    ensures Alternate(jobs, messages + Conversation(jobs[c].line, tries), of + seq(tries, _ => c))
  {
    var more, all := seq(tries, _ => c), messages + Conversation(jobs[c].line, tries);
    ConversationExact(jobs[c].line, tries);
    forall i | 0 <= i < |of + more|
      ensures Exchange(jobs, (of + more)[i], all[2 * i], all[2 * i + 1])
    {
      if i >= |of| {
        var j := i - |of|;
        assert all[2 * i] == Conversation(jobs[c].line, tries)[2 * j];
        assert all[2 * i + 1] == Conversation(jobs[c].line, tries)[2 * j + 1];
      } else {
        assert Exchange(jobs, of[i], messages[2 * i], messages[2 * i + 1]);
      }
    }
  }

  function Times(of: seq<nat>, c: nat): nat {
    multiset(of)[c]
  }

  lemma {:induction false} TimesMore(of: seq<nat>, c: nat, tries: nat)
    ensures forall x :: Times(of + seq(tries, _ => c), x) == Times(of, x) + if x == c then tries else 0
  {
    if tries == 0 {
      assert of + seq(0, _ => c) == of;
    } else {
      TimesMore(of, c, tries - 1);
      assert of + seq(tries, _ => c) == of + seq(tries - 1, _ => c) + [c];
    }
  }

  /** The commands `of` the tries of the first k: in order, each as often as it was tried. */
  ghost predicate TriesOf(start: Progress, clientId: int, clientCount: int, jobs: seq<Job>, k: nat, of: seq<nat>)
    requires clientCount > 0 && k <= |jobs|
  {
    && (forall i :: 0 <= i < |of| ==> of[i] < k)
    && (forall i, j :: 0 <= i < j < |of| ==> of[i] <= of[j])
    && (forall c :: Times(of, c) == Tried(start, clientId, clientCount, jobs, k, c))
  }

  lemma TriesMore(start: Progress, clientId: int, clientCount: int, jobs: seq<Job>, k: nat, of: seq<nat>)
    requires clientCount > 0 && k < |jobs| && TriesOf(start, clientId, clientCount, jobs, k, of)
    ensures TriesOf(start, clientId, clientCount, jobs, k + 1,
                    of + seq(Tried(start, clientId, clientCount, jobs, k + 1, k), _ => k))
  {
    var tries := Tried(start, clientId, clientCount, jobs, k + 1, k);
    var of' := of + seq(tries, _ => k);
    TimesMore(of, k, tries);
    forall c ensures Times(of', c) == Tried(start, clientId, clientCount, jobs, k + 1, c) {
      assert Times(of, c) == Tried(start, clientId, clientCount, jobs, k, c);
    }
  }

  /** `messages` and `of` are what the first k commands send. */
  ghost predicate SentBy(start: Progress, clientId: int, clientCount: int, jobs: seq<Job>, k: nat,
                         messages: seq<ClientMsg>, of: seq<nat>)
    requires clientCount > 0 && k <= |jobs|
  {
    && AfterCommands(start, clientId, clientCount, jobs, k).sent == start.sent + messages
    && Alternate(jobs, messages, of) && TriesOf(start, clientId, clientCount, jobs, k, of)
  }

  lemma NextSends(start: Progress, clientId: int, clientCount: int, jobs: seq<Job>, k: nat)
    requires clientCount > 0 && k < |jobs|
    ensures AfterCommands(start, clientId, clientCount, jobs, k + 1).sent
            == AfterCommands(start, clientId, clientCount, jobs, k).sent
               + Conversation(jobs[k].line, Tried(start, clientId, clientCount, jobs, k + 1, k))
  {
    assert Conversation(jobs[k].line, 0) == [];
  }

  lemma SentMore(start: Progress, clientId: int, clientCount: int, jobs: seq<Job>, k: nat, messages: seq<ClientMsg>,
                 of: seq<nat>)
    requires clientCount > 0 && k < |jobs| && SentBy(start, clientId, clientCount, jobs, k, messages, of)
    ensures var tries := Tried(start, clientId, clientCount, jobs, k + 1, k);
            SentBy(start, clientId, clientCount, jobs, k + 1, messages + Conversation(jobs[k].line, tries),
                   of + seq(tries, _ => k))
  {
    var more := Conversation(jobs[k].line, Tried(start, clientId, clientCount, jobs, k + 1, k));
    NextSends(start, clientId, clientCount, jobs, k);
    assert start.sent + messages + more == start.sent + (messages + more);
    AlternateMore(jobs, messages, of, k, Tried(start, clientId, clientCount, jobs, k + 1, k));
    TriesMore(start, clientId, clientCount, jobs, k, of);
  }

  lemma NothingSent(start: Progress, clientId: int, clientCount: int, jobs: seq<Job>)
    requires clientCount > 0
    ensures SentBy(start, clientId, clientCount, jobs, 0, [], [])
  {
    assert forall c :: Times([], c) == 0;
  }

  /** All that the client ever sends, also in a turn it is stuck in, is one REPLICATE and then one DISCONNECT a try, for
      the commands in their order, each as often as it was tried: never SHUTDOWN, and never a second REPLICATE on one
      connection. */
  lemma {:induction false} SentExact(start: Progress, clientId: int, clientCount: int, jobs: seq<Job>, k: nat)
      returns (messages: seq<ClientMsg>, of: seq<nat>)
    requires clientCount > 0 && k <= |jobs|
    ensures SentBy(start, clientId, clientCount, jobs, k, messages, of)
  {
    if k == 0 {
      messages, of := [], [];
      NothingSent(start, clientId, clientCount, jobs);
    } else {
      var before, earlier := SentExact(start, clientId, clientCount, jobs, k - 1);
      SentMore(start, clientId, clientCount, jobs, k - 1, before, earlier);
      var tries := Tried(start, clientId, clientCount, jobs, k, k - 1);
      messages, of := before + Conversation(jobs[k - 1].line, tries), earlier + seq(tries, _ => k - 1);
    }
  }

  /** What the first k commands of a file send. */
  function Session(jobs: seq<Job>, k: nat): seq<ClientMsg>
    requires k <= |jobs|
  {
    if k == 0 then [] else Session(jobs, k - 1) + Conversation(jobs[k - 1].line, Tries(jobs[k - 1].answers))
  }

  lemma SessionNext(before: seq<ClientMsg>, jobs: seq<Job>, k: nat)
    requires k < |jobs|
    ensures before + Session(jobs, k) + Conversation(jobs[k].line, Tries(jobs[k].answers))
            == before + Session(jobs, k + 1)
  {
  }

  /** How often a command is sent. */
  function Sent(messages: seq<ClientMsg>, data: string): nat {
    if messages == [] then 0
    else Sent(messages[..|messages| - 1], data) + if messages[|messages| - 1] == Replicate(data) then 1 else 0
  }

  lemma {:induction false} SentByTries(data: string, tries: nat, other: string)
    ensures Sent(Conversation(data, tries), other) == if other == data then tries else 0
  {
    if tries > 0 {
      SentByTries(data, tries - 1, other);
      var all := Conversation(data, tries);
      assert all[..|all| - 1] == Conversation(data, tries - 1) + [Replicate(data)];
      assert all[..|all| - 1][..|all| - 2] == Conversation(data, tries - 1);
    }
  }

  /** A command reaches the server exactly once if and only if its first try is answered by SUCCESS, or is the only
      one. */
  lemma SentOnceIff(data: string, responses: seq<Response>)
    requires responses != []
    ensures Sent(Conversation(data, Tries(responses)), data) == 1 <==> responses[0] == Some(Success) || |responses| == 1
  {
    SentByTries(data, Tries(responses), data);
  }

  /** Tries counts as far as the loop goes. */
  lemma {:induction false} TriesAre(responses: seq<Response>, k: nat)
    requires k <= |responses|
    requires forall j :: 0 <= j < k - 1 ==> responses[j] != Some(Success)
    requires k == |responses| || (k > 0 && responses[k - 1] == Some(Success))
    ensures Tries(responses) == k
  {
    if k > 1 {
      assert forall j :: 0 <= j < |responses| - 1 ==> responses[1..][j] == responses[j + 1];
      TriesAre(responses[1..], k - 1);
    }
  }

  // ---------------------------------------------------------------------------
  // In the token ring

  /** A turn file in which every line names a client. */
  ghost predicate OnlyTurns(lines: seq<Line>) {
    forall j :: 0 <= j < |lines| ==> lines[j].Turn?
  }

  function Ids(lines: seq<Line>): (ids: seq<int>)
    requires OnlyTurns(lines)
    ensures |ids| == |lines|
  {
    seq(|lines|, j requires 0 <= j < |lines| => lines[j].id)
  }

  /** The steps lead the ring from s to s'. */
  ghost predicate Leads(counts: seq<nat>, s: TokenRing.Ring, steps: seq<TokenRing.Step>, s': TokenRing.Ring)
    requires |counts| == |s.clients|
    decreases |steps|
  {
    if steps == [] then s' == s
    else TokenRing.Enabled(counts, s, steps[0]) && Leads(counts, TokenRing.Apply(counts, s, steps[0]), steps[1..], s')
  }

  lemma LeadsFirst(counts: seq<nat>, s: TokenRing.Ring, step: TokenRing.Step, steps: seq<TokenRing.Step>,
                   s': TokenRing.Ring)
    requires |counts| == |s.clients| && TokenRing.Enabled(counts, s, step)
             && Leads(counts, TokenRing.Apply(counts, s, step), steps, s')
    ensures Leads(counts, s, [step] + steps, s')
  {
    assert ([step] + steps)[1..] == steps;
  }

  /** Polling up to the line that names the client, then its turn. */
  lemma {:induction false} PollsThenTurn(counts: seq<nat>, s: TokenRing.Ring, i: int, k: nat)
      returns (steps: seq<TokenRing.Step>, s': TokenRing.Ring)
    requires |counts| == |s.clients| && 0 <= i < |counts|
    requires s.clients[i].phase.Waiting? && s.clients[i].done < counts[i]
    requires s.clients[i].position <= k < |s.lines| && s.lines[k] == i
    requires forall j :: s.clients[i].position <= j < k ==> s.lines[j] != i
    ensures Leads(counts, s, steps, s')
    ensures var done := s.clients[i].done;
      s' == TokenRing.Ring(s.clients[i := TokenRing.Client(k + 1, done + 1, TokenRing.Waiting)],
                           s.lines + [TokenRing.NextTurn(i, |counts|)], s.replicated + [(i, done)])
    decreases k - s.clients[i].position
  {
    var s1 := TokenRing.Apply(counts, s, TokenRing.Poll(i));
    if s.clients[i].position < k {
      var rest;
      rest, s' := PollsThenTurn(counts, s1, i, k);
      steps := [TokenRing.Poll(i)] + rest;
    } else {
      var s2 := TokenRing.Apply(counts, s1, TokenRing.Replicate(i));
      s' := TokenRing.Apply(counts, s2, TokenRing.Pass(i));
      assert [TokenRing.Pass(i)][1..] == [];
      assert Leads(counts, s2, [TokenRing.Pass(i)], s');
      LeadsFirst(counts, s1, TokenRing.Replicate(i), [TokenRing.Pass(i)], s');
      steps := [TokenRing.Poll(i)] + ([TokenRing.Replicate(i)] + [TokenRing.Pass(i)]);
    }
    LeadsFirst(counts, s, TokenRing.Poll(i), steps[1..], s');
    assert steps == [TokenRing.Poll(i)] + steps[1..];
  }

  /** A turn of this class is a turn in the token ring: it reads the same lines, replicates the same command, and leaves
      the same turn file, one line longer. */
  lemma TurnIsRingTurn(counts: seq<nat>, s: TokenRing.Ring, i: int, p: Progress, job: Job)
      returns (steps: seq<TokenRing.Step>, s': TokenRing.Ring)
    requires |counts| == |s.clients| && 0 <= i < |counts|
    requires OnlyTurns(p.turns.lines + job.others) && s.lines == Ids(p.turns.lines + job.others)
    requires s.clients[i] == TokenRing.Client(p.turns.position, p.done, TokenRing.Waiting) && p.done < counts[i]
    requires !NextCommand(p, i, |counts|, job).stuck
    ensures Leads(counts, s, steps, s')
    ensures var q := NextCommand(p, i, |counts|, job);
      && OnlyTurns(q.turns.lines)
      && s' == TokenRing.Ring(s.clients[i := TokenRing.Client(q.turns.position, q.done, TokenRing.Waiting)],
                              Ids(q.turns.lines), s.replicated + [(i, p.done)])
  {
    var lines := p.turns.lines + job.others;
    var k := FirstStop(lines, p.turns.position, i);
    steps, s' := PollsThenTurn(counts, s, i, k);
    assert Ids(lines + [Turn(TokenRing.NextTurn(i, |counts|))]) == Ids(lines) + [TokenRing.NextTurn(i, |counts|)];
  }
}

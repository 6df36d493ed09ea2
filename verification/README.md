# A model of the replicated-log server

A cluster of nodes replicates a log of client commands. A leader, chosen by a bully election, runs one
prepare / promise / propose / accept / accepted round for every command, marks silent nodes as failed, and hands its log to
nodes that come back. Clients take turns through a file they all append to. This project models those parts and proves what
they keep over whole runs, for any number of nodes and clients.

## How it is built

| file | what it holds |
|---|---|
| Messages.dfy | the messages, one datatype per tag |
| Messenger.dfy | the liveness vector, the filter of `send` and `receiveWithTagBlock`, who a broadcast reaches, ids from the clock |
| LogFile.dfy | the log file as the sequence of its lines |
| Consensus.dfy | one node's consensus transitions, the choice of a value from promises, quorum intersection |
| ConsensusManager.dfy | the class: its handlers and `startConsensus` proved against those transitions |
| ConsensusMail.dfy | what the class sends: every answer told from the letters alone, and the three broadcasts of a round |
| StartConsensus.dfy | a whole `startConsensus` of the class as a run of the cluster |
| Cluster.dfy | the joint step system: nodes with their client thread, `clientConnMutex`, recovery threads and acceptor state, over FIFO channels per tag and pair |
| RecoveryLock.dfy | who owns `clientConnMutex` during recoveries |
| Replication.dfy | the replicated-log invariant |
| Validity.dfy | where logged values come from, what SUCCESS means, one entry per call |
| Discipline.dfy | what an acceptor promises and accepts over its life |
| Rounds.dfy, Choice.dfy, Votes.dfy | counters against sets of nodes, the value a round proposes, the quorum behind a commit |
| Carry.dfy | an accepted value survives a change of leader |
| Clock.dfy | round ids on a real clock |
| FailureManager.dfy | the class: liveness marks and state transfer |
| Election.dfy, ElectionManager.dfy | the bully election as a step system, and the class proved against it |
| Rings.dfy | port exchange and shutdown chain |
| ClientManager.dfy | the class: commands, acknowledgements, one node's part in the rings |
| Session.dfy | what a whole session sends to clients and to recovering nodes |
| TokenRing.dfy, Client.dfy | the clients' turn file as a token ring, and the client class |
| Reaching.dfy | reachable states, for stating that some run comes to one |
| Counterexamples.dfy, RoundCounterexamples.dfy | concrete runs, of the failure and of the consensus manager, that break a property once an assumption is dropped |

The step system of Cluster.dfy takes the steps the threads take between two waits or two sends: a receive handler, one
section of `startConsensus` or of `handleNodeRecovery`, one iteration of a broadcast loop. Channels are FIFO for each tag
and ordered pair (non-overtaking messages, section 3.5 of MPI: A Message-Passing Interface Standard, Version 4.0). A crashed
node takes no steps; `sleep_for` and time stamps become steps that may happen at any time, and where the length of a wait
matters it is a named assumption about the run. History fields (`lastRoundId`, `lastProposeId`, `heard`, `votes`, `events`,
`acks`, `submitted`, `proposals`, `used`, Election's `begun`, `declared`, `sent`, and the class field `exchange`) are
written and never read by a step.

Three links tie the classes to the step systems: `StartConsensus.CallIsRun` (a `startConsensus` is a run of the cluster),
`Client.TurnIsRingTurn` (a turn of a client is one of the token ring), `ClientManager.PortIsRingSend` with `Rings.OwnOrder`
(a node's part in the port exchange).

In Election.dfy an election starts from any leaders of before, also from one that has failed
(src/manager/failure-manager.cc:47-50), and a broadcast is one step that puts all its messages in flight; as each is
delivered at any later time and in any order, this also stands for a loop that sends them one by one. Its `aliveWait`
threads take three steps, because other threads may get in between the broadcast of one that wakes up without a leader and
its clearing of the flag.

The assumptions are predicates on steps, each stated where it is used:

- `Replication.StableRun`: only the leader is given commands and recovers nodes, recovery ids differ, and a STATE is handled
  when no ACCEPTED is queued behind the other tag. `Replication.TrustedRun` adds that a node the leader counts as alive does not
  suspect the leader. `Replication.ReplicatedLogIff` says exactly when the replicated log then holds: every STATE that reaches a
  node already marked alive again must still be current. `Replication.TimelyRun` is enough for that (STATE within its
  RECOVERY_DURATION window); `Counterexamples.LateStateLosesEntry` is a run of three nodes that loses a logged entry.
- `RecoveryLock.NotReused`: no recovery publishes the id of one that is closed, unless the node of the closed one is inside
  the window of another recovery with that id. `RecoveryLock.RecoveryOwnsTheLockIff` says that
  this is exactly what the ownership of the lock needs, in every run; `RecoveryLock.DistinctRun` (no node gives two recoveries
  the same id) is enough for it. Ids are whole seconds, and `Counterexamples.SharedIdLosesTheLock` is a run of two recoveries
  started in one pass of `checkTimeStamps`.
- `Rounds.IncreasingRun`: a node's own round ids increase.
- `Choice.OrderlyRun`: round ids are unique, a node's own increase, and a node inside `startConsensus` handles only PROMISE and
  ACCEPT. Ids of different nodes come in any order. Uniqueness across nodes is an assumption because ids are whole seconds
  (src/messenger.cc:243-248).
- `Votes.VotingRun`: an orderly run in which a node's PREPARE and PROPOSE messages get increasing ids. Nothing is asked of the
  delivery of PROPOSE and ACCEPT. `Clock.ClockMakesIdsIncrease` derives this, and `IncreasingRun`, from the waits.
- `Votes.OnlyOwnVotes`: every ACCEPT handled since the context was reset carries an id above the round's, the check that
  `handleAcceptMessage` leaves out. `Votes.AcceptCountIff` says that the count of ACCEPTs is the number of acceptors of the round
  iff this holds; `Votes.CleanStartsCountOwn` derives it when what is late arrives, or is lost, before the next round.
- `Carry.TakeoverRun`: the old leader is silent, the new leader's ids are above the old leader's last, and the acceptors of that
  round do not reset their context.
- `Election.Prompt`: VICTORY arrives before an `aliveWait` expires. `Election.HarmlessSoFar` is what only the winner needs: no
  thread clears the flag that alone holds its node back. `Timeout` itself waits until no ELECTION or ALIVE is in flight and
  every `triggerElection` thread has broadcast, which is what ELECTION_WAIT_DURATION stands for.

Where the code and its comments differ, the code is modelled:

- What is logged and announced is the client's value, not the value the round proposed and its acceptors accepted
  (src/manager/consensus-manager.cc:141-143 against 87). `Votes.LoggedIsAcceptedIff` says when they are the same.
- The comment at src/manager/consensus-manager.cc:266 speaks of the accept count; the counter is that of promises.
- `handleAcceptMessage` counts an ACCEPT of any proposal (`RoundCounterexamples.StaleAcceptCommits`).
- A round with (N-1)/2 responders is a majority with its proposer only for odd N (`Consensus.QuorumsMeetIffOdd`).
- src/include/client.hh says that a client ends once all commands of the clients are replicated. A client ends with its own
  commands, and others may then wait forever (`TokenRing.AllReplicatedIffBalanced`).
- `setAliveReceived(false)` at the end of `aliveWait` also clears a flag that a newer ALIVE has set since the thread woke up
  (src/manager/election-manager.cc:173-177); `Election.FalseVictory` is a run in which a node then declares victory although a
  higher one is up, and `Election.CoveredIff` says exactly when this does not happen.
- The election leaves the cluster without a leader when the highest live node did not call `startElection`: it answers ALIVE
  and broadcasts, but only `triggerElection` waits for the outcome (`Election.Agreement`).

## Model

| member | source | states |
|---|---|---|
| Messenger.IndexBijection | src/manager/failure-manager.cc:214-217 | `idToIndex` and `indexToId` are inverse bijections between the other nodes and the slots of the liveness vector, so no slot is out of range |
| Messenger.SlotUpdate | src/messenger.cc:287-292 | setting one slot adds or removes exactly the node the slot stands for |
| Messenger.ViewIsLastStatus | src/messenger.cc:287-292 | after any history of `setNodeStatus` a node is in the view iff the last status set for it was true |
| Messenger.DropsExactlyTheSuspected | src/messenger.cc:47-58 | exactly the non-failure traffic of the cluster's communicator with a node outside the view is dropped |
| Messenger.FilteredIffLastStatusFalse | src/messenger.cc:47-58 | a message is dropped iff it is not about failures and the last status set for the other node was false |
| Messenger.RecipientsExact | src/messenger.cc:89-101 | a broadcast reaches each node of its range that is not filtered once, in increasing order, and nobody else |
| Messenger.BroadcastExact | src/messenger.cc:89-101 | what a broadcast hands to MPI: one envelope to each other node of the range that is not suspected, in increasing order, and nothing else |
| Messenger.IdAt | src/messenger.cc:243-248 | an id is the time truncated to whole seconds |
| Messenger.Messenger.Start | src/messenger.cc:184-203 | at start everybody else is in the view |
| Messenger.Messenger.Send | src/messenger.cc:60-87 | exactly one message is handed on, or none when it is filtered |
| Messenger.Messenger.Broadcast | src/messenger.cc:89-101 | the loop sends to exactly `Recipients`, in order |
| Messenger.Messenger.ReceiveWithTagBlock | src/messenger.cc:129-146 | returns the first message that is not filtered or not readable; all before it were filtered |
| Messenger.Messenger.SetNodeStatus | src/messenger.cc:287-292 | the view gains or loses exactly one node |
| LogFile.LogFileManager.Append | src/log-file-manager.cc:38-43 | the log grows by one entry |
| LogFile.LogFileManager.Replace | src/log-file-manager.cc:45-49 | the log becomes the given one |
| LogFile.LogFileManager.Read | src/log-file-manager.cc:51-64 | reading yields the log and changes nothing |
| Consensus.BestIsReported | src/manager/consensus-manager.cc:258-267 | the running maximum is a reported acceptance of the highest round reported |
| Consensus.ChoiceIgnoresOrder | src/manager/consensus-manager.cc:85-92 | any permutation of the promises leads to the same proposal |
| Consensus.QuorumsMeetIffOdd | src/manager/consensus-manager.cc:55-55 | any two sets of a proposer and (N-1)/2 responders share a node iff N is odd |
| ConsensusManager.ConsensusManager.HandlePrepare | src/manager/consensus-manager.cc:160-192 | the handler is the transition `OnPrepare`, promise and filter included |
| ConsensusManager.ConsensusManager.HandlePropose | src/manager/consensus-manager.cc:194-224 | the handler is the transition `OnPropose` |
| ConsensusManager.ConsensusManager.HandlePromise | src/manager/consensus-manager.cc:246-270 | the handler is the transition `OnPromise` |
| ConsensusManager.ConsensusManager.HandleAccepted | src/manager/consensus-manager.cc:226-244 | the log grows by the announced value and the context is reset |
| ConsensusManager.ConsensusManager.HandleMessage | src/manager/consensus-manager.cc:282-319 | every message code runs its transition, and the reply goes to the sender unless filtered |
| ConsensusManager.ConsensusManager.Receive | src/manager/consensus-manager.cc:282-319 | a whole inbox is handled in order, fields and replies |
| ConsensusManager.ConsensusManager.StartConsensus | src/manager/consensus-manager.cc:124-158 | a whole call, with whatever arrives during its three waits, ends in the outcome `Round` and has sent exactly `RoundMail` |
| ConsensusManager.RoundLog | src/manager/consensus-manager.cc:137-157 | every path resets the context, and the client's value is added once iff consensus is reported |
| ConsensusManager.UndisturbedRound | src/manager/consensus-manager.cc:129-147 | without another proposer: it proposes iff a quorum of promises for its id came in time, proposes what they determine, and reaches consensus iff a quorum of ACCEPTs came since its start |
| ConsensusManager.LoggedNotProposed | src/manager/consensus-manager.cc:140-146 | a round that logs the client's value although it proposed an adopted one |
| ConsensusMail.RepliesExact | src/manager/consensus-manager.cc:160-224 | the consensus thread answers exactly the PREPAREs above all it has promised, with the acceptance in force, and the PROPOSEs of the highest round it has promised, whether it accepted before or not; each answer goes to the sender unless suspected, in the order of arrival |
| ConsensusMail.RoundMailExact | src/manager/consensus-manager.cc:60-158 | what a `startConsensus` sends, in this order: PREPARE to each other node not suspected; answers; PROPOSE with the chosen value to each of them iff a quorum promised; answers; ACCEPTED with the client's value to each of them iff it reports consensus; answers; nothing else |
| StartConsensus.CallIsRun | src/manager/consensus-manager.cc:124-158 | every call of the class, whatever arrives during its waits, continues any run of the cluster by steps of that node alone: same fields, same result, and on every channel exactly the messages the class hands to MPI |
| Cluster.DeliveryEffect | src/manager/consensus-manager.cc:282-319 | a delivery changes the receiver as its handler does, takes one message off one channel and puts at most the reply on the channel back |
| Cluster.FailureHandled | src/manager/failure-manager.cc:246-322 | what a failure message does to the log, the view and every channel: STATE replaces the log and is answered, STATE_UPDATED that answers the current recovery of a leader makes its sender alive and is announced to all others, RECOVERED makes its node alive elsewhere |
| Cluster.FailureEffect | src/manager/failure-manager.cc:337-377 | failure messages never touch a round in progress |
| RecoveryLock.CurrentAndStarted | src/manager/failure-manager.cc:73-100 | a current recovery whose STATE was sent, when it is inside its window, holds `clientConnMutex`, and the client thread is not connected |
| RecoveryLock.CurrentStepIff | src/manager/failure-manager.cc:64-101 | any step of any node puts a current recovery whose STATE was sent outside its window iff it publishes the id of a closed recovery whose node is not inside the window of another recovery with that id |
| RecoveryLock.RecoveryOwnsTheLockIff | src/manager/failure-manager.cc:64-101 | in every run, without assumption, for every node and any number of recovery threads: in all states up to k a current recovery whose STATE was sent is inside its window with the lock, and no `startConsensus` of the node runs, iff no id of a closed recovery was published again (but for a node inside the window of another recovery with that id) |
| Replication.HonouredIsCurrent | src/manager/failure-manager.cc:260-274 | in every `StableRun`, however late its STATE messages and whoever suspects whom: whenever STATE_UPDATED is honoured, also of a node already marked alive, that node's log is the leader's current log, and no round runs |
| Replication.InvStepIff | src/manager/failure-manager.cc:64-101 | under a stable, trusted leader every step, of every thread, keeps the joint invariant of logs, locks and transfers, except exactly the delivery of a STATE that is no longer current to a node marked alive |
| Replication.ReplicatedLogIff | src/manager/failure-manager.cc:303-322 | in every `TrustedRun` the logs agree in all states up to k iff every STATE that reached a node marked alive was still current |
| Replication.TimelyIsCurrent | src/manager/failure-manager.cc:79-100 | a STATE handled within its recovery window is current: nothing was logged since it was sent, nothing is owed |
| Replication.ReplicatedLog | src/manager/consensus-manager.cc:140-146 | in every state of every `TimelyRun` the log of each node the leader marks alive, then the ACCEPTED values queued to it, then what the broadcast loop owes it, is the leader's log |
| RecoveryLock.RecoveryOwnsTheLock | src/manager/client-manager.cc:51-63 | the same ownership for every node of every `DistinctRun`: recoveries with distinct ids are enough |
| Validity.LoggedWasSubmitted | src/manager/consensus-manager.cc:226-244 | in every run a value in any log was given to an earlier `startConsensus` |
| Validity.AcknowledgedIsReplicated | src/manager/client-manager.cc:35-44 | in every `StableRun` the leader's log is the acknowledged values in order plus at most one; in a `TrustedRun`, as long as the STATE messages were current, every acknowledged value is at, or on its way to, every node marked alive |
| Validity.OneEntryPerCall | src/manager/consensus-manager.cc:124-158 | from start to reset of one call of any node in any run, unless it is given ACCEPTED or STATE meanwhile, its log grows by the call's value iff consensus is reported, and the context ends fresh |
| Validity.SuccessFollowsQuorum | src/manager/client-manager.cc:35-44 | in every run, without any assumption, before SUCCESS is sent the same call counted at least (N-1)/2 ACCEPTs handled since the last reset and then wrote the value to the log |
| Validity.LogsAfterQuorum | src/manager/consensus-manager.cc:137-146 | in every run, without any assumption, a client thread comes to log a value only after at least (N-1)/2 ACCEPTs were handled since its last reset, and writes the log in no other way |
| Discipline.PromiseDiscipline | src/manager/consensus-manager.cc:169-213 | over whole runs and all resets: promised rounds strictly increase, nothing below a promise is accepted after it, and what is accepted was promised before, except round -1 |
| Discipline.AcceptIff | src/manager/consensus-manager.cc:207-223 | in every run a PROPOSE is accepted and answered by ACCEPT iff its round is the highest the node has ever promised, also by a node that has accepted before; otherwise nothing happens |
| Discipline.PromiseIff | src/manager/consensus-manager.cc:169-191 | in every run a PREPARE is promised iff its id is above every round promised so far; the promise reports the acceptance the context holds |
| Discipline.HistoryGrows | src/include/manager/consensus-manager.hh:97-100 | promises and acceptances are never forgotten from one state of a run to a later one |
| Discipline.UnpromisedRound | src/manager/consensus-manager.cc:85-92 | a PROPOSE with round -1, sent after a reset by another leader's ACCEPTED, is accepted without a promise |
| Rounds.PromiseCountIsDistinctNodes | src/manager/consensus-manager.cc:246-270 | in every state of every `IncreasingRun` the promise count is the number of distinct nodes, never the proposer, whose promise was handled, and each of them promised the current round; a reset context counts nothing |
| Choice.AcceptedValueIff | src/manager/consensus-manager.cc:258-264 | in every `OrderlyRun` a node with an accepted value holds the one its round proposed iff it adopted nothing or an equal value |
| Choice.SameRoundSameValue | src/manager/consensus-manager.cc:208-213 | in every `OrderlyRun` nodes that hold the same accepted id, and have adopted nothing, hold the same value |
| Choice.ProposeCarriesChoice | src/manager/consensus-manager.cc:85-92 | in every `OrderlyRun` the PROPOSE carries the client's value iff no counted promise reported an acceptance, otherwise that of the highest reported round, whatever the order of arrival |
| Votes.AcceptCountIff | src/manager/consensus-manager.cc:272-280 | in every state of every `VotingRun`, however late PROPOSE and ACCEPT messages are: the accept count is the number of distinct nodes, never the proposer, that accepted the value of the last round and whose ACCEPT was handled since the reset, iff every ACCEPT handled since then has an id above that round's; otherwise it is more |
| Votes.CommitHasQuorum | src/manager/consensus-manager.cc:36-36 | in every `VotingRun`, when the accept phase succeeds and only such ACCEPTs were handled since the reset, at least (N-1)/2 nodes other than the proposer accepted this very round and its value |
| Votes.CleanStartsCountOwn | src/manager/consensus-manager.cc:152-157 | when every PROPOSE and ACCEPT of a node is delivered or lost before its next round, only ACCEPTs of its last round are counted, in every state |
| Votes.LoggedIsAcceptedIff | src/manager/consensus-manager.cc:140-143 | in every `VotingRun`, when a value is logged: those counted for the round accepted the value it proposed, they are as many as were counted iff all ACCEPTs counted had an id above the round's, and the value logged is the one proposed iff at the PROPOSE nothing was adopted or the adopted value was the same |
| Carry.HeardTheQuorum | src/manager/consensus-manager.cc:55-55 | for odd N a quorum of promises without the old leader contains one of its acceptors |
| Carry.AcceptedValueIsCarried | src/manager/consensus-manager.cc:85-92 | in every `TakeoverRun`, after a change of leader, every PROPOSE of the new leader carries the value the old leader's quorum accepted, however many rounds it needs |
| Clock.RoundIdGap | src/manager/consensus-manager.cc:47-47 | on a monotone clock two rounds of one proposer get ids at least 8 apart |
| Clock.ClockMakesIdsIncrease | src/messenger.cc:243-248 | the waits of `startConsensus` make the ids of every node's own rounds, and of its PREPARE and PROPOSE messages in turn, increase in every run |
| Clock.EveryRoundPromised | src/manager/consensus-manager.cc:169-191 | an acceptor that hears one proposer promises every one of its rounds |
| FailureManager.TimeoutsInSeconds | src/manager/failure-manager.cc:112-143 | truncation makes the timeout two seconds and the recovery limit one; no node is failed and recovered at once |
| FailureManager.FailureManager.constructor | src/manager/failure-manager.cc:194-204 | initially everybody is alive in both liveness views and the client thread holds the mutex |
| FailureManager.FailureManager.CheckTimeStamps | src/manager/failure-manager.cc:103-161 | one pass starts a failure thread and a recovery thread for exactly the nodes that call for it, each once |
| FailureManager.FailureManager.HandleNodeFailure | src/manager/failure-manager.cc:33-51 | both views lose the failed node, and an election starts iff it was the leader |
| FailureManager.FailureManager.EnableComm | src/manager/failure-manager.cc:231-244 | both views gain the recovered node |
| FailureManager.FailureManager.HandleRecovered | src/manager/failure-manager.cc:282-301 | the recovered node renews every time stamp, the others mark it alive |
| FailureManager.FailureManager.HandleState | src/manager/failure-manager.cc:303-322 | the log becomes the one received and the sender gets its id back |
| FailureManager.FailureManager.HandleStateUpdate | src/manager/failure-manager.cc:246-280 | honoured iff it answers the current recovery of a leader; VICTORY goes back in any case unless filtered |
| FailureManager.FailureManager.TransferState | src/manager/failure-manager.cc:79-91 | with the lock taken, the STATE sent carries the log of that moment |
| FailureManager.FailureReachesAll | src/messenger.cc:55-57 | failure messages reach every other node whatever the view |
| Election.StepCost | src/manager/election-manager.cc:187-218 | every step lowers the measure, and ELECTION messages sent plus still due stay the same |
| Election.ElectionCost | src/manager/election-manager.cc:35-40 | every delivery order ends within a bound computed from the start, and then has sent exactly the total of the cascades |
| Election.CostWithEveryoneUp | src/manager/election-manager.cc:188-195 | one starter i costs 2^(n-1-i) - 1 ELECTION messages, all n starting 2^n - n - 1 |
| Election.OnlyHighestTimesOut | src/manager/election-manager.cc:96-106 | under the covering invariant nobody below the highest live node times out without a leader |
| Election.CoveredIff | src/manager/election-manager.cc:163-178 | in every run, whichever `aliveWait` expires: up to any state every live node below the highest that has broadcast has a leader, an ALIVE or an answer on its way, iff no thread cleared the flag that alone held its node back |
| Election.FalseVictory | src/manager/election-manager.cc:173-177 | a run of two nodes in which the lower one declares victory although the higher one is up |
| Election.LowerDeclaresIff | src/manager/election-manager.cc:94-106 | in every run, however early an `aliveWait` expires: a node below the highest live one declares victory in a step iff it times out in it without an ALIVE heard, a leader, or an answer of the highest on its way |
| Election.OnlyTheHighestWins | src/manager/election-manager.cc:58-116 | whoever was the leader before, in every state of every run in which no thread cleared the flag that alone held its node back: only the highest live node declares, at most once and only if it started; a node keeps its old leader until it broadcasts and then takes nobody but the highest for the leader; ELECTION goes up, ALIVE down |
| Election.PromptRunIsHarmless | src/manager/election-manager.cc:163-178 | when VICTORY arrives before any `aliveWait` expires, no thread ever clears the flag that alone holds its node back |
| Election.Agreement | src/manager/election-manager.cc:101-116 | from any leaders of before, a failed one included: at rest there is a new leader iff the highest live node called `startElection`, which is then everybody's leader with nothing in flight or waiting; otherwise the live nodes from the lowest starter on have no leader and the others the one they had |
| ElectionManager.LoopEndsIff | src/manager/election-manager.cc:83-99 | the loop ends at the first poll without an ALIVE wait that sees a leader or two seconds |
| ElectionManager.CallsAreRecipients | src/manager/election-manager.cc:38-40 | the ELECTION messages of the step system are those the messenger's broadcast sends |
| ElectionManager.ElectionMail | src/manager/election-manager.cc:35-65 | ELECTION goes once to each node above that is not suspected, VICTORY once to each other node that is not suspected, and to nobody else |
| ElectionManager.ElectionManager.BroadcastElection | src/manager/election-manager.cc:21-41 | the leader of before is forgotten, no ALIVE counts as heard, and the nodes above are called |
| ElectionManager.ElectionManager.WaitForVictory | src/manager/election-manager.cc:71-116 | the polling loop stops at `LastPoll`, and declares victory and publishes the client port iff it then sees no leader |
| ElectionManager.ElectionManager.SetAliveReceived | src/manager/election-manager.cc:156-161 | the flag alone is set, at the start and at the end of `aliveWait` |
| ElectionManager.ElectionManager.WakeAliveWait | src/manager/election-manager.cc:173-175 | after its sleep the thread starts the election over iff there is no leader |
| ElectionManager.ElectionManager.HandleMessage | src/manager/election-manager.cc:180-220 | the three codes change fields and send messages as in the step system |
| Rings.ExchangeCompletes | src/manager/client-manager.cc:127-138 | the exchange takes exactly 2 n steps, cannot stop before, and leaves every node with the port of the next |
| Rings.SendsMeetReceivers | src/manager/client-manager.cc:99-112 | whoever sends finds its receiver waiting, so nothing depends on buffering |
| Rings.OwnOrder | src/manager/client-manager.cc:127-138 | in every run node 0 sends before it receives and every other node receives before it sends, each once |
| Rings.ShutdownVisitsAll | src/manager/client-manager.cc:140-158 | when all agree on the leader, SHUTDOWN visits every node exactly once from the leader to its predecessor and stops |
| Rings.ShutdownIff | src/manager/client-manager.cc:148-157 | without agreement: the chain shuts down everybody and stops iff the predecessor of the first node names it leader and nobody else names its own successor |
| ClientManager.TakenUntilShutdown | src/manager/client-manager.cc:70-80 | what is served is exactly what came before the first SHUTDOWN |
| ClientManager.LogIsAcknowledged | src/manager/client-manager.cc:35-44 | over a session, recoveries between connections included, the log grows by exactly the acknowledged values, in order |
| ClientManager.ContextIsFresh | src/manager/consensus-manager.cc:152-157 | every command of a session starts from the context a fresh node has |
| Session.RequestServed | src/manager/client-manager.cc:65-97 | what one request leaves and sends: for a command the fields of its round and consensus traffic, which tells the value to every other node not suspected before SUCCESS goes to the sender on its connection, iff consensus was reached; after DISCONNECT the STATE of each waiting recovery with the log of that moment; otherwise nothing |
| Session.SuccessExact | src/manager/client-manager.cc:35-44 | over a whole session the clients get exactly one SUCCESS for each request whose round reached consensus, in order, each to its sender, and the acknowledged values are those of these requests |
| Session.StatesExact | src/manager/client-manager.cc:51-63 | over a whole session the STATE messages are exactly those of the recoveries that run after a DISCONNECT that is taken, in order, each with the log of that moment |
| ClientManager.PortExact | src/manager/client-manager.cc:99-112 | PORT goes to the node whose successor is the sender, and to nobody when that is suspected |
| ClientManager.PortIsRingSend | src/manager/client-manager.cc:99-112 | a node that suspects nobody sends exactly what the ring's step puts in each inbox |
| ClientManager.ClientManager.HandleMessage | src/manager/client-manager.cc:19-49 | a command runs one round, and SUCCESS goes to its connection iff consensus was reached |
| ClientManager.ClientManager.AcceptConnection | src/manager/client-manager.cc:51-63 | while the mutex is released the waiting recoveries run one at a time and send the log as it is; then it is held again |
| ClientManager.ClientManager.ReceivePendingMessages | src/manager/client-manager.cc:65-97 | the loop leaves the fields, the acknowledgements and every message sent as `Serve` says, with the mutex held |
| ClientManager.ClientManager.ExchangePorts | src/manager/client-manager.cc:127-138 | the received port is kept, one PORT goes to the predecessor unless that is suspected, and node 0 sends first, the others receive first |
| ClientManager.ClientManager.EnableClientConn | src/manager/client-manager.cc:184-187 | the port of the node is published |
| ClientManager.ClientManager.ShutdownNeighbor | src/manager/client-manager.cc:140-158 | SHUTDOWN goes to the next port iff the next node is not the leader |
| TokenRing.RoundRobin | src/client.cc:144-203 | line j of the turn file is j mod n, at most one client has the turn, and the k-th replication is command k div n of client k mod n |
| TokenRing.RunsEnd | src/client.cc:169-203 | every run ends, within a bound on the number of steps |
| TokenRing.TotalTurns | src/client.cc:184-199 | at rest exactly the least of n m_i + i turns were taken |
| TokenRing.AllReplicatedIffBalanced | src/client.cc:187-199 | every command is replicated iff no client runs out more than one turn before another |
| TokenRing.EqualCounts | src/client.cc:184-199 | with m commands each, exactly n m turns, and everything is replicated |
| Client.Commands | src/client.cc:185-189 | the commands are the lines before the first empty one |
| Client.SentOnceIff | src/client.cc:70-114 | a command is sent once iff its first try is answered or is the only one |
| Client.ConversationExact | src/client.cc:66-117 | each try sends REPLICATE with the command and then DISCONNECT |
| Client.SentExact | src/client.cc:66-117 | all a client ever sends, also in a turn it is stuck in, is REPLICATE and then DISCONNECT for each try, the commands in order and each as often as it was tried; never SHUTDOWN |
| Client.TurnIsRingTurn | src/client.cc:184-199 | a turn of the class is a turn of the token ring: same lines read, same command replicated, one line added |
| Client.Client.WaitForTurn | src/client.cc:144-158 | reads up to and including the first line that names the client or is "shutdown", skipping no such line |
| Client.Client.SetTurn | src/client.cc:160-167 | the next client's id is appended |
| Client.Client.Replicate | src/client.cc:66-117 | tries until SUCCESS, one REPLICATE and one DISCONNECT each |
| Client.Client.ReplicateCommands | src/client.cc:169-203 | the turn file, the position and every message sent are those of `AfterCommands`: all commands done, or stuck in the turn of one |
| Client.DoneIff | src/client.cc:184-199 | the first k commands are done iff each of them got a turn and a SUCCESS |
| Client.DoneIsSent | src/client.cc:189-195 | commands done were sent in order, as often as tried, and the last turn ended with the next client's id |
| RoundCounterexamples.SecondProposerChangesChoice | src/manager/consensus-manager.cc:208-213 | two proposers: the shared context makes a round propose a value its promises did not determine |
| RoundCounterexamples.AdoptionOverwritesAcceptance | src/manager/consensus-manager.cc:261-264 | a run of five nodes with unique ids and one proposer at a time after which a node holds an adopted value under the id of the round it had accepted; if a PREPARE then reaches it in its own round, its promise reports that pair |
| RoundCounterexamples.StaleAcceptCommits | src/manager/consensus-manager.cc:272-280 | a run of three nodes, with unique increasing ids and one proposer, that logs a value in a round nobody has accepted, counting an ACCEPT of the round before |
| Counterexamples.SharedIdLosesTheLock | src/manager/failure-manager.cc:260-274 | a run under a stable leader with two recoveries of one id, in which the STATE_UPDATED of the first is honoured after its window, while a round runs |
| Counterexamples.LateStateLosesEntry | src/manager/failure-manager.cc:282-322 | a run of three nodes in which a STATE that outlives its window removes an entry a node marked alive had logged |

## Left out

- Replication.ReplicatedLog: assumes that a STATE for a node already marked alive arrives within its recovery window, which the code does not ensure; without that assumption `Replication.ReplicatedLogIff` says exactly when the logs agree.
- Choice.SameRoundSameValue: speaks of nodes that have adopted nothing; `Choice.AcceptedValueIff` says exactly what the others hold, and `RoundCounterexamples.AdoptionOverwritesAcceptance` reaches such a state.
- Election.OnlyTheHighestWins: asks that no thread clears the flag that alone holds its node back; `Election.FalseVictory` shows that the code does not ensure it, and `Election.LowerDeclaresIff` says exactly when another node declares.
- Votes.CommitHasQuorum: asks that the ACCEPTs handled since the reset answer this round's PROPOSE, which the code does not check; `Votes.AcceptCountIff` says that the count is exact iff they do, and `RoundCounterexamples.StaleAcceptCommits` is a run in which they do not.
- RecoveryLock.RecoveryOwnsTheLock: asks for distinct recovery ids; `RecoveryLock.RecoveryOwnsTheLockIff` has the exact condition.
- Replication.HonouredIsCurrent: still asks for distinct recovery ids and for a STATE that finds no ACCEPTED queued behind the other tag.
- Discipline.PromiseDiscipline: excepts round -1, which `Discipline.UnpromisedRound` shows to be accepted without a promise.
- FailureManager.FailureManager.HandleStateUpdate: the two views are set one after the other; the model compares them between handlers only.
- Clock.RoundIdGap: ids are unbounded integers; the 32-bit truncation of MPI_Wtime is not modelled.
- ElectionManager.ElectionManager.WaitForVictory: the fields other threads leave between two polls are a parameter, and the leader read after the loop is that of the last poll.
- StartConsensus.CallIsRun: the call of the class has a fixed view and handles its letters between its broadcasts; suspicions that arise, and letters handled, during a broadcast are in the steps of the cluster only.
- ClientManager.ClientManager.AcceptConnection: the recoveries that run meanwhile are a parameter, and STATE_UPDATED, which may change the view, is not handled between them.
- Safety with several proposers at once: the shared context and the unchecked ACCEPT mean the code does not promise it.
- In the cluster, PING and clocks are replaced by Suspect and Spawn steps that may happen at any time; the exact timeouts are in FailureManager.dfy.
- In the cluster, VICTORY sent after STATE_UPDATED is an Elect step that may set any leader.
- A crash is a node that takes no steps: the server pauses its threads rather than losing state, and the log file is never damaged.
- MPI ports, connect, accept and disconnect, and the blocking of MPI_Send outside the port exchange.
- JSON encoding, the 1000-byte buffer and unreadable messages beyond `isValid`.
- Log file I/O: newlines inside a value, partial writes and the concatenation `replace` leaves without a final newline.
- The "shutdown" line of the turn file in the ring of TokenRing.dfy; `Client.Client.WaitForTurn` has it.
- Lines of the turn file that are not numbers, and lines read while they are being written.
- REPL commands, speeds, printing, scripts, receiver dispatch and the order in which managers are shut down.

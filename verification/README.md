# Two-node quantum barrier: model and proofs

Two simulated machines each run a node.  The nodes exchange packets and control messages over two
one-way shared-memory rings and are kept in step by a conservative quantum barrier: virtual time is cut
into rounds of length Q, equal to the packet latency, and no node starts round k + 1 before it holds its
peer's sync of round k.  On the same channels run a coordinated checkpoint (DRAIN_START carries the round
at which both nodes snapshot; behind an "init_warmed" snapshot, the only one the program asks for, the
master's process ends) and an exit handshake (INTENT, PERMISSION, END) shared by two threads of each node.
A table of in-flight messages is saved to and restored from a text file.

The project proves what the program's own assertions take for granted, over every run: any interleaving
of the steps of both nodes and of both threads of each node, any guest traffic, any length.

| file | what it holds |
|---|---|
| Messages.dfy | messages, logs of all that was ever sent, counting in them |
| Machine.dfy | one node as a record, its atomic steps, the pair of nodes, runs |
| Barrier.dfy | the barrier's inductive invariant; causality, sync validity, clocks |
| Equivalence.dfy | deterministic guests under the barrier against a simulation with one clock |
| Conservation.dfy | packets: nothing lost, nothing twice, delivered at the stamped time |
| Checkpoint.dfy | agreement on the checkpoint round; a checkpoint loses no packet |
| Exit.dfy | the handshake's invariant under all four threads |
| Orderly.dfy | all invariants together: no assertion fires, and exactly when a peer is stranded |
| Progress.dfy | liveness of the barrier in infinite, strongly fair behaviours |
| ExitProgress.dfy | liveness of the exit handshake |
| Continuations.dfy | what a node can be made to do: continuations put together from whole activities |
| Requests.dfy | what a checkpoint request can lead to, whatever name it is made under |
| WarmRequests.dfy | requests as the program makes them, and the exact condition under which one is harmless |
| Witnesses.dfy | runs that break each promise when its rule is dropped |
| RingBound.dfy | how full a channel gets; why the blocking send never blocks |
| Ring.dfy | the circular buffer as an object, and its two threads access by access |
| TwoSenders.dfy | two threads sending on one ring at the same time |
| Node.dfy | the node as an object: the program's functions as methods that update fields |
| Calls.dfy | every such call is a run of the machine's steps |
| Effects.dfy | what each call gets done: the messages it sends, the flags it sets, the assertion it raises |
| SyncCounts.dfy | the round table with its truncated keys |
| Inflight.dfy | the table of in-flight messages |
| SavedText.dfy | its text form, the scanner, the round trip |
| SavedLayout.dfy | what that text looks like |
| SavedFile.dfy | printer and scanner as loops, proved against that |
| DrainNotice.dfy | the bytes of a drain notice |

A channel is the sender's log from the receiver's position on.  Every shared access of the exit code is a
step of its own; the rest of a main-thread call is split at its polls.  The methods of `PdesNode` take
whole calls at once and are specified by functions on the machine's record; `Calls` shows that each such
call is its entry step followed by nothing but its own thread's instructions and polls, so the theorems
about runs cover them; `Effects` says in messages and fields what each call gets done.

`Side.warm` says under which name the nodes request checkpoints: "init_warmed", as the program does, or
another one, after which the master goes on like its follower.  Every theorem holds for both unless it says
otherwise; nothing in the program uses the second yet.

The safety theorems about all parts together need four rules, each named in `Orderly.Keeps`:

1. Every checkpoint request is safe (`Checkpoint.Safe`): it is made before the sync of the current round
   goes out, and the previous request is at least two rounds back, or one round back and already served by
   the follower, or still pending for this very round.  The master can check a sufficient condition by
   itself (`Checkpoint.LocallySafe`): if the previous request is one round back, it already holds its
   peer's sync of this round.  Under "init_warmed" there is one request at most, and it is safe exactly
   when it is in time (`WarmRequests.SafeIsTimely`).
2. A grant is not overtaken by a concurrent `notify_neighbours_of_end` of the same node: no thread passes
   the permission test of the END code between "flag set" and "PERMISSION sent" (`Exit.GrantUncut`).
3. One thread does not end the process while the other stands in the END code (`Exit.EndsCleanly`).
4. No guest sends an empty frame (the delivery callback asserts on one).

The barrier theorems need none of them, and the liveness theorems do without rule 1: they say what is
reached unless a node has ended or asserts that a checkpoint round is passed.  The rules bind the program
as much as its environment: rule 1 can be broken by the arrival of a message alone, because the master
makes its request inside the poll that takes its peer's first CHECKPOINT_INIT_STEP, and the waiting loop
polls when the sync is already out.

None of rules 1 to 3 is superfluous, and rule 1 is exact.  `WarmRequests.RequestExact` says of every state
within the rules in which both nodes are alive and in their event loops: a request made there can end in a
passed or a skipped checkpoint if and only if it is not safe, but for a late repetition of the "init_warmed"
request still pending, which is harmless.  For rule 2, from any state in which the overtaking read is about
to happen while the follower is alive and in its event loop, the follower can be driven into its assertion.
For rule 3 the condition is exact (`Exit.StopMeansEndSent`, `Witnesses.UncleanEnd`).

Findings where the code falls short of what its comments promise:

- A request that becomes visible only when the sync of its round is out, as one made by a poll of the
  waiting loop, is notified behind that sync.  The follower can have left the round without its snapshot; it
  never gets one, and waits for ever for a master that ends in the round before
  (`Requests.LateRequestSkips`, `WarmRequests.WarmExact`, `WarmRequests.LateRequestWaits`,
  `Witnesses.LateRequest`).
- The master ends behind its "init_warmed" snapshot without an END unless its PERMISSION is already out;
  the follower then never gets to know and never ends, also when the request was in time
  (`Orderly.NoStrandedPeer`, `ExitProgress.PeerEndsExactly`, `Witnesses.SilentEnd`).
- END can overtake PERMISSION (`Witnesses.CutGrantReachable`, `Witnesses.CutGrantIsFatal`), and `can_stop`
  can return true while the main thread still holds the END (`Witnesses.StrandedFollower`).
- When the main thread and `can_stop` send at the same time, one message is lost if and only if both have
  read the same write index (`TwoSenders.LostExactly`).
- The round table is keyed by 32 bits: at round 2^32 the count of round 0 opens the barrier
  (`SyncCounts.BarrierAliases`, `Witnesses.OpenAtSpan`).
- The text scanner passes a null pointer to `strstr` exactly when the last record carries bytes
  (`SavedText.SaveLoad`); it is read here as the end of the text.
- The drain notice's length check leaves out the 12 bytes behind the name (`DrainNotice.BuildNotice`); the
  names in use always fit (`DrainNotice.NamesInUseFit`).

Under another name, whose master goes on, two things would have to be looked at: a late request lets the
follower assert (`Requests.LateExact`), and of two requests in successive rounds one can be lost, exactly as
long as the follower has not served the first one (`Requests.CloseExact`).

Conventions: round k ends at universal time k * Q; round 0 ends at time 0.  Quanta are half open: the tick
at k * Q belongs to the round that starts there.

## Model

| member | source | states |
|---|---|---|
| Barrier.StepKeepsInv | net/pdes-wwt.c:141-546 | The inductive invariant tying rounds, phases, clocks, the round table and the position of every sync and packet in both channels is kept by every step of either node |
| Barrier.Causality | net/pdes-wwt.c:188-222 | In every reachable state of every interleaving the next packet to be polled is not in the receiver's past, the next sync is for a round the node accepts and has not counted yet, and neither assertion has fired |
| Barrier.PolledMessageIsFine | net/pdes-wwt.c:188-222 | The message next in the channel carries a stamp not before now, or the very sync that comes next in order, which the node accepts; this covers packets sent while paused after the round's sync |
| Barrier.ClockInQuantum | net/pdes-wwt.c:466-470 | A node in round k > 0 stands in [(k-1)*Q, k*Q], exactly at k*Q once finished; in round 0 at time 0 |
| Barrier.ClockSkew | net/pdes-wwt.c:446-470 | The nodes' rounds differ by at most one and their universal times by at most Q |
| Barrier.BarrierOpensOnPeerOnly | net/pdes-wwt.c:243-252 | The wait is over if and only if the peer's sync of this very round has been taken, and every count is 0 or 1 |
| Barrier.Chain | net/pdes-wwt.c:446-448 | How many syncs the peer has sent, how many this node has seen, and the two rounds bound each other |
| Barrier.NthSync | net/pdes-wwt.c:141-146 | A log with more than k syncs holds the sync of round k behind exactly k others: each round's sync is sent once, in order |
| Barrier.SyncTimerIsFree | net/pdes-wwt.c:534 | Whenever the quantum timer fires in a reachable state, no sync-check timer exists: the assertion on it cannot fire |
| Equivalence.SequentialEquivalence | net/pdes-wwt.c:150-160 | For deterministic guests, at every point of every interleaving each guest's history of deliveries and sends up to its own time is that of a simulation with one clock and latency Q |
| Equivalence.InterleavingUnobservable | net/pdes-wwt.c:338-546 | Any two interleavings give a node the same history as far as both have come |
| Equivalence.GuestGoesOn | net/pdes-utility.c:8-26 | A running guest always has its next action: a delivery due, its tick, its next packet, or the next tick |
| Equivalence.NothingUnderWay | net/pdes-wwt.c:203-231 | While a node runs a tick, no packet for that tick is still in its channel |
| Equivalence.InboxIsArriving | net/pdes-wwt.c:203-231 | When a guest runs a tick it has been given exactly what the reference delivers in that tick, in the same order |
| Conservation.PacketsConserved | net/pdes-wwt.c:203-231 | The packets scheduled and delivered at a node are, as a multiset with their times, exactly those it has taken from its channel |
| Conservation.DeliveredOnTime | net/pdes-utility.c:8-26 | What a delivery timer hands over is a packet the peer sent, stamped with the receiver's present universal time |
| Checkpoint.CheckpointAgreement | net/pdes-wwt.c:305-336 | With safe requests both nodes snapshot the requested rounds, in order and never twice; a node past a requested round has its snapshot; the "already passed" assertion never fires |
| Checkpoint.CheckpointLosesNothing | net/pdes-checkpoint.c:292-309 | When a snapshot is taken the node is finished, in the agreed round, holds the peer's sync of it, and has scheduled or delivered every packet the peer sent before that sync |
| Checkpoint.NoOverwrite | net/pdes-engine.c:230-261 | With safe requests a follower never takes a drain notice while an earlier checkpoint is pending, and none for a round it has passed |
| Checkpoint.NotDueAgain | net/pdes-checkpoint.c:292-309 | A checkpoint taken in a round is not due again in that round |
| Checkpoint.FollowerWasTold | net/pdes-engine.c:230-261 | A follower that has left a requested round behind has its snapshot of it |
| Checkpoint.NoticeBeforeSyncIffTimely | net/pdes-wwt.c:512-527 | The notice stands before the sync of the round it names if and only if the request was visible before that sync went out |
| Checkpoint.LocalRuleSuffices | net/pdes-wwt.c:512-520 | The condition the master can check by itself, its peer's sync of this round when the previous request is one round back, implies that the request is safe |
| Requests.SkippedForEver | net/pdes-checkpoint.c:292-309 | A requested round that the follower has left without a snapshot stays without one in every continuation, within the rules or not |
| Requests.LateRequestSkips | net/pdes-engine.c:279-287 | From every calm state with the sync of a new round already out, a request lets the follower go on into the next round without its snapshot, and no continuation ever gives it one |
| Requests.LateExact | net/pdes-wwt.c:305-336 | Under a name whose master goes on, with the previous request out of the way: a request can drive the follower into the "already passed" assertion if and only if the sync of its round is already out |
| Requests.CloseExact | net/pdes-engine.c:242-261 | A timely request one round after the previous one (only under a name whose master goes on, `WarmRequests.SafeIsTimely`) can make the follower skip a requested round if and only if the follower lacks the previous snapshot |
| Requests.SafeRequestIsHarmless | net/pdes-engine.c:279-287 | After a safe request, made by a poll or by a call, no continuation within the rules fails |
| Requests.LateRequestIsFatal | net/pdes-wwt.c:305-336 | Under a name whose master goes on: from every calm state with the sync already out, a request leads to the follower's assertion; the continuation is constructed |
| Requests.CloseRequestSkips | net/pdes-checkpoint.c:292-309 | From every calm state with the previous round unserved, a timely request one round later leads to a skipped round, whether or not a snapshot is already scheduled |
| Requests.FollowerUp | net/pdes-wwt.c:338-546 | While the master waits, the follower alone can always be brought into the next round with everything taken, serving what is pending |
| WarmRequests.RequestExact | net/pdes-engine.c:179-194 | In every calm state, under either name, a request can be continued within the rules to a passed or a skipped checkpoint if and only if it is not safe and not the late repetition of a pending "init_warmed" request |
| WarmRequests.WarmExact | net/pdes-engine.c:190-191 | Under "init_warmed" that is: if and only if the request is late and not such a repetition |
| WarmRequests.SafeIsTimely | net/pdes-checkpoint.c:311-316 | Because the master ends with its first snapshot, no request of its follows another by one round, and a request is safe exactly when it is in time |
| WarmRequests.LateRequestWaits | net/pdes-checkpoint.c:311-316 | After a late "init_warmed" request nobody ever asserts: the master stays in its round and ends there, and a follower in the next round waits for ever |
| WarmRequests.RepeatIsHarmless | net/pdes-engine.c:438-464 | Asking again for the pending "init_warmed" checkpoint, though late, fails in no continuation: the follower serves the first notice before it leaves the round |
| Exit.ExitFlagSafety | net/pdes-engine.c:204-228 | With an uncut grant no node takes END or knows its peer has ended while not permitted itself, and permission exists only after the follower's INTENT and the master's own request |
| Exit.EndFindsPermission | net/pdes-engine.c:215-228 | Whoever polls an END is permitted to exit |
| Exit.EndOnce | net/pdes-engine.c:104-119 | Under all interleavings of both threads each side emits at most one END, only when permitted, and on the master's channel behind a PERMISSION |
| Exit.StopMeansEndSent | net/pdes-engine.c:466-490 | When `can_stop` is about to return true, the END is out if and only if the main thread does not hold it between its swap and its send; likewise for the exit branch and the Flexus thread; behind the master's last snapshot it is out if and only if the PERMISSION is |
| Orderly.StepKeepsAll | net/pdes-wwt.c:141-546 | Barrier, checkpoint, handshake and packet invariants together are kept by every step within the four rules |
| Orderly.StepKeepsCore | net/pdes-wwt.c:141-546 | However checkpoints are asked for, barrier, handshake and packet invariants are kept: no assertion but the one on a passed checkpoint can fire |
| Orderly.NoAssertFires | net/pdes-wwt.c:163-477 | In a run within the four rules none of the assertions on a past packet, a wrong round, a passed checkpoint, an early END and an empty delivery ever fires |
| Orderly.NoStrandedPeer | net/pdes-wwt.c:345-383 | The peer of an ended node has its END or will poll it if and only if the node did not end behind its "init_warmed" snapshot before its PERMISSION was out; whoever has it can poll or take its exit branch |
| Progress.BarrierProgress | net/pdes-wwt.c:338-546 | In every infinite strongly fair behaviour, whatever checkpoints are asked for and when, both nodes complete every round k < 2^32 unless one has ended or asserts that a checkpoint round is passed; only an endless stream of requesting calls within one round is excluded |
| Progress.NothingFreezes | net/pdes-wwt.c:345-383 | Once no call asks for a checkpoint any more, no fair behaviour stays for ever in the same two rounds with both nodes alive and no assertion fired: no deadlock and no livelock |
| Progress.ReachesDeadline | net/pdes-wwt.c:466-470 | A running node reaches its quantum deadline although due deliveries hold its clock, because nothing that arrives is due before the deadline |
| Progress.ArrivesLater | net/pdes-wwt.c:203-231 | A packet polled short of the deadline is due later than now |
| Progress.LowerSyncs | net/pdes-wwt.c:243-252 | When both nodes wait, the one not ahead gets its missing sync by polling |
| Progress.OpenBarrierMoves | net/pdes-wwt.c:414-477 | A node holding the peer's sync leaves its wait, taking a due snapshot first, once no new checkpoint comes in |
| Progress.NeedsEnd | net/pdes-engine.c:279-292 | In a behaviour that stays in its rounds, once no call asks any more, every node comes to have no new checkpoint to serve: a poll asks once at most, and the drain notices end |
| Progress.ThreadTurn | net/pdes-engine.c:104-119 | A thread in the exit code gets to its next instruction unless the process ends first |
| Continuations.CloseQuantum | net/pdes-wwt.c:479-546 | A running node alone can always be brought to the end of its quantum and its sync, the notice first if one is due |
| ExitProgress.BothStop | net/pdes-engine.c:466-490 | When both sides keep calling `can_stop` and polling, both calls eventually return true or the nodes have ended, whatever the order of the four threads, the number of rounds and the requests for checkpoints, unless the master ends silently behind its snapshot, a checkpoint round is passed, or, with rounds beyond 2^32 only, another assertion fires |
| ExitProgress.PeerEndsToo | net/pdes-wwt.c:345-383 | In a fair behaviour a node whose peer has ended with its END out leaves its wait and ends as well, or asserts that a checkpoint round is passed |
| ExitProgress.PeerEndsExactly | net/pdes-checkpoint.c:311-316 | In a fair behaviour without assertions the peer of an ended node ends if and only if the END is out; the follower of a master that ended silently never does |
| ExitProgress.Granted | net/pdes-engine.c:477-483 | Once the master has the INTENT it becomes permitted, whichever granting site wins |
| ExitProgress.BarrierGrantsInTime | net/pdes-wwt.c:423-443 | Without any further `can_stop`, a ready master with the INTENT counted becomes permitted in every fair behaviour, unless a node has ended or asserts that a checkpoint round is passed |
| ExitProgress.EndOut | net/pdes-engine.c:104-114 | A permitted node gets its END out, whichever thread wins the swap |
| ExitProgress.CountTaken | net/pdes-engine.c:296-318 | Everything in the peer's log now is eventually polled, unless the receiver ends |
| Witnesses.CutGrantReachable | net/pdes-engine.c:116-119 | A state in which a notification is about to overtake a grant is reachable |
| Witnesses.CutGrantIsFatal | net/pdes-engine.c:215-228 | From any such state, the follower alive and in its event loop, it can be driven into the END assertion |
| Witnesses.UncleanEnd | net/pdes-engine.c:104-119 | Ending the process after a successful `can_stop` leaves no END behind if and only if the main thread stands at its send |
| Witnesses.NeverKnown | net/pdes-wwt.c:356-363 | After such an end no continuation ever lets the peer know |
| Witnesses.StrandedFollower | net/pdes-engine.c:488-489 | Such an end is reachable |
| Witnesses.LateRequest | net/pdes-engine.c:279-287 | From the start of a run within the rules the master comes to poll its peer's CHECKPOINT_INIT_STEP in its waiting loop; the request so made is late, and there is a continuation after which the follower has no snapshot of round 0, waits in round 1 and never asserts, for ever |
| Witnesses.LateRequestAsserts | net/pdes-wwt.c:305-336 | Under a name whose master goes on, the same request ends in the "already passed" assertion |
| Witnesses.RequestsTooClose | net/pdes-engine.c:242-261 | Under a name whose master goes on, the master comes to a timely request one round after an unserved one, and a continuation skips a requested round |
| Witnesses.SilentEnd | net/pdes-checkpoint.c:311-316 | From the start of a run within the rules a checkpoint asked for in time ends the master's process with no END, the follower being alive |
| Witnesses.OpenAtSpan | net/pdes-utility.c:43-54 | A node past round 0 never waits in a round that is a multiple of 2^32, whatever its peer does |
| RingBound.ChannelBound | net/pdes-communicator.c:155-193 | With at most M packets a round, sent while running, and C control messages in two rounds, a channel never holds more than 2(M+1)+C messages |
| RingBound.RingNeverBlocks | net/pdes-communicator.c:167-178 | If that bound is at most RING_SIZE - 1 every send finds a free slot |
| Ring.ShmRing.constructor | net/pdes-communicator.c:13-17 | A new ring is empty |
| Ring.ShmRing.Send | net/pdes-communicator.c:155-193 | With nobody reading, send spins exactly when size - 1 messages are in the ring, and otherwise appends the message and loses none |
| Ring.ShmRing.Recv | net/pdes-communicator.c:196-216 | Hands out the oldest message not yet taken, and none exactly when all have been taken |
| Ring.AccessRefinesFifo | net/pdes-communicator.c:166-210 | Every single access of the producer or the consumer, wrap-around included, keeps the ring consistent and is a step of a FIFO of capacity size - 1 |
| Ring.SpaceExactly | net/pdes-communicator.c:167-178 | The producer gets past its space check if and only if the FIFO has room, and spins otherwise |
| Ring.SightExactly | net/pdes-communicator.c:203-205 | The consumer sees a message if and only if the FIFO is not empty |
| Ring.RoomStays | net/pdes-communicator.c:173-178 | Whatever the consumer does meanwhile, a producer that waits with room in the FIFO gets past its check |
| Ring.SendGoesThrough | net/pdes-communicator.c:166-187 | With room, the accesses of a send append exactly its message |
| Ring.ReceiveGoesThrough | net/pdes-communicator.c:203-210 | With a message in the FIFO, the accesses of a receive hand over exactly the front |
| Ring.NoOverwriteBeforeRead | net/pdes-communicator.c:185-187 | The slot being written is none of those holding unread messages |
| Ring.RunDelivers | net/pdes-communicator.c:155-216 | Over every interleaving of the two threads the receiver gets a prefix of what was sent, in order, at most size - 1 behind |
| TwoSenders.LostExactly | net/pdes-communicator.c:166-187 | Two sends into a ring with room for both and nobody reading, in any interleaving of their accesses: both messages arrive if and only if the senders have read different write indices, and otherwise exactly one does |
| TwoSenders.OneIsLost | net/pdes-communicator.c:166-187 | It does happen: the second sender overwrites the first one's slot |
| TwoSenders.SpinsExactly | net/pdes-communicator.c:167-178 | A sender spins if and only if the ring is full |
| Node.PdesNode.constructor | net/pdes-wwt.c:68-76 | The initial state |
| Node.PdesNode.WwtSend | net/pdes-wwt.c:150-160 | One packet stamped one latency ahead is appended, and nothing else changes |
| Node.PdesNode.ReceiveCallback | net/pdes-wwt.c:163-240 | Counts a valid sync, schedules a packet at its stamp plus the bias, or raises the assertion, as `Machine.Receive` |
| Node.PdesNode.ProcessMessage | net/pdes-engine.c:195-294 | The whole new state after one message, for every message type, as `Node.Process` |
| Node.PdesNode.Poll | net/pdes-engine.c:296-318 | Takes every message of the channel in order until it is empty or an assertion fires |
| Node.PdesNode.CountInitStep | net/pdes-engine.c:279-292 | The first CHECKPOINT_INIT_STEP makes a master that has been waiting for it request the checkpoint; any other is only counted |
| Node.PdesNode.FinishInitiateCheckpoint | net/pdes-engine.c:438-464 | The master requests at once if its peer is ready and otherwise waits for it; the follower tells the master |
| Node.PdesNode.IsWaitingForQuanta | net/pdes-wwt.c:243-252 | Polls everything, then says whether the peer's sync of this round is missing |
| Node.PdesNode.SendEndIfHandshakeComplete | net/pdes-engine.c:104-114 | END goes out exactly when permitted and not sent before |
| Node.PdesNode.NotifyNeighboursOfEnd | net/pdes-engine.c:116-119 | The first call tries to send END, later ones do nothing |
| Node.PdesNode.NotifyNeighborsForDrain | net/pdes-wwt.c:267-303 | A notice naming the current round is appended and the flag set; the program's refusal of a long name never applies to the names in use (DrainNotice.NamesInUseFit) |
| Node.PdesNode.QuantaSync | net/pdes-wwt.c:479-546 | Pause, poll all, the notice if due, then the sync, in this order |
| Node.PdesNode.AwaitSync | net/pdes-wwt.c:345-383 | The waiting loop in the program's order: poll and test for the sync; while it is missing, poll and test for the peer's END, poll and test for the sync again |
| Node.PdesNode.WwtSyncCheck | net/pdes-wwt.c:338-477 | The whole call: wait, exit branch, checkpoint, grant, next round |
| Node.PdesNode.FinishCheck | net/pdes-wwt.c:414-470 | With the sync here: schedule the snapshot of this round, pass on, or assert |
| Node.PdesNode.StartRound | net/pdes-wwt.c:423-470 | The master's grant if due, then the next round with its deadline at round * Q plus the bias |
| Node.PdesNode.GrantExit | net/pdes-wwt.c:430-441 | Flag, PERMISSION, END, in this order |
| Node.PdesNode.CreateCheckpoint | net/pdes-checkpoint.c:292-316 | Records the snapshot and clears the request, and behind "init_warmed" the master tries its END and ends; does nothing when no checkpoint is due |
| Node.PdesNode.SetCheckpointValues | net/pdes-engine.c:179-194 | A request for the current round, not yet notified; asking again for a pending round puts nothing new on record |
| Node.PdesNode.CanStop | net/pdes-engine.c:466-490 | INTENT once, or the master's grant; the answer is true exactly when permitted and the peer has finished |
| Calls.QuantaSyncIsRun | net/pdes-wwt.c:479-546 | The call is entered by the quantum timer, polls its way through the channel and, unless that asserts, sends notice and sync in one step; nothing else happens in between |
| Calls.PollIsRun | net/pdes-engine.c:296-318 | Polling until empty is made of polls and of the main thread's own instructions, and leaves the threads at rest |
| Calls.CheckIsRun | net/pdes-wwt.c:338-477 | The waiting loop is made of polls; then the call enters the check, the exit branch or nothing, and runs it to its end by the main thread's own instructions |
| Calls.CanStopIsRun | net/pdes-engine.c:466-490 | The call is entered by its first step and runs to its end by the Flexus thread's own instructions |
| Calls.NotifyIsRun | net/pdes-engine.c:116-119 | Likewise, on the main thread |
| Calls.SaveIsRun | net/pdes-checkpoint.c:292-316 | Likewise for a snapshot that is due, the end of the process included; nothing happens when none is due |
| Effects.FreshNode | net/pdes-wwt.c:68-84 | A node starts in round 0 at universal time 0 with its quantum due at once, nothing counted, requested, sent or scheduled and every flag clear |
| Effects.QuantaSyncEffect | net/pdes-wwt.c:500-534 | When the poll raises no assertion, everything has been taken, the node is paused with its check timer armed, and behind what the poll sent stands the round's sync, exactly one and stamped with the present time, right behind the drain notice exactly if the poll leaves a checkpoint needed and untold; when it asserts, neither goes out |
| Effects.CompleteCheckEffect | net/pdes-wwt.c:305-470 | With the sync here: the notice if due; the assertion exactly if the checkpoint's round is passed, the snapshot scheduled exactly in its round, and otherwise the grant exactly if one is due, PERMISSION before END, and the next round with its deadline |
| Effects.BarrierGrants | net/pdes-wwt.c:423-443 | A ready master that has taken an INTENT, is not permitted and has no checkpoint pending leaves the check permitted, in the next round, with one more PERMISSION and its END behind it |
| Effects.NoOtherGrant | net/pdes-wwt.c:423-443 | The check sends no PERMISSION when the master is not ready, has taken no INTENT, is permitted already or has a checkpoint of this round pending, and never at a follower |
| Effects.WaitExactly | net/pdes-wwt.c:338-383 | Whatever the waiting loop comes to, the node has polled all that arrived by then; the loop goes on exactly while neither the sync nor the peer's END is found by its tests in turn, and ends at the first test that finds one, or at an assertion |
| Effects.CheckAllEffect | net/pdes-wwt.c:338-477 | The whole call: behind the wait the check if the sync is here, the exit branch with its END and the end of the process if the peer has ended, and nothing otherwise |
| Effects.PollStops | net/pdes-engine.c:296-318 | Polling takes everything, or stops right behind the message that made it assert; each message is processed once, in order |
| Effects.PollTwice | net/pdes-engine.c:296-318 | Polling in two stretches is polling at once |
| Effects.AssertsExactly | net/pdes-wwt.c:188-222 | Receiving asserts exactly on a sync of a round neither present nor, while paused, next, on a packet from the past, and on an END while not permitted |
| Effects.SyncIsCounted | net/pdes-wwt.c:171-201 | An accepted sync adds one at the low 32 bits of its round and changes nothing else |
| Effects.PacketIsScheduled | net/pdes-wwt.c:203-231 | A packet not from the past is put last among the deliveries under its stamp, and nothing else changes |
| Effects.FireEffect | net/pdes-utility.c:8-26 | A delivery timer hands over the first packet due now and asserts exactly if it is empty |
| Effects.HandshakeIsTaken | net/pdes-engine.c:204-228 | INTENT counts at the master alone, PERMISSION permits and sends the END unless it is out, END marks the peer as finished; nothing else changes |
| Effects.CheckpointIsTaken | net/pdes-engine.c:230-292 | A notice tells the follower its round and the master nothing; the first CHECKPOINT_INIT_STEP makes a waiting master ask for the present round, untold; nothing else changes |
| Effects.InitiateEffect | net/pdes-engine.c:438-464 | The follower tells the master; the master asks exactly if it was told before |
| Effects.CanStopEffect | net/pdes-engine.c:466-490 | INTENT goes out once; the master grants exactly with an INTENT counted and no permission yet; either is ready afterwards, and may stop exactly if permitted with its peer finished |
| Effects.SaveEffect | net/pdes-checkpoint.c:292-316 | A due snapshot is recorded with its round and what was received, the request is cleared whole, and behind "init_warmed" the master ends, its END out exactly if it may go |
| Effects.NotifyEffect | net/pdes-engine.c:104-119 | The first call sends END exactly if permitted and not sent; later calls do nothing |
| SyncCounts.SyncCountTable.Increment | net/pdes-utility.c:43-48 | One more at the low 32 bits of the round, nothing else changed |
| SyncCounts.SyncCountTable.Get | net/pdes-utility.c:50-54 | The count at the low 32 bits of the round, 0 when absent |
| SyncCounts.CountsApart | net/pdes-utility.c:43-54 | Of two rounds below 2^32, counting one adds one to its own count and leaves the other's |
| SyncCounts.CountsAlias | net/pdes-utility.c:43-54 | Rounds that differ by 2^32 are counted and answered as one |
| SyncCounts.TruncationIsExact | net/pdes-utility.c:43-54 | The table answers as a map keyed by the whole round if and only if no counted round shares its low 32 bits with another round asked for |
| SyncCounts.ExactBelowSpan | net/pdes-utility.c:43-54 | In particular as long as every round is below 2^32 |
| SyncCounts.BarrierAliases | net/pdes-wwt.c:247-248 | At round 2^32 one sync of round 0 is counted for the current round |
| Inflight.PendingMessages.Add | net/pdes-checkpoint.c:20-27 | The entry stands at the head of the list, and count equals length |
| Inflight.PendingMessages.Remove | net/pdes-checkpoint.c:29-49 | The first entry with the same time, length and bytes is gone; the assertion fires exactly when there is none |
| Inflight.PendingMessages.GetAll | net/pdes-checkpoint.c:51-73 | Two fresh arrays hold the entries in list order |
| Inflight.PendingMessages.Restore | net/pdes-checkpoint.c:195-220 | The loaded records stand before the old list in reversed order |
| Inflight.RemovedExactly | net/pdes-checkpoint.c:29-49 | What goes is the first record with the same time, length and bytes; the assertion fires if and only if there is none |
| Inflight.RemoveTakesOne | net/pdes-checkpoint.c:29-49 | Removal succeeds if and only if the key is present and takes exactly one record with it |
| Inflight.RemoveTakesNewest | net/pdes-checkpoint.c:31-41 | Of several records with one key the newest goes, whatever its stamp and type |
| Inflight.RunConserves | net/pdes-checkpoint.c:20-49 | Over any run of calls what went in is what came out plus what is there, as multisets of keys, and the length is the difference |
| Inflight.RunSucceeds | net/pdes-checkpoint.c:29-49 | The assertion stays silent over a run if and only if no key is ever taken out more often than put in |
| Inflight.RestoreRebuilds | net/pdes-checkpoint.c:202-214 | Restoring into an empty table rebuilds the same full records in reversed order; doing it twice gives the old order back |
| SavedFile.PrintBytes | net/pdes-checkpoint.c:108-113 | The byte loop prints the bytes separated by commas |
| SavedFile.SaveJson | net/pdes-checkpoint.c:94-118 | The printer's loops produce the text `Print` of the list |
| SavedFile.ScanBytes | net/pdes-checkpoint.c:174-180 | The byte loop of the scanner, with the pointer it leaves |
| SavedFile.ScanRecord | net/pdes-checkpoint.c:156-180 | The body of the record loop; no result where the program would read an unset variable or a null pointer |
| SavedFile.LoadJson | net/pdes-checkpoint.c:139-190 | The record loop over arrays that double yields the records `Load` finds, in order |
| SavedText.SaveLoad | net/pdes-checkpoint.c:94-183 | For every list of messages of up to 2048 bytes, empty payloads included, loading the printed text yields the same records in the same order if and only if each entry fits its fields; and the pointer ends null if and only if the last record carries bytes |
| SavedText.SaveLoadTrims | net/pdes-checkpoint.c:94-183 | For every such list the loaded records are the saved ones in order, each number reduced to the width of the field it is read into |
| SavedText.FieldRead | net/pdes-checkpoint.c:156-170 | A printed key and number are found and read back behind any text in which the key does not start |
| SavedLayout.PrintIsBalanced | net/pdes-checkpoint.c:94-122 | The brackets of the saved text match, whatever messages it holds |
| SavedLayout.EmptyText | net/pdes-checkpoint.c:94-122 | The text of the empty list, written out |
| SavedLayout.OneRecordText | net/pdes-checkpoint.c:99-116 | The text of any one record, its keys in order and written out |
| SavedText.BytesRead | net/pdes-checkpoint.c:174-180 | Printed bytes are read back, and the pointer stands behind the next comma or is null |
| DrainNotice.BuildNotice | net/pdes-wwt.c:276-300 | Says for every name whether it is refused, overruns the buffer or is sent, which is exactly when prefix, name and 12 bytes fit; what is sent is prefix, name, format and round |
| DrainNotice.ReadNotice | net/pdes-engine.c:247-261 | The follower's arm reads name, format and round from the payload, and fails exactly below 12 bytes |
| DrainNotice.ParsedExactly | net/pdes-engine.c:242-261 | A payload of 12 bytes and more reads as the name up to its first NUL, four bytes of format and eight of round; a shorter one does not read |
| DrainNotice.NoticeRoundTrip | net/pdes-engine.c:247-261 | For every name without NUL the follower reads back the prefixed name, the format and the 64-bit round, and stripping the prefix gives the name |
| DrainNotice.NoticeTellsApart | net/pdes-checkpoint.c:238-244 | Two notices have the same bytes if and only if they agree in name, format and round |
| DrainNotice.StrippedExactly | net/pdes-checkpoint.c:235-258 | The follower snapshots under a name if and only if it starts with the five bytes of "QPDES", stripping just those; never under "init_warmed" itself |
| DrainNotice.PayloadOf | net/pdes-wwt.c:276-300 | The bytes of a notice, written out for one format and round |
| DrainNotice.NamesInUseFit | net/pdes-engine.c:190-191 | The only name a request is made under, and the follower's stored form of it, fit the buffer |
| DrainNotice.LittleRoundTrip | net/pdes-engine.c:251-258 | A number written byte by byte in host order is read back |

## Left out

- Barrier.Causality: rounds are taken below 2^32, the reach of the round table's keys; what happens beyond is shown by SyncCounts.BarrierAliases only.
- Barrier.ClockInQuantum: times and round * Q are unbounded integers; the 64-bit range of the program is not modelled.
- Progress.BarrierProgress: strong fairness of each node's timers, polls and threads is assumed, since the program has no scheduler of its own to prove it from; and that nobody initiates checkpoints without end within one round, where the master would snapshot for ever.
- Ring.ShmRing.Send: the spin is a result, not a loop; the interleaving with the reader is in Ring.AccessRefinesFifo, where a full ring leaves the producer where it is.
- Ring.AccessRefinesFifo: one producer thread and one consumer thread a ring; what two producers do is TwoSenders.LostExactly, and the machine takes two concurrent sends of a node as atomic, which the program does not ensure.
- TwoSenders.LostExactly: two sends, with nobody reading meanwhile and room for both.
- WarmRequests.RequestExact: for states in which both nodes are alive, both main threads are in their event loops and the rounds are not within three of 2^32; elsewhere only Requests.SafeRequestIsHarmless applies.
- Node.PdesNode.AwaitSync: the loop runs for as many turns as are given, each with what arrives during it; an unbounded wait is the subject of Progress.
- Machine.Enabled: a waiting node may take its exit branch whenever it knows that its peer has ended, also with the sync at hand; the program does so only inside its waiting loop, so the theorems cover more runs than the program has.
- Machine.ThreadStep: with a checkpoint still pending, `pdes_engine_destroy` (net/pdes-engine.c:134-139) saves once more before the process ends; the exit branch gets there only if `flexus_api.stop` is missing or returns, and that last snapshot is not modelled.
- SavedFile.LoadJson: conversions beyond the range of the C types clamp in the program and are not modelled; a text that runs the scanner over its buffers is a failure without further detail.
- DrainNotice.BuildNotice: the name is never the null pointer, and both hosts are little-endian.
- The fields of a node object are grouped into three records (barrier, checkpoint, exit); there is no aliasing between them in the program.
- The node's methods work on an unbounded channel object; a ring that is not full behaves as that channel (Ring.ShmRing.Send, Ring.ShmRing.Recv), and it never is full under the bounds of RingBound.RingNeverBlocks.
- The in-flight list is a sequence field of its object, not a chain of heap cells.
- `DRAIN_END` is a message without effect.
- The clock is idealised: the quantum timer fires at its deadline, time stands still while a node has finished, and the bias is fixed after setup.
- The name prefix logic of the master's side of `validate_checkpoint` is a switch on flags and adds nothing.
- `pdes_engine_send` asserts that the first message a node sends is a sync (net/pdes-engine.c:148-157); the guests of the model may send before that.
- `should_sync` false, the disabled drift monitor, more than one neighbour.
- Shared-memory setup, file opening, printing, freeing; QEMU timers, bottom halves and snapshots beyond the events named above; the network front end.

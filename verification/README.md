# KindleBridge: a Dafny model of its protocols and formats

KindleBridge connects a host to a Kindle over a framed, multiplexed link and installs signed
bundles on it. This project models the parts of it whose correctness spans many steps or all
inputs, and proves what those parts are for:

* the KBP session protocol: one endpoint's validator, and two of them joined by FIFO channels;
* the deficit-round-robin frame scheduler;
* the connection actor that drives both, as a machine of commands, inbound frames and writes;
* the crash-safe activation store, with a crash possible between any two durable writes;
* canonical CBOR (sections 4.2.1 and 4.2.3 of RFC 8949) and the KBB bundle layout;
* bundle trees and their symbolic links;
* the A/B launcher and its heartbeat watchdog;
* resumable pushes, the frame header with its CRC-32C (section 12.1 of RFC 3720), and the
  resynchronising reader.

## How it is organised

Each component has a *value model*: datatypes and functions that give the effect of one step.
The theorems are about the value model: invariants over whole runs, conservation laws, round
trips, refinement of simpler definitions. Where the program changes state in place there is also
a class (or a method with a loop) written in the program's own order of statements, whose
contract ties it to the value model, so that the theorems speak about the stateful code.

| component | value model | theorems | stateful form |
|---|---|---|---|
| session | `Wire`, `Session` | `SessionRules`, `SessionRuns`, `Link`, `LinkStream`, `LinkConnection`, `LinkInvariant`, `LinkTheorems`, `LinkRaces` | `SessionStates.SessionState` |
| scheduler | `Scheduler` | `Scheduler`, `SchedulerFairness`, `SchedulerRuns`, `SchedulerForfeit` | `FrameSchedulers.FrameScheduler` |
| actor | `Actor` | `ActorOutbound`, `ActorRuns`, `ActorReceive`, `ActorAccounting`, `ActorTheorems`, `ActorInbox`, `ActorDelivery`, `ActorCredit`, `ActorSends`, `ActorWaiting`, `ActorCallers`, `ActorFrames`, `ActorFailures` | `ActorLoops.ActorLoop` |
| activation store | `Install` | `InstallSafety`, `InstallRecovery`, `InstallBlocked`, `InstallActivation`, `InstallOutcomes` | `InstallStores.InstallStore` |
| CBOR | `Cbor` | `CborLemmas`, `CborTheorems`, `CborInverse`, `CborCanonical` | `CborCodec` |
| bundle layout | `KbbHeader`, `KbbLayout`, `KbbFile`, `KbbContent` | the same, and `KbbBuilder`, `KbbBundle` | methods in those modules |
| trees | `TreePaths`, `TreeLinks`, `TreeWalk` | the same | methods in those modules |
| launcher | `Launcher` | `LauncherTheorems`, `LauncherRuns`, `LauncherStaging`, `LauncherOutcomes`, `Watchdog`, `WatchdogTrial` | `LauncherProcesses.LauncherProcess` |
| push | `SyncPush` | `SyncPush`, `SyncResume`, `SyncOutcomes` | `PushTransfers.SyncStore`, `PushTransfers.PushTransfer` |
| frame codec | `Crc`, `FrameCodec` | the same | methods in those modules |
| reader | `Resync` | `Resync` | `Resync.Source`, `Resync.ResynchronizingReader` |

## Where the obvious claim is false

The code is modelled as it is. Where a natural stronger claim fails, a lemma gives an input or a
run on which it fails, and another says exactly when it holds.

* A peer that follows the protocol can still have a frame rejected. It happens exactly for the
  three races of `LinkTheorems.Race`: any frame reaching a session the receiver itself closed with ERROR,
  an OPEN crossing the receiver's own GOAWAY, and a CLOSE on a stream the receiver itself reset
  (`RejectionsAreRaces`; the three are reached by `ErrorRace`, `GoAwayRace`, `CloseRace`).
* A non-empty scheduler may give nothing: exactly when every class's next eligible frame costs
  more than its deficit plus 512 quanta (`DequeueNoneIff`, `DequeueCanStall`).
* The actor fails on some frames its validator accepted: on a late RESET for a retired stream,
  and on a terminal frame whose payload does not fit the inbox (`UnknownStreamIffLateReset`,
  `InboxFullIffTerminalPayload`). Bytes dropped with a retired stream are never given back as
  connection credit; `ConnectionBalances` counts them. `ActorFailures` has a run for each:
  `LateResetFails`, `LongReasonFails`, `ResetDropsUnread`.
* A send that waits for credit can be overlooked when credit comes: the ACCEPT of a stream brings credit
  and wakes nobody (`EarlySendOverlooked`). If nobody sends before the stream is answered, every
  waiting send lacks credit in every state of every run (`WaitingLacksCredit`).
* Recovery can be blocked: it fails exactly when some unfinished transaction's generation is durable
  while its staged directory has lost its document but not yet itself (`RecoverySettles`). A crash
  inside a tree removal can lead there (`BlockedIsReachable`), nothing leads back
  (`BlockedForGood`), and without a crash it never happens (`WholeRunsRecover`).
* A slot switch cut off before its last write and resumed starts with a fresh crash record exactly
  when the record on disk is not an older one of that slot (`SwitchSurvivesKill`); a halted one
  blocks the switch (`StaleRecordBlocksSwitch`), and the program can leave one
  (`StaleRecordIsReachable`).
* A rollback need not bring back the program that ran before. Over every life it does if and only if
  no staging has put another over it: while the switch is on trial for a switch that is undone
  (`UndoneSwitchRuns`), before the switch is confirmed for a later rollback (`RollbackRuns`). The record
  of a confirmed switch protects the slot (`RecordedSlotIsIntact`), that of a pending one does not
  (`StagedOverIsRestored`).
* A push interrupted anywhere cannot always be resumed: a kill between the rename of its finish and
  the record of it leaves a transfer that every later attempt is refused (`CutFinishStrands`).
  Over every run, a recorded transfer can be resumed if and only if no such kill has come
  (`ResumableIffFinishNotCut`); the target then holds the content already (`HonestCompletes`).
* A symbolic link whose text the verifier follows to a file may lead to a name that is not there when
  its target is followed one component at a time (`WaysPart`). The two agree along a straight way
  (`AcceptedLinksAgree`), and the way is straight exactly when no link is met before its end
  (`StraightIffNoLinkMet`). If every link goes up before it goes down, none leads out of the tree
  (`AcceptedLinksStayInside`).

## Assumptions

Clocks, randomness, the network, file contents read from outside and calls into other libraries
are parameters: any value is allowed. Hashes, zstd, path well-formedness and the parsed block
table of an envelope are function parameters. The only facts asked of them are that
decompression undoes compression and compression is never empty (`KbbBuilder.Build`), that an
encoded envelope reads back and digests have 32 bytes (`KbbBundle.BuildBundle`), and, for the
activation store, that a generation id determines the generation (`InstallSafety.Book`). Integers are
unbounded except where the program's widths matter; there the bound is written out.

## Model

| member | source | states |
|---|---|---|
| SessionStates.SessionState.constructor | crates/kindlebridge-wire/src/state.rs:188-209 | a new session is the initial state the run theorems start from: no HELLO seen, no credit, no stream |
| SessionStates.SessionState.AllocateStreamId | crates/kindlebridge-wire/src/state.rs:231-237 | ids of the own parity handed out in increasing order; once the range is used up an error, and nothing changes |
| SessionStates.SessionState.ProcessInbound | crates/kindlebridge-wire/src/state.rs:239-245 | a received frame moves the session as the step of the two-endpoint model does; a rejected one changes nothing |
| SessionStates.SessionState.ProcessOutbound | crates/kindlebridge-wire/src/state.rs:247-253 | a frame to be sent likewise: rejected frames leave no trace |
| SessionStates.SessionState.Process | crates/kindlebridge-wire/src/state.rs:255-278 | one frame in either direction, checks in the order of the code: header, context, sequence, effect, then the sequence advances; all or nothing |
| SessionStates.SessionState.AdvanceSequence | crates/kindlebridge-wire/src/state.rs:351-360 | only the counter of the frame's stream and direction moves, and not past its maximum |
| SessionStates.SessionState.ApplyControl | crates/kindlebridge-wire/src/state.rs:362-402 | HELLO, pairing, connection CREDIT, PING, PONG, GOAWAY and ERROR, each with the phases it is allowed in; connection credit never passes its limit |
| SessionStates.SessionState.ApplyConnectionCredit | crates/kindlebridge-wire/src/state.rs:371-389 | connection credit is added in the right direction up to its limit, never past it |
| SessionStates.SessionState.ApplyHello | crates/kindlebridge-wire/src/state.rs:404-434 | each side greets once; the window offered becomes the peer's send credit; both greetings bring the session online |
| SessionStates.SessionState.ApplyPairingFinish | crates/kindlebridge-wire/src/state.rs:436-453 | only in a pairing session, once per side |
| SessionStates.SessionState.ApplyOpen | crates/kindlebridge-wire/src/state.rs:455-486 | OPEN only while online, of the sender's parity and on an unused stream; ids allocated later stay above it |
| SessionStates.SessionState.ApplyStream | crates/kindlebridge-wire/src/state.rs:488-550 | every other stream frame by the phase of its stream; late CREDIT, RESET and inbound DATA on a finished stream are tolerated |
| SessionStates.SessionState.ApplyQuiet | crates/kindlebridge-wire/src/state.rs:530-549 | the commands that touch only the stream's entry |
| SessionStates.SessionState.ApplyOpenResponse | crates/kindlebridge-wire/src/state.rs:552-586 | ACCEPT and REJECT only from the side that was asked, the accepted window becoming credit of the sender |
| SessionStates.SessionState.ApplyData | crates/kindlebridge-wire/src/state.rs:588-640 | DATA takes its length from stream and connection credit of the right direction, or is refused |
| SessionStates.SessionState.ApplyDiscardedInboundData | crates/kindlebridge-wire/src/state.rs:642-664 | DATA on a finished stream still takes connection credit |
| SessionStates.SessionState.ApplyStreamCredit | crates/kindlebridge-wire/src/state.rs:666-691 | credit is added up to the limit of the stream, never past it |
| SessionStates.SessionState.ApplyClose | crates/kindlebridge-wire/src/state.rs:693-706 | only the side that was asked may close, and that ends both directions |
| LinkTheorems.SendKeepsInv | crates/kindlebridge-wire/src/state.rs:247-278 | whatever an endpoint's own validator lets it send keeps the joint invariant of both endpoints and both channels |
| LinkTheorems.ReceiveKeepsInv | crates/kindlebridge-wire/src/state.rs:239-278 | so does receiving the head of a channel |
| LinkTheorems.AllocateKeepsInv | crates/kindlebridge-wire/src/state.rs:231-237 | so does allocating a stream id |
| LinkTheorems.RunInv | crates/kindlebridge-wire/src/state.rs:188-278 | the joint invariant holds at the end of every run of two fresh endpoints of opposite roles with equal limits |
| LinkTheorems.HeadRejectedIffRace | crates/kindlebridge-wire/src/state.rs:255-278 | the frame at the head of a channel is rejected if and only if it is one of three races, with which error, and the receiver brought the race about itself |
| LinkTheorems.RejectionsAreRaces | crates/kindlebridge-wire/src/state.rs:455-550 | in every run, for both directions: the next frame is rejected exactly when it meets a session closed by ERROR, is an OPEN after the receiver's own GOAWAY, or a CLOSE on a stream the receiver reset |
| LinkTheorems.QuietEndpointNeverRejects | crates/kindlebridge-wire/src/state.rs:371-402 | of either side: an endpoint that never sends ERROR, GOAWAY or RESET never rejects a frame of its peer |
| LinkTheorems.CreditIsConserved | crates/kindlebridge-wire/src/state.rs:588-691 | receiver connection credit equals sender credit plus DATA bytes and grants in flight, in both directions of every run; per stream the same equality until an end is terminal, and at least as much afterwards |
| LinkTheorems.StreamAccepted | crates/kindlebridge-wire/src/state.rs:488-550 | under the invariant a stream frame other than OPEN is accepted exactly when it is no race, so credit errors cannot occur on the receiving side |
| LinkTheorems.ControlAccepted | crates/kindlebridge-wire/src/state.rs:362-434 | under the invariant a control frame is always accepted by a session that is not closed, connection credit included |
| LinkTheorems.OpenAccepted | crates/kindlebridge-wire/src/state.rs:455-486 | an OPEN in flight is accepted exactly while the receiver is online; otherwise the receiver has said GOAWAY |
| LinkRaces.ErrorRace | crates/kindlebridge-wire/src/state.rs:255-278 | a run that ends in the first race, for any limits that allow a window of ten |
| LinkRaces.GoAwayRace | crates/kindlebridge-wire/src/state.rs:455-458 | a run that ends with OPEN crossing the receiver's own GOAWAY |
| LinkRaces.CloseRace | crates/kindlebridge-wire/src/state.rs:530-533 | a run that ends with CLOSE arriving on a stream the receiver reset |
| SessionRules.PassesIffWellFormed | crates/kindlebridge-wire/src/frame.rs:135-189 | which headers pass: version 1, nothing reserved, END_STREAM on DATA only, credit on CREDIT only and within the window, a stream id exactly where the command has one |
| SessionRules.AcceptedIff | crates/kindlebridge-wire/src/state.rs:255-278 | a frame, sent or received, is accepted if and only if the session is not closed, header and windows are right, the number is the expected one, and phase, parity, end flags and credit allow the command |
| SessionRules.ContextIffWindows | crates/kindlebridge-wire/src/state.rs:280-324 | HELLO comes with a connection window, ACCEPT with a stream window, nothing else with either, each from 1 to the limit |
| SessionRules.DataSentIff | crates/kindlebridge-wire/src/state.rs:588-640 | DATA to be sent is accepted exactly when the session is open, the number right, the stream accepted and not ended, and the length within payload limit and both credits |
| SessionRules.DataRefusedFor | crates/kindlebridge-wire/src/state.rs:588-640 | and the reason it is refused for otherwise |
| SessionRuns.GreetsOnce | crates/kindlebridge-wire/src/state.rs:404-453 | over every run of one endpoint, HELLO and PAIRING_FINISH are each accepted at most once in each direction |
| SessionRuns.AllocatedOpens | crates/kindlebridge-wire/src/state.rs:231-237 | in every run an id that is handed out is of the own parity and unused, so it can be opened |
| SessionRuns.AllocatedInOrder | crates/kindlebridge-wire/src/state.rs:231-237 | ids are handed out without gaps, 1, 3, 5 to the host and 2, 4, 6 to the device, until they are used up |
| SessionRuns.CarryNext | crates/kindlebridge-wire/src/state.rs:455-486 | an OPEN with an own id moves the next id past it, and nothing else moves it |
| FrameSchedulers.FrameScheduler.constructor | crates/kindlebridge-transport/src/lib.rs:70-80 | an empty scheduler with its five queues |
| FrameSchedulers.FrameScheduler.Enqueue | crates/kindlebridge-transport/src/lib.rs:82-99 | appends to the class queue and the stream's class list, or refuses and changes nothing |
| FrameSchedulers.FrameScheduler.FindEligible | crates/kindlebridge-transport/src/lib.rs:110-119 | the first frame of a class queue whose stream has this class next |
| FrameSchedulers.FrameScheduler.Advance | crates/kindlebridge-transport/src/lib.rs:164-166 | the next class in the circle |
| FrameSchedulers.FrameScheduler.Visit | crates/kindlebridge-transport/src/lib.rs:109-149 | one turn of the search: reset or top up the deficit, emit or move on |
| FrameSchedulers.FrameScheduler.Dequeue | crates/kindlebridge-transport/src/lib.rs:101-152 | the whole bounded search; what it emits is the oldest frame of its stream and nothing else changes in any stream's order |
| Scheduler.EnqueueSpec | crates/kindlebridge-transport/src/lib.rs:82-99 | accepted exactly when the byte bound allows; then the frame is last of its stream, other streams keep theirs, and queued bytes remain the sum of queued lengths |
| Scheduler.DequeueSpec | crates/kindlebridge-transport/src/lib.rs:101-152 | a dequeue from a valid scheduler leaves it valid and takes the oldest pending frame of one stream, or nothing |
| SchedulerFairness.NonemptyHasEligible | crates/kindlebridge-transport/src/lib.rs:101-119 | a scheduler with queued bytes has an eligible frame: stream order never deadlocks the classes |
| SchedulerFairness.SearchNoneIff | crates/kindlebridge-transport/src/lib.rs:108-151 | a search of n turns finds nothing if and only if no class reaches the cost of its next eligible frame in its share of the turns |
| SchedulerFairness.DequeueNoneIff | crates/kindlebridge-transport/src/lib.rs:101-152 | on a non-empty scheduler dequeue gives nothing if and only if every next eligible frame costs more than its class deficit plus 512 quanta |
| SchedulerFairness.LittleQueuedLeaves | crates/kindlebridge-transport/src/lib.rs:101-152 | with at most 512 bulk quanta queued in all, something always leaves |
| SchedulerFairness.DequeueCanStall | crates/kindlebridge-transport/src/lib.rs:108-151 | one bulk frame of more than 512 quanta is such a case |
| SchedulerRuns.ExecFifo | crates/kindlebridge-transport/src/lib.rs:82-152 | over any interleaving of enqueues and dequeues: what a stream had plus what was accepted equals what was sent plus what is left, in order, and bytes balance |
| SchedulerRuns.NoStarvation | crates/kindlebridge-transport/src/lib.rs:101-152 | a class with an eligible frame and no frame above C bytes emits within five times ceil(C / quantum) successful dequeues, whatever is enqueued meanwhile |
| SchedulerRuns.ServiceBound | crates/kindlebridge-transport/src/lib.rs:120-134 | bytes sent by a class plus its deficit never exceed its initial deficit plus its quantum times its turns |
| SchedulerForfeit.NoCreditFromBeforeIdling | crates/kindlebridge-transport/src/lib.rs:101-152 | over every run of a new scheduler, bytes a class sent since it last had nothing eligible at its turn, and its deficit, are exactly a quantum for each of its turns since then that found the deficit short; so credit never outlives an idle turn |
| SchedulerForfeit.RunMetered | crates/kindlebridge-transport/src/lib.rs:101-152 | without an idle turn the account is of all bytes the class sent and all its turns |
| SchedulerForfeit.IdleForfeits | crates/kindlebridge-transport/src/lib.rs:111-119 | a class with nothing eligible at its turn loses its deficit |
| SchedulerForfeit.SavingsAreBounded | crates/kindlebridge-transport/src/lib.rs:121-130 | over every run a deficit stays below the largest frame of the class or its quantum, whichever is more |
| ActorLoops.ActorLoop.constructor | crates/kindlebridge-transport/src/actor.rs:519-543 | the actor as it starts from a negotiated session |
| ActorLoops.ActorLoop.TakeSequence | crates/kindlebridge-transport/src/actor.rs:1285-1296 | gives out the next number of the stream, or an error at the end of the range |
| ActorLoops.ActorLoop.Emit | crates/kindlebridge-transport/src/actor.rs:1231-1283 | a frame gets its number, passes the validator and is queued, in that order |
| ActorLoops.ActorLoop.QueueCredit | crates/kindlebridge-transport/src/actor.rs:1231-1250 | a CREDIT frame on the control class |
| ActorLoops.ActorLoop.QueueFrame | crates/kindlebridge-transport/src/actor.rs:1252-1283 | any other frame |
| ActorLoops.ActorLoop.RestoreConsumedCredit | crates/kindlebridge-transport/src/actor.rs:1212-1229 | credit for consumed DATA: for the stream if it can still receive, and for the connection |
| ActorLoops.ActorLoop.SendNow | crates/kindlebridge-transport/src/actor.rs:1033-1064 | a DATA frame queued with its sender waiting for the write |
| ActorLoops.ActorLoop.SendOrWait | crates/kindlebridge-transport/src/actor.rs:1007-1064 | one send at a time per stream; without credit it waits |
| ActorLoops.ActorLoop.FlushPending | crates/kindlebridge-transport/src/actor.rs:1066-1111 | a waiting send goes out once there is credit |
| ActorLoops.ActorLoop.FlushAll | crates/kindlebridge-transport/src/actor.rs:1066-1073 | every stream is tried after connection credit arrives |
| ActorLoops.ActorLoop.RetireStream | crates/kindlebridge-transport/src/actor.rs:1187-1210 | the entry and its write waiters go, those waiting on the entry are refused, unread bytes are dropped and counted |
| ActorLoops.ActorLoop.HandOver | crates/kindlebridge-transport/src/actor.rs:1146-1153 | a frame goes to its receiver; a terminal one retires the stream, DATA gives credit back |
| ActorLoops.ActorLoop.ReceiveOrWait | crates/kindlebridge-transport/src/actor.rs:1120-1153 | the oldest inbox frame, or the caller waits |
| ActorLoops.ActorLoop.Deliver | crates/kindlebridge-transport/src/actor.rs:1155-1185 | to a waiting receiver, else into the inbox if it fits the window |
| ActorLoops.ActorLoop.OpenStream | crates/kindlebridge-transport/src/actor.rs:681-702 | a stream id is taken, an entry made, OPEN queued |
| ActorLoops.ActorLoop.HandleCommand | crates/kindlebridge-transport/src/actor.rs:642-861 | every command, with the replies it sends and the error it ends the session with |
| ActorLoops.ActorLoop.HandleStreamCommand | crates/kindlebridge-transport/src/actor.rs:703-839 | the commands on an existing stream |
| ActorLoops.ActorLoop.LeaveSession | crates/kindlebridge-transport/src/actor.rs:840-858 | GOAWAY is queued once; its caller waits for the peer's |
| ActorLoops.ActorLoop.CompleteOpen | crates/kindlebridge-transport/src/actor.rs:976-991 | the receive window is granted on the new stream, then the opener told |
| ActorLoops.ActorLoop.PeerLeaves | crates/kindlebridge-transport/src/actor.rs:924-944 | the peer's GOAWAY answers a pending one and ends the session; a restartable actor drops its streams and queue but keeps its control number |
| ActorLoops.ActorLoop.FailStreams | crates/kindlebridge-transport/src/actor.rs:1386-1409 | streams, counters and queue are reset |
| ActorLoops.ActorLoop.RestartSession | crates/kindlebridge-transport/src/actor.rs:1358-1384 | a new HELLO starts the next session |
| ActorLoops.ActorLoop.AcceptIncomingOpen | crates/kindlebridge-transport/src/actor.rs:953-974 | an incoming stream is entered, unless its service cannot be read; without a listener the connection ends |
| ActorLoops.ActorLoop.RejectOpen | crates/kindlebridge-transport/src/actor.rs:993-1005 | the opener is told of the rejection, whoever else waits on the stream is refused, and the stream forgotten |
| ActorLoops.ActorLoop.Dispatch | crates/kindlebridge-transport/src/actor.rs:904-950 | what each accepted command does to the actor |
| ActorLoops.ActorLoop.DispatchLate | crates/kindlebridge-transport/src/actor.rs:874-902 | DATA on a finished stream is consumed at once, its credit given back |
| ActorLoops.ActorLoop.CancelReceive | crates/kindlebridge-transport/src/actor.rs:821-839 | a waiting receiver is refused and the caller told |
| ActorLoops.ActorLoop.PingPeer | crates/kindlebridge-transport/src/actor.rs:644-680 | PING is queued |
| ActorLoops.ActorLoop.HandleInbound | crates/kindlebridge-transport/src/actor.rs:863-951 | one inbound frame: validated, then dispatched |
| ActorLoops.ActorLoop.Wrote | crates/kindlebridge-transport/src/actor.rs:617-637 | after a write the frame's waiter is told and a terminal frame retires its stream |
| ActorLoops.ActorLoop.HandleDequeue | crates/kindlebridge-transport/src/actor.rs:617-637 | one frame is taken from the scheduler and written, or the write fails |
| ActorLoops.ActorLoop.HandleEvent | crates/kindlebridge-transport/src/actor.rs:545-558 | one command, inbound frame or write, with commands of another session or during a restart ignored |
| ActorLoops.ActorLoop.RunOnce | crates/kindlebridge-transport/src/actor.rs:560-640 | one turn of the loop with its error handling: the actor goes on exactly when the step function says so, and the states it passes through form a run |
| ActorRuns.RunInv | crates/kindlebridge-transport/src/actor.rs:560-640 | scheduler, validator, counters, written frames and waiters agree after every event of every run |
| ActorRuns.CountersAgree | crates/kindlebridge-transport/src/actor.rs:1285-1304 | unless awaiting a restart, the actor's next number of every stream is the one its validator expects |
| ActorRuns.WrittenInSequence | crates/kindlebridge-transport/src/actor.rs:1231-1304 | frames written on a stream since the scheduler was last replaced, followed by those queued, carry consecutive numbers up to the next one |
| ActorRuns.ConfirmedMeansWritten | crates/kindlebridge-transport/src/actor.rs:617-637 | a send is confirmed only in the step that writes its own DATA frame, with its payload and end flag |
| ActorRuns.WaitersAreQueued | crates/kindlebridge-transport/src/actor.rs:1007-1064 | every waiting sender has its frame in the queue |
| ActorRuns.NextInv | crates/kindlebridge-transport/src/actor.rs:560-640 | each event keeps the joint invariant |
| ActorTheorems.RunBooks | crates/kindlebridge-transport/src/actor.rs:863-902 | receive accounting holds in every state of every run |
| ActorTheorems.ConnectionBalances | crates/kindlebridge-transport/src/actor.rs:1187-1229 | connection receive credit plus unread inbox bytes plus bytes dropped by retired streams equals the advertised window |
| ActorTheorems.StreamWithinWindow | crates/kindlebridge-transport/src/actor.rs:1120-1185 | on an accepted stream unread bytes plus receive credit never exceed its window |
| ActorTheorems.RestoreFailsOnlyWhenFull | crates/kindlebridge-transport/src/actor.rs:1212-1229 | giving credit back never overflows: it fails only on a full queue or exhausted numbers |
| ActorTheorems.AcceptedDataFits | crates/kindlebridge-transport/src/actor.rs:1155-1185 | DATA the validator accepts is never refused as too much for the inbox: with no receiver waiting it is appended |
| ActorTheorems.UnknownStreamIffLateReset | crates/kindlebridge-transport/src/actor.rs:1155-1161 | an accepted DATA or terminal frame fails as unknown stream exactly when it is a RESET for a retired stream |
| ActorTheorems.InboxFullIffTerminalPayload | crates/kindlebridge-transport/src/actor.rs:1176-1182 | the inbox is full exactly for a terminal frame whose payload exceeds the room left |
| ActorTheorems.DataFailsOnlyWhenFull | crates/kindlebridge-transport/src/actor.rs:863-902 | an accepted DATA frame can end the session only through a full queue or exhausted numbers |
| ActorTheorems.ReceiveFailsOnlyWhenFull | crates/kindlebridge-transport/src/actor.rs:1120-1153 | so can a receive |
| ActorDelivery.ReceivedInOrder | crates/kindlebridge-transport/src/actor.rs:1120-1185 | over every run and stream, the frames accepted and not late are, in order, those answered to receivers of that stream, then what was dropped with it or is unread; and the receivers that came are answered in order, each once, but for one that still waits |
| ActorDelivery.EventFlows | crates/kindlebridge-transport/src/actor.rs:642-951 | the same for one event of any kind |
| ActorInbox.HandOverFlows | crates/kindlebridge-transport/src/actor.rs:1137-1174 | the receiver gets the frame, whatever becomes of the stream |
| ActorCredit.WindowIsWhole | crates/kindlebridge-transport/src/actor.rs:1120-1229 | over every run, on an accepted stream the peer has not ended, unread bytes and receive credit make up exactly the advertised window |
| ActorSends.SendOutcome | crates/kindlebridge-transport/src/actor.rs:1007-1064 | in every run a send on an accepted, unended stream with nothing waiting: it waits if it lacks credit, and else is queued last on its stream, failing only for a payload beyond the limit, exhausted numbers or a full queue |
| ActorSends.DataQueuedIff | crates/kindlebridge-transport/src/actor.rs:1252-1283 | with credit, DATA is queued unless too long, out of numbers or without room |
| ActorWaiting.WaitingLacksCredit | crates/kindlebridge-transport/src/actor.rs:1066-1118 | in every state of every run in which nobody sends before a stream is answered, a waiting send lacks stream or connection credit |
| ActorWaiting.EarlySendOverlooked | crates/kindlebridge-transport/src/actor.rs:976-991 | a send made before the peer has answered stays waiting though the ACCEPT brings its credit |
| ActorCallers.NobodyIsForgotten | crates/kindlebridge-transport/src/actor.rs:642-951 | in every step of every run within a session, every caller but a ping is answered or waits, and everyone who waited is answered, or still waits, or waited for a write on a stream that is finished |
| ActorCallers.WroteMinds | crates/kindlebridge-transport/src/actor.rs:617-637 | the sender of a written frame is told |
| ActorFrames.CommandsAreSent | crates/kindlebridge-transport/src/actor.rs:642-861 | in every run a command that does not fail queues the frame it stands for, with its payload, last on its stream |
| ActorFrames.FramesAreAnswered | crates/kindlebridge-transport/src/actor.rs:904-1005 | in every run PING is answered by PONG with its payload, ACCEPT by the grant of the window and the opener told, OPEN entered if its service can be read and somebody listens, GOAWAY answers who waits for it and ends the session or starts it over |
| ActorFailures.LateResetFails | crates/kindlebridge-transport/src/actor.rs:1155-1161 | for any session and stream, a run after which a second RESET is accepted by the validator and fails the actor as unknown stream |
| ActorFailures.LongReasonFails | crates/kindlebridge-transport/src/actor.rs:1176-1182 | a run after which an accepted RESET with a long reason fails the actor as a full inbox |
| ActorFailures.ResetDropsUnread | crates/kindlebridge-transport/src/actor.rs:1187-1210 | a run in which unread DATA is dropped with the stream |
| ActorFailures.ReadySession | crates/kindlebridge-wire/src/state.rs:404-434 | two HELLOs give a session those runs start from |
| InstallStores.InstallStore.constructor | crates/kindlebridge-bundle/src/install.rs:94-113 | the store opened on a disk |
| InstallStores.InstallStore.WriteActivePointer | crates/kindlebridge-bundle/src/install.rs:600-605 | one durable write of the pointer |
| InstallStores.InstallStore.WriteTransaction | crates/kindlebridge-bundle/src/install.rs:620-630 | one durable write below a transaction directory |
| InstallStores.InstallStore.WritePhase | crates/kindlebridge-bundle/src/install.rs:620-630 | one durable write of the journal |
| InstallStores.InstallStore.RemoveStagedTree | crates/kindlebridge-bundle/src/install.rs:810-835 | file by file, each removal its own step |
| InstallStores.InstallStore.RemoveTransactionTree | crates/kindlebridge-bundle/src/install.rs:810-835 | file by file in either directory order, each removal its own step |
| InstallStores.InstallStore.StageGeneration | crates/kindlebridge-bundle/src/install.rs:215-292 | the durable writes of staging, in order, and the result |
| InstallStores.InstallStore.SettleGeneration | crates/kindlebridge-bundle/src/install.rs:469-502 | the staged directory becomes the durable one, or is discarded if that exists |
| InstallStores.InstallStore.CommitGeneration | crates/kindlebridge-bundle/src/install.rs:294-301 | the durable writes of a commit, in order, and the result |
| InstallStores.InstallStore.RecoverTransaction | crates/kindlebridge-bundle/src/install.rs:353-454 | what recovery does with one transaction |
| InstallStores.InstallStore.RecoverEach | crates/kindlebridge-bundle/src/install.rs:353-454 | one transaction after the other, stopping at the first error |
| InstallStores.InstallStore.RecoverAll | crates/kindlebridge-bundle/src/install.rs:353-454 | the whole pass: the writes and the report of the specification |
| InstallStores.InstallStore.ActivateExisting | crates/kindlebridge-bundle/src/install.rs:334-351 | compare-and-swap of the pointer to a durable generation |
| InstallStores.ChainIsRecover | crates/kindlebridge-bundle/src/install.rs:353-454 | the loop over transactions is the recursive pass the theorems are about |
| InstallSafety.WriteOnce | crates/kindlebridge-bundle/src/install.rs:215-292 | over every run of staging, committing, recovering, activating and crashing, a durable generation is never removed or altered |
| InstallSafety.PointerAlwaysDurable | crates/kindlebridge-bundle/src/install.rs:600-605 | the pointer always names a durable generation with the content its id stands for, and a rollback target exists exactly when that generation records a predecessor |
| InstallSafety.MovesReplace | crates/kindlebridge-bundle/src/install.rs:456-526 | each pointer move within a commit or a recovery goes from G to a generation that records G as its predecessor |
| InstallSafety.RunKeeps | crates/kindlebridge-bundle/src/install.rs:353-526 | the invariant of the disk holds after every step of every run, crashes between any two writes included |
| InstallRecovery.RecoverySettles | crates/kindlebridge-bundle/src/install.rs:353-454 | a recovery pass succeeds if and only if no transaction is blocked, and then every surviving journal is Committed |
| InstallRecovery.SecondPassIsQuiet | crates/kindlebridge-bundle/src/install.rs:353-454 | after one successful pass no write of a further pass moves the pointer |
| InstallRecovery.RecoveryPointer | crates/kindlebridge-bundle/src/install.rs:353-454 | with one open transaction, where recovery leaves the pointer |
| InstallRecovery.CrashedStaging | crates/kindlebridge-bundle/src/install.rs:215-292 | a crash after any write of staging: recovery succeeds, the transaction is gone, pointer and generations are as before |
| InstallRecovery.CrashedCommit | crates/kindlebridge-bundle/src/install.rs:456-526 | a crash after any write of a commit: recovery leaves the new generation active if it had become durable and the pointer was still at its base, else the pointer as it was; and when recovery succeeds |
| InstallRecovery.BlockedIsReachable | crates/kindlebridge-bundle/src/install.rs:353-454 | two stagings of one generation and a crash in the second commit leave a blocked transaction |
| InstallBlocked.BlockedForGood | crates/kindlebridge-bundle/src/install.rs:353-454 | over every run a blocked transaction stays as it is; from then on every recovery pass that lists it and every commit of it fails |
| InstallBlocked.StepStaysStuck | crates/kindlebridge-bundle/src/install.rs:215-526 | no staging, commit, recovery or activation, finished or cut short, changes a blocked transaction |
| InstallBlocked.RecoverLeaves | crates/kindlebridge-bundle/src/install.rs:353-454 | no write of a recovery pass touches a blocked transaction, and a pass that lists it fails, in whatever order |
| InstallBlocked.WholeRunsRecover | crates/kindlebridge-bundle/src/install.rs:353-454 | in every run whose operations all end, recovery succeeds |
| InstallActivation.ActivationSpec | crates/kindlebridge-bundle/src/install.rs:334-351 | in every run an activation succeeds if and only if its target is durable and the pointer is the expected one; then one write makes the target active and changes nothing else; otherwise nothing is written |
| InstallActivation.EveryMove | crates/kindlebridge-bundle/src/install.rs:294-454 | over every run, each write that moves the pointer is a replacement by commit or recovery, or an activation from its expected generation to its target; staging never moves it |
| InstallActivation.RollbackActivates | crates/kindlebridge-bundle/src/install.rs:319-351 | in every run, activating what a rollback selects succeeds and leaves exactly the recorded predecessor active |
| InstallOutcomes.StageOutcome | crates/kindlebridge-bundle/src/install.rs:215-292 | staging succeeds if and only if the id is well-formed, the pointer is what the generation replaces, and the transaction is new with a new generation or repeats what it holds; what it leaves |
| InstallOutcomes.CommitOutcomes | crates/kindlebridge-bundle/src/install.rs:456-526 | which of its three answers a commit gives, and exactly when |
| InstallOutcomes.CommitLeaves | crates/kindlebridge-bundle/src/install.rs:456-526 | pointer, generation, journal and everything else after a commit, a late conflict or a refusal |
| InstallOutcomes.RecoveredAsReported | crates/kindlebridge-bundle/src/install.rs:353-454 | recovery of a transaction reports exactly what was the matter with it, and leaves it accordingly |
| Install.DurableKeepsJournal | crates/kindlebridge-bundle/src/install.rs:469-502 | making a generation durable touches neither the journal nor the pointer |
| CborCodec.EncodeArgument | crates/kindlebridge-bundle/src/cbor.rs:107-136 | appends the shortest head for an argument |
| CborCodec.EncodeValue | crates/kindlebridge-bundle/src/cbor.rs:37-105 | appends exactly the canonical encoding, or fails exactly when some part does not fit |
| CborCodec.EncodeString | crates/kindlebridge-bundle/src/cbor.rs:58-65 | byte and text strings with their length |
| CborCodec.EncodeArrayItems | crates/kindlebridge-bundle/src/cbor.rs:66-71 | items in order after their count |
| CborCodec.EncodeKeys | crates/kindlebridge-bundle/src/cbor.rs:72-78 | each key encoded on its own |
| CborCodec.EncodeMapEntries | crates/kindlebridge-bundle/src/cbor.rs:72-90 | entries sorted by encoded key, shorter first, after their count |
| CborCodec.EncodeSorted | crates/kindlebridge-bundle/src/cbor.rs:79-90 | the sorted entries in turn |
| CborCodec.ScanItem | crates/kindlebridge-bundle/src/cbor.rs:138-200 | the recursive scanner computes the scan function: the position after the item, or the error |
| CborCodec.ScanItems | crates/kindlebridge-bundle/src/cbor.rs:172-176 | array items in a loop |
| CborCodec.ScanPairs | crates/kindlebridge-bundle/src/cbor.rs:177-182 | map keys and values in a loop |
| CborCanonical.ScansOwnEncoding | crates/kindlebridge-bundle/src/cbor.rs:138-200 | the scanner on an encoding followed by any bytes consumes exactly the encoding if the depth allows, and otherwise refuses it |
| CborCanonical.PrefixFree | crates/kindlebridge-bundle/src/cbor.rs:37-105 | no encoding is a proper prefix of another |
| CborCanonical.EncodingDecidesValue | crates/kindlebridge-bundle/src/cbor.rs:37-105 | two values have the same encoding if and only if they are equal up to the order of map entries |
| CborCanonical.OrderIsForgotten | crates/kindlebridge-bundle/src/cbor.rs:72-90 | the encoding of a map does not depend on iteration order |
| CborCanonical.AcceptedIsEncoding | crates/kindlebridge-bundle/src/cbor.rs:138-246 | whatever the scanner accepts reads as a value within the depth; with rising keys the bytes are that value's encoding |
| CborCanonical.CanonicalIffScannedInOrder | crates/kindlebridge-bundle/src/cbor.rs:138-246 | a byte string is the encoding of some value within the depth if and only if the scanner consumes all of it and all map keys rise strictly, shorter first |
| CborInverse.ScanIsRead | crates/kindlebridge-bundle/src/cbor.rs:138-200 | the scanner accepts exactly what a structural reader reads, and stops where it stops |
| CborTheorems.EncodedReadsBack | crates/kindlebridge-bundle/src/cbor.rs:37-136 | the structural reader reads an encoding back as the value it was made from |
| Crc.ShiftsInjective | crates/kindlebridge-wire/src/frame.rs:302-312 | different registers stay different through any number of shifts |
| Crc.ShiftsLinear | crates/kindlebridge-wire/src/frame.rs:302-312 | shifting commutes with exclusive or |
| Crc.BurstRemains | crates/kindlebridge-wire/src/frame.rs:302-312 | up to four differing bytes cannot cancel out in the register |
| Crc.NoticesBurst | crates/kindlebridge-wire/src/frame.rs:302-312 | two strings that differ only within four consecutive bytes and have one checksum are equal |
| Crc.ComputeCrc32c | crates/kindlebridge-wire/src/frame.rs:302-312 | the loop over bytes and bits computes CRC-32C of section 12.1 of RFC 3720 |
| FrameCodec.EncodedDecodes | crates/kindlebridge-wire/src/frame.rs:191-252 | a valid header encodes to 40 bytes that decode to it, whatever follows |
| FrameCodec.DecodedEncodes | crates/kindlebridge-wire/src/frame.rs:211-252 | an accepted header re-encodes to the bytes it came from |
| FrameCodec.CorruptionIsNoticed | crates/kindlebridge-wire/src/frame.rs:211-252 | any change confined to four consecutive bytes outside the CRC field makes decoding fail |
| FrameCodec.FramesRoundTrip | crates/kindlebridge-wire/src/frame.rs:269-300 | for whole frames: encoding gives these bytes if and only if decoding them gives this frame |
| FrameCodec.WriteFront | crates/kindlebridge-wire/src/frame.rs:191-209 | the fields in place in the buffer |
| FrameCodec.EncodeHeader | crates/kindlebridge-wire/src/frame.rs:191-209 | the buffer filled in place, checksum last, holds the encoding |
| KbbHeader.EncodedSectionsDecode | crates/kindlebridge-bundle/src/header.rs:23-108 | a canonical header encodes to bytes that decode to it |
| KbbHeader.DecodedSectionsEncode | crates/kindlebridge-bundle/src/header.rs:23-108 | accepted header bytes are canonical and are the encoding of what they decode to |
| KbbHeader.CheckedIsCanonical | crates/kindlebridge-bundle/src/header.rs:41-74 | the overflow-checked comparisons accept exactly the canonical offsets and file length |
| KbbHeader.WriteSections | crates/kindlebridge-bundle/src/header.rs:91-104 | the fields in place in a zeroed buffer |
| KbbHeader.EncodeHeader | crates/kindlebridge-bundle/src/header.rs:91-108 | the buffer filled in place, checksum last, holds the encoding |
| KbbLayout.ValidateBlocks | crates/kindlebridge-bundle/src/verify.rs:385-442 | one pass with a running offset accepts exactly the tables that are sorted, consistent, packed at multiples of eight up to the payload length, and list the referenced blocks |
| KbbLayout.PayloadTiles | crates/kindlebridge-bundle/src/verify.rs:646-665 | a packed payload with clear gaps is its stored blocks and zero padding, and nothing else |
| KbbLayout.BuiltPayloadPasses | crates/kindlebridge-bundle/src/builder.rs:209-226 | what the builder lays out is packed with clear gaps, and its blocks read back |
| KbbFile.ChunksObey | crates/kindlebridge-bundle/src/builder.rs:170-188 | chunking obeys the verifier's rule, and the chunks join to the file |
| KbbFile.ChunkRuleDecides | crates/kindlebridge-bundle/src/verify.rs:353-368 | the rule leaves one way to chunk a file of a given size |
| KbbFile.ValidateChunks | crates/kindlebridge-bundle/src/verify.rs:345-368 | the loop with its checked sum accepts exactly the sizes that obey the chunk rule |
| KbbFile.ValidateFileEntry | crates/kindlebridge-bundle/src/verify.rs:324-383 | accepts exactly the entries that have the fields of their kind and no others, chunks by the rule, and the right digest when empty |
| KbbFile.LayOut | crates/kindlebridge-bundle/src/builder.rs:209-226 | the payload buffer grown block by block, and where each block starts |
| KbbFile.CheckZeroRange | crates/kindlebridge-bundle/src/verify.rs:744-763 | reading a buffer at a time finds any non-zero byte |
| KbbFile.AcceptedIsAssembled | crates/kindlebridge-bundle/src/verify.rs:64-105 | an accepted file is its header, envelope, signatures and stored blocks, padded and joined: no gap, no overlap, no byte left over |
| KbbFile.AssembledIsAccepted | crates/kindlebridge-bundle/src/builder.rs:280-306 | what the builder assembles is accepted |
| KbbFile.PartsDetermineFile | crates/kindlebridge-bundle/src/verify.rs:64-105 | two accepted files with the same envelope, signatures and stored blocks are the same file |
| KbbContent.VerifyBlocks | crates/kindlebridge-bundle/src/verify.rs:646-665 | padding and digests of all blocks in one pass |
| KbbContent.VerifyFile | crates/kindlebridge-bundle/src/verify.rs:673-691 | the blocks of a file in order under one digest |
| KbbContent.VerifyPayload | crates/kindlebridge-bundle/src/verify.rs:646-693 | succeeds exactly when gaps are zero, every block is genuine and every file has its digest |
| KbbContent.FindOrdered | crates/kindlebridge-bundle/src/verify.rs:667-672 | in a sorted table a reference names exactly one block |
| KbbBuilder.AddChunk | crates/kindlebridge-bundle/src/builder.rs:171-188 | equal chunks are stored once; a different chunk with the same key stops the build |
| KbbBuilder.AddFile | crates/kindlebridge-bundle/src/builder.rs:170-202 | the references of a file are the keys of its chunks in order |
| KbbBuilder.CollectBlocks | crates/kindlebridge-bundle/src/builder.rs:154-203 | fails exactly when two different chunks have one key; else one block per chunk and none besides |
| KbbBuilder.SortedKeys | crates/kindlebridge-bundle/src/builder.rs:211-226 | the map is walked in strictly rising key order, every key once |
| KbbBuilder.BuildPayload | crates/kindlebridge-bundle/src/builder.rs:209-226 | payload and table of the blocks in key order |
| KbbBuilder.Build | crates/kindlebridge-bundle/src/builder.rs:153-226 | fails exactly on a collision; else the table passes the verifier up to its block limit, the payload verifies, every file obeys the chunk rule and reads back as it was |
| KbbBundle.VerifyContents | crates/kindlebridge-bundle/src/verify.rs:385-442 | table and payload together, for any table |
| KbbBundle.VerifyBundle | crates/kindlebridge-bundle/src/verify.rs:64-150 | header, envelope digest, padding, table, blocks and files of a whole file: accepts exactly the bundles of the specification |
| KbbBundle.BundleIsAccepted | crates/kindlebridge-bundle/src/verify.rs:64-105 | a verified bundle is accepted for its layout, so its parts determine every byte of it |
| KbbBundle.BuildBundle | crates/kindlebridge-bundle/src/builder.rs:153-318 | from files to a finished bundle: it ends with a collision exactly when two different chunks hash alike; otherwise it fails exactly if the table has too many blocks or a section exceeds its limits; the finished file is accepted by the verifier and every input file reads back from it |
| TreePaths.CheckedIsTree | crates/kindlebridge-bundle/src/path.rs:84-112 | checking only each direct parent among earlier entries is the same as every proper ancestor being a declared directory |
| TreePaths.AncestorsDeclared | crates/kindlebridge-bundle/src/path.rs:102-109 | every proper ancestor of every entry is a declared directory |
| TreePaths.ValidateTreePaths | crates/kindlebridge-bundle/src/path.rs:84-112 | the pass with its sets accepts exactly the trees: valid, strictly sorted, no case-fold collision, all ancestors declared |
| TreePaths.JoinSplit | crates/kindlebridge-bundle/src/path.rs:151-169 | splitting at slashes and joining gives the path back |
| TreePaths.WalkStaysBelow | crates/kindlebridge-bundle/src/path.rs:151-169 | resolving components one by one fails exactly when the level drops below the root on the way |
| TreeLinks.ResolveTarget | crates/kindlebridge-bundle/src/path.rs:151-169 | the component stack computes the lexical resolution, the implicit root refused |
| TreeLinks.FollowLink | crates/kindlebridge-bundle/src/path.rs:124-145 | following one link with a set of visited paths succeeds exactly when a non-link is reached within 16 hops |
| TreeLinks.LoopNeverReaches | crates/kindlebridge-bundle/src/path.rs:130-135 | a chain that comes back to an entry never ends, so refusing a revisit loses nothing |
| TreeLinks.ValidateSymlinks | crates/kindlebridge-bundle/src/path.rs:115-148 | succeeds exactly when every link's chain stays below the root and inside the tree and reaches a non-link within 16 hops |
| TreeLinks.ValidateTree | crates/kindlebridge-bundle/src/verify.rs:279-295 | both checks in the verifier's order, for any list of entries |
| TreeWalk.StraightAgrees | crates/kindlebridge-bundle/src/path.rs:151-169 | where everything passed through before the last component is a declared directory, stepping through the tree gives what the component stack gives |
| TreeWalk.StraightIffNoLinkMet | crates/kindlebridge-bundle/src/path.rs:151-169 | a target can be followed by component without meeting a link if and only if its way is straight and ends, where the text says, at something that is no link |
| TreeWalk.StraightLinkAgrees | crates/kindlebridge-bundle/src/path.rs:115-148 | a straight chain of links leads by component to the entry its lexical chain ends at |
| TreeWalk.AcceptedLinksAgree | crates/kindlebridge-bundle/src/path.rs:115-148 | the same for every link of an accepted tree |
| TreeWalk.DescendStaysInside | crates/kindlebridge-bundle/src/path.rs:151-169 | if no link goes up further than it is deep, or after a name, following by component never goes above the root, through any number of links |
| TreeWalk.AcceptedLinksStayInside | crates/kindlebridge-bundle/src/path.rs:115-148 | in an accepted tree whose links all go up before they go down, no link followed by component leads out of the tree |
| TreeWalk.WaysPart | crates/kindlebridge-bundle/src/path.rs:115-148 | an accepted tree with a link whose text ends at a file and which, followed by component, leads to a name that is not there |
| LauncherProcesses.LauncherProcess.OpenAt | device/kindlebridge-launcher/src/watchdog.rs:92-110 | a pending switch is finished first, then the saved state loaded; the writes and errors of the open function |
| LauncherProcesses.LauncherProcess.RequestSlot | device/kindlebridge-launcher/src/watchdog.rs:112-141 | the three writes of a switch, in order, or a refusal |
| LauncherProcesses.LauncherProcess.Rollback | device/kindlebridge-launcher/src/watchdog.rs:379-393 | the writes of a rollback, in order |
| LauncherProcesses.LauncherProcess.RecordFailure | device/kindlebridge-launcher/src/watchdog.rs:342-377 | a failure counted; roll back, halt or back off |
| LauncherProcesses.LauncherProcess.ConfirmHealthy | device/kindlebridge-launcher/src/watchdog.rs:395-408 | a healthy pending slot is confirmed and the old one remembered |
| LauncherProcesses.LauncherProcess.StepRunning | device/kindlebridge-launcher/src/watchdog.rs:264-340 | one look at a running child |
| LauncherProcesses.LauncherProcess.Start | device/kindlebridge-launcher/src/watchdog.rs:180-235 | a child is started, or the reason why not |
| LauncherProcesses.LauncherProcess.DropStale | device/kindlebridge-launcher/src/watchdog.rs:151-176 | a child or a state of another slot than the current one is dropped, at most one state written |
| LauncherProcesses.LauncherProcess.Step | device/kindlebridge-launcher/src/watchdog.rs:143-235 | one step, with its durable writes in order |
| LauncherTheorems.OpensCoherent | device/kindlebridge-launcher/src/watchdog.rs:465-480 | opening a coherent disk succeeds and resumes a pending switch |
| LauncherTheorems.WritesStayCoherent | device/kindlebridge-launcher/src/watchdog.rs:112-408 | every write of a step, a switch or a daemon rollback leaves a coherent disk |
| LauncherTheorems.SwitchSurvivesKill | device/kindlebridge-launcher/src/watchdog.rs:112-141 | killed after any number of writes and reopened: before the first the old slot is current, after it the switch is resumed; with a fresh record exactly if all writes were made or the saved record is clean |
| LauncherTheorems.StaleRecordBlocksSwitch | device/kindlebridge-launcher/src/watchdog.rs:112-141 | a halted record of the target left on disk keeps a resumed switch halted |
| LauncherRuns.StaleRecordIsReachable | device/kindlebridge-launcher/src/watchdog.rs:112-141 | a life from a fresh installation that leaves such a record and hangs on it |
| LauncherTheorems.RollbackSurvivesKill | device/kindlebridge-launcher/src/watchdog.rs:379-393 | killed within a rollback and reopened: the switch is pending as before, or the previous slot is current, with a clean record exactly unless an older one of that slot was still on file |
| LauncherTheorems.NextFailureRollsBackAgain | device/kindlebridge-launcher/src/watchdog.rs:342-393 | a rollback cut off before its pending record was removed keeps the failure count, and the next failure rolls back again |
| LauncherTheorems.TrialRun | device/kindlebridge-launcher/src/watchdog.rs:143-377 | over any run without confirmation the failure count is the number of failures |
| LauncherTheorems.FailuresEndTrial | device/kindlebridge-launcher/src/watchdog.rs:342-377 | the `max_crashes`-th failure without confirmation rolls a pending slot back to the previous one and halts any other |
| LauncherRuns.LifeInStep | device/kindlebridge-launcher/src/watchdog.rs:92-408 | over every life of boots, steps, requests, rollbacks and stagings by the updater, and kills after any write, the saved state is the one in memory, or there is none and memory is clean |
| LauncherRuns.CountSurvivesKills | device/kindlebridge-launcher/src/watchdog.rs:342-377 | a kill loses no failure that a step has seen through: until the switch is undone the count on record is at least the failures seen, and below the limit |
| LauncherRuns.FailingSwitchIsUndone | device/kindlebridge-launcher/src/watchdog.rs:342-393 | a pending slot that is never confirmed is rolled back once as many steps have seen it fail as its manifest allows (the staged one, if one is staged over it), with kills, reboots, requests, rollbacks and stagings anywhere in between |
| LauncherRuns.TrialGoesOn | device/kindlebridge-launcher/src/watchdog.rs:143-408 | each event of a life keeps the count of a slot on trial or raises it by one, and at the limit undoes the switch |
| LauncherRuns.RequestBeginsTrial | device/kindlebridge-launcher/src/watchdog.rs:112-141 | a request, complete or cut off once begun, puts its target on trial |
| LauncherStaging.EventHolds | device/kindlebridge-launcher/src/update.rs:52-100 | nothing but an accepted staging changes what a slot holds; it replaces the slot that is not current, executable before manifest, also when killed in between |
| LauncherStaging.LifeHolds | device/kindlebridge-launcher/src/update.rs:52-100 | over every life a slot holds the program last staged over it, and as long as none is, exactly what it held |
| LauncherStaging.RecordedSlotIsIntact | device/kindlebridge-launcher/src/update.rs:79-81 | over every life the slot on record for a rollback is never touched while it is on record |
| LauncherStaging.StagingDuringTrial | device/kindlebridge-launcher/src/update.rs:75-94 | a staging while a switch is pending keeps the switch pending and replaces the slot to go back to exactly if the pointer has moved |
| LauncherStaging.UndoneSwitchRuns | device/kindlebridge-launcher/src/watchdog.rs:379-393 | an undone switch brings back the program from before it if and only if no staging since has put another over it |
| LauncherStaging.RollbackRuns | device/kindlebridge-launcher/src/update.rs:26-50 | a rollback of a confirmed switch, however much later, brings back the program from before it if and only if no staging before the confirmation has put another over it |
| LauncherStaging.StagedOverIsRestored | device/kindlebridge-launcher/src/update.rs:79-94 | a staging while a switch is on trial: the failure that uses up the limit brings the staged program |
| LauncherStaging.StagingOutcome | device/kindlebridge-launcher/src/update.rs:52-100 | staging succeeds exactly for a program that passes its checks; the inactive slot then holds it under the production manifest and is the candidate, the rollback record is gone, nothing else has changed |
| LauncherOutcomes.BackoffDoubles | device/kindlebridge-launcher/src/watchdog.rs:342-377 | the delay starts at the first value, doubles with each failure up to the largest, and stays |
| LauncherOutcomes.WaitsOutBackoff | device/kindlebridge-launcher/src/watchdog.rs:177-235 | after a failure no step starts the slot before its delay is over, and the first step after does |
| LauncherOutcomes.RestoredStarts | device/kindlebridge-launcher/src/watchdog.rs:379-393 | after a rollback the next step starts the previous slot |
| LauncherOutcomes.DisabledStops | device/kindlebridge-launcher/src/watchdog.rs:143-149 | a disabled step stops the child, starts nothing and writes nothing |
| LauncherOutcomes.AnswerMatchesChild | device/kindlebridge-launcher/src/watchdog.rs:143-340 | an enabled step says started, running or healthy exactly when a child of the current slot runs, healthy exactly when it is |
| LauncherOutcomes.RequestOutcome | device/kindlebridge-launcher/src/watchdog.rs:112-141 | when a request succeeds, and what it changes |
| LauncherOutcomes.RollbackOutcome | device/kindlebridge-launcher/src/update.rs:26-50 | when the updater rolls back, and what it changes |
| WatchdogTrial.ConfirmedIffProven | device/kindlebridge-launcher/src/watchdog.rs:264-310 | for any clock and heartbeats, a child turns healthy and is confirmed exactly at a poll with a new heartbeat at least `healthy_after` after the first one found since the clock last fell |
| WatchdogTrial.KilledIffHopeless | device/kindlebridge-launcher/src/watchdog.rs:310-340 | a child not yet healthy is killed exactly at a poll without a new heartbeat, when none was found for `startup_timeout` since its start or the last fall of the clock, or the last new one is older than the heartbeat timeout |
| WatchdogTrial.TrialRemembers | device/kindlebridge-launcher/src/watchdog.rs:264-340 | what the child remembers is the first, the last and the last new heartbeat since the clock last fell |
| WatchdogTrial.StartsTrial | device/kindlebridge-launcher/src/watchdog.rs:177-235 | a started child begins such a trial |
| LauncherTheorems.RollbackNeverTogglesForward | device/kindlebridge-launcher/src/update.rs:26-50 | any number of daemon rollbacks, each cut off anywhere, leave the current slot or its recorded previous one, and never go back |
| LauncherTheorems.NothingToRollBack | device/kindlebridge-launcher/src/update.rs:26-50 | without a recorded previous slot they change nothing |
| Watchdog.KilledIffOverdue | device/kindlebridge-launcher/src/watchdog.rs:264-340 | for any clock, a healthy child is killed for heartbeat loss exactly at the end of an unbroken run of polls, clock not falling and gaps within the timeout, that spans more than the timeout without a heartbeat |
| Watchdog.OverdueWhenKilled | device/kindlebridge-launcher/src/watchdog.rs:308-327 | the run of polls behind such a kill |
| Watchdog.KilledWhenOverdue | device/kindlebridge-launcher/src/watchdog.rs:308-327 | such a run of polls does lead to the kill |
| Watchdog.HealthyIsCovered | device/kindlebridge-launcher/src/watchdog.rs:270-307 | what a healthy child's heartbeat window rests on |
| SyncPush.NextGood | device/kindlebridged/src/sync.rs:296-765 | each event, complete or cut after any write, keeps hasher, staged bytes and offset in step |
| SyncPush.HasherFollowsFile | device/kindlebridged/src/sync.rs:670-728 | across any sequence of operations, each complete or cut off by a kill after any write, losses and resumes, the hasher has seen exactly the staged bytes up to the offset |
| SyncPush.TargetsChangeOnlyWhenVerified | device/kindlebridged/src/sync.rs:730-765 | no write of any operation changes a target but the rename of a finish, and then to staged bytes of the declared size and hash |
| SyncPush.TransferKeepsDeclaration | device/kindlebridged/src/sync.rs:296-364 | between starts a transfer keeps the path, size and hash it was begun with |
| SyncResume.ResumableIffFinishNotCut | device/kindlebridged/src/sync.rs:296-364 | over every run, a recorded transfer can be resumed if and only if no kill ever came between the rename of its finish and the metadata write |
| SyncResume.StepKept | device/kindlebridged/src/sync.rs:556-581 | every event keeps the books; only such a kill strands a transfer, and nothing frees one |
| SyncResume.CutFinishStrands | device/kindlebridged/src/sync.rs:758-763 | such a run for every path, content and hash: the target holds the content and resuming fails |
| SyncResume.NewTransferOnTrack | device/kindlebridged/src/sync.rs:319-332 | a new transfer is on track once its metadata is written |
| SyncResume.HonestRunStaysOnTrack | device/kindlebridged/src/sync.rs:296-765 | a sender that always continues with the right bytes stays on track over any kills, losses and resumes |
| SyncResume.HonestEndSucceeds | device/kindlebridged/src/sync.rs:730-765 | with everything sent, its finish succeeds with exactly the content |
| SyncResume.HonestCompletes | device/kindlebridged/src/sync.rs:296-765 | from any point on track one undisturbed attempt delivers the content, unless a cut finish has already delivered it |
| PushTransfers.HashPrefix | device/kindlebridged/src/sync.rs:920-938 | feeds exactly the first bytes to the hasher, or fails if there are too few |
| PushTransfers.SyncStore.WriteMetadata | device/kindlebridged/src/sync.rs:556-568 | one write, by rename |
| PushTransfers.SyncStore.AppendPart | device/kindlebridged/src/sync.rs:686-689 | the staging file grows; a kill may leave any part of the data |
| PushTransfers.SyncStore.CommitTarget | device/kindlebridged/src/sync.rs:570-582 | the staging file takes the place of the target in one write |
| PushTransfers.SyncStore.BeginPush | device/kindlebridged/src/sync.rs:296-364 | new or resumed transfer, its offset set to the length of the staging file; the writes in order |
| PushTransfers.PushTransfer.WriteChunk | device/kindlebridged/src/sync.rs:670-696 | appends, hashes, advances, checkpoints when due; refuses what exceeds the size; the writes in order |
| PushTransfers.PushTransfer.Checkpoint | device/kindlebridged/src/sync.rs:702-709 | the metadata record is brought up to date |
| PushTransfers.PushTransfer.RollbackForResume | device/kindlebridged/src/sync.rs:714-728 | the file is cut to an earlier offset, then the metadata follows |
| PushTransfers.PushTransfer.Finish | device/kindlebridged/src/sync.rs:730-765 | rename first, record second; or the file is emptied, or the finish refused; the writes in order |
| SyncOutcomes.WriteOutcome | device/kindlebridged/src/sync.rs:670-700 | when a chunk is taken, and what it changes |
| SyncOutcomes.FinishOutcome | device/kindlebridged/src/sync.rs:730-765 | done, unfinished or emptied: which, and exactly what is left |
| SyncOutcomes.RollOutcome | device/kindlebridged/src/sync.rs:714-728 | giving up for now succeeds exactly up to where the transfer got, and keeps the content before |
| SyncOutcomes.BeginOutcome | device/kindlebridged/src/sync.rs:296-360 | a new transfer, or one picked up where its file ends, exactly if its declaration is the recorded one |
| SyncOutcomes.RecordKeepsUp | device/kindlebridged/src/sync.rs:676-712 | in every run the record of the open transfer is never a whole checkpoint interval behind while there is more to send |
| Resync.MatchStep | device/kindlebridge-functionfs/src/probe.rs:164-175 | the one-byte step of the matcher keeps the longest match and finds the first occurrence, since the magic does not overlap itself |
| Resync.AnswersAreExclusive | device/kindlebridge-functionfs/src/probe.rs:148-189 | the specification allows one answer per stream and limit, so the result does not depend on how `fill_buf` cuts the stream |
| Resync.ResynchronizingReader.ScanBuffer | device/kindlebridge-functionfs/src/probe.rs:162-177 | one buffer scanned |
| Resync.ResynchronizingReader.ScanOnce | device/kindlebridge-functionfs/src/probe.rs:152-179 | one `fill_buf`, bounded by what is left of the limit |
| Resync.ResynchronizingReader.ResynchronizeWithin | device/kindlebridge-functionfs/src/probe.rs:148-189 | success discards exactly the bytes before the first occurrence of the magic; the limit error means no occurrence lies wholly within the limit; end of stream means none at all |
| Resync.ResynchronizingReader.Resynchronize | device/kindlebridge-functionfs/src/probe.rs:148-189 | the same with the program's limit |
| Resync.ResynchronizingReader.Read | device/kindlebridge-functionfs/src/probe.rs:192-205 | reads the magic back before the rest of the stream, no byte lost or added |

## Left out

Deliberately weaker contracts:

- ActorLoops.ActorLoop.Emit: when queueing fails, the contract leaves open how far counters and validator had moved, because the session ends there or starts anew from a HELLO.
- ActorLoops.ActorLoop.QueueCredit: as for Emit.
- ActorLoops.ActorLoop.QueueFrame: as for Emit.
- ActorLoops.ActorLoop.RestoreConsumedCredit: as for Emit.
- ActorLoops.ActorLoop.RetireStream: the refusals sent to write waiters are not among the replies; that they get no confirmation is.
- ActorLoops.ActorLoop.FailStreams: the refusals it sends are not modelled; it is a reset of the state.
- ActorLoops.ActorLoop.FlushAll: streams are tried in a given order; the program's hash map order is any.
- ActorLoops.ActorLoop.HandleCommand: ping ids, their waiters and limit are not modelled.
- ActorLoops.ActorLoop.PingPeer: as for HandleCommand.
- ActorCallers.NobodyIsForgotten: pings, and who waits for the write of a frame when its stream is finished, are left out.
- SchedulerForfeit.NoCreditFromBeforeIdling: for bounds that leave room for a quantum below the largest machine word; above, deficits saturate and the account is an upper bound (`SchedulerRuns.ServiceBound`).
- ActorWaiting.WaitingLacksCredit: connection credit is offered to every stream that waits; which ids are tried is part of the event.
- ActorLoops.ActorLoop.HandleEvent: the refusal of a command from an earlier session, or during a restart, is not among the replies; that it changes nothing is.
- KbbBundle.VerifyBundle: decides layout, digests, blocks and files; signatures, the chunk rule of single entries and the tree checks are decided apart (`KbbFile.ValidateFileEntry`, `TreeLinks.ValidateTree`) or not modelled.
- TreeWalk.AcceptedLinksStayInside: going up first is enough to stay inside, and is not necessary.
- TreeWalk.AcceptedLinksAgree: a straight way is enough for agreement; off it the two may still happen to agree.
- CborCodec.EncodeValue: which of several errors is reported for a map with several faulty parts is left open.
- CborCanonical.ScansOwnEncoding: for inputs of at most 2^64 - 1 bytes, the largest the program can address.
- TreeLinks.ValidateSymlinks: for distinct paths, which the check before it guarantees; ValidateTree needs nothing.
- KbbContent.VerifyPayload: for packed tables whose references resolve, which the checks before it guarantee.
- KbbFile.AssembledIsAccepted: for sections within the static limits; beyond them the builder's own final verification refuses.

Not modelled:

- Actor: ping ids, waiters, their limit and deadlines; threads, channels and time; the JSON of OPEN and HELLO payloads (what is read from them is a parameter); commands of an earlier session generation, refused before they reach the model.
- Actor: inbound frames are taken to be well-formed frames of the codec, payload length as in the header.
- Two endpoints: pairing sessions, and endpoints with different limits.
- Scheduler: machine words are 64 bits wide; with 32 bits the additions saturate earlier, at byte counts no bound of that width reaches.
- Activation store: the block store and its quota, symbolic links and reparse points, locks between processes, torn writes (a write or rename is atomic, as the program arranges with temporary files).
- Bundles: signatures, key rotation, permissions, envelope fields other than the block table, tree roots, entry points, firmware ranges.
- CBOR: conversion to and from typed values; floats and tags, which encoder and scanner both refuse.
- Paths: Unicode normalisation and the lexical rules for single components and link targets.
- Launcher: parsing of slot manifests and state files (a slot has one executable, whatever name its manifest gives it), the manager that activates a staged slot, file modes, errors of the operating system and the process runner.
- Push: hashing on another thread with an external digest, pulls, directory listing, two handles on one transfer, a `write_all` that fails part-way while the handle lives on, and the removals before a rename on Windows. After a loss of power staging files may be shorter or garbled, but are not lost; for an honest sender they hold a start of what was sent.
- Reader: errors of the underlying endpoint other than its end.
- TCP, USB and FunctionFS endpoints, RPC schema and client, command line, shells, process supervision.

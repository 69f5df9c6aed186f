# phxpaxos: a verified model

phxpaxos replicates a log of values with multi-instance Paxos and builds a master
election, a membership service, log storage, catch-up and checkpoint transfer on top of
it. This project models those parts in Dafny and proves what they promise, over whole
runs of any number of nodes.

**Paxos core.** `PaxosTypes` has ballots, messages and node state, `NodeSpec` the
handlers of one node as functions, `PaxosSystem` a cluster: the nodes and the
ever-growing set of sent messages, so that loss, duplication and reordering are all
covered. One step is one event at one node (new value, timeout, commit timeout, delivery,
offer of a stored value, crash and restart). A crash may lose any suffix of the copied
records, which are written without a sync, and may come between the broadcast of an Accept
and the own acceptor. Promises carry over instances, Prepare is
skipped, ballots are prepared again, the own acceptor runs inside the send, values are
learned from the own acceptor, from a success notice, from a request of the next
instance, or by copying another node's log. `PaxosInvariant` holds the invariant,
`PaxosStable` to `PaxosAgreement` prove that every step keeps it, `PaxosTheorems` states
what follows for whole runs. `PaxosRejection`, `PaxosTimers`, `PaxosProgress` and
`PaxosRecovery` are about getting somewhere: ballots rise above rejections and no further
than that, live timers act and cancelled ones do not, and within two rounds that nobody
disturbs a value is executed, whatever the others have promised before. `PaxosChecksums` says
what the checksums are. The objects in `Proposer.dfy`, `Acceptor.dfy`,
`Learner.dfy` and `Instance.dfy` update their fields in place and dispatch their own
messages to themselves as the source does; each method is proved to do what the handler
function says.

Four guards are needed, and are written out in `PaxosSystem`:

* *Preparing a ballot again*: once an Accept of the present ballot is out, Prepare may be
  sent again under it only while the own acceptor still grants it.
* *Next-instance shortcut*: taking a request of instance i+1 as a success notice of i is
  limited to clusters of at most four nodes (the proof covers four as well as three).
* *Restart*: a crash is allowed when the newest record that survives was written by the
  acceptor, not copied from another node.
* *Checkpoint*: the state machine's checkpoint covers no instance whose copied record the
  crash has lost.

`PaxosLimits` shows that none of them can be dropped: runs that observe the other three end
with two state machines having executed different values in one instance. For preparing
again, for the restart and for the checkpoint there is such a run in every cluster of three
or more nodes; for the shortcut in every cluster of five or more and in no smaller one, so
its bound is exact. `PaxosCrashes` proves that a crash within the last two guards puts the
node back to where it was before it made the lost copies. `PaxosValidity` adds that only
offered values are executed.

**Master lease.** `MasterSm` is the state machine and the bidding loop, `MasterLease` a
cluster with equal-rate clocks (each with its own origin) following one log. At most one
node believes it is master at any time, provided a renewal never ends before the lease the
bidder believes in. That condition is exact: whenever a bidder that is the last winner of
the log violates it, and another node and two free log instances exist, a schedule leads
to two masters; a bidder that is no longer the last winner cannot win at all. A run from
the initial world up to such a moment, and on to two masters, is given.

**Log storage.** `LogFormat` is the byte layout, `LogIndex` the scan and the rebuild,
`LogStore` the value store and the database as objects. The database refines a plain map,
and after a crash that loses any suffix of the index's puts it starts again with the full
index. The write offset comes back, and with it everything else, if and only if the newest
file has zero or at least four bytes left behind its last record, or holds no record, or an
earlier file happened to end at the same offset. With one to three bytes left the code
truncates the file but keeps a stale offset; one put, a crash and a start reach that state
from an empty directory.

**Catch-up and checkpoints.** `LearnerFlow` is one receiver and any number of senders,
their windows, acknowledgements and clocks. An acknowledgement counts only in a confirmed
session and within the prepare timeout after the last send. A sender waits exactly when its
last value is beyond the first window and no acknowledgement within the window was counted;
with all messages in, the receiver's last one is within the window, so it went elsewhere,
or came before the confirmation, or too late. `LogCleaner` is the deletion of old
instances, `CheckpointTransfer`, `CheckpointRuns` and `CheckpointObjects` the transfer of
checkpoint files over a faulty network, with the sender's window tied to the
acknowledgements it received.

**Commit and membership.** `Commit` is the hand-off of the values of any number of callers,
their retries and results, `SystemVariables` and `Membership` the version compare-and-set of the member list.

Where comments and code disagree, the model follows the code. What the window of the
catch-up is meant for does not hold in general, and there is a run for each way it fails,
with every message delivered:

* The receiver keeps a single last acknowledged instance for all senders
  (`src/algorithm/learner.cpp:143,513-521`) and acknowledges to whichever sender's value
  triggers it, while a second sender can be confirmed before the first has finished
  (`src/algorithm/learner.cpp:220-228,396-399`): `LearnerFlow.SecondSenderStarves`.
* A lone sender drops an acknowledgement of its earlier session that arrives before the new
  one is confirmed, and no new one is due: `LearnerFlow.EarlierSessionStarves`.
* A lone sender drops an acknowledgement that arrives when its last send is older than the
  prepare timeout, and from then on every other until the acknowledgement timeout, which
  with large buffers is ten times as long: `LearnerFlow.LateAcknowledgementStarves`,
  `LearnerFlow.DeafUntilTimeout`.

`LearnerFlow.NeverWaitsAlone` has the condition that excludes all three. Likewise the
check of the checkpoint against the log (`src/algorithm/instance.cpp:153-158`) lets the
checkpoint be one instance ahead, though the record left there after a crash may not be the
chosen one: `PaxosLimits.CheckpointGuardNeeded`.

## Model

| member | source | states |
|---|---|---|
| PaxosTheorems.Agreement | src/algorithm/learner.cpp:584-632 | no two state machines ever execute different values in one instance, at whatever moments of a run, under loss, duplication, reordering, crashes and restarts |
| PaxosTheorems.OneValuePerBallot | src/algorithm/proposer.cpp:385-411 | all Accepts a proposer ever sends for one instance and ballot carry the same value, though ballots are prepared again and replies are stale |
| PaxosTheorems.StoredLogIsTrue | src/algorithm/learner.cpp:55-101 | below its present instance every node has a non-empty record of each instance, and its value is the one any node executes there, at any time |
| PaxosTheorems.OfferedValueIsTrue | src/algorithm/learner_sender.cpp:273-291 | every value offered to a lagging node is the value executed in that instance |
| PaxosTheorems.ChecksumNeverFires | src/algorithm/instance.cpp:824-853 | the checksum assertion never fails and no checksum is ever adopted from a message: a non-zero checksum of the present instance equals the node's own |
| PaxosTheorems.SkipPrepareIsSafe | src/algorithm/proposer.cpp:181-187 | while a node may skip Prepare, some quorum votes nothing below its ballot in any later instance, then and ever after |
| PaxosTheorems.RestartStartsAbove | src/algorithm/instance.cpp:57-129 | a restart, with copies lost or not, brings back the exact promise, and the proposer starts above every ballot it ever sent |
| PaxosTheorems.ReplayIsTrue | src/algorithm/instance.cpp:241-269 | the replay after a restart finds every instance in the log that is left, and each value is the one executed before |
| PaxosTheorems.RestartExecutes | src/algorithm/instance.cpp:241-269 | every permitted restart, also one in the middle of an Accept, executes again every instance from the checkpoint up to the newest record, each with the value any node executes there |
| PaxosRejection.PrepareAboveRejection | src/algorithm/proposer.cpp:52-64 | once a rejection is counted, in its phase or late, every Prepare sent in that instance is above the id it named and above every id this proposer used before |
| PaxosRejection.PrepareNoHigher | src/algorithm/proposer.cpp:281-314 | a Prepare is at most one above the proposer's present id, its own acceptor's promise, or an id it was rejected with in this very instance |
| PaxosTimers.TimersLive | src/algorithm/proposer.cpp:481-512 | in every run the timer of a running phase belongs to the present instance, so that it acts when it fires |
| PaxosTimers.CancelledStaysCancelled | src/algorithm/instance.cpp:360-368 | after a commit timeout a proposer sends no Prepare, Accept or success notice, whatever arrives and however it restarts, until a caller offers the next value |
| PaxosProgress.TimeoutGetsThrough | src/algorithm/proposer.cpp:281-450 | from any state of a run in which the next ballot is high enough for a majority, the round a timer starts ends in an execution, of the own value if nobody had accepted any, and leaves the node proposing the next value without Prepare |
| PaxosProgress.NewValueGetsThrough | src/algorithm/proposer.cpp:166-195 | the same for a new value, with or without a Prepare round before the Accept |
| PaxosProgress.RejectedOnlyOnce | src/algorithm/proposer.cpp:316-383 | once each member of a majority grants the next ballot or has had its rejection counted, the next round gets a value executed |
| PaxosRecovery.TwoRoundsSuffice | src/algorithm/proposer.cpp:281-512 | from any state of any run, a proposer whose timer runs and that the first guard lets prepare gets a value executed within two rounds, whatever a majority in the same instance has promised and whatever it knows of that; its own value if none of them had accepted any |
| PaxosChecksums.ProposalsCarryChain | src/algorithm/proposer.cpp:385-411 | every Accept and every success notice carries the checksum chained over exactly the values executed before its instance; it is 0 exactly from the first link on that is 0 |
| PaxosChecksums.OffersCarryChain | src/algorithm/learner_sender.cpp:273-291 | so does a stored value offered to a lagging node |
| PaxosChecksums.DivergedNodeStops | src/algorithm/instance.cpp:824-853 | a node whose chain differs from that of a message of its instance dies before it handles the message |
| PaxosValidity.OnlyOfferedValues | src/algorithm/proposer.cpp:169-176 | whatever is executed was offered by a caller of some node earlier in the run |
| PaxosTheorems.RunGrows | src/algorithm/acceptor.cpp:235-252 | between two moments of a run promises only rise, messages, votes and executions only accumulate, and each new vote respects the voter's old promise |
| PaxosAgreement.RunKeepsInv | src/algorithm/instance.cpp:486-768 | every state of every guarded run satisfies the invariant |
| PaxosAgreement.EventKeepsInv | src/algorithm/instance.cpp:486-804 | each of the six events keeps the invariant |
| PaxosAgreement.ShortcutChosen | src/algorithm/instance.cpp:614-622 | with at most four nodes, when a request of the next instance carries the ballot the own acceptor accepted, the accepted value is chosen |
| PaxosAgreement.ChecksumSilent | src/algorithm/instance.cpp:824-853 | in any state satisfying the invariant the checksum logic leaves the node as it is |
| PaxosProposerSteps.PassSafe | src/algorithm/proposer.cpp:338-362 | when a majority has promised, the value of the highest reported ballot (or the own one) is safe: nothing else can be chosen below the ballot |
| PaxosStable.ChosenUnique | src/algorithm/msg_counter.cpp:70-73 | two values chosen in one instance are the same |
| PaxosStable.QuorumsMeet | src/config/system_v_sm.cpp:257-260 | any two majorities have a node in common |
| PaxosRounds.PrepareRoundStep | src/algorithm/proposer.cpp:281-314 | a Prepare round with the own acceptor first, and the Accept round it may lead to, keep the invariant |
| PaxosRounds.AcceptRoundStep | src/algorithm/proposer.cpp:385-450 | an Accept round with the own acceptor last, and the success it may lead to, keep the invariant |
| PaxosLearnSteps.LearnCopyStep | src/algorithm/learner.cpp:467-507 | copying another node's value keeps the invariant |
| PaxosLearnSteps.RestartStep | src/algorithm/instance.cpp:57-129 | a crash whose newest record is the acceptor's own keeps the invariant |
| PaxosCrashes.RewindStep | src/algorithm/learner.cpp:75-91 | a node set back to before the copies it may lose satisfies the invariant: its own record is in place again and holds all its votes and its promise |
| PaxosCrashes.CrashStep | src/algorithm/instance.cpp:57-129 | a crash that loses any suffix of the copied records, and the start after it, keep the invariant when the newest record left is the acceptor's own and the checkpoint covers no lost instance |
| PaxosCrashes.CrashKeepsPromise | src/algorithm/instance.cpp:57-129 | such a crash loses no promise |
| PaxosAgreement.CutAcceptStep | src/algorithm/base.cpp:243-263 | dying between the broadcast of an Accept and the own acceptor, with or without lost copies, keeps the invariant |
| PaxosLimits.ReprepareGuardNeeded | src/algorithm/proposer.cpp:481-511 | without the first guard, in every cluster of three or more nodes a run ends in two executed values: the proposer's own acceptor rejects the repeated Prepare, and an older value joins the one already sent under the ballot |
| PaxosLimits.ShortcutGuardNeeded | src/algorithm/instance.cpp:614-622 | without the second guard, in every cluster of five or more nodes a run ends in two executed values |
| PaxosLimits.ShortcutExact | src/algorithm/instance.cpp:614-622 | runs that observe the other two guards can disagree if and only if the cluster has at least five nodes |
| PaxosLimits.RestartGuardNeeded | src/algorithm/learner.cpp:75-82 | without the third guard every cluster of three or more nodes has a run that executes two values in instance 1: the copied record stores the learned ballot as the promise |
| PaxosLimits.CheckpointGuardNeeded | src/algorithm/instance.cpp:153-158 | without the fourth guard every cluster of three or more nodes has a run that executes two values in instance 0: the copy is lost, the checkpoint is not, and the acceptor's own value, which was not chosen, is offered in its place |
| ProposerObject.MsgCounter.StartNewRound | src/algorithm/msg_counter.cpp:39-44 | all three node-id sets become empty |
| ProposerObject.MsgCounter.AddReceive | src/algorithm/msg_counter.cpp:46-52 | the node joins the received set, the other sets stand |
| ProposerObject.MsgCounter.AddReject | src/algorithm/msg_counter.cpp:54-60 | the node joins the rejected set, the other sets stand |
| ProposerObject.MsgCounter.AddPromiseOrAccept | src/algorithm/msg_counter.cpp:62-68 | the node joins the granted set, the other sets stand |
| ProposerObject.ProposerRole.InitForNewPaxosInstance | src/algorithm/proposer.cpp:155-162 | value, other ids, counter and phases are cleared; ballot, skip flag and reject flag stay |
| ProposerObject.ProposerRole.NewPrepare | src/algorithm/proposer.cpp:52-64 | the ballot moves above the own and every other id seen |
| ProposerObject.ProposerRole.AddPreAcceptValue | src/algorithm/proposer.cpp:66-86 | a non-null higher pre-accepted ballot replaces ballot and value, nothing else does |
| ProposerObject.ProposerRole.SetOtherProposalID | src/algorithm/proposer.cpp:103-109 | the highest other id is the maximum seen |
| ProposerObject.ProposerRole.OfferValue | src/algorithm/proposer.cpp:169-176 | a new value is taken only when there is none |
| ProposerObject.ProposerRole.Prepare | src/algorithm/proposer.cpp:281-314 | the fields of the prepare phase, and the request, are those of the specification; a new ballot is above the own id and every other id seen |
| ProposerObject.ProposerRole.OnPrepareReply | src/algorithm/proposer.cpp:316-373 | stale replies change nothing; others are counted, and the result says whether a majority has promised |
| ProposerObject.ProposerRole.Accept | src/algorithm/proposer.cpp:385-411 | the fields of the accept phase, and the request with value and checksum, are those of the specification |
| ProposerObject.ProposerRole.OnAcceptReply | src/algorithm/proposer.cpp:413-469 | stale replies change nothing; others are counted, and the result says whether a majority has accepted |
| ProposerObject.ProposerRole.OnExpiredReply | src/algorithm/proposer.cpp:375-383 | a late rejection sets the reject flag and the highest other id |
| AcceptorObject.PaxosLog.GetMaxInstanceIDFromLog | src/logstorage/db.cpp:463-489 | the largest stored instance, or none for an empty log |
| AcceptorObject.AcceptorRole.InitForNewPaxosInstance | src/algorithm/acceptor.cpp:40-47 | accepted ballot, value and checksum are cleared, the promise stays |
| AcceptorObject.AcceptorRole.Persist | src/algorithm/acceptor.cpp:84-132 | the checksum is updated and the whole state is in the log under the present instance |
| AcceptorObject.AcceptorRole.Load | src/algorithm/acceptor.cpp:134-171 | the fields are those of the newest record, or untouched for an empty log |
| AcceptorObject.AcceptorRole.OnPrepare | src/algorithm/acceptor.cpp:220-285 | grants exactly ballots at least the promise, persists, and reports what was accepted; else rejects and changes nothing |
| AcceptorObject.AcceptorRole.OnAccept | src/algorithm/acceptor.cpp:287-345 | accepts exactly ballots at least the promise and persists them; else rejects and changes nothing |
| LearnerObject.LearnerRole.LearnValue | src/algorithm/learner.cpp:63-101 | a copied value is stored with the learned ballot as promise, and learned with the next checksum |
| LearnerObject.LearnerRole.OnSendLearnValue | src/algorithm/learner.cpp:467-507 | only a value of the present instance is learned |
| LearnerObject.LearnerRole.OnProposerSendSuccess | src/algorithm/learner.cpp:584-632 | a success notice counts only for the present instance and the very ballot the own acceptor accepted |
| InstanceObject.Instance.Init | src/algorithm/instance.cpp:57-204 | load, replay and start of the roles give the restart state of the specification; it fails exactly on a gap in the log, a replay from before the cleaned part, a value the state machine refuses, or a checkpoint beyond a non-empty log; when it succeeds, exactly the stored values from the checkpoint on have been executed |
| InstanceObject.Instance.PlayLog | src/algorithm/instance.cpp:241-269 | exactly the stored values from the checkpoint on are executed, each of them, unless the first is cleaned away, one is missing, or the state machine refuses one |
| InstanceObject.Instance.SendOne | src/algorithm/learner_sender.cpp:273-291 | one stored value goes out with its ballot and the checksum before it |
| InstanceObject.Instance.NewValue | src/algorithm/proposer.cpp:169-195 | state, messages, votes and executions are those of the specified handler, through all self-deliveries |
| InstanceObject.Instance.Prepare | src/algorithm/base.cpp:234-266 | the own acceptor, and all it leads to, runs before the broadcast |
| InstanceObject.Instance.Accept | src/algorithm/base.cpp:234-266 | the own acceptor, and all it leads to, runs after the broadcast |
| InstanceObject.Instance.ProposerSendSuccess | src/algorithm/learner.cpp:566-582 | the own learner finishes the instance before the notice goes out |
| InstanceObject.Instance.OnTimeout | src/algorithm/proposer.cpp:481-511 | a timer of an older instance does nothing; else Prepare again, with a new ballot after a rejection |
| InstanceObject.Instance.OnNewValueCommitTimeout | src/algorithm/instance.cpp:360-368 | both phases are left, nothing else changes |
| InstanceObject.Instance.OnReceivePaxosMsg | src/algorithm/instance.cpp:486-548 | dispatch of any message, own or others', does what the specification says; the process dies exactly on a checksum mismatch |
| InstanceObject.Instance.CheckChecksum | src/algorithm/instance.cpp:824-853 | adopts a checksum only without an own one, and fails exactly on a mismatch in the present instance |
| InstanceObject.Instance.ReceiveMsgForProposer | src/algorithm/instance.cpp:550-597 | replies of the present instance are handled, rejections of the last one are noted, others dropped |
| InstanceObject.Instance.ReceiveMsgForAcceptor | src/algorithm/instance.cpp:599-664 | a request of the next instance first counts as a success notice, then is answered in the instance reached |
| InstanceObject.Instance.ReceiveMsgForLearner | src/algorithm/instance.cpp:666-761 | a learned value is executed once, the checksum moves on, all roles enter the next instance |
| MasterLease.AtMostOneMaster | src/master/master_sm.cpp:183-220 | at any moment of any run at most one node believes it is master |
| MasterLease.LaterBelief | src/master/master_sm.cpp:103-181 | once a later winner is known to its node, an earlier master's lease has ended |
| MasterLease.ShortRenewalBreaks | src/master/master_mgr.cpp:56-64 | whenever a master that is the last winner of the log renews for a time that ends before its present belief, a schedule makes a second master meanwhile, wherever the two nodes are in the log |
| MasterLease.StaleBidNeverWins | src/master/master_sm.cpp:126-131 | a bid that does not name the last winner of the log never wins, however the log goes on |
| MasterLease.TwoMastersReachable | src/master/master_mgr.cpp:56-64 | a run from the initial world that meets the guard, then one short renewal, and two masters |
| MasterLease.LongRenewalPermitted | src/master/master_mgr.cpp:122-166 | renewing for no less than the lease won always meets the guard |
| MasterLease.RepairNeverFires | src/master/master_sm.cpp:113-124 | on nodes that follow the log the version repair never applies |
| MasterLease.RepairJoins | src/master/master_sm.cpp:113-150 | a bid that tells its proposer's version is taken over by exactly the nodes whose own version is older than the entry or the same as the bid's; on all others it changes nothing |
| MasterLease.LeaseRunsOut | src/master/master_mgr.cpp:120-150 | once the lease of the last winner a node knows of has passed, it takes nobody for master and is free to bid, after restarts too |
| MasterLease.ReplayChangesNothing | src/master/master_sm.cpp:126-131 | executing an entry again after a restart changes nothing |
| MasterLease.VersionIsLastWinner | src/master/master_sm.cpp:133-169 | every node's version and stored variables are the last winner of the log it has executed |
| MasterLease.LaterWinnersWait | src/master/master_mgr.cpp:122-134 | after a winner its own node has not executed yet, the next one is chosen only when the lease granted is over |
| MasterSm.MasterStateMachine.Init | src/master/master_sm.cpp:54-88 | the stored version comes back, an own lease is not trusted, another's is waited out in full |
| MasterSm.MasterStateMachine.LearnMaster | src/master/master_sm.cpp:103-181 | repair, version check, store, master, expiry and version change as specified or not at all |
| MasterSm.MasterStateMachine.SafeGetMaster | src/master/master_sm.cpp:183-197 | nobody once the lease has expired, else the recorded master; and the version |
| MasterSm.MasterStateMachine.BeforePropose | src/master/master_sm.cpp:375-389 | the bid is given the proposer's version |
| MasterSm.MasterMgr.SetLeaseTime | src/master/master_mgr.cpp:56-64 | lease times below one second are ignored |
| MasterSm.MasterMgr.TryBeMaster | src/master/master_mgr.cpp:122-166 | a bid with the version checked, unless another master's lease runs; the own lease ends a tenth of a second early |
| LogFormat.NumLe | src/logstorage/log_store.cpp:370-372 | little-endian encoding and decoding of numbers are inverse |
| LogFormat.RecordAt | src/logstorage/log_store.cpp:363-390 | the bytes of the k-th record lie at its offset |
| LogFormat.ReadRecord | src/logstorage/log_store.cpp:408-466 | reading at a record's offset finds its instance, its value and the next offset |
| LogFormat.ReadTail | src/logstorage/log_store.cpp:636-657 | behind the last record a reader sees the end, except for one to three bytes, which look torn |
| LogIndex.ScanGoodFile | src/logstorage/log_store.cpp:602-738 | a scan from any record puts exactly the rest of the file, and finds its end unless the tail is torn |
| LogIndex.ScanTorn | src/logstorage/log_store.cpp:637-677 | a last record that was written only in part: all records before it are put and the file is cut back to them; refused exactly if the length it claims exceeds the file |
| LogIndex.ScanForeign | src/logstorage/log_store.cpp:679-703 | a record with an instance below the one before it refuses the start; one that does not parse is cut off with all that follows, and all before it is put |
| LogIndex.RebuildGoodFiles | src/logstorage/log_store.cpp:547-600 | the rebuild puts everything from its start on, over all files up to the first missing one, and is refused exactly when that is not the file behind the newest one known |
| LogIndex.RebuildRestoresIndex | src/logstorage/log_store.cpp:547-600 | from an index that lost any suffix of its puts the rebuild restores exactly the full index |
| LogIndex.WriteOffsetExact | src/logstorage/log_store.cpp:640-655 | the write offset found is the end of the newest file, unless that file's tail is torn, and then the one left over from the files before |
| LogIndex.NewestOffsetExact | src/logstorage/log_store.cpp:647-652 | corollary: when the rebuild starts in the newest file, that offset is right if and only if its tail is not one to three bytes |
| LogStorage.OffsetExact | src/logstorage/log_store.cpp:118-139 | the offset after opening the newest file, which is the end of its records if and only if the tail is whole, the file holds no record, or an earlier file ended there |
| LogIndex.EntryPoints | src/logstorage/db.cpp:274-304 | every index entry points at the record holding the last value put for its instance |
| LogIndex.IndexFilesAscend | src/logstorage/log_store.cpp:468-487 | later instances lie in later files |
| LogStorage.LogStore.constructor | src/logstorage/log_store.cpp:152-187 | a new directory has one empty file of full size |
| LogStorage.LogStore.GetFileFD | src/logstorage/log_store.cpp:285-347 | there is room for the record, in the newest file or in one more |
| LogStorage.LogStore.Append | src/logstorage/log_store.cpp:349-406 | exactly one record is added behind the last one, and the id says where |
| LogStorage.LogStore.Read | src/logstorage/log_store.cpp:408-466 | an id of a record in an existing file gives back its instance and value, and nothing is given back whose bytes do not have the checksum of the id |
| LogStorage.LogStore.DeleteFile | src/logstorage/log_store.cpp:240-283 | exactly the files between the last deleted (or two thousand back) and the given one go |
| LogStorage.LogStore.Del | src/logstorage/log_store.cpp:468-487 | no file from the deleted instance's own on is removed, and every other one behind the last deletion is; the first time since the start, only the two thousand before it |
| LogStorage.LogStore.RebuildIndexForOneFile | src/logstorage/log_store.cpp:602-738 | index, instance, write offset, truncation and result are those of the scan, on any bytes |
| LogStorage.LogStore.RebuildIndex | src/logstorage/log_store.cpp:547-600 | index, write offset, files and result are those of the multi-file scan, on any files |
| LogStorage.LogStore.Init | src/logstorage/log_store.cpp:60-150 | after a successful rebuild the newest file is open, at its full size when it was missing or empty |
| LogStorage.Database.Put | src/logstorage/db.cpp:353-371 | the plain map gains exactly this value, for any instance and value; puts in order keep the database fit for a rebuild |
| LogStorage.Database.Get | src/logstorage/db.cpp:274-304 | the value of the plain map, or "not found" exactly when it has none |
| LogStorage.Database.Del | src/logstorage/db.cpp:416-461 | the plain map loses exactly this instance; the other values stay readable if and only if none of their files was deleted, which deletes in ascending order never do; a delete that cleans up leaves no file between the last one deleted and the instance's own |
| LogStorage.Database.GetMaxInstanceIDFileID | src/logstorage/db.cpp:195-230 | the largest instance of the index and where it lies |
| LogStorage.Database.RebuildOneIndex | src/logstorage/db.cpp:232-248 | one entry is set |
| LogStorage.Database.Init | src/logstorage/db.cpp:148-188 | after a crash index and plain map are restored in full, and the next write goes behind the last record, with everything sound, exactly under the stated condition on the newest file |
| LogStorage.Database.Crash | src/logstorage/db.cpp:331-371 | a crash that loses any suffix of the index's puts leads to a state the start is about |
| LogStorage.CrashedFromValid | src/logstorage/db.cpp:331-371 | what a crash of a database in order leaves, whatever suffix of the index's puts is lost, is such a state |
| LogStorage.TornTailLosesOffset | src/logstorage/log_store.cpp:647-652 | from an empty directory, one put, a crash and a start end with the next write at the start of the file, over the record |
| CheckpointTransfer.CutBuilds | src/algorithm/checkpoint_sender.cpp:235-295 | appending a file's blocks in order rebuilds the file and disturbs no other |
| CheckpointTransfer.AllBlocksBuildWhole | src/algorithm/checkpoint_sender.cpp:198-233 | all blocks together rebuild exactly the non-empty source files |
| CheckpointTransfer.WholeAt | src/algorithm/checkpoint_sender.cpp:257-262 | each non-empty source file is there byte for byte, an empty one is not |
| CheckpointTransfer.OffsetsFit | src/algorithm/checkpoint_sender.cpp:253-288 | each block's offset is what the blocks before it have put at its target |
| CheckpointRuns.AlwaysExact | src/algorithm/checkpoint_receiver.cpp:211-272 | in any run of any deliveries, with failing writes, the receiver is idle or holds exactly the first blocks of one session up to its sequence |
| CheckpointRuns.FinishedIsComplete | src/algorithm/checkpoint_receiver.cpp:114-127 | when an END is accepted the files are exactly the non-empty source files |
| CheckpointRuns.NextBlockAccepted | src/algorithm/checkpoint_receiver.cpp:242-262 | the next block, written in full, is always accepted |
| CheckpointRuns.AcceptedLiesAtOffset | src/algorithm/checkpoint_receiver.cpp:242-262 | whatever the receiver's state, a block it accepts is the next in sequence, lies at exactly its offset, and changes no other file |
| CheckpointRuns.RepeatIsHarmless | src/algorithm/checkpoint_receiver.cpp:219-226 | the block accepted last, delivered again, is accepted on any disk and changes nothing |
| CheckpointRuns.InOrderAccepted | src/algorithm/checkpoint_receiver.cpp:211-272 | a session delivered in order, each message any number of times, is accepted message by message, END included, by a receiver in any state, and the files are then the source files |
| CheckpointObjects.CheckpointReceiver.Reset | src/algorithm/checkpoint_receiver.cpp:44-51 | sender, uuid and sequence are forgotten, the files stay |
| CheckpointObjects.CheckpointReceiver.NewReceiver | src/algorithm/checkpoint_receiver.cpp:53-76 | old files go and a new session starts at zero, unless clearing fails |
| CheckpointObjects.CheckpointReceiver.ReceiveCheckpoint | src/algorithm/checkpoint_receiver.cpp:211-272 | foreign, repeated, misplaced and ill-fitting blocks are told apart; a full write advances the sequence |
| CheckpointObjects.CheckpointReceiver.OnSendCheckpoint | src/algorithm/learner.cpp:828-864 | any failure resets the receiver |
| CheckpointObjects.CheckpointSender.Ack | src/algorithm/checkpoint_sender.cpp:336-358 | acknowledgements count only in order and only for the own session |
| CheckpointObjects.CheckpointSender.CheckAck | src/algorithm/checkpoint_sender.cpp:360-388 | passes exactly inside the window of the acknowledgements received; else the sender is to end or the last acknowledgement is overdue |
| CheckpointObjects.CheckpointSender.SendBuffer | src/algorithm/checkpoint_sender.cpp:297-334 | one block goes out under the next sequence number, inside the window of the acknowledgements received |
| CheckpointObjects.AckedHeard | src/algorithm/checkpoint_sender.cpp:336-358 | an acknowledged sequence of n means that each acknowledgement below n has been received from the own receiver for the own session |
| CheckpointObjects.BlockAfterAcks | src/algorithm/checkpoint_sender.cpp:297-334 | before a block went out, the acknowledgement of every message more than the window behind it had come in |
| CheckpointObjects.CheckpointSender.SendFile | src/algorithm/checkpoint_sender.cpp:235-295 | the blocks of the file go out in order, or a prefix of them; a path already sent is skipped |
| CheckpointObjects.CheckpointSender.SendCheckpoint | src/algorithm/checkpoint_sender.cpp:158-196 | BEGIN twice, the blocks of all files, and END only when all went out |
| CheckpointObjects.SenderSendsItsSession | src/algorithm/checkpoint_sender.cpp:158-196 | corollary: what the sender puts out is what the receiver theorems are about |
| LearnerFlow.WindowKept | src/algorithm/learner_sender.cpp:95-142 | no sender is ever more than one value beyond its window, and the window stays larger than the acknowledgement interval under any cuts |
| LearnerFlow.SettingsSound | src/comm/inside_options.cpp:171-205 | the leads and timeouts of both buffer modes meet what the flow theorems ask of them |
| LearnerFlow.WaitsExactly | src/algorithm/learner_sender.cpp:104-142 | a sender waits if and only if its last value is beyond the first window of the session and no acknowledgement within the window of that value has arrived while the session would count it |
| LearnerFlow.WaitsForOneOfThree | src/algorithm/learner.cpp:509-529 | with all messages in, the receiver's last acknowledgement is within the window; a sender that waits has lost it to another sender, or to the time before its confirmation, or some acknowledgement came too late |
| LearnerFlow.NeverWaitsAlone | src/algorithm/learner_sender.cpp:188-206 | a sender that is the only one acknowledged, whose receiver had acknowledged nothing beyond the session's beginning at its confirmation, and that gets no acknowledgement too late, never waits once all messages are in |
| LearnerFlow.EarlierSessionStarves | src/algorithm/learner_sender.cpp:188-206 | a lone sender, all messages in, none late: it waits for an acknowledgement that came before its confirmation |
| LearnerFlow.LateAcknowledgementStarves | src/algorithm/learner_sender.cpp:77-93 | a lone sender in its first session, all messages in: it waits for an acknowledgement that came after the prepare timeout |
| LearnerFlow.DeafUntilTimeout | src/algorithm/learner_sender.cpp:104-142 | a sender that waits beyond the prepare timeout waits, with the same acknowledgement, until the acknowledgement timeout, whatever arrives |
| LearnerFlow.OfferStands | src/algorithm/learner_sender.cpp:146-186 | an offer can be confirmed exactly until the prepare timeout and replaced exactly from then on, and a confirmed one cannot be replaced |
| LearnerFlow.GivesUpAfterSilence | src/algorithm/learner_sender.cpp:116-130 | a session is given up only after the whole acknowledgement timeout without an acknowledgement that moved it on |
| LearnerFlow.CutsNarrow | src/algorithm/learner_sender.cpp:95-102 | each timeout takes exactly the acknowledgement interval off the window while more than two intervals are left, and then nothing more |
| LearnerFlow.NarrowestWindows | src/comm/inside_options.cpp:171-205 | in the two settings in use the window ends at 5 after four timeouts and at 3 after one |
| LearnerFlow.LeadFollows | src/algorithm/learner_sender.cpp:108-130 | over any acts the window is cut exactly once per timeout, and wide again after a session that ended well |
| LearnerFlow.SecondSenderStarves | src/algorithm/learner.cpp:509-529 | two senders of the same instances: every message is delivered in time, and the first still waits |
| LearnerFlow.SessionIsRun | src/algorithm/learner_sender.cpp:224-271 | what one confirmed sender does by itself over time, with acknowledgements it was sent, is a stretch of a run of the whole |
| LearnerFlow.LearnerSender.Prepare | src/algorithm/learner_sender.cpp:146-164 | only an idle sender takes a new receiver, and starts its acknowledgement there |
| LearnerFlow.LearnerSender.Confirm | src/algorithm/learner_sender.cpp:166-186 | only the offer still standing can be confirmed |
| LearnerFlow.LearnerSender.Ack | src/algorithm/learner_sender.cpp:188-206 | an acknowledgement of the node served arrives as in the flow, counted or dropped; any other node's changes nothing |
| LearnerFlow.LearnerSender.CheckAck | src/algorithm/learner_sender.cpp:104-142 | waiting turn after turn while acknowledgements come in: the call is the flow's acts up to a pass, a catch-up or a timeout |
| LearnerFlow.LearnerSender.CutAckLead | src/algorithm/learner_sender.cpp:95-102 | the window shrinks by the acknowledgement interval while it stays above it |
| LearnerFlow.LearnerSender.SendLearnedValue | src/algorithm/learner_sender.cpp:224-271 | consecutive readable instances up to the own instance, which is read again each turn; the call is act by act one session of the flow and sends each value once |
| LearnerFlow.LearnerSender.Serve | src/algorithm/learner_sender.cpp:50-70 | a confirmed session from its beginning until the sender is idle again |
| LearnerFlow.LearnerSender.SendAndCheck | src/algorithm/learner_sender.cpp:241-256 | one value sent and checked, with what arrives meanwhile, is a stretch of acts with exactly one send |
| LogCleaner.Cleaner.DeleteOne | src/checkpoint/cleaner.cpp:194-223 | one instance goes; the min-chosen id is the first survivor or one below |
| LogCleaner.Cleaner.Clean | src/checkpoint/cleaner.cpp:108-133 | exactly the instances below the new first one go, none that the hold count protects, and all that it does not protect unless the round was stopped |
| LogCleaner.Cleaner.FixMinChosenInstanceID | src/checkpoint/cleaner.cpp:150-192 | from the saved id the first survivor, or one below, is found again; it fails if and only if that survivor's value cannot be read |
| LogCleaner.Cleaner.Restart | src/checkpoint/cp_mgr.cpp:53-68 | a crash that undoes any deletes since the last save, with any of their value files gone, and the start after it: refused if and only if the first instance in the index has lost its file and lies where the fix looks; else the invariant holds |
| LogCleaner.Cleaner.PlayLogReadable | src/algorithm/instance.cpp:241-262 | corollary of the invariant: every instance from the checkpoint on is readable and the replay is not refused |
| Commit.CallsAreTruthful | src/algorithm/committer.cpp:51-142 | over all runs of any callers: at most three attempts in strictly later instances, the master's bid one; OK with an instance: the last attempt's value, as rewritten, was executed there with the caller's context; Conflict: in every instance tried another value was executed, without that context |
| Commit.OneResultPerAttempt | src/algorithm/commitctx.cpp:102-155 | every attempt of a call adds exactly one result to it, except the one still under way |
| Commit.AttemptEnds | src/algorithm/commitctx.cpp:102-131 | the learned value of its instance ends an attempt with OK or conflict, a failed execution, the timer and a refusal end it with theirs; only a conflict of a call that is not the master's lets it try again, three times in all |
| Commit.CallIsFinal | src/algorithm/committer.cpp:59-83 | nothing changes a call once it has returned |
| Commit.ResultIsFinal | src/algorithm/commitctx.cpp:102-131 | an attempt gets one result, and nothing but the next attempt changes it |
| Commit.Committer.NewValueGetIDNoRetry | src/algorithm/committer.cpp:88-142 | one attempt, whatever happens meanwhile, is a stretch of the run that adds exactly its one result to the call |
| Commit.Committer.NewValueGetID | src/algorithm/committer.cpp:51-86 | the retry loop, whatever happens meanwhile, is a stretch of the run; it returns what the call has come to, and that is true of every instance tried |
| Commit.CommitCtx.NewCommit | src/algorithm/commitctx.cpp:38-57 | a fresh attempt with no instance and no result |
| Commit.CommitCtx.IsMyCommit | src/algorithm/commitctx.cpp:76-95 | the caller's context exactly for its own open attempt, instance and value |
| Commit.CommitCtx.SetResult | src/algorithm/commitctx.cpp:102-131 | only the open attempt of this instance gets a result; OK with another value becomes Conflict |
| Membership.VariablesAreTheFold | src/config/system_v_sm.cpp:87-130 | every node's variables are the fold of the entries it has executed |
| Membership.NoLostUpdate | src/config/system_v_sm.cpp:138-152 | an entry that succeeds applies its call to exactly the membership before it, and the version strictly rises to its instance |
| Membership.SucceedsUnlessOvertaken | src/config/system_v_sm.cpp:104-116 | an entry succeeds if and only if no other has succeeded since its call read the version |
| Membership.GidForever | src/config/system_v_sm.cpp:98-109 | whatever entries a log holds, a group id once set never changes |
| Membership.FailureChangesNothing | src/config/system_v_sm.cpp:104-116 | an entry that does not succeed changes nothing |
| Membership.SucceedsOnce | src/config/system_v_sm.cpp:111-116 | the same entry succeeds at most once |
| Membership.NoDuplicateMembers | src/node/pnode.cpp:498-527 | no node is ever a member twice |
| Membership.SuccessIsTruthful | src/node/pnode.cpp:470-496 | a caller told of success knows its change was applied to the membership of that moment on its own node |
| Membership.ReplayChangesNothing | src/config/system_v_sm.cpp:111-116 | executing an entry again after a restart changes nothing and reports no success |
| SystemVariables.AppliedMembers | src/node/pnode.cpp:498-614 | who is a member after each call that is not refused |
| SystemVariables.AddMember | src/node/pnode.cpp:498-527 | refused exactly for a member, else the node is appended |
| SystemVariables.RemoveMember | src/node/pnode.cpp:529-567 | refused exactly for a non-member, else the others in order |
| SystemVariables.ChangeMember | src/node/pnode.cpp:569-614 | refused exactly when only the new node is a member, else both are replaced by the new one |
| SystemVariables.SystemVSM.constructor | src/config/system_v_sm.cpp:44-66 | the stored variables, or none with the null version |
| SystemVariables.SystemVSM.AddNodeIDList | src/config/system_v_sm.cpp:203-225 | the configured list counts only without a group id |
| SystemVariables.SystemVSM.RefreshNodeIds | src/config/system_v_sm.cpp:227-250 | the node-id set is exactly the members |
| SystemVariables.SystemVSM.Execute | src/config/system_v_sm.cpp:87-130 | group id and version decide; a change is complete and stored, or nothing happens |
| SystemVariables.SystemVSM.GetMajorityCount | src/config/system_v_sm.cpp:257-260 | more than half, and no more than needed |
| SystemVariables.SystemVSM.IsValidNodeID | src/config/system_v_sm.cpp:262-270 | members only, or everybody without a group id |

## Left out

- PaxosTheorems.Agreement: holds under the four guards above; the code itself does not check them, and each is shown necessary.
- PaxosLimits.RestartGuardNeeded: that one and two nodes are safe without the restart, checkpoint and preparing-again guards is not proved.
- PaxosAgreement.CutAcceptStep: an Accept cut short in the very call that sent its Prepare, possible only in a group of one node, is not among the events.
- PaxosSystem fixes the membership: a membership change in the middle of agreement, followers, temporary nodes and nodes without a group id change who counts as a voter.
- AcceptorObject.AcceptorRole.Persist: the acceptor's own write succeeds and is durable, and with it all copies before; failing or unsynced own writes (`bSync` false, sync intervals) and torn record payloads are not modelled.
- InstanceObject.Instance.ReceiveMsgForLearner: execution succeeds; the code stays in the instance when a state machine refuses a value (src/algorithm/instance.cpp:715-727). The commit hand-off beside it is the part `Commit`.
- InstanceObject.Instance.OnNewValueCommitTimeout: the result given to the waiting caller is in the part `Commit`.
- InstanceObject.Instance.OnReceivePaxosMsg: only the messages of agreement and learning; asking for values and for checkpoints is in the catch-up and checkpoint parts.
- InstanceObject.Instance.ReceiveMsgForAcceptor: the retry queue for early requests (src/algorithm/instance.cpp:635-660) is covered by messages that may be delivered again.
- LearnerObject.LearnerRole.OnSendLearnValue: the acknowledgement sent back is in the part `LearnerFlow`.
- Proposal ids, instance ids and checksums do not wrap around at 64 or 32 bits; log versions of the master and membership parts are bounded by the 64-bit null version.
- Timers and random back-off only appear as events that may happen at any time.
- Checkpoint adoption that clears the log, and adopting master or system variables from another node's checkpoint buffer (`UpdateByCheckpoint`), break the history the theorems rely on.
- Cleaning of old instances is its own part; the Paxos part keeps all records, so a last checksum is never missing.
- MasterLease.AtMostOneMaster: assumes clocks of equal rate and a renewal that never shortens the bidder's own belief; bids carry distinct ids, as the random `sid` of the code intends.
- The master thread's sleep times and the drop flag only decide when a bid happens.
- LogStorage.Database.Init: the surviving deletes are those of some bound below which everything is deleted; a lost delete of an instance whose file is already gone is not covered here but in LogCleaner.Cleaner.Restart.
- LogStorage.LogStore.Init: the newest file number is given; reading and checking the meta file is left out.
- LogStorage.LogStore.Read: a record length that is negative or below eight bytes counts as unreadable, where the code would copy from an unset buffer.
- A crash between saving the new file number and creating the file makes the rebuild refuse to start (src/logstorage/log_store.cpp:584-590); the start theorem requires the newest file.
- leveldb is a map; the special keys for min-chosen id, system and master variables live outside it. `ForceDel`, `ClearAllLog` and directory handling are left out.
- CheckpointRuns.FinishedIsComplete: session ids are unique and non-zero, and different files have different sources and targets; the path normalisation of `InitFilePath` and its directory creation are an arbitrary target function.
- CheckpointObjects.CheckpointReceiver.OnSendCheckpoint: the acknowledgement is only the result code, and loading the files into the state machines on END is left out.
- The checksum field of a checkpoint block is sent but never checked by the receiver, so it is not modelled.
- CheckpointObjects.CheckpointSender.SendBuffer: the network takes the block; the code sleeps and tries again without end when it does not.
- SystemVariables.AddMember: the version and the membership are read one after the other without a lock; the list read is a parameter here, and the two moments are separate in Membership.
- Commit: the rewriting of a value before it is proposed is an arbitrary new value; waiting times and queue limits only appear as attempts that do not get the lock.
- LearnerFlow: send rates and sleep times are left out, all values ask for an acknowledgement, the nodes have one clock, and a sender serves only the one receiver of the flow.
- Sockets, threads, packing of messages, batching of proposals, samples and monitoring are left out as input and output.

# A verified model of the transfer pipeline and the connection protocol

The library connects two peers on a local network and copies files between them.
This project models the two parts of it where most can go wrong, and proves what
they are for.

**The transfer pipeline.** A breadth-first walk over the source directories feeds a
sender that cuts files into chunks of at most 64 KiB. The only framing on the wire is
that the relative path changes. The receiver rebuilds the files from that with three
fields of state. Both ends count bytes, the sender can be cancelled between any two
reads, and either side can fail at any call.

**The connection and event protocol.** Every change to the store of remotes sends an
event under the same lock, except that progress updates are dropped while the channel
is long. The handshake between two peers, and the example application's copy of the
transfer lists, both rest on those events.

## How it is laid out

| file | what it holds |
|---|---|
| `Common.dfy`, `Paths.dfy`, `Transfers.dfy` | shared types, path joining and sanitizing, chunks and time stamps |
| `SourceTree.dfy`, `WalkDir.dfy` | the source forest, the virtual filesystem, the walker and the meaning of its order |
| `MovingAverage.dfy` | the speed calculator |
| `SendPlan.dfy`, `Sender.dfy` | what the sender should send, as functions; the sending loops, as methods |
| `ReceiveSpec.dfy`, `Receiver.dfy` | one receiver step, as a function; the receiving loop, as methods |
| `Pipeline.dfy`, `EndToEnd.dfy` | round trip and cut consistency; both tasks together, with the connection in between |
| `Collisions.dfy` | which names survive the transfer: exactly when every job arrives and the forest is mirrored, and what becomes of the others |
| `Denotation.dfy`, `OnDisk.dfy` | what an arbitrary chunk stream means, without the receiver's state; the sender's stream received on disk |
| `Announce.dfy` | the announced totals, the request on the wire, and the bytes that really move |
| `RemoteStore.dfy`, `Replica.dfy` | the store, its channel and throttle; the event-fed copy |
| `Duplex.dfy`, `DuplexProgress.dfy`, `DuplexDeadlock.dfy` | the handshake as a step system: safety, termination, and exactly when it gets stuck |
| `Worker.dfy`, `DuplexCalls.dfy` | one worker's calls, watch value, client and record over any sequence of calls; the handshake's calls are such attempts |
| `TransferAgreement.dfy`, `TransferCalls.dfy`, `StopRace.dfy` | what the two records of one transfer agree on; the public calls on two peers' records; a stop against the end of a stream |

Code that changes state step by step is a class or a method here, proved against a
function on values; the theorems are about those functions. In the pipeline the virtual
filesystem and the channel answer nondeterministically: every call may fail and each failure is recorded, and a read
returns any number of bytes from one to the buffer size. A cancellation token is seen
through its checks: some number of them pass and the later ones do not. The handshake,
the store and the transfer calls are step systems whose theorems quantify over all runs.

## Where the code differs from its documentation or from what one would expect

- `send_stream_inner` is documented to return `Ok(false)` when cancelled
  (src/server/transfers/transfer_sender.rs:60). A cancellation seen inside the last file
  still gives `Ok(true)`. `SendPlan.CompletedIffNotCutInLastFile` says exactly when, and
  `SendPlan.CompletedButCut` is an instance.
- Concurrent `connect` calls can block each other for good. `wait_for_duplex` keeps the
  read guard of the worker's client for the whole call (the name is shadowed at
  src/server/remote_worker.rs:396-398, the guard is not dropped), while another call on the same
  worker has already set `Connecting` (line 238) and waits to write that client (line 266).
  If both peers are in that position neither can answer the other until the handler's
  deadline passes. `DuplexDeadlock.ConnectsIff` shows that without deadlines every
  schedule connects exactly when one or two calls are made at first, over both peers.
- Empty files produce no chunk, so they never arrive. Bytes below a directory that cannot
  be listed are announced but not sent. `Announce.BytesMeetAnnouncement` makes the second
  one exact.
- What sanitizes to the path just before it on the wire does not arrive: a file after a file is appended to it
  (`Collisions.FileGrows`, with the instance `Pipeline.NeighboursMerge`), a file after a directory is lost although
  the stream is accepted (`Collisions.DirectoryEatsFile`, with the instance `Collisions.FileAfterDirectoryIsLost`), and
  a directory after a file is not made (`Collisions.DirectoryIsSkipped`). A directory and a file of one path that are
  not neighbours end the transfer (`Collisions.OtherKindIsRefused`). `Collisions.ForestArrivesIff` says for every
  forest exactly when nothing of the kind happens, by the sanitized names, kinds and emptiness alone, and
  `Collisions.MirrorsIff` exactly when the destination mirrors the forest in the end.
- If the reply to a transfer request is lost, the sender's own record keeps its initial
  zero totals while the peer holds the announced ones. `TransferAgreement.RecordsMirror`
  therefore speaks of confirmed requests on the sender's side.
- `accept_transfer` and `start_transfer` check no state, so even a denied transfer can be
  accepted and then moves its bytes, if it has any. After the sender's own cancel it cannot, because
  its token is cancelled: `TransferAgreement.MovesIffTokenLives` makes this exact.
- The sending task overwrites a stop that came before its end; the receiving task does not:
  `StopRace.LastWriteWinsOnSender`, `StopRace.StopWinsOnReceiver`.
- After a group-code mismatch the state loop ends, and with it its receiver of the watch. Unless an
  application holds another one, a later successful connect then leaves the watch value stale:
  `Worker.StaleWatch`. `Worker.WatchAgreesIff` says exactly when the watch tells the truth, whoever
  subscribes and unsubscribes in between.
- An attempt that fails on the certificate leaves an older client in place, so a worker can be
  Disconnected with a client. `Worker.ClientIff` says exactly when there is one.

## Model

| member | source | states |
|---|---|---|
| Paths.Sanitize | src/server/transfers/transfer_receiver.rs:278-280 | replaces exactly the reserved characters, position by position |
| Paths.SanitizeReplaces | src/server/transfers/transfer_receiver.rs:278-280 | each of the eight reserved characters becomes an underscore where it stands, and every other character stays |
| Paths.SanitizeIdempotent | src/server/transfers/transfer_receiver.rs:278-280 | a sanitized path is not changed by sanitizing it again |
| Paths.SanitizeJoin | src/server/transfers/transfer_receiver.rs:278-280 | sanitizing a whole path is sanitizing each of its names |
| Paths.JoinInjective | src/filesystem/vfs/walkdir.rs:13-19 | a relative path determines the list of names it was joined from |
| Paths.DotDotInJoin | src/server/transfers/transfer_receiver.rs:210-212 | a path is refused for ".." exactly when one of its names holds it |
| SourceTree.RelIsJoin | src/filesystem/vfs/walkdir.rs:13-19 | the walker's path of a node is the slash-joined list of names from its root |
| SourceTree.SanitizedPathsDiffer | src/server/transfers/transfer_receiver.rs:207-214 | in a well-named forest no two nodes share a sanitized path |
| WalkDir.VirtualWalkDir.constructor | src/filesystem/vfs/walkdir.rs:37-46 | the queue starts with the root directory alone |
| WalkDir.VirtualWalkDir.Next | src/filesystem/vfs/walkdir.rs:48-72 | hands out the head and queues its children behind what waits; a failed listing queues nothing |
| WalkDir.StepShrinks | src/filesystem/vfs/walkdir.rs:48-72 | each call leaves fewer nodes at or below the queue, so the walk ends |
| WalkDir.WalkIsLevelOrder | src/filesystem/vfs/walkdir.rs:48-72 | a walk yields exactly the nodes not below an unreadable directory, each once, in level order, under its joined path |
| WalkDir.ParentsFirst | src/filesystem/vfs/walkdir.rs:48-72 | a node is handed out only after its directory |
| MovingAverage.MovingAverageCalculator.constructor | src/server/transfers/mod.rs:39-42 | starts without samples |
| MovingAverage.MovingAverageCalculator.Push | src/server/transfers/mod.rs:44-57 | returns the floored mean of the last `window` rates ever pushed; pushes without elapsed time add none |
| MovingAverage.MovingAverageCalculator.CurrentAverage | src/server/transfers/mod.rs:59-65 | the floored mean of the deque, 0 when empty |
| MovingAverage.SlideWindow | src/server/transfers/mod.rs:48-55 | pushing at the back and popping one at the front keeps exactly the last n |
| MovingAverage.MeanBounds | src/server/transfers/mod.rs:59-65 | the reported speed lies between the smallest and the largest rate it averages |
| MovingAverage.RateIs | src/server/transfers/mod.rs:49 | below saturation the rate is the whole number of bytes per second: `r * elapsed <= bytes < (r + 1) * elapsed` |
| MovingAverage.WindowSumFits | src/server/transfers/transfer_sender.rs:305-306 | with chunks of at most 64 KiB and the clamped clock the sum over the window fits a u64 |
| Transfers.StampRoundTrip | src/server/transfers/transfer_sender.rs:271-274 | every stamp stays within the receiver's u32 arithmetic and arrives as whole milliseconds, times before the epoch as zero |
| Transfers.StampIs | src/server/transfers/transfer_sender.rs:271-274 | a stamp is the whole seconds, and the whole milliseconds of the rest in microseconds |
| Transfers.FromIo | src/types/transfer.rs:43-57 | which failure of a file call becomes which error, in both directions |
| Transfers.WireNumbers | src/server/transfers/mod.rs:6-33 | file, directory and symlink are 1, 2 and 3 on the wire, and are read back as themselves |
| Transfers.FromInt | src/server/transfers/mod.rs:14-25 | exactly 1, 2 and 3 are known types, each the number of its type |
| SendPlan.JobChunkFields | src/server/transfers/transfer_sender.rs:289-296 | every field of every chunk sent: path, type, mode, 1 to 65536 bytes of a file and none of a directory, and a time on the first chunk of a file only |
| SendPlan.JobsOfForest | src/server/transfers/transfer_sender.rs:71-196 | the nested loops work off each source in walk order, source by source |
| SendPlan.ForestIsGuarded | src/server/transfers/transfer_sender.rs:72-74 | the token is checked before each source and each entry |
| SendPlan.RunPrefix | src/server/transfers/transfer_sender.rs:71-196 | wherever cancellation strikes, what was sent is a prefix of the full stream |
| SendPlan.UncancelledRunIsFull | src/server/transfers/transfer_sender.rs:61-197 | if the token is uncancelled afterwards, the run finished and sent the full stream |
| SendPlan.CompletedIffNotCutInLastFile | src/server/transfers/transfer_sender.rs:281-302 | "completed" with an incomplete stream happens exactly when cancellation becomes visible inside the last job and that is a file with chunks unread |
| SendPlan.CompletedButCut | src/server/transfers/transfer_sender.rs:60 | an instance: the documented `Ok(false)` is not what a late cancellation gives |
| Sender.SendData | src/server/transfers/transfer_sender.rs:300-315 | the byte count moves exactly with the data sent |
| Sender.CountProgress | src/server/transfers/transfer_sender.rs:304-315 | the bytes are counted, and the speed shown is the mean of the last 30 rates, over times of at least a millisecond |
| Sender.SendNextPiece | src/server/transfers/transfer_sender.rs:284-302 | one read is one chunk with exactly the bytes read, stamped only if it is the first; at the end, or on a failure, nothing is sent |
| Sender.SendFileRound | src/server/transfers/transfer_sender.rs:281-302 | one round of the reading loop, check first, stays on the way to what the whole file's run sends |
| Sender.SendFileInner | src/server/transfers/transfer_sender.rs:260-319 | sends exactly the chunks the plan gives for the checks that pass; on an error a prefix of them |
| Sender.SendFile | src/server/transfers/transfer_sender.rs:233-258 | the same for a file opened by path |
| Sender.SendEntry | src/server/transfers/transfer_sender.rs:145-190 | one entry of a walk sends its one directory chunk, or its file |
| Sender.SendWalk | src/server/transfers/transfer_sender.rs:115-193 | keeps the walk on its plan entry by entry |
| Sender.SendSource | src/server/transfers/transfer_sender.rs:71-195 | keeps the plan over one source, whether file or directory |
| Sender.SendStreamInner | src/server/transfers/transfer_sender.rs:61-197 | sends exactly the planned run and returns whether it finished; counts exactly the bytes sent; an error is exactly the one call that failed, and `Ok(false)` needs a check that found the token cancelled |
| Sender.SendStream | src/server/transfers/transfer_sender.rs:21-58 | the final state from the result and the token's own answers: after an error `Canceled` exactly if the check then made, or one before it, found the token cancelled, and otherwise that error; speed 0; a prefix of the full stream; without a failed call and such a check, `Completed`; and the full stream if completed with the token uncancelled |
| ReceiveSpec.StepConsistent | src/server/transfers/transfer_receiver.rs:193-242 | after every chunk the open file exists under the current path, and the count never falls |
| ReceiveSpec.StepByWireNumber | src/server/transfers/transfer_receiver.rs:201-237 | by the number on the wire: 3 is ignored; on a new path 2 makes a directory and any other number, known or not, a file with the chunk's data |
| ReceiveSpec.FoldKeepsSound | src/server/transfers/transfer_receiver.rs:219-236 | whatever is received, no path becomes a file and a directory at once |
| ReceiveSpec.FoldAppend | src/server/transfers/transfer_receiver.rs:104-142 | receiving in two parts is receiving the whole |
| Receiver.ReceiveState.FinalizeCurrentFile | src/server/transfers/transfer_receiver.rs:35-53 | closes the file, applies its own pending time stamp and forgets the path |
| Receiver.ReceiveState.WriteChunk | src/server/transfers/transfer_receiver.rs:244-276 | appends and counts; a failed write counts nothing and leaves at most a part of the chunk |
| Receiver.ReceiveState.ProcessChunk | src/server/transfers/transfer_receiver.rs:193-242 | success is exactly the specified step, which there is none of where a path of the other kind is in the way; an unsafe path is refused before anything changes; a failing call counts nothing and leaves the old file closed, or a part of the chunk written; a chunk of type 3 changes nothing |
| Receiver.ReceiveState.ProcessChunkOnDisk | src/server/transfers/transfer_receiver.rs:145-190 | the same for the real filesystem, where creating truncates |
| Receiver.ReceiveStreamInner | src/server/transfers/transfer_receiver.rs:104-142 | a prefix of the stream is processed exactly and the file is closed; `Ok(true)` means all of it; any other end has its reason: a token cancelled by then, a broken connection, a chunk that is refused, or the one call that failed |
| Receiver.ReceiveStreamInnerOnDisk | src/server/transfers/transfer_receiver.rs:104-142 | the same loop for the real filesystem: what it leaves is what `StreamDenotation` gives a meaning to |
| Receiver.ReceiveStream | src/server/transfers/transfer_receiver.rs:56-95 | the final state unless a stop came first, speed 0, and the count of bytes written |
| Pipeline.RoundTrip | src/server/transfers/transfer_receiver.rs:192-242 | every well-named forest arrives complete under any short reads: each directory and non-empty file at its sanitized path with its own time, and nothing else |
| Pipeline.CutConsistency | src/server/transfers/transfer_receiver.rs:114-141 | at any cut: files before it complete, at most one as a prefix, nothing later, every parent directory present |
| Pipeline.NeighboursMerge | src/server/transfers/transfer_receiver.rs:214-237 | an instance of a file that does not arrive: two files with the same sanitized name become one |
| Collisions.NextJob | src/server/transfers/transfer_receiver.rs:193-242 | any job after any state: refused exactly if its path is unsafe, or new with the other kind in the way; otherwise it arrives exactly if it turns to another path or is a directory that is there |
| Collisions.FileGrows | src/server/transfers/transfer_receiver.rs:214-239 | a file right under the path of an open file is appended to that file |
| Collisions.DirectoryEatsFile | src/server/transfers/transfer_receiver.rs:251-254 | a file right under the path of a directory is dropped, with no error and no byte counted |
| Collisions.DirectoryIsSkipped | src/server/transfers/transfer_receiver.rs:214-226 | a directory right under the current path changes nothing |
| Collisions.ArrivesIffHarmless | src/server/transfers/transfer_receiver.rs:214-239 | for any jobs and short reads, the receiver holds exactly the jobs sent so far at every point between two if and only if every path is safe, no directory and file share one, and none repeats the one just before it but for directories |
| Collisions.HarmlessOutcome | src/server/transfers/transfer_receiver.rs:193-242 | then all bytes are counted, every directory is there, and of the files that share a path the last one, complete and with its own time |
| Collisions.ForestArrivesIff | src/server/transfers/transfer_sender.rs:71-196 | the same for the jobs of any forest |
| Collisions.MirrorsIff | src/server/transfers/transfer_receiver.rs:214-239 | any forest is accepted and mirrored in the end if and only if its paths are safe, no directory and non-empty file share one, non-empty files that share one agree in bytes and time, and the last of these is not right behind another on the wire |
| Collisions.OtherKindIsRefused | src/server/transfers/transfer_receiver.rs:219-236 | a job whose path an earlier job of the other kind has, but not the one just before it, ends the transfer |
| Collisions.ParentArrivesFirst | src/filesystem/vfs/walkdir.rs:48-72 | among harmless jobs the directory of each is there when it arrives |
| Collisions.WellNamedIsHarmless | src/server/transfers/transfer_receiver.rs:207-214 | distinct sanitized sibling names meet the condition |
| Collisions.FileAfterDirectoryIsLost | src/server/transfers/transfer_receiver.rs:219-226 | an instance: a directory and then a file with the same sanitized name are accepted, and no file arrives |
| Pipeline.ForestJobsAreTheForest | src/server/transfers/transfer_sender.rs:71-196 | the jobs list each reachable node of the forest exactly once |
| EndToEnd.CountsAtMostWhatCame | src/server/transfers/transfer_receiver.rs:251-273 | for every stream the receiver counts no byte that was not in it |
| EndToEnd.ContractsGiveFaithful | src/server/transfers/transfer_receiver.rs:104-142 | the two tasks' contracts give a faithful copy, cut or complete |
| EndToEnd.Transport | src/server/transfers/transfer_receiver.rs:130-134 | a connection that ends cleanly delivers all that was sent; one that breaks delivers some prefix of it |
| EndToEnd.TransferOnce | src/server/transfers/transfer_sender.rs:21-58 | both tasks together, with cancellation, failing calls and a connection that may break with chunks in flight: received never exceeds sent, a cut is consistent, a well-named forest is never refused, both final states, and if nothing fails, breaks or is cancelled both complete and the destination mirrors the forest |
| Denotation.StreamDenotation | src/server/transfers/transfer_receiver.rs:145-190 | any accepted stream into any destination: each path holds the data of the last maximal run that opens a file there, with that run's own time, whatever was there; files at other paths are as before |
| Denotation.RunSplitExists | src/server/transfers/transfer_receiver.rs:167 | every stream splits into maximal runs of equal paths |
| Denotation.RefusedIffUnsafe | src/server/transfers/transfer_receiver.rs:162-165 | a stream is refused exactly when a chunk that is not a symlink has an unsafe path |
| Denotation.SymlinksAreIgnored | src/server/transfers/transfer_receiver.rs:155-157 | symlink chunks change nothing, not even the framing |
| OnDisk.StreamSplits | src/server/transfers/transfer_sender.rs:71-196 | the maximal runs of the sender's stream are exactly its jobs, when no two neighbours share a path |
| OnDisk.DiskOutcome | src/server/transfers/transfer_receiver.rs:145-190 | then, on disk and into any destination, of the files that share a path the last one is complete with its own time, files elsewhere are as they were, and all bytes are counted |
| OnDisk.DiskRoundTrip | src/server/transfers/transfer_receiver.rs:145-190 | a well-named forest received on disk into any destination: every non-empty file complete with its own time whatever was there, every other file as before |
| Announce.Announcement.ProcessPaths | src/types/transfer.rs:281-342 | fills in exactly the totals of the sources, or reports the first fault and changes nothing |
| Announce.AddAll | src/types/transfer.rs:319-335 | the totals of all sources in order, or the first fault |
| Announce.AddSource | src/types/transfer.rs:320-334 | one source adds its own size, or all listed sizes and counts |
| Announce.AddListed | src/types/transfer.rs:326-329 | adds all listed sizes and counts |
| Announce.ContractMakesAnnouncementExact | src/filesystem/vfs/mod.rs:66-77 | a filesystem that meets its size contract makes the announcement exact: the recursive sums of all bytes and of all files, the names, and name and type of a single file |
| Announce.RequestTellsForest | src/types/transfer.rs:174-192 | what the peer is told in the request: the bytes and files of the forest, its names, and name and type of a single file |
| Announce.WalkData | src/server/transfers/transfer_sender.rs:115-193 | the bytes in queue order are the recursive sum without what is hidden |
| Announce.BytesMeetAnnouncement | src/server/transfers/transfer_sender.rs:309-315 | both ends count the same bytes, and these are the announced total exactly when no unreadable directory hides any |
| Announce.RequestRoundTrip | src/types/transfer.rs:345-379 | the details survive the request exactly when single names and types are non-empty and go with one file |
| Announce.AnnouncedSurvivesWire | src/types/transfer.rs:174-191 | what `process_paths` announces always meets that condition, given non-empty names and types |
| RemoteStore.RemoteManager.SendEvent | src/server/remote_manager.rs:119 | a full channel loses its oldest event; without receivers nothing is queued |
| RemoteStore.RemoteManager.AddRemote | src/server/remote_manager.rs:151-176 | inserts the record, then announces it |
| RemoteStore.RemoteManager.UpdateRemoteWith | src/server/remote_manager.rs:256-268 | change and event together, or neither when the remote is unknown |
| RemoteStore.RemoteManager.PushTransfer | src/server/remote_manager.rs:284-299 | appends the transfer and announces it |
| RemoteStore.RemoteManager.UpdateTransferWith | src/server/remote_manager.rs:301-326 | changes the first transfer with the uuid; the event is dropped only for progress on a long channel |
| RemoteStore.RemoteManager.RemoveTransferAt | src/server/remote_manager.rs:328-345 | removes the first transfer with the uuid and announces that |
| RemoteStore.RemoteManager.TransferByProtocolId | src/server/remote_manager.rs:405-411 | finds a transfer with the id if there is one, and the only one when ids are distinct |
| RemoteStore.AlwaysThrottled | src/server/remote_manager.rs:301-326 | in every run each progress event sits below index 128 and the channel within its capacity |
| RemoteStore.FullChannelIsMostlyNews | src/server/remote_manager.rs:119 | a full channel holds at least 128 events that are not progress |
| RemoteStore.StateChangeIsPublished | src/server/remote_manager.rs:311-319 | an update that changes the state variant is queued, however long the channel is |
| RemoteStore.PublishedIff | src/server/remote_manager.rs:311-319 | any update of a transfer is published while fewer than 128 events wait, and beyond that exactly if it changes the state variant; a channel of 256 events loses its oldest |
| RemoteStore.VariantChangeIsNews | src/server/remote_manager.rs:301-326 | in every run, when a stored transfer changes its state variant, news about it is the newest event in the channel |
| Replica.App.HandleEvent | examples/tui/app.rs:155-213 | applies one event to the transfer lists |
| Replica.App.Retain | examples/tui/app.rs:206-213 | drops every transfer with the uuid and keeps the others in order |
| Replica.HydrateThenApply | examples/tui/app.rs:26-55 | hydrating late and applying does to each remote's list what the event says of the store as it is then |
| Replica.AlwaysInv | examples/tui/app.rs:157-213 | in every run, working off everything pending would make the copy agree with the store |
| Replica.Converges | examples/tui/app.rs:157-213 | whenever both queues are empty the copy lists the same uuids in the same order with the same state variants |
| Replica.AnnouncedIsShown | examples/tui/app.rs:157-172 | in every run, once a remote has been announced, the copy has a list for it whenever both queues are empty |
| Replica.StoreAddIsAStep | src/server/remote_manager.rs:284-299 | adding a transfer to the store is a step the convergence theorem covers, with its event |
| Replica.StoreRemoveIsAStep | src/server/remote_manager.rs:328-345 | so is removing one |
| Replica.StoreUpdateRemoteIsAStep | src/server/remote_manager.rs:256-268 | so is updating a remote |
| Replica.StoreInsertIsAStep | src/server/remote_manager.rs:151-176 | so is the insertion of a remote, before its event |
| Replica.StoreAnnounceIsAStep | src/server/remote_manager.rs:151-176 | and so is that event |
| Replica.StoreUpdateIsAStep | src/server/remote_manager.rs:301-326 | the store's throttled update is one of the steps the convergence theorem covers |
| Duplex.DuplexSoundness | src/server/remote_worker.rs:233-288 | whenever a peer is Connected, one call of its own set that state and nothing has changed it since; the handler of that very call found the other ready; and before that both this call and the other peer had pinged successfully |
| Duplex.StepKeepsCallPast | src/server/remote_worker.rs:268-281 | every step keeps what a call's stage says about its own past |
| Duplex.StepKeepsNoLostWakeup | src/grpc/warp.rs:76-121 | every step keeps an unread event for each parked handler whose record is ready |
| Duplex.NeverLostWakeup | src/grpc/warp.rs:76-121 | so it holds in every run, with any failures and any number of calls |
| Duplex.RefusalIsJustified | src/grpc/warp.rs:102-106 | a false reply with nothing unread and no lag means the record is not ready |
| Duplex.ReadDecides | src/grpc/warp.rs:79-96 | the first read of a handler: a caller that is Disconnected or in any Error is called back, one that is AwaitingDuplex or Connected is granted, else the handler waits |
| Duplex.HandlersHear | src/server/remote_manager.rs:256-268 | every change of a peer's record reaches every handler that waits for it, and so do the updates that change nothing it looks for and events about others |
| Duplex.LagNeedsFullQueue | src/server/remote_manager.rs:119 | a handler loses events only when more than 256 of them wait |
| Duplex.CallFailsAnyTime | src/server/remote_worker.rs:399-408 | a duplex call can fail at any time until it is answered |
| DuplexCalls.CallsAreAttempts | src/server/remote_worker.rs:233-288 | in every run of the two peers each call has done a part of one attempt of `RemoteWorker.Connect`, call by call and state by state, all of one when it is done, and has set Connected only in one that succeeds |
| DuplexCalls.FailuresHappen | src/server/remote_worker.rs:240-279 | and each way an attempt can fail does happen to some call |
| DuplexCalls.DeadlineHappens | src/grpc/warp.rs:99-106 | so does a duplex call that waits in vain until the handler's deadline |
| DuplexProgress.EveryStepDecreases | src/server/remote_worker.rs:233-288 | every fault-free step lowers a measure of work and pending events, so no schedule goes on forever, however many calls there are |
| DuplexProgress.MutualWait | src/server/remote_worker.rs:266 | a schedule can only get stuck unfinished with a parked call and a blocked writer on both peers |
| DuplexProgress.FewCallsConnect | src/server/remote_worker.rs:233-288 | with one or two initial calls every schedule that cannot go on has connected both peers |
| DuplexDeadlock.ManyCallsGetStuck | src/server/remote_worker.rs:395-414 | with three or more initial calls some schedule, allowed even by a lock where writers go first, ends with both peers waiting |
| DuplexDeadlock.ConnectsIff | src/server/remote_worker.rs:395-414 | all schedules connect if and only if one or two calls are made at first |
| DuplexDeadlock.FewCallsReachConnection | src/grpc/warp.rs:76-121 | from every point of such a schedule both peers can still be connected |
| Worker.RemoteWorker.SetState | src/server/remote_worker.rs:672-681 | sets the record, and the watch while somebody listens |
| Worker.RemoteWorker.Connect | src/server/remote_worker.rs:233-288 | the calls made with their answers and the states set in between, in order, for each result: success exactly if certificate, channel, ping and duplex call all succeed, and each error exactly if its own call is the first that fails |
| Worker.RemoteWorker.Disconnect | src/server/remote_worker.rs:290-293 | clears the client, then sets Disconnected |
| Worker.RemoteWorker.LoopPing | src/server/remote_worker.rs:190-197 | pings once; exactly if that ping fails it sets Disconnected, then clears the client |
| Worker.RemoteWorker.SubscribeState | src/server/remote_worker.rs:295-297 | one more receiver of the watch, which shows its current value |
| Worker.Lifecycle | src/server/remote_worker.rs:181-198 | after any calls the watch equals the record while the loop lives, Connected implies a client, a failed duplex call leaves none, AwaitingDuplex was set only right after a ping that succeeded, and Connected only right after a duplex call that did, in one attempt whose calls all succeeded |
| Worker.ClientIff | src/server/remote_worker.rs:233-293 | after any calls a client is present if and only if some attempt succeeded and no later call cleared it |
| Worker.ClientOutlivesFailure | src/server/remote_worker.rs:238-258 | an instance: a worker Disconnected with a client, left by an attempt that failed on the certificate |
| Worker.WatchIsLastHeard | src/server/remote_worker.rs:672-681 | after any states set, subscriptions, drops and the loop's end, in any order, the record is the last state set and the watch the last one set while somebody listened |
| Worker.ReceiversAre | src/server/remote_worker.rs:295-297 | who listens: the loop until it ends, and every subscriber until it is dropped |
| Worker.WatchAgreesIff | src/server/remote_worker.rs:672-681 | the watch equals the record if and only if the last state set is also the last one set while somebody listened |
| Worker.HeardWatchAgrees | src/server/remote_worker.rs:295-297 | so it does whenever anybody listened to the last state set |
| Worker.CallsAreEvents | src/server/remote_worker.rs:233-293 | any calls on a worker are such events, so the results about the watch cover them, whatever happens in between |
| Worker.StaleWatch | src/server/remote_worker.rs:205-211 | an instance: a worker is Connected while its watch still says group-code mismatch if nobody subscribed, and not if somebody did |
| TransferAgreement.TransferServer.ProcessTransferOpRequest | src/grpc/warp.rs:177-195 | records an incoming transfer with the request's details, waiting for permission |
| TransferAgreement.TransferServer.StartTransfer | src/grpc/warp.rs:198-240 | starts a sending task, under the transfer's own token, for an outgoing transfer whatever its state; otherwise a status and no change |
| TransferAgreement.TransferServer.StopTransfer | src/grpc/warp.rs:248-287 | cancels the token of an outgoing transfer, and sets an incoming record Canceled, an outgoing one Stopped, and either Failed(RemoteError) with the error flag |
| TransferAgreement.TransferServer.CancelTransferOpRequest | src/grpc/warp.rs:290-320 | denies or cancels a transfer only while it waits for permission |
| TransferAgreement.StepKeepsPairInv | src/server/remote_worker.rs:471-516 | every step of calls, handlers and tasks, with the sender's token and the bytes on each stream, keeps what the two records agree on |
| TransferAgreement.RecordsMirror | src/types/transfer.rs:345-379 | in every run the incoming record tells what was announced, and so does the outgoing one once confirmed |
| TransferAgreement.BytesAreCarried | src/server/transfers/transfer_receiver.rs:267-273 | in every run no side counts more than its streams carried, the sender all of it once each send is counted, and no stream carries more than there is to read |
| TransferAgreement.CancelAgrees | src/server/remote_worker.rs:635-670 | a successful cancel leaves both sides Denied or both Canceled, with nothing accepted and no byte moved, and the sender's own cancel a cancelled token |
| TransferAgreement.StopAgrees | src/server/remote_worker.rs:597-633 | a stop that succeeds, whatever both tasks do during and after it: the receiver's record ends Stopped if the receiver called and Canceled if the sender did without the error flag; the sender's is Stopped until its task ends; the token is cancelled |
| TransferAgreement.AcceptAgrees | src/server/remote_worker.rs:535-587 | an acceptance leaves both records InProgress, with one more stream, which sends exactly if the token is not cancelled |
| TransferAgreement.TaskEnds | src/server/transfers/transfer_sender.rs:51-57 | what a task writes at its end: the sender's its result whatever was there, the receiver's too unless it was stopped or canceled |
| TransferAgreement.RequestAgrees | src/server/remote_worker.rs:471-516 | a request leaves both records waiting for permission with the announced details; one whose paths cannot be processed fails before the peer hears of it |
| TransferCalls.SendTransferRequest | src/server/remote_worker.rs:471-516 | the call on the two peers' records: what each holds if it succeeds, if processing fails, and if the request or its answer is lost |
| TransferCalls.StopTransfer | src/server/remote_worker.rs:595-633 | the states a stop writes at both ends, the token, and that the call is the steps `StopAgrees` speaks of |
| TransferCalls.CancelTransfer | src/server/remote_worker.rs:635-670 | both records Denied or both Canceled, only if the peer waits for permission, and that the call is those steps |
| TransferCalls.AcceptTransfer | src/server/remote_worker.rs:535-587 | never an outgoing transfer; the sender's task is started first, and both records end InProgress; the call is those steps |
| TransferAgreement.CanceledMovesNothing | src/server/remote_worker.rs:645-652 | after the sender's successful cancel no byte is counted on either side whatever happens next, accepts included |
| TransferAgreement.ShutdownMovesNothing | src/server/remote_worker.rs:479 | nor does anything move once the sender was shut down before anything was accepted, because every token is a child of the worker's |
| TransferAgreement.CancelledTokenMovesNothing | src/server/transfers/transfer_sender.rs:72-74 | in every run, once a token is cancelled before anything was accepted, by a call that succeeds or fails, nothing is ever counted |
| TransferAgreement.DeniedStaysUntouched | src/server/remote_worker.rs:635-670 | after a denial, which cancels no token, both sides stay Denied with no byte moved until somebody accepts |
| TransferAgreement.RemovedStaysGone | src/server/remote_manager.rs:328-345 | removing a record leaves the peer's record, the token and running streams alone, and nothing brings it back |
| TransferAgreement.MovesIffTokenLives | src/grpc/warp.rs:204-236 | no state is checked on acceptance, so a denied or canceled transfer can still move bytes if and only if there are any and its token is not cancelled |
| TransferAgreement.NothingMovesBeforeAcceptance | src/server/remote_worker.rs:535-587 | in every run a side that is initializing, waiting or denied has counted nothing and takes nothing |
| StopRace.StopWinsOnReceiver | src/server/transfers/transfer_receiver.rs:80-94 | every interleaving of a stop with progress and the stream's end leaves Stopped for a stop made here and Canceled for the sender's, with speed 0 and every byte counted; only an error the sender tells of is overwritten by a later end |
| StopRace.LastWriteWinsOnSender | src/server/transfers/transfer_sender.rs:51-57 | on the sender the later of stop and end gives the state |

## Left out

- Collisions.MirrorsIff: a destination decides by whole sanitized paths: creating fails where the other kind has the path, makes a directory again and truncates a file. That a name holds a slash, so that a path's parent on the destination is no job's, is not modelled; for other names parents are there first (`Collisions.ParentArrivesFirst`).
- Receiver.ReceiveState.ProcessChunk: which error the application's filesystem gives where the other kind is in the way is its own choice; the specification names one.
- Announce.BytesMeetAnnouncement: counts are unbounded naturals; the u64 sums of sizes could wrap for impossible totals.
- Announce.Announcement.ProcessPaths: the type guessed from a file name is a function parameter, and the "number of children" an entry of a listing tells is read as the number of files at or below it, as the real-filesystem variant counts.
- MovingAverage.MovingAverageCalculator.Push: rates are exact reals, so the rounding of f64 is not modelled; truncation and saturation to u64 are.
- Pipeline.RoundTrip: the source does not change during a transfer; a file that changes between two reads is not modelled.
- Receiver.ReceiveState.ProcessChunkOnDisk: directories are made as far as possible and never disappear, which is all that is said of them; two paths that name one file and a file that is also a directory are not modelled, and `starts_with` is a parameter.
- Receiver.ReceiveStream: the record is there until the stream ends; progress of a removed record is dropped by the code. A stop while the stream runs is the subject of `StopRace`.
- Sender.SendStream: the channel's capacity of four chunks, which only delays the sender, and source or destination paths that are not UTF-8, which the code refuses.
- Sender.SendSource: the real-filesystem walker, which is a library; the virtual one is modelled.
- Replica.Converges: no event is lost to a full channel (`RemoteStore.FullChannelIsMostlyNews` bounds when that can happen), and transfer uuids are fresh; with two adds of one remote racing, its transfers could be replaced.
- Replica.App.HandleEvent: the list of remotes, messages, selection and displayed speeds of the example application; a snapshot may already hold a message whose own event is pending, so messages do not converge exactly.
- Duplex.DuplexSoundness: deadlines, reconnect timers and failures are steps that can happen at any time; clocks are not modelled. The steps of one call are atomic between its waits.
- Duplex.RefusalIsJustified: a handler whose event queue has lagged may refuse although the record is ready; its receive branch is then disabled and only the deadline is left, as in the code.
- DuplexDeadlock.ConnectsIff: no deadlines, as in the claim; in the running library the handler's ten-second deadline ends such a wait with a failed attempt.
- Worker.RemoteWorker.Connect: calls on one worker do not overlap, and the manager is alive; overlapping calls are the subject of `Duplex`.
- RemoteStore.VariantChangeIsNews: replacing a whole stored remote is excepted, because `add_remote` sends its event after releasing the lock.
- TransferAgreement.CancelAgrees: public calls on one transfer do not overlap, and a handler's lookup and update are one step. What there is to read does not change.
- TransferAgreement.TransferServer.StartTransfer: one remote's records by protocol id, which is taken to be distinct; the lookup itself is `RemoteStore.RemoteManager.TransferByProtocolId`.
- StopRace.StopWinsOnReceiver: one stop and one stream; a second acceptance is the subject of `TransferAgreement`.
- Certificates, TLS, gRPC transport and mDNS: library calls, here success or failure.
- Messages, avatars, machine information, wake locks, configuration, manual connections and logging: they would only add easy members.

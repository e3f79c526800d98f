# Condr's transport and synchronisation layer, in Dafny

Condr is a terminal multiplexer whose Server and Clients share one Session over the network. This
project models the code that keeps the two sides in step and proves what that code is for: that
streams deliver every byte in order under credit, that merged terminal frames show what the frames
themselves would, that a lagging client is told of every gap, and that what is written to disk or to
another program is read back.

Each class has the fields of the source's struct under its lock, and each of its methods is one
locked section. A method is proved equal to a function on a value of the same fields, and the
theorems are about all runs of those functions: any interleaving of callers, threads and network.

| files | what they model |
|---|---|
| `Streams`, `StreamConnection` | an end of a Stream connection: entries, credit windows, control and ready queues |
| `StreamScheduling`, `StreamTurns` | the bookkeeping every operation keeps, and the fairness of the writer's round robin |
| `StreamLanes`, `StreamRuns`, `StreamResults` | two ends and two wires: one Stream's bytes and credit, whole runs, what they guarantee |
| `StreamEndings`, `StreamWakeups` | which ends read everything, and that no wake-up is lost |
| `TerminalViews`, `FrameMerge`, `FrameLinks` | views, deltas, their merge, and the hyperlink limits of a wire frame |
| `VisualSlot`, `ClientTerminals`, `VisualRuns`, `WatchedRuns` | the droppable slot, a batch applied whole or not at all, and the merged path against direct application, for every Pane and for those watched |
| `FrameChunks`, `TerminalReader` | chunked records, and the thread that reads a connection beside its owner |
| `StreamLinks` | the shared Stream connection of one Device: many callers, one worker |
| `ClientWriters`, `ClientDeliveries` | the Server's bounded queue to one client, and the thread that writes from it |
| `NoiseRecords` | records of an encrypted connection, with an ideal cipher |
| `SessionModels`, `EventReplay`, `CompanionNotices` | what a Client keeps of a Session, the phone's event replay, its change notices |
| `LayoutSnapshots` | a layout tree flattened, validated and restored |
| `Supervisors`, `SystemdUnits`, `LaunchdPlists` | the restart limiter, and the two autostart texts |
| `Wrappers`, `Sequences`, `ProtocolLimits` | what the others share |

`dafny verify dfyconfig.toml` checks the whole project.

Two places where the code contradicts its documentation, each with a run that shows it and the exact
condition:

- `StreamLink` is said to close its connection with the terminal connection
  (crates/condr-client/src/forward.rs:359-363), but a `retain` that dials while the terminal is down
  stores its connection all the same (`TerminalMayBeDownWhileConnected`); the worker never does
  (`OnlyACallerConnectsWhileDown`).
- A batch of transfers is said to log in once (crates/condr-client/src/forward.rs:428-431). It does while
  the link stays in use (`WaitersShareTheConnection`); a caller that wakes after everyone let go of the
  connection it waited for dials again (`WakesExactly`, `WaiterMayDialAgain`).

Four places where what one might expect fails, each with the exact condition:

- The end of a Stream does not mean that every byte was read. It does on an end that did not give the
  Stream up (`EndMeansAllWasRead`); one that did, and keeps its handle, reads the end having read exactly
  the bytes that had arrived when it gave up (`GivenUpEndReadsWhatArrived`, `GivingUpLosesBytes`).
- The slot's merge can hide what direct application would ask for a Bootstrap for: a delta that did not
  apply, when a full view merges over it (`FullViewCoversForAGap`); a delta with its runs out of order,
  which the decoder lets through and a merge puts in order (`MergeHidesDisorder`); and a batch that names
  a Pane twice (`MergeHidesARepeat`). These are all such cases (`MergedAgreesExactly`).
- A Client that watches some Panes may be asked for a resync by frames it would only have ignored, for
  the slot merges them before the model looks at them (`WatchedRefinesDirect`, `IgnoredFramesMayResync`).
- A program's path survives the systemd unit exactly when it holds no newline (`UnitReadsBack`).

## Model

| member | source | states |
|---|---|---|
| StreamConnections.StreamConnection.Open | crates/condr-client/src/streams.rs:247-277 | opening fails on a closed connection or a full table, else adds exactly one numbered entry and its Open frame, and the bookkeeping of all entries stays consistent |
| StreamConnections.StreamConnection.AcceptOpen | crates/condr-client/src/streams.rs:344-354 | the answer joins the control queue and wakes the writer, exactly while the connection is open |
| StreamConnections.StreamConnection.RefuseOpen | crates/condr-client/src/streams.rs:357-373 | the refusal is queued, the entry fails and keeps nothing to send |
| StreamConnections.StreamConnection.WriteTurn | crates/condr-client/src/streams.rs:376-421 | one turn of a write takes at most a chunk and at most the credit, joins the ready line once and wakes the writer, or fails with the entry's failure |
| StreamConnections.StreamConnection.ReadTurn | crates/condr-client/src/streams.rs:424-460 | one turn of a read gives the oldest unread bytes, and grants credit, waking the writer, exactly when a quarter window was consumed since the last grant |
| StreamConnections.StreamConnection.Finish | crates/condr-client/src/streams.rs:463-478 | a finish is queued behind the data, once |
| StreamConnections.StreamConnection.ResetNow | crates/condr-client/src/streams.rs:481-508 | a reset drops what is queued, tells the peer and fails the entry, unless it already failed |
| StreamConnections.StreamConnection.DropHandle | crates/condr-client/src/streams.rs:510-533 | dropping a handle resets a Stream still in use, and the entry goes when nothing needs it |
| StreamConnections.StreamConnection.TakeNextData | crates/condr-client/src/streams.rs:603-626 | the loop over the ready line ends, skips entries with nothing to send, and serves the first other one |
| StreamConnections.StreamConnection.TakeNextMessage | crates/condr-client/src/streams.rs:535-582 | control frames go ahead of data |
| StreamConnections.StreamConnection.CloseWith | crates/condr-client/src/streams.rs:140-146 | a connection closes once, for the first reason; its transport is shut down once, and every waiting thread is notified |
| StreamConnections.StreamConnection.FailureOf | crates/condr-client/src/streams.rs:148-159 | what a handle is told: the connection's end first, then its entry's own failure, then nothing |
| StreamConnections.StreamConnection.RemoveIfFinished | crates/condr-client/src/streams.rs:161-165 | an entry goes exactly when nothing needs it; an id without one is ignored |
| StreamConnections.StreamConnection.ReceiveOpen | crates/condr-client/src/streams.rs:687-718 | only a number above all before opens a Stream, and one that cannot be held is refused to the peer |
| StreamConnections.StreamConnection.ReceiveBytes | crates/condr-client/src/streams.rs:740-754 | data past the announced credit is a violation; data for an ended or failed Stream is dropped |
| StreamConnections.StreamConnection.ReceiveEnd | crates/condr-client/src/streams.rs:726-739 | a reset or refusal drops what is queued and keeps the first failure |
| StreamConnections.StreamConnection.ReceiveNote | crates/condr-client/src/streams.rs:755-768 | credit only ever raises the limit, a finish ends the direction, an answer is kept |
| StreamConnections.StreamConnection.ReceiveFrame | crates/condr-client/src/streams.rs:679-794 | each kind of frame changes what it should, in both directions of the connection, and each violation is told and changes nothing |
| StreamScheduling.ReceiveConsistent | crates/condr-client/src/streams.rs:679-794 | whatever arrives, accepted or not, the bookkeeping stays consistent: queued entries are exactly those in line, no id twice, at most MAX_STREAMS entries, none that nothing needs |
| StreamScheduling.WriteConsistent | crates/condr-client/src/streams.rs:376-421 | a write keeps that bookkeeping |
| StreamScheduling.OpenConsistent | crates/condr-client/src/streams.rs:247-277 | an open keeps it |
| StreamScheduling.RefuseConsistent | crates/condr-client/src/streams.rs:357-373 | a refusal keeps it |
| StreamScheduling.ReadConsistent | crates/condr-client/src/streams.rs:424-460 | a read keeps it |
| StreamScheduling.FinishConsistent | crates/condr-client/src/streams.rs:463-478 | a finish keeps it |
| StreamScheduling.ResetConsistent | crates/condr-client/src/streams.rs:481-508 | a reset keeps it |
| StreamScheduling.DropConsistent | crates/condr-client/src/streams.rs:510-533 | a dropped handle keeps it |
| StreamScheduling.NextDataConsistent | crates/condr-client/src/streams.rs:603-626 | the writer keeps it |
| StreamScheduling.IdleMeansDrained | crates/condr-client/src/streams.rs:603-626 | the writer finds nothing exactly when no Stream has anything queued |
| StreamScheduling.TurnComesCloser | crates/condr-client/src/streams.rs:603-626 | each turn sends a waiting Stream's own next item or moves it up |
| StreamLanes.HearKeeps | crates/condr-client/src/streams.rs:679-794 | hearing any frame keeps the invariant of one Stream's two ends: credit, bytes and end |
| StreamLanes.ReadKeeps | crates/condr-client/src/streams.rs:424-460 | a read keeps it, whether or not it grants credit |
| StreamLanes.WriteKeeps | crates/condr-client/src/streams.rs:376-421 | a write within the credit keeps it |
| StreamLanes.TransmitDataKeeps | crates/condr-client/src/streams.rs:535-582 | moving an item to the wire keeps it |
| StreamLanes.OpenKeeps | crates/condr-client/src/streams.rs:247-277 | opening a Stream begins the invariant |
| StreamLanes.AbandonKeeps | crates/condr-client/src/streams.rs:488-508 | a reset or a refusal keeps it |
| StreamLanes.FinishKeeps | crates/condr-client/src/streams.rs:463-478 | a finish keeps it |
| StreamLanes.DropKeeps | crates/condr-client/src/streams.rs:510-533 | a dropped handle keeps it |
| StreamLanes.TransmitControlKeeps | crates/condr-client/src/streams.rs:535-582 | moving a control frame to the wire keeps it, ahead of data |
| StreamLanes.CloseKeeps | crates/condr-client/src/streams.rs:140-146 | a closing end keeps it |
| StreamLanes.DrainedHasCredit | crates/condr-client/src/streams.rs:424-447 | with nothing in flight the limit is what the drained reader announced |
| StreamResults.RunsKeepInvariant | crates/condr-client/src/streams.rs:135-794 | the cross-end invariant holds in every state of every run of two ends, including lost transports and closes |
| StreamResults.NoViolation | crates/condr-client/src/streams.rs:679-794 | between honest ends no frame is ever refused: no data past credit, no unknown or reopened number, no frame for the wrong side |
| StreamResults.ReadsArePrefix | crates/condr-client/src/streams.rs:376-460 | what is read is always a prefix of what the peer's writes accepted |
| StreamResults.EndMeansAllWasRead | crates/condr-client/src/streams.rs:424-460 | on an end that did not give the Stream up, its end means that every accepted byte was read; `GivenUpEndReadsWhatArrived` speaks of the others |
| StreamEndings.GivenUpEndReadsWhatArrived | crates/condr-client/src/streams.rs:424-508 | an end that failed a Stream and keeps its handle, whatever happens next, reads the end of the Stream having read exactly what had arrived by then: so everything exactly when all the peer ever gets accepted had arrived |
| StreamResults.GivingUpLosesBytes | crates/condr-client/src/streams.rs:733-768 | a run in which an end that reset the Stream reads its end without the peer's byte |
| StreamResults.CreditStaysInWindow | crates/condr-client/src/streams.rs:424-447 | unread bytes fit one window, the peer is granted more than three quarters of one past what was consumed, and k credit frames mean k quarter windows consumed |
| StreamResults.NoCreditDeadlock | crates/condr-client/src/streams.rs:424-447 | a drained Stream with nothing in flight may send more than three quarters of a window at once |
| StreamResults.NothingLeaks | crates/condr-client/src/streams.rs:148-165 | every handle has its entry, every entry without one has frames in line, and the table stays within MAX_STREAMS |
| StreamResults.HandleStepExtends | crates/condr-client/src/streams.rs:376-533 | one handle's step never takes another Stream's place in line, nor its own unless it ends the Stream |
| StreamTurns.ServedInTurn | crates/condr-client/src/streams.rs:603-626 | in every run of two ends, a Stream that waits at position k in an end's line has its next item put on the wire by that end's turn k + 1 from then on, unless its own handle or the peer's word ends it first |
| StreamTurns.StepExtends | crates/condr-client/src/streams.rs:344-794 | any step of either end, received frames and control frames included, is a turn of the writer, ends the connection or the Stream, or only adds behind those that wait |
| StreamWakeups.NoWakeUpIsLost | crates/condr-client/src/streams.rs:135-794 | in every run a blocked write, read or wait for the answer, an idle writer and a wait for the end stay blocked for as long as no step notifies them |
| TerminalViews.FrameFrom | crates/condr-core/src/terminal/view.rs:237-287 | applying the frame to the previous view gives the current one, the runs name exactly the cells that differ, and there is no frame exactly when sizes agree and a later revision shows the same |
| TerminalViews.ApplyRunsPatches | crates/condr-core/src/terminal/view.rs:340-352 | runs that fit the grid overwrite exactly their cells, and no other |
| FrameMerge.CheckDeltaMerge | crates/condr-client/src/frames.rs:357-371 | the check passes exactly when the revisions join and every run is non-empty and ends within 32 bits |
| FrameMerge.MergeTerminalDeltas | crates/condr-client/src/frames.rs:404-442 | merging succeeds exactly when the check does, and gives the merged delta |
| FrameMerge.CollectCells | crates/condr-client/src/frames.rs:404-417 | the cells of all runs by index, the later one winning |
| FrameMerge.JoinCells | crates/condr-client/src/frames.rs:418-432 | the loop over the cells in order gives the coalesced runs |
| FrameMerge.CoalesceMeans | crates/condr-client/src/frames.rs:418-432 | coalescing gives runs in normal form with exactly the cells it was given |
| FrameMerge.MergedRuns | crates/condr-client/src/frames.rs:404-442 | the merged runs are sorted, apart, non-empty, and hold the cells of both deltas, the later winning |
| FrameMerge.NormalIsUnique | crates/condr-client/src/frames.rs:404-442 | runs in that form are determined by their cells |
| FrameMerge.MergeIsSequence | crates/condr-client/src/frames.rs:404-442 | applying the merge is applying both in turn whenever both apply; and a merge that applies stands for two that do exactly when both deltas were well formed |
| FrameMerge.WellFormedMergeIsSequence | crates/condr-client/src/frames.rs:404-442 | for well-formed deltas the merge applies exactly when both do in turn, with the same view |
| FrameMerge.SequenceMerges | crates/condr-client/src/frames.rs:357-371 | deltas that a view takes in turn are never refused by the check |
| FrameMerge.MergedStaysMergeable | crates/condr-client/src/frames.rs:404-442 | a merge can be merged again: no index leaves 32 bits, and well-formed deltas give a well-formed one |
| FrameMerge.MergeRepairsDisorder | crates/condr-client/src/frames.rs:404-442 | deltas with runs out of order whose merge applies although the second one does not |
| FrameLinks.MergeTerminalFrames | crates/condr-client/src/frames.rs:373-402 | merging whole frames: a full view replaces, a delta applies to a pending full view or joins a pending delta, within the wire's hyperlink limits |
| FrameLinks.NormalizeErased | crates/condr-core/src/terminal/view/wire.rs:692-722 | the hyperlink limits change nothing but hyperlinks |
| FrameLinks.MergeErased | crates/condr-client/src/frames.rs:373-402 | a merge with limits is, with hyperlinks erased, the merge without them |
| FrameLinks.AcceptedMerge | crates/condr-client/src/frames.rs:342-402 | frames that a terminal takes in turn merge, and the merge shows it the same view |
| FrameLinks.MergeAcceptsExactly | crates/condr-client/src/frames.rs:342-402 | a merge that a terminal takes stands for two frames it would take in turn, except exactly when a full view covered for a delta that did not apply, or two deltas merged of which one had its runs out of order or no later revision |
| VisualSlot.TerminalVisualSlot.PublishBatch | crates/condr-client/src/frames.rs:54-103 | a batch is checked before anything moves, then merged Pane by Pane; the first one signals |
| VisualSlot.TerminalVisualSlot.TakeBatch | crates/condr-client/src/frames.rs:105-121 | only the current generation takes; the batch lists exactly the pending frames |
| VisualSlot.TerminalVisualSlot.AdvanceGeneration | crates/condr-client/src/frames.rs:123-128 | the slot is emptied and its generation moves on, wrapping at 64 bits |
| VisualSlot.CheckBatch | crates/condr-client/src/frames.rs:61-73 | the read-only check looks at each frame against the last one seen of its Pane |
| VisualSlot.CommitBatch | crates/condr-client/src/frames.rs:79-97 | merging Pane by Pane stops at the first merge that fails |
| VisualSlot.CheckedBatchCommits | crates/condr-client/src/frames.rs:61-97 | with each Pane named once, the check passes exactly when every merge will succeed |
| VisualSlot.NeverHalfCommitted | crates/condr-client/src/frames.rs:54-103 | a rejected batch leaves the slot as it was, or empty; an accepted one is merged whole |
| VisualSlot.RepeatedPaneMayInvalidate | crates/condr-client/src/frames.rs:83-91 | a batch naming one Pane twice that passes the check and then empties the slot |
| ClientTerminals.ShowAllAt | crates/condr-client/src/frames.rs:316-337 | each Pane of a batch that applies shows its own frame over what it showed before |
| ClientTerminals.OrderIsFree | crates/condr-client/src/frames.rs:105-121 | the order in which a taken batch lists its Panes does not matter |
| VisualRuns.MergedRefinesDirect | crates/condr-client/src/frames.rs:54-128 | for every interleaving of publishes and takes, when every batch applies directly the merged path asks for no resync, and what is pending is all that separates the two |
| VisualRuns.MergedAgreesExactly | crates/condr-client/src/frames.rs:54-128 | for all decoded frames, a merged run without a resync agrees with direct application exactly when no full view covered for a pending frame that would have been refused, no delta came with its runs out of order or without a later revision, and no batch named a Pane twice |
| VisualRuns.FullViewCoversForAGap | crates/condr-client/src/frames.rs:373-402 | a run, from a held view at another revision, in which one did |
| VisualRuns.MergeHidesDisorder | crates/condr-client/src/frames.rs:404-442 | a run, without any full view, in which a merge put runs in order that direct application refuses |
| VisualRuns.MergeHidesARepeat | crates/condr-client/src/frames.rs:54-103 | a run in which a batch names a Pane twice |
| WatchedRuns.WatchedAgreesExactly | crates/condr-client/src/model.rs:207-225 | the same for a Client with a watched set, whose model first ignores what it does not want: agreement exactly when no full view covered for a pending frame that the owner wanted and would have refused, and no delta that counts came with its runs out of order or without a later revision |
| WatchedRuns.WatchedRefinesDirect | crates/condr-client/src/model.rs:207-225 | when every batch applies directly, whatever the order of runs in what is ignored, the merged path asks for no resync exactly when what the model ignores fits what waits in the slot, and then what is pending and wanted is all that separates the two |
| WatchedRuns.IgnoredFramesMayResync | crates/condr-client/src/frames.rs:54-76 | a run in which ignored deltas ask for a resync |
| FrameChunks.ChunkAssembler.Add | crates/condr-client/src/frames.rs:165-238 | what one chunk does to the record being assembled, with every refusal |
| FrameChunks.ReassemblyUndoesSplitting | crates/condr-client/src/frames.rs:165-238 | a record within the limits, cut any way, comes back byte for byte |
| FrameChunks.OnlyTheNextChunkIsTaken | crates/condr-client/src/frames.rs:165-238 | any break of identity, order or size is refused, and only a watched Pane's own frame is yielded |
| FrameChunks.UnwatchedYieldsNothing | crates/condr-client/src/frames.rs:165-238 | a record whose Pane is unwatched at any chunk yields nothing, even if it is watched again |
| TerminalReader.ReaderThread.HandleRead | crates/condr-client/src/io.rs:112-267 | what the reader does with each message, after the fence around chunked records |
| TerminalReader.ReaderThread.HandleChunk | crates/condr-client/src/io.rs:174-239 | a chunk is ignored while a resync is pending, and one of another Session breaks the record begun |
| TerminalReader.ReaderThread.HandleFrame | crates/condr-client/src/io.rs:152-173 | a frame inside a chunked record asks for a resync; one of another Session is ignored |
| TerminalReader.RunsStaySound | crates/condr-client/src/io.rs:112-323 | in every run of reader and owner the slot holds exactly the merge of what was published since it was emptied, for the reader's own Session, and signals match it |
| TerminalReader.PendingIsSignalledOnce | crates/condr-client/src/io.rs:302-313 | a pending visual has exactly one undelivered signal of its generation |
| TerminalReader.NoFrameCrossesABootstrap | crates/condr-client/src/io.rs:240-257 | whatever the owner takes was published after the last Bootstrap it applied, and is all that was published since |
| TerminalReader.ResyncHoldsFramesBack | crates/condr-client/src/io.rs:315-323 | while a resync is pending no step publishes a frame, until the Bootstrap that answers it |
| StreamLinks.LinkState.BeginRetain | crates/condr-client/src/forward.rs:432-463 | a caller is granted, waits for another's dial and shares its error, or dials |
| StreamLinks.LinkState.EndRetain | crates/condr-client/src/forward.rs:463-484 | the dialling caller's outcome, shared by all that waited |
| StreamLinks.LinkState.EndUse | crates/condr-client/src/forward.rs:486-499 | the last user closes the connection |
| StreamLinks.LinkState.EndRedial | crates/condr-client/src/forward.rs:622-655 | the worker's new connection is stored, or closed when nothing needs it any more |
| StreamLinks.LinkState.SetTerminalConnected | crates/condr-client/src/forward.rs:501-516 | the connection closes when the terminal goes down; when it comes back waiters are nudged |
| StreamLinks.LinkState.LookForWork | crates/condr-client/src/forward.rs:561-575 | the worker ends, watches, dials or sleeps |
| StreamLinks.LinkState.WakeUp | crates/condr-client/src/forward.rs:576-584 | a nudge makes the next dial immediate and lifts a refusal |
| StreamLinks.LinkState.WatchedIsClosed | crates/condr-client/src/forward.rs:587-600 | the watched connection is removed only if it is the stored one |
| StreamLinks.RunsStaySound | crates/condr-client/src/forward.rs:432-655 | in every run: dialling means no users, no users means no connection, users mean exactly one worker, `users` counts the holders, and every open connection is the stored one or in a dialler's hands |
| StreamLinks.RetainNeverOverwrites | crates/condr-client/src/forward.rs:461-471 | a caller back from dialling finds no connection and no other dialler |
| StreamLinks.OpenConnectionStays | crates/condr-client/src/forward.rs:587-604 | an open stored connection goes only with its last user, the terminal or the link, never by a worker woken by an older one |
| StreamLinks.UnusedLinkIsClosed | crates/condr-client/src/forward.rs:486-499 | with no holder nothing is stored, and nothing open but what is in a dialler's hands |
| StreamLinks.WorkerIsNeverStuck | crates/condr-client/src/forward.rs:557-655 | while there are users the worker can go on, watches the stored connection, or sleeps for a reason that still holds; no wake-up is lost |
| StreamLinks.WaitersAreNotified | crates/condr-client/src/forward.rs:432-448 | a waiting caller has its notice, or somebody is still dialling |
| StreamLinks.WaitersShareTheConnection | crates/condr-client/src/forward.rs:428-483 | after a dial that connected, for as long as the link stays in use and whatever else happens, no caller dials, and whoever waited for that dial waits on until it wakes, and then holds the link: a batch logs in once |
| StreamLinks.WaitersShareTheError | crates/condr-client/src/forward.rs:432-449 | after a dial that failed, whoever waited for it is given its error whenever it wakes, until a newer dial is over |
| StreamLinks.WakesExactly | crates/condr-client/src/forward.rs:432-464 | a caller that wakes waits on while its dial lasts, holds the link exactly when anyone does, shares the error exactly when nobody does and the last dial failed, and dials or waits for another's dial exactly when the last one connected and everyone let go |
| StreamLinks.WaiterMayDialAgain | crates/condr-client/src/forward.rs:432-464 | a run in which a batch logs in twice |
| StreamLinks.OnlyACallerConnectsWhileDown | crates/condr-client/src/forward.rs:463-471 | a connection comes to be stored while the terminal is down exactly when a caller dialled it |
| StreamLinks.TerminalMayBeDownWhileConnected | crates/condr-client/src/forward.rs:463-471 | a run in which that happens |
| ClientWriters.ClientWriterQueue.Reserve | crates/condr-server/src/client_writer.rs:282-303 | room is made exactly when items and bytes stay in bounds; otherwise the backlog gives way to the notice |
| ClientWriters.ClientWriterQueue.CountBytes | crates/condr-server/src/client_writer.rs:112-120 | a batch counts as the sum of its frames |
| ClientWriters.ClientWriterQueue.SendClosingReliable | crates/condr-server/src/client_writer.rs:141-161 | the closing item is the last, carries its receipt's channel and clears the slots; the sender gets the receipt exactly when it is queued |
| ClientWriters.ClientWriterQueue.SendReliable | crates/condr-server/src/client_writer.rs:100-110 | a frame is refused, replaces the backlog by the notice, or is queued last |
| ClientWriters.ClientWriterQueue.SendReliableBatch | crates/condr-server/src/client_writer.rs:112-131 | so is a batch, as one item |
| ClientWriters.ClientWriterQueue.PutClipboard | crates/condr-server/src/client_writer.rs:133-139 | only the latest clipboard waits |
| ClientWriters.ClientWriterQueue.TrySendRender | crates/condr-server/src/client_writer.rs:163-181 | one render waits at a time |
| ClientWriters.ClientWriterQueue.Resume | crates/condr-server/src/client_writer.rs:191-199 | a lagged queue is reopened with its notice still in it |
| ClientWriters.ClientWriterQueue.CloseQueue | crates/condr-server/src/client_writer.rs:259-268 | closing drops everything |
| ClientWriters.ClientWriterQueue.TakeNext | crates/condr-server/src/client_writer.rs:228-257 | one look for something to write |
| ClientWriters.RunsStaySound | crates/condr-server/src/client_writer.rs:100-303 | in every run the bytes are counted exactly and within the limit, a render is never empty, and each queued item is the accepted one its place says |
| ClientWriters.EveryGapIsTold | crates/condr-server/src/client_writer.rs:187-303 | the items handed out are accepted ones in order, and after every gap comes, at once, the lag notice, even when the queue was reopened before it was read |
| ClientWriters.WithoutNoticeNothingIsSkipped | crates/condr-server/src/client_writer.rs:281-303 | with no notice configured the items handed out are a prefix of those accepted, and all of them once a queue that was not cut off is drained |
| ClientWriters.ReadsInPriority | crates/condr-server/src/client_writer.rs:228-257 | reliable items come first, then the clipboard, then the render slot, in every reachable state |
| ClientWriters.RecoveryBootstrapFits | crates/condr-server/src/client_writer.rs:8-12 | a reopened queue accepts the largest Bootstrap the protocol allows |
| ClientWriters.BlockedReaderIsNotified | crates/condr-server/src/client_writer.rs:100-269 | whatever ends a reader's wait also wakes it |
| ClientDeliveries.DeliveredMeansWritten | crates/condr-server/src/server/client.rs:262-290 | a receipt that says delivered means that the client was sent every accepted item in order, or the notice in the place of those it missed, and last the closing frame; with no notice configured, all of them |
| NoiseRecords.NoiseStream.WriteAll | crates/condr-client/src/noise.rs:431-447 | writing fills the waiting record, sends full ones and keeps the rest, always less than a record |
| NoiseRecords.NoiseStream.FlushAll | crates/condr-client/src/noise.rs:449-454 | a flush sends what waits as one record |
| NoiseRecords.NoiseStream.ReadSome | crates/condr-client/src/noise.rs:388-428 | reading opens records until one has bytes and hands out at most what is asked for |
| NoiseRecords.WriteSendsFullRecords | crates/condr-client/src/noise.rs:431-447 | exactly the full records of what was pending and what is new are sent |
| NoiseRecords.PrefixIsTheLength | crates/condr-client/src/noise.rs:501-518 | two bytes hold every record's length |
| NoiseRecords.FirstRecordReads | crates/condr-client/src/noise.rs:501-518 | a record is recognised whole, and a part of it as a part |
| NoiseRecords.ReadsArePrefix | crates/condr-client/src/noise.rs:362-455 | for all writes, flushes, arrivals and read sizes the bytes read are a prefix of the bytes written |
| NoiseRecords.FlushedBytesAreAllRead | crates/condr-client/src/noise.rs:362-455 | and all of them once a flush has arrived |
| NoiseRecords.EveryRecordIsRead | crates/condr-client/src/noise.rs:362-455 | no record is refused, and every length fits its prefix |
| SessionModels.SessionModel.ReplaceAll | crates/condr-client/src/model.rs:71-144 | a Bootstrap replaces everything, or nothing when it cannot be restored |
| SessionModels.SessionModel.ReplaceTerminals | crates/condr-client/src/model.rs:96-121 | the views kept are the watched ones, each with its hyperlink budget |
| SessionModels.SessionModel.ReplaceLayout | crates/condr-client/src/model.rs:149-184 | a layout prunes what belonged to Panes and Workspaces that are gone, or changes nothing |
| SessionModels.SessionModel.ApplyFrames | crates/condr-client/src/model.rs:207-225 | a batch of frames changes every Pane or none, tells which, and ignores frames the client does not watch |
| SessionModels.SessionModel.Retain | crates/condr-client/src/model.rs:213-224 | the frames that count: of watched Panes, and only full views for a Pane with none |
| SessionModels.SessionModel.Watch | crates/condr-client/src/model.rs:189-194 | only watched Panes keep a view and a hyperlink budget |
| SessionModels.LayoutMatches | crates/condr-client/src/model.rs:149-184 | a layout keeps terminals and hyperlink budgets together |
| SessionModels.WatchMatches | crates/condr-client/src/model.rs:189-194 | and so does a new watched set, inside it |
| SessionModels.SessionModel.ValidateFrames | crates/condr-client/src/frames.rs:295-315 | the validation passes exactly when the whole batch applies |
| SessionModels.StillApplies | crates/condr-client/src/frames.rs:316-337 | a validated frame still applies when its turn comes, so no expectation in the second loop fails |
| SessionModels.FramesMatch | crates/condr-client/src/model.rs:207-225 | frames keep terminals and hyperlink budgets together and inside the watched set |
| SessionModels.BootstrapMatches | crates/condr-client/src/model.rs:100-121 | so does a Bootstrap |
| EventReplay.CompanionDevice.HandleEvent | crates/condr-mobile/src/companion.rs:1063-1147 | only the next event in sequence is applied, with the changes it marks for the app; a gap or a malformed layout asks for a snapshot |
| EventReplay.CompanionDevice.HandleBootstrap | crates/condr-mobile/src/companion.rs:977-1005 | a Bootstrap replaces the model, subscribes again where needed and marks the Device and its views, or fails the connection |
| EventReplay.CompanionDevice.HandleFrames | crates/condr-mobile/src/companion.rs:1006-1021 | frames of this Session are applied and their Panes marked, or a snapshot is asked for |
| EventReplay.CompanionDevice.HandleIncoming | crates/condr-mobile/src/companion.rs:955-1045 | what each message does to the model, the connection and the app's changes and one-time results, and that an older connection's does nothing |
| EventReplay.ShownChangesAreMarked | crates/condr-mobile/src/companion.rs:955-1180 | whatever any message changes of the status, the lists, who needs the person or a Pane's view is marked for the app; a view that changed is marked exactly when it is still there, and its Device always |
| EventReplay.ReplayIsExact | crates/condr-mobile/src/companion.rs:1063-1147 | however events and Bootstraps are lost, repeated and reordered, the model is the fold of the Server's log up to its cursor |
| EventReplay.CursorMovesByOne | crates/condr-mobile/src/companion.rs:1071-1097 | apart from a Bootstrap the cursor moves only to the log's own next event |
| EventReplay.GapAsksForSnapshot | crates/condr-mobile/src/companion.rs:1074-1097 | a gap or malformed layout changes nothing shown and leaves a snapshot asked for, on the present connection |
| EventReplay.BootstrapCatchesUp | crates/condr-mobile/src/companion.rs:977-1005 | a Bootstrap of the whole log brings the phone up to date from any state |
| EventReplay.TerminalsStayMatched | crates/condr-client/src/model.rs:71-225 | in every run terminals and budgets match inside the watched set, so every validated frame applies |
| CompanionNotices.RunsStaySound | crates/condr-mobile/src/companion.rs:93-126 | while a change waits the app was called since it last took any, is being called, or is about to be; and at most 64 results wait, of them one clipboard |
| CompanionNotices.CompanionState.Push | crates/condr-mobile/src/companion.rs:117-126 | only the last clipboard waits, and the oldest result goes when 64 wait |
| CompanionNotices.CompanionState.NotifyOnce | crates/condr-mobile/src/companion.rs:751-768 | the notifier's locked section: it clears the flag and is then to call `changed`, which it does without the lock |
| CompanionNotices.CompanionState.DrainEvents | crates/condr-mobile/src/companion.rs:478-480 | the app is given every result that waits, and none stays behind |
| CompanionNotices.ChangedOncePerTake | crates/condr-mobile/src/companion.rs:751-768 | counting the call under way, the app hears `changed` at most once more than it took the changes, and after each take at most once more than were due or under way then, however many changes arrive |
| CompanionNotices.NoChangeIsLost | crates/condr-mobile/src/companion.rs:471-475 | a change reported for the first time or again waits until the app takes it, whatever else happens, and the app was told since its last take, is being told, or is about to be |
| CompanionNotices.TakesWhatWasReported | crates/condr-mobile/src/companion.rs:471-475 | a take gives exactly the changes reported since the one before |
| CompanionNotices.ResultsComeOnceInOrder | crates/condr-mobile/src/companion.rs:93-126 | in every run what the app was given, and what still waits behind it, are results that were pushed, each at most once and in order, and the next take gives all that wait |
| CompanionNotices.NoResultIsLost | crates/condr-mobile/src/companion.rs:93-126 | every result pushed was given or waits, unless 64 later ones came, a newer clipboard replaced it or a new connection to its Device forgot it |
| CompanionNotices.ResultLeavesExactly | crates/condr-mobile/src/companion.rs:93-126 | a waiting result goes without being given exactly when a newer clipboard or a connection removes it, or it is the oldest of 64 when another comes |
| LayoutSnapshots.FromLayout | crates/condr-core/src/snapshot.rs:81-114 | the loop ends; the nodes lay out the tree from node 0, each once, breadth first, as many as the tree has |
| LayoutSnapshots.FlattenNext | crates/condr-core/src/snapshot.rs:86-111 | one turn of the loop; the two indices of a split fit 32 bits |
| LayoutSnapshots.ValidateLayoutSnapshot | crates/condr-core/src/session/snapshot.rs:246-322 | the walk with an explicit stack ends and reports what a recursive walk finds, error for error |
| LayoutSnapshots.WalkLayout | crates/condr-core/src/session/snapshot.rs:269-321 | the loop over the explicit stack ends where finishing its tasks one by one would |
| LayoutSnapshots.WalkOn | crates/condr-core/src/session/snapshot.rs:271-312 | one turn of it: a refusal, a node left, or a node met for the first time; each leaves less to do |
| LayoutSnapshots.EnterNode | crates/condr-core/src/session/snapshot.rs:289-311 | a node met for the first time is marked, and its children are left on the stack |
| LayoutSnapshots.AcceptsExactlyTrees | crates/condr-core/src/session/snapshot.rs:246-322 | a snapshot is accepted exactly when all its nodes, each once, lay out one tree of these Panes within the depth and ratio limits |
| LayoutSnapshots.TwiceTheLeaves | crates/condr-core/src/session/snapshot.rs:250-259 | a tree has one node less than twice its leaves, and as many Panes as leaves |
| LayoutSnapshots.RestoreNode | crates/condr-core/src/session/snapshot.rs:324-343 | restoring ends, in bounds, with the tree the nodes lay out |
| LayoutSnapshots.RestoreLayout | crates/condr-core/src/session/snapshot.rs:324-343 | every accepted snapshot restores to the tree the check found |
| LayoutSnapshots.SaveAndRestore | crates/condr-core/src/session/snapshot.rs:246-343 | a durable layout comes back as it was saved |
| Supervisors.Limiter.Record | crates/condr-server/src/supervisor.rs:95-107 | the loop drops what left the window, then accepts or refuses |
| Supervisors.FiveSpanTheWindow | crates/condr-server/src/supervisor.rs:95-107 | any five accepted restarts span at least the window |
| Supervisors.RefusedExactlyAfterFour | crates/condr-server/src/supervisor.rs:95-107 | a restart is refused exactly when the last four accepted ones lie strictly inside the window |
| SystemdUnits.QuoteSystemd | crates/condr-server/src/autostart.rs:320-331 | each character is quoted as systemd needs it |
| SystemdUnits.ReadQuoted | crates/condr-server/src/autostart.rs:348-367 | reading a quoted path up to its closing quote |
| SystemdUnits.UnquoteUndoesQuote | crates/condr-server/src/autostart.rs:320-367 | quoted text is read back, whatever follows |
| SystemdUnits.UnitReadsBack | crates/condr-server/src/autostart.rs:320-367 | the path is read back exactly when it has no newline; with one, nothing is read |
| LaunchdPlists.EscapeIsUndone | crates/condr-server/src/autostart.rs:372-410 | the replacements undo each other for every text, also one that already spells entities (section 2.4 of XML 1.0) |
| LaunchdPlists.PlistReadsBack | crates/condr-server/src/autostart.rs:372-410 | the program is read back as it was, for every text |

## Left out

- NoFrameCrossesABootstrap: for runs shorter than 2^64 steps, so that the slot's generation has not come round; the owner is taken to stay for the whole run, so no delivery fails.
- StreamLinks.RunsStaySound: starting a worker thread always succeeds, and only holders release.
- OpenConnectionStays: `LinkStatus` is not proved to mirror the connection, because a worker woken by an old connection may set `Reconnecting` over a newer one; its texts are not part of this model.
- ReplayIsExact: apart from which Agents are unseen, which depends on what the person looks at; for a log of fewer than 2^64 - 1 events of one Server and Session.
- EveryGapIsTold: the lag notice is within the byte limit.
- DeliveredMeansWritten: the timeout after which `wait` gives up is not modelled; a batch that failed part way counts as not written.
- WatchedAgreesExactly: the watched set stays what it is during the run, and each batch names a Pane once; so for `WatchedRefinesDirect`.
- ShownChangesAreMarked: a title taken from the Agent's name counts as the Agent; the app's own steps, such as showing another Pane, mark for themselves.
- ReassemblyUndoesSplitting: decoding a record's bytes is a parameter.
- UnitReadsBack: paths are text; the unit is not written for one that is not UTF-8.
- Stream offsets, sequence counters of the link and byte totals are unbounded integers; the source's 64-bit counters do not overflow in a connection's life. The slot's generation and the event sequence are modelled with their 64 bits.
- Sockets, QUIC, SSH, threads, timers, heartbeats and retry delays: transports are FIFO queues, a locked section is one step, a wait may end at any time.
- Cryptography, the handshake and pairing: a record is sealed and opened by an ideal cipher under a counter.
- Protobuf framing and the messages' other fields; a Bootstrap's own batches; frame error kinds; hyperlink budgets beyond which Panes have one.
- Session mutation and restore beyond the layout tree: a snapshot carries whether it can be restored. Split ratios are real numbers, so the check that a ratio is finite has nothing to say.
- The render and clipboard slots of a lagging client beyond their order and their clearing.
- The phone's connecting, pairing and terminal commands; the Windows autostart value; where files are placed; port probing and splicing.
- libghostty-vt bindings, GUI code, colours, build scripts, the website, installers, configuration and logging.

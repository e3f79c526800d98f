/**
 The reader of a connection (crates/condr-client/src/io.rs) and its owner. Frames reach the owner
 through the visual slot, all else through a FIFO channel. The two are processes: one locked section
 of the slot or one delivery is one step. No frame crosses a Bootstrap or a resync.
 */
module TerminalReader {
  import opened Wrappers
  import opened TerminalViews
  import opened VisualSlot
  import opened FrameChunks

  /** The Server's messages, as far as the reader tells them apart. */
  datatype ServerMessage =
    | TerminalFrame(batch: Batch)
    | TerminalFrameChunk(chunk: Chunk)
    | UnknownTerminalFrame
    | Bootstrap(server: nat, session: nat, complete: bool)
    | BootstrapBatch
    | ServerStopping
    | Harmless(tag: nat)
    | Reliable(tag: nat)

  datatype Incoming =
    | InBootstrap(server: nat, session: nat)
    | InMessage(message: ServerMessage)
    | VisualReady(generation: nat)
    | TerminalResync
    | Disconnected

  /** What the reader does next, one step at a time, before it reads another message. */
  datatype Task =
    | ToPublish(batch: Batch)
    | ToInvalidate
    | ToAdvance
    | ToDeliver(incoming: Incoming)

  datatype Reader = Reader(
    server: nat,
    session: nat,
    resyncPending: bool,
    assembly: Option<Assembly>,
    tasks: seq<Task>,
    running: bool)

  /** Whether the message may arrive between the chunks of one record. */
  predicate PassesFence(message: ServerMessage) {
    message.TerminalFrame? || message.TerminalFrameChunk? || message.Harmless?
  }

  const Resync: seq<Task> := [ToInvalidate, ToDeliver(TerminalResync)]

  function RequestResync(r: Reader): Reader {
    r.(tasks := r.tasks + Resync, resyncPending := true)
  }

  /** The reader tells its owner that the connection is gone, and reads no more. */
  function Stop(r: Reader): Reader {
    r.(tasks := r.tasks + [ToDeliver(Disconnected)], running := false)
  }

  /** What the reader does with one chunk of a terminal record. */
  function OnChunk(r: Reader, chunk: Chunk, watched: Option<set<PaneId>>, decode: Decoder): Reader {
    if r.resyncPending then r
    else if chunk.identity.server != r.server || chunk.identity.session != r.session then
      if r.assembly.Some? then RequestResync(r.(assembly := None)) else r
    else
      var (assembly, result) := Assemble(r.assembly, chunk, watched, decode);
      OnAssembled(r, assembly, result)
  }

  function OnAssembled(r: Reader, assembly: Option<Assembly>, result: Assembled): Reader {
    match result
    case Complete(pane) =>
      r.(assembly := assembly, tasks := r.tasks + [ToPublish(Batch(r.server, r.session, [pane]))])
    case Partial => r.(assembly := assembly)
    case Refused(_) => RequestResync(r.(assembly := None))
  }

  function OnFrame(r: Reader, batch: Batch): Reader {
    if r.resyncPending then r
    else if r.assembly.Some? then RequestResync(r.(assembly := None))
    else if batch.server != r.server || batch.session != r.session then r
    else r.(tasks := r.tasks + [ToPublish(batch)])
  }

  /** What the reader does with the message itself, after the fence. */
  function OnMessage(r: Reader, message: ServerMessage, watched: Option<set<PaneId>>, decode: Decoder): Reader {
    match message
    case UnknownTerminalFrame =>
      var r := RequestResync(r.(assembly := None));
      r.(tasks := r.tasks + [ToDeliver(InMessage(message))])
    case TerminalFrame(batch) => OnFrame(r, batch)
    case TerminalFrameChunk(chunk) => OnChunk(r, chunk, watched, decode)
    case Bootstrap(server, session, complete) =>
      if !complete then Stop(r)
      else
        Reader(server, session, false, None, r.tasks + [ToAdvance, ToDeliver(InBootstrap(server, session))], r.running)
    case BootstrapBatch => Stop(r)
    case _ => r.(tasks := r.tasks + [ToDeliver(InMessage(message))])
  }

  /** One turn of the reader's loop: the fence first, then the message. */
  function OnRead(r: Reader, message: ServerMessage, watched: Option<set<PaneId>>, decode: Decoder): Reader {
    if r.assembly.None? || PassesFence(message) then OnMessage(r, message, watched, decode)
    else
      var r := r.(assembly := None);
      if message.Bootstrap? || message.ServerStopping? then OnMessage(r, message, watched, decode)
      else if message.BootstrapBatch? then Stop(r)
      else OnMessage(RequestResync(r), message, watched, decode)
  }

  /** The reader as the source runs it. */
  class ReaderThread {
    var server: nat
    var session: nat
    var resyncPending: bool
    var assembly: Option<Assembly>
    var tasks: seq<Task>
    var running: bool

    ghost function Current(): Reader
      reads this
    {
      Reader(server, session, resyncPending, assembly, tasks, running)
    }

    constructor (server: nat, session: nat)
      ensures Current() == Reader(server, session, false, None, [], true)
    {
      this.server, this.session := server, session;
      resyncPending, assembly, tasks, running := false, None, [], true;
    }

    method AskForResync()
      modifies this`tasks, this`resyncPending
      ensures Current() == RequestResync(old(Current()))
    {
      tasks := tasks + [ToInvalidate, ToDeliver(TerminalResync)];
      resyncPending := true;
    }

    method HandleChunk(chunk: Chunk, watched: Option<set<PaneId>>, decode: Decoder)
      modifies this
      ensures Current() == OnChunk(old(Current()), chunk, watched, decode)
    {
      if resyncPending {
        return;
      }
      if chunk.identity.server != server || chunk.identity.session != session {
        if assembly.Some? {
          assembly := None;
          AskForResync();
        }
        return;
      }
      var assembler := new ChunkAssembler();
      assembler.assembly := assembly;
      var result := assembler.Add(chunk, watched, decode);
      assembly := assembler.assembly;
      match result {
        case Complete(pane) => tasks := tasks + [ToPublish(Batch(server, session, [pane]))];
        case Partial =>
        case Refused(_) =>
          assembly := None;
          AskForResync();
      }
    }

    method HandleFrame(batch: Batch)
      modifies this
      ensures Current() == OnFrame(old(Current()), batch)
    {
      if resyncPending {
        return;
      }
      if assembly.Some? {
        assembly := None;
        AskForResync();
        return;
      }
      if batch.server == server && batch.session == session {
        tasks := tasks + [ToPublish(batch)];
      }
    }

    method HandleRead(message: ServerMessage, watched: Option<set<PaneId>>, decode: Decoder)
      modifies this
      ensures Current() == OnRead(old(Current()), message, watched, decode)
    {
      if assembly.Some? && !PassesFence(message) {
        assembly := None;
        if message.BootstrapBatch? {
          tasks := tasks + [ToDeliver(Disconnected)];
          running := false;
          return;
        }
        if !message.Bootstrap? && !message.ServerStopping? {
          AskForResync();
        }
      }
      match message {
        case UnknownTerminalFrame =>
          assembly := None;
          AskForResync();
          tasks := tasks + [ToDeliver(InMessage(message))];
        case TerminalFrame(batch) => HandleFrame(batch);
        case TerminalFrameChunk(chunk) => HandleChunk(chunk, watched, decode);
        case Bootstrap(newServer, newSession, complete) =>
          if !complete {
            tasks := tasks + [ToDeliver(Disconnected)];
            running := false;
            return;
          }
          server, session := newServer, newSession;
          resyncPending, assembly := false, None;
          tasks := tasks + [ToAdvance, ToDeliver(InBootstrap(newServer, newSession))];
        case BootstrapBatch =>
          tasks := tasks + [ToDeliver(Disconnected)];
          running := false;
        case _ => tasks := tasks + [ToDeliver(InMessage(message))];
      }
    }
  }

  // ----- Reader, slot, channel and owner together -----

  /** A published batch, with how many Bootstraps the reader had advanced the slot for by then. */
  datatype Stamped = Stamped(batch: Batch, epoch: nat)

  /**
   `read` counts the Bootstraps the reader advanced the slot for and `applied` those the owner
   applied; `published` counts the batches the slot ever took in, `merged` lists those merged in it
   since it was last emptied, and `taken` those of the owner's last take.
   */
  datatype System = System(
    reader: Reader,
    slot: Slot,
    channel: seq<Incoming>,
    read: nat,
    applied: nat,
    published: nat,
    merged: seq<Stamped>,
    taken: seq<Stamped>)

  datatype Action =
    | ReadNext(message: ServerMessage, watched: Option<set<PaneId>>)
    | ReadFails
    | RunTask
    | OwnerTurn

  function NewSystem(server: nat, session: nat): System {
    System(Reader(server, session, false, None, [], true), NewSlot, [], 0, 0, 0, [], [])
  }

  /** What the reader does with what the slot said to a batch. */
  function AfterPublish(s: System, batch: Batch, slot: Slot, result: Published): System {
    match result
    case Rejected =>
      s.(reader := RequestResync(s.reader), slot := slot, merged := if slot == s.slot then s.merged else [])
    case Merged => s.(slot := slot, published := s.published + 1, merged := s.merged + [Stamped(batch, s.read)])
    case Signal(generation) =>
      s.(reader := s.reader.(tasks := s.reader.tasks + [ToDeliver(VisualReady(generation))]), slot := slot,
         published := s.published + 1, merged := s.merged + [Stamped(batch, s.read)])
  }

  function Perform(s: System, task: Task, rest: seq<Task>): System {
    match task
    case ToDeliver(incoming) => s.(reader := s.reader.(tasks := rest), channel := s.channel + [incoming])
    case ToAdvance => s.(reader := s.reader.(tasks := rest), slot := Advance(s.slot), merged := [], read := s.read + 1)
    case ToInvalidate => s.(reader := s.reader.(tasks := rest), slot := Advance(s.slot), merged := [])
    case ToPublish(batch) =>
      var (slot, result) := Publish(s.slot, batch);
      AfterPublish(s.(reader := s.reader.(tasks := rest)), batch, slot, result)
  }

  function OwnerTakes(s: System, generation: nat): System {
    var (slot, batch) := Take(s.slot, generation);
    s.(slot := slot,
       merged := if s.slot.generation == generation then [] else s.merged,
       taken := if batch.Some? then s.merged else [])
  }

  function Owner(s: System, next: Incoming, rest: seq<Incoming>): System {
    var s := s.(channel := rest);
    match next
    case VisualReady(generation) => OwnerTakes(s, generation)
    case InBootstrap(_, _) => s.(applied := s.applied + 1)
    case _ => s
  }

  /** One step; an action that is not possible now changes nothing. */
  function Step(s: System, a: Action, decode: Decoder): System {
    match a
    case ReadNext(message, watched) =>
      if s.reader.tasks == [] && s.reader.running then s.(reader := OnRead(s.reader, message, watched, decode)) else s
    case ReadFails =>
      if s.reader.tasks == [] && s.reader.running then s.(reader := Stop(s.reader)) else s
    case RunTask => if s.reader.tasks == [] then s else Perform(s, s.reader.tasks[0], s.reader.tasks[1..])
    case OwnerTurn => if s.channel == [] then s else Owner(s, s.channel[0], s.channel[1..])
  }

  function After(s: System, actions: seq<Action>, decode: Decoder): System {
    if actions == [] then s
    else Step(After(s, actions[..|actions| - 1], decode), actions[|actions| - 1], decode)
  }

  // ----- What every step keeps -----

  /** Whether the owner sees nothing of the slot or of a Bootstrap in this task. */
  predicate Plain(task: Task) {
    task.ToInvalidate? || (task.ToDeliver? && !task.incoming.VisualReady? && !task.incoming.InBootstrap?)
  }

  /** The task lists a reader can hold. */
  predicate Planned(tasks: seq<Task>) {
    || tasks == []
    || ((forall k :: 0 <= k < |tasks| ==> Plain(tasks[k])) && tasks[|tasks| - 1].ToDeliver?)
    || (|tasks| == 1 && (tasks[0].ToPublish? || tasks[0].ToDeliver?))
    || (|tasks| == 2 && tasks[0].ToAdvance? && tasks[1].ToDeliver? && tasks[1].incoming.InBootstrap?)
  }

  /** What is on its way to the owner, with a delivery the reader has decided on. */
  function Undelivered(s: System): seq<Incoming> {
    if |s.reader.tasks| == 1 && s.reader.tasks[0].ToDeliver? then s.channel + [s.reader.tasks[0].incoming]
    else s.channel
  }

  function Signals(channel: seq<Incoming>, generation: nat): nat {
    if channel == [] then 0
    else (if channel[0] == VisualReady(generation) then 1 else 0) + Signals(channel[1..], generation)
  }

  function Bootstraps(channel: seq<Incoming>): nat {
    if channel == [] then 0 else (if channel[0].InBootstrap? then 1 else 0) + Bootstraps(channel[1..])
  }

  /** What merging the batches one after the other gives. */
  function Folded(merged: seq<Stamped>): Option<map<PaneId, Frame>> {
    if merged == [] then Some(map[])
    else
      var before := Folded(merged[..|merged| - 1]);
      if before.None? then None else CommitAll(before.value, merged[|merged| - 1].batch.panes)
  }

  /** No signal is of a generation still to come, and no Bootstrap follows a current one. */
  predicate Signalled(channel: seq<Incoming>, generation: nat) {
    && (forall k :: 0 <= k < |channel| && channel[k].VisualReady? ==> channel[k].generation <= generation)
    && (forall i, j :: 0 <= i < j < |channel| && channel[i] == VisualReady(generation) ==> !channel[j].InBootstrap?)
  }

  predicate InvalidateDue(tasks: seq<Task>) {
    exists k :: 0 <= k < |tasks| && tasks[k].ToInvalidate?
  }

  /** The slot holds exactly the merge of `merged`, all published since the last Bootstrap read. */
  predicate SlotSound(s: System) {
    && Folded(s.merged) == Some(PendingPanes(s.slot))
    && (s.slot.pending.None? <==> s.merged == [])
    && (s.slot.pending.Some? ==> s.slot.signaled)
    && (forall k :: 0 <= k < |s.merged| ==> s.merged[k].epoch == s.read)
  }

  /** Pending frames and the frame about to be published are of the reader's own Session. */
  predicate ReaderSound(s: System) {
    var r := s.reader;
    && Planned(r.tasks)
    && (r.resyncPending ==> InvalidateDue(r.tasks) || s.slot.pending.None?)
    && (|r.tasks| == 1 && r.tasks[0].ToPublish? ==>
          !r.resyncPending && r.tasks[0].batch.server == r.server && r.tasks[0].batch.session == r.session)
    && (s.slot.pending.Some? && !(|r.tasks| == 2 && r.tasks[0].ToAdvance?) ==>
          s.slot.pending.value.server == r.server && s.slot.pending.value.session == r.session)
  }

  predicate ChannelSound(s: System) {
    var coming := Undelivered(s);
    && Signalled(coming, s.slot.generation)
    && Signals(coming, s.slot.generation) == (if s.slot.signaled then 1 else 0)
    && s.applied + Bootstraps(coming) == s.read
  }

  predicate Sound(s: System) {
    SlotSound(s) && ReaderSound(s) && ChannelSound(s)
  }

  // ----- Counting what is in the channel -----

  lemma {:induction false} OneMore(channel: seq<Incoming>, last: Incoming, generation: nat)
    ensures Signals(channel + [last], generation) ==
            Signals(channel, generation) + (if last == VisualReady(generation) then 1 else 0)
    ensures Bootstraps(channel + [last]) == Bootstraps(channel) + (if last.InBootstrap? then 1 else 0)
  {
    if channel != [] {
      OneMore(channel[1..], last, generation);
      assert (channel + [last])[1..] == channel[1..] + [last];
    }
  }

  /** A signal of a generation above all in the channel is not in it. */
  lemma {:induction false} NoneOfLater(channel: seq<Incoming>, generation: nat)
    requires forall k :: 0 <= k < |channel| && channel[k].VisualReady? ==> channel[k].generation < generation
    ensures Signals(channel, generation) == 0
  {
    if channel != [] { NoneOfLater(channel[1..], generation); }
  }

  lemma {:induction false} NoBootstrapLeft(channel: seq<Incoming>)
    requires forall k :: 0 <= k < |channel| ==> !channel[k].InBootstrap?
    ensures Bootstraps(channel) == 0
  {
    if channel != [] { NoBootstrapLeft(channel[1..]); }
  }

  // ----- Each step keeps it -----

  /** What the reader may decide on when it reads a message with nothing left to do. */
  predicate Decides(r: Reader, after: Reader) {
    && Planned(after.tasks)
    && (|after.tasks| == 1 && after.tasks[0].ToDeliver? ==> Plain(after.tasks[0]))
    && (after.resyncPending ==> r.resyncPending || (after.tasks != [] && after.tasks[0].ToInvalidate?))
    && (|after.tasks| == 1 && after.tasks[0].ToPublish? ==>
          && !r.resyncPending && !after.resyncPending
          && after.tasks[0].batch.server == r.server && after.tasks[0].batch.session == r.session)
    && ((after.server == r.server && after.session == r.session)
        || (|after.tasks| == 2 && after.tasks[0].ToAdvance?))
  }

  lemma AssembledDecides(r: Reader, assembly: Option<Assembly>, result: Assembled)
    requires r.tasks == [] && !r.resyncPending
    ensures Decides(r, OnAssembled(r, assembly, result))
  {
    if result.Refused? {
      assert OnAssembled(r, assembly, result).tasks == Resync;
    }
  }

  lemma ChunkDecides(r: Reader, chunk: Chunk, watched: Option<set<PaneId>>, decode: Decoder)
    requires r.tasks == []
    ensures Decides(r, OnChunk(r, chunk, watched, decode))
  {
    assert [] + Resync == Resync;
    var (assembly, result) := Assemble(r.assembly, chunk, watched, decode);
    if !r.resyncPending { AssembledDecides(r, assembly, result); }
  }

  lemma MessageDecides(r: Reader, message: ServerMessage, watched: Option<set<PaneId>>, decode: Decoder)
    requires r.tasks == []
    ensures Decides(r, OnMessage(r, message, watched, decode))
  {
    assert [] + Resync == Resync;
    if message.TerminalFrameChunk? { ChunkDecides(r, message.chunk, watched, decode); }
  }

  lemma ReadDecides(r: Reader, message: ServerMessage, watched: Option<set<PaneId>>, decode: Decoder)
    requires r.tasks == []
    ensures Decides(r, OnRead(r, message, watched, decode))
  {
    if r.assembly.None? || PassesFence(message) {
      MessageDecides(r, message, watched, decode);
    } else if message.Bootstrap? || message.ServerStopping? {
      MessageDecides(r.(assembly := None), message, watched, decode);
    }
  }

  lemma ReadKeeps(s: System, message: ServerMessage, watched: Option<set<PaneId>>, decode: Decoder)
    requires Sound(s) && s.reader.tasks == []
    ensures Sound(s.(reader := OnRead(s.reader, message, watched, decode)))
  {
    var after := OnRead(s.reader, message, watched, decode);
    ReadDecides(s.reader, message, watched, decode);
    if |after.tasks| == 1 && after.tasks[0].ToDeliver? {
      OneMore(s.channel, after.tasks[0].incoming, s.slot.generation);
    }
  }

  lemma FailureKeeps(s: System)
    requires Sound(s) && s.reader.tasks == []
    ensures Sound(s.(reader := Stop(s.reader)))
  {
    OneMore(s.channel, Disconnected, s.slot.generation);
  }

  function Delivered(s: System): System
    requires s.reader.tasks != [] && s.reader.tasks[0].ToDeliver?
  {
    Perform(s, s.reader.tasks[0], s.reader.tasks[1..])
  }

  lemma DeliveryKeepsReader(s: System)
    requires ReaderSound(s) && s.reader.tasks != [] && s.reader.tasks[0].ToDeliver?
    ensures ReaderSound(Delivered(s))
  {
    var tasks := s.reader.tasks;
    if InvalidateDue(tasks) {
      var k :| 0 <= k < |tasks| && tasks[k].ToInvalidate?;
      assert tasks[1..][k - 1].ToInvalidate?;
    }
  }

  lemma DeliveryKeepsChannel(s: System)
    requires Planned(s.reader.tasks) && ChannelSound(s) && s.reader.tasks != [] && s.reader.tasks[0].ToDeliver?
    ensures ChannelSound(Delivered(s))
  {
    var tasks, after := s.reader.tasks, Delivered(s);
    if |tasks| > 1 {
      OneMore(s.channel, tasks[0].incoming, s.slot.generation);
      if |tasks| == 2 && tasks[1].ToDeliver? {
        OneMore(after.channel, tasks[1].incoming, s.slot.generation);
      }
    }
  }

  /** Delivering moves a message from the reader's hands to the channel. */
  lemma DeliveryKeeps(s: System)
    requires Sound(s) && s.reader.tasks != [] && s.reader.tasks[0].ToDeliver?
    ensures Sound(Perform(s, s.reader.tasks[0], s.reader.tasks[1..]))
  {
    DeliveryKeepsReader(s);
    DeliveryKeepsChannel(s);
  }

  /** After the slot is emptied no undelivered signal is of its generation. */
  lemma EmptyingKeeps(s: System, reader: Reader, read: nat)
    requires Sound(s) && s.slot.generation + 1 < U64_SIZE
    requires |s.reader.tasks| > 0 && !s.reader.tasks[0].ToDeliver?
    requires Planned(reader.tasks)
    requires |reader.tasks| == 1 ==> reader.tasks[0].ToDeliver? && !reader.tasks[0].incoming.VisualReady?
    requires read == s.read + (if |reader.tasks| == 1 && reader.tasks[0].incoming.InBootstrap? then 1 else 0)
    ensures Sound(s.(reader := reader, slot := Advance(s.slot), merged := [], read := read))
  {
    var after := s.(reader := reader, slot := Advance(s.slot), merged := [], read := read);
    assert NextGeneration(s.slot.generation) == s.slot.generation + 1;
    assert Undelivered(s) == s.channel;
    NoneOfLater(s.channel, after.slot.generation);
    if |reader.tasks| == 1 {
      OneMore(s.channel, reader.tasks[0].incoming, after.slot.generation);
    }
  }

  /** A publish either changes nothing, empties the slot, or merges the whole batch into it. */
  predicate Outcome(slot: Slot, batch: Batch, after: Slot, result: Published) {
    && (result.Rejected? ==> after == slot || after == Advance(slot))
    && (!result.Rejected? ==>
          && after.signaled && after.generation == slot.generation && after.pending.Some?
          && Some(PendingPanes(after)) == CommitAll(PendingPanes(slot), batch.panes)
          && after.pending.value.server == batch.server && after.pending.value.session == batch.session)
    && (result.Signal? ==> !slot.signaled && result.generation == slot.generation)
    && (result.Merged? ==> slot.signaled)
  }

  lemma PublishOutcome(slot: Slot, batch: Batch)
    ensures Outcome(slot, batch, Publish(slot, batch).0, Publish(slot, batch).1)
  {
  }

  lemma RefusalKeeps(s: System)
    requires Sound(s) && |s.reader.tasks| == 1 && s.reader.tasks[0].ToPublish?
    ensures Sound(s.(reader := RequestResync(s.reader.(tasks := []))))
  {
    var reader := RequestResync(s.reader.(tasks := []));
    assert reader.tasks == Resync;
    assert reader.tasks[0].ToInvalidate?;
    assert Undelivered(s.(reader := reader)) == Undelivered(s);
  }

  lemma RejectionKeeps(s: System, slot: Slot)
    requires Sound(s) && s.slot.generation + 1 < U64_SIZE
    requires |s.reader.tasks| == 1 && s.reader.tasks[0].ToPublish?
    requires slot == s.slot || slot == Advance(s.slot)
    ensures Sound(AfterPublish(s.(reader := s.reader.(tasks := [])), s.reader.tasks[0].batch, slot, Rejected))
  {
    if slot == s.slot {
      RefusalKeeps(s);
    } else {
      var reader := RequestResync(s.reader.(tasks := []));
      assert reader.tasks == Resync;
      EmptyingKeeps(s, reader, s.read);
    }
  }

  lemma FoldedPush(merged: seq<Stamped>, next: Stamped)
    ensures Folded(merged + [next])
         == if Folded(merged).None? then None else CommitAll(Folded(merged).value, next.batch.panes)
  {
    assert (merged + [next])[..|merged|] == merged;
  }

  lemma MergeKeepsSlot(s: System, slot: Slot, result: Published)
    requires SlotSound(s) && |s.reader.tasks| == 1 && s.reader.tasks[0].ToPublish? && !result.Rejected?
    requires Outcome(s.slot, s.reader.tasks[0].batch, slot, result)
    ensures SlotSound(AfterPublish(s.(reader := s.reader.(tasks := [])), s.reader.tasks[0].batch, slot, result))
  {
    var batch := s.reader.tasks[0].batch;
    var next := Stamped(batch, s.read);
    var after := AfterPublish(s.(reader := s.reader.(tasks := [])), batch, slot, result);
    FoldedPush(s.merged, next);
    assert after.merged == s.merged + [next] && after.slot == slot && after.read == s.read;
  }

  /** The first merge since the slot was empty sends its signal; the channel holds none of the generation yet. */
  lemma MergeKeepsChannel(s: System, slot: Slot, batch: Batch, result: Published)
    requires ChannelSound(s) && |s.reader.tasks| == 1 && s.reader.tasks[0] == ToPublish(batch) && !result.Rejected?
    requires Outcome(s.slot, batch, slot, result)
    ensures ChannelSound(AfterPublish(s.(reader := s.reader.(tasks := [])), batch, slot, result))
  {
    assert Undelivered(s) == s.channel;
    if result.Signal? {
      OneMore(s.channel, VisualReady(result.generation), s.slot.generation);
    }
  }

  lemma MergeKeepsReader(s: System, slot: Slot, batch: Batch, result: Published)
    requires ReaderSound(s) && |s.reader.tasks| == 1 && s.reader.tasks[0] == ToPublish(batch) && !result.Rejected?
    requires Outcome(s.slot, batch, slot, result)
    ensures ReaderSound(AfterPublish(s.(reader := s.reader.(tasks := [])), batch, slot, result))
  {
  }

  lemma MergeKeeps(s: System, slot: Slot, result: Published)
    requires Sound(s) && |s.reader.tasks| == 1 && s.reader.tasks[0].ToPublish? && !result.Rejected?
    requires Outcome(s.slot, s.reader.tasks[0].batch, slot, result)
    ensures Sound(AfterPublish(s.(reader := s.reader.(tasks := [])), s.reader.tasks[0].batch, slot, result))
  {
    MergeKeepsSlot(s, slot, result);
    MergeKeepsChannel(s, slot, s.reader.tasks[0].batch, result);
    MergeKeepsReader(s, slot, s.reader.tasks[0].batch, result);
  }

  lemma PublishKeeps(s: System)
    requires Sound(s) && s.slot.generation + 1 < U64_SIZE
    requires |s.reader.tasks| > 0 && s.reader.tasks[0].ToPublish?
    ensures Sound(Perform(s, s.reader.tasks[0], s.reader.tasks[1..]))
  {
    var batch := s.reader.tasks[0].batch;
    assert |s.reader.tasks| == 1 && s.reader.tasks[1..] == [];
    var (slot, result) := Publish(s.slot, batch);
    PublishOutcome(s.slot, batch);
    if result.Rejected? { RejectionKeeps(s, slot); } else { MergeKeeps(s, slot, result); }
  }

  lemma TaskKeeps(s: System)
    requires Sound(s) && s.reader.tasks != [] && s.slot.generation + 1 < U64_SIZE
    ensures Sound(Perform(s, s.reader.tasks[0], s.reader.tasks[1..]))
  {
    var task, rest := s.reader.tasks[0], s.reader.tasks[1..];
    match task {
      case ToDeliver(_) => DeliveryKeeps(s);
      case ToPublish(_) => PublishKeeps(s);
      case ToAdvance =>
        EmptyingKeeps(s, s.reader.(tasks := rest), s.read + 1);
      case ToInvalidate =>
        EmptyingKeeps(s, s.reader.(tasks := rest), s.read);
    }
  }

  /** What a current signal at the head of the channel says: it is the only one, and no Bootstrap is behind it. */
  lemma SignalIsAlone(s: System)
    requires Sound(s) && s.channel != [] && s.channel[0] == VisualReady(s.slot.generation)
    ensures s.slot.signaled && s.applied == s.read
    ensures Signals(Undelivered(s)[1..], s.slot.generation) == 0 && Bootstraps(Undelivered(s)) == 0
  {
    var coming := Undelivered(s);
    assert coming[0] == s.channel[0];
    NoBootstrapLeft(coming);
  }

  lemma OwnerKeeps(s: System)
    requires Sound(s) && s.channel != []
    ensures Sound(Owner(s, s.channel[0], s.channel[1..]))
  {
    var coming := Undelivered(s);
    var after := Owner(s, s.channel[0], s.channel[1..]);
    assert Undelivered(after) == coming[1..];
    assert coming[0] == s.channel[0];
    if s.channel[0] == VisualReady(s.slot.generation) {
      SignalIsAlone(s);
    }
  }

  /** The slot's generation moves by at most one in a step. */
  lemma TaskGeneration(s: System)
    requires s.reader.tasks != [] && s.slot.generation + 1 < U64_SIZE
    ensures Perform(s, s.reader.tasks[0], s.reader.tasks[1..]).slot.generation <= s.slot.generation + 1
  {
    if s.reader.tasks[0].ToPublish? {
      PublishOutcome(s.slot, s.reader.tasks[0].batch);
    }
  }

  lemma StepKeeps(s: System, a: Action, decode: Decoder)
    requires Sound(s) && s.slot.generation + 1 < U64_SIZE
    ensures Sound(Step(s, a, decode)) && Step(s, a, decode).slot.generation <= s.slot.generation + 1
  {
    match a {
      case ReadNext(message, watched) =>
        if s.reader.tasks == [] && s.reader.running { ReadKeeps(s, message, watched, decode); }
      case ReadFails => if s.reader.tasks == [] && s.reader.running { FailureKeeps(s); }
      case RunTask =>
        if s.reader.tasks != [] {
          TaskKeeps(s);
          TaskGeneration(s);
        }
      case OwnerTurn => if s.channel != [] { OwnerKeeps(s); }
    }
  }

  // ----- Over whole runs -----

  /** Every state of every run short of 2^64 steps is sound, so the generation has not wrapped. */
  lemma {:induction false} RunsStaySound(server: nat, session: nat, actions: seq<Action>, decode: Decoder)
    requires |actions| < U64_SIZE
    ensures var s := After(NewSystem(server, session), actions, decode);
            Sound(s) && s.slot.generation <= |actions|
  {
    if actions != [] {
      RunsStaySound(server, session, actions[..|actions| - 1], decode);
      StepKeeps(After(NewSystem(server, session), actions[..|actions| - 1], decode), actions[|actions| - 1], decode);
    }
  }

  /** A pending visual always has exactly one undelivered signal of its generation. */
  lemma PendingIsSignalledOnce(server: nat, session: nat, actions: seq<Action>, decode: Decoder)
    requires |actions| < U64_SIZE
    ensures var s := After(NewSystem(server, session), actions, decode);
            s.slot.pending.Some? ==> Signals(Undelivered(s), s.slot.generation) == 1
  {
    RunsStaySound(server, session, actions, decode);
  }

  /**
   Whatever the owner takes is the merge, in order, of batches that were all published after the
   last Bootstrap it applied, and nothing is lost between: they are all that the slot was given.
   */
  lemma NoFrameCrossesABootstrap(server: nat, session: nat, actions: seq<Action>, decode: Decoder, generation: nat)
    requires |actions| < U64_SIZE
    requires var s := After(NewSystem(server, session), actions, decode);
             s.channel != [] && s.channel[0] == VisualReady(generation) && Take(s.slot, generation).1.Some?
    ensures var s := After(NewSystem(server, session), actions, decode);
            var after := Step(s, OwnerTurn, decode);
            && after.taken != []
            && Folded(after.taken) == Some(Take(s.slot, generation).1.value.panes)
            && (forall k :: 0 <= k < |after.taken| ==> after.taken[k].epoch == after.applied)
  {
    RunsStaySound(server, session, actions, decode);
    SignalIsAlone(After(NewSystem(server, session), actions, decode));
  }

  predicate ReadsBootstrap(a: Action) {
    a.ReadNext? && a.message.Bootstrap? && a.message.complete
  }

  lemma StepHoldsBack(s: System, a: Action, decode: Decoder)
    requires Sound(s) && s.reader.resyncPending && !ReadsBootstrap(a)
    ensures var after := Step(s, a, decode);
            after.reader.resyncPending && after.published == s.published && after.merged <= s.merged
  {
  }

  /**
   Between a resync request and the next Bootstrap the slot takes in no batch at all: it holds at
   most what it held when the resync was asked for, and once it is empty it stays so.
   */
  lemma {:induction false} ResyncHoldsFramesBack(s: System, actions: seq<Action>, decode: Decoder)
    requires Sound(s) && s.reader.resyncPending && s.slot.generation + |actions| < U64_SIZE
    requires forall k :: 0 <= k < |actions| ==> !ReadsBootstrap(actions[k])
    ensures var after := After(s, actions, decode);
            && Sound(after) && after.slot.generation <= s.slot.generation + |actions|
            && after.reader.resyncPending && after.published == s.published && after.merged <= s.merged
  {
    if actions != [] {
      var before := After(s, actions[..|actions| - 1], decode);
      ResyncHoldsFramesBack(s, actions[..|actions| - 1], decode);
      StepKeeps(before, actions[|actions| - 1], decode);
      StepHoldsBack(before, actions[|actions| - 1], decode);
    }
  }
}

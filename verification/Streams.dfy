/**
 The Stream connection's engine, as functions from state to state: one function for each
 section the source runs under its lock (crates/condr-client/src/streams.rs). Both ends of a
 connection run the same functions. `StreamConnection.dfy` holds the imperative engine, which
 is proved to compute these functions; `StreamLanes.dfy` and `StreamRuns.dfy` prove what two
 ends running them achieve.
 */
module Streams {
  import opened Wrappers

  const STREAM_WINDOW: nat := 1024 * 1024
  const MAX_STREAMS: nat := 64
  const MAX_STREAM_CHUNK: nat := 32 * 1024

  datatype Side = Client | Server

  datatype StreamTarget =
    | Forward(port: nat)
    | Download(path: string)
    | Upload(path: string, replace: bool)
    | UnknownTarget

  datatype StreamError =
    | ConnectionRefused | NotFound | AlreadyExists | NotAFile | InvalidPath | InvalidPort
    | WorkspaceGone | TooManyStreams | Io | Unsupported | Cancelled | Other

  datatype StreamFailure = StreamFailure(error: StreamError, detail: string)

  datatype Message =
    | Open(stream: nat, target: StreamTarget)
    | Opened(stream: nat, size: Option<nat>)
    | OpenFailed(stream: nat, error: StreamError, detail: string)
    | Data(stream: nat, data: Bytes)
    | Credit(stream: nat, maxOffset: nat)
    | Finish(stream: nat)
    | Reset(stream: nat, error: StreamError, detail: string)
    | Ping
    | Pong
    | Close
    | UnknownMessage
  {
    /** Whether the message belongs to a Stream at all, rather than to the connection. */
    predicate NamesStream() {
      !Ping? && !Pong? && !Close? && !UnknownMessage?
    }

    predicate Names(id: nat) {
      NamesStream() && stream == id
    }
  }

  datatype Outgoing = OutData(data: Bytes) | OutFinish

  /** One Stream as one end holds it. */
  datatype Entry = Entry(
    limit: nat,
    sent: nat,
    outgoing: seq<Outgoing>,
    queued: bool,
    finishQueued: bool,
    inbound: seq<Bytes>,
    received: nat,
    consumed: nat,
    announced: nat,
    peerFinished: bool,
    answer: Option<Option<nat>>,
    failure: Option<StreamFailure>,
    handleAlive: bool)
  {
    /** Nothing more can happen once the handle is gone and the last queued frame left. */
    predicate Finished() {
      !handleAlive && outgoing == []
    }

    function Available(): nat {
      if limit > sent then limit - sent else 0
    }
  }

  const NewEntry: Entry :=
    Entry(STREAM_WINDOW, 0, [], false, false, [], 0, 0, STREAM_WINDOW, false, None, None, true)

  /** Everything one end of a connection keeps under its lock. */
  datatype State = State(
    streams: map<nat, Entry>,
    highest: nat,
    control: seq<Message>,
    ready: seq<nat>,
    closed: Option<string>)

  const NewState: State := State(map[], 0, [], [], None)

  // ----- What happens to one entry -----

  function Enqueue(e: Entry, item: Outgoing): Entry {
    e.(outgoing := e.outgoing + [item], queued := true)
  }

  function WriteEntry(e: Entry, chunk: Bytes): Entry {
    Enqueue(e, OutData(chunk)).(sent := e.sent + |chunk|)
  }

  function FinishEntry(e: Entry): Entry {
    Enqueue(e, OutFinish).(finishQueued := true)
  }

  function FailEntry(e: Entry, failure: StreamFailure): Entry {
    e.(outgoing := [], failure := Some(failure))
  }

  /** The peer ended the Stream: an earlier failure keeps its cause. */
  function HearFailure(e: Entry, failure: StreamFailure): Entry {
    FailEntry(e, if e.failure.Some? then e.failure.value else failure)
  }

  /** Whether so much was read since the last grant that the peer must be granted more. */
  predicate CreditDue(e: Entry) {
    !e.peerFinished && e.consumed + STREAM_WINDOW >= e.announced + STREAM_WINDOW / 4
  }

  function ReadEntry(e: Entry): Entry
    requires e.inbound != []
  {
    var e := e.(inbound := e.inbound[1..], consumed := e.consumed + |e.inbound[0]|);
    if CreditDue(e) then e.(announced := e.consumed + STREAM_WINDOW) else e
  }

  predicate ReadGrants(e: Entry)
    requires e.inbound != []
  {
    CreditDue(e.(inbound := e.inbound[1..], consumed := e.consumed + |e.inbound[0]|))
  }

  function DropEntry(e: Entry): Entry {
    e.(handleAlive := false, inbound := [])
  }

  /** The entry after its first queued item was taken. */
  function TakeEntry(e: Entry): Entry
    requires e.outgoing != []
  {
    e.(outgoing := e.outgoing[1..], queued := |e.outgoing| > 1)
  }

  /** Whether bytes from the peer are dropped unseen: the Stream failed or the peer said it finished. */
  predicate Deaf(e: Entry) {
    e.failure.Some? || e.peerFinished
  }

  function HearData(e: Entry, data: Bytes): Entry {
    var e := e.(received := e.received + |data|);
    if e.handleAlive then e.(inbound := e.inbound + [data]) else e
  }

  function ToMessage(id: nat, item: Outgoing): Message {
    match item
    case OutData(data) => Data(id, data)
    case OutFinish => Finish(id)
  }

  // ----- What happens to one end -----

  /** Stores `e`, or removes the Stream when nothing more can happen on it. */
  function Settle(streams: map<nat, Entry>, id: nat, e: Entry): map<nat, Entry> {
    if e.Finished() then streams - {id} else streams[id := e]
  }

  function CloseState(st: State, reason: string): State {
    if st.closed.None? then st.(closed := Some(reason)) else st
  }

  function Failing(st: State, id: nat): Option<StreamFailure> {
    match st.closed
    case Some(reason) => Some(StreamFailure(Other, reason))
    case None => if id in st.streams then st.streams[id].failure else None
  }

  function OpenStream(st: State, target: StreamTarget): Result<State, StreamFailure> {
    if st.closed.Some? then Err(StreamFailure(Other, st.closed.value))
    else if |st.streams| >= MAX_STREAMS then Err(StreamFailure(TooManyStreams, ""))
    else
      var id := st.highest + 1;
      Ok(st.(highest := id,
             streams := st.streams[id := NewEntry],
             control := st.control + [Open(id, target)]))
  }

  function Accept(st: State, id: nat, size: Option<nat>): State {
    if st.closed.Some? then st else st.(control := st.control + [Opened(id, size)])
  }

  function Refuse(st: State, id: nat, error: StreamError, detail: string): State {
    if st.closed.Some? then st
    else
      var st := st.(control := st.control + [OpenFailed(id, error, detail)]);
      if id in st.streams then
        st.(streams := st.streams[id := FailEntry(st.streams[id], StreamFailure(error, detail))])
      else st
  }

  /** A Stream joins the ready line last, and only once. */
  function MakeReady(ready: seq<nat>, id: nat, queued: bool): seq<nat> {
    if queued then ready else ready + [id]
  }

  datatype WriteOutcome =
    | WriteBlocked
    | WriteFailed(failure: StreamFailure)
    | Took(count: nat, state: State)

  function ChunkSize(e: Entry, length: nat): nat {
    Min(Min(length, MAX_STREAM_CHUNK), e.Available())
  }

  /** One turn of `write`'s loop: takes what the peer's credit allows of `rest`. */
  function Write(st: State, id: nat, rest: Bytes): WriteOutcome
    requires id in st.streams
  {
    var failing := Failing(st, id);
    var e := st.streams[id];
    if failing.Some? then WriteFailed(failing.value)
    else if e.finishQueued then WriteFailed(StreamFailure(Other, "written after finish"))
    else if e.Available() == 0 then WriteBlocked
    else
      var take := ChunkSize(e, |rest|);
      Took(take, st.(streams := st.streams[id := WriteEntry(e, rest[..take])],
                     ready := MakeReady(st.ready, id, e.queued)))
  }

  datatype ReadOutcome =
    | ReadBlocked
    | ReadFailed(failure: StreamFailure)
    | ReadEnd
    | Chunk(data: Bytes, state: State)

  /** One look of `read` at its Stream: a chunk, the end, a failure, or nothing yet. */
  function Read(st: State, id: nat): ReadOutcome
    requires id in st.streams
  {
    var e := st.streams[id];
    if e.inbound != [] then
      var e' := ReadEntry(e);
      Chunk(e.inbound[0],
            st.(streams := st.streams[id := e'],
                control := if ReadGrants(e) then st.control + [Credit(id, e'.announced)] else st.control))
    else if e.peerFinished then ReadEnd
    else
      var failing := Failing(st, id);
      if failing.Some? then ReadFailed(failing.value) else ReadBlocked
  }

  function FinishStream(st: State, id: nat): State {
    if id !in st.streams then st
    else
      var e := st.streams[id];
      if e.finishQueued || e.failure.Some? then st
      else st.(streams := st.streams[id := FinishEntry(e)],
               ready := MakeReady(st.ready, id, e.queued))
  }

  function ResetStream(st: State, id: nat, error: StreamError, detail: string): State {
    if id !in st.streams || st.streams[id].failure.Some? then st
    else
      st.(streams := st.streams[id := FailEntry(st.streams[id], StreamFailure(error, detail))],
          control := if st.closed.None? then st.control + [Reset(id, error, detail)] else st.control)
  }

  /** Whether dropping the handle now abandons a Stream that still had something to do. */
  predicate DropResets(e: Entry) {
    !(e.finishQueued && e.peerFinished) && e.failure.None?
  }

  function DropStream(st: State, id: nat): State {
    if id !in st.streams then st
    else
      var st := if DropResets(st.streams[id]) then ResetStream(st, id, Cancelled, "") else st;
      st.(streams := Settle(st.streams, id, DropEntry(st.streams[id])))
  }

  datatype Taken = Taken(message: Option<Message>, state: State)

  /** The writer's look at the ready line: stale ids fall out, and the first Stream with an item gives it up. */
  function NextData(st: State): Taken
    decreases |st.ready|
  {
    if st.ready == [] then Taken(None, st)
    else
      var id, rest := st.ready[0], st.ready[1..];
      if id !in st.streams then NextData(st.(ready := rest))
      else
        var e := st.streams[id];
        if e.outgoing == [] then
          NextData(st.(ready := rest, streams := st.streams[id := e.(queued := false)]))
        else
          Taken(Some(ToMessage(id, e.outgoing[0])),
                st.(ready := if |e.outgoing| > 1 then rest + [id] else rest,
                    streams := Settle(st.streams, id, TakeEntry(e))))
  }

  /** What the writer thread sends next on an open connection: control goes ahead of data. */
  function NextMessage(st: State): Taken {
    if st.control != [] then Taken(Some(st.control[0]), st.(control := st.control[1..]))
    else NextData(st)
  }

  /** Only numbers up to the highest ever used name a Stream. */
  predicate WasOpened(st: State, id: nat) {
    0 < id <= st.highest
  }

  /** Why the Server refuses an `Open` by itself, if it does. */
  function Refusal(st: State, target: StreamTarget): Option<StreamError> {
    if target.UnknownTarget? then Some(Unsupported)
    else if |st.streams| >= MAX_STREAMS then Some(TooManyStreams)
    else None
  }

  /** The state after a frame was heard, or how the frame broke the protocol. */
  function Receive(side: Side, st: State, message: Message): Result<State, string> {
    match message
    case UnknownMessage => Ok(st)
    case Pong => if side.Client? then Ok(st) else Err("Server received Pong")
    case Ping =>
      if side.Server? then Ok(st.(control := st.control + [Pong])) else Err("Client received Ping")
    case Close => Err("Close is not a frame of a Stream")
    case Open(id, target) =>
      if side.Client? then Err("Client received Open")
      else if id <= st.highest then Err("the stream was opened before")
      else
        var refusal := Refusal(st, target);
        if refusal.Some? then
          Ok(st.(highest := id, control := st.control + [OpenFailed(id, refusal.value, "")]))
        else
          Ok(st.(highest := id, streams := st.streams[id := NewEntry]))
    case Opened(id, size) =>
      if side.Server? then Err("Server received Opened")
      else if !WasOpened(st, id) then Err("the stream was never opened")
      else if id !in st.streams then Ok(st)
      else Ok(st.(streams := st.streams[id := st.streams[id].(answer := Some(size))]))
    case OpenFailed(id, error, detail) =>
      if side.Server? then Err("Server received OpenFailed")
      else ReceiveFailure(st, id, StreamFailure(error, detail))
    case Data(id, data) =>
      if !WasOpened(st, id) then Err("the stream was never opened")
      else if id !in st.streams || Deaf(st.streams[id]) then Ok(st)
      else
        var e := st.streams[id];
        if e.received + |data| > e.announced then Err("the stream sent beyond its credit")
        else Ok(st.(streams := st.streams[id := HearData(e, data)]))
    case Credit(id, maxOffset) =>
      if !WasOpened(st, id) then Err("the stream was never opened")
      else if id !in st.streams then Ok(st)
      else
        var e := st.streams[id];
        Ok(st.(streams := st.streams[id := e.(limit := Max(e.limit, maxOffset))]))
    case Finish(id) =>
      if !WasOpened(st, id) then Err("the stream was never opened")
      else if id !in st.streams then Ok(st)
      else Ok(st.(streams := st.streams[id := st.streams[id].(peerFinished := true)]))
    case Reset(id, error, detail) =>
      ReceiveFailure(st, id, StreamFailure(error, detail))
  }

  function ReceiveFailure(st: State, id: nat, failure: StreamFailure): Result<State, string> {
    if !WasOpened(st, id) then Err("the stream was never opened")
    else if id !in st.streams then Ok(st)
    else Ok(st.(streams := Settle(st.streams, id, HearFailure(st.streams[id], failure))))
  }

  /** Whether hearing `message` wakes whoever waits at this end: it may have changed something for them. */
  predicate HearingWakes(side: Side, st: State, message: Message) {
    Receive(side, st, message).Ok?
    && match message
       case Open(_, target) => Refusal(st, target).Some?
       case Opened(id, _) => id in st.streams
       case OpenFailed(id, _, _) => id in st.streams
       case Data(id, _) => id in st.streams && !Deaf(st.streams[id])
       case Credit(id, _) => id in st.streams
       case Finish(id) => id in st.streams
       case Reset(id, _, _) => id in st.streams
       case Ping => true
       case _ => false
  }
}

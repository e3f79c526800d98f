/**
 Two ends of a Stream connection joined by two FIFO wires. Every locked section of either
 engine, every write and read of its two threads, and every failure of the transport is one
 action; a run is any sequence of them. `RunsKeepInvariant` is the invariant of all runs.
 */
module StreamRuns {
  import opened Wrappers
  import opened Sequences
  import opened Streams
  import opened StreamLanes
  import opened StreamScheduling

  /** One end, with the handles its callers hold, what it put on the wire, and its history. */
  datatype End = End(
    state: State,
    handles: set<nat>,
    wire: seq<Message>,
    hist: map<nat, History>)

  datatype System = System(client: End, server: End)

  datatype Action =
    | DoOpen(target: StreamTarget)
    | DoAccept(id: nat, size: Option<nat>)
    | DoRefuse(id: nat, error: StreamError, detail: string)
    | DoWrite(id: nat, rest: Bytes)
    | DoRead(id: nat)
    | DoFinish(id: nat)
    | DoReset(id: nat, error: StreamError, detail: string)
    | DoDrop(id: nat)
    | DoTransmit
    | DoPing
    | DoLose
    | DoClose(reason: string)
    | DoReceive

  function HistOf(x: End, id: nat): History {
    if id in x.hist then x.hist[id] else NoHistory
  }

  function GiveUp(x: End, id: nat): map<nat, History> {
    x.hist[id := HistOf(x, id).(gaveUp := true)]
  }

  // ----- The steps -----

  function Opens(x: End, target: StreamTarget): End {
    match OpenStream(x.state, target)
    case Ok(st) => x.(state := st, handles := x.handles + {st.highest})
    case Err(_) => x
  }

  function Accepts(x: End, id: nat, size: Option<nat>): End {
    x.(state := Accept(x.state, id, size))
  }

  function Refuses(x: End, id: nat, error: StreamError, detail: string): End {
    x.(state := Refuse(x.state, id, error, detail),
       hist := if x.state.closed.None? then GiveUp(x, id) else x.hist)
  }

  function Writes(x: End, id: nat, rest: Bytes): End
    requires id in x.state.streams
  {
    match Write(x.state, id, rest)
    case Took(count, st) =>
      var h := HistOf(x, id);
      var taken := rest[..ChunkSize(x.state.streams[id], |rest|)];
      x.(state := st, hist := x.hist[id := h.(accepted := h.accepted + taken)])
    case _ => x
  }

  function Reads(x: End, id: nat): End
    requires id in x.state.streams
  {
    match Read(x.state, id)
    case Chunk(data, st) =>
      var h := HistOf(x, id);
      var more := if ReadGrants(x.state.streams[id]) then 1 else 0;
      x.(state := st,
         hist := x.hist[id := h.(delivered := h.delivered + data, credits := h.credits + more)])
    case _ => x
  }

  function Finishes(x: End, id: nat): End {
    x.(state := FinishStream(x.state, id))
  }

  function Resets(x: End, id: nat, error: StreamError, detail: string): End
    requires id in x.state.streams
  {
    x.(state := ResetStream(x.state, id, error, detail),
       hist := if x.state.streams[id].failure.None? then GiveUp(x, id) else x.hist)
  }

  function Drops(x: End, id: nat): End
    requires id in x.state.streams
  {
    x.(state := DropStream(x.state, id),
       handles := x.handles - {id},
       hist := if DropResets(x.state.streams[id]) then GiveUp(x, id) else x.hist)
  }

  function Sends(x: End, m: Message): End {
    x.(wire := x.wire + [m])
  }

  /** The writer thread: a closed connection says so, an open one sends what is next. */
  function Transmits(x: End): End {
    if x.state.closed.Some? then Sends(x, Close)
    else
      var next := NextMessage(x.state);
      var x := x.(state := next.state);
      if next.message.Some? then Sends(x, next.message.value) else x
  }

  /** The transport refuses the writer's frame: it is gone, and the connection closes. */
  function Loses(x: End): End {
    if x.state.closed.Some? then x
    else x.(state := CloseState(NextMessage(x.state).state, "write failed"))
  }

  function Closes(x: End, reason: string): End {
    x.(state := CloseState(x.state, reason))
  }

  /** `x`'s reader takes the oldest message off `y`'s wire. A violation closes the connection. */
  function Hears(side: Side, x: End, m: Message): End {
    if m.Close? then Closes(x, "the device closed the connection")
    else
      match Receive(side, x.state, m)
      case Ok(st) => x.(state := st, handles := x.handles + (st.streams.Keys - x.state.streams.Keys))
      case Err(reason) => Closes(x, "protocol error: " + reason)
  }

  /** Whether the caller may take `a` at this end: it must hold the handle, and answer only as the Server. */
  predicate Allowed(side: Side, x: End, a: Action) {
    match a
    case DoOpen(_) => side.Client?
    case DoAccept(id, _) => side.Server? && id in x.handles
    case DoRefuse(id, _, _) => side.Server? && id in x.handles
    case DoWrite(id, rest) => id in x.handles && rest != []
    case DoRead(id) => id in x.handles
    case DoFinish(id) => id in x.handles
    case DoReset(id, _, _) => id in x.handles
    case DoDrop(id) => id in x.handles
    case DoPing => side.Client? && x.state.closed.None?
    case _ => true
  }

  /** Whether the step looks up an entry that its caller's handle promises. */
  predicate NeedsEntry(a: Action) {
    a.DoWrite? || a.DoRead? || a.DoReset? || a.DoDrop?
  }

  /** One end's own step; `DoReceive` also takes from the peer's wire and is `Step`'s. */
  function Act(x: End, a: Action): End
    requires NeedsEntry(a) ==> a.id in x.state.streams
  {
    match a
    case DoOpen(target) => Opens(x, target)
    case DoAccept(id, size) => Accepts(x, id, size)
    case DoRefuse(id, error, detail) => Refuses(x, id, error, detail)
    case DoWrite(id, rest) => Writes(x, id, rest)
    case DoRead(id) => Reads(x, id)
    case DoFinish(id) => Finishes(x, id)
    case DoReset(id, error, detail) => Resets(x, id, error, detail)
    case DoDrop(id) => Drops(x, id)
    case DoTransmit => Transmits(x)
    case DoPing => Sends(x, Ping)
    case DoLose => Loses(x)
    case DoClose(reason) => Closes(x, reason)
    case DoReceive => x
  }

  function Get(sys: System, side: Side): End {
    if side.Client? then sys.client else sys.server
  }

  function Peer(side: Side): Side {
    if side.Client? then Server else Client
  }

  function Put(side: Side, x: End, y: End): System {
    if side.Client? then System(x, y) else System(y, x)
  }

  /** The handles point at entries, so no `expect` of the engine can fail. */
  ghost predicate HandlesLive(x: End) {
    forall id :: id in x.handles <==> id in x.state.streams && x.state.streams[id].handleAlive
  }

  /**
   One step of the two ends. An action that is not allowed does nothing. Neither does one whose
   entry is missing, where the engine would panic; `NothingLeaks` proves there is none.
   */
  function Step(sys: System, side: Side, a: Action): System {
    var x, y := Get(sys, side), Get(sys, Peer(side));
    if !Allowed(side, x, a) || (NeedsEntry(a) && a.id !in x.state.streams) then sys
    else if a.DoReceive? then
      if y.wire == [] then sys
      else Put(side, Hears(side, x, y.wire[0]), y.(wire := y.wire[1..]))
    else Put(side, Act(x, a), y)
  }

  // ----- One Stream's view of an end -----

  /** The messages among `messages` that belong to Stream `id`. */
  function For(messages: seq<Message>, id: nat): seq<Message> {
    if messages == [] then []
    else (if messages[0].Names(id) then [messages[0]] else []) + For(messages[1..], id)
  }

  lemma {:induction false} ForConcat(a: seq<Message>, b: seq<Message>, id: nat)
    ensures For(a + b, id) == For(a, id) + For(b, id)
  {
    if a == [] {
      assert a + b == b;
    } else {
      ForConcat(a[1..], b, id);
      assert (a + b)[1..] == a[1..] + b;
      Associates(if a[0].Names(id) then [a[0]] else [], For(a[1..], id), For(b, id));
    }
  }

  lemma ForPush(messages: seq<Message>, m: Message, id: nat)
    ensures For(messages + [m], id) == For(messages, id) + (if m.Names(id) then [m] else [])
  {
    ForConcat(messages, [m], id);
    assert For([], id) == [];
    assert [m][1..] == [];
  }

  function SlotOf(st: State, id: nat): Slot {
    if id in st.streams then Live(st.streams[id])
    else if id > st.highest then Unborn
    else Dead
  }

  function Lane(x: End, id: nat): LaneEnd {
    LaneEnd(SlotOf(x.state, id), For(x.state.control, id), For(x.wire, id),
            x.state.closed.None?, HistOf(x, id))
  }

  ghost predicate Lanes(x: End, y: End) {
    forall id {:trigger Lane(x, id)} {:trigger Lane(y, id)} :: 0 < id ==> Pair(Lane(x, id), Lane(y, id))
  }

  // ----- What an end and the wires keep -----

  predicate Sendable(side: Side, m: Message) {
    match m
    case Open(_, _) => side.Client?
    case Ping => side.Client?
    case Opened(_, _) => side.Server?
    case OpenFailed(_, _, _) => side.Server?
    case Pong => side.Server?
    case UnknownMessage => false
    case _ => true
  }

  ghost predicate EndInv(side: Side, x: End) {
    && Consistent(x.state)
    && HandlesLive(x)
    && (forall k :: 0 <= k < |x.wire| ==> Sendable(side, x.wire[k]))
    && (forall k :: 0 <= k < |x.state.control| ==> Sendable(side, x.state.control[k]) && !x.state.control[k].Close?)
  }

  predicate Addresses(m: Message, highest: nat) {
    m.NamesStream() ==> 0 < m.stream <= highest
  }

  /** The highest Stream number after `messages`, or nothing when one names an unopened Stream. */
  function Numbered(highest: nat, messages: seq<Message>): Option<nat>
    decreases |messages|
  {
    if messages == [] then Some(highest)
    else if messages[0].Open? then
      if messages[0].stream == highest + 1 then Numbered(highest + 1, messages[1..]) else None
    else if Addresses(messages[0], highest) then Numbered(highest, messages[1..])
    else None
  }

  lemma {:induction false} NumberedConcat(highest: nat, a: seq<Message>, b: seq<Message>)
    ensures Numbered(highest, a + b)
         == if Numbered(highest, a).None? then None else Numbered(Numbered(highest, a).value, b)
    decreases |a|
  {
    if a == [] {
      assert a + b == b;
    } else {
      assert (a + b)[1..] == a[1..] + b;
      NumberedConcat(if a[0].Open? then highest + 1 else highest, a[1..], b);
    }
  }

  lemma {:induction false} NumberedGrows(highest: nat, messages: seq<Message>)
    ensures Numbered(highest, messages).Some? ==> highest <= Numbered(highest, messages).value
    decreases |messages|
  {
    if messages != [] {
      NumberedGrows(if messages[0].Open? then highest + 1 else highest, messages[1..]);
    }
  }

  /** What an open end will put on the wire before any data. */
  function OnTheWay(x: End): seq<Message> {
    x.wire + (if x.state.closed.None? then x.state.control else [])
  }

  predicate Numbering(client: End, server: End) {
    var last := Numbered(server.state.highest, OnTheWay(client));
    && last.Some?
    && last.value <= client.state.highest
    && (client.state.closed.None? ==> last.value == client.state.highest)
    && (forall k :: 0 <= k < |server.wire| ==> Addresses(server.wire[k], server.state.highest))
    && (forall k :: 0 <= k < |server.state.control| ==> Addresses(server.state.control[k], server.state.highest))
  }

  ghost predicate Inv(sys: System) {
    && EndInv(Client, sys.client)
    && EndInv(Server, sys.server)
    && Numbering(sys.client, sys.server)
    && Lanes(sys.client, sys.server)
  }

  // ----- Every step keeps every lane -----

  lemma OpensLanes(x: End, y: End, target: StreamTarget)
    requires Lanes(x, y) && Consistent(x.state) && Consistent(y.state)
    requires y.state.highest <= x.state.highest
    ensures Lanes(Opens(x, target), y)
  {
    if OpenStream(x.state, target).Ok? {
      var id := x.state.highest + 1;
      var x', m := Opens(x, target), Open(id, target);
      forall i | 0 < i ensures Pair(Lane(x', i), Lane(y, i)) {
        ForPush(x.state.control, m, i);
        if i == id {
          assert id !in x.state.streams && id !in y.state.streams;
          assert Lane(x', i) == OpenLane(Lane(x, i), m);
          OpenKeeps(Lane(x, i), Lane(y, i), m);
        } else {
          assert Lane(x', i) == Lane(x, i);
        }
      }
    }
  }

  lemma PushLanes(x: End, y: End, m: Message)
    requires Lanes(x, y) && Neutral(m) && (m.NamesStream() ==> m.stream in x.state.streams)
    ensures Lanes(x.(state := x.state.(control := x.state.control + [m])), y)
  {
    var x' := x.(state := x.state.(control := x.state.control + [m]));
    forall i | 0 < i ensures Pair(Lane(x', i), Lane(y, i)) {
      ForPush(x.state.control, m, i);
      var l := Lane(x, i);
      if m.Names(i) {
        assert Lane(x', i) == l.(control := l.control + [m]);
        PushNeutral(l, Lane(y, i), m);
      } else {
        assert Lane(x', i) == l;
      }
    }
  }

  lemma AcceptsLanes(x: End, y: End, id: nat, size: Option<nat>)
    requires Lanes(x, y) && id in x.state.streams
    ensures Lanes(Accepts(x, id, size), y)
  {
    PushLanes(x, y, Opened(id, size));
  }

  lemma RefusesLanes(x: End, y: End, id: nat, error: StreamError, detail: string)
    requires Lanes(x, y) && id in x.state.streams && x.state.streams[id].handleAlive
    ensures Lanes(Refuses(x, id, error, detail), y)
  {
    var x', m := Refuses(x, id, error, detail), OpenFailed(id, error, detail);
    if x.state.closed.None? {
      forall i | 0 < i ensures Pair(Lane(x', i), Lane(y, i)) {
        ForPush(x.state.control, m, i);
        if i == id {
          assert Lane(x', i) == AbandonLane(Lane(x, i), m, StreamFailure(error, detail));
          AbandonKeeps(Lane(x, i), Lane(y, i), m, StreamFailure(error, detail));
        } else {
          assert Lane(x', i) == Lane(x, i);
        }
      }
    }
  }

  lemma WritesLanes(x: End, y: End, id: nat, rest: Bytes)
    requires Lanes(x, y) && id in x.state.streams && x.state.streams[id].handleAlive
    ensures Lanes(Writes(x, id, rest), y)
  {
    if Write(x.state, id, rest).Took? {
      var chunk := rest[..ChunkSize(x.state.streams[id], |rest|)];
      var x' := Writes(x, id, rest);
      forall i | 0 < i ensures Pair(Lane(x', i), Lane(y, i)) {
        if i == id {
          assert Lane(x', i) == WriteLane(Lane(x, i), chunk);
          WriteKeeps(Lane(x, i), Lane(y, i), chunk);
        } else {
          assert Lane(x', i) == Lane(x, i);
        }
      }
    }
  }

  lemma ReadsLanes(x: End, y: End, id: nat)
    requires Lanes(x, y) && id in x.state.streams && x.state.streams[id].handleAlive
    ensures Lanes(Reads(x, id), y)
  {
    if Read(x.state, id).Chunk? {
      var m := Credit(id, ReadEntry(x.state.streams[id]).announced);
      var x' := Reads(x, id);
      forall i | 0 < i ensures Pair(Lane(x', i), Lane(y, i)) {
        ForPush(x.state.control, m, i);
        if i == id {
          assert Lane(x', i) == ReadLane(Lane(x, i), m);
          ReadKeeps(Lane(x, i), Lane(y, i), m);
        } else {
          assert Lane(x', i) == Lane(x, i);
        }
      }
    }
  }

  lemma FinishesLanes(x: End, y: End, id: nat)
    requires Lanes(x, y) && id in x.state.streams && x.state.streams[id].handleAlive
    ensures Lanes(Finishes(x, id), y)
  {
    var e := x.state.streams[id];
    if !e.finishQueued && e.failure.None? {
      var x' := Finishes(x, id);
      forall i | 0 < i ensures Pair(Lane(x', i), Lane(y, i)) {
        if i == id {
          assert Lane(x', i) == FinishLane(Lane(x, i));
          FinishKeeps(Lane(x, i), Lane(y, i));
        } else {
          assert Lane(x', i) == Lane(x, i);
        }
      }
    }
  }

  lemma ResetLane(x: End, id: nat, error: StreamError, detail: string, i: nat)
    requires id in x.state.streams && x.state.streams[id].failure.None?
    ensures Lane(Resets(x, id, error, detail), i)
         == if i == id then AbandonLane(Lane(x, i), Reset(id, error, detail), StreamFailure(error, detail))
            else Lane(x, i)
  {
    ForPush(x.state.control, Reset(id, error, detail), i);
  }

  lemma ResetsLanes(x: End, y: End, id: nat, error: StreamError, detail: string)
    requires Lanes(x, y) && id in x.state.streams && x.state.streams[id].handleAlive
    ensures Lanes(Resets(x, id, error, detail), y)
  {
    if x.state.streams[id].failure.None? {
      forall i | 0 < i ensures Pair(Lane(Resets(x, id, error, detail), i), Lane(y, i)) {
        ResetLane(x, id, error, detail, i);
        if i == id {
          AbandonKeeps(Lane(x, i), Lane(y, i), Reset(id, error, detail), StreamFailure(error, detail));
        }
      }
    }
  }

  /** Dropping a handle is giving the Stream up first, if it was not complete, and then letting go. */
  lemma DroppedLane(x: End, id: nat, i: nat)
    requires Consistent(x.state) && id in x.state.streams
    ensures var x1 := if DropResets(x.state.streams[id]) then Resets(x, id, Cancelled, "") else x;
            Lane(Drops(x, id), i) == if i == id then DropLane(Lane(x1, i)) else Lane(x1, i)
  {
    assert EntryConsistent(x.state, id);
  }

  lemma DropsLanes(x: End, y: End, id: nat)
    requires Lanes(x, y) && Consistent(x.state) && id in x.state.streams && x.state.streams[id].handleAlive
    ensures Lanes(Drops(x, id), y)
  {
    var x1 := if DropResets(x.state.streams[id]) then Resets(x, id, Cancelled, "") else x;
    ResetsLanes(x, y, id, Cancelled, "");
    forall i | 0 < i ensures Pair(Lane(Drops(x, id), i), Lane(y, i)) {
      DroppedLane(x, id, i);
      if i == id {
        DropKeeps(Lane(x1, i), Lane(y, i));
      }
    }
  }

  lemma SendsLanes(x: End, y: End, m: Message)
    requires Lanes(x, y) && !m.NamesStream()
    ensures Lanes(Sends(x, m), y)
  {
    forall i | 0 < i ensures Pair(Lane(Sends(x, m), i), Lane(y, i)) {
      ForPush(x.wire, m, i);
      assert Lane(Sends(x, m), i) == Lane(x, i);
    }
  }

  lemma TransmittedLane(x: End, i: nat)
    requires x.state.closed.None? && x.state.control != []
    ensures x.state.control[0].Names(i) ==>
              Lane(x, i).open && Lane(x, i).control != [] && Lane(Transmits(x), i) == TransmitControlLane(Lane(x, i))
    ensures !x.state.control[0].Names(i) ==> Lane(Transmits(x), i) == Lane(x, i)
  {
    ForPush(x.wire, x.state.control[0], i);
  }

  lemma TransmitsControlLanes(x: End, y: End)
    requires Lanes(x, y) && x.state.closed.None? && x.state.control != []
    ensures Lanes(Transmits(x), y)
  {
    forall i | 0 < i ensures Pair(Lane(Transmits(x), i), Lane(y, i)) {
      TransmittedLane(x, i);
      if x.state.control[0].Names(i) {
        TransmitControlKeeps(Lane(x, i), Lane(y, i));
      }
    }
  }

  lemma SkipLanes(x: End, y: End)
    requires Lanes(x, y) && Skips(x.state)
    ensures Lanes(x.(state := SkipFront(x.state)), y)
  {
    var id := x.state.ready[0];
    var x' := x.(state := SkipFront(x.state));
    forall i | 0 < i ensures Pair(Lane(x', i), Lane(y, i)) {
      if i == id && id in x.state.streams {
        TouchKeeps(Lane(x, i), Lane(y, i), x.state.streams[id].(queued := false));
      } else {
        assert Lane(x', i) == Lane(x, i);
      }
    }
  }

  /** The front Stream's next item leaves. */
  lemma ServedEnd(x: End)
    requires x.state.closed.None? && x.state.control == [] && x.state.ready != [] && !Skips(x.state)
    ensures var st, x' := x.state, Transmits(x);
            var id := st.ready[0];
            && x'.state.streams == Settle(st.streams, id, TakeEntry(st.streams[id]))
            && x'.state.control == [] && x'.state.highest == st.highest && x'.state.closed.None?
            && x'.wire == x.wire + [ToMessage(id, st.streams[id].outgoing[0])] && x'.hist == x.hist
  {
  }

  lemma ServedLane(x: End, i: nat)
    requires Consistent(x.state) && x.state.closed.None? && x.state.control == []
    requires x.state.ready != [] && !Skips(x.state)
    ensures var id := x.state.ready[0];
            var l := Lane(x, i);
            && (i == id ==> l.slot.Live? && l.slot.entry.outgoing != [] && l.open && l.control == []
                            && Lane(Transmits(x), i) == TransmitDataLane(l, ToMessage(id, l.slot.entry.outgoing[0])))
            && (i != id ==> Lane(Transmits(x), i) == l)
  {
    var id := x.state.ready[0];
    assert EntryConsistent(x.state, id);
    ServedEnd(x);
    ForPush(x.wire, ToMessage(id, x.state.streams[id].outgoing[0]), i);
  }

  lemma ServeLanes(x: End, y: End)
    requires Lanes(x, y) && Consistent(x.state) && x.state.closed.None? && x.state.control == []
    requires x.state.ready != [] && !Skips(x.state)
    ensures Lanes(Transmits(x), y)
  {
    var id := x.state.ready[0];
    forall i | 0 < i ensures Pair(Lane(Transmits(x), i), Lane(y, i)) {
      var l := Lane(x, i);
      ServedLane(x, i);
      if i == id {
        TransmitDataKeeps(l, Lane(y, i), ToMessage(id, l.slot.entry.outgoing[0]));
      }
    }
  }

  lemma {:induction false} TransmitsLanes(x: End, y: End)
    requires Lanes(x, y) && Consistent(x.state)
    ensures Lanes(Transmits(x), y)
    decreases |x.state.ready|
  {
    if x.state.closed.Some? {
      SendsLanes(x, y, Close);
    } else if x.state.control != [] {
      TransmitsControlLanes(x, y);
    } else if x.state.ready != [] {
      if Skips(x.state) {
        SkipLanes(x, y);
        SkipConsistent(x.state);
        TransmitsLanes(x.(state := SkipFront(x.state)), y);
      } else {
        ServeLanes(x, y);
      }
    }
  }

  lemma ClosesLanes(x: End, y: End, reason: string)
    requires Lanes(x, y)
    ensures Lanes(Closes(x, reason), y)
  {
    forall i | 0 < i ensures Pair(Lane(Closes(x, reason), i), Lane(y, i)) {
      assert Lane(Closes(x, reason), i) == CloseLane(Lane(x, i));
      CloseKeeps(Lane(x, i), Lane(y, i));
    }
  }

  lemma LosesControlLanes(x: End, y: End)
    requires Lanes(x, y) && x.state.closed.None? && x.state.control != []
    ensures Lanes(Loses(x), y)
  {
    var x' := Loses(x);
    forall i | 0 < i ensures Pair(Lane(x', i), Lane(y, i)) {
      if x.state.control[0].Names(i) {
        assert Lane(x', i) == CloseLane(Lane(x, i).(control := Lane(x, i).control[1..]));
        LoseControlKeeps(Lane(x, i), Lane(y, i));
      } else {
        assert Lane(x', i) == CloseLane(Lane(x, i));
        CloseKeeps(Lane(x, i), Lane(y, i));
      }
    }
  }

  lemma LostLane(x: End, i: nat)
    requires Consistent(x.state) && x.state.closed.None? && x.state.control == []
    requires x.state.ready != [] && !Skips(x.state)
    ensures var l := Lane(x, i);
            && (i == x.state.ready[0] ==>
                  l.slot.Live? && l.slot.entry.outgoing != [] && Lane(Loses(x), i) == CloseLane(TakeLane(l)))
            && (i != x.state.ready[0] ==> Lane(Loses(x), i) == CloseLane(l))
  {
    assert EntryConsistent(x.state, x.state.ready[0]);
  }

  lemma LosesServedLanes(x: End, y: End)
    requires Lanes(x, y) && Consistent(x.state) && x.state.closed.None? && x.state.control == []
    requires x.state.ready != [] && !Skips(x.state)
    ensures Lanes(Loses(x), y)
  {
    forall i | 0 < i ensures Pair(Lane(Loses(x), i), Lane(y, i)) {
      LostLane(x, i);
      if i == x.state.ready[0] {
        LoseDataKeeps(Lane(x, i), Lane(y, i));
      } else {
        CloseKeeps(Lane(x, i), Lane(y, i));
      }
    }
  }

  lemma {:induction false} LosesLanes(x: End, y: End)
    requires Lanes(x, y) && Consistent(x.state)
    ensures Lanes(Loses(x), y)
    decreases |x.state.ready|
  {
    if x.state.closed.None? {
      if x.state.control != [] {
        LosesControlLanes(x, y);
      } else if x.state.ready == [] {
        ClosesLanes(x, y, "write failed");
      } else if Skips(x.state) {
        SkipLanes(x, y);
        SkipConsistent(x.state);
        LosesLanes(x.(state := SkipFront(x.state)), y);
      } else {
        LosesServedLanes(x, y);
      }
    }
  }

  // ----- Every received message keeps every lane -----

  function Rest(y: End): End
    requires y.wire != []
  {
    y.(wire := y.wire[1..])
  }

  lemma RestLane(y: End, i: nat)
    requires y.wire != [] && !y.wire[0].Names(i)
    ensures Lane(Rest(y), i) == Lane(y, i)
  {
  }

  /** A message for no Stream moves none: it may close the connection or queue an answer. */
  lemma ConnectionLane(side: Side, x: End, m: Message, i: nat)
    requires !m.NamesStream()
    ensures Lane(Hears(side, x, m), i) == Lane(x, i) || Lane(Hears(side, x, m), i) == CloseLane(Lane(x, i))
  {
    ForPush(x.state.control, Pong, i);
  }

  lemma HearsConnectionLanes(side: Side, x: End, y: End)
    requires Lanes(x, y) && y.wire != [] && !y.wire[0].NamesStream()
    ensures Lanes(Hears(side, x, y.wire[0]), Rest(y))
  {
    forall i | 0 < i ensures Pair(Lane(Hears(side, x, y.wire[0]), i), Lane(Rest(y), i)) {
      RestLane(y, i);
      ConnectionLane(side, x, y.wire[0], i);
      CloseKeeps(Lane(x, i), Lane(y, i));
    }
  }

  /** The Server takes or refuses the next Stream. */
  lemma HearsOpenLane(x: End, y: End)
    requires Consistent(x.state) && y.wire != [] && y.wire[0].Open? && y.wire[0].stream == x.state.highest + 1
    requires Pair(Lane(x, y.wire[0].stream), Lane(y, y.wire[0].stream))
    ensures Pair(Lane(Hears(Server, x, y.wire[0]), y.wire[0].stream), Lane(Rest(y), y.wire[0].stream))
  {
    var m := y.wire[0];
    var id := m.stream;
    var l, k := Lane(x, id), Lane(y, id);
    assert Lane(Rest(y), id) == Heard(k);
    assert id !in x.state.streams;
    var refusal := Refusal(x.state, m.target);
    if refusal.Some? {
      var answer := OpenFailed(id, refusal.value, "");
      ForPush(x.state.control, answer, id);
      assert Lane(Hears(Server, x, m), id) == l.(slot := Dead, control := l.control + [answer]);
      TurnAwayKeeps(l, k, answer);
    } else {
      assert Lane(Hears(Server, x, m), id) == l.(slot := Live(NewEntry));
      AdmitKeeps(l, k);
    }
  }

  /** A message for a Stream opened before, still held here or not. */
  lemma HearsStreamLane(side: Side, x: End, m: Message)
    requires m.NamesStream() && !m.Open? && WasOpened(x.state, m.stream) && Sendable(Peer(side), m)
    requires m.Data? && m.stream in x.state.streams && !Deaf(x.state.streams[m.stream]) ==>
               x.state.streams[m.stream].received + |m.data| <= x.state.streams[m.stream].announced
    ensures Receive(side, x.state, m).Ok?
    ensures Lane(Hears(side, x, m), m.stream) == HearLane(Lane(x, m.stream), m)
    ensures forall i :: i != m.stream ==> Lane(Hears(side, x, m), i) == Lane(x, i)
  {
  }

  /** The numbering says how the next message may name a Stream. */
  predicate NextIsNumbered(side: Side, x: End, m: Message) {
    m.NamesStream() ==>
      if m.Open? then side.Server? && m.stream == x.state.highest + 1 else WasOpened(x.state, m.stream)
  }

  /** A message for one Stream leaves every other lane alone, and moves its own by a kept step. */
  lemma HearsLane(side: Side, x: End, y: End, i: nat)
    requires Pair(Lane(x, i), Lane(y, i)) && Consistent(x.state) && y.wire != [] && y.wire[0].NamesStream()
    requires Sendable(Peer(side), y.wire[0]) && NextIsNumbered(side, x, y.wire[0])
    requires Pair(Lane(x, y.wire[0].stream), Lane(y, y.wire[0].stream))
    ensures Pair(Lane(Hears(side, x, y.wire[0]), i), Lane(Rest(y), i))
    ensures Receive(side, x.state, y.wire[0]).Ok?
  {
    var m := y.wire[0];
    var id := m.stream;
    if m.Open? {
      HearsOpenLane(x, y);
      HearsOpenElsewhere(x, m);
    } else {
      assert Lane(Rest(y), id) == Heard(Lane(y, id));
      HearKeeps(Lane(x, id), Lane(y, id));
      HearsStreamLane(side, x, m);
    }
    if i != id {
      RestLane(y, i);
    }
  }

  lemma HearsLanes(side: Side, x: End, y: End)
    requires Lanes(x, y) && Consistent(x.state) && y.wire != []
    requires Sendable(Peer(side), y.wire[0]) && NextIsNumbered(side, x, y.wire[0])
    ensures Lanes(Hears(side, x, y.wire[0]), Rest(y))
    ensures !y.wire[0].Close? ==> Receive(side, x.state, y.wire[0]).Ok?
  {
    if !y.wire[0].NamesStream() {
      HearsConnectionLanes(side, x, y);
    } else {
      forall i | 0 < i ensures Pair(Lane(Hears(side, x, y.wire[0]), i), Lane(Rest(y), i)) {
        HearsLane(side, x, y, i);
      }
      HearsLane(side, x, y, y.wire[0].stream);
    }
  }

  lemma HearsOpenElsewhere(x: End, m: Message)
    requires m.Open? && m.stream == x.state.highest + 1
    ensures forall i :: i != m.stream ==> Lane(Hears(Server, x, m), i) == Lane(x, i)
  {
    forall i | i != m.stream ensures Lane(Hears(Server, x, m), i) == Lane(x, i) {
      if Refusal(x.state, m.target).Some? {
        ForPush(x.state.control, OpenFailed(m.stream, Refusal(x.state, m.target).value, ""), i);
      }
    }
  }
}

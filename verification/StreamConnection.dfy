/**
 An end of a Stream connection as the source runs it: fields changed in place, one method for
 each section under the lock. Each method is proved to compute the matching function of
 `Streams`, whose whole-run properties `StreamResults` proves, and to keep `Valid`.
 */
module StreamConnections {
  import opened Wrappers
  import opened Streams
  import opened StreamScheduling

  /** Exactly the entries whose handle is alive have one. */
  ghost predicate HandlesMatch(handles: set<nat>, streams: map<nat, Entry>) {
    forall id :: id in handles <==> id in streams && streams[id].handleAlive
  }

  lemma HandlesStay(handles: set<nat>, streams: map<nat, Entry>, id: nat, e: Entry)
    requires HandlesMatch(handles, streams) && id in streams && streams[id].handleAlive == e.handleAlive
    ensures HandlesMatch(handles, streams[id := e])
  {
  }

  /** An entry leaves the table only without a handle. */
  lemma HandlesSettle(handles: set<nat>, streams: map<nat, Entry>, id: nat, e: Entry)
    requires HandlesMatch(handles, streams) && id in streams && streams[id].handleAlive == e.handleAlive
    ensures HandlesMatch(handles, Settle(streams, id, e))
  {
  }

  lemma HandlesDrop(handles: set<nat>, streams: map<nat, Entry>, id: nat, e: Entry)
    requires HandlesMatch(handles, streams) && id in streams && !e.handleAlive
    ensures HandlesMatch(handles - {id}, Settle(streams, id, e))
  {
  }

  lemma NoNewKey(streams: map<nat, Entry>, id: nat, e: Entry)
    requires id in streams
    ensures Settle(streams, id, e).Keys - streams.Keys == {}
  {
  }

  class StreamConnection {
    const side: Side
    var streams: map<nat, Entry>
    var highest: nat
    var control: seq<Message>
    var ready: seq<nat>
    var closed: Option<string>
    /** The Streams whose handle some caller still holds; ownership keeps every call on one of them. */
    ghost var handles: set<nat>

    /** How often the transport was shut down, and how often the waiting threads were notified. */
    var shutdowns: nat
    var wakes: nat

    ghost function Current(): State
      reads this
    {
      State(streams, highest, control, ready, closed)
    }

    ghost predicate Valid()
      reads this
    {
      && Consistent(Current())
      && shutdowns == (if closed.Some? then 1 else 0)
      && HandlesMatch(handles, streams)
    }

    /** The waiting threads were notified if `due`, and not otherwise. */
    twostate predicate Woke(due: bool)
      reads this
    {
      if due then wakes > old(wakes) else wakes == old(wakes)
    }

    constructor (side: Side)
      ensures Valid() && this.side == side && Current() == NewState && handles == {}
    {
      this.side := side;
      streams, highest, control, ready, closed, handles := map[], 0, [], [], None, {};
      shutdowns, wakes := 0, 0;
    }

    method CloseWith(reason: string)
      requires Valid()
      modifies this`closed, this`shutdowns, this`wakes
      ensures Valid() && Current() == CloseState(old(Current()), reason) && Woke(true)
    {
      if closed.None? {
        closed := Some(reason);
        shutdowns := shutdowns + 1;
      }
      wakes := wakes + 1;
    }

    /** The Client opens a Stream and may write at once. */
    method Open(target: StreamTarget) returns (result: Result<nat, StreamFailure>)
      requires Valid() && side.Client?
      modifies this
      ensures Valid()
      ensures match OpenStream(old(Current()), target)
              case Ok(st) => Current() == st && result == Ok(st.highest) && handles == old(handles) + {st.highest}
              case Err(failure) => Current() == old(Current()) && result == Err(failure) && handles == old(handles)
      ensures Woke(result.Ok?)
    {
      if closed.Some? {
        return Err(StreamFailure(Other, closed.value));
      }
      if |streams| >= MAX_STREAMS {
        return Err(StreamFailure(TooManyStreams, ""));
      }
      OpenConsistent(Current(), target);
      assert highest + 1 !in Current().streams;
      highest := highest + 1;
      streams := streams[highest := NewEntry];
      control := control + [Message.Open(highest, target)];
      handles := handles + {highest};
      wakes := wakes + 1;
      assert OpenStream(old(Current()), target) == Ok(Current());
      return Ok(highest);
    }

    /** Queues the Server's positive answer. */
    method AcceptOpen(id: nat, size: Option<nat>)
      requires Valid() && id in handles
      modifies this`control, this`wakes
      ensures Valid() && Current() == Accept(old(Current()), id, size) && Woke(closed.None?)
    {
      if closed.None? {
        control := control + [Opened(id, size)];
        wakes := wakes + 1;
      }
    }

    /** Queues the Server's negative answer and fails the entry. */
    method RefuseOpen(id: nat, error: StreamError, detail: string)
      requires Valid() && id in handles
      modifies this`control, this`streams, this`wakes
      ensures Valid() && Current() == Refuse(old(Current()), id, error, detail) && Woke(closed.None?)
    {
      if closed.Some? {
        return;
      }
      RefuseConsistent(Current(), id, error, detail);
      control := control + [OpenFailed(id, error, detail)];
      if id in streams {
        streams := streams[id := streams[id].(outgoing := [], failure := Some(StreamFailure(error, detail)))];
      }
      wakes := wakes + 1;
    }

    /** One turn of `write`: how many bytes of `rest` were taken, none when the credit is used up. */
    method WriteTurn(id: nat, rest: Bytes) returns (result: Result<nat, StreamFailure>)
      requires Valid() && id in handles
      modifies this`streams, this`ready, this`wakes
      ensures Valid() && Woke(Write(old(Current()), id, rest).Took?)
      ensures match Write(old(Current()), id, rest)
              case Took(count, st) => Current() == st && result == Ok(count)
              case WriteFailed(failure) => Current() == old(Current()) && result == Err(failure)
              case WriteBlocked => Current() == old(Current()) && result == Ok(0)
    {
      var failing := FailureOf(id);
      if failing.Some? {
        return Err(failing.value);
      }
      var e := streams[id];
      if e.finishQueued {
        return Err(StreamFailure(Other, "written after finish"));
      }
      var available := if e.limit > e.sent then e.limit - e.sent else 0;
      if available == 0 {
        return Ok(0);
      }
      WriteConsistent(Current(), id, rest);
      var take := Min(Min(|rest|, MAX_STREAM_CHUNK), available);
      var written := e.(outgoing := e.outgoing + [OutData(rest[..take])], sent := e.sent + take, queued := true);
      HandlesStay(handles, streams, id, written);
      assert written == WriteEntry(e, rest[..take]);
      streams := streams[id := written];
      if !e.queued {
        ready := ready + [id];
      }
      assert ready == MakeReady(old(ready), id, e.queued) && take == ChunkSize(e, |rest|);
      wakes := wakes + 1;
      assert Write(old(Current()), id, rest) == Took(take, Current());
      return Ok(take);
    }

    method FailureOf(id: nat) returns (failure: Option<StreamFailure>)
      ensures failure == Failing(Current(), id)
    {
      if closed.Some? {
        return Some(StreamFailure(Other, closed.value));
      }
      if id in streams {
        return streams[id].failure;
      }
      return None;
    }

    /** One look of `read`: the next chunk, the end, a failure, or nothing yet. */
    method ReadTurn(id: nat) returns (chunk: Option<Bytes>, ended: bool, failure: Option<StreamFailure>)
      requires Valid() && id in handles
      modifies this`streams, this`control, this`wakes
      ensures Valid() && Woke(|control| > old(|control|))
      ensures match Read(old(Current()), id)
              case Chunk(data, st) => Current() == st && chunk == Some(data) && !ended && failure.None?
              case ReadEnd => Current() == old(Current()) && chunk.None? && ended && failure.None?
              case ReadFailed(f) => Current() == old(Current()) && chunk.None? && !ended && failure == Some(f)
              case ReadBlocked => Current() == old(Current()) && chunk.None? && !ended && failure.None?
    {
      chunk, ended, failure := None, false, None;
      var e := streams[id];
      if e.inbound != [] {
        var data := TakeChunk(id);
        chunk := Some(data);
      } else if e.peerFinished {
        ended := true;
      } else {
        failure := FailureOf(id);
      }
    }

    /** Takes the oldest unread bytes, and announces more credit when a quarter window was consumed. */
    method TakeChunk(id: nat) returns (data: Bytes)
      requires Valid() && id in handles && streams[id].inbound != []
      modifies this`streams, this`control, this`wakes
      ensures Valid() && Read(old(Current()), id) == Chunk(data, Current())
      ensures Woke(|control| > old(|control|))
    {
      ReadConsistent(Current(), id);
      var e := streams[id];
      data := e.inbound[0];
      e := e.(inbound := e.inbound[1..], consumed := e.consumed + |data|);
      var grants := !e.peerFinished && e.consumed + STREAM_WINDOW >= e.announced + STREAM_WINDOW / 4;
      if grants {
        e := e.(announced := e.consumed + STREAM_WINDOW);
        control := control + [Credit(id, e.announced)];
        wakes := wakes + 1;
      }
      assert e == ReadEntry(streams[id]) && grants == ReadGrants(streams[id]);
      HandlesStay(handles, streams, id, e);
      streams := streams[id := e];
      assert Read(old(Current()), id) == Chunk(data, Current());
    }

    /** Queues the end of the outgoing direction behind whatever was written. */
    method Finish(id: nat)
      requires Valid() && id in handles
      modifies this`streams, this`ready, this`wakes
      ensures Valid() && Current() == FinishStream(old(Current()), id)
      ensures Woke(!old(streams)[id].finishQueued && old(streams)[id].failure.None?)
    {
      var e := streams[id];
      if e.finishQueued || e.failure.Some? {
        return;
      }
      FinishConsistent(Current(), id);
      var finished := e.(finishQueued := true, outgoing := e.outgoing + [OutFinish], queued := true);
      HandlesStay(handles, streams, id, finished);
      streams := streams[id := finished];
      if !e.queued {
        ready := ready + [id];
      }
      wakes := wakes + 1;
      assert Current() == FinishStream(old(Current()), id);
    }

    /** The caller gives the Stream up: nothing more is sent or heard on it. */
    method ResetNow(id: nat, error: StreamError, detail: string)
      requires Valid() && id in handles
      modifies this`streams, this`control, this`wakes
      ensures Valid() && Current() == ResetStream(old(Current()), id, error, detail)
      ensures Woke(old(streams)[id].failure.None?)
    {
      var e := streams[id];
      if e.failure.Some? {
        return;
      }
      ResetConsistent(Current(), id, error, detail);
      streams := streams[id := e.(outgoing := [], failure := Some(StreamFailure(error, detail)))];
      if closed.None? {
        control := control + [Reset(id, error, detail)];
      }
      wakes := wakes + 1;
    }

    /** The caller lets go of its handle. */
    method DropHandle(id: nat)
      requires Valid() && id in handles
      modifies this
      ensures Valid() && Current() == DropStream(old(Current()), id) && handles == old(handles) - {id}
      ensures Woke(true)
    {
      DropConsistent(Current(), id);
      var complete := streams[id].finishQueued && streams[id].peerFinished;
      if !complete && streams[id].failure.None? {
        ResetNow(id, Cancelled, "");
      }
      var dropped := streams[id].(handleAlive := false, inbound := []);
      HandlesDrop(handles, streams, id, dropped);
      StoreOrRemove(id, dropped);
      handles := handles - {id};
      wakes := wakes + 1;
    }

    method RemoveIfFinished(id: nat)
      modifies this`streams
      ensures streams == if id in old(streams) then Settle(old(streams), id, old(streams)[id]) else old(streams)
    {
      if id in streams && streams[id].Finished() {
        streams := streams - {id};
      } else if id in streams {
        assert streams[id := streams[id]] == streams;
      }
    }

    /** Stores the changed entry and removes it when nothing more can happen on its Stream. */
    method StoreOrRemove(id: nat, e: Entry)
      requires id in streams
      modifies this`streams
      ensures streams == Settle(old(streams), id, e)
    {
      streams := streams[id := e];
      RemoveIfFinished(id);
      assert Settle(old(streams)[id := e], id, e) == Settle(old(streams), id, e);
    }

    /** Walks the ready line until some Stream has an item to give. */
    method TakeNextData() returns (message: Option<Message>)
      requires Valid()
      modifies this`streams, this`ready
      ensures Valid() && Taken(message, Current()) == NextData(old(Current()))
    {
      ghost var start := Current();
      while ready != []
        invariant Valid()
        invariant NextData(Current()) == NextData(start)
        decreases |ready|
      {
        ghost var st := Current();
        var id := ready[0];
        if id !in streams {
          SkipConsistent(st);
          ready := ready[1..];
        } else if streams[id].outgoing == [] {
          SkipConsistent(st);
          ready := ready[1..];
          streams := streams[id := streams[id].(queued := false)];
        } else {
          var given := GiveFront(id);
          return Some(given);
        }
      }
      message := None;
    }

    /** The front Stream gives its next item, and queues up again behind the others for another. */
    method GiveFront(id: nat) returns (message: Message)
      requires Valid() && ready != [] && id == ready[0] && id in streams && streams[id].outgoing != []
      modifies this`streams, this`ready
      ensures Valid() && Taken(Some(message), Current()) == NextData(old(Current()))
    {
      ServeConsistent(Current());
      var e := streams[id];
      var more := |e.outgoing| > 1;
      var taken := e.(outgoing := e.outgoing[1..], queued := more);
      HandlesSettle(handles, streams, id, taken);
      ready := if more then ready[1..] + [id] else ready[1..];
      StoreOrRemove(id, taken);
      message := match e.outgoing[0]
        case OutData(data) => Data(id, data)
        case OutFinish => Message.Finish(id);
    }

    /** What the writer thread sends next on an open connection. */
    method TakeNextMessage() returns (message: Option<Message>)
      requires Valid()
      modifies this`streams, this`ready, this`control
      ensures Valid() && Taken(message, Current()) == NextMessage(old(Current()))
    {
      if control != [] {
        message := Some(control[0]);
        control := control[1..];
      } else {
        message := TakeNextData();
      }
    }

    /** What a received frame must leave behind: the specified state, or a violation and no change. */
    twostate predicate Received(message: Message, new violation: Option<string>)
      reads this
    {
      && Woke(HearingWakes(side, old(Current()), message))
      && match Receive(side, old(Current()), message)
         case Ok(st) =>
           && violation.None? && Current() == st
           && handles == old(handles) + (st.streams.Keys - old(streams).Keys)
         case Err(reason) => violation == Some(reason) && Current() == old(Current()) && handles == old(handles)
    }

    method ReceiveOpen(id: nat, target: StreamTarget) returns (violation: Option<string>)
      requires Valid() && side.Server?
      modifies this
      ensures Valid() && Received(Message.Open(id, target), violation)
    {
      violation := None;
      if id <= highest {
        return Some("the stream was opened before");
      }
      ReceiveConsistent(side, Current(), Message.Open(id, target));
      assert id !in Current().streams;
      highest := id;
      if target.UnknownTarget? {
        control := control + [OpenFailed(id, Unsupported, "")];
        wakes := wakes + 1;
      } else if |streams| >= MAX_STREAMS {
        control := control + [OpenFailed(id, TooManyStreams, "")];
        wakes := wakes + 1;
      } else {
        streams := streams[id := NewEntry];
        handles := handles + {id};
        assert Current().streams.Keys - old(streams).Keys == {id};
      }
      assert Receive(side, old(Current()), Message.Open(id, target)) == Ok(Current());
    }

    method ReceiveBytes(id: nat, data: Bytes) returns (violation: Option<string>)
      requires Valid()
      modifies this`streams, this`wakes
      ensures Valid() && Received(Data(id, data), violation)
    {
      violation := None;
      if !(0 < id <= highest) {
        return Some("the stream was never opened");
      }
      if id in streams {
        var e := streams[id];
        if e.failure.Some? || e.peerFinished {
          return;
        }
        if e.received + |data| > e.announced {
          return Some("the stream sent beyond its credit");
        }
        TakeBytes(id, data);
        wakes := wakes + 1;
      }
    }

    /** Bytes within the credit wait for the handle, if there still is one. */
    method TakeBytes(id: nat, data: Bytes)
      requires Valid() && id in streams && !Deaf(streams[id])
      requires streams[id].received + |data| <= streams[id].announced
      modifies this`streams
      ensures Valid() && streams.Keys == old(streams).Keys
      ensures Receive(side, old(Current()), Data(id, data)) == Ok(Current())
    {
      ReceiveConsistent(side, Current(), Data(id, data));
      var e := streams[id];
      var heard := e.(received := e.received + |data|,
                      inbound := if e.handleAlive then e.inbound + [data] else e.inbound);
      HandlesStay(handles, streams, id, heard);
      assert heard == HearData(e, data);
      streams := streams[id := heard];
    }

    method ReceiveEnd(id: nat, message: Message, failure: StreamFailure) returns (violation: Option<string>)
      requires Valid() && (message.Reset? || (message.OpenFailed? && side.Client?))
      requires message.stream == id && failure == StreamFailure(message.error, message.detail)
      modifies this`streams, this`wakes
      ensures Valid() && Received(message, violation)
    {
      violation := None;
      if !(0 < id <= highest) {
        return Some("the stream was never opened");
      }
      ReceiveConsistent(side, Current(), message);
      if id in streams {
        FailEntryOf(id, failure);
        assert Receive(side, old(Current()), message) == Ok(Current());
      }
    }

    /** The peer's word that the Stream failed: what is queued goes, and an earlier failure stays. */
    method FailEntryOf(id: nat, failure: StreamFailure)
      requires Valid() && id in streams
      modifies this`streams, this`wakes
      ensures HandlesMatch(handles, streams) && wakes > old(wakes)
      ensures streams == Settle(old(streams), id, HearFailure(old(streams)[id], failure))
      ensures streams.Keys - old(streams).Keys == {}
    {
      var e := streams[id];
      var failed := e.(outgoing := [], failure := Some(if e.failure.Some? then e.failure.value else failure));
      HandlesSettle(handles, streams, id, failed);
      NoNewKey(streams, id, failed);
      StoreOrRemove(id, failed);
      wakes := wakes + 1;
    }

    /** Updates the entry a `Credit`, `Finish` or `Opened` is about. */
    method ReceiveNote(id: nat, message: Message) returns (violation: Option<string>)
      requires Valid() && message.NamesStream() && message.stream == id
      requires message.Credit? || message.Finish? || (message.Opened? && side.Client?)
      modifies this`streams, this`wakes
      ensures Valid() && Received(message, violation)
    {
      violation := None;
      if !(0 < id <= highest) {
        return Some("the stream was never opened");
      }
      ReceiveConsistent(side, Current(), message);
      if id in streams {
        var e := streams[id];
        match message {
          case Credit(_, maxOffset) => e := e.(limit := Max(e.limit, maxOffset));
          case Finish(_) => e := e.(peerFinished := true);
          case Opened(_, size) => e := e.(answer := Some(size));
        }
        HandlesStay(handles, streams, id, e);
        streams := streams[id := e];
        wakes := wakes + 1;
        assert Receive(side, old(Current()), message) == Ok(Current());
      }
    }

    /** Dispatches on what was heard; a violation leaves the state alone and is reported. */
    method ReceiveFrame(message: Message) returns (violation: Option<string>)
      requires Valid()
      modifies this
      ensures Valid() && Received(message, violation)
    {
      violation := None;
      match message
      case UnknownMessage =>
      case Ping =>
        if side.Client? {
          return Some("Client received Ping");
        }
        control := control + [Pong];
        wakes := wakes + 1;
      case Pong =>
        if side.Server? {
          return Some("Server received Pong");
        }
      case Close => return Some("Close is not a frame of a Stream");
      case Open(id, target) =>
        if side.Client? {
          return Some("Client received Open");
        }
        violation := ReceiveOpen(id, target);
      case Opened(id, _) =>
        if side.Server? {
          return Some("Server received Opened");
        }
        violation := ReceiveNote(id, message);
      case OpenFailed(id, error, detail) =>
        if side.Server? {
          return Some("Server received OpenFailed");
        }
        violation := ReceiveEnd(id, message, StreamFailure(error, detail));
      case Reset(id, error, detail) => violation := ReceiveEnd(id, message, StreamFailure(error, detail));
      case Data(id, data) => violation := ReceiveBytes(id, data);
      case Credit(id, _) => violation := ReceiveNote(id, message);
      case Finish(id) => violation := ReceiveNote(id, message);
    }
  }
}

/**
 What one end keeps about its own bookkeeping through every step of the engine, and what that
 gives its writer: nothing leaks, and every Stream with something queued gets its turn.
 */
module StreamScheduling {
  import opened Wrappers
  import opened Streams

  predicate Distinct(ids: seq<nat>) {
    forall i, j :: 0 <= i < j < |ids| ==> ids[i] != ids[j]
  }

  predicate EntryConsistent(st: State, id: nat)
    requires id in st.streams
  {
    var e := st.streams[id];
    && 0 < id <= st.highest
    && !e.Finished()
    && (e.queued <==> id in st.ready)
    && (e.outgoing != [] ==> e.queued)
  }

  /** Every entry is numbered, of use to someone, and in line exactly when it says so. */
  predicate Consistent(st: State) {
    && (forall id :: id in st.streams ==> EntryConsistent(st, id))
    && Distinct(st.ready)
    && (forall id :: id in st.ready ==> id <= st.highest)
    && |st.streams| <= MAX_STREAMS
  }

  // ----- Every step keeps it -----

  lemma UpdateSize(streams: map<nat, Entry>, id: nat, e: Entry)
    ensures id in streams ==> |streams[id := e]| == |streams|
    ensures id !in streams ==> |streams[id := e]| == |streams| + 1
  {
    assert streams[id := e].Keys == streams.Keys + {id};
  }

  lemma SettleSize(streams: map<nat, Entry>, id: nat, e: Entry)
    requires id in streams
    ensures |Settle(streams, id, e)| <= |streams|
  {
    UpdateSize(streams, id, e);
    assert (streams - {id}).Keys == streams.Keys - {id};
  }

  lemma OpenConsistent(st: State, target: StreamTarget)
    requires Consistent(st) && OpenStream(st, target).Ok?
    ensures Consistent(OpenStream(st, target).value)
  {
    UpdateSize(st.streams, st.highest + 1, NewEntry);
  }

  lemma RefuseConsistent(st: State, id: nat, error: StreamError, detail: string)
    requires Consistent(st) && (id in st.streams ==> st.streams[id].handleAlive)
    ensures Consistent(Refuse(st, id, error, detail))
  {
    if id in st.streams {
      UpdateSize(st.streams, id, FailEntry(st.streams[id], StreamFailure(error, detail)));
    }
  }

  lemma MakeReadyDistinct(ready: seq<nat>, id: nat, queued: bool)
    requires Distinct(ready) && (queued <==> id in ready)
    ensures Distinct(MakeReady(ready, id, queued))
    ensures forall other :: other in MakeReady(ready, id, queued) <==> other in ready || other == id
  {
  }

  lemma WriteConsistent(st: State, id: nat, rest: Bytes)
    requires Consistent(st) && id in st.streams && Write(st, id, rest).Took?
    ensures Consistent(Write(st, id, rest).state)
  {
    var e := st.streams[id];
    MakeReadyDistinct(st.ready, id, e.queued);
    UpdateSize(st.streams, id, WriteEntry(e, rest[..ChunkSize(e, |rest|)]));
  }

  lemma ReadConsistent(st: State, id: nat)
    requires Consistent(st) && id in st.streams && Read(st, id).Chunk?
    ensures Consistent(Read(st, id).state)
  {
    UpdateSize(st.streams, id, ReadEntry(st.streams[id]));
  }

  lemma FinishConsistent(st: State, id: nat)
    requires Consistent(st)
    ensures Consistent(FinishStream(st, id))
  {
    if id in st.streams {
      MakeReadyDistinct(st.ready, id, st.streams[id].queued);
      UpdateSize(st.streams, id, FinishEntry(st.streams[id]));
    }
  }

  lemma ResetConsistent(st: State, id: nat, error: StreamError, detail: string)
    requires Consistent(st) && (id in st.streams ==> st.streams[id].handleAlive)
    ensures Consistent(ResetStream(st, id, error, detail))
  {
    if id in st.streams {
      UpdateSize(st.streams, id, FailEntry(st.streams[id], StreamFailure(error, detail)));
    }
  }

  lemma SettleConsistent(st: State, id: nat, e: Entry)
    requires Consistent(st) && id in st.streams
    requires e.queued == st.streams[id].queued && (e.outgoing != [] ==> e.queued)
    ensures Consistent(st.(streams := Settle(st.streams, id, e)))
  {
    SettleSize(st.streams, id, e);
  }

  lemma DropConsistent(st: State, id: nat)
    requires Consistent(st) && (id in st.streams ==> st.streams[id].handleAlive)
    ensures Consistent(DropStream(st, id))
  {
    if id in st.streams {
      var reset := if DropResets(st.streams[id]) then ResetStream(st, id, Cancelled, "") else st;
      ResetConsistent(st, id, Cancelled, "");
      SettleConsistent(reset, id, DropEntry(reset.streams[id]));
    }
  }

  lemma ReceiveConsistent(side: Side, st: State, message: Message)
    requires Consistent(st) && Receive(side, st, message).Ok?
    ensures Consistent(Receive(side, st, message).value)
  {
    if message.NamesStream() {
      var id := message.stream;
      UpdateSize(st.streams, id, NewEntry);
      if id in st.streams {
        var e := st.streams[id];
        match message
        case Opened(_, size) => SettleConsistent(st, id, e.(answer := Some(size)));
        case Credit(_, offset) => SettleConsistent(st, id, e.(limit := Max(e.limit, offset)));
        case Data(_, data) => SettleConsistent(st, id, HearData(e, data));
        case Finish(_) => SettleConsistent(st, id, e.(peerFinished := true));
        case OpenFailed(_, error, detail) =>
          SettleConsistent(st, id, HearFailure(e, StreamFailure(error, detail)));
        case Reset(_, error, detail) =>
          SettleConsistent(st, id, HearFailure(e, StreamFailure(error, detail)));
        case _ =>
      }
    }
  }

  /** One look at the front of the line: what `NextData` does before it returns or goes on. */
  lemma FrontConsistent(st: State)
    requires Consistent(st) && st.ready != []
    ensures var id, rest := st.ready[0], st.ready[1..];
            && id !in rest
            && (forall other :: other in st.ready <==> other == id || other in rest)
            && Distinct(rest) && Distinct(rest + [id])
  {
    var id, rest := st.ready[0], st.ready[1..];
    assert st.ready == [id] + rest;
    forall k | 0 <= k < |rest| ensures rest[k] != id {
      assert rest[k] == st.ready[k + 1];
    }
    forall i, j | 0 <= i < j < |rest| ensures rest[i] != rest[j] {
      assert rest[i] == st.ready[i + 1] && rest[j] == st.ready[j + 1];
    }
  }

  /** The state after a stale or empty entry was taken off the front of the line. */
  function SkipFront(st: State): State
    requires st.ready != []
  {
    var id, rest := st.ready[0], st.ready[1..];
    if id !in st.streams then st.(ready := rest)
    else st.(ready := rest, streams := st.streams[id := st.streams[id].(queued := false)])
  }

  predicate Skips(st: State) {
    st.ready != [] && (st.ready[0] in st.streams ==> st.streams[st.ready[0]].outgoing == [])
  }

  lemma SkipConsistent(st: State)
    requires Consistent(st) && Skips(st)
    ensures Consistent(SkipFront(st))
    ensures NextData(st) == NextData(SkipFront(st))
  {
    FrontConsistent(st);
    var id := st.ready[0];
    if id in st.streams {
      UpdateSize(st.streams, id, st.streams[id].(queued := false));
    }
  }

  lemma ServeConsistent(st: State)
    requires Consistent(st) && st.ready != [] && !Skips(st)
    ensures Consistent(NextData(st).state)
  {
    FrontConsistent(st);
    var id, rest := st.ready[0], st.ready[1..];
    SettleSize(st.streams, id, TakeEntry(st.streams[id]));
    var st' := NextData(st).state;
    assert forall other :: other in st'.ready <==> other in rest || (other == id && |st.streams[id].outgoing| > 1);
    forall other | other in st'.streams ensures EntryConsistent(st', other) {
      if other != id {
        assert st'.streams[other] == st.streams[other] && EntryConsistent(st, other);
      }
    }
  }

  lemma {:induction false} NextDataConsistent(st: State)
    requires Consistent(st)
    ensures Consistent(NextData(st).state)
    decreases |st.ready|
  {
    if st.ready != [] {
      if Skips(st) {
        SkipConsistent(st);
        NextDataConsistent(SkipFront(st));
      } else {
        ServeConsistent(st);
      }
    }
  }

  // ----- What it gives -----

  lemma SkipKeepsQueues(st: State)
    requires Skips(st)
    ensures forall id :: id in st.streams <==> id in SkipFront(st).streams
    ensures forall id :: id in st.streams ==> SkipFront(st).streams[id].outgoing == st.streams[id].outgoing
  {
  }

  /** The writer finds nothing to send exactly when no Stream has anything queued. */
  lemma {:induction false} IdleMeansDrained(st: State)
    requires Consistent(st)
    ensures NextData(st).message.None? <==> (forall id :: id in st.streams ==> st.streams[id].outgoing == [])
    decreases |st.ready|
  {
    if st.ready != [] {
      var front := st.ready[0];
      if Skips(st) {
        SkipConsistent(st);
        SkipKeepsQueues(st);
        IdleMeansDrained(SkipFront(st));
      } else {
        assert front in st.streams && st.streams[front].outgoing != [];
      }
    }
  }

  /** `id` stands at `position` in the line with something to send. */
  predicate Waits(st: State, id: nat, position: nat) {
    && position < |st.ready| && st.ready[position] == id
    && id in st.streams && st.streams[id].outgoing != []
  }

  /** A message served is the Stream's own next item, or the Stream moved up at least one place. */
  lemma {:induction false} TurnComesCloser(st: State, id: nat, position: nat)
    requires Consistent(st) && Waits(st, id, position)
    ensures var next := NextData(st);
            && next.message.Some?
            && (|| next.message.value == ToMessage(id, st.streams[id].outgoing[0])
                || (exists p :: 0 <= p < position && Waits(next.state, id, p)
                                && next.state.streams[id] == st.streams[id]))
    decreases |st.ready|
  {
    var next := NextData(st);
    if Skips(st) {
      SkipConsistent(st);
      assert position > 0 && SkipFront(st).ready[position - 1] == id;
      FrontConsistent(st);
      TurnComesCloser(SkipFront(st), id, position - 1);
    } else if position > 0 {
      FrontConsistent(st);
      assert st.ready[1..][position - 1] == id;
      assert Waits(next.state, id, position - 1);
    }
  }

  /** Every step but the writer's only adds to the back: to the line, and to `id`'s own queue. */
  predicate Extends(st: State, st': State, id: nat) {
    && st.ready <= st'.ready
    && id in st.streams && id in st'.streams
    && st.streams[id].outgoing <= st'.streams[id].outgoing
  }

  predicate Serves(st: State, st': State) {
    NextData(st).message.Some? && NextData(st).state == st'
  }

  /** After one step the Stream was served, or it waits no further back, and closer after a turn. */
  lemma OneStepCloser(st: State, st': State, id: nat, position: nat) returns (sent: bool, p: nat)
    requires Consistent(st) && Waits(st, id, position) && (Serves(st, st') || Extends(st, st', id))
    ensures sent ==> Serves(st, st') && NextData(st).message.value == ToMessage(id, st.streams[id].outgoing[0])
    ensures !sent ==> Waits(st', id, p) && st'.streams[id].outgoing[0] == st.streams[id].outgoing[0]
    ensures !sent ==> p <= position && (Serves(st, st') ==> p < position)
  {
    sent, p := false, position;
    if Serves(st, st') {
      TurnComesCloser(st, id, position);
      sent := NextData(st).message.value == ToMessage(id, st.streams[id].outgoing[0]);
      if !sent {
        p :| 0 <= p < position && Waits(st', id, p) && st'.streams[id] == st.streams[id];
      }
    } else {
      ExtendedStillWaits(st, st', id, position);
    }
  }

  lemma ExtendedStillWaits(st: State, st': State, id: nat, position: nat)
    requires Extends(st, st', id) && Waits(st, id, position)
    ensures Waits(st', id, position) && st'.streams[id].outgoing[0] == st.streams[id].outgoing[0]
  {
    assert st'.ready[position] == st.ready[position];
  }
}

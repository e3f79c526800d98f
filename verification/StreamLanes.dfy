/**
 One Stream seen alone: what each of the two ends holds for it, its messages still queued or
 on the wire, and what its two handles took and gave so far. Every step of the engine on one
 Stream is a step of such a lane, and `Pair` is what all of them keep.
 */
module StreamLanes {
  import opened Wrappers
  import opened Sequences
  import opened Streams

  /** What one end knows of a Stream: not opened yet, open, or closed and forgotten. */
  datatype Slot = Unborn | Live(entry: Entry) | Dead

  /**
   What happened at one end's handle: the bytes its `write` accepted and its `read` returned,
   whether this end itself reset or refused the Stream, and how often it announced credit.
   */
  datatype History = History(accepted: Bytes, delivered: Bytes, gaveUp: bool, credits: nat)

  const NoHistory: History := History([], [], false, 0)

  /** One end of a lane; `control` and `wire` hold this Stream's messages alone, oldest first. */
  datatype LaneEnd = LaneEnd(
    slot: Slot,
    control: seq<Message>,
    wire: seq<Message>,
    open: bool,
    hist: History)

  // ----- Measures of queues -----

  function DataBytes(messages: seq<Message>): Bytes {
    if messages == [] then []
    else (if messages[0].Data? then messages[0].data else []) + DataBytes(messages[1..])
  }

  function OutBytes(items: seq<Outgoing>): Bytes {
    if items == [] then []
    else (if items[0].OutData? then items[0].data else []) + OutBytes(items[1..])
  }

  /** The send limit once every `Credit` among `messages` arrived. */
  function LimitAfter(limit: nat, messages: seq<Message>): nat
    decreases |messages|
  {
    if messages == [] then limit
    else LimitAfter(if messages[0].Credit? then Max(limit, messages[0].maxOffset) else limit,
                    messages[1..])
  }

  lemma {:induction false} DataBytesConcat(a: seq<Message>, b: seq<Message>)
    ensures DataBytes(a + b) == DataBytes(a) + DataBytes(b)
  {
    if a == [] {
      assert a + b == b;
    } else {
      DataBytesConcat(a[1..], b);
      assert (a + b)[1..] == a[1..] + b;
      Associates(if a[0].Data? then a[0].data else [], DataBytes(a[1..]), DataBytes(b));
    }
  }

  lemma {:induction false} OutBytesConcat(a: seq<Outgoing>, b: seq<Outgoing>)
    ensures OutBytes(a + b) == OutBytes(a) + OutBytes(b)
  {
    if a == [] {
      assert a + b == b;
    } else {
      OutBytesConcat(a[1..], b);
      assert (a + b)[1..] == a[1..] + b;
      Associates(if a[0].OutData? then a[0].data else [], OutBytes(a[1..]), OutBytes(b));
    }
  }

  lemma {:induction false} LimitAfterConcat(limit: nat, a: seq<Message>, b: seq<Message>)
    ensures LimitAfter(limit, a + b) == LimitAfter(LimitAfter(limit, a), b)
    decreases |a|
  {
    if a == [] {
      assert a + b == b;
    } else {
      LimitAfterConcat(if a[0].Credit? then Max(limit, a[0].maxOffset) else limit, a[1..], b);
      assert (a + b)[1..] == a[1..] + b;
    }
  }

  lemma {:induction false} LimitAfterGrows(limit: nat, messages: seq<Message>)
    ensures limit <= LimitAfter(limit, messages)
    decreases |messages|
  {
    if messages != [] {
      LimitAfterGrows(if messages[0].Credit? then Max(limit, messages[0].maxOffset) else limit,
                      messages[1..]);
    }
  }

  // ----- What every lane keeps -----

  predicate Carries(m: Message) {
    m.Data? || m.Finish?
  }

  predicate Fails(m: Message) {
    m.Reset? || m.OpenFailed?
  }

  /** No bytes and no end of the direction are among `messages`. */
  predicate Quiet(messages: seq<Message>) {
    forall k :: 0 <= k < |messages| ==> !Carries(messages[k])
  }

  ghost predicate HasFinish(messages: seq<Message>) {
    exists k :: 0 <= k < |messages| && messages[k].Finish?
  }

  ghost predicate HasFailure(messages: seq<Message>) {
    exists k :: 0 <= k < |messages| && Fails(messages[k])
  }

  /** Nothing follows a message that ends the direction. */
  predicate Orderly(messages: seq<Message>) {
    forall p, q :: 0 <= p < q < |messages| && (messages[p].Finish? || Fails(messages[p])) ==> !Carries(messages[q])
  }

  /** A queued `Finish` is the last item queued. */
  predicate FinishLast(e: Entry) {
    forall k :: 0 <= k < |e.outgoing| && e.outgoing[k].OutFinish? ==> k == |e.outgoing| - 1 && e.finishQueued
  }

  /** What one end keeps about one of its own entries. */
  predicate EntryInv(e: Entry, hist: History) {
    && e.sent == |hist.accepted|
    && e.sent <= e.limit
    && e.consumed == |hist.delivered|
    && e.received <= e.announced
    && (e.handleAlive ==> e.consumed + |Flat(e.inbound)| == e.received)
    && (!e.handleAlive ==> e.inbound == [] && Deaf(e) && e.outgoing != [])
    && (e.failure.Some? ==> e.outgoing == [])
    && (hist.gaveUp ==> e.failure.Some?)
    && e.announced <= e.consumed + STREAM_WINDOW
    && (!e.peerFinished ==> e.consumed + STREAM_WINDOW < e.announced + STREAM_WINDOW / 4)
    && hist.credits * (STREAM_WINDOW / 4) + STREAM_WINDOW <= e.announced
    && FinishLast(e)
  }

  predicate Local(x: LaneEnd) {
    match x.slot
    case Unborn => x.control == [] && x.wire == [] && x.hist == NoHistory
    case Live(e) => EntryInv(e, x.hist)
    case Dead => true
  }

  /** The entry, or the one a Stream starts with while its `Open` is on the way. */
  function EntryOf(x: LaneEnd): Entry
    requires !x.slot.Dead?
  {
    if x.slot.Live? then x.slot.entry else NewEntry
  }

  /** The bytes queued at `s` that its writer will still send. */
  function Pending(s: LaneEnd): Bytes {
    if s.open && s.slot.Live? then OutBytes(s.slot.entry.outgoing) else []
  }

  function PendingControl(s: LaneEnd): seq<Message> {
    if s.open then s.control else []
  }

  /** Received + in flight + queued never passes sent, and the peer's limit is what was announced. */
  predicate CreditFlow(s: LaneEnd, r: LaneEnd) {
    !r.slot.Dead? ==>
      var e := EntryOf(r);
      if s.slot.Dead? then e.received + |DataBytes(s.wire)| <= e.announced
      else
        var limit := LimitAfter(EntryOf(s).limit, r.wire + PendingControl(r));
        && e.received + |DataBytes(s.wire)| + |Pending(s)| <= EntryOf(s).sent
        && limit <= e.announced
        && (r.open ==> limit == e.announced)
  }

  /** The bytes `r` has: those its handle read and those waiting for it. */
  function Arrived(r: LaneEnd): Bytes {
    r.hist.delivered + (if r.slot.Live? then Flat(r.slot.entry.inbound) else [])
  }

  /** `r` still takes every byte that arrives. */
  predicate Listening(r: LaneEnd) {
    r.slot.Unborn? || (r.slot.Live? && !Deaf(r.slot.entry))
  }

  /** Nothing `s` accepted was thrown away. */
  ghost predicate Intact(s: LaneEnd) {
    || s.slot.Unborn?
    || (s.slot.Live? && s.slot.entry.failure.None? && s.open)
    || HasFinish(s.wire)
  }

  /** The bytes at `r`, in flight and queued are, in this order, what `s` accepted. */
  ghost predicate ByteFlow(s: LaneEnd, r: LaneEnd) {
    && Arrived(r) <= s.hist.accepted
    && (Listening(r) ==>
          && Arrived(r) + DataBytes(s.wire) + Pending(s) <= s.hist.accepted
          && (Intact(s) ==> Arrived(r) + DataBytes(s.wire) + Pending(s) == s.hist.accepted))
    && (r.slot.Live? && r.slot.entry.handleAlive && r.slot.entry.peerFinished && !r.hist.gaveUp ==>
          Arrived(r) == s.hist.accepted)
  }

  /** `s` will never queue anything more on this Stream. */
  predicate Ended(s: LaneEnd) {
    || s.slot.Dead?
    || (s.slot.Live? && s.slot.entry.outgoing == []
        && (s.slot.entry.finishQueued || s.slot.entry.failure.Some?))
  }

  /** `r` heard from `s` that nothing more comes. */
  predicate HeardEnd(r: LaneEnd) {
    r.slot.Live? && (r.slot.entry.peerFinished || (r.slot.entry.failure.Some? && !r.hist.gaveUp))
  }

  ghost predicate EndFlow(s: LaneEnd, r: LaneEnd) {
    && Orderly(s.wire)
    && Quiet(s.control)
    && (HasFinish(s.wire) || HasFailure(s.wire) || HasFailure(s.control) || HeardEnd(r) ==> Ended(s))
    && (HeardEnd(r) ==> Quiet(s.wire))
  }

  ghost predicate Flow(s: LaneEnd, r: LaneEnd) {
    CreditFlow(s, r) && ByteFlow(s, r) && EndFlow(s, r)
  }

  ghost predicate Pair(x: LaneEnd, y: LaneEnd) {
    Local(x) && Local(y) && Flow(x, y) && Flow(y, x)
  }

  // ----- The handle's steps -----

  function Push(x: LaneEnd, m: Message): LaneEnd {
    if x.open then x.(control := x.control + [m]) else x
  }

  /** A control message that says nothing about bytes or failure. */
  predicate Neutral(m: Message) {
    !Carries(m) && !Fails(m) && !m.Credit?
  }

  lemma PushNeutral(x: LaneEnd, y: LaneEnd, m: Message)
    requires Pair(x, y) && !x.slot.Unborn? && Neutral(m)
    ensures Pair(x.(control := x.control + [m]), y)
  {
    var x' := x.(control := x.control + [m]);
    if x.open {
      assert x.wire + (x.control + [m]) == (x.wire + x.control) + [m];
      if !y.slot.Dead? {
        LimitAfterConcat(EntryOf(y).limit, x.wire + x.control, [m]);
      }
    }
    assert HasFailure(x'.control) ==> HasFailure(x.control);
  }

  function OpenLane(x: LaneEnd, m: Message): LaneEnd {
    LaneEnd(Live(NewEntry), x.control + [m], x.wire, x.open, x.hist)
  }

  lemma OpenKeeps(x: LaneEnd, y: LaneEnd, m: Message)
    requires Pair(x, y) && x.slot.Unborn? && y.slot.Unborn? && m.Open?
    ensures Pair(OpenLane(x, m), y)
  {
    var x' := OpenLane(x, m);
    assert x'.control == [m] && x'.wire + [m] == [m];
    assert y.wire + PendingControl(y) == [];
    assert !HasFailure(x'.control);
    assert LimitAfter(STREAM_WINDOW, [m]) == LimitAfter(STREAM_WINDOW, []);
    assert Flat([]) == [];
  }

  /** The handle ends the Stream at both ends: `reset`, `refuse`, or a drop before completion. */
  function AbandonLane(x: LaneEnd, m: Message, failure: StreamFailure): LaneEnd
    requires x.slot.Live?
  {
    Push(x, m).(slot := Live(FailEntry(x.slot.entry, failure)), hist := x.hist.(gaveUp := true))
  }

  lemma AbandonKeeps(x: LaneEnd, y: LaneEnd, m: Message, failure: StreamFailure)
    requires Pair(x, y) && x.slot.Live? && x.slot.entry.handleAlive && Fails(m)
    ensures Pair(AbandonLane(x, m, failure), y)
  {
    var x' := AbandonLane(x, m, failure);
    assert OutBytes([]) == [] && Pending(x') == [];
    if x.open {
      assert x.wire + (x.control + [m]) == (x.wire + x.control) + [m];
      if !y.slot.Dead? {
        LimitAfterConcat(EntryOf(y).limit, x.wire + x.control, [m]);
      }
    }
    assert Arrived(x') == Arrived(x);
  }

  predicate MayWrite(x: LaneEnd) {
    && x.open && x.slot.Live? && x.slot.entry.handleAlive
    && x.slot.entry.failure.None? && !x.slot.entry.finishQueued
  }

  function WriteLane(x: LaneEnd, chunk: Bytes): LaneEnd
    requires x.slot.Live?
  {
    x.(slot := Live(WriteEntry(x.slot.entry, chunk)), hist := x.hist.(accepted := x.hist.accepted + chunk))
  }

  lemma WriteBytes(x: LaneEnd, y: LaneEnd, chunk: Bytes)
    requires ByteFlow(x, y) && MayWrite(x) && Local(x) && Local(y)
    requires !HeardEnd(y)
    ensures ByteFlow(WriteLane(x, chunk), y)
    ensures |Pending(WriteLane(x, chunk))| == |Pending(x)| + |chunk|
  {
    var x' := WriteLane(x, chunk);
    OutBytesConcat(x.slot.entry.outgoing, [OutData(chunk)]);
    assert OutBytes([OutData(chunk)]) == chunk + OutBytes([]) == chunk;
    assert Pending(x') == Pending(x) + chunk;
    Associates(Arrived(y) + DataBytes(x.wire), Pending(x), chunk);
    assert Arrived(y) <= x.hist.accepted <= x'.hist.accepted;
  }

  lemma WriteKeeps(x: LaneEnd, y: LaneEnd, chunk: Bytes)
    requires Pair(x, y) && MayWrite(x) && |chunk| <= x.slot.entry.Available()
    ensures Pair(WriteLane(x, chunk), y)
  {
    WriteBytes(x, y, chunk);
    assert Arrived(WriteLane(x, chunk)) == Arrived(x);
  }

  function ReadLane(x: LaneEnd, m: Message): LaneEnd
    requires x.slot.Live? && x.slot.entry.inbound != []
  {
    var e := x.slot.entry;
    var grants := ReadGrants(e);
    LaneEnd(Live(ReadEntry(e)), if grants then x.control + [m] else x.control, x.wire, x.open,
            x.hist.(delivered := x.hist.delivered + e.inbound[0],
                    credits := x.hist.credits + (if grants then 1 else 0)))
  }

  /** One more announcement is paid for by a quarter window of consumed bytes. */
  lemma CreditPaid(credits: nat, before: nat, after: nat)
    requires credits * (STREAM_WINDOW / 4) + STREAM_WINDOW <= before
    requires before + STREAM_WINDOW / 4 <= after
    ensures (credits + 1) * (STREAM_WINDOW / 4) + STREAM_WINDOW <= after
  {
    assert (credits + 1) * (STREAM_WINDOW / 4) == credits * (STREAM_WINDOW / 4) + STREAM_WINDOW / 4;
  }

  lemma ReadLocal(x: LaneEnd, m: Message)
    requires Local(x) && x.slot.Live? && x.slot.entry.handleAlive && x.slot.entry.inbound != []
    ensures Local(ReadLane(x, m)) && Arrived(ReadLane(x, m)) == Arrived(x)
  {
    var e := x.slot.entry;
    assert Flat(e.inbound) == e.inbound[0] + Flat(e.inbound[1..]);
    if ReadGrants(e) {
      CreditPaid(x.hist.credits, e.announced, ReadEntry(e).announced);
    }
  }

  lemma ReadCredit(x: LaneEnd, y: LaneEnd, m: Message)
    requires x.slot.Live? && x.slot.entry.inbound != [] && CreditFlow(y, x)
    requires m.Credit? && m.maxOffset == ReadEntry(x.slot.entry).announced
    requires x.slot.entry.announced <= m.maxOffset
    requires x.slot.entry.received <= x.slot.entry.announced
    ensures CreditFlow(y, ReadLane(x, m))
  {
    var e := x.slot.entry;
    if ReadGrants(e) && x.open && !y.slot.Dead? {
      assert x.wire + (x.control + [m]) == (x.wire + x.control) + [m];
      LimitAfterConcat(EntryOf(y).limit, x.wire + x.control, [m]);
      assert LimitAfter(e.announced, [m]) == LimitAfter(Max(e.announced, m.maxOffset), []);
    }
  }

  lemma ReadKeeps(x: LaneEnd, y: LaneEnd, m: Message)
    requires Pair(x, y) && x.slot.Live? && x.slot.entry.handleAlive && x.slot.entry.inbound != []
    requires m.Credit? && m.maxOffset == ReadEntry(x.slot.entry).announced
    ensures Pair(ReadLane(x, m), y)
  {
    ReadLocal(x, m);
    ReadCredit(x, y, m);
    ReadEnds(x, y, m);
  }

  /** Reading ends no direction. */
  lemma ReadEnds(x: LaneEnd, y: LaneEnd, m: Message)
    requires EndFlow(x, y) && EndFlow(y, x) && m.Credit?
    requires x.slot.Live? && x.slot.entry.inbound != []
    ensures EndFlow(ReadLane(x, m), y) && EndFlow(y, ReadLane(x, m))
  {
    assert HasFailure(ReadLane(x, m).control) ==> HasFailure(x.control);
  }

  function FinishLane(x: LaneEnd): LaneEnd
    requires x.slot.Live?
  {
    x.(slot := Live(FinishEntry(x.slot.entry)))
  }

  lemma FinishKeeps(x: LaneEnd, y: LaneEnd)
    requires Pair(x, y) && x.slot.Live? && x.slot.entry.handleAlive
    requires x.slot.entry.failure.None? && !x.slot.entry.finishQueued
    ensures Pair(FinishLane(x), y)
  {
    var x' := FinishLane(x);
    OutBytesConcat(x.slot.entry.outgoing, [OutFinish]);
    assert OutBytes([OutFinish]) == OutBytes([]) == [];
    assert Pending(x') == Pending(x);
    assert Arrived(x') == Arrived(x);
  }

  function SlotAfter(e: Entry): Slot {
    if e.Finished() then Dead else Live(e)
  }

  function DropLane(x: LaneEnd): LaneEnd
    requires x.slot.Live?
  {
    x.(slot := SlotAfter(DropEntry(x.slot.entry)))
  }

  lemma DropKeeps(x: LaneEnd, y: LaneEnd)
    requires Pair(x, y) && x.slot.Live? && x.slot.entry.handleAlive && !DropResets(x.slot.entry)
    ensures Pair(DropLane(x), y)
  {
    var x' := DropLane(x);
    assert x.hist.delivered <= Arrived(x) <= y.hist.accepted;
    assert Arrived(x') == x.hist.delivered;
    assert !Listening(x');
    if x'.slot.Dead? {
      assert OutBytes([]) == [] && Pending(x') == Pending(x) == [];
      if !y.slot.Dead? {
        LimitAfterGrows(x.slot.entry.limit, y.wire + PendingControl(y));
      }
    }
  }

  // ----- The writer's steps -----

  function TransmitControlLane(x: LaneEnd): LaneEnd
    requires x.control != []
  {
    x.(control := x.control[1..], wire := x.wire + [x.control[0]])
  }

  /** Which ends of the direction are on the wire once `m` joined it. */
  lemma WireEnds(wire: seq<Message>, m: Message)
    ensures HasFinish(wire + [m]) <==> HasFinish(wire) || m.Finish?
    ensures HasFailure(wire + [m]) <==> HasFailure(wire) || Fails(m)
  {
    var wire' := wire + [m];
    assert wire'[|wire|] == m;
    if HasFinish(wire) {
      var k :| 0 <= k < |wire| && wire[k].Finish?;
      assert wire'[k].Finish?;
    }
    if HasFailure(wire) {
      var k :| 0 <= k < |wire| && Fails(wire[k]);
      assert Fails(wire'[k]);
    }
  }

  /** What moving one message from the queue to the wire does to the wire. */
  lemma WireGrows(wire: seq<Message>, m: Message)
    requires Orderly(wire)
    requires Carries(m) ==> !HasFinish(wire) && !HasFailure(wire)
    ensures DataBytes(wire + [m]) == DataBytes(wire) + (if m.Data? then m.data else [])
    ensures Orderly(wire + [m])
    ensures HasFinish(wire + [m]) <==> HasFinish(wire) || m.Finish?
    ensures HasFailure(wire + [m]) <==> HasFailure(wire) || Fails(m)
    ensures Quiet(wire + [m]) <==> Quiet(wire) && !Carries(m)
  {
    DataBytesConcat(wire, [m]);
    assert DataBytes([]) == [];
    WireEnds(wire, m);
    var wire' := wire + [m];
    assert wire'[|wire|] == m;
    forall k | 0 <= k < |wire| ensures wire'[k] == wire[k] {
    }
  }

  /** What `y` is still told and sent by `x` is only regrouped. */
  lemma TransmitControlOut(x: LaneEnd, y: LaneEnd)
    requires Flow(x, y) && x.open && x.control != []
    ensures Flow(TransmitControlLane(x), y)
  {
    var x', m := TransmitControlLane(x), x.control[0];
    assert !Carries(m);
    WireGrows(x.wire, m);
    assert DataBytes(x'.wire) == DataBytes(x.wire);
    assert Fails(m) ==> HasFailure(x.control);
    assert HasFailure(x'.control) ==> HasFailure(x.control);
  }

  /** What `x` hears and owes does not change. */
  lemma TransmitControlIn(x: LaneEnd, y: LaneEnd)
    requires Flow(y, x) && x.open && x.control != []
    ensures Flow(y, TransmitControlLane(x))
  {
    var x' := TransmitControlLane(x);
    assert x'.wire + x'.control == x.wire + x.control;
    assert Arrived(x') == Arrived(x);
  }

  lemma TransmitControlKeeps(x: LaneEnd, y: LaneEnd)
    requires Pair(x, y) && x.open && x.control != []
    ensures Pair(TransmitControlLane(x), y)
  {
    TransmitControlOut(x, y);
    TransmitControlIn(x, y);
  }

  function TakeLane(x: LaneEnd): LaneEnd
    requires x.slot.Live? && x.slot.entry.outgoing != []
  {
    x.(slot := SlotAfter(TakeEntry(x.slot.entry)))
  }

  function TransmitDataLane(x: LaneEnd, m: Message): LaneEnd
    requires x.slot.Live? && x.slot.entry.outgoing != []
  {
    TakeLane(x).(wire := x.wire + [m])
  }

  /** The wire before a queued item leaves ends no direction. */
  lemma NotEnded(x: LaneEnd, y: LaneEnd)
    requires Pair(x, y) && x.slot.Live? && x.slot.entry.outgoing != []
    ensures !HasFinish(x.wire) && !HasFailure(x.wire) && !HasFailure(x.control) && !HeardEnd(y)
  {
  }

  predicate Matches(m: Message, item: Outgoing) {
    match item
    case OutData(data) => m.Data? && m.data == data
    case OutFinish => m.Finish?
  }

  lemma TransmitDataCredit(x: LaneEnd, y: LaneEnd, m: Message)
    requires Pair(x, y) && x.open && x.slot.Live? && x.slot.entry.outgoing != [] && x.control == []
    requires Matches(m, x.slot.entry.outgoing[0])
    ensures CreditFlow(TransmitDataLane(x, m), y) && CreditFlow(y, TransmitDataLane(x, m))
  {
    var e := x.slot.entry;
    TransmitDataSize(x, m);
    if !y.slot.Dead? {
      LimitAfterConcat(EntryOf(y).limit, x.wire, [m]);
      assert x.wire + [m] + [] == x.wire + [m] && x.wire + [] == x.wire;
      LimitAfterGrows(e.limit, y.wire + PendingControl(y));
    }
  }

  lemma TransmitDataSize(x: LaneEnd, m: Message)
    requires x.slot.Live? && x.slot.entry.outgoing != [] && Matches(m, x.slot.entry.outgoing[0])
    ensures |DataBytes(x.wire + [m])| + |OutBytes(x.slot.entry.outgoing[1..])|
         == |DataBytes(x.wire)| + |OutBytes(x.slot.entry.outgoing)|
  {
    DataBytesConcat(x.wire, [m]);
    assert DataBytes([m]) == (if m.Data? then m.data else []) + DataBytes([]);
  }

  lemma TransmitDataBytes(x: LaneEnd, y: LaneEnd, m: Message)
    requires Pair(x, y) && x.open && x.slot.Live? && x.slot.entry.outgoing != []
    requires Matches(m, x.slot.entry.outgoing[0])
    ensures ByteFlow(TransmitDataLane(x, m), y)
  {
    var x' := TransmitDataLane(x, m);
    var e := x.slot.entry;
    DataBytesConcat(x.wire, [m]);
    var sent := if m.Data? then m.data else [];
    assert OutBytes(e.outgoing) == sent + OutBytes(e.outgoing[1..]);
    assert DataBytes([m]) == sent + DataBytes([]) == sent;
    assert Pending(x') == OutBytes(e.outgoing[1..]);
    Associates(Arrived(y), DataBytes(x.wire), sent);
    Associates(Arrived(y) + DataBytes(x.wire), sent, Pending(x'));
    assert Arrived(y) + DataBytes(x'.wire) + Pending(x') == Arrived(y) + DataBytes(x.wire) + Pending(x);
  }

  lemma TransmitDataKeeps(x: LaneEnd, y: LaneEnd, m: Message)
    requires Pair(x, y) && x.open && x.slot.Live? && x.slot.entry.outgoing != [] && x.control == []
    requires Matches(m, x.slot.entry.outgoing[0])
    ensures Pair(TransmitDataLane(x, m), y)
  {
    NotEnded(x, y);
    WireGrows(x.wire, m);
    TransmitDataCredit(x, y, m);
    TransmitDataBytes(x, y, m);
    assert Arrived(TransmitDataLane(x, m)) == Arrived(x);
  }

  function CloseLane(x: LaneEnd): LaneEnd {
    x.(open := false)
  }

  lemma CloseBytes(x: LaneEnd, y: LaneEnd)
    requires Pair(x, y) && x.open
    ensures ByteFlow(CloseLane(x), y)
  {
    assert Arrived(y) + DataBytes(x.wire) + [] == Arrived(y) + DataBytes(x.wire);
    assert Arrived(y) + DataBytes(x.wire) <= Arrived(y) + DataBytes(x.wire) + Pending(x);
    if HasFinish(x.wire) {
      assert Ended(x);
      assert OutBytes([]) == [];
    }
  }

  /** A closed end tells its peer of no more credit. */
  lemma ClosedLimit(x: LaneEnd, limit: nat)
    ensures LimitAfter(limit, CloseLane(x).wire + PendingControl(CloseLane(x)))
         <= LimitAfter(limit, x.wire + PendingControl(x))
  {
    assert CloseLane(x).wire + PendingControl(CloseLane(x)) == x.wire;
    LimitAfterConcat(limit, x.wire, PendingControl(x));
    LimitAfterGrows(LimitAfter(limit, x.wire), PendingControl(x));
  }

  lemma CloseCredit(x: LaneEnd, y: LaneEnd)
    requires CreditFlow(y, x) && x.open
    ensures CreditFlow(y, CloseLane(x))
  {
    if !y.slot.Dead? && !x.slot.Dead? {
      ClosedLimit(x, EntryOf(y).limit);
    }
  }

  lemma CloseKeeps(x: LaneEnd, y: LaneEnd)
    requires Pair(x, y)
    ensures Pair(CloseLane(x), y)
  {
    if x.open {
      CloseBytes(x, y);
      CloseCredit(x, y);
      assert Arrived(CloseLane(x)) == Arrived(x);
    }
  }

  /** A frame the transport refused is gone, and the end is closed. */
  lemma LoseControlKeeps(x: LaneEnd, y: LaneEnd)
    requires Pair(x, y) && x.control != []
    ensures Pair(CloseLane(x.(control := x.control[1..])), y)
  {
    CloseKeeps(x, y);
    var x' := CloseLane(x.(control := x.control[1..]));
    assert HasFailure(x'.control) ==> HasFailure(x.control);
  }

  lemma LoseDataKeeps(x: LaneEnd, y: LaneEnd)
    requires Pair(x, y) && x.slot.Live? && x.slot.entry.outgoing != []
    ensures Pair(CloseLane(TakeLane(x)), y)
  {
    CloseKeeps(x, y);
    NotEnded(x, y);
    LoseDataCredit(CloseLane(x), y);
    LoseDataBytes(CloseLane(x), y);
    LoseDataEnds(CloseLane(x), y);
  }

  /** A closed end no longer counts on what it has queued. */
  lemma LoseDataBytes(x: LaneEnd, y: LaneEnd)
    requires ByteFlow(x, y) && ByteFlow(y, x) && Local(x) && !x.open && x.slot.Live? && x.slot.entry.outgoing != []
    requires !HasFinish(x.wire)
    ensures ByteFlow(TakeLane(x), y) && ByteFlow(y, TakeLane(x))
  {
    assert Arrived(TakeLane(x)) == Arrived(x);
    assert Pending(TakeLane(x)) == Pending(x);
  }

  lemma LoseDataEnds(x: LaneEnd, y: LaneEnd)
    requires EndFlow(x, y) && EndFlow(y, x) && x.slot.Live? && x.slot.entry.outgoing != []
    requires !HasFinish(x.wire) && !HasFailure(x.wire) && !HasFailure(x.control) && !HeardEnd(y)
    ensures EndFlow(TakeLane(x), y) && EndFlow(y, TakeLane(x))
  {
  }

  lemma LoseDataCredit(x: LaneEnd, y: LaneEnd)
    requires Pair(x, y) && !x.open && x.slot.Live? && x.slot.entry.outgoing != []
    ensures CreditFlow(TakeLane(x), y) && CreditFlow(y, TakeLane(x))
  {
    if !y.slot.Dead? {
      LimitAfterGrows(x.slot.entry.limit, y.wire + PendingControl(y));
    }
  }

  /** The scheduling flag and the Server's answer play no part in a lane. */
  lemma TouchKeeps(x: LaneEnd, y: LaneEnd, e: Entry)
    requires Pair(x, y) && x.slot.Live?
    requires e == x.slot.entry.(queued := e.queued, answer := e.answer)
    ensures Pair(x.(slot := Live(e)), y)
  {
    assert Arrived(x.(slot := Live(e))) == Arrived(x);
    assert Pending(x.(slot := Live(e))) == Pending(x);
  }

  // ----- The reader's steps: `x` takes the first message on `y`'s wire -----

  function Heard(y: LaneEnd): LaneEnd
    requires y.wire != []
  {
    y.(wire := y.wire[1..])
  }

  /** Facts about the rest of `y`'s wire once its first message is gone. */
  lemma HeardFacts(x: LaneEnd, y: LaneEnd)
    requires Pair(x, y) && y.wire != []
    ensures var y' := Heard(y);
            && Local(y') && Orderly(y'.wire)
            && y.wire == [y.wire[0]] + y'.wire
            && DataBytes(y.wire) == (if y.wire[0].Data? then y.wire[0].data else []) + DataBytes(y'.wire)
            && (HasFinish(y'.wire) ==> HasFinish(y.wire))
            && (HasFailure(y'.wire) ==> HasFailure(y.wire))
            && (HasFinish(y.wire) && !y.wire[0].Finish? ==> HasFinish(y'.wire))
            && (y.wire[0].Finish? ==> HasFinish(y.wire))
            && (Fails(y.wire[0]) ==> HasFailure(y.wire))
            && (y.wire[0].Finish? || Fails(y.wire[0]) ==> Quiet(y'.wire))
            && (Quiet(y.wire) ==> Quiet(y'.wire))
            && !y.slot.Unborn?
  {
    var y' := Heard(y);
    if HasFinish(y'.wire) {
      var k :| 0 <= k < |y'.wire| && y'.wire[k].Finish?;
      assert y.wire[k + 1].Finish?;
    }
    if HasFailure(y'.wire) {
      var k :| 0 <= k < |y'.wire| && Fails(y'.wire[k]);
      assert Fails(y.wire[k + 1]);
    }
    if HasFinish(y.wire) && !y.wire[0].Finish? {
      var k :| 0 <= k < |y.wire| && y.wire[k].Finish?;
      assert y'.wire[k - 1].Finish?;
    }
    forall k | 0 <= k < |y'.wire|
      ensures y.wire[0].Finish? || Fails(y.wire[0]) || Quiet(y.wire) ==> !Carries(y'.wire[k])
    {
      assert y'.wire[k] == y.wire[k + 1];
    }
    forall p, q | 0 <= p < q < |y'.wire| && (y'.wire[p].Finish? || Fails(y'.wire[p]))
      ensures !Carries(y'.wire[q])
    {
      assert y'.wire[p] == y.wire[p + 1] && y'.wire[q] == y.wire[q + 1];
    }
  }

  /** Taking the first message off the wire gives its credit, if it carries any. */
  lemma HeardLimit(y: LaneEnd, limit: nat)
    requires y.wire != []
    ensures LimitAfter(limit, y.wire + PendingControl(y))
         == LimitAfter(if y.wire[0].Credit? then Max(limit, y.wire[0].maxOffset) else limit,
                       Heard(y).wire + PendingControl(Heard(y)))
  {
    assert (y.wire + PendingControl(y))[1..] == Heard(y).wire + PendingControl(Heard(y));
  }

  lemma {:induction false} QuietCarriesNothing(messages: seq<Message>)
    requires Quiet(messages)
    ensures DataBytes(messages) == []
  {
    if messages != [] {
      assert !Carries(messages[0]);
      forall k | 0 <= k < |messages[1..]| ensures !Carries(messages[1..][k]) {
        assert messages[1..][k] == messages[k + 1];
      }
      QuietCarriesNothing(messages[1..]);
    }
  }

  /** A message that changes nothing at `x`: bytes for a deaf Stream, credit it has, an answer. */
  predicate Ignorable(x: LaneEnd, m: Message) {
    || x.slot.Dead?
    || Neutral(m)
    || (x.slot.Live? && m.Data? && Deaf(x.slot.entry))
    || (x.slot.Live? && m.Credit? && m.maxOffset <= x.slot.entry.limit)
  }

  /** What `y` hears from `x` does not change when its own wire moves on. */
  lemma IgnoreOut(x: LaneEnd, y: LaneEnd)
    requires Pair(x, y) && y.wire != [] && Ignorable(x, y.wire[0])
    ensures Flow(x, Heard(y))
  {
    HeardFacts(x, y);
    if !x.slot.Dead? {
      HeardLimit(y, EntryOf(x).limit);
    }
    assert Arrived(Heard(y)) == Arrived(y);
  }

  lemma IgnoreIn(x: LaneEnd, y: LaneEnd)
    requires Pair(x, y) && y.wire != [] && Ignorable(x, y.wire[0])
    ensures Flow(Heard(y), x)
  {
    HeardFacts(x, y);
    var m := y.wire[0];
    assert |DataBytes(Heard(y).wire)| <= |DataBytes(y.wire)|;
    assert Listening(x) ==> !m.Data? && DataBytes(Heard(y).wire) == DataBytes(y.wire);
  }

  lemma IgnoreKeeps(x: LaneEnd, y: LaneEnd)
    requires Pair(x, y) && y.wire != [] && Ignorable(x, y.wire[0])
    ensures Pair(x, Heard(y))
  {
    HeardFacts(x, y);
    IgnoreOut(x, y);
    IgnoreIn(x, y);
  }

  lemma HearDataCredit(x: LaneEnd, y: LaneEnd)
    requires Pair(x, y) && y.wire != [] && y.wire[0].Data?
    requires x.slot.Live? && !Deaf(x.slot.entry)
    ensures x.slot.entry.received + |y.wire[0].data| <= x.slot.entry.announced
    ensures CreditFlow(Heard(y), x.(slot := Live(HearData(x.slot.entry, y.wire[0].data))))
  {
    HeardFacts(x, y);
    if !y.slot.Dead? {
      LimitAfterGrows(EntryOf(y).limit, x.wire + PendingControl(x));
    }
  }

  lemma HearDataBytes(x: LaneEnd, y: LaneEnd)
    requires Pair(x, y) && y.wire != [] && y.wire[0].Data?
    requires x.slot.Live? && !Deaf(x.slot.entry)
    ensures var x' := x.(slot := Live(HearData(x.slot.entry, y.wire[0].data)));
            ByteFlow(Heard(y), x') && Arrived(x') == Arrived(x) + y.wire[0].data
  {
    var y', e, data := Heard(y), x.slot.entry, y.wire[0].data;
    HeardFacts(x, y);
    var x' := x.(slot := Live(HearData(e, data)));
    FlatConcat(e.inbound, [data]);
    FlatOne(data);
    Associates(x.hist.delivered, Flat(e.inbound), data);
    assert Arrived(x') == Arrived(x) + data;
    Associates(Arrived(x), data, DataBytes(y'.wire));
    assert Arrived(x') + DataBytes(y'.wire) + Pending(y') == Arrived(x) + DataBytes(y.wire) + Pending(y);
    PrefixTwice(Arrived(x'), DataBytes(y'.wire), Pending(y'), y.hist.accepted);
  }

  lemma PrefixTwice(a: Bytes, b: Bytes, c: Bytes, all: Bytes)
    requires a + b + c <= all
    ensures a <= all
  {
    assert a <= a + b <= a + b + c;
  }

  lemma HearDataKeeps(x: LaneEnd, y: LaneEnd)
    requires Pair(x, y) && y.wire != [] && y.wire[0].Data?
    requires x.slot.Live? && !Deaf(x.slot.entry)
    ensures x.slot.entry.received + |y.wire[0].data| <= x.slot.entry.announced
    ensures Pair(x.(slot := Live(HearData(x.slot.entry, y.wire[0].data))), Heard(y))
  {
    HeardFacts(x, y);
    HeardLimit(y, x.slot.entry.limit);
    HearDataCredit(x, y);
    HearDataBytes(x, y);
  }

  lemma RaiseKeeps(x: LaneEnd, y: LaneEnd, limit: nat)
    requires Pair(x, y) && x.slot.Live? && x.slot.entry.limit <= limit
    requires LimitAfter(limit, y.wire + PendingControl(y))
          == LimitAfter(x.slot.entry.limit, y.wire + PendingControl(y))
    ensures Pair(x.(slot := Live(x.slot.entry.(limit := limit))), y)
  {
    assert Arrived(x.(slot := Live(x.slot.entry.(limit := limit)))) == Arrived(x);
  }

  lemma HearCreditKeeps(x: LaneEnd, y: LaneEnd)
    requires Pair(x, y) && y.wire != [] && y.wire[0].Credit? && x.slot.Live?
    ensures Pair(x.(slot := Live(x.slot.entry.(limit := Max(x.slot.entry.limit, y.wire[0].maxOffset)))), Heard(y))
  {
    var limit := Max(x.slot.entry.limit, y.wire[0].maxOffset);
    HeardLimit(y, limit);
    HeardLimit(y, x.slot.entry.limit);
    RaiseKeeps(x, y, limit);
    IgnoreKeeps(x.(slot := Live(x.slot.entry.(limit := limit))), y);
  }

  lemma HearFinishKeeps(x: LaneEnd, y: LaneEnd)
    requires Pair(x, y) && y.wire != [] && y.wire[0].Finish? && x.slot.Live?
    ensures Pair(x.(slot := Live(x.slot.entry.(peerFinished := true))), Heard(y))
  {
    var y' := Heard(y);
    HeardFacts(x, y);
    QuietCarriesNothing(y'.wire);
    assert OutBytes([]) == [] && Pending(y) == [];
    HeardLimit(y, EntryOf(x).limit);
    var x' := x.(slot := Live(x.slot.entry.(peerFinished := true)));
    assert Arrived(x') == Arrived(x);
    if x.slot.entry.handleAlive && !x.hist.gaveUp {
      assert !HeardEnd(x);
      assert Listening(x) && Intact(y);
      assert Arrived(x) + DataBytes(y.wire) + Pending(y) == Arrived(x);
    }
  }

  lemma HearFailureKeeps(x: LaneEnd, y: LaneEnd, failure: StreamFailure)
    requires Pair(x, y) && y.wire != [] && Fails(y.wire[0]) && x.slot.Live?
    ensures Pair(x.(slot := SlotAfter(HearFailure(x.slot.entry, failure))), Heard(y))
  {
    var y' := Heard(y);
    HeardFacts(x, y);
    var x' := x.(slot := SlotAfter(HearFailure(x.slot.entry, failure)));
    assert OutBytes([]) == [] && Pending(x') == [];
    HeardLimit(y, EntryOf(x).limit);
    assert x.hist.delivered <= Arrived(x) && Arrived(x') <= Arrived(x) <= y.hist.accepted;
    if x'.slot.Dead? && !y.slot.Dead? {
      LimitAfterGrows(x.slot.entry.limit, y.wire + PendingControl(y));
    }
  }

  lemma HearAnswerKeeps(x: LaneEnd, y: LaneEnd, answer: Option<Option<nat>>)
    requires Pair(x, y) && y.wire != [] && Neutral(y.wire[0]) && x.slot.Live?
    ensures Pair(x.(slot := Live(x.slot.entry.(answer := answer))), Heard(y))
  {
    IgnoreKeeps(x, y);
    TouchKeeps(x, Heard(y), x.slot.entry.(answer := answer));
  }

  /** The Server takes a new Stream. */
  lemma AdmitKeeps(x: LaneEnd, y: LaneEnd)
    requires Pair(x, y) && y.wire != [] && Neutral(y.wire[0]) && x.slot.Unborn?
    ensures Pair(x.(slot := Live(NewEntry)), Heard(y))
  {
    HeardFacts(x, y);
    IgnoreKeeps(x, y);
    assert Flat([]) == [] && OutBytes([]) == [];
  }

  /** The Server refuses a Stream by itself and keeps nothing of it. */
  lemma TurnAwayKeeps(x: LaneEnd, y: LaneEnd, m: Message)
    requires Pair(x, y) && y.wire != [] && Neutral(y.wire[0]) && x.slot.Unborn? && Fails(m)
    ensures Pair(x.(slot := Dead, control := x.control + [m]), Heard(y))
  {
    HeardFacts(x, y);
    IgnoreKeeps(x, y);
    var x' := x.(slot := Dead, control := x.control + [m]);
    assert x'.control == [m];
    assert OutBytes([]) == [];
  }

  /** What any message but `Open` does to a lane that knows the Stream. */
  function HearLane(x: LaneEnd, m: Message): LaneEnd
    requires m.NamesStream()
  {
    if !x.slot.Live? then x
    else
      var e := x.slot.entry;
      match m
      case Opened(_, size) => x.(slot := Live(e.(answer := Some(size))))
      case Credit(_, offset) => x.(slot := Live(e.(limit := Max(e.limit, offset))))
      case Finish(_) => x.(slot := Live(e.(peerFinished := true)))
      case Data(_, data) => if Deaf(e) then x else x.(slot := Live(HearData(e, data)))
      case OpenFailed(_, error, detail) => x.(slot := SlotAfter(HearFailure(e, StreamFailure(error, detail))))
      case Reset(_, error, detail) => x.(slot := SlotAfter(HearFailure(e, StreamFailure(error, detail))))
      case Open(_, _) => x
  }

  lemma HearKeeps(x: LaneEnd, y: LaneEnd)
    requires Pair(x, y) && y.wire != [] && y.wire[0].NamesStream() && !y.wire[0].Open? && !x.slot.Unborn?
    ensures x.slot.Live? && y.wire[0].Data? && !Deaf(x.slot.entry) ==>
              x.slot.entry.received + |y.wire[0].data| <= x.slot.entry.announced
    ensures Pair(HearLane(x, y.wire[0]), Heard(y))
  {
    if x.slot.Dead? {
      IgnoreKeeps(x, y);
    } else {
      match y.wire[0]
      case Opened(_, size) => HearAnswerKeeps(x, y, Some(size));
      case Credit(_, _) => HearCreditKeeps(x, y);
      case Finish(_) => HearFinishKeeps(x, y);
      case Data(_, _) =>
        if Deaf(x.slot.entry) {
          IgnoreKeeps(x, y);
        } else {
          HearDataKeeps(x, y);
        }
      case OpenFailed(_, error, detail) => HearFailureKeeps(x, y, StreamFailure(error, detail));
      case Reset(_, error, detail) => HearFailureKeeps(x, y, StreamFailure(error, detail));
    }
  }

  /** With everything delivered and read, and every credit home, most of a window is free. */
  lemma DrainedHasCredit(s: LaneEnd, r: LaneEnd)
    requires Local(s) && Local(r) && Flow(s, r)
    requires s.open && r.open && s.slot.Live? && r.slot.Live?
    requires s.slot.entry.failure.None? && !Deaf(r.slot.entry) && r.slot.entry.inbound == []
    requires DataBytes(s.wire) == [] && Pending(s) == []
    requires LimitAfter(s.slot.entry.limit, r.wire + r.control) == s.slot.entry.limit
    ensures STREAM_WINDOW - STREAM_WINDOW / 4 < s.slot.entry.Available()
  {
    assert Arrived(r) + [] + [] == r.hist.delivered;
  }
}

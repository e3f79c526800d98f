/**
 The invariant of all runs of a Stream connection, and what it means: two honest ends never
 break the protocol, bytes arrive in order and whole, credit neither runs out nor piles up,
 and nothing leaks.
 */
module StreamResults {
  import opened Wrappers
  import opened Sequences
  import opened Streams
  import opened StreamLanes
  import opened StreamScheduling
  import opened StreamRuns

  // ----- What one end's own steps do to its queues -----

  /** A step of a handle: nothing on the wire moves, and at most one control message is queued. */
  predicate HandleStep(a: Action) {
    a.DoOpen? || a.DoAccept? || a.DoRefuse? || a.DoWrite? || a.DoRead? || a.DoFinish? || a.DoReset? || a.DoDrop?
  }

  /** The control messages the step queued. */
  function Queues(x: End, x': End): seq<Message> {
    if |x.state.control| <= |x'.state.control| then x'.state.control[|x.state.control|..] else []
  }

  lemma HandleStepShape(side: Side, x: End, a: Action)
    requires EndInv(side, x) && Allowed(side, x, a) && HandleStep(a)
    requires NeedsEntry(a) ==> a.id in x.state.streams
    ensures var x' := Act(x, a);
            var more := Queues(x, x');
            && x'.wire == x.wire && x'.state.closed == x.state.closed
            && x'.state.control == x.state.control + more
            && |more| <= 1
            && (a.DoOpen? && more != [] ==>
                  more[0].Open? && more[0].stream == x.state.highest + 1 == x'.state.highest && x.state.closed.None?)
            && (!a.DoOpen? || more == [] ==> x'.state.highest == x.state.highest)
            && (!a.DoOpen? && more != [] ==>
                  Sendable(side, more[0]) && !more[0].Close? && !more[0].Open? && Addresses(more[0], x.state.highest))
  {
    var x' := Act(x, a);
    if !a.DoOpen? {
      assert a.id in x.state.streams && EntryConsistent(x.state, a.id);
    }
    assert x'.state.control == x.state.control
           || x'.state.control == x.state.control + [x'.state.control[|x.state.control|]];
  }

  lemma {:induction false} NextDataShape(st: State)
    requires Consistent(st)
    ensures var next := NextData(st);
            && next.state.control == st.control && next.state.highest == st.highest && next.state.closed == st.closed
            && (next.message.Some? ==> Carries(next.message.value) && Addresses(next.message.value, st.highest))
            && (forall id :: id in next.state.streams ==>
                  id in st.streams && next.state.streams[id].handleAlive == st.streams[id].handleAlive)
            && (forall id :: id in st.streams && st.streams[id].handleAlive ==> id in next.state.streams)
    decreases |st.ready|
  {
    if st.ready != [] {
      if Skips(st) {
        SkipConsistent(st);
        NextDataShape(SkipFront(st));
      } else {
        assert EntryConsistent(st, st.ready[0]);
      }
    }
  }

  // ----- Every step keeps an end's bookkeeping -----

  lemma HandleStepConsistent(x: End, a: Action)
    requires Consistent(x.state) && HandlesLive(x) && HandleStep(a)
    requires a.DoOpen? || (a.id in x.handles)
    ensures Consistent(Act(x, a).state)
  {
    var st := x.state;
    match a
    case DoOpen(target) => if OpenStream(st, target).Ok? { OpenConsistent(st, target); }
    case DoAccept(_, _) =>
    case DoRefuse(id, error, detail) => RefuseConsistent(st, id, error, detail);
    case DoWrite(id, rest) => if Write(st, id, rest).Took? { WriteConsistent(st, id, rest); }
    case DoRead(id) => if Read(st, id).Chunk? { ReadConsistent(st, id); }
    case DoFinish(id) => FinishConsistent(st, id);
    case DoReset(id, error, detail) => ResetConsistent(st, id, error, detail);
    case DoDrop(id) => DropConsistent(st, id);
  }

  /** A handle's step touches its own Stream alone. */
  lemma HandleStepElsewhere(x: End, a: Action, id: nat)
    requires HandleStep(a) && !a.DoOpen? && a.id != id
    requires NeedsEntry(a) ==> a.id in x.state.streams
    ensures var x' := Act(x, a);
            && (id in x'.handles <==> id in x.handles)
            && (id in x'.state.streams <==> id in x.state.streams)
            && (id in x.state.streams ==> x'.state.streams[id] == x.state.streams[id])
  {
  }

  lemma HandleStepHandles(x: End, a: Action)
    requires Consistent(x.state) && HandlesLive(x) && HandleStep(a)
    requires a.DoOpen? || a.id in x.handles
    ensures HandlesLive(Act(x, a))
  {
    if a.DoOpen? {
      var id := x.state.highest + 1;
      assert id !in x.state.streams;
    } else {
      var x' := Act(x, a);
      assert a.id in x'.handles <==> a.id in x'.state.streams && x'.state.streams[a.id].handleAlive;
      forall id | id != a.id
        ensures id in x'.handles <==> id in x'.state.streams && x'.state.streams[id].handleAlive
      {
        HandleStepElsewhere(x, a, id);
      }
    }
  }

  lemma QueuedKeepsEnd(side: Side, x: End, x': End, more: seq<Message>)
    requires EndInv(side, x) && Consistent(x'.state) && HandlesLive(x')
    requires x'.wire == x.wire && x'.state.control == x.state.control + more
    requires forall k :: 0 <= k < |more| ==> Sendable(side, more[k]) && !more[k].Close?
    ensures EndInv(side, x')
  {
  }

  lemma HandleStepKeepsEnd(side: Side, x: End, a: Action)
    requires EndInv(side, x) && Allowed(side, x, a) && HandleStep(a)
    requires NeedsEntry(a) ==> a.id in x.state.streams
    ensures EndInv(side, Act(x, a))
  {
    var x', more := Act(x, a), Queues(x, Act(x, a));
    assert Consistent(x'.state) && HandlesLive(x') by {
      HandleStepConsistent(x, a);
      HandleStepHandles(x, a);
    }
    HandleStepShape(side, x, a);
    QueuedKeepsEnd(side, x, x', more);
  }

  /** Taking the next message for the wire, whatever becomes of it. */
  lemma TakingKeepsEnd(side: Side, x: End)
    requires EndInv(side, x)
    ensures var next := NextMessage(x.state);
            && EndInv(side, x.(state := next.state))
            && (next.message.Some? ==> Sendable(side, next.message.value))
  {
    NextDataConsistent(x.state);
    NextDataShape(x.state);
  }

  lemma SendKeepsEnd(side: Side, x: End, m: Message)
    requires EndInv(side, x) && Sendable(side, m)
    ensures EndInv(side, Sends(x, m))
  {
  }

  lemma TransmitKeepsEnd(side: Side, x: End)
    requires EndInv(side, x)
    ensures EndInv(side, Transmits(x))
  {
    if x.state.closed.Some? {
      SendKeepsEnd(side, x, Close);
    } else {
      TakingKeepsEnd(side, x);
      var next := NextMessage(x.state);
      if next.message.Some? {
        SendKeepsEnd(side, x.(state := next.state), next.message.value);
      }
    }
  }

  lemma CloseKeepsEnd(side: Side, x: End, reason: string)
    requires EndInv(side, x)
    ensures EndInv(side, Closes(x, reason))
  {
  }

  lemma LoseKeepsEnd(side: Side, x: End)
    requires EndInv(side, x)
    ensures EndInv(side, Loses(x))
  {
    if x.state.closed.None? {
      TakingKeepsEnd(side, x);
      NextDataShape(x.state);
      CloseKeepsEnd(side, x.(state := NextMessage(x.state).state), "write failed");
    }
  }

  lemma ActKeepsEnd(side: Side, x: End, a: Action)
    requires EndInv(side, x) && Allowed(side, x, a)
    requires NeedsEntry(a) ==> a.id in x.state.streams
    ensures EndInv(side, Act(x, a))
  {
    if HandleStep(a) {
      HandleStepKeepsEnd(side, x, a);
    } else {
      match a
      case DoTransmit => TransmitKeepsEnd(side, x);
      case DoPing => SendKeepsEnd(side, x, Ping);
      case DoLose => LoseKeepsEnd(side, x);
      case DoClose(reason) => CloseKeepsEnd(side, x, reason);
      case DoReceive =>
    }
  }

  lemma OpenHandles(side: Side, x: End, m: Message)
    requires HandlesLive(x) && Consistent(x.state) && m.Open?
    ensures HandlesLive(Hears(side, x, m))
  {
    assert m.stream > x.state.highest ==> m.stream !in x.state.streams;
  }

  /** An entry that changes and keeps its handle stays, and its handle with it. */
  lemma SettledHandles(x: End, id: nat, e: Entry)
    requires HandlesLive(x) && id in x.state.streams && e.handleAlive == x.state.streams[id].handleAlive
    ensures HandlesLive(x.(state := x.state.(streams := Settle(x.state.streams, id, e))))
  {
  }

  lemma FailureHandles(side: Side, x: End, m: Message)
    requires HandlesLive(x) && (m.Reset? || m.OpenFailed?)
    ensures HandlesLive(Hears(side, x, m))
  {
    if m.stream in x.state.streams {
      SettledHandles(x, m.stream, HearFailure(x.state.streams[m.stream], StreamFailure(m.error, m.detail)));
    }
  }

  lemma NoteHandles(side: Side, x: End, m: Message)
    requires HandlesLive(x) && !m.Open? && !m.Reset? && !m.OpenFailed?
    ensures HandlesLive(Hears(side, x, m))
  {
  }

  lemma HearsHandles(side: Side, x: End, m: Message)
    requires HandlesLive(x) && Consistent(x.state)
    ensures HandlesLive(Hears(side, x, m))
  {
    if m.Open? {
      OpenHandles(side, x, m);
    } else if m.Reset? || m.OpenFailed? {
      FailureHandles(side, x, m);
    } else {
      NoteHandles(side, x, m);
    }
  }

  /** A received frame queues at most one answer. */
  lemma HearsControl(side: Side, x: End, m: Message)
    ensures var x' := Hears(side, x, m);
            && x'.wire == x.wire
            && (x'.state.control == x.state.control
                || (side.Server? && m.Ping? && x'.state.control == x.state.control + [Pong])
                || (side.Server? && m.Open? && Refusal(x.state, m.target).Some?
                    && x'.state.control
                       == x.state.control + [OpenFailed(m.stream, Refusal(x.state, m.target).value, "")]))
  {
  }

  lemma HearsKeepsEnd(side: Side, x: End, m: Message)
    requires EndInv(side, x)
    ensures EndInv(side, Hears(side, x, m))
    ensures Hears(side, x, m).wire == x.wire
  {
    HearsHandles(side, x, m);
    HearsControl(side, x, m);
    if !m.Close? && Receive(side, x.state, m).Ok? {
      ReceiveConsistent(side, x.state, m);
    }
    assert Consistent(Hears(side, x, m).state);
  }

  // ----- Every step keeps the numbering -----

  lemma NumberedPush(highest: nat, messages: seq<Message>, m: Message)
    ensures Numbered(highest, messages + [m])
         == match Numbered(highest, messages)
            case None => None
            case Some(h) =>
              if m.Open? then (if m.stream == h + 1 then Some(h + 1) else None)
              else if Addresses(m, h) then Some(h) else None
  {
    NumberedConcat(highest, messages, [m]);
    assert [m][1..] == [];
  }

  lemma ClientHandleNumbering(c: End, s: End, a: Action)
    requires EndInv(Client, c) && Numbering(c, s) && Allowed(Client, c, a) && HandleStep(a)
    requires NeedsEntry(a) ==> a.id in c.state.streams
    ensures Numbering(Act(c, a), s)
  {
    HandleStepShape(Client, c, a);
    var c' := Act(c, a);
    var more := Queues(c, c');
    if c.state.closed.None? {
      assert OnTheWay(c') == OnTheWay(c) + more;
      if more != [] {
        assert more == [more[0]];
        NumberedPush(s.state.highest, OnTheWay(c), more[0]);
      }
    }
  }

  lemma ClientWriterNumbering(c: End, s: End)
    requires EndInv(Client, c) && Numbering(c, s)
    ensures Numbering(Transmits(c), s)
  {
    if c.state.closed.Some? {
      assert OnTheWay(c) == c.wire && OnTheWay(Transmits(c)) == c.wire + [Close];
      NumberedPush(s.state.highest, c.wire, Close);
    } else if c.state.control != [] {
      assert OnTheWay(Transmits(c)) == OnTheWay(c);
    } else {
      NextDataShape(c.state);
      var next := NextData(c.state);
      if next.message.Some? {
        assert OnTheWay(Transmits(c)) == OnTheWay(c) + [next.message.value];
        NumberedPush(s.state.highest, OnTheWay(c), next.message.value);
      } else {
        assert OnTheWay(Transmits(c)) == OnTheWay(c);
      }
    }
  }

  lemma ClientStopNumbering(c: End, s: End, c': End)
    requires Numbering(c, s) && c'.wire == c.wire && c'.state.highest == c.state.highest && c'.state.closed.Some?
    ensures Numbering(c', s)
  {
    NumberedConcat(s.state.highest, c.wire, if c.state.closed.None? then c.state.control else []);
    assert OnTheWay(c') == c.wire;
    if Numbered(s.state.highest, c.wire).Some? {
      NumberedGrows(Numbered(s.state.highest, c.wire).value, if c.state.closed.None? then c.state.control else []);
    }
  }

  lemma ClientPingNumbering(c: End, s: End)
    requires Numbering(c, s) && c.state.closed.None?
    ensures Numbering(Sends(c, Ping), s)
  {
    var h := s.state.highest;
    NumberedConcat(h, c.wire, c.state.control);
    NumberedPush(h, c.wire, Ping);
    NumberedConcat(h, c.wire + [Ping], c.state.control);
  }

  lemma ClientActNumbering(c: End, s: End, a: Action)
    requires EndInv(Client, c) && Numbering(c, s) && Allowed(Client, c, a)
    requires NeedsEntry(a) ==> a.id in c.state.streams
    ensures Numbering(Act(c, a), s)
  {
    if HandleStep(a) {
      ClientHandleNumbering(c, s, a);
    } else {
      match a
      case DoTransmit => ClientWriterNumbering(c, s);
      case DoPing => ClientPingNumbering(c, s);
      case DoLose =>
        NextDataShape(c.state);
        if c.state.closed.None? { ClientStopNumbering(c, s, Loses(c)); }
      case DoClose(reason) =>
        if c.state.closed.None? { ClientStopNumbering(c, s, Closes(c, reason)); }
      case DoReceive =>
    }
  }

  /** What the Server sends, queues or keeps back names only Streams that were opened. */
  lemma ServerOutNumbering(c: End, s: End, s': End, more: seq<Message>, sent: seq<Message>)
    requires Numbering(c, s) && s'.state.highest == s.state.highest
    requires forall k :: 0 <= k < |more| ==> Addresses(more[k], s.state.highest)
    requires forall k :: 0 <= k < |sent| ==> Addresses(sent[k], s.state.highest)
    requires s'.wire == s.wire + sent
    requires s'.state.control == s.state.control + more
          || (s.state.control != [] && s'.state.control == s.state.control[1..])
    ensures Numbering(c, s')
  {
  }

  lemma ServerWriterNumbering(c: End, s: End)
    requires EndInv(Server, s) && Numbering(c, s)
    ensures Numbering(c, Transmits(s)) && Numbering(c, Loses(s))
  {
    NextDataShape(s.state);
    var next := NextMessage(s.state);
    var sent := if s.state.closed.Some? then [Close] else if next.message.Some? then [next.message.value] else [];
    ServerOutNumbering(c, s, Transmits(s), [], sent);
    ServerOutNumbering(c, s, Loses(s), [], []);
  }

  lemma ServerActNumbering(c: End, s: End, a: Action)
    requires EndInv(Server, s) && Numbering(c, s) && Allowed(Server, s, a)
    requires NeedsEntry(a) ==> a.id in s.state.streams
    ensures Numbering(c, Act(s, a))
  {
    if HandleStep(a) {
      HandleStepShape(Server, s, a);
      ServerOutNumbering(c, s, Act(s, a), Queues(s, Act(s, a)), []);
    } else if a.DoTransmit? || a.DoLose? {
      ServerWriterNumbering(c, s);
    }
  }

  lemma ClientHearsNumbering(c: End, s: End)
    requires Numbering(c, s) && s.wire != []
    ensures NextIsNumbered(Client, c, s.wire[0]) || s.wire[0].Open?
    ensures !s.wire[0].Ping? && !s.wire[0].Open? ==> Numbering(Hears(Client, c, s.wire[0]), Rest(s))
  {
    var m := s.wire[0];
    NumberedGrows(s.state.highest, OnTheWay(c));
    assert Addresses(m, s.state.highest);
    if !m.Ping? && !m.Open? {
      var c' := Hears(Client, c, m);
      assert c'.state.control == c.state.control && c'.state.highest == c.state.highest && c'.wire == c.wire;
      if c'.state.closed.Some? && c.state.closed.None? {
        ClientStopNumbering(c, s, c');
      }
    }
  }

  lemma ServerHearsNumbering(c: End, s: End)
    requires Numbering(c, s) && c.wire != [] && Sendable(Client, c.wire[0])
    ensures NextIsNumbered(Server, s, c.wire[0])
    ensures !c.wire[0].Close? ==> Receive(Server, s.state, c.wire[0]).Ok? ==>
              Numbering(Rest(c), Hears(Server, s, c.wire[0]))
    ensures c.wire[0].Close? ==> Numbering(Rest(c), Hears(Server, s, c.wire[0]))
  {
    var m := c.wire[0];
    assert OnTheWay(c)[1..] == OnTheWay(Rest(c)) && OnTheWay(c)[0] == m;
  }

  // ----- The invariant of all runs -----

  const Start: System := System(End(NewState, {}, [], map[]), End(NewState, {}, [], map[]))

  lemma StartInv()
    ensures Inv(Start)
  {
    var x := Start.client;
    forall i | 0 < i ensures Pair(Lane(x, i), Lane(x, i)) {
      assert Lane(x, i) == LaneEnd(Unborn, [], [], true, NoHistory);
      assert LimitAfter(STREAM_WINDOW, []) == STREAM_WINDOW;
    }
  }

  lemma ActKeepsLanes(side: Side, x: End, y: End, a: Action)
    requires EndInv(side, x) && Consistent(y.state) && Lanes(x, y) && Allowed(side, x, a)
    requires NeedsEntry(a) ==> a.id in x.state.streams
    requires a.DoOpen? ==> y.state.highest <= x.state.highest
    ensures Lanes(Act(x, a), y)
  {
    match a
    case DoOpen(target) => OpensLanes(x, y, target);
    case DoAccept(id, size) => if x.state.closed.None? { AcceptsLanes(x, y, id, size); }
    case DoRefuse(id, error, detail) => RefusesLanes(x, y, id, error, detail);
    case DoWrite(id, rest) => WritesLanes(x, y, id, rest);
    case DoRead(id) => ReadsLanes(x, y, id);
    case DoFinish(id) => FinishesLanes(x, y, id);
    case DoReset(id, error, detail) => ResetsLanes(x, y, id, error, detail);
    case DoDrop(id) => DropsLanes(x, y, id);
    case DoTransmit => TransmitsLanes(x, y);
    case DoPing => SendsLanes(x, y, Ping);
    case DoLose => LosesLanes(x, y);
    case DoClose(reason) => ClosesLanes(x, y, reason);
    case DoReceive =>
  }

  lemma HearingKeepsInv(sys: System, side: Side)
    requires Inv(sys) && Get(sys, Peer(side)).wire != []
    ensures Inv(Step(sys, side, DoReceive))
    ensures var m := Get(sys, Peer(side)).wire[0];
            !m.Close? ==> Receive(side, Get(sys, side).state, m).Ok?
  {
    var x, y := Get(sys, side), Get(sys, Peer(side));
    var m := y.wire[0];
    if side.Client? {
      ClientHearsNumbering(x, y);
    } else {
      ServerHearsNumbering(y, x);
    }
    HearsLanes(side, x, y);
    HearsKeepsEnd(side, x, m);
    assert EndInv(Peer(side), Rest(y));
  }

  lemma StepKeepsInv(sys: System, side: Side, a: Action)
    requires Inv(sys)
    ensures Inv(Step(sys, side, a))
  {
    var x, y := Get(sys, side), Get(sys, Peer(side));
    if Allowed(side, x, a) && (NeedsEntry(a) ==> a.id in x.state.streams) {
      if a.DoReceive? {
        if y.wire != [] {
          HearingKeepsInv(sys, side);
        }
      } else {
        NumberedGrows(sys.server.state.highest, OnTheWay(sys.client));
        ActKeepsLanes(side, x, y, a);
        ActKeepsEnd(side, x, a);
        if side.Client? {
          ClientActNumbering(x, y, a);
        } else {
          ServerActNumbering(y, x, a);
        }
      }
    }
  }

  /** The two ends after `run`, from the moment the connection was made. */
  function Run(run: seq<(Side, Action)>): System {
    if run == [] then Start
    else Step(Run(run[..|run| - 1]), run[|run| - 1].0, run[|run| - 1].1)
  }

  lemma {:induction false} RunsKeepInvariant(run: seq<(Side, Action)>)
    ensures Inv(Run(run))
  {
    if run == [] {
      StartInv();
    } else {
      RunsKeepInvariant(run[..|run| - 1]);
      StepKeepsInv(Run(run[..|run| - 1]), run[|run| - 1].0, run[|run| - 1].1);
    }
  }

  // ----- What it means -----

  /** Two honest ends never break the protocol: whatever arrives next, at either end, is accepted. */
  lemma NoViolation(run: seq<(Side, Action)>, side: Side)
    ensures var x, y := Get(Run(run), side), Get(Run(run), Peer(side));
            y.wire != [] && !y.wire[0].Close? ==> Receive(side, x.state, y.wire[0]).Ok?
  {
    RunsKeepInvariant(run);
    if Get(Run(run), Peer(side)).wire != [] {
      HearingKeepsInv(Run(run), side);
    }
  }

  /** A live handle has its entry, and an entry without one still has something to send. */
  lemma NothingLeaks(run: seq<(Side, Action)>, side: Side)
    ensures var x := Get(Run(run), side);
            && (forall id :: id in x.handles ==> id in x.state.streams && x.state.streams[id].handleAlive)
            && (forall id :: id in x.state.streams && id !in x.handles ==>
                  x.state.streams[id].outgoing != [] && id in x.state.ready)
            && |x.state.streams| <= MAX_STREAMS
  {
    RunsKeepInvariant(run);
    var x := Get(Run(run), side);
    forall id | id in x.state.streams && id !in x.handles
      ensures x.state.streams[id].outgoing != [] && id in x.state.ready
    {
      assert EntryConsistent(x.state, id);
    }
  }

  /** What a handle has read is always a prefix of what the peer's handle wrote. */
  lemma ReadsArePrefix(run: seq<(Side, Action)>, side: Side, id: nat)
    requires 0 < id
    ensures HistOf(Get(Run(run), side), id).delivered <= HistOf(Get(Run(run), Peer(side)), id).accepted
  {
    RunsKeepInvariant(run);
    var x, y := Get(Run(run), side), Get(Run(run), Peer(side));
    assert Pair(Lane(Run(run).client, id), Lane(Run(run).server, id));
    assert ByteFlow(Lane(y, id), Lane(x, id));
    assert Lane(x, id).hist.delivered <= Arrived(Lane(x, id));
  }

  /** Nothing is left unread of what a peer that finished had accepted. */
  lemma EndedLane(s: LaneEnd, r: LaneEnd)
    requires ByteFlow(s, r) && r.slot.Live? && r.slot.entry.handleAlive && r.slot.entry.peerFinished
    requires !r.hist.gaveUp && r.slot.entry.inbound == []
    ensures r.hist.delivered == s.hist.accepted
  {
    assert Arrived(r) == r.hist.delivered;
  }

  /** On an end that did not itself give the Stream up, the end of the Stream means all of it was read. */
  lemma EndMeansAllWasRead(run: seq<(Side, Action)>, side: Side, id: nat)
    requires id in Get(Run(run), side).handles && id in Get(Run(run), side).state.streams
    requires Read(Get(Run(run), side).state, id) == ReadEnd
    requires !HistOf(Get(Run(run), side), id).gaveUp
    ensures HistOf(Get(Run(run), side), id).delivered == HistOf(Get(Run(run), Peer(side)), id).accepted
  {
    RunsKeepInvariant(run);
    var x, y := Get(Run(run), side), Get(Run(run), Peer(side));
    assert EntryConsistent(x.state, id);
    assert Pair(Lane(Run(run).client, id), Lane(Run(run).server, id));
    EndedLane(Lane(y, id), Lane(x, id));
  }

  /** Unread bytes fit one window, the peer always has most of one, and credit frames stay few. */
  lemma CreditStaysInWindow(run: seq<(Side, Action)>, side: Side, id: nat)
    requires id in Get(Run(run), side).state.streams
    ensures var e := Get(Run(run), side).state.streams[id];
            && |Flat(e.inbound)| <= STREAM_WINDOW
            && e.announced <= e.consumed + STREAM_WINDOW
            && (!e.peerFinished ==> STREAM_WINDOW - STREAM_WINDOW / 4 < e.announced - e.consumed)
            && HistOf(Get(Run(run), side), id).credits * (STREAM_WINDOW / 4) <= e.consumed
  {
    RunsKeepInvariant(run);
    assert EntryConsistent(Get(Run(run), side).state, id);
    assert Pair(Lane(Run(run).client, id), Lane(Run(run).server, id));
    assert EntryInv(Get(Run(run), side).state.streams[id], HistOf(Get(Run(run), side), id));
    assert Flat([]) == [];
  }

  /** Something of Stream `id` is under way from `x` to `y` or back: bytes, or credit for them. */
  predicate InMotion(x: End, y: End, id: nat)
    requires id in x.state.streams && id in y.state.streams
  {
    || DataBytes(For(x.wire, id)) != []
    || OutBytes(x.state.streams[id].outgoing) != []
    || (exists k :: 0 <= k < |y.wire| && y.wire[k].Credit? && y.wire[k].Names(id))
    || (exists k :: 0 <= k < |y.state.control| && y.state.control[k].Credit? && y.state.control[k].Names(id))
  }

  lemma {:induction false} NoCreditAmong(limit: nat, messages: seq<Message>, id: nat)
    requires forall k :: 0 <= k < |messages| ==> !(messages[k].Credit? && messages[k].Names(id))
    ensures LimitAfter(limit, For(messages, id)) == limit
  {
    if messages != [] {
      assert forall k :: 0 <= k < |messages[1..]| ==> messages[1..][k] == messages[k + 1];
      NoCreditAmong(limit, messages[1..], id);
      var first := if messages[0].Names(id) then [messages[0]] else [];
      LimitAfterConcat(limit, first, For(messages[1..], id));
      assert first != [] ==> first[1..] == [];
    }
  }

  /**
   Credit never deadlocks: on an open connection, a Stream neither end failed or finished whose
   reader took all that arrived, with nothing in motion, may send most of a window at once.
   */
  lemma NoCreditDeadlock(run: seq<(Side, Action)>, side: Side, id: nat)
    requires var x, y := Get(Run(run), side), Get(Run(run), Peer(side));
             && x.state.closed.None? && y.state.closed.None?
             && id in x.state.streams && id in y.state.streams
             && x.state.streams[id].failure.None? && !Deaf(y.state.streams[id])
             && y.state.streams[id].inbound == []
             && !InMotion(x, y, id)
    ensures STREAM_WINDOW - STREAM_WINDOW / 4 < Get(Run(run), side).state.streams[id].Available()
  {
    RunsKeepInvariant(run);
    var x, y := Get(Run(run), side), Get(Run(run), Peer(side));
    assert EntryConsistent(x.state, id);
    var l, k := Lane(x, id), Lane(y, id);
    assert Pair(Lane(Run(run).client, id), Lane(Run(run).server, id));
    var limit := x.state.streams[id].limit;
    LimitAfterConcat(limit, For(y.wire, id), For(y.state.control, id));
    NoCreditAmong(limit, y.wire, id);
    NoCreditAmong(limit, y.state.control, id);
    DrainedHasCredit(l, k);
  }

  /** A handle's step never costs another Stream its turn, nor its own unless it ends the Stream. */
  lemma HandleStepExtends(side: Side, x: End, a: Action, id: nat)
    requires EndInv(side, x) && Allowed(side, x, a) && HandleStep(a)
    requires NeedsEntry(a) ==> a.id in x.state.streams
    requires id in x.state.streams
    requires id in Act(x, a).state.streams && Act(x, a).state.streams[id].failure == x.state.streams[id].failure
    requires a.DoRefuse? && a.id == id ==> x.state.closed.Some?
    ensures Extends(x.state, Act(x, a).state, id)
  {
    if a.DoOpen? {
      assert EntryConsistent(x.state, id);
    } else if a.id != id {
      HandleStepElsewhere(x, a, id);
      HandleStepLine(x, a);
    }
  }

  /** A handle's step only adds to the line. */
  lemma HandleStepLine(x: End, a: Action)
    requires HandleStep(a) && (NeedsEntry(a) ==> a.id in x.state.streams)
    ensures x.state.ready <= Act(x, a).state.ready
  {
  }

  // ----- Why `EndMeansAllWasRead` excludes an end that gave up -----

  lemma RunPush(run: seq<(Side, Action)>, side: Side, a: Action)
    ensures Run(run + [(side, a)]) == Step(Run(run), side, a)
  {
    assert (run + [(side, a)])[..|run|] == run;
  }

  const Said: Entry := NewEntry.(sent := 1, finishQueued := true)

  const Speaking: seq<(Side, Action)> :=
    [(Client, DoOpen(Forward(1))), (Client, DoWrite(1, [7])), (Client, DoFinish(1)),
     (Client, DoTransmit), (Client, DoTransmit), (Client, DoTransmit)]

  /** The Client opens a Stream. */
  lemma ClientOpens()
    ensures Run(Speaking[..1]).server == Start.server
    ensures Run(Speaking[..1]).client
         == End(State(map[1 := NewEntry], 1, [Open(1, Forward(1))], [], None), {1}, [], map[])
  {
    RunPush([], Client, DoOpen(Forward(1)));
    assert Speaking[..1] == [] + [(Client, DoOpen(Forward(1)))];
  }

  /** And writes one byte. */
  lemma ClientWrites()
    ensures Run(Speaking[..2]).server == Start.server
    ensures Run(Speaking[..2]).client
         == End(State(map[1 := NewEntry.(sent := 1, outgoing := [OutData([7])], queued := true)], 1,
                      [Open(1, Forward(1))], [1], None),
                {1}, [], map[1 := History([7], [], false, 0)])
  {
    ClientOpens();
    var c1 := Run(Speaking[..1]).client;
    RunPush(Speaking[..1], Client, DoWrite(1, [7]));
    assert Speaking[..2] == Speaking[..1] + [(Client, DoWrite(1, [7]))];
    assert NewEntry.Available() == STREAM_WINDOW && ChunkSize(NewEntry, 1) == 1;
    assert [7][..1] == [7];
    var e := NewEntry.(sent := 1, outgoing := [OutData([7])], queued := true);
    assert [] + [OutData([7])] == [OutData([7])];
    assert WriteEntry(NewEntry, [7]) == e;
    var c2 := Writes(c1, 1, [7]);
    assert Write(c1.state, 1, [7]) == Took(1, c1.state.(streams := map[1 := e], ready := [1]));
    assert HistOf(c1, 1) == NoHistory && [] + [7] == [7];
    assert c2.hist == map[1 := History([7], [], false, 0)];
  }

  /** And finishes. */
  lemma ClientSpeaks()
    ensures Run(Speaking[..3]).server == Start.server
    ensures Run(Speaking[..3]).client
         == End(State(map[1 := Said.(outgoing := [OutData([7]), OutFinish], queued := true)], 1,
                      [Open(1, Forward(1))], [1], None),
                {1}, [], map[1 := History([7], [], false, 0)])
  {
    ClientWrites();
    var c2 := Run(Speaking[..2]).client;
    var e := NewEntry.(sent := 1, outgoing := [OutData([7])], queued := true);
    RunPush(Speaking[..2], Client, DoFinish(1));
    assert Speaking[..3] == Speaking[..2] + [(Client, DoFinish(1))];
    var f := Said.(outgoing := [OutData([7]), OutFinish], queued := true);
    assert [OutData([7])] + [OutFinish] == [OutData([7]), OutFinish];
    assert FinishEntry(e) == f;
    assert map[1 := e][1 := f] == map[1 := f];
  }

  /** Its three frames leave in order: first the open. */
  lemma ClientSendsOpen()
    ensures Run(Speaking[..4]).server == Start.server
    ensures Run(Speaking[..4]).client
         == End(State(map[1 := Said.(outgoing := [OutData([7]), OutFinish], queued := true)], 1, [], [1], None),
                {1}, [Open(1, Forward(1))], map[1 := History([7], [], false, 0)])
  {
    ClientSpeaks();
    RunPush(Speaking[..3], Client, DoTransmit);
    assert Speaking[..4] == Speaking[..3] + [(Client, DoTransmit)];
  }

  /** Then the data. */
  lemma ClientSendsData()
    ensures Run(Speaking[..5]).server == Start.server
    ensures Run(Speaking[..5]).client.wire == [Open(1, Forward(1)), Data(1, [7])]
    ensures Run(Speaking[..5]).client.state.control == [] && Run(Speaking[..5]).client.state.ready == [1]
    ensures Run(Speaking[..5]).client.state.closed == None
    ensures Run(Speaking[..5]).client.state.streams == map[1 := Said.(outgoing := [OutFinish], queued := true)]
    ensures HistOf(Run(Speaking[..5]).client, 1).accepted == [7]
  {
    ClientSendsOpen();
    RunPush(Speaking[..4], Client, DoTransmit);
    assert Speaking[..5] == Speaking[..4] + [(Client, DoTransmit)];
  }

  /** And then the finish. */
  lemma ClientSends()
    ensures Run(Speaking).server == Start.server
    ensures Run(Speaking).client.wire == [Open(1, Forward(1)), Data(1, [7]), Finish(1)]
    ensures HistOf(Run(Speaking).client, 1).accepted == [7]
  {
    ClientSendsData();
    RunPush(Speaking[..5], Client, DoTransmit);
    assert Speaking == Speaking[..5] + [(Client, DoTransmit)];
  }

  const Resetting: seq<(Side, Action)> := Speaking + [(Server, DoReceive)] + [(Server, DoReset(1, Cancelled, ""))]

  const Given: Entry := FailEntry(NewEntry, StreamFailure(Cancelled, ""))

  lemma ServerTakes()
    ensures var sys := Run(Speaking + [(Server, DoReceive)]);
            && sys.server.state == State(map[1 := NewEntry], 1, [], [], None)
            && sys.server.handles == {1} && sys.server.hist == map[]
            && sys.client.wire == [Data(1, [7]), Finish(1)]
            && HistOf(sys.client, 1).accepted == [7]
  {
    ClientSends();
    RunPush(Speaking, Server, DoReceive);
    assert Refusal(NewState, Forward(1)).None?;
  }

  /** The Server takes the Stream and resets it before the byte arrives. */
  lemma ServerResets()
    ensures var x, y := Run(Resetting).server, Run(Resetting).client;
            && x.state.streams == map[1 := Given] && x.state.highest == 1 && x.state.closed.None?
            && x.handles == {1} && x.hist == map[1 := NoHistory.(gaveUp := true)]
            && y.wire == [Data(1, [7]), Finish(1)]
            && HistOf(y, 1).accepted == [7]
  {
    ClientSends();
    RunPush(Speaking, Server, DoReceive);
    ServerTakes();
    RunPush(Speaking + [(Server, DoReceive)], Server, DoReset(1, Cancelled, ""));
    assert FailEntry(NewEntry, StreamFailure(Cancelled, "")) == Given;
  }

  /** The byte arrives, and is dropped. */
  lemma ServerDropsByte()
    ensures var sys, before := Run(Resetting + [(Server, DoReceive)]), Run(Resetting).server;
            && sys.server.state == before.state && sys.server.handles == {1} && sys.server.hist == before.hist
            && sys.client.wire == [Finish(1)]
            && HistOf(sys.client, 1).accepted == [7]
  {
    ServerResets();
    RunPush(Resetting, Server, DoReceive);
  }

  /** A Server that reset a Stream it still holds reads its end although a byte never arrived. */
  lemma GivingUpLosesBytes() returns (run: seq<(Side, Action)>)
    ensures var x, y := Get(Run(run), Server), Get(Run(run), Client);
            && 1 in x.handles && 1 in x.state.streams
            && Read(x.state, 1) == ReadEnd
            && HistOf(x, 1).gaveUp
            && HistOf(x, 1).delivered == [] && HistOf(y, 1).accepted == [7]
  {
    ServerResets();
    ServerDropsByte();
    run := Resetting + [(Server, DoReceive)];
    RunPush(run, Server, DoReceive);
    run := run + [(Server, DoReceive)];
    assert Run(run).server.state.streams == map[1 := Given.(peerFinished := true)];
  }
}

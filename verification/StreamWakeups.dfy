/**
 No wake-up is lost at an end of a Stream connection: its threads share one condition variable,
 and whatever lets one of them go on also notifies it.
 */
module StreamWakeups {
  import opened Wrappers
  import opened Streams
  import opened StreamScheduling
  import opened StreamRuns
  import opened StreamResults

  /** What a thread of one end may be waiting for. */
  datatype Waiter =
    | Writing(id: nat)
    | Reading(id: nat)
    | Answered(id: nat)
    | Sending
    | Closing

  /** The thread finds nothing to do when it looks, and waits. */
  predicate Blocked(x: End, w: Waiter) {
    match w
    case Writing(id) => id in x.handles && id in x.state.streams && Write(x.state, id, [0]).WriteBlocked?
    case Reading(id) => id in x.handles && id in x.state.streams && Read(x.state, id).ReadBlocked?
    case Answered(id) =>
      && id in x.handles && id in x.state.streams && x.state.streams[id].answer.None?
      && Failing(x.state, id).None?
    case Sending => x.state.closed.None? && NextMessage(x.state).message.None?
    case Closing => x.state.closed.None?
  }

  // ----- Which steps notify -----

  /** A close and a violation end the connection, and closing it notifies. */
  predicate HearingNotifies(side: Side, st: State, m: Message) {
    m.Close? || Receive(side, st, m).Err? || HearingWakes(side, st, m)
  }

  predicate ActNotifies(st: State, a: Action)
    requires NeedsEntry(a) ==> a.id in st.streams
  {
    match a
    case DoOpen(target) => OpenStream(st, target).Ok?
    case DoAccept(_, _) => st.closed.None?
    case DoRefuse(_, _, _) => st.closed.None?
    case DoWrite(id, rest) => Write(st, id, rest).Took?
    case DoRead(id) => st.streams[id].inbound != [] && ReadGrants(st.streams[id])
    case DoFinish(id) => id in st.streams && !st.streams[id].finishQueued && st.streams[id].failure.None?
    case DoReset(id, _, _) => st.streams[id].failure.None?
    case DoDrop(_) => true
    case DoLose => true
    case DoClose(_) => true
    case _ => false
  }

  /** Whether a step of either end notifies the threads of `side`. */
  predicate Notifies(sys: System, side: Side, at: Side, a: Action) {
    var x, y := Get(sys, side), Get(sys, Peer(side));
    && at == side && Allowed(side, x, a) && (NeedsEntry(a) ==> a.id in x.state.streams)
    && if a.DoReceive? then y.wire != [] && HearingNotifies(side, x.state, y.wire[0]) else ActNotifies(x.state, a)
  }

  // ----- A step that does not notify frees nobody -----

  /** The writer touches what is queued, and nothing that a handle waits for. */
  lemma {:induction false} NextDataTouches(st: State, id: nat)
    requires id in st.streams && st.streams[id].handleAlive
    ensures var next := NextData(st).state;
            && next.closed == st.closed && id in next.streams
            && var e := next.streams[id]; e == st.streams[id].(outgoing := e.outgoing, queued := e.queued)
    decreases |st.ready|
  {
    if Skips(st) {
      NextDataTouches(SkipFront(st), id);
    }
  }

  predicate OfHandle(w: Waiter) {
    w.Writing? || w.Reading? || w.Answered?
  }

  /** What a handle waits for is decided by its entry and the connection's end. */
  lemma HandleStaysBlocked(x: End, x': End, w: Waiter)
    requires OfHandle(w) && Blocked(x, w) && w.id in x'.handles && w.id in x'.state.streams
    requires x'.state.closed == x.state.closed
    requires var e := x'.state.streams[w.id]; e == x.state.streams[w.id].(outgoing := e.outgoing, queued := e.queued)
    ensures Blocked(x', w)
  {
  }

  /** A writer with nothing to send has nothing to send after a step that queues nothing. */
  lemma WriterStaysBlocked(x: End, x': End)
    requires Blocked(x, Sending) && Consistent(x.state) && Consistent(x'.state)
    requires x'.state.closed.None? && x'.state.control == []
    requires forall id :: id in x'.state.streams ==>
               x'.state.streams[id].outgoing == []
               || (id in x.state.streams && x'.state.streams[id].outgoing == x.state.streams[id].outgoing)
    ensures Blocked(x', Sending)
  {
    IdleMeansDrained(x.state);
    IdleMeansDrained(x'.state);
  }

  /** A frame that notifies nobody changes nothing, or brings a new Stream, on which nobody waits yet. */
  lemma SilentHearing(side: Side, x: End, m: Message)
    requires Consistent(x.state) && !HearingNotifies(side, x.state, m)
    ensures var x' := Hears(side, x, m);
            || x' == x
            || (m.Open? && m.stream !in x.state.streams && x.handles <= x'.handles
                && x'.state == x.state.(highest := m.stream, streams := x.state.streams[m.stream := NewEntry]))
  {
    if !m.Open? {
      assert x.handles + (x.state.streams.Keys - x.state.streams.Keys) == x.handles;
    }
  }

  lemma HearingFreesNobody(side: Side, x: End, m: Message, w: Waiter)
    requires EndInv(side, x) && Blocked(x, w) && !HearingNotifies(side, x.state, m)
    ensures Blocked(Hears(side, x, m), w)
  {
    var x' := Hears(side, x, m);
    SilentHearing(side, x, m);
    HearsKeepsEnd(side, x, m);
    if w.Sending? {
      WriterStaysBlocked(x, x');
    } else if OfHandle(w) {
      HandleStaysBlocked(x, x', w);
    }
  }

  /** A handle's step that notifies nobody is a read that grants nothing, or changes nothing. */
  lemma SilentHandleStep(x: End, a: Action)
    requires HandleStep(a) && (NeedsEntry(a) ==> a.id in x.state.streams) && !ActNotifies(x.state, a)
    ensures var x' := Act(x, a);
            || (x'.state == x.state && x'.handles == x.handles)
            || (a.DoRead? && x.state.streams[a.id].inbound != [] && x'.handles == x.handles
                && x'.state == x.state.(streams := x.state.streams[a.id := ReadEntry(x.state.streams[a.id])]))
  {
  }

  lemma HandleStepFreesNobody(side: Side, x: End, a: Action, w: Waiter)
    requires EndInv(side, x) && Blocked(x, w) && HandleStep(a) && Allowed(side, x, a)
    requires (NeedsEntry(a) ==> a.id in x.state.streams) && !ActNotifies(x.state, a)
    ensures Blocked(Act(x, a), w)
  {
    SilentHandleStep(x, a);
    if w.Sending? {
      HandleStepKeepsEnd(side, x, a);
      WriterStaysBlocked(x, Act(x, a));
    }
  }

  lemma TransmitFreesNobody(side: Side, x: End, w: Waiter)
    requires EndInv(side, x) && Blocked(x, w)
    ensures Blocked(Transmits(x), w)
  {
    if OfHandle(w) {
      NextDataTouches(x.state, w.id);
      HandleStaysBlocked(x, Transmits(x), w);
    } else if w.Sending? {
      NextDataConsistent(x.state);
      NextDataDrains(x.state);
      WriterStaysBlocked(x, Transmits(x));
    } else {
      NextDataShape(x.state);
    }
  }

  /** What the writer looks at without sending still has nothing to send. */
  lemma {:induction false} NextDataDrains(st: State)
    requires Consistent(st) && NextData(st).message.None?
    ensures var next := NextData(st).state;
            && next.closed == st.closed && next.control == st.control
            && (forall id :: id in next.streams ==>
                  id in st.streams && next.streams[id].outgoing == st.streams[id].outgoing)
    decreases |st.ready|
  {
    if Skips(st) {
      SkipConsistent(st);
      NextDataDrains(SkipFront(st));
    }
  }

  lemma StepFreesNobody(sys: System, side: Side, at: Side, a: Action, w: Waiter)
    requires EndInv(side, Get(sys, side)) && Blocked(Get(sys, side), w) && !Notifies(sys, side, at, a)
    ensures Blocked(Get(Step(sys, at, a), side), w)
  {
    var x, y := Get(sys, side), Get(sys, Peer(side));
    if at == side && Allowed(side, x, a) && (NeedsEntry(a) ==> a.id in x.state.streams) {
      if a.DoReceive? {
        if y.wire != [] {
          HearingFreesNobody(side, x, y.wire[0], w);
        }
      } else if HandleStep(a) {
        HandleStepFreesNobody(side, x, a, w);
      } else if a.DoTransmit? {
        TransmitFreesNobody(side, x, w);
      }
    }
  }

  // ----- No wake-up is lost -----

  lemma NextStepFreesNobody(run: seq<(Side, Action)>, at: Side, a: Action, side: Side, w: Waiter)
    requires Blocked(Get(Run(run), side), w) && !Notifies(Run(run), side, at, a)
    ensures Blocked(Get(Run(run + [(at, a)]), side), w)
  {
    RunsKeepInvariant(run);
    StepFreesNobody(Run(run), side, at, a, w);
    RunPush(run, at, a);
  }

  /** None of the steps `more` after `run` notifies the threads of `side`. */
  predicate Silent(run: seq<(Side, Action)>, more: seq<(Side, Action)>, side: Side) {
    more == []
    || var but, last := more[..|more| - 1], more[|more| - 1];
       Silent(run, but, side) && !Notifies(Run(run + but), side, last.0, last.1)
  }

  /** A thread that found nothing to do, and was not notified since, would still find nothing. */
  lemma {:induction false} NoWakeUpIsLost(
    run: seq<(Side, Action)>, more: seq<(Side, Action)>, side: Side, w: Waiter)
    requires Blocked(Get(Run(run), side), w) && Silent(run, more, side)
    ensures Blocked(Get(Run(run + more), side), w)
    decreases |more|
  {
    if more == [] {
      assert run + more == run;
    } else {
      var but, last := more[..|more| - 1], more[|more| - 1];
      NoWakeUpIsLost(run, but, side, w);
      NextStepFreesNobody(run + but, last.0, last.1, side, w);
      assert run + more == run + but + [(last.0, last.1)];
    }
  }
}

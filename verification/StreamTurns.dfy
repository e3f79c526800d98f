/**
 Fairness of the writer over whole runs of two ends: a Stream that waits in line is served
 within as many turns as there are Streams ahead of it, whatever else happens meanwhile.
 */
module StreamTurns {
  import opened Wrappers
  import opened Streams
  import opened StreamLanes
  import opened StreamScheduling
  import opened StreamRuns
  import opened StreamResults

  /** One end after the first `k` steps of `run`. */
  function At(run: seq<(Side, Action)>, side: Side, k: nat): End
    requires k <= |run|
  {
    Get(Run(run[..k]), side)
  }

  /** The end's writer is about to find an item in the line, with no control frame before it. */
  predicate Productive(x: End) {
    x.state.closed.None? && x.state.control == [] && NextData(x.state).message.Some?
  }

  predicate DataTurn(run: seq<(Side, Action)>, side: Side, k: nat)
    requires k < |run|
  {
    run[k] == (side, DoTransmit) && Productive(At(run, side, k))
  }

  /** How many of the first `n` steps were `side`'s writer taking an item from the line. */
  function DataTurns(run: seq<(Side, Action)>, side: Side, n: nat): nat
    requires n <= |run|
  {
    if n == 0 then 0 else DataTurns(run, side, n - 1) + (if DataTurn(run, side, n - 1) then 1 else 0)
  }

  /** The Stream failed here, or is gone. */
  predicate Over(x: End, id: nat) {
    id !in x.state.streams || x.state.streams[id].failure.Some?
  }

  /** What can end a Stream that still has something to send: its handle, or the peer's word. */
  predicate MayEnd(y: End, a: Action, id: nat) {
    || (a.DoReset? && a.id == id) || (a.DoRefuse? && a.id == id) || (a.DoDrop? && a.id == id)
    || (a.DoReceive? && y.wire != [] && y.wire[0].Names(id) && Fails(y.wire[0]))
  }

  /** Step `k` is `side`'s handle or reader ending the Stream. */
  predicate EndedAt(run: seq<(Side, Action)>, side: Side, k: nat, id: nat)
    requires k < |run|
  {
    && run[k].0 == side && MayEnd(At(run, Peer(side), k), run[k].1, id)
    && !Over(At(run, side, k), id) && Over(At(run, side, k + 1), id)
  }

  /** Step `k` is a turn of `side`'s writer that puts `m` on the wire. */
  predicate SentAt(run: seq<(Side, Action)>, side: Side, k: nat, m: Message)
    requires k < |run|
  {
    DataTurn(run, side, k) && At(run, side, k + 1).wire == At(run, side, k).wire + [m]
  }

  lemma NextAt(run: seq<(Side, Action)>, side: Side, k: nat)
    requires k < |run|
    ensures At(run, side, k + 1) == Get(Step(Run(run[..k]), run[k].0, run[k].1), side)
    ensures Inv(Run(run[..k]))
  {
    RunPush(run[..k], run[k].0, run[k].1);
    assert run[..k + 1] == run[..k] + [(run[k].0, run[k].1)];
    RunsKeepInvariant(run[..k]);
  }

  // ----- Every step but a turn only adds behind those in line, or ends the Stream -----

  lemma HearingExtends(side: Side, x: End, m: Message, id: nat)
    requires id in x.state.streams && 0 < id <= x.state.highest && !Over(x, id)
    ensures var x' := Hears(side, x, m);
            Extends(x.state, x'.state, id) || (m.Names(id) && Fails(m) && Over(x', id))
  {
  }

  lemma HandleStepExtendsOrEnds(side: Side, x: End, y: End, a: Action, id: nat)
    requires EndInv(side, x) && Allowed(side, x, a) && HandleStep(a) && Busy(x, id)
    requires NeedsEntry(a) ==> a.id in x.state.streams
    ensures Extends(x.state, Act(x, a).state, id) || (MayEnd(y, a, id) && Over(Act(x, a), id))
  {
    if !Over(Act(x, a), id) {
      HandleStepExtends(side, x, a, id);
    } else if !a.DoOpen? && a.id != id {
      HandleStepElsewhere(x, a, id);
    }
  }

  /** The Stream has something to send, and did not fail. */
  predicate Busy(x: End, id: nat) {
    id in x.state.streams && x.state.streams[id].outgoing != [] && !Over(x, id)
  }

  lemma WaitingIsBusy(sys: System, side: Side, id: nat)
    requires Inv(sys) && id in Get(sys, side).state.streams && Get(sys, side).state.streams[id].outgoing != []
    ensures Busy(Get(sys, side), id)
  {
    assert EntryConsistent(Get(sys, side).state, id);
    assert Pair(Lane(sys.client, id), Lane(sys.server, id));
  }

  lemma WriterExtends(side: Side, x: End, a: Action, id: nat)
    requires EndInv(side, x) && Busy(x, id) && (a.DoTransmit? || a.DoLose?)
    ensures var x' := Act(x, a);
            x'.state.closed.Some? || (a.DoTransmit? && Productive(x)) || Extends(x.state, x'.state, id)
  {
    IdleMeansDrained(x.state);
  }

  lemma StepExtends(sys: System, side: Side, at: Side, a: Action, id: nat)
    requires EndInv(side, Get(sys, side)) && Busy(Get(sys, side), id)
    ensures var x, x' := Get(sys, side), Get(Step(sys, at, a), side);
            || x'.state.closed.Some?
            || (at == side && a.DoTransmit? && Productive(x))
            || Extends(x.state, x'.state, id)
            || (at == side && MayEnd(Get(sys, Peer(side)), a, id) && Over(x', id))
  {
    var x, y := Get(sys, side), Get(sys, Peer(side));
    if at == side && Allowed(side, x, a) && (NeedsEntry(a) ==> a.id in x.state.streams) {
      if a.DoReceive? {
        if y.wire != [] {
          assert EntryConsistent(x.state, id);
          HearingExtends(side, x, y.wire[0], id);
        }
      } else if HandleStep(a) {
        HandleStepExtendsOrEnds(side, x, y, a, id);
      } else if a.DoTransmit? || a.DoLose? {
        WriterExtends(side, x, a, id);
      }
    }
  }

  // ----- A closed end takes no more turns -----

  lemma StaysClosed(sys: System, side: Side, at: Side, a: Action)
    requires Get(sys, side).state.closed.Some?
    ensures Get(Step(sys, at, a), side).state.closed.Some?
  {
  }

  lemma {:induction false} NoTurnsOnceClosed(run: seq<(Side, Action)>, side: Side, from: nat, n: nat)
    requires from <= n <= |run| && At(run, side, from).state.closed.Some?
    ensures At(run, side, n).state.closed.Some? && DataTurns(run, side, n) == DataTurns(run, side, from)
    decreases n
  {
    if n > from {
      NoTurnsOnceClosed(run, side, from, n - 1);
      NextAt(run, side, n - 1);
      StaysClosed(Run(run[..n - 1]), side, run[n - 1].0, run[n - 1].1);
    }
  }

  // ----- The turn comes -----

  lemma TransmitServes(x: End)
    requires Consistent(x.state) && Productive(x)
    ensures var x' := Transmits(x);
            && x'.state.closed.None?
            && Serves(x.state, x'.state) && x'.wire == x.wire + [NextData(x.state).message.value]
  {
    NextDataShape(x.state);
  }

  /** A turn of the writer takes what `NextData` gives: see `TurnComesCloser` for whom it serves. */
  lemma TurnServes(run: seq<(Side, Action)>, side: Side, k: nat)
    requires k < |run| && DataTurn(run, side, k)
    ensures var x, x' := At(run, side, k), At(run, side, k + 1);
            && Consistent(x.state) && x'.state.closed.None?
            && Serves(x.state, x'.state) && x'.wire == x.wire + [NextData(x.state).message.value]
  {
    NextAt(run, side, k);
    TransmitServes(At(run, side, k));
  }

  /** A step that is no turn of an end that stays open leaves a waiting Stream where it is, or ends it. */
  lemma OtherStep(run: seq<(Side, Action)>, side: Side, k: nat, id: nat)
    requires k < |run| && !DataTurn(run, side, k) && At(run, side, k + 1).state.closed.None?
    requires id in At(run, side, k).state.streams && At(run, side, k).state.streams[id].outgoing != []
    ensures Extends(At(run, side, k).state, At(run, side, k + 1).state, id) || EndedAt(run, side, k, id)
  {
    NextAt(run, side, k);
    WaitingIsBusy(Run(run[..k]), side, id);
    StepExtends(Run(run[..k]), side, run[k].0, run[k].1, id);
    assert run[k] == (run[k].0, run[k].1);
  }

  /** One step of a run: the Stream is served or ended, or waits no further back, and closer after a turn. */
  lemma StepCloser(run: seq<(Side, Action)>, side: Side, k: nat, id: nat, position: nat)
    returns (done: bool, p: nat)
    requires k < |run| && Waits(At(run, side, k).state, id, position)
    requires At(run, side, k + 1).state.closed.None?
    ensures var x, x' := At(run, side, k), At(run, side, k + 1);
            var item := x.state.streams[id].outgoing[0];
            && (done ==> SentAt(run, side, k, ToMessage(id, item)) || EndedAt(run, side, k, id))
            && (!done ==> Waits(x'.state, id, p) && x'.state.streams[id].outgoing[0] == item)
            && (!done ==> if DataTurn(run, side, k) then p < position else p <= position)
  {
    var st, st' := At(run, side, k).state, At(run, side, k + 1).state;
    if DataTurn(run, side, k) {
      TurnServes(run, side, k);
      done, p := OneStepCloser(st, st', id, position);
    } else {
      OtherStep(run, side, k, id);
      done, p := !Extends(st, st', id), position;
      if !done {
        ExtendedStillWaits(st, st', id, position);
      }
    }
  }

  /**
   A Stream that after `from` steps waits at `position` in its end's line sends its next item by
   that end's `position + 1`st turn from there, unless its handle or its peer ends it first.
   */
  lemma {:induction false} ServedInTurn(
    run: seq<(Side, Action)>, side: Side, from: nat, id: nat, position: nat, item: Outgoing)
    requires from <= |run| && Waits(At(run, side, from).state, id, position)
    requires At(run, side, from).state.streams[id].outgoing[0] == item
    requires DataTurns(run, side, |run|) - DataTurns(run, side, from) > position
    ensures exists k :: from <= k < |run|
                        && DataTurns(run, side, k) - DataTurns(run, side, from) <= position
                        && (SentAt(run, side, k, ToMessage(id, item)) || EndedAt(run, side, k, id))
    decreases |run| - from
  {
    if At(run, side, from + 1).state.closed.Some? {
      NoTurnsOnceClosed(run, side, from + 1, |run|);
      if DataTurn(run, side, from) {
        TurnServes(run, side, from);
      }
      assert false;
    } else {
      var done, p := StepCloser(run, side, from, id, position);
      if !done {
        ServedInTurn(run, side, from + 1, id, p, item);
      }
    }
  }
}

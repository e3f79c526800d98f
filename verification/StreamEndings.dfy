/**
 Which ends of a Stream read everything. `StreamResults.EndMeansAllWasRead` speaks of an end that
 did not give the Stream up; this one of an end that did, and still holds its handle.
 */
module StreamEndings {
  import opened Wrappers
  import opened Sequences
  import opened Streams
  import opened StreamLanes
  import opened StreamScheduling
  import opened StreamRuns
  import opened StreamResults

  /** The caller still holds the handle of a Stream that failed here. */
  predicate Held(x: End, id: nat) {
    id in x.handles && id in x.state.streams && x.state.streams[id].failure.Some?
  }

  /** A failed Stream's bytes are fixed: those read, and those that wait to be. */
  predicate Frozen(x: End, x': End, id: nat) {
    Held(x', id) && Arrived(Lane(x', id)) == Arrived(Lane(x, id))
  }

  lemma SameBytes(x: End, x': End, id: nat)
    requires Held(x, id) && Held(x', id) && HistOf(x', id).delivered == HistOf(x, id).delivered
    requires x'.state.streams[id].inbound == x.state.streams[id].inbound
    ensures Frozen(x, x', id)
  {
  }

  lemma HearingFreezes(side: Side, x: End, m: Message, id: nat)
    requires HandlesLive(x) && Held(x, id) && 0 < id <= x.state.highest
    ensures Frozen(x, Hears(side, x, m), id)
  {
    SameBytes(x, Hears(side, x, m), id);
  }

  /** The writer passes over a failed Stream: it has nothing to send. */
  lemma {:induction false} NextDataFreezes(st: State, id: nat)
    requires id in st.streams && st.streams[id].outgoing == []
    ensures var next := NextData(st).state;
            id in next.streams && next.streams[id] == st.streams[id].(queued := next.streams[id].queued)
    decreases |st.ready|
  {
    if Skips(st) {
      NextDataFreezes(SkipFront(st), id);
    }
  }

  lemma WriterFreezes(x: End, a: Action, id: nat)
    requires Local(Lane(x, id)) && Held(x, id) && (a.DoTransmit? || a.DoLose?)
    ensures Frozen(x, Act(x, a), id)
  {
    NextDataFreezes(x.state, id);
    SameBytes(x, Act(x, a), id);
  }

  lemma ReadingFreezes(x: End, id: nat)
    requires Held(x, id)
    ensures Frozen(x, Reads(x, id), id)
  {
    var inbound := x.state.streams[id].inbound;
    if inbound != [] {
      Associates(HistOf(x, id).delivered, inbound[0], Flat(inbound[1..]));
    }
  }

  /** A step of the Stream's own handle. */
  lemma OwnStepFreezes(x: End, a: Action, id: nat)
    requires Held(x, id) && HandleStep(a) && !a.DoOpen? && a.id == id && !a.DoDrop?
    ensures Frozen(x, Act(x, a), id)
  {
    if a.DoRead? {
      ReadingFreezes(x, id);
    } else {
      SameBytes(x, Act(x, a), id);
    }
  }

  lemma HandleStepFreezes(x: End, a: Action, id: nat)
    requires Held(x, id) && id <= x.state.highest && HandleStep(a) && a != DoDrop(id)
    requires NeedsEntry(a) ==> a.id in x.state.streams
    ensures Frozen(x, Act(x, a), id)
  {
    if !a.DoOpen? && a.id == id {
      OwnStepFreezes(x, a, id);
    } else {
      if !a.DoOpen? {
        HandleStepElsewhere(x, a, id);
      }
      SameBytes(x, Act(x, a), id);
    }
  }

  lemma ActFreezes(x: End, a: Action, id: nat)
    requires Held(x, id) && id <= x.state.highest && Local(Lane(x, id)) && a != DoDrop(id)
    requires NeedsEntry(a) ==> a.id in x.state.streams
    ensures Frozen(x, Act(x, a), id)
  {
    if HandleStep(a) {
      HandleStepFreezes(x, a, id);
    } else if a.DoTransmit? || a.DoLose? {
      WriterFreezes(x, a, id);
    } else {
      SameBytes(x, Act(x, a), id);
    }
  }

  lemma EntryKeeps(sys: System, side: Side, id: nat)
    requires Inv(sys) && id in Get(sys, side).state.streams
    ensures var x := Get(sys, side);
            HandlesLive(x) && 0 < id <= x.state.highest && Local(Lane(x, id))
  {
    assert EntryConsistent(Get(sys, side).state, id);
    assert Pair(Lane(sys.client, id), Lane(sys.server, id));
  }

  lemma StepFreezes(sys: System, side: Side, at: Side, a: Action, id: nat)
    requires Held(Get(sys, side), id) && (at, a) != (side, DoDrop(id))
    requires var x := Get(sys, side);
             HandlesLive(x) && 0 < id <= x.state.highest && Local(Lane(x, id))
    ensures Frozen(Get(sys, side), Get(Step(sys, at, a), side), id)
  {
    var x, y := Get(sys, side), Get(sys, Peer(side));
    if at == side {
      if Allowed(side, x, a) && (NeedsEntry(a) ==> a.id in x.state.streams) {
        if !a.DoReceive? {
          ActFreezes(x, a, id);
        } else if y.wire != [] {
          HearingFreezes(side, x, y.wire[0], id);
        }
      }
    } else {
      SameBytes(x, Get(Step(sys, at, a), side), id);
    }
  }

  lemma NextStepFreezes(run: seq<(Side, Action)>, at: Side, a: Action, side: Side, id: nat)
    requires Held(Get(Run(run), side), id) && (at, a) != (side, DoDrop(id))
    ensures Frozen(Get(Run(run), side), Get(Run(run + [(at, a)]), side), id)
  {
    RunsKeepInvariant(run);
    EntryKeeps(Run(run), side, id);
    StepFreezes(Run(run), side, at, a, id);
    RunPush(run, at, a);
  }

  lemma {:induction false} RunFreezes(run: seq<(Side, Action)>, more: seq<(Side, Action)>, side: Side, id: nat)
    requires Held(Get(Run(run), side), id) && (side, DoDrop(id)) !in more
    ensures Frozen(Get(Run(run), side), Get(Run(run + more), side), id)
    decreases |more|
  {
    if more == [] {
      assert run + more == run;
    } else {
      var but, last := more[..|more| - 1], more[|more| - 1];
      RunFreezes(run, but, side, id);
      NextStepFreezes(run + but, last.0, last.1, side, id);
      assert run + more == run + but + [(last.0, last.1)];
    }
  }

  /**
   An end that failed a Stream, after `run`, and keeps the handle, reads the end of the Stream
   having read exactly the bytes that had arrived by then. So it read everything exactly when
   all that the peer ever gets accepted had arrived when it gave up.
   */
  lemma GivenUpEndReadsWhatArrived(run: seq<(Side, Action)>, more: seq<(Side, Action)>, side: Side, id: nat)
    requires Held(Get(Run(run), side), id) && (side, DoDrop(id)) !in more
    ensures var x, y := Get(Run(run + more), side), Get(Run(run + more), Peer(side));
            var arrived := Arrived(Lane(Get(Run(run), side), id));
            && Held(x, id)
            && (Read(x.state, id) == ReadEnd ==>
                  && HistOf(x, id).delivered == arrived
                  && (HistOf(x, id).delivered == HistOf(y, id).accepted <==> arrived == HistOf(y, id).accepted))
  {
    RunFreezes(run, more, side, id);
    assert Flat([]) == [];
  }
}

/**
 The merged visual path against direct application: a reader publishes batches into the slot
 while the owner takes what is there whenever it gets to it. Between two Bootstraps, the
 terminals the owner ends with are those of applying every published batch in order.
 */
module VisualRuns {
  import opened Wrappers
  import opened TerminalViews
  import opened FrameMerge
  import opened FrameLinks
  import opened VisualSlot
  import opened ClientTerminals

  /** The reader publishes a batch, or the owner takes the slot, its Panes listed in some order. */
  datatype Event = Publishes(batch: Batch) | Takes(order: seq<PaneFrame>)

  datatype Visual = Visual(slot: Slot, owner: Terminals)

  /** One event on the merged path; nothing when it asks for a resync. */
  function MergedStep(v: Visual, e: Event): Option<Visual> {
    match e
    case Publishes(batch) =>
      var (slot, result) := Publish(v.slot, batch);
      if result.Rejected? then None else Some(v.(slot := slot))
    case Takes(order) =>
      if !Lists(order, PendingPanes(v.slot)) then Some(v)
      else
        match ApplyBatch(v.owner, EraseFrames(order))
        case None => None
        case Some(owner) => Some(Visual(Take(v.slot, v.slot.generation).0, owner))
  }

  function MergedRun(v: Visual, events: seq<Event>): Option<Visual>
    decreases |events|
  {
    if events == [] then Some(v)
    else
      match MergedStep(v, events[0])
      case None => None
      case Some(next) => MergedRun(next, events[1..])
  }

  /** Every published batch applied at once, in order; nothing when one does not apply. */
  function DirectRun(terminals: Terminals, events: seq<Event>): Option<Terminals>
    decreases |events|
  {
    if events == [] then Some(terminals)
    else if events[0].Takes? then DirectRun(terminals, events[1..])
    else
      match ApplyBatch(terminals, EraseFrames(events[0].batch.panes))
      case None => None
      case Some(next) => DirectRun(next, events[1..])
  }

  /** The decoder bounds a full view by the largest grid; it does not look at the order of a delta's runs. */
  predicate Sized(f: Frame) {
    f.Full? ==> |f.view.cells| <= MAX_TERMINAL_CELLS
  }

  /** What the wire gives the reader: one source, and decoded frames. */
  predicate Decoded(events: seq<Event>, server: nat, session: nat) {
    forall k :: 0 <= k < |events| && events[k].Publishes? ==>
      var batch := events[k].batch;
      && batch.server == server && batch.session == session
      && (forall j :: 0 <= j < |batch.panes| ==> Sized(batch.panes[j].frame))
  }

  /** Each Pane is named once, and each delta goes on to a later revision, with its runs in order and apart. */
  predicate FramesInOrder(frames: seq<PaneFrame>) {
    DistinctPanes(frames) && forall k :: 0 <= k < |frames| ==> WellFormedFrame(frames[k].frame)
  }

  /** So it is in every batch published. */
  predicate InOrder(events: seq<Event>) {
    forall k :: 0 <= k < |events| && events[k].Publishes? ==> FramesInOrder(events[k].batch.panes)
  }

  predicate InGrids(terminals: Terminals) {
    forall pane :: pane in terminals ==> |terminals[pane].cells| <= U32_MAX
  }

  predicate PendingFrom(slot: Slot, server: nat, session: nat) {
    slot.pending.Some? ==> slot.pending.value.server == server && slot.pending.value.session == session
  }

  predicate PendingInOrder(panes: map<PaneId, Frame>) {
    forall pane :: pane in panes ==> WellFormedFrame(panes[pane])
  }

  /** Showing the pending frames would bring `owner` to `direct`. */
  ghost predicate Agrees(panes: map<PaneId, Frame>, owner: Terminals, direct: Terminals) {
    && (forall pane :: pane in panes ==>
          Accepts(Lookup(owner, pane), EraseFrame(panes[pane]))
          && Lookup(direct, pane) == Some(Show(Lookup(owner, pane), EraseFrame(panes[pane]))))
    && (forall pane :: pane !in panes ==> Lookup(direct, pane) == Lookup(owner, pane))
  }

  // ----- Well-formed frames stay well formed -----

  lemma WellFormedErased(f: Frame)
    ensures WellFormedFrame(EraseFrame(f)) <==> WellFormedFrame(f)
  {
    if f.Diff? {
      FitErased(f.delta.runs, 0, U32_MAX);
    }
  }

  lemma MergeWellFormed(previous: Frame, next: Frame)
    requires FramesMerge(previous, next) && WellFormedFrame(previous) && WellFormedFrame(next)
    ensures WellFormedFrame(MergeFrames(previous, next))
  {
    var plain := PlainMerge(previous, next);
    if previous.Diff? && next.Diff? {
      MergedStaysMergeable(previous.delta, next.delta);
    }
    assert WellFormedFrame(plain);
    NormalizeErased(plain);
    WellFormedErased(plain);
    WellFormedErased(NormalizeFrame(plain));
  }

  lemma {:induction false} CommitWellFormed(panes: map<PaneId, Frame>, frames: seq<PaneFrame>)
    requires CommitAll(panes, frames).Some?
    requires PendingInOrder(panes) && FramesInOrder(frames)
    ensures PendingInOrder(CommitAll(panes, frames).value)
    decreases |frames|
  {
    if frames != [] {
      var front, next := frames[..|frames| - 1], frames[|frames| - 1];
      CommitWellFormed(panes, front);
      var before := CommitAll(panes, front).value;
      if next.pane in before {
        MergeWellFormed(before[next.pane], next.frame);
      }
    }
  }

  // ----- While direct application succeeds, the merged path follows it -----

  lemma CommitAgrees(panes: map<PaneId, Frame>, owner: Terminals, direct: Terminals, next: PaneFrame)
    requires Agrees(panes, owner, direct) && InGrids(owner)
    requires Accepts(Lookup(direct, next.pane), EraseFrame(next.frame))
    ensures Commit(panes, next).Some?
    ensures Agrees(Commit(panes, next).value, owner, ShowOne(direct, PaneFrame(next.pane, EraseFrame(next.frame))))
  {
    if next.pane in panes {
      var previous := panes[next.pane];
      AcceptedMerge(Lookup(owner, next.pane), EraseFrame(previous), EraseFrame(next.frame));
      MergesErased(previous, next.frame);
      MergeErased(previous, next.frame);
    }
  }

  /** The last frame of a batch that applies meets what its Pane showed before the batch. */
  lemma LastApplies(direct: Terminals, frames: seq<PaneFrame>)
    requires frames != [] && BatchApplies(direct, EraseFrames(frames))
    ensures var front, next := EraseFrames(frames[..|frames| - 1]), frames[|frames| - 1];
            && EraseFrames(frames) == front + [PaneFrame(next.pane, EraseFrame(next.frame))]
            && BatchApplies(direct, front)
            && Accepts(Lookup(ShowAll(direct, front), next.pane), EraseFrame(next.frame))
  {
    var front, next := frames[..|frames| - 1], frames[|frames| - 1];
    var erased := EraseFrames(frames);
    assert EraseFrames(front) == erased[..|erased| - 1];
    assert BatchApplies(direct, EraseFrames(front));
    DistinctFront(erased);
    ShowAllElsewhere(direct, EraseFrames(front), next.pane);
    assert Accepts(Lookup(direct, erased[|front|].pane), erased[|front|].frame);
  }

  lemma {:induction false} CommitAllAgrees(panes: map<PaneId, Frame>, owner: Terminals, direct: Terminals,
                                           frames: seq<PaneFrame>)
    requires Agrees(panes, owner, direct) && InGrids(owner)
    requires BatchApplies(direct, EraseFrames(frames))
    ensures CommitAll(panes, frames).Some?
    ensures Agrees(CommitAll(panes, frames).value, owner, ShowAll(direct, EraseFrames(frames)))
    decreases |frames|
  {
    if frames != [] {
      var front, next := frames[..|frames| - 1], frames[|frames| - 1];
      LastApplies(direct, frames);
      CommitAllAgrees(panes, owner, direct, front);
      CommitAgrees(CommitAll(panes, front).value, owner, ShowAll(direct, EraseFrames(front)), next);
      assert EraseFrames(frames)[..|front|] == EraseFrames(front);
    }
  }

  lemma {:induction false} ShowAllInGrids(terminals: Terminals, frames: seq<PaneFrame>)
    requires InGrids(terminals) && (forall k :: 0 <= k < |frames| ==> Sized(frames[k].frame))
    ensures InGrids(ShowAll(terminals, EraseFrames(frames)))
    decreases |frames|
  {
    if frames != [] {
      assert EraseFrames(frames)[..|frames| - 1] == EraseFrames(frames[..|frames| - 1]);
      ShowAllInGrids(terminals, frames[..|frames| - 1]);
    }
  }

  function ErasePanes(panes: map<PaneId, Frame>): map<PaneId, Frame> {
    map pane | pane in panes :: EraseFrame(panes[pane])
  }

  lemma ListsErased(frames: seq<PaneFrame>, panes: map<PaneId, Frame>)
    requires Lists(frames, panes)
    ensures Lists(EraseFrames(frames), ErasePanes(panes))
  {
    var erased := EraseFrames(frames);
    var all := ErasePanes(panes);
    forall pane | pane in all ensures exists k :: 0 <= k < |erased| && erased[k].pane == pane {
      var k :| 0 <= k < |frames| && frames[k].pane == pane;
      assert erased[k].pane == pane;
    }
  }

  /** A take brings the owner to where direct application already is. */
  lemma TakeCatchesUp(v: Visual, direct: Terminals, order: seq<PaneFrame>)
    requires Agrees(PendingPanes(v.slot), v.owner, direct) && Lists(order, PendingPanes(v.slot))
    ensures ApplyBatch(v.owner, EraseFrames(order)) == Some(direct)
  {
    var panes := PendingPanes(v.slot);
    var erased := ErasePanes(panes);
    ListsErased(order, panes);
    AppliesAsListed(v.owner, EraseFrames(order), erased);
    ShowsAsListed(v.owner, EraseFrames(order), erased);
    SameLookups(ShowAll(v.owner, EraseFrames(order)), direct);
  }

  /** Full views cover only for pending frames that the owner's terminal would have taken. */
  predicate CoversNothing(v: Visual, e: Event) {
    e.Publishes? ==>
      forall k :: 0 <= k < |e.batch.panes| ==>
        var next := e.batch.panes[k];
        next.frame.Full? && next.pane in PendingPanes(v.slot) ==>
          Accepts(Lookup(v.owner, next.pane), EraseFrame(PendingPanes(v.slot)[next.pane]))
  }

  /** No published full view hides a pending frame that does not apply. */
  predicate Guarded(v: Visual, events: seq<Event>)
    decreases |events|
  {
    events == [] ||
    (&& CoversNothing(v, events[0])
     && (MergedStep(v, events[0]).Some? ==> Guarded(MergedStep(v, events[0]).value, events[1..])))
  }

  lemma ErasedDistinct(frames: seq<PaneFrame>)
    ensures DistinctPanes(EraseFrames(frames)) <==> DistinctPanes(frames)
  {
    assert forall k :: 0 <= k < |frames| ==> EraseFrames(frames)[k].pane == frames[k].pane;
  }

  lemma PublishFollows(v: Visual, direct: Terminals, batch: Batch, server: nat, session: nat)
    requires Agrees(PendingPanes(v.slot), v.owner, direct) && InGrids(v.owner) && InGrids(direct)
    requires PendingFrom(v.slot, server, session) && Decoded([Publishes(batch)], server, session)
    requires BatchApplies(direct, EraseFrames(batch.panes))
    ensures MergedStep(v, Publishes(batch)).Some?
    ensures var v' := MergedStep(v, Publishes(batch)).value;
            var direct' := ShowAll(direct, EraseFrames(batch.panes));
            && Agrees(PendingPanes(v'.slot), v'.owner, direct') && InGrids(v'.owner) && InGrids(direct')
            && PendingFrom(v'.slot, server, session)
  {
    assert [Publishes(batch)][0].batch == batch;
    ErasedDistinct(batch.panes);
    CheckedBatchCommits(PendingPanes(v.slot), batch.panes);
    CommitAllAgrees(PendingPanes(v.slot), v.owner, direct, batch.panes);
    ShowAllInGrids(direct, batch.panes);
  }

  lemma DecodedRest(events: seq<Event>, server: nat, session: nat)
    requires Decoded(events, server, session) && events != []
    ensures Decoded(events[1..], server, session) && Decoded([events[0]], server, session)
  {
    forall k | 0 <= k < |events[1..]| && events[1..][k].Publishes?
      ensures events[k + 1] == events[1..][k]
    {
    }
  }

  lemma InOrderRest(events: seq<Event>)
    requires events != []
    ensures InOrder(events) <==> (events[0].Publishes? ==> FramesInOrder(events[0].batch.panes)) && InOrder(events[1..])
  {
    forall k | 0 < k < |events| ensures events[k] == events[1..][k - 1] {
    }
    if InOrder(events) {
      forall k | 0 <= k < |events[1..]| ensures events[1..][k] == events[k + 1] {
      }
    }
  }

  /**
   Refinement: when every published batch applies directly, no interleaving of publishes and takes
   asks for a resync, and what is still pending is all that separates the owner from direct
   application.
   */
  lemma {:induction false} MergedRefinesDirect(v: Visual, direct: Terminals, events: seq<Event>,
                                               server: nat, session: nat)
    requires Agrees(PendingPanes(v.slot), v.owner, direct) && InGrids(v.owner) && InGrids(direct)
    requires PendingFrom(v.slot, server, session) && Decoded(events, server, session)
    requires DirectRun(direct, events).Some?
    ensures MergedRun(v, events).Some?
    ensures var after := MergedRun(v, events).value;
            Agrees(PendingPanes(after.slot), after.owner, DirectRun(direct, events).value)
    ensures Guarded(v, events)
    decreases |events|
  {
    if events != [] {
      DecodedRest(events, server, session);
      match events[0]
      case Publishes(batch) =>
        PublishFollows(v, direct, batch, server, session);
        var shown := ShowAll(direct, EraseFrames(batch.panes));
        MergedRefinesDirect(MergedStep(v, events[0]).value, shown, events[1..], server, session);
      case Takes(order) =>
        if Lists(order, PendingPanes(v.slot)) {
          TakeCatchesUp(v, direct, order);
          MergedRefinesDirect(Visual(Take(v.slot, v.slot.generation).0, direct), direct, events[1..], server, session);
        } else {
          MergedRefinesDirect(v, direct, events[1..], server, session);
        }
    }
  }

  // ----- When direct application fails -----

  /** A pending frame that the owner's terminal will refuse. */
  predicate Doomed(panes: map<PaneId, Frame>, owner: Terminals) {
    exists pane :: pane in panes && !Accepts(Lookup(owner, pane), EraseFrame(panes[pane]))
  }

  /** A frame the owner's terminal refuses dooms the pending frames, and only a full view could save them. */
  lemma CommitStaysDoomed(panes: map<PaneId, Frame>, owner: Terminals, next: PaneFrame, pane: PaneId)
    requires InGrids(owner) && Commit(panes, next).Some?
    requires pane in panes && !Accepts(Lookup(owner, pane), EraseFrame(panes[pane]))
    requires WellFormedFrame(panes[pane]) && WellFormedFrame(next.frame)
    requires next.pane == pane ==> !next.frame.Full?
    ensures var committed := Commit(panes, next).value;
            pane in committed && !Accepts(Lookup(owner, pane), EraseFrame(committed[pane]))
  {
    if next.pane == pane {
      WellFormedErased(panes[pane]);
      WellFormedErased(next.frame);
      MergeErased(panes[pane], next.frame);
      MergeAcceptsExactly(Lookup(owner, pane), EraseFrame(panes[pane]), EraseFrame(next.frame));
    }
  }

  lemma {:induction false} CommitAllStaysDoomed(panes: map<PaneId, Frame>, owner: Terminals,
                                                frames: seq<PaneFrame>, pane: PaneId)
    requires InGrids(owner) && CommitAll(panes, frames).Some?
    requires pane in panes && !Accepts(Lookup(owner, pane), EraseFrame(panes[pane]))
    requires PendingInOrder(panes) && FramesInOrder(frames)
    requires forall k :: 0 <= k < |frames| && frames[k].pane == pane ==> !frames[k].frame.Full?
    ensures var committed := CommitAll(panes, frames).value;
            pane in committed && !Accepts(Lookup(owner, pane), EraseFrame(committed[pane]))
    decreases |frames|
  {
    if frames != [] {
      var front := frames[..|frames| - 1];
      CommitAllStaysDoomed(panes, owner, front, pane);
      CommitWellFormed(panes, front);
      CommitStaysDoomed(CommitAll(panes, front).value, owner, frames[|frames| - 1], pane);
    }
  }

  /** The frame of a batch that direct application refuses dooms the pending frames. */
  lemma RefusedFrameDooms(panes: map<PaneId, Frame>, owner: Terminals, direct: Terminals, frames: seq<PaneFrame>)
    requires Agrees(panes, owner, direct) && InGrids(owner)
    requires CommitAll(panes, frames).Some?
    requires PendingInOrder(panes) && FramesInOrder(frames)
    requires !BatchApplies(direct, EraseFrames(frames))
    ensures Doomed(CommitAll(panes, frames).value, owner)
  {
    var erased := EraseFrames(frames);
    ErasedDistinct(frames);
    var k :| 0 <= k < |frames| && !Accepts(Lookup(direct, erased[k].pane), erased[k].frame);
    var next := frames[k];
    CommittedAt(panes, frames, k);
    var committed := CommitAll(panes, frames).value;
    if next.pane in panes {
      WellFormedErased(panes[next.pane]);
      WellFormedErased(next.frame);
      MergeErased(panes[next.pane], next.frame);
      MergeAcceptsExactly(Lookup(owner, next.pane), EraseFrame(panes[next.pane]), EraseFrame(next.frame));
    }
    assert next.pane in committed && !Accepts(Lookup(owner, next.pane), EraseFrame(committed[next.pane]));
  }

  /** With each Pane named once, a Pane's committed frame is its own merge. */
  lemma {:induction false} CommittedAt(panes: map<PaneId, Frame>, frames: seq<PaneFrame>, k: nat)
    requires DistinctPanes(frames) && CommitAll(panes, frames).Some? && k < |frames|
    ensures var committed, next := CommitAll(panes, frames).value, frames[k];
            && next.pane in committed
            && (next.pane in panes ==>
                  && FramesMerge(panes[next.pane], next.frame)
                  && committed[next.pane] == MergeFrames(panes[next.pane], next.frame))
            && (next.pane !in panes ==> committed[next.pane] == next.frame)
    decreases |frames|
  {
    var front := frames[..|frames| - 1];
    DistinctFront(frames);
    if k == |frames| - 1 {
      Untouched(panes, front, frames[k].pane);
    } else {
      CommittedAt(panes, front, k);
      assert front[k] == frames[k] && frames[|frames| - 1].pane != frames[k].pane;
    }
  }

  lemma DoomedTake(v: Visual, order: seq<PaneFrame>)
    requires Doomed(PendingPanes(v.slot), v.owner) && Lists(order, PendingPanes(v.slot))
    ensures MergedStep(v, Takes(order)).None?
  {
    var panes := PendingPanes(v.slot);
    var erased := ErasePanes(panes);
    var pane :| pane in panes && !Accepts(Lookup(v.owner, pane), EraseFrame(panes[pane]));
    ListsErased(order, panes);
    assert pane in erased;
    AppliesAsListed(v.owner, EraseFrames(order), erased);
  }

  /** Doomed pending frames never become terminals: the run asks for a resync or stays doomed. */
  lemma {:induction false} DoomedStaysDoomed(v: Visual, events: seq<Event>)
    requires Doomed(PendingPanes(v.slot), v.owner) && InGrids(v.owner) && Guarded(v, events)
    requires PendingInOrder(PendingPanes(v.slot)) && InOrder(events)
    ensures MergedRun(v, events).Some? ==>
              Doomed(PendingPanes(MergedRun(v, events).value.slot), MergedRun(v, events).value.owner)
    decreases |events|
  {
    if events != [] && MergedStep(v, events[0]).Some? {
      var panes := PendingPanes(v.slot);
      var pane :| pane in panes && !Accepts(Lookup(v.owner, pane), EraseFrame(panes[pane]));
      InOrderRest(events);
      match events[0]
      case Publishes(batch) =>
        CommitAllStaysDoomed(panes, v.owner, batch.panes, pane);
        CommitWellFormed(panes, batch.panes);
        DoomedStaysDoomed(MergedStep(v, events[0]).value, events[1..]);
      case Takes(order) =>
        if Lists(order, panes) {
          DoomedTake(v, order);
        } else {
          DoomedStaysDoomed(v, events[1..]);
        }
    }
  }

  lemma {:induction false} FailureDooms(v: Visual, direct: Terminals, events: seq<Event>, server: nat, session: nat)
    requires Agrees(PendingPanes(v.slot), v.owner, direct) && InGrids(v.owner) && InGrids(direct)
    requires PendingFrom(v.slot, server, session) && Decoded(events, server, session)
    requires PendingInOrder(PendingPanes(v.slot)) && InOrder(events)
    requires DirectRun(direct, events).None? && Guarded(v, events) && MergedRun(v, events).Some?
    ensures Doomed(PendingPanes(MergedRun(v, events).value.slot), MergedRun(v, events).value.owner)
    decreases |events|
  {
    DecodedRest(events, server, session);
    InOrderRest(events);
    match events[0]
    case Publishes(batch) =>
      CommitWellFormed(PendingPanes(v.slot), batch.panes);
      if BatchApplies(direct, EraseFrames(batch.panes)) {
        PublishFollows(v, direct, batch, server, session);
        var shown := ShowAll(direct, EraseFrames(batch.panes));
        FailureDooms(MergedStep(v, events[0]).value, shown, events[1..], server, session);
      } else {
        RefusedFrameDooms(PendingPanes(v.slot), v.owner, direct, batch.panes);
        DoomedStaysDoomed(MergedStep(v, events[0]).value, events[1..]);
      }
    case Takes(order) =>
      if Lists(order, PendingPanes(v.slot)) {
        TakeCatchesUp(v, direct, order);
        FailureDooms(Visual(Take(v.slot, v.slot.generation).0, direct), direct, events[1..], server, session);
      } else {
        FailureDooms(v, direct, events[1..], server, session);
      }
  }

  /** A frame that a terminal takes as it comes is in order. */
  lemma AcceptedInOrder(t: Option<View>, f: Frame)
    requires InGrid(t) && Sized(f) && Accepts(t, EraseFrame(f))
    ensures WellFormedFrame(f)
  {
    if f.Diff? {
      FitErased(f.delta.runs, 0, |t.value.cells|);
      FitLarger(f.delta.runs, 0, |t.value.cells|, U32_MAX);
    }
  }

  lemma BatchInOrder(direct: Terminals, frames: seq<PaneFrame>)
    requires InGrids(direct) && BatchApplies(direct, EraseFrames(frames))
    requires forall k :: 0 <= k < |frames| ==> Sized(frames[k].frame)
    ensures FramesInOrder(frames)
  {
    ErasedDistinct(frames);
    forall k | 0 <= k < |frames| ensures WellFormedFrame(frames[k].frame) {
      assert Accepts(Lookup(direct, EraseFrames(frames)[k].pane), EraseFrames(frames)[k].frame);
      AcceptedInOrder(Lookup(direct, frames[k].pane), frames[k].frame);
    }
  }

  /** Direct application takes only deltas in order, and each Pane once a batch. */
  lemma {:induction false} DirectInOrder(direct: Terminals, events: seq<Event>, server: nat, session: nat)
    requires InGrids(direct) && Decoded(events, server, session) && DirectRun(direct, events).Some?
    ensures InOrder(events)
    decreases |events|
  {
    if events != [] {
      DecodedRest(events, server, session);
      InOrderRest(events);
      assert [events[0]][0] == events[0];
      if events[0].Publishes? {
        BatchInOrder(direct, events[0].batch.panes);
        ShowAllInGrids(direct, events[0].batch.panes);
        DirectInOrder(ShowAll(direct, EraseFrames(events[0].batch.panes)), events[1..], server, session);
      } else {
        DirectInOrder(direct, events[1..], server, session);
      }
    }
  }

  /**
   Agreement is exact. For every run of the merged path that asks for no resync and leaves nothing
   pending, direct application also succeeds, with the same terminals, exactly when no full view
   covered for a pending frame that the owner's terminal would have refused, no delta came with its
   runs out of order or without a later revision, and no batch named a Pane twice.
   */
  lemma MergedAgreesExactly(v: Visual, events: seq<Event>, server: nat, session: nat)
    requires v.slot.pending.None? && InGrids(v.owner) && Decoded(events, server, session)
    requires MergedRun(v, events).Some? && MergedRun(v, events).value.slot.pending.None?
    ensures DirectRun(v.owner, events) == Some(MergedRun(v, events).value.owner)
            <==> Guarded(v, events) && InOrder(events)
  {
    assert Agrees(PendingPanes(v.slot), v.owner, v.owner);
    if DirectRun(v.owner, events).Some? {
      MergedRefinesDirect(v, v.owner, events, server, session);
      SameLookups(MergedRun(v, events).value.owner, DirectRun(v.owner, events).value);
      DirectInOrder(v.owner, events, server, session);
    } else if Guarded(v, events) && InOrder(events) {
      FailureDooms(v, v.owner, events, server, session);
    }
  }

  lemma CommitOne(panes: map<PaneId, Frame>, next: PaneFrame)
    ensures CommitAll(panes, [next]) == Commit(panes, next)
    ensures next.pane !in panes || FramesMerge(panes[next.pane], next.frame) ==>
              Precheck(panes, [next]) == Some(panes[next.pane := next.frame])
  {
    assert [next][..0] == [];
  }

  /**
   A full view can hide a delta that does not apply: the owner holds a view at revision 3, a delta
   that starts from revision 5 waits in the slot, and the merged path goes on with the full view
   that follows, where direct application asks for a resync.
   */
  lemma FullViewCoversForAGap() returns (v: Visual, events: seq<Event>)
    ensures v.slot == NewSlot && Decoded(events, 1, 1) && InOrder(events)
    ensures exists pane :: pane in v.owner
    ensures MergedRun(v, events).Some? && DirectRun(v.owner, events).None?
  {
    var cell := Cell(Look("x", 0, 0, 0, 0), None);
    var shown := View(3, Size(1, 1, 0, 0), 0, NoTracking, [cell], None, None);
    var gap := PaneFrame(7, Diff(Delta(5, 6, 0, NoTracking, None, None, [])));
    var full := PaneFrame(7, Full(shown.(revision := 9)));
    var first, second := Batch(1, 1, [gap]), Batch(1, 1, [full]);
    events := [Publishes(first), Publishes(second)];
    v := Visual(NewSlot, map[7 := shown]);
    assert 7 in v.owner;
    var none: map<PaneId, Frame>, held: map<PaneId, Frame> := map[], map[7 := gap.frame];
    assert none[7 := gap.frame] == held;
    CommitOne(none, gap);
    CommitOne(held, full);
    var slot1 := Slot(0, Some(Pending(1, 1, held)), true);
    var v1 := Visual(slot1, v.owner);
    assert Publish(v.slot, first) == (slot1, Signal(0));
    assert events[1..] == [Publishes(second)] && events[1..][1..] == [];
    assert MergedStep(v, events[0]) == Some(v1);
    assert MergedStep(v1, events[1]).Some?;
    var after := MergedStep(v1, events[1]).value;
    assert MergedRun(after, []) == Some(after);
    assert MergedRun(v1, events[1..]) == Some(after);
    assert EraseFrames([gap])[0].frame.Diff? && !Accepts(Some(shown), EraseFrames([gap])[0].frame);
  }

  /** The two deltas of `MergeRepairsDisorder` carry no hyperlinks, and merge into one for the wire. */
  lemma DisorderMerges()
    ensures EraseFrame(Diff(Still)) == Diff(Still) && EraseFrame(Diff(Shuffled)) == Diff(Shuffled)
    ensures FramesMerge(Diff(Still), Diff(Shuffled))
    ensures MergeFrames(Diff(Still), Diff(Shuffled)) == Diff(MergeDeltas(Still, Shuffled))
    ensures Accepts(Some(TwoCells), EraseFrame(Diff(MergeDeltas(Still, Shuffled))))
  {
    MergeRepairsDisorder();
    assert EraseRuns(Still.runs) == [];
    assert EraseCells([Blank]) == [Blank];
    assert EraseRuns(Shuffled.runs) == Shuffled.runs;
    MergeErased(Diff(Still), Diff(Shuffled));
  }

  /** The owner takes the one frame that waits, when its terminal accepts it. */
  lemma TakeOne(v: Visual, pane: PaneId, frame: Frame) returns (next: Visual)
    requires PendingPanes(v.slot) == map[pane := frame] && Accepts(Lookup(v.owner, pane), EraseFrame(frame))
    ensures MergedStep(v, Takes([PaneFrame(pane, frame)])) == Some(next) && next.slot.pending.None?
  {
    var order := [PaneFrame(pane, frame)];
    assert EraseFrames(order) == [PaneFrame(pane, EraseFrame(frame))];
    assert order[0].pane == pane;
    next := Visual(Take(v.slot, v.slot.generation).0, ShowAll(v.owner, EraseFrames(order)));
  }

  lemma OneStepRun(v: Visual, e: Event)
    ensures MergedRun(v, [e]) == MergedStep(v, e)
  {
    assert [e][1..] == [];
  }

  /** Where no full view is published, none covers for anything. */
  lemma {:induction false} NoFullViews(v: Visual, events: seq<Event>)
    requires forall k :: 0 <= k < |events| && events[k].Publishes? ==>
               forall j :: 0 <= j < |events[k].batch.panes| ==> events[k].batch.panes[j].frame.Diff?
    ensures Guarded(v, events)
    decreases |events|
  {
    if events != [] && MergedStep(v, events[0]).Some? {
      assert forall k :: 0 <= k < |events[1..]| ==> events[1..][k] == events[k + 1];
      NoFullViews(MergedStep(v, events[0]).value, events[1..]);
    }
  }

  /** Direct application refuses the second delta. */
  lemma ShuffledIsRefused(direct: Terminals, events: seq<Event>)
    requires direct == map[7 := TwoCells] && |events| == 3
    requires events[0] == Publishes(Batch(1, 1, [PaneFrame(7, Diff(Still))]))
    requires events[1] == Publishes(Batch(1, 1, [PaneFrame(7, Diff(Shuffled))])) && events[2].Takes?
    ensures DirectRun(direct, events).None?
  {
    assert Shuffled.runs[1..][0] == Shuffled.runs[1];
    assert !RunsFit(Shuffled.runs[1..], 2, U32_MAX);
    assert !WellFormedFrame(events[1].batch.panes[0].frame);
    assert !FramesInOrder(events[1].batch.panes);
    if DirectRun(direct, events).Some? {
      DirectInOrder(direct, events, 1, 1);
    }
  }

  /** The slot with the first delta in it, and with both merged. */
  lemma DisorderWaits(owner: Terminals) returns (v1: Visual, v2: Visual)
    ensures MergedStep(Visual(NewSlot, owner), Publishes(Batch(1, 1, [PaneFrame(7, Diff(Still))]))) == Some(v1)
    ensures MergedStep(v1, Publishes(Batch(1, 1, [PaneFrame(7, Diff(Shuffled))]))) == Some(v2)
    ensures v2.owner == owner && PendingPanes(v2.slot) == map[7 := Diff(MergeDeltas(Still, Shuffled))]
  {
    DisorderMerges();
    var none: map<PaneId, Frame> := map[];
    var one: map<PaneId, Frame> := map[7 := Diff(Still)];
    var two: map<PaneId, Frame> := map[7 := Diff(MergeDeltas(Still, Shuffled))];
    assert none[7 := Diff(Still)] == one && one[7 := Diff(MergeDeltas(Still, Shuffled))] == two;
    CommitOne(none, PaneFrame(7, Diff(Still)));
    CommitOne(one, PaneFrame(7, Diff(Shuffled)));
    v1 := Visual(Slot(0, Some(Pending(1, 1, one)), true), owner);
    v2 := v1.(slot := Slot(0, Some(Pending(1, 1, two)), true));
  }

  /**
   A merge can hide a delta whose runs are out of order: it waits behind another, the merge of the
   two is in order, and the merged path goes on where direct application asks for a resync.
   */
  lemma MergeHidesDisorder() returns (v: Visual, events: seq<Event>)
    ensures v.slot == NewSlot && Decoded(events, 1, 1) && Guarded(v, events)
    ensures MergedRun(v, events).Some? && MergedRun(v, events).value.slot.pending.None?
    ensures DirectRun(v.owner, events).None?
  {
    var still, shuffled := PaneFrame(7, Diff(Still)), PaneFrame(7, Diff(Shuffled));
    var both := Diff(MergeDeltas(Still, Shuffled));
    var order := [PaneFrame(7, both)];
    var first, second := Batch(1, 1, [still]), Batch(1, 1, [shuffled]);
    events := [Publishes(first), Publishes(second), Takes(order)];
    v := Visual(NewSlot, map[7 := TwoCells]);
    DisorderMerges();
    var v1, v2 := DisorderWaits(v.owner);
    assert events[1..] == [Publishes(second), Takes(order)] && events[1..][1..] == [Takes(order)];
    var v3 := TakeOne(v2, 7, both);
    OneStepRun(v2, Takes(order));
    assert MergedRun(v1, events[1..]) == Some(v3);
    NoFullViews(v, events);
    ShuffledIsRefused(v.owner, events);
  }

  /** And it can hide that a batch named one Pane twice, which direct application refuses. */
  lemma MergeHidesARepeat() returns (v: Visual, events: seq<Event>)
    ensures v.slot == NewSlot && Decoded(events, 1, 1) && Guarded(v, events)
    ensures MergedRun(v, events).Some? && MergedRun(v, events).value.slot.pending.None?
    ensures DirectRun(v.owner, events).None?
  {
    var full := PaneFrame(7, Full(TwoCells));
    var batch := Batch(1, 1, [full, full]);
    events := [Publishes(batch), Takes([full])];
    v := Visual(NewSlot, map[]);
    var v1 := RepeatWaits(full, batch);
    assert events[1..] == [Takes([full])];
    var v2 := TakeOne(v1, 7, full.frame);
    OneStepRun(v1, Takes([full]));
    assert MergedRun(v1, events[1..]) == Some(v2);
    assert EraseFrames(batch.panes)[0].pane == EraseFrames(batch.panes)[1].pane;
  }

  lemma RepeatWaits(full: PaneFrame, batch: Batch) returns (next: Visual)
    requires full == PaneFrame(7, Full(TwoCells)) && batch == Batch(1, 1, [full, full])
    ensures MergedStep(Visual(NewSlot, map[]), Publishes(batch)) == Some(next)
    ensures PendingPanes(next.slot) == map[7 := full.frame]
  {
    var none: map<PaneId, Frame>, one: map<PaneId, Frame> := map[], map[7 := full.frame];
    assert none[7 := full.frame] == one && one[7 := full.frame] == one;
    CommitOne(none, full);
    assert batch.panes[..1] == [full];
    next := Visual(Slot(0, Some(Pending(1, 1, one)), true), map[]);
  }
}

/**
 The merged path of `VisualRuns` for a Client that watches only some Panes: before a batch is
 applied, what the model does not want is taken out of it. Such a run is the image of one without
 a watched set, in which the frames that direct application would ignore were never published.
 */
module WatchedRuns {
  import opened Wrappers
  import opened TerminalViews
  import opened FrameMerge
  import opened FrameLinks
  import opened VisualSlot
  import opened ClientTerminals
  import opened SessionModels
  import opened VisualRuns

  datatype Watcher = Watcher(slot: Slot, model: Model)

  /** One event on the merged path; nothing when it asks for a resync. */
  function WatchedStep(w: Watcher, e: Event): Option<Watcher> {
    match e
    case Publishes(batch) =>
      var (slot, result) := Publish(w.slot, batch);
      if result.Rejected? then None else Some(w.(slot := slot))
    case Takes(order) =>
      if !Lists(order, PendingPanes(w.slot)) then Some(w)
      else
        match ApplyTerminalFrames(w.model, EraseFrames(order))
        case None => None
        case Some(model) => Some(Watcher(Take(w.slot, w.slot.generation).0, model))
  }

  function WatchedRun(w: Watcher, events: seq<Event>): Option<Watcher>
    decreases |events|
  {
    if events == [] then Some(w)
    else
      match WatchedStep(w, events[0])
      case None => None
      case Some(next) => WatchedRun(next, events[1..])
  }

  /** Every published batch applied at once, in order; nothing when one does not apply. */
  function WatchedDirect(m: Model, events: seq<Event>): Option<Model>
    decreases |events|
  {
    if events == [] then Some(m)
    else if events[0].Takes? then WatchedDirect(m, events[1..])
    else
      match ApplyTerminalFrames(m, EraseFrames(events[0].batch.panes))
      case None => None
      case Some(next) => WatchedDirect(next, events[1..])
  }

  // ----- The same run without what is ignored -----

  function Erased(next: PaneFrame): PaneFrame {
    PaneFrame(next.pane, EraseFrame(next.frame))
  }

  /** The pending frames that the model would want if it took them now. */
  function Kept(m: Model, panes: map<PaneId, Frame>): map<PaneId, Frame> {
    map pane | pane in panes && Wants(m, PaneFrame(pane, panes[pane])) :: EraseFrame(panes[pane])
  }

  /** Direct application would want the frame: it has the Pane's view already, or this is one. */
  predicate Counts(m: Model, panes: map<PaneId, Frame>, next: PaneFrame) {
    m.watched.Some? ==>
      && Watches(m.watched, next.pane)
      && (next.pane in m.terminals || (next.pane in panes && panes[next.pane].Full?) || next.frame.Full?)
  }

  function Counted(m: Model, panes: map<PaneId, Frame>, frames: seq<PaneFrame>): seq<PaneFrame> {
    if frames == [] then []
    else
      var front, last := Counted(m, panes, frames[..|frames| - 1]), frames[|frames| - 1];
      if Counts(m, panes, last) then front + [Erased(last)] else front
  }

  function Image(w: Watcher): Visual {
    var pending := match w.slot.pending
      case None => None
      case Some(p) => Some(p.(panes := Kept(w.model, p.panes)));
    Visual(w.slot.(pending := pending), w.model.terminals)
  }

  function TrimEvent(w: Watcher, e: Event): Event {
    match e
    case Publishes(batch) => Publishes(batch.(panes := Counted(w.model, PendingPanes(w.slot), batch.panes)))
    case Takes(order) => Takes(EraseFrames(Wanted(w.model, order)))
  }

  predicate Idle(w: Watcher, e: Event) {
    e.Takes? && !Lists(e.order, PendingPanes(w.slot))
  }

  /** The events of the image: a take that finds something else to list does nothing, and is left out. */
  function Trim(w: Watcher, events: seq<Event>): seq<Event>
    decreases |events|
  {
    if events == [] then []
    else if Idle(w, events[0]) then Trim(w, events[1..])
    else
      [TrimEvent(w, events[0])]
      + match WatchedStep(w, events[0])
        case None => []
        case Some(next) => Trim(next, events[1..])
  }

  // ----- Erasing twice is erasing once -----

  lemma EraseCellsTwice(cells: seq<Cell>)
    ensures EraseCells(EraseCells(cells)) == EraseCells(cells)
  {
  }

  lemma EraseTwice(f: Frame)
    ensures EraseFrame(EraseFrame(f)) == EraseFrame(f)
  {
    match f {
      case Full(view) => EraseCellsTwice(view.cells);
      case Diff(delta) =>
        var runs := EraseRuns(delta.runs);
        forall k | 0 <= k < |runs| ensures EraseRuns(runs)[k] == runs[k] {
          EraseCellsTwice(delta.runs[k].cells);
        }
        assert EraseRuns(runs) == runs;
    }
  }

  lemma EraseFramesTwice(frames: seq<PaneFrame>)
    ensures EraseFrames(EraseFrames(frames)) == EraseFrames(frames)
  {
    forall k | 0 <= k < |frames| ensures EraseFrames(EraseFrames(frames))[k] == EraseFrames(frames)[k] {
      EraseTwice(frames[k].frame);
    }
  }

  lemma EraseFramesPush(front: seq<PaneFrame>, last: PaneFrame)
    ensures EraseFrames(front + [last]) == EraseFrames(front) + [Erased(last)]
  {
  }

  lemma {:induction false} WantedErased(m: Model, frames: seq<PaneFrame>)
    ensures Wanted(m, EraseFrames(frames)) == EraseFrames(Wanted(m, frames))
  {
    if frames != [] {
      var front, last := frames[..|frames| - 1], frames[|frames| - 1];
      WantedErased(m, front);
      assert EraseFrames(frames)[..|frames| - 1] == EraseFrames(front);
      EraseFramesPush(Wanted(m, front), last);
    }
  }

  lemma {:induction false} CountedIsErased(m: Model, panes: map<PaneId, Frame>, frames: seq<PaneFrame>)
    ensures EraseFrames(Counted(m, panes, frames)) == Counted(m, panes, frames)
  {
    if frames != [] {
      var front, last := frames[..|frames| - 1], frames[|frames| - 1];
      CountedIsErased(m, panes, front);
      EraseFramesPush(Counted(m, panes, front), Erased(last));
      EraseTwice(last.frame);
    }
  }

  lemma ErasedNoLinks(f: Frame)
    ensures !AddsLinks(EraseFrame(f))
  {
  }

  // ----- What is published -----

  /** Once a Pane's frame waits, the model wants it after a merge if it wanted it, or if it is a view now. */
  lemma MergeKept(m: Model, pane: PaneId, previous: Frame, next: Frame)
    requires FramesMerge(previous, next)
    ensures Wants(m, PaneFrame(pane, MergeFrames(previous, next)))
            <==> (m.watched.Some? ==> Watches(m.watched, pane)
                                      && (pane in m.terminals || previous.Full? || next.Full?))
    ensures FramesMerge(EraseFrame(previous), EraseFrame(next))
    ensures EraseFrame(MergeFrames(previous, next))
         == if next.Full? then EraseFrame(next) else MergeFrames(EraseFrame(previous), EraseFrame(next))
  {
    MergeErased(previous, next);
    ErasedNoLinks(next);
  }

  lemma OneMoreKept(m: Model, panes: map<PaneId, Frame>, pane: PaneId, frame: Frame)
    ensures Kept(m, panes[pane := frame])
         == if Wants(m, PaneFrame(pane, frame)) then Kept(m, panes)[pane := EraseFrame(frame)]
            else Kept(m, panes) - {pane}
  {
  }

  /** A frame merged into the pending ones is merged into those the model wants, if it counts. */
  lemma CommitKept(m: Model, panes: map<PaneId, Frame>, next: PaneFrame)
    requires Commit(panes, next).Some?
    ensures var after := Kept(m, Commit(panes, next).value);
            if Counts(m, panes, next) then Commit(Kept(m, panes), Erased(next)) == Some(after)
            else after == Kept(m, panes)
  {
    OneMoreKept(m, panes, next.pane, Commit(panes, next).value[next.pane]);
    if next.pane in panes {
      MergeKept(m, next.pane, panes[next.pane], next.frame);
      MergeErased(panes[next.pane], next.frame);
      ErasedNoLinks(next.frame);
    }
  }

  lemma {:induction false} CommitAllKept(m: Model, panes: map<PaneId, Frame>, frames: seq<PaneFrame>)
    requires DistinctPanes(frames) && CommitAll(panes, frames).Some?
    ensures CommitAll(Kept(m, panes), Counted(m, panes, frames)) == Some(Kept(m, CommitAll(panes, frames).value))
    decreases |frames|
  {
    if frames != [] {
      var front, last := frames[..|frames| - 1], frames[|frames| - 1];
      DistinctFront(frames);
      CommitAllKept(m, panes, front);
      Untouched(panes, front, last.pane);
      CommitKept(m, CommitAll(panes, front).value, last);
      var counted := Counted(m, panes, front);
      assert (counted + [Erased(last)])[..|counted|] == counted;
    }
  }

  /** What counts of a batch is some of it, in its order. */
  lemma {:induction false} CountedNames(m: Model, panes: map<PaneId, Frame>, frames: seq<PaneFrame>, pane: PaneId)
    ensures Names(Counted(m, panes, frames), pane) ==> Names(frames, pane)
    decreases |frames|
  {
    if frames != [] {
      var front := frames[..|frames| - 1];
      CountedNames(m, panes, front, pane);
      NamesFront(frames, pane);
      var counted := Counted(m, panes, front);
      if Counted(m, panes, frames) != counted {
        assert Counted(m, panes, frames)[..|counted|] == counted;
        NamesFront(Counted(m, panes, frames), pane);
      }
    }
  }

  lemma {:induction false} CountedDistinct(m: Model, panes: map<PaneId, Frame>, frames: seq<PaneFrame>)
    requires DistinctPanes(frames)
    ensures DistinctPanes(Counted(m, panes, frames))
    ensures (forall k :: 0 <= k < |frames| ==> Sized(frames[k].frame)) ==>
              forall k :: 0 <= k < |Counted(m, panes, frames)| ==> Sized(Counted(m, panes, frames)[k].frame)
    decreases |frames|
  {
    if frames != [] {
      var front, last := frames[..|frames| - 1], frames[|frames| - 1];
      DistinctFront(frames);
      CountedDistinct(m, panes, front);
      CountedNames(m, panes, front, last.pane);
      var counted := Counted(m, panes, front);
      forall k | 0 <= k < |counted| ensures counted[k].pane != last.pane {
      }
    }
  }

  lemma PublishImage(w: Watcher, batch: Batch)
    requires DistinctPanes(batch.panes) && WatchedStep(w, Publishes(batch)).Some?
    ensures MergedStep(Image(w), TrimEvent(w, Publishes(batch))) == Some(Image(WatchedStep(w, Publishes(batch)).value))
  {
    var panes := PendingPanes(w.slot);
    var counted := Counted(w.model, panes, batch.panes);
    CommitAllKept(w.model, panes, batch.panes);
    CountedDistinct(w.model, panes, batch.panes);
    CheckedBatchCommits(Kept(w.model, panes), counted);
    assert PendingPanes(Image(w).slot) == Kept(w.model, panes);
  }

  // ----- What is taken -----

  lemma {:induction false} WantedFrames(m: Model, frames: seq<PaneFrame>, k: nat)
    requires k < |frames| && Wants(m, frames[k])
    ensures Names(Wanted(m, frames), frames[k].pane)
    decreases |frames|
  {
    var front, last := Wanted(m, frames[..|frames| - 1]), frames[|frames| - 1];
    if k < |frames| - 1 {
      WantedFrames(m, frames[..|frames| - 1], k);
      var j :| 0 <= j < |front| && front[j].pane == frames[k].pane;
      assert Wanted(m, frames)[j].pane == frames[k].pane;
    } else {
      assert Wanted(m, frames)[|front|].pane == last.pane;
    }
  }

  lemma {:induction false} WantedAreSome(m: Model, frames: seq<PaneFrame>)
    ensures forall next :: next in Wanted(m, frames) ==> next in frames && Wants(m, next)
    ensures DistinctPanes(frames) ==> DistinctPanes(Wanted(m, frames))
    decreases |frames|
  {
    if frames != [] {
      var front := frames[..|frames| - 1];
      WantedAreSome(m, front);
      if DistinctPanes(frames) {
        DistinctFront(frames);
        forall next | next in Wanted(m, front) ensures next.pane != frames[|frames| - 1].pane {
          var j :| 0 <= j < |front| && front[j] == next;
        }
      }
    }
  }

  lemma WantedLists(m: Model, order: seq<PaneFrame>, panes: map<PaneId, Frame>)
    requires Lists(order, panes)
    ensures Lists(EraseFrames(Wanted(m, order)), Kept(m, panes))
  {
    var wanted := Wanted(m, order);
    WantedAreSome(m, order);
    var erased := EraseFrames(wanted);
    forall pane | pane in Kept(m, panes) ensures exists k :: 0 <= k < |erased| && erased[k].pane == pane {
      var k :| 0 <= k < |order| && order[k].pane == pane;
      WantedFrames(m, order, k);
      var j :| 0 <= j < |wanted| && wanted[j].pane == pane;
      assert erased[j].pane == pane;
    }
    forall k | 0 <= k < |wanted|
      ensures wanted[k].pane in Kept(m, panes) && Kept(m, panes)[wanted[k].pane] == EraseFrame(wanted[k].frame)
    {
      assert wanted[k] in wanted;
      var j :| 0 <= j < |order| && order[j] == wanted[k];
      assert PaneFrame(wanted[k].pane, panes[wanted[k].pane]) == wanted[k];
    }
  }

  lemma TakeImage(w: Watcher, order: seq<PaneFrame>)
    requires Matched(w.model) && Lists(order, PendingPanes(w.slot))
    ensures MergedStep(Image(w), TrimEvent(w, Takes(order)))
         == match WatchedStep(w, Takes(order))
            case None => None
            case Some(next) => Some(Image(next))
  {
    var wanted := Wanted(w.model, order);
    WantedLists(w.model, order, PendingPanes(w.slot));
    WantedErased(w.model, order);
    EraseFramesTwice(wanted);
    assert PendingPanes(Image(w).slot) == Kept(w.model, PendingPanes(w.slot));
    assert FramesApply(w.model, EraseFrames(wanted)) <==> BatchApplies(w.model.terminals, EraseFrames(wanted));
  }

  lemma StepMatches(w: Watcher, e: Event)
    requires Matched(w.model) && WatchedStep(w, e).Some?
    ensures var next := WatchedStep(w, e).value;
            Matched(next.model) && next.model == w.model.(terminals := next.model.terminals, links := next.model.links)
  {
    if e.Takes? && Lists(e.order, PendingPanes(w.slot)) {
      FramesMatch(w.model, EraseFrames(e.order));
    }
  }

  predicate EachPaneOnce(e: Event) {
    e.Publishes? ==> DistinctPanes(e.batch.panes)
  }

  /** What the wire gives the reader, each Pane once a batch. */
  predicate Incoming(events: seq<Event>, server: nat, session: nat) {
    Decoded(events, server, session) && forall k :: 0 <= k < |events| ==> EachPaneOnce(events[k])
  }

  lemma IncomingRest(events: seq<Event>, server: nat, session: nat)
    requires Incoming(events, server, session) && events != []
    ensures Incoming(events[1..], server, session) && Incoming([events[0]], server, session)
    ensures EachPaneOnce(events[0])
  {
    DecodedRest(events, server, session);
    assert forall k :: 0 <= k < |events[1..]| ==> events[1..][k] == events[k + 1];
    assert [events[0]][0] == events[0];
  }

  lemma StepImage(w: Watcher, e: Event)
    requires Matched(w.model) && EachPaneOnce(e) && !Idle(w, e) && WatchedStep(w, e).Some?
    ensures MergedStep(Image(w), TrimEvent(w, e)) == Some(Image(WatchedStep(w, e).value))
  {
    match e {
      case Publishes(batch) => PublishImage(w, batch);
      case Takes(order) => TakeImage(w, order);
    }
  }

  /** The merged run is the image's. */
  lemma {:induction false} RunImage(w: Watcher, events: seq<Event>, server: nat, session: nat)
    requires Matched(w.model) && Incoming(events, server, session) && WatchedRun(w, events).Some?
    ensures MergedRun(Image(w), Trim(w, events)) == Some(Image(WatchedRun(w, events).value))
    ensures Decoded(Trim(w, events), server, session)
    decreases |events|
  {
    if events != [] {
      IncomingRest(events, server, session);
      var next := WatchedStep(w, events[0]).value;
      StepMatches(w, events[0]);
      RunImage(next, events[1..], server, session);
      if !Idle(w, events[0]) {
        assert [events[0]][0] == events[0];
        StepImage(w, events[0]);
        if events[0].Publishes? {
          CountedDistinct(w.model, PendingPanes(w.slot), events[0].batch.panes);
        }
        assert Trim(w, events)[1..] == Trim(next, events[1..]);
      }
    }
  }

  // ----- Direct application is the image's, too -----

  /** `direct` has the watched views that the owner has, or will have once it takes what is pending. */
  predicate InStep(w: Watcher, direct: Model) {
    && direct.watched == w.model.watched && Matched(direct)
    && (direct.watched.Some? ==>
          forall pane <- direct.watched.value ::
            pane in direct.terminals <==>
              pane in w.model.terminals || (pane in PendingPanes(w.slot) && PendingPanes(w.slot)[pane].Full?))
  }

  lemma {:induction false} WantedIsCounted(w: Watcher, direct: Model, frames: seq<PaneFrame>)
    requires InStep(w, direct)
    ensures Wanted(direct, EraseFrames(frames)) == Counted(w.model, PendingPanes(w.slot), frames)
  {
    if frames != [] {
      var front := frames[..|frames| - 1];
      WantedIsCounted(w, direct, front);
      assert EraseFrames(frames)[..|frames| - 1] == EraseFrames(front);
    }
  }

  lemma {:induction false} CommitAllFull(panes: map<PaneId, Frame>, frames: seq<PaneFrame>, pane: PaneId)
    requires CommitAll(panes, frames).Some?
    ensures var after := CommitAll(panes, frames).value;
            pane in after && after[pane].Full? <==> (pane in panes && panes[pane].Full?) || pane in FullPanes(frames)
    decreases |frames|
  {
    if frames != [] {
      CommitAllFull(panes, frames[..|frames| - 1], pane);
    }
  }

  lemma FullPush(front: seq<PaneFrame>, last: PaneFrame)
    ensures FullPanes(front + [last]) == FullPanes(front) + (if last.frame.Full? then {last.pane} else {})
  {
    assert (front + [last])[..|front|] == front;
  }

  lemma {:induction false} CountedFull(m: Model, panes: map<PaneId, Frame>, frames: seq<PaneFrame>, pane: PaneId)
    ensures pane in FullPanes(Counted(m, panes, frames)) <==> pane in FullPanes(frames) && Watches(m.watched, pane)
    decreases |frames|
  {
    if frames != [] {
      var front, last := frames[..|frames| - 1], frames[|frames| - 1];
      CountedFull(m, panes, front, pane);
      FullPush(Counted(m, panes, front), Erased(last));
    }
  }

  lemma {:induction false} ErasedFull(frames: seq<PaneFrame>)
    ensures FullPanes(EraseFrames(frames)) == FullPanes(frames)
  {
    if frames != [] {
      ErasedFull(frames[..|frames| - 1]);
      assert EraseFrames(frames)[..|frames| - 1] == EraseFrames(frames[..|frames| - 1]);
    }
  }

  lemma {:induction false} WantedFull(m: Model, frames: seq<PaneFrame>, pane: PaneId)
    ensures pane in FullPanes(Wanted(m, frames)) <==> pane in FullPanes(frames) && Watches(m.watched, pane)
    decreases |frames|
  {
    if frames != [] {
      var front, last := frames[..|frames| - 1], frames[|frames| - 1];
      WantedFull(m, front, pane);
      FullPush(Wanted(m, front), last);
    }
  }

  lemma {:induction false} FullAreListed(frames: seq<PaneFrame>, pane: PaneId)
    ensures pane in FullPanes(frames) <==>
              exists k :: 0 <= k < |frames| && frames[k].pane == pane && frames[k].frame.Full?
    decreases |frames|
  {
    if frames != [] {
      var front := frames[..|frames| - 1];
      FullAreListed(front, pane);
      if k :| 0 <= k < |frames| && frames[k].pane == pane && frames[k].frame.Full? {
        if k < |front| { assert front[k] == frames[k]; }
      }
      if k :| 0 <= k < |front| && front[k].pane == pane && front[k].frame.Full? {
        assert frames[k] == front[k];
      }
    }
  }

  lemma PublishInStep(w: Watcher, direct: Model, batch: Batch)
    requires InStep(w, direct) && WatchedStep(w, Publishes(batch)).Some?
    requires ApplyTerminalFrames(direct, EraseFrames(batch.panes)).Some?
    ensures InStep(WatchedStep(w, Publishes(batch)).value, ApplyTerminalFrames(direct, EraseFrames(batch.panes)).value)
  {
    var next := WatchedStep(w, Publishes(batch)).value;
    var after := ApplyTerminalFrames(direct, EraseFrames(batch.panes)).value;
    FramesMatch(direct, EraseFrames(batch.panes));
    ShownPanes(direct.terminals, Wanted(direct, EraseFrames(batch.panes)));
    if direct.watched.Some? {
      forall pane <- direct.watched.value
        ensures pane in after.terminals <==>
                  pane in w.model.terminals || (pane in PendingPanes(next.slot) && PendingPanes(next.slot)[pane].Full?)
      {
        CommitAllFull(PendingPanes(w.slot), batch.panes, pane);
        WantedFull(direct, EraseFrames(batch.panes), pane);
        ErasedFull(batch.panes);
      }
    }
  }

  lemma TakeInStep(w: Watcher, direct: Model, order: seq<PaneFrame>)
    requires InStep(w, direct) && Lists(order, PendingPanes(w.slot)) && WatchedStep(w, Takes(order)).Some?
    ensures InStep(WatchedStep(w, Takes(order)).value, direct)
  {
    var next := WatchedStep(w, Takes(order)).value;
    ShownPanes(w.model.terminals, Wanted(w.model, EraseFrames(order)));
    if direct.watched.Some? {
      forall pane <- direct.watched.value
        ensures pane in direct.terminals <==> pane in next.model.terminals
      {
        WantedFull(w.model, EraseFrames(order), pane);
        ErasedFull(order);
        FullAreListed(order, pane);
      }
    }
  }

  lemma StepInStep(w: Watcher, direct: Model, e: Event)
    requires InStep(w, direct) && WatchedStep(w, e).Some?
    requires e.Publishes? ==> ApplyTerminalFrames(direct, EraseFrames(e.batch.panes)).Some?
    ensures InStep(WatchedStep(w, e).value,
                   if e.Publishes? then ApplyTerminalFrames(direct, EraseFrames(e.batch.panes)).value else direct)
  {
    if e.Publishes? {
      PublishInStep(w, direct, e.batch);
    } else if Lists(e.order, PendingPanes(w.slot)) {
      TakeInStep(w, direct, e.order);
    }
  }

  /** One published batch: the model takes what counts of it as the terminals alone would. */
  lemma DirectStepImage(w: Watcher, direct: Model, batch: Batch)
    requires InStep(w, direct)
    ensures var frames := EraseFrames(batch.panes);
            && Wanted(direct, frames) == EraseFrames(Counted(w.model, PendingPanes(w.slot), batch.panes))
            && (ApplyTerminalFrames(direct, frames).Some? <==> BatchApplies(direct.terminals, Wanted(direct, frames)))
  {
    WantedIsCounted(w, direct, batch.panes);
    CountedIsErased(w.model, PendingPanes(w.slot), batch.panes);
  }

  lemma {:induction false} DirectImage(w: Watcher, direct: Model, events: seq<Event>)
    requires InStep(w, direct) && Matched(w.model) && WatchedRun(w, events).Some?
    ensures DirectRun(direct.terminals, Trim(w, events))
         == match WatchedDirect(direct, events)
            case None => None
            case Some(after) => Some(after.terminals)
    ensures WatchedDirect(direct, events).Some? ==>
              var after := WatchedDirect(direct, events).value;
              Matched(after) && after == direct.(terminals := after.terminals, links := after.links)
    decreases |events|
  {
    if events != [] {
      var e := events[0];
      var next := WatchedStep(w, e).value;
      StepMatches(w, e);
      if !Idle(w, e) {
        assert Trim(w, events)[0] == TrimEvent(w, e) && Trim(w, events)[1..] == Trim(next, events[1..]);
      }
      if e.Takes? {
        StepInStep(w, direct, e);
        DirectImage(next, direct, events[1..]);
      } else {
        DirectStepImage(w, direct, e.batch);
        if ApplyTerminalFrames(direct, EraseFrames(e.batch.panes)).Some? {
          StepInStep(w, direct, e);
          DirectImage(next, ApplyTerminalFrames(direct, EraseFrames(e.batch.panes)).value, events[1..]);
        }
      }
    }
  }

  // ----- Agreement is exact -----

  /** Full views cover only for pending frames that the owner ignores, or that its terminal would have taken. */
  predicate CoversNothingWanted(w: Watcher, e: Event) {
    e.Publishes? ==>
      var kept := Kept(w.model, PendingPanes(w.slot));
      forall pane <- FullPanes(e.batch.panes) :: pane in kept ==>
        Accepts(Lookup(w.model.terminals, pane), kept[pane])
  }

  predicate WatchedGuarded(w: Watcher, events: seq<Event>)
    decreases |events|
  {
    events == [] ||
    (&& CoversNothingWanted(w, events[0])
     && (WatchedStep(w, events[0]).Some? ==> WatchedGuarded(WatchedStep(w, events[0]).value, events[1..])))
  }

  lemma CoversImage(w: Watcher, e: Event)
    requires e.Publishes?
    ensures CoversNothing(Image(w), TrimEvent(w, e)) <==> CoversNothingWanted(w, e)
  {
    var kept := Kept(w.model, PendingPanes(w.slot));
    var counted := Counted(w.model, PendingPanes(w.slot), e.batch.panes);
    assert PendingPanes(Image(w).slot) == kept;
    forall pane <- kept
      ensures EraseFrame(kept[pane]) == kept[pane]
      ensures pane in FullPanes(e.batch.panes) <==>
                exists k :: 0 <= k < |counted| && counted[k].pane == pane && counted[k].frame.Full?
    {
      EraseTwice(PendingPanes(w.slot)[pane]);
      CountedFull(w.model, PendingPanes(w.slot), e.batch.panes, pane);
      FullAreListed(counted, pane);
    }
  }

  lemma {:induction false} GuardImage(w: Watcher, events: seq<Event>, server: nat, session: nat)
    requires Matched(w.model) && Incoming(events, server, session) && WatchedRun(w, events).Some?
    ensures Guarded(Image(w), Trim(w, events)) <==> WatchedGuarded(w, events)
    decreases |events|
  {
    if events != [] {
      var e := events[0];
      var next := WatchedStep(w, e).value;
      IncomingRest(events, server, session);
      StepMatches(w, e);
      GuardImage(next, events[1..], server, session);
      if !Idle(w, e) {
        assert [e][0] == e;
        StepImage(w, e);
        if e.Publishes? {
          CoversImage(w, e);
        }
        assert Trim(w, events)[0] == TrimEvent(w, e) && Trim(w, events)[1..] == Trim(next, events[1..]);
      }
    }
  }

  /** The deltas that direct application would look at go on to a later revision, with their runs in order. */
  predicate CountedInOrder(m: Model, panes: map<PaneId, Frame>, frames: seq<PaneFrame>) {
    forall k :: 0 <= k < |frames| && Counts(m, panes, frames[k]) ==> WellFormedFrame(frames[k].frame)
  }

  predicate WatchedInOrder(w: Watcher, events: seq<Event>)
    decreases |events|
  {
    events == [] ||
    (&& (events[0].Publishes? ==> CountedInOrder(w.model, PendingPanes(w.slot), events[0].batch.panes))
     && (WatchedStep(w, events[0]).Some? ==> WatchedInOrder(WatchedStep(w, events[0]).value, events[1..])))
  }

  lemma {:induction false} CountedOrder(m: Model, panes: map<PaneId, Frame>, frames: seq<PaneFrame>)
    requires DistinctPanes(frames)
    ensures FramesInOrder(Counted(m, panes, frames)) <==> CountedInOrder(m, panes, frames)
    decreases |frames|
  {
    if frames != [] {
      var front, last := frames[..|frames| - 1], frames[|frames| - 1];
      DistinctFront(frames);
      CountedOrder(m, panes, front);
      CountedDistinct(m, panes, frames);
      WellFormedErased(last.frame);
      if Counts(m, panes, last) {
        OrderPush(Counted(m, panes, front), Erased(last));
      }
      assert CountedInOrder(m, panes, frames)
             <==> CountedInOrder(m, panes, front) && (Counts(m, panes, last) ==> WellFormedFrame(last.frame)) by {
        assert forall k :: 0 <= k < |front| ==> front[k] == frames[k];
      }
    }
  }

  lemma OrderPush(front: seq<PaneFrame>, last: PaneFrame)
    requires DistinctPanes(front + [last])
    ensures FramesInOrder(front + [last]) <==> FramesInOrder(front) && WellFormedFrame(last.frame)
  {
    assert (front + [last])[|front|] == last;
    assert forall k :: 0 <= k < |front| ==> (front + [last])[k] == front[k];
  }

  lemma {:induction false} OrderImage(w: Watcher, events: seq<Event>, server: nat, session: nat)
    requires WatchedRun(w, events).Some? && Incoming(events, server, session)
    ensures InOrder(Trim(w, events)) <==> WatchedInOrder(w, events)
    decreases |events|
  {
    if events != [] {
      var e := events[0];
      var next := WatchedStep(w, e).value;
      IncomingRest(events, server, session);
      OrderImage(next, events[1..], server, session);
      if !Idle(w, e) {
        InOrderRest(Trim(w, events));
        assert Trim(w, events)[0] == TrimEvent(w, e) && Trim(w, events)[1..] == Trim(next, events[1..]);
        if e.Publishes? {
          CountedOrder(w.model, PendingPanes(w.slot), e.batch.panes);
        }
      }
    }
  }

  /**
   For every run of a watching Client's merged path that asks for no resync and leaves nothing
   pending, applying every batch at once also succeeds, with the same model, exactly when no full
   view covered for a pending frame that the owner wanted and would have refused, and no delta that
   counts came with its runs out of order or without a later revision.
   */
  lemma WatchedAgreesExactly(w: Watcher, events: seq<Event>, server: nat, session: nat)
    requires w.slot.pending.None? && Matched(w.model) && InGrids(w.model.terminals)
    requires Incoming(events, server, session)
    requires WatchedRun(w, events).Some? && WatchedRun(w, events).value.slot.pending.None?
    ensures WatchedDirect(w.model, events) == Some(WatchedRun(w, events).value.model)
            <==> WatchedGuarded(w, events) && WatchedInOrder(w, events)
  {
    var after := WatchedRun(w, events).value;
    RunImage(w, events, server, session);
    GuardImage(w, events, server, session);
    OrderImage(w, events, server, session);
    DirectImage(w, w.model, events);
    RunMatches(w, events);
    assert Image(w) == Visual(w.slot, w.model.terminals);
    MergedAgreesExactly(Image(w), Trim(w, events), server, session);
    if WatchedDirect(w.model, events).Some? {
      var direct := WatchedDirect(w.model, events).value;
      assert direct.terminals == after.model.terminals <==> direct == after.model;
    }
  }

  lemma {:induction false} RunMatches(w: Watcher, events: seq<Event>)
    requires Matched(w.model) && WatchedRun(w, events).Some?
    ensures var after := WatchedRun(w, events).value.model;
            Matched(after) && after == w.model.(terminals := after.terminals, links := after.links)
    decreases |events|
  {
    if events != [] {
      StepMatches(w, events[0]);
      RunMatches(WatchedStep(w, events[0]).value, events[1..]);
    }
  }

  // ----- Frames that are ignored can still ask for a resync -----

  /** The frames of a batch fit the pending ones that the owner ignores. */
  predicate JoinsIgnored(m: Model, panes: map<PaneId, Frame>, frames: seq<PaneFrame>) {
    forall k :: 0 <= k < |frames| && frames[k].pane in panes ==>
      var pane, previous := frames[k].pane, panes[frames[k].pane];
      !Wants(m, PaneFrame(pane, previous)) ==> FramesMerge(previous, frames[k].frame)
  }

  lemma {:induction false} CommitAllSplits(m: Model, panes: map<PaneId, Frame>, frames: seq<PaneFrame>)
    requires DistinctPanes(frames)
    ensures CommitAll(panes, frames).Some?
            <==> JoinsIgnored(m, panes, frames) && CommitAll(Kept(m, panes), Counted(m, panes, frames)).Some?
    decreases |frames|
  {
    if frames != [] {
      var front, last := frames[..|frames| - 1], frames[|frames| - 1];
      DistinctFront(frames);
      CommitAllSplits(m, panes, front);
      var counted := Counted(m, panes, front);
      assert (counted + [Erased(last)])[..|counted|] == counted;
      if CommitAll(panes, front).Some? {
        CommitAllKept(m, panes, front);
        LastSplits(m, panes, front, last);
      }
    }
  }

  /** The last frame of a batch meets what its Pane had before the batch. */
  lemma LastSplits(m: Model, panes: map<PaneId, Frame>, front: seq<PaneFrame>, last: PaneFrame)
    requires !Names(front, last.pane) && CommitAll(panes, front).Some?
    ensures var before := CommitAll(panes, front).value;
            Commit(before, last).Some?
            <==> (last.pane in panes && !Wants(m, PaneFrame(last.pane, panes[last.pane])) ==>
                    FramesMerge(panes[last.pane], last.frame))
                 && (Counts(m, panes, last) ==> Commit(Kept(m, before), Erased(last)).Some?)
  {
    Untouched(panes, front, last.pane);
    if last.pane in panes {
      MergesErased(panes[last.pane], last.frame);
    }
  }

  /** Whatever the owner ignores of what is published fits what waits in the slot. */
  predicate Joined(w: Watcher, events: seq<Event>)
    decreases |events|
  {
    events == [] ||
    (&& (events[0].Publishes? ==> JoinsIgnored(w.model, PendingPanes(w.slot), events[0].batch.panes))
     && (WatchedStep(w, events[0]).Some? ==> Joined(WatchedStep(w, events[0]).value, events[1..])))
  }

  /** What is pending and wanted is all that separates the owner from direct application. */
  ghost predicate Follows(w: Watcher, direct: Model, server: nat, session: nat) {
    && InStep(w, direct) && Matched(w.model)
    && InGrids(w.model.terminals) && InGrids(direct.terminals)
    && Agrees(Kept(w.model, PendingPanes(w.slot)), w.model.terminals, direct.terminals)
    && PendingFrom(Image(w).slot, server, session)
  }

  /** What counts of a batch that applies directly is taken by the image. */
  lemma CountedFollows(w: Watcher, direct: Model, batch: Batch, server: nat, session: nat)
    requires Follows(w, direct, server, session) && Incoming([Publishes(batch)], server, session)
    requires ApplyTerminalFrames(direct, EraseFrames(batch.panes)).Some?
    ensures var step := MergedStep(Image(w), TrimEvent(w, Publishes(batch)));
            var shown := ApplyTerminalFrames(direct, EraseFrames(batch.panes)).value.terminals;
            && step.Some? && InGrids(step.value.owner) && InGrids(shown)
            && Agrees(PendingPanes(step.value.slot), step.value.owner, shown)
            && PendingFrom(step.value.slot, server, session)
  {
    var counted := batch.(panes := Counted(w.model, PendingPanes(w.slot), batch.panes));
    assert [Publishes(batch)][0].batch == batch;
    CountedDistinct(w.model, PendingPanes(w.slot), batch.panes);
    DirectStepImage(w, direct, batch);
    assert [Publishes(counted)][0].batch == counted;
    PublishFollows(Image(w), direct.terminals, counted, server, session);
  }

  /** The slot takes a batch when it takes what counts, and the rest fits what it meets. */
  lemma PublishSplits(w: Watcher, batch: Batch)
    requires DistinctPanes(batch.panes) && MergedStep(Image(w), TrimEvent(w, Publishes(batch))).Some?
    ensures WatchedStep(w, Publishes(batch)).Some? <==> JoinsIgnored(w.model, PendingPanes(w.slot), batch.panes)
  {
    var panes := PendingPanes(w.slot);
    var counted := Counted(w.model, panes, batch.panes);
    assert PendingPanes(Image(w).slot) == Kept(w.model, panes);
    CheckedBatchCommits(panes, batch.panes);
    CountedDistinct(w.model, panes, batch.panes);
    CheckedBatchCommits(Kept(w.model, panes), counted);
    CommitAllSplits(w.model, panes, batch.panes);
  }

  lemma PublishFollowsWatched(w: Watcher, direct: Model, batch: Batch, server: nat, session: nat)
    requires Follows(w, direct, server, session) && Incoming([Publishes(batch)], server, session)
    requires ApplyTerminalFrames(direct, EraseFrames(batch.panes)).Some?
    ensures WatchedStep(w, Publishes(batch)).Some? <==> JoinsIgnored(w.model, PendingPanes(w.slot), batch.panes)
    ensures WatchedStep(w, Publishes(batch)).Some? ==>
              Follows(WatchedStep(w, Publishes(batch)).value,
                      ApplyTerminalFrames(direct, EraseFrames(batch.panes)).value, server, session)
  {
    assert [Publishes(batch)][0].batch == batch;
    CountedFollows(w, direct, batch, server, session);
    PublishSplits(w, batch);
    if WatchedStep(w, Publishes(batch)).Some? {
      PublishImage(w, batch);
      PublishInStep(w, direct, batch);
      var next := WatchedStep(w, Publishes(batch)).value;
      assert PendingPanes(Image(next).slot) == Kept(next.model, PendingPanes(next.slot));
    }
  }

  lemma TakeFollowsWatched(w: Watcher, direct: Model, order: seq<PaneFrame>, server: nat, session: nat)
    requires Follows(w, direct, server, session) && Lists(order, PendingPanes(w.slot))
    ensures WatchedStep(w, Takes(order)).Some?
    ensures Follows(WatchedStep(w, Takes(order)).value, direct, server, session)
  {
    var wanted := EraseFrames(Wanted(w.model, order));
    assert PendingPanes(Image(w).slot) == Kept(w.model, PendingPanes(w.slot));
    WantedLists(w.model, order, PendingPanes(w.slot));
    TakeCatchesUp(Image(w), direct.terminals, wanted);
    TakeImage(w, order);
    TakeInStep(w, direct, order);
    StepMatches(w, Takes(order));
  }

  /**
   Refinement: when every batch applies directly to a watching Client, its merged path asks for no
   resync exactly when what it ignores fits what waits, and then what is pending and wanted is all
   that separates it from direct application.
   */
  lemma {:induction false} WatchedRefinesDirect(w: Watcher, direct: Model, events: seq<Event>,
                                                server: nat, session: nat)
    requires Follows(w, direct, server, session) && Incoming(events, server, session)
    requires WatchedDirect(direct, events).Some?
    ensures WatchedRun(w, events).Some? <==> Joined(w, events)
    ensures WatchedRun(w, events).Some? ==>
              Follows(WatchedRun(w, events).value, WatchedDirect(direct, events).value, server, session)
    decreases |events|
  {
    if events != [] {
      IncomingRest(events, server, session);
      match events[0]
      case Publishes(batch) =>
        assert [events[0]] == [Publishes(batch)];
        PublishFollowsWatched(w, direct, batch, server, session);
        if WatchedStep(w, events[0]).Some? {
          var after := ApplyTerminalFrames(direct, EraseFrames(batch.panes)).value;
          WatchedRefinesDirect(WatchedStep(w, events[0]).value, after, events[1..], server, session);
        }
      case Takes(order) =>
        if Lists(order, PendingPanes(w.slot)) {
          TakeFollowsWatched(w, direct, order, server, session);
        }
        WatchedRefinesDirect(WatchedStep(w, events[0]).value, direct, events[1..], server, session);
    }
  }

  /** A Client that watches no Pane is asked for a resync by deltas it would only have ignored. */
  lemma IgnoredFramesMayResync() returns (w: Watcher, events: seq<Event>)
    ensures w == Watcher(NewSlot, WatchTerminals(NewModel, {})) && Incoming(events, 1, 1)
    ensures WatchedDirect(w.model, events) == Some(w.model) && WatchedRun(w, events).None?
  {
    var early := PaneFrame(7, Diff(Delta(5, 6, 0, NoTracking, None, None, [])));
    var late := PaneFrame(7, Diff(Delta(8, 9, 0, NoTracking, None, None, [])));
    var first, second := Batch(1, 1, [early]), Batch(1, 1, [late]);
    events := [Publishes(first), Publishes(second)];
    w := Watcher(NewSlot, WatchTerminals(NewModel, {}));
    IgnoresAll(w.model, early);
    IgnoresAll(w.model, late);
    assert events[1..] == [Publishes(second)] && events[1..][1..] == [];
    assert WatchedDirect(w.model, events[1..]) == WatchedDirect(w.model, []);
    var none: map<PaneId, Frame>, held: map<PaneId, Frame> := map[], map[7 := early.frame];
    assert none[7 := early.frame] == held;
    CommitOne(none, early);
    var slot1 := Slot(0, Some(Pending(1, 1, held)), true);
    assert Publish(w.slot, first) == (slot1, Signal(0));
    assert [late][..0] == [] && Precheck(held, [late]).None?;
    assert WatchedStep(w.(slot := slot1), Publishes(second)).None?;
  }

  lemma IgnoresAll(m: Model, next: PaneFrame)
    requires m == WatchTerminals(NewModel, {})
    ensures ApplyTerminalFrames(m, EraseFrames([next])) == Some(m)
  {
    assert EraseFrames([next])[..0] == [];
    assert Wanted(m, EraseFrames([next])) == [];
    assert FramesApply(m, []) && m.links + FullPanes([]) == m.links;
  }
}

/**
 The slot in which frames wait for their owner (crates/condr-client/src/frames.rs). While the owner
 is busy, what arrives is merged into what already waits, a batch at a time and never in part.
 */
module VisualSlot {
  import opened Wrappers
  import opened TerminalViews
  import opened FrameMerge
  import opened FrameLinks

  type PaneId = nat

  /** Without a watched set a Client wants every Pane's frames. */
  predicate Watches(watched: Option<set<PaneId>>, pane: PaneId) {
    watched.Some? ==> pane in watched.value
  }

  datatype PaneFrame = PaneFrame(pane: PaneId, frame: Frame)
  datatype Batch = Batch(server: nat, session: nat, panes: seq<PaneFrame>)
  datatype Pending = Pending(server: nat, session: nat, panes: map<PaneId, Frame>)
  datatype Slot = Slot(generation: nat, pending: Option<Pending>, signaled: bool)

  const NewSlot: Slot := Slot(0, None, false)

  const U64_SIZE: nat := 0x1_0000_0000_0000_0000

  /** `wrapping_add(1)` on 64 bits. */
  function NextGeneration(generation: nat): nat {
    (generation + 1) % U64_SIZE
  }

  // ----- The slot's three operations -----

  function Advance(slot: Slot): Slot {
    Slot(NextGeneration(slot.generation), None, false)
  }

  /** Whether the batch belongs to the connection the pending frames came from. */
  predicate SameSource(slot: Slot, batch: Batch) {
    slot.pending.Some? ==> slot.pending.value.server == batch.server && slot.pending.value.session == batch.session
  }

  function PendingPanes(slot: Slot): map<PaneId, Frame> {
    if slot.pending.Some? then slot.pending.value.panes else map[]
  }

  /**
   The read-only pre-validation of every merge in the batch: each frame is checked against its
   Pane's last one seen, raw. Gives those last frames, or nothing when a check fails.
   */
  function Precheck(panes: map<PaneId, Frame>, frames: seq<PaneFrame>): Option<map<PaneId, Frame>> {
    if frames == [] then Some(panes)
    else
      var next := frames[|frames| - 1];
      match Precheck(panes, frames[..|frames| - 1])
      case None => None
      case Some(seen) =>
        if next.pane in seen && !FramesMerge(seen[next.pane], next.frame) then None
        else Some(seen[next.pane := next.frame])
  }

  function Commit(panes: map<PaneId, Frame>, next: PaneFrame): Option<map<PaneId, Frame>> {
    if next.pane !in panes then Some(panes[next.pane := next.frame])
    else if FramesMerge(panes[next.pane], next.frame) then
      Some(panes[next.pane := MergeFrames(panes[next.pane], next.frame)])
    else None
  }

  /** The frames with a whole batch merged in, or nothing when a merge fails. */
  function CommitAll(panes: map<PaneId, Frame>, frames: seq<PaneFrame>): Option<map<PaneId, Frame>> {
    if frames == [] then Some(panes)
    else
      var before := CommitAll(panes, frames[..|frames| - 1]);
      if before.None? then None else Commit(before.value, frames[|frames| - 1])
  }

  datatype Published = Rejected | Merged | Signal(generation: nat)

  function Publish(slot: Slot, batch: Batch): (Slot, Published) {
    if !SameSource(slot, batch) || Precheck(PendingPanes(slot), batch.panes).None? then (slot, Rejected)
    else
      var committed := CommitAll(PendingPanes(slot), batch.panes);
      if committed.None? then (Advance(slot), Rejected)
      else
        var pending := if slot.pending.Some? then slot.pending.value else Pending(batch.server, batch.session, map[]);
        var filled := slot.(pending := Some(pending.(panes := committed.value)), signaled := true);
        (filled, if slot.signaled then Merged else Signal(slot.generation))
  }

  function Take(slot: Slot, generation: nat): (Slot, Option<Pending>) {
    if slot.generation != generation then (slot, None)
    else (slot.(pending := None, signaled := false), slot.pending)
  }

  // ----- The slot as the source runs it -----

  predicate DistinctPanes(frames: seq<PaneFrame>) {
    forall i, j :: 0 <= i < j < |frames| ==> frames[i].pane != frames[j].pane
  }

  /** `frames` lists exactly the Panes and frames of `panes`, each once, in some order. */
  predicate Lists(frames: seq<PaneFrame>, panes: map<PaneId, Frame>) {
    && DistinctPanes(frames)
    && (forall k :: 0 <= k < |frames| ==> frames[k].pane in panes && panes[frames[k].pane] == frames[k].frame)
    && (forall pane :: pane in panes ==> exists k :: 0 <= k < |frames| && frames[k].pane == pane)
  }

  class TerminalVisualSlot {
    var generation: nat
    var pending: Option<Pending>
    var signaled: bool

    ghost function Current(): Slot
      reads this
    {
      Slot(generation, pending, signaled)
    }

    constructor ()
      ensures Current() == NewSlot
    {
      generation, pending, signaled := 0, None, false;
    }

    method AdvanceGeneration()
      modifies this
      ensures Current() == Advance(old(Current()))
    {
      generation, pending, signaled := (generation + 1) % U64_SIZE, None, false;
    }

    /** Checks the whole batch first, and only then merges it. */
    method PublishBatch(batch: Batch) returns (result: Published)
      modifies this
      ensures (Current(), result) == Publish(old(Current()), batch)
    {
      if pending.Some? && (pending.value.server != batch.server || pending.value.session != batch.session) {
        return Rejected;
      }
      var held := if pending.Some? then pending.value.panes else map[];
      var ok := CheckBatch(held, batch.panes);
      if !ok {
        return Rejected;
      }
      var committed := CommitBatch(held, batch.panes);
      if committed.None? {
        AdvanceGeneration();
        return Rejected;
      }
      pending := Some(if pending.Some? then pending.value.(panes := committed.value)
                      else Pending(batch.server, batch.session, committed.value));
      if signaled {
        return Merged;
      }
      signaled := true;
      return Signal(generation);
    }

    /** What the owner gets for `generation`: everything pending, in some order, or nothing. */
    method TakeBatch(generation: nat) returns (batch: Option<Batch>)
      modifies this
      ensures Current() == Take(old(Current()), generation).0
      ensures match Take(old(Current()), generation).1
              case None => batch.None?
              case Some(p) =>
                && batch.Some? && batch.value.server == p.server && batch.value.session == p.session
                && Lists(batch.value.panes, p.panes)
    {
      if this.generation != generation {
        return None;
      }
      signaled := false;
      if pending.None? {
        return None;
      }
      var taken := pending.value;
      pending := None;
      var frames := ListPanes(taken.panes);
      return Some(Batch(taken.server, taken.session, frames));
    }
  }

  method ListPanes(panes: map<PaneId, Frame>) returns (frames: seq<PaneFrame>)
    ensures Lists(frames, panes)
  {
    frames := [];
    var left := panes.Keys;
    while left != {}
      invariant left <= panes.Keys
      invariant DistinctPanes(frames)
      invariant forall k :: 0 <= k < |frames| ==>
                  frames[k].pane in panes && frames[k].pane !in left && panes[frames[k].pane] == frames[k].frame
      invariant forall pane :: pane in panes && pane !in left ==>
        exists k :: 0 <= k < |frames| && frames[k].pane == pane
      decreases |left|
    {
      var pane :| pane in left;
      left := left - {pane};
      ghost var before := frames;
      frames := frames + [PaneFrame(pane, panes[pane])];
      assert frames[|before|].pane == pane;
      forall other | other in panes && other !in left ensures exists k :: 0 <= k < |frames| && frames[k].pane == other {
        if other != pane {
          var k :| 0 <= k < |before| && before[k].pane == other;
          assert frames[k].pane == other;
        }
      }
    }
  }

  /** Checks every merge of a batch before any frame moves. */
  method CheckBatch(held: map<PaneId, Frame>, frames: seq<PaneFrame>) returns (ok: bool)
    ensures ok <==> Precheck(held, frames).Some?
  {
    var seen := held;
    for k := 0 to |frames|
      invariant Precheck(held, frames[..k]) == Some(seen)
    {
      var next := frames[k];
      assert frames[..k + 1][..k] == frames[..k];
      if next.pane in seen && !FramesMerge(seen[next.pane], next.frame) {
        FailsFrom(held, frames, k + 1);
        return false;
      }
      seen := seen[next.pane := next.frame];
    }
    assert frames[..|frames|] == frames;
    return true;
  }

  /** Merges a whole batch into the held frames; nothing when a merge fails. */
  method CommitBatch(held: map<PaneId, Frame>, frames: seq<PaneFrame>) returns (committed: Option<map<PaneId, Frame>>)
    ensures committed == CommitAll(held, frames)
  {
    var panes := held;
    for k := 0 to |frames|
      invariant CommitAll(held, frames[..k]) == Some(panes)
    {
      var next := frames[k];
      assert frames[..k + 1][..k] == frames[..k];
      var frame := next.frame;
      if next.pane in panes {
        var merged := MergeTerminalFrames(panes[next.pane], next.frame);
        if merged.None? {
          FailsFrom(held, frames, k + 1);
          return None;
        }
        frame := merged.value;
      }
      panes := panes[next.pane := frame];
    }
    assert frames[..|frames|] == frames;
    return Some(panes);
  }

  lemma {:induction false} FailsFrom(panes: map<PaneId, Frame>, frames: seq<PaneFrame>, k: nat)
    requires k <= |frames|
    ensures CommitAll(panes, frames[..k]).None? ==> CommitAll(panes, frames).None?
    ensures Precheck(panes, frames[..k]).None? ==> Precheck(panes, frames).None?
    decreases |frames| - k
  {
    if k < |frames| {
      assert frames[..k + 1][..k] == frames[..k];
      FailsFrom(panes, frames, k + 1);
    } else {
      assert frames[..k] == frames;
    }
  }

  // ----- All Panes or none -----

  predicate Names(frames: seq<PaneFrame>, pane: PaneId) {
    exists k :: 0 <= k < |frames| && frames[k].pane == pane
  }

  /** A Pane the batch does not name keeps what it had. */
  lemma {:induction false} Untouched(panes: map<PaneId, Frame>, frames: seq<PaneFrame>, pane: PaneId)
    requires !Names(frames, pane)
    ensures var committed := CommitAll(panes, frames);
            committed.Some? ==>
              (pane in committed.value <==> pane in panes) && (pane in panes ==> committed.value[pane] == panes[pane])
    ensures var seen := Precheck(panes, frames);
            seen.Some? ==>
              (pane in seen.value <==> pane in panes) && (pane in panes ==> seen.value[pane] == panes[pane])
    decreases |frames|
  {
    if frames != [] {
      var front := frames[..|frames| - 1];
      forall k | 0 <= k < |front| ensures front[k].pane != pane {
        assert frames[k].pane != pane;
      }
      Untouched(panes, front, pane);
      assert frames[|frames| - 1].pane != pane;
    }
  }

  lemma DistinctFront(frames: seq<PaneFrame>)
    requires frames != [] && DistinctPanes(frames)
    ensures var front := frames[..|frames| - 1];
            DistinctPanes(front) && !Names(front, frames[|frames| - 1].pane)
  {
  }

  /** With each Pane named once, a batch that passes the check is merged whole. */
  lemma {:induction false} CheckedBatchCommits(panes: map<PaneId, Frame>, frames: seq<PaneFrame>)
    requires DistinctPanes(frames)
    ensures Precheck(panes, frames).Some? <==> CommitAll(panes, frames).Some?
    decreases |frames|
  {
    if frames != [] {
      var front, next := frames[..|frames| - 1], frames[|frames| - 1];
      DistinctFront(frames);
      CheckedBatchCommits(panes, front);
      Untouched(panes, front, next.pane);
    }
  }

  /** Whatever the batch, a rejected one leaves the slot as it was or empty, never half filled. */
  lemma NeverHalfCommitted(slot: Slot, batch: Batch)
    ensures var (slot', result) := Publish(slot, batch);
            && (result.Rejected? ==> slot' == slot || slot' == Advance(slot))
            && (result.Rejected? && DistinctPanes(batch.panes) ==> slot' == slot)
            && (!result.Rejected? ==>
                  slot'.pending.Some? && CommitAll(PendingPanes(slot), batch.panes) == Some(slot'.pending.value.panes))
  {
    if DistinctPanes(batch.panes) {
      CheckedBatchCommits(PendingPanes(slot), batch.panes);
    }
  }

  /** A batch naming one Pane twice may pass the check and still fail to merge: then the slot is emptied. */
  lemma RepeatedPaneMayInvalidate()
    ensures exists slot: Slot, batch: Batch ::
              && !DistinctPanes(batch.panes)
              && Precheck(PendingPanes(slot), batch.panes).Some?
              && Publish(slot, batch) == (Advance(slot), Rejected)
  {
    var cell := Cell(Look("x", 0, 0, 0, 0), None);
    var view := View(0, Size(1, 1, 0, 0), 0, NoTracking, [cell], None, None);
    var d1 := Delta(0, 1, 0, NoTracking, None, None, []);
    var d2 := Delta(1, 2, 0, NoTracking, None, None, [CellRun(5, [cell])]);
    var held: map<PaneId, Frame> := map[7 := Full(view)];
    var slot := Slot(0, Some(Pending(1, 1, held)), true);
    var first, second := PaneFrame(7, Diff(d1)), PaneFrame(7, Diff(d2));
    var frames := [first, second];
    assert frames[..2 - 1] == [first] && [first][..0] == [];
    assert !DistinctPanes(frames) by {
      assert frames[0].pane == frames[1].pane;
    }
    assert Precheck(held, [first]) == Some(held[7 := Diff(d1)]);
    assert RunsNumbered(d2.runs) && DeltasMerge(d1, d2);
    assert Precheck(held, frames).Some?;
    var merged := held[7 := Full(ApplyDelta(view, d1))];
    assert CommitAll(held, []) == Some(held);
    assert CommitAll(held, [first]) == Some(merged);
    assert !Validates(merged[7].view, d2);
    assert CommitAll(held, frames).None?;
    assert Publish(slot, Batch(1, 1, frames)) == (Advance(slot), Rejected);
  }
}

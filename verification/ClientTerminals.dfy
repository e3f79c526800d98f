/**
 The terminals a Client holds, and one batch of frames applied to them: every Pane or none
 (crates/condr-client/src/frames.rs). Views are compared with hyperlinks erased.
 */
module ClientTerminals {
  import opened Wrappers
  import opened TerminalViews
  import opened FrameLinks
  import opened VisualSlot

  type Terminals = map<PaneId, View>

  function Lookup(terminals: Terminals, pane: PaneId): Option<View> {
    if pane in terminals then Some(terminals[pane]) else None
  }

  /** The whole validation that runs before any terminal changes. */
  predicate BatchApplies(terminals: Terminals, frames: seq<PaneFrame>) {
    && DistinctPanes(frames)
    && (forall k :: 0 <= k < |frames| ==> Accepts(Lookup(terminals, frames[k].pane), frames[k].frame))
  }

  function ShowOne(terminals: Terminals, next: PaneFrame): Terminals
    requires Accepts(Lookup(terminals, next.pane), next.frame)
  {
    terminals[next.pane := Show(Lookup(terminals, next.pane), next.frame)]
  }

  /** The terminals after the frames, in order; a frame its terminal cannot take changes nothing. */
  function ShowAll(terminals: Terminals, frames: seq<PaneFrame>): Terminals {
    if frames == [] then terminals
    else
      var before := ShowAll(terminals, frames[..|frames| - 1]);
      var next := frames[|frames| - 1];
      if Accepts(Lookup(before, next.pane), next.frame) then ShowOne(before, next) else before
  }

  function ApplyBatch(terminals: Terminals, frames: seq<PaneFrame>): Option<Terminals> {
    if BatchApplies(terminals, frames) then Some(ShowAll(terminals, frames)) else None
  }

  function EraseFrames(frames: seq<PaneFrame>): seq<PaneFrame> {
    seq(|frames|, k requires 0 <= k < |frames| => PaneFrame(frames[k].pane, EraseFrame(frames[k].frame)))
  }

  lemma {:induction false} ShowAllElsewhere(terminals: Terminals, frames: seq<PaneFrame>, pane: PaneId)
    requires !Names(frames, pane)
    ensures Lookup(ShowAll(terminals, frames), pane) == Lookup(terminals, pane)
    decreases |frames|
  {
    if frames != [] {
      var front := frames[..|frames| - 1];
      NamesFront(frames, pane);
      ShowAllElsewhere(terminals, front, pane);
      assert frames[|frames| - 1].pane != pane;
    }
  }

  lemma NamesFront(frames: seq<PaneFrame>, pane: PaneId)
    requires frames != []
    ensures Names(frames, pane) <==> Names(frames[..|frames| - 1], pane) || frames[|frames| - 1].pane == pane
  {
    var front := frames[..|frames| - 1];
    if Names(front, pane) {
      var k :| 0 <= k < |front| && front[k].pane == pane;
      assert frames[k].pane == pane;
    }
    if Names(frames, pane) && frames[|frames| - 1].pane != pane {
      var k :| 0 <= k < |frames| && frames[k].pane == pane;
      assert front[k].pane == pane;
    }
  }

  /** Each Pane of a batch that applies shows its own frame over what it showed before. */
  lemma {:induction false} ShowAllAt(terminals: Terminals, frames: seq<PaneFrame>, k: nat)
    requires BatchApplies(terminals, frames) && k < |frames|
    ensures var t := Lookup(terminals, frames[k].pane);
            && Accepts(t, frames[k].frame)
            && Lookup(ShowAll(terminals, frames), frames[k].pane) == Some(Show(t, frames[k].frame))
    decreases |frames|
  {
    var front, next := frames[..|frames| - 1], frames[|frames| - 1];
    DistinctFront(frames);
    assert BatchApplies(terminals, front);
    if k == |frames| - 1 {
      ShowAllElsewhere(terminals, front, next.pane);
    } else {
      ShowAllAt(terminals, front, k);
      assert front[k] == frames[k] && next.pane != frames[k].pane;
    }
  }

  /** The order in which a batch lists its Panes does not matter. */
  lemma OrderIsFree(terminals: Terminals, a: seq<PaneFrame>, b: seq<PaneFrame>, panes: map<PaneId, Frame>)
    requires Lists(a, panes) && Lists(b, panes)
    ensures ApplyBatch(terminals, a) == ApplyBatch(terminals, b)
  {
    AppliesAsListed(terminals, a, panes);
    AppliesAsListed(terminals, b, panes);
    if BatchApplies(terminals, a) {
      ShowsAsListed(terminals, a, panes);
      ShowsAsListed(terminals, b, panes);
      assert forall pane :: Lookup(ShowAll(terminals, a), pane) == Lookup(ShowAll(terminals, b), pane);
      SameLookups(ShowAll(terminals, a), ShowAll(terminals, b));
    }
  }

  lemma SameLookups(a: Terminals, b: Terminals)
    requires forall pane :: Lookup(a, pane) == Lookup(b, pane)
    ensures a == b
  {
    forall pane ensures pane in a <==> pane in b {
      assert Lookup(a, pane) == Lookup(b, pane);
    }
    forall pane | pane in a ensures a[pane] == b[pane] {
      assert Lookup(a, pane) == Lookup(b, pane);
    }
  }

  /** Whether listed frames apply depends on the frames alone. */
  lemma AppliesAsListed(terminals: Terminals, frames: seq<PaneFrame>, panes: map<PaneId, Frame>)
    requires Lists(frames, panes)
    ensures BatchApplies(terminals, frames) <==>
              forall pane :: pane in panes ==> Accepts(Lookup(terminals, pane), panes[pane])
  {
    if BatchApplies(terminals, frames) {
      forall pane | pane in panes ensures Accepts(Lookup(terminals, pane), panes[pane]) {
        var k :| 0 <= k < |frames| && frames[k].pane == pane;
        assert Accepts(Lookup(terminals, frames[k].pane), frames[k].frame);
      }
    }
  }

  lemma ShowsAsListed(terminals: Terminals, frames: seq<PaneFrame>, panes: map<PaneId, Frame>)
    requires Lists(frames, panes) && BatchApplies(terminals, frames)
    ensures forall pane :: pane in panes ==> Accepts(Lookup(terminals, pane), panes[pane])
    ensures forall pane ::
              Lookup(ShowAll(terminals, frames), pane)
              == if pane in panes then Some(Show(Lookup(terminals, pane), panes[pane])) else Lookup(terminals, pane)
  {
    AppliesAsListed(terminals, frames, panes);
    forall pane
      ensures Lookup(ShowAll(terminals, frames), pane)
              == if pane in panes then Some(Show(Lookup(terminals, pane), panes[pane])) else Lookup(terminals, pane)
    {
      if pane in panes {
        var k :| 0 <= k < |frames| && frames[k].pane == pane;
        ShowAllAt(terminals, frames, k);
      } else {
        assert !Names(frames, pane);
        ShowAllElsewhere(terminals, frames, pane);
      }
    }
  }
}

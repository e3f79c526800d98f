/**
 Merging whole frames (crates/condr-client/src/frames.rs). A merge may drop hyperlinks to stay
 within the wire's limits; everything else about a frame is what merging without limits gives.
 */
module FrameLinks {
  import opened Wrappers
  import opened TerminalViews
  import opened FrameMerge

  // ----- The hyperlink limits of one wire frame -----

  /** The URIs one frame already carries. */
  datatype LinkTable = LinkTable(known: set<seq<byte>>, bytes: nat)

  const NoLinks: LinkTable := LinkTable({}, 0)

  predicate Admits(table: LinkTable, uri: seq<byte>) {
    && |uri| <= MAX_TERMINAL_HYPERLINK_URI_BYTES
    && (uri in table.known
        || (table.bytes + |uri| <= MAX_TERMINAL_HYPERLINK_BYTES && |table.known| < MAX_TERMINAL_HYPERLINKS))
  }

  function Intern(table: LinkTable, uri: seq<byte>): LinkTable {
    if uri in table.known then table else LinkTable(table.known + {uri}, table.bytes + |uri|)
  }

  function NormalizeCell(table: LinkTable, cell: Cell): (Cell, LinkTable) {
    match cell.hyperlink
    case None => (cell, table)
    case Some(uri) => if Admits(table, uri) then (cell, Intern(table, uri)) else (cell.(hyperlink := None), table)
  }

  function NormalizeCells(table: LinkTable, cells: seq<Cell>): (seq<Cell>, LinkTable)
    decreases |cells|
  {
    if cells == [] then ([], table)
    else
      var (first, table1) := NormalizeCell(table, cells[0]);
      var (rest, table2) := NormalizeCells(table1, cells[1..]);
      ([first] + rest, table2)
  }

  function NormalizeRuns(table: LinkTable, runs: seq<CellRun>): seq<CellRun>
    decreases |runs|
  {
    if runs == [] then []
    else
      var (cells, table1) := NormalizeCells(table, runs[0].cells);
      [CellRun(runs[0].start, cells)] + NormalizeRuns(table1, runs[1..])
  }

  /** `normalize_hyperlinks_for_wire`: the links past the limits are dropped. */
  function NormalizeFrame(f: Frame): Frame {
    match f
    case Full(v) => Full(v.(cells := NormalizeCells(NoLinks, v.cells).0))
    case Diff(d) => Diff(d.(runs := NormalizeRuns(NoLinks, d.runs)))
  }

  // ----- Merging -----

  predicate AddsLinks(next: Frame) {
    next.Diff? &&
    exists k :: 0 <= k < |next.delta.runs| &&
      exists i :: 0 <= i < |next.delta.runs[k].cells| && next.delta.runs[k].cells[i].hyperlink.Some?
  }

  /** The merge before any link is dropped. */
  function PlainMerge(previous: Frame, next: Frame): Frame
    requires FramesMerge(previous, next)
  {
    match (previous, next)
    case (_, Full(_)) => next
    case (Full(view), Diff(delta)) => Full(ApplyDelta(view, delta))
    case (Diff(a), Diff(b)) => Diff(MergeDeltas(a, b))
  }

  function MergeFrames(previous: Frame, next: Frame): Frame
    requires FramesMerge(previous, next)
  {
    var merged := PlainMerge(previous, next);
    if AddsLinks(next) then NormalizeFrame(merged) else merged
  }

  /** `merge_terminal_frames`: succeeds exactly when `check_terminal_frame_merge` says so. */
  method MergeTerminalFrames(previous: Frame, next: Frame) returns (result: Option<Frame>)
    ensures result.Some? <==> FramesMerge(previous, next)
    ensures result.Some? ==> result.value == MergeFrames(previous, next)
  {
    var merged: Frame;
    match (previous, next) {
      case (_, Full(_)) =>
        merged := next;
      case (Full(view), Diff(delta)) =>
        if !Validates(view, delta) {
          return None;
        }
        merged := Full(ApplyDelta(view, delta));
      case (Diff(a), Diff(b)) =>
        var deltas := MergeTerminalDeltas(a, b);
        if deltas.None? {
          return None;
        }
        merged := Diff(deltas.value);
    }
    return Some(if AddsLinks(next) then NormalizeFrame(merged) else merged);
  }

  // ----- Erasing hyperlinks -----

  function EraseCell(c: Cell): Cell {
    c.(hyperlink := None)
  }

  function EraseCells(cells: seq<Cell>): seq<Cell> {
    seq(|cells|, i requires 0 <= i < |cells| => EraseCell(cells[i]))
  }

  function EraseRun(run: CellRun): CellRun {
    CellRun(run.start, EraseCells(run.cells))
  }

  function EraseRuns(runs: seq<CellRun>): seq<CellRun> {
    seq(|runs|, i requires 0 <= i < |runs| => EraseRun(runs[i]))
  }

  function EraseView(v: View): View {
    v.(cells := EraseCells(v.cells))
  }

  function EraseDelta(d: Delta): Delta {
    d.(runs := EraseRuns(d.runs))
  }

  function EraseFrame(f: Frame): Frame {
    if f.Full? then Full(EraseView(f.view)) else Diff(EraseDelta(f.delta))
  }

  function EraseMap(cells: map<nat, Cell>): map<nat, Cell> {
    map i | i in cells :: EraseCell(cells[i])
  }

  /** The limits change nothing but links. */
  lemma {:induction false} NormalizeCellsErased(table: LinkTable, cells: seq<Cell>)
    ensures |NormalizeCells(table, cells).0| == |cells|
    ensures EraseCells(NormalizeCells(table, cells).0) == EraseCells(cells)
    decreases |cells|
  {
    if cells != [] {
      var (first, table1) := NormalizeCell(table, cells[0]);
      NormalizeCellsErased(table1, cells[1..]);
      var done := NormalizeCells(table, cells).0;
      forall i | 0 <= i < |cells| ensures EraseCell(done[i]) == EraseCell(cells[i]) {
        if i > 0 {
          assert done[i] == NormalizeCells(table1, cells[1..]).0[i - 1];
          assert EraseCells(NormalizeCells(table1, cells[1..]).0)[i - 1] == EraseCells(cells[1..])[i - 1];
        }
      }
    }
  }

  lemma {:induction false} NormalizeRunsErased(table: LinkTable, runs: seq<CellRun>)
    ensures |NormalizeRuns(table, runs)| == |runs|
    ensures EraseRuns(NormalizeRuns(table, runs)) == EraseRuns(runs)
    decreases |runs|
  {
    if runs != [] {
      var (cells, table1) := NormalizeCells(table, runs[0].cells);
      NormalizeCellsErased(table, runs[0].cells);
      NormalizeRunsErased(table1, runs[1..]);
      var done := NormalizeRuns(table, runs);
      forall i | 0 <= i < |runs| ensures EraseRun(done[i]) == EraseRun(runs[i]) {
        if i > 0 {
          assert done[i] == NormalizeRuns(table1, runs[1..])[i - 1];
          assert EraseRuns(NormalizeRuns(table1, runs[1..]))[i - 1] == EraseRuns(runs[1..])[i - 1];
        }
      }
    }
  }

  lemma NormalizeErased(f: Frame)
    ensures EraseFrame(NormalizeFrame(f)) == EraseFrame(f)
  {
    match f
    case Full(v) => NormalizeCellsErased(NoLinks, v.cells);
    case Diff(d) => NormalizeRunsErased(NoLinks, d.runs);
  }

  // ----- Erasing commutes with applying -----

  lemma EraseRunsRest(runs: seq<CellRun>)
    requires runs != []
    ensures EraseRuns(runs)[1..] == EraseRuns(runs[1..]) && EraseRuns(runs)[0] == EraseRun(runs[0])
  {
  }

  lemma {:induction false} FitErased(runs: seq<CellRun>, previousEnd: nat, length: nat)
    ensures RunsFit(EraseRuns(runs), previousEnd, length) <==> RunsFit(runs, previousEnd, length)
    decreases |runs|
  {
    if runs != [] {
      EraseRunsRest(runs);
      FitErased(runs[1..], runs[0].End(), length);
      assert (EraseRun(runs[0]).cells == []) == (runs[0].cells == []);
    }
  }

  lemma RunCellsErased(run: CellRun)
    ensures RunCells(EraseRun(run)) == EraseMap(RunCells(run))
  {
    RunCellsAre(run);
    RunCellsAre(EraseRun(run));
  }

  lemma {:induction false} CellsOfErased(runs: seq<CellRun>)
    ensures CellsOf(EraseRuns(runs)) == EraseMap(CellsOf(runs))
  {
    if runs != [] {
      EraseRunsRest(runs);
      CellsOfErased(runs[1..]);
      RunCellsErased(runs[0]);
    }
  }

  lemma ValidatesErased(v: View, f: Frame)
    ensures ValidatesFrame(EraseView(v), EraseFrame(f)) <==> ValidatesFrame(v, f)
    ensures ValidatesFrame(v, f) ==> EraseView(ApplyFrame(v, f)) == ApplyFrame(EraseView(v), EraseFrame(f))
  {
    if f.Diff? {
      FitErased(f.delta.runs, 0, |v.cells|);
      if Validates(v, f.delta) {
        ApplyRunsPatches(v.cells, f.delta.runs, 0);
        ApplyRunsPatches(EraseCells(v.cells), EraseRuns(f.delta.runs), 0);
        CellsOfErased(f.delta.runs);
        assert EraseCells(Patched(v.cells, CellsOf(f.delta.runs)))
            == Patched(EraseCells(v.cells), EraseMap(CellsOf(f.delta.runs)));
      }
    }
  }

  // ----- Erasing commutes with merging -----

  lemma NumberedErased(runs: seq<CellRun>)
    ensures RunsNumbered(EraseRuns(runs)) <==> RunsNumbered(runs)
  {
    var erased := EraseRuns(runs);
    forall k | 0 <= k < |runs| ensures RunNumbered(erased[k]) <==> RunNumbered(runs[k]) {
      assert |erased[k].cells| == |runs[k].cells|;
    }
  }

  lemma MergesErased(previous: Frame, next: Frame)
    ensures FramesMerge(EraseFrame(previous), EraseFrame(next)) <==> FramesMerge(previous, next)
  {
    if previous.Full? && next.Diff? {
      ValidatesErased(previous.view, next);
    } else if previous.Diff? && next.Diff? {
      NumberedErased(previous.delta.runs);
      NumberedErased(next.delta.runs);
    }
  }

  lemma PushCellErased(runs: seq<CellRun>, index: nat, cell: Cell)
    ensures EraseRuns(PushCell(runs, index, cell)) == PushCell(EraseRuns(runs), index, EraseCell(cell))
  {
    if runs != [] && runs[|runs| - 1].End() == index {
      var last := runs[|runs| - 1];
      assert EraseCells(last.cells + [cell]) == EraseCells(last.cells) + [EraseCell(cell)];
    } else {
      assert EraseCells([cell]) == [EraseCell(cell)];
    }
  }

  lemma {:induction false} CoalesceErased(cells: map<nat, Cell>, bound: nat)
    ensures EraseRuns(Coalesce(cells, bound)) == Coalesce(EraseMap(cells), bound)
  {
    if bound > 0 {
      CoalesceErased(cells, bound - 1);
      if bound - 1 in cells {
        PushCellErased(Coalesce(cells, bound - 1), bound - 1, cells[bound - 1]);
      }
    }
  }

  /** Merging and then forgetting links is forgetting them first, limits or not. */
  lemma MergeErased(previous: Frame, next: Frame)
    requires FramesMerge(previous, next)
    ensures FramesMerge(EraseFrame(previous), EraseFrame(next))
    ensures EraseFrame(MergeFrames(previous, next)) == PlainMerge(EraseFrame(previous), EraseFrame(next))
  {
    MergesErased(previous, next);
    NormalizeErased(PlainMerge(previous, next));
    if previous.Full? && next.Diff? {
      ValidatesErased(previous.view, next);
    } else if previous.Diff? && next.Diff? {
      var runs := previous.delta.runs + next.delta.runs;
      CoalesceErased(CellsOf(runs), INDEX_BOUND);
      CellsOfErased(runs);
      assert EraseRuns(runs) == EraseRuns(previous.delta.runs) + EraseRuns(next.delta.runs);
    }
  }

  // ----- What a merged frame does to a terminal -----

  /** A terminal before its first full view is `None`. */
  predicate Accepts(t: Option<View>, f: Frame) {
    f.Full? || (t.Some? && Validates(t.value, f.delta))
  }

  function Show(t: Option<View>, f: Frame): View
    requires Accepts(t, f)
  {
    if f.Full? then f.view else ApplyDelta(t.value, f.delta)
  }

  predicate InGrid(t: Option<View>) {
    t.Some? ==> |t.value.cells| <= U32_MAX
  }

  /** Frames a terminal accepts in turn merge, and the merge shows it the same view. */
  lemma AcceptedMerge(t: Option<View>, previous: Frame, next: Frame)
    requires InGrid(t) && Accepts(t, previous) && Accepts(Some(Show(t, previous)), next)
    ensures FramesMerge(previous, next)
    ensures Accepts(t, PlainMerge(previous, next))
    ensures Show(t, PlainMerge(previous, next)) == Show(Some(Show(t, previous)), next)
  {
    if previous.Diff? && next.Diff? {
      SequenceMerges(t.value, previous.delta, next.delta);
      MergeIsSequence(t.value, previous.delta, next.delta);
    }
  }

  /** The runs of both deltas are in order and the revisions move on; a full view has no runs. */
  predicate InTurn(previous: Frame, next: Frame) {
    previous.Diff? && next.Diff? ==> WellFormed(previous.delta) && WellFormed(next.delta)
  }

  /**
   When frames merge and the terminal accepts the merge, it would accept both in turn, except in two
   cases: a full view also covers for a delta that did not apply, and merging two deltas puts their
   runs in order.
   */
  lemma MergeAcceptsExactly(t: Option<View>, previous: Frame, next: Frame)
    requires InGrid(t) && FramesMerge(previous, next)
    ensures Accepts(t, PlainMerge(previous, next)) ==>
              (Accepts(t, previous) && Accepts(Some(Show(t, previous)), next)
               <==> (next.Full? ==> Accepts(t, previous)) && InTurn(previous, next))
  {
    if previous.Diff? && next.Diff? && t.Some? {
      MergeIsSequence(t.value, previous.delta, next.delta);
    }
  }
}

/**
 A terminal's view and the frames that carry it (crates/condr-core/src/terminal/view.rs): a
 full view, or a delta of cell runs over the revision before it.
 */
module TerminalViews {
  import opened Wrappers

  const U32_MAX: nat := 0xFFFF_FFFF
  const MAX_TERMINAL_CELLS: nat := 65_536

  datatype Look = Look(text: string, foreground: nat, background: nat, underline: nat, flags: nat)

  /** A cell: how it looks, and the URI it links to. */
  datatype Cell = Cell(look: Look, hyperlink: Option<seq<byte>>)

  datatype Size = Size(rows: nat, columns: nat, cellWidth: nat, cellHeight: nat)
  datatype Cursor = Cursor(row: nat, column: nat, shape: nat, blinking: bool)
  datatype MouseTracking = NoTracking | Click | Drag | Motion
  datatype Position = Position(row: nat, column: nat, right: bool)
  datatype Selection = Selection(start: Position, end: Position, displayOffset: nat)

  datatype View = View(
    revision: nat,
    size: Size,
    displayOffset: nat,
    mouseTracking: MouseTracking,
    cells: seq<Cell>,
    cursor: Option<Cursor>,
    selection: Option<Selection>)

  datatype CellRun = CellRun(start: nat, cells: seq<Cell>)
  {
    function End(): nat { start + |cells| }
  }

  datatype Delta = Delta(
    baseRevision: nat,
    revision: nat,
    displayOffset: nat,
    mouseTracking: MouseTracking,
    cursor: Option<Cursor>,
    selection: Option<Selection>,
    runs: seq<CellRun>)

  datatype Frame = Full(view: View) | Diff(delta: Delta)
  {
    function Revision(): nat {
      if Full? then view.revision else delta.revision
    }
  }

  // ----- Applying a frame -----

  /** The runs are non-empty, in order, disjoint and inside a grid of `length` cells. */
  predicate RunsFit(runs: seq<CellRun>, previousEnd: nat, length: nat)
    decreases |runs|
  {
    runs == [] ||
    (&& runs[0].cells != []
     && previousEnd <= runs[0].start
     && runs[0].End() <= length
     && RunsFit(runs[1..], runs[0].End(), length))
  }

  /** `validate_delta`: the delta goes on from this revision, and its runs fit the grid in order. */
  predicate Validates(v: View, d: Delta) {
    && d.baseRevision < d.revision
    && v.revision == d.baseRevision
    && RunsFit(d.runs, 0, |v.cells|)
  }

  predicate ValidatesFrame(v: View, f: Frame) {
    f.Full? || Validates(v, f.delta)
  }

  /** `cells` with one run written over them. */
  function Overwrite(cells: seq<Cell>, run: CellRun): seq<Cell>
    requires run.End() <= |cells|
    ensures |Overwrite(cells, run)| == |cells|
  {
    cells[..run.start] + run.cells + cells[run.End()..]
  }

  function ApplyRuns(cells: seq<Cell>, runs: seq<CellRun>, previousEnd: nat): (r: seq<Cell>)
    requires RunsFit(runs, previousEnd, |cells|)
    ensures |r| == |cells|
    decreases |runs|
  {
    if runs == [] then cells
    else ApplyRuns(Overwrite(cells, runs[0]), runs[1..], runs[0].End())
  }

  function ApplyDelta(v: View, d: Delta): View
    requires Validates(v, d)
  {
    View(d.revision, v.size, d.displayOffset, d.mouseTracking, ApplyRuns(v.cells, d.runs, 0), d.cursor, d.selection)
  }

  function ApplyFrame(v: View, f: Frame): View
    requires ValidatesFrame(v, f)
  {
    if f.Full? then f.view else ApplyDelta(v, f.delta)
  }

  // ----- What runs mean: a map from cell index to cell, where the later run wins -----

  /** The cells one run writes. */
  function RunCells(run: CellRun): map<nat, Cell>
    decreases |run.cells|
  {
    if run.cells == [] then map[]
    else
      var last := |run.cells| - 1;
      RunCells(CellRun(run.start, run.cells[..last]))[run.start + last := run.cells[last]]
  }

  lemma {:induction false} RunCellsAre(run: CellRun)
    ensures forall i :: i in RunCells(run) <==> run.start <= i < run.End()
    ensures forall i :: i in RunCells(run) ==>
              run.start <= i < run.End() && RunCells(run)[i] == run.cells[i - run.start]
    decreases |run.cells|
  {
    if run.cells != [] {
      RunCellsAre(CellRun(run.start, run.cells[..|run.cells| - 1]));
    }
  }

  function CellsOf(runs: seq<CellRun>): map<nat, Cell> {
    if runs == [] then map[] else RunCells(runs[0]) + CellsOf(runs[1..])
  }

  lemma MapPlusAssociates(a: map<nat, Cell>, b: map<nat, Cell>, c: map<nat, Cell>)
    ensures a + (b + c) == (a + b) + c
  {
  }

  lemma {:induction false} CellsOfConcat(a: seq<CellRun>, b: seq<CellRun>)
    ensures CellsOf(a + b) == CellsOf(a) + CellsOf(b)
  {
    if a == [] {
      assert a + b == b;
    } else {
      CellsOfConcat(a[1..], b);
      assert (a + b)[1..] == a[1..] + b;
      MapPlusAssociates(RunCells(a[0]), CellsOf(a[1..]), CellsOf(b));
    }
  }

  /** Runs that fit touch only cells from `previousEnd` on, inside the grid. */
  lemma {:induction false} FitBounds(runs: seq<CellRun>, previousEnd: nat, length: nat)
    requires RunsFit(runs, previousEnd, length)
    ensures forall i :: i in CellsOf(runs) ==> previousEnd <= i < length
    decreases |runs|
  {
    if runs != [] {
      FitBounds(runs[1..], runs[0].End(), length);
      RunCellsAre(runs[0]);
    }
  }

  /** `cells` with the map's cells in place of its own. */
  function Patched(cells: seq<Cell>, patch: map<nat, Cell>): seq<Cell> {
    seq(|cells|, i requires 0 <= i < |cells| => if i in patch then patch[i] else cells[i])
  }

  /** Applying runs writes exactly the cells they name. */
  lemma {:induction false} ApplyRunsPatches(cells: seq<Cell>, runs: seq<CellRun>, previousEnd: nat)
    requires RunsFit(runs, previousEnd, |cells|)
    ensures ApplyRuns(cells, runs, previousEnd) == Patched(cells, CellsOf(runs))
    decreases |runs|
  {
    if runs != [] {
      var first, rest := runs[0], runs[1..];
      var next := Overwrite(cells, first);
      ApplyRunsPatches(next, rest, first.End());
      FitBounds(rest, first.End(), |cells|);
      RunCellsAre(first);
      forall i | 0 <= i < |cells|
        ensures Patched(next, CellsOf(rest))[i] == Patched(cells, CellsOf(runs))[i]
      {
        if i in CellsOf(rest) {
          assert CellsOf(runs)[i] == CellsOf(rest)[i];
        } else if i in RunCells(first) {
          assert CellsOf(runs)[i] == RunCells(first)[i] == next[i];
        }
      }
    }
  }

  // ----- Making a frame -----

  predicate SameBesidesCells(a: View, b: View) {
    && a.displayOffset == b.displayOffset && a.mouseTracking == b.mouseTracking
    && a.cursor == b.cursor && a.selection == b.selection
  }

  lemma {:induction false} FitPush(runs: seq<CellRun>, previousEnd: nat, length: nat, run: CellRun)
    requires RunsFit(runs, previousEnd, length)
    requires run.cells != [] && run.End() <= length && previousEnd <= run.start
    requires runs != [] ==> runs[|runs| - 1].End() <= run.start
    ensures RunsFit(runs + [run], previousEnd, length)
    decreases |runs|
  {
    if runs == [] {
      assert (runs + [run])[1..] == [];
    } else {
      assert (runs + [run])[1..] == runs[1..] + [run];
      assert runs[1..] != [] ==> runs[1..][|runs[1..]| - 1] == runs[|runs| - 1];
      assert RunsFit(runs[1..], runs[0].End(), length);
      if runs[1..] != [] {
        LastEndGrows(runs[1..], runs[0].End(), length);
      }
      FitPush(runs[1..], runs[0].End(), length, run);
    }
  }

  lemma {:induction false} LastEndGrows(runs: seq<CellRun>, previousEnd: nat, length: nat)
    requires RunsFit(runs, previousEnd, length) && runs != []
    ensures previousEnd <= runs[|runs| - 1].End()
    decreases |runs|
  {
    if |runs| > 1 {
      LastEndGrows(runs[1..], runs[0].End(), length);
    }
  }

  /** `runs` name exactly the cells before `index` in which the two grids differ. */
  predicate DiffersUpTo(before: seq<Cell>, after: seq<Cell>, runs: seq<CellRun>, index: nat)
    requires |before| == |after|
  {
    && RunsFit(runs, 0, |after|)
    && (runs != [] ==> runs[|runs| - 1].End() <= index)
    && (forall i :: i in CellsOf(runs) ==>
          i < index && i < |after| && CellsOf(runs)[i] == after[i] && before[i] != after[i])
    && (forall i :: 0 <= i < index && i < |after| && i !in CellsOf(runs) ==> before[i] == after[i])
  }

  lemma PushedCells(runs: seq<CellRun>, run: CellRun)
    ensures CellsOf(runs + [run]) == CellsOf(runs) + RunCells(run)
  {
    CellsOfConcat(runs, [run]);
    assert [run][1..] == [];
    assert RunCells(run) + map[] == RunCells(run);
  }

  lemma DiffGrows(before: seq<Cell>, after: seq<Cell>, runs: seq<CellRun>, start: nat, index: nat)
    requires |before| == |after| && start < index <= |after| && DiffersUpTo(before, after, runs, start)
    requires forall i :: start <= i < index ==> before[i] != after[i]
    ensures DiffersUpTo(before, after, runs + [CellRun(start, after[start..index])], index)
  {
    var run := CellRun(start, after[start..index]);
    FitPush(runs, 0, |after|, run);
    PushedCells(runs, run);
    DiffCellsGrow(before, after, CellsOf(runs), run, index);
  }

  lemma DiffCellsGrow(before: seq<Cell>, after: seq<Cell>, cells: map<nat, Cell>, run: CellRun, index: nat)
    requires |before| == |after| && run.start < index <= |after| && run.cells == after[run.start..index]
    requires forall i :: run.start <= i < index ==> before[i] != after[i]
    requires forall i :: i in cells ==> i < run.start && cells[i] == after[i] && before[i] != after[i]
    requires forall i :: 0 <= i < run.start && i !in cells ==> before[i] == after[i]
    ensures forall i :: i in cells + RunCells(run) ==>
              i < index && (cells + RunCells(run))[i] == after[i] && before[i] != after[i]
    ensures forall i :: 0 <= i < index && i !in cells + RunCells(run) ==> before[i] == after[i]
  {
    RunCellsAre(run);
    forall i | i in cells + RunCells(run)
      ensures i < index && (cells + RunCells(run))[i] == after[i] && before[i] != after[i]
    {
      if i in RunCells(run) { assert run.cells[i - run.start] == after[i]; }
    }
  }

  lemma RunsNameAChange(before: seq<Cell>, after: seq<Cell>, runs: seq<CellRun>)
    requires |before| == |after| && DiffersUpTo(before, after, runs, |after|)
    ensures runs == [] <==> before == after
  {
    if runs != [] {
      RunCellsAre(runs[0]);
      assert runs[0].start in CellsOf(runs);
    }
  }

  /**
   `frame_from`: the frame that takes a client from `previous` to `current`. Whatever form it
   takes, applying it gives `current`; nothing is sent only when nothing but the revision changed.
   */
  method FrameFrom(previous: Option<View>, current: View) returns (frame: Option<Frame>)
    ensures previous.None? ==> frame == Some(Full(current))
    ensures frame.Some? && previous.Some? ==>
              ValidatesFrame(previous.value, frame.value) && ApplyFrame(previous.value, frame.value) == current
    ensures frame.None? <==>
              && previous.Some? && previous.value.size == current.size && previous.value.revision < current.revision
              && previous.value.cells == current.cells && SameBesidesCells(previous.value, current)
    ensures frame.Some? && frame.value.Full? ==> frame.value.view == current
    ensures frame.Some? && frame.value.Diff? && previous.Some? ==>
              forall i: nat :: i in CellsOf(frame.value.delta.runs) <==>
                i < |current.cells| && i < |previous.value.cells| && previous.value.cells[i] != current.cells[i]
  {
    if previous.None? {
      return Some(Full(current));
    }
    var held := previous.value;
    if held.size != current.size || |held.cells| != |current.cells| || current.revision <= held.revision {
      return Some(Full(current));
    }
    var runs: seq<CellRun> := [];
    var changedCells := 0;
    var index := 0;
    while index < |current.cells|
      invariant 0 <= index <= |current.cells|
      invariant DiffersUpTo(held.cells, current.cells, runs, index)
      invariant 0 <= changedCells && (changedCells == 0 <==> runs == [])
      decreases |current.cells| - index
    {
      if held.cells[index] == current.cells[index] {
        index := index + 1;
        continue;
      }
      var start := index;
      while index < |current.cells| && held.cells[index] != current.cells[index]
        invariant start <= index <= |current.cells|
        invariant index == start ==> index < |current.cells| && held.cells[index] != current.cells[index]
        invariant forall i :: start <= i < index ==> held.cells[i] != current.cells[i]
        decreases |current.cells| - index
      {
        index := index + 1;
      }
      changedCells := changedCells + (index - start);
      DiffGrows(held.cells, current.cells, runs, start, index);
      runs := runs + [CellRun(start, current.cells[start..index])];
    }
    RunsNameAChange(held.cells, current.cells, runs);
    if changedCells == 0 && SameBesidesCells(held, current) {
      return None;
    }
    if changedCells > |current.cells| / 2 {
      return Some(Full(current));
    }
    ApplyRunsPatches(held.cells, runs, 0);
    assert Patched(held.cells, CellsOf(runs)) == current.cells;
    return Some(Diff(Delta(held.revision, current.revision, current.displayOffset, current.mouseTracking,
                           current.cursor, current.selection, runs)));
  }
}

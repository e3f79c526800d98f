/**
 Merging terminal frames (crates/condr-client/src/frames.rs): what the one visual slot keeps of
 a burst. The merge of two deltas is proved to mean the two applied in turn.
 */
module FrameMerge {
  import opened Wrappers
  import opened TerminalViews

  const MAX_TERMINAL_HYPERLINK_URI_BYTES: nat := 8 * 1024
  const MAX_TERMINAL_HYPERLINK_BYTES: nat := 4 * 1024 * 1024
  const MAX_TERMINAL_HYPERLINKS: nat := 0x1_0000

  // ----- Whether two frames merge -----

  /** A run whose every index and end fit the wire's 32-bit integers. */
  predicate RunNumbered(run: CellRun) {
    run.cells != [] && |run.cells| <= U32_MAX && run.start + |run.cells| <= U32_MAX
  }

  predicate RunsNumbered(runs: seq<CellRun>) {
    forall k :: 0 <= k < |runs| ==> RunNumbered(runs[k])
  }

  predicate DeltasMerge(previous: Delta, next: Delta) {
    && previous.revision == next.baseRevision
    && RunsNumbered(previous.runs) && RunsNumbered(next.runs)
  }

  /** `check_terminal_frame_merge`: whether the merge would succeed. */
  predicate FramesMerge(previous: Frame, next: Frame) {
    match (previous, next)
    case (_, Full(_)) => true
    case (Full(view), Diff(delta)) => Validates(view, delta)
    case (Diff(a), Diff(b)) => DeltasMerge(a, b)
  }

  // ----- The merged runs -----

  /** The runs holding the cells numbered below `bound`: adjacent cells share a run. */
  function Coalesce(cells: map<nat, Cell>, bound: nat): seq<CellRun> {
    if bound == 0 then []
    else if bound - 1 in cells then PushCell(Coalesce(cells, bound - 1), bound - 1, cells[bound - 1])
    else Coalesce(cells, bound - 1)
  }

  /** Adds one cell to the last run if it ends there, else starts a new run with it. */
  function PushCell(runs: seq<CellRun>, index: nat, cell: Cell): seq<CellRun> {
    if runs != [] && runs[|runs| - 1].End() == index then
      runs[..|runs| - 1] + [CellRun(runs[|runs| - 1].start, runs[|runs| - 1].cells + [cell])]
    else runs + [CellRun(index, [cell])]
  }

  /** Runs as the merge leaves them: non-empty, in order, disjoint, and never adjacent. */
  predicate Normal(runs: seq<CellRun>) {
    && (forall k :: 0 <= k < |runs| ==> runs[k].cells != [])
    && (forall k :: 0 < k < |runs| ==> runs[k - 1].End() < runs[k].start)
  }

  lemma RunCellsPush(start: nat, cells: seq<Cell>, cell: Cell)
    ensures RunCells(CellRun(start, cells + [cell])) == RunCells(CellRun(start, cells))[start + |cells| := cell]
  {
    assert (cells + [cell])[..|cells|] == cells;
  }

  /** Growing the last run by one cell. */
  lemma GrowLastMeans(body: seq<CellRun>, last: CellRun, cell: Cell)
    ensures CellsOf(body + [CellRun(last.start, last.cells + [cell])]) == CellsOf(body + [last])[last.End() := cell]
  {
    var grown := CellRun(last.start, last.cells + [cell]);
    RunCellsPush(last.start, last.cells, cell);
    CellsOfConcat(body, [last]);
    CellsOfConcat(body, [grown]);
    CellsOfOne(last);
    CellsOfOne(grown);
  }

  lemma NewRunMeans(runs: seq<CellRun>, index: nat, cell: Cell)
    ensures CellsOf(runs + [CellRun(index, [cell])]) == CellsOf(runs)[index := cell]
  {
    CellsOfConcat(runs, [CellRun(index, [cell])]);
    CellsOfOne(CellRun(index, [cell]));
    RunCellsPush(index, [], cell);
    assert [] + [cell] == [cell];
    assert RunCells(CellRun(index, [])) == map[];
  }

  /** Adding a cell past the end adds it to the runs' meaning and keeps them normal. */
  lemma PushCellMeans(runs: seq<CellRun>, index: nat, cell: Cell)
    requires Normal(runs) && (runs != [] ==> runs[|runs| - 1].End() <= index)
    ensures var r := PushCell(runs, index, cell);
            && Normal(r) && r != [] && r[|r| - 1].End() == index + 1
            && CellsOf(r) == CellsOf(runs)[index := cell]
  {
    if runs != [] && runs[|runs| - 1].End() == index {
      GrowLastMeans(runs[..|runs| - 1], runs[|runs| - 1], cell);
      assert runs == runs[..|runs| - 1] + [runs[|runs| - 1]];
    } else {
      NewRunMeans(runs, index, cell);
    }
  }

  lemma CellsOfOne(run: CellRun)
    ensures CellsOf([run]) == RunCells(run)
  {
    assert [run][1..] == [];
    assert RunCells(run) + map[] == RunCells(run);
  }

  predicate Below(cells: map<nat, Cell>, bound: nat) {
    forall i :: i in cells ==> i < bound
  }

  function Prefix(cells: map<nat, Cell>, bound: nat): map<nat, Cell> {
    map i | i in cells && i < bound :: cells[i]
  }

  /** The runs mean the cells they were made of. */
  lemma PrefixGrows(cells: map<nat, Cell>, bound: nat)
    requires bound > 0
    ensures Prefix(cells, bound) ==
            if bound - 1 in cells then Prefix(cells, bound - 1)[bound - 1 := cells[bound - 1]]
            else Prefix(cells, bound - 1)
  {
  }

  lemma {:induction false} CoalesceMeans(cells: map<nat, Cell>, bound: nat)
    ensures var runs := Coalesce(cells, bound);
            && Normal(runs) && CellsOf(runs) == Prefix(cells, bound)
            && (runs != [] ==> runs[|runs| - 1].End() <= bound)
  {
    if bound == 0 {
      assert Prefix(cells, 0) == map[];
    } else {
      CoalesceMeans(cells, bound - 1);
      PrefixGrows(cells, bound);
      if bound - 1 in cells {
        PushCellMeans(Coalesce(cells, bound - 1), bound - 1, cells[bound - 1]);
      }
    }
  }

  /** A gap without cells adds nothing. */
  lemma {:induction false} CoalesceGap(cells: map<nat, Cell>, low: nat, high: nat)
    requires low <= high && forall i :: low <= i < high ==> i !in cells
    ensures Coalesce(cells, high) == Coalesce(cells, low)
    decreases high
  {
    if low < high {
      CoalesceGap(cells, low, high - 1);
    }
  }

  /** Normal runs are determined by their cells: the merge has one result. */
  lemma {:induction false} NormalIsUnique(a: seq<CellRun>, b: seq<CellRun>)
    requires Normal(a) && Normal(b) && CellsOf(a) == CellsOf(b)
    ensures a == b
    decreases |a| + |b|
  {
    if a == [] || b == [] {
      if a != [] { FirstCell(a); }
      if b != [] { FirstCell(b); }
    } else {
      FirstRunsAgree(a, b);
      FirstRunReads(a);
      FirstRunReads(b);
      NormalRest(a);
      NormalRest(b);
      forall i ensures i in CellsOf(a[1..]) <==> i in CellsOf(b[1..])
      {
        assert i in CellsOf(a) <==> i in CellsOf(b);
      }
      forall i | i in CellsOf(a[1..]) ensures CellsOf(a[1..])[i] == CellsOf(b[1..])[i] {
        assert CellsOf(a)[i] == CellsOf(b)[i];
      }
      NormalIsUnique(a[1..], b[1..]);
      assert a == [a[0]] + a[1..] && b == [b[0]] + b[1..];
    }
  }

  lemma FirstRunsSpan(a: seq<CellRun>, b: seq<CellRun>)
    requires Normal(a) && Normal(b) && CellsOf(a) == CellsOf(b) && a != [] && b != []
    ensures a[0].start == b[0].start && a[0].End() == b[0].End()
  {
    FirstRunReads(a);
    FirstRunReads(b);
    FirstCell(a);
    FirstCell(b);
    assert a[0].End() !in CellsOf(b) && b[0].End() !in CellsOf(a);
  }

  lemma FirstRunsAgree(a: seq<CellRun>, b: seq<CellRun>)
    requires Normal(a) && Normal(b) && CellsOf(a) == CellsOf(b) && a != [] && b != []
    ensures a[0] == b[0]
  {
    FirstRunsSpan(a, b);
    forall k | 0 <= k < |a[0].cells| ensures a[0].cells[k] == b[0].cells[k] {
      FirstRunCell(a, k);
      FirstRunCell(b, k);
    }
  }

  lemma FirstRunCell(runs: seq<CellRun>, k: nat)
    requires Normal(runs) && runs != [] && k < |runs[0].cells|
    ensures runs[0].start + k in CellsOf(runs) && CellsOf(runs)[runs[0].start + k] == runs[0].cells[k]
  {
    FirstRunReads(runs);
  }

  lemma FirstCell(runs: seq<CellRun>)
    requires Normal(runs) && runs != []
    ensures runs[0].start in CellsOf(runs)
  {
    RunCellsAre(runs[0]);
  }

  /** What the cells of normal runs say about the first run. */
  lemma FirstRunReads(runs: seq<CellRun>)
    requires Normal(runs) && runs != []
    ensures forall i :: i in CellsOf(runs) ==> runs[0].start <= i
    ensures forall i :: runs[0].start <= i < runs[0].End() ==>
              i in CellsOf(runs) && CellsOf(runs)[i] == runs[0].cells[i - runs[0].start]
    ensures runs[0].End() !in CellsOf(runs)
    ensures forall i :: i in CellsOf(runs[1..]) ==> i > runs[0].End()
    ensures forall i :: i in CellsOf(runs) && i > runs[0].End() ==>
              i in CellsOf(runs[1..]) && CellsOf(runs)[i] == CellsOf(runs[1..])[i]
    ensures forall i :: i in CellsOf(runs[1..]) ==> i in CellsOf(runs) && CellsOf(runs)[i] == CellsOf(runs[1..])[i]
  {
    RunCellsAre(runs[0]);
    NormalRest(runs);
  }

  lemma {:induction false} NormalRest(runs: seq<CellRun>)
    requires Normal(runs) && runs != []
    ensures Normal(runs[1..])
    ensures forall i :: i in CellsOf(runs[1..]) ==> i > runs[0].End()
    decreases |runs|
  {
    var rest := runs[1..];
    forall k | 0 < k < |rest| ensures rest[k - 1].End() < rest[k].start {
      assert rest[k - 1] == runs[k] && rest[k] == runs[k + 1];
    }
    forall k | 0 <= k < |rest| ensures rest[k].cells != [] {
      assert rest[k] == runs[k + 1];
    }
    if rest != [] {
      NormalRest(rest);
      RunCellsAre(rest[0]);
    }
  }

  /** Normal runs below `length` fit a grid of `length` cells, and only those do. */
  lemma {:induction false} NormalFits(runs: seq<CellRun>, previousEnd: nat, length: nat)
    requires Normal(runs) && (runs != [] ==> previousEnd <= runs[0].start)
    ensures RunsFit(runs, previousEnd, length) <==> Below(CellsOf(runs), length)
    decreases |runs|
  {
    if runs != [] {
      NormalRest(runs);
      FirstRunReads(runs);
      NormalFits(runs[1..], runs[0].End(), length);
      if Below(CellsOf(runs), length) {
        assert runs[0].End() - 1 in CellsOf(runs);
      }
      if RunsFit(runs, previousEnd, length) {
        FitBounds(runs, previousEnd, length);
      }
    }
  }

  // ----- The merge -----

  /** One past the highest index a delta may name. */
  const INDEX_BOUND: nat := U32_MAX

  function MergedCells(previous: Delta, next: Delta): map<nat, Cell> {
    CellsOf(previous.runs + next.runs)
  }

  function MergeDeltas(previous: Delta, next: Delta): Delta {
    Delta(previous.baseRevision, next.revision, next.displayOffset, next.mouseTracking, next.cursor, next.selection,
          Coalesce(MergedCells(previous, next), INDEX_BOUND))
  }

  lemma {:induction false} NumberedBelow(runs: seq<CellRun>)
    requires RunsNumbered(runs)
    ensures Below(CellsOf(runs), INDEX_BOUND)
  {
    if runs != [] {
      assert RunNumbered(runs[0]);
      assert forall k :: 0 <= k < |runs[1..]| ==> runs[1..][k] == runs[k + 1];
      NumberedBelow(runs[1..]);
      RunCellsAre(runs[0]);
    }
  }

  /** What the merged runs are: the cells of both deltas, the later winning, in normal form. */
  lemma MergedRuns(previous: Delta, next: Delta)
    requires DeltasMerge(previous, next)
    ensures var runs := MergeDeltas(previous, next).runs;
            && Normal(runs)
            && CellsOf(runs) == CellsOf(previous.runs) + CellsOf(next.runs)
  {
    NumberedBelow(previous.runs);
    NumberedBelow(next.runs);
    CellsOfConcat(previous.runs, next.runs);
    CoalesceMeans(MergedCells(previous, next), INDEX_BOUND);
    assert Prefix(MergedCells(previous, next), INDEX_BOUND) == MergedCells(previous, next);
  }

  /** A delta as a Server makes it: a later revision, and runs in order without overlap. */
  predicate WellFormed(d: Delta) {
    d.baseRevision < d.revision && RunsFit(d.runs, 0, U32_MAX)
  }

  predicate WellFormedFrame(f: Frame) {
    if f.Full? then |f.view.cells| <= MAX_TERMINAL_CELLS else WellFormed(f.delta)
  }

  lemma {:induction false} FitNumbered(runs: seq<CellRun>, previousEnd: nat, length: nat)
    requires RunsFit(runs, previousEnd, length) && length <= U32_MAX
    ensures RunsNumbered(runs)
    decreases |runs|
  {
    if runs != [] {
      FitNumbered(runs[1..], runs[0].End(), length);
      forall k | 0 <= k < |runs| ensures RunNumbered(runs[k]) {
        assert k > 0 ==> runs[k] == runs[1..][k - 1];
      }
    }
  }

  /** Runs in order fit a smaller grid exactly when their cells do. */
  lemma {:induction false} FitSmaller(runs: seq<CellRun>, previousEnd: nat, large: nat, small: nat)
    requires RunsFit(runs, previousEnd, large) && small <= large
    ensures RunsFit(runs, previousEnd, small) <==> Below(CellsOf(runs), small)
    decreases |runs|
  {
    if runs != [] {
      FitSmaller(runs[1..], runs[0].End(), large, small);
      RunCellsAre(runs[0]);
      FitBounds(runs[1..], runs[0].End(), large);
      if Below(CellsOf(runs), small) {
        var top := runs[0].End() - 1;
        assert top in RunCells(runs[0]);
        assert top in CellsOf(runs);
        forall i | i in CellsOf(runs[1..]) ensures i < small {
          assert i in CellsOf(runs);
        }
      }
    }
  }

  lemma {:induction false} FitLarger(runs: seq<CellRun>, previousEnd: nat, small: nat, large: nat)
    requires RunsFit(runs, previousEnd, small) && small <= large
    ensures RunsFit(runs, previousEnd, large)
    decreases |runs|
  {
    if runs != [] {
      FitLarger(runs[1..], runs[0].End(), small, large);
    }
  }

  /**
   The merge is a homomorphism: on any view, deltas that apply in turn merge into one that gives
   the same view; and one that applies stands for two that do exactly when both were well formed.
   The guard is the order of the runs and revisions, which the merge itself does not check.
   */
  lemma MergeIsSequence(v: View, previous: Delta, next: Delta)
    requires |v.cells| <= U32_MAX && DeltasMerge(previous, next)
    ensures var merged := MergeDeltas(previous, next);
            && (Validates(v, previous) && Validates(ApplyDelta(v, previous), next) ==>
                  Validates(v, merged) && ApplyDelta(v, merged) == ApplyDelta(ApplyDelta(v, previous), next))
            && (Validates(v, merged) ==>
                  (Validates(v, previous) && Validates(ApplyDelta(v, previous), next)
                   <==> WellFormed(previous) && WellFormed(next)))
  {
    if Validates(v, previous) && Validates(ApplyDelta(v, previous), next) {
      SequenceMerges(v, previous, next);
    }
    if WellFormed(previous) && WellFormed(next) {
      WellFormedMergeIsSequence(v, previous, next);
    }
  }

  lemma WellFormedMergeIsSequence(v: View, previous: Delta, next: Delta)
    requires |v.cells| <= U32_MAX && DeltasMerge(previous, next) && WellFormed(previous) && WellFormed(next)
    ensures var merged := MergeDeltas(previous, next);
            && (Validates(v, merged) <==> Validates(v, previous) && Validates(ApplyDelta(v, previous), next))
            && (Validates(v, merged) ==> ApplyDelta(v, merged) == ApplyDelta(ApplyDelta(v, previous), next))
  {
    var merged := MergeDeltas(previous, next);
    var n := |v.cells|;
    MergedRuns(previous, next);
    NormalFits(merged.runs, 0, n);
    FitSmaller(previous.runs, 0, U32_MAX, n);
    FitSmaller(next.runs, 0, U32_MAX, n);
    assert Below(CellsOf(merged.runs), n) <==> Below(CellsOf(previous.runs), n) && Below(CellsOf(next.runs), n) by {
      forall i | i in CellsOf(previous.runs) || i in CellsOf(next.runs) ensures i in CellsOf(merged.runs) {}
    }
    if Validates(v, merged) {
      var w := ApplyDelta(v, previous);
      ApplyRunsPatches(v.cells, previous.runs, 0);
      ApplyRunsPatches(w.cells, next.runs, 0);
      ApplyRunsPatches(v.cells, merged.runs, 0);
      PatchedTwice(v.cells, CellsOf(previous.runs), CellsOf(next.runs));
    }
  }

  /** The merge of mergeable deltas is again one the wire can number and, from well-formed ones, well formed. */
  lemma MergedStaysMergeable(previous: Delta, next: Delta)
    requires DeltasMerge(previous, next)
    ensures RunsNumbered(MergeDeltas(previous, next).runs)
    ensures WellFormed(previous) && WellFormed(next) ==> WellFormed(MergeDeltas(previous, next))
  {
    var runs := MergeDeltas(previous, next).runs;
    MergedRuns(previous, next);
    NumberedBelow(previous.runs);
    NumberedBelow(next.runs);
    NormalFits(runs, 0, INDEX_BOUND);
    FitNumbered(runs, 0, INDEX_BOUND);
  }

  lemma PatchedTwice(cells: seq<Cell>, a: map<nat, Cell>, b: map<nat, Cell>)
    ensures Patched(Patched(cells, a), b) == Patched(cells, a + b)
  {
  }

  /** Deltas that apply in turn always merge: the check refuses nothing a view would take. */
  lemma SequenceMerges(v: View, previous: Delta, next: Delta)
    requires |v.cells| <= U32_MAX
    requires Validates(v, previous) && Validates(ApplyDelta(v, previous), next)
    ensures DeltasMerge(previous, next) && WellFormed(previous) && WellFormed(next)
  {
    FitNumbered(previous.runs, 0, |v.cells|);
    FitNumbered(next.runs, 0, |v.cells|);
    FitLarger(previous.runs, 0, |v.cells|, U32_MAX);
    FitLarger(next.runs, 0, |v.cells|, U32_MAX);
  }

  const Blank: Cell := Cell(Look("x", 0, 0, 0, 0), None)

  const TwoCells: View := View(0, Size(1, 2, 0, 0), 0, NoTracking, [Blank, Blank], None, None)

  const Still: Delta := Delta(0, 1, 0, NoTracking, None, None, [])

  /** Both runs fit the grid, but the second comes before the first. */
  const Shuffled: Delta := Delta(1, 2, 0, NoTracking, None, None, [CellRun(1, [Blank]), CellRun(0, [Blank])])

  /** Without in-order runs the merge is more lenient than applying in turn: it sorts what a view refuses. */
  lemma MergeRepairsDisorder()
    ensures DeltasMerge(Still, Shuffled)
    ensures Validates(TwoCells, MergeDeltas(Still, Shuffled))
    ensures Validates(TwoCells, Still) && !Validates(ApplyDelta(TwoCells, Still), Shuffled)
  {
    var cell, v, previous, next := Blank, TwoCells, Still, Shuffled;
    assert RunsNumbered(next.runs);
    assert DeltasMerge(previous, next);
    MergedRuns(previous, next);
    var merged := MergeDeltas(previous, next);
    NumberedBelow(next.runs);
    assert Below(CellsOf(merged.runs), 2) by {
      RunCellsAre(next.runs[0]);
      RunCellsAre(next.runs[1]);
      assert next.runs[1..] == [CellRun(0, [cell])];
      assert next.runs[1..][1..] == [];
    }
    NormalFits(merged.runs, 0, 2);
    assert Validates(v, merged) && Validates(v, previous);
    assert next.runs[1..][0] == next.runs[1];
    assert next.runs[0].End() == 2 && !RunsFit(next.runs[1..], 2, 2);
    assert !Validates(ApplyDelta(v, previous), next);
  }

  // ----- The merge as the source computes it -----

  /** `check_terminal_delta_merge`: looks at every run of both deltas. */
  method CheckDeltaMerge(previous: Delta, next: Delta) returns (ok: bool)
    ensures ok <==> DeltasMerge(previous, next)
  {
    if previous.revision != next.baseRevision {
      return false;
    }
    var runs := previous.runs + next.runs;
    for k := 0 to |runs|
      invariant forall j :: 0 <= j < k ==> RunNumbered(runs[j])
    {
      if |runs[k].cells| > U32_MAX || runs[k].cells == [] || runs[k].start + |runs[k].cells| > U32_MAX {
        assert k < |previous.runs| ==> runs[k] == previous.runs[k];
        assert k >= |previous.runs| ==> runs[k] == next.runs[k - |previous.runs|];
        return false;
      }
    }
    forall j | 0 <= j < |next.runs| ensures RunNumbered(next.runs[j]) {
      assert runs[|previous.runs| + j] == next.runs[j];
    }
    forall j | 0 <= j < |previous.runs| ensures RunNumbered(previous.runs[j]) {
      assert runs[j] == previous.runs[j];
    }
    return true;
  }

  /** Inserts one run's cells over what the map holds. */
  method InsertRun(before: map<nat, Cell>, run: CellRun) returns (cells: map<nat, Cell>)
    ensures cells == before + RunCells(run)
  {
    cells := before;
    for offset := 0 to |run.cells|
      invariant cells == before + RunCells(CellRun(run.start, run.cells[..offset]))
    {
      InsertOne(before, run, offset);
      cells := cells[run.start + offset := run.cells[offset]];
    }
    assert run.cells[..|run.cells|] == run.cells;
  }

  lemma InsertOne(before: map<nat, Cell>, run: CellRun, offset: nat)
    requires offset < |run.cells|
    ensures before + RunCells(CellRun(run.start, run.cells[..offset + 1]))
         == (before + RunCells(CellRun(run.start, run.cells[..offset])))[run.start + offset := run.cells[offset]]
  {
    RunCellsPush(run.start, run.cells[..offset], run.cells[offset]);
    assert run.cells[..offset + 1] == run.cells[..offset] + [run.cells[offset]];
  }

  /** Every cell of every run, in order, into one sorted map. */
  method CollectCells(runs: seq<CellRun>) returns (cells: map<nat, Cell>)
    ensures cells == CellsOf(runs)
  {
    cells := map[];
    for k := 0 to |runs|
      invariant cells == CellsOf(runs[..k])
    {
      cells := InsertRun(cells, runs[k]);
      CellsOfConcat(runs[..k], [runs[k]]);
      CellsOfOne(runs[k]);
      assert runs[..k + 1] == runs[..k] + [runs[k]];
    }
    assert runs[..|runs|] == runs;
  }

  lemma {:induction false} LeastExists(keys: set<nat>) returns (least: nat)
    requires keys != {}
    ensures least in keys && forall other :: other in keys ==> least <= other
  {
    least :| least in keys;
    var rest := set k | k in keys && k < least;
    if rest != {} {
      assert rest <= keys && least !in rest;
      var smaller := LeastExists(rest);
      forall other | other in keys ensures smaller <= other {
        assert other < least ==> other in rest;
      }
      least := smaller;
    } else {
      forall other | other in keys ensures least <= other {
        assert other < least ==> other in rest;
      }
    }
  }

  /** The map's first cell in index order. */
  method TakeLeast(cells: map<nat, Cell>) returns (index: nat, rest: map<nat, Cell>)
    requires cells != map[]
    ensures index in cells && forall other :: other in cells ==> index <= other
    ensures rest == cells - {index}
  {
    assert cells.Keys != {};
    ghost var least := LeastExists(cells.Keys);
    index :| index in cells.Keys && forall other :: other in cells.Keys ==> index <= other;
    rest := cells - {index};
  }

  /** Pushes a cell onto the last run, or starts a new one with it. */
  method PushOnto(runs: seq<CellRun>, index: nat, cell: Cell) returns (pushed: seq<CellRun>)
    ensures pushed == PushCell(runs, index, cell)
  {
    if runs != [] && runs[|runs| - 1].start + |runs[|runs| - 1].cells| == index {
      pushed := runs[|runs| - 1 := CellRun(runs[|runs| - 1].start, runs[|runs| - 1].cells + [cell])];
    } else {
      pushed := runs + [CellRun(index, [cell])];
    }
  }

  /** The cells from `bound` on. */
  predicate Suffix(rest: map<nat, Cell>, cells: map<nat, Cell>, bound: nat) {
    && (forall i :: i in rest ==> i in cells && bound <= i && rest[i] == cells[i])
    && (forall i :: i in cells && bound <= i ==> i in rest)
  }

  /** Taking the first of the remaining cells moves the bound past it. */
  lemma LeastOfSuffix(rest: map<nat, Cell>, cells: map<nat, Cell>, bound: nat, index: nat)
    requires Suffix(rest, cells, bound) && index in rest && forall other :: other in rest ==> index <= other
    ensures index in cells && rest[index] == cells[index]
    ensures Coalesce(cells, index + 1) == PushCell(Coalesce(cells, bound), index, cells[index])
    ensures Suffix(rest - {index}, cells, index + 1)
    ensures (rest - {index}).Keys < rest.Keys
  {
    CoalesceGap(cells, bound, index);
    assert (rest - {index}).Keys == rest.Keys - {index};
  }

  /** The sorted map's cells as runs, adjacent ones joined. */
  method JoinCells(cells: map<nat, Cell>) returns (runs: seq<CellRun>)
    requires Below(cells, INDEX_BOUND)
    ensures runs == Coalesce(cells, INDEX_BOUND)
  {
    runs := [];
    var rest := cells;
    ghost var bound := 0;
    while rest != map[]
      invariant 0 <= bound <= INDEX_BOUND && Suffix(rest, cells, bound)
      invariant runs == Coalesce(cells, bound)
      decreases rest.Keys
    {
      var index, more := TakeLeast(rest);
      LeastOfSuffix(rest, cells, bound, index);
      runs := PushOnto(runs, index, rest[index]);
      rest := more;
      bound := index + 1;
    }
    CoalesceGap(cells, bound, INDEX_BOUND);
  }

  /** `merge_terminal_deltas`: succeeds exactly when the check does. */
  method MergeTerminalDeltas(previous: Delta, next: Delta) returns (merged: Option<Delta>)
    ensures merged.Some? <==> DeltasMerge(previous, next)
    ensures merged.Some? ==> merged.value == MergeDeltas(previous, next)
  {
    var ok := CheckDeltaMerge(previous, next);
    if !ok {
      return None;
    }
    var cells := CollectCells(previous.runs + next.runs);
    NumberedBelow(previous.runs);
    NumberedBelow(next.runs);
    CellsOfConcat(previous.runs, next.runs);
    var runs := JoinCells(cells);
    return Some(Delta(previous.baseRevision, next.revision, next.displayOffset, next.mouseTracking,
                      next.cursor, next.selection, runs));
  }
}

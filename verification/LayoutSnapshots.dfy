/**
 How a Tab's layout tree is written to disk and read back (crates/condr-core/src/snapshot.rs and
 crates/condr-core/src/session/snapshot.rs): flattened breadth first into an array of nodes, and
 checked by a walk with an explicit stack before it is restored. The check accepts exactly the
 arrays that lay out one valid tree, so what is restored is what was saved.
 */
module LayoutSnapshots {
  import opened Wrappers

  type PaneId = nat

  const MAX_SNAPSHOT_LAYOUT_DEPTH: nat := 64
  const U32_SIZE: nat := 0x1_0000_0000

  datatype Direction = Horizontal | Vertical

  datatype Layout = Pane(id: PaneId) | Split(direction: Direction, ratio: real, first: Layout, second: Layout)

  datatype Node = PaneNode(id: PaneId) | SplitNode(direction: Direction, ratio: real, first: nat, second: nat)

  datatype Snapshot = Snapshot(root: nat, nodes: seq<Node>)

  datatype SnapshotError =
    | EmptyLayout | WrongCount | RootOutOfBounds | NodeOutOfBounds | Cycle | DuplicateReference
    | TooDeep | DuplicatePane | BadRatio | Unreachable | PaneMismatch

  // ----- Trees -----

  function Size(t: Layout): nat {
    match t
    case Pane(_) => 1
    case Split(_, _, first, second) => 1 + Size(first) + Size(second)
  }

  function Leaves(t: Layout): nat {
    match t
    case Pane(_) => 1
    case Split(_, _, first, second) => Leaves(first) + Leaves(second)
  }

  function Depth(t: Layout): nat {
    match t
    case Pane(_) => 1
    case Split(_, _, first, second) => 1 + Max(Depth(first), Depth(second))
  }

  function Panes(t: Layout): set<PaneId> {
    match t
    case Pane(id) => {id}
    case Split(_, _, first, second) => Panes(first) + Panes(second)
  }

  predicate GoodRatio(ratio: real) {
    0.1 <= ratio <= 0.9
  }

  /** No Pane twice, and every ratio in bounds. */
  predicate WellFormed(t: Layout) {
    match t
    case Pane(_) => true
    case Split(_, ratio, first, second) =>
      GoodRatio(ratio) && WellFormed(first) && WellFormed(second) && Panes(first) !! Panes(second)
  }

  /** The nodes `used` lay out `t` from `index`, each of them once. */
  ghost predicate Represents(nodes: seq<Node>, index: nat, t: Layout, used: set<nat>)
    decreases t
  {
    index < |nodes| && index in used &&
    match t
    case Pane(id) => nodes[index] == PaneNode(id) && used == {index}
    case Split(direction, ratio, first, second) =>
      && nodes[index].SplitNode? && nodes[index].direction == direction && nodes[index].ratio == ratio
      && exists left: set<nat>, right: set<nat> ::
           && Represents(nodes, nodes[index].first, first, left)
           && Represents(nodes, nodes[index].second, second, right)
           && left !! right && index !in left && index !in right && used == {index} + left + right
  }

  function Indices(n: nat): set<nat> {
    if n == 0 then {} else Indices(n - 1) + {n - 1}
  }

  lemma {:induction false} IndicesAre(n: nat)
    ensures forall k :: k in Indices(n) <==> 0 <= k < n
    ensures |Indices(n)| == n
  {
    if n > 0 { IndicesAre(n - 1); }
  }

  // ----- The walk that checks a snapshot -----

  /** What a finished visit found: the tree, the nodes done and the Panes met. */
  datatype Visited = Visited(layout: Layout, done: set<nat>, panes: set<PaneId>)

  /** Visits a node that was reached at `depth` with the nodes `path` still open. */
  function Visit(nodes: seq<Node>, index: nat, depth: nat, path: set<nat>, done: set<nat>, panes: set<PaneId>)
    : Result<Visited, SnapshotError>
    decreases MAX_SNAPSHOT_LAYOUT_DEPTH + 1 - depth
  {
    if index >= |nodes| then Err(NodeOutOfBounds)
    else if index in path then Err(Cycle)
    else if index in done then Err(DuplicateReference)
    else if depth > MAX_SNAPSHOT_LAYOUT_DEPTH then Err(TooDeep)
    else
      match nodes[index]
      case PaneNode(id) =>
        if id in panes then Err(DuplicatePane) else Ok(Visited(Pane(id), done + {index}, panes + {id}))
      case SplitNode(direction, ratio, first, second) =>
        if !GoodRatio(ratio) then Err(BadRatio)
        else
          var left := Visit(nodes, first, depth + 1, path + {index}, done, panes);
          if left.Err? then left
          else
            var right := Visit(nodes, second, depth + 1, path + {index}, left.value.done, left.value.panes);
            if right.Err? then right
            else
              var layout := Split(direction, ratio, left.value.layout, right.value.layout);
              Ok(Visited(layout, right.value.done + {index}, right.value.panes))
  }

  /** The layout a snapshot holds, if it passes every check. */
  function Check(s: Snapshot, expected: set<PaneId>): Result<Layout, SnapshotError> {
    if expected == {} then Err(EmptyLayout)
    else if |s.nodes| != 2 * |expected| - 1 then Err(WrongCount)
    else if s.root >= |s.nodes| then Err(RootOutOfBounds)
    else
      match Visit(s.nodes, s.root, 1, {}, {}, {})
      case Err(error) => Err(error)
      case Ok(found) =>
        if !(forall k :: 0 <= k < |s.nodes| ==> k in found.done) then Err(Unreachable)
        else if found.panes != expected then Err(PaneMismatch)
        else Ok(found.layout)
  }

  // ----- The walk as the source runs it -----

  datatype Task = Task(index: nat, depth: nat, exiting: bool)

  datatype Progress = Progress(path: set<nat>, done: set<nat>, panes: set<PaneId>)

  /** Where the walk ends from here, were every task on the stack (last one first) finished. */
  function Resume(nodes: seq<Node>, stack: seq<Task>, p: Progress): Result<Progress, SnapshotError>
    decreases |stack|
  {
    if stack == [] then Ok(p)
    else
      var task, rest := stack[|stack| - 1], stack[..|stack| - 1];
      if task.index >= |nodes| then Err(NodeOutOfBounds)
      else if task.exiting then Resume(nodes, rest, Progress(p.path - {task.index}, p.done + {task.index}, p.panes))
      else
        match Visit(nodes, task.index, task.depth, p.path, p.done, p.panes)
        case Err(error) => Err(error)
        case Ok(found) => Resume(nodes, rest, Progress(p.path, found.done, found.panes))
  }

  /** Entering a split leaves its exit and its two children on the stack. */
  lemma EnteringSplit(nodes: seq<Node>, rest: seq<Task>, task: Task, p: Progress)
    requires task.index < |nodes| && !task.exiting && task.depth <= MAX_SNAPSHOT_LAYOUT_DEPTH
    requires task.index !in p.path && task.index !in p.done
    requires nodes[task.index].SplitNode? && GoodRatio(nodes[task.index].ratio)
    ensures var node := nodes[task.index];
            var below := rest + [Task(task.index, task.depth, true)];
            var right := below + [Task(node.second, task.depth + 1, false)];
            Resume(nodes, right + [Task(node.first, task.depth + 1, false)], p.(path := p.path + {task.index})) ==
            Resume(nodes, rest + [task], p)
  {
    var node := nodes[task.index];
    var below := rest + [Task(task.index, task.depth, true)];
    var right := below + [Task(node.second, task.depth + 1, false)];
    var all := right + [Task(node.first, task.depth + 1, false)];
    assert all[..|all| - 1] == right && right[..|right| - 1] == below && below[..|below| - 1] == rest;
    assert (rest + [task])[..|rest|] == rest;
    assert p.path + {task.index} - {task.index} == p.path;
    var inside := p.path + {task.index};
    var first := Visit(nodes, node.first, task.depth + 1, inside, p.done, p.panes);
    if first.Ok? {
      var second := Visit(nodes, node.second, task.depth + 1, inside, first.value.done, first.value.panes);
      var midway := Progress(inside, first.value.done, first.value.panes);
      assert Resume(nodes, all, p.(path := inside)) == Resume(nodes, right, midway);
      if second.Ok? {
        var after := Progress(inside, second.value.done, second.value.panes);
        assert Resume(nodes, right, midway) == Resume(nodes, below, after);
        assert Resume(nodes, below, after) ==
               Resume(nodes, rest, Progress(p.path, second.value.done + {task.index}, second.value.panes));
      }
    }
  }

  /** Which nodes the states array says are open, done and not yet met. */
  ghost predicate Marked(states: seq<nat>, path: set<nat>, done: set<nat>, unmet: set<nat>) {
    && (forall k :: 0 <= k < |states| ==>
          && states[k] == (if k in path then 1 else if k in done then 2 else 0)
          && (k in unmet <==> states[k] == 0))
    && path !! done
  }

  lemma MarkOpen(states: seq<nat>, path: set<nat>, done: set<nat>, unmet: set<nat>, index: nat)
    requires Marked(states, path, done, unmet) && index < |states| && states[index] == 0
    ensures Marked(states[index := 1], path + {index}, done, unmet - {index})
  {
  }

  lemma MarkDone(states: seq<nat>, path: set<nat>, done: set<nat>, unmet: set<nat>, index: nat)
    requires Marked(states, path, done, unmet) && index < |states|
    ensures Marked(states[index := 2], path - {index}, done + {index},
                   if index in unmet then unmet - {index} else unmet)
  {
  }

  /** A visit of a Pane that passes every check. */
  lemma EnteringPane(nodes: seq<Node>, rest: seq<Task>, task: Task, p: Progress)
    requires task.index < |nodes| && !task.exiting && task.depth <= MAX_SNAPSHOT_LAYOUT_DEPTH
    requires task.index !in p.path && task.index !in p.done
    requires nodes[task.index].PaneNode? && nodes[task.index].id !in p.panes
    ensures Resume(nodes, rest + [task], p) ==
            Resume(nodes, rest, Progress(p.path, p.done + {task.index}, p.panes + {nodes[task.index].id}))
  {
    assert (rest + [task])[..|rest|] == rest;
  }

  /** The check, in terms of where the walk from the root ends. */
  lemma CheckByWalk(s: Snapshot, expected: set<PaneId>)
    requires expected != {} && |s.nodes| == 2 * |expected| - 1 && s.root < |s.nodes|
    ensures var walked := Resume(s.nodes, [Task(s.root, 1, false)], Progress({}, {}, {}));
            match walked
            case Err(error) => Check(s, expected) == Err(error)
            case Ok(p) =>
              if exists k :: 0 <= k < |s.nodes| && k !in p.done then Check(s, expected) == Err(Unreachable)
              else if p.panes != expected then Check(s, expected) == Err(PaneMismatch)
              else Check(s, expected).Ok?
  {
    assert [Task(s.root, 1, false)][..0] == [];
  }

  method ValidateLayoutSnapshot(s: Snapshot, expected: set<PaneId>) returns (result: Result<(), SnapshotError>)
    ensures result == if Check(s, expected).Ok? then Ok(()) else Err(Check(s, expected).error)
  {
    if expected == {} {
      return Err(EmptyLayout);
    }
    if |s.nodes| != 2 * |expected| - 1 {
      return Err(WrongCount);
    }
    if s.root >= |s.nodes| {
      return Err(RootOutOfBounds);
    }
    CheckByWalk(s, expected);
    result := WalkLayout(s.nodes, s.root, expected);
  }

  lemma PathIsClosed(nodes: seq<Node>, root: nat)
    ensures var walked := Resume(nodes, [Task(root, 1, false)], Progress({}, {}, {}));
            walked.Ok? ==> walked.value.path == {}
  {
    assert [Task(root, 1, false)][..0] == [];
  }

  /** Where the walk stands: what is still on the stack, and what was marked and met. */
  datatype Walk = Walk(stack: seq<Task>, states: seq<nat>, panes: set<PaneId>)

  /** The states array agrees with the progress, and the walk still ends where it would have from the start. */
  ghost predicate OnCourse(nodes: seq<Node>, walk: Walk, path: set<nat>, done: set<nat>, unmet: set<nat>,
                           walked: Result<Progress, SnapshotError>) {
    && |walk.states| == |nodes| && Marked(walk.states, path, done, unmet)
    && Resume(nodes, walk.stack, Progress(path, done, walk.panes)) == walked
  }

  /** Meets a node for the first time: marks it, and leaves its children on the stack. */
  method EnterNode(nodes: seq<Node>, walk: Walk, task: Task, ghost path: set<nat>, ghost done: set<nat>,
                   ghost unmet: set<nat>, ghost walked: Result<Progress, SnapshotError>)
    returns (error: Option<SnapshotError>, next: Walk, ghost path': set<nat>, ghost done': set<nat>)
    requires OnCourse(nodes, walk.(stack := walk.stack + [task]), path, done, unmet, walked)
    requires task.index < |nodes| && !task.exiting && task.depth <= MAX_SNAPSHOT_LAYOUT_DEPTH
    requires walk.states[task.index] == 0
    ensures error.Some? ==> walked == Err(error.value)
    ensures error.None? ==> OnCourse(nodes, next, path', done', unmet - {task.index}, walked)
  {
    var index: nat := task.index;
    next, path', done', error := walk, path, done, None;
    assert (walk.stack + [task])[..|walk.stack|] == walk.stack;
    MarkOpen(walk.states, path, done, unmet, index);
    match nodes[index] {
      case PaneNode(id) =>
        if id in walk.panes {
          error := Some(DuplicatePane);
          return;
        }
        EnteringPane(nodes, walk.stack, task, Progress(path, done, walk.panes));
        MarkDone(walk.states[index := 1], path + {index}, done, unmet - {index}, index);
        assert path + {index} - {index} == path;
        next := Walk(walk.stack, walk.states[index := 1][index := 2], walk.panes + {id});
        done' := done + {index};
      case SplitNode(_, ratio, first, second) =>
        if !GoodRatio(ratio) {
          error := Some(BadRatio);
          return;
        }
        EnteringSplit(nodes, walk.stack, task, Progress(path, done, walk.panes));
        var stack := walk.stack + [Task(index, task.depth, true)] + [Task(second, task.depth + 1, false)]
                     + [Task(first, task.depth + 1, false)];
        next := walk.(stack := stack, states := walk.states[index := 1]);
        path' := path + {index};
    }
  }

  /** What a refused task does to the whole walk. */
  lemma RefusedTask(nodes: seq<Node>, rest: seq<Task>, task: Task, p: Progress)
    ensures var all := Resume(nodes, rest + [task], p);
            if task.index >= |nodes| then all == Err(NodeOutOfBounds)
            else if task.exiting then
              all == Resume(nodes, rest, Progress(p.path - {task.index}, p.done + {task.index}, p.panes))
            else if task.index in p.path then all == Err(Cycle)
            else if task.index in p.done then all == Err(DuplicateReference)
            else if task.depth > MAX_SNAPSHOT_LAYOUT_DEPTH then all == Err(TooDeep)
            else true
  {
    assert (rest + [task])[..|rest|] == rest;
  }

  /** One turn of the walk: the task on top of the stack. */
  method WalkOn(nodes: seq<Node>, walk: Walk, ghost path: set<nat>, ghost done: set<nat>, ghost unmet: set<nat>,
                ghost walked: Result<Progress, SnapshotError>)
    returns (error: Option<SnapshotError>, next: Walk,
             ghost path': set<nat>, ghost done': set<nat>, ghost unmet': set<nat>)
    requires walk.stack != [] && OnCourse(nodes, walk, path, done, unmet, walked)
    ensures error.Some? ==> walked == Err(error.value)
    ensures error.None? ==> OnCourse(nodes, next, path', done', unmet', walked)
    ensures error.None? ==> unmet' < unmet || (unmet' == unmet && |next.stack| < |walk.stack|)
  {
    var task, rest := walk.stack[|walk.stack| - 1], walk.stack[..|walk.stack| - 1];
    var index: nat := task.index;
    next, path', done', unmet', error := walk, path, done, unmet, None;
    assert walk.stack == rest + [task];
    RefusedTask(nodes, rest, task, Progress(path, done, walk.panes));
    if index >= |nodes| {
      error := Some(NodeOutOfBounds);
    } else if task.exiting {
      MarkDone(walk.states, path, done, unmet, index);
      next := walk.(stack := rest, states := walk.states[index := 2]);
      path', done', unmet' := path - {index}, done + {index}, if index in unmet then unmet - {index} else unmet;
    } else if walk.states[index] == 1 {
      error := Some(Cycle);
    } else if walk.states[index] == 2 {
      error := Some(DuplicateReference);
    } else if task.depth > MAX_SNAPSHOT_LAYOUT_DEPTH {
      error := Some(TooDeep);
    } else {
      error, next, path', done' := EnterNode(nodes, walk.(stack := rest), task, path, done, unmet, walked);
      unmet' := unmet - {index};
    }
  }

  /** Once the stack is empty: every node met, and exactly the Panes expected. */
  method Conclude(nodes: seq<Node>, walk: Walk, expected: set<PaneId>, ghost done: set<nat>, ghost unmet: set<nat>)
    returns (result: Result<(), SnapshotError>)
    requires |walk.states| == |nodes| && Marked(walk.states, {}, done, unmet)
    ensures result == if exists k :: 0 <= k < |nodes| && k !in done then Err(Unreachable)
                      else if walk.panes != expected then Err(PaneMismatch)
                      else Ok(())
  {
    if exists k :: 0 <= k < |nodes| && walk.states[k] == 0 {
      return Err(Unreachable);
    }
    return if walk.panes != expected then Err(PaneMismatch) else Ok(());
  }

  /** The walk itself, and what is checked once it is over. */
  method WalkLayout(nodes: seq<Node>, root: nat, expected: set<PaneId>) returns (result: Result<(), SnapshotError>)
    requires root < |nodes|
    ensures var walked := Resume(nodes, [Task(root, 1, false)], Progress({}, {}, {}));
            match walked
            case Err(error) => result == Err(error)
            case Ok(p) =>
              if exists k :: 0 <= k < |nodes| && k !in p.done then result == Err(Unreachable)
              else if p.panes != expected then result == Err(PaneMismatch)
              else result == Ok(())
  {
    var walk := Walk([Task(root, 1, false)], seq(|nodes|, _ => 0), {});
    ghost var path: set<nat>, done: set<nat>, unmet: set<nat> := {}, {}, Indices(|nodes|);
    ghost var walked := Resume(nodes, walk.stack, Progress({}, {}, {}));
    IndicesAre(|nodes|);
    PathIsClosed(nodes, root);
    while walk.stack != []
      invariant OnCourse(nodes, walk, path, done, unmet, walked)
      decreases unmet, |walk.stack|
    {
      var error;
      error, walk, path, done, unmet := WalkOn(nodes, walk, path, done, unmet, walked);
      if error.Some? {
        return Err(error.value);
      }
    }
    assert walked == Ok(Progress(path, done, walk.panes));
    result := Conclude(nodes, walk, expected, done, unmet);
  }

  // ----- What the walk accepts -----

  /** What a visit finds is a well-formed tree, laid out by the nodes it newly marked done. */
  lemma {:induction false} VisitFindsTree(nodes: seq<Node>, index: nat, depth: nat,
                                         path: set<nat>, done: set<nat>, panes: set<PaneId>)
    requires Visit(nodes, index, depth, path, done, panes).Ok?
    ensures var found := Visit(nodes, index, depth, path, done, panes).value;
            && done <= found.done && found.done - done !! path
            && Represents(nodes, index, found.layout, found.done - done)
            && WellFormed(found.layout) && depth + Depth(found.layout) - 1 <= MAX_SNAPSHOT_LAYOUT_DEPTH
            && Panes(found.layout) !! panes && found.panes == panes + Panes(found.layout)
    decreases MAX_SNAPSHOT_LAYOUT_DEPTH + 1 - depth
  {
    match nodes[index] {
      case PaneNode(_) =>
        assert done + {index} - done == {index};
      case SplitNode(_, _, first, second) =>
        var inside := path + {index};
        VisitFindsTree(nodes, first, depth + 1, inside, done, panes);
        var left := Visit(nodes, first, depth + 1, inside, done, panes).value;
        VisitFindsTree(nodes, second, depth + 1, inside, left.done, left.panes);
        var right := Visit(nodes, second, depth + 1, inside, left.done, left.panes).value;
        SplitFindsTree(nodes, index, depth, path, done, panes, left, right);
    }
  }

  /** Two visited sides make a visited split. */
  lemma SplitFindsTree(nodes: seq<Node>, index: nat, depth: nat, path: set<nat>, done: set<nat>, panes: set<PaneId>,
                       left: Visited, right: Visited)
    requires index < |nodes| && nodes[index].SplitNode? && GoodRatio(nodes[index].ratio)
    requires index !in path && index !in done && depth <= MAX_SNAPSHOT_LAYOUT_DEPTH
    requires done <= left.done <= right.done
    requires left.done - done !! path + {index} && right.done - left.done !! path + {index}
    requires Represents(nodes, nodes[index].first, left.layout, left.done - done)
    requires Represents(nodes, nodes[index].second, right.layout, right.done - left.done)
    requires WellFormed(left.layout) && WellFormed(right.layout)
    requires depth + Depth(left.layout) <= MAX_SNAPSHOT_LAYOUT_DEPTH
    requires depth + Depth(right.layout) <= MAX_SNAPSHOT_LAYOUT_DEPTH
    requires Panes(left.layout) !! panes && left.panes == panes + Panes(left.layout)
    requires Panes(right.layout) !! left.panes && right.panes == left.panes + Panes(right.layout)
    ensures var layout := Split(nodes[index].direction, nodes[index].ratio, left.layout, right.layout);
            && done <= right.done + {index} && right.done + {index} - done !! path
            && Represents(nodes, index, layout, right.done + {index} - done)
            && WellFormed(layout) && depth + Depth(layout) - 1 <= MAX_SNAPSHOT_LAYOUT_DEPTH
            && Panes(layout) !! panes && right.panes == panes + Panes(layout)
  {
    PartsOfSplit(index, path, done, left.done, right.done);
    SplitRepresents(nodes, index, left.layout, right.layout, left.done - done, right.done - left.done);
  }

  /** The nodes done in a split are its own and those of its two sides, all different. */
  lemma PartsOfSplit(index: nat, path: set<nat>, before: set<nat>, left: set<nat>, right: set<nat>)
    requires before <= left <= right && index !in before
    requires left - before !! path + {index} && right - left !! path + {index} && index !in path
    ensures right + {index} - before == {index} + (left - before) + (right - left)
    ensures left - before !! right - left && index !in left - before && index !in right - left
    ensures right + {index} - before !! path
  {
  }

  lemma SplitRepresents(nodes: seq<Node>, index: nat, first: Layout, second: Layout, left: set<nat>, right: set<nat>)
    requires index < |nodes| && nodes[index].SplitNode?
    requires Represents(nodes, nodes[index].first, first, left) && Represents(nodes, nodes[index].second, second, right)
    requires left !! right && index !in left && index !in right
    ensures Represents(nodes, index, Split(nodes[index].direction, nodes[index].ratio, first, second),
                       {index} + left + right)
  {
  }

  /** The nodes of a split: itself and those of its two children, all different. */
  lemma Children(nodes: seq<Node>, index: nat, t: Layout, used: set<nat>) returns (left: set<nat>, right: set<nat>)
    requires Represents(nodes, index, t, used) && t.Split?
    ensures Represents(nodes, nodes[index].first, t.first, left)
    ensures Represents(nodes, nodes[index].second, t.second, right)
    ensures left !! right && index !in left && index !in right && used == {index} + left + right
  {
    left, right :|
      && Represents(nodes, nodes[index].first, t.first, left)
      && Represents(nodes, nodes[index].second, t.second, right)
      && left !! right && index !in left && index !in right && used == {index} + left + right;
  }

  /** A well-formed tree whose nodes and Panes the walk has not met, within the depth limit. */
  ghost predicate Findable(nodes: seq<Node>, index: nat, t: Layout, used: set<nat>, depth: nat,
                           path: set<nat>, done: set<nat>, panes: set<PaneId>) {
    && Represents(nodes, index, t, used) && used !! path && used !! done
    && WellFormed(t) && Panes(t) !! panes && depth + Depth(t) - 1 <= MAX_SNAPSHOT_LAYOUT_DEPTH
  }

  lemma SidesAreFindable(nodes: seq<Node>, index: nat, t: Layout, used: set<nat>, depth: nat,
                         path: set<nat>, done: set<nat>, panes: set<PaneId>)
    returns (left: set<nat>, right: set<nat>)
    requires Findable(nodes, index, t, used, depth, path, done, panes) && t.Split?
    ensures Findable(nodes, nodes[index].first, t.first, left, depth + 1, path + {index}, done, panes)
    ensures Findable(nodes, nodes[index].second, t.second, right, depth + 1, path + {index}, done + left,
                     panes + Panes(t.first))
    ensures index !in path && index !in done && done + left + right + {index} == done + used
  {
    left, right := Children(nodes, index, t, used);
    PartsAreApart(index, path, done, used, left, right);
    SidesOfSplit(t, depth, panes);
  }

  /** And it finds every such tree. */
  lemma {:induction false} TreeIsFound(nodes: seq<Node>, index: nat, t: Layout, used: set<nat>, depth: nat,
                                      path: set<nat>, done: set<nat>, panes: set<PaneId>)
    requires Findable(nodes, index, t, used, depth, path, done, panes)
    ensures Visit(nodes, index, depth, path, done, panes) == Ok(Visited(t, done + used, panes + Panes(t)))
    decreases t
  {
    if t.Split? {
      var left, right := SidesAreFindable(nodes, index, t, used, depth, path, done, panes);
      TreeIsFound(nodes, nodes[index].first, t.first, left, depth + 1, path + {index}, done, panes);
      TreeIsFound(nodes, nodes[index].second, t.second, right, depth + 1, path + {index}, done + left,
                  panes + Panes(t.first));
      SplitIsFound(nodes, index, depth, path, done, panes, t.first, t.second, done + left, done + left + right,
                   panes + Panes(t.first), panes + Panes(t.first) + Panes(t.second));
      SidesOfSplit(t, depth, panes);
    }
  }

  lemma SidesOfSplit(t: Layout, depth: nat, panes: set<PaneId>)
    requires t.Split? && WellFormed(t) && Panes(t) !! panes && depth + Depth(t) - 1 <= MAX_SNAPSHOT_LAYOUT_DEPTH
    ensures WellFormed(t.first) && Panes(t.first) !! panes && depth + Depth(t.first) <= MAX_SNAPSHOT_LAYOUT_DEPTH
    ensures WellFormed(t.second) && Panes(t.second) !! panes + Panes(t.first)
    ensures depth + Depth(t.second) <= MAX_SNAPSHOT_LAYOUT_DEPTH
    ensures panes + Panes(t.first) + Panes(t.second) == panes + Panes(t)
  {
  }

  lemma PartsAreApart(index: nat, path: set<nat>, done: set<nat>, used: set<nat>, left: set<nat>, right: set<nat>)
    requires used == {index} + left + right && left !! right && index !in left && index !in right
    requires used !! path && used !! done
    ensures left !! path + {index} && right !! path + {index} && left !! done && right !! done + left
    ensures index !in path && index !in done && done + left + right + {index} == done + used
  {
  }

  lemma SplitIsFound(nodes: seq<Node>, index: nat, depth: nat, path: set<nat>, done: set<nat>, panes: set<PaneId>,
                     first: Layout, second: Layout, doneLeft: set<nat>, doneRight: set<nat>,
                     panesLeft: set<PaneId>, panesRight: set<PaneId>)
    requires index < |nodes| && index !in path && index !in done && depth <= MAX_SNAPSHOT_LAYOUT_DEPTH
    requires nodes[index].SplitNode? && GoodRatio(nodes[index].ratio)
    requires Visit(nodes, nodes[index].first, depth + 1, path + {index}, done, panes)
             == Ok(Visited(first, doneLeft, panesLeft))
    requires Visit(nodes, nodes[index].second, depth + 1, path + {index}, doneLeft, panesLeft)
             == Ok(Visited(second, doneRight, panesRight))
    ensures Visit(nodes, index, depth, path, done, panes)
            == Ok(Visited(Split(nodes[index].direction, nodes[index].ratio, first, second),
                          doneRight + {index}, panesRight))
  {
  }

  lemma SizeOfUnion(a: set<nat>, b: set<nat>)
    requires a !! b
    ensures |a + b| == |a| + |b|
  {
  }

  /** A tree has as many nodes as it uses. */
  lemma {:induction false} NodesAreCounted(nodes: seq<Node>, index: nat, t: Layout, used: set<nat>)
    requires Represents(nodes, index, t, used)
    ensures |used| == Size(t)
    decreases t
  {
    if t.Split? {
      var left, right := Children(nodes, index, t, used);
      NodesAreCounted(nodes, nodes[index].first, t.first, left);
      NodesAreCounted(nodes, nodes[index].second, t.second, right);
      SizeOfUnion(left, right);
      SizeOfUnion({index}, left + right);
      assert used == {index} + (left + right);
    }
  }

  lemma {:induction false} NodesAreInBounds(nodes: seq<Node>, index: nat, t: Layout, used: set<nat>, k: nat)
    requires Represents(nodes, index, t, used) && k in used
    ensures k < |nodes|
    decreases t
  {
    if t.Split? && k != index {
      var left, right := Children(nodes, index, t, used);
      if k in left {
        NodesAreInBounds(nodes, nodes[index].first, t.first, left, k);
      } else {
        NodesAreInBounds(nodes, nodes[index].second, t.second, right, k);
      }
    }
  }

  /** A tree has one node less than twice its leaves; its Panes, none twice, are as many as its leaves. */
  lemma {:induction false} TwiceTheLeaves(t: Layout)
    ensures Size(t) == 2 * Leaves(t) - 1
    ensures WellFormed(t) ==> |Panes(t)| == Leaves(t)
  {
    if t.Split? {
      TwiceTheLeaves(t.first);
      TwiceTheLeaves(t.second);
      if WellFormed(t) { SizeOfUnion(Panes(t.first), Panes(t.second)); }
    }
  }

  /** The layout is one the Session may hold, with these Panes. */
  predicate Durable(t: Layout, expected: set<PaneId>) {
    WellFormed(t) && Panes(t) == expected && Depth(t) <= MAX_SNAPSHOT_LAYOUT_DEPTH
  }

  lemma AcceptedHoldsTree(s: Snapshot, expected: set<PaneId>)
    requires Check(s, expected).Ok?
    ensures var t := Check(s, expected).value;
            Durable(t, expected) && Represents(s.nodes, s.root, t, Indices(|s.nodes|))
  {
    VisitFindsTree(s.nodes, s.root, 1, {}, {}, {});
    var found := Visit(s.nodes, s.root, 1, {}, {}, {}).value;
    assert found.done - {} == found.done;
    AllAreUsed(s.nodes, s.root, found.layout, found.done);
  }

  lemma AllAreUsed(nodes: seq<Node>, index: nat, t: Layout, used: set<nat>)
    requires Represents(nodes, index, t, used) && forall k :: 0 <= k < |nodes| ==> k in used
    ensures used == Indices(|nodes|)
  {
    IndicesAre(|nodes|);
    forall k | k in used ensures k in Indices(|nodes|) {
      NodesAreInBounds(nodes, index, t, used, k);
    }
  }

  lemma TreeIsAccepted(s: Snapshot, expected: set<PaneId>, t: Layout)
    requires Durable(t, expected) && Represents(s.nodes, s.root, t, Indices(|s.nodes|))
    ensures Check(s, expected) == Ok(t)
  {
    var all := Indices(|s.nodes|);
    NodesAreCounted(s.nodes, s.root, t, all);
    TwiceTheLeaves(t);
    TreeIsFound(s.nodes, s.root, t, all, 1, {}, {}, {});
    assert {} + all == all && {} + Panes(t) == Panes(t);
    AllFoundIsAccepted(s, expected, t);
  }

  lemma AllFoundIsAccepted(s: Snapshot, expected: set<PaneId>, t: Layout)
    requires Visit(s.nodes, s.root, 1, {}, {}, {}) == Ok(Visited(t, Indices(|s.nodes|), expected))
    requires |Indices(|s.nodes|)| == 2 * |expected| - 1 && |expected| > 0
    ensures Check(s, expected) == Ok(t)
  {
    IndicesAre(|s.nodes|);
  }

  /** A snapshot is accepted exactly when all its nodes, each once, lay out one durable tree. */
  lemma AcceptsExactlyTrees(s: Snapshot, expected: set<PaneId>)
    ensures Check(s, expected).Ok? <==>
            exists t :: Durable(t, expected) && Represents(s.nodes, s.root, t, Indices(|s.nodes|))
  {
    if Check(s, expected).Ok? {
      AcceptedHoldsTree(s, expected);
    }
    if t :| Durable(t, expected) && Represents(s.nodes, s.root, t, Indices(|s.nodes|)) {
      TreeIsAccepted(s, expected, t);
    }
  }

  // ----- Restoring -----

  /** Restoring ends, in bounds, with the tree the nodes lay out. */
  method RestoreNode(nodes: seq<Node>, index: nat, ghost t: Layout, ghost used: set<nat>) returns (layout: Layout)
    requires Represents(nodes, index, t, used)
    ensures layout == t
    decreases t
  {
    match nodes[index] {
      case PaneNode(id) => layout := Pane(id);
      case SplitNode(direction, ratio, first, second) =>
        ghost var left, right := Children(nodes, index, t, used);
        var one := RestoreNode(nodes, first, t.first, left);
        var other := RestoreNode(nodes, second, t.second, right);
        layout := Split(direction, ratio, one, other);
    }
  }

  /** Every accepted snapshot restores, and to the layout the check found. */
  method RestoreLayout(s: Snapshot, ghost expected: set<PaneId>) returns (layout: Layout)
    requires Check(s, expected).Ok?
    ensures layout == Check(s, expected).value && Durable(layout, expected)
  {
    AcceptedHoldsTree(s, expected);
    layout := RestoreNode(s.nodes, s.root, Check(s, expected).value, Indices(|s.nodes|));
  }

  // ----- Flattening -----

  function TotalSize(pending: seq<Layout>): nat {
    if pending == [] then 0 else Size(pending[0]) + TotalSize(pending[1..])
  }

  lemma {:induction false} TwoMore(pending: seq<Layout>, first: Layout, second: Layout)
    ensures TotalSize(pending + [first] + [second]) == TotalSize(pending) + Size(first) + Size(second)
  {
    if pending == [] {
      assert pending + [first] + [second] == [first, second];
      assert [first, second][1..] == [second] && [second][1..] == [];
      assert TotalSize([second]) == Size(second);
    } else {
      TwoMore(pending[1..], first, second);
      assert (pending + [first] + [second])[1..] == pending[1..] + [first] + [second];
    }
  }

  function Splits(nodes: seq<Node>): nat {
    if nodes == [] then 0 else Splits(nodes[..|nodes| - 1]) + (if nodes[|nodes| - 1].SplitNode? then 1 else 0)
  }

  /** Breadth first: the children of the n-th split are nodes 2n - 1 and 2n, after the split itself. */
  predicate BreadthFirst(nodes: seq<Node>) {
    nodes == [] ||
    var front, last := nodes[..|nodes| - 1], nodes[|nodes| - 1];
    && BreadthFirst(front)
    && (last.SplitNode? ==> last.first == 2 * Splits(front) + 1 > |front| && last.second == last.first + 1)
  }

  /** Node `k` is written for the tree `pending[k]`, whose children are further on in `pending`. */
  predicate Writes(node: Node, k: nat, pending: seq<Layout>) {
    k < |pending| &&
    match pending[k]
    case Pane(id) => node == PaneNode(id)
    case Split(direction, ratio, first, second) =>
      && node.SplitNode? && node.direction == direction && node.ratio == ratio
      && k < node.first < |pending| && pending[node.first] == first
      && node.second == node.first + 1 < |pending| && pending[node.second] == second
  }

  /** Who is whose child: every node but the root is the child of exactly one split before it. */
  predicate Family(nodes: seq<Node>, parents: seq<nat>) {
    && (forall p :: 0 <= p < |nodes| && nodes[p].SplitNode? ==>
          && p < nodes[p].first && nodes[p].second == nodes[p].first + 1 < |parents|
          && parents[nodes[p].first] == p && parents[nodes[p].second] == p)
    && (forall k :: 1 <= k < |parents| ==>
          && parents[k] < |nodes| && parents[k] < k && nodes[parents[k]].SplitNode?
          && (k == nodes[parents[k]].first || k == nodes[parents[k]].second))
  }

  /** What the loop has done so far: a node for every tree that it took from `pending`. */
  predicate Flattened(layout: Layout, nodes: seq<Node>, pending: seq<Layout>, parents: seq<nat>) {
    && |nodes| <= |pending| == |parents| && 0 < |pending| && pending[0] == layout
    && |nodes| + TotalSize(pending[|nodes|..]) == Size(layout)
    && (forall k :: 0 <= k < |nodes| ==> Writes(nodes[k], k, pending))
    && BreadthFirst(nodes) && |pending| == 2 * Splits(nodes) + 1
    && Family(nodes, parents)
  }

  method FromLayout(layout: Layout) returns (s: Snapshot)
    requires Size(layout) <= U32_SIZE
    ensures s.root == 0 && |s.nodes| == Size(layout)
    ensures Represents(s.nodes, 0, layout, Indices(|s.nodes|))
    ensures BreadthFirst(s.nodes)
  {
    var pending, nodes, cursor := [layout], [], 0;
    ghost var parents := [0];
    NothingFlattened(layout);
    while cursor < |pending|
      invariant cursor == |nodes| && Flattened(layout, nodes, pending, parents)
      decreases TotalSize(pending[cursor..])
    {
      nodes, pending, parents := FlattenNext(layout, nodes, pending, parents);
      cursor := cursor + 1;
    }
    AllFlattened(layout, nodes, pending, parents);
    return Snapshot(0, nodes);
  }

  /** Writes the next pending tree's node, with the indices its children will have. */
  method FlattenNext(ghost layout: Layout, nodes: seq<Node>, pending: seq<Layout>, ghost parents: seq<nat>)
    returns (nodes': seq<Node>, pending': seq<Layout>, ghost parents': seq<nat>)
    requires Size(layout) <= U32_SIZE && Flattened(layout, nodes, pending, parents) && |nodes| < |pending|
    ensures |nodes'| == |nodes| + 1 <= |pending'| && Flattened(layout, nodes', pending', parents')
    ensures TotalSize(pending'[|nodes'|..]) < TotalSize(pending[|nodes|..])
  {
    nodes', pending', parents' := nodes, pending, parents;
    match pending[|nodes|] {
      case Pane(id) =>
        PaneFlattens(layout, nodes, pending, parents, id);
        nodes' := nodes + [PaneNode(id)];
      case Split(direction, ratio, first, second) =>
        SplitFlattens(layout, nodes, pending, parents, direction, ratio, first, second);
        assert |pending| + 1 < U32_SIZE;  // both indices convert to 32 bits
        nodes' := nodes + [SplitNode(direction, ratio, |pending|, |pending| + 1)];
        pending' := pending + [first] + [second];
        parents' := parents + [|nodes|, |nodes|];
    }
  }

  lemma NothingFlattened(layout: Layout)
    ensures Flattened(layout, [], [layout], [0])
  {
    assert [layout][1..] == [] && [layout][0..] == [layout];
  }

  lemma AllFlattened(layout: Layout, nodes: seq<Node>, pending: seq<Layout>, parents: seq<nat>)
    requires Flattened(layout, nodes, pending, parents) && |nodes| == |pending|
    ensures |nodes| == Size(layout) && BreadthFirst(nodes)
    ensures Represents(nodes, 0, layout, Indices(|nodes|))
  {
    AllLaidOut(nodes, pending, parents);
  }

  lemma PaneFlattens(layout: Layout, nodes: seq<Node>, pending: seq<Layout>, parents: seq<nat>, id: PaneId)
    requires Flattened(layout, nodes, pending, parents) && |nodes| < |pending| && pending[|nodes|] == Pane(id)
    ensures Flattened(layout, nodes + [PaneNode(id)], pending, parents)
    ensures TotalSize(pending[|nodes| + 1..]) < TotalSize(pending[|nodes|..])
  {
    var all := nodes + [PaneNode(id)];
    assert pending[|nodes|..][1..] == pending[|nodes| + 1..];
    OneMoreNode(nodes, PaneNode(id));
    FamilyStays(nodes, parents, id);
    forall k | 0 <= k < |all| ensures Writes(all[k], k, pending) {
      if k < |nodes| { assert all[k] == nodes[k]; }
    }
  }

  lemma FamilyStays(nodes: seq<Node>, parents: seq<nat>, id: PaneId)
    requires Family(nodes, parents)
    ensures Family(nodes + [PaneNode(id)], parents)
  {
  }

  lemma FamilyGrows(nodes: seq<Node>, parents: seq<nat>, node: Node)
    requires Family(nodes, parents) && |nodes| < |parents|
    requires node.SplitNode? && node.first == |parents| && node.second == |parents| + 1
    ensures Family(nodes + [node], parents + [|nodes|, |nodes|])
  {
  }

  lemma SizesGrow(pending: seq<Layout>, cursor: nat, first: Layout, second: Layout)
    requires cursor < |pending| && pending[cursor].Split?
    requires pending[cursor].first == first && pending[cursor].second == second
    ensures 1 + TotalSize((pending + [first] + [second])[cursor + 1..]) == TotalSize(pending[cursor..])
    ensures |pending| + 1 - cursor <= TotalSize((pending + [first] + [second])[cursor + 1..])
  {
    var grown := pending + [first] + [second];
    assert pending[cursor..][1..] == pending[cursor + 1..];
    assert pending[cursor + 1..] + [first] + [second] == grown[cursor + 1..];
    TwoMore(pending[cursor + 1..], first, second);
    FewerThanTheirSizes(grown[cursor + 1..]);
  }

  lemma SplitFlattens(layout: Layout, nodes: seq<Node>, pending: seq<Layout>, parents: seq<nat>,
                      direction: Direction, ratio: real, first: Layout, second: Layout)
    requires Flattened(layout, nodes, pending, parents) && |nodes| < |pending|
    requires pending[|nodes|] == Split(direction, ratio, first, second)
    ensures |pending| + 2 <= Size(layout)
    ensures TotalSize((pending + [first] + [second])[|nodes| + 1..]) < TotalSize(pending[|nodes|..])
    ensures Flattened(layout, nodes + [SplitNode(direction, ratio, |pending|, |pending| + 1)],
                      pending + [first] + [second], parents + [|nodes|, |nodes|])
  {
    var node := SplitNode(direction, ratio, |pending|, |pending| + 1);
    var grown, all := pending + [first] + [second], nodes + [node];
    SizesGrow(pending, |nodes|, first, second);
    FamilyGrows(nodes, parents, node);
    OneMoreNode(nodes, node);
    assert grown[..|pending|] == pending;
    StillWritten(nodes, pending, grown);
    assert grown[|nodes|] == pending[|nodes|];
    forall k | 0 <= k < |all| ensures Writes(all[k], k, grown) {
      if k < |nodes| { assert all[k] == nodes[k]; }
    }
  }

  lemma StillWritten(nodes: seq<Node>, pending: seq<Layout>, grown: seq<Layout>)
    requires |nodes| <= |pending| <= |grown| && grown[..|pending|] == pending
    requires forall k :: 0 <= k < |nodes| ==> Writes(nodes[k], k, pending)
    ensures forall k :: 0 <= k < |nodes| ==> Writes(nodes[k], k, grown)
  {
    forall k | 0 <= k < |nodes| ensures Writes(nodes[k], k, grown) {
      assert grown[k] == pending[k];
      if nodes[k].SplitNode? {
        assert grown[nodes[k].first] == pending[nodes[k].first];
        assert grown[nodes[k].second] == pending[nodes[k].second];
      }
    }
  }

  lemma {:induction false} FewerThanTheirSizes(pending: seq<Layout>)
    ensures |pending| <= TotalSize(pending)
  {
    if pending != [] { FewerThanTheirSizes(pending[1..]); }
  }

  lemma OneMoreNode(nodes: seq<Node>, node: Node)
    requires BreadthFirst(nodes)
    requires node.SplitNode? ==> node.first == 2 * Splits(nodes) + 1 > |nodes| && node.second == node.first + 1
    ensures BreadthFirst(nodes + [node])
    ensures Splits(nodes + [node]) == Splits(nodes) + (if node.SplitNode? then 1 else 0)
  {
    assert (nodes + [node])[..|nodes|] == nodes;
  }

  // ----- The nodes below a node -----

  /** Every node is written for the tree pending at its place. */
  predicate LaidOut(nodes: seq<Node>, pending: seq<Layout>) {
    |nodes| == |pending| && forall k :: 0 <= k < |nodes| ==> Writes(nodes[k], k, pending)
  }

  function Below(nodes: seq<Node>, pending: seq<Layout>, k: nat): set<nat>
    requires LaidOut(nodes, pending) && k < |nodes|
    decreases |nodes| - k
  {
    if nodes[k].PaneNode? then {k}
    else {k} + Below(nodes, pending, nodes[k].first) + Below(nodes, pending, nodes[k].second)
  }

  /** A node below `k` comes after it, and its parent is below `k` too. */
  lemma {:induction false} ParentIsBelow(nodes: seq<Node>, pending: seq<Layout>, parents: seq<nat>, k: nat, j: nat)
    requires LaidOut(nodes, pending) && Family(nodes, parents) && |parents| == |nodes|
    requires k < |nodes| && j in Below(nodes, pending, k)
    ensures k <= j < |nodes| && (j != k ==> parents[j] in Below(nodes, pending, k))
    decreases |nodes| - k
  {
    if j != k {
      if j in Below(nodes, pending, nodes[k].first) {
        ParentIsBelow(nodes, pending, parents, nodes[k].first, j);
      } else {
        ParentIsBelow(nodes, pending, parents, nodes[k].second, j);
      }
      assert k in Below(nodes, pending, k);
    }
  }

  lemma {:induction false} ChildrenAreBelow(nodes: seq<Node>, pending: seq<Layout>, k: nat, p: nat)
    requires LaidOut(nodes, pending) && k < |nodes| && p in Below(nodes, pending, k)
    ensures p < |nodes|
    ensures nodes[p].SplitNode? ==>
              nodes[p].first in Below(nodes, pending, k) && nodes[p].second in Below(nodes, pending, k)
    decreases |nodes| - k
  {
    if nodes[k].SplitNode? {
      if p == k {
        assert nodes[k].first in Below(nodes, pending, nodes[k].first);
        assert nodes[k].second in Below(nodes, pending, nodes[k].second);
      } else if p in Below(nodes, pending, nodes[k].first) {
        ChildrenAreBelow(nodes, pending, nodes[k].first, p);
      } else {
        ChildrenAreBelow(nodes, pending, nodes[k].second, p);
      }
    }
  }

  /** Nothing is below both children of a split: its parent would be as well. */
  lemma {:induction false} NothingIsBelowBoth(nodes: seq<Node>, pending: seq<Layout>, parents: seq<nat>, k: nat, j: nat)
    requires LaidOut(nodes, pending) && Family(nodes, parents) && |parents| == |nodes|
    requires k < |nodes| && nodes[k].SplitNode?
    ensures !(j in Below(nodes, pending, nodes[k].first) && j in Below(nodes, pending, nodes[k].second))
    decreases j
  {
    var first, second := nodes[k].first, nodes[k].second;
    if j in Below(nodes, pending, first) && j in Below(nodes, pending, second) {
      ParentIsBelow(nodes, pending, parents, first, j);
      ParentIsBelow(nodes, pending, parents, second, j);
      if j == second {
        // Its parent is the split itself, which comes before both children.
        ParentIsBelow(nodes, pending, parents, first, k);
      } else {
        NothingIsBelowBoth(nodes, pending, parents, k, parents[j]);
      }
    }
  }

  lemma {:induction false} LaysOutTree(nodes: seq<Node>, pending: seq<Layout>, parents: seq<nat>, k: nat)
    requires LaidOut(nodes, pending) && Family(nodes, parents) && |parents| == |nodes| && k < |nodes|
    ensures Represents(nodes, k, pending[k], Below(nodes, pending, k))
    decreases |nodes| - k
  {
    if nodes[k].SplitNode? {
      var first, second := nodes[k].first, nodes[k].second;
      var left, right := Below(nodes, pending, first), Below(nodes, pending, second);
      LaysOutTree(nodes, pending, parents, first);
      LaysOutTree(nodes, pending, parents, second);
      forall j ensures !(j in left && j in right) { NothingIsBelowBoth(nodes, pending, parents, k, j); }
      if k in left { ParentIsBelow(nodes, pending, parents, first, k); }
      if k in right { ParentIsBelow(nodes, pending, parents, second, k); }
    }
  }

  lemma {:induction false} EveryNodeIsBelowTheRoot(nodes: seq<Node>, pending: seq<Layout>, parents: seq<nat>, j: nat)
    requires LaidOut(nodes, pending) && Family(nodes, parents) && |parents| == |nodes| && j < |nodes|
    ensures j in Below(nodes, pending, 0)
  {
    if j > 0 {
      EveryNodeIsBelowTheRoot(nodes, pending, parents, parents[j]);
      ChildrenAreBelow(nodes, pending, 0, parents[j]);
    }
  }

  lemma AllLaidOut(nodes: seq<Node>, pending: seq<Layout>, parents: seq<nat>)
    requires LaidOut(nodes, pending) && Family(nodes, parents) && |parents| == |nodes| > 0
    ensures Represents(nodes, 0, pending[0], Indices(|nodes|))
  {
    LaysOutTree(nodes, pending, parents, 0);
    forall j | 0 <= j < |nodes| ensures j in Below(nodes, pending, 0) {
      EveryNodeIsBelowTheRoot(nodes, pending, parents, j);
    }
    AllAreUsed(nodes, 0, pending[0], Below(nodes, pending, 0));
  }

  /** A durable layout comes back as it was saved, past every check. */
  method SaveAndRestore(layout: Layout) returns (restored: Layout)
    requires Durable(layout, Panes(layout)) && Size(layout) <= U32_SIZE
    ensures restored == layout
  {
    var saved := FromLayout(layout);
    TreeIsAccepted(saved, Panes(layout), layout);
    var checked := ValidateLayoutSnapshot(saved, Panes(layout));
    assert checked.Ok?;
    restored := RestoreLayout(saved, Panes(layout));
  }
}

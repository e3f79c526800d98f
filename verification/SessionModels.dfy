/**
 The Client's copy of a Session (crates/condr-client/src/model.rs): its structure, what belongs to
 its Panes and Workspaces, and its terminals' views. A Bootstrap replaces it all; events and terminal
 frames move it on. Views are taken with hyperlinks erased, and Session::restore is a flag on the snapshot.
 */
module SessionModels {
  import opened Wrappers
  import opened TerminalViews
  import opened FrameLinks
  import opened VisualSlot
  import opened ClientTerminals

  type WorkspaceId = nat

  datatype Session = Session(panes: set<PaneId>, workspaces: set<WorkspaceId>, structure: nat)

  /** A structure as it arrives; `valid` says whether it can be restored. */
  datatype Snapshot = Snapshot(session: Session, valid: bool)

  /** All that belongs to Panes and Workspaces, apart from the terminals' views. */
  datatype Kept = Kept(
    titles: map<PaneId, nat>,
    progress: map<PaneId, nat>,
    exited: set<PaneId>,
    agents: map<PaneId, nat>,
    unseen: set<PaneId>,
    attention: set<PaneId>,
    git: map<WorkspaceId, nat>,
    zoomed: set<PaneId>,
    settings: nat)

  datatype TerminalRecord = TerminalRecord(
    pane: PaneId,
    title: Option<nat>,
    progress: Option<nat>,
    exited: bool,
    attention: bool,
    view: Option<View>)

  datatype AgentRecord = AgentRecord(pane: PaneId, agent: nat, unseen: bool)

  datatype SessionBootstrap = SessionBootstrap(
    server: nat,
    epoch: nat,
    session: nat,
    sequence: nat,
    snapshot: Snapshot,
    terminals: seq<TerminalRecord>,
    agents: seq<AgentRecord>,
    git: map<WorkspaceId, nat>,
    zoomed: set<PaneId>,
    settings: nat)

  datatype Model = Model(
    server: Option<nat>,
    epoch: Option<nat>,
    sessionId: Option<nat>,
    sequence: nat,
    session: Option<Session>,
    kept: Kept,
    terminals: Terminals,
    links: set<PaneId>,
    watched: Option<set<PaneId>>)

  const NothingKept: Kept := Kept(map[], map[], {}, map[], {}, {}, map[], {}, 0)

  const NewModel: Model := Model(None, None, None, 0, None, NothingKept, map[], {}, None)

  // ----- Bootstraps and layouts -----

  function Set<K, V>(m: map<K, V>, key: K, value: Option<V>): map<K, V> {
    if value.Some? then m[key := value.value] else m
  }

  /** What the records say of their Panes, the last one of a Pane deciding. */
  function Gather(records: seq<TerminalRecord>): Kept {
    if records == [] then NothingKept
    else
      var before, last := Gather(records[..|records| - 1]), records[|records| - 1];
      before.(titles := Set(before.titles, last.pane, last.title),
              progress := Set(before.progress, last.pane, last.progress),
              exited := if last.exited then before.exited + {last.pane} else before.exited,
              attention := if last.attention then before.attention + {last.pane} else before.attention)
  }

  function Views(records: seq<TerminalRecord>, watched: Option<set<PaneId>>): Terminals {
    if records == [] then map[]
    else
      var before, last := Views(records[..|records| - 1], watched), records[|records| - 1];
      if last.view.Some? && Watches(watched, last.pane) then before[last.pane := last.view.value] else before
  }

  function Agents(records: seq<AgentRecord>): map<PaneId, nat> {
    if records == [] then map[]
    else Agents(records[..|records| - 1])[records[|records| - 1].pane := records[|records| - 1].agent]
  }

  function UnseenAgents(records: seq<AgentRecord>): set<PaneId> {
    if records == [] then {}
    else
      UnseenAgents(records[..|records| - 1])
      + (if records[|records| - 1].unseen then {records[|records| - 1].pane} else {})
  }

  function KeptOf(b: SessionBootstrap): Kept {
    Gather(b.terminals).(agents := Agents(b.agents), unseen := UnseenAgents(b.agents), git := b.git,
                         zoomed := b.zoomed, settings := b.settings)
  }

  /** Replaces everything but the watched set; nothing when the snapshot cannot be restored. */
  function ApplyBootstrap(m: Model, b: SessionBootstrap): Option<Model> {
    if !b.snapshot.valid then None
    else
      var views := Views(b.terminals, m.watched);
      Some(Model(Some(b.server), Some(b.epoch), Some(b.session), b.sequence, Some(b.snapshot.session), KeptOf(b),
                 views, views.Keys, m.watched))
  }

  function OnlyIn<K, V>(m: map<K, V>, keys: set<K>): map<K, V> {
    map k | k in m && k in keys :: m[k]
  }

  /** What is left for the Panes and Workspaces of a new structure. */
  function Prune(kept: Kept, session: Session, zoomed: set<PaneId>): Kept {
    Kept(OnlyIn(kept.titles, session.panes), OnlyIn(kept.progress, session.panes), kept.exited * session.panes,
         OnlyIn(kept.agents, session.panes), kept.unseen * session.panes, kept.attention * session.panes,
         OnlyIn(kept.git, session.workspaces), zoomed, kept.settings)
  }

  function ApplyLayout(m: Model, snapshot: Snapshot, zoomed: set<PaneId>): Option<Model> {
    if !snapshot.valid then None
    else
      var session := snapshot.session;
      Some(m.(session := Some(session), kept := Prune(m.kept, session, zoomed),
              terminals := OnlyIn(m.terminals, session.panes), links := m.links * session.panes))
  }

  function WatchTerminals(m: Model, panes: set<PaneId>): Model {
    m.(terminals := OnlyIn(m.terminals, panes), links := m.links * panes, watched := Some(panes))
  }

  // ----- Terminal frames -----

  /** With a watched set, only its frames count, and only a full view for a Pane with none yet. */
  predicate Wants(m: Model, frame: PaneFrame) {
    m.watched.Some? ==> Watches(m.watched, frame.pane) && (frame.pane in m.terminals || frame.frame.Full?)
  }

  function Wanted(m: Model, frames: seq<PaneFrame>): seq<PaneFrame> {
    if frames == [] then []
    else
      var front, last := Wanted(m, frames[..|frames| - 1]), frames[|frames| - 1];
      if Wants(m, last) then front + [last] else front
  }

  /** The validation that runs before any terminal or hyperlink budget changes. */
  predicate FramesApply(m: Model, frames: seq<PaneFrame>) {
    && BatchApplies(m.terminals, frames)
    && forall k :: 0 <= k < |frames| && frames[k].pane in m.terminals ==> frames[k].pane in m.links
  }

  function FullPanes(frames: seq<PaneFrame>): set<PaneId> {
    if frames == [] then {}
    else
      FullPanes(frames[..|frames| - 1])
      + (if frames[|frames| - 1].frame.Full? then {frames[|frames| - 1].pane} else {})
  }

  function PanesOf(frames: seq<PaneFrame>): set<PaneId> {
    if frames == [] then {} else PanesOf(frames[..|frames| - 1]) + {frames[|frames| - 1].pane}
  }

  /** Every Pane of the batch or none. */
  function ApplyTerminalFrames(m: Model, frames: seq<PaneFrame>): Option<Model> {
    var frames := Wanted(m, frames);
    if !FramesApply(m, frames) then None
    else Some(m.(terminals := ShowAll(m.terminals, frames), links := m.links + FullPanes(frames)))
  }

  // ----- Events -----

  datatype SessionEvent =
    | LayoutChanged(snapshot: Snapshot, zoomed: set<PaneId>)
    | AgentChanged(pane: PaneId, agent: Option<nat>)
    | TerminalExited(pane: PaneId)
    | TerminalTitleChanged(pane: PaneId, title: Option<nat>)
    | TerminalProgressChanged(pane: PaneId, progress: Option<nat>)
    | TerminalAttentionChanged(pane: PaneId, attention: bool)
    | AgentUnseenChanged(pane: PaneId, unseen: bool)
    | WorkspaceGitChanged(workspace: WorkspaceId, git: Option<nat>)
    | ServerSettingsChanged(settings: nat)
    | NothingKeptHere

  function Put<K, V>(m: map<K, V>, key: K, value: Option<V>): map<K, V> {
    if value.Some? then m[key := value.value] else m - {key}
  }

  /** Every event but a layout; the Agent of the Pane `shown` is never unseen. */
  function ApplyKept(kept: Kept, event: SessionEvent, shown: Option<PaneId>): Kept {
    match event
    case AgentChanged(pane, agent) => kept.(agents := Put(kept.agents, pane, agent))
    case TerminalExited(pane) => kept.(exited := kept.exited + {pane})
    case TerminalTitleChanged(pane, title) => kept.(titles := Put(kept.titles, pane, title))
    case TerminalProgressChanged(pane, progress) => kept.(progress := Put(kept.progress, pane, progress))
    case TerminalAttentionChanged(pane, attention) =>
      kept.(attention := if attention then kept.attention + {pane} else kept.attention - {pane})
    case AgentUnseenChanged(pane, unseen) =>
      kept.(unseen := if unseen && shown != Some(pane) then kept.unseen + {pane} else kept.unseen - {pane})
    case WorkspaceGitChanged(workspace, git) => kept.(git := Put(kept.git, workspace, git))
    case ServerSettingsChanged(settings) => kept.(settings := settings)
    case LayoutChanged(_, _) => kept
    case NothingKeptHere => kept
  }

  // ----- The model as the source runs it -----

  class SessionModel {
    var server: Option<nat>
    var epoch: Option<nat>
    var sessionId: Option<nat>
    var sequence: nat
    var session: Option<Session>
    var kept: Kept
    var terminals: Terminals
    var links: set<PaneId>
    var watched: Option<set<PaneId>>

    ghost function Current(): Model
      reads this
    {
      Model(server, epoch, sessionId, sequence, session, kept, terminals, links, watched)
    }

    constructor ()
      ensures Current() == NewModel
    {
      server, epoch, sessionId, sequence, session := None, None, None, 0, None;
      kept, terminals, links, watched := NothingKept, map[], {}, None;
    }

    /** The terminals of a Bootstrap's records, and what else the records say. */
    method ReplaceTerminals(records: seq<TerminalRecord>) returns (gathered: Kept)
      modifies this`terminals, this`links
      ensures gathered == Gather(records)
      ensures terminals == Views(records, watched) && links == terminals.Keys
    {
      gathered := NothingKept;
      terminals, links := map[], {};
      for k := 0 to |records|
        invariant gathered == Gather(records[..k])
        invariant terminals == Views(records[..k], watched) && links == terminals.Keys
      {
        var record := records[k];
        assert records[..k + 1][..k] == records[..k];
        gathered := gathered.(
          titles := Set(gathered.titles, record.pane, record.title),
          progress := Set(gathered.progress, record.pane, record.progress),
          exited := if record.exited then gathered.exited + {record.pane} else gathered.exited,
          attention := if record.attention then gathered.attention + {record.pane} else gathered.attention);
        if record.view.Some? && Watches(watched, record.pane) {
          links := links + {record.pane};
          terminals := terminals[record.pane := record.view.value];
        }
      }
      assert records[..|records|] == records;
    }

    method ReplaceAll(b: SessionBootstrap) returns (ok: bool, authorityChanged: bool)
      modifies this
      ensures ok <==> ApplyBootstrap(old(Current()), b).Some?
      ensures Current() == if ok then ApplyBootstrap(old(Current()), b).value else old(Current())
      ensures ok ==> (authorityChanged <==>
                        || Some(b.server) != old(server)
                        || Some(b.epoch) != old(epoch)
                        || Some(b.session) != old(sessionId))
    {
      if !b.snapshot.valid {
        return false, false;
      }
      authorityChanged := server != Some(b.server) || epoch != Some(b.epoch) || sessionId != Some(b.session);
      server, epoch, sessionId := Some(b.server), Some(b.epoch), Some(b.session);
      sequence, session := b.sequence, Some(b.snapshot.session);
      var gathered := ReplaceTerminals(b.terminals);
      kept := gathered.(agents := Agents(b.agents), unseen := UnseenAgents(b.agents), git := b.git,
                        zoomed := b.zoomed, settings := b.settings);
      assert kept == KeptOf(b);
      return true, authorityChanged;
    }

    method ReplaceLayout(snapshot: Snapshot, zoomed: set<PaneId>) returns (ok: bool)
      modifies this
      ensures ok <==> ApplyLayout(old(Current()), snapshot, zoomed).Some?
      ensures Current() == if ok then ApplyLayout(old(Current()), snapshot, zoomed).value else old(Current())
    {
      if !snapshot.valid {
        return false;
      }
      var live := snapshot.session.panes;
      session := Some(snapshot.session);
      kept := Prune(kept, snapshot.session, zoomed);
      terminals, links := OnlyIn(terminals, live), links * live;
      return true;
    }

    method Watch(panes: set<PaneId>)
      modifies this
      ensures Current() == WatchTerminals(old(Current()), panes)
    {
      terminals, links := OnlyIn(terminals, panes), links * panes;
      watched := Some(panes);
    }

    /** The frames the model wants, in order. */
    method Retain(frames: seq<PaneFrame>) returns (retained: seq<PaneFrame>)
      ensures retained == Wanted(Current(), frames)
    {
      retained := [];
      for k := 0 to |frames|
        invariant retained == Wanted(Current(), frames[..k])
      {
        assert frames[..k + 1][..k] == frames[..k];
        var frame := frames[k];
        if watched.None? || (Watches(watched, frame.pane) && (frame.pane in terminals || frame.frame.Full?)) {
          retained := retained + [frames[k]];
        }
      }
      assert frames[..|frames|] == frames;
    }

    method ValidateFrames(frames: seq<PaneFrame>) returns (ok: bool)
      ensures ok <==> FramesApply(Current(), frames)
    {
      var seen := {};
      for k := 0 to |frames|
        invariant FramesApply(Current(), frames[..k])
        invariant forall pane :: pane in seen <==> Names(frames[..k], pane)
      {
        var pane, frame := frames[k].pane, frames[k].frame;
        assert frames[..k + 1][..k] == frames[..k] && frames[..k + 1][k] == frames[k];
        if pane in seen {
          assert !DistinctPanes(frames) by {
            var j :| 0 <= j < k && frames[..k][j].pane == pane;
            assert frames[j].pane == frames[k].pane;
          }
          return false;
        }
        if pane in terminals {
          if pane !in links || !(frame.Full? || Validates(terminals[pane], frame.delta)) {
            return false;
          }
        } else if !frame.Full? {
          return false;
        }
        OneMoreApplies(Current(), frames[..k], frames[k]);
        forall other ensures other in seen + {pane} <==> Names(frames[..k + 1], other) {
          NamesFront(frames[..k + 1], other);
        }
        assert frames[..k + 1] == frames[..k] + [frames[k]];
        seen := seen + {pane};
      }
      assert frames[..|frames|] == frames;
      return true;
    }

    method ApplyFrames(frames: seq<PaneFrame>) returns (ok: bool, changed: set<PaneId>)
      modifies this`terminals, this`links
      ensures ok <==> ApplyTerminalFrames(old(Current()), frames).Some?
      ensures Current() == if ok then ApplyTerminalFrames(old(Current()), frames).value else old(Current())
      ensures changed == if ok then PanesOf(Wanted(old(Current()), frames)) else {}
    {
      changed := {};
      var panes := Retain(frames);
      ok := ValidateFrames(panes);
      if !ok {
        return;
      }
      for k := 0 to |panes|
        invariant terminals == ShowAll(old(terminals), panes[..k])
        invariant links == old(links) + FullPanes(panes[..k])
        invariant changed == PanesOf(panes[..k])
      {
        var pane, frame := panes[k].pane, panes[k].frame;
        assert panes[..k + 1][..k] == panes[..k];
        StillApplies(old(Current()), panes, k);
        match frame {
          case Full(view) =>
            links := links + {pane};
            terminals := terminals[pane := view];
          case Diff(delta) =>
            // Validated: the terminal and its budget are still there, and the delta fits.
            assert pane in terminals && pane in links && Validates(terminals[pane], delta);
            terminals := terminals[pane := ApplyDelta(terminals[pane], delta)];
        }
        changed := changed + {pane};
      }
      assert panes[..|panes|] == panes;
    }
  }

  lemma OneMoreApplies(m: Model, frames: seq<PaneFrame>, next: PaneFrame)
    requires FramesApply(m, frames) && !Names(frames, next.pane)
    requires Accepts(Lookup(m.terminals, next.pane), next.frame)
    requires next.pane in m.terminals ==> next.pane in m.links
    ensures FramesApply(m, frames + [next])
  {
    var all := frames + [next];
    forall i, j | 0 <= i < j < |all| ensures all[i].pane != all[j].pane {
      if j == |frames| { assert frames[i].pane != next.pane; }
    }
  }

  /** A frame of a validated batch still applies when its turn comes: the batch names no Pane twice. */
  lemma StillApplies(m: Model, frames: seq<PaneFrame>, k: nat)
    requires FramesApply(m, frames) && k < |frames|
    ensures Lookup(ShowAll(m.terminals, frames[..k]), frames[k].pane) == Lookup(m.terminals, frames[k].pane)
    ensures Accepts(Lookup(m.terminals, frames[k].pane), frames[k].frame)
    ensures frames[k].frame.Diff? ==> frames[k].pane in m.links
  {
    assert !Names(frames[..k], frames[k].pane);
    ShowAllElsewhere(m.terminals, frames[..k], frames[k].pane);
  }

  // ----- What every operation keeps -----

  /** Terminals and hyperlink budgets go together, and only for watched Panes. */
  predicate Matched(m: Model) {
    m.terminals.Keys == m.links && (m.watched.Some? ==> m.links <= m.watched.value)
  }

  lemma {:induction false} ViewsAreWatched(records: seq<TerminalRecord>, watched: Option<set<PaneId>>)
    ensures forall pane :: pane in Views(records, watched) ==> Watches(watched, pane)
  {
    if records != [] { ViewsAreWatched(records[..|records| - 1], watched); }
  }

  lemma BootstrapMatches(m: Model, b: SessionBootstrap)
    requires ApplyBootstrap(m, b).Some?
    ensures Matched(ApplyBootstrap(m, b).value)
  {
    ViewsAreWatched(b.terminals, m.watched);
  }

  lemma LayoutMatches(m: Model, snapshot: Snapshot, zoomed: set<PaneId>)
    requires Matched(m) && ApplyLayout(m, snapshot, zoomed).Some?
    ensures Matched(ApplyLayout(m, snapshot, zoomed).value)
  {
    assert OnlyIn(m.terminals, snapshot.session.panes).Keys == m.links * snapshot.session.panes;
  }

  lemma WatchMatches(m: Model, panes: set<PaneId>)
    requires Matched(m)
    ensures Matched(WatchTerminals(m, panes))
  {
    assert OnlyIn(m.terminals, panes).Keys == m.links * panes;
  }

  lemma {:induction false} ShownPanes(terminals: Terminals, frames: seq<PaneFrame>)
    requires BatchApplies(terminals, frames)
    ensures ShowAll(terminals, frames).Keys == terminals.Keys + FullPanes(frames)
  {
    if frames != [] {
      var k := |frames| - 1;
      ShownPanes(terminals, frames[..k]);
      assert !Names(frames[..k], frames[k].pane);
      ShowAllElsewhere(terminals, frames[..k], frames[k].pane);
    }
  }

  lemma {:induction false} WantedAreWatched(m: Model, frames: seq<PaneFrame>)
    ensures m.watched.Some? ==> FullPanes(Wanted(m, frames)) <= m.watched.value
  {
    if frames != [] {
      WantedAreWatched(m, frames[..|frames| - 1]);
      var front, last := Wanted(m, frames[..|frames| - 1]), frames[|frames| - 1];
      assert (front + [last])[..|front|] == front;
    }
  }

  lemma FramesMatch(m: Model, frames: seq<PaneFrame>)
    requires Matched(m) && ApplyTerminalFrames(m, frames).Some?
    ensures Matched(ApplyTerminalFrames(m, frames).value)
  {
    ShownPanes(m.terminals, Wanted(m, frames));
    WantedAreWatched(m, frames);
  }
}

/**
 How the phone follows one Device's Session (crates/condr-mobile/src/companion.rs): a Bootstrap
 gives the state at one point of the Server's event log, and each event is applied only as the next
 in sequence. Whatever is lost, repeated or reordered on the way, the phone shows the log up to its
 cursor.
 */
module EventReplay {
  import opened Wrappers
  import opened VisualSlot
  import opened ClientTerminals
  import opened FrameLinks
  import opened SessionModels
  import Notices = CompanionNotices

  const U64_MAX: nat := 0xFFFF_FFFF_FFFF_FFFF

  datatype Subscription = Unsubscribed | Asked | Active

  datatype Status = Suspended | Connected | Failed

  /** What the phone asks of the Server about its Session. */
  datatype Request = Subscribe(session: nat, after: nat) | SnapshotRequest(session: nat)

  /** The Device's connection state beside its model; `sent` holds what the present connection was asked. */
  datatype Device = Device(
    model: Model,
    generation: nat,
    connected: bool,
    status: Status,
    subscription: Subscription,
    snapshotPending: bool,
    sent: seq<Request>)

  datatype Message =
    | Event(server: nat, session: nat, sequence: nat, event: SessionEvent)
    | Subscribed
    | Rejected
    | ServerStopping
    | TerminalClipboard(pane: PaneId, text: nat)
    | TerminalCopied(copied: Option<nat>)
    | ErrorMessage(text: nat)
    | Unknown
    | Other

  datatype Incoming =
    | InBootstrap(bootstrap: SessionBootstrap)
    | InFrames(server: nat, session: nat, frames: seq<PaneFrame>)
    | TerminalResync
    | Disconnected
    | InMessage(message: Message)

  function SaturatingNext(sequence: nat): nat {
    if sequence >= U64_MAX then U64_MAX else sequence + 1
  }

  function Send(d: Device, request: Request): Device {
    if d.connected then d.(sent := d.sent + [request]) else d
  }

  function RequestSnapshot(d: Device): Device {
    if d.snapshotPending || d.model.sessionId.None? then d
    else Send(d, SnapshotRequest(d.model.sessionId.value)).(snapshotPending := true)
  }

  function SubscribeTo(d: Device): Device {
    if !d.subscription.Unsubscribed? || d.model.sessionId.None? then d
    else Send(d, Subscribe(d.model.sessionId.value, d.model.sequence)).(subscription := Asked)
  }

  function Disconnect(d: Device): Device {
    Device(d.model, d.generation + 1, false, d.status, Unsubscribed, false, [])
  }

  /** The connection is over, and the app is to see that it failed. */
  function Fail(d: Device): Device {
    Disconnect(d).(status := Failed)
  }

  /** One event: only the next in sequence, of this Server and Session, is applied. */
  function OnEvent(d: Device, m: Message, shown: Option<PaneId>): Device
    requires m.Event?
  {
    var model := d.model;
    if model.server != Some(m.server) || model.sessionId != Some(m.session) then d
    else if m.sequence != SaturatingNext(model.sequence) then
      if m.sequence > model.sequence then RequestSnapshot(d.(subscription := Unsubscribed)) else d
    else if m.event.LayoutChanged? then
      match ApplyLayout(model, m.event.snapshot, m.event.zoomed)
      case Some(next) => d.(model := next.(sequence := m.sequence))
      case None => RequestSnapshot(d.(subscription := Unsubscribed))
    else d.(model := model.(sequence := m.sequence, kept := ApplyKept(model.kept, m.event, shown)))
  }

  function OnMessage(d: Device, m: Message, shown: Option<PaneId>): Device {
    match m
    case Event(_, _, _, _) => OnEvent(d, m, shown)
    case Subscribed => d.(subscription := Active)
    case Rejected => RequestSnapshot(d.(subscription := Unsubscribed, snapshotPending := false))
    case ServerStopping => Fail(d)
    case Unknown => RequestSnapshot(d)
    case _ => d
  }

  function SeenBy(m: Model, shown: Option<PaneId>): Model {
    if shown.Some? then m.(kept := m.kept.(unseen := m.kept.unseen - {shown.value})) else m
  }

  function OnBootstrap(d: Device, b: SessionBootstrap, shown: Option<PaneId>): Device {
    match ApplyBootstrap(d.model, b)
    case None => Fail(d)
    case Some(next) =>
      var changed := d.model.server != Some(b.server) || d.model.epoch != Some(b.epoch)
                     || d.model.sessionId != Some(b.session);
      SubscribeTo(d.(model := SeenBy(next, shown), snapshotPending := false,
                     subscription := if changed then Unsubscribed else d.subscription))
  }

  function OnFrames(d: Device, server: nat, session: nat, frames: seq<PaneFrame>): Device {
    if d.model.server != Some(server) || d.model.sessionId != Some(session) then d
    else
      match ApplyTerminalFrames(d.model, frames)
      case None => RequestSnapshot(d)
      case Some(next) => d.(model := next)
  }

  /** What a connection delivered, unless a newer one has replaced it. */
  function Apply(d: Device, generation: nat, incoming: Incoming, shown: Option<PaneId>): Device {
    if d.generation != generation then d
    else
      match incoming
      case InBootstrap(b) => OnBootstrap(d, b, shown)
      case InFrames(server, session, frames) => OnFrames(d, server, session, frames)
      case TerminalResync => RequestSnapshot(d)
      case Disconnected => Fail(d)
      case InMessage(m) => OnMessage(d, m, shown)
  }

  const NewDevice: Device := Device(NewModel, 0, false, Suspended, Unsubscribed, false, [])

  // ----- What the app is told of it -----

  function TerminalChanges(address: Notices.Address, panes: set<PaneId>): set<Notices.Change> {
    set pane | pane in panes :: Notices.TerminalChange(address, pane)
  }

  /** The changes an event applied as the next in sequence stands for; some are kept and not drawn. */
  function EventChanges(address: Notices.Address, event: SessionEvent): set<Notices.Change> {
    match event
    case LayoutChanged(snapshot, _) => if snapshot.valid then {Notices.DeviceChange(address)} else {}
    case TerminalExited(pane) => {Notices.DeviceChange(address), Notices.TerminalChange(address, pane)}
    case AgentChanged(_, _) => {Notices.DeviceChange(address)}
    case TerminalTitleChanged(_, _) => {Notices.DeviceChange(address)}
    case TerminalAttentionChanged(_, _) => {Notices.DeviceChange(address)}
    case AgentUnseenChanged(_, _) => {Notices.DeviceChange(address)}
    case _ => {}
  }

  predicate IsNext(m: Model, e: Message)
    requires e.Event?
  {
    m.server == Some(e.server) && m.sessionId == Some(e.session) && e.sequence == SaturatingNext(m.sequence)
  }

  function MessageChanges(address: Notices.Address, d: Device, m: Message): set<Notices.Change> {
    match m
    case Event(_, _, _, event) => if IsNext(d.model, m) then EventChanges(address, event) else {}
    case ServerStopping => {Notices.Devices}
    case _ => {}
  }

  function FrameChanges(address: Notices.Address, d: Device, server: nat, session: nat, frames: seq<PaneFrame>)
    : set<Notices.Change>
  {
    if d.model.server == Some(server) && d.model.sessionId == Some(session)
       && ApplyTerminalFrames(d.model, frames).Some?
    then TerminalChanges(address, PanesOf(Wanted(d.model, frames)))
    else {}
  }

  function BootstrapChanges(address: Notices.Address, d: Device, b: SessionBootstrap): set<Notices.Change> {
    match ApplyBootstrap(d.model, b)
    case None => {Notices.Devices}
    case Some(next) => {Notices.DeviceChange(address)} + TerminalChanges(address, next.terminals.Keys)
  }

  /** What is marked for the app: if anything changed, also the Device's lists and who needs the person. */
  function Touched(address: Notices.Address, changes: set<Notices.Change>): set<Notices.Change> {
    if changes == {} then {} else changes + {Notices.DeviceChange(address), Notices.NeedsYou}
  }

  function Changes(address: Notices.Address, d: Device, generation: nat, incoming: Incoming): set<Notices.Change> {
    if d.generation != generation then {}
    else
      Touched(address,
              match incoming
              case InBootstrap(b) => BootstrapChanges(address, d, b)
              case InFrames(server, session, frames) => FrameChanges(address, d, server, session, frames)
              case TerminalResync => {}
              case Disconnected => {Notices.Devices}
              case InMessage(m) => MessageChanges(address, d, m))
  }

  /** The one-time results: a copy the person asked for, an error, or what the Pane on screen copied. */
  function Results(address: Notices.Address, m: Message, shown: Option<PaneId>): seq<Notices.Event> {
    match m
    case TerminalClipboard(pane, text) => if shown == Some(pane) then [Notices.Clipboard(text)] else []
    case TerminalCopied(copied) => if copied.Some? then [Notices.Copied(copied.value)] else []
    case ErrorMessage(text) => [Notices.ErrorEvent(address, text)]
    case _ => []
  }

  // ----- What a message does to the model -----

  /** Asking the Server for something changes nothing that is shown. */
  lemma AskingKeepsModel(d: Device)
    ensures RequestSnapshot(d).model == d.model && SubscribeTo(d).model == d.model
  {
  }

  /** What an event leaves of the model, or makes of it. */
  lemma EventModel(d: Device, m: Message, shown: Option<PaneId>)
    requires m.Event?
    ensures var after := OnEvent(d, m, shown).model;
            && (after == d.model || IsNext(d.model, m))
            && (IsNext(d.model, m) ==>
                  match m.event
                  case LayoutChanged(snapshot, zoomed) =>
                    after == if !snapshot.valid then d.model
                             else ApplyLayout(d.model, snapshot, zoomed).value.(sequence := m.sequence)
                  case _ => after == d.model.(sequence := m.sequence, kept := ApplyKept(d.model.kept, m.event, shown)))
  {
    AskingKeepsModel(d.(subscription := Unsubscribed));
  }

  /** Apart from a Bootstrap only the next event moves the cursor. */
  lemma CursorMoves(d: Device, generation: nat, incoming: Incoming, shown: Option<PaneId>)
    requires !incoming.InBootstrap?
    ensures var after := Apply(d, generation, incoming, shown).model;
            after.sequence == d.model.sequence
            || (&& generation == d.generation && incoming.InMessage? && incoming.message.Event?
                && IsNext(d.model, incoming.message) && after.sequence == incoming.message.sequence)
  {
    if incoming.InMessage? && incoming.message.Event? {
      EventModel(d, incoming.message, shown);
    }
  }

  // ----- Whatever the app shows and has changed is marked -----

  /** What the app's lists of a Device are made of. */
  datatype Lists = Lists(
    session: Option<Session>,
    titles: map<PaneId, nat>,
    agents: map<PaneId, nat>,
    unseen: set<PaneId>,
    attention: set<PaneId>,
    exited: set<PaneId>)

  function ListsOf(m: Model): Lists {
    Lists(m.session, m.kept.titles, m.kept.agents, m.kept.unseen, m.kept.attention, m.kept.exited)
  }

  lemma {:induction false} ChangedPanesAreNamed(frames: seq<PaneFrame>, pane: PaneId)
    ensures pane in PanesOf(frames) <==> Names(frames, pane)
    decreases |frames|
  {
    if frames != [] {
      ChangedPanesAreNamed(frames[..|frames| - 1], pane);
      NamesFront(frames, pane);
    }
  }

  lemma FramesMarkViews(m: Model, frames: seq<PaneFrame>, pane: PaneId)
    requires ApplyTerminalFrames(m, frames).Some?
    requires var after := ApplyTerminalFrames(m, frames).value;
             Lookup(after.terminals, pane) != Lookup(m.terminals, pane)
    ensures pane in ApplyTerminalFrames(m, frames).value.terminals && pane in PanesOf(Wanted(m, frames))
  {
    var wanted := Wanted(m, frames);
    ChangedPanesAreNamed(wanted, pane);
    if !Names(wanted, pane) {
      ShowAllElsewhere(m.terminals, wanted, pane);
    }
    ShownPanes(m.terminals, wanted);
  }

  /** Only frames, a layout and a Bootstrap change views. */
  lemma OtherwiseSameViews(d: Device, generation: nat, incoming: Incoming, shown: Option<PaneId>)
    requires !incoming.InFrames? && !incoming.InBootstrap?
    requires !(incoming.InMessage? && incoming.message.Event? && incoming.message.event.LayoutChanged?)
    ensures Apply(d, generation, incoming, shown).model.terminals == d.model.terminals
  {
  }

  /** A view that changed is marked, or it is gone and its Device is marked. */
  lemma ChangedViewIsMarked(address: Notices.Address, d: Device, generation: nat, incoming: Incoming,
                            shown: Option<PaneId>, pane: PaneId)
    requires var after := Apply(d, generation, incoming, shown);
             Lookup(after.model.terminals, pane) != Lookup(d.model.terminals, pane)
    ensures var after, marks := Apply(d, generation, incoming, shown), Changes(address, d, generation, incoming);
            && (Notices.TerminalChange(address, pane) in marks <==> pane in after.model.terminals)
            && Notices.DeviceChange(address) in marks
  {
    if incoming.InFrames? {
      FramesMarkViews(d.model, incoming.frames, pane);
    } else if !incoming.InBootstrap? && !(incoming.InMessage? && incoming.message.Event?
                                          && incoming.message.event.LayoutChanged?) {
      OtherwiseSameViews(d, generation, incoming, shown);
    }
  }

  lemma ChangedStatusIsMarked(address: Notices.Address, d: Device, generation: nat, incoming: Incoming,
                              shown: Option<PaneId>)
    requires Apply(d, generation, incoming, shown).status != d.status
    ensures var marks := Changes(address, d, generation, incoming);
            Notices.Devices in marks && Notices.NeedsYou in marks
  {
  }

  lemma ChangedListsAreMarked(address: Notices.Address, d: Device, generation: nat, incoming: Incoming,
                              shown: Option<PaneId>)
    requires ListsOf(Apply(d, generation, incoming, shown).model) != ListsOf(d.model)
    ensures var marks := Changes(address, d, generation, incoming);
            Notices.DeviceChange(address) in marks && Notices.NeedsYou in marks
  {
    if incoming.InMessage? && incoming.message.Event? && d.generation == generation {
      EventModel(d, incoming.message, shown);
      assert EventChanges(address, incoming.message.event) != {};
    }
  }

  /**
   Whatever of the app's screens a message changes is marked for it: the Device's status, its
   lists, who needs the person, and each Pane's view, unless the view is gone with its Pane.
   */
  lemma ShownChangesAreMarked(address: Notices.Address, d: Device, generation: nat, incoming: Incoming,
                              shown: Option<PaneId>)
    ensures var after, marks := Apply(d, generation, incoming, shown), Changes(address, d, generation, incoming);
            && (after.status != d.status ==> Notices.Devices in marks && Notices.NeedsYou in marks)
            && (ListsOf(after.model) != ListsOf(d.model) ==>
                  Notices.DeviceChange(address) in marks && Notices.NeedsYou in marks)
            && (forall pane :: Lookup(after.model.terminals, pane) != Lookup(d.model.terminals, pane) ==>
                  && (Notices.TerminalChange(address, pane) in marks <==> pane in after.model.terminals)
                  && Notices.DeviceChange(address) in marks)
  {
    var after := Apply(d, generation, incoming, shown);
    if after.status != d.status {
      ChangedStatusIsMarked(address, d, generation, incoming, shown);
    }
    if ListsOf(after.model) != ListsOf(d.model) {
      ChangedListsAreMarked(address, d, generation, incoming, shown);
    }
    forall pane | Lookup(after.model.terminals, pane) != Lookup(d.model.terminals, pane)
      ensures var marks := Changes(address, d, generation, incoming);
              && (Notices.TerminalChange(address, pane) in marks <==> pane in after.model.terminals)
              && Notices.DeviceChange(address) in marks
    {
      ChangedViewIsMarked(address, d, generation, incoming, shown, pane);
    }
  }

  // ----- The Device as the source runs it -----

  class CompanionDevice {
    const model: SessionModel
    var generation: nat
    var connected: bool
    var status: Status
    var subscription: Subscription
    var snapshotPending: bool
    var sent: seq<Request>

    ghost function Current(): Device
      reads this, model
    {
      Device(model.Current(), generation, connected, status, subscription, snapshotPending, sent)
    }

    constructor ()
      ensures Current() == NewDevice && fresh(model)
    {
      model := new SessionModel();
      generation, connected, status, subscription, snapshotPending := 0, false, Suspended, Unsubscribed, false;
      sent := [];
    }

    method SendRequest(request: Request)
      modifies this`sent
      ensures Current() == Send(old(Current()), request)
    {
      if connected {
        sent := sent + [request];
      }
    }

    method AskForSnapshot()
      modifies this`snapshotPending, this`sent
      ensures Current() == RequestSnapshot(old(Current()))
    {
      if !snapshotPending && model.sessionId.Some? {
        SendRequest(SnapshotRequest(model.sessionId.value));
        snapshotPending := true;
      }
    }

    method SubscribeAgain()
      modifies this`subscription, this`sent
      ensures Current() == SubscribeTo(old(Current()))
    {
      if subscription == Unsubscribed && model.sessionId.Some? {
        SendRequest(Subscribe(model.sessionId.value, model.sequence));
        subscription := Asked;
      }
    }

    method EndConnection()
      modifies this
      ensures Current() == Disconnect(old(Current()))
    {
      generation, connected, subscription, snapshotPending := generation + 1, false, Unsubscribed, false;
      sent := [];
    }

    method FailConnection()
      modifies this
      ensures Current() == Fail(old(Current()))
    {
      EndConnection();
      status := Failed;
    }

    method HandleEvent(address: Notices.Address, m: Message, shown: Option<PaneId>)
      returns (changes: set<Notices.Change>)
      requires m.Event?
      modifies this, model
      ensures Current() == OnEvent(old(Current()), m, shown)
      ensures changes == MessageChanges(address, old(Current()), m)
    {
      changes := {};
      if model.server != Some(m.server) || model.sessionId != Some(m.session) {
        return;
      }
      if m.sequence != SaturatingNext(model.sequence) {
        if m.sequence > model.sequence {
          subscription := Unsubscribed;
          AskForSnapshot();
        }
        return;
      }
      changes := EventChanges(address, m.event);
      // Any event but a layout moves the cursor at once; a layout only when it can be restored.
      if !m.event.LayoutChanged? {
        model.sequence := m.sequence;
        model.kept := ApplyKept(model.kept, m.event, shown);
        return;
      }
      var ok := model.ReplaceLayout(m.event.snapshot, m.event.zoomed);
      if ok {
        model.sequence := m.sequence;
      } else {
        subscription := Unsubscribed;
        AskForSnapshot();
      }
    }

    method HandleBootstrap(address: Notices.Address, b: SessionBootstrap, shown: Option<PaneId>)
      returns (changes: set<Notices.Change>)
      modifies this, model
      ensures Current() == OnBootstrap(old(Current()), b, shown)
      ensures changes == BootstrapChanges(address, old(Current()), b)
    {
      var ok, changed := model.ReplaceAll(b);
      if !ok {
        FailConnection();
        return {Notices.Devices};
      }
      if shown.Some? {
        model.kept := model.kept.(unseen := model.kept.unseen - {shown.value});
      }
      snapshotPending := false;
      if changed {
        subscription := Unsubscribed;
      }
      SubscribeAgain();
      changes := {Notices.DeviceChange(address)} + TerminalChanges(address, model.terminals.Keys);
    }

    method HandleFrames(address: Notices.Address, server: nat, session: nat, frames: seq<PaneFrame>)
      returns (changes: set<Notices.Change>)
      modifies this, model
      ensures Current() == OnFrames(old(Current()), server, session, frames)
      ensures changes == FrameChanges(address, old(Current()), server, session, frames)
    {
      changes := {};
      if model.server == Some(server) && model.sessionId == Some(session) {
        var ok, panes := model.ApplyFrames(frames);
        if ok {
          changes := TerminalChanges(address, panes);
        } else {
          AskForSnapshot();
        }
      }
    }

    method HandleMessage(address: Notices.Address, m: Message, shown: Option<PaneId>)
      returns (changes: set<Notices.Change>, results: seq<Notices.Event>)
      modifies this, model
      ensures Current() == OnMessage(old(Current()), m, shown)
      ensures changes == MessageChanges(address, old(Current()), m)
      ensures results == Results(address, m, shown)
    {
      changes, results := {}, [];
      match m {
        case Event(_, _, _, _) => changes := HandleEvent(address, m, shown);
        case Subscribed => subscription := Active;
        case Rejected =>
          subscription, snapshotPending := Unsubscribed, false;
          AskForSnapshot();
        case ServerStopping =>
          FailConnection();
          changes := {Notices.Devices};
        case TerminalClipboard(pane, text) =>
          if shown == Some(pane) {
            results := [Notices.Clipboard(text)];
          }
        case TerminalCopied(copied) =>
          if copied.Some? {
            results := [Notices.Copied(copied.value)];
          }
        case ErrorMessage(text) => results := [Notices.ErrorEvent(address, text)];
        case Unknown => AskForSnapshot();
        case Other =>
      }
    }

    method HandleIncoming(address: Notices.Address, from: nat, incoming: Incoming, shown: Option<PaneId>)
      returns (changes: set<Notices.Change>, results: seq<Notices.Event>)
      modifies this, model
      ensures Current() == Apply(old(Current()), from, incoming, shown)
      ensures changes == Changes(address, old(Current()), from, incoming)
      ensures results == if old(generation) != from || !incoming.InMessage? then []
                         else Results(address, incoming.message, shown)
    {
      changes, results := {}, [];
      if generation != from {
        return;
      }
      match incoming {
        case InBootstrap(b) => changes := HandleBootstrap(address, b, shown);
        case InFrames(server, session, frames) => changes := HandleFrames(address, server, session, frames);
        case TerminalResync => AskForSnapshot();
        case Disconnected =>
          FailConnection();
          changes := {Notices.Devices};
        case InMessage(m) => changes, results := HandleMessage(address, m, shown);
      }
      if changes != {} {
        changes := changes + {Notices.DeviceChange(address), Notices.NeedsYou};
      }
    }
  }

  // ----- The Server's log -----

  /** What the Server and its Clients share, at one point of the log. */
  datatype Shared = Shared(session: Session, kept: Kept)

  /** The Server's log since its Session began. */
  datatype Server = Server(id: nat, session: nat, start: Shared, log: seq<SessionEvent>)

  /** What an event means. */
  function Effect(s: Shared, event: SessionEvent): Shared {
    match event
    case LayoutChanged(snapshot, zoomed) => Shared(snapshot.session, Prune(s.kept, snapshot.session, zoomed))
    case _ => s.(kept := ApplyKept(s.kept, event, None))
  }

  function Fold(start: Shared, log: seq<SessionEvent>): Shared {
    if log == [] then start else Effect(Fold(start, log[..|log| - 1]), log[|log| - 1])
  }

  predicate Publishable(event: SessionEvent) {
    event.LayoutChanged? ==> event.snapshot.valid
  }

  /** The Bootstrap is the Server's state at its sequence. */
  predicate Authentic(server: Server, b: SessionBootstrap) {
    && b.server == server.id && b.session == server.session && b.snapshot.valid && b.sequence <= |server.log|
    && Shared(b.snapshot.session, KeptOf(b)) == Fold(server.start, server.log[..b.sequence])
  }

  /** The message is one the Server sent, or a layout that was garbled on the way, or of another Session. */
  predicate FromServer(server: Server, m: Message) {
    m.Event? && m.server == server.id && m.session == server.session ==>
      && 1 <= m.sequence <= |server.log|
      && (m.event == server.log[m.sequence - 1] || (m.event.LayoutChanged? && !m.event.snapshot.valid))
  }

  /** What may reach the phone: any message again and again, in any order, or never. */
  predicate MayArrive(server: Server, incoming: Incoming) {
    match incoming
    case InBootstrap(b) => !b.snapshot.valid || Authentic(server, b)
    case InMessage(m) => FromServer(server, m)
    case _ => true
  }

  datatype Action =
    | Publishes(event: SessionEvent)
    | Arrives(generation: nat, incoming: Incoming, shown: Option<PaneId>)
    | WatchesOnly(panes: set<PaneId>)
    | LooksAt(pane: PaneId)
    | Reconnects

  datatype System = System(server: Server, device: Device)

  /** One step; what the Server cannot publish or send changes nothing. */
  function Step(s: System, a: Action): System {
    match a
    case Publishes(event) =>
      if Publishable(event) then s.(server := s.server.(log := s.server.log + [event])) else s
    case Arrives(generation, incoming, shown) =>
      if MayArrive(s.server, incoming) then s.(device := Apply(s.device, generation, incoming, shown)) else s
    case WatchesOnly(panes) => s.(device := s.device.(model := WatchTerminals(s.device.model, panes)))
    case LooksAt(pane) => s.(device := s.device.(model := SeenBy(s.device.model, Some(pane))))
    case Reconnects => s.(device := Disconnect(s.device).(connected := true, status := Connected))
  }

  function After(s: System, actions: seq<Action>): System {
    if actions == [] then s else Step(After(s, actions[..|actions| - 1]), actions[|actions| - 1])
  }

  function NewSystem(id: nat, session: nat, start: Shared): System {
    System(Server(id, session, start, []), NewDevice)
  }

  // ----- What every step keeps -----

  /** The same but for which Agents are unseen, which depends on what the person looks at. */
  predicate Alike(a: Kept, b: Kept) {
    a.(unseen := {}) == b.(unseen := {})
  }

  /** The model is the log up to its cursor. */
  predicate Exact(server: Server, m: Model) {
    && m.sequence <= |server.log|
    && m.session.Some? && m.session.value == Fold(server.start, server.log[..m.sequence]).session
    && Alike(m.kept, Fold(server.start, server.log[..m.sequence]).kept)
  }

  /** A snapshot that is waited for was asked for on the present connection. */
  predicate Asking(d: Device, session: nat) {
    d.connected && d.snapshotPending ==> SnapshotRequest(session) in d.sent
  }

  predicate Sound(s: System) {
    var m := s.device.model;
    && (forall k :: 0 <= k < |s.server.log| ==> Publishable(s.server.log[k]))
    && Matched(m)
    && Asking(s.device, s.server.session)
    && if m.server.None? then m.session.None? && m.sessionId.None?
       else m.server == Some(s.server.id) && m.sessionId == Some(s.server.session) && Exact(s.server, m)
  }

  lemma NextIsExact(server: Server, d: Device, m: Message, shown: Option<PaneId>)
    requires |server.log| < U64_MAX && Exact(server, d.model) && FromServer(server, m) && m.Event?
    requires m.server == server.id && m.session == server.session
    ensures Exact(server, OnEvent(d, m, shown).model)
  {
    var n := d.model.sequence;
    EventModel(d, m, shown);
    if m.sequence == n + 1 {
      assert server.log[..n + 1][..n] == server.log[..n];
      assert server.log[..n + 1][n] == server.log[n];
    }
  }

  lemma EventKeeps(s: System, generation: nat, m: Message, shown: Option<PaneId>)
    requires Sound(s) && |s.server.log| < U64_MAX && m.Event? && FromServer(s.server, m)
    ensures Sound(Step(s, Arrives(generation, InMessage(m), shown)))
  {
    var d := s.device;
    if d.generation == generation && d.model.server == Some(m.server) && d.model.sessionId == Some(m.session) {
      NextIsExact(s.server, d, m, shown);
      if m.event.LayoutChanged? && ApplyLayout(d.model, m.event.snapshot, m.event.zoomed).Some? {
        LayoutMatches(d.model, m.event.snapshot, m.event.zoomed);
      }
    }
  }

  lemma BootstrapKeeps(s: System, generation: nat, b: SessionBootstrap, shown: Option<PaneId>)
    requires Sound(s) && MayArrive(s.server, InBootstrap(b))
    ensures Sound(Step(s, Arrives(generation, InBootstrap(b), shown)))
  {
    if b.snapshot.valid { BootstrapMatches(s.device.model, b); }
  }

  lemma FramesKeep(s: System, generation: nat, server: nat, session: nat, frames: seq<PaneFrame>, shown: Option<PaneId>)
    requires Sound(s)
    ensures Sound(Step(s, Arrives(generation, InFrames(server, session, frames), shown)))
  {
    if ApplyTerminalFrames(s.device.model, frames).Some? { FramesMatch(s.device.model, frames); }
  }

  lemma PublishKeeps(s: System, event: SessionEvent)
    requires Sound(s)
    ensures Sound(Step(s, Publishes(event)))
  {
    var m := s.device.model;
    if m.server.Some? {
      assert (s.server.log + [event])[..m.sequence] == s.server.log[..m.sequence];
    }
  }

  lemma StepKeeps(s: System, a: Action)
    requires Sound(s) && |s.server.log| < U64_MAX
    ensures Sound(Step(s, a))
  {
    match a {
      case Publishes(event) => PublishKeeps(s, event);
      case Arrives(generation, incoming, shown) =>
        if MayArrive(s.server, incoming) {
          match incoming {
            case InBootstrap(b) => BootstrapKeeps(s, generation, b, shown);
            case InFrames(server, session, frames) => FramesKeep(s, generation, server, session, frames, shown);
            case InMessage(m) => if m.Event? { EventKeeps(s, generation, m, shown); }
            case _ =>
          }
        }
      case WatchesOnly(panes) => WatchMatches(s.device.model, panes);
      case LooksAt(_) =>
      case Reconnects =>
    }
  }

  lemma LogGrows(s: System, a: Action)
    ensures |s.server.log| <= |Step(s, a).server.log| <= |s.server.log| + 1
    ensures s.server.log <= Step(s, a).server.log
  {
  }

  // ----- Over whole runs -----

  /** However events and Bootstraps are lost, repeated and reordered, the model is the log up to its cursor. */
  lemma {:induction false} ReplayIsExact(id: nat, session: nat, start: Shared, actions: seq<Action>)
    requires |actions| < U64_MAX
    ensures var s := After(NewSystem(id, session, start), actions);
            Sound(s) && |s.server.log| <= |actions|
  {
    if actions != [] {
      var before := After(NewSystem(id, session, start), actions[..|actions| - 1]);
      ReplayIsExact(id, session, start, actions[..|actions| - 1]);
      StepKeeps(before, actions[|actions| - 1]);
      LogGrows(before, actions[|actions| - 1]);
    }
  }

  /** The cursor moves only to the next event, when that event is the log's own, or to a Bootstrap. */
  lemma CursorMovesByOne(id: nat, session: nat, start: Shared, actions: seq<Action>, a: Action)
    requires |actions| < U64_MAX
    requires !(a.Arrives? && a.incoming.InBootstrap?)
    ensures var s := After(NewSystem(id, session, start), actions);
            var before, after := s.device.model, Step(s, a).device.model;
            after.sequence == before.sequence
            || (&& after.sequence == before.sequence + 1 <= |s.server.log|
                && a.Arrives? && a.generation == s.device.generation && a.incoming.InMessage?
                && a.incoming.message.Event? && a.incoming.message.event == s.server.log[before.sequence])
  {
    ReplayIsExact(id, session, start, actions);
    if a.Arrives? {
      CursorMoves(After(NewSystem(id, session, start), actions).device, a.generation, a.incoming, a.shown);
    }
  }

  /** A gap, or a layout that cannot be restored, changes nothing shown and leaves a new snapshot asked for. */
  lemma GapAsksForSnapshot(id: nat, session: nat, start: Shared, actions: seq<Action>, m: Message,
                           shown: Option<PaneId>)
    requires |actions| < U64_MAX && m.Event?
    requires var s := After(NewSystem(id, session, start), actions);
             && FromServer(s.server, m) && s.device.model.server == Some(m.server)
             && s.device.model.sessionId == Some(m.session)
             && m.sequence > s.device.model.sequence
             && (m.sequence > s.device.model.sequence + 1 || (m.event.LayoutChanged? && !m.event.snapshot.valid))
    ensures var s := After(NewSystem(id, session, start), actions);
            var after := Step(s, Arrives(s.device.generation, InMessage(m), shown));
            && after.device.model == s.device.model
            && after.device.snapshotPending && after.device.subscription.Unsubscribed?
            && (after.device.connected ==> SnapshotRequest(m.session) in after.device.sent)
  {
    ReplayIsExact(id, session, start, actions);
  }

  /** Whatever went wrong before, a Bootstrap of the whole log brings the phone up to date. */
  lemma BootstrapCatchesUp(id: nat, session: nat, start: Shared, actions: seq<Action>, b: SessionBootstrap,
                           shown: Option<PaneId>)
    requires |actions| < U64_MAX
    requires var s := After(NewSystem(id, session, start), actions);
             Authentic(s.server, b) && b.sequence == |s.server.log|
    ensures var s := After(NewSystem(id, session, start), actions);
            var after := Step(s, Arrives(s.device.generation, InBootstrap(b), shown)).device;
            && Alike(after.model.kept, Fold(start, s.server.log).kept)
            && after.model.session == Some(Fold(start, s.server.log).session)
            && after.model.sequence == |s.server.log| && !after.snapshotPending
  {
    var s := After(NewSystem(id, session, start), actions);
    StartStays(id, session, start, actions);
    assert s.server.log[..|s.server.log|] == s.server.log;
  }

  lemma {:induction false} StartStays(id: nat, session: nat, start: Shared, actions: seq<Action>)
    ensures After(NewSystem(id, session, start), actions).server.start == start
  {
    if actions != [] { StartStays(id, session, start, actions[..|actions| - 1]); }
  }

  /** Terminals and hyperlink budgets stay together and inside the watched set, so no validated frame can fail. */
  lemma TerminalsStayMatched(id: nat, session: nat, start: Shared, actions: seq<Action>, frames: seq<PaneFrame>, k: nat)
    requires |actions| < U64_MAX
    requires var m := After(NewSystem(id, session, start), actions).device.model;
             FramesApply(m, Wanted(m, frames)) && k < |Wanted(m, frames)|
    ensures var m := After(NewSystem(id, session, start), actions).device.model;
            var frame := Wanted(m, frames)[k];
            && Matched(m)
            && Accepts(Lookup(ShowAll(m.terminals, Wanted(m, frames)[..k]), frame.pane), frame.frame)
            && (frame.frame.Diff? ==> frame.pane in m.links)
  {
    ReplayIsExact(id, session, start, actions);
    var m := After(NewSystem(id, session, start), actions).device.model;
    StillApplies(m, Wanted(m, frames), k);
  }
}

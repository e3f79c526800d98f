/**
 The shared link for forwards and transfers (crates/condr-client/src/forward.rs): its first user
 dials it, its last one closes it, and in between one worker brings it back when it fails. Every section that
 holds the lock is one function here, with the connection it closes and whether it wakes everyone.
 */
module StreamLinks {
  import opened Wrappers

  type Conn = nat
  type CallerId = nat

  /** What the sections decide on; the texts that go with a status are not part of this model. */
  datatype LinkStatus = Idle | Connected | Reconnecting | Refused

  datatype Link = Link(
    users: nat,
    terminalUp: bool,
    connection: Option<Conn>,
    status: LinkStatus,
    worker: bool,
    dialing: bool,
    dials: nat,
    dialError: Option<nat>,
    nudge: nat)

  const NewLink: Link := Link(0, true, None, Idle, false, false, 0, None, 0)

  /** How a caller's `retain` goes on. */
  datatype Asked = Granted | MustDial | MustWait(dials: nat) | Denied(error: nat)

  /** What a section leaves: the state, the connection it closed and whether it notified all waiters. */
  datatype Effect = Effect(link: Link, closed: Option<Conn>, notify: bool)

  function Quiet(link: Link): Effect {
    Effect(link, None, false)
  }

  // ----- The callers' sections -----

  /** The outcome of `retain` where nobody is dialling. */
  function Ask(l: Link): (Effect, Asked) {
    if l.users > 0 && l.connection.Some? then (Quiet(l.(users := l.users + 1)), Granted)
    else if l.users > 0 then
      (Effect(l.(users := l.users + 1, status := Reconnecting, nudge := l.nudge + 1), None, true), Granted)
    else (Quiet(l.(dialing := true)), MustDial)
  }

  function StartRetain(l: Link): (Effect, Asked) {
    if l.dialing then (Quiet(l), MustWait(l.dials)) else Ask(l)
  }

  /** A waiting caller looks again: it shares the outcome of the dial it waited for. */
  function ResumeRetain(l: Link, dials: nat): (Effect, Asked) {
    if l.dials == dials then (Quiet(l), MustWait(dials))
    else if l.users == 0 && l.dialError.Some? then (Quiet(l), Denied(l.dialError.value))
    else StartRetain(l)
  }

  /** The dialling caller is back; the flag says whether it starts a worker. */
  function FinishRetain(l: Link, dialed: Result<Conn, nat>): (Effect, bool) {
    var l := l.(dialing := false, dials := l.dials + 1, dialError := if dialed.Err? then Some(dialed.error) else None);
    match dialed
    case Err(_) => (Effect(l, None, true), false)
    case Ok(connection) =>
      var joined := l.(users := l.users + 1, connection := Some(connection), status := Connected, worker := true);
      (Effect(joined, None, true), !l.worker)
  }

  function Release(l: Link): Effect {
    if l.users > 1 then Quiet(l.(users := l.users - 1))
    else Effect(l.(users := 0, connection := None, status := Idle), l.connection, true)
  }

  function SetTerminal(l: Link, up: bool): Effect {
    if up then Effect(l.(terminalUp := true, nudge := l.nudge + 1), None, true)
    else Effect(l.(terminalUp := false, connection := None, status := Idle), l.connection, true)
  }

  function Discard(l: Link): Effect {
    Effect(l.(users := 0, connection := None), l.connection, true)
  }

  // ----- The worker's sections -----

  datatype Next = Exit | Watch(connection: Conn) | Dial | Sleep(nudge: nat)

  /** What the worker finds to do when it takes the lock. */
  function Look(l: Link): (Link, Next) {
    if l.users == 0 then (l.(worker := false), Exit)
    else if l.connection.Some? then (l, Watch(l.connection.value))
    else if l.terminalUp && !l.status.Refused? then (l, Dial)
    else (l, Sleep(l.nudge))
  }

  /** The worker woke from a sleep that began at `nudge`; the flag says whether it was nudged. */
  function Wake(l: Link, nudge: nat): (Link, bool) {
    if l.nudge == nudge then (l, false)
    else (if l.status.Refused? && l.users > 0 then l.(status := Reconnecting) else l, true)
  }

  /** The connection the worker watched is closed. */
  function SeeClosed(l: Link, connection: Conn): Link {
    var l := if l.connection == Some(connection) then l.(connection := None) else l;
    if l.users > 0 && l.terminalUp then l.(status := Reconnecting) else l
  }

  /** The worker dialled again; a connection that is not wanted any more is closed. */
  function FinishRedial(l: Link, dialed: Result<Conn, bool>): Effect {
    match dialed
    case Ok(connection) =>
      if l.users == 0 || !l.terminalUp || l.connection.Some? then Effect(l, Some(connection), false)
      else Quiet(l.(connection := Some(connection), status := Connected))
    case Err(refused) => Quiet(l.(status := if refused then Refused else Reconnecting))
  }

  // ----- The sections as the source runs them -----

  class LinkState {
    var users: nat
    var terminalUp: bool
    var connection: Option<Conn>
    var status: LinkStatus
    var worker: bool
    var dialing: bool
    var dials: nat
    var dialError: Option<nat>
    var nudge: nat

    ghost function Current(): Link
      reads this
    {
      Link(users, terminalUp, connection, status, worker, dialing, dials, dialError, nudge)
    }

    constructor ()
      ensures Current() == NewLink
    {
      users, terminalUp, connection, status := 0, true, None, Idle;
      worker, dialing, dials, dialError, nudge := false, false, 0, None, 0;
    }

    /** `retain` up to the point where it has its answer, must wait, or must dial. */
    method BeginRetain(waited: Option<nat>) returns (asked: Asked, notify: bool)
      modifies this
      ensures (Effect(Current(), None, notify), asked) ==
              if waited.Some? then ResumeRetain(old(Current()), waited.value) else StartRetain(old(Current()))
    {
      notify := false;
      if waited.Some? {
        if dials == waited.value {
          return MustWait(dials), false;
        }
        if users == 0 && dialError.Some? {
          return Denied(dialError.value), false;
        }
      }
      if dialing {
        return MustWait(dials), false;
      }
      if users > 0 {
        users := users + 1;
        if connection.None? {
          status, nudge, notify := Reconnecting, nudge + 1, true;
        }
        return Granted, notify;
      }
      dialing := true;
      return MustDial, false;
    }

    method EndRetain(dialed: Result<Conn, nat>) returns (spawn: bool)
      modifies this
      ensures (Effect(Current(), None, true), spawn) == FinishRetain(old(Current()), dialed)
    {
      dialing, dials, spawn := false, dials + 1, false;
      match dialed {
        case Err(error) => dialError := Some(error);
        case Ok(dialledConn) =>
          dialError := None;
          users, connection, status := users + 1, Some(dialledConn), Connected;
          if !worker {
            worker, spawn := true, true;
          }
      }
    }

    method EndUse() returns (closed: Option<Conn>, notify: bool)
      modifies this
      ensures Effect(Current(), closed, notify) == Release(old(Current()))
    {
      closed, notify := None, false;
      users := if users > 0 then users - 1 else 0;
      if users == 0 {
        closed, connection := connection, None;
        status, notify := Idle, true;
      }
    }

    method SetTerminalConnected(up: bool) returns (closed: Option<Conn>)
      modifies this
      ensures Effect(Current(), closed, true) == SetTerminal(old(Current()), up)
    {
      terminalUp, closed := up, None;
      if up {
        nudge := nudge + 1;
      } else {
        closed, connection := connection, None;
        status := Idle;
      }
    }

    method LookForWork() returns (next: Next)
      modifies this
      ensures (Current(), next) == Look(old(Current()))
    {
      if users == 0 {
        worker := false;
        return Exit;
      }
      if connection.Some? {
        return Watch(connection.value);
      }
      return if terminalUp && status != Refused then Dial else Sleep(nudge);
    }

    method WakeUp(since: nat) returns (immediate: bool)
      modifies this
      ensures (Current(), immediate) == Wake(old(Current()), since)
    {
      immediate := nudge != since;
      if immediate && status == Refused && users > 0 {
        status := Reconnecting;
      }
    }

    method WatchedIsClosed(watched: Conn)
      modifies this
      ensures Current() == SeeClosed(old(Current()), watched)
    {
      if connection == Some(watched) {
        connection := None;
      }
      if users > 0 && terminalUp {
        status := Reconnecting;
      }
    }

    method EndRedial(dialed: Result<Conn, bool>) returns (closed: Option<Conn>)
      modifies this
      ensures Effect(Current(), closed, false) == FinishRedial(old(Current()), dialed)
    {
      closed := None;
      match dialed {
        case Ok(dialledConn) =>
          if users == 0 || !terminalUp || connection.Some? {
            closed := Some(dialledConn);
          } else {
            connection, status := Some(dialledConn), Connected;
          }
        case Err(refused) => status := if refused then Refused else Reconnecting;
      }
    }
  }

  // ----- Many callers, the worker and the network together -----

  /** A caller of `retain` that is not back yet, or that holds the link until it releases it. */
  datatype Caller = Waiting(dials: nat, since: nat) | Dialing | Dialled(dialed: Result<Conn, nat>) | Holding

  datatype Worker =
    | Looking(immediate: bool)
    | Asleep(nudge: nat, immediate: bool, since: nat)
    | Watching(connection: Conn)
    | Resting
    | Redialling
    | Redialled(dialed: Result<Conn, bool>)

  /**
   `workers` are the worker threads, `live` the connections dialled and not closed by either side,
   `wakes` how often all waiters were notified, and `dialler` the caller between the two halves of
   its `retain`. Whoever waits remembers `wakes` as `since`; a notice it missed shows as `since < wakes`.
   */
  datatype System = System(
    link: Link,
    callers: map<CallerId, Caller>,
    dialler: Option<CallerId>,
    workers: seq<Worker>,
    live: set<Conn>,
    nextConn: Conn,
    wakes: nat)

  const NewSystem: System := System(NewLink, map[], None, [], {}, 0, 0)

  datatype DialOutcome = Opens | Fails(error: nat, refused: bool)

  datatype Action =
    | Retain(caller: CallerId)
    | CallerWakes(caller: CallerId)
    | CallerDials(caller: CallerId, outcome: DialOutcome)
    | CallerFinishes(caller: CallerId)
    | Releases(caller: CallerId)
    | Terminal(up: bool)
    | DropLink
    | Lost(connection: Conn)
    | WorkerTurn(worker: nat, outcome: DialOutcome)

  function Apply(s: System, e: Effect): System {
    s.(link := e.link,
       live := if e.closed.Some? then s.live - {e.closed.value} else s.live,
       wakes := if e.notify then s.wakes + 1 else s.wakes)
  }

  function Without(callers: map<CallerId, Caller>, caller: CallerId): map<CallerId, Caller> {
    callers - {caller}
  }

  /** What a caller does with its answer. */
  function Answered(s: System, caller: CallerId, answer: (Effect, Asked)): System {
    var s := Apply(s, answer.0);
    match answer.1
    case Granted => s.(callers := s.callers[caller := Holding])
    case MustDial => s.(callers := s.callers[caller := Dialing], dialler := Some(caller))
    case MustWait(dials) => s.(callers := s.callers[caller := Waiting(dials, s.wakes)])
    case Denied(_) => s.(callers := Without(s.callers, caller))
  }

  function Dialed(s: System, caller: CallerId, outcome: DialOutcome): System {
    match outcome
    case Opens =>
      s.(callers := s.callers[caller := Dialled(Ok(s.nextConn))],
         live := s.live + {s.nextConn}, nextConn := s.nextConn + 1)
    case Fails(error, _) => s.(callers := s.callers[caller := Dialled(Err(error))])
  }

  function Finished(s: System, caller: CallerId, dialed: Result<Conn, nat>): System {
    var (e, spawn) := FinishRetain(s.link, dialed);
    var s := Apply(s, e).(dialler := None);
    s.(callers := if dialed.Ok? then s.callers[caller := Holding] else Without(s.callers, caller),
       workers := if spawn then s.workers + [Looking(false)] else s.workers)
  }

  function SetWorker(s: System, w: nat, worker: Worker): System
    requires w < |s.workers|
  {
    s.(workers := s.workers[w := worker])
  }

  function WorkerLooks(s: System, w: nat, immediate: bool): System
    requires w < |s.workers|
  {
    var (link, next) := Look(s.link);
    var s := s.(link := link);
    match next
    case Exit => s.(workers := s.workers[..w] + s.workers[w + 1..])
    case Watch(connection) => SetWorker(s, w, Watching(connection))
    case Dial => SetWorker(s, w, if immediate then Redialling else Resting)
    case Sleep(nudge) => SetWorker(s, w, Asleep(nudge, immediate, s.wakes))
  }

  function WorkerConnects(s: System, w: nat): System
    requires w < |s.workers|
  {
    SetWorker(s.(live := s.live + {s.nextConn}, nextConn := s.nextConn + 1), w, Redialled(Ok(s.nextConn)))
  }

  /** A worker's next section. A rest may end at any time: its length is not part of this model. */
  function WorkerStep(s: System, w: nat, outcome: DialOutcome): System
    requires w < |s.workers|
  {
    match s.workers[w]
    case Looking(immediate) => WorkerLooks(s, w, immediate)
    case Asleep(nudge, immediate, _) =>
      var (link, nudged) := Wake(s.link, nudge);
      WorkerLooks(s.(link := link), w, immediate || nudged)
    case Watching(connection) =>
      if connection in s.live then s
      else SetWorker(s.(link := SeeClosed(s.link, connection)), w, Looking(false))
    case Resting =>
      SetWorker(s, w, if s.link.users == 0 || !s.link.terminalUp then Looking(false) else Redialling)
    case Redialling =>
      (match outcome
       case Opens => WorkerConnects(s, w)
       case Fails(_, refused) => SetWorker(s, w, Redialled(Err(refused))))
    case Redialled(dialed) => SetWorker(Apply(s, FinishRedial(s.link, dialed)), w, Looking(false))
  }

  /** One step; an action that is not possible now changes nothing. */
  function Step(s: System, a: Action): System {
    match a
    case Retain(caller) => if caller in s.callers then s else Answered(s, caller, StartRetain(s.link))
    case CallerWakes(caller) =>
      if caller in s.callers && s.callers[caller].Waiting? then
        Answered(s, caller, ResumeRetain(s.link, s.callers[caller].dials))
      else s
    case CallerDials(caller, outcome) =>
      if caller in s.callers && s.callers[caller].Dialing? then Dialed(s, caller, outcome) else s
    case CallerFinishes(caller) =>
      if caller in s.callers && s.callers[caller].Dialled? then Finished(s, caller, s.callers[caller].dialed) else s
    case Releases(caller) =>
      if caller in s.callers && s.callers[caller].Holding? then
        Apply(s, Release(s.link)).(callers := Without(s.callers, caller))
      else s
    case Terminal(up) => Apply(s, SetTerminal(s.link, up))
    case DropLink =>
      // The last owner is gone, so nobody is inside a call and nobody will release.
      if forall caller <- s.callers.Keys :: s.callers[caller].Holding? then Apply(s, Discard(s.link)).(callers := map[])
      else s
    case Lost(connection) => s.(live := s.live - {connection})
    case WorkerTurn(worker, outcome) => if worker < |s.workers| then WorkerStep(s, worker, outcome) else s
  }

  function After(s: System, actions: seq<Action>): System {
    if actions == [] then s else Step(After(s, actions[..|actions| - 1]), actions[|actions| - 1])
  }

  // ----- What every step keeps -----

  function Holders(callers: map<CallerId, Caller>): set<CallerId> {
    set caller | caller in callers && callers[caller].Holding?
  }

  predicate InDial(caller: Caller) {
    caller.Dialing? || caller.Dialled?
  }

  predicate LinkSound(s: System) {
    var l := s.link;
    && (l.dialing ==> l.users == 0)
    && (l.users == 0 ==> l.connection.None?)
    && (l.users > 0 ==> l.worker)
    && |s.workers| == (if l.worker then 1 else 0)
  }

  /** One caller dials at a time, `users` counts the holders, and no waiter misses its notice. */
  predicate CallersSound(s: System) {
    && (s.link.dialing <==> s.dialler.Some?)
    && (s.dialler.Some? ==> s.dialler.value in s.callers && InDial(s.callers[s.dialler.value]))
    && (forall caller <- s.callers :: InDial(s.callers[caller]) ==> s.dialler == Some(caller))
    && (forall caller <- s.callers :: s.callers[caller].Waiting? ==> WaitsSoundly(s, s.callers[caller]))
    && s.link.users == |Holders(s.callers)|
  }

  predicate WaitsSoundly(s: System, caller: Caller)
    requires caller.Waiting?
  {
    && caller.dials <= s.link.dials && caller.since <= s.wakes
    && (caller.dials == s.link.dials ==> s.link.dialing)
    && (caller.since == s.wakes ==> caller.dials == s.link.dials)
  }

  /** The connection a caller or worker has dialled and not handed over yet. */
  function InHand(s: System): set<Conn> {
    (if s.dialler.Some? && s.dialler.value in s.callers && s.callers[s.dialler.value].Dialled?
        && s.callers[s.dialler.value].dialed.Ok?
     then {s.callers[s.dialler.value].dialed.value} else {})
    + (if |s.workers| == 1 && s.workers[0].Redialled? && s.workers[0].dialed.Ok?
       then {s.workers[0].dialed.value} else {})
  }

  function Stored(s: System): set<Conn> {
    if s.link.connection.Some? then {s.link.connection.value} else {}
  }

  /** No connection is open but the stored one and those in a dialler's hands. */
  predicate NothingLeaks(s: System) {
    s.live <= Stored(s) + InHand(s)
  }

  /** Why a worker that has seen every notice may go on sleeping. */
  predicate MaySleep(l: Link) {
    l.users > 0 && l.connection.None? && (!l.terminalUp || l.status.Refused?)
  }

  predicate WorkerSound(s: System) {
    forall w :: 0 <= w < |s.workers| && s.workers[w].Asleep? ==>
      s.workers[w].since <= s.wakes && (s.workers[w].since == s.wakes ==> MaySleep(s.link))
  }

  predicate Sound(s: System) {
    LinkSound(s) && CallersSound(s) && NothingLeaks(s) && WorkerSound(s)
  }

  // ----- Each step keeps it -----

  lemma HoldersChange(callers: map<CallerId, Caller>, caller: CallerId, to: Caller)
    ensures |Holders(callers[caller := to])| + (if caller in Holders(callers) then 1 else 0) ==
            |Holders(callers)| + (if to.Holding? then 1 else 0)
  {
    var rest := Holders(callers) - {caller};
    if to.Holding? {
      assert Holders(callers[caller := to]) == rest + {caller};
    } else {
      assert Holders(callers[caller := to]) == rest;
    }
  }

  lemma HolderLeaves(callers: map<CallerId, Caller>, caller: CallerId)
    ensures |Holders(Without(callers, caller))| + (if caller in Holders(callers) then 1 else 0) == |Holders(callers)|
  {
    assert Holders(Without(callers, caller)) == Holders(callers) - {caller};
  }

  /** The answer to a caller that arrives or looks again, in terms of who may get which. */
  predicate Fits(s: System, caller: CallerId, answer: (Effect, Asked)) {
    && answer.0.closed.None?
    && match answer.1
       case Granted =>
         && s.link.users > 0 && !s.link.dialing
         && ((answer.0 == Quiet(s.link.(users := s.link.users + 1)) && s.link.connection.Some?)
             || answer.0 == Effect(s.link.(users := s.link.users + 1, status := Reconnecting,
                                           nudge := s.link.nudge + 1), None, true))
       case MustDial => s.link.users == 0 && !s.link.dialing && answer.0 == Quiet(s.link.(dialing := true))
       case MustWait(dials) => s.link.dialing && dials == s.link.dials && answer.0 == Quiet(s.link)
       case Denied(error) => answer.0 == Quiet(s.link)
  }

  lemma AnswersFit(s: System, caller: CallerId, answer: (Effect, Asked))
    requires CallersSound(s) && (caller in s.callers ==> s.callers[caller].Waiting?)
    requires answer == StartRetain(s.link)
          || (caller in s.callers && answer == ResumeRetain(s.link, s.callers[caller].dials))
    ensures Fits(s, caller, answer)
  {
  }

  /** A caller is granted, and perhaps everybody notified. */
  lemma GrantKeeps(s: System, caller: CallerId, answer: (Effect, Asked))
    requires Sound(s) && (caller in s.callers ==> s.callers[caller].Waiting?)
    requires Fits(s, caller, answer) && answer.1.Granted?
    ensures Sound(Answered(s, caller, answer))
  {
    HoldersChange(s.callers, caller, Holding);
    var after := Answered(s, caller, answer);
    assert NothingLeaks(after) by { assert Stored(after) == Stored(s) && InHand(s) == InHand(after); }
  }

  lemma StartDialKeeps(s: System, caller: CallerId, answer: (Effect, Asked))
    requires Sound(s) && (caller in s.callers ==> s.callers[caller].Waiting?)
    requires Fits(s, caller, answer) && answer.1.MustDial?
    ensures Sound(Answered(s, caller, answer))
  {
    HoldersChange(s.callers, caller, Dialing);
    var after := Answered(s, caller, answer);
    assert NothingLeaks(after) by { assert Stored(after) == Stored(s) && InHand(s) == InHand(after); }
  }

  lemma WaitKeeps(s: System, caller: CallerId, answer: (Effect, Asked))
    requires Sound(s) && (caller in s.callers ==> s.callers[caller].Waiting?)
    requires Fits(s, caller, answer) && answer.1.MustWait?
    ensures Sound(Answered(s, caller, answer))
  {
    HoldersChange(s.callers, caller, Waiting(answer.1.dials, s.wakes));
    var after := Answered(s, caller, answer);
    assert NothingLeaks(after) by { assert Stored(after) == Stored(s) && InHand(s) == InHand(after); }
  }

  /** A waiting caller that gives up, or one that never came in, leaves nothing behind. */
  lemma LeavesKeeps(s: System, caller: CallerId)
    requires CallersSound(s) && (caller in s.callers ==> s.callers[caller].Waiting?)
    ensures CallersSound(s.(callers := Without(s.callers, caller)))
    ensures InHand(s.(callers := Without(s.callers, caller))) == InHand(s)
  {
    HolderLeaves(s.callers, caller);
    var rest := Without(s.callers, caller);
    assert forall other <- rest :: other in s.callers && rest[other] == s.callers[other];
  }

  lemma DenyKeeps(s: System, caller: CallerId, answer: (Effect, Asked))
    requires Sound(s) && (caller in s.callers ==> s.callers[caller].Waiting?)
    requires Fits(s, caller, answer) && answer.1.Denied?
    ensures Sound(Answered(s, caller, answer))
  {
    LeavesKeeps(s, caller);
    var after := s.(callers := Without(s.callers, caller));
    assert Sound(after) by { assert Stored(after) == Stored(s); }
    assert Answered(s, caller, answer) == after;
  }

  lemma AnswerKeeps(s: System, caller: CallerId, answer: (Effect, Asked))
    requires Sound(s) && (caller in s.callers ==> s.callers[caller].Waiting?) && Fits(s, caller, answer)
    ensures Sound(Answered(s, caller, answer))
  {
    match answer.1 {
      case Granted => GrantKeeps(s, caller, answer);
      case MustDial => StartDialKeeps(s, caller, answer);
      case MustWait(_) => WaitKeeps(s, caller, answer);
      case Denied(_) => DenyKeeps(s, caller, answer);
    }
  }

  lemma DialKeeps(s: System, caller: CallerId, outcome: DialOutcome)
    requires Sound(s) && caller in s.callers && s.callers[caller].Dialing?
    ensures Sound(Dialed(s, caller, outcome))
  {
    HoldersChange(s.callers, caller, Dialled(Ok(s.nextConn)));
    if outcome.Fails? { HoldersChange(s.callers, caller, Dialled(Err(outcome.error))); }
  }

  lemma FinishKeeps(s: System, caller: CallerId)
    requires Sound(s) && caller in s.callers && s.callers[caller].Dialled?
    ensures Sound(Finished(s, caller, s.callers[caller].dialed))
  {
    HoldersChange(s.callers, caller, Holding);
    HolderLeaves(s.callers, caller);
  }

  lemma ReleaseKeeps(s: System, caller: CallerId)
    requires Sound(s) && caller in s.callers && s.callers[caller].Holding?
    ensures Sound(Apply(s, Release(s.link)).(callers := Without(s.callers, caller)))
  {
    HolderLeaves(s.callers, caller);
    assert caller in Holders(s.callers);
  }

  lemma DropKeeps(s: System)
    requires Sound(s) && forall caller <- s.callers.Keys :: s.callers[caller].Holding?
    ensures Sound(Apply(s, Discard(s.link)).(callers := map[]))
  {
    assert Holders(map[]) == {};
  }

  lemma TerminalKeeps(s: System, up: bool)
    requires Sound(s)
    ensures Sound(Apply(s, SetTerminal(s.link, up)))
  {
  }

  /** Looking for work changes neither the callers nor what is open. */
  lemma LooksLeave(s: System, w: nat, immediate: bool)
    requires w < |s.workers|
    ensures var after := WorkerLooks(s, w, immediate);
            && after.callers == s.callers && after.dialler == s.dialler
            && after.live == s.live && after.wakes == s.wakes
            && after.link == s.link.(worker := s.link.users > 0 && s.link.worker)
  {
  }

  lemma LooksKeepLink(s: System, w: nat, immediate: bool)
    requires LinkSound(s) && w < |s.workers|
    ensures LinkSound(WorkerLooks(s, w, immediate)) && WorkerSound(WorkerLooks(s, w, immediate))
  {
  }

  lemma LooksKeeps(s: System, w: nat, immediate: bool)
    requires LinkSound(s) && CallersSound(s) && w < |s.workers| && !s.workers[w].Redialled? && NothingLeaks(s)
    ensures Sound(WorkerLooks(s, w, immediate))
  {
    var after := WorkerLooks(s, w, immediate);
    LooksLeave(s, w, immediate);
    LooksKeepLink(s, w, immediate);
    assert CallersSound(after);
    assert NothingLeaks(after) by { assert Stored(after) == Stored(s) && InHand(s) <= InHand(after); }
  }

  lemma ClosedKeeps(s: System, w: nat)
    requires Sound(s) && w < |s.workers| && s.workers[w].Watching? && s.workers[w].connection !in s.live
    ensures Sound(SetWorker(s.(link := SeeClosed(s.link, s.workers[w].connection)), w, Looking(false)))
  {
  }

  lemma WatchKeeps(s: System, w: nat, outcome: DialOutcome)
    requires Sound(s) && w < |s.workers| && s.workers[w].Watching?
    ensures Sound(WorkerStep(s, w, outcome))
  {
    var connection := s.workers[w].connection;
    if connection in s.live {
      assert WorkerStep(s, w, outcome) == s;
    } else {
      ClosedKeeps(s, w);
      assert WorkerStep(s, w, outcome) == SetWorker(s.(link := SeeClosed(s.link, connection)), w, Looking(false));
    }
  }

  lemma RedialFailsKeeps(s: System, w: nat, outcome: DialOutcome)
    requires Sound(s) && w < |s.workers| && s.workers[w].Redialling? && outcome.Fails?
    ensures Sound(WorkerStep(s, w, outcome))
  {
    var after := WorkerStep(s, w, outcome);
    assert w == 0 && |s.workers| == 1;
    assert NothingLeaks(after) by { assert Stored(after) == Stored(s) && InHand(after) == InHand(s); }
  }

  lemma RedialOpensKeeps(s: System, w: nat)
    requires Sound(s) && w < |s.workers| && s.workers[w].Redialling?
    ensures Sound(WorkerConnects(s, w))
  {
    var after := WorkerConnects(s, w);
    assert w == 0 && |s.workers| == 1 && |after.workers| == 1;
    assert CallersSound(after) && LinkSound(after) && WorkerSound(after);
    assert s.nextConn in InHand(after) && InHand(s) <= InHand(after) && Stored(after) == Stored(s);
  }

  lemma RedialKeeps(s: System, w: nat, outcome: DialOutcome)
    requires Sound(s) && w < |s.workers| && s.workers[w].Redialling?
    ensures Sound(WorkerStep(s, w, outcome))
  {
    if outcome.Fails? {
      RedialFailsKeeps(s, w, outcome);
    } else {
      RedialOpensKeeps(s, w);
      assert WorkerStep(s, w, outcome) == WorkerConnects(s, w);
    }
  }

  lemma RestKeeps(s: System, w: nat, outcome: DialOutcome)
    requires Sound(s) && w < |s.workers| && s.workers[w].Resting?
    ensures Sound(WorkerStep(s, w, outcome))
  {
    var after := WorkerStep(s, w, outcome);
    assert w == 0 && |s.workers| == 1;
    assert NothingLeaks(after) by { assert Stored(after) == Stored(s) && InHand(after) == InHand(s); }
  }

  lemma WakeKeeps(s: System, w: nat, outcome: DialOutcome)
    requires Sound(s) && w < |s.workers| && s.workers[w].Asleep?
    ensures Sound(WorkerStep(s, w, outcome))
  {
    var (link, nudged) := Wake(s.link, s.workers[w].nudge);
    var woken := s.(link := link);
    assert LinkSound(woken) && CallersSound(woken) && NothingLeaks(woken);
    LooksKeeps(woken, w, s.workers[w].immediate || nudged);
    assert WorkerStep(s, w, outcome) == WorkerLooks(woken, w, s.workers[w].immediate || nudged);
  }

  lemma HandOverKeeps(s: System, w: nat, dialed: Result<Conn, bool>)
    requires Sound(s) && w < |s.workers| && s.workers[w] == Redialled(dialed)
    ensures Sound(SetWorker(Apply(s, FinishRedial(s.link, dialed)), w, Looking(false)))
  {
  }

  lemma RedialledKeeps(s: System, w: nat, outcome: DialOutcome)
    requires Sound(s) && w < |s.workers| && s.workers[w].Redialled?
    ensures Sound(WorkerStep(s, w, outcome))
  {
    var dialed := s.workers[w].dialed;
    HandOverKeeps(s, w, dialed);
    assert WorkerStep(s, w, outcome) == SetWorker(Apply(s, FinishRedial(s.link, dialed)), w, Looking(false));
  }

  lemma WorkerKeeps(s: System, w: nat, outcome: DialOutcome)
    requires Sound(s) && w < |s.workers|
    ensures Sound(WorkerStep(s, w, outcome))
  {
    match s.workers[w] {
      case Looking(immediate) => LooksKeeps(s, w, immediate);
      case Asleep(_, _, _) => WakeKeeps(s, w, outcome);
      case Watching(_) => WatchKeeps(s, w, outcome);
      case Resting => RestKeeps(s, w, outcome);
      case Redialling => RedialKeeps(s, w, outcome);
      case Redialled(_) => RedialledKeeps(s, w, outcome);
    }
  }

  lemma StepKeeps(s: System, a: Action)
    requires Sound(s)
    ensures Sound(Step(s, a))
  {
    match a {
      case Retain(caller) => if caller !in s.callers {
          AnswersFit(s, caller, StartRetain(s.link));
          AnswerKeeps(s, caller, StartRetain(s.link));
        }
      case CallerWakes(caller) =>
        if caller in s.callers && s.callers[caller].Waiting? {
          AnswersFit(s, caller, ResumeRetain(s.link, s.callers[caller].dials));
          AnswerKeeps(s, caller, ResumeRetain(s.link, s.callers[caller].dials));
        }
      case CallerDials(caller, outcome) =>
        if caller in s.callers && s.callers[caller].Dialing? { DialKeeps(s, caller, outcome); }
      case CallerFinishes(caller) =>
        if caller in s.callers && s.callers[caller].Dialled? { FinishKeeps(s, caller); }
      case Releases(caller) =>
        if caller in s.callers && s.callers[caller].Holding? { ReleaseKeeps(s, caller); }
      case Terminal(up) => TerminalKeeps(s, up);
      case DropLink =>
        if forall caller <- s.callers.Keys :: s.callers[caller].Holding? { DropKeeps(s); }
      case Lost(_) =>
      case WorkerTurn(worker, outcome) => if worker < |s.workers| { WorkerKeeps(s, worker, outcome); }
    }
  }

  // ----- Over whole runs -----

  lemma {:induction false} RunsStaySound(actions: seq<Action>)
    ensures Sound(After(NewSystem, actions))
  {
    if actions == [] {
      assert Holders(NewSystem.callers) == {};
    } else {
      RunsStaySound(actions[..|actions| - 1]);
      StepKeeps(After(NewSystem, actions[..|actions| - 1]), actions[|actions| - 1]);
    }
  }

  /** Nobody holds the link, so nothing is open but what a dialler is about to hand over or close. */
  lemma UnusedLinkIsClosed(actions: seq<Action>)
    ensures var s := After(NewSystem, actions);
            Holders(s.callers) == {} ==> s.link.connection.None? && s.live <= InHand(s)
  {
    RunsStaySound(actions);
  }

  /** A caller that is back from dialling finds no connection it could overwrite, and no other dialler. */
  lemma RetainNeverOverwrites(actions: seq<Action>, caller: CallerId)
    requires var s := After(NewSystem, actions); caller in s.callers && InDial(s.callers[caller])
    ensures var s := After(NewSystem, actions);
            && s.link.connection.None? && s.link.users == 0
            && forall other <- s.callers :: InDial(s.callers[other]) ==> other == caller
  {
    RunsStaySound(actions);
  }

  /**
   The stored connection, while it is open, goes only when its last user releases it, the terminal
   goes down or the link is dropped; a worker woken by an older one never removes it.
   */
  lemma OpenConnectionStays(actions: seq<Action>, a: Action)
    requires var s := After(NewSystem, actions); s.link.connection.Some? && s.link.connection.value in s.live
    ensures var s := After(NewSystem, actions);
            || Step(s, a).link.connection == s.link.connection
            || a == Terminal(false) || a == DropLink
            || (a.Releases? && Holders(s.callers) == {a.caller})
  {
    var s := After(NewSystem, actions);
    RunsStaySound(actions);
    if a.Releases? && a.caller in s.callers && s.callers[a.caller].Holding? && s.link.users == 1 {
      assert a.caller in Holders(s.callers);
      assert |Holders(s.callers) - {a.caller}| == 0;
    }
  }

  /**
   While the link is in use its one worker either can go on, or watches the stored connection, or
   sleeps because the terminal is down or the Server refused. No notice is ever lost.
   */
  lemma WorkerIsNeverStuck(actions: seq<Action>)
    requires After(NewSystem, actions).link.users > 0
    ensures var s := After(NewSystem, actions);
            && |s.workers| == 1
            && (s.workers[0].Watching? ==>
                  s.workers[0].connection !in s.live || s.link.connection == Some(s.workers[0].connection))
            && (s.workers[0].Asleep? ==> s.workers[0].since < s.wakes || MaySleep(s.link))
  {
    RunsStaySound(actions);
  }

  /** A caller waits only while another dials, or has its notice already. */
  lemma WaitersAreNotified(actions: seq<Action>, caller: CallerId)
    requires var s := After(NewSystem, actions); caller in s.callers && s.callers[caller].Waiting?
    ensures var s := After(NewSystem, actions);
            s.callers[caller].since < s.wakes || (s.dialler.Some? && s.dialler.value in s.callers
                                                  && InDial(s.callers[s.dialler.value]))
  {
    RunsStaySound(actions);
  }

  // ----- Callers that arrive during a dial -----

  /** The caller waits for the dial that is the link's `dials`th. */
  predicate WaitsFor(s: System, caller: CallerId, dials: nat) {
    caller in s.callers && s.callers[caller].Waiting? && s.callers[caller].dials == dials
  }

  /** From `s` on through `more` the link never was without a holder. */
  predicate InUse(s: System, more: seq<Action>) {
    After(s, more).link.users > 0 && (more == [] || InUse(s, more[..|more| - 1]))
  }

  /** While the link is in use no caller dials. */
  lemma NobodyDials(s: System)
    requires Sound(s) && s.link.users > 0
    ensures s.dialler.None? && forall caller <- s.callers :: !InDial(s.callers[caller])
  {
  }

  lemma AnswerLeavesDials(l: Link, dials: nat)
    ensures var after := StartRetain(l).0.link; after.dials == l.dials && after.dialError == l.dialError
    ensures var after := ResumeRetain(l, dials).0.link; after.dials == l.dials && after.dialError == l.dialError
    ensures l.users == 0 ==> StartRetain(l).0.link.users == 0 && ResumeRetain(l, dials).0.link.users == 0
  {
  }

  predicate SameDials(l: Link, after: Link) {
    after.dials == l.dials && after.dialError == l.dialError && after.users == l.users
  }

  lemma SectionsLeaveDials(l: Link, nudge: nat, connection: Conn, dialed: Result<Conn, bool>)
    ensures SameDials(l, Look(l).0) && SameDials(l, Wake(l, nudge).0) && SameDials(l, SeeClosed(l, connection))
    ensures SameDials(l, FinishRedial(l, dialed).link)
  {
  }

  lemma LookLeavesDials(s: System, w: nat, immediate: bool)
    requires w < |s.workers|
    ensures SameDials(s.link, WorkerLooks(s, w, immediate).link)
  {
  }

  lemma WorkerLeavesDials(s: System, w: nat, outcome: DialOutcome)
    requires w < |s.workers|
    ensures SameDials(s.link, WorkerStep(s, w, outcome).link)
  {
    match s.workers[w] {
      case Looking(immediate) => LookLeavesDials(s, w, immediate);
      case Asleep(nudge, immediate, _) =>
        var (link, nudged) := Wake(s.link, nudge);
        LookLeavesDials(s.(link := link), w, immediate || nudged);
      case Watching(connection) => SectionsLeaveDials(s.link, 0, connection, Err(false));
      case Redialled(dialed) => SectionsLeaveDials(s.link, 0, 0, dialed);
      case _ =>
    }
  }

  /** Only the end of a caller's dial is counted, and only then does the shared error change. */
  lemma DialsCountFinishes(s: System, a: Action)
    ensures || (Step(s, a).link.dials == s.link.dials && Step(s, a).link.dialError == s.link.dialError)
            || (a.CallerFinishes? && a.caller in s.callers && s.callers[a.caller].Dialled?)
    ensures s.link.dials <= Step(s, a).link.dials
    ensures s.link.users == 0 && Step(s, a).link.dials == s.link.dials ==> Step(s, a).link.users == 0
  {
    match a {
      case Retain(caller) => AnswerLeavesDials(s.link, 0);
      case CallerWakes(caller) =>
        if caller in s.callers && s.callers[caller].Waiting? {
          AnswerLeavesDials(s.link, s.callers[caller].dials);
        }
      case WorkerTurn(worker, outcome) => if worker < |s.workers| { WorkerLeavesDials(s, worker, outcome); }
      case _ =>
    }
  }

  /** A caller that waits for an ended dial while the link is in use goes on waiting, or holds the link. */
  lemma WaiterInUse(s: System, a: Action, caller: CallerId, dials: nat)
    requires Sound(s) && s.link.users > 0 && dials < s.link.dials
    requires caller in s.callers ==> WaitsFor(s, caller, dials) || s.callers[caller].Holding?
    ensures caller in Step(s, a).callers ==> WaitsFor(Step(s, a), caller, dials) || Step(s, a).callers[caller].Holding?
    ensures caller in s.callers && caller !in Step(s, a).callers ==> a == Releases(caller) || a == DropLink
  {
  }

  lemma {:induction false} StaysSound(s: System, more: seq<Action>)
    requires Sound(s)
    ensures Sound(After(s, more))
  {
    if more != [] {
      StaysSound(s, more[..|more| - 1]);
      StepKeeps(After(s, more[..|more| - 1]), more[|more| - 1]);
    }
  }

  /** What became of a caller that waited for a dial when that dial was over. */
  lemma {:induction false} WaiterThroughUse(s: System, more: seq<Action>, caller: CallerId, dials: nat)
    requires Sound(s) && InUse(s, more) && WaitsFor(s, caller, dials) && dials < s.link.dials
    ensures var after := After(s, more);
            && after.link.dials == s.link.dials && after.dialler.None?
            && (caller in after.callers ==> WaitsFor(after, caller, dials) || after.callers[caller].Holding?)
            && (caller !in after.callers ==> Releases(caller) in more || DropLink in more)
  {
    if more == [] {
      NobodyDials(s);
    } else {
      var but, last := more[..|more| - 1], more[|more| - 1];
      var before := After(s, but);
      WaiterThroughUse(s, but, caller, dials);
      StaysSound(s, more);
      StaysSound(s, but);
      NobodyDials(before);
      DialsCountFinishes(before, last);
      NobodyDials(After(s, more));
      WaiterInUse(before, last, caller, dials);
    }
  }

  /**
   A batch logs in once. After a dial that connected, for as long as the link stays in use, no caller
   dials again, and whoever waited for that dial waits on until it wakes, and then holds the link.
   */
  lemma WaitersShareTheConnection(actions: seq<Action>, dialler: CallerId, more: seq<Action>, waiter: CallerId)
    requires var s := After(NewSystem, actions);
             && dialler in s.callers && s.callers[dialler].Dialled? && s.callers[dialler].dialed.Ok?
             && WaitsFor(s, waiter, s.link.dials)
             && InUse(Step(s, CallerFinishes(dialler)), more)
    ensures var s := After(NewSystem, actions);
            var after := After(Step(s, CallerFinishes(dialler)), more);
            && after.link.dials == s.link.dials + 1 && after.dialler.None?
            && (waiter in after.callers ==> WaitsFor(after, waiter, s.link.dials) || after.callers[waiter].Holding?)
            && (waiter !in after.callers ==> Releases(waiter) in more || DropLink in more)
            && (WaitsFor(after, waiter, s.link.dials) ==>
                  Step(after, CallerWakes(waiter)).callers == after.callers[waiter := Holding])
  {
    var s := After(NewSystem, actions);
    var done := Step(s, CallerFinishes(dialler));
    RunsStaySound(actions);
    StepKeeps(s, CallerFinishes(dialler));
    WaiterThroughUse(done, more, waiter, s.link.dials);
    StaysSound(done, more);
  }

  /** Nobody holds the link until a newer dial is over, and the error of the last one stays. */
  lemma {:induction false} ErrorThroughRun(s: System, more: seq<Action>)
    requires Sound(s) && s.link.users == 0
    ensures s.link.dials <= After(s, more).link.dials
    ensures After(s, more).link.dials == s.link.dials ==>
              After(s, more).link.users == 0 && After(s, more).link.dialError == s.link.dialError
  {
    if more != [] {
      var before := After(s, more[..|more| - 1]);
      ErrorThroughRun(s, more[..|more| - 1]);
      StaysSound(s, more[..|more| - 1]);
      DialsCountFinishes(before, more[|more| - 1]);
    }
  }

  /** After a dial that failed, whoever waited for it is given its error, until a newer dial is over. */
  lemma WaitersShareTheError(actions: seq<Action>, dialler: CallerId, more: seq<Action>, waiter: CallerId)
    requires var s := After(NewSystem, actions);
             && dialler in s.callers && s.callers[dialler].Dialled? && s.callers[dialler].dialed.Err?
             && WaitsFor(After(Step(s, CallerFinishes(dialler)), more), waiter, s.link.dials)
             && After(Step(s, CallerFinishes(dialler)), more).link.dials == s.link.dials + 1
    ensures var s := After(NewSystem, actions);
            var after := After(Step(s, CallerFinishes(dialler)), more);
            && after.link.users == 0
            && ResumeRetain(after.link, s.link.dials).1 == Denied(s.callers[dialler].dialed.error)
            && Step(after, CallerWakes(waiter)).callers == Without(after.callers, waiter)
  {
    var s := After(NewSystem, actions);
    RunsStaySound(actions);
    StepKeeps(s, CallerFinishes(dialler));
    ErrorThroughRun(Step(s, CallerFinishes(dialler)), more);
  }

  /** How the last caller's dial that is over ended, if there was one. */
  function LastDial(actions: seq<Action>): Option<Result<Conn, nat>> {
    if actions == [] then None
    else
      var before, last := After(NewSystem, actions[..|actions| - 1]), actions[|actions| - 1];
      if last.CallerFinishes? && last.caller in before.callers && before.callers[last.caller].Dialled? then
        Some(before.callers[last.caller].dialed)
      else LastDial(actions[..|actions| - 1])
  }

  lemma {:induction false} ErrorIsOfLastDial(actions: seq<Action>)
    ensures var l := After(NewSystem, actions).link;
            && (LastDial(actions).None? <==> l.dials == 0)
            && l.dialError == match LastDial(actions)
                              case Some(Err(error)) => Some(error)
                              case _ => None
  {
    if actions != [] {
      ErrorIsOfLastDial(actions[..|actions| - 1]);
      DialsCountFinishes(After(NewSystem, actions[..|actions| - 1]), actions[|actions| - 1]);
    }
  }

  /**
   What a waiting caller that wakes is told, exactly. It waits on while its dial is not over. Then it
   holds the link if anyone does, and else shares the error of the last dial. Only when that dial
   connected and everyone has let go of it since does it dial itself, or wait for one who does.
   */
  lemma WakesExactly(actions: seq<Action>, waiter: CallerId)
    requires var s := After(NewSystem, actions); waiter in s.callers && s.callers[waiter].Waiting?
    ensures var s := After(NewSystem, actions);
            var dials := s.callers[waiter].dials;
            var after := Step(s, CallerWakes(waiter)).callers;
            if dials == s.link.dials then WaitsFor(Step(s, CallerWakes(waiter)), waiter, dials) && s.dialler.Some?
            else
              && dials < s.link.dials && LastDial(actions).Some?
              && (waiter in after && after[waiter].Holding? <==> Holders(s.callers) != {})
              && (waiter !in after <==> Holders(s.callers) == {} && LastDial(actions).value.Err?)
              && (waiter in after && after[waiter].Dialing? <==>
                    Holders(s.callers) == {} && LastDial(actions).value.Ok? && s.dialler.None?)
              && (waiter in after && after[waiter].Waiting? <==>
                    Holders(s.callers) == {} && LastDial(actions).value.Ok? && s.dialler.Some?)
  {
    RunsStaySound(actions);
    ErrorIsOfLastDial(actions);
    var s := After(NewSystem, actions);
    assert s.link.users == 0 <==> Holders(s.callers) == {};
  }

  const Batch: seq<Action> := [Retain(0), Retain(1), CallerDials(0, Opens), CallerFinishes(0), Releases(0)]

  /** That happens: the dialler lets go before the caller that waited for it wakes, and the batch logs in again. */
  lemma WaiterMayDialAgain()
    ensures WaitsFor(After(NewSystem, Batch[..2]), 1, 0)
    ensures After(NewSystem, Batch + [CallerWakes(1)]).callers == map[1 := Dialing]
  {
    OneMoreStep([], Retain(0));
    OneMoreStep(Batch[..1], Retain(1));
    OneMoreStep(Batch[..2], CallerDials(0, Opens));
    OneMoreStep(Batch[..3], CallerFinishes(0));
    OneMoreStep(Batch[..4], Releases(0));
    OneMoreStep(Batch, CallerWakes(1));
    assert Batch[..1] == [] + [Retain(0)] && Batch[..2] == Batch[..1] + [Retain(1)];
    assert After(NewSystem, Batch[..2]).callers == map[0 := Dialing, 1 := Waiting(0, 0)];
    assert Batch[..3] == Batch[..2] + [CallerDials(0, Opens)];
    assert Batch[..4] == Batch[..3] + [CallerFinishes(0)];
    assert Batch == Batch[..4] + [Releases(0)];
    assert After(NewSystem, Batch).callers == map[1 := Waiting(0, 0)];
  }

  // ----- The link and the terminal connection -----

  predicate OpenWhileDown(l: Link) {
    !l.terminalUp && l.connection.Some?
  }

  /**
   The documentation says the connection closes with the terminal connection. The exact rule: one
   comes to be stored while the terminal is down precisely when a caller, not the worker, dialled it.
   */
  lemma OnlyACallerConnectsWhileDown(actions: seq<Action>, a: Action)
    requires !OpenWhileDown(After(NewSystem, actions).link)
    ensures var s := After(NewSystem, actions);
            OpenWhileDown(Step(s, a).link) <==>
              && a.CallerFinishes? && a.caller in s.callers && s.callers[a.caller].Dialled?
              && s.callers[a.caller].dialed.Ok? && !s.link.terminalUp
  {
    RunsStaySound(actions);
    var s := After(NewSystem, actions);
    if a.WorkerTurn? && a.worker < |s.workers| { WorkerHeedsTheTerminal(s, a.worker, a.outcome); }
  }

  lemma WorkerHeedsTheTerminal(s: System, w: nat, outcome: DialOutcome)
    requires w < |s.workers| && !OpenWhileDown(s.link)
    ensures !OpenWhileDown(WorkerStep(s, w, outcome).link)
  {
  }

  /** And that happens. */
  lemma TerminalMayBeDownWhileConnected()
    ensures OpenWhileDown(After(NewSystem, [Terminal(false), Retain(0), CallerDials(0, Opens), CallerFinishes(0)]).link)
  {
    var down := [] + [Terminal(false)];
    var asked := down + [Retain(0)];
    var dialled := asked + [CallerDials(0, Opens)];
    OneMoreStep([], Terminal(false));
    OneMoreStep(down, Retain(0));
    OneMoreStep(asked, CallerDials(0, Opens));
    OneMoreStep(dialled, CallerFinishes(0));
    assert After(NewSystem, asked).callers[0] == Dialing;
    assert dialled + [CallerFinishes(0)] == [Terminal(false), Retain(0), CallerDials(0, Opens), CallerFinishes(0)];
  }

  lemma OneMoreStep(actions: seq<Action>, a: Action)
    ensures After(NewSystem, actions + [a]) == Step(After(NewSystem, actions), a)
  {
    assert (actions + [a])[..|actions|] == actions;
  }
}

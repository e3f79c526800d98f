/**
 What the phone's library tells the app (crates/condr-mobile/src/companion.rs): changes gather in a
 set until the app takes them, the notifier thread calls `changed` at most once in between, and
 one-time results wait in a short queue.
 */
module CompanionNotices {
  const MAX_EVENTS: nat := 64

  type Address = nat

  datatype Change = Devices | NeedsYou | DeviceChange(address: Address) | TerminalChange(address: Address, pane: nat)

  datatype Event = ErrorEvent(address: Address, text: nat) | Copied(text: nat) | Clipboard(text: nat)

  datatype State = State(
    changes: set<Change>,
    notified: bool,
    wakeNotifier: bool,
    events: seq<Event>,
    closed: bool)

  const NewState: State := State({}, false, false, [], false)

  function Mark(s: State, change: Change): State {
    s.(changes := s.changes + {change}, notified := true, wakeNotifier := s.wakeNotifier || !s.notified)
  }

  /** The results that something takes out of the queue: an older clipboard, or what a Device left. */
  datatype Strike = OlderClipboard | LeftBy(address: Address)
  {
    /** A new connection to a Device leaves the errors of other Devices alone. */
    predicate Takes(event: Event) {
      match this
      case OlderClipboard => event.Clipboard?
      case LeftBy(address) => event.ErrorEvent? ==> event.address == address
    }
  }

  function StrikeOut(events: seq<Event>, strike: Strike): seq<Event> {
    if events == [] then []
    else
      var front, last := StrikeOut(events[..|events| - 1], strike), events[|events| - 1];
      if strike.Takes(last) then front else front + [last]
  }

  function ForgetEventsOf(s: State, address: Address): State {
    s.(events := StrikeOut(s.events, LeftBy(address)))
  }

  /** The queue with one more: only the last clipboard waits, and the oldest goes when it is full. */
  function Queued(events: seq<Event>, event: Event): seq<Event> {
    var waiting := if event.Clipboard? then StrikeOut(events, OlderClipboard) else events;
    (if |waiting| == MAX_EVENTS then waiting[1..] else waiting) + [event]
  }

  function PushEvent(s: State, event: Event): State {
    Mark(s.(events := Queued(s.events, event)), Devices)
  }

  function TakeChanges(s: State): (State, set<Change>) {
    (s.(changes := {}, notified := false), s.changes)
  }

  /** The results waiting, oldest first; none stays behind. */
  function TakeEvents(s: State): (State, seq<Event>) {
    (s.(events := []), s.events)
  }

  /** The notifier's locked section: whether it is to call `changed`, which it does without the lock. */
  function Notify(s: State): (State, bool) {
    if s.closed || !s.wakeNotifier then (s, false) else (s.(wakeNotifier := false), true)
  }

  // ----- The state as the source runs it -----

  class CompanionState {
    var changes: set<Change>
    var notified: bool
    var wakeNotifier: bool
    var events: seq<Event>
    var closed: bool

    ghost function Current(): State
      reads this
    {
      State(changes, notified, wakeNotifier, events, closed)
    }

    constructor ()
      ensures Current() == NewState
    {
      changes, notified, wakeNotifier, events, closed := {}, false, false, [], false;
    }

    method MarkChange(change: Change)
      modifies this
      ensures Current() == Mark(old(Current()), change)
    {
      changes := changes + {change};
      if !notified {
        notified, wakeNotifier := true, true;
      }
    }

    method Push(event: Event)
      modifies this
      ensures Current() == PushEvent(old(Current()), event)
    {
      if event.Clipboard? {
        events := StrikeOut(events, OlderClipboard);
      }
      if |events| == MAX_EVENTS {
        events := events[1..];
      }
      events := events + [event];
      MarkChange(Devices);
    }

    method Forget(address: Address)
      modifies this`events
      ensures Current() == ForgetEventsOf(old(Current()), address)
    {
      events := StrikeOut(events, LeftBy(address));
    }

    method Take() returns (taken: set<Change>)
      modifies this`changes, this`notified
      ensures (Current(), taken) == TakeChanges(old(Current()))
    {
      notified := false;
      taken := changes;
      changes := {};
    }

    method DrainEvents() returns (drained: seq<Event>)
      modifies this`events
      ensures (Current(), drained) == TakeEvents(old(Current()))
    {
      drained := events;
      events := [];
    }

    /** The flag goes under the lock; the caller lets go of the lock before it calls `changed`. */
    method NotifyOnce() returns (due: bool)
      modifies this`wakeNotifier
      ensures (Current(), due) == Notify(old(Current()))
    {
      due := !closed && wakeNotifier;
      if due {
        wakeNotifier := false;
      }
    }
  }

  // ----- The library, its notifier and the app together -----

  datatype Action = Marks(change: Change) | Pushes(event: Event) | Forgets(address: Address)
                  | AppTakes | AppTakesEvents | NotifierWakes | NotifierCalls | Shutdown

  /** A result with its number among all that were ever pushed. */
  datatype Numbered = Numbered(number: nat, event: Event)

  /**
   `calling` is set while the notifier is between its locked section and the end of its call. `calls`
   counts the calls of `changed`, `takes` those of `take_changes`, and `since` the calls since the last
   of these, at which `owed` calls were due or under way. `told` is whether the notifier has called
   since then with a change waiting. `pushed` holds every result ever pushed, `waiting` says which ones
   those in the queue are, and `given` which ones the app took.
   */
  datatype System = System(
    state: State,
    calling: bool,
    calls: nat,
    takes: nat,
    since: nat,
    owed: nat,
    told: bool,
    pushed: seq<Event>,
    waiting: seq<Numbered>,
    given: seq<Numbered>)

  const NewSystem: System := System(NewState, false, 0, 0, 0, 0, false, [], [], [])

  /** How many calls are due or under way. */
  function Due(s: System): nat {
    (if s.state.wakeNotifier then 1 else 0) + (if s.calling then 1 else 0)
  }

  function StrikeOutOf(waiting: seq<Numbered>, strike: Strike): seq<Numbered> {
    if waiting == [] then []
    else
      var front, last := StrikeOutOf(waiting[..|waiting| - 1], strike), waiting[|waiting| - 1];
      if strike.Takes(last.event) then front else front + [last]
  }

  /** What a push leaves of those waiting, apart from the oldest one when they are too many. */
  function Spared(waiting: seq<Numbered>, event: Event): seq<Numbered> {
    if event.Clipboard? then StrikeOutOf(waiting, OlderClipboard) else waiting
  }

  /** What a push keeps of those waiting. */
  function Remaining(waiting: seq<Numbered>, event: Event): seq<Numbered> {
    var spared := Spared(waiting, event);
    if |spared| == MAX_EVENTS then spared[1..] else spared
  }

  function Line(waiting: seq<Numbered>, next: Numbered): seq<Numbered> {
    Remaining(waiting, next.event) + [next]
  }

  function Step(s: System, a: Action): System {
    match a
    case Marks(change) => s.(state := Mark(s.state, change))
    case Pushes(event) =>
      s.(state := PushEvent(s.state, event), pushed := s.pushed + [event],
         waiting := Line(s.waiting, Numbered(|s.pushed|, event)))
    case Forgets(address) =>
      s.(state := ForgetEventsOf(s.state, address), waiting := StrikeOutOf(s.waiting, LeftBy(address)))
    case AppTakes =>
      s.(state := TakeChanges(s.state).0, takes := s.takes + 1, since := 0, owed := Due(s), told := false)
    case AppTakesEvents => s.(state := TakeEvents(s.state).0, waiting := [], given := s.given + s.waiting)
    case NotifierWakes =>
      if s.calling then s
      else
        var (state, due) := Notify(s.state);
        s.(state := state, calling := due)
    case NotifierCalls =>
      if !s.calling then s
      else s.(calling := false, calls := s.calls + 1, since := s.since + 1, told := s.told || s.state.notified)
    case Shutdown => s.(state := s.state.(closed := true))
  }

  function After(s: System, actions: seq<Action>): System {
    if actions == [] then s else Step(After(s, actions[..|actions| - 1]), actions[|actions| - 1])
  }

  function Clipboards(events: seq<Event>): nat {
    if events == [] then 0
    else Clipboards(events[..|events| - 1]) + (if events[|events| - 1].Clipboard? then 1 else 0)
  }

  /** While a change waits the app was called for it or is about to be, and not more often than it takes. */
  predicate Told(s: System) {
    && (s.state.changes != {} ==> s.state.notified)
    && (s.state.notified ==> s.told || s.calling || s.state.wakeNotifier)
    && s.calls + Due(s) <= s.takes + (if s.state.notified then 1 else 0)
    && s.since + Due(s) <= s.owed + (if s.state.notified then 1 else 0)
  }

  predicate Short(events: seq<Event>) {
    |events| <= MAX_EVENTS && Clipboards(events) <= 1
  }

  // ----- Each step keeps it -----

  lemma {:induction false} FewerWhenStruck(events: seq<Event>, strike: Strike)
    ensures |StrikeOut(events, strike)| <= |events|
    ensures Clipboards(StrikeOut(events, strike)) == 0
  {
    if events != [] {
      var front := StrikeOut(events[..|events| - 1], strike);
      FewerWhenStruck(events[..|events| - 1], strike);
      assert (front + [events[|events| - 1]])[..|front|] == front;
    }
  }

  lemma {:induction false} DroppingOldest(events: seq<Event>)
    requires events != []
    ensures Clipboards(events[1..]) <= Clipboards(events)
  {
    if |events| > 1 {
      DroppingOldest(events[..|events| - 1]);
      assert events[1..][..|events| - 2] == events[..|events| - 1][1..];
    }
  }

  lemma OneMoreClipboard(events: seq<Event>, event: Event)
    ensures Clipboards(events + [event]) == Clipboards(events) + (if event.Clipboard? then 1 else 0)
  {
    assert (events + [event])[..|events|] == events;
  }

  lemma QueueStaysShort(events: seq<Event>, event: Event)
    requires Short(events)
    ensures Short(Queued(events, event))
  {
    var waiting := if event.Clipboard? then StrikeOut(events, OlderClipboard) else events;
    FewerWhenStruck(events, OlderClipboard);
    assert |waiting| <= MAX_EVENTS && Clipboards(waiting) + (if event.Clipboard? then 1 else 0) <= 1;
    if |waiting| == MAX_EVENTS {
      DroppingOldest(waiting);
      OneMoreClipboard(waiting[1..], event);
    } else {
      OneMoreClipboard(waiting, event);
    }
  }

  lemma StepKeepsTold(s: System, a: Action)
    requires Told(s)
    ensures Told(Step(s, a))
  {
  }

  lemma StepKeepsShort(s: System, a: Action)
    requires Short(s.state.events)
    ensures Short(Step(s, a).state.events)
  {
    match a {
      case Pushes(event) => QueueStaysShort(s.state.events, event);
      case Forgets(address) => FewerWhenStruck(s.state.events, LeftBy(address));
      case _ =>
    }
  }

  // ----- Over whole runs -----

  /** And never more than 64 results wait, of them one clipboard at most. */
  lemma {:induction false} RunsStaySound(actions: seq<Action>)
    ensures Told(After(NewSystem, actions)) && Short(After(NewSystem, actions).state.events)
  {
    if actions != [] {
      var before := After(NewSystem, actions[..|actions| - 1]);
      RunsStaySound(actions[..|actions| - 1]);
      StepKeepsTold(before, actions[|actions| - 1]);
      StepKeepsShort(before, actions[|actions| - 1]);
    }
  }

  /**
   `changed` comes at most once more than `take_changes` ran, however many changes arrive; and after
   each of these at most once more than were due or under way when it ran.
   */
  lemma ChangedOncePerTake(actions: seq<Action>)
    ensures var s := After(NewSystem, actions);
            s.calls + Due(s) <= s.takes + 1 && s.since + Due(s) <= s.owed + 1
  {
    RunsStaySound(actions);
  }

  /** The action reports `change`; a result also reports that there is one. */
  predicate Reports(a: Action, change: Change) {
    a == Marks(change) || (a.Pushes? && change == Devices)
  }

  predicate NoTakeAfter(actions: seq<Action>, k: nat) {
    forall j :: k < j < |actions| ==> actions[j] != AppTakes
  }

  /** `change` was reported after the app last took the changes, however often before. */
  predicate ReportedSinceTake(actions: seq<Action>, change: Change) {
    exists k :: 0 <= k < |actions| && Reports(actions[k], change) && NoTakeAfter(actions, k)
  }

  lemma ReportedNext(actions: seq<Action>, change: Change)
    requires actions != []
    ensures var front, last := actions[..|actions| - 1], actions[|actions| - 1];
            ReportedSinceTake(actions, change) <==>
              Reports(last, change) || (last != AppTakes && ReportedSinceTake(front, change))
  {
    var front, last := actions[..|actions| - 1], actions[|actions| - 1];
    if Reports(last, change) {
      assert NoTakeAfter(actions, |actions| - 1);
    } else if last == AppTakes {
      assert forall k :: 0 <= k < |front| ==> !NoTakeAfter(actions, k);
    } else {
      StillReported(front, last, change);
      assert front + [last] == actions;
    }
  }

  lemma StillReported(front: seq<Action>, last: Action, change: Change)
    requires last != AppTakes && !Reports(last, change)
    ensures ReportedSinceTake(front + [last], change) <==> ReportedSinceTake(front, change)
  {
    var actions := front + [last];
    forall k | 0 <= k < |front| ensures actions[k] == front[k] && (NoTakeAfter(actions, k) <==> NoTakeAfter(front, k)) {
      if NoTakeAfter(actions, k) {
        assert forall j :: k < j < |front| ==> actions[j] == front[j];
      }
    }
  }

  lemma ChangesAfter(s: System, a: Action, change: Change)
    ensures change in Step(s, a).state.changes <==> Reports(a, change) || (a != AppTakes && change in s.state.changes)
  {
  }

  /** The next `take_changes` gives exactly the changes reported since the last one. */
  lemma {:induction false} TakesWhatWasReported(actions: seq<Action>, change: Change)
    ensures change in TakeChanges(After(NewSystem, actions).state).1 <==> ReportedSinceTake(actions, change)
  {
    if actions != [] {
      TakesWhatWasReported(actions[..|actions| - 1], change);
      ReportedNext(actions, change);
      ChangesAfter(After(NewSystem, actions[..|actions| - 1]), actions[|actions| - 1], change);
    }
  }

  lemma {:induction false} AfterConcat(s: System, actions: seq<Action>, more: seq<Action>)
    ensures After(s, actions + more) == After(After(s, actions), more)
  {
    if more == [] {
      assert actions + more == actions;
    } else {
      AfterConcat(s, actions, more[..|more| - 1]);
      assert (actions + more)[..|actions + more| - 1] == actions + more[..|more| - 1];
    }
  }

  /**
   A change that was reported, for the first time or again, waits until the app takes it, whatever
   else happens, and the app was told since it last took any, or the notifier has yet to run.
   */
  lemma NoChangeIsLost(actions: seq<Action>, a: Action, change: Change, more: seq<Action>)
    requires Reports(a, change) && AppTakes !in more
    ensures var s := After(Step(After(NewSystem, actions), a), more);
            && change in TakeChanges(s.state).1
            && (s.told || s.calling || s.state.closed || Notify(s.state).1)
  {
    var run := actions + [a] + more;
    AfterConcat(NewSystem, actions + [a], more);
    assert (actions + [a])[..|actions|] == actions;
    assert run[|actions|] == a;
    forall j | |actions| < j < |run| ensures run[j] != AppTakes {
      assert run[j] == more[j - |actions| - 1];
    }
    assert NoTakeAfter(run, |actions|);
    TakesWhatWasReported(run, change);
    RunsStaySound(run);
  }

  // ----- Results are given once, in order, and none is lost but by the rules -----

  function Values(results: seq<Numbered>): seq<Event> {
    if results == [] then [] else Values(results[..|results| - 1]) + [results[|results| - 1].event]
  }

  /** The results were pushed in this order, each once, and fewer than `bound` were pushed before the next. */
  predicate InOrder(results: seq<Numbered>, pushed: seq<Event>, bound: nat) {
    results == []
    || var last := results[|results| - 1];
       && last.number < bound && last.number < |pushed| && pushed[last.number] == last.event
       && InOrder(results[..|results| - 1], pushed, last.number)
  }

  predicate Has(results: seq<Numbered>, number: nat) {
    results != [] && (results[|results| - 1].number == number || Has(results[..|results| - 1], number))
  }

  lemma {:induction false} OrderLoosens(results: seq<Numbered>, pushed: seq<Event>, bound: nat, more: seq<Event>,
                                        later: nat)
    requires InOrder(results, pushed, bound) && pushed <= more && bound <= later
    ensures InOrder(results, more, later)
  {
    if results != [] {
      var number := results[|results| - 1].number;
      OrderLoosens(results[..|results| - 1], pushed, number, more, number);
    }
  }

  lemma Appended<T>(a: seq<T>, b: seq<T>)
    requires b != []
    ensures (a + b)[..|a + b| - 1] == a + b[..|b| - 1] && (a + b)[|a + b| - 1] == b[|b| - 1]
  {
  }

  /** Striking out leaves the order alone. */
  lemma {:induction false} StruckInOrder(given: seq<Numbered>, waiting: seq<Numbered>, strike: Strike,
                                         pushed: seq<Event>, bound: nat)
    requires InOrder(given + waiting, pushed, bound)
    ensures InOrder(given + StrikeOutOf(waiting, strike), pushed, bound)
    decreases |waiting|
  {
    if waiting == [] {
      assert StrikeOutOf(waiting, strike) == waiting;
    } else {
      var front, last := waiting[..|waiting| - 1], waiting[|waiting| - 1];
      var struck := StrikeOutOf(front, strike);
      Appended(given, waiting);
      StruckInOrder(given, front, strike, pushed, last.number);
      if strike.Takes(last.event) {
        OrderLoosens(given + struck, pushed, last.number, pushed, bound);
      } else {
        Appended(given, struck + [last]);
        assert (struck + [last])[..|struck|] == struck;
      }
    }
  }

  lemma {:induction false} OldestLeaves(given: seq<Numbered>, waiting: seq<Numbered>, pushed: seq<Event>, bound: nat)
    requires waiting != [] && InOrder(given + waiting, pushed, bound)
    ensures InOrder(given + waiting[1..], pushed, bound)
  {
    var front, last := waiting[..|waiting| - 1], waiting[|waiting| - 1];
    Appended(given, waiting);
    if |waiting| == 1 {
      assert given + waiting[1..] == given + front;
      OrderLoosens(given, pushed, last.number, pushed, bound);
      assert given + front == given;
    } else {
      OldestLeaves(given, front, pushed, last.number);
      assert waiting[1..] == front[1..] + [last];
      Appended(given, waiting[1..]);
    }
  }

  lemma PushInOrder(results: seq<Numbered>, pushed: seq<Event>, event: Event)
    requires InOrder(results, pushed, |pushed|)
    ensures InOrder(results + [Numbered(|pushed|, event)], pushed + [event], |pushed| + 1)
  {
    OrderLoosens(results, pushed, |pushed|, pushed + [event], |pushed|);
    Appended(results, [Numbered(|pushed|, event)]);
    assert results + [] == results;
  }

  lemma {:induction false} StruckValues(waiting: seq<Numbered>, strike: Strike)
    ensures Values(StrikeOutOf(waiting, strike)) == StrikeOut(Values(waiting), strike)
  {
    if waiting != [] {
      StruckValues(waiting[..|waiting| - 1], strike);
      Appended(Values(waiting[..|waiting| - 1]), [waiting[|waiting| - 1].event]);
      Appended(StrikeOutOf(waiting[..|waiting| - 1], strike), [waiting[|waiting| - 1]]);
      assert forall front: seq<Event> :: front + [] == front;
      assert forall front: seq<Numbered> :: front + [] == front;
    }
  }

  lemma ValuesPush(waiting: seq<Numbered>, next: Numbered)
    ensures Values(waiting + [next]) == Values(waiting) + [next.event]
  {
    assert (waiting + [next])[..|waiting|] == waiting;
  }

  lemma {:induction false} ValuesTail(waiting: seq<Numbered>)
    ensures |Values(waiting)| == |waiting|
    ensures waiting != [] ==> Values(waiting[1..]) == Values(waiting)[1..]
  {
    if waiting != [] {
      var front, last := waiting[..|waiting| - 1], waiting[|waiting| - 1];
      ValuesTail(front);
      if front != [] {
        assert waiting[1..] == front[1..] + [last];
        ValuesPush(front[1..], last);
      }
    }
  }

  /** What waits is what the queue holds, and with what was given it is in the order it was pushed. */
  predicate Tracked(s: System) {
    Values(s.waiting) == s.state.events && InOrder(s.given + s.waiting, s.pushed, |s.pushed|)
  }

  lemma RemainingInOrder(given: seq<Numbered>, waiting: seq<Numbered>, event: Event, pushed: seq<Event>, bound: nat)
    requires InOrder(given + waiting, pushed, bound)
    ensures InOrder(given + Spared(waiting, event), pushed, bound)
    ensures InOrder(given + Remaining(waiting, event), pushed, bound)
  {
    StruckInOrder(given, waiting, OlderClipboard, pushed, bound);
    var spared := Spared(waiting, event);
    if |spared| == MAX_EVENTS {
      OldestLeaves(given, spared, pushed, bound);
    }
  }

  lemma LineKeepsOrder(s: System, event: Event)
    requires InOrder(s.given + s.waiting, s.pushed, |s.pushed|)
    ensures InOrder(s.given + Line(s.waiting, Numbered(|s.pushed|, event)), s.pushed + [event], |s.pushed| + 1)
  {
    var next, kept := Numbered(|s.pushed|, event), Remaining(s.waiting, event);
    RemainingInOrder(s.given, s.waiting, event, s.pushed, |s.pushed|);
    PushInOrder(s.given + kept, s.pushed, event);
    assert s.given + (kept + [next]) == s.given + kept + [next];
  }

  lemma LineIsQueue(waiting: seq<Numbered>, next: Numbered)
    ensures Values(Line(waiting, next)) == Queued(Values(waiting), next.event)
  {
    var spared := Spared(waiting, next.event);
    StruckValues(waiting, OlderClipboard);
    ValuesTail(spared);
    ValuesPush(Remaining(waiting, next.event), next);
  }

  lemma StepKeepsTracked(s: System, a: Action)
    requires Tracked(s)
    ensures Tracked(Step(s, a))
  {
    match a {
      case Pushes(event) =>
        LineKeepsOrder(s, event);
        LineIsQueue(s.waiting, Numbered(|s.pushed|, event));
      case Forgets(address) =>
        StruckInOrder(s.given, s.waiting, LeftBy(address), s.pushed, |s.pushed|);
        StruckValues(s.waiting, LeftBy(address));
      case AppTakesEvents => assert s.given + s.waiting + [] == s.given + s.waiting;
      case _ =>
    }
  }

  /** What the app was given, and what still waits behind it, are results pushed, each once and in order. */
  lemma {:induction false} ResultsComeOnceInOrder(actions: seq<Action>)
    ensures var s := After(NewSystem, actions);
            InOrder(s.given + s.waiting, s.pushed, |s.pushed|) && TakeEvents(s.state).1 == Values(s.waiting)
    ensures Tracked(After(NewSystem, actions))
  {
    if actions != [] {
      ResultsComeOnceInOrder(actions[..|actions| - 1]);
      StepKeepsTracked(After(NewSystem, actions[..|actions| - 1]), actions[|actions| - 1]);
    }
  }

  lemma {:induction false} SuffixInOrder(given: seq<Numbered>, waiting: seq<Numbered>, pushed: seq<Event>, bound: nat)
    requires InOrder(given + waiting, pushed, bound)
    ensures InOrder(waiting, pushed, bound)
    ensures forall number: nat :: Has(waiting, number) ==> !Has(given, number)
  {
    if waiting != [] {
      Appended(given, waiting);
      var front, last := waiting[..|waiting| - 1], waiting[|waiting| - 1];
      SuffixInOrder(given, front, pushed, last.number);
      PrefixInOrder(given, front, pushed, last.number);
    }
  }

  lemma {:induction false} PrefixInOrder(given: seq<Numbered>, waiting: seq<Numbered>, pushed: seq<Event>, bound: nat)
    requires InOrder(given + waiting, pushed, bound)
    ensures InOrder(given, pushed, bound)
    ensures forall number: nat :: Has(given, number) ==> number < bound
  {
    if waiting == [] {
      assert given + waiting == given;
      BelowBound(given, pushed, bound);
    } else {
      Appended(given, waiting);
      PrefixInOrder(given, waiting[..|waiting| - 1], pushed, waiting[|waiting| - 1].number);
      OrderLoosens(given, pushed, waiting[|waiting| - 1].number, pushed, bound);
    }
  }

  lemma {:induction false} BelowBound(results: seq<Numbered>, pushed: seq<Event>, bound: nat)
    requires InOrder(results, pushed, bound)
    ensures forall number: nat :: Has(results, number) ==> number < bound
    ensures results != [] ==> results[0].number + |results| <= bound
  {
    if results != [] {
      BelowBound(results[..|results| - 1], pushed, results[|results| - 1].number);
    }
  }

  /** Striking out takes exactly the results it is about. */
  lemma {:induction false} StruckExactly(waiting: seq<Numbered>, strike: Strike, pushed: seq<Event>, bound: nat,
                                         number: nat)
    requires InOrder(waiting, pushed, bound) && Has(waiting, number)
    ensures number < |pushed|
    ensures Has(StrikeOutOf(waiting, strike), number) <==> !strike.Takes(pushed[number])
  {
    var front, last := waiting[..|waiting| - 1], waiting[|waiting| - 1];
    var struck := StrikeOutOf(front, strike);
    assert (struck + [last])[..|struck|] == struck;
    if last.number == number {
      StruckBelow(front, strike, pushed, number);
    } else {
      StruckExactly(front, strike, pushed, last.number, number);
    }
  }

  lemma StruckBelow(waiting: seq<Numbered>, strike: Strike, pushed: seq<Event>, bound: nat)
    requires InOrder(waiting, pushed, bound)
    ensures !Has(StrikeOutOf(waiting, strike), bound)
  {
    assert [] + waiting == waiting;
    StruckInOrder([], waiting, strike, pushed, bound);
    assert [] + StrikeOutOf(waiting, strike) == StrikeOutOf(waiting, strike);
    BelowBound(StrikeOutOf(waiting, strike), pushed, bound);
  }

  lemma {:induction false} TailHas(waiting: seq<Numbered>, pushed: seq<Event>, bound: nat, number: nat)
    requires InOrder(waiting, pushed, bound) && waiting != []
    ensures Has(waiting[1..], number) <==> Has(waiting, number) && waiting[0].number != number
  {
    var front, last := waiting[..|waiting| - 1], waiting[|waiting| - 1];
    BelowBound(front, pushed, last.number);
    if front == [] {
      assert waiting[1..] == [];
    } else {
      TailHas(front, pushed, last.number, number);
      assert waiting[1..][..|waiting| - 2] == front[1..];
    }
  }

  /** A connection to its Device forgets a result, and a newer clipboard replaces an older one. */
  predicate Removes(a: Action, event: Event) {
    match a
    case Forgets(address) => LeftBy(address).Takes(event)
    case Pushes(next) => next.Clipboard? && event.Clipboard?
    case _ => false
  }

  /** A push finds result `number` to be the oldest of as many as may wait. */
  predicate Overflows(s: System, a: Action, number: nat) {
    && a.Pushes?
    && var spared := Spared(s.waiting, a.event); |spared| == MAX_EVENTS && spared[0].number == number
  }

  lemma LineHas(kept: seq<Numbered>, next: Numbered, number: nat)
    ensures Has(kept + [next], number) <==> Has(kept, number) || next.number == number
  {
    assert (kept + [next])[..|kept|] == kept;
  }

  lemma RemainingHas(waiting: seq<Numbered>, event: Event, pushed: seq<Event>, bound: nat, number: nat)
    requires InOrder(waiting, pushed, bound) && InOrder(Spared(waiting, event), pushed, bound) && Has(waiting, number)
    ensures number < |pushed|
    ensures var spared := Spared(waiting, event);
            Has(Remaining(waiting, event), number) <==>
              !Removes(Pushes(event), pushed[number]) && !(|spared| == MAX_EVENTS && spared[0].number == number)
  {
    StruckExactly(waiting, OlderClipboard, pushed, bound, number);
    var spared := Spared(waiting, event);
    if |spared| == MAX_EVENTS {
      TailHas(spared, pushed, bound, number);
    }
  }

  lemma PushLosesExactly(s: System, event: Event, number: nat)
    requires Tracked(s) && Has(s.waiting, number)
    ensures number < |s.pushed|
    ensures Has(Line(s.waiting, Numbered(|s.pushed|, event)), number)
            <==> !Removes(Pushes(event), s.pushed[number]) && !Overflows(s, Pushes(event), number)
  {
    var bound := |s.pushed|;
    SuffixInOrder(s.given, s.waiting, s.pushed, bound);
    BelowBound(s.waiting, s.pushed, bound);
    RemainingInOrder(s.given, s.waiting, event, s.pushed, bound);
    SuffixInOrder(s.given, Spared(s.waiting, event), s.pushed, bound);
    RemainingHas(s.waiting, event, s.pushed, bound, number);
    LineHas(Remaining(s.waiting, event), Numbered(bound, event), number);
  }

  /** A waiting result leaves the queue without being given exactly when something removes it or it overflows. */
  lemma ResultLeavesExactly(s: System, a: Action, number: nat)
    requires Tracked(s) && Has(s.waiting, number)
    ensures number < |s.pushed|
    ensures Has(Step(s, a).waiting, number) || Has(Step(s, a).given, number)
            <==> !Removes(a, s.pushed[number]) && !Overflows(s, a, number)
  {
    SuffixInOrder(s.given, s.waiting, s.pushed, |s.pushed|);
    StruckExactly(s.waiting, OlderClipboard, s.pushed, |s.pushed|, number);
    match a {
      case Pushes(event) => PushLosesExactly(s, event, number);
      case Forgets(address) => StruckExactly(s.waiting, LeftBy(address), s.pushed, |s.pushed|, number);
      case AppTakesEvents => HasAfter(s.given, s.waiting, number);
      case _ =>
    }
  }

  lemma {:induction false} HasAfter(given: seq<Numbered>, waiting: seq<Numbered>, number: nat)
    ensures Has(given + waiting, number) <==> Has(given, number) || Has(waiting, number)
  {
    if waiting == [] {
      assert given + waiting == given;
    } else {
      Appended(given, waiting);
      HasAfter(given, waiting[..|waiting| - 1], number);
    }
  }

  /** Something removed result `number` after it was pushed. */
  predicate RemovedLater(actions: seq<Action>, number: nat) {
    actions != []
    && var before, last := After(NewSystem, actions[..|actions| - 1]), actions[|actions| - 1];
       || RemovedLater(actions[..|actions| - 1], number)
       || (number < |before.pushed| && Removes(last, before.pushed[number]))
  }

  /**
   Every result ever pushed was given to the app or waits for it, unless at least 64 later ones
   came, a newer clipboard replaced it or a connection to its Device forgot it.
   */
  lemma {:induction false} NoResultIsLost(actions: seq<Action>, number: nat)
    requires number < |After(NewSystem, actions).pushed|
    ensures var s := After(NewSystem, actions);
            || Has(s.given, number) || Has(s.waiting, number)
            || number + MAX_EVENTS < |s.pushed|
            || RemovedLater(actions, number)
  {
    if actions != [] {
      var before, last := After(NewSystem, actions[..|actions| - 1]), actions[|actions| - 1];
      ResultsComeOnceInOrder(actions[..|actions| - 1]);
      PushedGrows(before, last);
      if number < |before.pushed| {
        NoResultIsLost(actions[..|actions| - 1], number);
        if Has(before.given, number) || Has(before.waiting, number) { LaterStep(before, last, number); }
      }
    }
  }

  /** A result that is new waits. */
  lemma PushedGrows(s: System, a: Action)
    ensures s.pushed <= Step(s, a).pushed
    ensures forall number: nat :: |s.pushed| <= number < |Step(s, a).pushed| ==> Has(Step(s, a).waiting, number)
  {
    if a.Pushes? {
      LineHas(Remaining(s.waiting, a.event), Numbered(|s.pushed|, a.event), |s.pushed|);
    }
  }

  lemma LaterStep(s: System, a: Action, number: nat)
    requires Tracked(s) && number < |s.pushed| && (Has(s.given, number) || Has(s.waiting, number))
    ensures var after := Step(s, a);
            || Has(after.given, number) || Has(after.waiting, number)
            || number + MAX_EVENTS < |after.pushed| || Removes(a, s.pushed[number])
  {
    HasAfter(s.given, s.waiting, number);
    if Has(s.waiting, number) {
      ResultLeavesExactly(s, a, number);
      if Overflows(s, a, number) {
        StruckInOrder(s.given, s.waiting, OlderClipboard, s.pushed, |s.pushed|);
        SuffixInOrder(s.given, Spared(s.waiting, a.event), s.pushed, |s.pushed|);
        BelowBound(Spared(s.waiting, a.event), s.pushed, |s.pushed|);
      }
    }
  }
}

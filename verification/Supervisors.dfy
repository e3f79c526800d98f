/**
 How often the Supervisor starts a crashed Server again (crates/condr-server/src/supervisor.rs): a
 sliding window that holds at most four restarts. Times count nanoseconds on the monotonic clock.
 */
module Supervisors {
  const RESTART_WINDOW: nat := 60_000_000_000
  const MAX_RESTARTS: nat := 4

  /** The restarts that are still inside the window that ends at `now`. */
  function Recent(restarts: seq<nat>, now: nat): seq<nat>
    decreases |restarts|
  {
    if restarts != [] && now - restarts[0] >= RESTART_WINDOW then Recent(restarts[1..], now) else restarts
  }

  function MayRestart(restarts: seq<nat>, now: nat): (seq<nat>, bool) {
    var recent := Recent(restarts, now);
    if |recent| >= MAX_RESTARTS then (recent, false) else (recent + [now], true)
  }

  class Limiter {
    var restarts: seq<nat>

    constructor ()
      ensures restarts == []
    {
      restarts := [];
    }

    method Record(now: nat) returns (ok: bool)
      modifies this
      ensures (restarts, ok) == MayRestart(old(restarts), now)
    {
      while restarts != [] && now - restarts[0] >= RESTART_WINDOW
        invariant Recent(restarts, now) == Recent(old(restarts), now)
        decreases |restarts|
      {
        restarts := restarts[1..];
      }
      if |restarts| >= MAX_RESTARTS {
        return false;
      }
      restarts := restarts + [now];
      return true;
    }
  }

  /** The window and all accepted restarts after asking at each of `times`. */
  datatype Run = Run(restarts: seq<nat>, accepted: seq<nat>)

  function Ask(r: Run, now: nat): Run {
    var (restarts, ok) := MayRestart(r.restarts, now);
    Run(restarts, if ok then r.accepted + [now] else r.accepted)
  }

  function After(times: seq<nat>): Run {
    if times == [] then Run([], []) else Ask(After(times[..|times| - 1]), times[|times| - 1])
  }

  predicate Sorted(times: seq<nat>) {
    forall i, j :: 0 <= i <= j < |times| ==> times[i] <= times[j]
  }

  /** The window is the end of what was accepted; all before it had left the window by `now`. */
  predicate Sound(r: Run, now: nat) {
    && |r.restarts| <= MAX_RESTARTS && |r.restarts| <= |r.accepted|
    && r.restarts == r.accepted[|r.accepted| - |r.restarts|..]
    && Sorted(r.accepted)
    && (forall k :: 0 <= k < |r.accepted| ==> r.accepted[k] <= now)
    && (forall k :: 0 <= k < |r.accepted| - |r.restarts| ==> now - r.accepted[k] >= RESTART_WINDOW)
    && (forall k :: 0 <= k < |r.accepted| - MAX_RESTARTS ==>
          r.accepted[k + MAX_RESTARTS] - r.accepted[k] >= RESTART_WINDOW)
  }

  /** Leaving the window at a later time drops a prefix, all of it old enough, and nothing newer. */
  lemma {:induction false} RecentIsSuffix(restarts: seq<nat>, now: nat)
    ensures var recent := Recent(restarts, now);
            && |recent| <= |restarts| && recent == restarts[|restarts| - |recent|..]
            && (forall k :: 0 <= k < |restarts| - |recent| ==> now - restarts[k] >= RESTART_WINDOW)
            && (recent != [] ==> now - recent[0] < RESTART_WINDOW)
    decreases |restarts|
  {
    if restarts != [] && now - restarts[0] >= RESTART_WINDOW {
      RecentIsSuffix(restarts[1..], now);
      var recent := Recent(restarts, now);
      assert restarts[1..][|restarts| - 1 - |recent|..] == restarts[|restarts| - |recent|..];
      forall k | 0 <= k < |restarts| - |recent| ensures now - restarts[k] >= RESTART_WINDOW {
        if k > 0 { assert restarts[1..][k - 1] == restarts[k]; }
      }
    }
  }

  /** Where the window begins among the accepted restarts once it ends at `now`. */
  lemma WindowAt(r: Run, before: nat, now: nat)
    requires Sound(r, before) && before <= now
    ensures var recent := Recent(r.restarts, now);
            var from := |r.accepted| - |recent|;
            && 0 <= from && recent == r.accepted[from..]
            && (forall k :: 0 <= k < from ==> now - r.accepted[k] >= RESTART_WINDOW)
            && (forall k :: from <= k < |r.accepted| ==> now - r.accepted[k] < RESTART_WINDOW)
  {
    RecentIsSuffix(r.restarts, now);
    var recent := Recent(r.restarts, now);
    var from, outside := |r.accepted| - |recent|, |r.accepted| - |r.restarts|;
    forall k | 0 <= k < from ensures now - r.accepted[k] >= RESTART_WINDOW {
      if k >= outside { assert r.accepted[k] == r.restarts[k - outside]; }
    }
    if recent != [] { assert recent[0] == r.accepted[from]; }
  }

  lemma AcceptingKeeps(r: Run, now: nat, from: nat)
    requires from <= |r.accepted| && |r.accepted| - from < MAX_RESTARTS
    requires Sorted(r.accepted) && forall k :: 0 <= k < |r.accepted| ==> r.accepted[k] <= now
    requires forall k :: 0 <= k < from ==> now - r.accepted[k] >= RESTART_WINDOW
    requires forall k :: 0 <= k < |r.accepted| - MAX_RESTARTS ==>
               r.accepted[k + MAX_RESTARTS] - r.accepted[k] >= RESTART_WINDOW
    ensures Sound(Run(r.accepted[from..] + [now], r.accepted + [now]), now)
  {
    var accepted := r.accepted + [now];
    assert accepted[from..] == r.accepted[from..] + [now];
    forall k | 0 <= k < |accepted| - MAX_RESTARTS ensures accepted[k + MAX_RESTARTS] - accepted[k] >= RESTART_WINDOW {
      if k + MAX_RESTARTS == |r.accepted| { assert k < from; }
    }
  }

  lemma AskKeeps(r: Run, before: nat, now: nat)
    requires Sound(r, before) && before <= now
    ensures Sound(Ask(r, now), now)
  {
    WindowAt(r, before, now);
    var from := |r.accepted| - |Recent(r.restarts, now)|;
    if |Recent(r.restarts, now)| < MAX_RESTARTS { AcceptingKeeps(r, now, from); }
  }

  lemma {:induction false} RunsStaySound(times: seq<nat>)
    requires Sorted(times)
    ensures Sound(After(times), if times == [] then 0 else times[|times| - 1])
  {
    if times != [] {
      var front := times[..|times| - 1];
      RunsStaySound(front);
      AskKeeps(After(front), if front == [] then 0 else front[|front| - 1], times[|times| - 1]);
    }
  }

  /** Any five accepted restarts span at least the window. */
  lemma FiveSpanTheWindow(times: seq<nat>, i: nat, j: nat)
    requires Sorted(times) && i + MAX_RESTARTS <= j < |After(times).accepted|
    ensures After(times).accepted[j] - After(times).accepted[i] >= RESTART_WINDOW
  {
    RunsStaySound(times);
    var accepted := After(times).accepted;
    assert accepted[i + MAX_RESTARTS] <= accepted[j];
    assert accepted[i + MAX_RESTARTS] - accepted[i] >= RESTART_WINDOW;
  }

  lemma RefusedInWindow(r: Run, before: nat, now: nat)
    requires Sound(r, before) && before <= now
    ensures !MayRestart(r.restarts, now).1 <==>
              |r.accepted| >= MAX_RESTARTS && now - r.accepted[|r.accepted| - MAX_RESTARTS] < RESTART_WINDOW
  {
    WindowAt(r, before, now);
    RecentIsSuffix(r.restarts, now);
    var from := |r.accepted| - |Recent(r.restarts, now)|;
    if |r.accepted| >= MAX_RESTARTS {
      var k := |r.accepted| - MAX_RESTARTS;
      assert now - r.accepted[k] >= RESTART_WINDOW <==> k < from;
    }
  }

  /** A restart is refused exactly when the last four accepted ones all lie strictly inside the window. */
  lemma RefusedExactlyAfterFour(times: seq<nat>, now: nat)
    requires Sorted(times) && (times != [] ==> times[|times| - 1] <= now)
    ensures var accepted := After(times).accepted;
            !MayRestart(After(times).restarts, now).1 <==>
              |accepted| >= MAX_RESTARTS && now - accepted[|accepted| - MAX_RESTARTS] < RESTART_WINDOW
  {
    RunsStaySound(times);
    RefusedInWindow(After(times), if times == [] then 0 else times[|times| - 1], now);
  }
}

/**
 * The connection-timeout watcher of the web client: a restartable
 * single-shot deadline. Every refresh cancels the pending deadline and
 * schedules a new one TIMEOUT_SEC seconds later; when a deadline is reached
 * without a refresh the watcher marks itself disconnected and reports the
 * expiry to its owner (the `onDisconnected` callback).
 *
 * Wall-clock `setTimeout` is replaced by a virtual clock in integer
 * milliseconds: `Advance(now)` runs the expiry if its deadline is due.
 */
module Watchdog {
  import opened Wrappers

  const TIMEOUT_SEC: nat := 10
  const TimeoutMs: nat := TIMEOUT_SEC * 1000

  /** The watcher's state: its `connected` flag and its one pending deadline, if any. */
  datatype WatchState = WatchState(connected: bool, deadline: Option<int>)

  /** A freshly constructed watcher: connected, nothing scheduled. */
  function Initial(): (w: WatchState) {
    WatchState(true, None)
  }

  /** `notifyConnected` at time `now`: clear the pending deadline, schedule a new one. */
  function Refresh(w: WatchState, now: int): (w': WatchState) {
    w.(deadline := Some(now + TimeoutMs))
  }

  /** Is the pending deadline due at `now`? */
  predicate Due(w: WatchState, now: int) {
    w.deadline.Some? && w.deadline.value <= now
  }

  /** Letting the clock reach `now`: a due deadline fires once and is gone. */
  function Expire(w: WatchState, now: int): (w': WatchState) {
    if Due(w, now) then WatchState(false, None) else w
  }

  // ---------------------------------------------------------------------
  // Single steps

  lemma RefreshReplacesDeadline(w: WatchState, now: int)
    ensures Refresh(w, now).deadline == Some(now + 10000)
    ensures Refresh(w, now).connected == w.connected
    ensures !Due(Refresh(w, now), now)
  {
  }

  lemma ExpireFiresOnce(w: WatchState, now: int, later: int)
    requires Due(w, now)
    ensures !Expire(w, now).connected && Expire(w, now).deadline.None?
    ensures !Due(Expire(w, now), later) && Expire(Expire(w, now), later) == Expire(w, now)
  {
  }

  // ---------------------------------------------------------------------
  // Traces

  /** What happens to the watcher: a refresh, or the clock reaching a time. */
  datatype WatchInput = NotifyAt(t: int) | AdvanceTo(t: int)

  /** A refresh is delivered by the event loop after every timer due by then has run. */
  function StepInput(w: WatchState, i: WatchInput): (w': WatchState) {
    match i
    case NotifyAt(t) => Refresh(Expire(w, t), t)
    case AdvanceTo(t) => Expire(w, t)
  }

  function FiresOn(w: WatchState, i: WatchInput): (fires: nat) {
    if Due(w, i.t) then 1 else 0
  }

  /** Final state after a trace, and how many times the expiry callback ran. */
  function Run(w: WatchState, ins: seq<WatchInput>): (result: (WatchState, nat))
    decreases |ins|
  {
    if ins == [] then (w, 0)
    else
      var (w', n) := Run(StepInput(w, ins[0]), ins[1..]);
      (w', FiresOn(w, ins[0]) + n)
  }

  function Notifies(ins: seq<WatchInput>): (count: nat)
    decreases |ins|
  {
    if ins == [] then 0 else (if ins[0].NotifyAt? then 1 else 0) + Notifies(ins[1..])
  }

  function Pending(w: WatchState): (count: nat) {
    if w.deadline.Some? then 1 else 0
  }

  /**
   * Every expiry consumes a deadline that some refresh scheduled: over any
   * trace, expiries plus the deadline still pending never exceed the
   * deadlines pending at the start plus the refreshes.
   */
  lemma {:induction false} FiresAtMostOncePerDeadline(w: WatchState, ins: seq<WatchInput>)
    ensures Run(w, ins).1 + Pending(Run(w, ins).0) <= Pending(w) + Notifies(ins)
    decreases |ins|
  {
    if ins != [] {
      FiresAtMostOncePerDeadline(StepInput(w, ins[0]), ins[1..]);
    }
  }

  /** The watcher never fires twice without a refresh between: from the initial state the count is bounded by the refreshes. */
  lemma FiresBoundedByRefreshes(ins: seq<WatchInput>)
    ensures Run(Initial(), ins).1 <= Notifies(ins)
  {
    FiresAtMostOncePerDeadline(Initial(), ins);
  }

  /** Refresh times each within TIMEOUT_SEC of the previous one (the first within it of `last`). */
  predicate Spaced(last: int, ts: seq<int>)
    decreases |ts|
  {
    ts == [] || (ts[0] < last + TimeoutMs && Spaced(ts[0], ts[1..]))
  }

  function Refreshes(ts: seq<int>): (ins: seq<WatchInput>)
    ensures |ins| == |ts|
    ensures forall k :: 0 <= k < |ts| ==> ins[k] == NotifyAt(ts[k])
    decreases |ts|
  {
    if ts == [] then [] else [NotifyAt(ts[0])] + Refreshes(ts[1..])
  }

  /**
   * Refreshes spaced less than TIMEOUT_SEC apart keep the watcher from ever
   * firing; afterwards the only deadline pending is TIMEOUT_SEC after the last one.
   */
  lemma {:induction false} TimelyRefreshesNeverFire(w: WatchState, last: int, ts: seq<int>)
    requires w.deadline == Some(last + TimeoutMs)
    requires Spaced(last, ts)
    ensures Run(w, Refreshes(ts)).1 == 0
    ensures Run(w, Refreshes(ts)).0 ==
      w.(deadline := Some((if ts == [] then last else ts[|ts| - 1]) + TimeoutMs))
    decreases |ts|
  {
    if ts != [] {
      var ins := Refreshes(ts);
      assert ins[1..] == Refreshes(ts[1..]);
      var w1 := StepInput(w, ins[0]);
      assert w1 == w.(deadline := Some(ts[0] + TimeoutMs));
      TimelyRefreshesNeverFire(w1, ts[0], ts[1..]);
      if |ts| > 1 {
        assert ts[1..][|ts| - 2] == ts[|ts| - 1];
      }
    }
  }

  function Advances(ts: seq<int>): (ins: seq<WatchInput>)
    ensures |ins| == |ts|
    ensures forall k :: 0 <= k < |ts| ==> ins[k] == AdvanceTo(ts[k])
    decreases |ts|
  {
    if ts == [] then [] else [AdvanceTo(ts[0])] + Advances(ts[1..])
  }

  /**
   * Without refreshes, a pending deadline fires exactly once if the clock
   * ever reaches it, and then leaves the watcher disconnected with nothing
   * pending; if the clock never reaches it nothing changes.
   */
  lemma {:induction false} SilenceFiresExactlyOnce(w: WatchState, ts: seq<int>)
    requires w.deadline.Some?
    ensures var reached := exists k :: 0 <= k < |ts| && ts[k] >= w.deadline.value;
      && Run(w, Advances(ts)).1 == (if reached then 1 else 0)
      && Run(w, Advances(ts)).0 == (if reached then WatchState(false, None) else w)
    decreases |ts|
  {
    if ts != [] {
      var ins := Advances(ts);
      assert ins[1..] == Advances(ts[1..]);
      var w1 := StepInput(w, ins[0]);
      if ts[0] >= w.deadline.value {
        assert w1 == WatchState(false, None);
        NothingPendingNothingFires(w1, ts[1..]);
      } else {
        assert w1 == w;
        SilenceFiresExactlyOnce(w, ts[1..]);
        assert forall k :: 1 <= k < |ts| ==> ts[k] == ts[1..][k - 1];
      }
    }
  }

  lemma {:induction false} NothingPendingNothingFires(w: WatchState, ts: seq<int>)
    requires w.deadline.None?
    ensures Run(w, Advances(ts)) == (w, 0)
    decreases |ts|
  {
    if ts != [] {
      assert Advances(ts)[1..] == Advances(ts[1..]);
      NothingPendingNothingFires(w, ts[1..]);
    }
  }

  /** The scenario of a stream silent for eleven seconds after a refresh. */
  lemma ElevenSecondsOfSilence(w: WatchState, t: int)
    ensures Run(Refresh(w, t), Advances([t + 11000])) == (WatchState(false, None), 1)
  {
    SilenceFiresExactlyOnce(Refresh(w, t), [t + 11000]);
  }

  // ---------------------------------------------------------------------
  // The object

  class ConnectionTimeoutWatcher {
    var connected: bool
    var deadline: Option<int>

    function State(): (w: WatchState)
      reads this
    {
      WatchState(connected, deadline)
    }

    constructor ()
      ensures State() == Initial()
    {
      connected := true;
      deadline := None;
    }

    /** Cancel the pending deadline (if any) and schedule one TIMEOUT_SEC from `now`. */
    method NotifyConnected(now: int)
      modifies this
      ensures State() == Refresh(old(State()), now)
      ensures deadline == Some(now + TimeoutMs) && connected == old(connected)
    {
      if deadline.Some? {
        deadline := None;
      }
      deadline := Some(now + TimeoutMs);
    }

    /** The clock reaches `now`; `fired` says whether the expiry callback is to run. */
    method Advance(now: int) returns (fired: bool)
      modifies this
      ensures fired == Due(old(State()), now)
      ensures State() == Expire(old(State()), now)
    {
      fired := deadline.Some? && deadline.value <= now;
      if fired {
        deadline := None;
        connected := false;
      }
    }
  }
}

/** The idle timer of `utils/sessionManager.ts`: one module-wide timeout handle that a reset
    cancels and re-schedules and a clear cancels. Time passes in discrete ticks of one
    millisecond; a timer fires when the clock reaches its due time. */
module SessionManager {
  import opened Common

  /** SESSION_DURATION: 30 minutes in milliseconds. */
  const SESSION_DURATION: nat := 30 * 60 * 1000

  datatype Pending<C> = Pending(due: nat, callback: C)

  /** The clock and the one timer the module can have pending. */
  datatype TimerState<C> = TimerState(now: nat, pending: Option<Pending<C>>)

  /** `resetSessionTimeout(cb)`: cancel the pending timer, if any, and schedule `cb`. */
  function Reset<C>(s: TimerState<C>, cb: C): TimerState<C> {
    TimerState(s.now, Some(Pending(s.now + SESSION_DURATION, cb)))
  }

  /** `clearSessionTimeout()`: cancel the pending timer, if any. */
  function Clear<C>(s: TimerState<C>): TimerState<C> {
    TimerState(s.now, None)
  }

  /** Let the clock run to `t`. A timer due by then fires once, and nothing is left pending. */
  function Advance<C>(s: TimerState<C>, t: nat): (TimerState<C>, Option<C>)
    requires s.now <= t
  {
    match s.pending
    case Some(p) =>
      if p.due <= t then (TimerState(t, None), Some(p.callback)) else (TimerState(t, s.pending), None)
    case None => (TimerState(t, None), None)
  }

  /** The module-level handle, as an object whose methods the auth provider calls. */
  class Session<C> {
    var now: nat
    var pending: Option<Pending<C>>

    function State(): TimerState<C>
      reads this
    {
      TimerState(now, pending)
    }

    constructor ()
      ensures State() == TimerState(0, None)
    {
      now := 0;
      pending := None;
    }

    method ResetTimeout(cb: C)
      modifies this
      ensures State() == Reset(old(State()), cb)
    {
      if pending.Some? {
        pending := None;
      }
      pending := Some(Pending(now + SESSION_DURATION, cb));
    }

    method ClearTimeout()
      modifies this
      ensures State() == Clear(old(State()))
    {
      if pending.Some? {
        pending := None;
      }
    }

    method AdvanceTo(t: nat) returns (fired: Option<C>)
      requires now <= t
      modifies this
      ensures (State(), fired) == Advance(old(State()), t)
    {
      now := t;
      if pending.Some? && pending.value.due <= t {
        fired := Some(pending.value.callback);
        pending := None;
      } else {
        fired := None;
      }
    }
  }

  /** After a reset exactly one timer is pending: the new callback, due 1,800,000 ms later.
      The callback it replaced never fires: up to the due time nothing fires, and from then
      on only the new callback. */
  lemma ResetReplacesPending<C>(s: TimerState<C>, cb: C, t: nat)
    requires s.now <= t
    ensures Reset(s, cb).pending == Some(Pending(s.now + 1800000, cb))
    ensures t < s.now + SESSION_DURATION ==> Advance(Reset(s, cb), t).1 == None
    ensures t >= s.now + SESSION_DURATION ==> Advance(Reset(s, cb), t).1 == Some(cb)
  {
  }

  /** A clear leaves nothing pending, so no callback fires afterwards, and clearing again (or
      with nothing pending) changes nothing. */
  lemma ClearIsFinal<C>(s: TimerState<C>, t: nat)
    requires s.now <= t
    ensures Advance(Clear(s), t).1 == None
    ensures Clear(Clear(s)) == Clear(s)
    ensures s.pending.None? ==> Clear(s) == s
  {
  }

  /** Timestamps that never go backwards, none before `start`. */
  predicate Ascending(start: nat, times: seq<nat>) {
    (forall i :: 0 <= i < |times| ==> start <= times[i]) &&
    (forall i, j :: 0 <= i < j < |times| ==> times[i] <= times[j])
  }

  /** Activity at each of `times`: let the clock run to it, then reset with `cb`. The result
      is the final state and the callbacks that fired on the way, in order. */
  function Activity<C>(s: TimerState<C>, times: seq<nat>, cb: C): (r: (TimerState<C>, seq<C>))
    requires Ascending(s.now, times)
    ensures r.0.now == if times == [] then s.now else times[|times| - 1]
    ensures |r.1| <= |times|
    decreases |times|
  {
    if times == [] then (s, [])
    else
      var (s1, fired) := Advance(s, times[0]);
      var (s2, later) := Activity(Reset(s1, cb), times[1..], cb);
      (s2, (if fired.Some? then [fired.value] else []) + later)
  }

  /** Resets less than SESSION_DURATION apart keep the session alive: no callback fires, and
      the one left pending is due SESSION_DURATION after the last reset. */
  lemma {:induction false} ActivityKeepsSessionAlive<C>(s: TimerState<C>, times: seq<nat>, cb: C)
    requires Ascending(s.now, times) && times != []
    requires s.pending.Some? ==> times[0] < s.pending.value.due
    requires forall i :: 0 < i < |times| ==> times[i] < times[i - 1] + SESSION_DURATION
    ensures Activity(s, times, cb).1 == []
    ensures Activity(s, times, cb).0 == TimerState(times[|times| - 1], Some(Pending(times[|times| - 1] + SESSION_DURATION, cb)))
    decreases |times|
  {
    var s1 := Advance(s, times[0]).0;
    assert Advance(s, times[0]).1 == None;
    if |times| > 1 {
      var rest := times[1..];
      assert rest[0] < times[0] + SESSION_DURATION;
      forall i | 0 < i < |rest| ensures rest[i] < rest[i - 1] + SESSION_DURATION {
        assert rest[i] == times[i + 1] && rest[i - 1] == times[i];
      }
      ActivityKeepsSessionAlive(Reset(s1, cb), rest, cb);
      assert rest[|rest| - 1] == times[|times| - 1];
    }
  }

  /** Once the session has been left idle for SESSION_DURATION after the last reset, the
      callback fires exactly once: a later tick fires nothing more. */
  lemma IdleSessionExpiresOnce<C>(s: TimerState<C>, times: seq<nat>, cb: C, t: nat, u: nat)
    requires Ascending(s.now, times) && times != []
    requires s.pending.Some? ==> times[0] < s.pending.value.due
    requires forall i :: 0 < i < |times| ==> times[i] < times[i - 1] + SESSION_DURATION
    requires times[|times| - 1] + SESSION_DURATION <= t <= u
    ensures var (idle, fired) := Advance(Activity(s, times, cb).0, t);
      fired == Some(cb) && idle.pending.None? && Advance(idle, u).1 == None
  {
    ActivityKeepsSessionAlive(s, times, cb);
  }
}

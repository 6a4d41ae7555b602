/** `AuthProvider` of `contexts/AuthContext.tsx`: the logged-in user, the `'user'` entry of
    local storage, the window activity listeners and the shared idle timer of the session
    manager, which the provider arms with its `logout`.

    React's effects are made explicit. The listener effect depends on `handleActivity`, a
    callback that closes over the `user` of the render that created it; when `user` changes,
    the next render creates a new one, so React runs the old effect's cleanup and subscribes
    again. The listeners therefore see the user of the render that subscribed them, which
    `listening` records.

    React compares a callback's dependencies by object identity, not by value. Every
    `setUser` with a parsed or fetched account hands React a new object, so the model names
    user objects by a counter: `userRef` is the identity of the current user object (0 for
    null), `listeningRef` the identity seen by the subscribed listeners, and `refs` the number
    of user objects made so far. */
module AuthContext {
  import opened Common
  import opened AccountStore
  import opened SessionManager

  /** The only callback the provider ever hands to the timer. */
  datatype Callback = RunLogout

  /** The provider's observable state. `listening` is None before mount and after unmount,
      and otherwise holds the user that the subscribed `handleActivity` sees. */
  datatype AuthState = AuthState(
    user: Option<PublicAccount>,
    userRef: nat,
    stored: Option<PublicAccount>,
    listening: Option<Option<PublicAccount>>,
    listeningRef: nat,
    refs: nat,
    timer: TimerState<Callback>,
    navigations: seq<string>)

  /** The other fields, which only the identity-free operations below touch. */
  predicate SameRefs(r: AuthState, s: AuthState) {
    r.userRef == s.userRef && r.listeningRef == s.listeningRef && r.refs == s.refs
  }

  /** The four window events the provider subscribes to. */
  predicate IsActivityEvent(name: string) {
    name == "mousemove" || name == "keydown" || name == "click" || name == "scroll"
  }

  /** `logout`: forget the user, drop the stored copy, cancel the timer, go to `/`. */
  function LogoutState(s: AuthState): (r: AuthState)
    ensures r.user.None? && r.userRef == 0 && r.stored.None? && r.timer.pending.None?
    ensures r.navigations == s.navigations + ["/"]
    ensures r.listening == s.listening && r.listeningRef == s.listeningRef && r.refs == s.refs
    ensures r.timer.now == s.timer.now
  {
    s.(user := None, userRef := 0, stored := None, timer := Clear(s.timer), navigations := s.navigations + ["/"])
  }

  /** A window event reaching the subscribed `handleActivity`: when it is one of the four
      activity events and the user that listener sees is set, the timer is re-armed with
      `logout`; otherwise nothing happens. */
  function HandleActivity(s: AuthState, event: string): (r: AuthState)
    ensures r.user == s.user && r.stored == s.stored && r.listening == s.listening && SameRefs(r, s)
    ensures r.navigations == s.navigations && r.timer.now == s.timer.now
    ensures r.timer != s.timer ==>
      IsActivityEvent(event) && s.listening.Some? && s.listening.value.Some? &&
      r.timer.pending == Some(Pending(s.timer.now + SESSION_DURATION, RunLogout))
    ensures IsActivityEvent(event) && s.listening.Some? && s.listening.value.Some? ==>
      r.timer == Reset(s.timer, RunLogout)
    ensures !(IsActivityEvent(event) && s.listening.Some? && s.listening.value.Some?) ==> r == s
  {
    if s.listening.Some? && s.listening.value.Some? && IsActivityEvent(event) then
      s.(timer := Reset(s.timer, RunLogout))
    else s
  }

  /** The first render's effects, in order: the restore effect (a stored user becomes the
      user and arms the timer), then the listener effect, whose `handleActivity` was created
      by that first render and so sees the user from before the restore. The restored user
      is a new object, parsed from the stored text. */
  function MountEffects(s: AuthState): (r: AuthState)
    ensures r.listening == Some(s.user) && r.listeningRef == s.userRef
    ensures r.stored == s.stored && r.navigations == s.navigations
    ensures s.stored.Some? ==>
      r.user == s.stored && r.userRef == s.refs + 1 && r.refs == s.refs + 1 && r.timer == Reset(s.timer, RunLogout)
    ensures s.stored.None? ==> r.user == s.user && r.userRef == s.userRef && r.refs == s.refs && r.timer == s.timer
  {
    var restored :=
      if s.stored.Some? then s.(user := s.stored, userRef := s.refs + 1, refs := s.refs + 1, timer := Reset(s.timer, RunLogout))
      else s;
    restored.(listening := Some(s.user), listeningRef := s.userRef)
  }

  /** Whether the mounted listeners' `handleActivity` was made for another user object than
      the current one, so that the next render re-runs the listener effect. */
  predicate Stale(s: AuthState) {
    s.listening.Some? && s.listeningRef != s.userRef
  }

  /** The render after a state change, AS WRITTEN: when the user object differs from the one
      the listeners see, the old listener effect's cleanup runs, which also clears the timer,
      and the new listeners see the current user. */
  function RerenderAsWritten(s: AuthState): (r: AuthState)
    ensures r.user == s.user && r.stored == s.stored && r.navigations == s.navigations
    ensures r.userRef == s.userRef && r.refs == s.refs
    ensures s.listening.Some? ==> r.listening.Some? && r.listeningRef == s.userRef
    ensures Stale(s) ==> r.listening == Some(s.user)
    ensures Stale(s) ==> r.timer == Clear(s.timer) && r.timer.pending.None?
    ensures !Stale(s) ==> r == s
  {
    if Stale(s) then
      s.(listening := Some(s.user), listeningRef := s.userRef, timer := Clear(s.timer))
    else s
  }

  /** The render after a state change, with the timer cleared only when the provider
      unmounts: re-subscribing the listeners leaves the timer alone. */
  function Rerender(s: AuthState): (r: AuthState)
    ensures r.user == s.user && r.stored == s.stored && r.navigations == s.navigations
    ensures r.userRef == s.userRef && r.refs == s.refs && r.timer == s.timer
    ensures s.listening.Some? ==> r.listening.Some? && r.listeningRef == s.userRef
    ensures Stale(s) ==> r.listening == Some(s.user)
    ensures s.listening.None? ==> r == s
  {
    if Stale(s) then s.(listening := Some(s.user), listeningRef := s.userRef)
    else s
  }

  /** Unmount: the listener effect's cleanup removes the listeners and clears the timer. */
  function Unmounted(s: AuthState): (r: AuthState)
    ensures r.listening.None? && r.timer.pending.None?
    ensures r.user == s.user && r.stored == s.stored && r.navigations == s.navigations && SameRefs(r, s)
  {
    s.(listening := None, timer := Clear(s.timer))
  }

  /** `login(email, password)` given the reply of the login endpoint (None when `fetch`
      itself throws). Only an ok reply carrying the account succeeds; every other reply
      makes the call throw. The second component says whether it threw. The account set as
      the user is the new object `response.json()` made. */
  function LoginOutcome(s: AuthState, reply: Option<Response<PublicAccount>>): (r: (AuthState, bool))
    ensures r.1 <==> !(reply.Some? && reply.value.Ok() && reply.value.body.Json?)
    ensures r.1 ==> r.0 == s
    ensures !r.1 ==>
      r.0.user == Some(reply.value.body.value) && r.0.stored == Some(reply.value.body.value) &&
      r.0.timer.pending == Some(Pending(s.timer.now + SESSION_DURATION, RunLogout)) &&
      r.0.navigations == s.navigations + ["/dashboard"] && r.0.listening == s.listening &&
      r.0.userRef == s.refs + 1 && r.0.refs == s.refs + 1 && r.0.listeningRef == s.listeningRef
  {
    match reply
    case Some(Response(status, Json(account))) =>
      if 200 <= status <= 299 then
        (s.(user := Some(account), userRef := s.refs + 1, refs := s.refs + 1, stored := Some(account),
            timer := Reset(s.timer, RunLogout),
            navigations := s.navigations + ["/dashboard"]), false)
      else (s, true)
    case _ => (s, true)
  }

  /** The clock reaching `t`; a due timer runs its callback, `logout`. */
  function Tick(s: AuthState, t: nat): (r: AuthState)
    requires s.timer.now <= t
    ensures r.timer.now == t && r.listening == s.listening && r.listeningRef == s.listeningRef && r.refs == s.refs
    ensures s.timer.pending.Some? && s.timer.pending.value.due <= t ==>
      r == LogoutState(s.(timer := TimerState(t, None)))
    ensures !(s.timer.pending.Some? && s.timer.pending.value.due <= t) ==>
      r == s.(timer := TimerState(t, s.timer.pending))
  {
    var (timer, fired) := Advance(s.timer, t);
    if fired.Some? then LogoutState(s.(timer := timer)) else s.(timer := timer)
  }

  /** The provider object. Its timer is the session manager's handle. */
  class AuthProvider {
    var user: Option<PublicAccount>
    var userRef: nat
    var stored: Option<PublicAccount>
    var listening: Option<Option<PublicAccount>>
    var listeningRef: nat
    var refs: nat
    var navigations: seq<string>
    const session: Session<Callback>

    function State(): AuthState
      reads this, session
    {
      AuthState(user, userRef, stored, listening, listeningRef, refs, session.State(), navigations)
    }

    /** A provider about to mount, with `storedUser` under the `'user'` key. */
    constructor (storedUser: Option<PublicAccount>, session: Session<Callback>)
      ensures State() == AuthState(None, 0, storedUser, None, 0, 0, old(session.State()), [])
      ensures this.session == session
    {
      user := None;
      userRef := 0;
      stored := storedUser;
      listening := None;
      listeningRef := 0;
      refs := 0;
      navigations := [];
      this.session := session;
    }

    method Logout()
      modifies this, session
      ensures State() == LogoutState(old(State()))
    {
      user := None;
      userRef := 0;
      stored := None;
      session.ClearTimeout();
      navigations := navigations + ["/"];
    }

    method DispatchWindowEvent(event: string)
      modifies session
      ensures State() == HandleActivity(old(State()), event)
    {
      if listening.Some? && IsActivityEvent(event) {
        if listening.value.Some? {
          session.ResetTimeout(RunLogout);
        }
      }
    }

    method Mount()
      modifies this, session
      ensures State() == MountEffects(old(State()))
    {
      var firstRenderUser, firstRenderRef := user, userRef;
      if stored.Some? {
        user := stored;
        refs := refs + 1;
        userRef := refs;
        session.ResetTimeout(RunLogout);
      }
      listening := Some(firstRenderUser);
      listeningRef := firstRenderRef;
    }

    method Render()
      modifies this, session
      ensures State() == RerenderAsWritten(old(State()))
    {
      if listening.Some? && listeningRef != userRef {
        session.ClearTimeout();
        listening := Some(user);
        listeningRef := userRef;
      }
    }

    method Unmount()
      modifies this, session
      ensures State() == Unmounted(old(State()))
    {
      listening := None;
      session.ClearTimeout();
    }

    method Login(reply: Option<Response<PublicAccount>>) returns (thrown: bool)
      modifies this, session
      ensures (State(), thrown) == LoginOutcome(old(State()), reply)
    {
      if reply.None? || !reply.value.Ok() || !reply.value.body.Json? {
        return true;
      }
      var account := reply.value.body.value;
      user := Some(account);
      refs := refs + 1;
      userRef := refs;
      stored := Some(account);
      session.ResetTimeout(RunLogout);
      navigations := navigations + ["/dashboard"];
      thrown := false;
    }

    method AdvanceClock(t: nat)
      requires session.now <= t
      modifies this, session
      ensures State() == Tick(old(State()), t)
    {
      var fired := session.AdvanceTo(t);
      if fired.Some? {
        Logout();
      }
    }
  }

  /** A logged-in provider whose listeners see the current user object, made no later than
      the objects counted so far. */
  predicate LoggedIn(s: AuthState) {
    s.user.Some? && s.listening == Some(s.user) && s.listeningRef == s.userRef <= s.refs
  }

  /** Activity at each of `times`: the clock reaches it, then a mouse move arrives. */
  function Activity(s: AuthState, times: seq<nat>): (r: AuthState)
    requires Ascending(s.timer.now, times)
    ensures r.timer.now == if times == [] then s.timer.now else times[|times| - 1]
    decreases |times|
  {
    if times == [] then s
    else Activity(HandleActivity(Tick(s, times[0]), "mousemove"), times[1..])
  }

  /** Activity less than SESSION_DURATION apart keeps the user logged in: nothing is logged
      out or navigated, and logout is due SESSION_DURATION after the last event. */
  lemma {:induction false} ActivityKeepsUserLoggedIn(s: AuthState, times: seq<nat>)
    requires LoggedIn(s) && Ascending(s.timer.now, times) && times != []
    requires s.timer.pending.Some? ==> times[0] < s.timer.pending.value.due
    requires forall i :: 0 < i < |times| ==> times[i] < times[i - 1] + SESSION_DURATION
    ensures var r := Activity(s, times);
      r.user == s.user && r.stored == s.stored && r.listening == s.listening && SameRefs(r, s) &&
      r.navigations == s.navigations &&
      r.timer.pending == Some(Pending(times[|times| - 1] + SESSION_DURATION, RunLogout))
    decreases |times|
  {
    var s1 := HandleActivity(Tick(s, times[0]), "mousemove");
    if |times| > 1 {
      var rest := times[1..];
      forall i | 0 < i < |rest| ensures rest[i] < rest[i - 1] + SESSION_DURATION {
        assert rest[i] == times[i + 1] && rest[i - 1] == times[i];
      }
      ActivityKeepsUserLoggedIn(s1, rest);
      assert rest[|rest| - 1] == times[|times| - 1];
    }
  }

  /** Once the user has been idle for SESSION_DURATION after the last activity, the timer
      logs them out: no user, no stored copy, nothing pending, one navigation to `/`. */
  lemma IdleUserIsLoggedOut(s: AuthState, times: seq<nat>, t: nat)
    requires LoggedIn(s) && Ascending(s.timer.now, times) && times != []
    requires s.timer.pending.Some? ==> times[0] < s.timer.pending.value.due
    requires forall i :: 0 < i < |times| ==> times[i] < times[i - 1] + SESSION_DURATION
    requires times[|times| - 1] + SESSION_DURATION <= t
    ensures var r := Tick(Activity(s, times), t);
      r.user.None? && r.stored.None? && r.timer.pending.None? && r.navigations == s.navigations + ["/"]
  {
    ActivityKeepsUserLoggedIn(s, times);
  }

  /** Events other than the four activity events, and any event while the listeners see
      no user, leave the state as it is. */
  lemma IgnoredEvents(s: AuthState, event: string)
    requires !IsActivityEvent(event) || s.listening == Some(None)
    ensures HandleActivity(s, event) == s
  {
  }

  /** A provider mounted with nothing stored and then logged in through a successful reply. */
  function LoginAfterMount(storedNothing: AuthState, reply: Response<PublicAccount>): (r: AuthState)
    requires storedNothing.user.None? && storedNothing.stored.None?
    requires reply.Ok() && reply.body.Json?
    ensures r.user == Some(reply.body.value) && r.listening == Some(None)
  {
    LoginOutcome(MountEffects(storedNothing), Some(reply)).0
  }

  /** AS WRITTEN, the render that follows a successful login runs the listener cleanup and
      clears the timer the login just armed: without further activity the user is never
      logged out, however late the clock runs. */
  lemma LoginThenIdleNeverExpiresAsWritten(s: AuthState, reply: Response<PublicAccount>, t: nat)
    requires s.user.None? && s.userRef == 0 && s.stored.None?
    requires reply.Ok() && reply.body.Json?
    requires LoginAfterMount(s, reply).timer.now <= t
    ensures var r := Tick(RerenderAsWritten(LoginAfterMount(s, reply)), t);
      r.user == Some(reply.body.value) && r.stored == Some(reply.body.value) && LoggedIn(r)
  {
  }

  /** AS WRITTEN, logging in again as the account already logged in clears the timer too:
      the reply is a new object, equal in value but not in identity, so `handleActivity` is
      made anew and the render runs the cleanup. */
  lemma ReloginThenIdleNeverExpiresAsWritten(s: AuthState, reply: Response<PublicAccount>, t: nat)
    requires LoggedIn(s) && reply.Ok() && reply.body.Json? && s.user == Some(reply.body.value)
    requires s.timer.now <= t
    ensures var r := Tick(RerenderAsWritten(LoginOutcome(s, Some(reply)).0), t);
      r.user == s.user && r.timer.pending.None? && LoggedIn(r)
  {
  }

  /** With the timer left alone on re-render, the same re-login expires SESSION_DURATION
      after it. */
  lemma ReloginThenIdleExpires(s: AuthState, reply: Response<PublicAccount>, t: nat)
    requires LoggedIn(s) && reply.Ok() && reply.body.Json? && s.user == Some(reply.body.value)
    requires s.timer.now <= t
    ensures var r := Tick(Rerender(LoginOutcome(s, Some(reply)).0), t);
      r.user.None? <==> t >= s.timer.now + SESSION_DURATION
  {
  }

  /** With the timer left alone on re-render, a user who logs in and stays idle is logged
      out exactly SESSION_DURATION after the login, and not before. */
  lemma LoginThenIdleExpires(s: AuthState, reply: Response<PublicAccount>, t: nat)
    requires s.user.None? && s.stored.None?
    requires reply.Ok() && reply.body.Json?
    requires LoginAfterMount(s, reply).timer.now <= t
    ensures var r := Tick(Rerender(LoginAfterMount(s, reply)), t);
      (r.user.None? <==> t >= s.timer.now + SESSION_DURATION) &&
      (r.user.None? ==> r.stored.None? && r.navigations == s.navigations + ["/dashboard", "/"])
  {
  }

  /** `useAuth`: the context value, or the error it throws outside a provider. */
  datatype Outcome<+T> = Value(value: T) | Thrown(message: string)

  function UseAuth<T>(context: Option<T>): (r: Outcome<T>)
    ensures r.Thrown? <==> context.None?
    ensures r.Thrown? ==> r.message == "useAuth must be used within an AuthProvider"
    ensures r.Value? ==> r.value == context.value
  {
    match context
    case None => Thrown("useAuth must be used within an AuthProvider")
    case Some(c) => Value(c)
  }
}

/** The client object. Ownership of the lifecycle is a channel that its holder closes, and a
    session is a cancellation scope; calls wait on channels and watch scopes they were given
    earlier, so the object also answers for every one it ever handed out. */
module Clients {
  import opened Common
  import opened Lifecycle
  import opened LifecycleSystem

  /** The channel in `connectDone`: whoever waits for the holder is released when it is closed. */
  class Token {
    const holder: nat
    var closed: bool

    constructor (holder: nat)
      ensures this.holder == holder && !closed
    {
      this.holder, closed := holder, false;
    }
  }

  /** A session's context. */
  class Scope {
    const session: nat
    var canceled: bool

    constructor (session: nat)
      ensures this.session == session && !canceled
    {
      this.session, canceled := session, false;
    }
  }

  /** What happens to the client while a call is busy elsewhere. */
  datatype Race = Calm | CloseRaces | LogoutRaces(call: nat)

  function Raced(c: Core, race: Race): Core {
    match race
    case Calm => c
    case CloseRaces => Closed(c)
    case LogoutRaces(_) =>
      if c.state == Reconnecting && c.live then Cleared(c).(live := false, epoch := c.epoch + 1) else c
  }

  datatype Outcome = Succeeded | NotOwner | Rejected | Failed | Discarded | Retry

  datatype LogoutOutcome = LoggedOff(run: Option<nat>) | GaveUp | LogoutRefused

  class Client {
    var closed: bool
    var state: LoginState
    var conn: ConnState
    var run: Option<nat>
    var provision: Option<nat>
    var user: string
    var connectDone: Token?
    var sessionCtx: Scope?
    var session: nat
    var generation: nat
    var epoch: nat
    var terminal: Option<Bundle>
    /** Queued best-effort callbacks by their epoch; what lies beyond the capacity is dropped. */
    var events: seq<nat>
    const eventCapacity: nat
    ghost var tokens: set<Token>
    ghost var scopes: set<Scope>

    /** Of all channels ever handed out only the owner's is open, and of all scopes only the
        current session's is not cancelled. */
    ghost predicate Valid()
      reads this, tokens, scopes
    {
      && (connectDone != null ==> connectDone in tokens)
      && (forall t :: t in tokens ==> (t.closed <==> t != connectDone))
      && (sessionCtx != null ==> sessionCtx in scopes && sessionCtx.session == session)
      && (forall s :: s in scopes ==> s.session <= session && (s.canceled <==> s != sessionCtx))
      && (forall s, s' :: s in scopes && s' in scopes && s.session == s'.session ==> s == s')
    }

    ghost function View(): Core
      reads this
    {
      Core(closed, state, conn, run, provision, user, if connectDone == null then None else Some(connectDone.holder),
           sessionCtx != null, session, generation, epoch, terminal)
    }

    constructor (eventCapacity: nat)
      ensures Valid() && View() == NewCore() && events == [] && this.eventCapacity == eventCapacity
    {
      closed, state, conn, run, provision, user := false, LoggedOut, Disconnected, None, None, "";
      connectDone, sessionCtx, session, generation, epoch, terminal := null, null, 0, 0, 0, None;
      events, this.eventCapacity := [], eventCapacity;
      tokens, scopes := {}, {};
    }

    /** A call that kept its session's scope and number may check either: they agree. */
    lemma ScopesMatchGenerations(s: Scope)
      requires Valid() && s in scopes
      ensures !s.canceled <==> SessionIsCurrent(View(), s.session)
    {
    }

    // ---- Ownership --------------------------------------------------------------------------

    /** Grants a new, open channel exactly when the client is open and every earlier channel has
        been closed. */
    method BeginConnect(call: nat) returns (begun: Begun, token: Token?)
      requires Valid()
      modifies this`connectDone, this`tokens
      ensures Valid() && (View(), begun) == Lifecycle.BeginConnect(old(View()), call)
      ensures token != null <==> !closed && forall t :: t in old(tokens) ==> t.closed
      ensures token != null ==> fresh(token) && token.holder == call && connectDone == token && tokens == old(tokens) + {token}
      ensures token == null ==> connectDone == old(connectDone) && tokens == old(tokens)
    {
      if closed {
        return Refused, null;
      }
      if connectDone == null {
        token := new Token(call);
        connectDone := token;
        tokens := tokens + {token};
        return Owned, token;
      }
      assert connectDone in tokens && !connectDone.closed;
      return Busy, null;
    }

    /** The flag is false where the source panics; it never is for a channel still open. Whoever
        waits on the channel is released. */
    method EndConnect(token: Token) returns (owned: bool)
      requires Valid() && token in tokens
      modifies this`connectDone, token
      ensures Valid() && owned == old(!token.closed) && token.closed
      ensures owned ==> (View(), true) == Lifecycle.EndConnect(old(View()), token.holder) && connectDone == null
      ensures !owned ==> View() == old(View())
    {
      if connectDone != token {
        return false;
      }
      connectDone := null;
      token.closed := true;
      return true;
    }

    // ---- Sessions ---------------------------------------------------------------------------

    method CancelSession()
      requires Valid()
      modifies this`sessionCtx, sessionCtx
      ensures Valid() && View() == old(View()).(live := false)
      ensures sessionCtx == null && forall s :: s in scopes ==> s.canceled
    {
      if sessionCtx != null {
        sessionCtx.canceled := true;
      }
      sessionCtx := null;
    }

    method StartSession() returns (scope: Scope)
      requires Valid()
      modifies this`sessionCtx, this`session, this`scopes, sessionCtx
      ensures Valid() && View() == old(View()).(live := true, session := old(session) + 1)
      ensures fresh(scope) && sessionCtx == scope && scope.session == session && scopes == old(scopes) + {scope}
      ensures forall s :: s in old(scopes) ==> s.canceled
    {
      CancelSession();
      session := session + 1;
      scope := new Scope(session);
      sessionCtx := scope;
      scopes := scopes + {scope};
    }

    // ---- Sections ---------------------------------------------------------------------------

    /** The fields that every end of a session resets. */
    method Clear()
      requires Valid()
      modifies this`state, this`conn, this`run, this`provision, this`user
      ensures Valid() && View() == Cleared(old(View()))
    {
      run, state, conn, provision, user := None, LoggedOut, Disconnected, None, "";
    }

    method StartLogin(name: string) returns (started: bool)
      requires Valid()
      modifies this`state, this`conn, this`user
      ensures Valid() && (View(), started) == Lifecycle.StartLogin(old(View()), name)
    {
      if closed || terminal.Some? || state != LoggedOut {
        return false;
      }
      state, conn, user := LoggingIn, Connecting, name;
      return true;
    }

    method InstallLogin(r: nat) returns (installed: bool)
      requires Valid()
      modifies this`state, this`conn, this`run, this`provision, this`sessionCtx, this`session, this`scopes, sessionCtx
      ensures Valid() && (View(), installed) == Lifecycle.InstallLogin(old(View()), r) && connectDone == old(connectDone)
      ensures installed ==> fresh(sessionCtx) && scopes == old(scopes) + {sessionCtx}
      ensures !installed ==> scopes == old(scopes)
    {
      if closed {
        return false;
      }
      provision := Some(r);
      var scope := StartSession();
      run, state, conn := Some(r), LoggedIn, Connected;
      return true;
    }

    method StartReconnect(r: nat) returns (scope: Scope?)
      requires Valid()
      modifies this`state, this`conn
      ensures Valid() && (View(), scope != null) == Lifecycle.StartReconnect(old(View()), r)
      ensures scope != null ==> scope == sessionCtx
    {
      if closed || run != Some(r) || state == LoggedOut || sessionCtx == null {
        return null;
      }
      state, conn := Reconnecting, ConnReconnecting;
      return sessionCtx;
    }

    /** The scope is the one the reconnect call was given when it started. */
    method InstallReconnect(previous: nat, scope: Scope, r: nat) returns (installed: bool)
      requires Valid() && scope in scopes
      modifies this`state, this`conn, this`run, this`provision
      ensures Valid() && (View(), installed) == Lifecycle.InstallReconnect(old(View()), previous, scope.session, r)
      ensures installed ==> !scope.canceled && scope == sessionCtx
    {
      if closed || run != Some(previous) || state != Reconnecting
         || !(sessionCtx != null && session == scope.session) || scope.canceled {
        return false;
      }
      provision := Some(r);
      run, state, conn := Some(r), LoggedIn, Connected;
      return true;
    }

    method RecordTerminal(r: Option<nat>, required: Option<nat>, error: nat, heard: bool) returns (published: bool)
      requires Valid()
      modifies this`state, this`conn, this`run, this`provision, this`user, this`sessionCtx, this`epoch, this`terminal, sessionCtx
      ensures Valid() && (View(), published) == Lifecycle.RecordTerminal(old(View()), r, required, error, heard)
    {
      if closed || (r.Some? && run != r) || (required.Some? && !(sessionCtx != null && session == required.value)) {
        return false;
      }
      var name := user;
      Clear();
      CancelSession();
      epoch := epoch + 1;
      if terminal.Some? || !heard {
        return false;
      }
      terminal := Some(Bundle(name, error, epoch));
      return true;
    }

    /** Returns the run that the finalizer has to shut down. */
    method Close() returns (r: Option<nat>)
      requires Valid()
      modifies this`closed, this`state, this`conn, this`run, this`provision, this`user, this`sessionCtx, sessionCtx
      ensures Valid() && View() == Lifecycle.Closed(old(View())) && r == old(run) && connectDone == old(connectDone)
      ensures forall s :: s in scopes ==> s.canceled
    {
      closed := true;
      CancelSession();
      r := run;
      Clear();
    }

    method DetachCanceled(canceled: nat) returns (detached: bool)
      requires Valid()
      modifies this`state, this`conn, this`run, this`provision, this`user, this`epoch
      ensures Valid() && (View(), detached) == Lifecycle.DetachCanceled(old(View()), canceled)
    {
      if canceled == 0 || session != canceled || sessionCtx != null || state != Reconnecting {
        return false;
      }
      Clear();
      epoch := epoch + 1;
      return true;
    }

    /** One turn of the Logout loop. */
    method BeginLogout(call: nat) returns (begun: Begun, token: Token?, canceled: Option<nat>)
      requires Valid()
      modifies this`connectDone, this`tokens, this`sessionCtx, sessionCtx
      ensures Valid() && (View(), begun, canceled) == Lifecycle.BeginLogout(old(View()), call)
      ensures token != null <==> begun.Owned?
      ensures token != null ==> fresh(token) && token.holder == call && connectDone == token && tokens == old(tokens) + {token}
      ensures token == null ==> connectDone == old(connectDone) && tokens == old(tokens)
    {
      canceled, token := None, null;
      if closed {
        return Refused, null, None;
      }
      if connectDone == null {
        CancelSession();
        token := new Token(call);
        connectDone := token;
        tokens := tokens + {token};
        return Owned, token, None;
      }
      if state == Reconnecting && sessionCtx != null {
        canceled := Some(session);
        CancelSession();
      }
      return Busy, null, canceled;
    }

    /** Returns the run that Logout has to shut down. */
    method ClearForLogout() returns (cleared: bool, r: Option<nat>)
      requires Valid()
      modifies this`state, this`conn, this`run, this`provision, this`user, this`epoch
      ensures Valid() && (View(), cleared) == Lifecycle.ClearForLogout(old(View()))
      ensures r == if cleared then old(run) else None
    {
      if closed {
        return false, None;
      }
      r := run;
      Clear();
      epoch := epoch + 1;
      return true, r;
    }

    // ---- Whole calls ------------------------------------------------------------------------

    /** What another call does while this one is dialing: nothing, Close, or a Logout that waits
        its deadline out. */
    method Interfere(race: Race)
      requires Valid() && Shape(View()) && connectDone != null
      modifies this`closed, this`state, this`conn, this`run, this`provision, this`user, this`sessionCtx, this`epoch, sessionCtx
      ensures Valid() && Shape(View()) && connectDone == old(connectDone) && tokens == old(tokens) && scopes == old(scopes)
      ensures View() == Raced(old(View()), race)
      ensures sessionCtx == null || sessionCtx == old(sessionCtx)
    {
      match race
      case Calm =>
      case CloseRaces => var r := Close();
      case LogoutRaces(call) =>
        if state == Reconnecting && sessionCtx != null {
          var canceled := session;
          CancelSession();
          var detached := DetachCanceled(canceled);
        }
    }

    /** Login from beginning to end; it dials `dials` times and `found` says that the last one
        succeeded. It succeeds exactly when the client was open, free, logged out and owed no
        terminal callback, and neither the network nor Close got in its way. Whatever happens,
        ownership is given back, and the client is never left half logged in. */
    method Login(call: nat, name: string, dials: nat, found: bool, race: Race, error: nat, heard: bool) returns (outcome: Outcome)
      requires Valid() && Shape(View()) && name != "" && (found ==> dials > 0)
      modifies this, sessionCtx
      ensures Valid() && Shape(View()) && connectDone == old(connectDone)
      ensures outcome.NotOwner? || outcome.Rejected? || state == LoggedIn || state == LoggedOut
      ensures outcome.Succeeded? <==>
        old(!closed && connectDone == null && state == LoggedOut && terminal.None?) && found && !race.CloseRaces?
      ensures outcome.Succeeded? ==>
        && state == LoggedIn && run == Some(generation) && generation == old(generation) + dials && user == name
        && sessionCtx != null && fresh(sessionCtx) && session == old(session) + 1
      ensures outcome.Failed? && !closed ==>
        && state == LoggedOut && epoch == old(epoch) + 1
        && terminal == if heard then Some(Bundle(name, error, epoch)) else None
      ensures outcome.NotOwner? || outcome.Rejected? ==> View() == old(View())
    {
      var begun, token := BeginConnect(call);
      if token == null {
        return NotOwner;
      }
      var started := StartLogin(name);
      if !started {
        var released := EndConnect(token);
        return Rejected;
      }
      outcome := ConnectAsOwner(name, dials, found, race, error, heard);
      var released := EndConnect(token);
    }

    /** The login between its start and giving back ownership. */
    method ConnectAsOwner(name: string, dials: nat, found: bool, race: Race, error: nat, heard: bool) returns (outcome: Outcome)
      requires Valid() && Shape(View()) && connectDone != null && state == LoggingIn && user == name && terminal.None? && (found ==> dials > 0)
      modifies this`closed, this`state, this`conn, this`run, this`provision, this`user, this`sessionCtx, this`session, this`scopes,
               this`epoch, this`generation, this`terminal, sessionCtx
      ensures Valid() && Shape(View()) && (state == LoggedIn || state == LoggedOut)
      ensures outcome == if found && race.CloseRaces? then Discarded else if found then Succeeded else Failed
      ensures outcome.Succeeded? ==>
        && state == LoggedIn && run == Some(generation) && generation == old(generation) + dials && user == name
        && sessionCtx != null && fresh(sessionCtx) && session == old(session) + 1
      ensures outcome.Failed? && !closed ==>
        && state == LoggedOut && epoch == old(epoch) + 1
        && terminal == if heard then Some(Bundle(name, error, epoch)) else None
    {
      generation := generation + dials;
      Interfere(race);
      if found {
        var installed := InstallLogin(generation);
        return if installed then Succeeded else Discarded;
      }
      var published := RecordTerminal(None, None, error, heard);
      return Failed;
    }

    /** One attempt of a reconnect call, which holds the run it replaces and the scope it started
        under. It installs a run exactly when it became owner with that session still current,
        its dial succeeded and nobody ended the session meanwhile; then the session goes on. A
        run found for a cancelled scope is never installed. */
    method TryReconnect(call: nat, previous: nat, scope: Scope, dials: nat, found: bool, fatal: bool, race: Race, error: nat, heard: bool)
      returns (outcome: Outcome)
      requires Valid() && Shape(View()) && scope in scopes && (found ==> dials > 0)
      modifies this, sessionCtx
      ensures Valid() && Shape(View()) && connectDone == old(connectDone) && session == old(session)
      ensures outcome.Succeeded? <==>
        old(!closed && connectDone == null && run == Some(previous) && state == Reconnecting && !scope.canceled) && found && race.Calm?
      ensures outcome.Succeeded? ==>
        state == LoggedIn && run == Some(generation) && generation == old(generation) + dials && sessionCtx == scope
      ensures !outcome.Succeeded? ==> run.None? || run == old(run)
      ensures outcome.Retry? ==> state == Reconnecting && run == Some(previous) && sessionCtx == scope
      ensures outcome.Failed? ==>
        && state == LoggedOut && epoch == old(epoch) + 1 && scope.canceled
        && terminal == if heard then Some(Bundle(old(user), error, epoch)) else None
    {
      var begun, token := BeginConnect(call);
      if token == null {
        return NotOwner;
      }
      outcome := AttemptAsOwner(previous, scope, dials, found, fatal, race, error, heard);
      var released := EndConnect(token);
    }

    /** The attempt between getting and giving back ownership. */
    method AttemptAsOwner(previous: nat, scope: Scope, dials: nat, found: bool, fatal: bool, race: Race, error: nat, heard: bool)
      returns (outcome: Outcome)
      requires Valid() && Shape(View()) && scope in scopes && (found ==> dials > 0) && connectDone != null && !closed
      modifies this`closed, this`state, this`conn, this`run, this`provision, this`user, this`sessionCtx, this`epoch,
               this`generation, this`terminal, sessionCtx
      ensures Valid() && Shape(View())
      ensures outcome.Succeeded? <==>
        old(run == Some(previous) && state == Reconnecting && !scope.canceled) && found && race.Calm?
      ensures outcome.Succeeded? ==>
        state == LoggedIn && run == Some(generation) && generation == old(generation) + dials && sessionCtx == scope
      ensures !outcome.Succeeded? ==> run.None? || run == old(run)
      ensures outcome.Retry? ==> state == Reconnecting && run == Some(previous) && sessionCtx == scope
      ensures outcome.Failed? ==>
        && state == LoggedOut && epoch == old(epoch) + 1 && scope.canceled
        && terminal == if heard then Some(Bundle(old(user), error, epoch)) else None
      ensures !outcome.NotOwner?
    {
      if !(run == Some(previous) && state == Reconnecting && sessionCtx != null && session == scope.session) {
        return Rejected;
      }
      generation := generation + dials;
      Interfere(race);
      outcome := JudgeAttempt(previous, scope, found, fatal, error, heard);
    }

    /** The end of an attempt, after its dial. */
    method JudgeAttempt(previous: nat, scope: Scope, found: bool, fatal: bool, error: nat, heard: bool) returns (outcome: Outcome)
      requires Valid() && Shape(View()) && scope in scopes
      modifies this`state, this`conn, this`run, this`provision, this`user, this`sessionCtx, this`epoch, this`terminal, sessionCtx
      ensures Valid() && Shape(View())
      ensures outcome == (
        if !StillReconnecting(old(View()), previous, scope.session) && found then Discarded
        else if found then Succeeded
        else if old(scope.canceled || closed) then Discarded
        else if fatal then Failed else Retry)
      ensures outcome.Succeeded? ==> View() == Installed(old(View()), generation) && sessionCtx == scope
      ensures outcome.Failed? ==> View() == Lifecycle.RecordTerminal(old(View()), Some(previous), Some(scope.session), error, heard).0
      ensures outcome.Discarded? || outcome.Retry? ==> View() == old(View())
    {
      if found {
        var installed := InstallReconnect(previous, scope, generation);
        return if installed then Succeeded else Discarded;
      }
      if scope.canceled || closed {
        return Discarded;
      }
      if fatal {
        var published := RecordTerminal(Some(previous), Some(scope.session), error, heard);
        return Failed;
      }
      return Retry;
    }

    /** Logout whose deadline leaves it one turn. An owner ends the session and every scope. A
        waiter that found a reconnect under way leaves the client logged out although the
        reconnect still owns it; one that found an initial login leaves that login alone. */
    method Logout(call: nat) returns (outcome: LogoutOutcome)
      requires Valid() && Shape(View())
      modifies this, sessionCtx
      ensures Valid() && Shape(View()) && connectDone == old(connectDone)
      ensures outcome.LogoutRefused? <==> old(closed)
      ensures old(closed) ==> View() == old(View())
      ensures !old(closed) && old(connectDone) == null ==>
        && outcome == LoggedOff(old(run)) && state == LoggedOut && run.None? && provision.None? && user == ""
        && (forall s :: s in scopes ==> s.canceled) && epoch == old(epoch) + 1
      ensures !old(closed) && old(connectDone) != null && old(state == Reconnecting && sessionCtx != null) ==>
        && outcome == GaveUp && state == LoggedOut && run.None? && provision.None? && user == ""
        && (forall s :: s in scopes ==> s.canceled) && epoch == old(epoch) + 1
      ensures !old(closed) && old(connectDone) != null && !old(state == Reconnecting && sessionCtx != null) ==>
        outcome == GaveUp && View() == old(View())
    {
      var begun, token, canceled := BeginLogout(call);
      if token != null {
        var cleared, r := ClearForLogout();
        var released := EndConnect(token);
        return LoggedOff(r);
      }
      if begun == Refused {
        return LogoutRefused;
      }
      if canceled.Some? {
        var detached := DetachCanceled(canceled.value);
      }
      return GaveUp;
    }

    // ---- Callbacks --------------------------------------------------------------------------

    /** Clears the slot and, when it held a bundle, drops every queued best-effort callback. */
    method ClaimTerminal() returns (bundle: Option<Bundle>, dropped: nat)
      modifies this`terminal, this`events
      ensures (View(), bundle) == Lifecycle.ClaimTerminal(old(View()))
      ensures events == if bundle.Some? then [] else old(events)
      ensures dropped == |old(events)| - |events|
    {
      dropped := 0;
      if terminal == None {
        return None, 0;
      }
      while events != []
        invariant dropped == |old(events)| - |events| && View() == old(View())
        decreases |events|
      {
        events := events[1..];
        dropped := dropped + 1;
      }
      bundle := terminal;
      terminal := None;
    }

    method EmitAt(stamp: nat) returns (queued: bool)
      modifies this`events
      ensures queued <==> !closed && terminal.None? && epoch == stamp && |old(events)| < eventCapacity
      ensures queued ==> MayQueue(View(), stamp)
      ensures events == if queued then old(events) + [stamp] else old(events)
    {
      if closed || terminal.Some? || epoch != stamp || |events| >= eventCapacity {
        return false;
      }
      events := events + [stamp];
      return true;
    }
  }
}

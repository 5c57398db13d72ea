/** The client's lifecycle: every section that runs under the client mutex, as a function on the
    guarded fields. A run is named by its connection
    generation and an ownership token by the call that holds it. */
module Lifecycle {
  import opened Common

  datatype LoginState = LoggedOut | LoggingIn | LoggedIn | Reconnecting

  datatype ConnState = Disconnected | Connecting | Connected | ConnReconnecting

  /** The sticky terminal notification: whose session ended, why, and the callback epoch it opens. */
  datatype Bundle = Bundle(user: string, error: nat, epoch: nat)

  /** The fields guarded by the mutex. `provision` is the run whose provision data is applied,
      `owner` the call holding `connectDone`, and `live` says that `sessionCtx` is not nil. */
  datatype Core = Core(
    closed: bool, state: LoginState, conn: ConnState, run: Option<nat>, provision: Option<nat>, user: string,
    owner: Option<nat>, live: bool, session: nat, generation: nat, epoch: nat, terminal: Option<Bundle>)

  function NewCore(): Core {
    Core(false, LoggedOut, Disconnected, None, None, "", None, false, 0, 0, 0, None)
  }

  predicate SessionIsCurrent(c: Core, session: nat) {
    c.live && c.session == session
  }

  /** What every attempt of a reconnect call checks before it goes on. */
  predicate StillReconnecting(c: Core, run: nat, session: nat) {
    !c.closed && c.run == Some(run) && c.state == Reconnecting && SessionIsCurrent(c, session)
  }

  /** What ends a session locally: no run, no provision data, no user. */
  function Cleared(c: Core): Core {
    c.(state := LoggedOut, conn := Disconnected, run := None, provision := None, user := "")
  }

  function Installed(c: Core, run: nat): Core {
    c.(state := LoggedIn, conn := Connected, run := Some(run), provision := Some(run))
  }

  // ---- Ownership ----------------------------------------------------------------------------

  datatype Begun = Owned | Busy | Refused

  function BeginConnect(c: Core, call: nat): (Core, Begun) {
    if c.closed then (c, Refused)
    else if c.owner.None? then (c.(owner := Some(call)), Owned)
    else (c, Busy)
  }

  /** The flag is false where the source panics. */
  function EndConnect(c: Core, call: nat): (Core, bool) {
    if c.owner != Some(call) then (c, false) else (c.(owner := None), true)
  }

  /** One turn of the Logout loop, with the session generation it cancelled, if it did. */
  function BeginLogout(c: Core, call: nat): (Core, Begun, Option<nat>) {
    if c.closed then (c, Refused, None)
    else if c.owner.None? then (c.(live := false, owner := Some(call)), Owned, None)
    else if c.state == Reconnecting && c.live then (c.(live := false), Busy, Some(c.session))
    else (c, Busy, None)
  }

  // ---- Login --------------------------------------------------------------------------------

  function StartLogin(c: Core, user: string): (Core, bool) {
    if c.closed || c.terminal.Some? || c.state != LoggedOut then (c, false)
    else (c.(state := LoggingIn, conn := Connecting, user := user), true)
  }

  function InstallLogin(c: Core, run: nat): (Core, bool) {
    if c.closed then (c, false)
    else (Installed(c, run).(live := true, session := c.session + 1), true)
  }

  // ---- Reconnect ----------------------------------------------------------------------------

  function StartReconnect(c: Core, run: nat): (Core, bool) {
    if c.closed || c.run != Some(run) || c.state == LoggedOut || !c.live then (c, false)
    else (c.(state := Reconnecting, conn := ConnReconnecting), true)
  }

  function InstallReconnect(c: Core, previous: nat, session: nat, run: nat): (Core, bool) {
    if !StillReconnecting(c, previous, session) then (c, false) else (Installed(c, run), true)
  }

  // ---- Ends of a session --------------------------------------------------------------------

  /** A terminal error, optionally only for one run and one session; `heard` says that some
      registered callback wants it. The flag says that a bundle was published. */
  function RecordTerminal(c: Core, run: Option<nat>, session: Option<nat>, error: nat, heard: bool): (Core, bool) {
    if c.closed || (run.Some? && c.run != run) || (session.Some? && !SessionIsCurrent(c, session.value)) then (c, false)
    else
      var c' := Cleared(c).(live := false, epoch := c.epoch + 1);
      if c.terminal.Some? || !heard then (c', false)
      else (c'.(terminal := Some(Bundle(c.user, error, c.epoch + 1))), true)
  }

  function Closed(c: Core): Core {
    Cleared(c).(closed := true, live := false)
  }

  function DetachCanceled(c: Core, session: nat): (Core, bool) {
    if session == 0 || c.session != session || c.live || c.state != Reconnecting then (c, false)
    else (Cleared(c).(epoch := c.epoch + 1), true)
  }

  function ClearForLogout(c: Core): (Core, bool) {
    if c.closed then (c, false) else (Cleared(c).(epoch := c.epoch + 1), true)
  }

  // ---- Callbacks ----------------------------------------------------------------------------

  function ClaimTerminal(c: Core): (Core, Option<Bundle>) {
    (c.(terminal := None), c.terminal)
  }

  /** Whether a best-effort callback stamped with this epoch may still be queued. */
  predicate MayQueue(c: Core, epoch: nat) {
    !c.closed && c.terminal.None? && c.epoch == epoch
  }
}

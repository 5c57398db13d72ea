/** Login, reconnect, Logout, Close, monitor and finalizer as one step system: each step is one
    section under the client mutex, or one event of a connection, taken by any call in progress. */
module LifecycleSystem {
  import opened Common
  import opened Lifecycle

  /** Where a call in progress stands. A reconnect call carries the run it replaces and the
      session it started under; `Discard` shuts a run down and `Ending` gives ownership back. */
  datatype Place =
    | LoginWait(user: string)
    | LoginOwn(user: string)
    | LoginDial(dialed: Option<nat>)
    | LoginHave(run: nat)
    | LoginFail
    | Monitor(run: nat)
    | MonitorFail(run: nat)
    | ReconnectStart(run: nat)
    | ReconnectBad(run: nat, session: nat)
    | ReconnectIdle(run: nat, session: nat)
    | ReconnectOwn(run: nat, session: nat)
    | ReconnectDial(run: nat, session: nat, dialed: Option<nat>)
    | ReconnectHave(run: nat, session: nat, found: nat)
    | ReconnectFail(run: nat, session: nat)
    | ReconnectRetry(run: nat, session: nat)
    | LogoutWait(canceled: Option<nat>)
    | LogoutLate(session: nat)
    | LogoutOwn
    | Discard(run: nat)
    | Ending

  /** What the surroundings decide for a step: how a dial goes, whether an error is terminal,
      whether a callback is registered for it, and the name of a call the step spawns. */
  datatype Turn = Dial | Drop | Succeed | Fail | Check | GiveUp | Go
  datatype Choice = Choice(turn: Turn, fatal: bool, error: nat, heard: bool, spawned: nat)

  /** The result of a step of one call: `next` is None when the call returns. */
  datatype Out = Out(c: Core, next: Option<Place>, running: set<nat>, spawn: Option<Place>, ok: bool)

  function Stay(c: Core, p: Place, running: set<nat>): Out {
    Out(c, Some(p), running, None, true)
  }

  function WithDialed(p: Place, dialed: Option<nat>): Place {
    match p
    case LoginDial(_) => LoginDial(dialed)
    case ReconnectDial(r, s, _) => ReconnectDial(r, s, dialed)
    case _ => p
  }

  function WithFound(p: Place, found: nat): Place {
    match p
    case LoginDial(_) => LoginHave(found)
    case ReconnectDial(r, s, _) => ReconnectHave(r, s, found)
    case _ => p
  }

  /** Connecting: dials one endpoint after the other, dropping what a redirect or an error ends. */
  function Dialing(c: Core, p: Place, running: set<nat>, dialed: Option<nat>, turn: Turn, failed: Place): Out {
    if turn == Dial && dialed.None? then
      var g := c.generation + 1;
      Out(c.(generation := g), Some(WithDialed(p, Some(g))), running + {g}, None, true)
    else if turn == Drop && dialed.Some? then Stay(c, WithDialed(p, None), running - {dialed.value})
    else if turn == Succeed && dialed.Some? then Stay(c, WithFound(p, dialed.value), running)
    else if turn == Fail && dialed.None? then Stay(c, failed, running)
    else Stay(c, p, running)
  }

  /** The places of a login call. */
  function AdvanceLogin(c: Core, i: nat, p: Place, running: set<nat>, k: Choice): Out {
    match p
    case LoginWait(user) =>
      if k.turn == GiveUp then Out(c, None, running, None, true)
      else
        var b := BeginConnect(c, i);
        Out(b.0, if b.1.Refused? then None else Some(if b.1.Owned? then LoginOwn(user) else p), running, None, true)
    case LoginOwn(user) =>
      var s := StartLogin(c, user);
      Stay(s.0, if s.1 then LoginDial(None) else Ending, running)
    case LoginDial(dialed) => Dialing(c, p, running, dialed, k.turn, LoginFail)
    case LoginHave(r) =>
      var s := InstallLogin(c, r);
      if s.1 then Out(s.0, Some(Ending), running, Some(Monitor(r)), true) else Stay(c, Discard(r), running)
    case LoginFail => Stay(RecordTerminal(c, None, None, k.error, k.heard).0, Ending, running)
    case _ => Stay(c, p, running)
  }

  /** A monitor waits until the run's pumps are gone, then ends the session or reconnects. */
  function AdvanceMonitor(c: Core, p: Place, running: set<nat>, k: Choice): Out {
    match p
    case Monitor(r) =>
      if r in running then Stay(c, p, running)
      else if c.run != Some(r) || c.closed then Out(c, None, running, None, true)
      else Stay(c, if k.fatal then MonitorFail(r) else ReconnectStart(r), running)
    case MonitorFail(r) => Out(RecordTerminal(c, Some(r), None, k.error, k.heard).0, None, running, None, true)
    case _ => Stay(c, p, running)
  }

  /** After a failed attempt: stop when the session is gone, end the session, or try again. */
  function Broken(c: Core, r: nat, s: nat, k: Choice): Place {
    if c.closed || !SessionIsCurrent(c, s) then Ending
    else if k.fatal then ReconnectFail(r, s)
    else ReconnectRetry(r, s)
  }

  /** The places of a reconnect call. */
  function AdvanceReconnect(c: Core, i: nat, p: Place, running: set<nat>, k: Choice): Out {
    match p
    case ReconnectStart(r) =>
      var s := StartReconnect(c, r);
      Out(s.0, if !s.1 then None else Some(if k.fatal then ReconnectBad(r, c.session) else ReconnectIdle(r, c.session)),
          running, None, true)
    case ReconnectBad(r, s) => Out(RecordTerminal(c, Some(r), Some(s), k.error, k.heard).0, None, running, None, true)
    case ReconnectIdle(r, s) =>
      if k.turn == Check then Out(c, if StillReconnecting(c, r, s) then Some(p) else None, running, None, true)
      else
        var b := BeginConnect(c, i);
        Out(b.0, if b.1.Refused? then None else Some(if b.1.Owned? then ReconnectOwn(r, s) else p), running, None, true)
    case ReconnectOwn(r, s) =>
      Stay(c, if StillReconnecting(c, r, s) then ReconnectDial(r, s, None) else Ending, running)
    case ReconnectDial(r, s, dialed) =>
      Dialing(c, p, running, dialed, k.turn, Broken(c, r, s, k))
    case ReconnectHave(r, s, found) =>
      var t := InstallReconnect(c, r, s, found);
      if t.1 then Out(t.0, Some(Ending), running, Some(Monitor(found)), true) else Stay(c, Discard(found), running)
    case ReconnectFail(r, s) => Stay(RecordTerminal(c, Some(r), Some(s), k.error, k.heard).0, Ending, running)
    case ReconnectRetry(r, s) =>
      var e := EndConnect(c, i);
      Out(e.0, Some(ReconnectIdle(r, s)), running, None, e.1)
    case _ => Stay(c, p, running)
  }

  /** The places of a logout call, and the cleanup that every owner ends with. */
  function AdvanceLogout(c: Core, i: nat, p: Place, running: set<nat>, k: Choice): Out {
    match p
    case LogoutWait(canceled) =>
      if k.turn == GiveUp then Out(c, if canceled.Some? then Some(LogoutLate(canceled.value)) else None, running, None, true)
      else
        var b := BeginLogout(c, i);
        Out(b.0, if b.1.Refused? then None
                 else Some(if b.1.Owned? then LogoutOwn else LogoutWait(if b.2.Some? then b.2 else canceled)),
            running, None, true)
    case LogoutLate(s) => Out(DetachCanceled(c, s).0, None, running, None, true)
    case LogoutOwn =>
      var s := ClearForLogout(c);
      Stay(s.0, if s.1 && c.run.Some? then Discard(c.run.value) else Ending, running)
    case Discard(r) => Stay(c, Ending, running - {r})
    case Ending =>
      var e := EndConnect(c, i);
      Out(e.0, None, running, None, e.1)
    case _ => Stay(c, p, running)
  }

  predicate OfLogin(p: Place) {
    p.LoginWait? || p.LoginOwn? || p.LoginDial? || p.LoginHave? || p.LoginFail?
  }

  predicate OfMonitor(p: Place) {
    p.Monitor? || p.MonitorFail?
  }

  predicate OfLogout(p: Place) {
    p.LogoutWait? || p.LogoutLate? || p.LogoutOwn? || p.Discard? || p.Ending?
  }

  function Advance(c: Core, i: nat, p: Place, running: set<nat>, k: Choice): Out {
    if OfLogin(p) then AdvanceLogin(c, i, p, running, k)
    else if OfMonitor(p) then AdvanceMonitor(c, p, running, k)
    else if OfLogout(p) then AdvanceLogout(c, i, p, running, k)
    else AdvanceReconnect(c, i, p, running, k)
  }

  // ---- The system -----------------------------------------------------------------------------

  /** The finalizer that the first Close starts. */
  datatype Finalizer = NotStarted | ShuttingDown(run: Option<nat>) | AwaitingOwner(owner: Option<nat>) | CodecClosed

  /** A run that was installed and the session it was installed in. */
  datatype Install = Install(run: nat, session: nat)

  /** `running` are the runs whose pumps may still be at work. */
  datatype Life = Life(c: Core, calls: map<nat, Place>, running: set<nat>, installs: seq<Install>,
                       finalizer: Finalizer, panicked: bool)

  datatype Step =
    | CallLogin(call: nat, user: string)
    | CallLogout(call: nat)
    | CallClose
    | Finalize
    | RunDies(run: nat)
    | Claim
    | Proceed(call: nat, choice: Choice)

  function NewLife(): Life {
    Life(NewCore(), map[], {}, [], NotStarted, false)
  }

  function Moved(calls: map<nat, Place>, i: nat, next: Option<Place>): map<nat, Place> {
    if next.Some? then calls[i := next.value] else calls - {i}
  }

  function Spawned(calls: map<nat, Place>, j: nat, spawn: Option<Place>): map<nat, Place> {
    if spawn.Some? then calls[j := spawn.value] else calls
  }

  function Recorded(installs: seq<Install>, c: Core, c': Core): seq<Install> {
    if c'.run.Some? && c'.run != c.run then installs + [Install(c'.run.value, c'.session)] else installs
  }

  function Took(l: Life, i: nat, o: Out, spawned: nat): Life {
    Life(o.c, Spawned(Moved(l.calls, i, o.next), spawned, o.spawn), o.running,
         Recorded(l.installs, l.c, o.c), l.finalizer, l.panicked || !o.ok)
  }

  function Next(l: Life, step: Step): Life {
    match step
    case CallLogin(i, user) => if i in l.calls || user == "" then l else l.(calls := l.calls[i := LoginWait(user)])
    case CallLogout(i) => if i in l.calls then l else l.(calls := l.calls[i := LogoutWait(None)])
    case CallClose => if l.c.closed then l else l.(c := Closed(l.c), finalizer := ShuttingDown(l.c.run))
    case Finalize => Finalized(l)
    case RunDies(g) => l.(running := l.running - {g})
    case Claim => l.(c := ClaimTerminal(l.c).0)
    case Proceed(i, k) =>
      if i !in l.calls then l
      else
        var o := Advance(l.c, i, l.calls[i], l.running, k);
        if o.spawn.Some? && k.spawned in l.calls then l else Took(l, i, o, k.spawned)
  }

  function Finalized(l: Life): Life {
    match l.finalizer
    case ShuttingDown(r) =>
      l.(finalizer := AwaitingOwner(l.c.owner), running := if r.Some? then l.running - {r.value} else l.running)
    case AwaitingOwner(owner) => if owner.Some? && l.c.owner == owner then l else l.(finalizer := CodecClosed)
    case _ => l
  }

  function Run(l: Life, steps: seq<Step>): Life
    decreases |steps|
  {
    if steps == [] then l else Run(Next(l, steps[0]), steps[1..])
  }

  // ---- The invariant -----------------------------------------------------------------------------

  predicate Coupled(state: LoginState, conn: ConnState) {
    match state
    case LoggedOut => conn == Disconnected
    case LoggingIn => conn == Connecting
    case LoggedIn => conn == Connected
    case Reconnecting => conn == ConnReconnecting
  }

  predicate Shape(c: Core) {
    && Coupled(c.state, c.conn)
    && (c.run.Some? <==> c.state == LoggedIn || c.state == Reconnecting)
    && c.provision == c.run
    && (c.user == "" <==> c.state == LoggedOut)
    && (c.closed ==> c.state == LoggedOut)
    && (c.live ==> c.run.Some?) && (c.run.Some? ==> c.session >= 1)
    && (c.run.Some? ==> c.run.value <= c.generation) && (c.state == LoggedIn ==> c.run == Some(c.generation))
    && (c.terminal.Some? ==> c.state == LoggedOut && c.terminal.value.user != "" && c.terminal.value.epoch <= c.epoch)
  }

  /** The places between getting and giving back ownership. */
  predicate Owning(p: Place) {
    match p
    case LoginOwn(_) => true
    case LoginDial(_) => true
    case LoginHave(_) => true
    case LoginFail => true
    case ReconnectOwn(_, _) => true
    case ReconnectDial(_, _, _) => true
    case ReconnectHave(_, _, _) => true
    case ReconnectFail(_, _) => true
    case ReconnectRetry(_, _) => true
    case LogoutOwn => true
    case Discard(_) => true
    case Ending => true
    case _ => false
  }

  /** The run a call has dialed or has to shut down. */
  predicate Carries(p: Place, g: nat) {
    match p
    case LoginDial(dialed) => dialed == Some(g)
    case LoginHave(r) => r == g
    case ReconnectDial(_, _, dialed) => dialed == Some(g)
    case ReconnectHave(_, _, found) => found == g
    case Discard(r) => r == g
    case _ => false
  }

  predicate LoginGoesOn(c: Core) {
    c.closed || c.state == LoggingIn
  }

  predicate ReconnectGoesOn(c: Core) {
    c.state != LoggedIn && c.state != LoggingIn
  }

  predicate Canceled(c: Core, session: nat) {
    1 <= session <= c.session && !SessionIsCurrent(c, session)
  }

  /** The run's pumps have ended and its generation will not be dialed again. */
  predicate Gone(c: Core, running: set<nat>, run: nat) {
    run <= c.generation && run !in running
  }

  predicate PlaceFacts(c: Core, p: Place, running: set<nat>) {
    match p
    case LoginWait(user) => user != ""
    case LoginOwn(user) => user != ""
    case LoginDial(dialed) => LoginGoesOn(c) && (dialed.Some? ==> dialed.value == c.generation)
    case LoginHave(r) => LoginGoesOn(c) && r == c.generation
    case LoginFail => LoginGoesOn(c)
    case MonitorFail(r) => Gone(c, running, r)
    case ReconnectStart(r) => Gone(c, running, r)
    case ReconnectBad(r, _) => Gone(c, running, r)
    case ReconnectIdle(r, _) => Gone(c, running, r)
    case ReconnectOwn(r, _) => Gone(c, running, r)
    case ReconnectDial(r, _, dialed) => Gone(c, running, r) && ReconnectGoesOn(c) && (dialed.Some? ==> dialed.value == c.generation)
    case ReconnectHave(r, _, found) => Gone(c, running, r) && ReconnectGoesOn(c) && found == c.generation
    case ReconnectFail(r, _) => Gone(c, running, r)
    case ReconnectRetry(r, _) => Gone(c, running, r)
    case LogoutWait(canceled) => canceled.Some? ==> Canceled(c, canceled.value)
    case LogoutLate(s) => Canceled(c, s)
    case LogoutOwn => !c.live
    case _ => true
  }

  predicate PlaceOk(c: Core, i: nat, p: Place, running: set<nat>) {
    (Owning(p) <==> c.owner == Some(i)) && PlaceFacts(c, p, running)
  }

  /** The call that will take the current state onwards. */
  predicate Attends(c: Core, p: Place) {
    match c.state
    case LoggedOut => true
    case LoggingIn => p.LoginDial? || p.LoginHave? || p.LoginFail?
    case LoggedIn => if c.live then c.run.Some? && Watches(p, c.run.value) else p.LogoutOwn?
    case Reconnecting =>
      if c.live then c.run.Some? && Reconnects(p, c.run.value, c.session) else p.LogoutOwn? || HoldsCanceled(p, c.session)
  }

  predicate Watches(p: Place, run: nat) {
    p == Monitor(run) || p == MonitorFail(run) || p == ReconnectStart(run)
  }

  predicate Reconnects(p: Place, run: nat, session: nat) {
    match p
    case ReconnectBad(r, s) => r == run && s == session
    case ReconnectIdle(r, s) => r == run && s == session
    case ReconnectOwn(r, s) => r == run && s == session
    case ReconnectDial(r, s, _) => r == run && s == session
    case ReconnectHave(r, s, _) => r == run && s == session
    case ReconnectFail(r, s) => r == run && s == session
    case ReconnectRetry(r, s) => r == run && s == session
    case _ => false
  }

  predicate HoldsCanceled(p: Place, session: nat) {
    p == LogoutWait(Some(session)) || p == LogoutLate(session)
  }

  ghost predicate PlacesOk(l: Life) {
    && (forall i :: i in l.calls ==> PlaceOk(l.c, i, l.calls[i], l.running))
    && (l.c.owner.Some? ==> l.c.owner.value in l.calls)
  }

  ghost predicate Attended(c: Core, calls: map<nat, Place>) {
    c.state != LoggedOut ==> exists i :: i in calls && Attends(c, calls[i])
  }

  /** Every run at work belongs to the logged-in client, to the owner, or to the finalizer, and a
      run that is being replaced is not at work. */
  ghost predicate RunningOk(l: Life) {
    && (forall g :: g in l.running ==> Accounted(l, g))
    && (l.c.state == Reconnecting && l.c.run.Some? ==> l.c.run.value !in l.running)
  }

  predicate Accounted(l: Life, g: nat) {
    && g <= l.c.generation
    && (|| (l.c.run == Some(g) && l.c.state == LoggedIn)
        || (l.c.owner.Some? && l.c.owner.value in l.calls && Carries(l.calls[l.c.owner.value], g))
        || l.finalizer == ShuttingDown(Some(g)))
  }

  predicate FinalizerOk(l: Life) {
    && (l.finalizer.NotStarted? <==> !l.c.closed)
    && (l.finalizer.AwaitingOwner? ==> l.c.owner.None? || l.c.owner == l.finalizer.owner)
    && (l.finalizer.CodecClosed? ==> l.c.owner.None?)
  }

  ghost predicate LifeInv(l: Life) {
    Shape(l.c) && PlacesOk(l) && Attended(l.c, l.calls) && RunningOk(l) && FinalizerOk(l) && !l.panicked
  }

  // ---- One call's step ---------------------------------------------------------------------------

  /** What a step of call i may do to the guarded fields, as the other calls see it. */
  predicate Moves(c: Core, c': Core, i: nat) {
    && c.generation <= c'.generation && c.session <= c'.session && c.epoch <= c'.epoch
    && c'.closed == c.closed
    && (c'.session == c.session && !c.live ==> !c'.live)
    && (c'.owner == c.owner || (c.owner.None? && c'.owner == Some(i) && !c.closed) || (c.owner == Some(i) && c'.owner.None?))
    && (c.owner != Some(i) ==>
          && c'.generation == c.generation && (c'.live ==> c.live)
          && (c'.state == LoggedIn ==> c.state == LoggedIn) && (c'.state == LoggingIn <==> c.state == LoggingIn))
  }

  /** Only newly dialed runs come to work. */
  predicate RunningMoves(c: Core, running: set<nat>, running': set<nat>) {
    forall g :: g in running' ==> g in running || c.generation < g
  }

  /** What a step of call i leaves for itself and for the call it spawns. */
  predicate Lands(i: nat, o: Out) {
    && (if o.next.Some? then PlaceOk(o.c, i, o.next.value, o.running) else o.c.owner != Some(i))
    && (o.spawn.Some? ==> !Owning(o.spawn.value) && PlaceFacts(o.c, o.spawn.value, o.running))
  }

  predicate StepsWell(c: Core, i: nat, running: set<nat>, o: Out) {
    Moves(c, o.c, i) && Shape(o.c) && o.ok && Lands(i, o) && RunningMoves(c, running, o.running)
  }

  predicate StartsReconnect(p: Place) {
    p.ReconnectStart? || p.ReconnectBad? || p.ReconnectIdle? || p.ReconnectOwn?
  }

  predicate OfReconnect(p: Place) {
    !OfLogin(p) && !OfMonitor(p) && !OfLogout(p)
  }

  lemma LoginMoves(c: Core, i: nat, p: Place, running: set<nat>, k: Choice)
    requires Shape(c) && PlaceOk(c, i, p, running) && OfLogin(p)
    ensures var o := Advance(c, i, p, running, k); Moves(c, o.c, i) && Shape(o.c) && o.ok
  {
  }

  lemma LoginLands(c: Core, i: nat, p: Place, running: set<nat>, k: Choice)
    requires Shape(c) && PlaceOk(c, i, p, running) && OfLogin(p)
    ensures Lands(i, Advance(c, i, p, running, k))
  {
  }

  lemma MonitorMoves(c: Core, i: nat, p: Place, running: set<nat>, k: Choice)
    requires Shape(c) && PlaceOk(c, i, p, running) && OfMonitor(p)
    ensures var o := Advance(c, i, p, running, k); Moves(c, o.c, i) && Shape(o.c) && o.ok
  {
  }

  lemma MonitorLands(c: Core, i: nat, p: Place, running: set<nat>, k: Choice)
    requires Shape(c) && PlaceOk(c, i, p, running) && OfMonitor(p)
    ensures Lands(i, Advance(c, i, p, running, k))
  {
  }

  lemma ReconnectEarlyMoves(c: Core, i: nat, p: Place, running: set<nat>, k: Choice)
    requires Shape(c) && PlaceOk(c, i, p, running) && StartsReconnect(p)
    ensures var o := Advance(c, i, p, running, k); Moves(c, o.c, i) && Shape(o.c) && o.ok
  {
  }

  lemma ReconnectLateMoves(c: Core, i: nat, p: Place, running: set<nat>, k: Choice)
    requires Shape(c) && PlaceOk(c, i, p, running) && OfReconnect(p) && !StartsReconnect(p)
    ensures var o := Advance(c, i, p, running, k); Moves(c, o.c, i) && Shape(o.c) && o.ok
  {
  }

  lemma ReconnectDialLands(c: Core, i: nat, p: Place, running: set<nat>, k: Choice)
    requires Shape(c) && PlaceOk(c, i, p, running) && p.ReconnectDial?
    ensures Lands(i, Advance(c, i, p, running, k))
  {
  }

  lemma ReconnectEarlyLands(c: Core, i: nat, p: Place, running: set<nat>, k: Choice)
    requires Shape(c) && PlaceOk(c, i, p, running) && StartsReconnect(p)
    ensures Lands(i, Advance(c, i, p, running, k))
  {
  }

  lemma ReconnectLateLands(c: Core, i: nat, p: Place, running: set<nat>, k: Choice)
    requires Shape(c) && PlaceOk(c, i, p, running) && OfReconnect(p) && !StartsReconnect(p) && !p.ReconnectDial?
    ensures Lands(i, Advance(c, i, p, running, k))
  {
  }

  lemma LogoutMoves(c: Core, i: nat, p: Place, running: set<nat>, k: Choice)
    requires Shape(c) && PlaceOk(c, i, p, running) && OfLogout(p)
    ensures var o := Advance(c, i, p, running, k); Moves(c, o.c, i) && Shape(o.c) && o.ok
  {
  }

  lemma LogoutCallLands(c: Core, i: nat, p: Place, running: set<nat>, k: Choice)
    requires Shape(c) && PlaceOk(c, i, p, running) && (p.LogoutWait? || p.LogoutLate? || p.LogoutOwn?)
    ensures Lands(i, Advance(c, i, p, running, k))
  {
  }

  lemma CleanupLands(c: Core, i: nat, p: Place, running: set<nat>, k: Choice)
    requires Shape(c) && PlaceOk(c, i, p, running) && (p.Discard? || p.Ending?)
    ensures Lands(i, Advance(c, i, p, running, k))
  {
  }

  lemma OnlyDialsStart(c: Core, i: nat, p: Place, running: set<nat>, k: Choice)
    ensures RunningMoves(c, running, Advance(c, i, p, running, k).running)
  {
  }

  lemma AdvanceMoves(c: Core, i: nat, p: Place, running: set<nat>, k: Choice)
    requires Shape(c) && PlaceOk(c, i, p, running)
    ensures StepsWell(c, i, running, Advance(c, i, p, running, k))
  {
    OnlyDialsStart(c, i, p, running, k);
    if OfLogin(p) {
      LoginMoves(c, i, p, running, k);
      LoginLands(c, i, p, running, k);
    } else if OfMonitor(p) {
      MonitorMoves(c, i, p, running, k);
      MonitorLands(c, i, p, running, k);
    } else if p.ReconnectDial? {
      ReconnectLateMoves(c, i, p, running, k);
      ReconnectDialLands(c, i, p, running, k);
    } else if StartsReconnect(p) {
      ReconnectEarlyMoves(c, i, p, running, k);
      ReconnectEarlyLands(c, i, p, running, k);
    } else if OfReconnect(p) {
      ReconnectLateMoves(c, i, p, running, k);
      ReconnectLateLands(c, i, p, running, k);
    } else {
      LogoutMoves(c, i, p, running, k);
      if p.Discard? || p.Ending? {
        CleanupLands(c, i, p, running, k);
      } else {
        LogoutCallLands(c, i, p, running, k);
      }
    }
  }

  /** No step of one call disturbs where another call stands. */
  lemma OthersStayOk(c: Core, c': Core, i: nat, j: nat, p: Place, running: set<nat>, running': set<nat>)
    requires Moves(c, c', i) && RunningMoves(c, running, running') && i != j && PlaceOk(c, j, p, running)
    ensures PlaceOk(c', j, p, running')
  {
  }

  lemma TookKeepsPlaces(l: Life, i: nat, o: Out, spawned: nat)
    requires PlacesOk(l) && i in l.calls && (o.spawn.Some? ==> spawned !in l.calls)
    requires StepsWell(l.c, i, l.running, o)
    ensures PlacesOk(Took(l, i, o, spawned))
  {
    var l' := Took(l, i, o, spawned);
    forall j | j in l'.calls
      ensures PlaceOk(l'.c, j, l'.calls[j], l'.running)
    {
      if j != i && j in l.calls {
        OthersStayOk(l.c, o.c, i, j, l.calls[j], l.running, o.running);
      }
    }
  }

  // ---- Attendance ------------------------------------------------------------------------------

  /** A step of call i keeps the state attended: by i or its spawn when it changed hands, and
      otherwise by whoever attended it before. */
  predicate KeepsAttendance(c: Core, p: Place, o: Out) {
    && (Attends(c, p) ==> o.c.state == LoggedOut || (o.next.Some? && Attends(o.c, o.next.value)) || (o.spawn.Some? && Attends(o.c, o.spawn.value)))
    && (!Attends(c, p) ==> || o.c.state == LoggedOut
                           || (o.next.Some? && Attends(o.c, o.next.value)) || (o.spawn.Some? && Attends(o.c, o.spawn.value))
                           || SameAttendance(c, o.c))
  }

  predicate SameAttendance(c: Core, c': Core) {
    c'.state == c.state && c'.live == c.live && c'.run == c.run && c'.session == c.session
  }

  lemma LoginAttendance(c: Core, i: nat, p: Place, running: set<nat>, k: Choice)
    requires Shape(c) && PlaceOk(c, i, p, running) && OfLogin(p)
    ensures KeepsAttendance(c, p, Advance(c, i, p, running, k))
  {
  }

  lemma MonitorAttendance(c: Core, i: nat, p: Place, running: set<nat>, k: Choice)
    requires Shape(c) && PlaceOk(c, i, p, running) && OfMonitor(p)
    ensures KeepsAttendance(c, p, Advance(c, i, p, running, k))
  {
  }

  lemma LogoutAttendance(c: Core, i: nat, p: Place, running: set<nat>, k: Choice)
    requires Shape(c) && PlaceOk(c, i, p, running) && OfLogout(p)
    ensures KeepsAttendance(c, p, Advance(c, i, p, running, k))
  {
  }

  lemma ReconnectAttendance(c: Core, i: nat, p: Place, running: set<nat>, k: Choice)
    requires Shape(c) && PlaceOk(c, i, p, running) && OfReconnect(p)
    ensures KeepsAttendance(c, p, Advance(c, i, p, running, k))
  {
  }

  lemma TookKeepsAttended(l: Life, i: nat, o: Out, spawned: nat)
    requires Attended(l.c, l.calls) && i in l.calls && (o.spawn.Some? ==> spawned !in l.calls) && KeepsAttendance(l.c, l.calls[i], o)
    ensures Attended(o.c, Took(l, i, o, spawned).calls)
  {
    var calls := Took(l, i, o, spawned).calls;
    if o.c.state != LoggedOut {
      if o.next.Some? && Attends(o.c, o.next.value) {
        assert calls[i] == o.next.value;
      } else if o.spawn.Some? && Attends(o.c, o.spawn.value) {
        assert calls[spawned] == o.spawn.value;
      } else {
        var w :| w in l.calls && Attends(l.c, l.calls[w]);
        assert w != i && calls[w] == l.calls[w];
      }
    }
  }

  lemma AdvanceKeepsAttendance(c: Core, i: nat, p: Place, running: set<nat>, k: Choice)
    requires Shape(c) && PlaceOk(c, i, p, running)
    ensures KeepsAttendance(c, p, Advance(c, i, p, running, k))
  {
    if OfLogin(p) {
      LoginAttendance(c, i, p, running, k);
    } else if OfMonitor(p) {
      MonitorAttendance(c, i, p, running, k);
    } else if OfLogout(p) {
      LogoutAttendance(c, i, p, running, k);
    } else {
      ReconnectAttendance(c, i, p, running, k);
    }
  }

  // ---- Runs at work ----------------------------------------------------------------------------

  /** Run g belongs to the logged-in client or to call i as owner. */
  predicate Held(c: Core, i: nat, p: Option<Place>, g: nat) {
    (c.run == Some(g) && c.state == LoggedIn) || (c.owner == Some(i) && p.Some? && Carries(p.value, g))
  }

  /** No step of call i lets go of a run that is at work. */
  predicate KeepsHeld(c: Core, i: nat, p: Place, running: set<nat>, o: Out) {
    && (forall g :: g in o.running && (g !in running || Held(c, i, Some(p), g)) ==>
          Held(o.c, i, o.next, g) && (g in running || g <= o.c.generation))
    && (o.c.state == Reconnecting ==>
          (c.state == Reconnecting && o.c.run == c.run) || (o.c.run.Some? && Gone(o.c, o.running, o.c.run.value)))
  }

  lemma LoginHolds(c: Core, i: nat, p: Place, running: set<nat>, k: Choice)
    requires Shape(c) && PlaceOk(c, i, p, running) && OfLogin(p)
    ensures KeepsHeld(c, i, p, running, Advance(c, i, p, running, k))
  {
  }

  lemma MonitorHolds(c: Core, i: nat, p: Place, running: set<nat>, k: Choice)
    requires Shape(c) && PlaceOk(c, i, p, running) && OfMonitor(p)
    ensures KeepsHeld(c, i, p, running, Advance(c, i, p, running, k))
  {
  }

  lemma LogoutHolds(c: Core, i: nat, p: Place, running: set<nat>, k: Choice)
    requires Shape(c) && PlaceOk(c, i, p, running) && OfLogout(p)
    ensures KeepsHeld(c, i, p, running, Advance(c, i, p, running, k))
  {
  }

  lemma ReconnectHolds(c: Core, i: nat, p: Place, running: set<nat>, k: Choice)
    requires Shape(c) && PlaceOk(c, i, p, running) && OfReconnect(p)
    ensures KeepsHeld(c, i, p, running, Advance(c, i, p, running, k))
  {
  }

  lemma AdvanceKeepsHeld(c: Core, i: nat, p: Place, running: set<nat>, k: Choice)
    requires Shape(c) && PlaceOk(c, i, p, running)
    ensures KeepsHeld(c, i, p, running, Advance(c, i, p, running, k))
  {
    if OfLogin(p) {
      LoginHolds(c, i, p, running, k);
    } else if OfMonitor(p) {
      MonitorHolds(c, i, p, running, k);
    } else if OfLogout(p) {
      LogoutHolds(c, i, p, running, k);
    } else {
      ReconnectHolds(c, i, p, running, k);
    }
  }

  lemma TookKeepsRunning(l: Life, i: nat, o: Out, spawned: nat)
    requires PlacesOk(l) && RunningOk(l) && Shape(l.c) && i in l.calls && (o.spawn.Some? ==> spawned !in l.calls)
    requires StepsWell(l.c, i, l.running, o) && KeepsHeld(l.c, i, l.calls[i], l.running, o)
    ensures RunningOk(Took(l, i, o, spawned))
  {
    var l' := Took(l, i, o, spawned);
    forall g | g in l'.running
      ensures Accounted(l', g)
    {
      if g in l.running {
        assert Accounted(l, g);
      }
      if Held(o.c, i, o.next, g) && o.next.Some? {
        assert l'.calls[i] == o.next.value;
      }
    }
  }

  lemma NextProceeds(l: Life, i: nat, k: Choice)
    ensures var o := if i in l.calls then Advance(l.c, i, l.calls[i], l.running, k) else Stay(l.c, Ending, l.running);
      Next(l, Proceed(i, k)) == if i !in l.calls || (o.spawn.Some? && k.spawned in l.calls) then l else Took(l, i, o, k.spawned)
  {
  }

  lemma ProceedKeepsInv(l: Life, i: nat, k: Choice)
    requires LifeInv(l)
    ensures LifeInv(Next(l, Proceed(i, k)))
  {
    NextProceeds(l, i, k);
    if i in l.calls {
      var o := Advance(l.c, i, l.calls[i], l.running, k);
      if o.spawn.None? || k.spawned !in l.calls {
        AdvanceMoves(l.c, i, l.calls[i], l.running, k);
        AdvanceKeepsAttendance(l.c, i, l.calls[i], l.running, k);
        AdvanceKeepsHeld(l.c, i, l.calls[i], l.running, k);
        TookKeepsInv(l, i, o, k.spawned);
      }
    }
  }

  lemma TookKeepsInv(l: Life, i: nat, o: Out, spawned: nat)
    requires LifeInv(l) && i in l.calls && (o.spawn.Some? ==> spawned !in l.calls)
    requires StepsWell(l.c, i, l.running, o) && KeepsAttendance(l.c, l.calls[i], o) && KeepsHeld(l.c, i, l.calls[i], l.running, o)
    ensures LifeInv(Took(l, i, o, spawned))
  {
    TookKeepsPlaces(l, i, o, spawned);
    TookKeepsAttended(l, i, o, spawned);
    TookKeepsRunning(l, i, o, spawned);
  }

  lemma CallsKeepInv(l: Life, i: nat, p: Place)
    requires LifeInv(l) && i !in l.calls && !Owning(p) && PlaceFacts(l.c, p, l.running)
    ensures LifeInv(l.(calls := l.calls[i := p]))
  {
    var l' := l.(calls := l.calls[i := p]);
    if l.c.state != LoggedOut {
      var w :| w in l.calls && Attends(l.c, l.calls[w]);
      assert l'.calls[w] == l.calls[w];
    }
    forall g | g in l'.running
      ensures Accounted(l', g)
    {
      assert Accounted(l, g);
    }
  }

  lemma CloseKeepsInv(l: Life)
    requires LifeInv(l)
    ensures LifeInv(Next(l, CallClose))
  {
    var l' := Next(l, CallClose);
    forall g | g in l'.running
      ensures Accounted(l', g)
    {
      assert Accounted(l, g);
    }
  }

  lemma FinalizeKeepsInv(l: Life)
    requires LifeInv(l)
    ensures LifeInv(Next(l, Finalize))
  {
    var l' := Next(l, Finalize);
    forall g | g in l'.running
      ensures Accounted(l', g)
    {
      assert Accounted(l, g);
    }
  }

  lemma DyingKeepsInv(l: Life, r: nat)
    requires LifeInv(l)
    ensures LifeInv(Next(l, RunDies(r)))
  {
    var l' := Next(l, RunDies(r));
    forall g | g in l'.running
      ensures Accounted(l', g)
    {
      assert Accounted(l, g);
    }
  }

  lemma ClaimKeepsInv(l: Life)
    requires LifeInv(l)
    ensures LifeInv(Next(l, Claim))
  {
    var l' := Next(l, Claim);
    if l.c.state != LoggedOut {
      var w :| w in l.calls && Attends(l.c, l.calls[w]);
      assert Attends(l'.c, l'.calls[w]);
    }
    forall g | g in l'.running
      ensures Accounted(l', g)
    {
      assert Accounted(l, g);
    }
    forall i | i in l'.calls
      ensures PlaceOk(l'.c, i, l'.calls[i], l'.running)
    {
      assert PlaceOk(l.c, i, l.calls[i], l.running);
    }
  }

  lemma StepKeepsInv(l: Life, step: Step)
    requires LifeInv(l)
    ensures LifeInv(Next(l, step))
  {
    match step
    case CallLogin(i, user) =>
      if i !in l.calls && user != "" {
        CallsKeepInv(l, i, LoginWait(user));
      }
    case CallLogout(i) =>
      if i !in l.calls {
        CallsKeepInv(l, i, LogoutWait(None));
      }
    case CallClose => CloseKeepsInv(l);
    case Finalize => FinalizeKeepsInv(l);
    case RunDies(r) => DyingKeepsInv(l, r);
    case Claim => ClaimKeepsInv(l);
    case Proceed(i, k) => ProceedKeepsInv(l, i, k);
  }

  lemma {:induction false} RunKeepsInv(l: Life, steps: seq<Step>)
    requires LifeInv(l)
    ensures LifeInv(Run(l, steps))
    decreases |steps|
  {
    if steps != [] {
      StepKeepsInv(l, steps[0]);
      RunKeepsInv(Next(l, steps[0]), steps[1..]);
    }
  }
}

/** Delivery of callbacks: the lifecycle system with its queue of best-effort callbacks, the
    wake-up channel of the terminal slot and the dispatcher. */
module Callbacks {
  import opened Common
  import opened Lifecycle
  import opened LifecycleSystem

  /** Where the dispatcher's loop stands. */
  datatype Dispatcher =
    | Claiming
    | Invoking(bundle: Bundle)
    | Selecting
    | Received(stamp: nat)
    | Calling(stamp: nat)
    | Exited

  datatype Invocation = OfBundle(bundle: Bundle) | OfEvent(stamp: nat)

  /** `signals` counts publishers that have not signalled yet; `draining` says the dispatcher has
      seen the end of the client's lifetime; the logs hold bundles published and claimed. */
  datatype Hub = Hub(
    life: Life, dispatcher: Dispatcher, draining: bool, events: seq<nat>, capacity: nat, wake: bool, signals: nat,
    published: seq<Bundle>, claimed: seq<Bundle>, log: seq<Invocation>)

  datatype Beat =
    | Lifecycle(step: Step)
    | Signal
    | Emit(stamp: nat)
    | Dispatch(arm: Arm)

  /** The arms of the dispatcher's select. */
  datatype Arm = OnWake | OnEvent | OnDone | OnDefault

  function NewHub(capacity: nat): Hub {
    Hub(NewLife(), Claiming, false, [], capacity, false, 0, [], [], [])
  }

  function Beaten(h: Hub, beat: Beat): Hub {
    match beat
    case Lifecycle(step) => if step.Claim? then h else Published(h, Next(h.life, step))
    case Signal => if h.signals == 0 then h else h.(signals := h.signals - 1, wake := true)
    case Emit(stamp) =>
      if MayQueue(h.life.c, stamp) && |h.events| < h.capacity then h.(events := h.events + [stamp]) else h
    case Dispatch(arm) => Dispatched(h, arm)
  }

  function Published(h: Hub, life: Life): Hub {
    if life.c.terminal.Some? && life.c.terminal != h.life.c.terminal
    then h.(life := life, signals := h.signals + 1, published := h.published + [life.c.terminal.value])
    else h.(life := life)
  }

  function Dispatched(h: Hub, arm: Arm): Hub {
    match h.dispatcher
    case Claiming =>
      var bundle := h.life.c.terminal;
      if bundle.None? then h.(dispatcher := Selecting)
      else h.(life := Next(h.life, Claim), events := [], claimed := h.claimed + [bundle.value], dispatcher := Invoking(bundle.value))
    case Invoking(bundle) => h.(log := h.log + [OfBundle(bundle)], dispatcher := Claiming)
    case Selecting => Selected(h, arm)
    case Received(stamp) => h.(dispatcher := if h.life.c.epoch == stamp then Calling(stamp) else Claiming)
    case Calling(stamp) => h.(log := h.log + [OfEvent(stamp)], dispatcher := Claiming)
    case Exited => h
  }

  function Selected(h: Hub, arm: Arm): Hub {
    match arm
    case OnWake => if h.wake then h.(wake := false, dispatcher := Claiming) else h
    case OnEvent => if h.events == [] then h else h.(events := h.events[1..], dispatcher := Received(h.events[0]))
    case OnDone => if h.life.c.closed && !h.draining then h.(draining := true, dispatcher := Claiming) else h
    case OnDefault => if h.draining && !h.wake && h.events == [] then h.(dispatcher := Exited) else h
  }

  function Play(h: Hub, beats: seq<Beat>): Hub
    decreases |beats|
  {
    if beats == [] then h else Play(Beaten(h, beats[0]), beats[1..])
  }

  // ---- The invariant ----------------------------------------------------------------------------

  function Bundles(log: seq<Invocation>): seq<Bundle> {
    if log == [] then []
    else
      var before, last := Bundles(log[..|log| - 1]), log[|log| - 1];
      if last.OfBundle? then before + [last.bundle] else before
  }

  function Pending(slot: Option<Bundle>): seq<Bundle> {
    if slot.Some? then [slot.value] else []
  }

  function InHand(d: Dispatcher): seq<Bundle> {
    if d.Invoking? then [d.bundle] else []
  }

  /** Bundles open strictly increasing epochs, none beyond the current one. */
  predicate Stamped(bundles: seq<Bundle>, epoch: nat) {
    && (forall m, n :: 0 <= m < n < |bundles| ==> bundles[m].epoch < bundles[n].epoch)
    && (forall m :: 0 <= m < |bundles| ==> bundles[m].epoch <= epoch)
  }

  /** No best-effort callback comes after a bundle that opened a later epoch. */
  predicate NothingStale(log: seq<Invocation>) {
    forall m, n :: 0 <= m < n < |log| && log[m].OfBundle? && log[n].OfEvent? ==> log[m].bundle.epoch <= log[n].stamp
  }

  predicate Flow(h: Hub) {
    && h.published == h.claimed + Pending(h.life.c.terminal)
    && h.claimed == Bundles(h.log) + InHand(h.dispatcher)
    && Stamped(h.published, h.life.c.epoch)
  }

  predicate Order(h: Hub) {
    && NothingStale(h.log)
    && (h.dispatcher.Calling? ==> forall b :: b in h.claimed ==> b.epoch <= h.dispatcher.stamp)
  }

  /** The dispatcher cannot sleep through a published bundle, nor leave one behind. */
  predicate Awake(h: Hub) {
    && (h.dispatcher.Selecting? && h.life.c.terminal.Some? ==> h.wake || h.signals > 0)
    && (h.draining ==> h.life.c.closed)
    && (h.draining && (h.dispatcher.Selecting? || h.dispatcher.Exited?) ==> h.life.c.terminal.None?)
    && (h.dispatcher.Exited? ==> h.draining)
  }

  ghost predicate HubInv(h: Hub) {
    LifeInv(h.life) && Flow(h) && Order(h) && Awake(h)
  }

  // ---- Steps ------------------------------------------------------------------------------------

  /** How a lifecycle step, other than the dispatcher's claim, treats slot and epoch. */
  predicate SlotMoves(c: Core, c': Core) {
    && c.epoch <= c'.epoch && (c.closed ==> c'.closed)
    && (c'.terminal == c.terminal
        || (!c.closed && c.terminal.None? && c'.terminal.Some? && c'.epoch == c.epoch + 1 == c'.terminal.value.epoch))
  }

  /** The places from which a terminal error is recorded. */
  predicate Records(p: Place) {
    p.LoginFail? || p.MonitorFail? || p.ReconnectBad? || p.ReconnectFail?
  }

  lemma RecordingMovesSlot(c: Core, i: nat, p: Place, running: set<nat>, k: Choice)
    requires Shape(c) && PlaceOk(c, i, p, running) && Records(p)
    ensures SlotMoves(c, Advance(c, i, p, running, k).c)
  {
  }

  lemma LoginMovesSlot(c: Core, i: nat, p: Place, running: set<nat>, k: Choice)
    requires Shape(c) && PlaceOk(c, i, p, running) && OfLogin(p) && !Records(p)
    ensures SlotMoves(c, Advance(c, i, p, running, k).c)
  {
  }

  lemma ReconnectMovesSlot(c: Core, i: nat, p: Place, running: set<nat>, k: Choice)
    requires Shape(c) && PlaceOk(c, i, p, running) && (OfReconnect(p) || OfMonitor(p)) && !Records(p)
    ensures SlotMoves(c, Advance(c, i, p, running, k).c)
  {
  }

  lemma LogoutMovesSlot(c: Core, i: nat, p: Place, running: set<nat>, k: Choice)
    requires Shape(c) && PlaceOk(c, i, p, running) && OfLogout(p)
    ensures SlotMoves(c, Advance(c, i, p, running, k).c)
  {
  }

  lemma CallsMoveSlot(c: Core, i: nat, p: Place, running: set<nat>, k: Choice)
    requires Shape(c) && PlaceOk(c, i, p, running)
    ensures SlotMoves(c, Advance(c, i, p, running, k).c)
  {
    if Records(p) {
      RecordingMovesSlot(c, i, p, running, k);
    } else if OfLogin(p) {
      LoginMovesSlot(c, i, p, running, k);
    } else if OfLogout(p) {
      LogoutMovesSlot(c, i, p, running, k);
    } else {
      ReconnectMovesSlot(c, i, p, running, k);
    }
  }

  lemma LifeMovesSlot(l: Life, step: Step)
    requires LifeInv(l) && !step.Claim?
    ensures SlotMoves(l.c, Next(l, step).c)
  {
    if step.Proceed? && step.call in l.calls {
      CallsMoveSlot(l.c, step.call, l.calls[step.call], l.running, step.choice);
    }
  }

  lemma StampedAppended(bundles: seq<Bundle>, b: Bundle, epoch: nat)
    requires Stamped(bundles, epoch) && b.epoch == epoch + 1
    ensures Stamped(bundles + [b], epoch + 1)
  {
  }

  /** A new bundle goes to the end of what was published, and into the slot. */
  lemma PublishedFlow(published: seq<Bundle>, claimed: seq<Bundle>, b: Bundle)
    requires published == claimed + Pending(None)
    ensures published + [b] == claimed + Pending(Some(b))
  {
  }

  lemma PublishingKeepsFlow(h: Hub, life: Life)
    requires Flow(h) && Order(h) && Awake(h) && SlotMoves(h.life.c, life.c)
    ensures var h' := Published(h, life); Flow(h') && Order(h') && Awake(h')
  {
    if life.c.terminal != h.life.c.terminal {
      var b := life.c.terminal.value;
      StampedAppended(h.published, b, h.life.c.epoch);
      PublishedFlow(h.published, h.claimed, b);
    }
  }

  lemma PublishingKeepsInv(h: Hub, life: Life)
    requires HubInv(h) && LifeInv(life) && SlotMoves(h.life.c, life.c)
    ensures HubInv(Published(h, life))
  {
    PublishingKeepsFlow(h, life);
  }

  lemma BundlesAppended(log: seq<Invocation>, last: Invocation)
    ensures Bundles(log + [last]) == if last.OfBundle? then Bundles(log) + [last.bundle] else Bundles(log)
  {
    assert (log + [last])[..|log|] == log;
  }

  lemma {:induction false} BundlesHasAll(log: seq<Invocation>, n: nat)
    requires n < |log| && log[n].OfBundle?
    ensures log[n].bundle in Bundles(log)
  {
    if n < |log| - 1 {
      BundlesHasAll(log[..|log| - 1], n);
    }
  }

  lemma ClaimingKeepsFlow(h: Hub)
    requires Flow(h) && Order(h) && Awake(h) && h.dispatcher.Claiming?
    ensures var h' := Dispatched(h, OnDefault); Flow(h') && Order(h') && Awake(h')
  {
  }

  lemma ClaimingKeepsInv(h: Hub)
    requires HubInv(h) && h.dispatcher.Claiming?
    ensures HubInv(Dispatched(h, OnDefault))
  {
    ClaimKeepsInv(h.life);
    ClaimingKeepsFlow(h);
  }

  lemma InvokingKeepsInv(h: Hub)
    requires HubInv(h) && h.dispatcher.Invoking?
    ensures HubInv(Dispatched(h, OnDefault))
  {
    BundlesAppended(h.log, OfBundle(h.dispatcher.bundle));
  }

  lemma ReceivedKeepsInv(h: Hub)
    requires HubInv(h) && h.dispatcher.Received?
    ensures HubInv(Dispatched(h, OnDefault))
  {
    forall b | b in h.claimed
      ensures b.epoch <= h.life.c.epoch
    {
      assert b in h.published;
    }
  }

  lemma CallingKeepsInv(h: Hub)
    requires HubInv(h) && h.dispatcher.Calling?
    ensures HubInv(Dispatched(h, OnDefault))
  {
    BundlesAppended(h.log, OfEvent(h.dispatcher.stamp));
    forall m | 0 <= m < |h.log| && h.log[m].OfBundle?
      ensures h.log[m].bundle.epoch <= h.dispatcher.stamp
    {
      BundlesHasAll(h.log, m);
    }
  }

  lemma SelectedKeepsInv(h: Hub, arm: Arm)
    requires HubInv(h) && h.dispatcher.Selecting?
    ensures HubInv(Selected(h, arm))
  {
  }

  lemma BeatKeepsInv(h: Hub, beat: Beat)
    requires HubInv(h)
    ensures HubInv(Beaten(h, beat))
  {
    match beat
    case Lifecycle(step) =>
      if !step.Claim? {
        StepKeepsInv(h.life, step);
        LifeMovesSlot(h.life, step);
        PublishingKeepsInv(h, Next(h.life, step));
      }
    case Signal =>
    case Emit(_) =>
    case Dispatch(arm) =>
      match h.dispatcher
      case Claiming => ClaimingKeepsInv(h);
      case Invoking(_) => InvokingKeepsInv(h);
      case Selecting => SelectedKeepsInv(h, arm);
      case Received(_) => ReceivedKeepsInv(h);
      case Calling(_) => CallingKeepsInv(h);
      case Exited =>
  }

  lemma {:induction false} PlayKeepsInv(h: Hub, beats: seq<Beat>)
    requires HubInv(h)
    ensures HubInv(Play(h, beats))
    decreases |beats|
  {
    if beats != [] {
      BeatKeepsInv(h, beats[0]);
      PlayKeepsInv(Beaten(h, beats[0]), beats[1..]);
    }
  }

  // ---- Guarantees -------------------------------------------------------------------------------

  ghost predicate Playable(h: Hub) {
    exists capacity: nat, beats: seq<Beat> :: h == Play(NewHub(capacity), beats)
  }

  lemma PlayableIsSound(h: Hub)
    requires Playable(h)
    ensures HubInv(h)
  {
    var capacity: nat, beats: seq<Beat> :| h == Play(NewHub(capacity), beats);
    assert Bundles(NewHub(capacity).log) == [];
    PlayKeepsInv(NewHub(capacity), beats);
  }

  /** Bundles are invoked in the order published, each at most once and never overwritten: what
      was published is what was invoked, then the one in the dispatcher's hands, then the slot.
      Nothing is left behind when the dispatcher has exited. */
  lemma TerminalDeliveryIsExact(h: Hub)
    requires Playable(h)
    ensures h.published == Bundles(h.log) + InHand(h.dispatcher) + Pending(h.life.c.terminal)
    ensures forall m, n :: 0 <= m < n < |h.published| ==> h.published[m].epoch < h.published[n].epoch
    ensures h.dispatcher.Exited? ==> h.life.c.closed && Bundles(h.log) == h.published
  {
    PlayableIsSound(h);
  }

  /** Whatever happens after the dispatcher's exit, no bundle turns up. */
  lemma NoBundleAfterExit(h: Hub, beats: seq<Beat>)
    requires Playable(h) && h.dispatcher.Exited?
    ensures Play(h, beats).published == h.published && Play(h, beats).log == h.log
  {
    PlayableIsSound(h);
    ExitIsFinal(h, beats);
  }

  lemma ExitedStep(h: Hub, beat: Beat)
    requires Exits(h) && (beat.Lifecycle? && !beat.step.Claim? ==> SlotMoves(h.life.c, Next(h.life, beat.step).c))
    ensures Exits(Beaten(h, beat)) && Beaten(h, beat).published == h.published && Beaten(h, beat).log == h.log
  {
  }

  /** The dispatcher is gone, the client closed and the slot empty. */
  predicate Exits(h: Hub) {
    h.dispatcher.Exited? && h.life.c.closed && h.life.c.terminal.None?
  }

  lemma {:induction false} ExitIsFinal(h: Hub, beats: seq<Beat>)
    requires LifeInv(h.life) && Exits(h)
    ensures Play(h, beats).published == h.published && Play(h, beats).log == h.log
    decreases |beats|
  {
    if beats != [] {
      if beats[0].Lifecycle? && !beats[0].step.Claim? {
        StepKeepsInv(h.life, beats[0].step);
        LifeMovesSlot(h.life, beats[0].step);
      }
      ExitedStep(h, beats[0]);
      ExitIsFinal(Beaten(h, beats[0]), beats[1..]);
    }
  }

  /** A pending bundle means logged out without a run, so the slot is free whenever an error ends
      a session, and a bundle naming that session's user is published if anyone listens. */
  lemma TerminalFindsSlotFree(h: Hub, i: nat, k: Choice)
    requires Playable(h) && i in h.life.calls
    ensures var c := h.life.c; c.terminal.Some? ==> c.state == LoggedOut && c.run.None? && !c.live
    ensures var c, c' := h.life.c, Advance(h.life.c, i, h.life.calls[i], h.life.running, k).c;
      Records(h.life.calls[i]) && c' != c ==>
        c.terminal.None? && c'.terminal == if k.heard then Some(Bundle(c.user, k.error, c.epoch + 1)) else None
  {
    PlayableIsSound(h);
    assert PlaceOk(h.life.c, i, h.life.calls[i], h.life.running);
    if Records(h.life.calls[i]) {
      RecordedBundle(h.life.c, i, h.life.calls[i], h.life.running, k);
    }
  }

  /** Whether a terminal error found at this place still concerns the client: a login's always does,
      a monitor's while its run is installed, a reconnect's while its session is current too. */
  predicate Concerns(c: Core, p: Place) {
    && !c.closed
    && (p.MonitorFail? ==> c.run == Some(p.run))
    && (p.ReconnectBad? || p.ReconnectFail? ==> c.run == Some(p.run) && c.live && c.session == p.session)
  }

  /** A terminal error ends the session exactly when it still concerns the client: then the client is
      logged out in a new epoch; otherwise nothing changes. */
  lemma RecordsExactlyWhenConcerned(c: Core, i: nat, p: Place, running: set<nat>, k: Choice)
    requires Records(p)
    ensures var c' := Advance(c, i, p, running, k).c;
      if Concerns(c, p)
      then c'.state == LoggedOut && c'.run.None? && c'.provision.None? && c'.user == "" && !c'.live && c'.epoch == c.epoch + 1
           && c'.owner == c.owner && c'.session == c.session && c'.generation == c.generation
      else c' == c
  {
  }

  lemma RecordedBundle(c: Core, i: nat, p: Place, running: set<nat>, k: Choice)
    requires Shape(c) && PlaceOk(c, i, p, running) && Records(p)
    ensures var c' := Advance(c, i, p, running, k).c;
      c' != c ==> c.terminal.None? && c'.terminal == if k.heard then Some(Bundle(c.user, k.error, c.epoch + 1)) else None
  {
  }

  /** A dispatcher that waits while a bundle is pending is woken: the wake-up is in the channel
      or its publisher is about to send it. */
  lemma NoBundleSleptThrough(h: Hub)
    requires Playable(h) && h.life.c.terminal.Some?
    ensures h.dispatcher.Selecting? ==> h.wake || h.signals > 0
    ensures !h.dispatcher.Exited?
  {
    PlayableIsSound(h);
  }

  lemma Play3(h: Hub, a: Beat, b: Beat, c: Beat)
    ensures Play(h, [a, b, c]) == Beaten(Beaten(Beaten(h, a), b), c)
  {
    var h1 := Beaten(h, a);
    var h2 := Beaten(h1, b);
    assert [a, b, c][1..] == [b, c] && [b, c][1..] == [c] && [c][1..] == [];
    assert Play(h2, [c]) == Play(Beaten(h2, c), []);
    assert Play(h1, [b, c]) == Play(h2, [c]);
  }

  lemma ReceivesOldest(h: Hub)
    requires h.dispatcher.Selecting? && h.events != []
    ensures Beaten(h, Dispatch(OnEvent)) == h.(events := h.events[1..], dispatcher := Received(h.events[0]))
  {
  }

  lemma ReceivedIsInvoked(h: Hub, arm: Arm)
    requires h.dispatcher.Received?
    ensures Beaten(Beaten(h, Dispatch(arm)), Dispatch(arm)).log ==
      if h.dispatcher.stamp == h.life.c.epoch then h.log + [OfEvent(h.dispatcher.stamp)] else h.log
  {
  }

  /** What the dispatcher does with the oldest queued callback when it gets to it: it invokes it if
      its epoch is still current when checked, and drops it otherwise. */
  lemma QueuedCallbackIsInvoked(h: Hub, arm: Arm)
    requires h.dispatcher.Selecting? && h.events != []
    ensures Beaten(h, Dispatch(OnEvent)).events == h.events[1..]
    ensures Play(h, [Dispatch(OnEvent), Dispatch(arm), Dispatch(arm)]).log ==
      if h.events[0] == h.life.c.epoch then h.log + [OfEvent(h.events[0])] else h.log
  {
    Play3(h, Dispatch(OnEvent), Dispatch(arm), Dispatch(arm));
    ReceivesOldest(h);
    ReceivedIsInvoked(Beaten(h, Dispatch(OnEvent)), arm);
  }

  /** After a bundle was invoked, no best-effort callback of an older epoch is. */
  lemma NothingStaleAfterBundle(h: Hub)
    requires Playable(h)
    ensures NothingStale(h.log)
  {
    PlayableIsSound(h);
  }
}

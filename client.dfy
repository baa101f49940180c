/**
 * The page-level state machine of the web client: it reconciles the events
 * of the server's event stream into the displayed countdown, the connection
 * status line, the reconnect button and desktop notifications, and it
 * replaces the stream subscription when the reconnect button is clicked.
 *
 * The page is a record of abstract fields (no document model): the time
 * text, the status text, whether the reconnect button is shown, until when
 * it is disabled, the active subscription, the set of open subscriptions,
 * the watchdog, and a log of the notifications shown. Subscriptions are
 * opaque ids. Every input carries its time on a virtual millisecond clock;
 * timers that are due by then run before the input is handled.
 *
 * The behaviour is given twice: as functions on a `ClientState` value, about
 * which the lemmas speak, and as the class `MobTimerClient`, whose methods
 * update its fields step by step and are proved to follow those functions.
 */
module Client {
  import opened Wrappers
  import opened DisplayTime
  import W = Watchdog

  /** The reconnect button stays disabled this long after a click. */
  const CooldownMs: nat := 5000
  const DisconnectedText: string := "Disconnected..."
  const TimeEndedText: string := "Time ended"

  type SubId = nat

  // ---------------------------------------------------------------------
  // Stream events

  datatype Kind = TickKind | StartKind | StopKind | OverKind | AliveKind

  /** The JSON payload of `tick`, `start` and `stop`, once parsed (`sec` through `parseInt`). */
  datatype Payload = Payload(sec: nat, name: string)

  /** One delivery: its event type and its data, `None` when the data is not valid JSON. */
  datatype Message = Message(kind: Kind, payload: Option<Payload>)

  datatype StreamEvent =
    | Tick(sec: nat)
    | Start(sec: nat, name: string)
    | Stop(sec: nat, name: string)
    | Over
    | Alive

  function KindOf(e: StreamEvent): (k: Kind) {
    match e
    case Tick(_) => TickKind
    case Start(_, _) => StartKind
    case Stop(_, _) => StopKind
    case Over => OverKind
    case Alive => AliveKind
  }

  /** Only `tick`, `start` and `stop` parse their data; `over` and `alive` ignore it. */
  predicate ParsesPayload(k: Kind) {
    k == TickKind || k == StartKind || k == StopKind
  }

  /** What the handler registered for `m.kind` makes of the data. */
  function Decode(m: Message): (r: Option<StreamEvent>)
    ensures r.None? <==> ParsesPayload(m.kind) && m.payload.None?
    ensures r.Some? ==> KindOf(r.value) == m.kind
    ensures r.Some? && ParsesPayload(m.kind) ==> r.value.sec == m.payload.value.sec
  {
    match m.kind
    case TickKind => if m.payload.Some? then Some(Tick(m.payload.value.sec)) else None
    case StartKind =>
      if m.payload.Some? then Some(Start(m.payload.value.sec, m.payload.value.name)) else None
    case StopKind =>
      if m.payload.Some? then Some(Stop(m.payload.value.sec, m.payload.value.name)) else None
    case OverKind => Some(Over)
    case AliveKind => Some(Alive)
  }

  /** A well-formed delivery of `e` (a `tick` carries no name; `over` and `alive` no data). */
  function Encode(e: StreamEvent): (m: Message) {
    match e
    case Tick(sec) => Message(TickKind, Some(Payload(sec, "")))
    case Start(sec, name) => Message(StartKind, Some(Payload(sec, name)))
    case Stop(sec, name) => Message(StopKind, Some(Payload(sec, name)))
    case Over => Message(OverKind, None)
    case Alive => Message(AliveKind, None)
  }

  lemma DecodeEncode(e: StreamEvent)
    ensures Decode(Encode(e)) == Some(e)
  {
  }

  // ---------------------------------------------------------------------
  // Status presenter and notification texts

  datatype StatusView = StatusView(text: string, buttonVisible: bool)

  /** `updateConnectionStatusAndButton`: what the status line and the reconnect button show. */
  function StatusFor(isConnected: bool): (v: StatusView)
    ensures v.buttonVisible <==> !isConnected
    ensures v.text == "" <==> isConnected
    ensures !isConnected ==> v.text == DisconnectedText
  {
    if isConnected then StatusView("", false) else StatusView(DisconnectedText, true)
  }

  lemma StatusForInjective(a: bool, b: bool)
    requires StatusFor(a) == StatusFor(b)
    ensures a == b
  {
  }

  /** The body of the desktop notification an event raises, if it raises one. */
  function NotificationFor(e: StreamEvent): (msg: Option<string>) {
    match e
    case Start(sec, name) => Some("Timer started by " + name + " (" + SecondToDisplayTime(sec) + ")")
    case Stop(sec, name) => Some("Timer stopped by " + name + " (" + SecondToDisplayTime(sec) + ")")
    case Over => Some(TimeEndedText)
    case _ => None
  }

  /**
   * The notification of a start or stop begins with who did it and ends with
   * the display time in parentheses, from which the seconds read back.
   */
  lemma NotificationCarriesTime(e: StreamEvent)
    requires e.Start? || e.Stop?
    ensures var msg := NotificationFor(e).value;
      var head := (if e.Start? then "Timer started by " else "Timer stopped by ") + e.name + " (";
      && |msg| > |head| && msg[..|head|] == head && msg[|msg| - 1] == ')'
      && ParseDisplayTime(msg[|head|..|msg| - 1]) == Some(e.sec)
  {
    var msg := NotificationFor(e).value;
    var d := SecondToDisplayTime(e.sec);
    var head := (if e.Start? then "Timer started by " else "Timer stopped by ") + e.name + " (";
    assert msg == head + d + ")";
    assert msg[..|head|] == head;
    assert msg[|head|..|msg| - 1] == d;
    DisplayTimeRoundTrip(e.sec);
  }

  // ---------------------------------------------------------------------
  // The page as a value

  datatype ClientState = ClientState(
    clock: int,
    timeText: string,
    statusText: string,
    buttonVisible: bool,
    disabledUntil: Option<int>,
    activeSub: Option<SubId>,
    openSubs: set<SubId>,
    nextSub: SubId,
    watch: W.WatchState,
    notifications: seq<string>)

  function WithStatus(s: ClientState, isConnected: bool): (r: ClientState) {
    s.(statusText := StatusFor(isConnected).text, buttonVisible := StatusFor(isConnected).buttonVisible)
  }

  /** `updateTime`. */
  function WithTime(s: ClientState, sec: nat): (r: ClientState) {
    s.(timeText := SecondToDisplayTime(sec))
  }

  /** `sendNotificationIfPossible`: shown only when permission was granted. */
  function WithNotification(s: ClientState, granted: bool, msg: string): (r: ClientState) {
    if granted then s.(notifications := s.notifications + [msg]) else s
  }

  /** `setupEventSource`: a new subscription, made the active one. */
  function WithNewSubscription(s: ClientState): (r: ClientState) {
    s.(activeSub := Some(s.nextSub), openSubs := s.openSubs + {s.nextSub}, nextSub := s.nextSub + 1)
  }

  predicate ButtonDisabled(s: ClientState) {
    s.disabledUntil.Some?
  }

  /**
   * The clock reaches `now`. A due watchdog deadline fires (the watcher marks
   * itself disconnected and the status shows "Disconnected..."); a due
   * re-enable of the reconnect button runs. Nothing reopens the stream.
   */
  function RunTimers(s: ClientState, now: int): (r: ClientState) {
    var s1 := s.(clock := now, watch := W.Expire(s.watch, now));
    var s2 := if W.Due(s.watch, now) then WithStatus(s1, false) else s1;
    if s2.disabledUntil.Some? && s2.disabledUntil.value <= now then s2.(disabledUntil := None) else s2
  }

  /** `common`: each delivery refreshes the watchdog and shows the page as connected. */
  function Common(s: ClientState, now: int): (r: ClientState) {
    WithStatus(s.(watch := W.Refresh(s.watch, now)), true)
  }

  /** The event-specific part of a handler, after `common` (nothing if the data did not parse). */
  function Reconcile(s: ClientState, e: Option<StreamEvent>, granted: bool): (r: ClientState) {
    match e
    case None => s
    case Some(ev) =>
      match ev
      case Tick(sec) => WithTime(s, sec)
      case Start(sec, _) => WithNotification(WithTime(s, sec), granted, NotificationFor(ev).value)
      case Stop(sec, _) => WithNotification(WithTime(s, sec), granted, NotificationFor(ev).value)
      case Over => WithNotification(s, granted, NotificationFor(ev).value)
      case Alive => s
  }

  /** A delivery on subscription `from`; a closed subscription delivers nothing. */
  function OnEvent(s: ClientState, from: SubId, m: Message, granted: bool, now: int): (r: ClientState) {
    var s1 := RunTimers(s, now);
    if from in s1.openSubs then Reconcile(Common(s1, now), Decode(m), granted) else s1
  }

  /**
   * `handleClickReconnectButton`: disable the button for the cooldown, close
   * the active subscription if there is one, then open a new one. A disabled
   * button delivers no click.
   */
  function OnClick(s: ClientState, now: int): (r: ClientState) {
    var s1 := RunTimers(s, now);
    if ButtonDisabled(s1) then s1
    else
      var s2 := s1.(disabledUntil := Some(now + CooldownMs));
      var s3 := if s2.activeSub.Some? then s2.(openSubs := s2.openSubs - {s2.activeSub.value}, activeSub := None) else s2;
      WithNewSubscription(s3)
  }

  /** A `/status` or `/toggle` response arrives and its `time` is shown. */
  function OnTimeResponse(s: ClientState, time: nat, now: int): (r: ClientState) {
    WithTime(RunTimers(s, now), time)
  }

  /** `window.onload` at `now`, on a page whose time element shows `pageTime`. */
  function Onload(now: int, pageTime: string): (s: ClientState) {
    var s0 := ClientState(now, pageTime, "", true, None, None, {}, 0, W.Initial(), []);
    var s1 := s0.(watch := W.Refresh(s0.watch, now));
    WithStatus(WithNewSubscription(s1), true)
  }

  // ---------------------------------------------------------------------
  // Traces of inputs

  datatype Action =
    | Receive(from: SubId, msg: Message, granted: bool)
    | ClickReconnect
    | TimeResponse(time: nat)
    | Wait

  datatype Input = Input(at: int, action: Action)

  function Step(s: ClientState, i: Input): (r: ClientState) {
    match i.action
    case Receive(from, m, granted) => OnEvent(s, from, m, granted, i.at)
    case ClickReconnect => OnClick(s, i.at)
    case TimeResponse(time) => OnTimeResponse(s, time, i.at)
    case Wait => RunTimers(s, i.at)
  }

  function Run(s: ClientState, ins: seq<Input>): (r: ClientState)
    decreases |ins|
  {
    if ins == [] then s else Run(Step(s, ins[0]), ins[1..])
  }

  /** The virtual clock never goes back. */
  predicate Monotone(clock: int, ins: seq<Input>)
    decreases |ins|
  {
    ins == [] || (clock <= ins[0].at && Monotone(ins[0].at, ins[1..]))
  }

  // ---------------------------------------------------------------------
  // The invariant

  /** The status line is empty exactly when the reconnect button is hidden. */
  predicate StatusAgrees(s: ClientState) {
    (s.statusText == "" && !s.buttonVisible) || (s.statusText == DisconnectedText && s.buttonVisible)
  }

  ghost predicate Inv(s: ClientState) {
    // exactly one subscription is open, the active one, and it is the newest
    && s.activeSub.Some?
    && s.openSubs == {s.activeSub.value}
    && s.activeSub.value < s.nextSub
    // the status line and the button always agree
    && StatusAgrees(s)
    // at most one deadline is pending, and it lies at most TIMEOUT_SEC ahead
    && (s.watch.deadline.Some? ==> s.clock < s.watch.deadline.value <= s.clock + W.TimeoutMs)
    // no deadline pending only after an expiry, which showed the disconnected status
    && (s.watch.deadline.None? ==> !s.watch.connected && s.statusText == DisconnectedText)
    && (s.disabledUntil.Some? ==> s.clock < s.disabledUntil.value <= s.clock + CooldownMs)
  }

  lemma OnloadState(now: int, pageTime: string)
    ensures var s := Onload(now, pageTime);
      && Inv(s)
      && s.clock == now && s.timeText == pageTime
      && s.statusText == "" && !s.buttonVisible && !ButtonDisabled(s)
      && s.watch == W.WatchState(true, Some(now + 10000))
      && |s.openSubs| == 1 && s.notifications == []
  {
  }

  lemma RunTimersPreservesInv(s: ClientState, now: int)
    requires Inv(s) && s.clock <= now
    ensures Inv(RunTimers(s, now)) && RunTimers(s, now).clock == now
  {
  }

  lemma OnEventPreservesInv(s: ClientState, from: SubId, m: Message, granted: bool, now: int)
    requires Inv(s) && s.clock <= now
    ensures Inv(OnEvent(s, from, m, granted, now)) && OnEvent(s, from, m, granted, now).clock == now
  {
    RunTimersPreservesInv(s, now);
    var s1 := RunTimers(s, now);
    if from in s1.openSubs {
      var c := Common(s1, now);
      assert Inv(c);
      match Decode(m)
      case None =>
      case Some(e) =>
        assert Inv(Reconcile(c, Some(e), granted));
    }
  }

  lemma OnClickPreservesInv(s: ClientState, now: int)
    requires Inv(s) && s.clock <= now
    ensures Inv(OnClick(s, now)) && OnClick(s, now).clock == now
  {
    RunTimersPreservesInv(s, now);
  }

  lemma StepPreservesInv(s: ClientState, i: Input)
    requires Inv(s) && s.clock <= i.at
    ensures Inv(Step(s, i)) && Step(s, i).clock == i.at
  {
    match i.action
    case Receive(from, m, granted) => OnEventPreservesInv(s, from, m, granted, i.at);
    case ClickReconnect => OnClickPreservesInv(s, i.at);
    case TimeResponse(time) => RunTimersPreservesInv(s, i.at);
    case Wait => RunTimersPreservesInv(s, i.at);
  }

  lemma {:induction false} RunPreservesInv(s: ClientState, ins: seq<Input>)
    requires Inv(s) && Monotone(s.clock, ins)
    ensures Inv(Run(s, ins))
    decreases |ins|
  {
    if ins != [] {
      StepPreservesInv(s, ins[0]);
      RunPreservesInv(Step(s, ins[0]), ins[1..]);
    }
  }

  /** Whatever happens after the page loads, exactly one subscription is open. */
  lemma AlwaysOneSubscription(now: int, pageTime: string, ins: seq<Input>)
    requires Monotone(now, ins)
    ensures var s := Run(Onload(now, pageTime), ins);
      s.activeSub.Some? && s.openSubs == {s.activeSub.value}
  {
    OnloadState(now, pageTime);
    RunPreservesInv(Onload(now, pageTime), ins);
  }

  // ---------------------------------------------------------------------
  // Event reconciliation

  /**
   * Every delivery on an open subscription, whatever its kind and whether or
   * not its data parses, refreshes the watchdog and shows the page as connected;
   * the subscriptions and the button's cooldown are as the clock left them.
   */
  lemma EveryEventConnects(s: ClientState, from: SubId, m: Message, granted: bool, now: int)
    requires from in RunTimers(s, now).openSubs
    ensures var r := OnEvent(s, from, m, granted, now);
      && r.statusText == "" && !r.buttonVisible
      && r.watch.deadline == Some(now + 10000)
      && r.watch.connected == W.Expire(s.watch, now).connected
      && r.openSubs == s.openSubs && r.activeSub == s.activeSub
      && r.disabledUntil == RunTimers(s, now).disabledUntil
  {
  }

  /** `tick`, `start` and `stop` show their seconds; `over`, `alive` and unparsable data leave the time. */
  lemma EventTimeText(s: ClientState, from: SubId, m: Message, granted: bool, now: int)
    requires from in RunTimers(s, now).openSubs
    ensures OnEvent(s, from, m, granted, now).timeText ==
      if ParsesPayload(m.kind) && m.payload.Some?
      then SecondToDisplayTime(m.payload.value.sec)
      else s.timeText
  {
  }

  /** The exact notification each delivery adds to the log, and that none is shown without permission. */
  lemma EventNotifications(s: ClientState, from: SubId, m: Message, granted: bool, now: int)
    ensures OnEvent(s, from, m, granted, now).notifications == s.notifications +
      if !granted || from !in RunTimers(s, now).openSubs then []
      else match Decode(m)
        case Some(Start(sec, name)) => ["Timer started by " + name + " (" + SecondToDisplayTime(sec) + ")"]
        case Some(Stop(sec, name)) => ["Timer stopped by " + name + " (" + SecondToDisplayTime(sec) + ")"]
        case Some(Over) => ["Time ended"]
        case _ => []
  {
  }

  /** `tick` and `alive` never raise a notification, granted or not. */
  lemma TickAndAliveAreSilent(s: ClientState, from: SubId, m: Message, granted: bool, now: int)
    requires m.kind == TickKind || m.kind == AliveKind
    ensures OnEvent(s, from, m, granted, now).notifications == s.notifications
  {
    EventNotifications(s, from, m, granted, now);
  }

  /** Data that does not parse still proves the connection alive, but changes no time and raises nothing. */
  lemma MalformedPayload(s: ClientState, from: SubId, m: Message, granted: bool, now: int)
    requires from in RunTimers(s, now).openSubs
    requires Decode(m).None?
    ensures var r := OnEvent(s, from, m, granted, now);
      && r == Common(RunTimers(s, now), now)
      && r.timeText == s.timeText && r.notifications == s.notifications
      && r.statusText == "" && r.watch.deadline == Some(now + 10000)
  {
  }

  /** A second identical `alive` at the same instant changes nothing. */
  lemma AliveTwiceIsAliveOnce(s: ClientState, from: SubId, m: Message, g1: bool, g2: bool, now: int)
    requires m.kind == AliveKind
    requires from in RunTimers(s, now).openSubs
    ensures OnEvent(OnEvent(s, from, m, g1, now), from, m, g2, now) == OnEvent(s, from, m, g1, now)
  {
    var r := OnEvent(s, from, m, g1, now);
    assert RunTimers(r, now) == r;
  }

  /** Showing the status it already shows leaves the page as it is. */
  lemma WithStatusIdempotent(s: ClientState, isConnected: bool)
    ensures WithStatus(WithStatus(s, isConnected), isConnected) == WithStatus(s, isConnected)
    ensures s.statusText == StatusFor(isConnected).text && s.buttonVisible == StatusFor(isConnected).buttonVisible
      ==> WithStatus(s, isConnected) == s
  {
  }

  lemma StartScenario(s: ClientState, from: SubId, now: int)
    requires from in RunTimers(s, now).openSubs
    ensures var r := OnEvent(s, from, Message(StartKind, Some(Payload(1500, "Ada"))), true, now);
      && r.timeText == "25:00"
      && r.notifications == s.notifications + ["Timer started by Ada (25:00)"]
  {
    var m := Message(StartKind, Some(Payload(1500, "Ada")));
    var d := SecondToDisplayTime(1500);
    assert d == "25:00" by { DisplayTimeExamples(); }
    assert "Timer started by " + "Ada" + " (" + d + ")" == "Timer started by Ada (25:00)";
    EventTimeText(s, from, m, true, now);
    EventNotifications(s, from, m, true, now);
  }

  predicate IsReceive(i: Input) {
    i.action.Receive?
  }

  /** No delivery in the trace had permission to notify. */
  predicate NeverGranted(ins: seq<Input>) {
    forall k :: 0 <= k < |ins| && IsReceive(ins[k]) ==> !ins[k].action.granted
  }

  lemma {:induction false} NoPermissionNoNotifications(s: ClientState, ins: seq<Input>)
    requires NeverGranted(ins)
    ensures Run(s, ins).notifications == s.notifications
    decreases |ins|
  {
    if ins != [] {
      var i := ins[0];
      if i.action.Receive? {
        EventNotifications(s, i.action.from, i.action.msg, i.action.granted, i.at);
      }
      assert NeverGranted(ins[1..]) by {
        forall k | 0 <= k < |ins| - 1 && IsReceive(ins[1..][k])
          ensures !ins[1..][k].action.granted
        {
          assert ins[1..][k] == ins[k + 1];
        }
      }
      NoPermissionNoNotifications(Step(s, i), ins[1..]);
    }
  }

  // ---------------------------------------------------------------------
  // Liveness at the page level

  /** The watchdog fires when the clock reaches its deadline: the status shows "Disconnected..." and nothing reopens the stream. */
  lemma ExpiryOnlySurfacesStatus(s: ClientState, now: int)
    requires W.Due(s.watch, now)
    ensures var r := RunTimers(s, now);
      && r.statusText == DisconnectedText && r.buttonVisible
      && !r.watch.connected && r.watch.deadline.None?
      && r.openSubs == s.openSubs && r.activeSub == s.activeSub
      && r.timeText == s.timeText && r.notifications == s.notifications
  {
  }

  /** Eleven seconds of silence after the page loads show the disconnected status and the reconnect button. */
  lemma SilenceAfterLoad(now: int, pageTime: string)
    ensures var r := RunTimers(Onload(now, pageTime), now + 11000);
      r.statusText == "Disconnected..." && r.buttonVisible
  {
  }

  /** Deliveries on the active subscription, each within TIMEOUT_SEC of the previous one. */
  predicate TimelyDeliveries(sub: SubId, last: int, ins: seq<Input>)
    decreases |ins|
  {
    ins == [] ||
      (ins[0].action.Receive? && ins[0].action.from == sub
       && last <= ins[0].at < last + W.TimeoutMs
       && TimelyDeliveries(sub, ins[0].at, ins[1..]))
  }

  /** No input of the trace finds the watchdog's deadline due. */
  predicate NoExpiry(s: ClientState, ins: seq<Input>)
    decreases |ins|
  {
    ins == [] || (!W.Due(s.watch, ins[0].at) && NoExpiry(Step(s, ins[0]), ins[1..]))
  }

  /**
   * As long as events keep arriving on the active subscription less than
   * TIMEOUT_SEC apart, the watchdog never fires and the page stays connected.
   */
  lemma {:induction false} TimelyEventsStayConnected(s: ClientState, last: int, ins: seq<Input>)
    requires Inv(s) && s.clock <= last
    requires s.watch.deadline == Some(last + W.TimeoutMs)
    requires TimelyDeliveries(s.activeSub.value, last, ins)
    ensures NoExpiry(s, ins)
    ensures var r := Run(s, ins);
      && r.watch.connected == s.watch.connected
      && r.watch.deadline.Some?
      && r.activeSub == s.activeSub
      && (ins != [] ==> r.statusText == "" && !r.buttonVisible)
    decreases |ins|
  {
    if ins != [] {
      var i := ins[0];
      StepPreservesInv(s, i);
      var s1 := Step(s, i);
      EveryEventConnects(s, i.action.from, i.action.msg, i.action.granted, i.at);
      TimelyEventsStayConnected(s1, i.at, ins[1..]);
    }
  }

  // ---------------------------------------------------------------------
  // Reconnect controller

  /**
   * An accepted click closes the subscription that was active and then opens
   * a new one, never used before, that is the only open one; the button is
   * disabled for the cooldown and nothing else on the page changes.
   */
  lemma ReconnectClosesBeforeOpening(s: ClientState, now: int)
    requires Inv(s) && s.clock <= now
    requires !ButtonDisabled(RunTimers(s, now))
    ensures var r := OnClick(s, now);
      && s.activeSub.value !in r.openSubs
      && r.activeSub == Some(s.nextSub) && r.openSubs == {s.nextSub}
      && s.nextSub !in s.openSubs
      && r.disabledUntil == Some(now + 5000)
      && r.nextSub == s.nextSub + 1
      && r.statusText == RunTimers(s, now).statusText
      && r.buttonVisible == RunTimers(s, now).buttonVisible
      && r.watch == RunTimers(s, now).watch
      && r.timeText == s.timeText && r.notifications == s.notifications
  {
  }

  /**
   * Once a click has replaced the subscription, the old one delivers nothing:
   * whatever it would carry, the page only sees the clock advance.
   */
  lemma StaleSubscriptionIgnored(s: ClientState, m: Message, granted: bool, now: int, t: int)
    requires Inv(s) && s.clock <= now <= t
    requires !ButtonDisabled(RunTimers(s, now))
    ensures OnEvent(OnClick(s, now), s.activeSub.value, m, granted, t) == RunTimers(OnClick(s, now), t)
  {
    OnClickPreservesInv(s, now);
  }

  /**
   * Ids are issued in increasing order: the next id only grows, and every
   * subscription open after a trace was open before it or is newly issued.
   */
  lemma {:induction false} IdsNeverReused(s: ClientState, ins: seq<Input>)
    ensures Run(s, ins).nextSub >= s.nextSub
    ensures forall id :: id in Run(s, ins).openSubs ==> id in s.openSubs || s.nextSub <= id
    decreases |ins|
  {
    if ins != [] {
      IdsNeverReused(Step(s, ins[0]), ins[1..]);
    }
  }

  /**
   * A subscription closed by a reconnect is never open again, whatever
   * follows; so it never again delivers to the page.
   */
  lemma ClosedSubscriptionStaysClosed(s: ClientState, now: int, ins: seq<Input>)
    requires Inv(s) && s.clock <= now
    requires !ButtonDisabled(RunTimers(s, now))
    ensures s.activeSub.value !in Run(OnClick(s, now), ins).openSubs
  {
    ReconnectClosesBeforeOpening(s, now);
    IdsNeverReused(OnClick(s, now), ins);
  }

  /** A click on the disabled button is the clock advancing and nothing more. */
  lemma ClickWhileDisabledIgnored(s: ClientState, now: int)
    requires ButtonDisabled(RunTimers(s, now))
    ensures OnClick(s, now) == RunTimers(s, now)
  {
  }

  /**
   * Two clicks less than five seconds apart open one subscription, not two;
   * from five seconds on, the button is enabled again and a click reconnects.
   */
  lemma CooldownBetweenClicks(s: ClientState, t: int, t': int)
    requires Inv(s) && s.clock <= t <= t'
    requires !ButtonDisabled(RunTimers(s, t))
    ensures var r1 := OnClick(s, t);
      var r2 := OnClick(r1, t');
      && (t' < t + CooldownMs ==> r2.openSubs == r1.openSubs && r2.activeSub == r1.activeSub)
      && (t' >= t + CooldownMs ==> r2.activeSub == Some(r1.nextSub) && r2.openSubs == {r1.nextSub})
  {
    var r1 := OnClick(s, t);
    StepPreservesInv(s, Input(t, ClickReconnect));
    if t' >= t + CooldownMs {
      ReconnectClosesBeforeOpening(r1, t');
    }
  }

  // ---------------------------------------------------------------------
  // The page as an object

  class MobTimerClient {
    var clock: int
    var timeText: string
    var statusText: string
    var buttonVisible: bool
    var disabledUntil: Option<int>
    var activeSub: Option<SubId>
    var openSubs: set<SubId>
    var nextSub: SubId
    var notifications: seq<string>
    const watcher: W.ConnectionTimeoutWatcher

    function State(): (s: ClientState)
      reads this, watcher
    {
      ClientState(clock, timeText, statusText, buttonVisible, disabledUntil,
                  activeSub, openSubs, nextSub, watcher.State(), notifications)
    }

    ghost predicate Valid()
      reads this, watcher
    {
      Inv(State())
    }

    /** `window.onload`: watcher, event source, connected status. */
    constructor (now: int, pageTime: string)
      ensures Valid() && fresh(watcher)
      ensures State() == Onload(now, pageTime)
    {
      clock := now;
      timeText := pageTime;
      statusText, buttonVisible := "", true;
      disabledUntil := None;
      activeSub, openSubs, nextSub := None, {}, 0;
      notifications := [];
      watcher := new W.ConnectionTimeoutWatcher();
      new;
      watcher.NotifyConnected(now);
      var sub := SetupEventSource();
      activeSub := Some(sub);
      UpdateConnectionStatusAndButton(true);
      OnloadState(now, pageTime);
    }

    method UpdateConnectionStatusAndButton(isConnected: bool)
      modifies this
      ensures State() == WithStatus(old(State()), isConnected)
    {
      if isConnected {
        statusText := "";
        buttonVisible := false;
      } else {
        statusText := DisconnectedText;
        buttonVisible := true;
      }
    }

    method UpdateTime(sec: nat)
      modifies this
      ensures State() == WithTime(old(State()), sec)
    {
      timeText := SecondToDisplayTime(sec);
    }

    method SendNotificationIfPossible(msg: string, granted: bool)
      modifies this
      ensures State() == WithNotification(old(State()), granted, msg)
    {
      if granted {
        notifications := notifications + [msg];
      }
    }

    /** Opens a new subscription and returns it; the caller makes it the active one. */
    method SetupEventSource() returns (sub: SubId)
      modifies this
      ensures sub == old(nextSub)
      ensures State() == old(State()).(openSubs := old(openSubs) + {sub}, nextSub := sub + 1)
    {
      sub := nextSub;
      openSubs := openSubs + {sub};
      nextSub := nextSub + 1;
    }

    /** The clock reaches `now`; due timers run. */
    method AdvanceClock(now: int)
      modifies this, watcher
      ensures State() == RunTimers(old(State()), now)
    {
      clock := now;
      var fired := watcher.Advance(now);
      if fired {
        UpdateConnectionStatusAndButton(false);
      }
      if disabledUntil.Some? && disabledUntil.value <= now {
        disabledUntil := None;
      }
    }

    /** A delivery of `m` on subscription `from` at `now`. */
    method HandleEvent(from: SubId, m: Message, granted: bool, now: int)
      requires Valid() && clock <= now
      modifies this, watcher
      ensures Valid()
      ensures State() == OnEvent(old(State()), from, m, granted, now)
    {
      OnEventPreservesInv(State(), from, m, granted, now);
      ghost var s0 := State();
      AdvanceClock(now);
      if from !in openSubs {
        return;
      }
      watcher.NotifyConnected(now);
      UpdateConnectionStatusAndButton(true);
      assert State() == Common(RunTimers(s0, now), now);
      Dispatch(Decode(m), granted);
    }

    /** The part of each event listener after `common`: nothing when the data did not parse. */
    method Dispatch(e: Option<StreamEvent>, granted: bool)
      modifies this
      ensures State() == Reconcile(old(State()), e, granted)
    {
      match e
      case None =>
      case Some(ev) =>
        match ev
        case Tick(sec) =>
          UpdateTime(sec);
        case Start(sec, name) =>
          UpdateTime(sec);
          SendNotificationIfPossible("Timer started by " + name + " (" + SecondToDisplayTime(sec) + ")", granted);
        case Stop(sec, name) =>
          UpdateTime(sec);
          SendNotificationIfPossible("Timer stopped by " + name + " (" + SecondToDisplayTime(sec) + ")", granted);
        case Over =>
          SendNotificationIfPossible(TimeEndedText, granted);
        case Alive =>
    }

    /** `handleClickReconnectButton`, delivered only while the button is enabled. */
    method HandleClickReconnectButton(now: int)
      requires Valid() && clock <= now
      modifies this, watcher
      ensures Valid()
      ensures State() == OnClick(old(State()), now)
    {
      StepPreservesInv(State(), Input(now, ClickReconnect));
      AdvanceClock(now);
      if disabledUntil.Some? {
        return;
      }
      disabledUntil := Some(now + CooldownMs);
      if activeSub.Some? {
        openSubs := openSubs - {activeSub.value};
        activeSub := None;
      }
      var sub := SetupEventSource();
      activeSub := Some(sub);
    }

    /** The `time` of a `/status` or `/toggle` response is shown. */
    method HandleTimeResponse(time: nat, now: int)
      requires Valid() && clock <= now
      modifies this, watcher
      ensures Valid()
      ensures State() == OnTimeResponse(old(State()), time, now)
    {
      StepPreservesInv(State(), Input(now, TimeResponse(time)));
      AdvanceClock(now);
      UpdateTime(time);
    }

    /** Time passes with no input. */
    method Wait(now: int)
      requires Valid() && clock <= now
      modifies this, watcher
      ensures Valid()
      ensures State() == RunTimers(old(State()), now)
    {
      StepPreservesInv(State(), Input(now, Action.Wait));
      AdvanceClock(now);
    }
  }
}

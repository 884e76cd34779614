/**
 The delivery-channel client as a state machine: what each event of
 ios/SinchPushSocket/SocketClient.swift does to the client's fields and what it emits.
 Transport, clock, random source and host are the environment that picks the events.
 */
module ClientSpec {
  import opened Common
  import opened SocketTypes
  import T = TrackerSpec
  import R = SeenRegistries
  import SeenSets
  import Backoff

  const DEFAULT_POLL_MS := 5000
  const MIN_POLL_MS := 1000
  const PENDING_MESSAGE_CAPACITY: nat := 200
  const ALERT_WINDOW_MS := 2000

  /** The clock and the one random draw a step may use; the clock is fixed within a step. */
  datatype Env = Env(now: int, draw: real)

  datatype Status = Idle | Connecting | Connected | Reconnecting | Stopped | AuthRequired | Replaced

  datatype ErrorText =
    | Detail(text: string)
    | InvalidUrl(url: string)
    | SocketClosed(code: int)
    | ServerClosed(rawReason: int)

  datatype SocketState = SocketState(
    status: Status, connectionId: string, pollIntervalMs: int, reconnectAttempts: int, lastError: Option<ErrorText>)

  datatype LastErrorUpdate = Keep | Clear | Set(error: Option<ErrorText>)

  datatype CloseReason = Stale | Unauthorized | BgResumed | PoolFull | OtherReason(raw: int)

  datatype ServerFrame =
    | HelloAck(connectionId: string, serverPollMs: int, messages: seq<PooledMessage>)
    | Message(pooled: Option<PooledMessage>, ackToken: string)
    | AckFrame(ack: T.Ack)
    | Ping(correlationId: string)
    | CloseFrame(reason: CloseReason, detail: Option<string>)
    | AuthChallenge
    | Pong
    /** An unknown tag, a malformed envelope or a payload that does not parse. */
    | Undecodable

  datatype ClientFrame =
    | Hello(lastSeenMessageId: string, authToken: string)
    | Poll
    | DeliveryReport(report: PendingReport, reportedAtMs: int)
    | PongReply(correlationId: string)

  /** Everything the client does to its surroundings, in order. */
  datatype Output =
    | Connect(socket: nat)
    | CloseSocket(socket: nat)
    | Frame(socket: nat, frame: ClientFrame)
    | OnState(state: SocketState)
    | OnMessage(event: MessageEvent)
    | OnAuthRequired
    | LookUpDelivered(looked: MessageEvent, epoch: nat)
    | PostNotification(posted: MessageEvent, alerting: bool)

  /** The slices of the store this state machine reads back. */
  datatype Disk = Disk(
    lastSeenMessageId: string, lastSeenEnqueuedAtMs: int, pendingMessages: seq<MessageEvent>,
    configuration: Option<PersistedConfiguration>, authToken: Option<string>)

  /**
   Whether and how the client is connected. A socket is named by its generation; `callbacks` are the
   sockets whose callbacks are installed. A timer is the millisecond it is due at.
   */
  datatype Link = Link(
    configuration: Option<Configuration>,
    transport: Option<nat>, callbacks: set<nat>, generation: nat,
    pollTask: Option<int>, reconnectTask: Option<int>, deferralTask: Option<int>,
    attempts: int, attemptsBeforeHelloAck: int, helloAckResetArmed: bool,
    pollIntervalMs: int, state: SocketState,
    stopped: bool, sessionEpoch: nat, suspended: bool, authRefreshAttempted: bool, didLoad: bool)

  /** What the client keeps about messages. */
  datatype Mail = Mail(
    lastSeenMessageId: string, lastSeenEnqueuedAtMs: int, lastAlertAtMs: Option<int>,
    pendingMessages: seq<MessageEvent>, handlerRegistered: bool)

  /** The client's fields, grouped; `trace` (its calls on the tracker) and `out` are histories. */
  datatype Client = Client(
    link: Link, mail: Mail, seen: R.Registry, disk: Disk, tracker: T.Tracker, trace: seq<T.Op>, out: seq<Output>)

  function InitialLink(configuration: Option<Configuration>): Link {
    Link(configuration, None, {}, 0, None, None, None, 0, 0, false,
         DEFAULT_POLL_MS, SocketState(Idle, "", DEFAULT_POLL_MS, 0, None), false, 0, false, false, false)
  }

  const INITIAL_MAIL := Mail("", 0, None, [], false)

  datatype Event =
    | Start
    | Stop
    | Suspend
    | Resume
    | UpdateConfiguration(configuration: Configuration)
    | Report(messageId: string, status: DeliveryStatus)
    | ClearPendingMessages
    | SetHandlerRegistered(registered: bool)
    /** The push path marks an id in the shared registry. */
    | PushMarked(id: string)
    | SocketOpened(socket: nat)
    | Inbound(from: nat, frame: ServerFrame)
    | TransportClosed(closed: nat, code: int)
    | PollFired
    | ReconnectFired
    | DeferralFired
    | LookupAnswered(event: MessageEvent, epoch: nat, delivered: bool)
    | PostCompleted(completed: MessageEvent, accepted: bool)

  // ----- Small steps -----

  function Emit(c: Client, o: Output): Client {
    c.(out := c.out + [o])
  }

  function Publish(c: Client, status: Status, connectionId: Option<string>, lastError: LastErrorUpdate): Client {
    var s := SocketState(
      status,
      if connectionId.Some? then connectionId.value else c.link.state.connectionId,
      c.link.pollIntervalMs,
      c.link.attempts,
      match lastError case Keep => c.link.state.lastError case Clear => None case Set(e) => e);
    Emit(c.(link := c.link.(state := s)), OnState(s))
  }

  function ClearTimers(c: Client): Client {
    c.(link := c.link.(pollTask := None, reconnectTask := None, deferralTask := None))
  }

  /** Callbacks are detached before the close, so a closed socket stays silent. */
  function CloseCurrent(c: Client): Client {
    if c.link.transport.None? then c
    else
      Emit(c.(link := c.link.(transport := None, callbacks := c.link.callbacks - {c.link.transport.value})),
           CloseSocket(c.link.transport.value))
  }

  function Send(c: Client, frame: ClientFrame): Client {
    if c.link.transport.None? then c else Emit(c, Frame(c.link.transport.value, frame))
  }

  function Track(c: Client, op: T.Op): Client {
    c.(tracker := T.Step(c.tracker, op), trace := c.trace + [op])
  }

  function LoadPersisted(c: Client): Client {
    if c.link.didLoad then c
    else
      c.(link := c.link.(didLoad := true, configuration := RestoredConfiguration(c)),
         mail := c.mail.(
           lastSeenMessageId := c.disk.lastSeenMessageId,
           lastSeenEnqueuedAtMs := c.disk.lastSeenEnqueuedAtMs,
           pendingMessages := c.disk.pendingMessages))
  }

  /** A persisted configuration is only used when none was given and its credential is there too. */
  function RestoredConfiguration(c: Client): Option<Configuration> {
    if c.link.configuration.None? && c.disk.configuration.Some? && c.disk.authToken.Some?
    then Some(Configuration(c.disk.configuration.value, c.disk.authToken.value))
    else c.link.configuration
  }

  function PersistConfiguration(c: Client): Client {
    if c.link.configuration.None? then c
    else
      c.(disk := c.disk.(configuration := Some(c.link.configuration.value.saved),
                         authToken := Some(c.link.configuration.value.authToken)))
  }

  // ----- Connection -----

  /** One more attempt; a shed forfeits an unspent handshake reset first. */
  function Budgeted(c: Client, shed: bool): Client {
    var forfeits := shed && c.link.helloAckResetArmed;
    c.(link := c.link.(
         helloAckResetArmed := if forfeits then false else c.link.helloAckResetArmed,
         attempts := (if forfeits then c.link.attemptsBeforeHelloAck else c.link.attempts) + 1))
  }

  /** The socket is gone: the next attempt is scheduled, never made at once. */
  function Disconnected(c: Client, reason: ErrorText, shed: bool, env: Env): Client {
    var c1 := Track(CloseCurrent(ClearTimers(c)), T.Closed);
    if c1.link.stopped || c1.link.suspended then c1
    else
      var c2 := Publish(Budgeted(c1, shed), Reconnecting, None, Set(Some(reason)));
      c2.(link := c2.link.(reconnectTask := Some(env.now + Backoff.DelayMs(c2.link.attempts, env.draw))))
  }

  /** One attempt: publish, then a socket, or the backoff when the url does not parse. */
  function Dial(c: Client, env: Env): Client
    requires c.link.configuration.Some?
  {
    var c1 := Publish(c, if c.link.attempts == 0 then Connecting else Reconnecting, None, Clear);
    var c2 := c1.(link := c1.link.(reconnectTask := None));
    var saved := c2.link.configuration.value.saved;
    if !saved.urlParses then Disconnected(c2, InvalidUrl(saved.url), false, env)
    else
      var g := c2.link.generation + 1;
      Emit(c2.(link := c2.link.(generation := g, transport := Some(g), callbacks := c2.link.callbacks + {g})),
          Connect(g))
  }

  function Open(c: Client, env: Env): Client {
    var c1 := LoadPersisted(c);
    if c1.link.stopped || c1.link.suspended || c1.link.configuration.None? then c1 else Dial(c1, env)
  }

  function StopTerminally(c: Client, status: Status, lastError: Option<ErrorText>): Client {
    var c1 := CloseCurrent(ClearTimers(c.(link := c.link.(stopped := true, sessionEpoch := c.link.sessionEpoch + 1))));
    Publish(Track(c1, T.Closed), status, None, Set(lastError))
  }

  function StaleClosed(c: Client, env: Env): Client {
    var c1 := CloseCurrent(ClearTimers(c));
    if c1.link.stopped || c1.link.suspended then c1 else Open(c1.(link := c1.link.(attempts := 0)), env)
  }

  /** The proto enum number; UNSPECIFIED, INTERNAL, SHUTDOWN and unknown reasons are `OtherReason`. */
  function RawReason(reason: CloseReason): int {
    match reason
    case Unauthorized => 1
    case Stale => 2
    case PoolFull => 3
    case BgResumed => 5
    case OtherReason(raw) => raw
  }

  function ReasonText(reason: CloseReason, detail: Option<string>): ErrorText {
    if detail.Some? then Detail(detail.value) else ServerClosed(RawReason(reason))
  }

  /** The close matrix. */
  function ClosedByRelay(c: Client, reason: CloseReason, detail: Option<string>, env: Env): Client {
    match reason
    case Stale => StaleClosed(c, env)
    case Unauthorized =>
      var c1 := StopTerminally(c, AuthRequired, Some(ReasonText(reason, detail)));
      if c1.link.authRefreshAttempted then c1
      else Emit(c1.(link := c1.link.(authRefreshAttempted := true)), OnAuthRequired)
    case BgResumed =>
      StopTerminally(c, Replaced, if detail.Some? then Some(Detail(detail.value)) else None)
    case PoolFull => Disconnected(c, ReasonText(reason, detail), true, env)
    case OtherReason(_) => Disconnected(c, ReasonText(reason, detail), false, env)
  }

  // ----- Sending -----

  function ReportFrames(socket: nat, reports: seq<PendingReport>, now: int): seq<Output> {
    if reports == [] then []
    else
      ReportFrames(socket, reports[..|reports| - 1], now)
      + [Frame(socket, DeliveryReport(reports[|reports| - 1], now))]
  }

  function FlushReports(c: Client, mode: T.FlushMode, env: Env): Client {
    if c.link.state.status != Connected || c.link.transport.None? then c
    else
      var reports := T.ToSend(c.tracker.pending, c.tracker.inFlight, env.now, mode);
      var c1 := Track(c, T.Flush(env.now, mode));
      c1.(out := c1.out + ReportFrames(c1.link.transport.value, reports, env.now))
  }

  function SendPoll(c: Client): Client {
    if c.link.state.status == Connected then Send(c, Poll) else c
  }

  function StartPolling(c: Client, env: Env): Client {
    c.(link := c.link.(pollTask := Some(env.now + c.link.pollIntervalMs)))
  }

  function ArmDeferral(c: Client, env: Env): Client {
    var deadline := T.NextDeferral(c.tracker.pending, env.now);
    c.(link := c.link.(deferralTask :=
         if deadline.None? then None else Some(env.now + Max(0, deadline.value - env.now))))
  }

  function SendHello(c: Client): Client {
    if c.link.configuration.None? then c
    else Send(c, Hello(c.mail.lastSeenMessageId, c.link.configuration.value.authToken))
  }

  // ----- Messages -----

  function AdvanceLastSeen(c: Client, messageId: string, enqueuedAtMs: int, onHit: bool): Client {
    var known := c.mail.lastSeenEnqueuedAtMs;
    if onHit && !(enqueuedAtMs > 0 && (known == 0 || enqueuedAtMs > known)) then c
    else if enqueuedAtMs > 0 && known > 0 && enqueuedAtMs < known then c
    else
      var ms := Max(enqueuedAtMs, 0);
      c.(mail := c.mail.(lastSeenMessageId := messageId, lastSeenEnqueuedAtMs := ms),
         disk := c.disk.(lastSeenMessageId := messageId, lastSeenEnqueuedAtMs := ms))
  }

  predicate ShouldDisplay(c: Client) {
    var rule := if c.link.configuration.Some? then c.link.configuration.value.saved.display else WhenUnhandled;
    match rule
    case Never => false
    case Always => true
    case WhenUnhandled => !c.mail.handlerRegistered
  }

  function SaveMessages(c: Client, messages: seq<MessageEvent>): Client {
    c.(mail := c.mail.(pendingMessages := messages), disk := c.disk.(pendingMessages := messages))
  }

  /** Keeps the newest messages for the host, tells it, and asks whether to post a notification. */
  function Present(c: Client, event: MessageEvent): Client {
    var all := c.mail.pendingMessages + [event];
    var c1 := SaveMessages(c, if |all| > PENDING_MESSAGE_CAPACITY then all[1..] else all);
    var c2 := Emit(c1, OnMessage(event));
    if ShouldDisplay(c2) then Emit(c2, LookUpDelivered(event, c2.link.sessionEpoch)) else c2
  }

  /** A pooled message: cursor, DELIVERED report and flush first, then the event and the lookup. */
  function EmitMessage(c: Client, pooled: PooledMessage, ackToken: string, env: Env): Client {
    var id := pooled.messageId;
    if id == "" then c
    else
      var isNew := SeenSets.IsNew(R.Current(c.seen), id);
      var c1 := AdvanceLastSeen(c.(seen := R.Marked(c.seen, id)), id, pooled.enqueuedAtMs, !isNew);
      var c2 := FlushReports(Track(c1, T.Queue(id, pooled.sinchMessageId, Delivered, "")), T.All, env);
      if !isNew then c2
      else
        Present(c2, MessageEvent(id, pooled.sinchMessageId, ackToken, pooled.enqueuedAtMs, env.now, false))
  }

  function EmitAll(c: Client, messages: seq<PooledMessage>, env: Env): Client {
    if messages == [] then c
    else EmitMessage(EmitAll(c, messages[..|messages| - 1], env), messages[|messages| - 1], "", env)
  }

  function FirstWithId(messages: seq<MessageEvent>, id: string): (i: nat)
    ensures i <= |messages|
    ensures i < |messages| ==> messages[i].id == id
    ensures forall k :: 0 <= k < i ==> messages[k].id != id
  {
    if messages == [] then 0 else if messages[0].id == id then 0 else 1 + FirstWithId(messages[1..], id)
  }

  function MarkShown(c: Client, id: string): Client {
    var i := FirstWithId(c.mail.pendingMessages, id);
    if i == |c.mail.pendingMessages| then c
    else SaveMessages(c, c.mail.pendingMessages[i := c.mail.pendingMessages[i].(shown := true)])
  }

  function SinchIdFor(c: Client, messageId: string): string {
    var i := FirstWithId(c.mail.pendingMessages, messageId);
    if i < |c.mail.pendingMessages| then c.mail.pendingMessages[i].sinchMessageId
    else
      var retained := T.RetainedSinchId(c.tracker.pending, messageId);
      if retained.Some? then retained.value else ""
  }

  // ----- Inbound frames -----

  function ResolvedPollMs(c: Client, serverMs: int): int {
    var requested :=
      if c.link.configuration.Some? && c.link.configuration.value.saved.pollIntervalMs > 0
      then c.link.configuration.value.saved.pollIntervalMs
      else if serverMs > 0 then serverMs else DEFAULT_POLL_MS;
    Max(MIN_POLL_MS, requested)
  }

  /** The handshake zeroes the budget, remembers it, and settles the poll interval. */
  function HelloAckNoted(c: Client, serverPollMs: int): Client {
    c.(link := c.link.(
         attemptsBeforeHelloAck := c.link.attempts, attempts := 0, helloAckResetArmed := true,
         pollIntervalMs := ResolvedPollMs(c, serverPollMs)))
  }

  function GreetedByRelay(c: Client, connectionId: string, serverPollMs: int, messages: seq<PooledMessage>,
      env: Env): Client {
    var c1 := Publish(HelloAckNoted(c, serverPollMs), Connected, Some(connectionId), Clear);
    var c2 := SendPoll(StartPolling(EmitAll(c1, messages, env), env));
    ArmDeferral(FlushReports(c2, T.All, env), env)
  }

  function RejectionRecorded(c: Client, error: string): Client {
    var s := c.link.state.(lastError := Some(Detail(error)));
    Emit(c.(link := c.link.(state := s)), OnState(s))
  }

  function Answered(c: Client, ack: T.Ack, env: Env): Client {
    var outcome := T.OutcomeOf(c.tracker, ack);
    var c1 := Track(c, T.HandleAck(ack, env.now, env.draw));
    var c2 := if outcome.Rejected? then RejectionRecorded(c1, T.RejectionText(ack))
              else if outcome.Accepted? then c1.(link := c1.link.(helloAckResetArmed := false))
              else c1;
    ArmDeferral(c2, env)
  }

  function Received(c: Client, frame: ServerFrame, env: Env): Client {
    match frame
    case HelloAck(id, ms, messages) => GreetedByRelay(c, id, ms, messages, env)
    case Message(pooled, ackToken) =>
      var c1 := c.(link := c.link.(helloAckResetArmed := false));
      if pooled.Some? then EmitMessage(c1, pooled.value, ackToken, env)
      else Track(c1, T.Queue("", "", Failed, "decode: message frame without a pooled message"))
    case AckFrame(ack) => Answered(c, ack, env)
    case Ping(id) => Send(c, PongReply(id))
    case CloseFrame(reason, detail) => ClosedByRelay(c, reason, detail, env)
    case AuthChallenge => c
    case Pong => c
    case Undecodable => c
  }

  // ----- Events -----

  function Started(c: Client, env: Env): Client {
    var c1 := LoadPersisted(c);
    var c2 := c1.(link := c1.link.(stopped := false, suspended := false, attempts := 0, authRefreshAttempted := false));
    Open(PersistConfiguration(c2), env)
  }

  function StoppedByHost(c: Client): Client {
    var c1 := c.(link := c.link.(stopped := true, sessionEpoch := c.link.sessionEpoch + 1, suspended := false));
    Publish(CloseCurrent(ClearTimers(c1)), Stopped, None, Keep)
  }

  function Suspended(c: Client): Client {
    if c.link.stopped || c.link.suspended then c
    else Publish(Track(CloseCurrent(ClearTimers(c.(link := c.link.(suspended := true)))), T.Closed), Idle, None, Keep)
  }

  function Resumed(c: Client, env: Env): Client {
    if c.link.stopped || !c.link.suspended then c else Open(c.(link := c.link.(suspended := false, attempts := 0)), env)
  }

  /** A new configuration also revives a stopped or suspended client. */
  function Revived(c: Client, configuration: Configuration): Client {
    var c1 := PersistConfiguration(c.(link := c.link.(configuration := Some(configuration))));
    c1.(link := c1.link.(sessionEpoch := c1.link.sessionEpoch + 1, stopped := false, suspended := false, attempts := 0))
  }

  function Reconfigured(c: Client, configuration: Configuration, env: Env): Client {
    Open(CloseCurrent(ClearTimers(Revived(c, configuration))), env)
  }

  function Reported(c: Client, messageId: string, status: DeliveryStatus, env: Env): Client {
    FlushReports(Track(c, T.Queue(messageId, SinchIdFor(c, messageId), status, "")), T.All, env)
  }

  function Posted(c: Client, event: MessageEvent, env: Env): Client {
    var alerting := c.mail.lastAlertAtMs.None? || env.now - c.mail.lastAlertAtMs.value >= ALERT_WINDOW_MS;
    Emit(if alerting then c.(mail := c.mail.(lastAlertAtMs := Some(env.now))) else c, PostNotification(event, alerting))
  }

  function LookedUp(c: Client, event: MessageEvent, epoch: nat, delivered: bool, env: Env): Client {
    if c.link.stopped || epoch != c.link.sessionEpoch then c
    else if delivered then MarkShown(c, event.id)
    else Posted(c, event, env)
  }

  function PostDone(c: Client, event: MessageEvent, accepted: bool, env: Env): Client {
    if !accepted then c
    else
      var c1 := MarkShown(c, event.id);
      FlushReports(Track(c1, T.Queue(event.id, event.sinchMessageId, Displayed, "")), T.All, env)
  }

  /** A poll tick also retries the forward failures, and only those. */
  function PollTick(c: Client, env: Env): Client {
    StartPolling(FlushReports(SendPoll(c), T.ForwardFailureRetryOnly, env), env)
  }

  function DeferralTick(c: Client, env: Env): Client {
    ArmDeferral(FlushReports(c, T.DeferredOnly, env), env)
  }

  /** Events that can only change timers of the link, or nothing in it. */
  predicate IsQuietEvent(e: Event) {
    || e.Report? || e.ClearPendingMessages? || e.SetHandlerRegistered? || e.PushMarked?
    || e.LookupAnswered? || e.PostCompleted? || e.PollFired? || e.DeferralFired?
  }

  function QuietStep(c: Client, e: Event, env: Env): Client
    requires IsQuietEvent(e)
  {
    match e
    case Report(m, s) => Reported(c, m, s, env)
    case ClearPendingMessages => SaveMessages(c, [])
    case SetHandlerRegistered(b) => c.(mail := c.mail.(handlerRegistered := b))
    case PushMarked(id) => c.(seen := R.Marked(c.seen, id))
    case LookupAnswered(event, epoch, delivered) => LookedUp(c, event, epoch, delivered, env)
    case PostCompleted(event, accepted) => PostDone(c, event, accepted, env)
    case PollFired => PollTick(c, env)
    case DeferralFired => DeferralTick(c, env)
  }

  /** Calls that start or end the connection from the host's side. */
  predicate IsHostEvent(e: Event) {
    e.Start? || e.Stop? || e.Suspend? || e.Resume? || e.UpdateConfiguration?
  }

  function HostStep(c: Client, e: Event, env: Env): Client
    requires IsHostEvent(e)
  {
    match e
    case Start => Started(c, env)
    case Stop => StoppedByHost(c)
    case Suspend => Suspended(c)
    case Resume => Resumed(c, env)
    case UpdateConfiguration(cfg) => Reconfigured(c, cfg, env)
  }

  /** A callback of a socket that is not the current one does nothing. */
  function InboundStep(c: Client, socket: nat, frame: ServerFrame, env: Env): Client {
    if socket == c.link.generation then Received(c, frame, env) else c
  }

  function Step(c: Client, e: Event, env: Env): Client {
    if IsQuietEvent(e) then QuietStep(c, e, env)
    else if IsHostEvent(e) then HostStep(c, e, env)
    else
      match e
      case SocketOpened(g) => if g == c.link.generation then SendHello(c) else c
      case Inbound(g, frame) => InboundStep(c, g, frame, env)
      case TransportClosed(g, code) =>
        if g == c.link.generation then Disconnected(c, SocketClosed(code), false, env) else c
      case ReconnectFired => Open(c, env)
  }

  /** What the environment can deliver: callbacks of sockets that still have them, and armed timers. */
  predicate Enabled(c: Client, e: Event, env: Env) {
    match e
    case SocketOpened(g) => g in c.link.callbacks
    case Inbound(g, _) => g in c.link.callbacks
    case TransportClosed(g, _) => g in c.link.callbacks
    case PollFired => c.link.pollTask.Some? && c.link.pollTask.value <= env.now
    case ReconnectFired => c.link.reconnectTask.Some? && c.link.reconnectTask.value <= env.now
    case DeferralFired => c.link.deferralTask.Some? && c.link.deferralTask.value <= env.now
    case _ => true
  }
}

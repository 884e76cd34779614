/** The foreground delivery-channel client (ios/SinchPushSocket/SocketClient.swift). */
module SocketClients {
  import opened Common
  import opened SocketTypes
  import S = ClientSpec
  import T = TrackerSpec
  import R = SeenRegistries
  import Trackers = ReportTrackers
  import Backoff

  /**
   One method per event, each proved to do what `ClientSpec.Step` says. The client's fields are kept in
   two records: `link`, whether and how it is connected, and `mail`, what it keeps about messages. A
   socket is named by its generation; scheduling a timer stores the millisecond it is due at, and the
   environment calls the matching `...Fired` method. Everything sent, closed, published or asked of the
   host is appended to `out`.
   */
  class SocketClient {
    const store: StateStore
    const tracker: Trackers.ReportTracker
    const seen: R.SeenMessageRegistry

    var link: S.Link
    var mail: S.Mail
    var out: seq<S.Output>
    /** The calls made on the tracker so far. */
    ghost var trace: seq<T.Op>

    ghost predicate Valid()
      reads this, tracker, tracker.sentKeys, seen, seen.seen, store
    {
      && tracker.Valid() && seen.Valid()
      && tracker.store == store && seen.store == store
      && tracker.sentKeys != seen.seen
      // The outbox is on disk at all times, not only after a disconnect.
      && tracker.OutboxPersisted()
    }

    ghost function DiskView(): S.Disk
      reads store
    {
      S.Disk(store.lastSeenMessageId, store.lastSeenEnqueuedAtMs, store.pendingMessages, store.configuration,
          store.authToken)
    }

    /** The client's state as a value. */
    ghost function View(): S.Client
      reads this, tracker, tracker.sentKeys, seen, seen.seen, seen.store, store
    {
      S.Client(link, mail, seen.View(), DiskView(), tracker.View(), trace, out)
    }

    constructor (configuration: Option<Configuration>, store: StateStore, tracker: Trackers.ReportTracker,
        seen: R.SeenMessageRegistry)
      requires tracker.Valid() && tracker.store == store && tracker.OutboxPersisted()
      requires seen.Valid() && seen.store == store && tracker.sentKeys != seen.seen
      ensures Valid()
      ensures this.store == store && this.tracker == tracker && this.seen == seen
      ensures View() == S.Client(S.InitialLink(configuration), S.INITIAL_MAIL, seen.View(), DiskView(), tracker.View(),
          [], [])
    {
      this.store, this.tracker, this.seen := store, tracker, seen;
      link := S.InitialLink(configuration);
      mail := S.INITIAL_MAIL;
      out, trace := [], [];
    }

    // ----- Lifecycle -----

    method Start(env: S.Env)
      requires Valid()
      modifies this, tracker, tracker.sentKeys, seen, seen.seen, store
      ensures Valid() && View() == old(S.Step(View(), S.Start, env))
    {
      LoadPersistedStateIfNeeded();
      link := link.(stopped := false, suspended := false, attempts := 0, authRefreshAttempted := false);
      PersistConfiguration();
      Open(env);
    }

    method Stop(env: S.Env)
      requires Valid()
      modifies this, tracker, tracker.sentKeys, seen, seen.seen, store
      ensures Valid() && View() == old(S.Step(View(), S.Stop, env))
    {
      link := link.(stopped := true, sessionEpoch := link.sessionEpoch + 1, suspended := false);
      DropSocket();
      Publish(S.Stopped, None, S.Keep);
    }

    method Suspend(env: S.Env)
      requires Valid()
      modifies this, tracker, tracker.sentKeys, seen, seen.seen, store
      ensures Valid() && View() == old(S.Step(View(), S.Suspend, env))
    {
      if link.stopped || link.suspended {
        return;
      }
      link := link.(suspended := true);
      DropConnection();
      Publish(S.Idle, None, S.Keep);
    }

    method Resume(env: S.Env)
      requires Valid()
      modifies this, tracker, tracker.sentKeys, seen, seen.seen, store
      ensures Valid() && View() == old(S.Step(View(), S.Resume, env))
    {
      if link.stopped || !link.suspended {
        return;
      }
      link := link.(suspended := false, attempts := 0);
      Open(env);
    }

    method UpdateConfiguration(configuration: Configuration, env: S.Env)
      requires Valid()
      modifies this, tracker, tracker.sentKeys, seen, seen.seen, store
      ensures Valid() && View() == old(S.Step(View(), S.UpdateConfiguration(configuration), env))
    {
      Revive(configuration);
      DropSocket();
      Open(env);
    }

    method Revive(configuration: Configuration)
      requires Valid()
      modifies this`link, store`configuration, store`authToken
      ensures Valid() && View() == old(S.Revived(View(), configuration))
    {
      link := link.(configuration := Some(configuration));
      PersistConfiguration();
      link := link.(sessionEpoch := link.sessionEpoch + 1, stopped := false, suspended := false, attempts := 0);
    }

    // ----- Host entry points -----

    method Report(messageId: string, status: DeliveryStatus, env: S.Env)
      requires Valid()
      modifies this, tracker, tracker.sentKeys, seen, seen.seen, store
      ensures Valid() && View() == old(S.Step(View(), S.Report(messageId, status), env))
    {
      QueueReport(messageId, SinchMessageId(messageId), status);
      FlushIfConnected(T.All, env);
    }

    method ClearPendingMessages(env: S.Env)
      requires Valid()
      modifies this`mail, store`pendingMessages
      ensures Valid() && View() == old(S.Step(View(), S.ClearPendingMessages, env))
    {
      mail := mail.(pendingMessages := []);
      store.pendingMessages := [];
    }

    method SetHandlerRegistered(registered: bool, env: S.Env)
      requires Valid()
      modifies this`mail
      ensures Valid() && View() == old(S.Step(View(), S.SetHandlerRegistered(registered), env))
    {
      mail := mail.(handlerRegistered := registered);
    }

    // ----- Connection -----

    method Open(env: S.Env)
      requires Valid()
      modifies this, tracker`inFlight
      ensures Valid() && View() == old(S.Open(View(), env))
    {
      LoadPersistedStateIfNeeded();
      if link.stopped || link.suspended || link.configuration.None? {
        return;
      }
      Dial(env);
    }

    method Dial(env: S.Env)
      requires Valid() && link.configuration.Some?
      modifies this`link, this`out, this`trace, tracker`inFlight
      ensures Valid() && View() == old(S.Dial(View(), env))
    {
      Publish(if link.attempts == 0 then S.Connecting else S.Reconnecting, None, S.Clear);
      CancelReconnect();
      var saved := link.configuration.value.saved;
      if !saved.urlParses {
        HandleDisconnect(S.InvalidUrl(saved.url), false, env);
        return;
      }
      var socket := link.generation + 1;
      link := link.(generation := socket, transport := Some(socket), callbacks := link.callbacks + {socket});
      out := out + [S.Connect(socket)];
    }

    method ReconnectFired(env: S.Env)
      requires Valid()
      modifies this, tracker, tracker.sentKeys, seen, seen.seen, store
      ensures Valid() && View() == old(S.Step(View(), S.ReconnectFired, env))
    {
      Open(env);
    }

    method HandleOpen(socket: nat, env: S.Env)
      requires Valid()
      modifies this`out
      ensures Valid() && View() == old(S.Step(View(), S.SocketOpened(socket), env))
    {
      if socket != link.generation {
        return;
      }
      SendHello();
    }

    method SendHello()
      requires Valid()
      modifies this`out
      ensures Valid() && View() == old(S.SendHello(View()))
    {
      if link.configuration.None? {
        return;
      }
      Send(S.Hello(mail.lastSeenMessageId, link.configuration.value.authToken));
    }

    method HandleBinary(socket: nat, frame: S.ServerFrame, env: S.Env)
      requires Valid()
      modifies this, tracker, tracker.sentKeys, seen, seen.seen, store
      ensures Valid() && View() == old(S.Step(View(), S.Inbound(socket, frame), env))
    {
      if socket != link.generation {
        return;
      }
      Handle(frame, env);
    }

    method Handle(frame: S.ServerFrame, env: S.Env)
      requires Valid()
      modifies this, tracker, tracker.sentKeys, seen, seen.seen, store
      ensures Valid() && View() == old(S.Received(View(), frame, env))
    {
      match frame
      case HelloAck(id, ms, messages) => HandleHelloAck(id, ms, messages, env);
      case Message(pooled, ackToken) => HandleMessage(pooled, ackToken, env);
      case AckFrame(ack) => HandleAck(ack, env);
      case Ping(id) => Send(S.PongReply(id));
      case CloseFrame(reason, detail) => HandleClose(reason, detail, env);
      case AuthChallenge =>
      case Pong =>
      case Undecodable =>
    }

    method HandleMessage(pooled: Option<PooledMessage>, ackToken: string, env: S.Env)
      requires Valid()
      modifies this, tracker, tracker.sentKeys, seen, seen.seen, store
      ensures Valid() && View() == old(S.Received(View(), S.Message(pooled, ackToken), env))
    {
      NoteSessionWork();
      if pooled.Some? {
        EmitMessage(pooled.value, ackToken, env);
      } else {
        // There is no id to name in a report; the tracker refuses it.
        var _ := tracker.QueueFailure("", "", "message frame without a pooled message");
        trace := trace + [T.Queue("", "", Failed, "decode: message frame without a pooled message")];
      }
    }

    method HandleTransportClose(socket: nat, code: int, env: S.Env)
      requires Valid()
      modifies this, tracker, tracker.sentKeys, seen, seen.seen, store
      ensures Valid() && View() == old(S.Step(View(), S.TransportClosed(socket, code), env))
    {
      if socket != link.generation {
        return;
      }
      HandleDisconnect(S.SocketClosed(code), false, env);
    }

    method HandleHelloAck(connectionId: string, serverPollMs: int, messages: seq<PooledMessage>, env: S.Env)
      requires Valid()
      modifies this, tracker, tracker.sentKeys, seen, seen.seen, store
      ensures Valid() && View() == old(S.GreetedByRelay(View(), connectionId, serverPollMs, messages, env))
    {
      NoteHelloAck(serverPollMs);
      Publish(S.Connected, Some(connectionId), S.Clear);
      EmitAll(messages, env);
      StartPolling(env);
      SendPoll();
      FlushReports(T.All, env);
      ArmDeferralTimer(env);
    }

    method NoteHelloAck(serverPollMs: int)
      requires Valid()
      modifies this`link
      ensures Valid() && View() == old(S.HelloAckNoted(View(), serverPollMs))
    {
      link := link.(attemptsBeforeHelloAck := link.attempts, attempts := 0, helloAckResetArmed := true);
      link := link.(pollIntervalMs := ResolvedPollIntervalMs(serverPollMs));
    }

    /** Config over server over default, then raised to the floor. */
    function ResolvedPollIntervalMs(serverMs: int): int
      reads this
    {
      var requested :=
        if link.configuration.Some? && link.configuration.value.saved.pollIntervalMs > 0
        then link.configuration.value.saved.pollIntervalMs
        else if serverMs > 0 then serverMs else S.DEFAULT_POLL_MS;
      Max(S.MIN_POLL_MS, requested)
    }

    method HandleAck(ack: T.Ack, env: S.Env)
      requires Valid()
      modifies this, tracker, tracker.sentKeys, seen, seen.seen, store
      ensures Valid() && View() == old(S.Answered(View(), ack, env))
    {
      var outcome := tracker.Handle(ack, env.now, env.draw);
      trace := trace + [T.HandleAck(ack, env.now, env.draw)];
      if outcome.Rejected? {
        RecordAckRejection(T.RejectionText(ack));
      }
      if outcome == T.Accepted {
        NoteSessionWork();
      }
      ArmDeferralTimer(env);
    }

    /** The session backed up its handshake: the reset is spent. */
    method NoteSessionWork()
      modifies this`link
      ensures link == old(link).(helloAckResetArmed := false)
    {
      link := link.(helloAckResetArmed := false);
    }

    method RecordAckRejection(error: string)
      requires Valid()
      modifies this`link, this`out
      ensures Valid() && View() == old(S.RejectionRecorded(View(), error))
    {
      link := link.(state := link.state.(lastError := Some(S.Detail(error))));
      out := out + [S.OnState(link.state)];
    }

    // ----- Messages -----

    method EmitAll(messages: seq<PooledMessage>, env: S.Env)
      requires Valid()
      modifies this, tracker, tracker.sentKeys, seen, seen.seen, store
      ensures Valid() && View() == old(S.EmitAll(View(), messages, env))
    {
      for i := 0 to |messages|
        invariant Valid() && View() == old(S.EmitAll(View(), messages[..i], env))
      {
        assert messages[..i + 1][..i] == messages[..i];
        EmitMessage(messages[i], "", env);
      }
      assert messages[..|messages|] == messages;
    }

    method EmitMessage(pooled: PooledMessage, ackToken: string, env: S.Env)
      requires Valid()
      modifies this, tracker, tracker.sentKeys, seen, seen.seen, store
      ensures Valid() && View() == old(S.EmitMessage(View(), pooled, ackToken, env))
    {
      var messageId := pooled.messageId;
      if messageId == "" {
        return;
      }
      var isNew := seen.MarkSeen(messageId);
      AdvanceLastSeen(messageId, pooled.enqueuedAtMs, !isNew);
      QueueReport(messageId, pooled.sinchMessageId, Delivered);
      FlushIfConnected(T.All, env);
      if !isNew {
        return;
      }
      Present(MessageEvent(messageId, pooled.sinchMessageId, ackToken, pooled.enqueuedAtMs, env.now, false));
    }

    method Present(event: MessageEvent)
      requires Valid()
      modifies this`mail, this`out, store`pendingMessages
      ensures Valid() && View() == old(S.Present(View(), event))
    {
      var messages := mail.pendingMessages + [event];
      if |messages| > S.PENDING_MESSAGE_CAPACITY {
        messages := messages[1..];
      }
      mail := mail.(pendingMessages := messages);
      store.pendingMessages := messages;
      out := out + [S.OnMessage(event)];
      if ShouldDisplayNotification() {
        out := out + [S.LookUpDelivered(event, link.sessionEpoch)];
      }
    }

    predicate ShouldDisplayNotification()
      reads this
    {
      var rule := if link.configuration.Some? then link.configuration.value.saved.display else WhenUnhandled;
      rule == Always || (rule == WhenUnhandled && !mail.handlerRegistered)
    }

    /** The system answered whether it already shows the message. */
    method LookupAnswered(event: MessageEvent, epoch: nat, delivered: bool, env: S.Env)
      requires Valid()
      modifies this`mail, this`out, store`pendingMessages
      ensures Valid() && View() == old(S.Step(View(), S.LookupAnswered(event, epoch, delivered), env))
    {
      if link.stopped || epoch != link.sessionEpoch {
        return;
      }
      if delivered {
        MarkShown(event.id);
      } else {
        Post(event, env);
      }
    }

    method Post(event: MessageEvent, env: S.Env)
      requires Valid()
      modifies this`mail, this`out
      ensures Valid() && View() == old(S.Posted(View(), event, env))
    {
      var alerting := TakeAlertSlot(env.now);
      out := out + [S.PostNotification(event, alerting)];
    }

    /** At most one alerting notification per window; the slot is taken when the post is attempted. */
    method TakeAlertSlot(now: int) returns (alerting: bool)
      modifies this`mail
      ensures alerting <==> old(mail).lastAlertAtMs.None? || now - old(mail).lastAlertAtMs.value >= S.ALERT_WINDOW_MS
      ensures mail == if alerting then old(mail).(lastAlertAtMs := Some(now)) else old(mail)
    {
      if mail.lastAlertAtMs.Some? && now - mail.lastAlertAtMs.value < S.ALERT_WINDOW_MS {
        return false;
      }
      mail := mail.(lastAlertAtMs := Some(now));
      alerting := true;
    }

    method PostCompleted(event: MessageEvent, accepted: bool, env: S.Env)
      requires Valid()
      modifies this, tracker, tracker.sentKeys, seen, seen.seen, store
      ensures Valid() && View() == old(S.Step(View(), S.PostCompleted(event, accepted), env))
    {
      if !accepted {
        return;
      }
      MarkShown(event.id);
      QueueReport(event.id, event.sinchMessageId, Displayed);
      FlushIfConnected(T.All, env);
    }

    method AdvanceLastSeen(messageId: string, enqueuedAtMs: int, onHit: bool)
      requires Valid()
      modifies this`mail, store`lastSeenMessageId, store`lastSeenEnqueuedAtMs
      ensures Valid() && View() == old(S.AdvanceLastSeen(View(), messageId, enqueuedAtMs, onHit))
    {
      var stored := mail.lastSeenEnqueuedAtMs;
      if onHit && !(enqueuedAtMs > 0 && (stored == 0 || enqueuedAtMs > stored)) {
        return;
      }
      var known := enqueuedAtMs > 0 && stored > 0;
      if known && enqueuedAtMs < stored {
        return;
      }
      mail := mail.(lastSeenMessageId := messageId, lastSeenEnqueuedAtMs := Max(enqueuedAtMs, 0));
      store.lastSeenMessageId := mail.lastSeenMessageId;
      store.lastSeenEnqueuedAtMs := mail.lastSeenEnqueuedAtMs;
    }

    method MarkShown(messageId: string)
      requires Valid()
      modifies this`mail, store`pendingMessages
      ensures Valid() && View() == old(S.MarkShown(View(), messageId))
    {
      var index := S.FirstWithId(mail.pendingMessages, messageId);
      if index < |mail.pendingMessages| {
        var messages := mail.pendingMessages[index := mail.pendingMessages[index].(shown := true)];
        mail := mail.(pendingMessages := messages);
        store.pendingMessages := messages;
      }
    }

    function SinchMessageId(messageId: string): string
      reads this, tracker
    {
      var index := S.FirstWithId(mail.pendingMessages, messageId);
      if index < |mail.pendingMessages| then mail.pendingMessages[index].sinchMessageId
      else if tracker.SinchMessageId(messageId).Some? then tracker.SinchMessageId(messageId).value
      else ""
    }

    // ----- Sending -----

    method QueueReport(messageId: string, sinchMessageId: string, status: DeliveryStatus)
      requires Valid()
      modifies this`trace, tracker`pending, store`outbox
      ensures Valid() && View() == old(S.Track(View(), T.Queue(messageId, sinchMessageId, status, "")))
    {
      var _ := tracker.Queue(messageId, sinchMessageId, status, "");
      trace := trace + [T.Queue(messageId, sinchMessageId, status, "")];
    }

    method DropSocket()
      requires Valid()
      modifies this`link, this`out
      ensures Valid() && View() == old(S.CloseCurrent(S.ClearTimers(View())))
    {
      ClearTimers();
      CloseSocket();
    }

    method DropConnection()
      requires Valid()
      modifies this`link, this`out, this`trace, tracker`inFlight
      ensures Valid() && View() == old(S.Track(S.CloseCurrent(S.ClearTimers(View())), T.Closed))
    {
      DropSocket();
      NoteConnectionClosed();
    }

    method NoteConnectionClosed()
      requires Valid()
      modifies this`trace, tracker`inFlight
      ensures Valid() && View() == old(S.Track(View(), T.Closed))
    {
      tracker.ConnectionClosed();
      trace := trace + [T.Closed];
    }

    method StartPolling(env: S.Env)
      requires Valid()
      modifies this`link
      ensures Valid() && View() == old(S.StartPolling(View(), env))
    {
      CancelPoll();
      link := link.(pollTask := Some(env.now + link.pollIntervalMs));
    }

    method PollFired(env: S.Env)
      requires Valid()
      modifies this, tracker, tracker.sentKeys, seen, seen.seen, store
      ensures Valid() && View() == old(S.Step(View(), S.PollFired, env))
    {
      SendPoll();
      FlushReports(T.ForwardFailureRetryOnly, env);
      StartPolling(env);
    }

    method SendPoll()
      requires Valid()
      modifies this`out
      ensures Valid() && View() == old(S.SendPoll(View()))
    {
      if link.state.status != S.Connected {
        return;
      }
      Send(S.Poll);
    }

    method FlushIfConnected(mode: T.FlushMode, env: S.Env)
      requires Valid()
      modifies this`out, this`trace, tracker`inFlight
      ensures Valid() && View() == old(S.FlushReports(View(), mode, env))
    {
      if link.state.status != S.Connected {
        return;
      }
      FlushReports(mode, env);
    }

    method FlushReports(mode: T.FlushMode, env: S.Env)
      requires Valid()
      modifies this`out, this`trace, tracker`inFlight
      ensures Valid() && View() == old(S.FlushReports(View(), mode, env))
    {
      if link.state.status != S.Connected || link.transport.None? {
        return;
      }
      var reports := tracker.ReportsToSend(env.now, mode);
      trace := trace + [T.Flush(env.now, mode)];
      if reports == [] {
        assert tracker.inFlight + T.Keys(reports) == tracker.inFlight;
        assert out + S.ReportFrames(link.transport.value, reports, env.now) == out;
        return;
      }
      tracker.MarkSent(reports);
      SendReports(link.transport.value, reports, env.now);
    }

    method SendReports(socket: nat, reports: seq<PendingReport>, now: int)
      requires Valid() && link.transport == Some(socket)
      modifies this`out
      ensures Valid() && out == old(out) + S.ReportFrames(socket, reports, now)
    {
      for i := 0 to |reports|
        invariant out == old(out) + S.ReportFrames(socket, reports[..i], now)
      {
        assert reports[..i + 1][..i] == reports[..i];
        Send(S.DeliveryReport(reports[i], now));
      }
      assert reports[..|reports|] == reports;
    }

    method ArmDeferralTimer(env: S.Env)
      requires Valid()
      modifies this`link
      ensures Valid() && View() == old(S.ArmDeferral(View(), env))
    {
      CancelDeferral();
      var deadline := tracker.NextDeferral(env.now);
      if deadline.None? {
        return;
      }
      link := link.(deferralTask := Some(env.now + Max(0, deadline.value - env.now)));
    }

    method DeferralFired(env: S.Env)
      requires Valid()
      modifies this, tracker, tracker.sentKeys, seen, seen.seen, store
      ensures Valid() && View() == old(S.Step(View(), S.DeferralFired, env))
    {
      FlushReports(T.DeferredOnly, env);
      ArmDeferralTimer(env);
    }

    method Send(frame: S.ClientFrame)
      modifies this`out
      ensures out == if link.transport.None? then old(out) else old(out) + [S.Frame(link.transport.value, frame)]
    {
      if link.transport.None? {
        return;
      }
      out := out + [S.Frame(link.transport.value, frame)];
    }

    // ----- Close handling -----

    method HandleClose(reason: S.CloseReason, detail: Option<string>, env: S.Env)
      requires Valid()
      modifies this, tracker`inFlight
      ensures Valid() && View() == old(S.ClosedByRelay(View(), reason, detail, env))
    {
      match reason
      case Stale => HandleStale(env);
      case Unauthorized =>
        StopTerminally(S.AuthRequired, Some(S.ReasonText(reason, detail)));
        AskForCredential();
      case BgResumed =>
        StopTerminally(S.Replaced, if detail.Some? then Some(S.Detail(detail.value)) else None);
      case PoolFull => HandleDisconnect(S.ReasonText(reason, detail), true, env);
      case OtherReason(_) => HandleDisconnect(S.ReasonText(reason, detail), false, env);
    }

    /** Once per start. */
    method AskForCredential()
      modifies this`link, this`out
      ensures link == old(link).(authRefreshAttempted := true)
      ensures out == if old(link).authRefreshAttempted then old(out) else old(out) + [S.OnAuthRequired]
    {
      if !link.authRefreshAttempted {
        link := link.(authRefreshAttempted := true);
        out := out + [S.OnAuthRequired];
      }
    }

    method HandleStale(env: S.Env)
      requires Valid()
      modifies this, tracker`inFlight
      ensures Valid() && View() == old(S.StaleClosed(View(), env))
    {
      DropSocket();
      if link.stopped || link.suspended {
        return;
      }
      link := link.(attempts := 0);
      Open(env);
    }

    method HandleDisconnect(reason: S.ErrorText, shed: bool, env: S.Env)
      requires Valid()
      modifies this`link, this`out, this`trace, tracker`inFlight
      ensures Valid() && View() == old(S.Disconnected(View(), reason, shed, env))
    {
      DropConnection();
      if link.stopped || link.suspended {
        return;
      }
      SpendAttempt(shed);
      Publish(S.Reconnecting, None, S.Set(Some(reason)));
      ScheduleReconnect(env);
    }

    method ScheduleReconnect(env: S.Env)
      requires Valid()
      modifies this`link
      ensures Valid()
      ensures link == old(link).(reconnectTask := Some(env.now + Backoff.DelayMs(old(link.attempts), env.draw)))
    {
      var delay := Backoff.DelayMs(link.attempts, env.draw);
      CancelReconnect();
      link := link.(reconnectTask := Some(env.now + delay));
    }

    method SpendAttempt(shed: bool)
      requires Valid()
      modifies this`link
      ensures Valid() && View() == old(S.Budgeted(View(), shed))
    {
      if shed && link.helloAckResetArmed {
        link := link.(helloAckResetArmed := false, attempts := link.attemptsBeforeHelloAck);
      }
      link := link.(attempts := link.attempts + 1);
    }

    method StopTerminally(status: S.Status, lastError: Option<S.ErrorText>)
      requires Valid()
      modifies this`link, this`out, this`trace, tracker`inFlight
      ensures Valid() && View() == old(S.StopTerminally(View(), status, lastError))
    {
      MarkStopped();
      DropConnection();
      Publish(status, None, S.Set(lastError));
    }

    method MarkStopped()
      requires Valid()
      modifies this`link
      ensures Valid()
      ensures View() == old(View().(link := View().link.(stopped := true,
          sessionEpoch := View().link.sessionEpoch + 1)))
    {
      link := link.(stopped := true, sessionEpoch := link.sessionEpoch + 1);
    }

    method ClearTimers()
      requires Valid()
      modifies this`link
      ensures Valid() && View() == old(S.ClearTimers(View()))
    {
      CancelPoll();
      CancelReconnect();
      CancelDeferral();
    }

    method CancelPoll()
      modifies this`link
      ensures link == old(link).(pollTask := None)
    {
      link := link.(pollTask := None);
    }

    method CancelReconnect()
      modifies this`link
      ensures link == old(link).(reconnectTask := None)
    {
      link := link.(reconnectTask := None);
    }

    method CancelDeferral()
      modifies this`link
      ensures link == old(link).(deferralTask := None)
    {
      link := link.(deferralTask := None);
    }

    /** The callbacks go before the close, so that a closed socket has nowhere to land. */
    method CloseSocket()
      requires Valid()
      modifies this`link, this`out
      ensures Valid() && View() == old(S.CloseCurrent(View()))
    {
      if link.transport.None? {
        return;
      }
      var socket := link.transport.value;
      link := link.(transport := None, callbacks := link.callbacks - {socket});
      out := out + [S.CloseSocket(socket)];
    }

    // ----- State publication and persistence -----

    method Publish(status: S.Status, connectionId: Option<string>, lastError: S.LastErrorUpdate)
      requires Valid()
      modifies this`link, this`out
      ensures Valid() && View() == old(S.Publish(View(), status, connectionId, lastError))
    {
      var state := link.state.(status := status, reconnectAttempts := link.attempts,
          pollIntervalMs := link.pollIntervalMs);
      if connectionId.Some? {
        state := state.(connectionId := connectionId.value);
      }
      match lastError {
        case Keep =>
        case Clear => state := state.(lastError := None);
        case Set(value) => state := state.(lastError := value);
      }
      link := link.(state := state);
      out := out + [S.OnState(state)];
    }

    method LoadPersistedStateIfNeeded()
      requires Valid()
      modifies this`link, this`mail
      ensures Valid() && View() == old(S.LoadPersisted(View()))
    {
      if link.didLoad {
        return;
      }
      link := link.(didLoad := true);
      mail := mail.(
        lastSeenMessageId := store.lastSeenMessageId,
        lastSeenEnqueuedAtMs := store.lastSeenEnqueuedAtMs,
        pendingMessages := store.pendingMessages);
      if link.configuration.None? && store.configuration.Some? && store.authToken.Some? {
        link := link.(configuration := Some(Configuration(store.configuration.value, store.authToken.value)));
      }
    }

    method PersistConfiguration()
      requires Valid()
      modifies store`configuration, store`authToken
      ensures Valid() && View() == old(S.PersistConfiguration(View()))
    {
      if link.configuration.None? {
        return;
      }
      store.configuration := Some(link.configuration.value.saved);
      store.authToken := Some(link.configuration.value.authToken);
    }
  }
}

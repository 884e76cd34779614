/** What the host sees of the client: its published state, its messages and notifications, and what a restart keeps. */
module ClientEvents {
  import opened Common
  import opened SocketTypes
  import opened ClientSpec
  import opened ClientRuns
  import opened ClientReports
  import Budget = ClientBackoff
  import T = TrackerSpec
  import R = SeenRegistries
  import SeenSets
  import Backoff

  // ----- The published state, event by event -----

  /** A dial: `connecting` on a fresh budget, else `reconnecting`, any earlier error cleared. */
  lemma DialShows(c: Client, env: Env, d: Client)
    requires c.link.configuration.Some? && c.link.configuration.value.saved.urlParses && d == Dial(c, env)
    ensures d.link.state == SocketState(if c.link.attempts == 0 then Connecting else Reconnecting,
                                        c.link.state.connectionId, c.link.pollIntervalMs, c.link.attempts, None)
    ensures d.out == c.out + [OnState(d.link.state), Connect(c.link.generation + 1)]
    ensures d.link.transport == Some(c.link.generation + 1) && d.link.reconnectTask == None
    ensures d.link.attempts == c.link.attempts
  {
  }

  /** A connection that is gone: one attempt more, the reason published, the next attempt after exactly the jitter. */
  lemma LossShows(c: Client, reason: ErrorText, env: Env, d: Client)
    requires !c.link.stopped && !c.link.suspended && c.link.transport.Some? && d == Disconnected(c, reason, false, env)
    ensures d.link.state == SocketState(Reconnecting, c.link.state.connectionId, c.link.pollIntervalMs,
                                        c.link.attempts + 1, Some(reason))
    ensures d.out == c.out + [CloseSocket(c.link.transport.value), OnState(d.link.state)]
    ensures d.link.reconnectTask == Some(env.now + Backoff.DelayMs(c.link.attempts + 1, env.draw))
    ensures d.link.transport == None && d.link.pollTask == None && d.link.deferralTask == None
  {
  }

  /** A url that does not parse is published and retried on the same backoff. */
  lemma BadUrlShows(c: Client, env: Env, d: Client)
    requires !c.link.stopped && !c.link.suspended && c.link.transport.None?
    requires c.link.configuration.Some? && !c.link.configuration.value.saved.urlParses && d == Dial(c, env)
    ensures d.link.state.status == Reconnecting && d.link.state.reconnectAttempts == c.link.attempts + 1
    ensures d.link.state.lastError == Some(InvalidUrl(c.link.configuration.value.saved.url))
    ensures d.link.reconnectTask == Some(env.now + Backoff.DelayMs(c.link.attempts + 1, env.draw))
  {
  }

  /** The text published for a close frame: its detail, or the reason's number. */
  function CloseText(reason: CloseReason, detail: Option<string>): ErrorText {
    if detail.Some? then Detail(detail.value)
    else if reason == Unauthorized then ServerClosed(1)
    else if reason == Stale then ServerClosed(2)
    else if reason == PoolFull then ServerClosed(3)
    else if reason == BgResumed then ServerClosed(5)
    else ServerClosed(reason.raw)
  }

  /** The terminal closes: stopped for good in a new session, the reason published, one refresh asked for a start. */
  lemma TerminalCloseShows(c: Client, reason: CloseReason, detail: Option<string>, env: Env, d: Client)
    requires c.link.transport.Some? && (reason == Unauthorized || reason == BgResumed)
    requires d == ClosedByRelay(c, reason, detail, env)
    ensures d.link.stopped && d.link.sessionEpoch == c.link.sessionEpoch + 1
    ensures d.link.transport == None && d.link.reconnectTask == None && d.link.pollTask == None
    ensures reason == Unauthorized ==>
              && d.link.state.status == AuthRequired && d.link.state.lastError == Some(CloseText(reason, detail))
              && d.link.authRefreshAttempted
    ensures reason == BgResumed ==>
              && d.link.state.status == Replaced
              && d.link.state.lastError == (if detail.Some? then Some(Detail(detail.value)) else None)
    ensures d.out == c.out + [CloseSocket(c.link.transport.value), OnState(d.link.state)]
                     + (if reason == Unauthorized && !c.link.authRefreshAttempted then [OnAuthRequired] else [])
  {
    assert c.out + [CloseSocket(c.link.transport.value), OnState(d.link.state)] + []
        == c.out + [CloseSocket(c.link.transport.value), OnState(d.link.state)];
  }

  /** The other closes retry with the close's text; only STALE redials at once, on a budget of zero. */
  lemma RetryableCloseShows(c: Client, reason: CloseReason, detail: Option<string>, env: Env, d: Client)
    requires c.link.transport.Some? && !c.link.stopped && !c.link.suspended
        && d == ClosedByRelay(c, reason, detail, env)
    requires reason == PoolFull || reason.OtherReason?
    ensures d.link.state.status == Reconnecting && d.link.state.lastError == Some(CloseText(reason, detail))
    ensures d.link.state.reconnectAttempts == d.link.attempts
    ensures d.link.reconnectTask == Some(env.now + Backoff.DelayMs(d.link.attempts, env.draw))
    ensures d.out == c.out + [CloseSocket(c.link.transport.value), OnState(d.link.state)]
  {
  }

  lemma StaleShows(c: Client, detail: Option<string>, env: Env, d: Client)
    requires c.link.transport.Some? && !c.link.stopped && !c.link.suspended && c.link.didLoad
    requires UrlParses(c) && d == ClosedByRelay(c, Stale, detail, env)
    ensures d.link.state == SocketState(Connecting, c.link.state.connectionId, c.link.pollIntervalMs, 0, None)
    ensures d.link.attempts == 0 && d.link.transport == Some(c.link.generation + 1)
    ensures d.out == c.out + [CloseSocket(c.link.transport.value), OnState(d.link.state),
        Connect(c.link.generation + 1)]
  {
    var c1 := CloseCurrent(ClearTimers(c));
    var c2 := c1.(link := c1.link.(attempts := 0));
    DialShows(c2, env, Dial(c2, env));
  }

  /** The poll interval in force: the host's if it set one, else the server's if it named one, at least a second. */
  function Interval(c: Client, serverMs: int): int {
    if c.link.configuration.Some? && c.link.configuration.value.saved.pollIntervalMs > 0
    then Max(1000, c.link.configuration.value.saved.pollIntervalMs)
    else if serverMs > 0 then Max(1000, serverMs) else 5000
  }

  /** A handshake: connected under the relay's id with the budget at zero, polling at the interval in force. */
  lemma GreetingShows(c: Client, id: string, ms: int, messages: seq<PooledMessage>, env: Env, d: Client)
    requires c.link.transport.Some? && d == GreetedByRelay(c, id, ms, messages, env)
    ensures d.link.state == SocketState(Connected, id, Interval(c, ms), 0, None)
    ensures d.link.attempts == 0 && d.link.pollIntervalMs == Interval(c, ms)
    ensures d.link.pollTask == Some(env.now + Interval(c, ms))
  {
    EmitAllKeepsLink(Publish(HelloAckNoted(c, ms), Connected, Some(id), Clear), messages, env);
  }

  /** A poll tick arms the next one a whole interval later. */
  lemma PollTickRearms(c: Client, env: Env)
    ensures Step(c, PollFired, env).link == c.link.(pollTask := Some(env.now + c.link.pollIntervalMs))
  {
    QuietEventKeepsLink(c, PollFired, env);
    TicksKeepLink(c, env);
  }

  /** A refused Ack changes the published error alone, to the relay's word or to the message it was about. */
  lemma RefusalShows(c: Client, ack: T.Ack, env: Env, d: Client)
    requires T.Correlates(c.tracker, ack.token) && !ack.accepted && d == Answered(c, ack, env)
    ensures d.link.state == c.link.state.(lastError := d.link.state.lastError)
    ensures ack.error != "" ==> d.link.state.lastError == Some(Detail(ack.error))
    ensures forall m, rest :: ':' !in m && ack.error == "" && ack.token == m + ":" + rest ==>
              d.link.state.lastError == Some(Detail("ack rejected (" + m + ")"))
    ensures d.out == c.out + [OnState(d.link.state)]
  {
    HeldIsFound(c.tracker.pending, ack.token);
    forall m: string, rest: string | ':' !in m && ack.error == "" && ack.token == m + ":" + rest
      ensures d.link.state.lastError == Some(Detail("ack rejected (" + m + ")"))
    {
      BeforeColonIs(m, rest);
    }
  }

  lemma {:induction false} HeldIsFound(pending: seq<PendingReport>, key: string)
    requires T.Holds(pending, key)
    ensures T.IndexOf(pending, key) < |pending|
  {
    var i :| 0 <= i < |pending| && pending[i].SentKey() == key;
    assert T.IndexOf(pending, key) <= i;
  }

  lemma {:induction false} BeforeColonIs(m: string, rest: string)
    requires ':' !in m
    ensures T.BeforeColon(m + ":" + rest) == m
    decreases |m|
  {
    if m == "" {
      assert (m + ":" + rest)[0] == ':';
    } else {
      assert (m + ":" + rest)[1..] == m[1..] + ":" + rest && (m + ":" + rest)[0] == m[0];
      BeforeColonIs(m[1..], rest);
    }
  }

  /** An accepted or uncorrelated Ack publishes nothing. */
  lemma OtherAcksShowNothing(c: Client, ack: T.Ack, env: Env)
    requires ack.accepted || !T.Correlates(c.tracker, ack.token)
    ensures Answered(c, ack, env).link.state == c.link.state && Answered(c, ack, env).out == c.out
  {
    if T.IndexOf(c.tracker.pending, ack.token) < |c.tracker.pending| {
      assert c.tracker.pending[T.IndexOf(c.tracker.pending, ack.token)].SentKey() == ack.token;
    }
  }

  /** `stop` and `suspend`: the status changes, the last error is kept; `stop` ends the session, `suspend` does not. */
  lemma StopShows(c: Client, env: Env)
    ensures var d := Step(c, Stop, env);
            && d.link.state.status == Stopped && d.link.state.lastError == c.link.state.lastError
            && d.link.stopped && !d.link.suspended && d.link.sessionEpoch == c.link.sessionEpoch + 1
            && d.out[|d.out| - 1] == OnState(d.link.state)
    ensures !c.link.stopped && !c.link.suspended ==>
              var d := Step(c, Suspend, env);
              && d.link.state.status == Idle && d.link.state.lastError == c.link.state.lastError
              && d.link.suspended && !d.link.stopped && d.link.sessionEpoch == c.link.sessionEpoch
              && d.out[|d.out| - 1] == OnState(d.link.state)
  {
  }

  // ----- The last state told is the state -----

  /** The last state the host was told, or the one it began with. */
  function LastTold(out: seq<Output>, first: SocketState): SocketState {
    if out == [] then first
    else if out[|out| - 1].OnState? then out[|out| - 1].state
    else LastTold(out[..|out| - 1], first)
  }

  predicate Told(c: Client, first: SocketState) {
    LastTold(c.out, first) == c.link.state
  }

  lemma EmitTells(c: Client, o: Output, first: SocketState)
    requires if o.OnState? then o.state == c.link.state else Told(c, first)
    ensures Told(Emit(c, o), first)
  {
    assert (c.out + [o])[..|c.out|] == c.out;
  }

  lemma PublishTells(c: Client, status: Status, id: Option<string>, e: LastErrorUpdate, first: SocketState)
    ensures Told(Publish(c, status, id, e), first)
  {
    var d := Publish(c, status, id, e);
    assert d.out[|d.out| - 1] == OnState(d.link.state);
  }

  lemma CloseTells(c: Client, first: SocketState)
    requires Told(c, first)
    ensures Told(CloseCurrent(ClearTimers(c)), first)
  {
    if c.link.transport.Some? {
      EmitTells(c, CloseSocket(c.link.transport.value), first);
    }
  }

  lemma DisconnectedTells(c: Client, reason: ErrorText, shed: bool, env: Env, first: SocketState)
    requires Told(c, first)
    ensures Told(Disconnected(c, reason, shed, env), first)
  {
    CloseTells(c, first);
    var c1 := Track(CloseCurrent(ClearTimers(c)), T.Closed);
    if !c1.link.stopped && !c1.link.suspended {
      PublishTells(Budgeted(c1, shed), Reconnecting, None, Set(Some(reason)), first);
    }
  }

  lemma DialTells(c: Client, env: Env, first: SocketState)
    requires c.link.configuration.Some?
    ensures Told(Dial(c, env), first)
  {
    var status := if c.link.attempts == 0 then Connecting else Reconnecting;
    PublishTells(c, status, None, Clear, first);
    var c1 := Publish(c, status, None, Clear);
    var c2 := c1.(link := c1.link.(reconnectTask := None));
    if c2.link.configuration.value.saved.urlParses {
      EmitTells(c2, Connect(c2.link.generation + 1), first);
    } else {
      DisconnectedTells(c2, InvalidUrl(c2.link.configuration.value.saved.url), false, env, first);
    }
  }

  lemma OpenTells(c: Client, env: Env, first: SocketState)
    requires Told(c, first)
    ensures Told(Open(c, env), first)
  {
    var c1 := LoadPersisted(c);
    if !c1.link.stopped && !c1.link.suspended && c1.link.configuration.Some? {
      DialTells(c1, env, first);
    }
  }

  lemma HostTells(c: Client, e: Event, env: Env, first: SocketState)
    requires Told(c, first) && IsHostEvent(e)
    ensures Told(HostStep(c, e, env), first)
  {
    match e
    case Start =>
      var c1 := LoadPersisted(c);
      var c2 := c1.(link := c1.link.(stopped := false, suspended := false, attempts := 0,
          authRefreshAttempted := false));
      OpenTells(PersistConfiguration(c2), env, first);
    case Stop =>
      var c1 := c.(link := c.link.(stopped := true, sessionEpoch := c.link.sessionEpoch + 1, suspended := false));
      PublishTells(CloseCurrent(ClearTimers(c1)), Stopped, None, Keep, first);
    case Suspend =>
      if !c.link.stopped && !c.link.suspended {
        var c1 := CloseCurrent(ClearTimers(c.(link := c.link.(suspended := true))));
        PublishTells(Track(c1, T.Closed), Idle, None, Keep, first);
      }
    case Resume => OpenTells(c.(link := c.link.(suspended := false, attempts := 0)), env, first);
    case UpdateConfiguration(cfg) =>
      CloseTells(Revived(c, cfg), first);
      OpenTells(CloseCurrent(ClearTimers(Revived(c, cfg))), env, first);
  }

  lemma CloseFrameTells(c: Client, reason: CloseReason, detail: Option<string>, env: Env, first: SocketState)
    requires Told(c, first)
    ensures Told(ClosedByRelay(c, reason, detail, env), first)
  {
    match reason
    case Stale =>
      CloseTells(c, first);
      var c1 := CloseCurrent(ClearTimers(c));
      OpenTells(c1.(link := c1.link.(attempts := 0)), env, first);
    case Unauthorized =>
      TerminalTells(c, AuthRequired, Some(ReasonText(reason, detail)), first);
      var c1 := StopTerminally(c, AuthRequired, Some(ReasonText(reason, detail)));
      EmitTells(c1.(link := c1.link.(authRefreshAttempted := true)), OnAuthRequired, first);
    case BgResumed => TerminalTells(c, Replaced, if detail.Some? then Some(Detail(detail.value)) else None, first);
    case PoolFull => DisconnectedTells(c, ReasonText(reason, detail), true, env, first);
    case OtherReason(_) => DisconnectedTells(c, ReasonText(reason, detail), false, env, first);
  }

  lemma TerminalTells(c: Client, status: Status, lastError: Option<ErrorText>, first: SocketState)
    ensures Told(StopTerminally(c, status, lastError), first)
  {
    var c1 := CloseCurrent(ClearTimers(c.(link := c.link.(stopped := true, sessionEpoch := c.link.sessionEpoch + 1))));
    PublishTells(Track(c1, T.Closed), status, None, Set(lastError), first);
  }

  lemma {:induction false} FramesTell(out: seq<Output>, socket: nat, reports: seq<PendingReport>, now: int,
      s: SocketState)
    ensures LastTold(out + ReportFrames(socket, reports, now), s) == LastTold(out, s)
    decreases |reports|
  {
    if reports == [] {
      assert out + [] == out;
    } else {
      var before := reports[..|reports| - 1];
      var all := out + ReportFrames(socket, reports, now);
      FramesTell(out, socket, before, now, s);
      FramesEnd(out, socket, reports, now);
      assert all[..|all| - 1] == out + ReportFrames(socket, before, now);
    }
  }

  lemma FlushTells(c: Client, mode: T.FlushMode, env: Env, first: SocketState)
    requires Told(c, first)
    ensures Told(FlushReports(c, mode, env), first)
  {
    if c.link.state.status == Connected && c.link.transport.Some? {
      var reports := T.ToSend(c.tracker.pending, c.tracker.inFlight, env.now, mode);
      FramesTell(c.out, c.link.transport.value, reports, env.now, first);
    }
  }

  lemma SendTells(c: Client, frame: ClientFrame, first: SocketState)
    requires Told(c, first)
    ensures Told(Send(c, frame), first)
  {
    if c.link.transport.Some? {
      EmitTells(c, Frame(c.link.transport.value, frame), first);
    }
  }

  lemma PresentTells(c: Client, event: MessageEvent, first: SocketState)
    requires Told(c, first)
    ensures Told(Present(c, event), first)
  {
    EmitTells(c, OnMessage(event), first);
    EmitTells(Emit(c, OnMessage(event)), LookUpDelivered(event, c.link.sessionEpoch), first);
  }

  lemma EmitMessageTells(c: Client, pooled: PooledMessage, ackToken: string, env: Env, first: SocketState)
    requires Told(c, first)
    ensures Told(EmitMessage(c, pooled, ackToken, env), first)
  {
    var id := pooled.messageId;
    if id != "" {
      var isNew := SeenSets.IsNew(R.Current(c.seen), id);
      var c1 := AdvanceLastSeen(c.(seen := R.Marked(c.seen, id)), id, pooled.enqueuedAtMs, !isNew);
      var c2 := Track(c1, T.Queue(id, pooled.sinchMessageId, Delivered, ""));
      assert c2.out == c.out && c2.link == c.link;
      FlushTells(c2, T.All, env, first);
      if isNew {
        PresentTells(FlushReports(c2, T.All, env),
            MessageEvent(id, pooled.sinchMessageId, ackToken, pooled.enqueuedAtMs, env.now, false), first);
      }
    }
  }

  lemma {:induction false} EmitAllTells(c: Client, messages: seq<PooledMessage>, env: Env, first: SocketState)
    requires Told(c, first)
    ensures Told(EmitAll(c, messages, env), first)
    decreases |messages|
  {
    if messages != [] {
      EmitAllTells(c, messages[..|messages| - 1], env, first);
      EmitMessageTells(EmitAll(c, messages[..|messages| - 1], env), messages[|messages| - 1], "", env, first);
    }
  }

  lemma GreetedTells(c: Client, id: string, ms: int, messages: seq<PooledMessage>, env: Env, first: SocketState)
    ensures Told(GreetedByRelay(c, id, ms, messages, env), first)
  {
    var c1 := Publish(HelloAckNoted(c, ms), Connected, Some(id), Clear);
    PublishTells(HelloAckNoted(c, ms), Connected, Some(id), Clear, first);
    EmitAllTells(c1, messages, env, first);
    var c2 := StartPolling(EmitAll(c1, messages, env), env);
    SendTells(c2, Poll, first);
    FlushTells(SendPoll(c2), T.All, env, first);
  }

  lemma FrameTells(c: Client, frame: ServerFrame, env: Env, first: SocketState)
    requires Told(c, first)
    ensures Told(Received(c, frame, env), first)
  {
    match frame
    case HelloAck(id, ms, messages) => GreetedTells(c, id, ms, messages, env, first);
    case Message(pooled, ackToken) =>
      if pooled.Some? {
        EmitMessageTells(c.(link := c.link.(helloAckResetArmed := false)), pooled.value, ackToken, env, first);
      }
    case AckFrame(ack) => AckTells(c, ack, env, first);
    case Ping(id) => SendTells(c, PongReply(id), first);
    case CloseFrame(reason, detail) => CloseFrameTells(c, reason, detail, env, first);
    case _ =>
  }

  lemma AckTells(c: Client, ack: T.Ack, env: Env, first: SocketState)
    requires Told(c, first)
    ensures Told(Answered(c, ack, env), first)
  {
    var s := c.link.state.(lastError := Some(Detail(T.RejectionText(ack))));
    EmitTells(c.(link := c.link.(state := s)), OnState(s), first);
  }

  lemma QuietTells(c: Client, e: Event, env: Env, first: SocketState)
    requires Told(c, first) && IsQuietEvent(e)
    ensures Told(QuietStep(c, e, env), first)
  {
    match e
    case Report(m, s) => FlushTells(Track(c, T.Queue(m, SinchIdFor(c, m), s, "")), T.All, env, first);
    case PostCompleted(event, accepted) =>
      var c1 := MarkShown(c, event.id);
      FlushTells(Track(c1, T.Queue(event.id, event.sinchMessageId, Displayed, "")), T.All, env, first);
    case LookupAnswered(event, epoch, delivered) =>
      var alerting := c.mail.lastAlertAtMs.None? || env.now - c.mail.lastAlertAtMs.value >= ALERT_WINDOW_MS;
      EmitTells(c, PostNotification(event, alerting), first);
    case PollFired =>
      SendTells(c, Poll, first);
      FlushTells(SendPoll(c), T.ForwardFailureRetryOnly, env, first);
    case DeferralFired => FlushTells(c, T.DeferredOnly, env, first);
    case _ =>
  }

  lemma StepTells(c: Client, e: Event, env: Env, first: SocketState)
    requires Told(c, first)
    ensures Told(Step(c, e, env), first)
  {
    if IsQuietEvent(e) {
      QuietTells(c, e, env, first);
    } else if IsHostEvent(e) {
      HostTells(c, e, env, first);
    } else if e.SocketOpened? {
      if c.link.configuration.Some? {
        SendTells(c, Hello(c.mail.lastSeenMessageId, c.link.configuration.value.authToken), first);
      }
    } else if e.Inbound? {
      FrameTells(c, e.frame, env, first);
    } else if e.TransportClosed? {
      DisconnectedTells(c, SocketClosed(e.code), false, env, first);
    } else {
      OpenTells(c, env, first);
    }
  }

  /** Over every run the last state the host was told is the client's state. */
  lemma {:induction false} StateIsTold(c: Client, moments: seq<Moment>)
    requires Initial(c)
    ensures LastTold(Run(c, moments).out, c.link.state) == Run(c, moments).link.state
    decreases |moments|
  {
    if moments != [] {
      var n := |moments| - 1;
      StateIsTold(c, moments[..n]);
      StepTells(Run(c, moments[..n]), moments[n].event, moments[n].env, c.link.state);
    }
  }
}

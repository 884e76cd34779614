/** What the client puts on the wire for its delivery reports, and when it retries them. */
module ClientReports {
  import opened Common
  import opened SocketTypes
  import opened ClientSpec
  import opened ClientRuns
  import T = TrackerSpec
  import TR = TrackerRuns
  import R = SeenRegistries
  import SeenSets

  // ----- The wire follows the tracker -----

  /** The reports of the DeliveryReport frames sent so far, in order. */
  function WireReports(out: seq<Output>): seq<PendingReport> {
    if out == [] then []
    else
      var o := out[|out| - 1];
      WireReports(out[..|out| - 1]) + (if o.Frame? && o.frame.DeliveryReport? then [o.frame.report] else [])
  }

  function KeySeq(reports: seq<PendingReport>): seq<string> {
    seq(|reports|, i requires 0 <= i < |reports| => reports[i].SentKey())
  }

  function WireKeys(out: seq<Output>): seq<string> {
    KeySeq(WireReports(out))
  }

  /** The reports the tracker handed out, in order. */
  function FlushedReports(t: T.Tracker, ops: seq<T.Op>): seq<PendingReport> {
    if ops == [] then []
    else
      var op := ops[|ops| - 1];
      var before := T.Run(t, ops[..|ops| - 1]);
      FlushedReports(t, ops[..|ops| - 1])
      + (if op.Flush? then T.ToSend(before.pending, before.inFlight, op.nowMs, op.mode) else [])
  }

  function FlushedKeys(t: T.Tracker, ops: seq<T.Op>): seq<string> {
    KeySeq(FlushedReports(t, ops))
  }

  /** What a step added to the reports on the wire. */
  function Added(before: Client, after: Client): seq<PendingReport> {
    var n := |WireReports(before.out)|;
    if n <= |WireReports(after.out)| then WireReports(after.out)[n..] else []
  }

  /** The ids of the messages handed to the host so far, in order. */
  function MessageIds(out: seq<Output>): seq<string> {
    if out == [] then []
    else
      var o := out[|out| - 1];
      MessageIds(out[..|out| - 1]) + (if o.OnMessage? then [o.event.id] else [])
  }

  /** The new id a pooled message would be, if any. */
  function NewId(seen: R.Registry, pooled: PooledMessage): seq<string> {
    if SeenSets.IsNew(R.Current(seen), pooled.messageId) then [pooled.messageId] else []
  }

  function SeenAfter(seen: R.Registry, messages: seq<PooledMessage>): R.Registry {
    if messages == [] then seen
    else
      var before := SeenAfter(seen, messages[..|messages| - 1]);
      var id := messages[|messages| - 1].messageId;
      if id == "" then before else R.Marked(before, id)
  }

  function NewIds(seen: R.Registry, messages: seq<PooledMessage>): seq<string> {
    if messages == [] then []
    else
      var before := messages[..|messages| - 1];
      NewIds(seen, before) + NewId(SeenAfter(seen, before), messages[|messages| - 1])
  }

  /** The ids an inbound frame presents to the host. */
  function FrameIds(c: Client, frame: ServerFrame): seq<string> {
    match frame
    case HelloAck(_, _, messages) => NewIds(c.seen, messages)
    case Message(pooled, _) => if pooled.Some? then NewId(c.seen, pooled.value) else []
    case _ => []
  }

  function StepIds(c: Client, e: Event): seq<string> {
    if e.Inbound? && e.from == c.link.generation then FrameIds(c, e.frame) else []
  }

  function RunIds(c: Client, moments: seq<Moment>): seq<string> {
    if moments == [] then []
    else
      var n := |moments| - 1;
      RunIds(c, moments[..n]) + StepIds(Run(c, moments[..n]), moments[n].event)
  }

  /**
   The tracker is the result of the calls made on it, the wire carries exactly what it handed out, and
   `ids` are the messages the host was told about.
   */
  ghost predicate Traced(t0: T.Tracker, ids: seq<string>, c: Client) {
    && c.tracker == T.Run(t0, c.trace)
    && WireReports(c.out) == FlushedReports(t0, c.trace)
    && MessageIds(c.out) == ids
  }

  /** Only the link or the mail differ. */
  predicate SameHistory(c: Client, d: Client) {
    c.tracker == d.tracker && c.trace == d.trace && c.out == d.out
  }

  lemma EmitTraced(t0: T.Tracker, ids: seq<string>, c: Client, o: Output)
    requires Traced(t0, ids, c) && !(o.Frame? && o.frame.DeliveryReport?)
    ensures Traced(t0, if o.OnMessage? then ids + [o.event.id] else ids, Emit(c, o))
  {
    assert (c.out + [o])[..|c.out|] == c.out;
  }

  lemma TrackTraced(t0: T.Tracker, ids: seq<string>, c: Client, op: T.Op)
    requires Traced(t0, ids, c) && !op.Flush?
    ensures Traced(t0, ids, Track(c, op))
  {
    assert (c.trace + [op])[..|c.trace|] == c.trace;
  }

  lemma WireReportsOfReport(out: seq<Output>, socket: nat, report: PendingReport, now: int)
    ensures WireReports(out + [Frame(socket, DeliveryReport(report, now))]) == WireReports(out) + [report]
  {
    var all := out + [Frame(socket, DeliveryReport(report, now))];
    assert all[..|all| - 1] == out;
  }

  lemma FramesEnd(out: seq<Output>, socket: nat, reports: seq<PendingReport>, now: int)
    requires reports != []
    ensures out + ReportFrames(socket, reports, now) ==
            (out + ReportFrames(socket, reports[..|reports| - 1], now))
            + [Frame(socket, DeliveryReport(reports[|reports| - 1], now))]
  {
  }

  lemma {:induction false} FramesCarryReports(out: seq<Output>, socket: nat, reports: seq<PendingReport>, now: int)
    ensures WireReports(out + ReportFrames(socket, reports, now)) == WireReports(out) + reports
    decreases |reports|
  {
    if reports == [] {
      assert out + [] == out;
    } else {
      var before := reports[..|reports| - 1];
      var last := reports[|reports| - 1];
      calc {
        WireReports(out + ReportFrames(socket, reports, now));
        { FramesEnd(out, socket, reports, now); }
        WireReports((out + ReportFrames(socket, before, now)) + [Frame(socket, DeliveryReport(last, now))]);
        { WireReportsOfReport(out + ReportFrames(socket, before, now), socket, last, now); }
        WireReports(out + ReportFrames(socket, before, now)) + [last];
        { FramesCarryReports(out, socket, before, now); }
        WireReports(out) + before + [last];
        { assert reports == before + [last]; }
        WireReports(out) + reports;
      }
    }
  }

  lemma {:induction false} FramesCarryNoMessage(out: seq<Output>, socket: nat, reports: seq<PendingReport>, now: int)
    ensures MessageIds(out + ReportFrames(socket, reports, now)) == MessageIds(out)
    decreases |reports|
  {
    if reports == [] {
      assert out + [] == out;
    } else {
      var before := out + ReportFrames(socket, reports[..|reports| - 1], now);
      FramesCarryNoMessage(out, socket, reports[..|reports| - 1], now);
      FramesEnd(out, socket, reports, now);
      var all := before + [Frame(socket, DeliveryReport(reports[|reports| - 1], now))];
      assert all[..|all| - 1] == before;
    }
  }

  lemma FlushTraced(t0: T.Tracker, ids: seq<string>, c: Client, mode: T.FlushMode, env: Env)
    requires Traced(t0, ids, c)
    ensures Traced(t0, ids, FlushReports(c, mode, env))
  {
    if c.link.state.status == Connected && c.link.transport.Some? {
      var reports := T.ToSend(c.tracker.pending, c.tracker.inFlight, env.now, mode);
      FramesCarryReports(c.out, c.link.transport.value, reports, env.now);
      FramesCarryNoMessage(c.out, c.link.transport.value, reports, env.now);
      var op := T.Flush(env.now, mode);
      assert (c.trace + [op])[..|c.trace|] == c.trace;
    }
  }

  lemma SendTraced(t0: T.Tracker, ids: seq<string>, c: Client, frame: ClientFrame)
    requires Traced(t0, ids, c) && !frame.DeliveryReport?
    ensures Traced(t0, ids, Send(c, frame))
  {
    if c.link.transport.Some? {
      EmitTraced(t0, ids, c, Frame(c.link.transport.value, frame));
    }
  }

  lemma PublishTraced(t0: T.Tracker, ids: seq<string>, c: Client, status: Status, id: Option<string>,
      e: LastErrorUpdate)
    requires Traced(t0, ids, c)
    ensures Traced(t0, ids, Publish(c, status, id, e))
  {
    EmitTraced(t0, ids, c, OnState(Publish(c, status, id, e).link.state));
  }

  lemma CloseTraced(t0: T.Tracker, ids: seq<string>, c: Client)
    requires Traced(t0, ids, c)
    ensures Traced(t0, ids, CloseCurrent(ClearTimers(c)))
  {
    if c.link.transport.Some? {
      EmitTraced(t0, ids, c, CloseSocket(c.link.transport.value));
    }
  }

  lemma DisconnectedTraced(t0: T.Tracker, ids: seq<string>, c: Client, reason: ErrorText, shed: bool, env: Env)
    requires Traced(t0, ids, c)
    ensures Traced(t0, ids, Disconnected(c, reason, shed, env))
  {
    CloseTraced(t0, ids, c);
    var c1 := Track(CloseCurrent(ClearTimers(c)), T.Closed);
    TrackTraced(t0, ids, CloseCurrent(ClearTimers(c)), T.Closed);
    if !c1.link.stopped && !c1.link.suspended {
      var d := Disconnected(c, reason, shed, env);
      EmitTraced(t0, ids, c1, OnState(d.link.state));
      assert d.out == c1.out + [OnState(d.link.state)];
    }
  }

  lemma DialTraced(t0: T.Tracker, ids: seq<string>, c: Client, env: Env)
    requires Traced(t0, ids, c) && c.link.configuration.Some?
    ensures Traced(t0, ids, Dial(c, env))
  {
    var status := if c.link.attempts == 0 then Connecting else Reconnecting;
    PublishTraced(t0, ids, c, status, None, Clear);
    var c1 := Publish(c, status, None, Clear);
    var c2 := c1.(link := c1.link.(reconnectTask := None));
    if c2.link.configuration.value.saved.urlParses {
      EmitTraced(t0, ids, c2, Connect(c2.link.generation + 1));
    } else {
      DisconnectedTraced(t0, ids, c2, InvalidUrl(c2.link.configuration.value.saved.url), false, env);
    }
  }

  lemma OpenTraced(t0: T.Tracker, ids: seq<string>, c: Client, env: Env)
    requires Traced(t0, ids, c)
    ensures Traced(t0, ids, Open(c, env))
  {
    var c1 := LoadPersisted(c);
    if !c1.link.stopped && !c1.link.suspended && c1.link.configuration.Some? {
      DialTraced(t0, ids, c1, env);
    }
  }

  lemma TerminalTraced(t0: T.Tracker, ids: seq<string>, c: Client, status: Status, e: Option<ErrorText>)
    requires Traced(t0, ids, c)
    ensures Traced(t0, ids, StopTerminally(c, status, e))
  {
    var c0 := c.(link := c.link.(stopped := true, sessionEpoch := c.link.sessionEpoch + 1));
    CloseTraced(t0, ids, c0);
    TrackTraced(t0, ids, CloseCurrent(ClearTimers(c0)), T.Closed);
    PublishTraced(t0, ids, Track(CloseCurrent(ClearTimers(c0)), T.Closed), status, None, Set(e));
  }

  lemma ClosedByRelayTraced(t0: T.Tracker, ids: seq<string>, c: Client, reason: CloseReason, detail: Option<string>,
      env: Env)
    requires Traced(t0, ids, c)
    ensures Traced(t0, ids, ClosedByRelay(c, reason, detail, env))
  {
    match reason
    case Stale =>
      CloseTraced(t0, ids, c);
      var c1 := CloseCurrent(ClearTimers(c));
      if !c1.link.stopped && !c1.link.suspended {
        OpenTraced(t0, ids, c1.(link := c1.link.(attempts := 0)), env);
      }
    case Unauthorized =>
      TerminalTraced(t0, ids, c, AuthRequired, Some(ReasonText(reason, detail)));
      var c1 := StopTerminally(c, AuthRequired, Some(ReasonText(reason, detail)));
      EmitTraced(t0, ids, c1, OnAuthRequired);
    case BgResumed => TerminalTraced(t0, ids, c, Replaced, if detail.Some? then Some(Detail(detail.value)) else None);
    case PoolFull => DisconnectedTraced(t0, ids, c, ReasonText(reason, detail), true, env);
    case OtherReason(_) => DisconnectedTraced(t0, ids, c, ReasonText(reason, detail), false, env);
  }

  lemma EmitMessageTraced(t0: T.Tracker, ids: seq<string>, c: Client, pooled: PooledMessage, ackToken: string, env: Env)
    requires Traced(t0, ids, c)
    ensures Traced(t0, ids + NewId(c.seen, pooled), EmitMessage(c, pooled, ackToken, env))
    ensures EmitMessage(c, pooled, ackToken, env).seen ==
            if pooled.messageId == "" then c.seen else R.Marked(c.seen, pooled.messageId)
  {
    var id := pooled.messageId;
    var isNew := SeenSets.IsNew(R.Current(c.seen), id);
    assert ids + [] == ids;
    if id != "" {
      var c1 := AdvanceLastSeen(c.(seen := R.Marked(c.seen, id)), id, pooled.enqueuedAtMs, !isNew);
      assert SameHistory(c, c1);
      var op := T.Queue(id, pooled.sinchMessageId, Delivered, "");
      ReportTraced(t0, ids, c1, id, pooled.sinchMessageId, Delivered, env);
      var c2 := FlushReports(Track(c1, op), T.All, env);
      FlushKeepsLink(Track(c1, op), T.All, env);
      if isNew {
        PresentTraced(t0, ids, c2, MessageEvent(id, pooled.sinchMessageId, ackToken, pooled.enqueuedAtMs, env.now,
            false));
      }
    }
  }

  lemma PresentTraced(t0: T.Tracker, ids: seq<string>, c: Client, event: MessageEvent)
    requires Traced(t0, ids, c)
    ensures Traced(t0, ids + [event.id], Present(c, event)) && Present(c, event).seen == c.seen
  {
    var all := c.mail.pendingMessages + [event];
    var c1 := SaveMessages(c, if |all| > PENDING_MESSAGE_CAPACITY then all[1..] else all);
    EmitTraced(t0, ids, c1, OnMessage(event));
    EmitTraced(t0, ids + [event.id], Emit(c1, OnMessage(event)), LookUpDelivered(event, c1.link.sessionEpoch));
  }

  lemma {:induction false} EmitAllTraced(t0: T.Tracker, ids: seq<string>, c: Client, messages: seq<PooledMessage>,
      env: Env)
    requires Traced(t0, ids, c)
    ensures Traced(t0, ids + NewIds(c.seen, messages), EmitAll(c, messages, env))
    ensures EmitAll(c, messages, env).seen == SeenAfter(c.seen, messages)
    decreases |messages|
  {
    if messages == [] {
      assert ids + [] == ids;
    } else {
      var before := messages[..|messages| - 1];
      EmitAllTraced(t0, ids, c, before, env);
      var told := ids + NewIds(c.seen, before);
      EmitMessageTraced(t0, told, EmitAll(c, before, env), messages[|messages| - 1], "", env);
      assert ids + NewIds(c.seen, messages) == told + NewId(SeenAfter(c.seen, before), messages[|messages| - 1]);
    }
  }

  lemma GreetedTraced(t0: T.Tracker, ids: seq<string>, c: Client, id: string, ms: int, messages: seq<PooledMessage>,
      env: Env)
    requires Traced(t0, ids, c)
    ensures Traced(t0, ids + NewIds(c.seen, messages), GreetedByRelay(c, id, ms, messages, env))
  {
    var c2 := HelloAckNoted(c, ms);
    PublishTraced(t0, ids, c2, Connected, Some(id), Clear);
    var c3 := Publish(c2, Connected, Some(id), Clear);
    EmitAllTraced(t0, ids, c3, messages, env);
    var told := ids + NewIds(c.seen, messages);
    var c4 := StartPolling(EmitAll(c3, messages, env), env);
    SendTraced(t0, told, c4, Poll);
    FlushTraced(t0, told, SendPoll(c4), T.All, env);
  }

  lemma AnsweredTraced(t0: T.Tracker, ids: seq<string>, c: Client, ack: T.Ack, env: Env)
    requires Traced(t0, ids, c)
    ensures Traced(t0, ids, Answered(c, ack, env))
  {
    var c1 := Track(c, T.HandleAck(ack, env.now, env.draw));
    TrackTraced(t0, ids, c, T.HandleAck(ack, env.now, env.draw));
    EmitTraced(t0, ids, c1, OnState(c1.link.state.(lastError := Some(Detail(T.RejectionText(ack))))));
  }

  lemma ReceivedTraced(t0: T.Tracker, ids: seq<string>, c: Client, frame: ServerFrame, env: Env)
    requires Traced(t0, ids, c)
    ensures Traced(t0, ids + FrameIds(c, frame), Received(c, frame, env))
  {
    assert ids + [] == ids;
    match frame
    case HelloAck(id, ms, messages) => GreetedTraced(t0, ids, c, id, ms, messages, env);
    case Message(pooled, ackToken) =>
      var c1 := c.(link := c.link.(helloAckResetArmed := false));
      if pooled.Some? {
        EmitMessageTraced(t0, ids, c1, pooled.value, ackToken, env);
      } else {
        TrackTraced(t0, ids, c1, T.Queue("", "", Failed, "decode: message frame without a pooled message"));
      }
    case AckFrame(ack) => AnsweredTraced(t0, ids, c, ack, env);
    case Ping(id) => SendTraced(t0, ids, c, PongReply(id));
    case CloseFrame(reason, detail) => ClosedByRelayTraced(t0, ids, c, reason, detail, env);
    case AuthChallenge =>
    case Pong =>
    case Undecodable =>
  }

  lemma HostTraced(t0: T.Tracker, ids: seq<string>, c: Client, e: Event, env: Env)
    requires Traced(t0, ids, c)
    requires IsHostEvent(e)
    ensures Traced(t0, ids, HostStep(c, e, env))
  {
    match e
    case Start =>
      var c1 := LoadPersisted(c);
      var c2 := c1.(link := c1.link.(stopped := false, suspended := false, attempts := 0,
          authRefreshAttempted := false));
      OpenTraced(t0, ids, PersistConfiguration(c2), env);
    case Stop =>
      var c1 := c.(link := c.link.(stopped := true, sessionEpoch := c.link.sessionEpoch + 1, suspended := false));
      CloseTraced(t0, ids, c1);
      PublishTraced(t0, ids, CloseCurrent(ClearTimers(c1)), Stopped, None, Keep);
    case Suspend =>
      if !c.link.stopped && !c.link.suspended {
        var c1 := c.(link := c.link.(suspended := true));
        CloseTraced(t0, ids, c1);
        TrackTraced(t0, ids, CloseCurrent(ClearTimers(c1)), T.Closed);
        PublishTraced(t0, ids, Track(CloseCurrent(ClearTimers(c1)), T.Closed), Idle, None, Keep);
      }
    case Resume =>
      OpenTraced(t0, ids, c.(link := c.link.(suspended := false, attempts := 0)), env);
    case UpdateConfiguration(cfg) =>
      assert SameHistory(c, Revived(c, cfg));
      CloseTraced(t0, ids, Revived(c, cfg));
      OpenTraced(t0, ids, CloseCurrent(ClearTimers(Revived(c, cfg))), env);
  }

  lemma ReportTraced(t0: T.Tracker, ids: seq<string>, c: Client, m: string, sm: string, s: DeliveryStatus, env: Env)
    requires Traced(t0, ids, c)
    ensures Traced(t0, ids, FlushReports(Track(c, T.Queue(m, sm, s, "")), T.All, env))
  {
    TrackTraced(t0, ids, c, T.Queue(m, sm, s, ""));
    FlushTraced(t0, ids, Track(c, T.Queue(m, sm, s, "")), T.All, env);
  }

  lemma PostDoneTraced(t0: T.Tracker, ids: seq<string>, c: Client, event: MessageEvent, accepted: bool, env: Env)
    requires Traced(t0, ids, c)
    ensures Traced(t0, ids, PostDone(c, event, accepted, env))
  {
    assert SameHistory(c, MarkShown(c, event.id));
    ReportTraced(t0, ids, MarkShown(c, event.id), event.id, event.sinchMessageId, Displayed, env);
  }

  lemma LookedUpTraced(t0: T.Tracker, ids: seq<string>, c: Client, event: MessageEvent, epoch: nat, delivered: bool,
      env: Env)
    requires Traced(t0, ids, c)
    ensures Traced(t0, ids, LookedUp(c, event, epoch, delivered, env))
  {
    var alerting := c.mail.lastAlertAtMs.None? || env.now - c.mail.lastAlertAtMs.value >= ALERT_WINDOW_MS;
    EmitTraced(t0, ids, c, PostNotification(event, alerting));
    assert SameHistory(c, MarkShown(c, event.id));
  }

  lemma TicksTraced(t0: T.Tracker, ids: seq<string>, c: Client, env: Env)
    requires Traced(t0, ids, c)
    ensures Traced(t0, ids, PollTick(c, env)) && Traced(t0, ids, DeferralTick(c, env))
  {
    SendTraced(t0, ids, c, Poll);
    FlushTraced(t0, ids, SendPoll(c), T.ForwardFailureRetryOnly, env);
    FlushTraced(t0, ids, c, T.DeferredOnly, env);
  }

  lemma QuietTraced(t0: T.Tracker, ids: seq<string>, c: Client, e: Event, env: Env)
    requires Traced(t0, ids, c) && IsQuietEvent(e)
    ensures Traced(t0, ids, QuietStep(c, e, env))
  {
    match e
    case Report(m, s) => ReportTraced(t0, ids, c, m, SinchIdFor(c, m), s, env);
    case PostCompleted(event, accepted) => PostDoneTraced(t0, ids, c, event, accepted, env);
    case LookupAnswered(event, epoch, delivered) => LookedUpTraced(t0, ids, c, event, epoch, delivered, env);
    case PollFired => TicksTraced(t0, ids, c, env);
    case DeferralFired => TicksTraced(t0, ids, c, env);
    case ClearPendingMessages =>
    case SetHandlerRegistered(_) =>
    case PushMarked(_) =>
  }

  lemma SocketTraced(t0: T.Tracker, ids: seq<string>, c: Client, e: Event, env: Env)
    requires Traced(t0, ids, c) && !IsQuietEvent(e) && !IsHostEvent(e)
    ensures Traced(t0, ids + StepIds(c, e), Step(c, e, env))
  {
    assert ids + [] == ids;
    match e
    case SocketOpened(g) =>
      if c.link.configuration.Some? {
        SendTraced(t0, ids, c, Hello(c.mail.lastSeenMessageId, c.link.configuration.value.authToken));
      }
    case Inbound(g, frame) => ReceivedTraced(t0, ids, c, frame, env);
    case TransportClosed(g, code) => DisconnectedTraced(t0, ids, c, SocketClosed(code), false, env);
    case ReconnectFired => OpenTraced(t0, ids, c, env);
  }

  lemma StepTraced(t0: T.Tracker, ids: seq<string>, c: Client, e: Event, env: Env)
    requires Traced(t0, ids, c)
    ensures Traced(t0, ids + StepIds(c, e), Step(c, e, env))
  {
    assert ids + [] == ids;
    if IsQuietEvent(e) {
      QuietTraced(t0, ids, c, e, env);
    } else if IsHostEvent(e) {
      HostTraced(t0, ids, c, e, env);
    } else {
      SocketTraced(t0, ids, c, e, env);
    }
  }

  lemma {:induction false} RunTraced(c: Client, moments: seq<Moment>)
    requires Initial(c)
    ensures Traced(c.tracker, RunIds(c, moments), Run(c, moments))
    decreases |moments|
  {
    if moments != [] {
      var n := |moments| - 1;
      RunTraced(c, moments[..n]);
      StepTraced(c.tracker, RunIds(c, moments[..n]), Run(c, moments[..n]), moments[n].event, moments[n].env);
    }
  }

  // ----- Two sends of one report -----

  lemma KeyOfFlush(t: T.Tracker, op: T.Op, k: nat)
    requires op.Flush? && k < |T.ToSend(t.pending, t.inFlight, op.nowMs, op.mode)|
    ensures KeySeq(T.ToSend(t.pending, t.inFlight, op.nowMs, op.mode))[k] in TR.Sent(t, op)
  {
    assert T.ToSend(t.pending, t.inFlight, op.nowMs, op.mode)[k] in T.ToSend(t.pending, t.inFlight, op.nowMs, op.mode);
  }

  /** Position `a` of the handed-out keys belongs to operation `i`. */
  ghost predicate HandedOutBy(t: T.Tracker, ops: seq<T.Op>, a: nat, i: nat) {
    && i < |ops| && a < |FlushedKeys(t, ops)|
    && FlushedKeys(t, ops)[a] in TR.Sent(T.Run(t, ops[..i]), ops[i])
    && |FlushedKeys(t, ops[..i])| <= a < |FlushedKeys(t, ops[..i + 1])|
  }

  lemma LastOpHandsOut(t: T.Tracker, ops: seq<T.Op>, a: nat)
    requires ops != [] && |FlushedKeys(t, ops[..|ops| - 1])| <= a < |FlushedKeys(t, ops)|
    ensures HandedOutBy(t, ops, a, |ops| - 1)
  {
    var n := |ops| - 1;
    assert ops[..n + 1] == ops;
    KeyOfFlush(T.Run(t, ops[..n]), ops[n], a - |FlushedKeys(t, ops[..n])|);
  }

  lemma {:induction false} FlushedKeyHasOp(t: T.Tracker, ops: seq<T.Op>, a: nat) returns (i: nat)
    requires a < |FlushedKeys(t, ops)|
    ensures HandedOutBy(t, ops, a, i)
    decreases |ops|
  {
    var n := |ops| - 1;
    if a < |FlushedKeys(t, ops[..n])| {
      i := FlushedKeyHasOp(t, ops[..n], a);
      assert ops[..n][..i] == ops[..i] && ops[..n][..i + 1] == ops[..i + 1];
      assert FlushedKeys(t, ops[..n])[a] == FlushedKeys(t, ops)[a];
    } else {
      i := n;
      LastOpHandsOut(t, ops, a);
    }
  }

  lemma {:induction false} FlushedKeysGrow(t: T.Tracker, ops: seq<T.Op>, i: nat)
    requires i <= |ops|
    ensures FlushedKeys(t, ops[..i]) <= FlushedKeys(t, ops)
    decreases |ops|
  {
    if i == |ops| {
      assert ops[..i] == ops;
    } else {
      FlushedKeysGrow(t, ops[..|ops| - 1], i);
      assert ops[..|ops| - 1][..i] == ops[..i];
    }
  }

  lemma FlushedKeysGrowBetween(t: T.Tracker, ops: seq<T.Op>, p: nat, q: nat)
    requires p <= q <= |ops|
    ensures |FlushedKeys(t, ops[..p])| <= |FlushedKeys(t, ops[..q])|
  {
    FlushedKeysGrow(t, ops[..q], p);
    assert ops[..q][..p] == ops[..p];
  }

  lemma OneFlushSendsAKeyOnce(t: T.Tracker, ops: seq<T.Op>, i: nat, a: nat, b: nat)
    requires TR.Inv(t) && i < |ops| && a < b
    requires |FlushedKeys(t, ops[..i])| <= a && b < |FlushedKeys(t, ops[..i + 1])|
    ensures FlushedKeys(t, ops[..i + 1])[a] != FlushedKeys(t, ops[..i + 1])[b]
  {
    TR.RunKeepsInv(t, ops[..i]);
    var before := T.Run(t, ops[..i]);
    assert ops[..i + 1][..i] == ops[..i];
    TR.FlushSendsSelected(before.pending, before.inFlight, ops[i].nowMs, ops[i].mode);
  }

  /**
   Over any run of client and tracker, two DeliveryReport frames for one (message id, status) have between
   them a `rate_limited` or `upstream_forward_failed` Ack for that token, a closed connection, or the
   report being queued anew after it had left the outbox.
   */
  lemma WireResendNeedsCause(c: Client, moments: seq<Moment>, a: nat, b: nat) returns (i: nat, m: nat, j: nat)
    requires Initial(c) && TR.Inv(c.tracker)
    requires a < b < |WireKeys(Run(c, moments).out)|
    requires WireKeys(Run(c, moments).out)[a] == WireKeys(Run(c, moments).out)[b]
    ensures var ops := Run(c, moments).trace;
            var keys := WireKeys(Run(c, moments).out);
            && i < m < j < |ops|
            && |FlushedKeys(c.tracker, ops[..i])| <= a < |FlushedKeys(c.tracker, ops[..i + 1])|
            && |FlushedKeys(c.tracker, ops[..j])| <= b < |FlushedKeys(c.tracker, ops[..j + 1])|
            && TR.Releases(T.Run(c.tracker, ops[..m]), ops[m], keys[a])
  {
    RunTraced(c, moments);
    var t, ops := c.tracker, Run(c, moments).trace;
    i := FlushedKeyHasOp(t, ops, a);
    j := FlushedKeyHasOp(t, ops, b);
    FlushedKeysGrow(t, ops, i + 1);
    FlushedKeysGrow(t, ops, j + 1);
    if j < i {
      FlushedKeysGrowBetween(t, ops, j + 1, i);
    }
    if i == j {
      OneFlushSendsAKeyOnce(t, ops, i, a, b);
    }
    TR.ResendNeedsCause(t, ops, i, j, FlushedKeys(t, ops)[a]);
    m :| i < m < j && TR.Releases(T.Run(t, ops[..m]), ops[m], FlushedKeys(t, ops)[a]);
  }

  // ----- What a connection leaves in flight -----

  /** `open` would find a configuration whose url does not parse. */
  predicate DialFails(c: Client) {
    && !c.link.stopped && !c.link.suspended
    && LoadPersisted(c).link.configuration.Some? && !LoadPersisted(c).link.configuration.value.saved.urlParses
  }

  /** The events that begin or end a connection. */
  predicate EndsOrBegins(e: Event) {
    IsHostEvent(e) || e.TransportClosed? || e.ReconnectFired? || (e.Inbound? && e.frame.CloseFrame?)
  }

  /**
   Which of them forget what is in flight: a lost transport, every close frame but STALE, and suspension; STALE and
   the calls that dial only by way of an unparsable url; `stop` never.
   */
  predicate Forgets(c: Client, e: Event) {
    match e
    case Suspend => !c.link.stopped && !c.link.suspended
    case TransportClosed(g, _) => g == c.link.generation
    case Inbound(g, frame) => g == c.link.generation && frame.CloseFrame? && (frame.reason.Stale? ==> DialFails(c))
    case Start => DialFails(c.(link := c.link.(stopped := false, suspended := false)))
    case Resume => c.link.suspended && DialFails(c.(link := c.link.(suspended := false)))
    case UpdateConfiguration(cfg) => !cfg.saved.urlParses
    case ReconnectFired => DialFails(c)
    case _ => false
  }

  function Left(t: T.Tracker, forgets: bool): T.Tracker {
    if forgets then T.AfterClosed(t) else t
  }

  lemma OpenLeaves(c: Client, env: Env)
    ensures Open(c, env).tracker == Left(c.tracker, DialFails(c))
  {
  }

  lemma StartLeaves(c: Client, env: Env)
    ensures Started(c, env).tracker == Left(c.tracker, Forgets(c, Start))
  {
    var c1 := LoadPersisted(c);
    var c2 := c1.(link := c1.link.(stopped := false, suspended := false, attempts := 0,
        authRefreshAttempted := false));
    OpenLeaves(PersistConfiguration(c2), env);
  }

  lemma ReconfiguredLeaves(c: Client, cfg: Configuration, env: Env)
    ensures Reconfigured(c, cfg, env).tracker == Left(c.tracker, !cfg.saved.urlParses)
  {
    OpenLeaves(CloseCurrent(ClearTimers(Revived(c, cfg))), env);
  }

  lemma HostLeaves(c: Client, e: Event, env: Env)
    requires IsHostEvent(e)
    ensures HostStep(c, e, env).tracker == Left(c.tracker, Forgets(c, e))
  {
    match e
    case Start => StartLeaves(c, env);
    case Stop =>
    case Suspend =>
    case Resume => OpenLeaves(c.(link := c.link.(suspended := false, attempts := 0)), env);
    case UpdateConfiguration(cfg) => ReconfiguredLeaves(c, cfg, env);
  }

  lemma CloseFrameLeaves(c: Client, reason: CloseReason, detail: Option<string>, env: Env)
    ensures ClosedByRelay(c, reason, detail, env).tracker == Left(c.tracker, reason.Stale? ==> DialFails(c))
  {
    if reason.Stale? {
      var c1 := CloseCurrent(ClearTimers(c));
      OpenLeaves(c1.(link := c1.link.(attempts := 0)), env);
    }
  }

  lemma ConnectionLeaves(c: Client, e: Event, env: Env)
    requires EndsOrBegins(e)
    ensures Step(c, e, env).tracker == Left(c.tracker, Forgets(c, e))
  {
    if IsHostEvent(e) {
      HostLeaves(c, e, env);
    } else if e.ReconnectFired? {
      OpenLeaves(c, env);
    } else if e.Inbound? {
      CloseFrameLeaves(c, e.frame.reason, e.frame.detail, env);
    }
  }
}

/** The frames the client puts on the wire besides its reports: when each is sent, on which socket,
    and which is first. */
module ClientWires {
  import opened Common
  import opened SocketTypes
  import opened ClientSpec
  import opened ClientRuns
  import opened ClientCursors
  import Budget = ClientBackoff
  import T = TrackerSpec
  import R = SeenRegistries
  import SeenSets

  // ----- What a step adds to the output -----

  predicate IsControl(o: Output) {
    o.Frame? && !o.frame.DeliveryReport?
  }

  /** The frames that are not reports, in order. */
  function Controls(out: seq<Output>): seq<Output> {
    if out == [] then []
    else Controls(out[..|out| - 1]) + (if IsControl(out[|out| - 1]) then [out[|out| - 1]] else [])
  }

  /** From `c` to `d` the output grows by these control frames, and by frames of no socket but `via`. */
  ghost predicate Adds(c: Client, d: Client, control: seq<Output>, via: Option<nat>) {
    && c.out <= d.out
    && Controls(d.out[|c.out|..]) == control
    && (forall i :: |c.out| <= i < |d.out| && d.out[i].Frame? ==> via == Some(d.out[i].socket))
  }

  /** No frame at all. */
  ghost predicate Quietly(c: Client, d: Client) {
    c.out <= d.out && forall i :: |c.out| <= i < |d.out| ==> !d.out[i].Frame?
  }

  lemma {:induction false} ControlsAppend(a: seq<Output>, b: seq<Output>)
    ensures Controls(a + b) == Controls(a) + Controls(b)
    decreases |b|
  {
    if b == [] {
      assert a + b == a;
    } else {
      assert (a + b)[..|a + b| - 1] == a + b[..|b| - 1];
      ControlsAppend(a, b[..|b| - 1]);
    }
  }

  lemma {:induction false} NoControls(out: seq<Output>)
    requires forall o :: o in out ==> !IsControl(o)
    ensures Controls(out) == []
    decreases |out|
  {
    if out != [] {
      NoControls(out[..|out| - 1]);
    }
  }

  lemma AddsThen(c: Client, d: Client, e: Client, a: seq<Output>, b: seq<Output>, via: Option<nat>)
    requires Adds(c, d, a, via) && Adds(d, e, b, via)
    ensures Adds(c, e, a + b, via)
  {
    assert e.out[|c.out|..] == d.out[|c.out|..] + e.out[|d.out|..];
    ControlsAppend(d.out[|c.out|..], e.out[|d.out|..]);
  }

  lemma QuietlyAdds(c: Client, d: Client, via: Option<nat>)
    requires Quietly(c, d)
    ensures Adds(c, d, [], via)
  {
    NoControls(d.out[|c.out|..]);
  }

  lemma SendAdds(c: Client, frame: ClientFrame)
    requires !frame.DeliveryReport? && c.link.transport.Some?
    ensures Adds(c, Send(c, frame), [Frame(c.link.transport.value, frame)], c.link.transport)
  {
    var o := Frame(c.link.transport.value, frame);
    assert Send(c, frame).out[|c.out|..] == [o];
    assert [o][..0] == [] && Controls([o]) == [] + [o];
  }

  lemma {:induction false} ReportFramesAreNoControl(socket: nat, reports: seq<PendingReport>, now: int)
    ensures forall o :: o in ReportFrames(socket, reports, now) ==>
              o.Frame? && o.socket == socket && o.frame.DeliveryReport?
    decreases |reports|
  {
    if reports != [] {
      ReportFramesAreNoControl(socket, reports[..|reports| - 1], now);
    }
  }

  /** Reports go out on the current socket, and only while it is connected. */
  function ReportVia(c: Client): Option<nat> {
    if c.link.state.status == Connected then c.link.transport else None
  }

  lemma ReportsAdd(c: Client, d: Client, frames: seq<Output>, socket: nat)
    requires d.out == c.out + frames
    requires forall o :: o in frames ==> o.Frame? && o.socket == socket && o.frame.DeliveryReport?
    ensures Adds(c, d, [], Some(socket))
  {
    assert d.out[|c.out|..] == frames;
    NoControls(frames);
    forall i | |c.out| <= i < |d.out|
      ensures d.out[i].Frame? && d.out[i].socket == socket
    {
      assert d.out[i] == frames[i - |c.out|] && frames[i - |c.out|] in frames;
    }
  }

  lemma FlushAdds(c: Client, mode: T.FlushMode, env: Env)
    ensures Adds(c, FlushReports(c, mode, env), [], ReportVia(c))
  {
    if c.link.state.status == Connected && c.link.transport.Some? {
      var socket := c.link.transport.value;
      var reports := T.ToSend(c.tracker.pending, c.tracker.inFlight, env.now, mode);
      ReportFramesAreNoControl(socket, reports, env.now);
      ReportsAdd(c, FlushReports(c, mode, env), ReportFrames(socket, reports, env.now), socket);
    } else {
      assert c.out[|c.out|..] == [];
    }
  }

  // ----- Host calls and closed connections -----

  lemma DisconnectedIsQuiet(c: Client, reason: ErrorText, shed: bool, env: Env)
    ensures Quietly(c, Disconnected(c, reason, shed, env))
  {
  }

  lemma DialIsQuiet(c: Client, env: Env)
    requires c.link.configuration.Some?
    ensures Quietly(c, Dial(c, env))
  {
    var c1 := Publish(c, if c.link.attempts == 0 then Connecting else Reconnecting, None, Clear);
    var c2 := c1.(link := c1.link.(reconnectTask := None));
    var saved := c2.link.configuration.value.saved;
    if !saved.urlParses {
      DisconnectedIsQuiet(c2, InvalidUrl(saved.url), false, env);
    }
  }

  lemma OpenIsQuiet(c: Client, env: Env)
    ensures Quietly(c, Open(c, env))
  {
    var c1 := LoadPersisted(c);
    if !c1.link.stopped && !c1.link.suspended && c1.link.configuration.Some? {
      DialIsQuiet(c1, env);
    }
  }

  lemma HostIsQuiet(c: Client, e: Event, env: Env)
    requires IsHostEvent(e)
    ensures Quietly(c, HostStep(c, e, env))
  {
    match e
    case Start =>
      var c1 := LoadPersisted(c);
      var c2 := c1.(link := c1.link.(stopped := false, suspended := false, attempts := 0,
          authRefreshAttempted := false));
      OpenIsQuiet(PersistConfiguration(c2), env);
    case Stop =>
    case Suspend =>
    case Resume => OpenIsQuiet(c.(link := c.link.(suspended := false, attempts := 0)), env);
    case UpdateConfiguration(cfg) => OpenIsQuiet(CloseCurrent(ClearTimers(Revived(c, cfg))), env);
  }

  lemma TerminalIsQuiet(c: Client, status: Status, lastError: Option<ErrorText>)
    ensures Quietly(c, StopTerminally(c, status, lastError))
  {
  }

  lemma CloseFrameIsQuiet(c: Client, reason: CloseReason, detail: Option<string>, env: Env)
    ensures Quietly(c, ClosedByRelay(c, reason, detail, env))
  {
    match reason
    case Stale =>
      var c1 := CloseCurrent(ClearTimers(c));
      OpenIsQuiet(c1.(link := c1.link.(attempts := 0)), env);
    case Unauthorized => TerminalIsQuiet(c, AuthRequired, Some(ReasonText(reason, detail)));
    case BgResumed => TerminalIsQuiet(c, Replaced, if detail.Some? then Some(Detail(detail.value)) else None);
    case PoolFull => DisconnectedIsQuiet(c, ReasonText(reason, detail), true, env);
    case OtherReason(_) => DisconnectedIsQuiet(c, ReasonText(reason, detail), false, env);
  }

  // ----- Messages and reports -----

  lemma ReportAdds(c: Client, m: string, sm: string, s: DeliveryStatus, env: Env)
    ensures Adds(c, FlushReports(Track(c, T.Queue(m, sm, s, "")), T.All, env), [], ReportVia(c))
  {
    FlushAdds(Track(c, T.Queue(m, sm, s, "")), T.All, env);
  }

  lemma PresentIsQuiet(c: Client, event: MessageEvent)
    ensures Quietly(c, Present(c, event))
  {
  }

  lemma EmitMessageAdds(c: Client, pooled: PooledMessage, ackToken: string, env: Env)
    ensures Adds(c, EmitMessage(c, pooled, ackToken, env), [], ReportVia(c))
  {
    var id := pooled.messageId;
    if id == "" {
      assert c.out[|c.out|..] == [];
    } else {
      var isNew := SeenSets.IsNew(R.Current(c.seen), id);
      var c1 := AdvanceLastSeen(c.(seen := R.Marked(c.seen, id)), id, pooled.enqueuedAtMs, !isNew);
      assert c1.out == c.out && c1.link == c.link;
      ReportAdds(c1, id, pooled.sinchMessageId, Delivered, env);
      var c2 := FlushReports(Track(c1, T.Queue(id, pooled.sinchMessageId, Delivered, "")), T.All, env);
      if isNew {
        var event := MessageEvent(id, pooled.sinchMessageId, ackToken, pooled.enqueuedAtMs, env.now, false);
        PresentIsQuiet(c2, event);
        QuietlyAdds(c2, Present(c2, event), ReportVia(c));
        AddsThen(c1, c2, Present(c2, event), [], [], ReportVia(c));
      }
    }
  }

  lemma {:induction false} EmitAllAdds(c: Client, messages: seq<PooledMessage>, env: Env)
    ensures Adds(c, EmitAll(c, messages, env), [], ReportVia(c))
    decreases |messages|
  {
    if messages == [] {
      assert c.out[|c.out|..] == [];
    } else {
      var before := EmitAll(c, messages[..|messages| - 1], env);
      EmitAllAdds(c, messages[..|messages| - 1], env);
      EmitAllKeepsLink(c, messages[..|messages| - 1], env);
      EmitMessageAdds(before, messages[|messages| - 1], "", env);
      AddsThen(c, before, EmitAll(c, messages, env), [], [], ReportVia(c));
    }
  }

  lemma GreetedAdds(c: Client, id: string, ms: int, messages: seq<PooledMessage>, env: Env)
    requires c.link.transport.Some?
    ensures Adds(c, GreetedByRelay(c, id, ms, messages, env), [Frame(c.link.transport.value, Poll)], c.link.transport)
  {
    var via, poll := c.link.transport, [Frame(c.link.transport.value, Poll)];
    var c1 := Publish(HelloAckNoted(c, ms), Connected, Some(id), Clear);
    assert Quietly(c, c1);
    QuietlyAdds(c, c1, via);
    EmitAllAdds(c1, messages, env);
    EmitAllKeepsLink(c1, messages, env);
    var c2 := StartPolling(EmitAll(c1, messages, env), env);
    AddsThen(c, c1, c2, [], [], via);
    SendAdds(c2, Poll);
    AddsThen(c, c2, SendPoll(c2), [], poll, via);
    FlushAdds(SendPoll(c2), T.All, env);
    AddsThen(c, SendPoll(c2), FlushReports(SendPoll(c2), T.All, env), [] + poll, [], via);
  }

  lemma PollTickAdds(c: Client, env: Env)
    requires c.link.state.status == Connected && c.link.transport.Some?
    ensures Adds(c, PollTick(c, env), [Frame(c.link.transport.value, Poll)], c.link.transport)
  {
    SendAdds(c, Poll);
    FlushAdds(SendPoll(c), T.ForwardFailureRetryOnly, env);
    AddsThen(c, SendPoll(c), PollTick(c, env), [Frame(c.link.transport.value, Poll)], [], c.link.transport);
  }

  // ----- Every step -----

  /** The control frames of a step: Hello when its socket opens, Poll at the handshake and the poll tick, Pong. */
  function ControlOf(c: Client, e: Event): seq<Output> {
    if c.link.transport.None? then []
    else
      var g := c.link.transport.value;
      match e
      case SocketOpened(s) =>
        if s == c.link.generation && c.link.configuration.Some?
        then [Frame(g, Hello(c.mail.lastSeenMessageId, c.link.configuration.value.authToken))] else []
      case PollFired => if c.link.state.status == Connected then [Frame(g, Poll)] else []
      case Inbound(s, frame) =>
        if s != c.link.generation then []
        else if frame.HelloAck? then [Frame(g, Poll)]
        else if frame.Ping? then [Frame(g, PongReply(frame.correlationId))]
        else []
      case _ => []
  }

  /** The socket a step may write to. */
  function Via(c: Client, e: Event): Option<nat> {
    if IsQuietEvent(e) then ReportVia(c)
    else if e.SocketOpened? && e.socket == c.link.generation then c.link.transport
    else if e.Inbound? && e.from == c.link.generation then c.link.transport
    else None
  }

  lemma LookupIsQuiet(c: Client, event: MessageEvent, epoch: nat, delivered: bool, env: Env)
    ensures Adds(c, LookedUp(c, event, epoch, delivered, env), [], ReportVia(c))
  {
    QuietlyAdds(c, LookedUp(c, event, epoch, delivered, env), ReportVia(c));
  }

  lemma PostDoneAdds(c: Client, event: MessageEvent, accepted: bool, env: Env)
    ensures Adds(c, PostDone(c, event, accepted, env), [], ReportVia(c))
  {
    if accepted {
      ReportAdds(MarkShown(c, event.id), event.id, event.sinchMessageId, Displayed, env);
    } else {
      assert c.out[|c.out|..] == [];
    }
  }

  lemma TickAdds(c: Client, env: Env)
    ensures Adds(c, PollTick(c, env), ControlOf(c, PollFired), ReportVia(c))
  {
    if c.link.state.status == Connected && c.link.transport.Some? {
      PollTickAdds(c, env);
    } else {
      QuietlyAdds(c, PollTick(c, env), ReportVia(c));
    }
  }

  lemma UnchangedOutAdds(c: Client, d: Client, via: Option<nat>)
    requires d.out == c.out
    ensures Adds(c, d, [], via)
  {
    QuietlyAdds(c, d, via);
  }

  lemma QuietEventAdds(c: Client, e: Event, env: Env)
    requires IsQuietEvent(e)
    ensures Adds(c, QuietStep(c, e, env), ControlOf(c, e), ReportVia(c))
  {
    match e
    case Report(m, s) => ReportAdds(c, m, SinchIdFor(c, m), s, env);
    case PostCompleted(event, accepted) => PostDoneAdds(c, event, accepted, env);
    case LookupAnswered(event, epoch, delivered) => LookupIsQuiet(c, event, epoch, delivered, env);
    case PollFired => TickAdds(c, env);
    case DeferralFired => FlushAdds(c, T.DeferredOnly, env);
    case ClearPendingMessages => UnchangedOutAdds(c, QuietStep(c, e, env), ReportVia(c));
    case SetHandlerRegistered(_) => UnchangedOutAdds(c, QuietStep(c, e, env), ReportVia(c));
    case PushMarked(_) => UnchangedOutAdds(c, QuietStep(c, e, env), ReportVia(c));
  }

  lemma AnsweredIsQuiet(c: Client, ack: T.Ack, env: Env)
    ensures Quietly(c, Answered(c, ack, env))
  {
  }

  lemma OtherFrameIsQuiet(c: Client, frame: ServerFrame, env: Env)
    requires frame.AuthChallenge? || frame.Pong? || frame.Undecodable? || frame.AckFrame? || frame.CloseFrame?
          || (frame.Message? && frame.pooled.None?)
    ensures Quietly(c, Received(c, frame, env))
  {
    match frame
    case AckFrame(ack) => AnsweredIsQuiet(c, ack, env);
    case CloseFrame(reason, detail) => CloseFrameIsQuiet(c, reason, detail, env);
    case _ =>
  }

  lemma FrameAdds(c: Client, frame: ServerFrame, env: Env, d: Client)
    requires c.link.transport.Some? && d == Received(c, frame, env)
    ensures Adds(c, d, ControlOf(c, Inbound(c.link.generation, frame)), c.link.transport)
  {
    if frame.HelloAck? {
      GreetedAdds(c, frame.connectionId, frame.serverPollMs, frame.messages, env);
    } else if frame.Ping? {
      SendAdds(c, PongReply(frame.correlationId));
    } else if frame.Message? && frame.pooled.Some? {
      MessageAdds(c, frame.pooled.value, frame.ackToken, env);
    } else {
      OtherFrameIsQuiet(c, frame, env);
      QuietlyAdds(c, d, c.link.transport);
    }
  }

  lemma MessageAdds(c: Client, pooled: PooledMessage, ackToken: string, env: Env)
    ensures Adds(c, Received(c, Message(Some(pooled), ackToken), env), [], c.link.transport)
  {
    var c1 := c.(link := c.link.(helloAckResetArmed := false));
    EmitMessageAdds(c1, pooled, ackToken, env);
  }

  lemma OpenedAdds(c: Client, g: nat, env: Env)
    ensures Adds(c, Step(c, SocketOpened(g), env), ControlOf(c, SocketOpened(g)), Via(c, SocketOpened(g)))
  {
    if g == c.link.generation && c.link.configuration.Some? && c.link.transport.Some? {
      SendAdds(c, Hello(c.mail.lastSeenMessageId, c.link.configuration.value.authToken));
    } else {
      QuietlyAdds(c, c, Via(c, SocketOpened(g)));
    }
  }

  lemma InboundAdds(c: Client, g: nat, frame: ServerFrame, env: Env, d: Client)
    requires (g == c.link.generation ==> c.link.transport.Some?) && d == InboundStep(c, g, frame, env)
    ensures Adds(c, d, ControlOf(c, Inbound(g, frame)), Via(c, Inbound(g, frame)))
  {
    if g == c.link.generation {
      FrameAdds(c, frame, env, d);
    } else {
      UnchangedOutAdds(c, d, None);
    }
  }

  lemma ConnectionIsQuiet(c: Client, e: Event, env: Env)
    requires e.TransportClosed? || e.ReconnectFired?
    ensures Quietly(c, Step(c, e, env))
  {
    if e.TransportClosed? {
      DisconnectedIsQuiet(c, SocketClosed(e.code), false, env);
    } else {
      OpenIsQuiet(c, env);
    }
  }

  lemma SocketAdds(c: Client, e: Event, env: Env, d: Client)
    requires e.SocketOpened? || e.Inbound? || e.TransportClosed? || e.ReconnectFired?
    requires e.Inbound? && e.from == c.link.generation ==> c.link.transport.Some?
    requires d == Step(c, e, env)
    ensures Adds(c, d, ControlOf(c, e), Via(c, e))
  {
    if e.SocketOpened? {
      OpenedAdds(c, e.socket, env);
    } else if e.Inbound? {
      InboundAdds(c, e.from, e.frame, env, d);
    } else {
      ConnectionIsQuiet(c, e, env);
      QuietlyAdds(c, d, None);
    }
  }

  /**
   Of every event in every state: the control frames it sends are exactly those of `ControlOf`, and every frame it
   sends, reports included, goes to the current socket, reports of the host and of timers only while connected.
   */
  lemma StepAdds(c: Client, e: Event, env: Env)
    requires e.Inbound? && e.from == c.link.generation ==> c.link.transport.Some?
    ensures Adds(c, Step(c, e, env), ControlOf(c, e), Via(c, e))
  {
    if IsQuietEvent(e) {
      QuietEventAdds(c, e, env);
    } else if IsHostEvent(e) {
      HostIsQuiet(c, e, env);
      QuietlyAdds(c, Step(c, e, env), None);
    } else {
      SocketAdds(c, e, env, Step(c, e, env));
    }
  }

  // ----- The Hello of a connection -----

  /**
   Over every run: the socket that opens is greeted with the cursor on disk, the one `CursorOverRun` describes, and the
   configured token, and with nothing else.
   */
  lemma HelloCarriesCursor(c: Client, moments: seq<Moment>, g: nat, env: Env)
    requires Initial(c) && Possible(c, moments) && Run(c, moments).link.transport == Some(g)
    ensures var d := Run(c, moments);
            && d.link.configuration.Some?
            && Step(d, SocketOpened(g), env).out ==
               d.out + [Frame(g, Hello(Stored(d).id, d.link.configuration.value.authToken))]
  {
    RunMoves(c, moments);
    NeverWedged(c, moments);
  }

  /** The first frame on the socket, if there is one. */
  function FirstFrame(out: seq<Output>, g: nat): Option<ClientFrame> {
    if out == [] then None
    else
      var before, last := FirstFrame(out[..|out| - 1], g), out[|out| - 1];
      if before.Some? then before else if last.Frame? && last.socket == g then Some(last.frame) else None
  }

  /** The sockets that have opened. */
  function OpenedIn(moments: seq<Moment>): set<nat> {
    if moments == [] then {}
    else
      var before, e := OpenedIn(moments[..|moments| - 1]), moments[|moments| - 1].event;
      if e.SocketOpened? then before + {e.socket} else before
  }

  /** A socket says nothing before it has opened. */
  predicate OpensFirst(moments: seq<Moment>) {
    moments == []
    || (var before, e := moments[..|moments| - 1], moments[|moments| - 1].event;
        OpensFirst(before) && (e.Inbound? ==> e.from in OpenedIn(before)))
  }

  lemma {:induction false} FirstFrameStays(out: seq<Output>, more: seq<Output>, g: nat)
    requires FirstFrame(out, g).Some? || forall o :: o in more && o.Frame? ==> o.socket != g
    ensures FirstFrame(out + more, g) == FirstFrame(out, g)
    decreases |more|
  {
    if more == [] {
      assert out + more == out;
    } else {
      assert (out + more)[..|out + more| - 1] == out + more[..|more| - 1];
      FirstFrameStays(out, more[..|more| - 1], g);
    }
  }

  lemma FirstFrameIs(out: seq<Output>, frame: ClientFrame, g: nat)
    requires FirstFrame(out, g).None?
    ensures FirstFrame(out + [Frame(g, frame)], g) == Some(frame)
  {
    assert (out + [Frame(g, frame)])[..|out|] == out;
  }

  lemma AddsKeepFirst(c: Client, d: Client, control: seq<Output>, via: Option<nat>, g: nat)
    requires Adds(c, d, control, via) && (via != Some(g) || FirstFrame(c.out, g).Some?)
    ensures FirstFrame(d.out, g) == FirstFrame(c.out, g)
  {
    var more := d.out[|c.out|..];
    assert d.out == c.out + more;
    FirstFrameStays(c.out, more, g);
  }

  // ----- Connected only after a handshake -----

  lemma DialIsNotConnected(c: Client, env: Env)
    requires c.link.configuration.Some?
    ensures Dial(c, env).link.state.status != Connected
  {
  }

  lemma OpenIsNotConnected(c: Client, env: Env)
    requires c.link.stopped || c.link.suspended || c.link.configuration.None? ==> c.link.state.status != Connected
    ensures Open(c, env).link.state.status != Connected
  {
    var c1 := LoadPersisted(c);
    if !c1.link.stopped && !c1.link.suspended && c1.link.configuration.Some? {
      DialIsNotConnected(c1, env);
    }
  }

  lemma HostIsNotConnected(c: Client, e: Event, env: Env, begun: bool)
    requires Safe(c, begun) && IsHostEvent(e)
    ensures HostStep(c, e, env) == c || HostStep(c, e, env).link.state.status != Connected
  {
    match e
    case Start =>
      var c1 := LoadPersisted(c);
      var c2 := c1.(link := c1.link.(stopped := false, suspended := false, attempts := 0,
          authRefreshAttempted := false));
      OpenIsNotConnected(PersistConfiguration(c2), env);
    case Stop =>
    case Suspend =>
    case Resume => OpenIsNotConnected(c.(link := c.link.(suspended := false, attempts := 0)), env);
    case UpdateConfiguration(cfg) => OpenIsNotConnected(CloseCurrent(ClearTimers(Revived(c, cfg))), env);
  }

  lemma CloseFrameIsNotConnected(c: Client, reason: CloseReason, detail: Option<string>, env: Env, begun: bool)
    requires Safe(c, begun) && c.link.transport.Some?
    ensures ClosedByRelay(c, reason, detail, env).link.state.status != Connected
  {
    if reason.Stale? {
      var c1 := CloseCurrent(ClearTimers(c));
      OpenIsNotConnected(c1.(link := c1.link.(attempts := 0)), env);
    }
  }

  /** A step leaves the client connected only where it was, on the same socket, or by a frame of that socket. */
  lemma StepIsConnected(c: Client, e: Event, env: Env, begun: bool)
    requires Safe(c, begun) && Enabled(c, e, env) && Step(c, e, env).link.state.status == Connected
    ensures Step(c, e, env).link.generation == c.link.generation
    ensures c.link.state.status == Connected || (e.Inbound? && e.from == c.link.generation)
  {
    if IsQuietEvent(e) {
      QuietEventKeepsLink(c, e, env);
    } else if IsHostEvent(e) {
      HostIsNotConnected(c, e, env, begun);
    } else if e.ReconnectFired? {
      OpenIsNotConnected(c, env);
    } else if e.Inbound? && e.from == c.link.generation {
      if e.frame.CloseFrame? {
        CloseFrameIsNotConnected(c, e.frame.reason, e.frame.detail, env, begun);
      } else {
        FrameKeepsSockets(c, e.frame, env);
      }
    }
  }

  // ----- Hello comes first -----

  /** What holds of socket `g`, open or not. */
  predicate Greets(c: Client, open: bool, g: nat) {
    var first := FirstFrame(c.out, g);
    && (first.Some? ==> first.value.Hello?)
    && (g > c.link.generation ==> first.None?)
    && (open ==> g <= c.link.generation)
    && (g == c.link.generation && (c.link.state.status == Connected || open) ==> first.Some?)
  }

  /** A step writes to a socket that has not spoken only by greeting it. */
  lemma StepFirstFrame(c: Client, m: Moment, open: bool, g: nat, begun: bool, d: Client)
    requires Safe(c, begun) && Enabled(c, m.event, m.env) && Greets(c, open, g) && d == Step(c, m.event, m.env)
    requires m.event.Inbound? && m.event.from == g ==> open
    ensures FirstFrame(d.out, g) == FirstFrame(c.out, g)
         || (FirstFrame(d.out, g).Some? && FirstFrame(d.out, g).value.Hello? && FirstFrame(c.out, g).None?)
    ensures m.event == SocketOpened(g) && g == c.link.generation ==> FirstFrame(d.out, g).Some?
    ensures g > c.link.generation ==> FirstFrame(d.out, g) == FirstFrame(c.out, g)
  {
    if m.event == SocketOpened(g) && g == c.link.generation && FirstFrame(c.out, g).None? {
      FirstFrameIs(c.out, Hello(c.mail.lastSeenMessageId, c.link.configuration.value.authToken), g);
    } else {
      StepAdds(c, m.event, m.env);
      AddsKeepFirst(c, d, ControlOf(c, m.event), Via(c, m.event), g);
    }
  }

  lemma StepGreets(c: Client, m: Moment, open: bool, g: nat, begun: bool, d: Client)
    requires Safe(c, begun) && Enabled(c, m.event, m.env) && Greets(c, open, g) && d == Step(c, m.event, m.env)
    requires m.event.Inbound? && m.event.from == g ==> open
    ensures Greets(d, open || m.event == SocketOpened(g), g)
  {
    StepFirstFrame(c, m, open, g, begun, d);
    Budget.StepDialsIff(c, m.event, m.env);
    if d.link.state.status == Connected {
      StepIsConnected(c, m.event, m.env, begun);
    }
  }

  lemma LastIsPossible(c: Client, moments: seq<Moment>, was: Client) returns (begun: bool)
    requires Initial(c) && Possible(c, moments) && moments != [] && was == Run(c, moments[..|moments| - 1])
    ensures Possible(c, moments[..|moments| - 1]) && Safe(was, begun)
    ensures Enabled(was, moments[|moments| - 1].event, moments[|moments| - 1].env)
  {
    var n := |moments| - 1;
    PossiblePrefix(c, moments, n);
    NeverWedged(c, moments[..n]);
    begun := Begun(c, moments[..n]);
    assert Enabled(Run(c, moments[..n]), moments[n].event, moments[n].env);
  }

  lemma {:induction false} RunGreets(c: Client, moments: seq<Moment>, g: nat, d: Client)
    requires Initial(c) && Possible(c, moments) && OpensFirst(moments) && d == Run(c, moments)
    ensures Greets(d, g in OpenedIn(moments), g)
    decreases |moments|
  {
    if moments != [] {
      var before, m := moments[..|moments| - 1], moments[|moments| - 1];
      var was := Run(c, before);
      var begun := LastIsPossible(c, moments, was);
      RunGreets(c, before, g, was);
      StepGreets(was, m, g in OpenedIn(before), g, begun, d);
    }
  }

  /** Over every run in which no socket speaks before it opens: the first frame on every socket dialled is a Hello. */
  lemma HelloIsFirst(c: Client, moments: seq<Moment>, g: nat)
    requires Initial(c) && Possible(c, moments) && OpensFirst(moments)
    ensures var first := FirstFrame(Run(c, moments).out, g); first.Some? ==> first.value.Hello?
  {
    RunGreets(c, moments, g, Run(c, moments));
  }
}

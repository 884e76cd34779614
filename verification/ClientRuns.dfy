/** What holds of the client over every run. */
module ClientRuns {
  import opened Common
  import opened SocketTypes
  import opened ClientSpec
  import T = TrackerSpec

  // ----- Runs -----

  datatype Moment = Moment(event: Event, env: Env)

  function Run(c: Client, moments: seq<Moment>): Client {
    if moments == [] then c
    else
      var last := moments[|moments| - 1];
      Step(Run(c, moments[..|moments| - 1]), last.event, last.env)
  }

  /** The environment only delivers what it can, and its clock never goes back. */
  ghost predicate Possible(c: Client, moments: seq<Moment>) {
    && (forall i :: 0 <= i < |moments| ==> Enabled(Run(c, moments[..i]), moments[i].event, moments[i].env))
    && (forall i, j :: 0 <= i < j < |moments| ==> moments[i].env.now <= moments[j].env.now)
  }

  lemma PossiblePrefix(c: Client, moments: seq<Moment>, n: nat)
    requires Possible(c, moments) && n <= |moments|
    ensures Possible(c, moments[..n])
  {
    forall i | 0 <= i < n
      ensures Enabled(Run(c, moments[..n][..i]), moments[..n][i].event, moments[..n][i].env)
    {
      assert moments[..n][..i] == moments[..i];
    }
  }

  /** The host has asked for a connection: `start`, a new configuration, or a return to the foreground. */
  predicate Begins(c: Client, e: Event) {
    e.Start? || e.UpdateConfiguration? || (e.Resume? && !c.link.stopped && c.link.suspended)
  }

  predicate Begun(c: Client, moments: seq<Moment>) {
    moments != []
    && (Begun(c, moments[..|moments| - 1]) || Begins(Run(c, moments[..|moments| - 1]), moments[|moments| - 1].event))
  }

  /** A newly built client over some store. */
  predicate Initial(c: Client) {
    && c.link.transport.None? && c.link.callbacks == {} && c.link.generation == 0
    && c.link.pollTask.None? && c.link.reconnectTask.None? && c.link.deferralTask.None?
    && c.link.attempts == 0 && c.link.attemptsBeforeHelloAck == 0 && !c.link.helloAckResetArmed
    && c.link.state.status == Idle && !c.link.stopped && !c.link.suspended && !c.link.didLoad
    && c.mail == INITIAL_MAIL && c.tracker.inFlight == {} && c.trace == [] && c.out == []
  }

  // ----- Which steps leave the connection alone -----

  lemma EmitMessageKeepsLink(c: Client, pooled: PooledMessage, ackToken: string, env: Env)
    ensures EmitMessage(c, pooled, ackToken, env).link == c.link
  {
  }

  lemma {:induction false} EmitAllKeepsLink(c: Client, messages: seq<PooledMessage>, env: Env)
    ensures EmitAll(c, messages, env).link == c.link
    decreases |messages|
  {
    if messages != [] {
      EmitAllKeepsLink(c, messages[..|messages| - 1], env);
      EmitMessageKeepsLink(EmitAll(c, messages[..|messages| - 1], env), messages[|messages| - 1], "", env);
    }
  }

  // ----- Never wedged, never doubled -----

  ghost predicate Safe(c: Client, begun: bool) {
    && (c.link.stopped || c.link.suspended ==>
          c.link.transport.None? && c.link.pollTask.None? && c.link.reconnectTask.None? && c.link.deferralTask.None?)
    && !(c.link.transport.Some? && c.link.reconnectTask.Some?)
    && (c.link.state.status == Connected ==> c.link.transport.Some? && c.link.pollTask.Some?)
    && (begun && c.link.configuration.Some? && !c.link.stopped && !c.link.suspended ==>
          c.link.transport.Some? || c.link.reconnectTask.Some?)
    && (c.link.transport.Some? || c.link.reconnectTask.Some? ==> c.link.configuration.Some? && c.link.didLoad)
    && (c.link.transport.Some? ==> c.link.transport.value == c.link.generation && c.link.generation in c.link.callbacks)
    && (c.link.transport.None? ==>
          c.link.generation !in c.link.callbacks && c.link.pollTask.None? && c.link.deferralTask.None?)
    && (forall g :: g in c.link.callbacks ==> 1 <= g <= c.link.generation)
    && (begun ==> c.link.didLoad)
  }

  /** A client between two connections: nothing open, nothing scheduled, nothing published as connected. */
  ghost predicate Detached(c: Client) {
    && c.link.transport.None? && c.link.pollTask.None? && c.link.reconnectTask.None? && c.link.deferralTask.None?
    && c.link.generation !in c.link.callbacks
    && (forall g :: g in c.link.callbacks ==> 1 <= g <= c.link.generation)
  }

  lemma DetachingDetaches(c: Client, begun: bool)
    requires Safe(c, begun)
    ensures Detached(CloseCurrent(ClearTimers(c)))
  {
  }

  lemma DisconnectedIsSafe(c: Client, reason: ErrorText, shed: bool, env: Env, begun: bool)
    requires Detached(CloseCurrent(ClearTimers(c)))
    requires c.link.configuration.Some? && c.link.didLoad && !c.link.stopped && !c.link.suspended
    ensures Safe(Disconnected(c, reason, shed, env), begun)
    ensures Disconnected(c, reason, shed, env).link.transport.None?
    ensures Disconnected(c, reason, shed, env).link.reconnectTask.Some?
  {
  }

  lemma DialIsSafe(c: Client, env: Env)
    requires c.link.configuration.Some? && c.link.didLoad && !c.link.stopped && !c.link.suspended
    requires forall g :: g in c.link.callbacks ==> 1 <= g <= c.link.generation
    requires c.link.transport.None? ==> c.link.generation !in c.link.callbacks
    requires c.link.transport.Some? ==> c.link.transport.value == c.link.generation
    ensures Safe(Dial(c, env), true)
  {
    var c1 := Publish(c, if c.link.attempts == 0 then Connecting else Reconnecting, None, Clear);
    var c2 := c1.(link := c1.link.(reconnectTask := None));
    if !c2.link.configuration.value.saved.urlParses {
      DisconnectedIsSafe(c2, InvalidUrl(c2.link.configuration.value.saved.url), false, env, true);
    }
  }

  /** `open` leaves exactly one of a socket and a pending reconnect, if it may connect at all. */
  lemma OpenIsSafe(c: Client, env: Env)
    requires forall g :: g in c.link.callbacks ==> 1 <= g <= c.link.generation
    requires c.link.stopped || c.link.suspended ==> Detached(c) && c.link.state.status != Connected
    requires c.link.transport.None? ==> c.link.generation !in c.link.callbacks
    requires c.link.transport.Some? ==>
               c.link.transport.value == c.link.generation && c.link.generation in c.link.callbacks
    requires c.link.configuration.None? ==> Detached(c) && c.link.state.status != Connected
    ensures Safe(Open(c, env), true)
  {
    var c1 := LoadPersisted(c);
    if !c1.link.stopped && !c1.link.suspended && c1.link.configuration.Some? {
      DialIsSafe(c1, env);
    }
  }

  lemma GreetingKeepsSafe(c: Client, id: string, ms: int, messages: seq<PooledMessage>, env: Env, begun: bool)
    requires Safe(c, begun) && c.link.transport.Some?
    ensures Safe(GreetedByRelay(c, id, ms, messages, env), begun)
  {
    EmitAllKeepsLink(Publish(HelloAckNoted(c, ms), Connected, Some(id), Clear), messages, env);
  }

  lemma FrameKeepsSafe(c: Client, frame: ServerFrame, env: Env, begun: bool)
    requires Safe(c, begun) && c.link.transport.Some?
    ensures Safe(Received(c, frame, env), begun)
  {
    match frame
    case HelloAck(id, ms, messages) => GreetingKeepsSafe(c, id, ms, messages, env, begun);
    case Message(pooled, ackToken) =>
      if pooled.Some? {
        EmitMessageKeepsLink(c.(link := c.link.(helloAckResetArmed := false)), pooled.value, ackToken, env);
      }
    case AckFrame(ack) =>
    case Ping(id) =>
    case CloseFrame(reason, detail) => CloseKeepsSafe(c, reason, detail, env, begun);
    case AuthChallenge =>
    case Pong =>
    case Undecodable =>
  }

  lemma CloseKeepsSafe(c: Client, reason: CloseReason, detail: Option<string>, env: Env, begun: bool)
    requires Safe(c, begun) && c.link.transport.Some?
    ensures Safe(ClosedByRelay(c, reason, detail, env), begun)
  {
    DetachingDetaches(c, begun);
    match reason
    case Stale =>
      var c1 := CloseCurrent(ClearTimers(c));
      OpenIsSafe(c1.(link := c1.link.(attempts := 0)), env);
    case Unauthorized =>
    case BgResumed =>
    case PoolFull => DisconnectedIsSafe(c, ReasonText(reason, detail), true, env, begun);
    case OtherReason(_) => DisconnectedIsSafe(c, ReasonText(reason, detail), false, env, begun);
  }

  lemma StartKeepsSafe(c: Client, env: Env, begun: bool)
    requires Safe(c, begun)
    ensures Safe(Started(c, env), true)
  {
    var c1 := LoadPersisted(c);
    var c2 := c1.(link := c1.link.(stopped := false, suspended := false, attempts := 0, authRefreshAttempted := false));
    OpenIsSafe(PersistConfiguration(c2), env);
  }

  lemma RevivedDetaches(c: Client, cfg: Configuration, begun: bool)
    requires Safe(c, begun)
    ensures var d := CloseCurrent(ClearTimers(Revived(c, cfg)));
            Detached(d) && !d.link.stopped && !d.link.suspended && d.link.configuration == Some(cfg)
  {
  }

  lemma ReconfigureKeepsSafe(c: Client, cfg: Configuration, env: Env, begun: bool)
    requires Safe(c, begun)
    ensures Safe(Reconfigured(c, cfg, env), true)
  {
    RevivedDetaches(c, cfg, begun);
    OpenIsSafe(CloseCurrent(ClearTimers(Revived(c, cfg))), env);
  }

  lemma LifecycleKeepsSafe(c: Client, e: Event, env: Env, begun: bool)
    requires Safe(c, begun)
    requires e.Stop? || e.Suspend? || e.Resume?
    ensures Safe(HostStep(c, e, env), begun || Begins(c, e))
  {
    if e.Resume? && !c.link.stopped && c.link.suspended {
      OpenIsSafe(c.(link := c.link.(suspended := false, attempts := 0)), env);
    }
  }

  lemma SocketKeepsSafe(c: Client, e: Event, env: Env, begun: bool)
    requires Safe(c, begun) && Enabled(c, e, env)
    requires e.SocketOpened? || e.Inbound? || e.TransportClosed? || e.ReconnectFired?
    ensures Safe(Step(c, e, env), begun)
  {
    match e
    case SocketOpened(g) =>
    case Inbound(g, frame) =>
      if g == c.link.generation {
        FrameKeepsSafe(c, frame, env, begun);
      }
    case TransportClosed(g, code) =>
      if g == c.link.generation {
        DetachingDetaches(c, begun);
        DisconnectedIsSafe(c, SocketClosed(code), false, env, begun);
      }
    case ReconnectFired => OpenIsSafe(c, env);
  }

  lemma FlushKeepsLink(c: Client, mode: T.FlushMode, env: Env)
    ensures FlushReports(c, mode, env).link == c.link && FlushReports(c, mode, env).mail == c.mail
  {
  }

  lemma ReportingKeepsLink(c: Client, m: string, sm: string, s: DeliveryStatus, env: Env)
    ensures var d := FlushReports(Track(c, T.Queue(m, sm, s, "")), T.All, env); d.link == c.link && d.mail == c.mail
  {
    FlushKeepsLink(Track(c, T.Queue(m, sm, s, "")), T.All, env);
  }

  lemma PostDoneKeepsLink(c: Client, event: MessageEvent, accepted: bool, env: Env)
    ensures PostDone(c, event, accepted, env).link == c.link
  {
    ReportingKeepsLink(MarkShown(c, event.id), event.id, event.sinchMessageId, Displayed, env);
  }

  lemma LookedUpKeepsLink(c: Client, event: MessageEvent, epoch: nat, delivered: bool, env: Env)
    ensures LookedUp(c, event, epoch, delivered, env).link == c.link
  {
  }

  lemma TicksKeepLink(c: Client, env: Env)
    ensures PollTick(c, env).link == c.link.(pollTask := Some(env.now + c.link.pollIntervalMs))
    ensures DeferralTick(c, env).link == c.link.(deferralTask := DeferralTick(c, env).link.deferralTask)
  {
    FlushKeepsLink(SendPoll(c), T.ForwardFailureRetryOnly, env);
    FlushKeepsLink(c, T.DeferredOnly, env);
  }

  lemma QuietEventKeepsLink(c: Client, e: Event, env: Env)
    requires IsQuietEvent(e)
    ensures var l := QuietStep(c, e, env).link;
            && l == c.link.(pollTask := l.pollTask, deferralTask := l.deferralTask)
            && (!e.PollFired? ==> l.pollTask == c.link.pollTask)
            && (!e.DeferralFired? ==> l.deferralTask == c.link.deferralTask)
            && (e.PollFired? ==> l.pollTask.Some?)
  {
    match e
    case Report(m, s) => ReportingKeepsLink(c, m, SinchIdFor(c, m), s, env);
    case PostCompleted(event, accepted) => PostDoneKeepsLink(c, event, accepted, env);
    case LookupAnswered(event, epoch, delivered) => LookedUpKeepsLink(c, event, epoch, delivered, env);
    case PollFired => TicksKeepLink(c, env);
    case DeferralFired => TicksKeepLink(c, env);
    case ClearPendingMessages =>
    case SetHandlerRegistered(_) =>
    case PushMarked(_) =>
  }

  lemma QuietKeepsSafe(c: Client, e: Event, env: Env, begun: bool)
    requires Safe(c, begun) && Enabled(c, e, env) && IsQuietEvent(e)
    ensures Safe(QuietStep(c, e, env), begun)
  {
    QuietEventKeepsLink(c, e, env);
  }

  lemma HostKeepsSafe(c: Client, e: Event, env: Env, begun: bool)
    requires Safe(c, begun) && IsHostEvent(e)
    ensures Safe(HostStep(c, e, env), begun || Begins(c, e))
  {
    if e.Start? {
      StartKeepsSafe(c, env, begun);
    } else if e.UpdateConfiguration? {
      ReconfigureKeepsSafe(c, e.configuration, env, begun);
    } else {
      LifecycleKeepsSafe(c, e, env, begun);
    }
  }

  lemma StepKeepsSafe(c: Client, e: Event, env: Env, begun: bool)
    requires Safe(c, begun) && Enabled(c, e, env)
    ensures Safe(Step(c, e, env), begun || Begins(c, e))
  {
    if IsQuietEvent(e) {
      QuietKeepsSafe(c, e, env, begun);
    } else if IsHostEvent(e) {
      HostKeepsSafe(c, e, env, begun);
    } else {
      SocketKeepsSafe(c, e, env, begun);
    }
  }

  /**
   In every run: stopped or suspended means no socket and no timer of any kind; a socket and a pending
   reconnect never coexist; `connected` means a socket and a poll timer; and a client that was asked to
   connect, has a configuration and is neither stopped nor suspended has exactly one of the two.
   */
  lemma {:induction false} NeverWedged(c: Client, moments: seq<Moment>)
    requires Initial(c) && Possible(c, moments)
    ensures Safe(Run(c, moments), Begun(c, moments))
    decreases |moments|
  {
    if moments != [] {
      var n := |moments| - 1;
      PossiblePrefix(c, moments, n);
      NeverWedged(c, moments[..n]);
      StepKeepsSafe(Run(c, moments[..n]), moments[n].event, moments[n].env, Begun(c, moments[..n]));
    }
  }

  // ----- One socket at a time -----

  /**
   Every socket the client has dialled and not closed is the current one: `Dial` installs a socket's callbacks and
   only the client's own close takes them away, so a socket whose peer closed it still counts.
   */
  ghost predicate Sole(c: Client) {
    c.link.callbacks == if c.link.transport.Some? then {c.link.transport.value} else {}
  }

  predicate UrlParses(c: Client) {
    c.link.configuration.Some? && c.link.configuration.value.saved.urlParses
  }

  /** `start` on a client that has a socket: the second one is dialled and the first one is never closed. */
  predicate Doubles(c: Client, e: Event) {
    e.Start? && c.link.transport.Some? && UrlParses(c)
  }

  ghost predicate Attached(c: Client) {
    && (c.link.transport.Some? ==> c.link.transport.value in c.link.callbacks)
    && (forall g :: g in c.link.callbacks ==> 1 <= g <= c.link.generation)
  }

  lemma CloseIsSoleIff(c: Client)
    requires Attached(c)
    ensures Sole(CloseCurrent(c)) <==> Sole(c)
    ensures Attached(CloseCurrent(c))
  {
    if c.link.transport.Some? && Sole(CloseCurrent(c)) {
      var v := c.link.transport.value;
      assert forall g :: g in c.link.callbacks && g != v ==> g in c.link.callbacks - {v};
      assert c.link.callbacks == {v};
    }
  }

  lemma DisconnectedIsSoleIff(c: Client, reason: ErrorText, shed: bool, env: Env)
    requires Attached(c)
    ensures Sole(Disconnected(c, reason, shed, env)) <==> Sole(c)
  {
    CloseIsSoleIff(ClearTimers(c));
  }

  lemma AddedIsAlone(sockets: set<nat>, g: nat)
    requires g !in sockets
    ensures sockets + {g} == {g} <==> sockets == {}
  {
    if sockets + {g} == {g} {
      assert forall h :: h in sockets ==> h in sockets + {g};
    }
  }

  lemma DialOpensSocket(c: Client, env: Env)
    requires UrlParses(c)
    ensures var l, g := Dial(c, env).link, c.link.generation + 1;
            l.transport == Some(g) && l.callbacks == c.link.callbacks + {g}
  {
  }

  lemma FailedDialIsSoleIff(c: Client, env: Env)
    requires Attached(c) && c.link.configuration.Some? && !UrlParses(c)
    ensures Sole(Dial(c, env)) <==> Sole(c)
  {
    var c1 := Publish(c, if c.link.attempts == 0 then Connecting else Reconnecting, None, Clear);
    var c2 := c1.(link := c1.link.(reconnectTask := None));
    DisconnectedIsSoleIff(c2, InvalidUrl(c.link.configuration.value.saved.url), false, env);
  }

  lemma DialIsSoleIff(c: Client, env: Env)
    requires Attached(c) && c.link.configuration.Some?
    ensures Sole(Dial(c, env)) <==> Sole(c) && !(c.link.transport.Some? && UrlParses(c))
  {
    if UrlParses(c) {
      DialOpensSocket(c, env);
      AddedIsAlone(c.link.callbacks, c.link.generation + 1);
    } else {
      FailedDialIsSoleIff(c, env);
    }
  }

  lemma OpenIsSoleIff(c: Client, env: Env)
    requires Attached(c)
    ensures Sole(Open(c, env)) <==>
            Sole(c) && !(!c.link.stopped && !c.link.suspended && c.link.transport.Some? && UrlParses(LoadPersisted(c)))
  {
    var c1 := LoadPersisted(c);
    if !c1.link.stopped && !c1.link.suspended && c1.link.configuration.Some? {
      DialIsSoleIff(c1, env);
    }
  }

  lemma StartIsSoleIff(c: Client, env: Env, begun: bool)
    requires Safe(c, begun)
    ensures Sole(Started(c, env)) <==> Sole(c) && !Doubles(c, Start)
  {
    var c1 := LoadPersisted(c);
    var c2 := c1.(link := c1.link.(stopped := false, suspended := false, attempts := 0, authRefreshAttempted := false));
    OpenIsSoleIff(PersistConfiguration(c2), env);
  }

  lemma HostIsSoleIff(c: Client, e: Event, env: Env, begun: bool)
    requires Safe(c, begun) && IsHostEvent(e)
    ensures Sole(HostStep(c, e, env)) <==> Sole(c) && !Doubles(c, e)
  {
    match e
    case Start => StartIsSoleIff(c, env, begun);
    case Stop =>
      CloseIsSoleIff(ClearTimers(c.(link := c.link.(stopped := true, sessionEpoch := c.link.sessionEpoch + 1,
          suspended := false))));
    case Suspend => CloseIsSoleIff(ClearTimers(c.(link := c.link.(suspended := true))));
    case Resume =>
      if !c.link.stopped && c.link.suspended {
        OpenIsSoleIff(c.(link := c.link.(suspended := false, attempts := 0)), env);
      }
    case UpdateConfiguration(cfg) =>
      CloseIsSoleIff(ClearTimers(Revived(c, cfg)));
      RevivedDetaches(c, cfg, begun);
      OpenIsSoleIff(CloseCurrent(ClearTimers(Revived(c, cfg))), env);
  }

  lemma CloseFrameIsSoleIff(c: Client, reason: CloseReason, detail: Option<string>, env: Env, begun: bool)
    requires Safe(c, begun) && c.link.transport.Some?
    ensures Sole(ClosedByRelay(c, reason, detail, env)) <==> Sole(c)
  {
    match reason
    case Stale =>
      CloseIsSoleIff(ClearTimers(c));
      var c1 := CloseCurrent(ClearTimers(c));
      OpenIsSoleIff(c1.(link := c1.link.(attempts := 0)), env);
    case Unauthorized =>
      CloseIsSoleIff(ClearTimers(c.(link := c.link.(stopped := true, sessionEpoch := c.link.sessionEpoch + 1))));
    case BgResumed =>
      CloseIsSoleIff(ClearTimers(c.(link := c.link.(stopped := true, sessionEpoch := c.link.sessionEpoch + 1))));
    case PoolFull => DisconnectedIsSoleIff(c, ReasonText(reason, detail), true, env);
    case OtherReason(_) => DisconnectedIsSoleIff(c, ReasonText(reason, detail), false, env);
  }

  /** Every other frame leaves the sockets alone. */
  lemma FrameKeepsSockets(c: Client, frame: ServerFrame, env: Env)
    requires !frame.CloseFrame?
    ensures var l := Received(c, frame, env).link;
            && l.transport == c.link.transport && l.callbacks == c.link.callbacks
            && l.generation == c.link.generation
  {
    match frame
    case HelloAck(id, ms, messages) =>
      EmitAllKeepsLink(Publish(HelloAckNoted(c, ms), Connected, Some(id), Clear), messages, env);
    case Message(pooled, ackToken) =>
      if pooled.Some? {
        EmitMessageKeepsLink(c.(link := c.link.(helloAckResetArmed := false)), pooled.value, ackToken, env);
      }
    case AckFrame(ack) =>
    case Ping(id) =>
    case AuthChallenge =>
    case Pong =>
    case Undecodable =>
  }

  lemma SocketIsSoleIff(c: Client, e: Event, env: Env, begun: bool)
    requires Safe(c, begun) && Enabled(c, e, env)
    requires e.SocketOpened? || e.Inbound? || e.TransportClosed? || e.ReconnectFired?
    ensures Sole(Step(c, e, env)) <==> Sole(c)
  {
    match e
    case SocketOpened(g) =>
    case Inbound(g, frame) =>
      if g == c.link.generation {
        if frame.CloseFrame? {
          CloseFrameIsSoleIff(c, frame.reason, frame.detail, env, begun);
        } else {
          FrameKeepsSockets(c, frame, env);
        }
      }
    case TransportClosed(g, code) =>
      if g == c.link.generation {
        DisconnectedIsSoleIff(c, SocketClosed(code), false, env);
      }
    case ReconnectFired => OpenIsSoleIff(c, env);
  }

  /** A step leaves no socket behind unclosed exactly when it is not a `start` on a client that has one. */
  lemma StepIsSoleIff(c: Client, e: Event, env: Env, begun: bool)
    requires Safe(c, begun) && Enabled(c, e, env)
    ensures Sole(Step(c, e, env)) <==> Sole(c) && !Doubles(c, e)
  {
    if IsQuietEvent(e) {
      QuietEventKeepsLink(c, e, env);
    } else if IsHostEvent(e) {
      HostIsSoleIff(c, e, env, begun);
    } else {
      SocketIsSoleIff(c, e, env, begun);
    }
  }

  predicate EverDoubled(c: Client, moments: seq<Moment>) {
    moments != []
    && (EverDoubled(c, moments[..|moments| - 1])
        || Doubles(Run(c, moments[..|moments| - 1]), moments[|moments| - 1].event))
  }

  /** Over every run, no dialled socket but the current one is left unclosed exactly when `start` never met a socket. */
  lemma {:induction false} OneSocketIff(c: Client, moments: seq<Moment>)
    requires Initial(c) && Possible(c, moments)
    ensures Sole(Run(c, moments)) <==> !EverDoubled(c, moments)
    decreases |moments|
  {
    if moments != [] {
      var n := |moments| - 1;
      PossiblePrefix(c, moments, n);
      OneSocketIff(c, moments[..n]);
      NeverWedged(c, moments[..n]);
      var before, last := Run(c, moments[..n]), moments[n];
      assert Enabled(before, last.event, last.env);
      StepIsSoleIff(before, last.event, last.env, Begun(c, moments[..n]));
    }
  }

  lemma StartDials(c: Client, env: Env)
    requires UrlParses(c)
    ensures var l, g := Started(c, env).link, c.link.generation + 1;
            && l.transport == Some(g) && l.generation == g && l.callbacks == c.link.callbacks + {g}
            && UrlParses(Started(c, env))
  {
    var c1 := LoadPersisted(c);
    var c2 := c1.(link := c1.link.(stopped := false, suspended := false, attempts := 0,
        authRefreshAttempted := false));
    DialOpensSocket(PersistConfiguration(c2), env);
  }

  lemma RunOfTwo(c: Client, a: Moment, b: Moment)
    ensures Run(c, [a, b]) == Step(Step(c, a.event, a.env), b.event, b.env)
  {
    assert [a, b][..1] == [a] && [a][..0] == [];
    assert Run(c, [a]) == Step(Run(c, []), a.event, a.env);
  }

  lemma SecondStart(c: Client, first: Env, second: Env, d: Client)
    requires Initial(c) && UrlParses(c) && d == Started(Started(c, first), second)
    ensures d.link.transport == Some(2) && d.link.generation == 2 && d.link.callbacks == {1, 2}
  {
    StartDials(c, first);
    StartDials(Started(c, first), second);
  }

  lemma ReplacedSocketIsIgnored(c: Client, socket: nat, code: int, env: Env)
    requires socket in c.link.callbacks && socket != c.link.generation
    ensures Enabled(c, TransportClosed(socket, code), env) && Step(c, TransportClosed(socket, code), env) == c
  {
  }

  /** Two starts leave the first socket unclosed, and nothing its peer does to it later changes that. */
  lemma TwoStartsLeaveOne(c: Client, first: Env, second: Env, d: Client, code: int, later: Env)
    requires Initial(c) && UrlParses(c) && d == Run(c, [Moment(Start, first), Moment(Start, second)])
    ensures d.link.transport == Some(2) && d.link.callbacks == {1, 2} && !Sole(d)
    ensures Enabled(d, TransportClosed(1, code), later) && Step(d, TransportClosed(1, code), later) == d
  {
    RunOfTwo(c, Moment(Start, first), Moment(Start, second));
    SecondStart(c, first, second, d);
    assert 1 in d.link.callbacks;
    ReplacedSocketIsIgnored(d, 1, code, later);
  }
}

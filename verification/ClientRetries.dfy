/** The client's retry timers: deferred reports, and the reconnect budget under load shedding. */
module ClientRetries {
  import opened Common
  import opened SocketTypes
  import opened ClientSpec
  import opened ClientRuns
  import opened ClientReports
  import T = TrackerSpec
  import TR = TrackerRuns
  import Backoff

  // ----- Deferred reports -----

  /** When the deferral timer was last set, and whether it was an Ack that set it. */
  datatype Arming = Arming(at: int, byAck: bool)

  /** The handshake, every Ack and the timer itself set it anew. */
  predicate Rearms(c: Client, e: Event) {
    e.DeferralFired? || (e.Inbound? && e.from == c.link.generation && (e.frame.HelloAck? || e.frame.AckFrame?))
  }

  function LastArming(c: Client, moments: seq<Moment>): Option<Arming> {
    if moments == [] then None
    else
      var before, last := moments[..|moments| - 1], moments[|moments| - 1];
      if Rearms(Run(c, before), last.event)
      then Some(Arming(last.env.now, last.event.Inbound? && last.event.frame.AckFrame?))
      else LastArming(c, before)
  }

  /** A timer will fire no later than the deadline. */
  predicate Timed(c: Client, deadline: int) {
    c.link.deferralTask.Some? && c.link.deferralTask.value <= deadline
  }

  predicate Waits(c: Client, e: PendingReport) {
    e in c.tracker.pending && e.deferUntilMs.Some?
  }

  /**
   While connected: the timer lies after the last arming; a deadline after it is timed; and one up to it that is
   not on the wire was passed over by an Ack.
   */
  ghost predicate Armed(c: Client, a: Option<Arming>, now: int) {
    c.link.state.status == Connected ==>
      && a.Some? && a.value.at <= now
      && (c.link.deferralTask.Some? ==> c.link.deferralTask.value > a.value.at)
      && forall e :: Waits(c, e) ==>
           && (e.deferUntilMs.value > a.value.at ==> Timed(c, e.deferUntilMs.value))
           && (e.deferUntilMs.value <= a.value.at && e.SentKey() !in c.tracker.inFlight ==> a.value.byAck)
  }

  /** No deferred entry that is due is left off the wire. */
  ghost predicate DueIsOut(c: Client, now: int) {
    forall e :: Waits(c, e) && e.deferUntilMs.value <= now ==> e.SentKey() in c.tracker.inFlight
  }

  lemma ArmingArms(c: Client, env: Env, byAck: bool)
    requires byAck || DueIsOut(c, env.now)
    ensures Armed(ArmDeferral(c, env), Some(Arming(env.now, byAck)), env.now)
    ensures ArmDeferral(c, env).link.deferralTask == T.NextDeferral(c.tracker.pending, env.now)
  {
    TR.NextDeferralIsLeast(c.tracker.pending, env.now);
  }

  /** A flush of everything, or of the deferred, puts every due entry on the wire. */
  lemma FlushSendsDue(c: Client, mode: T.FlushMode, env: Env)
    requires c.link.state.status == Connected && c.link.transport.Some? && !mode.ForwardFailureRetryOnly?
    ensures DueIsOut(FlushReports(c, mode, env), env.now)
  {
    TR.FlushSendsSelected(c.tracker.pending, c.tracker.inFlight, env.now, mode);
    forall e | Waits(c, e) && e.deferUntilMs.value <= env.now && e.SentKey() !in c.tracker.inFlight
      ensures e.SentKey() in T.Keys(T.ToSend(c.tracker.pending, c.tracker.inFlight, env.now, mode))
    {
      assert e in T.ToSend(c.tracker.pending, c.tracker.inFlight, env.now, mode);
    }
  }

  /** Between the two clients deadlines are only ever dropped, and keys only go in flight. */
  ghost predicate NoNewDeadline(c: Client, d: Client) {
    && (forall e :: e in d.tracker.pending && e.deferUntilMs.Some? ==> e in c.tracker.pending)
    && c.tracker.inFlight <= d.tracker.inFlight
  }

  lemma QueueAndFlushAddNoDeadline(c: Client, op: T.Op, mode: T.FlushMode, env: Env)
    requires op.Queue?
    ensures NoNewDeadline(c, Track(c, op))
    ensures NoNewDeadline(c, FlushReports(Track(c, op), mode, env))
  {
  }

  lemma EmitMessageAddsNoDeadline(c: Client, pooled: PooledMessage, ackToken: string, env: Env)
    ensures NoNewDeadline(c, EmitMessage(c, pooled, ackToken, env))
  {
    var id := pooled.messageId;
    if id != "" {
      QueueAndFlushAddNoDeadline(c, T.Queue(id, pooled.sinchMessageId, Delivered, ""), T.All, env);
    }
  }

  /** The timer stays, no deadline is added and no key comes back: what was armed stays armed as time passes. */
  lemma StillArmed(c: Client, d: Client, a: Option<Arming>, was: int, now: int)
    requires Armed(c, a, was) && was <= now && NoNewDeadline(c, d)
    requires d.link.state == c.link.state && d.link.deferralTask == c.link.deferralTask
    ensures Armed(d, a, now)
  {
    forall e | Waits(d, e)
      ensures Waits(c, e)
    {
    }
  }

  lemma PostDoneAddsNoDeadline(c: Client, event: MessageEvent, accepted: bool, env: Env)
    ensures NoNewDeadline(c, PostDone(c, event, accepted, env))
  {
    var c1 := MarkShown(c, event.id);
    QueueAndFlushAddNoDeadline(c1, T.Queue(event.id, event.sinchMessageId, Displayed, ""), T.All, env);
  }

  lemma PollTickAddsNoDeadline(c: Client, env: Env)
    ensures NoNewDeadline(c, PollTick(c, env))
  {
  }

  lemma LookedUpAddsNoDeadline(c: Client, event: MessageEvent, epoch: nat, delivered: bool, env: Env)
    ensures NoNewDeadline(c, LookedUp(c, event, epoch, delivered, env))
  {
  }

  lemma QuietEventAddsNoDeadline(c: Client, e: Event, env: Env)
    requires IsQuietEvent(e) && !e.DeferralFired?
    ensures NoNewDeadline(c, QuietStep(c, e, env))
  {
    match e
    case Report(m, s) => QueueAndFlushAddNoDeadline(c, T.Queue(m, SinchIdFor(c, m), s, ""), T.All, env);
    case PostCompleted(event, accepted) => PostDoneAddsNoDeadline(c, event, accepted, env);
    case LookupAnswered(event, epoch, delivered) => LookedUpAddsNoDeadline(c, event, epoch, delivered, env);
    case PollFired => PollTickAddsNoDeadline(c, env);
    case ClearPendingMessages =>
    case SetHandlerRegistered(_) =>
    case PushMarked(_) =>
  }

  /** What one event makes of the last arming. */
  function ArmingAfter(c: Client, e: Event, env: Env, a: Option<Arming>): Option<Arming> {
    if Rearms(c, e) then Some(Arming(env.now, e.Inbound? && e.frame.AckFrame?)) else a
  }

  lemma FiringArms(c: Client, env: Env, begun: bool)
    requires Safe(c, begun)
    ensures Armed(DeferralTick(c, env), Some(Arming(env.now, false)), env.now)
  {
    if c.link.state.status == Connected {
      FlushSendsDue(c, T.DeferredOnly, env);
      ArmingArms(FlushReports(c, T.DeferredOnly, env), env, false);
    } else {
      FlushKeepsLink(c, T.DeferredOnly, env);
    }
  }

  lemma QuietEventKeepsArmed(c: Client, e: Event, env: Env, a: Option<Arming>, was: int, begun: bool)
    requires Safe(c, begun) && Armed(c, a, was) && was <= env.now && IsQuietEvent(e)
    ensures Armed(QuietStep(c, e, env), ArmingAfter(c, e, env, a), env.now)
  {
    if e.DeferralFired? {
      FiringArms(c, env, begun);
    } else {
      QuietEventKeepsLink(c, e, env);
      QuietEventAddsNoDeadline(c, e, env);
      StillArmed(c, QuietStep(c, e, env), a, was, env.now);
    }
  }

  lemma DisconnectedIsNotConnected(c: Client, reason: ErrorText, shed: bool, env: Env)
    requires !c.link.stopped && !c.link.suspended
    ensures Disconnected(c, reason, shed, env).link.state.status == Reconnecting
  {
  }

  lemma DialIsNotConnected(c: Client, env: Env)
    requires c.link.configuration.Some? && !c.link.stopped && !c.link.suspended
    ensures Dial(c, env).link.state.status in {Connecting, Reconnecting}
  {
    var c1 := Publish(c, if c.link.attempts == 0 then Connecting else Reconnecting, None, Clear);
    var c2 := c1.(link := c1.link.(reconnectTask := None));
    if !c2.link.configuration.value.saved.urlParses {
      DisconnectedIsNotConnected(c2, InvalidUrl(c2.link.configuration.value.saved.url), false, env);
    }
  }

  lemma OpenIsNotConnected(c: Client, env: Env)
    requires c.link.state.status == Connected ==> c.link.configuration.Some? && !c.link.stopped && !c.link.suspended
    ensures Open(c, env).link.state.status != Connected
  {
    var c1 := LoadPersisted(c);
    if !c1.link.stopped && !c1.link.suspended && c1.link.configuration.Some? {
      DialIsNotConnected(c1, env);
    }
  }

  lemma GreetingKeepsArmed(c: Client, id: string, ms: int, messages: seq<PooledMessage>, env: Env)
    requires c.link.transport.Some?
    ensures Armed(GreetedByRelay(c, id, ms, messages, env), Some(Arming(env.now, false)), env.now)
  {
    var c1 := Publish(HelloAckNoted(c, ms), Connected, Some(id), Clear);
    EmitAllKeepsLink(c1, messages, env);
    var c2 := SendPoll(StartPolling(EmitAll(c1, messages, env), env));
    FlushSendsDue(c2, T.All, env);
    ArmingArms(FlushReports(c2, T.All, env), env, false);
  }

  lemma MessageKeepsArmed(c: Client, pooled: Option<PooledMessage>, ackToken: string, env: Env, a: Option<Arming>,
      was: int)
    requires Armed(c, a, was) && was <= env.now
    ensures Armed(Received(c, Message(pooled, ackToken), env), a, env.now)
  {
    var c1 := c.(link := c.link.(helloAckResetArmed := false));
    if pooled.Some? {
      EmitMessageAddsNoDeadline(c1, pooled.value, ackToken, env);
      EmitMessageKeepsLink(c1, pooled.value, ackToken, env);
    }
    StillArmed(c, Received(c, Message(pooled, ackToken), env), a, was, env.now);
  }

  lemma AckKeepsArmed(c: Client, ack: T.Ack, env: Env)
    ensures Armed(Answered(c, ack, env), Some(Arming(env.now, true)), env.now)
  {
    var outcome := T.OutcomeOf(c.tracker, ack);
    var c1 := Track(c, T.HandleAck(ack, env.now, env.draw));
    var c2 := if outcome.Rejected? then RejectionRecorded(c1, T.RejectionText(ack))
              else if outcome.Accepted? then c1.(link := c1.link.(helloAckResetArmed := false))
              else c1;
    ArmingArms(c2, env, true);
  }

  lemma FrameKeepsArmed(c: Client, g: nat, frame: ServerFrame, env: Env, a: Option<Arming>, was: int, begun: bool)
    requires Safe(c, begun) && c.link.transport.Some? && g == c.link.generation
    requires Armed(c, a, was) && was <= env.now
    ensures Armed(Received(c, frame, env), ArmingAfter(c, Inbound(g, frame), env, a), env.now)
  {
    match frame
    case HelloAck(id, ms, messages) => GreetingKeepsArmed(c, id, ms, messages, env);
    case Message(pooled, ackToken) => MessageKeepsArmed(c, pooled, ackToken, env, a, was);
    case AckFrame(ack) => AckKeepsArmed(c, ack, env);
    case CloseFrame(reason, detail) => CloseLeavesConnected(c, reason, detail, env, begun);
    case Ping(id) => StillArmed(c, Received(c, frame, env), a, was, env.now);
    case AuthChallenge => StillArmed(c, c, a, was, env.now);
    case Pong => StillArmed(c, c, a, was, env.now);
    case Undecodable => StillArmed(c, c, a, was, env.now);
  }

  lemma CloseLeavesConnected(c: Client, reason: CloseReason, detail: Option<string>, env: Env, begun: bool)
    requires Safe(c, begun) && c.link.transport.Some?
    ensures ClosedByRelay(c, reason, detail, env).link.state.status != Connected
  {
    match reason
    case Stale =>
      var c1 := CloseCurrent(ClearTimers(c));
      OpenIsNotConnected(c1.(link := c1.link.(attempts := 0)), env);
    case Unauthorized =>
    case BgResumed =>
    case PoolFull => DisconnectedIsNotConnected(c, ReasonText(reason, detail), true, env);
    case OtherReason(_) => DisconnectedIsNotConnected(c, ReasonText(reason, detail), false, env);
  }

  lemma StartLeavesConnected(c: Client, env: Env, begun: bool)
    requires Safe(c, begun)
    ensures Started(c, env).link.state.status != Connected
  {
    var c1 := LoadPersisted(c);
    var c2 := c1.(link := c1.link.(stopped := false, suspended := false, attempts := 0, authRefreshAttempted := false));
    OpenIsNotConnected(PersistConfiguration(c2), env);
  }

  lemma ReconfigureLeavesConnected(c: Client, cfg: Configuration, env: Env, begun: bool)
    requires Safe(c, begun)
    ensures Reconfigured(c, cfg, env).link.state.status != Connected
  {
    RevivedDetaches(c, cfg, begun);
    OpenIsNotConnected(CloseCurrent(ClearTimers(Revived(c, cfg))), env);
  }

  lemma LifecycleLeavesConnected(c: Client, e: Event, env: Env, begun: bool)
    requires Safe(c, begun)
    requires e.Stop? || e.Suspend? || e.Resume?
    requires HostStep(c, e, env).link.state.status == Connected
    ensures HostStep(c, e, env) == c
  {
    if e.Resume? && !c.link.stopped && c.link.suspended {
      OpenIsNotConnected(c.(link := c.link.(suspended := false, attempts := 0)), env);
    }
  }

  lemma HostKeepsArmed(c: Client, e: Event, env: Env, a: Option<Arming>, was: int, begun: bool)
    requires Safe(c, begun) && Armed(c, a, was) && was <= env.now && IsHostEvent(e)
    ensures Armed(HostStep(c, e, env), a, env.now)
  {
    if e.Start? {
      StartLeavesConnected(c, env, begun);
    } else if e.UpdateConfiguration? {
      ReconfigureLeavesConnected(c, e.configuration, env, begun);
    } else if HostStep(c, e, env).link.state.status == Connected {
      LifecycleLeavesConnected(c, e, env, begun);
      StillArmed(c, c, a, was, env.now);
    }
  }

  lemma SocketKeepsArmed(c: Client, e: Event, env: Env, a: Option<Arming>, was: int, begun: bool)
    requires Safe(c, begun) && Enabled(c, e, env) && Armed(c, a, was) && was <= env.now
    requires !IsQuietEvent(e) && !IsHostEvent(e)
    ensures Armed(Step(c, e, env), ArmingAfter(c, e, env, a), env.now)
  {
    match e
    case SocketOpened(g) => StillArmed(c, Step(c, e, env), a, was, env.now);
    case Inbound(g, frame) =>
      if g == c.link.generation {
        FrameKeepsArmed(c, g, frame, env, a, was, begun);
      } else {
        StillArmed(c, c, a, was, env.now);
      }
    case TransportClosed(g, code) =>
      if g == c.link.generation {
        DisconnectedIsNotConnected(c, SocketClosed(code), false, env);
      } else {
        StillArmed(c, c, a, was, env.now);
      }
    case ReconnectFired => OpenIsNotConnected(c, env);
  }

  lemma StepKeepsArmed(c: Client, e: Event, env: Env, a: Option<Arming>, was: int, begun: bool)
    requires Safe(c, begun) && Enabled(c, e, env)
    requires Armed(c, a, was) && was <= env.now
    ensures Armed(Step(c, e, env), ArmingAfter(c, e, env, a), env.now)
  {
    if IsQuietEvent(e) {
      QuietEventKeepsArmed(c, e, env, a, was, begun);
    } else if IsHostEvent(e) {
      HostKeepsArmed(c, e, env, a, was, begun);
    } else {
      SocketKeepsArmed(c, e, env, a, was, begun);
    }
  }

  lemma {:induction false} RunIsArmed(c: Client, moments: seq<Moment>)
    requires Initial(c) && Possible(c, moments) && moments != []
    ensures Armed(Run(c, moments), LastArming(c, moments), moments[|moments| - 1].env.now)
    decreases |moments|
  {
    var n := |moments| - 1;
    PossiblePrefix(c, moments, n);
    NeverWedged(c, moments[..n]);
    if n > 0 {
      RunIsArmed(c, moments[..n]);
    }
    var was := if n > 0 then moments[n - 1].env.now else moments[n].env.now;
    StepKeepsArmed(Run(c, moments[..n]), moments[n].event, moments[n].env, LastArming(c, moments[..n]), was,
                   Begun(c, moments[..n]));
  }

  /**
   Which deferred reports have no timer, over every run: while the client is connected, a report's deadline is timed
   exactly when it lies after the last moment the timer was set; and one that is not on the wire is untimed exactly
   when that moment was an Ack handled at or after the deadline. The report's own Ack with a zero draw is one such
   Ack; any other Ack handled at the deadline, ahead of the timer's callback, is another.
   */
  lemma UntimedIff(c: Client, moments: seq<Moment>, e: PendingReport)
    requires Initial(c) && Possible(c, moments) && moments != []
    requires Run(c, moments).link.state.status == Connected && Waits(Run(c, moments), e)
    ensures var d, a := Run(c, moments), LastArming(c, moments);
            && a.Some?
            && (Timed(d, e.deferUntilMs.value) <==> e.deferUntilMs.value > a.value.at)
            && (e.SentKey() !in d.tracker.inFlight ==>
                  (!Timed(d, e.deferUntilMs.value) <==> a.value.byAck && e.deferUntilMs.value <= a.value.at))
  {
    RunIsArmed(c, moments);
  }

  /** So no future deferral is stranded: a deadline strictly in the future is timed. */
  lemma NoDeferralStranded(c: Client, moments: seq<Moment>)
    requires Initial(c) && Possible(c, moments) && moments != []
    ensures var d, now := Run(c, moments), moments[|moments| - 1].env.now;
            d.link.state.status == Connected ==>
              forall e :: Waits(d, e) && e.deferUntilMs.value > now ==> Timed(d, e.deferUntilMs.value)
  {
    RunIsArmed(c, moments);
  }

  /** An untimed due report leaves with the next flush of everything or of the deferred; poll ticks never send it. */
  lemma DueReportLeavesIff(t: T.Tracker, e: PendingReport, now: int, mode: T.FlushMode)
    requires e in t.pending && e.deferUntilMs.Some? && e.deferUntilMs.value <= now && e.SentKey() !in t.inFlight
    requires TR.DistinctKeys(t.pending)
    ensures e.SentKey() in TR.Sent(t, T.Flush(now, mode)) <==> !mode.ForwardFailureRetryOnly?
  {
    TR.FlushSendsSelected(t.pending, t.inFlight, now, mode);
    var sends := T.ToSend(t.pending, t.inFlight, now, mode);
    if e.SentKey() in T.Keys(sends) {
      var x :| x in sends && x.SentKey() == e.SentKey();
      var i :| 0 <= i < |t.pending| && t.pending[i] == x;
      var j :| 0 <= j < |t.pending| && t.pending[j] == e;
      assert i == j;
    }
    if !mode.ForwardFailureRetryOnly? {
      assert e in sends;
    }
  }

  /** An Ack for something else, or for nothing, handled when a report is due: its timer goes and it stays put. */
  lemma AckPassesOverDue(c: Client, ack: T.Ack, env: Env, e: PendingReport)
    requires TR.Inv(c.tracker) && Waits(c, e) && e.deferUntilMs.value <= env.now
    requires e.SentKey() !in c.tracker.inFlight && ack.token != e.SentKey()
    ensures var d := Answered(c, ack, env);
            && Waits(d, e) && e.SentKey() !in d.tracker.inFlight && !Timed(d, e.deferUntilMs.value)
            && d.trace == c.trace + [T.HandleAck(ack, env.now, env.draw)]
  {
    AnsweredTimer(c, ack, env);
    TR.NextDeferralIsLeast(Answered(c, ack, env).tracker.pending, env.now);
    OtherAckKeepsEntry(c.tracker, ack, env, e);
  }

  lemma OtherAckReleasesNothingElse(t: T.Tracker, ack: T.Ack, env: Env, key: string)
    ensures T.AfterAck(t, ack, env.now, env.draw).inFlight <= t.inFlight
  {
  }

  lemma OtherEntryStays(pending: seq<PendingReport>, after: seq<PendingReport>, i: nat, e: PendingReport)
    requires TR.DistinctKeys(pending) && TR.OneEntryChanged(pending, after, i)
    requires e in pending && (i < |pending| ==> pending[i] != e)
    ensures e in after
  {
    var k :| 0 <= k < |pending| && pending[k] == e;
    if i < |pending| && after == RemoveAt(pending, i) {
      assert after[if k < i then k else k - 1] == e;
    } else if after != pending {
      assert after[k] == e;
    }
  }

  lemma OtherAckKeepsEntry(t: T.Tracker, ack: T.Ack, env: Env, e: PendingReport)
    requires TR.Inv(t) && e in t.pending && e.SentKey() !in t.inFlight && ack.token != e.SentKey()
    ensures var after := T.AfterAck(t, ack, env.now, env.draw);
            e in after.pending && e.SentKey() !in after.inFlight
  {
    var after := T.AfterAck(t, ack, env.now, env.draw);
    TR.AckChangesOneEntry(t, ack, env.now, env.draw);
    OtherEntryStays(t.pending, after.pending, T.IndexOf(t.pending, ack.token), e);
    OtherAckReleasesNothingElse(t, ack, env, e.SentKey());
  }

  /** When the deferral timer fires on a connected client, every due report not in flight goes out. */
  lemma DeferralFiringSendsDue(c: Client, env: Env, e: PendingReport, begun: bool)
    requires Safe(c, begun) && c.link.state.status == Connected
    requires e in c.tracker.pending && e.SentKey() !in c.tracker.inFlight
    requires e.deferUntilMs.Some? && e.deferUntilMs.value <= env.now
    ensures e.SentKey() in TR.Sent(c.tracker, T.Flush(env.now, T.DeferredOnly))
    ensures Step(c, DeferralFired, env).trace == c.trace + [T.Flush(env.now, T.DeferredOnly)]
  {
    TR.FlushSendsSelected(c.tracker.pending, c.tracker.inFlight, env.now, T.DeferredOnly);
    assert e in T.ToSend(c.tracker.pending, c.tracker.inFlight, env.now, T.DeferredOnly);
  }

  lemma RateLimitedEntry(t: T.Tracker, ack: T.Ack, env: Env, e: PendingReport)
    requires TR.Inv(t) && e in t.pending && ack.token == e.SentKey()
    requires !ack.accepted && ack.error == "rate_limited"
    ensures e.(attempts := e.attempts + 1, deferUntilMs := Some(env.now + Backoff.DelayMs(e.attempts + 1, env.draw)))
            in T.AfterAck(t, ack, env.now, env.draw).pending
  {
    KeyIsNeverEmpty(e.messageId, e.status);
    TR.IndexOfHolds(t.pending, ack.token);
    var i := T.IndexOf(t.pending, ack.token);
    assert t.pending[i] == e;
    var after := T.AfterAck(t, ack, env.now, env.draw).pending;
    assert after[i] in after;
  }

  lemma ArmedTask(c: Client, env: Env)
    ensures ArmDeferral(c, env).link.deferralTask == T.NextDeferral(c.tracker.pending, env.now)
    ensures ArmDeferral(c, env).tracker == c.tracker
  {
    TR.NextDeferralIsLeast(c.tracker.pending, env.now);
  }

  lemma AnsweredTimer(c: Client, ack: T.Ack, env: Env)
    ensures var d := Answered(c, ack, env);
            && d.tracker == T.AfterAck(c.tracker, ack, env.now, env.draw)
            && d.link.deferralTask == T.NextDeferral(d.tracker.pending, env.now)
  {
    var c1 := Track(c, T.HandleAck(ack, env.now, env.draw));
    var outcome := T.OutcomeOf(c.tracker, ack);
    var c2 := if outcome.Rejected? then RejectionRecorded(c1, T.RejectionText(ack))
              else if outcome.Accepted? then c1.(link := c1.link.(helloAckResetArmed := false))
              else c1;
    ArmedTask(c2, env);
  }

  /**
   A report deferred by `rate_limited` is covered by the timer armed for that Ack exactly when its
   jittered delay is not zero: a zero draw leaves it due at once, and no timer is armed for it.
   */
  lemma RateLimitedIsCoveredIff(c: Client, ack: T.Ack, env: Env, e: PendingReport)
    requires TR.Inv(c.tracker) && e in c.tracker.pending && ack.token == e.SentKey()
    requires !ack.accepted && ack.error == "rate_limited"
    ensures var d := Answered(c, ack, env);
            var deferred := e.(attempts := e.attempts + 1,
                               deferUntilMs := Some(env.now + Backoff.DelayMs(e.attempts + 1, env.draw)));
            && deferred in d.tracker.pending
            && ((d.link.deferralTask.Some? && d.link.deferralTask.value <= deferred.deferUntilMs.value)
                <==> Backoff.DelayMs(e.attempts + 1, env.draw) > 0)
  {
    Backoff.DelayInWindow(e.attempts + 1, env.draw);
    RateLimitedEntry(c.tracker, ack, env, e);
    AnsweredTimer(c, ack, env);
    TR.NextDeferralIsLeast(Answered(c, ack, env).tracker.pending, env.now);
  }

  // ----- Timers on the wire -----

  lemma FlushAdded(c: Client, d: Client, control: seq<Output>, reports: seq<PendingReport>, now: int)
    requires c.link.transport.Some? && WireReports(c.out + control) == WireReports(c.out)
    requires d.out == c.out + control + ReportFrames(c.link.transport.value, reports, now)
    ensures Added(c, d) == reports
  {
    FramesCarryReports(c.out + control, c.link.transport.value, reports, now);
  }

  lemma PollCarriesNoReport(out: seq<Output>, socket: nat)
    ensures WireReports(out + [Frame(socket, Poll)]) == WireReports(out)
  {
    assert (out + [Frame(socket, Poll)])[..|out|] == out;
  }

  /** A poll tick on a connected client sends exactly the refused reports that wait for no deadline and no Ack. */
  lemma PollTickSendsIff(c: Client, env: Env, x: PendingReport)
    requires c.link.state.status == Connected && c.link.transport.Some?
    ensures x in Added(c, Step(c, PollFired, env)) <==>
            x in c.tracker.pending && x.SentKey() !in c.tracker.inFlight && x.deferUntilMs == None && x.attempts >= 1
  {
    var g := c.link.transport.value;
    var reports := T.ToSend(c.tracker.pending, c.tracker.inFlight, env.now, T.ForwardFailureRetryOnly);
    PollCarriesNoReport(c.out, g);
    FlushAdded(c, Step(c, PollFired, env), [Frame(g, Poll)], reports, env.now);
    TR.FlushHandsOutIff(c.tracker.pending, c.tracker.inFlight, env.now, T.ForwardFailureRetryOnly, x);
  }

  /** The deferral timer on a connected client sends exactly the reports whose deadline has passed. */
  lemma DeferralTickSendsIff(c: Client, env: Env, x: PendingReport)
    requires c.link.state.status == Connected && c.link.transport.Some?
    ensures x in Added(c, Step(c, DeferralFired, env)) <==>
            && x in c.tracker.pending && x.SentKey() !in c.tracker.inFlight
            && x.deferUntilMs != None && x.deferUntilMs.value <= env.now
  {
    var reports := T.ToSend(c.tracker.pending, c.tracker.inFlight, env.now, T.DeferredOnly);
    assert c.out + [] == c.out;
    FlushAdded(c, Step(c, DeferralFired, env), [], reports, env.now);
    TR.FlushHandsOutIff(c.tracker.pending, c.tracker.inFlight, env.now, T.DeferredOnly, x);
  }

  /** An `upstream_forward_failed` answer on a connected client: the next poll tick sends the report again. */
  lemma ForwardFailureIsRetried(c: Client, ack: T.Ack, env: Env, tick: Env, e: PendingReport, d: Client)
    requires TR.Inv(c.tracker) && c.link.state.status == Connected && c.link.transport.Some?
    requires e in c.tracker.pending && ack.token == e.SentKey() && e.attempts < 3
    requires !ack.accepted && ack.error == "upstream_forward_failed"
    requires d == Step(c, Inbound(c.link.generation, AckFrame(ack)), env)
    ensures d.link.state.status == Connected && d.link.transport == c.link.transport
    ensures e.(attempts := e.attempts + 1, deferUntilMs := None) in Added(d, Step(d, PollFired, tick))
  {
    var again := e.(attempts := e.attempts + 1, deferUntilMs := None);
    TR.ForwardFailureLeaves(c.tracker, ack, env.now, env.draw, e);
    AnsweredTimer(c, ack, env);
    assert again.SentKey() == e.SentKey() && again.attempts >= 1;
    PollTickSendsIff(d, tick, again);
  }
}

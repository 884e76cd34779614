/** Message delivery: dedupe across the socket and the push path, and the order of effects. */
module ClientMessages {
  import opened Common
  import opened SocketTypes
  import opened ClientSpec
  import opened ClientRuns
  import opened ClientReports
  import T = TrackerSpec
  import TR = TrackerRuns
  import R = SeenRegistries
  import P = PushPresentation
  import SeenSets

  // ----- The registry calls a client run makes -----

  function MarksOf(messages: seq<PooledMessage>): seq<R.Call> {
    if messages == [] then []
    else
      var id := messages[|messages| - 1].messageId;
      MarksOf(messages[..|messages| - 1]) + (if id == "" then [] else [R.Mark(id)])
  }

  function CallsOf(c: Client, e: Event): seq<R.Call> {
    if e.PushMarked? then [R.Mark(e.id)]
    else if e.Inbound? && e.from == c.link.generation then
      match e.frame
      case HelloAck(_, _, messages) => MarksOf(messages)
      case Message(pooled, _) => if pooled.Some? then MarksOf([pooled.value]) else []
      case _ => []
    else []
  }

  function RunCalls(c: Client, moments: seq<Moment>): seq<R.Call> {
    if moments == [] then []
    else
      var n := |moments| - 1;
      RunCalls(c, moments[..n]) + CallsOf(Run(c, moments[..n]), moments[n].event)
  }

  lemma {:induction false} MarksAreNewIds(seen: R.Registry, messages: seq<PooledMessage>)
    ensures R.RunRegistry(seen, MarksOf(messages)) == SeenAfter(seen, messages)
    ensures R.FirstSights(seen, MarksOf(messages)) == NewIds(seen, messages)
    decreases |messages|
  {
    if messages != [] {
      var before := messages[..|messages| - 1];
      MarksAreNewIds(seen, before);
      var calls := MarksOf(messages);
      if messages[|messages| - 1].messageId == "" {
        assert calls == MarksOf(before);
      } else {
        assert calls[..|calls| - 1] == MarksOf(before);
      }
    }
  }

  lemma EmitMessageMarks(c: Client, pooled: PooledMessage, ackToken: string, env: Env)
    ensures EmitMessage(c, pooled, ackToken, env).seen == SeenAfter(c.seen, [pooled])
    ensures NewId(c.seen, pooled) == NewIds(c.seen, [pooled])
  {
    assert [pooled][..0] == [];
    assert SeenAfter(c.seen, []) == c.seen;
    if pooled.messageId != "" {
      var id := pooled.messageId;
      var c1 := AdvanceLastSeen(c.(seen := R.Marked(c.seen, id)), id, pooled.enqueuedAtMs,
          !SeenSets.IsNew(R.Current(c.seen), id));
      FlushKeepsLink(Track(c1, T.Queue(id, pooled.sinchMessageId, Delivered, "")), T.All, env);
    }
  }

  lemma {:induction false} EmitAllMarks(c: Client, messages: seq<PooledMessage>, env: Env)
    ensures EmitAll(c, messages, env).seen == SeenAfter(c.seen, messages)
    decreases |messages|
  {
    if messages != [] {
      var before := messages[..|messages| - 1];
      EmitAllMarks(c, before, env);
      EmitMessageMarks(EmitAll(c, before, env), messages[|messages| - 1], "", env);
      var last := [messages[|messages| - 1]];
      assert last[..0] == [] && SeenAfter(EmitAll(c, before, env).seen, []) == EmitAll(c, before, env).seen;
    }
  }

  lemma DisconnectedKeepsMail(c: Client, reason: ErrorText, shed: bool, env: Env)
    ensures Disconnected(c, reason, shed, env).mail == c.mail
  {
  }

  lemma DialKeepsMail(c: Client, env: Env)
    requires c.link.configuration.Some?
    ensures Dial(c, env).mail == c.mail
  {
    var c1 := Publish(c, if c.link.attempts == 0 then Connecting else Reconnecting, None, Clear);
    var c2 := c1.(link := c1.link.(reconnectTask := None));
    DisconnectedKeepsMail(c2, InvalidUrl(c2.link.configuration.value.saved.url), false, env);
  }

  lemma OpenKeepsSeen(c: Client, env: Env)
    ensures Open(c, env).seen == c.seen
  {
    var c1 := LoadPersisted(c);
    if c1.link.configuration.Some? {
      DialKeepsMail(c1, env);
    }
  }

  lemma ConnectionKeepsSeen(c: Client, e: Event, env: Env)
    requires !e.Inbound? && !IsQuietEvent(e)
    ensures Step(c, e, env).seen == c.seen
  {
    if e.Start? {
      var c1 := LoadPersisted(c);
      var c2 := c1.(link := c1.link.(stopped := false, suspended := false, attempts := 0,
          authRefreshAttempted := false));
      OpenKeepsSeen(PersistConfiguration(c2), env);
    } else if e.Resume? {
      OpenKeepsSeen(c.(link := c.link.(suspended := false, attempts := 0)), env);
    } else if e.UpdateConfiguration? {
      OpenKeepsSeen(CloseCurrent(ClearTimers(Revived(c, e.configuration))), env);
    } else if e.ReconnectFired? {
      OpenKeepsSeen(c, env);
    } else if e.TransportClosed? {
      DisconnectedKeepsMail(c, SocketClosed(e.code), false, env);
    }
  }

  lemma ReportingKeepsSeen(c: Client, m: string, sm: string, s: DeliveryStatus, env: Env)
    ensures FlushReports(Track(c, T.Queue(m, sm, s, "")), T.All, env).seen == c.seen
  {
  }

  lemma QuietEventSeen(c: Client, e: Event, env: Env)
    requires IsQuietEvent(e)
    ensures QuietStep(c, e, env).seen == if e.PushMarked? then R.Marked(c.seen, e.id) else c.seen
  {
    match e
    case Report(m, s) => ReportingKeepsSeen(c, m, SinchIdFor(c, m), s, env);
    case PostCompleted(event, accepted) =>
      ReportingKeepsSeen(MarkShown(c, event.id), event.id, event.sinchMessageId, Displayed, env);
    case LookupAnswered(event, epoch, delivered) =>
    case PollFired =>
    case DeferralFired =>
    case ClearPendingMessages =>
    case SetHandlerRegistered(_) =>
    case PushMarked(_) =>
  }

  lemma CloseKeepsSeen(c: Client, reason: CloseReason, detail: Option<string>, env: Env)
    ensures ClosedByRelay(c, reason, detail, env).seen == c.seen
  {
    match reason
    case Stale =>
      var c1 := CloseCurrent(ClearTimers(c));
      OpenKeepsSeen(c1.(link := c1.link.(attempts := 0)), env);
    case Unauthorized =>
    case BgResumed =>
    case PoolFull => DisconnectedKeepsMail(c, ReasonText(reason, detail), true, env);
    case OtherReason(_) => DisconnectedKeepsMail(c, ReasonText(reason, detail), false, env);
  }

  lemma GreetedSeen(c: Client, id: string, ms: int, messages: seq<PooledMessage>, env: Env)
    ensures GreetedByRelay(c, id, ms, messages, env).seen == SeenAfter(c.seen, messages)
  {
    var c2 := HelloAckNoted(c, ms);
    EmitAllMarks(Publish(c2, Connected, Some(id), Clear), messages, env);
  }

  lemma FrameMarks(c: Client, frame: ServerFrame, env: Env)
    ensures Received(c, frame, env).seen == R.RunRegistry(c.seen, CallsOf(c, Inbound(c.link.generation, frame)))
    ensures FrameIds(c, frame) == R.FirstSights(c.seen, CallsOf(c, Inbound(c.link.generation, frame)))
  {
    match frame
    case HelloAck(id, ms, messages) =>
      GreetedSeen(c, id, ms, messages, env);
      MarksAreNewIds(c.seen, messages);
    case Message(pooled, ackToken) =>
      if pooled.Some? {
        EmitMessageMarks(c.(link := c.link.(helloAckResetArmed := false)), pooled.value, ackToken, env);
        MarksAreNewIds(c.seen, [pooled.value]);
      }
    case CloseFrame(reason, detail) => CloseKeepsSeen(c, reason, detail, env);
    case _ =>
  }

  /** One step makes exactly these registry calls, and tells the host about its own first sights only. */
  lemma StepMarks(c: Client, e: Event, env: Env)
    ensures Step(c, e, env).seen == R.RunRegistry(c.seen, CallsOf(c, e))
    ensures StepIds(c, e) == if e.PushMarked? then [] else R.FirstSights(c.seen, CallsOf(c, e))
  {
    if e.PushMarked? {
      assert [R.Mark(e.id)][..0] == [];
      assert R.RunRegistry(c.seen, []) == c.seen;
    } else if IsQuietEvent(e) {
      QuietEventSeen(c, e, env);
    } else if e.Inbound? {
      if e.from == c.link.generation {
        FrameMarks(c, e.frame, env);
      }
    } else {
      ConnectionKeepsSeen(c, e, env);
    }
  }

  /** `positions` shows that `told` is a subsequence of `sights`. */
  ghost predicate Locates(told: seq<string>, sights: seq<string>, positions: seq<nat>) {
    && |positions| == |told|
    && (forall a :: 0 <= a < |told| ==> positions[a] < |sights| && sights[positions[a]] == told[a])
    && (forall a, b :: 0 <= a < b < |told| ==> positions[a] < positions[b])
  }

  lemma LocatesGrows(told: seq<string>, sights: seq<string>, positions: seq<nat>, more: seq<string>)
      returns (all: seq<nat>)
    requires Locates(told, sights, positions)
    ensures Locates(told, sights + more, positions)
    ensures Locates(told + more, sights + more, all)
  {
    all := positions + seq(|more|, i requires 0 <= i < |more| => |sights| + i);
  }

  lemma {:induction false} RunMarks(c: Client, moments: seq<Moment>)
    ensures Run(c, moments).seen == R.RunRegistry(c.seen, RunCalls(c, moments))
    decreases |moments|
  {
    if moments != [] {
      var n := |moments| - 1;
      RunMarks(c, moments[..n]);
      StepMarks(Run(c, moments[..n]), moments[n].event, moments[n].env);
      P.FirstSightsAppend(c.seen, RunCalls(c, moments[..n]), CallsOf(Run(c, moments[..n]), moments[n].event));
    }
  }

  /** What the last step added to the told ids and to the first-sight log. */
  lemma LastStepAdds(c: Client, moments: seq<Moment>) returns (told: seq<string>, sights: seq<string>)
    requires moments != []
    ensures RunIds(c, moments) == RunIds(c, moments[..|moments| - 1]) + told
    ensures R.FirstSights(c.seen, RunCalls(c, moments)) ==
            R.FirstSights(c.seen, RunCalls(c, moments[..|moments| - 1])) + sights
    ensures told == [] || told == sights
  {
    var n := |moments| - 1;
    var now := Run(c, moments[..n]);
    RunMarks(c, moments[..n]);
    StepMarks(now, moments[n].event, moments[n].env);
    P.FirstSightsAppend(c.seen, RunCalls(c, moments[..n]), CallsOf(now, moments[n].event));
    told := StepIds(now, moments[n].event);
    sights := R.FirstSights(now.seen, CallsOf(now, moments[n].event));
  }

  function Sights(c: Client, moments: seq<Moment>): seq<string> {
    R.FirstSights(c.seen, RunCalls(c, moments))
  }

  lemma {:induction false} ToldAreFirstSights(c: Client, moments: seq<Moment>) returns (positions: seq<nat>)
    ensures Locates(RunIds(c, moments), Sights(c, moments), positions)
    decreases |moments|
  {
    if moments == [] {
      positions := [];
    } else {
      var before := moments[..|moments| - 1];
      var earlier := ToldAreFirstSights(c, before);
      var told, sights := LastStepAdds(c, moments);
      positions := LocatesGrows(RunIds(c, before), Sights(c, before), earlier, sights);
      if told == [] {
        assert RunIds(c, before) + [] == RunIds(c, before);
        positions := earlier;
      }
    }
  }

  /**
   Over any run, with the push path marking ids in the same registry in between, the host is told about
   one message id twice only if at least 2000 other ids were first seen in between, on either channel:
   the told ids are a subsequence of the first-sight log, and equal entries of it are that far apart.
   */
  lemma ToldOnce(c: Client, moments: seq<Moment>) returns (positions: seq<nat>)
    requires Initial(c) && R.Durable(c.seen)
    ensures var told := MessageIds(Run(c, moments).out);
            && Locates(told, Sights(c, moments), positions)
            && forall a, b :: 0 <= a < b < |told| && told[a] == told[b] ==>
                 positions[b] - positions[a] > SeenSets.CAPACITY
  {
    RunTraced(c, moments);
    positions := ToldAreFirstSights(c, moments);
    R.DedupeAgreesWithLog(c.seen, RunCalls(c, moments), "");
    LocatedRepeatsAreFarApart(RunIds(c, moments), R.Current(c.seen), Sights(c, moments), positions, SeenSets.CAPACITY);
  }

  lemma LocatedRepeatsAreFarApart(told: seq<string>, known: seq<string>, sights: seq<string>, positions: seq<nat>,
      n: nat)
    requires Locates(told, sights, positions)
    requires forall p, q :: 0 <= p < q < |known + sights| && (known + sights)[p] == (known + sights)[q] ==> q - p > n
    ensures forall a, b :: 0 <= a < b < |told| && told[a] == told[b] ==> positions[b] - positions[a] > n
  {
    forall a, b | 0 <= a < b < |told| && told[a] == told[b] ensures positions[b] - positions[a] > n {
      var p, q := |known| + positions[a], |known| + positions[b];
      assert (known + sights)[p] == told[a] && (known + sights)[q] == told[b];
    }
  }

  // ----- One message -----

  predicate SilentSince(out: seq<Output>, from: nat) {
    forall i :: from <= i < |out| ==> out[i].Frame? && out[i].frame.DeliveryReport?
  }

  lemma {:induction false} ReportFramesAreReports(socket: nat, reports: seq<PendingReport>, now: int)
    ensures SilentSince(ReportFrames(socket, reports, now), 0)
    ensures |ReportFrames(socket, reports, now)| == |reports|
    ensures forall i :: 0 <= i < |reports| ==>
              ReportFrames(socket, reports, now)[i] == Frame(socket, DeliveryReport(reports[i], now))
    decreases |reports|
  {
    if reports != [] {
      ReportFramesAreReports(socket, reports[..|reports| - 1], now);
    }
  }

  lemma FlushOnlyReports(c: Client, mode: T.FlushMode, env: Env)
    ensures var d := FlushReports(c, mode, env); c.out <= d.out && SilentSince(d.out, |c.out|)
  {
    if c.link.transport.Some? {
      ReportFramesAreReports(c.link.transport.value, T.ToSend(c.tracker.pending, c.tracker.inFlight, env.now, mode),
          env.now);
    }
  }

  lemma AcceptedIsHeld(t: T.Tracker, m: string, sm: string, s: DeliveryStatus)
    requires T.Accepts(t, m, s)
    ensures PendingReport(m, sm, s, "", 0, None) in T.AfterQueue(t, m, sm, s, "").pending
    ensures T.Holds(T.AfterQueue(t, m, sm, s, "").pending, Key(m, s))
  {
    var after := T.AfterQueue(t, m, sm, s, "").pending;
    assert after[|after| - 1] == PendingReport(m, sm, s, "", 0, None);
  }

  /** A dedupe hit is reported like any other message, and nothing else: no event, no lookup. */
  lemma HitOnlyReports(c: Client, pooled: PooledMessage, ackToken: string, env: Env)
    requires !SeenSets.IsNew(R.Current(c.seen), pooled.messageId)
    ensures var d := EmitMessage(c, pooled, ackToken, env);
            && c.out <= d.out && SilentSince(d.out, |c.out|)
            && d.mail.pendingMessages == c.mail.pendingMessages
            && (pooled.messageId != "" && T.Accepts(c.tracker, pooled.messageId, Delivered) ==>
                  T.Holds(d.tracker.pending, Key(pooled.messageId, Delivered)))
  {
    var id := pooled.messageId;
    if id != "" {
      var c1 := AdvanceLastSeen(c.(seen := R.Marked(c.seen, id)), id, pooled.enqueuedAtMs, true);
      var c2 := Track(c1, T.Queue(id, pooled.sinchMessageId, Delivered, ""));
      FlushOnlyReports(c2, T.All, env);
      FlushKeepsLink(c2, T.All, env);
      assert FlushReports(c2, T.All, env).tracker.pending == c2.tracker.pending;
      if T.Accepts(c.tracker, id, Delivered) {
        AcceptedIsHeld(c.tracker, id, pooled.sinchMessageId, Delivered);
      }
    }
  }

  lemma QueuedIsSelected(t: T.Tracker, m: string, sm: string, s: DeliveryStatus, now: int) returns (k: nat)
    requires T.Accepts(t, m, s) && Key(m, s) !in t.inFlight
    ensures var t' := T.AfterQueue(t, m, sm, s, "");
            var reports := T.ToSend(t'.pending, t'.inFlight, now, T.All);
            k < |reports| && reports[k] == PendingReport(m, sm, s, "", 0, None)
  {
    var t' := T.AfterQueue(t, m, sm, s, "");
    AcceptedIsHeld(t, m, sm, s);
    var e := PendingReport(m, sm, s, "", 0, None);
    TR.FlushSendsSelected(t'.pending, t'.inFlight, now, T.All);
    assert T.Selected(e, t'.inFlight, now, T.All);
    k :| 0 <= k < |T.ToSend(t'.pending, t'.inFlight, now, T.All)|
        && T.ToSend(t'.pending, t'.inFlight, now, T.All)[k] == e;
  }

  lemma QueuedThenFlushed(c: Client, m: string, sm: string, s: DeliveryStatus, env: Env, reports: seq<PendingReport>)
    requires c.link.state.status == Connected && c.link.transport.Some?
    requires var t := T.AfterQueue(c.tracker, m, sm, s, ""); reports == T.ToSend(t.pending, t.inFlight, env.now, T.All)
    ensures FlushReports(Track(c, T.Queue(m, sm, s, "")), T.All, env).out ==
            c.out + ReportFrames(c.link.transport.value, reports, env.now)
  {
  }

  lemma FrameAt(out: seq<Output>, socket: nat, reports: seq<PendingReport>, now: int, k: nat) returns (i: nat)
    requires k < |reports|
    ensures |out| <= i < |out + ReportFrames(socket, reports, now)|
    ensures (out + ReportFrames(socket, reports, now))[i] == Frame(socket, DeliveryReport(reports[k], now))
  {
    ReportFramesAreReports(socket, reports, now);
    i := |out| + k;
  }

  /** On a connected socket a report that was just queued goes out with the flush that follows. */
  lemma QueuedReportGoesOut(c: Client, m: string, sm: string, s: DeliveryStatus, env: Env) returns (i: nat)
    requires c.link.state.status == Connected && c.link.transport.Some?
    requires T.Accepts(c.tracker, m, s) && Key(m, s) !in c.tracker.inFlight
    ensures var d := FlushReports(Track(c, T.Queue(m, sm, s, "")), T.All, env);
            && |c.out| <= i < |d.out|
            && d.out[i] == Frame(c.link.transport.value, DeliveryReport(PendingReport(m, sm, s, "", 0, None), env.now))
  {
    var t := T.AfterQueue(c.tracker, m, sm, s, "");
    var reports := T.ToSend(t.pending, t.inFlight, env.now, T.All);
    var k := QueuedIsSelected(c.tracker, m, sm, s, env.now);
    QueuedThenFlushed(c, m, sm, s, env, reports);
    i := FrameAt(c.out, c.link.transport.value, reports, env.now, k);
  }

  /** On a connected socket a report just queued is on the wire after the flush exactly when it is not in flight. */
  lemma QueuedOnWireIff(c: Client, m: string, sm: string, s: DeliveryStatus, env: Env) returns (sent: seq<string>)
    requires c.link.state.status == Connected && c.link.transport.Some? && T.Accepts(c.tracker, m, s)
    ensures WireKeys(FlushReports(Track(c, T.Queue(m, sm, s, "")), T.All, env).out) == WireKeys(c.out) + sent
    ensures Key(m, s) in sent <==> Key(m, s) !in c.tracker.inFlight
  {
    var t := T.AfterQueue(c.tracker, m, sm, s, "");
    var reports := T.ToSend(t.pending, t.inFlight, env.now, T.All);
    sent := KeySeq(reports);
    QueuedThenFlushed(c, m, sm, s, env, reports);
    FramesCarryKeys(c.out, c.link.transport.value, reports, env.now);
    QueuedKeyIff(c.tracker, m, sm, s, env.now, reports);
  }

  lemma FramesCarryKeys(out: seq<Output>, socket: nat, reports: seq<PendingReport>, now: int)
    ensures WireKeys(out + ReportFrames(socket, reports, now)) == WireKeys(out) + KeySeq(reports)
  {
    FramesCarryReports(out, socket, reports, now);
  }

  lemma QueuedKeyIff(
    t: T.Tracker, m: string, sm: string, s: DeliveryStatus, now: int, reports: seq<PendingReport>)
    requires T.Accepts(t, m, s)
    requires var t' := T.AfterQueue(t, m, sm, s, ""); reports == T.ToSend(t'.pending, t'.inFlight, now, T.All)
    ensures Key(m, s) in KeySeq(reports) <==> Key(m, s) !in t.inFlight
  {
    TR.QueuedGoesOutIff(t, m, sm, s, "", now, T.All);
    KeySeqHolds(reports, Key(m, s));
  }

  lemma KeySeqHolds(reports: seq<PendingReport>, key: string)
    ensures key in KeySeq(reports) <==> key in T.Keys(reports)
  {
    forall e | e in reports
      ensures e.SentKey() in KeySeq(reports)
    {
      var k :| 0 <= k < |reports| && reports[k] == e;
      assert KeySeq(reports)[k] == e.SentKey();
    }
  }

  /**
   For a new message on a connected socket the DELIVERED report, with its sinch id and the time, is on the wire before
   the host hears of the message, and by then the id is in the persisted dedupe set.
   */
  lemma ReportPrecedesEvent(c: Client, pooled: PooledMessage, ackToken: string, env: Env) returns (i: nat, j: nat)
    requires c.link.state.status == Connected && c.link.transport.Some?
    requires SeenSets.IsNew(R.Current(c.seen), pooled.messageId)
    requires T.Accepts(c.tracker, pooled.messageId, Delivered)
    requires Key(pooled.messageId, Delivered) !in c.tracker.inFlight
    ensures var d := EmitMessage(c, pooled, ackToken, env);
            && |c.out| <= i < j < |d.out|
            && d.out[i] == Frame(c.link.transport.value, DeliveryReport(
                 PendingReport(pooled.messageId, pooled.sinchMessageId, Delivered, "", 0, None), env.now))
            && d.out[j].OnMessage? && d.out[j].event.id == pooled.messageId
            && d.seen.stored == SeenSets.Inserted(R.Current(c.seen), SeenSets.CAPACITY, pooled.messageId)
  {
    var id := pooled.messageId;
    var c1 := AdvanceLastSeen(c.(seen := R.Marked(c.seen, id)), id, pooled.enqueuedAtMs, false);
    i := QueuedReportGoesOut(c1, id, pooled.sinchMessageId, Delivered, env);
    var c2 := FlushReports(Track(c1, T.Queue(id, pooled.sinchMessageId, Delivered, "")), T.All, env);
    FlushKeepsLink(Track(c1, T.Queue(id, pooled.sinchMessageId, Delivered, "")), T.All, env);
    j := |c2.out|;
    PresentAppends(c2, MessageEvent(id, pooled.sinchMessageId, ackToken, pooled.enqueuedAtMs, env.now, false));
  }

  lemma PresentAppends(c: Client, event: MessageEvent)
    ensures var d := Present(c, event);
            c.out <= d.out && |d.out| > |c.out| && d.out[|c.out|] == OnMessage(event) && d.seen == c.seen
  {
  }

  // ----- Reports of the host -----

  lemma ReportingGoesOut(c: Client, m: string, sm: string, s: DeliveryStatus, env: Env, d: Client)
    returns (sent: seq<string>)
    requires T.Accepts(c.tracker, m, s) && d == FlushReports(Track(c, T.Queue(m, sm, s, "")), T.All, env)
    ensures PendingReport(m, sm, s, "", 0, None) in d.tracker.pending && WireKeys(d.out) == WireKeys(c.out) + sent
    ensures Key(m, s) in sent <==>
            c.link.state.status == Connected && c.link.transport.Some? && Key(m, s) !in c.tracker.inFlight
  {
    AcceptedIsHeld(c.tracker, m, sm, s);
    assert d.tracker.pending == T.AfterQueue(c.tracker, m, sm, s, "").pending;
    if c.link.state.status == Connected && c.link.transport.Some? {
      sent := QueuedOnWireIff(c, m, sm, s, env);
    } else {
      sent := [];
      assert WireKeys(c.out) + [] == WireKeys(c.out);
    }
  }

  /** What the host reports is queued under that id and status, and on a connected socket sent unless in flight. */
  lemma HostReportGoesOut(c: Client, m: string, s: DeliveryStatus, env: Env, d: Client) returns (sent: seq<string>)
    requires T.Accepts(c.tracker, m, s) && d == Step(c, Report(m, s), env)
    ensures PendingReport(m, SinchIdFor(c, m), s, "", 0, None) in d.tracker.pending
        && WireKeys(d.out) == WireKeys(c.out) + sent
    ensures Key(m, s) in sent <==>
            c.link.state.status == Connected && c.link.transport.Some? && Key(m, s) !in c.tracker.inFlight
  {
    sent := ReportingGoesOut(c, m, SinchIdFor(c, m), s, env, d);
  }

  /** A notification the system took is reported as displayed, in the same way. */
  lemma PostedIsReported(c: Client, event: MessageEvent, env: Env, d: Client) returns (sent: seq<string>)
    requires T.Accepts(c.tracker, event.id, Displayed) && d == Step(c, PostCompleted(event, true), env)
    ensures PendingReport(event.id, event.sinchMessageId, Displayed, "", 0, None) in d.tracker.pending
    ensures WireKeys(d.out) == WireKeys(c.out) + sent
    ensures Key(event.id, Displayed) in sent <==>
            && c.link.state.status == Connected && c.link.transport.Some?
            && Key(event.id, Displayed) !in c.tracker.inFlight
  {
    sent := ReportingGoesOut(MarkShown(c, event.id), event.id, event.sinchMessageId, Displayed, env, d);
  }
}

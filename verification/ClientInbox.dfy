/** The messages the client keeps for its host, and the notifications it posts for them. */
module ClientInboxes {
  import opened Common
  import opened SocketTypes
  import opened ClientSpec
  import opened ClientRuns
  import opened ClientReports
  import opened ClientCursors
  import opened ClientMessages
  import T = TrackerSpec
  import R = SeenRegistries
  import SeenSets

  // ----- One new message -----

  /** A notification is wanted always, never, or, by default too, only while no handler listens. */
  predicate WantsNotification(c: Client) {
    if c.link.configuration.None? || c.link.configuration.value.saved.display == WhenUnhandled
    then !c.mail.handlerRegistered
    else c.link.configuration.value.saved.display == Always
  }

  /** Up to 200 messages are kept: past that, each new one drops the oldest. */
  function Filing(messages: seq<MessageEvent>, event: MessageEvent): seq<MessageEvent> {
    (messages + [event])[if |messages| < 200 then 0 else 1..]
  }

  /**
   A new message: filed unshown with the relay's fields, on disk as in memory, then told, after nothing but report
   frames; and a look-up in the session's name exactly when a notification is wanted.
   */
  lemma NewMessageShows(c: Client, pooled: PooledMessage, ackToken: string, env: Env, d: Client) returns (k: nat)
    requires SeenSets.IsNew(R.Current(c.seen), pooled.messageId) && d == EmitMessage(c, pooled, ackToken, env)
    ensures var event :=
              MessageEvent(pooled.messageId, pooled.sinchMessageId, ackToken, pooled.enqueuedAtMs, env.now, false);
            && d.mail.pendingMessages == d.disk.pendingMessages == Filing(c.mail.pendingMessages, event)
            && c.out <= d.out && |c.out| <= k <= |d.out| && SilentSince(d.out[..k], |c.out|)
            && d.out[k..] == [OnMessage(event)]
                             + (if WantsNotification(c) then [LookUpDelivered(event, c.link.sessionEpoch)] else [])
  {
    var id := pooled.messageId;
    var c1 := AdvanceLastSeen(c.(seen := R.Marked(c.seen, id)), id, pooled.enqueuedAtMs, false);
    var c2 := Track(c1, T.Queue(id, pooled.sinchMessageId, Delivered, ""));
    assert c2.out == c.out && c2.link == c.link && c2.mail.pendingMessages == c.mail.pendingMessages;
    FlushOnlyReports(c2, T.All, env);
    FlushKeepsLink(c2, T.All, env);
    k := |FlushReports(c2, T.All, env).out|;
    PresentShows(FlushReports(c2, T.All, env),
        MessageEvent(id, pooled.sinchMessageId, ackToken, pooled.enqueuedAtMs, env.now, false), d);
    assert d.out[..k] == FlushReports(c2, T.All, env).out;
  }

  lemma PresentShows(c: Client, event: MessageEvent, d: Client)
    requires d == Present(c, event)
    ensures d.mail.pendingMessages == d.disk.pendingMessages == Filing(c.mail.pendingMessages, event)
    ensures c.out <= d.out && d.link == c.link
    ensures d.out[|c.out|..] == [OnMessage(event)]
              + (if WantsNotification(c) then [LookUpDelivered(event, c.link.sessionEpoch)] else [])
  {
  }

  // ----- Shown messages -----

  /** The kept messages with the first of this id shown. */
  ghost predicate ShownIn(was: seq<MessageEvent>, now: seq<MessageEvent>, id: string) {
    && |now| == |was|
    && forall i :: 0 <= i < |was| ==>
         now[i] == (if was[i].id == id && id !in Ids(was[..i]) then was[i].(shown := true) else was[i])
  }

  function Ids(messages: seq<MessageEvent>): (ids: seq<string>)
    ensures |ids| == |messages|
  {
    seq(|messages|, i requires 0 <= i < |messages| => messages[i].id)
  }

  lemma MarkShownShows(c: Client, id: string, d: Client)
    requires d == MarkShown(c, id)
    ensures ShownIn(c.mail.pendingMessages, d.mail.pendingMessages, id)
    ensures Ids(d.mail.pendingMessages) == Ids(c.mail.pendingMessages)
    ensures Filed(c) ==> Filed(d)
    ensures id in Ids(c.mail.pendingMessages) ==> d.disk.pendingMessages == d.mail.pendingMessages
    ensures id !in Ids(c.mail.pendingMessages) ==> d == c
    ensures d == c.(mail := d.mail, disk := d.disk) && d.mail == c.mail.(pendingMessages := d.mail.pendingMessages)
  {
    var was := c.mail.pendingMessages;
    var k := FirstWithId(was, id);
    assert k < |was| ==> Ids(was)[k] == id;
    assert forall j :: 0 <= j < k ==> Ids(was)[j] == was[j].id;
    forall i | 0 <= i < |was|
      ensures d.mail.pendingMessages[i] ==
              (if was[i].id == id && id !in Ids(was[..i]) then was[i].(shown := true) else was[i])
    {
      if k < i {
        assert Ids(was[..i])[k] == id;
      } else {
        assert forall j :: 0 <= j < i ==> Ids(was[..i])[j] == was[j].id;
      }
    }
  }

  /**
   The answer to a look-up: ignored once stopped or in another session; a message the system already shows is marked
   shown; any other is posted, with a sound only when the last one sounded at least two seconds ago.
   */
  lemma LookupShows(c: Client, event: MessageEvent, epoch: nat, delivered: bool, env: Env, d: Client)
    requires d == Step(c, LookupAnswered(event, epoch, delivered), env)
    ensures c.link.stopped || epoch != c.link.sessionEpoch ==> d == c
    ensures !c.link.stopped && epoch == c.link.sessionEpoch && delivered ==>
              ShownIn(c.mail.pendingMessages, d.mail.pendingMessages, event.id) && d.out == c.out
    ensures !c.link.stopped && epoch == c.link.sessionEpoch && !delivered ==>
              && d.mail.pendingMessages == c.mail.pendingMessages
              && d.out == c.out + [PostNotification(event, Sounds(c, env.now))]
  {
    MarkShownShows(c, event.id, MarkShown(c, event.id));
  }

  predicate Sounds(c: Client, now: int) {
    c.mail.lastAlertAtMs.Some? ==> now >= c.mail.lastAlertAtMs.value + 2000
  }

  /** A notification the system took marks its message shown; one it refused changes nothing. */
  lemma PostedIsShown(c: Client, event: MessageEvent, env: Env)
    ensures ShownIn(c.mail.pendingMessages, Step(c, PostCompleted(event, true), env).mail.pendingMessages, event.id)
    ensures Step(c, PostCompleted(event, false), env) == c
  {
    MarkShownShows(c, event.id, MarkShown(c, event.id));
    ReportingKeepsLink(MarkShown(c, event.id), event.id, event.sinchMessageId, Displayed, env);
  }

  /** Report `i` is the oldest of its message. */
  ghost predicate IsOldestOf(pending: seq<PendingReport>, i: nat, m: string) {
    i < |pending| && pending[i].messageId == m && forall j :: 0 <= j < i ==> pending[j].messageId != m
  }

  /** What the host reports carries the sinch id kept with the message, else with an earlier report of it, else none. */
  lemma SinchIdIs(c: Client, m: string, i: nat)
    ensures var kept := c.mail.pendingMessages;
            i < |kept| && kept[i].id == m && m !in Ids(kept[..i]) ==> SinchIdFor(c, m) == kept[i].sinchMessageId
    ensures var queued := c.tracker.pending;
            m !in Ids(c.mail.pendingMessages) && IsOldestOf(queued, i, m) ==>
              SinchIdFor(c, m) == queued[i].sinchMessageId
    ensures m !in Ids(c.mail.pendingMessages) && (forall e :: e in c.tracker.pending ==> e.messageId != m) ==>
              SinchIdFor(c, m) == ""
  {
    var kept := c.mail.pendingMessages;
    var k := FirstWithId(kept, m);
    if k < |kept| {
      assert Ids(kept)[k] == m;
      assert k < i <= |kept| ==> Ids(kept[..i])[k] == m;
    }
    if IsOldestOf(c.tracker.pending, i, m) {
      RetainedIsOldest(c.tracker.pending, m, i);
    }
    if forall e :: e in c.tracker.pending ==> e.messageId != m {
      NoneRetained(c.tracker.pending, m);
    }
  }

  lemma {:induction false} RetainedIsOldest(pending: seq<PendingReport>, m: string, i: nat)
    requires IsOldestOf(pending, i, m)
    ensures T.RetainedSinchId(pending, m) == Some(pending[i].sinchMessageId)
    decreases i
  {
    if i > 0 {
      RetainedIsOldest(pending[1..], m, i - 1);
    }
  }

  lemma {:induction false} NoneRetained(pending: seq<PendingReport>, m: string)
    requires forall e :: e in pending ==> e.messageId != m
    ensures T.RetainedSinchId(pending, m) == None
    decreases |pending|
  {
    if pending != [] {
      NoneRetained(pending[1..], m);
    }
  }

  // ----- The messages kept over a run -----

  /** Every id told since the host last cleared its messages, after those kept from before the run. */
  function ToldSinceClear(kept: seq<string>, c: Client, moments: seq<Moment>): seq<string> {
    if moments == [] then kept
    else
      var n := |moments| - 1;
      if moments[n].event.ClearPendingMessages? then []
      else ToldSinceClear(kept, c, moments[..n]) + StepIds(Run(c, moments[..n]), moments[n].event)
  }

  lemma LastNTwice<X>(s: seq<X>, t: seq<X>, n: nat)
    ensures LastN(LastN(s, n) + t, n) == LastN(s + t, n)
  {
  }

  /** The kept messages of `d` are those of `c` and the told ones, the newest 200, in memory as on disk. */
  ghost predicate Keeps(c: Client, d: Client, told: seq<string>) {
    && d.link.didLoad == c.link.didLoad && Filed(d)
    && Ids(d.disk.pendingMessages) == LastN(Ids(c.disk.pendingMessages) + told, 200)
  }

  lemma EmitMessageFiles(c: Client, pooled: PooledMessage, ackToken: string, env: Env, d: Client)
    requires c.link.didLoad && Filed(c) && |c.disk.pendingMessages| <= 200 && d == EmitMessage(c, pooled, ackToken, env)
    ensures Keeps(c, d, NewId(c.seen, pooled))
  {
    EmitMessageKeepsLink(c, pooled, ackToken, env);
    if SeenSets.IsNew(R.Current(c.seen), pooled.messageId) {
      var k := NewMessageShows(c, pooled, ackToken, env, d);
    } else {
      HitFilesNothing(c, pooled, ackToken, env, d);
    }
  }

  lemma HitFilesNothing(c: Client, pooled: PooledMessage, ackToken: string, env: Env, d: Client)
    requires !SeenSets.IsNew(R.Current(c.seen), pooled.messageId) && d == EmitMessage(c, pooled, ackToken, env)
    ensures d.mail.pendingMessages == c.mail.pendingMessages && d.disk.pendingMessages == c.disk.pendingMessages
  {
  }

  lemma {:induction false} EmitAllFiles(c: Client, messages: seq<PooledMessage>, env: Env, d: Client)
    requires c.link.didLoad && Filed(c) && |c.disk.pendingMessages| <= 200 && d == EmitAll(c, messages, env)
    ensures Keeps(c, d, NewIds(c.seen, messages))
    decreases |messages|
  {
    if messages != [] {
      var before := messages[..|messages| - 1];
      var was := EmitAll(c, before, env);
      EmitAllFiles(c, before, env, was);
      EmitAllMarks(c, before, env);
      EmitMessageFiles(was, messages[|messages| - 1], "", env, d);
      LastNTwice(Ids(c.disk.pendingMessages) + NewIds(c.seen, before), NewId(was.seen, messages[|messages| - 1]), 200);
      assert Ids(c.disk.pendingMessages) + NewIds(c.seen, messages)
          == Ids(c.disk.pendingMessages) + NewIds(c.seen, before) + NewId(was.seen, messages[|messages| - 1]);
    }
  }

  lemma GreetedFiles(c: Client, id: string, ms: int, messages: seq<PooledMessage>, env: Env, d: Client)
    requires c.link.didLoad && Filed(c) && |c.disk.pendingMessages| <= 200
        && d == GreetedByRelay(c, id, ms, messages, env)
    ensures Keeps(c, d, NewIds(c.seen, messages))
  {
    var c1 := Publish(HelloAckNoted(c, ms), Connected, Some(id), Clear);
    EmitAllFiles(c1, messages, env, EmitAll(c1, messages, env));
  }

  lemma FrameFiles(c: Client, frame: ServerFrame, env: Env, d: Client)
    requires c.link.didLoad && Filed(c) && |c.disk.pendingMessages| <= 200 && d == Received(c, frame, env)
    ensures Filed(d)
    ensures Ids(d.disk.pendingMessages) == LastN(Ids(c.disk.pendingMessages) + FrameIds(c, frame), 200)
  {
    match frame
    case HelloAck(id, ms, messages) => GreetedFiles(c, id, ms, messages, env, d);
    case Message(pooled, ackToken) =>
      if pooled.Some? {
        EmitMessageFiles(c.(link := c.link.(helloAckResetArmed := false)), pooled.value, ackToken, env, d);
      }
    case CloseFrame(reason, detail) => CloseLeavesCursor(c, reason, detail, env);
    case _ =>
  }

  lemma QuietFiles(c: Client, e: Event, env: Env, d: Client)
    requires IsQuietEvent(e) && Filed(c) && d == QuietStep(c, e, env)
    ensures Filed(d)
    ensures Ids(d.disk.pendingMessages) == if e.ClearPendingMessages? then [] else Ids(c.disk.pendingMessages)
  {
    QuietEventKeepsLink(c, e, env);
    match e
    case Report(m, s) => ReportingFiles(c, m, SinchIdFor(c, m), s, env, d);
    case PostCompleted(event, accepted) =>
      MarkShownShows(c, event.id, MarkShown(c, event.id));
      if accepted {
        ReportingFiles(MarkShown(c, event.id), event.id, event.sinchMessageId, Displayed, env, d);
      }
    case LookupAnswered(event, _, _) => MarkShownShows(c, event.id, MarkShown(c, event.id));
    case _ =>
  }

  lemma ReportingFiles(c: Client, m: string, sm: string, s: DeliveryStatus, env: Env, d: Client)
    requires d == FlushReports(Track(c, T.Queue(m, sm, s, "")), T.All, env)
    ensures d.mail == c.mail && d.disk == c.disk
  {
  }

  lemma StepFiles(c: Client, e: Event, env: Env, begun: bool, d: Client)
    requires Safe(c, begun) && Enabled(c, e, env) && d == Step(c, e, env)
    requires Filed(c) && |c.disk.pendingMessages| <= 200
    ensures Filed(d)
    ensures Ids(d.disk.pendingMessages) ==
            if e.ClearPendingMessages? then [] else LastN(Ids(c.disk.pendingMessages) + StepIds(c, e), 200)
  {
    assert Ids(c.disk.pendingMessages) + [] == Ids(c.disk.pendingMessages);
    if IsQuietEvent(e) {
      QuietFiles(c, e, env, d);
    } else if IsHostEvent(e) {
      HostLeavesCursor(c, e, env);
    } else if e.ReconnectFired? {
      OpenLeavesCursor(c, env);
    } else if e.Inbound? && e.from == c.link.generation {
      FrameFiles(c, e.frame, env, d);
    }
  }

  /**
   Over every run the messages kept for the host, in memory once loaded as on disk, are the newest 200 of those told
   since it last cleared them.
   */
  lemma {:induction false} InboxOverRun(c: Client, moments: seq<Moment>)
    requires Initial(c) && Possible(c, moments) && |c.disk.pendingMessages| <= 200
    ensures var d := Run(c, moments);
            && Filed(d)
            && Ids(d.disk.pendingMessages) == LastN(ToldSinceClear(Ids(c.disk.pendingMessages), c, moments), 200)
    decreases |moments|
  {
    if moments != [] {
      var n := |moments| - 1;
      PossiblePrefix(c, moments, n);
      InboxOverRun(c, moments[..n]);
      NeverWedged(c, moments[..n]);
      var before, last := Run(c, moments[..n]), moments[n];
      assert Enabled(before, last.event, last.env);
      StepFiles(before, last.event, last.env, Begun(c, moments[..n]), Run(c, moments));
      LastNTwice(ToldSinceClear(Ids(c.disk.pendingMessages), c, moments[..n]), StepIds(before, last.event), 200);
    }
  }

  // ----- Sounds -----

  /** The host's registration and the last sound stay. */
  predicate SameHost(c: Client, d: Client) {
    d.mail.handlerRegistered == c.mail.handlerRegistered && d.mail.lastAlertAtMs == c.mail.lastAlertAtMs
  }

  lemma OpenKeepsHost(c: Client, env: Env)
    ensures SameHost(c, Open(c, env))
  {
    var c1 := LoadPersisted(c);
    if c1.link.configuration.Some? {
      DialKeepsMail(c1, env);
    }
  }

  lemma {:induction false} EmitAllKeepsHost(c: Client, messages: seq<PooledMessage>, env: Env)
    ensures SameHost(c, EmitAll(c, messages, env))
    decreases |messages|
  {
    if messages != [] {
      EmitAllKeepsHost(c, messages[..|messages| - 1], env);
      EmitMessageKeepsHost(EmitAll(c, messages[..|messages| - 1], env), messages[|messages| - 1], "", env);
    }
  }

  lemma EmitMessageKeepsHost(c: Client, pooled: PooledMessage, ackToken: string, env: Env)
    ensures SameHost(c, EmitMessage(c, pooled, ackToken, env))
  {
  }

  lemma AnsweredKeepsHost(c: Client, ack: T.Ack, env: Env)
    ensures SameHost(c, Answered(c, ack, env))
  {
  }

  lemma CloseKeepsHost(c: Client, reason: CloseReason, detail: Option<string>, env: Env)
    ensures SameHost(c, ClosedByRelay(c, reason, detail, env))
  {
    match reason
    case Stale =>
      var c1 := CloseCurrent(ClearTimers(c));
      OpenKeepsHost(c1.(link := c1.link.(attempts := 0)), env);
    case Unauthorized => TerminalLeavesCursor(c, AuthRequired, Some(ReasonText(reason, detail)));
    case BgResumed => TerminalLeavesCursor(c, Replaced, if detail.Some? then Some(Detail(detail.value)) else None);
    case PoolFull => DisconnectedKeepsMail(c, ReasonText(reason, detail), true, env);
    case OtherReason(_) => DisconnectedKeepsMail(c, ReasonText(reason, detail), false, env);
  }

  lemma FrameKeepsHost(c: Client, frame: ServerFrame, env: Env)
    ensures SameHost(c, Received(c, frame, env))
  {
    match frame
    case HelloAck(id, ms, messages) =>
      EmitAllKeepsHost(Publish(HelloAckNoted(c, ms), Connected, Some(id), Clear), messages, env);
    case Message(pooled, ackToken) =>
      if pooled.Some? {
        EmitMessageKeepsHost(c.(link := c.link.(helloAckResetArmed := false)), pooled.value, ackToken, env);
      }
    case AckFrame(ack) => AnsweredKeepsHost(c, ack, env);
    case CloseFrame(reason, detail) => CloseKeepsHost(c, reason, detail, env);
    case _ =>
  }

  lemma HostKeepsHost(c: Client, e: Event, env: Env)
    requires IsHostEvent(e)
    ensures SameHost(c, HostStep(c, e, env))
  {
    match e
    case Start =>
      var c1 := LoadPersisted(c);
      var c2 := c1.(link := c1.link.(stopped := false, suspended := false, attempts := 0,
          authRefreshAttempted := false));
      OpenKeepsHost(PersistConfiguration(c2), env);
    case Stop =>
    case Suspend =>
    case Resume => OpenKeepsHost(c.(link := c.link.(suspended := false, attempts := 0)), env);
    case UpdateConfiguration(cfg) => OpenKeepsHost(CloseCurrent(ClearTimers(Revived(c, cfg))), env);
  }

  lemma QuietHost(c: Client, e: Event, env: Env, d: Client)
    requires IsQuietEvent(e) && d == QuietStep(c, e, env)
    ensures d.mail.handlerRegistered == if e.SetHandlerRegistered? then e.registered else c.mail.handlerRegistered
    ensures !e.LookupAnswered? ==> d.mail.lastAlertAtMs == c.mail.lastAlertAtMs
  {
    match e
    case Report(m, s) => ReportingFiles(c, m, SinchIdFor(c, m), s, env, d);
    case PostCompleted(event, accepted) =>
      if accepted {
        ReportingFiles(MarkShown(c, event.id), event.id, event.sinchMessageId, Displayed, env, d);
      }
    case _ =>
  }

  /** Only the host's own call changes whether it listens, and only a look-up's answer the time of the last sound. */
  lemma StepHost(c: Client, e: Event, env: Env, d: Client)
    requires d == Step(c, e, env)
    ensures d.mail.handlerRegistered == if e.SetHandlerRegistered? then e.registered else c.mail.handlerRegistered
    ensures !e.LookupAnswered? ==> d.mail.lastAlertAtMs == c.mail.lastAlertAtMs
  {
    if IsQuietEvent(e) {
      QuietHost(c, e, env, d);
    } else if IsHostEvent(e) {
      HostKeepsHost(c, e, env);
    } else if e.ReconnectFired? {
      OpenKeepsHost(c, env);
    } else if e.Inbound? {
      FrameKeepsHost(c, e.frame, env);
    } else if e.TransportClosed? {
      DisconnectedKeepsMail(c, SocketClosed(e.code), false, env);
    }
  }

  /** Whether the step posts a notification with a sound. */
  predicate SoundsAt(c: Client, m: Moment) {
    && m.event.LookupAnswered?
    && Step(c, m.event, m.env).out == c.out + [PostNotification(m.event.event, true)]
  }

  /** The times at which a notification sounded. */
  function SoundTimes(c: Client, moments: seq<Moment>): seq<int> {
    if moments == [] then []
    else
      var n := |moments| - 1;
      SoundTimes(c, moments[..n]) + (if SoundsAt(Run(c, moments[..n]), moments[n]) then [moments[n].env.now] else [])
  }

  lemma LookupSounds(c: Client, event: MessageEvent, epoch: nat, delivered: bool, env: Env, d: Client)
    requires d == LookedUp(c, event, epoch, delivered, env)
    ensures d.out == c.out + [PostNotification(event, true)] ==>
              d.mail.lastAlertAtMs == Some(env.now) && Sounds(c, env.now)
    ensures d.out != c.out + [PostNotification(event, true)] ==> d.mail.lastAlertAtMs == c.mail.lastAlertAtMs
  {
    if !c.link.stopped && epoch == c.link.sessionEpoch && !delivered {
      assert d.out[|c.out|] == PostNotification(event, Sounds(c, env.now));
    } else {
      assert |d.out| == |c.out|;
    }
  }

  lemma StepSounds(c: Client, m: Moment, d: Client)
    requires d == Step(c, m.event, m.env)
    ensures SoundsAt(c, m) ==> d.mail.lastAlertAtMs == Some(m.env.now) && Sounds(c, m.env.now)
    ensures !SoundsAt(c, m) ==> d.mail.lastAlertAtMs == c.mail.lastAlertAtMs
  {
    if m.event.LookupAnswered? {
      LookupSounds(c, m.event.event, m.event.epoch, m.event.delivered, m.env, d);
    } else {
      StepHost(c, m.event, m.env, d);
    }
  }

  /** How the sounds, and the client with them, grow by one step. */
  lemma LastMomentSounds(c: Client, moments: seq<Moment>, was: Client, times: seq<int>)
    requires moments != [] && was == Run(c, moments[..|moments| - 1])
    requires times == SoundTimes(c, moments[..|moments| - 1])
    ensures var m, d := moments[|moments| - 1], Run(c, moments);
            && SoundTimes(c, moments) == times + (if SoundsAt(was, m) then [m.env.now] else [])
            && (SoundsAt(was, m) ==> d.mail.lastAlertAtMs == Some(m.env.now) && Sounds(was, m.env.now))
            && (!SoundsAt(was, m) ==> d.mail.lastAlertAtMs == was.mail.lastAlertAtMs)
  {
    StepSounds(was, moments[|moments| - 1], Run(c, moments));
  }

  predicate LastIs(times: seq<int>, last: Option<int>) {
    last == if times == [] then None else Some(times[|times| - 1])
  }

  ghost predicate Apart(times: seq<int>) {
    forall a, b :: 0 <= a < b < |times| ==> times[a] + 2000 <= times[b]
  }

  lemma ApartGrows(times: seq<int>, last: Option<int>, now: int)
    requires Apart(times) && LastIs(times, last) && (last.Some? ==> now >= last.value + 2000)
    ensures Apart(times + [now])
  {
  }

  /** Over every run, however its clock moves, two notifications that sound are at least two seconds apart. */
  lemma {:induction false} SoundsAreApart(c: Client, moments: seq<Moment>)
    requires c.mail.lastAlertAtMs == None
    ensures Apart(SoundTimes(c, moments)) && LastIs(SoundTimes(c, moments), Run(c, moments).mail.lastAlertAtMs)
    decreases |moments|
  {
    if moments != [] {
      var before := moments[..|moments| - 1];
      var was, times := Run(c, before), SoundTimes(c, before);
      SoundsAreApart(c, before);
      LastMomentSounds(c, moments, was, times);
      if SoundsAt(was, moments[|moments| - 1]) {
        ApartGrows(times, was.mail.lastAlertAtMs, moments[|moments| - 1].env.now);
      }
    }
  }
}

/** What starts, ends and outlives a session of the client: its modes, its epoch, and what a restart finds on disk. */
module ClientSessions {
  import opened Common
  import opened SocketTypes
  import opened ClientSpec
  import opened ClientRuns
  import opened ClientReports
  import opened ClientCursors
  import opened ClientEvents
  import Inboxes = ClientInboxes
  import T = TrackerSpec

  // ----- The modes -----

  /** What the host and the relay's terminal closes set, and no timer, message or lost connection does. */
  datatype Mode = Mode(
    stopped: bool, suspended: bool, sessionEpoch: nat, authRefreshAttempted: bool,
    configuration: Option<Configuration>, saved: Option<PersistedConfiguration>, authToken: Option<string>)

  function ModeOf(c: Client): Mode {
    Mode(c.link.stopped, c.link.suspended, c.link.sessionEpoch, c.link.authRefreshAttempted, c.link.configuration,
         c.disk.configuration, c.disk.authToken)
  }

  /** The configuration after the first load: the given one, else the one on disk, if its token is there too. */
  function Loaded(c: Client): Option<Configuration> {
    if c.link.configuration.Some? || c.link.didLoad then c.link.configuration
    else if c.disk.configuration.Some? && c.disk.authToken.Some?
    then Some(Configuration(c.disk.configuration.value, c.disk.authToken.value)) else None
  }

  /** A configuration put on disk with its token. */
  function OnDisk(m: Mode, configuration: Option<Configuration>): Mode {
    if configuration.None? then m
    else m.(saved := Some(configuration.value.saved), authToken := Some(configuration.value.authToken))
  }

  predicate IsTerminal(c: Client, e: Event) {
    e.Inbound? && e.from == c.link.generation && e.frame.CloseFrame?
        && (e.frame.reason.Unauthorized? || e.frame.reason.BgResumed?)
  }

  predicate IsStale(c: Client, e: Event) {
    e.Inbound? && e.from == c.link.generation && e.frame.CloseFrame? && e.frame.reason.Stale?
  }

  /** The events after which a parked client loads, because they open a connection. */
  predicate Opens(c: Client, e: Event) {
    || e.ReconnectFired? || (e.Resume? && c.link.suspended && !c.link.stopped)
    || (IsStale(c, e) && !c.link.stopped && !c.link.suspended)
  }

  /** What each event makes of the modes. */
  function ModeAfter(c: Client, e: Event): Mode {
    var m := ModeOf(c);
    if e.Start? then
      OnDisk(m.(stopped := false, suspended := false, authRefreshAttempted := false, configuration := Loaded(c)),
          Loaded(c))
    else if e.UpdateConfiguration? then
      OnDisk(m.(stopped := false, suspended := false, sessionEpoch := m.sessionEpoch + 1,
                configuration := Some(e.configuration)), Some(e.configuration))
    else if e.Stop? then m.(stopped := true, suspended := false, sessionEpoch := m.sessionEpoch + 1)
    else if e.Suspend? then m.(suspended := m.suspended || !m.stopped)
    else if IsTerminal(c, e) then
      m.(stopped := true, sessionEpoch := m.sessionEpoch + 1,
         authRefreshAttempted := m.authRefreshAttempted || e.frame.reason.Unauthorized?)
    else if Opens(c, e) then m.(suspended := m.suspended && !e.Resume?, configuration := Loaded(c))
    else m
  }

  lemma DisconnectedKeepsMode(c: Client, reason: ErrorText, shed: bool, env: Env)
    ensures ModeOf(Disconnected(c, reason, shed, env)) == ModeOf(c)
  {
  }

  lemma DialKeepsMode(c: Client, env: Env)
    requires c.link.configuration.Some?
    ensures ModeOf(Dial(c, env)) == ModeOf(c)
  {
    var c1 := Publish(c, if c.link.attempts == 0 then Connecting else Reconnecting, None, Clear);
    var c2 := c1.(link := c1.link.(reconnectTask := None));
    DisconnectedKeepsMode(c2, InvalidUrl(c2.link.configuration.value.saved.url), false, env);
  }

  lemma OpenLoads(c: Client, env: Env)
    ensures ModeOf(Open(c, env)) == ModeOf(c).(configuration := Loaded(c))
  {
    var c1 := LoadPersisted(c);
    if c1.link.configuration.Some? {
      DialKeepsMode(c1, env);
    }
  }

  lemma StartMode(c: Client, env: Env)
    ensures ModeOf(Started(c, env)) == ModeAfter(c, Start)
  {
    var c1 := LoadPersisted(c);
    var c2 := c1.(link := c1.link.(stopped := false, suspended := false, attempts := 0, authRefreshAttempted := false));
    OpenLoads(PersistConfiguration(c2), env);
  }

  lemma ReconfiguredMode(c: Client, cfg: Configuration, env: Env)
    ensures ModeOf(Reconfigured(c, cfg, env)) == ModeAfter(c, UpdateConfiguration(cfg))
  {
    OpenLoads(CloseCurrent(ClearTimers(Revived(c, cfg))), env);
  }

  lemma HostMode(c: Client, e: Event, env: Env)
    requires IsHostEvent(e)
    ensures ModeOf(HostStep(c, e, env)) == ModeAfter(c, e)
  {
    match e
    case Start => StartMode(c, env);
    case Stop =>
    case Suspend =>
    case Resume => OpenLoads(c.(link := c.link.(suspended := false, attempts := 0)), env);
    case UpdateConfiguration(cfg) => ReconfiguredMode(c, cfg, env);
  }

  lemma TerminalMode(c: Client, status: Status, lastError: Option<ErrorText>)
    ensures ModeOf(StopTerminally(c, status, lastError)) ==
            ModeOf(c).(stopped := true, sessionEpoch := c.link.sessionEpoch + 1)
  {
  }

  lemma StaleMode(c: Client, env: Env)
    ensures ModeOf(StaleClosed(c, env)) ==
            ModeOf(c).(configuration := if c.link.stopped || c.link.suspended then c.link.configuration else Loaded(c))
  {
    var c1 := CloseCurrent(ClearTimers(c));
    OpenLoads(c1.(link := c1.link.(attempts := 0)), env);
  }

  lemma CloseMode(c: Client, reason: CloseReason, detail: Option<string>, env: Env)
    ensures ModeOf(ClosedByRelay(c, reason, detail, env)) ==
            ModeAfter(c, Inbound(c.link.generation, CloseFrame(reason, detail)))
  {
    match reason
    case Stale => StaleMode(c, env);
    case Unauthorized => TerminalMode(c, AuthRequired, Some(ReasonText(reason, detail)));
    case BgResumed => TerminalMode(c, Replaced, if detail.Some? then Some(Detail(detail.value)) else None);
    case PoolFull => DisconnectedKeepsMode(c, ReasonText(reason, detail), true, env);
    case OtherReason(_) => DisconnectedKeepsMode(c, ReasonText(reason, detail), false, env);
  }

  lemma EmitMessageKeepsMode(c: Client, pooled: PooledMessage, ackToken: string, env: Env)
    ensures ModeOf(EmitMessage(c, pooled, ackToken, env)) == ModeOf(c)
  {
    EmitMessageKeepsLink(c, pooled, ackToken, env);
  }

  lemma {:induction false} EmitAllKeepsMode(c: Client, messages: seq<PooledMessage>, env: Env)
    ensures ModeOf(EmitAll(c, messages, env)) == ModeOf(c)
    decreases |messages|
  {
    if messages != [] {
      EmitAllKeepsMode(c, messages[..|messages| - 1], env);
      EmitMessageKeepsMode(EmitAll(c, messages[..|messages| - 1], env), messages[|messages| - 1], "", env);
    }
  }

  lemma AnsweredKeepsMode(c: Client, ack: T.Ack, env: Env)
    ensures ModeOf(Answered(c, ack, env)) == ModeOf(c)
  {
  }

  lemma GreetedKeepsMode(c: Client, id: string, ms: int, messages: seq<PooledMessage>, env: Env)
    ensures ModeOf(GreetedByRelay(c, id, ms, messages, env)) == ModeOf(c)
  {
    EmitAllKeepsMode(Publish(HelloAckNoted(c, ms), Connected, Some(id), Clear), messages, env);
  }

  lemma MessageKeepsMode(c: Client, pooled: Option<PooledMessage>, ackToken: string, env: Env)
    ensures ModeOf(Received(c, Message(pooled, ackToken), env)) == ModeOf(c)
  {
    if pooled.Some? {
      EmitMessageKeepsMode(c.(link := c.link.(helloAckResetArmed := false)), pooled.value, ackToken, env);
    }
  }

  lemma OtherFrameKeepsMode(c: Client, frame: ServerFrame, env: Env)
    requires !frame.CloseFrame?
    ensures ModeOf(Received(c, frame, env)) == ModeOf(c)
  {
    match frame
    case HelloAck(id, ms, messages) => GreetedKeepsMode(c, id, ms, messages, env);
    case Message(pooled, ackToken) => MessageKeepsMode(c, pooled, ackToken, env);
    case AckFrame(ack) => AnsweredKeepsMode(c, ack, env);
    case _ =>
  }

  lemma FrameMode(c: Client, frame: ServerFrame, env: Env, d: Client)
    requires d == Received(c, frame, env)
    ensures ModeOf(d) == ModeAfter(c, Inbound(c.link.generation, frame))
  {
    if frame.CloseFrame? {
      CloseMode(c, frame.reason, frame.detail, env);
    } else {
      OtherFrameKeepsMode(c, frame, env);
    }
  }

  lemma QuietKeepsMode(c: Client, e: Event, env: Env)
    requires IsQuietEvent(e)
    ensures ModeOf(QuietStep(c, e, env)) == ModeOf(c)
  {
    QuietEventKeepsLink(c, e, env);
    QuietKeepsDisk(c, e, env);
  }

  lemma QuietKeepsDisk(c: Client, e: Event, env: Env)
    requires IsQuietEvent(e)
    ensures var d := QuietStep(c, e, env).disk;
            d.configuration == c.disk.configuration && d.authToken == c.disk.authToken
  {
    match e
    case Report(m, s) => FlushKeepsDisk(Track(c, T.Queue(m, SinchIdFor(c, m), s, "")), T.All, env);
    case PostCompleted(event, accepted) =>
      var c1 := MarkShown(c, event.id);
      FlushKeepsDisk(Track(c1, T.Queue(event.id, event.sinchMessageId, Displayed, "")), T.All, env);
    case PollFired => FlushKeepsDisk(SendPoll(c), T.ForwardFailureRetryOnly, env);
    case DeferralFired => FlushKeepsDisk(c, T.DeferredOnly, env);
    case _ =>
  }

  lemma FlushKeepsDisk(c: Client, mode: T.FlushMode, env: Env)
    ensures FlushReports(c, mode, env).disk == c.disk
  {
  }

  /** Every event in every state changes the modes exactly so. */
  lemma StepMode(c: Client, e: Event, env: Env)
    ensures ModeOf(Step(c, e, env)) == ModeAfter(c, e)
  {
    if IsQuietEvent(e) {
      QuietKeepsMode(c, e, env);
    } else if IsHostEvent(e) {
      HostMode(c, e, env);
    } else if e.ReconnectFired? {
      OpenLoads(c, env);
    } else if e.Inbound? {
      FrameMode(c, e.frame, env, Received(c, e.frame, env));
    } else if e.TransportClosed? {
      DisconnectedKeepsMode(c, SocketClosed(e.code), false, env);
    }
  }

  // ----- Sessions -----

  /** `stop`, a new configuration and the relay's terminal closes end the session. */
  predicate EndsSession(c: Client, e: Event) {
    e.Stop? || e.UpdateConfiguration? || IsTerminal(c, e)
  }

  lemma StepEpoch(c: Client, m: Moment, d: Client)
    requires d == Step(c, m.event, m.env)
    ensures d.link.sessionEpoch == c.link.sessionEpoch + (if EndsSession(c, m.event) then 1 else 0)
  {
    StepMode(c, m.event, m.env);
  }

  function EpochAt(c: Client, moments: seq<Moment>): nat {
    Run(c, moments).link.sessionEpoch
  }

  lemma LastEpoch(c: Client, moments: seq<Moment>, was: Client)
    requires moments != [] && was == Run(c, moments[..|moments| - 1])
    ensures EpochAt(c, moments) ==
            was.link.sessionEpoch + (if EndsSession(was, moments[|moments| - 1].event) then 1 else 0)
  {
    StepEpoch(was, moments[|moments| - 1], Run(c, moments));
  }

  lemma {:induction false} EpochNeverFalls(c: Client, moments: seq<Moment>, i: nat)
    requires i <= |moments|
    ensures EpochAt(c, moments[..i]) <= EpochAt(c, moments)
    decreases |moments|
  {
    if i < |moments| {
      var n := |moments| - 1;
      assert moments[..n][..i] == moments[..i];
      EpochNeverFalls(c, moments[..n], i);
      LastEpoch(c, moments, Run(c, moments[..n]));
    } else {
      assert moments[..i] == moments;
    }
  }

  lemma EpochGrows(c: Client, moments: seq<Moment>, i: nat, j: nat, was: Client)
    requires i <= j < |moments| && was == Run(c, moments[..j]) && EndsSession(was, moments[j].event)
    ensures EpochAt(c, moments[..i]) < EpochAt(c, moments)
  {
    EpochNeverFalls(c, moments[..j], i);
    assert moments[..j][..i] == moments[..i];
    assert moments[..j + 1][..j] == moments[..j];
    LastEpoch(c, moments[..j + 1], was);
    EpochNeverFalls(c, moments, j + 1);
  }

  /**
   Over every run: once a session has ended, the answer to a look-up asked in it, however late and whatever it says,
   changes nothing and posts nothing.
   */
  lemma EndedSessionPostsNothing(
    c: Client, moments: seq<Moment>, i: nat, j: nat, event: MessageEvent, delivered: bool, env: Env)
    requires i <= j < |moments| && EndsSession(Run(c, moments[..j]), moments[j].event)
    ensures var asked, d := Run(c, moments[..i]).link.sessionEpoch, Run(c, moments);
            Step(d, LookupAnswered(event, asked, delivered), env) == d
  {
    EpochGrows(c, moments, i, j, Run(c, moments[..j]));
    var d := Run(c, moments);
    assert Step(d, LookupAnswered(event, EpochAt(c, moments[..i]), delivered), env) == d;
  }

  // ----- A fresh budget -----

  /** Connecting, told last, on a socket of the next generation, with nothing spent. */
  predicate DialedAfresh(c: Client, d: Client) {
    && d.link.attempts == 0 && d.link.transport == Some(c.link.generation + 1) && d.link.reconnectTask.None?
    && d.link.state == SocketState(Connecting, c.link.state.connectionId, c.link.pollIntervalMs, 0, None)
    && |d.out| >= 2 && d.out[|d.out| - 2] == OnState(d.link.state)
         && d.out[|d.out| - 1] == Connect(c.link.generation + 1)
  }

  lemma OpenDialsAfresh(c: Client, env: Env, d: Client)
    requires c.link.attempts == 0 && !c.link.stopped && !c.link.suspended && d == Open(c, env)
    requires Loaded(c).Some? && Loaded(c).value.saved.urlParses
    ensures DialedAfresh(c, d)
  {
    DialShows(LoadPersisted(c), env, Dial(LoadPersisted(c), env));
  }

  /** `start` connects on a fresh budget, with the configuration given before or found on disk. */
  lemma StartShows(c: Client, env: Env, d: Client)
    requires Loaded(c).Some? && Loaded(c).value.saved.urlParses && d == Step(c, Start, env)
    ensures DialedAfresh(c, d)
  {
    var c1 := LoadPersisted(c);
    var c2 := PersistConfiguration(c1.(link := c1.link.(stopped := false, suspended := false, attempts := 0,
        authRefreshAttempted := false)));
    OpenDialsAfresh(c2, env, d);
  }

  /** So does a return to the foreground, and any other `resume` does nothing. */
  lemma ResumeShows(c: Client, env: Env, d: Client)
    requires Loaded(c).Some? && Loaded(c).value.saved.urlParses && d == Step(c, Resume, env)
    ensures c.link.suspended && !c.link.stopped ==> DialedAfresh(c, d)
    ensures !c.link.suspended || c.link.stopped ==> d == c
  {
    if c.link.suspended && !c.link.stopped {
      OpenDialsAfresh(c.(link := c.link.(suspended := false, attempts := 0)), env, d);
    }
  }

  /** And a new configuration, in whatever mode it finds the client. */
  lemma ReconfiguredShows(c: Client, cfg: Configuration, env: Env, d: Client)
    requires cfg.saved.urlParses && d == Step(c, UpdateConfiguration(cfg), env)
    ensures DialedAfresh(c, d)
  {
    OpenDialsAfresh(CloseCurrent(ClearTimers(Revived(c, cfg))), env, d);
  }

  // ----- Restart -----

  /** `start` or a new configuration has been called. */
  predicate EverStarted(moments: seq<Moment>) {
    moments != []
    && (EverStarted(moments[..|moments| - 1])
        || moments[|moments| - 1].event.Start? || moments[|moments| - 1].event.UpdateConfiguration?)
  }

  /** The configuration in force, if any, is the one on disk, with its token. */
  predicate Saved(c: Client) {
    c.link.configuration.Some? ==>
      && c.disk.configuration == Some(c.link.configuration.value.saved)
      && c.disk.authToken == Some(c.link.configuration.value.authToken)
  }

  lemma ModeSaves(c: Client, e: Event, d: Client)
    requires ModeOf(d) == ModeAfter(c, e) && (e.Start? || e.UpdateConfiguration? || (Saved(c) && c.link.didLoad))
    ensures Saved(d)
  {
  }

  lemma LastMode(c: Client, moments: seq<Moment>, was: Client)
    requires moments != [] && was == Run(c, moments[..|moments| - 1])
    ensures ModeOf(Run(c, moments)) == ModeAfter(was, moments[|moments| - 1].event)
  {
    StepMode(was, moments[|moments| - 1].event, moments[|moments| - 1].env);
  }

  lemma {:induction false} StartedHasBegun(c: Client, moments: seq<Moment>)
    requires EverStarted(moments)
    ensures Begun(c, moments)
    decreases |moments|
  {
    if EverStarted(moments[..|moments| - 1]) {
      StartedHasBegun(c, moments[..|moments| - 1]);
    }
  }

  lemma {:induction false} RunSaves(c: Client, moments: seq<Moment>)
    requires Initial(c) && Possible(c, moments) && EverStarted(moments)
    ensures Saved(Run(c, moments)) && Run(c, moments).link.didLoad
    decreases |moments|
  {
    var n := |moments| - 1;
    StartedHasBegun(c, moments);
    NeverWedged(c, moments);
    PossiblePrefix(c, moments, n);
    if EverStarted(moments[..n]) {
      RunSaves(c, moments[..n]);
    }
    LastMode(c, moments, Run(c, moments[..n]));
    ModeSaves(Run(c, moments[..n]), moments[n].event, Run(c, moments));
  }

  lemma StartFinds(c: Client, env: Env, d: Client)
    requires !c.link.didLoad && d == Step(c, Start, env)
    ensures d.mail.pendingMessages == c.disk.pendingMessages && Kept(d) == Stored(c)
    ensures d.link.configuration == Loaded(c)
  {
    StepMode(c, Start, env);
    var c1 := LoadPersisted(c);
    var c2 := PersistConfiguration(c1.(link := c1.link.(stopped := false, suspended := false, attempts := 0,
        authRefreshAttempted := false)));
    if c2.link.configuration.Some? {
      DialLeavesCursor(c2, env);
    }
  }

  /**
   A process that ends after any run in which the client was started, and a new one that starts over its disk without
   being given a configuration: the same cursor, the same kept messages and the same configuration and token.
   */
  lemma RestartResumes(c: Client, moments: seq<Moment>, next: Client, env: Env)
    requires Initial(c) && Possible(c, moments) && EverStarted(moments)
    requires |c.disk.pendingMessages| <= 200
    requires Initial(next) && next.disk == Run(c, moments).disk && next.link.configuration.None?
    ensures var was, d := Run(c, moments), Step(next, Start, env);
            && Kept(d) == Kept(was) && d.mail.pendingMessages == was.mail.pendingMessages
            && (was.link.configuration.Some? ==> d.link.configuration == was.link.configuration)
  {
    RunMoves(c, moments);
    Inboxes.InboxOverRun(c, moments);
    RunSaves(c, moments);
    StartFinds(next, env, Step(next, Start, env));
  }
}

/** The reconnect budget: what a completed handshake buys, and how a shed takes it back. */
module ClientBackoff {
  import opened Common
  import opened SocketTypes
  import opened ClientSpec
  import opened ClientRuns
  import T = TrackerSpec
  import Backoff

  /** Between two connections, with a usable configuration, after `n` attempts. */
  predicate Waiting(c: Client, n: int) {
    && c.link.transport.None? && c.link.reconnectTask.Some?
    && !c.link.stopped && !c.link.suspended && c.link.didLoad
    && c.link.configuration.Some? && c.link.configuration.value.saved.urlParses
    && c.link.attempts == n
  }

  /** On a socket, with the budget in the given position. */
  predicate OnSocket(c: Client, attempts: int, recorded: int, armed: bool) {
    && c.link.transport == Some(c.link.generation) && c.link.reconnectTask.None?
    && !c.link.stopped && !c.link.suspended && c.link.didLoad
    && c.link.configuration.Some? && c.link.configuration.value.saved.urlParses
    && c.link.attempts == attempts && c.link.attemptsBeforeHelloAck == recorded && c.link.helloAckResetArmed == armed
  }

  /** A pooled message arrived or a report was accepted. */
  predicate DoesWork(c: Client, e: Event) {
    && e.Inbound? && e.from == c.link.generation
    && (e.frame.Message? || (e.frame.AckFrame? && T.OutcomeOf(c.tracker, e.frame.ack) == T.Accepted))
  }

  /** Pings, refused Acks, poll ticks, host reports, callbacks of replaced sockets: no sign of capacity. */
  predicate Harmless(c: Client, e: Event) {
    || IsQuietEvent(e) || e.SocketOpened?
    || (e.TransportClosed? && e.closed != c.link.generation)
    || (e.Inbound?
        && (e.from != c.link.generation
            || e.frame.Ping? || e.frame.AuthChallenge? || e.frame.Pong? || e.frame.Undecodable?
            || (e.frame.AckFrame? && T.OutcomeOf(c.tracker, e.frame.ack) != T.Accepted)))
  }

  lemma HarmlessKeepsBudget(c: Client, e: Event, env: Env, attempts: int, recorded: int, armed: bool)
    requires OnSocket(c, attempts, recorded, armed) && Harmless(c, e)
    ensures OnSocket(Step(c, e, env), attempts, recorded, armed)
  {
    if IsQuietEvent(e) {
      QuietEventKeepsLink(c, e, env);
    }
  }

  lemma WorkSpendsReset(c: Client, e: Event, env: Env, attempts: int, recorded: int, armed: bool)
    requires OnSocket(c, attempts, recorded, armed) && DoesWork(c, e)
    ensures OnSocket(Step(c, e, env), attempts, recorded, false)
  {
    if e.frame.Message? && e.frame.pooled.Some? {
      EmitMessageKeepsLink(c.(link := c.link.(helloAckResetArmed := false)), e.frame.pooled.value, e.frame.ackToken,
          env);
    }
  }

  predicate AllHarmless(c: Client, moments: seq<Moment>) {
    moments == []
    || (AllHarmless(c, moments[..|moments| - 1])
        && Harmless(Run(c, moments[..|moments| - 1]), moments[|moments| - 1].event))
  }

  predicate StaysOpen(c: Client, moments: seq<Moment>) {
    moments == []
    || (StaysOpen(c, moments[..|moments| - 1])
        && (Harmless(Run(c, moments[..|moments| - 1]), moments[|moments| - 1].event)
            || DoesWork(Run(c, moments[..|moments| - 1]), moments[|moments| - 1].event)))
  }

  predicate Worked(c: Client, moments: seq<Moment>) {
    moments != []
    && (Worked(c, moments[..|moments| - 1])
        || DoesWork(Run(c, moments[..|moments| - 1]), moments[|moments| - 1].event))
  }

  lemma InSessionStep(c: Client, e: Event, env: Env, attempts: int, recorded: int, armed: bool)
    requires OnSocket(c, attempts, recorded, armed) && (Harmless(c, e) || DoesWork(c, e))
    ensures OnSocket(Step(c, e, env), attempts, recorded, armed && !DoesWork(c, e))
  {
    if DoesWork(c, e) {
      WorkSpendsReset(c, e, env, attempts, recorded, armed);
    } else {
      HarmlessKeepsBudget(c, e, env, attempts, recorded, armed);
    }
  }

  lemma {:induction false} SessionKeepsBudget(c: Client, moments: seq<Moment>, attempts: int, recorded: int,
      armed: bool)
    requires OnSocket(c, attempts, recorded, armed) && StaysOpen(c, moments)
    ensures OnSocket(Run(c, moments), attempts, recorded, armed && !Worked(c, moments))
    decreases |moments|
  {
    if moments != [] {
      var n := |moments| - 1;
      SessionKeepsBudget(c, moments[..n], attempts, recorded, armed);
      InSessionStep(Run(c, moments[..n]), moments[n].event, moments[n].env, attempts, recorded,
          armed && !Worked(c, moments[..n]));
    }
  }

  // ----- Sessions that end in a shed -----

  /** One dial, whatever happens before the handshake, the handshake, the session, `Close(POOL_FULL)`. */
  datatype Session = Session(
    dial: Env, opening: seq<Moment>,
    connectionId: string, pollMs: int, messages: seq<PooledMessage>, greeted: Env,
    middle: seq<Moment>,
    detail: Option<string>, shed: Env)

  function AtOpening(c: Client, s: Session): Client {
    Run(Step(c, ReconnectFired, s.dial), s.opening)
  }

  function AtGreeting(c: Client, s: Session): Client {
    var d := AtOpening(c, s);
    Step(d, Inbound(d.link.generation, HelloAck(s.connectionId, s.pollMs, s.messages)), s.greeted)
  }

  function AtMiddle(c: Client, s: Session): Client {
    Run(AtGreeting(c, s), s.middle)
  }

  function AfterSession(c: Client, s: Session): Client {
    var d := AtMiddle(c, s);
    Step(d, Inbound(d.link.generation, CloseFrame(PoolFull, s.detail)), s.shed)
  }

  predicate IsSession(c: Client, s: Session) {
    AllHarmless(Step(c, ReconnectFired, s.dial), s.opening) && StaysOpen(AtGreeting(c, s), s.middle)
  }

  predicate SessionWorked(c: Client, s: Session) {
    Worked(AtGreeting(c, s), s.middle)
  }

  lemma DialOpens(c: Client, env: Env, n: int)
    requires Waiting(c, n)
    ensures exists recorded, armed :: OnSocket(Step(c, ReconnectFired, env), n, recorded, armed)
  {
    var d := Step(c, ReconnectFired, env);
    assert OnSocket(d, n, d.link.attemptsBeforeHelloAck, d.link.helloAckResetArmed);
  }

  lemma GreetingArms(c: Client, n: int, recorded: int, armed: bool, id: string, ms: int, messages: seq<PooledMessage>,
      env: Env)
    requires OnSocket(c, n, recorded, armed)
    ensures OnSocket(Step(c, Inbound(c.link.generation, HelloAck(id, ms, messages)), env), 0, n, true)
  {
    var c2 := HelloAckNoted(c, ms);
    EmitAllKeepsLink(Publish(c2, Connected, Some(id), Clear), messages, env);
  }

  predicate Scheduled(c: Client, now: int, n: int) {
    Waiting(c, n) && now <= c.link.reconnectTask.value < now + Backoff.CeilingMs(n)
  }

  lemma ShedCloses(c: Client, attempts: int, recorded: int, armed: bool, detail: Option<string>, env: Env)
    requires OnSocket(c, attempts, recorded, armed)
    ensures var d := Step(c, Inbound(c.link.generation, CloseFrame(PoolFull, detail)), env);
            Scheduled(d, env.now, (if armed then recorded else attempts) + 1) && !d.link.helloAckResetArmed
  {
    Backoff.DelayInWindow((if armed then recorded else attempts) + 1, env.draw);
  }

  /**
   A session shed without having done work costs one attempt more than before it; one that did work
   restarts the count at 1. Either way the redial is scheduled inside the window of the new count.
   */
  lemma SessionBudget(c: Client, s: Session, n: int)
    requires Waiting(c, n) && IsSession(c, s)
    ensures Scheduled(AfterSession(c, s), s.shed.now, if SessionWorked(c, s) then 1 else n + 1)
  {
    DialOpens(c, s.dial, n);
    var recorded, armed :| OnSocket(Step(c, ReconnectFired, s.dial), n, recorded, armed);
    HarmlessOpening(Step(c, ReconnectFired, s.dial), s.opening, n, recorded, armed);
    GreetingArms(AtOpening(c, s), n, recorded, armed, s.connectionId, s.pollMs, s.messages, s.greeted);
    SessionKeepsBudget(AtGreeting(c, s), s.middle, 0, n, true);
    ShedCloses(AtMiddle(c, s), 0, n, !SessionWorked(c, s), s.detail, s.shed);
  }

  lemma {:induction false} HarmlessOpening(c: Client, moments: seq<Moment>, attempts: int, recorded: int, armed: bool)
    requires OnSocket(c, attempts, recorded, armed) && AllHarmless(c, moments)
    ensures OnSocket(Run(c, moments), attempts, recorded, armed)
    decreases |moments|
  {
    if moments != [] {
      var n := |moments| - 1;
      HarmlessOpening(c, moments[..n], attempts, recorded, armed);
      HarmlessKeepsBudget(Run(c, moments[..n]), moments[n].event, moments[n].env, attempts, recorded, armed);
    }
  }

  function AfterSessions(c: Client, sessions: seq<Session>): Client {
    if sessions == [] then c
    else AfterSession(AfterSessions(c, sessions[..|sessions| - 1]), sessions[|sessions| - 1])
  }

  predicate AllShedUnworked(c: Client, sessions: seq<Session>) {
    sessions == []
    || (AllShedUnworked(c, sessions[..|sessions| - 1])
        && IsSession(AfterSessions(c, sessions[..|sessions| - 1]), sessions[|sessions| - 1])
        && !SessionWorked(AfterSessions(c, sessions[..|sessions| - 1]), sessions[|sessions| - 1]))
  }

  lemma ShedOnce(c: Client, s: Session, n: nat, next: nat)
    requires Waiting(c, n) && IsSession(c, s) && !SessionWorked(c, s) && next == n + 1
    ensures Scheduled(AfterSession(c, s), s.shed.now, next)
  {
    SessionBudget(c, s, n);
  }

  lemma {:induction false} ShedsWait(c: Client, sessions: seq<Session>, n: nat)
    requires Waiting(c, n) && AllShedUnworked(c, sessions)
    ensures Waiting(AfterSessions(c, sessions), n + |sessions|)
    decreases |sessions|
  {
    if sessions != [] {
      var k := |sessions| - 1;
      ShedsWait(c, sessions[..k], n);
      ShedOnce(AfterSessions(c, sessions[..k]), sessions[k], n + k, n + |sessions|);
    }
  }

  /** The redial is due inside `window` milliseconds of `now`. */
  predicate DueWithin(c: Client, now: int, n: int, window: int) {
    Waiting(c, n) && now <= c.link.reconnectTask.value < now + window
  }

  lemma LastShedSchedules(c: Client, sessions: seq<Session>, n: nat, total: nat, window: int)
    requires Waiting(c, n) && AllShedUnworked(c, sessions) && sessions != []
    requires total == n + |sessions| && window == Backoff.CeilingMs(total)
    ensures DueWithin(AfterSessions(c, sessions), sessions[|sessions| - 1].shed.now, total, window)
  {
    var k := |sessions| - 1;
    ShedsWait(c, sessions[..k], n);
    ShedOnce(AfterSessions(c, sessions[..k]), sessions[k], n + k, total);
  }

  lemma WindowIsCeiling(n: nat, window: int)
    requires n >= 1 && window == Min(30_000, 1000 * Backoff.Pow2(n - 1))
    ensures window == Backoff.CeilingMs(n)
  {
    Backoff.CeilingClosedForm(n);
  }

  /**
   Repeated sheds climb: from `n` attempts, k handshakes that are each refused with POOL_FULL before doing any work
   leave exactly `total` = n + k attempts, and the next redial is drawn from min(30 s, 1 s * 2^(n+k-1)).
   */
  lemma SheddingClimbs(c: Client, sessions: seq<Session>, n: nat, total: nat, window: int)
    requires Waiting(c, n) && AllShedUnworked(c, sessions) && total == n + |sessions|
    requires total > 0 ==> window == Min(30_000, 1000 * Backoff.Pow2(total - 1))
    ensures Waiting(AfterSessions(c, sessions), total)
    ensures sessions != [] ==>
              DueWithin(AfterSessions(c, sessions), sessions[|sessions| - 1].shed.now, total, window)
  {
    if sessions != [] {
      WindowIsCeiling(total, window);
      LastShedSchedules(c, sessions, n, total, window);
    }
  }

  /**
   A non-shed disconnect leaves the reset armed, so it leaks: a POOL_FULL on the next socket, before that
   socket's own handshake, restores the count recorded for the session before it. From a session greeted
   after `n` attempts the count becomes n + 1 where a spent reset would have given 2.
   */
  lemma LeakedResetRestoresStaleCount(
    c: Client, n: int, armed: bool, code: int, lost: Env, dial: Env, detail: Option<string>, shed: Env)
    requires OnSocket(c, 0, n, armed)
    ensures var c1 := Step(c, TransportClosed(c.link.generation, code), lost);
            var c2 := Step(c1, ReconnectFired, dial);
            var c3 := Step(c2, Inbound(c2.link.generation, CloseFrame(PoolFull, detail)), shed);
            Waiting(c1, 1) && Waiting(c3, if armed then n + 1 else 2)
  {
    var c1 := Step(c, TransportClosed(c.link.generation, code), lost);
    LostConnectionKeepsReset(c, 0, n, armed, code, lost);
    RedialKeepsBudget(c1, 1, n, armed, dial);
    ShedCloses(Step(c1, ReconnectFired, dial), 1, n, armed, detail, shed);
  }

  lemma LostConnectionKeepsReset(c: Client, attempts: int, recorded: int, armed: bool, code: int, env: Env)
    requires OnSocket(c, attempts, recorded, armed)
    ensures var d := Step(c, TransportClosed(c.link.generation, code), env);
            Waiting(d, attempts + 1) && d.link.attemptsBeforeHelloAck == recorded && d.link.helloAckResetArmed == armed
  {
  }

  lemma RedialKeepsBudget(c: Client, n: int, recorded: int, armed: bool, env: Env)
    requires Waiting(c, n) && c.link.attemptsBeforeHelloAck == recorded && c.link.helloAckResetArmed == armed
    ensures OnSocket(Step(c, ReconnectFired, env), n, recorded, armed)
  {
  }

  // ----- No redial in the same step -----

  predicate NoConnect(out: seq<Output>, from: nat) {
    forall i :: from <= i < |out| ==> !out[i].Connect?
  }

  lemma TerminalStays(c: Client, status: Status, lastError: Option<ErrorText>)
    ensures var d := StopTerminally(c, status, lastError);
            && c.out <= d.out && NoConnect(d.out, |c.out|) && d.link.transport.None?
            && d.link.generation == c.link.generation && d.link.stopped
  {
  }

  lemma DisconnectedStays(c: Client, reason: ErrorText, shed: bool, env: Env)
    ensures var d := Disconnected(c, reason, shed, env);
            && c.out <= d.out && NoConnect(d.out, |c.out|) && d.link.transport.None?
            && d.link.generation == c.link.generation && d.link.stopped == c.link.stopped
  {
  }

  /**
   A lost or refused connection never redials in the same step, however small the delay: only `Close(STALE)`
   reconnects at once, with the budget at zero and no timer.
   */
  lemma OnlyStaleRedialsAtOnce(
    c: Client, reason: CloseReason, detail: Option<string>, env: Env, attempts: int, recorded: int, armed: bool)
    requires OnSocket(c, attempts, recorded, armed)
    ensures var d := ClosedByRelay(c, reason, detail, env);
            && c.out <= d.out
            && (reason.Stale? ==> OnSocket(d, 0, recorded, armed) && d.link.generation == c.link.generation + 1
                                  && d.out[|d.out| - 1] == Connect(d.link.generation))
            && (!reason.Stale? ==>
                  NoConnect(d.out, |c.out|) && d.link.transport.None? && d.link.generation == c.link.generation)
            && (reason.Unauthorized? || reason.BgResumed? <==> d.link.stopped)
  {
    match reason
    case Stale =>
    case Unauthorized => TerminalStays(c, AuthRequired, Some(ReasonText(reason, detail)));
    case BgResumed => TerminalStays(c, Replaced, if detail.Some? then Some(Detail(detail.value)) else None);
    case PoolFull => DisconnectedStays(c, ReasonText(reason, detail), true, env);
    case OtherReason(_) => DisconnectedStays(c, ReasonText(reason, detail), false, env);
  }

  // ----- Every socket that is dialled -----

  /** `open` would dial: neither stopped nor suspended, with a configuration whose url parses. */
  predicate OpenDials(c: Client) {
    !c.link.stopped && !c.link.suspended && UrlParses(LoadPersisted(c))
  }

  /** The steps that dial: the host's calls that begin a connection, the reconnect timer, and STALE. */
  predicate Dials(c: Client, e: Event) {
    match e
    case Start => OpenDials(c.(link := c.link.(stopped := false, suspended := false)))
    case Resume => c.link.suspended && OpenDials(c.(link := c.link.(suspended := false)))
    case UpdateConfiguration(cfg) => cfg.saved.urlParses
    case Inbound(g, frame) => g == c.link.generation && frame.CloseFrame? && frame.reason.Stale? && OpenDials(c)
    case ReconnectFired => OpenDials(c)
    case _ => false
  }

  function Counted(generation: nat, dials: bool): nat {
    if dials then generation + 1 else generation
  }

  lemma OpenCounts(c: Client, env: Env)
    ensures Open(c, env).link.generation == Counted(c.link.generation, OpenDials(c))
  {
  }

  lemma StartCounts(c: Client, env: Env)
    ensures Started(c, env).link.generation == Counted(c.link.generation, Dials(c, Start))
  {
    var c1 := LoadPersisted(c);
    var c2 := c1.(link := c1.link.(stopped := false, suspended := false, attempts := 0, authRefreshAttempted := false));
    OpenCounts(PersistConfiguration(c2), env);
  }

  lemma ReconfiguredCounts(c: Client, cfg: Configuration, env: Env)
    ensures Reconfigured(c, cfg, env).link.generation == Counted(c.link.generation, cfg.saved.urlParses)
  {
    OpenCounts(CloseCurrent(ClearTimers(Revived(c, cfg))), env);
  }

  lemma HostCounts(c: Client, e: Event, env: Env)
    requires IsHostEvent(e)
    ensures HostStep(c, e, env).link.generation == Counted(c.link.generation, Dials(c, e))
  {
    match e
    case Start => StartCounts(c, env);
    case Stop =>
    case Suspend =>
    case Resume => OpenCounts(c.(link := c.link.(suspended := false, attempts := 0)), env);
    case UpdateConfiguration(cfg) => ReconfiguredCounts(c, cfg, env);
  }

  lemma DisconnectedCounts(c: Client, reason: ErrorText, shed: bool, env: Env)
    ensures Disconnected(c, reason, shed, env).link.generation == c.link.generation
  {
  }

  lemma StaleCounts(c: Client, env: Env)
    ensures StaleClosed(c, env).link.generation == Counted(c.link.generation, OpenDials(c))
  {
    var c1 := CloseCurrent(ClearTimers(c));
    OpenCounts(c1.(link := c1.link.(attempts := 0)), env);
  }

  lemma TerminalCounts(c: Client, status: Status, lastError: Option<ErrorText>)
    ensures StopTerminally(c, status, lastError).link.generation == c.link.generation
  {
  }

  lemma CloseFrameCounts(c: Client, reason: CloseReason, detail: Option<string>, env: Env, end: Client)
    requires end == ClosedByRelay(c, reason, detail, env)
    ensures end.link.generation == Counted(c.link.generation, reason.Stale? && OpenDials(c))
  {
    match reason
    case Stale => StaleCounts(c, env);
    case Unauthorized => TerminalCounts(c, AuthRequired, Some(ReasonText(reason, detail)));
    case BgResumed => TerminalCounts(c, Replaced, if detail.Some? then Some(Detail(detail.value)) else None);
    case PoolFull => DisconnectedCounts(c, ReasonText(reason, detail), true, env);
    case OtherReason(_) => DisconnectedCounts(c, ReasonText(reason, detail), false, env);
  }

  /** Of all events and every state, a step dials exactly in these cases: no lost or shed connection redials at once. */
  lemma StepDialsIff(c: Client, e: Event, env: Env)
    ensures Step(c, e, env).link.generation == Counted(c.link.generation, Dials(c, e))
  {
    if IsQuietEvent(e) {
      QuietEventKeepsLink(c, e, env);
    } else if IsHostEvent(e) {
      HostCounts(c, e, env);
    } else if e.ReconnectFired? {
      OpenCounts(c, env);
    } else if e.Inbound? {
      if e.frame.CloseFrame? {
        CloseFrameCounts(c, e.frame.reason, e.frame.detail, env, ClosedByRelay(c, e.frame.reason, e.frame.detail, env));
      } else {
        FrameKeepsSockets(c, e.frame, env);
      }
    }
  }
}

/** The replay cursor: which message a reconnect asks the relay to resume after. */
module ClientCursors {
  import opened Common
  import opened SocketTypes
  import opened ClientSpec
  import opened ClientRuns
  import opened ClientReports
  import T = TrackerSpec
  import R = SeenRegistries
  import SeenSets

  datatype Cursor = Cursor(id: string, atMs: int)

  /** One call of `advanceLastSeen`. */
  datatype Sight = Sight(id: string, atMs: int, onHit: bool)

  function Kept(c: Client): Cursor {
    Cursor(c.mail.lastSeenMessageId, c.mail.lastSeenEnqueuedAtMs)
  }

  function Stored(c: Client): Cursor {
    Cursor(c.disk.lastSeenMessageId, c.disk.lastSeenEnqueuedAtMs)
  }

  function Moved(k: Cursor, s: Sight): Cursor {
    if s.onHit && !(s.atMs > 0 && (k.atMs == 0 || s.atMs > k.atMs)) then k
    else if s.atMs > 0 && k.atMs > 0 && s.atMs < k.atMs then k
    else Cursor(s.id, Max(s.atMs, 0))
  }

  function MovedAll(k: Cursor, sights: seq<Sight>): Cursor {
    if sights == [] then k else Moved(MovedAll(k, sights[..|sights| - 1]), sights[|sights| - 1])
  }

  // ----- Where a series of sights leaves it -----

  /** A first sight without a timestamp, which puts the cursor back to "unknown" (0). */
  predicate Resets(s: Sight) {
    !s.onHit && s.atMs <= 0
  }

  /** No reset from `k` on. */
  ghost predicate Unreset(sights: seq<Sight>, k: nat) {
    forall j :: k <= j < |sights| ==> !Resets(sights[j])
  }

  /** Where the cursor can stand: untouched by sights that reset nothing, or at a sight with no reset behind it. */
  ghost predicate StandsAt(base: Cursor, sights: seq<Sight>, k: Cursor) {
    || (Unreset(sights, 0) && k == base)
    || exists i :: 0 <= i < |sights| && Unreset(sights, i + 1) && k == Cursor(sights[i].id, Max(sights[i].atMs, 0))
  }

  /** The cursor is at least as new as everything since the last reset. */
  ghost predicate Covers(base: Cursor, sights: seq<Sight>, atMs: int) {
    && atMs >= 0
    && (Unreset(sights, 0) ==> base.atMs <= atMs)
    && (forall i :: 0 <= i < |sights| && Unreset(sights, i + 1) ==> sights[i].atMs <= atMs)
  }

  lemma UnresetGrows(sights: seq<Sight>, s: Sight, k: nat)
    requires k <= |sights|
    ensures Unreset(sights + [s], k) <==> Unreset(sights, k) && !Resets(s)
  {
    assert forall j :: k <= j < |sights| ==> (sights + [s])[j] == sights[j];
    assert (sights + [s])[|sights|] == s;
  }

  lemma CoversGrows(base: Cursor, sights: seq<Sight>, s: Sight, atMs: int, after: int)
    requires Covers(base, sights, atMs) && after == if Resets(s) then 0 else Max(atMs, s.atMs)
    ensures Covers(base, sights + [s], after)
  {
    UnresetGrows(sights, s, 0);
    forall i | 0 <= i < |sights| + 1 && Unreset(sights + [s], i + 1)
      ensures (sights + [s])[i].atMs <= after
    {
      if i < |sights| {
        UnresetGrows(sights, s, i + 1);
      }
    }
  }

  lemma StandsStill(base: Cursor, sights: seq<Sight>, s: Sight, k: Cursor)
    requires StandsAt(base, sights, k) && !Resets(s)
    ensures StandsAt(base, sights + [s], k)
  {
    UnresetGrows(sights, s, 0);
    if !(Unreset(sights, 0) && k == base) {
      var i :| 0 <= i < |sights| && Unreset(sights, i + 1) && k == Cursor(sights[i].id, Max(sights[i].atMs, 0));
      UnresetGrows(sights, s, i + 1);
      assert (sights + [s])[i] == sights[i];
    }
  }

  lemma MovesToLast(base: Cursor, sights: seq<Sight>, s: Sight)
    ensures StandsAt(base, sights + [s], Cursor(s.id, Max(s.atMs, 0)))
  {
    assert (sights + [s])[|sights|] == s && Unreset(sights + [s], |sights| + 1);
  }

  /** The timestamp is the newest since the last reset, and the id is of a sight with that timestamp. */
  lemma {:induction false} MovedAllIsNewest(base: Cursor, sights: seq<Sight>)
    requires base.atMs >= 0
    ensures StandsAt(base, sights, MovedAll(base, sights)) && Covers(base, sights, MovedAll(base, sights).atMs)
    decreases |sights|
  {
    if sights != [] {
      var before, s := sights[..|sights| - 1], sights[|sights| - 1];
      var was := MovedAll(base, before);
      MovedAllIsNewest(base, before);
      assert sights == before + [s];
      CoversGrows(base, before, s, was.atMs, Moved(was, s).atMs);
      MovesToLast(base, before, s);
      if !Resets(s) {
        StandsStill(base, before, s, was);
      }
    }
  }

  // ----- The sights of a run -----

  function SightOf(seen: R.Registry, pooled: PooledMessage): seq<Sight> {
    if pooled.messageId == "" then []
    else [Sight(pooled.messageId, pooled.enqueuedAtMs, !SeenSets.IsNew(R.Current(seen), pooled.messageId))]
  }

  function SightsOf(seen: R.Registry, messages: seq<PooledMessage>): seq<Sight> {
    if messages == [] then []
    else
      var before := messages[..|messages| - 1];
      SightsOf(seen, before) + SightOf(SeenAfter(seen, before), messages[|messages| - 1])
  }

  function StepSights(c: Client, e: Event): seq<Sight> {
    if e.Inbound? && e.from == c.link.generation then
      match e.frame
      case HelloAck(_, _, messages) => SightsOf(c.seen, messages)
      case Message(pooled, _) => if pooled.Some? then SightOf(c.seen, pooled.value) else []
      case _ => []
    else []
  }

  function RunSights(c: Client, moments: seq<Moment>): seq<Sight> {
    if moments == [] then []
    else
      var n := |moments| - 1;
      RunSights(c, moments[..n]) + StepSights(Run(c, moments[..n]), moments[n].event)
  }

  lemma {:induction false} MovedAllAppend(k: Cursor, a: seq<Sight>, b: seq<Sight>)
    ensures MovedAll(k, a + b) == MovedAll(MovedAll(k, a), b)
    decreases |b|
  {
    if b == [] {
      assert a + b == a;
    } else {
      assert (a + b)[..|a + b| - 1] == a + b[..|b| - 1];
      MovedAllAppend(k, a, b[..|b| - 1]);
    }
  }

  // ----- What a step does to it -----

  /** Once loaded, the cursor in memory is the one on disk. */
  predicate Synced(c: Client) {
    c.link.didLoad ==> Kept(c) == Stored(c)
  }

  /** The cursor on disk stays, and the one in memory stays with it. */
  predicate Stays(c: Client, d: Client) {
    Stored(d) == Stored(c) && (Synced(c) ==> Synced(d))
  }

  /** Once loaded, the messages kept in memory are those on disk; before, there are none. */
  predicate Filed(c: Client) {
    c.mail.pendingMessages == if c.link.didLoad then c.disk.pendingMessages else []
  }

  /** Neither the cursor nor the messages kept for the host change on disk, nor in memory but by the load. */
  predicate Untouched(c: Client, d: Client) {
    Stays(c, d) && d.disk.pendingMessages == c.disk.pendingMessages && (Filed(c) ==> Filed(d))
  }

  lemma DialLeavesCursor(c: Client, env: Env)
    requires c.link.configuration.Some?
    ensures Dial(c, env).mail == c.mail && Dial(c, env).disk == c.disk && Dial(c, env).link.didLoad == c.link.didLoad
  {
  }

  lemma OpenLeavesCursor(c: Client, env: Env)
    ensures Untouched(c, Open(c, env))
  {
    var c1 := LoadPersisted(c);
    if !c1.link.stopped && !c1.link.suspended && c1.link.configuration.Some? {
      DialLeavesCursor(c1, env);
    }
  }

  lemma HostLeavesCursor(c: Client, e: Event, env: Env)
    requires IsHostEvent(e)
    ensures Untouched(c, HostStep(c, e, env))
  {
    match e
    case Start =>
      var c1 := LoadPersisted(c);
      var c2 := c1.(link := c1.link.(stopped := false, suspended := false, attempts := 0,
          authRefreshAttempted := false));
      OpenLeavesCursor(PersistConfiguration(c2), env);
    case Stop =>
    case Suspend =>
    case Resume => OpenLeavesCursor(c.(link := c.link.(suspended := false, attempts := 0)), env);
    case UpdateConfiguration(cfg) => OpenLeavesCursor(CloseCurrent(ClearTimers(Revived(c, cfg))), env);
  }

  lemma TerminalLeavesCursor(c: Client, status: Status, lastError: Option<ErrorText>)
    ensures var d := StopTerminally(c, status, lastError);
            d.mail == c.mail && d.disk == c.disk && d.link.didLoad == c.link.didLoad
  {
  }

  lemma DisconnectedLeavesCursor(c: Client, reason: ErrorText, shed: bool, env: Env)
    ensures var d := Disconnected(c, reason, shed, env);
            d.mail == c.mail && d.disk == c.disk && d.link.didLoad == c.link.didLoad
  {
  }

  lemma CloseLeavesCursor(c: Client, reason: CloseReason, detail: Option<string>, env: Env)
    ensures Untouched(c, ClosedByRelay(c, reason, detail, env))
  {
    match reason
    case Stale =>
      var c1 := CloseCurrent(ClearTimers(c));
      OpenLeavesCursor(c1.(link := c1.link.(attempts := 0)), env);
    case Unauthorized => TerminalLeavesCursor(c, AuthRequired, Some(ReasonText(reason, detail)));
    case BgResumed => TerminalLeavesCursor(c, Replaced, if detail.Some? then Some(Detail(detail.value)) else None);
    case PoolFull => DisconnectedLeavesCursor(c, ReasonText(reason, detail), true, env);
    case OtherReason(_) => DisconnectedLeavesCursor(c, ReasonText(reason, detail), false, env);
  }

  lemma ReportLeavesCursor(c: Client, m: string, sm: string, s: DeliveryStatus, env: Env)
    ensures Stays(c, FlushReports(Track(c, T.Queue(m, sm, s, "")), T.All, env))
  {
  }

  lemma QuietLeavesCursor(c: Client, e: Event, env: Env)
    requires IsQuietEvent(e)
    ensures Stays(c, QuietStep(c, e, env))
  {
    match e
    case Report(m, s) => ReportLeavesCursor(c, m, SinchIdFor(c, m), s, env);
    case PostCompleted(event, accepted) =>
      ReportLeavesCursor(MarkShown(c, event.id), event.id, event.sinchMessageId, Displayed, env);
    case _ =>
  }

  lemma EmitMessageMoves(c: Client, pooled: PooledMessage, ackToken: string, env: Env)
    requires Kept(c) == Stored(c)
    ensures var d := EmitMessage(c, pooled, ackToken, env);
            && Kept(d) == Stored(d) == MovedAll(Stored(c), SightOf(c.seen, pooled)) && d.link == c.link
            && d.seen == if pooled.messageId == "" then c.seen else R.Marked(c.seen, pooled.messageId)
  {
    EmitMessageKeepsLink(c, pooled, ackToken, env);
    var sights := SightOf(c.seen, pooled);
    if sights != [] {
      assert sights[..0] == [] && MovedAll(Stored(c), []) == Stored(c);
      AdvanceMoves(c.(seen := R.Marked(c.seen, pooled.messageId)), sights[0]);
    }
  }

  lemma AdvanceMoves(c: Client, s: Sight)
    requires Kept(c) == Stored(c)
    ensures var d := AdvanceLastSeen(c, s.id, s.atMs, s.onHit);
            Kept(d) == Stored(d) == Moved(Stored(c), s) && d.seen == c.seen
  {
  }

  lemma {:induction false} EmitAllMoves(c: Client, messages: seq<PooledMessage>, env: Env)
    requires Kept(c) == Stored(c)
    ensures var d := EmitAll(c, messages, env);
            && Kept(d) == Stored(d) == MovedAll(Stored(c), SightsOf(c.seen, messages)) && d.link == c.link
            && d.seen == SeenAfter(c.seen, messages)
    decreases |messages|
  {
    if messages != [] {
      var before := messages[..|messages| - 1];
      EmitAllMoves(c, before, env);
      EmitMessageMoves(EmitAll(c, before, env), messages[|messages| - 1], "", env);
      MovedAllAppend(Stored(c), SightsOf(c.seen, before), SightOf(SeenAfter(c.seen, before), messages[|messages| - 1]));
    }
  }

  lemma GreetedMoves(c: Client, id: string, ms: int, messages: seq<PooledMessage>, env: Env)
    requires Kept(c) == Stored(c)
    ensures var d := GreetedByRelay(c, id, ms, messages, env);
            Kept(d) == Stored(d) == MovedAll(Stored(c), SightsOf(c.seen, messages))
  {
    EmitAllMoves(Publish(HelloAckNoted(c, ms), Connected, Some(id), Clear), messages, env);
  }

  lemma FrameMoves(c: Client, frame: ServerFrame, env: Env)
    requires c.link.didLoad && Synced(c)
    ensures var d := Received(c, frame, env);
            Synced(d) && Stored(d) == MovedAll(Stored(c), StepSights(c, Inbound(c.link.generation, frame)))
  {
    match frame
    case HelloAck(id, ms, messages) => GreetedMoves(c, id, ms, messages, env);
    case Message(pooled, ackToken) =>
      if pooled.Some? {
        EmitMessageMoves(c.(link := c.link.(helloAckResetArmed := false)), pooled.value, ackToken, env);
      }
    case CloseFrame(reason, detail) => CloseLeavesCursor(c, reason, detail, env);
    case _ =>
  }

  lemma StepMoves(c: Client, e: Event, env: Env, begun: bool)
    requires Safe(c, begun) && Enabled(c, e, env) && Synced(c)
    ensures var d := Step(c, e, env); Synced(d) && Stored(d) == MovedAll(Stored(c), StepSights(c, e))
  {
    if IsQuietEvent(e) {
      QuietLeavesCursor(c, e, env);
    } else if IsHostEvent(e) {
      HostLeavesCursor(c, e, env);
    } else if e.ReconnectFired? {
      OpenLeavesCursor(c, env);
    } else if e.Inbound? && e.from == c.link.generation {
      FrameMoves(c, e.frame, env);
    }
  }

  lemma {:induction false} RunMoves(c: Client, moments: seq<Moment>)
    requires Initial(c) && Possible(c, moments)
    ensures var d := Run(c, moments); Synced(d) && Stored(d) == MovedAll(Stored(c), RunSights(c, moments))
    decreases |moments|
  {
    if moments != [] {
      var n := |moments| - 1;
      PossiblePrefix(c, moments, n);
      RunMoves(c, moments[..n]);
      NeverWedged(c, moments[..n]);
      var before, last := Run(c, moments[..n]), moments[n];
      assert Enabled(before, last.event, last.env);
      StepMoves(before, last.event, last.env, Begun(c, moments[..n]));
      MovedAllAppend(Stored(c), RunSights(c, moments[..n]), StepSights(before, last.event));
    }
  }

  /**
   Over every run from a store with a sound cursor: once loaded, the cursor the next Hello carries is the one on disk;
   its timestamp is the newest among the messages received since the last reset, and its id is of a message with that
   timestamp. It walks back only when a new message comes without a timestamp.
   */
  lemma CursorOverRun(c: Client, moments: seq<Moment>)
    requires Initial(c) && Possible(c, moments) && Stored(c).atMs >= 0
    ensures var d, sights := Run(c, moments), RunSights(c, moments);
            && Synced(d) && Stored(d).atMs >= 0
            && StandsAt(Stored(c), sights, Stored(d)) && Covers(Stored(c), sights, Stored(d).atMs)
  {
    RunMoves(c, moments);
    MovedAllIsNewest(Stored(c), RunSights(c, moments));
  }
}

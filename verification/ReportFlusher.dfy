/**
 Reporting the queued pushes against an arbitrary server (src/api/reportOutbox.ts). The environment is a set of
 answers, one per call: each read of the outbox, of the token, each request, each removal.
 */
module ReportFlusher {
  import opened Common
  import opened Backoff
  import opened SocketTypes
  import opened ReportOutboxes

  const REPORT_TTL_MS := 72 * 60 * 60 * 1000
  const BATCH_SIZE := 100
  const MAX_ATTEMPTS := 5

  type Draw = r: real | 0.0 <= r < 1.0

  datatype Code = CodeUnauthenticated | InvalidArgument | NotFound | PermissionDenied | OtherCode

  /** How one request ends: accepted, a ConnectError, or another exception. */
  datatype Reply = Accepted | Refused(code: Code) | Failed

  datatype TokenRead = Read(token: Option<string>) | Rejected

  /** `outbox` is None when reading it rejects. */
  datatype World = World(
    outbox: Option<seq<ReportOutboxEntry>>,
    now: int,
    reply: nat -> Reply,
    tokenRead: nat -> TokenRead,
    removeRejects: nat -> bool,
    draw: nat -> Draw)

  datatype Outcome = Sent | Dropped | Retry | Unauthenticated

  function OutcomeOf(reply: Reply): Outcome {
    match reply
    case Accepted => Sent
    case Failed => Retry
    case Refused(code) =>
      match code
      case CodeUnauthenticated => Unauthenticated
      case InvalidArgument => Dropped
      case NotFound => Dropped
      case PermissionDenied => Dropped
      case OtherCode => Retry
  }

  predicate Settles(outcome: Outcome) {
    outcome == Sent || outcome == Dropped
  }

  // ----- What one flush did -----

  /** One `reportEvents` call with the batch of that number. */
  datatype Sending = Sending(batch: nat, token: string, outcome: Outcome)

  datatype Ending = Nothing | NoToken | Finished | GaveUp | SignedOut | Broke

  /** `removed` counts the batches taken out of the outbox. */
  datatype Flush = Flush(sends: seq<Sending>, sleeps: seq<nat>, expiredRemoved: bool, removed: nat, ending: Ending)

  function Settled(sends: seq<Sending>): nat {
    if sends == [] then 0
    else Settled(sends[..|sends| - 1]) + (if Settles(sends[|sends| - 1].outcome) then 1 else 0)
  }

  function CountOf(sends: seq<Sending>, outcome: Outcome): nat {
    if sends == [] then 0
    else CountOf(sends[..|sends| - 1], outcome) + (if sends[|sends| - 1].outcome == outcome then 1 else 0)
  }

  /** Every call is for the first batch not settled yet, and ends as the server answers. */
  predicate InOrder(sends: seq<Sending>, world: World) {
    sends == []
    || (var before, last := sends[..|sends| - 1], sends[|sends| - 1];
        && InOrder(before, world)
        && last.batch == Settled(before)
        && last.outcome == OutcomeOf(world.reply(|before|)))
  }

  /** The token changes exactly after a call it did not authenticate, to another one. */
  predicate TokensFollow(sends: seq<Sending>) {
    forall i :: 0 < i < |sends| ==>
      (sends[i].token != sends[i - 1].token <==> sends[i - 1].outcome == Unauthenticated)
  }

  /** A token one can send with. */
  predicate Usable(read: TokenRead) {
    read.Read? && read.token.Some? && read.token.value != ""
  }

  /** A call for batch `b` was refused as unauthenticated. */
  predicate RefusedIn(sends: seq<Sending>, b: nat) {
    sends != []
    && (RefusedIn(sends[..|sends| - 1], b)
        || (sends[|sends| - 1].batch == b && sends[|sends| - 1].outcome == Unauthenticated))
  }

  /** What a flush is asked to do: so many batches, after so many removals. */
  datatype Task = Task(batches: nat, removals: nat)

  /**
   How the flush ends after these calls, or None while it goes on: a settled batch is removed, a refused token is read
   anew once a batch, anything else counts as a failure.
   */
  function EndAfter(sends: seq<Sending>, world: World, task: Task): Option<Ending>
    requires sends != []
  {
    var last := sends[|sends| - 1];
    match last.outcome
    case Sent => EndOfBatch(sends, world, task)
    case Dropped => EndOfBatch(sends, world, task)
    case Retry => if CountOf(sends, Retry) >= 5 then Some(GaveUp) else None
    case Unauthenticated =>
      var newer := world.tokenRead(CountOf(sends, Unauthenticated));
      if RefusedIn(sends[..|sends| - 1], last.batch) then Some(SignedOut)
      else if newer.Rejected? then Some(Broke)
      else if newer.token.None? || newer.token.value == "" || newer.token.value == last.token then Some(SignedOut)
      else None
  }

  function EndOfBatch(sends: seq<Sending>, world: World, task: Task): Option<Ending>
    requires sends != []
  {
    if Settled(sends) > 0 && world.removeRejects(task.removals + Settled(sends) - 1) then Some(Broke)
    else if Settled(sends) == task.batches then Some(Finished)
    else None
  }

  /** The flush went on after every call but the last, and each call carries the newest token read. */
  predicate Course(sends: seq<Sending>, world: World, task: Task) {
    sends == []
    || (var before := sends[..|sends| - 1];
        && Course(before, world, task)
        && (before == [] || EndAfter(before, world, task) == None)
        && world.tokenRead(CountOf(before, Unauthenticated)) == Read(Some(sends[|sends| - 1].token)))
  }

  predicate SleepsDrawn(sleeps: seq<nat>, world: World) {
    forall i :: 0 <= i < |sleeps| ==> sleeps[i] == ReportBackoffMs(i, world.draw(i))
  }

  function Total(sleeps: seq<nat>): nat {
    if sleeps == [] then 0 else Total(sleeps[..|sleeps| - 1]) + sleeps[|sleeps| - 1]
  }

  lemma {:induction false} CallsByOutcome(sends: seq<Sending>)
    ensures |sends| == Settled(sends) + CountOf(sends, Retry) + CountOf(sends, Unauthenticated)
    decreases |sends|
  {
    if sends != [] {
      CallsByOutcome(sends[..|sends| - 1]);
    }
  }

  lemma SendsSnoc(sends: seq<Sending>, s: Sending)
    ensures Settled(sends + [s]) == Settled(sends) + (if Settles(s.outcome) then 1 else 0)
    ensures forall o :: CountOf(sends + [s], o) == CountOf(sends, o) + (if s.outcome == o then 1 else 0)
    ensures forall b ::
              RefusedIn(sends + [s], b) <==> RefusedIn(sends, b) || (s.batch == b && s.outcome == Unauthenticated)
    ensures forall w: World ::
              (InOrder(sends, w) && s.batch == Settled(sends) && s.outcome == OutcomeOf(w.reply(|sends|))) ==>
                InOrder(sends + [s], w)
  {
    assert (sends + [s])[..|sends|] == sends;
  }

  lemma CourseSnoc(sends: seq<Sending>, s: Sending, world: World, task: Task)
    requires Course(sends, world, task) && (sends == [] || EndAfter(sends, world, task) == None)
    requires world.tokenRead(CountOf(sends, Unauthenticated)) == Read(Some(s.token))
    ensures Course(sends + [s], world, task)
  {
    assert (sends + [s])[..|sends|] == sends;
  }

  // ----- The batches -----

  function Batches(n: nat): nat {
    (n + BATCH_SIZE - 1) / BATCH_SIZE
  }

  function Expired(entries: seq<ReportOutboxEntry>, cutoff: int): seq<ReportOutboxEntry> {
    if entries == [] then []
    else (if entries[0].enqueuedAtMs < cutoff then [entries[0]] else []) + Expired(entries[1..], cutoff)
  }

  function Pending(entries: seq<ReportOutboxEntry>, cutoff: int): seq<ReportOutboxEntry> {
    if entries == [] then []
    else (if entries[0].enqueuedAtMs >= cutoff then [entries[0]] else []) + Pending(entries[1..], cutoff)
  }

  /** The calls made so far for batches 0..b, none of them final. */
  datatype Progress = Progress(sends: seq<Sending>, sleeps: seq<nat>, token: string, tokenReads: nat)

  predicate OnTrack(p: Progress, world: World) {
    && InOrder(p.sends, world) && TokensFollow(p.sends) && SleepsDrawn(p.sleeps, world)
    && CountOf(p.sends, Retry) < MAX_ATTEMPTS
    && |p.sleeps| == CountOf(p.sends, Retry)
  }

  /** The calls made so far are those of the flush, which goes on with the token in hand. */
  predicate GoesOn(p: Progress, world: World, task: Task) {
    && Course(p.sends, world, task) && (p.sends == [] || EndAfter(p.sends, world, task) == None)
    && p.tokenReads == CountOf(p.sends, Unauthenticated) + 1
    && world.tokenRead(p.tokenReads - 1) == Read(Some(p.token)) && p.token != ""
  }

  /** The next call may use the current token. */
  predicate TokenFits(p: Progress) {
    p.sends != [] ==>
      (p.token != p.sends[|p.sends| - 1].token <==> p.sends[|p.sends| - 1].outcome == Unauthenticated)
  }

  datatype Verdict = BatchSettled | BatchGaveUp | BatchSignedOut | BatchBroke

  /** What is known once a batch is done with, whichever way. */
  predicate After(p: Progress, world: World, b: nat, verdict: Verdict) {
    && InOrder(p.sends, world) && TokensFollow(p.sends) && SleepsDrawn(p.sleeps, world)
    && p.sends != []
    && var last := p.sends[|p.sends| - 1].outcome;
       var unauthenticated, retries := CountOf(p.sends, Unauthenticated), CountOf(p.sends, Retry);
       match verdict
       case BatchSettled => OnTrack(p, world) && TokenFits(p) && Settled(p.sends) == b + 1 && unauthenticated <= b + 1
       case BatchGaveUp =>
         Settled(p.sends) == b && unauthenticated <= b + 1 && retries == MAX_ATTEMPTS && |p.sleeps| == MAX_ATTEMPTS - 1
         && last == Retry
       case BatchSignedOut =>
         Settled(p.sends) == b && unauthenticated <= b + 2 && retries < MAX_ATTEMPTS && |p.sleeps| == retries
         && last == Unauthenticated
       case BatchBroke =>
         Settled(p.sends) == b && unauthenticated <= b + 1 && retries < MAX_ATTEMPTS && |p.sleeps| == retries
         && last == Unauthenticated
  }

  /** The calls of a batch that is done with, and how the flush ends there unless the batch was settled. */
  predicate CourseAfter(p: Progress, world: World, task: Task, verdict: Verdict) {
    && p.sends != [] && Course(p.sends, world, task)
    && (verdict == BatchSettled ==> Settles(p.sends[|p.sends| - 1].outcome))
    && (verdict == BatchGaveUp ==> EndAfter(p.sends, world, task) == Some(GaveUp))
    && (verdict == BatchSignedOut ==> EndAfter(p.sends, world, task) == Some(SignedOut))
    && (verdict == BatchBroke ==> EndAfter(p.sends, world, task) == Some(Broke))
    && (verdict == BatchSettled ==>
          && p.tokenReads == CountOf(p.sends, Unauthenticated) + 1
          && world.tokenRead(p.tokenReads - 1) == Read(Some(p.token)) && p.token != "")
  }

  /** Batches from `b` on have not been refused. */
  predicate Untried(sends: seq<Sending>, b: nat) {
    forall s :: s in sends ==> s.batch < b
  }

  lemma {:induction false} UntriedIsNotRefused(sends: seq<Sending>, b: nat)
    requires Untried(sends, b)
    ensures !RefusedIn(sends, b)
    decreases |sends|
  {
    if sends != [] {
      UntriedIsNotRefused(sends[..|sends| - 1], b);
    }
  }

  /** The course of the flush in the middle of batch `b`. */
  predicate InBatch(p: Progress, world: World, b: nat, refreshed: bool, task: Task) {
    GoesOn(p, world, task) && refreshed == RefusedIn(p.sends, b) && Untried(p.sends, b + 1)
  }

  lemma CallKeepsCourse(p: Progress, world: World, b: nat, refreshed: bool, task: Task, s: Sending)
    requires InBatch(p, world, b, refreshed, task) && s.batch == b && s.token == p.token
    ensures Course(p.sends + [s], world, task) && Untried(p.sends + [s], b + 1)
    ensures RefusedIn(p.sends + [s], b) <==> refreshed || s.outcome == Unauthenticated
    ensures CountOf(p.sends + [s], Unauthenticated) ==
            p.tokenReads - 1 + (if s.outcome == Unauthenticated then 1 else 0)
  {
    SendsSnoc(p.sends, s);
    CourseSnoc(p.sends, s, world, task);
  }

  /** A settled batch. */
  lemma SettledCourse(p: Progress, world: World, b: nat, refreshed: bool, task: Task, s: Sending)
    requires InBatch(p, world, b, refreshed, task) && s.batch == b && s.token == p.token && Settles(s.outcome)
    ensures var q := p.(sends := p.sends + [s]); CourseAfter(q, world, task, BatchSettled) && Untried(q.sends, b + 1)
  {
    CallKeepsCourse(p, world, b, refreshed, task, s);
  }

  /** A call refused as unauthenticated: signed out, broken, or on with a newer token. */
  lemma RefusedCourse(p: Progress, world: World, b: nat, refreshed: bool, task: Task, s: Sending)
    requires InBatch(p, world, b, refreshed, task) && s.batch == b && s.token == p.token
    requires s.outcome == Unauthenticated
    ensures Untried(p.sends + [s], b + 1)
    ensures refreshed ==> CourseAfter(p.(sends := p.sends + [s]), world, task, BatchSignedOut)
    ensures !refreshed ==>
              var newer := world.tokenRead(p.tokenReads);
              var q := p.(sends := p.sends + [s], tokenReads := p.tokenReads + 1);
              if newer.Rejected? then CourseAfter(q, world, task, BatchBroke)
              else if newer.token.None? || newer.token.value == "" || newer.token.value == p.token
              then CourseAfter(q, world, task, BatchSignedOut)
              else InBatch(q.(token := newer.token.value), world, b, true, task)
  {
    CallKeepsCourse(p, world, b, refreshed, task, s);
    assert (p.sends + [s])[..|p.sends|] == p.sends;
    var newer := world.tokenRead(p.tokenReads);
    if Usable(newer) {
      assert newer == Read(Some(newer.token.value)) && newer.token.value != "";
    }
  }

  /** A failed call: given up, or on after a sleep. */
  lemma FailedCourse(p: Progress, world: World, b: nat, refreshed: bool, task: Task, s: Sending, q: Progress)
    requires InBatch(p, world, b, refreshed, task) && s.batch == b && s.token == p.token && s.outcome == Retry
    requires q.sends == p.sends + [s] && q.token == p.token && q.tokenReads == p.tokenReads
    ensures Untried(q.sends, b + 1)
    ensures CountOf(p.sends, Retry) + 1 >= MAX_ATTEMPTS ==> CourseAfter(q, world, task, BatchGaveUp)
    ensures CountOf(p.sends, Retry) + 1 < MAX_ATTEMPTS ==> InBatch(q, world, b, refreshed, task)
  {
    CallKeepsCourse(p, world, b, refreshed, task, s);
    SendsSnoc(p.sends, s);
    assert q.sends[|q.sends| - 1] == s;
    assert CountOf(q.sends, Retry) == CountOf(p.sends, Retry) + 1;
  }

  /** In the middle of batch `b`, which may have had its one new token. */
  predicate Mid(p: Progress, world: World, b: nat, refreshed: bool, task: Task) {
    && OnTrack(p, world) && TokenFits(p) && InBatch(p, world, b, refreshed, task)
    && Settled(p.sends) == b && CountOf(p.sends, Unauthenticated) <= b + (if refreshed then 1 else 0)
  }

  /** Done with batch `b`. */
  predicate Over(p: Progress, world: World, b: nat, verdict: Verdict, task: Task) {
    After(p, world, b, verdict) && CourseAfter(p, world, task, verdict) && Untried(p.sends, b + 1)
  }

  function Called(p: Progress, b: nat, world: World): Progress {
    p.(sends := p.sends + [Sending(b, p.token, OutcomeOf(world.reply(|p.sends|)))])
  }

  lemma CallKeepsTrack(p: Progress, world: World, b: nat)
    requires OnTrack(p, world) && TokenFits(p) && Settled(p.sends) == b
    ensures var q := Called(p, b, world);
            var outcome := q.sends[|p.sends|].outcome;
            && InOrder(q.sends, world) && TokensFollow(q.sends)
            && Settled(q.sends) == b + (if Settles(outcome) then 1 else 0)
            && forall o :: CountOf(q.sends, o) == CountOf(p.sends, o) + (if outcome == o then 1 else 0)
  {
    SendsSnoc(p.sends, Called(p, b, world).sends[|p.sends|]);
  }

  lemma SettledTurn(p: Progress, world: World, b: nat, refreshed: bool, task: Task)
    requires Mid(p, world, b, refreshed, task) && Settles(OutcomeOf(world.reply(|p.sends|)))
    ensures Over(Called(p, b, world), world, b, BatchSettled, task)
  {
    var s := Called(p, b, world).sends[|p.sends|];
    CallKeepsTrack(p, world, b);
    SettledCourse(p, world, b, refreshed, task, s);
  }

  lemma SignedOutTurn(p: Progress, world: World, b: nat, task: Task)
    requires Mid(p, world, b, true, task) && OutcomeOf(world.reply(|p.sends|)) == Unauthenticated
    ensures Over(Called(p, b, world), world, b, BatchSignedOut, task)
  {
    CallKeepsTrack(p, world, b);
    RefusedCourse(p, world, b, true, task, Called(p, b, world).sends[|p.sends|]);
  }

  lemma RefusedTurn(p: Progress, world: World, b: nat, task: Task, q: Progress)
    requires Mid(p, world, b, false, task) && OutcomeOf(world.reply(|p.sends|)) == Unauthenticated
    requires q == Called(p, b, world).(tokenReads := p.tokenReads + 1)
    ensures var newer := world.tokenRead(p.tokenReads);
            if newer.Rejected? then Over(q, world, b, BatchBroke, task)
            else if newer.token.None? || newer.token.value == "" || newer.token.value == p.token
            then Over(q, world, b, BatchSignedOut, task)
            else Mid(q.(token := newer.token.value), world, b, true, task)
  {
    CallKeepsTrack(p, world, b);
    RefusedCourse(p, world, b, false, task, Called(p, b, world).sends[|p.sends|]);
  }

  lemma GaveUpTurn(p: Progress, world: World, b: nat, refreshed: bool, task: Task)
    requires Mid(p, world, b, refreshed, task) && OutcomeOf(world.reply(|p.sends|)) == Retry
    requires |p.sleeps| + 1 >= MAX_ATTEMPTS
    ensures Over(Called(p, b, world), world, b, BatchGaveUp, task)
  {
    var q := Called(p, b, world);
    CallKeepsTrack(p, world, b);
    FailedCourse(p, world, b, refreshed, task, q.sends[|p.sends|], q);
  }

  lemma FailedTurn(p: Progress, world: World, b: nat, refreshed: bool, task: Task, q: Progress)
    requires Mid(p, world, b, refreshed, task) && OutcomeOf(world.reply(|p.sends|)) == Retry
    requires |p.sleeps| + 1 < MAX_ATTEMPTS && |q.sleeps| == |p.sleeps| + 1
    requires q == Called(p, b, world).(sleeps := q.sleeps) && q.sleeps[..|p.sleeps|] == p.sleeps
    requires q.sleeps[|p.sleeps|] == ReportBackoffMs(|p.sleeps|, world.draw(|p.sleeps|))
    ensures Mid(q, world, b, refreshed, task)
  {
    CallKeepsTrack(p, world, b);
    FailedCourse(p, world, b, refreshed, task, q.sends[|p.sends|], q);
  }

  /** The inner loop: one batch until it is settled, given up, or the token is refused for good. */
  method SendBatch(world: World, b: nat, start: Progress, ghost task: Task) returns (p: Progress, verdict: Verdict)
    requires Mid(start, world, b, false, task) && Untried(start.sends, b)
    ensures Over(p, world, b, verdict, task)
  {
    p := start;
    var failures := |p.sleeps|;
    var refreshed := false;
    while true
      invariant Mid(p, world, b, refreshed, task) && failures == |p.sleeps|
      decreases MAX_ATTEMPTS - failures, !refreshed
    {
      ghost var before := p;
      var outcome := OutcomeOf(world.reply(|p.sends|));
      p := p.(sends := p.sends + [Sending(b, p.token, outcome)]);
      if Settles(outcome) {
        SettledTurn(before, world, b, refreshed, task);
        return p, BatchSettled;
      }
      if outcome == Unauthenticated {
        if refreshed {
          SignedOutTurn(before, world, b, task);
          return p, BatchSignedOut;
        }
        var newer := world.tokenRead(p.tokenReads);
        p := p.(tokenReads := p.tokenReads + 1);
        RefusedTurn(before, world, b, task, p);
        if newer.Rejected? {
          return p, BatchBroke;
        }
        if newer.token.None? || newer.token.value == "" || newer.token.value == p.token {
          return p, BatchSignedOut;
        }
        p := p.(token := newer.token.value);
        refreshed := true;
        continue;
      }
      failures := failures + 1;
      if failures >= MAX_ATTEMPTS {
        GaveUpTurn(before, world, b, refreshed, task);
        return p, BatchGaveUp;
      }
      var ms := ReportBackoffMs(failures - 1, world.draw(failures - 1));
      ReportBackoffIsShiftedCurve(failures - 1, world.draw(failures - 1));
      p := p.(sleeps := p.sleeps + [ms]);
      FailedTurn(before, world, b, refreshed, task, p);
    }
  }

  // ----- One flush -----

  function KeysOf(entries: seq<ReportOutboxEntry>): (r: seq<ReportKey>)
    ensures |r| == |entries|
  {
    seq(|entries|, i requires 0 <= i < |entries| => KeyOf(entries[i]))
  }

  /** The keys taken out of the outbox: the expired entries', and those of the first `removed` batches. */
  function RemovedKeys(entries: seq<ReportOutboxEntry>, cutoff: int, expiredRemoved: bool,
      removed: nat): seq<ReportKey> {
    var pending := Pending(entries, cutoff);
    (if expiredRemoved then KeysOf(Expired(entries, cutoff)) else [])
    + KeysOf(pending[..Min(BATCH_SIZE * removed, |pending|)])
  }

  lemma {:induction false} WithoutTwice(entries: seq<ReportOutboxEntry>, a: seq<ReportKey>, b: seq<ReportKey>)
    ensures Without(Without(entries, a), b) == Without(entries, a + b)
    decreases |entries|
  {
    if entries != [] {
      var before, last := entries[..|entries| - 1], entries[|entries| - 1];
      WithoutTwice(before, a, b);
      var kept := Without(before, a);
      if KeyOf(last) in a {
        assert Without(entries, a) == kept;
      } else {
        assert (kept + [last])[..|kept|] == kept;
      }
    }
  }

  lemma NextBatch(entries: seq<ReportOutboxEntry>, cutoff: int, removed: nat)
    requires BATCH_SIZE * removed < |Pending(entries, cutoff)|
    ensures var pending := Pending(entries, cutoff);
            var batch := pending[BATCH_SIZE * removed..Min(BATCH_SIZE * removed + BATCH_SIZE, |pending|)];
            RemovedKeys(entries, cutoff, true, removed) + KeysOf(batch)
                == RemovedKeys(entries, cutoff, true, removed + 1)
  {
    var pending := Pending(entries, cutoff);
    KeysSplit(pending, BATCH_SIZE * removed, Min(BATCH_SIZE * removed + BATCH_SIZE, |pending|),
              KeysOf(Expired(entries, cutoff)));
  }

  lemma KeysOfAppend(a: seq<ReportOutboxEntry>, b: seq<ReportOutboxEntry>)
    ensures KeysOf(a + b) == KeysOf(a) + KeysOf(b)
  {
  }

  lemma KeysSplit(pending: seq<ReportOutboxEntry>, i: nat, j: nat, k: seq<ReportKey>)
    requires i <= j <= |pending|
    ensures k + KeysOf(pending[..j]) == (k + KeysOf(pending[..i])) + KeysOf(pending[i..j])
  {
    var a, b := pending[..i], pending[i..j];
    assert pending[..j] == a + b;
    KeysOfAppend(a, b);
    assert k + (KeysOf(a) + KeysOf(b)) == (k + KeysOf(a)) + KeysOf(b);
  }

  lemma BatchesLeft(n: nat, b: nat)
    ensures 100 * b < n <==> b < Batches(n)
  {
  }

  /** The calls of a flush that ended there and so. */
  predicate EndsWith(sends: seq<Sending>, world: World, task: Task, ending: Ending) {
    sends != [] && Course(sends, world, task) && EndAfter(sends, world, task) == Some(ending)
  }

  /** The calls are those of the whole flush, and it ended where and as it had to. */
  predicate RanToEnd(flush: Flush, world: World, task: Task) {
    && EndsWith(flush.sends, world, task, flush.ending)
    && flush.removed == Settled(flush.sends)
       - (if flush.ending == Broke && Settles(flush.sends[|flush.sends| - 1].outcome) then 1 else 0)
  }

  /** What a flush of these entries has done, in whatever way it ended. */
  predicate Reported(flush: Flush, world: World, batches: nat) {
    var retries := CountOf(flush.sends, Retry);
    && InOrder(flush.sends, world) && TokensFollow(flush.sends) && SleepsDrawn(flush.sleeps, world)
    && |flush.sends| <= 2 * batches + 4
    && |flush.sleeps| <= 4
    && flush.removed <= Settled(flush.sends) <= batches
    && (flush.ending != Broke ==> flush.removed == Settled(flush.sends))
    && (flush.ending == Finished <==> flush.removed == batches && batches > 0)
    && (flush.ending == GaveUp <==> retries == 5)
    && |flush.sleeps| == (if retries == 5 then 4 else retries)
    && (flush.ending == SignedOut ==> flush.sends != [] && flush.sends[|flush.sends| - 1].outcome == Unauthenticated)
    && (flush.ending in {Nothing, NoToken} ==> flush.sends == [])
    && (flush.ending == Nothing ==> batches == 0)
  }

  lemma VerdictIsReported(p: Progress, world: World, b: nat, verdict: Verdict, batches: nat)
    requires After(p, world, b, verdict) && b < batches
    ensures verdict == BatchGaveUp ==> Reported(Flush(p.sends, p.sleeps, true, b, GaveUp), world, batches)
    ensures verdict == BatchSignedOut ==> Reported(Flush(p.sends, p.sleeps, true, b, SignedOut), world, batches)
    ensures verdict in {BatchBroke, BatchSettled} ==> Reported(Flush(p.sends, p.sleeps, true, b, Broke), world, batches)
    ensures verdict == BatchSettled && b + 1 == batches ==>
              Reported(Flush(p.sends, p.sleeps, true, b + 1, Finished), world, batches)
  {
    CallsByOutcome(p.sends);
  }

  /** Before batch `b`, none of whose calls has been made. */
  predicate AtBatch(p: Progress, world: World, b: nat, task: Task) {
    && OnTrack(p, world) && TokenFits(p) && Untried(p.sends, b)
    && Settled(p.sends) == b && CountOf(p.sends, Unauthenticated) <= b
  }

  lemma AtBatchIsMid(p: Progress, world: World, b: nat, task: Task)
    requires AtBatch(p, world, b, task) && GoesOn(p, world, task)
    ensures Mid(p, world, b, false, task)
  {
    UntriedIsNotRefused(p.sends, b);
  }

  lemma VerdictEnds(p: Progress, world: World, b: nat, verdict: Verdict, task: Task)
    requires Over(p, world, b, verdict, task)
    ensures verdict == BatchSettled ==> AtBatch(p, world, b + 1, task)
    ensures verdict == BatchGaveUp ==> RanToEnd(Flush(p.sends, p.sleeps, true, b, GaveUp), world, task)
    ensures verdict == BatchSignedOut ==> RanToEnd(Flush(p.sends, p.sleeps, true, b, SignedOut), world, task)
    ensures verdict == BatchBroke && !Settles(p.sends[|p.sends| - 1].outcome) ==>
              RanToEnd(Flush(p.sends, p.sleeps, true, b, Broke), world, task)
    ensures verdict == BatchSettled && world.removeRejects(task.removals + b) ==>
              RanToEnd(Flush(p.sends, p.sleeps, true, b, Broke), world, task)
    ensures verdict == BatchSettled && !world.removeRejects(task.removals + b) && b + 1 == task.batches ==>
              RanToEnd(Flush(p.sends, p.sleeps, true, b + 1, Finished), world, task)
    ensures verdict == BatchSettled && !world.removeRejects(task.removals + b) && b + 1 != task.batches ==>
              GoesOn(p, world, task)
  {
  }

  /** The outer loop before batch `b`, or behind the last one. */
  predicate Flushing(p: Progress, world: World, b: nat, task: Task) {
    && AtBatch(p, world, b, task) && b <= task.batches
    && (if b < task.batches then GoesOn(p, world, task) else EndsWith(p.sends, world, task, Finished))
  }

  lemma FlushingStarts(world: World, token: string, task: Task)
    requires world.tokenRead(0) == Read(Some(token)) && token != "" && task.batches > 0
    ensures Flushing(Progress([], [], token, 1), world, 0, task)
  {
  }

  lemma FlushingIsMid(p: Progress, world: World, b: nat, task: Task)
    requires Flushing(p, world, b, task) && b < task.batches
    ensures Mid(p, world, b, false, task) && Untried(p.sends, b)
  {
    AtBatchIsMid(p, world, b, task);
  }

  lemma FlushingEnds(p: Progress, world: World, b: nat, task: Task)
    requires Flushing(p, world, b, task) && b == task.batches > 0
    ensures var flush := Flush(p.sends, p.sleeps, true, b, Finished);
            Reported(flush, world, task.batches) && RanToEnd(flush, world, task)
  {
    CallsByOutcome(p.sends);
  }

  lemma BatchOver(p: Progress, world: World, b: nat, verdict: Verdict, task: Task)
    requires Over(p, world, b, verdict, task) && verdict != BatchSettled && b < task.batches
    ensures var flush := Flush(p.sends, p.sleeps, true, b, EndingOf(verdict));
            Reported(flush, world, task.batches) && (verdict == BatchBroke ==> !Settles(p.sends[|p.sends| - 1].outcome))
    ensures RanToEnd(Flush(p.sends, p.sleeps, true, b, EndingOf(verdict)), world, task)
  {
    VerdictIsReported(p, world, b, verdict, task.batches);
    VerdictEnds(p, world, b, verdict, task);
  }

  lemma BatchDone(p: Progress, world: World, b: nat, task: Task)
    requires Over(p, world, b, BatchSettled, task) && b < task.batches
    ensures world.removeRejects(task.removals + b) ==>
              var flush := Flush(p.sends, p.sleeps, true, b, Broke);
              Reported(flush, world, task.batches) && RanToEnd(flush, world, task)
    ensures !world.removeRejects(task.removals + b) ==> Flushing(p, world, b + 1, task)
  {
    VerdictIsReported(p, world, b, BatchSettled, task.batches);
    VerdictEnds(p, world, b, BatchSettled, task);
  }

  function EndingOf(verdict: Verdict): Ending {
    if verdict == BatchGaveUp then GaveUp else if verdict == BatchSignedOut then SignedOut else Broke
  }

  method RemoveBatch(entries: seq<ReportOutboxEntry>, cutoff: int, b: nat, left: seq<ReportOutboxEntry>,
      batch: seq<ReportOutboxEntry>)
    returns (after: seq<ReportOutboxEntry>)
    requires BATCH_SIZE * b < |Pending(entries, cutoff)|
    requires left == Without(entries, RemovedKeys(entries, cutoff, true, b))
    requires batch == Pending(entries, cutoff)[BATCH_SIZE * b..
                        Min(BATCH_SIZE * b + BATCH_SIZE, |Pending(entries, cutoff)|)]
    ensures after == Without(entries, RemovedKeys(entries, cutoff, true, b + 1))
  {
    WithoutTwice(entries, RemovedKeys(entries, cutoff, true, b), KeysOf(batch));
    NextBatch(entries, cutoff, b);
    after := Without(left, KeysOf(batch));
  }

  /** Batch `b` was the last one: it was not settled, or its removal rejected. */
  predicate Halted(p: Progress, world: World, b: nat, task: Task, ending: Ending) {
    || (ending == Broke && Over(p, world, b, BatchSettled, task) && world.removeRejects(task.removals + b))
    || (ending == GaveUp && Over(p, world, b, BatchGaveUp, task))
    || (ending == SignedOut && Over(p, world, b, BatchSignedOut, task))
    || (ending == Broke && Over(p, world, b, BatchBroke, task))
  }

  lemma HaltedIsReported(p: Progress, world: World, b: nat, task: Task, ending: Ending)
    requires Halted(p, world, b, task, ending) && b < task.batches
    ensures var flush := Flush(p.sends, p.sleeps, true, b, ending);
            Reported(flush, world, task.batches) && RanToEnd(flush, world, task)
  {
    if Over(p, world, b, BatchSettled, task) && world.removeRejects(task.removals + b) && ending == Broke {
      BatchDone(p, world, b, task);
    } else if ending == GaveUp {
      BatchOver(p, world, b, BatchGaveUp, task);
    } else if ending == SignedOut {
      BatchOver(p, world, b, BatchSignedOut, task);
    } else {
      BatchOver(p, world, b, BatchBroke, task);
    }
  }

  /** One turn of the outer loop: a batch is sent to its end and, once settled, removed. */
  method FlushBatch(world: World, entries: seq<ReportOutboxEntry>, b: nat, p: Progress, left: seq<ReportOutboxEntry>,
      removals: nat, ghost task: Task)
    returns (next: Progress, after: seq<ReportOutboxEntry>, ended: Option<Ending>)
    requires task == Task(Batches(|Pending(entries, world.now - REPORT_TTL_MS)|), removals) && b < task.batches
    requires Flushing(p, world, b, task)
    requires left == Without(entries, RemovedKeys(entries, world.now - REPORT_TTL_MS, true, b))
    ensures ended.Some? ==> Halted(next, world, b, task, ended.value) && after == left
    ensures ended.None? ==>
              && Flushing(next, world, b + 1, task)
              && after == Without(entries, RemovedKeys(entries, world.now - REPORT_TTL_MS, true, b + 1))
  {
    var cutoff := world.now - REPORT_TTL_MS;
    var pending := Pending(entries, cutoff);
    FlushingIsMid(p, world, b, task);
    BatchesLeft(|pending|, b);
    var batch := pending[BATCH_SIZE * b..Min(BATCH_SIZE * b + BATCH_SIZE, |pending|)];
    var verdict;
    next, verdict := SendBatch(world, b, p, task);
    if verdict != BatchSettled {
      return next, left, Some(EndingOf(verdict));
    }
    if world.removeRejects(removals + b) {
      return next, left, Some(Broke);
    }
    BatchDone(next, world, b, task);
    after := RemoveBatch(entries, cutoff, b, left, batch);
    ended := None;
  }

  /** The outer loop over the pending entries, once a token has been read. */
  method SendAll(world: World, entries: seq<ReportOutboxEntry>, token: string, removals: nat)
    returns (flush: Flush, left: seq<ReportOutboxEntry>)
    requires |Pending(entries, world.now - REPORT_TTL_MS)| > 0
    requires world.tokenRead(0) == Read(Some(token)) && token != ""
    ensures Reported(flush, world, Batches(|Pending(entries, world.now - REPORT_TTL_MS)|))
    ensures RanToEnd(flush, world, Task(Batches(|Pending(entries, world.now - REPORT_TTL_MS)|), removals))
    ensures flush.expiredRemoved
    ensures left == Without(entries, RemovedKeys(entries, world.now - REPORT_TTL_MS, true, flush.removed))
  {
    var cutoff := world.now - REPORT_TTL_MS;
    var count := |Pending(entries, cutoff)|;
    ghost var task := Task(Batches(count), removals);
    var p := Progress([], [], token, 1);
    var b: nat := 0;
    assert RemovedKeys(entries, cutoff, true, 0) == KeysOf(Expired(entries, cutoff));
    left := Without(entries, KeysOf(Expired(entries, cutoff)));
    BatchesLeft(count, 0);
    FlushingStarts(world, token, task);
    while BATCH_SIZE * b < count
      invariant b <= task.batches && Flushing(p, world, b, task)
      invariant left == Without(entries, RemovedKeys(entries, cutoff, true, b))
      decreases task.batches - b
    {
      BatchesLeft(count, b);
      var ended;
      p, left, ended := FlushBatch(world, entries, b, p, left, removals, task);
      if ended.Some? {
        HaltedIsReported(p, world, b, task, ended.value);
        return Flush(p.sends, p.sleeps, true, b, ended.value), left;
      }
      b := b + 1;
    }
    BatchesLeft(count, b);
    FlushingEnds(p, world, b, task);
    flush := Flush(p.sends, p.sleeps, true, b, Finished);
  }

  /** The flush once the expired entries are out of the way. */
  method FlushPending(world: World, entries: seq<ReportOutboxEntry>, removals: nat)
    returns (flush: Flush, left: seq<ReportOutboxEntry>)
    ensures Reported(flush, world, Batches(|Pending(entries, world.now - REPORT_TTL_MS)|))
    ensures flush.expiredRemoved
    ensures left == Without(entries, RemovedKeys(entries, world.now - REPORT_TTL_MS, true, flush.removed))
    ensures var pending := Pending(entries, world.now - REPORT_TTL_MS);
            && (flush.ending == Nothing <==> pending == [])
            && (flush.ending == NoToken <==> pending != [] && world.tokenRead(0) in {Read(None), Read(Some(""))})
            && (if pending != [] && Usable(world.tokenRead(0))
                then RanToEnd(flush, world, Task(Batches(|pending|), removals))
                else flush.sends == [] && flush.removed == 0)
            && (flush.ending == Broke && flush.sends == [] <==> pending != [] && world.tokenRead(0).Rejected?)
  {
    var cutoff := world.now - REPORT_TTL_MS;
    left := Without(entries, KeysOf(Expired(entries, cutoff)));
    assert RemovedKeys(entries, cutoff, true, 0) == KeysOf(Expired(entries, cutoff));
    var pending := Pending(entries, cutoff);
    if |pending| == 0 {
      return Flush([], [], true, 0, Nothing), left;
    }
    BatchesLeft(|pending|, 0);
    var token := world.tokenRead(0);
    if token.Rejected? {
      return Flush([], [], true, 0, Broke), left;
    }
    if token.token.None? || token.token.value == "" {
      return Flush([], [], true, 0, NoToken), left;
    }
    flush, left := SendAll(world, entries, token.token.value, removals);
  }

  /** Nothing stands in the way of the removal of the expired entries. */
  predicate ExpiredGo(world: World, expired: seq<ReportOutboxEntry>) {
    expired == [] || !world.removeRejects(0)
  }

  /**
   `flushOnce`. `left` is the outbox afterwards when nothing is queued meanwhile. Each way of making no call is an
   equivalence on the world; otherwise the calls and the ending are those `RanToEnd` determines.
   */
  method FlushOnce(world: World) returns (flush: Flush, left: seq<ReportOutboxEntry>)
    ensures var entries := if world.outbox.Some? then world.outbox.value else [];
            var cutoff := world.now - 72 * 60 * 60 * 1000;
            && Reported(flush, world, Batches(|Pending(entries, cutoff)|))
            && left == Without(entries, RemovedKeys(entries, cutoff, flush.expiredRemoved, flush.removed))
            && (!flush.expiredRemoved ==> flush.ending == Broke && flush.sends == [])
    ensures var entries := if world.outbox.Some? then world.outbox.value else [];
            var cutoff := world.now - 72 * 60 * 60 * 1000;
            var expired, pending := Expired(entries, cutoff), Pending(entries, cutoff);
            var ready := world.outbox.Some? && ExpiredGo(world, expired);
            && (flush.expiredRemoved <==> ready)
            && (flush.ending == Nothing <==> ready && pending == [])
            && (flush.ending == NoToken <==>
                ready && pending != [] && world.tokenRead(0) in {Read(None), Read(Some(""))})
            && (flush.ending == Broke && flush.sends == [] <==>
                !ready || (pending != [] && world.tokenRead(0).Rejected?))
            && (if ready && pending != [] && Usable(world.tokenRead(0))
                then RanToEnd(flush, world, Task(Batches(|pending|), if expired == [] then 0 else 1))
                else flush.sends == [] && flush.removed == 0)
  {
    if world.outbox.None? {
      return Flush([], [], false, 0, Broke), [];
    }
    var entries := world.outbox.value;
    if |entries| == 0 {
      return Flush([], [], true, 0, Nothing), entries;
    }
    var expired := Expired(entries, world.now - REPORT_TTL_MS);
    var removals := 0;
    if |expired| > 0 {
      if world.removeRejects(0) {
        EmptyKeysRemoveNothing(entries);
        assert RemovedKeys(entries, world.now - REPORT_TTL_MS, false, 0) == [];
        return Flush([], [], false, 0, Broke), entries;
      }
      removals := 1;
    }
    flush, left := FlushPending(world, entries, removals);
  }

  // ----- What a flush promises -----

  lemma FirstDelays()
    ensures CeilingMs(1) == 1000 && CeilingMs(2) == 2000 && CeilingMs(3) == 4000 && CeilingMs(4) == 8000
  {
    assert Pow2(1) == 2 && Pow2(2) == 4 && Pow2(3) == 8;
  }

  /** A flush sleeps less than 15 seconds in all. */
  lemma SleepIsBounded(sleeps: seq<nat>, world: World)
    requires SleepsDrawn(sleeps, world) && |sleeps| <= 4
    ensures Total(sleeps) < 15_000
  {
    FirstDelays();
    forall i: nat | i < |sleeps|
      ensures sleeps[i] < CeilingMs(i + 1)
    {
      ReportBackoffIsShiftedCurve(i, world.draw(i));
    }
    TotalOfFour(sleeps, 1000, 2000, 4000, 8000);
  }

  lemma TotalOfFour(s: seq<nat>, a: nat, b: nat, c: nat, d: nat)
    requires |s| <= 4 && a > 0 && b > 0 && c > 0 && d > 0
    requires (|s| > 0 ==> s[0] < a) && (|s| > 1 ==> s[1] < b) && (|s| > 2 ==> s[2] < c) && (|s| > 3 ==> s[3] < d)
    ensures Total(s) < a + b + c + d
  {
    if |s| > 0 {
      var s3 := s[..|s| - 1];
      if |s3| > 0 {
        var s2 := s3[..|s3| - 1];
        if |s2| > 0 {
          assert s2[..|s2| - 1] == s[..|s| - 3];
        }
      }
    }
  }

  /** Which replies end a batch for good, which ask for a newer token, and which count as a failure. */
  lemma OutcomeIff(reply: Reply)
    ensures OutcomeOf(reply) == Sent <==> reply == Accepted
    ensures OutcomeOf(reply) == Dropped <==>
            reply in {Refused(InvalidArgument), Refused(NotFound), Refused(PermissionDenied)}
    ensures OutcomeOf(reply) == Unauthenticated <==> reply == Refused(CodeUnauthenticated)
    ensures OutcomeOf(reply) == Retry <==> reply in {Reply.Failed, Refused(OtherCode)}
  {
  }

  /** Every beginning of a flush's calls is a course of its own, and the next call is determined by it. */
  lemma {:induction false} CoursePrefix(sends: seq<Sending>, world: World, task: Task, i: nat)
    requires Course(sends, world, task) && InOrder(sends, world) && i <= |sends|
    ensures Course(sends[..i], world, task) && InOrder(sends[..i], world)
    ensures 0 < i < |sends| ==> EndAfter(sends[..i], world, task) == None
    ensures i < |sends| ==>
              && sends[i].batch == Settled(sends[..i]) && sends[i].outcome == OutcomeOf(world.reply(i))
              && world.tokenRead(CountOf(sends[..i], Unauthenticated)) == Read(Some(sends[i].token))
    decreases |sends|
  {
    if i == |sends| {
      assert sends[..i] == sends;
    } else {
      var before := sends[..|sends| - 1];
      if i < |before| {
        CoursePrefix(before, world, task, i);
        assert before[..i] == sends[..i] && before[i] == sends[i];
      } else {
        assert sends[..i] == before;
      }
    }
  }

  lemma {:induction false} SameCalls(a: seq<Sending>, b: seq<Sending>, world: World, task: Task, i: nat)
    requires Course(a, world, task) && InOrder(a, world) && Course(b, world, task) && InOrder(b, world)
    requires i <= |a| && i <= |b|
    ensures a[..i] == b[..i]
    decreases i
  {
    if i > 0 {
      SameCalls(a, b, world, task, i - 1);
      CoursePrefix(a, world, task, i - 1);
      CoursePrefix(b, world, task, i - 1);
      assert a[..i] == a[..i - 1] + [a[i - 1]] && b[..i] == b[..i - 1] + [b[i - 1]];
    }
  }

  lemma NoLonger(a: seq<Sending>, b: seq<Sending>, world: World, task: Task)
    requires a != [] && Course(a, world, task) && InOrder(a, world) && EndAfter(a, world, task).Some?
    requires Course(b, world, task) && InOrder(b, world)
    ensures |b| <= |a|
  {
    if |a| < |b| {
      SameCalls(a, b, world, task, |a|);
      assert a[..|a|] == a;
      CoursePrefix(b, world, task, |a|);
    }
  }

  /** The world leaves a flush no choice: two flushes of one task in one world made the same calls and ended alike. */
  lemma FlushIsDetermined(a: Flush, b: Flush, world: World, task: Task)
    requires RanToEnd(a, world, task) && Reported(a, world, task.batches) && a.expiredRemoved
    requires RanToEnd(b, world, task) && Reported(b, world, task.batches) && b.expiredRemoved
    ensures a == b
  {
    NoLonger(a.sends, b.sends, world, task);
    NoLonger(b.sends, a.sends, world, task);
    SameCalls(a.sends, b.sends, world, task, |a.sends|);
    assert a.sends[..|a.sends|] == a.sends && b.sends[..|a.sends|] == b.sends;
    assert a.sleeps == b.sleeps;
  }

  /** The first call carries the token of the first read. */
  lemma FirstCallHasToken(sends: seq<Sending>, world: World, task: Task)
    requires sends != [] && Course(sends, world, task) && InOrder(sends, world)
    ensures world.tokenRead(0) == Read(Some(sends[0].token)) && sends[0].batch == 0
  {
    CoursePrefix(sends, world, task, 0);
    assert sends[..0] == [];
  }

  lemma {:induction false} AllAccepted(sends: seq<Sending>, world: World, task: Task)
    requires Course(sends, world, task) && InOrder(sends, world) && forall i: nat :: world.reply(i) == Accepted
    ensures Settled(sends) == |sends| && CountOf(sends, Unauthenticated) == 0 && CountOf(sends, Retry) == 0
    ensures forall i :: 0 <= i < |sends| ==>
              sends[i].batch == i && sends[i].outcome == Sent && world.tokenRead(0) == Read(Some(sends[i].token))
    decreases |sends|
  {
    if sends != [] {
      AllAccepted(sends[..|sends| - 1], world, task);
    }
  }

  /** A server that accepts and an outbox that forgets: one call a batch, in order, with one token, and all is gone. */
  lemma AcceptedFinishes(flush: Flush, world: World, task: Task)
    requires RanToEnd(flush, world, task) && InOrder(flush.sends, world)
    requires (forall i: nat :: world.reply(i) == Accepted) && forall i: nat :: !world.removeRejects(i)
    ensures flush.ending == Finished && |flush.sends| == flush.removed == task.batches
    ensures forall i :: 0 <= i < |flush.sends| ==>
              flush.sends[i].batch == i && world.tokenRead(0) == Read(Some(flush.sends[i].token))
  {
    AllAccepted(flush.sends, world, task);
  }

  /** No earlier call for this batch was refused as unauthenticated. */
  ghost predicate FirstRefusal(sends: seq<Sending>, k: nat)
    requires k < |sends|
  {
    forall j :: 0 <= j < k && sends[j].batch == sends[k].batch ==> sends[j].outcome != Unauthenticated
  }

  lemma {:induction false} RefusedIff(sends: seq<Sending>, b: nat)
    ensures RefusedIn(sends, b) <==>
            exists j :: 0 <= j < |sends| && sends[j].batch == b && sends[j].outcome == Unauthenticated
    decreases |sends|
  {
    if sends != [] {
      RefusedIff(sends[..|sends| - 1], b);
    }
  }

  /** While calls are made some batch is left. */
  lemma {:induction false} BatchIsLeft(sends: seq<Sending>, world: World, task: Task)
    requires Course(sends, world, task) && task.batches > 0 && (sends == [] || EndAfter(sends, world, task) == None)
    ensures Settled(sends) < task.batches
    decreases |sends|
  {
    if sends != [] {
      BatchIsLeft(sends[..|sends| - 1], world, task);
    }
  }

  /** The read of the token that the `n`-th refusal asks for is a usable one, and another. */
  predicate Renewed(world: World, n: nat, token: string) {
    Usable(world.tokenRead(n)) && world.tokenRead(n).token != Some(token)
  }

  /** What makes the flush go on behind its last call `k`. */
  ghost predicate Continues(s: seq<Sending>, world: World, task: Task, k: nat)
    requires k < |s|
  {
    if world.reply(k) in {Accepted, Refused(InvalidArgument), Refused(NotFound), Refused(PermissionDenied)}
    then s[k].batch + 1 < task.batches && !world.removeRejects(task.removals + s[k].batch)
    else if world.reply(k) == Refused(CodeUnauthenticated)
    then FirstRefusal(s, k) && Renewed(world, CountOf(s[..k + 1], Unauthenticated), s[k].token)
    else CountOf(s[..k + 1], Retry) < 5
  }

  lemma DoneContinues(upto: seq<Sending>, before: seq<Sending>, world: World, task: Task)
    requires upto != [] && before == upto[..|upto| - 1] && Settled(before) < task.batches
    requires InOrder(upto, world) && upto[|before|].outcome in {Sent, Dropped}
    ensures EndAfter(upto, world, task) == None <==> Continues(upto, world, task, |before|)
  {
    assert Settled(upto) == upto[|before|].batch + 1;
    OutcomeIff(world.reply(|before|));
  }

  lemma RefusedContinues(upto: seq<Sending>, before: seq<Sending>, world: World, task: Task)
    requires upto != [] && before == upto[..|upto| - 1]
    requires InOrder(upto, world) && upto[|before|].outcome == Unauthenticated
    ensures EndAfter(upto, world, task) == None <==> Continues(upto, world, task, |before|)
  {
    var last := upto[|before|];
    RefusedIff(before, last.batch);
    assert FirstRefusal(upto, |before|) <==> !RefusedIn(before, last.batch);
    OutcomeIff(world.reply(|before|));
    assert upto[..|before| + 1] == upto && last.outcome == OutcomeOf(world.reply(|before|));
  }

  lemma LastContinues(upto: seq<Sending>, before: seq<Sending>, world: World, task: Task)
    requires upto != [] && before == upto[..|upto| - 1] && Settled(before) < task.batches
    requires InOrder(upto, world)
    ensures EndAfter(upto, world, task) == None <==> Continues(upto, world, task, |before|)
  {
    if upto[|before|].outcome == Unauthenticated {
      RefusedContinues(upto, before, world, task);
    } else if upto[|before|].outcome == Retry {
      assert upto[..|before| + 1] == upto;
      OutcomeIff(world.reply(|before|));
    } else {
      DoneContinues(upto, before, world, task);
    }
  }

  lemma ContinuesIsLocal(s: seq<Sending>, world: World, task: Task, k: nat)
    requires k < |s|
    ensures Continues(s[..k + 1], world, task, k) <==> Continues(s, world, task, k)
  {
    assert s[..k + 1][..k + 1] == s[..k + 1];
  }

  /**
   When another call follows call `k`. Behind a batch that is done: another batch is left and the removal did not
   reject. Behind a refused token: the batch's first refusal, and the next read gives a usable, different one. Behind
   any other failure: it is not the fifth.
   */
  lemma CallFollowsIff(flush: Flush, world: World, task: Task, k: nat)
    requires RanToEnd(flush, world, task) && InOrder(flush.sends, world) && task.batches > 0 && k < |flush.sends|
    ensures k + 1 < |flush.sends| <==> Continues(flush.sends, world, task, k)
  {
    var s, upto := flush.sends, flush.sends[..k + 1];
    assert k + 1 < |s| <==> EndAfter(upto, world, task) == None by {
      CoursePrefix(s, world, task, k + 1);
      assert k + 1 == |s| ==> upto == s;
    }
    assert upto[..k] == s[..k];
    CoursePrefix(s, world, task, k);
    CoursePrefix(s, world, task, k + 1);
    BatchIsLeft(s[..k], world, task);
    LastContinues(upto, s[..k], world, task);
    ContinuesIsLocal(s, world, task, k);
  }

  /** And which call: the next batch or the same one again, with the newer token behind a refusal, else the same. */
  lemma WhichCallFollows(flush: Flush, world: World, task: Task, k: nat)
    requires RanToEnd(flush, world, task) && InOrder(flush.sends, world) && k + 1 < |flush.sends|
    ensures var s := flush.sends;
            && s[k + 1].batch == s[k].batch + (if s[k].outcome in {Sent, Dropped} then 1 else 0)
            && world.tokenRead(CountOf(s[..k + 1], Unauthenticated)) == Read(Some(s[k + 1].token))
            && (s[k].outcome != Unauthenticated ==> s[k + 1].token == s[k].token)
  {
    CoursePrefix(flush.sends, world, task, k);
    CoursePrefix(flush.sends, world, task, k + 1);
    assert flush.sends[..k + 1][..k] == flush.sends[..k] && flush.sends[..k + 1][k] == flush.sends[k];
  }

  /** Nothing is reported twice: a call for a batch is its last once the server accepts or drops it. */
  lemma {:induction false} SettledOnce(sends: seq<Sending>, world: World, i: nat, j: nat)
    requires InOrder(sends, world) && i < j < |sends| && Settles(sends[i].outcome)
    ensures sends[i].batch < sends[j].batch
    decreases |sends|
  {
    var before := sends[..|sends| - 1];
    if j < |before| {
      SettledOnce(before, world, i, j);
    } else {
      SettledAtLeast(before, world, i);
    }
  }

  lemma {:induction false} SettledAtLeast(sends: seq<Sending>, world: World, i: nat)
    requires InOrder(sends, world) && i < |sends|
    ensures sends[i].batch + (if Settles(sends[i].outcome) then 1 else 0) <= Settled(sends)
    decreases |sends|
  {
    var before := sends[..|sends| - 1];
    if i < |before| {
      SettledAtLeast(before, world, i);
    }
  }

  /** Each removed batch was accepted or dropped by the server. */
  lemma {:induction false} RemovedWasSettled(sends: seq<Sending>, world: World, b: nat) returns (i: nat)
    requires InOrder(sends, world) && b < Settled(sends)
    ensures i < |sends| && sends[i].batch == b && Settles(sends[i].outcome)
    decreases |sends|
  {
    var before, last := sends[..|sends| - 1], sends[|sends| - 1];
    if b < Settled(before) {
      i := RemovedWasSettled(before, world, b);
    } else {
      i := |sends| - 1;
    }
  }

  lemma {:induction false} ExpiredOrPending(entries: seq<ReportOutboxEntry>, cutoff: int, e: ReportOutboxEntry)
    ensures e in Expired(entries, cutoff) <==> e in entries && e.enqueuedAtMs < cutoff
    ensures e in Pending(entries, cutoff) <==> e in entries && e.enqueuedAtMs >= cutoff
    decreases |entries|
  {
    if entries != [] {
      ExpiredOrPending(entries[1..], cutoff, e);
    }
  }

  /**
   With distinct keys, an entry stays exactly when it is young and not in a removed batch: the flush takes out
   the expired entries and a whole-batch prefix of the others.
   */
  lemma StaysIff(entries: seq<ReportOutboxEntry>, cutoff: int, removed: nat, e: ReportOutboxEntry)
    requires forall i, j :: 0 <= i < j < |entries| ==> KeyOf(entries[i]) != KeyOf(entries[j])
    requires e in entries
    ensures var pending := Pending(entries, cutoff);
            e in Without(entries, RemovedKeys(entries, cutoff, true, removed))
            <==> e.enqueuedAtMs >= cutoff && e !in pending[..Min(100 * removed, |pending|)]
  {
    var pending := Pending(entries, cutoff);
    var gone := pending[..Min(BATCH_SIZE * removed, |pending|)];
    var keys := RemovedKeys(entries, cutoff, true, removed);
    RemovalIsExact(entries, keys);
    ExpiredOrPending(entries, cutoff, e);
    KeyInKeys(entries, Expired(entries, cutoff), cutoff, e);
    KeyInKeys(entries, gone, cutoff, e);
  }

  lemma KeyInKeys(entries: seq<ReportOutboxEntry>, part: seq<ReportOutboxEntry>, cutoff: int, e: ReportOutboxEntry)
    requires forall i, j :: 0 <= i < j < |entries| ==> KeyOf(entries[i]) != KeyOf(entries[j])
    requires e in entries
    requires part == Expired(entries, cutoff) || part <= Pending(entries, cutoff)
    ensures KeyOf(e) in KeysOf(part) <==> e in part
  {
    if e in part {
      var i :| 0 <= i < |part| && part[i] == e;
      assert KeysOf(part)[i] == KeyOf(e);
    }
    if KeyOf(e) in KeysOf(part) {
      var i :| 0 <= i < |part| && KeysOf(part)[i] == KeyOf(e);
      ExpiredOrPending(entries, cutoff, part[i]);
      assert part[i] in entries;
    }
  }

  // ----- One flush at a time -----

  /** What an observer of the flusher sees: requests, and the start and end of each flush. */
  datatype Note = Asked | Began | Ended

  /** A caller asks for a flush, or the flush under way ends. */
  datatype Event = Request | FlushEnds

  datatype State = State(running: bool, rerun: bool, log: seq<Note>)

  const IDLE := State(false, false, [])

  function Step(s: State, event: Event): State {
    match event
    case Request =>
      if s.running then s.(rerun := true, log := s.log + [Asked])
      else State(true, false, s.log + [Asked, Began])
    case FlushEnds =>
      if !s.running then s
      else if s.rerun then State(true, false, s.log + [Ended, Began])
      else State(false, false, s.log + [Ended])
  }

  function Run(events: seq<Event>): State {
    if events == [] then IDLE else Step(Run(events[..|events| - 1]), events[|events| - 1])
  }

  class ReportOutboxFlusher {
    var running: bool
    var rerun: bool
    ghost var log: seq<Note>

    ghost function View(): State
      reads this
    {
      State(running, rerun, log)
    }

    constructor ()
      ensures View() == IDLE
    {
      running, rerun, log := false, false, [];
    }

    /** `flush`: joins the flush under way, asking for one more after it, or starts one. */
    method Flush()
      modifies this
      ensures View() == old(Step(View(), Request))
    {
      log := log + [Asked];
      if running {
        rerun := true;
        return;
      }
      running := true;
      BeginFlush();
      assert log == old(log) + [Asked, Began];
    }

    /** The top of the drain loop. */
    method BeginFlush()
      modifies this
      ensures View() == old(View()).(rerun := false, log := old(log) + [Began])
    {
      rerun := false;
      log := log + [Began];
    }

    /**
     The flush under way ends, however it ends. The loop's test and the clearing of `running` are one step here.
     */
    method FlushEnded()
      requires running
      modifies this
      ensures View() == old(Step(View(), FlushEnds))
    {
      log := log + [Ended];
      if rerun {
        BeginFlush();
        assert log == old(log) + [Ended, Began];
      } else {
        running := false;
      }
    }
  }

  function Under(log: seq<Note>): int {
    if log == [] then 0
    else Under(log[..|log| - 1]) + (match log[|log| - 1] case Asked => 0 case Began => 1 case Ended => -1)
  }

  lemma UnderSnoc(log: seq<Note>, note: Note)
    ensures Under(log + [note]) == Under(log) + (match note case Asked => 0 case Began => 1 case Ended => -1)
  {
    assert (log + [note])[..|log|] == log;
  }

  /** At every moment at most one flush is under way. */
  predicate OneAtATime(log: seq<Note>) {
    log == [] || (OneAtATime(log[..|log| - 1]) && 0 <= Under(log) <= 1)
  }

  predicate AskedSinceBegan(log: seq<Note>) {
    log != [] && log[|log| - 1] != Began && (log[|log| - 1] == Asked || AskedSinceBegan(log[..|log| - 1]))
  }

  /** Every flush was asked for after the one before it began. */
  predicate EachWasAsked(log: seq<Note>) {
    log == []
    || (EachWasAsked(log[..|log| - 1]) && (log[|log| - 1] == Began ==> AskedSinceBegan(log[..|log| - 1])))
  }

  lemma Snoc(log: seq<Note>, note: Note)
    requires OneAtATime(log) && EachWasAsked(log)
    requires note == Began ==> Under(log) == 0 && AskedSinceBegan(log)
    requires note == Ended ==> Under(log) == 1
    ensures OneAtATime(log + [note]) && EachWasAsked(log + [note])
    ensures Under(log + [note]) == Under(log) + (match note case Asked => 0 case Began => 1 case Ended => -1)
    ensures AskedSinceBegan(log + [note]) <==> note == Asked || (note == Ended && AskedSinceBegan(log))
  {
    UnderSnoc(log, note);
    assert (log + [note])[..|log|] == log;
    assert OneAtATime(log) ==> log == [] || 0 <= Under(log) <= 1;
  }

  predicate Coherent(s: State) {
    && OneAtATime(s.log) && EachWasAsked(s.log)
    && Under(s.log) == (if s.running then 1 else 0)
    && (s.rerun <==> AskedSinceBegan(s.log))
    && (s.rerun ==> s.running)
  }

  lemma StepKeepsCoherent(s: State, event: Event)
    requires Coherent(s)
    ensures Coherent(Step(s, event))
  {
    match event
    case Request =>
      Snoc(s.log, Asked);
      if !s.running {
        Snoc(s.log + [Asked], Began);
        assert s.log + [Asked, Began] == s.log + [Asked] + [Began];
      }
    case FlushEnds =>
      if s.running {
        Snoc(s.log, Ended);
        if s.rerun {
          Snoc(s.log + [Ended], Began);
          assert s.log + [Ended, Began] == s.log + [Ended] + [Began];
        }
      }
  }

  /**
   In every run at most one flush is under way, and each was asked for after the one before it began: requests
   made meanwhile cost one more flush between them. `rerun` says exactly that a request still waits.
   */
  lemma {:induction false} RunIsCoherent(events: seq<Event>)
    ensures Coherent(Run(events))
    decreases |events|
  {
    if events != [] {
      RunIsCoherent(events[..|events| - 1]);
      StepKeepsCoherent(Run(events[..|events| - 1]), events[|events| - 1]);
    }
  }

  lemma {:induction false} NothingAskedMeansCovered(log: seq<Note>, i: nat) returns (j: nat)
    requires i < |log| && log[i] == Asked && !AskedSinceBegan(log)
    ensures i < j < |log| && log[j] == Began
    decreases |log|
  {
    if log[|log| - 1] == Began {
      j := |log| - 1;
    } else {
      j := NothingAskedMeansCovered(log[..|log| - 1], i);
    }
  }

  /** Whenever the flusher is idle, every request has had a flush that began after it. */
  lemma EveryRequestIsCovered(events: seq<Event>, i: nat) returns (j: nat)
    requires i < |Run(events).log| && Run(events).log[i] == Asked && !Run(events).running
    ensures i < j < |Run(events).log| && Run(events).log[j] == Began
  {
    RunIsCoherent(events);
    j := NothingAskedMeansCovered(Run(events).log, i);
  }
}

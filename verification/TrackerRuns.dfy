/** What holds over every run of the report tracker. */
module TrackerRuns {
  import opened Common
  import opened SocketTypes
  import opened TrackerSpec
  import Backoff
  import SeenSets

  // ----- The invariant -----

  ghost predicate DistinctKeys(pending: seq<PendingReport>) {
    forall i, j :: 0 <= i < j < |pending| ==> pending[i].SentKey() != pending[j].SentKey()
  }

  ghost predicate Inv(t: Tracker) {
    && |t.pending| <= OUTBOX_CAPACITY
    && DistinctKeys(t.pending)
    && (forall e :: e in t.pending ==> e.messageId != "" && e.attempts >= 0 && e.SentKey() !in t.sent)
    && SeenSets.Consistent(t.sent, SENT_CAPACITY)
  }

  lemma IndexOfHolds(pending: seq<PendingReport>, key: string)
    ensures Holds(pending, key) <==> IndexOf(pending, key) < |pending|
  {
  }

  lemma QueueKeepsInv(t: Tracker, m: string, sm: string, s: DeliveryStatus, r: string)
    requires Inv(t)
    ensures Inv(AfterQueue(t, m, sm, s, r))
  {
    if Accepts(t, m, s) {
      var all := t.pending + [PendingReport(m, sm, s, r, 0, None)];
      assert DistinctKeys(all);
      forall e | e in LastN(all, OUTBOX_CAPACITY) ensures e in all {
      }
    }
  }

  lemma RemovalKeepsEntries(pending: seq<PendingReport>, i: nat)
    requires i < |pending| && DistinctKeys(pending)
    ensures DistinctKeys(RemoveAt(pending, i))
    ensures forall e :: e in RemoveAt(pending, i) ==> e in pending && e.SentKey() != pending[i].SentKey()
    ensures forall e :: e in pending && e.SentKey() != pending[i].SentKey() ==> e in RemoveAt(pending, i)
  {
    var rest := RemoveAt(pending, i);
    assert forall k :: 0 <= k < |rest| ==> rest[k] == pending[if k < i then k else k + 1];
    forall e | e in pending && e.SentKey() != pending[i].SentKey() ensures e in rest {
      var k :| 0 <= k < |pending| && pending[k] == e;
      assert rest[if k < i then k else k - 1] == e;
    }
  }

  lemma AcceptanceKeepsInv(t: Tracker, i: nat)
    requires Inv(t) && i < |t.pending|
    ensures Inv(AfterAccepted(t, i))
  {
    var key := t.pending[i].SentKey();
    RemovalKeepsEntries(t.pending, i);
    SeenSets.InsertedStaysConsistent(t.sent, SENT_CAPACITY, key);
    assert forall k :: k in SeenSets.Inserted(t.sent, SENT_CAPACITY, key) ==> k in t.sent || k == key;
  }

  lemma AckKeepsInv(t: Tracker, ack: Ack, nowMs: int, draw: real)
    requires Inv(t)
    ensures Inv(AfterAck(t, ack, nowMs, draw))
  {
    var i := IndexOf(t.pending, ack.token);
    if ack.token != "" && i < |t.pending| {
      if ack.accepted {
        AcceptanceKeepsInv(t, i);
      } else {
        RemovalKeepsEntries(t.pending, i);
      }
    }
  }

  /** Every operation keeps the outbox bounded, its keys distinct and disjoint from the sent-set. */
  lemma StepKeepsInv(t: Tracker, op: Op)
    requires Inv(t)
    ensures Inv(Step(t, op))
  {
    match op
    case Queue(m, sm, s, r) => QueueKeepsInv(t, m, sm, s, r);
    case Flush(now, mode) =>
    case Closed =>
    case HandleAck(ack, now, draw) => AckKeepsInv(t, ack, now, draw);
  }

  lemma {:induction false} RunKeepsInv(t: Tracker, ops: seq<Op>)
    requires Inv(t)
    ensures Inv(Run(t, ops))
    decreases |ops|
  {
    if ops != [] {
      RunKeepsInv(t, ops[..|ops| - 1]);
      StepKeepsInv(Run(t, ops[..|ops| - 1]), ops[|ops| - 1]);
    }
  }

  lemma {:induction false} RunAppend(t: Tracker, a: seq<Op>, b: seq<Op>)
    ensures Run(t, a + b) == Run(Run(t, a), b)
    decreases |b|
  {
    if b == [] {
      assert a + b == a;
    } else {
      assert (a + b)[..|a + b| - 1] == a + b[..|b| - 1];
      RunAppend(t, a, b[..|b| - 1]);
    }
  }

  /** A restart reads back what was persisted; only the in-flight keys are forgotten. */
  lemma RestartForgetsOnlyInFlight(t: Tracker)
    requires Inv(t)
    ensures Tracker(t.pending, SeenSets.Replay([], SENT_CAPACITY, t.sent), {}) == AfterClosed(t)
  {
    SeenSets.RestoreIsIdentity(t.sent, SENT_CAPACITY);
  }

  /** An Ack selects one (message id, status) entry at most, and the very one its token was built from. */
  lemma AckSelectsItsEntry(t: Tracker, token: string, m: string, s: DeliveryStatus)
    requires Inv(t)
    requires token == Key(m, s)
    ensures forall e, e' :: e in t.pending && e' in t.pending && e.SentKey() == token == e'.SentKey() ==> e == e'
    ensures forall e :: e in t.pending && e.SentKey() == token ==> e.messageId == m && e.status == s
  {
    forall e | e in t.pending && e.SentKey() == token ensures e.messageId == m && e.status == s {
      KeyIsInjective(e.messageId, e.status, m, s);
    }
  }

  lemma RemovedKeyIsGone(pending: seq<PendingReport>, i: nat)
    requires i < |pending| && DistinctKeys(pending)
    ensures !Holds(RemoveAt(pending, i), pending[i].SentKey())
  {
    RemovalKeepsEntries(pending, i);
    var rest := RemoveAt(pending, i);
    forall k | 0 <= k < |rest| ensures rest[k].SentKey() != pending[i].SentKey() {
      assert rest[k] in rest;
    }
  }

  // ----- What a flush sends -----

  lemma {:induction false} ToSendIsSelected(pending: seq<PendingReport>, inFlight: set<string>, now: int,
      mode: FlushMode)
    ensures forall e :: e in ToSend(pending, inFlight, now, mode) <==> e in pending && Selected(e, inFlight, now, mode)
    decreases |pending|
  {
    if pending != [] {
      var before := pending[..|pending| - 1];
      ToSendIsSelected(before, inFlight, now, mode);
      assert pending == before + [pending[|pending| - 1]];
    }
  }

  lemma {:induction false} ToSendIsDistinct(pending: seq<PendingReport>, inFlight: set<string>, now: int,
      mode: FlushMode)
    requires DistinctKeys(pending)
    ensures DistinctKeys(ToSend(pending, inFlight, now, mode))
    decreases |pending|
  {
    if pending != [] {
      var before := pending[..|pending| - 1];
      ToSendIsDistinct(before, inFlight, now, mode);
      ToSendIsSelected(before, inFlight, now, mode);
      var sends := ToSend(before, inFlight, now, mode);
      forall i | 0 <= i < |sends| ensures sends[i].SentKey() != pending[|pending| - 1].SentKey() {
        assert sends[i] in before;
      }
    }
  }

  /** A flush sends exactly the selected entries, each key once. */
  lemma FlushSendsSelected(pending: seq<PendingReport>, inFlight: set<string>, now: int, mode: FlushMode)
    ensures forall e :: e in ToSend(pending, inFlight, now, mode) <==> e in pending && Selected(e, inFlight, now, mode)
    ensures DistinctKeys(pending) ==> DistinctKeys(ToSend(pending, inFlight, now, mode))
  {
    ToSendIsSelected(pending, inFlight, now, mode);
    if DistinctKeys(pending) {
      ToSendIsDistinct(pending, inFlight, now, mode);
    }
  }

  /**
   Which entries a flush hands out, mode by mode: of those not in flight, `All` takes what is not deferred any more,
   `DeferredOnly` what had a deadline and reached it, `ForwardFailureRetryOnly` what was refused and has no deadline.
   */
  lemma FlushHandsOutIff(
    pending: seq<PendingReport>, inFlight: set<string>, now: int, mode: FlushMode, e: PendingReport)
    ensures e in ToSend(pending, inFlight, now, mode) <==>
            && e in pending && e.SentKey() !in inFlight
            && (mode == All ==> e.deferUntilMs == None || e.deferUntilMs.value <= now)
            && (mode == DeferredOnly ==> e.deferUntilMs != None && e.deferUntilMs.value <= now)
            && (mode == ForwardFailureRetryOnly ==> e.deferUntilMs == None && e.attempts >= 1)
  {
    ToSendIsSelected(pending, inFlight, now, mode);
  }

  /** What a forward failure leaves of its report: one attempt more, no deadline, nothing in flight. */
  lemma ForwardFailureLeaves(t: Tracker, ack: Ack, nowMs: int, draw: real, e: PendingReport)
    requires Inv(t) && e in t.pending && ack.token == e.SentKey() && e.attempts < 3
    requires !ack.accepted && ack.error == "upstream_forward_failed"
    ensures var after := AfterAck(t, ack, nowMs, draw);
            && e.(attempts := e.attempts + 1, deferUntilMs := None) in after.pending
            && e.SentKey() !in after.inFlight
  {
    IndexOfHolds(t.pending, ack.token);
    var i := IndexOf(t.pending, ack.token);
    KeyIsNeverEmpty(e.messageId, e.status);
    assert t.pending[i] == e;
    var after := AfterAck(t, ack, nowMs, draw).pending;
    assert after[i] in after;
  }

  /** The keys operation `op` puts on the wire. */
  function Sent(t: Tracker, op: Op): set<string> {
    if op.Flush? then Keys(ToSend(t.pending, t.inFlight, op.nowMs, op.mode)) else {}
  }

  /** The three things that allow a key to be sent again. */
  ghost predicate Releases(t: Tracker, op: Op, key: string) {
    || op.Closed?
    || (op.Queue? && Accepts(t, op.messageId, op.status) && Key(op.messageId, op.status) == key)
    || (op.HandleAck? && op.ack.token == key && !op.ack.accepted
         && op.ack.error in {"rate_limited", "upstream_forward_failed"})
  }

  /** Blocked from being sent: on the wire unanswered, or gone from the outbox. */
  ghost predicate Blocked(t: Tracker, key: string) {
    key in t.inFlight || !Holds(t.pending, key)
  }

  lemma SendBlocks(t: Tracker, op: Op, key: string)
    ensures key in Sent(t, op) ==> Blocked(Step(t, op), key)
    ensures Blocked(t, key) ==> key !in Sent(t, op)
  {
    if op.Flush? {
      FlushSendsSelected(t.pending, t.inFlight, op.nowMs, op.mode);
    }
  }

  /** One entry replaced under the same key, one entry removed, or nothing. */
  ghost predicate OneEntryChanged(p: seq<PendingReport>, p': seq<PendingReport>, i: nat) {
    || p' == p
    || (i < |p| && p' == RemoveAt(p, i))
    || (i < |p| == |p'| && p' == p[i := p'[i]] && p'[i].SentKey() == p[i].SentKey())
  }

  lemma AckChangesOneEntry(t: Tracker, ack: Ack, nowMs: int, draw: real)
    ensures OneEntryChanged(t.pending, AfterAck(t, ack, nowMs, draw).pending, IndexOf(t.pending, ack.token))
  {
  }

  lemma OneChangeAddsNoKey(p: seq<PendingReport>, p': seq<PendingReport>, i: nat, key: string)
    requires OneEntryChanged(p, p', i)
    ensures Holds(p', key) ==> Holds(p, key)
  {
    if Holds(p', key) {
      var k :| 0 <= k < |p'| && p'[k].SentKey() == key;
      var was := p[if |p'| < |p| && k >= i then k + 1 else k];
      assert was.SentKey() == key;
    }
  }

  lemma AckAddsNoKey(t: Tracker, ack: Ack, nowMs: int, draw: real, key: string)
    ensures Holds(AfterAck(t, ack, nowMs, draw).pending, key) ==> Holds(t.pending, key)
  {
    AckChangesOneEntry(t, ack, nowMs, draw);
    OneChangeAddsNoKey(t.pending, AfterAck(t, ack, nowMs, draw).pending, IndexOf(t.pending, ack.token), key);
  }

  lemma AckKeepsBlocked(t: Tracker, ack: Ack, nowMs: int, draw: real, key: string)
    requires Blocked(t, key) && DistinctKeys(t.pending)
    requires !(ack.token == key && !ack.accepted && ack.error in {"rate_limited", "upstream_forward_failed"})
    ensures Blocked(AfterAck(t, ack, nowMs, draw), key)
  {
    var i := IndexOf(t.pending, ack.token);
    AckAddsNoKey(t, ack, nowMs, draw, key);
    if i < |t.pending| && ack.token == key {
      RemovedKeyIsGone(t.pending, i);
    }
  }

  lemma BlockedStays(t: Tracker, op: Op, key: string)
    requires Blocked(t, key) && DistinctKeys(t.pending)
    requires !Releases(t, op, key)
    ensures Blocked(Step(t, op), key)
  {
    match op
    case Queue(m, sm, s, r) =>
      if Accepts(t, m, s) && key !in t.inFlight {
        var all := t.pending + [PendingReport(m, sm, s, r, 0, None)];
        assert !Holds(all, key);
        assert forall e :: e in LastN(all, OUTBOX_CAPACITY) ==> e in all;
      }
    case Flush(now, mode) =>
    case Closed =>
    case HandleAck(ack, now, draw) => AckKeepsBlocked(t, ack, now, draw, key);
  }

  lemma PrefixStep(t: Tracker, ops: seq<Op>, n: nat)
    requires n < |ops|
    ensures Run(t, ops[..n + 1]) == Step(Run(t, ops[..n]), ops[n])
  {
    assert ops[..n + 1][..n] == ops[..n];
  }

  lemma {:induction false} StaysBlocked(t: Tracker, ops: seq<Op>, from: nat, upto: nat, key: string)
    requires Inv(t) && from <= upto <= |ops|
    requires Blocked(Run(t, ops[..from]), key)
    requires forall m :: from <= m < upto ==> !Releases(Run(t, ops[..m]), ops[m], key)
    ensures Blocked(Run(t, ops[..upto]), key)
    decreases upto
  {
    if from < upto {
      var now := Run(t, ops[..upto - 1]);
      StaysBlocked(t, ops, from, upto - 1, key);
      RunKeepsInv(t, ops[..upto - 1]);
      BlockedStays(now, ops[upto - 1], key);
      PrefixStep(t, ops, upto - 1);
    }
  }

  /**
   Over any run, two sends of one (message id, status) are separated by a `rate_limited` or
   `upstream_forward_failed` Ack for that token, by a closed connection, or by the report being queued
   anew after it had left the outbox. No other Ack ever causes a second send.
   */
  lemma ResendNeedsCause(t: Tracker, ops: seq<Op>, i: nat, j: nat, key: string)
    requires Inv(t) && i < j < |ops|
    requires key in Sent(Run(t, ops[..i]), ops[i]) && key in Sent(Run(t, ops[..j]), ops[j])
    ensures exists m :: i < m < j && Releases(Run(t, ops[..m]), ops[m], key)
  {
    if forall m :: i < m < j ==> !Releases(Run(t, ops[..m]), ops[m], key) {
      PrefixStep(t, ops, i);
      SendBlocks(Run(t, ops[..i]), ops[i], key);
      StaysBlocked(t, ops, i + 1, j, key);
      SendBlocks(Run(t, ops[..j]), ops[j], key);
    }
  }

  /** An Ack with any error outside the closed vocabulary, the empty one included, changes nothing. */
  lemma UnknownErrorChangesNothing(t: Tracker, ack: Ack, nowMs: int, draw: real)
    requires !ack.accepted
    requires ack.error !in {"rate_limited", "upstream_forward_failed", "unsupported_status"}
    ensures AfterAck(t, ack, nowMs, draw) == t
    ensures Correlates(t, ack.token) ==> OutcomeOf(t, ack) == Rejected(ack.error)
  {
    IndexOfHolds(t.pending, ack.token);
  }

  /** `unsupported_status` is permanent: the report leaves the outbox at once. */
  lemma UnsupportedStatusDrops(t: Tracker, ack: Ack, nowMs: int, draw: real)
    requires Inv(t) && Correlates(t, ack.token)
    requires !ack.accepted && ack.error == "unsupported_status"
    ensures !Holds(AfterAck(t, ack, nowMs, draw).pending, ack.token)
    ensures ack.token !in AfterAck(t, ack, nowMs, draw).inFlight
    ensures AfterAck(t, ack, nowMs, draw).sent == t.sent
  {
    IndexOfHolds(t.pending, ack.token);
    RemovedKeyIsGone(t.pending, IndexOf(t.pending, ack.token));
  }

  // ----- Evicted while in flight -----

  /** A report just queued goes out with the flush behind it exactly when its key is not in flight already. */
  lemma QueuedGoesOutIff(t: Tracker, m: string, sm: string, s: DeliveryStatus, r: string, now: int, mode: FlushMode)
    requires Accepts(t, m, s)
    ensures Holds(AfterQueue(t, m, sm, s, r).pending, Key(m, s))
    ensures Key(m, s) in Sent(AfterQueue(t, m, sm, s, r), Flush(now, mode)) <==> mode.All? && Key(m, s) !in t.inFlight
  {
    var t' := AfterQueue(t, m, sm, s, r);
    var e := PendingReport(m, sm, s, r, 0, None);
    assert t'.pending[|t'.pending| - 1] == e;
    FlushSendsSelected(t'.pending, t'.inFlight, now, mode);
    var sends := ToSend(t'.pending, t'.inFlight, now, mode);
    if Key(m, s) in Keys(sends) {
      var x :| x in sends && x.SentKey() == Key(m, s);
      NewestOfItsKey(t.pending, e, x);
    }
    if mode.All? && Key(m, s) !in t.inFlight {
      assert e in sends;
    }
  }

  lemma LastNIsPart<T>(s: seq<T>, n: nat, x: T)
    requires x in LastN(s, n)
    ensures x in s
  {
  }

  lemma NewestOfItsKey(pending: seq<PendingReport>, e: PendingReport, x: PendingReport)
    requires !Holds(pending, e.SentKey())
    requires x in LastN(pending + [e], OUTBOX_CAPACITY) && x.SentKey() == e.SentKey()
    ensures x == e
  {
    LastNIsPart(pending + [e], OUTBOX_CAPACITY, x);
    assert forall y :: y in pending ==> y.SentKey() != e.SentKey();
  }

  /**
   An evicted entry leaves its key in flight: when the same report is queued again on that connection
   it waits, unsent in every mode, until an Ack for its token or the end of the connection.
   */
  lemma RequeuedAfterEvictionWaits(t: Tracker, m: string, sm: string, s: DeliveryStatus, r: string, now: int,
      mode: FlushMode)
    requires Accepts(t, m, s) && Key(m, s) in t.inFlight
    ensures Holds(AfterQueue(t, m, sm, s, r).pending, Key(m, s))
    ensures Key(m, s) !in Sent(AfterQueue(t, m, sm, s, r), Flush(now, mode))
    ensures Key(m, s) in Sent(AfterClosed(AfterQueue(t, m, sm, s, r)), Flush(now, All))
  {
    QueuedGoesOutIff(t, m, sm, s, r, now, mode);
    QueuedGoesOutIff(AfterClosed(t), m, sm, s, r, now, All);
  }

  /** Queueing one report of the status for each id. */
  function QueueAll(ids: seq<string>, s: DeliveryStatus): seq<Op> {
    if ids == [] then [] else QueueAll(ids[..|ids| - 1], s) + [Queue(ids[|ids| - 1], "", s, "")]
  }

  function NewEntry(id: string, s: DeliveryStatus): PendingReport {
    PendingReport(id, "", s, "", 0, None)
  }

  function NewEntries(ids: seq<string>, s: DeliveryStatus): (r: seq<PendingReport>)
    ensures |r| == |ids|
    ensures forall i :: 0 <= i < |ids| ==> r[i] == NewEntry(ids[i], s)
  {
    seq(|ids|, i requires 0 <= i < |ids| => NewEntry(ids[i], s))
  }

  /** Ids the tracker can take one after the other. */
  ghost predicate Untaken(t: Tracker, ids: seq<string>, s: DeliveryStatus) {
    Distinct(ids) && forall id :: id in ids ==> Accepts(t, id, s)
  }

  lemma KeyNotAmongNew(ids: seq<string>, s: DeliveryStatus, m: string, e: PendingReport)
    requires m !in ids && e in NewEntries(ids, s)
    ensures e.SentKey() != Key(m, s)
  {
    var i :| 0 <= i < |ids| && NewEntries(ids, s)[i] == e;
    KeyIsInjective(ids[i], s, m, s);
  }

  lemma KeyNotAmong(entries: seq<PendingReport>, ids: seq<string>, s: DeliveryStatus, m: string)
    requires m !in ids && !Holds(entries, Key(m, s))
    ensures !Holds(LastN(entries + NewEntries(ids, s), OUTBOX_CAPACITY), Key(m, s))
  {
    var all := entries + NewEntries(ids, s);
    forall e | e in LastN(all, OUTBOX_CAPACITY)
      ensures e.SentKey() != Key(m, s)
    {
      LastNIsPart(all, OUTBOX_CAPACITY, e);
      assert forall y :: y in entries ==> y.SentKey() != Key(m, s);
      if e !in entries {
        KeyNotAmongNew(ids, s, m, e);
      }
    }
  }

  lemma NewEntriesGrow(ids: seq<string>, s: DeliveryStatus)
    requires ids != []
    ensures NewEntries(ids, s) == NewEntries(ids[..|ids| - 1], s) + [NewEntry(ids[|ids| - 1], s)]
  {
  }

  lemma UntakenShrinks(t: Tracker, ids: seq<string>, s: DeliveryStatus)
    requires Untaken(t, ids, s) && ids != []
    ensures Untaken(t, ids[..|ids| - 1], s) && ids[|ids| - 1] !in ids[..|ids| - 1] && Accepts(t, ids[|ids| - 1], s)
  {
    assert ids[|ids| - 1] in ids;
    assert forall id :: id in ids[..|ids| - 1] ==> id in ids;
  }

  lemma QueueAllStep(t: Tracker, ids: seq<string>, s: DeliveryStatus)
    requires ids != []
    ensures Run(t, QueueAll(ids, s)) ==
            AfterQueue(Run(t, QueueAll(ids[..|ids| - 1], s)), ids[|ids| - 1], "", s, "")
  {
    var ops := QueueAll(ids, s);
    assert ops[..|ops| - 1] == QueueAll(ids[..|ids| - 1], s);
  }

  lemma {:induction false} QueueAllFills(t: Tracker, ids: seq<string>, s: DeliveryStatus)
    requires Untaken(t, ids, s) && |t.pending| <= 200
    ensures Run(t, QueueAll(ids, s)) == t.(pending := LastN(t.pending + NewEntries(ids, s), 200))
    decreases |ids|
  {
    if ids == [] {
      assert t.pending + NewEntries(ids, s) == t.pending;
    } else {
      var before, last := ids[..|ids| - 1], ids[|ids| - 1];
      UntakenShrinks(t, ids, s);
      QueueAllFills(t, before, s);
      QueueAllStep(t, ids, s);
      QueueOneMore(t, before, last, s);
      NewEntriesGrow(ids, s);
      assert t.pending + NewEntries(ids, s) == (t.pending + NewEntries(before, s)) + [NewEntry(last, s)];
    }
  }

  lemma QueueOneMore(t: Tracker, before: seq<string>, last: string, s: DeliveryStatus)
    requires Accepts(t, last, s) && last !in before
    ensures var all := t.pending + NewEntries(before, s);
            AfterQueue(t.(pending := LastN(all, OUTBOX_CAPACITY)), last, "", s, "")
            == t.(pending := LastN(all + [NewEntry(last, s)], OUTBOX_CAPACITY))
  {
    KeyNotAmong(t.pending, before, s, last);
    LastNOfAppend(t.pending + NewEntries(before, s), OUTBOX_CAPACITY, NewEntry(last, s));
  }

  lemma FilledHoldsOnlyNew(pending: seq<PendingReport>, ids: seq<string>, s: DeliveryStatus, m: string)
    requires |ids| >= 200 && m !in ids
    ensures !Holds(LastN(pending + NewEntries(ids, s), OUTBOX_CAPACITY), Key(m, s))
  {
    var all := pending + NewEntries(ids, s);
    assert LastN(all, OUTBOX_CAPACITY) == LastN([] + NewEntries(ids, s), OUTBOX_CAPACITY);
    KeyNotAmong([], ids, s, m);
  }

  /**
   Two hundred other reports queued on the same connection evict an entry and leave its key in flight: it can be
   queued again, and then waits in every mode.
   */
  lemma EvictionLeavesInFlight(t: Tracker, m: string, s: DeliveryStatus, ids: seq<string>, now: int, mode: FlushMode)
    requires Inv(t) && Holds(t.pending, Key(m, s)) && Key(m, s) in t.inFlight && m != ""
    requires Untaken(t, ids, s) && |ids| >= 200 && m !in ids
    ensures var after := Run(t, QueueAll(ids, s));
            && !Holds(after.pending, Key(m, s)) && Key(m, s) in after.inFlight && Accepts(after, m, s)
            && Key(m, s) !in Sent(AfterQueue(after, m, "", s, ""), Flush(now, mode))
  {
    QueueAllFills(t, ids, s);
    FilledHoldsOnlyNew(t.pending, ids, s, m);
    var i :| 0 <= i < |t.pending| && t.pending[i].SentKey() == Key(m, s);
    assert t.pending[i] in t.pending;
    QueuedGoesOutIff(Run(t, QueueAll(ids, s)), m, "", s, "", now, mode);
  }

  /** Ids told apart by their length. */
  function Fillers(n: nat): (ids: seq<string>)
    ensures |ids| == n && forall i :: 0 <= i < n ==> |ids[i]| == i + 2
  {
    seq(n, i requires 0 <= i < n => seq(i + 2, _ => 'f'))
  }

  lemma FillersAreUntaken(t: Tracker, m: string, s: DeliveryStatus)
    requires t.pending == [NewEntry(m, s)] && t.sent == [] && |m| == 1
    ensures Untaken(t, Fillers(200), s) && m !in Fillers(200)
  {
    forall id | id in Fillers(200)
      ensures Accepts(t, id, s)
    {
      KeyIsInjective(id, s, m, s);
    }
  }

  lemma QueuedAndFlushed(s: DeliveryStatus, now: int)
    ensures Run(Tracker([], [], {}), [Queue("m", "", s, ""), Flush(now, All)])
            == Tracker([NewEntry("m", s)], [], {Key("m", s)})
  {
    var start := Tracker([], [], {});
    var first := [Queue("m", "", s, ""), Flush(now, All)];
    assert first[..1] == [Queue("m", "", s, "")] && first[..1][..0] == [];
    var e := NewEntry("m", s);
    assert start.pending + [e] == [e];
    assert Run(start, first[..1]) == start.(pending := [e]);
    assert [e][..0] == [];
    assert ToSend([e], {}, now, All) == [e];
  }

  /** The run: from nothing, one report queued and flushed, two hundred more queued, the first one queued again. */
  lemma EvictionRunExists(s: DeliveryStatus, now: int, mode: FlushMode)
    ensures var ops := [Queue("m", "", s, ""), Flush(now, All)] + QueueAll(Fillers(200), s);
            var end := Run(Tracker([], [], {}), ops);
            && Accepts(end, "m", s)
            && Key("m", s) !in Sent(AfterQueue(end, "m", "", s, ""), Flush(now, mode))
  {
    var start, first := Tracker([], [], {}), [Queue("m", "", s, ""), Flush(now, All)];
    QueuedAndFlushed(s, now);
    var t := Run(start, first);
    assert t.pending[0].SentKey() == Key("m", s);
    FillersAreUntaken(t, "m", s);
    RunKeepsInv(start, first);
    EvictionLeavesInFlight(t, "m", s, Fillers(200), now, mode);
    RunAppend(start, first, QueueAll(Fillers(200), s));
  }

  // ----- In flight -----

  /** The operations that let go of a key in flight: the end of a connection, and an Ack of the closed vocabulary. */
  ghost predicate LetsGo(t: Tracker, op: Op, key: string) {
    || op.Closed?
    || (op.HandleAck? && op.ack.token == key && Correlates(t, key)
        && (op.ack.accepted || op.ack.error in {"rate_limited", "upstream_forward_failed", "unsupported_status"}))
  }

  lemma AckInFlight(t: Tracker, ack: Ack, nowMs: int, draw: real, key: string)
    ensures key in AfterAck(t, ack, nowMs, draw).inFlight <==>
            key in t.inFlight && !LetsGo(t, HandleAck(ack, nowMs, draw), key)
  {
    IndexOfHolds(t.pending, ack.token);
  }

  lemma StepInFlight(t: Tracker, op: Op, key: string)
    ensures key in Step(t, op).inFlight <==> (key in t.inFlight && !LetsGo(t, op, key)) || key in Sent(t, op)
  {
    match op
    case Queue(m, sm, s, r) =>
    case Flush(now, mode) =>
    case Closed =>
    case HandleAck(ack, now, draw) => AckInFlight(t, ack, now, draw, key);
  }

  /** Handed out by step `i` and not let go by any later step before `upto`. */
  ghost predicate HeldSince(t: Tracker, ops: seq<Op>, i: nat, upto: nat, key: string)
    requires i < upto <= |ops|
    decreases upto
  {
    var now := Run(t, ops[..upto - 1]);
    if i == upto - 1 then key in Sent(now, ops[i])
    else HeldSince(t, ops, i, upto - 1, key) && !LetsGo(now, ops[upto - 1], key)
  }

  ghost predicate Held(t: Tracker, ops: seq<Op>, upto: nat, key: string)
    requires upto <= |ops|
  {
    exists i :: 0 <= i < upto && HeldSince(t, ops, i, upto, key)
  }

  lemma HeldSinceStep(t: Tracker, ops: seq<Op>, i: nat, last: nat, key: string, now: Tracker)
    requires i < last < |ops| && now == Run(t, ops[..last])
    ensures HeldSince(t, ops, i, last + 1, key) <==> HeldSince(t, ops, i, last, key) && !LetsGo(now, ops[last], key)
  {
  }

  lemma HeldStep(t: Tracker, ops: seq<Op>, last: nat, key: string, now: Tracker)
    requires last < |ops| && now == Run(t, ops[..last])
    ensures Held(t, ops, last + 1, key)
       <==> (Held(t, ops, last, key) && !LetsGo(now, ops[last], key)) || key in Sent(now, ops[last])
  {
    if Held(t, ops, last + 1, key) {
      var i :| 0 <= i < last + 1 && HeldSince(t, ops, i, last + 1, key);
      if i < last {
        HeldSinceStep(t, ops, i, last, key, now);
      }
    }
    if Held(t, ops, last, key) && !LetsGo(now, ops[last], key) {
      var i :| 0 <= i < last && HeldSince(t, ops, i, last, key);
      HeldSinceStep(t, ops, i, last, key, now);
    }
    if key in Sent(now, ops[last]) {
      assert HeldSince(t, ops, last, last + 1, key);
    }
  }

  /**
   Over any run from an empty connection, a key is withheld from a flush as in flight exactly when some flush
   handed it out and no connection end and no Ack of the closed vocabulary for its token came since.
   */
  lemma {:induction false} InFlightIff(t: Tracker, ops: seq<Op>, upto: nat, key: string)
    requires t.inFlight == {} && upto <= |ops|
    ensures key in Run(t, ops[..upto]).inFlight <==> Held(t, ops, upto, key)
    decreases upto
  {
    if upto > 0 {
      var last := upto - 1;
      InFlightIff(t, ops, last, key);
      PrefixStep(t, ops, last);
      StepInFlight(Run(t, ops[..last]), ops[last], key);
      HeldStep(t, ops, last, key, Run(t, ops[..last]));
    }
  }

  // ----- Once accepted -----

  /** The keys accepted over a run, in order. */
  function AcceptedLog(t: Tracker, ops: seq<Op>): seq<string> {
    if ops == [] then []
    else
      var before := ops[..|ops| - 1];
      var op := ops[|ops| - 1];
      AcceptedLog(t, before)
      + (if op.HandleAck? && OutcomeOf(Run(t, before), op.ack) == Accepted then [op.ack.token] else [])
  }

  lemma AckAndSentSet(t: Tracker, ack: Ack, nowMs: int, draw: real)
    requires Inv(t)
    ensures AfterAck(t, ack, nowMs, draw).sent ==
            if OutcomeOf(t, ack) == Accepted then LastN(t.sent + [ack.token], SENT_CAPACITY) else t.sent
  {
    var i := IndexOf(t.pending, ack.token);
    if OutcomeOf(t, ack) == Accepted {
      var e := t.pending[i];
      assert e in t.pending && e.SentKey() == ack.token;
    }
  }

  lemma SentSetStep(t: Tracker, op: Op)
    requires Inv(t)
    ensures Step(t, op).sent ==
            if op.HandleAck? && OutcomeOf(t, op.ack) == Accepted
            then LastN(t.sent + [op.ack.token], SENT_CAPACITY) else t.sent
  {
    if op.HandleAck? {
      AckAndSentSet(t, op.ack, op.atMs, op.draw);
    }
  }

  /** The sent-set is the newest 8000 acceptances, and every acceptance is a new key. */
  lemma {:induction false} SentSetIsNewestAcceptances(t: Tracker, ops: seq<Op>)
    requires Inv(t)
    ensures Run(t, ops).sent == LastN(t.sent + AcceptedLog(t, ops), 8000)
    decreases |ops|
  {
    if ops == [] {
      assert t.sent + [] == t.sent;
    } else {
      var before := ops[..|ops| - 1];
      var op := ops[|ops| - 1];
      SentSetIsNewestAcceptances(t, before);
      RunKeepsInv(t, before);
      SentSetStep(Run(t, before), op);
      var log := t.sent + AcceptedLog(t, before);
      if op.HandleAck? && OutcomeOf(Run(t, before), op.ack) == Accepted {
        LastNOfAppend(log, SENT_CAPACITY, op.ack.token);
        assert t.sent + AcceptedLog(t, ops) == log + [op.ack.token];
      } else {
        assert t.sent + AcceptedLog(t, ops) == log;
      }
    }
  }

  lemma RecentIsInLastN<T>(s: seq<T>, n: nat, p: nat)
    requires p < |s|
    ensures |s| - (p + 1) < n ==> s[p] in LastN(s, n)
  {
    if |s| - (p + 1) < n {
      assert LastN(s, n)[p - (|s| - |LastN(s, n)|)] == s[p];
    }
  }

  /** A key accepted at log position `p` can be queued again only after 8000 further acceptances. */
  lemma AcceptedStaysReported(t: Tracker, ops: seq<Op>, p: nat, m: string, s: DeliveryStatus)
    requires Inv(t)
    requires p < |t.sent + AcceptedLog(t, ops)|
    requires (t.sent + AcceptedLog(t, ops))[p] == Key(m, s)
    requires Accepts(Run(t, ops), m, s)
    ensures |t.sent + AcceptedLog(t, ops)| - (p + 1) >= 8000
  {
    SentSetIsNewestAcceptances(t, ops);
    RecentIsInLastN(t.sent + AcceptedLog(t, ops), SENT_CAPACITY, p);
  }

  // ----- Forward failures -----

  predicate IsForwardFailure(t: Tracker, op: Op, key: string) {
    && op.HandleAck? && op.ack.token == key && !op.ack.accepted && op.ack.error == "upstream_forward_failed"
    && Correlates(t, key)
  }

  /** Forward failures answered for `key` since it was last queued (or loaded). */
  function ForwardFailures(t: Tracker, ops: seq<Op>, key: string): nat {
    if ops == [] then 0
    else
      var before := ops[..|ops| - 1];
      var op := ops[|ops| - 1];
      var now := Run(t, before);
      if op.Queue? && Accepts(now, op.messageId, op.status) && Key(op.messageId, op.status) == key then 0
      else ForwardFailures(t, before, key) + (if IsForwardFailure(now, op, key) then 1 else 0)
  }

  /** The entry an Ack left behind, as it was before that Ack. */
  lemma SurvivorOf(t: Tracker, op: Op, e: PendingReport) returns (e0: PendingReport)
    requires Inv(t) && op.HandleAck? && e in Step(t, op).pending
    ensures e0 in t.pending && e0.SentKey() == e.SentKey()
    ensures e.attempts >= e0.attempts
    ensures IsForwardFailure(t, op, e.SentKey()) ==> e.attempts == e0.attempts + 1 <= 3
  {
    var i := IndexOf(t.pending, op.ack.token);
    var after := Step(t, op).pending;
    IndexOfHolds(t.pending, op.ack.token);
    e0 := e;
    if op.ack.token != "" && i < |t.pending| {
      if |after| < |t.pending| {
        assert after == RemoveAt(t.pending, i);
        RemovalKeepsEntries(t.pending, i);
      } else {
        var k :| 0 <= k < |after| && after[k] == e;
        e0 := t.pending[k];
        SurvivorInPlace(t, op.ack, op.atMs, op.draw, k);
      }
    }
  }

  lemma SurvivorInPlace(t: Tracker, ack: Ack, nowMs: int, draw: real, k: nat)
    requires Inv(t) && k < |t.pending| && Correlates(t, ack.token)
    requires |AfterAck(t, ack, nowMs, draw).pending| == |t.pending|
    ensures var e, e0 := AfterAck(t, ack, nowMs, draw).pending[k], t.pending[k];
            && e.SentKey() == e0.SentKey()
            && e.attempts >= e0.attempts
            && (e.SentKey() == ack.token && !ack.accepted && ack.error == "upstream_forward_failed" ==>
                  e.attempts == e0.attempts + 1 <= 3)
  {
    IndexOfHolds(t.pending, ack.token);
    var i := IndexOf(t.pending, ack.token);
    assert t.pending[i].SentKey() == ack.token;
    assert k != i ==> t.pending[k].SentKey() != ack.token;
  }

  lemma OtherStepsKeepEntries(t: Tracker, op: Op, e: PendingReport)
    requires !op.HandleAck? && e in Step(t, op).pending
    ensures e in t.pending
         || (op.Queue? && Accepts(t, op.messageId, op.status) && Key(op.messageId, op.status) == e.SentKey()
              && e.attempts == 0)
  {
  }

  /** An entry still in the outbox has met at most three forward failures; the fourth drops it. */
  lemma {:induction false} ForwardFailuresAreBounded(t: Tracker, ops: seq<Op>, e: PendingReport)
    requires Inv(t)
    requires e in Run(t, ops).pending
    ensures ForwardFailures(t, ops, e.SentKey()) <= Min(e.attempts, 3)
    decreases |ops|
  {
    if ops != [] {
      var before := ops[..|ops| - 1];
      var op := ops[|ops| - 1];
      RunKeepsInv(t, before);
      if op.HandleAck? {
        var e0 := SurvivorOf(Run(t, before), op, e);
        ForwardFailuresAreBounded(t, before, e0);
      } else {
        OtherStepsKeepEntries(Run(t, before), op, e);
        if e in Run(t, before).pending {
          ForwardFailuresAreBounded(t, before, e);
        }
      }
    }
  }

  /**
   The two retryable rejections share one counter: after three or more of any kind, the next forward
   failure drops the report, even if it is that report's first.
   */
  lemma RateLimitsSpendForwardRetries(t: Tracker, ack: Ack, nowMs: int, draw: real, e: PendingReport)
    requires Inv(t) && e in t.pending && ack.token == e.SentKey()
    requires !ack.accepted && ack.error == "upstream_forward_failed"
    ensures Holds(AfterAck(t, ack, nowMs, draw).pending, ack.token) <==> e.attempts < 3
  {
    KeyIsNeverEmpty(e.messageId, e.status);
    IndexOfHolds(t.pending, ack.token);
    var i := IndexOf(t.pending, ack.token);
    assert t.pending[i] == e;
    RemovalKeepsEntries(t.pending, i);
    var t' := AfterAck(t, ack, nowMs, draw);
    if e.attempts < MAX_FORWARD_FAILURES {
      assert t'.pending[i].SentKey() == ack.token;
    }
  }

  // ----- Deferrals -----

  /** `NextDeferral` is the least deadline strictly in the future. */
  lemma {:induction false} NextDeferralIsLeast(pending: seq<PendingReport>, now: int)
    ensures forall e :: e in pending && e.deferUntilMs.Some? && e.deferUntilMs.value > now ==>
              NextDeferral(pending, now).Some? && NextDeferral(pending, now).value <= e.deferUntilMs.value
    ensures NextDeferral(pending, now).Some? ==>
              exists e :: e in pending && e.deferUntilMs == NextDeferral(pending, now) && e.deferUntilMs.value > now
    decreases |pending|
  {
    if pending != [] {
      NextDeferralIsLeast(pending[..|pending| - 1], now);
      assert pending == pending[..|pending| - 1] + [pending[|pending| - 1]];
      assert pending[|pending| - 1] in pending;
    }
  }

  /** A deferred entry becomes due within the window its attempt count gives, never before now. */
  lemma DeferralIsInWindow(t: Tracker, ack: Ack, nowMs: int, draw: real, e: PendingReport)
    requires Inv(t) && e in t.pending && ack.token == e.SentKey()
    requires !ack.accepted && ack.error == "rate_limited"
    ensures exists e' :: e' in AfterAck(t, ack, nowMs, draw).pending && e'.SentKey() == ack.token
                         && e'.attempts == e.attempts + 1 && e'.deferUntilMs.Some?
                         && nowMs <= e'.deferUntilMs.value < nowMs + Backoff.CeilingMs(e.attempts + 1)
    ensures ack.token !in AfterAck(t, ack, nowMs, draw).inFlight
  {
    KeyIsNeverEmpty(e.messageId, e.status);
    IndexOfHolds(t.pending, ack.token);
    var i := IndexOf(t.pending, ack.token);
    assert t.pending[i] == e;
    Backoff.DelayInWindow(e.attempts + 1, draw);
    var e' := AfterAck(t, ack, nowMs, draw).pending[i];
    assert e' in AfterAck(t, ack, nowMs, draw).pending;
  }
}

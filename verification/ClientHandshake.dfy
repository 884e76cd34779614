/**
 What a completed handshake puts on the wire of the reports queued before it. The pooled messages of the HelloAck are
 queued and flushed one after the other ahead of the handshake's own flush.
 */
module ClientHandshakes {
  import opened Common
  import opened SocketTypes
  import opened ClientSpec
  import opened ClientRuns
  import opened ClientReports
  import T = TrackerSpec
  import TR = TrackerRuns
  import R = SeenRegistries
  import SeenSets

  // ----- The calls of a handshake on the tracker -----

  /** A pooled message with an id has its report queued and everything eligible flushed. */
  function OpsOf(pooled: PooledMessage, now: int): seq<T.Op> {
    if pooled.messageId == "" then []
    else [T.Queue(pooled.messageId, pooled.sinchMessageId, Delivered, ""), T.Flush(now, T.All)]
  }

  function MessageOps(messages: seq<PooledMessage>, now: int): seq<T.Op> {
    if messages == [] then []
    else MessageOps(messages[..|messages| - 1], now) + OpsOf(messages[|messages| - 1], now)
  }

  function HandshakeOps(messages: seq<PooledMessage>, now: int): seq<T.Op> {
    MessageOps(messages, now) + [T.Flush(now, T.All)]
  }

  lemma FlushTrace(c: Client, mode: T.FlushMode, env: Env)
    requires c.link.state.status == Connected && c.link.transport.Some?
    ensures FlushReports(c, mode, env).trace == c.trace + [T.Flush(env.now, mode)]
  {
  }

  lemma EmitMessageTrace(c: Client, pooled: PooledMessage, ackToken: string, env: Env)
    requires c.link.state.status == Connected && c.link.transport.Some?
    ensures EmitMessage(c, pooled, ackToken, env).trace == c.trace + OpsOf(pooled, env.now)
  {
    var id := pooled.messageId;
    if id == "" {
      assert c.trace + [] == c.trace;
    } else {
      var isNew := SeenSets.IsNew(R.Current(c.seen), id);
      var c1 := AdvanceLastSeen(c.(seen := R.Marked(c.seen, id)), id, pooled.enqueuedAtMs, !isNew);
      var op := T.Queue(id, pooled.sinchMessageId, Delivered, "");
      assert c1.link == c.link && c1.trace == c.trace;
      FlushTrace(Track(c1, op), T.All, env);
      assert (c.trace + [op]) + [T.Flush(env.now, T.All)] == c.trace + OpsOf(pooled, env.now);
    }
  }

  lemma {:induction false} EmitAllTrace(c: Client, messages: seq<PooledMessage>, env: Env)
    requires c.link.state.status == Connected && c.link.transport.Some?
    ensures EmitAll(c, messages, env).trace == c.trace + MessageOps(messages, env.now)
    decreases |messages|
  {
    if messages == [] {
      assert c.trace + [] == c.trace;
    } else {
      var before := messages[..|messages| - 1];
      EmitAllTrace(c, before, env);
      EmitAllKeepsLink(c, before, env);
      EmitMessageTrace(EmitAll(c, before, env), messages[|messages| - 1], "", env);
    }
  }

  lemma GreetedTrace(c: Client, id: string, ms: int, messages: seq<PooledMessage>, env: Env)
    requires c.link.transport.Some?
    ensures GreetedByRelay(c, id, ms, messages, env).trace == c.trace + HandshakeOps(messages, env.now)
  {
    var c1 := Publish(HelloAckNoted(c, ms), Connected, Some(id), Clear);
    EmitAllTrace(c1, messages, env);
    EmitAllKeepsLink(c1, messages, env);
    var c2 := SendPoll(StartPolling(EmitAll(c1, messages, env), env));
    FlushTrace(c2, T.All, env);
  }

  /** What an operation at tracker `now` hands out. */
  function HandedOut(now: T.Tracker, op: T.Op): seq<PendingReport> {
    if op.Flush? then T.ToSend(now.pending, now.inFlight, op.nowMs, op.mode) else []
  }

  lemma FlushedSnoc(t: T.Tracker, all: seq<T.Op>, ops: seq<T.Op>, op: T.Op, sent: seq<PendingReport>)
    requires all == ops + [op] && sent == HandedOut(T.Run(t, ops), op)
    ensures FlushedReports(t, all) == FlushedReports(t, ops) + sent
  {
    assert all[..|ops|] == ops;
  }

  lemma Regroup<X>(all: seq<X>, upto: seq<X>, tail: seq<X>, before: seq<X>, last: seq<X>, head: seq<X>)
    requires all == upto + last && tail == before + last && upto == head + before
    ensures all == head + tail
  {
  }

  lemma {:induction false} FlushedAppend(t: T.Tracker, a: seq<T.Op>, b: seq<T.Op>, mid: T.Tracker)
    requires mid == T.Run(t, a)
    ensures FlushedReports(t, a + b) == FlushedReports(t, a) + FlushedReports(mid, b)
    decreases |b|
  {
    if b == [] {
      assert a + b == a;
    } else {
      var all, before, last := a + b, b[..|b| - 1], b[|b| - 1];
      var upto := a + before;
      var sent := HandedOut(T.Run(t, upto), last);
      assert all == upto + [last] && b == before + [last];
      assert sent == HandedOut(T.Run(mid, before), last) by {
        TR.RunAppend(t, a, before);
      }
      FlushedSnoc(t, all, upto, last, sent);
      FlushedSnoc(mid, b, before, last, sent);
      FlushedAppend(t, a, before, mid);
      Regroup(FlushedReports(t, all), FlushedReports(t, upto), FlushedReports(mid, b), FlushedReports(mid, before),
          sent,
          FlushedReports(t, a));
    }
  }

  lemma OneOp(t: T.Tracker, op: T.Op)
    ensures T.Run(t, [op]) == T.Step(t, op)
    ensures FlushedReports(t, [op]) ==
            if op.Flush? then T.ToSend(t.pending, t.inFlight, op.nowMs, op.mode) else []
  {
    assert [op][..0] == [] && T.Run(t, []) == t;
    var sends := if op.Flush? then T.ToSend(t.pending, t.inFlight, op.nowMs, op.mode) else [];
    assert [] + sends == sends;
  }

  lemma FlushStep(t: T.Tracker, rest: seq<T.Op>, now: int)
    ensures var t' := T.AfterFlush(t, now, T.All);
            var ops := [T.Flush(now, T.All)] + rest;
            && T.Run(t, ops) == T.Run(t', rest)
            && FlushedReports(t, ops) == T.ToSend(t.pending, t.inFlight, now, T.All) + FlushedReports(t', rest)
  {
    var flush := T.Flush(now, T.All);
    OneOp(t, flush);
    FlushedAppend(t, [flush], rest, T.Run(t, [flush]));
    TR.RunAppend(t, [flush], rest);
  }

  lemma QueueFirst(t: T.Tracker, first: PooledMessage, rest: seq<T.Op>, now: int)
    requires first.messageId != ""
    ensures var t' := T.AfterQueue(t, first.messageId, first.sinchMessageId, Delivered, "");
            && FlushedReports(t, OpsOf(first, now) + rest) == FlushedReports(t', [T.Flush(now, T.All)] + rest)
            && T.Run(t, OpsOf(first, now) + rest) == T.Run(t', [T.Flush(now, T.All)] + rest)
  {
    var queue := T.Queue(first.messageId, first.sinchMessageId, Delivered, "");
    var more := [T.Flush(now, T.All)] + rest;
    assert OpsOf(first, now) + rest == [queue] + more;
    OneOp(t, queue);
    FlushedAppend(t, [queue], more, T.Run(t, [queue]));
    TR.RunAppend(t, [queue], more);
    assert [] + FlushedReports(T.Step(t, queue), more) == FlushedReports(T.Step(t, queue), more);
  }

  lemma MessageFlushes(t: T.Tracker, pooled: PooledMessage, now: int)
    requires pooled.messageId != ""
    ensures var t' := T.AfterQueue(t, pooled.messageId, pooled.sinchMessageId, Delivered, "");
            && T.Run(t, OpsOf(pooled, now)) == T.AfterFlush(t', now, T.All)
            && FlushedReports(t, OpsOf(pooled, now)) == T.ToSend(t'.pending, t'.inFlight, now, T.All)
  {
    var t' := T.AfterQueue(t, pooled.messageId, pooled.sinchMessageId, Delivered, "");
    QueueFirst(t, pooled, [], now);
    assert OpsOf(pooled, now) + [] == OpsOf(pooled, now) && [T.Flush(now, T.All)] + [] == [T.Flush(now, T.All)];
    OneOp(t', T.Flush(now, T.All));
  }

  lemma HandshakeAdds(
    t0: T.Tracker, ids: seq<string>, c: Client, id: string, ms: int, messages: seq<PooledMessage>, env: Env)
    requires Traced(t0, ids, c) && c.link.transport.Some?
    ensures Added(c, GreetedByRelay(c, id, ms, messages, env)) ==
            FlushedReports(c.tracker, HandshakeOps(messages, env.now))
    ensures GreetedByRelay(c, id, ms, messages, env).tracker == T.Run(c.tracker, HandshakeOps(messages, env.now))
  {
    GreetedTraced(t0, ids, c, id, ms, messages, env);
    GreetedTrace(c, id, ms, messages, env);
    FlushedAppend(t0, c.trace, HandshakeOps(messages, env.now), T.Run(t0, c.trace));
    TR.RunAppend(t0, c.trace, HandshakeOps(messages, env.now));
  }

  // ----- What such calls flush -----

  predicate Due(x: PendingReport, now: int) {
    x.deferUntilMs.None? || x.deferUntilMs.value <= now
  }

  ghost predicate OnlyQueues(ops: seq<T.Op>, now: int) {
    forall op :: op in ops ==> op.Queue? || op == T.Flush(now, T.All)
  }

  lemma {:induction false} MessageOpsOnlyQueue(messages: seq<PooledMessage>, now: int)
    ensures OnlyQueues(MessageOps(messages, now), now)
    decreases |messages|
  {
    if messages != [] {
      MessageOpsOnlyQueue(messages[..|messages| - 1], now);
    }
  }

  /** Neither what is in flight nor what is not due is flushed, however often. */
  lemma {:induction false} FlushedWereEligible(t: T.Tracker, ops: seq<T.Op>, now: int, e: PendingReport)
    requires OnlyQueues(ops, now)
    ensures t.inFlight <= T.Run(t, ops).inFlight
    ensures e in FlushedReports(t, ops) ==> e.SentKey() !in t.inFlight && Due(e, now)
    decreases |ops|
  {
    if ops != [] {
      var before, op := ops[..|ops| - 1], ops[|ops| - 1];
      assert op in ops && forall o :: o in before ==> o in ops;
      FlushedWereEligible(t, before, now, e);
      if op.Flush? {
        var at := T.Run(t, before);
        TR.FlushSendsSelected(at.pending, at.inFlight, now, T.All);
      }
    }
  }

  // ----- The first message -----

  function FirstNamed(messages: seq<PooledMessage>): Option<PooledMessage> {
    if messages == [] then None else if messages[0].messageId != "" then Some(messages[0])
        else FirstNamed(messages[1..])
  }

  function FirstOfId(messages: seq<PooledMessage>, id: string): Option<PooledMessage> {
    if messages == [] then None else if messages[0].messageId == id then Some(messages[0])
        else FirstOfId(messages[1..], id)
  }

  /** The report the tracker queues for a pooled message. */
  function ReportOf(pooled: PooledMessage): PendingReport {
    PendingReport(pooled.messageId, pooled.sinchMessageId, Delivered, "", 0, None)
  }

  /** The first message is accepted by a full outbox whose oldest entry is `x`. */
  predicate PushedOut(t: T.Tracker, x: PendingReport, messages: seq<PooledMessage>) {
    && FirstNamed(messages).Some? && T.Accepts(t, FirstNamed(messages).value.messageId, Delivered)
    && |t.pending| == 200 && t.pending[0] == x
  }

  /** A message asks for the very report `x` anew. */
  predicate QueuedAgain(x: PendingReport, messages: seq<PooledMessage>) {
    FirstOfId(messages, x.messageId).Some? && x == ReportOf(FirstOfId(messages, x.messageId).value)
  }

  lemma {:induction false} MessageOpsAppend(a: seq<PooledMessage>, b: seq<PooledMessage>, now: int)
    ensures MessageOps(a + b, now) == MessageOps(a, now) + MessageOps(b, now)
    decreases |b|
  {
    if b == [] {
      assert a + b == a;
    } else {
      assert (a + b)[..|a + b| - 1] == a + b[..|b| - 1];
      MessageOpsAppend(a, b[..|b| - 1], now);
    }
  }

  /** Messages without an id do nothing, so the calls begin with those of the first one that has one. */
  lemma {:induction false} FirstNamedLeads(messages: seq<PooledMessage>, now: int, id: string)
    returns (rest: seq<PooledMessage>)
    requires id != ""
    ensures FirstNamed(messages).None? ==> MessageOps(messages, now) == [] && FirstOfId(messages, id) == None
    ensures FirstNamed(messages).Some? ==>
              var first := FirstNamed(messages).value;
              && first.messageId != "" && MessageOps(messages, now) == OpsOf(first, now) + MessageOps(rest, now)
              && (first.messageId != id ==> FirstOfId(messages, id) == FirstOfId(rest, id))
    decreases |messages|
  {
    rest := [];
    if messages != [] {
      var head, tail := messages[0], messages[1..];
      assert messages == [head] + tail;
      MessageOpsAppend([head], tail, now);
      assert MessageOps([head], now) == OpsOf(head, now) by {
        assert [head][..0] == [] && [] + OpsOf(head, now) == OpsOf(head, now);
      }
      if head.messageId != "" {
        rest := tail;
      } else {
        rest := FirstNamedLeads(tail, now, id);
        assert [] + MessageOps(tail, now) == MessageOps(tail, now);
      }
    }
  }

  lemma PushedOutIff(t: T.Tracker, x: PendingReport, m: PooledMessage)
    requires TR.Inv(t) && x in t.pending
    ensures x in T.AfterQueue(t, m.messageId, m.sinchMessageId, Delivered, "").pending <==>
            !(T.Accepts(t, m.messageId, Delivered) && |t.pending| == 200 && t.pending[0] == x)
  {
    if T.Accepts(t, m.messageId, Delivered) {
      var all := t.pending + [ReportOf(m)];
      var k :| 0 <= k < |t.pending| && t.pending[k] == x;
      if |all| <= 200 {
        assert all[k] == x;
      } else if k > 0 {
        assert LastN(all, 200)[k - 1] == x;
      } else {
        OldestGoes(t, x, m);
      }
    }
  }

  lemma OldestGoes(t: T.Tracker, x: PendingReport, m: PooledMessage)
    requires TR.Inv(t) && |t.pending| == 200 && t.pending[0] == x
    requires T.Accepts(t, m.messageId, Delivered)
    ensures !T.Holds(T.AfterQueue(t, m.messageId, m.sinchMessageId, Delivered, "").pending, x.SentKey())
  {
    var all := t.pending + [ReportOf(m)];
    var after := LastN(all, 200);
    forall k | 0 <= k < |after|
      ensures after[k].SentKey() != x.SentKey()
    {
      assert after[k] == all[k + 1];
    }
  }

  // ----- After a report was pushed out -----

  /** What `n` messages make of a key that is neither queued, nor in flight, nor reported. */
  ghost predicate Followed(key: string, m: Option<PooledMessage>, end: T.Tracker, sent: seq<PendingReport>) {
    && key !in end.sent
    && (m.None? ==> !T.Holds(end.pending, key) && key !in end.inFlight && forall e :: e in sent ==> e.SentKey() != key)
    && (m.Some? ==>
          && key in end.inFlight && ReportOf(m.value) in sent
          && forall e :: e in sent && e.SentKey() == key ==> e == ReportOf(m.value))
  }

  lemma FlushFollows(key: string, m: Option<PooledMessage>, t: T.Tracker, sent: seq<PendingReport>, now: int)
    requires Followed(key, m, t, sent)
    ensures Followed(key, m, T.AfterFlush(t, now, T.All), sent + T.ToSend(t.pending, t.inFlight, now, T.All))
  {
    TR.FlushSendsSelected(t.pending, t.inFlight, now, T.All);
    var sends := T.ToSend(t.pending, t.inFlight, now, T.All);
    assert forall e :: e in sends ==> e in t.pending && e.SentKey() !in t.inFlight;
    assert forall e :: e in sends ==> e.SentKey() != key;
  }

  lemma OtherQueueFollows(
    key: string, m: Option<PooledMessage>, t: T.Tracker, sent: seq<PendingReport>, next: PooledMessage)
    requires Followed(key, m, t, sent) && (m.Some? || Key(next.messageId, Delivered) != key)
    ensures Followed(key, m, T.AfterQueue(t, next.messageId, next.sinchMessageId, Delivered, ""), sent)
  {
    if T.Accepts(t, next.messageId, Delivered) {
      var all := t.pending + [ReportOf(next)];
      forall e | e in LastN(all, 200)
        ensures e in all
      {
        TR.LastNIsPart(all, 200, e);
      }
      if m.None? {
        assert forall e :: e in t.pending ==> e.SentKey() != key;
      }
    }
  }

  lemma SameQueueFollows(key: string, t: T.Tracker, sent: seq<PendingReport>, next: PooledMessage, now: int)
    requires Followed(key, None, t, sent) && next.messageId != "" && Key(next.messageId, Delivered) == key
    ensures var t' := T.AfterQueue(t, next.messageId, next.sinchMessageId, Delivered, "");
            Followed(key, Some(next), T.AfterFlush(t', now, T.All),
                sent + T.ToSend(t'.pending, t'.inFlight, now, T.All))
  {
    var t' := T.AfterQueue(t, next.messageId, next.sinchMessageId, Delivered, "");
    var y := ReportOf(next);
    assert t'.pending[|t'.pending| - 1] == y;
    TR.FlushSendsSelected(t'.pending, t'.inFlight, now, T.All);
    var sends := T.ToSend(t'.pending, t'.inFlight, now, T.All);
    assert y in sends;
    forall e | e in sends && e.SentKey() == key
      ensures e == y
    {
      TR.NewestOfItsKey(t.pending, y, e);
    }
  }

  lemma MessageFollows(
    key: string, m: Option<PooledMessage>, t: T.Tracker, sent: seq<PendingReport>, next: PooledMessage, now: int)
    requires Followed(key, m, t, sent)
    ensures var hit := next.messageId != "" && Key(next.messageId, Delivered) == key;
            Followed(key, if m.None? && hit then Some(next) else m, T.Run(t, OpsOf(next, now)),
                     sent + FlushedReports(t, OpsOf(next, now)))
  {
    if next.messageId == "" {
      assert sent + [] == sent;
    } else {
      var t' := T.AfterQueue(t, next.messageId, next.sinchMessageId, Delivered, "");
      MessageFlushes(t, next, now);
      if m.None? && Key(next.messageId, Delivered) == key {
        SameQueueFollows(key, t, sent, next, now);
      } else {
        OtherQueueFollows(key, m, t, sent, next);
        FlushFollows(key, m, t', sent, now);
      }
    }
  }

  lemma {:induction false} FirstOfIdSnoc(messages: seq<PooledMessage>, last: PooledMessage, id: string)
    ensures FirstOfId(messages + [last], id) ==
            if FirstOfId(messages, id).Some? then FirstOfId(messages, id)
            else if last.messageId == id then Some(last) else None
    decreases |messages|
  {
    if messages == [] {
      assert [] + [last] == [last] && [last][1..] == [];
    } else {
      assert (messages + [last])[1..] == messages[1..] + [last];
      FirstOfIdSnoc(messages[1..], last, id);
    }
  }

  /** The first message that asks for the report of this id and status again, if any. */
  function Asker(x: PendingReport, messages: seq<PooledMessage>): Option<PooledMessage> {
    if x.status == Delivered then FirstOfId(messages, x.messageId) else None
  }

  lemma {:induction false} MessagesFollow(t: T.Tracker, x: PendingReport, messages: seq<PooledMessage>, now: int)
    requires Followed(x.SentKey(), None, t, []) && x.messageId != ""
    ensures Followed(x.SentKey(), Asker(x, messages), T.Run(t, MessageOps(messages, now)),
                     FlushedReports(t, MessageOps(messages, now)))
    decreases |messages|
  {
    if messages != [] {
      var before, last := messages[..|messages| - 1], messages[|messages| - 1];
      MessagesFollow(t, x, before, now);
      assert messages == before + [last];
      FirstOfIdSnoc(before, last, x.messageId);
      KeyIsInjective(last.messageId, Delivered, x.messageId, x.status);
      var ops := MessageOps(before, now);
      MessageFollows(x.SentKey(), Asker(x, before), T.Run(t, ops), FlushedReports(t, ops), last, now);
      FlushedAppend(t, ops, OpsOf(last, now), T.Run(t, ops));
      TR.RunAppend(t, ops, OpsOf(last, now));
    }
  }

  // ----- The handshake -----

  /** A flush of everything first: what is eligible is out. */
  lemma FirstFlushSends(t: T.Tracker, x: PendingReport, rest: seq<T.Op>, now: int)
    requires x in t.pending && x.SentKey() !in t.inFlight && Due(x, now)
    ensures x in FlushedReports(t, [T.Flush(now, T.All)] + rest)
  {
    FlushStep(t, rest, now);
    TR.FlushSendsSelected(t.pending, t.inFlight, now, T.All);
  }

  lemma MessagesThenFlush(t: T.Tracker, x: PendingReport, rest: seq<PooledMessage>, now: int)
    requires Followed(x.SentKey(), None, t, []) && x.messageId != ""
    ensures Followed(x.SentKey(), Asker(x, rest), T.Run(t, HandshakeOps(rest, now)),
                     FlushedReports(t, HandshakeOps(rest, now)))
  {
    var ops, flush := MessageOps(rest, now), T.Flush(now, T.All);
    MessagesFollow(t, x, rest, now);
    FlushFollows(x.SentKey(), Asker(x, rest), T.Run(t, ops), FlushedReports(t, ops), now);
    FlushedAppend(t, ops, [flush], T.Run(t, ops));
    TR.RunAppend(t, ops, [flush]);
    OneOp(T.Run(t, ops), flush);
  }

  lemma EarlierSends(key: string, m: Option<PooledMessage>, end: T.Tracker, a: seq<PendingReport>,
      b: seq<PendingReport>)
    requires Followed(key, m, end, b) && forall e :: e in a ==> e.SentKey() != key
    ensures Followed(key, m, end, a + b)
  {
  }

  /** Behind the message that pushed `x` out, only a message asking for it again brings its key back. */
  lemma PushedOutFollows(t: T.Tracker, x: PendingReport, first: PooledMessage, rest: seq<PooledMessage>, now: int)
    requires TR.Inv(t) && |t.pending| == 200 && t.pending[0] == x && x.SentKey() !in t.inFlight
    requires T.Accepts(t, first.messageId, Delivered)
    ensures var ops := OpsOf(first, now) + HandshakeOps(rest, now);
            Followed(x.SentKey(), Asker(x, rest), T.Run(t, ops), FlushedReports(t, ops))
  {
    var t1 := T.AfterQueue(t, first.messageId, first.sinchMessageId, Delivered, "");
    var t2 := T.AfterFlush(t1, now, T.All);
    var sends := T.ToSend(t1.pending, t1.inFlight, now, T.All);
    OldestGoes(t, x, first);
    assert x in t.pending;
    FlushFollows(x.SentKey(), None, t1, [], now);
    assert [] + sends == sends;
    MessagesThenFlush(t2, x, rest, now);
    EarlierSends(x.SentKey(), Asker(x, rest), T.Run(t2, HandshakeOps(rest, now)), sends,
                 FlushedReports(t2, HandshakeOps(rest, now)));
    FlushStep(t1, HandshakeOps(rest, now), now);
    QueueFirst(t, first, HandshakeOps(rest, now), now);
  }

  lemma KeptIsFlushed(
    t: T.Tracker, x: PendingReport, first: PooledMessage, rest: seq<PooledMessage>, now: int, ops: seq<T.Op>)
    requires first.messageId != "" && x.SentKey() !in t.inFlight && Due(x, now)
    requires x in T.AfterQueue(t, first.messageId, first.sinchMessageId, Delivered, "").pending
    requires ops == OpsOf(first, now) + HandshakeOps(rest, now)
    ensures x in FlushedReports(t, ops)
  {
    var t' := T.AfterQueue(t, first.messageId, first.sinchMessageId, Delivered, "");
    QueueFirst(t, first, HandshakeOps(rest, now), now);
    FirstFlushSends(t', x, HandshakeOps(rest, now), now);
  }

  lemma PushedIsFlushedIff(
    t: T.Tracker, x: PendingReport, messages: seq<PooledMessage>, rest: seq<PooledMessage>, now: int, ops: seq<T.Op>)
    requires TR.Inv(t) && x in t.pending && x.SentKey() !in t.inFlight && PushedOut(t, x, messages)
    requires FirstNamed(messages).value.messageId != x.messageId ==>
               FirstOfId(messages, x.messageId) == FirstOfId(rest, x.messageId)
    requires ops == OpsOf(FirstNamed(messages).value, now) + HandshakeOps(rest, now)
    ensures x in FlushedReports(t, ops) <==> QueuedAgain(x, messages)
  {
    PushedOutFollows(t, x, FirstNamed(messages).value, rest, now);
    AskerIff(t, x, messages, rest);
  }

  /** With no message in front of it the handshake's flush, and else the first message's, sends what is eligible. */
  lemma EligibleIsFlushedIff(t: T.Tracker, x: PendingReport, messages: seq<PooledMessage>, now: int, ops: seq<T.Op>)
    requires TR.Inv(t) && x in t.pending && x.SentKey() !in t.inFlight && Due(x, now)
    requires ops == HandshakeOps(messages, now)
    ensures x in FlushedReports(t, ops) <==> !PushedOut(t, x, messages) || QueuedAgain(x, messages)
  {
    var rest := FirstNamedLeads(messages, now, x.messageId);
    if FirstNamed(messages).None? {
      assert ops == [T.Flush(now, T.All)] + [];
      FirstFlushSends(t, x, [], now);
    } else {
      var first := FirstNamed(messages).value;
      assert ops == OpsOf(first, now) + HandshakeOps(rest, now);
      PushedOutIff(t, x, first);
      if PushedOut(t, x, messages) {
        PushedIsFlushedIff(t, x, messages, rest, now, ops);
      } else {
        KeptIsFlushed(t, x, first, rest, now, ops);
      }
    }
  }

  lemma AskerIff(t: T.Tracker, x: PendingReport, messages: seq<PooledMessage>, rest: seq<PooledMessage>)
    requires x in t.pending && PushedOut(t, x, messages)
    requires FirstNamed(messages).value.messageId != x.messageId ==>
               FirstOfId(messages, x.messageId) == FirstOfId(rest, x.messageId)
    ensures QueuedAgain(x, messages) <==> Asker(x, rest).Some? && x == ReportOf(Asker(x, rest).value)
    ensures x.status == Delivered ==> FirstOfId(messages, x.messageId) == FirstOfId(rest, x.messageId)
  {
    if x.status == Delivered {
      assert t.pending[0].SentKey() == Key(x.messageId, Delivered);
    }
  }

  /**
   The reports a handshake sends: exactly those that are due, not in flight, and not pushed out by the handshake's own
   first message, which is queued before anything is flushed; unless a later message asks for the very same report.
   */
  lemma HandshakeFlushesIff(t: T.Tracker, x: PendingReport, messages: seq<PooledMessage>, now: int)
    requires TR.Inv(t) && x in t.pending
    ensures x in FlushedReports(t, HandshakeOps(messages, now)) <==>
            && x.SentKey() !in t.inFlight && Due(x, now)
            && (!PushedOut(t, x, messages) || QueuedAgain(x, messages))
  {
    var ops := HandshakeOps(messages, now);
    MessageOpsOnlyQueue(messages, now);
    assert OnlyQueues(ops, now);
    FlushedWereEligible(t, ops, now, x);
    if x.SentKey() !in t.inFlight && Due(x, now) {
      EligibleIsFlushedIff(t, x, messages, now, ops);
    }
  }

  lemma PushedOutVanishes(t: T.Tracker, x: PendingReport, messages: seq<PooledMessage>, now: int)
    requires TR.Inv(t) && PushedOut(t, x, messages) && x.SentKey() !in t.inFlight
    requires Asker(x, messages).None?
    ensures !T.Holds(T.Run(t, HandshakeOps(messages, now)).pending, x.SentKey())
    ensures forall e :: e in FlushedReports(t, HandshakeOps(messages, now)) ==> e.SentKey() != x.SentKey()
  {
    var rest := FirstNamedLeads(messages, now, x.messageId);
    var first := FirstNamed(messages).value;
    assert x in t.pending;
    assert HandshakeOps(messages, now) == OpsOf(first, now) + HandshakeOps(rest, now);
    PushedOutFollows(t, x, first, rest, now);
    AskerIff(t, x, messages, rest);
  }

  lemma OtherIdPushes(t: T.Tracker, ids: seq<string>, message: PooledMessage)
    requires |ids| == 200 && t.pending == TR.NewEntries(ids, Delivered) && t.sent == []
    requires message.messageId !in ids && message.messageId != ""
    ensures PushedOut(t, t.pending[0], [message]) && Asker(t.pending[0], [message]).None?
  {
    assert [] + t.pending == t.pending;
    TR.KeyNotAmong([], ids, Delivered, message.messageId);
    assert t.pending[0].messageId == ids[0] && ids[0] in ids;
    assert T.Accepts(t, message.messageId, Delivered);
    assert [message][1..] == [];
    assert FirstNamed([message]) == Some(message);
    assert FirstOfId([message], ids[0]) == None;
  }

  lemma FillersFillOutbox(t: T.Tracker)
    requires t == T.Run(T.Tracker([], [], {}), TR.QueueAll(TR.Fillers(200), Delivered))
    ensures TR.Inv(t) && t == T.Tracker(TR.NewEntries(TR.Fillers(200), Delivered), [], {})
  {
    var start, ids := T.Tracker([], [], {}), TR.Fillers(200);
    TR.QueueAllFills(start, ids, Delivered);
    TR.RunKeepsInv(start, TR.QueueAll(ids, Delivered));
    assert [] + TR.NewEntries(ids, Delivered) == TR.NewEntries(ids, Delivered);
  }

  /** It happens: two hundred reports queued from nothing, and one message with an id of its own. */
  lemma FullOutboxIsPushed(t: T.Tracker, message: PooledMessage, now: int)
    requires t == T.Run(T.Tracker([], [], {}), TR.QueueAll(TR.Fillers(200), Delivered))
    requires message.messageId == "m"
    ensures TR.Inv(t) && |t.pending| == 200 && t.inFlight == {} && Due(t.pending[0], now)
    ensures PushedOut(t, t.pending[0], [message]) && Asker(t.pending[0], [message]).None?
  {
    FillersFillOutbox(t);
    OtherIdPushes(t, TR.Fillers(200), message);
  }

  // ----- Over every run -----

  lemma {:induction false} RunAppend(c: Client, a: seq<Moment>, b: seq<Moment>)
    ensures Run(c, a + b) == Run(Run(c, a), b)
    decreases |b|
  {
    if b == [] {
      assert a + b == a;
    } else {
      assert (a + b)[..|a + b| - 1] == a + b[..|b| - 1];
      RunAppend(c, a, b[..|b| - 1]);
    }
  }

  /** A HelloAck of the current connection. */
  function Greeting(c: Client, id: string, ms: int, messages: seq<PooledMessage>): Event {
    Inbound(c.link.generation, HelloAck(id, ms, messages))
  }

  /**
   Over every run, for every HelloAck on an attached client: the frames it adds to the wire carry a queued report
   exactly when its key is not in flight, its deferral is over, and the first pooled message does not push it out of a
   full outbox first (or a later one asks for the same report again).
   */
  lemma HandshakeSendsIff(
    c: Client, moments: seq<Moment>, id: string, ms: int, messages: seq<PooledMessage>, env: Env, x: PendingReport)
    requires Initial(c) && TR.Inv(c.tracker)
    requires x in Run(c, moments).tracker.pending && Run(c, moments).link.transport.Some?
    ensures var d := Run(c, moments);
            x in Added(d, Step(d, Greeting(d, id, ms, messages), env)) <==>
            && x.SentKey() !in d.tracker.inFlight && Due(x, env.now)
            && (!PushedOut(d.tracker, x, messages) || QueuedAgain(x, messages))
  {
    var d := Run(c, moments);
    RunTraced(c, moments);
    TR.RunKeepsInv(c.tracker, d.trace);
    HandshakeAdds(c.tracker, RunIds(c, moments), d, id, ms, messages, env);
    HandshakeFlushesIff(d.tracker, x, messages, env.now);
  }

  /**
   The report the first message pushes out of a full outbox is lost unless a later message asks for its key: the
   handshake neither sends it nor keeps it.
   */
  lemma PushedOutIsLost(
    c: Client, moments: seq<Moment>, id: string, ms: int, messages: seq<PooledMessage>, env: Env, x: PendingReport)
    requires Initial(c) && TR.Inv(c.tracker) && Run(c, moments).link.transport.Some?
    requires PushedOut(Run(c, moments).tracker, x, messages) && x.SentKey() !in Run(c, moments).tracker.inFlight
    requires Asker(x, messages).None?
    ensures var d := Run(c, moments);
            var h := Step(d, Greeting(d, id, ms, messages), env);
            && !T.Holds(h.tracker.pending, x.SentKey())
            && forall e :: e in Added(d, h) ==> e.SentKey() != x.SentKey()
  {
    var d := Run(c, moments);
    RunTraced(c, moments);
    TR.RunKeepsInv(c.tracker, d.trace);
    HandshakeAdds(c.tracker, RunIds(c, moments), d, id, ms, messages, env);
    PushedOutVanishes(d.tracker, x, messages, env.now);
  }

  /** Events between two connections that leave the tracker alone unless they forget what is in flight. */
  predicate BetweenConnections(e: Event) {
    || EndsOrBegins(e) || e.SocketOpened? || e.SetHandlerRegistered? || e.ClearPendingMessages? || e.PushMarked?
    || e.LookupAnswered?
  }

  /** Some event of the series forgets what is in flight. */
  predicate ForgetsIn(c: Client, moments: seq<Moment>) {
    moments != []
    && (ForgetsIn(c, moments[..|moments| - 1])
        || (EndsOrBegins(moments[|moments| - 1].event)
            && Forgets(Run(c, moments[..|moments| - 1]), moments[|moments| - 1].event)))
  }

  lemma MomentLeaves(c: Client, e: Event, env: Env)
    requires BetweenConnections(e)
    ensures Step(c, e, env).tracker == Left(c.tracker, EndsOrBegins(e) && Forgets(c, e))
  {
    if EndsOrBegins(e) {
      ConnectionLeaves(c, e, env);
    }
  }

  lemma {:induction false} BetweenLeaves(c: Client, moments: seq<Moment>, end: Client)
    requires (forall m :: m in moments ==> BetweenConnections(m.event)) && end == Run(c, moments)
    ensures end.tracker == Left(c.tracker, ForgetsIn(c, moments))
    decreases |moments|
  {
    if moments != [] {
      var before, last := moments[..|moments| - 1], moments[|moments| - 1];
      assert last in moments && forall m :: m in before ==> m in moments;
      BetweenLeaves(c, before, Run(c, before));
      MomentLeaves(Run(c, before), last.event, last.env);
    }
  }

  /**
   From any moment of any run to the next handshake, however the connection in between ended and began: a queued report
   is among the frames that handshake adds exactly when it was not in flight or an event in between forgot it, its
   deferral is over, and the handshake's first message does not push it out (or a later one asks for it again).
   */
  lemma NextHandshakeSendsIff(
    c: Client, moments: seq<Moment>, between: seq<Moment>,
    id: string, ms: int, messages: seq<PooledMessage>, env: Env, x: PendingReport)
    requires Initial(c) && TR.Inv(c.tracker)
    requires x in Run(c, moments).tracker.pending
    requires forall m :: m in between ==> BetweenConnections(m.event)
    requires Run(c, moments + between).link.transport.Some?
    ensures var was, d := Run(c, moments), Run(c, moments + between);
            x in Added(d, Step(d, Greeting(d, id, ms, messages), env)) <==>
            && (x.SentKey() !in was.tracker.inFlight || ForgetsIn(was, between)) && Due(x, env.now)
            && (!PushedOut(was.tracker, x, messages) || QueuedAgain(x, messages))
  {
    RunAppend(c, moments, between);
    BetweenLeaves(Run(c, moments), between, Run(c, moments + between));
    HandshakeSendsIff(c, moments + between, id, ms, messages, env, x);
  }
}

/** The delivery-report tracker (ios/SinchPushSocket/ReportTracker.swift). */
module ReportTrackers {
  import opened Common
  import opened SocketTypes
  import opened SeenSets
  import S = TrackerSpec
  import Backoff

  class ReportTracker {
    const store: StateStore
    /** Oldest first: the eviction order. */
    var pending: seq<PendingReport>
    const sentKeys: SeenSet
    /** Handed to the transport and not yet answered; never persisted. */
    var inFlight: set<string>
    /** What the last refused Ack reported to the host; the client copies it into its state. */
    var lastRejection: Option<string>

    ghost predicate Valid()
      reads this, sentKeys
    {
      sentKeys.Valid() && sentKeys.limit == S.SENT_CAPACITY
    }

    /** The tracker's state as a value. */
    ghost function View(): S.Tracker
      reads this, sentKeys
    {
      S.Tracker(pending, sentKeys.order, inFlight)
    }

    ghost predicate OutboxPersisted()
      reads this, store
    {
      store.outbox == pending
    }

    ghost predicate KeysPersisted()
      reads this, sentKeys, store
    {
      store.reportedKeys == sentKeys.order
    }

    constructor (store: StateStore)
      ensures Valid() && this.store == store && fresh(sentKeys)
      ensures View() == S.Tracker(store.outbox, Replay([], S.SENT_CAPACITY, store.reportedKeys), {})
    {
      this.store := store;
      sentKeys := new SeenSet(S.SENT_CAPACITY);
      pending := store.outbox;
      inFlight := {};
      lastRejection := None;
      new;
      sentKeys.RestoreNewest(store.reportedKeys);
    }

    /** True when the report was queued; false when it is already reported, already queued or has no id. */
    method Queue(messageId: string, sinchMessageId: string, status: DeliveryStatus, reason: string)
      returns (queued: bool)
      requires Valid()
      modifies this`pending, store`outbox
      ensures Valid()
      ensures queued == old(S.Accepts(View(), messageId, status))
      ensures View() == old(S.AfterQueue(View(), messageId, sinchMessageId, status, reason))
      ensures old(OutboxPersisted()) ==> OutboxPersisted()
      ensures old(KeysPersisted()) ==> KeysPersisted()
    {
      if messageId == "" {
        return false;
      }
      var entry := PendingReport(messageId, sinchMessageId, status, reason, 0, None);
      var key := entry.SentKey();
      var reported := sentKeys.Contains(key);
      if reported {
        return false;
      }
      if exists i :: 0 <= i < |pending| && pending[i].SentKey() == key {
        return false;
      }
      pending := pending + [entry];
      EvictIfNeeded();
      store.outbox := pending;
      queued := true;
    }

    /** A pooled message that could not be decoded becomes a FAILED report. */
    method QueueFailure(messageId: string, sinchMessageId: string, detail: string) returns (queued: bool)
      requires Valid()
      modifies this`pending, store`outbox
      ensures Valid()
      ensures View() == old(S.AfterQueue(View(), messageId, sinchMessageId, Failed, "decode: " + detail))
      ensures old(OutboxPersisted()) ==> OutboxPersisted()
      ensures old(KeysPersisted()) ==> KeysPersisted()
    {
      queued := Queue(messageId, sinchMessageId, Failed, "decode: " + detail);
    }

    method EvictIfNeeded()
      modifies this`pending
      ensures pending == LastN(old(pending), S.OUTBOX_CAPACITY)
    {
      while |pending| > S.OUTBOX_CAPACITY
        invariant |pending| <= |old(pending)|
        invariant pending == old(pending)[|old(pending)| - |pending|..]
        invariant |pending| < |old(pending)| ==> |pending| >= S.OUTBOX_CAPACITY
      {
        pending := pending[1..];
      }
    }

    /** The reports to hand to the transport, in queue order. */
    method ReportsToSend(nowMs: int, mode: S.FlushMode) returns (out: seq<PendingReport>)
      ensures out == S.ToSend(pending, inFlight, nowMs, mode)
    {
      out := [];
      for i := 0 to |pending|
        invariant out == S.ToSend(pending[..i], inFlight, nowMs, mode)
      {
        var entry := pending[i];
        assert pending[..i + 1][..i] == pending[..i];
        if entry.SentKey() in inFlight {
          continue;
        }
        match mode {
          case All =>
            if entry.deferUntilMs.Some? && entry.deferUntilMs.value > nowMs {
              continue;
            }
          case DeferredOnly =>
            if !(entry.deferUntilMs.Some? && entry.deferUntilMs.value <= nowMs) {
              continue;
            }
          case ForwardFailureRetryOnly =>
            if !(entry.deferUntilMs.None? && entry.attempts > 0) {
              continue;
            }
        }
        out := out + [entry];
      }
      assert pending[..|pending|] == pending;
    }

    method MarkSent(entries: seq<PendingReport>)
      modifies this`inFlight
      ensures inFlight == old(inFlight) + S.Keys(entries)
    {
      for i := 0 to |entries|
        invariant inFlight == old(inFlight) + S.Keys(entries[..i])
      {
        assert entries[..i + 1] == entries[..i] + [entries[i]];
        inFlight := inFlight + {entries[i].SentKey()};
      }
      assert entries[..|entries|] == entries;
    }

    /** Anything in flight has an unknown outcome and goes back to queued. */
    method ConnectionClosed()
      modifies this`inFlight
      ensures View() == old(S.AfterClosed(View()))
    {
      inFlight := {};
    }

    method Handle(ack: S.Ack, nowMs: int, draw: real) returns (outcome: S.AckOutcome)
      requires Valid()
      modifies this, sentKeys, store`outbox, store`reportedKeys
      ensures Valid()
      ensures outcome == old(S.OutcomeOf(View(), ack))
      ensures View() == old(S.AfterAck(View(), ack, nowMs, draw))
      ensures lastRejection == if outcome.Rejected? then Some(S.RejectionText(ack)) else old(lastRejection)
      ensures old(OutboxPersisted()) ==> OutboxPersisted()
      ensures old(KeysPersisted()) ==> KeysPersisted()
    {
      if ack.token == "" {
        return S.Uncorrelated;
      }
      var index := S.IndexOf(pending, ack.token);
      if index == |pending| {
        return S.Uncorrelated;
      }
      if ack.accepted {
        var entry := pending[index];
        pending := RemoveAt(pending, index);
        var inserted := sentKeys.Insert(entry.SentKey());
        if inserted {
          store.reportedKeys := sentKeys.order;
        }
        inFlight := inFlight - {entry.SentKey()};
        store.outbox := pending;
        return S.Accepted;
      }
      outcome := ApplyRejection(index, ack, nowMs, draw);
    }

    method ApplyRejection(index: nat, ack: S.Ack, nowMs: int, draw: real) returns (outcome: S.AckOutcome)
      requires index < |pending| && Valid()
      modifies this`pending, this`inFlight, this`lastRejection, store`outbox
      ensures outcome == S.Rejected(ack.error)
      ensures View() == old(S.AfterRejected(View(), index, ack.error, nowMs, draw))
      ensures lastRejection == Some(S.RejectionText(ack))
      ensures old(OutboxPersisted()) ==> OutboxPersisted()
      ensures old(KeysPersisted()) ==> KeysPersisted()
    {
      lastRejection := Some(S.RejectionText(ack));
      outcome := S.Rejected(ack.error);
      var entry := pending[index];
      if ack.error == S.RATE_LIMITED {
        entry := entry.(attempts := entry.attempts + 1);
        var delay := Backoff.DelayMs(entry.attempts, draw);
        entry := entry.(deferUntilMs := Some(nowMs + delay));
        pending := pending[index := entry];
        inFlight := inFlight - {entry.SentKey()};
        store.outbox := pending;
      } else if ack.error == S.FORWARD_FAILED {
        entry := entry.(attempts := entry.attempts + 1);
        if entry.attempts > S.MAX_FORWARD_FAILURES {
          pending := RemoveAt(pending, index);
          inFlight := inFlight - {entry.SentKey()};
          store.outbox := pending;
          return;
        }
        entry := entry.(deferUntilMs := None);
        pending := pending[index := entry];
        inFlight := inFlight - {entry.SentKey()};
        store.outbox := pending;
      } else if ack.error == S.UNSUPPORTED_STATUS {
        pending := RemoveAt(pending, index);
        inFlight := inFlight - {entry.SentKey()};
        store.outbox := pending;
      }
    }

    /** The sinch message id retained for a message with a queued report. */
    function SinchMessageId(messageId: string): Option<string>
      reads this
    {
      S.RetainedSinchId(pending, messageId)
    }

    method NextDeferral(nowMs: int) returns (deadline: Option<int>)
      ensures deadline == S.NextDeferral(pending, nowMs)
    {
      deadline := None;
      for i := 0 to |pending|
        invariant deadline == S.NextDeferral(pending[..i], nowMs)
      {
        assert pending[..i + 1][..i] == pending[..i];
        var own := pending[i].deferUntilMs;
        if own.Some? && own.value > nowMs && (deadline.None? || own.value < deadline.value) {
          deadline := own;
        }
      }
      assert pending[..|pending|] == pending;
    }
  }
}

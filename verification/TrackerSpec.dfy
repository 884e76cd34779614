/**
 The delivery-report state machine as a function of its inputs: what
 ios/SinchPushSocket/ReportTracker.swift does to its outbox, sent-set and in-flight keys.
 */
module TrackerSpec {
  import opened Common
  import opened SocketTypes
  import Backoff
  import SeenSets

  const OUTBOX_CAPACITY: nat := 200
  const SENT_CAPACITY: nat := 4 * SeenSets.CAPACITY
  const MAX_FORWARD_FAILURES := 3
  const RATE_LIMITED := "rate_limited"
  const FORWARD_FAILED := "upstream_forward_failed"
  const UNSUPPORTED_STATUS := "unsupported_status"

  datatype FlushMode = All | DeferredOnly | ForwardFailureRetryOnly

  datatype AckOutcome = Accepted | Rejected(error: string) | Uncorrelated

  datatype Ack = Ack(token: string, accepted: bool, error: string)

  /** `sent` is the bounded sent-set, oldest first; `inFlight` is in memory only. */
  datatype Tracker = Tracker(pending: seq<PendingReport>, sent: seq<string>, inFlight: set<string>)

  /** One call on the tracker; `draw` is the random value a deferral consumes. */
  datatype Op =
    | Queue(messageId: string, sinchMessageId: string, status: DeliveryStatus, reason: string)
    | Flush(nowMs: int, mode: FlushMode)
    | Closed
    | HandleAck(ack: Ack, atMs: int, draw: real)

  // ----- Outbox lookups -----

  predicate Holds(pending: seq<PendingReport>, key: string) {
    exists i :: 0 <= i < |pending| && pending[i].SentKey() == key
  }

  /** The first entry with this key, or the length of the list. */
  function IndexOf(pending: seq<PendingReport>, key: string): (i: nat)
    ensures i <= |pending|
    ensures i < |pending| ==> pending[i].SentKey() == key
    ensures forall k :: 0 <= k < i ==> pending[k].SentKey() != key
  {
    if pending == [] then 0
    else if pending[0].SentKey() == key then 0
    else 1 + IndexOf(pending[1..], key)
  }

  /** The sinch message id retained for a message with a queued report, from its oldest entry. */
  function RetainedSinchId(pending: seq<PendingReport>, messageId: string): Option<string> {
    if pending == [] then None
    else if pending[0].messageId == messageId then Some(pending[0].sinchMessageId)
    else RetainedSinchId(pending[1..], messageId)
  }

  function BeforeColon(token: string): string {
    if token == "" || token[0] == ':' then "" else [token[0]] + BeforeColon(token[1..])
  }

  /** What a refused Ack puts into the published `lastError`. */
  function RejectionText(ack: Ack): string {
    if ack.error == "" then "ack rejected (" + BeforeColon(ack.token) + ")" else ack.error
  }

  // ----- Operations -----

  predicate Accepts(t: Tracker, messageId: string, status: DeliveryStatus) {
    && messageId != ""
    && Key(messageId, status) !in t.sent
    && !Holds(t.pending, Key(messageId, status))
  }

  function AfterQueue(t: Tracker, messageId: string, sinchMessageId: string, status: DeliveryStatus,
      reason: string): Tracker {
    if !Accepts(t, messageId, status) then t
    else
      t.(pending := LastN(t.pending + [PendingReport(messageId, sinchMessageId, status, reason, 0, None)],
          OUTBOX_CAPACITY))
  }

  /** Whether a flush in this mode hands the entry to the transport. */
  predicate Selected(e: PendingReport, inFlight: set<string>, nowMs: int, mode: FlushMode) {
    && e.SentKey() !in inFlight
    && match mode
       case All => e.deferUntilMs.None? || e.deferUntilMs.value <= nowMs
       case DeferredOnly => e.deferUntilMs.Some? && e.deferUntilMs.value <= nowMs
       case ForwardFailureRetryOnly => e.deferUntilMs.None? && e.attempts > 0
  }

  function ToSend(pending: seq<PendingReport>, inFlight: set<string>, nowMs: int, mode: FlushMode): seq<PendingReport> {
    if pending == [] then []
    else
      var e := pending[|pending| - 1];
      ToSend(pending[..|pending| - 1], inFlight, nowMs, mode)
      + (if Selected(e, inFlight, nowMs, mode) then [e] else [])
  }

  function Keys(entries: seq<PendingReport>): set<string> {
    set e | e in entries :: e.SentKey()
  }

  function AfterFlush(t: Tracker, nowMs: int, mode: FlushMode): Tracker {
    t.(inFlight := t.inFlight + Keys(ToSend(t.pending, t.inFlight, nowMs, mode)))
  }

  function AfterClosed(t: Tracker): Tracker {
    t.(inFlight := {})
  }

  function AfterAccepted(t: Tracker, i: nat): Tracker
    requires i < |t.pending|
  {
    var key := t.pending[i].SentKey();
    Tracker(RemoveAt(t.pending, i), SeenSets.Inserted(t.sent, SENT_CAPACITY, key), t.inFlight - {key})
  }

  function AfterRejected(t: Tracker, i: nat, error: string, nowMs: int, draw: real): Tracker
    requires i < |t.pending|
  {
    var e := t.pending[i];
    var released := t.inFlight - {e.SentKey()};
    if error == RATE_LIMITED then
      var retried := e.(
        attempts := e.attempts + 1,
        deferUntilMs := Some(nowMs + Backoff.DelayMs(e.attempts + 1, draw)));
      t.(pending := t.pending[i := retried], inFlight := released)
    else if error == FORWARD_FAILED then
      if e.attempts + 1 > MAX_FORWARD_FAILURES then
        t.(pending := RemoveAt(t.pending, i), inFlight := released)
      else
        t.(pending := t.pending[i := e.(attempts := e.attempts + 1, deferUntilMs := None)], inFlight := released)
    else if error == UNSUPPORTED_STATUS then
      t.(pending := RemoveAt(t.pending, i), inFlight := released)
    else t
  }

  predicate Correlates(t: Tracker, token: string) {
    token != "" && Holds(t.pending, token)
  }

  function AfterAck(t: Tracker, ack: Ack, nowMs: int, draw: real): Tracker {
    var i := IndexOf(t.pending, ack.token);
    if ack.token == "" || i == |t.pending| then t
    else if ack.accepted then AfterAccepted(t, i)
    else AfterRejected(t, i, ack.error, nowMs, draw)
  }

  function OutcomeOf(t: Tracker, ack: Ack): AckOutcome {
    if ack.token == "" || IndexOf(t.pending, ack.token) == |t.pending| then Uncorrelated
    else if ack.accepted then Accepted
    else Rejected(ack.error)
  }

  /** The earliest deadline strictly in the future. */
  function NextDeferral(pending: seq<PendingReport>, nowMs: int): Option<int> {
    if pending == [] then None
    else
      var rest := NextDeferral(pending[..|pending| - 1], nowMs);
      var own := pending[|pending| - 1].deferUntilMs;
      if own.None? || own.value <= nowMs then rest
      else if rest.None? then own
      else Some(Min(own.value, rest.value))
  }

  function Step(t: Tracker, op: Op): Tracker {
    match op
    case Queue(m, sm, s, r) => AfterQueue(t, m, sm, s, r)
    case Flush(now, mode) => AfterFlush(t, now, mode)
    case Closed => AfterClosed(t)
    case HandleAck(ack, now, draw) => AfterAck(t, ack, now, draw)
  }

  function Run(t: Tracker, ops: seq<Op>): Tracker {
    if ops == [] then t else Step(Run(t, ops[..|ops| - 1]), ops[|ops| - 1])
  }
}

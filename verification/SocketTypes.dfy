/** Value types of the delivery channel (ios/SinchPushSocket/SocketTypes.swift). */
module SocketTypes {
  import opened Common

  datatype DeliveryStatus = Delivered | Displayed | Dismissed | Failed

  /** The proto enum number, as the Ack token spells it. */
  function TokenSuffix(status: DeliveryStatus): string {
    match status
    case Delivered => "1"
    case Displayed => "2"
    case Failed => "3"
    case Dismissed => "4"
  }

  /** "<message id>:<status number>": the Ack token, and the key of "already reported". */
  function Key(messageId: string, status: DeliveryStatus): string {
    messageId + ":" + TokenSuffix(status)
  }

  /** The token is injective although an id may itself contain ':'. */
  lemma KeyIsInjective(m: string, s: DeliveryStatus, m': string, s': DeliveryStatus)
    ensures Key(m, s) == Key(m', s') ==> m == m' && s == s'
  {
    if Key(m, s) == Key(m', s') {
      var k, k' := Key(m, s), Key(m', s');
      assert k[|k| - 1] == TokenSuffix(s)[0] && k'[|k'| - 1] == TokenSuffix(s')[0];
      assert m == k[..|k| - 2] && m' == k'[..|k'| - 2];
    }
  }

  lemma KeyIsNeverEmpty(m: string, s: DeliveryStatus)
    ensures Key(m, s) != ""
  {
    assert |Key(m, s)| == |m| + 2;
  }

  datatype PendingReport = PendingReport(
    messageId: string,
    sinchMessageId: string,
    status: DeliveryStatus,
    reason: string,
    attempts: int,
    deferUntilMs: Option<int>)
  {
    function SentKey(): string { Key(messageId, status) }
  }

  datatype ReportOutboxEntry = ReportOutboxEntry(messageId: string, subscriberId: string, enqueuedAtMs: int)

  datatype DisplayRule = Never | Always | WhenUnhandled

  /** The persisted part of the configuration; `urlParses` stands for `URL(string:)` succeeding. */
  datatype PersistedConfiguration = PersistedConfiguration(
    url: string, urlParses: bool, pollIntervalMs: int, display: DisplayRule)

  datatype Configuration = Configuration(saved: PersistedConfiguration, authToken: string)

  /** A pooled message as the relay hands it over. */
  datatype PooledMessage = PooledMessage(messageId: string, sinchMessageId: string, enqueuedAtMs: int)

  /** A delivered message waiting for the host; `shown` is the one field changed later. */
  datatype MessageEvent = MessageEvent(
    id: string, sinchMessageId: string, ackToken: string, enqueuedAt: int, receivedAt: int, shown: bool)

  /** What the SDK keeps on disk; `authToken` is the separate credential store. A save replaces one slice. */
  class StateStore {
    var seenMessageIds: seq<string>
    var outbox: seq<PendingReport>
    var reportedKeys: seq<string>
    var lastSeenMessageId: string
    var lastSeenEnqueuedAtMs: int
    var pendingMessages: seq<MessageEvent>
    var configuration: Option<PersistedConfiguration>
    var reportOutbox: seq<ReportOutboxEntry>
    var authToken: Option<string>

    constructor ()
      ensures seenMessageIds == [] && outbox == [] && reportedKeys == [] && reportOutbox == []
      ensures lastSeenMessageId == "" && lastSeenEnqueuedAtMs == 0 && pendingMessages == []
      ensures configuration == None && authToken == None
    {
      seenMessageIds, outbox, reportedKeys, reportOutbox := [], [], [], [];
      lastSeenMessageId, lastSeenEnqueuedAtMs, pendingMessages := "", 0, [];
      configuration, authToken := None, None;
    }
  }
}

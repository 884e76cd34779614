/**
 What the push path does with an APNs notification (ios/SinchPushSocket/PushPresentation.swift), and the
 dedupe across every channel that shares the registry.
 */
module PushPresentation {
  import opened Common
  import opened SocketTypes
  import opened SeenRegistries
  import SeenSets
  import Outboxes = ReportOutboxes

  const ID_KEY := "sinch.push.message_id"
  const SUBSCRIBER_KEY := "sinch.push.subscriber_id"
  const KEY_PREFIX := "sinch.push."

  /** A `userInfo` value; keys that are not strings never matter and are left out. */
  datatype Value = Text(text: string) | Dictionary(entries: map<string, Value>) | Other

  type UserInfo = map<string, Value>

  datatype Decision = Present | Suppress

  function TextAt(info: UserInfo, key: string): Option<string> {
    if key in info && info[key].Text? then Some(info[key].text) else None
  }

  predicate IsHex(c: char) {
    '0' <= c <= '9' || 'a' <= c <= 'f' || 'A' <= c <= 'F'
  }

  /** The 8-4-4-4-12 form `UUID(uuidString:)` accepts. */
  predicate IsUuid(s: string) {
    && |s| == 36
    && forall i :: 0 <= i < 36 ==> if i in {8, 13, 18, 23} then s[i] == '-' else IsHex(s[i])
  }

  /** The id to dedupe on; None means no dedupe. */
  function MessageId(info: UserInfo, requestIdentifier: Option<string>): Option<string> {
    var named := TextAt(info, ID_KEY);
    if named.Some? && named.value != "" then named
    else if requestIdentifier.None? || requestIdentifier.value == "" || IsUuid(requestIdentifier.value)
            || !exists k :: k in info.Keys && KEY_PREFIX <= k
    then None
    else requestIdentifier
  }

  /** The payload names its message. */
  predicate Names(info: UserInfo, m: string) {
    m != "" && "sinch.push.message_id" in info && info["sinch.push.message_id"] == Text(m)
  }

  /** A payload that names its message is deduped on that name, whatever else it carries and whoever delivers it. */
  lemma NamedPush(info: UserInfo, requestIdentifier: Option<string>, m: string)
    requires Names(info, m)
    ensures MessageId(info, requestIdentifier) == Some(m)
  {
  }

  /** Without a name, the request identifier is used iff it is no UUID and some key is a Sinch one. */
  lemma UnnamedPushIff(info: UserInfo, requestIdentifier: Option<string>, id: string)
    requires forall m: string :: !Names(info, m)
    ensures MessageId(info, requestIdentifier) == Some(id) <==>
            && requestIdentifier == Some(id) && id != "" && !IsUuid(id)
            && exists k :: k in info.Keys && "sinch.push." <= k
  {
    var named := TextAt(info, ID_KEY);
    if named.Some? {
      assert !Names(info, named.value);
    }
  }

  predicate AllHex(s: string) {
    forall i :: 0 <= i < |s| ==> IsHex(s[i])
  }

  /** A UUID is five groups of hex digits, of 8, 4, 4, 4 and 12. */
  lemma UuidHasForm(s: string, a: string, b: string, c: string, d: string, e: string)
    requires |a| == 8 && |b| == 4 && |c| == 4 && |d| == 4 && |e| == 12
    requires s == a + "-" + b + "-" + c + "-" + d + "-" + e
    ensures IsUuid(s) <==> AllHex(a) && AllHex(b) && AllHex(c) && AllHex(d) && AllHex(e)
  {
    assert s[..8] == a && s[9..13] == b && s[14..18] == c && s[19..23] == d && s[24..] == e;
    assert s[8] == '-' && s[13] == '-' && s[18] == '-' && s[23] == '-';
    if IsUuid(s) {
      assert forall i :: 0 <= i < 8 ==> a[i] == s[i];
      assert forall i :: 0 <= i < 4 ==> b[i] == s[i + 9] && c[i] == s[i + 14] && d[i] == s[i + 19];
      assert forall i :: 0 <= i < 12 ==> e[i] == s[i + 24];
    }
    if AllHex(a) && AllHex(b) && AllHex(c) && AllHex(d) && AllHex(e) {
      forall i | 0 <= i < 36
        ensures if i in {8, 13, 18, 23} then s[i] == '-' else IsHex(s[i])
      {
        assert i < 8 ==> s[i] == a[i];
        assert 9 <= i < 13 ==> s[i] == b[i - 9];
        assert 14 <= i < 18 ==> s[i] == c[i - 14];
        assert 19 <= i < 23 ==> s[i] == d[i - 19];
        assert 24 <= i ==> s[i] == e[i - 24];
      }
    }
  }

  predicate IsSocketOriginated(info: UserInfo) {
    TextAt(info, "source") == Some("socket")
  }

  predicate HasAlert(info: UserInfo) {
    && "aps" in info && info["aps"].Dictionary?
    && "alert" in info["aps"].entries
    && !info["aps"].entries["alert"].Other?
  }

  lemma MessageIdIsNeverEmpty(info: UserInfo, requestIdentifier: Option<string>)
    ensures MessageId(info, requestIdentifier) != Some("")
  {
  }

  /** The report a first sight queues: both ids must be in the payload itself. */
  function ReportFor(info: UserInfo): Option<Outboxes.ReportKey> {
    var m, s := TextAt(info, ID_KEY), TextAt(info, SUBSCRIBER_KEY);
    if m.Some? && s.Some? && m.value != "" && s.value != "" then Some((m.value, s.value)) else None
  }

  function OutboxAfter(entries: seq<ReportOutboxEntry>, info: UserInfo, nowMs: int): seq<ReportOutboxEntry> {
    var report := ReportFor(info);
    if report.None? then entries else Outboxes.Enqueued(entries, report.value.0, report.value.1, nowMs)
  }

  /** The payload carries a report: the non-empty message id and subscriber id it is made of. */
  predicate Carries(info: UserInfo, m: string, s: string) {
    && Names(info, m) && s != ""
    && "sinch.push.subscriber_id" in info && info["sinch.push.subscriber_id"] == Text(s)
  }

  /** A first sight is queued as (message, subscriber) at its time, once, and not at all if the payload lacks either. */
  lemma FirstSightIsReported(entries: seq<ReportOutboxEntry>, info: UserInfo, m: string, s: string, nowMs: int)
    ensures Carries(info, m, s) && !Outboxes.Queued(entries, (m, s)) ==>
              OutboxAfter(entries, info, nowMs) ==
              entries[if |entries| < 500 then 0 else 1..] + [ReportOutboxEntry(m, s, nowMs)]
    ensures Carries(info, m, s) && Outboxes.Queued(entries, (m, s)) ==> OutboxAfter(entries, info, nowMs) == entries
    ensures (forall m, s :: !Carries(info, m, s)) ==> OutboxAfter(entries, info, nowMs) == entries
  {
    if ReportFor(info).Some? {
      assert Carries(info, ReportFor(info).value.0, ReportFor(info).value.1);
    }
  }

  class PushPresentationDecider {
    const registry: SeenMessageRegistry
    const outbox: Outboxes.ReportOutbox
    /** How often the host was told that a report was queued. */
    var queuedCalls: nat

    ghost predicate Valid()
      reads this, registry, registry.seen
    {
      registry.Valid()
    }

    constructor (registry: SeenMessageRegistry, outbox: Outboxes.ReportOutbox)
      requires registry.Valid()
      ensures Valid() && this.registry == registry && this.outbox == outbox && queuedCalls == 0
    {
      this.registry, this.outbox, queuedCalls := registry, outbox, 0;
    }

    /** A notification arriving in the foreground. */
    method Decide(info: UserInfo, requestIdentifier: Option<string>, nowMs: int) returns (decision: Decision)
      requires Valid()
      modifies this, registry, registry.seen, registry.store`seenMessageIds, outbox, outbox.store`reportOutbox
      ensures Valid()
      ensures var id := MessageId(info, requestIdentifier);
              if IsSocketOriginated(info) || id.None? then
                decision == Present && registry.View() == old(registry.View()) && outbox.View() == old(outbox.View())
              else
                && (decision == Present <==> SeenSets.IsNew(old(Current(registry.View())), id.value))
                && registry.View() == old(Marked(registry.View(), id.value))
                && outbox.View() == (if decision == Present then old(OutboxAfter(outbox.View(), info, nowMs))
                     else old(outbox.View()))
      ensures forall m :: Names(info, m) && ("source" !in info || info["source"] != Text("socket")) ==>
                && (decision == Present <==> m !in old(Current(registry.View())))
                && registry.View() == old(Marked(registry.View(), m))
    {
      if IsSocketOriginated(info) {
        return Present;
      }
      var id := MessageId(info, requestIdentifier);
      if id.None? {
        return Present;
      }
      var isNew := registry.MarkSeen(id.value);
      if !isNew {
        return Suppress;
      }
      QueueProviderPushReport(info, nowMs);
      decision := Present;
    }

    /** A notification handed over by the remote-notification callback. */
    method DecideRemoteNotification(info: UserInfo, appIsActive: bool, nowMs: int) returns (decision: Decision)
      requires Valid()
      modifies this, registry, registry.seen, registry.store`seenMessageIds, outbox, outbox.store`reportOutbox
      ensures Valid()
      ensures var id := MessageId(info, None);
              if id.None? then
                decision == Present && registry.View() == old(registry.View()) && outbox.View() == old(outbox.View())
              else
                && (decision == Present <==> SeenSets.IsNew(old(Current(registry.View())), id.value))
                && (if appIsActive && HasAlert(info)
                    then registry.View() == old(Loaded(registry.View())) && outbox.View() == old(outbox.View())
                    else registry.View() == old(Marked(registry.View(), id.value))
                         && outbox.View() == (if decision == Present then old(OutboxAfter(outbox.View(), info, nowMs))
                                              else old(outbox.View())))
      ensures forall m :: Names(info, m) ==>
                && (decision == Present <==> m !in old(Current(registry.View())))
                && ((appIsActive && HasAlert(info)) || registry.View() == old(Marked(registry.View(), m)))
    {
      var id := MessageId(info, None);
      if id.None? {
        return Present;
      }
      MessageIdIsNeverEmpty(info, None);
      if appIsActive && HasAlert(info) {
        var known := registry.Contains(id.value);
        return if known then Suppress else Present;
      }
      var isNew := registry.MarkSeen(id.value);
      if !isNew {
        return Suppress;
      }
      QueueProviderPushReport(info, nowMs);
      decision := Present;
    }

    method QueueProviderPushReport(info: UserInfo, nowMs: int)
      modifies this`queuedCalls, outbox, outbox.store`reportOutbox
      ensures outbox.View() == old(OutboxAfter(outbox.View(), info, nowMs))
      ensures queuedCalls > old(queuedCalls) <==>
              ReportFor(info).Some? && old(!Outboxes.Queued(outbox.View(), ReportFor(info).value))
    {
      var report := ReportFor(info);
      if report.None? {
        return;
      }
      var queued := outbox.Enqueue(report.value.0, report.value.1, nowMs);
      if queued {
        queuedCalls := queuedCalls + 1;
      }
    }
  }

  // ----- Every channel over one registry -----

  datatype ChannelEvent =
    | SocketMessage(id: string)
    | WillPresent(info: UserInfo, requestIdentifier: Option<string>)
    | RemoteNotification(notification: UserInfo, appIsActive: bool)
    | ProcessRestart

  function Optional(id: Option<string>, mark: bool): seq<Call> {
    if id.None? then [] else if mark then [Mark(id.value)] else [Look(id.value)]
  }

  /** The registry calls one event makes. */
  function CallsOf(e: ChannelEvent): seq<Call> {
    match e
    case SocketMessage(id) => if id == "" then [] else [Mark(id)]
    case WillPresent(info, req) => if IsSocketOriginated(info) then [] else Optional(MessageId(info, req), true)
    case RemoteNotification(info, active) => Optional(MessageId(info, None), !(active && HasAlert(info)))
    case ProcessRestart => [Restart]
  }

  /** The callback of an active app only looks up a push that the system will show: one with an `aps` alert. */
  lemma AlertPushIsLookedUpIff(info: UserInfo, m: string, active: bool)
    requires Names(info, m)
    ensures CallsOf(RemoteNotification(info, active)) in {[Look(m)], [Mark(m)]}
    ensures CallsOf(RemoteNotification(info, active)) == [Look(m)] <==>
            && active
            && exists aps ::
                 "aps" in info && info["aps"] == Dictionary(aps) && "alert" in aps && aps["alert"] != Other
  {
    NamedPush(info, None, m);
    if HasAlert(info) {
      assert info["aps"] == Dictionary(info["aps"].entries);
    }
  }

  function AllCalls(events: seq<ChannelEvent>): seq<Call> {
    if events == [] then [] else AllCalls(events[..|events| - 1]) + CallsOf(events[|events| - 1])
  }

  /** The id this event marks as a first sight, if any. */
  function Claims(r: Registry, e: ChannelEvent): seq<string> {
    FirstSights(r, CallsOf(e))
  }

  /** The ids marked as first sights over a run, whatever the channel. */
  function FirstSeen(r: Registry, events: seq<ChannelEvent>): seq<string> {
    if events == [] then []
    else
      var before := events[..|events| - 1];
      FirstSeen(r, before) + Claims(RunRegistry(r, AllCalls(before)), events[|events| - 1])
  }

  lemma {:induction false} FirstSightsAppend(r: Registry, a: seq<Call>, b: seq<Call>)
    ensures RunRegistry(r, a + b) == RunRegistry(RunRegistry(r, a), b)
    ensures FirstSights(r, a + b) == FirstSights(r, a) + FirstSights(RunRegistry(r, a), b)
    decreases |b|
  {
    if b == [] {
      assert a + b == a;
    } else {
      assert (a + b)[..|a + b| - 1] == a + b[..|b| - 1];
      FirstSightsAppend(r, a, b[..|b| - 1]);
    }
  }

  lemma {:induction false} FirstSeenAreFirstSights(r: Registry, events: seq<ChannelEvent>)
    ensures FirstSeen(r, events) == FirstSights(r, AllCalls(events))
    decreases |events|
  {
    if events != [] {
      FirstSeenAreFirstSights(r, events[..|events| - 1]);
      FirstSightsAppend(r, AllCalls(events[..|events| - 1]), CallsOf(events[|events| - 1]));
    }
  }

  /**
   Over any interleaving of socket messages, foreground pushes, remote notifications and restarts, one id
   is marked a first sight twice only with at least 2000 other first sights between, and a channel is told
   "already seen" exactly for the ids among the 2000 newest. Only marks are counted: the look-up of an active
   alert push marks nothing, so what it lets through is no first sight here.
   */
  lemma CrossChannelDedupe(r: Registry, events: seq<ChannelEvent>, id: string)
    requires Durable(r)
    ensures var log := Current(r) + FirstSeen(r, events);
            forall p, q :: 0 <= p < q < |log| && log[p] == log[q] ==> q - p > SeenSets.CAPACITY
    ensures id != "" ==>
              (!SeenSets.IsNew(Current(RunRegistry(r, AllCalls(events))), id)
               <==> id in LastN(Current(r) + FirstSeen(r, events), 2000))
  {
    FirstSeenAreFirstSights(r, events);
    DedupeAgreesWithLog(r, AllCalls(events), id);
  }

  lemma {:induction false} AllCallsAppend(a: seq<ChannelEvent>, b: seq<ChannelEvent>)
    ensures AllCalls(a + b) == AllCalls(a) + AllCalls(b)
    decreases |b|
  {
    if b == [] {
      assert a + b == a;
    } else {
      var before, calls := b[..|b| - 1], CallsOf(b[|b| - 1]);
      assert (a + b)[..|a + b| - 1] == a + before && (a + b)[|a + b| - 1] == b[|b| - 1];
      AllCallsAppend(a, before);
      assert AllCalls(a) + (AllCalls(before) + calls) == (AllCalls(a) + AllCalls(before)) + calls;
    }
  }

  function After(r: Registry, events: seq<ChannelEvent>): Registry {
    RunRegistry(r, AllCalls(events))
  }

  lemma AfterAppend(r: Registry, a: seq<ChannelEvent>, b: seq<ChannelEvent>)
    requires Durable(r)
    ensures Durable(After(r, a)) && After(r, a + b) == After(After(r, a), b)
  {
    AllCallsAppend(a, b);
    FirstSightsAppend(r, AllCalls(a), AllCalls(b));
    RestartsAreInvisible(r, AllCalls(a));
  }

  lemma OneCall(r: Registry, call: Call)
    ensures RunRegistry(r, [call]) == StepRegistry(r, call)
    ensures FirstSights(r, [call]) == if call.Mark? && SeenSets.IsNew(Current(r), call.id) then [call.id] else []
  {
    assert [call][..0] == [] && RunRegistry(r, []) == r;
  }

  lemma AfterMessage(r: Registry, m: string, now: Registry)
    requires Durable(r) && m != "" && now == After(r, [SocketMessage(m)])
    ensures Durable(now) && Current(now) == SeenSets.Inserted(Current(r), 2000, m)
  {
    assert [SocketMessage(m)][..0] == [] && AllCalls([SocketMessage(m)]) == [] + [Mark(m)];
    OneCall(r, Mark(m));
    StepKeepsDurable(r, Mark(m));
  }

  lemma InsertedIsKnown(order: seq<string>, limit: nat, m: string)
    requires m != "" && limit > 0
    ensures m in SeenSets.Inserted(order, limit, m)
    ensures m !in order ==>
              var after := SeenSets.Inserted(order, limit, m); after != [] && after[|after| - 1] == m
  {
    var all := order + [m];
    assert all[|all| - 1] == m;
    if m !in order {
      var after := LastN(all, limit);
      assert after[|after| - 1] == m;
    }
  }

  lemma PushClaimsIff(now: Registry, m: string, info: UserInfo, req: Option<string>)
    requires Names(info, m) && !IsSocketOriginated(info)
    ensures m in Current(now) <==> Claims(now, WillPresent(info, req)) == []
  {
    NamedPush(info, req, m);
    OneCall(now, Mark(m));
  }

  /**
   Socket and push together: behind the socket's message `m`, with anything in between, a push naming `m` finds it known
   exactly while `m` is among the 2000 newest first sights, and then marks nothing.
   */
  lemma SocketThenPush(
    r: Registry, events: seq<ChannelEvent>, between: seq<ChannelEvent>, m: string, info: UserInfo, req: Option<string>,
    behind: Registry, now: Registry)
    requires Durable(r) && Names(info, m) && !IsSocketOriginated(info)
    requires behind == After(r, events + [SocketMessage(m)])
    requires now == After(r, events + [SocketMessage(m)] + between)
    ensures m in Current(behind)
    ensures m in Current(now) <==> m in LastN(Current(behind) + FirstSeen(behind, between), 2000)
    ensures m in Current(now) <==> Claims(now, WillPresent(info, req)) == []
  {
    AfterAppend(r, events, [SocketMessage(m)]);
    AfterAppend(r, events + [SocketMessage(m)], between);
    AfterMessage(After(r, events), m, behind);
    InsertedIsKnown(Current(After(r, events)), SeenSets.CAPACITY, m);
    CrossChannelDedupe(behind, between, m);
    PushClaimsIff(now, m, info, req);
  }

  lemma StaysInLastN(order: seq<string>, more: seq<string>, n: nat, m: string)
    requires order != [] && order[|order| - 1] == m && |more| < n
    ensures m in LastN(order + more, n)
  {
    var log, p := order + more, |order| - 1;
    assert log[p] == m;
    assert LastN(log, n)[p - (|log| - |LastN(log, n)|)] == log[p];
  }

  /** A message new on the socket is not shown again by a push until 2000 other ids have been seen. */
  lemma FreshSocketMessageSuppressesPush(
    r: Registry, events: seq<ChannelEvent>, between: seq<ChannelEvent>, m: string, info: UserInfo, req: Option<string>,
    behind: Registry, now: Registry)
    requires Durable(r) && Names(info, m) && !IsSocketOriginated(info) && m !in Current(After(r, events))
    requires behind == After(r, events + [SocketMessage(m)]) && |FirstSeen(behind, between)| < 2000
    requires now == After(r, events + [SocketMessage(m)] + between)
    ensures m in Current(now) && Claims(now, WillPresent(info, req)) == []
  {
    SocketThenPush(r, events, between, m, info, req, behind, now);
    AfterAppend(r, events, [SocketMessage(m)]);
    AfterMessage(After(r, events), m, behind);
    InsertedIsKnown(Current(After(r, events)), SeenSets.CAPACITY, m);
    StaysInLastN(Current(behind), FirstSeen(behind, between), SeenSets.CAPACITY, m);
  }
}

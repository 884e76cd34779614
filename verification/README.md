# Push SDK: verified model

A Dafny 4.11 model of the state machines and codecs of a push-notification SDK, kept beside its sources:

- the foreground delivery client and its report tracker (`ClientSpec`, `SocketClients`, `TrackerSpec`,
  `ReportTrackers`), with the run theorems in `ClientRuns`, `ClientReports`, `ClientHandshakes`, `ClientRetries`,
  `ClientBackoff`, `ClientMessages`, `ClientCursors`, `ClientWires` (which frame goes out when), `ClientEvents` (what
  the host is told), `ClientInboxes` (the messages kept for it), `ClientSessions` (modes, sessions and restarts) and
  `TrackerRuns`;
- the dedupe set, its persisted registry, the presentation decider and the report outbox (`SeenSets`,
  `SeenRegistries`, `PushPresentation`, `ReportOutboxes`), and the reconnect backoff (`Backoff`);
- the UTF-8 codecs (`Utf8Spec`, `TextDecoding`, `TextEncoding`), the frame codec (`Varint`, `FrameCodec`), the
  gRPC-web framing (`GrpcWeb`), the hand-encoded ReportEvents body (`ReportWire`) and base64url (`Base64Url`);
- the cross-process report marker store and its two users (`MarkerSpec`, `MarkerStores`, `MarkerRuns`,
  `ReportCenters`, `ExtensionReports`);
- the report flusher (`ReportFlusher`) and the serialised identity jobs: the promise chain behind `runExclusive`
  (`PromiseQueue`), the jobs and their stores (`IdentitySpec`, `IdentityRuns`), the two together (`IdentitySystem`)
  and as a class (`IdentityQueues`).

`dafny verify dfyconfig.toml` checks all of it.

## How it is built

An object whose methods update its fields is a class with those fields; each method is proved to take the class's
abstract value (`View()`) where a specification function takes it (`Step`, `Transact`, ...), and the theorems are
about that function over every run. A loop of the source is a loop here, proved against a function of its input.
Tables and standards the code follows are written down independently and compared: Table 3-7 of section 3.9 of the
Unicode Standard, the decoder of section 8.1.1 of the WHATWG Encoding Standard, `encodeURIComponent` of ECMA-262,
the protobuf wire format, and sections 4 and 5 of RFC 4648.

Assumptions: callbacks of transport, scheduler and store arrive inline, so a closed socket's callbacks never do; the
host does not call back into the client; a socket counts as open while it is attached; the clock is read once per
event, per marker transaction and per call of the report centre; a marker transaction is atomic (the lock is held)
and the clock never goes back; a promise's reaction runs some time after its parent settles, in an order the
environment picks; an identity job's effect on the stores is one step, at its settling, and `initialize`'s own token
read is outside it; the flusher's last loop test and the clearing of `running` are one step.

Bytes and UTF-16 code units are integers in range, so shifts and masks are written as arithmetic; 64-bit wrap-around
is written out where it matters (`Varint.Shifted`, the signed length of `GrpcWeb.LoopLength`). The client's fields
are grouped in two records, `link` and `mail`; a socket is named by its generation, a timer by the millisecond it is
due, and everything the client sends, closes, publishes or asks for is appended to `out`.

## Findings

- A deferred report can lose its timer while it is due and unsent: over every run, on a connected client, exactly
  when the timer was last set by an Ack handled at or after the report's deadline (`ClientRetries.UntimedIff`). Its own
  `rate_limited` Ack with a zero jitter draw is one such Ack (`ClientRetries.RateLimitedIsCoveredIff`), any other Ack
  handled ahead of the due timer's callback another (`ClientRetries.AckPassesOverDue`). Poll ticks never send it
  (`ClientRetries.DueReportLeavesIff`).
- `start` on a client that has a socket dials a second one and never closes the first (`ClientRuns.OneSocketIff`,
  `ClientRuns.TwoStartsLeaveOne`).
- `stop`, `start`, a new configuration and Close(STALE) leave the in-flight keys of the old connection in place, so
  the next handshake does not resend them (`ClientReports.ConnectionLeaves`, `ClientHandshakes.NextHandshakeSendsIff`).
- A handshake queues the report of its first pooled message before it flushes anything, so from a full outbox the
  oldest report can be dropped unsent (`ClientHandshakes.HandshakeSendsIff`, `ClientHandshakes.PushedOutIsLost`,
  `ClientHandshakes.FullOutboxIsPushed`).
- A disconnect that is not a shed leaves the backoff reset armed, so a POOL_FULL on the next socket restores a stale
  count (`ClientBackoff.LeakedResetRestoresStaleCount`).
- `SeenSet.init(persisted:)` keeps the oldest entries of an over-long list; its comment says the excess is dropped
  from the front (`SeenSets.RestoresKeepOppositeEnds`).
- Evicting a report leaves its key in flight, so the same report queued again waits for an Ack or the end of the
  connection (`TrackerRuns.QueuedGoesOutIff`, `TrackerRuns.EvictionRunExists`).
- The two retryable rejections share one attempt counter (`TrackerRuns.RateLimitsSpendForwardRetries`).
- The TypeScript envelope loop builds a signed 32-bit length: it finds the frames if and only if every header has
  its top length bit clear (`GrpcWeb.DecodeIsWalkIff`), and stays in place for ever wherever the length reads as -5
  (`GrpcWeb.SignedLengthCanStall`). The Swift walk ends on every input.
- `base64UrlToBytes` ignores the unused bits of the last symbol (`Base64Url.EncodeOfDecodeIff`).
- `markRetryIfUnknown` is three transactions: its write takes a key away from its holder exactly when a claim made
  since its check has it in flight for less than 30 minutes (`ExtensionReports.UnknownCheckTakesBackIff`).
- When deleting the stored JWT fails, the next launch mirrors it back although removeIdentity had cleared the mirror
  (`IdentityRuns.StaysRemovedIff`).

## Model

| member | source | states |
|---|---|---|
| ClientRuns.StepKeepsSafe | ios/SinchPushSocket/SocketClient.swift:173-320 | every event keeps: no socket or timer while stopped or suspended, never a socket and a pending reconnect together, `connected` only with a socket and a poll timer, one of socket or reconnect while it should be connected |
| ClientRuns.NeverWedged | ios/SinchPushSocket/SocketClient.swift:173-320 | over every run the four facts above hold; a started, configured client that is neither stopped nor suspended has exactly one of socket and pending reconnect |
| ClientRuns.StepIsSoleIff | ios/SinchPushSocket/SocketClient.swift:173-320 | an event leaves no socket dialled and never closed by the client, except the current one, exactly when it is not `start` on a client with a socket and a parsable url |
| ClientRuns.OneSocketIff | ios/SinchPushSocket/SocketClient.swift:173-320 | over every run no socket but the current one is dialled and never closed by the client exactly when `start` never met a socket |
| ClientRuns.TwoStartsLeaveOne | ios/SinchPushSocket/SocketClient.swift:285-320 | the run of two starts: the first socket is never closed by the client, and its peer closing it changes nothing |
| ClientReports.RunTraced | ios/SinchPushSocket/SocketClient.swift:698-714 | over every run the report frames on the wire are exactly those the tracker handed out, in order, and the tracker is where its own call trace leads |
| ClientReports.WireResendNeedsCause | ios/SinchPushSocket/SocketClient.swift:703-714 | two DeliveryReport frames of one (message id, status) have a `rate_limited` or `upstream_forward_failed` Ack for the token, a closed connection or a re-queue after leaving the outbox between them |
| ClientReports.ConnectionLeaves | ios/SinchPushSocket/SocketClient.swift:188-320 | what beginning or ending a connection does to the tracker: nothing, or forgetting what is in flight, the latter exactly for a lost transport, a close frame other than STALE, a suspension and a failed dial |
| ClientHandshakes.HandshakeSendsIff | ios/SinchPushSocket/SocketClient.swift:456-480 | over every run, the frames a HelloAck adds carry a queued report exactly when its key is not in flight, its deferral is over and the first pooled message does not push it out of a full outbox before the flush (or a later message asks for the very same report) |
| ClientHandshakes.NextHandshakeSendsIff | ios/SinchPushSocket/SocketClient.swift:744-849 | the same from any earlier moment, however the connection in between ended and began: not in flight then, or an event in between forgot it |
| ClientHandshakes.PushedOutIsLost | ios/SinchPushSocket/SocketClient.swift:456-480 | a report pushed out by the first message, whose key no later message asks for, is neither sent nor kept by the handshake |
| ClientHandshakes.FullOutboxIsPushed | ios/SinchPushSocket/ReportTracker.swift:158-165 | such a state is reached from nothing by two hundred queued reports |
| ClientRetries.UntimedIff | ios/SinchPushSocket/SocketClient.swift:413-431 | over every run, while connected, a deadline is timed exactly when it lies after the last arming; a deferred report not on the wire is untimed exactly when that arming was an Ack at or after its deadline |
| ClientRetries.NoDeferralStranded | ios/SinchPushSocket/SocketClient.swift:413-431 | over every run, while connected, each deadline strictly in the future has a deferral timer no later than it |
| ClientRetries.AckPassesOverDue | ios/SinchPushSocket/SocketClient.swift:413-431 | an Ack for something else handled when a report is due drops its timer and sends nothing |
| ClientRetries.DeferralFiringSendsDue | ios/SinchPushSocket/SocketClient.swift:721-730 | when that timer fires on a connected client every due entry not in flight is sent |
| ClientRetries.RateLimitedIsCoveredIff | ios/SinchPushSocket/SocketClient.swift:413-431 | a report deferred by this Ack is covered by a timer exactly when its jittered delay is not zero |
| ClientRetries.PollTickSendsIff | ios/SinchPushSocket/SocketClient.swift:677-689 | on a connected client a poll tick sends a queued report exactly when its key is not in flight, it has no deadline and has failed at least once |
| ClientRetries.DeferralTickSendsIff | ios/SinchPushSocket/SocketClient.swift:721-730 | the deferral timer sends exactly the due reports that are not in flight |
| ClientRetries.ForwardFailureIsRetried | ios/SinchPushSocket/SocketClient.swift:677-714 | a report whose forward failed fewer than three times is on the wire again at the next poll tick |
| ClientBackoff.SessionBudget | ios/SinchPushSocket/SocketClient.swift:816-840 | a session shed without work costs one attempt more, one that did work restarts at 1, and the redial lies in the window of the new count |
| ClientBackoff.SheddingClimbs | ios/SinchPushSocket/SocketClient.swift:895-907 | from n attempts, k sessions shed without work leave n+k attempts and the window min(30 s, 1 s * 2^(n+k-1)) |
| ClientBackoff.LeakedResetRestoresStaleCount | ios/SinchPushSocket/SocketClient.swift:816-840 | a POOL_FULL before the next HelloAck restores the count recorded a session earlier |
| ClientBackoff.StepDialsIff | ios/SinchPushSocket/SocketClient.swift:285-320 | of all events in every state, exactly these dial: start, resume, a new configuration, the reconnect timer and STALE, and only with a parsable url and neither stopped nor suspended |
| ClientMessages.ToldOnce | ios/SinchPushSocket/SocketClient.swift:499-585 | over every run, the push path marking ids meanwhile, the host hears of one id twice only with 2000 other first sights between |
| ClientMessages.HitOnlyReports | ios/SinchPushSocket/SocketClient.swift:499-585 | a dedupe hit is reported and causes nothing else |
| ClientMessages.QueuedOnWireIff | ios/SinchPushSocket/SocketClient.swift:698-714 | a report just queued on a connected socket is on the wire after the flush exactly when its key is not in flight |
| ClientMessages.ReportPrecedesEvent | ios/SinchPushSocket/SocketClient.swift:499-585 | a new message's report, with its sinch id and the time, is on the wire before the host hears of the message, its id already persisted |
| ClientMessages.HostReportGoesOut | ios/SinchPushSocket/SocketClient.swift:257-266 | an accepted host report is queued under that id and status and is among the frames of the step exactly when the client is connected and its key is not in flight |
| ClientMessages.PostedIsReported | ios/SinchPushSocket/SocketClient.swift:587-618 | a notification the system took is reported as displayed in the same way |
| ClientCursors.CursorOverRun | ios/SinchPushSocket/SocketClient.swift:619-630 | over every run the cursor in memory is the one on disk once loaded, never negative; its timestamp is the newest received since the last reset and its id is of a message with that timestamp; only a new message without a timestamp resets it |
| ClientWires.StepAdds | ios/SinchPushSocket/SocketClient.swift:322-483 | of every event in every state: exactly which Hello, Poll and Pong frames it sends, and that every frame goes to the current socket |
| ClientWires.HelloCarriesCursor | ios/SinchPushSocket/SocketClient.swift:334-356 | over every run, opening the attached socket sends one Hello with the cursor on disk and the configured token, and nothing else |
| ClientWires.HelloIsFirst | ios/SinchPushSocket/SocketClient.swift:322-356 | over every run in which no socket speaks before it opens, the first frame on every socket is a Hello |
| ClientEvents.StateIsTold | ios/SinchPushSocket/SocketClient.swift:928-950 | over every run the last state the host was told is the client's state |
| ClientEvents.GreetingShows | ios/SinchPushSocket/SocketClient.swift:456-497 | a handshake publishes connected under the relay's id with nothing spent, and polls at the host's interval, else the server's, else 5 s, at least 1 s |
| ClientEvents.LossShows | ios/SinchPushSocket/SocketClient.swift:816-840 | a lost connection closes its socket, publishes the reason and one attempt more, and schedules the next attempt after exactly the jitter of that count |
| ClientEvents.BadUrlShows | ios/SinchPushSocket/SocketClient.swift:285-320 | a url that does not parse is published and retried on the same backoff |
| ClientEvents.TerminalCloseShows | ios/SinchPushSocket/SocketClient.swift:744-783 | UNAUTHORIZED and BG_RESUMED stop for good in a new session; status, error text and the one refresh request per start |
| ClientEvents.RetryableCloseShows | ios/SinchPushSocket/SocketClient.swift:744-792 | the other closes publish their detail or number and retry on the backoff |
| ClientEvents.StaleShows | ios/SinchPushSocket/SocketClient.swift:794-801 | STALE redials at once on a budget of zero |
| ClientEvents.RefusalShows | ios/SinchPushSocket/SocketClient.swift:413-431 | a refused Ack changes the published error alone: the relay's word, or the message id before the token's colon |
| ClientEvents.OtherAcksShowNothing | ios/SinchPushSocket/SocketClient.swift:413-431 | an accepted or uncorrelated Ack publishes nothing |
| ClientEvents.StopShows | ios/SinchPushSocket/SocketClient.swift:188-214 | stop ends the session and suspend does not; both publish their status and keep the last error |
| ClientEvents.PollTickRearms | ios/SinchPushSocket/SocketClient.swift:677-689 | a poll tick arms the next one a whole interval later and changes nothing else of the link |
| ClientInboxes.NewMessageShows | ios/SinchPushSocket/SocketClient.swift:537-585 | a new message is filed unshown with the relay's fields, on disk as in memory, dropping the oldest past 200, then told, and looked up exactly when a notification is wanted |
| ClientInboxes.InboxOverRun | ios/SinchPushSocket/SocketClient.swift:276-281 | over every run the messages kept for the host are the newest 200 of those told since it last cleared them |
| ClientInboxes.LookupShows | ios/SinchPushSocket/SocketClient.swift:568-650 | a look-up's answer is ignored once stopped or in another session, marks a message already shown, and otherwise posts it, silent within two seconds of a sound |
| ClientInboxes.PostedIsShown | ios/SinchPushSocket/SocketClient.swift:587-616 | a posted notification marks the first kept message of its id shown; a refused one changes nothing |
| ClientInboxes.SoundsAreApart | ios/SinchPushSocket/SocketClient.swift:641-648 | over every run, however the clock moves, two notifications that sound are at least two seconds apart |
| ClientInboxes.SinchIdIs | ios/SinchPushSocket/SocketClient.swift:669-675 | a host report carries the sinch id of the kept message, else of the oldest queued report of it, else none |
| ClientSessions.StepMode | ios/SinchPushSocket/SocketClient.swift:173-247 | every event in every state: exactly what becomes of stopped, suspended, the session's epoch, the refresh allowance, the configuration and its copy on disk |
| ClientSessions.EndedSessionPostsNothing | ios/SinchPushSocket/SocketClient.swift:568-580 | over every run the answer to a look-up asked in a session that has ended since changes nothing |
| ClientSessions.StartShows | ios/SinchPushSocket/SocketClient.swift:173-184 | start connects on a fresh budget with the configuration given or found on disk |
| ClientSessions.ResumeShows | ios/SinchPushSocket/SocketClient.swift:219-227 | a return to the foreground does so too, any other resume does nothing |
| ClientSessions.ReconfiguredShows | ios/SinchPushSocket/SocketClient.swift:234-247 | so does a new configuration, in whatever mode it finds the client |
| ClientSessions.RestartResumes | ios/SinchPushSocket/SocketClient.swift:953-974 | a new process that starts over the disk of any earlier run has its cursor, its kept messages and its configuration and token |
| SocketClients.SocketClient.constructor | ios/SinchPushSocket/SocketClient.swift:124-158 | takes the whole client (fields, tracker, registry, store, output) where `ClientSpec` takes its value: the initial value of the client |
| SocketClients.SocketClient.Start | ios/SinchPushSocket/SocketClient.swift:173-184 | takes the whole client (fields, tracker, registry, store, output) where `ClientSpec` takes its value: start as the specification step, timers, store and socket included |
| SocketClients.SocketClient.Stop | ios/SinchPushSocket/SocketClient.swift:188-198 | takes the whole client (fields, tracker, registry, store, output) where `ClientSpec` takes its value: stop; the tracker keeps its in-flight keys, as no connectionClosed is called |
| SocketClients.SocketClient.Suspend | ios/SinchPushSocket/SocketClient.swift:204-214 | takes the whole client (fields, tracker, registry, store, output) where `ClientSpec` takes its value: suspend, with connectionClosed |
| SocketClients.SocketClient.Resume | ios/SinchPushSocket/SocketClient.swift:219-227 | takes the whole client (fields, tracker, registry, store, output) where `ClientSpec` takes its value: resume with a zeroed budget |
| SocketClients.SocketClient.UpdateConfiguration | ios/SinchPushSocket/SocketClient.swift:234-247 | takes the whole client (fields, tracker, registry, store, output) where `ClientSpec` takes its value: a new configuration also revives a stopped client |
| SocketClients.SocketClient.Report | ios/SinchPushSocket/SocketClient.swift:257-266 | takes the whole client (fields, tracker, registry, store, output) where `ClientSpec` takes its value: a host report is queued and flushed |
| SocketClients.SocketClient.Open | ios/SinchPushSocket/SocketClient.swift:285-320 | takes the whole client (fields, tracker, registry, store, output) where `ClientSpec` takes its value: dial, or backoff when the url does not parse |
| SocketClients.SocketClient.HandleOpen | ios/SinchPushSocket/SocketClient.swift:322-326 | takes the whole client (fields, tracker, registry, store, output) where `ClientSpec` takes its value: a stale generation is ignored |
| SocketClients.SocketClient.SendHello | ios/SinchPushSocket/SocketClient.swift:334-356 | takes the whole client (fields, tracker, registry, store, output) where `ClientSpec` takes its value: a Hello with cursor and token, once configured |
| SocketClients.SocketClient.HandleBinary | ios/SinchPushSocket/SocketClient.swift:360-389 | takes the whole client (fields, tracker, registry, store, output) where `ClientSpec` takes its value: an undecodable frame or one of another generation changes nothing |
| SocketClients.SocketClient.Handle | ios/SinchPushSocket/SocketClient.swift:391-453 | takes the whole client (fields, tracker, registry, store, output) where `ClientSpec` takes its value: each server frame |
| SocketClients.SocketClient.HandleHelloAck | ios/SinchPushSocket/SocketClient.swift:456-480 | takes the whole client (fields, tracker, registry, store, output) where `ClientSpec` takes its value: handshake: budget, poll, flush and pooled messages in order |
| SocketClients.SocketClient.HandleAck | ios/SinchPushSocket/SocketClient.swift:413-431 | takes the whole client (fields, tracker, registry, store, output) where `ClientSpec` takes its value: Ack correlation, logging, re-arming |
| SocketClients.SocketClient.EmitMessage | ios/SinchPushSocket/SocketClient.swift:499-585 | takes the whole client (fields, tracker, registry, store, output) where `ClientSpec` takes its value: dedupe, cursor, report, event and presentation |
| SocketClients.SocketClient.AdvanceLastSeen | ios/SinchPushSocket/SocketClient.swift:619-630 | takes the whole client (fields, tracker, registry, store, output) where `ClientSpec` takes its value: the cursor |
| SocketClients.SocketClient.FlushReports | ios/SinchPushSocket/SocketClient.swift:703-714 | takes the whole client (fields, tracker, registry, store, output) where `ClientSpec` takes its value: marks in flight exactly what it sends |
| SocketClients.SocketClient.ArmDeferralTimer | ios/SinchPushSocket/SocketClient.swift:721-730 | takes the whole client (fields, tracker, registry, store, output) where `ClientSpec` takes its value: the least future deadline |
| SocketClients.SocketClient.HandleClose | ios/SinchPushSocket/SocketClient.swift:744-783 | takes the whole client (fields, tracker, registry, store, output) where `ClientSpec` takes its value: the close matrix |
| SocketClients.SocketClient.HandleStale | ios/SinchPushSocket/SocketClient.swift:794-801 | takes the whole client (fields, tracker, registry, store, output) where `ClientSpec` takes its value: immediate redial without connectionClosed |
| SocketClients.SocketClient.HandleTransportClose | ios/SinchPushSocket/SocketClient.swift:803-813 | takes the whole client (fields, tracker, registry, store, output) where `ClientSpec` takes its value: a replaced socket's close changes nothing, the current one's is a disconnect |
| SocketClients.SocketClient.HandleDisconnect | ios/SinchPushSocket/SocketClient.swift:816-840 | takes the whole client (fields, tracker, registry, store, output) where `ClientSpec` takes its value: backoff, shed budget, one reconnect timer |
| SocketClients.SocketClient.StopTerminally | ios/SinchPushSocket/SocketClient.swift:842-849 | takes the whole client (fields, tracker, registry, store, output) where `ClientSpec` takes its value: terminal stop with connectionClosed |
| SocketClients.SocketClient.CloseSocket | ios/SinchPushSocket/SocketClient.swift:878-885 | takes the whole client (fields, tracker, registry, store, output) where `ClientSpec` takes its value: detaches before closing |
| SocketClients.SocketClient.Publish | ios/SinchPushSocket/SocketClient.swift:928-943 | takes the whole client (fields, tracker, registry, store, output) where `ClientSpec` takes its value: the published state |
| TrackerRuns.StepKeepsInv | ios/SinchPushSocket/ReportTracker.swift:113-165 | every operation keeps at most 200 entries with distinct keys, disjoint from the sent-set |
| TrackerRuns.RunKeepsInv | ios/SinchPushSocket/ReportTracker.swift:62-72 | so does every run |
| TrackerRuns.RestartForgetsOnlyInFlight | ios/SinchPushSocket/ReportTracker.swift:93-105 | a restart restores exactly the outbox and sent-set and forgets only what was in flight |
| TrackerRuns.AckSelectsItsEntry | ios/SinchPushSocket/ReportTracker.swift:215-243 | an Ack token selects at most one entry, the one it was built from, even when ids contain a colon |
| TrackerRuns.FlushSendsSelected | ios/SinchPushSocket/ReportTracker.swift:170-191 | a flush sends exactly the eligible entries, each key once |
| TrackerRuns.FlushHandsOutIff | ios/SinchPushSocket/ReportTracker.swift:170-191 | each mode by the entry's own fields: not in flight, and due, due with a deadline, or without a deadline and at least one attempt |
| TrackerRuns.ForwardFailureLeaves | ios/SinchPushSocket/ReportTracker.swift:271-292 | a forward failure short of the third retry leaves the entry with one attempt more, no deadline and its key released |
| TrackerRuns.ResendNeedsCause | ios/SinchPushSocket/ReportTracker.swift:170-310 | between two sends of one key there is a retryable Ack for it, a closed connection or a re-queue |
| TrackerRuns.UnknownErrorChangesNothing | ios/SinchPushSocket/ReportTracker.swift:245-310 | an Ack with any other error changes nothing |
| TrackerRuns.UnsupportedStatusDrops | ios/SinchPushSocket/ReportTracker.swift:293-303 | `unsupported_status` removes the report without recording it as sent |
| TrackerRuns.QueuedGoesOutIff | ios/SinchPushSocket/ReportTracker.swift:113-191 | a report just queued goes out with the flush behind it exactly when its key is not in flight |
| TrackerRuns.EvictionLeavesInFlight | ios/SinchPushSocket/ReportTracker.swift:158-165 | 200 other reports queued on one connection evict an entry and leave its key in flight: it can be queued again and then waits |
| TrackerRuns.EvictionRunExists | ios/SinchPushSocket/ReportTracker.swift:158-165 | the whole run from an empty tracker: queue, flush, 200 more, queue again, withheld |
| TrackerRuns.InFlightIff | ios/SinchPushSocket/ReportTracker.swift:170-208 | over every run a key is withheld as in flight exactly when a flush handed it out and no connection end and no Ack of the closed vocabulary for it came since |
| TrackerRuns.SentSetIsNewestAcceptances | ios/SinchPushSocket/ReportTracker.swift:215-243 | over every run the sent-set is the newest 8000 acceptances |
| TrackerRuns.AcceptedStaysReported | ios/SinchPushSocket/ReportTracker.swift:113-148 | an accepted key can be queued again only after 8000 further acceptances |
| TrackerRuns.ForwardFailuresAreBounded | ios/SinchPushSocket/ReportTracker.swift:271-292 | over every run no entry outlives three `upstream_forward_failed` Acks |
| TrackerRuns.RateLimitsSpendForwardRetries | ios/SinchPushSocket/ReportTracker.swift:254-310 | the next forward failure keeps the entry exactly while its shared count is below three |
| TrackerRuns.NextDeferralIsLeast | ios/SinchPushSocket/ReportTracker.swift:322-330 | the least deadline strictly in the future |
| TrackerRuns.DeferralIsInWindow | ios/SinchPushSocket/ReportTracker.swift:254-269 | a deferral lies in the jitter window of the new count and frees the key |
| ReportTrackers.ReportTracker.Queue | ios/SinchPushSocket/ReportTracker.swift:113-148 | the tracker value and the persisted outbox and sent-set follow `TrackerSpec`: refuses empty ids, pending and sent keys; evicts the oldest |
| ReportTrackers.ReportTracker.QueueFailure | ios/SinchPushSocket/ReportTracker.swift:150-156 | the tracker value and the persisted outbox and sent-set follow `TrackerSpec`: a failure report that replaces nothing |
| ReportTrackers.ReportTracker.EvictIfNeeded | ios/SinchPushSocket/ReportTracker.swift:158-165 | the tracker value and the persisted outbox and sent-set follow `TrackerSpec`: the 200-entry bound |
| ReportTrackers.ReportTracker.ReportsToSend | ios/SinchPushSocket/ReportTracker.swift:170-191 | the tracker value and the persisted outbox and sent-set follow `TrackerSpec`: selection by mode and deadline |
| ReportTrackers.ReportTracker.MarkSent | ios/SinchPushSocket/ReportTracker.swift:193-199 | the tracker value and the persisted outbox and sent-set follow `TrackerSpec`: in-flight keys |
| ReportTrackers.ReportTracker.ConnectionClosed | ios/SinchPushSocket/ReportTracker.swift:201-208 | the tracker value and the persisted outbox and sent-set follow `TrackerSpec`: forgets in-flight keys only |
| ReportTrackers.ReportTracker.Handle | ios/SinchPushSocket/ReportTracker.swift:215-243 | the tracker value and the persisted outbox and sent-set follow `TrackerSpec`: correlates an Ack and returns the outcome |
| ReportTrackers.ReportTracker.ApplyRejection | ios/SinchPushSocket/ReportTracker.swift:245-310 | the tracker value and the persisted outbox and sent-set follow `TrackerSpec`: the rejection table |
| ReportTrackers.ReportTracker.NextDeferral | ios/SinchPushSocket/ReportTracker.swift:322-330 | the tracker value and the persisted outbox and sent-set follow `TrackerSpec`: next deadline |
| SocketTypes.KeyIsInjective | ios/SinchPushSocket/SocketTypes.swift:345-351 | token and sent key determine message id and status |
| Backoff.CeilingClosedForm | ios/SinchPushSocket/Backoff.swift:37-45 | for every integer the window is min(30 s, 1 s * 2^(n-1)), within 1..30 s, without 64-bit overflow |
| Backoff.CeilingMonotone | ios/SinchPushSocket/Backoff.swift:37-45 | more attempts never narrow the window |
| Backoff.DelayInWindow | ios/SinchPushSocket/Backoff.swift:47-54 | every delay is in [0, window) whatever the random source returns |
| Backoff.EveryDelayIsReachable | ios/SinchPushSocket/Backoff.swift:47-54 | full jitter: every millisecond of the window is drawn by some value in [0, 1) |
| Backoff.ReportBackoffIsShiftedCurve | src/api/reportOutbox.ts:37-40 | the flusher waits on the same curve shifted by one attempt |
| SeenSets.SetIsNewestOfLog | ios/SinchPushSocket/SeenSet.swift:52-75 | the set is exactly the newest `limit` newly marked ids |
| SeenSets.RepeatsAreFarApart | ios/SinchPushSocket/SeenSet.swift:59-66 | two "new" answers for one id have at least `limit` other new ids between |
| SeenSets.ReplayOfDistinct | ios/SinchPushSocket/SeenSet.swift:32-38 | the limit initialiser keeps the newest of distinct ids |
| SeenSets.RestoreIsIdentity | ios/SinchPushSocket/SeenSet.swift:28-50 | restoring what was persisted gives the set back under both initialisers |
| SeenSets.RestoresKeepOppositeEnds | ios/SinchPushSocket/SeenSet.swift:28-50 | on distinct ids the one keeps the newest, the other the oldest 2000; they agree iff the list fits |
| SeenSets.SeenSet.Insert | ios/SinchPushSocket/SeenSet.swift:59-66 | true exactly for a non-empty unseen id; the new order is the bounded log |
| SeenSets.SeenSet.Contains | ios/SinchPushSocket/SeenSet.swift:52-57 | membership in the order |
| SeenSets.SeenSet.RestoreNewest | ios/SinchPushSocket/SeenSet.swift:32-38 | the loop restores by offering each id |
| SeenSets.SeenSet.RestoreOldest | ios/SinchPushSocket/SeenSet.swift:42-50 | the loop stops at the bound |
| SeenRegistries.RestartsAreInvisible | ios/SinchPushSocket/SeenMessageRegistry.swift:42-71 | over every run with restarts the set is what one uninterrupted set would hold, already on disk |
| SeenRegistries.AnyStoreIsDurable | ios/SinchPushSocket/SeenMessageRegistry.swift:67-71 | whatever list the store holds, a registry over it meets the precondition of the run theorems |
| SeenRegistries.DedupeAgreesWithLog | ios/SinchPushSocket/SeenMessageRegistry.swift:42-71 | an id is known iff among the 2000 newest first sights; two first sights are 2000 others apart |
| SeenRegistries.FirstSightsAreNewMarks | ios/SinchPushSocket/SeenMessageRegistry.swift:42-50 | the "true" answers are exactly the newly marked ids |
| SeenRegistries.SeenMessageRegistry.MarkSeen | ios/SinchPushSocket/SeenMessageRegistry.swift:42-50 | answers and persists before returning |
| SeenRegistries.SeenMessageRegistry.Contains | ios/SinchPushSocket/SeenMessageRegistry.swift:52-60 | a look-up changes no mark |
| SeenRegistries.SeenMessageRegistry.LoadIfNeeded | ios/SinchPushSocket/SeenMessageRegistry.swift:67-71 | lazy load |
| PushPresentation.CrossChannelDedupe | ios/SinchPushSocket/PushPresentation.swift:90-131 | over any interleaving of socket, foreground and remote pushes and restarts one id is marked a first sight twice only 2000 others apart; "seen" exactly for the 2000 newest |
| PushPresentation.NamedPush | ios/SinchPushSocket/PushPresentation.swift:34-43 | a payload that names its message is deduped on that name, whatever else it carries |
| PushPresentation.UnnamedPushIff | ios/SinchPushSocket/PushPresentation.swift:34-43 | without a name the request identifier is used exactly when it is no UUID and some key is a Sinch one |
| PushPresentation.UuidHasForm | ios/SinchPushSocket/PushPresentation.swift:34-43 | a UUID is 8-4-4-4-12 hex digits |
| PushPresentation.SocketThenPush | ios/SinchPushSocket/PushPresentation.swift:90-132 | behind a socket message, with anything in between, a push naming it marks nothing exactly while it is among the 2000 newest first sights |
| PushPresentation.FreshSocketMessageSuppressesPush | ios/SinchPushSocket/PushPresentation.swift:90-132 | a message new on the socket is not shown by a push until 2000 other ids have been seen |
| PushPresentation.AlertPushIsLookedUpIff | ios/SinchPushSocket/PushPresentation.swift:120-150 | the remote-notification callback of an active app only looks up a push exactly when it has an alert |
| PushPresentation.FirstSightIsReported | ios/SinchPushSocket/PushPresentation.swift:134-144 | a first sight is queued once as (message, subscriber) at its time, and not at all if the payload lacks either |
| PushPresentation.PushPresentationDecider.Decide | ios/SinchPushSocket/PushPresentation.swift:90-115 | decision, mark and report of a foreground push; one that names its message and is not the socket's is presented exactly when that name is unseen, and then marked as it |
| PushPresentation.PushPresentationDecider.DecideRemoteNotification | ios/SinchPushSocket/PushPresentation.swift:120-132 | decision, mark and report of a remote notification; one that names its message is presented exactly when that name is unseen |
| PushPresentation.PushPresentationDecider.QueueProviderPushReport | ios/SinchPushSocket/PushPresentation.swift:134-144 | queues a report exactly for a provider push with both ids |
| ReportOutboxes.EnqueueKeepsSound | ios/SinchPushSocket/ReportOutbox.swift:26-39 | at most 500 entries with distinct non-empty keys; the new pair is queued and the oldest goes |
| ReportOutboxes.RemovalIsExact | ios/SinchPushSocket/ReportOutbox.swift:49-59 | removal drops exactly the given keys |
| ReportOutboxes.ReportOutbox.Enqueue | ios/SinchPushSocket/ReportOutbox.swift:26-39 | new queue, memory and disk |
| ReportOutboxes.ReportOutbox.Snapshot | ios/SinchPushSocket/ReportOutbox.swift:41-47 | the queue as it stands, loaded first if need be |
| ReportOutboxes.ReportOutbox.Remove | ios/SinchPushSocket/ReportOutbox.swift:49-59 | new queue, memory and disk |
| ReportOutboxes.ReportOutbox.Clear | ios/SinchPushSocket/ReportOutbox.swift:61-67 | empty queue, memory and disk |
| Utf8Spec.SubpartIsMaximal | src/textEncoding.ts:125-149 | the replaced subpart is the longest beginning of a well-formed sequence, or one byte |
| Utf8Spec.PerByteIsExpansion | src/textEncoding.ts:50-229 | both decoders take the same sequences at the same places; the per-byte one expands each replaced subpart |
| Utf8Spec.BadIffIllFormed | src/textEncoding.ts:50-229 | something is replaced exactly on input ill-formed under Table 3-7 |
| Utf8Spec.ItemsAreWhatwg | src/textEncoding.ts:150-229 | the maximal-subpart items are the output of the WHATWG byte-at-a-time decoder on every input |
| Utf8Spec.ScalarRoundTrip | src/textEncoding.ts:50-123 | every scalar value is what its sequence decodes to |
| Utf8Spec.SequenceRoundTrip | src/textEncoding.ts:50-123 | every Table 3-7 sequence is the encoding of its value |
| TextDecoding.DecodeUtf8 | src/textEncoding.ts:50-123 | the loop returns the per-byte text, or throws in fatal mode exactly on ill-formed input |
| TextDecoding.DecodeUtf8MaximalSubpart | src/textEncoding.ts:150-229 | the loop returns the maximal-subpart text, or throws in fatal mode exactly on ill-formed input |
| TextDecoding.MaximalSubpartIsWhatwg | src/textEncoding.ts:150-229 | equals the WHATWG decoder in replacement and fatal mode on every byte sequence |
| TextDecoding.DecodersAgree | src/textEncoding.ts:50-229 | fatal modes throw on the same inputs; on well-formed input the texts agree |
| TextEncoding.WithLoneSurrogatesReplaced | src/textEncoding.ts:278-300 | the slicing scan replaces exactly the unpaired surrogates |
| TextEncoding.CheckUtf8 | src/textEncoding.ts:324-329 | true exactly when every code point is a scalar value |
| TextEncoding.EncodeUtf8 | src/textEncoding.ts:306-321 | the percent-decoding loop returns the UTF-8 of the replaced text |
| TextEncoding.ReplacedCodePoints | src/textEncoding.ts:278-300 | replacement acts on code points and leaves only scalars |
| TextEncoding.NothingReplacedIff | src/textEncoding.ts:324-329 | nothing is replaced exactly when there is no unpaired surrogate |
| TextEncoding.UriErrorIffLone | src/textEncoding.ts:306-321 | `encodeURIComponent` throws exactly on an unpaired surrogate |
| TextEncoding.EscapesAreUtf8 | src/textEncoding.ts:306-321 | its escapes stand for the UTF-8 bytes |
| TextEncoding.Utf8IsWellFormedIff | src/textEncoding.ts:306-321 | the bytes are well-formed exactly when no surrogate is encoded |
| TextEncoding.EncodeThenDecode | src/textEncoding.ts:278-329 | decoding `encodeUtf8(s)` gives s with unpaired surrogates replaced in all modes of both decoders; s itself iff `checkUtf8(s)` |
| TextEncoding.DecodeThenEncode | src/textEncoding.ts:50-321 | re-encoding a decoded byte sequence, by either decoder, gives it back iff it was well-formed |
| TextEncoding.HandEncodeUtf8 | src/api/transport.ts:230-257 | the loop writes each code point, unpaired surrogates included, in its own bits |
| TextEncoding.EncodersAgreeIff | src/api/transport.ts:230-257 | the two encoders agree on exactly the strings that pass `checkUtf8` |
| Varint.ReadVarint | ios/SinchPushSocket/FrameCodec.swift:440-467 | the loop returns what `Read` says and never reaches its last throw |
| Varint.ReadSucceedsIff | ios/SinchPushSocket/FrameCodec.swift:440-467 | succeeds exactly when a terminator lies within ten bytes and a tenth byte is at most 1; the value is below 2^64 |
| Varint.NoBitIsLost | ios/SinchPushSocket/FrameCodec.swift:440-467 | no shift or addition of the loop reaches 2^64 |
| Varint.VarintWidth | ios/SinchPushSocket/FrameCodec.swift:470-478 | the width loop counts the canonical bytes |
| Varint.AppendCanonicalVarint | ios/SinchPushSocket/FrameCodec.swift:494-501 | the loop appends the canonical encoding |
| Varint.ReadOfCanonical | ios/SinchPushSocket/FrameCodec.swift:440-501 | reading inverts writing, whatever follows |
| Varint.CanonicalFits | ios/SinchPushSocket/FrameCodec.swift:470-501 | a 64-bit value takes at most ten bytes, a tenth being at most 1 |
| Varint.CanonicalIsMinimal | ios/SinchPushSocket/FrameCodec.swift:470-501 | no accepted encoding is narrower |
| Varint.PaddingKeepsValue | ios/SinchPushSocket/FrameCodec.swift:440-467 | every zero-group padding up to ten bytes reads as the same value |
| FrameCodec.ReadEnvelope | ios/SinchPushSocket/FrameCodec.swift:253-288 | accepts or refuses with the first failing bound |
| FrameCodec.WriteEnvelope | ios/SinchPushSocket/FrameCodec.swift:400-426 | refuses exactly oversized payloads; emits at most 65540 bytes, the late guard being unreachable |
| FrameCodec.EnvelopeRoundTrip | ios/SinchPushSocket/FrameCodec.swift:143-188 | for fields 1..255 and payloads up to 65536 bytes, split, write, read and rebuild restore the serialisation |
| FrameCodec.AcceptedEnvelopeSplits | ios/SinchPushSocket/FrameCodec.swift:296-364 | any accepted non-zero-tag envelope, canonical prefix or not, rebuilds to a message that splits into its tag and payload |
| FrameCodec.AcceptedIsBounded | ios/SinchPushSocket/FrameCodec.swift:253-288 | an accepted frame is at most 65547 bytes with at most 65536 of payload, inside the frame |
| FrameCodec.ReceivedFrameIs | ios/SinchPushSocket/FrameCodec.swift:253-288 | a frame declaring n bytes is refused on its own size, then on n, then as cut short with what was there; else its first n bytes are the payload |
| FrameCodec.ShortOrUntagged | ios/SinchPushSocket/FrameCodec.swift:253-295 | too short exactly below two bytes; tag zero is accepted and stands for no message |
| FrameCodec.SplitIff | ios/SinchPushSocket/FrameCodec.swift:296-364 | a serialisation can be sent exactly as one complete length-delimited field numbered 1 to 255 |
| FrameCodec.BoundsAreTight | ios/SinchPushSocket/FrameCodec.swift:143-188 | both bounds are reached |
| FrameCodec.LeadingZerosShift | ios/SinchPushSocket/FrameCodec.swift:440-467 | n leading 0x80 bytes multiply the value behind them by 128^n; refused as overflow past ten bytes or 64 bits, as too large exactly past the bound |
| GrpcWeb.FrameGrpcWeb | src/api/transport.ts:218-228 | the array fill gives flag, big-endian length and body |
| GrpcWeb.BigEndianRoundTrip | src/api/transport.ts:218-228 | the four length bytes spell the length modulo 2^32 |
| GrpcWeb.WalkFrames | ios/NotificationExtension/Core/ReportWire.swift:93-116 | the Swift walk ends on every input and finds the frames |
| GrpcWeb.WalkOfFramed | ios/NotificationExtension/Core/ReportWire.swift:93-116 | concatenated frames come back in order, whatever follows |
| GrpcWeb.TruncatedTailIsDropped | src/api/transport.ts:261-282 | a truncated last frame is dropped |
| GrpcWeb.DecodeOfFramed | src/api/transport.ts:261-282 | `decodeEnvelopes` undoes concatenated `frameGrpcWeb` outputs below 2^31 bytes each |
| GrpcWeb.DecodeIsWalkIff | src/api/transport.ts:261-282 | given enough turns the loop returns what the unsigned walk finds if and only if every header has its top length bit clear |
| GrpcWeb.SignedLengthCanStall | src/api/transport.ts:261-282 | wherever the length reads as -5 no number of turns ends the loop |
| GrpcWeb.FiveBytesStall | src/api/transport.ts:261-282 | a five-byte body is enough for that, whatever its flag |
| GrpcWeb.DecodeEnvelopes | src/api/transport.ts:261-282 | the loop on every body for the given number of turns; with the top bits clear it ends within |body| turns with the walk's frames |
| ReportWire.RequestBody | ios/NotificationExtension/Core/ReportWire.swift:57-74 | the loop builds the framed message, or traps exactly from 2^32 bytes on |
| ReportWire.RequestRoundTrip | ios/NotificationExtension/Core/ReportWire.swift:57-74 | a reader of the framing and the wire format recovers exactly the keys, in order, as delivered events |
| ReportWire.RequestIsInjective | ios/NotificationExtension/Core/ReportWire.swift:57-74 | no two key lists share a message |
| Base64Url.Base64UrlToBytes | src/api/jwtClaims.ts:36-57 | the array loop decodes, or returns null exactly for an empty, 1-mod-4 or out-of-alphabet segment |
| Base64Url.DecodeGroups | src/api/jwtClaims.ts:36-57 | the output array is filled to its end and no write leaves it |
| Base64Url.AlphabetIsSymbols | src/api/jwtClaims.ts:18-29 | the accepted alphabet is that of section 5 of RFC 4648; + and / have a value but are refused |
| Base64Url.DecodeOfEncode | src/api/jwtClaims.ts:36-57 | decoding undoes encoding of every non-empty byte sequence, with any padding |
| Base64Url.EncodeOfDecodeIff | src/api/jwtClaims.ts:36-57 | re-encoding gives the segment back iff the unused bits of its last symbol are zero |
| MarkerStores.ReportMarkerStore.ExcludedKeys | ios/NotificationExtension/Core/ReportStorage.swift:229-231 | sent keys and those in flight less than 30 minutes |
| MarkerStores.ReportMarkerStore.SentKeys | ios/NotificationExtension/Core/ReportStorage.swift:234-236 | sent keys |
| MarkerStores.ReportMarkerStore.RetryEntries | ios/NotificationExtension/Core/ReportStorage.swift:239-241 | entries left to retry |
| MarkerStores.ReportMarkerStore.Claim | ios/NotificationExtension/Core/ReportStorage.swift:245-258 | the loop claims and marks as the transaction says, pruning before and after |
| MarkerStores.ReportMarkerStore.MarkSent | ios/NotificationExtension/Core/ReportStorage.swift:260-262 | one Mark transaction |
| MarkerStores.ReportMarkerStore.MarkRetry | ios/NotificationExtension/Core/ReportStorage.swift:265-267 | one Mark transaction |
| MarkerStores.ReportMarkerStore.Set | ios/NotificationExtension/Core/ReportStorage.swift:274-289 | the loop of the transaction; no keys, no transaction |
| MarkerStores.ReportMarkerStore.ClearRetries | ios/NotificationExtension/Core/ReportStorage.swift:270-272 | one ClearRetries transaction |
| MarkerRuns.RunKeepsUnique | ios/NotificationExtension/Core/ReportStorage.swift:245-338 | over every run keys stay unique and at most 2000 markers are kept |
| MarkerRuns.TransactEffect | ios/NotificationExtension/Core/ReportStorage.swift:306-338 | what a transaction makes of one key, unless the cap takes it: age, body, age |
| MarkerRuns.ClaimTakesOnce | ios/NotificationExtension/Core/ReportStorage.swift:245-258 | a claim takes the first entry of each unexcluded key, once, and marks exactly those |
| MarkerRuns.ClaimSucceedsIff | ios/NotificationExtension/Core/ReportStorage.swift:245-303 | a claim takes a requested key iff no young marker excludes it or the cap just took that marker |
| MarkerRuns.ClaimsAreExclusive | ios/NotificationExtension/Core/ReportStorage.swift:245-338 | between two successful claims of a key it was marked retry, 30 minutes passed or the cap took its marker |
| MarkerRuns.SentNeverDowngrades | ios/NotificationExtension/Core/ReportStorage.swift:274-338 | a sent report stays sent, excluded and unclaimable until 72 hours pass or the cap takes it |
| MarkerRuns.MarkingSendsIt | ios/NotificationExtension/Core/ReportStorage.swift:274-289 | marking a key sent makes it sent whatever it was |
| MarkerRuns.SentIff | ios/NotificationExtension/Core/ReportStorage.swift:234-237 | the sent keys are exactly those with a young marker that says so |
| MarkerRuns.LostUploadIsOffered | ios/NotificationExtension/Core/ReportStorage.swift:329-338 | a claimed report whose upload never reports back is a retry from 30 minutes to 72 hours after the claim unless the cap or `clearRetries` took it |
| ReportCenters.PendingMembers | ios/NotificationExtension/Core/ReportCenter.swift:156-166 | the view holds exactly the unexcluded queued reports and, of the keys not queued, the first retry, keys alone compared |
| ReportCenters.PendingHasDistinctKeys | ios/NotificationExtension/Core/ReportCenter.swift:156-166 | from an outbox with distinct keys the view shows each key once |
| ReportCenters.OldestFirstIsStable | ios/NotificationExtension/Core/ReportCenter.swift:156-166 | oldest first, entries of one millisecond in their order |
| ReportCenters.UploadClaimsTheView | ios/NotificationExtension/Core/ReportCenter.swift:199-216 | undisturbed, an upload claims exactly the recent part of the view |
| ReportCenters.FailedUploadIsRetried | ios/NotificationExtension/Core/ReportCenter.swift:199-216 | what a failed upload had claimed is left to retry with its entry |
| ReportCenters.UploadResultIff | ios/NotificationExtension/Core/ReportCenter.swift:199-216 | nothing to send exactly when the recent view is empty, handed off exactly when besides there is a credential and the upload starts |
| ReportCenters.HandedOffIsInFlight | ios/NotificationExtension/Core/ReportCenter.swift:199-216 | what was handed over is in flight under the claimed entries |
| ReportCenters.ReportCenter.PendingReports | ios/NotificationExtension/Core/ReportCenter.swift:156-166 | the append loop, over two transactions |
| ReportCenters.ReportCenter.UploadInBackground | ios/NotificationExtension/Core/ReportCenter.swift:199-216 | result and transactions of one attempt |
| ExtensionReports.Handle | ios/NotificationExtension/Core/ExtensionReportHandler.swift:13-37 | answer and transactions for a push |
| ExtensionReports.MarkRetryIfUnknown | ios/NotificationExtension/Core/ExtensionReportHandler.swift:41-45 | its two looks and its write |
| ExtensionReports.KnownReportIsKept | ios/NotificationExtension/Core/ExtensionReportHandler.swift:41-45 | undisturbed, it leaves every key it finds as it is, time included, and records exactly the keys it does not find |
| ExtensionReports.HandledIsNeverLost | ios/NotificationExtension/Core/ExtensionReportHandler.swift:13-37 | after handling, the key is excluded or waits as a retry; true means excluded, a failed start means a retry |
| ExtensionReports.AnswerIff | ios/NotificationExtension/Core/ExtensionReportHandler.swift:13-37 | true exactly when there is a credential, and the upload starts or the key is excluded already |
| ExtensionReports.TakenIsInFlight | ios/NotificationExtension/Core/ExtensionReportHandler.swift:13-37 | a started upload leaves the key in flight, not as a retry |
| ExtensionReports.UnknownCheckTakesBackIff | ios/NotificationExtension/Core/ExtensionReportHandler.swift:41-45 | with anything between its transactions, the write takes the key from its holder exactly when its marker is in flight and younger than 30 minutes, and only a claim since the first look can have made it so |
| ExtensionReports.UnknownCheckCanRace | ios/NotificationExtension/Core/ExtensionReportHandler.swift:41-45 | it does happen: a claim between check and write is taken back and the report can be claimed again at once |
| ReportFlusher.SendBatch | src/api/reportOutbox.ts:112-139 | one batch to its end: settled, given up after five failures in all, signed out after at most one newer token, or a rejected read |
| ReportFlusher.FlushOnce | src/api/reportOutbox.ts:93-141 | each way of making no call is an equivalence on the world (nothing pending, no token, a rejected read or removal); otherwise the calls and the ending are those the world determines, at most 2B+4 calls for B batches and 4 sleeps; the outbox is left without the expired entries and the removed prefix of batches |
| ReportFlusher.OutcomeIff | src/api/reportOutbox.ts:41-60 | which replies settle a batch, ask for a newer token, or count as a failure |
| ReportFlusher.FirstCallHasToken | src/api/reportOutbox.ts:104-112 | the first call is for the first batch and carries the token of the first read |
| ReportFlusher.CallFollowsIff | src/api/reportOutbox.ts:112-139 | another call follows exactly when: behind a settled batch one is left and its removal did not reject, behind a refused token it is the batch's first refusal and a different usable token is read, behind any other failure it is not the fifth |
| ReportFlusher.WhichCallFollows | src/api/reportOutbox.ts:112-139 | the next batch or the same again, with the newer token behind a refusal and the same otherwise |
| ReportFlusher.FlushIsDetermined | src/api/reportOutbox.ts:93-141 | two flushes of one task in one world made the same calls and ended alike |
| ReportFlusher.AcceptedFinishes | src/api/reportOutbox.ts:93-141 | if every reply accepts and no removal rejects, one call a batch in order, and all is removed |
| ReportFlusher.SleepIsBounded | src/api/reportOutbox.ts:37-40 | a flush sleeps less than 15 seconds in all |
| ReportFlusher.SettledOnce | src/api/reportOutbox.ts:112-139 | no batch is sent again once accepted or dropped |
| ReportFlusher.RemovedWasSettled | src/api/reportOutbox.ts:125-128 | every removed batch was accepted or dropped by the server |
| ReportFlusher.StaysIff | src/api/reportOutbox.ts:93-128 | with distinct keys an entry stays iff it is young and outside the removed whole-batch prefix |
| ReportFlusher.ReportOutboxFlusher.Flush | src/api/reportOutbox.ts:69-79 | joins the flush under way or starts one |
| ReportFlusher.ReportOutboxFlusher.FlushEnded | src/api/reportOutbox.ts:74-91 | one more flush exactly when asked meanwhile |
| ReportFlusher.RunIsCoherent | src/api/reportOutbox.ts:69-91 | over every run at most one flush is under way and each was asked for after the one before it began |
| ReportFlusher.EveryRequestIsCovered | src/api/reportOutbox.ts:69-91 | when the flusher is idle every request has had a flush that began after it |
| PromiseQueue.OneAtATimeInOrder | src/index.tsx:762-766 | however reactions and endings interleave, at most one function runs at a time and functions run in the order of the calls, none twice, none skipped |
| PromiseQueue.NeverStalls | src/index.tsx:762-766 | while some call is unsettled a function is running or a reaction is ready |
| PromiseQueue.RejectionNeverStops | src/index.tsx:762-766 | however a function ends, two reactions later the next call's function runs |
| PromiseQueue.WithoutCatchRejectionStops | src/index.tsx:762-766 | without the `catch`, no function ever runs after a rejection |
| IdentitySystem.ChainRefinesQueue | src/index.tsx:762-766 | every run of the promise chain is a run of a plain first-in first-out queue over the same stores |
| IdentitySystem.ChainMirrorsStored | src/index.tsx:227-254 | over every run of the chain with mirror writes succeeding, once the credential job of `initialize` has run the mirrored credential is null or the stored JWT |
| IdentityRuns.MirroredIsStored | src/index.tsx:227-254 | from any stores and over every run with mirror writes succeeding, once the credential job of `initialize` has run the mirrored credential is null or the stored JWT between jobs |
| IdentityRuns.SignInReaches | src/index.tsx:306-320 | when setIdentity ends well, and what each ending leaves stored, mirrored, subscribed and recorded; the stored token is kept exactly when usable and of the asked identity |
| IdentityRuns.SignedInAsAsked | src/api/authDataSource.ts:26-62 | after a setIdentity that ends well the stored token is for the asked identity, mirrored if that write succeeded, and the last Subscribe carries it |
| IdentityRuns.SignOutReaches | src/index.tsx:345-366 | how far a removeIdentity gets in each way its calls can end |
| IdentityRuns.LaunchReaches | src/index.tsx:227-254 | what the credential job of a launch leaves mirrored |
| IdentityRuns.StaysRemovedIff | src/index.tsx:345-366 | after removeIdentity the mirror stays null over all runs without setIdentity iff the JWT was deleted or absent |
| IdentityRuns.CheckSubscribesIff | src/index.tsx:788-841 | a check subscribes iff the fingerprint differs from the recorded one or that is unreadable |
| IdentityRuns.OneSubscribePerChange | src/index.tsx:788-841 | a series of checks costs exactly one Subscribe per change of the fingerprint |
| IdentityQueues.IdentityQueue.RunExclusive | src/index.tsx:762-766 | two promises and a new lock |
| IdentityQueues.IdentityQueue.React | src/index.tsx:762-766 | one reaction: the function is called, a rejection passed on or turned into fulfilment |
| IdentityQueues.IdentityQueue.Settle | src/index.tsx:762-766 | a job runs to its end and its promise settles as it went |
| IdentityQueues.IdentityQueue.InitQueue | src/index.tsx:232-254 | what `initialize` queues after its own token read |
| IdentityQueues.IdentityQueue.SetIdentityJob | src/index.tsx:306-320 | mint or reuse, store, mirror, subscribe, with each failure |
| IdentityQueues.IdentityQueue.GenerateToken | src/api/authDataSource.ts:26-62 | the cached token iff it matches and has not expired |
| IdentityQueues.IdentityQueue.RemoveIdentityJob | src/index.tsx:345-366 | unmirror before deleting, with each failure |
| IdentityQueues.IdentityQueue.MirrorJob | src/index.tsx:694-709 | mirrors the stored credential, if any |
| IdentityQueues.IdentityQueue.ClearIfSignedOutJob | src/index.tsx:243-251 | clears only if still signed out on its turn |
| IdentityQueues.IdentityQueue.CheckJob | src/index.tsx:834-841 | nothing without identity and token |
| IdentityQueues.IdentityQueue.SubscribeWith | src/index.tsx:788-815 | the record follows the Subscribe |

## Left out

- URLSession, WebSocket, fetch, Keychain, UserDefaults, files and locks: environment events or a store.
- The lock-busy fallback and marker-file corruption, which the code declares best effort.
- A lock-protected transaction reading the clock more than once: each reads it once here.
- Swift strings compare by canonical equivalence; here strings are equal when their code units are.
- Generated protobuf code: a message is its key, length and payload; which direction a frame error names is dropped.
- The device fields of Hello, log lines, notification text and styling, `resolveWsUrl`, the facade.
- Sorting the stored pending messages for the host.
- A crash between the two writes of one accepted Ack (sent-set, then outbox).
- The BOM rule of the Hermes `TextDecoder` wrapper around the maximal-subpart decoder.
- GrpcWeb.DecodeEnvelopes: the source's loop has no bound and does not end on some bodies; the method is given the
  turns to take and answers None while the loop has not ended.
- PushPresentation.CrossChannelDedupe: counts marks, so what the unmarked look-up of an active alert push presents is
  not among its first sights.
- SocketClients.SocketClient.SendHello: platform, identity, device and background fields of the frame are not modelled.
- Parsing the status text of a gRPC-web trailer and mapping HTTP results to outcomes.
- Sessions of background uploads, their registry and the mirrored session file: whether a credential is usable and
  whether an upload starts are inputs of the calls.
- Reports queued while a flush runs: a flush works on the outbox as it read it.
- Native dropping the mirrored credential when the App Group changes.
- A second account of the identity queue, the relay switch's jobs and the owner check that clears the report queue.
- JWT claims, HMAC signing, JSON: library behaviour.

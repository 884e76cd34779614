/**
 The report marker store as a value (ios/NotificationExtension/Core/ReportStorage.swift). Every transaction is
 atomic and reads the clock once.
 */
module MarkerSpec {
  import opened Common

  const RETENTION := 72 * 60 * 60 * 1000
  const IN_FLIGHT_TTL := 30 * 60 * 1000
  const CAPACITY := 2000

  datatype ReportKey = ReportKey(messageId: string, subscriberId: string)

  /**
   A report and when it was queued. The source's `==` on entries compares keys alone, so where it asks whether a
   list contains an entry the model asks for its key (`HasKey`).
   */
  datatype ReportEntry = ReportEntry(key: ReportKey, enqueuedAtMs: int)

  datatype MarkerState = InFlight | Sent | Retry

  /** The states a caller can set; only a claim puts a report in flight. */
  type SettledState = s: MarkerState | s != InFlight witness Sent

  /** `atMs`: when `state` was set. */
  datatype Marker = Marker(entry: ReportEntry, state: MarkerState, atMs: int)

  predicate UniqueKeys(ms: seq<Marker>) {
    forall i, j :: 0 <= i < j < |ms| ==> ms[i].entry.key != ms[j].entry.key
  }

  /** The first marker of the key, or the length. */
  function IndexOf(ms: seq<Marker>, k: ReportKey): (i: nat)
    ensures i <= |ms|
    ensures i < |ms| ==> ms[i].entry.key == k
    ensures forall j :: 0 <= j < i ==> ms[j].entry.key != k
  {
    if ms == [] || ms[0].entry.key == k then 0 else 1 + IndexOf(ms[1..], k)
  }

  function Find(ms: seq<Marker>, k: ReportKey): Option<Marker> {
    var i := IndexOf(ms, k);
    if i < |ms| then Some(ms[i]) else None
  }

  // ----- Age and capacity -----

  predicate Excluding(m: Marker, now: int) {
    match m.state
    case Sent => true
    case InFlight => now - m.atMs < IN_FLIGHT_TTL
    case Retry => false
  }

  predicate Young(m: Marker, now: int) {
    m.atMs >= now - RETENTION
  }

  /** An upload that never reported back becomes a retry. */
  function Expired(m: Marker, now: int): Marker {
    if m.state == InFlight && now - m.atMs >= IN_FLIGHT_TTL then m.(state := Retry) else m
  }

  function Aged(ms: seq<Marker>, now: int): seq<Marker> {
    if ms == [] then []
    else (if Young(ms[0], now) then [Expired(ms[0], now)] else []) + Aged(ms[1..], now)
  }

  function Prune(ms: seq<Marker>, now: int): seq<Marker> {
    LastN(Aged(ms, now), CAPACITY)
  }

  // ----- The bodies of the transactions -----

  datatype ClaimResult = ClaimResult(markers: seq<Marker>, claimed: seq<ReportEntry>)

  function ClaimOne(ms: seq<Marker>, e: ReportEntry, now: int): ClaimResult {
    var i := IndexOf(ms, e.key);
    if i < |ms| && Excluding(ms[i], now) then ClaimResult(ms, [])
    else ClaimResult((if i < |ms| then RemoveAt(ms, i) else ms) + [Marker(e, InFlight, now)], [e])
  }

  function ClaimAll(ms: seq<Marker>, entries: seq<ReportEntry>, now: int): ClaimResult {
    if entries == [] then ClaimResult(ms, [])
    else
      var before := ClaimAll(ms, entries[..|entries| - 1], now);
      var last := ClaimOne(before.markers, entries[|entries| - 1], now);
      ClaimResult(last.markers, before.claimed + last.claimed)
  }

  function FirstWithKey(entries: seq<ReportEntry>, k: ReportKey): Option<ReportEntry> {
    if entries == [] then None
    else if entries[0].key == k then Some(entries[0])
    else FirstWithKey(entries[1..], k)
  }

  /** `contains(entry)`, for an entry of this key. */
  predicate HasKey(entries: seq<ReportEntry>, k: ReportKey) {
    FirstWithKey(entries, k).Some?
  }

  /** A key nobody recorded gets the caller's entry for it, or one queued now. */
  function EntryFor(entries: seq<ReportEntry>, k: ReportKey, now: int): (e: ReportEntry) {
    var known := FirstWithKey(entries, k);
    if known.Some? then known.value else ReportEntry(k, now)
  }

  function SetOne(ms: seq<Marker>, state: MarkerState, k: ReportKey, entries: seq<ReportEntry>, now: int): seq<Marker> {
    var i := IndexOf(ms, k);
    if i == |ms| then ms + [Marker(EntryFor(entries, k, now), state, now)]
    else if ms[i].state == Sent && state != Sent then ms
    else ms[i := ms[i].(state := state, atMs := now)]
  }

  function SetAll(ms: seq<Marker>, state: MarkerState, keys: seq<ReportKey>, entries: seq<ReportEntry>, now: int)
    : seq<Marker>
  {
    if keys == [] then ms
    else SetOne(SetAll(ms, state, keys[..|keys| - 1], entries, now), state, keys[|keys| - 1], entries, now)
  }

  function WithoutRetries(ms: seq<Marker>): seq<Marker> {
    if ms == [] then [] else (if ms[0].state == Retry then [] else [ms[0]]) + WithoutRetries(ms[1..])
  }

  // ----- Transactions -----

  datatype Op =
    | Look
    | Claim(entries: seq<ReportEntry>)
    | Mark(state: SettledState, keys: seq<ReportKey>, entries: seq<ReportEntry>)
    | ClearRetries

  datatype Act = Act(op: Op, now: int)

  function Body(ms: seq<Marker>, act: Act): seq<Marker> {
    match act.op
    case Look => ms
    case Claim(entries) => ClaimAll(ms, entries, act.now).markers
    case Mark(state, keys, entries) => SetAll(ms, state, keys, entries, act.now)
    case ClearRetries => WithoutRetries(ms)
  }

  /** The file after one transaction. Marking no keys opens none. */
  function Transact(file: seq<Marker>, act: Act): seq<Marker> {
    if act.op.Mark? && act.op.keys == [] then file
    else Prune(Body(Prune(file, act.now), act), act.now)
  }

  function Claimed(file: seq<Marker>, act: Act): seq<ReportEntry> {
    if act.op.Claim? then ClaimAll(Prune(file, act.now), act.op.entries, act.now).claimed else []
  }

  function ExcludedKeys(file: seq<Marker>, now: int): set<ReportKey> {
    set m | m in Prune(file, now) && Excluding(m, now) :: m.entry.key
  }

  function SentKeys(file: seq<Marker>, now: int): set<ReportKey> {
    set m | m in Prune(file, now) && m.state == Sent :: m.entry.key
  }

  function RetriesOf(ms: seq<Marker>): seq<ReportEntry> {
    if ms == [] then [] else (if ms[0].state == Retry then [ms[0].entry] else []) + RetriesOf(ms[1..])
  }

  function RetryEntries(file: seq<Marker>, now: int): seq<ReportEntry> {
    RetriesOf(Prune(file, now))
  }
}

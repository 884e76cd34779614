/**
 The app side and the extension side of the marker store (ios/NotificationExtension/Core/ReportCenter.swift and
 ExtensionReportHandler.swift). One call reads the clock once; its transactions are still separate.
 */
module ReportCenters {
  import opened Common
  import opened MarkerSpec
  import opened MarkerStores
  import opened MarkerRuns

  // ----- The outbox view -----

  /** Sorting by (enqueuedAtMs, offset): an entry goes behind those queued no later. */
  function Inserted(sorted: seq<ReportEntry>, e: ReportEntry): seq<ReportEntry> {
    if sorted == [] || sorted[|sorted| - 1].enqueuedAtMs <= e.enqueuedAtMs then sorted + [e]
    else Inserted(sorted[..|sorted| - 1], e) + [sorted[|sorted| - 1]]
  }

  function OldestFirst(entries: seq<ReportEntry>): seq<ReportEntry> {
    if entries == [] then [] else Inserted(OldestFirst(entries[..|entries| - 1]), entries[|entries| - 1])
  }

  function NotExcluded(outbox: seq<ReportEntry>, excluded: set<ReportKey>): seq<ReportEntry> {
    if outbox == [] then []
    else (if outbox[0].key in excluded then [] else [outbox[0]]) + NotExcluded(outbox[1..], excluded)
  }

  function WithRetries(outbox: seq<ReportEntry>, excluded: set<ReportKey>,
      retries: seq<ReportEntry>): seq<ReportEntry> {
    if retries == [] then NotExcluded(outbox, excluded)
    else
      var before, last := WithRetries(outbox, excluded, retries[..|retries| - 1]), retries[|retries| - 1];
      if HasKey(before, last.key) || HasKey(outbox, last.key) then before else before + [last]
  }

  /** The outbox without what is excluded, plus the retries it does not hold, oldest first. */
  function Pending(outbox: seq<ReportEntry>, excluded: set<ReportKey>, retries: seq<ReportEntry>): seq<ReportEntry> {
    OldestFirst(WithRetries(outbox, excluded, retries))
  }

  predicate Ascending(s: seq<ReportEntry>) {
    forall i, j :: 0 <= i <= j < |s| ==> s[i].enqueuedAtMs <= s[j].enqueuedAtMs
  }

  /** The entries queued in one millisecond, in order. */
  function At(s: seq<ReportEntry>, t: int): seq<ReportEntry> {
    if s == [] then []
    else At(s[..|s| - 1], t) + (if s[|s| - 1].enqueuedAtMs == t then [s[|s| - 1]] else [])
  }

  lemma AtSnoc(s: seq<ReportEntry>, e: ReportEntry, t: int)
    ensures At(s + [e], t) == At(s, t) + (if e.enqueuedAtMs == t then [e] else [])
  {
    assert (s + [e])[..|s|] == s;
  }

  lemma {:induction false} InAt(s: seq<ReportEntry>, e: ReportEntry)
    ensures e in s <==> e in At(s, e.enqueuedAtMs)
    decreases |s|
  {
    if s != [] {
      InAt(s[..|s| - 1], e);
      assert s == s[..|s| - 1] + [s[|s| - 1]];
    }
  }

  lemma {:induction false} InsertedMembers(sorted: seq<ReportEntry>, e: ReportEntry, x: ReportEntry)
    ensures x in Inserted(sorted, e) <==> x in sorted || x == e
    decreases |sorted|
  {
    if !(sorted == [] || sorted[|sorted| - 1].enqueuedAtMs <= e.enqueuedAtMs) {
      InsertedMembers(sorted[..|sorted| - 1], e, x);
      assert sorted == sorted[..|sorted| - 1] + [sorted[|sorted| - 1]];
    }
  }

  lemma {:induction false} InsertedAscends(sorted: seq<ReportEntry>, e: ReportEntry)
    requires Ascending(sorted)
    ensures Ascending(Inserted(sorted, e))
    decreases |sorted|
  {
    if !(sorted == [] || sorted[|sorted| - 1].enqueuedAtMs <= e.enqueuedAtMs) {
      var front, last := sorted[..|sorted| - 1], sorted[|sorted| - 1];
      InsertedAscends(front, e);
      forall x | x in Inserted(front, e)
        ensures x.enqueuedAtMs <= last.enqueuedAtMs
      {
        InsertedMembers(front, e, x);
      }
    }
  }

  lemma {:induction false} InsertedIsStable(sorted: seq<ReportEntry>, e: ReportEntry, t: int)
    ensures At(Inserted(sorted, e), t) == At(sorted + [e], t)
    decreases |sorted|
  {
    if !(sorted == [] || sorted[|sorted| - 1].enqueuedAtMs <= e.enqueuedAtMs) {
      var front, last := sorted[..|sorted| - 1], sorted[|sorted| - 1];
      InsertedIsStable(front, e, t);
      AtSnoc(Inserted(front, e), last, t);
      AtSnoc(front, e, t);
      AtSnoc(sorted, e, t);
    }
  }

  /** The view is ordered by age, and entries of one millisecond keep the order they came in. */
  lemma {:induction false} OldestFirstIsStable(entries: seq<ReportEntry>, t: int)
    ensures Ascending(OldestFirst(entries))
    ensures At(OldestFirst(entries), t) == At(entries, t)
    decreases |entries|
  {
    if entries != [] {
      var before, last := entries[..|entries| - 1], entries[|entries| - 1];
      OldestFirstIsStable(before, t);
      InsertedAscends(OldestFirst(before), last);
      InsertedIsStable(OldestFirst(before), last, t);
      AtSnoc(OldestFirst(before), last, t);
    }
  }

  lemma {:induction false} NotExcludedMembers(outbox: seq<ReportEntry>, excluded: set<ReportKey>, e: ReportEntry)
    ensures e in NotExcluded(outbox, excluded) <==> e in outbox && e.key !in excluded
    decreases |outbox|
  {
    if outbox != [] {
      NotExcludedMembers(outbox[1..], excluded, e);
    }
  }

  lemma {:induction false} HasKeyIff(entries: seq<ReportEntry>, k: ReportKey)
    ensures HasKey(entries, k) <==> exists e :: e in entries && e.key == k
    decreases |entries|
  {
    if entries != [] {
      HasKeyIff(entries[1..], k);
      assert entries[0] in entries && forall e :: e in entries[1..] ==> e in entries;
    }
  }

  lemma {:induction false} WithRetriesMembers(
    outbox: seq<ReportEntry>, excluded: set<ReportKey>, retries: seq<ReportEntry>, e: ReportEntry)
    ensures e in WithRetries(outbox, excluded, retries)
       <==> (e in outbox && e.key !in excluded) || (!HasKey(outbox, e.key) && FirstWithKey(retries, e.key) == Some(e))
    ensures HasKey(WithRetries(outbox, excluded, retries), e.key)
       <==> (HasKey(outbox, e.key) && e.key !in excluded) || (!HasKey(outbox, e.key) && HasKey(retries, e.key))
    decreases |retries|
  {
    if retries == [] {
      NotExcludedMembers(outbox, excluded, e);
      NotExcludedKeys(outbox, excluded, e.key);
    } else {
      var before, last := retries[..|retries| - 1], retries[|retries| - 1];
      WithRetriesMembers(outbox, excluded, before, e);
      WithRetriesMembers(outbox, excluded, before, last);
      assert retries == before + [last];
      FirstOfSnoc(before, last, e.key);
      FirstOfSnoc(WithRetries(outbox, excluded, before), last, e.key);
      HasKeyIff(outbox, e.key);
    }
  }

  lemma {:induction false} NotExcludedKeys(outbox: seq<ReportEntry>, excluded: set<ReportKey>, k: ReportKey)
    ensures HasKey(NotExcluded(outbox, excluded), k) <==> HasKey(outbox, k) && k !in excluded
    decreases |outbox|
  {
    if outbox != [] {
      var rest := NotExcluded(outbox[1..], excluded);
      NotExcludedKeys(outbox[1..], excluded, k);
      assert ([outbox[0]] + rest)[1..] == rest && [] + rest == rest;
    }
  }

  /**
   The view holds exactly the queued reports nobody excludes and, of the keys the outbox does not hold, the first
   retry; so it shows a key iff it is queued and not excluded, or not queued and left to retry.
   */
  lemma PendingMembers(outbox: seq<ReportEntry>, excluded: set<ReportKey>, retries: seq<ReportEntry>, e: ReportEntry)
    ensures e in Pending(outbox, excluded, retries)
       <==> (e in outbox && e.key !in excluded) || (!HasKey(outbox, e.key) && FirstWithKey(retries, e.key) == Some(e))
  {
    var entries := WithRetries(outbox, excluded, retries);
    OldestFirstIsStable(entries, e.enqueuedAtMs);
    InAt(entries, e);
    InAt(OldestFirst(entries), e);
    WithRetriesMembers(outbox, excluded, retries, e);
  }

  // ----- One entry a key -----

  predicate DistinctKeys(entries: seq<ReportEntry>) {
    forall i, j :: 0 <= i < j < |entries| ==> entries[i].key != entries[j].key
  }

  lemma DistinctSnoc(entries: seq<ReportEntry>, e: ReportEntry)
    requires DistinctKeys(entries) && !HasKey(entries, e.key)
    ensures DistinctKeys(entries + [e])
  {
    HasKeyIff(entries, e.key);
  }

  lemma {:induction false} NotExcludedDistinct(outbox: seq<ReportEntry>, excluded: set<ReportKey>)
    requires DistinctKeys(outbox)
    ensures DistinctKeys(NotExcluded(outbox, excluded))
    decreases |outbox|
  {
    if outbox != [] {
      var rest := NotExcluded(outbox[1..], excluded);
      NotExcludedDistinct(outbox[1..], excluded);
      forall x | x in rest
        ensures x.key != outbox[0].key
      {
        NotExcludedMembers(outbox[1..], excluded, x);
      }
    }
  }

  lemma {:induction false} WithRetriesDistinct(outbox: seq<ReportEntry>, excluded: set<ReportKey>,
      retries: seq<ReportEntry>)
    requires DistinctKeys(outbox)
    ensures DistinctKeys(WithRetries(outbox, excluded, retries))
    decreases |retries|
  {
    if retries == [] {
      NotExcludedDistinct(outbox, excluded);
    } else {
      var before, last := WithRetries(outbox, excluded, retries[..|retries| - 1]), retries[|retries| - 1];
      WithRetriesDistinct(outbox, excluded, retries[..|retries| - 1]);
      if !HasKey(before, last.key) {
        DistinctSnoc(before, last);
      }
    }
  }

  lemma {:induction false} InsertedDistinct(sorted: seq<ReportEntry>, e: ReportEntry)
    requires DistinctKeys(sorted) && forall x :: x in sorted ==> x.key != e.key
    ensures DistinctKeys(Inserted(sorted, e))
    decreases |sorted|
  {
    if !(sorted == [] || sorted[|sorted| - 1].enqueuedAtMs <= e.enqueuedAtMs) {
      var front, last := sorted[..|sorted| - 1], sorted[|sorted| - 1];
      InsertedDistinct(front, e);
      forall x | x in Inserted(front, e)
        ensures x.key != last.key
      {
        InsertedMembers(front, e, x);
      }
    }
  }

  lemma {:induction false} OldestFirstDistinct(entries: seq<ReportEntry>)
    requires DistinctKeys(entries)
    ensures DistinctKeys(OldestFirst(entries))
    decreases |entries|
  {
    if entries != [] {
      var before, last := entries[..|entries| - 1], entries[|entries| - 1];
      OldestFirstDistinct(before);
      forall x | x in OldestFirst(before)
        ensures x.key != last.key
      {
        OldestFirstIsStable(before, x.enqueuedAtMs);
        InAt(OldestFirst(before), x);
        InAt(before, x);
      }
      InsertedDistinct(OldestFirst(before), last);
    }
  }

  /** From an outbox with distinct keys the view shows each key once, whatever waits for a retry. */
  lemma PendingHasDistinctKeys(outbox: seq<ReportEntry>, excluded: set<ReportKey>, retries: seq<ReportEntry>)
    requires DistinctKeys(outbox)
    ensures DistinctKeys(Pending(outbox, excluded, retries))
  {
    WithRetriesDistinct(outbox, excluded, retries);
    OldestFirstDistinct(WithRetries(outbox, excluded, retries));
  }

  // ----- Background upload -----

  datatype BackgroundUploadResult = Unavailable | HandedOff | NothingToSend

  datatype Upload = Upload(acts: seq<Act>, result: BackgroundUploadResult, claimed: seq<ReportEntry>)

  function Recent(entries: seq<ReportEntry>, now: int): seq<ReportEntry> {
    if entries == [] then []
    else (if entries[0].enqueuedAtMs >= now - RETENTION then [entries[0]] else []) + Recent(entries[1..], now)
  }

  function PendingIn(file: seq<Marker>, outbox: seq<ReportEntry>, now: int): seq<ReportEntry> {
    Pending(outbox, ExcludedKeys(file, now), RetryEntries(Transact(file, Act(Look, now)), now))
  }

  function Keys(entries: seq<ReportEntry>): (r: seq<ReportKey>)
    ensures |r| == |entries|
  {
    seq(|entries|, i requires 0 <= i < |entries| => entries[i].key)
  }

  /** The transactions of one upload attempt: both looks, the claim, and the retries when it could not start. */
  function UploadOf(file: seq<Marker>, outbox: seq<ReportEntry>, now: int, usable: bool, uploads: bool): Upload {
    var look := Act(Look, now);
    var pending := Recent(PendingIn(file, outbox, now), now);
    if pending == [] then Upload([look, look], NothingToSend, [])
    else if !usable then Upload([look, look], Unavailable, [])
    else
      var claim := Act(Claim(pending), now);
      var claimed := Claimed(Run(file, [look, look]), claim);
      if claimed == [] then Upload([look, look, claim], NothingToSend, [])
      else if uploads then Upload([look, look, claim], HandedOff, claimed)
      else Upload([look, look, claim, Act(Mark(Retry, Keys(claimed), claimed), now)], Unavailable, claimed)
  }

  method AppendRetries(outbox: seq<ReportEntry>, excluded: set<ReportKey>, retries: seq<ReportEntry>)
    returns (pending: seq<ReportEntry>)
    ensures pending == WithRetries(outbox, excluded, retries)
  {
    pending := NotExcluded(outbox, excluded);
    for n := 0 to |retries|
      invariant pending == WithRetries(outbox, excluded, retries[..n])
    {
      assert retries[..n + 1][..n] == retries[..n];
      if !HasKey(pending, retries[n].key) && !HasKey(outbox, retries[n].key) {
        pending := pending + [retries[n]];
      }
    }
    assert retries[..|retries|] == retries;
  }

  class ReportCenter {
    const store: ReportMarkerStore

    constructor (store: ReportMarkerStore)
      ensures this.store == store
    {
      this.store := store;
    }

    method PendingReports(outbox: seq<ReportEntry>, now: int) returns (pending: seq<ReportEntry>)
      modifies store
      ensures pending == PendingIn(old(store.file), outbox, now)
      ensures store.file == Run(old(store.file), [Act(Look, now), Act(Look, now)])
    {
      RunOfOne(store.file, Act(Look, now));
      RunOfTwo(store.file, Act(Look, now), Act(Look, now));
      var excluded := store.ExcludedKeys(now);
      var retries := store.RetryEntries(now);
      pending := AppendRetries(outbox, excluded, retries);
      pending := OldestFirst(pending);
    }

    /** `usable`: a mirrored credential can be used; `uploads`: the background session took the reports. */
    method UploadInBackground(outbox: seq<ReportEntry>, now: int, usable: bool, uploads: bool)
      returns (result: BackgroundUploadResult)
      modifies store
      ensures var upload := UploadOf(old(store.file), outbox, now, usable, uploads);
              result == upload.result && store.file == Run(old(store.file), upload.acts)
    {
      ghost var file := store.file;
      ghost var look := Act(Look, now);
      RunOfTwo(file, look, look);
      var pending := PendingReports(outbox, now);
      pending := Recent(pending, now);
      if pending == [] {
        return NothingToSend;
      }
      if !usable {
        return Unavailable;
      }
      var claimed := store.Claim(pending, now);
      ghost var claim := Act(Claim(pending), now);
      RunOfThree(file, look, look, claim);
      if claimed == [] {
        return NothingToSend;
      }
      if uploads {
        return HandedOff;
      }
      store.MarkRetry(Keys(claimed), claimed, now);
      RunOfFour(file, look, look, claim, Act(Mark(Retry, Keys(claimed), claimed), now));
      result := Unavailable;
    }
  }

  /** What a failed upload claimed is left to retry, with the same entry, and is not excluded any more. */
  lemma FailedUploadIsRetried(file: seq<Marker>, outbox: seq<ReportEntry>, now: int, e: ReportEntry)
    requires UniqueKeys(file) && e in UploadOf(file, outbox, now, true, false).claimed
    requires !EvictedIn(file, UploadOf(file, outbox, now, true, false).acts, e.key)
    ensures Find(Run(file, UploadOf(file, outbox, now, true, false).acts), e.key) == Some(Marker(e, Retry, now))
  {
    var upload := UploadOf(file, outbox, now, true, false);
    var look, claim, mark := Act(Look, now), upload.acts[2], upload.acts[3];
    RunOfTwo(file, look, look);
    RunOfFour(file, look, look, claim, mark);
    KeysMember(upload.claimed, e);
    var looked := Run(file, [look, look]);
    RunKeepsUnique(file, [look, look]);
    ClaimThenRetry(looked, claim, mark, e);
  }

  lemma KeysMember(entries: seq<ReportEntry>, e: ReportEntry)
    requires e in entries
    ensures e.key in Keys(entries)
  {
    var i :| 0 <= i < |entries| && entries[i] == e;
    assert Keys(entries)[i] == e.key;
  }

  // ----- What an undisturbed upload claims -----

  lemma {:induction false} RecentMembers(entries: seq<ReportEntry>, now: int, e: ReportEntry)
    ensures e in Recent(entries, now) <==> e in entries && e.enqueuedAtMs >= now - 72 * 60 * 60 * 1000
    ensures DistinctKeys(entries) ==> DistinctKeys(Recent(entries, now))
    decreases |entries|
  {
    if entries != [] {
      RecentMembers(entries[1..], now, e);
      if DistinctKeys(entries) {
        forall x | x in Recent(entries[1..], now)
          ensures x.key != entries[0].key
        {
          RecentMembers(entries[1..], now, x);
        }
      }
    }
  }

  predicate Free(ms: seq<Marker>, k: ReportKey, now: int) {
    Find(ms, k).None? || !Blocks(Find(ms, k).value, now)
  }

  /** A claim of distinct keys that nothing excludes takes them all. */
  lemma {:induction false} ClaimTakesAllFree(ms: seq<Marker>, entries: seq<ReportEntry>, now: int)
    requires UniqueKeys(ms) && DistinctKeys(entries) && forall e :: e in entries ==> Free(ms, e.key, now)
    ensures ClaimAll(ms, entries, now).claimed == entries
    decreases |entries|
  {
    if entries != [] {
      var before, last := entries[..|entries| - 1], entries[|entries| - 1];
      assert entries == before + [last];
      ClaimTakesAllFree(ms, before, now);
      FreeIsTaken(ms, before, last, now);
      ClaimAllSnoc(ms, entries, now);
    }
  }

  lemma FreeIsTaken(ms: seq<Marker>, before: seq<ReportEntry>, last: ReportEntry, now: int)
    requires UniqueKeys(ms) && Free(ms, last.key, now) && forall e :: e in before ==> e.key != last.key
    ensures ClaimOne(ClaimAll(ms, before, now).markers, last, now).claimed == [last]
  {
    HasKeyIff(before, last.key);
    ClaimTakesOnce(ms, before, now, last.key);
    ClaimOneEffect(ClaimAll(ms, before, now).markers, last, now, last.key);
  }

  lemma ViewIsFree(file: seq<Marker>, outbox: seq<ReportEntry>, now: int, e: ReportEntry)
    requires UniqueKeys(file) && e in PendingIn(file, outbox, now)
    ensures Free(Prune(file, now), e.key, now)
  {
    var ms := Prune(file, now);
    PruneTwice(file, now);
    PruneEffect(file, now, e.key);
    PendingMembers(outbox, ExcludedKeys(file, now), RetriesOf(ms), e);
    RetryOfKey(ms, e.key);
    if Find(ms, e.key).Some? {
      assert Find(ms, e.key).value in ms;
    }
  }

  /** Undisturbed, an upload claims exactly the recent part of the view: nobody else's report, and all of it. */
  lemma UploadClaimsTheView(file: seq<Marker>, outbox: seq<ReportEntry>, now: int, uploads: bool)
    requires UniqueKeys(file) && DistinctKeys(outbox)
    ensures UploadOf(file, outbox, now, true, uploads).claimed == Recent(PendingIn(file, outbox, now), now)
  {
    var look, ms := Act(Look, now), Prune(file, now);
    var view := Recent(PendingIn(file, outbox, now), now);
    PruneTwice(file, now);
    PruneTwice(ms, now);
    RunOfTwo(file, look, look);
    PruneEffect(file, now, ReportKey("", ""));
    PendingHasDistinctKeys(outbox, ExcludedKeys(file, now), RetryEntries(Transact(file, look), now));
    RecentMembers(PendingIn(file, outbox, now), now, ReportEntry(ReportKey("", ""), 0));
    forall e | e in view
      ensures Free(ms, e.key, now)
    {
      RecentMembers(PendingIn(file, outbox, now), now, e);
      ViewIsFree(file, outbox, now, e);
    }
    ClaimTakesAllFree(ms, view, now);
  }

  /**
   The answer of an undisturbed attempt: nothing to send exactly when the recent view is empty; else handed off exactly
   when a credential is usable and the session took the reports.
   */
  lemma UploadResultIff(file: seq<Marker>, outbox: seq<ReportEntry>, now: int, usable: bool, uploads: bool)
    requires UniqueKeys(file) && DistinctKeys(outbox)
    ensures var result, view := UploadOf(file, outbox, now, usable, uploads).result,
        Recent(PendingIn(file, outbox, now), now);
            && (result == NothingToSend <==> view == [])
            && (result == HandedOff <==> view != [] && usable && uploads)
            && (result == Unavailable <==> view != [] && !(usable && uploads))
  {
    UploadClaimsTheView(file, outbox, now, uploads);
  }

  /** What was handed off is in flight, and nothing is marked to be retried. */
  lemma HandedOffIsInFlight(file: seq<Marker>, outbox: seq<ReportEntry>, now: int, e: ReportEntry)
    requires UniqueKeys(file) && e in UploadOf(file, outbox, now, true, true).claimed
    requires !EvictedIn(file, UploadOf(file, outbox, now, true, true).acts, e.key)
    ensures Find(Run(file, UploadOf(file, outbox, now, true, true).acts), e.key) == Some(Marker(e, InFlight, now))
  {
    var upload := UploadOf(file, outbox, now, true, true);
    var look, claim := Act(Look, now), upload.acts[2];
    var looked := Run(file, [look, look]);
    RunOfTwo(file, look, look);
    RunOfThree(file, look, look, claim);
    RunKeepsUnique(file, [look, look]);
    ClaimMarks(looked, claim, e);
  }
}

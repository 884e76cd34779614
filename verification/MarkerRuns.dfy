/** What the marker store keeps over every interleaving of its transactions, the clock never going back. */
module MarkerRuns {
  import opened Common
  import opened MarkerSpec

  // ----- Finding a marker through each operation -----

  lemma FindOfUnique(ms: seq<Marker>, i: nat)
    requires UniqueKeys(ms) && i < |ms|
    ensures IndexOf(ms, ms[i].entry.key) == i
  {
  }

  predicate Fresh(ms: seq<Marker>, k: ReportKey) {
    forall m :: m in ms ==> m.entry.key != k
  }

  lemma FindNoneIff(ms: seq<Marker>, k: ReportKey)
    ensures Find(ms, k).None? <==> Fresh(ms, k)
  {
  }

  lemma FindOfSlice(ms: seq<Marker>, n: nat, k: ReportKey)
    requires UniqueKeys(ms) && n <= |ms|
    ensures UniqueKeys(ms[n..])
    ensures Find(ms[n..], k) == if IndexOf(ms, k) < n then None else Find(ms, k)
  {
    var i := IndexOf(ms, k);
    if n <= i < |ms| {
      FindOfUnique(ms[n..], i - n);
    } else {
      FindNoneIff(ms[n..], k);
    }
  }

  lemma UniqueCons(m: Marker, rest: seq<Marker>)
    ensures UniqueKeys([m] + rest) <==> UniqueKeys(rest) && Fresh(rest, m.entry.key)
  {
    var all := [m] + rest;
    if UniqueKeys(all) {
      forall i, j | 0 <= i < j < |rest|
        ensures rest[i].entry.key != rest[j].entry.key
      {
        assert all[i + 1].entry.key != all[j + 1].entry.key;
      }
      forall x | x in rest
        ensures x.entry.key != m.entry.key
      {
        var i :| 0 <= i < |rest| && rest[i] == x;
        assert all[0].entry.key != all[i + 1].entry.key;
      }
    }
  }

  lemma UniqueSnoc(ms: seq<Marker>, m: Marker)
    requires UniqueKeys(ms) && Fresh(ms, m.entry.key)
    ensures UniqueKeys(ms + [m])
  {
  }

  lemma FindOfCons(m: Marker, rest: seq<Marker>, k: ReportKey)
    ensures Find([m] + rest, k) == if m.entry.key == k then Some(m) else Find(rest, k)
  {
    assert ([m] + rest)[1..] == rest;
  }

  lemma {:induction false} AgedKeepsFresh(ms: seq<Marker>, k: ReportKey, now: int)
    requires Fresh(ms, k)
    ensures Fresh(Aged(ms, now), k)
    decreases |ms|
  {
    if ms != [] {
      AgedKeepsFresh(ms[1..], k, now);
    }
  }

  /** Ageing drops the markers past retention and turns stale uploads into retries. */
  lemma {:induction false} FindOfAged(ms: seq<Marker>, k: ReportKey, now: int)
    requires UniqueKeys(ms)
    ensures UniqueKeys(Aged(ms, now))
    ensures Find(Aged(ms, now), k) ==
            if Find(ms, k).Some? && Young(Find(ms, k).value, now) then Some(Expired(Find(ms, k).value, now)) else None
    decreases |ms|
  {
    if ms != [] {
      var first, rest := ms[0], ms[1..];
      assert ms == [first] + rest;
      UniqueCons(first, rest);
      FindOfAged(rest, k, now);
      FindOfCons(first, rest, k);
      AgedKeepsFresh(rest, first.entry.key, now);
      FindNoneIff(Aged(rest, now), first.entry.key);
      UniqueCons(Expired(first, now), Aged(rest, now));
      FindOfCons(Expired(first, now), Aged(rest, now), k);
      assert [] + Aged(rest, now) == Aged(rest, now);
    }
  }

  /** A marker lasts 72 hours. */
  predicate Lasts(m: Marker, now: int) {
    now <= m.atMs + 72 * 60 * 60 * 1000
  }

  /** It keeps its key from being claimed while it is sent, or in flight for less than 30 minutes. */
  predicate Blocks(m: Marker, now: int) {
    m.state == Sent || (m.state == InFlight && now < m.atMs + 30 * 60 * 1000)
  }

  /** What age makes of a key's marker: gone after 72 hours, waiting again after 30 minutes in flight. */
  function AfterAge(was: Option<Marker>, now: int): Option<Marker> {
    if was.None? || !Lasts(was.value, now) then None
    else if was.value.state == InFlight && !Blocks(was.value, now) then Some(was.value.(state := Retry))
    else was
  }

  lemma AgesSo(was: Option<Marker>, now: int)
    ensures AfterAge(was, now) == if was.Some? && Young(was.value, now) then Some(Expired(was.value, now)) else None
  {
  }

  lemma FindOfSnoc(ms: seq<Marker>, m: Marker, k: ReportKey)
    requires UniqueKeys(ms) && Fresh(ms, m.entry.key)
    ensures UniqueKeys(ms + [m])
    ensures Find(ms + [m], k) == if m.entry.key == k then Some(m) else Find(ms, k)
  {
    UniqueSnoc(ms, m);
    var i := IndexOf(ms, k);
    if m.entry.key == k {
      FindOfUnique(ms + [m], |ms|);
    } else if i < |ms| {
      FindOfUnique(ms + [m], i);
    } else {
      FindNoneIff(ms, k);
      FindNoneIff(ms + [m], k);
    }
  }

  lemma FindOfRemove(ms: seq<Marker>, i: nat, k: ReportKey)
    requires UniqueKeys(ms) && i < |ms|
    ensures UniqueKeys(RemoveAt(ms, i)) && Fresh(RemoveAt(ms, i), ms[i].entry.key)
    ensures Find(RemoveAt(ms, i), k) == if ms[i].entry.key == k then None else Find(ms, k)
  {
    var rest := RemoveAt(ms, i);
    var j := IndexOf(ms, k);
    if j == |ms| || j == i {
      FindNoneIff(rest, k);
    } else {
      FindOfUnique(rest, if j < i then j else j - 1);
    }
    if ms[i].entry.key == k {
      FindOfUnique(ms, i);
    }
  }

  lemma FindOfUpdate(ms: seq<Marker>, i: nat, m: Marker, k: ReportKey)
    requires UniqueKeys(ms) && i < |ms| && m.entry.key == ms[i].entry.key
    ensures UniqueKeys(ms[i := m])
    ensures Find(ms[i := m], k) == if m.entry.key == k then Some(m) else Find(ms, k)
  {
    var updated := ms[i := m];
    var j := IndexOf(ms, k);
    if m.entry.key == k {
      FindOfUnique(updated, i);
    } else if j < |ms| {
      FindOfUnique(updated, j);
    } else {
      FindNoneIff(ms, k);
      FindNoneIff(updated, k);
    }
  }

  lemma {:induction false} WithoutRetriesKeepsFresh(ms: seq<Marker>, k: ReportKey)
    requires Fresh(ms, k)
    ensures Fresh(WithoutRetries(ms), k)
    decreases |ms|
  {
    if ms != [] {
      WithoutRetriesKeepsFresh(ms[1..], k);
    }
  }

  lemma {:induction false} FindOfWithoutRetries(ms: seq<Marker>, k: ReportKey)
    requires UniqueKeys(ms)
    ensures UniqueKeys(WithoutRetries(ms))
    ensures var m := Find(ms, k);
            Find(WithoutRetries(ms), k) == if m.Some? && m.value.state != Retry then m else None
    decreases |ms|
  {
    if ms != [] {
      var first, rest := ms[0], ms[1..];
      assert ms == [first] + rest;
      UniqueCons(first, rest);
      FindOfWithoutRetries(rest, k);
      FindOfCons(first, rest, k);
      WithoutRetriesKeepsFresh(rest, first.entry.key);
      FindNoneIff(WithoutRetries(rest), first.entry.key);
      UniqueCons(first, WithoutRetries(rest));
      FindOfCons(first, WithoutRetries(rest), k);
      assert [] + WithoutRetries(rest) == WithoutRetries(rest);
    }
  }

  // ----- One operation -----

  lemma ClaimOneEffect(ms: seq<Marker>, e: ReportEntry, now: int, k: ReportKey)
    requires UniqueKeys(ms)
    ensures var r := ClaimOne(ms, e, now);
            && UniqueKeys(r.markers)
            && (r.claimed == [] || r.claimed == [e])
            && (r.claimed == [] <==> Find(ms, e.key).Some? && Blocks(Find(ms, e.key).value, now))
            && Find(r.markers, k) ==
               if r.claimed == [e] && e.key == k then Some(Marker(e, InFlight, now)) else Find(ms, k)
  {
    var i := IndexOf(ms, e.key);
    if !(i < |ms| && Blocks(ms[i], now)) {
      var rest := if i < |ms| then RemoveAt(ms, i) else ms;
      var m := Marker(e, InFlight, now);
      if i < |ms| {
        FindOfRemove(ms, i, k);
        FindOfRemove(ms, i, e.key);
      }
      FindNoneIff(rest, e.key);
      FindOfSnoc(rest, m, k);
    }
  }

  /** While a key is excluded, no claim takes it or touches its marker. */
  lemma {:induction false} ClaimLeavesExcluded(ms: seq<Marker>, entries: seq<ReportEntry>, now: int, k: ReportKey)
    requires UniqueKeys(ms)
    ensures UniqueKeys(ClaimAll(ms, entries, now).markers)
    ensures Find(ms, k).Some? && Blocks(Find(ms, k).value, now) ==>
              && Find(ClaimAll(ms, entries, now).markers, k) == Find(ms, k)
              && forall e :: e in ClaimAll(ms, entries, now).claimed ==> e.key != k
    decreases |entries|
  {
    if entries != [] {
      var before, last := entries[..|entries| - 1], entries[|entries| - 1];
      ClaimLeavesExcluded(ms, before, now, k);
      ClaimOneEffect(ClaimAll(ms, before, now).markers, last, now, k);
    }
  }

  /** The entry a claim takes for the key, if any: the first one asked for, unless the key is excluded. */
  function Winner(was: Option<Marker>, entries: seq<ReportEntry>, now: int, k: ReportKey): Option<ReportEntry> {
    if was.Some? && Blocks(was.value, now) then None else FirstWithKey(entries, k)
  }

  predicate ClaimedBy(r: ClaimResult, was: Option<Marker>, winner: Option<ReportEntry>, now: int, k: ReportKey) {
    && Find(r.markers, k) == (if winner.Some? then Some(Marker(winner.value, InFlight, now)) else was)
    && OfKey(r.claimed, k) == (if winner.Some? then [winner.value] else [])
  }

  /** The winner once one more entry is asked for. */
  function WinnerThen(winner: Option<ReportEntry>, was: Option<Marker>, last: ReportEntry, now: int, k: ReportKey)
    : Option<ReportEntry>
  {
    if winner.None? && last.key == k && !(was.Some? && Blocks(was.value, now)) then Some(last) else winner
  }

  function ClaimThen(r: ClaimResult, last: ReportEntry, now: int): ClaimResult {
    var next := ClaimOne(r.markers, last, now);
    ClaimResult(next.markers, r.claimed + next.claimed)
  }

  lemma ClaimNext(
    r: ClaimResult, last: ReportEntry, was: Option<Marker>, winner: Option<ReportEntry>, now: int, k: ReportKey,
    next: ClaimResult, first: Option<ReportEntry>)
    requires UniqueKeys(r.markers) && ClaimedBy(r, was, winner, now, k)
    requires winner.Some? ==> winner.value.key == k
    requires next == ClaimThen(r, last, now) && first == WinnerThen(winner, was, last, now, k)
    ensures UniqueKeys(next.markers) && ClaimedBy(next, was, first, now, k)
  {
    ClaimOneEffect(r.markers, last, now, k);
    OfKeyAppend(r.claimed, ClaimOne(r.markers, last, now).claimed, k);
    assert OfKey([last], k) == if last.key == k then [last] else [];
  }

  lemma WinnerSnoc(was: Option<Marker>, entries: seq<ReportEntry>, now: int, k: ReportKey)
    requires entries != []
    ensures var winner := Winner(was, entries[..|entries| - 1], now, k);
            && (winner.Some? ==> winner.value.key == k)
            && Winner(was, entries, now, k) == WinnerThen(winner, was, entries[|entries| - 1], now, k)
  {
    var before, last := entries[..|entries| - 1], entries[|entries| - 1];
    assert entries == before + [last];
    FirstHasKey(before, k);
    FirstOfSnoc(before, last, k);
  }

  lemma {:induction false} ClaimIsByWinner(
    ms: seq<Marker>, entries: seq<ReportEntry>, now: int, k: ReportKey, r: ClaimResult, winner: Option<ReportEntry>)
    requires UniqueKeys(ms) && r == ClaimAll(ms, entries, now) && winner == Winner(Find(ms, k), entries, now, k)
    ensures UniqueKeys(r.markers) && ClaimedBy(r, Find(ms, k), winner, now, k)
    decreases |entries|
  {
    if entries != [] {
      var before, was := entries[..|entries| - 1], Find(ms, k);
      var earlier, first := ClaimAll(ms, before, now), Winner(was, before, now, k);
      WinnerSnoc(was, entries, now, k);
      ClaimAllSnoc(ms, entries, now);
      ClaimIsByWinner(ms, before, now, k, earlier, first);
      ClaimNext(earlier, entries[|entries| - 1], was, first, now, k, r, winner);
    }
  }

  lemma ClaimAllSnoc(ms: seq<Marker>, entries: seq<ReportEntry>, now: int)
    requires entries != []
    ensures ClaimAll(ms, entries, now)
         == ClaimThen(ClaimAll(ms, entries[..|entries| - 1], now), entries[|entries| - 1], now)
  {
  }

  /** A claim takes the first entry of each key that is not excluded, once, and marks exactly those. */
  lemma ClaimTakesOnce(ms: seq<Marker>, entries: seq<ReportEntry>, now: int, k: ReportKey)
    requires UniqueKeys(ms)
    ensures UniqueKeys(ClaimAll(ms, entries, now).markers)
    ensures ClaimedBy(ClaimAll(ms, entries, now), Find(ms, k), Winner(Find(ms, k), entries, now, k), now, k)
  {
    ClaimIsByWinner(ms, entries, now, k, ClaimAll(ms, entries, now), Winner(Find(ms, k), entries, now, k));
  }

  function OfKey(entries: seq<ReportEntry>, k: ReportKey): seq<ReportEntry> {
    if entries == [] then [] else (if entries[0].key == k then [entries[0]] else []) + OfKey(entries[1..], k)
  }

  lemma {:induction false} OfKeyAppend(a: seq<ReportEntry>, b: seq<ReportEntry>, k: ReportKey)
    ensures OfKey(a + b, k) == OfKey(a, k) + OfKey(b, k)
    decreases |a|
  {
    if a == [] {
      assert a + b == b;
    } else {
      OfKeyAppend(a[1..], b, k);
      assert (a + b)[1..] == a[1..] + b;
    }
  }

  lemma {:induction false} InOfKey(entries: seq<ReportEntry>, k: ReportKey, e: ReportEntry)
    ensures e in OfKey(entries, k) <==> e in entries && e.key == k
    decreases |entries|
  {
    if entries != [] {
      InOfKey(entries[1..], k, e);
    }
  }

  lemma {:induction false} FirstOfSnoc(entries: seq<ReportEntry>, e: ReportEntry, k: ReportKey)
    ensures FirstWithKey(entries + [e], k)
         == if FirstWithKey(entries, k).Some? then FirstWithKey(entries, k) else if e.key == k then Some(e) else None
    decreases |entries|
  {
    if entries == [] {
      assert entries + [e] == [e];
    } else {
      FirstOfSnoc(entries[1..], e, k);
      assert (entries + [e])[1..] == entries[1..] + [e];
    }
  }

  lemma {:induction false} FirstHasKey(entries: seq<ReportEntry>, k: ReportKey)
    ensures FirstWithKey(entries, k).Some? ==> FirstWithKey(entries, k).value.key == k
    ensures FirstWithKey(entries, k).Some? ==> FirstWithKey(entries, k).value in entries
    decreases |entries|
  {
    if entries != [] {
      FirstHasKey(entries[1..], k);
    }
  }

  lemma SetOneEffect(ms: seq<Marker>, state: MarkerState, x: ReportKey, entries: seq<ReportEntry>, now: int,
      k: ReportKey)
    requires UniqueKeys(ms)
    ensures var r := SetOne(ms, state, x, entries, now);
            && UniqueKeys(r)
            && Find(r, k) == (if x != k then Find(ms, k) else SetMarker(Find(ms, k), state, k, entries, now))
  {
    FirstHasKey(entries, x);
    var i := IndexOf(ms, x);
    if i == |ms| {
      var m := Marker(EntryFor(entries, x, now), state, now);
      FindNoneIff(ms, x);
      FindOfSnoc(ms, m, k);
    } else if !(ms[i].state == Sent && state != Sent) {
      FindOfUpdate(ms, i, ms[i].(state := state, atMs := now), k);
    }
  }

  /** What marking a key leaves: a sent report is only ever marked sent again. */
  function SetMarker(was: Option<Marker>, state: MarkerState, k: ReportKey, entries: seq<ReportEntry>, now: int)
    : Option<Marker>
  {
    match was
    case None =>
      var known := FirstWithKey(entries, k);
      Some(Marker(if known.Some? then known.value else ReportEntry(k, now), state, now))
    case Some(m) => if m.state == Sent && state != Sent then was else Some(m.(state := state, atMs := now))
  }

  lemma {:induction false} SetAllEffect(
    ms: seq<Marker>, state: MarkerState, keys: seq<ReportKey>, entries: seq<ReportEntry>, now: int, k: ReportKey)
    requires UniqueKeys(ms)
    ensures UniqueKeys(SetAll(ms, state, keys, entries, now))
    ensures Find(SetAll(ms, state, keys, entries, now), k)
         == if k in keys then SetMarker(Find(ms, k), state, k, entries, now) else Find(ms, k)
    decreases |keys|
  {
    if keys != [] {
      var before, last := keys[..|keys| - 1], keys[|keys| - 1];
      SetAllEffect(ms, state, before, entries, now, k);
      SetOneEffect(SetAll(ms, state, before, entries, now), state, last, entries, now, k);
      assert keys == before + [last];
    }
  }

  // ----- One transaction, seen from one key -----

  /** What the transaction's body makes of the key's marker. */
  function AfterBody(was: Option<Marker>, act: Act, k: ReportKey): Option<Marker> {
    match act.op
    case Look => was
    case Claim(entries) =>
      if (was.None? || !Blocks(was.value, act.now)) && FirstWithKey(entries, k).Some?
      then Some(Marker(FirstWithKey(entries, k).value, InFlight, act.now)) else was
    case Mark(state, keys, entries) => if k in keys then SetMarker(was, state, k, entries, act.now) else was
    case ClearRetries => if was.Some? && was.value.state == Retry then None else was
  }

  lemma BodyEffect(ms: seq<Marker>, act: Act, k: ReportKey)
    requires UniqueKeys(ms)
    ensures UniqueKeys(Body(ms, act)) && Find(Body(ms, act), k) == AfterBody(Find(ms, k), act, k)
  {
    match act.op
    case Look =>
    case Claim(entries) => ClaimTakesOnce(ms, entries, act.now, k);
    case Mark(state, keys, entries) => SetAllEffect(ms, state, keys, entries, act.now, k);
    case ClearRetries => FindOfWithoutRetries(ms, k);
  }

  /** The cap cuts the key's marker off when the list is pruned. */
  predicate Capped(ms: seq<Marker>, now: int, k: ReportKey) {
    IndexOf(Aged(ms, now), k) < |Aged(ms, now)| - 2000
  }

  predicate Evicts(file: seq<Marker>, act: Act, k: ReportKey) {
    Capped(file, act.now, k) || Capped(Body(Prune(file, act.now), act), act.now, k)
  }

  lemma PruneEffect(ms: seq<Marker>, now: int, k: ReportKey)
    requires UniqueKeys(ms)
    ensures UniqueKeys(Prune(ms, now)) && |Prune(ms, now)| <= 2000
    ensures Find(Prune(ms, now), k) == if Capped(ms, now, k) then None else AfterAge(Find(ms, k), now)
  {
    FindOfAged(ms, k, now);
    AgesSo(Find(ms, k), now);
    var aged := Aged(ms, now);
    if |aged| > CAPACITY {
      FindOfSlice(aged, |aged| - CAPACITY, k);
    }
  }

  lemma {:induction false} AgedIsNoLonger(ms: seq<Marker>, now: int)
    ensures |Aged(ms, now)| <= |ms|
    decreases |ms|
  {
    if ms != [] {
      AgedIsNoLonger(ms[1..], now);
    }
  }

  /** A transaction leaves a list the cap has nothing to take from. */
  lemma NothingCappedAfter(file: seq<Marker>, act: Act, now: int, k: ReportKey)
    requires UniqueKeys(file) && !(act.op.Mark? && act.op.keys == [])
    ensures !Capped(Transact(file, act), now, k)
  {
    TransactKeepsUnique(file, act);
    PruneEffect(file, act.now, k);
    BodyEffect(Prune(file, act.now), act, k);
    PruneEffect(Body(Prune(file, act.now), act), act.now, k);
    AgedIsNoLonger(Transact(file, act), now);
  }

  /** Keys stay unique and the list stays within its capacity. */
  lemma TransactKeepsUnique(file: seq<Marker>, act: Act)
    requires UniqueKeys(file)
    ensures UniqueKeys(Transact(file, act))
    ensures |file| <= 2000 ==> |Transact(file, act)| <= 2000
  {
    var k := ReportKey("", "");
    PruneEffect(file, act.now, k);
    BodyEffect(Prune(file, act.now), act, k);
    PruneEffect(Body(Prune(file, act.now), act), act.now, k);
  }

  lemma TransactEffect(file: seq<Marker>, act: Act, k: ReportKey)
    requires UniqueKeys(file) && !Evicts(file, act, k) && !(act.op.Mark? && act.op.keys == [])
    ensures Find(Transact(file, act), k) == AfterAge(AfterBody(AfterAge(Find(file, k), act.now), act, k), act.now)
  {
    PruneEffect(file, act.now, k);
    BodyEffect(Prune(file, act.now), act, k);
    PruneEffect(Body(Prune(file, act.now), act), act.now, k);
  }

  // ----- What the looks see -----

  lemma ExcludedIff(file: seq<Marker>, k: ReportKey, now: int)
    requires UniqueKeys(file) && !Capped(file, now, k)
    ensures k in ExcludedKeys(file, now) <==>
              Find(file, k).Some? && Lasts(Find(file, k).value, now) && Blocks(Find(file, k).value, now)
  {
    PruneEffect(file, now, k);
    var ms := Prune(file, now);
    if IndexOf(ms, k) < |ms| {
      assert ms[IndexOf(ms, k)] in ms;
    }
    forall m | m in ms && m.entry.key == k
      ensures Find(ms, k) == Some(m)
    {
      var i :| 0 <= i < |ms| && ms[i] == m;
      FindOfUnique(ms, i);
    }
  }

  /** The sent keys are those whose young marker says so. */
  lemma SentIff(file: seq<Marker>, k: ReportKey, now: int)
    requires UniqueKeys(file) && !Capped(file, now, k)
    ensures k in SentKeys(file, now) <==>
            Find(file, k).Some? && Find(file, k).value.state == Sent && Lasts(Find(file, k).value, now)
  {
    PruneEffect(file, now, k);
    var ms := Prune(file, now);
    if IndexOf(ms, k) < |ms| {
      assert ms[IndexOf(ms, k)] in ms;
    }
    forall m | m in ms && m.entry.key == k
      ensures Find(ms, k) == Some(m)
    {
      var i :| 0 <= i < |ms| && ms[i] == m;
      FindOfUnique(ms, i);
    }
  }

  /** What waits for a retry is what the markers in that state say, key by key. */
  lemma {:induction false} RetryOfKey(ms: seq<Marker>, k: ReportKey)
    requires UniqueKeys(ms)
    ensures FirstWithKey(RetriesOf(ms), k)
         == if Find(ms, k).Some? && Find(ms, k).value.state == Retry then Some(Find(ms, k).value.entry) else None
    decreases |ms|
  {
    if ms != [] {
      var first, rest := ms[0], ms[1..];
      assert ms == [first] + rest;
      UniqueCons(first, rest);
      FindOfCons(first, rest, k);
      RetryOfKey(rest, k);
      FindNoneIff(rest, first.entry.key);
      assert ([first.entry] + RetriesOf(rest))[1..] == RetriesOf(rest);
      assert [] + RetriesOf(rest) == RetriesOf(rest);
    }
  }

  lemma WaitingIff(file: seq<Marker>, k: ReportKey, now: int)
    requires UniqueKeys(file) && !Capped(file, now, k)
    ensures var m := AfterAge(Find(file, k), now);
            HasKey(RetryEntries(file, now), k) <==> m.Some? && m.value.state == Retry
  {
    PruneEffect(file, now, k);
    RetryOfKey(Prune(file, now), k);
  }

  lemma {:induction false} AgedIsStable(ms: seq<Marker>, now: int)
    ensures forall m :: m in Aged(ms, now) ==> Young(m, now) && Expired(m, now) == m
    decreases |ms|
  {
    if ms != [] {
      AgedIsStable(ms[1..], now);
    }
  }

  lemma {:induction false} StableIsAged(ms: seq<Marker>, now: int)
    requires forall m :: m in ms ==> Young(m, now) && Expired(m, now) == m
    ensures Aged(ms, now) == ms
    decreases |ms|
  {
    if ms != [] {
      StableIsAged(ms[1..], now);
      assert ms[0] in ms && ms == [ms[0]] + ms[1..];
    }
  }

  /** Pruning twice at one time is pruning once: a second look changes nothing at all. */
  lemma PruneTwice(file: seq<Marker>, now: int)
    ensures Prune(Prune(file, now), now) == Prune(file, now) == Transact(file, Act(Look, now))
  {
    AgedIsStable(file, now);
    var ms := Prune(file, now);
    forall m | m in ms
      ensures m in Aged(file, now)
    {
    }
    StableIsAged(ms, now);
  }

  // ----- Runs -----

  function Run(file: seq<Marker>, acts: seq<Act>): seq<Marker> {
    if acts == [] then file else Transact(Run(file, acts[..|acts| - 1]), acts[|acts| - 1])
  }

  predicate Ordered(acts: seq<Act>) {
    forall i, j :: 0 <= i <= j < |acts| ==> acts[i].now <= acts[j].now
  }

  lemma {:induction false} RunKeepsUnique(file: seq<Marker>, acts: seq<Act>)
    requires UniqueKeys(file)
    ensures UniqueKeys(Run(file, acts))
    ensures |file| <= 2000 ==> |Run(file, acts)| <= 2000
    decreases |acts|
  {
    if acts != [] {
      RunKeepsUnique(file, acts[..|acts| - 1]);
      TransactKeepsUnique(Run(file, acts[..|acts| - 1]), acts[|acts| - 1]);
    }
  }

  /** Some transaction of the run loses the key's marker to the cap. */
  predicate EvictedIn(file: seq<Marker>, acts: seq<Act>, k: ReportKey) {
    acts != []
    && (EvictedIn(file, acts[..|acts| - 1], k) || Evicts(Run(file, acts[..|acts| - 1]), acts[|acts| - 1], k))
  }

  lemma RunOfOne(file: seq<Marker>, a: Act)
    ensures Run(file, [a]) == Transact(file, a)
    ensures forall k :: EvictedIn(file, [a], k) <==> Evicts(file, a, k)
  {
    assert [a][..0] == [];
  }

  lemma RunOfTwo(file: seq<Marker>, a: Act, b: Act)
    ensures Run(file, [a, b]) == Transact(Transact(file, a), b)
    ensures forall k :: EvictedIn(file, [a, b], k) <==> Evicts(file, a, k) || Evicts(Transact(file, a), b, k)
  {
    RunOfOne(file, a);
    assert [a, b][..1] == [a];
  }

  lemma RunOfThree(file: seq<Marker>, a: Act, b: Act, c: Act)
    ensures Run(file, [a, b, c]) == Transact(Run(file, [a, b]), c)
    ensures forall k :: EvictedIn(file, [a, b, c], k) <==> EvictedIn(file, [a, b], k) || Evicts(Run(file, [a, b]), c, k)
  {
    assert [a, b, c][..2] == [a, b];
  }

  lemma RunOfFour(file: seq<Marker>, a: Act, b: Act, c: Act, d: Act)
    ensures Run(file, [a, b, c, d]) == Transact(Transact(Run(file, [a, b]), c), d)
    ensures forall k :: EvictedIn(file, [a, b, c, d], k) <==>
              || EvictedIn(file, [a, b], k)
              || Evicts(Run(file, [a, b]), c, k)
              || Evicts(Transact(Run(file, [a, b]), c), d, k)
  {
    RunOfThree(file, a, b, c);
    assert [a, b, c, d][..3] == [a, b, c];
  }

  predicate MarksRetry(act: Act, k: ReportKey) {
    act.op.Mark? && act.op.state == Retry && k in act.op.keys
  }

  predicate ClaimsKey(file: seq<Marker>, act: Act, k: ReportKey) {
    exists e :: e in Claimed(file, act) && e.key == k
  }

  // ----- Exclusive claims -----

  /** A claim takes a key it asks for exactly when no young marker excludes it, or the cap just took that marker. */
  lemma ClaimSucceedsIff(file: seq<Marker>, act: Act, k: ReportKey)
    requires UniqueKeys(file)
    ensures ClaimsKey(file, act, k) <==>
              && act.op.Claim?
              && FirstWithKey(act.op.entries, k).Some?
              && var was := Find(file, k);
                 was.None? || !Lasts(was.value, act.now) || !Blocks(was.value, act.now) || Capped(file, act.now, k)
  {
    if act.op.Claim? {
      PruneEffect(file, act.now, k);
      ClaimTakesOnce(Prune(file, act.now), act.op.entries, act.now, k);
      var first := FirstWithKey(act.op.entries, k);
      if first.Some? {
        InOfKey(Claimed(file, act), k, first.value);
        FirstHasKey(act.op.entries, k);
      }
      forall e | e in Claimed(file, act) && e.key == k
        ensures OfKey(Claimed(file, act), k) != []
      {
        InOfKey(Claimed(file, act), k, e);
      }
    }
  }

  /** The key is held: in flight or sent, since no earlier than `since`. */
  predicate Held(file: seq<Marker>, k: ReportKey, since: int) {
    var m := Find(file, k);
    m.Some? && m.value.state != Retry && m.value.atMs >= since
  }

  lemma HeldStays(file: seq<Marker>, act: Act, k: ReportKey, since: int)
    requires UniqueKeys(file) && Held(file, k, since) && since <= act.now < since + 30 * 60 * 1000
    requires !Evicts(file, act, k) && !MarksRetry(act, k)
    ensures Held(Transact(file, act), k, since) && !ClaimsKey(file, act, k)
  {
    PruneEffect(file, act.now, k);
    if act.op.Claim? {
      ClaimLeavesExcluded(Prune(file, act.now), act.op.entries, act.now, k);
    }
    if !(act.op.Mark? && act.op.keys == []) {
      TransactEffect(file, act, k);
    }
  }

  lemma ClaimHolds(file: seq<Marker>, act: Act, k: ReportKey)
    requires UniqueKeys(file) && ClaimsKey(file, act, k) && !Evicts(file, act, k)
    ensures Held(Transact(file, act), k, act.now)
  {
    var e :| e in Claimed(file, act) && e.key == k;
    ClaimMarks(file, act, e);
  }

  /** A claimed entry is the first of its key in the request, and its marker carries it from now on. */
  lemma ClaimMarks(file: seq<Marker>, act: Act, e: ReportEntry)
    requires UniqueKeys(file) && e in Claimed(file, act)
    ensures act.op.Claim? && FirstWithKey(act.op.entries, e.key) == Some(e) && OfKey(Claimed(file, act), e.key) == [e]
    ensures !Evicts(file, act, e.key) ==> Find(Transact(file, act), e.key) == Some(Marker(e, InFlight, act.now))
  {
    PruneEffect(file, act.now, e.key);
    ClaimTakesOnce(Prune(file, act.now), act.op.entries, act.now, e.key);
    InOfKey(Claimed(file, act), e.key, e);
    if !Evicts(file, act, e.key) {
      TransactEffect(file, act, e.key);
    }
  }

  lemma {:induction false} HeldThroughRun(file: seq<Marker>, acts: seq<Act>, k: ReportKey)
    requires UniqueKeys(file) && acts != [] && Ordered(acts) && ClaimsKey(file, acts[0], k)
    requires acts[|acts| - 1].now < acts[0].now + 30 * 60 * 1000
    requires !EvictedIn(file, acts, k) && forall i :: 1 <= i < |acts| ==> !MarksRetry(acts[i], k)
    ensures Held(Run(file, acts), k, acts[0].now)
    ensures |acts| > 1 ==> !ClaimsKey(Run(file, acts[..|acts| - 1]), acts[|acts| - 1], k)
    decreases |acts|
  {
    var before, last := acts[..|acts| - 1], acts[|acts| - 1];
    RunKeepsUnique(file, before);
    if before == [] {
      ClaimHolds(file, last, k);
    } else {
      HeldThroughRun(file, before, k);
      HeldStays(Run(file, before), last, k, acts[0].now);
    }
  }

  /** A claim taken back leaves the claimed entry as a retry. */
  lemma ClaimThenRetry(file: seq<Marker>, claim: Act, mark: Act, e: ReportEntry)
    requires UniqueKeys(file) && e in Claimed(file, claim) && mark.now == claim.now
    requires mark.op.Mark? && mark.op.state == Retry && e.key in mark.op.keys
    requires !Evicts(file, claim, e.key) && !Evicts(Transact(file, claim), mark, e.key)
    ensures Find(Transact(Transact(file, claim), mark), e.key) == Some(Marker(e, Retry, mark.now))
  {
    ClaimMarks(file, claim, e);
    TransactKeepsUnique(file, claim);
    TransactEffect(Transact(file, claim), mark, e.key);
  }

  /**
   Between two successful claims of one key it was marked retry, 30 minutes passed, or the cap took its marker.
   */
  lemma ClaimsAreExclusive(file: seq<Marker>, acts: seq<Act>, k: ReportKey)
    requires UniqueKeys(file) && |acts| >= 2 && Ordered(acts)
    requires ClaimsKey(file, acts[0], k) && ClaimsKey(Run(file, acts[..|acts| - 1]), acts[|acts| - 1], k)
    ensures || acts[|acts| - 1].now >= acts[0].now + 30 * 60 * 1000
            || EvictedIn(file, acts, k)
            || RetriedBetween(acts, k)
  {
    ClaimIsNoRetry(Run(file, acts[..|acts| - 1]), acts[|acts| - 1], k);
    if acts[|acts| - 1].now < acts[0].now + 30 * 60 * 1000 && !EvictedIn(file, acts, k) && !RetriedBetween(acts, k) {
      HeldThroughRun(file, acts, k);
    }
  }

  predicate RetriedBetween(acts: seq<Act>, k: ReportKey) {
    exists i :: 1 <= i < |acts| - 1 && MarksRetry(acts[i], k)
  }

  lemma ClaimIsNoRetry(file: seq<Marker>, act: Act, k: ReportKey)
    requires ClaimsKey(file, act, k)
    ensures !MarksRetry(act, k)
  {
  }

  // ----- Sent reports -----

  predicate IsSent(file: seq<Marker>, k: ReportKey, since: int) {
    var m := Find(file, k);
    m.Some? && m.value.state == Sent && m.value.atMs >= since
  }

  lemma SentStays(file: seq<Marker>, act: Act, k: ReportKey, since: int)
    requires UniqueKeys(file) && IsSent(file, k, since) && since <= act.now <= since + 72 * 60 * 60 * 1000
    requires !Evicts(file, act, k)
    ensures IsSent(Transact(file, act), k, since)
    ensures k in ExcludedKeys(file, act.now) && k in SentKeys(file, act.now) && !ClaimsKey(file, act, k)
  {
    PruneEffect(file, act.now, k);
    var ms := Prune(file, act.now);
    assert ms[IndexOf(ms, k)] in ms;
    if act.op.Claim? {
      ClaimLeavesExcluded(ms, act.op.entries, act.now, k);
    }
    if !(act.op.Mark? && act.op.keys == []) {
      TransactEffect(file, act, k);
    }
  }

  /** Once sent, a report stays sent, excluded and unclaimable until 72 hours pass or the cap takes it. */
  lemma {:induction false} SentNeverDowngrades(file: seq<Marker>, acts: seq<Act>, k: ReportKey, since: int)
    requires UniqueKeys(file) && IsSent(file, k, since) && acts != [] && Ordered(acts)
    requires since <= acts[0].now && acts[|acts| - 1].now <= since + 72 * 60 * 60 * 1000 && !EvictedIn(file, acts, k)
    ensures IsSent(Run(file, acts), k, since)
    ensures var before := Run(file, acts[..|acts| - 1]);
            var last := acts[|acts| - 1];
            k in ExcludedKeys(before, last.now) && !ClaimsKey(before, last, k)
    decreases |acts|
  {
    var before, last := acts[..|acts| - 1], acts[|acts| - 1];
    RunKeepsUnique(file, before);
    if before != [] {
      SentNeverDowngrades(file, before, k, since);
    }
    SentStays(Run(file, before), last, k, since);
  }

  /** Marking a report sent makes it sent, whatever it was. */
  lemma MarkingSendsIt(file: seq<Marker>, act: Act, k: ReportKey)
    requires UniqueKeys(file) && act.op.Mark? && act.op.state == Sent && k in act.op.keys && !Evicts(file, act, k)
    ensures IsSent(Transact(file, act), k, act.now)
  {
    TransactEffect(file, act, k);
  }

  // ----- Uploads that never report back -----

  /** Still as the claim at `since` left it, or already a retry because its time is up. */
  predicate Unreported(file: seq<Marker>, e: ReportEntry, since: int, now: int) {
    Find(file, e.key) == Some(Marker(e, InFlight, since))
    || (now >= since + 30 * 60 * 1000 && Find(file, e.key) == Some(Marker(e, Retry, since)))
  }

  /** Nobody settles the report, claims it again, or clears it once it is a retry. */
  predicate Leaves(file: seq<Marker>, act: Act, k: ReportKey, since: int) {
    && !(act.op.Mark? && k in act.op.keys)
    && !ClaimsKey(file, act, k)
    && (act.op.ClearRetries? ==> act.now < since + 30 * 60 * 1000)
  }

  predicate AllLeave(file: seq<Marker>, acts: seq<Act>, k: ReportKey, since: int) {
    acts == []
    || (AllLeave(file, acts[..|acts| - 1], k, since)
        && Leaves(Run(file, acts[..|acts| - 1]), acts[|acts| - 1], k, since))
  }

  lemma UnclaimedIsUntouched(file: seq<Marker>, act: Act, k: ReportKey)
    requires UniqueKeys(file) && act.op.Claim? && !ClaimsKey(file, act, k)
    ensures var was := Find(Prune(file, act.now), k); AfterBody(was, act, k) == was
  {
    TransactKeepsUnique(file, act);
    PruneEffect(file, act.now, k);
    ClaimTakesOnce(Prune(file, act.now), act.op.entries, act.now, k);
    var first := FirstWithKey(act.op.entries, k);
    if first.Some? {
      FirstHasKey(act.op.entries, k);
      InOfKey(Claimed(file, act), k, first.value);
    }
  }

  lemma LeftIsUntouched(file: seq<Marker>, act: Act, e: ReportEntry, since: int, before: int, was: Option<Marker>)
    requires UniqueKeys(file) && Unreported(file, e, since, before)
    requires since <= before <= act.now <= since + 72 * 60 * 60 * 1000 && Leaves(file, act, e.key, since)
    requires was == AfterAge(Find(file, e.key), act.now) && was == Find(Prune(file, act.now), e.key)
    ensures AfterBody(was, act, e.key) == was
  {
    if act.op.Claim? {
      UnclaimedIsUntouched(file, act, e.key);
    }
  }

  lemma UnreportedStays(file: seq<Marker>, act: Act, e: ReportEntry, since: int, before: int)
    requires UniqueKeys(file) && Unreported(file, e, since, before)
    requires since <= before <= act.now <= since + 72 * 60 * 60 * 1000
    requires !Evicts(file, act, e.key) && Leaves(file, act, e.key, since)
    ensures Unreported(Transact(file, act), e, since, act.now)
  {
    if !(act.op.Mark? && act.op.keys == []) {
      var was := AfterAge(Find(file, e.key), act.now);
      PruneEffect(file, act.now, e.key);
      LeftIsUntouched(file, act, e, since, before, was);
      TransactEffect(file, act, e.key);
    }
  }

  lemma {:induction false} UnreportedThroughRun(file: seq<Marker>, acts: seq<Act>, e: ReportEntry, since: int)
    requires UniqueKeys(file) && Find(file, e.key) == Some(Marker(e, InFlight, since)) && Ordered(acts)
    requires acts != [] ==> since <= acts[0].now && acts[|acts| - 1].now <= since + 72 * 60 * 60 * 1000
    requires !EvictedIn(file, acts, e.key) && AllLeave(file, acts, e.key, since)
    ensures Unreported(Run(file, acts), e, since, if acts == [] then since else acts[|acts| - 1].now)
    decreases |acts|
  {
    if acts != [] {
      var before, last := acts[..|acts| - 1], acts[|acts| - 1];
      RunKeepsUnique(file, before);
      UnreportedThroughRun(file, before, e, since);
      UnreportedStays(Run(file, before), last, e, since, if before == [] then since else before[|before| - 1].now);
    }
  }

  lemma {:induction false} RetriesHold(ms: seq<Marker>, m: Marker)
    requires m in ms && m.state == Retry
    ensures m.entry in RetriesOf(ms)
    decreases |ms|
  {
    if ms[0] != m {
      RetriesHold(ms[1..], m);
    }
  }

  /**
   A claimed report whose upload never reports back is offered as a retry from 30 minutes after the claim until
   72 hours after it, unless the cap or `clearRetries` removed it.
   */
  lemma LostUploadIsOffered(file: seq<Marker>, claim: Act, e: ReportEntry, acts: seq<Act>, now: int)
    requires UniqueKeys(file) && e in Claimed(file, claim) && !Evicts(file, claim, e.key)
    requires Ordered([claim] + acts + [Act(Look, now)])
    requires claim.now + 30 * 60 * 1000 <= now <= claim.now + 72 * 60 * 60 * 1000
    requires !EvictedIn(Transact(file, claim), acts, e.key) && AllLeave(Transact(file, claim), acts, e.key, claim.now)
    requires !Capped(Run(Transact(file, claim), acts), now, e.key)
    ensures e in RetryEntries(Run(Transact(file, claim), acts), now)
  {
    var after := Transact(file, claim);
    ClaimMarks(file, claim, e);
    TransactKeepsUnique(file, claim);
    OrderedParts(claim, acts, Act(Look, now));
    UnreportedThroughRun(after, acts, e, claim.now);
    RunKeepsUnique(after, acts);
    OfferedOnceExpired(Run(after, acts), e, claim.now, now);
  }

  lemma OfferedOnceExpired(file: seq<Marker>, e: ReportEntry, since: int, now: int)
    requires UniqueKeys(file) && Find(file, e.key) in {Some(Marker(e, InFlight, since)), Some(Marker(e, Retry, since))}
    requires since + 30 * 60 * 1000 <= now <= since + 72 * 60 * 60 * 1000 && !Capped(file, now, e.key)
    ensures e in RetryEntries(file, now)
  {
    PruneEffect(file, now, e.key);
    var ms := Prune(file, now);
    RetriesHold(ms, ms[IndexOf(ms, e.key)]);
  }

  lemma OrderedParts(first: Act, acts: seq<Act>, last: Act)
    requires Ordered([first] + acts + [last])
    ensures Ordered(acts) && forall a :: a in acts ==> first.now <= a.now <= last.now
  {
    var all := [first] + acts + [last];
    forall i | 0 <= i < |acts|
      ensures all[i + 1] == acts[i]
    {
    }
    forall i, j | 0 <= i <= j < |acts|
      ensures acts[i].now <= acts[j].now
    {
      assert all[i + 1].now <= all[j + 1].now;
    }
    forall i | 0 <= i < |acts|
      ensures first.now <= acts[i].now <= last.now
    {
      assert all[0].now <= all[i + 1].now <= all[|acts| + 1].now;
    }
  }
}

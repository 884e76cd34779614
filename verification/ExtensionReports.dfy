/**
 What the notification service extension does with a push
 (ios/NotificationExtension/Core/ExtensionReportHandler.swift).
 */
module ExtensionReports {
  import opened Common
  import opened MarkerSpec
  import opened MarkerStores
  import opened MarkerRuns

  datatype Handling = Handling(acts: seq<Act>, answer: bool)

  /** The transactions of `markRetryIfUnknown`: it only writes when neither look knows the report. */
  function UnknownActs(file: seq<Marker>, e: ReportEntry, now: int): seq<Act> {
    var look := Act(Look, now);
    if e.key in ExcludedKeys(file, now) then [look]
    else if HasKey(RetryEntries(Transact(file, look), now), e.key) then [look, look]
    else [look, look, Act(Mark(Retry, [e.key], [e]), now)]
  }

  function HandlingOf(file: seq<Marker>, e: ReportEntry, now: int, usable: bool, uploads: bool): Handling {
    var claim := Act(Claim([e]), now);
    if !usable then Handling(UnknownActs(file, e, now), false)
    else if Claimed(file, claim) == [] then Handling([claim], true)
    else if uploads then Handling([claim], true)
    else Handling([claim, Act(Mark(Retry, [e.key], [e]), now)], false)
  }

  method MarkRetryIfUnknown(store: ReportMarkerStore, e: ReportEntry, now: int)
    modifies store
    ensures store.file == Run(old(store.file), UnknownActs(old(store.file), e, now))
  {
    ghost var file := store.file;
    ghost var look := Act(Look, now);
    RunOfOne(file, look);
    RunOfTwo(file, look, look);
    RunOfThree(file, look, look, Act(Mark(Retry, [e.key], [e]), now));
    var excluded := store.ExcludedKeys(now);
    if e.key in excluded {
      return;
    }
    var retries := store.RetryEntries(now);
    if HasKey(retries, e.key) {
      return;
    }
    store.MarkRetry([e.key], [e], now);
  }

  lemma ClaimOfOne(ms: seq<Marker>, e: ReportEntry, now: int)
    ensures ClaimAll(ms, [e], now) == ClaimOne(ms, e, now)
  {
    assert [e][..0] == [];
    assert [] + ClaimOne(ms, e, now).claimed == ClaimOne(ms, e, now).claimed;
  }

  /**
   What the extension does with a provider push; None is any other push. `usable`: there is a credential and an
   uploader; `uploads`: the uploader took the report.
   */
  method Handle(store: ReportMarkerStore, push: Option<ReportEntry>, hasDirectory: bool, now: int, usable: bool,
      uploads: bool)
    returns (answer: bool)
    modifies store
    ensures push.Some? && hasDirectory ==>
      var handling := HandlingOf(old(store.file), push.value, now, usable, uploads);
      answer == handling.answer && store.file == Run(old(store.file), handling.acts)
    ensures push.None? || !hasDirectory ==> !answer && store.file == old(store.file)
  {
    if push.None? || !hasDirectory {
      return false;
    }
    var e := push.value;
    ghost var file := store.file;
    if !usable {
      MarkRetryIfUnknown(store, e, now);
      return false;
    }
    ghost var claim := Act(Claim([e]), now);
    RunOfOne(file, claim);
    RunOfTwo(file, claim, Act(Mark(Retry, [e.key], [e]), now));
    ClaimOfOne(Prune(file, now), e, now);
    var claimed := store.Claim([e], now);
    if claimed == [] || uploads {
      return true;
    }
    store.MarkRetry([claimed[0].key], claimed, now);
    answer := false;
  }

  // ----- What handling promises -----

  /** A look changes nothing but age, and a second look at the same time nothing at all. */
  lemma LookEffect(file: seq<Marker>, now: int, k: ReportKey)
    requires UniqueKeys(file) && !Evicts(file, Act(Look, now), k)
    ensures UniqueKeys(Transact(file, Act(Look, now)))
    ensures Find(Transact(file, Act(Look, now)), k) == AfterAge(Find(file, k), now)
    ensures AfterAge(AfterAge(Find(file, k), now), now) == AfterAge(Find(file, k), now)
  {
    TransactKeepsUnique(file, Act(Look, now));
    TransactEffect(file, Act(Look, now), k);
  }

  lemma UnknownActsIff(file: seq<Marker>, e: ReportEntry, now: int)
    requires UniqueKeys(file) && !EvictedIn(file, UnknownActs(file, e, now), e.key)
    ensures |UnknownActs(file, e, now)| == 3 <==> AfterAge(Find(file, e.key), now).None?
    ensures var looked := Transact(file, Act(Look, now));
            && UniqueKeys(looked) && Find(looked, e.key) == AfterAge(Find(file, e.key), now)
            && (|UnknownActs(file, e, now)| > 1 ==> !Evicts(looked, Act(Look, now), e.key))
  {
    var look := Act(Look, now);
    RunOfOne(file, look);
    RunOfTwo(file, look, look);
    RunOfThree(file, look, look, Act(Mark(Retry, [e.key], [e]), now));
    LookEffect(file, now, e.key);
    ExcludedIff(file, e.key, now);
    if |UnknownActs(file, e, now)| > 1 {
      WaitingIff(Transact(file, look), e.key, now);
    }
  }

  /** A retry written over what two looks did not know. */
  lemma LooksThenMark(file: seq<Marker>, e: ReportEntry, now: int)
    requires UniqueKeys(file) && AfterAge(Find(file, e.key), now).None?
    requires !EvictedIn(file, [Act(Look, now), Act(Look, now), Act(Mark(Retry, [e.key], [e]), now)], e.key)
    ensures Find(Run(file, [Act(Look, now), Act(Look, now), Act(Mark(Retry, [e.key], [e]), now)]), e.key)
         == Some(Marker(e, Retry, now))
  {
    var look, mark := Act(Look, now), Act(Mark(Retry, [e.key], [e]), now);
    RunOfTwo(file, look, look);
    RunOfThree(file, look, look, mark);
    LookEffect(file, now, e.key);
    LookEffect(Transact(file, look), now, e.key);
    TransactEffect(Run(file, [look, look]), mark, e.key);
    assert FirstWithKey([e], e.key) == Some(e);
  }

  /**
   Undisturbed, `markRetryIfUnknown` leaves every key it finds (sent, in flight or waiting, from whatever push) as
   it is, time included, and records exactly the keys it does not find.
   */
  lemma KnownReportIsKept(file: seq<Marker>, e: ReportEntry, now: int)
    requires UniqueKeys(file) && !EvictedIn(file, UnknownActs(file, e, now), e.key)
    ensures var was := AfterAge(Find(file, e.key), now);
            Find(Run(file, UnknownActs(file, e, now)), e.key)
            == if was.Some? then was else Some(Marker(e, Retry, now))
  {
    var look := Act(Look, now);
    UnknownActsIff(file, e, now);
    if |UnknownActs(file, e, now)| == 3 {
      LooksThenMark(file, e, now);
    } else {
      RunOfOne(file, look);
      RunOfTwo(file, look, look);
      LookEffect(file, now, e.key);
      if |UnknownActs(file, e, now)| == 2 {
        LookEffect(Transact(file, look), now, e.key);
      }
    }
  }

  /** Accounted for: excluded (someone has it or sent it), or waiting as a retry. */
  predicate Accounted(m: Option<Marker>, now: int) {
    m.Some? && Lasts(m.value, now) && (Blocks(m.value, now) || m.value.state == Retry)
  }

  lemma ClaimAccounts(file: seq<Marker>, e: ReportEntry, now: int)
    requires UniqueKeys(file) && !Evicts(file, Act(Claim([e]), now), e.key)
    ensures var m := Find(Transact(file, Act(Claim([e]), now)), e.key);
            m.Some? && Lasts(m.value, now) && Blocks(m.value, now)
    ensures Claimed(file, Act(Claim([e]), now)) in {[], [e]}
  {
    PruneEffect(file, now, e.key);
    ClaimOfOne(Prune(file, now), e, now);
    ClaimOneEffect(Prune(file, now), e, now, e.key);
    TransactEffect(file, Act(Claim([e]), now), e.key);
  }

  /**
   Nothing the extension handles is lost. Answering true means its key is excluded from now on; an upload that did
   not start leaves the claimed entry as a retry; without a credential it is excluded or waits.
   */
  lemma HandledIsNeverLost(file: seq<Marker>, e: ReportEntry, now: int, usable: bool, uploads: bool)
    requires UniqueKeys(file) && !EvictedIn(file, HandlingOf(file, e, now, usable, uploads).acts, e.key)
    ensures var handling := HandlingOf(file, e, now, usable, uploads);
            var m := Find(Run(file, handling.acts), e.key);
            && Accounted(m, now)
            && (handling.answer ==> Blocks(m.value, now))
            && (usable && !handling.answer ==> m.value == Marker(e, Retry, now))
  {
    if !usable {
      KnownReportIsKept(file, e, now);
    } else if HandlingOf(file, e, now, usable, uploads).answer {
      RunOfOne(file, Act(Claim([e]), now));
      ClaimAccounts(file, e, now);
    } else {
      RunOfOne(file, Act(Claim([e]), now));
      RunOfTwo(file, Act(Claim([e]), now), Act(Mark(Retry, [e.key], [e]), now));
      ClaimAccounts(file, e, now);
      ClaimThenRetry(file, Act(Claim([e]), now), Act(Mark(Retry, [e.key], [e]), now), e);
    }
  }

  /**
   The answer: true exactly when there is a credential and either the uploader took the report or its claim found the
   key held already, which it is iff a young marker excludes it.
   */
  lemma AnswerIff(file: seq<Marker>, e: ReportEntry, now: int, usable: bool, uploads: bool)
    requires UniqueKeys(file) && !Capped(file, now, e.key)
    ensures HandlingOf(file, e, now, usable, uploads).answer <==>
            usable && (uploads || e.key in ExcludedKeys(file, now))
  {
    ClaimOfOne(Prune(file, now), e, now);
    ExcludedIff(file, e.key, now);
    PruneEffect(file, now, e.key);
  }

  /** A report the uploader took is in flight from that moment, unless it was held already. */
  lemma TakenIsInFlight(file: seq<Marker>, e: ReportEntry, now: int)
    requires UniqueKeys(file) && !EvictedIn(file, HandlingOf(file, e, now, true, true).acts, e.key)
    requires Claimed(file, Act(Claim([e]), now)) != []
    ensures Find(Run(file, HandlingOf(file, e, now, true, true).acts), e.key) == Some(Marker(e, InFlight, now))
  {
    var claim := Act(Claim([e]), now);
    RunOfOne(file, claim);
    ClaimOfOne(Prune(file, now), e, now);
    assert e in Claimed(file, claim);
    ClaimMarks(file, claim, e);
  }

  // ----- Disturbed checks -----

  /** In flight and younger than the time an upload may take: somebody's upload is running. */
  predicate Uploading(was: Option<Marker>, now: int) {
    was.Some? && was.value.state == InFlight && now - was.value.atMs < 30 * 60 * 1000
  }

  /** The transaction takes the key away from whoever held it. */
  predicate TakesBack(file: seq<Marker>, act: Act, k: ReportKey) {
    k in ExcludedKeys(file, act.now) && k !in ExcludedKeys(Transact(file, act), act.now)
  }

  lemma WriteTakesBackIff(file: seq<Marker>, e: ReportEntry, now: int)
    requires UniqueKeys(file) && !Evicts(file, Act(Mark(Retry, [e.key], [e]), now), e.key)
    ensures TakesBack(file, Act(Mark(Retry, [e.key], [e]), now), e.key) <==> Uploading(Find(file, e.key), now)
  {
    var mark := Act(Mark(Retry, [e.key], [e]), now);
    ExcludedIff(file, e.key, now);
    TransactEffect(file, mark, e.key);
    TransactKeepsUnique(file, mark);
    NothingCappedAfter(file, mark, now, e.key);
    ExcludedIff(Transact(file, mark), e.key, now);
  }

  predicate InFlightIn(file: seq<Marker>, k: ReportKey) {
    Find(file, k).Some? && Find(file, k).value.state == InFlight
  }

  /** Nothing but a claim of the key puts it in flight. */
  lemma OnlyClaimsStartUploads(file: seq<Marker>, act: Act, k: ReportKey)
    requires UniqueKeys(file) && !InFlightIn(file, k) && !ClaimsKey(file, act, k)
    ensures UniqueKeys(Transact(file, act)) && !InFlightIn(Transact(file, act), k)
  {
    TransactKeepsUnique(file, act);
    PruneEffect(file, act.now, k);
    BodyEffect(Prune(file, act.now), act, k);
    PruneEffect(Body(Prune(file, act.now), act), act.now, k);
    if act.op.Claim? {
      UnclaimedIsUntouched(file, act, k);
    }
  }

  predicate ClaimedIn(file: seq<Marker>, acts: seq<Act>, k: ReportKey) {
    acts != []
    && (ClaimedIn(file, acts[..|acts| - 1], k) || ClaimsKey(Run(file, acts[..|acts| - 1]), acts[|acts| - 1], k))
  }

  lemma {:induction false} OnlyClaimsStartUploadsInRun(file: seq<Marker>, acts: seq<Act>, k: ReportKey)
    requires UniqueKeys(file) && !InFlightIn(file, k) && !ClaimedIn(file, acts, k)
    ensures UniqueKeys(Run(file, acts)) && !InFlightIn(Run(file, acts), k)
    decreases |acts|
  {
    if acts != [] {
      OnlyClaimsStartUploadsInRun(file, acts[..|acts| - 1], k);
      OnlyClaimsStartUploads(Run(file, acts[..|acts| - 1]), acts[|acts| - 1], k);
    }
  }

  /** A key the first look does not exclude is not in flight after that look. */
  lemma NotExcludedIsNotInFlight(file: seq<Marker>, k: ReportKey, now: int)
    requires UniqueKeys(file) && k !in ExcludedKeys(file, now)
    ensures UniqueKeys(Transact(file, Act(Look, now))) && !InFlightIn(Transact(file, Act(Look, now)), k)
  {
    TransactKeepsUnique(file, Act(Look, now));
    PruneTwice(file, now);
    var ms := Prune(file, now);
    PruneEffect(file, now, k);
    if Find(ms, k).Some? {
      assert Find(ms, k).value in ms;
    }
  }

  /**
   `markRetryIfUnknown` with anything at all between its transactions: it reaches its write because the first look
   did not exclude the key (and the second did not find it waiting); the write then takes the key away from its
   holder exactly when the key's marker is in flight and younger than 30 minutes, which only a claim made since
   the first look can have brought about.
   */
  lemma UnknownCheckTakesBackIff(file: seq<Marker>, e: ReportEntry, lookedAt: int, between: seq<Act>, now: int)
    requires UniqueKeys(file) && e.key !in ExcludedKeys(file, lookedAt)
    requires !Evicts(Run(Transact(file, Act(Look, lookedAt)), between), Act(Mark(Retry, [e.key], [e]), now), e.key)
    ensures var looked := Transact(file, Act(Look, lookedAt));
            var held := Run(looked, between);
            && (TakesBack(held, Act(Mark(Retry, [e.key], [e]), now), e.key) <==> Uploading(Find(held, e.key), now))
            && (Uploading(Find(held, e.key), now) ==> ClaimedIn(looked, between, e.key))
  {
    var looked := Transact(file, Act(Look, lookedAt));
    NotExcludedIsNotInFlight(file, e.key, lookedAt);
    RunKeepsUnique(looked, between);
    WriteTakesBackIff(Run(looked, between), e, now);
    if !ClaimedIn(looked, between, e.key) {
      OnlyClaimsStartUploadsInRun(looked, between, e.key);
    }
  }

  lemma PruneOfOne(m: Marker, now: int)
    requires m.atMs == now
    ensures Prune([m], now) == [m] && Find([m], m.entry.key) == Some(m)
  {
    assert [m][1..] == [];
    assert Aged([m], now) == [m];
  }

  /** It does happen: the claim is taken back while its upload runs, and the report can be claimed again at once. */
  lemma UnknownCheckCanRace(e: ReportEntry, now: int)
    ensures var claim, mark := Act(Claim([e]), now), Act(Mark(Retry, [e.key], [e]), now);
            && UnknownActs([], e, now) == [Act(Look, now), Act(Look, now), mark]
            && Claimed([], claim) == [e]
            && Claimed(Run([], [claim, mark]), claim) == [e]
  {
    var claim, mark := Act(Claim([e]), now), Act(Mark(Retry, [e.key], [e]), now);
    var held, retry := Marker(e, InFlight, now), Marker(e, Retry, now);
    RunOfTwo([], claim, mark);
    assert Prune([], now) == [];
    ClaimOfOne([], e, now);
    ClaimOfOne([retry], e, now);
    PruneOfOne(held, now);
    PruneOfOne(retry, now);
    assert [] + [held] == [held];
    assert Transact([], claim) == [held];
    assert [e.key][..0] == [];
    assert SetAll([held], Retry, [e.key], [e], now) == [retry];
    assert Transact([held], mark) == [retry];
  }
}

/** What the identity queue keeps over every run of calls, job endings, relaunches and crashes. */
module IdentityRuns {
  import opened Common
  import opened IdentitySpec

  lemma {:induction false} RunAppend(s: State, a: seq<Event>, b: seq<Event>, configID: string)
    ensures Run(s, a + b, configID) == Run(Run(s, a, configID), b, configID)
    decreases |b|
  {
    if b == [] {
      assert a + b == a;
    } else {
      RunAppend(s, a, b[..|b| - 1], configID);
      assert (a + b)[..|a + b| - 1] == a + b[..|b| - 1];
    }
  }

  lemma RunTwo(s: State, a: Event, b: Event, configID: string)
    ensures Run(s, [a], configID) == Step(s, a, configID)
    ensures Run(s, [a, b], configID) == Step(Step(s, a, configID), b, configID)
  {
    assert [a, b][..1] == [a] && [a][..0] == [];
    assert Run(s, [a, b], configID) == Step(Run(s, [a], configID), b, configID);
  }

  // ----- What signing in and out reach -----

  /** The stored token serves the identity asked for. */
  predicate Reusable(s: Stores, identityHash: string, world: World) {
    s.stored.Some? && world.cacheUsable && s.stored.value.identityHash == identityHash
  }

  /** A token for the identity is in hand: the stored one, or one minted and saved. */
  predicate InHand(s: Stores, identityHash: string, world: World) {
    && world.firstRead && world.secondRead
    && (Reusable(s, identityHash, world) || (world.minted != Rejected && world.saves))
  }

  /**
   setIdentity: the stored token is kept exactly when it is usable and of the identity asked for, and else replaced by
   the minted one; what is mirrored and subscribed is the token then stored. Short of a token nothing changes.
   */
  lemma SignInReaches(s: Stores, identityHash: string, configID: string, world: World, d: Done)
    requires d == JobDone(s, SetIdentity(identityHash), configID, world)
    ensures d.ok <==>
            && InHand(s, identityHash, world) && world.deviceToken != Rejected
            && (world.deviceToken.value == None || (world.subscribes && world.writesLastSent))
    ensures !InHand(s, identityHash, world) ==> d.stores == s
    ensures InHand(s, identityHash, world) ==>
              && d.stores.stored == (if Reusable(s, identityHash, world) then s.stored else Some(world.minted.value))
              && d.stores.mirrored == (if world.mirrors then Some(d.stores.stored.value.jwt) else s.mirrored)
    ensures d.ok && world.deviceToken.value == None ==> d.stores.subscribed == s.subscribed
    ensures d.ok && world.deviceToken.value != None ==>
              var token := world.deviceToken.value.value;
              && d.stores.subscribed == s.subscribed + [Subscription(token, d.stores.stored.value.jwt, world.info)]
              && d.stores.recorded ==
                 (if world.records then Some(Fingerprint(token, configID, world.info)) else s.recorded)
  {
  }

  /** Whoever signs in is who is stored, mirrored and subscribed, provided tokens are minted for who asks. */
  lemma SignedInAsAsked(s: Stores, identityHash: string, configID: string, world: World, d: Done)
    requires d == JobDone(s, SetIdentity(identityHash), configID, world) && d.ok
    requires world.minted.Fulfilled? ==> world.minted.value.identityHash == identityHash
    ensures d.stores.stored.Some? && d.stores.stored.value.identityHash == identityHash
    ensures world.mirrors ==> d.stores.mirrored == Some(d.stores.stored.value.jwt)
    ensures world.deviceToken.value.Some? ==>
              && d.stores.subscribed != []
              && d.stores.subscribed[|d.stores.subscribed| - 1].jwt == d.stores.stored.value.jwt
              && d.stores.subscribed[|d.stores.subscribed| - 1].token == world.deviceToken.value.value
  {
    SignInReaches(s, identityHash, configID, world, d);
  }

  /** removeIdentity: the mirror goes first, then the JWT, then the records; each failure leaves what is behind it. */
  lemma SignOutReaches(s: Stores, configID: string, world: World, d: Done)
    requires d == JobDone(s, RemoveIdentity, configID, world)
    ensures d.ok <==> world.deviceToken != Rejected && world.firstRead && world.deletes && world.clearsLastSent
    ensures d.stores.subscribed == s.subscribed
    ensures world.deviceToken == Rejected || !world.firstRead ==> d.stores == s
    ensures world.deviceToken != Rejected && world.firstRead ==>
              && d.stores.mirrored == (if world.mirrors then None else s.mirrored)
              && d.stores.stored == (if world.deletes then None else s.stored)
    ensures d.stores.recorded == if d.ok && world.clearsFingerprint then None else s.recorded
  {
  }

  /** The two credential jobs of `initialize`: one mirrors a stored JWT,
      the other clears the mirror if there is none. */
  lemma LaunchReaches(s: Stores, configID: string, world: World)
    ensures JobDone(s, Mirror, configID, world).stores ==
            if world.firstRead && world.mirrors && s.stored != None then s.(mirrored := Some(s.stored.value.jwt)) else s
    ensures JobDone(s, ClearIfSignedOut, configID, world).stores ==
            if world.firstRead && world.mirrors && s.stored == None then s.(mirrored := None) else s
    ensures JobDone(s, ClearIfSignedOut, configID, world).ok == world.firstRead
    ensures JobDone(s, Mirror, configID, world).ok
  {
  }

  // ----- Stored and mirrored credentials agree -----

  predicate Consistent(s: Stores) {
    s.mirrored.None? || (s.stored.Some? && s.mirrored == Some(s.stored.value.jwt))
  }

  /** Mirroring the stored credential, if any, would make the two agree. */
  predicate Backed(s: Stores) {
    s.stored.Some? || s.mirrored.None?
  }

  predicate WritesSucceed(events: seq<Event>) {
    forall e :: e in events && e.Settle? ==> e.world.mirrors
  }

  /** A signed-in account already agrees, so nothing needs clearing for it. */
  predicate Cleanable(s: Stores) {
    s.stored.None? || Consistent(s)
  }

  predicate Queued(s: State, job: Job) {
    job in s.waiting || s.active == Some(job)
  }

  predicate Agrees(s: State) {
    && (Queued(s, Mirror) || true in s.tokenReads ==> Backed(s.stores))
    && (Queued(s, ClearIfSignedOut) || false in s.tokenReads ==> Cleanable(s.stores))
    && (s.credentialed ==> Consistent(s.stores))
  }

  lemma JobKeepsAgreement(s: Stores, job: Job, configID: string, world: World)
    requires world.mirrors
    ensures var after := JobDone(s, job, configID, world).stores;
            && (Backed(s) ==> Backed(after))
            && (Cleanable(s) ==> Cleanable(after))
            && (Consistent(s) ==> Consistent(after))
            && (Credentials(job, world) && (if job.Mirror? then Backed(s) else Cleanable(s)) ==> Consistent(after))
  {
  }

  lemma StepKeepsAgreement(s: State, event: Event, configID: string)
    requires Agrees(s) && (event.Settle? ==> event.world.mirrors)
    ensures Agrees(Step(s, event, configID))
  {
    match event
    case InitQueue(i) =>
      if i < |s.tokenReads| {
        var rest := RemoveAt(s.tokenReads, i);
        assert forall b :: b in rest ==> b in s.tokenReads;
        assert s.tokenReads[i] in s.tokenReads;
      }
    case Settle(world) =>
      if s.active.Some? {
        JobKeepsAgreement(s.stores, s.active.value, configID, world);
      }
    case _ =>
  }

  /**
   In every run in which native mirror writes succeed, from any stores: once the job `initialize` queued for the
   credential has run, the mirrored credential is null or the stored JWT whenever no job is running.
   */
  lemma {:induction false} MirroredIsStored(stores: Stores, events: seq<Event>, configID: string)
    requires WritesSucceed(events)
    ensures Agrees(Run(Launched(stores), events, configID))
    ensures Run(Launched(stores), events, configID).credentialed ==>
              Consistent(Run(Launched(stores), events, configID).stores)
    decreases |events|
  {
    if events != [] {
      var before, last := events[..|events| - 1], events[|events| - 1];
      assert events == before + [last];
      MirroredIsStored(stores, before, configID);
      StepKeepsAgreement(Run(Launched(stores), before, configID), last, configID);
    }
  }

  // ----- After removeIdentity -----

  /** Nobody signs in, and no job is cut short. */
  predicate Quiet(events: seq<Event>) {
    forall e :: e in events ==> !e.SignIn? && !e.Crash?
  }

  predicate SignsIn(s: State) {
    (exists j :: j in s.waiting && j.SetIdentity?) || (s.active.Some? && s.active.value.SetIdentity?)
  }

  predicate SignedOut(s: State) {
    s.stores.stored.None? && s.stores.mirrored.None? && !SignsIn(s)
  }

  lemma StepKeepsSignedOut(s: State, event: Event, configID: string)
    requires SignedOut(s) && !event.SignIn? && !event.Crash?
    ensures SignedOut(Step(s, event, configID))
  {
  }

  lemma {:induction false} StaysSignedOut(s: State, events: seq<Event>, configID: string)
    requires SignedOut(s) && Quiet(events)
    ensures SignedOut(Run(s, events, configID))
    decreases |events|
  {
    if events != [] {
      var before, last := events[..|events| - 1], events[|events| - 1];
      assert events == before + [last];
      StaysSignedOut(s, before, configID);
      StepKeepsSignedOut(Run(s, before, configID), last, configID);
    }
  }

  const ALL_FULFIL: World := World(
    true, true, true, Rejected, true, true, Fulfilled(None), None, true, true, true, true, true, true, true)

  /** The next launch, its token read, and the job it queues. */
  function NextLaunch(): seq<Event> {
    [Relaunch, InitRead, InitQueue(0), Start, Settle(ALL_FULFIL)]
  }

  lemma NextLaunchMirrors(s: State, configID: string)
    requires s.active.None? && s.stores.stored.Some?
    ensures Run(s, NextLaunch(), configID).stores.mirrored == Some(s.stores.stored.value.jwt)
  {
    var s1 := Step(s, Relaunch, configID);
    var s2 := Step(s1, InitRead, configID);
    var s3 := Step(s2, InitQueue(0), configID);
    var s4 := Step(s3, Start, configID);
    var s5 := Step(s4, Settle(ALL_FULFIL), configID);
    assert s2.tokenReads == [true];
    assert s3.waiting == [Mirror];
    RunTwo(s, Relaunch, InitRead, configID);
    RunTwo(s2, InitQueue(0), Start, configID);
    RunAppend(s, [Relaunch, InitRead], [InitQueue(0), Start], configID);
    RunAppend(s, [Relaunch, InitRead, InitQueue(0), Start], [Settle(ALL_FULFIL)], configID);
    assert [Relaunch, InitRead] + [InitQueue(0), Start] == [Relaunch, InitRead, InitQueue(0), Start];
    assert [Relaunch, InitRead, InitQueue(0), Start] + [Settle(ALL_FULFIL)] == NextLaunch();
    assert Run(s4, [Settle(ALL_FULFIL)], configID) == Step(Run(s4, [], configID), Settle(ALL_FULFIL), configID) by {
      assert [Settle(ALL_FULFIL)][..0] == [];
    }
  }

  /**
   After a removeIdentity job whose reads and mirror write succeeded, and with no setIdentity behind it, the
   mirrored credential stays null until the next setIdentity exactly when the stored JWT is gone: its deletion
   succeeded or there was none. When the deletion fails, the next launch mirrors the JWT back.
   */
  lemma StaysRemovedIff(s: State, world: World, configID: string)
    requires s.active == Some(RemoveIdentity) && !SignsIn(s)
    requires world.firstRead && world.deviceToken.Fulfilled? && world.mirrors
    ensures var after := Step(s, Settle(world), configID);
            && after.stores.mirrored.None?
            && ((forall events :: Quiet(events) ==> Run(after, events, configID).stores.mirrored.None?)
                <==> world.deletes || s.stores.stored.None?)
  {
    var after := Step(s, Settle(world), configID);
    if world.deletes || s.stores.stored.None? {
      forall events | Quiet(events)
        ensures Run(after, events, configID).stores.mirrored.None?
      {
        StaysSignedOut(after, events, configID);
      }
    } else {
      NextLaunchMirrors(after, configID);
      assert Quiet(NextLaunch());
    }
  }

  // ----- Checks -----

  /** The token a check would subscribe; None when it has nothing to subscribe on behalf of. */
  function Checked(s: Stores, token: Option<string>, world: World): Option<string> {
    if !world.firstRead || s.stored.None? then None
    else if token.Some? then token
    else if world.deviceToken.Rejected? then None
    else world.deviceToken.value
  }

  /**
   A check issues Subscribe exactly when there is an identity and a token and the fingerprint differs from the
   recorded one, or that one cannot be read; and never more than one, with the stored JWT.
   */
  lemma CheckSubscribesIff(s: Stores, token: Option<string>, configID: string, world: World)
    ensures var after := CheckDone(s, token, configID, world).stores.subscribed;
            var chosen := Checked(s, token, world);
            if chosen.Some?
               && (!world.fingerprintRead || s.recorded != Some(Fingerprint(chosen.value, configID, world.info)))
            then after == s.subscribed + [Subscription(chosen.value, s.stored.value.jwt, world.info)]
            else after == s.subscribed
  {
  }

  /** Everything a check needs fulfils, and native answers `info`. */
  predicate Answers(world: World, info: Option<DeviceInfo>) {
    world.firstRead && world.fingerprintRead && world.subscribes && world.writesLastSent && world.records
    && world.info == info
  }

  function Checks(s: Stores, token: string, configID: string, worlds: seq<World>): Stores {
    if worlds == [] then s
    else
      CheckDone(Checks(s, token, configID, worlds[..|worlds| - 1]), Some(token), configID, worlds[|worlds| - 1]).stores
  }

  /** How often the fingerprint changes along a list of device infos, from the recorded one on. */
  function Changes(recorded: Option<Fingerprint>, token: string, configID: string, worlds: seq<World>): nat {
    if worlds == [] then 0
    else
      var before := worlds[..|worlds| - 1];
      var last := if before == [] then recorded else Some(Fingerprint(token, configID, before[|before| - 1].info));
      Changes(recorded, token, configID, before)
      + (if last == Some(Fingerprint(token, configID, worlds[|worlds| - 1].info)) then 0 else 1)
  }

  /** A series of checks costs exactly one Subscribe per change, however many checks ran. */
  lemma {:induction false} OneSubscribePerChange(s: Stores, token: string, configID: string, worlds: seq<World>)
    requires s.stored.Some? && forall w :: w in worlds ==> Answers(w, w.info)
    ensures var after := Checks(s, token, configID, worlds);
            && |after.subscribed| == |s.subscribed| + Changes(s.recorded, token, configID, worlds)
            && after.recorded == (if worlds == [] then s.recorded
                                  else Some(Fingerprint(token, configID, worlds[|worlds| - 1].info)))
            && after.stored == s.stored
    decreases |worlds|
  {
    if worlds != [] {
      OneSubscribePerChange(s, token, configID, worlds[..|worlds| - 1]);
      assert worlds[|worlds| - 1] in worlds;
    }
  }
}

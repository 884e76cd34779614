/**
 The serialised identity jobs of src/index.tsx as a value: what each job does to the stored JWT, the mirrored
 credential and the recorded fingerprint, given how its asynchronous calls end.
 */
module IdentitySpec {
  import opened Common

  /** A minted token: the JWT and the hash of the identity it was minted for. */
  datatype Auth = Auth(jwt: string, identityHash: string)

  datatype DeviceInfo = DeviceInfo(
    installationId: string, sdkVersion: string, osVersion: string, bundleId: string, backgroundService: string)

  /** The fingerprint record, as the values it serialises. */
  datatype Fingerprint = Fingerprint(token: string, configID: string, info: Option<DeviceInfo>)

  datatype Subscription = Subscription(token: string, jwt: string, info: Option<DeviceInfo>)

  /** A promise: fulfilled with a value, or rejected. */
  datatype Answer<+T> = Fulfilled(value: T) | Rejected

  datatype Job =
    | SetIdentity(identityHash: string)
    | RemoveIdentity
    | Mirror
    | ClearIfSignedOut
    | Check(token: Option<string>)

  /**
   How the calls of one job end. `cacheUsable`: the stored token is for this configuration and has not expired;
   `minted`: the token service's answer. The remaining flags are writes that fulfil.
   */
  datatype World = World(
    firstRead: bool, secondRead: bool, cacheUsable: bool, minted: Answer<Auth>, saves: bool,
    mirrors: bool, deviceToken: Answer<Option<string>>, info: Option<DeviceInfo>, fingerprintRead: bool,
    subscribes: bool, writesLastSent: bool, records: bool, deletes: bool, clearsLastSent: bool,
    clearsFingerprint: bool)

  /** What outlives the process. `subscribed` is the list of Subscribe calls made, newest last. */
  datatype Stores = Stores(
    stored: Option<Auth>, mirrored: Option<string>, recorded: Option<Fingerprint>, subscribed: seq<Subscription>)

  datatype Done = Done(stores: Stores, ok: bool)

  // ----- The jobs -----

  function Mirrored(s: Stores, credential: Option<string>, world: World): Stores {
    if world.mirrors then s.(mirrored := credential) else s
  }

  predicate SubscribesNow(s: Stores, fingerprint: Fingerprint, onlyIfChanged: bool, world: World) {
    !onlyIfChanged || !world.fingerprintRead || s.recorded != Some(fingerprint)
  }

  function SubscribeWith(s: Stores, token: string, jwt: string, configID: string, onlyIfChanged: bool, world: World)
    : Done
  {
    var fingerprint := Fingerprint(token, configID, world.info);
    if !SubscribesNow(s, fingerprint, onlyIfChanged, world) then Done(s, true)
    else
      var sent := s.(subscribed := s.subscribed + [Subscription(token, jwt, world.info)]);
      if !world.subscribes || !world.writesLastSent then Done(sent, false)
      else Done(if world.records then sent.(recorded := Some(fingerprint)) else sent, true)
  }

  /** `generateToken`: the cached token, or a minted one once it is saved. */
  function Generated(s: Stores, identityHash: string, world: World): Answer<Auth> {
    if !world.secondRead then Rejected
    else if s.stored.Some? && world.cacheUsable && s.stored.value.identityHash == identityHash
    then Fulfilled(s.stored.value)
    else if world.minted.Rejected? || !world.saves then Rejected
    else world.minted
  }

  function SetIdentityDone(s: Stores, identityHash: string, configID: string, world: World): Done {
    if !world.firstRead then Done(s, false)
    else
      var token := Generated(s, identityHash, world);
      if token.Rejected? then Done(s, false)
      else
        var held := Mirrored(s.(stored := Some(token.value)), Some(token.value.jwt), world);
        if world.deviceToken.Rejected? then Done(held, false)
        else if world.deviceToken.value.None? then Done(held, true)
        else SubscribeWith(held, world.deviceToken.value.value, token.value.jwt, configID, false, world)
  }

  function RemoveIdentityDone(s: Stores, world: World): Done {
    if world.deviceToken.Rejected? || !world.firstRead then Done(s, false)
    else
      var cleared := Mirrored(s, None, world);
      if !world.deletes then Done(cleared, false)
      else
        var out := cleared.(stored := None);
        if !world.clearsLastSent then Done(out, false)
        else Done(if world.clearsFingerprint then out.(recorded := None) else out, true)
  }

  function MirrorDone(s: Stores, world: World): Done {
    if world.firstRead && s.stored.Some? then Done(Mirrored(s, Some(s.stored.value.jwt), world), true)
    else Done(s, true)
  }

  function ClearIfSignedOutDone(s: Stores, world: World): Done {
    if !world.firstRead then Done(s, false)
    else Done(if s.stored.None? then Mirrored(s, None, world) else s, true)
  }

  function CheckDone(s: Stores, token: Option<string>, configID: string, world: World): Done {
    if !world.firstRead then Done(s, false)
    else if s.stored.None? then Done(s, true)
    else if token.None? && world.deviceToken.Rejected? then Done(s, false)
    else
      var chosen := if token.Some? then token else world.deviceToken.value;
      if chosen.None? then Done(s, true)
      else SubscribeWith(s, chosen.value, s.stored.value.jwt, configID, true, world)
  }

  function JobDone(s: Stores, job: Job, configID: string, world: World): Done {
    match job
    case SetIdentity(identityHash) => SetIdentityDone(s, identityHash, configID, world)
    case RemoveIdentity => RemoveIdentityDone(s, world)
    case Mirror => MirrorDone(s, world)
    case ClearIfSignedOut => ClearIfSignedOutDone(s, world)
    case Check(token) => CheckDone(s, token, configID, world)
  }

  // ----- The queue around them -----

  /**
   `tokenReads`: what the token reads of `initialize` saw, each still to queue its job. `credentialed`: since this
   process started, such a job has run with its read and its write fulfilled.
   */
  datatype State = State(
    stores: Stores, submitted: seq<Job>, started: seq<Job>, active: Option<Job>, waiting: seq<Job>,
    tokenReads: seq<bool>, credentialed: bool)

  datatype Event =
    | SignIn(identityHash: string)
    | SignOut
    | Recheck(token: Option<string>)
    | InitRead
    | InitQueue(read: nat)
    | Start
    | Settle(world: World)
    | Relaunch
    | Crash(left: Stores)

  function Launched(stores: Stores): State {
    State(stores, [], [], None, [], [], false)
  }

  function Submitted(s: State, job: Job): State {
    s.(submitted := s.submitted + [job], waiting := s.waiting + [job])
  }

  predicate Credentials(job: Job, world: World) {
    (job.Mirror? || job.ClearIfSignedOut?) && world.firstRead && world.mirrors
  }

  /** The queue goes on whatever the job's outcome. */
  function SettledWith(s: State, done: Done, credentials: bool): State {
    s.(stores := done.stores, active := None, credentialed := s.credentialed || credentials)
  }

  /**
   `SignIn`, `SignOut` and `Recheck` are setIdentity, removeIdentity and the device checks queueing their job.
   `Crash` leaves the stores however a job cut short left them; `Relaunch` ends the process between jobs.
   */
  function Step(s: State, event: Event, configID: string): State {
    match event
    case SignIn(identityHash) => Submitted(s, SetIdentity(identityHash))
    case SignOut => Submitted(s, RemoveIdentity)
    case Recheck(token) => Submitted(s, Check(token))
    case InitRead => s.(tokenReads := s.tokenReads + [s.stores.stored.Some?])
    case InitQueue(i) =>
      if i < |s.tokenReads|
      then Submitted(s.(tokenReads := RemoveAt(s.tokenReads, i)),
                     if s.tokenReads[i] then Mirror else ClearIfSignedOut)
      else s
    case Start =>
      if s.active.None? && s.waiting != []
      then s.(active := Some(s.waiting[0]), waiting := s.waiting[1..], started := s.started + [s.waiting[0]]) else s
    case Settle(world) =>
      if s.active.Some?
      then SettledWith(s, JobDone(s.stores, s.active.value, configID, world), Credentials(s.active.value, world)) else s
    case Relaunch => if s.active.None? then Launched(s.stores) else s
    case Crash(left) => Launched(left)
  }

  function Run(s: State, events: seq<Event>, configID: string): State {
    if events == [] then s else Step(Run(s, events[..|events| - 1], configID), events[|events| - 1], configID)
  }
}

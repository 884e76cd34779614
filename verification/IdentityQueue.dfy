/** The module-level state of src/index.tsx: the promise chain, and the stores its jobs write. */
module IdentityQueues {
  import opened Common
  import opened IdentitySpec
  import P = PromiseQueue
  import S = IdentitySystem

  class IdentityQueue {
    const configID: string
    var stored: Option<Auth>
    var mirrored: Option<string>
    var recorded: Option<Fingerprint>
    var subscribed: seq<Subscription>
    /** Every promise made so far; `lock` is `_subscribeLock`. */
    var promises: seq<P.Promise>
    var lock: nat
    var tokenReads: seq<bool>
    ghost var ran: seq<Job>
    ghost var credentialed: bool

    ghost function Held(): Stores
      reads this
    {
      Stores(stored, mirrored, recorded, subscribed)
    }

    ghost function Promised(): P.Chain
      reads this
    {
      P.Chain(promises, lock, ran)
    }

    ghost function View(): S.System
      reads this
    {
      S.System(Promised(), Held(), tokenReads, credentialed)
    }

    constructor (configID: string, stores: Stores)
      ensures this.configID == configID && View() == S.Fresh(stores)
    {
      this.configID := configID;
      stored, mirrored, recorded, subscribed := stores.stored, stores.mirrored, stores.recorded, stores.subscribed;
      promises, lock, tokenReads := P.UNLOCKED.promises, P.UNLOCKED.lock, [];
      ran, credentialed := [], false;
    }

    /** `runExclusive`: the result of the job behind the lock, and that result made harmless as the new lock. */
    method RunExclusive(job: Job)
      modifies this`promises, this`lock
      ensures View() == old(S.RunExclusive(View(), job))
    {
      var result := |promises|;
      promises := promises + [P.Promise(P.Then(lock, job), P.Waiting)];
      lock := |promises|;
      promises := promises + [P.Promise(P.Catch(result), P.Waiting)];
    }

    method SignIn(identityHash: string)
      modifies this`promises, this`lock
      ensures View() == old(S.Moved(View(), S.SignIn(identityHash), configID))
    {
      RunExclusive(SetIdentity(identityHash));
    }

    method SignOut()
      modifies this`promises, this`lock
      ensures View() == old(S.Moved(View(), S.SignOut, configID))
    {
      RunExclusive(RemoveIdentity);
    }

    method Recheck(token: Option<string>)
      modifies this`promises, this`lock
      ensures View() == old(S.Moved(View(), S.Recheck(token), configID))
    {
      RunExclusive(Check(token));
    }

    /** The token read of `initialize`, outside the queue. */
    method InitRead()
      modifies this`tokenReads
      ensures View() == old(S.Moved(View(), S.InitRead, configID))
    {
      tokenReads := tokenReads + [stored.Some?];
    }

    /** What `initialize` queues once the read is back. */
    method InitQueue(i: nat)
      requires i < |tokenReads|
      modifies this`promises, this`lock, this`tokenReads
      ensures View() == old(S.Moved(View(), S.InitQueue(i), configID))
    {
      var signedIn := tokenReads[i];
      tokenReads := RemoveAt(tokenReads, i);
      if signedIn {
        RunExclusive(Mirror);
      } else {
        RunExclusive(ClearIfSignedOut);
      }
    }

    /** A promise whose parent has settled reacts; a `then` on a fulfilled parent begins its job. */
    method React(p: nat)
      requires P.Ready(Promised(), p)
      modifies this`promises, this`ran
      ensures View() == old(S.Moved(View(), S.Reaction(p), configID))
    {
      match promises[p].source {
        case Then(parent, job) =>
          if promises[parent].state.Fulfilled? {
            promises := promises[p := promises[p].(state := P.Running)];
            ran := ran + [job];
          } else {
            promises := promises[p := promises[p].(state := P.Rejected)];
          }
        case Catch(parent) =>
          promises := promises[p := promises[p].(state := P.Fulfilled)];
      }
    }

    /** The job that runs for promise `p`, to its end; how it went settles the promise. */
    method Settle(p: nat, world: World) returns (ok: bool)
      requires P.IsRunning(Promised(), p)
      modifies this
      ensures View() == old(S.Moved(View(), S.Ending(p, world), configID))
      ensures ok == old(JobDone(Held(), promises[p].source.job, configID, world).ok)
    {
      var job := promises[p].source.job;
      ok := RunJob(job, world);
      promises := promises[p := promises[p].(state := if ok then P.Fulfilled else P.Rejected)];
      credentialed := credentialed || Credentials(job, world);
    }

    method RunJob(job: Job, world: World) returns (ok: bool)
      modifies this`stored, this`mirrored, this`recorded, this`subscribed
      ensures Done(Held(), ok) == old(JobDone(Held(), job, configID, world))
    {
      match job {
        case SetIdentity(identityHash) => ok := SetIdentityJob(identityHash, world);
        case RemoveIdentity => ok := RemoveIdentityJob(world);
        case Mirror => ok := MirrorJob(world);
        case ClearIfSignedOut => ok := ClearIfSignedOutJob(world);
        case Check(token) => ok := CheckJob(token, world);
      }
    }

    method SetIdentityJob(identityHash: string, world: World) returns (ok: bool)
      modifies this`stored, this`mirrored, this`recorded, this`subscribed
      ensures Done(Held(), ok) == old(SetIdentityDone(Held(), identityHash, configID, world))
    {
      if !world.firstRead {
        return false;
      }
      var token := GenerateToken(identityHash, world);
      if token.Rejected? {
        return false;
      }
      MirrorCredential(Some(token.value.jwt), world);
      if world.deviceToken.Rejected? {
        return false;
      }
      if world.deviceToken.value.None? {
        return true;
      }
      ok := SubscribeWith(world.deviceToken.value.value, token.value.jwt, false, world);
    }

    method GenerateToken(identityHash: string, world: World) returns (token: Answer<Auth>)
      modifies this`stored
      ensures token == old(Generated(Held(), identityHash, world))
      ensures stored == if token.Fulfilled? then Some(token.value) else old(stored)
    {
      if !world.secondRead {
        return Rejected;
      }
      if stored.Some? && world.cacheUsable && stored.value.identityHash == identityHash {
        return Fulfilled(stored.value);
      }
      if world.minted.Rejected? {
        return Rejected;
      }
      if !world.saves {
        return Rejected;
      }
      stored := Some(world.minted.value);
      token := world.minted;
    }

    method RemoveIdentityJob(world: World) returns (ok: bool)
      modifies this`stored, this`mirrored, this`recorded
      ensures Done(Held(), ok) == old(RemoveIdentityDone(Held(), world))
    {
      if world.deviceToken.Rejected? || !world.firstRead {
        return false;
      }
      MirrorCredential(None, world);
      if !world.deletes {
        return false;
      }
      stored := None;
      if !world.clearsLastSent {
        return false;
      }
      if world.clearsFingerprint {
        recorded := None;
      }
      ok := true;
    }

    method MirrorJob(world: World) returns (ok: bool)
      modifies this`mirrored
      ensures Done(Held(), ok) == old(MirrorDone(Held(), world))
    {
      ok := true;
      if !world.firstRead || stored.None? {
        return;
      }
      MirrorCredential(Some(stored.value.jwt), world);
    }

    method ClearIfSignedOutJob(world: World) returns (ok: bool)
      modifies this`mirrored
      ensures Done(Held(), ok) == old(ClearIfSignedOutDone(Held(), world))
    {
      if !world.firstRead {
        return false;
      }
      if stored.None? {
        MirrorCredential(None, world);
      }
      ok := true;
    }

    method CheckJob(token: Option<string>, world: World) returns (ok: bool)
      modifies this`recorded, this`subscribed
      ensures Done(Held(), ok) == old(CheckDone(Held(), token, configID, world))
    {
      if !world.firstRead {
        return false;
      }
      if stored.None? {
        return true;
      }
      var chosen := token;
      if token.None? {
        if world.deviceToken.Rejected? {
          return false;
        }
        chosen := world.deviceToken.value;
      }
      if chosen.None? {
        return true;
      }
      ok := SubscribeWith(chosen.value, stored.value.jwt, true, world);
    }

    method SubscribeWith(token: string, jwt: string, onlyIfChanged: bool, world: World) returns (ok: bool)
      modifies this`recorded, this`subscribed
      ensures Done(Held(), ok) == old(IdentitySpec.SubscribeWith(Held(), token, jwt, configID, onlyIfChanged, world))
    {
      var fingerprint := Fingerprint(token, configID, world.info);
      if onlyIfChanged && world.fingerprintRead && recorded == Some(fingerprint) {
        return true;
      }
      subscribed := subscribed + [Subscription(token, jwt, world.info)];
      if !world.subscribes || !world.writesLastSent {
        return false;
      }
      if world.records {
        recorded := Some(fingerprint);
      }
      ok := true;
    }

    /** Tells native the credential to mirror, or to drop it; a failure is only logged. */
    method MirrorCredential(credential: Option<string>, world: World)
      modifies this`mirrored
      ensures Held() == old(Mirrored(Held(), credential, world))
    {
      if world.mirrors {
        mirrored := credential;
      }
    }
  }
}

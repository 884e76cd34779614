/**
 The identity jobs behind the promise chain, and why the plain queue of `IdentitySpec` describes them: every step of
 the chain is a step of the queue, or none.
 */
module IdentitySystem {
  import opened Common
  import I = IdentitySpec
  import opened PromiseQueue
  import Runs = IdentityRuns

  /** The module-level state of src/index.tsx, with what outlives it. */
  datatype System = System(chain: Chain, stores: I.Stores, tokenReads: seq<bool>, credentialed: bool)

  datatype Move =
    | SignIn(identityHash: string)
    | SignOut
    | Recheck(token: Option<string>)
    | InitRead
    | InitQueue(read: nat)
    | Reaction(at: nat)
    | Ending(ended: nat, world: I.World)
    | Relaunch
    | Crash(left: I.Stores)

  function Fresh(stores: I.Stores): System {
    System(UNLOCKED, stores, [], false)
  }

  function RunExclusive(s: System, job: Job): System {
    s.(chain := Called(s.chain, job))
  }

  predicate Busy(c: Chain) {
    exists p :: 0 <= p < |c.promises| && IsRunning(c, p)
  }

  /** A job's ending settles its promise with how it went; nothing else of it reaches the chain. */
  function Ended(s: System, p: nat, world: I.World, configID: string): System {
    if !IsRunning(s.chain, p) then s
    else
      var job := s.chain.promises[p].source.job;
      EndedWith(s, p, I.JobDone(s.stores, job, configID, world), I.Credentials(job, world))
  }

  function EndedWith(s: System, p: nat, done: I.Done, credentials: bool): System {
    System(Finished(s.chain, p, done.ok), done.stores, s.tokenReads, s.credentialed || credentials)
  }

  function Moved(s: System, move: Move, configID: string): System {
    match move
    case SignIn(identityHash) => RunExclusive(s, I.SetIdentity(identityHash))
    case SignOut => RunExclusive(s, I.RemoveIdentity)
    case Recheck(token) => RunExclusive(s, I.Check(token))
    case InitRead => s.(tokenReads := s.tokenReads + [s.stores.stored.Some?])
    case InitQueue(i) =>
      if i < |s.tokenReads|
      then RunExclusive(s.(tokenReads := RemoveAt(s.tokenReads, i)),
          if s.tokenReads[i] then I.Mirror else I.ClearIfSignedOut)
      else s
    case Reaction(p) => s.(chain := Reacted(s.chain, p))
    case Ending(p, world) => Ended(s, p, world, configID)
    case Relaunch => if Busy(s.chain) then s else Fresh(s.stores)
    case Crash(left) => Fresh(left)
  }

  function RunSystem(s: System, moves: seq<Move>, configID: string): System {
    if moves == [] then s
    else Moved(RunSystem(s, moves[..|moves| - 1], configID), moves[|moves| - 1], configID)
  }

  // ----- The queue it refines -----

  /** The jobs called and not begun, as a queue; the one begun and not ended, as the active job. */
  function QueueOf(s: System, f: nat): I.State
    requires Inv(s.chain, f)
  {
    var all := JobsOf(s.chain.promises);
    I.State(s.stores, all, s.chain.ran,
            if IsRunning(s.chain, f) then Some(s.chain.promises[f].source.job) else None,
            if |s.chain.ran| <= |all| then all[|s.chain.ran|..] else [],
            s.tokenReads, s.credentialed)
  }

  lemma RanIsPrefix(c: Chain, f: nat)
    requires Inv(c, f)
    ensures c.ran <= JobsOf(c.promises)
  {
    JobsOfPrefix(c.promises, if IsRunning(c, f) then f + 1 else f);
  }

  /** What the queue does when the system moves: a reaction is the start of a job or nothing. */
  function Shadow(s: System, move: Move): seq<I.Event> {
    match move
    case SignIn(identityHash) => [I.SignIn(identityHash)]
    case SignOut => [I.SignOut]
    case Recheck(token) => [I.Recheck(token)]
    case InitRead => [I.InitRead]
    case InitQueue(i) => [I.InitQueue(i)]
    case Reaction(p) => if Ready(s.chain, p) && s.chain.promises[p].source.Then? then [I.Start] else []
    case Ending(p, world) => if IsRunning(s.chain, p) then [I.Settle(world)] else []
    case Relaunch => [I.Relaunch]
    case Crash(left) => [I.Crash(left)]
  }

  lemma RunOne(q: I.State, event: I.Event, configID: string)
    ensures I.Run(q, [event], configID) == I.Step(q, event, configID)
  {
    assert [event][..0] == [];
  }

  lemma BusyIff(c: Chain, f: nat)
    requires Inv(c, f)
    ensures Busy(c) <==> IsRunning(c, f)
  {
  }

  lemma CallRefines(s: System, job: Job, f: nat)
    requires Inv(s.chain, f)
    ensures Inv(RunExclusive(s, job).chain, f)
    ensures QueueOf(RunExclusive(s, job), f) == I.Submitted(QueueOf(s, f), job)
  {
    CallKeepsInv(s.chain, job, f);
    RanIsPrefix(s.chain, f);
    RanIsPrefix(Called(s.chain, job), f);
    var all, ran := JobsOf(s.chain.promises), s.chain.ran;
    assert (all + [job])[|ran|..] == all[|ran|..] + [job];
    if f < |s.chain.promises| {
      assert Called(s.chain, job).promises[f] == s.chain.promises[f];
    }
  }

  lemma WaitingAtFrontier(c: Chain, f: nat)
    requires Inv(c, f) && f < |c.promises| && !IsRunning(c, f) && c.promises[f].source.Then?
    ensures |c.ran| < |JobsOf(c.promises)| && JobsOf(c.promises)[|c.ran|] == c.promises[f].source.job
  {
    TakeOneMore(c.promises, f);
    JobsOfPrefix(c.promises, f + 1);
  }

  /** The queue's step, given the system's, from frontier `f` to frontier `next`. */
  predicate Refines(s: System, move: Move, f: nat, next: nat, configID: string) {
    && Inv(s.chain, f) && Inv(Moved(s, move, configID).chain, next)
    && I.Run(QueueOf(s, f), Shadow(s, move), configID) == QueueOf(Moved(s, move, configID), next)
  }

  lemma ReactionRefines(s: System, p: nat, f: nat, configID: string) returns (next: nat)
    requires Inv(s.chain, f)
    ensures Refines(s, Reaction(p), f, next, configID)
  {
    next := f;
    ReadyIff(s.chain, f, p);
    if Ready(s.chain, p) {
      FrontierReacts(s.chain, f);
      if s.chain.promises[f].source.Then? {
        StartRefines(s, f, configID);
      } else {
        CatchLeavesQueue(s, f);
        next := f + 1;
      }
    }
  }

  lemma StartRefines(s: System, f: nat, configID: string)
    requires Inv(s.chain, f) && Ready(s.chain, f) && s.chain.promises[f].source.Then?
    ensures Refines(s, Reaction(f), f, f, configID)
  {
    ReadyIff(s.chain, f, f);
    FrontierReacts(s.chain, f);
    RanIsPrefix(s.chain, f);
    WaitingAtFrontier(s.chain, f);
    RunOne(QueueOf(s, f), I.Start, configID);
    SplitsAt(JobsOf(s.chain.promises), |s.chain.ran|);
  }

  lemma SplitsAt(all: seq<Job>, n: nat)
    requires n < |all|
    ensures all[n..] != [] && all[n..][0] == all[n] && all[n..][1..] == all[n + 1..]
  {
  }

  lemma CatchLeavesQueue(s: System, f: nat)
    requires Inv(s.chain, f) && Ready(s.chain, f) && s.chain.promises[f].source.Catch?
    requires Inv(Reacted(s.chain, f), f + 1)
    ensures QueueOf(s.(chain := Reacted(s.chain, f)), f + 1) == QueueOf(s, f)
  {
    FrontierReacts(s.chain, f);
    ReadyIff(s.chain, f, f);
    assert !IsRunning(s.chain, f) && !IsRunning(Reacted(s.chain, f), f + 1);
  }

  /** However the job went, the queue is what it was with no job active. */
  lemma EndedWithRefines(s: System, p: nat, done: I.Done, credentials: bool, f: nat)
    requires Inv(s.chain, f) && IsRunning(s.chain, p)
    ensures p == f && Inv(EndedWith(s, p, done, credentials).chain, f + 1)
    ensures QueueOf(EndedWith(s, p, done, credentials), f + 1) == I.SettledWith(QueueOf(s, f), done, credentials)
  {
    FinishKeepsInv(s.chain, p, done.ok, f);
    RanIsPrefix(s.chain, f);
    assert !IsRunning(Finished(s.chain, p, done.ok), f + 1);
  }

  lemma EndingRefines(s: System, p: nat, world: I.World, f: nat, configID: string) returns (next: nat)
    requires Inv(s.chain, f)
    ensures Refines(s, Ending(p, world), f, next, configID)
  {
    next := f;
    if IsRunning(s.chain, p) {
      var job := s.chain.promises[p].source.job;
      var done := I.JobDone(s.stores, job, configID, world);
      EndedWithRefines(s, p, done, I.Credentials(job, world), f);
      next := f + 1;
      RunOne(QueueOf(s, f), I.Settle(world), configID);
      assert Moved(s, Ending(p, world), configID) == EndedWith(s, p, done, I.Credentials(job, world));
      assert I.Step(QueueOf(s, f), I.Settle(world), configID)
          == I.SettledWith(QueueOf(s, f), done, I.Credentials(job, world));
    }
  }

  lemma FreshRefines(stores: I.Stores)
    ensures Inv(Fresh(stores).chain, 1) && QueueOf(Fresh(stores), 1) == I.Launched(stores)
  {
    UnlockedInv();
  }

  lemma InitQueueRefines(s: System, i: nat, f: nat, configID: string)
    requires Inv(s.chain, f)
    ensures Refines(s, InitQueue(i), f, f, configID)
  {
    RunOne(QueueOf(s, f), I.InitQueue(i), configID);
    if i < |s.tokenReads| {
      CallRefines(s.(tokenReads := RemoveAt(s.tokenReads, i)),
                  if s.tokenReads[i] then I.Mirror else I.ClearIfSignedOut, f);
    }
  }

  lemma RelaunchRefines(s: System, f: nat, configID: string)
    requires Inv(s.chain, f)
    ensures Refines(s, Relaunch, f, if Busy(s.chain) then f else 1, configID)
  {
    RunOne(QueueOf(s, f), I.Relaunch, configID);
    BusyIff(s.chain, f);
    FreshRefines(s.stores);
  }

  lemma CrashRefines(s: System, left: I.Stores, f: nat, configID: string)
    requires Inv(s.chain, f)
    ensures Refines(s, Crash(left), f, 1, configID)
  {
    RunOne(QueueOf(s, f), I.Crash(left), configID);
    FreshRefines(left);
  }

  lemma MoveRefines(s: System, move: Move, f: nat, configID: string) returns (next: nat)
    requires Inv(s.chain, f)
    ensures Refines(s, move, f, next, configID)
  {
    next := f;
    match move
    case Reaction(p) => next := ReactionRefines(s, p, f, configID);
    case Ending(p, world) => next := EndingRefines(s, p, world, f, configID);
    case SignIn(identityHash) => HostRefines(s, move, I.SetIdentity(identityHash), f, configID);
    case SignOut => HostRefines(s, move, I.RemoveIdentity, f, configID);
    case Recheck(token) => HostRefines(s, move, I.Check(token), f, configID);
    case InitRead => RunOne(QueueOf(s, f), I.InitRead, configID);
    case InitQueue(i) => InitQueueRefines(s, i, f, configID);
    case Relaunch =>
      RelaunchRefines(s, f, configID);
      next := if Busy(s.chain) then f else 1;
    case Crash(left) =>
      CrashRefines(s, left, f, configID);
      next := 1;
  }

  /** The job a host call queues. */
  function HostJob(move: Move): Option<Job> {
    match move
    case SignIn(identityHash) => Some(I.SetIdentity(identityHash))
    case SignOut => Some(I.RemoveIdentity)
    case Recheck(token) => Some(I.Check(token))
    case _ => None
  }

  lemma HostRefines(s: System, move: Move, job: Job, f: nat, configID: string)
    requires Inv(s.chain, f)
    requires HostJob(move) == Some(job)
    ensures Refines(s, move, f, f, configID)
  {
    CallRefines(s, job, f);
    RunOne(QueueOf(s, f), Shadow(s, move)[0], configID);
  }

  function Shadows(s: System, moves: seq<Move>, configID: string): seq<I.Event> {
    if moves == [] then []
    else
      var before := moves[..|moves| - 1];
      Shadows(s, before, configID) + Shadow(RunSystem(s, before, configID), moves[|moves| - 1])
  }

  lemma {:induction false} QueueAppend(q: I.State, a: seq<I.Event>, b: seq<I.Event>, configID: string)
    ensures I.Run(q, a + b, configID) == I.Run(I.Run(q, a, configID), b, configID)
    decreases |b|
  {
    if b == [] {
      assert a + b == a;
    } else {
      QueueAppend(q, a, b[..|b| - 1], configID);
      assert (a + b)[..|a + b| - 1] == a + b[..|b| - 1];
    }
  }

  /**
   Every run of the promise chain is a run of the plain queue over the same stores: the chain's `catch`es, its
   micro-steps and the outcomes of its jobs leave no trace in it.
   */
  lemma {:induction false} ChainRefinesQueue(stores: I.Stores, moves: seq<Move>, configID: string) returns (f: nat)
    ensures var s := RunSystem(Fresh(stores), moves, configID);
            && Inv(s.chain, f)
            && QueueOf(s, f) == I.Run(I.Launched(stores), Shadows(Fresh(stores), moves, configID), configID)
    decreases |moves|
  {
    if moves == [] {
      FreshRefines(stores);
      f := 1;
    } else {
      var before := moves[..|moves| - 1];
      var s := RunSystem(Fresh(stores), before, configID);
      var g := ChainRefinesQueue(stores, before, configID);
      f := MoveRefines(s, moves[|moves| - 1], g, configID);
      QueueAppend(I.Launched(stores), Shadows(Fresh(stores), before, configID), Shadow(s, moves[|moves| - 1]),
          configID);
    }
  }

  // ----- What the queue's theorems say of the chain -----

  predicate MovesWrite(moves: seq<Move>) {
    forall m :: m in moves && m.Ending? ==> m.world.mirrors
  }

  lemma {:induction false} ShadowsWrite(s: System, moves: seq<Move>, configID: string)
    requires MovesWrite(moves)
    ensures Runs.WritesSucceed(Shadows(s, moves, configID))
    decreases |moves|
  {
    if moves != [] {
      ShadowsWrite(s, moves[..|moves| - 1], configID);
      assert moves[|moves| - 1] in moves;
    }
  }

  /**
   Over every run of the promise chain in which native mirror writes succeed, from any stores: once the credential
   job of `initialize` has run, the mirrored credential is null or the stored JWT between jobs.
   */
  lemma ChainMirrorsStored(stores: I.Stores, moves: seq<Move>, configID: string)
    requires MovesWrite(moves)
    ensures var s := RunSystem(Fresh(stores), moves, configID); s.credentialed ==> Runs.Consistent(s.stores)
  {
    var f := ChainRefinesQueue(stores, moves, configID);
    ShadowsWrite(Fresh(stores), moves, configID);
    Runs.MirroredIsStored(stores, Shadows(Fresh(stores), moves, configID), configID);
  }
}

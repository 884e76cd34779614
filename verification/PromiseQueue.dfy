/**
 `runExclusive` of src/index.tsx as the promise chain it is. A call makes two promises: the result of running `fn`
 once the lock is fulfilled (`_subscribeLock.then(fn)`), and that result with a rejection turned into fulfilment
 (`result.catch(() => {})`), which becomes the lock. Reactions run in whatever order the environment picks.
 */
module PromiseQueue {
  import I = IdentitySpec

  type Job = I.Job

  datatype PromiseState = Waiting | Running | Fulfilled | Rejected

  datatype Source = Root | Then(parent: nat, job: Job) | Catch(parent: nat)

  datatype Promise = Promise(source: Source, state: PromiseState)

  /** `lock` is the promise the next call waits for; `ran` is the history of the functions called. */
  datatype Chain = Chain(promises: seq<Promise>, lock: nat, ran: seq<Job>)

  const UNLOCKED: Chain := Chain([Promise(Root, Fulfilled)], 0, [])

  predicate Settled(p: Promise) {
    p.state.Fulfilled? || p.state.Rejected?
  }

  /** `result = lock.then(fn); lock = result.catch(() => {})`. */
  function Called(c: Chain, job: Job): Chain {
    var result := |c.promises|;
    c.(promises := c.promises + [Promise(Then(c.lock, job), Waiting), Promise(Catch(result), Waiting)],
       lock := result + 1)
  }

  /** The chain without its `catch`: `lock = lock.then(fn)`. */
  function CalledBare(c: Chain, job: Job): Chain {
    c.(promises := c.promises + [Promise(Then(c.lock, job), Waiting)], lock := |c.promises|)
  }

  /** The parent has settled, so the reaction may run. */
  predicate Ready(c: Chain, p: nat) {
    && p < |c.promises| && c.promises[p].state.Waiting? && !c.promises[p].source.Root?
    && c.promises[p].source.parent < |c.promises| && Settled(c.promises[c.promises[p].source.parent])
  }

  /** `then` calls its function on fulfilment only and passes a rejection on; `catch` fulfils either way. */
  function Reacted(c: Chain, p: nat): Chain {
    if !Ready(c, p) then c
    else
      match c.promises[p].source
      case Then(parent, job) =>
        if c.promises[parent].state.Fulfilled?
        then c.(promises := c.promises[p := c.promises[p].(state := Running)], ran := c.ran + [job])
        else c.(promises := c.promises[p := c.promises[p].(state := Rejected)])
      case Catch(_) => c.(promises := c.promises[p := c.promises[p].(state := Fulfilled)])
  }

  predicate IsRunning(c: Chain, p: nat) {
    p < |c.promises| && c.promises[p].state.Running? && c.promises[p].source.Then?
  }

  function Finished(c: Chain, p: nat, ok: bool): Chain {
    if !IsRunning(c, p) then c
    else c.(promises := c.promises[p := c.promises[p].(state := if ok then Fulfilled else Rejected)])
  }

  datatype Tick = Call(job: Job) | React(at: nat) | Finish(ended: nat, ok: bool)

  function Ticked(c: Chain, tick: Tick, guarded: bool): Chain {
    match tick
    case Call(job) => if guarded then Called(c, job) else CalledBare(c, job)
    case React(p) => Reacted(c, p)
    case Finish(p, ok) => Finished(c, p, ok)
  }

  function RunChain(c: Chain, ticks: seq<Tick>, guarded: bool): Chain {
    if ticks == [] then c
    else Ticked(RunChain(c, ticks[..|ticks| - 1], guarded), ticks[|ticks| - 1], guarded)
  }

  /** The jobs of the `then` promises, in the order the calls made them. */
  function JobsOf(promises: seq<Promise>): seq<Job> {
    if promises == [] then []
    else
      var last := promises[|promises| - 1].source;
      JobsOf(promises[..|promises| - 1]) + (if last.Then? then [last.job] else [])
  }

  lemma {:induction false} JobsOfAppend(a: seq<Promise>, b: seq<Promise>)
    ensures JobsOf(a + b) == JobsOf(a) + JobsOf(b)
    decreases |b|
  {
    if b == [] {
      assert a + b == a && JobsOf(a) + [] == JobsOf(a);
    } else {
      var front, last := b[..|b| - 1], b[|b| - 1];
      JobsOfAppend(a, front);
      assert (a + b)[..|a + b| - 1] == a + front;
      var own := if last.source.Then? then [last.source.job] else [];
      assert JobsOf(a) + (JobsOf(front) + own) == (JobsOf(a) + JobsOf(front)) + own;
    }
  }

  lemma JobsOfOne(p: Promise)
    ensures JobsOf([p]) == if p.source.Then? then [p.source.job] else []
  {
    assert [p][..0] == [];
  }

  /** A promise changing state changes no job. */
  lemma {:induction false} JobsKeep(promises: seq<Promise>, p: nat, state: PromiseState)
    requires p < |promises|
    ensures JobsOf(promises[p := promises[p].(state := state)]) == JobsOf(promises)
    decreases |promises|
  {
    var n := |promises| - 1;
    var changed := promises[p := promises[p].(state := state)];
    if p < n {
      JobsKeep(promises[..n], p, state);
      assert changed[..n] == promises[..n][p := promises[..n][p].(state := state)];
    } else {
      assert changed[..n] == promises[..n];
    }
  }

  // ----- What the chain keeps -----

  /** Calls lay out `then` and `catch` in turn, each waiting for the promise before it. */
  predicate Shape(c: Chain) {
    && c.promises != [] && c.lock == |c.promises| - 1
    && c.promises[0] == Promise(Root, Fulfilled) && !c.promises[c.lock].source.Then?
    && forall i :: 0 < i < |c.promises| ==>
         && !c.promises[i].source.Root? && c.promises[i].source.parent == i - 1
         && (c.promises[i].source.Then? <==> !c.promises[i - 1].source.Then?)
  }

  /** Everything before `f` has settled, `catch`es by fulfilment; nothing after `f` has begun. */
  predicate Frontier(c: Chain, f: nat) {
    && 0 < f <= |c.promises|
    && (forall i :: 0 <= i < f ==>
          Settled(c.promises[i]) && (!c.promises[i].source.Then? ==> c.promises[i].state.Fulfilled?))
    && (f < |c.promises| ==>
          c.promises[f].state.Waiting? || (c.promises[f].state.Running? && c.promises[f].source.Then?))
    && (forall i :: f < i < |c.promises| ==> c.promises[i].state.Waiting?)
  }

  predicate Inv(c: Chain, f: nat) {
    && Shape(c) && Frontier(c, f)
    && c.ran == JobsOf(c.promises[..if IsRunning(c, f) then f + 1 else f])
  }

  lemma TakeOneMore(promises: seq<Promise>, f: nat)
    requires f < |promises|
    ensures promises[..f + 1] == promises[..f] + [promises[f]]
    ensures JobsOf(promises[..f + 1])
         == JobsOf(promises[..f]) + (if promises[f].source.Then? then [promises[f].source.job] else [])
  {
    assert promises[..f + 1][..f] == promises[..f];
  }

  lemma CallKeepsShape(c: Chain, job: Job, f: nat)
    requires Shape(c) && Frontier(c, f)
    ensures Shape(Called(c, job)) && Frontier(Called(c, job), f)
  {
  }

  lemma CallKeepsJobs(c: Chain, job: Job, n: nat)
    requires n <= |c.promises|
    ensures Called(c, job).promises[..n] == c.promises[..n]
    ensures JobsOf(Called(c, job).promises) == JobsOf(c.promises) + [job]
  {
    var result, guard := Promise(Then(c.lock, job), Waiting), Promise(Catch(|c.promises|), Waiting);
    assert [result, guard] == [result] + [guard];
    JobsOfAppend(c.promises, [result, guard]);
    JobsOfAppend([result], [guard]);
    JobsOfOne(result);
    JobsOfOne(guard);
  }

  lemma CallKeepsInv(c: Chain, job: Job, f: nat)
    requires Inv(c, f)
    ensures Inv(Called(c, job), f)
    ensures JobsOf(Called(c, job).promises) == JobsOf(c.promises) + [job]
  {
    CallKeepsShape(c, job, f);
    CallKeepsJobs(c, job, if IsRunning(c, f) then f + 1 else f);
  }

  /** Only the frontier can react, and it always can while it waits. */
  lemma ReadyIff(c: Chain, f: nat, p: nat)
    requires Inv(c, f)
    ensures Ready(c, p) <==> p == f < |c.promises| && c.promises[p].state.Waiting?
  {
    if p < |c.promises| && p > f {
      assert c.promises[p].source.parent == p - 1;
    }
  }

  /** One promise changing state keeps the layout and everything before it. */
  lemma StateKeepsShape(c: Chain, p: nat, state: PromiseState, ran: seq<Job>)
    requires Shape(c) && 0 < p < |c.promises|
    ensures var d := c.(promises := c.promises[p := c.promises[p].(state := state)], ran := ran);
            && Shape(d) && d.promises[..p] == c.promises[..p] && JobsOf(d.promises) == JobsOf(c.promises)
            && JobsOf(d.promises[..p + 1])
               == JobsOf(c.promises[..p]) + (if c.promises[p].source.Then? then [c.promises[p].source.job] else [])
  {
    var d := c.(promises := c.promises[p := c.promises[p].(state := state)], ran := ran);
    JobsKeep(c.promises, p, state);
    assert d.promises[..p] == c.promises[..p];
    TakeOneMore(d.promises, p);
  }

  /** The next state of the frontier when it reacts. */
  lemma FrontierReacts(c: Chain, f: nat)
    requires Inv(c, f) && Ready(c, f)
    ensures var d := Reacted(c, f);
            && JobsOf(d.promises) == JobsOf(c.promises)
            && (c.promises[f].source.Then? ==>
                  IsRunning(d, f) && Inv(d, f) && d.ran == c.ran + [c.promises[f].source.job])
            && (c.promises[f].source.Catch? ==> Inv(d, f + 1) && d.ran == c.ran)
  {
    ReadyIff(c, f, f);
    assert c.promises[f].source.parent == f - 1;
    if c.promises[f].source.Then? {
      assert c.promises[f - 1].state.Fulfilled?;
      StateKeepsShape(c, f, Running, c.ran + [c.promises[f].source.job]);
    } else {
      StateKeepsShape(c, f, Fulfilled, c.ran);
      assert JobsOf(c.promises[..f]) + [] == JobsOf(c.promises[..f]);
      StepsOver(c, f, Fulfilled);
    }
  }

  /** Settling the frontier moves it on by one. */
  lemma StepsOver(c: Chain, f: nat, state: PromiseState)
    requires Shape(c) && Frontier(c, f) && f < |c.promises|
    requires state.Fulfilled? || (state.Rejected? && c.promises[f].source.Then?)
    ensures Frontier(c.(promises := c.promises[f := c.promises[f].(state := state)]), f + 1)
    ensures !IsRunning(c.(promises := c.promises[f := c.promises[f].(state := state)]), f + 1)
  {
  }

  lemma FinishKeepsInv(c: Chain, p: nat, ok: bool, f: nat)
    requires Inv(c, f) && IsRunning(c, p)
    ensures p == f && Inv(Finished(c, p, ok), f + 1)
    ensures Finished(c, p, ok).ran == c.ran && JobsOf(Finished(c, p, ok).promises) == JobsOf(c.promises)
  {
    var state := if ok then Fulfilled else Rejected;
    StateKeepsShape(c, p, state, c.ran);
    TakeOneMore(c.promises, f);
    StepsOver(c, f, state);
  }

  lemma TickKeepsInv(c: Chain, tick: Tick, f: nat) returns (next: nat)
    requires Inv(c, f)
    ensures Inv(Ticked(c, tick, true), next)
    ensures JobsOf(Ticked(c, tick, true).promises) == JobsOf(c.promises) + (if tick.Call? then [tick.job] else [])
  {
    next := f;
    assert JobsOf(c.promises) + [] == JobsOf(c.promises);
    match tick
    case Call(job) => CallKeepsInv(c, job, f);
    case React(p) =>
      ReadyIff(c, f, p);
      if Ready(c, p) {
        FrontierReacts(c, f);
        next := if c.promises[f].source.Then? then f else f + 1;
      }
    case Finish(p, ok) =>
      if IsRunning(c, p) {
        FinishKeepsInv(c, p, ok, f);
        next := f + 1;
      }
  }

  /** The jobs of a run's calls, in order. */
  function CallsOf(ticks: seq<Tick>): seq<Job> {
    if ticks == [] then []
    else CallsOf(ticks[..|ticks| - 1]) + (if ticks[|ticks| - 1].Call? then [ticks[|ticks| - 1].job] else [])
  }

  lemma UnlockedInv()
    ensures Inv(UNLOCKED, 1) && JobsOf(UNLOCKED.promises) == []
  {
    JobsOfOne(UNLOCKED.promises[0]);
    assert UNLOCKED.promises[..1] == UNLOCKED.promises;
  }

  lemma {:induction false} RunKeepsInv(ticks: seq<Tick>) returns (f: nat)
    ensures Inv(RunChain(UNLOCKED, ticks, true), f)
    ensures JobsOf(RunChain(UNLOCKED, ticks, true).promises) == CallsOf(ticks)
    decreases |ticks|
  {
    if ticks == [] {
      UnlockedInv();
      f := 1;
    } else {
      var before := RunKeepsInv(ticks[..|ticks| - 1]);
      f := TickKeepsInv(RunChain(UNLOCKED, ticks[..|ticks| - 1], true), ticks[|ticks| - 1], before);
    }
  }

  lemma {:induction false} JobsOfPrefix(promises: seq<Promise>, n: nat)
    requires n <= |promises|
    ensures JobsOf(promises[..n]) <= JobsOf(promises)
  {
    assert promises == promises[..n] + promises[n..];
    JobsOfAppend(promises[..n], promises[n..]);
  }

  // ----- What the chain promises -----

  /**
   In every run, however reactions and endings interleave: at most one function runs at a time, and functions are
   called in the order of the calls, none twice, none skipped.
   */
  lemma OneAtATimeInOrder(ticks: seq<Tick>, p: nat, q: nat)
    ensures var c := RunChain(UNLOCKED, ticks, true);
            && c.ran <= CallsOf(ticks)
            && (IsRunning(c, p) && IsRunning(c, q) ==> p == q)
  {
    var c := RunChain(UNLOCKED, ticks, true);
    var f := RunKeepsInv(ticks);
    JobsOfPrefix(c.promises, if IsRunning(c, f) then f + 1 else f);
  }

  /** No run stalls: while some call is unsettled, a function is running or the one next reaction is ready. */
  lemma NeverStalls(ticks: seq<Tick>) returns (p: nat)
    ensures var c := RunChain(UNLOCKED, ticks, true);
            (forall i :: 0 <= i < |c.promises| ==> Settled(c.promises[i])) || IsRunning(c, p) || Ready(c, p)
  {
    p := RunKeepsInv(ticks);
    ReadyIff(RunChain(UNLOCKED, ticks, true), p, p);
  }

  /** However a function ends, fulfilled or rejected, two reactions later the next call's function is running. */
  lemma RejectionNeverStops(ticks: seq<Tick>, p: nat, ok: bool)
    requires IsRunning(RunChain(UNLOCKED, ticks, true), p)
    requires p + 2 < |RunChain(UNLOCKED, ticks, true).promises|
    ensures var c := RunChain(UNLOCKED, ticks, true);
            var next := Reacted(Reacted(Finished(c, p, ok), p + 1), p + 2);
            && c.promises[p + 2].source.Then? && IsRunning(next, p + 2)
            && next.ran == c.ran + [c.promises[p + 2].source.job]
  {
    var c := RunChain(UNLOCKED, ticks, true);
    var f := RunKeepsInv(ticks);
    FinishKeepsInv(c, p, ok, f);
    NextRuns(Finished(c, p, ok), p + 1);
    assert Finished(c, p, ok).promises[p + 2] == c.promises[p + 2];
  }

  /** From a waiting `catch` at the frontier, two reactions start the function behind it. */
  lemma NextRuns(c: Chain, f: nat)
    requires Inv(c, f) && f + 1 < |c.promises| && !c.promises[f].source.Then?
    ensures var next := Reacted(Reacted(c, f), f + 1);
            IsRunning(next, f + 1) && next.ran == c.ran + [c.promises[f + 1].source.job]
  {
    ReadyIff(c, f, f);
    FrontierReacts(c, f);
    var d := Reacted(c, f);
    assert d.promises[f + 1] == c.promises[f + 1];
    assert c.promises[f + 1].source.Then?;
    ReadyIff(d, f + 1, f + 1);
    FrontierReacts(d, f + 1);
  }

  // ----- Without the catch -----

  /** Promise `r` was rejected and everything after it waits for it, directly or not. */
  predicate Poisoned(c: Chain, r: nat) {
    && r < |c.promises| && c.lock == |c.promises| - 1
    && c.promises[r].state.Rejected?
    && (forall i :: 0 <= i <= r ==> Settled(c.promises[i]))
    && forall i :: r < i < |c.promises| ==>
         && c.promises[i].source.Then? && c.promises[i].source.parent == i - 1
         && (c.promises[i].state.Waiting? || c.promises[i].state.Rejected?)
  }

  lemma PoisonStays(c: Chain, tick: Tick, r: nat)
    requires Poisoned(c, r)
    ensures Poisoned(Ticked(c, tick, false), r) && Ticked(c, tick, false).ran == c.ran
  {
    match tick
    case Call(job) =>
    case React(p) =>
      if Ready(c, p) {
        assert p > r && c.promises[p].source.parent == p - 1;
        assert !c.promises[p - 1].state.Fulfilled?;
      }
    case Finish(p, ok) =>
  }

  lemma {:induction false} PoisonStaysInRun(c: Chain, ticks: seq<Tick>, r: nat)
    requires Poisoned(c, r)
    ensures Poisoned(RunChain(c, ticks, false), r) && RunChain(c, ticks, false).ran == c.ran
    decreases |ticks|
  {
    if ticks != [] {
      PoisonStaysInRun(c, ticks[..|ticks| - 1], r);
      PoisonStays(RunChain(c, ticks[..|ticks| - 1], false), ticks[|ticks| - 1], r);
    }
  }

  /** The bare chain up to its first rejection: one `then` after another. */
  predicate BareInv(c: Chain, f: nat) {
    && c.promises != [] && c.lock == |c.promises| - 1
    && 0 < f <= |c.promises|
    && (forall i :: 0 <= i < f ==> Settled(c.promises[i]))
    && (f < |c.promises| ==> c.promises[f].state.Waiting? || c.promises[f].state.Running?)
    && (forall i :: f < i < |c.promises| ==> c.promises[i].state.Waiting?)
    && forall i :: 0 < i < |c.promises| ==> c.promises[i].source.Then? && c.promises[i].source.parent == i - 1
  }

  lemma BareCall(c: Chain, job: Job, f: nat)
    requires BareInv(c, f)
    ensures BareInv(CalledBare(c, job), f)
  {
  }

  lemma BareState(c: Chain, p: nat, state: PromiseState, ran: seq<Job>, f: nat)
    requires BareInv(c, f) && p == f < |c.promises| && !state.Waiting?
    ensures BareInv(c.(promises := c.promises[p := c.promises[p].(state := state)], ran := ran),
                    if state.Running? then f else f + 1)
  {
  }

  lemma BareStep(c: Chain, tick: Tick, f: nat) returns (next: nat)
    requires BareInv(c, f)
    ensures BareInv(Ticked(c, tick, false), next)
  {
    next := f;
    match tick
    case Call(job) => BareCall(c, job, f);
    case React(p) =>
      if Ready(c, p) {
        var d := Reacted(c, p);
        assert c.promises[p].source.parent == p - 1;
        BareState(c, p, d.promises[p].state, d.ran, f);
        next := if d.promises[p].state.Running? then f else f + 1;
      }
    case Finish(p, ok) =>
      if IsRunning(c, p) {
        BareState(c, p, if ok then Fulfilled else Rejected, c.ran, f);
        next := f + 1;
      }
  }

  lemma {:induction false} BareRun(ticks: seq<Tick>) returns (f: nat)
    ensures BareInv(RunChain(UNLOCKED, ticks, false), f)
    decreases |ticks|
  {
    if ticks == [] {
      f := 1;
    } else {
      var before := BareRun(ticks[..|ticks| - 1]);
      f := BareStep(RunChain(UNLOCKED, ticks[..|ticks| - 1], false), ticks[|ticks| - 1], before);
    }
  }

  /** The `catch` is needed: without it the first rejection is the last thing the queue ever does. */
  lemma WithoutCatchRejectionStops(ticks: seq<Tick>, p: nat, later: seq<Tick>)
    requires IsRunning(RunChain(UNLOCKED, ticks, false), p)
    ensures var rejected := Finished(RunChain(UNLOCKED, ticks, false), p, false);
            RunChain(rejected, later, false).ran == rejected.ran
  {
    var f := BareRun(ticks);
    var rejected := Finished(RunChain(UNLOCKED, ticks, false), p, false);
    assert p == f;
    PoisonStaysInRun(rejected, later, p);
  }
}

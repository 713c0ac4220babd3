/** Pool.Stop: when it returns no worker of the pool is live, and every job the pool claimed has reached a final
    state, panics included, as long as the pool's own final status writes succeed. Other pools, on this machine or
    another, may die or lose their writes. */
module Drain {
  import opened Tables
  import opened Protocol
  import opened Invariant
  import opened Preservation
  import opened MediaKind

  predicate IsWorkerOf(s: State, p: Id, pool: Id) {
    p in s.procs && s.procs[p].Worker? && s.procs[p].pool == pool
  }

  /** No worker of this pool dies and none of its final status writes fails. Failing and panicking jobs are fine,
      and nothing is said about any other pool. */
  predicate CleanFor(s: State, a: Step, pool: Id) {
    && (a.Crash? ==> !IsWorkerOf(s, a.p, pool))
    && (a.WorkStep? && a.work.WriteStatus? && IsWorkerOf(s, a.p, pool) ==> a.work.ok)
  }

  /** Workers belong to pools that were started, and a pool whose Stop returned has none. */
  ghost predicate PoolsOk(s: State) {
    && s.pools.Keys <= s.used
    && (forall p <- s.procs :: s.procs[p].Worker? ==> s.procs[p].pool in s.pools)
    && (forall pool <- s.pools :: s.pools[pool] == Stopped ==> !HasWorkers(s, pool))
  }

  /** A claimed job that is still in progress is in the hands of the worker that claimed it. */
  ghost predicate Held(s: State, c: Claim) {
    c.job in s.w.jobs && s.w.jobs[c.job].status == Processing ==>
      && c.worker in s.procs && s.procs[c.worker].Worker? && s.procs[c.worker].pool == c.pool
      && s.procs[c.worker].loop.Busy? && s.procs[c.worker].loop.job == c.job
  }

  ghost predicate NoneDropped(s: State, pool: Id) {
    forall i | 0 <= i < |s.claims| :: s.claims[i].pool == pool ==> Held(s, s.claims[i])
  }

  lemma PoolStepKeepsPools(s: State, a: PoolAct)
    requires PoolsOk(s) && PoolEnabled(s, a)
    ensures PoolsOk(ApplyPool(s, a))
  {
    var t := ApplyPool(s, a);
    forall pool | pool in t.pools && t.pools[pool] == Stopped ensures !HasWorkers(t, pool) {
      assert !HasWorkers(s, pool);
    }
  }

  lemma StepKeepsPools(s: State, a: Step)
    requires PoolsOk(s) && Enabled(s, a)
    ensures PoolsOk(Apply(s, a))
  {
    if a.PoolStep? {
      PoolStepKeepsPools(s, a.pool);
    } else {
      forall p ensures SameWorker(s, Apply(s, a), p) { WorkersStay(s, a, p); }
      SameWorkersKeepPools(s, Apply(s, a));
    }
  }

  lemma SameWorkersKeepPools(s: State, t: State)
    requires PoolsOk(s) && t.pools == s.pools && s.used <= t.used && forall p :: SameWorker(s, t, p)
    ensures PoolsOk(t)
  {
    forall p | p in t.procs && t.procs[p].Worker? ensures t.procs[p].pool in t.pools {
      assert SameWorker(s, t, p);
    }
    forall pool | pool in t.pools && t.pools[pool] == Stopped ensures !HasWorkers(t, pool) {
      assert !HasWorkers(s, pool);
      forall p | p in t.procs && t.procs[p].Worker? ensures t.procs[p].pool != pool { assert SameWorker(s, t, p); }
    }
  }

  /** No pool changes, and `p`, if a worker afterwards, was one of the same pool before. */
  ghost predicate SameWorker(s: State, t: State, p: Id) {
    && t.pools == s.pools && s.used <= t.used
    && (p in t.procs && t.procs[p].Worker? ==>
          p in s.procs && s.procs[p].Worker? && s.procs[p].pool == t.procs[p].pool)
  }

  lemma WorkMakesNoWorker(s: State, q: Id, a: WorkAct, p: Id)
    requires WorkEnabled(s, q, a)
    ensures SameWorker(s, ApplyWork(s, q, a), p)
  {
  }

  lemma HandlersMakeNoWorker(s: State, a: HandlerAct, p: Id)
    requires HandlerEnabled(s, a)
    ensures SameWorker(s, ApplyHandler(s, a), p)
  {
  }

  lemma UploadsMakeNoWorker(s: State, q: Id, a: UploadAct, p: Id)
    requires UploadEnabled(s, q, a)
    ensures SameWorker(s, ApplyUpload(s, q, a), p)
  {
  }

  /** Only StartPool makes workers. */
  lemma WorkersStay(s: State, a: Step, p: Id)
    requires Enabled(s, a) && !a.PoolStep?
    ensures SameWorker(s, Apply(s, a), p)
  {
    match a
    case WorkStep(q, b) => WorkMakesNoWorker(s, q, b, p);
    case HandlerStep(h) => HandlersMakeNoWorker(s, h, p);
    case UploadStep(q, u) => UploadsMakeNoWorker(s, q, u, p);
    case _ =>
  }

  ghost predicate GoesOn(s: State, t: State, q: Id) {
    IsBusy(s, q) && IsBusy(t, q) && t.procs[q].pool == s.procs[q].pool && t.procs[q].loop.job == s.procs[q].loop.job
  }

  lemma WorkGoesOn(s: State, p: Id, a: WorkAct, q: Id)
    requires WorkEnabled(s, p, a) && IsBusy(s, q) && !(p == q && a.WriteStatus?)
    ensures GoesOn(s, ApplyWork(s, p, a), q)
  {
  }

  lemma HandlersLetGoOn(s: State, a: HandlerAct, q: Id)
    requires HandlerEnabled(s, a) && IsBusy(s, q) && s.procs.Keys <= s.used
    ensures GoesOn(s, ApplyHandler(s, a), q)
  {
  }

  lemma UploadsLetGoOn(s: State, p: Id, a: UploadAct, q: Id)
    requires UploadEnabled(s, p, a) && IsBusy(s, q)
    ensures GoesOn(s, ApplyUpload(s, p, a), q)
  {
  }

  lemma PoolsLetGoOn(s: State, a: PoolAct, q: Id)
    requires PoolEnabled(s, a) && IsBusy(s, q) && s.procs.Keys <= s.used
    ensures GoesOn(s, ApplyPool(s, a), q)
  {
  }

  /** A busy worker keeps its job until it writes the final status. */
  lemma BusyWorkersGoOn(s: State, a: Step, q: Id)
    requires Enabled(s, a) && IsBusy(s, q) && CleanFor(s, a, s.procs[q].pool) && s.procs.Keys <= s.used
    ensures a == WorkStep(q, WriteStatus(true)) || GoesOn(s, Apply(s, a), q)
  {
    match a
    case WorkStep(p, b) => if !(p == q && b.WriteStatus?) { WorkGoesOn(s, p, b, q); }
    case HandlerStep(h) => HandlersLetGoOn(s, h, q);
    case UploadStep(p, u) => UploadsLetGoOn(s, p, u, q);
    case PoolStep(b) => PoolsLetGoOn(s, b, q);
    case _ =>
  }

  ghost predicate OnlyClaimsStart(w: World, v: World, j: Id) {
    j in v.jobs && v.jobs[j].status == Processing ==> j in w.jobs && w.jobs[j].status == Processing
  }

  lemma WorkStartsNothing(s: State, p: Id, a: WorkAct, j: Id)
    requires WorkEnabled(s, p, a)
    ensures OnlyClaimsStart(s.w, ApplyWork(s, p, a).w, j)
  {
  }

  lemma HandlersStartNothing(s: State, a: HandlerAct, j: Id)
    requires HandlerEnabled(s, a)
    ensures OnlyClaimsStart(s.w, ApplyHandler(s, a).w, j)
  {
  }

  lemma UploadsStartNothing(s: State, p: Id, a: UploadAct, j: Id)
    requires UploadEnabled(s, p, a)
    ensures OnlyClaimsStart(s.w, ApplyUpload(s, p, a).w, j)
  {
  }

  lemma OthersStartNothing(s: State, a: Step, j: Id)
    requires Enabled(s, a) && !a.UploadStep? && !a.WorkStep? && !a.HandlerStep?
    requires j in s.w.jobs ==> !IsPending(s.w, j)
    ensures OnlyClaimsStart(s.w, Apply(s, a).w, j)
  {
  }

  /** A job that was claimed earlier and is in progress after the step was in progress before it. */
  lemma StaysProcessing(s: State, a: Step, j: Id)
    requires Enabled(s, a) && !IsPending(s.w, j)
    ensures OnlyClaimsStart(s.w, Apply(s, a).w, j)
  {
    match a
    case WorkStep(p, b) => WorkStartsNothing(s, p, b, j);
    case HandlerStep(h) => HandlersStartNothing(s, h, j);
    case UploadStep(p, u) => UploadsStartNothing(s, p, u, j);
    case _ => OthersStartNothing(s, a, j);
  }

  lemma StepKeepsHolding(s: State, a: Step, c: Claim)
    requires s.procs.Keys <= s.used && Enabled(s, a) && CleanFor(s, a, c.pool)
    requires Held(s, c) && !IsPending(s.w, c.job)
    ensures Held(Apply(s, a), c)
  {
    StaysProcessing(s, a, c.job);
    if c.job in s.w.jobs && s.w.jobs[c.job].status == Processing {
      BusyWorkersGoOn(s, a, c.worker);
      if a == WorkStep(c.worker, WriteStatus(true)) {
        assert c.job in Apply(s, a).w.jobs ==> Apply(s, a).w.jobs[c.job].status != Processing;
      }
    }
  }

  /** Claims are only added, each by the worker it names, which then holds the job. */
  lemma NewClaimIsHeld(s: State, a: Step)
    requires Enabled(s, a)
    ensures var t := Apply(s, a);
      t.claims == s.claims ||
      (|t.claims| == |s.claims| + 1 && t.claims[..|s.claims|] == s.claims && Held(t, t.claims[|s.claims|]))
  {
  }

  lemma StepKeepsNoneDropped(s: State, a: Step, pool: Id)
    requires s.procs.Keys <= s.used && ClaimsOk(s) && NoneDropped(s, pool) && Enabled(s, a) && CleanFor(s, a, pool)
    ensures NoneDropped(Apply(s, a), pool)
  {
    var t := Apply(s, a);
    NewClaimIsHeld(s, a);
    forall i | 0 <= i < |t.claims| && t.claims[i].pool == pool ensures Held(t, t.claims[i]) {
      if i < |s.claims| {
        assert t.claims[i] == s.claims[i];
        StepKeepsHolding(s, a, s.claims[i]);
      }
    }
  }

  lemma {:induction false} RunKeepsPools(mimes: map<Id, MimeType>, states: seq<State>, steps: seq<Step>, i: nat)
    requires IsRun(mimes, states, steps) && i < |states|
    ensures PoolsOk(states[i])
  {
    if i > 0 {
      RunKeepsPools(mimes, states, steps, i - 1);
      StepKeepsPools(states[i - 1], steps[i - 1]);
    }
  }

  /** The first `n` steps of the run are clean for the pool. */
  ghost predicate CleanUpTo(states: seq<State>, steps: seq<Step>, pool: Id, n: nat)
    requires |states| == |steps| + 1 && n <= |steps|
  {
    forall k | 0 <= k < n :: CleanFor(states[k], steps[k], pool)
  }

  lemma DropsNothing(mimes: map<Id, MimeType>, states: seq<State>, steps: seq<Step>, i: nat, pool: Id)
    requires IsRun(mimes, states, steps) && i < |steps| && CleanFor(states[i], steps[i], pool)
    requires NoneDropped(states[i], pool)
    ensures NoneDropped(states[i + 1], pool)
  {
    RunKeepsInv(mimes, states, steps, i);
    StepKeepsNoneDropped(states[i], steps[i], pool);
  }

  lemma {:induction false} RunDropsNothing(mimes: map<Id, MimeType>, states: seq<State>, steps: seq<Step>, i: nat,
                                           pool: Id)
    requires IsRun(mimes, states, steps) && i < |states| && CleanUpTo(states, steps, pool, i)
    ensures NoneDropped(states[i], pool)
  {
    if i > 0 {
      RunDropsNothing(mimes, states, steps, i - 1, pool);
      DropsNothing(mimes, states, steps, i - 1, pool);
    }
  }

  /** Once Stop has returned, no worker of the pool is live, whatever died or failed before. */
  lemma StopLeavesNoWorkers(mimes: map<Id, MimeType>, states: seq<State>, steps: seq<Step>, i: nat, pool: Id)
    requires IsRun(mimes, states, steps) && i < |states|
    requires pool in states[i].pools && states[i].pools[pool] == Stopped
    ensures forall p <- states[i].procs :: !IsWorkerOf(states[i], p, pool)
  {
    RunKeepsPools(mimes, states, steps, i);
    assert !HasWorkers(states[i], pool);
  }

  /** Once Stop has returned, every job the pool claimed is done or failed, whatever happened to other pools. */
  lemma StopDrains(mimes: map<Id, MimeType>, states: seq<State>, steps: seq<Step>, i: nat, pool: Id)
    requires IsRun(mimes, states, steps) && i < |states| && CleanUpTo(states, steps, pool, i)
    requires pool in states[i].pools && states[i].pools[pool] == Stopped
    ensures forall c <- states[i].claims ::
      c.pool == pool && c.job in states[i].w.jobs ==> states[i].w.jobs[c.job].status in {Done, Failed}
  {
    var s := states[i];
    StopLeavesNoWorkers(mimes, states, steps, i, pool);
    RunDropsNothing(mimes, states, steps, i, pool);
    RunKeepsInv(mimes, states, steps, i);
    forall c | c in s.claims && c.pool == pool && c.job in s.w.jobs
      ensures s.w.jobs[c.job].status in {Done, Failed}
    {
      var k :| 0 <= k < |s.claims| && s.claims[k] == c;
      assert Held(s, s.claims[k]) && !IsPending(s.w, s.claims[k].job);
    }
  }
}

/** Pool.Stop comes to an end: the workers of a stopping pool only wind down, each of them can always go on, and so
    Stop can return from every state. */
module Stopping {
  import opened Text
  import opened Tables
  import opened Protocol
  import opened Queue
  import opened Drain

  ghost predicate IsStopping(s: State, pool: Id) {
    pool in s.pools && s.pools[pool] == Stopping
  }

  // ---------- Winding down ----------

  /** How far a worker is from its end: its stage, and what its transaction still has to do. */
  datatype Rank = Rank(stage: nat, left: nat)

  predicate Lower(a: Rank, b: Rank) {
    a.stage < b.stage || (a.stage == b.stage && a.left < b.left)
  }

  function Left(t: Txn): nat {
    if |t.done| < |t.Plan()| then 2 * (|t.Plan()| - |t.done|) else 0
  }

  function WorkRank(at: WorkAt): Rank {
    match at
    case Start => Rank(7, 0)
    case Absent => Rank(6, 0)
    case Loaded(_) => Rank(5, 0)
    case Ready(_) => Rank(4, 0)
    case Open(t) => Rank(3, Left(t))
    case Putting(t, _, _, _) => Rank(3, if Left(t) > 0 then Left(t) - 1 else 0)
    case Finish(_) => Rank(2, 0)
  }

  function RankOf(loop: LoopAt): Rank {
    match loop
    case Top => Rank(1, 0)
    case Waiting => Rank(2, 0)
    case Claiming => Rank(8, 0)
    case Busy(_, _, _, at) => WorkRank(at)
  }

  /** The step is taken by this worker. */
  predicate TakenBy(a: Step, p: Id) {
    match a
    case PoolStep(CheckStop(q)) => q == p
    case PoolStep(ClaimNext(q, _)) => q == p
    case PoolStep(EndWait(q)) => q == p
    case WorkStep(q, _) => q == p
    case Crash(q) => q == p
    case _ => false
  }

  /** The worker is gone, or closer to its end. */
  ghost predicate WindsDown(s: State, t: State, p: Id, pool: Id)
    requires IsWorkerOf(s, p, pool)
  {
    p in t.procs ==> IsWorkerOf(t, p, pool) && Lower(RankOf(t.procs[p].loop), RankOf(s.procs[p].loop))
  }

  lemma WorkWindsDown(s: State, p: Id, a: WorkAct, pool: Id)
    requires WorkEnabled(s, p, a) && IsWorkerOf(s, p, pool)
    ensures WindsDown(s, ApplyWork(s, p, a), p, pool)
  {
    if a.AddDerived? {
      AddWindsDown(s, p, a.file, a.size, pool);
    } else if a.PutDerived? {
      PutWindsDown(s, p, a.data, a.link, pool);
    } else {
      StageFalls(s, p, a, pool);
    }
  }

  lemma AddWindsDown(s: State, p: Id, id: Id, size: nat, pool: Id)
    requires WorkEnabled(s, p, AddDerived(id, size)) && IsWorkerOf(s, p, pool)
    ensures WindsDown(s, ApplyWork(s, p, AddDerived(id, size)), p, pool)
  {
  }

  lemma PutWindsDown(s: State, p: Id, data: Bytes, link: Id, pool: Id)
    requires WorkEnabled(s, p, PutDerived(data, link)) && IsWorkerOf(s, p, pool)
    ensures WindsDown(s, ApplyWork(s, p, PutDerived(data, link)), p, pool)
  {
  }

  lemma StageFalls(s: State, p: Id, a: WorkAct, pool: Id)
    requires WorkEnabled(s, p, a) && IsWorkerOf(s, p, pool) && !a.AddDerived? && !a.PutDerived?
    ensures WindsDown(s, ApplyWork(s, p, a), p, pool)
  {
  }

  lemma PoolWindsDown(s: State, a: PoolAct, p: Id, pool: Id)
    requires PoolEnabled(s, a) && TakenBy(PoolStep(a), p) && IsWorkerOf(s, p, pool) && IsStopping(s, pool)
    ensures WindsDown(s, ApplyPool(s, a), p, pool)
  {
  }

  /** Every step a worker of a stopping pool takes brings it closer to its end, in an order without infinite
      descent: it leaves when it looks next, and if it has just looked it may still claim one job. */
  lemma OwnStepsWindDown(s: State, a: Step, p: Id, pool: Id)
    requires Enabled(s, a) && TakenBy(a, p) && IsWorkerOf(s, p, pool) && IsStopping(s, pool)
    ensures WindsDown(s, Apply(s, a), p, pool)
  {
    match a
    case WorkStep(_, b) => WorkWindsDown(s, p, b, pool);
    case PoolStep(b) => PoolWindsDown(s, b, p, pool);
    case Crash(_) =>
  }

  /** Nobody else moves it, nobody joins the pool, and the pool goes on stopping until Stop returns. */
  ghost predicate Undisturbed(s: State, t: State, a: Step, p: Id, pool: Id) {
    && (IsWorkerOf(t, p, pool) ==> IsWorkerOf(s, p, pool))
    && (IsWorkerOf(s, p, pool) && !TakenBy(a, p) ==> p in t.procs && t.procs[p] == s.procs[p])
    && pool in t.pools && (t.pools[pool] == Stopping || a == PoolStep(ReturnStop(pool)))
  }

  lemma WorkUndisturbed(s: State, q: Id, a: WorkAct, p: Id, pool: Id)
    requires WorkEnabled(s, q, a) && IsStopping(s, pool)
    ensures Undisturbed(s, ApplyWork(s, q, a), WorkStep(q, a), p, pool)
  {
  }

  lemma HandlersUndisturbed(s: State, a: HandlerAct, p: Id, pool: Id)
    requires HandlerEnabled(s, a) && IsStopping(s, pool) && s.procs.Keys <= s.used
    ensures Undisturbed(s, ApplyHandler(s, a), HandlerStep(a), p, pool)
  {
  }

  lemma UploadsUndisturbed(s: State, q: Id, a: UploadAct, p: Id, pool: Id)
    requires UploadEnabled(s, q, a) && IsStopping(s, pool)
    ensures Undisturbed(s, ApplyUpload(s, q, a), UploadStep(q, a), p, pool)
  {
  }

  lemma PoolsUndisturbed(s: State, a: PoolAct, p: Id, pool: Id)
    requires PoolEnabled(s, a) && IsStopping(s, pool) && s.procs.Keys <= s.used && s.pools.Keys <= s.used
    ensures Undisturbed(s, ApplyPool(s, a), PoolStep(a), p, pool)
  {
  }

  lemma OthersLeaveAlone(s: State, a: Step, p: Id, pool: Id)
    requires Enabled(s, a) && IsStopping(s, pool) && s.procs.Keys <= s.used && s.pools.Keys <= s.used
    ensures Undisturbed(s, Apply(s, a), a, p, pool)
  {
    match a
    case WorkStep(q, b) => WorkUndisturbed(s, q, b, p, pool);
    case HandlerStep(h) => HandlersUndisturbed(s, h, p, pool);
    case UploadStep(q, u) => UploadsUndisturbed(s, q, u, p, pool);
    case PoolStep(b) => PoolsUndisturbed(s, b, p, pool);
    case _ =>
  }

  // ---------- Never stuck ----------

  /** What a worker can always do next, whatever the tables and the object store hold. */
  function NextStep(s: State, p: Id): Step
    requires p in s.procs && s.procs[p].Worker?
  {
    match s.procs[p].loop
    case Top => PoolStep(CheckStop(p))
    case Claiming => PoolStep(ClaimNext(p, None))
    case Waiting => PoolStep(EndWait(p))
    case Busy(_, _, _, at) => WorkStep(p, if at.Finish? then WriteStatus(true) else FailProcess(None, []))
  }

  function Distance(loop: LoopAt): nat {
    match loop
    case Top => 1
    case Waiting => 2
    case Claiming => 3
    case Busy(_, _, _, at) => if at.Finish? then 2 else 3
  }

  lemma NextStepEnabled(s: State, p: Id, pool: Id)
    requires IsWorkerOf(s, p, pool) && IsStopping(s, pool)
    ensures Enabled(s, NextStep(s, p)) && TakenBy(NextStep(s, p), p)
  {
  }

  lemma NextStepShape(s: State, p: Id, pool: Id)
    requires IsWorkerOf(s, p, pool) && IsStopping(s, pool) && Enabled(s, NextStep(s, p))
    ensures var t := Apply(s, NextStep(s, p));
      && t.pools == s.pools
      && (t.procs == s.procs - {p} ||
          (p in t.procs && t.procs == s.procs[p := t.procs[p]] && IsWorkerOf(t, p, pool)
           && Distance(t.procs[p].loop) < Distance(s.procs[p].loop)))
  {
  }

  // ---------- Stop can return ----------

  function WorkersOf(s: State, pool: Id): set<Id> {
    set p | p in s.procs && s.procs[p].Worker? && s.procs[p].pool == pool
  }

  /** From here, on steps of the pool's own workers alone, Stop comes to return. */
  ghost predicate CanReturn(s: State, pool: Id) {
    exists states, steps ::
      && IsStretch(states, steps) && states[0] == s && steps != []
      && (forall i | 0 <= i < |steps| - 1 :: OwnStep(states[i], steps[i], pool))
      && steps[|steps| - 1] == PoolStep(ReturnStop(pool))
  }

  ghost predicate OwnStep(s: State, a: Step, pool: Id) {
    exists p: Id :: IsWorkerOf(s, p, pool) && TakenBy(a, p)
  }

  lemma ReturnsNow(s: State, pool: Id)
    requires IsStopping(s, pool) && WorkersOf(s, pool) == {}
    ensures CanReturn(s, pool)
  {
    assert forall p <- s.procs :: s.procs[p].Worker? && s.procs[p].pool == pool ==> p in WorkersOf(s, pool);
    var a := PoolStep(ReturnStop(pool));
    assert Enabled(s, a);
    var states, steps := [s, Apply(s, a)], [a];
    assert IsStretch(states, steps) && states[0] == s && steps[|steps| - 1] == a;
  }

  lemma ReturnsLater(s: State, a: Step, pool: Id)
    requires Enabled(s, a) && OwnStep(s, a, pool) && CanReturn(Apply(s, a), pool)
    ensures CanReturn(s, pool)
  {
    var rest, more :| IsStretch(rest, more) && rest[0] == Apply(s, a) && more != []
      && (forall i | 0 <= i < |more| - 1 :: OwnStep(rest[i], more[i], pool))
      && more[|more| - 1] == PoolStep(ReturnStop(pool));
    StretchStarts(s, a, rest, more);
    ReturnsBy(s, a, pool, rest, more);
  }

  lemma ReturnsBy(s: State, a: Step, pool: Id, rest: seq<State>, more: seq<Step>)
    requires IsStretch([s] + rest, [a] + more) && more != [] && OwnStep(s, a, pool) && |rest| == |more| + 1
    requires forall i | 0 <= i < |more| - 1 :: OwnStep(rest[i], more[i], pool)
    requires more[|more| - 1] == PoolStep(ReturnStop(pool))
    ensures CanReturn(s, pool)
  {
    var states, steps := [s] + rest, [a] + more;
    forall i | 0 <= i < |steps| - 1 ensures OwnStep(states[i], steps[i], pool) {
      if i > 0 { assert states[i] == rest[i - 1] && steps[i] == more[i - 1]; }
    }
  }

  lemma WindDownOne(s: State, p: Id, pool: Id)
    requires IsStopping(s, pool) && p in WorkersOf(s, pool)
    ensures CanReturn(s, pool)
    decreases |WorkersOf(s, pool)|, Distance(s.procs[p].loop)
  {
    NextStepEnabled(s, p, pool);
    NextStepShape(s, p, pool);
    var a := NextStep(s, p);
    var t := Apply(s, a);
    if p in t.procs {
      assert WorkersOf(t, pool) == WorkersOf(s, pool);
      WindDownOne(t, p, pool);
    } else {
      assert WorkersOf(t, pool) == WorkersOf(s, pool) - {p};
      StopCanReturn(t, pool);
    }
    ReturnsLater(s, a, pool);
  }

  /** From every state in which the pool is stopping, whatever its workers are doing and whatever the tables hold,
      the workers' own steps can bring Stop to return. */
  lemma StopCanReturn(s: State, pool: Id)
    requires IsStopping(s, pool)
    ensures CanReturn(s, pool)
    decreases |WorkersOf(s, pool)|, 4
  {
    if WorkersOf(s, pool) == {} {
      ReturnsNow(s, pool);
    } else {
      var p :| p in WorkersOf(s, pool);
      WindDownOne(s, p, pool);
    }
  }
}

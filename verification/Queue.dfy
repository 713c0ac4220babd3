/** The media queue under interleaving: first come first served, a potential that only enqueueing
    raises, and what Pool.Stop leaves behind. */
module Queue {
  import opened Text
  import opened Tables
  import opened Protocol
  import opened Invariant
  import opened Preservation

  /** The step is a claim that returned job `j`. */
  predicate Claims(a: Step, j: Id) {
    a.PoolStep? && a.pool.ClaimNext? && a.pool.next == Some(j)
  }

  predicate IsClaim(a: Step) {
    a.PoolStep? && a.pool.ClaimNext? && a.pool.next.Some?
  }

  /** The step inserts a new job row. */
  predicate Enqueues(s: State, a: Step) {
    && a.HandlerStep? && a.handler.InsertJob? && a.handler.ok
    && a.handler.p in s.procs && s.procs[a.handler.p].Enqueue? && !HasJob(s.w, s.procs[a.handler.p].file)
  }

  // ---------- First come, first served ----------

  /** The pending jobs created before `j`. */
  function Older(w: World, j: Id): set<Id> {
    set k | k in w.jobs && j in w.jobs && IsPending(w, k) && w.jobs[k].createdAt < w.jobs[j].createdAt
  }

  /** Only an insert makes a job pending, and the new job is the youngest. */
  ghost predicate PendingIsOld(w: World, v: World, k: Id) {
    IsPending(v, k) ==>
      if k in w.jobs then IsPending(w, k) && v.jobs[k].createdAt == w.jobs[k].createdAt
      else v.jobs[k].createdAt == w.clock
  }

  lemma PendingAfterWork(s: State, p: Id, a: WorkAct, k: Id)
    requires WorkEnabled(s, p, a)
    ensures PendingIsOld(s.w, ApplyWork(s, p, a).w, k)
  {
  }

  lemma PendingAfterHandler(s: State, a: HandlerAct, k: Id)
    requires HandlerEnabled(s, a)
    ensures PendingIsOld(s.w, ApplyHandler(s, a).w, k)
  {
  }

  lemma PendingAfterUpload(s: State, p: Id, a: UploadAct, k: Id)
    requires UploadEnabled(s, p, a)
    ensures PendingIsOld(s.w, ApplyUpload(s, p, a).w, k)
  {
  }

  lemma PendingJobsAreOld(s: State, a: Step, k: Id)
    requires Enabled(s, a)
    ensures PendingIsOld(s.w, Apply(s, a).w, k)
  {
    match a
    case UploadStep(p, u) => PendingAfterUpload(s, p, u, k);
    case HandlerStep(h) => PendingAfterHandler(s, h, k);
    case WorkStep(p, b) => PendingAfterWork(s, p, b, k);
    case _ =>
  }

  /** While `j` waits, nobody overtakes it, and a claim that does not take `j` takes an older job. */
  lemma NobodyOvertakes(s: State, a: Step, j: Id)
    requires Inv(s) && Enabled(s, a) && IsPending(s.w, j) && IsPending(Apply(s, a).w, j)
    ensures Older(Apply(s, a).w, j) <= Older(s.w, j)
    ensures IsClaim(a) ==> Older(Apply(s, a).w, j) < Older(s.w, j)
  {
    var t := Apply(s, a);
    PendingJobsAreOld(s, a, j);
    assert JobOk(s.w, j);
    forall k | k in Older(t.w, j) ensures k in Older(s.w, j) {
      PendingJobsAreOld(s, a, k);
    }
    if IsClaim(a) {
      var k := a.pool.next.value;
      assert k in Older(s.w, j) && k !in Older(t.w, j);
    }
  }

  /** Successful claims among the first `n` steps. */
  function CountClaims(steps: seq<Step>, n: nat): nat
    requires n <= |steps|
  {
    if n == 0 then 0 else CountClaims(steps, n - 1) + if IsClaim(steps[n - 1]) then 1 else 0
  }

  /** A stretch of a run: consecutive states and the steps between them. */
  ghost predicate IsStretch(states: seq<State>, steps: seq<Step>) {
    && |states| == |steps| + 1
    && forall i :: 0 <= i < |steps| ==> Enabled(states[i], steps[i]) && states[i + 1] == Apply(states[i], steps[i])
  }

  lemma StretchStarts(s: State, a: Step, states: seq<State>, steps: seq<Step>)
    requires Enabled(s, a) && IsStretch(states, steps) && states[0] == Apply(s, a)
    ensures IsStretch([s] + states, [a] + steps)
  {
    forall i | 0 <= i < |[a] + steps|
      ensures Enabled(([s] + states)[i], ([a] + steps)[i])
      ensures ([s] + states)[i + 1] == Apply(([s] + states)[i], ([a] + steps)[i])
    {
      if i > 0 { assert ([s] + states)[i] == states[i - 1] && ([a] + steps)[i] == steps[i - 1]; }
    }
  }

  lemma {:induction false} StretchKeepsInv(states: seq<State>, steps: seq<Step>, i: nat)
    requires IsStretch(states, steps) && Inv(states[0]) && i < |states|
    ensures Inv(states[i])
  {
    if i > 0 {
      StretchKeepsInv(states, steps, i - 1);
      StepKeepsInv(states[i - 1], steps[i - 1]);
    }
  }

  lemma OneStepCloser(s: State, a: Step, j: Id)
    requires Inv(s) && Enabled(s, a) && IsPending(s.w, j) && IsPending(Apply(s, a).w, j)
    ensures |Older(Apply(s, a).w, j)| + (if IsClaim(a) then 1 else 0) <= |Older(s.w, j)|
  {
    NobodyOvertakes(s, a, j);
    SubsetSize(Older(Apply(s, a).w, j), Older(s.w, j));
  }

  lemma StretchStepCloser(states: seq<State>, steps: seq<Step>, j: Id, i: nat)
    requires IsStretch(states, steps) && i < |steps| && Inv(states[0])
    requires IsPending(states[i].w, j) && IsPending(states[i + 1].w, j)
    ensures |Older(states[i + 1].w, j)| + (if IsClaim(steps[i]) then 1 else 0) <= |Older(states[i].w, j)|
  {
    StretchKeepsInv(states, steps, i);
    OneStepCloser(states[i], steps[i], j);
  }

  lemma {:induction false} ClaimsWearDown(steps: seq<Step>, levels: seq<nat>, n: nat)
    requires n <= |steps| && n < |levels|
    requires forall i | 0 <= i < n :: levels[i + 1] + (if IsClaim(steps[i]) then 1 else 0) <= levels[i]
    ensures CountClaims(steps, n) + levels[n] <= levels[0]
  {
    if n > 0 {
      ClaimsWearDown(steps, levels, n - 1);
      assert levels[n - 1 + 1] == levels[n];
    }
  }

  /** Bounded waiting: as long as `j` is still pending, no more claims have succeeded than there were
      older pending jobs when it started to wait, whatever has been enqueued since. With k older jobs
      the claim number k + 1 therefore takes `j`, unless its file went away. */
  lemma WaitsForOlderJobsOnly(states: seq<State>, steps: seq<Step>, j: Id, n: nat)
    requires IsStretch(states, steps) && Inv(states[0]) && n <= |steps|
    requires forall i :: 0 <= i <= n ==> IsPending(states[i].w, j)
    ensures CountClaims(steps, n) + |Older(states[n].w, j)| <= |Older(states[0].w, j)|
  {
    var levels := seq(n + 1, i requires 0 <= i <= n => |Older(states[i].w, j)|);
    forall i | 0 <= i < n ensures levels[i + 1] + (if IsClaim(steps[i]) then 1 else 0) <= levels[i] {
      StretchStepCloser(states, steps, j, i);
    }
    ClaimsWearDown(steps, levels, n);
  }

  /** A pending job stops being pending only by being claimed or by losing its row. */
  lemma LeavesPending(s: State, a: Step, j: Id)
    requires ProcsOk(s) && s.w.jobs.Keys <= s.used && Enabled(s, a) && IsPending(s.w, j)
    requires j in Apply(s, a).w.jobs && !IsPending(Apply(s, a).w, j)
    ensures Claims(a, j)
  {
    match a
    case WorkStep(p, b) => HeldJobsAreNotPending(s, p, b, j);
    case UploadStep(p, u) => UploadsKeepPending(s, p, u, j);
    case HandlerStep(h) => HandlersKeepPending(s, h, j);
    case PoolStep(b) => if !Claims(a, j) { PoolsKeepPending(s, b, j); }
    case _ =>
  }

  lemma PoolsKeepPending(s: State, a: PoolAct, j: Id)
    requires PoolEnabled(s, a) && IsPending(s.w, j) && !Claims(PoolStep(a), j)
    ensures IsPending(ApplyPool(s, a).w, j)
  {
  }

  lemma HeldJobsAreNotPending(s: State, p: Id, a: WorkAct, j: Id)
    requires WorkEnabled(s, p, a) && ProcsOk(s) && IsPending(s.w, j)
    ensures IsPending(ApplyWork(s, p, a).w, j)
  {
    assert ProcOk(s.w, s.procs[p]);
    if a.WriteStatus? { WritesOwnJob(s, p, a.ok, j); } else { WorkKeepsPending(s, p, a, j); }
  }

  lemma WritesOwnJob(s: State, p: Id, ok: bool, j: Id)
    requires WorkEnabled(s, p, WriteStatus(ok)) && ProcOk(s.w, s.procs[p]) && IsPending(s.w, j)
    ensures IsPending(ApplyWork(s, p, WriteStatus(ok)).w, j)
  {
  }

  lemma WorkKeepsPending(s: State, p: Id, a: WorkAct, j: Id)
    requires WorkEnabled(s, p, a) && !a.WriteStatus?
    ensures IsPending(ApplyWork(s, p, a).w, j) <==> IsPending(s.w, j)
  {
  }

  lemma UploadsKeepPending(s: State, p: Id, a: UploadAct, j: Id)
    requires UploadEnabled(s, p, a) && IsPending(s.w, j)
    ensures j in ApplyUpload(s, p, a).w.jobs ==> IsPending(ApplyUpload(s, p, a).w, j)
  {
  }

  lemma HandlersKeepPending(s: State, a: HandlerAct, j: Id)
    requires HandlerEnabled(s, a) && IsPending(s.w, j) && s.w.jobs.Keys <= s.used
    ensures j in ApplyHandler(s, a).w.jobs ==> IsPending(ApplyHandler(s, a).w, j)
  {
  }

  /** Once more claims have succeeded than there were older pending jobs,
      one of them took `j`, or the row of `j` went away with its file. */
  lemma ClaimedInTurn(states: seq<State>, steps: seq<Step>, j: Id, n: nat)
    requires IsStretch(states, steps) && Inv(states[0]) && n <= |steps| && IsPending(states[0].w, j)
    requires CountClaims(steps, n) > |Older(states[0].w, j)|
    ensures exists i :: 0 <= i < n && (Claims(steps[i], j) || j !in states[i + 1].w.jobs)
  {
    if forall i :: 0 <= i <= n ==> IsPending(states[i].w, j) {
      WaitsForOlderJobsOnly(states, steps, j, n);
    } else {
      var i := 0;
      while IsPending(states[i + 1].w, j)
        invariant 0 <= i < n && IsPending(states[i].w, j)
        invariant exists k :: i < k <= n && !IsPending(states[k].w, j)
        decreases n - i
      {
        i := i + 1;
      }
      StretchKeepsInv(states, steps, i);
      if j in states[i + 1].w.jobs {
        LeavesPending(states[i], steps[i], j);
      }
    }
  }

  lemma SubsetSize(a: set<Id>, b: set<Id>)
    requires a <= b
    ensures |a| <= |b| && (a != b ==> |a| < |b|)
  {
    assert |b| == |a| + |b - a| by { assert a + (b - a) == b; }
  }

  // ---------- The potential ----------

  function WithStatus(w: World, status: JobStatus): set<Id> {
    set j | j in w.jobs && w.jobs[j].status == status
  }

  /** Work left in the queue: two units for a pending job, one for a job in progress. */
  function Load(w: World): nat {
    2 * |WithStatus(w, Pending)| + |WithStatus(w, Processing)|
  }

  /** The step writes the final status of a job whose row is still there. */
  predicate FinishesJob(s: State, a: Step) {
    && a.WorkStep? && a.work == WriteStatus(true) && IsBusy(s, a.p)
    && s.procs[a.p].loop.at.Finish? && s.procs[a.p].loop.job in s.w.jobs
  }

  lemma ClaimLowersLoad(s: State, a: Step)
    requires Enabled(s, a) && IsClaim(a)
    ensures Load(Apply(s, a).w) == Load(s.w) - 1
  {
    var j := a.pool.next.value;
    var v := Apply(s, a).w;
    assert WithStatus(v, Pending) == WithStatus(s.w, Pending) - {j};
    assert WithStatus(v, Processing) == WithStatus(s.w, Processing) + {j};
  }

  lemma FinishLowersLoad(s: State, a: Step)
    requires Enabled(s, a) && FinishesJob(s, a) && ProcOk(s.w, s.procs[a.p])
    ensures Load(Apply(s, a).w) == Load(s.w) - 1
  {
    var j := s.procs[a.p].loop.job;
    var v := Apply(s, a).w;
    assert WithStatus(v, Pending) == WithStatus(s.w, Pending);
    assert WithStatus(v, Processing) == WithStatus(s.w, Processing) - {j};
  }

  lemma EnqueueRaisesLoad(s: State, a: Step)
    requires Enabled(s, a) && Enqueues(s, a)
    ensures Load(Apply(s, a).w) == Load(s.w) + 2
  {
    var j := a.handler.job;
    var v := Apply(s, a).w;
    assert WithStatus(v, Pending) == WithStatus(s.w, Pending) + {j};
    assert WithStatus(v, Processing) == WithStatus(s.w, Processing);
  }

  lemma WorkersKeepStatus(s: State, p: Id, a: WorkAct, j: Id)
    requires WorkEnabled(s, p, a) && !FinishesJob(s, WorkStep(p, a))
    ensures ApplyWork(s, p, a).w.jobs == s.w.jobs
  {
    assert a.WriteStatus? ==> ApplyWork(s, p, a).w == s.w;
  }

  lemma HandlersKeepStatus(s: State, a: HandlerAct, j: Id)
    requires HandlerEnabled(s, a) && !Enqueues(s, HandlerStep(a))
    ensures var v := ApplyHandler(s, a).w;
      j in v.jobs ==> j in s.w.jobs && v.jobs[j].status == s.w.jobs[j].status
  {
  }

  lemma UploadsKeepStatus(s: State, p: Id, a: UploadAct, j: Id)
    requires UploadEnabled(s, p, a)
    ensures var v := ApplyUpload(s, p, a).w;
      j in v.jobs ==> j in s.w.jobs && v.jobs[j].status == s.w.jobs[j].status
  {
  }

  /** Apart from claims, final writes and inserts, job rows keep their status or go away. */
  lemma OthersKeepStatus(s: State, a: Step, j: Id)
    requires Enabled(s, a) && !IsClaim(a) && !FinishesJob(s, a) && !Enqueues(s, a)
    ensures j in Apply(s, a).w.jobs ==> j in s.w.jobs && Apply(s, a).w.jobs[j].status == s.w.jobs[j].status
  {
    match a
    case WorkStep(p, b) => WorkersKeepStatus(s, p, b, j);
    case HandlerStep(h) => HandlersKeepStatus(s, h, j);
    case UploadStep(p, u) => UploadsKeepStatus(s, p, u, j);
    case _ =>
  }

  /** The load falls by one on every claim and every final write, rises by two on every insert, and
      on no other step does it rise. */
  lemma LoadAccounts(s: State, a: Step)
    requires Inv(s) && Enabled(s, a)
    ensures IsClaim(a) || FinishesJob(s, a) ==> Load(Apply(s, a).w) == Load(s.w) - 1
    ensures Enqueues(s, a) ==> Load(Apply(s, a).w) == Load(s.w) + 2
    ensures !Enqueues(s, a) ==> Load(Apply(s, a).w) <= Load(s.w)
  {
    if IsClaim(a) {
      ClaimLowersLoad(s, a);
    } else if FinishesJob(s, a) {
      assert ProcOk(s.w, s.procs[a.p]);
      FinishLowersLoad(s, a);
    } else if Enqueues(s, a) {
      EnqueueRaisesLoad(s, a);
    } else {
      var v := Apply(s, a).w;
      forall j | j in v.jobs ensures j in s.w.jobs && v.jobs[j].status == s.w.jobs[j].status {
        OthersKeepStatus(s, a, j);
      }
      SubsetSize(WithStatus(v, Pending), WithStatus(s.w, Pending));
      SubsetSize(WithStatus(v, Processing), WithStatus(s.w, Processing));
    }
  }
}

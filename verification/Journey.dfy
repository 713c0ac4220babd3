/** From an upload to its media: a file that nobody disturbs is stored, queued, claimed and processed, step by step. */
module Journey {
  import opened Text
  import opened MediaKind
  import opened Tables
  import opened Plan
  import opened Protocol
  import opened Invariant
  import opened Preservation
  import opened Transactions
  import opened Additions
  import opened Rows
  import opened Queue
  import opened Service
  import opened Alone

  /** The steps can be taken from `s`, one after the other, and lead to `v`. */
  ghost predicate Way(s: State, steps: seq<Step>, v: State)
    decreases |steps|
  {
    if steps == [] then v == s else Enabled(s, steps[0]) && Way(Apply(s, steps[0]), steps[1..], v)
  }

  lemma WayStarts(s: State, a: Step, u: State, more: seq<Step>, v: State)
    requires Enabled(s, a) && u == Apply(s, a) && Way(u, more, v)
    ensures Way(s, [a] + more, v)
  {
    assert ([a] + more)[1..] == more;
  }

  lemma {:induction false} WaysJoin(s: State, a: seq<Step>, u: State, b: seq<Step>, v: State)
    requires Way(s, a, u) && Way(u, b, v)
    ensures Way(s, a + b, v)
    decreases |a|
  {
    if a == [] {
      assert a + b == b;
    } else {
      WaysJoin(Apply(s, a[0]), a[1..], u, b, v);
      assert (a + b)[1..] == a[1..] + b;
    }
  }

  lemma {:induction false} StretchIsWay(states: seq<State>, steps: seq<Step>)
    requires IsStretch(states, steps)
    ensures Way(states[0], steps, states[|steps|])
    decreases |steps|
  {
    if steps != [] { StretchIsWay(states[1..], steps[1..]); }
  }

  lemma {:induction false} WayKeepsInv(s: State, steps: seq<Step>, v: State)
    requires Inv(s) && TxInv(s) && Way(s, steps, v)
    ensures Inv(v) && TxInv(v)
    decreases |steps|
  {
    if steps != [] {
      StepKeepsInv(s, steps[0]);
      StepKeepsTxInv(s, steps[0]);
      WayKeepsInv(Apply(s, steps[0]), steps[1..], v);
    }
  }

  // ---------- Into the queue ----------

  /** The world with a new job for the file: pending, untried, the youngest. */
  function WithJob(w: World, j: Id, sid: Id, f: Id): World {
    w.(jobs := w.jobs[j := JobRow(sid, f, Pending, 0, None, w.clock)], clock := w.clock + 1)
  }

  lemma LoadQueues(s: State, p: Id)
    requires UploadEnabled(s, p, LoadForQueue) && IsQueueable(s.w, s.procs[p].storage, s.procs[p].file)
    ensures var v := ApplyUpload(s, p, LoadForQueue);
      v == s.(procs := s.procs[p := Protocol.Enqueue(s.procs[p].storage, s.procs[p].file, false)])
  {
    QueueableIff(s.w, s.procs[p].storage, s.procs[p].file);
  }

  lemma CheckPasses(s: State, p: Id)
    requires HandlerEnabled(s, CheckMedia(p, true)) && forall m <- s.w.media :: s.w.media[m].file != s.procs[p].file
    ensures var v := ApplyHandler(s, CheckMedia(p, true));
      v == s.(procs := s.procs[p := s.procs[p].(checked := true)])
  {
  }

  lemma InsertQueues(s: State, p: Id, j: Id)
    requires HandlerEnabled(s, InsertJob(p, j, true)) && forall k <- s.w.jobs :: s.w.jobs[k].file != s.procs[p].file
    ensures var v := ApplyHandler(s, InsertJob(p, j, true));
      v.w == WithJob(s.w, j, s.procs[p].storage, s.procs[p].file) && v.procs == s.procs - {p} && v.pools == s.pools
  {
  }

  lemma PatchQueues(s: State, p: Id, sid: Id, f: Id)
    requires Fresh(s, {p}) && IsQueueable(s.w, sid, f)
    ensures Enabled(s, HandlerStep(PatchFile(p, sid, f)))
    ensures var v := Apply(s, HandlerStep(PatchFile(p, sid, f)));
      v == s.(used := s.used + {p}, procs := s.procs[p := Protocol.Enqueue(sid, f, false)])
  {
    QueueableIff(s.w, sid, f);
  }

  /** A patch of a file that can be queued leads to a new pending job for it, and to nothing else. */
  lemma PatchAlone(s: State, p: Id, sid: Id, f: Id) returns (steps: seq<Step>, j: Id, v: State)
    requires FileKeysHold(s.w) && s.w.jobs.Keys <= s.used && s.procs.Keys <= s.used
    requires Fresh(s, {p}) && IsQueueable(s.w, sid, f)
    requires forall k <- s.w.jobs :: s.w.jobs[k].file != f
    ensures Way(s, steps, v) && j !in s.w.jobs && v.w == WithJob(s.w, j, sid, f)
    ensures v.procs == s.procs && v.pools == s.pools
  {
    var a, b := HandlerStep(PatchFile(p, sid, f)), HandlerStep(CheckMedia(p, true));
    PatchQueues(s, p, sid, f);
    var s1 := Apply(s, a);
    CheckPasses(s1, p);
    var s2 := Apply(s1, b);
    j, v := QueueInserts(s2, p, sid, f);
    var c := HandlerStep(InsertJob(p, j, true));
    steps := [a, b, c];
    ThreeSteps(s, a, s1, b, s2, c, v);
    assert v.procs == s.procs;
  }

  lemma MayQueue(w: World, used: set<Id>, j: Id, sid: Id, f: Id)
    requires FileKeysHold(w) && w.jobs.Keys <= used && j !in used && f in w.files && w.files[f].storage == sid
    ensures CanEnqueue(w, j, sid, f)
  {
  }

  /** A handler whose upload is published checks for media and inserts a job. */
  lemma QueueAlone(s: State, p: Id) returns (steps: seq<Step>, j: Id, v: State)
    requires FileKeysHold(s.w) && s.w.jobs.Keys <= s.used && UploadEnabled(s, p, LoadForQueue)
    requires IsQueueable(s.w, s.procs[p].storage, s.procs[p].file)
    requires forall k <- s.w.jobs :: s.w.jobs[k].file != s.procs[p].file
    ensures Way(s, steps, v) && j !in s.w.jobs
    ensures v.w == WithJob(s.w, j, s.procs[p].storage, s.procs[p].file)
    ensures v.procs == s.procs - {p} && v.pools == s.pools
  {
    var s1, s2 := QueueChecks(s, p);
    j, v := QueueInserts(s2, p, s.procs[p].storage, s.procs[p].file);
    var a, b, c := UploadStep(p, LoadForQueue), HandlerStep(CheckMedia(p, true)), HandlerStep(InsertJob(p, j, true));
    steps := [a, b, c];
    ThreeSteps(s, a, s1, b, s2, c, v);
    assert s2.procs - {p} == s.procs - {p};
  }

  lemma QueueInserts(s: State, p: Id, sid: Id, f: Id) returns (j: Id, v: State)
    requires p in s.procs && s.procs[p] == Protocol.Enqueue(sid, f, true)
    requires FileKeysHold(s.w) && s.w.jobs.Keys <= s.used && f in s.w.files && s.w.files[f].storage == sid
    requires forall k <- s.w.jobs :: s.w.jobs[k].file != f
    ensures Enabled(s, HandlerStep(InsertJob(p, j, true))) && v == Apply(s, HandlerStep(InsertJob(p, j, true)))
    ensures j !in s.w.jobs
    ensures v.w == WithJob(s.w, j, sid, f) && v.procs == s.procs - {p} && v.pools == s.pools
  {
    j := FreshId(s.used);
    MayQueue(s.w, s.used, j, sid, f);
    InsertQueues(s, p, j);
    v := Apply(s, HandlerStep(InsertJob(p, j, true)));
  }

  lemma QueueChecks(s: State, p: Id) returns (s1: State, s2: State)
    requires UploadEnabled(s, p, LoadForQueue) && IsQueueable(s.w, s.procs[p].storage, s.procs[p].file)
    ensures Enabled(s, UploadStep(p, LoadForQueue)) && s1 == Apply(s, UploadStep(p, LoadForQueue))
    ensures Enabled(s1, HandlerStep(CheckMedia(p, true))) && s2 == Apply(s1, HandlerStep(CheckMedia(p, true)))
    ensures s2.w == s.w && s2.pools == s.pools && s2.used == s.used
    ensures s2.procs == s.procs[p := Protocol.Enqueue(s.procs[p].storage, s.procs[p].file, true)]
  {
    LoadQueues(s, p);
    s1 := Apply(s, UploadStep(p, LoadForQueue));
    CheckPasses(s1, p);
    s2 := Apply(s1, HandlerStep(CheckMedia(p, true)));
  }

  lemma ThreeSteps(s: State, a: Step, s1: State, b: Step, s2: State, c: Step, v: State)
    requires Enabled(s, a) && s1 == Apply(s, a) && Enabled(s1, b) && s2 == Apply(s1, b)
    requires Enabled(s2, c) && v == Apply(s2, c)
    ensures Way(s, [a, b, c], v)
  {
    assert Way(v, [], v);
    WayStarts(s2, c, v, [], v);
    WayStarts(s1, b, s2, [c], v);
    WayStarts(s, a, s1, [b, c], v);
    assert [c] + [] == [c] && [b] + [c] == [b, c] && [a] + [b, c] == [a, b, c];
  }

  // ---------- An idle worker ----------

  /** The worker of a running pool is between two jobs. */
  ghost predicate IsIdle(s: State, q: Id) {
    && q in s.procs && s.procs[q].Worker? && s.procs[q].pool in s.pools && s.pools[s.procs[q].pool] == Running
    && !s.procs[q].loop.Busy?
  }

  /** An idle worker gets to its next claim. */
  lemma GoesToClaim(s: State, q: Id) returns (steps: seq<Step>, v: State)
    requires IsIdle(s, q)
    ensures Way(s, steps, v) && IsWorkerAt(v, q, Claiming) && v.w == s.w
    decreases s.procs[q].loop.Waiting?
  {
    steps, v := [], s;
    assert Way(v, [], v);
    if s.procs[q].loop == Top {
      v := Apply(s, PoolStep(CheckStop(q)));
      steps := [PoolStep(CheckStop(q))];
      assert Way(v, [], v) && steps + [] == steps;
      WayStarts(s, PoolStep(CheckStop(q)), v, [], v);
    } else if s.procs[q].loop == Waiting {
      var u := Apply(s, PoolStep(EndWait(q)));
      steps, v := GoesToClaim(u, q);
      WayStarts(s, PoolStep(EndWait(q)), u, steps, v);
      steps := [PoolStep(EndWait(q))] + steps;
    }
  }

  /** Starting a pool gives idle workers, and asking it to stop makes it stopping, at any time. */
  lemma PoolsStartAndStop(s: State, pool: Id, workers: set<Id>)
    requires pool !in workers && Fresh(s, workers + {pool})
    ensures Enabled(s, PoolStep(StartPool(pool, workers)))
    ensures var v := Apply(s, PoolStep(StartPool(pool, workers)));
      && v.w == s.w && v.pools == s.pools[pool := Running] && (forall q <- workers :: IsIdle(v, q))
      && (forall q <- s.procs :: q !in workers ==> q in v.procs && v.procs[q] == s.procs[q])
      && v.procs.Keys == s.procs.Keys + workers
    ensures forall u: State :: pool in u.pools && u.pools[pool] == Running ==>
      Enabled(u, PoolStep(CloseStop(pool))) &&
      Apply(u, PoolStep(CloseStop(pool))) == u.(pools := u.pools[pool := Stopping])
  {
  }

  // ---------- What a worker finds ----------

  /** Where a job gets before it reads any bytes: it is finished at once if its file has media, or is nothing to make
      media of; it fails if the file is not there or in the trash; otherwise it is ready for the kind of the file. */
  ghost predicate FoundAt(w: World, sid: Id, f: Id, at: WorkAt) {
    if exists m <- w.media :: w.media[m].file == f then at == Finish(None)
    else if !(f in w.files && w.files[f].storage == sid && !w.files[f].excluded) then at == Finish(Some(NO_ROWS))
    else if NothingToMake(w, f) then at == Finish(None)
    else at.Ready? && IsOfKind(w, w.files[f], at.kind)
  }

  /** The worker stands here with its job, and nothing else has changed. */
  ghost predicate StandsAt(s: State, v: State, q: Id, at: WorkAt)
    requires IsBusy(s, q)
  {
    v == s.(procs := s.procs[q := s.procs[q].(loop := s.procs[q].loop.(at := at))])
  }

  lemma StandsTwice(s: State, u: State, v: State, q: Id, a: WorkAt, b: WorkAt)
    requires IsBusy(s, q) && StandsAt(s, u, q, a) && IsBusy(u, q) && StandsAt(u, v, q, b)
    ensures StandsAt(s, v, q, b)
  {
  }

  lemma SeeksMedia(s: State, q: Id)
    requires WorkEnabled(s, q, FindMedia)
    ensures var at := if HasMedia(s.w, s.procs[q].loop.file) then Finish(None) else Absent;
      StandsAt(s, ApplyWork(s, q, FindMedia), q, at)
  {
  }

  lemma LoadsFile(s: State, q: Id)
    requires WorkEnabled(s, q, LoadFile)
    ensures var l := s.procs[q].loop;
      StandsAt(s, ApplyWork(s, q, LoadFile), q,
               if !(l.file in s.w.files && s.w.files[l.file].storage == l.storage && !s.w.files[l.file].excluded)
               then Finish(Some(NO_ROWS))
               else if s.w.files[l.file].status != Published || s.w.files[l.file].realPath.None? then Finish(None)
               else Loaded(s.w.files[l.file]))
  {
  }

  lemma LoadsStorage(s: State, q: Id) returns (at: WorkAt)
    requires WorkEnabled(s, q, LoadStorage) && s.procs[q].loop.storage in s.w.storages
    ensures StandsAt(s, ApplyWork(s, q, LoadStorage), q, at)
    ensures if exists kind: Kind :: IsOfKind(s.w, s.procs[q].loop.at.row, kind)
            then at.Ready? && IsOfKind(s.w, s.procs[q].loop.at.row, at.kind) else at == Finish(None)
  {
    var row := s.procs[q].loop.at.row;
    FileCategoryIff(s.w, row);
    at := match Category(s.w, row) case None => Finish(None) case Some(kind) => Ready(kind);
  }

  /** On its own lookups a worker gets exactly there. */
  lemma JobFinds(s: State, q: Id) returns (steps: seq<Step>, v: State, at: WorkAt)
    requires FileKeysHold(s.w) && WorkEnabled(s, q, FindMedia)
    ensures Way(s, steps, v) && StandsAt(s, v, q, at)
    ensures FoundAt(s.w, s.procs[q].loop.storage, s.procs[q].loop.file, at)
  {
    var f := s.procs[q].loop.file;
    SeeksMedia(s, q);
    var a := WorkStep(q, FindMedia);
    v := Apply(s, a);
    assert Way(v, [], v);
    WayStarts(s, a, v, [], v);
    steps, at := [a] + [], v.procs[q].loop.at;
    if !HasMedia(s.w, f) {
      var more, u, b := FileFinds(v, q);
      StandsTwice(s, v, u, q, at, b);
      WayStarts(s, a, v, more, u);
      steps, v, at := [a] + more, u, b;
    }
  }

  lemma FileFinds(s: State, q: Id) returns (steps: seq<Step>, v: State, at: WorkAt)
    requires FileKeysHold(s.w) && WorkEnabled(s, q, LoadFile) && !HasMedia(s.w, s.procs[q].loop.file)
    ensures Way(s, steps, v) && StandsAt(s, v, q, at)
    ensures FoundAt(s.w, s.procs[q].loop.storage, s.procs[q].loop.file, at)
  {
    LoadsFile(s, q);
    var a := WorkStep(q, LoadFile);
    v := Apply(s, a);
    assert Way(v, [], v);
    WayStarts(s, a, v, [], v);
    steps, at := [a] + [], v.procs[q].loop.at;
    if at.Loaded? {
      var b := LoadsStorage(v, q);
      var u := Apply(v, WorkStep(q, LoadStorage));
      assert Way(u, [], u);
      WayStarts(v, WorkStep(q, LoadStorage), u, [], u);
      WayStarts(s, a, v, [WorkStep(q, LoadStorage)] + [], u);
      StandsTwice(s, v, u, q, at, b);
      steps, v, at := [a] + ([WorkStep(q, LoadStorage)] + []), u, b;
    }
  }

  // ---------- From the claim to the open transaction ----------

  /** The worker holds the job at this point, and the job is all that has changed in the world. */
  ghost predicate Holding(s: State, v: State, q: Id, j: Id, at: WorkAt)
    requires j in s.w.jobs
  {
    var row := s.w.jobs[j];
    && Inv(v) && TxInv(v) && IsBusy(v, q) && v.procs[q].loop == Busy(j, row.storage, row.file, at)
    && v.w == s.w.(jobs := s.w.jobs[j := Claimed(row)])
  }

  lemma ClaimHolds(s: State, q: Id, j: Id)
    requires IsWorkerAt(s, q, Claiming) && IsNextJob(s.w, j)
    ensures Enabled(s, PoolStep(ClaimNext(q, Some(j))))
    ensures var v, row := Apply(s, PoolStep(ClaimNext(q, Some(j)))), s.w.jobs[j];
      && IsBusy(v, q) && v.procs[q].loop == Busy(j, row.storage, row.file, Start)
      && v.w == s.w.(jobs := s.w.jobs[j := Claimed(row)])
  {
  }

  lemma BeginOpens(s: State, q: Id, media: Id, head: Id, d: Decoded)
    requires WorkEnabled(s, q, BeginTx(media, head, d))
    ensures var v, l := ApplyWork(s, q, BeginTx(media, head, d)), s.procs[q].loop;
      && IsBusy(v, q) && v.procs[q].loop.at.Open? && v.procs[q].loop.file == l.file && v.w == s.w
      && TxnOf(v, q).kind == l.at.kind && TxnOf(v, q).done == []
      && TxnOf(v, q).task == Task(l.file, l.storage, media, head, d)
      && v.procs[q].loop.job == l.job && v.procs[q].loop.storage == l.storage
  {
  }

  /** The file of the job can be processed: it is there, published, not in the trash, and of this kind. */
  ghost predicate IsReadyFor(w: World, j: Id, kind: Kind) {
    && IsPending(w, j) && w.jobs[j].file in w.files && !w.files[w.jobs[j].file].excluded
    && IsOfKind(w, w.files[w.jobs[j].file], kind)
  }

  ghost predicate CanDecode(w: World, kind: Kind, d: Decoded) {
    (kind == Image ==> IsImage(d)) && MimeIsThere(w, d.mime)
  }

  lemma JobFacts(w: World, j: Id, kind: Kind)
    requires WorldOk(w) && IsReadyFor(w, j, kind)
    ensures var r := w.jobs[j];
      && r.storage in w.storages && !HasMedia(w, r.file) && w.files[r.file].storage == r.storage
      && w.files[r.file].status == Published && w.files[r.file].realPath.Some? && r.attempts == 0
  {
    assert JobOk(w, j);
    assert FileOk(w, w.jobs[j].file);
  }

  lemma OneKind(w: World, row: FileRow, a: Kind, b: Kind)
    requires IsOfKind(w, row, a) && IsOfKind(w, row, b)
    ensures a == b
  {
    FileCategoryIff(w, row);
  }

  lemma FoundReady(w: World, u: World, j: Id, kind: Kind, at: WorkAt)
    requires WorldOk(w) && IsReadyFor(w, j, kind) && u == w.(jobs := w.jobs[j := Claimed(w.jobs[j])])
    requires FoundAt(u, w.jobs[j].storage, w.jobs[j].file, at)
    ensures at == Ready(kind)
  {
    JobFacts(w, j, kind);
    var row := w.files[w.jobs[j].file];
    assert IsOfKind(u, row, kind) && !NothingToMake(u, w.jobs[j].file);
    OneKind(u, row, at.kind, kind);
  }

  lemma GoesToReady(s: State, q: Id, j: Id, kind: Kind) returns (steps: seq<Step>, v: State)
    requires Inv(s) && TxInv(s) && IsWorkerAt(s, q, Claiming) && IsNextJob(s.w, j) && IsReadyFor(s.w, j, kind)
    ensures Way(s, steps, v) && Holding(s, v, q, j, Ready(kind))
  {
    KeysAreUsed(s);
    var at;
    steps, v, at := ClaimsAndFinds(s, q, j);
    FoundReady(s.w, v.w, j, kind, at);
    WayKeepsInv(s, steps, v);
  }

  lemma ClaimsAndFinds(s: State, q: Id, j: Id) returns (steps: seq<Step>, v: State, at: WorkAt)
    requires FileKeysHold(s.w) && IsWorkerAt(s, q, Claiming) && IsNextJob(s.w, j)
    ensures Way(s, steps, v) && IsBusy(v, q)
    ensures var r := s.w.jobs[j];
      && v.procs[q].loop == Busy(j, r.storage, r.file, at)
      && v.w == s.w.(jobs := s.w.jobs[j := Claimed(r)]) && FoundAt(v.w, r.storage, r.file, at)
  {
    ClaimHolds(s, q, j);
    var a := PoolStep(ClaimNext(q, Some(j)));
    var u := Apply(s, a);
    var more;
    more, v, at := JobFinds(u, q);
    WayStarts(s, a, u, more, v);
    steps := [a] + more;
  }

  lemma GoesToOpen(s: State, v: State, q: Id, j: Id, kind: Kind, d: Decoded) returns (a: Step, u: State)
    requires WorldOk(s.w) && IsReadyFor(s.w, j, kind) && Holding(s, v, q, j, Ready(kind)) && CanDecode(s.w, kind, d)
    ensures Enabled(v, a) && u == Apply(v, a) && Alone.Underway(u, q) && u.w == v.w
    ensures var t := TxnOf(u, q);
      t.kind == kind && t.done == [] && t.task.decoded == d
      && t.task.file == s.w.jobs[j].file && t.task.storage == s.w.jobs[j].storage
    ensures u.procs[q].loop.job == j
  {
    JobFacts(s.w, j, kind);
    RowIdsAreUsed(v);
    a, u := Begins(v, q, kind, d);
    IsUnderway(v, a, u, q);
  }

  lemma RowIdsAreUsed(s: State)
    requires TxInv(s)
    ensures TableIds(s.w) <= s.used
  {
  }

  lemma Begins(v: State, q: Id, kind: Kind, d: Decoded) returns (a: Step, u: State)
    requires TableIds(v.w) <= v.used && CanDecode(v.w, kind, d)
    requires IsBusy(v, q) && v.procs[q].loop.at == Ready(kind)
    requires v.procs[q].loop.file in v.w.files && !HasMedia(v.w, v.procs[q].loop.file)
    ensures Enabled(v, a) && u == Apply(v, a) && u.w == v.w && IsBusy(u, q) && u.procs[q].loop.at.Open?
    ensures var t, l := TxnOf(u, q), v.procs[q].loop;
      && t.kind == kind && t.done == [] && t.task.decoded == d && t.task.file == l.file && t.task.storage == l.storage
      && u.procs[q].loop.file == l.file && u.procs[q].loop.job == l.job
  {
    var media := FreshId(v.used);
    var head := FreshId(v.used + {media});
    CanBeginTx(v, q, kind, media, head, d);
    a := WorkStep(q, BeginTx(media, head, d));
    u := Apply(v, a);
    BeginOpens(v, q, media, head, d);
  }

  lemma IsUnderway(v: State, a: Step, u: State, q: Id)
    requires Inv(v) && TxInv(v) && Enabled(v, a) && u == Apply(v, a)
    requires IsBusy(u, q) && u.procs[q].loop.at.Open? && u.procs[q].loop.file in u.w.files
    ensures Alone.Underway(u, q)
  {
    StepKeepsInv(v, a);
    StepKeepsTxInv(v, a);
  }

  lemma CanBeginTx(v: State, q: Id, kind: Kind, media: Id, head: Id, d: Decoded)
    requires TableIds(v.w) <= v.used && Fresh(v, {media, head}) && media != head && CanDecode(v.w, kind, d)
    requires IsBusy(v, q) && v.procs[q].loop.at == Ready(kind)
    requires v.procs[q].loop.file in v.w.files && !HasMedia(v.w, v.procs[q].loop.file)
    ensures WorkEnabled(v, q, BeginTx(media, head, d))
  {
    assert media !in TableIds(v.w);
    MediaInsertIff(v.w, media, v.procs[q].loop.file);
  }

  // ---------- To the end of the job ----------

  /** The job is done, and the media of its file is there: the rows of its kind, and the objects of its images, which
      hold these bytes. Nothing else has changed in the tables. */
  ghost predicate JobDone(w: World, x: World, j: Id, kind: Kind, d: Decoded, images: seq<Bytes>)
    requires j in w.jobs
  {
    var r := w.jobs[j];
    && x.jobs == w.jobs[j := JobRow(r.storage, r.file, Done, r.attempts + 1, None, r.createdAt)]
    && exists task: Task, ds: seq<Derived> ::
      && task.file == r.file && task.storage == r.storage && task.decoded == d
      && MediaMade(w.(jobs := x.jobs), x, kind, task, ds)
      && |ds| == |images| && AllHold(x, ds, 0, images)
  }

  lemma WriteDone(v: State, q: Id)
    requires IsBusy(v, q) && v.procs[q].loop.at == Finish(None)
    ensures WorkEnabled(v, q, WriteStatus(true))
    ensures ApplyWork(v, q, WriteStatus(true)).w == CompleteMediaJob(v.w, v.procs[q].loop.job)
  {
  }

  lemma MadeWith(u: World, v: World, jobs: map<Id, JobRow>, kind: Kind, task: Task, ds: seq<Derived>)
    requires MediaMade(u, v, kind, task, ds)
    ensures MediaMade(u.(jobs := jobs), v.(jobs := jobs), kind, task, ds)
  {
  }

  /** A worker that is still busy after some steps of its own holds the job it held before. */
  lemma {:induction false} KeepsItsJob(states: seq<State>, steps: seq<Step>, q: Id)
    requires IsStretch(states, steps) && StepsOf(steps, q) && IsBusy(states[0], q) && IsBusy(states[|steps|], q)
    ensures states[|steps|].procs[q].loop.job == states[0].procs[q].loop.job
    decreases |steps|
  {
    if steps != [] {
      var a := steps[0];
      assert a in steps && Enabled(states[0], a) && states[1] == Apply(states[0], a);
      KeepsJobOnce(states[0], q, a.work);
      if |steps| > 1 { assert steps[1] in steps && Enabled(states[1], steps[1]); }
      KeepsItsJob(states[1..], steps[1..], q);
    }
  }

  lemma KeepsJobOnce(s: State, q: Id, a: WorkAct)
    requires WorkEnabled(s, q, a)
    ensures var v := ApplyWork(s, q, a); IsBusy(v, q) ==> v.procs[q].loop.job == s.procs[q].loop.job
  {
  }

  lemma WorksToCommit(u: State, q: Id, images: seq<Bytes>) returns (steps: seq<Step>, v: State, ds: seq<Derived>)
    requires Alone.Underway(u, q) && TxnOf(u, q).done == [] && |images| == |TxnOf(u, q).Plan()|
    ensures Way(u, steps, v) && Finished(u, v, q, images, ds) && v.procs[q].loop.job == u.procs[q].loop.job
  {
    ImageJobAlone(u, q, images);
    var states;
    states, steps, ds :| IsStretch(states, steps) && states[0] == u && StepsOf(steps, q)
      && |steps| == 2 * |images| + 1 && Finished(u, states[|steps|], q, images, ds);
    v := states[|steps|];
    StretchIsWay(states, steps);
    KeepsItsJob(states, steps, q);
  }

  lemma IsDone(w: World, u: World, v: World, x: World, j: Id, kind: Kind, d: Decoded, images: seq<Bytes>, task: Task,
               ds: seq<Derived>)
    requires IsPending(w, j) && u == w.(jobs := w.jobs[j := Claimed(w.jobs[j])])
    requires MediaMade(u, v, kind, task, ds) && v.jobs == u.jobs && x == CompleteMediaJob(v, j)
    requires task.file == w.jobs[j].file && task.storage == w.jobs[j].storage && task.decoded == d
    requires |ds| == |images| && AllHold(v, ds, 0, images)
    ensures JobDone(w, x, j, kind, d, images)
  {
    CompletedWorld(w, u, v, x, j);
    MadeWith(u, v, x.jobs, kind, task, ds);
    SameObjectsHold(v, x, ds, images);
    DoneWith(w, x, j, kind, d, images, task, ds);
  }

  lemma CompletedWorld(w: World, u: World, v: World, x: World, j: Id)
    requires IsPending(w, j) && u == w.(jobs := w.jobs[j := Claimed(w.jobs[j])])
    requires v.jobs == u.jobs && x == CompleteMediaJob(v, j)
    ensures var r := w.jobs[j];
      x.jobs == w.jobs[j := JobRow(r.storage, r.file, Done, r.attempts + 1, None, r.createdAt)]
    ensures w.(jobs := x.jobs) == u.(jobs := x.jobs) && v.(jobs := x.jobs) == x && x.blobs == v.blobs
  {
  }

  lemma SameObjectsHold(v: World, x: World, ds: seq<Derived>, images: seq<Bytes>)
    requires x.blobs == v.blobs && |ds| == |images| && AllHold(v, ds, 0, images)
    ensures AllHold(x, ds, 0, images)
  {
    forall k | 0 <= k < |images| ensures Holds(x, ds[0 + k], images[k]) { assert Holds(v, ds[0 + k], images[k]); }
  }

  lemma DoneWith(w: World, x: World, j: Id, kind: Kind, d: Decoded, images: seq<Bytes>, task: Task, ds: seq<Derived>)
    requires j in w.jobs && MediaMade(w.(jobs := x.jobs), x, kind, task, ds)
    requires var r := w.jobs[j];
      && x.jobs == w.jobs[j := JobRow(r.storage, r.file, Done, r.attempts + 1, None, r.createdAt)]
      && task.file == r.file && task.storage == r.storage && task.decoded == d
    requires |ds| == |images| && AllHold(x, ds, 0, images)
    ensures JobDone(w, x, j, kind, d, images)
  {
  }

  lemma MadeKeepsJobs(u: World, v: World, kind: Kind, task: Task, ds: seq<Derived>)
    requires MediaMade(u, v, kind, task, ds)
    ensures v.jobs == u.jobs
  {
  }

  /** A worker that is about to claim, when this job is next and its file can be processed: whatever the decoder and
      the encoder yield, on its own steps it claims the job, makes the media of the file, and leaves the job done. */
  lemma JobAlone(s: State, q: Id, j: Id, kind: Kind, d: Decoded, images: seq<Bytes>)
    returns (steps: seq<Step>, x: State)
    requires Inv(s) && TxInv(s) && IsWorkerAt(s, q, Claiming) && IsNextJob(s.w, j) && IsReadyFor(s.w, j, kind)
    requires CanDecode(s.w, kind, d) && |images| == |PlanOf(kind, d)|
    ensures Way(s, steps, x) && JobDone(s.w, x.w, j, kind, d, images)
  {
    var s1, v1 := GoesToReady(s, q, j, kind);
    var a, u := GoesToOpen(s, v1, q, j, kind, d);
    var s2, v, ds := WorksToCommit(u, q, images);
    WriteDone(v, q);
    x := Apply(v, WorkStep(q, WriteStatus(true)));
    MadeKeepsJobs(u.w, v.w, kind, TxnOf(u, q).task, ds);
    IsDone(s.w, u.w, v.w, x.w, j, kind, d, images, TxnOf(u, q).task, ds);
    steps := JoinWays(s, s1, v1, a, u, s2, v, WorkStep(q, WriteStatus(true)), x);
  }

  lemma JoinWays(s: State, s1: seq<Step>, v1: State, a: Step, u: State, s2: seq<Step>, v: State, b: Step, x: State)
    returns (steps: seq<Step>)
    requires Way(s, s1, v1) && Enabled(v1, a) && u == Apply(v1, a) && Way(u, s2, v) && Enabled(v, b) && x == Apply(v, b)
    ensures Way(s, steps, x)
  {
    assert Way(x, [], x);
    WayStarts(v, b, x, [], x);
    WaysJoin(u, s2, v, [b] + [], x);
    WayStarts(v1, a, u, s2 + ([b] + []), x);
    WaysJoin(s, s1, v1, [a] + (s2 + ([b] + [])), x);
    steps := s1 + ([a] + (s2 + ([b] + [])));
  }

  // ---------- The whole way ----------

  lemma UploadsToLive(s: State, p: Id, sid: Id, f: Id, leaf: string, mime: Option<Id>, data: Bytes)
    returns (steps: seq<Step>, v: State)
    requires IsNewUpload(s, p, sid, f, mime)
    ensures Way(s, steps, v) && v.pools == s.pools && v.w == WithUpload(s.w, f, sid, Path(f, leaf), mime, data)
    ensures v.procs == s.procs[p := Upload(sid, f, Path(f, leaf), mime, Live)]
  {
    var states := UploadAlone(s, p, sid, f, leaf, mime, data);
    steps := [BeginUpload(p, sid, f, leaf, mime), UploadStep(p, Store(data)), UploadStep(p, Publish(true))];
    StretchIsWay(states, steps);
    v := states[3];
  }

  /** A new file of this kind, in tables that know nothing of it, can be queued. */
  lemma NewFileQueueable(u: World, f: Id, sid: Id, path: Path, mime: Option<Id>, data: Bytes, kind: Kind)
    requires Integrity(u) && f !in u.files
    requires mime.Some? && mime.value in u.mimes && LooksLike(u.mimes[mime.value], kind)
    ensures var v := WithUpload(u, f, sid, path, mime, data);
      IsQueueable(v, sid, f) && IsOfKind(v, v.files[f], kind) && forall k <- v.jobs :: v.jobs[k].file != f
  {
    var v := WithUpload(u, f, sid, path, mime, data);
    assert IsOfKind(v, v.files[f], kind);
  }

  lemma OnlyJobIsNext(u: World, j: Id, sid: Id, f: Id)
    requires (forall k :: !IsPending(u, k)) && j !in u.jobs
    ensures IsNextJob(WithJob(u, j, sid, f), j)
  {
    forall k | k in u.jobs ensures k != j && !IsPending(u, k) {}
  }

  lemma ReadyOnceQueued(u: World, j: Id, sid: Id, f: Id, kind: Kind)
    requires f in u.files && !u.files[f].excluded && IsOfKind(u, u.files[f], kind)
    ensures IsReadyFor(WithJob(u, j, sid, f), j, kind)
  {
  }

  lemma UploadIsFresh(s: State, p: Id, sid: Id, f: Id, mime: Option<Id>)
    requires IdsUsed(s) && IsNewUpload(s, p, sid, f, mime)
    ensures p !in s.procs && f !in s.w.files
  {
  }

  lemma KeysAreUsed(s: State)
    requires Inv(s)
    ensures FileKeysHold(s.w) && s.w.jobs.Keys <= s.used
  {
  }

  lemma UploadsToLoad(s: State, p: Id, sid: Id, f: Id, leaf: string, mime: Option<Id>, data: Bytes, kind: Kind)
    returns (steps: seq<Step>, v: State)
    requires Inv(s) && TxInv(s) && IsNewUpload(s, p, sid, f, mime)
    requires mime.Some? && mime.value in s.w.mimes && LooksLike(s.w.mimes[mime.value], kind)
    ensures Way(s, steps, v) && v.w == WithUpload(s.w, f, sid, Path(f, leaf), mime, data)
    ensures UploadEnabled(v, p, LoadForQueue) && v.procs[p].storage == sid && v.procs[p].file == f
    ensures v.procs - {p} == s.procs && v.pools == s.pools && v.w.jobs == s.w.jobs
    ensures FileKeysHold(v.w) && v.w.jobs.Keys <= v.used
    ensures IsQueueable(v.w, sid, f) && forall k <- v.w.jobs :: v.w.jobs[k].file != f
  {
    UploadIsFresh(s, p, sid, f, mime);
    steps, v := UploadsToLive(s, p, sid, f, leaf, mime, data);
    KeysStayUsed(s, steps, v);
    LiveCanLoad(s, v, p, sid, f, Path(f, leaf), mime, data, kind);
  }

  lemma LiveCanLoad(s: State, v: State, p: Id, sid: Id, f: Id, path: Path, mime: Option<Id>, data: Bytes, kind: Kind)
    requires Integrity(s.w) && f !in s.w.files && p !in s.procs
    requires mime.Some? && mime.value in s.w.mimes && LooksLike(s.w.mimes[mime.value], kind)
    requires v.w == WithUpload(s.w, f, sid, path, mime, data)
    requires v.procs == s.procs[p := Upload(sid, f, path, mime, Live)]
    ensures UploadEnabled(v, p, LoadForQueue) && v.procs[p].storage == sid && v.procs[p].file == f
    ensures v.procs - {p} == s.procs && v.w.jobs == s.w.jobs
    ensures IsQueueable(v.w, sid, f) && forall k <- v.w.jobs :: v.w.jobs[k].file != f
  {
    NewFileQueueable(s.w, f, sid, path, mime, data, kind);
    assert v.procs - {p} == s.procs;
  }

  lemma KeysStayUsed(s: State, steps: seq<Step>, v: State)
    requires Inv(s) && TxInv(s) && Way(s, steps, v)
    ensures FileKeysHold(v.w) && v.w.jobs.Keys <= v.used && Integrity(s.w)
  {
    WayKeepsInv(s, steps, v);
    KeysAreUsed(v);
  }

  /** An upload of a type that has a kind can run until its job is queued. */
  lemma UploadsToQueue(s: State, p: Id, sid: Id, f: Id, leaf: string, mime: Option<Id>, data: Bytes, kind: Kind)
    returns (steps: seq<Step>, j: Id, v: State)
    requires Inv(s) && TxInv(s) && IsNewUpload(s, p, sid, f, mime)
    requires mime.Some? && mime.value in s.w.mimes && LooksLike(s.w.mimes[mime.value], kind)
    ensures Way(s, steps, v) && j !in s.w.jobs && v.procs == s.procs && v.pools == s.pools
    ensures v.w == WithJob(WithUpload(s.w, f, sid, Path(f, leaf), mime, data), j, sid, f)
  {
    var s1, v1 := UploadsToLoad(s, p, sid, f, leaf, mime, data, kind);
    var s2;
    s2, j, v := QueueAlone(v1, p);
    WaysJoin(s, s1, v1, s2, v);
    steps := s1 + s2;
  }

  lemma JobIsNext(w: World, sid: Id, f: Id, path: Path, mime: Option<Id>, data: Bytes, j: Id, kind: Kind)
    requires Integrity(w) && f !in w.files
    requires mime.Some? && mime.value in w.mimes && LooksLike(w.mimes[mime.value], kind)
    requires (forall k :: !IsPending(w, k)) && j !in w.jobs
    ensures var u := WithJob(WithUpload(w, f, sid, path, mime, data), j, sid, f);
      IsNextJob(u, j) && IsReadyFor(u, j, kind)
  {
    var u := WithUpload(w, f, sid, path, mime, data);
    NewFileQueueable(w, f, sid, path, mime, data, kind);
    assert forall k :: IsPending(u, k) <==> IsPending(w, k);
    OnlyJobIsNext(u, j, sid, f);
    ReadyOnceQueued(u, j, sid, f, kind);
  }

  /** From an upload to its media. In any reachable state with an idle worker and an empty queue, an upload of a type
      that has a kind can run through: it is published with its bytes, queued, claimed, and processed; in the end its
      job is done, its media rows are there, and the objects of its images hold what the encoder yielded. */
  lemma FromUploadToMedia(s: State, p: Id, sid: Id, f: Id, leaf: string, mime: Option<Id>, data: Bytes, q: Id,
                          kind: Kind, d: Decoded, images: seq<Bytes>)
    returns (steps: seq<Step>, j: Id, x: State)
    requires Inv(s) && TxInv(s) && IsNewUpload(s, p, sid, f, mime)
    requires IsIdle(s, q) && forall k :: !IsPending(s.w, k)
    requires mime.Some? && mime.value in s.w.mimes && LooksLike(s.w.mimes[mime.value], kind)
    requires CanDecode(s.w, kind, d) && |images| == |PlanOf(kind, d)|
    ensures Way(s, steps, x) && j !in s.w.jobs
    ensures var u := WithJob(WithUpload(s.w, f, sid, Path(f, leaf), mime, data), j, sid, f);
      JobDone(u, x.w, j, kind, d, images)
  {
    UploadIsFresh(s, p, sid, f, mime);
    var s1, u;
    s1, j, u := UploadsToQueue(s, p, sid, f, leaf, mime, data, kind);
    JobIsNext(s.w, sid, f, Path(f, leaf), mime, data, j, kind);
    var s2, v := GoesToClaim(u, q);
    WaysJoin(s, s1, u, s2, v);
    WayKeepsInv(s, s1 + s2, v);
    var s3;
    s3, x := JobAlone(v, q, j, kind, d, images);
    WaysJoin(s, s1 + s2, v, s3, x);
    steps := s1 + s2 + s3;
  }
}

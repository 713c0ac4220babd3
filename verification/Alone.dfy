/** Handlers and jobs that nobody disturbs: the steps of the machine, taken in a row, lead where the contracts of
    the programs say. */
module Alone {
  import opened Text
  import opened MediaKind
  import opened Tables
  import opened Plan
  import opened Protocol
  import opened Invariant
  import opened Preservation
  import opened Transactions
  import opened Commits
  import opened Additions
  import opened Rows
  import opened Queue
  import opened Service

  /** The handler and the file are new, and the storage and the type are there. */
  predicate IsNewUpload(s: State, p: Id, sid: Id, f: Id, mime: Option<Id>) {
    && p != f && {p, f} !! s.used && f !in s.w.files
    && sid in s.w.storages && (mime.Some? ==> mime.value in s.w.mimes)
  }

  /** Insert, store, publish. */
  lemma UploadAlone(s: State, p: Id, sid: Id, f: Id, leaf: string, mime: Option<Id>, data: Bytes)
    returns (states: seq<State>)
    requires IsNewUpload(s, p, sid, f, mime)
    ensures |states| == 4 && states[0] == s
    ensures IsStretch(states, [BeginUpload(p, sid, f, leaf, mime), UploadStep(p, Store(data)),
                               UploadStep(p, Publish(true))])
    ensures states[3].w == WithUpload(s.w, f, sid, Path(f, leaf), mime, data) && states[3].pools == s.pools
    ensures states[3].procs == s.procs[p := Upload(sid, f, Path(f, leaf), mime, Live)]
  {
    var s1 := Apply(s, BeginUpload(p, sid, f, leaf, mime));
    var s2 := ApplyUpload(s1, p, Store(data));
    var s3 := ApplyUpload(s2, p, Publish(true));
    states := [s, s1, s2, s3];
    assert s3.w.files == WithUpload(s.w, f, sid, Path(f, leaf), mime, data).files;
  }

  /** What an upload and its rollback do to the shared state, call by call. */
  function UndoneWorld(w: World, sid: Id, f: Id, path: Path, mime: Option<Id>, partial: Option<Bytes>, b: bool,
                       r: bool): World
  {
    var w1 := InsertFile(w, f, UploadRow(sid, path, mime));
    var w2 := if partial.Some? then Put(w1, path, partial.value) else w1;
    var w3 := if b then DeleteBlob(w2, path) else w2;
    if r then DeleteFailedUploadingFile(w3, sid, f) else w3
  }

  lemma UndoneWorldIsUndone(w: World, sid: Id, f: Id, path: Path, mime: Option<Id>, partial: Option<Bytes>, b: bool,
                            r: bool)
    requires Integrity(w) && f !in w.files && path !in w.blobs
    ensures var v := UndoneWorld(w, sid, f, path, mime, partial, b, r);
      UndoneAs(w, v, f, sid, path, mime, b, r) && (b && r ==> v == w)
  {
    var row := UploadRow(sid, path, mime);
    var w1 := InsertFile(w, f, row);
    var w2 := if partial.Some? then Put(w1, path, partial.value) else w1;
    var w3 := if b then DeleteBlob(w2, path) else w2;
    if r {
      DropIgnoresBlobs(w1, w3, {f});
      DropUndoesInsert(w, f, row);
    }
    assert b ==> w3.blobs == w.blobs;
  }

  /** Insert, fail to store, roll back: with both deletes going through, the tables and the store are what
      they were. */
  lemma UndoAlone(s: State, p: Id, sid: Id, f: Id, leaf: string, mime: Option<Id>, partial: Option<Bytes>, b: bool,
                  r: bool)
    returns (states: seq<State>)
    requires IsNewUpload(s, p, sid, f, mime) && Integrity(s.w)
    requires forall k <- s.w.blobs :: k.dir != f
    ensures |states| == 5 && states[0] == s
    ensures IsStretch(states, [BeginUpload(p, sid, f, leaf, mime), UploadStep(p, FailStore(partial)),
                               UploadStep(p, UndoObject(b)), UploadStep(p, UndoInsert(r))])
    ensures UndoneAs(s.w, states[4].w, f, sid, Path(f, leaf), mime, b, r) && (b && r ==> states[4].w == s.w)
  {
    states := UndoSteps(s, p, sid, f, leaf, mime, partial, b, r);
    UndoneWorldIsUndone(s.w, sid, f, Path(f, leaf), mime, partial, b, r);
  }

  lemma UndoSteps(s: State, p: Id, sid: Id, f: Id, leaf: string, mime: Option<Id>, partial: Option<Bytes>, b: bool,
                  r: bool)
    returns (states: seq<State>)
    requires IsNewUpload(s, p, sid, f, mime)
    ensures |states| == 5 && states[0] == s
    ensures IsStretch(states, [BeginUpload(p, sid, f, leaf, mime), UploadStep(p, FailStore(partial)),
                               UploadStep(p, UndoObject(b)), UploadStep(p, UndoInsert(r))])
    ensures states[4].w == UndoneWorld(s.w, sid, f, Path(f, leaf), mime, partial, b, r)
  {
    var s1 := Apply(s, BeginUpload(p, sid, f, leaf, mime));
    var s2 := ApplyUpload(s1, p, FailStore(partial));
    var s3 := ApplyUpload(s2, p, UndoObject(b));
    states := [s, s1, s2, s3, ApplyUpload(s3, p, UndoInsert(r))];
  }

  /** A permanent delete: the object goes if its delete works, then the row, with all that refers to it, if that
      works. */
  lemma PurgeAlone(s: State, p: Id, sid: Id, f: Id, b: bool, r: bool) returns (states: seq<State>)
    requires Fresh(s, {p}) && f in s.w.files && s.w.files[f].storage == sid && s.w.files[f].excluded
    ensures |states| == 4 && states[0] == s
    ensures IsStretch(states, [HandlerStep(BeginPurge(p, sid, f)), HandlerStep(PurgeBlob(p, b)),
                               HandlerStep(PurgeRow(p, r))])
    ensures var v, key := states[3].w, s.w.files[f].realPath;
      && v.(blobs := s.w.blobs) == (if r then DropFiles(s.w, {f}) else s.w)
      && v.blobs == if b && key.Some? then s.w.blobs - {key.value} else s.w.blobs
  {
    var s1 := Apply(s, HandlerStep(BeginPurge(p, sid, f)));
    var s2 := ApplyHandler(s1, PurgeBlob(p, b));
    var s3 := ApplyHandler(s2, PurgeRow(p, r));
    states := [s, s1, s2, s3];
    DropIgnoresBlobs(s.w, s2.w, {f});
  }

  /** A soft delete puts the row into the trash, if it is there and not in the trash already, and does nothing else. */
  lemma TrashAlone(s: State, sid: Id, f: Id)
    ensures var v := Apply(s, HandlerStep(SoftDelete(sid, f)));
      if f in s.w.files && s.w.files[f].storage == sid && !s.w.files[f].excluded
      then v == s.(w := s.w.(files := s.w.files[f := s.w.files[f].(excluded := true)]))
      else v == s
  {
  }

  // ---------- The image job ----------

  lemma {:induction false} FreshId(used: set<Id>) returns (id: Id)
    ensures forall u <- used :: u < id
    decreases |used|
  {
    if used == {} {
      id := 0;
    } else {
      var u :| u in used;
      assert used == (used - {u}) + {u};
      id := FreshId(used - {u});
      if id <= u { id := u + 1; }
    }
  }

  /** The worker has committed the transaction of its task with the derived images `ds`. */
  ghost predicate Committed(s: State, v: State, p: Id, kind: Kind, task: Task, ds: seq<Derived>) {
    && IsBusy(v, p) && v.procs[p].loop.at == Finish(None)
    && v.w == Merge(s.w.(blobs := v.w.blobs), TaskTx(kind, task, ds))
    && Follows(ds, PlanOf(kind, task.decoded), task) && Apart(task, ds) && AllStored(v.w, ds)
    && MediaMade(s.w, v.w, kind, task, ds)
  }

  ghost predicate StepsOf(steps: seq<Step>, p: Id) {
    forall a <- steps :: a.WorkStep? && a.p == p
  }

  /** The worker has a transaction open for a file that is there. */
  ghost predicate Underway(s: State, p: Id) {
    && Inv(s) && TxInv(s)
    && IsBusy(s, p) && s.procs[p].loop.at.Open? && s.procs[p].loop.file in s.w.files
  }

  function TxnOf(s: State, p: Id): Protocol.Txn
    requires IsBusy(s, p) && s.procs[p].loop.at.Open?
  {
    s.procs[p].loop.at.t
  }

  lemma CanAdd(s: State, p: Id, fid: Id, size: nat)
    requires Underway(s, p) && |TxnOf(s, p).done| < |TxnOf(s, p).Plan()| && Fresh(s, {fid})
    ensures WorkEnabled(s, p, AddDerived(fid, size))
  {
    var l := s.procs[p].loop;
    assert ProcOk(s.w, s.procs[p]);
    StorageIsThere(s.w, l.job, l.storage, l.file, l.at);
    InsertsAt(s, p, fid);
  }

  lemma Added(s: State, p: Id, fid: Id, size: nat, s1: State)
    requires WorkEnabled(s, p, AddDerived(fid, size)) && s1 == ApplyWork(s, p, AddDerived(fid, size))
    ensures s1.w == s.w && s1.used == s.used + {fid}
    ensures IsBusy(s1, p) && s1.procs[p].loop.file == s.procs[p].loop.file
    ensures var at := s1.procs[p].loop.at;
      && at.Putting? && at.size == size && at.id == fid && at.path.dir == fid
      && at.t == s.procs[p].loop.at.t.(tx := at.t.tx)
  {
  }

  lemma CanPut(s1: State, p: Id, data: Bytes, link: Id)
    requires Inv(s1) && TxInv(s1) && IsBusy(s1, p) && s1.procs[p].loop.at.Putting? && Fresh(s1, {link})
    requires s1.procs[p].loop.file in s1.w.files && |data| == s1.procs[p].loop.at.size
    ensures WorkEnabled(s1, p, PutDerived(data, link))
  {
    InsertsAt(s1, p, link);
  }

  lemma PutDone(s1: State, p: Id, data: Bytes, link: Id, s2: State)
    requires WorkEnabled(s1, p, PutDerived(data, link)) && s2 == ApplyWork(s1, p, PutDerived(data, link))
    ensures s2.w == Put(s1.w, s1.procs[p].loop.at.path, data) && s2.used == s1.used + {link}
    ensures IsBusy(s2, p) && s2.procs[p].loop.file == s1.procs[p].loop.file
    ensures var b, at := s1.procs[p].loop.at, s2.procs[p].loop.at;
      && at.Open? && at.t.kind == b.t.kind && at.t.task == b.t.task && |at.t.done| == |b.t.done| + 1
      && at.t.done[..|b.t.done|] == b.t.done
      && at.t.done[|b.t.done|].file == b.id && at.t.done[|b.t.done|].leaf == b.path.leaf
  {
  }

  /** The object of a derived image holds these bytes. */
  ghost predicate Holds(w: World, d: Derived, data: Bytes) {
    Path(d.file, d.leaf) in w.blobs && w.blobs[Path(d.file, d.leaf)] == data
  }

  /** Objects under ids drawn before stay as they were. */
  ghost predicate OldObjectsStay(s: State, v: State) {
    && s.used <= v.used
    && forall k <- s.w.blobs :: k.dir in s.used ==> k in v.w.blobs && v.w.blobs[k] == s.w.blobs[k]
  }

  /** Where the worker stands after one more image, whose object holds `data`. */
  ghost predicate OneMore(s: State, s2: State, p: Id, data: Bytes)
    requires IsBusy(s, p) && s.procs[p].loop.at.Open? && IsBusy(s2, p) && s2.procs[p].loop.at.Open?
  {
    var n := |TxnOf(s, p).done|;
    && s2.w == s.w.(blobs := s2.w.blobs) && OldObjectsStay(s, s2)
    && TxnOf(s2, p).kind == TxnOf(s, p).kind && TxnOf(s2, p).task == TxnOf(s, p).task
    && |TxnOf(s2, p).done| == n + 1 && TxnOf(s2, p).done[..n] == TxnOf(s, p).done
    && Holds(s2.w, TxnOf(s2, p).done[n], data) && TxnOf(s2, p).done[n].file in s2.used
  }

  /** The worker has inserted the row of the next image and is about to store its object. */
  ghost predicate Storing(s: State, s1: State, p: Id, size: nat)
    requires IsBusy(s, p) && s.procs[p].loop.at.Open?
  {
    && Inv(s1) && TxInv(s1) && s1.w == s.w
    && IsBusy(s1, p) && s1.procs[p].loop.file == s.procs[p].loop.file
    && s1.procs[p].loop.at.Putting? && s1.procs[p].loop.at.size == size
    && s1.procs[p].loop.at.path.dir == s1.procs[p].loop.at.id && s1.procs[p].loop.at.id !in s.used
    && s1.used == s.used + {s1.procs[p].loop.at.id}
    && s1.procs[p].loop.at.t == TxnOf(s, p).(tx := s1.procs[p].loop.at.t.tx)
  }

  lemma AddNext(s: State, p: Id, size: nat) returns (a: Step, s1: State)
    requires Underway(s, p) && |TxnOf(s, p).done| < |TxnOf(s, p).Plan()|
    ensures Enabled(s, a) && s1 == Apply(s, a) && a.WorkStep? && a.p == p
    ensures Storing(s, s1, p, size)
  {
    var fid := FreshId(s.used);
    a := WorkStep(p, AddDerived(fid, size));
    CanAdd(s, p, fid, size);
    s1 := Apply(s, a);
    Added(s, p, fid, size, s1);
    StepKeepsInv(s, a);
    StepKeepsTxInv(s, a);
  }

  /** What the machine's step does, as the two states show it. */
  lemma OneMoreFrom(s: State, s1: State, s2: State, p: Id, data: Bytes, link: Id)
    requires IsBusy(s, p) && s.procs[p].loop.at.Open? && Storing(s, s1, p, |data|)
    requires IsBusy(s2, p) && s2.procs[p].loop.at.Open?
    requires s2.w == Put(s1.w, s1.procs[p].loop.at.path, data) && s2.used == s1.used + {link}
    requires var b, t := s1.procs[p].loop.at, TxnOf(s2, p);
      && t.kind == b.t.kind && t.task == b.t.task && |t.done| == |b.t.done| + 1
      && t.done[..|b.t.done|] == b.t.done
      && t.done[|b.t.done|].file == b.id && t.done[|b.t.done|].leaf == b.path.leaf
    ensures OneMore(s, s2, p, data)
  {
    var path := s1.procs[p].loop.at.path;
    assert Path(path.dir, path.leaf) == path;
  }

  lemma PutNext(s: State, s1: State, p: Id, data: Bytes) returns (b: Step, s2: State)
    requires IsBusy(s, p) && s.procs[p].loop.at.Open? && s.procs[p].loop.file in s.w.files
    requires Storing(s, s1, p, |data|)
    ensures Enabled(s1, b) && s2 == Apply(s1, b) && b.WorkStep? && b.p == p
    ensures Underway(s2, p) && OneMore(s, s2, p, data)
  {
    var link := FreshId(s1.used);
    b := WorkStep(p, PutDerived(data, link));
    CanPut(s1, p, data, link);
    s2 := ApplyWork(s1, p, PutDerived(data, link));
    PutDone(s1, p, data, link, s2);
    OneMoreFrom(s, s1, s2, p, data, link);
    PutKeepsUnderway(s1, p, data, link);
  }

  lemma PutKeepsUnderway(s1: State, p: Id, data: Bytes, link: Id)
    requires Inv(s1) && TxInv(s1) && WorkEnabled(s1, p, PutDerived(data, link))
    requires s1.procs[p].loop.file in s1.w.files
    ensures Underway(ApplyWork(s1, p, PutDerived(data, link)), p)
  {
    WorkStepKeepsInv(s1, p, PutDerived(data, link));
    WorkKeeps(s1, p, PutDerived(data, link));
    PutDone(s1, p, data, link, ApplyWork(s1, p, PutDerived(data, link)));
  }

  lemma CanCommitNow(s: State, p: Id)
    requires Underway(s, p) && |TxnOf(s, p).done| == |TxnOf(s, p).Plan()|
    ensures WorkEnabled(s, p, CommitTx)
  {
    var t := TxnOf(s, p);
    assert WorkerOk(s.w.mimes, s.procs[p]);
    OpenIsAddable(s, p);
    AddableCommits(s.w, t.kind, t.task, t.done);
  }

  lemma CommitLands(s: State, p: Id, v: State)
    requires WorkEnabled(s, p, CommitTx) && v == ApplyWork(s, p, CommitTx)
    ensures IsBusy(v, p) && v.procs[p].loop.at == Finish(None) && v.w.blobs == s.w.blobs
  {
  }

  lemma CommitNow(s: State, p: Id) returns (v: State)
    requires Underway(s, p) && |TxnOf(s, p).done| == |TxnOf(s, p).Plan()|
    ensures Enabled(s, WorkStep(p, CommitTx)) && v == Apply(s, WorkStep(p, CommitTx))
    ensures Committed(s, v, p, TxnOf(s, p).kind, TxnOf(s, p).task, TxnOf(s, p).done)
  {
    CanCommitNow(s, p);
    v := ApplyWork(s, p, CommitTx);
    CommitLands(s, p, v);
    CommitAddsPlanAt(s, p);
    CommitMakesMedia(s, p);
    IsCommitted(s, v, p, TxnOf(s, p).kind, TxnOf(s, p).task, TxnOf(s, p).done);
  }

  lemma IsCommitted(s: State, v: State, p: Id, kind: Kind, task: Task, ds: seq<Derived>)
    requires IsBusy(v, p) && v.procs[p].loop.at == Finish(None)
    requires v.w == Merge(s.w, TaskTx(kind, task, ds))
    requires Follows(ds, PlanOf(kind, task.decoded), task) && Apart(task, ds)
    requires forall k | 0 <= k < |ds| :: Stored(s.w, Some(Path(ds[k].file, ds[k].leaf)), ds[k].size)
    requires MediaMade(s.w, v.w, kind, task, ds)
    ensures Committed(s, v, p, kind, task, ds)
  {
    assert s.w.(blobs := v.w.blobs) == s.w;
  }

  /** Two steps of the worker. */
  ghost predicate Leads(s: State, a: Step, s1: State, b: Step, s2: State, p: Id) {
    && Enabled(s, a) && s1 == Apply(s, a) && a.WorkStep? && a.p == p
    && Enabled(s1, b) && s2 == Apply(s1, b) && b.WorkStep? && b.p == p
  }

  lemma StartsTwice(s: State, a: Step, s1: State, b: Step, states: seq<State>, steps: seq<Step>, p: Id)
    requires IsStretch(states, steps) && Leads(s, a, s1, b, states[0], p) && StepsOf(steps, p)
    ensures IsStretch([s, s1] + states, [a, b] + steps) && StepsOf([a, b] + steps, p)
  {
    StretchStarts(s1, b, states, steps);
    StretchStarts(s, a, [s1] + states, [b] + steps);
    assert [s] + ([s1] + states) == [s, s1] + states && [a] + ([b] + steps) == [a, b] + steps;
  }

  lemma CommittedFrom(s: State, s2: State, v: State, p: Id, kind: Kind, task: Task, ds: seq<Derived>)
    requires s2.w == s.w.(blobs := s2.w.blobs) && Committed(s2, v, p, kind, task, ds)
    ensures Committed(s, v, p, kind, task, ds)
  {
    MadeFrom(s.w, s2.w, v.w, kind, task, ds);
  }

  /** What a commit adds to the tables does not depend on the objects stored before. */
  lemma MadeFrom(u: World, u2: World, v: World, kind: Kind, task: Task, ds: seq<Derived>)
    requires u2 == u.(blobs := u2.blobs) && MediaMade(u2, v, kind, task, ds)
    ensures MediaMade(u, v, kind, task, ds)
  {
  }

  /** The objects of the derived images from `n` on hold these bytes, in order. */
  ghost predicate AllHold(w: World, ds: seq<Derived>, n: nat, images: seq<Bytes>)
    requires |ds| == n + |images|
  {
    forall k | 0 <= k < |images| :: Holds(w, ds[n + k], images[k])
  }

  /** The worker has committed its whole plan: to what was done at `s` it added one derived image for each of
      `images`, whose objects hold exactly those bytes. */
  ghost predicate Finished(s: State, v: State, p: Id, images: seq<Bytes>, ds: seq<Derived>)
    requires IsBusy(s, p) && s.procs[p].loop.at.Open?
  {
    var t := TxnOf(s, p);
    && Committed(s, v, p, t.kind, t.task, ds) && OldObjectsStay(s, v)
    && |ds| == |t.done| + |images| && ds[..|t.done|] == t.done && AllHold(v.w, ds, |t.done|, images)
  }

  /** On its own steps, an insert, a Put and a link for each image, the worker gets to a commit. */
  ghost predicate GetsToCommit(s: State, p: Id, images: seq<Bytes>)
    requires IsBusy(s, p) && s.procs[p].loop.at.Open?
  {
    exists states, steps, ds ::
      && IsStretch(states, steps) && states[0] == s && StepsOf(steps, p) && |steps| == 2 * |images| + 1
      && Finished(s, states[|steps|], p, images, ds)
  }

  lemma CommitsNow(s: State, p: Id)
    requires Underway(s, p) && |TxnOf(s, p).done| == |TxnOf(s, p).Plan()|
    ensures GetsToCommit(s, p, [])
  {
    var v := CommitNow(s, p);
    var ds := TxnOf(s, p).done;
    OneStep(s, WorkStep(p, CommitTx), v);
    CommitStays(s, p, v);
    FinishedNow(s, p, v, ds);
    CommitsWith(s, p, v, ds);
  }

  lemma CommitStays(s: State, p: Id, v: State)
    requires WorkEnabled(s, p, CommitTx) && v == ApplyWork(s, p, CommitTx)
    ensures OldObjectsStay(s, v)
  {
  }

  lemma FinishedNow(s: State, p: Id, v: State, ds: seq<Derived>)
    requires IsBusy(s, p) && s.procs[p].loop.at.Open? && ds == TxnOf(s, p).done && OldObjectsStay(s, v)
    requires Committed(s, v, p, TxnOf(s, p).kind, TxnOf(s, p).task, ds)
    ensures Finished(s, v, p, [], ds)
  {
    assert ds[..|ds|] == ds;
  }

  lemma OneStep(s: State, a: Step, v: State)
    requires Enabled(s, a) && v == Apply(s, a)
    ensures IsStretch([s, v], [a])
  {
  }

  lemma CommitsWith(s: State, p: Id, v: State, ds: seq<Derived>)
    requires IsBusy(s, p) && s.procs[p].loop.at.Open?
    requires IsStretch([s, v], [WorkStep(p, CommitTx)]) && Finished(s, v, p, [], ds)
    ensures GetsToCommit(s, p, [])
  {
    var states, steps := [s, v], [WorkStep(p, CommitTx)];
    assert states[|steps|] == v;
    GetsThere(s, p, [], states, steps, ds);
  }

  lemma OldHolds(s2: State, v: State, d: Derived, data: Bytes)
    requires Holds(s2.w, d, data) && d.file in s2.used && OldObjectsStay(s2, v)
    ensures Holds(v.w, d, data)
  {
  }

  lemma OneMoreHolds(w: World, ds: seq<Derived>, n: nat, images: seq<Bytes>)
    requires images != [] && |ds| == n + |images| && Holds(w, ds[n], images[0])
    requires AllHold(w, ds, n + 1, images[1..])
    ensures AllHold(w, ds, n, images)
  {
    forall k | 0 <= k < |images| ensures Holds(w, ds[n + k], images[k]) {
      if k > 0 { assert Holds(w, ds[n + 1 + (k - 1)], images[1..][k - 1]); }
    }
  }

  lemma PrefixOfPrefix<T>(ds: seq<T>, d2: seq<T>, d: seq<T>)
    requires |d2| == |d| + 1 <= |ds| && ds[..|d2|] == d2 && d2[..|d|] == d
    ensures ds[..|d|] == d && ds[|d|] == d2[|d|]
  {
    assert ds[..|d|] == ds[..|d2|][..|d|] && ds[|d|] == ds[..|d2|][|d|];
  }

  lemma StayTwice(s: State, s2: State, v: State)
    requires OldObjectsStay(s, s2) && OldObjectsStay(s2, v)
    ensures OldObjectsStay(s, v)
  {
  }

  lemma FinishedFrom(s: State, s2: State, v: State, p: Id, images: seq<Bytes>, ds: seq<Derived>)
    requires IsBusy(s, p) && s.procs[p].loop.at.Open? && IsBusy(s2, p) && s2.procs[p].loop.at.Open?
    requires images != [] && OneMore(s, s2, p, images[0]) && Finished(s2, v, p, images[1..], ds)
    ensures Finished(s, v, p, images, ds)
  {
    var t, t2 := TxnOf(s, p), TxnOf(s2, p);
    var n := |t.done|;
    CommittedFrom(s, s2, v, p, t.kind, t.task, ds);
    PrefixOfPrefix(ds, t2.done, t.done);
    StayTwice(s, s2, v);
    OldHolds(s2, v, t2.done[n], images[0]);
    OneMoreHolds(v.w, ds, n, images);
  }

  lemma CommitsLater(s: State, a: Step, s1: State, b: Step, s2: State, p: Id, images: seq<Bytes>)
    requires IsBusy(s, p) && s.procs[p].loop.at.Open? && IsBusy(s2, p) && s2.procs[p].loop.at.Open?
    requires Leads(s, a, s1, b, s2, p) && images != [] && OneMore(s, s2, p, images[0])
    requires GetsToCommit(s2, p, images[1..])
    ensures GetsToCommit(s, p, images)
  {
    var rest, more, ds :| IsStretch(rest, more) && rest[0] == s2 && StepsOf(more, p)
      && |more| == 2 * |images[1..]| + 1 && Finished(s2, rest[|more|], p, images[1..], ds);
    FinishedFrom(s, s2, rest[|more|], p, images, ds);
    Prepend(s, a, s1, b, p, images, rest, more, ds);
  }

  lemma Prepend(s: State, a: Step, s1: State, b: Step, p: Id, images: seq<Bytes>, rest: seq<State>, more: seq<Step>,
                ds: seq<Derived>)
    requires IsBusy(s, p) && s.procs[p].loop.at.Open? && images != []
    requires IsStretch(rest, more) && Leads(s, a, s1, b, rest[0], p) && StepsOf(more, p)
    requires |more| == 2 * |images| - 1 && Finished(s, rest[|more|], p, images, ds)
    ensures GetsToCommit(s, p, images)
  {
    StartsTwice(s, a, s1, b, rest, more, p);
    assert ([s, s1] + rest)[|[a, b] + more|] == rest[|more|];
    GetsThere(s, p, images, [s, s1] + rest, [a, b] + more, ds);
  }

  lemma GetsThere(s: State, p: Id, images: seq<Bytes>, states: seq<State>, steps: seq<Step>, ds: seq<Derived>)
    requires IsBusy(s, p) && s.procs[p].loop.at.Open?
    requires IsStretch(states, steps) && states[0] == s && StepsOf(steps, p) && |steps| == 2 * |images| + 1
    requires Finished(s, states[|steps|], p, images, ds)
    ensures GetsToCommit(s, p, images)
  {
  }

  /** One more image, whatever the encoder yields for it. */
  lemma OneImage(s: State, p: Id, data: Bytes) returns (a: Step, s1: State, b: Step, s2: State)
    requires Underway(s, p) && |TxnOf(s, p).done| < |TxnOf(s, p).Plan()|
    ensures Leads(s, a, s1, b, s2, p) && Underway(s2, p) && OneMore(s, s2, p, data)
  {
    a, s1 := AddNext(s, p, |data|);
    b, s2 := PutNext(s, s1, p, data);
  }

  /** From an open transaction whose file is there, whatever bytes the encoder yields for the images still to be
      made, the worker gets to its commit on its own steps. What it commits is the whole plan, in order, which is
      what the contract of ProcessImage says, and the objects of the new images hold exactly those bytes. */
  lemma {:induction false} ImageJobAlone(s: State, p: Id, images: seq<Bytes>)
    requires Underway(s, p) && |TxnOf(s, p).done| + |images| == |TxnOf(s, p).Plan()|
    ensures GetsToCommit(s, p, images)
    decreases |images|
  {
    if images == [] {
      CommitsNow(s, p);
    } else {
      var a, s1, b, s2 := OneImage(s, p, images[0]);
      ImageJobAlone(s2, p, images[1..]);
      CommitsLater(s, a, s1, b, s2, p, images);
    }
  }
}

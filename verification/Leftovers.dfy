/** Objects without a row: what leaves one behind, and what takes it away again. */
module Leftovers {
  import opened Text
  import opened Tables
  import opened MediaKind
  import opened Protocol
  import opened Invariant
  import opened Preservation
  import opened UploadAtomicity

  function UnbornOf(s: State, p: Id): set<Id> {
    if p in s.procs then Unborn(s.procs[p]) else {}
  }

  /** Some open transaction holds the row. */
  ghost predicate Reserved(s: State, f: Id) {
    exists p: Id :: f in UnbornOf(s, p)
  }

  /** The object has no row, and no open transaction is about to give it one. */
  ghost predicate Leftover(s: State, k: Path) {
    k in s.w.blobs && k.dir !in s.w.files && !Reserved(s, k.dir)
  }

  ghost predicate HasUnpublished(w: World, sid: Id, f: Id) {
    f in w.files && w.files[f].storage == sid && w.files[f].status == Uploading
  }

  // ---------- The causes ----------

  /** An upload stores its object, or part of it, after its row was deleted. */
  ghost predicate StoresTooLate(s: State, p: Id, a: UploadAct, k: Path)
    requires UploadEnabled(s, p, a)
  {
    (a.Store? || (a.FailStore? && a.partial.Some?)) && s.procs[p].path == k && k.dir !in s.w.files
  }

  /** A rollback deletes the row while the object is there: its own delete of the object failed. */
  ghost predicate UndoesRowOnly(s: State, p: Id, a: UploadAct, k: Path)
    requires UploadEnabled(s, p, a)
  {
    && a.UndoInsert? && a.ok && s.procs[p].file == k.dir
    && HasUnpublished(s.w, s.procs[p].storage, k.dir) && k in s.w.blobs
  }

  /** A permanent delete takes the row while the object is there: its own delete of the object failed, or an upload
      stored it since. */
  ghost predicate PurgesRowOnly(s: State, a: HandlerAct, k: Path)
    requires HandlerEnabled(s, a)
  {
    && a.PurgeRow? && a.ok && s.procs[a.p].file == k.dir
    && HasFile(s.w, s.procs[a.p].storage, k.dir, true) && k in s.w.blobs
  }

  /** An image job fails after it stored an object of its transaction, or part of one. */
  ghost predicate AbandonsObject(s: State, p: Id, a: WorkAct, k: Path)
    requires WorkEnabled(s, p, a)
  {
    && a.FailProcess? && k.dir in Unborn(s.procs[p])
    && (k in s.w.blobs || (a.partial.Some? && s.procs[p].loop.at.Putting? && s.procs[p].loop.at.path == k))
  }

  /** The steps that leave an object without a row, besides those four: deleting the storage of its file, and the
      death of a worker whose transaction holds the row. */
  ghost predicate LeavesBehind(s: State, a: Step, k: Path)
    requires Enabled(s, a)
  {
    match a
    case UploadStep(p, u) => StoresTooLate(s, p, u, k) || UndoesRowOnly(s, p, u, k)
    case HandlerStep(h) => PurgesRowOnly(s, h, k)
    case WorkStep(p, b) => AbandonsObject(s, p, b, k)
    case DropStorage(sid) => k in s.w.blobs && k.dir in s.w.files && s.w.files[k.dir].storage == sid
    case Crash(p) => k in s.w.blobs && k.dir in Unborn(s.procs[p])
    case _ => false
  }

  /** The steps that delete the object. */
  ghost predicate Deletes(s: State, a: Step, k: Path)
    requires Enabled(s, a)
  {
    match a
    case UploadStep(p, UndoObject(ok)) => ok && s.procs[p].path == k
    case HandlerStep(PurgeBlob(p, ok)) => ok && s.procs[p].key.Some? && s.procs[p].key.value == k
    case _ => false
  }

  // ---------- One step ----------

  /** After the step the object is a leftover just when it was one and was not deleted, or was left behind now. */
  ghost predicate Accounted(s: State, a: Step, t: State, k: Path)
    requires Enabled(s, a)
  {
    Leftover(t, k) <==> (Leftover(s, k) && !Deletes(s, a, k)) || (!Leftover(s, k) && LeavesBehind(s, a, k))
  }

  lemma SameReserved(s: State, t: State, f: Id)
    requires forall p: Id :: f in UnbornOf(t, p) <==> f in UnbornOf(s, p)
    ensures Reserved(t, f) <==> Reserved(s, f)
  {
  }

  /** The transaction of one process goes away: what it held, nobody holds now. */
  lemma Released(s: State, t: State, p: Id, f: Id)
    requires OwnersDisjoint(s) && p in s.procs && UnbornOf(t, p) == {}
    requires forall q: Id :: q != p ==> UnbornOf(t, q) == UnbornOf(s, q)
    ensures Reserved(t, f) <==> Reserved(s, f) && f !in UnbornOf(s, p)
  {
    forall q: Id | f in UnbornOf(s, p) && q != p ensures f !in UnbornOf(s, q) {
      if q in s.procs { UnbornDisjoint(s, p, q); }
    }
    if Reserved(s, f) && f !in UnbornOf(s, p) {
      var q: Id :| f in UnbornOf(s, q);
      assert f in UnbornOf(t, q);
    }
  }

  // ---------- Uploads, handlers, pools ----------

  lemma UploadsHoldNothing(s: State, p: Id, a: UploadAct, f: Id)
    requires UploadEnabled(s, p, a) && OwnersDisjoint(s)
    ensures Reserved(ApplyUpload(s, p, a), f) <==> Reserved(s, f)
    ensures !Reserved(s, s.procs[p].file)
  {
    SameReserved(s, ApplyUpload(s, p, a), f);
    assert s.procs[p].file in Target(s.procs[p]);
  }

  lemma UploadsAccount(s: State, p: Id, a: UploadAct, k: Path)
    requires UploadEnabled(s, p, a) && ProcOk(s.w, s.procs[p]) && OwnersDisjoint(s)
    ensures Accounted(s, UploadStep(p, a), ApplyUpload(s, p, a), k)
  {
    UploadsHoldNothing(s, p, a, k.dir);
  }

  lemma HandlersHoldNothing(s: State, a: HandlerAct, f: Id)
    requires HandlerEnabled(s, a) && s.procs.Keys <= s.used
    ensures Reserved(ApplyHandler(s, a), f) <==> Reserved(s, f)
  {
    SameReserved(s, ApplyHandler(s, a), f);
  }

  lemma HandlersAccount(s: State, a: HandlerAct, k: Path)
    requires HandlerEnabled(s, a) && s.procs.Keys <= s.used && OwnersDisjoint(s)
    ensures Accounted(s, HandlerStep(a), ApplyHandler(s, a), k)
  {
    HandlersHoldNothing(s, a, k.dir);
    if a.PurgeRow? { PurgeTargetIsFree(s, a.p); }
  }

  lemma PurgeTargetIsFree(s: State, p: Id)
    requires OwnersDisjoint(s) && p in s.procs && s.procs[p].Purge?
    ensures !Reserved(s, s.procs[p].file)
  {
    assert s.procs[p].file in Target(s.procs[p]);
  }

  lemma PoolsAccount(s: State, a: PoolAct, k: Path)
    requires PoolEnabled(s, a) && s.procs.Keys <= s.used
    ensures Accounted(s, PoolStep(a), ApplyPool(s, a), k)
  {
    SameReserved(s, ApplyPool(s, a), k.dir);
  }

  // ---------- Workers ----------

  lemma LookupsAccount(s: State, p: Id, a: WorkAct, k: Path)
    requires WorkEnabled(s, p, a) && !a.AddDerived? && !a.PutDerived? && !a.CommitTx? && !a.FailProcess?
    ensures Accounted(s, WorkStep(p, a), ApplyWork(s, p, a), k)
  {
    SameReserved(s, ApplyWork(s, p, a), k.dir);
  }

  lemma AddAccounts(s: State, p: Id, fid: Id, size: nat, k: Path)
    requires WorkEnabled(s, p, AddDerived(fid, size)) && (k in s.w.blobs ==> k.dir in s.used)
    ensures Accounted(s, WorkStep(p, AddDerived(fid, size)), ApplyWork(s, p, AddDerived(fid, size)), k)
  {
    if k in s.w.blobs { SameReserved(s, ApplyWork(s, p, AddDerived(fid, size)), k.dir); }
  }

  lemma PutShape(s: State, p: Id, data: Bytes, link: Id, t: State)
    requires WorkEnabled(s, p, PutDerived(data, link)) && t == ApplyWork(s, p, PutDerived(data, link))
    ensures t.w == Put(s.w, s.procs[p].loop.at.path, data) && forall q: Id :: UnbornOf(t, q) == UnbornOf(s, q)
  {
  }

  lemma PutPathIsReserved(s: State, p: Id)
    requires IsBusy(s, p) && s.procs[p].loop.at.Putting? && ProcOk(s.w, s.procs[p])
    ensures Reserved(s, s.procs[p].loop.at.path.dir)
  {
    assert s.procs[p].loop.at.id in UnbornOf(s, p);
  }

  lemma PutAccounts(s: State, p: Id, data: Bytes, link: Id, k: Path)
    requires WorkEnabled(s, p, PutDerived(data, link)) && ProcOk(s.w, s.procs[p])
    ensures Accounted(s, WorkStep(p, PutDerived(data, link)), ApplyWork(s, p, PutDerived(data, link)), k)
  {
    var t := ApplyWork(s, p, PutDerived(data, link));
    PutShape(s, p, data, link, t);
    SameReserved(s, t, k.dir);
    PutPathIsReserved(s, p);
  }

  lemma CommitAccounts(s: State, p: Id, k: Path)
    requires WorkEnabled(s, p, CommitTx) && OwnersDisjoint(s)
    ensures Accounted(s, WorkStep(p, CommitTx), ApplyWork(s, p, CommitTx), k)
  {
    Released(s, ApplyWork(s, p, CommitTx), p, k.dir);
    assert k.dir in UnbornOf(s, p) ==> Reserved(s, k.dir);
  }

  lemma UnbornHasNoRow(s: State, p: Id, f: Id)
    requires p in s.procs && ProcOk(s.w, s.procs[p]) && f in Unborn(s.procs[p])
    ensures f !in s.w.files && Reserved(s, f)
  {
    assert f in UnbornOf(s, p);
  }

  lemma FailAccounts(s: State, p: Id, partial: Option<Bytes>, msg: Bytes, k: Path)
    requires WorkEnabled(s, p, FailProcess(partial, msg)) && OwnersDisjoint(s) && ProcOk(s.w, s.procs[p])
    ensures Accounted(s, WorkStep(p, FailProcess(partial, msg)), ApplyWork(s, p, FailProcess(partial, msg)), k)
  {
    Released(s, ApplyWork(s, p, FailProcess(partial, msg)), p, k.dir);
    if k.dir in Unborn(s.procs[p]) { UnbornHasNoRow(s, p, k.dir); }
    var at := s.procs[p].loop.at;
    assert at.Putting? ==> at.path.dir in Unborn(s.procs[p]);
  }

  lemma WorkAccounts(s: State, p: Id, a: WorkAct, k: Path)
    requires WorkEnabled(s, p, a) && OwnersDisjoint(s) && ProcsOk(s) && (k in s.w.blobs ==> k.dir in s.used)
    ensures Accounted(s, WorkStep(p, a), ApplyWork(s, p, a), k)
  {
    assert ProcOk(s.w, s.procs[p]);
    match a
    case AddDerived(fid, size) => AddAccounts(s, p, fid, size, k);
    case PutDerived(data, link) => PutAccounts(s, p, data, link, k);
    case CommitTx => CommitAccounts(s, p, k);
    case FailProcess(partial, msg) => FailAccounts(s, p, partial, msg, k);
    case _ => LookupsAccount(s, p, a, k);
  }

  // ---------- All steps, all runs ----------

  lemma CrashAccounts(s: State, p: Id, k: Path)
    requires p in s.procs && OwnersDisjoint(s) && ProcOk(s.w, s.procs[p])
    ensures Accounted(s, Crash(p), EndProc(s, p), k)
  {
    Released(s, EndProc(s, p), p, k.dir);
    if k.dir in Unborn(s.procs[p]) { UnbornHasNoRow(s, p, k.dir); }
  }

  lemma DropAccounts(s: State, sid: Id, k: Path)
    requires ProcsOk(s)
    ensures Accounted(s, DropStorage(sid), Apply(s, DropStorage(sid)), k)
  {
    SameReserved(s, Apply(s, DropStorage(sid)), k.dir);
    if Reserved(s, k.dir) {
      var p: Id :| k.dir in UnbornOf(s, p);
      UnbornHasNoRow(s, p, k.dir);
    }
  }

  lemma BeginAccounts(s: State, a: Step, k: Path)
    requires Enabled(s, a) && (a.NewStorage? || a.BeginUpload?) && s.procs.Keys <= s.used
    requires k in s.w.blobs ==> k.dir in s.used
    ensures Accounted(s, a, Apply(s, a), k)
  {
    SameReserved(s, Apply(s, a), k.dir);
  }

  /** Exactly the named steps leave an object behind, and exactly the deletes of that object take a leftover away. */
  lemma StepAccounts(s: State, a: Step, k: Path)
    requires Inv(s) && ObjectsUsed(s) && Enabled(s, a)
    ensures Accounted(s, a, Apply(s, a), k)
  {
    match a
    case UploadStep(p, u) =>
      assert ProcOk(s.w, s.procs[p]);
      UploadsAccount(s, p, u, k);
    case HandlerStep(h) => HandlersAccount(s, h, k);
    case PoolStep(b) => PoolsAccount(s, b, k);
    case WorkStep(p, b) => WorkAccounts(s, p, b, k);
    case Crash(p) =>
      assert ProcOk(s.w, s.procs[p]);
      CrashAccounts(s, p, k);
    case DropStorage(sid) => DropAccounts(s, sid, k);
    case _ => BeginAccounts(s, a, k);
  }

  ghost predicate LeftAt(states: seq<State>, steps: seq<Step>, j: nat, i: nat, k: Path)
    requires |states| == |steps| + 1 && j < i < |states| && Enabled(states[j], steps[j])
  {
    LeavesBehind(states[j], steps[j], k) && forall m | j < m <= i :: Leftover(states[m], k)
  }

  lemma RunAccounts(mimes: map<Id, MimeType>, states: seq<State>, steps: seq<Step>, i: nat, k: Path)
    requires IsRun(mimes, states, steps) && i < |steps|
    ensures Accounted(states[i], steps[i], states[i + 1], k)
  {
    RunKeepsInv(mimes, states, steps, i);
    RunKeepsObjectsUsed(mimes, states, steps, i);
    StepAccounts(states[i], steps[i], k);
  }

  /** In every reachable state, an object without a row was left behind by one of the named steps: an upload that
      stored it after its row was deleted, a rollback or a permanent delete that took the row but not the object, an
      image job that failed or died after storing it, or the deletion of its storage. It has been a leftover ever
      since. */
  lemma {:induction false} LeftoversHaveACause(mimes: map<Id, MimeType>, states: seq<State>, steps: seq<Step>, i: nat,
                                               k: Path) returns (j: nat)
    requires IsRun(mimes, states, steps) && i < |states| && Leftover(states[i], k)
    ensures j < i && LeftAt(states, steps, j, i, k)
  {
    assert i > 0;
    RunAccounts(mimes, states, steps, i - 1, k);
    if Leftover(states[i - 1], k) {
      j := LeftoversHaveACause(mimes, states, steps, i - 1, k);
    } else {
      j := i - 1;
    }
  }
}

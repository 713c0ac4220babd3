/** Every step of the service keeps the invariant. */
module Preservation {
  import opened Text
  import opened MediaKind
  import opened Tables
  import opened Plan
  import opened Protocol
  import opened Invariant
  import opened Frames

  // ---------- Bookkeeping of ids, owners and history ----------

  /** One process moves to a new program counter without acquiring anything. */
  lemma SameOwner(s: State, p: Id, proc: Proc)
    requires p in s.procs && IdsUsed(s) && OwnersDisjoint(s)
    requires Owns(proc) <= Owns(s.procs[p]) && Target(proc) <= Target(s.procs[p])
    requires Unborn(proc) <= Unborn(s.procs[p])
    ensures IdsUsed(SetProc(s, p, proc)) && OwnersDisjoint(SetProc(s, p, proc))
  {
  }

  /** The ids and owners of `t` are those of `s`, with fewer rows or processes or more drawn ids. */
  lemma FewerOwners(s: State, t: State)
    requires IdsUsed(s) && OwnersDisjoint(s)
    requires s.used <= t.used && t.procs.Keys <= s.procs.Keys
    requires forall p <- t.procs :: t.procs[p] == s.procs[p]
    requires t.w.files.Keys <= t.used && t.w.jobs.Keys <= t.used
    ensures IdsUsed(t) && OwnersDisjoint(t)
  {
  }

  lemma NotMine(proc: Proc, used: set<Id>, id: Id)
    requires ProcIdsUsed(proc, used) && id !in used
    ensures FileKey(id) !in Owns(proc) && JobKey(id) !in Owns(proc)
    ensures id !in Target(proc) && id !in Unborn(proc)
  {
    assert id in Unborn(proc) ==> FileKey(id) in Owns(proc);
  }

  /** Process `p` starts, or moves and acquires rows that nobody else owns or targets. */
  lemma Acquire(s: State, t: State, p: Id)
    requires IdsUsed(s) && OwnersDisjoint(s)
    requires p in t.procs && t.procs == s.procs[p := t.procs[p]] && s.used <= t.used && p in t.used
    requires t.w.files.Keys <= t.used && t.w.jobs.Keys <= t.used
    requires ProcIdsUsed(t.procs[p], t.used) && Unborn(t.procs[p]) !! Target(t.procs[p])
    requires forall q <- s.procs :: q != p ==>
      && Owns(t.procs[p]) !! Owns(s.procs[q])
      && Unborn(t.procs[p]) !! Target(s.procs[q]) && Unborn(s.procs[q]) !! Target(t.procs[p])
    ensures IdsUsed(t) && OwnersDisjoint(t)
  {
  }

  lemma SameClaims(s: State, t: State)
    requires ClaimsOk(s) && t.claims == s.claims && s.used <= t.used
    requires forall j :: IsPending(t.w, j) && j in s.used ==> IsPending(s.w, j)
    ensures ClaimsOk(t)
  {
  }

  /** The step changed process `p` and the world; everyone else still stands. */
  lemma Conclude(s: State, t: State, p: Id)
    requires ProcsOk(s) && WorldOk(t.w) && IdsUsed(t) && OwnersDisjoint(t) && ClaimsOk(t)
    requires forall q <- t.procs :: q != p ==> ProcOk(t.w, t.procs[q])
    requires p in t.procs ==> ProcOk(t.w, t.procs[p])
    ensures Inv(t)
  {
  }

  // ---------- Uploads ----------

  /** An upload handler writes or deletes the object of its own, still unpublished, file. */
  lemma ObjectStepKeepsInv(s: State, p: Id, stage: UploadAt, v: World)
    requires Inv(s) && p in s.procs && s.procs[p].Upload? && s.procs[p].stage != Live && !s.procs[p].stage.Kept?
    requires stage != Live && (stage.Kept? ==> Stored(v, Some(s.procs[p].path), stage.size))
    requires SameOutside(s.w, v, s.procs[p].file)
    ensures Inv(SetWorld(SetProc(s, p, s.procs[p].(stage := stage)), v))
  {
    var u := s.procs[p];
    var t := SetWorld(SetProc(s, p, u.(stage := stage)), v);
    assert ProcOk(s.w, u);
    ObjectFrame(s.w, v, u.file);
    SameOwner(s, p, t.procs[p]);
    forall q | q in t.procs && q != p ensures ProcOk(v, t.procs[q]) {
      assert FileKey(u.file) in Owns(u);
      ObjectFrameProc(s.w, v, u.file, s.procs[q]);
    }
    SameClaims(s, t);
    Conclude(s, t, p);
  }

  lemma PublishKeepsInv(s: State, p: Id)
    requires Inv(s) && UploadEnabled(s, p, Publish(true))
    ensures Inv(ApplyUpload(s, p, Publish(true)))
  {
    var u := s.procs[p];
    var t := ApplyUpload(s, p, Publish(true));
    assert ProcOk(s.w, u);
    SameOwner(s, p, t.procs[p]);
    if u.file in s.w.files {
      assert FileOk(s.w, u.file);
      RowFrame(s.w, t.w, u.file);
      forall q | q in t.procs && q != p ensures ProcOk(t.w, t.procs[q]) {
        assert FileKey(u.file) in Owns(u);
        RowFrameProc(s.w, t.w, u.file, s.procs[q]);
      }
    }
    SameClaims(s, t);
    Conclude(s, t, p);
  }

  lemma UndoInsertKeepsInv(s: State, p: Id, ok: bool)
    requires Inv(s) && UploadEnabled(s, p, UndoInsert(ok))
    ensures Inv(ApplyUpload(s, p, UndoInsert(ok)))
  {
    var u := s.procs[p];
    var t := ApplyUpload(s, p, UndoInsert(ok));
    DropFrame(s.w, {u.file});
    FewerOwners(s, t);
    forall q | q in t.procs ensures ProcOk(t.w, t.procs[q]) {
      DropFrameProc(s.w, {u.file}, s.procs[q]);
    }
    SameClaims(s, t);
    Conclude(s, t, p);
  }

  lemma LoadForQueueKeepsInv(s: State, p: Id)
    requires Inv(s) && UploadEnabled(s, p, LoadForQueue)
    ensures Inv(ApplyUpload(s, p, LoadForQueue))
  {
    var t := ApplyUpload(s, p, LoadForQueue);
    if p in t.procs {
      SameOwner(s, p, t.procs[p]);
    } else {
      FewerOwners(s, t);
    }
    Conclude(s, t, p);
  }

  lemma UploadStepKeepsInv(s: State, p: Id, a: UploadAct)
    requires Inv(s) && UploadEnabled(s, p, a)
    ensures Inv(ApplyUpload(s, p, a))
  {
    var t := ApplyUpload(s, p, a);
    assert ProcOk(s.w, s.procs[p]);
    match a
    case Store(data) => ObjectStepKeepsInv(s, p, Kept(|data|), t.w);
    case FailStore(_) => ObjectStepKeepsInv(s, p, UndoBlob, t.w);
    case Publish(ok) =>
      if ok {
        PublishKeepsInv(s, p);
      } else {
        SameOwner(s, p, t.procs[p]);
        Conclude(s, t, p);
      }
    case UndoObject(_) => ObjectStepKeepsInv(s, p, UndoRow, t.w);
    case UndoInsert(ok) => UndoInsertKeepsInv(s, p, ok);
    case LoadForQueue => LoadForQueueKeepsInv(s, p);
  }

  lemma BeginUploadKeepsInv(s: State, p: Id, sid: Id, fid: Id, leaf: string, mime: Option<Id>)
    requires Inv(s) && Enabled(s, BeginUpload(p, sid, fid, leaf, mime))
    ensures Inv(Apply(s, BeginUpload(p, sid, fid, leaf, mime)))
  {
    var t := Apply(s, BeginUpload(p, sid, fid, leaf, mime));
    forall q | q in s.procs
      ensures FileKey(fid) !in Owns(s.procs[q]) && fid !in Target(s.procs[q]) && fid !in Unborn(s.procs[q])
    {
      NotMine(s.procs[q], s.used, fid);
    }
    Acquire(s, t, p);
    RowFrame(s.w, t.w, fid);
    forall q | q in t.procs && q != p ensures ProcOk(t.w, t.procs[q]) {
      RowFrameProc(s.w, t.w, fid, s.procs[q]);
    }
    SameClaims(s, t);
    Conclude(s, t, p);
  }

  // ---------- Other handlers ----------

  /** A handler starts on a row it has just read. */
  lemma BeginHandlerKeepsInv(s: State, p: Id, proc: Proc)
    requires Inv(s) && Fresh(s, {p}) && (proc.Enqueue? || proc.Purge?) && proc.file in s.w.files && ProcOk(s.w, proc)
    ensures Inv(SetProc(Draw(s, {p}), p, proc))
  {
    var t := SetProc(Draw(s, {p}), p, proc);
    forall q | q in s.procs ensures proc.file !in Unborn(s.procs[q]) {
      assert ProcOk(s.w, s.procs[q]);
    }
    Acquire(s, t, p);
    SameClaims(s, t);
    Conclude(s, t, p);
  }

  lemma SoftDeleteKeepsInv(s: State, sid: Id, fid: Id)
    requires Inv(s)
    ensures Inv(ApplyHandler(s, SoftDelete(sid, fid)))
  {
    var t := ApplyHandler(s, SoftDelete(sid, fid));
    if HasFile(s.w, sid, fid, false) {
      assert FileOk(s.w, fid);
      RowFrame(s.w, t.w, fid);
      forall q | q in t.procs ensures ProcOk(t.w, t.procs[q]) {
        RowFrameProc(s.w, t.w, fid, s.procs[q]);
      }
      FewerOwners(s, t);
      SameClaims(s, t);
    }
  }

  lemma PurgeBlobKeepsInv(s: State, p: Id, ok: bool)
    requires Inv(s) && HandlerEnabled(s, PurgeBlob(p, ok))
    ensures Inv(ApplyHandler(s, PurgeBlob(p, ok)))
  {
    var h := s.procs[p];
    var t := ApplyHandler(s, PurgeBlob(p, ok));
    assert ProcOk(s.w, h);
    ObjectFrame(s.w, t.w, h.file);
    SameOwner(s, p, t.procs[p]);
    forall q | q in t.procs && q != p ensures ProcOk(t.w, t.procs[q]) {
      ObjectFrameProc(s.w, t.w, h.file, s.procs[q]);
    }
    SameClaims(s, t);
    Conclude(s, t, p);
  }

  lemma PurgeRowKeepsInv(s: State, p: Id, ok: bool)
    requires Inv(s) && HandlerEnabled(s, PurgeRow(p, ok))
    ensures Inv(ApplyHandler(s, PurgeRow(p, ok)))
  {
    var h := s.procs[p];
    var t := ApplyHandler(s, PurgeRow(p, ok));
    DropFrame(s.w, {h.file});
    FewerOwners(s, t);
    forall q | q in t.procs ensures ProcOk(t.w, t.procs[q]) {
      DropFrameProc(s.w, {h.file}, s.procs[q]);
    }
    SameClaims(s, t);
    Conclude(s, t, p);
  }

  lemma InsertJobKeepsInv(s: State, p: Id, job: Id, ok: bool)
    requires Inv(s) && HandlerEnabled(s, InsertJob(p, job, ok))
    ensures Inv(ApplyHandler(s, InsertJob(p, job, ok)))
  {
    var h := s.procs[p];
    var t := ApplyHandler(s, InsertJob(p, job, ok));
    assert ProcOk(s.w, h);
    FewerOwners(s, t);
    SameClaims(s, t);
    if ok && !HasJob(s.w, h.file) {
      assert !HasMedia(s.w, h.file);
      JobFrame(s.w, t.w, job);
      forall q | q in t.procs ensures ProcOk(t.w, t.procs[q]) {
        assert ProcIdsUsed(s.procs[q], s.used);
        JobFrameProc(s.w, t.w, job, s.procs[q]);
      }
    }
    Conclude(s, t, p);
  }

  lemma HandlerStepKeepsInv(s: State, a: HandlerAct)
    requires Inv(s) && HandlerEnabled(s, a)
    ensures Inv(ApplyHandler(s, a))
  {
    match a
    case PatchFile(p, sid, fid) =>
      if WorthQueueing(s.w, s.w.files[fid]) {
        BeginHandlerKeepsInv(s, p, Enqueue(sid, fid, false));
      }
    case SoftDelete(sid, fid) => SoftDeleteKeepsInv(s, sid, fid);
    case BeginPurge(p, sid, fid) =>
      assert FileOk(s.w, fid);
      BeginHandlerKeepsInv(s, p, Purge(sid, fid, s.w.files[fid].realPath, false));
    case PurgeBlob(p, ok) => PurgeBlobKeepsInv(s, p, ok);
    case PurgeRow(p, ok) => PurgeRowKeepsInv(s, p, ok);
    case CheckMedia(p, _) =>
      var t := ApplyHandler(s, a);
      assert ProcOk(s.w, s.procs[p]);
      if p in t.procs {
        SameOwner(s, p, t.procs[p]);
      } else {
        FewerOwners(s, t);
      }
      Conclude(s, t, p);
    case InsertJob(p, job, ok) => InsertJobKeepsInv(s, p, job, ok);
  }

  // ---------- The pool ----------

  lemma StartPoolKeepsInv(s: State, pool: Id, workers: set<Id>)
    requires Inv(s) && PoolEnabled(s, StartPool(pool, workers))
    ensures Inv(ApplyPool(s, StartPool(pool, workers)))
  {
    var t := ApplyPool(s, StartPool(pool, workers));
    SameClaims(s, t);
  }

  /** A pending job has not been claimed before. */
  lemma ClaimIsFirst(s: State, j: Id, t: State, c: Claim)
    requires ClaimsOk(s) && IsPending(s.w, j) && j in s.used && t.used == s.used
    requires t.w == ClaimMediaJob(s.w, j) && t.claims == s.claims + [c] && c.job == j
    ensures ClaimsOk(t)
  {
    forall i | 0 <= i < |t.claims| ensures t.claims[i].job in t.used && !IsPending(t.w, t.claims[i].job) {
      if i < |s.claims| { assert t.claims[i] == s.claims[i]; }
    }
  }

  lemma ClaimedJobIsMine(w: World, j: Id, proc: Proc)
    requires ProcOk(w, proc) && IsPending(w, j) && JobOk(w, j)
    ensures JobKey(j) !in Owns(proc) && w.jobs[j].file !in Unborn(proc)
  {
  }

  lemma ClaimedJobOk(w: World, v: World, j: Id)
    requires j in w.jobs && IsPending(w, j) && JobOk(w, j) && v == ClaimMediaJob(w, j)
    ensures JobOk(v, j)
    ensures WorkOk(v, j, w.jobs[j].storage, w.jobs[j].file, Start)
  {
    assert HasMedia(v, w.jobs[j].file) == HasMedia(w, w.jobs[j].file);
  }

  lemma ClaimOwners(s: State, t: State, p: Id, j: Id)
    requires IdsUsed(s) && OwnersDisjoint(s) && ProcsOk(s) && FilesOk(s.w) && j in s.w.jobs && JobOk(s.w, j)
    requires PoolEnabled(s, ClaimNext(p, Some(j))) && t == ApplyPool(s, ClaimNext(p, Some(j)))
    ensures IdsUsed(t) && OwnersDisjoint(t)
  {
    forall q | q in s.procs ensures JobKey(j) !in Owns(s.procs[q]) && s.w.jobs[j].file !in Unborn(s.procs[q]) {
      ClaimedJobIsMine(s.w, j, s.procs[q]);
    }
    Acquire(s, t, p);
  }

  lemma ClaimProcs(s: State, t: State, p: Id, j: Id)
    requires ProcsOk(s) && j in s.w.jobs && JobOk(s.w, j)
    requires PoolEnabled(s, ClaimNext(p, Some(j))) && t == ApplyPool(s, ClaimNext(p, Some(j)))
    ensures ProcsOk(t)
  {
    forall q | q in t.procs ensures ProcOk(t.w, t.procs[q]) {
      if q == p {
        ClaimedJobOk(s.w, t.w, j);
      } else {
        ClaimedJobIsMine(s.w, j, s.procs[q]);
        JobFrameProc(s.w, t.w, j, s.procs[q]);
      }
    }
  }

  lemma ClaimKeepsInv(s: State, p: Id, j: Id)
    requires Inv(s) && PoolEnabled(s, ClaimNext(p, Some(j)))
    ensures Inv(ApplyPool(s, ClaimNext(p, Some(j))))
  {
    var t := ApplyPool(s, ClaimNext(p, Some(j)));
    assert JobOk(s.w, j);
    ClaimedJobOk(s.w, t.w, j);
    ClaimIsFirst(s, j, t, Claim(j, p, s.procs[p].pool));
    ClaimOwners(s, t, p, j);
    ClaimProcs(s, t, p, j);
    JobFrame(s.w, t.w, j);
  }

  lemma PoolStepKeepsInv(s: State, a: PoolAct)
    requires Inv(s) && PoolEnabled(s, a)
    ensures Inv(ApplyPool(s, a))
  {
    var t := ApplyPool(s, a);
    match a
    case StartPool(pool, workers) => StartPoolKeepsInv(s, pool, workers);
    case CloseStop(_) =>
    case ReturnStop(_) =>
    case ClaimNext(p, next) =>
      if next.Some? {
        ClaimKeepsInv(s, p, next.value);
      } else {
        SameOwner(s, p, t.procs[p]);
        Conclude(s, t, p);
      }
    case _ =>
      if a.p in t.procs {
        SameOwner(s, a.p, t.procs[a.p]);
      } else {
        FewerOwners(s, t);
      }
      Conclude(s, t, a.p);
  }

  // ---------- The job ----------

  ghost predicate BusyOk(w: World, b: LoopAt, at: WorkAt)
    requires b.Busy?
  {
    WorkOk(w, b.job, b.storage, b.file, at)
  }

  /** The worker moves to `at`, drawing `ids`, while the tables keep their rows. */
  lemma WorkOwners(s: State, p: Id, at: WorkAt, ids: set<Id>, v: World)
    requires IdsUsed(s) && OwnersDisjoint(s) && IsBusy(s, p)
    requires OpenTx(at).files.Keys <= OpenTx(s.procs[p].loop.at).files.Keys
    requires v.files.Keys <= s.used && v.jobs == s.w.jobs
    ensures IdsUsed(SetWorld(SetWork(Draw(s, ids), p, at), v))
    ensures OwnersDisjoint(SetWorld(SetWork(Draw(s, ids), p, at), v))
  {
    var r := SetWork(s, p, at);
    assert Unborn(r.procs[p]) <= Unborn(s.procs[p]);
    SameOwner(s, p, r.procs[p]);
    FewerOwners(r, SetWorld(SetWork(Draw(s, ids), p, at), v));
  }

  /** The worker moves on without touching the tables or the object store. */
  lemma QuietWork(s: State, p: Id, at: WorkAt, ids: set<Id>)
    requires Inv(s) && IsBusy(s, p) && BusyOk(s.w, s.procs[p].loop, at)
    requires OpenTx(at).files.Keys <= OpenTx(s.procs[p].loop.at).files.Keys
    ensures Inv(SetWork(Draw(s, ids), p, at))
  {
    WorkOwners(s, p, at, ids, s.w);
    assert SetWork(Draw(s, ids), p, at) == SetWorld(SetWork(Draw(s, ids), p, at), s.w);
    MoveWork(s, p, at, ids);
  }

  lemma BeginOk(w: World, b: LoopAt, t: Txn)
    requires b.Busy? && b.at.Ready? && BusyOk(w, b, b.at)
    requires t.tx.files == map[] && t.kind == b.at.kind
    requires t.tx.media == map[t.task.media := MediaRow(b.file, b.at.kind)]
    ensures BusyOk(w, b, Open(t))
  {
  }

  lemma BeginTxKeepsInv(s: State, p: Id, media: Id, head: Id, d: Decoded)
    requires Inv(s) && WorkEnabled(s, p, BeginTx(media, head, d))
    ensures Inv(ApplyWork(s, p, BeginTx(media, head, d)))
  {
    var b := s.procs[p].loop;
    var t := BeginTxn(b.file, b.storage, b.at.kind, media, head, d);
    assert ProcOk(s.w, s.procs[p]);
    BeginOk(s.w, b, t);
    QuietWork(s, p, Open(t), {media, head});
  }

  lemma AddDerivedOk(w: World, b: LoopAt, fid: Id, path: Path, row: FileRow)
    requires b.Busy? && b.at.Open? && BusyOk(w, b, b.at)
    requires path.dir == fid && row == DerivedRow(row.storage, row.size, path, row.mime)
    requires fid !in w.files && fid !in b.at.t.tx.files
    ensures BusyOk(w, b, Putting(b.at.t.(tx := InsertFileTx(b.at.t.tx, fid, row)), fid, path, row.size))
  {
  }

  lemma AddDerivedOwners(s: State, p: Id, fid: Id, at: WorkAt)
    requires IdsUsed(s) && OwnersDisjoint(s) && IsBusy(s, p) && Fresh(s, {fid})
    requires OpenTx(at).files.Keys == OpenTx(s.procs[p].loop.at).files.Keys + {fid}
    ensures IdsUsed(SetWork(Draw(s, {fid}), p, at)) && OwnersDisjoint(SetWork(Draw(s, {fid}), p, at))
  {
    var t := SetWork(Draw(s, {fid}), p, at);
    assert Unborn(t.procs[p]) == Unborn(s.procs[p]) + {fid};
    forall q | q in s.procs
      ensures FileKey(fid) !in Owns(s.procs[q]) && fid !in Target(s.procs[q]) && fid !in Unborn(s.procs[q])
    {
      NotMine(s.procs[q], s.used, fid);
    }
    Acquire(s, t, p);
  }

  lemma AddDerivedKeepsInv(s: State, p: Id, fid: Id, size: nat)
    requires Inv(s) && WorkEnabled(s, p, AddDerived(fid, size))
    ensures Inv(ApplyWork(s, p, AddDerived(fid, size)))
  {
    var at := AddDerivedWorker(s, p, fid, size);
    AddDerivedOwners(s, p, fid, at);
    MoveWork(s, p, at, {fid});
  }

  lemma AddDerivedWorker(s: State, p: Id, fid: Id, size: nat) returns (at: WorkAt)
    requires WorkEnabled(s, p, AddDerived(fid, size)) && ProcsOk(s)
    ensures ApplyWork(s, p, AddDerived(fid, size)) == SetWork(Draw(s, {fid}), p, at)
    ensures BusyOk(s.w, s.procs[p].loop, at)
    ensures OpenTx(at).files.Keys == OpenTx(s.procs[p].loop.at).files.Keys + {fid}
  {
    var b := s.procs[p].loop;
    var row := NextRow(b.at.t, fid, size);
    assert ProcOk(s.w, s.procs[p]);
    AddDerivedOk(s.w, b, fid, row.realPath.value, row);
    at := Putting(b.at.t.(tx := InsertFileTx(b.at.t.tx, fid, row)), fid, row.realPath.value, size);
  }

  /** The worker moves on, drawing ids, without touching the tables or the object store. */
  lemma MoveWork(s: State, p: Id, at: WorkAt, ids: set<Id>)
    requires Inv(s) && IsBusy(s, p) && BusyOk(s.w, s.procs[p].loop, at)
    requires IdsUsed(SetWork(Draw(s, ids), p, at)) && OwnersDisjoint(SetWork(Draw(s, ids), p, at))
    ensures Inv(SetWork(Draw(s, ids), p, at))
  {
    var t := SetWork(Draw(s, ids), p, at);
    SameClaims(s, t);
    Conclude(s, t, p);
  }

  lemma DerivedObjectProcs(s: State, p: Id, v: World, at: WorkAt)
    requires ProcsOk(s) && OwnersDisjoint(s) && IsBusy(s, p) && s.procs[p].loop.at.Putting?
    requires SameOutside(s.w, v, s.procs[p].loop.at.id) && BusyOk(v, s.procs[p].loop, at)
    ensures ProcsOk(SetWorld(SetWork(s, p, at), v))
  {
    var d := s.procs[p].loop.at.id;
    var t := SetWorld(SetWork(s, p, at), v);
    assert ProcOk(s.w, s.procs[p]);
    forall q | q in t.procs && q != p ensures ProcOk(v, t.procs[q]) {
      assert FileKey(d) in Owns(s.procs[p]);
      ObjectFrameProc(s.w, v, d, s.procs[q]);
    }
  }

  /** The worker writes the object of a derived row that is still unborn. */
  lemma DerivedObjectKeepsInv(s: State, p: Id, v: World, at: WorkAt, ids: set<Id>)
    requires Inv(s) && IsBusy(s, p) && s.procs[p].loop.at.Putting?
    requires SameOutside(s.w, v, s.procs[p].loop.at.id) && BusyOk(v, s.procs[p].loop, at)
    requires OpenTx(at).files.Keys <= OpenTx(s.procs[p].loop.at).files.Keys
    ensures Inv(SetWorld(SetWork(Draw(s, ids), p, at), v))
  {
    var t := SetWorld(SetWork(Draw(s, ids), p, at), v);
    UnbornIsAbsent(s, p, s.procs[p].loop.at.id);
    ObjectFrame(s.w, v, s.procs[p].loop.at.id);
    WorkOwners(s, p, at, ids, v);
    DerivedObjectProcs(s, p, v, at);
    SameClaims(s, t);
    assert ProcsOk(t);
  }

  lemma UnbornIsAbsent(s: State, p: Id, d: Id)
    requires ProcsOk(s) && IsBusy(s, p) && s.procs[p].loop.at.Putting? && d == s.procs[p].loop.at.id
    ensures d !in s.w.files
  {
    assert ProcOk(s.w, s.procs[p]);
  }

  lemma PutDerivedOk(w: World, b: LoopAt, data: Bytes, t: Txn)
    requires b.Busy? && b.at.Putting? && BusyOk(w, b, b.at) && |data| == b.at.size
    requires t == b.at.t.(tx := t.tx, done := t.done) && t.tx == b.at.t.tx.(details := t.tx.details)
    ensures BusyOk(Put(w, b.at.path, data), b, Open(t))
    ensures SameOutside(w, Put(w, b.at.path, data), b.at.id)
  {
    var v := Put(w, b.at.path, data);
    var tx := t.tx;
    assert HasMedia(v, b.file) == HasMedia(w, b.file);
    forall f | f in tx.files ensures Stored(v, tx.files[f].realPath, tx.files[f].size) {
      assert DerivedOk(w, f, b.at.t.tx.files[f]);
    }
  }

  lemma PutDerivedKeepsInv(s: State, p: Id, data: Bytes, link: Id)
    requires Inv(s) && WorkEnabled(s, p, PutDerived(data, link))
    ensures Inv(ApplyWork(s, p, PutDerived(data, link)))
  {
    var b := s.procs[p].loop;
    PutDerivedWorker(s, p, data, link);
    DerivedObjectKeepsInv(s, p, Put(s.w, b.at.path, data), Open(Linked(b.at, link)), {link});
  }

  lemma PutDerivedWorker(s: State, p: Id, data: Bytes, link: Id)
    requires ProcsOk(s) && WorkEnabled(s, p, PutDerived(data, link))
    ensures var b := s.procs[p].loop;
      && BusyOk(Put(s.w, b.at.path, data), b, Open(Linked(b.at, link)))
      && SameOutside(s.w, Put(s.w, b.at.path, data), b.at.id)
      && OpenTx(Open(Linked(b.at, link))).files == OpenTx(b.at).files
  {
    var b := s.procs[p].loop;
    assert ProcOk(s.w, s.procs[p]);
    PutDerivedOk(s.w, b, data, Linked(b.at, link));
  }

  lemma FailOk(w: World, v: World, b: LoopAt, msg: Bytes)
    requires b.Busy? && BusyOk(w, b, b.at) && v == w.(blobs := v.blobs)
    ensures BusyOk(v, b, Finish(Some(msg)))
  {
  }

  lemma FailProcessKeepsInv(s: State, p: Id, partial: Option<Bytes>, msg: Bytes)
    requires Inv(s) && WorkEnabled(s, p, FailProcess(partial, msg))
    ensures Inv(ApplyWork(s, p, FailProcess(partial, msg)))
  {
    var b := s.procs[p].loop;
    var v := ApplyWork(s, p, FailProcess(partial, msg)).w;
    assert ProcOk(s.w, s.procs[p]);
    FailOk(s.w, v, b, msg);
    assert Draw(s, {}) == s;
    if partial.Some? && b.at.Putting? {
      PuttingPath(s.w, b);
      DerivedObjectKeepsInv(s, p, v, Finish(Some(msg)), {});
    } else {
      QuietWork(s, p, Finish(Some(msg)), {});
    }
  }

  lemma PuttingPath(w: World, b: LoopAt)
    requires b.Busy? && b.at.Putting? && BusyOk(w, b, b.at)
    ensures b.at.path.dir == b.at.id
  {
  }

  /** The job a worker holds is the only job of its file, and no other worker holds that file. */
  lemma SoleWorker(s: State, p: Id, q: Id)
    requires Inv(s) && IsBusy(s, p) && IsBusy(s, q) && p != q
    requires s.procs[p].loop.file in s.w.files
    ensures s.procs[q].loop.file != s.procs[p].loop.file
  {
    assert ProcOk(s.w, s.procs[p]) && ProcOk(s.w, s.procs[q]);
    assert JobKey(s.procs[p].loop.job) in Owns(s.procs[p]) && JobKey(s.procs[q].loop.job) in Owns(s.procs[q]);
  }

  lemma CommitIsSound(s: State, p: Id, m: Id)
    requires Inv(s) && WorkEnabled(s, p, CommitTx)
    requires m == s.procs[p].loop.at.t.task.media
    ensures var b := s.procs[p].loop;
            && Commits(s.w, b.at.t.tx, m, b.file, b.at.t.kind)
            && b.file in s.w.files && b.job in s.w.jobs && HasJob(s.w, b.file)
            && Category(s.w, s.w.files[b.file]) == Some(b.at.t.kind)
            && forall j <- s.w.jobs :: s.w.jobs[j].file == b.file ==> s.w.jobs[j].status == Processing
  {
    var b := s.procs[p].loop;
    assert ProcOk(s.w, s.procs[p]);
    assert m in Merge(s.w, b.at.t.tx).media;
    assert b.file !in Unborn(s.procs[p]) by { assert b.file in Target(s.procs[p]); }
  }

  lemma CommitProcs(s: State, p: Id, m: Id)
    requires Inv(s) && WorkEnabled(s, p, CommitTx)
    requires m == s.procs[p].loop.at.t.task.media
    ensures ProcsOk(ApplyWork(s, p, CommitTx))
  {
    var t := ApplyWork(s, p, CommitTx);
    CommitSelf(s, p, m);
    forall q | q in t.procs && q != p ensures ProcOk(t.w, t.procs[q]) { CommitOther(s, p, m, q); }
  }

  lemma CommitSelf(s: State, p: Id, m: Id)
    requires Inv(s) && WorkEnabled(s, p, CommitTx)
    requires m == s.procs[p].loop.at.t.task.media
    ensures BusyOk(Merge(s.w, s.procs[p].loop.at.t.tx), s.procs[p].loop, Finish(None))
  {
    var b := s.procs[p].loop;
    CommitTxShape(s, p, m);
    assert ProcOk(s.w, s.procs[p]);
    CommitMediaOf(s.w, b.at.t.tx, m, b.file, b.at.t.kind, b.file);
    JobStays(s, p, m);
    FinishOk(Merge(s.w, b.at.t.tx), b);
  }

  lemma JobStays(s: State, p: Id, m: Id)
    requires Inv(s) && WorkEnabled(s, p, CommitTx) && m == s.procs[p].loop.at.t.task.media
    ensures var b, w := s.procs[p].loop, s.w;
      && b.job in w.jobs && w.jobs[b.job].status == Processing
      && w.jobs[b.job].file == b.file && w.jobs[b.job].storage == b.storage
  {
    CommitIsSound(s, p, m);
    assert ProcOk(s.w, s.procs[p]);
  }

  lemma FinishOk(w: World, b: LoopAt)
    requires b.Busy? && b.job in w.jobs && HasMedia(w, b.file)
    requires w.jobs[b.job].status == Processing
    requires w.jobs[b.job].file == b.file && w.jobs[b.job].storage == b.storage
    ensures BusyOk(w, b, Finish(None))
  {
    assert OpenTx(Finish(None)) == EMPTY_TX;
  }

  lemma CommitOther(s: State, p: Id, m: Id, q: Id)
    requires Inv(s) && WorkEnabled(s, p, CommitTx) && q in s.procs && q != p
    requires m == s.procs[p].loop.at.t.task.media
    ensures ProcOk(Merge(s.w, s.procs[p].loop.at.t.tx), s.procs[q])
  {
    var b := s.procs[p].loop;
    CommitTxShape(s, p, m);
    CommitLeavesOthers(s, p, m, q);
    assert ProcOk(s.w, s.procs[q]);
    CommitFrameProc(s.w, b.at.t.tx, m, b.file, b.at.t.kind, s.procs[q]);
  }

  lemma CommitTxShape(s: State, p: Id, m: Id)
    requires ProcsOk(s) && WorkEnabled(s, p, CommitTx) && m == s.procs[p].loop.at.t.task.media
    ensures var b := s.procs[p].loop;
      var tx := b.at.t.tx;
      tx.media == map[m := MediaRow(b.file, b.at.t.kind)] && m !in s.w.media && tx.files.Keys !! s.w.files.Keys
  {
    var b := s.procs[p].loop;
    assert ProcOk(s.w, s.procs[p]);
    assert m in b.at.t.tx.media;
  }

  lemma CommitLeavesOthers(s: State, p: Id, m: Id, q: Id)
    requires Inv(s) && WorkEnabled(s, p, CommitTx) && q in s.procs && q != p
    requires m == s.procs[p].loop.at.t.task.media
    ensures var b := s.procs[p].loop;
      var tx := b.at.t.tx;
      && tx.files.Keys !! Target(s.procs[q]) && tx.files.Keys !! Unborn(s.procs[q])
      && (s.procs[q].Worker? && s.procs[q].loop.Busy? ==> s.procs[q].loop.file != b.file)
  {
    CommitIsSound(s, p, m);
    if IsBusy(s, q) { SoleWorker(s, p, q); }
    UnbornDisjoint(s, p, q);
  }

  lemma UnbornDisjoint(s: State, p: Id, q: Id)
    requires OwnersDisjoint(s) && p in s.procs && q in s.procs && p != q
    ensures Unborn(s.procs[p]) !! Unborn(s.procs[q]) && Unborn(s.procs[p]) !! Target(s.procs[q])
  {
    assert forall f <- Unborn(s.procs[p]) :: FileKey(f) in Owns(s.procs[p]);
    assert forall f <- Unborn(s.procs[q]) :: FileKey(f) in Owns(s.procs[q]);
  }

  lemma UnbornAreUsed(proc: Proc, used: set<Id>)
    requires ProcIdsUsed(proc, used)
    ensures Unborn(proc) <= used
  {
    assert forall f <- Unborn(proc) :: FileKey(f) in Owns(proc);
  }

  lemma CommitOwners(s: State, t: State, p: Id)
    requires IdsUsed(s) && OwnersDisjoint(s) && WorkEnabled(s, p, CommitTx) && t == ApplyWork(s, p, CommitTx)
    ensures IdsUsed(t) && OwnersDisjoint(t)
  {
    UnbornAreUsed(s.procs[p], s.used);
    assert t == SetWorld(SetWork(Draw(s, {}), p, Finish(None)), t.w);
    WorkOwners(s, p, Finish(None), {}, t.w);
  }

  lemma CommitKeepsInv(s: State, p: Id)
    requires Inv(s) && WorkEnabled(s, p, CommitTx)
    ensures Inv(ApplyWork(s, p, CommitTx))
  {
    var b := s.procs[p].loop;
    var t := ApplyWork(s, p, CommitTx);
    assert ProcOk(s.w, s.procs[p]);
    var m := b.at.t.task.media;
    CommitIsSound(s, p, m);
    CommitFrame(s.w, b.at.t.tx, m, b.file, b.at.t.kind);
    CommitProcs(s, p, m);
    CommitOwners(s, t, p);
    SameClaims(s, t);
  }

  lemma StatusRow(w: World, b: LoopAt, v: World)
    requires b.Busy? && b.at.Finish? && b.job in w.jobs && BusyOk(w, b, b.at) && JobOk(w, b.job)
    requires v == match b.at.error
      case None => CompleteMediaJob(w, b.job)
      case Some(msg) => FailMediaJob(w, b.job, msg)
    ensures JobSet(w, v, b.job) && JobOk(v, b.job) && !IsPending(v, b.job)
  {
    assert HasMedia(v, b.file) == HasMedia(w, b.file);
  }

  lemma StatusProcs(s: State, p: Id, v: World)
    requires ProcsOk(s) && OwnersDisjoint(s) && IsBusy(s, p) && JobSet(s.w, v, s.procs[p].loop.job)
    ensures forall q <- s.procs :: q != p ==> ProcOk(v, s.procs[q])
  {
    forall q | q in s.procs && q != p ensures ProcOk(v, s.procs[q]) {
      assert JobKey(s.procs[p].loop.job) in Owns(s.procs[p]);
      JobFrameProc(s.w, v, s.procs[p].loop.job, s.procs[q]);
    }
  }

  lemma StatusOwners(s: State, p: Id, v: World)
    requires IdsUsed(s) && OwnersDisjoint(s) && IsBusy(s, p)
    requires v == s.w.(jobs := v.jobs) && v.jobs.Keys == s.w.jobs.Keys
    ensures IdsUsed(SetWorld(SetProc(s, p, s.procs[p].(loop := Top)), v))
    ensures OwnersDisjoint(SetWorld(SetProc(s, p, s.procs[p].(loop := Top)), v))
  {
    var r := SetProc(s, p, s.procs[p].(loop := Top));
    SameOwner(s, p, r.procs[p]);
    FewerOwners(r, SetWorld(r, v));
  }

  lemma StatusChange(s: State, p: Id, v: World)
    requires WorkEnabled(s, p, WriteStatus(true)) && v == ApplyWork(s, p, WriteStatus(true)).w
    requires s.procs[p].loop.job in s.w.jobs
    ensures var b := s.procs[p].loop;
      v == match b.at.error case None => CompleteMediaJob(s.w, b.job) case Some(msg) => FailMediaJob(s.w, b.job, msg)
    ensures v == s.w.(jobs := v.jobs) && v.jobs.Keys == s.w.jobs.Keys
    ensures forall j | j in v.jobs && j != s.procs[p].loop.job :: v.jobs[j] == s.w.jobs[j]
  {
  }

  lemma StatusWritten(s: State, p: Id, v: World)
    requires Inv(s) && WorkEnabled(s, p, WriteStatus(true)) && v == ApplyWork(s, p, WriteStatus(true)).w
    requires s.procs[p].loop.job in s.w.jobs
    ensures JobSet(s.w, v, s.procs[p].loop.job) && JobOk(v, s.procs[p].loop.job)
    ensures !IsPending(v, s.procs[p].loop.job)
  {
    assert ProcOk(s.w, s.procs[p]) && JobOk(s.w, s.procs[p].loop.job);
    StatusChange(s, p, v);
    StatusRow(s.w, s.procs[p].loop, v);
  }

  /** The final status write, if it happens, leaves a sound row and disturbs no other process. */
  lemma StatusWrite(s: State, p: Id, v: World)
    requires Inv(s) && WorkEnabled(s, p, WriteStatus(true)) && v == ApplyWork(s, p, WriteStatus(true)).w
    requires s.procs[p].loop.job in s.w.jobs
    ensures WorldOk(v) && v == s.w.(jobs := v.jobs) && v.jobs.Keys == s.w.jobs.Keys
    ensures forall q <- s.procs :: q != p ==> ProcOk(v, s.procs[q])
    ensures forall j :: IsPending(v, j) ==> IsPending(s.w, j)
  {
    StatusWritten(s, p, v);
    StatusChange(s, p, v);
    JobFrame(s.w, v, s.procs[p].loop.job);
    StatusProcs(s, p, v);
  }

  lemma WriteStatusKeepsInv(s: State, p: Id, ok: bool)
    requires Inv(s) && WorkEnabled(s, p, WriteStatus(ok))
    ensures Inv(ApplyWork(s, p, WriteStatus(ok)))
  {
    var t := ApplyWork(s, p, WriteStatus(ok));
    if ok && s.procs[p].loop.job in s.w.jobs { StatusWrite(s, p, t.w); }
    StatusOwners(s, p, t.w);
    SameClaims(s, t);
    Conclude(s, t, p);
  }

  lemma WorkStepKeepsInv(s: State, p: Id, a: WorkAct)
    requires Inv(s) && WorkEnabled(s, p, a)
    ensures Inv(ApplyWork(s, p, a))
  {
    match a
    case BeginTx(media, head, d) => BeginTxKeepsInv(s, p, media, head, d);
    case AddDerived(fid, size) => AddDerivedKeepsInv(s, p, fid, size);
    case PutDerived(data, link) => PutDerivedKeepsInv(s, p, data, link);
    case CommitTx => CommitKeepsInv(s, p);
    case FailProcess(partial, msg) => FailProcessKeepsInv(s, p, partial, msg);
    case WriteStatus(ok) => WriteStatusKeepsInv(s, p, ok);
    case _ => LookupKeepsInv(s, p, a);
  }

  /** The look-ups of Process never end in success without a media row. */
  lemma FindMediaOk(w: World, b: LoopAt)
    requires b.Busy? && b.at == Start && BusyOk(w, b, Start)
    ensures BusyOk(w, b, if HasMedia(w, b.file) then Finish(None) else Absent)
  {
  }

  lemma LoadFileOk(w: World, b: LoopAt, at: WorkAt)
    requires b.Busy? && b.at == Absent && BusyOk(w, b, Absent)
    requires b.file in w.files ==> FileOk(w, b.file) && (b.job in w.jobs ==> JobOk(w, b.job))
    requires at ==
      if !HasFile(w, b.storage, b.file, false) then Finish(Some(NO_ROWS))
      else if w.files[b.file].status != Published || w.files[b.file].realPath.None? then Finish(None)
      else Loaded(w.files[b.file])
    ensures BusyOk(w, b, at)
  {
  }

  lemma LoadStorageOk(w: World, b: LoopAt, at: WorkAt)
    requires b.Busy? && b.at.Loaded? && BusyOk(w, b, b.at)
    requires at ==
      if b.storage !in w.storages then Finish(Some(NO_ROWS))
      else match Category(w, b.at.row)
        case None => Finish(None)
        case Some(kind) => Ready(kind)
    ensures BusyOk(w, b, at)
  {
  }

  lemma LookupOk(s: State, p: Id, a: WorkAct)
    requires WorkEnabled(s, p, a) && (a.FindMedia? || a.LoadFile? || a.LoadStorage?)
    requires ProcOk(s.w, s.procs[p])
    requires forall f <- s.w.files :: FileOk(s.w, f)
    requires forall j <- s.w.jobs :: JobOk(s.w, j)
    ensures BusyOk(s.w, s.procs[p].loop, ApplyWork(s, p, a).procs[p].loop.at)
  {
    var b := s.procs[p].loop;
    match a
    case FindMedia => FindMediaOk(s.w, b);
    case LoadFile => LoadFileOk(s.w, b, ApplyWork(s, p, a).procs[p].loop.at);
    case LoadStorage => LoadStorageOk(s.w, b, ApplyWork(s, p, a).procs[p].loop.at);
  }

  lemma LookupKeepsInv(s: State, p: Id, a: WorkAct)
    requires Inv(s) && WorkEnabled(s, p, a) && (a.FindMedia? || a.LoadFile? || a.LoadStorage?)
    ensures Inv(ApplyWork(s, p, a))
  {
    assert ProcOk(s.w, s.procs[p]);
    LookupOk(s, p, a);
    assert Draw(s, {}) == s;
    QuietWork(s, p, ApplyWork(s, p, a).procs[p].loop.at, {});
  }

  // ---------- Storages ----------

  /** Dropping a storage drops exactly its files, with their jobs: a job's storage is its file's. */
  lemma DropStorageIsDropFiles(w: World, sid: Id)
    requires JobsOk(w)
    ensures var gone := set f | f in w.files && w.files[f].storage == sid;
            DeleteStorage(w, sid) == DropFiles(w, gone).(storages := w.storages - {sid})
  {
    var gone := set f | f in w.files && w.files[f].storage == sid;
    forall j | j in w.jobs && w.jobs[j].file !in gone ensures w.jobs[j].storage != sid {
      assert JobOk(w, j);
    }
    assert DropFiles(w, gone).jobs == DeleteStorage(w, sid).jobs;
  }

  lemma StoragesFrame(w: World, v: World)
    requires FilesOk(w) && JobsOk(w) && MediaOk(w) && v == w.(storages := v.storages)
    ensures FilesOk(v) && JobsOk(v) && MediaOk(v)
  {
    forall f | f in v.files ensures FileOk(v, f) { assert FileOk(w, f); }
    forall j | j in v.jobs ensures JobOk(v, j) { assert JobOk(w, j); }
  }

  lemma StoragesFrameProc(w: World, v: World, proc: Proc)
    requires ProcOk(w, proc) && v == w.(storages := v.storages)
    ensures ProcOk(v, proc)
  {
  }

  lemma NewStorageKeepsIntegrity(w: World, id: Id)
    requires Integrity(w)
    ensures Integrity(InsertStorage(w, id))
  {
  }

  lemma StorageStepKeepsInv(s: State, id: Id, t: State)
    requires Inv(s) && (t == Apply(s, DropStorage(id)) || (Fresh(s, {id}) && t == Apply(s, NewStorage(id))))
    ensures Inv(t)
  {
    var gone := set f | f in s.w.files && s.w.files[f].storage == id;
    var v := if t == Apply(s, DropStorage(id)) then DropFiles(s.w, gone) else s.w;
    if t == Apply(s, DropStorage(id)) {
      DropStorageIsDropFiles(s.w, id);
      DropFrame(s.w, gone);
      DeleteStorageKeepsIntegrity(s.w, id);
    } else {
      NewStorageKeepsIntegrity(s.w, id);
    }
    StoragesFrame(v, t.w);
    forall q | q in t.procs ensures ProcOk(t.w, t.procs[q]) {
      if v != s.w { DropFrameProc(s.w, gone, s.procs[q]); }
      StoragesFrameProc(v, t.w, s.procs[q]);
    }
    FewerOwners(s, t);
    SameClaims(s, t);
  }

  // ---------- All steps, all runs ----------

  lemma InitialInv(mimes: map<Id, MimeType>)
    ensures Inv(Initial(mimes))
  {
  }

  lemma StepKeepsInv(s: State, a: Step)
    requires Inv(s) && Enabled(s, a)
    ensures Inv(Apply(s, a))
  {
    match a
    case NewStorage(id) => StorageStepKeepsInv(s, id, Apply(s, a));
    case DropStorage(id) => StorageStepKeepsInv(s, id, Apply(s, a));
    case BeginUpload(p, sid, fid, leaf, mime) => BeginUploadKeepsInv(s, p, sid, fid, leaf, mime);
    case UploadStep(p, u) => UploadStepKeepsInv(s, p, u);
    case HandlerStep(h) => HandlerStepKeepsInv(s, h);
    case PoolStep(b) => PoolStepKeepsInv(s, b);
    case WorkStep(p, b) => WorkStepKeepsInv(s, p, b);
    case Crash(p) =>
      var t := Apply(s, a);
      FewerOwners(s, t);
      Conclude(s, t, p);
  }

  lemma {:induction false} RunKeepsInv(mimes: map<Id, MimeType>, states: seq<State>, steps: seq<Step>, i: nat)
    requires IsRun(mimes, states, steps) && i < |states|
    ensures Inv(states[i])
  {
    if i == 0 {
      InitialInv(mimes);
    } else {
      RunKeepsInv(mimes, states, steps, i - 1);
      StepKeepsInv(states[i - 1], steps[i - 1]);
    }
  }
}

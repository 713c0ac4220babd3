/** What holds in every reachable state of the interleaved service, and across every step. */
module Safety {
  import opened Text
  import opened MediaKind
  import opened Tables
  import opened Protocol
  import opened Invariant
  import opened Frames
  import opened Preservation

  /** A published file that is not in the trash can be read back: its object is in the store and has
      the length the row says, whatever uploads, rollbacks, deletes, jobs and crashes ran before. */
  lemma PublishedFilesAreStored(mimes: map<Id, MimeType>, states: seq<State>, steps: seq<Step>, i: nat, f: Id)
    requires IsRun(mimes, states, steps) && i < |states|
    requires f in states[i].w.files && states[i].w.files[f].status == Published && !states[i].w.files[f].excluded
    ensures states[i].w.files[f].realPath.Some?
    ensures states[i].w.files[f].realPath.value in states[i].w.blobs
    ensures |states[i].w.blobs[states[i].w.files[f].realPath.value]| == states[i].w.files[f].size
  {
    RunKeepsInv(mimes, states, steps, i);
    assert FileOk(states[i].w, f);
  }

  /** The tables never hold a dangling reference or a duplicate key. */
  lemma TablesStayConsistent(mimes: map<Id, MimeType>, states: seq<State>, steps: seq<Step>, i: nat)
    requires IsRun(mimes, states, steps) && i < |states|
    ensures Integrity(states[i].w) && NoneDangles(states[i].w) && NoneTwice(states[i].w)
  {
    RunKeepsInv(mimes, states, steps, i);
    KeysSpeltOut(states[i].w);
  }

  /** Every reference of every table points to a row that is there. */
  predicate NoneDangles(w: World) {
    && (forall f <- w.files :: w.files[f].storage in w.storages)
    && (forall f <- w.files :: w.files[f].mime.Some? ==> w.files[f].mime.value in w.mimes)
    && (forall m <- w.media :: w.media[m].file in w.files)
    && (forall j <- w.jobs :: w.jobs[j].storage in w.storages && w.jobs[j].file in w.files)
    && (forall d <- w.details :: !w.details[d].SizedDetail? ==> w.details[d].media in w.media)
    && (forall d <- w.details :: w.details[d].SizedDetail? ==>
          w.details[d].image in w.details && w.details[w.details[d].image].ImageDetail?)
    && (forall d <- w.details :: w.details[d].SizedDetail? || w.details[d].ThumbDetail? ==>
          w.details[d].file in w.files)
  }

  /** One media row and one job per file, one image, video or document row per media row, one resized copy per file. */
  predicate NoneTwice(w: World) {
    && (forall m <- w.media, n <- w.media :: m != n ==> w.media[m].file != w.media[n].file)
    && (forall j <- w.jobs, k <- w.jobs :: j != k ==> w.jobs[j].file != w.jobs[k].file)
    && (forall c <- w.details, d <- w.details :: c != d ==>
          var a, b := w.details[c], w.details[d];
          && (a.ImageDetail? && b.ImageDetail? ==> a.media != b.media)
          && (a.VideoDetail? && b.VideoDetail? ==> a.media != b.media)
          && (a.DocumentDetail? && b.DocumentDetail? ==> a.media != b.media)
          && (a.SizedDetail? && b.SizedDetail? ==> a.file != b.file))
  }

  /** The keys of the schema, spelt out. */
  lemma KeysSpeltOut(w: World)
    ensures Integrity(w) <==> NoneDangles(w) && NoneTwice(w)
  {
    DanglesIff(w);
    TwiceIff(w);
  }

  lemma DanglesIff(w: World)
    ensures NoneDangles(w) <==>
      && FileKeysHold(w) && (forall m <- w.media :: w.media[m].file in w.files)
      && (forall j <- w.jobs :: w.jobs[j].storage in w.storages && w.jobs[j].file in w.files)
      && (forall d <- w.details :: ParentsExist(w, w.details[d]))
  {
    if forall d <- w.details :: ParentsExist(w, w.details[d]) {
      forall d | d in w.details ensures ParentsExist(w, w.details[d]) {}
    }
  }

  lemma TwiceIff(w: World)
    ensures NoneTwice(w) <==>
      && (forall m <- w.media, n <- w.media :: w.media[m].file == w.media[n].file ==> m == n)
      && (forall j <- w.jobs, k <- w.jobs :: w.jobs[j].file == w.jobs[k].file ==> j == k)
      && (forall c <- w.details, d <- w.details :: Clash(w.details[c], w.details[d]) ==> c == d)
  {
  }

  /** A finished job whose file is still there left exactly one media row, of the file's category. */
  lemma DoneJobsHaveMedia(mimes: map<Id, MimeType>, states: seq<State>, steps: seq<Step>, i: nat, j: Id)
    requires IsRun(mimes, states, steps) && i < |states|
    requires j in states[i].w.jobs && states[i].w.jobs[j].status == Done
    ensures var w := states[i].w;
            var f := w.jobs[j].file;
            && f in w.files
            && exists m <- w.media :: (forall n <- w.media :: w.media[n].file == f <==> n == m)
                && IsOfKind(w, w.files[f], w.media[m].kind)
  {
    RunKeepsInv(mimes, states, steps, i);
    DoneJobHasMedia(states[i].w, j);
    FileCategoryIff(states[i].w, states[i].w.files[states[i].w.jobs[j].file]);
  }

  lemma DoneJobHasMedia(w: World, j: Id)
    requires WorldOk(w) && j in w.jobs && w.jobs[j].status == Done
    ensures var f := w.jobs[j].file;
      && f in w.files
      && exists m <- w.media :: (forall n <- w.media :: w.media[n].file == f <==> n == m)
                             && Some(w.media[m].kind) == Category(w, w.files[f])
  {
    assert JobOk(w, j);
    var m :| m in w.media && w.media[m].file == w.jobs[j].file;
    assert forall n <- w.media :: w.media[n].file == w.jobs[j].file <==> n == m;
  }

  /** Every job is claimed at most once in the whole run, by at most one worker, and its counters say
      so: it has zero attempts while pending and one afterwards. */
  lemma ClaimedAtMostOnce(mimes: map<Id, MimeType>, states: seq<State>, steps: seq<Step>, i: nat)
    requires IsRun(mimes, states, steps) && i < |states|
    ensures forall a, b | 0 <= a < b < |states[i].claims| :: states[i].claims[a].job != states[i].claims[b].job
    ensures forall j <- states[i].w.jobs ::
        states[i].w.jobs[j].attempts == if states[i].w.jobs[j].status == Pending then 0 else 1
    ensures forall p <- states[i].procs, q <- states[i].procs ::
              p != q && IsBusy(states[i], p) && IsBusy(states[i], q) ==>
                states[i].procs[p].loop.job != states[i].procs[q].loop.job
  {
    RunKeepsInv(mimes, states, steps, i);
    var s := states[i];
    forall j | j in s.w.jobs ensures s.w.jobs[j].attempts == if s.w.jobs[j].status == Pending then 0 else 1 {
      assert JobOk(s.w, j);
    }
    forall p, q | p in s.procs && q in s.procs && IsBusy(s, p) && IsBusy(s, q)
        && s.procs[p].loop.job == s.procs[q].loop.job
      ensures p == q
    {
      assert JobKey(s.procs[p].loop.job) in Owns(s.procs[p]) && JobKey(s.procs[p].loop.job) in Owns(s.procs[q]);
    }
  }

  /** The unique key on core_storagemedia.storage_file_id is never in a worker's way: until its own
      commit no media row exists for the file of its job. */
  lemma MediaInsertNeverClashes(mimes: map<Id, MimeType>, states: seq<State>, steps: seq<Step>, i: nat, p: Id)
    requires IsRun(mimes, states, steps) && i < |states|
    requires IsBusy(states[i], p) && !states[i].procs[p].loop.at.Finish?
    ensures forall m <- states[i].w.media :: states[i].w.media[m].file != states[i].procs[p].loop.file
  {
    RunKeepsInv(mimes, states, steps, i);
    assert ProcOk(states[i].w, states[i].procs[p]);
  }

  /** The final write of a job that Process finished without error marks it done only when its media
      row is there (or its file is gone). */
  lemma SuccessMeansMedia(mimes: map<Id, MimeType>, states: seq<State>, steps: seq<Step>, i: nat, p: Id)
    requires IsRun(mimes, states, steps) && i < |states|
    requires IsBusy(states[i], p) && states[i].procs[p].loop.at == Finish(None)
    ensures HasMedia(states[i].w, states[i].procs[p].loop.file) || states[i].procs[p].loop.file !in states[i].w.files
  {
    RunKeepsInv(mimes, states, steps, i);
    assert ProcOk(states[i].w, states[i].procs[p]);
  }

  /** A rollback never finds its row published, so it deletes no object that a reader may ask for. */
  lemma RollbackSparesPublishedFiles(mimes: map<Id, MimeType>, states: seq<State>, steps: seq<Step>, i: nat, p: Id)
    requires IsRun(mimes, states, steps) && i < |states|
    requires p in states[i].procs && states[i].procs[p].Upload?
        && (states[i].procs[p].stage == UndoBlob || states[i].procs[p].stage == UndoRow)
    ensures var f := states[i].procs[p].file;
            f in states[i].w.files ==> states[i].w.files[f].status == Uploading
  {
    RunKeepsInv(mimes, states, steps, i);
    assert ProcOk(states[i].w, states[i].procs[p]);
  }

  // ---------- Across steps ----------

  predicate JobForward(a: JobRow, b: JobRow) {
    && b.file == a.file && b.storage == a.storage && b.createdAt == a.createdAt
    && (a.status == b.status ==> b.attempts == a.attempts)
    && (a.status == b.status || (a.status == Pending && b.status == Processing)
        || (a.status == Processing && b.status in {Done, Failed}))
  }

  ghost predicate MovesForward(w: World, v: World) {
    && (forall f <- w.files :: f in v.files ==> Forward(w.files[f], v.files[f]))
    && (forall j <- w.jobs :: j in v.jobs ==> JobForward(w.jobs[j], v.jobs[j]))
  }

  lemma UploadMovesForward(s: State, p: Id, a: UploadAct)
    requires UploadEnabled(s, p, a) && ProcOk(s.w, s.procs[p])
    ensures MovesForward(s.w, ApplyUpload(s, p, a).w)
  {
  }

  lemma RowsUntouched(w: World, v: World)
    requires v.files == w.files && v.jobs == w.jobs
    ensures MovesForward(w, v)
  {
  }

  lemma TrashMovesForward(w: World, sid: Id, f: Id)
    ensures MovesForward(w, SetFileExcluded(w, sid, f, true))
  {
  }

  lemma DropMovesForward(w: World, gone: set<Id>)
    ensures MovesForward(w, DropFiles(w, gone))
  {
  }

  lemma EnqueueMovesForward(w: World, j: Id, sid: Id, f: Id)
    requires j !in w.jobs
    ensures MovesForward(w, EnqueueMediaProcessing(w, j, sid, f))
  {
  }

  lemma HandlerMovesForward(s: State, a: HandlerAct)
    requires HandlerEnabled(s, a) && s.w.jobs.Keys <= s.used
    ensures MovesForward(s.w, ApplyHandler(s, a).w)
  {
    match a
    case PurgeRow(p, ok) =>
      if ApplyHandler(s, a).w == s.w { RowsUntouched(s.w, s.w); } else { DropMovesForward(s.w, {s.procs[p].file}); }
    case InsertJob(p, job, ok) =>
      if ok { EnqueueMovesForward(s.w, job, s.procs[p].storage, s.procs[p].file); }
      else { RowsUntouched(s.w, ApplyHandler(s, a).w); }
    case SoftDelete(sid, fid) => TrashMovesForward(s.w, sid, fid);
    case _ => RowsUntouched(s.w, ApplyHandler(s, a).w);
  }

  lemma WorkKeepsRows(s: State, p: Id, a: WorkAct)
    requires WorkEnabled(s, p, a) && !a.CommitTx?
    ensures ApplyWork(s, p, a).w.files == s.w.files && (!a.WriteStatus? ==> ApplyWork(s, p, a).w.jobs == s.w.jobs)
  {
  }

  lemma CommitMovesForward(s: State, p: Id)
    requires WorkEnabled(s, p, CommitTx)
    ensures MovesForward(s.w, ApplyWork(s, p, CommitTx).w)
  {
  }

  lemma StatusMovesForward(s: State, p: Id, ok: bool)
    requires WorkEnabled(s, p, WriteStatus(ok)) && ProcOk(s.w, s.procs[p])
    ensures forall j <- s.w.jobs ::
      var v := ApplyWork(s, p, WriteStatus(ok)).w; j in v.jobs ==> JobForward(s.w.jobs[j], v.jobs[j])
  {
    var b := s.procs[p].loop;
    if ok && b.job in s.w.jobs {
      StatusChange(s, p, ApplyWork(s, p, WriteStatus(ok)).w);
    } else {
      assert ApplyWork(s, p, WriteStatus(ok)).w == s.w;
    }
  }

  lemma WorkMovesForward(s: State, p: Id, a: WorkAct)
    requires WorkEnabled(s, p, a) && ProcOk(s.w, s.procs[p])
    ensures MovesForward(s.w, ApplyWork(s, p, a).w)
  {
    match a
    case CommitTx => CommitMovesForward(s, p);
    case WriteStatus(ok) =>
      WorkKeepsRows(s, p, a);
      StatusMovesForward(s, p, ok);
    case _ => WorkKeepsRows(s, p, a);
  }

  lemma OthersMoveForward(s: State, a: Step)
    requires Enabled(s, a) && !a.UploadStep? && !a.HandlerStep? && !a.WorkStep?
    ensures MovesForward(s.w, Apply(s, a).w)
  {
  }

  /** Nothing goes back: a published row stays published with its size, key and type, the trash is
      final, and a job moves from pending to processing to done or failed. */
  lemma StepsOnlyMoveForward(s: State, a: Step)
    requires Inv(s) && Enabled(s, a)
    ensures MovesForward(s.w, Apply(s, a).w)
  {
    match a
    case UploadStep(p, u) =>
      assert ProcOk(s.w, s.procs[p]);
      UploadMovesForward(s, p, u);
    case HandlerStep(h) => HandlerMovesForward(s, h);
    case WorkStep(p, b) =>
      assert ProcOk(s.w, s.procs[p]);
      WorkMovesForward(s, p, b);
    case _ => OthersMoveForward(s, a);
  }
}

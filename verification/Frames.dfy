/** What each kind of change to the shared state leaves alone: the rows, objects and processes that
    the invariant speaks about and that the change does not touch. */
module Frames {
  import opened Text
  import opened MediaKind
  import opened Tables
  import opened Protocol
  import opened Invariant

  /** The tables are the same, and objects outside directory `d` are the same. */
  ghost predicate SameOutside(w: World, v: World, d: Id) {
    && v == w.(blobs := v.blobs)
    && forall k: Path :: k.dir != d ==> (k in w.blobs <==> k in v.blobs) && (k in w.blobs ==> v.blobs[k] == w.blobs[k])
  }

  /** Nobody relies on the object of a row that is missing, unpublished or in the trash. */
  ghost predicate Unreadable(w: World, d: Id) {
    d in w.files ==> w.files[d].status == Uploading || w.files[d].excluded
  }

  lemma ObjectFrameFiles(w: World, v: World, d: Id)
    requires FilesOk(w) && SameOutside(w, v, d) && Unreadable(w, d)
    ensures FilesOk(v)
  {
    forall f | f in v.files ensures FileOk(v, f) { assert FileOk(w, f); }
  }

  lemma ObjectFrameJobs(w: World, v: World, d: Id)
    requires JobsOk(w) && SameOutside(w, v, d)
    ensures JobsOk(v)
  {
    forall j | j in v.jobs ensures JobOk(v, j) { assert JobOk(w, j); }
  }

  lemma ObjectFrameKeys(w: World, v: World, d: Id)
    requires Integrity(w) && SameOutside(w, v, d)
    ensures Integrity(v)
  {
  }

  lemma ObjectFrameMedia(w: World, v: World, d: Id)
    requires MediaOk(w) && SameOutside(w, v, d)
    ensures MediaOk(v)
  {
  }

  lemma ObjectFrame(w: World, v: World, d: Id)
    requires WorldOk(w) && SameOutside(w, v, d) && Unreadable(w, d)
    ensures WorldOk(v)
  {
    ObjectFrameFiles(w, v, d);
    ObjectFrameJobs(w, v, d);
    ObjectFrameKeys(w, v, d);
    ObjectFrameMedia(w, v, d);
  }

  lemma ObjectFrameProc(w: World, v: World, d: Id, proc: Proc)
    requires SameOutside(w, v, d) && ProcOk(w, proc)
    requires d !in Unborn(proc)
    requires proc.Upload? && proc.file == d && proc.stage.Kept? && d in w.files ==> w.files[d].excluded
    ensures ProcOk(v, proc)
  {
  }

  lemma DropFrameFiles(w: World, gone: set<Id>)
    requires FilesOk(w)
    ensures FilesOk(DropFiles(w, gone))
  {
    var v := DropFiles(w, gone);
    forall f | f in v.files ensures FileOk(v, f) { assert FileOk(w, f); }
  }

  lemma DropKeepsMedia(w: World, gone: set<Id>, f: Id)
    requires f !in gone
    ensures HasMedia(DropFiles(w, gone), f) <==> HasMedia(w, f)
    ensures HasJob(DropFiles(w, gone), f) <==> HasJob(w, f)
  {
    var v := DropFiles(w, gone);
    if HasMedia(w, f) {
      var m :| m in w.media && w.media[m].file == f;
      assert m in v.media;
    }
    if HasJob(w, f) {
      var j :| j in w.jobs && w.jobs[j].file == f;
      assert j in v.jobs;
    }
  }

  lemma DropFrameJobs(w: World, gone: set<Id>)
    requires JobsOk(w)
    ensures JobsOk(DropFiles(w, gone))
  {
    var v := DropFiles(w, gone);
    forall j | j in v.jobs ensures JobOk(v, j) {
      assert JobOk(w, j);
      DropKeepsMedia(w, gone, w.jobs[j].file);
    }
  }

  lemma DropFrameMedia(w: World, gone: set<Id>)
    requires MediaOk(w)
    ensures MediaOk(DropFiles(w, gone))
  {
    forall m | m in w.media && w.media[m].file !in gone
      ensures HasJob(DropFiles(w, gone), w.media[m].file)
    {
      DropKeepsMedia(w, gone, w.media[m].file);
    }
  }

  lemma DropFrame(w: World, gone: set<Id>)
    requires WorldOk(w)
    ensures WorldOk(DropFiles(w, gone))
  {
    DropFilesKeepsIntegrity(w, gone);
    DropFrameFiles(w, gone);
    DropFrameJobs(w, gone);
    DropFrameMedia(w, gone);
  }

  lemma DropFrameProc(w: World, gone: set<Id>, proc: Proc)
    requires ProcOk(w, proc)
    ensures ProcOk(DropFiles(w, gone), proc)
  {
    if proc.Worker? && proc.loop.Busy? {
      var f := proc.loop.file;
      if f !in gone {
        DropKeepsMedia(w, gone, f);
      } 
    }
  }

  /** An unpublished row may be published, any row may enter the trash, nothing else changes. */
  ghost predicate Forward(r: FileRow, q: FileRow) {
    && q.storage == r.storage && q.realPath == r.realPath && q.mime == r.mime && q.derived == r.derived
    && (r.status == Published ==> q.status == Published && q.size == r.size)
    && (r.excluded ==> q.excluded)
  }

  /** One row appears or moves forward. */
  ghost predicate RowSet(w: World, v: World, f: Id) {
    && f in v.files && v == w.(files := w.files[f := v.files[f]])
    && (f in w.files ==> Forward(w.files[f], v.files[f]))
  }

  lemma RowFrameFiles(w: World, v: World, f: Id)
    requires FilesOk(w) && RowSet(w, v, f) && FileOk(v, f)
    ensures FilesOk(v)
  {
    forall g | g in v.files ensures FileOk(v, g) {
      if g != f { assert FileOk(w, g); }
    }
  }

  lemma RowFrameJobs(w: World, v: World, f: Id)
    requires JobsOk(w) && RowSet(w, v, f)
    ensures JobsOk(v)
  {
    forall j | j in v.jobs ensures JobOk(v, j) { assert JobOk(w, j); }
  }

  lemma RowFrameMedia(w: World, v: World, f: Id)
    requires MediaOk(w) && RowSet(w, v, f)
    ensures MediaOk(v)
  {
  }

  lemma RowFrameKeys(w: World, v: World, f: Id)
    requires Integrity(w) && RowSet(w, v, f)
    requires v.files[f].storage in w.storages && (v.files[f].mime.Some? ==> v.files[f].mime.value in w.mimes)
    ensures Integrity(v)
  {
    assert FileKeysHold(v);
    assert MediaKeysHold(v);
    assert JobKeysHold(v);
    forall d | d in v.details ensures ParentsExist(v, v.details[d]) { assert ParentsExist(w, w.details[d]); }
  }

  lemma RowFrame(w: World, v: World, f: Id)
    requires WorldOk(w) && RowSet(w, v, f) && FileOk(v, f)
    requires v.files[f].storage in w.storages && (v.files[f].mime.Some? ==> v.files[f].mime.value in w.mimes)
    ensures WorldOk(v)
  {
    RowFrameKeys(w, v, f);
    RowFrameFiles(w, v, f);
    RowFrameJobs(w, v, f);
    RowFrameMedia(w, v, f);
  }

  lemma RowFrameProc(w: World, v: World, f: Id, proc: Proc)
    requires RowSet(w, v, f) && ProcOk(w, proc)
    requires f !in w.files ==> f !in Target(proc) && f !in Unborn(proc)
    requires proc.Upload? && proc.file == f && proc.stage != Live ==> v.files[f].status == Uploading
    ensures ProcOk(v, proc)
  {
  }

  /** One job row appears or changes status. */
  ghost predicate JobSet(w: World, v: World, j: Id) {
    && j in v.jobs && v == w.(jobs := w.jobs[j := v.jobs[j]], clock := v.clock) && w.clock <= v.clock
    && (j in w.jobs ==>
          && v.jobs[j].file == w.jobs[j].file && v.jobs[j].storage == w.jobs[j].storage
          && v.jobs[j].createdAt == w.jobs[j].createdAt)
    && (j !in w.jobs ==> v.jobs[j].createdAt == w.clock && !HasJob(w, v.jobs[j].file))
  }

  lemma JobFrameJobs(w: World, v: World, j: Id)
    requires JobsOk(w) && JobSet(w, v, j) && JobOk(v, j)
    ensures JobsOk(v)
  {
    forall k | k in v.jobs ensures JobOk(v, k) {
      if k != j { assert JobOk(w, k); }
    }
    forall k | k in w.jobs ensures w.jobs[k].createdAt < w.clock { assert JobOk(w, k); }
  }

  lemma JobFrameMedia(w: World, v: World, j: Id)
    requires MediaOk(w) && JobSet(w, v, j)
    ensures MediaOk(v)
  {
    forall m | m in v.media ensures HasJob(v, v.media[m].file) {
      var k :| k in w.jobs && w.jobs[k].file == w.media[m].file;
      assert k in v.jobs && v.jobs[k].file == w.media[m].file;
    }
  }

  lemma JobFrameKeys(w: World, v: World, j: Id)
    requires Integrity(w) && JobSet(w, v, j) && FilesOk(w)
    requires v.jobs[j].storage in w.storages && v.jobs[j].file in w.files
    ensures Integrity(v) && FilesOk(v)
  {
    assert FileKeysHold(v);
    assert MediaKeysHold(v);
    assert JobKeysHold(v);
    forall d | d in v.details ensures ParentsExist(v, v.details[d]) { assert ParentsExist(w, w.details[d]); }
    forall f | f in v.files ensures FileOk(v, f) { assert FileOk(w, f); }
  }

  lemma JobFrame(w: World, v: World, j: Id)
    requires WorldOk(w) && JobSet(w, v, j) && JobOk(v, j)
    requires v.jobs[j].storage in w.storages && v.jobs[j].file in w.files
    ensures WorldOk(v)
  {
    JobFrameKeys(w, v, j);
    JobFrameJobs(w, v, j);
    JobFrameMedia(w, v, j);
  }

  lemma JobFrameProc(w: World, v: World, j: Id, proc: Proc)
    requires JobSet(w, v, j) && ProcOk(w, proc) && JobKey(j) !in Owns(proc)
    ensures ProcOk(v, proc)
  {
  }

  /** The rows a committing transaction adds: one media row for `file` and stored derived files. */
  ghost predicate Commits(w: World, tx: Tx, m: Id, file: Id, kind: Kind) {
    && tx.media == map[m := MediaRow(file, kind)]
    && CanCommit(w, tx)
    && forall f <- tx.files :: DerivedOk(w, f, tx.files[f]) && Stored(w, tx.files[f].realPath, tx.files[f].size)
  }

  lemma CommitMediaOf(w: World, tx: Tx, m: Id, file: Id, kind: Kind, f: Id)
    requires tx.media == map[m := MediaRow(file, kind)] && m !in w.media
    ensures HasMedia(Merge(w, tx), f) <==> (f == file || HasMedia(w, f))
  {
    var v := Merge(w, tx);
    assert m in v.media && v.media[m].file == file;
    if HasMedia(w, f) {
      var n :| n in w.media && w.media[n].file == f;
      assert n in v.media && v.media[n] == w.media[n];
    }
  }

  lemma CommitFrameFiles(w: World, tx: Tx, m: Id, file: Id, kind: Kind)
    requires FilesOk(w) && Commits(w, tx, m, file, kind)
    ensures FilesOk(Merge(w, tx))
  {
    var v := Merge(w, tx);
    forall f | f in v.files ensures FileOk(v, f) {
      if f in tx.files { assert DerivedOk(w, f, tx.files[f]); } else { assert FileOk(w, f); }
    }
  }

  lemma CommitFrameJobs(w: World, tx: Tx, m: Id, file: Id, kind: Kind)
    requires JobsOk(w) && Commits(w, tx, m, file, kind)
    requires forall j <- w.jobs :: w.jobs[j].file == file ==> w.jobs[j].status == Processing
    ensures JobsOk(Merge(w, tx))
  {
    var v := Merge(w, tx);
    forall j | j in v.jobs ensures JobOk(v, j) {
      assert JobOk(w, j);
      CommitMediaOf(w, tx, m, file, kind, w.jobs[j].file);
    }
  }

  lemma CommitFrameMedia(w: World, tx: Tx, m: Id, file: Id, kind: Kind)
    requires MediaOk(w) && Commits(w, tx, m, file, kind)
    requires file in w.files && Category(w, w.files[file]) == Some(kind) && HasJob(w, file)
    ensures MediaOk(Merge(w, tx))
  {
  }

  lemma CommitFrame(w: World, tx: Tx, m: Id, file: Id, kind: Kind)
    requires WorldOk(w) && Commits(w, tx, m, file, kind)
    requires forall j <- w.jobs :: w.jobs[j].file == file ==> w.jobs[j].status == Processing
    requires file in w.files && Category(w, w.files[file]) == Some(kind) && HasJob(w, file)
    ensures WorldOk(Merge(w, tx))
  {
    CommitFrameFiles(w, tx, m, file, kind);
    CommitFrameJobs(w, tx, m, file, kind);
    CommitFrameMedia(w, tx, m, file, kind);
  }

  lemma CommitFrameProc(w: World, tx: Tx, m: Id, file: Id, kind: Kind, proc: Proc)
    requires tx.media == map[m := MediaRow(file, kind)] && m !in w.media && tx.files.Keys !! w.files.Keys
    requires ProcOk(w, proc)
    requires tx.files.Keys !! Target(proc) && tx.files.Keys !! Unborn(proc)
    requires proc.Worker? && proc.loop.Busy? ==> proc.loop.file != file
    ensures ProcOk(Merge(w, tx), proc)
  {
    if proc.Worker? && proc.loop.Busy? {
      CommitMediaOf(w, tx, m, file, kind, proc.loop.file);
    }
  }
}

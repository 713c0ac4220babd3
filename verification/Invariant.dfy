/** The inductive invariant of the interleaved service. */
module Invariant {
  import opened Text
  import opened Tables
  import opened Protocol

  // ---------- Ownership ----------

  /** The transaction a worker holds open. */
  function OpenTx(at: WorkAt): Tx {
    match at
    case Open(t) => t.tx
    case Putting(t, _, _, _) => t.tx
    case _ => EMPTY_TX
  }

  /** The files that exist only in this process's open transaction. */
  function Unborn(proc: Proc): set<Id> {
    match proc
    case Worker(_, Busy(_, _, _, at)) => OpenTx(at).files.Keys
    case _ => {}
  }

  datatype Key = FileKey(id: Id) | JobKey(id: Id)

  /** The rows that only this process writes: the file it uploads, the job it holds, and the files of
      its open transaction. */
  function Owns(proc: Proc): set<Key> {
    match proc
    case Upload(_, f, _, _, _) => {FileKey(f)}
    case Worker(_, Busy(j, _, _, _)) => {JobKey(j)} + set f | f in Unborn(proc) :: FileKey(f)
    case _ => {}
  }

  /** The file the process works on. */
  function Target(proc: Proc): set<Id> {
    match proc
    case Worker(_, Busy(_, _, f, _)) => {f}
    case Worker(_, _) => {}
    case _ => {proc.file}
  }

  ghost predicate ProcIdsUsed(proc: Proc, used: set<Id>) {
    && Target(proc) <= used
    && forall k <- Owns(proc) :: k.id in used
  }

  /** Every file and job id in the system has been drawn, so a fresh one clashes with nothing. */
  ghost predicate IdsUsed(s: State) {
    && s.procs.Keys <= s.used
    && s.w.files.Keys <= s.used && s.w.jobs.Keys <= s.used
    && forall p <- s.procs :: ProcIdsUsed(s.procs[p], s.used)
  }

  /** No two processes write the same row, and no process targets a row that is still unborn. */
  ghost predicate OwnersDisjoint(s: State) {
    && (forall p <- s.procs, q <- s.procs :: p != q ==> Owns(s.procs[p]) !! Owns(s.procs[q]))
    && (forall p <- s.procs, q <- s.procs :: Unborn(s.procs[p]) !! Target(s.procs[q]))
  }

  // ---------- Rows ----------

  /** A row's object key carries the row's own id, unpublished rows count zero bytes, and a published
      row that is not in the trash has its object. */
  ghost predicate FileOk(w: World, f: Id)
    requires f in w.files
  {
    var row := w.files[f];
    && row.realPath.Some? && row.realPath.value.dir == f
    && (row.status == Uploading ==> row.size == 0)
    && (row.status == Published && !row.excluded ==> Stored(w, row.realPath, row.size))
  }

  ghost predicate FilesOk(w: World) {
    forall f <- w.files :: FileOk(w, f)
  }

  /** The facts about a file that a job relies on. */
  predicate Processable(w: World, sid: Id, f: Id) {
    f in w.files && w.files[f].storage == sid && WorthQueueing(w, w.files[f])
  }

  ghost predicate JobOk(w: World, j: Id)
    requires j in w.jobs
  {
    var job := w.jobs[j];
    && Processable(w, job.storage, job.file)
    && job.attempts == (if job.status == Pending then 0 else 1)
    && (job.status == Pending ==> !HasMedia(w, job.file))
    && (job.status == Done ==> HasMedia(w, job.file))
    && job.createdAt < w.clock
  }

  ghost predicate JobsOk(w: World) {
    && (forall j <- w.jobs :: JobOk(w, j))
    && (forall j <- w.jobs, k <- w.jobs :: w.jobs[j].createdAt == w.jobs[k].createdAt ==> j == k)
  }

  ghost predicate MediaOk(w: World) {
    forall m <- w.media ::
      var f := w.media[m].file;
      f in w.files && Category(w, w.files[f]) == Some(w.media[m].kind) && HasJob(w, f)
  }

  // ---------- Processes ----------

  ghost predicate UploadOk(w: World, u: Proc)
    requires u.Upload?
  {
    && u.path.dir == u.file
    && (u.file in w.files && u.stage != Live ==>
          var row := w.files[u.file];
          && row.status == Uploading && row.storage == u.storage
          && row.realPath == Some(u.path) && row.mime == u.mime
          && (u.stage.Kept? && !row.excluded ==> Stored(w, Some(u.path), u.stage.size)))
  }

  ghost predicate DerivedOk(w: World, f: Id, row: FileRow) {
    && row.realPath.Some? && row.realPath.value.dir == f
    && row.status == Published && !row.excluded && row.derived
    && f !in w.files
  }

  ghost predicate TxOk(w: World, at: WorkAt, file: Id) {
    var tx := OpenTx(at);
    && (forall f <- tx.files :: DerivedOk(w, f, tx.files[f]))
    && (forall f <- tx.files :: (at.Putting? && f == at.id) || Stored(w, tx.files[f].realPath, tx.files[f].size))
    && (at.Open? || at.Putting? ==> tx.media == map[at.t.task.media := MediaRow(file, at.t.kind)])
  }

  ghost predicate WorkOk(w: World, job: Id, sid: Id, file: Id, at: WorkAt) {
    && (job in w.jobs ==> w.jobs[job].status == Processing && w.jobs[job].file == file && w.jobs[job].storage == sid)
    && (file in w.files ==> job in w.jobs)
    && (!at.Finish? ==> !HasMedia(w, file))
    && (at.Loaded? && file in w.files ==> at.row.mime == w.files[file].mime)
    && (at.Loaded? ==> WorthQueueing(w, at.row))
    && (at.Ready? && file in w.files ==> Category(w, w.files[file]) == Some(at.kind))
    && ((at.Open? || at.Putting?) && file in w.files ==> Category(w, w.files[file]) == Some(at.t.kind))
    && (at.Putting? ==>
          && at.path.dir == at.id && at.id in at.t.tx.files
          && at.t.tx.files[at.id].realPath == Some(at.path) && at.t.tx.files[at.id].size == at.size)
    && (at == Finish(None) && file in w.files ==> HasMedia(w, file))
    && TxOk(w, at, file)
  }

  ghost predicate ProcOk(w: World, proc: Proc) {
    match proc
    case Upload(_, _, _, _, _) => UploadOk(w, proc)
    case Enqueue(sid, f, _) => f in w.files ==> Processable(w, sid, f)
    case Purge(_, f, key, _) => (f in w.files ==> w.files[f].excluded) && (key.Some? ==> key.value.dir == f)
    case Worker(_, Busy(j, sid, f, at)) => WorkOk(w, j, sid, f, at)
    case Worker(_, _) => true
  }

  ghost predicate ProcsOk(s: State) {
    forall p <- s.procs :: ProcOk(s.w, s.procs[p])
  }

  // ---------- History ----------

  ghost predicate ClaimsOk(s: State) {
    && (forall i :: 0 <= i < |s.claims| ==> s.claims[i].job in s.used && !IsPending(s.w, s.claims[i].job))
    && (forall i, k :: 0 <= i < k < |s.claims| ==> s.claims[i].job != s.claims[k].job)
  }

  ghost predicate WorldOk(w: World) {
    Integrity(w) && FilesOk(w) && JobsOk(w) && MediaOk(w)
  }

  ghost predicate Inv(s: State) {
    WorldOk(s.w) && IdsUsed(s) && OwnersDisjoint(s) && ProcsOk(s) && ClaimsOk(s)
  }
}

/** The service as a state machine: any number of HTTP handlers and media workers, interleaved at
    the grain of one SQL statement, one commit or one object-store call. */
module Protocol {
  import opened Text
  import opened MediaKind
  import opened Tables
  import opened Plan

  // ---------- Program counters ----------

  /** uploadMultipart, uploadFromURL and rollbackUploadingFile (internal/http_api). */
  datatype UploadAt =
    | Inserted             // row in place; resolving the backend, fetching, storing
    | Kept(size: nat)      // Put returned nil
    | UndoBlob             // rollback, about to delete the object
    | UndoRow              // rollback, about to delete the row
    | Live                 // published; about to load the row for maybeEnqueueMedia

  /** An open media transaction: what is planned, what has been made of it, and the rows inserted so far. */
  datatype Txn = Txn(kind: Kind, task: Task, done: seq<Derived>, tx: Tx) {
    function Plan(): seq<Link> {
      PlanOf(kind, task.decoded)
    }
  }

  /** sql.ErrNoRows. */
  const NO_ROWS: Bytes := [0x6e, 0x6f, 0x20, 0x72, 0x6f, 0x77, 0x73]

  /** Processor.Process and the branches it calls. */
  datatype WorkAt =
    | Start                                          // about to look for an existing media row
    | Absent                                         // none; about to load the file row
    | Loaded(row: FileRow)                           // about to load the storage row
    | Ready(kind: Kind)                              // reading and decoding; about to begin
    | Open(t: Txn)                                   // transaction open
    | Putting(t: Txn, id: Id, path: Path, size: nat) // derived row inserted; about to store its object
    | Finish(error: Option<Bytes>)                   // Process returned

  /** Pool.loop. */
  datatype LoopAt =
    | Top
    | Claiming
    | Waiting
    | Busy(job: Id, storage: Id, file: Id, at: WorkAt)

  datatype Proc =
    | Upload(storage: Id, file: Id, path: Path, mime: Option<Id>, stage: UploadAt)
    | Enqueue(storage: Id, file: Id, checked: bool)
    | Purge(storage: Id, file: Id, key: Option<Path>, blobGone: bool)
    | Worker(pool: Id, loop: LoopAt)

  datatype PoolState = Running | Stopping | Stopped

  /** A claim that returned `job` to worker `worker` of `pool`. */
  datatype Claim = Claim(job: Id, worker: Id, pool: Id)

  /** `used` holds every id drawn so far; `claims` is the history of successful claims. */
  datatype State = State(w: World, procs: map<Id, Proc>, pools: map<Id, PoolState>, used: set<Id>, claims: seq<Claim>)

  function Initial(mimes: map<Id, MimeType>): State {
    State(World({}, mimes, map[], map[], map[], map[], 0, map[]), map[], map[], mimes.Keys, [])
  }

  // ---------- Steps ----------

  /** The acts of an upload handler once its row is inserted. */
  datatype UploadAct =
    | Store(data: Bytes)
    | FailStore(partial: Option<Bytes>)
    | Publish(ok: bool)
    | UndoObject(ok: bool)
    | UndoInsert(ok: bool)
    | LoadForQueue

  /** patchFile, deleteFile, permaDelete and maybeEnqueueMedia. */
  datatype HandlerAct =
    | PatchFile(p: Id, storage: Id, file: Id)
    | SoftDelete(storage: Id, file: Id)
    | BeginPurge(p: Id, storage: Id, file: Id)
    | PurgeBlob(p: Id, ok: bool)
    | PurgeRow(p: Id, ok: bool)
    | CheckMedia(p: Id, ok: bool)
    | InsertJob(p: Id, job: Id, ok: bool)

  datatype PoolAct =
    | StartPool(pool: Id, workers: set<Id>)
    | CloseStop(pool: Id)
    | ReturnStop(pool: Id)
    | CheckStop(p: Id)
    | ClaimNext(p: Id, next: Option<Id>)
    | EndWait(p: Id) // by the tick or by the stop channel, which is looked at next in either case

  /** The acts of a worker that holds a job. */
  datatype WorkAct =
    | FindMedia
    | LoadFile
    | LoadStorage
    | BeginTx(media: Id, head: Id, decoded: Decoded)
    | AddDerived(file: Id, size: nat)
    | PutDerived(data: Bytes, link: Id)
    | CommitTx
    | FailProcess(partial: Option<Bytes>, msg: Bytes)
    | WriteStatus(ok: bool)

  /** The labels carry every choice the environment makes: which process moves, the fresh ids it
      draws, and whether the call it makes succeeds. `Crash` kills a process where it stands. */
  datatype Step =
    | NewStorage(id: Id)
    | DropStorage(id: Id)
    | BeginUpload(p: Id, storage: Id, file: Id, leaf: string, mime: Option<Id>)
    | UploadStep(p: Id, upload: UploadAct)
    | HandlerStep(handler: HandlerAct)
    | PoolStep(pool: PoolAct)
    | WorkStep(p: Id, work: WorkAct)
    | Crash(p: Id)

  predicate Fresh(s: State, ids: set<Id>) {
    ids !! s.used
  }

  predicate IsBusy(s: State, p: Id) {
    p in s.procs && s.procs[p].Worker? && s.procs[p].loop.Busy?
  }

  predicate IsWorkerAt(s: State, p: Id, at: LoopAt) {
    p in s.procs && s.procs[p].Worker? && s.procs[p].loop == at
  }

  predicate HasWorkers(s: State, pool: Id) {
    exists p <- s.procs :: s.procs[p].Worker? && s.procs[p].pool == pool
  }

  function UploadRow(storage: Id, path: Path, mime: Option<Id>): FileRow {
    FileRow(storage, Uploading, false, 0, Some(path), mime, false)
  }

  predicate UploadEnabled(s: State, p: Id, a: UploadAct) {
    && p in s.procs && s.procs[p].Upload?
    && match a
       case Store(_) => s.procs[p].stage == Inserted
       case FailStore(_) => s.procs[p].stage == Inserted
       case Publish(_) => s.procs[p].stage.Kept?
       case UndoObject(_) => s.procs[p].stage == UndoBlob
       case UndoInsert(_) => s.procs[p].stage == UndoRow
       case LoadForQueue => s.procs[p].stage == Live
  }

  predicate HandlerEnabled(s: State, a: HandlerAct) {
    match a
    case PatchFile(p, sid, fid) => Fresh(s, {p}) && HasFile(s.w, sid, fid, false)
    case SoftDelete(_, _) => true
    case BeginPurge(p, sid, fid) => Fresh(s, {p}) && HasFile(s.w, sid, fid, true)
    case PurgeBlob(p, _) => p in s.procs && s.procs[p].Purge? && !s.procs[p].blobGone
    case PurgeRow(p, _) => p in s.procs && s.procs[p].Purge? && s.procs[p].blobGone
    case CheckMedia(p, _) => p in s.procs && s.procs[p].Enqueue? && !s.procs[p].checked
    case InsertJob(p, job, ok) =>
      && p in s.procs && s.procs[p].Enqueue? && s.procs[p].checked && Fresh(s, {job})
      && (ok ==> CanEnqueue(s.w, job, s.procs[p].storage, s.procs[p].file))
  }

  predicate PoolEnabled(s: State, a: PoolAct) {
    match a
    case StartPool(pool, workers) => pool !in workers && Fresh(s, workers + {pool})
    case CloseStop(pool) => pool in s.pools && s.pools[pool] == Running
    case ReturnStop(pool) => pool in s.pools && s.pools[pool] == Stopping && !HasWorkers(s, pool)
    case CheckStop(p) => IsWorkerAt(s, p, Top) && s.procs[p].pool in s.pools
    case ClaimNext(p, next) => IsWorkerAt(s, p, Claiming) && (next.Some? ==> IsNextJob(s.w, next.value))
    case EndWait(p) => IsWorkerAt(s, p, Waiting)
  }

  /** The rows of the derived image that is next in the plan. */
  function NextRow(t: Txn, fid: Id, size: nat): FileRow
    requires |t.done| < |t.Plan()|
  {
    DerivedRow(t.task.storage, size, Path(fid, Leaf(t.Plan()[|t.done|])), t.task.decoded.mime)
  }

  function NextLink(t: Txn, fid: Id): DetailRow
    requires |t.done| < |t.Plan()|
  {
    LinkRow(t.Plan()[|t.done|], t.task.media, t.task.head, fid)
  }

  /** The transaction after the link of the image being stored. */
  function Linked(at: WorkAt, link: Id): Txn
    requires at.Putting? && |at.t.done| < |at.t.Plan()|
  {
    var row := NextLink(at.t, at.id);
    var d := Derived(at.id, at.path.leaf, at.size, link, row);
    at.t.(tx := InsertDetailTx(at.t.tx, link, row), done := at.t.done + [d])
  }

  function BeginTxn(file: Id, storage: Id, kind: Kind, media: Id, head: Id, d: Decoded): Txn
  {
    var task := Task(file, storage, media, head, d);
    var tx := InsertStorageMediaTx(EMPTY_TX, media, kind, file);
    Txn(kind, task, [], InsertDetailTx(tx, head, HeadRow(kind, task)))
  }

  predicate WorkEnabled(s: State, p: Id, a: WorkAct) {
    && IsBusy(s, p)
    && var b := s.procs[p].loop;
       match a
       case FindMedia => b.at == Start
       case LoadFile => b.at == Absent
       case LoadStorage => b.at.Loaded?
       case BeginTx(media, head, decoded) =>
         && b.at.Ready? && media != head && Fresh(s, {media, head})
         && (b.at.kind == Image ==> IsImage(decoded))
         && (decoded.mime.Some? ==> decoded.mime.value in s.w.mimes)
         && CanInsertMediaTx(s.w, EMPTY_TX, media, b.file)
       case AddDerived(fid, size) =>
         && b.at.Open? && |b.at.t.done| < |b.at.t.Plan()| && Fresh(s, {fid})
         && CanInsertFileTx(s.w, b.at.t.tx, fid, NextRow(b.at.t, fid, size))
       case PutDerived(data, link) =>
         && b.at.Putting? && |b.at.t.done| < |b.at.t.Plan()| && Fresh(s, {link}) && |data| == b.at.size
         && CanInsertDetailTx(s.w, b.at.t.tx, link, NextLink(b.at.t, b.at.id))
       case CommitTx => b.at.Open? && |b.at.t.done| == |b.at.t.Plan()| && CanCommit(s.w, b.at.t.tx)
       case FailProcess(_, _) => !b.at.Finish?
       case WriteStatus(_) => b.at.Finish?
  }

  predicate Enabled(s: State, a: Step) {
    match a
    case NewStorage(id) => Fresh(s, {id})
    case DropStorage(_) => true
    case BeginUpload(p, sid, fid, leaf, mime) =>
      p != fid && Fresh(s, {p, fid}) && CanInsertFile(s.w, fid, UploadRow(sid, Path(fid, leaf), mime))
    case UploadStep(p, u) => UploadEnabled(s, p, u)
    case HandlerStep(h) => HandlerEnabled(s, h)
    case PoolStep(a) => PoolEnabled(s, a)
    case WorkStep(p, a) => WorkEnabled(s, p, a)
    case Crash(p) => p in s.procs
  }

  // ---------- Effects ----------

  function SetProc(s: State, p: Id, proc: Proc): State {
    s.(procs := s.procs[p := proc])
  }

  function EndProc(s: State, p: Id): State {
    s.(procs := s.procs - {p})
  }

  function SetWork(s: State, p: Id, at: WorkAt): State
    requires IsBusy(s, p)
  {
    SetProc(s, p, s.procs[p].(loop := s.procs[p].loop.(at := at)))
  }

  function SetWorld(s: State, w: World): State {
    s.(w := w)
  }

  function Draw(s: State, ids: set<Id>): State {
    s.(used := s.used + ids)
  }

  /** maybeEnqueueMedia's test on the row that GetFile returned. */
  predicate WorthQueueing(w: World, row: FileRow) {
    row.status == Published && Category(w, row).Some?
  }

  function ApplyUpload(s: State, p: Id, a: UploadAct): State
    requires UploadEnabled(s, p, a)
  {
    var u := s.procs[p];
    match a
    case Store(data) =>
      SetWorld(SetProc(s, p, u.(stage := Kept(|data|))), Put(s.w, u.path, data))
    case FailStore(partial) =>
      SetWorld(SetProc(s, p, u.(stage := UndoBlob)), if partial.Some? then Put(s.w, u.path, partial.value) else s.w)
    case Publish(ok) =>
      if ok
      then SetWorld(SetProc(s, p, u.(stage := Live)),
                    UpdateFilePathsAndStatus(s.w, u.file, Published, u.stage.size, Some(u.path), u.mime))
      else SetProc(s, p, u.(stage := UndoBlob))
    case UndoObject(ok) =>
      SetWorld(SetProc(s, p, u.(stage := UndoRow)), if ok then DeleteBlob(s.w, u.path) else s.w)
    case UndoInsert(ok) =>
      SetWorld(EndProc(s, p), if ok then DeleteFailedUploadingFile(s.w, u.storage, u.file) else s.w)
    case LoadForQueue =>
      if HasFile(s.w, u.storage, u.file, false) && WorthQueueing(s.w, s.w.files[u.file])
      then SetProc(s, p, Enqueue(u.storage, u.file, false)) else EndProc(s, p)
  }

  function ApplyHandler(s: State, a: HandlerAct): State
    requires HandlerEnabled(s, a)
  {
    match a
    case PatchFile(p, sid, fid) =>
      if WorthQueueing(s.w, s.w.files[fid]) then SetProc(Draw(s, {p}), p, Enqueue(sid, fid, false)) else s
    case SoftDelete(sid, fid) =>
      SetWorld(s, SetFileExcluded(s.w, sid, fid, true))
    case BeginPurge(p, sid, fid) =>
      SetProc(Draw(s, {p}), p, Purge(sid, fid, s.w.files[fid].realPath, false))
    case PurgeBlob(p, ok) =>
      var key := s.procs[p].key;
      SetWorld(SetProc(s, p, s.procs[p].(blobGone := true)),
               if ok && key.Some? then DeleteBlob(s.w, key.value) else s.w)
    case PurgeRow(p, ok) =>
      SetWorld(EndProc(s, p), if ok then PermaDeleteFile(s.w, s.procs[p].storage, s.procs[p].file) else s.w)
    case CheckMedia(p, ok) =>
      if !ok || HasMedia(s.w, s.procs[p].file) then EndProc(s, p)
      else SetProc(s, p, s.procs[p].(checked := true))
    case InsertJob(p, job, ok) =>
      SetWorld(EndProc(Draw(s, {job}), p),
               if ok then EnqueueMediaProcessing(s.w, job, s.procs[p].storage, s.procs[p].file) else s.w)
  }

  function ApplyPool(s: State, a: PoolAct): State
    requires PoolEnabled(s, a)
  {
    match a
    case StartPool(pool, workers) =>
      Draw(s, workers + {pool}).(pools := s.pools[pool := Running],
      procs := s.procs + map p | p in workers :: Worker(pool, Top))
    case CloseStop(pool) => s.(pools := s.pools[pool := Stopping])
    case ReturnStop(pool) => s.(pools := s.pools[pool := Stopped])
    case CheckStop(p) =>
      if s.pools[s.procs[p].pool] == Running then SetProc(s, p, s.procs[p].(loop := Claiming)) else EndProc(s, p)
    case ClaimNext(p, next) =>
      if next.None? then SetProc(s, p, s.procs[p].(loop := Waiting))
      else
        var j := next.value;
        var loop := Busy(j, s.w.jobs[j].storage, s.w.jobs[j].file, Start);
        SetWorld(SetProc(s, p, s.procs[p].(loop := loop)), ClaimMediaJob(s.w, j))
        .(claims := s.claims + [Claim(j, p, s.procs[p].pool)])
    case EndWait(p) => SetProc(s, p, s.procs[p].(loop := Top))
  }

  function ApplyWork(s: State, p: Id, a: WorkAct): State
    requires WorkEnabled(s, p, a)
  {
    var b := s.procs[p].loop;
    match a
    case FindMedia =>
      SetWork(s, p, if HasMedia(s.w, b.file) then Finish(None) else Absent)
    case LoadFile =>
      SetWork(s, p,
              if !HasFile(s.w, b.storage, b.file, false) then Finish(Some(NO_ROWS))
              else if s.w.files[b.file].status != Published || s.w.files[b.file].realPath.None? then Finish(None)
              else Loaded(s.w.files[b.file]))
    case LoadStorage =>
      SetWork(s, p,
              if b.storage !in s.w.storages then Finish(Some(NO_ROWS))
              else match Category(s.w, b.at.row)
                case None => Finish(None)
                case Some(kind) => Ready(kind))
    case BeginTx(media, head, decoded) =>
      SetWork(Draw(s, {media, head}), p, Open(BeginTxn(b.file, b.storage, b.at.kind, media, head, decoded)))
    case AddDerived(fid, size) =>
      var row := NextRow(b.at.t, fid, size);
      SetWork(Draw(s, {fid}), p,
              Putting(b.at.t.(tx := InsertFileTx(b.at.t.tx, fid, row)), fid, row.realPath.value, size))
    case PutDerived(data, link) =>
      SetWorld(SetWork(Draw(s, {link}), p, Open(Linked(b.at, link))), Put(s.w, b.at.path, data))
    case CommitTx =>
      SetWorld(SetWork(s, p, Finish(None)), Merge(s.w, b.at.t.tx))
    case FailProcess(partial, msg) =>
      SetWorld(SetWork(s, p, Finish(Some(msg))),
               if partial.Some? && b.at.Putting? then Put(s.w, b.at.path, partial.value) else s.w)
    case WriteStatus(ok) =>
      SetWorld(SetProc(s, p, s.procs[p].(loop := Top)),
               if !ok then s.w
               else match b.at.error
                 case None => CompleteMediaJob(s.w, b.job)
                 case Some(msg) => FailMediaJob(s.w, b.job, msg))
  }

  function Apply(s: State, a: Step): State
    requires Enabled(s, a)
  {
    match a
    case NewStorage(id) => SetWorld(Draw(s, {id}), InsertStorage(s.w, id))
    case DropStorage(id) => SetWorld(s, DeleteStorage(s.w, id))
    case BeginUpload(p, sid, fid, leaf, mime) =>
      var path := Path(fid, leaf);
      SetWorld(SetProc(Draw(s, {p, fid}), p, Upload(sid, fid, path, mime, Inserted)),
               InsertFile(s.w, fid, UploadRow(sid, path, mime)))
    case UploadStep(p, u) => ApplyUpload(s, p, u)
    case HandlerStep(h) => ApplyHandler(s, h)
    case PoolStep(a) => ApplyPool(s, a)
    case WorkStep(p, a) => ApplyWork(s, p, a)
    case Crash(p) => EndProc(s, p)
  }

  // ---------- Runs ----------

  /** A run: the states it passes through, starting from empty tables. */
  ghost predicate IsRun(mimes: map<Id, MimeType>, states: seq<State>, steps: seq<Step>) {
    && |states| == |steps| + 1
    && states[0] == Initial(mimes)
    && forall i :: 0 <= i < |steps| ==> Enabled(states[i], steps[i]) && states[i + 1] == Apply(states[i], steps[i])
  }
}

/** The request handlers and the image job as the programs they are: statement after statement on the
    shared tables and object store, any of which may fail. */
module Service {
  import opened Text
  import opened MediaKind
  import opened Tables
  import opened Plan
  import opened Resizer
  import opened Rows
  import opened Additions
  import Capped
  import Protocol

  /** What a handler or a worker asks of the world outside: the database, the object store, the network, the image
      library. Any of these may fail, and a worker may panic while it processes a job. */
  datatype Call =
    | LoadRow | InsertRow | UpdateRow | DeleteRow | TrashRow | EraseRow
    | SeekMedia | QueueJob | ClaimJob | WriteJob | TxInsert | TxCommit
    | Resolve | Fetch | PutObj | DeleteObj | Decode | Encode | NotPanic

  datatype UploadResult = Refused | Accepted(queued: bool) | RolledBack(blobGone: bool, rowGone: bool)

  /** A row's object key starts with the row's own id. */
  ghost predicate OwnKeys(files: map<Id, FileRow>) {
    forall f <- files :: files[f].realPath.Some? ==> files[f].realPath.value.dir == f
  }

  /** Every id in the tables and in the object store was drawn from the counter, and keys are the rows' own. */
  ghost predicate Drawn(w: World, next: Id) {
    && OwnKeys(w.files)
    && (forall f <- w.files :: f < next) && (forall m <- w.media :: m < next)
    && (forall d <- w.details :: d < next) && (forall j <- w.jobs :: j < next)
    && (forall k <- w.blobs :: k.dir < next)
  }

  /** Same tables; the store may have gained objects under ids that were fresh at `base`. */
  ghost predicate OnlyNewObjects(w: World, v: World, base: Id) {
    && v == w.(blobs := v.blobs)
    && forall k: Path :: k.dir < base ==>
        (k in w.blobs <==> k in v.blobs) && (k in w.blobs ==> v.blobs[k] == w.blobs[k])
  }

  /** Same tables; the store differs at most at one key. */
  ghost predicate TouchesOnly(w: World, v: World, path: Path) {
    && v == w.(blobs := v.blobs)
    && forall k: Path :: k != path ==> (k in w.blobs <==> k in v.blobs) && (k in w.blobs ==> v.blobs[k] == w.blobs[k])
  }

  /** Ids are drawn in order, so no two rows share one. */
  predicate Rising(ds: seq<Derived>, lo: Id, hi: Id) {
    && (forall i :: 0 <= i < |ds| ==> lo <= ds[i].file < ds[i].link < hi)
    && (forall i, k :: 0 <= i < k < |ds| ==> ds[i].link < ds[k].file)
  }

  ghost predicate AllStored(w: World, ds: seq<Derived>) {
    forall i :: 0 <= i < |ds| ==> Stored(w, Some(Path(ds[i].file, ds[i].leaf)), ds[i].size)
  }

  /** The image job is under way: its transaction holds `ds`, and their objects are stored. */
  ghost predicate Progress(w: World, tx: Tx, task: Task, ds: seq<Derived>, next: Id) {
    && tx == TaskTx(Image, task, ds) && Rising(ds, task.head + 1, next) && AllStored(w, ds)
    && LinksFit(Image, task, ds) && task.media < task.head < next
  }

  /** Nothing in the tables is in the way of the job: its file and storage are there, the file has no media, and the
      ids it has drawn are new. */
  ghost predicate Feasible(w: World, task: Task) {
    && Integrity(w) && task.file in w.files && task.storage in w.storages && !HasMedia(w, task.file)
    && (task.decoded.mime.Some? ==> task.decoded.mime.value in w.mimes)
    && task.media < task.head
    && (forall f <- w.files :: f < task.media) && (forall m <- w.media :: m < task.media)
    && (forall d <- w.details :: d < task.media)
  }

  const IMAGE_CALLS := {Decode, Encode, PutObj, TxInsert}
  const JOB_CALLS := IMAGE_CALLS + {Resolve, LoadRow, SeekMedia, TxCommit}

  ghost predicate TxDrawn(tx: Tx, next: Id) {
    && OwnKeys(tx.files)
    && (forall f <- tx.files :: f < next) && (forall m <- tx.media :: m < next) && (forall d <- tx.details :: d < next)
  }

  ghost predicate ObjectsDrawn(w: World, next: Id) {
    forall k <- w.blobs :: k.dir < next
  }

  class Server {
    var w: World
    var nextId: Id
    // the calls that do not fail in this execution; nothing is said of the others
    const sure: set<Call>

    ghost predicate Valid()
      reads this
    {
      Integrity(w) && Drawn(w, nextId)
    }

    constructor (mimes: map<Id, MimeType>, sure: set<Call>)
      ensures Valid() && w == Protocol.Initial(mimes).w && this.sure == sure
    {
      this.sure := sure;
      w := World({}, mimes, map[], map[], map[], map[], 0, map[]);
      nextId := 0;
    }

    // ---------- Calls that may fail ----------

    method Works(c: Call) returns (ok: bool)
      ensures c in sure ==> ok
    {
      ok := *;
      ok := ok || c in sure;
    }

    /** uuid.New. */
    method NewId() returns (id: Id)
      modifies this`nextId
      ensures id == old(nextId) && nextId == id + 1
    {
      id := nextId;
      nextId := nextId + 1;
    }

    method InsertFile(id: Id, row: FileRow) returns (ok: bool)
      modifies this`w
      ensures ok ==> CanInsertFile(old(w), id, row)
      ensures InsertRow in sure && CanInsertFile(old(w), id, row) ==> ok
      ensures w == if ok then Tables.InsertFile(old(w), id, row) else old(w)
    {
      ok := Works(InsertRow);
      ok := ok && CanInsertFile(w, id, row);
      if ok { w := Tables.InsertFile(w, id, row); }
    }

    method UpdateFilePathsAndStatus(id: Id, status: Status, size: nat, path: Option<Path>, mime: Option<Id>)
      returns (ok: bool)
      modifies this`w
      ensures w == if ok then Tables.UpdateFilePathsAndStatus(old(w), id, status, size, path, mime) else old(w)
      ensures UpdateRow in sure ==> ok
    {
      ok := Works(UpdateRow);
      if ok { w := Tables.UpdateFilePathsAndStatus(w, id, status, size, path, mime); }
    }

    method DeleteFailedUploadingFile(sid: Id, id: Id) returns (ok: bool)
      modifies this`w
      ensures w == if ok then Tables.DeleteFailedUploadingFile(old(w), sid, id) else old(w)
      ensures DeleteRow in sure ==> ok
    {
      ok := Works(DeleteRow);
      if ok { w := Tables.DeleteFailedUploadingFile(w, sid, id); }
    }

    method PermaDeleteFile(sid: Id, id: Id) returns (ok: bool)
      modifies this`w
      ensures ok ==> HasFile(old(w), sid, id, true)
      ensures w == if ok then Tables.PermaDeleteFile(old(w), sid, id) else old(w)
      ensures EraseRow in sure && HasFile(old(w), sid, id, true) ==> ok
    {
      ok := Works(EraseRow);
      ok := ok && HasFile(w, sid, id, true);
      if ok { w := Tables.PermaDeleteFile(w, sid, id); }
    }

    method SetFileExcluded(sid: Id, id: Id, excluded: bool) returns (ok: bool)
      modifies this`w
      ensures ok ==> HasFile(old(w), sid, id, !excluded)
      ensures w == if ok then Tables.SetFileExcluded(old(w), sid, id, excluded) else old(w)
      ensures TrashRow in sure && HasFile(old(w), sid, id, !excluded) ==> ok
    {
      ok := Works(TrashRow);
      ok := ok && HasFile(w, sid, id, !excluded);
      if ok { w := Tables.SetFileExcluded(w, sid, id, excluded); }
    }

    method DeleteObject(path: Path) returns (ok: bool)
      modifies this`w
      ensures w == if ok then DeleteBlob(old(w), path) else old(w)
      ensures DeleteObj in sure ==> ok
    {
      ok := Works(DeleteObj);
      if ok { w := DeleteBlob(w, path); }
    }

    /** A Put of known bytes. A failed one leaves nothing, what was there, or part of the bytes. */
    method PutObject(path: Path, data: Bytes) returns (ok: bool)
      modifies this`w
      ensures ok ==> w == Put(old(w), path, data)
      ensures TouchesOnly(old(w), w, path)
      ensures PutObj in sure ==> ok
    {
      ok := Works(PutObj);
      if ok {
        w := Put(w, path, data);
      } else if * {
        var part: nat :| part <= |data|;
        w := Put(w, path, data[..part]);
      } else if * {
        w := DeleteBlob(w, path);
      }
    }

    /** localBackend.Put from a stream: a failed copy or close removes the file, if it can. */
    method PutStream(path: Path, cr: Capped.CappedReader) returns (ok: bool)
      requires cr.Valid() && cr.n == 0 && !cr.r.sawEof && !cr.r.broke
      modifies this`w, cr, cr.r
      ensures cr.Valid()
      ensures ok ==> w == Put(old(w), path, cr.r.data) && cr.n == |cr.r.data| <= cr.max
      ensures TouchesOnly(old(w), w, path)
      ensures PutObj in sure ==> (ok <==> Capped.Ends(cr.r.data, cr.max, cr.r.sawEof, cr.r.broke))
      ensures PutObj in sure && !ok && cr.max > 0 && !cr.r.broke ==> cr.n == cr.max <= |cr.r.data|
      ensures PutObj in sure && DeleteObj in sure && !ok ==> path !in w.blobs
    {
      ok := Works(PutObj);
      if !ok { return; }
      var out, err := Capped.Copy(cr);
      w := Put(w, path, out);
      var closed := Works(PutObj);
      ok := err == Capped.Good && closed;
      if !ok {
        var _ := DeleteObject(path);
      }
    }

    // ---------- Uploads ----------

    /** Deletes the object, then the row, each as far as it succeeds. */
    method RollbackUploadingFile(sid: Id, id: Id, path: Path) returns (blobGone: bool, rowGone: bool)
      modifies this`w
      ensures w == (var v := if blobGone then DeleteBlob(old(w), path) else old(w);
                    if rowGone then Tables.DeleteFailedUploadingFile(v, sid, id) else v)
      ensures ({Resolve, DeleteObj} <= sure ==> blobGone) && (DeleteRow in sure ==> rowGone)
    {
      var resolved := Works(Resolve);
      blobGone := false;
      if resolved { blobGone := DeleteObject(path); }
      rowGone := DeleteFailedUploadingFile(sid, id);
    }

    /** maybeEnqueueMedia on the row GetFile returned. */
    method MaybeEnqueueMedia(sid: Id, id: Id, enabled: bool) returns (queued: bool)
      requires Valid()
      modifies this
      ensures Valid() && QueuedAs(old(w), w, old(nextId), sid, id, enabled, queued)
      ensures {LoadRow, SeekMedia, QueueJob} <= sure ==> (queued <==> enabled && IsQueueable(old(w), sid, id))
    {
      QueueableIff(w, sid, id);
      queued := false;
      var loaded := Works(LoadRow);
      if !loaded || !HasFile(w, sid, id, false) || !enabled || !Protocol.WorthQueueing(w, w.files[id]) {
        return;
      }
      var found := Works(SeekMedia);
      if !found || HasMedia(w, id) {
        return;
      }
      var j := NewId();
      queued := Works(QueueJob);
      queued := queued && CanEnqueue(w, j, sid, id);
      if queued {
        EnqueueKeepsValid(w, j, sid, id);
        w := EnqueueMediaProcessing(w, j, sid, id);
      }
    }

    /** The common end of both upload handlers after their Put: publish, or roll back. `u` is the state
        before the row was inserted. */
    method PublishOrUndo(ghost u: World, sid: Id, id: Id, path: Path, mime: Option<Id>, size: nat, put: bool,
                         ghost data: Bytes)
      returns (undone: bool, blobGone: bool, rowGone: bool)
      requires nextId == id + 1 && Underway(u, w, id, sid, path, mime, put, data) && (put ==> size == |data|)
      modifies this`w
      ensures Valid()
      ensures !undone ==> put && w == WithUpload(u, id, sid, path, mime, data) && id !in u.files && path !in u.blobs
      ensures undone ==> UndoneAs(u, w, id, sid, path, mime, blobGone, rowGone) && (blobGone && rowGone ==> w == u)
      ensures undone ==> ({Resolve, DeleteObj} <= sure ==> blobGone) && (DeleteRow in sure ==> rowGone)
      ensures put && UpdateRow in sure ==> !undone
    {
      ghost var before := w;
      var ok := put;
      if ok { ok := UpdateFilePathsAndStatus(id, Published, size, Some(path), mime); }
      undone, blobGone, rowGone := !ok, false, false;
      if undone {
        blobGone, rowGone := RollbackUploadingFile(sid, id, path);
        UndoRestores(u, before, w, id, sid, path, mime, put, data, blobGone, rowGone);
      } else {
        PublishLands(u, before, w, id, sid, path, mime, data);
      }
    }

    /** How both upload handlers go on after their Put. */
    method FinishUpload(ghost u: World, sid: Id, id: Id, path: Path, mime: Option<Id>, size: nat, put: bool,
                        ghost data: Bytes, enabled: bool)
      returns (res: UploadResult)
      requires nextId == id + 1 && Underway(u, w, id, sid, path, mime, put, data) && (put ==> size == |data|)
      modifies this
      ensures Valid() && UploadOutcome(u, w, id, sid, path, mime, data, enabled, res)
      ensures res.Accepted? ==> put
      ensures UploadTries(sure, u, sid, mime, enabled, put, res)
    {
      var undone, b, r := PublishOrUndo(u, sid, id, path, mime, size, put, data);
      if undone { return RolledBack(b, r); }
      UploadIsQueueable(u, w, id, sid, path, mime, data);
      var queued := MaybeEnqueueMedia(sid, id, enabled);
      res := Accepted(queued);
    }

    /** uploadMultipart: published with exactly its bytes, or nothing changed, or whatever the rollback's
        own deletes could not remove. */
    method UploadMultipart(sid: Id, leaf: string, mime: Option<Id>, data: Bytes, enabled: bool)
      returns (res: UploadResult)
      requires Valid()
      modifies this
      ensures Valid()
      ensures UploadOutcome(old(w), w, old(nextId), sid, Path(old(nextId), leaf), mime, data, enabled, res)
      ensures UploadTries(sure, old(w), sid, mime, enabled, {Resolve, PutObj} <= sure, res)
    {
      var id := NewId();
      var path := Path(id, leaf);
      var ok := InsertFile(id, Protocol.UploadRow(sid, path, mime));
      if !ok { return Refused; }
      ok := Works(Resolve);
      if ok { ok := PutObject(path, data); }
      res := FinishUpload(old(w), sid, id, path, mime, |data|, ok, data, enabled);
    }

    /** uploadFromURL with putStreamURLUpload: the size column is the reader's counter, and it is the
        length of what was stored, which is the whole body. */
    method UploadFromUrl(sid: Id, mime: Option<Id>, body: Capped.Source, max: int, enabled: bool)
      returns (res: UploadResult)
      requires Valid() && body.Valid() && body.pos == 0 && !body.sawEof && !body.broke
      modifies this, body
      ensures Valid()
      ensures UploadOutcome(old(w), w, old(nextId), sid, Path(old(nextId), "file"), mime, body.data, enabled, res)
      ensures res.Accepted? ==> |body.data| <= max
      ensures UploadTries(sure, old(w), sid, mime, enabled, {Resolve, Fetch, PutObj} <= sure &&
                          Capped.Ends(body.data, max, body.sawEof, body.broke), res)
      ensures res.RolledBack? && {Resolve, Fetch, PutObj, UpdateRow} <= sure && max > 0 && !body.broke ==>
                |body.data| >= max
    {
      var id := NewId();
      var path := Path(id, "file");
      var ok := InsertFile(id, Protocol.UploadRow(sid, path, mime));
      if !ok { return Refused; }
      var cr := new Capped.CappedReader(body, max);
      ok := Works(Fetch);
      if ok { ok := Works(Resolve); }
      if ok { ok := PutStream(path, cr); }
      res := FinishUpload(old(w), sid, id, path, mime, cr.n, ok, body.data, enabled);
    }

    // ---------- Deletes ----------

    /** deleteFile: the row goes into the trash. Nothing else changes, and nothing takes it out again. */
    method DeleteFile(sid: Id, id: Id) returns (ok: bool)
      requires Valid()
      modifies this`w
      ensures Valid()
      ensures ok ==> HasFile(old(w), sid, id, false) && HasFile(w, sid, id, true)
      ensures ok ==> SparesOthers(old(w), w, id) && w.media == old(w).media && w.details == old(w).details
      ensures ok ==> w.jobs == old(w).jobs && w.files.Keys == old(w).files.Keys
      ensures ok ==> w.files[id].(excluded := false) == old(w).files[id]
      ensures !ok ==> w == old(w)
      ensures {LoadRow, TrashRow} <= sure ==> (ok <==> HasFile(old(w), sid, id, false))
    {
      ok := Works(LoadRow);
      if !ok || !HasFile(w, sid, id, false) { return false; }
      ok := SetFileExcluded(sid, id, true);
      RowKeepsIntegrity(old(w), w, id);
    }

    /** permaDelete: the object goes first, as far as it can, then the row with its cascade. Other files
        keep their rows and their objects, and on any failure every row stays. */
    method PermaDelete(sid: Id, id: Id) returns (ok: bool)
      requires Valid()
      modifies this
      ensures Valid()
      ensures ok ==> HasFile(old(w), sid, id, true) && w.(blobs := old(w).blobs) == DropFiles(old(w), {id})
      ensures ok ==> SparesOthers(old(w), w.(blobs := old(w).blobs), id) && Forgotten(w, id)
      ensures !ok ==> w.(blobs := old(w).blobs) == old(w)
      ensures {LoadRow, EraseRow} <= sure ==> (ok <==> HasFile(old(w), sid, id, true))
      ensures ok && {Resolve, DeleteObj} <= sure ==>
                var path := old(w).files[id].realPath; path.Some? ==> path.value !in w.blobs
      ensures forall k: Path :: k.dir != id ==>
          (k in w.blobs <==> k in old(w).blobs) && (k in w.blobs ==> w.blobs[k] == old(w).blobs[k])
      ensures !HasFile(old(w), sid, id, true) ==> w == old(w)
    {
      ok := Works(LoadRow);
      if !ok || !HasFile(w, sid, id, true) { return false; }
      var loaded := Works(LoadRow);
      if !loaded { return false; }
      var resolved := Works(Resolve);
      var key := w.files[id].realPath;
      if resolved && key.Some? {
        var _ := DeleteObject(key.value);
      }
      BlobsKeepIntegrity(old(w), w);
      ghost var u := w;
      ok := PermaDeleteFile(sid, id);
      if ok {
        DropIgnoresBlobs(old(w), u, {id});
        DropFilesKeepsIntegrity(u, {id});
        DropForgets(old(w), id);
      }
    }

    // ---------- The queue ----------

    /** ClaimMediaJob: the oldest pending row, or nothing when there is none or the query fails. */
    method ClaimMediaJob() returns (job: Option<Id>)
      requires Valid()
      modifies this`w
      ensures Valid()
      ensures job.Some? ==> IsNextJob(old(w), job.value) && w == Tables.ClaimMediaJob(old(w), job.value)
      ensures job.None? ==> w == old(w)
      ensures job.None? && ClaimJob in sure ==> forall k :: !IsPending(old(w), k)
    {
      job := None;
      var reached := Works(ClaimJob);
      if !reached { return; }
      var rest := w.jobs.Keys;
      while rest != {}
        invariant rest <= w.jobs.Keys && w == old(w)
        invariant job.Some? ==> IsPending(w, job.value)
        invariant forall k :: IsPending(w, k) && k !in rest ==>
            job.Some? && w.jobs[job.value].createdAt <= w.jobs[k].createdAt
        decreases rest
      {
        var k :| k in rest;
        rest := rest - {k};
        if w.jobs[k].status == Pending && (job.None? || w.jobs[k].createdAt < w.jobs[job.value].createdAt) {
          job := Some(k);
        }
      }
      if job.Some? {
        JobsKeepIntegrity(w, Tables.ClaimMediaJob(w, job.value));
        w := Tables.ClaimMediaJob(w, job.value);
      }
    }

    /** The end of Pool.loop: fail with the error or complete, ignoring a failed write. */
    method WriteStatus(j: Id, err: Option<Bytes>)
      requires Valid()
      modifies this`w
      ensures Valid()
      ensures w == old(w) ||
        w == if err.Some? then FailMediaJob(old(w), j, err.value) else CompleteMediaJob(old(w), j)
      ensures w == old(w).(jobs := w.jobs) && w.jobs.Keys == old(w).jobs.Keys
      ensures forall k <- w.jobs :: k != j ==> w.jobs[k] == old(w).jobs[k]
      ensures j in w.jobs ==> StatusWritten(old(w).jobs[j], w.jobs[j], err)
      ensures WriteJob in sure && j in w.jobs ==> StatusIs(old(w).jobs[j], w.jobs[j], err)
    {
      var ok := Works(WriteJob);
      if !ok { return; }
      var v := if err.Some? then FailMediaJob(w, j, err.value) else CompleteMediaJob(w, j);
      JobsKeepIntegrity(w, v);
      w := v;
    }

    // ---------- The image job ----------

    /** The insert statements of the open transaction: each fails on a key it would break, or for any
        other reason. */
    method TxInsertFile(tx: Tx, id: Id, row: FileRow) returns (ok: bool, tx': Tx)
      ensures ok ==> tx' == InsertFileTx(tx, id, row)
      ensures TxInsert in sure && CanInsertFileTx(w, tx, id, row) ==> ok
    {
      tx' := InsertFileTx(tx, id, row);
      ok := Works(TxInsert);
      ok := ok && CanInsertFileTx(w, tx, id, row);
    }

    method TxInsertMedia(id: Id, kind: Kind, f: Id) returns (ok: bool, tx: Tx)
      ensures ok ==> tx == InsertStorageMediaTx(EMPTY_TX, id, kind, f) && !HasMedia(w, f)
      ensures TxInsert in sure && CanInsertMediaTx(w, EMPTY_TX, id, f) ==> ok
    {
      tx := InsertStorageMediaTx(EMPTY_TX, id, kind, f);
      ok := Works(TxInsert);
      ok := ok && CanInsertMediaTx(w, EMPTY_TX, id, f);
      assert Merge(w, EMPTY_TX) == w;
    }

    method TxInsertDetail(tx: Tx, id: Id, d: DetailRow) returns (ok: bool, tx': Tx)
      ensures ok ==> tx' == InsertDetailTx(tx, id, d)
      ensures TxInsert in sure && CanInsertDetailTx(w, tx, id, d) ==> ok
    {
      tx' := InsertDetailTx(tx, id, d);
      ok := Works(TxInsert);
      ok := ok && CanInsertDetailTx(w, tx, id, d);
    }

    /** The first two inserts of every job: the media row and the row of its kind. */
    method InsertHead(ghost task: Task, m: Id, d: Id, kind: Kind, f: Id, row: DetailRow) returns (ok: bool, tx: Tx)
      requires task.media == m && task.head == d && task.file == f && row == HeadRow(kind, task)
      ensures ok ==> tx == TaskTx(kind, task, []) && !HasMedia(w, f)
      ensures TxInsert in sure && Feasible(w, task) ==> ok
    {
      if Feasible(w, task) { CanBegin(w, kind, task); }
      ok, tx := TxInsertMedia(m, kind, f);
      if !ok { return; }
      ok, tx := TxInsertDetail(tx, d, row);
      if !ok { return; }
      assert tx == TaskTx(kind, task, []);
    }

    /** One derived image: insert its row, store its object, insert the row that links it. */
    method InsertDerived(tx: Tx, ghost task: Task, ghost ds: seq<Derived>, ghost plan: seq<Link>, storage: Id,
                         mime: Option<Id>, l: Link, media: Id, image: Id, ghost free: bool)
      returns (ok: bool, tx': Tx, ghost ds': seq<Derived>)
      requires ObjectsDrawn(w, nextId) && Progress(w, tx, task, ds, nextId)
      requires storage == task.storage && mime == task.decoded.mime
      requires Follows(ds, plan, task) && (free ==> Feasible(w, task))
      requires if l.ThumbLink? then media == task.media else image == task.head
      modifies this
      ensures OnlyNewObjects(old(w), w, old(nextId)) && old(nextId) <= nextId && ObjectsDrawn(w, nextId)
      ensures ok ==> Progress(w, tx', task, ds', nextId) && Follows(ds', plan + [l], task)
      ensures free ==> Feasible(w, task) && (IMAGE_CALLS <= sure ==> ok)
    {
      tx', ds' := tx, ds;
      ok := Works(Encode);
      if !ok { return; }
      var data: Bytes := *;
      var id := NewId();
      var path := Path(id, Leaf(l));
      CanAddFile(w, tx, task, ds, id, |data|, path);
      ok, tx' := TxInsertFile(tx, id, DerivedRow(storage, |data|, path, mime));
      if !ok { return; }
      ok := PutObject(path, data);
      FeasibleStays(old(w), w, task);
      if !ok { return; }
      var link := NewId();
      CanAddLink(w, tx', task, ds, id, |data|, path, l, media, image);
      ok, tx' := TxInsertDetail(tx', link, LinkRow(l, media, image, id));
      if !ok { return; }
      ds' := ds + [Derived(id, Leaf(l), |data|, link, LinkRow(l, media, image, id))];
      OneMoreDerived(old(w), w, tx, task, ds, plan, l, id, link, data, media, image);
    }

    method InsertSizedImageRows(tx0: Tx, ghost task: Task, image: Id, origW: nat, origH: nat, storage: Id,
                                mime: Option<Id>, sizes: seq<Box>, ghost free: bool)
      returns (ok: bool, tx: Tx, ghost ds: seq<Derived>)
      requires ObjectsDrawn(w, nextId) && Progress(w, tx0, task, [], nextId) && image == task.head
      requires storage == task.storage && mime == task.decoded.mime && origW > 0 && origH > 0 && AreBoxes(sizes)
      requires free ==> Feasible(w, task)
      modifies this
      ensures OnlyNewObjects(old(w), w, old(nextId)) && old(nextId) <= nextId && ObjectsDrawn(w, nextId)
      ensures ok ==> Progress(w, tx, task, ds, nextId) && Follows(ds, SizedPlan(origW, origH, sizes), task)
      ensures free ==> Feasible(w, task) && (IMAGE_CALLS <= sure ==> ok)
    {
      ok, tx, ds := true, tx0, [];
      ghost var plan: seq<Link> := [];
      var i := 0;
      while ok && i < |sizes|
        invariant 0 <= i <= |sizes| && plan == SizedPlan(origW, origH, sizes[..i])
        invariant OnlyNewObjects(old(w), w, old(nextId)) && old(nextId) <= nextId && ObjectsDrawn(w, nextId)
        invariant ok ==> Progress(w, tx, task, ds, nextId) && Follows(ds, plan, task)
        invariant free ==> Feasible(w, task) && (IMAGE_CALLS <= sure ==> ok)
        decreases |sizes| - i, ok
      {
        var r := ComputeNewImageDimensions(origW, origH, sizes[i].w, sizes[i].h);
        SizedPlanNext(origW, origH, sizes, i);
        if !Upscales(origW, origH, r) {
          var l := SizedLink(SizeTagFromDimensions(r.w, r.h), r.w, r.h);
          // a sized row names its image row only, so the media id is not needed here
          ok, tx, ds := InsertDerived(tx, task, ds, plan, storage, mime, l, 0, image, free);
          plan := plan + [l];
        }
        i := i + 1;
      }
      assert sizes[..|sizes|] == sizes;
    }

    method InsertThumbnailRows(tx0: Tx, ghost task: Task, ghost ds0: seq<Derived>, ghost plan: seq<Link>, media: Id,
                               storage: Id, mime: Option<Id>, tags: seq<string>, ghost free: bool)
      returns (ok: bool, tx: Tx, ghost ds: seq<Derived>)
      requires ObjectsDrawn(w, nextId) && Progress(w, tx0, task, ds0, nextId) && media == task.media
      requires storage == task.storage && mime == task.decoded.mime && Follows(ds0, plan, task)
      requires free ==> Feasible(w, task)
      modifies this
      ensures OnlyNewObjects(old(w), w, old(nextId)) && old(nextId) <= nextId && ObjectsDrawn(w, nextId)
      ensures ok ==> Progress(w, tx, task, ds, nextId) && Follows(ds, plan + ThumbPlan(tags), task)
      ensures free ==> Feasible(w, task) && (IMAGE_CALLS <= sure ==> ok)
    {
      ok, tx, ds := true, tx0, ds0;
      ghost var so := plan;
      ThumbPlanStart(plan, tags);
      var i := 0;
      while ok && i < |tags|
        invariant 0 <= i <= |tags| && so == plan + ThumbPlan(tags[..i])
        invariant OnlyNewObjects(old(w), w, old(nextId)) && old(nextId) <= nextId && ObjectsDrawn(w, nextId)
        invariant ok ==> Progress(w, tx, task, ds, nextId) && Follows(ds, so, task)
        invariant free ==> Feasible(w, task) && (IMAGE_CALLS <= sure ==> ok)
        decreases |tags| - i, ok
      {
        var l := ThumbLink(tags[i]);
        // a thumbnail names its media row only, so the image id is not needed here
        ok, tx, ds := InsertDerived(tx, task, ds, so, storage, mime, l, media, 0, free);
        ThumbPlanNext(plan, tags, i);
        so := so + [l];
        i := i + 1;
      }
      assert tags[..|tags|] == tags;
    }

    method Commit(tx: Tx) returns (ok: bool)
      requires Valid() && TxDrawn(tx, nextId)
      modifies this`w
      ensures Valid()
      ensures w == if ok then Merge(old(w), tx) else old(w)
      ensures ok ==> NewKeys(old(w), tx)
      ensures TxCommit in sure && CanCommit(old(w), tx) ==> ok
    {
      ok := Works(TxCommit);
      ok := ok && CanCommit(w, tx);
      if ok { w := Merge(w, tx); }
    }

    /** The transaction of processImage up to its commit. */
    method BuildImageTx(f: Id, storage: Id, decoded: Decoded)
      returns (ok: bool, tx: Tx, ghost task: Task, ghost ds: seq<Derived>)
      requires ObjectsDrawn(w, nextId) && IsImage(decoded)
      modifies this
      ensures OnlyNewObjects(old(w), w, old(nextId)) && old(nextId) <= nextId && ObjectsDrawn(w, nextId)
      ensures ok ==>
                && task == Task(f, storage, old(nextId), old(nextId) + 1, decoded)
                && Progress(w, tx, task, ds, nextId) && !HasMedia(old(w), f)
                && Follows(ds, PlanOf(Image, decoded), task)
      ensures IMAGE_CALLS <= sure && Feasible(old(w), Task(f, storage, old(nextId), old(nextId) + 1, decoded)) ==> ok
    {
      task := Task(f, storage, nextId, nextId + 1, decoded);
      tx, ds := EMPTY_TX, [];
      ok := Works(Decode);
      if !ok { return; }
      var media := NewId();
      var image := NewId();
      ok, tx := InsertHead(task, media, image, Image, f, ImageDetail(media, decoded.w, decoded.h));
      if !ok { return; }
      ghost var w1, n1, free := w, nextId, Feasible(w, task);
      ok, tx, ds := InsertSizedImageRows(tx, task, image, decoded.w, decoded.h, storage, decoded.mime, decoded.sizes,
                                         free);
      if !ok { return; }
      ghost var w2, n2 := w, nextId;
      ghost var plan := SizedPlan(decoded.w, decoded.h, decoded.sizes);
      ok, tx, ds := InsertThumbnailRows(tx, task, ds, plan, media, storage, decoded.mime, THUMB_TAGS, free);
      OnlyNewObjectsCompose(w1, w2, w, n1, n2);
    }

    /** processImage: on success the tables grow by exactly one media row, one image row, one derived file
        with its object and link per box that fits, in order, and one per thumbnail; on any failure every
        table is as before. Objects already stored stay in the store. */
    method ProcessImage(f: Id, decoded: Decoded) returns (ok: bool, ghost task: Task, ghost ds: seq<Derived>)
      requires Valid() && f in w.files && IsImage(decoded)
      modifies this
      ensures Valid() && old(nextId) <= nextId
      ensures OnlyNewObjects(old(w), old(w).(blobs := w.blobs), old(nextId))
      ensures !ok ==> w == old(w).(blobs := w.blobs)
      ensures ok ==>
                && task == Task(f, old(w).files[f].storage, old(nextId), old(nextId) + 1, decoded)
                && MediaMade(old(w), w, Image, task, ds)
                && w == Merge(old(w).(blobs := w.blobs), TaskTx(Image, task, ds))
                && Apart(task, ds) && AllStored(w, ds)
                && Follows(ds, PlanOf(Image, decoded), task)
      ensures JOB_CALLS <= sure && !HasMedia(old(w), f) && MimeIsThere(old(w), decoded.mime) ==> ok
    {
      var tx;
      var reached := Works(Resolve);
      ok, task, ds := false, Task(f, 0, 0, 0, decoded), [];
      if !reached { return; }
      StartIsFeasible(w, nextId, Task(f, w.files[f].storage, nextId, nextId + 1, decoded));
      ok, tx, task, ds := BuildImageTx(f, w.files[f].storage, decoded);
      BlobsKeepIntegrity(old(w), w);
      if !ok { return; }
      ok := CommitJob(old(w), tx, Image, task, ds);
    }

    /** The end of every job: its transaction is complete and is committed. */
    method CommitJob(ghost u: World, tx: Tx, ghost kind: Kind, ghost task: Task, ghost ds: seq<Derived>)
      returns (ok: bool)
      requires Valid() && w == u.(blobs := w.blobs) && tx == TaskTx(kind, task, ds) && AllStored(w, ds)
      requires Rising(ds, task.head + 1, nextId) && LinksFit(kind, task, ds) && task.media < task.head < nextId
      requires Follows(ds, PlanOf(kind, task.decoded), task) && (kind == Image ==> IsImage(task.decoded))
      modifies this`w
      ensures Valid()
      ensures !ok ==> w == old(w)
      ensures ok ==> w == Merge(old(w), TaskTx(kind, task, ds)) && MediaMade(u, w, kind, task, ds) && Apart(task, ds)
      ensures ok ==> AllStored(w, ds)
      ensures TxCommit in sure && Feasible(u, task) ==> ok
    {
      TxIsDrawn(kind, task, ds, nextId);
      FeasibleStays(u, w, task);
      CommitIsFree(w, kind, task, ds, nextId);
      ok := Commit(tx);
      if ok { MergeMakesMedia(u, w, kind, task, ds); }
    }

    /** processVideo and processDocument: one media row and its detail row, or nothing. */
    method ProcessPlain(f: Id, kind: Kind) returns (ok: bool, ghost task: Task)
      requires Valid() && f in w.files && kind != Image
      modifies this
      ensures Valid() && old(nextId) <= nextId
      ensures !ok ==> w == old(w)
      ensures ok ==> MediaMade(old(w), w, kind, task, [])
      ensures ok ==> w == Merge(old(w), TaskTx(kind, task, [])) && Apart(task, [])
      ensures ok ==> task.file == f && task.storage == old(w).files[f].storage && task.media == old(nextId)
      ensures JOB_CALLS <= sure && !HasMedia(old(w), f) ==> ok
    {
      var probed := Works(Resolve);
      ok, task := false, Task(f, w.files[f].storage, nextId, nextId + 1, Decoded(0, 0, [], None));
      if !probed { return; }
      var m := NewId();
      var d := NewId();
      StartIsFeasible(w, m, task);
      var tx;
      ok, tx := InsertHead(task, m, d, kind, f, if kind == Video then VideoDetail(m) else DocumentDetail(m));
      if !ok { return; }
      ok := CommitJob(w, tx, kind, task, []);
    }

    /** Processor.Process. */
    method Process(sid: Id, f: Id, sizes: seq<Box>, mime: Option<Id>) returns (err: Option<Bytes>)
      requires Valid() && AreBoxes(sizes)
      modifies this
      ensures Valid() && old(nextId) <= nextId
      ensures ProcessOutcome(old(w), w, sid, f, err)
      ensures JOB_CALLS <= sure && MimeIsThere(old(w), mime) ==>
                (err.None? <==> HasMedia(old(w), f) || HasFile(old(w), sid, f, false))
    {
      var msg: Bytes := *;
      err := Some(msg);
      var reached := Works(SeekMedia);
      if !reached { return; }
      if HasMedia(w, f) { return None; }
      reached := Works(LoadRow);
      if !reached || !HasFile(w, sid, f, false) { return; }
      FileCategoryIff(w, w.files[f]);
      if w.files[f].status != Published || w.files[f].realPath.None? { return None; }
      reached := Works(LoadRow);
      if !reached || sid !in w.storages { return; }
      match Category(w, w.files[f])
      case None => err := None;
      case Some(Image) =>
        var origW: nat, origH: nat :| origW > 0 && origH > 0;
        var ok;
        ghost var task, ds;
        ok, task, ds := ProcessImage(f, Decoded(origW, origH, sizes, mime));
        if ok {
          assert MadeMedia(old(w), w, task, ds, f, Image);
          err := None;
        }
      case Some(kind) =>
        var ok;
        ghost var task;
        ok, task := ProcessPlain(f, kind);
        if ok {
          assert MadeMedia(old(w), w, task, [], f, kind);
          err := None;
        }
    }

    /** One round of Pool.loop: claim, process, recover from a panic, write the status. */
    method RunNextJob(sizes: seq<Box>, mime: Option<Id>) returns (job: Option<Id>)
      requires Valid() && AreBoxes(sizes)
      modifies this
      ensures Valid()
      ensures job.None? ==> w == old(w) && (ClaimJob in sure ==> forall k :: !IsPending(old(w), k))
      ensures job.Some? ==> IsNextJob(old(w), job.value) && JobRun(old(w), w, job.value)
      ensures job.Some? && NotPanic in sure ==> JobReports(sure, mime, old(w), w, job.value)
    {
      ghost var before := w;
      job := ClaimMediaJob();
      if job.None? { return; }
      ghost var u := w;
      var row := w.jobs[job.value];
      var err := Process(row.storage, row.file, sizes, mime);
      ProcessKeepsJobs(u, w, row.storage, row.file, err);
      ghost var returned := err;
      var quiet := Works(NotPanic);
      if !quiet {
        var msg: Bytes := *;
        err := Some(msg);
      }
      ghost var v := w;
      WriteStatus(job.value, err);
      RunEnds(before, u, v, w, job.value, err);
      if quiet { Reports(sure, mime, before, u, v, w, job.value, returned); }
    }
  }

  predicate MimeIsThere(w: World, mime: Option<Id>) {
    mime.Some? ==> mime.value in w.mimes
  }

  /** The rows of a job for file `f` were added: those of its plan, with their objects, and nothing else. */
  ghost predicate MadeMedia(u: World, v: World, task: Task, ds: seq<Derived>, f: Id, kind: Kind) {
    && task.file == f && f in u.files && task.storage == u.files[f].storage && MediaMade(u, v, kind, task, ds)
  }

  /** A file that nothing can be made of: not published, without a key, or of a type that is no image, no video and
      no document. */
  ghost predicate NothingToMake(w: World, f: Id)
    requires f in w.files
  {
    var row := w.files[f];
    row.status != Published || row.realPath.None? || forall kind: Kind :: !IsOfKind(w, row, kind)
  }

  /** An error leaves every table alone. Success means media of the kind that the type of the file says: made now, or
      there before; only a file that nothing can be made of gets success without media. */
  ghost predicate ProcessOutcome(u: World, v: World, sid: Id, f: Id, err: Option<Bytes>) {
    if err.Some? then v == u.(blobs := v.blobs)
    else
      || (v == u && HasMedia(u, f))
      || (v == u && HasFile(u, sid, f, false) && NothingToMake(u, f))
      || (!HasMedia(u, f) && HasFile(u, sid, f, false) && !NothingToMake(u, f) && exists task, ds, kind ::
            MadeMedia(u, v, task, ds, f, kind) && IsOfKind(u, u.files[f], kind))
  }

  /** A file that a handler may have queued. */
  ghost predicate MayHaveMedia(w: World, f: Id) {
    f in w.files && !NothingToMake(w, f)
  }

  /** The final write of a job left it done, with no error text, or failed, with the first 8000 bytes of the error or
      all of it; nothing else of the row changed. */
  predicate StatusIs(a: JobRow, b: JobRow, err: Option<Bytes>) {
    && b == a.(status := b.status, lastError := b.lastError)
    && if err.None? then b.status == Done && b.lastError == None
       else b.status == Failed && b.lastError.Some? && b.lastError.value <= err.value
            && |b.lastError.value| == if |err.value| < 8000 then |err.value| else 8000
  }

  /** The write either did not happen or says what came of the job. */
  predicate StatusWritten(a: JobRow, b: JobRow, err: Option<Bytes>) {
    b == a || StatusIs(a, b, err)
  }

  /** The row of the job as the claim leaves it. */
  function Claimed(a: JobRow): JobRow {
    a.(status := Processing, attempts := a.attempts + 1)
  }

  /** What came of the job is what its row says: processing from the state after the claim, with some result, and the
      final write of that result, which is there if it cannot fail. If no call of the job can fail, it is done exactly
      when its file has media already or is there and not in the trash. */
  ghost predicate JobReports(sure: set<Call>, mime: Option<Id>, u: World, v: World, j: Id)
    requires j in u.jobs
  {
    var a := u.jobs[j];
    var claimed := u.jobs[j := Claimed(a)];
    exists err: Option<Bytes> ::
      && ProcessOutcome(u.(jobs := claimed), v.(jobs := claimed), a.storage, a.file, err)
      && j in v.jobs && StatusWritten(Claimed(a), v.jobs[j], err)
      && (WriteJob in sure ==> StatusIs(Claimed(a), v.jobs[j], err))
      && (JOB_CALLS <= sure && MimeIsThere(u, mime) ==>
            (err.None? <==> HasMedia(u, a.file) || HasFile(u, a.storage, a.file, false)))
  }

  lemma Reports(sure: set<Call>, mime: Option<Id>, before: World, u: World, v: World, w: World, j: Id,
                err: Option<Bytes>)
    requires IsNextJob(before, j) && u == Tables.ClaimMediaJob(before, j) && v.jobs == u.jobs
    requires ProcessOutcome(u, v, u.jobs[j].storage, u.jobs[j].file, err)
    requires w == v.(jobs := w.jobs) && j in w.jobs && StatusWritten(v.jobs[j], w.jobs[j], err)
    requires WriteJob in sure ==> StatusIs(v.jobs[j], w.jobs[j], err)
    requires JOB_CALLS <= sure && MimeIsThere(u, mime) ==>
      (err.None? <==> HasMedia(u, u.jobs[j].file) || HasFile(u, u.jobs[j].storage, u.jobs[j].file, false))
    ensures JobReports(sure, mime, before, w, j)
  {
    var a := before.jobs[j];
    var claimed := before.jobs[j := Claimed(a)];
    assert u == before.(jobs := claimed);
    assert w.(jobs := claimed) == v;
    assert HasMedia(u, a.file) == HasMedia(before, a.file);
  }

  lemma ProcessKeepsJobs(u: World, v: World, sid: Id, f: Id, err: Option<Bytes>)
    requires ProcessOutcome(u, v, sid, f, err)
    ensures v.jobs == u.jobs
    ensures err.None? && MayHaveMedia(u, f) ==> HasMedia(v, f)
  {
    if err.None? && v != u {
      var task, ds, kind :| MadeMedia(u, v, task, ds, f, kind);
      MadeMediaIsThere(u, v, task, ds, f, kind);
    }
  }

  lemma MadeMediaIsThere(u: World, v: World, task: Task, ds: seq<Derived>, f: Id, kind: Kind)
    requires MadeMedia(u, v, task, ds, f, kind)
    ensures HasMedia(v, f) && v.jobs == u.jobs
  {
    assert task.media in v.media && v.media[task.media].file == f;
  }

  /** The claimed job was tried once and is done, failed, or, when the last write failed, in progress; it
      is done only with media, if its file could be processed. Every other job row is as before. */
  ghost predicate JobRun(u: World, v: World, j: Id) {
    && j in u.jobs && v.jobs.Keys == u.jobs.Keys
    && (forall k <- u.jobs :: k != j ==> v.jobs[k] == u.jobs[k])
    && v.jobs[j].attempts == u.jobs[j].attempts + 1 && v.jobs[j].status != Pending
    && (v.jobs[j].status == Done && MayHaveMedia(u, u.jobs[j].file) ==> HasMedia(v, u.jobs[j].file))
  }

  lemma RunEnds(before: World, u: World, v: World, w: World, j: Id, err: Option<Bytes>)
    requires IsNextJob(before, j) && u == Tables.ClaimMediaJob(before, j) && v.jobs == u.jobs
    requires w == v || w == (if err.Some? then FailMediaJob(v, j, err.value) else CompleteMediaJob(v, j))
    requires err.None? && MayHaveMedia(u, before.jobs[j].file) ==> HasMedia(v, before.jobs[j].file)
    ensures JobRun(before, w, j)
  {
    var f := before.jobs[j].file;
    assert HasMedia(w, f) == HasMedia(v, f);
    if f in u.files { SameKinds(before, u, f); }
  }

  lemma SameKinds(u: World, v: World, f: Id)
    requires f in u.files && v.files == u.files && v.mimes == u.mimes
    ensures NothingToMake(u, f) <==> NothingToMake(v, f)
  {
    assert forall kind: Kind :: IsOfKind(u, u.files[f], kind) <==> IsOfKind(v, v.files[f], kind);
  }

  lemma OnlyNewObjectsCompose(u: World, v: World, w: World, a: Id, b: Id)
    requires OnlyNewObjects(u, v, a) && OnlyNewObjects(v, w, b) && a <= b
    ensures OnlyNewObjects(u, w, a)
  {
  }

  // ---------- When no call fails ----------

  lemma FeasibleStays(u: World, v: World, task: Task)
    requires v == u.(blobs := v.blobs)
    ensures Feasible(u, task) <==> Feasible(v, task)
  {
    if Integrity(u) { BlobsKeepIntegrity(u, v); }
    if Integrity(v) { BlobsKeepIntegrity(v, u); }
  }

  lemma IsAddable(w: World, kind: Kind, task: Task, ds: seq<Derived>, next: Id)
    requires Feasible(w, task) && Rising(ds, task.head + 1, next) && LinksFit(kind, task, ds)
    ensures Addable(w, kind, task, ds)
  {
  }

  lemma StartIsFeasible(w: World, next: Id, task: Task)
    requires Integrity(w) && Drawn(w, next) && task.media == next && task.head == next + 1
    requires task.file in w.files && task.storage == w.files[task.file].storage
    ensures !HasMedia(w, task.file) && MimeIsThere(w, task.decoded.mime) ==> Feasible(w, task)
  {
  }

  lemma CommitIsFree(w: World, kind: Kind, task: Task, ds: seq<Derived>, next: Id)
    requires Rising(ds, task.head + 1, next) && LinksFit(kind, task, ds)
    ensures Feasible(w, task) ==> CanCommit(w, TaskTx(kind, task, ds))
  {
    if Feasible(w, task) {
      IsAddable(w, kind, task, ds, next);
      AddableCommits(w, kind, task, ds);
    }
  }

  lemma CanBegin(w: World, kind: Kind, task: Task)
    requires Feasible(w, task)
    ensures CanInsertMediaTx(w, EMPTY_TX, task.media, task.file) && Addable(w, kind, task, [])
    ensures CanInsertDetailTx(w, InsertStorageMediaTx(EMPTY_TX, task.media, kind, task.file), task.head,
                              HeadRow(kind, task))
  {
    MediaInsertIff(w, task.media, task.file);
    IsAddable(w, kind, task, [], task.head + 1);
    var v := Merge(w, InsertStorageMediaTx(EMPTY_TX, task.media, kind, task.file));
    forall c | c in v.details ensures !Clash(v.details[c], HeadRow(kind, task)) {
      assert ParentsExist(w, w.details[c]);
    }
  }

  lemma CanAddFile(w: World, tx: Tx, task: Task, ds: seq<Derived>, id: Id, size: nat, path: Path)
    requires Progress(w, tx, task, ds, id)
    ensures Feasible(w, task) ==> CanInsertFileTx(w, tx, id, DerivedRow(task.storage, size, path, task.decoded.mime))
  {
    RowsAreDrawn(Image, task, ds, id);
  }

  lemma CanAddLink(w: World, tx: Tx, task: Task, ds: seq<Derived>, id: Id, size: nat, path: Path, l: Link, media: Id,
                   image: Id)
    requires tx == InsertFileTx(TaskTx(Image, task, ds), id, DerivedRow(task.storage, size, path, task.decoded.mime))
    requires Rising(ds, task.head + 1, id) && LinksFit(Image, task, ds) && task.media < task.head < id
    requires if l.ThumbLink? then media == task.media else image == task.head
    ensures Feasible(w, task) ==> CanInsertDetailTx(w, tx, id + 1, LinkRow(l, media, image, id))
  {
    if Feasible(w, task) {
      IsAddable(w, Image, task, ds, id);
      RowsAreDrawn(Image, task, ds, id);
      LinkMeetsKeys(w, tx, Image, task, ds, id, LinkRow(l, media, image, id), id + 1);
    }
  }

  lemma ThumbPlanStart(plan: seq<Link>, tags: seq<string>)
    ensures plan + ThumbPlan(tags[..0]) == plan
  {
  }

  lemma ThumbPlanNext(plan: seq<Link>, tags: seq<string>, i: nat)
    requires i < |tags|
    ensures plan + ThumbPlan(tags[..i + 1]) == plan + ThumbPlan(tags[..i]) + [ThumbLink(tags[i])]
  {
  }

  /** One more derived image, with its object stored under its own fresh id. */
  lemma ProgressGrows(u: World, w: World, tx: Tx, task: Task, ds: seq<Derived>, d: Derived, data: Bytes, next: Id)
    requires Progress(u, tx, task, ds, d.file) && d.file < d.link < next && d.size == |data| && LinkFits(Image, task, d)
    requires w == Put(u, Path(d.file, d.leaf), data)
    ensures var row := DerivedRow(task.storage, d.size, Path(d.file, d.leaf), task.decoded.mime);
      Progress(w, InsertDetailTx(InsertFileTx(tx, d.file, row), d.link, d.row), task, ds + [d], next)
  {
    TxGrows(task, ds, d);
    StoredGrows(u, w, ds, d, data);
    RisingGrows(ds, d, task.head + 1, next);
    LinksGrow(task, ds, d);
  }

  lemma LinksGrow(task: Task, ds: seq<Derived>, d: Derived)
    requires LinksFit(Image, task, ds) && LinkFits(Image, task, d)
    ensures LinksFit(Image, task, ds + [d])
  {
  }

  lemma OneMoreDerived(u: World, w: World, tx: Tx, task: Task, ds: seq<Derived>, plan: seq<Link>, l: Link, id: Id,
                       link: Id, data: Bytes, media: Id, image: Id)
    requires Progress(u, tx, task, ds, id) && Follows(ds, plan, task) && link == id + 1
    requires if l.ThumbLink? then media == task.media else image == task.head
    requires w == Put(u, Path(id, Leaf(l)), data)
    ensures var d := Derived(id, Leaf(l), |data|, link, LinkRow(l, media, image, id));
      var row := DerivedRow(task.storage, |data|, Path(id, Leaf(l)), task.decoded.mime);
      && Progress(w, InsertDetailTx(InsertFileTx(tx, id, row), link, d.row), task, ds + [d], link + 1)
      && Follows(ds + [d], plan + [l], task)
  {
    var d := Derived(id, Leaf(l), |data|, link, LinkRow(l, media, image, id));
    ProgressGrows(u, w, tx, task, ds, d, data, link + 1);
    FollowsGrows(ds, plan, task, d, l);
  }

  lemma TxGrows(task: Task, ds: seq<Derived>, d: Derived)
    ensures var row := DerivedRow(task.storage, d.size, Path(d.file, d.leaf), task.decoded.mime);
      InsertDetailTx(InsertFileTx(TaskTx(Image, task, ds), d.file, row), d.link, d.row) == TaskTx(Image, task, ds + [d])
  {
    assert (ds + [d])[..|ds|] == ds;
  }

  lemma StoredGrows(u: World, w: World, ds: seq<Derived>, d: Derived, data: Bytes)
    requires AllStored(u, ds) && d.size == |data| && w == Put(u, Path(d.file, d.leaf), data)
    requires forall i | 0 <= i < |ds| :: ds[i].file != d.file
    ensures AllStored(w, ds + [d])
  {
    var es := ds + [d];
    forall i | 0 <= i < |es| ensures Stored(w, Some(Path(es[i].file, es[i].leaf)), es[i].size) {
      if i < |ds| { assert Stored(u, Some(Path(ds[i].file, ds[i].leaf)), ds[i].size); }
    }
  }

  lemma RisingGrows(ds: seq<Derived>, d: Derived, lo: Id, next: Id)
    requires Rising(ds, lo, d.file) && lo <= d.file < d.link < next
    ensures Rising(ds + [d], lo, next)
  {
  }

  lemma {:induction false} RowsAreDrawn(kind: Kind, task: Task, ds: seq<Derived>, next: Id)
    requires Rising(ds, task.head + 1, next) && task.media < task.head < next
    ensures TxDrawn(TaskTx(kind, task, ds), next)
  {
    if ds != [] { RowsAreDrawn(kind, task, ds[..|ds| - 1], next); }
  }

  lemma TxIsDrawn(kind: Kind, task: Task, ds: seq<Derived>, next: Id)
    requires Rising(ds, task.head + 1, next) && task.media < task.head < next
    ensures TxDrawn(TaskTx(kind, task, ds), next) && Apart(task, ds)
  {
    RowsAreDrawn(kind, task, ds, next);
  }

  /** The three ways an upload handler ends. A rollback whose deletes both succeeded leaves no trace. */
  ghost predicate UploadOutcome(u: World, v: World, id: Id, sid: Id, path: Path, mime: Option<Id>, data: Bytes,
                                enabled: bool, res: UploadResult)
  {
    match res
    case Refused => v == u
    case Accepted(queued) =>
      && id !in u.files && path !in u.blobs
      && QueuedAs(WithUpload(u, id, sid, path, mime, data), v, id + 1, sid, id, enabled, queued)
    case RolledBack(b, r) => UndoneAs(u, v, id, sid, path, mime, b, r) && (b && r ==> v == u)
  }

  /** The row of an upload is in place, and the store differs from before at most at the upload's key. */
  ghost predicate Underway(u: World, v: World, id: Id, sid: Id, path: Path, mime: Option<Id>, put: bool, data: Bytes) {
    var row := Protocol.UploadRow(sid, path, mime);
    && Integrity(u) && Drawn(u, id) && path.dir == id && CanInsertFile(u, id, row)
    && TouchesOnly(Tables.InsertFile(u, id, row), v, path)
    && (put ==> v == Put(Tables.InsertFile(u, id, row), path, data))
  }

  /** Exactly one row and one object more: the row published, with the object's length. */
  function WithUpload(w: World, id: Id, sid: Id, path: Path, mime: Option<Id>, data: Bytes): World {
    w.(files := w.files[id := FileRow(sid, Published, false, |data|, Some(path), mime, false)],
    blobs := w.blobs[path := data])
  }

  /** The file is there, published, not in the trash, of a type that makes it an image, a video or a document, and has
      no media yet. */
  ghost predicate IsQueueable(w: World, sid: Id, id: Id) {
    && id in w.files && w.files[id].storage == sid && !w.files[id].excluded && w.files[id].status == Published
    && (exists kind: Kind :: IsOfKind(w, w.files[id], kind)) && forall m <- w.media :: w.media[m].file != id
  }

  lemma QueueableIff(w: World, sid: Id, id: Id)
    ensures IsQueueable(w, sid, id) <==>
              HasFile(w, sid, id, false) && Protocol.WorthQueueing(w, w.files[id]) && !HasMedia(w, id)
  {
    if id in w.files { FileCategoryIff(w, w.files[id]); }
  }

  /** A job is queued only for such a file, pending, untried and the youngest of all, unless the file has a job. */
  ghost predicate QueuedAs(w: World, v: World, j: Id, sid: Id, id: Id, enabled: bool, queued: bool) {
    if queued
    then enabled && IsQueueable(w, sid, id) &&
         v == if exists k <- w.jobs :: w.jobs[k].file == id then w
              else w.(jobs := w.jobs[j := JobRow(sid, id, Pending, 0, None, w.clock)], clock := w.clock + 1)
    else v == w
  }

  /** How far an upload gets, given the calls that do not fail: it is refused for a missing storage or type only, it is
      accepted if its bytes were delivered, queued if its type has a kind, and rolled back as far as the deletes
      work. */
  ghost predicate UploadTries(sure: set<Call>, u: World, sid: Id, mime: Option<Id>, enabled: bool, delivered: bool,
                              res: UploadResult)
  {
    match res
    case Refused => InsertRow in sure ==> sid !in u.storages || (mime.Some? && mime.value !in u.mimes)
    case Accepted(queued) =>
      {LoadRow, SeekMedia, QueueJob} <= sure ==>
        (queued <==> enabled && mime.Some? && mime.value in u.mimes &&
                     exists kind: Kind :: LooksLike(u.mimes[mime.value], kind))
    case RolledBack(b, r) =>
      !(delivered && UpdateRow in sure) && ({Resolve, DeleteObj} <= sure ==> b) && (DeleteRow in sure ==> r)
  }

  lemma UploadIsQueueable(u: World, w: World, id: Id, sid: Id, path: Path, mime: Option<Id>, data: Bytes)
    requires Integrity(u) && id !in u.files && w == WithUpload(u, id, sid, path, mime, data)
    ensures IsQueueable(w, sid, id) <==>
              mime.Some? && mime.value in u.mimes && exists kind: Kind :: LooksLike(u.mimes[mime.value], kind)
  {
    var row := w.files[id];
    assert forall kind: Kind :: IsOfKind(w, row, kind) <==>
        mime.Some? && mime.value in u.mimes && LooksLike(u.mimes[mime.value], kind);
  }

  /** What a rollback leaves: the unpublished row if its delete failed, the object if its delete failed. */
  ghost predicate UndoneAs(w: World, v: World, id: Id, sid: Id, path: Path, mime: Option<Id>, blobGone: bool,
                           rowGone: bool)
  {
    && id !in w.files && path !in w.blobs
    && TouchesOnly(if rowGone then w else Tables.InsertFile(w, id, Protocol.UploadRow(sid, path, mime)), v, path)
    && (blobGone ==> path !in v.blobs)
  }

  lemma InsertKeepsValid(w: World, id: Id, row: FileRow, next: Id)
    requires Integrity(w) && Drawn(w, id) && CanInsertFile(w, id, row) && next == id + 1
    requires row.realPath.Some? ==> row.realPath.value.dir == id
    ensures Integrity(Tables.InsertFile(w, id, row)) && Drawn(Tables.InsertFile(w, id, row), next)
  {
    var v := Tables.InsertFile(w, id, row);
    forall d | d in v.details ensures ParentsExist(v, v.details[d]) { assert ParentsExist(w, w.details[d]); }
  }

  /** Changing the trash flag of one row meets every key. */
  lemma RowKeepsIntegrity(w: World, v: World, id: Id)
    requires Integrity(w) && v == w.(files := v.files) && v.files.Keys == w.files.Keys
    requires forall f <- w.files :: f != id ==> v.files[f] == w.files[f]
    requires id in w.files ==> v.files[id] == w.files[id].(excluded := v.files[id].excluded)
    ensures Integrity(v)
  {
    forall d | d in v.details ensures ParentsExist(v, v.details[d]) { assert ParentsExist(w, w.details[d]); }
  }

  lemma BlobsKeepIntegrity(w: World, v: World)
    requires Integrity(w) && v == w.(blobs := v.blobs)
    ensures Integrity(v)
  {
  }

  /** Nothing can refer to a row that was just inserted, so dropping it restores the tables. */
  lemma DropUndoesInsert(w: World, id: Id, row: FileRow)
    requires Integrity(w) && id !in w.files
    ensures DropFiles(Tables.InsertFile(w, id, row), {id}) == w
  {
    var v := Tables.InsertFile(w, id, row);
    var x := DropFiles(v, {id});
    assert x.files == w.files;
    assert x.media == w.media;
    assert x.jobs == w.jobs;
    forall d | d in w.details ensures !DetailDies(v, {id}, w.details[d]) {
      assert ParentsExist(w, w.details[d]);
      if w.details[d].SizedDetail? { assert ParentsExist(w, w.details[w.details[d].image]); }
    }
    assert x.details == w.details;
  }

  lemma DropIgnoresBlobs(w: World, v: World, gone: set<Id>)
    requires v == w.(blobs := v.blobs)
    ensures DropFiles(v, gone) == DropFiles(w, gone).(blobs := v.blobs)
  {
  }

  /** A rollback leaves what its deletes could not remove; when both succeed everything is back. */
  lemma UndoRestores(w0: World, u: World, v: World, id: Id, sid: Id, path: Path, mime: Option<Id>, put: bool,
                     data: Bytes, b: bool, r: bool)
    requires Underway(w0, u, id, sid, path, mime, put, data)
    requires v == var x := if b then DeleteBlob(u, path) else u;
                  if r then Tables.DeleteFailedUploadingFile(x, sid, id) else x
    ensures UndoneAs(w0, v, id, sid, path, mime, b, r)
    ensures b && r ==> v == w0
    ensures Integrity(v) && Drawn(v, id + 1)
  {
    var row := Protocol.UploadRow(sid, path, mime);
    var y := Tables.InsertFile(w0, id, row);
    var x := if b then DeleteBlob(u, path) else u;
    var base := if r then w0 else y;
    InsertKeepsValid(w0, id, row, id + 1);
    if r {
      DropIgnoresBlobs(y, x, {id});
      DropUndoesInsert(w0, id, row);
    }
    assert v == base.(blobs := x.blobs);
    BlobsKeepIntegrity(base, v);
    if b && r { assert v.blobs == w0.blobs; }
  }

  /** rollbackUploadingFile with both of its deletes going through. */
  function RolledBackTo(w: World, sid: Id, id: Id, path: Path): World {
    Tables.DeleteFailedUploadingFile(DeleteBlob(w, path), sid, id)
  }

  /** Rolling back twice is rolling back once, and no row but the unpublished one of the upload goes. */
  lemma RollbackTwice(w: World, sid: Id, id: Id, path: Path)
    requires Integrity(w)
    ensures var v := RolledBackTo(w, sid, id, path);
      && RolledBackTo(v, sid, id, path) == v && Integrity(v)
      && forall f <- w.files :: f in v.files ==> v.files[f] == w.files[f]
    ensures var v := RolledBackTo(w, sid, id, path);
      forall f <- w.files :: f !in v.files <==> f == id && w.files[f].storage == sid && w.files[f].status == Uploading
  {
    var u, v := DeleteBlob(w, path), RolledBackTo(w, sid, id, path);
    BlobsKeepIntegrity(w, u);
    if v != u { DropFilesKeepsIntegrity(u, {id}); }
    assert v.blobs - {path} == v.blobs;
    assert DeleteBlob(v, path) == v;
  }

  lemma PublishLands(w0: World, u: World, v: World, id: Id, sid: Id, path: Path, mime: Option<Id>, data: Bytes)
    requires Underway(w0, u, id, sid, path, mime, true, data)
    requires v == Tables.UpdateFilePathsAndStatus(u, id, Published, |data|, Some(path), mime)
    ensures v == WithUpload(w0, id, sid, path, mime, data) && Integrity(v) && Drawn(v, id + 1)
  {
    PublishKeepsValid(w0, id, sid, path, mime, data);
    assert v.files == WithUpload(w0, id, sid, path, mime, data).files;
  }

  lemma PublishKeepsValid(w0: World, id: Id, sid: Id, path: Path, mime: Option<Id>, data: Bytes)
    requires Integrity(w0) && Drawn(w0, id) && path.dir == id
    requires CanInsertFile(w0, id, Protocol.UploadRow(sid, path, mime))
    ensures Integrity(WithUpload(w0, id, sid, path, mime, data))
        && Drawn(WithUpload(w0, id, sid, path, mime, data), id + 1)
    ensures !HasJob(WithUpload(w0, id, sid, path, mime, data), id)
  {
    var row := FileRow(sid, Published, false, |data|, Some(path), mime, false);
    InsertKeepsValid(w0, id, row, id + 1);
    BlobsKeepIntegrity(Tables.InsertFile(w0, id, row), WithUpload(w0, id, sid, path, mime, data));
  }

  lemma JobsKeepIntegrity(w: World, v: World)
    requires Integrity(w) && v == w.(jobs := v.jobs, clock := v.clock) && JobKeysHold(v)
    ensures Integrity(v)
  {
    assert FileKeysHold(v) && MediaKeysHold(v);
    forall d | d in v.details ensures ParentsExist(v, v.details[d]) { assert ParentsExist(w, w.details[d]); }
  }

  lemma EnqueueKeepsValid(w: World, j: Id, sid: Id, f: Id)
    requires Integrity(w) && Drawn(w, j) && CanEnqueue(w, j, sid, f)
    ensures Integrity(EnqueueMediaProcessing(w, j, sid, f)) && Drawn(EnqueueMediaProcessing(w, j, sid, f), j + 1)
  {
    EnqueueKeepsKeys(w, j, sid, f);
    JobsKeepIntegrity(w, EnqueueMediaProcessing(w, j, sid, f));
  }

  lemma EnqueueKeepsKeys(w: World, j: Id, sid: Id, f: Id)
    requires JobKeysHold(w) && CanEnqueue(w, j, sid, f)
    ensures JobKeysHold(EnqueueMediaProcessing(w, j, sid, f))
  {
  }
}

/** The shared state: the SQL tables with their keys and cascades (migrations/), the object store,
    and every SQL statement of internal/data as a function on that state. */
module Tables {
  import opened Text
  import opened MediaKind

  /** A UUID. Freshness is a condition on the step that draws one. */
  type Id = nat
  type Bytes = seq<bv8>

  /** An object key: the id directory and the rest. Every key the service builds starts with the
      id of the file row that owns it. */
  datatype Path = Path(dir: Id, leaf: string)

  datatype Status = Uploading | Published

  /** core_storagefile, the columns the protocol depends on. */
  datatype FileRow = FileRow(storage: Id, status: Status, excluded: bool, size: nat,
                             realPath: Option<Path>, mime: Option<Id>, derived: bool)

  /** core_storagemedia. */
  datatype MediaRow = MediaRow(file: Id, kind: Kind)

  /** core_storagemediaimage, -video, -document, -thumbnail and -imagesized as one tagged table. */
  datatype DetailRow =
    | ImageDetail(media: Id, width: nat, height: nat)
    | VideoDetail(media: Id)
    | DocumentDetail(media: Id)
    | ThumbDetail(media: Id, file: Id, tag: string)
    | SizedDetail(image: Id, file: Id, tag: string, width: nat, height: nat)

  datatype JobStatus = Pending | Processing | Done | Failed

  /** media_processing_jobs. */
  datatype JobRow = JobRow(storage: Id, file: Id, status: JobStatus, attempts: nat,
                           lastError: Option<Bytes>, createdAt: nat)

  /** `clock` supplies strictly increasing creation times. */
  datatype World = World(storages: set<Id>, mimes: map<Id, MimeType>, files: map<Id, FileRow>,
                         media: map<Id, MediaRow>, details: map<Id, DetailRow>, jobs: map<Id, JobRow>,
                         clock: nat, blobs: map<Path, Bytes>)

  /** enrichFile followed by MediaCategory. */
  function Category(w: World, row: FileRow): Option<Kind> {
    MediaCategory(
      if row.mime.Some? && row.mime.value in w.mimes then Some(w.mimes[row.mime.value]) else None)
  }

  /** The type of the file is there and makes it a file of this kind. */
  ghost predicate IsOfKind(w: World, row: FileRow, kind: Kind) {
    row.mime.Some? && row.mime.value in w.mimes && LooksLike(w.mimes[row.mime.value], kind)
  }

  /** The category of a file is what the two columns of its type say. */
  lemma FileCategoryIff(w: World, row: FileRow)
    ensures forall kind :: Category(w, row) == Some(kind) <==> IsOfKind(w, row, kind)
    ensures Category(w, row) == None <==> forall kind: Kind :: !IsOfKind(w, row, kind)
  {
    CategoryIff(if row.mime.Some? && row.mime.value in w.mimes then Some(w.mimes[row.mime.value]) else None);
    if Category(w, row).Some? { assert IsOfKind(w, row, Category(w, row).value); }
  }

  // ---------- Constraints the database enforces ----------

  predicate FileKeysHold(w: World) {
    forall f <- w.files :: w.files[f].storage in w.storages
        && (w.files[f].mime.Some? ==> w.files[f].mime.value in w.mimes)
  }

  predicate MediaKeysHold(w: World) {
    && (forall m <- w.media :: w.media[m].file in w.files)
    && (forall m <- w.media, n <- w.media :: w.media[m].file == w.media[n].file ==> m == n)
  }

  predicate JobKeysHold(w: World) {
    && (forall j <- w.jobs :: w.jobs[j].storage in w.storages && w.jobs[j].file in w.files)
    && (forall j <- w.jobs, k <- w.jobs :: w.jobs[j].file == w.jobs[k].file ==> j == k)
  }

  predicate ParentsExist(w: World, d: DetailRow) {
    match d
    case SizedDetail(i, f, _, _, _) => i in w.details && w.details[i].ImageDetail? && f in w.files
    case ThumbDetail(m, f, _) => m in w.media && f in w.files
    case _ => d.media in w.media
  }

  /** The unique keys: one image, video or document row per media row, one sized row per file. */
  predicate Clash(c: DetailRow, d: DetailRow) {
    || (c.ImageDetail? && d.ImageDetail? && c.media == d.media)
    || (c.VideoDetail? && d.VideoDetail? && c.media == d.media)
    || (c.DocumentDetail? && d.DocumentDetail? && c.media == d.media)
    || (c.SizedDetail? && d.SizedDetail? && c.file == d.file)
  }

  predicate DetailKeysHold(w: World) {
    && (forall d <- w.details :: ParentsExist(w, w.details[d]))
    && (forall c <- w.details, d <- w.details :: Clash(w.details[c], w.details[d]) ==> c == d)
  }

  predicate Integrity(w: World) {
    FileKeysHold(w) && MediaKeysHold(w) && JobKeysHold(w) && DetailKeysHold(w)
  }

  // ---------- Cascades ----------

  /** The cascade over detail rows when the rows of `gone` leave core_storagefile. */
  predicate OwnParentDies(w: World, gone: set<Id>, d: DetailRow) {
    || ((d.ThumbDetail? || d.SizedDetail?) && d.file in gone)
    || (!d.SizedDetail? && d.media in w.media && w.media[d.media].file in gone)
  }

  predicate DetailDies(w: World, gone: set<Id>, d: DetailRow) {
    || OwnParentDies(w, gone, d)
    || (d.SizedDetail? && d.image in w.details && OwnParentDies(w, gone, w.details[d.image]))
  }

  function DropFiles(w: World, gone: set<Id>): World {
    w.(files := map f | f in w.files && f !in gone :: w.files[f],
    media := map m | m in w.media && w.media[m].file !in gone :: w.media[m],
    details := map d | d in w.details && !DetailDies(w, gone, w.details[d]) :: w.details[d],
    jobs := map j | j in w.jobs && w.jobs[j].file !in gone :: w.jobs[j])
  }

  // ---------- Statements on core_storage ----------

  function InsertStorage(w: World, id: Id): World {
    w.(storages := w.storages + {id})
  }

  function DeleteStorage(w: World, sid: Id): World {
    var v := DropFiles(w, set f | f in w.files && w.files[f].storage == sid);
    v.(storages := v.storages - {sid}, jobs := map j | j in v.jobs && v.jobs[j].storage != sid :: v.jobs[j])
  }

  // ---------- Statements on core_storagefile ----------

  predicate CanInsertFile(w: World, id: Id, row: FileRow) {
    id !in w.files && row.storage in w.storages && (row.mime.Some? ==> row.mime.value in w.mimes)
  }

  function InsertFile(w: World, id: Id, row: FileRow): World {
    w.(files := w.files[id := row])
  }

  predicate HasFile(w: World, sid: Id, fid: Id, excluded: bool) {
    fid in w.files && w.files[fid].storage == sid && w.files[fid].excluded == excluded
  }

  /** The statement matches only rows whose flag is the opposite of the new one. */
  function SetFileExcluded(w: World, sid: Id, fid: Id, excluded: bool): World {
    if HasFile(w, sid, fid, !excluded)
    then w.(files := w.files[fid := w.files[fid].(excluded := excluded)]) else w
  }

  function UpdateFilePathsAndStatus(w: World, fid: Id, status: Status, size: nat, path: Option<Path>,
                                    mime: Option<Id>): World
  {
    if fid in w.files
    then w.(files := w.files[fid := w.files[fid].(status := status, size := size, realPath := path, mime := mime)])
        else w
  }

  function DeleteFailedUploadingFile(w: World, sid: Id, fid: Id): World {
    if fid in w.files && w.files[fid].storage == sid && w.files[fid].status == Uploading
    then DropFiles(w, {fid}) else w
  }

  function PermaDeleteFile(w: World, sid: Id, fid: Id): World {
    if HasFile(w, sid, fid, true) then DropFiles(w, {fid}) else w
  }

  // ---------- Statements on media_processing_jobs ----------

  predicate HasJob(w: World, fid: Id) {
    exists j <- w.jobs :: w.jobs[j].file == fid
  }

  predicate HasMedia(w: World, fid: Id) {
    exists m <- w.media :: w.media[m].file == fid
  }

  /** The insert raises an error when a parent row is missing. */
  predicate CanEnqueue(w: World, jid: Id, sid: Id, fid: Id) {
    jid !in w.jobs && sid in w.storages && fid in w.files
  }

  /** INSERT ... ON CONFLICT (storage_file_id) DO NOTHING. */
  function EnqueueMediaProcessing(w: World, jid: Id, sid: Id, fid: Id): World {
    if HasJob(w, fid) then w
    else w.(jobs := w.jobs[jid := JobRow(sid, fid, Pending, 0, None, w.clock)], clock := w.clock + 1)
  }

  predicate IsPending(w: World, j: Id) {
    j in w.jobs && w.jobs[j].status == Pending
  }

  /** ORDER BY created_at ASC LIMIT 1 over the pending rows. */
  predicate IsNextJob(w: World, j: Id) {
    && IsPending(w, j)
    && forall k <- w.jobs :: IsPending(w, k) ==> w.jobs[j].createdAt <= w.jobs[k].createdAt
  }

  function ClaimMediaJob(w: World, j: Id): World
    requires j in w.jobs
  {
    w.(jobs := w.jobs[j := w.jobs[j].(status := Processing, attempts := w.jobs[j].attempts + 1)])
  }

  function CompleteMediaJob(w: World, j: Id): World {
    if j in w.jobs then w.(jobs := w.jobs[j := w.jobs[j].(status := Done, lastError := None)]) else w
  }

  const MAX_ERROR := 8000

  /** Error texts are byte strings, cut without regard to character boundaries. */
  function Cut(msg: Bytes): Bytes {
    if |msg| > MAX_ERROR then msg[..MAX_ERROR] else msg
  }

  function FailMediaJob(w: World, j: Id, msg: Bytes): World {
    if j in w.jobs
    then w.(jobs := w.jobs[j := w.jobs[j].(status := Failed, lastError := Some(Cut(msg)))])
    else w
  }

  // ---------- The media transaction ----------

  /** The rows a transaction has inserted and not yet committed. */
  datatype Tx = Tx(files: map<Id, FileRow>, media: map<Id, MediaRow>, details: map<Id, DetailRow>)

  const EMPTY_TX := Tx(map[], map[], map[])

  /** The tables as the open transaction sees them, and as they are once it commits. */
  function Merge(w: World, tx: Tx): World {
    w.(files := w.files + tx.files, media := w.media + tx.media, details := w.details + tx.details)
  }

  /** A commit succeeds only when the merged tables meet every key. */
  predicate CanCommit(w: World, tx: Tx) {
    && tx.files.Keys !! w.files.Keys
    && tx.media.Keys !! w.media.Keys
    && tx.details.Keys !! w.details.Keys
    && Integrity(Merge(w, tx))
  }

  predicate CanInsertMediaTx(w: World, tx: Tx, id: Id, fid: Id) {
    var v := Merge(w, tx);
    id !in v.media && fid in v.files && !HasMedia(v, fid)
  }

  function InsertStorageMediaTx(tx: Tx, id: Id, kind: Kind, fid: Id): Tx {
    tx.(media := tx.media[id := MediaRow(fid, kind)])
  }

  predicate CanInsertDetailTx(w: World, tx: Tx, id: Id, d: DetailRow) {
    var v := Merge(w, tx);
    && id !in v.details
    && ParentsExist(v, d)
    && forall c <- v.details :: !Clash(v.details[c], d)
  }

  function InsertDetailTx(tx: Tx, id: Id, d: DetailRow): Tx {
    tx.(details := tx.details[id := d])
  }

  predicate CanInsertFileTx(w: World, tx: Tx, id: Id, row: FileRow) {
    CanInsertFile(Merge(w, tx), id, row)
  }

  function InsertFileTx(tx: Tx, id: Id, row: FileRow): Tx {
    tx.(files := tx.files[id := row])
  }

  /** The row of a derived image: published, with its size and path known from the start. */
  function DerivedRow(storage: Id, size: nat, path: Path, mime: Option<Id>): FileRow {
    FileRow(storage, Published, false, size, Some(path), mime, true)
  }

  // ---------- The object store ----------

  function Put(w: World, path: Path, data: Bytes): World {
    w.(blobs := w.blobs[path := data])
  }

  function DeleteBlob(w: World, path: Path): World {
    w.(blobs := w.blobs - {path})
  }

  predicate Stored(w: World, path: Option<Path>, size: nat) {
    path.Some? && path.value in w.blobs && |w.blobs[path.value]| == size
  }

  // ---------- Every statement keeps the keys ----------

  /** Removing files with the cascade leaves no dangling reference, whatever set is removed. */
  lemma DropFilesKeepsIntegrity(w: World, gone: set<Id>)
    requires Integrity(w)
    ensures Integrity(DropFiles(w, gone))
  {
    var v := DropFiles(w, gone);
    forall d | d in v.details
      ensures ParentsExist(v, v.details[d])
    {
      assert ParentsExist(w, w.details[d]);
    }
  }

  lemma DeleteStorageKeepsIntegrity(w: World, sid: Id)
    requires Integrity(w)
    ensures Integrity(DeleteStorage(w, sid))
  {
    var gone := set f | f in w.files && w.files[f].storage == sid;
    DropFilesKeepsIntegrity(w, gone);
    var v := DropFiles(w, gone);
    var u := DeleteStorage(w, sid);
    forall d | d in u.details
      ensures ParentsExist(u, u.details[d])
    {
      assert ParentsExist(v, v.details[d]);
    }
  }

  lemma DetailOutlives(w: World, gone: set<Id>, d: Id)
    requires Integrity(w) && d in w.details
    ensures var v := DropFiles(w, gone); d in v.details <==> ParentsExist(v, w.details[d])
  {
    var v := DropFiles(w, gone);
    var row := w.details[d];
    assert ParentsExist(w, row);
    if row.SizedDetail? { assert ParentsExist(w, w.details[row.image]); }
    if d in v.details { DropFilesKeepsIntegrity(w, gone); }
  }

  /** The cascade takes exactly what refers to the removed files, and what refers to that in turn. */
  lemma CascadeIsExact(w: World, gone: set<Id>)
    requires Integrity(w)
    ensures var v := DropFiles(w, gone);
      && v == w.(files := v.files, media := v.media, details := v.details, jobs := v.jobs)
      && (forall f :: f in v.files <==> f in w.files && f !in gone) && (forall f <- v.files :: v.files[f] == w.files[f])
      && (forall m :: m in v.media <==> m in w.media && w.media[m].file !in gone)
      && (forall m <- v.media :: v.media[m] == w.media[m])
      && (forall j :: j in v.jobs <==> j in w.jobs && w.jobs[j].file !in gone)
      && (forall j <- v.jobs :: v.jobs[j] == w.jobs[j])
      && (forall d :: d in v.details <==> d in w.details && ParentsExist(v, w.details[d]))
      && (forall d <- v.details :: v.details[d] == w.details[d])
  {
    var v := DropFiles(w, gone);
    forall d | d in w.details ensures d in v.details <==> ParentsExist(v, w.details[d]) {
      DetailOutlives(w, gone, d);
    }
  }

  /** Deleting a storage takes its row, its files with all that refers to them, and its jobs; no row of another
      storage, and no object. */
  lemma DeleteStorageTakesItsOwn(w: World, sid: Id)
    requires Integrity(w)
    ensures var v := DeleteStorage(w, sid);
      && v.storages == w.storages - {sid} && v.mimes == w.mimes && v.blobs == w.blobs && v.clock == w.clock
      && (forall f :: f in v.files <==> f in w.files && w.files[f].storage != sid)
      && (forall f <- v.files :: v.files[f] == w.files[f])
      && (forall m :: m in v.media <==> m in w.media && w.files[w.media[m].file].storage != sid)
      && (forall m <- v.media :: v.media[m] == w.media[m])
      && (forall j :: j in v.jobs <==>
            j in w.jobs && w.jobs[j].storage != sid && w.files[w.jobs[j].file].storage != sid)
      && (forall j <- v.jobs :: v.jobs[j] == w.jobs[j])
      && (forall d :: d in v.details <==> d in w.details && ParentsExist(v, w.details[d]))
      && (forall d <- v.details :: v.details[d] == w.details[d])
  {
    var gone := set f | f in w.files && w.files[f].storage == sid;
    CascadeIsExact(w, gone);
    var u, v := DropFiles(w, gone), DeleteStorage(w, sid);
    assert forall d <- w.details :: ParentsExist(v, w.details[d]) <==> ParentsExist(u, w.details[d]);
  }

  lemma NewStorageMeetsKeys(w: World, sid: Id)
    requires Integrity(w)
    ensures Integrity(InsertStorage(w, sid))
  {
    var u := InsertStorage(w, sid);
    forall d | d in u.details ensures ParentsExist(u, u.details[d]) { assert ParentsExist(w, w.details[d]); }
  }

  lemma AllParentsExist(w: World, d: Id)
    requires Integrity(w) && d in w.details
    ensures ParentsExist(w, w.details[d])
  {
  }

  /** A new storage is there, empty, and deleting it undoes its creation. */
  lemma StorageComesAndGoes(w: World, sid: Id)
    requires Integrity(w) && sid !in w.storages
    ensures InsertStorage(w, sid) == w.(storages := w.storages + {sid})
    ensures DeleteStorage(InsertStorage(w, sid), sid) == w
  {
    var u := InsertStorage(w, sid);
    NewStorageMeetsKeys(w, sid);
    DeleteStorageTakesItsOwn(u, sid);
    NothingOf(w, u, DeleteStorage(u, sid), sid);
  }

  lemma NothingOf(w: World, u: World, v: World, sid: Id)
    requires Integrity(w) && sid !in w.storages && u == w.(storages := w.storages + {sid})
    requires v.storages == u.storages - {sid} && v.mimes == u.mimes && v.blobs == u.blobs && v.clock == u.clock
    requires v.files == u.files && v.media == u.media && v.jobs == u.jobs
    requires forall d :: d in v.details <==> d in u.details && ParentsExist(v, u.details[d])
    requires forall d <- v.details :: v.details[d] == u.details[d]
    ensures v == w
  {
    forall d | d in w.details ensures d in v.details {
      AllParentsExist(w, d);
    }
    assert v.details == w.details && v.storages == w.storages;
  }

  /** Every row that is about other files stays as it was, a detail row as long as its own parents are there. */
  ghost predicate SparesOthers(w: World, v: World, f: Id) {
    && v.storages == w.storages && v.mimes == w.mimes && v.blobs == w.blobs
    && (forall g <- w.files :: g != f ==> g in v.files && v.files[g] == w.files[g])
    && (forall m <- w.media :: w.media[m].file != f ==> m in v.media && v.media[m] == w.media[m])
    && (forall j <- w.jobs :: w.jobs[j].file != f ==> j in v.jobs && v.jobs[j] == w.jobs[j])
    && (forall d :: d in v.details <==> d in w.details && ParentsExist(v, w.details[d]))
    && (forall d <- v.details :: v.details[d] == w.details[d])
    && v.files.Keys <= w.files.Keys && v.media.Keys <= w.media.Keys && v.jobs.Keys <= w.jobs.Keys
  }

  /** Nothing is left that refers to the file. */
  ghost predicate Forgotten(v: World, f: Id) {
    && f !in v.files && (forall m <- v.media :: v.media[m].file != f) && (forall j <- v.jobs :: v.jobs[j].file != f)
    && forall d <- v.details :: (v.details[d].ThumbDetail? || v.details[d].SizedDetail?) ==> v.details[d].file != f
  }

  lemma DropForgets(w: World, f: Id)
    requires Integrity(w)
    ensures var v := DropFiles(w, {f}); SparesOthers(w, v, f) && Forgotten(v, f) && Integrity(v)
  {
    DropFilesKeepsIntegrity(w, {f});
    CascadeIsExact(w, {f});
  }

  /** Nothing happened. */
  lemma NothingGone(w: World, f: Id)
    requires Integrity(w)
    ensures SparesOthers(w, w, f)
  {
    forall d | d in w.details ensures ParentsExist(w, w.details[d]) {}
  }

  /** The delete of a rollback takes the row of an upload that was never published, with all that refers to it,
      and nothing else; on any other row it takes nothing. */
  lemma UndoTakesUnpublishedOnly(w: World, sid: Id, f: Id)
    requires Integrity(w)
    ensures var v := DeleteFailedUploadingFile(w, sid, f);
      && Integrity(v) && SparesOthers(w, v, f)
      && (f !in w.files || w.files[f].status == Published || w.files[f].storage != sid ==> v == w)
      && (f in w.files && w.files[f].status == Uploading && w.files[f].storage == sid ==> Forgotten(v, f))
  {
    DropForgets(w, f);
    NothingGone(w, f);
  }

  /** A permanent delete takes a row that is in the trash, with all that refers to it, and nothing else. */
  lemma PurgeTakesTrashOnly(w: World, sid: Id, f: Id)
    requires Integrity(w)
    ensures var v := PermaDeleteFile(w, sid, f);
      && Integrity(v) && SparesOthers(w, v, f)
      && (f !in w.files || !w.files[f].excluded || w.files[f].storage != sid ==> v == w)
      && (f in w.files && w.files[f].excluded && w.files[f].storage == sid ==> Forgotten(v, f))
  {
    DropForgets(w, f);
    NothingGone(w, f);
  }

  /** A new file row meets the keys exactly when its storage and its MIME type exist. */
  lemma InsertMeetsKeysIff(w: World, id: Id, row: FileRow)
    requires Integrity(w) && id !in w.files
    ensures Integrity(InsertFile(w, id, row)) <==> CanInsertFile(w, id, row)
  {
    var v := InsertFile(w, id, row);
    assert v.files[id] == row;
    forall d | d in v.details ensures ParentsExist(v, v.details[d]) { assert ParentsExist(w, w.details[d]); }
  }

  /** A new job row meets the keys exactly when its storage and its file exist: the other unique key is what ON
      CONFLICT looks at. */
  lemma EnqueueMeetsKeysIff(w: World, jid: Id, sid: Id, f: Id)
    requires Integrity(w) && jid !in w.jobs && !HasJob(w, f)
    ensures Integrity(EnqueueMediaProcessing(w, jid, sid, f)) <==> CanEnqueue(w, jid, sid, f)
  {
    var v := EnqueueMediaProcessing(w, jid, sid, f);
    assert v.jobs[jid].storage == sid && v.jobs[jid].file == f;
    if CanEnqueue(w, jid, sid, f) {
      assert FileKeysHold(v) && MediaKeysHold(v) && JobKeysHold(v);
      forall d | d in v.details ensures ParentsExist(v, v.details[d]) { assert ParentsExist(w, w.details[d]); }
    }
  }
}

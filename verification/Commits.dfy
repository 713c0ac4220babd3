/** When the database can refuse a media transaction: only because the file of its job, or the storage of that
    file, is gone. */
module Commits {
  import opened Text
  import opened MediaKind
  import opened Tables
  import opened Plan
  import opened Protocol
  import opened Invariant
  import opened Preservation
  import opened Transactions
  import opened Rows
  import opened Additions

  // ---------- In a run ----------

  /** What a run knows about a worker with an open transaction whose file is still there. */
  lemma OpenIsAddable(s: State, p: Id)
    requires Inv(s) && TxInv(s) && IsBusy(s, p) && (s.procs[p].loop.at.Open? || s.procs[p].loop.at.Putting?)
    requires s.procs[p].loop.file in s.w.files
    ensures var t := s.procs[p].loop.at.t; Addable(s.w, t.kind, t.task, t.done)
  {
    var b := s.procs[p].loop;
    var t := b.at.t;
    assert ProcOk(s.w, s.procs[p]) && WorkerOk(s.w.mimes, s.procs[p]);
    FollowersFit(t.kind, t.task, t.done);
    StorageIsThere(s.w, b.job, b.storage, b.file, b.at);
    TaskIsNew(s, p);
  }

  lemma StorageIsThere(w: World, job: Id, sid: Id, file: Id, at: WorkAt)
    requires JobKeysHold(w) && WorkOk(w, job, sid, file, at) && file in w.files
    ensures sid in w.storages
  {
  }

  lemma TaskIsNew(s: State, p: Id)
    requires RowIdsApart(s) && IsBusy(s, p) && (s.procs[p].loop.at.Open? || s.procs[p].loop.at.Putting?)
    requires ProcOk(s.w, s.procs[p]) && WorkerOk(s.w.mimes, s.procs[p])
    ensures var t := s.procs[p].loop.at.t;
      && t.task.media !in s.w.media && t.task.head !in s.w.details
      && forall i | 0 <= i < |t.done| :: t.done[i].file !in s.w.files && t.done[i].link !in s.w.details
  {
    var t := s.procs[p].loop.at.t;
    var row := HeadRow(t.kind, t.task);
    assert RowIds(s.procs[p]) == t.tx.media.Keys + t.tx.details.Keys;
    LinkRowsIff(t.task.head, row, t.done, t.task.head);
    forall i | 0 <= i < |t.done| ensures t.done[i].file !in s.w.files && t.done[i].link !in s.w.details {
      LinkRowsIff(t.task.head, row, t.done, t.done[i].link);
      FileRowsIff(t.task.storage, t.task.decoded.mime, t.done, t.done[i].file);
      assert t.done[i].file in t.tx.files && t.done[i].link in t.tx.details;
      assert DerivedOk(s.w, t.done[i].file, t.tx.files[t.done[i].file]);
    }
  }

  lemma CommitNeedsFile(s: State, p: Id)
    requires ProcsOk(s) && OwnersDisjoint(s) && TxInv(s) && IsBusy(s, p) && s.procs[p].loop.at.Open?
    requires CanCommit(s.w, s.procs[p].loop.at.t.tx)
    ensures s.procs[p].loop.file in s.w.files
  {
    var b := s.procs[p].loop;
    assert ProcOk(s.w, s.procs[p]);
    assert b.at.t.task.media in Merge(s.w, b.at.t.tx).media;
    assert b.file in Target(s.procs[p]) && Unborn(s.procs[p]) == b.at.t.tx.files.Keys;
  }

  /** In every reachable state, the commit of an open transaction is refused exactly when the file of its job
      has been deleted: no key of any table is ever in its way. */
  lemma CommitRefusedIffFileGone(mimes: map<Id, MimeType>, states: seq<State>, steps: seq<Step>, i: nat, p: Id)
    requires IsRun(mimes, states, steps) && i < |states|
    requires IsBusy(states[i], p) && states[i].procs[p].loop.at.Open?
    ensures CanCommit(states[i].w, states[i].procs[p].loop.at.t.tx)
       <==> states[i].procs[p].loop.file in states[i].w.files
  {
    RunKeepsInv(mimes, states, steps, i);
    RunKeepsTxInv(mimes, states, steps, i);
    var s := states[i];
    if s.procs[p].loop.file in s.w.files {
      var t := s.procs[p].loop.at.t;
      assert WorkerOk(s.w.mimes, s.procs[p]);
      OpenIsAddable(s, p);
      AddableCommits(s.w, t.kind, t.task, t.done);
    } else if CanCommit(s.w, s.procs[p].loop.at.t.tx) {
      CommitNeedsFile(s, p);
    }
  }

  // ---------- The statements of a transaction ----------

  lemma FileInsertIff(w: World, t: Txn, fid: Id, size: nat)
    requires |t.done| < |t.Plan()| && fid !in w.files && fid !in t.tx.files
    requires t.task.decoded.mime.Some? ==> t.task.decoded.mime.value in w.mimes
    ensures CanInsertFileTx(w, t.tx, fid, NextRow(t, fid, size)) <==> t.task.storage in w.storages
  {
  }

  /** The link of the image being stored meets every key of its table. */
  lemma LinkInsertOk(w: World, file: Id, storage: Id, at: WorkAt, link: Id)
    requires Integrity(w) && at.Putting? && TxnOk(w.mimes, file, storage, at)
    requires Addable(w, at.t.kind, at.t.task, at.t.done)
    requires link !in w.details && link !in at.t.tx.details && at.id !in w.files
    ensures CanInsertDetailTx(w, at.t.tx, link, NextLink(at.t, at.id))
  {
    var t := at.t;
    LinkMeetsKeys(w, t.tx, t.kind, t.task, t.done, at.id, NextLink(t, at.id), link);
  }

  /** In every reachable state, for ids never drawn before, the insert of a media row is refused exactly when
      the file is gone, that of a derived file exactly when the storage is gone, and that of a link never as
      long as the file is there. */
  lemma InsertsRefusedIff(mimes: map<Id, MimeType>, states: seq<State>, steps: seq<Step>, i: nat, p: Id, id: Id)
    requires IsRun(mimes, states, steps) && i < |states| && IsBusy(states[i], p) && Fresh(states[i], {id})
    ensures var s, b := states[i], states[i].procs[p].loop;
      && (b.at.Ready? ==> (CanInsertMediaTx(s.w, EMPTY_TX, id, b.file) <==> b.file in s.w.files))
      && (b.at.Open? && |b.at.t.done| < |b.at.t.Plan()| ==> forall size: nat ::
            CanInsertFileTx(s.w, b.at.t.tx, id, NextRow(b.at.t, id, size)) <==> b.storage in s.w.storages)
      && (b.at.Putting? && b.file in s.w.files ==>
            |b.at.t.done| < |b.at.t.Plan()| && CanInsertDetailTx(s.w, b.at.t.tx, id, NextLink(b.at.t, b.at.id)))
  {
    RunKeepsInv(mimes, states, steps, i);
    RunKeepsTxInv(mimes, states, steps, i);
    InsertsAt(states[i], p, id);
  }

  lemma InsertsAt(s: State, p: Id, id: Id)
    requires Inv(s) && TxInv(s) && IsBusy(s, p) && Fresh(s, {id})
    ensures var b := s.procs[p].loop;
      && (b.at.Ready? ==> (CanInsertMediaTx(s.w, EMPTY_TX, id, b.file) <==> b.file in s.w.files))
      && (b.at.Open? && |b.at.t.done| < |b.at.t.Plan()| ==> forall size: nat ::
            CanInsertFileTx(s.w, b.at.t.tx, id, NextRow(b.at.t, id, size)) <==> b.storage in s.w.storages)
      && (b.at.Putting? && b.file in s.w.files ==>
            |b.at.t.done| < |b.at.t.Plan()| && CanInsertDetailTx(s.w, b.at.t.tx, id, NextLink(b.at.t, b.at.id)))
  {
    var b := s.procs[p].loop;
    assert ProcOk(s.w, s.procs[p]) && WorkerOk(s.w.mimes, s.procs[p]);
    NewId(s, p, id);
    if b.at.Ready? {
      MediaInsertIff(s.w, id, b.file);
    } else if b.at.Open? && |b.at.t.done| < |b.at.t.Plan()| {
      forall size: nat
        ensures CanInsertFileTx(s.w, b.at.t.tx, id, NextRow(b.at.t, id, size)) <==> b.storage in s.w.storages
      {
        FileInsertIff(s.w, b.at.t, id, size);
      }
    } else if b.at.Putting? && b.file in s.w.files {
      OpenIsAddable(s, p);
      assert DerivedOk(s.w, b.at.id, b.at.t.tx.files[b.at.id]);
      LinkInsertOk(s.w, b.file, b.storage, b.at, id);
    }
  }

  lemma NewId(s: State, p: Id, id: Id)
    requires IdsUsed(s) && RowIdsApart(s) && IsBusy(s, p) && Fresh(s, {id})
    ensures var tx := OpenTx(s.procs[p].loop.at);
      && id !in s.w.media && id !in s.w.details && id !in s.w.files
      && id !in tx.files && id !in tx.details && id !in tx.media
  {
    UnbornAreUsed(s.procs[p], s.used);
    assert id !in RowIds(s.procs[p]) && id !in TableIds(s.w);
  }

  // ---------- What a commit adds ----------

  /** In every run, whatever runs beside it, a commit adds exactly the rows of the job's plan, and these are: one
      media row of the kind that the type of the file says, its detail row, and for an image one published file with
      its object and one link per box that fits and per thumbnail, in order, on distinct new ids. */
  lemma CommitAddsThePlan(mimes: map<Id, MimeType>, states: seq<State>, steps: seq<Step>, i: nat, p: Id)
    requires IsRun(mimes, states, steps) && i < |steps| && steps[i] == WorkStep(p, CommitTx)
    ensures var w, v := states[i].w, states[i + 1].w;
      IsBusy(states[i], p) && states[i].procs[p].loop.at.Open? &&
      var t := states[i].procs[p].loop.at.t;
      && v == Merge(w, TaskTx(t.kind, t.task, t.done))
      && t.task.file == states[i].procs[p].loop.file && t.task.file in w.files
      && Category(w, w.files[t.task.file]) == Some(t.kind)
      && (t.kind == Image ==> IsImage(t.task.decoded))
      && Follows(t.done, PlanOf(t.kind, t.task.decoded), t.task) && Apart(t.task, t.done)
      && (forall k | 0 <= k < |t.done| ::
        Stored(v, Some(Path(t.done[k].file, t.done[k].leaf)), t.done[k].size))
      && t.task.storage == w.files[t.task.file].storage && IsOfKind(w, w.files[t.task.file], t.kind)
      && MediaMade(w, v, t.kind, t.task, t.done)
  {
    RunKeepsInv(mimes, states, steps, i);
    RunKeepsTxInv(mimes, states, steps, i);
    CommitRefusedIffFileGone(mimes, states, steps, i, p);
    CommitAddsPlanAt(states[i], p);
    CommitsOwnStorage(states[i], p);
    CommitMakesMedia(states[i], p);
    FileCategoryIff(states[i].w, states[i].w.files[states[i].procs[p].loop.file]);
  }

  lemma CommitsOwnStorage(s: State, p: Id)
    requires ProcsOk(s) && JobsOk(s.w) && TxInv(s) && WorkEnabled(s, p, CommitTx)
    requires s.procs[p].loop.file in s.w.files
    ensures s.procs[p].loop.at.t.task.storage == s.w.files[s.procs[p].loop.file].storage
  {
    var b := s.procs[p].loop;
    assert ProcOk(s.w, s.procs[p]) && WorkerOk(s.w.mimes, s.procs[p]);
    assert JobOk(s.w, b.job);
  }

  lemma CommitMakesMedia(s: State, p: Id)
    requires ProcsOk(s) && TxInv(s) && WorkEnabled(s, p, CommitTx) && s.procs[p].loop.file in s.w.files
    ensures var t := s.procs[p].loop.at.t; MediaMade(s.w, ApplyWork(s, p, CommitTx).w, t.kind, t.task, t.done)
  {
    var t := s.procs[p].loop.at.t;
    var v := ApplyWork(s, p, CommitTx).w;
    CommitAddsPlanAt(s, p);
    assert s.w.(blobs := v.blobs) == s.w;
    CommitHasNewKeys(s.w, t.tx);
    assert WorkerOk(s.w.mimes, s.procs[p]);
    MergeMakesMedia(s.w, v, t.kind, t.task, t.done);
  }

  lemma CommitHasNewKeys(w: World, tx: Tx)
    requires CanCommit(w, tx)
    ensures NewKeys(w, tx)
  {
  }

  lemma CommitAddsPlanAt(s: State, p: Id)
    requires ProcsOk(s) && TxInv(s) && WorkEnabled(s, p, CommitTx) && s.procs[p].loop.file in s.w.files
    ensures var t := s.procs[p].loop.at.t;
      && ApplyWork(s, p, CommitTx).w == Merge(s.w, TaskTx(t.kind, t.task, t.done))
      && t.task.file == s.procs[p].loop.file && Category(s.w, s.w.files[t.task.file]) == Some(t.kind)
      && (t.kind == Image ==> IsImage(t.task.decoded))
      && Follows(t.done, PlanOf(t.kind, t.task.decoded), t.task) && Apart(t.task, t.done)
      && forall k | 0 <= k < |t.done| ::
        Stored(s.w, Some(Path(t.done[k].file, t.done[k].leaf)), t.done[k].size)
  {
    var t := s.procs[p].loop.at.t;
    assert ProcOk(s.w, s.procs[p]) && WorkerOk(s.w.mimes, s.procs[p]);
    assert t.Plan()[..|t.done|] == t.Plan();
    forall k | 0 <= k < |t.done|
      ensures Stored(s.w, Some(Path(t.done[k].file, t.done[k].leaf)), t.done[k].size)
    {
      FileRowAt(t.task.storage, t.task.decoded.mime, t.done, k);
      assert t.tx.files[t.done[k].file].realPath == Some(Path(t.done[k].file, t.done[k].leaf));
    }
  }
}

/** The open media transactions of a run: each holds exactly what its plan says, and the database refuses one
    only when the file of its job is gone. */
module Transactions {
  import opened MediaKind
  import opened Tables
  import opened Plan
  import opened Protocol
  import opened Invariant

  // ---------- What a transaction holds ----------

  /** The transaction of a worker holds the rows of the planned images made so far, in order, and, while an
      object is being stored, the row of that one. */
  ghost predicate TxnOk(mimes: map<Id, MimeType>, file: Id, storage: Id, at: WorkAt)
    requires at.Open? || at.Putting?
  {
    var t := at.t;
    && t.task.file == file && t.task.storage == storage && (t.kind == Image ==> IsImage(t.task.decoded))
    && (t.task.decoded.mime.Some? ==> t.task.decoded.mime.value in mimes)
    && |t.done| <= |t.Plan()| && Follows(t.done, t.Plan()[..|t.done|], t.task) && Apart(t.task, t.done)
    && (at.Open? ==> t.tx == TaskTx(t.kind, t.task, t.done))
    && (at.Putting? ==>
          && |t.done| < |t.Plan()| && at.path == Path(at.id, Leaf(t.Plan()[|t.done|]))
          && t.tx == InsertFileTx(TaskTx(t.kind, t.task, t.done), at.id, NextRow(t, at.id, at.size))
          && forall i | 0 <= i < |t.done| :: t.done[i].file != at.id)
  }

  ghost predicate WorkerOk(mimes: map<Id, MimeType>, proc: Proc) {
    match proc
    case Worker(_, Busy(_, sid, f, at)) => at.Open? || at.Putting? ==> TxnOk(mimes, f, sid, at)
    case _ => true
  }

  /** The ids of the media and detail rows that exist only in this process's transaction. */
  function RowIds(proc: Proc): set<Id> {
    match proc
    case Worker(_, Busy(_, _, _, at)) => OpenTx(at).media.Keys + OpenTx(at).details.Keys
    case _ => {}
  }

  function TableIds(w: World): set<Id> {
    w.media.Keys + w.details.Keys
  }

  /** Ids of media and detail rows are drawn once: they are in the tables or in one transaction. */
  ghost predicate RowIdsApart(s: State) {
    && TableIds(s.w) <= s.used
    && (forall p <- s.procs :: RowIds(s.procs[p]) <= s.used - TableIds(s.w))
    && (forall p <- s.procs, q <- s.procs :: p != q ==> RowIds(s.procs[p]) !! RowIds(s.procs[q]))
  }

  ghost predicate TxInv(s: State) {
    RowIdsApart(s) && forall p <- s.procs :: WorkerOk(s.w.mimes, s.procs[p])
  }

  // ---------- Every step keeps it ----------

  ghost predicate Idle(proc: Proc) {
    proc.Worker? && proc.loop.Busy? ==> !proc.loop.at.Open? && !proc.loop.at.Putting?
  }

  /** No transaction moves, and the tables lose rows at most. */
  lemma QuietStep(s: State, t: State)
    requires TxInv(s) && s.used <= t.used && t.w.mimes == s.w.mimes
    requires t.w.media.Keys <= s.w.media.Keys && t.w.details.Keys <= s.w.details.Keys
    requires forall p <- t.procs :: Idle(t.procs[p]) || (p in s.procs && t.procs[p] == s.procs[p])
    ensures TxInv(t)
  {
    forall p | p in t.procs ensures RowIds(t.procs[p]) == {} || (p in s.procs && t.procs[p] == s.procs[p]) {}
  }

  lemma UploadsAreQuiet(s: State, p: Id, a: UploadAct)
    requires TxInv(s) && UploadEnabled(s, p, a)
    ensures TxInv(ApplyUpload(s, p, a))
  {
    UploadShape(s, p, a);
    QuietStep(s, ApplyUpload(s, p, a));
  }

  lemma UploadShape(s: State, p: Id, a: UploadAct)
    requires UploadEnabled(s, p, a)
    ensures var t := ApplyUpload(s, p, a);
      && t.used == s.used && t.w.mimes == s.w.mimes
      && t.w.media.Keys <= s.w.media.Keys && t.w.details.Keys <= s.w.details.Keys
      && forall q <- t.procs :: Idle(t.procs[q]) || (q in s.procs && t.procs[q] == s.procs[q])
  {
  }

  lemma HandlersAreQuiet(s: State, a: HandlerAct)
    requires TxInv(s) && HandlerEnabled(s, a)
    ensures TxInv(ApplyHandler(s, a))
  {
    QuietStep(s, ApplyHandler(s, a));
  }

  lemma PoolsAreQuiet(s: State, a: PoolAct)
    requires TxInv(s) && PoolEnabled(s, a)
    ensures TxInv(ApplyPool(s, a))
  {
    QuietStep(s, ApplyPool(s, a));
  }

  lemma OthersAreQuiet(s: State, a: Step)
    requires TxInv(s) && Enabled(s, a) && (a.NewStorage? || a.DropStorage? || a.BeginUpload? || a.Crash?)
    ensures TxInv(Apply(s, a))
  {
    QuietStep(s, Apply(s, a));
  }

  /** Process `p` moves its transaction, drawing the fresh ids `ids` for rows of it. */
  lemma TxnStep(s: State, t: State, p: Id, ids: set<Id>)
    requires TxInv(s) && p in s.procs && p in t.procs && t.procs == s.procs[p := t.procs[p]]
    requires ids !! s.used && t.used == s.used + ids && t.w == s.w.(blobs := t.w.blobs)
    requires RowIds(t.procs[p]) <= RowIds(s.procs[p]) + ids && WorkerOk(s.w.mimes, t.procs[p])
    ensures TxInv(t)
  {
  }

  lemma BeginKeeps(s: State, p: Id, media: Id, head: Id, d: Decoded)
    requires TxInv(s) && WorkEnabled(s, p, BeginTx(media, head, d))
    ensures TxInv(ApplyWork(s, p, BeginTx(media, head, d)))
  {
    var t := ApplyWork(s, p, BeginTx(media, head, d));
    var n := t.procs[p].loop.at.t;
    assert n.tx == TaskTx(n.kind, n.task, []);
    assert n.Plan()[..0] == [];
    TxnStep(s, t, p, {media, head});
  }

  lemma AddKeeps(s: State, p: Id, fid: Id, size: nat)
    requires TxInv(s) && WorkEnabled(s, p, AddDerived(fid, size))
    ensures TxInv(ApplyWork(s, p, AddDerived(fid, size)))
  {
    AddWorker(s, p, fid, size);
    TxnStep(s, ApplyWork(s, p, AddDerived(fid, size)), p, {fid});
  }

  lemma AddOk(mimes: map<Id, MimeType>, file: Id, storage: Id, t: Txn, fid: Id, size: nat)
    requires TxnOk(mimes, file, storage, Open(t)) && |t.done| < |t.Plan()| && fid !in t.tx.files
    ensures var row := NextRow(t, fid, size);
      TxnOk(mimes, file, storage, Putting(t.(tx := InsertFileTx(t.tx, fid, row)), fid, row.realPath.value, size))
  {
    FileRowsIff(t.task.storage, t.task.decoded.mime, t.done, fid);
  }

  lemma AddWorker(s: State, p: Id, fid: Id, size: nat)
    requires WorkEnabled(s, p, AddDerived(fid, size)) && WorkerOk(s.w.mimes, s.procs[p])
    ensures var q := ApplyWork(s, p, AddDerived(fid, size)).procs[p];
      WorkerOk(s.w.mimes, q) && RowIds(q) == RowIds(s.procs[p])
  {
    var b := s.procs[p].loop;
    AddOk(s.w.mimes, b.file, b.storage, b.at.t, fid, size);
  }

  lemma ApartGrows(task: Task, ds: seq<Derived>, d: Derived)
    requires Apart(task, ds) && d.link != task.head
    requires forall i | 0 <= i < |ds| :: ds[i].file != d.file && ds[i].link != d.link
    ensures Apart(task, ds + [d])
  {
  }

  lemma FollowsPlan(done: seq<Derived>, plan: seq<Link>, task: Task, d: Derived)
    requires |done| < |plan| && Follows(done, plan[..|done|], task)
    requires d.row == LinkRow(plan[|done|], task.media, task.head, d.file) && d.leaf == Leaf(plan[|done|])
    ensures Follows(done + [d], plan[..|done| + 1], task)
  {
    FollowsGrows(done, plan[..|done|], task, d, plan[|done|]);
    assert plan[..|done| + 1] == plan[..|done|] + [plan[|done|]];
  }

  /** One more image is done: its rows are the next of the plan. */
  lemma PutOk(mimes: map<Id, MimeType>, file: Id, storage: Id, at: WorkAt, link: Id)
    requires at.Putting? && TxnOk(mimes, file, storage, at)
    requires link != at.t.task.head && forall i | 0 <= i < |at.t.done| :: at.t.done[i].link != link
    ensures TxnOk(mimes, file, storage, Open(Linked(at, link)))
  {
    var t, row := at.t, NextLink(at.t, at.id);
    var d := Derived(at.id, at.path.leaf, at.size, link, row);
    FollowsPlan(t.done, t.Plan(), t.task, d);
    ApartGrows(t.task, t.done, d);
    TaskTxGrows(t.kind, t.task, t.done, d);
  }

  lemma TaskTxGrows(kind: Kind, task: Task, ds: seq<Derived>, d: Derived)
    ensures var tx := TaskTx(kind, task, ds);
      var row := DerivedRow(task.storage, d.size, Path(d.file, d.leaf), task.decoded.mime);
      TaskTx(kind, task, ds + [d]) == InsertDetailTx(InsertFileTx(tx, d.file, row), d.link, d.row)
  {
    assert (ds + [d])[..|ds|] == ds;
  }

  lemma LinkIsNew(t: Txn, link: Id)
    requires t.tx.details.Keys == TaskTx(t.kind, t.task, t.done).details.Keys && link !in t.tx.details
    ensures link != t.task.head && forall i | 0 <= i < |t.done| :: t.done[i].link != link
  {
    LinkRowsIff(t.task.head, HeadRow(t.kind, t.task), t.done, link);
  }

  lemma PutWorker(mimes: map<Id, MimeType>, b: LoopAt, link: Id)
    requires b.Busy? && b.at.Putting? && TxnOk(mimes, b.file, b.storage, b.at)
    requires link !in OpenTx(b.at).details
    ensures TxnOk(mimes, b.file, b.storage, Open(Linked(b.at, link)))
    ensures OpenTx(Open(Linked(b.at, link))).media == OpenTx(b.at).media
    ensures OpenTx(Open(Linked(b.at, link))).details.Keys == OpenTx(b.at).details.Keys + {link}
  {
    LinkIsNew(b.at.t, link);
    PutOk(mimes, b.file, b.storage, b.at, link);
  }

  lemma PutShape(s: State, p: Id, data: Bytes, link: Id, t: State)
    requires WorkEnabled(s, p, PutDerived(data, link)) && t == ApplyWork(s, p, PutDerived(data, link))
    ensures p in s.procs && p in t.procs && t.procs == s.procs[p := t.procs[p]]
    ensures t.procs[p] == s.procs[p].(loop := s.procs[p].loop.(at := Open(Linked(s.procs[p].loop.at, link))))
    ensures {link} !! s.used && t.used == s.used + {link} && t.w == s.w.(blobs := t.w.blobs)
  {
  }

  lemma PutKeeps(s: State, p: Id, data: Bytes, link: Id)
    requires TxInv(s) && WorkEnabled(s, p, PutDerived(data, link))
    ensures TxInv(ApplyWork(s, p, PutDerived(data, link)))
  {
    var t := ApplyWork(s, p, PutDerived(data, link));
    PutShape(s, p, data, link, t);
    assert WorkerOk(s.w.mimes, s.procs[p]) && link !in RowIds(s.procs[p]);
    PutWorker(s.w.mimes, s.procs[p].loop, link);
    TxnStep(s, t, p, {link});
  }

  lemma CommitShape(s: State, p: Id, t: State)
    requires WorkEnabled(s, p, CommitTx) && t == ApplyWork(s, p, CommitTx)
    ensures p in s.procs && p in t.procs && t.procs == s.procs[p := t.procs[p]]
    ensures t.used == s.used && RowIds(t.procs[p]) == {} && Idle(t.procs[p])
    ensures t.w == Merge(s.w, OpenTx(s.procs[p].loop.at))
  {
  }

  lemma MergeIds(w: World, tx: Tx)
    ensures TableIds(Merge(w, tx)) == TableIds(w) + tx.media.Keys + tx.details.Keys
  {
  }

  lemma CommitIds(s: State, t: State, p: Id)
    requires RowIdsApart(s) && p in s.procs && p in t.procs && t.procs == s.procs[p := t.procs[p]]
    requires t.used == s.used && RowIds(t.procs[p]) == {}
    requires TableIds(t.w) == TableIds(s.w) + RowIds(s.procs[p])
    ensures RowIdsApart(t)
  {
  }

  lemma CommitKeeps(s: State, p: Id)
    requires TxInv(s) && WorkEnabled(s, p, CommitTx)
    ensures TxInv(ApplyWork(s, p, CommitTx))
  {
    CommitShape(s, p, ApplyWork(s, p, CommitTx));
    MergeKeeps(s, ApplyWork(s, p, CommitTx), p);
  }

  /** The rows of one transaction become rows of the tables. */
  lemma MergeKeeps(s: State, t: State, p: Id)
    requires TxInv(s) && IsBusy(s, p) && p in t.procs && t.procs == s.procs[p := t.procs[p]]
    requires t.used == s.used && RowIds(t.procs[p]) == {} && Idle(t.procs[p])
    requires t.w == Merge(s.w, OpenTx(s.procs[p].loop.at))
    ensures TxInv(t)
  {
    MergeIds(s.w, OpenTx(s.procs[p].loop.at));
    CommitIds(s, t, p);
    SameWorkers(s, t, p);
  }

  lemma SameWorkers(s: State, t: State, p: Id)
    requires TxInv(s) && p in t.procs && t.procs.Keys == s.procs.Keys && t.w.mimes == s.w.mimes
    requires Idle(t.procs[p]) && forall q <- s.procs :: q == p || t.procs[q] == s.procs[q]
    ensures forall q <- t.procs :: WorkerOk(t.w.mimes, t.procs[q])
  {
  }

  lemma QuietActs(s: State, p: Id, a: WorkAct)
    requires WorkEnabled(s, p, a) && !a.BeginTx? && !a.AddDerived? && !a.PutDerived? && !a.CommitTx?
    ensures var t := ApplyWork(s, p, a);
      && p in t.procs && t.procs == s.procs[p := t.procs[p]] && Idle(t.procs[p]) && t.used == s.used
      && t.w.mimes == s.w.mimes && t.w.media == s.w.media && t.w.details == s.w.details
  {
  }

  lemma WorkKeeps(s: State, p: Id, a: WorkAct)
    requires TxInv(s) && WorkEnabled(s, p, a)
    ensures TxInv(ApplyWork(s, p, a))
  {
    match a
    case BeginTx(media, head, d) => BeginKeeps(s, p, media, head, d);
    case AddDerived(fid, size) => AddKeeps(s, p, fid, size);
    case PutDerived(data, link) => PutKeeps(s, p, data, link);
    case CommitTx => CommitKeeps(s, p);
    case _ =>
      QuietActs(s, p, a);
      QuietStep(s, ApplyWork(s, p, a));
  }

  lemma StepKeepsTxInv(s: State, a: Step)
    requires TxInv(s) && Enabled(s, a)
    ensures TxInv(Apply(s, a))
  {
    match a
    case UploadStep(p, u) => UploadsAreQuiet(s, p, u);
    case HandlerStep(h) => HandlersAreQuiet(s, h);
    case PoolStep(b) => PoolsAreQuiet(s, b);
    case WorkStep(p, b) => WorkKeeps(s, p, b);
    case _ => OthersAreQuiet(s, a);
  }

  lemma {:induction false} RunKeepsTxInv(mimes: map<Id, MimeType>, states: seq<State>, steps: seq<Step>, i: nat)
    requires IsRun(mimes, states, steps) && i < |states|
    ensures TxInv(states[i])
  {
    if i > 0 {
      RunKeepsTxInv(mimes, states, steps, i - 1);
      StepKeepsTxInv(states[i - 1], steps[i - 1]);
    }
  }
}

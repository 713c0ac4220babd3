/** Every media row has its image, video or document row, in every reachable state, and no other of the three. */
module Heads {
  import opened MediaKind
  import opened Tables
  import opened Plan
  import opened Protocol
  import opened Invariant
  import opened Preservation
  import opened Transactions
  import opened Commits
  import opened Rows
  import opened Additions

  /** The row that a media row of this kind has, and has once. */
  predicate IsHead(row: DetailRow, kind: Kind, m: Id) {
    match kind
    case Image => row.ImageDetail? && row.media == m
    case Video => row.VideoDetail? && row.media == m
    case Document => row.DocumentDetail? && row.media == m
  }

  predicate IsLink(row: DetailRow) {
    row.ThumbDetail? || row.SizedDetail?
  }

  ghost predicate HasHead(w: World, m: Id)
    requires m in w.media
  {
    exists d <- w.details :: IsHead(w.details[d], w.media[m].kind, m)
  }

  ghost predicate HeadsFit(w: World) {
    && (forall m <- w.media :: HasHead(w, m))
    && (forall d <- w.details :: IsLink(w.details[d]) ||
                                 (w.details[d].media in w.media &&
                                  IsHead(w.details[d], w.media[w.details[d].media].kind, w.details[d].media)))
  }

  // ---------- Every step keeps it ----------

  lemma SameRowsFit(w: World, v: World)
    requires HeadsFit(w) && v.media == w.media && v.details == w.details
    ensures HeadsFit(v)
  {
    forall m | m in v.media ensures HasHead(v, m) { assert HasHead(w, m); }
  }

  /** Rows go with their parents only. */
  ghost predicate LosesRowsWithParents(w: World, v: World) {
    && (forall m <- v.media :: m in w.media && v.media[m] == w.media[m])
    && (forall d <- v.details :: d in w.details && v.details[d] == w.details[d])
    && (forall d <- w.details :: d in v.details <==> ParentsExist(v, w.details[d]))
  }

  lemma LossKeepsHeads(w: World, v: World)
    requires HeadsFit(w) && LosesRowsWithParents(w, v)
    ensures HeadsFit(v)
  {
    forall m | m in v.media ensures HasHead(v, m) {
      assert HasHead(w, m);
      var d :| d in w.details && IsHead(w.details[d], w.media[m].kind, m);
      assert ParentsExist(v, w.details[d]);
    }
    forall d | d in v.details && !IsLink(v.details[d]) ensures v.details[d].media in v.media {
      assert ParentsExist(v, w.details[d]);
    }
  }

  /** A media row keeps its head. */
  lemma DropKeepsHeads(w: World, gone: set<Id>)
    requires Integrity(w) && HeadsFit(w)
    ensures HeadsFit(DropFiles(w, gone))
  {
    CascadeIsExact(w, gone);
    LossKeepsHeads(w, DropFiles(w, gone));
  }

  lemma LinkIsLink(kind: Kind, task: Task, ds: seq<Derived>, d: Id)
    requires Apart(task, ds) && LinksFit(kind, task, ds) && d in TaskTx(kind, task, ds).details && d != task.head
    ensures IsLink(TaskTx(kind, task, ds).details[d])
  {
    DetailOf(kind, task, ds, d);
    assert forall i | 0 <= i < |ds| :: LinkFits(kind, task, ds[i]);
  }

  lemma HeadIsHead(kind: Kind, task: Task, ds: seq<Derived>)
    requires Apart(task, ds)
    ensures var tx := TaskTx(kind, task, ds);
      task.head in tx.details && IsHead(tx.details[task.head], kind, task.media) && !IsLink(tx.details[task.head])
  {
    HeadStays(task.head, HeadRow(kind, task), ds);
  }

  lemma AddKeepsHeads(w: World, kind: Kind, task: Task, ds: seq<Derived>)
    requires HeadsFit(w) && Apart(task, ds) && LinksFit(kind, task, ds) && NewKeys(w, TaskTx(kind, task, ds))
    ensures HeadsFit(Merge(w, TaskTx(kind, task, ds)))
  {
    var tx := TaskTx(kind, task, ds);
    var v := Merge(w, tx);
    HeadIsHead(kind, task, ds);
    assert task.media in tx.media;
    forall m | m in v.media ensures HasHead(v, m) {
      if m in w.media {
        assert HasHead(w, m);
        var d :| d in w.details && IsHead(w.details[d], w.media[m].kind, m);
        assert d in v.details && v.details[d] == w.details[d];
      } else {
        assert v.details[task.head] == tx.details[task.head];
      }
    }
    forall d | d in tx.details && d != task.head ensures IsLink(tx.details[d]) { LinkIsLink(kind, task, ds, d); }
  }

  lemma UploadRows(s: State, p: Id, a: UploadAct)
    requires UploadEnabled(s, p, a)
    ensures var v := ApplyUpload(s, p, a).w;
      (v.media == s.w.media && v.details == s.w.details) || v == DropFiles(s.w, {s.procs[p].file})
  {
  }

  lemma HandlerRows(s: State, a: HandlerAct)
    requires HandlerEnabled(s, a)
    ensures var v := ApplyHandler(s, a).w;
      (v.media == s.w.media && v.details == s.w.details) || (a.PurgeRow? && v == DropFiles(s.w, {s.procs[a.p].file}))
  {
  }

  lemma WorkRows(s: State, p: Id, a: WorkAct)
    requires WorkEnabled(s, p, a) && !a.CommitTx?
    ensures ApplyWork(s, p, a).w.media == s.w.media && ApplyWork(s, p, a).w.details == s.w.details
  {
  }

  lemma CommitKeepsHeads(s: State, p: Id)
    requires WorkEnabled(s, p, CommitTx) && TxInv(s) && HeadsFit(s.w)
    ensures HeadsFit(ApplyWork(s, p, CommitTx).w)
  {
    var t := s.procs[p].loop.at.t;
    assert WorkerOk(s.w.mimes, s.procs[p]);
    CommitHasNewKeys(s.w, t.tx);
    FollowersFit(t.kind, t.task, t.done);
    AddKeepsHeads(s.w, t.kind, t.task, t.done);
  }

  lemma PoolRows(s: State, a: PoolAct)
    requires PoolEnabled(s, a)
    ensures ApplyPool(s, a).w.media == s.w.media && ApplyPool(s, a).w.details == s.w.details
  {
  }

  lemma StorageKeepsHeads(w: World, sid: Id)
    requires Integrity(w) && HeadsFit(w)
    ensures HeadsFit(DeleteStorage(w, sid))
  {
    var u := DropFiles(w, set f | f in w.files && w.files[f].storage == sid);
    DropKeepsHeads(w, set f | f in w.files && w.files[f].storage == sid);
    SameRowsFit(u, DeleteStorage(w, sid));
  }

  lemma StepKeepsHeads(s: State, a: Step)
    requires Integrity(s.w) && TxInv(s) && HeadsFit(s.w) && Enabled(s, a)
    ensures HeadsFit(Apply(s, a).w)
  {
    var v := Apply(s, a).w;
    match a
    case WorkStep(p, CommitTx) => CommitKeepsHeads(s, p);
    case WorkStep(p, b) =>
      WorkRows(s, p, b);
      SameRowsFit(s.w, v);
    case UploadStep(p, u) =>
      UploadRows(s, p, u);
      if v == DropFiles(s.w, {s.procs[p].file}) { DropKeepsHeads(s.w, {s.procs[p].file}); }
      else { SameRowsFit(s.w, v); }
    case HandlerStep(h) =>
      HandlerRows(s, h);
      if v.media == s.w.media && v.details == s.w.details { SameRowsFit(s.w, v); }
      else { DropKeepsHeads(s.w, {s.procs[h.p].file}); }
    case PoolStep(b) =>
      PoolRows(s, b);
      SameRowsFit(s.w, v);
    case DropStorage(sid) => StorageKeepsHeads(s.w, sid);
    case _ => SameRowsFit(s.w, v);
  }

  lemma {:induction false} RunKeepsHeads(mimes: map<Id, MimeType>, states: seq<State>, steps: seq<Step>, i: nat)
    requires IsRun(mimes, states, steps) && i < |states|
    ensures HeadsFit(states[i].w)
  {
    if i > 0 {
      RunKeepsHeads(mimes, states, steps, i - 1);
      RunKeepsInv(mimes, states, steps, i - 1);
      RunKeepsTxInv(mimes, states, steps, i - 1);
      StepKeepsHeads(states[i - 1], steps[i - 1]);
    }
  }

  // ---------- What a finished job has left ----------

  /** The file has one media row, of this kind, and that row has one row of its own, of the same kind. */
  ghost predicate HasMediaOf(w: World, f: Id, kind: Kind) {
    exists m, d | m in w.media && d in w.details ::
      && w.media[m] == MediaRow(f, kind) && IsHead(w.details[d], kind, m)
      && (forall n <- w.media :: w.media[n].file == f ==> n == m)
      && (forall c <- w.details :: !IsLink(w.details[c]) && w.details[c].media == m ==> c == d)
  }

  lemma MediaHasOneHead(w: World, m: Id)
    requires Integrity(w) && HeadsFit(w) && m in w.media
    ensures HasMediaOf(w, w.media[m].file, w.media[m].kind)
  {
    assert HasHead(w, m);
    var d :| d in w.details && IsHead(w.details[d], w.media[m].kind, m);
    forall c | c in w.details && !IsLink(w.details[c]) && w.details[c].media == m ensures c == d {
      assert Clash(w.details[c], w.details[d]);
    }
  }

  /** A done job has left the media of its file, which is there, for exactly the kind that the two columns of the
      file's type say: an image has its image row, a video its video row, a document its document row. */
  lemma DoneJobsHaveRows(mimes: map<Id, MimeType>, states: seq<State>, steps: seq<Step>, i: nat, j: Id)
    requires IsRun(mimes, states, steps) && i < |states|
    requires j in states[i].w.jobs && states[i].w.jobs[j].status == Done
    ensures var w, f := states[i].w, states[i].w.jobs[j].file;
      f in w.files && forall kind :: HasMediaOf(w, f, kind) <==> IsOfKind(w, w.files[f], kind)
  {
    var w := states[i].w;
    RunKeepsInv(mimes, states, steps, i);
    RunKeepsHeads(mimes, states, steps, i);
    assert JobOk(w, j);
    var f := w.jobs[j].file;
    var m :| m in w.media && w.media[m].file == f;
    MediaHasOneHead(w, m);
    FileCategoryIff(w, w.files[f]);
    forall kind ensures HasMediaOf(w, f, kind) <==> IsOfKind(w, w.files[f], kind) {
      if HasMediaOf(w, f, kind) { assert kind == w.media[m].kind; }
    }
  }
}

/** With the row locks that foreign keys take, a media transaction is never refused for a key. */
module Locks {
  import opened Tables
  import opened MediaKind
  import opened Plan
  import opened Protocol
  import opened Invariant
  import opened Preservation
  import opened Commits

  /** The worker's transaction has inserted a row that refers to file `f`, and so locks its row. */
  ghost predicate Locks(s: State, q: Id, f: Id) {
    IsBusy(s, q) && (s.procs[q].loop.at.Open? || s.procs[q].loop.at.Putting?) && s.procs[q].loop.file == f
  }

  /** A delete waits for the transactions that lock the rows it would take: the step does not happen while there is
      one. */
  ghost predicate RespectsLocks(s: State, a: Step) {
    match a
    case DropStorage(sid) =>
      forall q: Id, f: Id | Locks(s, q, f) && f in s.w.files :: s.w.files[f].storage != sid
    case HandlerStep(PurgeRow(p, _)) =>
      p in s.procs && s.procs[p].Purge? ==> forall q: Id :: !Locks(s, q, s.procs[p].file)
    case UploadStep(p, UndoInsert(_)) =>
      p in s.procs && s.procs[p].Upload? ==> forall q: Id :: !Locks(s, q, s.procs[p].file)
    case _ => true
  }

  ghost predicate LockedFilesStay(s: State) {
    forall q: Id, f: Id :: Locks(s, q, f) ==> f in s.w.files
  }

  /** A lock is old, or was taken on a row that is there. */
  ghost predicate TakesOnPresent(s: State, t: State) {
    forall q: Id, f: Id :: Locks(t, q, f) ==> Locks(s, q, f) || f in t.w.files
  }

  /** What the step drops, nobody has locked. */
  ghost predicate DropsUnlocked(s: State, t: State) {
    forall q: Id, f: Id :: Locks(s, q, f) && f in s.w.files ==> f in t.w.files
  }

  lemma WorkLocks(s: State, p: Id, a: WorkAct)
    requires WorkEnabled(s, p, a) && !a.BeginTx?
    ensures TakesOnPresent(s, ApplyWork(s, p, a)) && DropsUnlocked(s, ApplyWork(s, p, a))
  {
  }

  lemma BeginLocks(s: State, p: Id, media: Id, head: Id, d: Decoded)
    requires WorkEnabled(s, p, BeginTx(media, head, d))
    ensures TakesOnPresent(s, ApplyWork(s, p, BeginTx(media, head, d)))
    ensures DropsUnlocked(s, ApplyWork(s, p, BeginTx(media, head, d)))
  {
    assert Merge(s.w, EMPTY_TX).files == s.w.files;
  }

  lemma UploadLocks(s: State, p: Id, a: UploadAct)
    requires UploadEnabled(s, p, a) && RespectsLocks(s, UploadStep(p, a))
    ensures TakesOnPresent(s, ApplyUpload(s, p, a)) && DropsUnlocked(s, ApplyUpload(s, p, a))
  {
  }

  lemma HandlerLocks(s: State, a: HandlerAct)
    requires HandlerEnabled(s, a) && RespectsLocks(s, HandlerStep(a))
    ensures TakesOnPresent(s, ApplyHandler(s, a)) && DropsUnlocked(s, ApplyHandler(s, a))
  {
  }

  lemma PoolLocks(s: State, a: PoolAct)
    requires PoolEnabled(s, a)
    ensures TakesOnPresent(s, ApplyPool(s, a)) && DropsUnlocked(s, ApplyPool(s, a))
  {
  }

  lemma OtherLocks(s: State, a: Step)
    requires Enabled(s, a) && (a.NewStorage? || a.DropStorage? || a.BeginUpload? || a.Crash?) && RespectsLocks(s, a)
    ensures TakesOnPresent(s, Apply(s, a)) && DropsUnlocked(s, Apply(s, a))
  {
  }

  lemma StepKeepsLocked(s: State, a: Step)
    requires LockedFilesStay(s) && Enabled(s, a) && RespectsLocks(s, a)
    ensures LockedFilesStay(Apply(s, a))
  {
    match a
    case WorkStep(p, BeginTx(media, head, d)) => BeginLocks(s, p, media, head, d);
    case WorkStep(p, b) => WorkLocks(s, p, b);
    case UploadStep(p, u) => UploadLocks(s, p, u);
    case HandlerStep(h) => HandlerLocks(s, h);
    case PoolStep(b) => PoolLocks(s, b);
    case _ => OtherLocks(s, a);
  }

  /** Deletes wait for locks all along the run. */
  ghost predicate Locking(states: seq<State>, steps: seq<Step>)
    requires |states| == |steps| + 1
  {
    forall k | 0 <= k < |steps| :: RespectsLocks(states[k], steps[k])
  }

  lemma {:induction false} RunKeepsLocked(mimes: map<Id, MimeType>, states: seq<State>, steps: seq<Step>, i: nat)
    requires IsRun(mimes, states, steps) && i < |states| && Locking(states, steps)
    ensures LockedFilesStay(states[i])
  {
    if i > 0 {
      RunKeepsLocked(mimes, states, steps, i - 1);
      assert RespectsLocks(states[i - 1], steps[i - 1]);
      StepKeepsLocked(states[i - 1], steps[i - 1]);
    }
  }

  /** In every state that a run with locks reaches, the file of an open transaction is there, its commit meets every
      key, and so does each of its inserts on an id nobody has drawn: no key ever fails a media transaction. */
  lemma NothingIsRefused(mimes: map<Id, MimeType>, states: seq<State>, steps: seq<Step>, i: nat, p: Id, id: Id)
    requires IsRun(mimes, states, steps) && i < |states| && Locking(states, steps)
    requires IsBusy(states[i], p) && (states[i].procs[p].loop.at.Open? || states[i].procs[p].loop.at.Putting?)
    requires Fresh(states[i], {id})
    ensures var w, b := states[i].w, states[i].procs[p].loop;
      && b.file in w.files && b.storage in w.storages
      && (b.at.Open? ==> CanCommit(w, b.at.t.tx))
      && (b.at.Open? && |b.at.t.done| < |b.at.t.Plan()| ==>
            forall size: nat :: CanInsertFileTx(w, b.at.t.tx, id, NextRow(b.at.t, id, size)))
      && (b.at.Putting? ==>
            |b.at.t.done| < |b.at.t.Plan()| && CanInsertDetailTx(w, b.at.t.tx, id, NextLink(b.at.t, b.at.id)))
  {
    RunKeepsLocked(mimes, states, steps, i);
    assert Locks(states[i], p, states[i].procs[p].loop.file);
    StorageStays(mimes, states, steps, i, p);
    InsertsRefusedIff(mimes, states, steps, i, p, id);
    if states[i].procs[p].loop.at.Open? { CommitRefusedIffFileGone(mimes, states, steps, i, p); }
  }

  lemma StorageStays(mimes: map<Id, MimeType>, states: seq<State>, steps: seq<Step>, i: nat, p: Id)
    requires IsRun(mimes, states, steps) && i < |states| && IsBusy(states[i], p)
    requires states[i].procs[p].loop.file in states[i].w.files
    ensures states[i].procs[p].loop.storage in states[i].w.storages
  {
    RunKeepsInv(mimes, states, steps, i);
    var b := states[i].procs[p].loop;
    assert ProcOk(states[i].w, states[i].procs[p]);
    StorageIsThere(states[i].w, b.job, b.storage, b.file, b.at);
  }
}

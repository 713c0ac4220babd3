/** Upload all or nothing, whatever else runs beside it. */
module UploadAtomicity {
  import opened Text
  import opened MediaKind
  import opened Tables
  import opened Protocol
  import opened Invariant
  import opened Preservation
  import opened Safety

  /** Nobody deletes the file or its storage while it is being uploaded, its handler does not die, and
      the two deletes of a rollback succeed. Every other call may fail. */
  predicate Undisturbed(s: State, a: Step, f: Id) {
    match a
    case DropStorage(sid) => f in s.w.files ==> s.w.files[f].storage != sid
    case HandlerStep(SoftDelete(_, g)) => g != f
    case UploadStep(p, UndoObject(ok)) => ok || (p in s.procs && s.procs[p].Upload? && s.procs[p].file != f)
    case UploadStep(p, UndoInsert(ok)) => ok || (p in s.procs && s.procs[p].Upload? && s.procs[p].file != f)
    case Crash(p) => p in s.procs && !(s.procs[p].Upload? && s.procs[p].file == f)
    case _ => true
  }

  /** Process `p` is uploading `f`; the row is unpublished, and its object, if any, is the row's. */
  ghost predicate InFlight(s: State, f: Id, p: Id) {
    && f in s.w.files && s.w.files[f].status == Uploading && !s.w.files[f].excluded
    && p in s.procs && s.procs[p].Upload? && s.procs[p].file == f && s.procs[p].stage != Live
    && s.procs[p].storage == s.w.files[f].storage
    && (forall k <- s.w.blobs :: k.dir == f ==> k == s.procs[p].path && s.procs[p].stage != UndoRow)
  }

  /** The row is published with its object. */
  ghost predicate Landed(s: State, f: Id) {
    && f in s.w.files && s.w.files[f].status == Published && !s.w.files[f].excluded
    && Stored(s.w, s.w.files[f].realPath, s.w.files[f].size)
  }

  /** Neither row nor object, and nobody who could make one. */
  ghost predicate Vanished(s: State, f: Id) {
    && f !in s.w.files && f in s.used
    && (forall k <- s.w.blobs :: k.dir != f)
    && (forall p <- s.procs :: FileKey(f) !in Owns(s.procs[p]))
  }

  ghost predicate Settling(s: State, f: Id, p: Id) {
    InFlight(s, f, p) || Landed(s, f) || Vanished(s, f)
  }

  // ---------- Vanished files stay away ----------

  lemma UploadsDoNotRevive(s: State, p: Id, a: UploadAct, f: Id)
    requires UploadEnabled(s, p, a) && ProcOk(s.w, s.procs[p]) && Vanished(s, f)
    ensures Vanished(ApplyUpload(s, p, a), f)
  {
    assert FileKey(s.procs[p].file) in Owns(s.procs[p]);
  }

  lemma HandlersDoNotRevive(s: State, a: HandlerAct, f: Id)
    requires HandlerEnabled(s, a) && Vanished(s, f)
    ensures Vanished(ApplyHandler(s, a), f)
  {
  }

  lemma UnbornIsOwned(proc: Proc)
    ensures proc.Worker? ==> forall g: Id :: g in Unborn(proc) <==> FileKey(g) in Owns(proc)
  {
  }

  lemma WorkMovesOneProcess(s: State, p: Id, a: WorkAct)
    requires WorkEnabled(s, p, a)
    ensures var t := ApplyWork(s, p, a);
      p in t.procs && t.procs == s.procs[p := t.procs[p]] && s.used <= t.used && t.procs[p].Worker?
  {
  }

  lemma WorkUnborn(s: State, p: Id, a: WorkAct)
    requires WorkEnabled(s, p, a)
    ensures var t := ApplyWork(s, p, a);
      p in t.procs && Unborn(t.procs[p]) <= Unborn(s.procs[p]) + (if a.AddDerived? then {a.file} else {})
  {
  }

  /** A worker acquires a file only by drawing a fresh id for a derived row. */
  lemma WorkAcquires(s: State, p: Id, a: WorkAct, f: Id)
    requires WorkEnabled(s, p, a) && f in s.used && FileKey(f) !in Owns(s.procs[p])
    ensures ApplyWork(s, p, a).procs == s.procs[p := ApplyWork(s, p, a).procs[p]]
    ensures FileKey(f) !in Owns(ApplyWork(s, p, a).procs[p])
    ensures s.used <= ApplyWork(s, p, a).used
  {
    var t := ApplyWork(s, p, a);
    WorkMovesOneProcess(s, p, a);
    WorkUnborn(s, p, a);
    UnbornIsOwned(s.procs[p]);
    UnbornIsOwned(t.procs[p]);
  }

  /** A worker writes objects and rows of its own unborn files only. */
  lemma WorkWrites(s: State, p: Id, a: WorkAct, f: Id)
    requires WorkEnabled(s, p, a) && ProcOk(s.w, s.procs[p]) && FileKey(f) !in Owns(s.procs[p])
    ensures f !in s.w.files ==> f !in ApplyWork(s, p, a).w.files
    ensures forall k <- ApplyWork(s, p, a).w.blobs :: k.dir == f ==> k in s.w.blobs
  {
    UnbornIsOwned(s.procs[p]);
  }

  lemma WorkersDoNotRevive(s: State, p: Id, a: WorkAct, f: Id)
    requires WorkEnabled(s, p, a) && ProcOk(s.w, s.procs[p]) && Vanished(s, f)
    ensures Vanished(ApplyWork(s, p, a), f)
  {
    WorkAcquires(s, p, a, f);
    WorkWrites(s, p, a, f);
  }

  lemma PoolsDoNotRevive(s: State, a: PoolAct, f: Id)
    requires PoolEnabled(s, a) && Vanished(s, f)
    ensures Vanished(ApplyPool(s, a), f)
  {
  }

  lemma OthersDoNotRevive(s: State, a: Step, f: Id)
    requires Enabled(s, a) && (a.NewStorage? || a.DropStorage? || a.BeginUpload? || a.Crash?) && Vanished(s, f)
    ensures Vanished(Apply(s, a), f)
  {
  }

  lemma VanishedStays(s: State, a: Step, f: Id)
    requires Enabled(s, a) && ProcsOk(s) && Vanished(s, f)
    ensures Vanished(Apply(s, a), f)
  {
    match a
    case UploadStep(p, u) => UploadsDoNotRevive(s, p, u, f);
    case HandlerStep(h) => HandlersDoNotRevive(s, h, f);
    case WorkStep(p, b) => WorkersDoNotRevive(s, p, b, f);
    case PoolStep(b) => PoolsDoNotRevive(s, b, f);
    case _ => OthersDoNotRevive(s, a, f);
  }

  // ---------- Present files stay, unless rolled back ----------

  ghost predicate Present(w: World, f: Id) {
    f in w.files && !w.files[f].excluded
  }

  lemma HandlersKeepFile(s: State, a: HandlerAct, f: Id)
    requires HandlerEnabled(s, a) && Present(s.w, f) && Undisturbed(s, HandlerStep(a), f)
    ensures Present(ApplyHandler(s, a).w, f)
  {
  }

  lemma UploadsKeepFile(s: State, p: Id, a: UploadAct, f: Id)
    requires UploadEnabled(s, p, a) && Present(s.w, f)
    requires s.procs[p].file == f ==> !a.UndoInsert?
    ensures Present(ApplyUpload(s, p, a).w, f)
  {
  }

  lemma WorkersKeepFile(s: State, p: Id, a: WorkAct, f: Id)
    requires WorkEnabled(s, p, a) && Present(s.w, f)
    ensures Present(ApplyWork(s, p, a).w, f)
  {
  }

  lemma OthersKeepFile(s: State, a: Step, f: Id)
    requires Enabled(s, a) && !a.UploadStep? && !a.HandlerStep? && !a.WorkStep?
    requires Present(s.w, f) && Undisturbed(s, a, f) && s.w.files.Keys <= s.used
    ensures Present(Apply(s, a).w, f)
  {
  }

  lemma FileStays(s: State, a: Step, f: Id)
    requires Enabled(s, a) && Present(s.w, f) && Undisturbed(s, a, f)
    requires s.w.files.Keys <= s.used
    requires a.UploadStep? && s.procs[a.p].file == f ==> !a.upload.UndoInsert?
    ensures Present(Apply(s, a).w, f)
  {
    match a
    case UploadStep(p, u) => UploadsKeepFile(s, p, u, f);
    case HandlerStep(h) => HandlersKeepFile(s, h, f);
    case WorkStep(p, b) => WorkersKeepFile(s, p, b, f);
    case _ => OthersKeepFile(s, a, f);
  }

  /** A published file lands for good. */
  lemma LandedStays(s: State, a: Step, f: Id)
    requires Inv(s) && Enabled(s, a) && Landed(s, f) && Undisturbed(s, a, f)
    ensures Landed(Apply(s, a), f)
  {
    var t := Apply(s, a);
    if a.UploadStep? { assert ProcOk(s.w, s.procs[a.p]); }
    if a.UploadStep? && s.procs[a.p].file == f {
      assert t.w == s.w;
    } else {
      FileStays(s, a, f);
      StepsOnlyMoveForward(s, a);
      StepKeepsInv(s, a);
      assert FileOk(t.w, f);
    }
  }

  // ---------- Uploads in flight ----------

  /** What the uploading process itself does leads to one of the two outcomes. */
  lemma OwnStepSettles(s: State, p: Id, a: UploadAct, f: Id)
    requires UploadEnabled(s, p, a) && InFlight(s, f, p) && Undisturbed(s, UploadStep(p, a), f)
    requires IdsUsed(s) && OwnersDisjoint(s) && ProcOk(s.w, s.procs[p])
    ensures Settling(ApplyUpload(s, p, a), f, p)
  {
    var t := ApplyUpload(s, p, a);
    assert FileKey(f) in Owns(s.procs[p]);
    if a.UndoInsert? {
      assert Vanished(t, f);
    } else if a.Publish? && a.ok {
      assert Landed(t, f);
    } else {
      assert InFlight(t, f, p);
    }
  }

  lemma OtherUploadsKeepFlight(s: State, q: Id, a: UploadAct, f: Id, p: Id)
    requires UploadEnabled(s, q, a) && q != p && InFlight(s, f, p)
    requires s.procs[q].file != f && s.procs[q].path.dir == s.procs[q].file
    ensures InFlight(ApplyUpload(s, q, a), f, p)
  {
  }

  lemma HandlersKeepFlight(s: State, a: HandlerAct, f: Id, p: Id)
    requires HandlerEnabled(s, a) && InFlight(s, f, p) && Undisturbed(s, HandlerStep(a), f)
    requires s.procs.Keys <= s.used
    ensures InFlight(ApplyHandler(s, a), f, p)
  {
  }

  lemma WorkersKeepFlight(s: State, q: Id, a: WorkAct, f: Id, p: Id)
    requires WorkEnabled(s, q, a) && InFlight(s, f, p)
    requires ProcOk(s.w, s.procs[q]) && FileKey(f) !in Owns(s.procs[q])
    ensures InFlight(ApplyWork(s, q, a), f, p)
  {
    WorkWrites(s, q, a, f);
  }

  lemma PoolsKeepFlight(s: State, a: PoolAct, f: Id, p: Id)
    requires PoolEnabled(s, a) && InFlight(s, f, p) && s.procs.Keys <= s.used
    ensures InFlight(ApplyPool(s, a), f, p)
  {
  }

  lemma OthersKeepFlight(s: State, a: Step, f: Id, p: Id)
    requires Enabled(s, a) && (a.NewStorage? || a.DropStorage? || a.BeginUpload? || a.Crash?)
    requires InFlight(s, f, p) && Undisturbed(s, a, f) && s.procs.Keys <= s.used && s.w.files.Keys <= s.used
    ensures InFlight(Apply(s, a), f, p)
  {
  }

  lemma StepSettles(s: State, a: Step, f: Id, p: Id)
    requires Inv(s) && Enabled(s, a) && Settling(s, f, p) && Undisturbed(s, a, f)
    ensures Settling(Apply(s, a), f, p)
  {
    if Landed(s, f) {
      LandedStays(s, a, f);
    } else if Vanished(s, f) {
      VanishedStays(s, a, f);
    } else {
      assert FileKey(f) in Owns(s.procs[p]);
      match a
      case UploadStep(q, u) =>
        assert ProcOk(s.w, s.procs[q]);
        if q == p {
          OwnStepSettles(s, p, u, f);
        } else {
          assert FileKey(s.procs[q].file) in Owns(s.procs[q]);
          OtherUploadsKeepFlight(s, q, u, f, p);
        }
      case HandlerStep(h) => HandlersKeepFlight(s, h, f, p);
      case WorkStep(q, b) =>
        assert ProcOk(s.w, s.procs[q]);
        WorkersKeepFlight(s, q, b, f, p);
      case PoolStep(b) => PoolsKeepFlight(s, b, f, p);
      case _ => OthersKeepFlight(s, a, f, p);
    }
  }

  // ---------- The promise ----------

  /** Objects live only under ids that were drawn. */
  ghost predicate ObjectsUsed(s: State) {
    forall k <- s.w.blobs :: k.dir in s.used
  }

  lemma UploadKeepsObjectsUsed(s: State, p: Id, a: UploadAct)
    requires ObjectsUsed(s) && UploadEnabled(s, p, a)
    requires ProcIdsUsed(s.procs[p], s.used) && ProcOk(s.w, s.procs[p])
    ensures ObjectsUsed(ApplyUpload(s, p, a))
  {
    assert FileKey(s.procs[p].file) in Owns(s.procs[p]);
  }

  lemma HandlerKeepsObjectsUsed(s: State, a: HandlerAct)
    requires ObjectsUsed(s) && HandlerEnabled(s, a)
    ensures ObjectsUsed(ApplyHandler(s, a))
  {
  }

  lemma WorkKeepsObjectsUsed(s: State, p: Id, a: WorkAct)
    requires ObjectsUsed(s) && WorkEnabled(s, p, a)
    requires ProcIdsUsed(s.procs[p], s.used) && ProcOk(s.w, s.procs[p])
    ensures ObjectsUsed(ApplyWork(s, p, a))
  {
    WorkMovesOneProcess(s, p, a);
    forall k | k in ApplyWork(s, p, a).w.blobs ensures k.dir in s.used {
      if FileKey(k.dir) !in Owns(s.procs[p]) { WorkWrites(s, p, a, k.dir); }
    }
  }

  lemma StepKeepsObjectsUsed(s: State, a: Step)
    requires ObjectsUsed(s) && Enabled(s, a)
    requires forall p <- s.procs :: ProcIdsUsed(s.procs[p], s.used) && ProcOk(s.w, s.procs[p])
    ensures ObjectsUsed(Apply(s, a))
  {
    match a
    case UploadStep(p, u) => UploadKeepsObjectsUsed(s, p, u);
    case HandlerStep(h) => HandlerKeepsObjectsUsed(s, h);
    case WorkStep(p, b) => WorkKeepsObjectsUsed(s, p, b);
    case _ =>
  }

  lemma {:induction false} RunKeepsObjectsUsed(mimes: map<Id, MimeType>, states: seq<State>, steps: seq<Step>, i: nat)
    requires IsRun(mimes, states, steps) && i < |states|
    ensures ObjectsUsed(states[i])
  {
    if i > 0 {
      RunKeepsObjectsUsed(mimes, states, steps, i - 1);
      RunKeepsInv(mimes, states, steps, i - 1);
      assert states[i - 1 + 1] == Apply(states[i - 1], steps[i - 1]);
      StepKeepsObjectsUsed(states[i - 1], steps[i - 1]);
    }
  }

  lemma UploadTakesOff(s: State, p: Id, sid: Id, f: Id, leaf: string, mime: Option<Id>)
    requires ObjectsUsed(s) && Enabled(s, BeginUpload(p, sid, f, leaf, mime))
    ensures InFlight(Apply(s, BeginUpload(p, sid, f, leaf, mime)), f, p)
  {
    assert f !in s.used;
  }

  ghost predicate UndisturbedAfter(states: seq<State>, steps: seq<Step>, b: nat, f: Id)
    requires |states| == |steps| + 1
  {
    forall k :: b < k < |steps| ==> Undisturbed(states[k], steps[k], f)
  }

  lemma SettlesOn(mimes: map<Id, MimeType>, states: seq<State>, steps: seq<Step>, i: nat, f: Id, p: Id)
    requires IsRun(mimes, states, steps) && i < |steps|
    requires Settling(states[i], f, p) && Undisturbed(states[i], steps[i], f)
    ensures Settling(states[i + 1], f, p)
  {
    RunKeepsInv(mimes, states, steps, i);
    StepSettles(states[i], steps[i], f, p);
  }

  lemma {:induction false} UploadSettles(mimes: map<Id, MimeType>, states: seq<State>, steps: seq<Step>, b: nat,
                                         i: nat, p: Id, sid: Id, f: Id, leaf: string, mime: Option<Id>)
    requires IsRun(mimes, states, steps) && b < i < |states|
    requires steps[b] == BeginUpload(p, sid, f, leaf, mime)
    requires UndisturbedAfter(states, steps, b, f)
    ensures Settling(states[i], f, p)
  {
    if i == b + 1 {
      RunKeepsObjectsUsed(mimes, states, steps, b);
      UploadTakesOff(states[b], p, sid, f, leaf, mime);
    } else {
      UploadSettles(mimes, states, steps, b, i - 1, p, sid, f, leaf, mime);
      SettlesOn(mimes, states, steps, i - 1, f, p);
    }
  }

  /** Once an upload that passed its insert is no longer in flight, there is a published row with its
      object, or neither row nor object, whichever of its calls failed and whatever ran beside it. */
  lemma UploadAllOrNothing(mimes: map<Id, MimeType>, states: seq<State>, steps: seq<Step>, b: nat, i: nat, p: Id,
                           sid: Id, f: Id, leaf: string, mime: Option<Id>)
    requires IsRun(mimes, states, steps) && b < i < |states|
    requires steps[b] == BeginUpload(p, sid, f, leaf, mime)
    requires UndisturbedAfter(states, steps, b, f)
    requires p in states[i].procs && states[i].procs[p].Upload? ==> states[i].procs[p].stage == Live
    ensures var w := states[i].w;
            || (f in w.files && w.files[f].status == Published && Stored(w, w.files[f].realPath, w.files[f].size))
            || (f !in w.files && forall k <- w.blobs :: k.dir != f)
  {
    UploadSettles(mimes, states, steps, b, i, p, sid, f, leaf, mime);
  }
}

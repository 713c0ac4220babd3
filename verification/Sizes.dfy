/** GetStorage's total_size and what it means. */
module Sizes {
  import opened Text
  import opened MediaKind
  import opened Tables
  import opened Protocol
  import opened Invariant
  import opened Preservation

  // ---------- Finite sums ----------

  ghost function Sum(m: map<Id, nat>): nat {
    if m == map[] then 0
    else var k :| k in m; m[k] + Sum(m - {k})
  }

  /** The sum does not depend on the order of summation. */
  lemma {:induction false} SumRemove(m: map<Id, nat>, k: Id)
    requires k in m
    ensures Sum(m) == m[k] + Sum(m - {k})
    decreases |m|
  {
    var j :| j in m && Sum(m) == m[j] + Sum(m - {j});
    if j != k {
      SumRemove(m - {j}, k);
      SumRemove(m - {k}, j);
      assert m - {j} - {k} == m - {k} - {j};
    }
  }

  lemma SumSet(m: map<Id, nat>, k: Id, v: nat)
    ensures Sum(m[k := v]) == Sum(m - {k}) + v
    ensures k in m ==> Sum(m - {k}) == Sum(m) - m[k]
    ensures k !in m ==> Sum(m - {k}) == Sum(m)
  {
    SumRemove(m[k := v], k);
    assert m[k := v] - {k} == m - {k};
    if k in m { SumRemove(m, k); } else { assert m - {k} == m; }
  }

  // ---------- The two totals ----------

  /** Per row, what SUM(size) FILTER (excluded = false) adds for the storage. */
  function SizeColumn(w: World, sid: Id): map<Id, nat> {
    map f | f in w.files :: if w.files[f].storage == sid && !w.files[f].excluded then w.files[f].size else 0
  }

  /** Per row, the length of the object that a reader of the row gets. */
  function ReadableBytes(w: World, sid: Id): map<Id, nat> {
    map f | f in w.files ::
      if w.files[f].storage == sid && !w.files[f].excluded && w.files[f].status == Published
         && w.files[f].realPath.Some? && w.files[f].realPath.value in w.blobs
      then |w.blobs[w.files[f].realPath.value]| else 0
  }

  ghost function TotalSize(w: World, sid: Id): nat {
    Sum(SizeColumn(w, sid))
  }

  /** In every reachable state total_size is the number of bytes the storage can serve. */
  lemma TotalSizeIsReadableBytes(mimes: map<Id, MimeType>, states: seq<State>, steps: seq<Step>, i: nat, sid: Id)
    requires IsRun(mimes, states, steps) && i < |states|
    ensures TotalSize(states[i].w, sid) == Sum(ReadableBytes(states[i].w, sid))
  {
    RunKeepsInv(mimes, states, steps, i);
    var w := states[i].w;
    forall f | f in w.files ensures SizeColumn(w, sid)[f] == ReadableBytes(w, sid)[f] {
      assert FileOk(w, f);
    }
    assert SizeColumn(w, sid) == ReadableBytes(w, sid);
  }

  // ---------- What moves it ----------

  /** Publishing an upload that is not in the trash adds exactly the bytes that Put stored. */
  lemma PublishAddsStoredBytes(s: State, p: Id, sid: Id)
    requires Inv(s) && UploadEnabled(s, p, Publish(true))
    ensures var u := s.procs[p];
            var t := ApplyUpload(s, p, Publish(true));
            TotalSize(t.w, sid) == TotalSize(s.w, sid) +
              if HasFile(s.w, sid, u.file, false) then |s.w.blobs[u.path]| else 0
  {
    var u := s.procs[p];
    var t := ApplyUpload(s, p, Publish(true));
    assert ProcOk(s.w, u);
    if u.file in s.w.files {
      assert FileOk(s.w, u.file);
      SumSet(SizeColumn(s.w, sid), u.file, SizeColumn(t.w, sid)[u.file]);
      assert SizeColumn(t.w, sid) == SizeColumn(s.w, sid)[u.file := SizeColumn(t.w, sid)[u.file]];
    }
  }

  /** A soft delete subtracts the row's size, once. */
  lemma SoftDeleteSubtracts(w: World, sid: Id, f: Id)
    ensures TotalSize(SetFileExcluded(w, sid, f, true), sid) ==
            TotalSize(w, sid) - if HasFile(w, sid, f, false) then w.files[f].size else 0
  {
    var v := SetFileExcluded(w, sid, f, true);
    if HasFile(w, sid, f, false) {
      SumSet(SizeColumn(w, sid), f, 0);
      assert SizeColumn(v, sid) == SizeColumn(w, sid)[f := 0];
    }
  }

  /** Dropping one row subtracts what it counted. */
  lemma DropSubtracts(w: World, sid: Id, f: Id)
    requires f in w.files
    ensures TotalSize(DropFiles(w, {f}), sid) == TotalSize(w, sid) - SizeColumn(w, sid)[f]
  {
    SumRemove(SizeColumn(w, sid), f);
    assert SizeColumn(DropFiles(w, {f}), sid) == SizeColumn(w, sid) - {f};
  }

  /** A permanent delete changes no storage's total, and neither does undoing an upload. */
  lemma PermaDeleteIsFree(w: World, sid: Id, owner: Id, f: Id)
    ensures TotalSize(PermaDeleteFile(w, owner, f), sid) == TotalSize(w, sid)
  {
    if HasFile(w, owner, f, true) { DropSubtracts(w, sid, f); }
  }

  lemma UndoUploadIsFree(w: World, sid: Id, owner: Id, f: Id)
    requires FilesOk(w)
    ensures TotalSize(DeleteFailedUploadingFile(w, owner, f), sid) == TotalSize(w, sid)
  {
    if f in w.files && w.files[f].storage == owner && w.files[f].status == Uploading {
      assert FileOk(w, f);
      DropSubtracts(w, sid, f);
    }
  }

  /** An upload in flight counts zero bytes. */
  lemma BeginUploadIsFree(w: World, sid: Id, owner: Id, f: Id, path: Path, mime: Option<Id>)
    requires f !in w.files
    ensures TotalSize(InsertFile(w, f, UploadRow(owner, path, mime)), sid) == TotalSize(w, sid)
  {
    var v := InsertFile(w, f, UploadRow(owner, path, mime));
    SumSet(SizeColumn(w, sid), f, 0);
    assert SizeColumn(v, sid) == SizeColumn(w, sid)[f := 0];
  }
}

/** The rows of a media job against the tables: rows on new ids for a file that is there meet every key. */
module Additions {
  import opened MediaKind
  import opened Tables
  import opened Plan

  /** A finished transaction whose ids are all new, for a file that has no media yet. */
  ghost predicate Addable(w: World, kind: Kind, task: Task, ds: seq<Derived>) {
    && task.file in w.files && task.storage in w.storages && !HasMedia(w, task.file)
    && (task.decoded.mime.Some? ==> task.decoded.mime.value in w.mimes)
    && Apart(task, ds) && LinksFit(kind, task, ds)
    && task.media !in w.media && task.head !in w.details
    && forall i | 0 <= i < |ds| :: ds[i].file !in w.files && ds[i].link !in w.details
  }

  /** A link belongs to its own file, and to the transaction's media or image row. */
  predicate LinkFits(kind: Kind, task: Task, d: Derived) {
    RowFits(kind, task, d.row, d.file)
  }

  predicate RowFits(kind: Kind, task: Task, row: DetailRow, file: Id) {
    match row
    case SizedDetail(i, f, _, _, _) => i == task.head && f == file && kind == Image
    case ThumbDetail(m, f, _) => m == task.media && f == file
    case _ => false
  }

  predicate LinksFit(kind: Kind, task: Task, ds: seq<Derived>) {
    forall i | 0 <= i < |ds| :: LinkFits(kind, task, ds[i])
  }

  lemma FollowersFit(kind: Kind, task: Task, ds: seq<Derived>)
    requires |ds| <= |PlanOf(kind, task.decoded)| && Follows(ds, PlanOf(kind, task.decoded)[..|ds|], task)
    ensures LinksFit(kind, task, ds)
  {
  }

  /** A row of the transaction is the head row or the link of one derived image. */
  lemma DetailOf(kind: Kind, task: Task, ds: seq<Derived>, d: Id)
    requires Apart(task, ds) && d in TaskTx(kind, task, ds).details
    ensures var row := TaskTx(kind, task, ds).details[d];
      || (d == task.head && row == HeadRow(kind, task))
      || exists i | 0 <= i < |ds| :: d == ds[i].link && row == ds[i].row
  {
    LinkRowsIff(task.head, HeadRow(kind, task), ds, d);
    if d == task.head {
      HeadStays(task.head, HeadRow(kind, task), ds);
    } else {
      var i :| 0 <= i < |ds| && ds[i].link == d;
      LinkRowAt(task.head, HeadRow(kind, task), ds, i);
    }
  }

  lemma FileOf(kind: Kind, task: Task, ds: seq<Derived>, f: Id)
    requires Apart(task, ds) && f in TaskTx(kind, task, ds).files
    ensures exists i | 0 <= i < |ds| ::
      f == ds[i].file && TaskTx(kind, task, ds).files[f]
                      == DerivedRow(task.storage, ds[i].size, Path(f, ds[i].leaf), task.decoded.mime)
  {
    FileRowsIff(task.storage, task.decoded.mime, ds, f);
    var i :| 0 <= i < |ds| && ds[i].file == f;
    FileRowAt(task.storage, task.decoded.mime, ds, i);
  }

  lemma AddKeepsFiles(w: World, kind: Kind, task: Task, ds: seq<Derived>)
    requires Integrity(w) && Addable(w, kind, task, ds)
    ensures FileKeysHold(Merge(w, TaskTx(kind, task, ds))) && TaskTx(kind, task, ds).files.Keys !! w.files.Keys
  {
    var tx := TaskTx(kind, task, ds);
    forall f | f in tx.files
      ensures f !in w.files && tx.files[f].storage == task.storage && tx.files[f].mime == task.decoded.mime
    {
      FileOf(kind, task, ds, f);
    }
  }

  lemma AddKeepsMedia(w: World, tx: Tx, m: Id, file: Id, kind: Kind)
    requires MediaKeysHold(w) && tx.media == map[m := MediaRow(file, kind)]
    requires m !in w.media && file in w.files && !HasMedia(w, file)
    ensures MediaKeysHold(Merge(w, tx))
  {
    var v := Merge(w, tx);
    forall n | n in v.media && n != m
      ensures n in w.media && v.media[n] == w.media[n] && v.media[n].file != file
    {
    }
  }

  lemma AddKeepsJobs(w: World, tx: Tx)
    requires JobKeysHold(w)
    ensures JobKeysHold(Merge(w, tx))
  {
  }

  lemma LinkParents(w: World, kind: Kind, task: Task, ds: seq<Derived>, i: nat)
    requires Addable(w, kind, task, ds) && i < |ds|
    ensures ParentsExist(Merge(w, TaskTx(kind, task, ds)), ds[i].row)
  {
    HeadStays(task.head, HeadRow(kind, task), ds);
    FileRowsIff(task.storage, task.decoded.mime, ds, ds[i].file);
    assert LinkFits(kind, task, ds[i]);
  }

  lemma AddKeepsParents(w: World, kind: Kind, task: Task, ds: seq<Derived>)
    requires Integrity(w) && Addable(w, kind, task, ds)
    ensures var v := Merge(w, TaskTx(kind, task, ds));
      TaskTx(kind, task, ds).details.Keys !! w.details.Keys
      && forall d <- v.details :: ParentsExist(v, v.details[d])
  {
    var tx := TaskTx(kind, task, ds);
    var v := Merge(w, tx);
    forall d | d in tx.details ensures d !in w.details && ParentsExist(v, tx.details[d]) {
      DetailOf(kind, task, ds, d);
      if d != task.head {
        var i :| 0 <= i < |ds| && d == ds[i].link && tx.details[d] == ds[i].row;
        LinkParents(w, kind, task, ds, i);
      } else {
        HeadStays(task.head, HeadRow(kind, task), ds);
      }
    }
    forall d | d in w.details ensures ParentsExist(v, w.details[d]) {
      assert ParentsExist(w, w.details[d]);
    }
  }

  /** A row of the tables and one of the transaction share no unique key: theirs are all new. */
  lemma NoClashAcross(w: World, kind: Kind, task: Task, ds: seq<Derived>, c: Id, d: Id)
    requires Integrity(w) && Addable(w, kind, task, ds) && c in w.details && d in TaskTx(kind, task, ds).details
    ensures var row := TaskTx(kind, task, ds).details[d]; !Clash(w.details[c], row) && !Clash(row, w.details[c])
  {
    DetailOf(kind, task, ds, d);
    assert ParentsExist(w, w.details[c]);
    if d != task.head {
      var i :| 0 <= i < |ds| && d == ds[i].link && TaskTx(kind, task, ds).details[d] == ds[i].row;
      assert LinkFits(kind, task, ds[i]);
    } else {
      HeadStays(task.head, HeadRow(kind, task), ds);
    }
  }

  lemma NoClashWithin(kind: Kind, task: Task, ds: seq<Derived>, c: Id, d: Id)
    requires Apart(task, ds) && LinksFit(kind, task, ds)
    requires c in TaskTx(kind, task, ds).details && d in TaskTx(kind, task, ds).details
    requires Clash(TaskTx(kind, task, ds).details[c], TaskTx(kind, task, ds).details[d])
    ensures c == d
  {
    DetailOf(kind, task, ds, c);
    DetailOf(kind, task, ds, d);
    HeadStays(task.head, HeadRow(kind, task), ds);
    assert forall i | 0 <= i < |ds| :: LinkFits(kind, task, ds[i]);
  }

  /** Addable transactions meet every key. */
  lemma AddableCommits(w: World, kind: Kind, task: Task, ds: seq<Derived>)
    requires Integrity(w) && Addable(w, kind, task, ds)
    ensures CanCommit(w, TaskTx(kind, task, ds))
  {
    var tx := TaskTx(kind, task, ds);
    var v := Merge(w, tx);
    AddKeepsFiles(w, kind, task, ds);
    AddKeepsMedia(w, tx, task.media, task.file, kind);
    AddKeepsJobs(w, tx);
    AddKeepsParents(w, kind, task, ds);
    forall c, d | c in v.details && d in v.details && Clash(v.details[c], v.details[d]) ensures c == d {
      if c in tx.details && d in tx.details {
        NoClashWithin(kind, task, ds, c, d);
      } else if c in tx.details {
        NoClashAcross(w, kind, task, ds, d, c);
      } else if d in tx.details {
        NoClashAcross(w, kind, task, ds, c, d);
      }
    }
  }

  // ---------- The inserts, one by one ----------

  lemma MediaInsertIff(w: World, id: Id, file: Id)
    requires id !in w.media && !HasMedia(w, file)
    ensures CanInsertMediaTx(w, EMPTY_TX, id, file) <==> file in w.files
  {
    assert Merge(w, EMPTY_TX) == w;
  }

  /** The link of a derived image whose row was just inserted meets every key. */
  lemma LinkMeetsKeys(w: World, tx: Tx, kind: Kind, task: Task, ds: seq<Derived>, file: Id, row: DetailRow, link: Id)
    requires Integrity(w) && Addable(w, kind, task, ds) && RowFits(kind, task, row, file)
    requires tx.media == TaskTx(kind, task, ds).media && tx.details == TaskTx(kind, task, ds).details
    requires file in tx.files && file !in w.files && forall i | 0 <= i < |ds| :: ds[i].file != file
    requires link !in w.details && link !in tx.details
    ensures CanInsertDetailTx(w, tx, link, row)
  {
    var base, v := TaskTx(kind, task, ds), Merge(w, tx);
    HeadStays(task.head, HeadRow(kind, task), ds);
    forall c | c in v.details ensures !Clash(v.details[c], row) {
      if c in base.details { LinkIsNot(kind, task, ds, c, row, file); }
      else { assert ParentsExist(w, w.details[c]); }
    }
  }

  lemma LinkIsNot(kind: Kind, task: Task, ds: seq<Derived>, c: Id, row: DetailRow, file: Id)
    requires Apart(task, ds) && LinksFit(kind, task, ds) && c in TaskTx(kind, task, ds).details
    requires (row.SizedDetail? || row.ThumbDetail?) && row.file == file
    requires forall i | 0 <= i < |ds| :: ds[i].file != file
    ensures !Clash(TaskTx(kind, task, ds).details[c], row)
  {
    DetailOf(kind, task, ds, c);
    assert forall i | 0 <= i < |ds| :: LinkFits(kind, task, ds[i]);
  }
}

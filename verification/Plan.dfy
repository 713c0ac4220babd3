/** What a media job puts into its transaction: a media row, its detail row, and, for an image, one derived
    file with its link per planned size and thumbnail, in order (internal/media_processor). */
module Plan {
  import opened Text
  import opened MediaKind
  import opened Tables
  import opened Resizer

  /** A derived image to make: a resized copy or a thumbnail. */
  datatype Link = SizedLink(tag: string, w: nat, h: nat) | ThumbLink(tag: string)

  const THUMB_TAGS := ["SIZE_THUMB_SMALL", "SIZE_THUMB_MEDIUM", "SIZE_THUMB_LARGE"]

  predicate AreBoxes(sizes: seq<Box>) {
    forall b <- sizes :: b.w > 0 && b.h > 0
  }

  /** The boxes that do not upscale, in configuration order. */
  function SizedPlan(origW: int, origH: int, sizes: seq<Box>): seq<Link>
    requires origW > 0 && origH > 0 && AreBoxes(sizes)
  {
    if sizes == [] then []
    else
      var b := sizes[|sizes| - 1];
      var r := ComputeNewImageDimensions(origW, origH, b.w, b.h);
      GuardSkipsUpscalingOnly(origW, origH, b.w, b.h);
      SizedPlan(origW, origH, sizes[..|sizes| - 1]) +
      if Upscales(origW, origH, r) then [] else [SizedLink(SizeTagFromDimensions(r.w, r.h), r.w, r.h)]
  }

  function ThumbPlan(tags: seq<string>): seq<Link> {
    seq(|tags|, i requires 0 <= i < |tags| => ThumbLink(tags[i]))
  }

  function ImagePlan(origW: int, origH: int, sizes: seq<Box>): seq<Link>
    requires origW > 0 && origH > 0 && AreBoxes(sizes)
  {
    SizedPlan(origW, origH, sizes) + ThumbPlan(THUMB_TAGS)
  }

  /** The rest of the object key of a derived image, after its id. */
  function Leaf(l: Link): string {
    match l
    case SizedLink(tag, _, _) => "resized_" + ToLower(tag) + ".jpg"
    case ThumbLink(tag) => tag + ".jpg"
  }

  /** The row that links a derived file to its media or image row. */
  function LinkRow(l: Link, media: Id, image: Id, file: Id): DetailRow {
    match l
    case SizedLink(tag, w, h) => SizedDetail(image, file, tag, w, h)
    case ThumbLink(tag) => ThumbDetail(media, file, tag)
  }

  /** What a worker knows when it begins a transaction: the size of a decoded image, the configured boxes, and
      the JPEG type, if there is one. */
  datatype Decoded = Decoded(w: nat, h: nat, sizes: seq<Box>, mime: Option<Id>)

  predicate IsImage(d: Decoded) {
    d.w > 0 && d.h > 0 && AreBoxes(d.sizes)
  }

  /** Only images have derived files. */
  function PlanOf(kind: Kind, d: Decoded): seq<Link> {
    if kind == Image && IsImage(d) then ImagePlan(d.w, d.h, d.sizes) else []
  }

  /** A job's file and storage, and the ids of its media row and of that row's detail. */
  datatype Task = Task(file: Id, storage: Id, media: Id, head: Id, decoded: Decoded)

  /** A derived image: its file row, its object and the row that links it. */
  datatype Derived = Derived(file: Id, leaf: string, size: nat, link: Id, row: DetailRow)

  function HeadRow(kind: Kind, task: Task): DetailRow {
    match kind
    case Image => ImageDetail(task.media, task.decoded.w, task.decoded.h)
    case Video => VideoDetail(task.media)
    case Document => DocumentDetail(task.media)
  }

  /** The rows that inserting the derived images `ds` in order puts into the transaction. */
  function FileRows(storage: Id, mime: Option<Id>, ds: seq<Derived>): map<Id, FileRow> {
    if ds == [] then map[]
    else
      var d := ds[|ds| - 1];
      FileRows(storage, mime, ds[..|ds| - 1])[d.file := DerivedRow(storage, d.size, Path(d.file, d.leaf), mime)]
  }

  function LinkRows(head: Id, row: DetailRow, ds: seq<Derived>): map<Id, DetailRow> {
    if ds == [] then map[head := row]
    else
      var d := ds[|ds| - 1];
      LinkRows(head, row, ds[..|ds| - 1])[d.link := d.row]
  }

  /** The transaction of a job after the derived images `ds`. */
  function TaskTx(kind: Kind, task: Task, ds: seq<Derived>): Tx {
    Tx(FileRows(task.storage, task.decoded.mime, ds), map[task.media := MediaRow(task.file, kind)],
       LinkRows(task.head, HeadRow(kind, task), ds))
  }

  /** The derived images are those that were planned, in order. */
  ghost predicate Follows(ds: seq<Derived>, plan: seq<Link>, task: Task) {
    && |ds| == |plan|
    && forall i | 0 <= i < |ds| ::
      ds[i].row == LinkRow(plan[i], task.media, task.head, ds[i].file) && ds[i].leaf == Leaf(plan[i])
  }

  /** No two rows share an id. */
  ghost predicate Apart(task: Task, ds: seq<Derived>) {
    && task.media != task.head
    && (forall i | 0 <= i < |ds| :: ds[i].link != task.head)
    && forall i, k | 0 <= i < k < |ds| :: ds[i].file != ds[k].file && ds[i].link != ds[k].link
  }

  lemma FollowsGrows(ds: seq<Derived>, plan: seq<Link>, task: Task, d: Derived, l: Link)
    requires Follows(ds, plan, task)
    requires d.row == LinkRow(l, task.media, task.head, d.file) && d.leaf == Leaf(l)
    ensures Follows(ds + [d], plan + [l], task)
  {
  }

  lemma SizedPlanNext(origW: nat, origH: nat, sizes: seq<Box>, i: nat)
    requires origW > 0 && origH > 0 && i < |sizes| && AreBoxes(sizes)
    ensures var r := ComputeNewImageDimensions(origW, origH, sizes[i].w, sizes[i].h);
            && (!Upscales(origW, origH, r) ==> r.w > 0 && r.h > 0)
            && SizedPlan(origW, origH, sizes[..i + 1]) == SizedPlan(origW, origH, sizes[..i]) +
               if Upscales(origW, origH, r) then [] else [SizedLink(SizeTagFromDimensions(r.w, r.h), r.w, r.h)]
  {
    assert sizes[..i + 1][..i] == sizes[..i];
    GuardSkipsUpscalingOnly(origW, origH, sizes[i].w, sizes[i].h);
  }

  // ---------- The rows of a transaction, one by one ----------

  lemma {:induction false} FileRowsIff(storage: Id, mime: Option<Id>, ds: seq<Derived>, f: Id)
    ensures f in FileRows(storage, mime, ds) <==> exists i | 0 <= i < |ds| :: ds[i].file == f
  {
    if ds != [] {
      var n := |ds| - 1;
      FileRowsIff(storage, mime, ds[..n], f);
      assert forall i | 0 <= i < n :: ds[..n][i] == ds[i];
    }
  }

  lemma {:induction false} LinkRowsIff(head: Id, row: DetailRow, ds: seq<Derived>, d: Id)
    ensures d in LinkRows(head, row, ds) <==> d == head || exists i | 0 <= i < |ds| :: ds[i].link == d
  {
    if ds != [] {
      var n := |ds| - 1;
      LinkRowsIff(head, row, ds[..n], d);
      assert forall i | 0 <= i < n :: ds[..n][i] == ds[i];
    }
  }

  lemma {:induction false} FileRowAt(storage: Id, mime: Option<Id>, ds: seq<Derived>, i: nat)
    requires i < |ds| && forall a, b | 0 <= a < b < |ds| :: ds[a].file != ds[b].file
    ensures ds[i].file in FileRows(storage, mime, ds)
    ensures FileRows(storage, mime, ds)[ds[i].file]
         == DerivedRow(storage, ds[i].size, Path(ds[i].file, ds[i].leaf), mime)
  {
    var n := |ds| - 1;
    if i < n { FileRowAt(storage, mime, ds[..n], i); }
  }

  lemma {:induction false} LinkRowAt(head: Id, row: DetailRow, ds: seq<Derived>, i: nat)
    requires i < |ds| && forall a, b | 0 <= a < b < |ds| :: ds[a].link != ds[b].link
    ensures ds[i].link in LinkRows(head, row, ds) && LinkRows(head, row, ds)[ds[i].link] == ds[i].row
  {
    var n := |ds| - 1;
    if i < n { LinkRowAt(head, row, ds[..n], i); }
  }

  lemma {:induction false} HeadStays(head: Id, row: DetailRow, ds: seq<Derived>)
    requires forall i | 0 <= i < |ds| :: ds[i].link != head
    ensures head in LinkRows(head, row, ds) && LinkRows(head, row, ds)[head] == row
  {
    if ds != [] { HeadStays(head, row, ds[..|ds| - 1]); }
  }

  lemma {:induction false} RowsCount(kind: Kind, task: Task, ds: seq<Derived>)
    requires Apart(task, ds)
    ensures |TaskTx(kind, task, ds).files| == |ds| && |TaskTx(kind, task, ds).details| == |ds| + 1
  {
    if ds != [] {
      var n := |ds| - 1;
      RowsCount(kind, task, ds[..n]);
      FileRowsIff(task.storage, task.decoded.mime, ds[..n], ds[n].file);
      LinkRowsIff(task.head, HeadRow(kind, task), ds[..n], ds[n].link);
    }
  }

  /** The rows of a job, counted: one media row, its detail row, one file row and one link per derived image,
      every one of them in place, and nothing else. */
  lemma TaskRows(kind: Kind, task: Task, ds: seq<Derived>)
    requires Apart(task, ds)
    ensures var tx := TaskTx(kind, task, ds);
      && tx.media == map[task.media := MediaRow(task.file, kind)]
      && |tx.files| == |ds| && |tx.details| == |ds| + 1
      && task.head in tx.details && tx.details[task.head] == HeadRow(kind, task)
      && forall i | 0 <= i < |ds| ::
        && ds[i].file in tx.files
        && tx.files[ds[i].file] == DerivedRow(task.storage, ds[i].size, Path(ds[i].file, ds[i].leaf), task.decoded.mime)
        && ds[i].link in tx.details && tx.details[ds[i].link] == ds[i].row
  {
    var row := HeadRow(kind, task);
    RowsCount(kind, task, ds);
    HeadStays(task.head, row, ds);
    forall i | 0 <= i < |ds|
      ensures ds[i].file in FileRows(task.storage, task.decoded.mime, ds) && ds[i].link in LinkRows(task.head, row, ds)
      ensures FileRows(task.storage, task.decoded.mime, ds)[ds[i].file]
           == DerivedRow(task.storage, ds[i].size, Path(ds[i].file, ds[i].leaf), task.decoded.mime)
      ensures LinkRows(task.head, row, ds)[ds[i].link] == ds[i].row
    {
      FileRowAt(task.storage, task.decoded.mime, ds, i);
      LinkRowAt(task.head, row, ds, i);
    }
  }
}

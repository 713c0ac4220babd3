/** The rows a finished media job adds, column by column: what its plan comes to in the tables. */
module Rows {
  import opened Text
  import opened MediaKind
  import opened Tables
  import opened Plan
  import opened Resizer

  // ---------- One resized copy ----------

  /** The box asks for no more than the shorter side of the original. */
  predicate Fits(origW: int, origH: int, b: Box) {
    if origH > origW then b.w <= origW else b.h <= origH
  }

  /** The integer nearest to long * target / short, halves up. */
  predicate IsNearest(side: int, long: int, target: int, short: int) {
    2 * (side * short) <= 2 * (long * target) + short < 2 * (side * short) + 2 * short
  }

  /** The shorter side is the one of the box, and the longer one keeps the aspect. */
  predicate HasSides(origW: int, origH: int, b: Box, w: int, h: int) {
    if origH > origW then w == b.w && IsNearest(h, origH, b.w, origW) else h == b.h && IsNearest(w, origW, b.h, origH)
  }

  const THRESHOLDS := [(1280, 864), (2048, 1376), (3200, 2144), (4096, 2752), (8192, 5472)]
  const TAGS := ["SIZE_VGA", "SIZE_1K", "SIZE_2K", "SIZE_3K", "SIZE_4K", "SIZE_8K"]
  const LEAVES := ["resized_size_vga.jpg", "resized_size_1k.jpg", "resized_size_2k.jpg", "resized_size_3k.jpg",
                   "resized_size_4k.jpg", "resized_size_8k.jpg"]

  predicate Passes(w: int, h: int, n: nat)
    requires n < 5
  {
    w >= THRESHOLDS[n].0 && h >= THRESHOLDS[n].1
  }

  /** The tag and the end of the object key belong to the highest threshold passed. */
  predicate IsTagged(w: int, h: int, tag: string, leaf: string) {
    exists n: nat | n <= 5 :: TaggedAt(n, w, h, tag, leaf)
  }

  predicate TaggedAt(n: nat, w: int, h: int, tag: string, leaf: string)
    requires n <= 5
  {
    tag == TAGS[n] && leaf == LEAVES[n] && (n > 0 ==> Passes(w, h, n - 1)) && (n < 5 ==> !Passes(w, h, n))
  }

  ghost predicate IsCopy(d: Derived, origW: int, origH: int, b: Box, image: Id) {
    && d.row.SizedDetail? && d.row.image == image && d.row.file == d.file
    && HasSides(origW, origH, b, d.row.width, d.row.height)
    && IsTagged(d.row.width, d.row.height, d.row.tag, d.leaf)
  }

  ghost predicate IsThumb(d: Derived, tag: string, media: Id) {
    d.row == ThumbDetail(media, d.file, tag) && d.leaf == tag + ".jpg"
  }

  // ---------- All derived images ----------

  /** The positions of the boxes that fit, in order. */
  ghost predicate AreKept(kept: seq<nat>, origW: int, origH: int, sizes: seq<Box>) {
    && (forall i, k | 0 <= i < k < |kept| :: kept[i] < kept[k])
    && (forall i <- kept :: i < |sizes|)
    && forall i | 0 <= i < |sizes| :: Fits(origW, origH, sizes[i]) <==> i in kept
  }

  ghost predicate AreCopies(ds: seq<Derived>, kept: seq<nat>, origW: int, origH: int, sizes: seq<Box>, image: Id) {
    && |ds| == |kept|
    && forall i | 0 <= i < |ds| :: kept[i] < |sizes| && IsCopy(ds[i], origW, origH, sizes[kept[i]], image)
  }

  /** One copy for each box that fits, in the order of the configuration, and then the three thumbnails. */
  ghost predicate AreDerived(ds: seq<Derived>, decoded: Decoded, media: Id, image: Id) {
    var n := |ds| - 3;
    && n >= 0
    && (exists kept: seq<nat> ::
          AreKept(kept, decoded.w, decoded.h, decoded.sizes)
          && AreCopies(ds[..n], kept, decoded.w, decoded.h, decoded.sizes, image))
    && IsThumb(ds[n], "SIZE_THUMB_SMALL", media) && IsThumb(ds[n + 1], "SIZE_THUMB_MEDIUM", media)
    && IsThumb(ds[n + 2], "SIZE_THUMB_LARGE", media)
  }

  // ---------- The tables ----------

  ghost predicate MediaGrows(u: World, v: World, media: Id, row: MediaRow) {
    media !in u.media && v.media == u.media[media := row]
  }

  /** The file rows are the old ones and one published row for each derived image, whose object is stored. */
  ghost predicate FilesGrow(u: World, v: World, storage: Id, mime: Option<Id>, ds: seq<Derived>) {
    && (forall f :: f in v.files <==> f in u.files || exists i | 0 <= i < |ds| :: ds[i].file == f)
    && (forall f <- u.files :: v.files[f] == u.files[f])
    && forall i | 0 <= i < |ds| ::
      var path := Path(ds[i].file, ds[i].leaf);
      && ds[i].file !in u.files
      && v.files[ds[i].file] == FileRow(storage, Published, false, ds[i].size, Some(path), mime, true)
      && path in v.blobs && |v.blobs[path]| == ds[i].size
  }

  /** The detail rows are the old ones, the one of the media row, and the links of the derived images. */
  ghost predicate DetailsGrow(u: World, v: World, head: Id, row: DetailRow, ds: seq<Derived>) {
    && (forall d :: d in v.details <==> d in u.details || d == head || exists i | 0 <= i < |ds| :: ds[i].link == d)
    && (forall d <- u.details :: v.details[d] == u.details[d])
    && head !in u.details && v.details[head] == row
    && forall i | 0 <= i < |ds| :: ds[i].link !in u.details && v.details[ds[i].link] == ds[i].row
  }

  ghost predicate Grows(u: World, v: World, f: Id, storage: Id, kind: Kind, media: Id, head: Id, row: DetailRow,
                        mime: Option<Id>, ds: seq<Derived>)
  {
    && v == u.(files := v.files, media := v.media, details := v.details, blobs := v.blobs)
    && MediaGrows(u, v, media, MediaRow(f, kind)) && FilesGrow(u, v, storage, mime, ds)
    && DetailsGrow(u, v, head, row, ds)
    && forall i, k | 0 <= i < k < |ds| :: ds[i].file != ds[k].file && ds[i].link != ds[k].link
  }

  /** A media job for file `f` has added its rows, and nothing else: for an image the image row, the resized copies
      and the thumbnails, for a video or a document its one row. */
  ghost predicate MediaMade(u: World, v: World, kind: Kind, task: Task, ds: seq<Derived>) {
    var (f, m, h) := (task.file, task.media, task.head);
    var (d, mime) := (task.decoded, task.decoded.mime);
    match kind
    case Image =>
      Grows(u, v, f, task.storage, Image, m, h, ImageDetail(m, d.w, d.h), mime, ds) && AreDerived(ds, d, m, h)
    case Video => Grows(u, v, f, task.storage, Video, m, h, VideoDetail(m), mime, ds) && ds == []
    case Document => Grows(u, v, f, task.storage, Document, m, h, DocumentDetail(m), mime, ds) && ds == []
  }

  // ---------- The plan comes to these rows ----------

  lemma RoundIsNearest(long: int, target: int, short: int)
    requires short > 0 && long >= 0 && target >= 0
    ensures IsNearest(Round(Scaled(long, target, short)), long, target, short)
  {
    var x := Scaled(long, target, short);
    var r := Round(x);
    var s, p := short as real, (long * target) as real;
    ScaledTimes(long, target, short);
    ScaledIsPositive(long, target, short);
    TimesMonotone(r as real, x + 0.5, s);
    TimesMonotoneStrictly(x + 0.5, r as real + 1.0, s);
    Halves(x, s, p);
    CastTimes(r, short);
    assert (r as real + 1.0) * s == r as real * s + s;
  }

  lemma Halves(x: real, s: real, p: real)
    requires x * s == p
    ensures (x + 0.5) * s == p + s / 2.0
  {
  }

  lemma TimesMonotone(a: real, b: real, s: real)
    requires a <= b && s > 0.0
    ensures a * s <= b * s
  {
  }

  lemma TimesMonotoneStrictly(a: real, b: real, s: real)
    requires a < b && s > 0.0
    ensures a * s < b * s
  {
  }

  lemma ScaledIsPositive(long: int, target: int, short: int)
    requires short > 0 && long >= 0 && target >= 0
    ensures Scaled(long, target, short) >= 0.0
  {
    ScaledMonotone(if long > 0 then long else 1, 0, target, short);
  }

  /** The computed sides are those of the box, exactly and to the nearest pixel. */
  lemma SidesAreRight(origW: int, origH: int, b: Box)
    requires origW > 0 && origH > 0 && b.w > 0 && b.h > 0
    ensures var r := ComputeNewImageDimensions(origW, origH, b.w, b.h);
      HasSides(origW, origH, b, r.w, r.h) && (Upscales(origW, origH, r) <==> !Fits(origW, origH, b))
  {
    GuardSkipsUpscalingOnly(origW, origH, b.w, b.h);
    if origH > origW {
      ScaledBySelf(origW, b.w);
      RoundIsNearest(origH, b.w, origW);
    } else {
      ScaledBySelf(origH, b.h);
      RoundIsNearest(origW, b.h, origH);
    }
  }

  lemma LeafNames()
    ensures LEAVES[0] == "resized_" + ToLower(TAGS[0]) + ".jpg" && LEAVES[1] == "resized_" + ToLower(TAGS[1]) + ".jpg"
    ensures LEAVES[2] == "resized_" + ToLower(TAGS[2]) + ".jpg" && LEAVES[3] == "resized_" + ToLower(TAGS[3]) + ".jpg"
    ensures LEAVES[4] == "resized_" + ToLower(TAGS[4]) + ".jpg" && LEAVES[5] == "resized_" + ToLower(TAGS[5]) + ".jpg"
  {
    assert ToLower("SIZE_VGA") == "size_vga" && ToLower("SIZE_1K") == "size_1k" && ToLower("SIZE_2K") == "size_2k";
    assert ToLower("SIZE_3K") == "size_3k" && ToLower("SIZE_4K") == "size_4k" && ToLower("SIZE_8K") == "size_8k";
  }

  lemma TagNumber(w: int, h: int) returns (n: nat)
    ensures n <= 5 && SizeTagFromDimensions(w, h) == TAGS[n]
    ensures (n > 0 ==> Passes(w, h, n - 1)) && (n < 5 ==> !Passes(w, h, n))
  {
    assert Passes(w, h, 0) <==> w >= 1280 && h >= 864;
    assert Passes(w, h, 1) <==> w >= 2048 && h >= 1376;
    assert Passes(w, h, 2) <==> w >= 3200 && h >= 2144;
    assert Passes(w, h, 3) <==> w >= 4096 && h >= 2752;
    assert Passes(w, h, 4) <==> w >= 8192 && h >= 5472;
    n := if Passes(w, h, 4) then 5 else if Passes(w, h, 3) then 4 else if Passes(w, h, 2) then 3
         else if Passes(w, h, 1) then 2 else if Passes(w, h, 0) then 1 else 0;
  }

  lemma TagIsRight(w: int, h: int)
    ensures var tag := SizeTagFromDimensions(w, h); IsTagged(w, h, tag, "resized_" + ToLower(tag) + ".jpg")
  {
    var n := TagNumber(w, h);
    LeafNames();
    assert TaggedAt(n, w, h, TAGS[n], LEAVES[n]);
  }

  lemma CopyIsRight(d: Derived, origW: int, origH: int, b: Box, media: Id, image: Id)
    requires origW > 0 && origH > 0 && b.w > 0 && b.h > 0 && Fits(origW, origH, b)
    requires var r := ComputeNewImageDimensions(origW, origH, b.w, b.h);
      r.w >= 0 && r.h >= 0 && var l := SizedLink(SizeTagFromDimensions(r.w, r.h), r.w, r.h);
        d.row == LinkRow(l, media, image, d.file) && d.leaf == Leaf(l)
    ensures IsCopy(d, origW, origH, b, image)
  {
    var r := ComputeNewImageDimensions(origW, origH, b.w, b.h);
    SidesAreRight(origW, origH, b);
    TagIsRight(r.w, r.h);
  }

  lemma KeptGrows(kept: seq<nat>, origW: int, origH: int, sizes: seq<Box>, b: Box)
    requires AreKept(kept, origW, origH, sizes)
    ensures AreKept(if Fits(origW, origH, b) then kept + [|sizes|] else kept, origW, origH, sizes + [b])
  {
    var more := if Fits(origW, origH, b) then kept + [|sizes|] else kept;
    forall i | 0 <= i < |sizes + [b]| ensures Fits(origW, origH, (sizes + [b])[i]) <==> i in more {}
    forall i, k | 0 <= i < k < |more| ensures more[i] < more[k] { assert i < |kept| ==> kept[i] in kept; }
  }

  /** The last box adds its copy, if it fits. */
  lemma LastCopy(ds: seq<Derived>, origW: nat, origH: nat, sizes: seq<Box>, b: Box, task: Task) returns (m: nat)
    requires origW > 0 && origH > 0 && AreBoxes(sizes) && b.w > 0 && b.h > 0
    requires AreBoxes(sizes + [b]) && Follows(ds, SizedPlan(origW, origH, sizes + [b]), task)
    ensures m <= |ds| && Follows(ds[..m], SizedPlan(origW, origH, sizes), task)
    ensures if Fits(origW, origH, b) then |ds| == m + 1 && IsCopy(ds[m], origW, origH, b, task.head) else ds[..m] == ds
  {
    var n := |sizes|;
    assert (sizes + [b])[..n] == sizes && (sizes + [b])[..n + 1] == sizes + [b];
    SizedPlanNext(origW, origH, sizes + [b], n);
    SidesAreRight(origW, origH, b);
    var pre := SizedPlan(origW, origH, sizes);
    m := |pre|;
    if Fits(origW, origH, b) { CopyIsRight(ds[m], origW, origH, b, task.media, task.head); }
  }

  lemma CopiesGrow(ds: seq<Derived>, m: nat, kept: seq<nat>, origW: int, origH: int, sizes: seq<Box>, b: Box, image: Id)
    requires m <= |ds| && AreCopies(ds[..m], kept, origW, origH, sizes, image)
    requires if Fits(origW, origH, b) then |ds| == m + 1 && IsCopy(ds[m], origW, origH, b, image) else ds[..m] == ds
    ensures AreCopies(ds, if Fits(origW, origH, b) then kept + [|sizes|] else kept, origW, origH, sizes + [b], image)
  {
    forall i | 0 <= i < m ensures kept[i] < |sizes| && IsCopy(ds[i], origW, origH, sizes[kept[i]], image) {
      assert ds[..m][i] == ds[i];
    }
  }

  /** What follows the plan of the resized copies are the copies of the boxes that fit. */
  lemma {:induction false} CopiesAreRight(ds: seq<Derived>, origW: nat, origH: nat, sizes: seq<Box>, task: Task)
    returns (kept: seq<nat>)
    requires origW > 0 && origH > 0 && AreBoxes(sizes) && Follows(ds, SizedPlan(origW, origH, sizes), task)
    ensures AreKept(kept, origW, origH, sizes) && AreCopies(ds, kept, origW, origH, sizes, task.head)
  {
    if sizes == [] {
      kept := [];
    } else {
      var n := |sizes| - 1;
      assert sizes == sizes[..n] + [sizes[n]];
      var m := LastCopy(ds, origW, origH, sizes[..n], sizes[n], task);
      kept := CopiesAreRight(ds[..m], origW, origH, sizes[..n], task);
      KeptGrows(kept, origW, origH, sizes[..n], sizes[n]);
      CopiesGrow(ds, m, kept, origW, origH, sizes[..n], sizes[n], task.head);
      if Fits(origW, origH, sizes[n]) { kept := kept + [n]; }
    }
  }

  lemma DerivedAreRight(ds: seq<Derived>, task: Task)
    requires IsImage(task.decoded) && Follows(ds, PlanOf(Image, task.decoded), task)
    ensures AreDerived(ds, task.decoded, task.media, task.head)
  {
    var d := task.decoded;
    var pre := SizedPlan(d.w, d.h, d.sizes);
    var n := |pre|;
    assert PlanOf(Image, d)[..n] == pre && Follows(ds[..n], pre, task);
    var kept := CopiesAreRight(ds[..n], d.w, d.h, d.sizes, task);
    assert |ds| == n + 3;
    forall k | 0 <= k < 3 ensures PlanOf(Image, d)[n + k] == ThumbLink(THUMB_TAGS[k]) {}
    assert PlanOf(Image, d)[n] == ThumbLink(THUMB_TAGS[0]);
  }

  // ---------- The transaction comes to these rows ----------

  lemma MergedFiles(u: World, v: World, kind: Kind, task: Task, ds: seq<Derived>)
    requires Apart(task, ds) && TaskTx(kind, task, ds).files.Keys !! u.files.Keys
    requires v.files == u.files + TaskTx(kind, task, ds).files
    requires forall i | 0 <= i < |ds| :: Stored(v, Some(Path(ds[i].file, ds[i].leaf)), ds[i].size)
    ensures FilesGrow(u, v, task.storage, task.decoded.mime, ds)
  {
    TaskRows(kind, task, ds);
    forall f ensures f in v.files <==> f in u.files || exists i | 0 <= i < |ds| :: ds[i].file == f {
      FileRowsIff(task.storage, task.decoded.mime, ds, f);
    }
    forall i | 0 <= i < |ds|
      ensures ds[i].file !in u.files && v.files[ds[i].file] == TaskTx(kind, task, ds).files[ds[i].file]
    {
      assert ds[i].file in TaskTx(kind, task, ds).files;
    }
  }

  lemma MergedDetails(u: World, v: World, kind: Kind, task: Task, ds: seq<Derived>)
    requires Apart(task, ds) && TaskTx(kind, task, ds).details.Keys !! u.details.Keys
    requires v.details == u.details + TaskTx(kind, task, ds).details
    ensures DetailsGrow(u, v, task.head, HeadRow(kind, task), ds)
  {
    TaskRows(kind, task, ds);
    forall d
      ensures d in v.details <==> d in u.details || d == task.head || exists i | 0 <= i < |ds| :: ds[i].link == d
    {
      LinkRowsIff(task.head, HeadRow(kind, task), ds, d);
    }
    forall i | 0 <= i < |ds|
      ensures ds[i].link !in u.details && v.details[ds[i].link] == ds[i].row
    {
      assert ds[i].link in TaskTx(kind, task, ds).details;
    }
  }

  ghost predicate NewKeys(u: World, tx: Tx) {
    tx.files.Keys !! u.files.Keys && tx.media.Keys !! u.media.Keys && tx.details.Keys !! u.details.Keys
  }

  lemma MergeFields(u: World, v: World, tx: Tx)
    requires v == Merge(u.(blobs := v.blobs), tx)
    ensures v == u.(files := v.files, media := v.media, details := v.details, blobs := v.blobs)
    ensures v.files == u.files + tx.files && v.media == u.media + tx.media && v.details == u.details + tx.details
  {
  }

  lemma MergedMedia(u: World, v: World, m: Id, row: MediaRow)
    requires m !in u.media && v.media == u.media + map[m := row]
    ensures MediaGrows(u, v, m, row)
  {
  }

  lemma MergedRows(u: World, v: World, kind: Kind, task: Task, ds: seq<Derived>)
    requires v == Merge(u.(blobs := v.blobs), TaskTx(kind, task, ds)) && NewKeys(u, TaskTx(kind, task, ds))
    requires Apart(task, ds)
    requires forall i | 0 <= i < |ds| :: Stored(v, Some(Path(ds[i].file, ds[i].leaf)), ds[i].size)
    ensures Grows(u, v, task.file, task.storage, kind, task.media, task.head, HeadRow(kind, task),
                  task.decoded.mime, ds)
  {
    MergeFields(u, v, TaskTx(kind, task, ds));
    MergedFiles(u, v, kind, task, ds);
    MergedDetails(u, v, kind, task, ds);
    assert task.media in TaskTx(kind, task, ds).media;
    MergedMedia(u, v, task.media, MediaRow(task.file, kind));
  }

  /** The commit of a finished transaction on new keys adds exactly these rows. */
  lemma MergeMakesMedia(u: World, v: World, kind: Kind, task: Task, ds: seq<Derived>)
    requires v == Merge(u.(blobs := v.blobs), TaskTx(kind, task, ds)) && NewKeys(u, TaskTx(kind, task, ds))
    requires Apart(task, ds) && Follows(ds, PlanOf(kind, task.decoded), task)
    requires kind == Image ==> IsImage(task.decoded)
    requires forall i | 0 <= i < |ds| :: Stored(v, Some(Path(ds[i].file, ds[i].leaf)), ds[i].size)
    ensures MediaMade(u, v, kind, task, ds)
  {
    MergedRows(u, v, kind, task, ds);
    if kind == Image { DerivedAreRight(ds, task); }
    IsMade(u, v, kind, task, ds);
  }

  lemma IsMade(u: World, v: World, kind: Kind, task: Task, ds: seq<Derived>)
    requires kind != Image ==> ds == []
    requires kind == Image ==> AreDerived(ds, task.decoded, task.media, task.head)
    requires Grows(u, v, task.file, task.storage, kind, task.media, task.head, HeadRow(kind, task),
                  task.decoded.mime, ds)
    ensures MediaMade(u, v, kind, task, ds)
  {
  }
}

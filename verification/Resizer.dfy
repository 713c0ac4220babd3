/** Resize targets (internal/media_processor/image_resizer.go), in exact arithmetic. */
module Resizer {

  datatype Box = Box(w: int, h: int)

  /** math.Round: to the nearest integer, halves away from zero. */
  function Round(x: real): int {
    if x >= 0.0 then (x + 0.5).Floor else -((0.5 - x).Floor)
  }

  /** A side times the factor num / den. */
  function Scaled(side: int, num: int, den: int): real
    requires den > 0
  {
    side as real * (num as real / den as real)
  }

  /** The factor comes from the shorter side. */
  function ComputeNewImageDimensions(origW: int, origH: int, expectedW: int, expectedH: int): Box
    requires origW > 0 && origH > 0
  {
    if origH > origW
    then Box(Round(Scaled(origW, expectedW, origW)), Round(Scaled(origH, expectedW, origW)))
    else Box(Round(Scaled(origW, expectedH, origH)), Round(Scaled(origH, expectedH, origH)))
  }

  /** The guard of insertSizedImageRows that skips a box. */
  predicate Upscales(origW: int, origH: int, r: Box) {
    origW < r.w || origH < r.h
  }

  function SizeTagFromDimensions(w: int, h: int): string {
    if w >= 8192 && h >= 5472 then "SIZE_8K"
    else if w >= 4096 && h >= 2752 then "SIZE_4K"
    else if w >= 3200 && h >= 2144 then "SIZE_3K"
    else if w >= 2048 && h >= 1376 then "SIZE_2K"
    else if w >= 1280 && h >= 864 then "SIZE_1K"
    else "SIZE_VGA"
  }

  // ---------- Arithmetic ----------

  lemma RoundMonotone(x: real, y: real)
    requires x <= y
    ensures Round(x) <= Round(y)
  {
  }

  lemma ScaledBySelf(d: int, x: int)
    requires d > 0
    ensures Scaled(d, x, d) == x as real && Scaled(x, d, d) == x as real
    ensures Round(Scaled(d, x, d)) == x && Round(Scaled(x, d, d)) == x
  {
    assert d as real / d as real == 1.0;
  }

  lemma ScaledMonotone(a: int, x: int, y: int, d: int)
    requires a > 0 && d > 0 && x <= y
    ensures Scaled(a, x, d) <= Scaled(a, y, d)
  {
    var p, q := x as real / d as real, y as real / d as real;
    assert p <= q by { assert (y as real - x as real) / d as real >= 0.0; }
    assert a as real * (q - p) >= 0.0;
  }

  lemma ScaledLongerSide(a: int, x: int, d: int)
    requires 0 < d <= a && x >= 0
    ensures Scaled(a, x, d) >= x as real
  {
    ScaledBySelf(d, x);
    var q := x as real / d as real;
    assert (a as real - d as real) * q >= 0.0;
  }

  lemma ScaledTimes(a: int, x: int, d: int)
    requires d > 0
    ensures Scaled(a, x, d) * d as real == (a * x) as real
  {
    var q := x as real / d as real;
    assert q * d as real == x as real;
    TimesAssoc(a as real, q, d as real);
    CastTimes(a, x);
  }

  lemma TimesAssoc(a: real, b: real, c: real)
    ensures (a * b) * c == a * (b * c)
  {
  }

  lemma CastTimes(a: int, b: int)
    ensures (a * b) as real == a as real * b as real
  {
  }

  // ---------- Geometry ----------

  /** The shorter side of the result is the box's side, exactly, and the longer side is within half a
      pixel of the one that has the original's aspect. */
  lemma AspectIsKept(origW: int, origH: int, ew: int, eh: int)
    requires origW > 0 && origH > 0
    ensures var r := ComputeNewImageDimensions(origW, origH, ew, eh);
            if origH > origW
            then var exact := Scaled(origH, ew, origW);
                 r.w == ew && exact * origW as real == (origH * ew) as real && -0.5 <= r.h as real - exact <= 0.5
            else var exact := Scaled(origW, eh, origH);
                 r.h == eh && exact * origH as real == (origW * eh) as real && -0.5 <= r.w as real - exact <= 0.5
  {
    if origH > origW {
      ScaledBySelf(origW, ew);
      ScaledTimes(origH, ew, origW);
    } else {
      ScaledBySelf(origH, eh);
      ScaledTimes(origW, eh, origH);
    }
  }

  /** Portrait stays portrait, landscape stays landscape. */
  lemma OrientationIsKept(origW: int, origH: int, ew: int, eh: int)
    requires origW > 0 && origH > 0 && ew > 0 && eh > 0
    ensures var r := ComputeNewImageDimensions(origW, origH, ew, eh);
            if origH > origW then r.h >= r.w else r.w >= r.h
  {
    var short, long, x := if origH > origW then origW else origH,
                          if origH > origW then origH else origW, if origH > origW then ew else eh;
    ScaledBySelf(short, x);
    ScaledLongerSide(long, x, short);
    RoundMonotone(x as real, Scaled(long, x, short));
  }

  /** A larger box never gives a smaller image. */
  lemma LargerBoxLargerImage(origW: int, origH: int, b: Box, c: Box)
    requires origW > 0 && origH > 0 && b.w <= c.w && b.h <= c.h
    ensures var r := ComputeNewImageDimensions(origW, origH, b.w, b.h);
            var q := ComputeNewImageDimensions(origW, origH, c.w, c.h);
            r.w <= q.w && r.h <= q.h
  {
    var d, x, y := if origH > origW then origW else origH,
                   if origH > origW then b.w else b.h, if origH > origW then c.w else c.h;
    ScaledMonotone(origW, x, y, d);
    ScaledMonotone(origH, x, y, d);
    RoundMonotone(Scaled(origW, x, d), Scaled(origW, y, d));
    RoundMonotone(Scaled(origH, x, d), Scaled(origH, y, d));
  }

  /** The guard fires exactly when the box's target for the shorter side exceeds the original, so what
      passes it has positive sides no larger than the original's. */
  lemma GuardSkipsUpscalingOnly(origW: int, origH: int, ew: int, eh: int)
    requires origW > 0 && origH > 0 && ew > 0 && eh > 0
    ensures var r := ComputeNewImageDimensions(origW, origH, ew, eh);
            && (Upscales(origW, origH, r) <==> if origH > origW then ew > origW else eh > origH)
            && (!Upscales(origW, origH, r) ==> 1 <= r.w <= origW && 1 <= r.h <= origH)
  {
    var short, long, x := if origH > origW then origW else origH,
                          if origH > origW then origH else origW, if origH > origW then ew else eh;
    ScaledBySelf(short, x);
    ScaledBySelf(short, long);
    OrientationIsKept(origW, origH, ew, eh);
    if x <= short {
      ScaledMonotone(long, x, short, short);
      RoundMonotone(Scaled(long, x, short), Scaled(long, short, short));
    }
  }

  // ---------- Tags ----------

  /** How many of the legacy thresholds a size passes. */
  function Rank(tag: string): nat {
    if tag == "SIZE_8K" then 5 else if tag == "SIZE_4K" then 4 else if tag == "SIZE_3K" then 3
    else if tag == "SIZE_2K" then 2 else if tag == "SIZE_1K" then 1 else 0
  }

  /** Tags order images by size: a larger box never gets a smaller tag. */
  lemma LargerBoxLargerTag(origW: int, origH: int, b: Box, c: Box)
    requires origW > 0 && origH > 0 && b.w <= c.w && b.h <= c.h
    ensures var r := ComputeNewImageDimensions(origW, origH, b.w, b.h);
            var q := ComputeNewImageDimensions(origW, origH, c.w, c.h);
            Rank(SizeTagFromDimensions(r.w, r.h)) <= Rank(SizeTagFromDimensions(q.w, q.h))
  {
    LargerBoxLargerImage(origW, origH, b, c);
  }
}

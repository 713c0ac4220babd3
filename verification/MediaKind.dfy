/** Which files may produce media metadata (internal/media_processor/processor.go). */
module MediaKind {
  import opened Text

  datatype Kind = Image | Video | Document

  /** A row of core_storagefilemimetype; both columns are free text. */
  datatype MimeType = MimeType(mime: string, generic: Option<string>)

  /** MediaCategory: None where the source returns the empty string. */
  function MediaCategory(t: Option<MimeType>): Option<Kind> {
    if t.None? then None
    else
      var g := ToUpper(TrimSpace(if t.value.generic.Some? then t.value.generic.value else ""));
      var mt := ToLower(t.value.mime);
      if g == "IMAGE" then Some(Image)
      else if g == "VIDEO" then Some(Video)
      else if HasPrefix(mt, "image/") then Some(Image)
      else if HasPrefix(mt, "video/") then Some(Video)
      else if mt == "application/pdf" || Contains(mt, "pdf") then Some(Document)
      else if g == "APPLICATION" && Contains(mt, "pdf") then Some(Document)
      else None
  }

  // ---------- What the categories are ----------

  /** The generic name of the type, less space at its ends, is this word, in any case. */
  ghost predicate IsNamed(t: MimeType, word: string) {
    t.generic.Some? && exists name :: IsTrimmed(t.generic.value, name) && Spells(name, word)
  }

  predicate StartsWith(t: MimeType, word: string) {
    |word| <= |t.mime| && Spells(t.mime[..|word|], word)
  }

  ghost predicate Mentions(t: MimeType, word: string) {
    exists a, m, b :: t.mime == a + m + b && Spells(m, word)
  }

  /** The generic name decides when it says image or video; otherwise the MIME type does. */
  ghost predicate LooksLike(t: MimeType, kind: Kind) {
    var named := IsNamed(t, "image") || IsNamed(t, "video");
    var image, video := StartsWith(t, "image/"), StartsWith(t, "video/");
    match kind
    case Image => IsNamed(t, "image") || (!IsNamed(t, "video") && image)
    case Video => IsNamed(t, "video") || (!IsNamed(t, "image") && video)
    case Document => !named && !image && !video && Mentions(t, "pdf")
  }

  lemma NamedIff(t: MimeType, word: string, upper: string)
    requires word != [] && |upper| == |word|
    requires forall i | 0 <= i < |word| :: 'a' <= word[i] <= 'z' && upper[i] as int == word[i] as int - 32
    ensures ToUpper(TrimSpace(if t.generic.Some? then t.generic.value else "")) == upper <==> IsNamed(t, word)
  {
    var g := if t.generic.Some? then t.generic.value else "";
    ToUpperSpells(TrimSpace(g), word, upper);
    TrimSpaceIs(g);
    if IsNamed(t, word) {
      var name :| IsTrimmed(g, name) && Spells(name, word);
      TrimSpaceIff(g, name);
    }
  }

  lemma StartsIff(t: MimeType, word: string)
    requires IsLower(word)
    ensures HasPrefix(ToLower(t.mime), word) <==> StartsWith(t, word)
  {
    if |word| <= |t.mime| {
      ToLowerSpells(t.mime[..|word|], word);
      assert ToLower(t.mime)[..|word|] == ToLower(t.mime[..|word|]);
    }
  }

  lemma LowerParts(a: string, m: string, b: string)
    ensures ToLower(a + m + b) == ToLower(a) + ToLower(m) + ToLower(b)
  {
  }

  lemma ThreeParts(s: string, a: string, m: string, b: string)
    requires |s| == |a| + |m| + |b|
    ensures s == s[..|a|] + s[|a|..|a| + |m|] + s[|a| + |m|..]
  {
  }

  lemma SameParts(a: string, m: string, b: string, c: string, n: string, d: string)
    requires a + m + b == c + n + d && |a| == |c| && |m| == |n|
    ensures m == n
  {
    assert m == (a + m + b)[|a|..|a| + |m|] && n == (c + n + d)[|a|..|a| + |m|];
  }

  lemma MentionsIff(t: MimeType, word: string)
    requires IsLower(word)
    ensures Contains(ToLower(t.mime), word) <==> Mentions(t, word)
  {
    var s := t.mime;
    ContainsIff(ToLower(s), word);
    if a, b :| ToLower(s) == a + word + b {
      var i, j := |a|, |a| + |word|;
      ThreeParts(s, a, word, b);
      LowerParts(s[..i], s[i..j], s[j..]);
      SameParts(a, word, b, ToLower(s[..i]), ToLower(s[i..j]), ToLower(s[j..]));
      ToLowerSpells(s[i..j], word);
    }
    if a, m, b :| s == a + m + b && Spells(m, word) {
      ToLowerSpells(m, word);
      LowerParts(a, m, b);
    }
  }

  lemma PdfMentionsPdf(t: MimeType)
    requires ToLower(t.mime) == "application/pdf"
    ensures Contains(ToLower(t.mime), "pdf")
  {
    assert "pdf" <= "application/pdf"[12..];
  }

  /** The category of a type, said of its two columns: each kind exactly under its own condition, and none when
      there is no type or no condition holds. */
  lemma CategoryIff(t: Option<MimeType>)
    ensures forall kind :: MediaCategory(t) == Some(kind) <==> t.Some? && LooksLike(t.value, kind)
    ensures MediaCategory(t) == None <==>
      t.None? || !(IsNamed(t.value, "image") || IsNamed(t.value, "video") || StartsWith(t.value, "image/")
                   || StartsWith(t.value, "video/") || Mentions(t.value, "pdf"))
  {
    if t.Some? {
      NamedIff(t.value, "image", "IMAGE");
      NamedIff(t.value, "video", "VIDEO");
      StartsIff(t.value, "image/");
      StartsIff(t.value, "video/");
      MentionsIff(t.value, "pdf");
      if ToLower(t.value.mime) == "application/pdf" { PdfMentionsPdf(t.value); }
      var mt := ToLower(t.value.mime);
      assert !(HasPrefix(mt, "image/") && HasPrefix(mt, "video/")) by { assert "image/"[0] != "video/"[0]; }
      forall kind ensures MediaCategory(t) == Some(kind) <==> LooksLike(t.value, kind) {
        match kind
        case Image =>
        case Video =>
        case Document =>
      }
    }
  }
}

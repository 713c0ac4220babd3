/** How a value is written after `KEY=` and read back (internal/userver_auth/envpersist.go). */
module EnvValue {
  import opened Text

  // ---------- Reading ----------

  /** The four escapes; any other backslash stands for itself. */
  function Unescape(s: string): string {
    if s == [] then []
    else if s[0] == '\\' && |s| > 1 && s[1] in "\"\\nr" then
      [if s[1] == 'n' then '\n' else if s[1] == 'r' then '\r' else s[1]] + Unescape(s[2..])
    else [s[0]] + Unescape(s[1..])
  }

  function Dequote(v: string): string {
    if |v| >= 2 && v[0] == '"' && v[|v| - 1] == '"' then Unescape(v[1..|v| - 1]) else v
  }

  function ParseValue(raw: string): string {
    Dequote(TrimSpace(TrimSuffix(raw, '\r')))
  }

  /** One round of the reader's loop: what it emits for the rest of the text, and how far it moves. */
  function Unit(rest: string): (u: (string, nat))
    requires rest != []
    ensures 1 <= u.1 <= |rest| && Unescape(rest) == u.0 + Unescape(rest[u.1..])
  {
    if rest[0] == '\\' && |rest| > 1 && rest[1] in "\"\\nr" then
      ([if rest[1] == 'n' then '\n' else if rest[1] == 'r' then '\r' else rest[1]], 2)
    else ([rest[0]], 1)
  }

  lemma UnescapeStep(r: string, inner: string, i: nat)
    requires i < |inner| && r + Unescape(inner[i..]) == Unescape(inner)
    ensures var (emitted, width) := Unit(inner[i..]);
      i + width <= |inner| && (r + emitted) + Unescape(inner[i + width..]) == Unescape(inner)
  {
    var (emitted, width) := Unit(inner[i..]);
    DropDrop(inner, i, width);
    Assoc(r, emitted, Unescape(inner[i + width..]));
  }

  method ParseEnvValue(raw: string) returns (r: string)
    ensures r == ParseValue(raw)
  {
    var v := TrimSpace(TrimSuffix(raw, '\r'));
    if !(|v| >= 2 && v[0] == '"' && v[|v| - 1] == '"') {
      return v;
    }
    var inner := v[1..|v| - 1];
    r := [];
    var i := 0;
    assert inner[0..] == inner;
    while i < |inner|
      invariant 0 <= i <= |inner|
      invariant r + Unescape(inner[i..]) == Unescape(inner)
    {
      UnescapeStep(r, inner, i);
      if inner[i] == '\\' && i + 1 < |inner| && inner[i + 1] in "\"\\nr" {
        var c := inner[i + 1];
        r := r + [if c == 'n' then '\n' else if c == 'r' then '\r' else c];
        i := i + 2;
      } else {
        r := r + [inner[i]];
        i := i + 1;
      }
    }
  }

  // ---------- Writing ----------

  predicate Special(c: char) {
    c <= ' ' || c == '#' || c == '"' || c == '\'' || c == '=' || c == '$'
  }

  predicate NeedsQuote(s: string) {
    s == [] || exists i :: 0 <= i < |s| && Special(s[i])
  }

  function Escape(c: char): string {
    if c == '"' || c == '\\' then ['\\', c]
    else if c == '\n' then "\\n"
    else if c == '\r' then "\\r"
    else [c]
  }

  function EscapeAll(s: string): string {
    if s == [] then [] else EscapeAll(s[..|s| - 1]) + Escape(s[|s| - 1])
  }

  function FormatValue(s: string): string {
    if NeedsQuote(s) then "\"" + EscapeAll(s) + "\"" else s
  }

  lemma EscapeNext(s: string, i: nat)
    requires i < |s|
    ensures EscapeAll(s[..i + 1]) == EscapeAll(s[..i]) + Escape(s[i])
  {
    assert s[..i + 1][..i] == s[..i];
  }

  /** The scan that decides whether to quote stops at the first special character. */
  method ScanForQuote(s: string) returns (needsQuote: bool)
    ensures needsQuote <==> NeedsQuote(s)
  {
    needsQuote := s == "";
    var i := 0;
    while !needsQuote && i < |s|
      invariant 0 <= i <= |s|
      invariant needsQuote <==> s == "" || exists k | 0 <= k < i :: Special(s[k])
    {
      needsQuote := Special(s[i]);
      i := i + 1;
    }
  }

  method FormatEnvValue(s: string) returns (r: string)
    ensures r == FormatValue(s)
  {
    var needsQuote := ScanForQuote(s);
    if !needsQuote {
      return s;
    }
    r := "\"";
    for i := 0 to |s|
      invariant r == "\"" + EscapeAll(s[..i])
    {
      EscapeNext(s, i);
      Assoc("\"", EscapeAll(s[..i]), Escape(s[i]));
      match s[i] {
        case '"' | '\\' => r := r + ['\\', s[i]];
        case '\n' => r := r + "\\n";
        case '\r' => r := r + "\\r";
        case _ => r := r + [s[i]];
      }
    }
    assert s[..|s|] == s;
    r := r + "\"";
  }

  // ---------- Round trip ----------

  lemma UnescapeEscape(c: char, t: string)
    ensures Unescape(Escape(c) + t) == [c] + Unescape(t)
  {
    var e := Escape(c) + t;
    if |Escape(c)| == 2 { assert e[2..] == t; } else { assert e[1..] == t; }
  }

  lemma {:induction false} UnescapeUndoes(s: string, t: string)
    ensures Unescape(EscapeAll(s) + t) == s + Unescape(t)
  {
    if s == [] {
      assert EscapeAll(s) + t == t;
    } else {
      var n := |s| - 1;
      Assoc(EscapeAll(s[..n]), Escape(s[n]), t);
      UnescapeUndoes(s[..n], Escape(s[n]) + t);
      UnescapeEscape(s[n], t);
      Assoc(s[..n], [s[n]], Unescape(t));
      assert s == s[..n] + [s[n]];
    }
  }

  lemma TrimNothing(s: string)
    requires s != [] && !IsSpace(s[0]) && !IsSpace(s[|s| - 1])
    ensures TrimSpace(s) == s
  {
  }

  lemma {:induction false} TrimLeftOnlyDrops(s: string, c: char)
    ensures c in TrimLeft(s) ==> c in s
  {
    if s != [] && IsSpace(s[0]) { TrimLeftOnlyDrops(s[1..], c); }
  }

  lemma TrimmedEnds(s: string, c: char)
    ensures var t := TrimSpace(s);
      (t != [] ==> !IsSpace(t[0]) && !IsSpace(t[|t| - 1])) && (c in t ==> c in s)
  {
    TrimLeftOnlyDrops(s, c);
  }

  /** The values that survive a write and a read: those that get quoted, and those that neither start nor
      end with a space character above ASCII, which the reader would trim. */
  predicate RoundTrips(s: string) {
    NeedsQuote(s) || (!IsSpace(s[0]) && !IsSpace(s[|s| - 1]))
  }

  lemma RoundTrip(s: string)
    ensures ParseValue(FormatValue(s)) == s <==> RoundTrips(s)
  {
    var f := FormatValue(s);
    if NeedsQuote(s) {
      TrimNothing(f);
      UnescapeUndoes(s, []);
      assert EscapeAll(s) + [] == EscapeAll(s);
      assert f[1..|f| - 1] == EscapeAll(s);
    } else {
      assert forall c <- s :: !Special(c);
      assert s[0] in s && s[|s| - 1] in s;
      TrimmedEnds(s, '"');
      assert TrimSuffix(s, '\r') == s;
      assert '"' !in TrimSpace(s);
      if RoundTrips(s) { TrimNothing(s); }
    }
  }

  lemma {:induction false} EscapedHasNoLineBreak(s: string)
    ensures '\n' !in EscapeAll(s) && '\r' !in EscapeAll(s)
  {
    if s != [] {
      EscapedHasNoLineBreak(s[..|s| - 1]);
    }
  }

  /** What is written stays on one line and does not end it with a stray carriage return. */
  lemma FormatHasNoLineBreak(s: string)
    ensures '\n' !in FormatValue(s) && '\r' !in FormatValue(s)
  {
    EscapedHasNoLineBreak(s);
    if !NeedsQuote(s) {
      forall i | 0 <= i < |s| ensures s[i] != '\n' && s[i] != '\r' { assert !Special(s[i]); }
    }
  }

  // ---------- Trailing spaces ----------

  lemma {:induction false} TrimLeftAppend(s: string, c: char)
    requires IsSpace(c)
    ensures TrimLeft(s + [c]) == (if TrimLeft(s) == [] then [] else TrimLeft(s) + [c])
  {
    if s == [] {
      assert s + [c] == [c];
    } else if IsSpace(s[0]) {
      assert (s + [c])[1..] == s[1..] + [c];
      TrimLeftAppend(s[1..], c);
    }
  }

  lemma TrimAppend(s: string, c: char)
    requires IsSpace(c)
    ensures TrimSpace(s + [c]) == TrimSpace(s)
  {
    TrimLeftAppend(s, c);
    var t := TrimLeft(s);
    if t != [] { assert (t + [c])[..|t|] == t; }
  }

  lemma TrimReturn(raw: string)
    ensures TrimSpace(TrimSuffix(raw, '\r')) == TrimSpace(raw)
  {
    if raw != [] && raw[|raw| - 1] == '\r' {
      assert raw == raw[..|raw| - 1] + ['\r'];
      TrimAppend(raw[..|raw| - 1], '\r');
    }
  }

  /** A trailing carriage return never changes the value that is read. */
  lemma ParseIgnoresReturn(raw: string)
    ensures ParseValue(raw + "\r") == ParseValue(raw)
  {
    assert TrimSuffix(raw + "\r", '\r') == raw;
    TrimReturn(raw);
  }

  // ---------- What is read and written, case by case ----------

  lemma PlainCharacter(c: char, t: string)
    requires c != '\\'
    ensures Unescape([c] + t) == [c] + Unescape(t)
  {
    assert ([c] + t)[1..] == t;
  }

  lemma EscapePair(c: char, t: string)
    ensures Unescape(['\\', c] + t) ==
      match c
      case 'n' => "\n" + Unescape(t)
      case 'r' => "\r" + Unescape(t)
      case '"' => "\"" + Unescape(t)
      case '\\' => "\\" + Unescape(t)
      case _ => "\\" + Unescape([c] + t)
  {
    var e := ['\\', c] + t;
    assert e[2..] == t && e[1..] == [c] + t;
  }

  /** What is read between two quotes is undone escape by escape, and what is not between two quotes is read as it
      is. */
  lemma ParseIs(raw: string)
    ensures var v := TrimSpace(raw);
      && (forall inner :: v == "\"" + inner + "\"" ==> ParseValue(raw) == Unescape(inner))
      && ((forall inner :: v != "\"" + inner + "\"") ==> ParseValue(raw) == v)
  {
    TrimReturn(raw);
    var v := TrimSpace(raw);
    forall inner | v == "\"" + inner + "\"" ensures Dequote(v) == Unescape(inner) {
      assert v[1..|v| - 1] == inner;
    }
    if |v| >= 2 && v[0] == '"' && v[|v| - 1] == '"' { assert v == "\"" + v[1..|v| - 1] + "\""; }
  }

  /** Escapes, from the front: a backslash before n, r, a quote or a backslash goes with it, and any other stands for
      itself, as every other character does. */
  lemma UnescapeIs(c: char, t: string)
    ensures Unescape("") == "" && Unescape("\\") == "\\"
    ensures c != '\\' ==> Unescape([c] + t) == [c] + Unescape(t)
    ensures Unescape(['\\', c] + t) ==
      match c
      case 'n' => "\n" + Unescape(t)
      case 'r' => "\r" + Unescape(t)
      case '"' => "\"" + Unescape(t)
      case '\\' => "\\" + Unescape(t)
      case _ => "\\" + Unescape([c] + t)
  {
    EscapePair(c, t);
    if c != '\\' { PlainCharacter(c, t); }
  }

  /** A value is written as it is exactly when it is not empty and has none of these characters: white space and other
      controls of ASCII, and # " ' = $. Otherwise it is written between two quotes, escaped. */
  lemma FormatIs(s: string)
    ensures var bare := s != "" && forall c <- s :: c as int > 32 && c !in {'#', '"', '\'', '=', '$'};
      FormatValue(s) == if bare then s else "\"" + EscapeAll(s) + "\""
    ensures EscapeAll("") == ""
    ensures forall a: string, c: char :: EscapeAll(a + [c]) == EscapeAll(a) + (
                match c
                case '"' => "\\\""
                case '\\' => "\\\\"
                case '\n' => "\\n"
                case '\r' => "\\r"
                case _ => [c])
  {
    if NeedsQuote(s) && s != "" {
      var i :| 0 <= i < |s| && Special(s[i]);
      assert s[i] in s;
    }
    forall a: string, c: char ensures EscapeAll(a + [c]) == EscapeAll(a) + Escape(c) {
      EscapeNext(a + [c], |a|);
      assert (a + [c])[..|a| + 1] == a + [c] && (a + [c])[..|a|] == a;
    }
  }
}

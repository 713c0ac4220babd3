/** An environment file as a sequence of lines: splitting, joining, and the `KEY=value` pattern
    (internal/userver_auth/envpersist.go). */
module EnvText {
  import opened Text
  import opened EnvValue

  // ---------- Splitting and joining ----------

  /** strings.ReplaceAll(s, "\r\n", "\n"). */
  function NormalizeEol(s: string): string {
    if s == [] then []
    else if |s| > 1 && s[0] == '\r' && s[1] == '\n' then ['\n'] + NormalizeEol(s[2..])
    else [s[0]] + NormalizeEol(s[1..])
  }

  /** strings.Split(s, "\n"). */
  function Split(s: string): (ls: seq<string>)
    ensures ls != []
  {
    if s == [] then [""]
    else if s[0] == '\n' then [""] + Split(s[1..])
    else var rest := Split(s[1..]); [[s[0]] + rest[0]] + rest[1..]
  }

  /** The lines the reader and the editor both see: CRLF becomes LF, and one final line feed is dropped. */
  function Lines(text: string): seq<string> {
    var content := TrimSuffix(NormalizeEol(text), '\n');
    if content == "" then [] else Split(content)
  }

  /** What the editor writes: every line followed by a line feed. */
  function Unlines(ls: seq<string>): string {
    if ls == [] then "" else Unlines(ls[..|ls| - 1]) + ls[|ls| - 1] + "\n"
  }

  predicate Clean(ls: seq<string>) {
    forall l <- ls :: '\n' !in l
  }

  function StripReturns(ls: seq<string>): seq<string> {
    seq(|ls|, i requires 0 <= i < |ls| => TrimSuffix(ls[i], '\r'))
  }

  lemma NormalizeHead(c: char, s: string)
    requires !(c == '\r' && s != [] && s[0] == '\n')
    ensures NormalizeEol([c] + s) == [c] + NormalizeEol(s)
  {
    assert ([c] + s)[1..] == s;
  }

  lemma NormalizeCrLf(t: string)
    ensures NormalizeEol("\r\n" + t) == "\n" + NormalizeEol(t)
  {
    assert ("\r\n" + t)[2..] == t;
  }

  lemma {:induction false} NormalizeLine(l: string, t: string)
    requires '\n' !in l
    ensures NormalizeEol(l + "\n" + t) == TrimSuffix(l, '\r') + "\n" + NormalizeEol(t)
  {
    if l == [] {
      assert l + "\n" + t == ['\n'] + t;
      NormalizeHead('\n', t);
    } else if l == ['\r'] {
      assert l + "\n" + t == "\r\n" + t;
      NormalizeCrLf(t);
    } else {
      var rest := l[1..] + "\n" + t;
      assert |l| > 1 ==> l[1] in l;
      assert l + "\n" + t == [l[0]] + rest;
      NormalizeHead(l[0], rest);
      NormalizeLine(l[1..], t);
      TrimSuffixHead(l, '\r');
      Assoc([l[0]], TrimSuffix(l[1..], '\r'), "\n" + NormalizeEol(t));
    }
  }

  lemma TrimSuffixHead(l: string, c: char)
    requires l != [] && l != [c]
    ensures TrimSuffix(l, c) == [l[0]] + TrimSuffix(l[1..], c)
  {
  }

  lemma UnlinesThen(ls: seq<string>, t: string)
    requires ls != []
    ensures Unlines(ls) + t == Unlines(ls[..|ls| - 1]) + (ls[|ls| - 1] + "\n" + t)
  {
    var pre, l := Unlines(ls[..|ls| - 1]), ls[|ls| - 1];
    Assoc(pre, l, "\n");
    Assoc(l, "\n", t);
    Assoc(pre, l + "\n", t);
  }

  lemma StripLast(ls: seq<string>)
    requires ls != []
    ensures var n := |ls| - 1;
      StripReturns(ls)[..n] == StripReturns(ls[..n]) && StripReturns(ls)[n] == TrimSuffix(ls[n], '\r')
  {
  }

  lemma {:induction false} NormalizeUnlines(ls: seq<string>, t: string)
    requires Clean(ls)
    ensures NormalizeEol(Unlines(ls) + t) == Unlines(StripReturns(ls)) + NormalizeEol(t)
  {
    if ls == [] {
      assert Unlines(ls) + t == t;
    } else {
      var n := |ls| - 1;
      UnlinesThen(ls, t);
      NormalizeUnlines(ls[..n], ls[n] + "\n" + t);
      NormalizeLine(ls[n], t);
      StripLast(ls);
      UnlinesThen(StripReturns(ls), NormalizeEol(t));
    }
  }

  lemma {:induction false} SplitLine(l: string, t: string)
    requires '\n' !in l
    ensures Split(l + "\n" + t) == [l] + Split(t)
    ensures Split(l) == [l]
  {
    var s := l + "\n" + t;
    if l == [] {
      assert s[1..] == t;
    } else {
      assert s[1..] == l[1..] + "\n" + t && l[0] in l;
      SplitLine(l[1..], t);
      assert [l[0]] + l[1..] == l;
      assert ([l[1..]] + Split(t))[1..] == Split(t);
    }
  }

  lemma {:induction false} SplitUnlines(ls: seq<string>, t: string)
    requires Clean(ls)
    ensures Split(Unlines(ls) + t) == ls + Split(t)
  {
    if ls == [] {
      assert Unlines(ls) + t == t;
    } else {
      var n := |ls| - 1;
      UnlinesThen(ls, t);
      SplitUnlines(ls[..n], ls[n] + "\n" + t);
      SplitLine(ls[n], t);
      Assoc(ls[..n], [ls[n]], Split(t));
      assert ls == ls[..n] + [ls[n]];
    }
  }

  lemma SplitBody(ls: seq<string>)
    requires Clean(ls) && ls != []
    ensures Split(TrimSuffix(Unlines(ls), '\n')) == ls
    ensures TrimSuffix(Unlines(ls), '\n') == "" <==> ls == [""]
  {
    var n := |ls| - 1;
    assert TrimSuffix(Unlines(ls), '\n') == Unlines(ls[..n]) + ls[n];
    assert ls == ls[..n] + [ls[n]] && ls[n] in ls;
    SplitUnlines(ls[..n], ls[n]);
    SplitLine(ls[n], "");
  }

  /** Reading back what was written gives the same lines, less one carriage return at the end of each. The
      one list of lines that is lost is a single empty line. */
  lemma LinesOfUnlines(ls: seq<string>)
    requires Clean(ls)
    ensures Lines(Unlines(ls)) == StripReturns(ls) <==> StripReturns(ls) != [""]
  {
    NormalizeUnlines(ls, []);
    assert Unlines(ls) + [] == Unlines(ls);
    assert Unlines(StripReturns(ls)) + [] == Unlines(StripReturns(ls));
    if ls != [] {
      StripIsClean(ls);
      SplitBody(StripReturns(ls));
    }
  }

  lemma StripIsClean(ls: seq<string>)
    requires Clean(ls)
    ensures Clean(StripReturns(ls))
  {
    forall i | 0 <= i < |ls| ensures '\n' !in StripReturns(ls)[i] { assert ls[i] in ls; }
  }

  lemma {:induction false} SplitIsClean(s: string)
    ensures Clean(Split(s))
  {
    if s != [] { SplitIsClean(s[1..]); }
  }

  lemma LinesAreClean(text: string)
    ensures Clean(Lines(text))
  {
    SplitIsClean(TrimSuffix(NormalizeEol(text), '\n'));
  }

  lemma UnlinesLength(ls: seq<string>)
    requires ls != []
    ensures |Unlines(ls)| == |Unlines(ls[..|ls| - 1])| + |ls[|ls| - 1]| + 1
  {
  }

  lemma StripUnchangedLast(ls: seq<string>)
    requires ls != []
    ensures var n := |ls| - 1;
      StripReturns(ls) == ls <==> StripReturns(ls[..n]) == ls[..n] && TrimSuffix(ls[n], '\r') == ls[n]
  {
    var n := |ls| - 1;
    assert StripReturns(ls) == StripReturns(ls[..n]) + [TrimSuffix(ls[n], '\r')];
    assert ls == ls[..n] + [ls[n]];
  }

  lemma {:induction false} UnlinesShrinks(ls: seq<string>)
    ensures |Unlines(StripReturns(ls))| <= |Unlines(ls)|
    ensures |Unlines(StripReturns(ls))| == |Unlines(ls)| <==> StripReturns(ls) == ls
  {
    if ls != [] {
      UnlinesShrinks(ls[..|ls| - 1]);
      StripLast(ls);
      StripUnchangedLast(ls);
      UnlinesLength(ls);
      UnlinesLength(StripReturns(ls));
    }
  }

  // ---------- The lines of any text ----------

  /** A line and what ends it: a line feed, a carriage return with a line feed, or, at the end of the text, nothing. */
  datatype Piece = Piece(line: string, end: string)

  function Glue(ps: seq<Piece>): string {
    if ps == [] then "" else Glue(ps[..|ps| - 1]) + (ps[|ps| - 1].line + ps[|ps| - 1].end)
  }

  predicate EndsInReturn(l: string) {
    l != [] && l[|l| - 1] == '\r'
  }

  predicate IsPiece(p: Piece) {
    '\n' !in p.line && (p.end == "\r\n" || (p.end == "\n" && !EndsInReturn(p.line)))
  }

  /** The pieces of a text: only the last of them may lack its end, and is then not empty. */
  predicate ArePieces(ps: seq<Piece>) {
    forall i | 0 <= i < |ps| :: IsPiece(ps[i]) ||
      (i == |ps| - 1 && '\n' !in ps[i].line && ps[i].line != "" && ps[i].end == "")
  }

  function LinesIn(ps: seq<Piece>): seq<string> {
    seq(|ps|, i requires 0 <= i < |ps| => ps[i].line)
  }

  lemma NormalizePiece(p: Piece, t: string)
    requires IsPiece(p)
    ensures NormalizeEol(p.line + p.end + t) == p.line + "\n" + NormalizeEol(t)
  {
    if p.end == "\r\n" {
      var l := p.line + "\r";
      assert p.line + p.end + t == l + "\n" + t && TrimSuffix(l, '\r') == p.line;
      NormalizeLine(l, t);
    } else {
      NormalizeLine(p.line, t);
    }
  }

  lemma GlueThen(ps: seq<Piece>, t: string)
    requires ps != []
    ensures var n := |ps| - 1; Glue(ps) + t == Glue(ps[..n]) + (ps[n].line + ps[n].end + t)
  {
    var n := |ps| - 1;
    Assoc(Glue(ps[..n]), ps[n].line + ps[n].end, t);
  }

  lemma {:induction false} NormalizeGlue(ps: seq<Piece>, t: string)
    requires forall p <- ps :: IsPiece(p)
    ensures NormalizeEol(Glue(ps) + t) == Unlines(LinesIn(ps)) + NormalizeEol(t)
  {
    if ps == [] {
      assert Glue(ps) + t == t;
    } else {
      var n := |ps| - 1;
      GlueThen(ps, t);
      NormalizeGlue(ps[..n], ps[n].line + ps[n].end + t);
      NormalizePiece(ps[n], t);
      assert LinesIn(ps)[..n] == LinesIn(ps[..n]);
      UnlinesThen(LinesIn(ps), NormalizeEol(t));
    }
  }

  lemma {:induction false} NormalizeNothing(l: string)
    requires '\n' !in l
    ensures NormalizeEol(l) == l
  {
    if l != [] {
      assert |l| > 1 ==> l[1] in l;
      NormalizeNothing(l[1..]);
      assert l == [l[0]] + l[1..];
    }
  }

  lemma LinesOfClosed(ps: seq<Piece>)
    requires ps != [] && (forall p <- ps :: IsPiece(p)) && LinesIn(ps) != [""]
    ensures Lines(Glue(ps)) == LinesIn(ps)
  {
    NormalizeGlue(ps, "");
    assert Glue(ps) + "" == Glue(ps) && Unlines(LinesIn(ps)) + "" == Unlines(LinesIn(ps));
    forall l | l in LinesIn(ps) ensures '\n' !in l {
      var i :| 0 <= i < |ps| && l == ps[i].line;
      assert ps[i] in ps;
    }
    SplitBody(LinesIn(ps));
  }

  lemma LinesOfOpen(ps: seq<Piece>, last: string)
    requires (forall p <- ps :: IsPiece(p)) && '\n' !in last && last != ""
    ensures Lines(Glue(ps + [Piece(last, "")])) == LinesIn(ps) + [last]
  {
    var all := ps + [Piece(last, "")];
    assert all[..|ps|] == ps;
    NormalizeGlue(ps, last);
    NormalizeNothing(last);
    assert Glue(all) == Glue(ps) + last;
    var content := Unlines(LinesIn(ps)) + last;
    assert last[|last| - 1] in last && content[|content| - 1] == last[|last| - 1];
    forall l | l in LinesIn(ps) ensures '\n' !in l {
      var i :| 0 <= i < |ps| && l == ps[i].line;
      assert ps[i] in ps;
    }
    SplitUnlines(LinesIn(ps), last);
    SplitLine(last, "");
  }

  /** The lines of a text are those of its pieces, whether or not the last one has an end. The one text whose line is
      lost is a single empty line. */
  lemma LinesOfPieces(ps: seq<Piece>)
    requires ArePieces(ps)
    ensures Lines(Glue(ps)) == if LinesIn(ps) == [""] then [] else LinesIn(ps)
  {
    if ps != [] {
      var n := |ps| - 1;
      forall p | p in ps[..n] ensures IsPiece(p) {
        var i :| 0 <= i < n && p == ps[i];
      }
      assert ps == ps[..n] + [ps[n]];
      if ps[n].end == "" {
        LinesOfOpen(ps[..n], ps[n].line);
        assert LinesIn(ps) == LinesIn(ps[..n]) + [ps[n].line];
        assert |LinesIn(ps)| == 1 ==> LinesIn(ps)[0] == ps[n].line;
      } else if LinesIn(ps) != [""] {
        LinesOfClosed(ps);
      } else {
        NormalizeGlue(ps, "");
        assert Glue(ps) + "" == Glue(ps);
        assert Unlines([""]) == "\n" by { assert [""][..0] == []; }
      }
    }
  }

  lemma GluePrepend(p: Piece, ps: seq<Piece>)
    ensures Glue([p] + ps) == p.line + p.end + Glue(ps)
  {
    if ps == [] {
      assert [p] + ps == [p] && [p][..0] == [];
    } else {
      var n := |ps| - 1;
      assert ([p] + ps)[..n + 1] == [p] + ps[..n];
      GluePrepend(p, ps[..n]);
      Assoc(p.line + p.end, Glue(ps[..n]), ps[n].line + ps[n].end);
    }
  }

  /** A text with a line feed starts with a piece. */
  lemma FirstPiece(text: string) returns (p: Piece, rest: string)
    requires '\n' in text
    ensures IsPiece(p) && text == p.line + p.end + rest && |rest| < |text|
  {
    var n := IndexOf(text, '\n');
    IndexOfIsFirst(text, '\n');
    var l := text[..n];
    rest := text[n + 1..];
    assert text == l + "\n" + rest;
    if EndsInReturn(l) {
      p := Piece(l[..n - 1], "\r\n");
      assert l == p.line + "\r" && p.line + p.end == l + "\n";
    } else {
      p := Piece(l, "\n");
    }
  }

  /** Every text has its pieces. */
  lemma {:induction false} PiecesOf(text: string) returns (ps: seq<Piece>)
    ensures ArePieces(ps) && Glue(ps) == text
    decreases |text|
  {
    if text == "" {
      ps := [];
    } else if '\n' !in text {
      ps := [Piece(text, "")];
      assert ps[..0] == [];
    } else {
      var p, rest := FirstPiece(text);
      var more := PiecesOf(rest);
      GluePrepend(p, more);
      ps := [p] + more;
    }
  }

  /** For any text at all: it falls into pieces, in one way, and its lines are theirs. */
  lemma LinesOfAnyText(text: string) returns (ps: seq<Piece>)
    ensures ArePieces(ps) && Glue(ps) == text
    ensures Lines(text) == if LinesIn(ps) == [""] then [] else LinesIn(ps)
  {
    ps := PiecesOf(text);
    LinesOfPieces(ps);
  }

  lemma LastIsOpen(text: string, head: string, end: string)
    requires text == head + end && (text != "" ==> text[|text| - 1] != '\n') && end in {"", "\n", "\r\n"}
    ensures end == ""
  {
  }

  /** The last line counts, with or without a line feed at the end of the file. */
  lemma FinalBreakIsOptional(text: string)
    requires text != "" && text[|text| - 1] != '\n' && text[|text| - 1] != '\r'
    ensures Lines(text + "\n") == Lines(text)
  {
    var ps := PiecesOf(text);
    var n := |ps| - 1;
    assert text == Glue(ps[..n]) + (ps[n].line + ps[n].end);
    LastIsOpen(text, Glue(ps[..n]) + ps[n].line, ps[n].end);
    assert text[|text| - 1] == ps[n].line[|ps[n].line| - 1];
    var qs := ps[..n] + [Piece(ps[n].line, "\n")];
    assert qs[..n] == ps[..n];
    Assoc(Glue(ps[..n]), ps[n].line, "\n");
    assert Glue(qs) == text + "\n";
    assert LinesIn(qs) == LinesIn(ps);
    LinesOfPieces(ps);
    LinesOfPieces(qs);
  }

  /** What is written for some lines is every line with a line feed after it. */
  lemma {:induction false} UnlinesGlues(ls: seq<string>)
    ensures Unlines(ls) == Glue(seq(|ls|, i requires 0 <= i < |ls| => Piece(ls[i], "\n")))
  {
    if ls != [] {
      var n := |ls| - 1;
      var ps := seq(|ls|, i requires 0 <= i < |ls| => Piece(ls[i], "\n"));
      UnlinesGlues(ls[..n]);
      assert ps[..n] == seq(n, i requires 0 <= i < n => Piece(ls[..n][i], "\n"));
      Assoc(Unlines(ls[..n]), ls[n], "\n");
    }
  }

  // ---------- One assignment ----------

  datatype Entry = Entry(key: string, raw: string)

  predicate IsKeyStart(c: char) {
    'A' <= c <= 'Z' || 'a' <= c <= 'z' || c == '_'
  }

  predicate WellFormedKey(k: string) {
    k != [] && IsKeyStart(k[0]) && forall c <- k :: IsKeyStart(c) || '0' <= c <= '9'
  }

  /** A letter or an underscore, and then letters, digits and underscores, all of ASCII. */
  lemma KeyIff(k: string)
    ensures WellFormedKey(k) <==>
      && k != "" && k[0] !in "0123456789"
      && forall c <- k :: 65 <= c as int <= 90 || 97 <= c as int <= 122 || c as int == 95 || c in "0123456789"
  {
    forall c: char ensures c in "0123456789" <==> '0' <= c <= '9' { DigitIff(c); }
    if k != "" { assert k[0] in k; }
  }

  lemma DigitIff(c: char)
    ensures c in "0123456789" <==> '0' <= c <= '9'
  {
    if '0' <= c <= '9' { assert c == "0123456789"[c as int - 48]; }
  }

  function IndexOf(s: string, c: char): (n: nat)
    ensures n <= |s|
  {
    if s == [] || s[0] == c then 0 else 1 + IndexOf(s[1..], c)
  }

  lemma {:induction false} IndexOfIsFirst(s: string, c: char)
    ensures var n := IndexOf(s, c); (n < |s| ==> s[n] == c) && forall i | 0 <= i < n :: s[i] != c
  {
    if s != [] && s[0] != c {
      IndexOfIsFirst(s[1..], c);
      assert forall i | 1 <= i < |s| :: s[i] == s[1..][i - 1];
    }
  }

  /** The envLineKey pattern: a well-formed key, an equals sign, and the rest of the line. */
  function MatchLine(line: string): Option<Entry> {
    var n := IndexOf(line, '=');
    if n < |line| && WellFormedKey(line[..n]) && '\n' !in line[n + 1..]
    then Some(Entry(line[..n], line[n + 1..])) else None
  }

  lemma MatchLineIff(line: string, k: string, raw: string)
    ensures MatchLine(line) == Some(Entry(k, raw))
       <==> line == k + "=" + raw && WellFormedKey(k) && '\n' !in raw
  {
    var n := IndexOf(line, '=');
    IndexOfIsFirst(line, '=');
    if n < |line| { assert line == line[..n] + "=" + line[n + 1..]; }
    if line == k + "=" + raw && WellFormedKey(k) {
      assert '=' !in k && line[|k|] == '=';
      assert forall i | 0 <= i < |k| :: line[i] == k[i] && k[i] in k;
      assert line[..|k|] == k && line[|k| + 1..] == raw;
    }
  }

  function KeyOf(line: string): Option<string> {
    var m := MatchLine(line);
    if m.Some? then Some(m.value.key) else None
  }

  predicate Assigns(ls: seq<string>, k: string) {
    exists l <- ls :: KeyOf(l) == Some(k)
  }

  /** The value one line gives to one key. */
  function Reads(line: string, k: string): Option<string> {
    var m := MatchLine(line);
    if m.Some? && m.value.key == k then Some(ParseValue(m.value.raw)) else None
  }

  /** The last assignment of a key wins. */
  function Lookup(ls: seq<string>, k: string): Option<string> {
    if ls == [] then None
    else
      var r := Reads(ls[|ls| - 1], k);
      if r.Some? then r else Lookup(ls[..|ls| - 1], k)
  }

  function Get(text: string, k: string): Option<string> {
    Lookup(Lines(text), k)
  }

  /** The line is an assignment of the key, and this is its value. */
  ghost predicate Says(l: string, k: string, v: string) {
    exists raw :: l == k + "=" + raw && WellFormedKey(k) && '\n' !in raw && v == ParseValue(raw)
  }

  lemma SaysIff(l: string, k: string, v: string)
    ensures Reads(l, k) == Some(v) <==> Says(l, k, v)
  {
    var m := MatchLine(l);
    if m.Some? { MatchLineIff(l, m.value.key, m.value.raw); }
    if Says(l, k, v) {
      var raw :| l == k + "=" + raw && WellFormedKey(k) && '\n' !in raw && v == ParseValue(raw);
      MatchLineIff(l, k, raw);
    }
  }

  /** Line `i` gives the key this value and no later line gives it any. */
  ghost predicate SaysLast(ls: seq<string>, i: nat, k: string, v: string)
    requires i < |ls|
  {
    Says(ls[i], k, v) && forall j, u | i < j < |ls| :: !Says(ls[j], k, u)
  }

  ghost predicate SaysNothing(ls: seq<string>, k: string) {
    forall j, u | 0 <= j < |ls| :: !Says(ls[j], k, u)
  }

  lemma LastSays(ls: seq<string>, l: string, k: string)
    ensures match Reads(l, k)
            case Some(v) => SaysLast(ls + [l], |ls|, k, v)
            case None => SaysNothing(ls, k) ==> SaysNothing(ls + [l], k)
  {
    forall u ensures Reads(l, k) == Some(u) <==> Says(l, k, u) { SaysIff(l, k, u); }
  }

  lemma StillSays(ls: seq<string>, l: string, k: string, i: nat, v: string)
    requires Reads(l, k) == None && i < |ls| && SaysLast(ls, i, k, v)
    ensures SaysLast(ls + [l], i, k, v)
  {
    forall u ensures !Says(l, k, u) { SaysIff(l, k, u); }
    assert forall j | 0 <= j < |ls| :: (ls + [l])[j] == ls[j];
  }

  lemma {:induction false} LookupFinds(ls: seq<string>, k: string) returns (i: nat)
    ensures match Lookup(ls, k)
            case None => SaysNothing(ls, k)
            case Some(v) => i < |ls| && SaysLast(ls, i, k, v)
  {
    i := 0;
    if ls != [] {
      var n := |ls| - 1;
      assert ls == ls[..n] + [ls[n]];
      i := LookupFinds(ls[..n], k);
      LastSays(ls[..n], ls[n], k);
      if Reads(ls[n], k).Some? {
        i := n;
      } else if Lookup(ls[..n], k).Some? {
        StillSays(ls[..n], ls[n], k, i, Lookup(ls[..n], k).value);
      }
    }
  }

  /** A reader finds for a key what the last line that assigns it says, and nothing if no line does. */
  lemma LookupIff(ls: seq<string>, k: string, v: string)
    ensures Lookup(ls, k) == Some(v) <==> exists i: nat | i < |ls| :: SaysLast(ls, i, k, v)
  {
    var i := LookupFinds(ls, k);
    if j: nat :| j < |ls| && SaysLast(ls, j, k, v) {
      assert Lookup(ls, k).Some?;
      assert !(i < j) && !(j < i);
      SaysIff(ls[i], k, v);
      SaysIff(ls[i], k, Lookup(ls, k).value);
    }
  }

  lemma StripKeepsLine(l: string, k: string)
    ensures KeyOf(TrimSuffix(l, '\r')) == KeyOf(l)
    ensures Reads(TrimSuffix(l, '\r'), k) == Reads(l, k)
  {
    var s := TrimSuffix(l, '\r');
    if s != l {
      assert l == s + "\r";
      var m, m' := MatchLine(s), MatchLine(l);
      if m.Some? {
        MatchLineIff(s, m.value.key, m.value.raw);
        assert l == m.value.key + "=" + (m.value.raw + "\r");
        MatchLineIff(l, m.value.key, m.value.raw + "\r");
        ParseIgnoresReturn(m.value.raw);
      } else if m'.Some? {
        var e := m'.value;
        MatchLineIff(l, e.key, e.raw);
        assert e.raw != [];
        var raw := e.raw[..|e.raw| - 1];
        assert s == e.key + "=" + raw;
        MatchLineIff(s, e.key, raw);
      }
    }
  }

  lemma {:induction false} StripKeepsLookup(ls: seq<string>, k: string)
    ensures Lookup(StripReturns(ls), k) == Lookup(ls, k)
  {
    if ls != [] {
      var n := |ls| - 1;
      StripKeepsLine(ls[n], k);
      assert StripReturns(ls)[..n] == StripReturns(ls[..n]);
      StripKeepsLookup(ls[..n], k);
    }
  }

  lemma {:induction false} LookupAppend(a: seq<string>, b: seq<string>, k: string)
    ensures Lookup(a + b, k) == if Lookup(b, k).Some? then Lookup(b, k) else Lookup(a, k)
  {
    if b == [] {
      assert a + b == a;
    } else {
      var n := |b| - 1;
      assert (a + b)[..|a + b| - 1] == a + b[..n];
      LookupAppend(a, b[..n], k);
    }
  }

  lemma AssignsLast(ls: seq<string>, l: string, k: string)
    ensures Assigns(ls + [l], k) <==> Assigns(ls, k) || KeyOf(l) == Some(k)
  {
    assert forall x :: x in ls + [l] <==> x in ls || x == l;
    assert l in ls + [l];
  }

  lemma ReadsIffKey(l: string, k: string)
    ensures Reads(l, k).Some? <==> KeyOf(l) == Some(k)
  {
  }

  lemma {:induction false} LookupAssigns(ls: seq<string>, k: string)
    ensures Lookup(ls, k).Some? <==> Assigns(ls, k)
  {
    if ls != [] {
      var n := |ls| - 1;
      LookupAssigns(ls[..n], k);
      AssignsLast(ls[..n], ls[n], k);
      ReadsIffKey(ls[n], k);
      assert ls == ls[..n] + [ls[n]];
    }
  }

  /** Blank lines and comments are skipped before the pattern is tried; it would not have matched them. */
  lemma SkippedLinesDoNotMatch(line: string)
    requires TrimSpace(line) == "" || HasPrefix(TrimSpace(line), "#")
    ensures MatchLine(line) == None
  {
    var m := MatchLine(line);
    if m.Some? {
      MatchLineIff(line, m.value.key, m.value.raw);
      TrimRightKeepsHead(line);
      assert false;
    }
  }
}

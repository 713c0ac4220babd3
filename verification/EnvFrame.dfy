/** Which updates of an environment file disturb no other key, for keys of any shape
    (internal/userver_auth/envpersist.go). */
module EnvFrame {
  import opened Text
  import opened EnvText
  import opened EnvEdit

  // ---------- What one written line reads back as ----------

  function Body(l: string): string {
    TrimSuffix(NormalizeEol(l + "\n"), '\n')
  }

  /** A written line as the next reader splits it: several lines, if it holds line feeds. */
  function Physical(l: string): seq<string> {
    Split(Body(l))
  }

  function Flatten(ls: seq<string>): seq<string> {
    if ls == [] then [] else Flatten(ls[..|ls| - 1]) + Physical(ls[|ls| - 1])
  }

  /** The text goes on as it began, one character or one CRLF at a time. */
  lemma NormalizeSteps(a: string, t: string) returns (head: string, rest: string, out: string)
    requires a != [] && a[|a| - 1] == '\n'
    ensures head != [] && a == head + rest && a + t == head + (rest + t) && out != []
    ensures rest == [] ==> out[|out| - 1] == '\n'
    ensures rest != [] ==> rest[|rest| - 1] == '\n'
    ensures NormalizeEol(a) == out + NormalizeEol(rest) && NormalizeEol(a + t) == out + NormalizeEol(rest + t)
  {
    if |a| > 1 && a[0] == '\r' && a[1] == '\n' {
      head, rest, out := a[..2], a[2..], "\n";
      assert head == "\r\n";
      NormalizeCrLf(rest);
      NormalizeCrLf(rest + t);
    } else {
      head, rest, out := [a[0]], a[1..], [a[0]];
      NormalizeHead(a[0], rest);
      NormalizeHead(a[0], rest + t);
    }
    Assoc(head, rest, t);
  }

  lemma {:induction false} NormalizeAppend(a: string, t: string)
    requires a != [] && a[|a| - 1] == '\n'
    ensures NormalizeEol(a + t) == NormalizeEol(a) + NormalizeEol(t)
    ensures NormalizeEol(a) != [] && NormalizeEol(a)[|NormalizeEol(a)| - 1] == '\n'
    decreases |a|
  {
    var head, rest, out := NormalizeSteps(a, t);
    if rest == [] {
      assert rest + t == t && out + NormalizeEol([]) == out;
    } else {
      NormalizeAppend(rest, t);
      Assoc(out, NormalizeEol(rest), NormalizeEol(t));
    }
  }

  lemma SplitHead(c: char, s: string)
    ensures Split([c] + s) == if c == '\n' then [""] + Split(s) else Onto(c, Split(s))
  {
    assert ([c] + s)[1..] == s;
  }

  /** The character starts the first line. */
  function Onto(c: char, ls: seq<string>): seq<string>
    requires ls != []
  {
    [[c] + ls[0]] + ls[1..]
  }

  lemma OntoAppend(c: char, x: seq<string>, y: seq<string>)
    requires x != []
    ensures Onto(c, x + y) == Onto(c, x) + y
  {
    assert (x + y)[1..] == x[1..] + y;
  }

  lemma {:induction false} SplitAppend(a: string, t: string)
    ensures Split(a + "\n" + t) == Split(a) + Split(t)
  {
    if a == [] {
      assert a + "\n" + t == ['\n'] + t;
      SplitHead('\n', t);
    } else {
      var c, rest := a[0], a[1..];
      assert a == [c] + rest && a + "\n" + t == [c] + (rest + "\n" + t);
      SplitHead(c, rest);
      SplitHead(c, rest + "\n" + t);
      SplitAppend(rest, t);
      OntoAppend(c, Split(rest), Split(t));
      Assoc([""], Split(rest), Split(t));
    }
  }

  lemma BodyEnds(l: string)
    ensures NormalizeEol(l + "\n") == Body(l) + "\n"
  {
    NormalizeAppend(l + "\n", []);
  }

  lemma {:induction false} SplitWritten(ls: seq<string>)
    requires ls != []
    ensures exists b :: NormalizeEol(Unlines(ls)) == b + "\n" && Split(b) == Flatten(ls)
  {
    var n := |ls| - 1;
    var pre, l := ls[..n], ls[n];
    assert Unlines(ls) == Unlines(pre) + (l + "\n");
    BodyEnds(l);
    if pre == [] {
      assert Unlines(ls) == l + "\n";
      assert Flatten(ls) == Physical(l);
    } else {
      SplitWritten(pre);
      var b :| NormalizeEol(Unlines(pre)) == b + "\n" && Split(b) == Flatten(pre);
      NormalizeAppend(Unlines(pre), l + "\n");
      SplitAppend(b, Body(l));
      Assoc(b + "\n", Body(l), "\n");
      assert NormalizeEol(Unlines(ls)) == (b + "\n" + Body(l)) + "\n";
    }
  }

  /** A reader of the written lines finds the assignments of their physical lines. */
  lemma GetWritten(ls: seq<string>, j: string)
    requires ls != []
    ensures Get(Unlines(ls), j) == Lookup(Flatten(ls), j)
  {
    SplitWritten(ls);
    var b :| NormalizeEol(Unlines(ls)) == b + "\n" && Split(b) == Flatten(ls);
    assert TrimSuffix(b + "\n", '\n') == b;
    if b == "" {
      assert Flatten(ls) == [""];
      NoAssignment("", j);
      LookupLast([], "", j);
      assert [] + [""] == [""];
    }
  }

  lemma NoAssignment(l: string, j: string)
    requires '=' !in l
    ensures Reads(l, j) == None && KeyOf(l) == None
  {
    IndexOfIsFirst(l, '=');
  }

  lemma CleanIsPhysical(l: string)
    requires '\n' !in l
    ensures Physical(l) == [TrimSuffix(l, '\r')]
  {
    NormalizeLine(l, "");
    assert l + "\n" + "" == l + "\n";
    assert Body(l) == TrimSuffix(l, '\r');
    assert forall c <- TrimSuffix(l, '\r') :: c in l;
    SplitLine(TrimSuffix(l, '\r'), "");
  }

  // ---------- Harmless updates ----------

  /** No line of what is written for a key assigns a key that is not being updated. */
  ghost predicate Harmless(f: Updates) {
    forall k <- f :: forall l <- Physical(Assignment(k, f[k])) :: KeyOf(l).Some? ==> KeyOf(l).value in f
  }

  lemma WellFormedIsHarmless(f: Updates)
    requires WellFormedKeys(f)
    ensures Harmless(f)
  {
    forall k | k in f
      ensures forall l <- Physical(Assignment(k, f[k])) :: KeyOf(l).Some? ==> KeyOf(l).value in f
    {
      AssignmentReads(k, f[k]);
      CleanIsPhysical(Assignment(k, f[k]));
    }
  }

  lemma SilentFor(f: Updates, k: string, j: string)
    requires Harmless(f) && k in f && j !in f
    ensures Lookup(Physical(Assignment(k, f[k])), j) == None
  {
    LookupAssigns(Physical(Assignment(k, f[k])), j);
  }

  lemma FlattenLast(ls: seq<string>, l: string, j: string)
    ensures Flatten(ls + [l]) == Flatten(ls) + Physical(l)
    ensures var p := Lookup(Physical(l), j);
      Lookup(Flatten(ls + [l]), j) == if p.Some? then p else Lookup(Flatten(ls), j)
  {
    assert (ls + [l])[..|ls|] == ls;
    LookupAppend(Flatten(ls), Physical(l), j);
  }

  lemma OneLineReads(l: string, j: string)
    requires '\n' !in l
    ensures Lookup(Physical(l), j) == Reads(l, j)
  {
    CleanIsPhysical(l);
    StripKeepsLine(l, j);
    assert [] + [TrimSuffix(l, '\r')] == [TrimSuffix(l, '\r')];
    LookupLast([], TrimSuffix(l, '\r'), j);
  }

  lemma FrameStep(pre: seq<string>, l: string, f: Updates, j: string)
    requires '\n' !in l && Harmless(f) && j !in f
    requires Lookup(Flatten(Merged(pre, f)), j) == Lookup(pre, j)
    ensures Lookup(Flatten(Merged(pre + [l], f)), j) == Lookup(pre + [l], j)
  {
    MergedLast(pre, l, f);
    LookupLast(pre, l, j);
    ReadsIffKey(l, j);
    if !Targets(l, f) {
      FlattenLast(Merged(pre, f), l, j);
      OneLineReads(l, j);
    } else {
      var k := KeyOf(l).value;
      FlattenLast(Merged(pre, f), Assignment(k, f[k]), j);
      SilentFor(f, k, j);
    }
  }

  lemma {:induction false} MergedFrame(ls: seq<string>, f: Updates, j: string)
    requires Clean(ls) && Harmless(f) && j !in f
    ensures Lookup(Flatten(Merged(ls, f)), j) == Lookup(ls, j)
  {
    if ls != [] {
      var n := |ls| - 1;
      assert ls == ls[..n] + [ls[n]] && ls[n] in ls;
      MergedFrame(ls[..n], f, j);
      FrameStep(ls[..n], ls[n], f, j);
    }
  }

  lemma {:induction false} TailFrame(ls: seq<string>, tail: seq<string>, f: Updates, j: string)
    requires Harmless(f) && j !in f && forall k <- tail :: k in f
    ensures Lookup(Flatten(ls + Assignments(tail, f)), j) == Lookup(Flatten(ls), j)
  {
    if tail == [] {
      assert ls + Assignments(tail, f) == ls;
    } else {
      var pre, k := tail[..|tail| - 1], tail[|tail| - 1];
      assert tail == pre + [k] && k in tail;
      AssignmentsLast(pre, k, f);
      TailFrame(ls, pre, f, j);
      Assoc(ls, Assignments(pre, f), [Assignment(k, f[k])]);
      FlattenLast(ls + Assignments(pre, f), Assignment(k, f[k]), j);
      SilentFor(f, k, j);
    }
  }

  lemma HarmlessKeepsFrame(text: string, f: Updates, text': string, j: string)
    requires Harmless(f) && f != map[] && UpsertTo(text, f, text') && j !in f
    ensures Get(text', j) == Get(text, j)
  {
    var ls := Lines(text);
    var tail :| IsTail(tail, f, WrittenBy(ls, f)) && text' == Unlines(EditedLines(ls, f, tail));
    LinesAreClean(text);
    MergedFrame(ls, f, j);
    TailFrame(Merged(ls, f), tail, f, j);
    SomethingIsWritten(ls, f, tail);
    GetWritten(EditedLines(ls, f, tail), j);
  }

  // ---------- Harmful updates ----------

  lemma {:induction false} DueIsDistinct(order: seq<string>, f: Updates, written: set<string>)
    ensures Distinct(Due(order, f, written))
  {
    if order != [] { DueIsDistinct(order[..|order| - 1], f, written); }
  }

  lemma {:induction false} Extend(tail: seq<string>, rest: set<string>) returns (all: seq<string>)
    requires Distinct(tail) && forall k <- rest :: k !in tail
    ensures Distinct(all) && tail <= all && forall k :: k in all <==> k in tail || k in rest
    decreases |rest|
  {
    if rest == {} {
      all := tail;
    } else {
      var k :| k in rest;
      all := Extend(tail + [k], rest - {k});
      assert tail <= tail + [k] <= all;
    }
  }

  /** Some order of appending the keys always exists. */
  lemma TailExists(f: Updates, written: set<string>) returns (tail: seq<string>)
    ensures IsTail(tail, f, written)
  {
    var due := Due(ORDER, f, written);
    DueIsDistinct(ORDER, f, written);
    tail := Extend(due, set k | k in f && k !in written && k !in due);
  }

  lemma {:induction false} FlattenHas(tail: seq<string>, f: Updates, k: string, l: string)
    requires (forall j <- tail :: j in f) && k in tail && l in Physical(Assignment(k, f[k]))
    ensures l in Flatten(Assignments(tail, f))
  {
    var pre, last := tail[..|tail| - 1], tail[|tail| - 1];
    assert tail == pre + [last] && last in tail;
    AssignmentsLast(pre, last, f);
    FlattenLast(Assignments(pre, f), Assignment(last, f[last]), "");
    if k != last { FlattenHas(pre, f, k, l); }
  }

  /** Harmful updates disturb another key already in an empty file. */
  lemma HarmShows(f: Updates) returns (text': string, j: string)
    requires !Harmless(f)
    ensures UpsertTo("", f, text') && j !in f && Get("", j) != Get(text', j)
  {
    var k, l :| k in f && l in Physical(Assignment(k, f[k])) && KeyOf(l).Some? && KeyOf(l).value !in f;
    j := KeyOf(l).value;
    assert Lines("") == [];
    assert WrittenBy([], f) == {};
    var tail := TailExists(f, {});
    var out := EditedLines([], f, tail);
    assert out == Assignments(tail, f);
    text' := Unlines(out);
    FlattenHas(tail, f, k, l);
    LookupAssigns(Flatten(out), j);
    GetWritten(out, j);
  }

  /** For updates with keys of any shape: no other key is disturbed, whatever the file held, exactly when no line
      that is written assigns a key that is not being updated. */
  lemma FrameIff(f: Updates)
    requires f != map[]
    ensures (forall text, text', j | UpsertTo(text, f, text') && j !in f :: Get(text', j) == Get(text, j))
       <==> Harmless(f)
  {
    if Harmless(f) {
      forall text, text', j | UpsertTo(text, f, text') && j !in f ensures Get(text', j) == Get(text, j) {
        HarmlessKeepsFrame(text, f, text', j);
      }
    } else {
      var text', j := HarmShows(f);
    }
  }
}

/** The laws of the environment file: read after write, one line per key, the first writer wins
    (internal/userver_auth/envpersist.go). */
module EnvLaws {
  import opened Text
  import opened EnvValue
  import opened EnvText
  import opened EnvEdit

  // ---------- What a run is asked to write ----------

  predicate Placeholder(v: string) {
    var t := TrimSpace(v);
    '<' in t && '>' in t
  }

  /** A value already in the file that bootstrapping leaves alone. */
  predicate Protected(v: string) {
    TrimSpace(v) != "" && !Placeholder(TrimSpace(v))
  }

  predicate KeptInFile(text: string, k: string) {
    Get(text, k).Some? && Protected(Get(text, k).value)
  }

  lemma TrimKeepsMarks(v: string, c: char)
    requires !IsSpace(c)
    ensures c in TrimSpace(v) <==> c in v
  {
    TrimSpaceIs(v);
    var a, b :| v == a + TrimSpace(v) + b && AllSpace(a) && AllSpace(b);
    assert c in v <==> c in a || c in TrimSpace(v) || c in b;
  }

  /** A value is left alone exactly when there is more to it than white space and it does not have both brackets of a
      placeholder. */
  lemma ProtectedIff(v: string)
    ensures Protected(v) <==> (exists c <- v :: !IsSpace(c)) && !('<' in v && '>' in v)
  {
    var t := TrimSpace(v);
    TrimKeepsMarks(v, '<');
    TrimKeepsMarks(v, '>');
    TrimKeepsMarks(t, '<');
    TrimKeepsMarks(t, '>');
    TrimmedEnds(v, ' ');
    if t != "" {
      TrimKeepsMarks(v, t[0]);
      assert t[0] in t;
    } else if c :| c in v && !IsSpace(c) {
      TrimKeepsMarks(v, c);
    }
  }

  function NonEmpty(u: Updates): Updates {
    map k | k in u && u[k] != "" :: u[k]
  }

  function Unprotected(text: string, u: Updates): Updates {
    map k | k in u && u[k] != "" && !KeptInFile(text, k) :: u[k]
  }

  /** upsertEnvFile on a file that can be read and written. */
  ghost predicate UpsertFrom(text: string, u: Updates, text': string) {
    if NonEmpty(u) == map[] then text' == text else UpsertTo(text, NonEmpty(u), text')
  }

  /** persistBootstrapEnv on a file that can be read and written. */
  ghost predicate PersistTo(text: string, u: Updates, text': string) {
    UpsertFrom(text, Unprotected(text, u), text')
  }

  function Stored(v: string): string {
    ParseValue(FormatValue(v))
  }

  // ---------- One edit ----------

  /** Every non-empty update reads back, as itself exactly when its value survives printing, and no other key
      is disturbed, whatever the file held before. */
  lemma ReadAfterWrite(text: string, u: Updates, text': string, k: string)
    requires WellFormedKeys(NonEmpty(u)) && UpsertFrom(text, u, text')
    ensures k in u && u[k] != "" ==> Get(text', k) == Some(Stored(u[k]))
    ensures k in u && u[k] != "" ==> (Get(text', k) == Some(u[k]) <==> RoundTrips(u[k]))
    ensures !(k in u && u[k] != "") ==> Get(text', k) == Get(text, k)
  {
    var f := NonEmpty(u);
    if f != map[] {
      var ls := Lines(text);
      var tail :| IsTail(tail, f, WrittenBy(ls, f)) && text' == Unlines(EditedLines(ls, f, tail));
      LinesAreClean(text);
      LinesAfter(ls, f, tail);
      StripKeepsLookup(EditedLines(ls, f, tail), k);
      EditedLookup(ls, f, tail, k);
    }
    assert k in u && u[k] != "" ==> k in f;
    if k in u && u[k] != "" { RoundTrip(u[k]); }
  }

  /** Where an updated key stands that line `i` of the old text assigned first: after the edit of the lines
      before it, and so after the same untouched lines. */
  ghost predicate TakesFirstPlace(out: seq<string>, ls: seq<string>, f: Updates, i: nat)
    requires i < |ls| && Targets(ls[i], f)
  {
    var k := KeyOf(ls[i]).value;
    exists p | 0 <= p < |out| ::
      && out[p] == Assignment(k, f[k])
      && out[..p] == Merged(ls[..i], f) && Others(out[..p], f) == Others(ls[..i], f)
  }

  /** Where an updated key stands that no old line assigned: after all old lines. */
  ghost predicate ComesLast(out: seq<string>, ls: seq<string>, f: Updates, k: string)
    requires k in f
  {
    exists p | |Merged(ls, f)| <= p < |out| ::
      out[p] == Assignment(k, f[k]) && Others(out[..p], f) == Others(ls, f)
  }

  lemma DueComesNext(ls: seq<string>, f: Updates, tail: seq<string>)
    requires IsTail(tail, f, WrittenBy(ls, f))
    ensures Merged(ls, f) + Assignments(Due(ORDER, f, WrittenBy(ls, f)), f) <= EditedLines(ls, f, tail)
  {
    var due := Due(ORDER, f, WrittenBy(ls, f));
    assert tail[..|due|] == due;
    assert Assignments(tail, f)[..|due|] == Assignments(due, f);
  }

  /** The lines of the written file: one per updated key, standing where the first old one stood or at the end,
      and around them the old lines in their old order. */
  lemma UpsertShape(text: string, f: Updates, text': string) returns (out: seq<string>)
    requires WellFormedKeys(f) && UpsertTo(text, f, text')
    ensures text' == Unlines(out) && Clean(out)
    ensures forall k :: Count(out, k) == if k in f then 1 else Count(Lines(text), k)
    ensures Others(out, f) == Others(Lines(text), f)
    ensures forall i | 0 <= i < |Lines(text)| && Targets(Lines(text)[i], f) ::
      !Assigns(Lines(text)[..i], KeyOf(Lines(text)[i]).value) ==> TakesFirstPlace(out, Lines(text), f, i)
    ensures forall k <- f :: !Assigns(Lines(text), k) ==> ComesLast(out, Lines(text), f, k)
    ensures Merged(Lines(text), f) + Assignments(Due(ORDER, f, WrittenBy(Lines(text), f)), f) <= out
  {
    var ls := Lines(text);
    var tail :| IsTail(tail, f, WrittenBy(ls, f)) && text' == Unlines(EditedLines(ls, f, tail));
    out := EditedLines(ls, f, tail);
    LinesAreClean(text);
    EditedIsClean(ls, f, tail);
    OtherLinesKept(ls, f, tail);
    forall k ensures Count(out, k) == if k in f then 1 else Count(ls, k) { EveryKeyOnce(ls, f, tail, k); }
    forall i | 0 <= i < |ls| && Targets(ls[i], f) && !Assigns(ls[..i], KeyOf(ls[i]).value)
      ensures TakesFirstPlace(out, ls, f, i)
    {
      FirstPlaceKept(ls, f, tail, i, KeyOf(ls[i]).value);
    }
    forall k | k in f && !Assigns(ls, k) ensures ComesLast(out, ls, f, k) {
      var j :| 0 <= j < |tail| && tail[j] == k;
      NewKeysAtEnd(ls, f, tail, j);
    }
    DueComesNext(ls, f, tail);
  }

  /** Writing the same updates again changes nothing, unless an untouched line ends in a stray carriage
      return: each write takes one of those away. */
  lemma FixedPointIff(text: string, f: Updates, text': string, text'': string)
    requires WellFormedKeys(f) && f != map[] && UpsertTo(text, f, text') && UpsertTo(text', f, text'')
    ensures text'' == text' <==> forall l <- Others(Lines(text), f) :: !EndsInReturn(l)
  {
    var ls := Lines(text);
    var tail :| IsTail(tail, f, WrittenBy(ls, f)) && text' == Unlines(EditedLines(ls, f, tail));
    var out := EditedLines(ls, f, tail);
    LinesAreClean(text);
    LinesAfter(ls, f, tail);
    var ls' := Lines(text');
    var tail' :| IsTail(tail', f, WrittenBy(ls', f)) && text'' == Unlines(EditedLines(ls', f, tail'));
    EditAgain(ls, f, tail, tail');
    UnlinesShrinks(out);
    StripChangesIff(ls, f, tail);
  }

  lemma {:induction false} NothingDue(order: seq<string>, f: Updates, written: set<string>)
    requires forall k <- f :: k in written
    ensures Due(order, f, written) == []
  {
    if order != [] { NothingDue(order[..|order| - 1], f, written); }
  }

  /** The least text on which an edit is no fixed point: one line that ends in a carriage return. */
  lemma StrayReturnIsNotFixed(k: string, v: string) returns (text: string, text': string, text'': string)
    requires WellFormedKey(k)
    ensures UpsertTo(text, map[k := v], text') && UpsertTo(text', map[k := v], text'') && text'' != text'
  {
    var first := ["\r", Assignment(k, v)];
    text, text', text'' := "\r", Unlines(first), Unlines(StripReturns(first));
    FirstEdit(k, v);
    SecondEdit(k, v);
    UnlinesShrinks(first);
    assert StripReturns(first)[0] == "" != first[0];
  }

  lemma FirstEdit(k: string, v: string)
    requires WellFormedKey(k)
    ensures UpsertTo("\r", map[k := v], Unlines(["\r", Assignment(k, v)]))
  {
    var f: Updates := map[k := v];
    ReturnAlone();
    BareLines(k, v);
    AddToLone("\r", f, k);
  }

  lemma SecondEdit(k: string, v: string)
    requires WellFormedKey(k)
    ensures var first := ["\r", Assignment(k, v)];
      UpsertTo(Unlines(first), map[k := v], Unlines(StripReturns(first)))
  {
    var f: Updates, first := map[k := v], ["\r", Assignment(k, v)];
    var second := StripReturns(first);
    SecondLines(k, v);
    AlreadyEdited(k, v);
    NothingDue(ORDER, f, {k});
    assert IsTail([], f, WrittenBy(second, f));
    assert EditedLines(second, f, []) == second;
  }

  lemma SecondLines(k: string, v: string)
    requires WellFormedKey(k)
    ensures var first := ["\r", Assignment(k, v)];
      StripReturns(first) == ["", Assignment(k, v)] && Lines(Unlines(first)) == StripReturns(first)
  {
    AssignmentReads(k, v);
    BareLines(k, v);
    LinesOfUnlines(["\r", Assignment(k, v)]);
    assert TrimSuffix("\r", '\r') == "";
  }

  lemma ReturnAlone()
    ensures Lines("\r") == ["\r"]
  {
    assert "\r"[1..] == [];
    assert NormalizeEol("\r") == "\r";
    SplitLine("\r", "");
  }

  lemma BareLines(k: string, v: string)
    requires WellFormedKey(k)
    ensures KeyOf("\r") == None && KeyOf("") == None && Clean(["\r", Assignment(k, v)])
  {
    AssignmentReads(k, v);
    ReadsIffKey("\r", "");
    assert IndexOf("\r", '=') == 1;
  }

  lemma AlreadyEdited(k: string, v: string)
    requires WellFormedKey(k)
    ensures var f: Updates, a := map[k := v], Assignment(k, v);
      WrittenBy(["", a], f) == {k} && Merged(["", a], f) == ["", a]
  {
    var f: Updates, a := map[k := v], Assignment(k, v);
    BareLines(k, v);
    AssignmentReads(k, v);
    assert ["", a][..1] == [""] && [""][..0] == [];
    assert a in ["", a] && KeyOf(a) == Some(k);
    assert Merged([""], f) == [""];
    assert !Assigns([""], k);
  }

  lemma {:induction false} DueOfOne(order: seq<string>, f: Updates, k: string)
    requires f.Keys == {k}
    ensures Due(order, f, {}) <= [k]
  {
    if order != [] {
      DueOfOne(order[..|order| - 1], f, k);
      var pre := Due(order[..|order| - 1], f, {});
      assert pre == [] || pre[0] in pre;
      assert forall j <- f :: j in f.Keys && j == k;
    }
  }

  lemma TwoLines(a: string, b: string)
    requires '\n' !in a + b && TrimSuffix(a, '\r') == a != "" && TrimSuffix(b, '\r') == b
    ensures Lines(Unlines([a])) == [a] && Lines(Unlines([a, b])) == [a, b]
    ensures Unlines([a]) == a + "\n" && Unlines([a, b]) == a + "\n" + b + "\n"
  {
    assert forall c :: c in a + b <==> c in a || c in b;
    assert [a][..0] == [] && [a, b][..1] == [a];
    assert StripReturns([a]) == [a] && StripReturns([a, b]) == [a, b];
    LinesOfUnlines([a]);
    LinesOfUnlines([a, b]);
  }

  lemma LoneLineStays(was: string, f: Updates, k: string)
    requires f.Keys == {k} && KeyOf(was) != Some(k)
    ensures WrittenBy([was], f) == {} && Merged([was], f) == [was]
  {
    assert [was][..0] == [];
    assert forall j <- f :: j in f.Keys && j == k;
  }

  lemma AddToLone(was: string, f: Updates, k: string)
    requires f.Keys == {k} && KeyOf(was) != Some(k)
    ensures IsTail([k], f, WrittenBy([was], f))
    ensures EditedLines([was], f, [k]) == [was, Assignment(k, f[k])]
  {
    LoneLineStays(was, f, k);
    DueOfOne(ORDER, f, k);
    assert Assignments([k], f) == [Assignment(k, f[k])];
  }

  lemma AssignmentIsClean(key: string, v: string)
    requires '\n' !in key && '\r' !in key
    ensures '\n' !in Assignment(key, v) && TrimSuffix(Assignment(key, v), '\r') == Assignment(key, v)
  {
    FormatHasNoLineBreak(v);
    var a := Assignment(key, v);
    assert forall c <- a :: c in key || c == '=' || c in FormatValue(v);
    assert a[|a| - 1] in a;
  }

  lemma LeakReads(was: string, k: string, v: string)
    requires WellFormedKey(k) && was == k + "="
    ensures Reads(was, k) == Some("")
    ensures Reads(Assignment(was, v), k).Some? && Reads(Assignment(was, v), k) != Some("")
  {
    MatchLineIff(was, k, "");
    LeakedValue(k, "=" + FormatValue(v));
    FormatHasNoLineBreak(v);
    assert Assignment(was, v) == k + "=" + ("=" + FormatValue(v));
  }

  lemma LeakedValue(k: string, raw: string)
    requires WellFormedKey(k) && raw != [] && raw[0] == '='
    ensures '\n' !in raw ==> Reads(k + "=" + raw, k).Some? && Reads(k + "=" + raw, k) != Some("")
  {
    MatchLineIff(k + "=" + raw, k, raw);
    LeadingEquals(raw);
  }

  lemma LeadingEquals(raw: string)
    requires raw != [] && raw[0] == '='
    ensures ParseValue(raw) != ""
  {
    TrimReturn(raw);
    TrimRightKeepsHead(raw);
  }

  lemma KeyWithEquals(k: string)
    requires WellFormedKey(k)
    ensures var was := k + "=";
      '\n' !in was && '\r' !in was && TrimSuffix(was, '\r') == was && KeyOf(was) == Some(k) != Some(was)
  {
    var was := k + "=";
    assert forall c <- was :: c in k || c == '=';
    assert was[|was| - 1] in was;
    MatchLineIff(was, k, "");
    assert |k| < |was|;
  }

  /** Why keys must be well formed: the key `k=` is not one, and writing it gives `k` a new value. The service
      never does so: it only ever updates the four keys of ORDER (internal/userver_auth/run_phases.go). */
  lemma MalformedKeyLeaks(k: string, v: string) returns (text: string, text': string)
    requires WellFormedKey(k)
    ensures UpsertTo(text, map[k + "=" := v], text') && Get(text, k) == Some("") != Get(text', k)
  {
    var was := k + "=";
    var f: Updates := map[was := v];
    KeyWithEquals(k);
    LeakLines(was, v);
    AddToLone(was, f, was);
    LeakReads(was, k, v);
    ReadsOfTwo(was, Assignment(was, v), k);
    text, text' := Unlines([was]), Unlines([was, Assignment(was, v)]);
  }

  lemma LeakLines(was: string, v: string)
    requires '\n' !in was && '\r' !in was && was != ""
    ensures var a := Assignment(was, v); Lines(Unlines([was])) == [was] && Lines(Unlines([was, a])) == [was, a]
  {
    AssignmentIsClean(was, v);
    assert forall c <- was + Assignment(was, v) :: c in was || c in Assignment(was, v);
    assert was[|was| - 1] in was;
    TwoLines(was, Assignment(was, v));
  }

  lemma ReadsOfTwo(a: string, b: string, k: string)
    ensures Lookup([a], k) == Reads(a, k)
    ensures Reads(b, k).Some? ==> Lookup([a, b], k) == Reads(b, k)
  {
    LookupLast([], a, k);
    LookupLast([a], b, k);
    assert [] + [a] == [a] && [a] + [b] == [a, b];
  }

  // ---------- The first file ----------

  lemma OrderIsDue(f: Updates)
    requires f.Keys == {"FILEMGR_SYSTEM_TOKEN", "FILEMGR_BOOTSTRAP_ADMIN_USERNAME",
                        "FILEMGR_BOOTSTRAP_ADMIN_PASSWORD", "FILEMGR_BOOTSTRAP_ADMIN_IS_ADMIN"}
    ensures Due(ORDER, f, {}) == [
      "FILEMGR_SYSTEM_TOKEN", "FILEMGR_BOOTSTRAP_ADMIN_USERNAME",
      "FILEMGR_BOOTSTRAP_ADMIN_PASSWORD", "FILEMGR_BOOTSTRAP_ADMIN_IS_ADMIN"]
    ensures forall k <- f :: k in Due(ORDER, f, {})
  {
    assert ORDER[..3][..2] == ORDER[..2] && ORDER[..2][..1] == ORDER[..1] && ORDER[..1][..0] == [];
    assert forall k <- ORDER :: k in f.Keys;
    assert Due(ORDER[..1], f, {}) == ORDER[..1];
    assert Due(ORDER[..2], f, {}) == ORDER[..2];
    assert Due(ORDER[..3], f, {}) == ORDER[..3];
  }

  lemma NotTwice(tail: seq<string>, i: nat)
    requires Distinct(tail) && i < |tail|
    ensures tail[i] in tail && tail[i] !in tail[..i]
  {
  }

  lemma TailIsAll(tail: seq<string>, due: seq<string>, f: Updates)
    requires due <= tail && Distinct(tail) && (forall k <- tail :: k in f) && forall k <- f :: k in due
    ensures tail == due
  {
    assert tail[..|due|] == due;
    if |due| < |tail| { NotTwice(tail, |due|); }
  }

  lemma FourLines(a: string, b: string, c: string, d: string)
    ensures Unlines([a, b, c, d]) == a + "\n" + b + "\n" + c + "\n" + d + "\n"
  {
    assert [a, b, c, d][..3] == [a, b, c] && [a, b, c][..2] == [a, b] && [a, b][..1] == [a] && [a][..0] == [];
    assert Unlines([a]) == a + "\n";
    assert Unlines([a, b]) == a + "\n" + b + "\n";
    assert Unlines([a, b, c]) == a + "\n" + b + "\n" + c + "\n";
  }

  function Line(k: string, f: Updates): string
    requires k in f
  {
    k + "=" + FormatValue(f[k])
  }

  lemma EditOfNothing(f: Updates, text': string) returns (tail: seq<string>)
    requires UpsertTo("", f, text')
    ensures IsTail(tail, f, {}) && text' == Unlines(Assignments(tail, f))
  {
    NothingThere(f);
    tail :| IsTail(tail, f, {}) && text' == Unlines(EditedLines([], f, tail));
    assert [] + Assignments(tail, f) == Assignments(tail, f);
  }

  lemma NothingThere(f: Updates)
    ensures Lines("") == [] && WrittenBy([], f) == {} && Merged([], f) == []
  {
  }

  lemma FourAssignments(a: string, b: string, c: string, d: string, f: Updates)
    requires {a, b, c, d} <= f.Keys
    ensures Assignments([a, b, c, d], f) == [Line(a, f), Line(b, f), Line(c, f), Line(d, f)]
    ensures Unlines(Assignments([a, b, c, d], f)) ==
      Line(a, f) + "\n" + Line(b, f) + "\n" + Line(c, f) + "\n" + Line(d, f) + "\n"
  {
    FourLines(Line(a, f), Line(b, f), Line(c, f), Line(d, f));
  }

  /** The file that a first start writes where there was none: the four lines, in this order, each a key, an equals
      sign and the printed value. */
  lemma FirstFile(f: Updates, text': string)
    requires f.Keys == {"FILEMGR_SYSTEM_TOKEN", "FILEMGR_BOOTSTRAP_ADMIN_USERNAME",
                        "FILEMGR_BOOTSTRAP_ADMIN_PASSWORD", "FILEMGR_BOOTSTRAP_ADMIN_IS_ADMIN"}
    requires UpsertTo("", f, text')
    ensures text' == Line("FILEMGR_SYSTEM_TOKEN", f) + "\n" + Line("FILEMGR_BOOTSTRAP_ADMIN_USERNAME", f) + "\n"
                     + Line("FILEMGR_BOOTSTRAP_ADMIN_PASSWORD", f) + "\n"
                     + Line("FILEMGR_BOOTSTRAP_ADMIN_IS_ADMIN", f) + "\n"
  {
    var tail := EditOfNothing(f, text');
    OrderIsDue(f);
    TailIsAll(tail, Due(ORDER, f, {}), f);
    FourAssignments("FILEMGR_SYSTEM_TOKEN", "FILEMGR_BOOTSTRAP_ADMIN_USERNAME", "FILEMGR_BOOTSTRAP_ADMIN_PASSWORD",
                    "FILEMGR_BOOTSTRAP_ADMIN_IS_ADMIN", f);
  }

  // ---------- Many runs ----------

  /** One run, key by key: a protected value stays, otherwise a non-empty update wins, otherwise the old value
      stays. */
  lemma SingleRun(text: string, u: Updates, text': string, k: string)
    requires WellFormedKeys(NonEmpty(u)) && PersistTo(text, u, text')
    ensures Get(text', k) ==
      if KeptInFile(text, k) || k !in u || u[k] == "" then Get(text, k) else Some(Stored(u[k]))
  {
    var f := Unprotected(text, u);
    assert forall j <- NonEmpty(f) :: j in NonEmpty(u);
    ReadAfterWrite(text, f, text', k);
  }

  ghost predicate Run(text: string, u: Updates, text': string) {
    WellFormedKeys(NonEmpty(u)) && PersistTo(text, u, text')
  }

  /** The states a file goes through, one run of `step` after another. */
  ghost predicate IsChain<S, U>(states: seq<S>, inputs: seq<U>, step: (S, U, S) -> bool) {
    && |states| == |inputs| + 1
    && forall n | 0 <= n < |inputs| :: step(states[n], inputs[n], states[n + 1])
  }

  lemma {:induction false} ChainKeeps<S(!new), U(!new), T>(
    states: seq<S>, inputs: seq<U>, step: (S, U, S) -> bool, get: S -> T, v: T, i: nat, j: nat)
    requires IsChain(states, inputs, step) && i <= j < |states| && get(states[i]) == v
    requires forall s, u, s' | step(s, u, s') :: get(s) == v ==> get(s') == v
    ensures get(states[j]) == v
  {
    if i < j {
      ChainKeeps(states, inputs, step, get, v, i, j - 1);
      assert step(states[j - 1], inputs[j - 1], states[j - 1 + 1]);
    }
  }

  lemma ProtectedStays(k: string, v: string)
    requires Protected(v)
    ensures forall t, u, t' | Run(t, u, t') :: Get(t, k) == Some(v) ==> Get(t', k) == Some(v)
  {
    forall t, u, t' | Run(t, u, t') ensures Get(t, k) == Some(v) ==> Get(t', k) == Some(v) {
      SingleRun(t, u, t', k);
    }
  }

  /** Over any runs with any updates, a value that is neither empty nor a placeholder never changes again. */
  lemma FirstWriterWins(texts: seq<string>, us: seq<Updates>, k: string, v: string, i: nat, j: nat)
    requires IsChain(texts, us, Run) && i <= j < |texts|
    requires Get(texts[i], k) == Some(v) && Protected(v)
    ensures Get(texts[j], k) == Some(v)
  {
    ProtectedStays(k, v);
    ChainKeeps(texts, us, Run, t => Get(t, k), Some(v), i, j);
  }

  /** The run has a real, printable value for a key that has none in the file. */
  ghost predicate Supplies(text: string, u: Updates, k: string, v: string) {
    k in u && u[k] == v != "" && RoundTrips(v) && !KeptInFile(text, k)
  }

  lemma RealValueLands(t: string, u: Updates, t': string, k: string, v: string)
    requires Run(t, u, t') && Supplies(t, u, k, v)
    ensures Get(t', k) == Some(v)
  {
    SingleRun(t, u, t', k);
    RoundTrip(v);
  }

  /** The first real value a run supplies for a key is what every later reader gets: nothing that runs
      after it changes the key again. */
  lemma FirstValueStays(text: string, u: Updates, texts: seq<string>, us: seq<Updates>, k: string, v: string, j: nat)
    requires IsChain(texts, us, Run) && j < |texts|
    requires Run(text, u, texts[0]) && Supplies(text, u, k, v) && Protected(v)
    ensures Get(texts[j], k) == Some(v)
  {
    RealValueLands(text, u, texts[0], k, v);
    FirstWriterWins(texts, us, k, v, 0, j);
  }
}

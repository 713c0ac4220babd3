/** What one edit of an environment file leaves behind: which lines stay, which are replaced and where new ones
    go (internal/userver_auth/envpersist.go). */
module EnvEdit {
  import opened Text
  import opened EnvValue
  import opened EnvText

  type Updates = map<string, string>

  const ORDER: seq<string> := [
    "FILEMGR_SYSTEM_TOKEN",
    "FILEMGR_BOOTSTRAP_ADMIN_USERNAME",
    "FILEMGR_BOOTSTRAP_ADMIN_PASSWORD",
    "FILEMGR_BOOTSTRAP_ADMIN_IS_ADMIN"
  ]

  predicate WellFormedKeys(f: Updates) {
    forall k <- f :: WellFormedKey(k)
  }

  function Assignment(k: string, v: string): string {
    k + "=" + FormatValue(v)
  }

  predicate Targets(l: string, f: Updates) {
    KeyOf(l).Some? && KeyOf(l).value in f
  }

  /** The first line that assigns an updated key is replaced, later ones are dropped, all others stay. */
  function Merged(ls: seq<string>, f: Updates): seq<string> {
    if ls == [] then []
    else
      var pre, l := ls[..|ls| - 1], ls[|ls| - 1];
      if !Targets(l, f) then Merged(pre, f) + [l]
      else if Assigns(pre, KeyOf(l).value) then Merged(pre, f)
      else Merged(pre, f) + [Assignment(KeyOf(l).value, f[KeyOf(l).value])]
  }

  function WrittenBy(ls: seq<string>, f: Updates): set<string> {
    set k | k in f && Assigns(ls, k)
  }

  function Assignments(keys: seq<string>, f: Updates): seq<string>
    requires forall k <- keys :: k in f
  {
    seq(|keys|, i requires 0 <= i < |keys| => Assignment(keys[i], f[keys[i]]))
  }

  predicate Distinct(keys: seq<string>) {
    forall i, j | 0 <= i < j < |keys| :: keys[i] != keys[j]
  }

  /** The keys of `order` that are updated and not yet written, in that order. */
  function Due(order: seq<string>, f: Updates, written: set<string>): (due: seq<string>)
    ensures forall k <- due :: k in f && k !in written
  {
    if order == [] then []
    else
      var k := order[|order| - 1];
      var pre := Due(order[..|order| - 1], f, written);
      if k in f && k !in written && k !in pre then pre + [k] else pre
  }

  /** The keys appended at the end: every updated key not yet written, once, the well-known ones first. */
  predicate IsTail(tail: seq<string>, f: Updates, written: set<string>) {
    && Distinct(tail)
    && (forall k <- tail :: k in f && k !in written)
    && (forall k <- f :: k in written || k in tail)
    && Due(ORDER, f, written) <= tail
  }

  function EditedLines(ls: seq<string>, f: Updates, tail: seq<string>): seq<string>
    requires forall k <- tail :: k in f
  {
    Merged(ls, f) + Assignments(tail, f)
  }

  /** One edit, whatever order the remaining keys come out of the map in. */
  ghost predicate UpsertTo(text: string, f: Updates, text': string) {
    exists tail | IsTail(tail, f, WrittenBy(Lines(text), f)) ::
      text' == Unlines(EditedLines(Lines(text), f, tail))
  }

  // ---------- Lines that assign ----------

  lemma AssignmentReads(k: string, v: string)
    requires WellFormedKey(k)
    ensures MatchLine(Assignment(k, v)) == Some(Entry(k, FormatValue(v)))
    ensures '\n' !in Assignment(k, v) && TrimSuffix(Assignment(k, v), '\r') == Assignment(k, v)
  {
    FormatHasNoLineBreak(v);
    MatchLineIff(Assignment(k, v), k, FormatValue(v));
    assert forall c <- k + "=" :: c != '\n' && c != '\r';
    var a := Assignment(k, v);
    assert forall c <- a :: c in k + "=" || c in FormatValue(v);
    assert a[|a| - 1] in a;
  }

  lemma AssignmentKey(k: string, v: string)
    requires WellFormedKey(k)
    ensures KeyOf(Assignment(k, v)) == Some(k)
  {
    AssignmentReads(k, v);
  }

  function Count(ls: seq<string>, k: string): nat {
    if ls == [] then 0 else Count(ls[..|ls| - 1], k) + (if KeyOf(ls[|ls| - 1]) == Some(k) then 1 else 0)
  }

  lemma CountLast(ls: seq<string>, l: string, k: string)
    ensures Count(ls + [l], k) == Count(ls, k) + if KeyOf(l) == Some(k) then 1 else 0
  {
    assert (ls + [l])[..|ls|] == ls;
  }

  lemma {:induction false} CountAppend(a: seq<string>, b: seq<string>, k: string)
    ensures Count(a + b, k) == Count(a, k) + Count(b, k)
  {
    if b == [] {
      assert a + b == a;
    } else {
      var n := |b| - 1;
      assert a + b == (a + b[..n]) + [b[n]];
      CountLast(a + b[..n], b[n], k);
      CountAppend(a, b[..n], k);
    }
  }

  lemma {:induction false} CountZeroIff(ls: seq<string>, k: string)
    ensures Count(ls, k) == 0 <==> !Assigns(ls, k)
  {
    if ls != [] {
      var n := |ls| - 1;
      CountZeroIff(ls[..n], k);
      AssignsLast(ls[..n], ls[n], k);
      assert ls == ls[..n] + [ls[n]];
    }
  }

  lemma MergedLast(pre: seq<string>, l: string, f: Updates)
    ensures var k := KeyOf(l);
      Merged(pre + [l], f) ==
        if !Targets(l, f) then Merged(pre, f) + [l]
        else if Assigns(pre, k.value) then Merged(pre, f)
        else Merged(pre, f) + [Assignment(k.value, f[k.value])]
  {
    assert (pre + [l])[..|pre|] == pre;
  }

  lemma MergedCountLast(pre: seq<string>, l: string, f: Updates, k: string)
    requires WellFormedKeys(f)
    requires Count(Merged(pre, f), k) == if k in f then (if Assigns(pre, k) then 1 else 0) else Count(pre, k)
    ensures var n := Count(Merged(pre + [l], f), k);
      n == if k in f then (if Assigns(pre, k) || KeyOf(l) == Some(k) then 1 else 0) else Count(pre + [l], k)
  {
    MergedLast(pre, l, f);
    CountLast(pre, l, k);
    if !Targets(l, f) {
      CountLast(Merged(pre, f), l, k);
    } else {
      var j := KeyOf(l).value;
      AssignmentKey(j, f[j]);
      CountLast(Merged(pre, f), Assignment(j, f[j]), k);
    }
  }

  lemma {:induction false} MergedCount(ls: seq<string>, f: Updates, k: string)
    requires WellFormedKeys(f)
    ensures Count(Merged(ls, f), k) == if k in f then (if Assigns(ls, k) then 1 else 0) else Count(ls, k)
  {
    if ls != [] {
      var pre, l := ls[..|ls| - 1], ls[|ls| - 1];
      assert ls == pre + [l];
      MergedCount(pre, f, k);
      AssignsLast(pre, l, k);
      MergedCountLast(pre, l, f, k);
    }
  }

  lemma AssignmentsLast(tail: seq<string>, k: string, f: Updates)
    requires k in f && forall j <- tail :: j in f
    ensures Assignments(tail + [k], f) == Assignments(tail, f) + [Assignment(k, f[k])]
  {
  }

  lemma {:induction false} TailCount(tail: seq<string>, f: Updates, k: string)
    requires WellFormedKeys(f) && Distinct(tail) && forall j <- tail :: j in f
    ensures Count(Assignments(tail, f), k) == if k in tail then 1 else 0
  {
    if tail != [] {
      var pre, last := tail[..|tail| - 1], tail[|tail| - 1];
      assert tail == pre + [last] && last in tail && last !in pre;
      TailCount(pre, f, k);
      AssignmentsLast(pre, last, f);
      AssignmentKey(last, f[last]);
      CountLast(Assignments(pre, f), Assignment(last, f[last]), k);
    }
  }

  /** Duplicates collapse: every updated key is assigned by exactly one line, every other key by as many lines
      as before. */
  lemma EveryKeyOnce(ls: seq<string>, f: Updates, tail: seq<string>, k: string)
    requires WellFormedKeys(f) && IsTail(tail, f, WrittenBy(ls, f))
    ensures Count(EditedLines(ls, f, tail), k) == if k in f then 1 else Count(ls, k)
  {
    CountAppend(Merged(ls, f), Assignments(tail, f), k);
    MergedCount(ls, f, k);
    TailCount(tail, f, k);
  }

  // ---------- Lines that stay ----------

  /** The lines an edit does not touch. */
  function Others(ls: seq<string>, f: Updates): seq<string> {
    if ls == [] then []
    else
      var pre := Others(ls[..|ls| - 1], f);
      if Targets(ls[|ls| - 1], f) then pre else pre + [ls[|ls| - 1]]
  }

  lemma OthersLast(ls: seq<string>, l: string, f: Updates)
    ensures Others(ls + [l], f) == if Targets(l, f) then Others(ls, f) else Others(ls, f) + [l]
  {
    assert (ls + [l])[..|ls|] == ls;
  }

  lemma {:induction false} OthersMerged(ls: seq<string>, f: Updates)
    requires WellFormedKeys(f)
    ensures Others(Merged(ls, f), f) == Others(ls, f)
  {
    if ls != [] {
      var pre, l := ls[..|ls| - 1], ls[|ls| - 1];
      OthersMerged(pre, f);
      if !Targets(l, f) {
        OthersLast(Merged(pre, f), l, f);
      } else {
        var k := KeyOf(l).value;
        AssignmentReads(k, f[k]);
        OthersLast(Merged(pre, f), Assignment(k, f[k]), f);
      }
    }
  }

  lemma {:induction false} OthersTail(ls: seq<string>, f: Updates, tail: seq<string>)
    requires WellFormedKeys(f) && forall k <- tail :: k in f
    ensures Others(ls + Assignments(tail, f), f) == Others(ls, f)
  {
    if tail == [] {
      assert ls + Assignments(tail, f) == ls;
    } else {
      var n := |tail| - 1;
      assert tail[n] in tail;
      var a := Assignment(tail[n], f[tail[n]]);
      assert ls + Assignments(tail, f) == (ls + Assignments(tail[..n], f)) + [a];
      OthersTail(ls, f, tail[..n]);
      AssignmentReads(tail[n], f[tail[n]]);
      OthersLast(ls + Assignments(tail[..n], f), a, f);
    }
  }

  /** All other lines stay as they were and in their order, comments and blank lines included. */
  lemma OtherLinesKept(ls: seq<string>, f: Updates, tail: seq<string>)
    requires WellFormedKeys(f) && forall k <- tail :: k in f
    ensures Others(EditedLines(ls, f, tail), f) == Others(ls, f)
  {
    OthersMerged(ls, f);
    OthersTail(Merged(ls, f), f, tail);
  }

  lemma {:induction false} MergedPrefix(ls: seq<string>, f: Updates, i: nat)
    requires i <= |ls|
    ensures Merged(ls[..i], f) <= Merged(ls, f)
  {
    if i == |ls| {
      assert ls[..i] == ls;
    } else {
      assert ls[..|ls| - 1][..i] == ls[..i];
      MergedPrefix(ls[..|ls| - 1], f, i);
    }
  }

  /** An updated key keeps the place of its first old line: what stands before it is the edit of what stood
      before that line. */
  lemma FirstPlaceKept(ls: seq<string>, f: Updates, tail: seq<string>, i: nat, k: string)
    requires WellFormedKeys(f) && forall j <- tail :: j in f
    requires i < |ls| && k in f && KeyOf(ls[i]) == Some(k) && !Assigns(ls[..i], k)
    ensures var out, p := EditedLines(ls, f, tail), |Merged(ls[..i], f)|;
      && p < |out| && out[p] == Assignment(k, f[k])
      && out[..p] == Merged(ls[..i], f) && Others(out[..p], f) == Others(ls[..i], f)
  {
    MergedPrefix(ls, f, i + 1);
    assert ls[..i + 1][..i] == ls[..i];
    OthersMerged(ls[..i], f);
  }

  lemma TailStandsAt(ls: seq<string>, f: Updates, tail: seq<string>, i: nat)
    requires (forall j <- tail :: j in f) && i < |tail|
    ensures var out, p := EditedLines(ls, f, tail), |Merged(ls, f)| + i;
      p < |out| && out[p] == Assignment(tail[i], f[tail[i]]) && out[..p] == Merged(ls, f) + Assignments(tail[..i], f)
  {
    assert forall j <- tail[..i] :: j in tail;
  }

  /** An updated key without an old line comes after all old lines. */
  lemma NewKeysAtEnd(ls: seq<string>, f: Updates, tail: seq<string>, i: nat)
    requires WellFormedKeys(f) && (forall j <- tail :: j in f) && i < |tail|
    ensures var out, p := EditedLines(ls, f, tail), |Merged(ls, f)| + i;
      p < |out| && out[p] == Assignment(tail[i], f[tail[i]]) && Others(out[..p], f) == Others(ls, f)
  {
    TailStandsAt(ls, f, tail, i);
    assert forall j <- tail[..i] :: j in tail;
    OthersTail(Merged(ls, f), f, tail[..i]);
    OthersMerged(ls, f);
  }

  // ---------- Reading the result ----------

  lemma {:induction false} MergedIsClean(ls: seq<string>, f: Updates)
    requires Clean(ls) && WellFormedKeys(f)
    ensures Clean(Merged(ls, f))
  {
    if ls != [] {
      var l := ls[|ls| - 1];
      MergedIsClean(ls[..|ls| - 1], f);
      if Targets(l, f) { AssignmentReads(KeyOf(l).value, f[KeyOf(l).value]); }
    }
  }

  lemma EditedIsClean(ls: seq<string>, f: Updates, tail: seq<string>)
    requires Clean(ls) && WellFormedKeys(f) && forall k <- tail :: k in f
    ensures Clean(EditedLines(ls, f, tail))
  {
    MergedIsClean(ls, f);
    forall i | 0 <= i < |tail| ensures '\n' !in Assignments(tail, f)[i] {
      assert tail[i] in tail;
      AssignmentReads(tail[i], f[tail[i]]);
    }
  }

  /** The lines of an edited file, as the next reader splits them. */
  lemma LinesAfter(ls: seq<string>, f: Updates, tail: seq<string>)
    requires Clean(ls) && WellFormedKeys(f) && f != map[] && IsTail(tail, f, WrittenBy(ls, f))
    ensures Lines(Unlines(EditedLines(ls, f, tail))) == StripReturns(EditedLines(ls, f, tail))
  {
    var out := EditedLines(ls, f, tail);
    EditedIsClean(ls, f, tail);
    var k :| k in f;
    EveryKeyOnce(ls, f, tail, k);
    CountZeroIff(out, k);
    LookupAssigns(out, k);
    StripKeepsLookup(out, k);
    assert Lookup([""], k) == None by { ReadsIffKey("", k); }
    LinesOfUnlines(out);
  }

  lemma LookupLast(ls: seq<string>, l: string, k: string)
    ensures Lookup(ls + [l], k) == if Reads(l, k).Some? then Reads(l, k) else Lookup(ls, k)
  {
    assert (ls + [l])[..|ls|] == ls;
  }

  /** What an edit of the lines up to some point lets a reader see there. */
  function AfterMerge(ls: seq<string>, f: Updates, k: string): Option<string> {
    if k !in f then Lookup(ls, k) else if Assigns(ls, k) then Some(ParseValue(FormatValue(f[k]))) else None
  }

  lemma AssignmentStores(k: string, v: string, j: string)
    requires WellFormedKey(k)
    ensures Reads(Assignment(k, v), j) == if j == k then Some(ParseValue(FormatValue(v))) else None
  {
    AssignmentReads(k, v);
  }

  lemma MergedLookupLast(pre: seq<string>, l: string, f: Updates, k: string)
    requires WellFormedKeys(f) && Lookup(Merged(pre, f), k) == AfterMerge(pre, f, k)
    ensures Lookup(Merged(pre + [l], f), k) == AfterMerge(pre + [l], f, k)
  {
    MergedLast(pre, l, f);
    AssignsLast(pre, l, k);
    ReadsIffKey(l, k);
    if !Targets(l, f) {
      LookupLast(pre, l, k);
      LookupLast(Merged(pre, f), l, k);
    } else {
      var j := KeyOf(l).value;
      LookupLast(pre, l, k);
      AssignmentStores(j, f[j], k);
      LookupLast(Merged(pre, f), Assignment(j, f[j]), k);
    }
  }

  lemma {:induction false} MergedLookup(ls: seq<string>, f: Updates, k: string)
    requires WellFormedKeys(f)
    ensures Lookup(Merged(ls, f), k) == AfterMerge(ls, f, k)
  {
    if ls != [] {
      assert ls == ls[..|ls| - 1] + [ls[|ls| - 1]];
      MergedLookup(ls[..|ls| - 1], f, k);
      MergedLookupLast(ls[..|ls| - 1], ls[|ls| - 1], f, k);
    }
  }

  lemma {:induction false} TailLookup(tail: seq<string>, f: Updates, k: string)
    requires WellFormedKeys(f) && forall j <- tail :: j in f
    ensures Lookup(Assignments(tail, f), k) == if k in tail then Some(ParseValue(FormatValue(f[k]))) else None
  {
    if tail != [] {
      var n := |tail| - 1;
      TailLookup(tail[..n], f, k);
      assert tail == tail[..n] + [tail[n]] && tail[n] in tail;
      var a := Assignment(tail[n], f[tail[n]]);
      assert Assignments(tail, f) == Assignments(tail[..n], f) + [a];
      AssignmentReads(tail[n], f[tail[n]]);
      LookupLast(Assignments(tail[..n], f), a, k);
    }
  }

  lemma EditedLookup(ls: seq<string>, f: Updates, tail: seq<string>, k: string)
    requires WellFormedKeys(f) && IsTail(tail, f, WrittenBy(ls, f))
    ensures Lookup(EditedLines(ls, f, tail), k) ==
      if k in f then Some(ParseValue(FormatValue(f[k]))) else Lookup(ls, k)
  {
    LookupAppend(Merged(ls, f), Assignments(tail, f), k);
    MergedLookup(ls, f, k);
    TailLookup(tail, f, k);
  }

  lemma SomethingIsWritten(ls: seq<string>, f: Updates, tail: seq<string>)
    requires f != map[] && IsTail(tail, f, WrittenBy(ls, f))
    ensures EditedLines(ls, f, tail) != []
  {
    var k :| k in f;
    if tail == [] { MergedIsNotEmpty(ls, f, k); }
  }

  lemma {:induction false} MergedIsNotEmpty(ls: seq<string>, f: Updates, k: string)
    requires k in f && Assigns(ls, k)
    ensures Merged(ls, f) != []
  {
    var pre, l := ls[..|ls| - 1], ls[|ls| - 1];
    assert ls == pre + [l];
    if Targets(l, f) && Assigns(pre, KeyOf(l).value) {
      MergedIsNotEmpty(pre, f, KeyOf(l).value);
    }
  }

  // ---------- Running the edit again ----------

  /** Every line of an updated key is already the line the edit would write. */
  predicate Settled(ls: seq<string>, f: Updates) {
    forall l <- ls :: Targets(l, f) ==> l == Assignment(KeyOf(l).value, f[KeyOf(l).value])
  }

  lemma {:induction false} MergedIsSettled(ls: seq<string>, f: Updates)
    requires WellFormedKeys(f)
    ensures Settled(Merged(ls, f), f)
  {
    if ls != [] {
      var l := ls[|ls| - 1];
      MergedIsSettled(ls[..|ls| - 1], f);
      if Targets(l, f) { AssignmentReads(KeyOf(l).value, f[KeyOf(l).value]); }
    }
  }

  lemma EditedIsSettled(ls: seq<string>, f: Updates, tail: seq<string>)
    requires WellFormedKeys(f) && forall k <- tail :: k in f
    ensures Settled(EditedLines(ls, f, tail), f)
  {
    MergedIsSettled(ls, f);
    forall i | 0 <= i < |tail|
      ensures var a := Assignments(tail, f)[i];
        Targets(a, f) ==> a == Assignment(KeyOf(a).value, f[KeyOf(a).value])
    {
      assert tail[i] in tail;
      AssignmentReads(tail[i], f[tail[i]]);
    }
  }

  lemma {:induction false} StripKeepsCount(ls: seq<string>, k: string)
    ensures Count(StripReturns(ls), k) == Count(ls, k)
  {
    if ls != [] {
      StripKeepsCount(ls[..|ls| - 1], k);
      StripKeepsLine(ls[|ls| - 1], k);
      StripLast(ls);
    }
  }

  lemma StripKeepsSettled(ls: seq<string>, f: Updates)
    requires WellFormedKeys(f) && Settled(ls, f)
    ensures Settled(StripReturns(ls), f)
  {
    forall i | 0 <= i < |ls|
      ensures var s := StripReturns(ls)[i];
        Targets(s, f) ==> s == Assignment(KeyOf(s).value, f[KeyOf(s).value])
    {
      StripKeepsLine(ls[i], "");
      assert ls[i] in ls;
      if Targets(ls[i], f) { AssignmentReads(KeyOf(ls[i]).value, f[KeyOf(ls[i]).value]); }
    }
  }

  lemma {:induction false} SettledIsFixed(ls: seq<string>, f: Updates)
    requires Settled(ls, f) && forall k <- f :: Count(ls, k) <= 1
    ensures Merged(ls, f) == ls
  {
    if ls != [] {
      var pre, l := ls[..|ls| - 1], ls[|ls| - 1];
      assert ls == pre + [l] && l in ls;
      forall k <- f ensures Count(pre, k) <= 1 { CountLast(pre, l, k); }
      SettledIsFixed(pre, f);
      if Targets(l, f) {
        CountLast(pre, l, KeyOf(l).value);
        CountZeroIff(pre, KeyOf(l).value);
      }
    }
  }

  /** The edit of an edited file only strips: it is the same lines less one carriage return each. */
  lemma EditAgain(ls: seq<string>, f: Updates, tail: seq<string>, tail': seq<string>)
    requires WellFormedKeys(f) && IsTail(tail, f, WrittenBy(ls, f))
    requires var ls' := StripReturns(EditedLines(ls, f, tail)); IsTail(tail', f, WrittenBy(ls', f))
    ensures var ls' := StripReturns(EditedLines(ls, f, tail)); EditedLines(ls', f, tail') == ls'
  {
    var out := EditedLines(ls, f, tail);
    var ls' := StripReturns(out);
    assert tail' == [] || tail'[0] in tail';
    EditedIsSettled(ls, f, tail);
    StripKeepsSettled(out, f);
    forall k <- f ensures Count(ls', k) == 1 {
      StripKeepsCount(out, k);
      EveryKeyOnce(ls, f, tail, k);
    }
    SettledIsFixed(ls', f);
    forall k <- f ensures k in WrittenBy(ls', f) { CountZeroIff(ls', k); }
    assert tail' == [];
  }

  lemma {:induction false} OthersIff(ls: seq<string>, f: Updates, l: string)
    ensures l in Others(ls, f) <==> l in ls && !Targets(l, f)
  {
    if ls != [] {
      OthersIff(ls[..|ls| - 1], f, l);
      assert ls == ls[..|ls| - 1] + [ls[|ls| - 1]];
    }
  }

  lemma StripUnchangedIff(ls: seq<string>)
    ensures StripReturns(ls) == ls <==> forall l <- ls :: !EndsInReturn(l)
  {
    assert forall i | 0 <= i < |ls| :: StripReturns(ls)[i] == ls[i] <==> !EndsInReturn(ls[i]);
    if StripReturns(ls) != ls {
      var i :| 0 <= i < |ls| && StripReturns(ls)[i] != ls[i];
      assert ls[i] in ls;
    }
  }

  lemma StripChangesIff(ls: seq<string>, f: Updates, tail: seq<string>)
    requires WellFormedKeys(f) && forall k <- tail :: k in f
    ensures var out := EditedLines(ls, f, tail);
      StripReturns(out) == out <==> forall l <- Others(ls, f) :: !EndsInReturn(l)
  {
    var out := EditedLines(ls, f, tail);
    OtherLinesKept(ls, f, tail);
    EditedIsSettled(ls, f, tail);
    forall l ensures l in Others(ls, f) <==> l in out && !Targets(l, f) { OthersIff(out, f, l); }
    forall l | l in out && Targets(l, f) ensures !EndsInReturn(l) {
      AssignmentReads(KeyOf(l).value, f[KeyOf(l).value]);
    }
    StripUnchangedIff(out);
  }
}

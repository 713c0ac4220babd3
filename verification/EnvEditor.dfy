/** The environment file and the editor that rewrites it (internal/userver_auth/envpersist.go). Reading and
    writing the file can fail; a failed write leaves the file alone. */
module EnvEditor {
  import opened Text
  import opened EnvValue
  import opened EnvText
  import opened EnvEdit
  import opened EnvLaws

  /** The map the reader builds holds exactly the keys the text assigns, each with its last value. */
  ghost predicate MapOf(m: map<string, string>, ls: seq<string>) {
    forall k :: Lookup(ls, k) == if k in m then Some(m[k]) else None
  }

  lemma UnlinesLast(ls: seq<string>, l: string)
    ensures Unlines(ls + [l]) == Unlines(ls) + l + "\n"
  {
    assert (ls + [l])[..|ls|] == ls;
  }

  lemma WrittenLast(ls: seq<string>, l: string, f: Updates)
    ensures WrittenBy(ls + [l], f) == WrittenBy(ls, f) + if Targets(l, f) then {KeyOf(l).value} else {}
  {
    forall k ensures Assigns(ls + [l], k) <==> Assigns(ls, k) || KeyOf(l) == Some(k) { AssignsLast(ls, l, k); }
  }

  /** The builder holds the edit of the lines read so far. */
  ghost predicate Built(out: string, written: set<string>, ls: seq<string>, f: Updates) {
    out == Unlines(Merged(ls, f)) && written == WrittenBy(ls, f)
  }

  lemma BuildKeep(out: string, written: set<string>, ls: seq<string>, l: string, f: Updates)
    requires Built(out, written, ls, f) && !Targets(l, f)
    ensures Built(out + l + "\n", written, ls + [l], f)
  {
    WrittenLast(ls, l, f);
    UnlinesLast(Merged(ls, f), l);
    assert (ls + [l])[..|ls|] == ls;
  }

  lemma BuildReplace(out: string, written: set<string>, ls: seq<string>, l: string, f: Updates, k: string)
    requires Built(out, written, ls, f) && KeyOf(l) == Some(k) && k in f
    ensures Built(if k in written then out else out + Assignment(k, f[k]) + "\n", written + {k}, ls + [l], f)
  {
    WrittenLast(ls, l, f);
    UnlinesLast(Merged(ls, f), Assignment(k, f[k]));
    assert (ls + [l])[..|ls|] == ls;
  }

  /** mergeEnvLinesIntoBuilder. */
  method MergeLines(lines: seq<string>, filtered: Updates) returns (out: string, written: set<string>)
    ensures out == Unlines(Merged(lines, filtered)) && written == WrittenBy(lines, filtered)
  {
    out, written := "", {};
    for n := 0 to |lines|
      invariant Built(out, written, lines[..n], filtered)
    {
      var line := lines[n];
      assert lines[..n + 1] == lines[..n] + [line];
      var m := MatchLine(line);
      if m.Some? {
        var k := m.value.key;
        if k in filtered {
          BuildReplace(out, written, lines[..n], line, filtered, k);
          if k !in written {
            var v := FormatEnvValue(filtered[k]);
            out := out + (k + "=" + v) + "\n";
          }
          written := written + {k};
          continue;
        }
      }
      BuildKeep(out, written, lines[..n], line, filtered);
      out := out + line + "\n";
    }
    assert lines[..|lines|] == lines;
  }

  /** The keys of `tail` have been appended to `out`, once each. */
  ghost predicate Appended(out: string, r: string, tail: seq<string>, f: Updates, written: set<string>) {
    && Distinct(tail)
    && (forall k <- tail :: k in f && k !in written)
    && r == out + Unlines(Assignments(tail, f))
  }

  lemma AppendOne(out: string, r: string, tail: seq<string>, f: Updates, written: set<string>, k: string)
    requires Appended(out, r, tail, f, written)
    requires k in f && k !in written && k !in tail
    ensures Appended(out, r + Assignment(k, f[k]) + "\n", tail + [k], f, written)
  {
    AssignmentsLast(tail, k, f);
    UnlinesLast(Assignments(tail, f), Assignment(k, f[k]));
    Assoc(out, Unlines(Assignments(tail, f)), Assignment(k, f[k]));
    Assoc(out, Unlines(Assignments(tail, f)) + Assignment(k, f[k]), "\n");
  }

  /** appendMissingEnvKeys: the well-known keys in their fixed order, then the rest in any order. */
  method AppendMissing(out: string, filtered: Updates, written: set<string>) returns (r: string)
    ensures exists tail | IsTail(tail, filtered, written) :: r == out + Unlines(Assignments(tail, filtered))
  {
    r := out;
    ghost var tail := [];
    var done := written;
    for n := 0 to |ORDER|
      invariant Appended(out, r, tail, filtered, written)
      invariant forall k :: k in done <==> k in written || k in tail
      invariant tail == Due(ORDER[..n], filtered, written)
    {
      var k := ORDER[n];
      assert ORDER[..n + 1][..n] == ORDER[..n];
      if k in filtered && k !in done {
        AppendOne(out, r, tail, filtered, written, k);
        var v := FormatEnvValue(filtered[k]);
        r := r + (k + "=" + v) + "\n";
        tail := tail + [k];
        done := done + {k};
      }
    }
    assert ORDER[..|ORDER|] == ORDER;
    ghost var due := tail;
    var rest := set k | k in filtered && k !in done;
    while rest != {}
      invariant Appended(out, r, tail, filtered, written) && due <= tail
      invariant forall k :: k in rest <==> k in filtered && k !in written && k !in tail
      decreases |rest|
    {
      var k :| k in rest;
      AppendOne(out, r, tail, filtered, written, k);
      var v := FormatEnvValue(filtered[k]);
      r := r + (k + "=" + v) + "\n";
      tail := tail + [k];
      rest := rest - {k};
    }
    assert IsTail(tail, filtered, written);
  }

  lemma {:induction false} UnlinesAppend(a: seq<string>, b: seq<string>)
    ensures Unlines(a + b) == Unlines(a) + Unlines(b)
  {
    if b == [] {
      assert a + b == a;
    } else {
      var n := |b| - 1;
      assert a + b == (a + b[..n]) + [b[n]];
      UnlinesLast(a + b[..n], b[n]);
      UnlinesAppend(a, b[..n]);
      Assoc(Unlines(a), Unlines(b[..n]), b[n]);
      Assoc(Unlines(a), Unlines(b[..n]) + b[n], "\n");
    }
  }

  lemma EndsInLineFeed(ls: seq<string>)
    requires ls != []
    ensures TrimSuffix(Unlines(ls), '\n') + "\n" == Unlines(ls)
  {
  }

  lemma Admits(text: string, u: Updates, existing: map<string, string>, k: string)
    requires MapOf(existing, Lines(text)) && k in u
    ensures k in Unprotected(text, u) <==>
      u[k] != "" && !(k in existing && TrimSpace(existing[k]) != "" && !Placeholder(TrimSpace(existing[k])))
  {
    assert Get(text, k) == if k in existing then Some(existing[k]) else None;
  }

  class EnvFile {
    var content: Option<string>

    function Raw(): string reads this {
      if content.Some? then content.value else ""
    }

    /** readLastEnvFileValues. */
    method ReadLast(readable: bool) returns (out: Option<map<string, string>>)
      ensures readable <==> out.Some?
      ensures readable ==> MapOf(out.value, Lines(Raw()))
    {
      if !readable {
        return None;
      }
      var lines := Lines(Raw());
      var m: map<string, string> := map[];
      for n := 0 to |lines|
        invariant MapOf(m, lines[..n])
      {
        var line := lines[n];
        assert lines[..n + 1][..n] == lines[..n];
        var t := TrimSpace(line);
        if t == "" || HasPrefix(t, "#") {
          SkippedLinesDoNotMatch(line);
          continue;
        }
        var e := MatchLine(line);
        if e.None? {
          continue;
        }
        var v := ParseEnvValue(e.value.raw);
        m := m[e.value.key := v];
      }
      assert lines[..|lines|] == lines;
      out := Some(m);
    }

    /** filterUpdatesSkipProtectedInFile. */
    method FilterUpdates(updates: Updates, readable: bool) returns (filtered: Option<Updates>)
      ensures filtered == if readable then Some(Unprotected(Raw(), updates)) else None
    {
      var existing := ReadLast(readable);
      if existing.None? {
        return None;
      }
      var f: Updates := map[];
      var rest := updates.Keys;
      ghost var target := Unprotected(Raw(), updates);
      while rest != {}
        invariant rest <= updates.Keys
        invariant f == map k | k in target && k !in rest :: updates[k]
        decreases |rest|
      {
        var k :| k in rest;
        rest := rest - {k};
        Admits(Raw(), updates, existing.value, k);
        if updates[k] == "" {
          continue;
        }
        if k in existing.value {
          var cur := TrimSpace(existing.value[k]);
          if cur != "" && !Placeholder(cur) {
            continue;
          }
        }
        f := f[k := updates[k]];
      }
      assert f == target;
      filtered := Some(f);
    }

    /** upsertEnvFile. */
    method Upsert(updates: Updates, readable: bool, writable: bool) returns (ok: bool)
      modifies this
      ensures ok <==> NonEmpty(updates) == map[] || (readable && writable)
      ensures ok ==> UpsertFrom(old(Raw()), updates, Raw())
      ensures !ok || NonEmpty(updates) == map[] ==> content == old(content)
    {
      var filtered: Updates := map[];
      var rest := updates.Keys;
      while rest != {}
        invariant rest <= updates.Keys && content == old(content)
        invariant filtered == map k | k in updates && k !in rest && updates[k] != "" :: updates[k]
        decreases |rest|
      {
        var k :| k in rest;
        rest := rest - {k};
        if updates[k] == "" {
          continue;
        }
        filtered := filtered[k := updates[k]];
      }
      assert filtered == NonEmpty(updates);
      if filtered == map[] {
        return true;
      }
      if !readable {
        return false;
      }
      var lines := Lines(Raw());
      var out, written := MergeLines(lines, filtered);
      out := AppendMissing(out, filtered, written);
      if !writable {
        return false;
      }
      ghost var tail :| IsTail(tail, filtered, written)
        && out == Unlines(Merged(lines, filtered)) + Unlines(Assignments(tail, filtered));
      UnlinesAppend(Merged(lines, filtered), Assignments(tail, filtered));
      SomethingIsWritten(lines, filtered, tail);
      EndsInLineFeed(EditedLines(lines, filtered, tail));
      content := Some(TrimSuffix(out, '\n') + "\n");
      ok := true;
    }

    /** persistBootstrapEnv; `skip` stands for FILEMGR_SKIP_PERSIST_BOOTSTRAP_ENV. The file is read twice. */
    method Persist(skip: bool, updates: Updates, readable: bool, readableAgain: bool, writable: bool)
      modifies this
      ensures !skip && readable && readableAgain && writable ==> PersistTo(old(Raw()), updates, Raw())
      ensures skip || !readable || !readableAgain || !writable ==> content == old(content)
    {
      if skip {
        return;
      }
      var has := false;
      var rest := updates.Keys;
      while rest != {} && !has
        invariant rest <= updates.Keys && content == old(content)
        invariant has <==> exists k | k in updates && k !in rest :: updates[k] != ""
        decreases |rest|
      {
        var k :| k in rest;
        rest := rest - {k};
        has := updates[k] != "";
      }
      if !has {
        assert Unprotected(Raw(), updates) == map[];
        return;
      }
      var filtered := FilterUpdates(updates, readable);
      if filtered.None? || filtered.value == map[] {
        return;
      }
      assert NonEmpty(filtered.value) == filtered.value;
      var _ := Upsert(filtered.value, readableAgain, writable);
    }
  }
}

/** Options and the string helpers of Go's `strings` and `unicode` packages that the service
    uses. Strings are sequences of Unicode scalar values. */
module Text {

  datatype Option<+T> = None | Some(value: T)

  /** unicode.IsSpace. */
  predicate IsSpace(c: char) {
    || c == ' ' || '\U{9}' <= c <= '\U{D}'
    || c == '\U{85}' || c == '\U{A0}' || c == '\U{1680}'
    || '\U{2000}' <= c <= '\U{200A}'
    || c == '\U{2028}' || c == '\U{2029}' || c == '\U{202F}' || c == '\U{205F}' || c == '\U{3000}'
  }

  function TrimLeft(s: string): (t: string)
    ensures t != [] ==> !IsSpace(t[0])
  {
    if s != [] && IsSpace(s[0]) then TrimLeft(s[1..]) else s
  }

  function TrimRight(s: string): (t: string)
    ensures t <= s
    ensures t != [] ==> !IsSpace(t[|t| - 1])
  {
    if s != [] && IsSpace(s[|s| - 1]) then TrimRight(s[..|s| - 1]) else s
  }

  /** strings.TrimSpace. */
  function TrimSpace(s: string): string {
    TrimRight(TrimLeft(s))
  }

  predicate HasPrefix(s: string, prefix: string) {
    prefix <= s
  }

  predicate Contains(s: string, sub: string) {
    exists i {:trigger s[i..]} | 0 <= i <= |s| :: sub <= s[i..]
  }

  /** strings.TrimSuffix for a one-character suffix. */
  function TrimSuffix(s: string, c: char): string {
    if s != [] && s[|s| - 1] == c then s[..|s| - 1] else s
  }

  /** strings.ToUpper and strings.ToLower, on ASCII letters. */
  function ToUpper(s: string): string {
    seq(|s|, i requires 0 <= i < |s| => if 'a' <= s[i] <= 'z' then s[i] - 'a' + 'A' else s[i])
  }

  function ToLower(s: string): string {
    seq(|s|, i requires 0 <= i < |s| => if 'A' <= s[i] <= 'Z' then s[i] - 'A' + 'a' else s[i])
  }

  // ---------- What the helpers compute ----------

  /** The white space of Unicode, code point by code point. */
  lemma IsSpaceIff(c: char)
    ensures IsSpace(c) <==> c as int in {
      0x9, 0xA, 0xB, 0xC, 0xD, 0x20, 0x85, 0xA0, 0x1680, 0x2000, 0x2001, 0x2002, 0x2003, 0x2004, 0x2005, 0x2006,
      0x2007, 0x2008, 0x2009, 0x200A, 0x2028, 0x2029, 0x202F, 0x205F, 0x3000 }
  {
  }

  predicate AllSpace(s: string) {
    forall c <- s :: IsSpace(c)
  }

  /** Nothing but space was taken off the ends, and no space is left there. */
  ghost predicate IsTrimmed(s: string, t: string) {
    && (t != [] ==> !IsSpace(t[0]) && !IsSpace(t[|t| - 1]))
    && exists a, b :: s == a + t + b && AllSpace(a) && AllSpace(b)
  }

  lemma {:induction false} TrimLeftTakes(s: string) returns (a: string)
    ensures s == a + TrimLeft(s) && AllSpace(a)
  {
    a := [];
    if s != [] && IsSpace(s[0]) {
      a := TrimLeftTakes(s[1..]);
      a := [s[0]] + a;
      assert s == [s[0]] + s[1..];
    }
  }

  lemma {:induction false} TrimRightTakes(s: string) returns (b: string)
    ensures s == TrimRight(s) + b && AllSpace(b)
  {
    b := [];
    if s != [] && IsSpace(s[|s| - 1]) {
      b := TrimRightTakes(s[..|s| - 1]);
      b := b + [s[|s| - 1]];
      assert s == s[..|s| - 1] + [s[|s| - 1]];
    }
  }

  lemma {:induction false} TrimLeftSkips(a: string, u: string)
    requires AllSpace(a)
    ensures TrimLeft(a + u) == TrimLeft(u)
  {
    if a == [] {
      assert a + u == u;
    } else {
      assert (a + u)[1..] == a[1..] + u && a[0] in a;
      TrimLeftSkips(a[1..], u);
    }
  }

  lemma {:induction false} TrimRightSkips(u: string, b: string)
    requires AllSpace(b)
    ensures TrimRight(u + b) == TrimRight(u)
  {
    if b == [] {
      assert u + b == u;
    } else {
      var n := |b| - 1;
      assert (u + b)[..|u + b| - 1] == u + b[..n] && b[n] in b;
      TrimRightSkips(u, b[..n]);
    }
  }

  lemma {:induction false} TrimRightKeepsHead(s: string)
    requires s != [] && !IsSpace(s[0])
    ensures TrimRight(s) != [] && TrimRight(s)[0] == s[0]
  {
    if IsSpace(s[|s| - 1]) { TrimRightKeepsHead(s[..|s| - 1]); }
  }

  lemma TrimSpaceIs(s: string)
    ensures IsTrimmed(s, TrimSpace(s))
  {
    var a := TrimLeftTakes(s);
    var b := TrimRightTakes(TrimLeft(s));
    if TrimLeft(s) != [] { TrimRightKeepsHead(TrimLeft(s)); }
    Assoc(a, TrimSpace(s), b);
  }

  /** TrimSpace takes the space off both ends, all of it, and nothing else. */
  lemma TrimSpaceIff(s: string, t: string)
    ensures TrimSpace(s) == t <==> IsTrimmed(s, t)
  {
    TrimSpaceIs(s);
    if IsTrimmed(s, t) {
      var a, b :| s == a + t + b && AllSpace(a) && AllSpace(b);
      Assoc(a, t, b);
      TrimLeftSkips(a, t + b);
      if t == [] {
        assert t + b == b + [];
        TrimLeftSkips(b, []);
      } else {
        TrimRightSkips(t, b);
      }
    }
  }

  lemma ContainsIff(s: string, sub: string)
    ensures Contains(s, sub) <==> exists a, b :: s == a + sub + b
  {
    if Contains(s, sub) {
      var i :| 0 <= i <= |s| && sub <= s[i..];
      assert s == s[..i] + sub + s[i..][|sub|..];
    }
    if a, b :| s == a + sub + b {
      assert sub <= s[|a|..];
    }
  }

  /** A character is this lower-case character in either case. */
  predicate SameLetter(c: char, l: char) {
    c == l || ('a' <= l <= 'z' && c as int == l as int - 32)
  }

  /** `s` spells the word `w`, given in lower case, in any mixture of cases. */
  predicate Spells(s: string, w: string) {
    |s| == |w| && forall i | 0 <= i < |s| :: SameLetter(s[i], w[i])
  }

  predicate IsLower(w: string) {
    forall c <- w :: !('A' <= c <= 'Z')
  }

  lemma ToLowerSpells(s: string, w: string)
    requires IsLower(w)
    ensures ToLower(s) == w <==> Spells(s, w)
  {
    if Spells(s, w) {
      forall i | 0 <= i < |s| ensures ToLower(s)[i] == w[i] { assert w[i] in w; }
    }
    if ToLower(s) == w {
      forall i | 0 <= i < |s| ensures SameLetter(s[i], w[i]) { assert ToLower(s)[i] == w[i]; }
    }
  }

  lemma ToUpperSpells(s: string, w: string, u: string)
    requires |u| == |w| && forall i | 0 <= i < |w| :: 'a' <= w[i] <= 'z' && u[i] as int == w[i] as int - 32
    ensures ToUpper(s) == u <==> Spells(s, w)
  {
    if Spells(s, w) {
      forall i | 0 <= i < |s| ensures ToUpper(s)[i] == u[i] { assert SameLetter(s[i], w[i]); }
      assert ToUpper(s) == u;
    }
    if ToUpper(s) == u {
      forall i | 0 <= i < |s| ensures SameLetter(s[i], w[i]) { assert ToUpper(s)[i] == u[i]; }
    }
  }

  lemma Assoc<T>(a: seq<T>, b: seq<T>, c: seq<T>)
    ensures a + (b + c) == (a + b) + c
  {
  }

  lemma DropDrop<T>(s: seq<T>, i: nat, j: nat)
    requires i + j <= |s|
    ensures s[i..][j..] == s[i + j..]
  {
  }
}

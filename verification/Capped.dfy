/** Streaming a body through urlfetch.CappedReader into a file of the local backend. */
module Capped {
  import opened Tables

  datatype ReadError = Good | Eof | Broken | TooLarge | BadMax

  /** An io.Reader over some body: it may deliver any chunking, return nothing for a while, report the
      end together with the last bytes or on a later call, or break at any point. `stalls` bounds the
      calls that return neither bytes nor an error. */
  class Source {
    const data: Bytes
    var pos: nat
    var stalls: nat
    var sawEof: bool
    var broke: bool

    ghost predicate Valid()
      reads this
    {
      pos <= |data| && (sawEof ==> pos == |data|)
    }

    constructor (data: Bytes, stalls: nat)
      ensures Valid() && this.data == data && pos == 0 && this.stalls == stalls && !sawEof && !broke
    {
      this.data, this.pos, this.stalls, this.sawEof, this.broke := data, 0, stalls, false, false;
    }

    method Read(max: nat) returns (chunk: Bytes, err: ReadError)
      requires Valid() && max > 0
      modifies this
      ensures Valid()
      ensures pos == old(pos) + |chunk| && |chunk| <= max && chunk == data[old(pos)..pos]
      ensures err in {Good, Eof, Broken}
      ensures sawEof == (old(sawEof) || err == Eof) && broke == (old(broke) || err == Broken)
      ensures stalls <= old(stalls) && (chunk == [] && err == Good ==> stalls < old(stalls))
    {
      var least := if pos < |data| && stalls == 0 then 1 else 0;
      var n: nat :| least <= n <= max && pos + n <= |data|;
      chunk := data[pos..pos + n];
      pos := pos + n;
      var breaks: bool, ends: bool := *, *;
      if breaks {
        err, broke := Broken, true;
      } else if pos == |data| && (ends || (n == 0 && stalls == 0)) {
        err, sawEof := Eof, true;
      } else {
        err := Good;
        if n == 0 { stalls := stalls - 1; }
      }
    }
  }

  /** The counter `n` is what putStreamURLUpload stores as the size of the file. */
  class CappedReader {
    const r: Source
    const max: int
    var n: int

    ghost predicate Valid()
      reads this, r
    {
      r.Valid() && 0 <= n == r.pos && (max > 0 ==> n <= max) && (max <= 0 ==> n == 0)
    }

    constructor (r: Source, max: int)
      requires r.Valid() && r.pos == 0
      ensures Valid() && this.r == r && this.max == max && n == 0
    {
      this.r, this.max, this.n := r, max, 0;
    }

    method Read(size: nat) returns (chunk: Bytes, err: ReadError)
      requires Valid() && size > 0
      modifies this, r
      ensures Valid()
      ensures n == old(n) + |chunk| && chunk == r.data[old(n)..n]
      ensures max <= 0 ==> chunk == [] && err == BadMax && r.sawEof == old(r.sawEof) && r.broke == old(r.broke)
      ensures max > 0 && old(n) == max ==>
          chunk == [] && err == TooLarge && r.sawEof == old(r.sawEof) && r.broke == old(r.broke)
      ensures max > 0 && old(n) < max ==>
          err in {Good, Eof, Broken} && r.sawEof == (old(r.sawEof) || err == Eof)
          && r.broke == (old(r.broke) || err == Broken)
      ensures r.stalls <= old(r.stalls) && (chunk == [] && err == Good ==> r.stalls < old(r.stalls))
    {
      if max <= 0 {
        return [], BadMax;
      }
      if n >= max {
        return [], TooLarge;
      }
      var room := max - n;
      chunk, err := r.Read(if size > room then room else size);
      n := n + |chunk|;
      if n > max {
        err := TooLarge;
      }
    }
  }

  /** The body came to its end, unbroken and within the cap. */
  predicate Ends(data: Bytes, max: int, sawEof: bool, broke: bool) {
    max > 0 && !broke && sawEof && |data| <= max
  }

  /** How a copy must end, for every body and every chunking. */
  ghost predicate CopyOutcome(data: Bytes, max: int, sawEof: bool, broke: bool, out: Bytes, err: ReadError) {
    && out <= data && err != Eof
    && (err == Good <==> Ends(data, max, sawEof, broke))
    && (err == Good ==> out == data)
    && (err == TooLarge ==> |out| == max <= |data|)
    && (err == BadMax <==> max <= 0)
    && (err == Broken <==> broke)
  }

  const COPY_BUFFER := 32768

  /** io.Copy from the capped reader. `Good` stands for a nil error. */
  method Copy(cr: CappedReader) returns (out: Bytes, err: ReadError)
    requires cr.Valid() && cr.n == 0 && !cr.r.sawEof && !cr.r.broke
    modifies cr, cr.r
    ensures cr.Valid() && cr.n == |out|
    ensures CopyOutcome(cr.r.data, cr.max, cr.r.sawEof, cr.r.broke, out, err)
  {
    out, err := [], Good;
    while err == Good
      invariant cr.Valid() && out == cr.r.data[..cr.n]
      invariant err in {Good, Eof, Broken, TooLarge, BadMax}
      invariant cr.r.sawEof <==> err == Eof
      invariant cr.r.broke <==> err == Broken
      invariant err == TooLarge ==> cr.n == cr.max
      invariant err == BadMax <==> cr.max <= 0 && err != Good
      decreases |cr.r.data| - cr.n, cr.r.stalls, if err == Good then 1 else 0
    {
      var chunk;
      chunk, err := cr.Read(COPY_BUFFER);
      out := out + chunk;
    }
    if err == Eof {
      err := Good;
    }
  }

  /** Without a broken connection: a body shorter than the cap is stored whole, a longer one fails, and
      one of exactly the cap succeeds just when the end arrives together with the last bytes. */
  lemma CapDecides(data: Bytes, max: int, sawEof: bool, out: Bytes, err: ReadError)
    requires CopyOutcome(data, max, sawEof, false, out, err) && max > 0
    ensures |data| < max ==> err == Good && out == data
    ensures |data| > max ==> err == TooLarge && out == data[..max]
    ensures |data| == max ==> (err == Good <==> sawEof)
  {
    assert err in {Good, Eof, Broken, TooLarge, BadMax};
  }
}

/**
  What a DEFLATE stream means (RFC 1951): the reading of stored, fixed and dynamic blocks as
  functions of the bytes and a bit position, and the encoding they invert.
  */
module Deflate {
  import opened Bits
  import opened Huffman

  /** Base values and numbers of extra bits of the length and distance symbols. */
  datatype Codes = Codes(lbase: seq<nat>, lext: seq<nat>, dbase: seq<nat>, dext: seq<nat>)

  predicate CodesOk(k: Codes) {
    && |k.lbase| == |k.lext| == 29 && |k.dbase| == |k.dext| == 30
    && forall i | 0 <= i < 30 :: k.dbase[i] > 0 && (k.dext[i] > 0 ==> k.dbase[i] > 1)
  }

  type Tables = k: Codes | CodesOk(k) witness Codes(Rep(29, 0), Rep(29, 0), Rep(30, 1), Rep(30, 0))

  const LBASE: seq<nat> :=
    [3, 4, 5, 6, 7, 8, 9, 10, 11, 13, 15, 17, 19, 23, 27, 31, 35, 43, 51, 59, 67, 83, 99, 115, 131, 163, 195, 227, 258]
  const LEXT: seq<nat> := [0, 0, 0, 0, 0, 0, 0, 0, 1, 1, 1, 1, 2, 2, 2, 2, 3, 3, 3, 3, 4, 4, 4, 4, 5, 5, 5, 5, 0]
  const DBASE: seq<nat> :=
    [1, 2, 3, 4, 5, 7, 9, 13, 17, 25, 33, 49, 65, 97, 129, 193, 257, 385, 513, 769, 1025, 1537, 2049, 3073, 4097, 6145,
     8193, 12289, 16385, 24577]
  const DEXT: seq<nat> :=
    [0, 0, 0, 0, 1, 1, 2, 2, 3, 3, 4, 4, 5, 5, 6, 6, 7, 7, 8, 8, 9, 9, 10, 10, 11, 11, 12, 12, 13, 13]

  /** The tables of section 3.2.5. */
  function Rfc(): Codes { Codes(LBASE, LEXT, DBASE, DEXT) }

  lemma RfcOk()
    ensures CodesOk(Rfc())
  {
  }

  /** Symbol `i` of a table reaches up to where the next one starts. */
  ghost predicate Gapless(base: seq<nat>, ext: seq<nat>, end: nat) {
    && |base| == |ext| > 0
    && (forall i | 0 <= i < |base| - 1 :: base[i + 1] <= base[i] + Pow2(ext[i]))
    && end <= base[|base| - 1] + Pow2(ext[|base| - 1])
  }

  lemma {:induction false} Reaches(base: seq<nat>, ext: seq<nat>, end: nat, v: nat, n: nat) returns (i: nat, x: nat)
    requires Gapless(base, ext, end) && base[0] <= v < end && n < |base| && (n + 1 < |base| ==> v < base[n + 1])
    ensures i < |base| && x < Pow2(ext[i]) && base[i] + x == v
    decreases n
  {
    if base[n] <= v { return n, v - base[n]; }
    i, x := Reaches(base, ext, end, v, n - 1);
  }

  lemma LengthsGapless()
    ensures Gapless(LBASE, LEXT, 259)
  {
    assert Pow2(2) == 4 && Pow2(3) == 8;
    assert Pow2(4) == 16 && Pow2(5) == 32;
  }

  lemma DistancesGapless()
    ensures Gapless(DBASE, DEXT, 32769)
  {
    assert Pow2(2) == 4 && Pow2(3) == 8;
    assert Pow2(4) == 16 && Pow2(5) == 32;
    assert Pow2(6) == 64 && Pow2(7) == 128;
    assert Pow2(8) == 256 && Pow2(9) == 512;
    assert Pow2(10) == 1024 && Pow2(11) == 2048;
    assert Pow2(12) == 4096 && Pow2(13) == 8192;
  }

  /** Every match of 3 to 258 bytes at a distance of up to 32768 is a token. */
  lemma AnyMatch(l: nat, dist: nat, out: seq<nat>) returns (t: Tok)
    requires 3 <= l <= 258 && 1 <= dist <= 32768 && dist <= |out|
    ensures CodesOk(Rfc()) && TokOk(Rfc(), t, out) && ExpandTok(Rfc(), out, t) == Copy(out, dist, l)
  {
    RfcOk();
    LengthsGapless();
    DistancesGapless();
    hide Gapless, Copy, Pow2;
    assert LBASE[0] == 3 && DBASE[0] == 1;
    var s, lx := Reaches(LBASE, LEXT, 259, l, 28);
    var d, dx := Reaches(DBASE, DEXT, 32769, dist, 29);
    t := Match(s, lx, d, dx);
  }

  const ORDER: seq<nat> := [16, 17, 18, 0, 8, 7, 9, 6, 10, 5, 11, 4, 12, 3, 13, 2, 14, 1, 15]

  const END: nat := 256

  function Rep(n: nat, v: nat): (s: seq<nat>)
    ensures |s| == n && forall i | 0 <= i < n :: s[i] == v
  {
    seq(n, _ => v)
  }

  /** The code lengths of fixed blocks. */
  function FixedLit(): Lens { Rep(144, 8) + Rep(112, 9) + Rep(24, 7) + Rep(8, 8) }
  function FixedDist(): Lens { Rep(30, 5) }

  // ---------- reading ----------

  datatype Out = Bad | Out(bytes: seq<nat>, q: nat)

  /** A match copies byte by byte, so it may overlap what it writes. */
  function Copy(out: seq<nat>, dist: nat, l: nat): (r: seq<nat>)
    requires 0 < dist <= |out|
    ensures |r| == |out| + l
    decreases l
  {
    if l == 0 then out else Copy(out + [out[|out| - dist]], dist, l - 1)
  }

  /** One round of the symbol loop. */
  datatype Next = Wrong | Done(q: nat) | More(q: nat, bytes: seq<nat>)

  function Matched(k: Tables, src: Stream, dl: seq<nat>, q: nat, out: seq<nat>, cap: nat, s: nat): Next
    requires s < 29
  {
    match GetBits(src, q, k.lext[s])
    case Fail => Wrong
    case Got(lx, q1) =>
      match Dec(dl, src, q1)
      case Fail => Wrong
      case Got(d, q2) =>
        if d >= 30 then Wrong else
        match GetBits(src, q2, k.dext[d])
        case Fail => Wrong
        case Got(dx, q3) =>
          if k.dbase[d] + dx > |out| || |out| + k.lbase[s] + lx > cap then Wrong
          else More(q3, Copy(out, k.dbase[d] + dx, k.lbase[s] + lx))
  }

  function OneSym(k: Tables, src: Stream, ll: seq<nat>, dl: seq<nat>, q: nat, out: seq<nat>, cap: nat): Next {
    match Dec(ll, src, q)
    case Fail => Wrong
    case Got(s, p) =>
      if s < 256 then (if |out| >= cap then Wrong else More(p, out + [s]))
      else if s == END then Done(p)
      else if s - 257 >= 29 then Wrong
      else Matched(k, src, dl, p, out, cap, s - 257)
  }

  lemma {:induction false} GetBitsMoves(src: Stream, q: nat, n: nat)
    ensures var g := GetBits(src, q, n); g.Got? ==> g.q == q + n && (n > 0 ==> g.q <= |src|) && g.v < Pow2(n)
    decreases n
  {
    if n > 0 && q < |src| { GetBitsMoves(src, q + 1, n - 1); }
  }

  lemma OneSymMoves(k: Tables, src: Stream, ll: seq<nat>, dl: seq<nat>, q: nat, out: seq<nat>, cap: nat)
    ensures match OneSym(k, src, ll, dl, q, out, cap)
            case Wrong => true
            case Done(p) => q < p <= |src|
            case More(p, _) => q < p <= |src|
  {
    DecMoves(ll, src, q, 1, 0);
    var g := Dec(ll, src, q);
    if g.Got? && g.v > END && g.v - 257 < 29 {
      GetBitsMoves(src, g.q, k.lext[g.v - 257]);
      var h := GetBits(src, g.q, k.lext[g.v - 257]);
      if h.Got? {
        DecMoves(dl, src, h.q, 1, 0);
        var d := Dec(dl, src, h.q);
        if d.Got? && d.v < 30 { GetBitsMoves(src, d.q, k.dext[d.v]); }
      }
    }
  }

  function Body(k: Tables, src: Stream, ll: seq<nat>, dl: seq<nat>, q: nat, out: seq<nat>, cap: nat): Out
    decreases |src| - q
  {
    OneSymMoves(k, src, ll, dl, q, out, cap);
    match OneSym(k, src, ll, dl, q, out, cap)
    case Wrong => Bad
    case Done(p) => Out(out, p)
    case More(p, o) => Body(k, src, ll, dl, p, o, cap)
  }

  // ---------- tokens ----------

  /** A literal byte, or a match: length symbol and distance symbol with their extra bits. */
  datatype Tok = Lit(b: nat) | Match(s: nat, lx: nat, d: nat, dx: nat)

  ghost predicate TokOk(k: Tables, t: Tok, out: seq<nat>) {
    match t
    case Lit(b) => b < 256
    case Match(s, lx, d, dx) =>
      s < 29 && lx < Pow2(k.lext[s]) && d < 30 && dx < Pow2(k.dext[d]) && k.dbase[d] + dx <= |out|
  }

  function ExpandTok(k: Tables, out: seq<nat>, t: Tok): seq<nat>
    requires TokOk(k, t, out)
  {
    match t
    case Lit(b) => out + [b]
    case Match(s, lx, d, dx) => Copy(out, k.dbase[d] + dx, k.lbase[s] + lx)
  }

  ghost predicate ToksOk(k: Tables, toks: seq<Tok>, out: seq<nat>)
    decreases |toks|
  {
    toks == [] || (TokOk(k, toks[0], out) && ToksOk(k, toks[1..], ExpandTok(k, out, toks[0])))
  }

  /** The LZ77 expansion of a sequence of tokens after `out`. */
  ghost function Expand(k: Tables, out: seq<nat>, toks: seq<Tok>): seq<nat>
    requires ToksOk(k, toks, out)
    decreases |toks|
  {
    if toks == [] then out else Expand(k, ExpandTok(k, out, toks[0]), toks[1..])
  }

  ghost predicate HasCode(lens: seq<nat>, s: nat) {
    s < |lens| && 1 <= lens[s] <= MAX_LEN
  }

  ghost predicate Coded(ll: seq<nat>, dl: seq<nat>, t: Tok) {
    match t
    case Lit(b) => b < 256 && HasCode(ll, b)
    case Match(s, _, d, _) => s < 29 && d < 30 && HasCode(ll, 257 + s) && HasCode(dl, d)
  }

  ghost function EncTok(k: Tables, ll: seq<nat>, dl: seq<nat>, t: Tok): seq<nat>
    requires Coded(ll, dl, t)
  {
    match t
    case Lit(b) => CodeBits(ll, b)
    case Match(s, lx, d, dx) => CodeBits(ll, 257 + s) + (Low(lx, k.lext[s]) + (CodeBits(dl, d) + Low(dx, k.dext[d])))
  }

  ghost function EncBody(k: Tables, ll: seq<nat>, dl: seq<nat>, toks: seq<Tok>): seq<nat>
    requires HasCode(ll, END) && forall i | 0 <= i < |toks| :: Coded(ll, dl, toks[i])
    decreases |toks|
  {
    if toks == [] then CodeBits(ll, END) else EncTok(k, ll, dl, toks[0]) + EncBody(k, ll, dl, toks[1..])
  }

  /** The readings of a match put together. */
  lemma MatchedIs(k: Tables, src: Stream, dl: seq<nat>, q: nat, out: seq<nat>, cap: nat, t: Tok, q1: nat, q2: nat,
      q3: nat)
    requires t.Match? && TokOk(k, t, out) && |ExpandTok(k, out, t)| <= cap
    requires GetBits(src, q, k.lext[t.s]) == Got(t.lx, q1) && Dec(dl, src, q1) == Got(t.d, q2)
    requires GetBits(src, q2, k.dext[t.d]) == Got(t.dx, q3)
    ensures Matched(k, src, dl, q, out, cap, t.s) == More(q3, ExpandTok(k, out, t))
  {
  }

  lemma MatchDecodes(k: Tables, src: Stream, ll: seq<nat>, dl: seq<nat>, q: nat, out: seq<nat>, cap: nat, t: Tok)
    requires NotOver(ll) && NotOver(dl) && t.Match? && TokOk(k, t, out) && Coded(ll, dl, t)
    requires Reads(src, q, EncTok(k, ll, dl, t)) && |ExpandTok(k, out, t)| <= cap
    ensures OneSym(k, src, ll, dl, q, out, cap) == More(q + |EncTok(k, ll, dl, t)|, ExpandTok(k, out, t))
  {
    hide Dec, DecFrom, GetBits, Low, High, Code, Copy, Matched, TokOk, ExpandTok, NotOver, Reads;
    var a, n, m := CodeBits(ll, 257 + t.s), k.lext[t.s], k.dext[t.d];
    var b, c, e := Low(t.lx, n), CodeBits(dl, t.d), Low(t.dx, m);
    assert EncTok(k, ll, dl, t) == a + (b + (c + e));
    ReadsSplit(src, q, a, b + (c + e));
    DecCode(ll, src, q, 257 + t.s);
    PartsDecode(k, src, dl, q + |a|, out, cap, t, b, c, e);
  }

  lemma PartsDecode(k: Tables, src: Stream, dl: seq<nat>, q: nat, out: seq<nat>, cap: nat, t: Tok, b: seq<nat>,
      c: seq<nat>, e: seq<nat>)
    requires NotOver(dl) && t.Match? && TokOk(k, t, out) && HasCode(dl, t.d) && |ExpandTok(k, out, t)| <= cap
    requires b == Low(t.lx, k.lext[t.s]) && c == CodeBits(dl, t.d) && e == Low(t.dx, k.dext[t.d])
      && Reads(src, q, b + (c + e))
    ensures Matched(k, src, dl, q, out, cap, t.s) == More(q + |b| + |c| + |e|, ExpandTok(k, out, t))
  {
    hide Dec, DecFrom, GetBits, Low, Copy;
    ThreeParts(src, dl, q, t.lx, k.lext[t.s], t.d, t.dx, k.dext[t.d]);
    MatchedIs(k, src, dl, q, out, cap, t, q + |b|, q + |b| + |c|, q + |b| + |c| + |e|);
  }

  lemma ThreeParts(src: Stream, dl: seq<nat>, q: nat, lx: nat, n: nat, d: nat, dx: nat, m: nat)
    requires NotOver(dl) && HasCode(dl, d) && lx < Pow2(n) && dx < Pow2(m)
    requires Reads(src, q, Low(lx, n) + (CodeBits(dl, d) + Low(dx, m)))
    ensures GetBits(src, q, n) == Got(lx, q + n) && Dec(dl, src, q + n) == Got(d, q + n + dl[d])
    ensures GetBits(src, q + n + dl[d], m) == Got(dx, q + n + dl[d] + m)
  {
    hide Dec, GetBits, NotOver, Pow2, Code;
    ReadsSplit(src, q, Low(lx, n), CodeBits(dl, d) + Low(dx, m));
    ReadsSplit(src, q + n, CodeBits(dl, d), Low(dx, m));
    GetLow(src, q, lx, n);
    DecCode(dl, src, q + n, d);
    GetLow(src, q + n + dl[d], dx, m);
  }

  lemma TokDecodes(k: Tables, src: Stream, ll: seq<nat>, dl: seq<nat>, q: nat, out: seq<nat>, cap: nat, t: Tok)
    requires NotOver(ll) && NotOver(dl) && TokOk(k, t, out) && Coded(ll, dl, t)
    requires Reads(src, q, EncTok(k, ll, dl, t)) && |ExpandTok(k, out, t)| <= cap
    ensures OneSym(k, src, ll, dl, q, out, cap) == More(q + |EncTok(k, ll, dl, t)|, ExpandTok(k, out, t))
  {
    if t.Match? { MatchDecodes(k, src, ll, dl, q, out, cap, t); } else { DecCode(ll, src, q, t.b); }
  }

  lemma {:induction false} ExpandGrows(k: Tables, out: seq<nat>, toks: seq<Tok>)
    requires ToksOk(k, toks, out)
    ensures |out| <= |Expand(k, out, toks)|
    decreases |toks|
  {
    if toks != [] { ExpandGrows(k, ExpandTok(k, out, toks[0]), toks[1..]); }
  }

  /** For any code lengths that are not over-subscribed, reading an encoded block gives its expansion. */
  lemma {:induction false} BodyDecodes(k: Tables, src: Stream, ll: seq<nat>, dl: seq<nat>, q: nat, out: seq<nat>,
      cap: nat, toks: seq<Tok>)
    requires NotOver(ll) && NotOver(dl) && HasCode(ll, END) && ToksOk(k, toks, out)
    requires forall i | 0 <= i < |toks| :: Coded(ll, dl, toks[i])
    requires Reads(src, q, EncBody(k, ll, dl, toks)) && |Expand(k, out, toks)| <= cap
    ensures Body(k, src, ll, dl, q, out, cap) == Out(Expand(k, out, toks), q + |EncBody(k, ll, dl, toks)|)
    decreases |toks|
  {
    hide Dec, DecFrom, OneSym, Body, CodeBits, EncTok, TokOk, ExpandTok;
    if toks == [] {
      DecCode(ll, src, q, END);
      BodyDone(k, src, ll, dl, q, out, cap, q + ll[END]);
      assert |EncBody(k, ll, dl, toks)| == ll[END] by { CodeLength(ll, END); }
    } else {
      var t, rest := toks[0], toks[1..];
      var n := |EncTok(k, ll, dl, t)|;
      ReadsSplit(src, q, EncTok(k, ll, dl, t), EncBody(k, ll, dl, rest));
      ExpandGrows(k, ExpandTok(k, out, t), rest);
      TokDecodes(k, src, ll, dl, q, out, cap, t);
      BodyMore(k, src, ll, dl, q, out, cap, q + n, ExpandTok(k, out, t));
      BodyDecodes(k, src, ll, dl, q + n, ExpandTok(k, out, t), cap, rest);
    }
  }

  lemma CodeLength(lens: seq<nat>, s: nat)
    requires s < |lens|
    ensures |CodeBits(lens, s)| == lens[s]
  {
  }

  lemma BodyDone(k: Tables, src: Stream, ll: seq<nat>, dl: seq<nat>, q: nat, out: seq<nat>, cap: nat, p: nat)
    requires Dec(ll, src, q) == Got(END, p)
    ensures Body(k, src, ll, dl, q, out, cap) == Out(out, p)
  {
  }

  lemma BodyMore(k: Tables, src: Stream, ll: seq<nat>, dl: seq<nat>, q: nat, out: seq<nat>, cap: nat, p: nat,
      o: seq<nat>)
    requires OneSym(k, src, ll, dl, q, out, cap) == More(p, o)
    ensures Body(k, src, ll, dl, q, out, cap) == Body(k, src, ll, dl, p, o, cap)
  {
  }

  // ---------- the fixed codes are not over-subscribed ----------

  lemma {:induction false} CntAppend(a: seq<nat>, b: seq<nat>, l: nat)
    ensures Cnt(a + b, l) == Cnt(a, l) + Cnt(b, l)
    decreases |b|
  {
    if b == [] {
      assert a + b == a;
    } else {
      var n := |b| - 1;
      assert (a + b)[..|a + b| - 1] == a + b[..n];
      CntAppend(a, b[..n], l);
    }
  }

  lemma {:induction false} CntRep(n: nat, v: nat, l: nat)
    ensures Cnt(Rep(n, v), l) == if l == v then (if l > 0 then n else 0) else 0
  {
    if n > 0 {
      assert Rep(n, v)[..n - 1] == Rep(n - 1, v);
      CntRep(n - 1, v, l);
    }
  }

  lemma FixedCounts(l: nat)
    ensures Cnt(FixedLit(), l) == if l == 7 then 24 else if l == 8 then 152 else if l == 9 then 112 else 0
    ensures Cnt(FixedDist(), l) == if l == 5 then 30 else 0
  {
    hide Cnt;
    CntAppend(Rep(144, 8) + Rep(112, 9) + Rep(24, 7), Rep(8, 8), l);
    CntAppend(Rep(144, 8) + Rep(112, 9), Rep(24, 7), l);
    CntAppend(Rep(144, 8), Rep(112, 9), l);
    CntRep(144, 8, l);
    CntRep(112, 9, l);
    CntRep(24, 7, l);
    CntRep(8, 8, l);
    CntRep(30, 5, l);
  }

  /** Room that is left at one length is left, doubled, at the next. */
  lemma {:induction false} Room(lens: seq<nat>, m: nat, l: nat)
    requires m <= l && First(lens, m) + Cnt(lens, m) <= Pow2(m) && forall i | m < i <= l :: Cnt(lens, i) == 0
    ensures First(lens, l) + Cnt(lens, l) <= Pow2(l)
    decreases l - m
  {
    if m < l { Room(lens, m, l - 1); }
  }

  lemma {:induction false} FirstZero(lens: seq<nat>, l: nat)
    requires forall i | 0 <= i < l :: Cnt(lens, i) == 0
    ensures First(lens, l) == 0
  {
    if l > 0 { FirstZero(lens, l - 1); }
  }

  lemma FixedNotOver()
    ensures NotOver(FixedLit()) && NotOver(FixedDist())
  {
    hide Cnt, FixedLit, FixedDist;
    var a, b := FixedLit(), FixedDist();
    forall l: nat
      ensures Cnt(a, l) == if l == 7 then 24 else if l == 8 then 152 else if l == 9 then 112 else 0
      ensures Cnt(b, l) == if l == 5 then 30 else 0
    {
      FixedCounts(l);
    }
    assert Pow2(5) == 32 && Pow2(7) == 128 && Pow2(9) == 512 by { assert Pow2(3) == 8; assert Pow2(6) == 64; }
    FirstZero(a, 7);
    FirstZero(b, 5);
    assert First(a, 9) == 400 by { assert First(a, 8) == 48; }
    forall l | 1 <= l <= MAX_LEN
      ensures First(a, l) + Cnt(a, l) <= Pow2(l) && First(b, l) + Cnt(b, l) <= Pow2(l)
    {
      if l <= 6 { FirstZero(a, l); } else if l == 8 { assert Pow2(8) == 256; } else if l >= 9 { Room(a, 9, l); }
      if l <= 4 { FirstZero(b, l); } else { Room(b, 5, l); }
    }
  }

  // ---------- stored blocks ----------

  /** Byte `pos` of the stream. */
  function ByteAt(src: Stream, pos: nat): nat {
    match GetBits(src, 8 * pos, 8)
    case Fail => 0
    case Got(v, _) => v
  }

  function BytesAt(src: Stream, pos: nat, len: nat): (b: seq<nat>)
    ensures |b| == len && forall i | 0 <= i < len :: b[i] == ByteAt(src, pos + i)
  {
    seq<nat>(len, i requires 0 <= i < len => ByteAt(src, pos + i))
  }

  function Stored(src: Stream, q: nat, out: seq<nat>, cap: nat): Out {
    var pos := (q + 7) / 8;
    if 8 * (pos + 4) > |src| then Bad else
    var len := ByteAt(src, pos) + 256 * ByteAt(src, pos + 1);
    if 8 * (pos + 4 + len) > |src| || |out| + len > cap then Bad
    else Out(out + BytesAt(src, pos + 4, len), 8 * (pos + 4 + len))
  }

  function EncBytes(b: seq<nat>): (e: seq<nat>)
    ensures |e| == 8 * |b|
  {
    if b == [] then [] else Low(b[0], 8) + EncBytes(b[1..])
  }

  function Pad(q: nat): seq<nat> { Rep(8 * ((q + 7) / 8) - q, 0) }

  /** Section 3.2.4: the rest of the byte is skipped, then length, its complement, and the data. */
  function EncStored(q: nat, data: seq<nat>): seq<nat>
    requires |data| < 65536
  {
    var l, h := |data| % 256, |data| / 256;
    Pad(q) + EncBytes([l, h, 255 - l, 255 - h] + data)
  }

  lemma {:induction false} BytesDecode(src: Stream, pos: nat, b: Bytes, i: nat)
    requires Reads(src, 8 * pos, EncBytes(b)) && i < |b|
    ensures ByteAt(src, pos + i) == b[i]
    decreases i
  {
    ReadsSplit(src, 8 * pos, Low(b[0], 8), EncBytes(b[1..]));
    hide Low, EncBytes, GetBits;
    if i == 0 {
      OneByte(src, pos, b[0]);
    } else {
      BytesDecode(src, pos + 1, b[1..], i - 1);
    }
  }

  lemma OneByte(src: Stream, pos: nat, v: nat)
    requires v < 256 && Reads(src, 8 * pos, Low(v, 8))
    ensures ByteAt(src, pos) == v
  {
    hide Low;
    assert Pow2(8) == 256 by { assert Pow2(4) == 16; }
    GetLow(src, 8 * pos, v, 8);
  }

  lemma StoredDecodes(src: Stream, q: nat, out: seq<nat>, cap: nat, data: Bytes)
    requires |data| < 65536 && Reads(src, q, EncStored(q, data)) && |out| + |data| <= cap
    ensures Stored(src, q, out, cap) == Out(out + data, q + |EncStored(q, data)|)
  {
    hide GetBits, EncBytes, Low;
    var l, h := |data| % 256, |data| / 256;
    var pos := (q + 7) / 8;
    var b: Bytes := [l, h, 255 - l, 255 - h] + data;
    ReadsSplit(src, q, Pad(q), EncBytes(b));
    forall i | 0 <= i < |b| ensures ByteAt(src, pos + i) == b[i] { BytesDecode(src, pos, b, i); }
    assert ByteAt(src, pos) == l by { assert ByteAt(src, pos + 0) == b[0]; }
    assert ByteAt(src, pos + 1) == h by { assert b[1] == h; }
    assert BytesAt(src, pos + 4, |data|) == data by {
      forall i | 0 <= i < |data| ensures ByteAt(src, pos + 4 + i) == data[i] {
        assert b[4 + i] == data[i];
        assert ByteAt(src, pos + (4 + i)) == b[4 + i];
      }
    }
    assert |EncStored(q, data)| == 8 * pos - q + 8 * (4 + |data|);
  }

  // ---------- dynamic blocks ----------

  /** Code lengths read so far, and the position. */
  datatype LensGot = LensFail | LensGot(lens: seq<nat>, q: nat)

  /** The lengths of the code length code, three bits each, in an order of their own. */
  function ReadCl(src: Stream, q: nat, hc: nat, i: nat, cl: seq<nat>): LensGot
    requires i <= hc <= 19 && |cl| == 19
    decreases hc - i
  {
    if i == hc then LensGot(cl, q)
    else
      match GetBits(src, q, 3)
      case Fail => LensFail
      case Got(v, p) => OrderOk(i); ReadCl(src, p, hc, i + 1, cl[ORDER[i] := v])
  }

  lemma OrderOk(i: nat)
    requires i < 19
    ensures |ORDER| == 19 && ORDER[i] < 19
  {
  }

  /** How often symbol 16, 17 or 18 repeats, and what. */
  function Times(s: nat): nat { if s == 18 then 11 else 3 }
  function Extra(s: nat): nat { if s == 16 then 2 else if s == 17 then 3 else 7 }

  function ReadItem(src: Stream, cl: seq<nat>, q: nat, total: nat, lens: seq<nat>): LensGot {
    match Dec(cl, src, q)
    case Fail => LensFail
    case Got(s, p) =>
      if s < 16 then LensGot(lens + [s], p)
      else if s == 16 && lens == [] then LensFail
      else
        match GetBits(src, p, Extra(s))
        case Fail => LensFail
        case Got(x, r) =>
          if |lens| + Times(s) + x > total then LensFail
          else LensGot(lens + Rep(Times(s) + x, if s == 16 then lens[|lens| - 1] else 0), r)
  }

  lemma ReadItemMoves(src: Stream, cl: seq<nat>, q: nat, total: nat, lens: seq<nat>)
    requires |lens| < total
    ensures var g := ReadItem(src, cl, q, total, lens); g.LensGot? ==> q < g.q <= |src| && |lens| < |g.lens| <= total
  {
    DecMoves(cl, src, q, 1, 0);
    var g := Dec(cl, src, q);
    if g.Got? { GetBitsMoves(src, g.q, Extra(g.v)); }
  }

  function ReadLens(src: Stream, cl: seq<nat>, q: nat, total: nat, lens: seq<nat>): LensGot
    requires |lens| <= total
    decreases total - |lens|
  {
    if |lens| == total then LensGot(lens, q)
    else
      ReadItemMoves(src, cl, q, total, lens);
      match ReadItem(src, cl, q, total, lens)
      case LensFail => LensFail
      case LensGot(more, p) => ReadLens(src, cl, p, total, more)
  }

  datatype Hdr = NoHdr | Hdr(ll: seq<nat>, dl: seq<nat>, q: nat)

  function ReadTables(src: Stream, q: nat, hl: nat, hd: nat, hc: nat): Hdr
    requires hc <= 19
  {
    match ReadCl(src, q, hc, 0, Rep(19, 0))
    case LensFail => NoHdr
    case LensGot(cl, p) =>
      match ReadLens(src, cl, p, hl + hd, [])
      case LensFail => NoHdr
      case LensGot(lens, r) => if |lens| == hl + hd then Hdr(lens[..hl], lens[hl..], r) else NoHdr
  }

  function Dynamic(src: Stream, q: nat): Hdr {
    match GetBits(src, q, 5)
    case Fail => NoHdr
    case Got(a, q1) =>
      match GetBits(src, q1, 5)
      case Fail => NoHdr
      case Got(b, q2) =>
        match GetBits(src, q2, 4)
        case Fail => NoHdr
        case Got(c, q3) => GetBitsMoves(src, q2, 4); assert Pow2(4) == 16; ReadTables(src, q3, a + 257, b + 1, c + 4)
  }

  /** An entry of the sequence of code lengths: a length, or symbol 16, 17 or 18 with its extra bits. */
  datatype Item = One(v: nat) | Repeat(s: nat, x: nat)

  ghost predicate ItemOk(it: Item, lens: seq<nat>) {
    match it
    case One(v) => v < 16
    case Repeat(s, x) => 16 <= s <= 18 && x < Pow2(Extra(s)) && (s == 16 ==> lens != [])
  }

  ghost function ExpandItem(lens: seq<nat>, it: Item): seq<nat>
    requires ItemOk(it, lens)
  {
    match it
    case One(v) => lens + [v]
    case Repeat(s, x) => lens + Rep(Times(s) + x, if s == 16 then lens[|lens| - 1] else 0)
  }

  ghost predicate ItemsOk(items: seq<Item>, lens: seq<nat>)
    decreases |items|
  {
    items == [] || (ItemOk(items[0], lens) && ItemsOk(items[1..], ExpandItem(lens, items[0])))
  }

  ghost function ExpandItems(lens: seq<nat>, items: seq<Item>): seq<nat>
    requires ItemsOk(items, lens)
    decreases |items|
  {
    if items == [] then lens else ExpandItems(ExpandItem(lens, items[0]), items[1..])
  }

  function ItemSym(it: Item): nat { match it case One(v) => v case Repeat(s, _) => s }

  ghost function EncItem(cl: seq<nat>, it: Item): seq<nat>
    requires HasCode(cl, ItemSym(it))
  {
    match it
    case One(v) => CodeBits(cl, v)
    case Repeat(s, x) => CodeBits(cl, s) + Low(x, Extra(s))
  }

  ghost function EncItems(cl: seq<nat>, items: seq<Item>): seq<nat>
    requires forall i | 0 <= i < |items| :: HasCode(cl, ItemSym(items[i]))
    decreases |items|
  {
    if items == [] then [] else EncItem(cl, items[0]) + EncItems(cl, items[1..])
  }

  lemma ItemDecodes(src: Stream, cl: seq<nat>, q: nat, total: nat, lens: seq<nat>, it: Item)
    requires NotOver(cl) && ItemOk(it, lens) && HasCode(cl, ItemSym(it)) && Reads(src, q, EncItem(cl, it))
    requires |ExpandItem(lens, it)| <= total
    ensures ReadItem(src, cl, q, total, lens) == LensGot(ExpandItem(lens, it), q + |EncItem(cl, it)|)
  {
    hide Dec, GetBits, Low, NotOver, Pow2, Code, High, Reads, CodeBits;
    match it
    case One(v) =>
      DecCode(cl, src, q, v);
      CodeLength(cl, v);
    case Repeat(s, x) => RepeatReads(src, cl, q, s, x, Extra(s));
  }

  lemma RepeatReads(src: Stream, cl: seq<nat>, q: nat, s: nat, x: nat, n: nat)
    requires NotOver(cl) && HasCode(cl, s) && x < Pow2(n) && Reads(src, q, CodeBits(cl, s) + Low(x, n))
    ensures Dec(cl, src, q) == Got(s, q + cl[s]) && GetBits(src, q + cl[s], n) == Got(x, q + cl[s] + n)
    ensures |CodeBits(cl, s) + Low(x, n)| == cl[s] + n
  {
    hide Dec, GetBits, NotOver, Pow2, Code, High, Reads, CodeBits;
    ReadsSplit(src, q, CodeBits(cl, s), Low(x, n));
    DecCode(cl, src, q, s);
    CodeLength(cl, s);
    GetLow(src, q + cl[s], x, n);
  }

  lemma LowLength(v: nat, n: nat)
    ensures |Low(v, n)| == n
  {
  }

  lemma {:induction false} ItemsGrow(lens: seq<nat>, items: seq<Item>)
    requires ItemsOk(items, lens)
    ensures |lens| + |items| <= |ExpandItems(lens, items)|
    decreases |items|
  {
    if items != [] { ItemsGrow(ExpandItem(lens, items[0]), items[1..]); }
  }

  lemma {:induction false} ItemsDecode(src: Stream, cl: seq<nat>, q: nat, lens: seq<nat>, items: seq<Item>)
    requires NotOver(cl) && ItemsOk(items, lens) && forall i | 0 <= i < |items| :: HasCode(cl, ItemSym(items[i]))
    requires Reads(src, q, EncItems(cl, items))
    ensures |lens| <= |ExpandItems(lens, items)|
    ensures var all := ExpandItems(lens, items);
            ReadLens(src, cl, q, |all|, lens) == LensGot(all, q + |EncItems(cl, items)|)
    decreases |items|
  {
    hide ReadItem, EncItem, ItemOk, ExpandItem, Dec, NotOver;
    if items != [] {
      var it, rest := items[0], items[1..];
      ReadsSplit(src, q, EncItem(cl, it), EncItems(cl, rest));
      var more := ExpandItem(lens, it);
      ItemsGrow(more, rest);
      assert |lens| < |more| by { ExpandItemGrows(lens, it); }
      ItemDecodes(src, cl, q, |ExpandItems(lens, items)|, lens, it);
      ItemsDecode(src, cl, q + |EncItem(cl, it)|, more, rest);
    }
  }

  lemma ExpandItemGrows(lens: seq<nat>, it: Item)
    requires ItemOk(it, lens)
    ensures |lens| < |ExpandItem(lens, it)|
  {
  }

  // ---------- the header of a dynamic block ----------

  /** The lengths of the code length code, from position `i` of their order on. */
  ghost function EncCl(cl: seq<nat>, i: nat, hc: nat): seq<nat>
    requires i <= hc <= 19 && |cl| == 19
    decreases hc - i
  {
    if i == hc then [] else OrderOk(i); Low(cl[ORDER[i]], 3) + EncCl(cl, i + 1, hc)
  }

  lemma {:induction false} ClDecodes(src: Stream, q: nat, cl: seq<nat>, i: nat, hc: nat, acc: seq<nat>)
    requires i <= hc <= 19 && |cl| == |acc| == 19 && (forall j | 0 <= j < 19 :: cl[j] < 8)
    requires Reads(src, q, EncCl(cl, i, hc))
    ensures var g := ReadCl(src, q, hc, i, acc);
            && g.LensGot? && g.q == q + |EncCl(cl, i, hc)| && |g.lens| == 19
            && forall j | 0 <= j < 19 :: g.lens[j] == if InOrder(j, i, hc) then cl[j] else acc[j]
    decreases hc - i
  {
    hide GetBits, Low;
    if i < hc {
      OrderOk(i);
      var v := cl[ORDER[i]];
      ReadsSplit(src, q, Low(v, 3), EncCl(cl, i + 1, hc));
      LowLength(v, 3);
      assert Pow2(3) == 8;
      GetLow(src, q, v, 3);
      var next := acc[ORDER[i] := v];
      ClDecodes(src, q + 3, cl, i + 1, hc, next);
      forall j | 0 <= j < 19
        ensures (if InOrder(j, i, hc) then cl[j] else acc[j]) == if InOrder(j, i + 1, hc) then cl[j] else next[j]
      {
        InOrderStep(j, i, hc);
      }
    }
  }

  ghost predicate InOrder(j: nat, i: nat, hc: nat) {
    exists m | i <= m < hc && m < |ORDER| :: ORDER[m] == j
  }

  lemma InOrderStep(j: nat, i: nat, hc: nat)
    requires i < hc <= 19
    ensures |ORDER| == 19 && (InOrder(j, i, hc) <==> ORDER[i] == j || InOrder(j, i + 1, hc))
  {
    OrderOk(i);
    if InOrder(j, i, hc) {
      var m :| i <= m < hc && m < |ORDER| && ORDER[m] == j;
      assert m != i ==> InOrder(j, i + 1, hc);
    }
  }

  lemma OrderAll(j: nat)
    requires j < 19
    ensures InOrder(j, 0, 19)
  {
    var m := [3, 17, 15, 13, 11, 9, 7, 5, 4, 6, 8, 10, 12, 14, 16, 18, 0, 1, 2][j];
    assert ORDER[m] == j;
  }

  /** What a dynamic block is made of: the two tables, the code for their lengths, and its use. */
  datatype Plan = Plan(ll: Lens, dl: Lens, cl: seq<nat>, hc: nat, items: seq<Item>)

  ghost predicate PlanOk(p: Plan) {
    && 257 <= |p.ll| <= 288 && 1 <= |p.dl| <= 32 && |p.cl| == 19 && 4 <= p.hc <= 19
    && (forall j | 0 <= j < 19 :: p.cl[j] < 8)
    && (forall i | p.hc <= i < 19 && i < |ORDER| && ORDER[i] < 19 :: p.cl[ORDER[i]] == 0)
    && NotOver(p.cl) && ItemsOk(p.items, []) && ExpandItems([], p.items) == p.ll + p.dl
    && (forall i | 0 <= i < |p.items| :: HasCode(p.cl, ItemSym(p.items[i])))
  }

  ghost function EncPlan(p: Plan): seq<nat>
    requires PlanOk(p)
  {
    Low(|p.ll| - 257, 5) + (Low(|p.dl| - 1, 5) + (Low(p.hc - 4, 4) + (EncCl(p.cl, 0, p.hc) + EncItems(p.cl, p.items))))
  }

  lemma ClComplete(p: Plan, lens: seq<nat>)
    requires PlanOk(p) && |lens| == 19
    requires forall j | 0 <= j < 19 :: lens[j] == if InOrder(j, 0, p.hc) then p.cl[j] else 0
    ensures lens == p.cl
  {
    forall j | 0 <= j < 19
      ensures lens[j] == p.cl[j]
    {
      OrderAll(j);
      if !InOrder(j, 0, p.hc) {
        var m :| 0 <= m < 19 && m < |ORDER| && ORDER[m] == j;
        assert m >= p.hc;
      }
    }
  }

  lemma TablesDecode(src: Stream, q: nat, p: Plan)
    requires PlanOk(p) && Reads(src, q, EncCl(p.cl, 0, p.hc) + EncItems(p.cl, p.items))
    ensures ReadTables(src, q, |p.ll|, |p.dl|, p.hc) ==
            Hdr(p.ll, p.dl, q + |EncCl(p.cl, 0, p.hc)| + |EncItems(p.cl, p.items)|)
  {
    hide ReadCl, ReadLens, EncCl, EncItems, NotOver, ItemsOk, ExpandItems, HasCode, InOrder;
    ReadsSplit(src, q, EncCl(p.cl, 0, p.hc), EncItems(p.cl, p.items));
    ClDecodes(src, q, p.cl, 0, p.hc, Rep(19, 0));
    var g := ReadCl(src, q, p.hc, 0, Rep(19, 0));
    ClComplete(p, g.lens);
    ItemsDecode(src, p.cl, g.q, [], p.items);
    assert (p.ll + p.dl)[..|p.ll|] == p.ll && (p.ll + p.dl)[|p.ll|..] == p.dl;
  }

  /** The header of a dynamic block gives back its tables. */
  lemma PlanDecodes(src: Stream, q: nat, p: Plan)
    requires PlanOk(p) && Reads(src, q, EncPlan(p))
    ensures Dynamic(src, q) == Hdr(p.ll, p.dl, q + |EncPlan(p)|)
  {
    hide GetBits, Low, EncCl, EncItems, ReadTables;
    var a, b, c := Low(|p.ll| - 257, 5), Low(|p.dl| - 1, 5), Low(p.hc - 4, 4);
    var d := EncCl(p.cl, 0, p.hc) + EncItems(p.cl, p.items);
    LowLength(|p.ll| - 257, 5);
    LowLength(|p.dl| - 1, 5);
    LowLength(p.hc - 4, 4);
    ReadsSplit(src, q, a, b + (c + d));
    ReadsSplit(src, q + 5, b, c + d);
    ReadsSplit(src, q + 10, c, d);
    assert Pow2(4) == 16 && Pow2(5) == 32 by { assert Pow2(2) == 4; assert Pow2(3) == 8; }
    GetLow(src, q, |p.ll| - 257, 5);
    GetLow(src, q + 5, |p.dl| - 1, 5);
    GetLow(src, q + 10, p.hc - 4, 4);
    TablesDecode(src, q + 14, p);
  }

  // ---------- whole streams ----------

  function BlockBody(src: Stream, q: nat, out: seq<nat>, cap: nat, kind: nat): Out {
    if kind == 0 then Stored(src, q, out, cap)
    else if kind == 1 then RfcOk(); Body(Rfc(), src, FixedLit(), FixedDist(), q, out, cap)
    else if kind == 2 then
      match Dynamic(src, q)
      case NoHdr => Bad
      case Hdr(ll, dl, p) => RfcOk(); Body(Rfc(), src, ll, dl, p, out, cap)
    else Bad
  }

  lemma {:induction false} BodyMoves(k: Tables, src: Stream, ll: seq<nat>, dl: seq<nat>, q: nat, out: seq<nat>,
      cap: nat)
    ensures var r := Body(k, src, ll, dl, q, out, cap); r.Out? ==> q < r.q <= |src|
    decreases |src| - q
  {
    hide OneSym;
    OneSymMoves(k, src, ll, dl, q, out, cap);
    var g := OneSym(k, src, ll, dl, q, out, cap);
    if g.More? { BodyMoves(k, src, ll, dl, g.q, g.bytes, cap); }
  }

  lemma {:induction false} ReadClMoves(src: Stream, q: nat, hc: nat, i: nat, cl: seq<nat>)
    requires i <= hc <= 19 && |cl| == 19
    ensures var g := ReadCl(src, q, hc, i, cl); g.LensGot? ==> q <= g.q
    decreases hc - i
  {
    hide GetBits;
    if i < hc {
      GetBitsMoves(src, q, 3);
      var g := GetBits(src, q, 3);
      OrderOk(i);
      if g.Got? { ReadClMoves(src, g.q, hc, i + 1, cl[ORDER[i] := g.v]); }
    }
  }

  lemma {:induction false} ReadLensMoves(src: Stream, cl: seq<nat>, q: nat, total: nat, lens: seq<nat>)
    requires |lens| <= total
    ensures var g := ReadLens(src, cl, q, total, lens); g.LensGot? ==> q <= g.q && |g.lens| == total
    decreases total - |lens|
  {
    hide ReadItem;
    if |lens| < total {
      ReadItemMoves(src, cl, q, total, lens);
      var g := ReadItem(src, cl, q, total, lens);
      if g.LensGot? { ReadLensMoves(src, cl, g.q, total, g.lens); }
    }
  }

  lemma TablesMove(src: Stream, q: nat, hl: nat, hd: nat, hc: nat)
    requires hc <= 19
    ensures var h := ReadTables(src, q, hl, hd, hc); h.Hdr? ==> q <= h.q
  {
    hide ReadCl, ReadLens;
    ReadClMoves(src, q, hc, 0, Rep(19, 0));
    var g := ReadCl(src, q, hc, 0, Rep(19, 0));
    if g.LensGot? { ReadLensMoves(src, g.lens, g.q, hl + hd, []); }
  }

  lemma DynamicMoves(src: Stream, q: nat)
    ensures var h := Dynamic(src, q); h.Hdr? ==> q <= h.q
  {
    hide GetBits, ReadTables;
    GetBitsMoves(src, q, 5);
    GetBitsMoves(src, q + 5, 5);
    GetBitsMoves(src, q + 10, 4);
    assert Pow2(4) == 16;
    var a, b, c := GetBits(src, q, 5), GetBits(src, q + 5, 5), GetBits(src, q + 10, 4);
    if a.Got? && b.Got? && c.Got? { TablesMove(src, q + 14, a.v + 257, b.v + 1, c.v + 4); }
  }

  lemma BlockMoves(src: Stream, q: nat, out: seq<nat>, cap: nat, kind: nat)
    ensures var r := BlockBody(src, q, out, cap, kind); r.Out? ==> q < r.q <= |src|
  {
    hide Body, Dynamic, FixedLit, FixedDist, Rfc;
    RfcOk();
    BodyMoves(Rfc(), src, FixedLit(), FixedDist(), q, out, cap);
    DynamicMoves(src, q);
    var h := Dynamic(src, q);
    if h.Hdr? { BodyMoves(Rfc(), src, h.ll, h.dl, h.q, out, cap); }
  }

  function Inflate(src: Stream, q: nat, out: seq<nat>, cap: nat): Out
    decreases |src| - q
  {
    match GetBits(src, q, 1)
    case Fail => Bad
    case Got(last, q1) =>
      match GetBits(src, q1, 2)
      case Fail => Bad
      case Got(kind, q2) =>
        GetBitsMoves(src, q, 1);
        GetBitsMoves(src, q1, 2);
        BlockMoves(src, q2, out, cap, kind);
        match BlockBody(src, q2, out, cap, kind)
        case Bad => Bad
        case Out(o, p) => if last == 1 then Out(o, p) else Inflate(src, p, o, cap)
  }

  // ---------- headers that are cut off ----------

  /** What the code takes for a length when the stream has ended: -1 in a byte. */
  const NO_LEN: nat := 255

  /** The lengths of the code length code as the code reads them. */
  function ClRead(src: Stream, q: nat, hc: nat, i: nat, cl: seq<nat>): (r: seq<nat>)
    requires i <= hc <= 19 && |cl| == 19
    ensures |r| == 19
    decreases hc - i
  {
    if i == hc then cl
    else
      OrderOk(i);
      match GetBits(src, q, 3)
      case Fail => ClRead(src, |src|, hc, i + 1, cl[ORDER[i] := NO_LEN])
      case Got(v, p) => ClRead(src, p, hc, i + 1, cl[ORDER[i] := v])
  }

  /** How many of them the header announces; the code goes on with 3 when the number itself is cut off. */
  function HeaderHc(src: Stream, q: nat): (hc: nat)
    ensures hc <= 19
  {
    GetBitsMoves(src, q + 10, 4);
    assert Pow2(4) == 16;
    match GetBits(src, q + 10, 4)
    case Fail => 3
    case Got(v, _) => v + 4
  }

  /** The lengths that huff_build is given for the dynamic header at `q`. */
  function HeaderCl(src: Stream, q: nat): seq<nat> {
    ClRead(src, if q + 14 <= |src| then q + 14 else |src|, HeaderHc(src, q), 0, Rep(19, 0))
  }

  /** The 14 bits of the header and the three bits of each length it announces are there. */
  predicate HeaderThere(src: Stream, q: nat) {
    q + 14 + 3 * HeaderHc(src, q) <= |src|
  }

  lemma {:induction false} GetBitsThere(src: Stream, q: nat, n: nat)
    ensures n > 0 ==> (GetBits(src, q, n).Got? <==> q + n <= |src|)
    decreases n
  {
    if n > 1 && q < |src| { GetBitsThere(src, q + 1, n - 1); }
  }

  /** After the end every further length is 255 too. */
  lemma {:induction false} ClReadEnds(src: Stream, hc: nat, i: nat, cl: seq<nat>)
    requires i <= hc <= 19 && |cl| == 19 && !InTable(cl)
    ensures !InTable(ClRead(src, |src|, hc, i, cl))
    decreases hc - i
  {
    if i < hc {
      OrderOk(i);
      var next := cl[ORDER[i] := NO_LEN];
      assert next[ORDER[i]] == NO_LEN;
      ClReadEnds(src, hc, i + 1, next);
    }
  }

  /** All lengths have their bits, and the code reads what the format says; or one of them is 255. */
  lemma {:induction false} ClReadFits(src: Stream, q: nat, hc: nat, i: nat, cl: seq<nat>)
    requires i <= hc <= 19 && |cl| == 19 && InTable(cl) && q <= |src|
    ensures InTable(ClRead(src, q, hc, i, cl)) <==> q + 3 * (hc - i) <= |src|
    ensures ReadCl(src, q, hc, i, cl) ==
            if q + 3 * (hc - i) <= |src| then LensGot(ClRead(src, q, hc, i, cl), q + 3 * (hc - i)) else LensFail
    decreases hc - i
  {
    hide GetBits;
    if i < hc {
      OrderOk(i);
      GetBitsThere(src, q, 3);
      GetBitsMoves(src, q, 3);
      assert Pow2(3) == 8;
      var g := GetBits(src, q, 3);
      if g.Got? {
        ClReadFits(src, q + 3, hc, i + 1, cl[ORDER[i] := g.v]);
      } else {
        var next := cl[ORDER[i] := NO_LEN];
        assert next[ORDER[i]] == NO_LEN;
        ClReadEnds(src, hc, i + 1, next);
      }
    }
  }

  /** huff_build gets only lengths it has a place for if and only if the header is there. */
  lemma HeaderFits(src: Stream, q: nat)
    requires q <= |src|
    ensures InTable(HeaderCl(src, q)) <==> HeaderThere(src, q)
  {
    hide GetBits, ClRead;
    GetBitsThere(src, q + 10, 4);
    var at := if q + 14 <= |src| then q + 14 else |src|;
    ClReadFits(src, at, HeaderHc(src, q), 0, Rep(19, 0));
  }

  /** Without its header a dynamic block means nothing. */
  lemma CutHeaderBad(src: Stream, q: nat)
    requires q <= |src| && !HeaderThere(src, q)
    ensures Dynamic(src, q) == NoHdr
  {
    hide GetBits, ReadLens, ClRead;
    GetBitsThere(src, q, 5);
    GetBitsThere(src, q + 5, 5);
    GetBitsThere(src, q + 10, 4);
    GetBitsMoves(src, q, 5);
    GetBitsMoves(src, q + 5, 5);
    GetBitsMoves(src, q + 10, 4);
    if q + 14 <= |src| { ClReadFits(src, q + 14, HeaderHc(src, q), 0, Rep(19, 0)); }
  }

  /** The decoder comes to a dynamic block whose header is cut off. */
  predicate Strays(src: Stream, q: nat, out: seq<nat>, cap: nat)
    decreases |src| - q
  {
    match GetBits(src, q, 1)
    case Fail => false
    case Got(last, q1) =>
      match GetBits(src, q1, 2)
      case Fail => false
      case Got(kind, q2) =>
        GetBitsMoves(src, q, 1);
        GetBitsMoves(src, q1, 2);
        BlockMoves(src, q2, out, cap, kind);
        (kind == 2 && !HeaderThere(src, q2)) ||
        match BlockBody(src, q2, out, cap, kind)
        case Bad => false
        case Out(o, p) => last != 1 && Strays(src, p, o, cap)
  }

  /** Such a stream is no DEFLATE stream. */
  lemma {:induction false} StraysBad(src: Stream, q: nat, out: seq<nat>, cap: nat)
    requires Strays(src, q, out, cap)
    ensures Inflate(src, q, out, cap) == Bad
    decreases |src| - q
  {
    hide GetBits, BlockBody;
    GetBitsMoves(src, q, 1);
    var last := GetBits(src, q, 1);
    GetBitsMoves(src, last.q, 2);
    var kind := GetBits(src, last.q, 2);
    BlockMoves(src, kind.q, out, cap, kind.v);
    if kind.v == 2 && !HeaderThere(src, kind.q) {
      CutBlockBad(src, kind.q, out, cap);
    } else {
      var r := BlockBody(src, kind.q, out, cap, kind.v);
      StraysBad(src, r.q, r.bytes, cap);
    }
  }

  lemma CutBlockBad(src: Stream, q: nat, out: seq<nat>, cap: nat)
    requires q <= |src| && !HeaderThere(src, q)
    ensures BlockBody(src, q, out, cap, 2) == Bad
  {
    hide Dynamic, HeaderThere;
    CutHeaderBad(src, q);
  }

  datatype Block = Raw(data: Bytes) | Fixed(toks: seq<Tok>) | Dyn(plan: Plan, toks: seq<Tok>)

  ghost predicate BlockOk(b: Block, out: seq<nat>) {
    match b
    case Raw(data) => |data| < 65536
    case Fixed(toks) => CodesOk(Rfc()) && ToksOk(Rfc(), toks, out)
    case Dyn(p, toks) =>
      && CodesOk(Rfc()) && PlanOk(p) && NotOver(p.ll) && NotOver(p.dl) && HasCode(p.ll, END) && ToksOk(Rfc(), toks, out)
      && forall i | 0 <= i < |toks| :: Coded(p.ll, p.dl, toks[i])
  }

  ghost function ExpandBlock(out: seq<nat>, b: Block): seq<nat>
    requires BlockOk(b, out)
  {
    match b
    case Raw(data) => out + data
    case Fixed(toks) => Expand(Rfc(), out, toks)
    case Dyn(_, toks) => Expand(Rfc(), out, toks)
  }

  function Kind(b: Block): nat { match b case Raw(_) => 0 case Fixed(_) => 1 case Dyn(_, _) => 2 }

  /** Every literal, length and distance symbol has a fixed code. */
  lemma FixedHasCodes(t: Tok, out: seq<nat>)
    requires CodesOk(Rfc()) && TokOk(Rfc(), t, out)
    ensures Coded(FixedLit(), FixedDist(), t) && HasCode(FixedLit(), END)
  {
    hide Rfc;
  }

  lemma {:induction false} FixedCoded(toks: seq<Tok>, out: seq<nat>)
    requires CodesOk(Rfc()) && ToksOk(Rfc(), toks, out)
    ensures HasCode(FixedLit(), END) && forall i | 0 <= i < |toks| :: Coded(FixedLit(), FixedDist(), toks[i])
    decreases |toks|
  {
    hide Rfc, Coded;
    if toks != [] {
      FixedHasCodes(toks[0], out);
      FixedCoded(toks[1..], ExpandTok(Rfc(), out, toks[0]));
    }
  }

  ghost function EncInside(b: Block, out: seq<nat>, q: nat): seq<nat>
    requires BlockOk(b, out)
  {
    match b
    case Raw(data) => EncStored(q, data)
    case Fixed(toks) => FixedCoded(toks, out); EncBody(Rfc(), FixedLit(), FixedDist(), toks)
    case Dyn(p, toks) => EncPlan(p) + EncBody(Rfc(), p.ll, p.dl, toks)
  }

  lemma InsideDecodes(src: Stream, q: nat, out: seq<nat>, cap: nat, b: Block)
    requires BlockOk(b, out) && Reads(src, q, EncInside(b, out, q)) && |ExpandBlock(out, b)| <= cap
    ensures BlockBody(src, q, out, cap, Kind(b)) == Out(ExpandBlock(out, b), q + |EncInside(b, out, q)|)
  {
    hide Body, Dynamic, FixedLit, FixedDist, Rfc, Stored, EncStored, EncBody, EncPlan, Expand, ToksOk, Reads, NotOver,
      PlanOk, Coded;
    RfcOk();
    match b
    case Raw(data) => StoredDecodes(src, q, out, cap, data);
    case Fixed(toks) =>
      FixedNotOver();
      FixedCoded(toks, out);
      BodyDecodes(Rfc(), src, FixedLit(), FixedDist(), q, out, cap, toks);
    case Dyn(p, toks) =>
      ReadsSplit(src, q, EncPlan(p), EncBody(Rfc(), p.ll, p.dl, toks));
      PlanDecodes(src, q, p);
      BodyDecodes(Rfc(), src, p.ll, p.dl, q + |EncPlan(p)|, out, cap, toks);
  }

  ghost predicate BlocksOk(bs: seq<Block>, out: seq<nat>)
    decreases |bs|
  {
    bs == [] || (BlockOk(bs[0], out) && BlocksOk(bs[1..], ExpandBlock(out, bs[0])))
  }

  ghost function ExpandAll(out: seq<nat>, bs: seq<Block>): seq<nat>
    requires BlocksOk(bs, out)
    decreases |bs|
  {
    if bs == [] then out else ExpandAll(ExpandBlock(out, bs[0]), bs[1..])
  }

  /** One block at position `q`: whether it is the last, its kind, and what is inside. */
  ghost function EncBlock(b: Block, out: seq<nat>, q: nat, last: bool): seq<nat>
    requires BlockOk(b, out)
  {
    [if last then 1 else 0] + (Low(Kind(b), 2) + EncInside(b, out, q + 3))
  }

  ghost function EncAll(bs: seq<Block>, out: seq<nat>, q: nat): seq<nat>
    requires BlocksOk(bs, out)
    decreases |bs|
  {
    if bs == [] then [] else
    var e := EncBlock(bs[0], out, q, |bs| == 1);
    e + EncAll(bs[1..], ExpandBlock(out, bs[0]), q + |e|)
  }

  lemma HeadDecodes(src: Stream, q: nat, kind: nat, last: bool, rest: seq<nat>)
    requires kind < 3 && Reads(src, q, [if last then 1 else 0] + (Low(kind, 2) + rest))
    ensures GetBits(src, q, 1) == Got(if last then 1 else 0, q + 1) && GetBits(src, q + 1, 2) == Got(kind, q + 3)
    ensures Reads(src, q + 3, rest)
  {
    var x := if last then 1 else 0;
    hide Low;
    LowLength(kind, 2);
    ReadsSplit(src, q, [x], Low(kind, 2) + rest);
    ReadsSplit(src, q + 1, Low(kind, 2), rest);
    assert src[q] == src[q..q + 1][0] == x;
    assert GetBits(src, q + 1, 0) == Got(0, q + 1);
    assert Pow2(2) == 4;
    GetLow(src, q + 1, kind, 2);
  }

  lemma BlockDecodes(src: Stream, q: nat, out: seq<nat>, cap: nat, b: Block, last: bool)
    requires BlockOk(b, out) && Reads(src, q, EncBlock(b, out, q, last)) && |ExpandBlock(out, b)| <= cap
    ensures var p := q + |EncBlock(b, out, q, last)|;
            var o := ExpandBlock(out, b);
            Inflate(src, q, out, cap) == if last then Out(o, p) else Inflate(src, p, o, cap)
  {
    hide GetBits, Low, BlockBody, EncInside, ExpandBlock, BlockOk;
    LowLength(Kind(b), 2);
    HeadDecodes(src, q, Kind(b), last, EncInside(b, out, q + 3));
    InsideDecodes(src, q + 3, out, cap, b);
  }

  lemma {:induction false} ExpandAllGrows(out: seq<nat>, bs: seq<Block>)
    requires BlocksOk(bs, out)
    ensures |out| <= |ExpandAll(out, bs)|
    decreases |bs|
  {
    hide Expand, ToksOk, Rfc, PlanOk, NotOver;
    if bs != [] {
      ExpandAllGrows(ExpandBlock(out, bs[0]), bs[1..]);
      if !bs[0].Raw? { ExpandGrows(Rfc(), out, bs[0].toks); }
    }
  }

  /** Inflating the encoding of any sequence of blocks gives exactly their expansion. */
  lemma {:induction false} InflateInverts(src: Stream, q: nat, out: seq<nat>, cap: nat, bs: seq<Block>)
    requires bs != [] && BlocksOk(bs, out) && Reads(src, q, EncAll(bs, out, q)) && |ExpandAll(out, bs)| <= cap
    ensures Inflate(src, q, out, cap) == Out(ExpandAll(out, bs), q + |EncAll(bs, out, q)|)
    decreases |bs|
  {
    hide EncBlock, ExpandBlock, BlockOk, BlockBody, GetBits;
    var e, o := EncBlock(bs[0], out, q, |bs| == 1), ExpandBlock(out, bs[0]);
    ReadsSplit(src, q, e, EncAll(bs[1..], o, q + |e|));
    ExpandAllGrows(o, bs[1..]);
    BlockDecodes(src, q, out, cap, bs[0], |bs| == 1);
    if |bs| > 1 { InflateInverts(src, q + |e|, o, cap, bs[1..]); }
  }
}

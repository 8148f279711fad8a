/**
  Canonical Huffman codes, section 3.2.2 of RFC 1951: the table that huff_build makes out of code
  lengths, and the decoder that needs only the counts and the sorted symbols.
  */
module Huffman {
  import opened Bits

  const MAX_LEN: nat := 15
  const MAX_SYM: nat := 320

  /** Every code length has its place in the table of counts. */
  predicate InTable(s: seq<nat>) { forall i | 0 <= i < |s| :: s[i] <= MAX_LEN }

  type Lens = s: seq<nat> | InTable(s)

  // ---------- the code ----------

  /** How many symbols have a code of length `l`; length 0 is no code. */
  function Cnt(lens: seq<nat>, l: nat): (n: nat)
    ensures n <= |lens| && (l == 0 ==> n == 0)
  {
    if lens == [] || l == 0 then 0
    else Cnt(lens[..|lens| - 1], l) + (if lens[|lens| - 1] == l then 1 else 0)
  }

  /** The first code of length `l`. */
  function First(lens: seq<nat>, l: nat): nat {
    if l == 0 then 0 else 2 * (First(lens, l - 1) + Cnt(lens, l - 1))
  }

  /** The code of symbol `s`: codes of one length go up with the symbols. */
  function Code(lens: seq<nat>, s: nat): nat
    requires s < |lens|
  {
    First(lens, lens[s]) + Cnt(lens[..s], lens[s])
  }

  function CodeBits(lens: seq<nat>, s: nat): seq<nat>
    requires s < |lens|
  {
    High(Code(lens, s), lens[s])
  }

  /** No length has more codes than there is room for. */
  ghost predicate NotOver(lens: seq<nat>) {
    forall l | 1 <= l <= MAX_LEN :: First(lens, l) + Cnt(lens, l) <= Pow2(l)
  }

  /** Symbol number `k` among those with length `l`. */
  function Kth(lens: seq<nat>, l: nat, k: nat): (s: nat)
    requires k < Cnt(lens, l)
    ensures s < |lens| && lens[s] == l
  {
    var n := |lens| - 1;
    if k == Cnt(lens[..n], l) then n else Kth(lens[..n], l, k)
  }

  /** Where the symbols of length `l` start in the sorted table. */
  function Offset(lens: seq<nat>, l: nat): nat {
    if l <= 1 then 0 else Offset(lens, l - 1) + Cnt(lens, l - 1)
  }

  // ---------- decoding ----------

  /** The decoder after `l - 1` bits; `code` never falls below the first code of the length. */
  function DecFrom(lens: seq<nat>, src: Stream, q: nat, l: nat, code: nat): Got
    requires First(lens, l) <= code && l > 0
    decreases 16 - l
  {
    if l > MAX_LEN || q >= |src| then Fail
    else
      var c := code + src[q];
      if c < First(lens, l) + Cnt(lens, l) then Got(Kth(lens, l, c - First(lens, l)), q + 1)
      else DecFrom(lens, src, q + 1, l + 1, 2 * c)
  }

  function Dec(lens: seq<nat>, src: Stream, q: nat): Got {
    DecFrom(lens, src, q, 1, 0)
  }

  /** A successful decoding uses at least one bit of the stream. */
  lemma {:induction false} DecMoves(lens: seq<nat>, src: Stream, q: nat, l: nat, code: nat)
    requires First(lens, l) <= code && l > 0
    ensures var g := DecFrom(lens, src, q, l, code); g.Got? ==> q < g.q <= |src| && g.v < |lens|
    decreases 16 - l
  {
    if l <= MAX_LEN && q < |src| {
      var c := code + src[q];
      if c >= First(lens, l) + Cnt(lens, l) { DecMoves(lens, src, q + 1, l + 1, 2 * c); }
    }
  }

  // ---------- the code is decoded ----------

  lemma {:induction false} ShrHalf(x: nat, k: nat)
    ensures Shr(x, k + 1) == Shr(x, k) / 2
  {
    if k > 0 { ShrHalf(x / 2, k - 1); }
  }

  lemma {:induction false} ShrZero(x: nat, k: nat)
    requires x < Pow2(k)
    ensures Shr(x, k) == 0
  {
    if k > 0 { ShrZero(x / 2, k - 1); }
  }

  /** The first bits of a longer code lie beyond all codes of their length. */
  lemma {:induction false} Beyond(lens: seq<nat>, l: nat, m: nat, x: nat)
    requires l < m && First(lens, m) <= x
    ensures First(lens, l) + Cnt(lens, l) <= Shr(x, m - l)
  {
    assert First(lens, m - 1) + Cnt(lens, m - 1) <= x / 2;
    if l < m - 1 { Beyond(lens, l, m - 1, x / 2); }
  }

  lemma {:induction false} CntMono(lens: seq<nat>, l: nat, s: nat)
    requires s <= |lens|
    ensures Cnt(lens[..s], l) <= Cnt(lens, l)
    ensures s < |lens| && lens[s] == l && l > 0 ==> Cnt(lens[..s], l) < Cnt(lens, l)
    decreases |lens|
  {
    var n := |lens| - 1;
    if s < n {
      CntMono(lens[..n], l, s);
      assert lens[..n][..s] == lens[..s];
    } else if s == |lens| {
      assert lens[..s] == lens;
    }
  }

  lemma {:induction false} KthBefore(lens: seq<nat>, s: nat)
    requires s < |lens| && lens[s] > 0
    ensures Cnt(lens[..s], lens[s]) < Cnt(lens, lens[s]) && Kth(lens, lens[s], Cnt(lens[..s], lens[s])) == s
    decreases |lens|
  {
    CntMono(lens, lens[s], s);
    var n := |lens| - 1;
    if s < n {
      KthBefore(lens[..n], s);
      assert lens[..n][..s] == lens[..s];
    }
  }

  /** With the first `l - 1` bits of the code read, the decoder goes on to the symbol. */
  lemma {:induction false} DecRest(lens: seq<nat>, src: Stream, q: nat, s: nat, l: nat)
    requires s < |lens| && 1 <= l <= lens[s] <= MAX_LEN && Reads(src, q, CodeBits(lens, s))
    requires First(lens, l) <= 2 * Shr(Code(lens, s), lens[s] - l + 1)
    ensures DecFrom(lens, src, q + l - 1, l, 2 * Shr(Code(lens, s), lens[s] - l + 1)) == Got(s, q + lens[s])
    decreases lens[s] - l
  {
    hide Cnt, Kth, High;
    var x, m := Code(lens, s), lens[s];
    ShrHalf(x, m - l);
    assert src[q + (l - 1)] == src[q..q + m][l - 1] == CodeBits(lens, s)[l - 1];
    var c := 2 * Shr(x, m - l + 1) + src[q + l - 1];
    assert c == Shr(x, m - l);
    if l < m {
      Beyond(lens, l, m, x);
      DecRest(lens, src, q, s, l + 1);
    } else {
      KthBefore(lens, s);
    }
  }

  /** Every symbol's code decodes to the symbol and uses exactly its length in bits. */
  lemma DecCode(lens: seq<nat>, src: Stream, q: nat, s: nat)
    requires s < |lens| && 1 <= lens[s] <= MAX_LEN && NotOver(lens) && Reads(src, q, CodeBits(lens, s))
    ensures Dec(lens, src, q) == Got(s, q + lens[s])
  {
    hide Shr, Cnt, Kth;
    CodeFits(lens, s);
    ShrZero(Code(lens, s), lens[s]);
    assert First(lens, 1) == 0;
    DecRest(lens, src, q, s, 1);
  }

  lemma CodeFits(lens: seq<nat>, s: nat)
    requires s < |lens| && 1 <= lens[s] <= MAX_LEN && NotOver(lens)
    ensures Code(lens, s) < Pow2(lens[s])
  {
    CntMono(lens, lens[s], s);
  }

  // ---------- the table ----------

  lemma {:induction false} OffsetMono(lens: seq<nat>, l: nat, m: nat)
    requires 1 <= l < m
    ensures Offset(lens, l) + Cnt(lens, l) <= Offset(lens, m)
  {
    if l < m - 1 { OffsetMono(lens, l, m - 1); }
  }

  /** All symbols fit: the codes of all lengths together are at most the symbols. */
  lemma {:induction false} OffsetBound(lens: seq<nat>, l: nat)
    requires l >= 1
    ensures Offset(lens, l) + Cnt(lens, l) <= |lens|
    decreases |lens|
  {
    if lens == [] {
      OffsetEmpty(l);
    } else {
      var n := |lens| - 1;
      OffsetBound(lens[..n], l);
      OffsetStep(lens, l);
    }
  }

  lemma {:induction false} OffsetEmpty(l: nat)
    ensures Offset([], l) == 0
  {
    if l > 1 { OffsetEmpty(l - 1); }
  }

  lemma {:induction false} OffsetStep(lens: seq<nat>, l: nat)
    requires lens != []
    ensures Offset(lens, l) == Offset(lens[..|lens| - 1], l) + (if 0 < lens[|lens| - 1] < l then 1 else 0)
  {
    if l > 1 { OffsetStep(lens, l - 1); }
  }

  /** Symbol `k` of length `l` among the first ones, `part`, has its place in the sorted table. */
  ghost predicate Placed(lens: seq<nat>, part: seq<nat>, sym: seq<nat>, l: nat, k: nat) {
    1 <= l <= MAX_LEN && k < Cnt(part, l) ==> Offset(lens, l) + k < |sym| && sym[Offset(lens, l) + k] == Kth(part, l, k)
  }

  ghost predicate AllPlaced(lens: seq<nat>, part: seq<nat>, sym: seq<nat>) {
    forall l, k :: Placed(lens, part, sym, l, k)
  }

  lemma PlacedAt(lens: seq<nat>, part: seq<nat>, sym: seq<nat>, l: nat, k: nat)
    requires AllPlaced(lens, part, sym)
    ensures Placed(lens, part, sym, l, k)
  {
  }

  lemma PlaceNext(lens: seq<nat>, i: nat, sym: seq<nat>)
    requires i < |lens| <= |sym| && 1 <= lens[i] <= MAX_LEN && AllPlaced(lens, lens[..i], sym)
    ensures Offset(lens, lens[i]) + Cnt(lens[..i], lens[i]) < |lens|
    ensures AllPlaced(lens, lens[..i + 1], sym[Offset(lens, lens[i]) + Cnt(lens[..i], lens[i]) := i])
  {
    var m := lens[i];
    CntMono(lens, m, i);
    OffsetBound(lens, m);
    var at := Offset(lens, m) + Cnt(lens[..i], m);
    var part, sym' := lens[..i + 1], sym[at := i];
    assert part[..i] == lens[..i];
    forall l: nat, k: nat
      ensures Placed(lens, part, sym', l, k)
    {
      assert Placed(lens, lens[..i], sym, l, k);
      CntMono(lens, l, i);
      if 1 <= l < m { OffsetMono(lens, l, m); }
      if m < l { OffsetMono(lens, m, l); }
    }
  }

  lemma PlaceStart(lens: seq<nat>, sym: seq<nat>)
    ensures AllPlaced(lens, lens[..0], sym) && forall l: nat :: Cnt(lens[..0], l) == 0
  {
  }

  lemma PlaceNone(lens: seq<nat>, i: nat, sym: seq<nat>)
    requires i < |lens| && lens[i] == 0 && AllPlaced(lens, lens[..i], sym)
    ensures AllPlaced(lens, lens[..i + 1], sym)
  {
    var part := lens[..i + 1];
    assert part[..i] == lens[..i];
    forall l: nat, k: nat
      ensures Placed(lens, part, sym, l, k)
    {
      assert Placed(lens, lens[..i], sym, l, k);
    }
  }

  lemma CntNext(lens: seq<nat>, i: nat)
    requires i < |lens|
    ensures forall l: nat :: Cnt(lens[..i + 1], l) == Cnt(lens[..i], l) + (if 0 < l == lens[i] then 1 else 0)
  {
    assert lens[..i + 1][..i] == lens[..i];
  }

  class Table {
    const cnt: array<nat>
    const sym: array<nat>

    /** The table of these code lengths. */
    ghost predicate Built(lens: seq<nat>)
      reads cnt, sym
    {
      && cnt.Length == MAX_LEN + 1 && sym.Length == MAX_SYM && |lens| <= MAX_SYM
      && (forall l | 0 <= l <= MAX_LEN :: cnt[l] == Cnt(lens, l))
      && AllPlaced(lens, lens, sym[..])
    }

    constructor ()
      ensures fresh(cnt) && fresh(sym) && cnt.Length == MAX_LEN + 1 && sym.Length == MAX_SYM
    {
      cnt := new nat[MAX_LEN + 1](_ => 0);
      sym := new nat[MAX_SYM](_ => 0);
    }

    /** The counts; it goes astray at the first length that is no index of `cnt`. */
    method Count(len: seq<nat>) returns (astray: bool)
      requires cnt.Length == MAX_LEN + 1
      modifies cnt
      ensures astray <==> !InTable(len)
      ensures !astray ==> forall l | 0 <= l <= MAX_LEN :: cnt[l] == Cnt(len, l)
    {
      forall l | 0 <= l < cnt.Length { cnt[l] := 0; }
      var i := 0;
      while i < |len|
        invariant 0 <= i <= |len| && InTable(len[..i])
        invariant forall l | 1 <= l <= MAX_LEN :: cnt[l] == Cnt(len[..i], l)
      {
        assert len[..i + 1][..i] == len[..i];
        if len[i] >= cnt.Length { return true; }
        cnt[len[i]] := cnt[len[i]] + 1;
        i := i + 1;
      }
      assert len[..i] == len;
      cnt[0] := 0;
      astray := false;
    }

    /** huff_build. Its indices stay in the arrays if and only if no length is above 15. */
    method Build(len: seq<nat>) returns (astray: bool)
      requires cnt.Length == MAX_LEN + 1 && sym.Length == MAX_SYM && |len| <= MAX_SYM && cnt != sym
      modifies cnt, sym
      ensures astray <==> !InTable(len)
      ensures !astray ==> Built(len)
    {
      hide Cnt, Offset, AllPlaced;
      astray := Count(len);
      if astray { return; }
      var off := Offsets(len);
      Place(len, off);
    }

    method Offsets(len: Lens) returns (off: array<nat>)
      requires cnt.Length == MAX_LEN + 1 && forall l | 0 <= l <= MAX_LEN :: cnt[l] == Cnt(len, l)
      ensures fresh(off) && off.Length == MAX_LEN + 1 && forall l | 1 <= l <= MAX_LEN :: off[l] == Offset(len, l)
    {
      hide Cnt;
      off := new nat[MAX_LEN + 1](_ => 0);
      var j := 1;
      while j < MAX_LEN
        invariant 1 <= j <= MAX_LEN && forall l | 1 <= l <= j :: off[l] == Offset(len, l)
      {
        off[j + 1] := off[j] + cnt[j];
        j := j + 1;
      }
    }

    method Place(len: Lens, off: array<nat>)
      requires sym.Length == MAX_SYM && |len| <= MAX_SYM && off.Length == MAX_LEN + 1 && off != sym && off != cnt
      requires forall l | 1 <= l <= MAX_LEN :: off[l] == Offset(len, l)
      modifies sym, off
      ensures AllPlaced(len, len, sym[..])
    {
      hide Cnt, Offset, AllPlaced;
      var i := 0;
      assert AllPlaced(len, len[..0], sym[..]) by { PlaceStart(len, sym[..]); }
      assert forall l: nat :: Cnt(len[..0], l) == 0 by { PlaceStart(len, sym[..]); }
      while i < |len|
        invariant 0 <= i <= |len|
        invariant forall l | 1 <= l <= MAX_LEN :: off[l] == Offset(len, l) + Cnt(len[..i], l)
        invariant AllPlaced(len, len[..i], sym[..])
      {
        CntNext(len, i);
        if len[i] != 0 {
          PlaceNext(len, i, sym[..]);
          ghost var next := sym[..][off[len[i]] := i];
          sym[off[len[i]]] := i;
          assert sym[..] == next;
          off[len[i]] := off[len[i]] + 1;
        } else {
          PlaceNone(len, i, sym[..]);
        }
        i := i + 1;
      }
      assert len[..i] == len;
    }

    /** One round of huff_dec: the index stays in the part of the table that belongs to the length. */
    method TryLength(b: Reader, l: nat, code: nat, first: nat, idx: nat, ghost lens: seq<nat>)
      returns (done: bool, s: int, code': nat)
      requires Built(lens) && b.Valid() && 1 <= l <= MAX_LEN
      requires first == First(lens, l) && idx == Offset(lens, l) && first <= code
      modifies b
      ensures b.Valid()
      ensures done ==> match DecFrom(lens, AllBits(b.src), old(b.At()), l, code)
                       case Fail => s == -1
                       case Got(v, q) => s == v && b.At() == q
      ensures !done ==> First(lens, l + 1) <= 2 * code'
      ensures !done ==>
        DecFrom(lens, AllBits(b.src), old(b.At()), l, code)
        == DecFrom(lens, AllBits(b.src), b.At(), l + 1, 2 * code')
    {
      hide DecFrom, First, Cnt, Offset, Kth, AllBits, BitAt, AllPlaced;
      DecStep(lens, AllBits(b.src), b.At(), l, code);
      var x := b.GetBit();
      if x < 0 { return true, -1, code; }
      code' := code + x;
      var c := cnt[l];
      if code' - c < first {
        PlacedAt(lens, lens, sym[..], l, code' - first);
        return true, sym[idx + (code' - first)], code';
      }
      done, s := false, 0;
    }

    /** huff_dec. */
    method Decode(b: Reader, ghost lens: seq<nat>) returns (s: int)
      requires Built(lens) && b.Valid()
      modifies b
      ensures b.Valid()
      ensures match Dec(lens, AllBits(b.src), old(b.At()))
              case Fail => s == -1
              case Got(v, q) => s == v && b.At() == q
    {
      var code, first, idx := 0, 0, 0;
      var l := 1;
      while l < 16
        invariant 1 <= l <= 16 && b.Valid()
        invariant first == First(lens, l) && idx == Offset(lens, l) && first <= code
        invariant Dec(lens, AllBits(b.src), old(b.At())) == DecFrom(lens, AllBits(b.src), b.At(), l, code)
      {
        var done, r, c := TryLength(b, l, code, first, idx, lens);
        if done { return r; }
        idx := idx + cnt[l];
        first := (first + cnt[l]) * 2;
        code := 2 * c;
        l := l + 1;
      }
      s := -1;
    }
  }

  lemma DecStep(lens: seq<nat>, src: Stream, q: nat, l: nat, code: nat)
    requires 1 <= l <= MAX_LEN && First(lens, l) <= code
    ensures First(lens, l + 1) == (First(lens, l) + Cnt(lens, l)) * 2
      && Offset(lens, l + 1) == Offset(lens, l) + Cnt(lens, l)
    ensures q >= |src| ==> DecFrom(lens, src, q, l, code) == Fail
    ensures q < |src| ==>
              var c := code + src[q];
              if c - Cnt(lens, l) < First(lens, l)
              then DecFrom(lens, src, q, l, code) == Got(Kth(lens, l, c - First(lens, l)), q + 1)
              else DecFrom(lens, src, q, l, code) == DecFrom(lens, src, q + 1, l + 1, 2 * c)
  {
  }
}

/** The bit reader of the inflater: bytes, least significant bit first. */
module Bits {

  type Bytes = s: seq<nat> | forall i | 0 <= i < |s| :: s[i] < 256

  function Pow2(n: nat): (p: nat)
    ensures p > 0
  {
    if n == 0 then 1 else 2 * Pow2(n - 1)
  }

  /** Bit `q` of the stream. */
  function BitAt(src: Bytes, q: nat): (b: nat)
    requires q < 8 * |src|
    ensures b < 2
  {
    src[q / 8] / Pow2(q % 8) % 2
  }

  /** A stream of bits. */
  type Stream = s: seq<nat> | forall i | 0 <= i < |s| :: s[i] < 2

  /** The bits of all bytes. */
  function AllBits(src: Bytes): (s: Stream)
    ensures |s| == 8 * |src| && forall q | 0 <= q < |s| :: s[q] == BitAt(src, q)
  {
    seq(8 * |src|, q requires 0 <= q < 8 * |src| => BitAt(src, q))
  }

  /** What a reading function returns: the value and the position after it, or a failure. */
  datatype Got = Fail | Got(v: nat, q: nat)

  function GetBits(src: Stream, q: nat, n: nat): Got
    decreases n
  {
    if n == 0 then Got(0, q)
    else if q >= |src| then Fail
    else
      match GetBits(src, q + 1, n - 1)
      case Fail => Fail
      case Got(v, p) => Got(src[q] + 2 * v, p)
  }

  /** The stream has these bits at position `q`. */
  ghost predicate Reads(src: Stream, q: nat, bits: seq<nat>) {
    q + |bits| <= |src| && src[q..q + |bits|] == bits
  }

  lemma ReadsSplit(src: Stream, q: nat, a: seq<nat>, b: seq<nat>)
    requires Reads(src, q, a + b)
    ensures Reads(src, q, a) && Reads(src, q + |a|, b)
  {
    var r := src[q..q + |a + b|];
    assert src[q..q + |a|] == r[..|a|] == a;
    assert src[q + |a|..q + |a| + |b|] == r[|a|..] == b;
  }

  function Shr(x: nat, k: nat): nat {
    if k == 0 then x else Shr(x / 2, k - 1)
  }

  /** `n` bits of `v`, least significant first. */
  function Low(v: nat, n: nat): (b: seq<nat>)
    ensures |b| == n && forall i | 0 <= i < n :: b[i] == Shr(v, i) % 2
  {
    seq(n, i requires 0 <= i < n => Shr(v, i) % 2)
  }

  /** `n` bits of `v`, most significant first. */
  function High(v: nat, n: nat): (b: seq<nat>)
    ensures |b| == n && forall i | 0 <= i < n :: b[i] == Shr(v, n - 1 - i) % 2
  {
    seq(n, i requires 0 <= i < n => Shr(v, n - 1 - i) % 2)
  }

  lemma DivDiv(x: nat, a: nat)
    requires a > 0
    ensures x / a / 2 == x / (2 * a)
  {
    var d, m := x / a, x % a;
    var e, b := d / 2, d % 2;
    assert x == a * d + m;
    Spread(a, d, e, b);
    DivUnique(x, 2 * a, e, a * b + m);
  }

  lemma Spread(a: nat, d: nat, e: nat, b: nat)
    requires d == 2 * e + b && b < 2
    ensures a * d == 2 * a * e + a * b && a * b <= a
  {
    assert a * d == a * (2 * e) + a * b;
    assert b == 0 || b == 1;
  }

  lemma DivUnique(x: nat, a: nat, q: nat, r: nat)
    requires a > 0 && x == a * q + r && r < a
    ensures x / a == q && x % a == r
  {
    var d, m := x / a, x % a;
    assert x == a * d + m;
    if d < q { Apart(a, d, q, m, r); } else if q < d { Apart(a, q, d, r, m); }
  }

  lemma Apart(a: nat, d: nat, q: nat, m: nat, r: nat)
    requires d < q && m < a
    ensures a * d + m != a * q + r
  {
    var k := q - d - 1;
    assert a * q == a * (d + 1 + k) == a * d + a + a * k;
    assert a * k >= 0;
  }

  /** Reading back what was written. */
  lemma {:induction false} GetLow(src: Stream, q: nat, v: nat, n: nat)
    requires v < Pow2(n) && Reads(src, q, Low(v, n))
    ensures GetBits(src, q, n) == Got(v, q + n)
    decreases n
  {
    if n > 0 {
      assert Low(v, n) == [v % 2] + Low(v / 2, n - 1);
      ReadsSplit(src, q, [v % 2], Low(v / 2, n - 1));
      assert src[q] == src[q..q + 1][0];
      GetLow(src, q + 1, v / 2, n - 1);
    }
  }

  /** The lowest of the `cnt` bits left over is the next one of the stream. */
  lemma NextBit(src: Bytes, pos: nat, cnt: nat, bit: nat)
    requires 0 < pos <= |src| && 0 < cnt <= 8 && bit == src[pos - 1] / Pow2(8 - cnt)
    ensures bit % 2 == BitAt(src, 8 * pos - cnt)
    ensures bit / 2 == src[pos - 1] / Pow2(8 - (cnt - 1))
  {
    var q := 8 * pos - cnt;
    assert q == 8 * (pos - 1) + (8 - cnt);
    assert cnt == 8 || (q / 8 == pos - 1 && q % 8 == 8 - cnt);
    DivDiv(src[pos - 1], Pow2(8 - cnt));
  }

  /** The state of the C reader: the next byte, and the bits left over of the one before. */
  class Reader {
    const src: Bytes
    var pos: nat
    var bit: nat
    var cnt: nat

    ghost predicate Valid()
      reads this
    {
      && cnt < 8 && pos <= |src|
      && (cnt > 0 ==> pos > 0 && bit == src[pos - 1] / Pow2(8 - cnt))
    }

    /** The position in bits. */
    ghost function At(): (q: nat)
      requires Valid()
      reads this
      ensures q <= 8 * |src|
    {
      8 * pos - cnt
    }

    constructor (s: Bytes)
      ensures Valid() && src == s && At() == 0
    {
      src, pos, bit, cnt := s, 0, 0, 0;
    }

    method GetBit() returns (r: int)
      requires Valid()
      modifies this
      ensures Valid()
      ensures r < 0 ==> r == -1 && old(At()) == 8 * |src| && At() == old(At())
      ensures r >= 0 ==> old(At()) < 8 * |src| && r == AllBits(src)[old(At())] && At() == old(At()) + 1
    {
      if cnt == 0 {
        if pos >= |src| { return -1; }
        bit := src[pos];
        assert bit == src[pos] / Pow2(0);
        pos := pos + 1;
        cnt := 8;
      }
      r := bit % 2;
      NextBit(src, pos, cnt, bit);
      bit := bit / 2;
      cnt := cnt - 1;
    }

    method Take(n: nat) returns (v: int)
      requires Valid()
      modifies this
      ensures Valid()
      ensures match GetBits(AllBits(src), old(At()), n)
              case Fail => v == -1 && At() == 8 * |src|
              case Got(w, q) => v == w && At() == q
    {
      hide Plus, GetBits, BitAt;
      v := 0;
      var i, p := 0, 1;
      ghost var s := AllBits(src);
      PlusNone(GetBits(s, At(), n));
      while i < n
        invariant 0 <= i <= n && Valid() && v >= 0 && p >= 0
        invariant GetBits(s, old(At()), n) == Plus(v, p, GetBits(s, At(), n - i))
      {
        if At() < |s| { PlusStep(s, At(), n - i, v, p); } else { PlusFails(s, At(), n - i, v, p); }
        var x := GetBit();
        if x < 0 { return -1; }
        v := v + x * p;
        i, p := i + 1, 2 * p;
      }
      PlusDone(s, At(), v, p);
    }
  }

  /** What is read next counts `p` times, after `v`. */
  function Plus(v: nat, p: nat, g: Got): Got {
    match g
    case Fail => Fail
    case Got(w, q) => Got(v + p * w, q)
  }

  lemma PlusNone(g: Got)
    ensures Plus(0, 1, g) == g
  {
  }

  lemma PlusDone(src: Stream, q: nat, v: nat, p: nat)
    ensures Plus(v, p, GetBits(src, q, 0)) == Got(v, q)
  {
  }

  lemma PlusFails(src: Stream, q: nat, n: nat, v: nat, p: nat)
    requires n > 0 && q >= |src|
    ensures Plus(v, p, GetBits(src, q, n)) == Fail
  {
  }

  lemma PlusStep(src: Stream, q: nat, n: nat, v: nat, p: nat)
    requires n > 0 && q < |src|
    ensures Plus(v, p, GetBits(src, q, n)) == Plus(v + src[q] * p, 2 * p, GetBits(src, q + 1, n - 1))
  {
    var g := GetBits(src, q + 1, n - 1);
    if g.Got? { assert p * (src[q] + 2 * g.v) == src[q] * p + 2 * p * g.v; }
  }
}

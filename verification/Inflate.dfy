/** The inflater of the image decoder, proved against the meaning of DEFLATE streams. */
module Inflate {
  import opened Bits
  import opened Huffman
  import Deflate

  /** The bits of a byte give back the byte. */
  lemma {:induction false} BitsOfByte(src: Bytes, i: nat, j: nat)
    requires i < |src| && j <= 8
    ensures GetBits(AllBits(src), 8 * i + j, 8 - j) == Got(src[i] / Pow2(j), 8 * i + 8)
    decreases 8 - j
  {
    if j < 8 {
      hide Pow2, BitAt, GetBits;
      BitsOfByte(src, i, j + 1);
      BitOfByte(src, i, j);
      GetNext(AllBits(src), 8 * i + j, 8 - j, src[i] / Pow2(j + 1), 8 * i + 8);
      Halves(src[i] / Pow2(j));
    } else {
      NothingLeft(src[i]);
    }
  }

  lemma GetNext(src: Stream, q: nat, n: nat, v: nat, p: nat)
    requires n > 0 && q < |src| && GetBits(src, q + 1, n - 1) == Got(v, p)
    ensures GetBits(src, q, n) == Got(src[q] + 2 * v, p)
  {
  }

  lemma Halves(x: nat)
    ensures x == x % 2 + 2 * (x / 2)
  {
  }

  lemma BitOfByte(src: Bytes, i: nat, j: nat)
    requires i < |src| && j < 8
    ensures AllBits(src)[8 * i + j] == src[i] / Pow2(j) % 2
    ensures src[i] / Pow2(j) / 2 == src[i] / Pow2(j + 1)
  {
    var q := 8 * i + j;
    assert q / 8 == i && q % 8 == j;
    DivDiv(src[i], Pow2(j));
  }

  lemma NothingLeft(v: nat)
    requires v < 256
    ensures v / Pow2(8) == 0
  {
    assert Pow2(8) == 256 by { assert Pow2(4) == 16; }
  }

  lemma ByteIs(src: Bytes, i: nat)
    requires i < |src|
    ensures Deflate.ByteAt(AllBits(src), i) == src[i]
  {
    hide GetBits, AllBits;
    BitsOfByte(src, i, 0);
  }

  lemma BytesAre(src: Bytes, pos: nat, len: nat)
    requires pos + len <= |src|
    ensures Deflate.BytesAt(AllBits(src), pos, len) == src[pos..pos + len]
  {
    hide AllBits, Deflate.ByteAt;
    var a, c := Deflate.BytesAt(AllBits(src), pos, len), src[pos..pos + len];
    forall i | 0 <= i < len ensures a[i] == c[i] { ByteIs(src, pos + i); }
  }

  datatype Status = Wrong | Done | More

  class Decoder {
    const b: Reader
    const lh: Table
    const dh: Table
    const out: array<nat>
    const k: Deflate.Tables

    ghost predicate Valid()
      reads this, b
    {
      && b.Valid() && k == Deflate.Rfc() && lh != dh && lh.cnt.Length == dh.cnt.Length == MAX_LEN + 1
      && lh.sym.Length == dh.sym.Length == MAX_SYM
      && lh.cnt != lh.sym && lh.cnt != dh.cnt && lh.cnt != dh.sym && lh.cnt != out && lh.sym != dh.cnt
      && lh.sym != dh.sym && lh.sym != out && dh.cnt != dh.sym && dh.cnt != out && dh.sym != out
    }

    constructor (src: Bytes, buf: array<nat>)
      ensures Valid() && b.src == src && out == buf && b.At() == 0
      ensures fresh(b) && fresh(lh) && fresh(dh) && fresh(lh.cnt) && fresh(lh.sym) && fresh(dh.cnt) && fresh(dh.sym)
    {
      b := new Reader(src);
      lh := new Table();
      dh := new Table();
      out := buf;
      Deflate.RfcOk();
      k := Deflate.Rfc();
    }

    /** The copy of a match, byte by byte. */
    method CopyMatch(o: nat, dist: nat, l: nat)
      requires 0 < dist <= o && o + l <= out.Length
      modifies out
      ensures out[..o + l] == Deflate.Copy(old(out[..o]), dist, l)
    {
      var k := 0;
      while k < l
        invariant 0 <= k <= l
        invariant Deflate.Copy(old(out[..o]), dist, l) == Deflate.Copy(out[..o + k], dist, l - k)
      {
        ghost var was := out[..o + k];
        out[o + k] := out[o + k - dist];
        assert out[..o + k + 1] == was + [was[|was| - dist]];
        k := k + 1;
      }
    }

    /** What came after the end of the stream does not count: nothing can be read any more. */
    ghost predicate AtEnd()
      reads this, b
    {
      b.Valid() && b.At() == 8 * |b.src|
    }

    /**
      A match: length, distance, and the copy. A number that is cut off is -1; the code goes on
      with it, but then the stream has ended.
      */
    method OneMatch(o: nat, s: nat, ghost dl: seq<nat>) returns (st: Status, o': nat)
      requires Valid() && dh.Built(dl) && o <= out.Length && s < 29
      modifies b, out
      ensures Valid() && Deflate.CodesOk(Deflate.Rfc())
      ensures match Deflate.Matched(Deflate.Rfc(), AllBits(b.src), dl, old(b.At()), old(out[..o]), out.Length, s)
              case Wrong => st == Wrong || (st == More && AtEnd() && o' <= out.Length)
              case Done(_) => false
              case More(q, bytes) => st == More && b.At() == q && o' == |bytes| <= out.Length && out[..o'] == bytes
    {
      hide Deflate.Copy, Dec, GetBits, AllBits, AllPlaced, Cnt, Deflate.Rfc;
      st, o' := Wrong, o;
      DecEnds(dl, AllBits(b.src));
      var lx := b.Take(k.lext[s]);
      var l := k.lbase[s] + lx;
      var d := dh.Decode(b, dl);
      if d < 0 || d >= 30 { return; }
      assert lx >= 0;
      NoneToRead(AllBits(b.src), b.At());
      var dx := b.Take(k.dext[d]);
      assert dx < 0 ==> k.dext[d] > 0;
      var dist := k.dbase[d] + dx;
      if dist > o || o + l > out.Length { return; }
      CopyMatch(o, dist, l);
      return More, o + l;
    }

    /** One round of the symbol loop. */
    method OneSymbol(o: nat, ghost ll: seq<nat>, ghost dl: seq<nat>) returns (st: Status, o': nat)
      requires Valid() && lh.Built(ll) && dh.Built(dl) && o <= out.Length
      modifies b, out
      ensures Valid() && Deflate.CodesOk(Deflate.Rfc())
      ensures match Deflate.OneSym(Deflate.Rfc(), AllBits(b.src), ll, dl, old(b.At()), old(out[..o]), out.Length)
              case Wrong => st == Wrong || (st == More && AtEnd() && o' <= out.Length)
              case Done(q) => st == Done && b.At() == q && out[..o] == old(out[..o])
              case More(q, bytes) => st == More && b.At() == q && o' == |bytes| <= out.Length && out[..o'] == bytes
      ensures st == More ==> old(b.At()) < b.At()
    {
      hide Dec, Deflate.Matched, Deflate.Rfc;
      Deflate.RfcOk();
      Deflate.OneSymMoves(Deflate.Rfc(), AllBits(b.src), ll, dl, b.At(), out[..o], out.Length);
      DecUses(ll, AllBits(b.src), b.At());
      st, o' := Wrong, o;
      var s := lh.Decode(b, ll);
      if s < 0 { return; }
      if s < 256 {
        if o >= out.Length { return; }
        out[o] := s;
        assert out[..o + 1] == old(out[..o]) + [s];
        return More, o + 1;
      }
      if s == 256 { return Done, o; }
      if s - 257 >= 29 { return; }
      st, o' := OneMatch(o, s - 257, dl);
    }

    /** The symbol loop of one block. */
    method Symbols(o: nat, ghost ll: seq<nat>, ghost dl: seq<nat>) returns (r: int)
      requires Valid() && lh.Built(ll) && dh.Built(dl) && o <= out.Length
      modifies b, out
      ensures Valid() && Deflate.CodesOk(Deflate.Rfc())
      ensures match Deflate.Body(Deflate.Rfc(), AllBits(b.src), ll, dl, old(b.At()), old(out[..o]), out.Length)
              case Bad => r == -1
              case Out(bytes, q) => b.At() == q && r == |bytes| <= out.Length && out[..r] == bytes
    {
      hide Deflate.OneSym, Deflate.Rfc;
      Deflate.RfcOk();
      ghost var src, k, q0, out0 := AllBits(b.src), Deflate.Rfc(), b.At(), out[..o];
      var i: nat := o;
      while true
        invariant Valid() && lh.Built(ll) && dh.Built(dl) && i <= out.Length
        invariant Deflate.Body(k, src, ll, dl, q0, out0, out.Length) ==
                  Deflate.Body(k, src, ll, dl, b.At(), out[..i], out.Length)
        decreases 8 * |b.src| - b.At()
      {
        Deflate.OneSymMoves(k, src, ll, dl, b.At(), out[..i], out.Length);
        BodyEnds(k, src, ll, dl);
        var st, j := OneSymbol(i, ll, dl);
        if st == Wrong { return -1; }
        if st == Done { return i; }
        i := j;
      }
    }

    /** A stored block: from the next byte on. */
    method StoredBlock(o: nat) returns (r: int)
      requires Valid() && o <= out.Length
      modifies b, out
      ensures Valid()
      ensures match Deflate.Stored(AllBits(b.src), old(b.At()), old(out[..o]), out.Length)
              case Bad => r == -1
              case Out(bytes, q) => b.At() == q && r == |bytes| <= out.Length && out[..r] == bytes
    {
      hide Deflate.ByteAt, Deflate.BytesAt, AllBits;
      ghost var q := b.At();
      b.cnt := 0;
      assert b.pos == (q + 7) / 8;
      if b.pos + 4 > |b.src| { return -1; }
      ByteIs(b.src, b.pos);
      ByteIs(b.src, b.pos + 1);
      var len := b.src[b.pos] + 256 * b.src[b.pos + 1];
      b.pos := b.pos + 4;
      if b.pos + len > |b.src| || o + len > out.Length { return -1; }
      BytesAre(b.src, b.pos, len);
      CopyIn(o, b.pos, len);
      b.pos := b.pos + len;
      return o + len;
    }

    method CopyIn(o: nat, pos: nat, len: nat)
      requires pos + len <= |b.src| && o + len <= out.Length
      modifies out
      ensures out[..o + len] == old(out[..o]) + b.src[pos..pos + len]
    {
      var k := 0;
      while k < len
        invariant 0 <= k <= len
        invariant out[..o + k] == old(out[..o]) + b.src[pos..pos + k]
      {
        out[o + k] := b.src[pos + k];
        k := k + 1;
      }
    }

    /** The code length code of a dynamic block; a length behind the end is 255. */
    method ReadCl(hc: nat) returns (cl: seq<nat>)
      requires Valid() && hc <= 19
      modifies b
      ensures Valid() && cl == Deflate.ClRead(AllBits(b.src), old(b.At()), hc, 0, Deflate.Rep(19, 0))
      ensures InTable(cl) ==>
                Deflate.ReadCl(AllBits(b.src), old(b.At()), hc, 0, Deflate.Rep(19, 0)) == Deflate.LensGot(cl, b.At())
    {
      hide GetBits;
      cl := Deflate.Rep(19, 0);
      ghost var src, q0 := AllBits(b.src), b.At();
      Deflate.ClReadFits(src, q0, hc, 0, cl);
      var i := 0;
      while i < hc
        invariant i <= hc && Valid() && |cl| == 19 && (InTable(cl) || AtEnd())
        invariant Deflate.ClRead(src, q0, hc, 0, Deflate.Rep(19, 0)) == Deflate.ClRead(src, b.At(), hc, i, cl)
        invariant b.At() == q0 + 3 * i || !InTable(cl)
      {
        Deflate.OrderOk(i);
        Deflate.GetBitsMoves(src, b.At(), 3);
        assert Pow2(3) == 8;
        if AtEnd() { NoBits(src, b.At()); }
        var v := b.Take(3);
        cl := cl[Deflate.ORDER[i] := if v < 0 then Deflate.NO_LEN else v];
        assert v < 0 ==> cl[Deflate.ORDER[i]] == Deflate.NO_LEN;
        i := i + 1;
      }
    }

    /** One symbol of the sequence of code lengths; a repeat count that is cut off is one short. */
    method OneLength(ch: Table, ghost cl: seq<nat>, total: nat, len: Lens) returns (ok: bool, len': Lens)
      requires Valid() && ch.Built(cl) && |cl| == 19
      modifies b
      ensures Valid()
      ensures match Deflate.ReadItem(AllBits(b.src), cl, old(b.At()), total, len)
              case LensFail => !ok || (AtEnd() && |len| < |len'| <= total)
              case LensGot(more, q) => ok && len' == more && b.At() == q
    {
      hide Dec, GetBits, AllBits, AllPlaced, Cnt;
      DecMoves(cl, AllBits(b.src), b.At(), 1, 0);
      len' := len;
      var s := ch.Decode(b, cl);
      if s < 0 { return false, len; }
      if s < 16 { return true, len + [s]; }
      if s == 16 && |len| == 0 { return false, len; }
      var v := if s == 16 then len[|len| - 1] else 0;
      var x := b.Take(Deflate.Extra(s));
      var rep := Deflate.Times(s) + x;
      if |len| + rep > total { return false, len; }
      return true, len + Deflate.Rep(rep, v);
    }

    method ReadLens(ch: Table, ghost cl: seq<nat>, total: nat) returns (ok: bool, len: Lens)
      requires Valid() && ch.Built(cl) && |cl| == 19
      modifies b
      ensures Valid() && (ok ==> |len| == total)
      ensures match Deflate.ReadLens(AllBits(b.src), cl, old(b.At()), total, [])
              case LensFail => !ok || AtEnd()
              case LensGot(all, q) => ok && len == all && b.At() == q
    {
      hide Deflate.ReadItem;
      len := [];
      ghost var src, q0 := AllBits(b.src), b.At();
      ghost var cut := false;
      while |len| < total
        invariant Valid() && ch.Built(cl) && |len| <= total
        invariant !cut ==> Deflate.ReadLens(src, cl, q0, total, []) == Deflate.ReadLens(src, cl, b.At(), total, len)
        invariant cut ==> AtEnd() && Deflate.ReadLens(src, cl, q0, total, []) == Deflate.LensFail
        decreases total - |len|
      {
        Deflate.ReadItemMoves(src, cl, b.At(), total, len);
        if cut { ItemEnds(src, cl, total, len); }
        cut := cut || Deflate.ReadItem(src, cl, b.At(), total, len).LensFail?;
        var more;
        ok, more := OneLength(ch, cl, total, len);
        if !ok { return; }
        len := more;
      }
      ok := true;
    }

    /** The tables of a dynamic block. It goes astray if and only if a code length code length is cut off. */
    method ReadTables(hl: nat, hd: nat, hc: nat) returns (astray: bool, ok: bool, ll: Lens, dl: Lens)
      requires Valid() && hc <= 19
      modifies b
      ensures Valid() && (ok ==> |ll| == hl && |dl| == hd)
      ensures astray <==> !InTable(Deflate.ClRead(AllBits(b.src), old(b.At()), hc, 0, Deflate.Rep(19, 0)))
      ensures !astray ==>
                match Deflate.ReadTables(AllBits(b.src), old(b.At()), hl, hd, hc)
                case NoHdr => !ok || AtEnd()
                case Hdr(l, d, q) => ok && ll == l && dl == d && b.At() == q
    {
      hide Deflate.ReadCl, Deflate.ReadLens, Deflate.ClRead;
      ok, ll, dl := false, [], [];
      var cl := ReadCl(hc);
      var ch := new Table();
      astray := ch.Build(cl);
      if astray { return; }
      Deflate.ReadLensMoves(AllBits(b.src), cl, b.At(), hl + hd, []);
      var len;
      ok, len := ReadLens(ch, cl, hl + hd);
      if !ok { return; }
      ll, dl := len[..hl], len[hl..];
    }

    /** The header of a dynamic block: a number that is cut off is -1, so 256, 0 and 3. */
    method DynamicHeader() returns (astray: bool, ok: bool, ll: Lens, dl: Lens)
      requires Valid()
      modifies b
      ensures Valid() && (ok ==> |ll| <= 288 && |dl| <= 32)
      ensures astray <==> !Deflate.HeaderThere(AllBits(b.src), old(b.At()))
      ensures !astray ==>
                match Deflate.Dynamic(AllBits(b.src), old(b.At()))
                case NoHdr => !ok || AtEnd()
                case Hdr(l, d, q) => ok && ll == l && dl == d && b.At() == q
    {
      hide GetBits, Deflate.ReadTables, Deflate.ClRead;
      ghost var src, q := AllBits(b.src), b.At();
      Deflate.HeaderFits(src, q);
      HeaderNumbers(src, q);
      assert Pow2(4) == 16 && Pow2(5) == 32 by { assert Pow2(2) == 4; assert Pow2(3) == 8; }
      var x := b.Take(5);
      var y := b.Take(5);
      var z := b.Take(4);
      astray, ok, ll, dl := ReadTables(x + 257, y + 1, z + 4);
    }

    /** One block after its three header bits. */
    method OneBlock(o: nat, kind: nat) returns (astray: bool, r: int)
      requires Valid() && o <= out.Length
      modifies b, out, lh.cnt, lh.sym, dh.cnt, dh.sym
      ensures Valid()
      ensures astray <==> kind == 2 && !Deflate.HeaderThere(AllBits(b.src), old(b.At()))
      ensures !astray ==>
                match Deflate.BlockBody(AllBits(b.src), old(b.At()), old(out[..o]), out.Length, kind)
                case Bad => r == -1
                case Out(bytes, q) => b.At() == q && r == |bytes| <= out.Length && out[..r] == bytes
    {
      hide Deflate.Stored, Deflate.Body, Deflate.Dynamic, Deflate.Rfc, Deflate.FixedLit, Deflate.FixedDist,
        Deflate.HeaderThere;
      astray, r := false, -1;
      if kind == 0 {
        r := StoredBlock(o);
        return;
      }
      if kind >= 3 { return; }
      var ll: Lens, dl: Lens := Deflate.FixedLit(), Deflate.FixedDist();
      FixedSizes();
      if kind == 2 {
        var ok;
        astray, ok, ll, dl := DynamicHeader();
        if astray || !ok { return; }
      }
      var a1 := lh.Build(ll);
      var a2 := dh.Build(dl);
      Deflate.RfcOk();
      BodyEnds(Deflate.Rfc(), AllBits(b.src), ll, dl);
      r := Symbols(o, ll, dl);
    }

    /**
      The whole stream: the bytes written, or -1. The indices of huff_build leave its arrays if and
      only if the decoder comes to a dynamic block whose header is cut off.
      */
    method Run() returns (astray: bool, r: int)
      requires Valid() && b.At() == 0
      modifies b, out, lh.cnt, lh.sym, dh.cnt, dh.sym
      ensures astray <==> Deflate.Strays(AllBits(b.src), 0, [], out.Length)
      ensures !astray ==>
                match Deflate.Inflate(AllBits(b.src), 0, [], out.Length)
                case Bad => r == -1
                case Out(bytes, q) => r == |bytes| <= out.Length && out[..r] == bytes
    {
      hide Deflate.BlockBody, GetBits, Deflate.HeaderThere;
      ghost var src, cap := AllBits(b.src), out.Length;
      astray, r := false, -1;
      var o: nat := 0;
      assert out[..0] == [];
      while true
        invariant Valid() && o <= out.Length && !astray && r == -1
        invariant Deflate.Inflate(src, 0, [], cap) == Deflate.Inflate(src, b.At(), out[..o], cap)
        invariant Deflate.Strays(src, 0, [], cap) == Deflate.Strays(src, b.At(), out[..o], cap)
        decreases 8 * |b.src| - b.At()
      {
        ghost var q := b.At();
        Deflate.GetBitsMoves(src, q, 1);
        Deflate.GetBitsMoves(src, q + 1, 2);
        NoBits(src, q);
        var last := b.Take(1);
        var kind := b.Take(2);
        if last < 0 || kind < 0 { return; }
        Deflate.BlockMoves(src, q + 3, out[..o], cap, kind);
        var n;
        astray, n := OneBlock(o, kind);
        if astray || n < 0 { return; }
        o := n;
        if last == 1 { return astray, o; }
      }
    }
  }

  lemma NoneToRead(src: Stream, q: nat)
    ensures GetBits(src, q, 0) == Got(0, q)
  {
  }

  lemma DecUses(lens: seq<nat>, src: Stream, q: nat)
    ensures Dec(lens, src, q).Got? ==> q < |src|
  {
    DecMoves(lens, src, q, 1, 0);
  }

  lemma NoBits(src: Stream, q: nat)
    ensures q >= |src| ==> forall n: nat | n > 0 :: GetBits(src, q, n) == Fail
  {
  }

  lemma DecEnds(lens: seq<nat>, src: Stream)
    ensures Dec(lens, src, |src|) == Fail
  {
  }

  lemma BodyEnds(k: Deflate.Tables, src: Stream, ll: seq<nat>, dl: seq<nat>)
    ensures forall out, cap :: Deflate.Body(k, src, ll, dl, |src|, out, cap) == Deflate.Bad
  {
    forall out: seq<nat>, cap: nat
      ensures Deflate.Body(k, src, ll, dl, |src|, out, cap) == Deflate.Bad
    {
      DecEnds(ll, src);
    }
  }

  lemma ItemEnds(src: Stream, cl: seq<nat>, total: nat, len: seq<nat>)
    ensures Deflate.ReadItem(src, cl, |src|, total, len) == Deflate.LensFail
  {
    DecEnds(cl, src);
  }

  /** The three numbers of a dynamic header, read one after the other. */
  lemma HeaderNumbers(src: Stream, q: nat)
    requires q <= |src|
    ensures GetBits(src, q, 5).Got? <==> q + 5 <= |src|
    ensures GetBits(src, q + 5, 5).Got? <==> q + 10 <= |src|
    ensures GetBits(src, q + 10, 4).Got? <==> q + 14 <= |src|
    ensures GetBits(src, q, 5).Got? ==> GetBits(src, q, 5).q == q + 5 && GetBits(src, q, 5).v < Pow2(5)
    ensures GetBits(src, q + 5, 5).Got? ==> GetBits(src, q + 5, 5).q == q + 10 && GetBits(src, q + 5, 5).v < Pow2(5)
    ensures GetBits(src, q + 10, 4).Got? ==> GetBits(src, q + 10, 4).q == q + 14 && GetBits(src, q + 10, 4).v < Pow2(4)
    ensures GetBits(src, |src|, 5) == Fail && GetBits(src, |src|, 4) == Fail
  {
    hide GetBits;
    Deflate.GetBitsThere(src, q, 5);
    Deflate.GetBitsThere(src, q + 5, 5);
    Deflate.GetBitsThere(src, q + 10, 4);
    Deflate.GetBitsMoves(src, q, 5);
    Deflate.GetBitsMoves(src, q + 5, 5);
    Deflate.GetBitsMoves(src, q + 10, 4);
    NoBits(src, |src|);
  }

  /** Four bytes that announce 19 lengths in a last dynamic block and have the bits of five. */
  lemma CutHeaderStrays(cap: nat)
    ensures Deflate.Strays(AllBits([0x05, 0xE0, 0x01, 0x00]), 0, [], cap)
  {
    var bytes: Bytes := [0x05, 0xE0, 0x01, 0x00];
    var src := AllBits(bytes);
    BitsOf05(src, bytes);
    assert Pow2(1) == 2 && Pow2(2) == 4;
    assert GetBits(src, 0, 1) == Got(1, 1) by { assert GetBits(src, 1, 0) == Got(0, 1); }
    assert GetBits(src, 1, 2) == Got(2, 3) by {
      assert GetBits(src, 3, 0) == Got(0, 3);
      assert GetBits(src, 2, 1) == Got(1, 3);
    }
    assert GetBits(src, 13, 4) == Got(15, 17) by {
      assert GetBits(src, 17, 0) == Got(0, 17);
      assert GetBits(src, 16, 1) == Got(1, 17);
      assert GetBits(src, 15, 2) == Got(3, 17);
      assert GetBits(src, 14, 3) == Got(7, 17);
    }
    hide GetBits, Deflate.BlockBody;
    assert !Deflate.HeaderThere(src, 3);
  }

  lemma BitsOf05(src: Stream, bytes: Bytes)
    requires bytes == [0x05, 0xE0, 0x01, 0x00] && src == AllBits(bytes)
    ensures |src| == 32 && src[0] == 1 && src[1] == 0 && src[2] == 1
    ensures src[13] == 1 && src[14] == 1 && src[15] == 1 && src[16] == 1
  {
    assert Pow2(1) == 2 && Pow2(2) == 4;
    assert Pow2(3) == 8 && Pow2(4) == 16;
    assert Pow2(5) == 32 && Pow2(6) == 64;
    assert Pow2(7) == 128;
  }

  lemma FixedSizes()
    ensures |Deflate.FixedLit()| == 288 && |Deflate.FixedDist()| == 30
  {
  }

  /** The decoder on the encoding of any blocks, with a buffer that is large enough. */
  method Decompress(src: Bytes, buf: array<nat>, ghost bs: seq<Deflate.Block>) returns (r: int)
    modifies buf
    ensures bs != [] && Deflate.BlocksOk(bs, []) && Reads(AllBits(src), 0, Deflate.EncAll(bs, [], 0))
            && |Deflate.ExpandAll([], bs)| <= buf.Length
            ==> r == |Deflate.ExpandAll([], bs)| && buf[..r] == Deflate.ExpandAll([], bs)
  {
    var d := new Decoder(src, buf);
    var astray;
    astray, r := d.Run();
    if astray { Deflate.StraysBad(AllBits(src), 0, [], buf.Length); }
    if bs != [] && Deflate.BlocksOk(bs, []) && Reads(AllBits(src), 0, Deflate.EncAll(bs, [], 0))
      && |Deflate.ExpandAll([], bs)| <= buf.Length {
      Deflate.InflateInverts(AllBits(src), 0, [], buf.Length, bs);
    }
  }
}

/**
  The kernel heap: one arena, a list of blocks in address order with a header each, next fit,
  splitting, merging with the neighbours and growing in place.
  */
module Heap {

  const HDR: nat := 32
  const WORD: nat := 0x1_0000_0000_0000_0000
  const MG_USED: nat := 0x5a11c0de
  const MG_FREE: nat := 0xf4eeb10c

  /** A header in memory; address 0 is no block. */
  datatype Header = Header(size: nat, next: nat, prev: nat, free: bool, mg: nat)

  /** ALIGN8 on 64-bit sizes: rounding up to 16 wraps around at the very end. */
  function Align(n: nat): nat { (n + 15) % WORD / 16 * 16 }

  /** A rounded size is at least the size that was asked for exactly if the sum does not wrap. */
  lemma AlignUp(n: nat)
    requires n < WORD
    ensures Align(n) >= n <==> n <= WORD - 16
    ensures n <= WORD - 16 ==> Align(n) < n + 16 && Align(n) % 16 == 0
    ensures n > WORD - 16 ==> Align(n) == 0
  {
  }

  // ---------- the list as a value ----------

  datatype Blk = Blk(at: nat, size: nat, free: bool)

  function EndOf(b: Blk): nat { b.at + HDR + b.size }

  function Start(bl: seq<Blk>, i: nat, end: nat): nat { if i < |bl| then bl[i].at else end }

  /** The blocks fill the arena without gaps. */
  ghost predicate Tiled(bl: seq<Blk>, end: nat) {
    forall i: nat :: TileAt(bl, end, i)
  }

  predicate TileAt(bl: seq<Blk>, end: nat, i: nat) {
    i < |bl| ==> EndOf(bl[i]) == Start(bl, i + 1, end)
  }

  ghost predicate NoFreePair(bl: seq<Blk>) {
    forall i: nat :: PairOk(bl, i)
  }

  predicate PairOk(bl: seq<Blk>, i: nat) {
    i + 1 < |bl| ==> !(bl[i].free && bl[i + 1].free)
  }

  function UsedBytes(bl: seq<Blk>): nat {
    if bl == [] then 0 else UsedBytes(bl[..|bl| - 1]) + Weight(bl[|bl| - 1])
  }

  function Weight(b: Blk): nat { if b.free then 0 else b.size + HDR }

  /** A block somebody has. */
  ghost predicate Live(bl: seq<Blk>, b: Blk) { b in bl && !b.free }

  lemma {:induction false} UsedAppend(a: seq<Blk>, b: seq<Blk>)
    ensures UsedBytes(a + b) == UsedBytes(a) + UsedBytes(b)
    decreases |b|
  {
    if b == [] {
      assert a + b == a;
    } else {
      assert (a + b)[..|a + b| - 1] == a + b[..|b| - 1];
      UsedAppend(a, b[..|b| - 1]);
    }
  }

  lemma UsedOne(x: Blk)
    ensures UsedBytes([x]) == Weight(x)
  {
    assert [x][..0] == [];
  }

  lemma {:induction false} InOrder(bl: seq<Blk>, end: nat, i: nat, j: nat)
    requires Tiled(bl, end) && i < j <= |bl|
    ensures EndOf(bl[i]) <= Start(bl, j, end)
    decreases j
  {
    assert TileAt(bl, end, i) && TileAt(bl, end, j - 1);
    if i + 1 < j { InOrder(bl, end, i, j - 1); }
  }

  /** No two payloads overlap, and all of them lie inside the arena. */
  lemma PayloadsApart(bl: seq<Blk>, end: nat, i: nat, j: nat)
    requires Tiled(bl, end) && i < j < |bl|
    ensures bl[i].at + HDR + bl[i].size <= bl[j].at && EndOf(bl[j]) <= end
  {
    InOrder(bl, end, i, j);
    InOrder(bl, end, j, |bl|);
  }

  // ---------- the three changes ----------

  /** Block `i` keeps `n` bytes, the rest becomes a free block. */
  function Split(bl: seq<Blk>, i: nat, n: nat): seq<Blk>
    requires i < |bl| && bl[i].size >= n + HDR
  {
    var b := bl[i];
    bl[..i] + [Blk(b.at, n, b.free), Blk(b.at + HDR + n, b.size - n - HDR, true)] + bl[i + 1..]
  }

  /** Block `i` swallows the next one. */
  function Merge(bl: seq<Blk>, i: nat): seq<Blk>
    requires i + 1 < |bl|
  {
    bl[..i] + [Blk(bl[i].at, bl[i].size + HDR + bl[i + 1].size, bl[i].free)] + bl[i + 2..]
  }

  function Mark(bl: seq<Blk>, i: nat, free: bool): seq<Blk>
    requires i < |bl|
  {
    bl[i := Blk(bl[i].at, bl[i].size, free)]
  }

  lemma SplitTiled(bl: seq<Blk>, end: nat, i: nat, n: nat)
    requires Tiled(bl, end) && i < |bl| && bl[i].size >= n + HDR
    ensures Tiled(Split(bl, i, n), end)
  {
    var bl' := Split(bl, i, n);
    forall k: nat
      ensures TileAt(bl', end, k)
    {
      assert TileAt(bl, end, k);
      if k > 0 { assert TileAt(bl, end, k - 1); }
    }
  }

  lemma MergeTiled(bl: seq<Blk>, end: nat, i: nat)
    requires Tiled(bl, end) && i + 1 < |bl|
    ensures Tiled(Merge(bl, i), end)
  {
    var bl' := Merge(bl, i);
    forall k: nat
      ensures TileAt(bl', end, k)
    {
      assert TileAt(bl, end, k) && TileAt(bl, end, k + 1);
    }
  }

  lemma MarkTiled(bl: seq<Blk>, end: nat, i: nat, free: bool)
    requires Tiled(bl, end) && i < |bl|
    ensures Tiled(Mark(bl, i, free), end)
  {
    var bl' := Mark(bl, i, free);
    forall k: nat
      ensures TileAt(bl', end, k)
    {
      assert TileAt(bl, end, k);
    }
  }

  lemma SplitUsed(bl: seq<Blk>, i: nat, n: nat)
    requires i < |bl| && bl[i].size >= n + HDR
    ensures UsedBytes(Split(bl, i, n)) + Weight(bl[i]) == UsedBytes(bl) + (if bl[i].free then 0 else n + HDR)
  {
    hide UsedBytes;
    var b := bl[i];
    var x, y := Blk(b.at, n, b.free), Blk(b.at + HDR + n, b.size - n - HDR, true);
    assert bl == bl[..i] + [b] + bl[i + 1..];
    assert [x, y] == [x] + [y];
    Sum3(bl[..i], [b], bl[i + 1..]);
    Sum3(bl[..i], [x, y], bl[i + 1..]);
    UsedAppend([x], [y]);
    UsedOne(x);
    UsedOne(y);
    UsedOne(b);
  }

  lemma Sum3(a: seq<Blk>, b: seq<Blk>, c: seq<Blk>)
    ensures UsedBytes(a + b + c) == UsedBytes(a) + UsedBytes(b) + UsedBytes(c)
  {
    UsedAppend(a + b, c);
    UsedAppend(a, b);
  }

  lemma MergeUsed(bl: seq<Blk>, i: nat)
    requires i + 1 < |bl| && bl[i + 1].free
    ensures UsedBytes(Merge(bl, i)) + Weight(bl[i]) == UsedBytes(bl) + Weight(Merge(bl, i)[i])
  {
    hide UsedBytes;
    var b, c := bl[i], bl[i + 1];
    var x := Merge(bl, i)[i];
    assert bl == bl[..i] + [b, c] + bl[i + 2..];
    assert [b, c] == [b] + [c];
    Sum3(bl[..i], [b, c], bl[i + 2..]);
    Sum3(bl[..i], [x], bl[i + 2..]);
    UsedAppend([b], [c]);
    UsedOne(x);
    UsedOne(b);
    UsedOne(c);
  }

  lemma MarkUsed(bl: seq<Blk>, i: nat, free: bool)
    requires i < |bl|
    ensures UsedBytes(Mark(bl, i, free)) + Weight(bl[i]) == UsedBytes(bl) + Weight(Mark(bl, i, free)[i])
  {
    hide UsedBytes;
    var x := Mark(bl, i, free)[i];
    assert bl == bl[..i] + [bl[i]] + bl[i + 1..];
    assert Mark(bl, i, free) == bl[..i] + [x] + bl[i + 1..];
    Sum3(bl[..i], [bl[i]], bl[i + 1..]);
    Sum3(bl[..i], [x], bl[i + 1..]);
    UsedOne(x);
    UsedOne(bl[i]);
  }

  // ---------- the headers ----------

  function HeaderOf(bl: seq<Blk>, i: nat): Header
    requires i < |bl|
  {
    Header(bl[i].size, if i + 1 < |bl| then bl[i + 1].at else 0, if i > 0 then bl[i - 1].at else 0,
           bl[i].free, if bl[i].free then MG_FREE else MG_USED)
  }

  predicate TieAt(hdr: map<nat, Header>, bl: seq<Blk>, i: nat) {
    i < |bl| ==> bl[i].at in hdr && hdr[bl[i].at] == HeaderOf(bl, i)
  }

  /** Links, sizes, flags and magics in memory are those of the list. */
  ghost predicate Tied(hdr: map<nat, Header>, bl: seq<Blk>) {
    forall i: nat :: TieAt(hdr, bl, i)
  }

  lemma Distinct(bl: seq<Blk>, end: nat, i: nat, j: nat)
    requires Tiled(bl, end) && i < |bl| && j < |bl| && bl[i].at == bl[j].at
    ensures i == j
  {
    if i < j { InOrder(bl, end, i, j); }
    if j < i { InOrder(bl, end, j, i); }
  }

  function SetPrev(hdr: map<nat, Header>, at: nat, prev: nat): map<nat, Header> {
    if at != 0 && at in hdr then hdr[at := hdr[at].(prev := prev)] else hdr
  }

  function SplitMem(hdr: map<nat, Header>, at: nat, n: nat): map<nat, Header>
    requires at in hdr && hdr[at].size >= n + HDR
  {
    var b, sp := hdr[at], at + HDR + n;
    var h := SetPrev(hdr[sp := Header(b.size - n - HDR, b.next, at, true, MG_FREE)], b.next, sp);
    h[at := b.(size := n, next := sp)]
  }

  function MergeMem(hdr: map<nat, Header>, at: nat): map<nat, Header>
    requires at in hdr && hdr[at].next in hdr
  {
    var b, nx := hdr[at], hdr[hdr[at].next];
    SetPrev(hdr[at := b.(size := b.size + HDR + nx.size, next := nx.next)], nx.next, at)
  }

  lemma SplitTied(hdr: map<nat, Header>, bl: seq<Blk>, end: nat, i: nat, n: nat)
    requires Tied(hdr, bl) && Tiled(bl, end) && i < |bl| && bl[i].size >= n + HDR && bl[0].at > 0
    ensures TieAt(hdr, bl, i) && Tied(SplitMem(hdr, bl[i].at, n), Split(bl, i, n))
  {
    var bl' := Split(bl, i, n);
    assert TieAt(hdr, bl, i);
    var hdr' := SplitMem(hdr, bl[i].at, n);
    forall k: nat
      ensures TieAt(hdr', bl', k)
    {
      if k < |bl'| { SplitTie(hdr, bl, end, i, n, k); }
    }
  }

  lemma SplitTie(hdr: map<nat, Header>, bl: seq<Blk>, end: nat, i: nat, n: nat, k: nat)
    requires Tied(hdr, bl) && Tiled(bl, end) && i < |bl| && bl[i].size >= n + HDR && bl[0].at > 0 && k < |bl| + 1
    ensures TieAt(hdr, bl, i) && TieAt(SplitMem(hdr, bl[i].at, n), Split(bl, i, n), k)
  {
    hide Tiled;
    assert TieAt(hdr, bl, i) && TieAt(hdr, bl, k);
    if i + 1 < |bl| {
      assert TieAt(hdr, bl, i + 1);
      InOrder(bl, end, 0, i + 1);
      InOrder(bl, end, i, i + 1);
    }
    if k < i { InOrder(bl, end, k, i); }
    if k < i && i + 1 < |bl| { InOrder(bl, end, k, i + 1); }
    if k > i + 1 {
      assert TieAt(hdr, bl, k - 1);
      InOrder(bl, end, i, k - 1);
      if k > i + 2 { InOrder(bl, end, i + 1, k - 1); }
    }
  }

  lemma MergeTied(hdr: map<nat, Header>, bl: seq<Blk>, end: nat, i: nat)
    requires Tied(hdr, bl) && Tiled(bl, end) && i + 1 < |bl| && bl[0].at > 0
    ensures bl[i].at in hdr && hdr[bl[i].at].next in hdr && Tied(MergeMem(hdr, bl[i].at), Merge(bl, i))
  {
    assert TieAt(hdr, bl, i) && TieAt(hdr, bl, i + 1);
    var bl', hdr' := Merge(bl, i), MergeMem(hdr, bl[i].at);
    forall k: nat
      ensures TieAt(hdr', bl', k)
    {
      if k < |bl'| { MergeTie(hdr, bl, end, i, k); }
    }
  }

  lemma MergeTie(hdr: map<nat, Header>, bl: seq<Blk>, end: nat, i: nat, k: nat)
    requires Tied(hdr, bl) && Tiled(bl, end) && i + 1 < |bl| && bl[0].at > 0 && k < |bl| - 1
    ensures TieAt(hdr, bl, i) && TieAt(hdr, bl, i + 1) && TieAt(MergeMem(hdr, bl[i].at), Merge(bl, i), k)
  {
    assert TieAt(hdr, bl, i) && TieAt(hdr, bl, i + 1) && TieAt(hdr, bl, k) && TieAt(hdr, bl, k + 1);
    InOrder(bl, end, i, i + 1);
    if i + 2 < |bl| {
      assert TieAt(hdr, bl, i + 2);
      InOrder(bl, end, 0, i + 2);
      InOrder(bl, end, i, i + 2);
      if k < i { InOrder(bl, end, k, i + 2); }
      if k > i + 1 { InOrder(bl, end, i + 2, k + 1); }
    }
    if k < i { InOrder(bl, end, k, i); }
    if k > i { InOrder(bl, end, i, k + 1); }
  }

  lemma MarkTied(hdr: map<nat, Header>, bl: seq<Blk>, end: nat, i: nat, free: bool)
    requires Tied(hdr, bl) && Tiled(bl, end) && i < |bl|
    ensures TieAt(hdr, bl, i)
    ensures Tied(hdr[bl[i].at := hdr[bl[i].at].(free := free, mg := if free then MG_FREE else MG_USED)],
      Mark(bl, i, free))
  {
    assert TieAt(hdr, bl, i);
    var bl', hdr' := Mark(bl, i, free),
      hdr[bl[i].at := hdr[bl[i].at].(free := free, mg := if free then MG_FREE else MG_USED)];
    forall k: nat
      ensures TieAt(hdr', bl', k)
    {
      assert TieAt(hdr, bl, k);
      if k < |bl| && bl[k].at == bl[i].at { Distinct(bl, end, i, k); }
    }
  }

  // ---------- what the operations do to the list ----------

  function Fits(b: Blk, n: nat): bool { b.free && b.size >= n }

  /** Cut down to `n` when the rest is worth a block. */
  function Trim(bl: seq<Blk>, i: nat, n: nat): seq<Blk>
    requires i < |bl|
  {
    if bl[i].size >= n + HDR + 16 then Split(bl, i, n) else bl
  }

  function AllocList(bl: seq<Blk>, i: nat, n: nat): seq<Blk>
    requires i < |bl|
  {
    Mark(Trim(bl, i, n), i, false)
  }

  function MergeIf(bl: seq<Blk>, i: nat): seq<Blk>
    requires i + 1 < |bl|
  {
    if bl[i].free && bl[i + 1].free then Merge(bl, i) else bl
  }

  function FreeList(bl: seq<Blk>, i: nat): seq<Blk>
    requires i < |bl|
  {
    var b1 := Mark(bl, i, true);
    var b2 := if i + 1 < |b1| then MergeIf(b1, i) else b1;
    if i > 0 then MergeIf(b2, i - 1) else b2
  }

  /** A block can grow in place when it is long enough, alone or with a free block behind it. */
  predicate CanGrow(bl: seq<Blk>, i: nat, n: nat)
    requires i < |bl|
  {
    bl[i].size >= n || (i + 1 < |bl| && bl[i + 1].free && bl[i].size + HDR + bl[i + 1].size >= n)
  }

  function GrowList(bl: seq<Blk>, i: nat, n: nat): seq<Blk>
    requires i < |bl|
  {
    if bl[i].size >= n || !CanGrow(bl, i, n) then bl else Trim(Merge(bl, i), i, n)
  }

  /** The block handed out is new among the live ones, long enough, and the others are untouched. */
  lemma AllocLive(bl: seq<Blk>, end: nat, i: nat, n: nat, b: Blk)
    requires Tiled(bl, end) && i < |bl| && Fits(bl[i], n)
    ensures var got := AllocList(bl, i, n)[i];
            && n <= got.size < n + HDR + 16
            && got.at == bl[i].at && !got.free && !Live(bl, got)
            && (Live(AllocList(bl, i, n), b) <==> Live(bl, b) || b == got)
  {
    var bl' := AllocList(bl, i, n);
    var got := bl'[i];
    if Live(bl, got) {
      var k :| 0 <= k < |bl| && bl[k] == got;
      Distinct(bl, end, i, k);
    }
    TrimMember(bl, i, n, b);
    if b in bl' {
      var k :| 0 <= k < |bl'| && bl'[k] == b;
      assert k != i ==> b == Trim(bl, i, n)[k];
    }
    if b in bl && !b.free {
      var k :| 0 <= k < |bl| && bl[k] == b;
      assert k < i ==> bl'[k] == b;
      assert k > i ==> bl'[k + |bl'| - |bl|] == b;
    }
  }

  lemma TrimMember(bl: seq<Blk>, i: nat, n: nat, b: Blk)
    requires i < |bl|
    ensures b in Trim(bl, i, n) && !b.free && b != Trim(bl, i, n)[i] ==> b in bl
  {
    var t := Trim(bl, i, n);
    if b in t && !b.free && b != t[i] {
      var k :| 0 <= k < |t| && t[k] == b;
      assert k < i ==> bl[k] == b;
      assert k > i && |t| == |bl| ==> bl[k] == b;
      assert k > i + 1 && |t| > |bl| ==> bl[k - 1] == b;
    }
  }

  lemma AllocPairs(bl: seq<Blk>, i: nat, n: nat)
    requires NoFreePair(bl) && i < |bl| && Fits(bl[i], n)
    ensures NoFreePair(AllocList(bl, i, n))
  {
    var bl' := AllocList(bl, i, n);
    forall k: nat
      ensures PairOk(bl', k)
    {
      assert PairOk(bl, i) && PairOk(bl, k);
      if k > 0 { assert PairOk(bl, k - 1); }
    }
  }

  lemma FreePairs(bl: seq<Blk>, i: nat)
    requires NoFreePair(bl) && i < |bl| && !bl[i].free
    ensures NoFreePair(FreeList(bl, i))
  {
    var b1 := Mark(bl, i, true);
    var b2 := if i + 1 < |b1| then MergeIf(b1, i) else b1;
    forall k: nat
      ensures k + 1 != i ==> PairOk(b2, k)
    {
      assert PairOk(bl, k) && PairOk(bl, k + 1) && PairOk(bl, i + 1);
    }
    assert i >= 2 ==> PairOk(bl, i - 2);
    if i > 0 { PairBefore(b2, i - 1); }
  }

  /** The pair before the freed block is the last one that can be wrong. */
  lemma PairBefore(bl: seq<Blk>, i: nat)
    requires i + 1 < |bl| && forall k: nat :: k != i ==> PairOk(bl, k)
    ensures NoFreePair(MergeIf(bl, i))
  {
    var m := MergeIf(bl, i);
    forall k: nat
      ensures PairOk(m, k)
    {
      assert k != i ==> PairOk(bl, k);
      assert k + 1 != i ==> PairOk(bl, k + 1);
    }
  }

  lemma GrowPairs(bl: seq<Blk>, i: nat, n: nat)
    requires NoFreePair(bl) && i < |bl| && !bl[i].free
    ensures NoFreePair(GrowList(bl, i, n))
  {
    var bl' := GrowList(bl, i, n);
    forall k: nat
      ensures PairOk(bl', k)
    {
      assert PairOk(bl, k) && PairOk(bl, k + 1) && PairOk(bl, i + 1);
      if k > 0 { assert PairOk(bl, k - 1); }
    }
  }

  /** The freed block is gone from the live ones, all others are untouched. */
  lemma FreeLive(bl: seq<Blk>, end: nat, i: nat, b: Blk)
    requires Tiled(bl, end) && i < |bl| && !bl[i].free
    ensures Live(FreeList(bl, i), b) <==> Live(bl, b) && b != bl[i]
  {
    var b1 := Mark(bl, i, true);
    var b2 := if i + 1 < |b1| then MergeIf(b1, i) else b1;
    if Live(b1, b) {
      var k :| 0 <= k < |b1| && b1[k] == b;
      assert bl[k] == b;
      if b == bl[i] { Distinct(bl, end, i, k); }
    }
    if Live(bl, b) && b != bl[i] {
      var k :| 0 <= k < |bl| && bl[k] == b;
      assert b1[k] == b;
    }
    if i + 1 < |b1| && b1[i + 1].free { MergeLive(b1, i, b); }
    if i > 0 && b2[i - 1].free { MergeLive(b2, i - 1, b); }
  }

  lemma MergeLive(bl: seq<Blk>, i: nat, b: Blk)
    requires i + 1 < |bl| && bl[i].free && bl[i + 1].free
    ensures Live(Merge(bl, i), b) <==> Live(bl, b)
  {
    var m := Merge(bl, i);
    if Live(m, b) {
      var k :| 0 <= k < |m| && m[k] == b;
      assert k < i ==> bl[k] == b;
      assert k > i ==> bl[k + 1] == b;
    }
    if Live(bl, b) {
      var k :| 0 <= k < |bl| && bl[k] == b;
      assert k < i ==> m[k] == b;
      assert k > i + 1 ==> m[k - 1] == b;
    }
  }

  /** The block that grows keeps its address and is long enough; the others are untouched. */
  lemma GrowLive(bl: seq<Blk>, end: nat, i: nat, n: nat, b: Blk)
    requires Tiled(bl, end) && i < |bl| && !bl[i].free
    ensures var bl' := GrowList(bl, i, n);
            && i < |bl'| && bl'[i].at == bl[i].at && !bl'[i].free && bl[i].size <= bl'[i].size
            && (CanGrow(bl, i, n) ==> n <= bl'[i].size)
            && (b != bl[i] && b != bl'[i] ==> (Live(bl', b) <==> Live(bl, b)))
  {
    if bl[i].size < n && CanGrow(bl, i, n) && !b.free && b != bl[i] && b != GrowList(bl, i, n)[i] {
      GrowMembers(bl, i, n, b);
    }
  }

  lemma GrowMembers(bl: seq<Blk>, i: nat, n: nat, b: Blk)
    requires i + 1 < |bl| && bl[i + 1].free && !b.free && b != bl[i] && b != Trim(Merge(bl, i), i, n)[i]
    ensures b in Trim(Merge(bl, i), i, n) <==> b in bl
  {
    var m := Merge(bl, i);
    var t := Trim(m, i, n);
    assert t[..i] == bl[..i];
    assert if |t| == |m| then t[i + 1..] == bl[i + 2..] else t[i + 2..] == bl[i + 2..] && t[i + 1].free;
    Pieces(bl, i, 2, b);
    if |t| == |m| { Pieces(t, i, 1, b); } else { Pieces(t, i, 2, b); }
  }

  lemma Pieces(bl: seq<Blk>, i: nat, k: nat, b: Blk)
    requires i + k <= |bl|
    ensures b in bl <==> b in bl[..i] || b in bl[i..i + k] || b in bl[i + k..]
  {
    assert bl == bl[..i] + bl[i..i + k] + bl[i + k..];
  }

  /** Next fit: no block from the rover up to `i`, around the end, is free and long enough. */
  ghost predicate FirstFit(bl: seq<Blk>, from: nat, i: nat, n: nat) {
    && (forall k | from <= k < |bl| && (i < from || k < i) :: !Fits(bl[k], n))
    && (i < from ==> forall k | 0 <= k < i && k < |bl| :: !Fits(bl[k], n))
  }

  class Arena {
    const base: nat
    const size: nat
    var hdr: map<nat, Header>
    var head: nat
    var rover: nat
    var used: nat
    ghost var bl: seq<Blk>    // the list
    ghost var ri: nat         // where the rover stands in it

    /** All that the heap checker looks at, and that the blocks fill the arena to its end. */
    ghost predicate Shape()
      reads this
    {
      && 0 < base && base + size < WORD && head == base
      && |bl| > 0 && bl[0].at == base && Tiled(bl, base + size) && Tied(hdr, bl)
      && ri < |bl| && rover == bl[ri].at
    }

    ghost predicate Valid()
      reads this
    {
      Shape() && NoFreePair(bl) && used == UsedBytes(bl)
    }

    /** arena_init. */
    constructor (at: nat, len: nat)
      requires 0 < at && at + len < WORD && HDR <= len
      ensures Valid() && base == at && size == len && bl == [Blk(at, len - HDR, true)]
    {
      base, size := at, len;
      hdr := map[at := Header(len - HDR, 0, 0, true, MG_FREE)];
      head, rover, used := at, at, 0;
      bl, ri := [Blk(at, len - HDR, true)], 0;
      new;
      UsedOne(bl[0]);
    }

    /** split_at. */
    method SplitAt(at: nat, n: nat, ghost i: nat)
      requires Shape() && i < |bl| && bl[i].at == at && bl[i].size >= n + HDR
      modifies this`hdr, this`bl, this`ri
      ensures Shape() && bl == Split(old(bl), i, n)
    {
      SplitTied(hdr, bl, base + size, i, n);
      SplitTiled(bl, base + size, i, n);
      hdr := SplitMem(hdr, at, n);
      ri := if ri <= i then ri else ri + 1;
      bl := Split(bl, i, n);
    }

    /** merge_next; the rover does not stay on a block that is gone. */
    method MergeNext(at: nat, ghost i: nat)
      requires Shape() && i + 1 < |bl| && bl[i].at == at
      modifies this`hdr, this`bl, this`rover, this`ri
      ensures Shape() && bl == Merge(old(bl), i)
    {
      MergeTied(hdr, bl, base + size, i);
      MergeTiled(bl, base + size, i);
      assert TieAt(hdr, bl, i);
      var nx := hdr[at].next;
      if ri < |bl| && bl[ri].at == nx { Distinct(bl, base + size, ri, i + 1); }
      hdr := MergeMem(hdr, at);
      if rover == nx { rover := at; }
      ri := if ri <= i then ri else ri - 1;
      bl := Merge(bl, i);
    }

    method SetFree(at: nat, free: bool, ghost i: nat)
      requires Shape() && i < |bl| && bl[i].at == at
      modifies this`hdr, this`bl
      ensures Shape() && bl == Mark(old(bl), i, free)
    {
      MarkTied(hdr, bl, base + size, i, free);
      MarkTiled(bl, base + size, i, free);
      hdr := hdr[at := hdr[at].(free := free, mg := if free then MG_FREE else MG_USED)];
      bl := Mark(bl, i, free);
    }

    /** Block `i` is given out. */
    method TakeBlock(at: nat, n: nat, ghost i: nat)
      requires Valid() && i < |bl| && bl[i].at == at && Fits(bl[i], n)
      modifies this
      ensures Valid() && bl == AllocList(old(bl), i, n) && ri == (if i + 1 < |bl| then i + 1 else 0)
    {
      hide Tiled, Tied, UsedBytes, NoFreePair;
      AllocPairs(bl, i, n);
      ghost var bl0 := bl;
      HeaderAt(hdr, bl, i);
      if hdr[at].size >= n + HDR + 16 {
        SplitUsed(bl, i, n);
        SplitAt(at, n, i);
      }
      ghost var bl1 := bl;
      MarkUsed(bl, i, false);
      SetFree(at, false, i);
      HeaderAt(hdr, bl, i);
      used := used + hdr[at].size + HDR;
      rover := if hdr[at].next != 0 then hdr[at].next else head;
      ri := if i + 1 < |bl| then i + 1 else 0;
      AddressPositive(bl, base + size, ri);
    }

    /** arena_alloc: 0 exactly when nothing was asked for or no free block is long enough. */
    method Alloc(want: nat) returns (r: nat, ghost i: nat)
      requires Valid() && want < WORD
      modifies this
      ensures Valid()
      ensures r == 0 <==> want == 0 || forall k | 0 <= k < |old(bl)| :: !Fits(old(bl)[k], Align(want))
      ensures r == 0 ==> bl == old(bl) && hdr == old(hdr)
      ensures r != 0 ==>
                && i < |old(bl)| && Fits(old(bl)[i], Align(want))
                && bl == AllocList(old(bl), i, Align(want)) && r == bl[i].at + HDR
                && FirstFit(old(bl), old(ri), i, Align(want)) && ri == (if i + 1 < |bl| then i + 1 else 0)
    {
      hide Tiled, Tied, UsedBytes, NoFreePair, Align;
      if want == 0 { return 0, 0; }
      var n := Align(want);
      var start := rover;
      var b := start;
      i := ri;
      ghost var wrapped := false;
      while true
        invariant Valid() && bl == old(bl) && hdr == old(hdr) && ri == old(ri) && rover == start
        invariant i < |bl| && b == bl[i].at && (wrapped ==> i < ri) && (!wrapped ==> ri <= i)
        invariant forall k | ri <= k < (if wrapped then |bl| else i) :: !Fits(bl[k], n)
        invariant wrapped ==> forall k | 0 <= k < i :: !Fits(bl[k], n)
        decreases if wrapped then ri - i else ri + |bl| - i
      {
        HeaderAt(hdr, bl, i);
        if hdr[b].free && hdr[b].size >= n {
          TakeBlock(b, n, i);
          return b + HDR, i;
        }
        if i + 1 < |bl| { AddressPositive(bl, base + size, i + 1); }
        b := if hdr[b].next != 0 then hdr[b].next else head;
        if i + 1 == |bl| { wrapped := true; }
        i := if i + 1 < |bl| then i + 1 else 0;
        if b == start {
          Distinct(bl, base + size, i, ri);
          break;
        }
      }
      return 0, 0;
    }

    /** The block handed out is as long as asked for if and only if the rounded size did not wrap around. */
    method AllocAtLeast(want: nat) returns (r: nat, ghost got: Blk)
      requires Valid() && want < WORD
      modifies this
      ensures Valid() && Handed(old(bl), bl, want, r)
      ensures r != 0 ==> got.at + HDR == r && Live(bl, got) && !Live(old(bl), got)
      ensures r != 0 ==> forall b :: Live(bl, b) <==> Live(old(bl), b) || b == got
      ensures r != 0 ==> (got.size >= want <==> want <= WORD - 16)
    {
      hide Tiled, Tied, UsedBytes, NoFreePair, Fits;
      ghost var i;
      ghost var bl0 := bl;
      r, i := Alloc(want);
      got := Blk(0, 0, true);
      if r != 0 {
        assert HandedAt(bl0, bl, Align(want), r, i);
        AlignUp(want);
        got := bl[i];
        forall b ensures Live(bl, b) <==> Live(bl0, b) || b == got { AllocLive(bl0, base + size, i, Align(want), b); }
        AllocLive(bl0, base + size, i, Align(want), got);
      }
    }

    /** The freed block and its free neighbours become one. */
    method MergeAround(at: nat, ghost i: nat)
      requires Shape() && used == UsedBytes(bl) && i < |bl| && at == bl[i].at && bl[i].free
      requires NoFreePair(FreeList(bl, i))
      modifies this
      ensures Valid() && bl == FreeList(old(bl), i)
    {
      hide Tiled, Tied, UsedBytes, NoFreePair;
      ghost var b1 := bl;
      assert Mark(b1, i, true) == b1;
      HeaderAt(hdr, bl, i);
      if i + 1 < |bl| { AddressPositive(bl, base + size, i + 1); HeaderAt(hdr, bl, i + 1); }
      if hdr[at].next != 0 && hdr[hdr[at].next].free {
        MergeUsed(bl, i);
        MergeNext(at, i);
      }
      HeaderAt(hdr, bl, i);
      if i > 0 { AddressPositive(bl, base + size, i - 1); HeaderAt(hdr, bl, i - 1); }
      if hdr[at].prev != 0 && hdr[hdr[at].prev].free {
        MergeUsed(bl, i - 1);
        MergeNext(hdr[at].prev, i - 1);
      }
    }

    /** free_locked on a block of the list; a block that is free already is reported and left alone. */
    method Free(p: nat, ghost i: nat) returns (bad: bool)
      requires Valid() && i < |bl| && p == bl[i].at + HDR
      modifies this
      ensures Valid() && bad == old(bl)[i].free
      ensures bl == if bad then old(bl) else FreeList(old(bl), i)
    {
      hide Tiled, Tied, UsedBytes, NoFreePair;
      var at := p - HDR;
      HeaderAt(hdr, bl, i);
      if hdr[at].mg != MG_USED { return true; }
      FreePairs(bl, i);
      MarkUsed(bl, i, true);
      used := used - (hdr[at].size + HDR);
      ghost var bl0 := bl;
      SetFree(at, true, i);
      assert Mark(bl, i, true) == bl == Mark(bl0, i, true);
      MergeAround(at, i);
      bad := false;
    }

    /** kgrow on a block somebody has. */
    method Grow(p: nat, want: nat, ghost i: nat) returns (ok: bool)
      requires Valid() && want < WORD && i < |bl| && p == bl[i].at + HDR && !bl[i].free
      modifies this
      ensures Valid() && bl == GrowList(old(bl), i, Align(want))
      ensures ok <==> CanGrow(old(bl), i, Align(want))
    {
      hide Tiled, Tied, UsedBytes, NoFreePair, Align;
      var at := p - HDR;
      var n := Align(want);
      HeaderAt(hdr, bl, i);
      ok := hdr[at].size >= n;
      var nx := hdr[at].next;
      if i + 1 < |bl| { AddressPositive(bl, base + size, i + 1); HeaderAt(hdr, bl, i + 1); }
      if !ok && nx != 0 && hdr[nx].free && hdr[at].size + HDR + hdr[nx].size >= n {
        GrowPairs(bl, i, n);
        Widen(at, n, i);
        ok := true;
      }
    }

    method Widen(at: nat, n: nat, ghost i: nat)
      requires Shape() && used == UsedBytes(bl) && i + 1 < |bl| && at == bl[i].at && !bl[i].free && bl[i + 1].free
      requires bl[i].size < n <= bl[i].size + HDR + bl[i + 1].size && NoFreePair(Trim(Merge(bl, i), i, n))
      modifies this
      ensures Valid() && bl == Trim(Merge(old(bl), i), i, n)
    {
      hide Tiled, Tied, UsedBytes, NoFreePair;
      HeaderAt(hdr, bl, i);
      MergeUsed(bl, i);
      MarkUsed(bl, i, true);
      used := used - (hdr[at].size + HDR);
      MergeNext(at, i);
      HeaderAt(hdr, bl, i);
      if hdr[at].size >= n + HDR + 16 {
        SplitUsed(bl, i, n);
        SplitAt(at, n, i);
        HeaderAt(hdr, bl, i);
      }
      used := used + (hdr[at].size + HDR);
    }

    /** heap_check_locked: how many faults the walk over the list finds. */
    method Check() returns (faults: int)
      requires Valid()
      ensures faults == 0
    {
      hide Tiled, Tied, UsedBytes, NoFreePair;
      faults := 0;
      var total, pv, b := 0, 0, head;
      ghost var i := 0;
      UsedNone(bl);
      while b != 0
        invariant i <= |bl| && b == (if i < |bl| then bl[i].at else 0) && pv == (if i > 0 then bl[i - 1].at else 0)
        invariant total == UsedBytes(bl[..i]) && faults == 0 && (i < |bl| ==> b > 0)
        decreases |bl| - i
      {
        HeaderAt(hdr, bl, i);
        BlockInside(bl, base + size, i);
        if i > 0 { HeaderAt(hdr, bl, i - 1); }
        var h := hdr[b];
        if b < base || b >= base + size || h.prev != pv { faults := faults + 1; break; }
        if h.mg != (if h.free then MG_FREE else MG_USED) { faults := faults + 1; break; }
        if h.next != 0 && b + HDR + h.size != h.next { faults := faults + 1; break; }
        if pv != 0 && hdr[pv].free && h.free { faults := faults + 1; }
        UsedNext(bl, i);
        if !h.free { total := total + h.size + HDR; }
        pv, b := b, h.next;
        i := i + 1;
        if i < |bl| { AddressPositive(bl, base + size, i); }
      }
      assert bl[..|bl|] == bl;
      if total != used { faults := faults + 1; }
    }

    /** What callers have: a live block for every pointer, no block twice, each as long as was asked for. */
    ghost predicate Holds(live: seq<nat>, who: seq<Blk>, asked: seq<nat>)
      reads this
    {
      && |live| == |who| == |asked|
      && (forall k | 0 <= k < |who| :: Live(bl, who[k]) && who[k].at + HDR == live[k])
      && (forall k | 0 <= k < |who| :: asked[k] <= WORD - 16 ==> who[k].size >= asked[k])
      && (forall j, k | 0 <= j < k < |who| :: who[j] != who[k])
    }

    method Serve(op: Request, live: seq<nat>, ghost who: seq<Blk>, ghost asked: seq<nat>)
      returns (live': seq<nat>, ghost who': seq<Blk>, ghost asked': seq<nat>)
      requires Valid() && Holds(live, who, asked) && (op.Get? || op.Extend? ==> op.n < WORD)
      modifies this
      ensures Valid() && Holds(live', who', asked')
      ensures Served(op, Moment(old(bl), live, asked), Moment(bl, live', asked'))
    {
      hide Tiled, Tied, UsedBytes, NoFreePair, FreeList, GrowList, Align, Handed, CanGrow;
      live', who', asked' := live, who, asked;
      ghost var bl0 := bl;
      match op
      case Get(n) =>
        ghost var got;
        var p;
        p, got := AllocAtLeast(n);
        if p == 0 { HandedNone(bl0, bl, n); return; }
        live', who', asked' := live + [p], who + [got], asked + [n];
      case Drop(k) =>
        if k >= |live| { return; }
        ghost var i := IndexOf(bl, who[k]);
        var bad := Free(live[k], i);
        assert GivesBack(Moment(bl0, live, asked), Moment(bl, Cut(live, k), Cut(asked, k)), k, i);
        forall b ensures Live(bl, b) <==> Live(bl0, b) && b != who[k] { FreeLive(bl0, base + size, i, b); }
        live', who', asked' := Cut(live, k), Cut(who, k), Cut(asked, k);
      case Extend(k, n) =>
        if k >= |live| { return; }
        ghost var i := IndexOf(bl, who[k]);
        var ok := Grow(live[k], n, i);
        GrowLive(bl0, base + size, i, Align(n), bl0[i]);
        forall j | 0 <= j < |who| && j != k ensures Live(bl, who[j]) && who[j] != bl[i] {
          GrowOthers(bl0, base + size, i, Align(n), who[j]);
        }
        IndexIn(bl, i);
        who' := who[k := bl[i]];
        if ok {
          AlignUp(n);
          asked' := asked[k := n];
        }
        assert Widens(Moment(bl0, live, asked), Moment(bl, live', asked'), k, n, i);
    }

    /** Any sequence of requests: the heap stays sound, and what callers have does not overlap. */
    method Drive(ops: seq<Request>)
      returns (live: seq<nat>, ghost who: seq<Blk>, ghost asked: seq<nat>, ghost past: seq<Moment>)
      requires Valid() && forall i | 0 <= i < |ops| :: (ops[i].Get? || ops[i].Extend? ==> ops[i].n < WORD)
      modifies this
      ensures Valid() && Holds(live, who, asked)
      ensures |past| == |ops| + 1 && past[0] == Moment(old(bl), [], []) && past[|ops|] == Moment(bl, live, asked)
      ensures forall i | 0 <= i < |ops| :: Served(ops[i], past[i], past[i + 1])
      ensures forall j, k | 0 <= j < |who| && 0 <= k < |who| && j != k :: Disjoint(who[j], who[k])
    {
      hide Served, Holds;
      live, who, asked, past := [], [], [], [Moment(bl, [], [])];
      assert Holds([], [], []) by { HoldsNothing(); }
      var i := 0;
      while i < |ops|
        invariant 0 <= i <= |ops| && Valid() && Holds(live, who, asked)
        invariant |past| == i + 1 && past[0] == Moment(old(bl), [], []) && past[i] == Moment(bl, live, asked)
        invariant forall k | 0 <= k < i :: Served(ops[k], past[k], past[k + 1])
      {
        live, who, asked := Serve(ops[i], live, who, asked);
        past := past + [Moment(bl, live, asked)];
        i := i + 1;
      }
      HeldApart(live, who, asked);
    }

    lemma HoldsNothing()
      ensures Holds([], [], [])
    {
    }

    lemma HeldApart(live: seq<nat>, who: seq<Blk>, asked: seq<nat>)
      requires Valid() && Holds(live, who, asked)
      ensures forall j, k | 0 <= j < |who| && 0 <= k < |who| && j != k :: Disjoint(who[j], who[k])
    {
      hide Tiled;
      forall j, k | 0 <= j < |who| && 0 <= k < |who| && j != k ensures Disjoint(who[j], who[k]) {
        LiveApart(bl, base + size, who[j], who[k]);
      }
    }
  }

  /** A caller asks for memory, gives back what it has, or wants more in place. */
  datatype Request = Get(n: nat) | Drop(k: nat) | Extend(k: nat, n: nat)

  /** The heap and what callers have at one time: their pointers, and the sizes they asked for. */
  datatype Moment = Moment(bl: seq<Blk>, live: seq<nat>, asked: seq<nat>)

  function Cut<T>(s: seq<T>, k: nat): seq<T>
    requires k < |s|
  {
    s[..k] + s[k + 1..]
  }

  predicate HandedAt(bl: seq<Blk>, bl': seq<Blk>, n: nat, r: nat, i: nat) {
    i < |bl| && i < |bl'| && Fits(bl[i], n) && bl' == AllocList(bl, i, n) && r == bl'[i].at + HDR
  }

  /** A free block that is long enough was cut to size and handed out; 0 when there was none. */
  ghost predicate Handed(bl: seq<Blk>, bl': seq<Blk>, want: nat, r: nat)
    requires want < WORD
  {
    if want == 0 || (forall k | 0 <= k < |bl| :: !Fits(bl[k], Align(want))) then r == 0 && bl' == bl
    else r != 0 && exists i: nat :: HandedAt(bl, bl', Align(want), r, i)
  }

  predicate Received(a: Moment, b: Moment, n: nat, r: nat) {
    if r == 0 then b == a else b.live == a.live + [r] && b.asked == a.asked + [n]
  }

  lemma HandedNone(bl: seq<Blk>, bl': seq<Blk>, want: nat)
    requires want < WORD && Handed(bl, bl', want, 0)
    ensures bl' == bl
  {
  }

  predicate GivesBack(a: Moment, b: Moment, k: nat, i: nat) {
    && k < |a.live| == |a.asked| && i < |a.bl| && a.bl[i].at + HDR == a.live[k] && !a.bl[i].free
    && b == Moment(FreeList(a.bl, i), Cut(a.live, k), Cut(a.asked, k))
  }

  predicate Widens(a: Moment, b: Moment, k: nat, n: nat, i: nat)
    requires n < WORD
  {
    && k < |a.live| == |a.asked| && i < |a.bl| && a.bl[i].at + HDR == a.live[k] && !a.bl[i].free
    && b == Moment(GrowList(a.bl, i, Align(n)), a.live, if CanGrow(a.bl, i, Align(n)) then a.asked[k := n] else a.asked)
  }

  /** One request and all it changes. */
  ghost predicate Served(op: Request, a: Moment, b: Moment) {
    match op
    case Get(n) => n < WORD && exists r: nat :: Handed(a.bl, b.bl, n, r) && Received(a, b, n, r)
    case Drop(k) => if k >= |a.live| then b == a else exists i: nat :: GivesBack(a, b, k, i)
    case Extend(k, n) => n < WORD && if k >= |a.live| then b == a else exists i: nat :: Widens(a, b, k, n, i)
  }

  predicate Disjoint(a: Blk, b: Blk) { EndOf(a) <= b.at || EndOf(b) <= a.at }

  lemma GrowOthers(bl: seq<Blk>, end: nat, i: nat, n: nat, b: Blk)
    requires Tiled(bl, end) && i < |bl| && !bl[i].free && Live(bl, b) && b != bl[i]
    ensures Live(GrowList(bl, i, n), b) && b != GrowList(bl, i, n)[i]
  {
    var j := IndexOf(bl, b);
    GrowLive(bl, end, i, n, b);
    if b.at == bl[i].at { Distinct(bl, end, i, j); }
  }

  lemma IndexIn(bl: seq<Blk>, i: nat)
    requires i < |bl|
    ensures bl[i] in bl
  {
  }

  lemma LiveApart(bl: seq<Blk>, end: nat, a: Blk, b: Blk)
    requires Tiled(bl, end) && a in bl && b in bl && a != b
    ensures Disjoint(a, b)
  {
    var i :| 0 <= i < |bl| && bl[i] == a;
    var j :| 0 <= j < |bl| && bl[j] == b;
    if i < j { InOrder(bl, end, i, j); } else { InOrder(bl, end, j, i); }
  }

  ghost function IndexOf(bl: seq<Blk>, b: Blk): (i: nat)
    requires b in bl
    ensures i < |bl| && bl[i] == b
  {
    if bl[0] == b then 0 else 1 + IndexOf(bl[1..], b)
  }

  lemma UsedNone(bl: seq<Blk>)
    ensures UsedBytes(bl[..0]) == 0
  {
  }

  lemma UsedNext(bl: seq<Blk>, i: nat)
    requires i < |bl|
    ensures UsedBytes(bl[..i + 1]) == UsedBytes(bl[..i]) + Weight(bl[i])
  {
    assert bl[..i + 1][..i] == bl[..i];
  }

  lemma BlockInside(bl: seq<Blk>, end: nat, i: nat)
    requires Tiled(bl, end) && NoFreePair(bl) && i < |bl|
    ensures bl[0].at <= bl[i].at && EndOf(bl[i]) <= end && EndOf(bl[i]) == Start(bl, i + 1, end)
    ensures i > 0 ==> !(bl[i - 1].free && bl[i].free)
  {
    InOrder(bl, end, i, |bl|);
    if i > 0 { InOrder(bl, end, 0, i); assert PairOk(bl, i - 1); }
    assert TileAt(bl, end, i);
  }

  lemma HeaderAt(hdr: map<nat, Header>, bl: seq<Blk>, i: nat)
    requires Tied(hdr, bl) && i < |bl|
    ensures bl[i].at in hdr && hdr[bl[i].at] == HeaderOf(bl, i)
  {
    assert TieAt(hdr, bl, i);
  }

  lemma AddressPositive(bl: seq<Blk>, end: nat, i: nat)
    requires Tiled(bl, end) && i < |bl| && bl[0].at > 0
    ensures bl[i].at > 0
  {
    if i > 0 { InOrder(bl, end, 0, i); }
  }

  /** A request that wraps around is met on every fresh arena, by a block of at most a few bytes. */
  method WrappedRequest(at: nat, len: nat, want: nat) returns (r: nat, ghost got: Blk)
    requires 0 < at && at + len < WORD && HDR <= len && WORD - 16 < want < WORD
    ensures r == at + HDR && got.at == at && got.size < HDR + 16 < want
  {
    var a := new Arena(at, len);
    ghost var bl0 := a.bl;
    AlignUp(want);
    assert Fits(bl0[0], Align(want));
    ghost var i;
    r, i := a.Alloc(want);
    AllocLive(bl0, at + len, i, Align(want), bl0[i]);
    got := a.bl[i];
  }
}

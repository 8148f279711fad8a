/** The swap areas: a byte of references for every slot, areas asked in order of priority. */
module SwapArea {
  import opened FramePool

  const AREAS: nat := 4
  const BAD: nat := 255
  const SHIFT: nat := 0x1000_0000
  const MIN_PAGES: nat := 11

  /** Byte 0 of the map is the header of the area; bad pages have the same mark. */
  datatype Area = Area(on: bool, prio: int, pages: nat, used: nat, next: nat, map_: seq<nat>)

  /** Slots with references. */
  function Busy(m: seq<nat>): nat {
    if m == [] then 0 else Busy(m[..|m| - 1]) + (if m[|m| - 1] != 0 && m[|m| - 1] != BAD then 1 else 0)
  }

  function Bads(m: seq<nat>): nat {
    if m == [] then 0 else Bads(m[..|m| - 1]) + (if m[|m| - 1] == BAD then 1 else 0)
  }

  lemma {:induction false} AllCounted(m: seq<nat>)
    ensures Zeros(m) + Busy(m) + Bads(m) == |m|
  {
    if m != [] { AllCounted(m[..|m| - 1]); }
  }

  lemma {:induction false} BusyUpdate(m: seq<nat>, i: nat, v: nat)
    requires i < |m|
    ensures Busy(m[i := v]) + (if m[i] != 0 && m[i] != BAD then 1 else 0) ==
      Busy(m) + (if v != 0 && v != BAD then 1 else 0)
    decreases |m|
  {
    var n := |m| - 1;
    if i < n {
      BusyUpdate(m[..n], i, v);
      assert m[i := v][..n] == m[..n][i := v];
    } else {
      assert m[i := v][..n] == m[..n];
    }
  }

  lemma {:induction false} BadsPositive(m: seq<nat>, i: nat)
    requires i < |m| && m[i] == BAD
    ensures Bads(m) > 0
  {
    var n := |m| - 1;
    if i < n { BadsPositive(m[..n], i); }
  }

  /** An area without a map is switched off. */
  ghost predicate AreaOk(a: Area) {
    if a.map_ == [] then !a.on else
    && MIN_PAGES <= a.pages == |a.map_| <= SHIFT && Bytes(a.map_) && a.map_[0] == BAD
    && a.used == Busy(a.map_) && a.next <= a.pages
  }

  predicate Open(a: Area) { a.on && a.used < a.pages - 1 }

  ghost predicate HasRoom(a: Area) { a.on && exists i | 0 <= i < |a.map_| :: a.map_[i] == 0 }

  /** Only the header is marked. */
  predicate NoBadPages(a: Area) { Bads(a.map_) == 1 }

  /** Without bad pages the count of used slots tells whether there is room; with bad pages it is short of them. */
  lemma OpenMeansRoom(a: Area)
    requires AreaOk(a) && (a.on ==> NoBadPages(a))
    ensures Open(a) <==> HasRoom(a)
  {
    if !a.on { return; }
    AllCounted(a.map_);
    if i :| 0 <= i < |a.map_| && a.map_[i] == 0 { ZerosPositive(a.map_, i); } else { ZerosNone(a.map_); }
  }

  lemma RoomMeansOpen(a: Area)
    requires AreaOk(a) && HasRoom(a)
    ensures Open(a)
  {
    AllCounted(a.map_);
    BadsPositive(a.map_, 0);
    var i :| 0 <= i < |a.map_| && a.map_[i] == 0;
    ZerosPositive(a.map_, i);
  }

  /** The area that swap_alloc looks at: the first one of the highest priority among the open ones. */
  ghost predicate Chosen(ar: seq<Area>, b: nat) {
    && b < |ar| && Open(ar[b])
    && (forall i | 0 <= i < |ar| && Open(ar[i]) :: ar[i].prio <= ar[b].prio)
    && (forall i | 0 <= i < b && Open(ar[i]) :: ar[i].prio < ar[b].prio)
  }

  function Taken(a: Area, i: nat): Area
    requires i < |a.map_|
  {
    a.(map_ := a.map_[i := 1], used := a.used + 1, next := i + 1)
  }

  lemma TakenOk(a: Area, i: nat)
    requires AreaOk(a) && i < |a.map_| && a.map_[i] == 0
    ensures AreaOk(Taken(a, i))
  {
    BusyUpdate(a.map_, i, 1);
  }

  class Areas {
    const ar: array<Area>

    ghost predicate Valid()
      reads ar
    {
      ar.Length == AREAS && forall i | 0 <= i < ar.Length :: AreaOk(ar[i])
    }

    constructor (a: array<Area>)
      requires a.Length == AREAS && forall i | 0 <= i < AREAS :: AreaOk(a[i])
      ensures Valid() && ar == a
    {
      ar := a;
    }

    method Best() returns (best: int)
      requires Valid()
      ensures best < 0 ==> best == -1 && forall i | 0 <= i < ar.Length :: !Open(ar[i])
      ensures best >= 0 ==> Chosen(ar[..], best)
    {
      best := -1;
      var i := 0;
      while i < AREAS
        invariant 0 <= i <= AREAS && -1 <= best < i
        invariant best < 0 ==> forall j | 0 <= j < i :: !Open(ar[j])
        invariant best >= 0 ==> Open(ar[best])
        invariant best >= 0 ==> forall j | 0 <= j < i && Open(ar[j]) :: ar[j].prio <= ar[best].prio
        invariant best >= 0 ==> forall j | 0 <= j < best && Open(ar[j]) :: ar[j].prio < ar[best].prio
      {
        if ar[i].on && ar[i].used < ar[i].pages - 1 && (best < 0 || ar[i].prio > ar[best].prio) { best := i; }
        i := i + 1;
      }
    }

    /** Next fit; the result is the page count when every slot is taken. */
    method NextFit(m: seq<nat>, next: nat) returns (i: nat)
      requires 0 < |m| && next <= |m|
      ensures i < |m| ==> m[i] == 0 && FirstZero(m, next, i)
      ensures i >= |m| ==> forall k | 0 <= k < |m| :: m[k] != 0
    {
      var n := 0;
      while n < |m|
        invariant 0 <= n <= |m|
        invariant forall k | 0 <= k < n :: m[Ring(next, k, |m|)] != 0
      {
        i := (next + n) % |m|;
        assert i == Ring(next, n, |m|);
        if m[i] == 0 { return; }
        n := n + 1;
      }
      forall k | 0 <= k < |m| ensures m[k] != 0 {
        var d := if next <= k then k - next else k + |m| - next;
        assert Ring(next, d, |m|) == k;
      }
      i := |m|;
    }

    /** swap_alloc. It fails exactly when no area is open or the one it looks at has no free slot. */
    method Alloc() returns (slot: int)
      requires Valid()
      modifies ar
      ensures Valid()
      ensures slot < 0 ==> slot == -1 && ar[..] == old(ar[..])
      ensures slot < 0 <==> (forall b: nat :: Chosen(old(ar[..]), b) ==> !HasRoom(old(ar[..])[b]))
      ensures slot >= 0 ==>
                var b, i := slot / SHIFT, slot % SHIFT;
                && Chosen(old(ar[..]), b) && i < |old(ar[b]).map_| && old(ar[b]).map_[i] == 0
                && FirstZero(old(ar[b]).map_, old(ar[b]).next, i) && ar[..] == old(ar[..])[b := Taken(old(ar[b]), i)]
    {
      var b := Best();
      ghost var was := ar[..];
      if b < 0 { return -1; }
      assert AreaOk(ar[b]);
      OneChosen(was, b);
      var i := NextFit(ar[b].map_, ar[b].next);
      if i >= |ar[b].map_| { return -1; }
      TakenOk(ar[b], i);
      ar[b] := Taken(ar[b], i);
      assert ar[..] == was[b := Taken(was[b], i)];
      Joined(b, i);
      return b * SHIFT + i;
    }

    /** swap_dup. */
    method Dup(slot: nat)
      requires Valid() && slot / SHIFT < AREAS
      modifies ar
      ensures Valid()
      ensures ar[..] == old(ar[..])[slot / SHIFT := Counted(old(ar[slot / SHIFT]), slot % SHIFT, 1)]
    {
      var b, i := slot / SHIFT, slot % SHIFT;
      var a := ar[b];
      CountedOk(a, i, 1);
      if i < |a.map_| && a.map_[i] != 0 && a.map_[i] < STICKY { ar[b] := a.(map_ := a.map_[i := a.map_[i] + 1]); }
    }

    /** swap_put. */
    method Put(slot: nat)
      requires Valid() && slot / SHIFT < AREAS
      modifies ar
      ensures Valid()
      ensures ar[..] == old(ar[..])[slot / SHIFT := Counted(old(ar[slot / SHIFT]), slot % SHIFT, -1)]
    {
      var b, i := slot / SHIFT, slot % SHIFT;
      var a := ar[b];
      CountedOk(a, i, -1);
      if i < |a.map_| && a.map_[i] != 0 && a.map_[i] < STICKY {
        var v := a.map_[i] - 1;
        ar[b] := a.(map_ := a.map_[i := v], used := if v == 0 then a.used - 1 else a.used);
      }
    }
  }

  /** One reference more or less, unless the slot is free, bad or stuck. */
  function Counted(a: Area, i: nat, d: int): Area
    requires AreaOk(a) && -1 <= d <= 1
  {
    if i < |a.map_| && a.map_[i] != 0 && a.map_[i] < STICKY then
      var m := a.map_[i := a.map_[i] + d];
      a.(map_ := m, used := Busy(m))
    else a
  }

  lemma CountedOk(a: Area, i: nat, d: int)
    requires AreaOk(a) && -1 <= d <= 1
    ensures AreaOk(Counted(a, i, d))
    ensures i < |a.map_| && a.map_[i] != 0 && a.map_[i] < STICKY ==>
              Counted(a, i, d).used + (if a.map_[i] + d == 0 then 1 else 0) == a.used
  {
    if i < |a.map_| && a.map_[i] != 0 && a.map_[i] < STICKY { BusyUpdate(a.map_, i, a.map_[i] + d); }
  }

  /** A reference taken and dropped again leaves the area as it was, unless the byte got stuck. */
  lemma DupPut(a: Area, i: nat)
    requires AreaOk(a) && i < |a.map_| && a.map_[i] != 0 && a.map_[i] < STICKY
    ensures AreaOk(Counted(a, i, 1)) && (Counted(Counted(a, i, 1), i, -1) == a <==> a.map_[i] != STICKY - 1)
  {
    CountedOk(a, i, 1);
    assert a.map_[i := a.map_[i] + 1][i := a.map_[i]] == a.map_;
  }

  lemma OneChosen(ar: seq<Area>, b: nat)
    requires Chosen(ar, b)
    ensures forall c: nat :: Chosen(ar, c) ==> c == b
  {
  }

  lemma Joined(b: nat, i: nat)
    requires i < SHIFT
    ensures (b * SHIFT + i) / SHIFT == b && (b * SHIFT + i) % SHIFT == i
  {
  }

  // ---------- areas as swap_on makes them ----------

  /** The map of an area with pages 0 to `last`, where `bad` are the bad pages its header lists. */
  function FreshMap(last: nat, bad: seq<nat>): (m: seq<nat>)
    ensures |m| == last + 1 && forall i | 0 <= i <= last :: m[i] == if i == 0 || i in bad[..Listed(bad)] then BAD else 0
  {
    seq(last + 1, i => if i == 0 || i in bad[..Listed(bad)] then BAD else 0)
  }

  /** Only the first 512 are looked at. */
  function Listed(bad: seq<nat>): (n: nat)
    ensures n <= |bad|
  {
    if |bad| < 512 then |bad| else 512
  }

  function FreshArea(prio: int, last: nat, bad: seq<nat>): Area {
    Area(true, prio, last + 1, 0, 1, FreshMap(last, bad))
  }

  lemma {:induction false} NoneBusy(m: seq<nat>)
    requires forall i | 0 <= i < |m| :: m[i] == 0 || m[i] == BAD
    ensures Busy(m) == 0
  {
    if m != [] { NoneBusy(m[..|m| - 1]); }
  }

  /** swap_on refuses an area without page 10, and any other is well formed. */
  lemma FreshOk(prio: int, last: nat, bad: seq<nat>)
    requires MIN_PAGES <= last + 1 <= SHIFT
    ensures AreaOk(FreshArea(prio, last, bad))
  {
    NoneBusy(FreshMap(last, bad));
  }

  const OFF: Area := Area(false, 0, 0, 0, 0, [])

  /** The smallest area with all its pages bad, and a whole one of lower priority. */
  function WornOut(): seq<Area> {
    [FreshArea(1, 10, [1, 2, 3, 4, 5, 6, 7, 8, 9, 10]), FreshArea(0, 10, []), OFF, OFF]
  }

  /** The first area has no slot, counts as open, and is the one that is looked at. */
  lemma WornOutChosen()
    ensures var w := WornOut(); Chosen(w, 0) && !HasRoom(w[0]) && HasRoom(w[1])
    ensures forall i | 0 <= i < 4 :: AreaOk(WornOut()[i])
  {
    var w := WornOut();
    FreshOk(1, 10, [1, 2, 3, 4, 5, 6, 7, 8, 9, 10]);
    FreshOk(0, 10, []);
    forall i | 0 <= i <= 10
      ensures w[0].map_[i] == BAD
    {
      assert i > 0 ==> [1, 2, 3, 4, 5, 6, 7, 8, 9, 10][i - 1] == i;
    }
    assert w[1].map_[1] == 0;
  }

  /** A bad page can hide free slots elsewhere: swap_alloc returns -1 with ten free slots in the second area. */
  method BadPageHidesRoom() returns (slot: int, a: array<Area>)
    ensures slot == -1 && a[..] == WornOut() && HasRoom(a[1])
  {
    WornOutChosen();
    hide FreshArea;
    var w := WornOut();
    a := new Area[4](i requires 0 <= i < 4 => w[i]);
    assert a[..] == w;
    var areas := new Areas(a);
    slot := areas.Alloc();
  }
}

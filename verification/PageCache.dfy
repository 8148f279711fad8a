/**
  The page cache: it holds the frames of mapped files and one reference on each. Without a shared
  mapping the file and its frames agree; with one, a store goes to the frame and the file learns of
  it at the next sync.
  */
module PageCache {

  const PAGE: nat := 4096

  /** A frame of the cache (0 is none) with the bit of the clock. */
  datatype Slot = Slot(f: nat, seen: bool)

  datatype Node = Node(has: bool, fr: seq<Slot>, shared: bool)

  const NONE: Node := Node(false, [], false)

  type Page = seq<nat>

  /** Page `i` of a file: its bytes, and zeros behind the end. */
  function PageOf(data: seq<nat>, i: nat): (p: Page)
    ensures |p| == PAGE
  {
    seq(PAGE, k requires 0 <= k < PAGE => if i * PAGE + k < |data| then data[i * PAGE + k] else 0)
  }

  /** A frame has the bytes of page `i`, as far as the file goes. */
  ghost predicate Agrees(data: seq<nat>, p: Page, i: nat) {
    |p| == PAGE && forall k | 0 <= k < PAGE && i * PAGE + k < |data| :: p[k] == data[i * PAGE + k]
  }

  function PagesIn(size: nat): nat { (size + PAGE - 1) / PAGE }

  // ---------- counting ----------

  function Count(fr: seq<Slot>): nat {
    if fr == [] then 0 else Count(fr[..|fr| - 1]) + (if fr[|fr| - 1].f != 0 then 1 else 0)
  }

  lemma {:induction false} CountUpdate(fr: seq<Slot>, i: nat, s: Slot)
    requires i < |fr|
    ensures Count(fr[i := s]) + (if fr[i].f != 0 then 1 else 0) == Count(fr) + (if s.f != 0 then 1 else 0)
    decreases |fr|
  {
    var n := |fr| - 1;
    if i < n {
      CountUpdate(fr[..n], i, s);
      assert fr[i := s][..n] == fr[..n][i := s];
    } else {
      assert fr[i := s][..n] == fr[..n];
    }
  }

  lemma {:induction false} CountGrow(fr: seq<Slot>, n: nat)
    ensures Count(fr + Empty(n)) == Count(fr)
  {
    if n > 0 {
      assert (fr + Empty(n))[..|fr| + n - 1] == fr + Empty(n - 1);
      CountGrow(fr, n - 1);
    } else {
      assert fr + Empty(0) == fr;
    }
  }

  function Empty(n: nat): (s: seq<Slot>)
    ensures |s| == n && forall i | 0 <= i < n :: s[i] == Slot(0, false)
  {
    seq(n, _ => Slot(0, false))
  }

  function Total(node: seq<Node>): nat {
    if node == [] then 0 else Total(node[..|node| - 1]) + Count(node[|node| - 1].fr)
  }

  function SharedCount(node: seq<Node>): nat {
    if node == [] then 0 else SharedCount(node[..|node| - 1]) + (if node[|node| - 1].shared then 1 else 0)
  }

  lemma {:induction false} TotalUpdate(node: seq<Node>, n: nat, d: Node)
    requires n < |node|
    ensures Total(node[n := d]) + Count(node[n].fr) == Total(node) + Count(d.fr)
    ensures SharedCount(node[n := d]) + (if node[n].shared then 1 else 0) ==
      SharedCount(node) + (if d.shared then 1 else 0)
    decreases |node|
  {
    var m := |node| - 1;
    if n < m {
      TotalUpdate(node[..m], n, d);
      assert node[n := d][..m] == node[..m][n := d];
    } else {
      assert node[n := d][..m] == node[..m];
    }
  }

  // ---------- the invariant ----------

  function Cached(node: seq<Node>, n: nat, i: nat): nat {
    if n < |node| && i < |node[n].fr| then node[n].fr[i].f else 0
  }

  /** A file: its bytes, and whether they are its own or borrowed boot data. */
  datatype File = File(data: seq<nat>, own: bool)

  /** A cached frame has contents and the reference of the cache; unless the file is shared it has the file's bytes. */
  ghost predicate SlotOk(node: seq<Node>, mem: map<nat, Page>, refs: map<nat, nat>, file: seq<File>, n: nat, i: nat) {
    var f := Cached(node, n, i);
    f != 0 ==>
      && f in mem && |mem[f]| == PAGE && f in refs && refs[f] >= 1
      && n < |file| && (file[n].own && !node[n].shared ==> Agrees(file[n].data, mem[f], i))
  }

  predicate OnceOk(node: seq<Node>, n: nat, i: nat, m: nat, j: nat) {
    Cached(node, n, i) != 0 && Cached(node, n, i) == Cached(node, m, j) ==> n == m && i == j
  }

  predicate NodeOk(node: seq<Node>, list: seq<nat>, n: nat) {
    n < |node| ==> (node[n].has <==> n in list) && (!node[n].has ==> node[n] == NONE)
  }

  predicate NoDup(l: seq<nat>) { forall i, j | 0 <= i < j < |l| :: l[i] != l[j] }

  ghost predicate CacheOk(node: seq<Node>, mem: map<nat, Page>, refs: map<nat, nat>, file: seq<File>) {
    && |node| == |file|
    && (forall n: nat, i: nat :: SlotOk(node, mem, refs, file, n, i))
    && (forall n: nat, i: nat, m: nat, j: nat :: OnceOk(node, n, i, m, j))
  }

  ghost predicate ListOk(node: seq<Node>, list: seq<nat>) {
    NoDup(list) && (forall k | 0 <= k < |list| :: list[k] < |node|) && forall n: nat :: NodeOk(node, list, n)
  }

  function WithSlot(node: seq<Node>, n: nat, i: nat, s: Slot): seq<Node>
    requires n < |node| && i < |node[n].fr|
  {
    node[n := node[n].(fr := node[n].fr[i := s])]
  }

  lemma WithSlotCached(node: seq<Node>, n: nat, i: nat, s: Slot)
    requires n < |node| && i < |node[n].fr|
    ensures forall m: nat, j: nat ::
      Cached(WithSlot(node, n, i, s), m, j) == if m == n && j == i then s.f else Cached(node, m, j)
    ensures |WithSlot(node, n, i, s)| == |node| && forall m | 0 <= m < |node| ::
      SameNode(WithSlot(node, n, i, s)[m], node[m])
    ensures Total(WithSlot(node, n, i, s)) + (if node[n].fr[i].f != 0 then 1 else 0) ==
      Total(node) + (if s.f != 0 then 1 else 0)
    ensures SharedCount(WithSlot(node, n, i, s)) == SharedCount(node)
  {
    CountUpdate(node[n].fr, i, s);
    TotalUpdate(node, n, node[n].(fr := node[n].fr[i := s]));
  }

  predicate SameNode(a: Node, b: Node) { a.has == b.has && a.shared == b.shared && |a.fr| == |b.fr| }

  lemma WithSlotList(node: seq<Node>, list: seq<nat>, n: nat, i: nat, s: Slot)
    requires ListOk(node, list) && n < |node| && i < |node[n].fr|
    ensures ListOk(WithSlot(node, n, i, s), list)
  {
    var node' := WithSlot(node, n, i, s);
    forall m: nat ensures NodeOk(node', list, m) { assert NodeOk(node, list, m) && NodeOk(node, list, n); }
  }

  /** One slot given a frame that the cache does not have yet. */
  lemma FillSlot(node: seq<Node>, mem: map<nat, Page>, refs: map<nat, nat>, file: seq<File>, n: nat, i: nat, f: nat,
      p: Page)
    requires CacheOk(node, mem, refs, file) && n < |node| && i < |node[n].fr| && node[n].fr[i].f == 0 && f != 0
      && f !in refs
    requires Agrees(file[n].data, p, i)
    ensures CacheOk(WithSlot(node, n, i, Slot(f, true)), mem[f := p], refs[f := 2], file)
  {
    var node', mem', refs' := WithSlot(node, n, i, Slot(f, true)), mem[f := p], refs[f := 2];
    forall m: nat, j: nat ensures SlotOk(node', mem', refs', file, m, j) { assert SlotOk(node, mem, refs, file, m, j); }
    forall m: nat, j: nat, q: nat, k: nat ensures OnceOk(node', m, j, q, k) {
      assert OnceOk(node, m, j, q, k) && SlotOk(node, mem, refs, file, m, j) && SlotOk(node, mem, refs, file, q, k);
    }
  }

  ghost predicate Kept(node: seq<Node>, node': seq<Node>, m: nat, j: nat) {
    Cached(node', m, j) == 0 || (Cached(node', m, j) == Cached(node, m, j) && (node[m].shared ==> node'[m].shared))
  }

  /** Slots emptied, everything else as it was; a file that is shared stays shared while it has frames. */
  ghost predicate Fewer(node: seq<Node>, node': seq<Node>) {
    |node'| == |node| && forall m: nat, j: nat | m < |node| :: Kept(node, node', m, j)
  }

  ghost predicate Counted(node: seq<Node>, refs: map<nat, nat>) {
    forall m: nat, j: nat :: Cached(node, m, j) != 0 ==> Cached(node, m, j) in refs && refs[Cached(node, m, j)] >= 1
  }

  lemma FewerOk(node: seq<Node>, node': seq<Node>, mem: map<nat, Page>, refs: map<nat, nat>, refs': map<nat, nat>,
      file: seq<File>)
    requires CacheOk(node, mem, refs, file) && Fewer(node, node') && Counted(node', refs')
    ensures CacheOk(node', mem, refs', file)
  {
    forall m: nat, j: nat ensures SlotOk(node', mem, refs', file, m, j) {
      assert SlotOk(node, mem, refs, file, m, j) && (m < |node| ==> Kept(node, node', m, j));
    }
    forall m: nat, j: nat, q: nat, k: nat ensures OnceOk(node', m, j, q, k) {
      assert OnceOk(node, m, j, q, k) && (m < |node| ==> Kept(node, node', m, j))
        && (q < |node| ==> Kept(node, node', q, k));
    }
  }

  /** After the reference on a frame that no slot has any more is dropped, the others keep theirs. */
  lemma CountedDrop(node: seq<Node>, node': seq<Node>, refs: map<nat, nat>, refs': map<nat, nat>, n: nat, i: nat)
    requires Counted(node, refs) && Fewer(node, node') && Cached(node, n, i) != 0 && Cached(node', n, i) == 0
    requires forall m: nat, j: nat :: OnceOk(node, n, i, m, j)
    requires forall f | f in refs && f != Cached(node, n, i) :: f in refs' && refs'[f] == refs[f]
    ensures Counted(node', refs')
  {
    forall m: nat, j: nat | Cached(node', m, j) != 0
      ensures Cached(node', m, j) in refs' && refs'[Cached(node', m, j)] >= 1
    {
      assert Kept(node, node', m, j) && OnceOk(node, n, i, m, j);
    }
  }

  lemma AllCounted(node: seq<Node>, mem: map<nat, Page>, refs: map<nat, nat>, file: seq<File>)
    requires CacheOk(node, mem, refs, file)
    ensures Counted(node, refs)
  {
    forall m: nat, j: nat | Cached(node, m, j) != 0
      ensures Cached(node, m, j) in refs && refs[Cached(node, m, j)] >= 1
    {
      assert SlotOk(node, mem, refs, file, m, j);
    }
  }

  /** Contents of frames rewritten: it is enough that every cached frame still agrees where it has to. */
  lemma RewriteOk(node: seq<Node>, mem: map<nat, Page>, mem': map<nat, Page>, refs: map<nat, nat>, file: seq<File>,
      file': seq<File>)
    requires CacheOk(node, mem, refs, file) && |file'| == |file|
    requires forall m: nat, j: nat :: Rewritten(node, mem', file', m, j)
    ensures CacheOk(node, mem', refs, file')
  {
    forall m: nat, j: nat ensures SlotOk(node, mem', refs, file', m, j) {
      assert SlotOk(node, mem, refs, file, m, j) && Rewritten(node, mem', file', m, j);
    }
  }

  ghost predicate Rewritten(node: seq<Node>, mem': map<nat, Page>, file': seq<File>, m: nat, j: nat) {
    var f := Cached(node, m, j);
    f != 0 && m < |file'| ==>
      f in mem' && |mem'[f]| == PAGE && (file'[m].own && !node[m].shared ==> Agrees(file'[m].data, mem'[f], j))
  }

  /** A node can be had for the file, if it has none, and an array long enough for page `i`, if its own is not. */
  predicate CanHold(d: Node, i: nat, nodeRoom: bool, arrayRoom: bool) {
    (d.has || nodeRoom) && (i < |d.fr| || arrayRoom)
  }

  class Cache {
    var file: seq<File>
    var node: seq<Node>       // by file
    var list: seq<nat>        // files with a node, head of the list first
    var hand: int             // the clock: file and page, -1 when it is nowhere
    var handI: nat
    var npages: nat
    var nshared: nat
    var mem: map<nat, Page>   // contents of frames
    var refs: map<nat, nat>   // references of frames, those of page tables included
    var free: set<nat>

    ghost predicate Frames()
      reads this
    {
      0 !in refs && 0 !in free && free !! refs.Keys && forall f | f in refs :: refs[f] >= 1
    }

    ghost predicate Valid()
      reads this
    {
      && Frames() && CacheOk(node, mem, refs, file) && ListOk(node, list)
      && npages == Total(node) && nshared == SharedCount(node) && (hand == -1 || hand in list)
    }

    constructor (files: seq<File>, frames: set<nat>)
      requires 0 !in frames
      ensures Valid() && file == files && free == frames && list == [] && refs == map[]
    {
      file, node, list := files, seq(|files|, _ => NONE), [];
      hand, handI, npages, nshared := -1, 0, 0, 0;
      mem, refs, free := map[], map[], frames;
      new;
      NothingCached(|files|);
    }

    /** pmm_unref. */
    method Unref(f: nat)
      requires Frames() && f in refs
      modifies this`refs, this`free
      ensures Frames() && forall g | g in old(refs) && g != f :: g in refs && refs[g] == old(refs)[g]
      ensures forall g | g in refs :: g in old(refs)
      ensures if old(refs)[f] == 1 then f !in refs && free == old(free) + {f}
        else f in refs && refs[f] == old(refs)[f] - 1 && free == old(free)
    {
      if refs[f] == 1 {
        refs, free := refs - {f}, free + {f};
      } else {
        refs := refs[f := refs[f] - 1];
      }
    }

    /** One page leaves the cache, and with it the reference of the cache. */
    method Uncache(n: nat, i: nat)
      requires Valid() && Cached(node, n, i) != 0
      modifies this
      ensures Valid() && n < |old(node)| && i < |old(node)[n].fr| && node == WithSlot(old(node), n, i, Slot(0, false))
      ensures file == old(file) && mem == old(mem) && list == old(list) && hand == old(hand) && handI == old(handI)
      ensures npages == old(npages) - 1
      ensures forall g | g in old(refs) && g != Cached(old(node), n, i) :: g in refs && refs[g] == old(refs)[g]
      ensures forall g | g in refs :: g in old(refs)
    {
      ghost var node0, refs0 := node, refs;
      var f := node[n].fr[i].f;
      SlotHas(node, mem, refs, file, n, i);
      OneSlot(node, mem, refs, file, n, i);
      AllCounted(node, mem, refs, file);
      WithSlotCached(node, n, i, Slot(0, false));
      WithSlotList(node, list, n, i, Slot(0, false));
      hide CacheOk, ListOk, Total, SharedCount, SlotOk, WithSlot;
      node := WithSlot(node, n, i, Slot(0, false));
      assert Fewer(node0, node);
      Unref(f);
      CountedDrop(node0, node, refs0, refs, n, i);
      FewerOk(node0, node, mem, refs0, refs, file);
      npages := npages - 1;
    }

    /** get_nl: the frame of page `i` with a reference for the caller; 0 behind the end or without memory. */
    method Get(n: nat, i: nat, nodeRoom: bool, arrayRoom: bool) returns (f: nat)
      requires Valid() && n < |file|
      modifies this
      ensures Valid() && file == old(file) && |node| == |old(node)| == |file|
      ensures f == 0 <==>
        i >= PagesIn(|file[n].data|) || !CanHold(old(node)[n], i, nodeRoom, arrayRoom)
        || (Cached(old(node), n, i) == 0 && old(free) == {})
      ensures f == 0 ==> mem == old(mem) && refs == old(refs) && free == old(free) && npages == old(npages)
      ensures f == 0 ==> Cached(node, n, i) == Cached(old(node), n, i)
      ensures f != 0 ==>
        Cached(node, n, i) == f && f in refs && refs[f] >= 2
        && (node[n].shared <==> old(node)[n].shared)
      ensures f != 0 && Cached(old(node), n, i) != 0 ==>
        f == Cached(old(node), n, i) && mem == old(mem) && f in old(refs) && refs == old(refs)[f := old(refs)[f] + 1]
      ensures f != 0 && Cached(old(node), n, i) == 0 ==>
        f in old(free) && f in mem && mem[f] == PageOf(file[n].data, i) && refs == old(refs)[f := 2]
      ensures forall m: nat, j: nat | !(m == n && j == i) :: Cached(node, m, j) == Cached(old(node), m, j)
    {
      assert |node| == |file|;
      hide CacheOk, ListOk, Total, SharedCount, PageOf, PagesIn, WithSlot, Cached;
      if i >= PagesIn(|file[n].data|) { return 0; }
      var ok := MakeRoom(n, i, nodeRoom, arrayRoom);
      if !ok { return 0; }
      CachedIs(node, n, i);
      if node[n].fr[i].f == 0 {
        if free == {} { return 0; }
        f := FetchNew(n, i);
      } else {
        f := FetchOld(n, i);
      }
    }

    /** A page that is not cached: a fresh frame, filled from the file. */
    method FetchNew(n: nat, i: nat) returns (f: nat)
      requires Valid() && n < |node| && i < |node[n].fr| && node[n].fr[i].f == 0 && free != {}
      modifies this`node, this`mem, this`refs, this`free, this`npages
      ensures Valid() && f != 0 && f in old(free) && mem == old(mem)[f := PageOf(file[n].data, i)]
        && refs == old(refs)[f := 2]
      ensures node == WithSlot(old(node), n, i, Slot(f, true))
    {
      assert |node| == |file|;
      WithSlotList(node, list, n, i, Slot(0, true));
      hide CacheOk, ListOk, Total, SharedCount, PageOf, WithSlot;
      f :| f in free;
      PageAgrees(file[n].data, i);
      FillSlot(node, mem, refs, file, n, i, f, PageOf(file[n].data, i));
      WithSlotCached(node, n, i, Slot(f, true));
      WithSlotList(node, list, n, i, Slot(f, true));
      mem := mem[f := PageOf(file[n].data, i)];
      free := free - {f};
      refs := refs[f := 2];
      npages := npages + 1;
      node := WithSlot(node, n, i, Slot(f, true));
    }

    method FetchOld(n: nat, i: nat) returns (f: nat)
      requires Valid() && n < |node| && i < |node[n].fr| && node[n].fr[i].f != 0
      modifies this`node, this`refs
      ensures Valid() && f == old(node)[n].fr[i].f && f in old(refs) && refs == old(refs)[f := old(refs)[f] + 1]
      ensures node == WithSlot(old(node), n, i, Slot(f, true))
    {
      f := node[n].fr[i].f;
      SlotHas(node, mem, refs, file, n, i);
      SameFrame(node, mem, refs, file, n, i);
      WithSlotCached(node, n, i, Slot(f, true));
      WithSlotList(node, list, n, i, Slot(f, true));
      hide CacheOk, ListOk, Total, SharedCount, WithSlot;
      refs := refs[f := refs[f] + 1];
      node := WithSlot(node, n, i, Slot(f, true));
    }

    /** The node of the file, and its array long enough for page `i`; a node without an array may stay behind. */
    method MakeRoom(n: nat, i: nat, nodeRoom: bool, arrayRoom: bool) returns (ok: bool)
      requires Valid() && n < |file| && i < PagesIn(|file[n].data|)
      modifies this`node, this`list
      ensures Valid() && |node| == |old(node)| == |file| && node[n].shared == old(node)[n].shared
      ensures ok <==> CanHold(old(node)[n], i, nodeRoom, arrayRoom)
      ensures ok ==> node[n].has && i < |node[n].fr|
      ensures forall m: nat, j: nat :: Cached(node, m, j) == Cached(old(node), m, j)
    {
      assert |node| == |file|;
      assert NodeOk(node, list, n);
      if !node[n].has && !nodeRoom { return false; }
      MakeNode(n);
      hide CacheOk, ListOk, Total, SharedCount, Count, PagesIn;
      ok := true;
      if i >= |node[n].fr| {
        if !arrayRoom { return false; }
        var need := PagesIn(|file[n].data|);
        Lengthen(n, if need > i + 1 then need else i + 1);
      }
    }

    method MakeNode(n: nat)
      requires Valid() && n < |node|
      modifies this`node, this`list
      ensures Valid() && |node| == |old(node)| && node[n].has && node[n].shared == old(node)[n].shared
      ensures |node[n].fr| == |old(node)[n].fr|
      ensures forall m: nat, j: nat :: Cached(node, m, j) == Cached(old(node), m, j)
    {
      assert NodeOk(node, list, n);
      if node[n].has { return; }
      var d := Node(true, [], false);
      NewNode(node, node[n := d], list, [n] + list, n);
      TotalUpdate(node, n, d);
      SameCached(node, node[n := d], mem, refs, file);
      hide CacheOk, ListOk, Total, SharedCount;
      ghost var l := list;
      list := [n] + list;
      node := node[n := d];
      assert forall x | x in l :: x in list;
    }

    method Lengthen(n: nat, len: nat)
      requires Valid() && n < |node| && node[n].has && |node[n].fr| <= len
      modifies this`node
      ensures Valid() && |node| == |old(node)| && node[n].has && |node[n].fr| == len
        && node[n].shared == old(node)[n].shared
      ensures forall m: nat, j: nat :: Cached(node, m, j) == Cached(old(node), m, j)
    {
      var more := len - |node[n].fr|;
      var d := node[n].(fr := node[n].fr + Empty(more));
      CountGrow(node[n].fr, more);
      TotalUpdate(node, n, d);
      SameCached(node, node[n := d], mem, refs, file);
      ListStays(node, node[n := d], list, n);
      hide CacheOk, ListOk, Total, SharedCount;
      node := node[n := d];
    }

    /** drop_nl: all frames of the file leave the cache, and its node goes. */
    method Drop(n: nat)
      requires Valid() && n < |node| && node[n].has
      modifies this
      ensures Valid() && |node| == |old(node)| && node[n] == NONE && file == old(file) && mem == old(mem)
      ensures forall m | 0 <= m < |node| && m != n :: node[m] == old(node)[m]
      ensures hand != n
    {
      assert |node| == |file|;
      EmptyOut(n);
      CountNone(node[n].fr);
      TotalUpdate(node, n, NONE);
      NodeGone(node, mem, refs, file, n);
      ListGone(node, list, n);
      hide CacheOk, ListOk, Total, SharedCount, Count;
      if node[n].shared { nshared := nshared - 1; }
      list := Removed(list, n);
      if hand == n { hand := -1; }
      node := node[n := NONE];
    }

    method EmptyOut(n: nat)
      requires Valid() && n < |node| && node[n].has
      modifies this
      ensures Valid() && |node| == |old(node)| && file == old(file) && mem == old(mem) && node[n].has
      ensures forall m | 0 <= m < |node| && m != n :: node[m] == old(node)[m]
      ensures forall j | 0 <= j < |node[n].fr| :: node[n].fr[j].f == 0
    {
      var i := 0;
      while i < |node[n].fr|
        invariant Valid() && |node| == |old(node)| && node[n].has && file == old(file) && mem == old(mem)
          && i <= |node[n].fr|
        invariant forall m | 0 <= m < |node| && m != n :: node[m] == old(node)[m]
        invariant forall j | 0 <= j < i :: node[n].fr[j].f == 0
        decreases |node[n].fr| - i
      {
        hide CacheOk, ListOk, Total, SharedCount;
        if node[n].fr[i].f != 0 { Uncache(n, i); }
        i := i + 1;
      }
    }

    /** A user writes through a shared mapping. */
    method StoreShared(n: nat, i: nat, p: Page)
      requires Valid() && Cached(node, n, i) != 0 && node[n].shared && |p| == PAGE
      modifies this`mem
      ensures Valid() && mem == old(mem)[Cached(node, n, i) := p]
    {
      var f := node[n].fr[i].f;
      ghost var mem' := mem[f := p];
      forall m: nat, j: nat ensures Rewritten(node, mem', file, m, j) {
        SlotHas(node, mem, refs, file, m, j);
        assert OnceOk(node, m, j, n, i);
      }
      RewriteOk(node, mem, mem', refs, file, file);
      mem := mem[f := p];
    }

    /** A write to the file followed by pc_changed: shared frames are filled again, unshared ones leave the cache. */
    method WriteFile(n: nat, data: seq<nat>)
      requires Valid() && n < |file|
      modifies this
      ensures Valid() && file == old(file)[n := old(file)[n].(data := data)]
      ensures forall i: nat | Cached(node, n, i) != 0 :: Filled(node, mem, file, n, i)
    {
      assert |node| == |file|;
      if !node[n].shared {
        if node[n].has { Drop(n); }
        ghost var file' := file[n := file[n].(data := data)];
        assert NodeOk(node, list, n) && node[n] == NONE;
        forall m: nat, j: nat ensures Rewritten(node, mem, file', m, j) { SlotHas(node, mem, refs, file, m, j); }
        RewriteOk(node, mem, mem, refs, file, file');
        hide CacheOk, ListOk, Total, SharedCount;
        file := file[n := file[n].(data := data)];
        return;
      }
      ghost var file' := file[n := file[n].(data := data)];
      forall m: nat, j: nat ensures Rewritten(node, mem, file', m, j) { SlotHas(node, mem, refs, file, m, j); }
      RewriteOk(node, mem, mem, refs, file, file');
      file := file[n := file[n].(data := data)];
      Refill(n);
    }

    /** Every frame of a shared file gets the bytes of the file again. */
    method Refill(n: nat)
      requires Valid() && n < |node| && node[n].shared && n < |file|
      modifies this`mem
      ensures Valid() && forall i: nat | Cached(node, n, i) != 0 :: Filled(node, mem, file, n, i)
    {
      var i := 0;
      while i < |node[n].fr|
        invariant Valid() && i <= |node[n].fr|
        invariant forall j: nat | j < i && Cached(node, n, j) != 0 :: Filled(node, mem, file, n, j)
      {
        if node[n].fr[i].f != 0 {
          OneSlot(node, mem, refs, file, n, i);
          hide CacheOk, ListOk, Total, SharedCount, PageOf;
          ghost var mem0 := mem;
          StoreShared(n, i, PageOf(file[n].data, i));
          forall j: nat | j < i && Cached(node, n, j) != 0 ensures Filled(node, mem, file, n, j) {
            assert Filled(node, mem0, file, n, j) && OnceOk(node, n, i, n, j);
          }
        }
        i := i + 1;
      }
    }

    /** The mark that pc_map sets when somebody maps the file shared. */
    method Share(n: nat)
      requires Valid() && n < |node| && node[n].has
      modifies this`node, this`nshared
      ensures Valid() && node == old(node)[n := old(node)[n].(shared := true)]
    {
      if node[n].shared { return; }
      var d := node[n].(shared := true);
      TotalUpdate(node, n, d);
      AllCounted(node, mem, refs, file);
      ListStays(node, node[n := d], list, n);
      ghost var node' := node[n := d];
      assert forall m: nat, j: nat :: Cached(node', m, j) == Cached(node, m, j);
      assert Fewer(node, node') && Counted(node', refs);
      FewerOk(node, node', mem, refs, refs, file);
      hide CacheOk, ListOk, Total, SharedCount;
      node := node[n := d];
      nshared := nshared + 1;
    }

    /** One page of sync_nl: the bytes of the frame go into the file. */
    method SyncPage(n: nat, i: nat) returns (ch: bool)
      requires Valid() && n < |file| && node[n].shared && Cached(node, n, i) != 0 && i * PAGE < |file[n].data|
      modifies this`file
      ensures Valid() && Cached(node, n, i) in mem && |mem[Cached(node, n, i)]| == PAGE
      ensures file == old(file)[n := old(file)[n].(data := Synced(old(file)[n].data, mem[Cached(node, n, i)], i))]
      ensures ch <==> file[n].data != old(file)[n].data
    {
      SlotHas(node, mem, refs, file, n, i);
      var p := mem[node[n].fr[i].f];
      var data := Synced(file[n].data, p, i);
      ch := data != file[n].data;
      ghost var file' := file[n := file[n].(data := data)];
      forall m: nat, j: nat ensures Rewritten(node, mem, file', m, j) { SlotHas(node, mem, refs, file, m, j); }
      RewriteOk(node, mem, mem, refs, file, file');
      hide CacheOk, ListOk, Total, SharedCount;
      file := file[n := file[n].(data := data)];
    }

    /** sync_nl on a shared file: afterwards the file has the bytes of the frames of the range. */
    method Sync(n: nat, first: nat, end: nat) returns (ch: bool)
      requires Valid() && n < |file| && node[n].shared
      modifies this`file
      ensures Valid() && |file| == |old(file)| && |file[n].data| == |old(file)[n].data|
        && file[n].own == old(file)[n].own
      ensures forall m | 0 <= m < |file| && m != n :: file[m] == old(file)[m]
      ensures file[n].own ==> forall i: nat | first <= i < end :: PageSynced(node, mem, file, n, i)
      ensures Within(old(file)[n].data, file[n].data, first, end) && (ch <==> file[n].data != old(file)[n].data)
    {
      ch := false;
      if |file[n].data| == 0 || !file[n].own {
        if file[n].own {
          forall i: nat ensures PageSynced(node, mem, file, n, i) { PastEnd(node, mem, refs, file, n, i); }
        }
        return;
      }
      var stop := if end > |node[n].fr| then |node[n].fr| else end;
      var i := first;
      while i < stop
        invariant first <= i && (i <= stop || i == first) && Valid() && |file| == |old(file)|
          && |file[n].data| == |old(file)[n].data| && file[n].own
        invariant forall m | 0 <= m < |file| && m != n :: file[m] == old(file)[m]
        invariant forall j: nat | first <= j < i :: PageSynced(node, mem, file, n, j)
        invariant Within(old(file)[n].data, file[n].data, first, i) && (ch <==> file[n].data != old(file)[n].data)
      {
        hide CacheOk, ListOk, Total, SharedCount, Synced, Agrees, Within;
        WithinMore(old(file)[n].data, file[n].data, first, i, i + 1);
        if node[n].fr[i].f != 0 && i * PAGE < |file[n].data| {
          ghost var file0 := file;
          var c := SyncPage(n, i);
          WithinNext(old(file)[n].data, file0[n].data, mem[Cached(node, n, i)], first, i);
          ch := ch || c;
          forall j: nat | first <= j <= i ensures PageSynced(node, mem, file, n, j) {
            SyncedOk(file0[n].data, mem[Cached(node, n, i)], i);
            assert j < i ==> PageSynced(node, mem, file0, n, j);
            SyncedOther(node, mem, file0[n].data, n, i, j);
          }
        } else {
          PastEnd(node, mem, refs, file, n, i);
        }
        i := i + 1;
      }
      WithinMore(old(file)[n].data, file[n].data, first, i, end);
    }

    /** Whether a page table maps one of the file's frames: every frame has the reference of the cache anyway. */
    method Mapped(n: nat) returns (used: bool)
      requires Valid() && n < |node|
      ensures used <==> exists i | 0 <= i < |node[n].fr| :: InUse(node, refs, n, i)
    {
      var i := 0;
      while i < |node[n].fr|
        invariant i <= |node[n].fr| && forall j | 0 <= j < i :: !InUse(node, refs, n, j)
      {
        if node[n].fr[i].f != 0 {
          SlotHas(node, mem, refs, file, n, i);
          if refs[node[n].fr[i].f] > 1 {
            assert InUse(node, refs, n, i);
            return true;
          }
        }
        i := i + 1;
      }
      used := false;
    }

    /** A file that agrees with all its frames is not shared any more. */
    method Unshare(n: nat)
      requires Valid() && n < |node| == |file| && node[n].shared && node[n].has
      requires file[n].own ==> forall i: nat :: PageSynced(node, mem, file, n, i)
      modifies this`node, this`nshared
      ensures Valid() && node == old(node)[n := old(node)[n].(shared := false)]
    {
      var d := node[n].(shared := false);
      TotalUpdate(node, n, d);
      ListStays(node, node[n := d], list, n);
      UnsharedOk(node, mem, refs, file, n);
      hide CacheOk, ListOk, Total, SharedCount;
      node := node[n := d];
      nshared := nshared - 1;
    }

    /** One file of pc_sync_all. */
    method SyncFile(n: nat)
      requires Valid() && n < |node| == |file| && node[n].has
      modifies this`file, this`node, this`nshared
      ensures Valid() && |file| == |old(file)| && |node| == |old(node)|
      ensures AllSynced(node, mem, file, n) && SharedYet(old(node), node, refs, n)
      ensures forall m | 0 <= m < |node| && m != n :: file[m] == old(file)[m] && node[m] == old(node)[m]
      ensures node[n].fr == old(node)[n].fr
    {
      if !node[n].shared {
        UnsharedSynced(node, mem, refs, file, n);
        return;
      }
      ghost var node0 := node;
      hide CacheOk, ListOk, Total, SharedCount, Agrees;
      var ch := Sync(n, 0, |node[n].fr|);
      assert AllSynced(node, mem, file, n);
      var used := Mapped(n);
      if !used { Unshare(n); }
      SharedAside(node0, node, mem, file, n);
    }

    /** pc_sync_all: every shared file of its own data is brought up to date; it stays shared while it is mapped. */
    method SyncAll()
      requires Valid()
      modifies this`file, this`node, this`nshared
      ensures Valid() && |file| == |old(file)| && |node| == |old(node)|
      ensures forall n: nat, i: nat | n < |file| && file[n].own :: PageSynced(node, mem, file, n, i)
      ensures forall n: nat, i: nat :: Cached(node, n, i) == Cached(old(node), n, i)
      ensures forall n: nat :: SharedYet(old(node), node, refs, n)
    {
      ghost var node0 := node;
      var k := 0;
      while k < |list|
        invariant k <= |list| && Valid() && |file| == |old(file)| && |node| == |node0|
        invariant forall n: nat, i: nat :: Cached(node, n, i) == Cached(node0, n, i)
        invariant forall q | 0 <= q < k :: Settled(node0, node, mem, refs, file, list[q])
        invariant forall m | 0 <= m < |node| && m !in list[..k] :: node[m] == node0[m]
      {
        var n := list[k];
        assert NodeOk(node, list, n) && n < |node| == |file| && n !in list[..k];
        ghost var node1, file1 := node, file;
        hide CacheOk, Total, SharedCount, Settled, AllSynced, SharedYet;
        SyncFile(n);
        SettledNow(node0, node1, node, mem, refs, file, n);
        forall q | 0 <= q <= k
          ensures Settled(node0, node, mem, refs, file, list[q])
        {
          if q < k { SettledStill(node0, node1, node, mem, refs, file1, file, list[q]); }
        }
        k := k + 1;
      }
      assert list[..k] == list;
      AllSettled(node0, node, mem, refs, file, list);
    }

    /** The next file on the list, around the end. */
    method After(c: nat) returns (d: nat)
      requires Valid() && c in list
      ensures Follows(list, c, d) && d in list
    {
      var k := 0;
      while k < |list| && list[k] != c
        invariant k <= |list| && c !in list[..k]
      {
        k := k + 1;
      }
      d := if k + 1 < |list| then list[k + 1] else list[0];
    }

    /** The clock bit of a page is taken away. */
    method Unsee(n: nat, i: nat)
      requires Valid() && n < |node| && i < |node[n].fr|
      modifies this`node
      ensures Valid() && node == WithSlot(old(node), n, i, Slot(old(node)[n].fr[i].f, false))
    {
      ghost var s := Slot(node[n].fr[i].f, false);
      WithSlotCached(node, n, i, s);
      WithSlotList(node, list, n, i, s);
      SameCached(node, WithSlot(node, n, i, s), mem, refs, file);
      hide CacheOk, ListOk, Total, SharedCount, WithSlot;
      node := WithSlot(node, n, i, Slot(node[n].fr[i].f, false));
    }

    /** One page under the clock hand: it loses its bit, stays, or goes. */
    method Visit(c: nat, i: nat, ghost node0: seq<Node>, ghost refs0: map<nat, nat>, ghost way: seq<Stop>)
        returns (dropped: bool)
      requires Valid() && c < |node| && i < |node[c].fr| && Clocked(node0, node, refs0, refs, way)
      modifies this
      ensures Valid() && Clocked(node0, node, refs0, refs, way + [Stop(c, i)])
      ensures file == old(file) && mem == old(mem) && list == old(list) && hand == old(hand) && handI == old(handI)
      ensures npages == old(npages) - (if dropped then 1 else 0)
    {
      dropped := false;
      var f := node[c].fr[i].f;
      ghost var node1, refs1 := node, refs;
      SlotHas(node, mem, refs, file, c, i);
      OneSlot(node, mem, refs, file, c, i);
      CachedIs(node, c, i);
      AbleNow(node0, node, refs0, refs, way, c, i);
      hide CacheOk, ListOk, Total, SharedCount, WithSlot, Clocked, Able;
      if f == 0 {
        SlotSame(node, c, i);
      } else if node[c].fr[i].seen {
        Unsee(c, i);
        SlotSet(node1, c, i, Slot(f, false));
      } else if refs[f] != 1 || node[c].shared {
        SlotSame(node, c, i);
      } else {
        Uncache(c, i);
        SlotSet(node1, c, i, Slot(0, false));
        dropped := true;
      }
      ClockStep(node0, node1, node, refs0, refs1, refs, way, c, i);
    }

    /**
      pc_reclaim. The hand goes around from where it was, `way`; what became of a page says how
      often it came by: the first time takes the bit, and a page without the bit goes if nobody
      maps it and its file is not shared. It stops early only after 2 * npages + 64 steps, or
      where there is nothing to step on. It always ends.
      */
    method Reclaim(want: nat) returns (got: nat, ghost way: seq<Stop>)
      requires Valid()
      modifies this
      ensures Valid() && got <= want && npages == old(npages) - got && file == old(file) && mem == old(mem)
        && list == old(list)
      ensures forall n: nat, i: nat :: Reclaimed(old(node), node, old(refs), n, i)
      ensures list == [] ==> node == old(node) && got == 0
      ensures list != [] ==>
        hand >= 0
        && Trace(old(node), node, old(refs), refs, list, way, Start(old(hand), old(handI), list), Stop(hand, handI))
      ensures got < want && list != [] ==>
        |way| > 2 * npages + 64 || (|list| == 1 && list[0] < |node| && |node[list[0]].fr| == 0)
    {
      ghost var node0, refs0, start := node, refs, Start(hand, handI, list);
      got, way := 0, [start];
      var steps := 0;
      if hand < 0 && |list| > 0 { hand, handI := list[0], 0; }
      if hand < 0 {
        assert list == [];
        NoneVisited(node, refs);
        ClockReclaims(node0, node, refs0, refs, []);
        return;
      }
      TraceStarts(node, refs, list, start);
      var stuck := false;
      while got < want && !stuck && steps < npages * 2 + 64
        invariant Valid() && got <= want && npages == old(npages) - got && file == old(file) && mem == old(mem)
          && list == old(list)
        invariant hand >= 0 && |way| == steps + 1
          && Trace(node0, node, refs0, refs, list, way, start, Stop(hand, handI))
        invariant stuck ==> |list| == 1 && list[0] < |node| && |node[list[0]].fr| == 0
        decreases npages * 2 + 64 - steps
      {
        hide CacheOk, Total, SharedCount, Trace, ListOk;
        steps := steps + 1;
        var dropped;
        dropped, stuck, way := Turn(node0, refs0, way, start);
        if dropped { got := got + 1; }
      }
      ClockReclaims(node0, node, refs0, refs, way[..|way| - 1]);
    }

    /** One step of the hand: on to the next file, or over one page. */
    method Turn(ghost node0: seq<Node>, ghost refs0: map<nat, nat>, ghost way: seq<Stop>, ghost start: Stop)
      returns (dropped: bool, stuck: bool, ghost way': seq<Stop>)
      requires Valid() && hand >= 0 && Trace(node0, node, refs0, refs, list, way, start, Stop(hand, handI))
      modifies this
      ensures Valid() && file == old(file) && mem == old(mem) && list == old(list)
      ensures hand >= 0 && |way'| == |way| + 1 && Trace(node0, node, refs0, refs, list, way', start, Stop(hand, handI))
      ensures npages == old(npages) - (if dropped then 1 else 0)
      ensures stuck ==> |list| == 1 && list[0] < |node| && |node[list[0]].fr| == 0
    {
      var c, i := hand, handI;
      dropped, stuck := false, false;
      HandIn(node, list, c);
      TraceLength(node0, node, refs0, refs, list, way, start, Stop(c, i));
      hide CacheOk, Total, SharedCount, Clocked, Trace;
      if i >= |node[c].fr| {
        var d := After(c);
        hand, handI := d, 0;
        way' := way + [Stop(d, 0)];
        TraceHops(node0, node, refs0, refs, list, way, start, Stop(c, i), d);
        stuck := d == c && |node[c].fr| == 0;
        if stuck { OnlyFile(list, c); }
      } else {
        handI := i + 1;
        TraceSoFar(node0, node, refs0, refs, list, way, start, Stop(c, i));
        dropped := Visit(c, i, node0, refs0, way[..|way| - 1]);
        way' := way + [Stop(c, i + 1)];
        TraceVisits(node0, node, refs0, refs, list, way, start, Stop(c, i));
      }
    }
  }

  // ---------- the clock ----------

  /** Where the hand stands: a file and a page; behind its last page it goes on to the next file. */
  datatype Stop = Stop(n: nat, i: nat)

  predicate Follows(list: seq<nat>, c: nat, d: nat) {
    exists k | 0 <= k < |list| :: list[k] == c && d == if k + 1 < |list| then list[k + 1] else list[0]
  }

  predicate Moves(node: seq<Node>, list: seq<nat>, a: Stop, b: Stop) {
    a.n < |node| &&
    if a.i >= |node[a.n].fr| then Follows(list, a.n, b.n) && b.i == 0 else b == Stop(a.n, a.i + 1)
  }

  /** The hand never skips a page. */
  predicate Goes(node: seq<Node>, list: seq<nat>, way: seq<Stop>) {
    forall k, m | 0 <= k < m == k + 1 < |way| :: Moves(node, list, way[k], way[m])
  }

  function Times(way: seq<Stop>, n: nat, i: nat): nat {
    if way == [] then 0 else Times(way[..|way| - 1], n, i) + (if way[|way| - 1] == Stop(n, i) then 1 else 0)
  }

  /** The hand comes by once. */
  function Chance(s: Slot, able: bool): Slot {
    if s.f == 0 then s else if s.seen then Slot(s.f, false) else if able then Slot(0, false) else s
  }

  function Visited(s: Slot, able: bool, v: nat): Slot {
    if v == 0 then s else Chance(Visited(s, able, v - 1), able)
  }

  /** A page with the bit outlives one visit but not two, unless it is in use; then it outlives all. */
  lemma {:induction false} SecondChance(s: Slot, able: bool, v: nat)
    ensures Visited(s, able, v).f == s.f || (able && Visited(s, able, v).f == 0)
    ensures v <= 1 && s.seen ==> Visited(s, able, v).f == s.f
    ensures v >= 1 && Visited(s, able, v).f != 0 ==> !Visited(s, able, v).seen
    ensures v >= 2 && able ==> Visited(s, able, v).f == 0
  {
    if v > 0 { SecondChance(s, able, v - 1); }
  }

  /** Nobody but the cache refers to the frame, and the file is not shared. */
  predicate Able(node: seq<Node>, refs: map<nat, nat>, n: nat, i: nat) {
    n < |node| && !node[n].shared && Cached(node, n, i) in refs && refs[Cached(node, n, i)] == 1
  }

  ghost predicate SlotAt(node0: seq<Node>, node: seq<Node>, refs0: map<nat, nat>, way: seq<Stop>, n: nat, i: nat) {
    n < |node| && n < |node0| && i < |node[n].fr| && i < |node0[n].fr| ==>
      node[n].fr[i] == Visited(node0[n].fr[i], Able(node0, refs0, n, i), Times(way, n, i))
  }

  /** The cache after the hand went this way; frames that stay keep their references. */
  ghost predicate Clocked(node0: seq<Node>, node: seq<Node>, refs0: map<nat, nat>, refs: map<nat, nat>,
      way: seq<Stop>) {
    && |node| == |node0| && (forall n | 0 <= n < |node| :: SameNode(node[n], node0[n]))
    && (forall n: nat, i: nat :: SlotAt(node0, node, refs0, way, n, i))
    && (forall n: nat, i: nat :: Cached(node, n, i) != 0 ==> SameRefs(refs0, refs, Cached(node, n, i)))
  }

  lemma NoneVisited(node: seq<Node>, refs: map<nat, nat>)
    ensures Clocked(node, node, refs, refs, [])
  {
  }

  /** Where a reclaim begins. */
  function Start(hand: int, i: nat, list: seq<nat>): Stop {
    if hand >= 0 then Stop(hand, i) else if list == [] then Stop(0, 0) else Stop(list[0], 0)
  }

  /** The hand went `way`, from `start` to `end`, and the cache is what that makes of it. */
  ghost predicate Trace(node0: seq<Node>, node: seq<Node>, refs0: map<nat, nat>, refs: map<nat, nat>, list: seq<nat>,
      way: seq<Stop>,
                        start: Stop, end: Stop) {
    && 0 < |way| && way[0] == start && way[|way| - 1] == end
    && Goes(node0, list, way) && Clocked(node0, node, refs0, refs, way[..|way| - 1])
  }

  lemma TraceStarts(node: seq<Node>, refs: map<nat, nat>, list: seq<nat>, start: Stop)
    ensures Trace(node, node, refs, refs, list, [start], start, start)
  {
    assert [start][..0] == [];
    NoneVisited(node, refs);
  }

  lemma TraceLength(node0: seq<Node>, node: seq<Node>, refs0: map<nat, nat>, refs: map<nat, nat>, list: seq<nat>,
      way: seq<Stop>,
                    start: Stop, end: Stop)
    requires Trace(node0, node, refs0, refs, list, way, start, end)
    ensures |node| == |node0| && forall c | 0 <= c < |node| :: |node[c].fr| == |node0[c].fr|
  {
  }

  lemma TraceSoFar(node0: seq<Node>, node: seq<Node>, refs0: map<nat, nat>, refs: map<nat, nat>, list: seq<nat>,
      way: seq<Stop>,
                   start: Stop, end: Stop)
    requires Trace(node0, node, refs0, refs, list, way, start, end)
    ensures 0 < |way| && Clocked(node0, node, refs0, refs, way[..|way| - 1])
    ensures way[0] == start && way[|way| - 1] == end && Goes(node0, list, way)
  {
  }

  lemma GoesOn(node: seq<Node>, list: seq<nat>, way: seq<Stop>, b: Stop)
    requires 0 < |way| && Goes(node, list, way) && Moves(node, list, way[|way| - 1], b)
    ensures Goes(node, list, way + [b])
  {
  }

  lemma TraceHops(node0: seq<Node>, node: seq<Node>, refs0: map<nat, nat>, refs: map<nat, nat>, list: seq<nat>,
      way: seq<Stop>,
                  start: Stop, a: Stop, d: nat)
    requires Trace(node0, node, refs0, refs, list, way, start, a)
    requires a.n < |node0| && a.i >= |node0[a.n].fr| && Follows(list, a.n, d)
    ensures Trace(node0, node, refs0, refs, list, way + [Stop(d, 0)], start, Stop(d, 0))
  {
    hide Clocked, Follows;
    GoesOn(node0, list, way, Stop(d, 0));
    HopStep(node0, node, refs0, refs, way[..|way| - 1], a);
    assert way[..|way| - 1] + [a] == (way + [Stop(d, 0)])[..|way|];
  }

  lemma TraceVisits(node0: seq<Node>, node: seq<Node>, refs0: map<nat, nat>, refs: map<nat, nat>, list: seq<nat>,
      way: seq<Stop>,
                    start: Stop, a: Stop)
    requires 0 < |way| && way[0] == start && way[|way| - 1] == a && Goes(node0, list, way)
    requires a.n < |node0| && a.i < |node0[a.n].fr| && Clocked(node0, node, refs0, refs, way[..|way| - 1] + [a])
    ensures Trace(node0, node, refs0, refs, list, way + [Stop(a.n, a.i + 1)], start, Stop(a.n, a.i + 1))
  {
    hide Clocked, Follows;
    GoesOn(node0, list, way, Stop(a.n, a.i + 1));
    assert way[..|way| - 1] + [a] == (way + [Stop(a.n, a.i + 1)])[..|way|];
  }

  lemma OnlyFile(list: seq<nat>, c: nat)
    requires NoDup(list) && Follows(list, c, c)
    ensures |list| == 1 && list[0] == c
  {
    if |list| != 1 { assert false; }
  }

  /** A page that is still there can be dropped now if it could at the start. */
  lemma AbleNow(node0: seq<Node>, node: seq<Node>, refs0: map<nat, nat>, refs: map<nat, nat>, way: seq<Stop>, c: nat,
      i: nat)
    requires Clocked(node0, node, refs0, refs, way) && c < |node| && i < |node[c].fr|
    ensures node[c].fr[i].f != 0 && node[c].fr[i].f in refs ==>
              (Able(node0, refs0, c, i) <==> refs[node[c].fr[i].f] == 1 && !node[c].shared)
  {
    assert SameNode(node[c], node0[c]) && SlotAt(node0, node, refs0, way, c, i);
    SecondChance(node0[c].fr[i], Able(node0, refs0, c, i), Times(way, c, i));
    CachedIs(node, c, i);
    CachedIs(node0, c, i);
    assert Cached(node, c, i) != 0 ==> SameRefs(refs0, refs, Cached(node, c, i));
  }

  /** One slot is set, the others stay. */
  ghost predicate OneSet(node: seq<Node>, node': seq<Node>, c: nat, i: nat, s: Slot) {
    && |node'| == |node| && (forall n | 0 <= n < |node| :: SameNode(node'[n], node[n]))
    && forall n: nat, j: nat | n < |node| && n < |node'| && j < |node[n].fr| && j < |node'[n].fr| ::
         node'[n].fr[j] == if n == c && j == i then s else node[n].fr[j]
  }

  lemma SlotSame(node: seq<Node>, c: nat, i: nat)
    requires c < |node| && i < |node[c].fr|
    ensures OneSet(node, node, c, i, node[c].fr[i])
  {
  }

  lemma SlotSet(node: seq<Node>, c: nat, i: nat, s: Slot)
    requires c < |node| && i < |node[c].fr|
    ensures OneSet(node, WithSlot(node, c, i, s), c, i, s)
  {
  }

  lemma ClockStep(node0: seq<Node>, node: seq<Node>, node': seq<Node>, refs0: map<nat, nat>, refs: map<nat, nat>,
      refs': map<nat, nat>,
                  way: seq<Stop>, c: nat, i: nat)
    requires Clocked(node0, node, refs0, refs, way) && c < |node| && i < |node[c].fr|
    requires OneSet(node, node', c, i, Chance(node[c].fr[i], Able(node0, refs0, c, i)))
    requires forall n: nat, j: nat :: OnceOk(node, c, i, n, j)
    requires forall g | g in refs && (g != Cached(node, c, i) || node'[c].fr[i].f != 0) ::
      g in refs' && refs'[g] == refs[g]
    requires forall g | g in refs' :: g in refs
    ensures Clocked(node0, node', refs0, refs', way + [Stop(c, i)])
  {
    hide Chance, Able;
    var way' := way + [Stop(c, i)];
    assert way'[..|way|] == way;
    forall n | 0 <= n < |node'|
      ensures SameNode(node'[n], node0[n])
    {
      assert SameNode(node'[n], node[n]) && SameNode(node[n], node0[n]);
    }
    forall n: nat, j: nat
      ensures SlotAt(node0, node', refs0, way', n, j)
    {
      assert SlotAt(node0, node, refs0, way, n, j);
      if n < |node'| { assert SameNode(node'[n], node[n]); }
    }
    forall n: nat, j: nat | Cached(node', n, j) != 0
      ensures SameRefs(refs0, refs', Cached(node', n, j))
    {
      SlotFrame(node, node', c, i, Chance(node[c].fr[i], Able(node0, refs0, c, i)), n, j);
      ChanceFrame(node[c].fr[i], Able(node0, refs0, c, i));
      assert OnceOk(node, c, i, n, j);
      assert SameRefs(refs0, refs, Cached(node, n, j));
    }
  }

  lemma ChanceFrame(s: Slot, able: bool)
    ensures Chance(s, able).f == s.f || Chance(s, able).f == 0
  {
  }

  lemma SlotFrame(node: seq<Node>, node': seq<Node>, c: nat, i: nat, s: Slot, n: nat, j: nat)
    requires OneSet(node, node', c, i, s) && Cached(node', n, j) != 0
    ensures n < |node| && j < |node[n].fr| && j < |node'[n].fr| && Cached(node', n, j) == node'[n].fr[j].f
      && Cached(node, n, j) == node[n].fr[j].f
    ensures node'[n].fr[j] == if n == c && j == i then s else node[n].fr[j]
  {
    assert SameNode(node'[n], node[n]);
  }

  /** A step from one file to the next is no visit. */
  lemma HopStep(node0: seq<Node>, node: seq<Node>, refs0: map<nat, nat>, refs: map<nat, nat>, way: seq<Stop>, a: Stop)
    requires Clocked(node0, node, refs0, refs, way) && a.n < |node0| && a.i >= |node0[a.n].fr|
    ensures Clocked(node0, node, refs0, refs, way + [a])
  {
    assert (way + [a])[..|way|] == way;
    forall n: nat, j: nat
      ensures SlotAt(node0, node, refs0, way + [a], n, j)
    {
      assert SlotAt(node0, node, refs0, way, n, j);
    }
  }

  /** So what is dropped was mapped by nobody and belonged to a file nobody maps shared. */
  lemma ClockReclaims(node0: seq<Node>, node: seq<Node>, refs0: map<nat, nat>, refs: map<nat, nat>, way: seq<Stop>)
    requires Clocked(node0, node, refs0, refs, way)
    ensures forall n: nat, i: nat :: Reclaimed(node0, node, refs0, n, i)
  {
    forall n: nat, i: nat
      ensures Reclaimed(node0, node, refs0, n, i)
    {
      assert SlotAt(node0, node, refs0, way, n, i);
      if n < |node| {
        assert SameNode(node[n], node0[n]);
        if i < |node[n].fr| { SecondChance(node0[n].fr[i], Able(node0, refs0, n, i), Times(way, n, i)); }
      }
    }
  }

  /** A page is cached as before, or it was unmapped, unshared and has been dropped. */
  ghost predicate Reclaimed(node: seq<Node>, node': seq<Node>, refs: map<nat, nat>, n: nat, i: nat) {
    && (n < |node| ==> n < |node'| && node'[n].shared == node[n].shared)
    && (Cached(node', n, i) == Cached(node, n, i) ||
        (Cached(node', n, i) == 0 && n < |node| && !node[n].shared && Cached(node, n, i) in refs
          && refs[Cached(node, n, i)] == 1))
  }

  predicate SameRefs(refs: map<nat, nat>, refs': map<nat, nat>, f: nat) {
    f in refs' ==> f in refs && refs'[f] == refs[f]
  }

  lemma HandIn(node: seq<Node>, list: seq<nat>, c: int)
    requires ListOk(node, list) && c in list
    ensures 0 <= c < |node| && node[c].has
  {
    var k :| 0 <= k < |list| && list[k] == c;
    assert NodeOk(node, list, c);
  }

  predicate InUse(node: seq<Node>, refs: map<nat, nat>, n: nat, i: nat) {
    Cached(node, n, i) != 0 && Cached(node, n, i) in refs && refs[Cached(node, n, i)] > 1
  }

  ghost predicate AllSynced(node: seq<Node>, mem: map<nat, Page>, file: seq<File>, n: nat) {
    n < |file| && (file[n].own ==> forall i: nat :: PageSynced(node, mem, file, n, i))
  }

  lemma UnsharedSynced(node: seq<Node>, mem: map<nat, Page>, refs: map<nat, nat>, file: seq<File>, n: nat)
    requires CacheOk(node, mem, refs, file) && n < |file| && !node[n].shared
    ensures AllSynced(node, mem, file, n)
  {
    if file[n].own { forall i: nat ensures PageSynced(node, mem, file, n, i) { SlotHas(node, mem, refs, file, n, i); } }
  }

  /** A file is shared as long as it was and somebody maps one of its frames. */
  ghost predicate SharedYet(node0: seq<Node>, node: seq<Node>, refs: map<nat, nat>, n: nat) {
    n < |node0| && n < |node| ==> (node[n].shared <==> node0[n].shared && exists i: nat :: InUse(node0, refs, n, i))
  }

  ghost predicate Settled(node0: seq<Node>, node: seq<Node>, mem: map<nat, Page>, refs: map<nat, nat>, file: seq<File>,
      n: nat) {
    n < |node| == |node0| == |file| && AllSynced(node, mem, file, n) && SharedYet(node0, node, refs, n)
  }

  lemma SettledNow(node0: seq<Node>, node1: seq<Node>, node: seq<Node>, mem: map<nat, Page>, refs: map<nat, nat>,
      file: seq<File>, n: nat)
    requires n < |node| == |node1| == |node0| == |file| && AllSynced(node, mem, file, n)
      && SharedYet(node1, node, refs, n) && node1[n] == node0[n]
    ensures Settled(node0, node, mem, refs, file, n)
  {
    assert forall i: nat :: InUse(node1, refs, n, i) <==> InUse(node0, refs, n, i);
  }

  lemma SettledStill(node0: seq<Node>, node1: seq<Node>, node: seq<Node>, mem: map<nat, Page>, refs: map<nat, nat>,
      file1: seq<File>, file: seq<File>, m: nat)
    requires Settled(node0, node1, mem, refs, file1, m) && |node| == |node1| && |file| == |file1| && node[m] == node1[m]
      && file[m] == file1[m]
    ensures Settled(node0, node, mem, refs, file, m)
  {
    if file[m].own {
      forall i: nat ensures PageSynced(node, mem, file, m, i) { assert PageSynced(node1, mem, file1, m, i); }
    }
  }

  /** Files without a node have nothing cached and were never shared. */
  lemma AllSettled(node0: seq<Node>, node: seq<Node>, mem: map<nat, Page>, refs: map<nat, nat>, file: seq<File>,
      list: seq<nat>)
    requires |node| == |node0| == |file| && ListOk(node, list)
    requires forall q | 0 <= q < |list| :: Settled(node0, node, mem, refs, file, list[q])
    requires forall m | 0 <= m < |node| && m !in list :: node[m] == node0[m]
    ensures forall n: nat, i: nat | n < |file| && file[n].own :: PageSynced(node, mem, file, n, i)
    ensures forall n: nat :: SharedYet(node0, node, refs, n)
  {
    forall n: nat | n < |node|
      ensures Settled(node0, node, mem, refs, file, n)
    {
      assert NodeOk(node, list, n);
      if n in list {
        var q :| 0 <= q < |list| && list[q] == n;
        assert Settled(node0, node, mem, refs, file, list[q]);
      } else {
        assert node[n] == NONE;
      }
    }
    forall n: nat, i: nat | n < |file| && file[n].own
      ensures PageSynced(node, mem, file, n, i)
    {
      assert Settled(node0, node, mem, refs, file, n);
    }
    forall n: nat
      ensures SharedYet(node0, node, refs, n)
    {
      if n < |node| { assert Settled(node0, node, mem, refs, file, n); }
    }
  }

  /** The mark does not matter for what is cached. */
  lemma SharedAside(node: seq<Node>, node': seq<Node>, mem: map<nat, Page>, file: seq<File>, n: nat)
    requires n < |node| && (node' == node || node' == node[n := node[n].(shared := false)])
    ensures AllSynced(node, mem, file, n) ==> AllSynced(node', mem, file, n)
  {
    if AllSynced(node, mem, file, n) && file[n].own {
      forall i: nat ensures PageSynced(node', mem, file, n, i) { assert PageSynced(node, mem, file, n, i); }
    }
  }

  lemma UnsharedOk(node: seq<Node>, mem: map<nat, Page>, refs: map<nat, nat>, file: seq<File>, n: nat)
    requires CacheOk(node, mem, refs, file) && n < |node|
    requires file[n].own ==> forall i: nat :: PageSynced(node, mem, file, n, i)
    ensures CacheOk(node[n := node[n].(shared := false)], mem, refs, file)
  {
    var node' := node[n := node[n].(shared := false)];
    forall m: nat, j: nat ensures SlotOk(node', mem, refs, file, m, j) {
      assert SlotOk(node, mem, refs, file, m, j);
      if m == n && file[n].own { assert PageSynced(node, mem, file, n, j); }
    }
    forall m: nat, j: nat, q: nat, k: nat ensures OnceOk(node', m, j, q, k) { assert OnceOk(node, m, j, q, k); }
  }

  /** The file with the bytes of frame `p` in page `i`, as far as it goes. */
  function Synced(data: seq<nat>, p: Page, i: nat): (r: seq<nat>)
    requires |p| == PAGE && i * PAGE < |data|
    ensures |r| == |data|
  {
    var off := i * PAGE;
    var k := if |data| - off > PAGE then PAGE else |data| - off;
    data[..off] + p[..k] + data[off + k..]
  }

  /** Only the bytes of pages `first` to `end` differ. */
  ghost predicate Within(data: seq<nat>, data': seq<nat>, first: nat, end: nat) {
    |data'| == |data| && forall k | 0 <= k < |data| && !(first * PAGE <= k < end * PAGE) :: data'[k] == data[k]
  }

  lemma WithinMore(data: seq<nat>, data': seq<nat>, first: nat, i: nat, end: nat)
    requires Within(data, data', first, i) && (i <= end || i == first)
    ensures Within(data, data', first, end)
  {
  }

  /** A page that changes differs from what it was at first. */
  lemma WithinNext(data: seq<nat>, now: seq<nat>, p: Page, first: nat, i: nat)
    requires first <= i && Within(data, now, first, i) && |p| == PAGE && i * PAGE < |now|
    ensures Within(data, Synced(now, p, i), first, i + 1)
    ensures Synced(now, p, i) != data <==> now != data || Synced(now, p, i) != now
  {
    var next := Synced(now, p, i);
    assert forall k | 0 <= k < |now| && !(i * PAGE <= k < (i + 1) * PAGE) :: next[k] == now[k];
    if now != data {
      var k :| 0 <= k < |data| && now[k] != data[k];
      assert next[k] == now[k];
    } else if next != now {
      assert next != data;
    }
  }

  lemma SyncedOk(data: seq<nat>, p: Page, i: nat)
    requires |p| == PAGE && i * PAGE < |data|
    ensures Agrees(Synced(data, p, i), p, i)
    ensures forall r: Page, j: nat :: j != i && Agrees(data, r, j) ==> Agrees(Synced(data, p, i), r, j)
  {
  }

  /** Page `i` of the file, if it is cached, agrees with its frame. */
  ghost predicate PageSynced(node: seq<Node>, mem: map<nat, Page>, file: seq<File>, n: nat, i: nat) {
    n < |file| && (Cached(node, n, i) != 0 ==>
      Cached(node, n, i) in mem && Agrees(file[n].data, mem[Cached(node, n, i)], i))
  }

  lemma PastEnd(node: seq<Node>, mem: map<nat, Page>, refs: map<nat, nat>, file: seq<File>, n: nat, i: nat)
    requires CacheOk(node, mem, refs, file) && n < |file| && (Cached(node, n, i) == 0 || i * PAGE >= |file[n].data|)
    ensures PageSynced(node, mem, file, n, i)
  {
    SlotHas(node, mem, refs, file, n, i);
  }

  lemma SyncedOther(node: seq<Node>, mem: map<nat, Page>, data: seq<nat>, n: nat, i: nat, j: nat)
    requires Cached(node, n, i) in mem && |mem[Cached(node, n, i)]| == PAGE && i * PAGE < |data|
    ensures j != i && Cached(node, n, j) in mem && Agrees(data, mem[Cached(node, n, j)], j) ==>
              Agrees(Synced(data, mem[Cached(node, n, i)], i), mem[Cached(node, n, j)], j)
  {
    SyncedOk(data, mem[Cached(node, n, i)], i);
  }

  predicate Filled(node: seq<Node>, mem: map<nat, Page>, file: seq<File>, n: nat, i: nat) {
    n < |file| && Cached(node, n, i) in mem && mem[Cached(node, n, i)] == PageOf(file[n].data, i)
  }

  lemma {:induction false} CountNone(fr: seq<Slot>)
    requires forall i | 0 <= i < |fr| :: fr[i].f == 0
    ensures Count(fr) == 0
  {
    if fr != [] { CountNone(fr[..|fr| - 1]); }
  }

  lemma NodeGone(node: seq<Node>, mem: map<nat, Page>, refs: map<nat, nat>, file: seq<File>, n: nat)
    requires CacheOk(node, mem, refs, file) && n < |node| && forall i | 0 <= i < |node[n].fr| :: node[n].fr[i].f == 0
    ensures CacheOk(node[n := NONE], mem, refs, file)
  {
    var node' := node[n := NONE];
    AllCounted(node, mem, refs, file);
    assert Fewer(node, node');
    assert Counted(node', refs) by {
      forall m: nat, j: nat | Cached(node', m, j) != 0
        ensures Cached(node', m, j) in refs && refs[Cached(node', m, j)] >= 1
      {
        assert Cached(node', m, j) == Cached(node, m, j);
      }
    }
    FewerOk(node, node', mem, refs, refs, file);
  }

  function Removed(list: seq<nat>, n: nat): seq<nat> {
    if list == [] then [] else if list[0] == n then list[1..] else [list[0]] + Removed(list[1..], n)
  }

  lemma {:induction false} RemovedOk(list: seq<nat>, n: nat)
    requires NoDup(list)
    ensures NoDup(Removed(list, n)) && forall x :: x in Removed(list, n) <==> x in list && x != n
  {
    if list != [] {
      RemovedOk(list[1..], n);
      assert list == [list[0]] + list[1..];
      assert list[0] !in list[1..];
    }
  }

  lemma ListGone(node: seq<Node>, list: seq<nat>, n: nat)
    requires ListOk(node, list) && n < |node|
    ensures ListOk(node[n := NONE], Removed(list, n)) && forall x :: x in Removed(list, n) <==> x in list && x != n
  {
    RemovedOk(list, n);
    var node', l := node[n := NONE], Removed(list, n);
    forall k | 0 <= k < |l| ensures l[k] < |node| { assert l[k] in list; }
    forall m: nat ensures NodeOk(node', l, m) { assert NodeOk(node, list, m); }
  }

  lemma CachedIs(node: seq<Node>, n: nat, i: nat)
    requires n < |node| && i < |node[n].fr|
    ensures Cached(node, n, i) == node[n].fr[i].f
  {
  }

  lemma OneSlot(node: seq<Node>, mem: map<nat, Page>, refs: map<nat, nat>, file: seq<File>, n: nat, i: nat)
    requires CacheOk(node, mem, refs, file)
    ensures forall m: nat, j: nat :: OnceOk(node, n, i, m, j)
  {
  }

  lemma SlotHas(node: seq<Node>, mem: map<nat, Page>, refs: map<nat, nat>, file: seq<File>, n: nat, i: nat)
    requires CacheOk(node, mem, refs, file)
    ensures SlotOk(node, mem, refs, file, n, i)
  {
  }

  lemma PageAgrees(data: seq<nat>, i: nat)
    ensures Agrees(data, PageOf(data, i), i)
  {
  }

  /** The clock bit of a slot changes, and a frame gets one more reference. */
  lemma SameFrame(node: seq<Node>, mem: map<nat, Page>, refs: map<nat, nat>, file: seq<File>, n: nat, i: nat)
    requires CacheOk(node, mem, refs, file) && Cached(node, n, i) in refs && Cached(node, n, i) != 0
    ensures var f := Cached(node, n, i);
            CacheOk(WithSlot(node, n, i, Slot(f, true)), mem, refs[f := refs[f] + 1], file)
  {
    var f := Cached(node, n, i);
    var node', refs' := WithSlot(node, n, i, Slot(f, true)), refs[f := refs[f] + 1];
    assert Fewer(node, node');
    AllCounted(node, mem, refs, file);
    assert Counted(node', refs') by {
      forall m: nat, j: nat | Cached(node', m, j) != 0
        ensures Cached(node', m, j) in refs' && refs'[Cached(node', m, j)] >= 1
      {
        assert Cached(node', m, j) == Cached(node, m, j);
      }
    }
    FewerOk(node, node', mem, refs, refs', file);
  }

  lemma SameCached(node: seq<Node>, node': seq<Node>, mem: map<nat, Page>, refs: map<nat, nat>, file: seq<File>)
    requires CacheOk(node, mem, refs, file) && |node'| == |node|
      && (forall m | 0 <= m < |node| :: node'[m].shared == node[m].shared)
    requires forall m: nat, j: nat :: Cached(node', m, j) == Cached(node, m, j)
    ensures CacheOk(node', mem, refs, file)
  {
    AllCounted(node, mem, refs, file);
    assert Fewer(node, node');
    FewerOk(node, node', mem, refs, refs, file);
  }

  lemma NewNode(node: seq<Node>, node': seq<Node>, list: seq<nat>, list': seq<nat>, n: nat)
    requires ListOk(node, list) && n < |node|
    requires if node[n].has then node' == node && list' == list
      else node' == node[n := Node(true, [], false)] && list' == [n] + list
    ensures ListOk(node', list') && node'[n].has && (n in list' || n in list)
  {
    assert NodeOk(node, list, n);
    forall m: nat ensures NodeOk(node', list', m) { assert NodeOk(node, list, m); assert [n][0] == n; }
  }

  lemma NothingCached(n: nat)
    ensures var node := seq(n, _ => NONE); Total(node) == 0 && SharedCount(node) == 0
  {
    var node: seq<Node> := seq(n, _ => NONE);
    if n > 0 {
      assert node[..n - 1] == seq(n - 1, _ => NONE);
      NothingCached(n - 1);
    }
  }

  lemma ListStays(node: seq<Node>, node': seq<Node>, list: seq<nat>, n: nat)
    requires ListOk(node, list) && n < |node| && |node'| == |node| && node[n].has && node'[n].has
    requires forall m | 0 <= m < |node| && m != n :: node'[m] == node[m]
    ensures ListOk(node', list)
  {
    forall m: nat ensures NodeOk(node', list, m) { assert NodeOk(node, list, m); }
  }
}

/**
  The order in which the recursion over a page table tree comes to tables and pages: by address, and
  at one address from the root down. So how far it comes with a given number of frames can be told
  from the tables beforehand.
  */
module ForkOrder {
  import opened VmState
  import opened PageTree
  import opened TreeCopy

  /** Pages that one entry of level `l` stands for. */
  function Wide(l: nat): nat {
    if l == 0 then 1 else if l == 1 then 512 else if l == 2 then 262144 else if l == 3 then 134217728 else 68719476736
  }

  /** The first page of entry `i` in a table at `h`; the first page of the table for `i` = 0. */
  function AddrOf(h: Place, i: nat): nat {
    (h.block * 512 + i) * Wide(h.lvl)
  }

  /** The tables that the recursion comes to before it comes to page `p`. */
  function TablesTo(tab: Tables, home: map<nat, Place>, p: nat): set<nat> {
    set t | t in tab && t in home && AddrOf(home[t], 0) <= p
  }

  /** The pages that a fork with `frames` frames for tables comes to. */
  predicate Comes(tab: Tables, home: map<nat, Place>, frames: int, p: nat) {
    |TablesTo(tab, home, p)| <= frames
  }

  // ---------- addresses ----------

  lemma NextAddr(h: Place, i: nat)
    requires h.lvl <= 3
    ensures AddrOf(h, i + 1) == AddrOf(h, i) + Wide(h.lvl)
  {
  }

  /** The table that hangs on an entry starts and ends where the entry does. */
  lemma ChildAddr(h: Place, i: nat, c: Place)
    requires 0 < h.lvl <= 3 && c == Place(h.lvl - 1, h.block * 512 + i)
    ensures AddrOf(c, 0) == AddrOf(h, i) && AddrOf(c, 512) == AddrOf(h, i + 1)
  {
  }

  /** A table that starts inside an entry and is of a lower level has its block there. */
  lemma {:induction false} StartsInside(h: Place, i: nat, c: Place)
    requires c.lvl < h.lvl <= 3 && i < 512 && AddrOf(h, i) <= AddrOf(c, 0) < AddrOf(h, i + 1)
    ensures Up(c.block, h.lvl - 1 - c.lvl) == h.block * 512 + i && Up(c.block, h.lvl - c.lvl) == h.block
  {
    var x := h.block * 512 + i;
    assert x / 512 == h.block;
    UpSplit(c.block, h.lvl - c.lvl);
    if h.lvl == c.lvl + 1 {
      InsideOne(x, c.block, Wide(c.lvl));
    } else if h.lvl == c.lvl + 2 {
      InsideTwo(x, c.block, Wide(c.lvl));
      assert Up(c.block, 1) == Up(c.block / 512, 0);
    } else {
      InsideThree(x, c.block);
      assert Up(c.block, 2) == Up(c.block / 512, 1) == Up(c.block / 512 / 512, 0);
    }
  }

  lemma Less(a: nat, b: nat, w: nat)
    requires w > 0
    ensures a * w < b * w <==> a < b
  {
  }

  lemma InsideOne(x: nat, b: nat, w: nat)
    requires w > 0 && x * (512 * w) <= b * 512 * w < (x + 1) * (512 * w)
    ensures b == x
  {
    Less(b, x, 512 * w);
    Less(b, x + 1, 512 * w);
    assert b * 512 * w == b * (512 * w);
  }

  lemma InsideTwo(x: nat, b: nat, w: nat)
    requires w > 0 && x * (262144 * w) <= b * 512 * w < (x + 1) * (262144 * w)
    ensures b / 512 == x
  {
    Less(b * 512, x * 262144, w);
    Less(b * 512, (x + 1) * 262144, w);
    assert x * (262144 * w) == x * 262144 * w && (x + 1) * (262144 * w) == (x + 1) * 262144 * w;
  }

  lemma InsideThree(x: nat, b: nat)
    requires x * 134217728 <= b * 512 < (x + 1) * 134217728
    ensures b / 512 / 512 == x
  {
  }

  lemma WideSum(l: nat, d: nat)
    requires l + d <= 3
    ensures Wide(l + d) == Wide(l) * Wide(d) && Wide(d) > 0
  {
  }

  /** A table of the same or a higher level cannot start inside an entry, only where entry 0 does. */
  lemma StartsAbove(h: Place, i: nat, u: Place)
    requires h.lvl <= u.lvl <= 3 && i < 512 && AddrOf(h, i) <= AddrOf(u, 0) < AddrOf(h, i + 1)
    ensures i == 0 && AddrOf(u, 0) == AddrOf(h, 0)
  {
    var d := u.lvl - h.lvl;
    var x, y := h.block * 512 + i, u.block * Wide(d) * 512;
    AddrUp(u.block, h.lvl, d);
    Starts(x, y, Wide(h.lvl), AddrOf(h, i), AddrOf(u, 0), AddrOf(h, i + 1));
    FirstEntry(h.block, i, u.block * Wide(d));
  }

  lemma Starts(x: nat, y: nat, w: nat, a: nat, b: nat, c: nat)
    requires w > 0 && a == x * w && b == y * w && c == (x + 1) * w && a <= b < c
    ensures x == y
  {
    InsideZero(x, y, w);
  }

  lemma AddrUp(b: nat, l: nat, d: nat)
    requires l + d <= 3
    ensures (b * 512 + 0) * Wide(l + d) == b * Wide(d) * 512 * Wide(l)
  {
    WideSum(l, d);
    Regroup(b, Wide(l), Wide(d));
  }

  lemma Regroup(b: nat, w: nat, v: nat)
    ensures b * 512 * (w * v) == b * v * 512 * w
  {
  }

  lemma FirstEntry(b: nat, i: nat, m: nat)
    requires b * 512 + i == m * 512 && i < 512
    ensures i == 0
  {
  }

  lemma InsideZero(x: nat, y: nat, w: nat)
    requires w > 0 && x * w <= y * w < (x + 1) * w
    ensures y == x
  {
    Less(y, x, w);
    Less(y, x + 1, w);
  }

  /** Entries of one level that overlap are the same. */
  lemma SameEntry(h: Place, i: nat, u: Place, j: nat)
    requires h.lvl == u.lvl <= 3 && i < 512 && j < 512 && AddrOf(h, i) <= AddrOf(u, j) < AddrOf(h, i + 1)
    ensures h == u && i == j
  {
    InsideZero(h.block * 512 + i, u.block * 512 + j, Wide(h.lvl));
  }

  // ---------- what hangs on an entry ----------

  /** A table that starts inside entry `i` of `t` hangs on it, or starts where `t` starts. */
  lemma TableInside(r: Job, t: nat, i: nat, u: nat)
    requires JobOk(r) && t in r.tab && u in r.tab && i < 512 && t in r.home && u in r.home
    requires AddrOf(r.home[t], i) <= AddrOf(r.home[u], 0) < AddrOf(r.home[t], i + 1)
    ensures Hangs(r, u, t, i)
            || (i == 0 && r.home[u].lvl >= r.home[t].lvl && AddrOf(r.home[u], 0) == AddrOf(r.home[t], 0))
  {
    assert TableOk(r.tab, r.home, t) && TableOk(r.tab, r.home, u);
    hide AddrOf;
    if r.home[u].lvl < r.home[t].lvl {
      StartsInside(r.home[t], i, r.home[u]);
    } else {
      StartsAbove(r.home[t], i, r.home[u]);
    }
  }

  /** The entry of a page or of a marker that starts inside entry `i`. */
  lemma LeafInside(r: Job, t: nat, i: nat, u: nat, j: nat)
    requires JobOk(r) && t in r.tab && u in r.tab && i < 512 && j < 512 && t in r.home && u in r.home
    requires AddrOf(r.home[t], i) <= AddrOf(r.home[u], j) < AddrOf(r.home[t], i + 1) && EntryIn(r.tab, u, j).Leaf?
    ensures (u == t && i == j) || Hangs(r, u, t, i)
  {
    assert TableOk(r.tab, r.home, t) && TableOk(r.tab, r.home, u) && PteOk(r.tab, r.home, r.home[u], j, r.tab[u][j]);
    if r.home[u].lvl == r.home[t].lvl {
      SameEntry(r.home[t], i, r.home[u], j);
      OnePlace(r.tab, r.home, r.pd, t, u);
    } else if r.home[u].lvl < r.home[t].lvl {
      EntryInside(r.home[t], i, r.home[u], j);
    } else {
      NoMarkerAbove(r, t, i, u, j);
    }
  }

  lemma EntryInside(h: Place, i: nat, u: Place, j: nat)
    requires u.lvl < h.lvl <= 3 && u.lvl <= 1 && i < 512 && j < 512 && AddrOf(h, i) <= AddrOf(u, j) < AddrOf(h, i + 1)
    ensures Up(u.block, h.lvl - 1 - u.lvl) == h.block * 512 + i && Up(u.block, h.lvl - u.lvl) == h.block
  {
    var x, y := h.block * 512 + i, u.block * 512 + j;
    Blocks(h.block, i);
    Blocks(u.block, j);
    if u.lvl == 0 { PageInside(h.lvl, x, y); } else { MarkerInside(h.lvl, x, y); }
    hide AddrOf, Wide;
    UpSplit(u.block, h.lvl - u.lvl);
    Ups(u.block);
  }

  lemma Blocks(b: nat, i: nat)
    requires i < 512
    ensures (b * 512 + i) / 512 == b
  {
  }

  lemma PageInside(l: nat, x: nat, y: nat)
    requires 1 <= l <= 3 && x * Wide(l) <= y < (x + 1) * Wide(l)
    ensures if l == 1 then y / 512 == x else if l == 2 then y / 512 / 512 == x else y / 512 / 512 / 512 == x
  {
    if l == 1 { WithinOne(x, y); } else if l == 2 { WithinTwo(x, y); } else { WithinThree(x, y); }
  }

  lemma MarkerInside(l: nat, x: nat, y: nat)
    requires 2 <= l <= 3 && x * Wide(l) <= y * 512 < (x + 1) * Wide(l)
    ensures if l == 2 then y / 512 == x else y / 512 / 512 == x
  {
    if l == 2 {
      Less(y, x * 512, 512);
      Less(y, (x + 1) * 512, 512);
      WithinOne(x, y);
    } else {
      Less(y, x * 262144, 512);
      Less(y, (x + 1) * 262144, 512);
      WithinTwo(x, y);
    }
  }

  lemma Ups(b: nat)
    ensures Up(b, 0) == b && Up(b, 1) == b / 512 && Up(b, 2) == b / 512 / 512
  {
    assert Up(b, 1) == Up(b / 512, 0);
    assert Up(b, 2) == Up(b / 512, 1) == Up(b / 512 / 512, 0);
  }

  lemma WithinOne(x: nat, y: nat)
    requires x * 512 <= y < (x + 1) * 512
    ensures y / 512 == x
  {
  }

  lemma WithinTwo(x: nat, y: nat)
    requires x * 262144 <= y < (x + 1) * 262144
    ensures y / 512 / 512 == x
  {
  }

  lemma WithinThree(x: nat, y: nat)
    requires x * 134217728 <= y < (x + 1) * 134217728
    ensures y / 512 / 512 / 512 == x
  {
  }

  /** A marker does not start at an entry of a page table: where the table is, the marker would be. */
  lemma NoMarkerAbove(r: Job, t: nat, i: nat, u: nat, j: nat)
    requires JobOk(r) && t in r.tab && u in r.tab && i < 512 && j < 512 && t in r.home && u in r.home
    requires r.home[t].lvl == 0 && r.home[u].lvl == 1 && EntryIn(r.tab, u, j).Leaf?
    ensures AddrOf(r.home[t], i) != AddrOf(r.home[u], j)
  {
    if AddrOf(r.home[t], i) == AddrOf(r.home[u], j) {
      assert r.home[t].block == r.home[u].block * 512 + j;
      assert Linked(r.tab, r.home, r.pd, t);
      AtTable(r.tab, r.home, r.pd, u, j);
    }
  }

  /** A table of the user half starts in it. */
  lemma UserTable(r: Job, u: nat)
    requires JobOk(r) && u in r.tab
    ensures u in r.home && r.home[u].lvl <= 3 && AddrOf(r.home[u], 0) < TOP
  {
    assert TableOk(r.tab, r.home, u);
    if u == r.pd { return; }
    assert Under(r, u, r.pd);
    UnderHangs(r, u, r.pd);
    var i :| 0 <= i < 512 && Hangs(r, u, r.pd, i);
    if i >= 256 { NothingHangs(r, r.pd, i, u); }
    assert Linked(r.tab, r.home, r.pd, u);
    var b := r.home[u].block;
    Ups(b);
    assert i < 256;
    if r.home[u].lvl == 2 {
      assert b == i;
    } else if r.home[u].lvl == 1 {
      assert b / 512 == i;
    } else {
      assert b / 512 / 512 == i;
    }
  }

  // ---------- how far the recursion has come ----------

  /** A table has its copy if it starts before `a`, or at `a` and is of level `l` at least. */
  ghost predicate TableAt(r: Job, w: Work, a: nat, l: nat, u: nat) {
    u in r.tab && u in r.home ==>
      (u in w.copy <==> AddrOf(r.home[u], 0) < a || (AddrOf(r.home[u], 0) == a && r.home[u].lvl >= l))
  }

  /** A page or a marker is done if it starts before `a`. */
  ghost predicate LeafAt(r: Job, w: Work, a: nat, u: nat, j: nat) {
    u in r.tab && u in r.home && j < 512 && EntryIn(r.tab, u, j).Leaf? ==>
      ((u, j) in w.seen <==> AddrOf(r.home[u], j) < a)
  }

  ghost predicate Front(r: Job, w: Work, a: nat, l: nat) {
    && (forall u: nat :: TableAt(r, w, a, l, u))
    && (forall u: nat, j: nat :: LeafAt(r, w, a, u, j))
  }

  /** Only before the first entry of a table of level `lvl` are there copies of tables that start here. */
  function Depth(lvl: nat, i: nat): nat {
    if i == 0 then lvl else 4
  }

  lemma FrontStart(r: Job, w: Work)
    requires JobOk(r) && w.copy.Keys == {r.pd} && w.seen == {}
    ensures Front(r, w, 0, 3)
  {
    forall u: nat
      ensures TableAt(r, w, 0, 3, u)
    {
      assert TableOk(r.tab, r.home, u);
      if u in r.tab && u in r.home && r.home[u].lvl >= 3 { OnePlace(r.tab, r.home, r.pd, u, r.pd); }
    }
  }

  /** An entry that is no link goes over. */
  lemma FrontOver(r: Job, w: Work, w': Work, t: nat, i: nat)
    requires JobOk(r) && t in r.tab && t in r.home && i < 512 && !EntryIn(r.tab, t, i).Link?
    requires Front(r, w, AddrOf(r.home[t], i), Depth(r.home[t].lvl, i))
    requires w'.seen == w.seen + {(t, i)} && w'.copy == w.copy
    ensures Front(r, w', AddrOf(r.home[t], i + 1), 4)
  {
    assert TableOk(r.tab, r.home, t);
    var a, b := AddrOf(r.home[t], i), AddrOf(r.home[t], i + 1);
    NextAddr(r.home[t], i);
    hide JobOk, AddrOf;
    forall u: nat
      ensures TableAt(r, w', b, 4, u)
    {
      TableOver(r, w, w', t, i, u);
    }
    forall u: nat, j: nat
      ensures LeafAt(r, w', b, u, j)
    {
      LeafOver(r, w, w', t, i, u, j);
    }
  }

  lemma TableOver(r: Job, w: Work, w': Work, t: nat, i: nat, u: nat)
    requires JobOk(r) && t in r.tab && t in r.home && i < 512 && !EntryIn(r.tab, t, i).Link? && w'.copy == w.copy
    requires TableAt(r, w, AddrOf(r.home[t], i), Depth(r.home[t].lvl, i), u)
    requires AddrOf(r.home[t], i) < AddrOf(r.home[t], i + 1)
    ensures TableAt(r, w', AddrOf(r.home[t], i + 1), 4, u)
  {
    assert TableOk(r.tab, r.home, u);
    hide JobOk, AddrOf;
    if u in r.tab && u in r.home && AddrOf(r.home[t], i) <= AddrOf(r.home[u], 0) < AddrOf(r.home[t], i + 1) {
      TableInside(r, t, i, u);
      NothingHangs(r, t, i, u);
    }
  }

  lemma LeafOver(r: Job, w: Work, w': Work, t: nat, i: nat, u: nat, j: nat)
    requires JobOk(r) && t in r.tab && t in r.home && i < 512 && !EntryIn(r.tab, t, i).Link?
    requires LeafAt(r, w, AddrOf(r.home[t], i), u, j) && w'.seen == w.seen + {(t, i)}
    requires AddrOf(r.home[t], i) < AddrOf(r.home[t], i + 1)
    ensures LeafAt(r, w', AddrOf(r.home[t], i + 1), u, j)
  {
    hide JobOk, AddrOf;
    if u in r.tab && u in r.home && j < 512 && EntryIn(r.tab, u, j).Leaf? {
      if AddrOf(r.home[t], i) <= AddrOf(r.home[u], j) < AddrOf(r.home[t], i + 1) {
        LeafInside(r, t, i, u, j);
        NothingHangs(r, t, i, u);
      }
    }
  }

  /** Table `c` under entry `i` gets its copy. */
  lemma FrontHung(r: Job, w: Work, w': Work, t: nat, i: nat, c: nat)
    requires JobOk(r) && t in r.tab && t in r.home && i < 512 && EntryIn(r.tab, t, i) == Link(c)
    requires c in r.tab && c in r.home && 0 < r.home[t].lvl <= 3
    requires r.home[c] == Place(r.home[t].lvl - 1, r.home[t].block * 512 + i)
    requires Front(r, w, AddrOf(r.home[t], i), Depth(r.home[t].lvl, i))
    requires w'.seen == w.seen + {(t, i)} && w'.copy.Keys == w.copy.Keys + {c}
    ensures AddrOf(r.home[c], 0) == AddrOf(r.home[t], i) && Front(r, w', AddrOf(r.home[c], 0), r.home[c].lvl)
  {
    ChildAddr(r.home[t], i, r.home[c]);
    NextAddr(r.home[t], i);
    hide JobOk, AddrOf;
    var a := AddrOf(r.home[c], 0);
    forall u: nat
      ensures TableAt(r, w', a, r.home[c].lvl, u)
    {
      TableHung(r, w, w', t, i, c, u);
    }
    forall u: nat, j: nat
      ensures LeafAt(r, w', a, u, j)
    {
      assert LeafAt(r, w, a, u, j);
    }
  }

  lemma TableHung(r: Job, w: Work, w': Work, t: nat, i: nat, c: nat, u: nat)
    requires JobOk(r) && t in r.tab && t in r.home && i < 512 && c in r.tab && c in r.home && 0 < r.home[t].lvl <= 3
    requires r.home[c].lvl == r.home[t].lvl - 1 && AddrOf(r.home[c], 0) == AddrOf(r.home[t], i)
    requires AddrOf(r.home[t], i) < AddrOf(r.home[t], i + 1)
    requires TableAt(r, w, AddrOf(r.home[t], i), Depth(r.home[t].lvl, i), u) && w'.copy.Keys == w.copy.Keys + {c}
    ensures TableAt(r, w', AddrOf(r.home[c], 0), r.home[c].lvl, u)
  {
    assert TableOk(r.tab, r.home, u);
    if u in r.tab && u in r.home && AddrOf(r.home[u], 0) == AddrOf(r.home[c], 0) {
      if r.home[u].lvl == r.home[c].lvl {
        SameStart(r.home[u], r.home[c]);
        OnePlace(r.tab, r.home, r.pd, u, c);
      } else if r.home[u].lvl > r.home[c].lvl {
        hide AddrOf;
        StartsAbove(r.home[t], i, r.home[u]);
      }
    }
  }

  lemma SameStart(h: Place, g: Place)
    requires h.lvl == g.lvl && AddrOf(h, 0) == AddrOf(g, 0)
    ensures h == g
  {
    Less(h.block * 512, g.block * 512, Wide(h.lvl));
    Less(g.block * 512, h.block * 512, Wide(h.lvl));
  }

  // ---------- where it stops ----------

  /** Exactly the pages that could be reached are done. */
  ghost predicate Stopped(r: Job, pages: set<nat>) {
    forall p: nat :: p in pages <==> Key(r.pd, p) in r.s0.pt && Comes(r.tab, r.home, r.s0.free, p)
  }

  lemma Subset(a: set<nat>, b: set<nat>)
    requires a <= b
    ensures |a| <= |b|
  {
    assert b == a + (b - a);
  }

  lemma DoneComes(r: Job, w: Work, pages: set<nat>, c: nat, l: nat, p: nat)
    requires JobOk(r) && PagesSeen(r, w.seen, pages) && p in pages && c in r.tab && c in r.home
    requires Front(r, w, AddrOf(r.home[c], 0), l)
    ensures TablesTo(r.tab, r.home, p) <= w.copy.Keys
  {
    var a := AddrOf(r.home[c], 0);
    var t: nat, i: nat :| (t, i) in w.seen && PairHas(r, t, i, p);
    assert LeafAt(r, w, a, t, i) && TableOk(r.tab, r.home, c);
    Aligned(r.home[c]);
    assert p < a;
    forall u | u in TablesTo(r.tab, r.home, p)
      ensures u in w.copy
    {
      assert TableAt(r, w, a, l, u);
    }
  }

  lemma Aligned(h: Place)
    requires h.lvl <= 3
    ensures AddrOf(h, 0) % 512 == 0
  {
    assert AddrOf(h, 0) == 512 * (h.block * Wide(h.lvl));
  }

  lemma OthersDoNot(r: Job, w: Work, pages: set<nat>, c: nat, l: nat, p: nat)
    requires JobOk(r) && PagesSeen(r, w.seen, pages) && p !in pages && p < TOP && View(r.tab, r.pd, p).Leaf?
    requires c in r.tab && c in r.home && Front(r, w, AddrOf(r.home[c], 0), l) && w.copy.Keys <= r.tab.Keys
    ensures w.copy.Keys + {c} <= TablesTo(r.tab, r.home, p)
  {
    var a := AddrOf(r.home[c], 0);
    var t, i := PairExists(r, p);
    assert (t, i) !in w.seen;
    assert LeafAt(r, w, a, t, i);
    assert a <= p;
    forall u | u in w.copy
      ensures u in TablesTo(r.tab, r.home, p)
    {
      assert TableOk(r.tab, r.home, u) && TableAt(r, w, a, l, u);
    }
  }

  /** With no frame for table `c`, the pages done are those that come before it. */
  lemma FrontStop(r: Job, w: Work, pages: set<nat>, c: nat, l: nat)
    requires JobOk(r) && PagesSeen(r, w.seen, pages) && c in r.tab && c in r.home && c !in w.copy
    requires Front(r, w, AddrOf(r.home[c], 0), l) && w.copy.Keys <= r.tab.Keys && |w.copy| == r.s0.free
    requires forall p: nat :: Key(r.pd, p) in r.s0.pt <==> p < TOP && View(r.tab, r.pd, p).Leaf?
    requires forall p | p in pages :: Key(r.pd, p) in r.s0.pt
    ensures Stopped(r, pages)
  {
    assert |w.copy| == |w.copy.Keys|;
    hide Front, JobOk, PagesSeen, TablesTo, View;
    forall p: nat
      ensures p in pages <==> Key(r.pd, p) in r.s0.pt && Comes(r.tab, r.home, r.s0.free, p)
    {
      if p in pages {
        DoneComes(r, w, pages, c, l, p);
        Subset(TablesTo(r.tab, r.home, p), w.copy.Keys);
      } else if Key(r.pd, p) in r.s0.pt {
        OthersDoNot(r, w, pages, c, l, p);
        Subset(w.copy.Keys + {c}, TablesTo(r.tab, r.home, p));
      }
    }
  }
}

/**
  The four-level page table of one address space as a flat map from page to entry.

  A page number is split into four indices of nine bits. Level 3 is the root, level 0 holds the
  entries of single pages. An entry of level 1 may be a marker instead of a link: it stands for
  512 reserved pages without access.
  */
module PageTree {
  import opened VmState

  datatype Slot = Zero | Link(child: nat) | Leaf(e: Entry)

  type Tables = map<nat, seq<Slot>>

  /** The place of a table: its level, and the block of pages below it. */
  datatype Place = Place(lvl: nat, block: nat)

  const MARK: Slot := Leaf(Lazy(false, false))

  /** Block number `k` levels up. */
  function Up(x: nat, k: nat): nat {
    if k == 0 then x else Up(x / 512, k - 1)
  }

  function EntryIn(tab: Tables, t: nat, i: nat): Slot {
    if t in tab && i < |tab[t]| then tab[t][i] else Zero
  }

  /** The entry of level `l` for block `x` of that level, as the walk from the root finds it. */
  function EntryAt(tab: Tables, pd: nat, x: nat, l: nat): Slot
    requires l <= 3
    decreases 3 - l
  {
    if l == 3 then EntryIn(tab, pd, x % 512)
    else
      match EntryAt(tab, pd, x / 512, l + 1)
      case Zero => Zero
      case Link(c) => EntryIn(tab, c, x % 512)
      case Leaf(e) => if l == 0 then Leaf(e) else Zero
  }

  /** The flat map. */
  function View(tab: Tables, pd: nat, p: nat): Slot {
    EntryAt(tab, pd, p, 0)
  }

  // ---------- well-formed tables ----------

  ghost predicate PteOk(tab: Tables, home: map<nat, Place>, h: Place, i: nat, e: Slot) {
    match e
    case Zero => true
    case Link(c) => h.lvl > 0 && c in tab && c in home && home[c] == Place(h.lvl - 1, h.block * 512 + i)
    case Leaf(_) => h.lvl == 0 || (h.lvl == 1 && e == MARK)
  }

  ghost predicate TableOk(tab: Tables, home: map<nat, Place>, t: nat) {
    t in tab ==>
      && t in home && home[t].lvl <= 3 && |tab[t]| == 512
      && Up(home[t].block, 3 - home[t].lvl) == 0
      && forall i | 0 <= i < 512 :: PteOk(tab, home, home[t], i, tab[t][i])
  }

  /** The walk to the place of `t` ends in `t`. */
  ghost predicate Linked(tab: Tables, home: map<nat, Place>, pd: nat, t: nat) {
    t in tab && t != pd ==> t in home && home[t].lvl < 3 && EntryAt(tab, pd, home[t].block, home[t].lvl + 1) == Link(t)
  }

  ghost predicate Ok(tab: Tables, home: map<nat, Place>, pd: nat) {
    && pd in tab && pd in home && home[pd] == Place(3, 0)
    && (forall t :: TableOk(tab, home, t))
    && (forall t :: Linked(tab, home, pd, t))
  }

  lemma OnePlace(tab: Tables, home: map<nat, Place>, pd: nat, t: nat, u: nat)
    requires Ok(tab, home, pd) && t in tab && u in tab && t in home && u in home && home[t] == home[u]
    ensures t == u
  {
    assert Linked(tab, home, pd, t) && Linked(tab, home, pd, u);
  }

  /** Entry `i` of table `t` is the one the walk finds for its block. */
  lemma AtTable(tab: Tables, home: map<nat, Place>, pd: nat, t: nat, i: nat)
    requires Ok(tab, home, pd) && t in tab && i < 512
    ensures t in home && home[t].lvl <= 3 && Up(home[t].block * 512 + i, 4 - home[t].lvl) == 0
    ensures EntryAt(tab, pd, home[t].block * 512 + i, home[t].lvl) == EntryIn(tab, t, i)
  {
    assert TableOk(tab, home, t) && Linked(tab, home, pd, t);
    var x := home[t].block * 512 + i;
    assert x / 512 == home[t].block && x % 512 == i;
  }

  /** Below an entry without a table there are no tables. */
  lemma {:induction false} NothingBelow(tab: Tables, pd: nat, x: nat, l: nat, L: nat)
    requires 1 <= l <= L <= 3 && !EntryAt(tab, pd, Up(x, L - l), L).Link?
    ensures !EntryAt(tab, pd, x, l).Link?
    decreases L - l
  {
    if l < L { NothingBelow(tab, pd, x / 512, l + 1, L); }
  }

  /** What the walk finds, and where the next table belongs. */
  lemma {:induction false} Reach(tab: Tables, home: map<nat, Place>, pd: nat, x: nat, l: nat)
    requires Ok(tab, home, pd) && l <= 3 && Up(x, 4 - l) == 0
    ensures PteOk(tab, home, Place(l, x / 512), x % 512, EntryAt(tab, pd, x, l))
      || (l == 0 && EntryAt(tab, pd, x, l) == MARK)
    ensures EntryAt(tab, pd, x, l).Link? ==> l > 0 && home[EntryAt(tab, pd, x, l).child] == Place(l - 1, x)
    decreases 3 - l
  {
    if l == 3 {
      assert Up(x / 512, 0) == 0;
      assert TableOk(tab, home, pd);
    } else {
      Reach(tab, home, pd, x / 512, l + 1);
      var e := EntryAt(tab, pd, x / 512, l + 1);
      if e.Link? { assert TableOk(tab, home, e.child); }
    }
  }

  /** Block `x` of level `l` lies below entry `i` of a table at `h`. */
  predicate Below(x: nat, l: nat, h: Place, i: nat) {
    l <= h.lvl && Up(x, h.lvl - l) == h.block * 512 + i
  }

  ghost predicate SameBut(tab: Tables, tab': Tables, t: nat, i: nat) {
    forall u, j | u in tab && !(u == t && j == i) :: EntryIn(tab', u, j) == EntryIn(tab, u, j)
  }

  /** A change of one entry is seen only below that entry. */
  lemma {:induction false} ChangeLocal(tab: Tables, tab': Tables, home: map<nat, Place>, pd: nat, t: nat, i: nat,
      x: nat, l: nat)
    requires Ok(tab, home, pd) && t in tab && l <= 3 && Up(x, 4 - l) == 0
    requires SameBut(tab, tab', t, i) && TableOk(tab, home, t) && !Below(x, l, home[t], i)
    ensures EntryAt(tab', pd, x, l) == EntryAt(tab, pd, x, l)
    decreases 3 - l
  {
    if l == 3 {
      assert Up(x / 512, 0) == 0;
    } else {
      Reach(tab, home, pd, x / 512, l + 1);
      ChangeLocal(tab, tab', home, pd, t, i, x / 512, l + 1);
      var e := EntryAt(tab, pd, x / 512, l + 1);
      if e.Link? && home[e.child] == home[t] { OnePlace(tab, home, pd, e.child, t); }
    }
  }

  lemma UserBlocks(p: nat)
    requires p < TOP
    ensures Up(p, 4) == 0 && Up(p / 512, 3) == 0 && Up(p / 512 / 512, 2) == 0 && Up(p / 512 / 512 / 512, 1) == 0
    ensures Up(p, 3) == p / 512 / 512 / 512 && Up(p, 2) == p / 512 / 512 && Up(p, 1) == p / 512
  {
    assert Up(p / 512 / 512 / 512 / 512, 0) == 0;
  }

  ghost predicate SameViews(tab: Tables, tab': Tables, pd: nat) {
    forall p | 0 <= p < TOP :: View(tab', pd, p) == View(tab, pd, p)
  }

  // ---------- single changes ----------

  function Put(tab: Tables, t: nat, i: nat, e: Slot): Tables
    requires t in tab && i < |tab[t]|
  {
    tab[t := tab[t][i := e]]
  }

  /** Tables stay linked when an entry without a table changes. */
  lemma StaysLinked(tab: Tables, tab': Tables, home: map<nat, Place>, pd: nat, t: nat, i: nat, u: nat)
    requires Ok(tab, home, pd) && t in tab && t in home && i < 512 && !EntryIn(tab, t, i).Link?
      && SameBut(tab, tab', t, i)
    requires u in tab && u != pd
    ensures u in home && home[u].lvl < 3 && EntryAt(tab', pd, home[u].block, home[u].lvl + 1) == Link(u)
  {
    assert TableOk(tab, home, u) && TableOk(tab, home, t) && Linked(tab, home, pd, u);
    AtTable(tab, home, pd, t, i);
    if Below(home[u].block, home[u].lvl + 1, home[t], i) {
      NothingBelow(tab, pd, home[u].block, home[u].lvl + 1, home[t].lvl);
    } else {
      ChangeLocal(tab, tab', home, pd, t, i, home[u].block, home[u].lvl + 1);
    }
  }

  lemma PutOk(tab: Tables, home: map<nat, Place>, pd: nat, t: nat, i: nat, e: Slot)
    requires Ok(tab, home, pd) && t in tab && TableOk(tab, home, t) && i < 512 && PteOk(tab, home, home[t], i, e)
    requires !tab[t][i].Link?
    ensures Ok(Put(tab, t, i, e), home, pd) && SameBut(tab, Put(tab, t, i, e), t, i)
  {
    var tab' := Put(tab, t, i, e);
    forall u
      ensures TableOk(tab', home, u)
    {
      assert TableOk(tab, home, u);
    }
    forall u
      ensures Linked(tab', home, pd, u)
    {
      if u in tab && u != pd { StaysLinked(tab, tab', home, pd, t, i, u); }
    }
  }

  /** Writing the entry of page `p`: the flat map changes at `p` and nowhere else. */
  lemma PutLeaf(tab: Tables, home: map<nat, Place>, pd: nat, p: nat, e: Slot)
    requires Ok(tab, home, pd) && p < TOP && !e.Link? && EntryAt(tab, pd, p / 512, 1).Link?
    ensures var t := EntryAt(tab, pd, p / 512, 1).child;
            && t in tab && t in home && |tab[t]| == 512 && home[t] == Place(0, p / 512)
            && tab[t][p % 512] == View(tab, pd, p)
            && Ok(Put(tab, t, p % 512, e), home, pd)
            && (forall q | 0 <= q < TOP ::
              View(Put(tab, t, p % 512, e), pd, q) == if q == p then e else View(tab, pd, q))
            && (forall x | 0 <= x < TOP / 512 :: EntryAt(Put(tab, t, p % 512, e), pd, x, 1) == EntryAt(tab, pd, x, 1))
  {
    UserBlocks(p);
    Reach(tab, home, pd, p / 512, 1);
    var t := EntryAt(tab, pd, p / 512, 1).child;
    assert TableOk(tab, home, t);
    PutOk(tab, home, pd, t, p % 512, e);
    var tab' := Put(tab, t, p % 512, e);
    forall x | 0 <= x < TOP / 512
      ensures EntryAt(tab', pd, x, 1) == EntryAt(tab, pd, x, 1)
    {
      UserBlocks(x * 512);
      ChangeLocal(tab, tab', home, pd, t, p % 512, x, 1);
    }
    forall q | 0 <= q < TOP
      ensures View(tab', pd, q) == if q == p then e else View(tab, pd, q)
    {
      UserBlocks(q);
      if q != p { ChangeLocal(tab, tab', home, pd, t, p % 512, q, 0); }
    }
  }

  /** A marker set or taken: 512 pages change at once. */
  lemma PutMark(tab: Tables, home: map<nat, Place>, pd: nat, b: nat, e: Slot)
    requires Ok(tab, home, pd) && b < TOP / 512 && EntryAt(tab, pd, b / 512, 2).Link?
    requires EntryAt(tab, pd, b, 1) in {Zero, MARK} && e in {Zero, MARK}
    ensures var t := EntryAt(tab, pd, b / 512, 2).child;
            && t in tab && t in home && |tab[t]| == 512 && home[t] == Place(1, b / 512)
            && tab[t][b % 512] == EntryAt(tab, pd, b, 1)
            && Ok(Put(tab, t, b % 512, e), home, pd)
            && (forall q | 0 <= q < TOP ::
              View(Put(tab, t, b % 512, e), pd, q) == if q / 512 == b then e else View(tab, pd, q))
            && (forall x | 0 <= x < TOP / 512 && x != b ::
              EntryAt(Put(tab, t, b % 512, e), pd, x, 1) == EntryAt(tab, pd, x, 1))
            && EntryAt(Put(tab, t, b % 512, e), pd, b, 1) == e
            && EntryAt(Put(tab, t, b % 512, e), pd, b / 512, 2) == Link(t)
  {
    UserBlocks(b * 512);
    Reach(tab, home, pd, b / 512, 2);
    var t := EntryAt(tab, pd, b / 512, 2).child;
    assert TableOk(tab, home, t);
    PutOk(tab, home, pd, t, b % 512, e);
    var tab' := Put(tab, t, b % 512, e);
    ChangeLocal(tab, tab', home, pd, t, b % 512, b / 512, 2);
    forall x | 0 <= x < TOP / 512 && x != b
      ensures EntryAt(tab', pd, x, 1) == EntryAt(tab, pd, x, 1)
    {
      UserBlocks(x * 512);
      ChangeLocal(tab, tab', home, pd, t, b % 512, x, 1);
    }
    forall q | 0 <= q < TOP
      ensures View(tab', pd, q) == if q / 512 == b then e else View(tab, pd, q)
    {
      UserBlocks(q);
      if q / 512 != b { ChangeLocal(tab, tab', home, pd, t, b % 512, q, 0); }
    }
  }

  /** A new table in place of an empty entry or of a marker: nobody sees a difference. */
  function Grown(tab: Tables, t: nat, i: nat, n: nat): Tables
    requires t in tab && i < |tab[t]|
  {
    tab[n := seq(512, _ => tab[t][i])][t := tab[t][i := Link(n)]]
  }

  lemma GrowOk(tab: Tables, home: map<nat, Place>, pd: nat, t: nat, i: nat, n: nat)
    requires Ok(tab, home, pd) && t in tab && t in home && |tab[t]| == 512 && i < 512 && home[t].lvl > 0
    requires n !in tab && !tab[t][i].Link?
    ensures Ok(Grown(tab, t, i, n), home[n := Place(home[t].lvl - 1, home[t].block * 512 + i)], pd)
    ensures SameBut(tab, Grown(tab, t, i, n), t, i)
  {
    var tab' := Grown(tab, t, i, n);
    var home' := home[n := Place(home[t].lvl - 1, home[t].block * 512 + i)];
    AtTable(tab, home, pd, t, i);
    forall u
      ensures TableOk(tab', home', u)
    {
      assert TableOk(tab, home, u) && TableOk(tab, home, t);
    }
    forall u
      ensures Linked(tab', home', pd, u)
    {
      if u in tab && u != pd { StaysLinked(tab, tab', home, pd, t, i, u); }
      if u == n { NewLinked(tab, home, pd, t, i, n); }
    }
  }

  lemma NewLinked(tab: Tables, home: map<nat, Place>, pd: nat, t: nat, i: nat, n: nat)
    requires Ok(tab, home, pd) && t in tab && t in home && |tab[t]| == 512 && i < 512 && 0 < home[t].lvl <= 3
    requires n !in tab && SameBut(tab, Grown(tab, t, i, n), t, i)
    ensures EntryAt(Grown(tab, t, i, n), pd, home[t].block * 512 + i, home[t].lvl) == Link(n)
  {
    assert TableOk(tab, home, t) && Linked(tab, home, pd, t);
    var x := home[t].block * 512 + i;
    assert x / 512 == home[t].block && x % 512 == i;
    if home[t].lvl < 3 { ChangeLocal(tab, Grown(tab, t, i, n), home, pd, t, i, x / 512, home[t].lvl + 1); }
  }

  /** Below an entry that is empty, everything is empty. */
  lemma {:induction false} EmptyBelow(tab: Tables, pd: nat, x: nat, l: nat, L: nat)
    requires l <= L <= 3 && EntryAt(tab, pd, Up(x, L - l), L) == Zero
    ensures EntryAt(tab, pd, x, l) == Zero
    decreases L - l
  {
    if l < L { EmptyBelow(tab, pd, x / 512, l + 1, L); }
  }

  /** So a new table, whose entries are all what the entry was, changes no page. */
  lemma GrowViews(tab: Tables, home: map<nat, Place>, pd: nat, t: nat, i: nat, n: nat)
    requires Ok(tab, home, pd) && t in tab && t in home && |tab[t]| == 512 && i < 512 && 0 < home[t].lvl <= 3
    requires n !in tab && !tab[t][i].Link?
    ensures SameViews(tab, Grown(tab, t, i, n), pd)
  {
    var tab' := Grown(tab, t, i, n);
    GrowOk(tab, home, pd, t, i, n);
    AtTable(tab, home, pd, t, i);
    NewLinked(tab, home, pd, t, i, n);
    assert TableOk(tab, home, t);
    var y := home[t].block * 512 + i;
    forall q | 0 <= q < TOP
      ensures View(tab', pd, q) == View(tab, pd, q)
    {
      UserBlocks(q);
      if Below(q, 0, home[t], i) {
        GrownBelow(tab, tab', pd, y, home[t].lvl, n, q);
      } else {
        ChangeLocal(tab, tab', home, pd, t, i, q, 0);
      }
    }
  }

  lemma GrownBelow(tab: Tables, tab': Tables, pd: nat, y: nat, L: nat, n: nat, q: nat)
    requires 0 < L <= 3 && Up(q, L) == y && EntryAt(tab', pd, y, L) == Link(n)
    requires EntryAt(tab, pd, y, L) == Zero || (L == 1 && EntryAt(tab, pd, y, L).Leaf?)
    requires forall j | 0 <= j < 512 :: EntryIn(tab', n, j) == EntryAt(tab, pd, y, L)
    ensures View(tab', pd, q) == View(tab, pd, q)
  {
    if L > 1 {
      EmptyBelow(tab, pd, q, 0, L);
      UpSplit(q, L);
      assert EntryAt(tab', pd, Up(q, L - 1), L - 1) == Zero;
      EmptyBelow(tab', pd, q, 0, L - 1);
    }
  }

  lemma {:induction false} UpSplit(q: nat, k: nat)
    requires k > 0
    ensures Up(q, k) == Up(q, k - 1) / 512
  {
    if k > 1 { UpSplit(q / 512, k - 1); }
  }

  /** And of the markers it takes only the one it stands for. */
  lemma GrowMarks(tab: Tables, home: map<nat, Place>, pd: nat, t: nat, i: nat, n: nat, x: nat)
    requires Ok(tab, home, pd) && t in tab && t in home && |tab[t]| == 512 && i < 512 && 0 < home[t].lvl <= 3
    requires n !in tab && !tab[t][i].Link? && x < TOP / 512
    ensures EntryAt(Grown(tab, t, i, n), pd, x, 1) == MARK
            <==> EntryAt(tab, pd, x, 1) == MARK && !(home[t].lvl == 1 && x == home[t].block * 512 + i)
    ensures home[t].lvl > 1 ==> EntryAt(Grown(tab, t, i, n), pd, x, 1) == EntryAt(tab, pd, x, 1)
  {
    var tab' := Grown(tab, t, i, n);
    UserBlocks(x * 512);
    GrowOk(tab, home, pd, t, i, n);
    AtTable(tab, home, pd, t, i);
    NewLinked(tab, home, pd, t, i, n);
    assert TableOk(tab, home, t);
    if Below(x, 1, home[t], i) {
      if home[t].lvl > 1 {
        UpSplit(x, home[t].lvl - 1);
        assert EntryAt(tab', pd, Up(x, home[t].lvl - 2), home[t].lvl - 1) == Zero;
        EmptyBelow(tab', pd, x, 1, home[t].lvl - 1);
        EmptyBelow(tab, pd, x, 1, home[t].lvl);
      }
    } else {
      ChangeLocal(tab, tab', home, pd, t, i, x, 1);
    }
  }
}

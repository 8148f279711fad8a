/**
  The copy that a fork makes of a page table tree: one new table per table, links to the new tables,
  markers as they are, and single entries the way a fork leaves them. Which entries have been copied
  so far is a set of places; a table lies under another one when its block does.
  */
module TreeCopy {
  import opened VmState
  import opened VmOps
  import opened PageTree

  /** The tables of the parent before the fork, and the root of the child. */
  datatype Job = Job(s0: State, tab: Tables, home: map<nat, Place>, pd: nat, child: nat)

  /** Both trees, which new table stands for which, and the entries that were copied. */
  datatype Work = Work(tab: Tables, ctab: Tables, copy: map<nat, nat>, seen: set<(nat, nat)>)

  /** The upper half of the root belongs to the kernel and is not part of the tree. */
  predicate UserOnly(tab: Tables, pd: nat) {
    pd in tab && |tab[pd]| == 512 && forall i | 256 <= i < 512 :: tab[pd][i] == Zero
  }

  ghost predicate JobOk(r: Job) {
    Ok(r.tab, r.home, r.pd) && UserOnly(r.tab, r.pd)
  }

  /** An entry as the fork leaves it in the parent, and as it is in the child. */
  function ForkSlot(r: Job, e: Slot): Slot {
    if e.Leaf? then Leaf(Forked(r.s0, e.e)) else e
  }

  function Copied(r: Job, copy: map<nat, nat>, e: Slot): Slot {
    if e.Link? then (if e.child in copy then Link(copy[e.child]) else Zero) else ForkSlot(r, e)
  }

  // ---------- what is under what ----------

  /** Table `u` lies under table `t`, or is `t`. */
  ghost predicate Under(r: Job, u: nat, t: nat) {
    && u in r.tab && t in r.tab && u in r.home && t in r.home && r.home[u].lvl <= r.home[t].lvl
    && Up(r.home[u].block, r.home[t].lvl - r.home[u].lvl) == r.home[t].block
  }

  /** And it hangs on entry `i` of `t`. */
  ghost predicate Hangs(r: Job, u: nat, t: nat, i: nat) {
    && Under(r, u, t) && r.home[u].lvl < r.home[t].lvl
    && Up(r.home[u].block, r.home[t].lvl - 1 - r.home[u].lvl) == r.home[t].block * 512 + i
  }

  ghost predicate HangsBelow(r: Job, u: nat, t: nat, n: nat) {
    exists i | 0 <= i < n :: Hangs(r, u, t, i)
  }

  lemma UnderSelf(r: Job, t: nat)
    requires JobOk(r) && t in r.tab
    ensures t in r.home && Under(r, t, t)
  {
    assert TableOk(r.tab, r.home, t);
  }

  /** Everything under `t` but `t` itself hangs on one of its entries. */
  lemma UnderHangs(r: Job, u: nat, t: nat)
    requires JobOk(r) && Under(r, u, t) && u != t
    ensures HangsBelow(r, u, t, 512)
  {
    if r.home[u].lvl == r.home[t].lvl { OnePlace(r.tab, r.home, r.pd, u, t); }
    var x := Up(r.home[u].block, r.home[t].lvl - 1 - r.home[u].lvl);
    UpSplit(r.home[u].block, r.home[t].lvl - r.home[u].lvl);
    assert Hangs(r, u, t, x % 512);
  }

  /** What hangs on entry `i` is what lies under the table that the entry links. */
  lemma LinkUnder(r: Job, t: nat, i: nat, u: nat)
    requires JobOk(r) && t in r.tab && i < 512 && EntryIn(r.tab, t, i).Link?
    ensures var c := EntryIn(r.tab, t, i).child;
            && c in r.tab && c != t && Hangs(r, c, t, i)
            && (Under(r, u, c) <==> Hangs(r, u, t, i))
  {
    var c := EntryIn(r.tab, t, i).child;
    assert TableOk(r.tab, r.home, t) && PteOk(r.tab, r.home, r.home[t], i, r.tab[t][i]);
    var x := r.home[t].block * 512 + i;
    assert x / 512 == r.home[t].block;
    assert Up(r.home[c].block, 0) == x && Up(r.home[c].block, 1) == Up(x / 512, 0);
    if u in r.tab && u in r.home && r.home[u].lvl < r.home[t].lvl {
      UpSplit(r.home[u].block, r.home[t].lvl - r.home[u].lvl);
    }
  }

  /** On an entry that is no link nothing hangs. */
  lemma NothingHangs(r: Job, t: nat, i: nat, u: nat)
    requires JobOk(r) && t in r.tab && i < 512 && !EntryIn(r.tab, t, i).Link?
    ensures !Hangs(r, u, t, i)
  {
    if Hangs(r, u, t, i) {
      AtTable(r.tab, r.home, r.pd, t, i);
      assert TableOk(r.tab, r.home, t) && TableOk(r.tab, r.home, u) && Linked(r.tab, r.home, r.pd, u);
      assert u != r.pd;
      NothingBelow(r.tab, r.pd, r.home[u].block, r.home[u].lvl + 1, r.home[t].lvl);
    }
  }

  lemma HangsOnce(r: Job, u: nat, t: nat, i: nat, j: nat)
    requires Hangs(r, u, t, i) && Hangs(r, u, t, j)
    ensures i == j && u != t
  {
  }

  // ---------- how far the copy has come ----------

  ghost predicate TabAt(r: Job, w: Work, t: nat, i: nat) {
    t in r.tab && i < 512 ==>
      t in w.tab && |w.tab[t]| == 512 && w.tab[t][i] == if (t, i) in w.seen then ForkSlot(r, EntryIn(r.tab, t, i))
        else EntryIn(r.tab, t, i)
  }

  ghost predicate CopyAt(r: Job, w: Work, t: nat, i: nat) {
    t in w.copy && i < 512 ==>
      && t in r.tab && w.copy[t] in w.ctab && |w.ctab[w.copy[t]]| == 512
      && w.ctab[w.copy[t]][i] == if (t, i) in w.seen then Copied(r, w.copy, EntryIn(r.tab, t, i)) else Zero
  }

  /** What was copied belongs to a table that has a copy, and so does the table it links. */
  ghost predicate SeenAt(r: Job, w: Work, t: nat, i: nat) {
    (t, i) in w.seen ==>
      t in r.tab && i < 512 && t in w.copy
      && (EntryIn(r.tab, t, i).Link? ==> EntryIn(r.tab, t, i).child in w.copy)
  }

  ghost predicate IsCopy(w: Work, n: nat) {
    exists t | t in w.copy :: w.copy[t] == n
  }

  ghost predicate Faithful(r: Job, w: Work) {
    && w.tab.Keys == r.tab.Keys && r.pd in w.copy && w.copy[r.pd] == r.child
    && (forall n | n in w.ctab :: IsCopy(w, n))
    && (forall a, b | a in w.copy && b in w.copy && a != b :: w.copy[a] != w.copy[b])
    && (forall t, i :: TabAt(r, w, t, i))
    && (forall t, i :: CopyAt(r, w, t, i))
    && (forall t, i :: SeenAt(r, w, t, i))
    && (forall u: nat :: LinkSeen(r, w, u))
  }

  /** A table with a copy hangs on an entry that was copied. */
  ghost predicate LinkSeen(r: Job, w: Work, u: nat) {
    u in w.copy && u != r.pd ==> exists t: nat, i: nat :: (t, i) in w.seen && EntryIn(r.tab, t, i) == Link(u)
  }

  lemma LinkSeenOn(r: Job, w: Work, w': Work, u: nat)
    requires LinkSeen(r, w, u) && w.seen <= w'.seen && (u in w'.copy ==> u in w.copy)
    ensures LinkSeen(r, w', u)
  {
    if u in w'.copy && u != r.pd {
      var t: nat, i: nat :| (t, i) in w.seen && EntryIn(r.tab, t, i) == Link(u);
      assert (t, i) in w'.seen;
    }
  }

  function Blank(): (z: seq<Slot>)
    ensures |z| == 512 && forall i | 0 <= i < 512 :: z[i] == Zero
  {
    seq(512, _ => Zero)
  }

  /** The child has a root, and nothing was copied. */
  lemma FaithfulStart(r: Job)
    requires JobOk(r)
    ensures Faithful(r, Work(r.tab, map[r.child := Blank()], map[r.pd := r.child], {}))
  {
    var w := Work(r.tab, map[r.child := Blank()], map[r.pd := r.child], {});
    forall t, i
      ensures TabAt(r, w, t, i)
    {
      assert TableOk(r.tab, r.home, t);
    }
    assert w.copy[r.pd] == r.child;
  }

  /** One entry that is no link goes over. */
  function Over(r: Job, w: Work, t: nat, i: nat): Work
    requires t in w.tab && i < |w.tab[t]| && t in w.copy && w.copy[t] in w.ctab && i < |w.ctab[w.copy[t]]|
  {
    var e := ForkSlot(r, EntryIn(r.tab, t, i));
    Work(Put(w.tab, t, i, e), Put(w.ctab, w.copy[t], i, e), w.copy, w.seen + {(t, i)})
  }

  lemma FaithfulOver(r: Job, w: Work, t: nat, i: nat)
    requires Faithful(r, w) && t in w.copy && i < 512 && !EntryIn(r.tab, t, i).Link?
    ensures t in r.tab && t in w.tab && |w.tab[t]| == 512 && w.copy[t] in w.ctab && |w.ctab[w.copy[t]]| == 512
    ensures Faithful(r, Over(r, w, t, i))
  {
    assert CopyAt(r, w, t, i) && TabAt(r, w, t, i);
    var w' := Over(r, w, t, i);
    forall u, j
      ensures TabAt(r, w', u, j) && CopyAt(r, w', u, j) && SeenAt(r, w', u, j)
    {
      assert TabAt(r, w, u, j) && CopyAt(r, w, u, j) && SeenAt(r, w, u, j);
    }
    forall u: nat ensures LinkSeen(r, w', u) { LinkSeenOn(r, w, w', u); }
  }

  /** A table for the child, linked where the parent links its own. */
  function Hung(r: Job, w: Work, t: nat, i: nat, n: nat): Work
    requires t in w.copy && w.copy[t] in w.ctab && i < |w.ctab[w.copy[t]]| && n !in w.ctab && EntryIn(r.tab, t, i).Link?
  {
    Work(w.tab, Put(w.ctab[n := Blank()], w.copy[t], i, Link(n)), w.copy[EntryIn(r.tab, t, i).child := n],
      w.seen + {(t, i)})
  }

  lemma FaithfulHung(r: Job, w: Work, t: nat, i: nat, n: nat)
    requires JobOk(r) && Faithful(r, w) && t in w.copy && i < 512 && EntryIn(r.tab, t, i).Link?
    requires EntryIn(r.tab, t, i).child !in w.copy && n !in w.ctab && Untouched(w, EntryIn(r.tab, t, i).child)
    ensures w.copy[t] in w.ctab && |w.ctab[w.copy[t]]| == 512 && Faithful(r, Hung(r, w, t, i, n))
  {
    var c := EntryIn(r.tab, t, i).child;
    assert CopyAt(r, w, t, i) && TabAt(r, w, t, i);
    LinkUnder(r, t, i, t);
    var w' := Hung(r, w, t, i, n);
    forall m | m in w'.ctab
      ensures IsCopy(w', m)
    {
      if m == n { assert w'.copy[c] == n; } else {
        assert IsCopy(w, m);
        var u :| u in w.copy && w.copy[u] == m;
        assert w'.copy[u] == m;
      }
    }
    forall u, j
      ensures TabAt(r, w', u, j) && SeenAt(r, w', u, j)
    {
      assert TabAt(r, w, u, j) && SeenAt(r, w, u, j);
    }
    forall u, j
      ensures CopyAt(r, w', u, j)
    {
      HungAt(r, w, t, i, n, u, j);
    }
    forall u: nat
      ensures LinkSeen(r, w', u)
    {
      if u == c { assert (t, i) in w'.seen; } else { LinkSeenOn(r, w, w', u); }
    }
    forall a, b | a in w'.copy && b in w'.copy && a != b
      ensures w'.copy[a] != w'.copy[b]
    {
      assert CopyAt(r, w, a, 0) && CopyAt(r, w, b, 0);
    }
  }

  /** Nothing of table `c` was copied. */
  ghost predicate Untouched(w: Work, c: nat) {
    forall j :: (c, j) !in w.seen
  }

  lemma HungAt(r: Job, w: Work, t: nat, i: nat, n: nat, u: nat, j: nat)
    requires Faithful(r, w) && t in w.copy && i < 512 && EntryIn(r.tab, t, i).Link?
      && EntryIn(r.tab, t, i).child in r.tab
    requires EntryIn(r.tab, t, i).child !in w.copy && n !in w.ctab && Untouched(w, EntryIn(r.tab, t, i).child)
    requires w.copy[t] in w.ctab && |w.ctab[w.copy[t]]| == 512
    ensures CopyAt(r, Hung(r, w, t, i, n), u, j)
  {
    assert CopyAt(r, w, u, j) && SeenAt(r, w, u, j) && CopyAt(r, w, t, i);
  }

  // ---------- which entries are done ----------

  /** Since `seen0` the first `n` entries of `t` were copied, and all that hangs on them. */
  ghost predicate Covers(r: Job, seen0: set<(nat, nat)>, seen: set<(nat, nat)>, t: nat, n: nat) {
    forall u: nat, j: nat ::
      (u, j) in seen <==> (u, j) in seen0 || (u in r.tab && j < 512 && ((u == t && j < n) || HangsBelow(r, u, t, n)))
  }

  ghost predicate CoversTables(r: Job, copy0: map<nat, nat>, copy: map<nat, nat>, t: nat, n: nat) {
    && (forall u: nat :: u in copy <==> u in copy0 || HangsBelow(r, u, t, n))
    && (forall u | u in copy0 :: u in copy && copy[u] == copy0[u])
  }

  /** The work went on from `w0` to `w` at table `t`. */
  ghost predicate Went(r: Job, w0: Work, w: Work, t: nat, n: nat) {
    Covers(r, w0.seen, w.seen, t, n) && CoversTables(r, w0.copy, w.copy, t, n)
  }

  /** Table `t` has a copy, and nothing else was done under it. */
  ghost predicate Fresh(r: Job, w: Work, t: nat) {
    t in w.copy && t in r.tab && forall u | Under(r, u, t) :: Untouched(w, u) && (u != t ==> u !in w.copy)
  }

  lemma WentNowhere(r: Job, w: Work, t: nat)
    ensures Went(r, w, w, t, 0)
  {
  }

  lemma HangsNext(r: Job, u: nat, t: nat, i: nat)
    ensures HangsBelow(r, u, t, i + 1) <==> HangsBelow(r, u, t, i) || Hangs(r, u, t, i)
  {
  }

  lemma WentOver(r: Job, w0: Work, w: Work, w': Work, t: nat, i: nat)
    requires JobOk(r) && t in r.tab && i < 512 && !EntryIn(r.tab, t, i).Link? && Went(r, w0, w, t, i)
    requires w'.seen == w.seen + {(t, i)} && w'.copy == w.copy
    ensures Went(r, w0, w', t, i + 1)
  {
    forall u: nat
      ensures HangsBelow(r, u, t, i + 1) <==> HangsBelow(r, u, t, i)
    {
      HangsNext(r, u, t, i);
      NothingHangs(r, t, i, u);
    }
  }

  /** Before a table is copied nothing under it was. */
  lemma NotYet(r: Job, w0: Work, w: Work, t: nat, i: nat, u: nat)
    requires JobOk(r) && Fresh(r, w0, t) && Went(r, w0, w, t, i) && Hangs(r, u, t, i)
    ensures Untouched(w, u) && u !in w.copy && u != t
  {
    if j :| 0 <= j < i && Hangs(r, u, t, j) { HangsOnce(r, u, t, i, j); }
    forall j: nat
      ensures (u, j) !in w.seen
    {
      assert Untouched(w0, u);
    }
  }

  lemma FreshBelow(r: Job, w0: Work, w: Work, t: nat, i: nat, n: nat)
    requires JobOk(r) && Fresh(r, w0, t) && Went(r, w0, w, t, i) && i < 512 && EntryIn(r.tab, t, i).Link?
    requires t in w.copy && w.copy[t] in w.ctab && i < |w.ctab[w.copy[t]]| && n !in w.ctab
    ensures var c := EntryIn(r.tab, t, i).child; c !in w.copy && Untouched(w, c) && Fresh(r, Hung(r, w, t, i, n), c)
  {
    var c := EntryIn(r.tab, t, i).child;
    LinkUnder(r, t, i, c);
    NotYet(r, w0, w, t, i, c);
    var w' := Hung(r, w, t, i, n);
    forall u | Under(r, u, c)
      ensures Untouched(w', u) && (u != c ==> u !in w'.copy)
    {
      LinkUnder(r, t, i, u);
      NotYet(r, w0, w, t, i, u);
    }
  }

  /** An entry that is a link is done when the table it links is. */
  lemma WentDown(r: Job, w0: Work, w: Work, w1: Work, w2: Work, t: nat, i: nat)
    requires JobOk(r) && t in r.tab && i < 512 && EntryIn(r.tab, t, i).Link? && Went(r, w0, w, t, i)
    requires w1.seen == w.seen + {(t, i)} && w1.copy.Keys == w.copy.Keys + {EntryIn(r.tab, t, i).child}
    requires forall u | u in w.copy :: w1.copy[u] == w.copy[u]
    requires Went(r, w1, w2, EntryIn(r.tab, t, i).child, 512)
    ensures Went(r, w0, w2, t, i + 1)
  {
    var c := EntryIn(r.tab, t, i).child;
    forall u: nat
      ensures HangsBelow(r, u, t, i + 1) <==> HangsBelow(r, u, t, i) || u == c || HangsBelow(r, u, c, 512)
    {
      HangsNext(r, u, t, i);
      LinkUnder(r, t, i, u);
      UnderSelf(r, c);
      if Under(r, u, c) && u != c { UnderHangs(r, u, c); }
    }
  }

  // ---------- the whole tree ----------

  /** Every table has its copy, and every entry went over. */
  ghost predicate Full(r: Job, w: Work) {
    forall t | t in r.tab :: t in w.copy && forall i: nat | i < 512 :: (t, i) in w.seen
  }

  /** The kernel's half of the root counts as done. */
  function Rest(r: Job, w: Work): Work {
    w.(seen := w.seen + set i: nat | 256 <= i < 512 :: (r.pd, i))
  }

  lemma FaithfulRest(r: Job, w: Work)
    requires JobOk(r) && Faithful(r, w)
    ensures Faithful(r, Rest(r, w))
  {
    var w' := Rest(r, w);
    forall t, i
      ensures TabAt(r, w', t, i) && CopyAt(r, w', t, i) && SeenAt(r, w', t, i)
    {
      assert TabAt(r, w, t, i) && CopyAt(r, w, t, i) && SeenAt(r, w, t, i);
    }
    forall u: nat ensures LinkSeen(r, w', u) { LinkSeenOn(r, w, w', u); }
  }

  lemma FullRest(r: Job, w0: Work, w: Work)
    requires JobOk(r) && Went(r, w0, w, r.pd, 256) && r.pd in w.copy
    ensures Full(r, Rest(r, w))
  {
    forall t | t in r.tab
      ensures t in w.copy && forall i: nat | i < 512 :: (t, i) in Rest(r, w).seen
    {
      assert TableOk(r.tab, r.home, t) && TableOk(r.tab, r.home, r.pd);
      if t != r.pd {
        UnderHangs(r, t, r.pd);
        var i :| 0 <= i < 512 && Hangs(r, t, r.pd, i);
        if i >= 256 { NothingHangs(r, r.pd, i, t); }
        assert HangsBelow(r, t, r.pd, 256);
      }
    }
  }

  lemma CopyEntry(r: Job, w: Work, t: nat, i: nat)
    requires Faithful(r, w) && Full(r, w) && t in r.tab && i < 512
    ensures t in w.copy && EntryIn(w.ctab, w.copy[t], i) == Copied(r, w.copy, EntryIn(r.tab, t, i))
    ensures EntryIn(w.tab, t, i) == ForkSlot(r, EntryIn(r.tab, t, i))
  {
    assert CopyAt(r, w, t, i) && TabAt(r, w, t, i);
  }

  /** The walk in the copy finds the copy of what the walk in the tree finds. */
  lemma {:induction false} CopyWalks(r: Job, w: Work, x: nat, l: nat)
    requires JobOk(r) && Faithful(r, w) && Full(r, w) && l <= 3 && Up(x, 4 - l) == 0
    ensures EntryAt(w.ctab, r.child, x, l) == Copied(r, w.copy, EntryAt(r.tab, r.pd, x, l))
    ensures EntryAt(w.tab, r.pd, x, l) == ForkSlot(r, EntryAt(r.tab, r.pd, x, l))
    decreases 3 - l
  {
    hide Faithful, Full, EntryIn, Forked;
    RootCopied(r, w);
    if l == 3 {
      CopyEntry(r, w, r.pd, x % 512);
    } else {
      CopyWalks(r, w, x / 512, l + 1);
      LinkInside(r, x / 512, l + 1);
      var e := EntryAt(r.tab, r.pd, x / 512, l + 1);
      if e.Link? { CopyEntry(r, w, e.child, x % 512); }
    }
  }

  lemma RootCopied(r: Job, w: Work)
    requires Faithful(r, w)
    ensures r.pd in w.copy && w.copy[r.pd] == r.child
  {
  }

  lemma LinkInside(r: Job, x: nat, l: nat)
    requires JobOk(r) && l <= 3 && Up(x, 4 - l) == 0
    ensures var e := EntryAt(r.tab, r.pd, x, l); (e.Link? ==> e.child in r.tab) && r.pd in r.tab
  {
    Reach(r.tab, r.home, r.pd, x, l);
  }

  // ---------- the copy, finished or not ----------

  /** What the copy of table `t` has at place `i`. */
  function SeenSlot(r: Job, w: Work, t: nat, i: nat): Slot {
    if (t, i) in w.seen then Copied(r, w.copy, EntryIn(r.tab, t, i)) else Zero
  }

  /** The table in which the walk for block `x` looks at level `l`, as the link to it. */
  function Holder(r: Job, x: nat, l: nat): Slot
    requires l <= 3
  {
    if l == 3 then Link(r.pd) else EntryAt(r.tab, r.pd, x / 512, l + 1)
  }

  /** The entry that links a copied table was copied. */
  lemma LinkDone(r: Job, w: Work, t: nat, i: nat)
    requires JobOk(r) && Faithful(r, w) && t in r.tab && i < 512 && EntryIn(r.tab, t, i).Link?
    ensures (t, i) in w.seen <==> EntryIn(r.tab, t, i).child in w.copy
  {
    var c := EntryIn(r.tab, t, i).child;
    assert TableOk(r.tab, r.home, t) && PteOk(r.tab, r.home, r.home[t], i, r.tab[t][i]) && SeenAt(r, w, t, i);
    if c in w.copy {
      assert LinkSeen(r, w, c);
      var u: nat, j: nat :| (u, j) in w.seen && EntryIn(r.tab, u, j) == Link(c);
      assert SeenAt(r, w, u, j) && TableOk(r.tab, r.home, u) && PteOk(r.tab, r.home, r.home[u], j, r.tab[u][j]);
      assert r.home[t] == r.home[u] && i == j;
      OnePlace(r.tab, r.home, r.pd, t, u);
    }
  }

  lemma SlotCopied(r: Job, w: Work, t: nat, i: nat)
    requires Faithful(r, w) && i < 512
    ensures t in w.copy ==> EntryIn(w.ctab, w.copy[t], i) == SeenSlot(r, w, t, i)
    ensures t !in w.copy ==> SeenSlot(r, w, t, i) == Zero
  {
    assert CopyAt(r, w, t, i) && SeenAt(r, w, t, i);
  }

  /** At every moment the walk in the copy finds the copies of the entries that were copied. */
  lemma {:induction false} HalfWalk(r: Job, w: Work, x: nat, l: nat)
    requires JobOk(r) && Faithful(r, w) && l <= 3 && Up(x, 4 - l) == 0
    ensures Holder(r, x, l).Link? ==> EntryAt(w.ctab, r.child, x, l) == SeenSlot(r, w, Holder(r, x, l).child, x % 512)
    ensures Holder(r, x, l) == Zero ==> EntryAt(w.ctab, r.child, x, l) == Zero
    ensures Holder(r, x, l).Leaf? ==>
      EntryAt(w.ctab, r.child, x, l) == if l == 0 then EntryAt(w.ctab, r.child, x / 512, 1) else Zero
    decreases 3 - l
  {
    RootCopied(r, w);
    if l == 3 {
      hide Faithful, JobOk;
      SlotCopied(r, w, r.pd, x % 512);
    } else {
      HalfWalk(r, w, x / 512, l + 1);
      HalfStep(r, w, x, l);
    }
  }

  lemma HalfStep(r: Job, w: Work, x: nat, l: nat)
    requires JobOk(r) && Faithful(r, w) && l < 3 && Up(x, 4 - l) == 0
    requires var h, e := Holder(r, x / 512, l + 1), EntryAt(w.ctab, r.child, x / 512, l + 1);
             && (h.Link? ==> e == SeenSlot(r, w, h.child, x / 512 % 512))
             && (h == Zero ==> e == Zero)
             && (h.Leaf? ==> e == Zero)
    ensures Holder(r, x, l).Link? ==> EntryAt(w.ctab, r.child, x, l) == SeenSlot(r, w, Holder(r, x, l).child, x % 512)
    ensures Holder(r, x, l) == Zero ==> EntryAt(w.ctab, r.child, x, l) == Zero
    ensures Holder(r, x, l).Leaf? ==>
      EntryAt(w.ctab, r.child, x, l) == if l == 0 then EntryAt(w.ctab, r.child, x / 512, 1) else Zero
  {
    var h, i := Holder(r, x / 512, l + 1), x / 512 % 512;
    HolderEntry(r, x / 512, l + 1);
    if h.Link? {
      var e := EntryIn(r.tab, h.child, i);
      assert e == EntryAt(r.tab, r.pd, x / 512, l + 1) == Holder(r, x, l);
      MarkStays(r);
      if e.Link? {
        LinkDone(r, w, h.child, i);
        SlotCopied(r, w, e.child, x % 512);
      }
    }
  }

  lemma HolderEntry(r: Job, x: nat, l: nat)
    requires JobOk(r) && 1 <= l <= 3 && Up(x, 4 - l) == 0
    ensures var h := Holder(r, x, l);
            && (h.Link? ==> h.child in r.tab && EntryAt(r.tab, r.pd, x, l) == EntryIn(r.tab, h.child, x % 512))
            && (!h.Link? ==> EntryAt(r.tab, r.pd, x, l) == Zero)
            && (EntryAt(r.tab, r.pd, x, l).Leaf? ==> l == 1 && EntryAt(r.tab, r.pd, x, l) == MARK)
  {
    Reach(r.tab, r.home, r.pd, x, l);
    if l < 3 { Reach(r.tab, r.home, r.pd, x / 512, l + 1); }
  }

  ghost function Orig(w: Work, n: nat): (t: nat)
    requires IsCopy(w, n)
    ensures t in w.copy && w.copy[t] == n
  {
    var t :| t in w.copy && w.copy[t] == n; t
  }

  /** The places of the new tables are those of the old ones. */
  ghost function Homes(r: Job, w: Work): map<nat, Place>
    requires forall n | n in w.ctab :: IsCopy(w, n)
    requires forall t | t in w.copy :: t in r.home
  {
    map n | n in w.ctab :: r.home[Orig(w, n)]
  }

  lemma CopyHome(r: Job, w: Work, t: nat)
    requires JobOk(r) && Faithful(r, w) && t in w.copy
    ensures t in r.home && w.copy[t] in w.ctab && |w.ctab[w.copy[t]]| == 512 && Orig(w, w.copy[t]) == t
  {
    assert CopyAt(r, w, t, 0) && TableOk(r.tab, r.home, t);
  }

  lemma AllHomes(r: Job, w: Work)
    requires JobOk(r) && Faithful(r, w)
    ensures forall t | t in w.copy :: t in r.home
  {
    forall t | t in w.copy ensures t in r.home { CopyHome(r, w, t); }
  }

  /** The copy is a well-formed tree of its own, finished or not. */
  lemma CopyOk(r: Job, w: Work)
    requires JobOk(r) && Faithful(r, w)
    ensures forall t | t in w.copy :: t in r.home
    ensures Ok(w.ctab, Homes(r, w), r.child) && UserOnly(w.ctab, r.child)
  {
    AllHomes(r, w);
    var h := Homes(r, w);
    CopyHome(r, w, r.pd);
    forall n
      ensures TableOk(w.ctab, h, n) && Linked(w.ctab, h, r.child, n)
    {
      if n in w.ctab { CopyTableOk(r, w, n); }
    }
    forall i | 256 <= i < 512
      ensures w.ctab[r.child][i] == Zero
    {
      assert CopyAt(r, w, r.pd, i);
    }
  }

  lemma CopyLinked(r: Job, w: Work, t: nat)
    requires JobOk(r) && Faithful(r, w) && t in w.copy && t != r.pd
    ensures t in r.home && r.home[t].lvl < 3
    ensures EntryAt(w.ctab, r.child, r.home[t].block, r.home[t].lvl + 1) == Link(w.copy[t])
  {
    assert CopyAt(r, w, t, 0);
    assert TableOk(r.tab, r.home, t) && Linked(r.tab, r.home, r.pd, t);
    var x, l := r.home[t].block, r.home[t].lvl + 1;
    HalfWalk(r, w, x, l);
    HolderEntry(r, x, l);
    LinkDone(r, w, Holder(r, x, l).child, x % 512);
  }

  lemma CopyTableOk(r: Job, w: Work, n: nat)
    requires JobOk(r) && Faithful(r, w) && n in w.ctab && forall t | t in w.copy :: t in r.home
    ensures TableOk(w.ctab, Homes(r, w), n) && Linked(w.ctab, Homes(r, w), r.child, n)
  {
    var h, t := Homes(r, w), Orig(w, n);
    CopyHome(r, w, t);
    assert CopyAt(r, w, t, 0);
    assert TableOk(r.tab, r.home, t) && Linked(r.tab, r.home, r.pd, t);
    forall i | 0 <= i < 512
      ensures PteOk(w.ctab, h, h[n], i, w.ctab[n][i])
    {
      assert CopyAt(r, w, t, i) && PteOk(r.tab, r.home, r.home[t], i, r.tab[t][i]);
      var e := r.tab[t][i];
      if e.Link? && e.child in w.copy { CopyHome(r, w, e.child); }
    }
    if n != r.child { CopyLinked(r, w, t); }
  }

  // ---------- which pages are done ----------

  /** Page `p` has its entry at place `i` of table `t`, alone or as one of the 512 of a marker. */
  ghost predicate PairHas(r: Job, t: nat, i: nat, p: nat) {
    && t in r.tab && t in r.home && i < 512
    && if r.home[t].lvl == 0 then EntryIn(r.tab, t, i).Leaf? && p == r.home[t].block * 512 + i
       else r.home[t].lvl == 1 && EntryIn(r.tab, t, i) == MARK && p / 512 == r.home[t].block * 512 + i
  }

  /** The pages of the places in `seen`. */
  ghost predicate PagesSeen(r: Job, seen: set<(nat, nat)>, pages: set<nat>) {
    forall p: nat :: p in pages <==> SeenPage(r, seen, p)
  }

  ghost predicate SeenPage(r: Job, seen: set<(nat, nat)>, p: nat) {
    exists t: nat, i: nat :: (t, i) in seen && PairHas(r, t, i, p)
  }

  lemma PairView(r: Job, t: nat, i: nat, p: nat)
    requires JobOk(r) && PairHas(r, t, i, p)
    ensures View(r.tab, r.pd, p) == EntryIn(r.tab, t, i) && p < TOP
    ensures if r.home[t].lvl == 0 then EntryAt(r.tab, r.pd, p / 512, 1) == Link(t)
      else EntryAt(r.tab, r.pd, p / 512, 1) == MARK
  {
    AtTable(r.tab, r.home, r.pd, t, i);
    assert TableOk(r.tab, r.home, t) && Linked(r.tab, r.home, r.pd, t);
    if p >= TOP {
      BlockInside(r, t, i, p);
      KernelHalf(r, p);
    }
  }

  lemma BlockInside(r: Job, t: nat, i: nat, p: nat)
    requires JobOk(r) && PairHas(r, t, i, p)
    ensures Up(p, 4) == 0
  {
    AtTable(r.tab, r.home, r.pd, t, i);
    assert TableOk(r.tab, r.home, t);
    assert Up(p, 4) == Up(p / 512, 3);
  }

  /** Pages of the kernel's half are not mapped. */
  lemma KernelHalf(r: Job, p: nat)
    requires JobOk(r) && Up(p, 4) == 0 && p >= TOP
    ensures View(r.tab, r.pd, p) == Zero
  {
    var x := p / 512 / 512 / 512;
    assert Up(p, 4) == Up(p / 512, 3) == Up(p / 512 / 512, 2) == Up(x, 1) == x / 512;
    assert Up(p, 3) == Up(p / 512, 2) == Up(p / 512 / 512, 1) == Up(x, 0) == x;
    assert 256 <= x < 512;
    EmptyBelow(r.tab, r.pd, p, 0, 3);
  }

  /** A page has its entry at one place. */
  lemma OnePair(r: Job, t: nat, i: nat, u: nat, j: nat, p: nat)
    requires JobOk(r) && PairHas(r, t, i, p) && PairHas(r, u, j, p)
    ensures t == u && i == j
  {
    PairView(r, t, i, p);
    PairView(r, u, j, p);
    if r.home[t].lvl == 1 {
      var b := p / 512;
      assert r.home[t].block == b / 512 == r.home[u].block;
      OnePlace(r.tab, r.home, r.pd, t, u);
    }
  }

  /** Every mapped page has one. */
  lemma PairExists(r: Job, p: nat) returns (t: nat, i: nat)
    requires JobOk(r) && p < TOP && View(r.tab, r.pd, p).Leaf?
    ensures PairHas(r, t, i, p)
  {
    UserBlocks(p);
    Reach(r.tab, r.home, r.pd, p / 512, 1);
    var e := EntryAt(r.tab, r.pd, p / 512, 1);
    if e.Link? { return e.child, p % 512; }
    Reach(r.tab, r.home, r.pd, p / 512 / 512, 2);
    t, i := EntryAt(r.tab, r.pd, p / 512 / 512, 2).child, p / 512 % 512;
  }

  lemma SeenMore(r: Job, seen: set<(nat, nat)>, pages: set<nat>, t: nat, i: nat, more: set<nat>)
    requires PagesSeen(r, seen, pages) && forall p: nat :: p in more <==> PairHas(r, t, i, p)
    ensures PagesSeen(r, seen + {(t, i)}, pages + more)
  {
    forall p: nat
      ensures p in pages + more <==> SeenPage(r, seen + {(t, i)}, p)
    {
      if SeenPage(r, seen, p) {
        var u: nat, j: nat :| (u, j) in seen && PairHas(r, u, j, p);
        assert (u, j) in seen + {(t, i)};
      }
      if p in more { assert (t, i) in seen + {(t, i)} && PairHas(r, t, i, p); }
    }
  }

  lemma NewPair(r: Job, seen: set<(nat, nat)>, pages: set<nat>, t: nat, i: nat, p: nat)
    requires JobOk(r) && PagesSeen(r, seen, pages) && PairHas(r, t, i, p) && (t, i) !in seen
    ensures p !in pages
  {
    if p in pages {
      var u: nat, j: nat :| (u, j) in seen && PairHas(r, u, j, p);
      OnePair(r, t, i, u, j, p);
    }
  }

  lemma AllPages(r: Job, w: Work, pages: set<nat>)
    requires JobOk(r) && PagesSeen(r, w.seen, pages) && Full(r, w)
    ensures forall p: nat :: p in pages <==> p < TOP && View(r.tab, r.pd, p).Leaf?
  {
    forall p: nat
      ensures p in pages <==> p < TOP && View(r.tab, r.pd, p).Leaf?
    {
      if p in pages {
        var u: nat, j: nat :| (u, j) in w.seen && PairHas(r, u, j, p);
        PairView(r, u, j, p);
      }
      if p < TOP && View(r.tab, r.pd, p).Leaf? {
        var t, i := PairExists(r, p);
        assert (t, i) in w.seen;
      }
    }
  }

  // ---------- the parent's own tables ----------

  /** Above the pages nothing changes in them. */
  lemma {:induction false} ParentUpper(r: Job, w: Work, x: nat, l: nat)
    requires JobOk(r) && Faithful(r, w) && 1 <= l <= 3 && Up(x, 4 - l) == 0
    ensures EntryAt(w.tab, r.pd, x, l) == EntryAt(r.tab, r.pd, x, l)
    decreases 3 - l
  {
    hide Faithful, Forked;
    Reach(r.tab, r.home, r.pd, x, l);
    if l == 3 {
      ParentEntry(r, w, r.pd, x % 512);
    } else {
      ParentUpper(r, w, x / 512, l + 1);
      LinkInside(r, x / 512, l + 1);
      var e := EntryAt(r.tab, r.pd, x / 512, l + 1);
      if e.Link? { ParentEntry(r, w, e.child, x % 512); }
    }
    MarkStays(r);
  }

  lemma MarkStays(r: Job)
    ensures ForkSlot(r, MARK) == MARK
  {
  }

  lemma ParentEntry(r: Job, w: Work, t: nat, i: nat)
    requires Faithful(r, w) && t in r.tab && i < 512
    ensures EntryIn(w.tab, t, i) == if (t, i) in w.seen then ForkSlot(r, EntryIn(r.tab, t, i)) else EntryIn(r.tab, t, i)
  {
    assert TabAt(r, w, t, i);
  }

  /** The pages that are done are forked, the others are as they were. */
  lemma ParentPage(r: Job, w: Work, pages: set<nat>, p: nat)
    requires JobOk(r) && Faithful(r, w) && PagesSeen(r, w.seen, pages) && p < TOP
    ensures View(w.tab, r.pd, p) == if p in pages then ForkSlot(r, View(r.tab, r.pd, p)) else View(r.tab, r.pd, p)
  {
    hide Faithful, PagesSeen, Forked, JobOk;
    UserBlocks(p);
    ParentUpper(r, w, p / 512, 1);
    LinkInside(r, p / 512, 1);
    MarkLevel(r, p);
    MarkStays(r);
    var e := EntryAt(r.tab, r.pd, p / 512, 1);
    if e.Link? {
      ParentEntry(r, w, e.child, p % 512);
      PageDecided(r, w.seen, pages, p);
    }
  }

  lemma MarkLevel(r: Job, p: nat)
    requires JobOk(r) && p < TOP
    ensures var e := EntryAt(r.tab, r.pd, p / 512, 1); e.Leaf? ==> e == MARK
  {
    UserBlocks(p);
    Reach(r.tab, r.home, r.pd, p / 512, 1);
  }

  /** A page below a table is done when its entry is. */
  lemma PageDecided(r: Job, seen: set<(nat, nat)>, pages: set<nat>, p: nat)
    requires JobOk(r) && PagesSeen(r, seen, pages) && p < TOP && EntryAt(r.tab, r.pd, p / 512, 1).Link?
    ensures var c := EntryAt(r.tab, r.pd, p / 512, 1).child;
            View(r.tab, r.pd, p).Leaf? ==> (p in pages <==> (c, p % 512) in seen)
    ensures !View(r.tab, r.pd, p).Leaf? ==> p !in pages
  {
    UserBlocks(p);
    Reach(r.tab, r.home, r.pd, p / 512, 1);
    var c := EntryAt(r.tab, r.pd, p / 512, 1).child;
    if p in pages {
      var t: nat, i: nat :| (t, i) in seen && PairHas(r, t, i, p);
      PairView(r, t, i, p);
      if View(r.tab, r.pd, p).Leaf? { OnePair(r, t, i, c, p % 512, p); }
    } else if View(r.tab, r.pd, p).Leaf? {
      assert PairHas(r, c, p % 512, p);
    }
  }

  /** And the copy has the pages that are done. */
  lemma HalfPage(r: Job, w: Work, pages: set<nat>, p: nat)
    requires JobOk(r) && Faithful(r, w) && PagesSeen(r, w.seen, pages) && p < TOP && !View(r.tab, r.pd, p).Link?
    ensures View(w.ctab, r.child, p) == if p in pages then ForkSlot(r, View(r.tab, r.pd, p)) else Zero
    ensures p in pages ==> View(r.tab, r.pd, p).Leaf?
  {
    hide Faithful, PagesSeen, Forked, JobOk;
    UserBlocks(p);
    HalfWalk(r, w, p, 0);
    LinkInside(r, p / 512, 1);
    MarkLevel(r, p);
    MarkStays(r);
    var e := EntryAt(r.tab, r.pd, p / 512, 1);
    if e.Link? {
      PageDecided(r, w.seen, pages, p);
    } else if e.Leaf? {
      HalfWalk(r, w, p / 512, 1);
      HolderEntry(r, p / 512, 1);
      MarkDecided(r, w.seen, pages, p);
    } else {
      NoneDecided(r, w.seen, pages, p);
    }
  }

  lemma MarkDecided(r: Job, seen: set<(nat, nat)>, pages: set<nat>, p: nat)
    requires JobOk(r) && PagesSeen(r, seen, pages) && p < TOP && EntryAt(r.tab, r.pd, p / 512, 1) == MARK
    ensures Holder(r, p / 512, 1).Link? && (p in pages <==> (Holder(r, p / 512, 1).child, p / 512 % 512) in seen)
  {
    UserBlocks(p);
    HolderEntry(r, p / 512, 1);
    Reach(r.tab, r.home, r.pd, p / 512 / 512, 2);
    var c := Holder(r, p / 512, 1).child;
    assert PairHas(r, c, p / 512 % 512, p);
    if p in pages {
      var t: nat, i: nat :| (t, i) in seen && PairHas(r, t, i, p);
      OnePair(r, t, i, c, p / 512 % 512, p);
    }
  }

  lemma NoneDecided(r: Job, seen: set<(nat, nat)>, pages: set<nat>, p: nat)
    requires JobOk(r) && PagesSeen(r, seen, pages) && p < TOP && EntryAt(r.tab, r.pd, p / 512, 1) == Zero
    ensures p !in pages
  {
    if p in pages {
      var t: nat, i: nat :| (t, i) in seen && PairHas(r, t, i, p);
      PairView(r, t, i, p);
    }
  }

  /** The parent's tables stay a well-formed tree. */
  lemma ParentOk(r: Job, w: Work)
    requires JobOk(r) && Faithful(r, w)
    ensures Ok(w.tab, r.home, r.pd) && UserOnly(w.tab, r.pd)
  {
    forall t
      ensures TableOk(w.tab, r.home, t) && Linked(w.tab, r.home, r.pd, t)
    {
      if t in w.tab { ParentTableOk(r, w, t); }
    }
    forall i | 0 <= i < 512
      ensures |w.tab[r.pd]| == 512 && (i >= 256 ==> w.tab[r.pd][i] == Zero)
    {
      assert TabAt(r, w, r.pd, i);
    }
    assert TabAt(r, w, r.pd, 0);
  }

  lemma ParentTableOk(r: Job, w: Work, t: nat)
    requires JobOk(r) && Faithful(r, w) && t in r.tab
    ensures TableOk(w.tab, r.home, t) && Linked(w.tab, r.home, r.pd, t)
  {
    assert TableOk(r.tab, r.home, t) && Linked(r.tab, r.home, r.pd, t) && TabAt(r, w, t, 0);
    forall i | 0 <= i < 512
      ensures PteOk(w.tab, r.home, r.home[t], i, w.tab[t][i])
    {
      assert TabAt(r, w, t, i) && PteOk(r.tab, r.home, r.home[t], i, r.tab[t][i]);
      MarkStays(r);
    }
    if t != r.pd { ParentUpper(r, w, r.home[t].block, r.home[t].lvl + 1); }
  }
}

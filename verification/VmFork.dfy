/**
  vmm_clone_space and vmm_destroy_space: the recursion over the tables of the parent, the tables it
  makes for the child, the pages of both spaces in the flat model, and the failure that comes
  half-way when the frames run out.
  */
module VmFork {
  import opened FramePool
  import opened VmState
  import opened VmOps
  import opened PageTree
  import opened TreeCopy
  import opened ForkOrder
  import opened ForkCounts
  import opened TreeFree

  /** Every page and every table belongs to a space whose root is a page table. */
  ghost predicate Rooted(s: State) {
    && (forall k | k in s.pt :: k.pd in s.tabs)
    && (forall f | f in s.tabs :: s.tabs[f] in s.tabs)
  }

  /** The tables `tab` are those of space `pd`, and the flat state has the pages they map. */
  ghost predicate Tree(s: State, pd: nat, tab: Tables) {
    && (forall f: nat :: f in tab <==> f in s.tabs && s.tabs[f] == pd)
    && (forall p: nat :: PageThere(s, pd, tab, p))
  }

  ghost predicate PageThere(s: State, pd: nat, tab: Tables, p: nat) {
    var k := Key(pd, p);
    if p < TOP then View(tab, pd, p) == (if k in s.pt then Leaf(s.pt[k]) else Zero)
    else k !in s.pt
  }

  /** An entry as a fork leaves it: the same, or copy on write now. */
  predicate MaybeForked(e: Entry, e': Entry) {
    e' == e || (e.Present? && !e.shared && (e.rw || e.cow) && e' == Bits(e, false, true))
  }

  /** Entry `k` of the old state is still there, with the same contents. */
  ghost predicate KeyKept(s0: State, s: State, k: Key) {
    k in s0.pt ==> k in s.pt && MaybeForked(s0.pt[k], s.pt[k]) && Look(s, s.pt[k]) == Look(s0, s0.pt[k])
  }

  /** A reference byte that was stuck, or foreign, is so for ever. */
  ghost predicate StaysStuck(s0: State, s: State, f: nat) {
    f < |s0.rc| && f < |s.rc| ==>
      && (s0.rc[f] == STICKY ==> s.rc[f] == STICKY)
      && (s0.rc[f] == NOT_OURS <==> s.rc[f] == NOT_OURS)
  }

  /** The same for the byte of a swap slot. */
  ghost predicate SlotStays(s0: State, s: State, sl: nat) {
    sl in s0.sc && sl in s.sc ==>
      && (s0.sc[sl] == STICKY ==> s.sc[sl] == STICKY)
      && (s0.sc[sl] == BAD_SLOT <==> s.sc[sl] == BAD_SLOT)
  }

  /** Since `s0` only space `child` grew, and pages elsewhere became copy on write. */
  ghost predicate OnlyChild(s0: State, s: State, child: nat) {
    && s.held == s0.held && s.flight == s0.flight && s.batch == s0.batch && s.sflight == s0.sflight
    && |s.rc| == |s0.rc| && s.sc.Keys == s0.sc.Keys
    && (forall k :: KeyKept(s0, s, k))
    && (forall k | k in s.pt && k !in s0.pt :: k.pd == child)
    && (forall f | f in s0.tabs :: f in s.tabs && s.tabs[f] == s0.tabs[f])
    && (forall f | f in s.tabs && f !in s0.tabs :: s.tabs[f] == child)
    && (forall f :: StaysStuck(s0, s, f))
    && (forall sl :: SlotStays(s0, s, sl))
  }

  function SpaceKeys(s: State, pd: nat): set<Key> {
    set k | k in s.pt && k.pd == pd
  }

  function SpaceTables(s: State, pd: nat): set<nat> {
    set f | f in s.tabs && s.tabs[f] == pd
  }

  /** The child has these pages so far, and they show what the parent's showed. */
  ghost predicate Cloned(s0: State, s: State, pd: nat, child: nat, pages: set<nat>) {
    && (forall va :: Key(child, va) in s.pt <==> va in pages)
    && (forall va | va in pages ::
      Key(pd, va) in s0.pt && Key(child, va) in s.pt && Views(s)[Key(child, va)] == Views(s0)[Key(pd, va)])
  }

  lemma TableStep(s0: State, s: State, child: nat, f: nat)
    requires Inv(s) && OnlyChild(s0, s, child) && FreeFrame(s, f)
    ensures var s' := TableFrame(s, f, child);
            && Inv(s') && OnlyChild(s0, s', child) && s'.pt == s.pt && Views(s') == Views(s)
            && s'.tabs == s.tabs[f := child] && f !in s.tabs && s'.free == s.free - 1
  {
    var s' := TableFrame(s, f, child);
    NewTableGood(s, f, child);
    TakeGood(s, f, ZeroPage());
    BackAgain(s.flight, f);
    forall k
      ensures KeyKept(s0, s', k)
    {
      assert KeyKept(s0, s, k);
      if k in s.pt { assert Views(s')[k] == Views(s)[k]; }
    }
    forall g
      ensures StaysStuck(s0, s', g)
    {
      assert StaysStuck(s0, s, g);
    }
    forall sl
      ensures SlotStays(s0, s', sl)
    {
      assert SlotStays(s0, s, sl);
    }
  }

  lemma ForkedMaybe(s: State, e0: Entry, e: Entry)
    requires MaybeForked(e0, e)
    ensures MaybeForked(e0, Forked(s, e))
  {
  }

  lemma PageStep(s0: State, s: State, pd: nat, child: nat, va: nat)
    requires Inv(s) && OnlyChild(s0, s, child) && Key(pd, va) in s0.pt && Key(child, va) !in s.pt
    requires forall k | k in s0.pt :: k.pd != child
    ensures var s' := Clone(s, Key(pd, va), child);
            && Inv(s') && OnlyChild(s0, s', child)
            && s'.pt.Keys == s.pt.Keys + {Key(child, va)}
            && Views(s') == Views(s)[Key(child, va) := Views(s0)[Key(pd, va)]]
            && s'.tabs == s.tabs
  {
    var k, k2 := Key(pd, va), Key(child, va);
    var s' := Clone(s, k, child);
    assert KeyKept(s0, s, k);
    CloneGood(s, k, child);
    ForkedMaybe(s, s0.pt[k], s.pt[k]);
    forall j
      ensures KeyKept(s0, s', j)
    {
      assert KeyKept(s0, s, j);
      if j in s.pt { assert Views(s')[j] == Views(s)[j]; }
    }
    forall g
      ensures StaysStuck(s0, s', g)
    {
      assert StaysStuck(s0, s, g);
    }
    forall sl
      ensures SlotStays(s0, s', sl)
    {
      assert SlotStays(s0, s, sl);
    }
  }

  /**
    A fork that failed when it had come to `pages`: same pages and tables, same contents, those pages
    copy on write, and every byte what it was unless the references of those pages carried it to 254.
    */
  ghost predicate Restored(s0: State, s: State, pd: nat, pages: set<nat>) {
    && s.pt.Keys == s0.pt.Keys && s.tabs == s0.tabs && |s.rc| == |s0.rc| && s.sc.Keys == s0.sc.Keys
    && s.free == s0.free
    && (forall k | k in s.pt :: BackAt(s0, s, pd, pages, k))
    && (forall f | 0 <= f < |s.rc| :: s.rc[f] == if Sticks(s0, pd, pages, f) then STICKY else s0.rc[f])
    && (forall sl | sl in s.sc :: s.sc[sl] == if SlotSticks(s0, pd, pages, sl) then STICKY else s0.sc[sl])
  }

  ghost predicate BackAt(s0: State, s: State, pd: nat, pages: set<nat>, k: Key) {
    && k in s0.pt && k in s.pt && Look(s, s.pt[k]) == Look(s0, s0.pt[k])
    && s.pt[k] == if k.pd == pd && k.va in pages then Forked(s0, s0.pt[k]) else s0.pt[k]
  }

  lemma ClonedGrows(s0: State, s: State, pd: nat, child: nat, pages: set<nat>, va: nat)
    requires Inv(s) && OnlyChild(s0, s, child) && Cloned(s0, s, pd, child, pages) && va !in pages
      && Key(pd, va) in s0.pt
    requires forall k | k in s0.pt :: k.pd != child
    ensures Cloned(s0, Clone(s, Key(pd, va), child), pd, child, pages + {va})
  {
    PageStep(s0, s, pd, child, va);
    var s' := Clone(s, Key(pd, va), child);
    forall v | v in pages + {va}
      ensures Key(pd, v) in s0.pt && Key(child, v) in s'.pt && Views(s')[Key(child, v)] == Views(s0)[Key(pd, v)]
    {
    }
  }

  lemma SameIsOnlyChild(s: State, child: nat)
    ensures OnlyChild(s, s, child)
  {
    assert forall k :: KeyKept(s, s, k);
    assert forall f :: StaysStuck(s, s, f);
    assert forall sl :: SlotStays(s, s, sl);
  }

  // ---------- the flat state while the tables are copied ----------

  /** The new tables are those with a place in `copy`. */
  ghost predicate TabsAt(r: Job, s: State, copy: map<nat, nat>) {
    && s.free == r.s0.free - |copy|
    && (forall f: nat :: f in s.tabs <==> f in r.s0.tabs || HasCopy(copy, f))
    && (forall f: nat :: HasCopy(copy, f) ==> f !in r.s0.tabs)
  }

  ghost predicate HasCopy(copy: map<nat, nat>, f: nat) {
    exists t | t in copy :: copy[t] == f
  }

  ghost predicate Flat(r: Job, s: State, copy: map<nat, nat>, pages: set<nat>) {
    Pages(r, s, copy, pages) && Reasons(r, s, pages)
  }

  ghost predicate Pages(r: Job, s: State, copy: map<nat, nat>, pages: set<nat>) {
    && Inv(s) && NewChild(r) && OnlyChild(r.s0, s, r.child) && Cloned(r.s0, s, r.pd, r.child, pages)
    && (forall k :: ForkAt(r, s, pages, k)) && TabsAt(r, s, copy)
  }

  /** Every byte that got stuck has its reason. */
  ghost predicate Reasons(r: Job, s: State, pages: set<nat>) {
    Inv(r.s0) && (forall f :: StuckWhy(r, s, pages, f)) && (forall sl :: SlotWhy(r, s, pages, sl))
  }

  lemma SameFork(r: Job, s: State, e: Entry)
    requires OnlyChild(r.s0, s, r.child)
    ensures Forked(s, e) == Forked(r.s0, e)
  {
    if e.Present? { assert StaysStuck(r.s0, s, e.fr); }
  }

  lemma ForkPage(r: Job, s: State, pages: set<nat>, p: nat, j: Key)
    requires NewChild(r) && Key(r.pd, p) in r.s0.pt && p !in pages
    requires ForkAt(r, s, pages, j) && ForkAt(r, s, pages, Key(r.pd, p))
      && Forked(s, r.s0.pt[Key(r.pd, p)]) == Forked(r.s0, r.s0.pt[Key(r.pd, p)])
    ensures ForkAt(r, Clone(s, Key(r.pd, p), r.child), pages + {p}, j)
  {
    hide Forked;
  }

  lemma FlatPage(r: Job, s: State, copy: map<nat, nat>, pages: set<nat>, p: nat)
    requires Flat(r, s, copy, pages) && Key(r.pd, p) in r.s0.pt && p !in pages
    ensures Flat(r, Clone(s, Key(r.pd, p), r.child), copy, pages + {p})
  {
    hide Pages, Reasons, Clone;
    PagesPage(r, s, copy, pages, p);
    StuckPages(r, s, copy, pages, p);
  }

  lemma PagesPage(r: Job, s: State, copy: map<nat, nat>, pages: set<nat>, p: nat)
    requires Pages(r, s, copy, pages) && Key(r.pd, p) in r.s0.pt && p !in pages
    ensures Pages(r, Clone(s, Key(r.pd, p), r.child), copy, pages + {p})
  {
    hide Inv, Cloned, Clone, Forked, Views, OnlyChild;
    var k, k2 := Key(r.pd, p), Key(r.child, p);
    assert ForkAt(r, s, pages, k) && ForkAt(r, s, pages, k2);
    PageStep(r.s0, s, r.pd, r.child, p);
    ClonedGrows(r.s0, s, r.pd, r.child, pages, p);
    SameFork(r, s, r.s0.pt[k]);
    SameFree(s, k, r.child);
    forall j
      ensures ForkAt(r, Clone(s, k, r.child), pages + {p}, j)
    {
      assert ForkAt(r, s, pages, j);
      ForkPage(r, s, pages, p, j);
    }
  }

  lemma FlatAdded(r: Job, s: State, copy: map<nat, nat>, pages: set<nat>)
    requires Flat(r, s, copy, pages)
    ensures Added(r, s, pages) && SameKeepers(r.s0, s)
  {
    hide Inv, Cloned, TabsAt, Reasons, ForkAt;
  }

  lemma StuckPages(r: Job, s: State, copy: map<nat, nat>, pages: set<nat>, p: nat)
    requires Flat(r, s, copy, pages) && Key(r.pd, p) in r.s0.pt && p !in pages
    ensures Reasons(r, Clone(s, Key(r.pd, p), r.child), pages + {p})
  {
    FlatAdded(r, s, copy, pages);
    var s', pages' := Clone(s, Key(r.pd, p), r.child), pages + {p};
    hide Inv, Cloned, Added, Clone, TabsAt, StuckWhy, SlotWhy, ForkAt, SameKeepers;
    forall f
      ensures StuckWhy(r, s', pages', f)
    {
      assert StaysStuck(r.s0, s, f) && StuckWhy(r, s, pages, f);
      StuckPage(r, s, pages, p, f);
    }
    forall sl
      ensures SlotWhy(r, s', pages', sl)
    {
      assert SlotStays(r.s0, s, sl) && SlotWhy(r, s, pages, sl);
      SlotStuckPage(r, s, pages, p, sl);
    }
  }

  lemma SameFree(s: State, k: Key, child: nat)
    ensures Clone(s, k, child).free == s.free
  {
  }

  lemma CopyGrows(copy: map<nat, nat>, c: nat, n: nat)
    requires c !in copy
    ensures |copy[c := n]| == |copy| + 1
    ensures forall f: nat :: HasCopy(copy[c := n], f) <==> HasCopy(copy, f) || f == n
  {
    var copy' := copy[c := n];
    assert copy'.Keys == copy.Keys + {c} && |copy'| == |copy'.Keys|;
    forall f: nat
      ensures HasCopy(copy', f) <==> HasCopy(copy, f) || f == n
    {
      if HasCopy(copy, f) {
        var t :| t in copy && copy[t] == f;
        assert copy'[t] == f;
      }
      if f == n { assert copy'[c] == n; }
      if HasCopy(copy', f) {
        var t :| t in copy' && copy'[t] == f;
        assert t != c ==> copy[t] == f;
      }
    }
  }

  lemma TableFits(s: State, n: nat)
    requires Inv(s) && FreeFrame(s, n)
    ensures |s.mem| == |s.rc|
  {
  }

  lemma StuckTable(r: Job, s: State, pages: set<nat>, n: nat)
    requires FreeFrame(s, n) && Inv(s) && Reasons(r, s, pages)
    ensures Reasons(r, TableFrame(s, n, r.child), pages)
  {
    var s' := TableFrame(s, n, r.child);
    hide Inv, Sticks, SlotSticks;
    forall f
      ensures StuckWhy(r, s', pages, f)
    {
      assert StuckWhy(r, s, pages, f);
    }
    forall sl
      ensures SlotWhy(r, s', pages, sl)
    {
      assert SlotWhy(r, s, pages, sl);
    }
  }

  lemma FlatTable(r: Job, s: State, copy: map<nat, nat>, pages: set<nat>, c: nat, n: nat)
    requires Flat(r, s, copy, pages) && FreeFrame(s, n) && c !in copy
    ensures |s.mem| == |s.rc| && Flat(r, TableFrame(s, n, r.child), copy[c := n], pages) && !HasCopy(copy, n)
  {
    hide Inv, Reasons, TableFrame, HasCopy;
    PagesTable(r, s, copy, pages, c, n);
    StuckTable(r, s, pages, n);
  }

  lemma PagesTable(r: Job, s: State, copy: map<nat, nat>, pages: set<nat>, c: nat, n: nat)
    requires Pages(r, s, copy, pages) && FreeFrame(s, n) && c !in copy
    ensures |s.mem| == |s.rc| && Pages(r, TableFrame(s, n, r.child), copy[c := n], pages) && !HasCopy(copy, n)
  {
    hide Inv, Views, FreeFrame, HasCopy;
    TableFits(s, n);
    TableStep(r.s0, s, r.child, n);
    CopyGrows(copy, c, n);
    assert n !in r.s0.tabs;
    hide OnlyChild;
    hide TableFrame;
    forall k
      ensures ForkAt(r, TableFrame(s, n, r.child), pages, k)
    {
      assert ForkAt(r, s, pages, k);
    }
  }

  lemma StuckStart(r: Job)
    requires Inv(r.s0) && FreeFrame(r.s0, r.child)
    ensures Reasons(r, TableFrame(r.s0, r.child, r.child), {})
  {
    StuckTable(r, r.s0, {}, r.child);
  }

  lemma FlatStart(r: Job)
    requires Inv(r.s0) && Rooted(r.s0) && FreeFrame(r.s0, r.child) && r.pd in r.s0.tabs && r.child != 0
    ensures NewChild(r) && |r.s0.mem| == |r.s0.rc|
      && Flat(r, TableFrame(r.s0, r.child, r.child), map[r.pd := r.child], {})
  {
    hide Inv, Rooted, Pages, Reasons, TableFrame, FreeFrame;
    PagesStart(r);
    StuckStart(r);
  }

  lemma PagesStart(r: Job)
    requires Inv(r.s0) && Rooted(r.s0) && FreeFrame(r.s0, r.child) && r.pd in r.s0.tabs && r.child != 0
    ensures NewChild(r) && |r.s0.mem| == |r.s0.rc|
      && Pages(r, TableFrame(r.s0, r.child, r.child), map[r.pd := r.child], {})
  {
    hide Inv, Views, OnlyChild, FreeFrame, HasCopy;
    TableFits(r.s0, r.child);
    SameIsOnlyChild(r.s0, r.child);
    TableStep(r.s0, r.s0, r.child, r.child);
    OneCopy(r.pd, r.child);
    hide TableFrame;
    var s := TableFrame(r.s0, r.child, r.child);
    assert TabsAt(r, s, map[r.pd := r.child]);
    assert Cloned(r.s0, s, r.pd, r.child, {});
    forall k
      ensures ForkAt(r, s, {}, k)
    {
    }
  }

  lemma OneCopy(t: nat, n: nat)
    ensures |map[t := n]| == 1 && forall f: nat :: HasCopy(map[t := n], f) <==> f == n
  {
    var one := map[t := n];
    assert one[t] == n && one.Keys == {t} && |one| == |one.Keys|;
  }

  /** Nothing but the flat state is needed to see that a frame for a table is missing. */
  lemma TooFew(r: Job, s: State, w: Work, pages: set<nat>, c: nat)
    requires Flat(r, s, w.copy, pages) && s.free == 0 && c in r.tab && c !in w.copy && w.copy.Keys <= r.tab.Keys
    ensures r.s0.free < |r.tab|
  {
    Smaller(w.copy.Keys, r.tab.Keys, c);
    assert |w.copy| == |w.copy.Keys| && |r.tab| == |r.tab.Keys|;
  }

  lemma Smaller(a: set<nat>, b: set<nat>, c: nat)
    requires a <= b && c in b && c !in a
    ensures |a| < |b|
  {
    assert a + (b - a) == b && |a + (b - a)| == |a| + |b - a|;
  }

  // ---------- both together ----------

  ghost predicate All(r: Job, s: State, w: Work, pages: set<nat>) {
    JobOk(r) && Tree(r.s0, r.pd, r.tab) && Flat(r, s, w.copy, pages) && Faithful(r, w) && PagesSeen(r, w.seen, pages)
  }

  lemma CopyInside(r: Job, w: Work)
    requires Faithful(r, w)
    ensures w.copy.Keys <= r.tab.Keys && forall n: nat :: n in w.ctab <==> HasCopy(w.copy, n)
  {
    forall t | t in w.copy ensures t in r.tab { assert CopyAt(r, w, t, 0); }
    forall n: nat
      ensures n in w.ctab <==> HasCopy(w.copy, n)
    {
      if n in w.ctab { assert IsCopy(w, n); }
      if HasCopy(w.copy, n) {
        var t :| t in w.copy && w.copy[t] == n;
        assert CopyAt(r, w, t, 0);
      }
    }
  }

  /** A page the tables map is a page of the flat state. */
  lemma PairKey(r: Job, t: nat, i: nat, p: nat)
    requires JobOk(r) && Tree(r.s0, r.pd, r.tab) && PairHas(r, t, i, p)
    ensures Key(r.pd, p) in r.s0.pt
  {
    PairView(r, t, i, p);
    assert PageThere(r.s0, r.pd, r.tab, p);
  }

  /** Nothing was there to copy. */
  lemma AllZero(r: Job, s: State, w: Work, pages: set<nat>, t: nat, i: nat)
    requires All(r, s, w, pages) && t in w.copy && i < 512 && EntryIn(r.tab, t, i) == Zero
    ensures t in w.tab && |w.tab[t]| == 512 && w.copy[t] in w.ctab && |w.ctab[w.copy[t]]| == 512
    ensures All(r, s, Over(r, w, t, i), pages)
  {
    hide Flat, Faithful, JobOk, Tree;
    FaithfulOver(r, w, t, i);
    SeenMore(r, w.seen, pages, t, i, {});
    assert pages + {} == pages;
  }

  lemma AllPage(r: Job, s: State, w: Work, pages: set<nat>, t: nat, i: nat, p: nat)
    requires All(r, s, w, pages) && t in w.copy && i < 512 && (t, i) !in w.seen && PairHas(r, t, i, p)
      && r.home[t].lvl == 0
    ensures t in w.tab && |w.tab[t]| == 512 && w.copy[t] in w.ctab && |w.ctab[w.copy[t]]| == 512
    ensures All(r, Clone(s, Key(r.pd, p), r.child), Over(r, w, t, i), pages + {p})
  {
    hide Flat, Faithful, JobOk, Tree;
    NewPair(r, w.seen, pages, t, i, p);
    PairKey(r, t, i, p);
    FlatPage(r, s, w.copy, pages, p);
    FaithfulOver(r, w, t, i);
    SeenMore(r, w.seen, pages, t, i, {p});
  }

  /** A marker: its 512 pages are in the flat state of the child already. */
  lemma AllMark(r: Job, s: State, w: Work, pages: set<nat>, more: set<nat>, t: nat, i: nat)
    requires JobOk(r) && Tree(r.s0, r.pd, r.tab) && Faithful(r, w) && PagesSeen(r, w.seen, pages)
    requires Flat(r, s, w.copy, pages + more) && (forall p: nat :: p in more <==> PairHas(r, t, i, p))
    requires t in w.copy && i < 512 && EntryIn(r.tab, t, i) == MARK
    ensures t in w.tab && |w.tab[t]| == 512 && w.copy[t] in w.ctab && |w.ctab[w.copy[t]]| == 512
    ensures All(r, s, Over(r, w, t, i), pages + more)
  {
    hide Flat, Faithful, JobOk, Tree;
    FaithfulOver(r, w, t, i);
    SeenMore(r, w.seen, pages, t, i, more);
  }

  lemma AllTable(r: Job, s: State, w: Work, pages: set<nat>, t: nat, i: nat, n: nat)
    requires All(r, s, w, pages) && t in w.copy && i < 512 && EntryIn(r.tab, t, i).Link? && FreeFrame(s, n)
    requires EntryIn(r.tab, t, i).child !in w.copy && Untouched(w, EntryIn(r.tab, t, i).child)
    ensures w.copy[t] in w.ctab && |w.ctab[w.copy[t]]| == 512 && n !in w.ctab
    ensures All(r, TableFrame(s, n, r.child), Hung(r, w, t, i, n), pages)
  {
    hide Flat, Faithful, JobOk, Tree;
    CopyInside(r, w);
    FlatTable(r, s, w.copy, pages, EntryIn(r.tab, t, i).child, n);
    assert n !in w.ctab;
    assert JobOk(r) && Faithful(r, w);
    FaithfulHung(r, w, t, i, n);
    SeenMore(r, w.seen, pages, t, i, {});
    assert pages + {} == pages;
  }

  // ---------- the end ----------

  /** Whatever was done so far, the parent's tables map the parent's pages. */
  lemma ParentTree(r: Job, s: State, w: Work, pages: set<nat>)
    requires All(r, s, w, pages)
    ensures Tree(s, r.pd, w.tab)
  {
    hide Inv, Cloned, Forked;
    forall f: nat
      ensures f in w.tab <==> f in s.tabs && s.tabs[f] == r.pd
    {
      assert f in r.tab <==> f in r.s0.tabs && r.s0.tabs[f] == r.pd;
    }
    forall p: nat
      ensures PageThere(s, r.pd, w.tab, p)
    {
      assert PageThere(r.s0, r.pd, r.tab, p) && ForkAt(r, s, pages, Key(r.pd, p));
      hide Flat, Tree, Faithful, JobOk, PagesSeen;
      if p < TOP { ParentPage(r, w, pages, p); } else { NoSuchPage(r, s, pages, p); }
    }
  }

  lemma NoSuchPage(r: Job, s: State, pages: set<nat>, p: nat)
    requires NewChild(r) && OnlyChild(r.s0, s, r.child) && Key(r.pd, p) !in r.s0.pt
    ensures Key(r.pd, p) !in s.pt
  {
  }

  /** At every moment the new tables map the child's pages; in the end these are the parent's. */
  lemma ChildTree(r: Job, s: State, w: Work, pages: set<nat>)
    requires All(r, s, w, pages)
    ensures Tree(s, r.child, w.ctab) && (Full(r, w) ==> forall p: nat :: p in pages <==> Key(r.pd, p) in r.s0.pt)
  {
    hide Inv, Cloned, Forked, Faithful, JobOk, PagesSeen, Full, ForkAt, OnlyChild, View, Reasons;
    CopyInside(r, w);
    if Full(r, w) {
      AllPages(r, w, pages);
      MappedPages(r);
    }
    ChildTables(r, s, w.copy, pages);
    forall p: nat
      ensures PageThere(s, r.child, w.ctab, p)
    {
      assert PageThere(r.s0, r.pd, r.tab, p) && ForkAt(r, s, pages, Key(r.child, p));
      ChildPageThere(r, s, w, pages, p);
    }
  }

  lemma ChildTables(r: Job, s: State, copy: map<nat, nat>, pages: set<nat>)
    requires Flat(r, s, copy, pages)
    ensures forall f: nat :: HasCopy(copy, f) <==> f in s.tabs && s.tabs[f] == r.child
  {
    hide Inv, Cloned, HasCopy, ForkAt;
  }

  lemma ChildPageThere(r: Job, s: State, w: Work, pages: set<nat>, p: nat)
    requires JobOk(r) && Faithful(r, w) && PagesSeen(r, w.seen, pages) && PageThere(r.s0, r.pd, r.tab, p)
    requires ForkAt(r, s, pages, Key(r.child, p))
    ensures PageThere(s, r.child, w.ctab, p)
  {
    hide JobOk, Faithful, Forked, View, PagesSeen;
    if p < TOP { HalfPage(r, w, pages, p); } else { SeenInside(r, w, pages, p); }
  }

  lemma SeenInside(r: Job, w: Work, pages: set<nat>, p: nat)
    requires JobOk(r) && PagesSeen(r, w.seen, pages) && p >= TOP
    ensures p !in pages
  {
    if p in pages {
      var t: nat, i: nat :| (t, i) in w.seen && PairHas(r, t, i, p);
      PairView(r, t, i, p);
    }
  }

  /** Every space has its root, whether the fork went through or not. */
  lemma StaysRooted(s0: State, s: State, child: nat)
    requires Rooted(s0) && OnlyChild(s0, s, child)
      && (child in s.tabs || (s.pt.Keys == s0.pt.Keys && s.tabs.Keys == s0.tabs.Keys))
    ensures Rooted(s)
  {
  }

  // ---------- a space goes ----------

  /** Since `s1` space `pd` lost pages and tables, and nothing else changed. */
  ghost predicate Dropping(s1: State, s: State, pd: nat) {
    && s.held == s1.held && s.flight == s1.flight && s.batch == s1.batch && s.sflight == s1.sflight
    && |s.rc| == |s1.rc| && s.sc.Keys == s1.sc.Keys && s.mem == s1.mem && s.disk == s1.disk
    && (forall k | k in s.pt :: k in s1.pt && s.pt[k] == s1.pt[k])
    && (forall k | k in s1.pt && k.pd != pd :: k in s.pt)
    && (forall f | f in s.tabs :: f in s1.tabs && s.tabs[f] == s1.tabs[f])
    && (forall f | f in s1.tabs && s1.tabs[f] != pd :: f in s.tabs)
    && (forall f :: StaysStuck(s1, s, f) && NoneSticks(s1, s, f))
    && (forall sl :: SlotStays(s1, s, sl) && NoSlotSticks(s1, s, sl))
  }

  /** A byte that is not stuck does not get so. */
  ghost predicate NoneSticks(s1: State, s: State, f: nat) {
    f < |s1.rc| && f < |s.rc| && s.rc[f] == STICKY ==> s1.rc[f] == STICKY
  }

  ghost predicate NoSlotSticks(s1: State, s: State, sl: nat) {
    sl in s1.sc && sl in s.sc && s.sc[sl] == STICKY ==> s1.sc[sl] == STICKY
  }

  /** All of its pages and tables are gone. */
  ghost predicate Destroyed(s1: State, s: State, pd: nat) {
    Dropping(s1, s, pd) && SpaceKeys(s, pd) == {} && SpaceTables(s, pd) == {}
  }

  lemma DropNothing(s: State, pd: nat)
    ensures Dropping(s, s, pd)
  {
    assert forall f :: StaysStuck(s, s, f) && NoneSticks(s, s, f);
    assert forall sl :: SlotStays(s, s, sl) && NoSlotSticks(s, s, sl);
  }

  lemma DropPage(s1: State, s: State, k: Key)
    requires Inv(s) && Dropping(s1, s, k.pd) && k in s.pt
    ensures var s' := Clear(s, k); Inv(s') && Dropping(s1, s', k.pd) && s'.pt == s.pt - {k} && s'.tabs == s.tabs
  {
    var s' := Clear(s, k);
    ClearGood(s, k);
    hide Inv;
    forall g
      ensures StaysStuck(s1, s', g) && NoneSticks(s1, s', g)
    {
      assert StaysStuck(s1, s, g) && NoneSticks(s1, s, g);
    }
    forall sl
      ensures SlotStays(s1, s', sl) && NoSlotSticks(s1, s', sl)
    {
      assert SlotStays(s1, s, sl) && NoSlotSticks(s1, s, sl);
    }
  }

  lemma DropTable(s1: State, s: State, pd: nat, f: nat)
    requires Inv(s) && Dropping(s1, s, pd) && f in s.tabs && s.tabs[f] == pd
    ensures var s' := TableFreed(s, f); Inv(s') && Dropping(s1, s', pd) && s'.pt == s.pt && s'.tabs == s.tabs - {f}
  {
    var s' := TableFreed(s, f);
    FreeTableGood(s, f);
    hide Inv;
    BackAgain(s.flight, f);
    forall g
      ensures StaysStuck(s1, s', g) && NoneSticks(s1, s', g)
    {
      assert StaysStuck(s1, s, g) && NoneSticks(s1, s, g);
    }
    forall sl
      ensures SlotStays(s1, s', sl) && NoSlotSticks(s1, s', sl)
    {
      assert SlotStays(s1, s, sl) && NoSlotSticks(s1, s, sl);
    }
  }

  /** A child that goes again leaves what was there before it came. */
  lemma ChildGone(r: Job, s1: State, s: State)
    requires NewChild(r) && OnlyChild(r.s0, s1, r.child) && Destroyed(s1, s, r.child)
    ensures OnlyChild(r.s0, s, r.child) && OnlyChild(r.s0, s, 0) && s.pt.Keys == r.s0.pt.Keys
      && s.tabs == r.s0.tabs
  {
    hide Inv;
    forall k
      ensures KeyKept(r.s0, s, k) && (k in s.pt <==> k in r.s0.pt)
    {
      assert KeyKept(r.s0, s1, k);
      assert k !in SpaceKeys(s, r.child);
    }
    forall f: nat
      ensures StaysStuck(r.s0, s, f) && (f in s.tabs <==> f in r.s0.tabs)
    {
      assert StaysStuck(r.s0, s1, f) && StaysStuck(s1, s, f);
      assert f !in SpaceTables(s, r.child);
    }
    forall sl
      ensures SlotStays(r.s0, s, sl)
    {
      assert SlotStays(r.s0, s1, sl) && SlotStays(s1, s, sl);
    }
  }

  /** The byte of frame `f` once the child is gone. */
  lemma ByteBack(r: Job, s1: State, s: State, copy: map<nat, nat>, pages: set<nat>, f: nat)
    requires Flat(r, s1, copy, pages) && Inv(s) && Dropping(s1, s, r.child) && OnlyChild(r.s0, s, r.child)
    requires s.pt.Keys == r.s0.pt.Keys && s.tabs == r.s0.tabs && f < |r.s0.rc| == |s.rc|
    ensures s.rc[f] == if Sticks(r.s0, r.pd, pages, f) then STICKY else r.s0.rc[f]
  {
    assert StaysStuck(r.s0, s1, f) && StaysStuck(s1, s, f) && NoneSticks(s1, s, f) && StuckWhy(r, s1, pages, f);
    if Ours(r.s0.rc, f) && s1.rc[f] != STICKY {
      FlatAdded(r, s1, copy, pages);
      ByteAtLeast(r, s1, pages, f);
      SameKeys(r.s0, s, r.child, f);
      assert FrameOk(r.s0, f) && FrameOk(s, f);
    }
  }

  lemma SameKeys(s0: State, s: State, child: nat, f: nat)
    requires OnlyChild(s0, s, child) && s.pt.Keys == s0.pt.Keys
    ensures KeysOn(s.pt, f) == KeysOn(s0.pt, f) && SlotKeys(s.pt, f) == SlotKeys(s0.pt, f)
  {
    forall k
      ensures k in KeysOn(s.pt, f) <==> k in KeysOn(s0.pt, f)
      ensures k in SlotKeys(s.pt, f) <==> k in SlotKeys(s0.pt, f)
    {
      assert KeyKept(s0, s, k);
    }
  }

  lemma SlotBack(r: Job, s1: State, s: State, copy: map<nat, nat>, pages: set<nat>, sl: nat)
    requires Flat(r, s1, copy, pages) && Inv(s) && Dropping(s1, s, r.child) && OnlyChild(r.s0, s, r.child)
    requires s.pt.Keys == r.s0.pt.Keys && sl in s.sc && sl in r.s0.sc
    ensures s.sc[sl] == if SlotSticks(r.s0, r.pd, pages, sl) then STICKY else r.s0.sc[sl]
  {
    assert SlotStays(r.s0, s1, sl) && SlotStays(s1, s, sl) && NoSlotSticks(s1, s, sl) && SlotWhy(r, s1, pages, sl);
    if GoodSlot(r.s0, sl) && s1.sc[sl] != STICKY {
      FlatAdded(r, s1, copy, pages);
      SlotByteIs(r, s1, pages, sl);
      SameKeys(r.s0, s, r.child, sl);
      assert SlotOk(r.s0, sl) && SlotOk(s, sl) && Shape(s1);
    }
  }

  lemma PageBack(r: Job, s1: State, s: State, copy: map<nat, nat>, pages: set<nat>, k: Key)
    requires Flat(r, s1, copy, pages) && Dropping(s1, s, r.child) && OnlyChild(r.s0, s, r.child)
    requires k in s.pt && k in r.s0.pt
    ensures BackAt(r.s0, s, r.pd, pages, k)
  {
    assert KeyKept(r.s0, s, k) && ForkAt(r, s1, pages, k);
  }

  /** With the child gone again, all is what it was, but for pages that are copy on write and bytes that stick. */
  lemma CountsRestored(r: Job, s1: State, s: State, copy: map<nat, nat>, pages: set<nat>)
    requires Flat(r, s1, copy, pages) && Inv(s) && Destroyed(s1, s, r.child)
    ensures Restored(r.s0, s, r.pd, pages)
  {
    ChildGone(r, s1, s);
    hide Inv, Flat, OnlyChild, Look, Forked, Sticks, SlotSticks, BackAt;
    SameSize(r, s1, copy, pages);
    forall k | k in s.pt ensures BackAt(r.s0, s, r.pd, pages, k) { PageBack(r, s1, s, copy, pages, k); }
    forall f | 0 <= f < |s.rc|
      ensures s.rc[f] == if Sticks(r.s0, r.pd, pages, f) then STICKY else r.s0.rc[f]
    {
      ByteBack(r, s1, s, copy, pages, f);
    }
    forall sl | sl in s.sc
      ensures s.sc[sl] == if SlotSticks(r.s0, r.pd, pages, sl) then STICKY else r.s0.sc[sl]
    {
      SlotBack(r, s1, s, copy, pages, sl);
    }
    FreeBack(r, s1, s, copy, pages);
  }

  lemma SameSize(r: Job, s: State, copy: map<nat, nat>, pages: set<nat>)
    requires Flat(r, s, copy, pages)
    ensures |s.rc| == |r.s0.rc| && s.sc.Keys == r.s0.sc.Keys && NewChild(r) && OnlyChild(r.s0, s, r.child)
  {
  }

  /** As many frames are free as before. */
  lemma FreeBack(r: Job, s1: State, s: State, copy: map<nat, nat>, pages: set<nat>)
    requires Flat(r, s1, copy, pages) && Inv(s) && |s.rc| == |r.s0.rc|
    requires forall f | 0 <= f < |s.rc| :: s.rc[f] == if Sticks(r.s0, r.pd, pages, f) then STICKY else r.s0.rc[f]
    ensures s.free == r.s0.free
  {
    forall f | 0 <= f < |s.rc|
      ensures s.rc[f] == 0 <==> r.s0.rc[f] == 0
    {
      if r.s0.rc[f] == 0 { NotOn(r.s0, r.pd, pages, f); }
    }
    ZerosSame(s.rc, r.s0.rc);
  }

  lemma NotOn(s0: State, pd: nat, pages: set<nat>, f: nat)
    requires Inv(s0) && f < |s0.rc| && s0.rc[f] == 0
    ensures OnFrame(s0, pd, pages, f) == {}
  {
    assert FrameOk(s0, f) && KeysOn(s0.pt, f) == {};
    forall p: nat
      ensures p !in OnFrame(s0, pd, pages, f)
    {
      assert Key(pd, p) !in KeysOn(s0.pt, f);
    }
  }

  lemma TreeStays(r: Job, s1: State, s: State, tab: Tables)
    requires NewChild(r) && Tree(s1, r.pd, tab) && Destroyed(s1, s, r.child)
    ensures Tree(s, r.pd, tab)
  {
    forall p: nat
      ensures PageThere(s, r.pd, tab, p)
    {
      assert PageThere(s1, r.pd, tab, p);
    }
  }

  /** The address spaces, as the kernel keeps them, with the tables of a parent and of its child. */
  class Spaces {
    var s: State
    var hint: nat
    var pd: nat
    var child: nat
    var tab: Tables
    var ctab: Tables
    ghost var copy: map<nat, nat>
    ghost var seen: set<(nat, nat)>
    ghost var pages: set<nat>

    constructor (s: State, pd: nat, tab: Tables)
      ensures this.s == s && this.pd == pd && this.tab == tab
    {
      this.s, this.pd, this.tab := s, pd, tab;
      hint, child, ctab, copy, seen, pages := 0, 0, map[], map[], {}, {};
    }

    ghost function W(): Work
      reads this
    {
      Work(tab, ctab, copy, seen)
    }

    ghost predicate Doing(r: Job)
      reads this
    {
      r.pd == pd && r.child == child && All(r, s, W(), pages)
    }

    /** Looks for a free frame, next fit; 0 when there is none. */
    method FindFrame() returns (f: nat)
      requires Inv(s)
      modifies this`hint
      ensures f != 0 ==> FreeFrame(s, f)
      ensures f == 0 <==> s.free == 0
    {
      var n := 0;
      var start := if hint < |s.rc| then hint else 0;
      while n < |s.rc|
        invariant 0 <= n <= |s.rc| && start <= |s.rc|
        invariant forall k | 0 <= k < n :: s.rc[Ring(start, k, |s.rc|)] != 0
      {
        var i := Ring(start, n, |s.rc|);
        if s.rc[i] == 0 {
          hint := i + 1;
          ZerosPositive(s.rc, i);
          return i;
        }
        n := n + 1;
      }
      forall g: nat | g < |s.rc|
        ensures s.rc[g] != 0
      {
        var k: nat := if start <= g then g - start else g + |s.rc| - start;
        assert Ring(start, k, |s.rc|) == g;
      }
      ZerosNone(s.rc);
      f := 0;
    }

    /** The page at place `i` of a table of level 0: copy on write on both sides if it is private and writable. */
    method ClonePage(ghost r: Job, t: nat, dst: nat, block: nat, i: nat)
      requires Doing(r) && t in copy && copy[t] == dst && t in r.home && r.home[t] == Place(0, block) && i < 512
        && (t, i) !in seen
      requires EntryIn(r.tab, t, i).Leaf?
      modifies this
      ensures Doing(r) && copy == old(copy) && seen == old(seen) + {(t, i)}
    {
      hide All, Flat, Faithful, JobOk, Tree, PagesSeen, OnlyChild, Clone;
      var p := block * 512 + i;
      NowThere(r, s, W(), pages, t, i);
      AllIs(r, s, W(), pages);
      assert PairHas(r, t, i, p);
      AllPage(r, s, W(), pages, t, i, p);
      SameFork(r, s, tab[t][i].e);
      var e := Leaf(Forked(s, tab[t][i].e));
      s := Clone(s, Key(pd, p), child);
      tab := Put(tab, t, i, e);
      ctab := Put(ctab, dst, i, e);
      seen, pages := seen + {(t, i)}, pages + {p};
    }

    /** A marker is copied as it is; in the flat state it stands for 512 reserved pages. */
    method CloneMark(ghost r: Job, t: nat, dst: nat, block: nat, i: nat)
      requires Doing(r) && t in copy && copy[t] == dst && t in r.home && r.home[t] == Place(1, block) && i < 512
        && (t, i) !in seen
      requires EntryIn(r.tab, t, i) == MARK
      modifies this
      ensures Doing(r) && copy == old(copy) && seen == old(seen) + {(t, i)}
    {
      hide All, Flat, Faithful, JobOk, Tree, PagesSeen, PairHas, Clone;
      ghost var w, pages0 := W(), pages;
      NowThere(r, s, w, pages, t, i);
      AllIs(r, s, w, pages);
      var first := (block * 512 + i) * 512;
      MarkPairs(r, t, i, first);
      var k := 0;
      assert pages0 + MarkPages(first, 0) == pages0;
      while k < 512
        invariant 0 <= k <= 512 && W() == w && pages == pages0 && r.pd == pd && r.child == child
        invariant Flat(r, s, copy, pages0 + MarkPages(first, k))
      {
        MarkStep(r, s, w, pages0, t, i, first, k);
        s := Clone(s, Key(pd, first + k), child);
        k := k + 1;
      }
      AllMark(r, s, w, pages0, MarkPages(first, 512), t, i);
      MarkStays(r);
      PutSame(tab, t, i);
      ctab := Put(ctab, dst, i, MARK);
      seen, pages := seen + {(t, i)}, pages + MarkPages(first, 512);
    }

    /** clone_level: the entries of one table, and all that hangs on them; for the root the user half only. */
    method CloneLevel(ghost r: Job, t: nat, dst: nat, lvl: nat, block: nat) returns (ok: bool)
      requires Doing(r) && Fresh(r, W(), t) && copy[t] == dst && t in r.home && r.home[t] == Place(lvl, block)
      requires Front(r, W(), AddrOf(Place(lvl, block), 0), lvl)
      modifies this
      ensures Doing(r)
      ensures ok ==> Went(r, old(W()), W(), t, Entries(lvl))
      ensures ok ==> Front(r, W(), AddrOf(Place(lvl, block), Entries(lvl)), 4)
      ensures !ok ==> r.s0.free < |r.tab| && Stopped(r, pages)
      decreases lvl, 1
    {
      hide All, Went, Fresh, Front, Stopped, AddrOf;
      ghost var w0 := W();
      WentNowhere(r, w0, t);
      FreshHas(r, w0, t);
      ok := true;
      var n, i := Entries(lvl), 0;
      while i < n
        invariant 0 <= i <= n && Doing(r) && Went(r, w0, W(), t, i)
        invariant Front(r, W(), AddrOf(Place(lvl, block), i), Depth(lvl, i))
      {
        ok := CloneEntry(r, w0, t, dst, lvl, block, i);
        if !ok { return; }
        i := i + 1;
      }
    }

    /** One entry. */
    method CloneEntry(ghost r: Job, ghost w0: Work, t: nat, dst: nat, lvl: nat, block: nat, i: nat) returns (ok: bool)
      requires Doing(r) && Fresh(r, w0, t) && Went(r, w0, W(), t, i) && i < 512
      requires t in w0.copy && w0.copy[t] == dst && t in r.home && r.home[t] == Place(lvl, block)
      requires Front(r, W(), AddrOf(Place(lvl, block), i), Depth(lvl, i))
      modifies this
      ensures Doing(r)
      ensures ok ==> Went(r, w0, W(), t, i + 1) && Front(r, W(), AddrOf(Place(lvl, block), i + 1), 4)
      ensures !ok ==> r.s0.free < |r.tab| && Stopped(r, pages)
      decreases lvl, 0
    {
      hide All, Went, Fresh, JobOk, Front, Stopped, AddrOf, Depth;
      ghost var w := W();
      AllIs(r, s, w, pages);
      NotSeen(r, w0, w, t, i);
      NowThere(r, s, w, pages, t, i);
      EntryKind(r, t, i);
      match tab[t][i]
      case Link(c) =>
        ok := CloneTable(r, w0, t, dst, lvl, block, i, c);
      case Zero =>
        AllZero(r, s, w, pages, t, i);
        PutSame(tab, t, i);
        PutSame(ctab, dst, i);
        seen := seen + {(t, i)};
        WentOver(r, w0, w, W(), t, i);
        FrontOver(r, w, W(), t, i);
        ok := true;
      case Leaf(_) =>
        if lvl == 0 { ClonePage(r, t, dst, block, i); } else { CloneMark(r, t, dst, block, i); }
        WentOver(r, w0, w, W(), t, i);
        FrontOver(r, w, W(), t, i);
        ok := true;
    }

    /** An entry that links table `c`: a table for the child, if there is a frame, and then all under it. */
    method CloneTable(ghost r: Job, ghost w0: Work, t: nat, dst: nat, lvl: nat, block: nat, i: nat, c: nat)
        returns (ok: bool)
      requires Doing(r) && Fresh(r, w0, t) && Went(r, w0, W(), t, i) && i < 512 && EntryIn(r.tab, t, i) == Link(c)
      requires t in w0.copy && w0.copy[t] == dst && t in copy && copy[t] == dst && t in r.home
        && r.home[t] == Place(lvl, block) && lvl > 0
      requires Front(r, W(), AddrOf(Place(lvl, block), i), Depth(lvl, i))
      modifies this
      ensures Doing(r)
      ensures ok ==> Went(r, w0, W(), t, i + 1) && Front(r, W(), AddrOf(Place(lvl, block), i + 1), 4)
      ensures !ok ==> r.s0.free < |r.tab| && Stopped(r, pages)
      decreases lvl - 1, 2
    {
      hide All, Went, Fresh, JobOk, Flat, Faithful, Hung, Front, Stopped, AddrOf;
      ghost var w := W();
      AllIs(r, s, w, pages);
      LinkDown(r, t, i);
      ChildAddr(r.home[t], i, r.home[c]);
      var n := HangTable(r, w0, t, dst, i, c);
      if n == 0 { return false; }
      ghost var w1 := W();
      ok := CloneLevel(r, c, n, lvl - 1, block * 512 + i);
      if ok { WentDown(r, w0, w, w1, W(), t, i); }
    }

    method HangTable(ghost r: Job, ghost w0: Work, t: nat, dst: nat, i: nat, c: nat) returns (n: nat)
      requires Doing(r) && Fresh(r, w0, t) && Went(r, w0, W(), t, i) && i < 512 && EntryIn(r.tab, t, i) == Link(c)
      requires t in copy && copy[t] == dst && c in r.tab && Hangs(r, c, t, i) && t in r.home && c in r.home
      requires 0 < r.home[t].lvl <= 3 && r.home[c] == Place(r.home[t].lvl - 1, r.home[t].block * 512 + i)
      requires Front(r, W(), AddrOf(r.home[t], i), Depth(r.home[t].lvl, i))
      modifies this
      ensures Doing(r)
      ensures n == 0 ==> r.s0.free < |r.tab| && Stopped(r, pages) && W() == old(W())
      ensures n != 0 ==> Front(r, W(), AddrOf(r.home[c], 0), r.home[c].lvl)
      ensures n != 0 ==>
        Fresh(r, W(), c) && copy == old(copy)[c := n] && seen == old(seen) + {(t, i)}
        && c !in old(copy)
    {
      hide All, Went, Fresh, JobOk, Flat, Faithful, Tree, PagesSeen, TableFrame, Hangs, Front, Stopped, AddrOf, Depth;
      hide Inv, FreeFrame;
      ghost var w := W();
      AllIs(r, s, w, pages);
      FlatInv(r, s, copy, pages);
      NotYet(r, w0, w, t, i, c);
      n := FindFrame();
      if n == 0 {
        AllStop(r, s, w, pages, c, t, i);
        return;
      }
      TableFits(s, n);
      AllHung(r, s, w0, w, pages, t, i, n);
      s := TableFrame(s, n, child);
      ctab := Put(ctab[n := Blank()], dst, i, Link(n));
      copy, seen := copy[c := n], seen + {(t, i)};
      assert W() == Hung(r, w, t, i, n);
    }

    /** The root of the child, and nothing copied yet. */
    method StartClone(ghost home: map<nat, Place>) returns (ghost r: Job)
      requires Inv(s) && Rooted(s) && Tree(s, pd, tab) && Ok(tab, home, pd) && UserOnly(tab, pd)
      modifies this
      ensures r == Job(old(s), old(tab), home, pd, child) && pd == old(pd)
      ensures child == 0 <==> old(s).free == 0
      ensures child == 0 ==> s == old(s) && tab == old(tab)
      ensures child != 0 ==>
                && Doing(r) && Fresh(r, W(), pd) && pd in copy && copy[pd] == child && Front(r, W(), 0, 3)
                && pd in home && home[pd] == Place(3, 0)
    {
      hide Inv, Rooted, Tree, Ok, UserOnly, All, Fresh, TableFrame, Front;
      child := FindFrame();
      r := Job(s, tab, home, pd, child);
      if child == 0 { return; }
      AllStart(r);
      s := TableFrame(s, child, child);
      ctab := map[child := Blank()];
      copy, seen, pages := map[pd := child], {}, {};
      FrontStart(r, W());
    }

    /**
      vmm_clone_space. It fails exactly when there are fewer free frames than the parent has tables;
      then the child is gone, the pages that the recursion had come to are copy on write, and every
      reference byte is what it was unless these pages carried it to 254. Otherwise the child has a
      tree of tables of its own, which maps the parent's pages.
      */
    method CloneSpace(ghost home: map<nat, Place>) returns (c: nat)
      requires Inv(s) && Rooted(s) && Tree(s, pd, tab) && Ok(tab, home, pd) && UserOnly(tab, pd)
      modifies this
      ensures pd == old(pd) && Inv(s) && Rooted(s) && Tree(s, pd, tab) && Ok(tab, home, pd) && UserOnly(tab, pd)
      ensures c == 0 <==> old(s).free < |old(tab)|
      ensures c == 0 ==> Restored(old(s), s, pd, Reached(old(s), old(tab), home, pd))
      ensures c != 0 ==>
                && ForkDone(old(s), s, pd, c) && s.free == old(s).free - |old(tab)|
                && Tree(s, c, ctab) && UserOnly(ctab, c) && exists h :: Ok(ctab, h, c)
    {
      hide Tree, Ok, UserOnly, Inv, Rooted, Restored, All, ForkDone, Destroyed, OnlyChild, NewChild, Went, Fresh;
      hide Front, Stopped, Reached;
      ghost var r := StartClone(home);
      if child == 0 {
        RootCounts(tab, home, pd);
        NothingDone(s, pd);
        NoneReached(s, tab, home, pd);
        return 0;
      }
      ghost var w0 := W();
      var ok := CloneLevel(r, pd, child, 3, 0);
      if ok {
        FullEnd(r, s, w0, W(), pages);
        return child;
      }
      HalfEnd(r, s, W(), pages);
      ghost var s1 := s;
      ghost var chome := HalfChild(r, s, W(), pages);
      DestroySpace(child, ctab, chome);
      FailEnd(r, s1, s, W(), pages);
      c := 0;
    }

    /** A space that is being taken down, and the tables it had. */
    ghost predicate Taking(r: Job)
      reads this
    {
      Inv(s) && Dropping(r.s0, s, r.pd) && JobOk(r) && Tree(r.s0, r.pd, r.tab)
    }

    /** Page `p` goes, with its frame or slot reference. */
    method DropPageAt(ghost r: Job, sp: nat, p: nat)
      requires Taking(r) && sp == r.pd && Key(sp, p) in s.pt
      modifies this`s
      ensures Taking(r) && Cut(r, old(s), s, p, p + 1, 0)
    {
      hide Inv, Tree, JobOk, Dropping, Clear;
      DropPage(r.s0, s, Key(sp, p));
      s := Clear(s, Key(sp, p));
      CutPage(r, old(s), s, p);
    }

    /** A marker: nothing to release; in the flat state its 512 reserved pages go. */
    method DropMark(ghost r: Job, sp: nat, ghost t: nat, block: nat, i: nat)
      requires Taking(r) && sp == r.pd && t in r.tab && t in r.home && r.home[t] == Place(1, block) && i < 512
      requires EntryIn(r.tab, t, i) == MARK
      requires Whole(r, s, AddrOf(Place(1, block), i), AddrOf(Place(1, block), i + 1), 1)
      modifies this`s
      ensures Taking(r) && Cut(r, old(s), s, AddrOf(Place(1, block), i), AddrOf(Place(1, block), i + 1), 1)
    {
      hide Inv, Tree, JobOk, Dropping, Cut, Whole;
      var first := (block * 512 + i) * 512;
      ghost var was := s;
      MarkKeys(r, s, t, i, first);
      CutNothing(r, s, first, 0);
      var k := 0;
      while k < 512
        invariant 0 <= k <= 512 && Taking(r) && Cut(r, was, s, first, first + k, 0)
      {
        StillThere(r, was, s, first, k);
        ghost var now := s;
        DropPageAt(r, sp, first + k);
        CutMore(r, was, now, s, first, first + k, first + k + 1, 0);
        k := k + 1;
      }
      CutLevels(r, was, s, t, i);
    }

    /** One entry of a table, and all that hangs on it. */
    method FreeEntry(ghost r: Job, sp: nat, tabs: Tables, t: nat, lvl: nat, block: nat, i: nat)
      requires Taking(r) && sp == r.pd && tabs == r.tab && t in r.tab && t in r.home && r.home[t] == Place(lvl, block)
      requires lvl <= 3 && i < 512
      requires Whole(r, s, AddrOf(Place(lvl, block), i), AddrOf(Place(lvl, block), i + 1), lvl)
      modifies this`s
      ensures Taking(r) && Cut(r, old(s), s, AddrOf(Place(lvl, block), i), AddrOf(Place(lvl, block), i + 1), lvl)
      decreases lvl, 0
    {
      hide Inv, Tree, JobOk, Dropping, Cut, Whole;
      EntryKind(r, t, i);
      TableSize(r, t);
      match tabs[t][i]
      case Zero =>
        MappedPages(r);
        NothingToCut(r, s, t, i);
      case Leaf(_) =>
        if lvl == 0 {
          PageToDrop(r, s, t, i);
          DropPageAt(r, sp, block * 512 + i);
        } else {
          DropMark(r, sp, t, block, i);
        }
      case Link(c) =>
        LinkDown(r, t, i);
        ChildAddr(r.home[t], i, r.home[c]);
        FreeTables(r, sp, tabs, c, lvl - 1, block * 512 + i);
    }

    /** free_tables: all entries of a table, and then the table itself. */
    method FreeTables(ghost r: Job, sp: nat, tabs: Tables, t: nat, lvl: nat, block: nat)
      requires Taking(r) && sp == r.pd && tabs == r.tab && t in r.tab && t in r.home && r.home[t] == Place(lvl, block)
      requires lvl < 3 && Whole(r, s, AddrOf(Place(lvl, block), 0), AddrOf(Place(lvl, block), 512), lvl + 1)
      modifies this`s
      ensures Taking(r) && Cut(r, old(s), s, AddrOf(Place(lvl, block), 0), AddrOf(Place(lvl, block), 512), lvl + 1)
      decreases lvl, 2
    {
      FreeEntries(r, sp, tabs, t, lvl, block, 512);
    }

    method FreeEntries(ghost r: Job, sp: nat, tabs: Tables, t: nat, lvl: nat, block: nat, n: nat)
      requires Taking(r) && sp == r.pd && tabs == r.tab && t in r.tab && t in r.home && r.home[t] == Place(lvl, block)
      requires lvl <= 3 && 0 < n <= 512
      requires Whole(r, s, AddrOf(Place(lvl, block), 0), AddrOf(Place(lvl, block), n), lvl + 1)
      modifies this`s
      ensures Taking(r) && Cut(r, old(s), s, AddrOf(Place(lvl, block), 0), AddrOf(Place(lvl, block), n), lvl + 1)
      decreases lvl, 1
    {
      hide Inv, Tree, JobOk, Cut, Whole, AddrOf;
      ghost var was, h := s, Place(lvl, block);
      CutNothing(r, s, AddrOf(h, 0), lvl);
      AddrGrows(h, 0, n);
      var i := 0;
      while i < n
        invariant 0 <= i <= n && Taking(r) && Cut(r, was, s, AddrOf(h, 0), AddrOf(h, i), lvl)
      {
        ghost var now := s;
        AddrGrows(h, 0, i);
        AddrGrows(h, i, i + 1);
        AddrGrows(h, i + 1, n);
        WholeLater(r, was, s, AddrOf(h, 0), AddrOf(h, i), AddrOf(h, n), lvl + 1, lvl);
        WholePart(r, s, AddrOf(h, i), AddrOf(h, i + 1), AddrOf(h, n), lvl + 1, lvl);
        FreeEntry(r, sp, tabs, t, lvl, block, i);
        CutMore(r, was, now, s, AddrOf(h, 0), AddrOf(h, i), AddrOf(h, i + 1), lvl);
        i := i + 1;
      }
      AddrGrows(h, 0, n);
      AddrGrows(h, n, 512);
      StillTable(r, was, s, t, AddrOf(h, n));
      ghost var now := s;
      DropTable(r.s0, s, sp, t);
      s := TableFreed(s, t);
      CutTable(r, was, now, s, t, AddrOf(h, n));
    }

    /** vmm_destroy_space, for any space: down the user half of its tree, and then the root. */
    method DestroySpace(sp: nat, tabs: Tables, ghost home: map<nat, Place>)
      requires Inv(s) && Tree(s, sp, tabs) && Ok(tabs, home, sp) && UserOnly(tabs, sp)
      modifies this`s
      ensures Inv(s) && Destroyed(old(s), s, sp)
    {
      hide Inv, Tree, Ok, UserOnly, Cut, Whole, Dropping, Destroyed;
      ghost var r := Job(s, tabs, home, sp, 0);
      RootHome(tabs, home, sp);
      DropNothing(s, sp);
      AllWhole(r);
      FreeEntries(r, sp, tabs, sp, 3, 0, 256);
      AllCut(r, s);
    }
  }

  lemma RootHome(tab: Tables, home: map<nat, Place>, pd: nat)
    requires Ok(tab, home, pd)
    ensures pd in tab && pd in home && home[pd] == Place(3, 0)
  {
  }

  lemma TableSize(r: Job, t: nat)
    requires JobOk(r) && t in r.tab
    ensures |r.tab[t]| == 512
  {
    assert TableOk(r.tab, r.home, t);
  }

  lemma CutPage(r: Job, s: State, s': State, p: nat)
    requires s'.pt == s.pt - {Key(r.pd, p)} && s'.tabs == s.tabs
    ensures Cut(r, s, s', p, p + 1, 0)
  {
    forall k: Key
      ensures k in s'.pt <==> k in s.pt && !(k.pd == r.pd && p <= k.va < p + 1)
    {
      assert k == Key(k.pd, k.va);
    }
  }

  /** The entry of a page in a table of level 0. */
  lemma PageToDrop(r: Job, s: State, t: nat, i: nat)
    requires JobOk(r) && Tree(r.s0, r.pd, r.tab) && t in r.tab && t in r.home && i < 512 && r.home[t].lvl == 0
    requires EntryIn(r.tab, t, i).Leaf? && Whole(r, s, AddrOf(r.home[t], i), AddrOf(r.home[t], i + 1), 0)
    ensures Key(r.pd, r.home[t].block * 512 + i) in s.pt && AddrOf(r.home[t], i) == r.home[t].block * 512 + i
    ensures AddrOf(r.home[t], i + 1) == r.home[t].block * 512 + i + 1
  {
    var p := r.home[t].block * 512 + i;
    assert PairHas(r, t, i, p);
    PairKey(r, t, i, p);
  }

  lemma MarkKeys(r: Job, s: State, t: nat, i: nat, first: nat)
    requires JobOk(r) && Tree(r.s0, r.pd, r.tab) && t in r.tab && t in r.home && i < 512 && r.home[t].lvl == 1
    requires EntryIn(r.tab, t, i) == MARK && first == (r.home[t].block * 512 + i) * 512
    requires Whole(r, s, AddrOf(r.home[t], i), AddrOf(r.home[t], i + 1), 1)
    ensures forall p: nat | first <= p < first + 512 :: Key(r.pd, p) in s.pt
    ensures AddrOf(r.home[t], i) == first && AddrOf(r.home[t], i + 1) == first + 512
  {
    forall p: nat | first <= p < first + 512
      ensures Key(r.pd, p) in s.pt
    {
      assert PairHas(r, t, i, p);
      PairKey(r, t, i, p);
    }
  }

  lemma StillThere(r: Job, was: State, s: State, first: nat, k: nat)
    requires Cut(r, was, s, first, first + k, 0) && Key(r.pd, first + k) in was.pt
    ensures Key(r.pd, first + k) in s.pt
  {
  }

  /** There is no table under a marker. */
  lemma CutLevels(r: Job, was: State, s: State, t: nat, i: nat)
    requires JobOk(r) && t in r.tab && t in r.home && i < 512 && r.home[t].lvl == 1 && EntryIn(r.tab, t, i) == MARK
    requires Cut(r, was, s, AddrOf(r.home[t], i), AddrOf(r.home[t], i + 1), 0)
    ensures Cut(r, was, s, AddrOf(r.home[t], i), AddrOf(r.home[t], i + 1), 1)
  {
    var lo, hi := AddrOf(r.home[t], i), AddrOf(r.home[t], i + 1);
    forall f: nat
      ensures !Within(r, f, lo, hi, 1)
    {
      if Within(r, f, lo, hi, 1) {
        TableInside(r, t, i, f);
        NothingHangs(r, t, i, f);
      }
    }
  }

  lemma AddrGrows(h: Place, i: nat, j: nat)
    requires i <= j
    ensures AddrOf(h, i) <= AddrOf(h, j) && (i < j ==> AddrOf(h, i) < AddrOf(h, j))
  {
    var x, y, w := h.block * 512 + i, h.block * 512 + j, Wide(h.lvl);
    Less(y, x, w);
    Less(x, y, w);
  }

  /** The table itself has not gone with what hangs on it. */
  lemma StillTable(r: Job, was: State, s: State, t: nat, hi: nat)
    requires JobOk(r) && Tree(r.s0, r.pd, r.tab) && t in r.tab && t in r.home && Dropping(r.s0, s, r.pd)
    requires Whole(r, was, AddrOf(r.home[t], 0), hi, r.home[t].lvl + 1) && AddrOf(r.home[t], 0) < hi
    requires Cut(r, was, s, AddrOf(r.home[t], 0), hi, r.home[t].lvl)
    ensures t in s.tabs && s.tabs[t] == r.pd
  {
    assert Within(r, t, AddrOf(r.home[t], 0), hi, r.home[t].lvl + 1);
  }

  lemma AllWhole(r: Job)
    requires JobOk(r) && Tree(r.s0, r.pd, r.tab)
    ensures AddrOf(Place(3, 0), 0) == 0 && AddrOf(Place(3, 0), 256) == TOP && Whole(r, r.s0, 0, TOP, 4)
  {
  }

  lemma AllCut(r: Job, s: State)
    requires JobOk(r) && Tree(r.s0, r.pd, r.tab) && Dropping(r.s0, s, r.pd) && Cut(r, r.s0, s, 0, TOP, 4)
    ensures Destroyed(r.s0, s, r.pd)
  {
    forall k | k in s.pt
      ensures k.pd != r.pd
    {
      assert PageThere(r.s0, r.pd, r.tab, k.va) && k == Key(k.pd, k.va);
    }
    forall f | f in s.tabs
      ensures s.tabs[f] != r.pd
    {
      if s.tabs[f] == r.pd {
        assert TableOk(r.tab, r.home, f);
        UserTable(r, f);
        assert Within(r, f, 0, TOP, 4);
      }
    }
  }

  /** The child has the parent's pages with the same contents, and all others have what they had. */
  ghost predicate ForkDone(s0: State, s: State, pd: nat, child: nat) {
    && child !in s0.tabs && child in s.tabs
    && (forall va: nat :: Key(child, va) in s.pt <==> Key(pd, va) in s0.pt)
    && (forall k :: ForkedOrKept(s0, s, pd, child, k))
  }

  ghost predicate ForkedOrKept(s0: State, s: State, pd: nat, child: nat, k: Key) {
    k in s0.pt ==>
      && k.pd != child && k in s.pt && Look(s, s.pt[k]) == Look(s0, s0.pt[k])
      && s.pt[k] == (if k.pd == pd then Forked(s0, s0.pt[k]) else s0.pt[k])
      && (k.pd == pd ==>
            && Key(child, k.va) in s.pt && s.pt[Key(child, k.va)] == Forked(s0, s0.pt[k])
            && Look(s, s.pt[Key(child, k.va)]) == Look(s0, s0.pt[k]))
  }

  /** The pages of the parent that a fork comes to with the frames there are. */
  ghost function Reached(s: State, tab: Tables, home: map<nat, Place>, pd: nat): set<nat> {
    set k | k in s.pt && k.pd == pd && Comes(tab, home, s.free, k.va) :: k.va
  }

  lemma StoppedIs(r: Job, pages: set<nat>)
    requires Stopped(r, pages)
    ensures pages == Reached(r.s0, r.tab, r.home, r.pd)
  {
    forall p: nat
      ensures p in pages <==> p in Reached(r.s0, r.tab, r.home, r.pd)
    {
      assert Key(r.pd, p).va == p;
      if p in Reached(r.s0, r.tab, r.home, r.pd) {
        var k :| k in r.s0.pt && k.pd == r.pd && Comes(r.tab, r.home, r.s0.free, k.va) && k.va == p;
        assert k == Key(r.pd, p);
      }
    }
  }

  lemma RootCounts(tab: Tables, home: map<nat, Place>, pd: nat)
    requires Ok(tab, home, pd)
    ensures |tab| > 0
  {
    Smaller({}, tab.Keys, pd);
    assert |tab| == |tab.Keys|;
  }

  lemma AllStart(r: Job)
    requires Inv(r.s0) && Rooted(r.s0) && Tree(r.s0, r.pd, r.tab) && Ok(r.tab, r.home, r.pd) && UserOnly(r.tab, r.pd)
    requires FreeFrame(r.s0, r.child) && r.child != 0
    ensures |r.s0.mem| == |r.s0.rc| && r.pd in r.home && r.home[r.pd] == Place(3, 0)
    ensures var w := Work(r.tab, map[r.child := Blank()], map[r.pd := r.child], {});
            All(r, TableFrame(r.s0, r.child, r.child), w, {}) && Fresh(r, w, r.pd)
  {
    hide Inv, Rooted, FreeFrame, Flat, TableFrame, Faithful;
    assert r.pd in r.tab;
    assert r.pd in r.s0.tabs;
    FlatStart(r);
    FaithfulStart(r);
  }

  lemma NothingDone(s: State, pd: nat)
    requires Inv(s)
    ensures Restored(s, s, pd, {})
  {
    forall k | k in s.pt ensures BackAt(s, s, pd, {}, k) { }
    forall f | 0 <= f < |s.rc|
      ensures s.rc[f] == if Sticks(s, pd, {}, f) then STICKY else s.rc[f]
    {
      assert OnFrame(s, pd, {}, f) == {} && Shape(s);
    }
    forall sl | sl in s.sc
      ensures s.sc[sl] == if SlotSticks(s, pd, {}, sl) then STICKY else s.sc[sl]
    {
      assert OnSlot(s, pd, {}, sl) == {} && Shape(s);
    }
  }

  /** Without a frame for the root no page is reached. */
  lemma NoneReached(s: State, tab: Tables, home: map<nat, Place>, pd: nat)
    requires Ok(tab, home, pd) && s.free == 0
    ensures Reached(s, tab, home, pd) == {}
  {
    forall k | k in s.pt && k.pd == pd
      ensures !Comes(tab, home, s.free, k.va)
    {
      assert pd in TablesTo(tab, home, k.va);
    }
  }

  /** The whole tree went over. */
  lemma FullEnd(r: Job, s: State, w0: Work, w: Work, pages: set<nat>)
    requires All(r, s, w, pages) && Rooted(r.s0) && Went(r, w0, w, r.pd, 256)
    ensures Inv(s) && Rooted(s) && Tree(s, r.pd, w.tab) && Ok(w.tab, r.home, r.pd) && UserOnly(w.tab, r.pd)
    ensures r.child != 0 && r.s0.free >= |r.tab| && s.free == r.s0.free - |r.tab|
    ensures ForkDone(r.s0, s, r.pd, r.child)
    ensures Tree(s, r.child, w.ctab) && UserOnly(w.ctab, r.child) && exists h :: Ok(w.ctab, h, r.child)
  {
    hide Went, Ok, UserOnly, Tree, Inv, Rooted, ForkDone, Flat, Faithful, Full, JobOk, PagesSeen;
    AllIs(r, s, w, pages);
    RootCopied(r, w);
    var v := Rest(r, w);
    FullRest(r, w0, w);
    FaithfulRest(r, w);
    RestPages(r, w, pages);
    assert All(r, s, v, pages);
    ParentTree(r, s, v, pages);
    ParentOk(r, v);
    ChildTree(r, s, v, pages);
    CopyOk(r, v);
    ForkEnds(r, s, v, pages);
  }

  lemma RestPages(r: Job, w: Work, pages: set<nat>)
    requires JobOk(r) && PagesSeen(r, w.seen, pages)
    ensures PagesSeen(r, Rest(r, w).seen, pages)
  {
    forall p: nat
      ensures SeenPage(r, Rest(r, w).seen, p) <==> SeenPage(r, w.seen, p)
    {
      if SeenPage(r, Rest(r, w).seen, p) {
        var t: nat, i: nat :| (t, i) in Rest(r, w).seen && PairHas(r, t, i, p);
        assert (t, i) in w.seen;
      }
      if SeenPage(r, w.seen, p) {
        var t: nat, i: nat :| (t, i) in w.seen && PairHas(r, t, i, p);
        assert (t, i) in Rest(r, w).seen;
      }
    }
  }

  lemma ForkEnds(r: Job, s: State, w: Work, pages: set<nat>)
    requires Flat(r, s, w.copy, pages) && Rooted(r.s0) && Full(r, w) && Faithful(r, w)
    requires forall p: nat :: p in pages <==> Key(r.pd, p) in r.s0.pt
    ensures Inv(s) && Rooted(s) && r.child != 0 && r.s0.free >= |r.tab| && s.free == r.s0.free - |r.tab|
    ensures ForkDone(r.s0, s, r.pd, r.child)
  {
    hide Faithful, Full, Cloned, OnlyChild, Rooted, ForkedOrKept, Inv, ForkAt, HasCopy;
    CopyCounts(r, w);
    FreeNat(s);
    StaysRooted(r.s0, s, r.child);
    forall k
      ensures ForkedOrKept(r.s0, s, r.pd, r.child, k)
    {
      assert ForkAt(r, s, pages, k) && ForkAt(r, s, pages, Key(r.child, k.va)) && k == Key(k.pd, k.va);
      PageForked(r, s, pages, k);
    }
    forall va: nat
      ensures Key(r.child, va) in s.pt <==> Key(r.pd, va) in r.s0.pt
    {
      assert ForkAt(r, s, pages, Key(r.child, va));
      ChildHas(r, s, pages, va);
    }
  }

  lemma ChildHas(r: Job, s: State, pages: set<nat>, va: nat)
    requires ForkAt(r, s, pages, Key(r.child, va))
    ensures Key(r.child, va) in s.pt <==> va in pages
  {
  }

  lemma FreeNat(s: State)
    requires Inv(s)
    ensures s.free >= 0
  {
  }

  lemma CopyCounts(r: Job, w: Work)
    requires Full(r, w) && Faithful(r, w)
    ensures |w.copy| == |r.tab| && HasCopy(w.copy, r.child)
  {
    CopyInside(r, w);
    RootCopied(r, w);
    assert w.copy.Keys == r.tab.Keys && |w.copy| == |w.copy.Keys| && |r.tab| == |r.tab.Keys|;
  }

  lemma PageForked(r: Job, s: State, pages: set<nat>, k: Key)
    requires NewChild(r) && OnlyChild(r.s0, s, r.child) && Cloned(r.s0, s, r.pd, r.child, pages)
    requires ForkAt(r, s, pages, k) && ForkAt(r, s, pages, Key(r.child, k.va))
    requires k in r.s0.pt && k.pd == r.pd ==> k.va in pages
    ensures ForkedOrKept(r.s0, s, r.pd, r.child, k)
  {
    hide Look, Forked;
    assert KeyKept(r.s0, s, k);
    if k in r.s0.pt && k.pd == r.pd {
      assert k == Key(r.pd, k.va);
      assert Views(s)[Key(r.child, k.va)] == Views(r.s0)[Key(r.pd, k.va)];
    }
  }

  /** Half-way the parent is whole. */
  lemma HalfEnd(r: Job, s: State, w: Work, pages: set<nat>)
    requires All(r, s, w, pages)
    ensures Inv(s) && NewChild(r) && OnlyChild(r.s0, s, r.child)
    ensures Tree(s, r.pd, w.tab) && Ok(w.tab, r.home, r.pd) && UserOnly(w.tab, r.pd)
  {
    hide Ok, UserOnly, Tree, Inv, Faithful, JobOk, PagesSeen;
    ParentTree(r, s, w, pages);
    ParentOk(r, w);
  }

  /** And the child has a tree of its own, as far as it goes. */
  lemma HalfChild(r: Job, s: State, w: Work, pages: set<nat>) returns (home: map<nat, Place>)
    requires All(r, s, w, pages)
    ensures Tree(s, r.child, w.ctab) && Ok(w.ctab, home, r.child) && UserOnly(w.ctab, r.child)
  {
    hide Ok, UserOnly, Tree, Flat, Faithful, JobOk, PagesSeen;
    AllIs(r, s, w, pages);
    CopyOk(r, w);
    ChildTree(r, s, w, pages);
    HomesThere(r, w);
    home := Homes(r, w);
  }

  lemma HomesThere(r: Job, w: Work)
    requires Faithful(r, w)
    ensures forall n | n in w.ctab :: IsCopy(w, n)
  {
  }

  lemma FailEnd(r: Job, s1: State, s: State, w: Work, pages: set<nat>)
    requires All(r, s1, w, pages) && Rooted(r.s0) && Inv(s) && Destroyed(s1, s, r.child) && Stopped(r, pages)
    ensures Restored(r.s0, s, r.pd, Reached(r.s0, r.tab, r.home, r.pd)) && Rooted(s) && Tree(s, r.pd, w.tab)
  {
    hide Inv, Restored, Tree, Destroyed, OnlyChild, NewChild, Rooted, Flat, Faithful, JobOk, PagesSeen, Stopped;
    SameSize(r, s1, w.copy, pages);
    ParentTree(r, s1, w, pages);
    ChildGone(r, s1, s);
    CountsRestored(r, s1, s, w.copy, pages);
    StoppedIs(r, pages);
    TreeStays(r, s1, s, w.tab);
    StaysRooted(r.s0, s, r.child);
  }

  function MarkPages(first: nat, k: nat): (ps: set<nat>)
    ensures forall p: nat :: p in ps <==> first <= p < first + k
  {
    if k == 0 then {} else MarkPages(first, k - 1) + {first + k - 1}
  }

  lemma MarkPairs(r: Job, t: nat, i: nat, first: nat)
    requires t in r.tab && t in r.home && r.home[t].lvl == 1 && i < 512 && EntryIn(r.tab, t, i) == MARK
    requires first == (r.home[t].block * 512 + i) * 512
    ensures forall p: nat :: p in MarkPages(first, 512) <==> PairHas(r, t, i, p)
  {
  }

  lemma MarkStep(r: Job, s: State, w: Work, pages: set<nat>, t: nat, i: nat, first: nat, k: nat)
    requires JobOk(r) && Tree(r.s0, r.pd, r.tab) && PagesSeen(r, w.seen, pages) && (t, i) !in w.seen && k < 512
    requires Flat(r, s, w.copy, pages + MarkPages(first, k)) && forall p: nat ::
      p in MarkPages(first, 512) <==> PairHas(r, t, i, p)
    ensures Flat(r, Clone(s, Key(r.pd, first + k), r.child), w.copy, pages + MarkPages(first, k + 1))
  {
    hide Flat, JobOk, Tree, PagesSeen, PairHas, Clone;
    assert PairHas(r, t, i, first + k);
    NewPair(r, w.seen, pages, t, i, first + k);
    PairKey(r, t, i, first + k);
    FlatPage(r, s, w.copy, pages + MarkPages(first, k), first + k);
    assert pages + MarkPages(first, k) + {first + k} == pages + MarkPages(first, k + 1);
  }

  lemma PutSame(tab: Tables, t: nat, i: nat)
    requires t in tab && i < |tab[t]|
    ensures Put(tab, t, i, tab[t][i]) == tab
  {
    assert tab[t][i := tab[t][i]] == tab[t];
  }

  lemma FreshHas(r: Job, w: Work, t: nat)
    requires Fresh(r, w, t)
    ensures t in w.copy && t in r.tab
  {
  }

  lemma AllIs(r: Job, s: State, w: Work, pages: set<nat>)
    requires All(r, s, w, pages)
    ensures JobOk(r) && Tree(r.s0, r.pd, r.tab) && Flat(r, s, w.copy, pages) && Faithful(r, w)
      && PagesSeen(r, w.seen, pages)
    ensures OnlyChild(r.s0, s, r.child)
  {
  }

  lemma FlatInv(r: Job, s: State, copy: map<nat, nat>, pages: set<nat>)
    requires Flat(r, s, copy, pages)
    ensures Inv(s)
  {
  }

  lemma NotSeen(r: Job, w0: Work, w: Work, t: nat, i: nat)
    requires JobOk(r) && Fresh(r, w0, t) && Went(r, w0, w, t, i) && i < 512
    ensures (t, i) !in w.seen && t in w.copy && w.copy[t] == w0.copy[t] && t in r.tab
  {
    UnderSelf(r, t);
    assert Untouched(w0, t);
  }

  /** An entry that was not copied yet is still what it was. */
  lemma NowThere(r: Job, s: State, w: Work, pages: set<nat>, t: nat, i: nat)
    requires All(r, s, w, pages) && t in w.copy && i < 512 && (t, i) !in w.seen
    ensures t in r.tab && t in w.tab && |w.tab[t]| == 512 && w.tab[t][i] == EntryIn(r.tab, t, i)
    ensures w.copy[t] in w.ctab && |w.ctab[w.copy[t]]| == 512 && w.ctab[w.copy[t]][i] == Zero
  {
    assert CopyAt(r, w, t, i) && TabAt(r, w, t, i);
  }

  lemma EntryKind(r: Job, t: nat, i: nat)
    requires JobOk(r) && t in r.tab && t in r.home && i < 512
    ensures var e, l := EntryIn(r.tab, t, i), r.home[t].lvl;
            && (e.Link? ==> l > 0)
            && (e.Leaf? ==> l == 0 || (l == 1 && e == MARK))
  {
    assert TableOk(r.tab, r.home, t) && PteOk(r.tab, r.home, r.home[t], i, r.tab[t][i]);
  }

  /** Entries that a fork goes over: for the root the user half only. */
  function Entries(lvl: nat): nat {
    if lvl == 3 then 256 else 512
  }

  /** The table got its frame. */
  lemma AllHung(r: Job, s: State, w0: Work, w: Work, pages: set<nat>, t: nat, i: nat, n: nat)
    requires All(r, s, w, pages) && Fresh(r, w0, t) && Went(r, w0, w, t, i) && i < 512 && FreeFrame(s, n)
    requires EntryIn(r.tab, t, i).Link? && t in w.copy && t in r.tab && t in r.home && 0 < r.home[t].lvl <= 3
    requires var c := EntryIn(r.tab, t, i).child;
             c in r.tab && c in r.home && Hangs(r, c, t, i) && c !in w.copy && Untouched(w, c)
             && r.home[c] == Place(r.home[t].lvl - 1, r.home[t].block * 512 + i)
    requires Front(r, w, AddrOf(r.home[t], i), Depth(r.home[t].lvl, i))
    ensures |s.mem| == |s.rc| && w.copy[t] in w.ctab && |w.ctab[w.copy[t]]| == 512 && n !in w.ctab
    ensures var c, w' := EntryIn(r.tab, t, i).child, Hung(r, w, t, i, n);
            && All(r, TableFrame(s, n, r.child), w', pages) && Fresh(r, w', c)
            && Front(r, w', AddrOf(r.home[c], 0), r.home[c].lvl)
  {
    hide Went, Fresh, JobOk, Flat, Faithful, Tree, PagesSeen, TableFrame, Hangs, Front, AddrOf, Depth, Inv;
    AllIs(r, s, w, pages);
    FlatInv(r, s, w.copy, pages);
    TableFits(s, n);
    AllTable(r, s, w, pages, t, i, n);
    FreshBelow(r, w0, w, t, i, n);
    FrontHung(r, w, Hung(r, w, t, i, n), t, i, EntryIn(r.tab, t, i).child);
  }

  lemma AllStop(r: Job, s: State, w: Work, pages: set<nat>, c: nat, t: nat, i: nat)
    requires All(r, s, w, pages) && s.free == 0 && c in r.tab && c in r.home && c !in w.copy
    requires t in r.home && 0 < r.home[t].lvl <= 3
    requires r.home[c] == Place(r.home[t].lvl - 1, r.home[t].block * 512 + i)
    requires Front(r, w, AddrOf(r.home[t], i), Depth(r.home[t].lvl, i))
    ensures Stopped(r, pages) && r.s0.free < |r.tab|
  {
    ChildAddr(r.home[t], i, r.home[c]);
    CopyInside(r, w);
    MappedPages(r);
    hide Front, JobOk, Faithful, Stopped, Inv, OnlyChild, View, AddrOf;
    forall p | p in pages
      ensures Key(r.pd, p) in r.s0.pt
    {
      assert ForkAt(r, s, pages, Key(r.child, p));
    }
    FrontStop(r, w, pages, c, Depth(r.home[t].lvl, i));
    TooFew(r, s, w, pages, c);
  }

  lemma MappedPages(r: Job)
    requires JobOk(r) && Tree(r.s0, r.pd, r.tab)
    ensures forall p: nat :: Key(r.pd, p) in r.s0.pt <==> p < TOP && View(r.tab, r.pd, p).Leaf?
  {
    forall p: nat
      ensures Key(r.pd, p) in r.s0.pt <==> p < TOP && View(r.tab, r.pd, p).Leaf?
    {
      assert PageThere(r.s0, r.pd, r.tab, p);
    }
  }

  lemma LinkDown(r: Job, t: nat, i: nat)
    requires JobOk(r) && t in r.tab && i < 512 && EntryIn(r.tab, t, i).Link?
    ensures var c := EntryIn(r.tab, t, i).child;
            && t in r.home && c in r.tab && c in r.home && Hangs(r, c, t, i) && 0 < r.home[t].lvl <= 3
            && r.home[c] == Place(r.home[t].lvl - 1, r.home[t].block * 512 + i)
  {
    LinkUnder(r, t, i, t);
    assert TableOk(r.tab, r.home, t) && PteOk(r.tab, r.home, r.home[t], i, r.tab[t][i]);
  }
}

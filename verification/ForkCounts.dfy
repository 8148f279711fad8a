/**
  References that a fork takes, counted frame by frame and slot by slot: as many as the pages it has
  come to name the frame or the slot. A byte gets stuck if and only if they carry it to 254.
  */
module ForkCounts {
  import opened FramePool
  import opened VmState
  import opened VmOps
  import opened TreeCopy

  /** The child did not exist before. */
  ghost predicate NewChild(r: Job) {
    && (forall k | k in r.s0.pt :: k.pd != r.child)
    && (forall f | f in r.s0.tabs :: r.s0.tabs[f] != r.child)
    && r.child !in r.s0.tabs && r.pd != r.child && r.child != 0
  }

  /** Pages of the parent in `pages` are forked, and the child has exactly those. */
  ghost predicate ForkAt(r: Job, s: State, pages: set<nat>, k: Key) {
    && (k in r.s0.pt && k.pd != r.child ==>
          k in s.pt && s.pt[k] == if k.pd == r.pd && k.va in pages then Forked(r.s0, r.s0.pt[k]) else r.s0.pt[k])
    && (k.pd == r.child ==>
          && (k in s.pt <==> k.va in pages)
          && (k in s.pt ==> Key(r.pd, k.va) in r.s0.pt && s.pt[k] == Forked(r.s0, r.s0.pt[Key(r.pd, k.va)])))
  }

  /** The pages in `pages` that name frame `f`. */
  function OnFrame(s0: State, pd: nat, pages: set<nat>, f: nat): set<nat> {
    set p | p in pages && Key(pd, p) in s0.pt && s0.pt[Key(pd, p)].Present? && s0.pt[Key(pd, p)].fr == f
  }

  /** And those that name slot `sl`. */
  function OnSlot(s0: State, pd: nat, pages: set<nat>, sl: nat): set<nat> {
    set p | p in pages && Key(pd, p) in s0.pt && s0.pt[Key(pd, p)].Swapped? && s0.pt[Key(pd, p)].slot == sl
  }

  /** The references that these pages add carry the byte of `f` to the value that sticks. */
  ghost predicate Sticks(s0: State, pd: nat, pages: set<nat>, f: nat) {
    Ours(s0.rc, f) && s0.rc[f] + |OnFrame(s0, pd, pages, f)| >= STICKY
  }

  ghost predicate SlotSticks(s0: State, pd: nat, pages: set<nat>, sl: nat) {
    GoodSlot(s0, sl) && s0.sc[sl] + |OnSlot(s0, pd, pages, sl)| >= STICKY
  }

  // ---------- counting ----------

  function KeysOf(pd: nat, ps: set<nat>): set<Key> {
    set p | p in ps :: Key(pd, p)
  }

  lemma {:induction false} AsMany(pd: nat, ps: set<nat>)
    ensures |KeysOf(pd, ps)| == |ps|
  {
    if ps != {} {
      var p :| p in ps;
      AsMany(pd, ps - {p});
      assert KeysOf(pd, ps) == KeysOf(pd, ps - {p}) + {Key(pd, p)};
    }
  }

  lemma ForkedTarget(s: State, e: Entry)
    ensures SameTarget(e, Forked(s, e))
  {
  }

  /** Since the fork began only entries of the child were added. */
  ghost predicate Added(r: Job, s: State, pages: set<nat>) {
    && NewChild(r) && (forall k :: ForkAt(r, s, pages, k))
    && (forall k | k in s.pt && k !in r.s0.pt :: k.pd == r.child)
  }

  lemma KeyOn(r: Job, s: State, pages: set<nat>, f: nat, k: Key)
    requires Added(r, s, pages)
    ensures k in KeysOn(s.pt, f) <==> k in KeysOn(r.s0.pt, f) + KeysOf(r.child, OnFrame(r.s0, r.pd, pages, f))
  {
    assert ForkAt(r, s, pages, k);
    if k in r.s0.pt { ForkedTarget(r.s0, r.s0.pt[k]); }
    if Key(r.pd, k.va) in r.s0.pt { ForkedTarget(r.s0, r.s0.pt[Key(r.pd, k.va)]); }
    assert k == Key(k.pd, k.va);
  }

  lemma KeysGrow(r: Job, s: State, pages: set<nat>, f: nat)
    requires Added(r, s, pages)
    ensures |KeysOn(s.pt, f)| == |KeysOn(r.s0.pt, f)| + |OnFrame(r.s0, r.pd, pages, f)|
  {
    var more := KeysOf(r.child, OnFrame(r.s0, r.pd, pages, f));
    forall k
      ensures k in KeysOn(s.pt, f) <==> k in KeysOn(r.s0.pt, f) + more
    {
      KeyOn(r, s, pages, f, k);
    }
    assert KeysOn(s.pt, f) == KeysOn(r.s0.pt, f) + more;
    assert KeysOn(r.s0.pt, f) !! more;
    AsMany(r.child, OnFrame(r.s0, r.pd, pages, f));
  }

  lemma SlotKeyOn(r: Job, s: State, pages: set<nat>, sl: nat, k: Key)
    requires Added(r, s, pages)
    ensures k in SlotKeys(s.pt, sl) <==> k in SlotKeys(r.s0.pt, sl) + KeysOf(r.child, OnSlot(r.s0, r.pd, pages, sl))
  {
    assert ForkAt(r, s, pages, k);
    if k in r.s0.pt { ForkedTarget(r.s0, r.s0.pt[k]); }
    if Key(r.pd, k.va) in r.s0.pt { ForkedTarget(r.s0, r.s0.pt[Key(r.pd, k.va)]); }
    assert k == Key(k.pd, k.va);
  }

  lemma SlotKeysGrow(r: Job, s: State, pages: set<nat>, sl: nat)
    requires Added(r, s, pages)
    ensures |SlotKeys(s.pt, sl)| == |SlotKeys(r.s0.pt, sl)| + |OnSlot(r.s0, r.pd, pages, sl)|
  {
    var more := KeysOf(r.child, OnSlot(r.s0, r.pd, pages, sl));
    forall k
      ensures k in SlotKeys(s.pt, sl) <==> k in SlotKeys(r.s0.pt, sl) + more
    {
      SlotKeyOn(r, s, pages, sl, k);
    }
    assert SlotKeys(s.pt, sl) == SlotKeys(r.s0.pt, sl) + more;
    assert SlotKeys(r.s0.pt, sl) !! more;
    AsMany(r.child, OnSlot(r.s0, r.pd, pages, sl));
  }

  // ---------- why a byte is stuck ----------

  /** A byte that was not stuck before the fork is stuck only if its pages carry it there. */
  ghost predicate StuckWhy(r: Job, s: State, pages: set<nat>, f: nat) {
    f < |s.rc| && f < |r.s0.rc| && s.rc[f] == STICKY && r.s0.rc[f] != STICKY ==> Sticks(r.s0, r.pd, pages, f)
  }

  ghost predicate SlotWhy(r: Job, s: State, pages: set<nat>, sl: nat) {
    sl in s.sc && sl in r.s0.sc && s.sc[sl] == STICKY && r.s0.sc[sl] != STICKY ==> SlotSticks(r.s0, r.pd, pages, sl)
  }

  /** The keepers of frames and slots besides pages and tables are the same. */
  ghost predicate SameKeepers(s0: State, s: State) {
    s.held == s0.held && s.flight == s0.flight && s.batch == s0.batch && s.sflight == s0.sflight
  }

  /** Where the byte is exact, it is the old one and one more for every page. */
  lemma ByteIs(r: Job, s: State, pages: set<nat>, f: nat)
    requires Inv(r.s0) && Inv(s) && Added(r, s, pages) && SameKeepers(r.s0, s) && (f in s.tabs <==> f in r.s0.tabs)
    requires Ours(r.s0.rc, f) && Ours(s.rc, f) && r.s0.rc[f] != STICKY && s.rc[f] != STICKY
    ensures s.rc[f] == r.s0.rc[f] + |OnFrame(r.s0, r.pd, pages, f)|
  {
    KeysGrow(r, s, pages, f);
    assert FrameOk(r.s0, f) && FrameOk(s, f);
  }

  lemma ByteAtLeast(r: Job, s: State, pages: set<nat>, f: nat)
    requires Inv(r.s0) && Inv(s) && Added(r, s, pages) && SameKeepers(r.s0, s) && (f in r.s0.tabs ==> f in s.tabs)
    requires Ours(r.s0.rc, f) && Ours(s.rc, f) && r.s0.rc[f] != STICKY && s.rc[f] != STICKY
    ensures r.s0.rc[f] + |OnFrame(r.s0, r.pd, pages, f)| <= s.rc[f] < STICKY
  {
    KeysGrow(r, s, pages, f);
    assert FrameOk(r.s0, f) && FrameOk(s, f) && Shape(s);
  }

  lemma SlotByteIs(r: Job, s: State, pages: set<nat>, sl: nat)
    requires Inv(r.s0) && Inv(s) && Added(r, s, pages) && SameKeepers(r.s0, s)
    requires GoodSlot(r.s0, sl) && GoodSlot(s, sl) && r.s0.sc[sl] != STICKY && s.sc[sl] != STICKY
    ensures s.sc[sl] == r.s0.sc[sl] + |OnSlot(r.s0, r.pd, pages, sl)|
  {
    SlotKeysGrow(r, s, pages, sl);
    assert SlotOk(r.s0, sl) && SlotOk(s, sl);
  }

  lemma MoreOn(s0: State, pd: nat, pages: set<nat>, p: nat, f: nat)
    requires p !in pages
    ensures |OnFrame(s0, pd, pages + {p}, f)| ==
            |OnFrame(s0, pd, pages, f)| + if p in OnFrame(s0, pd, {p}, f) then 1 else 0
  {
    assert OnFrame(s0, pd, pages + {p}, f) == OnFrame(s0, pd, pages, f) + OnFrame(s0, pd, {p}, f);
    assert OnFrame(s0, pd, {p}, f) <= {p};
    if p in OnFrame(s0, pd, {p}, f) { assert OnFrame(s0, pd, {p}, f) == {p}; } else {
      assert OnFrame(s0, pd, {p}, f) == {};
    }
  }

  lemma MoreOnSlot(s0: State, pd: nat, pages: set<nat>, p: nat, sl: nat)
    requires p !in pages
    ensures |OnSlot(s0, pd, pages + {p}, sl)| ==
            |OnSlot(s0, pd, pages, sl)| + if p in OnSlot(s0, pd, {p}, sl) then 1 else 0
  {
    assert OnSlot(s0, pd, pages + {p}, sl) == OnSlot(s0, pd, pages, sl) + OnSlot(s0, pd, {p}, sl);
    assert OnSlot(s0, pd, {p}, sl) <= {p};
    if p in OnSlot(s0, pd, {p}, sl) { assert OnSlot(s0, pd, {p}, sl) == {p}; } else {
      assert OnSlot(s0, pd, {p}, sl) == {};
    }
  }

  /** One more page keeps the reason. */
  lemma StuckPage(r: Job, s: State, pages: set<nat>, p: nat, f: nat)
    requires Inv(r.s0) && Inv(s) && Added(r, s, pages) && SameKeepers(r.s0, s) && |s.rc| == |r.s0.rc|
    requires Key(r.pd, p) in r.s0.pt && p !in pages && StuckWhy(r, s, pages, f)
    requires f < |s.rc| ==> (s.rc[f] == NOT_OURS <==> r.s0.rc[f] == NOT_OURS)
    requires forall g | g in r.s0.tabs :: g in s.tabs
    ensures StuckWhy(r, Clone(s, Key(r.pd, p), r.child), pages + {p}, f)
  {
    var k := Key(r.pd, p);
    MoreOn(r.s0, r.pd, pages, p, f);
    assert ForkAt(r, s, pages, k) && KeyOk(s, k) && Shape(s) && Shape(r.s0);
    if f < |s.rc| && s.rc[f] != STICKY && r.s0.rc[f] != STICKY && Clone(s, k, r.child).rc[f] == STICKY {
      assert s.pt[k] == r.s0.pt[k];
      ForkedTarget(s, s.pt[k]);
      assert s.pt[k].Present? && s.pt[k].fr == f && s.rc[f] == STICKY - 1;
      ByteIs(r, s, pages, f);
    }
  }

  lemma SlotStuckPage(r: Job, s: State, pages: set<nat>, p: nat, sl: nat)
    requires Inv(r.s0) && Inv(s) && Added(r, s, pages) && SameKeepers(r.s0, s) && s.sc.Keys == r.s0.sc.Keys
    requires Key(r.pd, p) in r.s0.pt && p !in pages && SlotWhy(r, s, pages, sl)
    requires sl in s.sc ==> (s.sc[sl] == BAD_SLOT <==> r.s0.sc[sl] == BAD_SLOT)
    ensures SlotWhy(r, Clone(s, Key(r.pd, p), r.child), pages + {p}, sl)
  {
    var k := Key(r.pd, p);
    MoreOnSlot(r.s0, r.pd, pages, p, sl);
    assert ForkAt(r, s, pages, k) && Shape(s) && Shape(r.s0);
    if sl in s.sc && s.sc[sl] != STICKY && r.s0.sc[sl] != STICKY && Clone(s, k, r.child).sc[sl] == STICKY {
      assert s.pt[k] == r.s0.pt[k];
      ForkedTarget(s, s.pt[k]);
      assert s.pt[k].Swapped? && s.pt[k].slot == sl && s.sc[sl] == STICKY - 1;
      SlotByteIs(r, s, pages, sl);
    }
  }

  /** A byte that all pages of the parent together do not carry to 254 never sticks. */
  lemma NeverSticks(s0: State, pd: nat, pages: set<nat>, f: nat)
    requires Ours(s0.rc, f) && s0.rc[f] + |set k | k in KeysOn(s0.pt, f) && k.pd == pd| < STICKY
    ensures !Sticks(s0, pd, pages, f)
  {
    var all := set k | k in KeysOn(s0.pt, f) && k.pd == pd;
    var some := KeysOf(pd, OnFrame(s0, pd, pages, f));
    assert some <= all && all == some + (all - some);
    AsMany(pd, OnFrame(s0, pd, pages, f));
  }

  lemma SlotNeverSticks(s0: State, pd: nat, pages: set<nat>, sl: nat)
    requires GoodSlot(s0, sl) && s0.sc[sl] + |set k | k in SlotKeys(s0.pt, sl) && k.pd == pd| < STICKY
    ensures !SlotSticks(s0, pd, pages, sl)
  {
    var all := set k | k in SlotKeys(s0.pt, sl) && k.pd == pd;
    var some := KeysOf(pd, OnSlot(s0, pd, pages, sl));
    assert some <= all && all == some + (all - some);
    AsMany(pd, OnSlot(s0, pd, pages, sl));
  }
}

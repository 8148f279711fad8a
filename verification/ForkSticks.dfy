/**
  A failed fork that does not give a reference byte back: the parent maps a frame with 252 references
  shared at two pages, the fork takes two more, and 254 sticks.
  */
module ForkSticks {
  import opened FramePool
  import opened VmState
  import opened PageTree
  import opened TreeCopy
  import opened ForkOrder
  import opened ForkCounts
  import opened VmFork

  const MAPPED: Entry := Present(6, true, false, true, true, false)

  /** Five tables in frames 1 to 5, a segment in frame 6, and four free frames. */
  function Crowded(): State {
    State([NOT_OURS, 1, 1, 1, 1, 1, 252, 0, 0, 0, 0], 4, seq(11, _ => ZeroPage()),
      map[Key(1, 16) := MAPPED, Key(1, 17) := MAPPED], map[1 := 1, 2 := 1, 3 := 1, 4 := 1, 5 := 1],
      multiset{}[6 := 250], multiset{}, map[], map[], map[], multiset{})
  }

  function One(i: nat, e: Slot): seq<Slot>
    requires i < 512
  {
    Blank()[i := e]
  }

  /** Root, directories, and two page tables side by side, the second one empty. */
  function Tabs(): Tables {
    map[1 := One(0, Link(2)), 2 := One(0, Link(3)), 3 := One(0, Link(4))[1 := Link(5)],
        4 := One(16, Leaf(MAPPED))[17 := Leaf(MAPPED)], 5 := Blank()]
  }

  function Homes5(): map<nat, Place> {
    map[1 := Place(3, 0), 2 := Place(2, 0), 3 := Place(1, 0), 4 := Place(0, 0), 5 := Place(0, 1)]
  }

  lemma CountOf(f: nat)
    ensures Count(Crowded(), f) == if f == 6 then 252 else if 1 <= f <= 5 then 1 else 0
  {
    var s := Crowded();
    assert PicksOn(s.batch, f) == {};
    assert s.held[f] == if f == 6 then 250 else 0;
    if f == 6 {
      assert KeysOn(s.pt, f) == {Key(1, 16), Key(1, 17)};
    } else {
      assert KeysOn(s.pt, f) == {};
    }
  }

  lemma FourFree()
    ensures Zeros(Crowded().rc) == 4
  {
    var rc := Crowded().rc;
    assert rc[..10][..9] == rc[..9] && rc[..9][..8] == rc[..8] && rc[..8][..7] == rc[..7];
    assert Zeros(rc) == 1 + Zeros(rc[..10]);
    assert Zeros(rc[..10]) == 1 + Zeros(rc[..9]);
    assert Zeros(rc[..9]) == 1 + Zeros(rc[..8]);
    assert Zeros(rc[..8]) == 1 + Zeros(rc[..7]);
    ZerosNone(rc[..7]);
  }

  lemma CrowdedInv()
    ensures Inv(Crowded()) && Rooted(Crowded())
  {
    var s := Crowded();
    FourFree();
    forall f
      ensures FrameOk(s, f) && OwnerOk(s, f)
    {
      CountOf(f);
    }
    forall sl
      ensures SlotOk(s, sl) && PickOk(s, sl)
    {
    }
    forall k
      ensures KeyOk(s, k)
    {
    }
  }

  // ---------- the tables ----------

  lemma WalksTo()
    ensures EntryAt(Tabs(), 1, 0, 3) == Link(2) && EntryAt(Tabs(), 1, 0, 2) == Link(3)
    ensures EntryAt(Tabs(), 1, 0, 1) == Link(4) && EntryAt(Tabs(), 1, 1, 1) == Link(5)
  {
    var tab := Tabs();
    assert EntryAt(tab, 1, 0, 3) == EntryIn(tab, 1, 0);
    assert EntryAt(tab, 1, 0, 2) == EntryIn(tab, 2, 0);
    assert EntryAt(tab, 1, 0, 1) == EntryIn(tab, 3, 0);
    assert EntryAt(tab, 1, 1, 1) == EntryIn(tab, 3, 1);
  }

  lemma TabsOk()
    ensures Ok(Tabs(), Homes5(), 1) && UserOnly(Tabs(), 1)
  {
    WalksTo();
    var tab, home := Tabs(), Homes5();
    assert Up(0, 3) == Up(0, 2) == Up(0, 1) == Up(0, 0) == 0;
    assert Up(1, 3) == Up(0, 2);
    forall t
      ensures TableOk(tab, home, t) && Linked(tab, home, 1, t)
    {
    }
  }

  lemma PageIs(p: nat)
    requires p < TOP
    ensures View(Tabs(), 1, p) == if p == 16 || p == 17 then Leaf(MAPPED) else Zero
  {
    var tab := Tabs();
    WalksTo();
    UserBlocks(p);
    var x, y, z := p / 512, p / 512 / 512, p / 512 / 512 / 512;
    if z != 0 {
      assert EntryAt(tab, 1, z, 3) == EntryIn(tab, 1, z % 512) == Zero;
      EmptyBelow(tab, 1, p, 0, 3);
    } else if y != 0 {
      assert y / 512 == 0 && EntryAt(tab, 1, y, 2) == EntryIn(tab, 2, y % 512) == Zero;
      EmptyBelow(tab, 1, p, 0, 2);
    } else if x > 1 {
      assert x / 512 == 0 && EntryAt(tab, 1, x, 1) == EntryIn(tab, 3, x % 512) == Zero;
      EmptyBelow(tab, 1, p, 0, 1);
    } else if x == 1 {
      assert View(tab, 1, p) == EntryIn(tab, 5, p % 512);
    } else {
      assert View(tab, 1, p) == EntryIn(tab, 4, p % 512);
    }
  }

  lemma CrowdedTree()
    ensures Tree(Crowded(), 1, Tabs())
  {
    forall p: nat
      ensures PageThere(Crowded(), 1, Tabs(), p)
    {
      if p < TOP { PageIs(p); }
    }
  }

  /** The fork comes to both pages before it misses a frame for the last table. */
  lemma BothReached()
    ensures Reached(Crowded(), Tabs(), Homes5(), 1) == {16, 17} && Sticks(Crowded(), 1, {16, 17}, 6)
  {
    var s, tab, home := Crowded(), Tabs(), Homes5();
    forall p | p == 16 || p == 17
      ensures Comes(tab, home, 4, p)
    {
      assert TablesTo(tab, home, p) == {1, 2, 3, 4};
    }
    assert Key(1, 16) in s.pt && Key(1, 17) in s.pt;
    assert OnFrame(s, 1, {16, 17}, 6) == {16, 17};
  }

  method StuckByte() returns (sp: Spaces, c: nat)
    ensures c == 0 && |sp.s.rc| == |Crowded().rc| == 11 && Crowded().rc[6] == 252 && sp.s.rc[6] == STICKY
    ensures Restored(Crowded(), sp.s, 1, {16, 17})
  {
    hide Inv, Tree, Ok, Rooted, UserOnly, Tabs, Reached, Crowded, Restored, Homes5;
    CrowdedInv();
    CrowdedTree();
    TabsOk();
    BothReached();
    FiveTables();
    sp := new Spaces(Crowded(), 1, Tabs());
    c := sp.CloneSpace(Homes5());
    ByteStuck(sp.s);
  }

  lemma ByteStuck(s: State)
    requires Restored(Crowded(), s, 1, {16, 17})
    ensures |s.rc| == |Crowded().rc| == 11 && s.rc[6] == STICKY && Crowded().rc[6] == 252
  {
    BothReached();
  }

  lemma FiveTables()
    ensures |Tabs()| == 5 && Crowded().free == 4
  {
    assert Tabs().Keys == {1, 2, 3, 4, 5} && |Tabs()| == |Tabs().Keys|;
  }
}

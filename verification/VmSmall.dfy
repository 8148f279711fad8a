/**
  A small machine from its boot on: one space with the four tables of one page, the page written,
  then forked, or swapped out.
  */
module VmSmall {
  import opened FramePool
  import opened VmState
  import opened VmOps
  import opened VmRuns

  /** Nine frames and one swap slot. */
  function SmallBoot(z: Page): State {
    BootState([NOT_OURS, 0, 0, 0, 0, 0, 0, 0, 0, 0], seq(10, _ => z), map[1 := 0], map[1 := z])
  }

  lemma SmallBootInv(z: Page)
    ensures Inv(SmallBoot(z))
  {
    BootInv([NOT_OURS, 0, 0, 0, 0, 0, 0, 0, 0, 0], seq(10, _ => z), map[1 := 0], map[1 := z]);
  }

  /** The root of space `pd`, which is its first frame, and the three tables below it. */
  function FourTables(pd: nat): seq<Op> {
    [NewTable(pd, pd)] + ([NewTable(pd + 1, pd)] + ([NewTable(pd + 2, pd)] + [NewTable(pd + 3, pd)]))
  }

  /** Space 1 gets page `va` with the bytes `p`. */
  function WritePage(va: nat, p: Page): seq<Op> {
    FourTables(1) + ([Populate(Key(1, va), 9, true)] + [Store(Key(1, va), p)])
  }

  /** And forks into space 5. */
  function ThenFork(va: nat, p: Page): seq<Op> {
    WritePage(va, p) + (FourTables(5) + [ClonePage(Key(1, va), 5)])
  }

  /** Or its page goes to the swap slot. */
  function ThenSwap(va: nat, p: Page): seq<Op> {
    WritePage(va, p) + ([PickPage(Key(1, va), 1)] + ([WriteOut(1)] + [Commit(1)]))
  }

  // ---------- the states on the way ----------

  /** The four frames from `pd` on became tables, and nothing else changed. */
  ghost predicate Grew(s: State, t: State, pd: nat) {
    && t.pt == s.pt && t.batch == s.batch && t.sc == s.sc && t.disk == s.disk && t.flight == s.flight
    && pd + 3 < |s.rc| && t.rc == s.rc[pd := 1][pd + 1 := 1][pd + 2 := 1][pd + 3 := 1] && |t.mem| == |s.mem| == |s.rc|
    && (forall f | 0 <= f < |s.mem| && !(pd <= f <= pd + 3) :: t.mem[f] == s.mem[f])
    && t.tabs == s.tabs[pd := pd][pd + 1 := pd][pd + 2 := pd][pd + 3 := pd]
  }

  lemma TableStepIs(s: State, f: nat, pd: nat)
    requires FreeFrame(s, f) && |s.mem| == |s.rc|
    ensures var t := TableFrame(s, f, pd);
            && t == s.(rc := s.rc[f := 1], free := s.free - 1, mem := s.mem[f := ZeroPage()], tabs := s.tabs[f := pd])
  {
    assert s.flight + multiset{f} - multiset{f} == s.flight;
  }

  lemma TablesGrow(s: State, pd: nat) returns (t: State)
    requires pd + 3 < |s.rc| == |s.mem| && forall f | pd <= f <= pd + 3 :: s.rc[f] == 0
    ensures RunLeads(s, FourTables(pd), t) && Grew(s, t, pd)
  {
    hide Leads, RunLeads, TableFrame;
    var a := TableFrame(s, pd, pd);
    TableStepIs(s, pd, pd);
    TableLeads(s, pd, pd);
    var b := TableFrame(a, pd + 1, pd);
    TableStepIs(a, pd + 1, pd);
    TableLeads(a, pd + 1, pd);
    var c := TableFrame(b, pd + 2, pd);
    TableStepIs(b, pd + 2, pd);
    TableLeads(b, pd + 2, pd);
    t := TableFrame(c, pd + 3, pd);
    TableStepIs(c, pd + 3, pd);
    TableLeads(c, pd + 3, pd);
    OneStep(s, NewTable(pd, pd), a);
    OneStep(a, NewTable(pd + 1, pd), b);
    OneStep(b, NewTable(pd + 2, pd), c);
    OneStep(c, NewTable(pd + 3, pd), t);
    Joined(b, [NewTable(pd + 2, pd)], c, [NewTable(pd + 3, pd)], t);
    Joined(a, [NewTable(pd + 1, pd)], b, [NewTable(pd + 2, pd)] + [NewTable(pd + 3, pd)], t);
    Joined(s, [NewTable(pd, pd)], a, [NewTable(pd + 1, pd)] + ([NewTable(pd + 2, pd)] + [NewTable(pd + 3, pd)]), t);
  }

  /** The machine after the store. */
  ghost predicate Wrote(s: State, va: nat, p: Page) {
    && s.rc == [NOT_OURS, 1, 1, 1, 1, 0, 0, 0, 0, 1] && |s.mem| == 10 && s.mem[9] == p && s.batch == map[]
    && s.tabs == map[1 := 1, 2 := 1, 3 := 1, 4 := 1] && s.sc == map[1 := 0] && 1 in s.disk && s.flight == multiset{}
    && s.pt == map[Key(1, va) := Present(9, true, false, false, true, false)]
  }

  lemma PageWritten(va: nat, p: Page, z: Page) returns (t: State)
    ensures RunLeads(SmallBoot(z), WritePage(va, p), t) && Wrote(t, va, p)
  {
    hide Leads, RunLeads, PopulatePage;
    var s0, k := SmallBoot(z), Key(1, va);
    var s1 := TablesGrow(s0, 1);
    assert s1.rc == [NOT_OURS, 1, 1, 1, 1, 0, 0, 0, 0, 0];
    var s2 := PopulatePage(s1, k, 9, true);
    PopulateLeads(s1, k, 9, true);
    FirstPage(s1, k);
    t := SetMem(s2, 9, p);
    StoreLeads(s2, k, p);
    OneStep(s1, Populate(k, 9, true), s2);
    OneStep(s2, Store(k, p), t);
    Joined(s1, [Populate(k, 9, true)], s2, [Store(k, p)], t);
    Joined(s0, FourTables(1), s1, [Populate(k, 9, true)] + [Store(k, p)], t);
  }

  lemma FirstPage(s: State, k: Key)
    requires |s.rc| == |s.mem| == 10 && s.rc[9] == 0 && s.pt == map[]
    ensures var t := PopulatePage(s, k, 9, true);
            && t.pt == map[k := Present(9, true, false, false, true, false)] && t.rc == s.rc[9 := 1]
            && t.flight == s.flight && |t.mem| == 10 && t.tabs == s.tabs && t.batch == s.batch
            && t.sc == s.sc && t.disk == s.disk
  {
    assert s.flight + multiset{9} - multiset{9} == s.flight;
  }

  /** The page is on its way to the slot, `written` once it is there. */
  ghost predicate Picked(s: State, va: nat, p: Page, written: bool) {
    var k := Key(1, va);
    && s.rc == [NOT_OURS, 1, 1, 1, 1, 0, 0, 0, 0, 2] && s.flight == multiset{} && s.sc == map[1 := 1]
    && |s.mem| == 10 && s.mem[9] == p && 1 in s.tabs && 1 in s.disk && (written ==> s.disk[1] == p)
    && s.pt == map[k := Present(9, false, true, false, true, false)] && s.batch == map[1 := Pick(k, 9, written)]
  }

  /** The page shows `p`, and would show it after a discard too. */
  ghost predicate Survives(s: State, k: Key, p: Page) {
    && |s.mem| == |s.rc| && k.pd in s.tabs && k in s.pt && PrivateWritable(s.pt[k]) && Look(s, s.pt[k]) == Data(p)
    && DiscardPage(s, k) == s
  }

  /** The page is in the slot, and its frame has two references to lose. */
  ghost predicate InSwap(s: State, va: nat, p: Page) {
    && s.rc == [NOT_OURS, 1, 1, 1, 1, 0, 0, 0, 0, 2] && |s.mem| == 10 && s.flight == multiset{9, 9}
    && s.sc == map[1 := 1]
    && Key(1, va) in s.pt && s.pt[Key(1, va)] == Swapped(1, true, true) && 1 in s.disk && s.disk[1] == p
  }

  lemma ForkSurvives(s: State, va: nat, p: Page) returns (u: State)
    requires Wrote(s, va, p)
    ensures RunLeads(s, FourTables(5) + [ClonePage(Key(1, va), 5)], u)
    ensures Survives(u, Key(1, va), p) && IsPresent(u, Key(1, va)) && u.pt[Key(1, va)].cow
  {
    hide Leads, RunLeads;
    var k := Key(1, va);
    var t := TablesGrow(s, 5);
    u := Clone(t, k, 5);
    CloneLeads(t, k, 5);
    OneStep(t, ClonePage(k, 5), u);
    Joined(s, FourTables(5), t, [ClonePage(k, 5)], u);
  }

  lemma PickPicks(s: State, va: nat, p: Page)
    requires Wrote(s, va, p)
    ensures Picked(Scan(s, Key(1, va), 1), va, p, false)
  {
  }

  lemma WriteWrites(s: State, va: nat, p: Page)
    requires Picked(s, va, p, false)
    ensures Picked(WritePick(s, 1), va, p, true)
  {
  }

  lemma CommitSurvives(s: State, va: nat, p: Page)
    requires Picked(s, va, p, true)
    ensures Survives(CommitPage(s, 1), Key(1, va), p) && InSwap(CommitPage(s, 1), va, p)
  {
    var k := Key(1, va);
    assert StillPicked(s, s.batch[1]);
    MapPut(s.pt, k, Swapped(1, true, true));
  }

  lemma SwapSurvives(s: State, va: nat, p: Page) returns (v: State)
    requires Wrote(s, va, p)
    ensures RunLeads(s, [PickPage(Key(1, va), 1)] + ([WriteOut(1)] + [Commit(1)]), v)
    ensures Survives(v, Key(1, va), p) && InSwap(v, va, p)
  {
    hide Leads, RunLeads, Survives, InSwap, Scan, WritePick, CommitPage;
    var k := Key(1, va);
    var t := Scan(s, k, 1);
    PickLeads(s, k, 1);
    PickPicks(s, va, p);
    var u := WritePick(t, 1);
    WriteLeads(t, 1);
    WriteWrites(t, va, p);
    v := CommitPage(u, 1);
    CommitLeads(u, 1);
    CommitSurvives(u, va, p);
    OneStep(s, PickPage(k, 1), t);
    OneStep(t, WriteOut(1), u);
    OneStep(u, Commit(1), v);
    Joined(t, [WriteOut(1)], u, [Commit(1)], v);
    Joined(s, [PickPage(k, 1)], t, [WriteOut(1)] + [Commit(1)], v);
  }
}

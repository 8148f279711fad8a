/**
  What vmm_discard misses: two runs of a small machine, from its boot on, after which a private
  writable page of user space keeps its data when it is discarded.
  */
module VmDiscard {
  import opened VmState
  import opened VmOps
  import opened VmRuns
  import opened VmSmall

  // ---------- the two cases ----------

  /** After run `ops` the page has bytes that are not zero, and discarding it changes nothing. */
  ghost predicate KeepsData(s0: State, ops: seq<Op>, k: Key, p: Page) {
    && Runs(s0, ops)
    && var s := After(s0, ops);
       && Inv(s) && k.pd in s.tabs && k in s.pt && PrivateWritable(s.pt[k])
       && Views(s)[k] == Data(p) && k in Apply(s, Discard(k)).pt && Views(Apply(s, Discard(k)))[k] == Data(p)
  }

  lemma Kept(z: Page, ops: seq<Op>, k: Key, p: Page, t: State)
    requires RunLeads(SmallBoot(z), ops, t) && Survives(t, k, p)
    ensures KeepsData(SmallBoot(z), ops, k, p)
  {
    hide Apply, Enabled, Inv, SmallBoot, DiscardPage;
    SmallBootInv(z);
    RunRefines(SmallBoot(z), ops);
    DiscardLeads(t, k);
  }

  /** A fork made the page copy on write. */
  lemma DiscardMissesCow(va: nat, p: Page, z: Page)
    requires BASE <= va < TOP && p != ZeroPage()
    ensures KeepsData(SmallBoot(z), ThenFork(va, p), Key(1, va), p)
    ensures var s := After(SmallBoot(z), ThenFork(va, p)); IsPresent(s, Key(1, va)) && s.pt[Key(1, va)].cow
  {
    hide SmallBoot, WritePage, Wrote, Survives, KeepsData;
    var s := PageWritten(va, p, z);
    var t := ForkSurvives(s, va, p);
    Joined(SmallBoot(z), WritePage(va, p), s, FourTables(5) + [ClonePage(Key(1, va), 5)], t);
    Kept(z, ThenFork(va, p), Key(1, va), p, t);
  }

  /** The page is in swap. */
  lemma DiscardMissesSwapped(va: nat, p: Page, z: Page)
    requires BASE <= va < TOP && p != ZeroPage()
    ensures KeepsData(SmallBoot(z), ThenSwap(va, p), Key(1, va), p)
    ensures After(SmallBoot(z), ThenSwap(va, p)).pt[Key(1, va)].Swapped?
  {
    hide SmallBoot, WritePage, Wrote, Survives;
    var s := PageWritten(va, p, z);
    var t := SwapSurvives(s, va, p);
    Joined(SmallBoot(z), WritePage(va, p), s, [PickPage(Key(1, va), 1)] + ([WriteOut(1)] + [Commit(1)]), t);
    Kept(z, ThenSwap(va, p), Key(1, va), p, t);
  }
}

/**
  The second half of a swap-out: the picked pages are written in runs of neighbouring slots, the
  runs that failed are taken out, and what was written is committed space by space.
  */
module SwapOut {
  import opened VmState
  import opened VmOps

  /** One picked page in the caller's list. Frame 0 is a failed write, slot -1 one that an entry names by now. */
  datatype Swb = Swb(key: Key, fr: nat, slot: int)

  ghost predicate Listed(s: State, e: Swb) {
    0 <= e.slot && e.slot in s.batch && s.batch[e.slot].key == e.key && s.batch[e.slot].fr == e.fr
  }

  ghost predicate Written(s: State, e: Swb) {
    Listed(s, e) && s.batch[e.slot].written
  }

  predicate DistinctSlots(b: seq<Swb>) {
    forall i, j | 0 <= i < j < |b| :: b[i].slot != b[j].slot
  }

  /** Nobody sees a difference, and the invariant holds. */
  ghost predicate Unseen(s0: State, s: State) {
    Inv(s) && Views(s) == Views(s0) && KeepsOwn(s0, s, {})
  }

  lemma UnseenStep(s0: State, s: State, s': State)
    requires Unseen(s0, s) && Good(s, s', Quiet)
    ensures Unseen(s0, s')
  {
  }

  lemma UnseenRefl(s: State)
    requires Inv(s)
    ensures Unseen(s, s)
  {
  }

  lemma NoZeroFrame(s: State, e: Swb)
    requires Inv(s) && Listed(s, e)
    ensures 0 < e.fr < |s.mem| && e.fr < |s.rc|
  {
    assert PickOk(s, e.slot);
  }

  /** Writing one buffered page to its slot. */
  lemma WriteStep(s0: State, s: State, e: Swb, p: Page)
    requires Unseen(s0, s) && Listed(s, e) && e.fr < |s.mem| && p == s.mem[e.fr]
    ensures var s' := SetDisk(s, e.slot, p, true);
            Unseen(s0, s') && Written(s', e) && s'.mem == s.mem && s'.batch.Keys == s.batch.Keys
            && s'.flight == s.flight && s'.sflight == s.sflight
            && (forall x | Listed(s, x) :: Listed(s', x)) && (forall x | Written(s, x) :: Written(s', x))
  {
    SetDiskGood(s, e.slot, p, true);
    UnseenStep(s0, s, SetDisk(s, e.slot, p, true));
  }

  /** A failed write: slot and frame are dropped, whatever the disk has there now. */
  function Dropped(s: State, e: Swb, junk: Page): State
    requires 0 <= e.slot && e.slot in s.batch
  {
    Give(GiveSlot(FailPick(s, e.slot, junk), e.slot), e.fr)
  }

  lemma DropStep(s0: State, s: State, e: Swb, junk: Page)
    requires Unseen(s0, s) && Listed(s, e)
    ensures Unseen(s0, Dropped(s, e, junk))
  {
    var t := FailPick(s, e.slot, junk);
    WriteFailedGood(s, e.slot, junk);
    UnseenStep(s0, s, t);
    GiveSlotGood(t, e.slot);
    UnseenStep(s0, t, GiveSlot(t, e.slot));
    var u := GiveSlot(t, e.slot);
    GiveGood(u, e.fr);
    UnseenStep(s0, u, Give(u, e.fr));
  }

  lemma DropLeaves(s: State, e: Swb, junk: Page)
    requires Listed(s, e)
    ensures var s' := Dropped(s, e, junk);
            && s'.batch == s.batch - {e.slot} && s'.flight == s.flight && s'.sflight == s.sflight && s'.mem == s.mem
            && s'.pt == s.pt
  {
    BackAgain(s.flight, e.fr);
    BackAgain(s.sflight, e.slot);
    assert SetDisk(s, e.slot, junk, false).batch - {e.slot} == s.batch - {e.slot};
  }

  // ---------- what a flush does to the page tables ----------

  /** The entry still has the frame that was written, and nobody wrote through it since. */
  predicate MayTake(pt: map<Key, Entry>, e: Swb) {
    e.key in pt && pt[e.key].Present? && pt[e.key].fr == e.fr && pt[e.key].cow
  }

  function TakeOne(pt: map<Key, Entry>, e: Swb): map<Key, Entry> {
    if MayTake(pt, e) && e.slot >= 0 then pt[e.key := Swapped(e.slot, true, true)] else pt
  }

  /** The page tables after the entries of `es` went to their slots, in order. */
  function TakeAll(pt: map<Key, Entry>, es: seq<Swb>): map<Key, Entry> {
    if es == [] then pt else TakeOne(TakeAll(pt, es[..|es| - 1]), es[|es| - 1])
  }

  /** How many of them did. */
  function TakeCount(pt: map<Key, Entry>, es: seq<Swb>): nat {
    if es == [] then 0
    else TakeCount(pt, es[..|es| - 1]) + (if MayTake(TakeAll(pt, es[..|es| - 1]), es[|es| - 1]) then 1 else 0)
  }

  lemma TakeNext(pt: map<Key, Entry>, es: seq<Swb>, i: nat)
    requires i < |es|
    ensures TakeAll(pt, es[..i + 1]) == TakeOne(TakeAll(pt, es[..i]), es[i])
    ensures TakeCount(pt, es[..i + 1]) ==
      TakeCount(pt, es[..i]) + (if MayTake(TakeAll(pt, es[..i]), es[i]) then 1 else 0)
  {
    assert es[..i + 1][..i] == es[..i];
  }

  /** Where the run that starts at `i` ends. */
  function RunTo(es: seq<Swb>, i: nat): (j: nat)
    requires i < |es|
    ensures i < j <= |es|
    decreases |es| - i
  {
    if i + 1 < |es| && es[i + 1].slot == es[i].slot + 1 then RunTo(es, i + 1) else i + 1
  }

  /** The entries from `i` on that lie in a run the disk took. */
  function Survivors(es: seq<Swb>, fails: seq<bool>, i: nat): seq<Swb>
    requires |es| == |fails| && i <= |es|
    decreases |es| - i
  {
    if i == |es| then []
    else (if fails[i] then [] else es[i..RunTo(es, i)]) + Survivors(es, fails, RunTo(es, i))
  }

  // ---------- references in flight after the commit ----------

  /** The frame references an entry of the list still has to drop. */
  function FrameDebt(e: Swb): multiset<nat> {
    if e.slot < 0 then multiset{e.fr, e.fr} else multiset{e.fr}
  }

  function SlotDebt(e: Swb): multiset<nat> {
    if e.slot < 0 then multiset{} else multiset{e.slot}
  }

  /** What became of one entry when its space was locked. */
  function Committed(s: State, e: Swb): Swb
    requires 0 <= e.slot && e.slot in s.batch
  {
    if StillPicked(s, s.batch[e.slot]) then e.(slot := -1) else e
  }

  lemma CommitStep(s0: State, s: State, e: Swb)
    requires Unseen(s0, s) && Written(s, e)
    ensures var s' := CommitPage(s, e.slot);
            && Unseen(s0, s') && s'.batch == s.batch - {e.slot}
            && s'.flight == s.flight + FrameDebt(Committed(s, e))
            && s'.sflight == s.sflight + SlotDebt(Committed(s, e))
  {
    hide Inv, Good, FrameDebt, SlotDebt, Committed, CommitPage;
    CommitGood(s, e.slot);
    UnseenStep(s0, s, CommitPage(s, e.slot));
    CommitDebts(s, e);
  }

  lemma CommitDebts(s: State, e: Swb)
    requires Written(s, e)
    ensures var s' := CommitPage(s, e.slot);
            && s'.batch == s.batch - {e.slot}
            && s'.flight == s.flight + FrameDebt(Committed(s, e))
            && s'.sflight == s.sflight + SlotDebt(Committed(s, e))
  {
    if StillPicked(s, s.batch[e.slot]) {
      BackAgain(s.sflight, e.slot);
      assert FrameDebt(Committed(s, e)) == multiset{e.fr} + multiset{e.fr};
    }
  }

  function FrameDebts(es: seq<Swb>): multiset<nat> {
    if es == [] then multiset{} else FrameDebts(es[..|es| - 1]) + FrameDebt(es[|es| - 1])
  }

  function SlotDebts(es: seq<Swb>): multiset<nat> {
    if es == [] then multiset{} else SlotDebts(es[..|es| - 1]) + SlotDebt(es[|es| - 1])
  }

  lemma CommitPt(s: State, e: Swb)
    requires Written(s, e)
    ensures CommitPage(s, e.slot).pt == TakeOne(s.pt, e)
    ensures Committed(s, e).slot < 0 <==> MayTake(s.pt, e)
  {
    assert StillPicked(s, s.batch[e.slot]) <==> MayTake(s.pt, e);
    if MayTake(s.pt, e) { MapPut(s.pt, e.key, Swapped(e.slot, true, true)); }
  }

  /** How many entries gave their frame up. */
  function Released(es: seq<Swb>): nat {
    if es == [] then 0 else Released(es[..|es| - 1]) + (if es[|es| - 1].slot < 0 then 1 else 0)
  }

  lemma DebtsNext(es: seq<Swb>, e: Swb)
    ensures FrameDebts(es + [e]) == FrameDebts(es) + FrameDebt(e)
    ensures SlotDebts(es + [e]) == SlotDebts(es) + SlotDebt(e)
    ensures Released(es + [e]) == Released(es) + (if e.slot < 0 then 1 else 0)
  {
    assert (es + [e])[..|es|] == es;
  }

  /** The debts up to and including `k` are part of all debts. */
  lemma {:induction false} DebtsUpTo(es: seq<Swb>, k: nat)
    requires k < |es|
    ensures FrameDebts(es[..k + 1]) == FrameDebts(es[..k]) + FrameDebt(es[k])
    ensures SlotDebts(es[..k + 1]) == SlotDebts(es[..k]) + SlotDebt(es[k])
    ensures Released(es[..k + 1]) == Released(es[..k]) + (if es[k].slot < 0 then 1 else 0)
    ensures FrameDebts(es[..k + 1]) <= FrameDebts(es) && SlotDebts(es[..k + 1]) <= SlotDebts(es)
    decreases |es|
  {
    assert es[..k + 1] == es[..k] + [es[k]];
    DebtsNext(es[..k], es[k]);
    if k + 1 < |es| {
      var c := es[..|es| - 1];
      DebtsUpTo(c, k);
      assert c[..k + 1] == es[..k + 1];
    } else {
      assert es[..k + 1] == es;
    }
  }

  /** Between the lock and the unlock of one space: `was` are its entries before, `es` after. */
  ghost predicate Locked(t: State, s: State, was: seq<Swb>, es: seq<Swb>) {
    && s.batch == t.batch - SlotsOf(was)
    && s.pt == TakeAll(t.pt, was)
    && s.flight == t.flight + FrameDebts(es) && s.sflight == t.sflight + SlotDebts(es)
    && Released(es) == TakeCount(t.pt, was)
  }

  lemma NothingYet(s: State)
    ensures Locked(s, s, [], [])
  {
  }

  lemma LockedWritten(t: State, s: State, was: seq<Swb>, es: seq<Swb>, i: nat)
    requires i < |was| && DistinctSlots(was) && Written(t, was[i]) && Locked(t, s, was[..i], es)
    ensures Written(s, was[i]) && was[i].slot >= 0
  {
    SlotsGrow(was, i);
  }

  lemma LockedStep(t: State, r: State, s: State, was: seq<Swb>, es: seq<Swb>, i: nat, e: Swb)
    requires i < |was| && DistinctSlots(was) && was[i].slot >= 0 && Locked(t, r, was[..i], es)
    requires s.batch == r.batch - {was[i].slot} && s.pt == TakeOne(r.pt, was[i])
    requires s.flight == r.flight + FrameDebt(e) && s.sflight == r.sflight + SlotDebt(e)
    requires e.slot < 0 <==> MayTake(r.pt, was[i])
    ensures Locked(t, s, was[..i + 1], es + [e])
  {
    hide SlotsOf, TakeAll, TakeCount, TakeOne, MayTake, FrameDebts, SlotDebts, Released, FrameDebt, SlotDebt;
    SlotsGrow(was, i);
    TakeNext(t.pt, was, i);
    DebtsNext(es, e);
  }

  /** The references of `es` are in flight. */
  ghost predicate Covered(s: State, es: seq<Swb>) {
    FrameDebts(es) <= s.flight && SlotDebts(es) <= s.sflight
  }

  lemma LockedCovered(t: State, s: State, was: seq<Swb>, es: seq<Swb>)
    requires Locked(t, s, was, es)
    ensures Covered(s, es)
  {
  }

  /** The references of `es` are gone; `freed` of its pages went to their slot. */
  ghost predicate Owing(t: State, s: State, es: seq<Swb>, freed: nat) {
    && s.batch == t.batch && s.pt == t.pt && freed == Released(es)
    && FrameDebts(es) + s.flight == t.flight && SlotDebts(es) + s.sflight == t.sflight
  }

  lemma NothingOwed(s: State)
    ensures Owing(s, s, [], 0)
  {
  }

  lemma OwingNext(t: State, s: State, es: seq<Swb>, k: nat, freed: nat)
    requires k < |es| && Covered(t, es) && Owing(t, s, es[..k], freed)
    ensures FrameDebt(es[k]) <= s.flight && SlotDebt(es[k]) <= s.sflight
  {
    hide FrameDebts, SlotDebts, FrameDebt, SlotDebt, Released;
    DebtsUpTo(es, k);
    MoreLeft(FrameDebts(es[..k]), FrameDebt(es[k]), s.flight, t.flight);
    MoreLeft(SlotDebts(es[..k]), SlotDebt(es[k]), s.sflight, t.sflight);
  }

  lemma MoreLeft(a: multiset<nat>, b: multiset<nat>, c: multiset<nat>, d: multiset<nat>)
    requires a + b <= d && a + c == d
    ensures b <= c
  {
    forall x
      ensures b[x] <= c[x]
    {
      assert (a + b)[x] <= d[x] == (a + c)[x];
    }
  }

  lemma Cancel(a: multiset<nat>, b: multiset<nat>, c: multiset<nat>)
    requires a + b == c + a
    ensures b == c
  {
    forall x
      ensures b[x] == c[x]
    {
      assert (a + b)[x] == (c + a)[x];
    }
  }

  lemma OwingStep(t: State, r: State, s: State, es: seq<Swb>, k: nat, freed: nat, freed': nat)
    requires k < |es| && Covered(t, es) && Owing(t, r, es[..k], freed)
    requires FrameDebt(es[k]) <= r.flight && SlotDebt(es[k]) <= r.sflight
    requires s.batch == r.batch && s.pt == r.pt
    requires s.flight == r.flight - FrameDebt(es[k]) && s.sflight == r.sflight - SlotDebt(es[k])
    requires freed' == freed + (if es[k].slot < 0 then 1 else 0)
    ensures Owing(t, s, es[..k + 1], freed')
  {
    hide FrameDebts, SlotDebts, FrameDebt, SlotDebt, Released;
    DebtsUpTo(es, k);
    assert FrameDebt(es[k]) + s.flight == r.flight;
    assert SlotDebt(es[k]) + s.sflight == r.sflight;
  }

  /** Lock and unlock of every space of `was` are behind us. */
  ghost predicate Closed(t: State, s: State, was: seq<Swb>, freed: nat) {
    && s.flight == t.flight && s.sflight == t.sflight
    && s.batch == t.batch - SlotsOf(was)
    && s.pt == TakeAll(t.pt, was) && freed == TakeCount(t.pt, was)
  }

  lemma NothingClosed(s: State)
    ensures Closed(s, s, [], 0)
  {
  }

  lemma ClosedWritten(t: State, s: State, was: seq<Swb>, i: nat, freed: nat)
    requires i <= |was| && DistinctSlots(was) && (forall k | i <= k < |was| :: Written(t, was[k]))
    requires Closed(t, s, was[..i], freed)
    ensures forall k | i <= k < |was| :: Written(s, was[k])
    ensures DistinctSlots(was[i..])
  {
    forall k | i <= k < |was|
      ensures Written(s, was[k])
    {
      SlotOutside(was, 0, i, k);
      assert was[0..i] == was[..i];
      assert Written(t, was[k]);
    }
  }

  lemma ClosedStep(t: State, r: State, m: State, s: State, was: seq<Swb>, i: nat, j: nat, es: seq<Swb>, freed: nat,
      got: nat)
    requires i <= j <= |was| && Closed(t, r, was[..i], freed)
    requires Locked(r, m, was[i..j], es) && Owing(m, s, es, got)
    ensures Closed(t, s, was[..j], freed + got)
  {
    hide SlotsOf, TakeAll, TakeCount, FrameDebts, SlotDebts, Released;
    SlotsJoin(was, i, j);
    TakeJoin(t.pt, was, i, j);
    Cancel(FrameDebts(es), s.flight, r.flight);
    Cancel(SlotDebts(es), s.sflight, r.sflight);
  }

  class Reclaim {
    var s: State

    /** The run that starts at `i`: neighbouring entries with neighbouring slots. */
    method RunEnd(b: array<Swb>, n: nat, i: nat) returns (j: nat)
      requires i < n <= b.Length
      ensures i < j <= n && j == RunTo(b[..n], i)
      ensures forall k | i <= k < j :: b[k].slot == b[i].slot + (k - i)
    {
      j := i + 1;
      while j < n && b[j].slot == b[j - 1].slot + 1
        invariant i < j <= n && RunTo(b[..n], i) == RunTo(b[..n], j - 1)
        invariant forall k | i <= k < j :: b[k].slot == b[i].slot + (k - i)
      {
        j := j + 1;
      }
    }

    /** swap_write of one run: page `k` of the buffer goes to the `k`th slot after the first. */
    method WriteRun(b: array<Swb>, i: nat, j: nat, ghost s0: State)
      requires i < j <= b.Length && Unseen(s0, s)
      requires forall k | i <= k < j :: Listed(s, b[k]) && b[k].slot == b[i].slot + (k - i)
      modifies this
      ensures Unseen(s0, s) && s.batch.Keys == old(s).batch.Keys && s.mem == old(s).mem
      ensures s.flight == old(s).flight && s.sflight == old(s).sflight && s.pt == old(s).pt
      ensures forall x | Listed(old(s), x) :: Listed(s, x)
      ensures forall x | Written(old(s), x) :: Written(s, x)
      ensures forall k | i <= k < j :: Written(s, b[k])
    {
      var bounce := new Page[j - i](_ => []);
      var k := i;
      while k < j
        invariant i <= k <= j && s == old(s)
        invariant forall m | i <= m < k :: b[m].fr < |s.mem| && bounce[m - i] == s.mem[b[m].fr]
      {
        NoZeroFrame(s, b[k]);
        bounce[k - i] := s.mem[b[k].fr];
        k := k + 1;
      }
      var first := b[i].slot;
      var d := 0;
      while d < j - i
        invariant 0 <= d <= j - i
        invariant Unseen(s0, s) && s.mem == old(s).mem && s.batch.Keys == old(s).batch.Keys
        invariant s.flight == old(s).flight && s.sflight == old(s).sflight && s.pt == old(s).pt
        invariant forall m | i <= m < j :: b[m].fr < |s.mem| && bounce[m - i] == s.mem[b[m].fr]
        invariant forall x | Listed(old(s), x) :: Listed(s, x)
        invariant forall x | Written(old(s), x) :: Written(s, x)
        invariant forall m | i <= m < i + d :: Written(s, b[m])
      {
        assert Listed(s, b[i + d]);
        WriteStep(s0, s, b[i + d], bounce[d]);
        s := SetDisk(s, first + d, bounce[d], true);
        d := d + 1;
      }
    }

    /** swap_put and pmm_unref of one page whose write failed. */
    method DropOne(e: Swb, junk: Page, ghost s0: State)
      requires Unseen(s0, s) && Listed(s, e)
      modifies this
      ensures Unseen(s0, s) && s.batch == old(s).batch - {e.slot}
      ensures s.flight == old(s).flight && s.sflight == old(s).sflight && s.mem == old(s).mem && s.pt == old(s).pt
    {
      DropStep(s0, s, e, junk);
      DropLeaves(s, e, junk);
      s := Dropped(s, e, junk);
    }

    method CommitOne(e: Swb, ghost s0: State) returns (e': Swb)
      requires Unseen(s0, s) && Written(s, e)
      modifies this
      ensures Unseen(s0, s) && s.batch == old(s).batch - {e.slot} && e' == Committed(old(s), e)
      ensures s.flight == old(s).flight + FrameDebt(e') && s.sflight == old(s).sflight + SlotDebt(e')
      ensures s.pt == TakeOne(old(s).pt, e) && (e'.slot < 0 <==> MayTake(old(s).pt, e)) && e'.key == e.key
    {
      CommitStep(s0, s, e);
      CommitPt(s, e);
      e' := Committed(s, e);
      s := CommitPage(s, e.slot);
    }

    method SettleOne(e: Swb, ghost s0: State)
      requires Unseen(s0, s) && FrameDebt(e) <= s.flight && SlotDebt(e) <= s.sflight
      modifies this
      ensures Unseen(s0, s) && s.batch == old(s).batch && s.pt == old(s).pt
      ensures s.flight == old(s).flight - FrameDebt(e) && s.sflight == old(s).sflight - SlotDebt(e)
    {
      if e.slot < 0 { GiveOne(e.fr, s0); } else { GiveSlotOne(e.slot, s0); }
      GiveOne(e.fr, s0);
    }

    method GiveOne(f: nat, ghost s0: State)
      requires Unseen(s0, s) && s.flight[f] > 0
      modifies this
      ensures Unseen(s0, s) && s.batch == old(s).batch && s.sflight == old(s).sflight && s.pt == old(s).pt
      ensures s.flight == old(s).flight - multiset{f}
    {
      GiveGood(s, f);
      UnseenStep(s0, s, Give(s, f));
      s := Give(s, f);
    }

    method GiveSlotOne(sl: nat, ghost s0: State)
      requires Unseen(s0, s) && s.sflight[sl] > 0
      modifies this
      ensures Unseen(s0, s) && s.batch == old(s).batch && s.flight == old(s).flight && s.pt == old(s).pt
      ensures s.sflight == old(s).sflight - multiset{sl}
    {
      GiveSlotGood(s, sl);
      UnseenStep(s0, s, GiveSlot(s, sl));
      s := GiveSlot(s, sl);
    }

    /** A run whose write failed: every slot and frame is dropped, every frame number becomes 0. */
    method FailRun(b: array<Swb>, i: nat, j: nat, junk: seq<Page>, ghost s0: State)
      requires i < j <= b.Length && |junk| == j - i && Unseen(s0, s)
      requires forall k | i <= k < j :: Listed(s, b[k])
      requires DistinctSlots(b[i..j])
      modifies this, b
      ensures Unseen(s0, s) && s.flight == old(s).flight && s.sflight == old(s).sflight && s.mem == old(s).mem
      ensures s.batch == old(s).batch - SlotsOf(old(b[i..j])) && s.pt == old(s).pt
      ensures forall k | 0 <= k < b.Length :: b[k] == if i <= k < j then old(b[k]).(fr := 0) else old(b[k])
    {
      ghost var was := b[i..j];
      var k := i;
      while k < j
        invariant i <= k <= j && Unseen(s0, s)
        invariant s.flight == old(s).flight && s.sflight == old(s).sflight && s.mem == old(s).mem
        invariant s.batch == old(s).batch - SlotsOf(was[..k - i]) && s.pt == old(s).pt
        invariant forall m | 0 <= m < b.Length :: b[m] == if i <= m < k then old(b[m]).(fr := 0) else old(b[m])
      {
        assert b[k] == was[k - i];
        SlotsGrow(was, k - i);
        assert Listed(s, b[k]);
        DropOne(b[k], junk[k - i], s0);
        b[k] := Swb(b[k].key, 0, b[k].slot);
        k := k + 1;
      }
      assert was[..k - i] == was;
    }

    /** The entries of one space, while that space is locked. */
    method CommitSpace(b: array<Swb>, n: nat, i: nat, ghost s0: State) returns (j: nat)
      requires i < n <= b.Length && Unseen(s0, s)
      requires forall k | i <= k < n :: Written(s, b[k])
      requires DistinctSlots(b[i..n])
      modifies this, b
      ensures i < j <= n && Unseen(s0, s) && Locked(old(s), s, old(b[i..j]), b[i..j])
      ensures forall k | 0 <= k < b.Length && !(i <= k < j) :: b[k] == old(b[k])
    {
      hide Unseen, Written, Locked, TakeOne, MayTake, Committed, FrameDebt, SlotDebt;
      ghost var t, was := s, b[i..n];
      NothingYet(s);
      assert b[i..i] == was[..0];
      var pd := b[i].key.pd;
      j := i;
      while j < n && b[j].key.pd == pd
        invariant i <= j <= n && Unseen(s0, s)
        invariant j == i ==> b[i].key.pd == pd
        invariant Locked(t, s, was[..j - i], b[i..j])
        invariant forall k | 0 <= k < b.Length && !(i <= k < j) :: b[k] == old(b[k])
      {
        assert b[j] == was[j - i] && Written(t, b[j]);
        LockedWritten(t, s, was, b[i..j], j - i);
        ghost var r, es := s, b[i..j];
        var e := CommitOne(b[j], s0);
        b[j] := e;
        LockedStep(t, r, s, was, es, j - i, e);
        assert b[i..j + 1] == es + [e];
        j := j + 1;
      }
      assert was[..j - i] == old(b[i..j]);
    }

    /** After the lock is gone: the references the space no longer needs. */
    method SettleSpace(b: array<Swb>, i: nat, j: nat, ghost s0: State) returns (freed: nat)
      requires i <= j <= b.Length && Unseen(s0, s) && Covered(s, b[i..j])
      modifies this
      ensures Unseen(s0, s) && Owing(old(s), s, b[i..j], freed)
    {
      hide Unseen, Covered, Owing, FrameDebt, SlotDebt;
      freed := 0;
      ghost var t, es := s, b[i..j];
      NothingOwed(s);
      assert es[..0] == [];
      var k := i;
      while k < j
        invariant i <= k <= j && Unseen(s0, s) && Owing(t, s, es[..k - i], freed)
      {
        ghost var r, f := s, freed;
        OwingNext(t, s, es, k - i, freed);
        SettleOne(b[k], s0);
        if b[k].slot < 0 { freed := freed + 1; }
        OwingStep(t, r, s, es, k - i, f, freed);
        k := k + 1;
      }
      assert es[..k - i] == es;
    }

    /** vmm_swap_commit: space after space. */
    method Commit(b: array<Swb>, n: nat, ghost s0: State) returns (freed: nat)
      requires n <= b.Length && Unseen(s0, s)
      requires forall k | 0 <= k < n :: Written(s, b[k])
      requires DistinctSlots(b[..n])
      modifies this, b
      ensures Unseen(s0, s) && Closed(old(s), s, old(b[..n]), freed)
    {
      hide Unseen, Written, Locked, Owing, Covered, Closed;
      freed := 0;
      ghost var t, was := s, b[..n];
      NothingClosed(s);
      assert was[..0] == [];
      var i := 0;
      while i < n
        invariant 0 <= i <= n && Unseen(s0, s) && Closed(t, s, was[..i], freed)
        invariant forall k | i <= k < n :: b[k] == was[k]
      {
        ghost var r, f := s, freed;
        ClosedWritten(t, s, was, i, freed);
        assert b[i..n] == was[i..];
        label Unlocked:
        var j := CommitSpace(b, n, i, s0);
        ghost var m, es := s, b[i..j];
        assert old@Unlocked(b[i..j]) == was[i..j];
        LockedCovered(r, s, was[i..j], es);
        var got := SettleSpace(b, i, j, s0);
        freed := freed + got;
        ClosedStep(t, r, m, s, was, i, j, es, f, got);
        i := j;
      }
      assert was[..i] == was;
    }

    /** One run: written, or refused by the disk. */
    method OneRun(b: array<Swb>, n: nat, i: nat, fail: bool, junk: seq<Page>, ghost was: seq<Swb>, ghost s0: State)
      returns (j: nat)
      requires i < n <= b.Length && |junk| == n && |was| == n && Unseen(s0, s)
      requires Halfway(s, was, b[..n], i) && DistinctSlots(was)
      modifies this, b
      ensures i < j <= n && Unseen(s0, s) && Halfway(s, was, b[..n], j)
      ensures s.flight == old(s).flight && s.sflight == old(s).sflight && s.pt == old(s).pt
      ensures j == RunTo(was, i) && b[..i] == old(b[..i])
      ensures if fail then forall k | i <= k < j :: b[k].fr == 0 else b[i..j] == was[i..j]
      ensures old(s).batch.Keys - SlotsOf(was) == s.batch.Keys - SlotsOf(was)
    {
      hide Unseen, SlotsOf;
      ghost var t, c := s, b[..n];
      assert forall k | i <= k < n :: b[k] == c[k] == was[k] && Listed(s, b[k]);
      j := RunEnd(b, n, i);
      RunToSame(c, was, i);
      assert b[i..j] == c[i..j] == was[i..j];
      if fail {
        FailRun(b, i, j, junk[i..j], s0);
        RunFailed(t, s, was, c, b[..n], i, j);
        SlotsPart(was, i, j);
      } else {
        WriteRun(b, i, j, s0);
        RunWritten(t, s, was, c, i, j);
      }
    }

    /** The runs one after the other; `fails[i]` says whether the disk refuses the run that starts at `i`. */
    method WriteOut(b: array<Swb>, n: nat, fails: seq<bool>, junk: seq<Page>, ghost s0: State)
      requires n <= b.Length && |fails| == |junk| == n && Unseen(s0, s)
      requires forall k | 0 <= k < n :: Listed(s, b[k])
      requires DistinctSlots(b[..n])
      modifies this, b
      ensures Unseen(s0, s) && s.flight == old(s).flight && s.sflight == old(s).sflight
      ensures Halfway(s, old(b[..n]), b[..n], n) && s.pt == old(s).pt
      ensures Kept(b[..n]) == Survivors(old(b[..n]), fails, 0)
      ensures old(s).batch.Keys - SlotsOf(old(b[..n])) == s.batch.Keys - SlotsOf(old(b[..n]))
    {
      hide Unseen, Listed, SlotsOf, Kept, Outcome, Survivors;
      ghost var was := b[..n];
      assert b[..0] == [];
      SurvivorsEnds(was, fails);
      var i := 0;
      while i < n
        invariant 0 <= i <= n && Unseen(s0, s) && Halfway(s, was, b[..n], i)
        invariant s.flight == old(s).flight && s.sflight == old(s).sflight && s.pt == old(s).pt
        invariant Kept(b[..i]) + Survivors(was, fails, i) == Survivors(was, fails, 0)
        invariant old(s).batch.Keys - SlotsOf(was) == s.batch.Keys - SlotsOf(was)
      {
        ghost var done := b[..i];
        RunFrames(s0, s, was, i);
        var j := OneRun(b, n, i, fails[i], junk, was, s0);
        assert b[..j] == done + b[i..j];
        SurvivorsStep(was, fails, done, b[i..j], i);
        i := j;
      }
    }

    /** The failed entries are taken out of the list. */
    method Compact(b: array<Swb>, n: nat) returns (m: nat)
      requires n <= b.Length
      modifies b
      ensures m <= n && b[..m] == Kept(old(b[..n]))
    {
      ghost var was := b[..n];
      m := 0;
      var i := 0;
      while i < n
        invariant 0 <= m <= i <= n && b[..m] == Kept(was[..i])
        invariant forall k | i <= k < n :: b[k] == was[k]
      {
        assert was[..i + 1][..i] == was[..i];
        if b[i].fr != 0 {
          b[m] := b[i];
          m := m + 1;
        }
        i := i + 1;
      }
      assert was[..n] == was;
    }

    /**
      A whole flush. However the writes go, no process sees a difference, none of the listed slots
      is left half way, and every reference the scan took for the list is accounted for.
      */
    method Flush(b: array<Swb>, n: nat, fails: seq<bool>, junk: seq<Page>) returns (freed: nat)
      requires n <= b.Length && |fails| == |junk| == n && Inv(s)
      requires forall k | 0 <= k < n :: Listed(s, b[k])
      requires DistinctSlots(b[..n])
      modifies this, b
      ensures Unseen(old(s), s) && s.flight == old(s).flight && s.sflight == old(s).sflight
      ensures s.batch.Keys == old(s).batch.Keys - SlotsOf(old(b[..n]))
      ensures s.pt == TakeAll(old(s).pt, Survivors(old(b[..n]), fails, 0))
      ensures freed == TakeCount(old(s).pt, Survivors(old(b[..n]), fails, 0))
    {
      hide Unseen, Written, Kept, Survivors, TakeAll, TakeCount, Outcome, SlotsOf;
      ghost var s0, was := s, b[..n];
      UnseenRefl(s);
      WriteOut(b, n, fails, junk, s0);
      ghost var r, mid := s, b[..n];
      KeptSound(s0, s, was, mid);
      var m := Compact(b, n);
      freed := Commit(b, m, s0);
      KeysLeft(s0.batch.Keys, r.batch.Keys, was, Kept(mid));
    }
  }

  /** What the writing left of entry `w`: written as it was, or dropped and marked. */
  ghost predicate Outcome(s: State, w: Swb, e: Swb) {
    (e == w && Written(s, e)) || (e == w.(fr := 0) && w.slot !in s.batch)
  }

  ghost predicate Halfway(s: State, was: seq<Swb>, b: seq<Swb>, i: nat)
    requires i <= |b| == |was|
  {
    && (forall k | 0 <= k < i :: Outcome(s, was[k], b[k]))
    && (forall k | i <= k < |b| :: b[k] == was[k] && Listed(s, was[k]))
  }

  lemma RunWritten(s: State, s': State, was: seq<Swb>, b: seq<Swb>, i: nat, j: nat)
    requires i <= j <= |b| == |was| && Halfway(s, was, b, i)
    requires s'.batch.Keys == s.batch.Keys
    requires forall x | Listed(s, x) :: Listed(s', x)
    requires forall x | Written(s, x) :: Written(s', x)
    requires forall k | i <= k < j :: Written(s', b[k])
    ensures Halfway(s', was, b, j)
  {
    forall k | 0 <= k < j
      ensures Outcome(s', was[k], b[k])
    {
      if k < i { assert Outcome(s, was[k], b[k]); } else { assert Written(s', b[k]); }
    }
  }

  lemma RunFailed(s: State, s': State, was: seq<Swb>, b: seq<Swb>, b': seq<Swb>, i: nat, j: nat)
    requires i <= j <= |b| == |was| == |b'| && Halfway(s, was, b, i) && DistinctSlots(was)
    requires s'.batch == s.batch - SlotsOf(b[i..j])
    requires forall k | 0 <= k < |b| :: b'[k] == if i <= k < j then b[k].(fr := 0) else b[k]
    ensures Halfway(s', was, b', j)
  {
    assert b[i..j] == was[i..j];
    forall k | 0 <= k < j
      ensures Outcome(s', was[k], b'[k])
    {
      if k < i {
        SlotOutside(was, i, j, k);
        assert Outcome(s, was[k], b[k]);
      } else {
        assert Listed(s, was[k]);
        assert was[i..j][k - i] == was[k];
      }
    }
    forall k | j <= k < |b|
      ensures b'[k] == was[k] && Listed(s', was[k])
    {
      SlotOutside(was, i, j, k);
      assert Listed(s, was[k]);
    }
  }

  lemma SlotOutside(b: seq<Swb>, i: nat, j: nat, k: nat)
    requires i <= j <= |b| && k < |b| && !(i <= k < j) && DistinctSlots(b)
    ensures b[k].slot !in SlotsOf(b[i..j])
  {
  }

  /** The entries whose write went through, in their order. */
  function Kept(b: seq<Swb>): seq<Swb> {
    if b == [] then []
    else Kept(b[..|b| - 1]) + (if b[|b| - 1].fr != 0 then [b[|b| - 1]] else [])
  }

  /** The last entry has a slot none of the kept ones before it has. */
  lemma KeptApart(s: State, was: seq<Swb>, b: seq<Swb>, c: seq<Swb>)
    requires 0 < |b| == |was| && DistinctSlots(was)
    requires forall k | 0 <= k < |b| :: Outcome(s, was[k], b[k])
    requires forall k | 0 <= k < |c| :: c[k] in b[..|b| - 1]
    ensures forall k | 0 <= k < |c| :: c[k].slot != b[|b| - 1].slot
  {
    var n := |b| - 1;
    assert Outcome(s, was[n], b[n]);
    forall k | 0 <= k < |c|
      ensures c[k].slot != b[n].slot
    {
      assert c[k] in b[..n];
      var m :| 0 <= m < n && b[..n][m] == c[k];
      assert was[m].slot != was[n].slot;
      assert Outcome(s, was[m], b[m]);
    }
  }

  lemma {:induction false} KeptDistinct(s: State, was: seq<Swb>, b: seq<Swb>)
    requires |b| == |was| && DistinctSlots(was)
    requires forall k | 0 <= k < |b| :: Outcome(s, was[k], b[k])
    ensures DistinctSlots(Kept(b))
    ensures forall k | 0 <= k < |Kept(b)| :: Kept(b)[k] in b
  {
    hide Outcome;
    if b != [] {
      var n := |b| - 1;
      KeptDistinct(s, was[..n], b[..n]);
      KeptApart(s, was, b, Kept(b[..n]));
      assert b == b[..n] + [b[n]];
    }
  }

  /** What is kept was written, and of the slots listed at first only its slots are left. */
  lemma KeptSound(s0: State, s: State, was: seq<Swb>, b: seq<Swb>)
    requires |b| == |was| && DistinctSlots(was) && Unseen(s0, s)
    requires forall k | 0 <= k < |b| :: Outcome(s, was[k], b[k])
    ensures forall k | 0 <= k < |Kept(b)| :: Written(s, Kept(b)[k])
    ensures DistinctSlots(Kept(b))
    ensures SlotsOf(Kept(b)) <= SlotsOf(was)
    ensures forall x | x in SlotsOf(was) && x in s.batch :: x in SlotsOf(Kept(b))
  {
    KeptDistinct(s, was, b);
    KeptFrames(b);
    forall k | 0 <= k < |Kept(b)|
      ensures Written(s, Kept(b)[k])
    {
      var m :| 0 <= m < |b| && b[m] == Kept(b)[k];
      assert Outcome(s, was[m], b[m]);
    }
    assert forall k | 0 <= k < |b| :: Outcome(s, was[k], b[k]) && b[k].slot == was[k].slot;
    KeptSlots(was, b, Kept(b));
    forall x | x in SlotsOf(was) && x in s.batch
      ensures x in SlotsOf(Kept(b))
    {
      var m :| 0 <= m < |was| && was[m].slot == x;
      assert Outcome(s, was[m], b[m]);
      StillKept(s0, s, b, m);
    }
  }

  lemma {:induction false} KeptFrames(b: seq<Swb>)
    ensures forall k | 0 <= k < |Kept(b)| :: Kept(b)[k].fr != 0
  {
    if b != [] { KeptFrames(b[..|b| - 1]); }
  }

  lemma StillKept(s0: State, s: State, b: seq<Swb>, m: nat)
    requires m < |b| && Unseen(s0, s) && Written(s, b[m])
    ensures b[m].slot in SlotsOf(Kept(b))
  {
    NoZeroFrame(s, b[m]);
    KeptHas(b, m);
    var k :| 0 <= k < |Kept(b)| && Kept(b)[k] == b[m];
  }

  lemma {:induction false} KeptHas(b: seq<Swb>, m: nat)
    requires m < |b| && b[m].fr != 0
    ensures b[m] in Kept(b)
    decreases |b|
  {
    var n := |b| - 1;
    if m < n { KeptHas(b[..n], m); }
  }

  lemma KeysLeft(k0: set<nat>, k1: set<nat>, was: seq<Swb>, kept: seq<Swb>)
    requires k0 - SlotsOf(was) == k1 - SlotsOf(was) && SlotsOf(kept) <= SlotsOf(was)
    requires forall x | x in SlotsOf(was) && x in k1 :: x in SlotsOf(kept)
    ensures k1 - SlotsOf(kept) == k0 - SlotsOf(was)
  {
    hide SlotsOf;
  }

  lemma {:induction false} KeptJoin(a: seq<Swb>, b: seq<Swb>)
    ensures Kept(a + b) == Kept(a) + Kept(b)
    decreases |b|
  {
    if b == [] {
      assert a + b == a;
    } else {
      var n := |b| - 1;
      KeptJoin(a, b[..n]);
      assert (a + b)[..|a| + n] == a + b[..n];
    }
  }

  lemma {:induction false} KeptRun(b: seq<Swb>, fail: bool)
    requires forall k | 0 <= k < |b| :: b[k].fr == 0 <==> fail
    ensures Kept(b) == if fail then [] else b
    decreases |b|
  {
    if b != [] {
      var n := |b| - 1;
      KeptRun(b[..n], fail);
      assert b == b[..n] + [b[n]];
    }
  }

  lemma SurvivorsEnds(was: seq<Swb>, fails: seq<bool>)
    requires |was| == |fails|
    ensures Kept([]) == [] && Survivors(was, fails, |was|) == []
  {
  }

  lemma SurvivorsNext(was: seq<Swb>, fails: seq<bool>, i: nat)
    requires i < |was| == |fails|
    ensures Survivors(was, fails, i)
            == (if fails[i] then [] else was[i..RunTo(was, i)]) + Survivors(was, fails, RunTo(was, i))
  {
  }

  lemma SurvivorsStep(was: seq<Swb>, fails: seq<bool>, done: seq<Swb>, run: seq<Swb>, i: nat)
    requires i < |was| == |fails| && (forall k | i <= k < |was| :: was[k].fr != 0)
    requires Kept(done) + Survivors(was, fails, i) == Survivors(was, fails, 0)
    requires if fails[i] then forall k | 0 <= k < |run| :: run[k].fr == 0 else run == was[i..RunTo(was, i)]
    ensures Kept(done + run) + Survivors(was, fails, RunTo(was, i)) == Survivors(was, fails, 0)
  {
    hide Survivors, Kept, RunTo;
    KeptJoin(done, run);
    KeptRun(run, fails[i]);
    SurvivorsNext(was, fails, i);
    var rest := Survivors(was, fails, RunTo(was, i));
    assert Kept(done) + (if fails[i] then [] else run) + rest == Kept(done) + ((if fails[i] then [] else run) + rest);
  }

  lemma RunFrames(s0: State, s: State, was: seq<Swb>, i: nat)
    requires i <= |was| && Unseen(s0, s) && forall k | i <= k < |was| :: Listed(s, was[k])
    ensures forall k | i <= k < |was| :: was[k].fr != 0
  {
    forall k | i <= k < |was|
      ensures was[k].fr != 0
    {
      NoZeroFrame(s, was[k]);
    }
  }

  /** Only the slots from `i` on say where a run ends. */
  lemma {:induction false} RunToSame(b: seq<Swb>, c: seq<Swb>, i: nat)
    requires i < |b| == |c| && b[i..] == c[i..]
    ensures RunTo(b, i) == RunTo(c, i)
    decreases |b| - i
  {
    assert b[i..][0] == c[i..][0];
    if i + 1 < |b| {
      assert b[i..][1] == c[i..][1];
      assert b[i + 1..] == b[i..][1..] == c[i..][1..] == c[i + 1..];
      RunToSame(b, c, i + 1);
    }
  }

  lemma {:induction false} TakeJoin(pt: map<Key, Entry>, es: seq<Swb>, i: nat, j: nat)
    requires i <= j <= |es|
    ensures TakeAll(pt, es[..j]) == TakeAll(TakeAll(pt, es[..i]), es[i..j])
    ensures TakeCount(pt, es[..j]) == TakeCount(pt, es[..i]) + TakeCount(TakeAll(pt, es[..i]), es[i..j])
    decreases j
  {
    if i < j {
      TakeJoin(pt, es, i, j - 1);
      assert es[..j][..j - 1] == es[..j - 1];
      assert es[i..j][..j - 1 - i] == es[i..j - 1];
    } else {
      assert es[i..j] == [];
    }
  }

  lemma SlotsJoin(b: seq<Swb>, i: nat, j: nat)
    requires i <= j <= |b|
    ensures SlotsOf(b[..j]) == SlotsOf(b[..i]) + SlotsOf(b[i..j])
  {
    forall x
      ensures x in SlotsOf(b[..j]) <==> x in SlotsOf(b[..i]) || x in SlotsOf(b[i..j])
    {
      if x in SlotsOf(b[..j]) {
        var k :| 0 <= k < j && b[..j][k].slot == x;
        if k < i { assert b[..i][k].slot == x; } else { assert b[i..j][k - i].slot == x; }
      }
      if x in SlotsOf(b[..i]) {
        var k :| 0 <= k < i && b[..i][k].slot == x;
        assert b[..j][k].slot == x;
      }
      if x in SlotsOf(b[i..j]) {
        var k :| 0 <= k < j - i && b[i..j][k].slot == x;
        assert b[..j][k + i].slot == x;
      }
    }
  }

  function SlotsOf(b: seq<Swb>): set<nat> {
    set k | 0 <= k < |b| && b[k].slot >= 0 :: b[k].slot
  }

  lemma SlotsGrow(b: seq<Swb>, i: nat)
    requires i < |b| && DistinctSlots(b) && b[i].slot >= 0
    ensures SlotsOf(b[..i + 1]) == SlotsOf(b[..i]) + {b[i].slot}
    ensures b[i].slot !in SlotsOf(b[..i])
  {
    var c := b[..i + 1];
    forall x
      ensures x in SlotsOf(c) <==> x in SlotsOf(b[..i]) || x == b[i].slot
    {
      if x in SlotsOf(b[..i]) {
        var k :| 0 <= k < i && b[..i][k].slot == x;
        assert c[k].slot == x;
      }
      if x == b[i].slot { assert c[i].slot == x; }
      if x in SlotsOf(c) {
        var k :| 0 <= k < |c| && c[k].slot == x;
        assert k < i ==> b[..i][k] == c[k];
      }
    }
  }

  lemma SlotsPart(b: seq<Swb>, i: nat, j: nat)
    requires i <= j <= |b|
    ensures SlotsOf(b[i..j]) <= SlotsOf(b)
  {
    forall x | x in SlotsOf(b[i..j])
      ensures x in SlotsOf(b)
    {
      var k :| 0 <= k < j - i && b[i..j][k].slot == x;
      assert b[k + i].slot == x;
    }
  }

  lemma KeptSlots(was: seq<Swb>, b: seq<Swb>, c: seq<Swb>)
    requires |b| == |was| && (forall k | 0 <= k < |c| :: c[k] in b)
    requires forall k | 0 <= k < |b| :: b[k].slot == was[k].slot
    ensures SlotsOf(c) <= SlotsOf(was)
  {
    forall x | x in SlotsOf(c)
      ensures x in SlotsOf(was)
    {
      var k :| 0 <= k < |c| && c[k].slot == x;
      var m :| 0 <= m < |b| && b[m] == c[k];
      assert was[m].slot == x;
    }
  }
}

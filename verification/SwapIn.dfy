/**
  vmm_swap_in as it is: the slot is read with no lock held, and the entry is compared afterwards. In
  between the other cpus go on. The frame that was read into waits in flight, and nobody else knows
  it, so the whole is the atomic SwapIn of VmOps at the moment of the comparison if and only if the
  slot still has the bytes that were read.
  */
module SwapIn {
  import opened FramePool
  import opened VmState
  import opened VmOps
  import opened VmRuns
  import opened VmSmall

  /** The frame is with this thread alone and has the bytes `p`. */
  ghost predicate Waits(s: State, f: nat, p: Page) {
    Inv(s) && f < |s.rc| == |s.mem| && s.rc[f] == 1 && s.flight[f] == 1 && s.mem[f] == p
  }

  /** pmm_alloc and swap_read. */
  function Started(s: State, f: nat, sl: nat): State
    requires FreeFrame(s, f) && |s.mem| == |s.rc| && sl in s.disk
  {
    Take(s, f, s.disk[sl])
  }

  /** The second look: the entry is what it was, or the frame goes back. */
  function Finished(s: State, k: Key, e: Entry, f: nat): State
    requires e.Swapped?
  {
    if k in s.pt && s.pt[k] == e
    then GiveSlot(Replace(s, k, Present(f, e.rw, false, false, e.us, false)), e.slot)
    else Give(s, f)
  }

  lemma StartWaits(s: State, f: nat, sl: nat)
    requires Inv(s) && FreeFrame(s, f) && sl in s.disk
    ensures Waits(Started(s, f, sl), f, s.disk[sl])
  {
    TakeInv(s, f, s.disk[sl]);
    assert FrameOk(s, f) && Count(s, f) == 0;
  }

  /** No entry, no swap-out, no keeper and no table has the frame. */
  lemma OnlyThread(s: State, f: nat, p: Page)
    requires Waits(s, f, p)
    ensures KeysOn(s.pt, f) == {} && PicksOn(s.batch, f) == {} && s.held[f] == 0 && f !in s.tabs
    ensures forall k | k in s.pt && s.pt[k].Present? :: s.pt[k].fr != f
    ensures forall sl | sl in s.batch :: s.batch[sl].fr != f
  {
    assert FrameOk(s, f) && Count(s, f) == 1;
    assert |KeysOn(s.pt, f)| == 0 && |PicksOn(s.batch, f)| == 0;
    forall k | k in s.pt && s.pt[k].Present? ensures s.pt[k].fr != f { assert k !in KeysOn(s.pt, f); }
    forall sl | sl in s.batch ensures s.batch[sl].fr != f { assert sl !in PicksOn(s.batch, f); }
  }

  // ---------- while the thread waits ----------

  /** Reference byte, references in flight and contents of the frame stay. */
  predicate Left(s: State, t: State, f: nat) {
    && f < |s.rc| == |s.mem| == |t.rc| == |t.mem|
    && t.rc[f] == s.rc[f] && t.flight[f] == s.flight[f] && t.mem[f] == s.mem[f]
  }

  /** The frame is on no entry, no list and no table. */
  ghost predicate Apart(s: State, f: nat) {
    && f < |s.rc| == |s.mem| && s.rc[f] == 1 && s.held[f] == 0 && f !in s.tabs
    && (forall k | k in s.pt && s.pt[k].Present? :: s.pt[k].fr != f)
    && (forall sl | sl in s.batch :: s.batch[sl].fr != f)
  }

  /** And no slot is written. */
  predicate Still(s: State, t: State, f: nat) {
    Left(s, t, f) && t.disk == s.disk
  }

  lemma GiveLeaves(s: State, g: nat, f: nat)
    requires f < |s.rc| == |s.mem| && g != f
    ensures Still(s, Give(s, g), f)
  {
  }

  lemma TakeLeaves(s: State, g: nat, p: Page, f: nat)
    requires f < |s.rc| == |s.mem| && g != f && g < |s.rc|
    ensures Still(s, Take(s, g, p), f)
  {
  }

  /** An entry is replaced, by one that takes over a reference that is not on the frame. */
  lemma ReplaceLeaves(s: State, k: Key, e: Entry, f: nat)
    requires Apart(s, f) && k in s.pt && (e.Present? ==> e.fr != f)
    ensures Still(s, Replace(s, k, e), f)
  {
  }

  lemma CowLeaves(s: State, k: Key, g: nat, f: nat)
    requires Apart(s, f) && FreeFrame(s, g)
    ensures Still(s, CowFault(s, k, g), f)
  {
    hide Give, Take, Bind, Unbind;
    if IsPresent(s, k) && s.pt[k].cow && s.pt[k].fr < |s.rc| && s.rc[s.pt[k].fr] != 1 {
      var e := s.pt[k];
      var t := Take(s, g, s.mem[e.fr]);
      TakeLeaves(s, g, s.mem[e.fr], f);
      TakeApart(s, g, s.mem[e.fr], f);
      var u := Replace(t, k, Present(g, true, false, e.shared, e.us, e.acc));
      ReplaceLeaves(t, k, Present(g, true, false, e.shared, e.us, e.acc), f);
      GiveLeaves(u, e.fr, f);
    }
  }

  lemma TakeApart(s: State, g: nat, p: Page, f: nat)
    requires Apart(s, f) && FreeFrame(s, g)
    ensures Apart(Take(s, g, p), f) && Take(s, g, p).pt == s.pt
  {
  }

  lemma FaultLeaves(s: State, k: Key, g: nat, f: nat)
    requires Apart(s, f) && FreeFrame(s, g)
    ensures Still(s, FaultInPage(s, k, g), f)
  {
    hide Take, Bind, Unbind;
    if k in s.pt && s.pt[k].Lazy? {
      TakeLeaves(s, g, ZeroPage(), f);
      TakeApart(s, g, ZeroPage(), f);
      ReplaceLeaves(Take(s, g, ZeroPage()), k, Present(g, s.pt[k].rw, false, false, s.pt[k].us, false), f);
    }
  }

  lemma ClearLeaves(s: State, k: Key, f: nat)
    requires Apart(s, f)
    ensures Still(s, Clear(s, k), f) && Still(s, UnmapPageLater(s, k), f)
  {
  }

  lemma BindLeaves(s: State, k: Key, e: Entry, f: nat)
    requires f < |s.rc| == |s.mem| && (e.Present? ==> e.fr != f)
    ensures Still(s, Bind(s, k, e), f)
  {
  }

  lemma FlagLeaves(s: State, k: Key, w: bool, f: nat)
    requires f < |s.rc| == |s.mem|
    ensures Still(s, ProtectPage(s, k, w), f) && Still(s, SetUserPage(s, k, w), f) && Still(s, TouchPage(s, k), f)
    ensures IsPresent(s, k) ==> Still(s, MakeWritable(s, k), f)
  {
  }

  lemma PopulateLeaves(s: State, k: Key, g: nat, w: bool, f: nat)
    requires Apart(s, f) && FreeFrame(s, g)
    ensures Still(s, PopulatePage(s, k, g, w), f)
  {
    hide Take, Bind, Clear, MakeWritable;
    FlagLeaves(s, k, w, f);
    var t := Take(s, g, ZeroPage());
    TakeLeaves(s, g, ZeroPage(), f);
    TakeApart(s, g, ZeroPage(), f);
    ClearLeaves(t, k, f);
    BindLeaves(Clear(t, k), k, Present(g, w, false, false, true, false), f);
  }

  lemma MapLeaves(s: State, k: Key, e: Entry, f: nat)
    requires Apart(s, f) && e.Present? && e.fr != f
    ensures Still(s, MapPage(s, k, e), f)
  {
    hide Bind, Clear;
    var t := Again(s, e.fr);
    assert Apart(t, f) && Still(s, t, f);
    ClearLeaves(t, k, f);
    BindLeaves(Clear(t, k), k, e, f);
  }

  lemma CloneLeaves(s: State, k: Key, child: nat, f: nat)
    requires Apart(s, f)
    ensures Still(s, Clone(s, k, child), f)
  {
  }

  lemma PageLeaves(s: State, op: Op, f: nat)
    requires Apart(s, f) && Enabled(s, op) && OnPage(op)
    ensures Still(s, ApplyOnPage(s, op), f)
  {
    hide CowFault, PopulatePage, MapPage, Clear, Clone, UnmapPageLater, FaultInPage;
    hide ProtectPage, SetUserPage, TouchPage, Bind;
    match op
    case FaultIn(k, g) => FaultLeaves(s, k, g, f);
    case Cow(k, g) => CowLeaves(s, k, g, f);
    case Store(_, _) =>
    case ClonePage(k, child) => CloneLeaves(s, k, child, f);
    case Unmap(k) => ClearLeaves(s, k, f);
    case UnmapLater(k) => ClearLeaves(s, k, f);
    case Reserve(k, rw, us) => ClearLeaves(s, k, f); BindLeaves(Clear(s, k), k, Lazy(rw, us), f);
    case Populate(k, g, w) => PopulateLeaves(s, k, g, w, f);
    case Protect(k, w) => FlagLeaves(s, k, w, f);
    case SetUser(k, us) => FlagLeaves(s, k, us, f);
    case MapShared(k, g, rw) => MapLeaves(s, k, SharedEntry(g, rw), f);
    case MapCache(k, g, w, shared) => MapLeaves(s, k, CacheEntry(g, w, shared), f);
    case Touch(k) => FlagLeaves(s, k, true, f);
  }

  lemma ScanLeaves(s: State, k: Key, sl: nat, f: nat)
    requires Apart(s, f)
    ensures Left(s, Scan(s, k, sl), f)
  {
  }

  lemma CommitLeaves(s: State, sl: nat, f: nat)
    requires Apart(s, f) && sl in s.batch
    ensures Left(s, CommitPage(s, sl), f)
  {
  }

  lemma FailLeaves(s: State, sl: nat, junk: Page, f: nat)
    requires Apart(s, f) && sl in s.batch
    ensures Left(s, FailPick(s, sl, junk), f)
  {
  }

  lemma TablesLeave(s: State, g: nat, pd: nat, f: nat)
    requires Apart(s, f)
    ensures FreeFrame(s, g) ==> Left(s, TableFrame(s, g, pd), f)
    ensures g in s.tabs ==> Left(s, TableFreed(s, g), f)
  {
  }

  lemma HoldersLeave(s: State, g: nat, p: Page, f: nat)
    requires Apart(s, f)
    ensures FreeFrame(s, g) ==> Left(s, HoldFrame(s, g, p), f)
    ensures s.held[g] > 0 ==> Left(s, HoldAgain(s, g), f) && Left(s, HoldDropped(s, g), f)
  {
  }

  lemma KeepersLeave(s: State, op: Op, f: nat)
    requires Apart(s, f) && Enabled(s, op) && (op.FreeTable? || op.HoldMore? || op.Unhold? || op.Hold? || op.NewTable?)
    ensures Left(s, ApplyBehind(s, op), f)
  {
    hide TableFrame, TableFreed, HoldFrame, HoldAgain, HoldDropped, Left;
    match op
    case FreeTable(g) => TablesLeave(s, g, 0, f);
    case Unhold(g) => HoldersLeave(s, g, [], f);
    case Hold(g, p) => HoldersLeave(s, g, p, f);
    case NewTable(g, pd) => TablesLeave(s, g, pd, f);
    case HoldMore(g) => HoldersLeave(s, g, [], f);
  }

  lemma ReadLeaves(s: State, k: Key, g: nat, f: nat)
    requires Apart(s, f) && FreeFrame(s, g)
    ensures Left(s, SwapInPage(s, k, g), f)
  {
    hide Take, Replace;
    if k in s.pt && s.pt[k].Swapped? && s.pt[k].slot in s.disk {
      var p := s.disk[s.pt[k].slot];
      TakeLeaves(s, g, p, f);
      TakeApart(s, g, p, f);
      ReplaceLeaves(Take(s, g, p), k, Present(g, s.pt[k].rw, false, false, s.pt[k].us, false), f);
    }
  }

  lemma DiscardLeaves(s: State, k: Key, f: nat)
    requires Apart(s, f)
    ensures Left(s, DiscardPage(s, k), f)
  {
    if IsPresent(s, k) && s.pt[k].rw && !s.pt[k].shared { ReplaceLeaves(s, k, Lazy(true, s.pt[k].us), f); }
  }

  lemma BehindLeaves(s: State, op: Op, f: nat)
    requires Apart(s, f) && Enabled(s, op) && !OnPage(op) && op != Release(f)
    ensures Left(s, ApplyBehind(s, op), f)
  {
    if op.FreeTable? || op.HoldMore? || op.Unhold? || op.Hold? || op.NewTable? {
      KeepersLeave(s, op, f);
    } else {
      hide Scan, CommitPage, FailPick, Give, SwapInPage, DiscardPage;
      match op
      case SwapIn(k, g) => ReadLeaves(s, k, g, f);
      case Discard(k) => DiscardLeaves(s, k, f);
      case PickPage(k, sl) => ScanLeaves(s, k, sl, f);
      case Commit(sl) => CommitLeaves(s, sl, f);
      case WriteFailed(sl, junk) => FailLeaves(s, sl, junk, f);
      case Release(g) => GiveLeaves(s, g, f);
      case _ =>
    }
  }

  /** Whatever another cpu does, the frame and its bytes wait. */
  lemma StepWaits(s: State, op: Op, f: nat, p: Page)
    requires Waits(s, f, p) && Enabled(s, op) && op != Release(f)
    ensures Waits(Apply(s, op), f, p)
  {
    OnlyThread(s, f, p);
    StepGood(s, op);
    assert Apart(s, f);
    hide Inv, Apart;
    if OnPage(op) { PageLeaves(s, op, f); } else { BehindLeaves(s, op, f); }
  }

  lemma {:induction false} RunWaits(s: State, ops: seq<Op>, f: nat, p: Page)
    requires Waits(s, f, p) && Runs(s, ops) && Release(f) !in ops
    ensures Waits(After(s, ops), f, p)
    decreases |ops|
  {
    if ops != [] {
      StepWaits(s, ops[0], f, p);
      RunWaits(Apply(s, ops[0]), ops[1..], f, p);
    }
  }

  // ---------- the second look ----------

  lemma FinishSets(s: State, k: Key, e: Entry, f: nat, p: Page)
    requires Waits(s, f, p) && e.Swapped? && k in s.pt && s.pt[k] == e
    ensures Good(s, Finished(s, k, e, f), Set(k, Data(p)))
  {
    var x := Present(f, e.rw, false, false, e.us, false);
    assert FrameOk(s, f) && Count(s, f) == 1 && Ours(s.rc, f);
    UnbindInv(s, k);
    UnbindCounts(s, k);
    FreshMayBind(Unbind(s, k), x);
    ReplaceGood(s, k, x);
    var t := Replace(s, k, x);
    assert t.sflight[e.slot] > 0;
    GiveSlotGood(t, e.slot);
    ThenQuiet(s, t, GiveSlot(t, e.slot), Set(k, Data(p)));
  }

  /** The frame comes in, and shows the page as it is if and only if the slot still has the bytes that were read. */
  lemma FinishExact(s: State, k: Key, e: Entry, f: nat, p: Page)
    requires Waits(s, f, p) && e.Swapped? && k in s.pt && s.pt[k] == e
    ensures var t := Finished(s, k, e, f);
            && Inv(t) && Views(t) == Views(s)[k := Data(p)] && e.slot in s.disk
            && (Views(t) == Views(s) <==> s.disk[e.slot] == p)
  {
    FinishSets(s, k, e, f, p);
    assert KeyOk(s, k) && Shape(s);
    assert e.slot in s.sc.Keys;
    hide Inv, Finished;
    assert Views(s)[k] == Data(s.disk[e.slot]);
    assert Views(s)[k := Data(p)][k] == Data(p);
    if s.disk[e.slot] == p { MapSame(Views(s), k); }
  }

  lemma MapSame(v: map<Key, Content>, k: Key)
    requires k in v
    ensures v[k := v[k]] == v
  {
  }

  /** An entry that changed meanwhile costs the frame and nothing else. */
  lemma FinishDrops(s: State, k: Key, e: Entry, f: nat, p: Page)
    requires Waits(s, f, p) && e.Swapped? && !(k in s.pt && s.pt[k] == e)
    ensures Good(s, Finished(s, k, e, f), Quiet) && FreeFrame(Finished(s, k, e, f), f)
  {
    GiveGood(s, f);
  }

  /** Then it is as if the page had been read at this moment, under the lock, into a frame just allocated. */
  lemma FinishAtomic(s: State, k: Key, e: Entry, f: nat)
    requires e.Swapped? && e.slot in s.disk && Waits(s, f, s.disk[e.slot]) && k in s.pt && s.pt[k] == e
    ensures var t := Give(s, f);
            && FreeFrame(t, f) && |t.mem| == |t.rc|
            && Finished(s, k, e, f) == GiveSlot(SwapInPage(t, k, f), e.slot)
  {
    var t := Give(s, f);
    assert t.rc[f] == 0 && t.rc[f := 1] == s.rc;
    assert t.mem[f := s.disk[e.slot]] == s.mem;
    assert t.flight + multiset{f} == s.flight;
    assert Take(t, f, s.disk[e.slot]) == s;
  }

  // ---------- when the slot keeps its bytes ----------

  /** A slot that some page names is written by nobody. */
  lemma StepKeepsSlot(s: State, op: Op, f: nat, p: Page, sl: nat)
    requires Waits(s, f, p) && Enabled(s, op) && op != Release(f) && SlotKeys(s.pt, sl) != {}
    ensures sl in s.disk && sl in Apply(s, op).disk && Apply(s, op).disk[sl] == s.disk[sl]
  {
    var k :| k in SlotKeys(s.pt, sl);
    assert KeyOk(s, k) && Shape(s) && sl in s.sc.Keys && sl !in s.batch;
    OnlyThread(s, f, p);
    assert Apart(s, f);
    hide Inv, Apart;
    if OnPage(op) { PageLeaves(s, op, f); } else { BehindDisk(s, op, sl); }
  }

  lemma BehindDisk(s: State, op: Op, sl: nat)
    requires |s.mem| == |s.rc| && Enabled(s, op) && !OnPage(op) && sl in s.disk && sl !in s.batch
    ensures sl in ApplyBehind(s, op).disk && ApplyBehind(s, op).disk[sl] == s.disk[sl]
  {
    hide Give, CommitPage;
    match op
    case Commit(sl') => CommitDisk(s, sl');
    case Release(g) => GiveDisk(s, g);
    case FreeTable(g) => GiveDisk(FromTable(s, g), g);
    case Unhold(g) => GiveDisk(Unkeep(s, g), g);
    case _ =>
  }

  lemma CommitDisk(s: State, sl: nat)
    requires sl in s.batch
    ensures CommitPage(s, sl).disk == s.disk
  {
    hide StillPicked, FrameOf, SlotOf;
  }

  lemma GiveDisk(s: State, f: nat)
    ensures Give(s, f).disk == s.disk
  {
  }

  /** Through the whole run some page names the slot. */
  ghost predicate NamedThrough(s: State, ops: seq<Op>, sl: nat)
    requires Runs(s, ops)
    decreases |ops|
  {
    SlotKeys(s.pt, sl) != {} && (ops != [] ==> NamedThrough(Apply(s, ops[0]), ops[1..], sl))
  }

  lemma {:induction false} RunKeepsSlot(s: State, ops: seq<Op>, f: nat, p: Page, sl: nat)
    requires Waits(s, f, p) && Runs(s, ops) && Release(f) !in ops && NamedThrough(s, ops, sl) && sl in s.disk
    ensures sl in After(s, ops).disk && After(s, ops).disk[sl] == s.disk[sl]
    decreases |ops|
  {
    if ops != [] {
      StepWaits(s, ops[0], f, p);
      StepKeepsSlot(s, ops[0], f, p, sl);
      RunKeepsSlot(Apply(s, ops[0]), ops[1..], f, p, sl);
    }
  }

  /**
    Swapping in, with any run of the other cpus between the read and the second look. If some page
    names the slot all the time, as the page itself does unless somebody brings it back, nobody sees
    a difference, whatever the second look finds.
    */
  lemma SwapInQuiet(s: State, k: Key, f: nat, ops: seq<Op>)
    requires Inv(s) && FreeFrame(s, f) && k in s.pt && s.pt[k].Swapped? && s.pt[k].slot in s.disk
    requires Runs(Started(s, f, s.pt[k].slot), ops) && Release(f) !in ops
    requires NamedThrough(Started(s, f, s.pt[k].slot), ops, s.pt[k].slot)
    ensures var t := After(Started(s, f, s.pt[k].slot), ops);
            var u := Finished(t, k, s.pt[k], f);
            Inv(t) && Inv(u) && Views(u) == Views(t)
  {
    var sl := s.pt[k].slot;
    var t0 := Started(s, f, sl);
    StartWaits(s, f, sl);
    RunWaits(t0, ops, f, s.disk[sl]);
    RunKeepsSlot(t0, ops, f, s.disk[sl], sl);
    var t := After(t0, ops);
    if k in t.pt && t.pt[k] == s.pt[k] {
      FinishExact(t, k, s.pt[k], f, s.disk[sl]);
    } else {
      FinishDrops(t, k, s.pt[k], f, s.disk[sl]);
    }
  }

  // ---------- the writes to the slot ----------

  /** What one operation writes to slot `sl`, if it does. */
  function WrittenBy(s: State, op: Op, sl: nat): seq<Page>
    requires |s.mem| == |s.rc| && Enabled(s, op)
  {
    match op
    case WriteOut(x) => if x == sl && s.batch[x].fr < |s.mem| then [s.mem[s.batch[x].fr]] else []
    case WriteFailed(x, junk) => if x == sl then [junk] else []
    case _ => []
  }

  /** Everything that a run writes to it, in order. */
  ghost function Written(s: State, ops: seq<Op>, sl: nat): seq<Page>
    requires Runs(s, ops)
    decreases |ops|
  {
    if ops == [] then [] else WrittenBy(s, ops[0], sl) + Written(Apply(s, ops[0]), ops[1..], sl)
  }

  function LastOf(p: Page, ps: seq<Page>): Page {
    if ps == [] then p else ps[|ps| - 1]
  }

  lemma StepWrites(s: State, op: Op, f: nat, p: Page, sl: nat)
    requires Waits(s, f, p) && Enabled(s, op) && op != Release(f) && sl in s.disk
    ensures sl in Apply(s, op).disk && Apply(s, op).disk[sl] == LastOf(s.disk[sl], WrittenBy(s, op, sl))
  {
    OnlyThread(s, f, p);
    assert Apart(s, f);
    hide Inv, Apart;
    if OnPage(op) { PageLeaves(s, op, f); } else { BehindWrites(s, op, sl); }
  }

  lemma BehindWrites(s: State, op: Op, sl: nat)
    requires |s.mem| == |s.rc| && Enabled(s, op) && !OnPage(op) && sl in s.disk
    ensures sl in ApplyBehind(s, op).disk && ApplyBehind(s, op).disk[sl] == LastOf(s.disk[sl], WrittenBy(s, op, sl))
  {
    if !op.WriteOut? && !op.WriteFailed? { OthersKeepDisk(s, op); }
  }

  lemma OthersKeepDisk(s: State, op: Op)
    requires |s.mem| == |s.rc| && Enabled(s, op) && !OnPage(op) && !op.WriteOut? && !op.WriteFailed?
    ensures ApplyBehind(s, op).disk == s.disk
  {
    hide Give, CommitPage, Scan, SwapInPage, DiscardPage;
    match op
    case Commit(x) => CommitDisk(s, x);
    case Release(g) => GiveDisk(s, g);
    case FreeTable(g) => GiveDisk(FromTable(s, g), g);
    case Unhold(g) => GiveDisk(Unkeep(s, g), g);
    case PickPage(k, x) => ScanDisk(s, k, x);
    case SwapIn(k, g) => ReadDisk(s, k, g);
    case Discard(k) => DiscardDisk(s, k);
    case _ =>
  }

  lemma ScanDisk(s: State, k: Key, sl: nat)
    ensures Scan(s, k, sl).disk == s.disk
  {
    hide Bits, Ref, StartPick;
    if IsPresent(s, k) {
      var e := s.pt[k];
      var t := Again(Reflag(TakeSlot(s, sl), k, Bits(e, false, true)), e.fr);
      PickDisk(t, sl, k, e.fr);
    }
  }

  lemma PickDisk(s: State, sl: nat, k: Key, f: nat)
    ensures StartPick(s, sl, k, f).disk == s.disk
  {
  }

  lemma ReadDisk(s: State, k: Key, g: nat)
    requires FreeFrame(s, g) && |s.mem| == |s.rc|
    ensures SwapInPage(s, k, g).disk == s.disk
  {
  }

  lemma DiscardDisk(s: State, k: Key)
    ensures DiscardPage(s, k).disk == s.disk
  {
  }

  lemma LastOfBoth(p: Page, a: seq<Page>, b: seq<Page>)
    ensures LastOf(LastOf(p, a), b) == LastOf(p, a + b)
  {
  }

  lemma {:induction false} RunWrites(s: State, ops: seq<Op>, f: nat, p: Page, sl: nat)
    requires Waits(s, f, p) && Runs(s, ops) && Release(f) !in ops && sl in s.disk
    ensures sl in After(s, ops).disk && After(s, ops).disk[sl] == LastOf(s.disk[sl], Written(s, ops, sl))
    decreases |ops|
  {
    hide Waits, WrittenBy, LastOf, Apply, Enabled;
    if ops == [] {
      LastOfNone(s.disk[sl]);
    } else {
      var t := Apply(s, ops[0]);
      StepWaits(s, ops[0], f, p);
      StepWrites(s, ops[0], f, p, sl);
      RunWrites(t, ops[1..], f, p, sl);
      LastOfBoth(s.disk[sl], WrittenBy(s, ops[0], sl), Written(t, ops[1..], sl));
    }
  }

  lemma LastOfNone(p: Page)
    ensures LastOf(p, []) == p
  {
  }

  /**
    The exact condition, whatever the others do between the read and the second look: nobody sees a
    difference if and only if the entry is not the same any more, or nothing was written to the slot
    meanwhile, or what was written last is what was read.
    */
  lemma SwapInExact(s: State, k: Key, f: nat, ops: seq<Op>)
    requires Inv(s) && FreeFrame(s, f) && k in s.pt && s.pt[k].Swapped? && s.pt[k].slot in s.disk
    requires Runs(Started(s, f, s.pt[k].slot), ops) && Release(f) !in ops
    ensures var e, t0 := s.pt[k], Started(s, f, s.pt[k].slot);
            var t, ps := After(t0, ops), Written(t0, ops, e.slot);
            && Inv(t) && Inv(Finished(t, k, e, f))
            && (Views(Finished(t, k, e, f)) == Views(t)
                <==> !(k in t.pt && t.pt[k] == e) || ps == [] || ps[|ps| - 1] == s.disk[e.slot])
  {
    var e := s.pt[k];
    var t0 := Started(s, f, e.slot);
    StartWaits(s, f, e.slot);
    RunWaits(t0, ops, f, s.disk[e.slot]);
    RunWrites(t0, ops, f, s.disk[e.slot], e.slot);
    var t := After(t0, ops);
    hide Inv, Waits, Finished, Views;
    if k in t.pt && t.pt[k] == e {
      FinishExact(t, k, e, f, s.disk[e.slot]);
    } else {
      FinishDrops(t, k, e, f, s.disk[e.slot]);
    }
    WaitsInv(t, f, s.disk[e.slot]);
  }

  // ---------- when it does not ----------

  /** What another thread may do meanwhile: the page comes back, is written, and goes to the same slot again. */
  function Reuse(k: Key, g: nat, sl: nat, q: Page): seq<Op> {
    ([SwapIn(k, g)] + [ReleaseSlot(sl)]) + ([Store(k, q)] + ([PickPage(k, sl)] + ([WriteOut(sl)] + [Commit(sl)])))
  }

  lemma NoRelease(k: Key, g: nat, sl: nat, q: Page, f: nat)
    ensures Release(f) !in Reuse(k, g, sl, q)
  {
  }

  /** The page is back in frame `g`, and its slot has `n` references. */
  ghost predicate Back(s: State, k: Key, g: nat, sl: nat, n: nat) {
    && g < |s.rc| == |s.mem| && s.rc[g] == 1 && k in s.pt && s.pt[k] == Present(g, true, false, false, true, false)
    && sl in s.sc && s.sc[sl] == n && sl in s.disk && sl !in s.batch
  }

  /** It is on its way out with the bytes `q`. */
  ghost predicate GoesOut(s: State, k: Key, g: nat, sl: nat, q: Page, written: bool) {
    && g < |s.rc| == |s.mem| && s.mem[g] == q && k in s.pt && s.pt[k] == Present(g, false, true, false, true, false)
    && sl in s.disk && sl in s.batch && s.batch[sl] == Pick(k, g, written) && (written ==> s.disk[sl] == q)
  }

  ghost predicate OutWith(s: State, k: Key, sl: nat, q: Page) {
    k in s.pt && s.pt[k] == Swapped(sl, true, true) && sl in s.disk && s.disk[sl] == q
  }

  lemma ComesBack(s: State, k: Key, g: nat, sl: nat)
    requires Inv(s) && k in s.pt && s.pt[k] == Swapped(sl, true, true) && FreeFrame(s, g)
    requires sl in s.sc && s.sc[sl] == 1
    ensures var t := SwapInPage(s, k, g);
            Back(t, k, g, sl, 1) && t.sflight[sl] > 0 && Back(GiveSlot(t, sl), k, g, sl, 0)
  {
    assert KeyOk(s, k) && Shape(s) && sl in s.sc.Keys;
  }

  lemma GoesAgain(s: State, k: Key, g: nat, sl: nat, q: Page)
    requires Back(s, k, g, sl, 0)
    ensures GoesOut(Scan(SetMem(s, g, q), k, sl), k, g, sl, q, false)
  {
  }

  lemma IsWritten(s: State, k: Key, g: nat, sl: nat, q: Page)
    requires GoesOut(s, k, g, sl, q, false)
    ensures GoesOut(WritePick(s, sl), k, g, sl, q, true)
  {
  }

  lemma IsGone(s: State, k: Key, g: nat, sl: nat, q: Page)
    requires GoesOut(s, k, g, sl, q, true)
    ensures OutWith(CommitPage(s, sl), k, sl, q)
  {
    assert StillPicked(s, s.batch[sl]);
  }

  lemma BackLeads(s: State, k: Key, g: nat, sl: nat) returns (t: State)
    requires Inv(s) && k in s.pt && s.pt[k] == Swapped(sl, true, true) && FreeFrame(s, g)
    requires sl in s.sc && s.sc[sl] == 1
    ensures RunLeads(s, [SwapIn(k, g)] + [ReleaseSlot(sl)], t) && Back(t, k, g, sl, 0)
  {
    hide Leads, RunLeads, SwapInPage, GiveSlot;
    var u := SwapInPage(s, k, g);
    ComesBack(s, k, g, sl);
    t := GiveSlot(u, sl);
    SwapInLeads(s, k, g);
    SlotLeads(u, sl);
    OneStep(s, SwapIn(k, g), u);
    OneStep(u, ReleaseSlot(sl), t);
    Joined(s, [SwapIn(k, g)], u, [ReleaseSlot(sl)], t);
  }

  lemma OutLeads(s: State, k: Key, g: nat, sl: nat, q: Page) returns (t: State)
    requires Back(s, k, g, sl, 0)
    ensures RunLeads(s, [Store(k, q)] + ([PickPage(k, sl)] + ([WriteOut(sl)] + [Commit(sl)])), t)
    ensures OutWith(t, k, sl, q)
  {
    hide Leads, RunLeads, OutWith, Scan, WritePick, CommitPage;
    var a := SetMem(s, g, q);
    StoreLeads(s, k, q);
    GoesAgain(s, k, g, sl, q);
    var b := Scan(a, k, sl);
    PickLeads(a, k, sl);
    IsWritten(b, k, g, sl, q);
    var c := WritePick(b, sl);
    WriteLeads(b, sl);
    IsGone(c, k, g, sl, q);
    t := CommitPage(c, sl);
    CommitLeads(c, sl);
    OneStep(s, Store(k, q), a);
    OneStep(a, PickPage(k, sl), b);
    OneStep(b, WriteOut(sl), c);
    OneStep(c, Commit(sl), t);
    Joined(b, [WriteOut(sl)], c, [Commit(sl)], t);
    Joined(a, [PickPage(k, sl)], b, [WriteOut(sl)] + [Commit(sl)], t);
    Joined(s, [Store(k, q)], a, [PickPage(k, sl)] + ([WriteOut(sl)] + [Commit(sl)]), t);
  }

  /** The whole of it, while the frame of the other thread waits. */
  lemma ReuseLeads(s: State, k: Key, f: nat, p: Page, g: nat, sl: nat, q: Page) returns (t: State)
    requires Waits(s, f, p) && k in s.pt && s.pt[k] == Swapped(sl, true, true) && FreeFrame(s, g)
    requires sl in s.sc && s.sc[sl] == 1
    ensures RunLeads(s, Reuse(k, g, sl, q), t) && Waits(t, f, p) && OutWith(t, k, sl, q)
  {
    WaitsInv(s, f, p);
    NoRelease(k, g, sl, q, f);
    hide Inv, RunLeads, Back, Waits, OutWith;
    var u := BackLeads(s, k, g, sl);
    t := OutLeads(u, k, g, sl, q);
    Joined(s, [SwapIn(k, g)] + [ReleaseSlot(sl)], u,
      [Store(k, q)] + ([PickPage(k, sl)] + ([WriteOut(sl)] + [Commit(sl)])), t);
    Led(s, Reuse(k, g, sl, q), t);
    RunWaits(s, Reuse(k, g, sl, q), f, p);
  }

  /** A private page that is the only one to name its slot. */
  ghost predicate Sole(s: State, k: Key) {
    && k in s.pt && s.pt[k].Swapped? && s.pt[k].rw && s.pt[k].us
    && s.pt[k].slot in s.disk && s.pt[k].slot in s.sc && s.sc[s.pt[k].slot] == 1
  }

  /** The page has the entry `e` and the bytes `q`, and the second look puts `p` in their place. */
  ghost predicate Undone(t: State, k: Key, e: Entry, f: nat, q: Page, p: Page) {
    && e.Swapped? && k in t.pt && t.pt[k] == e && Views(t)[k] == Data(q)
    && k in Finished(t, k, e, f).pt && Views(Finished(t, k, e, f))[k] == Data(p)
  }

  lemma FinishUndoes(t: State, k: Key, e: Entry, f: nat, q: Page, p: Page)
    requires Waits(t, f, p) && e.Swapped? && e.rw && e.us && OutWith(t, k, e.slot, q)
    ensures Undone(t, k, e, f, q, p)
  {
    FinishExact(t, k, e, f, p);
    hide Inv, Waits, Finished;
    assert k in Views(Finished(t, k, e, f));
  }

  /**
    Wherever there is such a page, and two frames are free: it can come back, be written and go to the
    same slot between the read and the second look. The entry is then what it was, and the page loses
    what was written.
    */
  lemma ReusedSlot(s: State, k: Key, f: nat, g: nat, q: Page)
    requires Inv(s) && Sole(s, k) && FreeFrame(s, f) && FreeFrame(s, g) && f != g
    ensures var e := s.pt[k];
            && Runs(Started(s, f, e.slot), Reuse(k, g, e.slot, q)) && Release(f) !in Reuse(k, g, e.slot, q)
            && Undone(After(Started(s, f, e.slot), Reuse(k, g, e.slot, q)), k, e, f, q, s.disk[e.slot])
  {
    assert |s.mem| == |s.rc|;
    hide Inv, RunLeads, Waits, Runs, After, Apply, Undone, OutWith, Reuse;
    NoRelease(k, g, s.pt[k].slot, q, f);
    var e := s.pt[k];
    var s0 := Started(s, f, e.slot);
    StartWaits(s, f, e.slot);
    var t := ReuseLeads(s0, k, f, s.disk[e.slot], g, e.slot, q);
    Led(s0, Reuse(k, g, e.slot, q), t);
    FinishUndoes(t, k, e, f, q, s.disk[e.slot]);
  }

  lemma WaitsInv(s: State, f: nat, p: Page)
    requires Waits(s, f, p)
    ensures Inv(s)
  {
  }

  /** The page is swapped out and its frame is free again. */
  function SwappedOut(va: nat, p: Page): seq<Op> {
    ThenSwap(va, p) + ([Release(9)] + [Release(9)])
  }

  /** Such states are reached from the boot on. */
  lemma ReuseReached(va: nat, p: Page, z: Page)
    requires BASE <= va < TOP
    ensures Runs(SmallBoot(z), SwappedOut(va, p))
    ensures var s := After(SmallBoot(z), SwappedOut(va, p));
            Inv(s) && Sole(s, Key(1, va)) && FreeFrame(s, 5) && FreeFrame(s, 9) && Views(s)[Key(1, va)] == Data(p)
  {
    hide SmallBoot, WritePage, Wrote, Survives, Inv, RunLeads, Leads;
    var s := PageWritten(va, p, z);
    var t := SwapSurvives(s, va, p);
    Joined(SmallBoot(z), WritePage(va, p), s, [PickPage(Key(1, va), 1)] + ([WriteOut(1)] + [Commit(1)]), t);
    var u := Give(t, 9);
    var v := Give(u, 9);
    ReleaseLeads(t, 9);
    ReleaseLeads(u, 9);
    OneStep(t, Release(9), u);
    OneStep(u, Release(9), v);
    Joined(t, [Release(9)], u, [Release(9)], v);
    Joined(SmallBoot(z), ThenSwap(va, p), t, [Release(9)] + [Release(9)], v);
    Led(SmallBoot(z), SwappedOut(va, p), v);
    SmallBootInv(z);
    RunRefines(SmallBoot(z), SwappedOut(va, p));
  }
}

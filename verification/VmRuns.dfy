/**
  Whole runs of the operations on address spaces, in any order and for any number of spaces.

  The labels give the reference model: a table of page contents in which fork copies a page, a
  store changes one page, and copy on write, swapping and protection do not exist. Every run of
  the operations shows the spaces exactly what the model computes from the labels.
  */
module VmRuns {
  import opened FramePool
  import opened VmState
  import opened VmOps

  lemma PageStepGood(s: State, op: Op)
    requires Inv(s) && Enabled(s, op) && OnPage(op)
    ensures Good(s, ApplyOnPage(s, op), LabelOf(s, op))
  {
    match op
    case FaultIn(k, f) => FaultInGood(s, k, f);
    case Cow(k, f) => CowGood(s, k, f);
    case Store(k, p) => StoreGood(s, k, p);
    case ClonePage(k, child) => CloneGood(s, k, child);
    case Unmap(k) => ClearGood(s, k);
    case UnmapLater(k) => UnmapLaterGood(s, k);
    case Reserve(k, rw, us) => ReserveGood(s, k, rw, us);
    case Populate(k, f, w) => PopulateGood(s, k, f, w);
    case Protect(k, w) => ProtectGood(s, k, w);
    case SetUser(k, us) => SetUserGood(s, k, us);
    case MapShared(k, f, rw) => MapKeptGood(s, k, SharedEntry(f, rw));
    case MapCache(k, f, w, shared) => MapKeptGood(s, k, CacheEntry(f, w, shared));
    case Touch(k) => TouchGood(s, k);
  }

  lemma BehindStepGood(s: State, op: Op)
    requires Inv(s) && Enabled(s, op) && !OnPage(op)
    ensures Good(s, ApplyBehind(s, op), LabelOf(s, op))
  {
    match op
    case NewTable(f, pd) => NewTableGood(s, f, pd);
    case FreeTable(f) => FreeTableGood(s, f);
    case Release(f) => GiveGood(s, f);
    case ReleaseSlot(sl) => GiveSlotGood(s, sl);
    case Hold(f, p) => HoldGood(s, f, p);
    case HoldMore(f) => HoldMoreGood(s, f);
    case Unhold(f) => UnholdGood(s, f);
    case Refill(f, p) => RefillGood(s, f, p);
    case PickPage(k, sl) => ScanGood(s, k, sl);
    case WriteOut(sl) => WriteOutGood(s, sl);
    case WriteFailed(sl, junk) => WriteFailedGood(s, sl, junk);
    case Commit(sl) => CommitGood(s, sl);
    case SwapIn(k, f) => SwapInGood(s, k, f);
    case Discard(k) => DiscardGood(s, k);
  }

  /** Every operation keeps the invariant and does what its label says. */
  lemma StepGood(s: State, op: Op)
    requires Inv(s) && Enabled(s, op)
    ensures Good(s, Apply(s, op), LabelOf(s, op))
  {
    if OnPage(op) { PageStepGood(s, op); } else { BehindStepGood(s, op); }
  }

  lemma UnmapLaterGood(s: State, k: Key)
    requires Inv(s)
    ensures Good(s, UnmapPageLater(s, k), Gone(k))
  {
    if IsPresent(s, k) { UnbindGood(s, k); } else { ClearGood(s, k); }
  }

  lemma SetUserGood(s: State, k: Key, us: bool)
    requires Inv(s)
    ensures Good(s, SetUserPage(s, k, us), Quiet)
  {
    if k in s.pt {
      assert KeyOk(s, k);
      ReflagGood(s, k, UserBit(s.pt[k], us));
    }
  }

  lemma TouchGood(s: State, k: Key)
    requires Inv(s)
    ensures Good(s, TouchPage(s, k), Quiet)
  {
    if IsPresent(s, k) {
      assert KeyOk(s, k);
      ReflagGood(s, k, Present(s.pt[k].fr, s.pt[k].rw, s.pt[k].cow, s.pt[k].shared, s.pt[k].us, true));
    }
  }

  lemma WriteOutGood(s: State, sl: nat)
    requires Inv(s) && sl in s.batch
    ensures Good(s, WritePick(s, sl), Quiet)
  {
    if s.batch[sl].fr < |s.mem| { SetDiskGood(s, sl, s.mem[s.batch[sl].fr], true); }
  }

  // ---------- runs ----------

  ghost predicate Runs(s: State, ops: seq<Op>)
    decreases |ops|
  {
    ops == [] || (Enabled(s, ops[0]) && |s.mem| == |s.rc| && Runs(Apply(s, ops[0]), ops[1..]))
  }

  ghost function After(s: State, ops: seq<Op>): State
    requires Runs(s, ops)
    decreases |ops|
  {
    if ops == [] then s else After(Apply(s, ops[0]), ops[1..])
  }

  /** The reference model run over the labels. */
  ghost function Model(v: map<Key, Content>, s: State, ops: seq<Op>): map<Key, Content>
    requires Runs(s, ops)
    decreases |ops|
  {
    if ops == [] then v else Model(Effect(v, LabelOf(s, ops[0])), Apply(s, ops[0]), ops[1..])
  }

  /** Every run keeps every reference byte exact or stuck, and shows what the model shows. */
  lemma {:induction false} RunRefines(s: State, ops: seq<Op>)
    requires Inv(s) && Runs(s, ops)
    ensures Inv(After(s, ops))
    ensures Views(After(s, ops)) == Model(Views(s), s, ops)
    decreases |ops|
  {
    if ops != [] {
      StepGood(s, ops[0]);
      RunRefines(Apply(s, ops[0]), ops[1..]);
    }
  }

  /** The operations a space uses to change page `k` itself. */
  predicate AimsAt(op: Op, k: Key) {
    match op
    case Store(k', _) => k' == k
    case Unmap(k') => k' == k
    case UnmapLater(k') => k' == k
    case Reserve(k', _, _) => k' == k
    case MapShared(k', _, _) => k' == k
    case MapCache(k', _, _, _) => k' == k
    case Discard(k') => k' == k
    case _ => false
  }

  /** After pmm_add and swapon: frames and slots are free or not usable, and nothing is mapped. */
  function BootState(rc: seq<nat>, mem: seq<Page>, sc: map<nat, nat>, disk: map<nat, Page>): State {
    State(rc, Zeros(rc), mem, map[], map[], multiset{}, multiset{}, sc, disk, map[], multiset{})
  }

  lemma BootInv(rc: seq<nat>, mem: seq<Page>, sc: map<nat, nat>, disk: map<nat, Page>)
    requires |mem| == |rc| && (forall f | 0 <= f < |rc| :: rc[f] == 0 || rc[f] == NOT_OURS)
      && (|rc| > 0 ==> rc[0] == NOT_OURS)
    requires sc.Keys == disk.Keys && forall sl | sl in sc :: sc[sl] == 0 || sc[sl] == BAD_SLOT
    ensures Inv(BootState(rc, mem, sc, disk))
  {
    var s := BootState(rc, mem, sc, disk);
    forall f
      ensures FrameOk(s, f) && OwnerOk(s, f)
    {
      assert KeysOn(s.pt, f) == {} && PicksOn(s.batch, f) == {};
    }
    forall sl
      ensures SlotOk(s, sl)
    {
      assert SlotKeys(s.pt, sl) == {};
    }
  }

  /** From the boot on, every run shows what the page model shows when it starts with nothing mapped. */
  lemma BootRefines(rc: seq<nat>, mem: seq<Page>, sc: map<nat, nat>, disk: map<nat, Page>, ops: seq<Op>)
    requires |mem| == |rc| && (forall f | 0 <= f < |rc| :: rc[f] == 0 || rc[f] == NOT_OURS)
      && (|rc| > 0 ==> rc[0] == NOT_OURS)
    requires sc.Keys == disk.Keys && forall sl | sl in sc :: sc[sl] == 0 || sc[sl] == BAD_SLOT
    requires Runs(BootState(rc, mem, sc, disk), ops)
    ensures var s := BootState(rc, mem, sc, disk);
            Inv(After(s, ops)) && Views(After(s, ops)) == Model(map[], s, ops)
  {
    BootInv(rc, mem, sc, disk);
    RunRefines(BootState(rc, mem, sc, disk), ops);
  }

  /** A store that several pages see never reaches a page that belongs to one space. */
  lemma SharedStoreApart(s: State, op: Op)
    requires Inv(s) && Enabled(s, op)
    ensures LabelOf(s, op).SetMany? ==> LabelOf(s, op).ks !! OwnSet(s)
  {
    match op
    case Store(k, _) =>
      if s.pt[k].shared {
        assert SharedOn(s.pt, k, s.pt[k].fr);
        OwnApart(s, s.pt[k].fr);
      }
    case Refill(f, _) => OwnApart(s, f);
    case _ =>
  }

  /** What an operation touches besides pages that several spaces see: the pages it aims at. */
  lemma TouchesItsAim(s: State, op: Op, k: Key)
    requires Inv(s) && Enabled(s, op) && k in s.pt && k in Touched(LabelOf(s, op))
    ensures AimsAt(op, k) || LabelOf(s, op).SetMany?
  {
  }

  lemma StepIsolates(s: State, op: Op, k: Key)
    requires Inv(s) && Enabled(s, op) && Own(s, k) && !AimsAt(op, k)
    ensures Own(Apply(s, op), k) && Views(Apply(s, op))[k] == Views(s)[k]
  {
    var l := LabelOf(s, op);
    StepGood(s, op);
    SharedStoreApart(s, op);
    assert k in OwnSet(s);
    if k in Touched(l) { TouchesItsAim(s, op, k); }
    GoodElsewhere(s, Apply(s, op), l, k);
  }

  lemma GoodElsewhere(s: State, s': State, l: Label, k: Key)
    requires Good(s, s', l) && Own(s, k) && k !in Touched(l)
    ensures Own(s', k) && k in Views(s') && Views(s')[k] == Views(s)[k]
  {
    assert k in OwnSet(s);
    assert k in OwnSet(s');
  }

  /**
    Isolation. Whatever all the spaces do, including forks, faults, protection changes and
    swapping of this very page, a page that belongs to its space keeps its contents until its
    own space stores to it or maps something else there.
    */
  lemma {:induction false} Isolation(s: State, ops: seq<Op>, k: Key)
    requires Inv(s) && Runs(s, ops) && Own(s, k)
    requires forall i | 0 <= i < |ops| :: !AimsAt(ops[i], k)
    ensures Own(After(s, ops), k) && Views(After(s, ops))[k] == Views(s)[k]
    decreases |ops|
  {
    if ops != [] {
      StepIsolates(s, ops[0], k);
      StepGood(s, ops[0]);
      Isolation(Apply(s, ops[0]), ops[1..], k);
    }
  }

  /** A forked page starts with the parent's contents, and belongs to the child if it did to the parent. */
  lemma ForkCopies(s: State, k: Key, child: nat)
    requires Inv(s) && k in s.pt && Key(child, k.va) !in s.pt
    ensures var s' := Apply(s, ClonePage(k, child));
            && Inv(s') && Key(child, k.va) in s'.pt
            && Views(s')[Key(child, k.va)] == Views(s')[k] == Views(s)[k]
            && (Own(s, k) ==> Own(s', k) && Own(s', Key(child, k.va)))
  {
    var s', k2 := Apply(s, ClonePage(k, child)), Key(child, k.va);
    StepGood(s, ClonePage(k, child));
    if Own(s, k) {
      StepIsolates(s, ClonePage(k, child), k);
    }
  }

  /**
    Fork is a copy. After a page is forked, parent and child each go on with the contents it had,
    however long the run: what one of them stores the other never sees.
    */
  lemma ForkDiverges(s: State, k: Key, child: nat, ops: seq<Op>)
    requires Inv(s) && Own(s, k) && Key(child, k.va) !in s.pt && |s.mem| == |s.rc|
    requires Runs(Apply(s, ClonePage(k, child)), ops)
    ensures var end := After(Apply(s, ClonePage(k, child)), ops);
            var k2 := Key(child, k.va);
            && ((forall i | 0 <= i < |ops| :: !AimsAt(ops[i], k2)) ==> k2 in end.pt && Views(end)[k2] == Views(s)[k])
            && ((forall i | 0 <= i < |ops| :: !AimsAt(ops[i], k)) ==> k in end.pt && Views(end)[k] == Views(s)[k])
  {
    var s', k2 := Apply(s, ClonePage(k, child)), Key(child, k.va);
    ForkCopies(s, k, child);
    if forall i | 0 <= i < |ops| :: !AimsAt(ops[i], k2) { Isolation(s', ops, k2); }
    if forall i | 0 <= i < |ops| :: !AimsAt(ops[i], k) { Isolation(s', ops, k); }
  }

  // ---------- shared pages ----------

  /** Clearing page `k` and writing it anew leaves the other entries alone. */
  lemma ClearElsewhere(s: State, k: Key, j: Key, e: Entry)
    requires j in s.pt && j != k && Bytes(s.rc)
    ensures j in Clear(s, k).pt && Clear(s, k).pt[j] == s.pt[j]
    ensures j in Bind(Clear(s, k), k, e).pt && Bind(Clear(s, k), k, e).pt[j] == s.pt[j]
  {
    ClearLeaves(s, k, 0);
  }

  lemma PopulateElsewhere(s: State, k: Key, f: nat, w: bool, j: Key, g: nat)
    requires Inv(s) && FreeFrame(s, f) && SharedOn(s.pt, j, g)
    ensures SharedOn(PopulatePage(s, k, f, w).pt, j, g)
  {
    if IsPresent(s, k) {
      assert PopulatePage(s, k, f, w) == if w then MakeWritable(s, k) else s;
    } else if k in s.pt && s.pt[k].Swapped? {
      assert PopulatePage(s, k, f, w) == if w then Reflag(s, k, Bits(s.pt[k], true, false)) else s;
    } else {
      ClearElsewhere(Take(s, f, ZeroPage()), k, j, Present(f, w, false, false, true, false));
    }
  }

  lemma CowElsewhere(s: State, k: Key, f: nat, j: Key, g: nat)
    requires Inv(s) && FreeFrame(s, f) && SharedOn(s.pt, j, g)
    ensures SharedOn(CowFault(s, k, f).pt, j, g)
  {
    if k == j {
      assert KeyOk(s, j);
      hide Inv;
      assert CowFault(s, k, f) == s;
    }
  }

  lemma ScanElsewhere(s: State, k: Key, sl: nat, j: Key, g: nat)
    requires SharedOn(s.pt, j, g)
    ensures SharedOn(Scan(s, k, sl).pt, j, g)
  {
    hide Ref, Unref, SlotUp, Zeros;
  }

  lemma CommitElsewhere(s: State, sl: nat, j: Key, g: nat)
    requires Inv(s) && sl in s.batch && SharedOn(s.pt, j, g)
    ensures SharedOn(CommitPage(s, sl).pt, j, g)
  {
    assert PickOk(s, sl);
    assert KeyOk(s, j);
  }

  lemma ForkElsewhere(s: State, k: Key, child: nat, j: Key, g: nat)
    requires SharedOn(s.pt, j, g) && Key(child, k.va) !in s.pt
    ensures SharedOn(Clone(s, k, child).pt, j, g)
  {
  }

  lemma ProtectElsewhere(s: State, k: Key, w: bool, j: Key, g: nat)
    requires SharedOn(s.pt, j, g)
    ensures SharedOn(ProtectPage(s, k, w).pt, j, g)
  {
    if k in s.pt && IsPresent(s, k) && w {
      FlagElsewhere(s, k, Bits(s.pt[k], false, true), j, g);
      FlagElsewhere(s, k, Bits(s.pt[k], true, false), j, g);
    }
  }

  /** An entry that is replaced is not the shared one. */
  lemma ReplaceElsewhere(s: State, k: Key, e: Entry, j: Key, g: nat)
    requires SharedOn(s.pt, j, g) && k in s.pt && j != k
    ensures SharedOn(Replace(s, k, e).pt, j, g)
  {
  }

  lemma FlagElsewhere(s: State, k: Key, e: Entry, j: Key, g: nat)
    requires SharedOn(s.pt, j, g) && k in s.pt && SameTarget(s.pt[k], e) && (e.Present? ==> e.shared == s.pt[k].shared)
    ensures SharedOn(Reflag(s, k, e).pt, j, g)
  {
  }

  lemma FailElsewhere(s: State, sl: nat, junk: Page)
    requires sl in s.batch
    ensures FailPick(s, sl, junk).pt == s.pt
  {
  }

  lemma PageStepStaysShared(s: State, op: Op, k: Key, g: nat)
    requires Inv(s) && Enabled(s, op) && OnPage(op) && SharedOn(s.pt, k, g) && (AimsAt(op, k) ==> op.Store?)
    ensures SharedOn(ApplyOnPage(s, op).pt, k, g)
  {
    match op
    case Cow(k', f) => CowElsewhere(s, k', f, k, g);
    case ClonePage(k', child) => ForkElsewhere(s, k', child, k, g);
    case Unmap(k') => ClearElsewhere(s, k', k, Lazy(false, false));
    case UnmapLater(k') => ClearElsewhere(s, k', k, Lazy(false, false));
    case Reserve(k', rw, us) => ClearElsewhere(s, k', k, Lazy(rw, us));
    case Populate(k', f, w) => PopulateElsewhere(s, k', f, w, k, g);
    case Protect(k', w) => ProtectElsewhere(s, k', w, k, g);
    case MapShared(k', f, rw) => ClearElsewhere(Again(s, f), k', k, SharedEntry(f, rw));
    case MapCache(k', f, w, shared) =>
      ClearElsewhere(Again(s, f), k', k, CacheEntry(f, w, shared));
    case FaultIn(k', f) =>
      if k' in s.pt && s.pt[k'].Lazy? {
        ReplaceElsewhere(Take(s, f, ZeroPage()), k', Present(f, s.pt[k'].rw, false, false, s.pt[k'].us, false), k, g);
      }
    case SetUser(k', us) => if k' in s.pt { FlagElsewhere(s, k', UserBit(s.pt[k'], us), k, g); }
    case Touch(k') =>
      if IsPresent(s, k') {
        FlagElsewhere(s, k', Present(s.pt[k'].fr, s.pt[k'].rw, s.pt[k'].cow, s.pt[k'].shared, s.pt[k'].us, true), k, g);
      }
    case Store(_, _) =>
  }

  lemma BehindStepStaysShared(s: State, op: Op, k: Key, g: nat)
    requires Inv(s) && Enabled(s, op) && !OnPage(op) && SharedOn(s.pt, k, g) && !AimsAt(op, k)
    ensures SharedOn(ApplyBehind(s, op).pt, k, g)
  {
    match op
    case PickPage(k', sl) => ScanElsewhere(s, k', sl, k, g);
    case Commit(sl) => CommitElsewhere(s, sl, k, g);
    case SwapIn(k', f) =>
      if k' in s.pt && s.pt[k'].Swapped? && s.pt[k'].slot in s.disk {
        ReplaceElsewhere(Take(s, f, s.disk[s.pt[k'].slot]), k',
          Present(f, s.pt[k'].rw, false, false, s.pt[k'].us, false), k, g);
      }
    case Discard(k') =>
      if IsPresent(s, k') && s.pt[k'].rw && !s.pt[k'].shared { ReplaceElsewhere(s, k', Lazy(true, s.pt[k'].us), k, g); }
    case WriteFailed(sl, junk) => FailElsewhere(s, sl, junk);
    case _ =>
  }

  /** Nothing but a new mapping in its place takes the frame from a shared page. */
  lemma StepStaysShared(s: State, op: Op, k: Key, g: nat)
    requires Inv(s) && Enabled(s, op) && SharedOn(s.pt, k, g) && (AimsAt(op, k) ==> op.Store?)
    ensures SharedOn(Apply(s, op).pt, k, g)
  {
    if OnPage(op) { PageStepStaysShared(s, op, k, g); } else { BehindStepStaysShared(s, op, k, g); }
  }

  /** Two shared mappings of one frame stay mappings of that frame, and so always show the same. */
  lemma {:induction false} SharedStaysCommon(s: State, ops: seq<Op>, k: Key, k': Key)
    requires Inv(s) && Runs(s, ops) && IsPresent(s, k) && IsPresent(s, k')
    requires s.pt[k].shared && s.pt[k'].shared && s.pt[k].fr == s.pt[k'].fr
    requires forall i | 0 <= i < |ops| :: AimsAt(ops[i], k) || AimsAt(ops[i], k') ==> ops[i].Store?
    ensures var end := After(s, ops);
            SharedOn(end.pt, k, s.pt[k].fr) && SharedOn(end.pt, k', s.pt[k].fr) && Views(end)[k] == Views(end)[k']
    decreases |ops|
  {
    if ops != [] {
      var op := ops[0];
      StepGood(s, op);
      StepStaysShared(s, op, k, s.pt[k].fr);
      StepStaysShared(s, op, k', s.pt[k].fr);
      SharedStaysCommon(Apply(s, op), ops[1..], k, k');
    }
  }

  // ---------- swap-out ----------

  /** A frame held by a swap-out in progress is never written: what goes to disk is what was picked. */
  lemma PickedFrameFrozen(s: State, op: Op, sl: nat)
    requires Inv(s) && Enabled(s, op) && sl in s.batch && sl in Apply(s, op).batch
    requires s.batch[sl].fr < |s.mem| && s.batch[sl].fr < |Apply(s, op).mem|
    ensures Apply(s, op).mem[s.batch[sl].fr] == s.mem[s.batch[sl].fr]
  {
    assert PickOk(s, sl);
    var f := s.batch[sl].fr;
    PickedIsCounted(s, sl);
    assert FrameOk(s, f);
    match op
    case Store(k, _) => assert !Exposes(s.pt, k, f);
    case _ => MemOnlyFresh(s, op, f);
  }

  /** Besides stores and refills, operations only write frames that were free. */
  lemma MemOnlyFresh(s: State, op: Op, f: nat)
    requires |s.mem| == |s.rc| && Enabled(s, op) && !op.Store? && !(op.Refill? && op.f == f)
    requires f < |s.rc| && s.rc[f] != 0
    ensures f < |Apply(s, op).mem| && Apply(s, op).mem[f] == s.mem[f]
  {
    if OnPage(op) { PageMemFresh(s, op, f); } else { BehindMemFresh(s, op, f); }
  }

  lemma PageMemFresh(s: State, op: Op, f: nat)
    requires |s.mem| == |s.rc| && Enabled(s, op) && OnPage(op) && !op.Store? && f < |s.rc| && s.rc[f] != 0
    ensures f < |ApplyOnPage(s, op).mem| && ApplyOnPage(s, op).mem[f] == s.mem[f]
  {
    match op
    case Cow(k, g) => CowMem(s, k, g, f);
    case Populate(k, g, w) => PopulateMem(s, k, g, w, f);
    case _ =>
  }

  lemma CowMem(s: State, k: Key, g: nat, f: nat)
    requires FreeFrame(s, g) && |s.mem| == |s.rc| && f < |s.rc| && f != g
    ensures f < |CowFault(s, k, g).mem| && CowFault(s, k, g).mem[f] == s.mem[f]
  {
  }

  lemma PopulateMem(s: State, k: Key, g: nat, w: bool, f: nat)
    requires FreeFrame(s, g) && |s.mem| == |s.rc| && f < |s.rc| && f != g
    ensures f < |PopulatePage(s, k, g, w).mem| && PopulatePage(s, k, g, w).mem[f] == s.mem[f]
  {
  }

  lemma BehindMemFresh(s: State, op: Op, f: nat)
    requires |s.mem| == |s.rc| && Enabled(s, op) && !OnPage(op) && !(op.Refill? && op.f == f) && f < |s.rc|
      && s.rc[f] != 0
    ensures f < |ApplyBehind(s, op).mem| && ApplyBehind(s, op).mem[f] == s.mem[f]
  {
    match op
    case Commit(sl) => CommitMem(s, sl);
    case WriteFailed(sl, junk) => FailMem(s, sl, junk);
    case _ =>
  }

  lemma CommitMem(s: State, sl: nat)
    requires sl in s.batch
    ensures CommitPage(s, sl).mem == s.mem
  {
  }

  lemma FailMem(s: State, sl: nat, junk: Page)
    requires sl in s.batch
    ensures FailPick(s, sl, junk).mem == s.mem
  {
  }

  // ---------- runs step by step ----------

  /** Operation `op` leads from `s` to `t`. */
  ghost predicate Leads(s: State, op: Op, t: State) {
    |s.mem| == |s.rc| && Enabled(s, op) && Apply(s, op) == t
  }

  lemma TableLeads(s: State, f: nat, pd: nat)
    requires FreeFrame(s, f) && |s.mem| == |s.rc|
    ensures Leads(s, NewTable(f, pd), TableFrame(s, f, pd))
  {
  }

  lemma PopulateLeads(s: State, k: Key, f: nat, w: bool)
    requires FreeFrame(s, f) && |s.mem| == |s.rc|
    ensures Leads(s, Populate(k, f, w), PopulatePage(s, k, f, w))
  {
  }

  lemma StoreLeads(s: State, k: Key, p: Page)
    requires IsPresent(s, k) && s.pt[k].rw && s.pt[k].fr < |s.mem| == |s.rc|
    ensures Leads(s, Store(k, p), SetMem(s, s.pt[k].fr, p))
  {
  }

  lemma CloneLeads(s: State, k: Key, child: nat)
    requires Key(child, k.va) !in s.pt && |s.mem| == |s.rc|
    ensures Leads(s, ClonePage(k, child), Clone(s, k, child))
  {
  }

  lemma PickLeads(s: State, k: Key, sl: nat)
    requires sl in s.sc && s.sc[sl] == 0 && |s.mem| == |s.rc|
    ensures Leads(s, PickPage(k, sl), Scan(s, k, sl))
  {
  }

  lemma WriteLeads(s: State, sl: nat)
    requires sl in s.batch && |s.mem| == |s.rc|
    ensures Leads(s, WriteOut(sl), WritePick(s, sl))
  {
  }

  lemma CommitLeads(s: State, sl: nat)
    requires sl in s.batch && s.batch[sl].written && |s.mem| == |s.rc|
    ensures Leads(s, Commit(sl), CommitPage(s, sl))
  {
  }

  lemma DiscardLeads(s: State, k: Key)
    requires |s.mem| == |s.rc|
    ensures Leads(s, Discard(k), DiscardPage(s, k))
  {
  }

  lemma SwapInLeads(s: State, k: Key, f: nat)
    requires FreeFrame(s, f) && |s.mem| == |s.rc|
    ensures Leads(s, SwapIn(k, f), SwapInPage(s, k, f))
  {
  }

  lemma SlotLeads(s: State, sl: nat)
    requires s.sflight[sl] > 0 && |s.mem| == |s.rc|
    ensures Leads(s, ReleaseSlot(sl), GiveSlot(s, sl))
  {
  }

  lemma ReleaseLeads(s: State, f: nat)
    requires s.flight[f] > 0 && |s.mem| == |s.rc|
    ensures Leads(s, Release(f), Give(s, f))
  {
  }

  /** The run `ops` leads from `s` to `t`. */
  ghost predicate RunLeads(s: State, ops: seq<Op>, t: State) {
    Runs(s, ops) && After(s, ops) == t
  }

  lemma OneStep(s: State, op: Op, t: State)
    requires Leads(s, op, t)
    ensures RunLeads(s, [op], t)
  {
    hide Apply, Enabled;
    assert [op][1..] == [];
    assert Runs(t, []) && After(t, []) == t;
  }

  lemma {:induction false} Joined(s: State, a: seq<Op>, t: State, b: seq<Op>, u: State)
    requires RunLeads(s, a, t) && RunLeads(t, b, u)
    ensures RunLeads(s, a + b, u)
    decreases |a|
  {
    hide Apply, Enabled;
    if a == [] {
      assert a + b == b;
    } else {
      Joined(Apply(s, a[0]), a[1..], t, b, u);
      assert (a + b)[0] == a[0] && (a + b)[1..] == a[1..] + b;
    }
  }

  lemma Led(s: State, ops: seq<Op>, t: State)
    requires RunLeads(s, ops, t)
    ensures Runs(s, ops) && After(s, ops) == t
  {
  }

  // ---------- madvise(DONTNEED) ----------

  /** A page its space may write: right now, after a copy on write, or after swapping in. */
  predicate PrivateWritable(e: Entry) {
    match e
    case Lazy(rw, _) => rw
    case Present(_, rw, cow, shared, _, _) => !shared && (rw || cow)
    case Swapped(_, rw, _) => rw
  }

  /** Discarding shows zeros exactly where the entry is writable in the hardware, or showed zeros before. */
  lemma DiscardZeroes(s: State, k: Key)
    requires Inv(s) && k in s.pt
    ensures k in Apply(s, Discard(k)).pt
    ensures Views(Apply(s, Discard(k)))[k] == Data(ZeroPage())
            <==> (IsPresent(s, k) && s.pt[k].rw && !s.pt[k].shared) || Views(s)[k] == Data(ZeroPage())
  {
    DiscardGood(s, k);
  }
}

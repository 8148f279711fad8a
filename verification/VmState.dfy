/**
  The flat view of all address spaces: which page of which space has which entry, and who
  holds a reference on each page frame and each swap slot.

  Code that changes a page table entry passes references around: a frame it allocated, the
  frame of an entry it takes out, a slot it is about to name. Such a reference is in flight
  from one small step to the next. Every small step below keeps the invariant, so every
  operation built from them does.
  */
module VmState {
  import opened FramePool

  type Page = seq<int>

  function ZeroPage(): Page { seq(4096, _ => 0) }
  const BAD_SLOT: nat := 255

  /** First page and end of the user half, in pages. */
  const BASE: nat := 16
  const TOP: nat := 0x8_0000_0000

  /** Page `va` of the address space with root `pd`. */
  datatype Key = Key(pd: nat, va: nat)

  /** A page table entry in use. */
  datatype Entry =
    | Lazy(rw: bool, us: bool)
    | Present(fr: nat, rw: bool, cow: bool, shared: bool, us: bool, acc: bool)
    | Swapped(slot: nat, rw: bool, us: bool)

  /** A page picked for swap-out: the entry it was found in, its frame, and whether the frame is on disk. */
  datatype Pick = Pick(key: Key, fr: nat, written: bool)

  datatype State = State(
    rc: seq<nat>,            // reference byte of every frame
    free: int,               // the pool's count of free frames
    mem: seq<Page>,          // contents of every frame
    pt: map<Key, Entry>,     // all page tables; a key that is absent is not mapped
    tabs: map<nat, nat>,     // frames used as page tables, with their space
    held: multiset<nat>,     // references of the page cache, shared segments and rings
    flight: multiset<nat>,   // references in flight and on the deferred lists
    sc: map<nat, nat>,       // reference byte of every swap slot
    disk: map<nat, Page>,    // contents of every swap slot
    batch: map<nat, Pick>,   // swap-out in progress, by slot
    sflight: multiset<nat>   // slot references in flight
  )

  // ---------- who refers to what ----------

  function KeysOn(pt: map<Key, Entry>, f: nat): set<Key> {
    set k | k in pt && pt[k].Present? && pt[k].fr == f
  }

  function SlotKeys(pt: map<Key, Entry>, sl: nat): set<Key> {
    set k | k in pt && pt[k].Swapped? && pt[k].slot == sl
  }

  function PicksOn(batch: map<nat, Pick>, f: nat): set<nat> {
    set sl | sl in batch && batch[sl].fr == f
  }

  /** All references on frame `f`. */
  function Count(s: State, f: nat): nat {
    |KeysOn(s.pt, f)| + |PicksOn(s.batch, f)| + s.held[f] + s.flight[f] + (if f in s.tabs then 1 else 0)
  }

  /** All references on swap slot `sl`. */
  function SlotCount(s: State, sl: nat): nat {
    |SlotKeys(s.pt, sl)| + s.sflight[sl] + (if sl in s.batch then 1 else 0)
  }

  predicate SharedOn(pt: map<Key, Entry>, k: Key, f: nat) {
    k in pt && pt[k].Present? && pt[k].fr == f && pt[k].shared
  }

  /** Somebody besides private pages may write frame `f`: the kernel, or a shared mapping. */
  ghost predicate Common(s: State, f: nat) {
    s.held[f] > 0 || exists k :: SharedOn(s.pt, k, f)
  }

  // ---------- the invariant ----------

  ghost predicate Shape(s: State) {
    && Bytes(s.rc) && |s.mem| == |s.rc|
    && (|s.rc| > 0 ==> s.rc[0] == NOT_OURS)
    && s.free == Zeros(s.rc)
    && s.sc.Keys == s.disk.Keys
    && forall sl | sl in s.sc :: s.sc[sl] <= BAD_SLOT
  }

  /** The reference byte of frame `f` is exact, or stuck. */
  ghost predicate FrameOk(s: State, f: nat) {
    Ours(s.rc, f) ==> s.rc[f] == STICKY || s.rc[f] == Count(s, f)
  }

  ghost predicate GoodSlot(s: State, sl: nat) {
    sl in s.sc && s.sc[sl] != BAD_SLOT
  }

  ghost predicate SlotOk(s: State, sl: nat) {
    GoodSlot(s, sl) ==> s.sc[sl] == STICKY || s.sc[sl] == SlotCount(s, sl)
  }

  /** A private page that can be written has its frame for itself. */
  ghost predicate EntryOk(s: State, e: Entry) {
    match e
    case Lazy(_, _) => true
    case Present(f, rw, cow, shared, _, _) =>
      && !(rw && cow) && !(cow && shared)
      && (!shared ==> Ours(s.rc, f))
      && (rw && !shared ==> Count(s, f) == 1)
      && f !in s.tabs
    case Swapped(sl, _, _) => GoodSlot(s, sl) && sl !in s.batch
  }

  ghost predicate KeyOk(s: State, k: Key) {
    k in s.pt ==> EntryOk(s, s.pt[k])
  }

  /** Entry `k` could be used to write frame `f`, or to share it. */
  predicate Exposes(pt: map<Key, Entry>, k: Key, f: nat) {
    k in pt && pt[k].Present? && pt[k].fr == f && (pt[k].rw || pt[k].shared)
  }

  /** The frame of a picked page is written by nobody, and once written out the slot has its bytes. */
  ghost predicate PickOk(s: State, sl: nat) {
    sl in s.batch ==>
      var b := s.batch[sl];
      && GoodSlot(s, sl) && sl in s.disk
      && Ours(s.rc, b.fr) && b.fr < |s.mem| && s.held[b.fr] == 0 && b.fr !in s.tabs
      && (forall k :: !Exposes(s.pt, k, b.fr))
      && (b.written ==> s.disk[sl] == s.mem[b.fr])
  }

  ghost predicate OwnerOk(s: State, f: nat) {
    && (f in s.tabs ==> Ours(s.rc, f) && s.held[f] == 0)
    && (s.held[f] > 0 ==> f < |s.rc|)
  }

  ghost predicate Inv(s: State) {
    && Shape(s)
    && (forall f :: FrameOk(s, f))
    && (forall sl :: SlotOk(s, sl))
    && (forall k :: KeyOk(s, k))
    && (forall sl :: PickOk(s, sl))
    && (forall f :: OwnerOk(s, f))
    && (forall sl | s.sflight[sl] > 0 :: GoodSlot(s, sl))
  }

  // ---------- small steps ----------

  /** pmm_alloc: a free frame, filled with `p`, its reference in flight. */
  function Take(s: State, f: nat, p: Page): State
    requires f < |s.rc| && |s.mem| == |s.rc|
  {
    s.(rc := s.rc[f := 1], free := s.free - 1, mem := s.mem[f := p], flight := s.flight + multiset{f})
  }

  /** pmm_ref */
  function Again(s: State, f: nat): State {
    s.(rc := Ref(s.rc, f), flight := s.flight + multiset{f})
  }

  /** pmm_unref */
  function Give(s: State, f: nat): State {
    s.(rc := Unref(s.rc, f), free := s.free + Freed(s.rc, f), flight := s.flight - multiset{f})
  }

  function TakeSlot(s: State, sl: nat): State {
    s.(sc := s.sc[sl := 1], sflight := s.sflight + multiset{sl})
  }

  /** swap_dup */
  function SlotUp(sc: map<nat, nat>, sl: nat): map<nat, nat> {
    if sl in sc && 0 < sc[sl] < STICKY then sc[sl := sc[sl] + 1] else sc
  }

  /** swap_put */
  function SlotDown(sc: map<nat, nat>, sl: nat): map<nat, nat> {
    if sl in sc && 0 < sc[sl] < STICKY then sc[sl := sc[sl] - 1] else sc
  }

  function AgainSlot(s: State, sl: nat): State {
    s.(sc := SlotUp(s.sc, sl), sflight := s.sflight + multiset{sl})
  }

  function GiveSlot(s: State, sl: nat): State {
    s.(sc := SlotDown(s.sc, sl), sflight := s.sflight - multiset{sl})
  }

  /** The frame reference an entry holds. */
  function FrameOf(e: Entry): multiset<nat> {
    if e.Present? then multiset{e.fr} else multiset{}
  }

  /** The slot reference an entry holds. */
  function SlotOf(e: Entry): multiset<nat> {
    if e.Swapped? then multiset{e.slot} else multiset{}
  }

  /** Takes the entry out of the table; the reference it held is in flight now. */
  function Unbind(s: State, k: Key): State
    requires k in s.pt
  {
    s.(pt := s.pt - {k}, flight := s.flight + FrameOf(s.pt[k]), sflight := s.sflight + SlotOf(s.pt[k]))
  }

  /** Writes an entry into an empty place; it takes over a reference in flight. */
  function Bind(s: State, k: Key, e: Entry): State {
    s.(pt := s.pt[k := e], flight := s.flight - FrameOf(e), sflight := s.sflight - SlotOf(e))
  }

  /** Same frame or slot, other flags. */
  function Reflag(s: State, k: Key, e: Entry): State {
    s.(pt := s.pt[k := e])
  }

  function StartPick(s: State, sl: nat, k: Key, f: nat): State {
    s.(batch := s.batch[sl := Pick(k, f, false)],
       flight := s.flight - multiset{f}, sflight := s.sflight - multiset{sl})
  }

  function EndPick(s: State, sl: nat): State
    requires sl in s.batch
  {
    s.(batch := s.batch - {sl},
       flight := s.flight + multiset{s.batch[sl].fr}, sflight := s.sflight + multiset{sl})
  }

  function Keep(s: State, f: nat): State {
    s.(held := s.held + multiset{f}, flight := s.flight - multiset{f})
  }

  function Unkeep(s: State, f: nat): State {
    s.(held := s.held - multiset{f}, flight := s.flight + multiset{f})
  }

  function ToTable(s: State, f: nat, pd: nat): State {
    s.(tabs := s.tabs[f := pd], flight := s.flight - multiset{f})
  }

  function FromTable(s: State, f: nat): State {
    s.(tabs := s.tabs - {f}, flight := s.flight + multiset{f})
  }

  function SetMem(s: State, f: nat, p: Page): State
    requires f < |s.mem|
  {
    s.(mem := s.mem[f := p])
  }

  function SetDisk(s: State, sl: nat, p: Page, written: bool): State
    requires sl in s.batch
  {
    s.(disk := s.disk[sl := p], batch := s.batch[sl := s.batch[sl].(written := written)])
  }

  // ---------- counting ----------

  lemma KeysAdded(pt: map<Key, Entry>, k: Key, e: Entry, f: nat)
    requires k !in pt
    ensures |KeysOn(pt[k := e], f)| == |KeysOn(pt, f)| + FrameOf(e)[f]
  {
    assert KeysOn(pt[k := e], f) == KeysOn(pt, f) + (if e.Present? && e.fr == f then {k} else {});
  }

  lemma SlotKeysAdded(pt: map<Key, Entry>, k: Key, e: Entry, sl: nat)
    requires k !in pt
    ensures |SlotKeys(pt[k := e], sl)| == |SlotKeys(pt, sl)| + SlotOf(e)[sl]
  {
    assert SlotKeys(pt[k := e], sl) == SlotKeys(pt, sl) + (if e.Swapped? && e.slot == sl then {k} else {});
  }

  /** Two entries that refer to the same frame or slot, or both to none. */
  predicate SameTarget(e: Entry, e': Entry) {
    match e
    case Lazy(_, _) => e'.Lazy?
    case Present(f, _, _, _, _, _) => e'.Present? && e'.fr == f
    case Swapped(sl, _, _) => e'.Swapped? && e'.slot == sl
  }

  lemma KeysReflagged(pt: map<Key, Entry>, k: Key, e: Entry)
    requires k in pt && SameTarget(pt[k], e)
    ensures forall f :: KeysOn(pt[k := e], f) == KeysOn(pt, f)
    ensures forall sl :: SlotKeys(pt[k := e], sl) == SlotKeys(pt, sl)
  {
  }

  lemma PicksAdded(batch: map<nat, Pick>, sl: nat, b: Pick)
    requires sl !in batch
    ensures forall f :: |PicksOn(batch[sl := b], f)| == |PicksOn(batch, f)| + (if b.fr == f then 1 else 0)
  {
    forall f
      ensures |PicksOn(batch[sl := b], f)| == |PicksOn(batch, f)| + (if b.fr == f then 1 else 0)
    {
      assert PicksOn(batch[sl := b], f) == PicksOn(batch, f) + (if b.fr == f then {sl} else {});
    }
  }

  lemma PicksRemoved(batch: map<nat, Pick>, sl: nat)
    requires sl in batch
    ensures forall f :: |PicksOn(batch, f)| == |PicksOn(batch - {sl}, f)| + (if batch[sl].fr == f then 1 else 0)
  {
    assert (batch - {sl})[sl := batch[sl]] == batch;
    PicksAdded(batch - {sl}, sl, batch[sl]);
  }

  lemma MappedIsCounted(s: State, k: Key)
    requires k in s.pt && s.pt[k].Present?
    ensures Count(s, s.pt[k].fr) > 0
  {
    assert k in KeysOn(s.pt, s.pt[k].fr);
  }

  lemma PickedIsCounted(s: State, sl: nat)
    requires sl in s.batch
    ensures Count(s, s.batch[sl].fr) > 0
  {
    assert sl in PicksOn(s.batch, s.batch[sl].fr);
  }

  /** An entry on a frame with one reference is the only reference. */
  lemma SoleKey(s: State, k: Key)
    requires k in s.pt && s.pt[k].Present? && Count(s, s.pt[k].fr) == 1
    ensures KeysOn(s.pt, s.pt[k].fr) == {k} && PicksOn(s.batch, s.pt[k].fr) == {}
    ensures s.held[s.pt[k].fr] == 0 && s.flight[s.pt[k].fr] == 0 && s.pt[k].fr !in s.tabs
  {
    var ks := KeysOn(s.pt, s.pt[k].fr);
    assert k in ks;
    assert |ks - {k}| == |ks| - 1;
  }

  /** A private page whose frame has one reference: nobody in common, no swap-out. */
  lemma SoleFrame(s: State, k: Key)
    requires k in s.pt && s.pt[k].Present? && !s.pt[k].shared && Count(s, s.pt[k].fr) == 1
    ensures !Common(s, s.pt[k].fr)
    ensures forall sl | sl in s.batch :: s.batch[sl].fr != s.pt[k].fr
  {
    var f := s.pt[k].fr;
    SoleKey(s, k);
    forall sl | sl in s.batch
      ensures s.batch[sl].fr != f
    {
      assert sl !in PicksOn(s.batch, f);
    }
    forall k'
      ensures !SharedOn(s.pt, k', f)
    {
      assert k' in KeysOn(s.pt, f) <==> k' in s.pt && s.pt[k'].Present? && s.pt[k'].fr == f;
    }
  }

  // ---------- every small step keeps the invariant ----------

  /** Steps on the reference byte of one frame and on its references in flight. */
  lemma FrameStepInv(s: State, s': State, f: nat)
    requires Inv(s) && Shape(s') && |s'.rc| == |s.rc|
    requires s' == s.(rc := s'.rc, free := s'.free, mem := s'.mem, flight := s.flight[f := s'.flight[f]])
    requires forall g | 0 <= g < |s.rc| && g != f :: s'.rc[g] == s.rc[g] && s'.mem[g] == s.mem[g]
    requires FrameOk(s', f) && (Ours(s'.rc, f) <==> Ours(s.rc, f))
    requires s'.mem == s.mem || PicksOn(s.batch, f) == {}
    requires Count(s', f) == 1 || forall k | Exposes(s.pt, k, f) :: s.pt[k].shared
    ensures Inv(s')
  {
    forall g
      ensures FrameOk(s', g) && OwnerOk(s', g)
    {
      assert FrameOk(s, g) && OwnerOk(s, g);
    }
    forall sl
      ensures SlotOk(s', sl)
    {
      assert SlotOk(s, sl);
    }
    forall k
      ensures KeyOk(s', k)
    {
      assert KeyOk(s, k);
      assert Exposes(s.pt, k, f) <==>
        k in s.pt && s.pt[k].Present? && s.pt[k].fr == f && (s.pt[k].rw || s.pt[k].shared);
    }
    forall sl
      ensures PickOk(s', sl)
    {
      assert PickOk(s, sl);
      assert sl in PicksOn(s.batch, f) <==> sl in s.batch && s.batch[sl].fr == f;
    }
  }

  lemma TakeInv(s: State, f: nat, p: Page)
    requires Inv(s) && f < |s.rc| && s.rc[f] == 0
    ensures Inv(Take(s, f, p))
    ensures KeysOn(s.pt, f) == {} && PicksOn(s.batch, f) == {} && Count(s, f) == 0
  {
    ZerosUpdate(s.rc, f, 1);
    assert FrameOk(s, f);
    FrameStepInv(s, Take(s, f, p), f);
  }

  lemma AgainInv(s: State, f: nat)
    requires Inv(s) && (Ours(s.rc, f) ==> Count(s, f) > 0)
    requires forall k | Exposes(s.pt, k, f) :: s.pt[k].shared
    ensures Inv(Again(s, f))
  {
    assert FrameOk(s, f);
    RefZeros(s.rc, f);
    FrameStepInv(s, Again(s, f), f);
  }

  lemma GiveInv(s: State, f: nat)
    requires Inv(s) && s.flight[f] > 0
    ensures Inv(Give(s, f))
  {
    assert FrameOk(s, f);
    UnrefZeros(s.rc, f);
    forall k | Exposes(s.pt, k, f)
      ensures s.pt[k].shared
    {
      assert KeyOk(s, k);
      if !s.pt[k].shared { SoleKey(s, k); }
    }
    FrameStepInv(s, Give(s, f), f);
  }

  /** Steps that only touch slot references. */
  lemma SlotStepInv(s: State, s': State, sl: nat)
    requires Inv(s) && GoodSlot(s, sl) && sl in s'.sc && s'.sc[sl] < BAD_SLOT
    requires s' == s.(sc := s.sc[sl := s'.sc[sl]], sflight := s.sflight[sl := s'.sflight[sl]])
    requires SlotOk(s', sl)
    ensures Inv(s')
  {
    assert s'.sc.Keys == s.sc.Keys;
    forall f
      ensures FrameOk(s', f) && OwnerOk(s', f)
    {
      assert FrameOk(s, f) && OwnerOk(s, f);
    }
    forall x
      ensures SlotOk(s', x) && PickOk(s', x)
    {
      assert SlotOk(s, x) && PickOk(s, x);
    }
    forall k
      ensures KeyOk(s', k)
    {
      assert KeyOk(s, k);
    }
  }

  lemma TakeSlotInv(s: State, sl: nat)
    requires Inv(s) && sl in s.sc && s.sc[sl] == 0
    ensures Inv(TakeSlot(s, sl))
    ensures SlotKeys(s.pt, sl) == {} && sl !in s.batch && s.sflight[sl] == 0
  {
    assert SlotOk(s, sl);
    SlotStepInv(s, TakeSlot(s, sl), sl);
  }

  lemma AgainSlotInv(s: State, sl: nat)
    requires Inv(s) && GoodSlot(s, sl) && SlotCount(s, sl) > 0
    ensures Inv(AgainSlot(s, sl))
  {
    assert SlotOk(s, sl);
    var s' := AgainSlot(s, sl);
    assert s'.sc == s.sc[sl := s'.sc[sl]];
    SlotStepInv(s, s', sl);
  }

  lemma GiveSlotInv(s: State, sl: nat)
    requires Inv(s) && s.sflight[sl] > 0
    ensures Inv(GiveSlot(s, sl))
  {
    assert SlotOk(s, sl) && GoodSlot(s, sl);
    var s' := GiveSlot(s, sl);
    assert s'.sc == s.sc[sl := s'.sc[sl]];
    SlotStepInv(s, s', sl);
  }

  /** Steps that hand references around: every count stays. */
  lemma MovedInv(s: State, s': State)
    requires Inv(s)
    requires s'.rc == s.rc && s'.free == s.free && s'.mem == s.mem && s'.sc == s.sc && s'.disk == s.disk
    requires forall f :: Count(s', f) == Count(s, f)
    requires forall sl :: SlotCount(s', sl) == SlotCount(s, sl)
    requires forall k :: KeyOk(s', k)
    requires forall sl :: PickOk(s', sl)
    requires forall f :: OwnerOk(s', f)
    requires forall sl | s'.sflight[sl] > 0 :: GoodSlot(s', sl)
    ensures Inv(s')
  {
    forall f
      ensures FrameOk(s', f)
    {
      assert FrameOk(s, f);
    }
    forall x
      ensures SlotOk(s', x)
    {
      assert SlotOk(s, x);
    }
  }

  lemma UnbindCounts(s: State, k: Key)
    requires k in s.pt
    ensures forall f :: Count(Unbind(s, k), f) == Count(s, f)
    ensures forall sl :: SlotCount(Unbind(s, k), sl) == SlotCount(s, sl)
  {
    var e, pt := s.pt[k], s.pt - {k};
    assert pt[k := e] == s.pt;
    forall f
      ensures Count(Unbind(s, k), f) == Count(s, f)
    {
      KeysAdded(pt, k, e, f);
    }
    forall sl
      ensures SlotCount(Unbind(s, k), sl) == SlotCount(s, sl)
    {
      SlotKeysAdded(pt, k, e, sl);
    }
  }

  lemma UnbindInv(s: State, k: Key)
    requires Inv(s) && k in s.pt
    ensures Inv(Unbind(s, k))
  {
    var s' := Unbind(s, k);
    UnbindCounts(s, k);
    assert KeyOk(s, k);
    forall j
      ensures KeyOk(s', j)
    {
      assert KeyOk(s, j);
    }
    forall sl
      ensures PickOk(s', sl)
    {
      assert PickOk(s, sl);
      assert forall j, f :: Exposes(s'.pt, j, f) ==> Exposes(s.pt, j, f);
    }
    forall f
      ensures OwnerOk(s', f)
    {
      assert OwnerOk(s, f);
    }
    MovedInv(s, s');
  }

  /** What an entry may be bound to. */
  ghost predicate MayBind(s: State, e: Entry) {
    match e
    case Lazy(_, _) => true
    case Present(f, rw, cow, shared, _, _) =>
      && s.flight[f] > 0
      && !(rw && cow) && !(cow && shared)
      && (!shared ==> Ours(s.rc, f))
      && (rw && !shared ==> Count(s, f) == 1)
      && f !in s.tabs
      && ((rw || shared) ==> forall sl | sl in s.batch :: s.batch[sl].fr != f)
    case Swapped(sl, _, _) => s.sflight[sl] > 0 && sl !in s.batch
  }

  lemma BindCounts(s: State, k: Key, e: Entry)
    requires k !in s.pt && FrameOf(e) <= s.flight && SlotOf(e) <= s.sflight
    ensures forall f :: Count(Bind(s, k, e), f) == Count(s, f)
    ensures forall sl :: SlotCount(Bind(s, k, e), sl) == SlotCount(s, sl)
  {
    forall f
      ensures Count(Bind(s, k, e), f) == Count(s, f)
    {
      KeysAdded(s.pt, k, e, f);
    }
    forall sl
      ensures SlotCount(Bind(s, k, e), sl) == SlotCount(s, sl)
    {
      SlotKeysAdded(s.pt, k, e, sl);
    }
  }

  lemma BindInv(s: State, k: Key, e: Entry)
    requires Inv(s) && k !in s.pt && MayBind(s, e)
    ensures Inv(Bind(s, k, e))
  {
    var s' := Bind(s, k, e);
    BindCounts(s, k, e);
    hide FrameOk, SlotOk;
    forall j
      ensures KeyOk(s', j)
    {
      assert KeyOk(s, j);
    }
    forall sl
      ensures PickOk(s', sl)
    {
      assert PickOk(s, sl);
      assert forall j, f | j != k :: Exposes(s'.pt, j, f) ==> Exposes(s.pt, j, f);
    }
    forall f
      ensures OwnerOk(s', f)
    {
      assert OwnerOk(s, f);
    }
    MovedInv(s, s');
  }

  /** Flags that may replace those of an entry in place. */
  ghost predicate MayReflag(s: State, e: Entry, e': Entry) {
    && SameTarget(e, e')
    && (e.Present? ==>
          && e'.shared == e.shared && !(e'.rw && e'.cow) && !(e'.cow && e'.shared)
          && (e'.rw && !e.rw && !e'.shared ==> Count(s, e.fr) == 1))
  }

  lemma ReflagInv(s: State, k: Key, e: Entry)
    requires Inv(s) && k in s.pt && MayReflag(s, s.pt[k], e)
    ensures Inv(Reflag(s, k, e))
    ensures forall f :: Count(Reflag(s, k, e), f) == Count(s, f)
  {
    var s' := Reflag(s, k, e);
    KeysReflagged(s.pt, k, e);
    assert KeyOk(s, k);
    forall j
      ensures KeyOk(s', j)
    {
      assert KeyOk(s, j);
    }
    if e.Present? && !e.shared && e.rw { SoleFrame(s, k); }
    forall sl
      ensures PickOk(s', sl)
    {
      assert PickOk(s, sl);
      assert forall j, f | j != k :: Exposes(s'.pt, j, f) ==> Exposes(s.pt, j, f);
      if sl in s.batch { assert !Exposes(s.pt, k, s.batch[sl].fr); }
    }
    forall f
      ensures OwnerOk(s', f)
    {
      assert OwnerOk(s, f);
    }
    MovedInv(s, s');
  }

  lemma StartPickInv(s: State, sl: nat, k: Key, f: nat)
    requires Inv(s) && s.flight[f] > 0 && s.sflight[sl] > 0 && sl !in s.batch && SlotKeys(s.pt, sl) == {}
    requires Ours(s.rc, f) && s.held[f] == 0 && f !in s.tabs && forall j :: !Exposes(s.pt, j, f)
    ensures Inv(StartPick(s, sl, k, f))
  {
    var s' := StartPick(s, sl, k, f);
    PicksAdded(s.batch, sl, Pick(k, f, false));
    forall j
      ensures KeyOk(s', j)
    {
      assert KeyOk(s, j);
      assert j !in SlotKeys(s.pt, sl);
    }
    forall x
      ensures PickOk(s', x)
    {
      assert PickOk(s, x);
    }
    forall f
      ensures OwnerOk(s', f)
    {
      assert OwnerOk(s, f);
    }
    MovedInv(s, s');
  }

  lemma EndPickInv(s: State, sl: nat)
    requires Inv(s) && sl in s.batch
    ensures Inv(EndPick(s, sl))
    ensures forall f :: Count(EndPick(s, sl), f) == Count(s, f)
  {
    var s' := EndPick(s, sl);
    PicksRemoved(s.batch, sl);
    assert PickOk(s, sl);
    forall j
      ensures KeyOk(s', j)
    {
      assert KeyOk(s, j);
    }
    forall x
      ensures PickOk(s', x)
    {
      assert PickOk(s, x);
    }
    forall f
      ensures OwnerOk(s', f)
    {
      assert OwnerOk(s, f);
    }
    MovedInv(s, s');
  }

  /** A keeper of its own, or the use as a page table, for a reference in flight; and back. */
  lemma KeeperInv(s: State, s': State, f: nat)
    requires Inv(s) && s' == s.(held := s'.held, tabs := s'.tabs, flight := s'.flight)
    requires forall g :: Count(s', g) == Count(s, g)
    requires forall g | g != f :: s'.held[g] == s.held[g] && (g in s'.tabs <==> g in s.tabs)
    requires OwnerOk(s', f)
    requires (f in s'.tabs ==> f in s.tabs) || KeysOn(s.pt, f) == {}
    requires (s'.held[f] <= s.held[f] && (f in s'.tabs ==> f in s.tabs)) || s.held[f] > 0 || PicksOn(s.batch, f) == {}
    requires s.held[f] > 0 ==> f !in s'.tabs
    ensures Inv(s')
  {
    forall j
      ensures KeyOk(s', j)
    {
      assert KeyOk(s, j);
      assert j in KeysOn(s.pt, f) <==> j in s.pt && s.pt[j].Present? && s.pt[j].fr == f;
    }
    forall x
      ensures PickOk(s', x)
    {
      assert PickOk(s, x);
      assert x in PicksOn(s.batch, f) <==> x in s.batch && s.batch[x].fr == f;
    }
    forall g
      ensures OwnerOk(s', g)
    {
      assert OwnerOk(s, g);
    }
    MovedInv(s, s');
  }

  lemma KeepInv(s: State, f: nat)
    requires Inv(s) && s.flight[f] > 0 && f < |s.rc| && f !in s.tabs
    requires s.held[f] > 0 || (KeysOn(s.pt, f) == {} && PicksOn(s.batch, f) == {})
    ensures Inv(Keep(s, f))
  {
    KeeperInv(s, Keep(s, f), f);
  }

  lemma UnkeepInv(s: State, f: nat)
    requires Inv(s) && s.held[f] > 0
    ensures Inv(Unkeep(s, f))
  {
    assert OwnerOk(s, f);
    KeeperInv(s, Unkeep(s, f), f);
  }

  lemma ToTableInv(s: State, f: nat, pd: nat)
    requires Inv(s) && Ours(s.rc, f) && s.flight[f] > 0 && Count(s, f) == 1
    ensures Inv(ToTable(s, f, pd))
  {
    KeeperInv(s, ToTable(s, f, pd), f);
  }

  lemma FromTableInv(s: State, f: nat)
    requires Inv(s) && f in s.tabs
    ensures Inv(FromTable(s, f))
  {
    assert OwnerOk(s, f);
    KeeperInv(s, FromTable(s, f), f);
  }

  lemma SetMemInv(s: State, f: nat, p: Page)
    requires Inv(s) && f < |s.mem|
    requires forall sl | sl in s.batch :: s.batch[sl].fr != f
    ensures Inv(SetMem(s, f, p))
  {
    var s' := SetMem(s, f, p);
    forall g
      ensures FrameOk(s', g) && OwnerOk(s', g)
    {
      assert FrameOk(s, g) && OwnerOk(s, g);
    }
    forall x
      ensures SlotOk(s', x) && PickOk(s', x)
    {
      assert SlotOk(s, x) && PickOk(s, x);
    }
    forall k
      ensures KeyOk(s', k)
    {
      assert KeyOk(s, k);
    }
  }

  lemma SetDiskInv(s: State, sl: nat, p: Page, written: bool)
    requires Inv(s) && sl in s.batch && (written ==> s.batch[sl].fr < |s.mem| && p == s.mem[s.batch[sl].fr])
    ensures Inv(SetDisk(s, sl, p, written))
  {
    var s' := SetDisk(s, sl, p, written);
    assert PickOk(s, sl);
    assert s'.disk.Keys == s.disk.Keys && s'.batch.Keys == s.batch.Keys;
    forall g
      ensures FrameOk(s', g) && OwnerOk(s', g)
    {
      assert FrameOk(s, g) && OwnerOk(s, g);
      assert PicksOn(s'.batch, g) == PicksOn(s.batch, g);
    }
    forall x
      ensures SlotOk(s', x) && PickOk(s', x)
    {
      assert SlotOk(s, x) && PickOk(s, x);
    }
    forall k
      ensures KeyOk(s', k)
    {
      assert KeyOk(s, k);
      if k in s.pt && s.pt[k].Present? { assert PicksOn(s'.batch, s.pt[k].fr) == PicksOn(s.batch, s.pt[k].fr); }
    }
  }
}

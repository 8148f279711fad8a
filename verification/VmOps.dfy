/**
  The operations on address spaces, one page at a time, each one atomic under the lock of its
  space: faults, copy on write, fork, unmapping, protection, the page cache, swapping.

  Two things are proved of every operation: it keeps the invariant of VmState, and what it does
  to the contents that the spaces see is exactly what its label says. Copy on write, swapping,
  protection changes and all bookkeeping have the label Quiet.
  */
module VmOps {
  import opened FramePool
  import opened VmState

  datatype Op =
    | NewTable(f: nat, pd: nat)
    | FreeTable(f: nat)
    | FaultIn(k: Key, f: nat)
    | Cow(k: Key, f: nat)
    | Store(k: Key, p: Page)
    | ClonePage(k: Key, child: nat)
    | Unmap(k: Key)
    | UnmapLater(k: Key)
    | Release(f: nat)
    | ReleaseSlot(sl: nat)
    | Reserve(k: Key, rw: bool, us: bool)
    | Populate(k: Key, f: nat, w: bool)
    | Protect(k: Key, w: bool)
    | SetUser(k: Key, us: bool)
    | MapShared(k: Key, f: nat, rw: bool)
    | MapCache(k: Key, f: nat, w: bool, shared: bool)
    | Hold(f: nat, p: Page)
    | HoldMore(f: nat)
    | Unhold(f: nat)
    | Refill(f: nat, p: Page)
    | Touch(k: Key)
    | PickPage(k: Key, sl: nat)
    | WriteOut(sl: nat)
    | WriteFailed(sl: nat, junk: Page)
    | Commit(sl: nat)
    | SwapIn(k: Key, f: nat)
    | Discard(k: Key)

  predicate IsPresent(s: State, k: Key) {
    k in s.pt && s.pt[k].Present?
  }

  predicate FreeFrame(s: State, f: nat) {
    f < |s.rc| && s.rc[f] == 0
  }

  /** Only what an operation is handed: free frames, free slots, frames somebody keeps. */
  ghost predicate Enabled(s: State, op: Op) {
    match op
    case NewTable(f, _) => FreeFrame(s, f)
    case FreeTable(f) => f in s.tabs
    case FaultIn(_, f) => FreeFrame(s, f)
    case Cow(_, f) => FreeFrame(s, f)
    case Store(k, _) => IsPresent(s, k) && s.pt[k].rw && s.pt[k].fr < |s.mem|
    case ClonePage(k, child) => Key(child, k.va) !in s.pt
    case Unmap(_) => true
    case UnmapLater(_) => true
    case Release(f) => s.flight[f] > 0
    case ReleaseSlot(sl) => s.sflight[sl] > 0
    case Reserve(_, _, _) => true
    case Populate(_, f, _) => FreeFrame(s, f)
    case Protect(_, _) => true
    case SetUser(_, _) => true
    case MapShared(_, f, _) => Ours(s.rc, f) ==> s.held[f] > 0
    case MapCache(_, f, _, _) => Ours(s.rc, f) && s.held[f] > 0
    case Hold(f, _) => FreeFrame(s, f)
    case HoldMore(f) => s.held[f] > 0
    case Unhold(f) => s.held[f] > 0
    case Refill(f, _) => s.held[f] > 0
    case Touch(_) => true
    case PickPage(_, sl) => sl in s.sc && s.sc[sl] == 0
    case WriteOut(sl) => sl in s.batch
    case WriteFailed(sl, _) => sl in s.batch
    case Commit(sl) => sl in s.batch && s.batch[sl].written
    case SwapIn(_, f) => FreeFrame(s, f)
    case Discard(_) => true
  }

  // ---------- what the code does ----------

  /** The same entry with other write bits. */
  function Bits(e: Entry, rw: bool, cow: bool): Entry {
    match e
    case Lazy(_, us) => Lazy(rw, us)
    case Present(f, _, _, shared, us, acc) => Present(f, rw, cow, shared, us, acc)
    case Swapped(sl, _, us) => Swapped(sl, rw, us)
  }

  function UserBit(e: Entry, us: bool): Entry {
    match e
    case Lazy(rw, _) => Lazy(rw, us)
    case Present(f, rw, cow, shared, _, acc) => Present(f, rw, cow, shared, us, acc)
    case Swapped(sl, rw, _) => Swapped(sl, rw, us)
  }

  /** The reference of an entry dropped: pmm_unref for a frame, swap_put for a slot. */
  function FrameDropped(rc: seq<nat>, e: Entry): seq<nat> {
    if e.Present? then Unref(rc, e.fr) else rc
  }

  function FreedBy(rc: seq<nat>, e: Entry): nat {
    if e.Present? then Freed(rc, e.fr) else 0
  }

  function SlotDropped(sc: map<nat, nat>, e: Entry): map<nat, nat> {
    if e.Swapped? then SlotDown(sc, e.slot) else sc
  }

  /** Takes an entry out and drops its reference. */
  function Clear(s: State, k: Key): State {
    if k !in s.pt then s else
    s.(pt := s.pt - {k}, rc := FrameDropped(s.rc, s.pt[k]), free := s.free + FreedBy(s.rc, s.pt[k]),
       sc := SlotDropped(s.sc, s.pt[k]))
  }

  /** make_writable: with further references on the frame, writing has to fault first. */
  function MakeWritable(s: State, k: Key): State
    requires IsPresent(s, k)
  {
    var e := s.pt[k];
    if !e.shared && Ours(s.rc, e.fr) && s.rc[e.fr] > 1
    then Reflag(s, k, Bits(e, false, true))
    else Reflag(s, k, Bits(e, true, false))
  }

  function CowFault(s: State, k: Key, nf: nat): State
    requires FreeFrame(s, nf) && |s.mem| == |s.rc|
  {
    if !IsPresent(s, k) || !s.pt[k].cow || s.pt[k].fr >= |s.rc| then s else
    var e := s.pt[k];
    if s.rc[e.fr] != 1 then
      Give(Bind(Unbind(Take(s, nf, s.mem[e.fr]), k), k, Present(nf, true, false, e.shared, e.us, e.acc)), e.fr)
    else
      Reflag(s, k, Bits(e, true, false))
  }

  /** The entry both sides have after a fork: private writable pages become copy on write. */
  function Forked(s: State, e: Entry): Entry {
    if e.Present? && (e.rw || e.cow) && Ours(s.rc, e.fr) && !e.shared then Bits(e, false, true) else e
  }

  /** clone_level on one entry; the child's entry is one more reference. */
  function Clone(s: State, k: Key, child: nat): State {
    if k !in s.pt then s else
    var e := Forked(s, s.pt[k]);
    s.(pt := s.pt[k := e][Key(child, k.va) := e],
       rc := if e.Present? then Ref(s.rc, e.fr) else s.rc,
       sc := if e.Swapped? then SlotUp(s.sc, e.slot) else s.sc)
  }

  /** The part of vmm_alloc_range for one page. */
  function PopulatePage(s: State, k: Key, f: nat, w: bool): State
    requires FreeFrame(s, f) && |s.mem| == |s.rc|
  {
    if IsPresent(s, k) then (if w then MakeWritable(s, k) else s)
    else if k in s.pt && s.pt[k].Swapped? then (if w then Reflag(s, k, Bits(s.pt[k], true, false)) else s)
    else Bind(Clear(Take(s, f, ZeroPage()), k), k, Present(f, w, false, false, true, false))
  }

  function ProtectPage(s: State, k: Key, w: bool): State {
    if k !in s.pt then s
    else if IsPresent(s, k) then
      (if w then MakeWritable(s, k) else Reflag(s, k, Bits(s.pt[k], false, false)))
    else Reflag(s, k, Bits(s.pt[k], w, false))
  }

  /** Clock scan on one page: second chance, or slot, reference and write protection. */
  function Scan(s: State, k: Key, sl: nat): State {
    if !IsPresent(s, k) then s else
    var e := s.pt[k];
    if !e.us || e.shared || !(e.rw || e.cow) || !Ours(s.rc, e.fr) || s.rc[e.fr] != 1 then s
    else if e.acc then Reflag(s, k, Present(e.fr, e.rw, e.cow, e.shared, e.us, false))
    else StartPick(Again(Reflag(TakeSlot(s, sl), k, Bits(e, false, true)), e.fr), sl, k, e.fr)
  }

  /**
    vmm_swap_commit on one picked page: the entry takes the slot if it still has the frame. The
    references that are left over are dropped after the lock.
    */
  function CommitPage(s: State, sl: nat): State
    requires sl in s.batch
  {
    if StillPicked(s, s.batch[sl]) then Replace(EndPick(s, sl), s.batch[sl].key, Swapped(sl, true, true))
    else EndPick(s, sl)
  }

  /** The entry that was picked has the frame and was not written since. */
  predicate StillPicked(s: State, b: Pick) {
    IsPresent(s, b.key) && s.pt[b.key].fr == b.fr && s.pt[b.key].cow
  }

  /** One entry is replaced by another; the old reference stays in flight. */
  function Replace(t: State, k: Key, e: Entry): State
    requires k in t.pt
  {
    Bind(Unbind(t, k), k, e)
  }

  function SwapInPage(s: State, k: Key, f: nat): State
    requires FreeFrame(s, f) && |s.mem| == |s.rc|
  {
    if k !in s.pt || !s.pt[k].Swapped? || s.pt[k].slot !in s.disk then s else
    Replace(Take(s, f, s.disk[s.pt[k].slot]), k, Present(f, s.pt[k].rw, false, false, s.pt[k].us, false))
  }

  /** madvise(DONTNEED) on one page. */
  function DiscardPage(s: State, k: Key): State {
    if IsPresent(s, k) && s.pt[k].rw && !s.pt[k].shared
    then Bind(Unbind(s, k), k, Lazy(true, s.pt[k].us))
    else s
  }

  function FaultInPage(s: State, k: Key, f: nat): State
    requires FreeFrame(s, f) && |s.mem| == |s.rc|
  {
    if k in s.pt && s.pt[k].Lazy?
    then Bind(Unbind(Take(s, f, ZeroPage()), k), k, Present(f, s.pt[k].rw, false, false, s.pt[k].us, false))
    else s
  }

  function UnmapPageLater(s: State, k: Key): State {
    if IsPresent(s, k) then Unbind(s, k) else Clear(s, k)
  }

  function ReservePage(s: State, k: Key, rw: bool, us: bool): State {
    Bind(Clear(s, k), k, Lazy(rw, us))
  }

  function SetUserPage(s: State, k: Key, us: bool): State {
    if k in s.pt then Reflag(s, k, UserBit(s.pt[k], us)) else s
  }

  function TouchPage(s: State, k: Key): State {
    if IsPresent(s, k)
    then Reflag(s, k, Present(s.pt[k].fr, s.pt[k].rw, s.pt[k].cow, s.pt[k].shared, s.pt[k].us, true))
    else s
  }

  /** vmm_map_frame and vmm_map_cache: the new reference first, then the old entry goes. */
  function MapPage(s: State, k: Key, e: Entry): State
    requires e.Present?
  {
    Bind(Clear(Again(s, e.fr), k), k, e)
  }

  function SharedEntry(f: nat, rw: bool): Entry {
    Present(f, rw, false, true, true, false)
  }

  function CacheEntry(f: nat, w: bool, shared: bool): Entry {
    Present(f, shared && w, !shared && w, shared, true, false)
  }

  function TableFrame(s: State, f: nat, pd: nat): State
    requires FreeFrame(s, f) && |s.mem| == |s.rc|
  {
    ToTable(Take(s, f, ZeroPage()), f, pd)
  }

  function TableFreed(s: State, f: nat): State {
    Give(FromTable(s, f), f)
  }

  function HoldFrame(s: State, f: nat, p: Page): State
    requires FreeFrame(s, f) && |s.mem| == |s.rc|
  {
    Keep(Take(s, f, p), f)
  }

  function HoldAgain(s: State, f: nat): State {
    Keep(Again(s, f), f)
  }

  function HoldDropped(s: State, f: nat): State {
    Give(Unkeep(s, f), f)
  }

  function RefillFrame(s: State, f: nat, p: Page): State {
    if f < |s.mem| then SetMem(s, f, p) else s
  }

  function WritePick(s: State, sl: nat): State
    requires sl in s.batch
  {
    if s.batch[sl].fr < |s.mem| then SetDisk(s, sl, s.mem[s.batch[sl].fr], true) else s
  }

  function FailPick(s: State, sl: nat, junk: Page): State
    requires sl in s.batch
  {
    EndPick(SetDisk(s, sl, junk, false), sl)
  }

  /** Operations on page table entries; the others work on frames, keepers, tables and the swap-out. */
  predicate OnPage(op: Op) {
    op.FaultIn? || op.Cow? || op.Store? || op.ClonePage? || op.Unmap? || op.UnmapLater? || op.Reserve? || op.Populate?
    || op.Protect? || op.SetUser? || op.MapShared? || op.MapCache? || op.Touch?
  }

  function ApplyOnPage(s: State, op: Op): State
    requires |s.mem| == |s.rc| && Enabled(s, op) && OnPage(op)
  {
    match op
    case FaultIn(k, f) => FaultInPage(s, k, f)
    case Cow(k, f) => CowFault(s, k, f)
    case Store(k, p) => SetMem(s, s.pt[k].fr, p)
    case ClonePage(k, child) => Clone(s, k, child)
    case Unmap(k) => Clear(s, k)
    case UnmapLater(k) => UnmapPageLater(s, k)
    case Reserve(k, rw, us) => ReservePage(s, k, rw, us)
    case Populate(k, f, w) => PopulatePage(s, k, f, w)
    case Protect(k, w) => ProtectPage(s, k, w)
    case SetUser(k, us) => SetUserPage(s, k, us)
    case MapShared(k, f, rw) => MapPage(s, k, SharedEntry(f, rw))
    case MapCache(k, f, w, shared) => MapPage(s, k, CacheEntry(f, w, shared))
    case Touch(k) => TouchPage(s, k)
  }

  function ApplyBehind(s: State, op: Op): State
    requires |s.mem| == |s.rc| && Enabled(s, op) && !OnPage(op)
  {
    match op
    case NewTable(f, pd) => TableFrame(s, f, pd)
    case FreeTable(f) => TableFreed(s, f)
    case Release(f) => Give(s, f)
    case ReleaseSlot(sl) => GiveSlot(s, sl)
    case Hold(f, p) => HoldFrame(s, f, p)
    case HoldMore(f) => HoldAgain(s, f)
    case Unhold(f) => HoldDropped(s, f)
    case Refill(f, p) => RefillFrame(s, f, p)
    case PickPage(k, sl) => Scan(s, k, sl)
    case WriteOut(sl) => WritePick(s, sl)
    case WriteFailed(sl, junk) => FailPick(s, sl, junk)
    case Commit(sl) => CommitPage(s, sl)
    case SwapIn(k, f) => SwapInPage(s, k, f)
    case Discard(k) => DiscardPage(s, k)
  }

  function Apply(s: State, op: Op): State
    requires |s.mem| == |s.rc| && Enabled(s, op)
  {
    if OnPage(op) then ApplyOnPage(s, op) else ApplyBehind(s, op)
  }

  // ---------- what the spaces see ----------

  datatype Content = Data(p: Page) | Device(f: nat)

  function LookFrame(s: State, f: nat): Content {
    if f < |s.mem| then Data(s.mem[f]) else Device(f)
  }

  function Look(s: State, e: Entry): Content {
    match e
    case Lazy(_, _) => Data(ZeroPage())
    case Present(f, _, _, _, _, _) => LookFrame(s, f)
    case Swapped(sl, _, _) => if sl in s.disk then Data(s.disk[sl]) else Data([])
  }

  /** The contents of every mapped page of every space. */
  function Views(s: State): map<Key, Content> {
    map k | k in s.pt :: Look(s, s.pt[k])
  }

  /** A page that belongs to its space alone: no cache, segment or shared mapping behind it. */
  ghost predicate Own(s: State, k: Key) {
    k in s.pt && (s.pt[k].Present? ==> !s.pt[k].shared && !Common(s, s.pt[k].fr))
  }

  datatype Label =
    | Quiet
    | Set(k: Key, c: Content)
    | Copy(k: Key, to: Key)
    | Gone(k: Key)
    | SetMany(ks: set<Key>, c: Content)

  /** The page model behind the labels: a page is set, copied or removed, and nothing else moves. */
  function Effect(v: map<Key, Content>, l: Label): map<Key, Content> {
    match l
    case Quiet => v
    case Set(k, c) => v[k := c]
    case Copy(k, to) => if k in v then v[to := v[k]] else v
    case Gone(k) => v - {k}
    case SetMany(ks, c) => SetAll(v, ks, c)
  }

  function SetAll(v: map<Key, Content>, ks: set<Key>, c: Content): map<Key, Content> {
    map k | k in v :: if k in ks then c else v[k]
  }

  function StoreLabel(s: State, k: Key, p: Page): Label
    requires IsPresent(s, k)
  {
    if s.pt[k].shared then SetMany(KeysOn(s.pt, s.pt[k].fr), Data(p)) else Set(k, Data(p))
  }

  function PopulateLabel(s: State, k: Key): Label {
    if k in s.pt then Quiet else Set(k, Data(ZeroPage()))
  }

  function DiscardLabel(s: State, k: Key): Label {
    if IsPresent(s, k) && s.pt[k].rw && !s.pt[k].shared then Set(k, Data(ZeroPage())) else Quiet
  }

  function LabelOf(s: State, op: Op): Label
    requires |s.mem| == |s.rc| && Enabled(s, op)
  {
    match op
    case Store(k, p) => StoreLabel(s, k, p)
    case ClonePage(k, child) => Copy(k, Key(child, k.va))
    case Unmap(k) => Gone(k)
    case UnmapLater(k) => Gone(k)
    case Reserve(k, _, _) => Set(k, Data(ZeroPage()))
    case Populate(k, _, _) => PopulateLabel(s, k)
    case MapShared(k, f, _) => Set(k, LookFrame(s, f))
    case MapCache(k, f, _, _) => Set(k, LookFrame(s, f))
    case Refill(f, p) => SetMany(KeysOn(s.pt, f), Data(p))
    case Discard(k) => DiscardLabel(s, k)
    case _ => Quiet
  }

  /** The pages a label may change. */
  function Touched(l: Label): set<Key> {
    match l
    case Quiet => {}
    case Set(k, _) => {k}
    case Copy(_, to) => {to}
    case Gone(k) => {k}
    case SetMany(ks, _) => ks
  }

  ghost function OwnSet(s: State): set<Key> {
    set k | k in s.pt && Own(s, k)
  }

  /** Pages outside `ex` that belong to one space still do. */
  ghost predicate KeepsOwn(s: State, s': State, ex: set<Key>) {
    OwnSet(s) - ex <= OwnSet(s')
  }

  lemma MapPut<V>(m: map<Key, V>, k: Key, v: V)
    ensures (m - {k})[k := v] == m[k := v]
  {
  }

  // ---------- contents and ownership over the small steps ----------

  lemma SameTables(s: State, s': State)
    requires s'.pt == s.pt && s'.mem == s.mem && s'.disk == s.disk && s'.held == s.held
    ensures Views(s') == Views(s) && KeepsOwn(s, s', {})
  {
    forall k | Own(s, k)
      ensures Own(s', k)
    {
    }
  }

  lemma TakeSees(s: State, f: nat, p: Page)
    requires f < |s.rc| && |s.mem| == |s.rc| && KeysOn(s.pt, f) == {}
    ensures Views(Take(s, f, p)) == Views(s) && KeepsOwn(s, Take(s, f, p), {})
    ensures LookFrame(Take(s, f, p), f) == Data(p)
  {
    var s' := Take(s, f, p);
    forall k | k in s.pt
      ensures Look(s', s.pt[k]) == Look(s, s.pt[k])
    {
      assert k !in KeysOn(s.pt, f);
    }
    forall k | Own(s, k)
      ensures Own(s', k)
    {
    }
  }

  predicate SameContents(s: State, s': State) {
    s'.mem == s.mem && s'.disk == s.disk && s'.held == s.held
  }

  /** Ownership survives a step that creates no sharing. */
  lemma NoNewSharing(s: State, s': State, j: Key)
    requires SameContents(s, s') && Own(s, j) && j in s'.pt && SameTarget(s.pt[j], s'.pt[j])
    requires s.pt[j].Present? ==> !s'.pt[j].shared
    requires s.pt[j].Present? ==> forall k | SharedOn(s'.pt, k, s.pt[j].fr) :: SharedOn(s.pt, k, s.pt[j].fr)
    ensures Own(s', j)
  {
  }

  lemma EntryGone(s: State, s': State, k: Key)
    requires k in s.pt && s'.pt == s.pt - {k} && SameContents(s, s')
    ensures Views(s') == Views(s) - {k} && KeepsOwn(s, s', {k})
  {
    assert Views(s') == Views(s) - {k};
    forall j | Own(s, j) && j != k
      ensures Own(s', j)
    {
      assert j in s'.pt;
      forall i, f | SharedOn(s'.pt, i, f)
        ensures SharedOn(s.pt, i, f)
      {
      }
      NoNewSharing(s, s', j);
    }
  }

  lemma EntryCame(s: State, s': State, k: Key, e: Entry)
    requires k !in s.pt && s'.pt == s.pt[k := e] && SameContents(s, s')
    requires e.Present? && e.shared ==> forall j | Own(s, j) && s.pt[j].Present? :: s.pt[j].fr != e.fr
    ensures Views(s') == Views(s)[k := Look(s, e)] && KeepsOwn(s, s', {})
  {
    assert Views(s') == Views(s)[k := Look(s, e)];
    forall j | Own(s, j)
      ensures Own(s', j)
    {
      assert j in s'.pt;
      forall i, f | SharedOn(s'.pt, i, f) && i != k
        ensures SharedOn(s.pt, i, f)
      {
      }
      NoNewSharing(s, s', j);
    }
  }

  lemma UnbindSees(s: State, k: Key)
    requires k in s.pt
    ensures Views(Unbind(s, k)) == Views(s) - {k} && KeepsOwn(s, Unbind(s, k), {k})
  {
    EntryGone(s, Unbind(s, k), k);
  }

  lemma BindSees(s: State, k: Key, e: Entry)
    requires k !in s.pt
    requires e.Present? && e.shared ==> forall j | Own(s, j) && s.pt[j].Present? :: s.pt[j].fr != e.fr
    ensures Views(Bind(s, k, e)) == Views(s)[k := Look(s, e)] && KeepsOwn(s, Bind(s, k, e), {})
  {
    EntryCame(s, Bind(s, k, e), k, e);
  }

  lemma ReflagSees(s: State, k: Key, e: Entry)
    requires k in s.pt && SameTarget(s.pt[k], e) && (e.Present? ==> e.shared == s.pt[k].shared)
    ensures Views(Reflag(s, k, e)) == Views(s) && KeepsOwn(s, Reflag(s, k, e), {})
  {
    var s' := Reflag(s, k, e);
    assert Views(s') == Views(s);
    forall j | Own(s, j)
      ensures Own(s', j)
    {
      assert j in s'.pt;
      forall i, f | SharedOn(s'.pt, i, f)
        ensures SharedOn(s.pt, i, f)
      {
      }
      NoNewSharing(s, s', j);
    }
  }

  lemma KeepSees(s: State, f: nat)
    requires s.held[f] > 0 || KeysOn(s.pt, f) == {}
    ensures Views(Keep(s, f)) == Views(s) && KeepsOwn(s, Keep(s, f), {})
  {
    var s' := Keep(s, f);
    forall j | Own(s, j)
      ensures Own(s', j)
    {
      assert j in KeysOn(s.pt, f) <==> s.pt[j].Present? && s.pt[j].fr == f;
    }
  }

  lemma UnkeepSees(s: State, f: nat)
    ensures Views(Unkeep(s, f)) == Views(s) && KeepsOwn(s, Unkeep(s, f), {})
  {
    var s' := Unkeep(s, f);
    forall j | Own(s, j)
      ensures Own(s', j)
    {
    }
  }

  lemma SetMemSees(s: State, f: nat, p: Page)
    requires f < |s.mem|
    ensures Views(SetMem(s, f, p)) == Effect(Views(s), SetMany(KeysOn(s.pt, f), Data(p)))
    ensures KeepsOwn(s, SetMem(s, f, p), {})
  {
    var s' := SetMem(s, f, p);
    forall k | k in s.pt
      ensures Look(s', s.pt[k]) == if k in KeysOn(s.pt, f) then Data(p) else Look(s, s.pt[k])
    {
    }
    forall j | Own(s, j)
      ensures Own(s', j)
    {
    }
  }

  lemma SetDiskSees(s: State, sl: nat, p: Page, written: bool)
    requires Inv(s) && sl in s.batch
    ensures Views(SetDisk(s, sl, p, written)) == Views(s) && KeepsOwn(s, SetDisk(s, sl, p, written), {})
  {
    var s' := SetDisk(s, sl, p, written);
    assert PickOk(s, sl);
    forall k | k in s.pt
      ensures Look(s', s.pt[k]) == Look(s, s.pt[k])
    {
      assert KeyOk(s, k);
    }
    forall j | Own(s, j)
      ensures Own(s', j)
    {
    }
  }

  /** Private pages never sit on a frame that somebody has in common. */
  lemma OwnApart(s: State, f: nat)
    requires Inv(s) && (Ours(s.rc, f) ==> Common(s, f))
    ensures forall j | Own(s, j) && s.pt[j].Present? :: s.pt[j].fr != f
  {
    forall j | Own(s, j) && s.pt[j].Present?
      ensures s.pt[j].fr != f
    {
      assert KeyOk(s, j);
    }
  }

  // ---------- every operation keeps the invariant and does what its label says ----------

  /** The full claim about one operation that led from `s` to `s'`. */
  ghost predicate Good(s: State, s': State, l: Label) {
    && Inv(s')
    && Views(s') == Effect(Views(s), l)
    && KeepsOwn(s, s', Touched(l))
  }

  lemma OwnChain(s: State, t: State, u: State, ex: set<Key>, ey: set<Key>)
    requires KeepsOwn(s, t, ex) && KeepsOwn(t, u, ey)
    ensures KeepsOwn(s, u, ex + ey)
  {
  }

  lemma ThenQuiet(s: State, t: State, u: State, l: Label)
    requires Good(s, t, l) && Good(t, u, Quiet)
    ensures Good(s, u, l)
  {
  }

  lemma QuietThen(s: State, t: State, u: State, l: Label)
    requires Good(s, t, Quiet) && Good(t, u, l)
    ensures Good(s, u, l)
  {
  }

  lemma TakeGood(s: State, f: nat, p: Page)
    requires Inv(s) && FreeFrame(s, f)
    ensures Good(s, Take(s, f, p), Quiet) && LookFrame(Take(s, f, p), f) == Data(p)
    ensures Count(Take(s, f, p), f) == 1 && Ours(Take(s, f, p).rc, f)
    ensures KeysOn(s.pt, f) == {} && PicksOn(s.batch, f) == {} && f !in s.tabs
  {
    TakeInv(s, f, p);
    TakeSees(s, f, p);
  }

  lemma AgainGood(s: State, f: nat)
    requires Inv(s) && (Ours(s.rc, f) ==> Count(s, f) > 0)
    requires forall k | Exposes(s.pt, k, f) :: s.pt[k].shared
    ensures Good(s, Again(s, f), Quiet)
  {
    AgainInv(s, f);
    SameTables(s, Again(s, f));
  }

  lemma GiveGood(s: State, f: nat)
    requires Inv(s) && s.flight[f] > 0
    ensures Good(s, Give(s, f), Quiet)
  {
    GiveInv(s, f);
    SameTables(s, Give(s, f));
  }

  lemma GiveSlotGood(s: State, sl: nat)
    requires Inv(s) && s.sflight[sl] > 0
    ensures Good(s, GiveSlot(s, sl), Quiet)
  {
    GiveSlotInv(s, sl);
    SameTables(s, GiveSlot(s, sl));
  }

  lemma UnbindGood(s: State, k: Key)
    requires Inv(s) && k in s.pt
    ensures Good(s, Unbind(s, k), Gone(k))
  {
    UnbindInv(s, k);
    UnbindSees(s, k);
  }

  lemma BindGood(s: State, k: Key, e: Entry)
    requires Inv(s) && k !in s.pt && MayBind(s, e)
    requires e.Present? && e.shared ==> forall j | Own(s, j) && s.pt[j].Present? :: s.pt[j].fr != e.fr
    ensures Good(s, Bind(s, k, e), Set(k, Look(s, e)))
  {
    BindInv(s, k, e);
    BindSees(s, k, e);
  }

  lemma ReflagGood(s: State, k: Key, e: Entry)
    requires Inv(s) && k in s.pt && MayReflag(s, s.pt[k], e)
    ensures Good(s, Reflag(s, k, e), Quiet)
  {
    ReflagInv(s, k, e);
    ReflagSees(s, k, e);
  }

  lemma ClearFrame(s: State, k: Key)
    requires IsPresent(s, k)
    ensures Clear(s, k) == Give(Unbind(s, k), s.pt[k].fr)
  {
    BackAgain(s.flight, s.pt[k].fr);
  }

  lemma ClearSlot(s: State, k: Key)
    requires k in s.pt && s.pt[k].Swapped?
    ensures Clear(s, k) == GiveSlot(Unbind(s, k), s.pt[k].slot)
  {
    BackAgain(s.sflight, s.pt[k].slot);
  }

  lemma ClearLazy(s: State, k: Key)
    requires k in s.pt && s.pt[k].Lazy?
    ensures Clear(s, k) == Unbind(s, k)
  {
  }

  lemma ClearGood(s: State, k: Key)
    requires Inv(s)
    ensures Good(s, Clear(s, k), Gone(k))
  {
    if k !in s.pt {
      assert Views(s) - {k} == Views(s);
    } else {
      var u := Unbind(s, k);
      UnbindGood(s, k);
      match s.pt[k]
      case Present(f, _, _, _, _, _) =>
        GiveGood(u, f);
        ThenQuiet(s, u, Give(u, f), Gone(k));
        ClearFrame(s, k);
      case Swapped(sl, _, _) =>
        GiveSlotGood(u, sl);
        ThenQuiet(s, u, GiveSlot(u, sl), Gone(k));
        ClearSlot(s, k);
      case Lazy(_, _) =>
        ClearLazy(s, k);
    }
  }

  lemma UnrefOurs(rc: seq<nat>, f: nat, g: nat)
    requires Bytes(rc)
    ensures Ours(Unref(rc, f), g) <==> Ours(rc, g)
  {
  }

  /** Clearing makes no frame ours and none foreign. */
  lemma ClearLeaves(s: State, k: Key, f: nat)
    requires Bytes(s.rc)
    ensures Clear(s, k).pt == s.pt - {k} && Clear(s, k).flight == s.flight
    ensures SameContents(s, Clear(s, k)) && (Ours(Clear(s, k).rc, f) <==> Ours(s.rc, f))
  {
    if k in s.pt && s.pt[k].Present? { UnrefOurs(s.rc, s.pt[k].fr, f); }
  }

  lemma BackAgain(m: multiset<nat>, f: nat)
    ensures m + multiset{f} - multiset{f} == m
  {
  }

  lemma ReplaceGood(t: State, k: Key, e: Entry)
    requires Inv(t) && k in t.pt && MayBind(Unbind(t, k), e) && !(e.Present? && e.shared)
    ensures Good(t, Replace(t, k, e), Set(k, Look(t, e)))
  {
    UnbindGood(t, k);
    BindGood(Unbind(t, k), k, e);
    MapPut(Views(t), k, Look(t, e));
    OwnChain(t, Unbind(t, k), Replace(t, k, e), {k}, {k});
  }

  lemma ReplaceCounts(t: State, k: Key, e: Entry)
    requires k in t.pt && MayBind(Unbind(t, k), e)
    ensures forall f :: Count(Replace(t, k, e), f) == Count(t, f)
  {
    UnbindCounts(t, k);
    BindCounts(Unbind(t, k), k, e);
  }

  /** A frame just taken may be bound by a private entry, writable or not. */
  lemma FreshMayBind(t: State, e: Entry)
    requires Inv(t) && e.Present? && !e.cow && !e.shared
    requires t.flight[e.fr] > 0 && Count(t, e.fr) == 1 && Ours(t.rc, e.fr)
    ensures MayBind(t, e)
  {
    forall sl | sl in t.batch
      ensures t.batch[sl].fr != e.fr
    {
      assert sl in PicksOn(t.batch, t.batch[sl].fr);
    }
  }

  /** A private page alone on its frame belongs to its space. */
  lemma SoleOwn(s: State, s': State, k: Key)
    requires KeepsOwn(s, s', {k})
    requires k in s'.pt && s'.pt[k].Present? && !s'.pt[k].shared && Count(s', s'.pt[k].fr) == 1
    ensures KeepsOwn(s, s', {})
  {
    SoleFrame(s', k);
  }

  lemma FreshReplace(t: State, k: Key, e: Entry)
    requires Inv(t) && k in t.pt && e.Present? && !e.cow && !e.shared
    requires t.flight[e.fr] > 0 && Count(t, e.fr) == 1 && Ours(t.rc, e.fr)
    requires LookFrame(t, e.fr) == Look(t, t.pt[k])
    ensures Good(t, Replace(t, k, e), Quiet)
  {
    UnbindInv(t, k);
    UnbindCounts(t, k);
    FreshMayBind(Unbind(t, k), e);
    ReplaceGood(t, k, e);
    ReplaceCounts(t, k, e);
    SoleOwn(t, Replace(t, k, e), k);
    SameView(t, k, e);
  }

  lemma SameView(t: State, k: Key, e: Entry)
    requires k in t.pt && Look(t, e) == Look(t, t.pt[k])
    ensures Views(t)[k := Look(t, e)] == Views(t)
  {
  }

  /** A fresh frame with the contents of the old entry takes its place. */
  lemma FreshGood(s: State, k: Key, p: Page, e: Entry)
    requires Inv(s) && e.Present? && !e.cow && !e.shared && FreeFrame(s, e.fr) && k in s.pt
      && Look(s, s.pt[k]) == Data(p)
    ensures Good(s, Replace(Take(s, e.fr, p), k, e), Quiet)
  {
    TakeGood(s, e.fr, p);
    var t := Take(s, e.fr, p);
    TakeKeeps(s, e.fr, p, k);
    FreshReplace(t, k, e);
    QuietThen(s, t, Replace(t, k, e), Quiet);
  }

  lemma TakeKeeps(s: State, f: nat, p: Page, k: Key)
    requires f < |s.rc| && |s.mem| == |s.rc| && KeysOn(s.pt, f) == {} && k in s.pt
    ensures Look(Take(s, f, p), s.pt[k]) == Look(s, s.pt[k])
  {
    assert k !in KeysOn(s.pt, f);
  }

  lemma FaultInGood(s: State, k: Key, f: nat)
    requires Inv(s) && FreeFrame(s, f)
    ensures Good(s, FaultInPage(s, k, f), Quiet)
  {
    if k in s.pt && s.pt[k].Lazy? {
      FreshGood(s, k, ZeroPage(), Present(f, s.pt[k].rw, false, false, s.pt[k].us, false));
    }
  }

  lemma CowGood(s: State, k: Key, nf: nat)
    requires Inv(s) && FreeFrame(s, nf)
    ensures Good(s, CowFault(s, k, nf), Quiet)
  {
    if IsPresent(s, k) && s.pt[k].cow && s.pt[k].fr < |s.rc| {
      var e := s.pt[k];
      assert KeyOk(s, k) && FrameOk(s, e.fr);
      if s.rc[e.fr] != 1 {
        var e' := Present(nf, true, false, e.shared, e.us, e.acc);
        FreshGood(s, k, s.mem[e.fr], e');
        var t := Replace(Take(s, nf, s.mem[e.fr]), k, e');
        GiveGood(t, e.fr);
        ThenQuiet(s, t, Give(t, e.fr), Quiet);
      } else {
        ReflagGood(s, k, Bits(e, true, false));
      }
    }
  }

  lemma StoreGood(s: State, k: Key, p: Page)
    requires Inv(s) && IsPresent(s, k) && s.pt[k].rw && s.pt[k].fr < |s.mem|
    ensures Good(s, SetMem(s, s.pt[k].fr, p), StoreLabel(s, k, p))
    ensures !s.pt[k].shared ==> Own(s, k) && Own(SetMem(s, s.pt[k].fr, p), k)
  {
    var f := s.pt[k].fr;
    assert KeyOk(s, k);
    SetMemSees(s, f, p);
    forall sl | sl in s.batch
      ensures s.batch[sl].fr != f
    {
      assert PickOk(s, sl);
      assert Exposes(s.pt, k, f);
    }
    SetMemInv(s, f, p);
    if !s.pt[k].shared {
      SoleKey(s, k);
      SoleFrame(s, k);
      assert Effect(Views(s), SetMany({k}, Data(p))) == Effect(Views(s), Set(k, Data(p)));
      assert k in OwnSet(s);
    }
  }

  // ---------- fork ----------

  lemma ClonePresentSteps(s: State, k: Key, child: nat)
    requires IsPresent(s, k)
    ensures var e := Forked(s, s.pt[k]);
            Clone(s, k, child) == Bind(Again(Reflag(s, k, e), e.fr), Key(child, k.va), e)
  {
    BackAgain(s.flight, s.pt[k].fr);
  }

  lemma CloneSwappedSteps(s: State, k: Key, child: nat)
    requires k in s.pt && s.pt[k].Swapped?
    ensures Clone(s, k, child) == Bind(AgainSlot(s, s.pt[k].slot), Key(child, k.va), s.pt[k])
  {
    BackAgain(s.sflight, s.pt[k].slot);
    assert s.pt[k := s.pt[k]] == s.pt;
  }

  lemma CloneLazySteps(s: State, k: Key, child: nat)
    requires k in s.pt && s.pt[k].Lazy?
    ensures Clone(s, k, child) == Bind(s, Key(child, k.va), s.pt[k])
  {
    assert s.pt[k := s.pt[k]] == s.pt;
  }

  lemma CloneLazyGood(s: State, k: Key, child: nat)
    requires Inv(s) && Key(child, k.va) !in s.pt && k in s.pt && s.pt[k].Lazy?
    ensures Good(s, Clone(s, k, child), Copy(k, Key(child, k.va)))
  {
    CloneLazySteps(s, k, child);
    BindGood(s, Key(child, k.va), s.pt[k]);
  }

  lemma CloneSwappedGood(s: State, k: Key, child: nat)
    requires Inv(s) && Key(child, k.va) !in s.pt && k in s.pt && s.pt[k].Swapped?
    ensures Good(s, Clone(s, k, child), Copy(k, Key(child, k.va)))
  {
    var sl := s.pt[k].slot;
    CloneSwappedSteps(s, k, child);
    assert KeyOk(s, k);
    assert k in SlotKeys(s.pt, sl);
    AgainSlotInv(s, sl);
    var t := AgainSlot(s, sl);
    SameTables(s, t);
    BindGood(t, Key(child, k.va), s.pt[k]);
    QuietThen(s, t, Bind(t, Key(child, k.va), s.pt[k]), Set(Key(child, k.va), Look(t, s.pt[k])));
  }

  lemma ForkedEntry(s: State, k: Key)
    requires Inv(s) && IsPresent(s, k)
    ensures var t := Reflag(s, k, Forked(s, s.pt[k]));
            && Good(s, t, Quiet) && Count(t, s.pt[k].fr) > 0
            && (forall j | Exposes(t.pt, j, s.pt[k].fr) :: t.pt[j].shared)
  {
    var f := s.pt[k].fr;
    var e := Forked(s, s.pt[k]);
    assert KeyOk(s, k);
    ReflagGood(s, k, e);
    ReflagInv(s, k, e);
    MappedIsCounted(s, k);
    var t := Reflag(s, k, e);
    forall j | Exposes(t.pt, j, f)
      ensures t.pt[j].shared
    {
      assert KeyOk(s, j);
      assert k in KeysOn(s.pt, f);
      if j != k && !s.pt[j].shared { SoleKey(s, j); }
    }
  }

  lemma ClonePresentGood(s: State, k: Key, child: nat)
    requires Inv(s) && Key(child, k.va) !in s.pt && IsPresent(s, k)
    ensures Good(s, Clone(s, k, child), Copy(k, Key(child, k.va)))
  {
    var f, e, k2 := s.pt[k].fr, Forked(s, s.pt[k]), Key(child, k.va);
    var t := Reflag(s, k, e);
    ForkedEntry(s, k);
    AgainGood(t, f);
    var u := Again(t, f);
    QuietThen(s, t, u, Quiet);
    MayBindCopy(u, k, e);
    BindGood(u, k2, e);
    ClonePresentSteps(s, k, child);
    assert Views(s)[k] == Look(u, e);
    QuietThen(s, u, Bind(u, k2, e), Set(k2, Look(u, e)));
  }

  /** A second entry like the first one may be bound to its frame. */
  lemma MayBindCopy(u: State, k: Key, e: Entry)
    requires Inv(u) && k in u.pt && u.pt[k] == e && e.Present? && u.flight[e.fr] > 0 && (e.rw ==> e.shared)
    ensures MayBind(u, e) && (e.shared ==> forall j | Own(u, j) && u.pt[j].Present? :: u.pt[j].fr != e.fr)
  {
    assert KeyOk(u, k);
    if e.shared {
      assert SharedOn(u.pt, k, e.fr);
      OwnApart(u, e.fr);
      forall sl | sl in u.batch
        ensures u.batch[sl].fr != e.fr
      {
        assert PickOk(u, sl);
        assert Exposes(u.pt, k, e.fr);
      }
    }
  }

  lemma CloneGood(s: State, k: Key, child: nat)
    requires Inv(s) && Key(child, k.va) !in s.pt
    ensures Good(s, Clone(s, k, child), Copy(k, Key(child, k.va)))
  {
    if k in s.pt {
      match s.pt[k]
      case Lazy(_, _) => CloneLazyGood(s, k, child);
      case Swapped(_, _, _) => CloneSwappedGood(s, k, child);
      case Present(_, _, _, _, _, _) => ClonePresentGood(s, k, child);
    }
  }

  // ---------- mapping and protection ----------

  /** A frame with a keeper: no page table, no swap-out, no private writer. */
  lemma KeptFrame(s: State, f: nat)
    requires Inv(s) && (Ours(s.rc, f) ==> s.held[f] > 0)
    ensures f !in s.tabs && (forall sl | sl in s.batch :: s.batch[sl].fr != f)
    ensures forall k | Exposes(s.pt, k, f) :: s.pt[k].shared
    ensures forall j | Own(s, j) && s.pt[j].Present? :: s.pt[j].fr != f
  {
    assert OwnerOk(s, f);
    forall sl | sl in s.batch
      ensures s.batch[sl].fr != f
    {
      assert PickOk(s, sl);
    }
    forall k | Exposes(s.pt, k, f)
      ensures s.pt[k].shared
    {
      assert KeyOk(s, k);
      if !s.pt[k].shared { SoleKey(s, k); }
    }
    OwnApart(s, f);
  }

  /** Maps a kept frame over whatever was there. */
  lemma MapKeptGood(s: State, k: Key, e: Entry)
    requires Inv(s) && e.Present? && (Ours(s.rc, e.fr) ==> s.held[e.fr] > 0)
    requires (e.rw ==> e.shared) && !(e.rw && e.cow) && !(e.cow && e.shared) && (!e.shared ==> Ours(s.rc, e.fr))
    ensures Good(s, MapPage(s, k, e), Set(k, LookFrame(s, e.fr)))
  {
    var f := e.fr;
    KeptFrame(s, f);
    AgainGood(s, f);
    var t := Again(s, f);
    assert t.flight[f] > 0;
    MapInFlightGood(t, k, e);
    QuietThen(s, t, Bind(Clear(t, k), k, e), Set(k, LookFrame(s, f)));
  }

  lemma MapInFlightGood(t: State, k: Key, e: Entry)
    requires Inv(t) && e.Present? && (Ours(t.rc, e.fr) ==> t.held[e.fr] > 0) && t.flight[e.fr] > 0
    requires (e.rw ==> e.shared) && !(e.rw && e.cow) && !(e.cow && e.shared) && (!e.shared ==> Ours(t.rc, e.fr))
    ensures Good(t, Bind(Clear(t, k), k, e), Set(k, LookFrame(t, e.fr)))
  {
    var f := e.fr;
    ClearGood(t, k);
    ClearLeaves(t, k, f);
    var c := Clear(t, k);
    KeptFrame(c, f);
    BindGood(c, k, e);
    MapPut(Views(t), k, LookFrame(t, f));
    OwnChain(t, c, Bind(c, k, e), {k}, {k});
  }

  lemma ReserveGood(s: State, k: Key, rw: bool, us: bool)
    requires Inv(s)
    ensures Good(s, ReservePage(s, k, rw, us), Set(k, Data(ZeroPage())))
  {
    ClearGood(s, k);
    ClearLeaves(s, k, 0);
    var c := Clear(s, k);
    BindGood(c, k, Lazy(rw, us));
    MapPut(Views(s), k, Data(ZeroPage()));
    OwnChain(s, c, Bind(c, k, Lazy(rw, us)), {k}, {k});
  }

  lemma MakeWritableGood(s: State, k: Key)
    requires Inv(s) && IsPresent(s, k)
    ensures Good(s, MakeWritable(s, k), Quiet)
  {
    var e := s.pt[k];
    assert KeyOk(s, k) && FrameOk(s, e.fr);
    MappedIsCounted(s, k);
    if !e.shared && Ours(s.rc, e.fr) && s.rc[e.fr] > 1 {
      ReflagGood(s, k, Bits(e, false, true));
    } else {
      ReflagGood(s, k, Bits(e, true, false));
    }
  }

  lemma ProtectGood(s: State, k: Key, w: bool)
    requires Inv(s)
    ensures Good(s, ProtectPage(s, k, w), Quiet)
  {
    if IsPresent(s, k) {
      if w { MakeWritableGood(s, k); } else { ReflagGood(s, k, Bits(s.pt[k], false, false)); }
    } else if k in s.pt {
      ReflagGood(s, k, Bits(s.pt[k], w, false));
    }
  }

  lemma PopulateGood(s: State, k: Key, f: nat, w: bool)
    requires Inv(s) && FreeFrame(s, f)
    ensures Good(s, PopulatePage(s, k, f, w), PopulateLabel(s, k))
  {
    var e := Present(f, w, false, false, true, false);
    if IsPresent(s, k) {
      if w { MakeWritableGood(s, k); }
    } else if k in s.pt && s.pt[k].Swapped? {
      if w { ReflagGood(s, k, Bits(s.pt[k], true, false)); }
    } else if k in s.pt {
      ClearLazy(Take(s, f, ZeroPage()), k);
      FreshGood(s, k, ZeroPage(), e);
    } else {
      TakeGood(s, f, ZeroPage());
      var t := Take(s, f, ZeroPage());
      FreshMayBind(t, e);
      BindGood(t, k, e);
      QuietThen(s, t, Bind(t, k, e), Set(k, Data(ZeroPage())));
    }
  }

  lemma DiscardGood(s: State, k: Key)
    requires Inv(s)
    ensures Good(s, DiscardPage(s, k), DiscardLabel(s, k))
  {
    if IsPresent(s, k) && s.pt[k].rw && !s.pt[k].shared {
      ReplaceGood(s, k, Lazy(true, s.pt[k].us));
    }
  }

  // ---------- keepers and page tables ----------

  lemma HoldGood(s: State, f: nat, p: Page)
    requires Inv(s) && FreeFrame(s, f)
    ensures Good(s, HoldFrame(s, f, p), Quiet)
  {
    TakeGood(s, f, p);
    var t := Take(s, f, p);
    KeepInv(t, f);
    KeepSees(t, f);
    QuietThen(s, t, Keep(t, f), Quiet);
  }

  lemma HoldMoreGood(s: State, f: nat)
    requires Inv(s) && s.held[f] > 0
    ensures Good(s, HoldAgain(s, f), Quiet)
  {
    KeptFrame(s, f);
    AgainGood(s, f);
    var t := Again(s, f);
    assert OwnerOk(s, f);
    KeepInv(t, f);
    KeepSees(t, f);
    QuietThen(s, t, Keep(t, f), Quiet);
  }

  lemma UnholdGood(s: State, f: nat)
    requires Inv(s) && s.held[f] > 0
    ensures Good(s, HoldDropped(s, f), Quiet)
  {
    UnkeepInv(s, f);
    UnkeepSees(s, f);
    var t := Unkeep(s, f);
    GiveGood(t, f);
    QuietThen(s, t, Give(t, f), Quiet);
  }

  lemma RefillGood(s: State, f: nat, p: Page)
    requires Inv(s) && s.held[f] > 0
    ensures Good(s, RefillFrame(s, f, p), SetMany(KeysOn(s.pt, f), Data(p)))
  {
    KeptFrame(s, f);
    assert OwnerOk(s, f);
    SetMemInv(s, f, p);
    SetMemSees(s, f, p);
  }

  lemma NewTableGood(s: State, f: nat, pd: nat)
    requires Inv(s) && FreeFrame(s, f)
    ensures Good(s, TableFrame(s, f, pd), Quiet)
  {
    TakeGood(s, f, ZeroPage());
    var t := Take(s, f, ZeroPage());
    ToTableInv(t, f, pd);
    SameTables(t, ToTable(t, f, pd));
    QuietThen(s, t, ToTable(t, f, pd), Quiet);
  }

  lemma FreeTableGood(s: State, f: nat)
    requires Inv(s) && f in s.tabs
    ensures Good(s, TableFreed(s, f), Quiet)
  {
    FromTableInv(s, f);
    var t := FromTable(s, f);
    SameTables(s, t);
    GiveGood(t, f);
    QuietThen(s, t, Give(t, f), Quiet);
  }

  // ---------- swapping ----------

  lemma ScanGood(s: State, k: Key, sl: nat)
    requires Inv(s) && sl in s.sc && s.sc[sl] == 0
    ensures Good(s, Scan(s, k, sl), Quiet)
  {
    if IsPresent(s, k) {
      var e := s.pt[k];
      if e.us && !e.shared && (e.rw || e.cow) && Ours(s.rc, e.fr) && s.rc[e.fr] == 1 {
        assert KeyOk(s, k) && FrameOk(s, e.fr);
        if e.acc {
          ReflagGood(s, k, Present(e.fr, e.rw, e.cow, e.shared, e.us, false));
        } else {
          PickGood(s, k, sl);
        }
      }
    }
  }

  lemma PickGood(s: State, k: Key, sl: nat)
    requires Inv(s) && sl in s.sc && s.sc[sl] == 0
    requires IsPresent(s, k) && !s.pt[k].shared && Ours(s.rc, s.pt[k].fr) && Count(s, s.pt[k].fr) == 1
    ensures var f := s.pt[k].fr;
            var e := Bits(s.pt[k], false, true);
            Good(s, StartPick(Again(Reflag(TakeSlot(s, sl), k, e), f), sl, k, f), Quiet)
  {
    var f := s.pt[k].fr;
    var e := Bits(s.pt[k], false, true);
    TakeSlotInv(s, sl);
    var t := TakeSlot(s, sl);
    SameTables(s, t);
    ReflagGood(t, k, e);
    var u := Reflag(t, k, e);
    QuietThen(s, t, u, Quiet);
    SoleKey(s, k);
    KeysReflagged(t.pt, k, e);
    forall j
      ensures !Exposes(u.pt, j, f)
    {
      assert j in KeysOn(s.pt, f) <==> j in s.pt && s.pt[j].Present? && s.pt[j].fr == f;
    }
    AgainGood(u, f);
    var v := Again(u, f);
    QuietThen(s, u, v, Quiet);
    StartPickInv(v, sl, k, f);
    SameTables(v, StartPick(v, sl, k, f));
    QuietThen(s, v, StartPick(v, sl, k, f), Quiet);
  }

  lemma EndPickGood(s: State, sl: nat)
    requires Inv(s) && sl in s.batch
    ensures Good(s, EndPick(s, sl), Quiet)
  {
    EndPickInv(s, sl);
    SameTables(s, EndPick(s, sl));
  }

  lemma SetDiskGood(s: State, sl: nat, p: Page, written: bool)
    requires Inv(s) && sl in s.batch && (written ==> s.batch[sl].fr < |s.mem| && p == s.mem[s.batch[sl].fr])
    ensures Good(s, SetDisk(s, sl, p, written), Quiet)
  {
    SetDiskInv(s, sl, p, written);
    SetDiskSees(s, sl, p, written);
  }

  /** Whatever a failed write left on the disk, nobody sees it. */
  lemma WriteFailedGood(s: State, sl: nat, junk: Page)
    requires Inv(s) && sl in s.batch
    ensures Good(s, FailPick(s, sl, junk), Quiet)
  {
    SetDiskGood(s, sl, junk, false);
    var t := SetDisk(s, sl, junk, false);
    EndPickGood(t, sl);
    QuietThen(s, t, EndPick(t, sl), Quiet);
  }

  /** The page is on disk in full when the entry starts to name the slot. */
  lemma CommitGood(s: State, sl: nat)
    requires Inv(s) && sl in s.batch && s.batch[sl].written
    ensures Good(s, CommitPage(s, sl), Quiet)
  {
    EndPickGood(s, sl);
    if StillPicked(s, s.batch[sl]) {
      var u, k, e := EndPick(s, sl), s.batch[sl].key, Swapped(sl, true, true);
      CommitEntry(s, sl);
      QuietThen(s, u, Replace(u, k, e), Quiet);
    }
  }

  lemma CommitEntry(s: State, sl: nat)
    requires Inv(s) && sl in s.batch && s.batch[sl].written && StillPicked(s, s.batch[sl])
    ensures Good(EndPick(s, sl), Replace(EndPick(s, sl), s.batch[sl].key, Swapped(sl, true, true)), Quiet)
  {
    var b := s.batch[sl];
    var u := EndPick(s, sl);
    var e := Swapped(sl, true, true);
    EndPickInv(s, sl);
    ReplaceGood(u, b.key, e);
    assert PickOk(s, sl);
    assert Views(u)[b.key := Look(u, e)] == Views(u);
    var v := Replace(u, b.key, e);
    assert b.key in OwnSet(v);
  }

  lemma SwapInGood(s: State, k: Key, f: nat)
    requires Inv(s) && FreeFrame(s, f)
    ensures Good(s, SwapInPage(s, k, f), Quiet)
  {
    if k in s.pt && s.pt[k].Swapped? && s.pt[k].slot in s.disk {
      var sl := s.pt[k].slot;
      var e := Present(f, s.pt[k].rw, false, false, s.pt[k].us, false);
      FreshGood(s, k, s.disk[sl], e);
    }
  }
}

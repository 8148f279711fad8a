/**
  A machine of pages that knows no frames, no reference bytes, no tables and no swap. A page has
  contents of its own, or it shows an object that other pages may show too: a segment, or a page of
  the cache. What an operation does to this machine depends on the operation and on the machine
  alone. Every run of the kernel's operations is a run of this machine.
  */
module VmMachine {
  import opened FramePool
  import opened VmState
  import opened VmOps
  import opened VmRuns

  /** Contents of its own, or those of object `f`. */
  datatype Cell = Mine(c: Content) | Of(f: nat)

  datatype Machine = Machine(page: map<Key, Cell>, obj: map<nat, Content>)

  /** An object that nobody put anything in is a device. */
  function ObjOf(a: Machine, f: nat): Content {
    if f in a.obj then a.obj[f] else Device(f)
  }

  function Show(a: Machine, k: Key): Content
    requires k in a.page
  {
    match a.page[k]
    case Mine(c) => c
    case Of(f) => ObjOf(a, f)
  }

  function Shows(a: Machine): map<Key, Content> {
    map k | k in a.page :: Show(a, k)
  }

  function SetCell(a: Machine, k: Key, c: Cell): Machine {
    a.(page := a.page[k := c])
  }

  /** The page goes on with contents of its own. */
  function Detach(a: Machine, k: Key): Machine {
    if k in a.page then SetCell(a, k, Mine(Show(a, k))) else a
  }

  function Write(a: Machine, k: Key, p: Page): Machine {
    if k !in a.page then a else
    match a.page[k]
    case Mine(_) => SetCell(a, k, Mine(Data(p)))
    case Of(f) => a.(obj := a.obj[f := Data(p)])
  }

  /**
    One operation. `act` is the only choice: whether a page that is about to be written gets contents
    of its own now, and whether a page that may be dropped is.
    */
  function Act(a: Machine, op: Op, act: bool): Machine {
    match op
    case Store(k, p) => Write(a, k, p)
    case ClonePage(k, child) => if k in a.page then SetCell(a, Key(child, k.va), a.page[k]) else a
    case Unmap(k) => a.(page := a.page - {k})
    case UnmapLater(k) => a.(page := a.page - {k})
    case Reserve(k, _, _) => SetCell(a, k, Mine(Data(ZeroPage())))
    case Populate(k, _, _) => if k in a.page then a else SetCell(a, k, Mine(Data(ZeroPage())))
    case MapShared(k, f, _) => SetCell(a, k, Of(f))
    case MapCache(k, f, _, _) => SetCell(a, k, Of(f))
    case Hold(f, p) => a.(obj := a.obj[f := Data(p)])
    case Refill(f, p) => a.(obj := a.obj[f := Data(p)])
    case Cow(k, _) => if act then Detach(a, k) else a
    case PickPage(k, _) => if act then Detach(a, k) else a
    case Discard(k) => if act && k in a.page then SetCell(a, k, Mine(Data(ZeroPage()))) else a
    case _ => a
  }

  function ActAll(a: Machine, ops: seq<Op>, acts: seq<bool>): Machine
    requires |acts| == |ops|
    decreases |ops|
  {
    if ops == [] then a else ActAll(Act(a, ops[0], acts[0]), ops[1..], acts[1..])
  }

  // ---------- the kernel's state and the machine's ----------

  /** Somebody besides page tables may hand out frame `f`: a keeper, or the hardware. */
  predicate Object(s: State, f: nat) {
    s.held[f] > 0 || !Ours(s.rc, f)
  }

  predicate OnFrame(s: State, k: Key, f: nat) {
    k in s.pt && s.pt[k].Present? && s.pt[k].fr == f
  }

  ghost predicate CellOk(s: State, a: Machine, k: Key) {
    k in s.pt && k in a.page ==>
      match a.page[k]
      case Mine(c) => Own(s, k) && Look(s, s.pt[k]) == c
      case Of(f) => OnFrame(s, k, f) && ObjOf(a, f) == LookFrame(s, f)
  }

  ghost predicate ObjectOk(s: State, a: Machine, f: nat) {
    Object(s, f) ==> ObjOf(a, f) == LookFrame(s, f)
  }

  /** A page on its way to disk has contents of its own. */
  ghost predicate PickedOk(s: State, a: Machine, sl: nat, k: Key) {
    sl in s.batch && OnFrame(s, k, s.batch[sl].fr) && k in a.page ==> a.page[k].Mine?
  }

  ghost predicate Same(s: State, a: Machine) {
    && Inv(s) && a.page.Keys == s.pt.Keys
    && (forall k :: CellOk(s, a, k))
    && (forall f :: ObjectOk(s, a, f))
    && (forall sl, k :: PickedOk(s, a, sl, k))
  }

  /** Then the spaces see what the machine shows. */
  lemma SameShows(s: State, a: Machine)
    requires Same(s, a)
    ensures Views(s) == Shows(a)
  {
    forall k | k in s.pt
      ensures Views(s)[k] == Shows(a)[k]
    {
      assert CellOk(s, a, k);
    }
  }

  // ---------- what an operation leaves alone ----------

  /** The pages whose frame or slot an operation may exchange. */
  function Aimed(s: State, op: Op): set<Key> {
    match op
    case FaultIn(k, _) => {k}
    case Cow(k, _) => {k}
    case ClonePage(k, child) => {Key(child, k.va)}
    case Unmap(k) => {k}
    case UnmapLater(k) => {k}
    case Reserve(k, _, _) => {k}
    case Populate(k, _, _) => {k}
    case MapShared(k, _, _) => {k}
    case MapCache(k, _, _, _) => {k}
    case Commit(sl) => if sl in s.batch then {s.batch[sl].key} else {}
    case SwapIn(k, _) => {k}
    case Discard(k) => {k}
    case _ => {}
  }

  /** Entry `j` is there or not as before, and names what it named. */
  predicate KeepsTarget(s: State, s': State, j: Key) {
    (j in s'.pt <==> j in s.pt) && (j in s.pt ==> SameTarget(s.pt[j], s'.pt[j]))
  }

  lemma KeptSelf(s: State, s': State, j: Key)
    requires s'.pt == s.pt
    ensures KeepsTarget(s, s', j)
  {
  }

  lemma KeptThen(s: State, t: State, u: State, j: Key)
    requires KeepsTarget(s, t, j) && KeepsTarget(t, u, j)
    ensures KeepsTarget(s, u, j)
  {
  }

  lemma KeptBind(s: State, k: Key, e: Entry, j: Key)
    requires j != k
    ensures KeepsTarget(s, Bind(s, k, e), j) && (k in s.pt ==> KeepsTarget(s, Unbind(s, k), j))
    ensures k in s.pt ==> KeepsTarget(s, Replace(s, k, e), j)
  {
  }

  lemma KeptFlag(s: State, k: Key, e: Entry, j: Key)
    requires k in s.pt && SameTarget(s.pt[k], e)
    ensures KeepsTarget(s, Reflag(s, k, e), j)
  {
  }

  lemma PtSame(s: State, f: nat, p: Page)
    ensures Give(s, f).pt == s.pt && Again(s, f).pt == s.pt
    ensures f < |s.rc| && |s.mem| == |s.rc| ==> Take(s, f, p).pt == s.pt
  {
  }

  lemma CowTargets(s: State, k: Key, f: nat, j: Key)
    requires FreeFrame(s, f) && |s.mem| == |s.rc| && j != k
    ensures KeepsTarget(s, CowFault(s, k, f), j)
  {
    hide Give, Take, Bind, Unbind, Reflag, KeepsTarget;
    if IsPresent(s, k) && s.pt[k].cow && s.pt[k].fr < |s.rc| {
      var e := s.pt[k];
      if s.rc[e.fr] != 1 {
        var t := Take(s, f, s.mem[e.fr]);
        PtSame(s, f, s.mem[e.fr]);
        KeptSelf(s, t, j);
        var u := Replace(t, k, Present(f, true, false, e.shared, e.us, e.acc));
        KeptBind(t, k, Present(f, true, false, e.shared, e.us, e.acc), j);
        PtSame(u, e.fr, []);
        KeptSelf(u, Give(u, e.fr), j);
        KeptThen(s, t, u, j);
        KeptThen(s, u, Give(u, e.fr), j);
      } else {
        KeptFlag(s, k, Bits(e, true, false), j);
      }
    } else {
      KeptSelf(s, s, j);
    }
  }

  lemma ClearTargets(s: State, k: Key, e: Entry, j: Key)
    requires j != k
    ensures KeepsTarget(s, Clear(s, k), j) && KeepsTarget(s, Bind(Clear(s, k), k, e), j)
    ensures KeepsTarget(s, UnmapPageLater(s, k), j)
  {
  }

  lemma PopulateTargets(s: State, k: Key, f: nat, w: bool, j: Key)
    requires FreeFrame(s, f) && |s.mem| == |s.rc| && j != k
    ensures KeepsTarget(s, PopulatePage(s, k, f, w), j)
  {
    hide Take, Clear, Bind, MakeWritable, Reflag, KeepsTarget;
    KeptSelf(s, s, j);
    if IsPresent(s, k) {
      WritableTargets(s, k, j);
    } else if k in s.pt && s.pt[k].Swapped? {
      KeptFlag(s, k, Bits(s.pt[k], true, false), j);
    } else {
      var t, e := Take(s, f, ZeroPage()), Present(f, w, false, false, true, false);
      PtSame(s, f, ZeroPage());
      KeptSelf(s, t, j);
      ClearTargets(t, k, e, j);
      KeptThen(s, t, Bind(Clear(t, k), k, e), j);
    }
  }

  lemma WritableTargets(s: State, k: Key, j: Key)
    requires IsPresent(s, k)
    ensures KeepsTarget(s, MakeWritable(s, k), j)
  {
    hide Reflag;
    KeptFlag(s, k, Bits(s.pt[k], false, true), j);
    KeptFlag(s, k, Bits(s.pt[k], true, false), j);
  }

  lemma ProtectTargets(s: State, k: Key, w: bool, j: Key)
    ensures KeepsTarget(s, ProtectPage(s, k, w), j)
  {
    hide Reflag, MakeWritable, KeepsTarget;
    KeptSelf(s, s, j);
    if k in s.pt {
      KeptFlag(s, k, Bits(s.pt[k], w, false), j);
      if IsPresent(s, k) {
        WritableTargets(s, k, j);
        KeptFlag(s, k, Bits(s.pt[k], false, false), j);
      }
    }
  }

  lemma FlagTargets(s: State, k: Key, us: bool, j: Key)
    ensures KeepsTarget(s, SetUserPage(s, k, us), j) && KeepsTarget(s, TouchPage(s, k), j)
  {
    hide Reflag, KeepsTarget;
    KeptSelf(s, s, j);
    if k in s.pt {
      KeptFlag(s, k, UserBit(s.pt[k], us), j);
      if IsPresent(s, k) {
        var e := s.pt[k];
        KeptFlag(s, k, Present(e.fr, e.rw, e.cow, e.shared, e.us, true), j);
      }
    }
  }

  lemma CloneTargets(s: State, k: Key, child: nat, j: Key)
    requires j != Key(child, k.va)
    ensures KeepsTarget(s, Clone(s, k, child), j)
  {
    hide Ref, SlotUp;
  }

  lemma MapTargets(s: State, k: Key, e: Entry, j: Key)
    requires e.Present? && j != k
    ensures KeepsTarget(s, MapPage(s, k, e), j)
  {
    hide Again, Clear, Bind, KeepsTarget;
    PtSame(s, e.fr, []);
    KeptSelf(s, Again(s, e.fr), j);
    ClearTargets(Again(s, e.fr), k, e, j);
    KeptThen(s, Again(s, e.fr), Bind(Clear(Again(s, e.fr), k), k, e), j);
  }

  lemma FaultTargets(s: State, k: Key, f: nat, j: Key)
    requires FreeFrame(s, f) && |s.mem| == |s.rc| && j != k
    ensures KeepsTarget(s, FaultInPage(s, k, f), j)
  {
    hide Take, Bind, Unbind, KeepsTarget;
    KeptSelf(s, s, j);
    if k in s.pt && s.pt[k].Lazy? {
      var t, e := Take(s, f, ZeroPage()), Present(f, s.pt[k].rw, false, false, s.pt[k].us, false);
      PtSame(s, f, ZeroPage());
      KeptSelf(s, t, j);
      KeptBind(t, k, e, j);
      KeptThen(s, t, Replace(t, k, e), j);
    }
  }

  lemma PageTargets(s: State, op: Op, j: Key)
    requires |s.mem| == |s.rc| && Enabled(s, op) && OnPage(op) && j !in Aimed(s, op)
    ensures KeepsTarget(s, ApplyOnPage(s, op), j)
  {
    hide CowFault, PopulatePage, Clear, Clone, UnmapPageLater, ProtectPage, SetUserPage, TouchPage, MapPage;
    hide FaultInPage, Bind, SetMem, KeepsTarget;
    match op
    case Cow(k, f) => CowTargets(s, k, f, j);
    case ClonePage(k, child) => CloneTargets(s, k, child, j);
    case Unmap(k) => ClearTargets(s, k, Lazy(false, false), j);
    case UnmapLater(k) => ClearTargets(s, k, Lazy(false, false), j);
    case Reserve(k, rw, us) => ClearTargets(s, k, Lazy(rw, us), j);
    case Populate(k, f, w) => PopulateTargets(s, k, f, w, j);
    case MapShared(k, f, rw) => MapTargets(s, k, SharedEntry(f, rw), j);
    case MapCache(k, f, w, shared) => MapTargets(s, k, CacheEntry(f, w, shared), j);
    case Protect(k, w) => ProtectTargets(s, k, w, j);
    case SetUser(k, us) => FlagTargets(s, k, us, j);
    case Touch(k) => FlagTargets(s, k, true, j);
    case FaultIn(k, f) => FaultTargets(s, k, f, j);
    case Store(k, p) => MemTargets(s, s.pt[k].fr, p, j);
  }

  lemma MemTargets(s: State, f: nat, p: Page, j: Key)
    ensures f < |s.mem| ==> KeepsTarget(s, SetMem(s, f, p), j)
    ensures KeepsTarget(s, RefillFrame(s, f, p), j)
  {
  }

  lemma ScanTargets(s: State, k: Key, sl: nat, j: Key)
    ensures KeepsTarget(s, Scan(s, k, sl), j)
  {
    hide Reflag, Again, StartPick, KeepsTarget;
    KeptSelf(s, s, j);
    if IsPresent(s, k) {
      var e := s.pt[k];
      KeptFlag(s, k, Present(e.fr, e.rw, e.cow, e.shared, e.us, false), j);
      var t := TakeSlot(s, sl);
      KeptSelf(s, t, j);
      var u := Reflag(t, k, Bits(e, false, true));
      KeptFlag(t, k, Bits(e, false, true), j);
      KeptThen(s, t, u, j);
      PtSame(u, e.fr, []);
      PickSame(Again(u, e.fr), sl, k, e.fr);
      KeptSelf(u, StartPick(Again(u, e.fr), sl, k, e.fr), j);
      KeptThen(s, u, StartPick(Again(u, e.fr), sl, k, e.fr), j);
    }
  }

  lemma PickSame(s: State, sl: nat, k: Key, f: nat)
    ensures StartPick(s, sl, k, f).pt == s.pt && (sl in s.batch ==> EndPick(s, sl).pt == s.pt)
  {
  }

  lemma CommitTargets(s: State, sl: nat, j: Key)
    requires sl in s.batch && j != s.batch[sl].key
    ensures KeepsTarget(s, CommitPage(s, sl), j)
  {
    hide EndPick, Replace, KeepsTarget;
    var t, k := EndPick(s, sl), s.batch[sl].key;
    PickSame(s, sl, k, 0);
    KeptSelf(s, t, j);
    if StillPicked(s, s.batch[sl]) {
      KeptBind(t, k, Swapped(sl, true, true), j);
      KeptThen(s, t, Replace(t, k, Swapped(sl, true, true)), j);
    }
  }

  lemma SwapInTargets(s: State, k: Key, f: nat, j: Key)
    requires FreeFrame(s, f) && |s.mem| == |s.rc| && j != k
    ensures KeepsTarget(s, SwapInPage(s, k, f), j)
  {
    hide Take, Replace, KeepsTarget;
    KeptSelf(s, s, j);
    if k in s.pt && s.pt[k].Swapped? && s.pt[k].slot in s.disk {
      var p, e := s.disk[s.pt[k].slot], Present(f, s.pt[k].rw, false, false, s.pt[k].us, false);
      PtSame(s, f, p);
      KeptSelf(s, Take(s, f, p), j);
      KeptBind(Take(s, f, p), k, e, j);
      KeptThen(s, Take(s, f, p), Replace(Take(s, f, p), k, e), j);
    }
  }

  lemma DiscardTargets(s: State, k: Key, j: Key)
    requires j != k
    ensures KeepsTarget(s, DiscardPage(s, k), j)
  {
    hide Bind, Unbind, KeepsTarget;
    KeptSelf(s, s, j);
    if IsPresent(s, k) { KeptBind(s, k, Lazy(true, s.pt[k].us), j); }
  }

  /** The operations that change no page table at all. */
  lemma TablesSame(s: State, op: Op)
    requires |s.mem| == |s.rc| && Enabled(s, op) && !OnPage(op)
    requires !op.PickPage? && !op.Commit? && !op.SwapIn? && !op.Discard?
    ensures ApplyBehind(s, op).pt == s.pt
  {
    hide Give, Take, Again;
    match op
    case NewTable(f, _) => PtSame(s, f, ZeroPage());
    case FreeTable(f) => PtSame(FromTable(s, f), f, []);
    case Release(f) => PtSame(s, f, []);
    case ReleaseSlot(_) =>
    case Hold(f, p) => PtSame(s, f, p);
    case HoldMore(f) => PtSame(s, f, []);
    case Unhold(f) => PtSame(Unkeep(s, f), f, []);
    case Refill(_, _) =>
    case WriteOut(_) =>
    case WriteFailed(sl, junk) => PickSame(SetDisk(s, sl, junk, false), sl, s.batch[sl].key, 0);
  }

  lemma BehindTargets(s: State, op: Op, j: Key)
    requires |s.mem| == |s.rc| && Enabled(s, op) && !OnPage(op) && j !in Aimed(s, op)
    ensures KeepsTarget(s, ApplyBehind(s, op), j)
  {
    if op.PickPage? || op.Commit? || op.SwapIn? || op.Discard? {
      hide Scan, CommitPage, SwapInPage, DiscardPage, KeepsTarget;
      match op
      case PickPage(k, sl) => ScanTargets(s, k, sl, j);
      case Commit(sl) => CommitTargets(s, sl, j);
      case SwapIn(k, f) => SwapInTargets(s, k, f, j);
      case Discard(k) => DiscardTargets(s, k, j);
    } else {
      hide ApplyBehind;
      TablesSame(s, op);
    }
  }

  lemma StepTargets(s: State, op: Op, j: Key)
    requires |s.mem| == |s.rc| && Enabled(s, op) && j !in Aimed(s, op)
    ensures KeepsTarget(s, Apply(s, op), j)
  {
    if OnPage(op) { PageTargets(s, op, j); } else { BehindTargets(s, op, j); }
  }

  // ---------- frames, keepers and the swap-out ----------

  /** Which frames belong to the pool is fixed. */
  predicate SamePool(s: State, s': State) {
    && |s'.rc| == |s.rc|
    && (Bytes(s.rc) ==>
          Bytes(s'.rc) && forall f | 0 <= f < |s.rc| :: s'.rc[f] == NOT_OURS <==> s.rc[f] == NOT_OURS)
  }

  /** Neither pool nor keepers nor the swap-out change. */
  predicate Still(s: State, s': State) {
    SamePool(s, s') && s'.held == s.held && s'.batch == s.batch
  }

  /** From `s` to `s'` keepers and picked pages became no more. */
  ghost predicate Fewer(s: State, s': State) {
    && SamePool(s, s') && (forall f | s'.held[f] > 0 :: s.held[f] > 0)
    && (forall sl | sl in s'.batch :: sl in s.batch && s'.batch[sl].fr == s.batch[sl].fr)
  }

  lemma StillThen(s: State, t: State, u: State)
    requires Still(s, t) && Still(t, u)
    ensures Still(s, u)
  {
  }

  lemma SmallStill(s: State, f: nat, p: Page)
    ensures Still(s, Give(s, f)) && Still(s, Again(s, f))
    ensures FreeFrame(s, f) && |s.mem| == |s.rc| ==> Still(s, Take(s, f, p))
  {
  }

  lemma EntryStill(s: State, k: Key, e: Entry)
    ensures Still(s, Bind(s, k, e)) && Still(s, Reflag(s, k, e)) && Still(s, Clear(s, k))
    ensures k in s.pt ==> Still(s, Unbind(s, k)) && Still(s, Replace(s, k, e)) && Still(s, UnmapPageLater(s, k))
  {
    hide Clear, SamePool;
    ClearStill(s, k);
    PoolEq(s, Bind(s, k, e));
    PoolEq(s, Reflag(s, k, e));
    if k in s.pt {
      PoolEq(s, Unbind(s, k));
      PoolEq(s, Replace(s, k, e));
    }
  }

  lemma ClearStill(s: State, k: Key)
    ensures Still(s, Clear(s, k))
  {
  }

  lemma CowStill(s: State, k: Key, f: nat)
    requires FreeFrame(s, f) && |s.mem| == |s.rc|
    ensures Still(s, CowFault(s, k, f))
  {
    hide Give, Take, Bind, Unbind, Reflag, Still;
    StillSelf(s, s);
    if IsPresent(s, k) && s.pt[k].cow && s.pt[k].fr < |s.rc| {
      var e := s.pt[k];
      EntryStill(s, k, Bits(e, true, false));
      var t, x := Take(s, f, s.mem[e.fr]), Present(f, true, false, e.shared, e.us, e.acc);
      SmallStill(s, f, s.mem[e.fr]);
      PtSame(s, f, s.mem[e.fr]);
      EntryStill(t, k, x);
      SmallStill(Replace(t, k, x), e.fr, []);
      StillThen(s, t, Replace(t, k, x));
      StillThen(s, Replace(t, k, x), Give(Replace(t, k, x), e.fr));
    }
  }

  lemma StillSelf(s: State, s': State)
    requires s'.rc == s.rc && s'.held == s.held && s'.batch == s.batch
    ensures Still(s, s')
  {
  }

  lemma PopulateStill(s: State, k: Key, f: nat, w: bool)
    requires FreeFrame(s, f) && |s.mem| == |s.rc|
    ensures Still(s, PopulatePage(s, k, f, w))
  {
    hide Take, Clear, Bind, MakeWritable, Reflag, Still;
    StillSelf(s, s);
    if IsPresent(s, k) {
      WritableStill(s, k);
    } else if k in s.pt && s.pt[k].Swapped? {
      EntryStill(s, k, Bits(s.pt[k], true, false));
    } else {
      var t, e := Take(s, f, ZeroPage()), Present(f, w, false, false, true, false);
      SmallStill(s, f, ZeroPage());
      EntryStill(t, k, e);
      EntryStill(Clear(t, k), k, e);
      StillThen(s, t, Clear(t, k));
      StillThen(s, Clear(t, k), Bind(Clear(t, k), k, e));
    }
  }

  lemma WritableStill(s: State, k: Key)
    requires IsPresent(s, k)
    ensures Still(s, MakeWritable(s, k))
  {
    hide Reflag, Still;
    EntryStill(s, k, Bits(s.pt[k], false, true));
    EntryStill(s, k, Bits(s.pt[k], true, false));
  }

  lemma FlagStill(s: State, k: Key, w: bool)
    ensures Still(s, ProtectPage(s, k, w)) && Still(s, SetUserPage(s, k, w)) && Still(s, TouchPage(s, k))
  {
    hide MakeWritable;
    if IsPresent(s, k) { WritableStill(s, k); }
  }

  lemma MapStill(s: State, k: Key, e: Entry)
    requires e.Present?
    ensures Still(s, MapPage(s, k, e)) && Still(s, Bind(Clear(s, k), k, e))
  {
    hide Again, Clear, Bind, Still;
    var t := Again(s, e.fr);
    SmallStill(s, e.fr, []);
    EntryStill(t, k, e);
    EntryStill(Clear(t, k), k, e);
    StillThen(s, t, Clear(t, k));
    StillThen(s, Clear(t, k), Bind(Clear(t, k), k, e));
    EntryStill(s, k, e);
    EntryStill(Clear(s, k), k, e);
    StillThen(s, Clear(s, k), Bind(Clear(s, k), k, e));
  }

  lemma ReserveStill(s: State, k: Key, rw: bool, us: bool)
    ensures Still(s, ReservePage(s, k, rw, us))
  {
    hide Clear, Bind, Still;
    EntryStill(s, k, Lazy(rw, us));
    EntryStill(Clear(s, k), k, Lazy(rw, us));
    StillThen(s, Clear(s, k), ReservePage(s, k, rw, us));
  }

  lemma FreshStill(s: State, k: Key, f: nat, p: Page, e: Entry)
    requires FreeFrame(s, f) && |s.mem| == |s.rc| && k in s.pt
    ensures Still(s, Replace(Take(s, f, p), k, e))
  {
    hide Take, Replace, Still;
    SmallStill(s, f, p);
    PtSame(s, f, p);
    EntryStill(Take(s, f, p), k, e);
    StillThen(s, Take(s, f, p), Replace(Take(s, f, p), k, e));
  }

  lemma CloneStill(s: State, k: Key, child: nat)
    ensures Still(s, Clone(s, k, child))
  {
  }

  lemma PageStill(s: State, op: Op)
    requires |s.mem| == |s.rc| && Enabled(s, op) && OnPage(op)
    ensures Still(s, ApplyOnPage(s, op))
  {
    hide CowFault, PopulatePage, Clear, Clone, ProtectPage, SetUserPage, TouchPage, MapPage, ReservePage;
    hide UnmapPageLater, Take, Still;
    StillSelf(s, s);
    match op
    case Cow(k, f) => CowStill(s, k, f);
    case ClonePage(k, child) => CloneStill(s, k, child);
    case Unmap(k) => EntryStill(s, k, Lazy(false, false));
    case UnmapLater(k) => LaterStill(s, k);
    case Reserve(k, rw, us) => ReserveStill(s, k, rw, us);
    case Populate(k, f, w) => PopulateStill(s, k, f, w);
    case MapShared(k, f, rw) => MapStill(s, k, SharedEntry(f, rw));
    case MapCache(k, f, w, shared) => MapStill(s, k, CacheEntry(f, w, shared));
    case Protect(k, w) => FlagStill(s, k, w);
    case SetUser(k, us) => FlagStill(s, k, us);
    case Touch(k) => FlagStill(s, k, true);
    case FaultIn(k, f) =>
      if k in s.pt { FreshStill(s, k, f, ZeroPage(), Present(f, s.pt[k].rw, false, false, s.pt[k].us, false)); }
    case Store(k, p) => StillSelf(s, SetMem(s, s.pt[k].fr, p));
  }

  lemma LaterStill(s: State, k: Key)
    ensures Still(s, UnmapPageLater(s, k))
  {
    hide Clear, Unbind;
    EntryStill(s, k, Lazy(false, false));
  }

  /** Of the operations behind the pages these leave keepers and swap-out alone. */
  lemma BehindStill(s: State, op: Op)
    requires |s.mem| == |s.rc| && Enabled(s, op) && !OnPage(op)
    requires op.NewTable? || op.FreeTable? || op.Release? || op.ReleaseSlot? || op.Refill? || op.SwapIn? || op.Discard?
    ensures Still(s, ApplyBehind(s, op))
  {
    hide Give, Take, Bind, Unbind, SamePool;
    PoolSelf(s);
    match op
    case NewTable(f, pd) =>
      SmallStill(s, f, ZeroPage());
      PoolSame(s, s, Take(s, f, ZeroPage()), TableFrame(s, f, pd));
    case FreeTable(f) =>
      SmallStill(FromTable(s, f), f, []);
      PoolSame(s, FromTable(s, f), Give(FromTable(s, f), f), TableFreed(s, f));
    case Release(f) => SmallStill(s, f, []);
    case ReleaseSlot(sl) => PoolEq(s, GiveSlot(s, sl));
    case Refill(f, p) => PoolEq(s, RefillFrame(s, f, p));
    case SwapIn(k, f) =>
      if k in s.pt && s.pt[k].Swapped? && s.pt[k].slot in s.disk {
        FreshStill(s, k, f, s.disk[s.pt[k].slot], Present(f, s.pt[k].rw, false, false, s.pt[k].us, false));
      }
    case Discard(k) => if IsPresent(s, k) { EntryStill(s, k, Lazy(true, s.pt[k].us)); }
  }

  lemma PoolSelf(s: State)
    ensures SamePool(s, s)
  {
  }

  lemma PoolEq(s: State, s': State)
    requires s'.rc == s.rc
    ensures SamePool(s, s')
  {
  }

  lemma PoolSame(s: State, t: State, u: State, v: State)
    requires t.rc == s.rc && SamePool(t, u) && v.rc == u.rc
    ensures SamePool(s, v)
  {
  }

  // ---------- carrying the relation over one operation ----------

  /** A page that the operation does not change. */
  lemma CellCarries(s: State, s': State, l: Label, a: Machine, a': Machine, j: Key)
    requires Same(s, a) && Good(s, s', l) && j in s'.pt && j in s.pt && j !in Touched(l)
    requires j in a'.page && j in a.page && a'.page[j] == a.page[j]
    requires a.page[j].Of? ==> OnFrame(s', j, a.page[j].f) && ObjOf(a', a.page[j].f) == ObjOf(a, a.page[j].f)
    ensures CellOk(s', a', j)
  {
    assert CellOk(s, a, j);
    assert Views(s')[j] == Views(s)[j];
    if a.page[j].Mine? { assert j in OwnSet(s) && j in OwnSet(s'); }
  }

  /** An object that is there before and after keeps its contents, but for stores and refills. */
  lemma ObjectCarries(s: State, op: Op, f: nat)
    requires Inv(s) && Enabled(s, op) && !op.Store? && !op.Refill? && Object(s, f)
    requires SamePool(s, Apply(s, op)) && |Apply(s, op).mem| == |Apply(s, op).rc|
    ensures LookFrame(Apply(s, op), f) == LookFrame(s, f)
  {
    assert OwnerOk(s, f) && FrameOk(s, f) && Shape(s);
    if f < |s.rc| { MemOnlyFresh(s, op, f); }
  }

  lemma ObjectsOk(s: State, op: Op, a: Machine, a': Machine)
    requires Same(s, a) && Enabled(s, op) && !op.Store? && !op.Refill? && Inv(Apply(s, op)) && SamePool(s, Apply(s, op))
    requires forall f | Apply(s, op).held[f] > 0 :: s.held[f] > 0
    requires a'.obj == a.obj
    ensures forall f :: ObjectOk(Apply(s, op), a', f)
  {
    var s' := Apply(s, op);
    assert Shape(s') && Shape(s);
    hide Apply, Inv, Enabled, ObjectOk, CellOk, PickedOk;
    forall f
      ensures ObjectOk(s', a', f)
    {
      assert ObjectOk(s, a, f);
      ObjectOne(s, op, a, a', f);
    }
  }

  lemma ObjectOne(s: State, op: Op, a: Machine, a': Machine, f: nat)
    requires Inv(s) && Enabled(s, op) && !op.Store? && !op.Refill? && SamePool(s, Apply(s, op))
    requires |s.mem| == |s.rc| && |Apply(s, op).mem| == |Apply(s, op).rc| && Bytes(s.rc)
    requires (Apply(s, op).held[f] > 0 ==> s.held[f] > 0) && a'.obj == a.obj && ObjectOk(s, a, f)
    ensures ObjectOk(Apply(s, op), a', f)
  {
    hide Apply, Inv, Enabled, LookFrame;
    if Object(Apply(s, op), f) { ObjectCarries(s, op, f); }
  }

  /** The swap-out did not take more pages. */
  lemma PicksCarry(s: State, s': State, a: Machine, a': Machine)
    requires Same(s, a) && a'.page.Keys == s'.pt.Keys && (forall j :: CellOk(s', a', j))
    requires forall sl | sl in s'.batch :: sl in s.batch && s'.batch[sl].fr == s.batch[sl].fr
    requires forall j | j in a'.page && a'.page[j].Of? :: j in a.page && a.page[j] == a'.page[j]
    ensures forall sl, k :: PickedOk(s', a', sl, k)
  {
    forall sl, k
      ensures PickedOk(s', a', sl, k)
    {
      if sl in s'.batch && k in a'.page && a'.page[k].Of? {
        assert CellOk(s', a', k) && CellOk(s, a, k) && PickedOk(s, a, sl, k);
      }
    }
  }

  /** What is left to show when keepers, pool and objects of the machine stay. */
  lemma Carried(s: State, op: Op, a: Machine, a': Machine)
    requires Same(s, a) && Enabled(s, op) && !op.Store? && !op.Refill? && Inv(Apply(s, op)) && Fewer(s, Apply(s, op))
    requires a'.obj == a.obj && a'.page.Keys == Apply(s, op).pt.Keys && (forall j :: CellOk(Apply(s, op), a', j))
    requires forall j | j in a'.page && a'.page[j].Of? :: j in a.page && a.page[j] == a'.page[j]
    ensures Same(Apply(s, op), a')
  {
    hide Apply, CellOk;
    ObjectsOk(s, op, a, a');
    PicksCarry(s, Apply(s, op), a, a');
  }

  // ---------- the operations one by one ----------

  /** A page that shows an object stays on its frame, if the operation does not exchange its target. */
  lemma StaysOn(s: State, op: Op, a: Machine, j: Key)
    requires Same(s, a) && Enabled(s, op) && j in a.page && a.page[j].Of? && KeepsTarget(s, Apply(s, op), j)
    ensures OnFrame(Apply(s, op), j, a.page[j].f)
  {
    hide Apply;
    assert CellOk(s, a, j);
  }

  /** Operations that nobody sees and that the machine does not know. */
  predicate Unseen(op: Op) {
    || op.FaultIn? || op.Protect? || op.SetUser? || op.Touch? || op.NewTable? || op.FreeTable? || op.Release?
    || op.ReleaseSlot? || op.HoldMore? || op.Unhold? || op.WriteOut? || op.WriteFailed? || op.Commit? || op.SwapIn?
  }

  /** Where they could exchange a target, the page had contents of its own. */
  lemma UnseenStays(s: State, op: Op, a: Machine, j: Key)
    requires Same(s, a) && Enabled(s, op) && Unseen(op) && j in a.page && a.page[j].Of?
    ensures KeepsTarget(s, Apply(s, op), j)
  {
    assert CellOk(s, a, j) && Shape(s);
    if op.Commit? { assert PickedOk(s, a, op.sl, j); }
    hide Same, Inv, KeepsTarget, CellOk;
    if j !in Aimed(s, op) {
      hide Apply;
      StepTargets(s, op, j);
    } else {
      AimedStays(s, op, j);
    }
  }

  lemma AimedStays(s: State, op: Op, j: Key)
    requires |s.mem| == |s.rc| && Enabled(s, op) && Unseen(op) && j in Aimed(s, op) && IsPresent(s, j)
    requires op.Commit? ==> !OnFrame(s, s.batch[op.sl].key, s.batch[op.sl].fr)
    ensures KeepsTarget(s, Apply(s, op), j)
  {
    hide CommitPage, FaultInPage, SwapInPage, KeepsTarget;
    match op
    case Commit(sl) => CommitStays(s, sl, j);
    case FaultIn(k, f) =>
      PresentStays(s, k, f);
      KeptSelf(s, s, j);
    case SwapIn(k, f) =>
      PresentStays(s, k, f);
      KeptSelf(s, s, j);
  }

  lemma PresentStays(s: State, k: Key, f: nat)
    requires FreeFrame(s, f) && |s.mem| == |s.rc| && IsPresent(s, k)
    ensures FaultInPage(s, k, f) == s && SwapInPage(s, k, f) == s
  {
  }

  lemma CommitStays(s: State, sl: nat, j: Key)
    requires sl in s.batch && !OnFrame(s, s.batch[sl].key, s.batch[sl].fr)
    ensures KeepsTarget(s, CommitPage(s, sl), j)
  {
    hide EndPick;
    PickSame(s, sl, j, 0);
  }

  /** Keepers can only become fewer, and so can the pages that are swapped out. */
  lemma UnseenKeepers(s: State, op: Op)
    requires Inv(s) && Enabled(s, op) && Unseen(op)
    ensures Fewer(s, Apply(s, op))
  {
    assert Shape(s);
    hide Inv, Still, Fewer;
    if OnPage(op) {
      hide ApplyOnPage;
      PageStill(s, op);
      StillFewer(s, ApplyOnPage(s, op));
    } else {
      hide ApplyBehind;
      if op.NewTable? || op.FreeTable? || op.Release? || op.ReleaseSlot? || op.SwapIn? {
        BehindStill(s, op);
        StillFewer(s, ApplyBehind(s, op));
      } else {
        KeepersStep(s, op);
      }
    }
  }

  lemma HoldKeepers(s: State, f: nat)
    requires s.held[f] > 0
    ensures Fewer(s, HoldAgain(s, f)) && Fewer(s, HoldDropped(s, f))
  {
    hide Give, Again, SamePool;
    SmallStill(s, f, []);
    PoolSame(s, s, Again(s, f), HoldAgain(s, f));
    SmallStill(Unkeep(s, f), f, []);
    PoolSelf(s);
    PoolSame(s, Unkeep(s, f), Give(Unkeep(s, f), f), HoldDropped(s, f));
  }

  lemma WriteKeepers(s: State, sl: nat, junk: Page)
    requires sl in s.batch
    ensures Fewer(s, WritePick(s, sl)) && Fewer(s, FailPick(s, sl, junk))
  {
    hide SamePool;
    PoolEq(s, WritePick(s, sl));
    PoolEq(s, FailPick(s, sl, junk));
  }

  lemma KeepersStep(s: State, op: Op)
    requires |s.mem| == |s.rc| && Enabled(s, op)
    requires op.HoldMore? || op.Unhold? || op.WriteOut? || op.WriteFailed? || op.Commit?
    ensures Fewer(s, ApplyBehind(s, op))
  {
    match op
    case HoldMore(f) =>
      hide Fewer, HoldAgain;
      HoldKeepers(s, f);
    case Unhold(f) =>
      hide Fewer, HoldDropped;
      HoldKeepers(s, f);
    case WriteOut(sl) =>
      hide Fewer, WritePick;
      WriteKeepers(s, sl, []);
    case WriteFailed(sl, junk) =>
      hide Fewer, FailPick;
      WriteKeepers(s, sl, junk);
    case Commit(sl) =>
      hide CommitPage;
      CommitKeepers(s, sl);
  }

  lemma CommitKeepers(s: State, sl: nat)
    requires sl in s.batch
    ensures CommitPage(s, sl).rc == s.rc && CommitPage(s, sl).held == s.held
    ensures CommitPage(s, sl).batch == s.batch - {sl} && SamePool(s, CommitPage(s, sl))
  {
    hide SamePool, StillPicked, FrameOf, SlotOf;
    PoolEq(s, CommitPage(s, sl));
  }

  lemma UnseenQuiet(s: State, op: Op)
    requires |s.mem| == |s.rc| && Enabled(s, op) && Unseen(op)
    ensures LabelOf(s, op) == Quiet
  {
  }

  lemma QuietKeys(s: State, s': State)
    requires Good(s, s', Quiet)
    ensures s'.pt.Keys == s.pt.Keys
  {
    assert Views(s').Keys == s'.pt.Keys && Views(s).Keys == s.pt.Keys;
  }

  lemma UnseenStep(s: State, op: Op, a: Machine)
    requires Same(s, a) && Enabled(s, op) && Unseen(op)
    ensures Same(Apply(s, op), a)
  {
    var s' := Apply(s, op);
    StepGood(s, op);
    UnseenQuiet(s, op);
    UnseenKeepers(s, op);
    hide Apply, CellOk, LabelOf, OnFrame, Good, Same, Fewer;
    QuietKeys(s, s');
    SameKeys(s, a);
    forall j
      ensures CellOk(s', a, j)
    {
      if j in s'.pt && j in a.page {
        if a.page[j].Of? {
          UnseenStays(s, op, a, j);
          StaysOn(s, op, a, j);
        }
        CellCarries(s, s', Quiet, a, a, j);
      } else {
        NoCell(s', a, j);
      }
    }
    GoodInv(s, s', Quiet);
    Carried(s, op, a, a);
  }

  lemma SameKeys(s: State, a: Machine)
    requires Same(s, a)
    ensures a.page.Keys == s.pt.Keys && Inv(s)
  {
  }

  lemma NoCell(s: State, a: Machine, j: Key)
    requires !(j in s.pt && j in a.page)
    ensures CellOk(s, a, j)
  {
  }

  lemma GoodInv(s: State, s': State, l: Label)
    requires Good(s, s', l)
    ensures Inv(s')
  {
  }

  lemma Elsewhere(s: State, op: Op, l: Label, a: Machine, a': Machine, j: Key)
    requires Same(s, a) && Enabled(s, op) && Good(s, Apply(s, op), l) && j in Apply(s, op).pt && j in s.pt
    requires j !in Aimed(s, op) && j !in Touched(l)
    requires j in a.page && j in a'.page && a'.page[j] == a.page[j] && a'.obj == a.obj
    ensures CellOk(Apply(s, op), a', j)
  {
    SizesSame(s, a);
    hide Apply, CellOk, OnFrame, Good, Same;
    StepTargets(s, op, j);
    if a.page[j].Of? { StaysOn(s, op, a, j); }
    CellCarries(s, Apply(s, op), l, a, a', j);
  }

  lemma SizesSame(s: State, a: Machine)
    requires Same(s, a)
    ensures |s.mem| == |s.rc|
  {
  }

  lemma StillFewer(s: State, s': State)
    requires Still(s, s')
    ensures Fewer(s, s')
  {
  }

  /** Page `k` gets contents of its own. */
  lemma MineStep(s: State, op: Op, l: Label, a: Machine, k: Key, c: Content)
    requires Same(s, a) && Enabled(s, op) && !op.Store? && !op.Refill? && Good(s, Apply(s, op), l)
    requires Aimed(s, op) <= {k} && Touched(l) <= {k} && Apply(s, op).pt.Keys == s.pt.Keys + {k}
    requires Own(Apply(s, op), k) && Look(Apply(s, op), Apply(s, op).pt[k]) == c && Fewer(s, Apply(s, op))
    ensures Same(Apply(s, op), SetCell(a, k, Mine(c)))
  {
    var s', a' := Apply(s, op), SetCell(a, k, Mine(c));
    hide Apply, CellOk, Good, Same, Own, Fewer, Look, Aimed, Touched, Enabled, Inv, SetCell;
    SameKeys(s, a);
    GoodInv(s, s', l);
    MineKeys(a, k, c);
    forall j
      ensures CellOk(s', a', j)
    {
      MineElse(s, op, l, a, k, c, j);
    }
    Carried(s, op, a, a');
  }

  lemma MineKeys(a: Machine, k: Key, c: Content)
    ensures SetCell(a, k, Mine(c)).page.Keys == a.page.Keys + {k} && SetCell(a, k, Mine(c)).obj == a.obj
    ensures var a' := SetCell(a, k, Mine(c));
            forall j | j in a'.page && a'.page[j].Of? :: j in a.page && a.page[j] == a'.page[j]
  {
  }

  lemma MineElse(s: State, op: Op, l: Label, a: Machine, k: Key, c: Content, j: Key)
    requires Same(s, a) && Enabled(s, op) && Good(s, Apply(s, op), l)
    requires Aimed(s, op) <= {k} && Touched(l) <= {k} && Apply(s, op).pt.Keys == s.pt.Keys + {k}
    requires Own(Apply(s, op), k) && Look(Apply(s, op), Apply(s, op).pt[k]) == c
    ensures CellOk(Apply(s, op), SetCell(a, k, Mine(c)), j)
  {
    hide Apply, CellOk, Good, Same, Own, Look, Aimed, Touched, Enabled;
    SameKeys(s, a);
    if j == k {
      MineCell(Apply(s, op), a, k, c);
    } else if j in Apply(s, op).pt {
      Elsewhere(s, op, l, a, SetCell(a, k, Mine(c)), j);
    } else {
      NoCell(Apply(s, op), SetCell(a, k, Mine(c)), j);
    }
  }

  lemma MineCell(s: State, a: Machine, k: Key, c: Content)
    requires k in s.pt && Own(s, k) && Look(s, s.pt[k]) == c
    ensures CellOk(s, SetCell(a, k, Mine(c)), k)
  {
  }

  /** Page `k` is gone. */
  lemma GoneStep(s: State, op: Op, a: Machine, k: Key)
    requires Same(s, a) && Enabled(s, op) && (op == Unmap(k) || op == UnmapLater(k))
    ensures Same(Apply(s, op), a.(page := a.page - {k}))
  {
    var s', a' := Apply(s, op), a.(page := a.page - {k});
    SizesSame(s, a);
    SameKeys(s, a);
    StepGood(s, op);
    PageStill(s, op);
    assert LabelOf(s, op) == Gone(k) && Still(s, s') && Aimed(s, op) == {k};
    hide Apply, CellOk, Good, Same, Still, LabelOf, Fewer, Inv;
    GoneKeys(s, s', k);
    StillFewer(s, s');
    GoodInv(s, s', Gone(k));
    forall j
      ensures CellOk(s', a', j)
    {
      if j in s'.pt { Elsewhere(s, op, Gone(k), a, a', j); } else { NoCell(s', a', j); }
    }
    Carried(s, op, a, a');
  }

  lemma GoneKeys(s: State, s': State, k: Key)
    requires Good(s, s', Gone(k))
    ensures s'.pt.Keys == s.pt.Keys - {k}
  {
    assert Views(s').Keys == s'.pt.Keys && Views(s).Keys == s.pt.Keys;
  }

  /** A page on a frame that was free just now belongs to its space. */
  lemma FreshOwn(s: State, s': State, k: Key, f: nat)
    requires Inv(s) && FreeFrame(s, f) && s'.held == s.held && OnFrame(s', k, f) && !s'.pt[k].shared
    requires forall j | j != k :: KeepsTarget(s, s', j)
    ensures Own(s', k)
  {
    assert FrameOk(s, f) && Count(s, f) == 0 && KeysOn(s.pt, f) == {};
    forall j
      ensures !SharedOn(s'.pt, j, f)
    {
      if j != k { assert KeepsTarget(s, s', j) && j !in KeysOn(s.pt, f); }
    }
  }

  lemma ReserveStep(s: State, op: Op, a: Machine, k: Key, rw: bool, us: bool)
    requires Same(s, a) && op == Reserve(k, rw, us)
    ensures Same(Apply(s, op), SetCell(a, k, Mine(Data(ZeroPage()))))
  {
    SizesSame(s, a);
    SameKeys(s, a);
    StepGood(s, op);
    PageStill(s, op);
    var s' := Apply(s, op);
    assert s'.pt[k] == Lazy(rw, us) && Own(s', k);
    SetKeys(s, s', k, Data(ZeroPage()));
    assert Still(s, s') && Good(s, s', Set(k, Data(ZeroPage())));
    hide Apply, Good, Same, Still, Own, Fewer, Look;
    StillFewer(s, s');
    MineStep(s, op, Set(k, Data(ZeroPage())), a, k, Data(ZeroPage()));
  }

  lemma SetKeys(s: State, s': State, k: Key, c: Content)
    requires Good(s, s', Set(k, c))
    ensures s'.pt.Keys == s.pt.Keys + {k} && Look(s', s'.pt[k]) == c
  {
    assert Views(s').Keys == s'.pt.Keys && Views(s).Keys == s.pt.Keys;
    assert Views(s')[k] == c;
  }

  /** A page that was not there: zeros in a frame of its own. */
  lemma PopulateNew(s: State, op: Op, a: Machine, k: Key, f: nat, w: bool)
    requires Same(s, a) && op == Populate(k, f, w) && Enabled(s, op) && k !in s.pt
    ensures Same(Apply(s, op), SetCell(a, k, Mine(Data(ZeroPage()))))
  {
    var s' := Apply(s, op);
    hide Apply, Good, Same, Still, Fewer, Look, LabelOf, KeepsTarget, Inv, Own;
    SizesSame(s, a);
    SameKeys(s, a);
    StepGood(s, op);
    StepStill(s, op);
    NewFacts(s, op, k, f, w);
    forall j | j != k ensures KeepsTarget(s, s', j) { StepTargets(s, op, j); }
    FreshOwn(s, s', k, f);
    SetKeys(s, s', k, Data(ZeroPage()));
    StillFewer(s, s');
    MineStep(s, op, Set(k, Data(ZeroPage())), a, k, Data(ZeroPage()));
  }

  lemma StepStill(s: State, op: Op)
    requires |s.mem| == |s.rc| && Enabled(s, op) && OnPage(op)
    ensures Still(s, Apply(s, op)) && Apply(s, op).held == s.held
  {
    PageStill(s, op);
  }

  lemma NewFacts(s: State, op: Op, k: Key, f: nat, w: bool)
    requires op == Populate(k, f, w) && Enabled(s, op) && k !in s.pt && |s.mem| == |s.rc|
    ensures FreeFrame(s, f) && LabelOf(s, op) == Set(k, Data(ZeroPage()))
    ensures OnFrame(Apply(s, op), k, f) && !Apply(s, op).pt[k].shared
  {
    NewEntry(s, k, f, w);
  }

  lemma NewEntry(s: State, k: Key, f: nat, w: bool)
    requires FreeFrame(s, f) && |s.mem| == |s.rc| && k !in s.pt
    ensures OnFrame(PopulatePage(s, k, f, w), k, f) && !PopulatePage(s, k, f, w).pt[k].shared
  {
  }

  /** A page that was there keeps its contents, and its frame if it has one. */
  lemma PopulateOld(s: State, op: Op, a: Machine, k: Key, f: nat, w: bool)
    requires Same(s, a) && op == Populate(k, f, w) && Enabled(s, op) && k in s.pt
    ensures Same(Apply(s, op), a)
  {
    SizesSame(s, a);
    StepGood(s, op);
    PageStill(s, op);
    assert Still(s, Apply(s, op)) && LabelOf(s, op) == Quiet && CellOk(s, a, k);
    if k in a.page && a.page[k].Of? { OldEntry(s, k, f, w); }
    hide Apply, Good, Same, Still, Fewer, LabelOf, KeepsTarget, CellOk;
    StillFewer(s, Apply(s, op));
    QuietCarries(s, op, a, k);
  }

  lemma OldEntry(s: State, k: Key, f: nat, w: bool)
    requires FreeFrame(s, f) && |s.mem| == |s.rc| && IsPresent(s, k)
    ensures KeepsTarget(s, PopulatePage(s, k, f, w), k)
  {
    hide MakeWritable;
    WritableTargets(s, k, k);
  }

  /** An operation that nobody sees, and that leaves page `k` on its object. */
  lemma QuietCarries(s: State, op: Op, a: Machine, k: Key)
    requires Same(s, a) && Enabled(s, op) && !op.Store? && !op.Refill? && Good(s, Apply(s, op), Quiet)
    requires Fewer(s, Apply(s, op)) && Aimed(s, op) <= {k}
    requires k in a.page && a.page[k].Of? ==> KeepsTarget(s, Apply(s, op), k)
    ensures Same(Apply(s, op), a)
  {
    var s' := Apply(s, op);
    hide Apply, CellOk, Good, Same, Fewer, KeepsTarget, OnFrame;
    QuietKeys(s, s');
    SameKeys(s, a);
    SizesSame(s, a);
    GoodInv(s, s', Quiet);
    forall j
      ensures CellOk(s', a, j)
    {
      if j in s'.pt && j in a.page {
        if a.page[j].Of? {
          if j != k { StepTargets(s, op, j); }
          StaysOn(s, op, a, j);
        }
        CellCarries(s, s', Quiet, a, a, j);
      } else {
        NoCell(s', a, j);
      }
    }
    Carried(s, op, a, a);
  }

  /** Copy on write: the page stays where it is, or goes on with a copy of its own. */
  lemma CowStep(s: State, op: Op, a: Machine, k: Key, f: nat) returns (act: bool)
    requires Same(s, a) && op == Cow(k, f) && Enabled(s, op)
    ensures Same(Apply(s, op), Act(a, op, act))
  {
    var s' := Apply(s, op);
    hide Apply, Good, Same, Still, Fewer, Look, LabelOf, KeepsTarget, CellOk, Own, Inv;
    SizesSame(s, a);
    SameKeys(s, a);
    StepGood(s, op);
    StepStill(s, op);
    CowFacts(s, op, k, f);
    act := !KeepsTarget(s, s', k);
    QuietKeys(s, s');
    StillFewer(s, s');
    if act {
      forall j | j != k ensures KeepsTarget(s, s', j) { StepTargets(s, op, j); }
      FreshOwn(s, s', k, f);
      ShownStill(s, s', a, k);
      assert s'.pt.Keys == s.pt.Keys + {k};
      MineStep(s, op, Quiet, a, k, Show(a, k));
    } else {
      QuietCarries(s, op, a, k);
    }
  }

  lemma CowFacts(s: State, op: Op, k: Key, f: nat)
    requires Inv(s) && op == Cow(k, f) && Enabled(s, op)
    ensures FreeFrame(s, f) && LabelOf(s, op) == Quiet
    ensures !KeepsTarget(s, Apply(s, op), k) ==>
      k in s.pt && OnFrame(Apply(s, op), k, f) && !Apply(s, op).pt[k].shared
  {
    assert KeyOk(s, k) && Shape(s);
    hide Inv, KeepsTarget, CowFault;
    if !KeepsTarget(s, CowFault(s, k, f), k) { CowMoved(s, k, f); }
  }

  lemma CowMoved(s: State, k: Key, f: nat)
    requires FreeFrame(s, f) && |s.mem| == |s.rc| && KeyOk(s, k) && !KeepsTarget(s, CowFault(s, k, f), k)
    ensures k in s.pt && OnFrame(CowFault(s, k, f), k, f) && !CowFault(s, k, f).pt[k].shared
  {
    hide Give;
    if IsPresent(s, k) && s.pt[k].cow && s.pt[k].fr < |s.rc| {
      var e := s.pt[k];
      if s.rc[e.fr] != 1 {
        var t := Bind(Unbind(Take(s, f, s.mem[e.fr]), k), k, Present(f, true, false, e.shared, e.us, e.acc));
        PtSame(t, e.fr, []);
      }
    }
  }

  /** After a step that nobody sees, the page shows what the machine shows. */
  lemma ShownStill(s: State, s': State, a: Machine, k: Key)
    requires Same(s, a) && Good(s, s', Quiet) && k in s.pt && k in s'.pt
    ensures k in a.page && Look(s', s'.pt[k]) == Show(a, k)
  {
    assert CellOk(s, a, k);
    assert Views(s')[k] == Views(s)[k];
  }

  lemma DiscardStep(s: State, op: Op, a: Machine, k: Key) returns (act: bool)
    requires Same(s, a) && op == Discard(k)
    ensures Same(Apply(s, op), Act(a, op, act))
  {
    SizesSame(s, a);
    SameKeys(s, a);
    StepGood(s, op);
    BehindStill(s, op);
    var s' := Apply(s, op);
    act := IsPresent(s, k) && s.pt[k].rw && !s.pt[k].shared;
    if act {
      assert s'.pt[k] == Lazy(true, s.pt[k].us) && Own(s', k);
      assert Still(s, s') && LabelOf(s, op) == Set(k, Data(ZeroPage()));
      hide Apply, Good, Same, Still, Fewer, Look, LabelOf, Own;
      SetKeys(s, s', k, Data(ZeroPage()));
      StillFewer(s, s');
      MineStep(s, op, Set(k, Data(ZeroPage())), a, k, Data(ZeroPage()));
    }
  }

  // ---------- objects ----------

  /** Page `k` shows object `f` now. */
  lemma AttachStep(s: State, op: Op, a: Machine, k: Key, f: nat)
    requires Same(s, a) && Enabled(s, op)
    requires Attaches(op, k, f)
    ensures Same(Apply(s, op), SetCell(a, k, Of(f)))
  {
    var s', a', l := Apply(s, op), SetCell(a, k, Of(f)), Set(k, LookFrame(s, f));
    hide Apply, Good, Same, Still, Fewer, Look, LabelOf, Own, CellOk, Inv, SetCell, OnFrame, Object, Enabled, Aimed;
    OfKeys(a, k, f);
    SizesSame(s, a);
    SameKeys(s, a);
    StepGood(s, op);
    StepStill(s, op);
    MapFacts(s, op, k, f);
    ObjectShown(s, a, f);
    SetKeys(s, s', k, LookFrame(s, f));
    GoodInv(s, s', l);
    StillFewer(s, s');
    forall j
      ensures CellOk(s', a', j)
    {
      if j == k {
        SameObjects(a, a', f);
        OfCell(s', a', k, f);
      } else if j in s'.pt {
        Elsewhere(s, op, l, a, a', j);
      } else {
        NoCell(s', a', j);
      }
    }
    AttachObjects(s, op, a, a', k, f);
  }

  lemma MapFacts(s: State, op: Op, k: Key, f: nat)
    requires Inv(s) && Enabled(s, op)
    requires Attaches(op, k, f)
    ensures Object(s, f) && LabelOf(s, op) == Set(k, LookFrame(s, f)) && OnFrame(Apply(s, op), k, f)
    ensures Aimed(s, op) == {k} && (forall sl | sl in s.batch :: s.batch[sl].fr != f)
  {
    assert Shape(s);
    ObjectNotPicked(s, f);
    hide Inv, Apply, LabelOf, Enabled, OnFrame, Aimed, Object;
    MapLabel(s, op, k, f);
    MapLands(s, op, k, f);
  }

  predicate Attaches(op: Op, k: Key, f: nat) {
    (op.MapShared? && op.k == k && op.f == f) || (op.MapCache? && op.k == k && op.f == f)
  }

  lemma MapLabel(s: State, op: Op, k: Key, f: nat)
    requires |s.mem| == |s.rc| && Enabled(s, op) && Attaches(op, k, f)
    ensures Object(s, f) && LabelOf(s, op) == Set(k, LookFrame(s, f)) && Aimed(s, op) == {k}
  {
  }

  lemma MapLands(s: State, op: Op, k: Key, f: nat)
    requires |s.mem| == |s.rc| && Enabled(s, op) && Attaches(op, k, f)
    ensures OnFrame(Apply(s, op), k, f)
  {
    hide MapPage, OnFrame;
    match op
    case MapShared(_, _, rw) => MapEntry(s, k, SharedEntry(f, rw));
    case MapCache(_, _, w, shared) => MapEntry(s, k, CacheEntry(f, w, shared));
  }

  lemma ObjectNotPicked(s: State, f: nat)
    requires Inv(s)
    ensures Object(s, f) ==> forall sl | sl in s.batch :: s.batch[sl].fr != f
  {
    forall sl | sl in s.batch ensures Object(s, f) ==> s.batch[sl].fr != f { assert PickOk(s, sl); }
  }

  lemma MapEntry(s: State, k: Key, e: Entry)
    requires e.Present?
    ensures OnFrame(MapPage(s, k, e), k, e.fr)
  {
    hide Clear, Again;
  }

  lemma OfKeys(a: Machine, k: Key, f: nat)
    ensures var a' := SetCell(a, k, Of(f));
            && a'.page.Keys == a.page.Keys + {k} && a'.obj == a.obj && a'.page[k] == Of(f)
            && forall j | j in a.page && j != k :: a'.page[j] == a.page[j]
  {
  }

  lemma ObjectShown(s: State, a: Machine, f: nat)
    requires Same(s, a) && Object(s, f)
    ensures ObjOf(a, f) == LookFrame(s, f)
  {
    assert ObjectOk(s, a, f);
  }

  lemma SameObjects(a: Machine, a': Machine, f: nat)
    requires a'.obj == a.obj
    ensures ObjOf(a', f) == ObjOf(a, f)
  {
  }

  lemma OfCell(s: State, a: Machine, k: Key, f: nat)
    requires OnFrame(s, k, f) && k in a.page && a.page[k] == Of(f) && ObjOf(a, f) == Look(s, s.pt[k])
    ensures CellOk(s, a, k)
  {
  }

  lemma AttachObjects(s: State, op: Op, a: Machine, a': Machine, k: Key, f: nat)
    requires Same(s, a) && Enabled(s, op) && !op.Store? && !op.Refill? && Inv(Apply(s, op)) && Fewer(s, Apply(s, op))
    requires a' == SetCell(a, k, Of(f)) && a'.page.Keys == Apply(s, op).pt.Keys
    requires forall j :: CellOk(Apply(s, op), a', j)
    requires forall sl | sl in s.batch :: s.batch[sl].fr != f
    ensures Same(Apply(s, op), a')
  {
    hide Apply, CellOk, PickedOk;
    ObjectsOk(s, op, a, a');
    AttachPicks(s, Apply(s, op), a, a', k, f);
  }

  lemma AttachPicks(s: State, s': State, a: Machine, a': Machine, k: Key, f: nat)
    requires Same(s, a) && Fewer(s, s') && a' == SetCell(a, k, Of(f)) && forall j :: CellOk(s', a', j)
    requires forall sl | sl in s.batch :: s.batch[sl].fr != f
    ensures forall sl, j :: PickedOk(s', a', sl, j)
  {
    hide CellOk, Inv;
    forall sl, j
      ensures PickedOk(s', a', sl, j)
    {
      if sl in s'.batch && j in a'.page && a'.page[j].Of? {
        assert PickedOk(s, a, sl, j) && CellOk(s', a', j) && CellOk(s, a, j);
        PickedOne(s, s', a, a', sl, j);
      }
    }
  }

  lemma PickedOne(s: State, s': State, a: Machine, a': Machine, sl: nat, j: Key)
    requires CellOk(s', a', j) && j in a'.page && a'.page[j].Of? && sl in s.batch && sl in s'.batch
    requires s'.batch[sl].fr == s.batch[sl].fr && PickedOk(s, a, sl, j)
    requires s.batch[sl].fr != a'.page[j].f || (j in a.page && a.page[j] == a'.page[j] && CellOk(s, a, j) && j in s.pt)
    ensures PickedOk(s', a', sl, j)
  {
  }

  // ---------- contents of objects ----------

  function PutObj(a: Machine, f: nat, p: Page): Machine {
    a.(obj := a.obj[f := Data(p)])
  }

  /** No page with contents of its own is on frame `f`. */
  ghost predicate NoneOwns(s: State, a: Machine, f: nat) {
    forall j | j in a.page && a.page[j].Mine? :: !OnFrame(s, j, f)
  }

  /** New contents for a frame that is an object. */
  lemma PutStep(s: State, a: Machine, f: nat, p: Page)
    requires Same(s, a) && f < |s.mem| && NoneOwns(s, a, f) && Inv(SetMem(s, f, p))
    ensures Same(SetMem(s, f, p), PutObj(a, f, p))
  {
    var s', a' := SetMem(s, f, p), PutObj(a, f, p);
    forall j
      ensures CellOk(s', a', j)
    {
      assert CellOk(s, a, j);
    }
    forall g
      ensures ObjectOk(s', a', g)
    {
      assert ObjectOk(s, a, g);
    }
    forall sl, j
      ensures PickedOk(s', a', sl, j)
    {
      assert PickedOk(s, a, sl, j);
    }
  }

  lemma RefillStep(s: State, op: Op, a: Machine, f: nat, p: Page)
    requires Same(s, a) && op == Refill(f, p) && Enabled(s, op)
    ensures Same(Apply(s, op), PutObj(a, f, p))
  {
    assert OwnerOk(s, f) && Shape(s);
    StepGood(s, op);
    NoneOwnsKept(s, a, f);
    PutStep(s, a, f, p);
  }

  lemma NoneOwnsKept(s: State, a: Machine, f: nat)
    requires Same(s, a) && (Ours(s.rc, f) ==> Common(s, f))
    ensures NoneOwns(s, a, f)
  {
    OwnApart(s, f);
    forall j | j in a.page && a.page[j].Mine? ensures !OnFrame(s, j, f) { assert CellOk(s, a, j); }
  }

  /** A store goes to the page, or to the object it shows. */
  lemma StoreStep(s: State, op: Op, a: Machine, k: Key, p: Page)
    requires Same(s, a) && op == Store(k, p) && Enabled(s, op)
    ensures Same(Apply(s, op), Write(a, k, p))
  {
    var f := s.pt[k].fr;
    assert CellOk(s, a, k) && KeyOk(s, k);
    StepGood(s, op);
    if a.page[k].Of? {
      if s.pt[k].shared { SharedCommon(s, k); NoneOwnsKept(s, a, f); } else { SoleOwns(s, a, k); }
      PutStep(s, a, f, p);
    } else {
      StoreMine(s, a, k, p);
    }
  }

  lemma SharedCommon(s: State, k: Key)
    requires IsPresent(s, k) && s.pt[k].shared
    ensures Common(s, s.pt[k].fr)
  {
    assert SharedOn(s.pt, k, s.pt[k].fr);
  }

  /** A private page that can be written is the only one on its frame. */
  lemma SoleOnFrame(s: State, k: Key, j: Key)
    requires Inv(s) && IsPresent(s, k) && s.pt[k].rw && !s.pt[k].shared && OnFrame(s, j, s.pt[k].fr)
    ensures j == k
  {
    assert KeyOk(s, k);
    SoleKey(s, k);
    assert j in KeysOn(s.pt, s.pt[k].fr);
  }

  lemma SoleOwns(s: State, a: Machine, k: Key)
    requires Same(s, a) && IsPresent(s, k) && s.pt[k].rw && !s.pt[k].shared && k in a.page && a.page[k].Of?
    ensures NoneOwns(s, a, s.pt[k].fr)
  {
    forall j | j in a.page && a.page[j].Mine?
      ensures !OnFrame(s, j, s.pt[k].fr)
    {
      if OnFrame(s, j, s.pt[k].fr) { SoleOnFrame(s, k, j); }
    }
  }

  lemma StoreMine(s: State, a: Machine, k: Key, p: Page)
    requires Same(s, a) && IsPresent(s, k) && s.pt[k].rw && s.pt[k].fr < |s.mem| && k in a.page && a.page[k].Mine?
    requires Inv(SetMem(s, s.pt[k].fr, p))
    ensures Same(SetMem(s, s.pt[k].fr, p), SetCell(a, k, Mine(Data(p))))
  {
    var f, s', a' := s.pt[k].fr, SetMem(s, s.pt[k].fr, p), SetCell(a, k, Mine(Data(p)));
    assert CellOk(s, a, k) && KeyOk(s, k);
    assert !Object(s, f);
    forall j
      ensures CellOk(s', a', j)
    {
      assert CellOk(s, a, j);
      if OnFrame(s, j, f) { SoleOnFrame(s, k, j); }
    }
    forall g
      ensures ObjectOk(s', a', g)
    {
      assert ObjectOk(s, a, g);
    }
    forall sl, j
      ensures PickedOk(s', a', sl, j)
    {
      assert PickedOk(s, a, sl, j);
    }
  }

  /** A keeper takes a free frame: a new object. */
  lemma HoldStep(s: State, op: Op, a: Machine, f: nat, p: Page)
    requires Same(s, a) && op == Hold(f, p) && Enabled(s, op)
    ensures Same(Apply(s, op), PutObj(a, f, p))
  {
    StepGood(s, op);
    HoldFacts(s, f, p);
    assert Good(s, HoldFrame(s, f, p), Quiet) && Apply(s, op) == HoldFrame(s, f, p);
    hide Apply, HoldFrame, Good;
    HoldSame(s, HoldFrame(s, f, p), a, f, p);
  }

  lemma HoldSame(s: State, s': State, a: Machine, f: nat, p: Page)
    requires Same(s, a) && Good(s, s', Quiet) && f < |s.rc| && s.rc[f] == 0 && |s.mem| == |s.rc|
    requires s'.pt == s.pt && s'.batch == s.batch && s'.held == s.held + multiset{f} && s'.rc == s.rc[f := 1]
    requires s'.mem == s.mem[f := p] && (forall j :: !OnFrame(s, j, f))
    ensures Same(s', PutObj(a, f, p))
  {
    var a' := PutObj(a, f, p);
    GoodInv(s, s', Quiet);
    hide Inv, Good, Own;
    forall j
      ensures CellOk(s', a', j)
    {
      assert CellOk(s, a, j) && !OnFrame(s, j, f);
      if j in a.page && j in s.pt && a.page[j].Mine? { HeldApart(s, s', j); }
    }
    forall g
      ensures ObjectOk(s', a', g)
    {
      assert ObjectOk(s, a, g);
    }
    forall sl, j
      ensures PickedOk(s', a', sl, j)
    {
      assert PickedOk(s, a, sl, j);
    }
  }

  lemma HoldFacts(s: State, f: nat, p: Page)
    requires Inv(s) && FreeFrame(s, f)
    ensures var s' := HoldFrame(s, f, p);
            && s'.pt == s.pt && s'.batch == s.batch && s'.held == s.held + multiset{f} && s'.rc == s.rc[f := 1]
            && s'.mem == s.mem[f := p] && s'.disk == s.disk
    ensures forall j :: !OnFrame(s, j, f)
  {
    assert FrameOk(s, f) && KeysOn(s.pt, f) == {};
    forall j ensures !OnFrame(s, j, f) { assert j !in KeysOn(s.pt, f); }
  }

  lemma HeldApart(s: State, s': State, j: Key)
    requires Good(s, s', Quiet) && Own(s, j)
    ensures Own(s', j) && j in s'.pt && Look(s', s'.pt[j]) == Look(s, s.pt[j])
  {
    assert j in OwnSet(s) && j in OwnSet(s');
    assert Views(s')[j] == Views(s)[j];
  }

  // ---------- fork and swap-out ----------

  /** A forked page has its own copy of the contents, or shows the same object. */
  lemma CloneStep(s: State, op: Op, a: Machine, k: Key, child: nat)
    requires Same(s, a) && op == ClonePage(k, child) && Enabled(s, op) && k in s.pt
    ensures k in a.page && Same(Apply(s, op), SetCell(a, Key(child, k.va), a.page[k]))
  {
    var s', k2, l := Apply(s, op), Key(child, k.va), Copy(k, Key(child, k.va));
    SameKeys(s, a);
    var a' := SetCell(a, k2, a.page[k]);
    CopyFacts(s, op, a, k, child);
    hide Apply, Good, Same, Still, Fewer, Look, LabelOf, Own, CellOk, Inv, Aimed;
    SizesSame(s, a);
    StepStill(s, op);
    StillFewer(s, s');
    forall j
      ensures CellOk(s', a', j)
    {
      if j != k2 {
        if j in s'.pt { Elsewhere(s, op, l, a, a', j); } else { NoCell(s', a', j); }
      }
    }
    CloneSame(s, op, a, a', k, k2);
  }

  lemma CopyFacts(s: State, op: Op, a: Machine, k: Key, child: nat)
    requires Same(s, a) && op == ClonePage(k, child) && Enabled(s, op) && k in s.pt
    ensures k in a.page && Good(s, Apply(s, op), Copy(k, Key(child, k.va))) && Inv(Apply(s, op))
    ensures Aimed(s, op) == {Key(child, k.va)} && Apply(s, op).pt.Keys == s.pt.Keys + {Key(child, k.va)}
    ensures CellOk(Apply(s, op), SetCell(a, Key(child, k.va), a.page[k]), Key(child, k.va))
  {
    var s', k2 := Apply(s, op), Key(child, k.va);
    SizesSame(s, a);
    StepGood(s, op);
    ForkCopies(s, k, child);
    ForkedEntry(s, k, child);
    assert CellOk(s, a, k) && Views(s')[k2] == Views(s)[k];
    assert Views(s').Keys == s'.pt.Keys && Views(s).Keys == s.pt.Keys;
    hide Inv, Clone;
  }

  lemma ForkedEntry(s: State, k: Key, child: nat)
    requires k in s.pt
    ensures Key(child, k.va) in Clone(s, k, child).pt
    ensures SameTarget(s.pt[k], Clone(s, k, child).pt[Key(child, k.va)])
  {
  }

  lemma CloneSame(s: State, op: Op, a: Machine, a': Machine, k: Key, k2: Key)
    requires Same(s, a) && Enabled(s, op) && !op.Store? && !op.Refill? && Inv(Apply(s, op)) && Fewer(s, Apply(s, op))
    requires k in a.page && k2 !in a.page && a' == SetCell(a, k2, a.page[k]) && a'.page.Keys == Apply(s, op).pt.Keys
    requires forall j :: CellOk(Apply(s, op), a', j)
    ensures Same(Apply(s, op), a')
  {
    var s' := Apply(s, op);
    hide Apply, CellOk;
    ObjectsOk(s, op, a, a');
    ClonePicks(s, s', a, a', k, k2);
  }

  /** If the new page were on its way to disk, so would the old one. */
  lemma ClonePicks(s: State, s': State, a: Machine, a': Machine, k: Key, k2: Key)
    requires Same(s, a) && Fewer(s, s') && k in a.page && k2 !in a.page && a' == SetCell(a, k2, a.page[k])
    requires forall j :: CellOk(s', a', j)
    ensures forall sl, j :: PickedOk(s', a', sl, j)
  {
    hide Inv;
    forall sl, j
      ensures PickedOk(s', a', sl, j)
    {
      if sl in s'.batch && j in a'.page && a'.page[j].Of? {
        var i := if j == k2 then k else j;
        assert PickedOk(s, a, sl, i) && CellOk(s', a', j) && CellOk(s, a, i);
      }
    }
  }

  /** The scan: a page that is picked has contents of its own from now on. */
  lemma PickStep(s: State, op: Op, a: Machine, k: Key, sl: nat) returns (act: bool)
    requires Same(s, a) && op == PickPage(k, sl) && Enabled(s, op)
    ensures Same(Apply(s, op), Act(a, op, act))
  {
    var s' := Apply(s, op);
    PickFacts(s, op, k, sl);
    SameKeys(s, a);
    SizesSame(s, a);
    act := s'.batch != s.batch;
    hide Apply, Good, Same, Fewer, Look, LabelOf, CellOk, Inv, Enabled;
    QuietKeys(s, s');
    if act {
      PickedCells(s, op, a, k, sl);
    } else {
      BatchFewer(s, s');
      QuietCarries(s, op, a, k);
    }
  }

  lemma BatchFewer(s: State, s': State)
    requires SamePool(s, s') && s'.held == s.held && s'.batch == s.batch
    ensures Fewer(s, s')
  {
  }

  lemma PickFacts(s: State, op: Op, k: Key, sl: nat)
    requires Inv(s) && op == PickPage(k, sl) && Enabled(s, op)
    ensures var s' := Apply(s, op);
            && Good(s, s', Quiet) && SamePool(s, s') && s'.held == s.held && Aimed(s, op) == {}
            && (forall j :: KeepsTarget(s, s', j))
    ensures Apply(s, op).batch != s.batch ==>
      IsPresent(s, k) && Own(s, k) && Apply(s, op).batch == s.batch[sl := Pick(k, s.pt[k].fr, false)]
      && KeysOn(s.pt, s.pt[k].fr) == {k}
  {
    StepGood(s, op);
    assert Shape(s);
    ScanKeepers(s, k, sl);
    if Scan(s, k, sl).batch != s.batch { ScanSole(s, k, sl); }
    hide Inv, Scan, KeepsTarget;
    forall j ensures KeepsTarget(s, Apply(s, op), j) { ScanTargets(s, k, sl, j); }
  }

  lemma ScanKeepers(s: State, k: Key, sl: nat)
    ensures SamePool(s, Scan(s, k, sl)) && Scan(s, k, sl).held == s.held
    ensures Scan(s, k, sl).batch != s.batch ==>
      IsPresent(s, k) && Scan(s, k, sl).batch == s.batch[sl := Pick(k, s.pt[k].fr, false)]
      && Ours(s.rc, s.pt[k].fr) && s.rc[s.pt[k].fr] == 1 && !s.pt[k].shared
  {
    hide Again, Bits, Reflag, SamePool;
    PoolSelf(s);
    if IsPresent(s, k) {
      var e := s.pt[k];
      EntryStill(s, k, Present(e.fr, e.rw, e.cow, e.shared, e.us, false));
      var t := Reflag(TakeSlot(s, sl), k, Bits(e, false, true));
      EntryStill(TakeSlot(s, sl), k, Bits(e, false, true));
      SmallStill(t, e.fr, []);
      StillThen(TakeSlot(s, sl), t, Again(t, e.fr));
      PoolSame(s, TakeSlot(s, sl), Again(t, e.fr), StartPick(Again(t, e.fr), sl, k, e.fr));
    }
  }

  lemma ScanSole(s: State, k: Key, sl: nat)
    requires Inv(s) && IsPresent(s, k) && Ours(s.rc, s.pt[k].fr) && s.rc[s.pt[k].fr] == 1 && !s.pt[k].shared
    ensures Own(s, k) && KeysOn(s.pt, s.pt[k].fr) == {k}
  {
    assert FrameOk(s, s.pt[k].fr) && KeyOk(s, k);
    SoleKey(s, k);
    forall j
      ensures !SharedOn(s.pt, j, s.pt[k].fr)
    {
      if j != k { assert j !in KeysOn(s.pt, s.pt[k].fr); }
    }
  }

  lemma PickedCells(s: State, op: Op, a: Machine, k: Key, sl: nat)
    requires Same(s, a) && op == PickPage(k, sl) && Enabled(s, op) && IsPresent(s, k) && Own(s, k) && k in a.page
    requires Good(s, Apply(s, op), Quiet) && SamePool(s, Apply(s, op)) && Apply(s, op).held == s.held
    requires (forall j :: KeepsTarget(s, Apply(s, op), j)) && KeysOn(s.pt, s.pt[k].fr) == {k}
    requires Apply(s, op).batch == s.batch[sl := Pick(k, s.pt[k].fr, false)]
    ensures Same(Apply(s, op), Detach(a, k))
  {
    var s', a' := Apply(s, op), Detach(a, k);
    hide Apply, Good, Fewer, CellOk, Inv, Own, Look, Enabled, SamePool;
    SameKeys(s, a);
    QuietKeys(s, s');
    GoodInv(s, s', Quiet);
    HeldApart(s, s', k);
    ShownStill(s, s', a, k);
    forall j
      ensures CellOk(s', a', j)
    {
      if j == k { MineCell(s', a, k, Show(a, k)); } else { PickedElse(s, op, a, k, j); }
    }
    ObjectsOk(s, op, a, a');
    PickedPicks(s, s', a, a', k, sl);
  }

  lemma PickedElse(s: State, op: Op, a: Machine, k: Key, j: Key)
    requires Same(s, a) && Enabled(s, op) && Good(s, Apply(s, op), Quiet) && KeepsTarget(s, Apply(s, op), j) && j != k
    ensures CellOk(Apply(s, op), Detach(a, k), j)
  {
    hide Apply, Good, CellOk, Enabled;
    SameKeys(s, a);
    QuietKeys(s, Apply(s, op));
    hide Same;
    if j in s.pt {
      if a.page[j].Of? { StaysOn(s, op, a, j); }
      CellCarries(s, Apply(s, op), Quiet, a, Detach(a, k), j);
    } else {
      NoCell(Apply(s, op), Detach(a, k), j);
    }
  }

  lemma PickedPicks(s: State, s': State, a: Machine, a': Machine, k: Key, sl: nat)
    requires Same(s, a) && IsPresent(s, k) && k in a.page && a' == Detach(a, k) && KeysOn(s.pt, s.pt[k].fr) == {k}
    requires (forall j :: KeepsTarget(s, s', j)) && s'.batch == s.batch[sl := Pick(k, s.pt[k].fr, false)]
    ensures forall x, j :: PickedOk(s', a', x, j)
  {
    hide Inv;
    forall x, j
      ensures PickedOk(s', a', x, j)
    {
      if j != k {
        assert KeepsTarget(s, s', j) && PickedOk(s, a, x, j) && j !in KeysOn(s.pt, s.pt[k].fr);
        assert CellOk(s, a, j);
      }
    }
  }

  // ---------- all operations, all runs ----------

  /** Every operation of the kernel is an operation of the machine. */
  lemma StepRuns(s: State, op: Op, a: Machine) returns (act: bool)
    requires Same(s, a) && Enabled(s, op)
    ensures |s.mem| == |s.rc| && Same(Apply(s, op), Act(a, op, act))
  {
    hide Apply, Same, Act, Enabled, Inv;
    SizesSame(s, a);
    SameKeys(s, a);
    if Unseen(op) {
      act := false;
      UnseenStep(s, op, a);
      UnseenAct(a, op);
    } else {
      act := SeenStep(s, op, a);
    }
  }

  lemma UnseenAct(a: Machine, op: Op)
    requires Unseen(op)
    ensures forall act :: Act(a, op, act) == a
  {
  }

  lemma SeenStep(s: State, op: Op, a: Machine) returns (act: bool)
    requires Same(s, a) && Enabled(s, op) && !Unseen(op) && |s.mem| == |s.rc| && a.page.Keys == s.pt.Keys
    ensures Same(Apply(s, op), Act(a, op, act))
  {
    hide Same, Apply, Detach, Write;
    act := false;
    match op
    case Store(k, p) => StoreStep(s, op, a, k, p);
    case ClonePage(k, child) =>
      if k in s.pt { CloneStep(s, op, a, k, child); } else { CloneNothing(s, op, k, child); }
    case Unmap(k) => GoneStep(s, op, a, k);
    case UnmapLater(k) => GoneStep(s, op, a, k);
    case Reserve(k, rw, us) => ReserveStep(s, op, a, k, rw, us);
    case Populate(k, f, w) => if k in s.pt { PopulateOld(s, op, a, k, f, w); } else { PopulateNew(s, op, a, k, f, w); }
    case MapShared(k, f, _) => AttachStep(s, op, a, k, f);
    case MapCache(k, f, _, _) => AttachStep(s, op, a, k, f);
    case Hold(f, p) => HoldStep(s, op, a, f, p);
    case Refill(f, p) => RefillStep(s, op, a, f, p);
    case Cow(k, f) => act := CowStep(s, op, a, k, f);
    case PickPage(k, sl) => act := PickStep(s, op, a, k, sl);
    case Discard(k) => act := DiscardStep(s, op, a, k);
  }

  lemma CloneNothing(s: State, op: Op, k: Key, child: nat)
    requires op == ClonePage(k, child) && Enabled(s, op) && |s.mem| == |s.rc| && k !in s.pt
    ensures Apply(s, op) == s
  {
  }

  /**
    Every run of the operations, of any spaces and in any order, is a run of the machine: there is a
    choice for every step with which the machine shows all the time what the spaces see.
    */
  lemma {:induction false} RunIsMachineRun(s: State, ops: seq<Op>, a: Machine) returns (acts: seq<bool>)
    requires Same(s, a) && Runs(s, ops)
    ensures |acts| == |ops| && Same(After(s, ops), ActAll(a, ops, acts))
    ensures Views(After(s, ops)) == Shows(ActAll(a, ops, acts))
    decreases |ops|
  {
    hide Same, Apply, Act, Enabled, Shows;
    if ops == [] {
      acts := [];
    } else {
      var act := StepRuns(s, ops[0], a);
      var rest := RunIsMachineRun(Apply(s, ops[0]), ops[1..], Act(a, ops[0], act));
      acts := [act] + rest;
      assert acts[1..] == rest;
    }
    SameShows(After(s, ops), ActAll(a, ops, acts));
  }

  /** At boot there are no pages, and the frames outside the pool are objects. */
  function BootMachine(rc: seq<nat>, mem: seq<Page>): Machine
    requires |mem| == |rc|
  {
    Machine(map[], map f: nat | f < |rc| && rc[f] == NOT_OURS :: Data(mem[f]))
  }

  lemma BootSame(rc: seq<nat>, mem: seq<Page>, sc: map<nat, nat>, disk: map<nat, Page>)
    requires |mem| == |rc| && (forall f | 0 <= f < |rc| :: rc[f] == 0 || rc[f] == NOT_OURS)
      && (|rc| > 0 ==> rc[0] == NOT_OURS)
    requires sc.Keys == disk.Keys && forall sl | sl in sc :: sc[sl] == 0 || sc[sl] == BAD_SLOT
    ensures Same(BootState(rc, mem, sc, disk), BootMachine(rc, mem))
  {
    BootInv(rc, mem, sc, disk);
    hide Inv;
    var s, a := BootState(rc, mem, sc, disk), BootMachine(rc, mem);
    forall f
      ensures ObjectOk(s, a, f)
    {
    }
  }

  /** So every run from boot is a run of the machine from nothing mapped. */
  lemma BootIsMachineRun(rc: seq<nat>, mem: seq<Page>, sc: map<nat, nat>, disk: map<nat, Page>, ops: seq<Op>)
      returns (acts: seq<bool>)
    requires |mem| == |rc| && (forall f | 0 <= f < |rc| :: rc[f] == 0 || rc[f] == NOT_OURS)
      && (|rc| > 0 ==> rc[0] == NOT_OURS)
    requires sc.Keys == disk.Keys && forall sl | sl in sc :: sc[sl] == 0 || sc[sl] == BAD_SLOT
    requires Runs(BootState(rc, mem, sc, disk), ops)
    ensures |acts| == |ops|
    ensures Views(After(BootState(rc, mem, sc, disk), ops)) == Shows(ActAll(BootMachine(rc, mem), ops, acts))
  {
    hide Same, Runs, After, ActAll, Shows, Views, BootState, BootMachine;
    BootSame(rc, mem, sc, disk);
    acts := RunIsMachineRun(BootState(rc, mem, sc, disk), ops, BootMachine(rc, mem));
  }
}

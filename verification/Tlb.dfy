/**
  TLB shootdown as a protocol of single steps, in any interleaving of any number of cpus.

  A cpu that unmaps pages keeps their frames on its own list, asks every cpu that has the space
  loaded to flush, waits until the requests are gone and only then gives the frames back. A cpu
  that serves a request clears the flag before it reloads cr3, and a cpu that changes spaces
  notes the new one before it loads it: in between it does not touch memory of the space.
  */
module Tlb {
  import opened VmState

  /** Where a cpu is: outside, waiting for a lock, inside, or in the three loops of a shootdown. */
  datatype Pc =
    | Run
    | Spin(pd: nat)
    | Inside
    | Look(i: nat, mask: set<nat>)
    | Ask(i: nat, mask: set<nat>)
    | Await(i: nat, mask: set<nat>)

  datatype Cpu = Cpu(
    cr3: nat,             // the space noted in the cpu record
    hw: nat,              // the space in the register
    tlb: map<nat, nat>,   // cached translations of that space, page to frame
    req: bool,            // asked to flush
    win: bool,            // request cleared, reload still to come
    load: bool,           // space noted, register still to be written
    pc: Pc,
    sd: nat,              // whose tables this cpu changes
    hold: bool,           // has the lock that space shares
    dfr: seq<nat>         // frames waiting for the flush
  )

  /** The table entries, which of the locks has which owner, and the cpus. */
  datatype Sys = Sys(pt: map<Key, nat>, lock: map<nat, nat>, cpu: seq<Cpu>)

  const DEFERRED: nat := 256

  /** Spaces share 16 locks; a space is known by the frame of its root. */
  function LockOf(pd: nat): nat { pd % 16 }

  datatype Step =
    | Fill(c: nat, va: nat)
    | Evict(c: nat, va: nat)
    | Map(k: Key, f: nat)
    | AskLock(c: nat, pd: nat)
    | Acquire(c: nat)
    | Remove(c: nat, va: nat)
    | Replace(c: nat, va: nat, f: nat)
    | FlushInside(c: nat)
    | Unlock(c: nat)
    | LookAt(c: nat)
    | SetReq(c: nat)
    | WaitNext(c: nat)
    | Release(c: nat)
    | Service(c: nat)
    | Reload(c: nat)
    | NoteSpace(c: nat, pd: nat)
    | LoadSpace(c: nat)

  /** A cpu does nothing else between clearing a request and the reload, or between noting and loading a space. */
  predicate Busy(u: Cpu) { u.win || u.load }

  predicate Enabled(s: Sys, st: Step) {
    match st
    case Fill(c, va) => c < |s.cpu| && Key(s.cpu[c].hw, va) in s.pt
    case Evict(c, _) => c < |s.cpu|
    case Map(k, _) => k !in s.pt
    case AskLock(c, _) => c < |s.cpu| && !Busy(s.cpu[c]) && s.cpu[c].pc == Run
    case Acquire(c) => c < |s.cpu| && !Busy(s.cpu[c]) && s.cpu[c].pc.Spin? && LockOf(s.cpu[c].pc.pd) !in s.lock
    case Remove(c, va) =>
      c < |s.cpu| && !Busy(s.cpu[c]) && s.cpu[c].pc == Inside && Key(s.cpu[c].sd, va) in s.pt
        && |s.cpu[c].dfr| < DEFERRED
    case Replace(c, va, _) =>
      c < |s.cpu| && !Busy(s.cpu[c]) && s.cpu[c].pc == Inside && Key(s.cpu[c].sd, va) in s.pt
        && |s.cpu[c].dfr| < DEFERRED
    case FlushInside(c) => c < |s.cpu| && !Busy(s.cpu[c]) && s.cpu[c].pc == Inside && s.cpu[c].dfr != []
    case Unlock(c) => c < |s.cpu| && !Busy(s.cpu[c]) && s.cpu[c].pc == Inside
    case LookAt(c) => c < |s.cpu| && !Busy(s.cpu[c]) && s.cpu[c].pc.Look?
    case SetReq(c) => c < |s.cpu| && !Busy(s.cpu[c]) && s.cpu[c].pc.Ask? && s.cpu[c].pc.i < |s.cpu|
    case WaitNext(c) =>
      c < |s.cpu| && !Busy(s.cpu[c]) && s.cpu[c].pc.Await? && s.cpu[c].pc.i < |s.cpu|
      && (s.cpu[c].pc.i in s.cpu[c].pc.mask ==> !s.cpu[s.cpu[c].pc.i].req)
    case Release(c) => c < |s.cpu| && !Busy(s.cpu[c]) && s.cpu[c].pc.Await? && s.cpu[c].pc.i >= |s.cpu|
    case Service(c) => c < |s.cpu| && !Busy(s.cpu[c]) && s.cpu[c].req
      && (s.cpu[c].pc.Run? || s.cpu[c].pc.Spin? || s.cpu[c].pc.Await?)
    case Reload(c) => c < |s.cpu| && s.cpu[c].win
    case NoteSpace(c, pd) => c < |s.cpu| && !Busy(s.cpu[c]) && s.cpu[c].pc == Run && pd != s.cpu[c].cr3
    case LoadSpace(c) => c < |s.cpu| && s.cpu[c].load
  }

  /** The shootdown loops start with nobody asked; without frames to wait for there is no shootdown. */
  function Shoot(u: Cpu): Pc {
    if u.dfr == [] then (if u.hold then Inside else Run) else Look(0, {})
  }

  function Looked(s: Sys, c: nat, i: nat, mask: set<nat>): Pc
    requires c < |s.cpu|
  {
    if i >= |s.cpu| then Await(0, mask)
    else if i == c || s.cpu[i].cr3 != s.cpu[c].sd then Look(i + 1, mask)
    else Ask(i, mask)
  }

  function Next(s: Sys, st: Step): Sys
    requires Enabled(s, st)
  {
    match st
    case Fill(c, va) => var u := s.cpu[c]; s.(cpu := s.cpu[c := u.(tlb := u.tlb[va := s.pt[Key(u.hw, va)]])])
    case Evict(c, va) => var u := s.cpu[c]; s.(cpu := s.cpu[c := u.(tlb := u.tlb - {va})])
    case Map(k, f) => s.(pt := s.pt[k := f])
    case AskLock(c, pd) => s.(cpu := s.cpu[c := s.cpu[c].(pc := Spin(pd))])
    case Acquire(c) =>
      var u := s.cpu[c];
      s.(lock := s.lock[LockOf(u.pc.pd) := c], cpu := s.cpu[c := u.(pc := Inside, sd := u.pc.pd, hold := true)])
    case Remove(c, va) =>
      var u := s.cpu[c];
      s.(pt := s.pt - {Key(u.sd, va)},
         cpu := s.cpu[c := u.(dfr := u.dfr + [s.pt[Key(u.sd, va)]], tlb := u.tlb - {va})])
    case Replace(c, va, f) =>
      var u := s.cpu[c];
      s.(pt := s.pt[Key(u.sd, va) := f],
         cpu := s.cpu[c := u.(dfr := u.dfr + [s.pt[Key(u.sd, va)]], tlb := u.tlb - {va})])
    case FlushInside(c) => s.(cpu := s.cpu[c := s.cpu[c].(pc := Shoot(s.cpu[c]))])
    case Unlock(c) =>
      var u := s.cpu[c].(hold := false);
      s.(lock := s.lock - {LockOf(u.sd)}, cpu := s.cpu[c := u.(pc := Shoot(u))])
    case LookAt(c) => var u := s.cpu[c]; s.(cpu := s.cpu[c := u.(pc := Looked(s, c, u.pc.i, u.pc.mask))])
    case SetReq(c) =>
      var u := s.cpu[c];
      var i := u.pc.i;
      var cpu := s.cpu[i := s.cpu[i].(req := true)];
      s.(cpu := cpu[c := cpu[c].(pc := Look(i + 1, u.pc.mask + {i}))])
    case WaitNext(c) => var u := s.cpu[c]; s.(cpu := s.cpu[c := u.(pc := Await(u.pc.i + 1, u.pc.mask))])
    case Release(c) => var u := s.cpu[c]; s.(cpu := s.cpu[c := u.(dfr := [], pc := if u.hold then Inside else Run)])
    case Service(c) => s.(cpu := s.cpu[c := s.cpu[c].(req := false, win := true)])
    case Reload(c) => s.(cpu := s.cpu[c := s.cpu[c].(win := false, tlb := map[])])
    case NoteSpace(c, pd) => s.(cpu := s.cpu[c := s.cpu[c].(cr3 := pd, load := true)])
    case LoadSpace(c) => var u := s.cpu[c]; s.(cpu := s.cpu[c := u.(hw := u.cr3, tlb := map[], load := false)])
  }

  // ---------- safety ----------

  /** Cpu `a` has frames to wait for and has not yet seen the flush of cpu `c`. */
  predicate Pending(s: Sys, a: nat, c: nat)
    requires a < |s.cpu| && c < |s.cpu|
  {
    match s.cpu[a].pc
    case Run => false
    case Spin(_) => false
    case Inside => true
    case Look(i, mask) => i <= c || (c in mask && s.cpu[c].req)
    case Ask(i, mask) => i <= c || (c in mask && s.cpu[c].req)
    case Await(i, mask) => i <= c && c in mask && s.cpu[c].req
  }

  /** Some other cpu still keeps the frame for the translation of `c`. */
  predicate KeptFor(s: Sys, a: nat, c: nat, f: nat) {
    a < |s.cpu| && c < |s.cpu| && a != c && f in s.cpu[a].dfr && s.cpu[a].sd == s.cpu[c].hw && Pending(s, a, c)
  }

  predicate Live(s: Sys, c: nat, va: nat, f: nat)
    requires c < |s.cpu|
  {
    Key(s.cpu[c].hw, va) in s.pt && s.pt[Key(s.cpu[c].hw, va)] == f
  }

  ghost predicate CachedOk(s: Sys, c: nat, va: nat) {
    c < |s.cpu| && !Busy(s.cpu[c]) && va in s.cpu[c].tlb ==>
      Live(s, c, va, s.cpu[c].tlb[va]) || exists a :: KeptFor(s, a, c, s.cpu[c].tlb[va])
  }

  ghost predicate CpuOk(s: Sys, c: nat) {
    c < |s.cpu| ==>
      && (!s.cpu[c].load ==> s.cpu[c].cr3 == s.cpu[c].hw)
      && (s.cpu[c].dfr != [] ==> s.cpu[c].pc in {Inside} || s.cpu[c].pc.Look? || s.cpu[c].pc.Ask? || s.cpu[c].pc.Await?)
      && (s.cpu[c].pc == Inside ==> s.cpu[c].hold)
      && (s.cpu[c].pc == Run || s.cpu[c].pc.Spin? ==> !s.cpu[c].hold)
      && (s.cpu[c].pc.Ask? ==> s.cpu[c].pc.i < |s.cpu| && s.cpu[c].pc.i != c)
      && ((s.cpu[c].pc.Look? || s.cpu[c].pc.Await?) ==> s.cpu[c].pc.i <= |s.cpu|)
  }

  ghost predicate HoldOk(s: Sys, c: nat) {
    c < |s.cpu| ==> (s.cpu[c].hold <==> LockOf(s.cpu[c].sd) in s.lock && s.lock[LockOf(s.cpu[c].sd)] == c)
  }

  ghost predicate LockOk(s: Sys, l: nat) {
    l in s.lock ==> s.lock[l] < |s.cpu| && s.cpu[s.lock[l]].hold && LockOf(s.cpu[s.lock[l]].sd) == l
  }

  ghost predicate Inv(s: Sys) {
    && (forall c :: CpuOk(s, c))
    && (forall c :: HoldOk(s, c))
    && (forall l :: LockOk(s, l))
    && (forall c, va :: CachedOk(s, c, va))
  }

  /** Who keeps a frame for a translation goes on keeping it as long as the translation can be used. */
  lemma KeptStays(s: Sys, st: Step, a: nat, c: nat, f: nat)
    requires Inv(s) && Enabled(s, st) && KeptFor(s, a, c, f) && !Busy(s.cpu[c]) && !Busy(Next(s, st).cpu[c])
    ensures KeptFor(Next(s, st), a, c, f)
  {
    if st.SetReq? { KeptAsk(s, st.c, a, c, f); } else { assert CpuOk(s, a) && CpuOk(s, c); }
  }

  lemma KeptAsk(s: Sys, b: nat, a: nat, c: nat, f: nat)
    requires Inv(s) && Enabled(s, SetReq(b)) && KeptFor(s, a, c, f) && !Busy(s.cpu[c])
    ensures KeptFor(Next(s, SetReq(b)), a, c, f)
  {
    assert CpuOk(s, b);
  }

  lemma StepCached(s: Sys, st: Step, c: nat, va: nat)
    requires Inv(s) && Enabled(s, st)
    ensures CachedOk(Next(s, st), c, va)
  {
    var s' := Next(s, st);
    assert CachedOk(s, c, va);
    if c < |s.cpu| && !Busy(s'.cpu[c]) && va in s'.cpu[c].tlb {
      var f := s'.cpu[c].tlb[va];
      if !Live(s', c, va, f) {
        assert !Busy(s.cpu[c]) && va in s.cpu[c].tlb && s.cpu[c].tlb[va] == f;
        if Live(s, c, va, f) {
          assert KeptFor(s', st.c, c, f);
        } else {
          var a :| KeptFor(s, a, c, f);
          KeptStays(s, st, a, c, f);
        }
      }
    }
  }

  lemma StepCpu(s: Sys, st: Step, c: nat)
    requires Inv(s) && Enabled(s, st)
    ensures CpuOk(Next(s, st), c)
  {
    if st.SetReq? {
      StepAsk(s, st.c, c);
    } else {
      assert CpuOk(s, c);
      hide Inv, CachedOk, LockOk, HoldOk;
    }
  }

  lemma StepAsk(s: Sys, a: nat, c: nat)
    requires Inv(s) && Enabled(s, SetReq(a))
    ensures CpuOk(Next(s, SetReq(a)), c)
  {
    assert CpuOk(s, c) && CpuOk(s, a);
    hide Inv, CachedOk, LockOk, HoldOk;
  }

  lemma StepHold(s: Sys, st: Step, c: nat)
    requires Inv(s) && Enabled(s, st)
    ensures HoldOk(Next(s, st), c)
  {
    assert HoldOk(s, c) && CpuOk(s, c);
    if !st.Map? { assert HoldOk(s, st.c) && CpuOk(s, st.c); }
  }

  lemma StepLock(s: Sys, st: Step, l: nat)
    requires Inv(s) && Enabled(s, st)
    ensures LockOk(Next(s, st), l)
  {
    assert LockOk(s, l);
    if !st.Map? { assert HoldOk(s, st.c) && CpuOk(s, st.c); }
  }

  lemma StepInv(s: Sys, st: Step)
    requires Inv(s) && Enabled(s, st)
    ensures Inv(Next(s, st))
  {
    forall c ensures CpuOk(Next(s, st), c) { StepCpu(s, st, c); }
    forall c ensures HoldOk(Next(s, st), c) { StepHold(s, st, c); }
    forall l ensures LockOk(Next(s, st), l) { StepLock(s, st, l); }
    forall c, va ensures CachedOk(Next(s, st), c, va) { StepCached(s, st, c, va); }
  }

  // ---------- whole runs ----------

  /** Every cpu idle on some space with nothing cached. */
  ghost predicate Init(s: Sys) {
    && s.lock == map[]
    && forall c | 0 <= c < |s.cpu| ::
         var u := s.cpu[c];
         u.cr3 == u.hw && u.tlb == map[] && !u.req && !u.win && !u.load && u.pc == Run && !u.hold && u.dfr == []
  }

  predicate Runs(s: Sys, run: seq<Step>)
    decreases |run|
  {
    run == [] || (Enabled(s, run[0]) && Runs(Next(s, run[0]), run[1..]))
  }

  function After(s: Sys, run: seq<Step>): Sys
    requires Runs(s, run)
    decreases |run|
  {
    if run == [] then s else After(Next(s, run[0]), run[1..])
  }

  /** In the pool: no table maps the frame, and no cpu keeps it for a flush. */
  ghost predicate InPool(s: Sys, f: nat) {
    && (forall k | k in s.pt :: s.pt[k] != f)
    && (forall c | 0 <= c < |s.cpu| :: f !in s.cpu[c].dfr)
  }

  /** A cpu can go through a cached translation whenever it is not between two instructions that change them. */
  predicate CanAccess(s: Sys, c: nat, va: nat, f: nat) {
    c < |s.cpu| && !Busy(s.cpu[c]) && va in s.cpu[c].tlb && s.cpu[c].tlb[va] == f
  }

  lemma {:induction false} RunInv(s: Sys, run: seq<Step>)
    requires Inv(s) && Runs(s, run)
    ensures Inv(After(s, run))
    decreases |run|
  {
    if run != [] {
      StepInv(s, run[0]);
      RunInv(Next(s, run[0]), run[1..]);
    }
  }

  /**
    In every run a translation a cpu can use is the current one, or its frame is still with the cpu
    that unmapped it: no cpu reaches a frame that has gone back to the pool, or on to a new owner.
    */
  lemma NoStaleAccess(s: Sys, run: seq<Step>, c: nat, va: nat, f: nat)
    requires Init(s) && Runs(s, run) && CanAccess(After(s, run), c, va, f)
    ensures Live(After(s, run), c, va, f) || exists a :: KeptFor(After(s, run), a, c, f)
    ensures !InPool(After(s, run), f)
  {
    RunInv(s, run);
    var t := After(s, run);
    assert CachedOk(t, c, va);
    if !Live(t, c, va, f) {
      var a :| KeptFor(t, a, c, f);
    }
  }

  // ---------- requests drain ----------

  /** The steps that finish what is under way; the others start something new. */
  predicate Progress(st: Step) {
    st.Acquire? || st.FlushInside? || st.Unlock? || st.LookAt? || st.SetReq? || st.WaitNext? || st.Release?
      || st.Service?
    || st.Reload? || st.LoadSpace?
  }

  predicate Quiet(u: Cpu) { u.pc == Run && !u.req && !u.win && !u.load }

  /** Every request served, every list given back. */
  ghost predicate AllQuiet(s: Sys) {
    forall c | 0 <= c < |s.cpu| :: Quiet(s.cpu[c]) && s.cpu[c].dfr == []
  }

  predicate Free(s: Sys, c: nat) {
    c < |s.cpu| && (Busy(s.cpu[c]) || s.cpu[c].pc.Inside? || s.cpu[c].pc.Look? || s.cpu[c].pc.Ask?
                    || (s.cpu[c].req && (s.cpu[c].pc.Run? || s.cpu[c].pc.Spin? || s.cpu[c].pc.Await?)))
  }

  /** A step of cpu `c` that needs nobody else. */
  function OwnStep(s: Sys, c: nat): (st: Step)
    requires Free(s, c) && CpuOk(s, c)
    ensures Progress(st) && Enabled(s, st)
  {
    var u := s.cpu[c];
    if u.win then Reload(c) else if u.load then LoadSpace(c)
    else if u.pc.Inside? then Unlock(c) else if u.pc.Look? then LookAt(c) else if u.pc.Ask? then SetReq(c)
    else Service(c)
  }

  /** A cpu in a shootdown goes on, or the cpu it waits for does. */
  lemma WaiterProgress(s: Sys, c: nat) returns (st: Step)
    requires Inv(s) && c < |s.cpu| && s.cpu[c].pc.Await?
    ensures Progress(st) && Enabled(s, st)
  {
    assert CpuOk(s, c);
    var u := s.cpu[c];
    var i := u.pc.i;
    if Free(s, c) { return OwnStep(s, c); }
    if i >= |s.cpu| { return Release(c); }
    assert CpuOk(s, i);
    if i in u.pc.mask && s.cpu[i].req { return OwnStep(s, i); }
    return WaitNext(c);
  }

  /** No deadlock: unless every cpu is quiet, some step of the protocol can be taken. */
  lemma NoDeadlock(s: Sys, c: nat) returns (st: Step)
    requires Inv(s) && c < |s.cpu| && !Quiet(s.cpu[c])
    ensures Progress(st) && Enabled(s, st)
  {
    assert CpuOk(s, c);
    var u := s.cpu[c];
    if Free(s, c) { return OwnStep(s, c); }
    if u.pc.Await? { st := WaiterProgress(s, c); return; }
    assert u.pc.Spin?;
    if LockOf(u.pc.pd) !in s.lock { return Acquire(c); }
    assert LockOk(s, LockOf(u.pc.pd));
    var h := s.lock[LockOf(u.pc.pd)];
    assert CpuOk(s, h);
    if Free(s, h) { return OwnStep(s, h); }
    st := WaiterProgress(s, h);
  }

  function Rank(n: nat, u: Cpu): nat {
    (if u.req then 2 else 0) + (if u.win then 1 else 0) + (if u.load then 1 else 0) +
    match u.pc
    case Run => 0
    case Spin(_) => 2
    case Inside => if u.dfr == [] then 1 else 6 * n + 6
    case Look(i, _) => (if i <= n then 5 * (n - i) else 0) + n + 3 + (if u.hold then 2 else 0)
    case Ask(i, _) => (if i <= n then 5 * (n - i) else 0) + n + 2 + (if u.hold then 2 else 0)
    case Await(i, _) => (if i <= n then n - i else 0) + 1 + (if u.hold then 2 else 0)
  }

  function Work(n: nat, cpu: seq<Cpu>): nat {
    if cpu == [] then 0 else Rank(n, cpu[0]) + Work(n, cpu[1..])
  }

  lemma {:induction false} WorkUpdate(n: nat, cpu: seq<Cpu>, c: nat, u: Cpu)
    requires c < |cpu|
    ensures Work(n, cpu[c := u]) + Rank(n, cpu[c]) == Work(n, cpu) + Rank(n, u)
    decreases |cpu|
  {
    if c > 0 {
      WorkUpdate(n, cpu[1..], c - 1, u);
      assert cpu[c := u][1..] == cpu[1..][c - 1 := u];
    } else {
      assert cpu[c := u][1..] == cpu[1..];
    }
  }

  /** The cpu that takes the step has less to do; asking another cpu costs less than it saves. */
  lemma RankDrops(s: Sys, st: Step)
    requires Inv(s) && Progress(st) && Enabled(s, st) && !st.SetReq?
    ensures Rank(|s.cpu|, Next(s, st).cpu[st.c]) < Rank(|s.cpu|, s.cpu[st.c])
    ensures Next(s, st).cpu == s.cpu[st.c := Next(s, st).cpu[st.c]]
  {
    assert CpuOk(s, st.c);
  }

  lemma AskDrops(s: Sys, c: nat)
    requires Inv(s) && Enabled(s, SetReq(c))
    ensures Work(|s.cpu|, Next(s, SetReq(c)).cpu) < Work(|s.cpu|, s.cpu)
  {
    assert CpuOk(s, c);
    var n := |s.cpu|;
    var i := s.cpu[c].pc.i;
    var v := s.cpu[i].(req := true);
    var u := s.cpu[c].(pc := Look(i + 1, s.cpu[c].pc.mask + {i}));
    WorkUpdate(n, s.cpu, i, v);
    WorkUpdate(n, s.cpu[i := v], c, u);
    assert Next(s, SetReq(c)).cpu == s.cpu[i := v][c := u];
    RankAsked(n, s.cpu[i]);
    RankAsks(n, s.cpu[c]);
  }

  lemma RankAsked(n: nat, u: Cpu)
    ensures Rank(n, u.(req := true)) <= Rank(n, u) + 2
  {
  }

  lemma RankAsks(n: nat, u: Cpu)
    requires u.pc.Ask? && u.pc.i < n
    ensures Rank(n, u.(pc := Look(u.pc.i + 1, u.pc.mask + {u.pc.i}))) + 4 == Rank(n, u)
  {
  }

  lemma ProgressWorks(s: Sys, st: Step)
    requires Inv(s) && Progress(st) && Enabled(s, st)
    ensures Work(|s.cpu|, Next(s, st).cpu) < Work(|s.cpu|, s.cpu)
  {
    if st.SetReq? {
      AskDrops(s, st.c);
    } else {
      RankDrops(s, st);
      WorkUpdate(|s.cpu|, s.cpu, st.c, Next(s, st).cpu[st.c]);
    }
  }

  /** However the cpus are scheduled, what is under way ends after at most Work steps. */
  lemma {:induction false} DrainBound(s: Sys, run: seq<Step>)
    requires Inv(s) && Runs(s, run) && (forall i | 0 <= i < |run| :: Progress(run[i]))
    ensures |run| + Work(|s.cpu|, After(s, run).cpu) <= Work(|s.cpu|, s.cpu)
    decreases |run|
  {
    if run != [] {
      StepInv(s, run[0]);
      ProgressWorks(s, run[0]);
      DrainBound(Next(s, run[0]), run[1..]);
    }
  }

  /** And it can always end with every request served and every list given back. */
  lemma {:induction false} Drains(s: Sys) returns (run: seq<Step>)
    requires Inv(s)
    ensures Runs(s, run) && (forall i | 0 <= i < |run| :: Progress(run[i]))
    ensures AllQuiet(After(s, run))
    decreases Work(|s.cpu|, s.cpu)
  {
    if c :| 0 <= c < |s.cpu| && !Quiet(s.cpu[c]) {
      var st := NoDeadlock(s, c);
      StepInv(s, st);
      ProgressWorks(s, st);
      var rest := Drains(Next(s, st));
      run := [st] + rest;
      assert run[1..] == rest;
    } else {
      run := [];
      forall c | 0 <= c < |s.cpu| ensures Quiet(s.cpu[c]) && s.cpu[c].dfr == [] { assert CpuOk(s, c); }
    }
  }
}

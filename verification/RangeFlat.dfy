/**
  A range operation on the tables is the operation of the flat model on page after page: the pages
  agree again afterwards, and with every step of the flat model the reference bytes stay exact.
  */
module RangeFlat {
  import opened VmState
  import opened VmOps
  import opened VmRuns
  import opened PageTree
  import opened PageRange

  /** The tables show the pages of space `pd`. */
  ghost predicate Shows(s: State, pd: nat, tab: Tables) {
    forall p: nat | p < TOP :: View(tab, pd, p) == FlatSlot(s, Key(pd, p))
  }

  /** The flat operation on the pages from `lo` up to `a`, without those that were skipped. */
  function Sweeping(s: State, op: Sweep, pd: nat, lo: nat, a: nat, skipped: set<nat>): State
    decreases a
  {
    if a <= lo then s else
    var t := Sweeping(s, op, pd, lo, a - 1, skipped);
    if Swept(op, a - 1) && a - 1 !in skipped then FlatSweep(t, op, Key(pd, a - 1)) else t
  }

  /** `many` is what the code looks up for each page: the frames with more than one reference. */
  ghost predicate ManyOk(s: State, op: Sweep) {
    op.SetWritable? ==> op.many == ManyRefs(s)
  }

  /** One page: the invariant stays, and so do the reference counts that decide about writing. */
  lemma SweepStep(s: State, op: Sweep, k: Key)
    requires Inv(s) && ManyOk(s, op)
    ensures Inv(FlatSweep(s, op, k)) && ManyOk(FlatSweep(s, op, k), op)
  {
    hide Inv;
    match op
    case Free => UnmapLaterGood(s, k);
    case Discard => DiscardGood(s, k);
    case SetUser(us) => SetUserGood(s, k, us);
    case SetWritable(w, _) =>
      ProtectGood(s, k, w);
      SameBytes(s, k, w);
  }

  lemma SameBytes(s: State, k: Key, w: bool)
    ensures ProtectPage(s, k, w).rc == s.rc
  {
  }

  /** What the fold leaves at every page of every space. */
  function SweptSlot(s: State, op: Sweep, pd: nat, lo: nat, a: nat, skipped: set<nat>, j: Key): Slot {
    if j.pd == pd && lo <= j.va < a && Swept(op, j.va) && j.va !in skipped then PageEffect(op, FlatSlot(s, j))
      else FlatSlot(s, j)
  }

  lemma {:induction false} SweepingIs(s: State, op: Sweep, pd: nat, lo: nat, a: nat, skipped: set<nat>)
    requires Inv(s) && ManyOk(s, op)
    ensures var t := Sweeping(s, op, pd, lo, a, skipped); Inv(t) && ManyOk(t, op)
    ensures forall j :: FlatSlot(Sweeping(s, op, pd, lo, a, skipped), j) == SweptSlot(s, op, pd, lo, a, skipped, j)
    decreases a
  {
    hide Inv, ManyOk, FlatSlot, FlatSweep, PageEffect;
    if a > lo {
      SweepingIs(s, op, pd, lo, a - 1, skipped);
      var t, k := Sweeping(s, op, pd, lo, a - 1, skipped), Key(pd, a - 1);
      var u := Sweeping(s, op, pd, lo, a, skipped);
      if Swept(op, a - 1) && a - 1 !in skipped { SweepStep(t, op, k); }
      forall j
        ensures FlatSlot(u, j) == SweptSlot(s, op, pd, lo, a, skipped, j)
      {
        SweepAt(s, t, op, pd, lo, a, skipped, j);
      }
    }
  }

  lemma SweepAt(s: State, t: State, op: Sweep, pd: nat, lo: nat, a: nat, skipped: set<nat>, j: Key)
    requires ManyOk(t, op) && lo < a && forall i :: FlatSlot(t, i) == SweptSlot(s, op, pd, lo, a - 1, skipped, i)
    ensures var u := if Swept(op, a - 1) && a - 1 !in skipped then FlatSweep(t, op, Key(pd, a - 1)) else t;
            FlatSlot(u, j) == SweptSlot(s, op, pd, lo, a, skipped, j)
  {
    hide FlatSlot, FlatSweep, PageEffect;
    var k := Key(pd, a - 1);
    SweepIsFlat(t, op, k, j);
    assert FlatSlot(t, k) == FlatSlot(s, k);
    assert FlatSlot(t, j) == SweptSlot(s, op, pd, lo, a - 1, skipped, j);
    assert j.pd == pd && j.va == a - 1 ==> j == k;
  }

  /**
    A sweep of the tables and the same pages swept in the flat model: they agree again, the reference
    bytes are exact, and no other space is touched.
    */
  lemma SweepAgrees(s: State, op: Sweep, pd: nat, tab0: Tables, tab: Tables, lo: nat, hi: nat, skipped: set<nat>)
    requires Inv(s) && ManyOk(s, op) && Shows(s, pd, tab0) && SweptTo(op, tab0, tab, pd, lo, hi, hi, skipped)
    ensures var t := Sweeping(s, op, pd, lo, hi, skipped);
            Inv(t) && Shows(t, pd, tab) && forall j: Key | j.pd != pd :: FlatSlot(t, j) == FlatSlot(s, j)
  {
    hide Inv, ManyOk, FlatSlot, PageEffect, Sweeping;
    SweepingIs(s, op, pd, lo, hi, skipped);
    var t := Sweeping(s, op, pd, lo, hi, skipped);
    forall p: nat | p < TOP
      ensures View(tab, pd, p) == FlatSlot(t, Key(pd, p))
    {
      assert FlatSlot(t, Key(pd, p)) == SweptSlot(s, op, pd, lo, hi, skipped, Key(pd, p));
    }
  }

  /** The pages from `lo` up to `a` reserved one after the other. */
  function Reserving(s: State, pd: nat, lo: nat, a: nat, rw: bool, us: bool): State
    decreases a
  {
    if a <= lo then s else ReservePage(Reserving(s, pd, lo, a - 1, rw, us), Key(pd, a - 1), rw, us)
  }

  lemma {:induction false} ReservingIs(s: State, pd: nat, lo: nat, a: nat, rw: bool, us: bool)
    requires Inv(s)
    ensures Inv(Reserving(s, pd, lo, a, rw, us))
    ensures forall j ::
              FlatSlot(Reserving(s, pd, lo, a, rw, us), j) ==
              if j.pd == pd && lo <= j.va < a then Leaf(Lazy(rw, us)) else FlatSlot(s, j)
    decreases a
  {
    hide Inv, FlatSlot, ReservePage, Good;
    if a > lo {
      ReservingIs(s, pd, lo, a - 1, rw, us);
      var t, k := Reserving(s, pd, lo, a - 1, rw, us), Key(pd, a - 1);
      ReserveInv(t, k, rw, us);
      forall j
        ensures FlatSlot(Reserving(s, pd, lo, a, rw, us), j) ==
                if j.pd == pd && lo <= j.va < a then Leaf(Lazy(rw, us)) else FlatSlot(s, j)
      {
        ReserveAt(t, k, rw, us, j);
        assert FlatSlot(t, j) == if j.pd == pd && lo <= j.va < a - 1 then Leaf(Lazy(rw, us)) else FlatSlot(s, j);
        assert j.pd == pd && j.va == a - 1 ==> j == k;
      }
    }
  }

  lemma ReserveInv(s: State, k: Key, rw: bool, us: bool)
    requires Inv(s)
    ensures Inv(ReservePage(s, k, rw, us))
  {
    ReserveGood(s, k, rw, us);
  }

  lemma ReserveAt(s: State, k: Key, rw: bool, us: bool, j: Key)
    ensures FlatSlot(ReservePage(s, k, rw, us), j) == if j == k then Leaf(Lazy(rw, us)) else FlatSlot(s, j)
  {
  }

  /** Reserving in the tables is reserving page by page in the flat model, dropped references included. */
  lemma ReserveAgrees(s: State, pd: nat, tab0: Tables, tab: Tables, lo: nat, stop: nat, rw: bool, us: bool)
    requires Inv(s) && Shows(s, pd, tab0) && LaidTo(tab0, tab, pd, lo, stop, Leaf(Lazy(rw, us)))
    ensures var t := Reserving(s, pd, lo, stop, rw, us);
            Inv(t) && Shows(t, pd, tab) && forall j: Key | j.pd != pd :: FlatSlot(t, j) == FlatSlot(s, j)
  {
    hide Inv, FlatSlot, Reserving;
    ReservingIs(s, pd, lo, stop, rw, us);
    var t := Reserving(s, pd, lo, stop, rw, us);
    forall p: nat | p < TOP
      ensures View(tab, pd, p) == FlatSlot(t, Key(pd, p))
    {
      assert FlatSlot(t, Key(pd, p)) == if lo <= p < stop then Leaf(Lazy(rw, us)) else FlatSlot(s, Key(pd, p));
    }
  }
}

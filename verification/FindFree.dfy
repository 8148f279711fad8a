/**
  The search for free address space: one walk over the tables that takes empty upper-level
  entries as long free stretches. The space keeps the end of its latest find as a hint.
  */
module FindFree {
  import opened VmState
  import opened PageTree
  import opened PageRange

  ghost predicate FreeRun(tab: Tables, pd: nat, s: nat, len: nat) {
    forall p | s <= p < s + len :: View(tab, pd, p) == Zero
  }

  ghost predicate NoRun(tab: Tables, pd: nat, from: nat, to: nat, len: nat) {
    0 < len ==> forall s | from <= s && s + len <= to :: !FreeRun(tab, pd, s, len)
  }

  /** The lowest run of free pages at or above `from`, inside the user half. */
  ghost predicate FirstRun(tab: Tables, pd: nat, from: nat, r: nat, len: nat) {
    && from <= r && r + len <= TOP && FreeRun(tab, pd, r, len)
    && (0 < len ==> forall s | from <= s < r :: !FreeRun(tab, pd, s, len))
  }

  /** The walk has come to `a`; the last `run` pages before it are free, and no further back. */
  ghost predicate Scanned(tab: Tables, pd: nat, from: nat, len: nat, a: nat, run: nat, start: nat) {
    && (run < len || run == 0) && from + run <= a && start >= from && (run > 0 ==> start == a - run)
    && FreeRun(tab, pd, a - run, run)
    && (a - run == from || View(tab, pd, a - run - 1) != Zero)
    && NoRun(tab, pd, from, a, len)
  }

  lemma ScanFree(tab: Tables, pd: nat, from: nat, len: nat, a: nat, b: nat, run: nat, start: nat)
    requires Scanned(tab, pd, from, len, a, run, start) && a < b
    requires forall p | a <= p < b :: View(tab, pd, p) == Zero
    ensures var start' := if run == 0 then a else start;
            if run + b - a < len then Scanned(tab, pd, from, len, b, run + b - a, start')
            else b <= TOP ==> FirstRun(tab, pd, from, start', len)
  {
    var run' := run + b - a;
    forall s | from <= s && 0 < len && (s + len <= b || s < a - run) && (run' < len || s < a - run)
      ensures !FreeRun(tab, pd, s, len)
    {
      if s + len > a - run && s < a - run { assert View(tab, pd, a - run - 1) != Zero; }
    }
  }

  lemma ScanUsed(tab: Tables, pd: nat, from: nat, len: nat, a: nat, b: nat, run: nat, start: nat)
    requires Scanned(tab, pd, from, len, a, run, start) && a < b
    requires forall p | a <= p < b :: View(tab, pd, p) != Zero
    ensures Scanned(tab, pd, from, len, b, 0, start)
  {
    forall s | from <= s && s + len <= b && 0 < len
      ensures !FreeRun(tab, pd, s, len)
    {
      if s + len > a { assert View(tab, pd, s + len - 1) != Zero; }
    }
  }

  /** The entries of one page table, up to its end or the limit. */
  method ScanPages(tab: Tables, pd: nat, c: nat, ghost from: nat, limit: nat, len: nat, a0: nat, run0: nat, start0: nat)
    returns (found: bool, a: nat, run: nat, start: nat)
    requires Scanned(tab, pd, from, len, a0, run0, start0) && a0 < limit <= TOP
    requires EntryAt(tab, pd, a0 / 512, 1) == Link(c) && c in tab && |tab[c]| == 512
    ensures found ==> FirstRun(tab, pd, from, start, len)
    ensures !found ==> Scanned(tab, pd, from, len, a, run, start) && a0 < a <= a0 / 512 * 512 + 512
    ensures !found ==> a >= limit || a == a0 / 512 * 512 + 512
  {
    a, run, start := a0, run0, start0;
    var j := a % 512;
    while j < 512 && a < limit
      invariant j <= 512 && a == a0 / 512 * 512 + j && a0 <= a
      invariant Scanned(tab, pd, from, len, a, run, start)
      invariant a == a0 ==> a < limit && j < 512
    {
      assert a / 512 == a0 / 512 && a % 512 == j;
      assert View(tab, pd, a) == tab[c][j];
      if tab[c][j] != Zero {
        ScanUsed(tab, pd, from, len, a, a + 1, run, start);
        run := 0;
      } else {
        ScanFree(tab, pd, from, len, a, a + 1, run, start);
        if run == 0 { start := a; }
        run := run + 1;
        if run >= len { return true, a, run, start; }
      }
      a, j := a + 1, j + 1;
    }
    found := false;
  }

  lemma MarkBelow(tab: Tables, pd: nat, x: nat, q: nat)
    requires EntryAt(tab, pd, x, 1) == MARK && q / 512 == x
    ensures View(tab, pd, q) == MARK
  {
  }

  /** A stretch of free pages that an empty upper entry shows. */
  method ScanHole(tab: Tables, pd: nat, ghost from: nat, len: nat, a0: nat, nx: nat, run0: nat, start0: nat)
    returns (found: bool, run: nat, start: nat)
    requires Scanned(tab, pd, from, len, a0, run0, start0) && a0 < nx <= TOP
    requires forall p | a0 <= p < nx :: View(tab, pd, p) == Zero
    ensures found ==> FirstRun(tab, pd, from, start, len)
    ensures !found ==> Scanned(tab, pd, from, len, nx, run, start)
  {
    ScanFree(tab, pd, from, len, a0, nx, run0, start0);
    start := if run0 == 0 then a0 else start0;
    run := run0 + (nx - a0);
    found := run >= len;
  }

  /** One entry of level 1: a page table, a marker, or nothing. */
  method ScanBlock(tab: Tables, ghost home: map<nat, Place>, pd: nat, e: Slot, ghost from: nat, limit: nat, len: nat,
                   a0: nat, run0: nat, start0: nat)
    returns (found: bool, a: nat, run: nat, start: nat)
    requires Ok(tab, home, pd) && Scanned(tab, pd, from, len, a0, run0, start0) && a0 < limit <= TOP
    requires EntryAt(tab, pd, a0 / 512, 1) == e
    ensures found ==> FirstRun(tab, pd, from, start, len)
    ensures !found ==> Scanned(tab, pd, from, len, a, run, start) && a0 < a <= a0 / 512 * 512 + 512
    ensures !found ==> a >= limit || a == a0 / 512 * 512 + 512
  {
    UserBlocks(a0);
    Reach(tab, home, pd, a0 / 512, 1);
    if e.Link? {
      assert TableOk(tab, home, e.child);
      found, a, run, start := ScanPages(tab, pd, e.child, from, limit, len, a0, run0, start0);
    } else {
      a := a0 / 512 * 512 + 512;
      if e == MARK {
        forall p | a0 <= p < a ensures View(tab, pd, p) != Zero { MarkBelow(tab, pd, a0 / 512, p); }
        ScanUsed(tab, pd, from, len, a0, a, run0, start0);
        found, run, start := false, 0, start0;
      } else {
        forall p | a0 <= p < a ensures View(tab, pd, p) == Zero { EmptyBelow(tab, pd, p, 0, 1); }
        found, run, start := ScanHole(tab, pd, from, len, a0, a, run0, start0);
      }
    }
  }

  /** The entries of one level 1 table, up to its end or the limit. */
  method ScanBlocks(tab: Tables, ghost home: map<nat, Place>, pd: nat, t: nat, ghost from: nat, limit: nat, len: nat,
                    a0: nat, run0: nat, start0: nat)
    returns (found: bool, a: nat, run: nat, start: nat)
    requires Ok(tab, home, pd) && Scanned(tab, pd, from, len, a0, run0, start0) && a0 < limit <= TOP
    requires EntryAt(tab, pd, a0 / 512 / 512, 2) == Link(t)
    ensures found ==> FirstRun(tab, pd, from, start, len)
    ensures !found ==> Scanned(tab, pd, from, len, a, run, start) && a0 < a <= a0 / 512 / 512 * 262144 + 262144
    ensures !found ==> a >= limit || a == a0 / 512 / 512 * 262144 + 262144
  {
    a, run, start := a0, run0, start0;
    UserBlocks(a);
    Reach(tab, home, pd, a / 512 / 512, 2);
    assert TableOk(tab, home, t);
    var i := a / 512 % 512;
    ghost var g := a / 512 / 512;
    while i < 512 && a < limit
      invariant i <= 512 && a0 <= a <= g * 262144 + 262144 && Scanned(tab, pd, from, len, a, run, start)
      invariant a >= limit || a / 512 == g * 512 + i
      invariant i == 512 ==> a >= limit || a == g * 262144 + 262144
      invariant a == a0 ==> a < limit && i < 512
    {
      var x := a / 512;
      assert x / 512 == g && x % 512 == i;
      found, a, run, start := ScanBlock(tab, home, pd, tab[t][i], from, limit, len, a, run, start);
      if found { return; }
      i := i + 1;
    }
    found := false;
  }

  /** The lowest stretch of `len` empty pages from `from` on; 0 tells that `limit` was reached. */
  method ScanTables(tab: Tables, ghost home: map<nat, Place>, pd: nat, from: nat, limit: nat, len: nat) returns (r: nat)
    requires Ok(tab, home, pd) && 0 < from && limit <= TOP
    ensures r != 0 ==> FirstRun(tab, pd, from, r, len)
    ensures r == 0 ==> NoRun(tab, pd, from, limit, len)
  {
    hide Scanned, FirstRun, NoRun, View;
    var run, start, a := 0, from, from;
    ghost var seen: nat := a;
    var found := false;
    ScanStart(tab, pd, from, limit, len);
    assert TableOk(tab, home, pd);
    while a < limit
      invariant Scanned(tab, pd, from, len, seen, run, start) && from <= a
      invariant if a < limit then seen == a else seen >= limit || a == from
    {
      UserBlocks(a);
      var e3 := tab[pd][Up(a, 3) % 512];
      assert EntryAt(tab, pd, Up(a, 3), 3) == e3;
      if !e3.Link? {
        Reach(tab, home, pd, Up(a, 3), 3);
        var nx := a / 134217728 * 134217728 + 134217728;
        forall p | a <= p < nx ensures View(tab, pd, p) == Zero { HoleBelow(tab, pd, a, p, 3); }
        found, run, start := ScanHole(tab, pd, from, len, a, nx, run, start);
        if found { return start; }
        a, seen := nx, nx;
        continue;
      }
      Reach(tab, home, pd, Up(a, 3), 3);
      assert TableOk(tab, home, e3.child);
      var e2 := tab[e3.child][Up(a, 2) % 512];
      assert EntryAt(tab, pd, Up(a, 2), 2) == e2;
      if !e2.Link? {
        Reach(tab, home, pd, Up(a, 2), 2);
        var nx := a / 262144 * 262144 + 262144;
        forall p | a <= p < nx ensures View(tab, pd, p) == Zero { HoleBelow(tab, pd, a, p, 2); }
        found, run, start := ScanHole(tab, pd, from, len, a, nx, run, start);
        if found { return start; }
        a, seen := nx, nx;
        continue;
      }
      var gb := a / 512 / 512 * 262144 + 262144;
      found, a, run, start := ScanBlocks(tab, home, pd, e2.child, from, limit, len, a, run, start);
      if found { return start; }
      seen := a;
      a := gb;
    }
    r := 0;
    ScanEnd(tab, pd, from, limit, len, seen, run, start);
  }

  lemma ScanStart(tab: Tables, pd: nat, from: nat, limit: nat, len: nat)
    ensures Scanned(tab, pd, from, len, from, 0, from)
  {
  }

  lemma ScanEnd(tab: Tables, pd: nat, from: nat, limit: nat, len: nat, a: nat, run: nat, start: nat)
    requires Scanned(tab, pd, from, len, a, run, start)
    ensures limit <= a || limit <= from ==> NoRun(tab, pd, from, limit, len)
  {
  }

  /** Where the last search of a space ended. */
  datatype Hint = Hint(pd: nat, lo: nat, cache: nat)

  class Finder {
    const sp: Space
    var fc: seq<Hint>

    constructor (space: Space, hints: seq<Hint>)
      ensures sp == space && fc == hints
    {
      sp := space;
      fc := hints;
    }

    /** Whatever the hints say, the result is free, and 0 means that there is nothing. */
    method Find(from: nat, limit: nat, len: nat) returns (r: nat)
      requires sp.Valid() && |fc| == 16 && 0 < from && limit <= TOP
      modifies this`fc
      ensures |fc| == 16
      ensures r != 0 ==> from <= r && r + len <= TOP && FreeRun(sp.tab, sp.pd, r, len)
      ensures r == 0 ==> NoRun(sp.tab, sp.pd, from, limit, len)
    {
      var h := sp.pd % 16;
      if fc[h].pd != sp.pd || fc[h].lo != from { fc := fc[h := Hint(sp.pd, from, from)]; }
      var c := fc[h].cache;
      r := 0;
      if from < c < limit { r := ScanTables(sp.tab, sp.home, sp.pd, c, limit, len); }
      if r == 0 { r := ScanTables(sp.tab, sp.home, sp.pd, from, limit, len); }
      if r != 0 { fc := fc[h := fc[h].(cache := r + len)]; }
    }

    /** Reserves the pages of the range, or takes back what it had reserved. */
    method Claim(lo: nat, hi: nat, rw: bool, us: bool) returns (ok: bool)
      requires sp.Valid() && BASE <= lo <= hi <= TOP && FreeRun(sp.tab, sp.pd, lo, hi - lo)
      modifies sp
      ensures sp.Valid()
      ensures if ok then LaidTo(old(sp.tab), sp.tab, sp.pd, lo, hi, Leaf(Lazy(rw, us)))
              else SameViews(old(sp.tab), sp.tab, sp.pd) && sp.free == {}
    {
      ghost var tab0 := sp.tab;
      ghost var stop;
      ok, stop := sp.LazyRange(lo, hi, rw, us);
      if !ok {
        ghost var tab1 := sp.tab;
        ghost var skipped := sp.SweepRange(Free, lo, hi);
        NothingSkipped(tab0, tab1, sp.pd, lo, hi, skipped);
      }
    }

    /** MAP_FIXED: what was there goes first. */
    method ClaimFixed(lo: nat, hi: nat, rw: bool, us: bool) returns (ok: bool)
      requires sp.Valid() && lo <= hi
      modifies sp
      ensures sp.Valid()
      ensures ok ==> LaidTo(old(sp.tab), sp.tab, sp.pd, lo, hi, Leaf(Lazy(rw, us)))
      ensures forall p | 0 <= p < TOP && !(lo <= p < hi) :: View(sp.tab, sp.pd, p) == View(old(sp.tab), sp.pd, p)
    {
      ghost var skipped := sp.SweepRange(Free, lo, hi);
      ghost var stop;
      ok, stop := sp.LazyRange(lo, hi, rw, us);
      if !ok { skipped := sp.SweepRange(Free, lo, hi); }
    }

    /**
      vmm_map_anon, in pages: a fixed range is freed first; a hint is taken when it is aligned and its
      range is free; otherwise the search decides.
      */
    method MapAnon(addr: nat, aligned: bool, fixed: bool, lo: nat, hi: nat, n: nat, rw: bool, us: bool) returns (r: nat)
      requires sp.Valid() && |fc| == 16 && BASE <= lo && hi <= TOP
      modifies this`fc, sp
      ensures sp.Valid() && |fc| == 16
      ensures r != 0 ==> LaidTo(old(sp.tab), sp.tab, sp.pd, r, r + n, Leaf(Lazy(rw, us))) && (fixed ==> r == addr)
      ensures r != 0 && !fixed ==> lo <= r && r + n <= TOP && FreeRun(old(sp.tab), sp.pd, r, n)
      ensures r == 0 && !fixed ==> SameViews(old(sp.tab), sp.tab, sp.pd)
      ensures r == 0 && !fixed ==> sp.free == {} || NoRun(old(sp.tab), sp.pd, lo, hi, n)
      ensures r == 0 && fixed ==>
                forall p | 0 <= p < TOP && !(addr <= p < addr + n) ::
                  View(sp.tab, sp.pd, p) == View(old(sp.tab), sp.pd, p)
    {
      r := addr;
      if fixed {
        var ok := ClaimFixed(addr, addr + n, rw, us);
        if !ok { r := 0; }
        return;
      }
      var take := addr != 0 && aligned && addr >= lo && addr + n <= hi;
      if take { take := sp.RangeUnmapped(addr, addr + n); }
      if !take { r := Find(lo, hi, n); }
      if r != 0 {
        var ok := Claim(r, r + n, rw, us);
        if !ok { r := 0; }
      }
    }
  }

  /** The blocks that the range covers only in part had no marker, since their pages were free. */
  lemma NothingSkipped(tab0: Tables, tab1: Tables, pd: nat, lo: nat, hi: nat, skipped: set<nat>)
    requires BASE <= lo <= hi <= TOP && FreeRun(tab0, pd, lo, hi - lo)
    requires MarksInside(tab0, tab1, pd, lo, hi) && SkippedOk(Free, tab1, pd, lo, hi, skipped)
    ensures skipped == {}
  {
    forall p | lo <= p < hi
      ensures Marked(tab1, pd, p) ==> Inside(Free, lo, hi, p)
    {
      assert View(tab0, pd, p) == Zero;
      assert EntryAt(tab0, pd, p / 512, 1) != MARK;
    }
  }
}

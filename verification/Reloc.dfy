/**
  Boot modules are moved to the top of low memory before the heap begins: sorted by address,
  highest first, each to the highest page that is left.
  */
module Reloc {

  const PAGE: nat := 4096
  const MAX_MODS: nat := 8
  const LOWEST: nat := 0x800_0000

  datatype Mod = Mod(start: nat, end: nat, name: string)

  function PageDown(x: nat): (p: nat)
    ensures p <= x < p + PAGE && p % PAGE == 0
  {
    x / PAGE * PAGE
  }

  // ---------- sorting ----------

  ghost predicate Descending(s: seq<Mod>) {
    forall i, j | 0 <= i < j < |s| :: s[i].start >= s[j].start
  }

  /** The insertion of the sort: after everything that starts at least as high. */
  function Insert(s: seq<Mod>, v: Mod): (r: seq<Mod>)
    ensures |r| == |s| + 1
  {
    if s == [] then [v]
    else
      var n := |s| - 1;
      if s[n].start < v.start then Insert(s[..n], v) + [s[n]] else s + [v]
  }

  function Sorted(s: seq<Mod>): (r: seq<Mod>)
    ensures |r| == |s|
  {
    if s == [] then [] else Insert(Sorted(s[..|s| - 1]), s[|s| - 1])
  }

  lemma {:induction false} InsertMembers(s: seq<Mod>, v: Mod)
    ensures multiset(Insert(s, v)) == multiset(s) + multiset{v}
    ensures forall i | 0 <= i < |Insert(s, v)| :: Insert(s, v)[i] == v || Insert(s, v)[i] in s
  {
    if s != [] {
      var n := |s| - 1;
      assert s == s[..n] + [s[n]];
      if s[n].start < v.start { InsertMembers(s[..n], v); }
    }
  }

  lemma {:induction false} InsertSorts(s: seq<Mod>, v: Mod)
    requires Descending(s)
    ensures Descending(Insert(s, v))
  {
    if s != [] {
      var n := |s| - 1;
      if s[n].start < v.start {
        InsertSorts(s[..n], v);
        InsertMembers(s[..n], v);
        var r := Insert(s[..n], v);
        forall i | 0 <= i < |r| ensures r[i].start >= s[n].start { assert r[i] == v || r[i] in s[..n]; }
      }
    }
  }

  /** The sorted table has the same modules, highest first. */
  lemma {:induction false} SortedOk(s: seq<Mod>)
    ensures Descending(Sorted(s)) && multiset(Sorted(s)) == multiset(s)
  {
    if s != [] {
      var n := |s| - 1;
      assert s == s[..n] + [s[n]];
      SortedOk(s[..n]);
      InsertSorts(Sorted(s[..n]), s[n]);
      InsertMembers(Sorted(s[..n]), s[n]);
    }
  }

  // ---------- modules that do not overlap ----------

  /** Page aligned, not empty, and no byte in common. */
  predicate Whole(m: Mod) { m.start < m.end && m.start % PAGE == 0 }

  predicate Clear(a: Mod, b: Mod) { a.end <= b.start || b.end <= a.start }

  ghost predicate AllClear(s: seq<Mod>) {
    && (forall i | 0 <= i < |s| :: Whole(s[i]))
    && (forall i, j | 0 <= i < j < |s| :: Clear(s[i], s[j]))
  }

  lemma {:induction false} InsertClear(s: seq<Mod>, v: Mod)
    requires AllClear(s) && Whole(v) && forall i | 0 <= i < |s| :: Clear(s[i], v)
    ensures AllClear(Insert(s, v))
  {
    if s != [] {
      var n := |s| - 1;
      if s[n].start < v.start {
        InsertClear(s[..n], v);
        InsertMembers(s[..n], v);
        var r := Insert(s[..n], v);
        forall i | 0 <= i < |r| ensures Clear(r[i], s[n]) { assert r[i] == v || r[i] in s[..n]; }
      }
    }
  }

  lemma {:induction false} SortedClear(s: seq<Mod>)
    requires AllClear(s)
    ensures AllClear(Sorted(s)) && Apart(Sorted(s))
  {
    if s != [] {
      var n := |s| - 1;
      SortedClear(s[..n]);
      SortedOk(s[..n]);
      var r := Sorted(s[..n]);
      forall i | 0 <= i < |r| ensures Clear(r[i], s[n]) { SortedFrom(s[..n], r[i]); }
      InsertClear(r, s[n]);
    }
    SortedOk(s);
    var t := Sorted(s);
    forall i, j | 0 <= i < j < |t| ensures t[j].end <= t[i].start {
      assert Clear(t[i], t[j]) && Whole(t[i]) && Whole(t[j]);
    }
  }

  lemma SortedFrom(s: seq<Mod>, m: Mod)
    requires m in Sorted(s)
    ensures m in s
  {
    SortedOk(s);
    assert m in multiset(Sorted(s));
  }

  // ---------- where the modules go ----------

  function Len(m: Mod): nat { if m.end >= m.start then m.end - m.start else 0 }

  /** The destination below `top`, if there is room above the limit. */
  predicate Fits(m: Mod, top: nat) { m.start <= m.end && Len(m) <= top && PageDown(top - Len(m)) >= LOWEST }

  /** How many of the modules are kept, and the first byte used. */
  function Kept(s: seq<Mod>, top: nat): (n: nat)
    ensures n <= |s|
    decreases |s|
  {
    if s == [] || !Fits(s[0], top) then 0 else 1 + Kept(s[1..], PageDown(top - Len(s[0])))
  }

  function Dest(s: seq<Mod>, top: nat, i: nat): nat
    requires i < Kept(s, top)
    decreases |s|
  {
    var d := PageDown(top - Len(s[0]));
    if i == 0 then d else Dest(s[1..], d, i - 1)
  }

  function Floor(s: seq<Mod>, top: nat): (f: nat)
    ensures f <= top
    decreases |s|
  {
    if s == [] || !Fits(s[0], top) then top else Floor(s[1..], PageDown(top - Len(s[0])))
  }

  /** Modules as the loader leaves them: page aligned, and none reaches into the next. */
  ghost predicate Apart(s: seq<Mod>) {
    && (forall i | 0 <= i < |s| :: s[i].start <= s[i].end && s[i].start % PAGE == 0)
    && (forall i, j | 0 <= i < j < |s| :: s[j].end <= s[i].start)
  }

  /** A module never moves down, so it stays clear of all modules that have not moved yet. */
  lemma MovesUp(m: Mod, top: nat)
    requires m.start <= m.end <= top && m.start % PAGE == 0
    ensures m.start <= PageDown(top - Len(m))
  {
  }

  /** The new places lie between the floor and the top, each below the one before. */
  lemma {:induction false} DestsOk(s: seq<Mod>, top: nat, i: nat)
    requires i < Kept(s, top)
    ensures LOWEST <= Dest(s, top, i) && Floor(s, top) <= Dest(s, top, i) && Dest(s, top, i) + Len(s[i]) <= top
    ensures i > 0 ==> Dest(s, top, i) + Len(s[i]) <= Dest(s, top, i - 1)
    decreases |s|
  {
    if i > 0 { DestsOk(s[1..], PageDown(top - Len(s[0])), i - 1); }
  }

  /** So no two kept modules overlap. */
  lemma {:induction false} DestsApart(s: seq<Mod>, top: nat, i: nat, j: nat)
    requires i < j < Kept(s, top)
    ensures Dest(s, top, j) + Len(s[j]) <= Dest(s, top, i)
    decreases j
  {
    DestsOk(s, top, j);
    if i < j - 1 {
      DestsApart(s, top, i, j - 1);
    }
  }

  /** The top after `i` modules. */
  function TopAt(s: seq<Mod>, top: nat, i: nat): nat
    requires i <= Kept(s, top)
  {
    if i == 0 then top else Dest(s, top, i - 1)
  }

  lemma {:induction false} NextDest(s: seq<Mod>, top: nat, i: nat)
    requires i <= Kept(s, top)
    ensures i == Kept(s, top) ==> TopAt(s, top, i) == Floor(s, top) && (i < |s| ==> !Fits(s[i], TopAt(s, top, i)))
    ensures i < Kept(s, top) ==>
              Fits(s[i], TopAt(s, top, i)) && Dest(s, top, i) == PageDown(TopAt(s, top, i) - Len(s[i]))
    decreases |s|
  {
    if i > 0 { NextDest(s[1..], PageDown(top - Len(s[0])), i - 1); }
  }

  /** The bytes of [from, from + len) before are those of [to, to + len) now. */
  ghost predicate Carried(was: seq<nat>, now: seq<nat>, from: nat, to: nat, len: nat) {
    from + len <= |was| && to + len <= |now| && now[to..to + len] == was[from..from + len]
  }

  class Machine {
    const mem: array<nat>
    const mods: array<Mod>
    var nmods: nat
    var floor: nat

    constructor (m: array<nat>)
      ensures mem == m && fresh(mods) && mods.Length == MAX_MODS
    {
      mem := m;
      mods := new Mod[MAX_MODS](_ => Mod(0, 0, ""));
      nmods, floor := 0, 0;
    }

    /** memmove. */
    method Move(dst: nat, src: nat, len: nat)
      requires src + len <= mem.Length && dst + len <= mem.Length
      modifies mem
      ensures forall k | 0 <= k < mem.Length ::
                !(dst <= k < dst + len) ==> mem[k] == old(mem[k])
      ensures Carried(old(mem[..]), mem[..], src, dst, len)
    {
      if dst <= src {
        var i := 0;
        while i < len
          invariant 0 <= i <= len
          invariant forall k | 0 <= k < mem.Length ::
            mem[k] == if dst <= k < dst + i then old(mem[k - dst + src]) else old(mem[k])
        {
          mem[dst + i] := mem[src + i];
          i := i + 1;
        }
      } else {
        var i := len;
        while i > 0
          invariant 0 <= i <= len
          invariant forall k | 0 <= k < mem.Length ::
                      mem[k] == if dst + i <= k < dst + len then old(mem[k - dst + src]) else old(mem[k])
        {
          i := i - 1;
          mem[dst + i] := mem[src + i];
        }
      }
      assert mem[..][dst..dst + len] == old(mem[..])[src..src + len];
    }

    /** The insertion sort on the table, highest start first. */
    method Sort(n: nat)
      requires n <= mods.Length
      modifies mods
      ensures mods[..n] == Sorted(old(mods[..n]))
    {
      hide Insert;
      ghost var was := mods[..];
      var i := if n == 0 then 0 else 1;
      SortedShort(was);
      while i < n
        invariant i <= n && (n > 0 ==> i >= 1)
        invariant mods[..] == Sorted(was[..i]) + was[i..]
      {
        ghost var cur := mods[..];
        SortedNext(was, i);
        assert cur[..i] == Sorted(was[..i]) && cur[i] == was[i] && cur[i + 1..] == was[i + 1..];
        InsertLast(i);
        i := i + 1;
      }
      assert mods[..n] == Sorted(was[..n]);
    }

    method InsertLast(i: nat)
      requires 1 <= i < mods.Length
      modifies mods
      ensures mods[..] == Insert(old(mods[..i]), old(mods[i])) + old(mods[i + 1..])
    {
      hide Insert;
      var v := mods[i];
      ghost var was, cur := mods[..], mods[..];
      var j := i - 1;
      while j >= 0 && mods[j].start < v.start
        invariant -1 <= j < i && mods[..] == cur && |cur| == |was|
        invariant Insert(was[..i], v) + was[i + 1..] == Insert(cur[..j + 1], v) + cur[j + 2..]
      {
        ShiftStep(cur, j, v);
        mods[j + 1] := mods[j];
        cur := cur[j + 1 := cur[j]];
        j := j - 1;
      }
      InsertHere(cur[..j + 1], v);
      mods[j + 1] := v;
      assert mods[..] == cur[..j + 1] + [v] + cur[j + 2..];
    }

    /** One module to its place below `top`. */
    method MoveOne(i: nat, top: nat)
      requires i < mods.Length && mods[i].end <= mem.Length && top <= mem.Length && Fits(mods[i], top)
      modifies mods, mem
      ensures var m, d := old(mods[i]), PageDown(top - Len(old(mods[i])));
              && mods[..] == old(mods[..])[i := Mod(d, d + Len(m), m.name)]
              && (forall a | 0 <= a < mem.Length && !(d <= a < top) :: mem[a] == old(mem[a]))
              && m.start + Len(m) <= mem.Length && Carried(old(mem[..]), mem[..], m.start, d, Len(m))
    {
      hide Carried, PageDown;
      var m := mods[i];
      var len := m.end - m.start;
      var dst := PageDown(top - len);
      Move(dst, m.start, len);
      mods[i] := Mod(dst, dst + len, m.name);
    }

    /** relocate_modules on `table`, the modules of the loader in its own order. */
    method Relocate(table: seq<Mod>, lowEnd: nat) returns (ghost s: seq<Mod>, ghost top: nat)
      requires mods.Length == MAX_MODS && lowEnd <= mem.Length && forall i | 0 <= i < |table| ::
        table[i].end <= mem.Length
      modifies this, mods, mem
      ensures s == Sorted(First(table)) && top == PageDown(lowEnd) && nmods == Kept(s, top) <= MAX_MODS
      ensures floor == if table == [] then lowEnd else Floor(s, top)
      ensures forall i | 0 <= i < nmods :: mods[i] == Moved(s, top, i)
      ensures forall i | 0 <= i < nmods :: floor <= mods[i].start && LOWEST <= mods[i].start <= mods[i].end <= lowEnd
      ensures forall i, j | 0 <= i < j < nmods :: mods[j].end <= mods[i].start
      ensures AllClear(First(table)) && (forall i | 0 <= i < |s| :: s[i].end <= top) ==>
                forall i | 0 <= i < nmods :: Carried(old(mem[..]), mem[..], s[i].start, Dest(s, top, i), Len(s[i]))
    {
      hide Kept, Dest, Floor, TopAt, Sorted, AllClear, Carried, Apart, PageDown;
      var tab := First(table);
      s, top := Sorted(tab), PageDown(lowEnd);
      floor, nmods := lowEnd, 0;
      if |table| == 0 {
        NothingKept(s, top);
        return;
      }
      Load(tab);
      Sort(|tab|);
      SortedInside(tab, mem.Length);
      ghost var good := AllClear(tab) && forall k | 0 <= k < |s| :: s[k].end <= top;
      if good { SortedClear(tab); }
      forall k | 0 <= k < |s| ensures mods[k] == s[k] { assert mods[k] == mods[..|tab|][k]; }
      nmods, floor := Slide(|tab|, PageDown(lowEnd), s, good);
      PlacesApart(s, lowEnd);
    }

    /** The loop that moves them. */
    method Slide(n: nat, top: nat, ghost s: seq<Mod>, ghost good: bool) returns (kept: nat, t: nat)
      requires n == |s| <= mods.Length && top <= mem.Length && forall i | 0 <= i < |s| :: s[i].end <= mem.Length
      requires good ==> Apart(s) && forall i | 0 <= i < |s| :: s[i].end <= top
      requires forall k | 0 <= k < n :: mods[k] == s[k]
      modifies mods, mem
      ensures kept == Kept(s, top) && t == Floor(s, top)
      ensures forall i | 0 <= i < kept :: mods[i] == Moved(s, top, i)
      ensures good ==> forall i | 0 <= i < kept ::
        Carried(old(mem[..]), mem[..], s[i].start, Dest(s, top, i), Len(s[i]))
    {
      hide Kept, Dest, Floor, TopAt, Carried, Apart, PageDown, Fits, Moved;
      ghost var was := mem[..];
      t := top;
      var i := 0;
      TopSteps(s, top, 0);
      NextDest(s, top, 0);
      while i < n && Fits(mods[i], t)
        invariant i <= n && i <= Kept(s, top) && t == TopAt(s, top, i)
        invariant forall k | i <= k < n :: mods[k] == s[k]
        invariant forall k | 0 <= k < i :: mods[k] == Moved(s, top, k)
        invariant good ==> Half(s, top, was, mem[..], i, t)
      {
        NextDest(s, top, i);
        TopSteps(s, top, i);
        ghost var mid := mem[..];
        TopBelow(s, top, i);
        MoveOne(i, t);
        if good { HalfStep(s, top, was, mid, mem[..], i, t); }
        t := mods[i].start;
        i := i + 1;
      }
      NextDest(s, top, i);
      kept := i;
    }

    method Load(tab: seq<Mod>)
      requires |tab| <= mods.Length
      modifies mods
      ensures mods[..|tab|] == tab
    {
      var i := 0;
      while i < |tab|
        invariant 0 <= i <= |tab| && mods[..i] == tab[..i]
      {
        mods[i] := tab[i];
        i := i + 1;
      }
    }
  }

  function Moved(s: seq<Mod>, top: nat, i: nat): Mod
    requires i < Kept(s, top)
  {
    Mod(Dest(s, top, i), Dest(s, top, i) + Len(s[i]), s[i].name)
  }

  lemma NothingKept(s: seq<Mod>, top: nat)
    requires s == [] || s == Sorted([])
    ensures Kept(s, top) == 0
  {
  }

  lemma TopBelow(s: seq<Mod>, top: nat, i: nat)
    requires i <= Kept(s, top)
    ensures TopAt(s, top, i) <= top
  {
    if i > 0 { DestsOk(s, top, i - 1); }
  }

  lemma TopSteps(s: seq<Mod>, top: nat, i: nat)
    requires i <= Kept(s, top)
    ensures TopAt(s, top, 0) == top && (i < Kept(s, top) ==> TopAt(s, top, i + 1) == Dest(s, top, i))
    ensures i < Kept(s, top) ==> Moved(s, top, i) == Mod(Dest(s, top, i), Dest(s, top, i) + Len(s[i]), s[i].name)
  {
  }

  /** Part way: what lies below the top is untouched, what was moved has its bytes, what is left ends below the top. */
  ghost predicate Half(s: seq<Mod>, top: nat, was: seq<nat>, now: seq<nat>, i: nat, t: nat)
    requires i <= Kept(s, top)
  {
    && |now| == |was|
    && (forall a | 0 <= a < t && a < |now| :: now[a] == was[a])
    && (forall k | i <= k < |s| :: s[k].end <= t)
    && (forall k | 0 <= k < i :: Carried(was, now, s[k].start, Dest(s, top, k), Len(s[k])))
  }

  /** The kept modules lie apart between the floor and the end of low memory. */
  lemma PlacesApart(s: seq<Mod>, lowEnd: nat)
    ensures var top := PageDown(lowEnd);
            forall i | 0 <= i < Kept(s, top) ::
              && Floor(s, top) <= Moved(s, top, i).start
              && LOWEST <= Moved(s, top, i).start <= Moved(s, top, i).end <= lowEnd
    ensures var top := PageDown(lowEnd);
            forall i, j | 0 <= i < j < Kept(s, top) :: Moved(s, top, j).end <= Moved(s, top, i).start
  {
    hide Kept, Dest, Floor;
    var top := PageDown(lowEnd);
    forall i | 0 <= i < Kept(s, top)
      ensures Floor(s, top) <= Dest(s, top, i) && LOWEST <= Dest(s, top, i) && Dest(s, top, i) + Len(s[i]) <= top
    {
      DestsOk(s, top, i);
    }
    forall i, j | 0 <= i < j < Kept(s, top) ensures Dest(s, top, j) + Len(s[j]) <= Dest(s, top, i) {
      DestsApart(s, top, i, j);
    }
  }

  lemma HalfStep(s: seq<Mod>, top: nat, was: seq<nat>, mid: seq<nat>, now: seq<nat>, i: nat, t: nat)
    requires i < Kept(s, top) && t == TopAt(s, top, i) && Half(s, top, was, mid, i, t) && Apart(s) && |now| == |mid|
    requires forall a | 0 <= a < |mid| && !(Dest(s, top, i) <= a < t) :: now[a] == mid[a]
    requires Carried(mid, now, s[i].start, Dest(s, top, i), Len(s[i]))
    ensures Half(s, top, was, now, i + 1, Dest(s, top, i))
  {
    hide Kept, Dest, TopAt, PageDown, Floor, Carried;
    NextDest(s, top, i);
    MovesUp(s[i], t);
    CarriedFirst(was, mid, now, s[i].start, Dest(s, top, i), Len(s[i]), t);
    forall k | 0 <= k < i ensures Carried(was, now, s[k].start, Dest(s, top, k), Len(s[k])) {
      DestAbove(s, top, k, i);
      CarriedStays(was, mid, now, s[k].start, Dest(s, top, k), Len(s[k]), Dest(s, top, i), t);
    }
  }

  lemma DestAbove(s: seq<Mod>, top: nat, k: nat, i: nat)
    requires k < i <= Kept(s, top)
    ensures TopAt(s, top, i) <= Dest(s, top, k)
  {
    if k < i - 1 { DestsApart(s, top, k, i - 1); }
  }

  lemma CarriedFirst(was: seq<nat>, mid: seq<nat>, now: seq<nat>, from: nat, to: nat, len: nat, t: nat)
    requires Carried(mid, now, from, to, len) && |was| == |mid| && from + len <= t
      && forall a | 0 <= a < t && a < |mid| :: mid[a] == was[a]
    ensures Carried(was, now, from, to, len)
  {
    assert mid[from..from + len] == was[from..from + len];
  }

  lemma CarriedStays(was: seq<nat>, mid: seq<nat>, now: seq<nat>, from: nat, to: nat, len: nat, lo: nat, hi: nat)
    requires Carried(was, mid, from, to, len) && |now| == |mid| && hi <= to
    requires forall a | 0 <= a < |mid| && !(lo <= a < hi) :: now[a] == mid[a]
    ensures Carried(was, now, from, to, len)
  {
    assert now[to..to + len] == mid[to..to + len];
  }

  lemma SortedInside(s: seq<Mod>, n: nat)
    requires forall i | 0 <= i < |s| :: s[i].end <= n
    ensures forall i | 0 <= i < |Sorted(s)| :: Sorted(s)[i].end <= n
  {
    forall i | 0 <= i < |Sorted(s)| ensures Sorted(s)[i].end <= n { SortedFrom(s, Sorted(s)[i]); }
  }

  lemma SortedShort(s: seq<Mod>)
    ensures s == Sorted(s[..0]) + s[0..] && (|s| > 0 ==> s == Sorted(s[..1]) + s[1..])
  {
    if |s| > 0 { assert s[..1][..0] == [] && Sorted(s[..1]) == Insert([], s[0]) == [s[0]]; }
  }

  lemma SortedNext(s: seq<Mod>, i: nat)
    requires i < |s|
    ensures Sorted(s[..i + 1]) == Insert(Sorted(s[..i]), s[i])
  {
    assert s[..i + 1][..i] == s[..i];
  }

  lemma ShiftStep(cur: seq<Mod>, j: nat, v: Mod)
    requires j + 1 < |cur| && cur[j].start < v.start
    ensures var next := cur[j + 1 := cur[j]];
            Insert(cur[..j + 1], v) + cur[j + 2..] == Insert(next[..j], v) + next[j + 1..]
  {
    InsertBefore(cur[..j + 1], v);
    hide Insert;
    var next := cur[j + 1 := cur[j]];
    assert cur[..j + 1][..j] == next[..j];
    assert next[j + 1..] == [cur[j]] + cur[j + 2..];
  }

  /** The table has room for eight modules. */
  function First(table: seq<Mod>): seq<Mod> { if |table| > MAX_MODS then table[..MAX_MODS] else table }

  lemma InsertBefore(s: seq<Mod>, v: Mod)
    requires s != [] && s[|s| - 1].start < v.start
    ensures Insert(s, v) == Insert(s[..|s| - 1], v) + [s[|s| - 1]]
  {
  }

  lemma InsertHere(s: seq<Mod>, v: Mod)
    requires s == [] || s[|s| - 1].start >= v.start
    ensures Insert(s, v) == s + [v]
  {
  }
}

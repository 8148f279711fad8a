/**
  The operations on ranges of pages, on the tables themselves: walks that make tables on the way,
  loops that jump over holes and treat 512 reserved pages as one entry. Each is proved to do to the
  flat map what a page-by-page loop would do.
  */
module PageRange {
  import FramePool
  import opened VmState
  import opened VmOps
  import opened PageTree

  /** The loops that never make a mapping. */
  datatype Sweep = Free | Discard | SetUser(us: bool) | SetWritable(w: bool, many: set<nat>)

  /** What a sweep does to one page; `many` has the frames with more than one reference. */
  function PageEffect(op: Sweep, e: Slot): Slot {
    if !e.Leaf? then e else
    match op
    case Free => Zero
    case Discard => if e.e.Present? && e.e.rw && !e.e.shared then Leaf(Lazy(true, e.e.us)) else e
    case SetUser(us) => Leaf(UserBit(e.e, us))
    case SetWritable(w, many) =>
      if !w then Leaf(Bits(e.e, false, false))
      else if e.e.Present? && !e.e.shared && e.e.fr in many then Leaf(Bits(e.e, false, true))
      else Leaf(Bits(e.e, true, false))
  }

  /** The sweeps that leave or take a whole marker without making a table. */
  predicate WholeMarks(op: Sweep) {
    match op
    case Free => true
    case Discard => true
    case SetUser(us) => !us
    case SetWritable(w, _) => !w
  }

  /** free and discard leave addresses outside the user half alone. */
  predicate Swept(op: Sweep, p: nat) {
    (op.Free? || op.Discard?) ==> BASE <= p < TOP
  }

  function Size(l: nat): nat {
    if l == 1 then 512 else if l == 2 then 262144 else 134217728
  }

  lemma UpDivides(q: nat)
    ensures Up(q, 1) == q / 512 && Up(q, 2) == q / 262144 && Up(q, 3) == q / 134217728
  {
    assert Up(q, 2) == Up(q / 512, 1) == q / 512 / 512;
    assert Up(q, 3) == Up(q / 512, 2) == Up(q / 512 / 512, 1);
  }

  lemma SameBlock(a: nat, q: nat, l: nat)
    requires 1 <= l <= 3 && a <= q < a / Size(l) * Size(l) + Size(l)
    ensures Up(q, l) == Up(a, l)
  {
    UpDivides(a);
    UpDivides(q);
  }

  ghost predicate MarksWithin(tab: Tables, tab': Tables, pd: nat) {
    forall x | 0 <= x < TOP / 512 :: EntryAt(tab', pd, x, 1) == MARK ==> EntryAt(tab, pd, x, 1) == MARK
  }

  /** No entry of level 1 changes. */
  ghost predicate SameBlocks(tab: Tables, tab': Tables, pd: nat) {
    forall x | 0 <= x < TOP / 512 :: EntryAt(tab', pd, x, 1) == EntryAt(tab, pd, x, 1)
  }

  /** Outside block `b` the markers are the same. */
  ghost predicate MarksBut(tab: Tables, tab': Tables, pd: nat, b: nat) {
    forall x | 0 <= x < TOP / 512 && x != b :: EntryAt(tab', pd, x, 1) == MARK <==> EntryAt(tab, pd, x, 1) == MARK
  }

  /** The table `t` is where the walk for `x`, a block of level `l`, looks at level `l`. */
  lemma Here(tab: Tables, home: map<nat, Place>, pd: nat, t: nat, p: nat, l: nat)
    requires Ok(tab, home, pd) && t in tab && t in home && l <= 3 && home[t] == Place(l, Up(p, l + 1))
    ensures |tab[t]| == 512 && EntryAt(tab, pd, Up(p, l), l) == tab[t][Up(p, l) % 512]
    ensures PteOk(tab, home, home[t], Up(p, l) % 512, tab[t][Up(p, l) % 512])
    ensures home[t].block * 512 + Up(p, l) % 512 == Up(p, l)
  {
    UpSplit(p, l + 1);
    AtTable(tab, home, pd, t, Up(p, l) % 512);
    assert TableOk(tab, home, t);
  }

  /** An entry of an upper level that is no link decides about all pages below it. */
  lemma HoleBelow(tab: Tables, pd: nat, a: nat, q: nat, l: nat)
    requires 1 <= l <= 3 && a <= q < a / Size(l) * Size(l) + Size(l)
    requires EntryAt(tab, pd, Up(a, l), l) == Zero
    ensures View(tab, pd, q) == Zero
  {
    SameBlock(a, q, l);
    EmptyBelow(tab, pd, q, 0, l);
  }

  predicate Checked(op: Sweep) { op.Free? || op.Discard? }

  /** The sweep of [lo, hi) has come to `a`; the pages in `skipped` were left as they were. */
  ghost predicate SweptTo(op: Sweep, tab0: Tables, tab: Tables, pd: nat, lo: nat, a: nat, hi: nat, skipped: set<nat>) {
    forall p | 0 <= p < TOP ::
      View(tab, pd, p) ==
      if lo <= p < a && p < hi && Swept(op, p) && p !in skipped then PageEffect(op, View(tab0, pd, p))
        else View(tab0, pd, p)
  }

  /** Skipped pages lie in markers; if whole markers are handled at once, in those covered only in part. */
  ghost predicate SkippedOk(op: Sweep, tab0: Tables, pd: nat, lo: nat, hi: nat, skipped: set<nat>) {
    forall p | p in skipped :: lo <= p < hi && Marked(tab0, pd, p) && (WholeMarks(op) ==> !Inside(op, lo, hi, p))
  }

  predicate Inside(op: Sweep, lo: nat, hi: nat, p: nat) {
    FirstPage(op, lo) <= p / 512 * 512 && p / 512 * 512 + 512 <= hi
  }

  function FirstPage(op: Sweep, lo: nat): nat {
    if Checked(op) && lo < BASE then BASE else lo
  }

  /** The first page of block `x` that the sweep looks at. */
  function Start(op: Sweep, lo: nat, x: nat): nat {
    if x * 512 < FirstPage(op, lo) then FirstPage(op, lo) else x * 512
  }

  /** Block `x` is a marker that meets the range and that the sweep cannot take or leave as a whole. */
  predicate Expanding(op: Sweep, tab0: Tables, pd: nat, lo: nat, hi: nat, x: nat) {
    && x < TOP / 512 && EntryAt(tab0, pd, x, 1) == MARK
    && Start(op, lo, x) < hi && Start(op, lo, x) < x * 512 + 512
    && (WholeMarks(op) ==> !Inside(op, lo, hi, x * 512))
  }

  /** The markers that need a table each. */
  ghost function Expands(op: Sweep, tab0: Tables, pd: nat, lo: nat, hi: nat): set<nat> {
    set x: nat | x < TOP / 512 && Expanding(op, tab0, pd, lo, hi, x)
  }

  /** Where a sweep started, and what it has done so far. */
  datatype Trip = Trip(op: Sweep, tab0: Tables, free0: set<nat>, pd: nat, lo: nat, hi: nat)

  ghost predicate Sofar(r: Trip, tab: Tables, free: set<nat>, a: nat, skipped: set<nat>) {
    && r.lo <= a && free <= r.free0 && MarksWithin(r.tab0, tab, r.pd)
    && SweptTo(r.op, r.tab0, tab, r.pd, r.lo, a, r.hi, skipped)
    && SkippedOk(r.op, r.tab0, r.pd, r.lo, r.hi, skipped) && (skipped != {} ==> free == {})
    && (forall p | p in skipped :: p < a)
    && Steady(r, tab, a) && Counted(r, tab, free, a, skipped)
  }

  /** A marker inside the range is met at its first page, if it can be handled as a whole. */
  ghost predicate Steady(r: Trip, tab: Tables, a: nat) {
    WholeMarks(r.op) && Marked(tab, r.pd, a) && Inside(r.op, r.lo, r.hi, a) ==> a % 512 == 0
  }

  predicate Due(r: Trip, x: nat) {
    Expanding(r.op, r.tab0, r.pd, r.lo, r.hi, x)
  }

  /** The markers that have been met by the time the sweep comes to `a`. */
  ghost function Met(r: Trip, a: nat): set<nat> {
    set x: nat | x < TOP / 512 && Due(r, x) && Start(r.op, r.lo, x) < a
  }

  /** A marker that was met has its table; one that was not is as it was. */
  ghost predicate BlockAt(r: Trip, tab: Tables, a: nat, x: nat) {
    && (Start(r.op, r.lo, x) < a && Due(r, x) ==> EntryAt(tab, r.pd, x, 1) != MARK)
    && (Start(r.op, r.lo, x) >= a ==> (EntryAt(tab, r.pd, x, 1) == MARK <==> EntryAt(r.tab0, r.pd, x, 1) == MARK))
  }

  ghost predicate AllBlocks(r: Trip, tab: Tables, a: nat) {
    forall x | 0 <= x < TOP / 512 :: BlockAt(r, tab, a, x)
  }

  /** Every marker that was met took a frame; or there were too few. */
  ghost predicate Counted(r: Trip, tab: Tables, free: set<nat>, a: nat, skipped: set<nat>) {
    if skipped == {}
    then |r.free0| == |free| + |Met(r, a)| && AllBlocks(r, tab, a)
    else |r.free0| < |Expands(r.op, r.tab0, r.pd, r.lo, r.hi)|
  }

  predicate Marked(tab: Tables, pd: nat, a: nat) {
    a < TOP && EntryAt(tab, pd, a / 512, 1) == MARK
  }

  /** A block whose first page is `a` is the block of `a`. */
  lemma StartsAt(r: Trip, a: nat, x: nat)
    requires Due(r, x) && Start(r.op, r.lo, x) == a
    ensures x == a / 512
  {
  }

  /** Where nothing is marked any more, no marker is met. */
  lemma CountedOn(r: Trip, tab: Tables, free: set<nat>, a: nat, b: nat, skipped: set<nat>)
    requires Counted(r, tab, free, a, skipped) && a <= b
    requires forall x | Due(r, x) && a <= Start(r.op, r.lo, x) < b :: EntryAt(tab, r.pd, x, 1) != MARK
    ensures Counted(r, tab, free, b, skipped)
  {
    if skipped == {} {
      forall x | 0 <= x < TOP / 512
        ensures BlockAt(r, tab, b, x) && (x in Met(r, b) <==> x in Met(r, a))
      {
        assert BlockAt(r, tab, a, x);
      }
      assert Met(r, b) == Met(r, a);
    }
  }

  /** A marker that goes as a whole costs nothing. */
  lemma CountedMark(r: Trip, tab: Tables, tab': Tables, free: set<nat>, a: nat, skipped: set<nat>)
    requires Counted(r, tab, free, a, skipped) && a < TOP && a % 512 == 0 && a + 512 <= r.hi
    requires WholeMarks(r.op) && FirstPage(r.op, r.lo) <= a && MarksBut(tab, tab', r.pd, a / 512)
    ensures Counted(r, tab', free, a + 512, skipped)
  {
    if skipped == {} {
      var b := a + 512;
      forall x | 0 <= x < TOP / 512 ensures BlockAt(r, tab', b, x) { MarkAt(r, tab, tab', a, x); }
      forall x | x in Met(r, b) ensures x in Met(r, a) { MarkAt(r, tab, tab', a, x); }
      assert Met(r, b) == Met(r, a);
    }
  }

  lemma MarkAt(r: Trip, tab: Tables, tab': Tables, a: nat, x: nat)
    requires x < TOP / 512 && BlockAt(r, tab, a, x) && a < TOP && a % 512 == 0 && a + 512 <= r.hi
    requires WholeMarks(r.op) && FirstPage(r.op, r.lo) <= a && MarksBut(tab, tab', r.pd, a / 512)
    ensures BlockAt(r, tab', a + 512, x) && (Due(r, x) ==> Start(r.op, r.lo, x) < a || Start(r.op, r.lo, x) >= a + 512)
  {
    if x == a / 512 { assert !Due(r, x); }
  }

  /** The page at `a` is in a marker that has to be expanded and was not met before. */
  lemma MeetsMarker(r: Trip, tab: Tables, free: set<nat>, a: nat, skipped: set<nat>)
    requires Sofar(r, tab, free, a, skipped) && a < r.hi && FirstPage(r.op, r.lo) <= a && Marked(tab, r.pd, a)
    requires WholeMarks(r.op) && a % 512 == 0 ==> a + 512 > r.hi
    ensures Due(r, a / 512) && a / 512 in Expands(r.op, r.tab0, r.pd, r.lo, r.hi)
    ensures skipped == {} ==> Start(r.op, r.lo, a / 512) == a && a / 512 !in Met(r, a)
  {
    var x := a / 512;
    assert EntryAt(tab, r.pd, x, 1) == MARK && EntryAt(r.tab0, r.pd, x, 1) == MARK;
    hide SweptTo, SkippedOk, MarksWithin, View, EntryAt, Met, Counted, Inside, Start;
    InBlock(r.op, r.lo, r.hi, a);
    assert Due(r, x);
    if skipped == {} { NotMet(r, tab, free, a); }
  }

  lemma InBlock(op: Sweep, lo: nat, hi: nat, a: nat)
    requires FirstPage(op, lo) <= a
    ensures Start(op, lo, a / 512) <= a < a / 512 * 512 + 512
    ensures Inside(op, lo, hi, a) <==> Inside(op, lo, hi, a / 512 * 512)
  {
  }

  lemma NotMet(r: Trip, tab: Tables, free: set<nat>, a: nat)
    requires Counted(r, tab, free, a, {}) && Marked(tab, r.pd, a) && Due(r, a / 512)
    ensures Start(r.op, r.lo, a / 512) >= a && a / 512 !in Met(r, a)
  {
    assert BlockAt(r, tab, a, a / 512);
  }

  lemma CountedPage(r: Trip, tab: Tables, tab': Tables, free: set<nat>, free': set<nat>, a: nat, skipped: set<nat>)
    requires Sofar(r, tab, free, a, skipped) && a < r.hi && a < TOP && FirstPage(r.op, r.lo) <= a
    requires MarksBut(tab, tab', r.pd, a / 512) && !Marked(tab', r.pd, a)
    requires if Marked(tab, r.pd, a) then |free| == |free'| + 1 else free' == free
    requires WholeMarks(r.op) && a % 512 == 0 && Marked(tab, r.pd, a) ==> a + 512 > r.hi
    ensures Counted(r, tab', free', a + 1, skipped)
  {
    if Marked(tab, r.pd, a) { MeetsMarker(r, tab, free, a, skipped); }
    if skipped == {} {
      BlocksOn(r, tab, tab', a);
      MetOn(r, tab, tab', a);
    }
  }

  lemma BlocksOn(r: Trip, tab: Tables, tab': Tables, a: nat)
    requires AllBlocks(r, tab, a)
    requires a < TOP && FirstPage(r.op, r.lo) <= a && MarksBut(tab, tab', r.pd, a / 512) && !Marked(tab', r.pd, a)
    ensures AllBlocks(r, tab', a + 1)
  {
    var b := a + 1;
    forall x | 0 <= x < TOP / 512 ensures BlockAt(r, tab', b, x) { PageAt(r, tab, tab', a, x); }
  }

  lemma MetOn(r: Trip, tab: Tables, tab': Tables, a: nat)
    requires AllBlocks(r, tab, a)
    requires a < TOP && FirstPage(r.op, r.lo) <= a && MarksBut(tab, tab', r.pd, a / 512) && !Marked(tab', r.pd, a)
    requires Marked(tab, r.pd, a) ==> Due(r, a / 512) && Start(r.op, r.lo, a / 512) == a
    ensures |Met(r, a + 1)| == |Met(r, a)| + if Marked(tab, r.pd, a) then 1 else 0
  {
    var b, more := a + 1, if Marked(tab, r.pd, a) then {a / 512} else {};
    forall x | x in Met(r, b) ensures x in Met(r, a) + more { PageAt(r, tab, tab', a, x); }
    assert Met(r, b) == Met(r, a) + more;
  }

  lemma PageAt(r: Trip, tab: Tables, tab': Tables, a: nat, x: nat)
    requires x < TOP / 512 && BlockAt(r, tab, a, x) && a < TOP && FirstPage(r.op, r.lo) <= a
    requires MarksBut(tab, tab', r.pd, a / 512) && !Marked(tab', r.pd, a)
    ensures BlockAt(r, tab', a + 1, x)
    ensures Due(r, x) && Start(r.op, r.lo, x) == a ==> x == a / 512 && Marked(tab, r.pd, a)
  {
    if Due(r, x) && Start(r.op, r.lo, x) == a { StartsAt(r, a, x); }
  }

  lemma CountedSkip(r: Trip, tab: Tables, free: set<nat>, a: nat, skipped: set<nat>)
    requires Sofar(r, tab, free, a, skipped) && a < r.hi && FirstPage(r.op, r.lo) <= a && Marked(tab, r.pd, a)
    requires WholeMarks(r.op) && a % 512 == 0 ==> a + 512 > r.hi
    requires free == {}
    ensures |r.free0| < |Expands(r.op, r.tab0, r.pd, r.lo, r.hi)|
  {
    MeetsMarker(r, tab, free, a, skipped);
    if skipped == {} {
      var all := Expands(r.op, r.tab0, r.pd, r.lo, r.hi);
      assert Met(r, a) + {a / 512} <= all;
      Fewer(Met(r, a) + {a / 512}, all);
    }
  }

  lemma Fewer(a: set<nat>, b: set<nat>)
    requires a <= b
    ensures |a| <= |b|
  {
    assert b == a + (b - a);
  }

  /** At the end all have been met. */
  lemma CountedEnd(r: Trip, tab: Tables, free: set<nat>, a: nat, skipped: set<nat>)
    requires Counted(r, tab, free, a, skipped) && a >= r.hi
    ensures skipped == {} <==> |r.free0| >= |Expands(r.op, r.tab0, r.pd, r.lo, r.hi)|
    ensures skipped == {} ==> |free| == |r.free0| - |Expands(r.op, r.tab0, r.pd, r.lo, r.hi)|
  {
    assert Met(r, a) == Expands(r.op, r.tab0, r.pd, r.lo, r.hi);
  }

  /** Only the first and the last block of a range can need a table when markers inside are handled as a whole. */
  lemma AtMostTwo(op: Sweep, tab0: Tables, pd: nat, lo: nat, hi: nat)
    requires WholeMarks(op)
    ensures |Expands(op, tab0, pd, lo, hi)| <= 2
  {
    var ends := {FirstPage(op, lo) / 512, hi / 512};
    forall x | x in Expands(op, tab0, pd, lo, hi)
      ensures x in ends
    {
    }
    Fewer(Expands(op, tab0, pd, lo, hi), ends);
  }

  ghost predicate PageDone(op: Sweep, tab: Tables, tab': Tables, pd: nat, a: nat, ok: bool) {
    forall q | 0 <= q < TOP ::
      View(tab', pd, q) == if q == a && ok then PageEffect(op, View(tab, pd, q)) else View(tab, pd, q)
  }

  ghost predicate BlockDone(op: Sweep, tab: Tables, tab': Tables, pd: nat, a: nat) {
    forall q | 0 <= q < TOP ::
      View(tab', pd, q) == if q / 512 == a / 512 then PageEffect(op, View(tab, pd, q)) else View(tab, pd, q)
  }

  lemma SofarOutside(r: Trip, tab: Tables, free: set<nat>, a: nat, skipped: set<nat>)
    requires Sofar(r, tab, free, a, skipped) && Checked(r.op) && !(BASE <= a < TOP)
    ensures Sofar(r, tab, free, a + 1, skipped)
  {
    CountedOn(r, tab, free, a, a + 1, skipped);
  }

  lemma SofarHole(r: Trip, tab: Tables, free: set<nat>, a: nat, b: nat, skipped: set<nat>)
    requires Sofar(r, tab, free, a, skipped) && a < b && b % 512 == 0
    requires forall q | a <= q < b :: View(tab, r.pd, q) == Zero
    ensures Sofar(r, tab, free, b, skipped)
  {
    forall x | Due(r, x) && a <= Start(r.op, r.lo, x) < b
      ensures EntryAt(tab, r.pd, x, 1) != MARK
    {
      assert Start(r.op, r.lo, x) / 512 == x;
      assert View(tab, r.pd, Start(r.op, r.lo, x)) == Zero;
    }
    CountedOn(r, tab, free, a, b, skipped);
  }

  lemma SofarMark(r: Trip, tab: Tables, tab': Tables, free: set<nat>, a: nat, skipped: set<nat>)
    requires Sofar(r, tab, free, a, skipped) && a < TOP && a % 512 == 0 && a + 512 <= r.hi && Swept(r.op, a)
    requires MarksWithin(tab, tab', r.pd) && MarksBut(tab, tab', r.pd, a / 512)
    requires BlockDone(r.op, tab, tab', r.pd, a) && WholeMarks(r.op) && FirstPage(r.op, r.lo) <= a
    ensures Sofar(r, tab', free, a + 512, skipped)
  {
    CountedMark(r, tab, tab', free, a, skipped);
    forall p | 0 <= p < TOP
      ensures View(tab', r.pd, p) ==
              if r.lo <= p < a + 512 && p < r.hi && Swept(r.op, p) && p !in skipped
              then PageEffect(r.op, View(r.tab0, r.pd, p)) else View(r.tab0, r.pd, p)
    {
      assert p / 512 == a / 512 <==> a <= p < a + 512;
    }
  }

  lemma SofarPage(r: Trip, tab: Tables, tab': Tables, free: set<nat>, free': set<nat>, a: nat, ok: bool,
      skipped: set<nat>)
    requires Sofar(r, tab, free, a, skipped) && a < r.hi && a < TOP && Swept(r.op, a) && FirstPage(r.op, r.lo) <= a
    requires MarksWithin(tab, tab', r.pd) && MarksBut(tab, tab', r.pd, a / 512) && free' <= free
    requires PageDone(r.op, tab, tab', r.pd, a, ok)
    requires ok ==> !Marked(tab', r.pd, a) && if Marked(tab, r.pd, a) then |free| == |free'| + 1 else free' == free
    requires !ok ==> free' == free == {} && Marked(tab, r.pd, a)
    requires WholeMarks(r.op) && a % 512 == 0 && Marked(tab, r.pd, a) ==> a + 512 > r.hi
    ensures Sofar(r, tab', free', a + 1, if ok then skipped else skipped + {a})
  {
    hide SweptTo, PageDone, SkippedOk, EntryAt, View, Counted;
    SofarViews(r, tab, tab', a, ok, skipped);
    assert (a + 1) % 512 != 0 ==> (a + 1) / 512 == a / 512;
    if ok {
      CountedPage(r, tab, tab', free, free', a, skipped);
    } else {
      SofarSkip(r, tab, free, a, skipped);
      CountedSkip(r, tab, free, a, skipped);
      TooFew(r, tab', free', a + 1, skipped + {a});
    }
  }

  lemma TooFew(r: Trip, tab: Tables, free: set<nat>, a: nat, skipped: set<nat>)
    requires skipped != {} && |r.free0| < |Expands(r.op, r.tab0, r.pd, r.lo, r.hi)|
    ensures Counted(r, tab, free, a, skipped)
  {
  }

  lemma SofarSkip(r: Trip, tab: Tables, free: set<nat>, a: nat, skipped: set<nat>)
    requires Sofar(r, tab, free, a, skipped) && a < r.hi && a < TOP && FirstPage(r.op, r.lo) <= a
      && Marked(tab, r.pd, a)
    requires WholeMarks(r.op) && a % 512 == 0 ==> a + 512 > r.hi
    ensures SkippedOk(r.op, r.tab0, r.pd, r.lo, r.hi, skipped + {a})
  {
  }

  lemma SofarStart(r: Trip)
    ensures Sofar(r, r.tab0, r.free0, r.lo, {})
  {
    assert Met(r, r.lo) == {};
  }

  lemma SofarEnd(r: Trip, tab: Tables, free: set<nat>, a: nat, skipped: set<nat>)
    requires Sofar(r, tab, free, a, skipped) && a >= r.hi
    ensures SweptTo(r.op, r.tab0, tab, r.pd, r.lo, r.hi, r.hi, skipped) && free <= r.free0
    ensures SkippedOk(r.op, r.tab0, r.pd, r.lo, r.hi, skipped) && (skipped != {} ==> free == {})
    ensures MarksWithin(r.tab0, tab, r.pd)
    ensures skipped == {} <==> |r.free0| >= |Expands(r.op, r.tab0, r.pd, r.lo, r.hi)|
    ensures skipped == {} ==> |free| == |r.free0| - |Expands(r.op, r.tab0, r.pd, r.lo, r.hi)|
  {
    CountedEnd(r, tab, free, a, skipped);
  }

  lemma SofarViews(r: Trip, tab: Tables, tab': Tables, a: nat, ok: bool, skipped: set<nat>)
    requires SweptTo(r.op, r.tab0, tab, r.pd, r.lo, a, r.hi, skipped) && r.lo <= a < r.hi && Swept(r.op, a)
      && a !in skipped
    requires PageDone(r.op, tab, tab', r.pd, a, ok)
    ensures SweptTo(r.op, r.tab0, tab', r.pd, r.lo, a + 1, r.hi, if ok then skipped else skipped + {a})
  {
  }

  /** Pages [lo, a) have entry `e`, the others are as they were. */
  ghost predicate LaidTo(tab0: Tables, tab: Tables, pd: nat, lo: nat, a: nat, e: Slot) {
    forall p | 0 <= p < TOP :: View(tab, pd, p) == if lo <= p < a then e else View(tab0, pd, p)
  }

  ghost predicate MarksInside(tab0: Tables, tab: Tables, pd: nat, lo: nat, hi: nat) {
    forall x | 0 <= x < TOP / 512 ::
      EntryAt(tab, pd, x, 1) == MARK ==> EntryAt(tab0, pd, x, 1) == MARK || (lo <= x * 512 && x * 512 + 512 <= hi)
  }

  lemma LaidPage(tab0: Tables, tab: Tables, tab': Tables, pd: nat, lo: nat, a: nat, e: Slot)
    requires LaidTo(tab0, tab, pd, lo, a, e) && lo <= a
    requires forall q | 0 <= q < TOP :: View(tab', pd, q) == if q == a then e else View(tab, pd, q)
    ensures LaidTo(tab0, tab', pd, lo, a + 1, e)
  {
  }

  lemma LaidBlock(tab0: Tables, tab: Tables, tab': Tables, pd: nat, lo: nat, a: nat)
    requires LaidTo(tab0, tab, pd, lo, a, MARK) && lo <= a && a % 512 == 0
    requires forall q | 0 <= q < TOP :: View(tab', pd, q) == if q / 512 == a / 512 then MARK else View(tab, pd, q)
    ensures LaidTo(tab0, tab', pd, lo, a + 512, MARK)
  {
    forall p | 0 <= p < TOP
      ensures View(tab', pd, p) == if lo <= p < a + 512 then MARK else View(tab0, pd, p)
    {
      assert p / 512 == a / 512 <==> a <= p < a + 512;
    }
  }

  /** A page after vmm_alloc_range: mapped already, or given a frame of the pool. */
  predicate Populated(e: Slot, e': Slot, w: bool, many: set<nat>, frames: set<nat>) {
    if e.Leaf? && !e.e.Lazy? then e' == (if w then PageEffect(SetWritable(true, many), e) else e)
    else e'.Leaf? && e'.e.Present? && e'.e.fr in frames && e' == Leaf(Present(e'.e.fr, w, false, false, true, false))
  }

  predicate TakesFrame(e: Slot) { !(e.Leaf? && !e.e.Lazy?) }

  /** Pages [lo, a) are populated with different frames out of `frames`, the others are as they were. */
  ghost predicate PopulatedTo(tab0: Tables, tab: Tables, pd: nat, lo: nat, a: nat, w: bool, many: set<nat>,
      frames: set<nat>) {
    && (forall p | 0 <= p < TOP ::
          if lo <= p < a then Populated(View(tab0, pd, p), View(tab, pd, p), w, many, frames)
          else View(tab, pd, p) == View(tab0, pd, p))
    && (forall p, q | lo <= p < q < a && q < TOP && TakesFrame(View(tab0, pd, p)) && TakesFrame(View(tab0, pd, q)) ::
          View(tab, pd, p) != View(tab, pd, q))
  }

  lemma PopulatedPage(tab0: Tables, tab: Tables, tab': Tables, pd: nat, lo: nat, a: nat, w: bool, many: set<nat>,
                      frames: set<nat>, frames': set<nat>)
    requires PopulatedTo(tab0, tab, pd, lo, a, w, many, frames) && lo <= a < TOP && frames <= frames'
    requires forall q | 0 <= q < TOP && q != a :: View(tab', pd, q) == View(tab, pd, q)
    requires Populated(View(tab, pd, a), View(tab', pd, a), w, many, frames')
    requires TakesFrame(View(tab, pd, a)) ==> View(tab', pd, a).e.fr !in frames
    ensures PopulatedTo(tab0, tab', pd, lo, a + 1, w, many, frames')
  {
    forall p | lo <= p < a && TakesFrame(View(tab0, pd, p)) && TakesFrame(View(tab0, pd, a))
      ensures View(tab', pd, p) != View(tab', pd, a)
    {
      assert Populated(View(tab0, pd, p), View(tab, pd, p), w, many, frames);
    }
  }

  lemma HoleEnd(a: nat, h: nat)
    requires h == 512 || h == 262144 || h == 134217728
    ensures a < a / h * h + h && (a / h * h + h) % 512 == 0
  {
    if h == 512 {
      assert (a / 512 * 512 + 512) % 512 == 0;
    } else if h == 262144 {
      assert (a / 262144 * 262144 + 262144) % 512 == 0;
    } else {
      assert (a / 134217728 * 134217728 + 134217728) % 512 == 0;
    }
  }

  class Space {
    var tab: Tables
    const pd: nat
    var free: set<nat>
    ghost var home: map<nat, Place>

    ghost predicate Valid()
      reads this
    {
      Ok(tab, home, pd) && 0 !in free && 0 !in tab && free !! tab.Keys
    }

    /** vmm_new_space: an empty root. The upper half, which belongs to the kernel, is not modelled. */
    constructor (root: nat, frames: set<nat>)
      requires root != 0 && root !in frames && 0 !in frames
      ensures Valid() && pd == root && free == frames && forall p | 0 <= p < TOP :: View(tab, pd, p) == Zero
      ensures forall x | 0 <= x < TOP / 512 :: EntryAt(tab, pd, x, 1) == Zero
    {
      pd := root;
      free := frames;
      tab := map[root := seq(512, _ => Zero)];
      home := map[root := Place(3, 0)];
      new;
      forall p | 0 <= p < TOP
        ensures View(tab, pd, p) == Zero
      {
        UserBlocks(p);
        EmptyBelow(tab, pd, p, 0, 3);
      }
      forall x | 0 <= x < TOP / 512
        ensures EntryAt(tab, pd, x, 1) == Zero
      {
        UserBlocks(x * 512);
        EmptyBelow(tab, pd, x, 1, 3);
      }
    }

    /** pmm_alloc; 0 when no frame is left. */
    method Alloc() returns (n: nat)
      modifies this`free
      ensures n == 0 ==> free == old(free) && (free == {} || 0 in old(free))
      ensures n != 0 ==> n in old(free) && free == old(free) - {n}
    {
      n := 0;
      if free != {} {
        n :| n in free;
        if n != 0 { free := free - {n}; }
      }
    }

    /** A table for entry `i` of `t`, filled with what the entry was. */
    method Grow(t: nat, i: nat) returns (n: nat)
      requires Valid() && t in tab && t in home && i < 512 && |tab[t]| == 512 && 0 < home[t].lvl <= 3
        && !tab[t][i].Link?
      modifies this
      ensures Valid() && SameViews(old(tab), tab, pd) && free <= old(free)
      ensures MarksWithin(old(tab), tab, pd)
      ensures n == 0 ==> tab == old(tab) && home == old(home) && free == old(free) == {}
      ensures n != 0 ==> tab == Grown(old(tab), t, i, n) && n !in old(tab) && |old(free)| == |free| + 1
      ensures n != 0 ==> home == old(home)[n := Place(old(home)[t].lvl - 1, old(home)[t].block * 512 + i)]
      ensures MarksBut(old(tab), tab, pd, old(home)[t].block * 512 + i)
      ensures old(home)[t].lvl > 1 ==> SameBlocks(old(tab), tab, pd)
    {
      n := Alloc();
      if n != 0 {
        GrowOk(tab, home, pd, t, i, n);
        GrowViews(tab, home, pd, t, i, n);
        forall x | 0 <= x < TOP / 512
          ensures EntryAt(Grown(tab, t, i, n), pd, x, 1) == MARK
                  <==> EntryAt(tab, pd, x, 1) == MARK && !(home[t].lvl == 1 && x == home[t].block * 512 + i)
          ensures home[t].lvl > 1 ==> EntryAt(Grown(tab, t, i, n), pd, x, 1) == EntryAt(tab, pd, x, 1)
        {
          GrowMarks(tab, home, pd, t, i, n, x);
        }
        home := home[n := Place(home[t].lvl - 1, home[t].block * 512 + i)];
        tab := Grown(tab, t, i, n);
      }
    }

    /** Walk down to the table with the entry of page `p`; 0 when there is none. */
    method PteSlot(p: nat, create: bool) returns (t: nat)
      requires Valid() && p < TOP
      modifies this
      ensures Valid() && SameViews(old(tab), tab, pd) && MarksWithin(old(tab), tab, pd) && free <= old(free)
      ensures t != 0 ==> EntryAt(tab, pd, p / 512, 1) == Link(t)
      ensures t == 0 ==> free == {} || !create
      ensures t == 0 && !create ==> free == old(free)
      ensures t == 0 && !create ==>
                var e := EntryAt(old(tab), pd, p / 512, 1);
                e == Zero || (e == MARK && free == {})
      ensures !create && EntryAt(old(tab), pd, p / 512, 1) != MARK ==> tab == old(tab) && free == old(free)
      ensures !create ==> |old(free)| <= |free| + 1
      ensures !create && t != 0 && Marked(old(tab), pd, p) ==> |old(free)| == |free| + 1
      ensures MarksBut(old(tab), tab, pd, p / 512)
    {
      t := pd;
      var lvl := 3;
      UserBlocks(p);
      while lvl > 0
        invariant 0 <= lvl <= 3 && Valid() && t in tab && t in home && home[t] == Place(lvl, Up(p, lvl + 1))
        invariant SameViews(old(tab), tab, pd) && MarksWithin(old(tab), tab, pd) && free <= old(free)
        invariant !create && (lvl > 0 || EntryAt(old(tab), pd, p / 512, 1) != MARK) ==>
          tab == old(tab) && free == old(free)
        invariant !create ==> |old(free)| <= |free| + 1
        invariant !create && lvl == 0 && Marked(old(tab), pd, p) ==> |old(free)| == |free| + 1
        invariant MarksBut(old(tab), tab, pd, p / 512)
        invariant lvl < 3 ==> EntryAt(tab, pd, Up(p, lvl + 1), lvl + 1) == Link(t)
      {
        var i := Up(p, lvl) % 512;
        Here(tab, home, pd, t, p, lvl);
        if !tab[t][i].Link? {
          if !(lvl == 1 && tab[t][i] == MARK) && !create {
            assert Up(p / 512, lvl - 1) == Up(p, lvl);
            EmptyBelow(tab, pd, p / 512, 1, lvl);
            return 0;
          }
          ghost var h := home[t];
          var n := Grow(t, i);
          if n == 0 { return 0; }
          assert t in tab && home[t] == h;
          Here(tab, home, pd, t, p, lvl);
        }
        t := tab[t][i].child;
        lvl := lvl - 1;
      }
      assert Linked(tab, home, pd, t);
    }

    /** The table with the level 1 entry for page `p`; 0 when there is none. */
    method PdeSlot(p: nat, create: bool) returns (t: nat)
      requires Valid() && p < TOP
      modifies this
      ensures Valid() && SameViews(old(tab), tab, pd) && MarksWithin(old(tab), tab, pd) && free <= old(free)
      ensures t != 0 ==> EntryAt(tab, pd, p / 512 / 512, 2) == Link(t) && t in tab && |tab[t]| == 512
      ensures t != 0 ==> tab[t][p / 512 % 512] == EntryAt(tab, pd, p / 512, 1)
      ensures !create ==>
        tab == old(tab) && free == old(free) && home == old(home)
        && (t == 0 ==> EntryAt(tab, pd, p / 512, 1) == Zero)
      ensures create && t == 0 ==> free == {}
      ensures |old(free)| <= |free| + 2 && (t == 0 && create ==> |old(free)| <= |free| + 1)
      ensures EntryAt(old(tab), pd, p / 512 / 512, 2).Link? ==> t != 0 && tab == old(tab) && free == old(free)
      ensures SameBlocks(old(tab), tab, pd)
    {
      t := pd;
      var lvl := 3;
      UserBlocks(p);
      while lvl > 1
        invariant 1 <= lvl <= 3 && Valid() && t in tab && t in home && home[t] == Place(lvl, Up(p, lvl + 1))
        invariant SameViews(old(tab), tab, pd) && MarksWithin(old(tab), tab, pd) && free <= old(free)
        invariant !create ==> tab == old(tab) && free == old(free) && home == old(home)
        invariant |old(free)| + lvl <= |free| + 3
        invariant EntryAt(old(tab), pd, p / 512 / 512, 2).Link? ==> tab == old(tab) && free == old(free)
        invariant SameBlocks(old(tab), tab, pd)
        invariant lvl < 3 ==> EntryAt(tab, pd, Up(p, lvl + 1), lvl + 1) == Link(t)
      {
        var i := Up(p, lvl) % 512;
        Here(tab, home, pd, t, p, lvl);
        if !tab[t][i].Link? {
          NothingBelow(tab, pd, p / 512 / 512, 2, lvl);
          if !create {
            assert Up(p / 512, lvl - 1) == Up(p, lvl);
            EmptyBelow(tab, pd, p / 512, 1, lvl);
            return 0;
          }
          ghost var h := home[t];
          var n := Grow(t, i);
          if n == 0 { return 0; }
          assert t in tab && home[t] == h;
          Here(tab, home, pd, t, p, lvl);
        }
        t := tab[t][i].child;
        lvl := lvl - 1;
      }
      Here(tab, home, pd, t, p, 1);
    }

    /** A whole block of 512 pages reserved without access and never touched. */
    method PdeRes(p: nat) returns (r: bool)
      requires Valid() && p < TOP
      modifies this
      ensures tab == old(tab) && free == old(free) && home == old(home)
      ensures r <==> EntryAt(tab, pd, p / 512, 1) == MARK
      ensures r ==> EntryAt(tab, pd, p / 512 / 512, 2).Link? && forall q | q / 512 == p / 512 ::
        View(tab, pd, q) == MARK
    {
      var t := PdeSlot(p, false);
      r := t != 0 && tab[t][p / 512 % 512] == MARK;
    }

    /** The block around `p` that a missing upper entry leaves without a single page: its size, or 0. */
    method HoleAt(p: nat) returns (h: nat)
      requires Valid() && p < TOP
      ensures h in {0, 512, 262144, 134217728}
      ensures h != 0 ==> forall q | p <= q < p / h * h + h :: View(tab, pd, q) == Zero
      ensures h == 0 ==> EntryAt(tab, pd, p / 512, 1).Link? || EntryAt(tab, pd, p / 512, 1) == MARK
    {
      var t, lvl := pd, 3;
      UserBlocks(p);
      while lvl > 0
        invariant 0 <= lvl <= 3 && t in tab && t in home && home[t] == Place(lvl, Up(p, lvl + 1))
        invariant lvl < 3 ==> EntryAt(tab, pd, Up(p, lvl + 1), lvl + 1) == Link(t)
      {
        var i := Up(p, lvl) % 512;
        Here(tab, home, pd, t, p, lvl);
        if !tab[t][i].Link? {
          if lvl == 1 && tab[t][i].Leaf? { return 0; }
          h := Size(lvl);
          forall q | p <= q < p / h * h + h
            ensures View(tab, pd, q) == Zero
          {
            HoleBelow(tab, pd, p, q, lvl);
          }
          return;
        }
        t := tab[t][i].child;
        lvl := lvl - 1;
      }
      h := 0;
    }

    /** Where a loop over pages goes on when `a` is in a hole; `a` itself when it is not. */
    method PastHole(a: nat) returns (b: nat)
      requires Valid() && a < TOP
      ensures a <= b && (a < b ==> b % 512 == 0) && forall q | a <= q < b :: View(tab, pd, q) == Zero
      ensures a == b ==> EntryAt(tab, pd, a / 512, 1).Link? || Marked(tab, pd, a)
    {
      var h := HoleAt(a);
      if h == 0 { return a; }
      HoleEnd(a, h);
      b := a / h * h + h;
    }

    /** pte_put on the entry of page `p`, whose table is there. */
    method SetPage(p: nat, t: nat, e: Slot)
      requires Valid() && p < TOP && !e.Link? && EntryAt(tab, pd, p / 512, 1) == Link(t)
      modifies this`tab
      ensures Valid()
      ensures forall q | 0 <= q < TOP :: View(tab, pd, q) == if q == p then e else View(old(tab), pd, q)
      ensures forall x | 0 <= x < TOP / 512 :: EntryAt(tab, pd, x, 1) == EntryAt(old(tab), pd, x, 1)
    {
      PutLeaf(tab, home, pd, p, e);
      tab := Put(tab, t, p % 512, e);
    }

    /** The level 1 entry of a block without a table. */
    method SetMark(p: nat, t: nat, e: Slot)
      requires Valid() && p < TOP && e in {Zero, MARK} && EntryAt(tab, pd, p / 512 / 512, 2) == Link(t)
      requires EntryAt(tab, pd, p / 512, 1) in {Zero, MARK}
      modifies this`tab
      ensures Valid()
      ensures forall q | 0 <= q < TOP :: View(tab, pd, q) == if q / 512 == p / 512 then e else View(old(tab), pd, q)
      ensures forall x | 0 <= x < TOP / 512 && x != p / 512 :: EntryAt(tab, pd, x, 1) == EntryAt(old(tab), pd, x, 1)
      ensures EntryAt(tab, pd, p / 512, 1) == e && EntryAt(tab, pd, p / 512 / 512, 2) == Link(t)
    {
      PutMark(tab, home, pd, p / 512, e);
      tab := Put(tab, t, p / 512 % 512, e);
    }

    /** One page of a sweep. It fails only inside a marker and without a frame for the table. */
    method SweepPage(op: Sweep, a: nat) returns (ok: bool)
      requires Valid() && a < TOP && (EntryAt(tab, pd, a / 512, 1).Link? || Marked(tab, pd, a))
      modifies this
      ensures Valid() && MarksWithin(old(tab), tab, pd) && free <= old(free)
      ensures PageDone(op, old(tab), tab, pd, a, ok)
      ensures ok ==> !Marked(tab, pd, a)
      ensures !ok ==> free == old(free) == {} && Marked(old(tab), pd, a)
      ensures !Marked(old(tab), pd, a) ==> free == old(free)
      ensures |old(free)| <= |free| + 1
      ensures ok && Marked(old(tab), pd, a) ==> |old(free)| == |free| + 1
      ensures MarksBut(old(tab), tab, pd, a / 512)
    {
      ghost var was := tab;
      var t := PteSlot(a, false);
      ok := t != 0;
      if ok {
        PutLeaf(tab, home, pd, a, Zero);
        var e := tab[t][a % 512];
        assert e == View(was, pd, a);
        if e.Leaf? {
          UserBlocks(a);
          Reach(tab, home, pd, a, 0);
          SetPage(a, t, PageEffect(op, e));
        }
      }
    }

    /** A whole marker inside the range. */
    method SweepMark(op: Sweep, a: nat) returns (done: bool)
      requires Valid() && a < TOP && a % 512 == 0
      modifies this
      ensures Valid() && MarksWithin(old(tab), tab, pd) && free == old(free)
      ensures done <==> WholeMarks(op) && Marked(old(tab), pd, a)
      ensures !done ==> tab == old(tab)
      ensures done ==> BlockDone(op, old(tab), tab, pd, a)
      ensures MarksBut(old(tab), tab, pd, a / 512)
    {
      done := false;
      if WholeMarks(op) {
        done := PdeRes(a);
        if done && op.Free? {
          var t := PdeSlot(a, false);
          SetMark(a, t, Zero);
        }
      }
    }

    /** One round of a sweep at a page that is not in a hole. */
    method SweepNext(op: Sweep, a: nat, hi: nat, ghost r: Trip, ghost skipped: set<nat>)
        returns (b: nat, ghost skipped': set<nat>)
      requires Valid() && Sofar(r, tab, free, a, skipped) && r.op == op && r.pd == pd && r.hi == hi
      requires a < hi && a < TOP && Swept(op, a) && FirstPage(op, r.lo) <= a
      requires EntryAt(tab, pd, a / 512, 1).Link? || Marked(tab, pd, a)
      modifies this
      ensures Valid() && a < b && Sofar(r, tab, free, b, skipped')
    {
      hide SweptTo, SkippedOk, PageEffect, EntryAt, View, Sofar, MarksWithin, MarksBut;
      ghost var was := tab;
      if a % 512 == 0 && a + 512 <= hi {
        var done := SweepMark(op, a);
        if done {
          SofarMark(r, was, tab, free, a, skipped);
          return a + 512, skipped;
        }
      }
      skipped' := SweepOne(op, a, r, skipped);
      b := a + 1;
    }

    method SweepOne(op: Sweep, a: nat, ghost r: Trip, ghost skipped: set<nat>) returns (ghost skipped': set<nat>)
      requires Valid() && Sofar(r, tab, free, a, skipped) && r.op == op && r.pd == pd
      requires a < r.hi && a < TOP && Swept(op, a) && FirstPage(op, r.lo) <= a
      requires EntryAt(tab, pd, a / 512, 1).Link? || Marked(tab, pd, a)
      requires WholeMarks(op) && a % 512 == 0 && Marked(tab, pd, a) ==> a + 512 > r.hi
      modifies this
      ensures Valid() && Sofar(r, tab, free, a + 1, skipped')
    {
      ghost var was, had := tab, free;
      var ok := SweepPage(op, a);
      SofarPage(r, was, tab, had, free, a, ok, skipped);
      skipped' := if ok then skipped else skipped + {a};
    }

    /** One round of a sweep at any page. */
    method SweepRound(op: Sweep, a: nat, hi: nat, ghost r: Trip, ghost skipped: set<nat>)
        returns (b: nat, ghost skipped': set<nat>)
      requires Valid() && Sofar(r, tab, free, a, skipped) && r.op == op && r.pd == pd && r.hi == hi
      requires r.lo <= a < hi && (Checked(op) || hi <= TOP)
      modifies this
      ensures Valid() && a < b && Sofar(r, tab, free, b, skipped')
    {
      hide Sofar, View, EntryAt;
      if Checked(op) && !(BASE <= a < TOP) {
        SofarOutside(r, tab, free, a, skipped);
        return a + 1, skipped;
      }
      b := PastHole(a);
      if a < b {
        SofarHole(r, tab, free, a, b, skipped);
        return b, skipped;
      }
      b, skipped' := SweepNext(op, a, hi, r, skipped);
    }

    /**
      The loops of vmm_free_range, vmm_discard, vmm_set_user and vmm_set_writable. Every marker that
      has to be expanded takes a frame; pages are left out if and only if there are fewer frames than
      such markers.
      */
    method SweepRange(op: Sweep, lo: nat, hi: nat) returns (ghost skipped: set<nat>)
      requires Valid() && (Checked(op) || hi <= TOP)
      modifies this
      ensures Valid() && free <= old(free) && MarksWithin(old(tab), tab, pd)
      ensures SweptTo(op, old(tab), tab, pd, lo, hi, hi, skipped)
      ensures SkippedOk(op, old(tab), pd, lo, hi, skipped) && (skipped != {} ==> free == {})
      ensures skipped == {} <==> |old(free)| >= |Expands(op, old(tab), pd, lo, hi)|
      ensures skipped == {} ==> |free| == |old(free)| - |Expands(op, old(tab), pd, lo, hi)|
      ensures WholeMarks(op) && |old(free)| >= 2 ==> skipped == {}
    {
      ghost var r := Trip(op, tab, free, pd, lo, hi);
      skipped := {};
      SofarStart(r);
      hide Sofar, SweptTo, SkippedOk, Expands, MarksWithin, WholeMarks;
      var a := lo;
      while a < hi
        invariant Valid() && lo <= a && Sofar(r, tab, free, a, skipped)
      {
        a, skipped := SweepRound(op, a, hi, r, skipped);
      }
      SofarEnd(r, tab, free, a, skipped);
      if WholeMarks(op) { AtMostTwo(op, r.tab0, pd, lo, hi); }
    }

    /** A whole block reserved without access is one marker, if nothing is there yet. */
    method LazyBlock(a: nat) returns (done: bool)
      requires Valid() && a < TOP
      modifies this
      ensures Valid() && free <= old(free)
      ensures !done ==> SameViews(old(tab), tab, pd) && MarksWithin(old(tab), tab, pd)
      ensures done ==> forall q | 0 <= q < TOP ::
        View(tab, pd, q) == if q / 512 == a / 512 then MARK else View(old(tab), pd, q)
      ensures done ==> EntryAt(tab, pd, a / 512, 1) == MARK && EntryAt(tab, pd, a / 512 / 512, 2).Link?
      ensures |old(free)| <= |free| + 2 && (EntryAt(old(tab), pd, a / 512 / 512, 2).Link? ==> free == old(free))
      ensures EntryAt(old(tab), pd, a / 512 / 512, 2).Link? || |old(free)| >= 2 ==>
        done || EntryAt(old(tab), pd, a / 512, 1).Link?
      ensures forall x | 0 <= x < TOP / 512 && x != a / 512 :: EntryAt(tab, pd, x, 1) == EntryAt(old(tab), pd, x, 1)
    {
      var t := PdeSlot(a, true);
      UserBlocks(a);
      Reach(tab, home, pd, a / 512, 1);
      done := t != 0 && (tab[t][a / 512 % 512] == Zero || tab[t][a / 512 % 512] == MARK);
      if done { SetMark(a, t, MARK); }
    }

    method LazyPage(a: nat, e: Slot) returns (ok: bool)
      requires Valid() && a < TOP && !e.Link?
      modifies this
      ensures Valid() && free <= old(free) && MarksWithin(old(tab), tab, pd)
      ensures !ok ==> free == {} && SameViews(old(tab), tab, pd)
      ensures ok ==> forall q | 0 <= q < TOP :: View(tab, pd, q) == if q == a then e else View(old(tab), pd, q)
    {
      var t := PteSlot(a, true);
      ok := t != 0;
      if ok { SetPage(a, t, e); }
    }

    /** vmm_lazy_range: every page of the range reserved, or the part before the page where it stopped. */
    method LazyRange(lo: nat, hi: nat, rw: bool, us: bool) returns (ok: bool, ghost stop: nat)
      requires Valid() && lo <= hi
      modifies this
      ensures Valid() && free <= old(free) && lo <= stop <= hi
      ensures LaidTo(old(tab), tab, pd, lo, stop, Leaf(Lazy(rw, us))) && MarksInside(old(tab), tab, pd, lo, hi)
      ensures ok ==> stop == hi
      ensures !ok ==> stop < hi && (!(BASE <= stop < TOP) || free == {})
    {
      ghost var tab0 := tab;
      var e := Leaf(Lazy(rw, us));
      var a := lo;
      while a < hi
        invariant lo <= a <= hi && Valid() && free <= old(free)
        invariant LaidTo(tab0, tab, pd, lo, a, e) && MarksInside(tab0, tab, pd, lo, hi)
      {
        ghost var was := tab;
        if !(BASE <= a < TOP) { return false, a; }
        if !rw && !us && a % 512 == 0 && a + 512 <= hi {
          var done := LazyBlock(a);
          if done {
            LaidBlock(tab0, was, tab, pd, lo, a);
            a := a + 512;
            continue;
          }
        }
        was := tab;
        var put := LazyPage(a, e);
        if !put { return false, a; }
        LaidPage(tab0, was, tab, pd, lo, a, e);
        a := a + 1;
      }
      return true, a;
    }

    /** vmm_range_unmapped. */
    method RangeUnmapped(lo: nat, hi: nat) returns (r: bool)
      requires Valid() && hi <= TOP
      modifies this
      ensures Valid() && tab == old(tab) && free == old(free)
      ensures r <==> forall p | lo <= p < hi :: View(tab, pd, p) == Zero
    {
      var a := lo;
      while a < hi
        invariant lo <= a && Valid() && tab == old(tab) && free == old(free)
        invariant forall p | lo <= p < a :: View(tab, pd, p) == Zero
      {
        var b := PastHole(a);
        if a < b { a := b; continue; }
        var res := PdeRes(a);
        if res { assert View(tab, pd, a) == MARK; return false; }
        var t := PteSlot(a, false);
        if t != 0 {
          PutLeaf(tab, home, pd, a, Zero);
          if tab[t][a % 512] != Zero { return false; }
        }
        a := a + 1;
      }
      return true;
    }

    /** vmm_alloc_range on one page. */
    method PopulatePage(a: nat, w: bool, many: set<nat>, ghost all: set<nat>) returns (ok: bool)
      requires Valid() && a < TOP && free <= all
      modifies this
      ensures Valid() && free <= old(free)
      ensures forall q | 0 <= q < TOP && q != a :: View(tab, pd, q) == View(old(tab), pd, q)
      ensures !ok ==> free == {} && View(tab, pd, a) == View(old(tab), pd, a)
      ensures ok ==> Populated(View(old(tab), pd, a), View(tab, pd, a), w, many, all - free)
      ensures ok && TakesFrame(View(old(tab), pd, a)) ==> View(tab, pd, a).e.fr in old(free)
    {
      ghost var was := tab;
      var t := PteSlot(a, true);
      if t == 0 { return false; }
      PutLeaf(tab, home, pd, a, Zero);
      var e := tab[t][a % 512];
      if e.Leaf? && !e.e.Lazy? {
        if w { SetPage(a, t, PageEffect(SetWritable(true, many), e)); }
        return true;
      }
      var fr := Alloc();
      if fr == 0 { return false; }
      SetPage(a, t, Leaf(Present(fr, w, false, false, true, false)));
      ok := true;
    }

    /** vmm_alloc_range; on failure the part before `stop` has been done. */
    method AllocRange(lo: nat, hi: nat, w: bool, many: set<nat>) returns (ok: bool, ghost stop: nat)
      requires Valid() && lo <= hi
      modifies this
      ensures Valid() && free <= old(free) && lo <= stop <= hi
      ensures PopulatedTo(old(tab), tab, pd, lo, stop, w, many, old(free) - free)
      ensures ok ==> stop == hi
      ensures !ok ==> stop < hi && (!(BASE <= stop < TOP) || free == {})
    {
      ghost var tab0, all := tab, free;
      var a := lo;
      while a < hi
        invariant lo <= a <= hi && Valid() && free <= all
        invariant PopulatedTo(tab0, tab, pd, lo, a, w, many, all - free)
      {
        if !(BASE <= a < TOP) { return false, a; }
        ghost var was, had := tab, free;
        var put := PopulatePage(a, w, many, all);
        if !put {
          PopulatedSame(tab0, was, tab, pd, lo, a, w, many, all - had, all - free);
          return false, a;
        }
        PopulatedPage(tab0, was, tab, pd, lo, a, w, many, all - had, all - free);
        a := a + 1;
      }
      return true, a;
    }
  }

  /** Five blocks of an empty space reserved without access. */
  method FiveMarks() returns (sp: Space)
    ensures fresh(sp) && sp.Valid() && 2 <= |sp.free| <= 4
    ensures forall x | 1 <= x <= 5 :: EntryAt(sp.tab, sp.pd, x, 1) == MARK
  {
    sp := new Space(1, {2, 3, 4, 5});
    assert |{2, 3, 4, 5}| == 4;
    var i := 1;
    while i <= 5
      invariant 1 <= i <= 6 && fresh(sp) && sp.Valid() && 2 <= |sp.free| <= 4
      invariant i == 1 ==> |sp.free| == 4
      invariant i > 1 ==> EntryAt(sp.tab, sp.pd, 0, 2).Link?
      invariant forall x | 1 <= x < i :: EntryAt(sp.tab, sp.pd, x, 1) == MARK
      invariant forall x | i <= x <= 5 :: !EntryAt(sp.tab, sp.pd, x, 1).Link?
    {
      ghost var had := sp.free;
      assert i * 512 / 512 == i && i * 512 / 512 / 512 == 0;
      var done := sp.LazyBlock(i * 512);
      Fewer(sp.free, had);
      i := i + 1;
    }
  }

  /** Access for all of them: every marker is covered as a whole, two frames are free, and pages stay without it. */
  method GrantMisses() returns (sp: Space, ghost tab0: Tables, ghost free0: set<nat>, ghost skipped: set<nat>)
    ensures fresh(sp) && sp.Valid() && |free0| >= 2 && (forall x | 1 <= x <= 5 :: EntryAt(tab0, sp.pd, x, 1) == MARK)
    ensures SweptTo(Sweep.SetUser(true), tab0, sp.tab, sp.pd, 512, 3072, 3072, skipped) && skipped != {}
    ensures forall p | p in skipped :: 512 <= p < 3072 && View(sp.tab, sp.pd, p) == MARK
  {
    sp := FiveMarks();
    tab0, free0 := sp.tab, sp.free;
    FiveDue(tab0, sp.pd);
    skipped := sp.SweepRange(Sweep.SetUser(true), 512, 3072);
  }

  lemma FiveDue(tab0: Tables, pd: nat)
    requires forall x | 1 <= x <= 5 :: EntryAt(tab0, pd, x, 1) == MARK
    ensures |Expands(Sweep.SetUser(true), tab0, pd, 512, 3072)| >= 5
  {
    Fewer({1, 2, 3, 4, 5}, Expands(Sweep.SetUser(true), tab0, pd, 512, 3072));
  }

  lemma PopulatedSame(tab0: Tables, tab: Tables, tab': Tables, pd: nat, lo: nat, a: nat, w: bool, many: set<nat>,
                      frames: set<nat>, frames': set<nat>)
    requires PopulatedTo(tab0, tab, pd, lo, a, w, many, frames) && frames <= frames' && SameViews(tab, tab', pd)
    ensures PopulatedTo(tab0, tab', pd, lo, a, w, many, frames')
  {
    forall p | 0 <= p < TOP && lo <= p < a
      ensures Populated(View(tab0, pd, p), View(tab', pd, p), w, many, frames')
    {
      assert Populated(View(tab0, pd, p), View(tab, pd, p), w, many, frames);
    }
  }

  // ---------- the same on the flat state ----------

  function FlatSlot(s: State, k: Key): Slot {
    if k in s.pt then Leaf(s.pt[k]) else Zero
  }

  function ManyRefs(s: State): set<nat> {
    set f | 0 <= f < |s.rc| && FramePool.Ours(s.rc, f) && s.rc[f] > 1
  }

  /** The operation of the flat model that belongs to a sweep. */
  function FlatSweep(s: State, op: Sweep, k: Key): State {
    match op
    case Free => UnmapPageLater(s, k)
    case Discard => DiscardPage(s, k)
    case SetUser(us) => SetUserPage(s, k, us)
    case SetWritable(w, _) => ProtectPage(s, k, w)
  }

  /** What a sweep does to one page is what the operation of the flat model does to that page, and to no other. */
  lemma SweepIsFlat(s: State, op: Sweep, k: Key, j: Key)
    requires op.SetWritable? ==> op.many == ManyRefs(s)
    ensures FlatSlot(FlatSweep(s, op, k), j) == if j == k then PageEffect(op, FlatSlot(s, k)) else FlatSlot(s, j)
  {
    match op
    case Free => FreeIsFlat(s, k, j);
    case Discard => DiscardIsFlat(s, k, j);
    case SetUser(us) => SetUserIsFlat(s, us, k, j);
    case SetWritable(w, _) => ProtectIsFlat(s, w, k, j);
  }

  lemma FreeIsFlat(s: State, k: Key, j: Key)
    ensures FlatSlot(UnmapPageLater(s, k), j) == if j == k then PageEffect(Free, FlatSlot(s, k)) else FlatSlot(s, j)
  {
  }

  lemma DiscardIsFlat(s: State, k: Key, j: Key)
    ensures FlatSlot(DiscardPage(s, k), j) == if j == k then PageEffect(Sweep.Discard, FlatSlot(s, k))
      else FlatSlot(s, j)
  {
  }

  lemma SetUserIsFlat(s: State, us: bool, k: Key, j: Key)
    ensures FlatSlot(SetUserPage(s, k, us), j) ==
            if j == k then PageEffect(Sweep.SetUser(us), FlatSlot(s, k)) else FlatSlot(s, j)
  {
  }

  lemma ProtectIsFlat(s: State, w: bool, k: Key, j: Key)
    ensures FlatSlot(ProtectPage(s, k, w), j) ==
            if j == k then PageEffect(SetWritable(w, ManyRefs(s)), FlatSlot(s, k)) else FlatSlot(s, j)
  {
  }

  lemma PopulateIsFlat(s: State, k: Key, f: nat, w: bool)
    requires FreeFrame(s, f) && |s.mem| == |s.rc|
    ensures Populated(FlatSlot(s, k), FlatSlot(VmOps.PopulatePage(s, k, f, w), k), w, ManyRefs(s), {f})
  {
  }
}

/**
  The scanline flood fill of the paint program: whole runs of one row at a time, with a stack of
  seeds for the rows above and below.
  */
module Flood {

  const CAP: nat := 16384

  datatype Pt = Pt(x: int, y: int)

  type Img = seq<seq<nat>>

  predicate In(img: Img, p: Pt) { 0 <= p.y < |img| && 0 <= p.x < |img[p.y]| }

  predicate Has(img: Img, p: Pt, f: nat) { In(img, p) && img[p.y][p.x] == f }

  predicate Adj(p: Pt, q: Pt) {
    (p.y == q.y && (p.x == q.x + 1 || q.x == p.x + 1)) || (p.x == q.x && (p.y == q.y + 1 || q.y == p.y + 1))
  }

  // ---------- the component ----------

  /** A path through pixels of colour `f`. */
  ghost predicate Path(img: Img, f: nat, ps: seq<Pt>) {
    && (forall i | 0 <= i < |ps| :: Has(img, ps[i], f))
    && (forall i, j | 0 <= i < |ps| - 1 && j == i + 1 :: Adj(ps[i], ps[j]))
  }

  ghost predicate Joins(img: Img, f: nat, s: Pt, p: Pt, ps: seq<Pt>) {
    |ps| > 0 && ps[0] == s && ps[|ps| - 1] == p && Path(img, f, ps)
  }

  /** `p` belongs to the 4-connected component of `s`. */
  ghost predicate Conn(img: Img, f: nat, s: Pt, p: Pt) {
    exists ps :: Joins(img, f, s, p, ps)
  }

  lemma ConnStart(img: Img, f: nat, s: Pt)
    requires Has(img, s, f)
    ensures Conn(img, f, s, s)
  {
    assert Joins(img, f, s, s, [s]);
  }

  lemma ConnNext(img: Img, f: nat, s: Pt, p: Pt, q: Pt)
    requires Conn(img, f, s, p) && Adj(p, q) && Has(img, q, f)
    ensures Conn(img, f, s, q)
  {
    var ps :| Joins(img, f, s, p, ps);
    assert Joins(img, f, s, q, ps + [q]);
  }

  lemma ConnHas(img: Img, f: nat, s: Pt, p: Pt)
    requires Conn(img, f, s, p)
    ensures Has(img, p, f)
  {
    var ps :| Joins(img, f, s, p, ps);
  }

  /** All pixels of row `y` from `a` to `b` have colour `f`. */
  ghost predicate Run(img: Img, f: nat, y: int, a: int, b: int) {
    forall x | a <= x <= b :: Has(img, Pt(x, y), f)
  }

  lemma {:induction false} ConnRun(img: Img, f: nat, s: Pt, y: int, a: int, b: int)
    requires Conn(img, f, s, Pt(a, y)) && (if a <= b then Run(img, f, y, a, b) else Run(img, f, y, b, a))
    ensures Conn(img, f, s, Pt(b, y))
    decreases if a <= b then b - a else a - b
  {
    if a < b {
      ConnRun(img, f, s, y, a, b - 1);
      ConnNext(img, f, s, Pt(b - 1, y), Pt(b, y));
    } else if b < a {
      ConnRun(img, f, s, y, a, b + 1);
      ConnNext(img, f, s, Pt(b + 1, y), Pt(b, y));
    }
  }

  // ---------- the state of the fill ----------

  predicate Turned(orig: Img, img: Img, f: nat, p: Pt) { Has(orig, p, f) && !Has(img, p, f) }

  /** A pixel is as it was, or it belongs to the component and has the new colour. */
  ghost predicate PixelOk(orig: Img, img: Img, f: nat, c: nat, s0: Pt, p: Pt) {
    && (In(orig, p) <==> In(img, p))
    && (In(img, p) ==> img[p.y][p.x] == orig[p.y][p.x] || (Conn(orig, f, s0, p) && Has(img, p, c)))
  }

  ghost predicate Sound(orig: Img, img: Img, f: nat, c: nat, s0: Pt) {
    forall p :: PixelOk(orig, img, f, c, s0, p)
  }

  ghost predicate SeedsOk(orig: Img, f: nat, s0: Pt, st: seq<Pt>) {
    forall i | 0 <= i < |st| :: Conn(orig, f, s0, st[i])
  }

  /** `q` will be filled when seed `s` comes up. */
  ghost predicate SameRun(img: Img, f: nat, s: Pt, q: Pt) {
    s.y == q.y && Run(img, f, q.y, s.x, q.x) && Run(img, f, q.y, q.x, s.x) && Has(img, s, f)
  }

  ghost predicate Due(img: Img, f: nat, st: seq<Pt>, q: Pt) {
    exists s :: s in st && SameRun(img, f, s, q)
  }

  /** Next to a filled pixel, what still has the old colour is due. */
  ghost predicate EdgeOk(orig: Img, img: Img, f: nat, st: seq<Pt>, p: Pt, q: Pt) {
    Turned(orig, img, f, p) && Adj(p, q) && Has(img, q, f) ==> Due(img, f, st, q)
  }

  ghost predicate Covered(orig: Img, img: Img, f: nat, st: seq<Pt>, s0: Pt) {
    && (forall p, q :: EdgeOk(orig, img, f, st, p, q))
    && (Turned(orig, img, f, s0) || s0 in st)
  }

  /** With no seed left, the whole component has been filled. */
  lemma {:induction false} AllTurned(orig: Img, img: Img, f: nat, s0: Pt, ps: seq<Pt>, k: nat)
    requires Covered(orig, img, f, [], s0) && k < |ps| && ps[0] == s0 && Path(orig, f, ps)
    ensures Turned(orig, img, f, ps[k])
  {
    if k > 0 {
      AllTurned(orig, img, f, s0, ps, k - 1);
      assert EdgeOk(orig, img, f, [], ps[k - 1], ps[k]);
    }
  }

  // ---------- one round ----------

  /** Row `y` recoloured from `l` to `r`. */
  ghost predicate Filled(img: Img, img': Img, y: int, l: int, r: int, c: nat) {
    forall p :: FilledAt(img, img', y, l, r, c, p)
  }

  predicate FilledAt(img: Img, img': Img, y: int, l: int, r: int, c: nat, p: Pt) {
    && (In(img, p) <==> In(img', p))
    && (In(img, p) ==> img'[p.y][p.x] == if p.y == y && l <= p.x <= r then c else img[p.y][p.x])
  }

  /** The run [l, r] of row `y` and nothing beyond it. */
  ghost predicate MaxRun(img: Img, f: nat, y: int, l: int, r: int) {
    l <= r && Run(img, f, y, l, r) && !Has(img, Pt(l - 1, y), f) && !Has(img, Pt(r + 1, y), f)
  }

  /** A seed whose pixel was filled meanwhile is dropped. */
  lemma PopStale(orig: Img, img: Img, f: nat, st: seq<Pt>, s0: Pt)
    requires Covered(orig, img, f, st, s0) && st != [] && Has(orig, s0, f) && !Has(img, st[|st| - 1], f)
    ensures Covered(orig, img, f, st[..|st| - 1], s0)
  {
    var rest, t := st[..|st| - 1], st[|st| - 1];
    assert st == rest + [t];
    forall p, q
      ensures EdgeOk(orig, img, f, rest, p, q)
    {
      assert EdgeOk(orig, img, f, st, p, q);
      if Turned(orig, img, f, p) && Adj(p, q) && Has(img, q, f) {
        var s :| s in st && SameRun(img, f, s, q);
        assert s in rest;
      }
    }
  }

  lemma SameRunStays(img: Img, img': Img, f: nat, c: nat, y: int, l: int, r: int, s: Pt, q: Pt)
    requires Filled(img, img', y, l, r, c) && MaxRun(img, f, y, l, r) && f != c
    requires SameRun(img, f, s, q) && Has(img', q, f)
    ensures SameRun(img', f, s, q) && !(s.y == y && l <= s.x <= r)
  {
    assert FilledAt(img, img', y, l, r, c, q);
    if q.y == y {
      assert q.x < l <= s.x ==> Has(img, Pt(l - 1, y), f);
      assert s.x <= r < q.x ==> Has(img, Pt(r + 1, y), f);
    }
    forall x | s.x <= x <= q.x || q.x <= x <= s.x
      ensures Has(img', Pt(x, q.y), f)
    {
      assert Has(img, Pt(x, q.y), f);
      assert FilledAt(img, img', y, l, r, c, Pt(x, q.y));
    }
    assert s == Pt(s.x, q.y);
  }

  /** After the fill of a maximal run and the seeds for its neighbours, the edge is covered again. */
  lemma FillCovers(orig: Img, img: Img, img': Img, f: nat, c: nat, y: int, l: int, r: int, st: seq<Pt>, st': seq<Pt>,
      s0: Pt, t: Pt)
    requires Covered(orig, img, f, st + [t], s0) && f != c && Has(orig, s0, f)
    requires MaxRun(img, f, y, l, r) && t.y == y && l <= t.x <= r && Filled(img, img', y, l, r, c)
    requires forall s | s in st :: s in st'
    requires forall x | l <= x <= r :: SidesDue(img', f, st', y, x)
    requires forall p :: In(orig, p) <==> In(img, p)
    ensures Covered(orig, img', f, st', s0)
  {
    forall p, q
      ensures EdgeOk(orig, img', f, st', p, q)
    {
      if Turned(orig, img', f, p) && Adj(p, q) && Has(img', q, f) {
        EdgeDue(orig, img, img', f, c, y, l, r, st, st', s0, t, p, q);
      }
    }
    assert FilledAt(img, img', y, l, r, c, s0);
    assert t in st + [t];
  }

  ghost predicate SidesDue(img: Img, f: nat, st: seq<Pt>, y: int, x: int) {
    && (Has(img, Pt(x, y - 1), f) ==> Due(img, f, st, Pt(x, y - 1)))
    && (Has(img, Pt(x, y + 1), f) ==> Due(img, f, st, Pt(x, y + 1)))
  }

  lemma EdgeDue(orig: Img, img: Img, img': Img, f: nat, c: nat, y: int, l: int, r: int, st: seq<Pt>, st': seq<Pt>,
      s0: Pt, t: Pt, p: Pt, q: Pt)
    requires Covered(orig, img, f, st + [t], s0) && f != c
    requires MaxRun(img, f, y, l, r) && t.y == y && l <= t.x <= r && Filled(img, img', y, l, r, c)
    requires forall s | s in st :: s in st'
    requires forall x | l <= x <= r :: SidesDue(img', f, st', y, x)
    requires Turned(orig, img', f, p) && Adj(p, q) && Has(img', q, f)
    ensures Due(img', f, st', q)
  {
    assert FilledAt(img, img', y, l, r, c, p) && FilledAt(img, img', y, l, r, c, q);
    if p.y == y && l <= p.x <= r {
      assert SidesDue(img', f, st', y, p.x);
      assert q.y == y ==> q == Pt(p.x - 1, y) || q == Pt(p.x + 1, y);
      assert q.y == y - 1 ==> q == Pt(p.x, y - 1);
      assert q.y == y + 1 ==> q == Pt(p.x, y + 1);
    } else {
      assert EdgeOk(orig, img, f, st + [t], p, q);
      var s :| s in st + [t] && SameRun(img, f, s, q);
      SameRunStays(img, img', f, c, y, l, r, s, q);
      assert s in st;
    }
  }

  lemma FillSound(orig: Img, img: Img, img': Img, f: nat, c: nat, y: int, l: int, r: int, s0: Pt, t: Pt)
    requires Sound(orig, img, f, c, s0) && Conn(orig, f, s0, t) && f != c
    requires MaxRun(img, f, y, l, r) && t.y == y && l <= t.x <= r && Filled(img, img', y, l, r, c)
    ensures Sound(orig, img', f, c, s0) && forall x | l <= x <= r :: Conn(orig, f, s0, Pt(x, y))
  {
    forall x | l <= x <= r
      ensures Conn(orig, f, s0, Pt(x, y))
    {
      RunWas(orig, img, f, c, y, l, r, s0);
      assert t == Pt(t.x, y);
      ConnRun(orig, f, s0, y, t.x, x);
    }
    forall p
      ensures PixelOk(orig, img', f, c, s0, p)
    {
      assert PixelOk(orig, img, f, c, s0, p) && FilledAt(img, img', y, l, r, c, p);
      if p.y == y && l <= p.x <= r { assert p == Pt(p.x, y); }
    }
  }

  /** What still has the old colour always had it. */
  lemma RunWas(orig: Img, img: Img, f: nat, c: nat, y: int, l: int, r: int, s0: Pt)
    requires Sound(orig, img, f, c, s0) && Run(img, f, y, l, r) && f != c
    ensures Run(orig, f, y, l, r)
  {
    forall x | l <= x <= r
      ensures Has(orig, Pt(x, y), f)
    {
      assert Has(img, Pt(x, y), f) && PixelOk(orig, img, f, c, s0, Pt(x, y));
    }
  }

  // ---------- the program ----------

  /** The pixels that still have colour `f`. */
  ghost function Left(img: Img, w: nat, h: nat, f: nat): set<Pt> {
    set x, y | 0 <= x < w && 0 <= y < h && Has(img, Pt(x, y), f) :: Pt(x, y)
  }

  lemma FillShrinks(img: Img, img': Img, w: nat, h: nat, f: nat, c: nat, y: int, l: int, r: int)
    requires Filled(img, img', y, l, r, c) && f != c && MaxRun(img, f, y, l, r)
    requires forall p :: In(img, p) <==> 0 <= p.x < w && 0 <= p.y < h
    ensures |Left(img', w, h, f)| + (r - l + 1) == |Left(img, w, h, f)|
  {
    var a, b, run := Left(img, w, h, f), Left(img', w, h, f), RunOf(y, l, r);
    forall p
      ensures p in a <==> p in b || p in run
      ensures !(p in b && p in run)
    {
      LeftAfter(img, img', w, h, f, c, y, l, r, p);
    }
    hide Left, RunOf, Filled, In;
    assert a == b + run && b !! run;
    RunSize(y, l, r);
  }

  lemma LeftAfter(img: Img, img': Img, w: nat, h: nat, f: nat, c: nat, y: int, l: int, r: int, p: Pt)
    requires Filled(img, img', y, l, r, c) && f != c && MaxRun(img, f, y, l, r)
    requires forall p :: In(img, p) <==> 0 <= p.x < w && 0 <= p.y < h
    ensures p in Left(img, w, h, f) <==> p in Left(img', w, h, f) || p in RunOf(y, l, r)
    ensures !(p in Left(img', w, h, f) && p in RunOf(y, l, r))
  {
    assert FilledAt(img, img', y, l, r, c, p) && p == Pt(p.x, p.y);
    if p in RunOf(y, l, r) { assert Has(img, Pt(p.x, y), f); }
  }

  function RunOf(y: int, l: int, r: int): set<Pt> {
    set x | l <= x <= r :: Pt(x, y)
  }

  lemma {:induction false} RunSize(y: int, l: int, r: int)
    requires l <= r + 1
    ensures |RunOf(y, l, r)| == r - l + 1
    decreases r - l + 1
  {
    if l <= r {
      RunSize(y, l, r - 1);
      assert RunOf(y, l, r) == RunOf(y, l, r - 1) + {Pt(r, y)};
    }
  }

  // ---------- the rounds one by one ----------

  predicate Rect(img: Img, w: nat, h: nat) {
    |img| == h && forall y | 0 <= y < h :: |img[y]| == w
  }

  /** The ends of the run around a pixel. */
  function LeftEnd(img: Img, f: nat, x: int, y: int): (l: int)
    requires Has(img, Pt(x, y), f)
    ensures Has(img, Pt(l, y), f) && l <= x
    decreases x
  {
    if Has(img, Pt(x - 1, y), f) then LeftEnd(img, f, x - 1, y) else x
  }

  function RightEnd(img: Img, f: nat, x: int, y: int): (r: int)
    requires Has(img, Pt(x, y), f)
    ensures Has(img, Pt(r, y), f) && x <= r
    decreases |img[y]| - x
  {
    if Has(img, Pt(x + 1, y), f) then RightEnd(img, f, x + 1, y) else x
  }

  lemma {:induction false} LeftIs(img: Img, f: nat, y: int, l: int, x: int)
    requires Has(img, Pt(x, y), f) && l <= x && Run(img, f, y, l, x) && !Has(img, Pt(l - 1, y), f)
    ensures LeftEnd(img, f, x, y) == l
    decreases x - l
  {
    if l < x {
      assert Has(img, Pt(x - 1, y), f);
      LeftIs(img, f, y, l, x - 1);
    }
  }

  lemma {:induction false} RightIs(img: Img, f: nat, y: int, x: int, r: int)
    requires Has(img, Pt(x, y), f) && x <= r && Run(img, f, y, x, r) && !Has(img, Pt(r + 1, y), f)
    ensures RightEnd(img, f, x, y) == r
    decreases r - x
  {
    if x < r {
      assert Has(img, Pt(x + 1, y), f);
      RightIs(img, f, y, x + 1, r);
    }
  }

  lemma EndsAre(img: Img, f: nat, y: int, l: int, r: int, x: int)
    requires MaxRun(img, f, y, l, r) && l <= x <= r
    ensures Has(img, Pt(x, y), f) && LeftEnd(img, f, x, y) == l && RightEnd(img, f, x, y) == r
  {
    assert Has(img, Pt(x, y), f);
    LeftIs(img, f, y, l, x);
    RightIs(img, f, y, x, r);
  }

  lemma {:induction false} LeftRun(img: Img, f: nat, x: int, y: int)
    requires Has(img, Pt(x, y), f)
    ensures var l := LeftEnd(img, f, x, y); Run(img, f, y, l, x) && !Has(img, Pt(l - 1, y), f)
    decreases x
  {
    if Has(img, Pt(x - 1, y), f) { LeftRun(img, f, x - 1, y); }
  }

  lemma {:induction false} RightRun(img: Img, f: nat, x: int, y: int)
    requires Has(img, Pt(x, y), f)
    ensures var r := RightEnd(img, f, x, y); Run(img, f, y, x, r) && !Has(img, Pt(r + 1, y), f)
    decreases |img[y]| - x
  {
    if Has(img, Pt(x + 1, y), f) { RightRun(img, f, x + 1, y); }
  }

  lemma EndsRun(img: Img, f: nat, t: Pt)
    requires Has(img, t, f)
    ensures MaxRun(img, f, t.y, LeftEnd(img, f, t.x, t.y), RightEnd(img, f, t.x, t.y))
  {
    assert t == Pt(t.x, t.y);
    LeftRun(img, f, t.x, t.y);
    RightRun(img, f, t.x, t.y);
  }

  function Recoloured(img: Img, y: int, l: int, r: int, c: nat): Img {
    if 0 <= y < |img|
    then img[y := seq(|img[y]|, x requires 0 <= x < |img[y]| => if l <= x <= r then c else img[y][x])]
    else img
  }

  lemma RecolouredFills(img: Img, y: int, l: int, r: int, c: nat)
    ensures Filled(img, Recoloured(img, y, l, r, c), y, l, r, c)
  {
    forall p ensures FilledAt(img, Recoloured(img, y, l, r, c), y, l, r, c, p) { }
  }

  /** A seed for the first pixel of every run of row `ny` in [l, r], from `i` on. */
  function SeedsFrom(img: Img, f: nat, ny: int, l: int, i: int, r: int): (st: seq<Pt>)
    ensures forall k | 0 <= k < |st| :: Has(img, st[k], f)
    decreases r + 1 - i
  {
    if i > r then []
    else if Starts(img, f, ny, l, i)
    then [Pt(i, ny)] + SeedsFrom(img, f, ny, l, i + 1, r)
    else SeedsFrom(img, f, ny, l, i + 1, r)
  }

  /** What fits on the stack. */
  function Push(st: seq<Pt>, more: seq<Pt>): seq<Pt> {
    if |st| >= CAP then st
    else if |more| <= CAP - |st| then st + more
    else st + more[..CAP - |st|]
  }

  function RoundImg(img: Img, t: Pt, f: nat, c: nat): Img
    requires Has(img, Pt(t.x, t.y), f)
  {
    Recoloured(img, t.y, LeftEnd(img, f, t.x, t.y), RightEnd(img, f, t.x, t.y), c)
  }

  function RoundStack(img: Img, st: seq<Pt>, t: Pt, f: nat, c: nat): seq<Pt>
    requires Has(img, Pt(t.x, t.y), f)
  {
    var l, r, img' := LeftEnd(img, f, t.x, t.y), RightEnd(img, f, t.x, t.y), RoundImg(img, t, f, c);
    Push(Push(st, SeedsFrom(img', f, t.y - 1, l, l, r)), SeedsFrom(img', f, t.y + 1, l, l, r))
  }

  /** The seeds of the rows beside the run do not all fit. */
  predicate RoundLoses(img: Img, st: seq<Pt>, t: Pt, f: nat, c: nat)
    requires Has(img, Pt(t.x, t.y), f)
  {
    var l, r, img' := LeftEnd(img, f, t.x, t.y), RightEnd(img, f, t.x, t.y), RoundImg(img, t, f, c);
    var above, below := SeedsFrom(img', f, t.y - 1, l, l, r), SeedsFrom(img', f, t.y + 1, l, l, r);
    |st| + |above| > CAP || |Push(st, above)| + |below| > CAP
  }

  ghost predicate AllIn(img: Img, st: seq<Pt>) {
    forall k | 0 <= k < |st| :: In(img, st[k])
  }

  lemma PushIn(img: Img, st: seq<Pt>, more: seq<Pt>, f: nat)
    requires AllIn(img, st) && forall k | 0 <= k < |more| :: Has(img, more[k], f)
    ensures AllIn(img, Push(st, more))
  {
  }

  lemma RoundShrinks(img: Img, st: seq<Pt>, t: Pt, w: nat, h: nat, f: nat, c: nat)
    requires Rect(img, w, h) && AllIn(img, st) && Has(img, Pt(t.x, t.y), f) && f != c
    ensures Rect(RoundImg(img, t, f, c), w, h) && AllIn(RoundImg(img, t, f, c), RoundStack(img, st, t, f, c))
    ensures |Left(RoundImg(img, t, f, c), w, h, f)| < |Left(img, w, h, f)|
  {
    var l, r, img' := LeftEnd(img, f, t.x, t.y), RightEnd(img, f, t.x, t.y), RoundImg(img, t, f, c);
    EndsRun(img, f, Pt(t.x, t.y));
    RecolouredFills(img, t.y, l, r, c);
    SnapIn(img, w, h);
    FillShrinks(img, img', w, h, f, c, t.y, l, r);
    forall k | 0 <= k < |st| ensures In(img', st[k]) { assert FilledAt(img, img', t.y, l, r, c, st[k]); }
    PushIn(img', st, SeedsFrom(img', f, t.y - 1, l, l, r), f);
    PushIn(img', Push(st, SeedsFrom(img', f, t.y - 1, l, l, r)), SeedsFrom(img', f, t.y + 1, l, l, r), f);
  }

  lemma FilledIs(img: Img, img': Img, w: nat, h: nat, y: int, l: int, r: int, c: nat)
    requires Filled(img, img', y, l, r, c) && Rect(img, w, h) && Rect(img', w, h) && 0 <= y < h
    ensures img' == Recoloured(img, y, l, r, c)
  {
    var want := Recoloured(img, y, l, r, c);
    forall z | 0 <= z < h
      ensures img'[z] == want[z]
    {
      forall x | 0 <= x < w
        ensures img'[z][x] == want[z][x]
      {
        assert FilledAt(img, img', y, l, r, c, Pt(x, z));
      }
    }
  }

  lemma {:induction false} NoSeeds(img: Img, f: nat, ny: int, l: int, i: int, r: int)
    requires forall x | i <= x <= r :: !Has(img, Pt(x, ny), f)
    ensures SeedsFrom(img, f, ny, l, i, r) == []
    decreases r + 1 - i
  {
    if i <= r {
      assert !Has(img, Pt(i, ny), f);
      NoSeeds(img, f, ny, l, i + 1, r);
    }
  }

  predicate Starts(img: Img, f: nat, ny: int, l: int, i: int) {
    Has(img, Pt(i, ny), f) && !(i > l && Has(img, Pt(i - 1, ny), f))
  }

  /** One pixel further, with its seed if it starts a run and the stack has room. */
  lemma PushStep(img: Img, f: nat, ny: int, l: int, i: int, r: int, st: seq<Pt>, st': seq<Pt>)
    requires i <= r && |st| <= CAP
    requires st' == if Starts(img, f, ny, l, i) && |st| < CAP then st + [Pt(i, ny)] else st
    ensures Push(st, SeedsFrom(img, f, ny, l, i, r)) == Push(st', SeedsFrom(img, f, ny, l, i + 1, r))
  {
    if Starts(img, f, ny, l, i) && |st| < CAP { PushOne(st, Pt(i, ny), SeedsFrom(img, f, ny, l, i + 1, r)); }
  }

  lemma StartsHere(img: Img, w: nat, h: nat, f: nat, ny: int, l: int, i: int)
    requires Rect(img, w, h) && 0 <= ny < h && 0 <= l <= i < w
    ensures Starts(img, f, ny, l, i) <==> img[ny][i] == f && !(i > l && img[ny][i - 1] == f)
  {
  }

  lemma PushNone(img: Img, f: nat, ny: int, l: int, i: int, r: int, st: seq<Pt>)
    requires i > r && |st| <= CAP
    ensures Push(st, SeedsFrom(img, f, ny, l, i, r)) == st
  {
  }

  lemma PushOne(st: seq<Pt>, p: Pt, more: seq<Pt>)
    requires |st| < CAP
    ensures Push(st, [p] + more) == Push(st + [p], more)
  {
    if 1 + |more| > CAP - |st| {
      assert ([p] + more)[..CAP - |st|] == [p] + more[..CAP - |st| - 1];
    }
  }

  lemma {:induction false} SeedsIn(img: Img, f: nat, ny: int, l: int, i: int, r: int)
    ensures forall k | 0 <= k < |SeedsFrom(img, f, ny, l, i, r)| ::
              SeedsFrom(img, f, ny, l, i, r)[k].y == ny && i <= SeedsFrom(img, f, ny, l, i, r)[k].x <= r
    decreases r + 1 - i
  {
    if i <= r { SeedsIn(img, f, ny, l, i + 1, r); }
  }

  /** Between two seeds there is a pixel of another colour. */
  lemma {:induction false} SeedsFew(img: Img, f: nat, ny: int, l: int, i: int, r: int)
    requires l <= i <= r + 1
    ensures 2 * |SeedsFrom(img, f, ny, l, i, r)| <= r + 1 - i + if i > l && Has(img, Pt(i - 1, ny), f) then 0 else 1
    decreases r + 1 - i
  {
    if i <= r { SeedsFew(img, f, ny, l, i + 1, r); }
  }

  /** Every run of the old colour that touches [i, r] has its seed, or started before `i`. */
  lemma {:induction false} SeedsDue(img: Img, f: nat, ny: int, l: int, i: int, r: int, x: int)
    requires i <= x <= r && Has(img, Pt(x, ny), f)
    ensures Due(img, f, SeedsFrom(img, f, ny, l, i, r), Pt(x, ny)) || (i > l && Run(img, f, ny, i - 1, x))
    decreases r + 1 - i
  {
    var st := SeedsFrom(img, f, ny, l, i, r);
    if x > i {
      SeedsDue(img, f, ny, l, i + 1, r, x);
      var more := SeedsFrom(img, f, ny, l, i + 1, r);
      if Due(img, f, more, Pt(x, ny)) {
        var s :| s in more && SameRun(img, f, s, Pt(x, ny));
        assert s in st;
      } else {
        assert Has(img, Pt(i, ny), f);
        RunSeed(img, f, ny, l, i, r, x);
      }
    } else {
      RunSeed(img, f, ny, l, i, r, x);
    }
  }

  lemma RunSeed(img: Img, f: nat, ny: int, l: int, i: int, r: int, x: int)
    requires i <= x <= r && Run(img, f, ny, i, x) && Has(img, Pt(i, ny), f)
    ensures Due(img, f, SeedsFrom(img, f, ny, l, i, r), Pt(x, ny)) || (i > l && Run(img, f, ny, i - 1, x))
  {
    if Starts(img, f, ny, l, i) {
      var s := Pt(i, ny);
      assert s in SeedsFrom(img, f, ny, l, i, r);
      assert SameRun(img, f, s, Pt(x, ny));
    } else {
      forall z | i - 1 <= z <= x ensures Has(img, Pt(z, ny), f) { }
    }
  }

  /** What the seeds of one row are good for, if they fit. */
  lemma RowSeeds(img: Img, f: nat, ny: int, l: int, r: int, st0: seq<Pt>)
    requires l <= r && |st0| <= CAP
    ensures var seeds := SeedsFrom(img, f, ny, l, l, r);
            var st := Push(st0, seeds);
            && |st0| <= |st| <= CAP && st[..|st0|] == st0 && 2 * |seeds| <= r - l + 2 && |st| <= |st0| + |seeds|
            && (forall i | |st0| <= i < |st| :: Has(img, st[i], f) && st[i].y == ny && l <= st[i].x <= r)
            && (|st0| + |seeds| <= CAP ==>
                  forall x | l <= x <= r && Has(img, Pt(x, ny), f) :: Due(img, f, st, Pt(x, ny)))
  {
    var seeds := SeedsFrom(img, f, ny, l, l, r);
    var st := Push(st0, seeds);
    SeedsIn(img, f, ny, l, l, r);
    SeedsFew(img, f, ny, l, l, r);
    forall i | |st0| <= i < |st|
      ensures Has(img, st[i], f) && st[i].y == ny && l <= st[i].x <= r
    {
      assert st[i] == seeds[i - |st0|];
    }
    if |st0| + |seeds| <= CAP {
      assert st == st0 + seeds;
      forall x | l <= x <= r && Has(img, Pt(x, ny), f)
        ensures Due(img, f, st, Pt(x, ny))
      {
        SeedsDue(img, f, ny, l, l, r, x);
        var s :| s in seeds && SameRun(img, f, s, Pt(x, ny));
        assert s in st;
      }
    }
  }

  /** The picture that the loop ends with when it goes on from here. */
  ghost function Flooding(img: Img, st: seq<Pt>, w: nat, h: nat, f: nat, c: nat): Img
    requires Rect(img, w, h) && AllIn(img, st) && f != c
    decreases |Left(img, w, h, f)|, |st|
  {
    if st == [] then img
    else
      var t, rest := st[|st| - 1], st[..|st| - 1];
      if !Has(img, Pt(t.x, t.y), f) then Flooding(img, rest, w, h, f, c)
      else
        RoundShrinks(img, rest, t, w, h, f, c);
        Flooding(RoundImg(img, t, f, c), RoundStack(img, rest, t, f, c), w, h, f, c)
  }

  lemma FloodOn(img: Img, st: seq<Pt>, w: nat, h: nat, f: nat, c: nat)
    requires Rect(img, w, h) && AllIn(img, st) && f != c && st != []
    ensures var t, rest := st[|st| - 1], st[..|st| - 1];
            if !Has(img, Pt(t.x, t.y), f) then Flooding(img, st, w, h, f, c) == Flooding(img, rest, w, h, f, c)
            else
              && Rect(RoundImg(img, t, f, c), w, h) && AllIn(RoundImg(img, t, f, c), RoundStack(img, rest, t, f, c))
              && Flooding(img, st, w, h, f, c)
                 == Flooding(RoundImg(img, t, f, c), RoundStack(img, rest, t, f, c), w, h, f, c)
  {
    var t, rest := st[|st| - 1], st[..|st| - 1];
    if Has(img, Pt(t.x, t.y), f) { RoundShrinks(img, rest, t, w, h, f, c); }
  }

  /** Some round from here on finds the stack too full for its seeds. */
  ghost predicate Loses(img: Img, st: seq<Pt>, w: nat, h: nat, f: nat, c: nat)
    requires Rect(img, w, h) && AllIn(img, st) && f != c
    decreases |Left(img, w, h, f)|, |st|
  {
    if st == [] then false
    else
      var t, rest := st[|st| - 1], st[..|st| - 1];
      if !Has(img, Pt(t.x, t.y), f) then Loses(img, rest, w, h, f, c)
      else
        RoundShrinks(img, rest, t, w, h, f, c);
        || RoundLoses(img, rest, t, f, c)
        || Loses(RoundImg(img, t, f, c), RoundStack(img, rest, t, f, c), w, h, f, c)
  }

  lemma LosesOn(img: Img, st: seq<Pt>, w: nat, h: nat, f: nat, c: nat)
    requires Rect(img, w, h) && AllIn(img, st) && f != c && st != []
    ensures var t, rest := st[|st| - 1], st[..|st| - 1];
            if !Has(img, Pt(t.x, t.y), f) then Loses(img, st, w, h, f, c) == Loses(img, rest, w, h, f, c)
            else
              && Rect(RoundImg(img, t, f, c), w, h) && AllIn(RoundImg(img, t, f, c), RoundStack(img, rest, t, f, c))
              && Loses(img, st, w, h, f, c)
                 == (RoundLoses(img, rest, t, f, c)
                     || Loses(RoundImg(img, t, f, c), RoundStack(img, rest, t, f, c), w, h, f, c))
  {
    var t, rest := st[|st| - 1], st[..|st| - 1];
    if Has(img, Pt(t.x, t.y), f) { RoundShrinks(img, rest, t, w, h, f, c); }
  }

  class Canvas {
    const w: nat
    const h: nat
    const px: array2<nat>

    constructor (width: nat, height: nat)
      ensures fresh(px) && w == width && h == height && px.Length0 == h && px.Length1 == w
    {
      w, h := width, height;
      px := new nat[height, width]((_, _) => 0xFFFFFF);
    }

    ghost predicate Valid() { px.Length0 == h && px.Length1 == w }

    /** The picture as a value. */
    ghost function Snap(): (img: Img)
      requires Valid()
      reads px
      ensures |img| == h && forall y | 0 <= y < h :: |img[y]| == w
      ensures forall x, y | 0 <= x < w && 0 <= y < h :: img[y][x] == px[y, x]
    {
      seq(h, y requires 0 <= y < h && Valid() reads px =>
        seq(w, x requires 0 <= x < w && 0 <= y < h && Valid() reads px => px[y, x]))
    }

    /** The widest run of the old colour around a pixel that has it. */
    method Widen(f: nat, t: Pt) returns (l: int, r: int)
      requires Valid() && Has(Snap(), t, f)
      ensures MaxRun(Snap(), f, t.y, l, r) && l <= t.x <= r
    {
      l, r := t.x, t.x;
      while l > 0 && px[t.y, l - 1] == f
        invariant 0 <= l <= t.x && Run(Snap(), f, t.y, l, t.x)
      {
        l := l - 1;
      }
      while r < w - 1 && px[t.y, r + 1] == f
        invariant t.x <= r < w && Run(Snap(), f, t.y, l, r)
      {
        r := r + 1;
      }
    }

    method Paint(y: int, l: int, r: int, c: nat)
      requires Valid() && 0 <= y < h && 0 <= l <= r < w
      modifies px
      ensures Filled(old(Snap()), Snap(), y, l, r, c)
    {
      var i := l;
      while i <= r
        invariant l <= i <= r + 1
        invariant forall x, z | 0 <= x < w && 0 <= z < h ::
                    px[z, x] == if z == y && l <= x < i then c else old(px[z, x])
      {
        px[y, i] := c;
        i := i + 1;
      }
    }

    /** A seed for every run of the old colour in row `ny` that touches [l, r]; a full stack loses seeds. */
    method SeedRow(f: nat, ny: int, l: int, r: int, st0: seq<Pt>, ghost lost0: bool)
      returns (st: seq<Pt>, ghost lost: bool)
      requires Valid() && 0 <= l <= r < w && |st0| <= CAP
      ensures |st0| <= |st| <= CAP && st[..|st0|] == st0 && (lost0 ==> lost)
      ensures forall i | |st0| <= i < |st| :: Has(Snap(), st[i], f) && st[i].y == ny && l <= st[i].x <= r
      ensures !lost ==> forall x | l <= x <= r && Has(Snap(), Pt(x, ny), f) :: Due(Snap(), f, st, Pt(x, ny))
      ensures 2 * (|st| - |st0|) <= r - l + 2 && (lost ==> lost0 || 2 * (CAP - |st0|) <= r - l)
      ensures st == Push(st0, SeedsFrom(Snap(), f, ny, l, l, r))
      ensures lost <==> lost0 || |st0| + |SeedsFrom(Snap(), f, ny, l, l, r)| > CAP
    {
      ghost var img := Snap();
      st := PushSeeds(f, ny, l, r, st0);
      lost := lost0 || |st0| + |SeedsFrom(img, f, ny, l, l, r)| > CAP;
      RowSeeds(img, f, ny, l, r, st0);
    }

    method PushSeeds(f: nat, ny: int, l: int, r: int, st0: seq<Pt>) returns (st: seq<Pt>)
      requires Valid() && 0 <= l <= r < w && |st0| <= CAP
      ensures |st| <= CAP && st == Push(st0, SeedsFrom(Snap(), f, ny, l, l, r))
    {
      st := st0;
      ghost var img := Snap();
      if !(0 <= ny < h) {
        NoSeeds(img, f, ny, l, l, r);
        return;
      }
      hide Push, SeedsFrom, Has, In;
      var i := l;
      while i <= r
        invariant l <= i <= r + 1 && |st| <= CAP
        invariant Push(st, SeedsFrom(img, f, ny, l, i, r)) == Push(st0, SeedsFrom(img, f, ny, l, l, r))
      {
        ghost var was := st;
        StartsHere(img, w, h, f, ny, l, i);
        if px[ny, i] == f && !(i > l && px[ny, i - 1] == f) && |st| < CAP { st := st + [Pt(i, ny)]; }
        PushStep(img, f, ny, l, i, r, was, st);
        i := i + 1;
      }
      PushNone(img, f, ny, l, i, r, st);
    }

    /** One seed with the old colour: its run is painted, and the rows beside it get their seeds. */
    method FillRun(f: nat, c: nat, t: Pt, st0: seq<Pt>, ghost orig: Img, ghost s0: Pt, ghost lost0: bool)
      returns (st: seq<Pt>, ghost lost: bool)
      requires Valid() && f != c && Has(Snap(), t, f) && Has(orig, s0, f) && |st0| < CAP
      requires Sound(orig, Snap(), f, c, s0) && SeedsOk(orig, f, s0, st0 + [t])
      requires !lost0 ==> Covered(orig, Snap(), f, st0 + [t], s0)
      modifies px
      ensures |st| <= CAP && Sound(orig, Snap(), f, c, s0) && SeedsOk(orig, f, s0, st) && (lost0 ==> lost)
      ensures !lost ==> Covered(orig, Snap(), f, st, s0)
      ensures |Left(Snap(), w, h, f)| < |Left(old(Snap()), w, h, f)|
      ensures |st| + |Left(Snap(), w, h, f)| <= |st0| + 1 + |Left(old(Snap()), w, h, f)|
      ensures lost ==> lost0 || CAP + |Left(Snap(), w, h, f)| <= |st0| + |Left(old(Snap()), w, h, f)|
      ensures Has(old(Snap()), Pt(t.x, t.y), f) && Snap() == RoundImg(old(Snap()), t, f, c)
      ensures st == RoundStack(old(Snap()), st0, t, f, c)
      ensures lost <==> lost0 || RoundLoses(old(Snap()), st0, t, f, c)
    {
      hide Covered, Sound, PixelOk, Filled, MaxRun, Conn, Left, Due, Push, SeedsFrom, Recoloured, LeftEnd, RightEnd;
      ghost var img := Snap();
      SnapIn(img, w, h);
      SeedsSplit(orig, f, s0, st0, t);
      var l, r := Widen(f, t);
      RunInside(img, f, t.y, l, r);
      EndsAre(img, f, t.y, l, r, t.x);
      Paint(t.y, l, r, c);
      ghost var img' := Snap();
      FilledIs(img, img', w, h, t.y, l, r, c);
      FillSound(orig, img, img', f, c, t.y, l, r, s0, t);
      FillShrinks(img, img', w, h, f, c, t.y, l, r);
      st, lost := SeedRow(f, t.y - 1, l, r, st0, lost0);
      ghost var st1 := st;
      NewSeedsOk(orig, img', f, c, s0, t.y, t.y - 1, l, r, st0, st);
      st, lost := SeedRow(f, t.y + 1, l, r, st, lost);
      NewSeedsOk(orig, img', f, c, s0, t.y, t.y + 1, l, r, st1, st);
      if !lost {
        DueMore(img', f, st1, st);
        forall x | l <= x <= r ensures SidesDue(img', f, st, t.y, x) {}
        assert forall s | s in st0 :: s in st by { assert forall s | s in st0 :: s in st1[..|st0|]; }
        SoundIn(orig, img, f, c, s0);
        FillCovers(orig, img, img', f, c, t.y, l, r, st0, st, s0, t);
      }
    }

    /** The seed on top: dropped if its pixel was painted meanwhile, else its run is. */
    method PopSeed(f: nat, c: nat, st0: seq<Pt>, ghost orig: Img, ghost s0: Pt, ghost lost0: bool)
      returns (st: seq<Pt>, ghost lost: bool)
      requires Valid() && f != c && 0 < |st0| <= CAP && Has(orig, s0, f) && AllIn(Snap(), st0)
      requires Sound(orig, Snap(), f, c, s0) && SeedsOk(orig, f, s0, st0)
      requires !lost0 ==> Covered(orig, Snap(), f, st0, s0)
      modifies px
      ensures |st| <= CAP && Sound(orig, Snap(), f, c, s0) && SeedsOk(orig, f, s0, st) && (lost0 ==> lost)
      ensures !lost ==> Covered(orig, Snap(), f, st, s0)
      ensures |Left(Snap(), w, h, f)| < |Left(old(Snap()), w, h, f)|
              || (|Left(Snap(), w, h, f)| == |Left(old(Snap()), w, h, f)| && |st| < |st0|)
      ensures |st| + |Left(Snap(), w, h, f)| <= |st0| + |Left(old(Snap()), w, h, f)|
      ensures lost ==> lost0 || CAP + |Left(Snap(), w, h, f)| < |st0| + |Left(old(Snap()), w, h, f)|
      ensures AllIn(Snap(), st) && Flooding(Snap(), st, w, h, f, c) == Flooding(old(Snap()), st0, w, h, f, c)
      ensures lost || Loses(Snap(), st, w, h, f, c) <==> lost0 || Loses(old(Snap()), st0, w, h, f, c)
    {
      hide Covered, Sound, Left, Conn, Flooding, Loses, RoundLoses, RoundStack, RoundImg, SeedsOk;
      ghost var img := Snap();
      var t := st0[|st0| - 1];
      st, lost := st0[..|st0| - 1], lost0;
      assert st0 == st + [t];
      SeedsSplit(orig, f, s0, st, t);
      FloodOn(img, st0, w, h, f, c);
      LosesOn(img, st0, w, h, f, c);
      if px[t.y, t.x] != f {
        if !lost { PopStale(orig, img, f, st0, s0); }
        return;
      }
      RoundShrinks(img, st, t, w, h, f, c);
      st, lost := FillRun(f, c, t, st, orig, s0, lost);
    }

    /**
      flood; `mem` says whether there was memory for the stack. Whether a seed is lost depends on the
      picture alone, and none is while fewer pixels than the stack has places have the old colour.
      */
    method Fill(start: Pt, c: nat, mem: bool) returns (ghost lost: bool)
      requires Valid()
      modifies px
      ensures !In(old(Snap()), start) || Has(old(Snap()), start, c) || !mem ==> Snap() == old(Snap())
      ensures In(old(Snap()), start) && !Has(old(Snap()), start, c) && mem ==>
                var f := old(Snap())[start.y][start.x];
                && Sound(old(Snap()), Snap(), f, c, start)
                && (!lost ==> forall p | Conn(old(Snap()), f, start, p) :: Has(Snap(), p, c))
                && (lost <==> Loses(old(Snap()), [start], w, h, f, c))
                && (lost ==> CAP <= |Left(old(Snap()), w, h, f)|)
                && Snap() == Flooding(old(Snap()), [start], w, h, f, c)
    {
      lost := false;
      if start.x < 0 || start.x >= w || start.y < 0 || start.y >= h { return; }
      var f := px[start.y, start.x];
      if f == c || !mem { return; }
      ghost var orig := Snap();
      var st := [start];
      FillStarts(orig, f, c, start);
      while |st| > 0
        invariant |st| <= CAP && Sound(orig, Snap(), f, c, start) && SeedsOk(orig, f, start, st)
        invariant !lost ==> Covered(orig, Snap(), f, st, start)
        invariant |st| + |Left(Snap(), w, h, f)| <= 1 + |Left(orig, w, h, f)|
        invariant lost ==> CAP <= |Left(orig, w, h, f)|
        invariant AllIn(Snap(), st) && Flooding(Snap(), st, w, h, f, c) == Flooding(orig, [start], w, h, f, c)
        invariant lost || Loses(Snap(), st, w, h, f, c) <==> Loses(orig, [start], w, h, f, c)
        decreases |Left(Snap(), w, h, f)|, |st|
      {
        st, lost := PopSeed(f, c, st, orig, start, lost);
      }
      if !lost { FillEnds(orig, Snap(), f, c, start); }
    }
  }

  lemma SnapIn(img: Img, w: nat, h: nat)
    requires |img| == h && forall y | 0 <= y < h :: |img[y]| == w
    ensures forall p :: In(img, p) <==> 0 <= p.x < w && 0 <= p.y < h
  {
  }

  lemma RunInside(img: Img, f: nat, y: int, l: int, r: int)
    requires MaxRun(img, f, y, l, r)
    ensures l <= r && In(img, Pt(l, y)) && In(img, Pt(r, y))
  {
    assert Has(img, Pt(l, y), f) && Has(img, Pt(r, y), f);
  }

  /** New seeds lie next to pixels of the component, and had the old colour from the start. */
  lemma NewSeedsOk(orig: Img, img: Img, f: nat, c: nat, s0: Pt, y: int, ny: int, l: int, r: int, st0: seq<Pt>,
      st: seq<Pt>)
    requires Sound(orig, img, f, c, s0) && f != c && (ny == y - 1 || ny == y + 1) && SeedsOk(orig, f, s0, st0)
    requires forall x | l <= x <= r :: Conn(orig, f, s0, Pt(x, y))
    requires |st0| <= |st| && st[..|st0|] == st0
    requires forall i | |st0| <= i < |st| :: Has(img, st[i], f) && st[i].y == ny && l <= st[i].x <= r
    ensures SeedsOk(orig, f, s0, st)
  {
    forall i | 0 <= i < |st|
      ensures Conn(orig, f, s0, st[i])
    {
      if i < |st0| {
        assert st[..|st0|][i] == st0[i];
      } else {
        assert PixelOk(orig, img, f, c, s0, st[i]);
        ConnNext(orig, f, s0, Pt(st[i].x, y), st[i]);
      }
    }
  }

  lemma SeedsSplit(orig: Img, f: nat, s0: Pt, st: seq<Pt>, t: Pt)
    requires SeedsOk(orig, f, s0, st + [t])
    ensures SeedsOk(orig, f, s0, st) && Conn(orig, f, s0, t)
  {
    assert (st + [t])[|st|] == t && (st + [t])[..|st|] == st;
    forall i | 0 <= i < |st| ensures Conn(orig, f, s0, st[i]) { assert (st + [t])[i] == st[i]; }
  }

  lemma SoundIn(orig: Img, img: Img, f: nat, c: nat, s0: Pt)
    requires Sound(orig, img, f, c, s0)
    ensures forall p :: In(orig, p) <==> In(img, p)
  {
    forall p ensures In(orig, p) <==> In(img, p) { assert PixelOk(orig, img, f, c, s0, p); }
  }

  lemma SeedInside(orig: Img, img: Img, f: nat, c: nat, s0: Pt, t: Pt)
    requires Sound(orig, img, f, c, s0) && Conn(orig, f, s0, t)
    ensures In(img, t)
  {
    ConnHas(orig, f, s0, t);
    assert PixelOk(orig, img, f, c, s0, t);
  }

  lemma FillStarts(img: Img, f: nat, c: nat, s0: Pt)
    requires Has(img, s0, f)
    ensures Sound(img, img, f, c, s0) && SeedsOk(img, f, s0, [s0]) && Covered(img, img, f, [s0], s0)
  {
    ConnStart(img, f, s0);
  }

  lemma FillEnds(orig: Img, img: Img, f: nat, c: nat, s0: Pt)
    requires Sound(orig, img, f, c, s0) && Covered(orig, img, f, [], s0)
    ensures forall p | Conn(orig, f, s0, p) :: Has(img, p, c)
  {
    forall p | Conn(orig, f, s0, p)
      ensures Has(img, p, c)
    {
      var ps :| Joins(orig, f, s0, p, ps);
      AllTurned(orig, img, f, s0, ps, |ps| - 1);
      assert PixelOk(orig, img, f, c, s0, p);
    }
  }

  lemma DueRight(img: Img, f: nat, st: seq<Pt>, q: Pt)
    requires Due(img, f, st, q) && Has(img, Pt(q.x + 1, q.y), f)
    ensures Due(img, f, st, Pt(q.x + 1, q.y))
  {
    var s :| s in st && SameRun(img, f, s, q);
    assert SameRun(img, f, s, Pt(q.x + 1, q.y));
  }

  lemma DueMore(img: Img, f: nat, st: seq<Pt>, st': seq<Pt>)
    requires st <= st'
    ensures forall q :: Due(img, f, st, q) ==> Due(img, f, st', q)
  {
  }
}

/**
  When flood drops no seed: each round puts one seed on the stack for every run that touches the painted
  one, and that pair of runs never comes up again. So the stack never needs more places than the picture
  has pairs of touching runs of the old colour.
  */
module FloodRuns {
  import opened Flood

  /** Two runs, one in row `y` that starts at `a`, one in row `y` + 1 that starts at `b`. */
  datatype Pair = Pair(y: int, a: int, b: int)

  /** `x` is the left end of a run. */
  ghost predicate Head(img: Img, f: nat, x: int, y: int) { Has(img, Pt(x, y), f) && !Has(img, Pt(x - 1, y), f) }

  /** Both runs reach a common column, the start of the later one. */
  ghost predicate Touch(img: Img, f: nat, q: Pair) {
    var x := if q.a < q.b then q.b else q.a;
    Head(img, f, q.a, q.y) && Head(img, f, q.b, q.y + 1) && Run(img, f, q.y, q.a, x) && Run(img, f, q.y + 1, q.b, x)
  }

  ghost function Touching(img: Img, w: nat, h: nat, f: nat): set<Pair> {
    set y, a, b | 0 <= y < h && 0 <= a < w && 0 <= b < w && Touch(img, f, Pair(y, a, b)) :: Pair(y, a, b)
  }

  lemma TouchingIs(img: Img, w: nat, h: nat, f: nat, q: Pair)
    requires Rect(img, w, h)
    ensures q in Touching(img, w, h, f) <==> Touch(img, f, q)
  {
    assert q == Pair(q.y, q.a, q.b);
  }

  /** The run at `l` in row `y` is one of the two, the other one is in row `ny`. */
  predicate Beside(q: Pair, y: int, ny: int, l: int) {
    if ny < y then q.y == ny && q.b == l else q.y == y && q.a == l
  }

  function Other(q: Pair, y: int, ny: int): int { if ny < y then q.a else q.b }

  function Meet(y: int, ny: int, l: int, x: int): Pair { if ny < y then Pair(ny, x, l) else Pair(y, l, x) }

  /** A pixel of the row beside a run belongs to a run that touches it. */
  lemma SeedTouch(img: Img, f: nat, y: int, ny: int, l: int, r: int, x: int)
    requires MaxRun(img, f, y, l, r) && (ny == y - 1 || ny == y + 1) && l <= x <= r && Starts(img, f, ny, l, x)
    ensures Touch(img, f, Meet(y, ny, l, LeftEnd(img, f, x, ny))) && (x > l ==> LeftEnd(img, f, x, ny) == x)
  {
    LeftRun(img, f, x, ny);
    assert Has(img, Pt(l, y), f);
  }

  /** A pair with the painted run, and a run that starts at `i` or later. */
  ghost predicate PairFrom(img: Img, f: nat, y: int, ny: int, l: int, i: int, q: Pair) {
    Touch(img, f, q) && Beside(q, y, ny, l) && (i > l ==> Other(q, y, ny) >= i)
  }

  /** The pairs that the seeds of one row, from `i` on, stand for. */
  lemma {:induction false} SeedPairs(img: Img, f: nat, y: int, ny: int, l: int, i: int, r: int)
      returns (g: set<Pair>)
    requires MaxRun(img, f, y, l, r) && (ny == y - 1 || ny == y + 1) && l <= i
    ensures |g| == |SeedsFrom(img, f, ny, l, i, r)| && forall q | q in g :: PairFrom(img, f, y, ny, l, i, q)
    decreases r + 1 - i
  {
    hide Touch, MaxRun, LeftEnd, Starts, Has;
    if i > r { return {}; }
    g := SeedPairs(img, f, y, ny, l, i + 1, r);
    if Starts(img, f, ny, l, i) {
      StartHas(img, f, ny, l, i);
      SeedTouch(img, f, y, ny, l, r, i);
      g := g + {Meet(y, ny, l, LeftEnd(img, f, i, ny))};
    }
  }

  lemma StartHas(img: Img, f: nat, ny: int, l: int, x: int)
    requires Starts(img, f, ny, l, x)
    ensures Has(img, Pt(x, ny), f)
  {
  }

  ghost predicate SameRow(img: Img, img': Img, f: nat, ny: int) {
    forall x :: Has(img, Pt(x, ny), f) <==> Has(img', Pt(x, ny), f)
  }

  lemma RowStays(img: Img, img': Img, f: nat, c: nat, y: int, l: int, r: int, ny: int)
    requires Filled(img, img', y, l, r, c) && ny != y
    ensures SameRow(img, img', f, ny)
  {
    forall x ensures Has(img, Pt(x, ny), f) <==> Has(img', Pt(x, ny), f) {
      assert FilledAt(img, img', y, l, r, c, Pt(x, ny));
    }
  }

  /** The seeds of a row depend on that row only. */
  lemma {:induction false} SameSeeds(img: Img, img': Img, f: nat, ny: int, l: int, i: int, r: int)
    requires SameRow(img, img', f, ny)
    ensures SeedsFrom(img, f, ny, l, i, r) == SeedsFrom(img', f, ny, l, i, r)
    decreases r + 1 - i
  {
    if i <= r {
      assert Starts(img, f, ny, l, i) <==> Starts(img', f, ny, l, i);
      SameSeeds(img, img', f, ny, l, i + 1, r);
    }
  }

  /** Painting a whole run leaves the other runs as they are. */
  lemma HeadStays(img: Img, img': Img, f: nat, c: nat, y: int, l: int, r: int, x: int, z: int)
    requires Filled(img, img', y, l, r, c) && MaxRun(img, f, y, l, r) && f != c && Head(img', f, x, z)
    ensures Head(img, f, x, z) && !(z == y && x == l)
  {
    assert FilledAt(img, img', y, l, r, c, Pt(x, z)) && FilledAt(img, img', y, l, r, c, Pt(x - 1, z));
  }

  lemma RunStays(img: Img, img': Img, f: nat, c: nat, y: int, l: int, r: int, z: int, a: int, b: int)
    requires Filled(img, img', y, l, r, c) && f != c && Run(img', f, z, a, b)
    ensures Run(img, f, z, a, b)
  {
    forall x | a <= x <= b ensures Has(img, Pt(x, z), f) {
      assert Has(img', Pt(x, z), f) && FilledAt(img, img', y, l, r, c, Pt(x, z));
    }
  }

  /** A pair that touches afterwards touched before, and the painted run is not in it. */
  lemma TouchStays(img: Img, img': Img, f: nat, c: nat, y: int, l: int, r: int, q: Pair)
    requires Filled(img, img', y, l, r, c) && MaxRun(img, f, y, l, r) && f != c && Touch(img', f, q)
    ensures Touch(img, f, q) && !Beside(q, y, y - 1, l) && !Beside(q, y, y + 1, l)
  {
    hide Filled, MaxRun, Head, Run;
    var x := if q.a < q.b then q.b else q.a;
    HeadStays(img, img', f, c, y, l, r, q.a, q.y);
    HeadStays(img, img', f, c, y, l, r, q.b, q.y + 1);
    RunStays(img, img', f, c, y, l, r, q.y, q.a, x);
    RunStays(img, img', f, c, y, l, r, q.y + 1, q.b, x);
  }

  /** Each seed beside a painted run costs the picture a pair of touching runs. */
  lemma PaintedPairs(img: Img, img': Img, w: nat, h: nat, f: nat, c: nat, y: int, l: int, r: int)
    requires Rect(img, w, h) && Rect(img', w, h) && Filled(img, img', y, l, r, c) && MaxRun(img, f, y, l, r) && f != c
    ensures |SeedsFrom(img', f, y - 1, l, l, r)| + |SeedsFrom(img', f, y + 1, l, l, r)|
              + |Touching(img', w, h, f)| <= |Touching(img, w, h, f)|
  {
    hide Touch, Touching, MaxRun, Filled, SeedsFrom, Has, SameRow;
    RowStays(img, img', f, c, y, l, r, y - 1);
    RowStays(img, img', f, c, y, l, r, y + 1);
    SameSeeds(img, img', f, y - 1, l, l, r);
    SameSeeds(img, img', f, y + 1, l, l, r);
    var above := SeedPairs(img, f, y, y - 1, l, l, r);
    var below := SeedPairs(img, f, y, y + 1, l, l, r);
    forall q | q in Touching(img', w, h, f) ensures q in Touching(img, w, h, f) && q !in above && q !in below {
      TouchingIs(img', w, h, f, q);
      TouchStays(img, img', f, c, y, l, r, q);
      TouchingIs(img, w, h, f, q);
    }
    forall q | q in above + below ensures q in Touching(img, w, h, f) { TouchingIs(img, w, h, f, q); }
    ThreeParts(above, below, Touching(img', w, h, f), Touching(img, w, h, f));
  }

  lemma RoundIs(img: Img, t: Pt, w: nat, h: nat, f: nat, c: nat, l: int, r: int)
    requires Rect(img, w, h) && Has(img, Pt(t.x, t.y), f) && f != c
    requires l == LeftEnd(img, f, t.x, t.y) && r == RightEnd(img, f, t.x, t.y)
    ensures MaxRun(img, f, t.y, l, r) && Filled(img, RoundImg(img, t, f, c), t.y, l, r, c)
  {
    hide MaxRun, Filled, Recoloured, LeftEnd, RightEnd, Has;
    EndsRun(img, f, Pt(t.x, t.y));
    RecolouredFills(img, t.y, l, r, c);
  }

  /** A round puts no more on the stack than it takes away in pairs, and loses none while there are few. */
  lemma RoundPairs(img: Img, st: seq<Pt>, t: Pt, w: nat, h: nat, f: nat, c: nat)
    requires Rect(img, w, h) && Has(img, Pt(t.x, t.y), f) && f != c && Rect(RoundImg(img, t, f, c), w, h)
    ensures RoundLoses(img, st, t, f, c) ==> |st| + |Touching(img, w, h, f)| > CAP
    ensures |RoundStack(img, st, t, f, c)| + |Touching(RoundImg(img, t, f, c), w, h, f)|
              <= |st| + |Touching(img, w, h, f)|
  {
    hide Touching, SeedsFrom, MaxRun, Filled, RoundImg, LeftEnd, RightEnd, Has, Rect;
    var l, r := LeftEnd(img, f, t.x, t.y), RightEnd(img, f, t.x, t.y);
    RoundIs(img, t, w, h, f, c, l, r);
    PaintedPairs(img, RoundImg(img, t, f, c), w, h, f, c, t.y, l, r);
  }

  lemma ThreeParts(a: set<Pair>, b: set<Pair>, d: set<Pair>, all: set<Pair>)
    requires a <= all && b <= all && d <= all && a !! b && a !! d && b !! d
    ensures |a| + |b| + |d| <= |all|
  {
    assert |a + b + d| == |a| + |b| + |d|;
    Smaller(a + b + d, all);
  }

  lemma Smaller(a: set<Pair>, b: set<Pair>)
    requires a <= b
    ensures |a| <= |b|
  {
    assert b == a + (b - a);
  }

  /** A fill that loses a seed has more pairs of touching runs before it than places on the stack. */
  lemma {:induction false} LosesMeansMany(img: Img, st: seq<Pt>, w: nat, h: nat, f: nat, c: nat)
    requires Rect(img, w, h) && AllIn(img, st) && f != c && Loses(img, st, w, h, f, c)
    ensures |st| + |Touching(img, w, h, f)| > CAP + 1
    decreases |Left(img, w, h, f)|, |st|
  {
    var t, rest := st[|st| - 1], st[..|st| - 1];
    LosesOn(img, st, w, h, f, c);
    if !Has(img, Pt(t.x, t.y), f) {
      LosesMeansMany(img, rest, w, h, f, c);
    } else {
      RoundShrinks(img, rest, t, w, h, f, c);
      RoundPairs(img, rest, t, w, h, f, c);
      hide Touching, Loses, Left, RoundImg, RoundStack, RoundLoses, Has, AllIn;
      if !RoundLoses(img, rest, t, f, c) {
        LosesMeansMany(RoundImg(img, t, f, c), RoundStack(img, rest, t, f, c), w, h, f, c);
      }
    }
  }

  /** With no more pairs of touching runs than places on the stack the whole component is filled. */
  method FillFew(cv: Canvas, start: Pt, c: nat)
    requires cv.Valid() && In(cv.Snap(), start)
    requires |Touching(cv.Snap(), cv.w, cv.h, cv.Snap()[start.y][start.x])| <= CAP
    modifies cv.px
    ensures forall p | Conn(old(cv.Snap()), old(cv.Snap())[start.y][start.x], start, p) :: Has(cv.Snap(), p, c)
  {
    hide Touching, Loses, Conn, Flooding;
    ghost var img, f := cv.Snap(), cv.Snap()[start.y][start.x];
    ghost var lost := cv.Fill(start, c, true);
    if f == c {
      forall p | Conn(img, f, start, p) ensures Has(img, p, c) { ConnHas(img, f, start, p); }
    } else if Loses(img, [start], cv.w, cv.h, f, c) {
      LosesMeansMany(img, [start], cv.w, cv.h, f, c);
    }
  }

  /** In a picture of one colour the rows are the runs, and only neighbours touch. */
  lemma BlankFew(img: Img, w: nat, h: nat, f: nat)
    requires Rect(img, w, h) && forall x, y | 0 <= x < w && 0 <= y < h :: img[y][x] == f
    ensures |Touching(img, w, h, f)| <= if h == 0 then 0 else h - 1
  {
    var rows := set y | 0 <= y < h - 1 :: Pair(y, 0, 0);
    forall q | q in Touching(img, w, h, f) ensures q in rows {
      assert Head(img, f, q.a, q.y) && Head(img, f, q.b, q.y + 1);
      assert q == Pair(q.y, 0, 0);
    }
    Smaller(Touching(img, w, h, f), rows);
    RowCount(if h == 0 then 0 else h - 1);
  }

  lemma {:induction false} RowCount(n: nat)
    ensures |set y | 0 <= y < n :: Pair(y, 0, 0)| == n
  {
    if n > 0 {
      RowCount(n - 1);
      assert (set y | 0 <= y < n :: Pair(y, 0, 0)) == (set y | 0 <= y < n - 1 :: Pair(y, 0, 0)) + {Pair(n - 1, 0, 0)};
    }
  }
}

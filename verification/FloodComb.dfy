/**
  A picture that the flood fill does not finish: full rows with a comb of single pixels under each,
  joined by one pixel at the last tooth. Every full row leaves 495 seeds on the stack, and at the 34th
  the stack is full.
  */
module FloodComb {
  import opened Flood

  const W: nat := 992
  const H: nat := 101
  const LAST: nat := 990

  /** The pixels of the old colour: a full row, the teeth under it, and the joint to the next full row. */
  predicate Inside(x: int, y: int) {
    y % 3 == 0 || (y % 3 == 1 && x % 2 == 0) || x == LAST
  }

  /** What is painted on the way down. */
  predicate OnWay(x: int, y: int) {
    y % 3 == 0 || x == LAST
  }

  function Colour(m: nat, x: int, y: int, f: nat, g: nat, c: nat): nat {
    if !Inside(x, y) then g else if y < m && OnWay(x, y) then c else f
  }

  /** The picture when the rows above `m` are done. */
  function Pic(m: nat, f: nat, g: nat, c: nat): (img: Img)
    ensures Rect(img, W, H) && forall x, y | 0 <= x < W && 0 <= y < H :: img[y][x] == Colour(m, x, y, f, g, c)
  {
    seq(H, y requires 0 <= y < H => seq(W, x requires 0 <= x < W => Colour(m, x, y, f, g, c)))
  }

  lemma HasIs(m: nat, f: nat, g: nat, c: nat, x: int, y: int)
    requires f != g && f != c
    ensures Has(Pic(m, f, g, c), Pt(x, y), f) <==>
            0 <= x < W && 0 <= y < H && Inside(x, y) && !(y < m && OnWay(x, y))
  {
  }

  // ---------- one round ----------

  /** The run around the last tooth of row `m`. */
  function From(m: nat): int { if m % 3 == 0 then 0 else LAST }

  function To(m: nat): int { if m % 3 == 0 then W - 1 else LAST }

  lemma RowRun(m: nat, f: nat, g: nat, c: nat)
    requires f != g && f != c && m < H
    ensures MaxRun(Pic(m, f, g, c), f, m, From(m), To(m))
  {
    var img := Pic(m, f, g, c);
    forall x | From(m) <= x <= To(m) ensures Has(img, Pt(x, m), f) { HasIs(m, f, g, c, x, m); }
    HasIs(m, f, g, c, From(m) - 1, m);
    HasIs(m, f, g, c, To(m) + 1, m);
  }

  lemma RowPainted(m: nat, f: nat, g: nat, c: nat)
    requires f != g && f != c && m < H
    ensures Has(Pic(m, f, g, c), Pt(LAST, m), f) && RoundImg(Pic(m, f, g, c), Pt(LAST, m), f, c) == Pic(m + 1, f, g, c)
    ensures LeftEnd(Pic(m, f, g, c), f, LAST, m) == From(m) && RightEnd(Pic(m, f, g, c), f, LAST, m) == To(m)
  {
    var img, img' := Pic(m, f, g, c), Pic(m + 1, f, g, c);
    RowRun(m, f, g, c);
    EndsAre(img, f, m, From(m), To(m), LAST);
    forall p
      ensures FilledAt(img, img', m, From(m), To(m), c, p)
    {
      if In(img, p) { PixelPainted(m, f, g, c, p.x, p.y); }
    }
    FilledIs(img, img', W, H, m, From(m), To(m), c);
  }

  lemma PixelPainted(m: nat, f: nat, g: nat, c: nat, x: int, y: int)
    requires 0 <= x < W && 0 <= y
    ensures Colour(m + 1, x, y, f, g, c) == if y == m && From(m) <= x <= To(m) then c else Colour(m, x, y, f, g, c)
  {
  }

  function Teeth(y: int): seq<Pt> { seq(496, k => Pt(2 * k, y)) }

  /** All teeth but the last one. */
  function Others(y: int): seq<Pt> { seq(495, k => Pt(2 * k, y)) }

  lemma NothingAbove(m: nat, f: nat, g: nat, c: nat)
    requires f != g && f != c && m < H
    ensures SeedsFrom(Pic(m + 1, f, g, c), f, m - 1, From(m), From(m), To(m)) == []
  {
    var img, y := Pic(m + 1, f, g, c), m - 1;
    forall x | From(m) <= x <= To(m) ensures !Has(img, Pt(x, y), f) { HasIs(m + 1, f, g, c, x, y); }
    NoSeeds(Pic(m + 1, f, g, c), f, m - 1, From(m), From(m), To(m));
  }

  lemma ToothStarts(m: nat, f: nat, g: nat, c: nat, k: nat)
    requires f != g && f != c && m % 3 == 0 && m + 1 < H && k < 496
    ensures Starts(Pic(m + 1, f, g, c), f, m + 1, 0, 2 * k) && !Starts(Pic(m + 1, f, g, c), f, m + 1, 0, 2 * k + 1)
  {
    HasIs(m + 1, f, g, c, 2 * k, m + 1);
    HasIs(m + 1, f, g, c, 2 * k - 1, m + 1);
    HasIs(m + 1, f, g, c, 2 * k + 1, m + 1);
  }

  lemma {:induction false} ToothSeeds(m: nat, f: nat, g: nat, c: nat, k: nat)
    requires f != g && f != c && m % 3 == 0 && m + 1 < H && k <= 496
    ensures SeedsFrom(Pic(m + 1, f, g, c), f, m + 1, 0, 2 * k, W - 1) == Teeth(m + 1)[k..]
    decreases 496 - k
  {
    var img := Pic(m + 1, f, g, c);
    if k < 496 {
      ToothSeeds(m, f, g, c, k + 1);
      ToothStarts(m, f, g, c, k);
      hide Pic, Starts;
      assert SeedsFrom(img, f, m + 1, 0, 2 * k + 1, W - 1) == SeedsFrom(img, f, m + 1, 0, 2 * k + 2, W - 1);
      assert Teeth(m + 1)[k..] == [Pt(2 * k, m + 1)] + Teeth(m + 1)[k + 1..];
    } else {
      assert Teeth(m + 1)[k..] == [];
    }
  }

  lemma OneSeed(m: nat, f: nat, g: nat, c: nat)
    requires f != g && f != c && m % 3 != 0 && m + 1 < H
    ensures SeedsFrom(Pic(m + 1, f, g, c), f, m + 1, LAST, LAST, LAST) == [Pt(LAST, m + 1)]
  {
    HasIs(m + 1, f, g, c, LAST, m + 1);
    assert SeedsFrom(Pic(m + 1, f, g, c), f, m + 1, LAST, LAST + 1, LAST) == [];
  }

  /** The round at the last tooth of row `m`. */
  lemma Round(m: nat, rest: seq<Pt>, f: nat, g: nat, c: nat)
    requires f != g && f != c && m + 1 < H && |rest| < CAP
    ensures Has(Pic(m, f, g, c), Pt(LAST, m), f) && RoundImg(Pic(m, f, g, c), Pt(LAST, m), f, c) == Pic(m + 1, f, g, c)
    ensures RoundStack(Pic(m, f, g, c), rest, Pt(LAST, m), f, c) ==
            if m % 3 == 0 then Push(rest, Teeth(m + 1)) else rest + [Pt(LAST, m + 1)]
  {
    RowPainted(m, f, g, c);
    NothingAbove(m, f, g, c);
    assert Push(rest, []) == rest;
    if m % 3 == 0 {
      ToothSeeds(m, f, g, c, 0);
      assert Teeth(m + 1)[0..] == Teeth(m + 1);
    } else {
      OneSeed(m, f, g, c);
      assert Push(rest, [Pt(LAST, m + 1)]) == rest + [Pt(LAST, m + 1)];
    }
  }

  // ---------- down the levels ----------

  /** The seeds that wait when `j` full rows are done. */
  function Spare(j: nat): seq<Pt> {
    if j == 0 then [] else Spare(j - 1) + Others(3 * (j - 1) + 1)
  }

  lemma {:induction false} SpareIs(j: nat)
    ensures |Spare(j)| == 495 * j
    ensures forall i | 0 <= i < |Spare(j)| :: 0 <= Spare(j)[i].x < LAST && 0 < Spare(j)[i].y < 3 * j
  {
    if j > 0 { SpareIs(j - 1); }
  }

  lemma InPic(m: nat, f: nat, g: nat, c: nat, st: seq<Pt>)
    requires forall i | 0 <= i < |st| :: 0 <= st[i].x < W && 0 <= st[i].y < H
    ensures AllIn(Pic(m, f, g, c), st)
  {
  }

  /** The stack before row `m`. */
  ghost predicate Before(m: nat, rest: seq<Pt>) {
    m < H && |rest| < CAP && forall i | 0 <= i < |rest| :: 0 <= rest[i].x < W && 0 <= rest[i].y < H
  }

  lemma BeforeIn(m: nat, n: nat, rest: seq<Pt>, f: nat, g: nat, c: nat)
    requires Before(m, rest)
    ensures AllIn(Pic(n, f, g, c), rest + [Pt(LAST, m)]) && AllIn(Pic(n, f, g, c), rest)
  {
    InPic(n, f, g, c, rest + [Pt(LAST, m)]);
    InPic(n, f, g, c, rest);
  }

  /** The picture in the end, with the seed of row `m` on top of `rest`. */
  ghost function EndFrom(m: nat, rest: seq<Pt>, f: nat, g: nat, c: nat): Img
    requires f != c && Before(m, rest)
  {
    BeforeIn(m, m, rest, f, g, c);
    Flooding(Pic(m, f, g, c), rest + [Pt(LAST, m)], W, H, f, c)
  }

  lemma OneRow(m: nat, rest: seq<Pt>, rest': seq<Pt>, f: nat, g: nat, c: nat)
    requires f != g && f != c && m + 1 < H && Before(m, rest) && Before(m + 1, rest')
    requires (if m % 3 == 0 then Push(rest, Teeth(m + 1)) else rest + [Pt(LAST, m + 1)]) == rest' + [Pt(LAST, m + 1)]
    ensures EndFrom(m, rest, f, g, c) == EndFrom(m + 1, rest', f, g, c)
  {
    BeforeIn(m, m, rest, f, g, c);
    BeforeIn(m + 1, m + 1, rest', f, g, c);
    Round(m, rest, f, g, c);
    var st := rest + [Pt(LAST, m)];
    assert st[|st| - 1] == Pt(LAST, m) && st[..|st| - 1] == rest;
    hide Flooding, RoundImg, RoundStack, Pic;
    FloodOn(Pic(m, f, g, c), st, W, H, f, c);
  }

  lemma TeethFit(j: nat)
    requires j <= 32
    ensures Before(3 * j, Spare(j)) && Before(3 * j + 1, Spare(j + 1))
    ensures Push(Spare(j), Teeth(3 * j + 1)) == Spare(j + 1) + [Pt(LAST, 3 * j + 1)]
  {
    SpareIs(j);
    SpareIs(j + 1);
    assert Teeth(3 * j + 1) == Others(3 * j + 1) + [Pt(LAST, 3 * j + 1)];
    assert Spare(j + 1) == Spare(j) + Others(3 * j + 1);
  }

  /** From the last tooth over the joint to the next full row. */
  lemma Joint(m: nat, rest: seq<Pt>, f: nat, g: nat, c: nat)
    requires f != g && f != c && m % 3 == 1 && m + 2 < H && Before(m, rest)
    ensures Before(m + 2, rest) && EndFrom(m, rest, f, g, c) == EndFrom(m + 2, rest, f, g, c)
  {
    hide EndFrom;
    assert Before(m + 1, rest) && Before(m + 2, rest);
    OneRow(m, rest, rest, f, g, c);
    OneRow(m + 1, rest, rest, f, g, c);
  }

  /** One full row with its comb and its joint. */
  lemma Level(j: nat, m: nat, f: nat, g: nat, c: nat)
    requires f != g && f != c && j <= 32 && m == 3 * j
    ensures Before(m, Spare(j)) && Before(m + 3, Spare(j + 1))
    ensures EndFrom(m, Spare(j), f, g, c) == EndFrom(m + 3, Spare(j + 1), f, g, c)
  {
    hide EndFrom, Spare, Teeth, Before, Push;
    TeethFit(j);
    OneRow(m, Spare(j), Spare(j + 1), f, g, c);
    Joint(m + 1, Spare(j + 1), f, g, c);
  }

  lemma {:induction false} Levels(j: nat, f: nat, g: nat, c: nat)
    requires f != g && f != c && j <= 33
    ensures Before(0, []) && Before(3 * j, Spare(j)) && EndFrom(0, [], f, g, c) == EndFrom(3 * j, Spare(j), f, g, c)
    decreases j
  {
    hide EndFrom;
    if j > 0 {
      Levels(j - 1, f, g, c);
      Level(j - 1, 3 * j - 3, f, g, c);
    }
  }

  // ---------- the tooth that is left ----------

  /** Pixel `p` has the old colour, no seed, and no neighbour of that colour. */
  ghost predicate Alone(img: Img, st: seq<Pt>, f: nat, p: Pt) {
    Has(img, p, f) && p !in st && forall q | Adj(p, q) :: !Has(img, q, f)
  }

  lemma NotSeeded(img: Img, f: nat, ny: int, l: int, r: int, p: Pt)
    requires p !in SeedsFrom(img, f, ny, l, l, r)
    ensures forall st: seq<Pt> | p !in st :: p !in Push(st, SeedsFrom(img, f, ny, l, l, r))
  {
  }

  /** Painting another run leaves it alone. */
  lemma RoundAlone(img: Img, st: seq<Pt>, t: Pt, f: nat, c: nat, p: Pt)
    requires Alone(img, st + [t], f, p) && Has(img, Pt(t.x, t.y), f) && f != c
    ensures Alone(RoundImg(img, t, f, c), RoundStack(img, st, t, f, c), f, p)
  {
    var l, r, img' := LeftEnd(img, f, t.x, t.y), RightEnd(img, f, t.x, t.y), RoundImg(img, t, f, c);
    assert t in st + [t] && (forall s | s in st :: s in st + [t]);
    EndsRun(img, f, Pt(t.x, t.y));
    RecolouredFills(img, t.y, l, r, c);
    assert p == Pt(p.x, p.y) && Adj(p, Pt(p.x - 1, p.y)) && Adj(p, Pt(p.x + 1, p.y));
    RunApart(img, f, t.y, l, r, t.x, p);
    forall q | q == p || Adj(p, q)
      ensures Has(img', q, f) <==> Has(img, q, f)
    {
      assert FilledAt(img, img', t.y, l, r, c, q);
    }
    NoSeedFor(img, img', f, t.y, t.y - 1, l, r, p);
    NoSeedFor(img, img', f, t.y, t.y + 1, l, r, p);
    NotSeeded(img', f, t.y - 1, l, r, p);
    NotSeeded(img', f, t.y + 1, l, r, p);
  }

  /** A pixel of a run has a neighbour in it, unless the run is that pixel. */
  lemma RunNext(img: Img, f: nat, y: int, l: int, r: int, x: int, p: Pt)
    requires Run(img, f, y, l, r) && l <= x <= r && p != Pt(x, y) && p.y == y && l <= p.x <= r
    ensures Has(img, Pt(p.x - 1, p.y), f) || Has(img, Pt(p.x + 1, p.y), f)
  {
    assert p.x < x ==> Has(img, Pt(p.x + 1, y), f);
    assert p.x > x ==> Has(img, Pt(p.x - 1, y), f);
  }

  /** So the run around `x` does not reach a pixel whose neighbours have another colour. */
  lemma RunApart(img: Img, f: nat, y: int, l: int, r: int, x: int, p: Pt)
    requires Run(img, f, y, l, r) && l <= x <= r && p != Pt(x, y)
    requires !Has(img, Pt(p.x - 1, p.y), f) && !Has(img, Pt(p.x + 1, p.y), f)
    ensures !(p.y == y && l <= p.x <= r)
  {
    if p.y == y && l <= p.x <= r { RunNext(img, f, y, l, r, x, p); }
  }

  lemma NoSeedFor(img: Img, img': Img, f: nat, y: int, ny: int, l: int, r: int, p: Pt)
    requires Run(img, f, y, l, r) && (ny == y - 1 || ny == y + 1) && forall q | Adj(p, q) :: !Has(img, q, f)
    ensures p !in SeedsFrom(img', f, ny, l, l, r)
  {
    SeedsIn(img', f, ny, l, l, r);
    if p.y == ny && l <= p.x <= r {
      assert Has(img, Pt(p.x, y), f) && Adj(p, Pt(p.x, y));
    }
  }

  /** So it has its colour in the end. */
  lemma {:induction false} AloneStays(img: Img, st: seq<Pt>, w: nat, h: nat, f: nat, c: nat, p: Pt)
    requires Rect(img, w, h) && AllIn(img, st) && f != c && Alone(img, st, f, p)
    ensures Has(Flooding(img, st, w, h, f, c), p, f)
    decreases |Left(img, w, h, f)|, |st|
  {
    if st != [] {
      var t, rest := st[|st| - 1], st[..|st| - 1];
      assert st == rest + [t];
      FloodOn(img, st, w, h, f, c);
      if Has(img, Pt(t.x, t.y), f) {
        RoundShrinks(img, rest, t, w, h, f, c);
        RoundAlone(img, rest, t, f, c, p);
        AloneStays(RoundImg(img, t, f, c), RoundStack(img, rest, t, f, c), w, h, f, c, p);
      } else {
        AloneStays(img, rest, w, h, f, c, p);
      }
    }
  }

  /** At the 34th full row 49 seeds fit, and the last tooth gets none. */
  lemma LastAlone(f: nat, g: nat, c: nat)
    requires f != g && f != c
    ensures Alone(Pic(100, f, g, c), Push(Spare(33), Teeth(100)), f, Pt(LAST, 100))
  {
    SpareIs(33);
    var st, p := Push(Spare(33), Teeth(100)), Pt(LAST, 100);
    assert st == Spare(33) + Teeth(100)[..49];
    forall i | 0 <= i < |st|
      ensures st[i] != p
    {
      if i < |Spare(33)| { assert st[i] == Spare(33)[i]; } else { assert st[i] == Teeth(100)[i - |Spare(33)|]; }
    }
    HasIs(100, f, g, c, LAST, 100);
    forall q | Adj(p, q)
      ensures !Has(Pic(100, f, g, c), q, f)
    {
      HasIs(100, f, g, c, q.x, q.y);
    }
  }

  lemma TailLeft(f: nat, g: nat, c: nat)
    requires f != g && f != c
    ensures Before(0, []) && Has(EndFrom(0, [], f, g, c), Pt(LAST, 100), f)
  {
    Levels(33, f, g, c);
    var rest := Spare(33);
    BeforeIn(99, 99, rest, f, g, c);
    Round(99, rest, f, g, c);
    LastAlone(f, g, c);
    var st := rest + [Pt(LAST, 99)];
    assert st[|st| - 1] == Pt(LAST, 99) && st[..|st| - 1] == rest;
    hide Flooding, RoundImg, RoundStack, Pic, Alone, Spare;
    FloodOn(Pic(99, f, g, c), st, W, H, f, c);
    AloneStays(Pic(100, f, g, c), Push(rest, Teeth(100)), W, H, f, c, Pt(LAST, 100));
  }

  /** It belongs to the component of the start. */
  lemma {:induction false} DownTo(y: nat, f: nat, g: nat, c: nat)
    requires f != g && f != c && y < H
    ensures Conn(Pic(0, f, g, c), f, Pt(LAST, 0), Pt(LAST, y))
    decreases y
  {
    HasIs(0, f, g, c, LAST, y);
    if y == 0 {
      ConnStart(Pic(0, f, g, c), f, Pt(LAST, 0));
    } else {
      DownTo(y - 1, f, g, c);
      ConnNext(Pic(0, f, g, c), f, Pt(LAST, 0), Pt(LAST, y - 1), Pt(LAST, y));
    }
  }

  /** flood on this picture leaves a pixel of the component, for any three colours. */
  method CombLeft(f: nat, g: nat, c: nat) returns (cv: Canvas)
    requires f != g && f != c
    ensures fresh(cv) && cv.Valid() && cv.w == W && cv.h == H
    ensures Conn(Pic(0, f, g, c), f, Pt(LAST, 0), Pt(LAST, 100))
    ensures cv.Snap() == Flooding(Pic(0, f, g, c), [Pt(LAST, 0)], W, H, f, c) && Has(cv.Snap(), Pt(LAST, 100), f)
  {
    cv := new Canvas(W, H);
    Draw(cv, f, g, c);
    hide Flooding, Conn;
    TailLeft(f, g, c);
    DownTo(100, f, g, c);
    HasIs(0, f, g, c, LAST, 0);
    ghost var lost := cv.Fill(Pt(LAST, 0), c, true);
    assert [] + [Pt(LAST, 0)] == [Pt(LAST, 0)];
  }

  method Draw(cv: Canvas, f: nat, g: nat, c: nat)
    requires cv.Valid() && cv.w == W && cv.h == H
    modifies cv.px
    ensures cv.Snap() == Pic(0, f, g, c)
  {
    var y := 0;
    while y < H
      invariant 0 <= y <= H
      invariant forall a, b | 0 <= a < y && 0 <= b < W :: cv.px[a, b] == Colour(0, b, a, f, g, c)
    {
      var x := 0;
      while x < W
        invariant 0 <= x <= W
        invariant forall a, b | 0 <= a < y && 0 <= b < W :: cv.px[a, b] == Colour(0, b, a, f, g, c)
        invariant forall b | 0 <= b < x :: cv.px[y, b] == Colour(0, b, y, f, g, c)
      {
        cv.px[y, x] := Colour(0, x, y, f, g, c);
        x := x + 1;
      }
      y := y + 1;
    }
    SamePic(cv.Snap(), Pic(0, f, g, c));
  }

  lemma SamePic(a: Img, b: Img)
    requires Rect(a, W, H) && Rect(b, W, H) && forall x, y | 0 <= x < W && 0 <= y < H :: a[y][x] == b[y][x]
    ensures a == b
  {
    forall y | 0 <= y < H ensures a[y] == b[y] { assert forall x | 0 <= x < W :: a[y][x] == b[y][x]; }
  }
}

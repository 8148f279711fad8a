/**
  How much of a space free_tables has taken down: a range of addresses, with the pages in it and the
  tables that start in it. The recursion takes down one entry after the other, and a table after all
  its entries.
  */
module TreeFree {
  import opened VmState
  import opened PageTree
  import opened TreeCopy
  import opened ForkOrder

  /** A table of a level below `l` that starts in the range. */
  predicate Within(r: Job, f: nat, lo: nat, hi: nat, l: nat) {
    f in r.tab && f in r.home && r.home[f].lvl < l && lo <= AddrOf(r.home[f], 0) < hi
  }

  /** From `s` to `s'` the pages of the range went, and the tables that start in it. */
  ghost predicate Cut(r: Job, s: State, s': State, lo: nat, hi: nat, l: nat) {
    && (forall k: Key :: k in s'.pt <==> k in s.pt && !(k.pd == r.pd && lo <= k.va < hi))
    && (forall f: nat :: f in s'.tabs <==> f in s.tabs && !Within(r, f, lo, hi, l))
  }

  /** Nothing of the range went so far. */
  ghost predicate Whole(r: Job, s: State, lo: nat, hi: nat, l: nat) {
    && (forall p: nat | lo <= p < hi :: Key(r.pd, p) in s.pt <==> Key(r.pd, p) in r.s0.pt)
    && (forall f: nat | Within(r, f, lo, hi, l) :: f in s.tabs)
  }

  lemma CutNothing(r: Job, s: State, a: nat, l: nat)
    ensures Cut(r, s, s, a, a, l)
  {
  }

  lemma CutMore(r: Job, s: State, t: State, u: State, a: nat, b: nat, c: nat, l: nat)
    requires Cut(r, s, t, a, b, l) && Cut(r, t, u, b, c, l) && a <= b <= c
    ensures Cut(r, s, u, a, c, l)
  {
  }

  /** What comes later is still whole. */
  lemma WholeLater(r: Job, s: State, t: State, a: nat, b: nat, c: nat, l: nat, m: nat)
    requires Whole(r, s, a, c, l) && Cut(r, s, t, a, b, m) && a <= b <= c && m <= l
    ensures Whole(r, t, b, c, l)
  {
  }

  lemma WholePart(r: Job, s: State, a: nat, b: nat, c: nat, l: nat, m: nat)
    requires Whole(r, s, a, c, l) && b <= c && m <= l
    ensures Whole(r, s, a, b, m)
  {
  }

  /** The last thing that goes is the table itself. */
  lemma CutTable(r: Job, s: State, s': State, s'': State, t: nat, hi: nat)
    requires JobOk(r) && t in r.tab && t in r.home && AddrOf(r.home[t], 0) < hi <= AddrOf(r.home[t], 512)
    requires Cut(r, s, s', AddrOf(r.home[t], 0), hi, r.home[t].lvl)
    requires s''.pt == s'.pt && s''.tabs == s'.tabs - {t}
    ensures Cut(r, s, s'', AddrOf(r.home[t], 0), hi, r.home[t].lvl + 1)
  {
    var lo, l := AddrOf(r.home[t], 0), r.home[t].lvl;
    assert TableOk(r.tab, r.home, t);
    forall f: nat
      ensures Within(r, f, lo, hi, l + 1) <==> Within(r, f, lo, hi, l) || f == t
    {
      if Within(r, f, lo, hi, l + 1) && r.home[f].lvl == l { OneStart(r, f, t); }
    }
  }

  /** Tables of one level that overlap are the same. */
  lemma OneStart(r: Job, f: nat, t: nat)
    requires JobOk(r) && t in r.tab && t in r.home && f in r.tab && f in r.home && r.home[f].lvl == r.home[t].lvl
    requires AddrOf(r.home[t], 0) <= AddrOf(r.home[f], 0) < AddrOf(r.home[t], 512)
    ensures f == t
  {
    assert TableOk(r.tab, r.home, t);
    var b, c, w := r.home[f].block, r.home[t].block, Wide(r.home[t].lvl);
    assert c * 512 * w <= b * 512 * w < (c + 1) * 512 * w;
    Less(b * 512, c * 512, w);
    Less(b * 512, (c + 1) * 512, w);
    OnePlace(r.tab, r.home, r.pd, f, t);
  }

  /** Under an entry that is no link and no page there is nothing to take down. */
  lemma NothingToCut(r: Job, s: State, t: nat, i: nat)
    requires JobOk(r) && t in r.tab && t in r.home && i < 512 && EntryIn(r.tab, t, i) == Zero
    requires Whole(r, s, AddrOf(r.home[t], i), AddrOf(r.home[t], i + 1), r.home[t].lvl)
    requires forall p: nat :: Key(r.pd, p) in r.s0.pt ==> p < TOP && View(r.tab, r.pd, p).Leaf?
    ensures Cut(r, s, s, AddrOf(r.home[t], i), AddrOf(r.home[t], i + 1), r.home[t].lvl)
  {
    var lo, hi := AddrOf(r.home[t], i), AddrOf(r.home[t], i + 1);
    assert TableOk(r.tab, r.home, t);
    forall p: nat | lo <= p < hi
      ensures Key(r.pd, p) !in s.pt
    {
      if Key(r.pd, p) in r.s0.pt {
        PageUnder(r, t, i, p);
      }
    }
    forall k: Key | k in s.pt
      ensures !(k.pd == r.pd && lo <= k.va < hi)
    {
      assert k == Key(k.pd, k.va);
    }
    forall f: nat
      ensures !Within(r, f, lo, hi, r.home[t].lvl)
    {
      if Within(r, f, lo, hi, r.home[t].lvl) {
        TableInside(r, t, i, f);
        NothingHangs(r, t, i, f);
      }
    }
  }

  /** A mapped page does not lie under an empty entry. */
  lemma PageUnder(r: Job, t: nat, i: nat, p: nat)
    requires JobOk(r) && t in r.tab && t in r.home && i < 512 && AddrOf(r.home[t], i) <= p < AddrOf(r.home[t], i + 1)
    requires p < TOP && View(r.tab, r.pd, p).Leaf?
    ensures EntryIn(r.tab, t, i) != Zero
  {
    assert TableOk(r.tab, r.home, t);
    AtTable(r.tab, r.home, r.pd, t, i);
    var x, l := r.home[t].block * 512 + i, r.home[t].lvl;
    UpIs(p, x, l);
    if EntryIn(r.tab, t, i) == Zero { EmptyBelow(r.tab, r.pd, p, 0, l); }
  }

  lemma UpIs(p: nat, x: nat, l: nat)
    requires l <= 3 && x * Wide(l) <= p < (x + 1) * Wide(l)
    ensures Up(p, l) == x
  {
    if l > 0 {
      PageInside(l, x, p);
      Ups(p);
      assert Up(p, 3) == Up(p / 512, 2);
      Ups(p / 512);
    }
  }
}

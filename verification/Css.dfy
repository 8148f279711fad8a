/**
  Which rules of a style sheet apply to an element, and in which order: an index by the id, class or
  tag of the last compound of a selector, against trying every rule.
  */
module Css {

  const MAX_RULES: nat := 8000
  const MAX_MATCH: nat := 600
  const BUCKETS: nat := 1024

  /** A compound selector by the hashes of its parts (0 is none); `other` has the elements that meet the rest of it. */
  datatype Comp = Comp(tag: nat, id: nat, cls: seq<nat>, comb: char, other: set<nat>)

  /** The hashes of tag, id (0 is none) and classes; the parent and the element before it (-1 is none). */
  datatype Elem = Elem(th: nat, idh: nat, cls: seq<nat>, parent: int, prev: int)

  /** Elements in document order: parents and earlier siblings have smaller numbers. */
  type Doc = d: seq<Elem> | forall n | 0 <= n < |d| :: -1 <= d[n].parent < n && -1 <= d[n].prev < n

  // ---------- matching ----------

  predicate CompMatch(doc: Doc, c: Comp, n: nat)
    requires n < |doc|
  {
    && (c.tag != 0 ==> c.tag == doc[n].th)
    && (c.id != 0 ==> c.id == doc[n].idh)
    && (forall i | 0 <= i < |c.cls| :: c.cls[i] in doc[n].cls)
    && n in c.other
  }

  /** chain_match: compound `k` on element `n`, and the ones before it as the combinators say. */
  predicate ChainMatch(doc: Doc, cs: seq<Comp>, k: nat, n: nat)
    requires k < |cs| && n < |doc|
    decreases k, n + 1, 0
  {
    && CompMatch(doc, cs[k], n)
    && (k == 0 ||
        if cs[k].comb == '>' then doc[n].parent >= 0 && ChainMatch(doc, cs, k - 1, doc[n].parent)
        else if cs[k].comb == '+' then doc[n].prev >= 0 && ChainMatch(doc, cs, k - 1, doc[n].prev)
        else if cs[k].comb == '~' then AnyBefore(doc, cs, k - 1, doc[n].prev)
        else AnyAbove(doc, cs, k - 1, doc[n].parent))
  }

  predicate AnyBefore(doc: Doc, cs: seq<Comp>, k: nat, p: int)
    requires k < |cs| && p < |doc|
    decreases k, p + 1, 1
  {
    p >= 0 && (ChainMatch(doc, cs, k, p) || AnyBefore(doc, cs, k, doc[p].prev))
  }

  predicate AnyAbove(doc: Doc, cs: seq<Comp>, k: nat, p: int)
    requires k < |cs| && p < |doc|
    decreases k, p + 1, 1
  {
    p >= 0 && (ChainMatch(doc, cs, k, p) || AnyAbove(doc, cs, k, doc[p].parent))
  }

  predicate Applies(doc: Doc, cs: seq<Comp>, n: nat)
    requires n < |doc| && cs != []
  {
    ChainMatch(doc, cs, |cs| - 1, n)
  }

  // ---------- the index ----------

  /** What a rule is filed under: the id, else the first class, else the tag of its last compound. */
  function Key(cs: seq<Comp>): nat
    requires cs != []
  {
    var r := cs[|cs| - 1];
    if r.id != 0 then r.id else if r.cls != [] then r.cls[0] else r.tag
  }

  /** The buckets that are looked at for an element. */
  ghost predicate LooksUnder(doc: Doc, n: nat, key: nat)
    requires n < |doc|
  {
    key == 0 || (doc[n].idh != 0 && doc[n].idh == key) || key in doc[n].cls || key == doc[n].th
  }

  /** A rule that applies is filed where the element looks. */
  lemma KeyHit(doc: Doc, cs: seq<Comp>, n: nat)
    requires n < |doc| && cs != [] && Applies(doc, cs, n)
    ensures LooksUnder(doc, n, Key(cs))
  {
  }

  datatype Rule = Rule(cs: seq<Comp>, spec: nat, next: int, stamp: nat)

  /** A chain goes on with older rules. */
  predicate LinkOk(rules: seq<Rule>, r: nat) {
    r < |rules| ==> -1 <= rules[r].next < r && rules[r].cs != []
  }

  ghost predicate Links(rules: seq<Rule>) { forall r: nat :: LinkOk(rules, r) }

  /** The rules on the chain that starts at `h`. */
  ghost function Chain(rules: seq<Rule>, h: int): set<int>
    requires Links(rules) && -1 <= h < |rules|
    decreases h + 1
  {
    if h < 0 then {} else
    assert LinkOk(rules, h);
    {h} + Chain(rules, rules[h].next)
  }

  function HeadFor(bucket: seq<int>, ubucket: int, key: nat): int
    requires |bucket| == BUCKETS
  {
    if key == 0 then ubucket else bucket[key % BUCKETS]
  }

  ghost predicate FiledAt(rules: seq<Rule>, bucket: seq<int>, ubucket: int, r: nat)
    requires Links(rules) && |bucket| == BUCKETS
  {
    r < |rules| ==>
      && LinkOk(rules, r)
      && -1 <= HeadFor(bucket, ubucket, Key(rules[r].cs)) < |rules|
      && r in Chain(rules, HeadFor(bucket, ubucket, Key(rules[r].cs)))
  }

  /** Every rule is on the chain of its bucket. */
  ghost predicate Indexed(rules: seq<Rule>, bucket: seq<int>, ubucket: int) {
    && Links(rules) && |bucket| == BUCKETS && -1 <= ubucket < |rules|
    && (forall b | 0 <= b < BUCKETS :: -1 <= bucket[b] < |rules|)
    && forall r: nat :: FiledAt(rules, bucket, ubucket, r)
  }

  ghost predicate SameChains(rules: seq<Rule>, rules': seq<Rule>) {
    |rules| <= |rules'| && forall r | 0 <= r < |rules| :: rules'[r].next == rules[r].next && rules'[r].cs == rules[r].cs
  }

  lemma {:induction false} ChainStays(rules: seq<Rule>, rules': seq<Rule>, h: int)
    requires Links(rules) && Links(rules') && SameChains(rules, rules') && -1 <= h < |rules|
    ensures Chain(rules', h) == Chain(rules, h)
    decreases h + 1
  {
    if h >= 0 {
      assert LinkOk(rules, h);
      ChainStays(rules, rules', rules[h].next);
    }
  }

  /** A new rule at the head of its chain. */
  lemma AddIndexed(rules: seq<Rule>, bucket: seq<int>, ubucket: int, cs: seq<Comp>, spec: nat)
    requires Indexed(rules, bucket, ubucket) && cs != []
    ensures var n := |rules|;
            var key := Key(cs);
            var rules' := rules + [Rule(cs, spec, HeadFor(bucket, ubucket, key), 0)];
            Indexed(rules', if key == 0 then bucket else bucket[key % BUCKETS := n], if key == 0 then n else ubucket)
  {
    var n, key := |rules|, Key(cs);
    var rules' := rules + [Rule(cs, spec, HeadFor(bucket, ubucket, key), 0)];
    var bucket', ubucket' := if key == 0 then bucket else bucket[key % BUCKETS := n], if key == 0 then n else ubucket;
    forall r: nat ensures LinkOk(rules', r) { assert LinkOk(rules, r); }
    forall r: nat ensures FiledAt(rules', bucket', ubucket', r) {
      if r < n {
        assert FiledAt(rules, bucket, ubucket, r);
        var h := HeadFor(bucket, ubucket, Key(rules[r].cs));
        ChainStays(rules, rules', h);
        assert h == rules'[n].next || HeadFor(bucket', ubucket', Key(rules[r].cs)) == h;
      }
    }
  }

  // ---------- the cascade ----------

  predicate NoDup(l: seq<int>) { forall i, j | 0 <= i < j < |l| :: l[i] != l[j] }

  /** All rules that apply, by trying every one. */
  ghost function Matching(rules: seq<Rule>, doc: Doc, n: nat): set<int>
    requires n < |doc|
  {
    set r | 0 <= r < |rules| && rules[r].cs != [] && Applies(doc, rules[r].cs, n)
  }

  /** Rules of the user agent first, then by specificity, then by position. */
  predicate Before(rules: seq<Rule>, ua: nat, x: int, y: int)
    requires 0 <= x < |rules| && 0 <= y < |rules|
  {
    if (x >= ua) != (y >= ua) then x < ua
    else if rules[x].spec != rules[y].spec then rules[x].spec < rules[y].spec
    else x < y
  }

  /** The number the sort compares. */
  function Rank(rules: seq<Rule>, ua: nat, x: int): nat
    requires 0 <= x < |rules|
  {
    (if x >= ua then 0x100_0000_0000 else 0) + rules[x].spec * 0x10000 + x
  }

  /** While specificities stay below 2^24 and positions below 2^16 the number orders rules as the cascade does. */
  lemma RankOrders(rules: seq<Rule>, ua: nat, x: int, y: int)
    requires 0 <= x < |rules| && 0 <= y < |rules| && |rules| <= MAX_RULES && rules[x].spec < 0x100_0000
      && rules[y].spec < 0x100_0000
    ensures Rank(rules, ua, x) < Rank(rules, ua, y) <==> Before(rules, ua, x, y)
  {
  }

  ghost predicate Known(rules: seq<Rule>, l: seq<int>) { forall i | 0 <= i < |l| :: 0 <= l[i] < |rules| }

  ghost predicate Sorted(rules: seq<Rule>, ua: nat, l: seq<int>)
    requires Known(rules, l)
  {
    forall i, j | 0 <= i < j < |l| :: Rank(rules, ua, l[i]) <= Rank(rules, ua, l[j])
  }

  function Insert(rules: seq<Rule>, ua: nat, l: seq<int>, x: int): (r: seq<int>)
    requires Known(rules, l) && 0 <= x < |rules|
    ensures |r| == |l| + 1
  {
    if l == [] then [x]
    else
      var n := |l| - 1;
      if Rank(rules, ua, l[n]) > Rank(rules, ua, x) then Insert(rules, ua, l[..n], x) + [l[n]] else l + [x]
  }

  lemma {:induction false} InsertMembers(rules: seq<Rule>, ua: nat, l: seq<int>, x: int)
    requires Known(rules, l) && 0 <= x < |rules|
    ensures multiset(Insert(rules, ua, l, x)) == multiset(l) + multiset{x} && Known(rules, Insert(rules, ua, l, x))
    ensures forall i | 0 <= i < |Insert(rules, ua, l, x)| ::
      Insert(rules, ua, l, x)[i] == x || Insert(rules, ua, l, x)[i] in l
  {
    if l != [] {
      var n := |l| - 1;
      assert l == l[..n] + [l[n]];
      if Rank(rules, ua, l[n]) > Rank(rules, ua, x) { InsertMembers(rules, ua, l[..n], x); }
    }
  }

  lemma {:induction false} InsertSorts(rules: seq<Rule>, ua: nat, l: seq<int>, x: int)
    requires Known(rules, l) && 0 <= x < |rules| && Sorted(rules, ua, l)
    ensures Known(rules, Insert(rules, ua, l, x)) && Sorted(rules, ua, Insert(rules, ua, l, x))
  {
    hide Rank;
    if l == [] { return; }
    var n := |l| - 1;
    if Rank(rules, ua, l[n]) > Rank(rules, ua, x) {
      InsertSorts(rules, ua, l[..n], x);
      InsertMembers(rules, ua, l[..n], x);
      var r := Insert(rules, ua, l[..n], x);
      forall i | 0 <= i < |r| ensures Rank(rules, ua, r[i]) <= Rank(rules, ua, l[n]) {
        assert r[i] == x || r[i] in l[..n];
      }
      hide Insert;
      Append(rules, ua, r, l[n]);
    } else {
      hide Insert;
      Append(rules, ua, l, x);
      InsertHere(rules, ua, l, x);
    }
  }

  lemma Append(rules: seq<Rule>, ua: nat, l: seq<int>, y: int)
    requires Known(rules, l) && 0 <= y < |rules| && Sorted(rules, ua, l) && forall i | 0 <= i < |l| ::
      Rank(rules, ua, l[i]) <= Rank(rules, ua, y)
    ensures Known(rules, l + [y]) && Sorted(rules, ua, l + [y])
  {
    hide Rank;
  }

  lemma ShiftStep(rules: seq<Rule>, ua: nat, cur: seq<int>, j: nat, x: int)
    requires Known(rules, cur) && 0 <= x < |rules| && j + 1 < |cur| && Rank(rules, ua, cur[j]) > Rank(rules, ua, x)
    ensures var next := cur[j + 1 := cur[j]];
            && Known(rules, next)
            && Insert(rules, ua, cur[..j + 1], x) + cur[j + 2..] == Insert(rules, ua, next[..j], x) + next[j + 1..]
  {
    var next := cur[j + 1 := cur[j]];
    assert cur[..j + 1][..j] == next[..j];
    assert Insert(rules, ua, cur[..j + 1], x) == Insert(rules, ua, next[..j], x) + [cur[j]];
    hide Insert;
    assert next[j + 1..] == [cur[j]] + cur[j + 2..];
  }

  lemma InsertHere(rules: seq<Rule>, ua: nat, l: seq<int>, x: int)
    requires Known(rules, l) && 0 <= x < |rules| && (l == [] || Rank(rules, ua, l[|l| - 1]) <= Rank(rules, ua, x))
    ensures Insert(rules, ua, l, x) == l + [x]
  {
  }

  /** More matches than fit: one that did not get in, besides those that did. */
  lemma {:induction false} TooMany(l: seq<int>, r: int, m: set<int>)
    requires NoDup(l) && r !in l && r in m && forall i | 0 <= i < |l| :: l[i] in m
    ensures |m| > |l|
    decreases |l|
  {
    if l != [] {
      var n := |l| - 1;
      TooMany(l[..n], r, m - {l[n]});
    }
  }

  lemma {:induction false} AllListed(l: seq<int>)
    requires NoDup(l)
    ensures |set r | r in l| == |l|
  {
    if l != [] {
      var n := |l| - 1;
      AllListed(l[..n]);
      assert l[n] !in l[..n];
      assert (set r | r in l) == (set r | r in l[..n]) + {l[n]};
    }
  }

  /** A list of matches that is complete unless it is full has as many as there are, up to the limit. */
  lemma ListCount(l: seq<int>, m: set<int>)
    requires NoDup(l) && |l| <= MAX_MATCH && forall i | 0 <= i < |l| :: l[i] in m
    requires |l| < MAX_MATCH ==> forall r: int | r in m :: r in l
    ensures |l| == if |m| <= MAX_MATCH then |m| else MAX_MATCH
    ensures |m| <= MAX_MATCH <==> forall r: int :: r in l <==> r in m
  {
    if forall r: int | r in m :: r in l {
      AllListed(l);
      assert m == set r | r in l;
    } else {
      var r: int :| r in m && r !in l;
      TooMany(l, r, m);
    }
  }

  // ---------- collecting ----------

  ghost predicate Stamped(rules: seq<Rule>, g: nat, x: int) { 0 <= x < |rules| && rules[x].stamp == g }

  /** The list so far: stamped rules that apply, each once, and all of them unless the list is full. */
  ghost predicate ListOk(rules: seq<Rule>, doc: Doc, n: nat, g: nat, l: seq<int>)
    requires n < |doc|
  {
    && NoDup(l) && |l| <= MAX_MATCH && Known(rules, l)
    && (forall i | 0 <= i < |l| :: l[i] in Matching(rules, doc, n) && Stamped(rules, g, l[i]))
    && (|l| < MAX_MATCH ==>
          forall r: int | Stamped(rules, g, r) && r in Matching(rules, doc, n) :: r in l)
  }

  lemma SameMatching(rules: seq<Rule>, rules': seq<Rule>, doc: Doc, n: nat)
    requires n < |doc| && SameChains(rules, rules') && |rules| == |rules'|
    ensures Matching(rules', doc, n) == Matching(rules, doc, n)
  {
  }

  /** One rule looked at for the first time. */
  lemma VisitOk(rules: seq<Rule>, doc: Doc, n: nat, g: nat, l: seq<int>, r: nat)
    requires n < |doc| && r < |rules| && rules[r].cs != [] && rules[r].stamp != g && ListOk(rules, doc, n, g, l)
    ensures var rules' := rules[r := rules[r].(stamp := g)];
            var l' := if |l| < MAX_MATCH && Applies(doc, rules[r].cs, n) then l + [r] else l;
            ListOk(rules', doc, n, g, l')
  {
    var rules' := rules[r := rules[r].(stamp := g)];
    SameMatching(rules, rules', doc, n);
    forall i | 0 <= i < |l| ensures l[i] != r { assert Stamped(rules, g, l[i]); }
    forall x: int | Stamped(rules', g, x) && x != r ensures Stamped(rules, g, x) {}
  }

  class Sheet {
    const doc: Doc
    var rules: seq<Rule>
    var bucket: seq<int>
    var ubucket: int
    var ua: nat
    var stamp: nat
    const mt: array<int>
    var nMt: nat

    ghost predicate Valid()
      reads this
    {
      && Indexed(rules, bucket, ubucket) && |rules| <= MAX_RULES && mt.Length == MAX_MATCH && nMt <= MAX_MATCH
      && forall r | 0 <= r < |rules| :: rules[r].stamp <= stamp
    }

    constructor (d: Doc)
      ensures Valid() && doc == d && rules == [] && fresh(mt)
    {
      doc := d;
      rules, bucket, ubucket, ua, stamp, nMt := [], seq(BUCKETS, _ => -1), -1, 0, 0, 0;
      mt := new int[MAX_MATCH](_ => 0);
    }

    /** The end of sel_add: the rule is filed under its key; a full table takes no more. */
    method Add(cs: seq<Comp>, spec: nat) returns (ok: bool)
      requires Valid()
      modifies this
      ensures Valid() && ok == (cs != [] && |old(rules)| < MAX_RULES) && mt[..] == old(mt[..])
      ensures |rules| == |old(rules)| + (if ok then 1 else 0) && SameChains(old(rules), rules)
      ensures ok ==> rules[|old(rules)|].cs == cs && rules[|old(rules)|].spec == spec
    {
      if cs == [] || |rules| >= MAX_RULES { return false; }
      AddIndexed(rules, bucket, ubucket, cs, spec);
      hide Indexed;
      var key := Key(cs);
      var n := |rules|;
      rules := rules + [Rule(cs, spec, HeadFor(bucket, ubucket, key), 0)];
      if key != 0 { bucket := bucket[key % BUCKETS := n]; } else { ubucket := n; }
      ok := true;
    }

    /** mt_add_chain: every rule of the chain is looked at once, whatever chains it is on. */
    method AddChain(h: int, n: nat, ghost rules0: seq<Rule>)
      requires Links(rules) && -1 <= h < |rules| && n < |doc| && mt.Length == MAX_MATCH && nMt <= MAX_MATCH
      requires ListOk(rules, doc, n, stamp, mt[..nMt]) && |rules| == |rules0| && SameChains(rules0, rules)
      modifies this`rules, this`nMt, mt
      ensures Links(rules) && nMt <= MAX_MATCH && |rules| == |rules0| && SameChains(rules0, rules)
      ensures ListOk(rules, doc, n, stamp, mt[..nMt])
      ensures forall x | Stamped(old(rules), stamp, x) :: Stamped(rules, stamp, x)
      ensures forall x | x in Chain(rules, h) :: Stamped(rules, stamp, x)
      ensures forall r | 0 <= r < |rules| :: rules[r].stamp == stamp || rules[r].stamp == old(rules)[r].stamp
    {
      hide ListOk, Applies, Chain, Links;
      var r := h;
      while r >= 0
        invariant Links(rules) && -1 <= r < |rules| && nMt <= MAX_MATCH && |rules| == |rules0|
          && SameChains(rules0, rules) && SameChains(old(rules), rules)
        invariant ListOk(rules, doc, n, stamp, mt[..nMt])
        invariant forall x | Stamped(old(rules), stamp, x) :: Stamped(rules, stamp, x)
        invariant forall x | x in Chain(rules, h) :: Stamped(rules, stamp, x) || x in Chain(rules, r)
        invariant forall q | 0 <= q < |rules| :: rules[q].stamp == stamp || rules[q].stamp == old(rules)[q].stamp
        decreases r
      {
        ChainStep(rules, r);
        if rules[r].stamp != stamp {
          VisitOk(rules, doc, n, stamp, mt[..nMt], r);
          Look(r, n);
        }
        r := rules[r].next;
      }
      ChainEnd(rules);
    }

    method Look(r: nat, n: nat)
      requires Links(rules) && r < |rules| && n < |doc| && mt.Length == MAX_MATCH && nMt <= MAX_MATCH
        && rules[r].cs != []
      modifies this`rules, this`nMt, mt
      ensures Links(rules) && nMt <= MAX_MATCH && rules == old(rules)[r := old(rules)[r].(stamp := stamp)]
        && SameChains(old(rules), rules)
      ensures mt[..nMt] == if old(nMt) < MAX_MATCH && Applies(doc, rules[r].cs, n) then old(mt[..nMt]) + [r as int]
        else old(mt[..nMt])
      ensures forall h | -1 <= h < |rules| :: Chain(rules, h) == Chain(old(rules), h)
    {
      ghost var was := rules;
      rules := rules[r := rules[r].(stamp := stamp)];
      forall q: nat ensures LinkOk(rules, q) { assert LinkOk(was, q); }
      forall h | -1 <= h < |rules| ensures Chain(rules, h) == Chain(was, h) { ChainStays(was, rules, h); }
      if nMt < MAX_MATCH && Applies(doc, rules[r].cs, n) {
        mt[nMt] := r;
        nMt := nMt + 1;
      }
    }

    /** Part way through collect: `rules0` are the rules when it started. */
    ghost predicate Collecting(rules0: seq<Rule>, n: nat)
      reads this, mt
    {
      && Indexed(rules0, bucket, ubucket) && Links(rules) && |rules| == |rules0| <= MAX_RULES
      && SameChains(rules0, rules) && n < |doc|
      && mt.Length == MAX_MATCH && nMt <= MAX_MATCH && ListOk(rules, doc, n, stamp, mt[..nMt])
      && forall r | 0 <= r < |rules| :: rules[r].stamp <= stamp
    }

    /** Every rule on the chain has been looked at. */
    ghost predicate Done(rules0: seq<Rule>, h: int)
      requires Links(rules0)
      reads this
    {
      -1 <= h < |rules0| && forall x | x in Chain(rules0, h) :: Stamped(rules, stamp, x)
    }

    method AddHead(h: int, n: nat, ghost rules0: seq<Rule>)
      requires Collecting(rules0, n) && -1 <= h < |rules0|
      modifies this`rules, this`nMt, mt
      ensures Collecting(rules0, n) && Done(rules0, h)
      ensures forall g | -1 <= g < |rules0| && old(Done(rules0, g)) :: Done(rules0, g)
    {
      AddChain(h, n, rules0);
      ChainStays(rules0, rules, h);
    }

    /** The chains an element looks at: its id, its classes, its tag, and the rules without a key. */
    method Gather(n: nat, ghost rules0: seq<Rule>)
      requires Collecting(rules0, n)
      modifies this`rules, this`nMt, mt
      ensures Collecting(rules0, n)
      ensures forall key: nat | LooksUnder(doc, n, key) :: Done(rules0, HeadFor(bucket, ubucket, key))
    {
      hide Chain, Links, SameChains, ListOk;
      assert forall b | 0 <= b < BUCKETS :: -1 <= bucket[b] < |rules0|;
      if doc[n].idh != 0 { AddHead(bucket[doc[n].idh % BUCKETS], n, rules0); }
      var k := 0;
      while k < |doc[n].cls|
        invariant 0 <= k <= |doc[n].cls| && Collecting(rules0, n)
        invariant doc[n].idh != 0 ==> Done(rules0, bucket[doc[n].idh % BUCKETS])
        invariant forall j | 0 <= j < k :: Done(rules0, bucket[doc[n].cls[j] % BUCKETS])
      {
        AddHead(bucket[doc[n].cls[k] % BUCKETS], n, rules0);
        k := k + 1;
      }
      AddHead(bucket[doc[n].th % BUCKETS], n, rules0);
      AddHead(ubucket, n, rules0);
    }

    /**
      collect: the rules that apply to element `n`, each once, in the order of the cascade, the same
      as if every rule had been tried, exactly when the list has room for them; else the list is full.
      */
    method Collect(n: nat)
      requires Valid() && n < |doc|
      modifies this`rules, this`nMt, this`stamp, mt
      ensures Valid() && |rules| == |old(rules)| && SameChains(old(rules), rules)
      ensures NoDup(mt[..nMt]) && forall i | 0 <= i < nMt :: mt[i] in Matching(rules, doc, n)
      ensures |Matching(rules, doc, n)| <= MAX_MATCH <==> forall r: int ::
        r in mt[..nMt] <==> r in Matching(rules, doc, n)
      ensures nMt == if |Matching(rules, doc, n)| <= MAX_MATCH then |Matching(rules, doc, n)| else MAX_MATCH
      ensures (forall r | 0 <= r < |rules| :: rules[r].spec < 0x100_0000) ==>
                forall i, j | 0 <= i < j < nMt ::
                  0 <= mt[i] < |rules| && 0 <= mt[j] < |rules| && Before(rules, ua, mt[i], mt[j])
    {
      hide Indexed, Matching, ListOk, Sorted, SameChains, Before, Stamped, NoDup;
      Find(n);
      ghost var l := mt[..nMt];
      ListKnown(rules, doc, n, stamp, l);
      SortMatches();
      Collected(rules, doc, n, stamp, ua, l, mt[..nMt]);
    }

    /** The matches before they are sorted: every rule that applies has been looked at. */
    method Find(n: nat)
      requires Valid() && n < |doc|
      modifies this`rules, this`nMt, this`stamp, mt
      ensures Valid() && |rules| == |old(rules)| && SameChains(old(rules), rules)
        && ListOk(rules, doc, n, stamp, mt[..nMt])
      ensures forall r | r in Matching(rules, doc, n) :: Stamped(rules, stamp, r)
    {
      nMt := 0;
      stamp := stamp + 1;
      ghost var rules0 := rules;
      StartOk(rules, doc, n, stamp, mt[..nMt]);
      Gather(n, rules0);
      forall r | r in Matching(rules, doc, n) ensures Stamped(rules, stamp, r) { Found(r, n, rules0); }
      IndexedStays(rules0, rules, bucket, ubucket);
    }

    lemma Found(r: int, n: nat, rules0: seq<Rule>)
      requires Collecting(rules0, n) && r in Matching(rules, doc, n)
      requires forall key: nat | LooksUnder(doc, n, key) :: Done(rules0, HeadFor(bucket, ubucket, key))
      ensures Stamped(rules, stamp, r)
    {
      KeyHit(doc, rules[r].cs, n);
      assert FiledAt(rules0, bucket, ubucket, r);
      assert Done(rules0, HeadFor(bucket, ubucket, Key(rules[r].cs)));
    }

    /** The insertion sort of collect. */
    method SortMatches()
      requires nMt <= mt.Length && Known(rules, mt[..nMt])
      modifies mt
      ensures Known(rules, mt[..nMt]) && Sorted(rules, ua, mt[..nMt]) && multiset(mt[..nMt]) == multiset(old(mt[..nMt]))
    {
      hide Known, Sorted;
      ghost var was := mt[..nMt];
      var i := if nMt == 0 then 0 else 1;
      SortedShort(rules, ua, was);
      while i < nMt
        invariant i <= nMt && (nMt > 0 ==> i >= 1) && Known(rules, mt[..nMt]) && Known(rules, mt[..nMt][..i])
        invariant Sorted(rules, ua, mt[..nMt][..i]) && multiset(mt[..nMt]) == multiset(was)
      {
        ghost var a := mt[..nMt];
        assert a[..i] == mt[..i] && a[i + 1..] == mt[i + 1..nMt];
        Sink(i);
        SinkStep(rules, ua, a, mt[..nMt], i);
        i := i + 1;
      }
      assert mt[..nMt][..i] == mt[..nMt];
    }

    method Sink(i: nat)
      requires 1 <= i < nMt <= mt.Length && Known(rules, mt[..nMt])
      modifies mt
      ensures Known(rules, old(mt[..i]))
        && mt[..nMt] == Insert(rules, ua, old(mt[..i]), old(mt[i])) + old(mt[i + 1..nMt])
    {
      hide Rank, Insert;
      ghost var was, cur := mt[..nMt], mt[..nMt];
      var x := mt[i];
      var j := i - 1;
      assert was[..i] == mt[..i] && was[i + 1..] == mt[i + 1..nMt];
      while j >= 0 && Rank(rules, ua, mt[j]) > Rank(rules, ua, x)
        invariant -1 <= j < i && mt[..nMt] == cur && |cur| == |was| && Known(rules, cur)
        invariant Insert(rules, ua, was[..i], x) + was[i + 1..] == Insert(rules, ua, cur[..j + 1], x) + cur[j + 2..]
      {
        assert mt[j] == cur[j];
        ShiftStep(rules, ua, cur, j, x);
        mt[j + 1] := mt[j];
        cur := cur[j + 1 := cur[j]];
        j := j - 1;
      }
      assert j >= 0 ==> mt[j] == cur[j];
      InsertHere(rules, ua, cur[..j + 1], x);
      mt[j + 1] := x;
      assert mt[..nMt] == cur[..j + 1] + [x] + cur[j + 2..];
    }
  }

  lemma ChainStep(rules: seq<Rule>, r: nat)
    requires Links(rules) && r < |rules|
    ensures LinkOk(rules, r) && Chain(rules, r) == {r as int} + Chain(rules, rules[r].next)
  {
    assert LinkOk(rules, r);
  }

  lemma SortedShort(rules: seq<Rule>, ua: nat, l: seq<int>)
    requires Known(rules, l)
    ensures Known(rules, l[..0]) && Sorted(rules, ua, l[..0])
      && (|l| > 0 ==> Known(rules, l[..1]) && Sorted(rules, ua, l[..1]))
  {
  }

  lemma SinkStep(rules: seq<Rule>, ua: nat, a: seq<int>, b: seq<int>, i: nat)
    requires i < |a| && Known(rules, a) && Known(rules, a[..i]) && Sorted(rules, ua, a[..i])
    requires b == Insert(rules, ua, a[..i], a[i]) + a[i + 1..]
    ensures |b| == |a| && Known(rules, b) && Known(rules, b[..i + 1]) && Sorted(rules, ua, b[..i + 1])
      && multiset(b) == multiset(a)
  {
    hide Rank, Insert;
    InsertSorts(rules, ua, a[..i], a[i]);
    InsertMembers(rules, ua, a[..i], a[i]);
    hide Sorted;
    assert a == a[..i] + [a[i]] + a[i + 1..];
    assert b[..i + 1] == Insert(rules, ua, a[..i], a[i]);
  }

  lemma IndexedStays(rules: seq<Rule>, rules': seq<Rule>, bucket: seq<int>, ubucket: int)
    requires Indexed(rules, bucket, ubucket) && Links(rules') && |rules'| == |rules| && SameChains(rules, rules')
    ensures Indexed(rules', bucket, ubucket)
  {
    forall r: nat ensures FiledAt(rules', bucket, ubucket, r) {
      assert FiledAt(rules, bucket, ubucket, r) && LinkOk(rules', r);
      if r < |rules| { ChainStays(rules, rules', HeadFor(bucket, ubucket, Key(rules[r].cs))); }
    }
  }

  lemma ListKnown(rules: seq<Rule>, doc: Doc, n: nat, g: nat, l: seq<int>)
    requires n < |doc| && ListOk(rules, doc, n, g, l)
    ensures Known(rules, l)
  {
  }

  lemma ChainEnd(rules: seq<Rule>)
    requires Links(rules)
    ensures Chain(rules, -1) == {}
  {
  }

  lemma StartOk(rules: seq<Rule>, doc: Doc, n: nat, g: nat, l: seq<int>)
    requires n < |doc| && l == [] && forall r | 0 <= r < |rules| :: rules[r].stamp < g
    ensures ListOk(rules, doc, n, g, l)
  {
  }

  /** The sorted list has the same rules, and no two of them have the same rank. */
  lemma Collected(rules: seq<Rule>, doc: Doc, n: nat, g: nat, ua: nat, l: seq<int>, m: seq<int>)
    requires n < |doc| && ListOk(rules, doc, n, g, l) && multiset(m) == multiset(l) && |rules| <= MAX_RULES
    requires forall r | r in Matching(rules, doc, n) :: Stamped(rules, g, r)
    requires Known(rules, m) && Sorted(rules, ua, m)
    ensures NoDup(m) && forall i | 0 <= i < |m| :: m[i] in Matching(rules, doc, n)
    ensures |Matching(rules, doc, n)| <= MAX_MATCH <==> forall r: int :: r in m <==> r in Matching(rules, doc, n)
    ensures |m| == if |Matching(rules, doc, n)| <= MAX_MATCH then |Matching(rules, doc, n)| else MAX_MATCH
    ensures (forall r | 0 <= r < |rules| :: rules[r].spec < 0x100_0000) ==>
              forall i, j | 0 <= i < j < |m| :: Before(rules, ua, m[i], m[j])
  {
    hide Applies, Matching;
    SameMembers(l, m);
    assert |m| == |multiset(m)| == |multiset(l)| == |l|;
    ListCount(l, Matching(rules, doc, n));
    forall i | 0 <= i < |m| ensures m[i] in Matching(rules, doc, n) { assert m[i] in l; }
    if forall r | 0 <= r < |rules| :: rules[r].spec < 0x100_0000 {
      forall i, j | 0 <= i < j < |m| ensures Before(rules, ua, m[i], m[j]) {
        RankOrders(rules, ua, m[j], m[i]);
        assert Rank(rules, ua, m[i]) <= Rank(rules, ua, m[j]) && m[i] != m[j];
      }
    }
  }

  lemma SameMembers(l: seq<int>, m: seq<int>)
    requires NoDup(l) && multiset(m) == multiset(l)
    ensures NoDup(m) && forall x :: x in m <==> x in l
  {
    forall x ensures x in m <==> x in l { assert x in multiset(m) <==> x in multiset(l); }
    OnceEach(l);
    forall i, j | 0 <= i < j < |m| ensures m[i] != m[j] {
      if m[i] == m[j] {
        Twice(m, i, j);
      }
    }
  }

  lemma {:induction false} OnceEach(l: seq<int>)
    requires NoDup(l)
    ensures forall x :: multiset(l)[x] <= 1
  {
    if l != [] {
      var n := |l| - 1;
      OnceEach(l[..n]);
      assert l == l[..n] + [l[n]];
      assert l[n] !in l[..n];
    }
  }

  lemma Twice(m: seq<int>, i: nat, j: nat)
    requires i < j < |m| && m[i] == m[j]
    ensures multiset(m)[m[i]] >= 2
  {
    assert m == m[..j] + [m[j]] + m[j + 1..];
    assert m[i] in multiset(m[..j]) by { assert m[..j][i] == m[i]; }
  }
}

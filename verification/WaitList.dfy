/**
  The entries of all wait queues: a fixed pool, one doubly linked list per queue and one chain per
  waiter, all under one lock.
  */
module WaitList {

  const NIL: int := -1

  datatype Ent = Ent(next: int, prev: int, wnext: int, q: int, w: int, used: bool)

  // ---------- lists as values ----------

  function At(l: seq<nat>, i: int): int { if 0 <= i < |l| then l[i] else NIL }

  predicate NoDup(l: seq<nat>) { forall i, j | 0 <= i < j < |l| :: l[i] != l[j] }

  function Without(l: seq<nat>, i: nat): seq<nat>
    requires i < |l|
  {
    l[..i] + l[i + 1..]
  }

  /** Entry `e` is gone from the list of queue `k`, and no list changed otherwise. */
  predicate LeftList(lists: seq<seq<nat>>, lists': seq<seq<nat>>, k: int, e: nat) {
    if k == NIL then lists' == lists
    else
      && 0 <= k < |lists| == |lists'|
      && exists i | 0 <= i < |lists[k]| :: lists[k][i] == e && lists' == lists[k := Without(lists[k], i)]
  }

  /** What is left of a list, in its order. */
  function Sift(l: seq<nat>, gone: set<nat>): seq<nat> {
    if l == [] then [] else (if l[0] in gone then [] else [l[0]]) + Sift(l[1..], gone)
  }

  function SiftAll(lists: seq<seq<nat>>, gone: set<nat>): (r: seq<seq<nat>>)
    ensures |r| == |lists| && forall k | 0 <= k < |lists| :: r[k] == Sift(lists[k], gone)
  {
    seq(|lists|, k requires 0 <= k < |lists| => Sift(lists[k], gone))
  }

  lemma {:induction false} SiftTwice(l: seq<nat>, a: set<nat>, b: set<nat>)
    ensures Sift(Sift(l, a), b) == Sift(l, a + b)
  {
    if l != [] {
      SiftTwice(l[1..], a, b);
      if l[0] in a { assert Sift(l, a) == Sift(l[1..], a); } else { assert Sift(l, a)[1..] == Sift(l[1..], a); }
    }
  }

  lemma {:induction false} SiftNone(l: seq<nat>, gone: set<nat>)
    requires forall i | 0 <= i < |l| :: l[i] !in gone
    ensures Sift(l, gone) == l
  {
    if l != [] { SiftNone(l[1..], gone); }
  }

  lemma {:induction false} SiftOne(l: seq<nat>, i: nat)
    requires NoDup(l) && i < |l|
    ensures Sift(l, {l[i]}) == Without(l, i)
  {
    var t := l[1..];
    if i == 0 {
      SiftNone(t, {l[0]});
      assert Without(l, 0) == t;
    } else {
      SiftOne(t, i - 1);
      assert l[0] != l[i] == t[i - 1];
      assert Sift(l, {l[i]}) == [l[0]] + Without(t, i - 1);
      assert Without(l, i) == [l[0]] + Without(t, i - 1);
    }
  }

  lemma SiftAllTwice(lists: seq<seq<nat>>, a: set<nat>, b: set<nat>)
    ensures SiftAll(SiftAll(lists, a), b) == SiftAll(lists, a + b)
  {
    forall k | 0 <= k < |lists|
      ensures SiftAll(SiftAll(lists, a), b)[k] == SiftAll(lists, a + b)[k]
    {
      SiftTwice(lists[k], a, b);
    }
  }

  lemma SiftAllNone(lists: seq<seq<nat>>)
    ensures SiftAll(lists, {}) == lists
  {
    forall k | 0 <= k < |lists|
      ensures SiftAll(lists, {})[k] == lists[k]
    {
      SiftNone(lists[k], {});
    }
  }

  /** Unlinking an entry sifts it out of all lists. */
  lemma UnlinkSifts(en: seq<Ent>, head: seq<int>, lists: seq<seq<nat>>, lists': seq<seq<nat>>, e: nat)
    requires ListsOk(en, head, lists) && e < |en| && LeftList(lists, lists', en[e].q, e)
    ensures lists' == SiftAll(lists, {e})
  {
    forall m | 0 <= m < |lists|
      ensures lists'[m] == Sift(lists[m], {e})
    {
      assert HeadAt(head, lists, m);
      if m == en[e].q {
        var i :| 0 <= i < |lists[m]| && lists[m][i] == e && lists' == lists[m := Without(lists[m], i)];
        SiftOne(lists[m], i);
      } else {
        forall i | 0 <= i < |lists[m]|
          ensures lists[m][i] != e
        {
          assert LinkAt(en, lists, m, i);
        }
        SiftNone(lists[m], {e});
      }
    }
  }

  /** The entry at place `i` of queue `k` is linked to its neighbours. */
  predicate LinkAt(en: seq<Ent>, lists: seq<seq<nat>>, k: nat, i: nat) {
    k < |lists| && i < |lists[k]| ==>
      && lists[k][i] < |en|
      && var e := en[lists[k][i]];
         e.used && e.q == k && e.next == At(lists[k], i + 1) && e.prev == At(lists[k], i - 1)
  }

  /** An entry that says it is queued is in the list of that queue; one that is not in use is not queued. */
  predicate EntryAt(en: seq<Ent>, lists: seq<seq<nat>>, e: nat) {
    e < |en| ==>
      && (en[e].q == NIL || (0 <= en[e].q < |lists| && e in lists[en[e].q]))
      && (!en[e].used ==> en[e].q == NIL)
  }

  predicate HeadAt(head: seq<int>, lists: seq<seq<nat>>, k: nat) {
    k < |lists| && k < |head| ==> head[k] == At(lists[k], 0) && NoDup(lists[k])
  }

  /** Every queued entry sits in exactly one well-formed list. */
  ghost predicate ListsOk(en: seq<Ent>, head: seq<int>, lists: seq<seq<nat>>) {
    && |head| == |lists|
    && (forall k: nat, i: nat :: LinkAt(en, lists, k, i))
    && (forall e: nat :: EntryAt(en, lists, e))
    && (forall k: nat :: k < |lists| ==> HeadAt(head, lists, k))
  }

  /** No entry is on two queues, or twice on one. */
  lemma OneList(en: seq<Ent>, head: seq<int>, lists: seq<seq<nat>>, k: nat, i: nat, m: nat, j: nat)
    requires ListsOk(en, head, lists) && k < |lists| && i < |lists[k]| && m < |lists| && j < |lists[m]|
      && lists[k][i] == lists[m][j]
    ensures k == m && i == j
  {
    assert LinkAt(en, lists, k, i) && LinkAt(en, lists, m, j) && HeadAt(head, lists, k);
  }

  // ---------- unlink ----------

  function SetNext(en: seq<Ent>, e: int, v: int): seq<Ent> {
    if 0 <= e < |en| then en[e := en[e].(next := v)] else en
  }

  function SetPrev(en: seq<Ent>, e: int, v: int): seq<Ent> {
    if 0 <= e < |en| then en[e := en[e].(prev := v)] else en
  }

  function Unlinked(en: seq<Ent>, e: nat): seq<Ent>
    requires e < |en|
  {
    var a := SetPrev(SetNext(en, en[e].prev, en[e].next), en[e].next, en[e].prev);
    a[e := a[e].(q := NIL)]
  }

  lemma UnlinkLink(en: seq<Ent>, head: seq<int>, lists: seq<seq<nat>>, k: nat, i: nat, m: nat, j: nat)
    requires ListsOk(en, head, lists) && k < |lists| && i < |lists[k]| && lists[k][i] < |en|
    ensures LinkAt(Unlinked(en, lists[k][i]), lists[k := Without(lists[k], i)], m, j)
  {
    var l := lists[k];
    assert LinkAt(en, lists, k, i) && LinkAt(en, lists, k, i + 1);
    if i > 0 { assert LinkAt(en, lists, k, i - 1); }
    var lists' := lists[k := Without(l, i)];
    if m < |lists'| && j < |lists'[m]| {
      var j0 := if m == k && j >= i then j + 1 else j;
      assert lists'[m][j] == lists[m][j0];
      assert LinkAt(en, lists, m, j0);
      OneList(en, head, lists, m, j0, m, j0);
      UnlinkField(en, head, lists, k, i, m, j0);
    }
  }

  /** The links of an entry that stays, after the unlink of another one. */
  lemma UnlinkField(en: seq<Ent>, head: seq<int>, lists: seq<seq<nat>>, k: nat, i: nat, m: nat, j: nat)
    requires ListsOk(en, head, lists) && k < |lists| && i < |lists[k]| && lists[k][i] < |en|
    requires m < |lists| && j < |lists[m]| && !(m == k && j == i) && lists[m][j] < |en|
    ensures var u, e := Unlinked(en, lists[k][i])[lists[m][j]], en[lists[m][j]];
            && u.q == e.q && u.used == e.used && u.w == e.w && u.wnext == e.wnext
            && u.next == (if m == k && j + 1 == i then At(lists[k], i + 1) else e.next)
            && u.prev == (if m == k && j == i + 1 then At(lists[k], i - 1) else e.prev)
  {
    assert LinkAt(en, lists, k, i) && LinkAt(en, lists, m, j);
    if lists[m][j] == lists[k][i] { OneList(en, head, lists, m, j, k, i); }
    if i > 0 {
      assert LinkAt(en, lists, k, i - 1);
      if lists[m][j] == lists[k][i - 1] { OneList(en, head, lists, m, j, k, i - 1); }
    }
    if i + 1 < |lists[k]| {
      assert LinkAt(en, lists, k, i + 1);
      if lists[m][j] == lists[k][i + 1] { OneList(en, head, lists, m, j, k, i + 1); }
    }
  }

  function HeadAfter(en: seq<Ent>, head: seq<int>, k: nat, e: nat): seq<int>
    requires k < |head| && e < |en|
  {
    if en[e].prev == NIL then head[k := en[e].next] else head
  }

  lemma UnlinkOk(en: seq<Ent>, head: seq<int>, lists: seq<seq<nat>>, k: nat, i: nat)
    requires ListsOk(en, head, lists) && k < |lists| && i < |lists[k]|
    ensures lists[k][i] < |en|
    ensures ListsOk(Unlinked(en, lists[k][i]), HeadAfter(en, head, k, lists[k][i]), lists[k := Without(lists[k], i)])
  {
    assert LinkAt(en, lists, k, i) && HeadAt(head, lists, k);
    var e := lists[k][i];
    var en', lists' := Unlinked(en, e), lists[k := Without(lists[k], i)];
    var head' := HeadAfter(en, head, k, e);
    forall m: nat, j: nat ensures LinkAt(en', lists', m, j) { UnlinkLink(en, head, lists, k, i, m, j); }
    forall d: nat ensures EntryAt(en', lists', d) { UnlinkEntry(en, head, lists, k, i, d); }
    forall m: nat ensures m < |lists'| ==> HeadAt(head', lists', m) { assert m < |lists| ==> HeadAt(head, lists, m); }
  }

  lemma UnlinkEntry(en: seq<Ent>, head: seq<int>, lists: seq<seq<nat>>, k: nat, i: nat, d: nat)
    requires ListsOk(en, head, lists) && k < |lists| && i < |lists[k]| && lists[k][i] < |en|
    ensures EntryAt(Unlinked(en, lists[k][i]), lists[k := Without(lists[k], i)], d)
  {
    assert EntryAt(en, lists, d) && LinkAt(en, lists, k, i);
    if d < |en| && en[d].q == k && d != lists[k][i] {
      var j :| 0 <= j < |lists[k]| && lists[k][j] == d;
      assert j < i ==> Without(lists[k], i)[j] == d;
      assert j > i ==> Without(lists[k], i)[j - 1] == d;
    }
  }

  // ---------- a new entry at the head ----------

  function Pushed(en: seq<Ent>, h: int, k: int, e: nat, w: int, wnext: int): seq<Ent>
    requires e < |en|
  {
    SetPrev(en, h, e)[e := Ent(h, NIL, wnext, k, w, true)]
  }

  lemma PushOk(en: seq<Ent>, head: seq<int>, lists: seq<seq<nat>>, k: nat, e: nat, w: int, wnext: int)
    requires ListsOk(en, head, lists) && k < |lists| && e < |en| && !en[e].used
    ensures ListsOk(Pushed(en, head[k], k, e, w, wnext), head[k := e], lists[k := [e] + lists[k]])
  {
    assert HeadAt(head, lists, k);
    var en', lists', head' := Pushed(en, head[k], k, e, w, wnext), lists[k := [e] + lists[k]], head[k := e];
    forall m: nat, j: nat ensures LinkAt(en', lists', m, j) { PushLink(en, head, lists, k, e, w, wnext, m, j); }
    forall d: nat ensures EntryAt(en', lists', d) {
      assert EntryAt(en, lists, d);
      assert [e][0] == e && lists'[k] == [e] + lists[k];
    }
    forall m: nat ensures m < |lists'| ==> HeadAt(head', lists', m) {
      if m < |lists| { assert HeadAt(head, lists, m); }
      if m == k { NotListed(en, head, lists, k, e); }
    }
  }

  lemma NotListed(en: seq<Ent>, head: seq<int>, lists: seq<seq<nat>>, k: nat, e: nat)
    requires ListsOk(en, head, lists) && k < |lists| && e < |en| && !en[e].used
    ensures e !in lists[k]
  {
    forall j | 0 <= j < |lists[k]| ensures lists[k][j] != e { assert LinkAt(en, lists, k, j); }
  }

  lemma PushLink(en: seq<Ent>, head: seq<int>, lists: seq<seq<nat>>, k: nat, e: nat, w: int, wnext: int, m: nat, j: nat)
    requires ListsOk(en, head, lists) && k < |lists| && e < |en| && !en[e].used
    ensures LinkAt(Pushed(en, head[k], k, e, w, wnext), lists[k := [e] + lists[k]], m, j)
  {
    assert HeadAt(head, lists, k) && LinkAt(en, lists, k, 0);
    var lists' := lists[k := [e] + lists[k]];
    if m < |lists'| && j < |lists'[m]| && !(m == k && j == 0) {
      var j0 := if m == k then j - 1 else j;
      assert lists'[m][j] == lists[m][j0];
      assert LinkAt(en, lists, m, j0);
      if lists[k] != [] && lists[m][j0] == lists[k][0] { OneList(en, head, lists, m, j0, k, 0); }
    }
  }

  // ---------- the chain of a waiter ----------

  predicate ChainAt(en: seq<Ent>, chain: seq<seq<nat>>, w: nat, i: nat) {
    w < |chain| && i < |chain[w]| ==>
      && chain[w][i] < |en|
      && var e := en[chain[w][i]]; e.used && e.w == w && e.wnext == At(chain[w], i + 1)
  }

  predicate OwnerAt(en: seq<Ent>, chain: seq<seq<nat>>, e: nat) {
    e < |en| && en[e].used && en[e].w != NIL ==> 0 <= en[e].w < |chain| && e in chain[en[e].w]
  }

  predicate FirstAt(first: seq<int>, chain: seq<seq<nat>>, w: nat) {
    w < |chain| && w < |first| ==> first[w] == At(chain[w], 0) && NoDup(chain[w])
  }

  /** Every entry of a waiter is in that waiter's chain. */
  ghost predicate ChainsOk(en: seq<Ent>, first: seq<int>, chain: seq<seq<nat>>) {
    && |first| == |chain|
    && (forall w: nat, i: nat :: ChainAt(en, chain, w, i))
    && (forall e: nat :: OwnerAt(en, chain, e))
    && (forall w: nat :: w < |chain| ==> FirstAt(first, chain, w))
  }

  /** Links of queues do not touch chains. */
  ghost predicate SameOwners(en: seq<Ent>, en': seq<Ent>) {
    |en'| == |en| && forall e | 0 <= e < |en| ::
      en'[e].used == en[e].used && en'[e].w == en[e].w && en'[e].wnext == en[e].wnext
  }

  lemma UnlinkedOwners(en: seq<Ent>, e: nat)
    requires e < |en|
    ensures SameOwners(en, Unlinked(en, e))
  {
  }

  lemma SameChains(en: seq<Ent>, en': seq<Ent>, first: seq<int>, chain: seq<seq<nat>>)
    requires ChainsOk(en, first, chain) && SameOwners(en, en')
    ensures ChainsOk(en', first, chain)
  {
    forall w: nat, i: nat ensures ChainAt(en', chain, w, i) { assert ChainAt(en, chain, w, i); }
    forall e: nat ensures OwnerAt(en', chain, e) { assert OwnerAt(en, chain, e); }
  }

  lemma PushChain(en: seq<Ent>, h: int, first: seq<int>, chain: seq<seq<nat>>, k: int, e: nat, w: nat)
    requires ChainsOk(en, first, chain) && w < |chain| && e < |en| && !en[e].used
    ensures ChainsOk(Pushed(en, h, k, e, w, first[w]), first[w := e], chain[w := [e] + chain[w]])
  {
    var en', first', chain' := Pushed(en, h, k, e, w, first[w]), first[w := e], chain[w := [e] + chain[w]];
    assert FirstAt(first, chain, w);
    forall v: nat, i: nat ensures ChainAt(en', chain', v, i) {
      if v == w && i > 0 { assert ChainAt(en, chain, v, i - 1); } else { assert ChainAt(en, chain, v, i); }
    }
    forall d: nat ensures OwnerAt(en', chain', d) {
      assert OwnerAt(en, chain, d);
      assert [e][0] == e && chain'[w] == [e] + chain[w];
    }
    forall v: nat ensures v < |chain'| ==> FirstAt(first', chain', v) {
      if v < |chain| { assert FirstAt(first, chain, v); }
      if v == w { forall j | 0 <= j < |chain[w]| ensures chain[w][j] != e { assert ChainAt(en, chain, w, j); } }
    }
  }

  lemma PushNoChain(en: seq<Ent>, h: int, first: seq<int>, chain: seq<seq<nat>>, k: int, e: nat)
    requires ChainsOk(en, first, chain) && e < |en| && !en[e].used
    ensures ChainsOk(Pushed(en, h, k, e, NIL, NIL), first, chain)
  {
    var en' := Pushed(en, h, k, e, NIL, NIL);
    forall w: nat, i: nat ensures ChainAt(en', chain, w, i) { assert ChainAt(en, chain, w, i); }
    forall d: nat ensures OwnerAt(en', chain, d) { assert OwnerAt(en, chain, d); }
  }

  // ---------- giving an entry back ----------

  function Unused(en: seq<Ent>, e: nat): seq<Ent>
    requires e < |en|
  {
    en[e := en[e].(used := false)]
  }

  lemma UnusedLists(en: seq<Ent>, head: seq<int>, lists: seq<seq<nat>>, e: nat)
    requires ListsOk(en, head, lists) && e < |en| && en[e].q == NIL
    ensures ListsOk(Unused(en, e), head, lists)
  {
    var en' := Unused(en, e);
    forall k: nat, i: nat ensures LinkAt(en', lists, k, i) { assert LinkAt(en, lists, k, i); }
    forall d: nat ensures EntryAt(en', lists, d) { assert EntryAt(en, lists, d); }
  }

  lemma UnusedHead(en: seq<Ent>, first: seq<int>, chain: seq<seq<nat>>, w: nat)
    requires ChainsOk(en, first, chain) && w < |chain| && chain[w] != [] && chain[w][0] < |en|
    ensures ChainsOk(Unused(en, chain[w][0]), first[w := At(chain[w], 1)], chain[w := chain[w][1..]])
  {
    var e := chain[w][0];
    var en', first', chain' := Unused(en, e), first[w := At(chain[w], 1)], chain[w := chain[w][1..]];
    assert FirstAt(first, chain, w) && ChainAt(en, chain, w, 0);
    forall v: nat, i: nat ensures ChainAt(en', chain', v, i) {
      if v == w { assert ChainAt(en, chain, v, i + 1); } else { assert ChainAt(en, chain, v, i); }
    }
    forall d: nat ensures OwnerAt(en', chain', d) {
      assert OwnerAt(en, chain, d);
      assert chain[w] == [e] + chain[w][1..];
    }
    forall v: nat ensures v < |chain'| ==> FirstAt(first', chain', v) {
      if v < |chain| { assert FirstAt(first, chain, v); }
    }
  }

  lemma UnusedNoOwner(en: seq<Ent>, first: seq<int>, chain: seq<seq<nat>>, e: nat)
    requires ChainsOk(en, first, chain) && e < |en| && en[e].w == NIL
    ensures ChainsOk(Unused(en, e), first, chain)
  {
    forall w: nat, i: nat ensures ChainAt(Unused(en, e), chain, w, i) { assert ChainAt(en, chain, w, i); }
    forall d: nat ensures OwnerAt(Unused(en, e), chain, d) { assert OwnerAt(en, chain, d); }
  }

  /** Entries of other waiters, and callbacks, stay in use and on their queues. */
  ghost predicate Others(en: seq<Ent>, en': seq<Ent>, gone: set<int>) {
    |en'| == |en| && forall d | 0 <= d < |en| ::
      en'[d].w == en[d].w && (en[d].w !in gone ==> en'[d].used == en[d].used && en'[d].q == en[d].q)
  }

  /** Entries in `gone` were of waiter `w`, and the others of that waiter are still in use. */
  predicate Going(en0: seq<Ent>, en: seq<Ent>, gone: set<nat>, w: nat) {
    && |en| == |en0| && (forall d: nat | d in gone :: d < |en0| && en0[d].used && en0[d].w == w)
    && (forall d | 0 <= d < |en0| && en[d].used :: en0[d].used)
    && forall d | 0 <= d < |en0| && en0[d].used && en0[d].w == w && d !in gone :: en[d].used
  }

  /** The entries in use of these waiters. */
  function Owned(en: seq<Ent>, ws: set<int>): set<nat> {
    set d: nat | d < |en| && en[d].used && en[d].w in ws
  }

  function DeadBelow(dead: seq<bool>, n: nat): set<int> {
    set w: int | 0 <= w < |dead| && w < n && dead[w]
  }

  function Dead(dead: seq<bool>): set<int> { DeadBelow(dead, |dead|) }

  /** Chains of dead waiters are empty, the others as they were. */
  ghost predicate ChainsLeft(chain: seq<seq<nat>>, chain': seq<seq<nat>>, gone: set<int>) {
    |chain'| == |chain| && forall v | 0 <= v < |chain| :: chain'[v] == if v in gone then [] else chain[v]
  }

  predicate SomeFree(en: seq<Ent>) { exists i | 0 <= i < |en| :: !en[i].used }

  class Pool {
    const ent: array<Ent>
    const head: array<int>      // by queue
    const first: array<int>     // by waiter
    const fired: array<bool>    // by waiter
    ghost var lists: seq<seq<nat>>
    ghost var chain: seq<seq<nat>>

    ghost predicate Apart()
      reads this
    {
      head != first
    }

    ghost predicate Valid()
      reads this, ent, head, first
    {
      && Apart() && fired.Length == first.Length
      && ListsOk(ent[..], head[..], lists) && ChainsOk(ent[..], first[..], chain)
    }

    constructor (nent: nat, nq: nat, nw: nat)
      ensures Valid() && lists == seq(nq, _ => []) && chain == seq(nw, _ => []) && head.Length == nq
        && first.Length == nw
      ensures fresh(ent) && fresh(head) && fresh(first) && fresh(fired) && ent.Length == nent
    {
      ent := new Ent[nent](_ => Ent(NIL, NIL, NIL, NIL, NIL, false));
      head := new int[nq](_ => NIL);
      first := new int[nw](_ => NIL);
      fired := new bool[nw](_ => false);
      lists := seq(nq, _ => []);
      chain := seq(nw, _ => []);
    }

    /** unlink: the entry leaves its list, every other entry stays where it is. */
    method Unlink(e: nat, ghost firsts: seq<int>)
      requires Apart() && e < ent.Length && ListsOk(ent[..], head[..], lists) && ChainsOk(ent[..], firsts, chain)
      modifies ent, head, this`lists
      ensures ListsOk(ent[..], head[..], lists) && ChainsOk(ent[..], firsts, chain)
      ensures ent[e].q == NIL && SameOwners(old(ent[..]), ent[..])
      ensures forall d | 0 <= d < ent.Length && d != e :: ent[d].q == old(ent[d].q)
      ensures LeftList(old(lists), lists, old(ent[e].q), e)
    {
      if ent[e].q == NIL { return; }
      ghost var en, hd := ent[..], head[..];
      assert EntryAt(en, lists, e);
      var k := ent[e].q;
      ghost var i :| 0 <= i < |lists[k]| && lists[k][i] == e;
      assert LinkAt(en, lists, k, i) && HeadAt(hd, lists, k);
      if i > 0 { assert LinkAt(en, lists, k, i - 1); }
      assert LinkAt(en, lists, k, i + 1);
      UnlinkOk(en, hd, lists, k, i);
      UnlinkedOwners(en, e);
      SameChains(en, Unlinked(en, e), firsts, chain);
      var p, n := ent[e].prev, ent[e].next;
      if p != NIL { ent[p] := ent[p].(next := n); } else { head[k] := n; }
      if n != NIL { ent[n] := ent[n].(prev := p); }
      ent[e] := ent[e].(q := NIL);
      assert ent[..] == Unlinked(en, e);
      assert head[..] == HeadAfter(en, hd, k, e);
      lists := lists[k := Without(lists[k], i)];
    }

    method FindFree() returns (e: int)
      ensures e == NIL ==> forall i | 0 <= i < ent.Length :: ent[i].used
      ensures e != NIL ==> 0 <= e < ent.Length && !ent[e].used
    {
      var i := 0;
      while i < ent.Length
        invariant 0 <= i <= ent.Length && forall j | 0 <= j < i :: ent[j].used
      {
        if !ent[i].used { return i; }
        i := i + 1;
      }
      e := NIL;
    }

    /**
      The search of ent_new: a free entry at once, or after the entries of dead tasks went. It
      fails exactly when every entry is in use by a live waiter or a callback.
      */
    method FreeEntry(dead: seq<bool>) returns (e: int)
      requires Valid() && |dead| == first.Length
      modifies ent, head, first, this
      ensures Valid() && Room(old(ent[..]), old(lists), old(chain), dead, ent[..], lists, chain)
      ensures e == NIL <==> !SomeFree(old(ent[..])) && Owned(old(ent[..]), Dead(dead)) == {}
      ensures e != NIL ==> 0 <= e < ent.Length && !ent[e].used
    {
      e := FindFree();
      if e == NIL {
        Collect(dead);
        e := FindFree();
        DeadOnly(old(ent[..]), ent[..], dead);
      }
    }

    /** ent_new and wq_add: the waiter stands at the head of the queue. */
    method Add(q: nat, w: nat, dead: seq<bool>)
        returns (e: int, ghost lists0: seq<seq<nat>>, ghost chain0: seq<seq<nat>>)
      requires Valid() && q < head.Length && w < first.Length == |dead|
      modifies ent, head, first, this
      ensures Valid()
      ensures e == NIL <==> !SomeFree(old(ent[..])) && Owned(old(ent[..]), Dead(dead)) == {}
      ensures exists en :: Room(old(ent[..]), old(lists), old(chain), dead, en, lists0, chain0)
      ensures e == NIL ==> lists == lists0 && chain == chain0
      ensures e != NIL ==>
                && 0 <= e < ent.Length && q < |lists0| && w < |chain0|
                && lists == lists0[q := [e as nat] + lists0[q]] && chain == chain0[w := [e as nat] + chain0[w]]
    {
      e := FreeEntry(dead);
      lists0, chain0 := lists, chain;
      if e == NIL { return; }
      ghost var en, hd, fs := ent[..], head[..], first[..];
      PushOk(en, hd, lists, q, e, w, fs[w]);
      PushChain(en, hd[q], fs, chain, q, e, w);
      assert HeadAt(hd, lists, q) && LinkAt(en, lists, q, 0);
      PushHere(e, q, w, first[w]);
      first[w] := e;
      lists := lists[q := [e as nat] + lists[q]];
      chain := chain[w := [e as nat] + chain[w]];
      assert first[..] == fs[w := e];
    }

    method PushHere(e: nat, q: nat, w: int, wnext: int)
      requires e < ent.Length && q < head.Length && NIL <= head[q] < ent.Length
      modifies ent, head
      ensures ent[..] == Pushed(old(ent[..]), old(head[q]), q, e, w, wnext) && head[..] == old(head[..])[q := e]
    {
      var h := head[q];
      if h != NIL { ent[h] := ent[h].(prev := e); }
      ent[e] := Ent(h, NIL, wnext, q, w, true);
      head[q] := e;
    }

    /** wq_waiter_free: no entry of the waiter stays on any queue. */
    method FreeWaiter(w: nat)
      requires Valid() && w < first.Length
      modifies ent, head, first, this
      ensures Valid() && w < |chain| && chain[w] == []
      ensures forall v | 0 <= v < |chain| && v != w :: v < |old(chain)| && chain[v] == old(chain)[v]
      ensures forall e | 0 <= e < ent.Length && ent[e].used :: ent[e].w != w
      ensures Others(old(ent[..]), ent[..], {w}) && |chain| == |old(chain)|
      ensures lists == SiftAll(old(lists), Owned(old(ent[..]), {w}))
    {
      ghost var en0 := ent[..];
      ghost var gone: set<nat> := {};
      SiftAllNone(lists);
      var e := first[w];
      assert FirstAt(first[..], chain, w);
      assert first[..] == first[..][w := e];
      while e != NIL
        invariant ListsOk(ent[..], head[..], lists) && w < |chain| == |old(chain)| && Apart()
        invariant ChainsOk(ent[..], first[..][w := e], chain)
        invariant forall v | 0 <= v < |chain| && v != w :: chain[v] == old(chain)[v]
        invariant first[..] == old(first[..]) && Others(en0, ent[..], {w})
        invariant lists == SiftAll(old(lists), gone) && Going(en0, ent[..], gone, w)
        decreases |chain[w]|
      {
        ghost var en1, lists1, head1 := ent[..], lists, head[..];
        ghost var fs := first[..][w := e];
        assert FirstAt(fs, chain, w) && ChainAt(ent[..], chain, w, 0);
        Unlink(e, fs);
        UnlinkSifts(en1, head1, lists1, lists, e);
        SiftAllTwice(old(lists), gone, {e});
        ghost var en := ent[..];
        assert ChainAt(en, chain, w, 0);
        UnusedLists(en, head[..], lists, e);
        UnusedHead(en, fs, chain, w);
        var n := ent[e].wnext;
        ent[e] := ent[e].(used := false);
        assert ent[..] == Unused(en, e);
        assert fs[w := n] == first[..][w := n];
        chain := chain[w := chain[w][1..]];
        gone := gone + {e};
        e := n;
      }
      assert FirstAt(first[..][w := NIL], chain, w);
      first[w] := NIL;
      assert first[..] == old(first[..])[w := NIL];
      forall d | 0 <= d < ent.Length && ent[d].used ensures ent[d].w != w { assert OwnerAt(ent[..], chain, d); }
      assert gone == Owned(en0, {w});
    }

    /** gc: the entries of waiters whose task is dead go away, and no others; the lists keep their order. */
    method Collect(dead: seq<bool>)
      requires Valid() && |dead| == first.Length
      modifies ent, head, first, this
      ensures Valid() && Others(old(ent[..]), ent[..], Dead(dead)) && ChainsLeft(old(chain), chain, Dead(dead))
      ensures forall e | 0 <= e < ent.Length && ent[e].used :: ent[e].w !in Dead(dead)
      ensures lists == SiftAll(old(lists), Owned(old(ent[..]), Dead(dead)))
    {
      ghost var en0 := ent[..];
      SiftAllNone(lists);
      assert Owned(en0, DeadBelow(dead, 0)) == {};
      var w := 0;
      while w < |dead|
        invariant 0 <= w <= |dead| && Valid() && Others(en0, ent[..], DeadBelow(dead, w))
          && ChainsLeft(old(chain), chain, DeadBelow(dead, w))
        invariant forall e | 0 <= e < ent.Length && ent[e].used :: ent[e].w !in DeadBelow(dead, w)
        invariant lists == SiftAll(old(lists), Owned(en0, DeadBelow(dead, w)))
      {
        ghost var en := ent[..];
        if dead[w] {
          FreeWaiter(w);
          DeadNext(en0, en, ent[..], dead, w);
          SiftAllTwice(old(lists), Owned(en0, DeadBelow(dead, w)), Owned(en, {w}));
        } else {
          assert DeadBelow(dead, w + 1) == DeadBelow(dead, w);
        }
        w := w + 1;
      }
    }

    /** wq_add_cb. */
    method AddCallback(q: nat, dead: seq<bool>) returns (e: int, ghost lists0: seq<seq<nat>>)
      requires Valid() && q < head.Length && first.Length == |dead|
      modifies ent, head, first, this
      ensures Valid()
      ensures e == NIL <==> !SomeFree(old(ent[..])) && Owned(old(ent[..]), Dead(dead)) == {}
      ensures exists en :: Room(old(ent[..]), old(lists), old(chain), dead, en, lists0, chain)
      ensures e == NIL ==> lists == lists0
      ensures e != NIL ==> 0 <= e < ent.Length && q < |lists0| && lists == lists0[q := [e as nat] + lists0[q]]
    {
      e := FreeEntry(dead);
      lists0 := lists;
      if e == NIL { return; }
      ghost var en, hd := ent[..], head[..];
      PushOk(en, hd, lists, q, e, NIL, NIL);
      PushNoChain(en, hd[q], first[..], chain, q, e);
      assert HeadAt(hd, lists, q) && LinkAt(en, lists, q, 0);
      PushHere(e, q, NIL, NIL);
      lists := lists[q := [e as nat] + lists[q]];
    }

    /** wq_del: it only removes callbacks; a waiter's entries leave when the waiter does. */
    method Delete(e: nat)
      requires Valid() && e < ent.Length
      modifies ent, head, this
      ensures Valid() && chain == old(chain)
      ensures old(ent[e].used) && old(ent[e].w) == NIL ==>
        !ent[e].used && ent[e].q == NIL && LeftList(old(lists), lists, old(ent[e].q), e)
      ensures !(old(ent[e].used) && old(ent[e].w) == NIL) ==> lists == old(lists) && ent[..] == old(ent[..])
    {
      if ent[e].used && ent[e].w == NIL {
        Unlink(e, first[..]);
        ghost var en := ent[..];
        UnusedLists(en, head[..], lists, e);
        UnusedNoOwner(en, first[..], chain, e);
        ent[e] := ent[e].(used := false);
        assert ent[..] == Unused(en, e);
      }
    }

    /** wq_wake: exactly the waiters with an entry on the queue are marked. */
    method Wake(q: nat)
      requires Valid() && q < head.Length
      modifies fired
      ensures forall w | 0 <= w < fired.Length ::
                fired[w] <==> old(fired[w]) || exists i | 0 <= i < |lists[q]| ::
                  lists[q][i] < ent.Length && ent[lists[q][i]].w == w
    {
      if head[q] == NIL {
        assert HeadAt(head[..], lists, q);
        return;
      }
      var e := head[q];
      ghost var i := 0;
      assert HeadAt(head[..], lists, q);
      while e != NIL
        invariant i <= |lists[q]| && e == At(lists[q], i)
        invariant forall w | 0 <= w < fired.Length ::
                    fired[w] <==> old(fired[w]) || exists j | 0 <= j < i ::
                      lists[q][j] < ent.Length && ent[lists[q][j]].w == w
        decreases |lists[q]| - i
      {
        assert LinkAt(ent[..], lists, q, i) && OwnerAt(ent[..], chain, e);
        if ent[e].w != NIL { fired[ent[e].w] := true; }
        e := ent[e].next;
        i := i + 1;
      }
    }
  }

  /** What the search for a free entry did: nothing while one was free, else the dead went. */
  ghost predicate Room(en: seq<Ent>, lists: seq<seq<nat>>, chain: seq<seq<nat>>, dead: seq<bool>,
                       en': seq<Ent>, lists': seq<seq<nat>>, chain': seq<seq<nat>>) {
    if SomeFree(en) then en' == en && lists' == lists && chain' == chain
    else
      && Others(en, en', Dead(dead)) && lists' == SiftAll(lists, Owned(en, Dead(dead)))
      && ChainsLeft(chain, chain', Dead(dead))
  }

  /** With nothing free before, what is free after was an entry of a dead task. */
  lemma DeadOnly(en: seq<Ent>, en': seq<Ent>, dead: seq<bool>)
    requires Others(en, en', Dead(dead)) && !SomeFree(en)
    requires forall e | 0 <= e < |en'| && en'[e].used :: en'[e].w !in Dead(dead)
    ensures SomeFree(en') <==> Owned(en, Dead(dead)) != {}
  {
    forall d: nat | d < |en|
      ensures !en'[d].used <==> d in Owned(en, Dead(dead))
    {
      assert en[d].used;
    }
  }

  lemma DeadNext(en0: seq<Ent>, en: seq<Ent>, en': seq<Ent>, dead: seq<bool>, w: nat)
    requires w < |dead| && dead[w] && Others(en0, en, DeadBelow(dead, w)) && Others(en, en', {w})
    ensures DeadBelow(dead, w + 1) == DeadBelow(dead, w) + {w}
    ensures Owned(en0, DeadBelow(dead, w + 1)) == Owned(en0, DeadBelow(dead, w)) + Owned(en, {w})
    ensures Others(en0, en', DeadBelow(dead, w + 1))
  {
    assert DeadBelow(dead, w + 1) == DeadBelow(dead, w) + {w as int};
    assert Owned(en, {w}) == Owned(en0, {w});
  }
}

/**
  The physical frame pool: one reference byte per page frame.

  0 is a free frame, 1..253 a frame with that many references, 254 a frame that was
  referenced so often that it is never given back, 255 a frame outside the pool.
  */
module FramePool {

  const STICKY: nat := 254
  const NOT_OURS: nat := 255

  predicate Bytes(rc: seq<nat>) {
    forall i | 0 <= i < |rc| :: rc[i] <= 255
  }

  predicate Ours(rc: seq<nat>, f: nat) {
    f < |rc| && rc[f] != NOT_OURS
  }

  /** How many entries are free frames. */
  function Zeros(rc: seq<nat>): nat {
    if rc == [] then 0
    else (if rc[|rc| - 1] == 0 then 1 else 0) + Zeros(rc[..|rc| - 1])
  }

  function Ref(rc: seq<nat>, f: nat): seq<nat> {
    if Ours(rc, f) && rc[f] < STICKY then rc[f := rc[f] + 1] else rc
  }

  function Unref(rc: seq<nat>, f: nat): seq<nat> {
    if Ours(rc, f) && rc[f] != 0 && rc[f] != STICKY then rc[f := rc[f] - 1] else rc
  }

  /** What the pool gains when one reference of `f` goes away. */
  function Freed(rc: seq<nat>, f: nat): nat {
    if Ours(rc, f) && rc[f] == 1 then 1 else 0
  }

  lemma {:induction false} ZerosUpdate(rc: seq<nat>, i: nat, v: nat)
    requires i < |rc|
    ensures Zeros(rc[i := v]) + (if rc[i] == 0 then 1 else 0) == Zeros(rc) + (if v == 0 then 1 else 0)
    decreases |rc|
  {
    var n := |rc| - 1;
    if i < n {
      ZerosUpdate(rc[..n], i, v);
      assert rc[i := v][..n] == rc[..n][i := v];
    } else {
      assert rc[i := v][..n] == rc[..n];
    }
  }

  lemma {:induction false} ZerosPositive(rc: seq<nat>, i: nat)
    requires i < |rc| && rc[i] == 0
    ensures Zeros(rc) > 0
  {
    ZerosUpdate(rc, i, 1);
  }

  lemma {:induction false} ZerosNone(rc: seq<nat>)
    requires forall i | 0 <= i < |rc| :: rc[i] != 0
    ensures Zeros(rc) == 0
  {
    if rc != [] { ZerosNone(rc[..|rc| - 1]); }
  }

  /** The number of free frames depends on which bytes are zero only. */
  lemma {:induction false} ZerosSame(rc: seq<nat>, rc': seq<nat>)
    requires |rc| == |rc'| && forall i | 0 <= i < |rc| :: rc[i] == 0 <==> rc'[i] == 0
    ensures Zeros(rc) == Zeros(rc')
    decreases |rc|
  {
    if rc != [] { ZerosSame(rc[..|rc| - 1], rc'[..|rc'| - 1]); }
  }

  /** The pool counter after a reference is dropped is again the number of free frames. */
  lemma UnrefZeros(rc: seq<nat>, f: nat)
    ensures Zeros(Unref(rc, f)) == Zeros(rc) + Freed(rc, f)
  {
    if Ours(rc, f) && rc[f] != 0 && rc[f] != STICKY { ZerosUpdate(rc, f, rc[f] - 1); }
  }

  lemma RefZeros(rc: seq<nat>, f: nat)
    requires f < |rc| ==> rc[f] != 0
    ensures Zeros(Ref(rc, f)) == Zeros(rc)
  {
    if Ours(rc, f) && rc[f] < STICKY { ZerosUpdate(rc, f, rc[f] + 1); }
  }

  /** A reference taken and dropped again leaves the byte as it was unless it got stuck on the way. */
  lemma RefUnref(rc: seq<nat>, f: nat)
    requires Bytes(rc)
    ensures Unref(Ref(rc, f), f) == rc <==> !(f < |rc| && rc[f] == STICKY - 1)
  {
    if f < |rc| { assert rc[f := rc[f] + 1][f := rc[f]] == rc; }
  }

  /** The first free frame from the hint on, around the end. */
  ghost predicate FirstZero(rc: seq<nat>, h: nat, f: nat) {
    h <= |rc| && exists n | 0 <= n < |rc| :: Ring(h, n, |rc|) == f && forall k | 0 <= k < n :: rc[Ring(h, k, |rc|)] != 0
  }

  class Pool {
    const refcnt: array<nat>
    var poolFrames: nat
    var poolFree: nat
    var hint: nat

    /** Frame 0 stays outside the pool, since its address is also the failure result. */
    ghost predicate Valid()
      reads this, refcnt
    {
      && Bytes(refcnt[..])
      && (refcnt.Length > 0 ==> refcnt[0] == NOT_OURS)
      && poolFree == Zeros(refcnt[..])
      && hint <= refcnt.Length
    }

    constructor (maxPfn: nat)
      ensures Valid() && fresh(refcnt)
      ensures refcnt.Length == maxPfn && forall i | 0 <= i < maxPfn :: refcnt[i] == NOT_OURS
    {
      refcnt := new nat[maxPfn](_ => NOT_OURS);
      poolFrames, poolFree, hint := 0, 0, 0;
      new;
      ZerosNone(refcnt[..]);
    }

    /** Gives the frames of a usable region to the pool. */
    method Add(start: nat, end: nat)
      requires Valid() && 0 < start
      requires forall i | start <= i < end && i < refcnt.Length :: refcnt[i] == NOT_OURS
      modifies this, refcnt
      ensures Valid() && hint == old(hint)
      ensures forall i | 0 <= i < refcnt.Length ::
                refcnt[i] == if start <= i < end then 0 else old(refcnt[i])
    {
      var a := start;
      while a < end && a < refcnt.Length
        invariant start <= a && (a <= end || a == start)
        invariant Valid() && hint == old(hint)
        invariant forall i | 0 <= i < refcnt.Length ::
                    refcnt[i] == if start <= i < a then 0 else old(refcnt[i])
      {
        ghost var was := refcnt[..];
        refcnt[a] := 0;
        assert refcnt[..] == was[a := 0];
        ZerosUpdate(was, a, 0);
        poolFrames, poolFree := poolFrames + 1, poolFree + 1;
        a := a + 1;
      }
    }

    /** Next fit from the hint. The result 0 says that the pool is exhausted, and only that. */
    method Alloc() returns (frame: nat)
      requires Valid()
      modifies this, refcnt
      ensures Valid()
      ensures frame == 0 <==> old(poolFree) == 0
      ensures frame == 0 ==> refcnt[..] == old(refcnt[..]) && poolFree == 0
      ensures frame != 0 ==>
                && frame < refcnt.Length && old(refcnt[frame]) == 0
                && refcnt[..] == old(refcnt[..])[frame := 1]
                && poolFree == old(poolFree) - 1 && hint == frame + 1
      ensures frame != 0 ==> FirstZero(old(refcnt[..]), old(hint), frame)
    {
      frame := 0;
      var n := 0;
      while n < refcnt.Length
        invariant 0 <= n <= refcnt.Length
        invariant refcnt[..] == old(refcnt[..]) && poolFree == old(poolFree) && hint == old(hint)
        invariant forall k | 0 <= k < n :: refcnt[Ring(hint, k, refcnt.Length)] != 0
      {
        var i := (hint + n) % refcnt.Length;
        assert i == Ring(hint, n, refcnt.Length);
        if refcnt[i] == 0 {
          ZerosPositive(refcnt[..], i);
          ZerosUpdate(refcnt[..], i, 1);
          refcnt[i] := 1;
          assert refcnt[..] == old(refcnt[..])[i := 1];
          poolFree := poolFree - 1;
          hint := i + 1;
          return i;
        }
        n := n + 1;
      }
      forall i | 0 <= i < refcnt.Length
        ensures refcnt[i] != 0
      {
        var k := if hint <= i then i - hint else i + refcnt.Length - hint;
        assert Ring(hint, k, refcnt.Length) == i;
      }
      ZerosNone(refcnt[..]);
    }

    method AddRef(frame: nat)
      requires Valid() && (frame < refcnt.Length ==> refcnt[frame] != 0)
      modifies refcnt
      ensures Valid() && refcnt[..] == Ref(old(refcnt[..]), frame)
    {
      RefZeros(refcnt[..], frame);
      if frame < refcnt.Length && refcnt[frame] != NOT_OURS && refcnt[frame] < STICKY {
        refcnt[frame] := refcnt[frame] + 1;
      }
      assert refcnt[..] == Ref(old(refcnt[..]), frame);
    }

    method Drop(frame: nat)
      requires Valid()
      modifies this`poolFree, refcnt
      ensures Valid() && refcnt[..] == Unref(old(refcnt[..]), frame)
      ensures poolFree == old(poolFree) + Freed(old(refcnt[..]), frame)
    {
      UnrefZeros(refcnt[..], frame);
      if frame < refcnt.Length && refcnt[frame] != NOT_OURS && refcnt[frame] != 0 && refcnt[frame] != STICKY {
        refcnt[frame] := refcnt[frame] - 1;
        if refcnt[frame] == 0 { poolFree := poolFree + 1; }
      }
      assert refcnt[..] == Unref(old(refcnt[..]), frame);
    }
  }

  /** Position `k` steps after `h` on a ring of `m`; a hint never exceeds `m`. */
  function Ring(h: nat, k: nat, m: nat): (i: nat)
    requires h <= m && k < m
    ensures i < m && i == (h + k) % m
  {
    RingMod(h + k, m);
    if h + k < m then h + k else h + k - m
  }

  lemma RingMod(x: nat, m: nat)
    requires 0 < m && x < 2 * m
    ensures x % m == if x < m then x else x - m
  {
    var q := x / m;
    assert q * m <= x < q * m + m;
    assert q >= 2 ==> q * m >= 2 * m;
  }
}

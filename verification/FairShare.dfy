/**
  Which task runs next: real-time priority first, then the least virtual runtime, with round robin
  among equals; and the share of the cpu that always-ready tasks get that way.
  */
module FairShare {

  const SLICE: nat := 10
  const WINDOW: nat := 30000
  const SCALE: nat := 1048576

  datatype Task = Task(ready: bool, on: bool, rt: nat, policy: nat, vrt: nat, weight: nat, ticks: nat)

  /** Real-time priority first, then the least virtual runtime. */
  predicate Better(a: Task, b: Task) {
    if a.rt != b.rt then a.rt > b.rt else a.vrt < b.vrt
  }

  function Weight(t: Task): nat { if t.weight == 0 then 1024 else t.weight }

  /** What one tick adds to the virtual runtime. */
  function Cost(t: Task): nat { SCALE / Weight(t) }

  predicate Eligible(t: Task) { t.ready && !t.on }

  /** Place `i` in the round that starts after `rr`. */
  function Place(rr: nat, i: nat, n: nat): nat
    requires n > 0
  {
    (rr + i) % n
  }

  /** The best eligible task; among equals the first one in the round. */
  ghost predicate Picked(task: seq<Task>, rr: nat, i: nat) {
    && |task| > 0 && 1 <= i <= |task|
    && var b := task[Place(rr, i, |task|)];
       && Eligible(b)
       && (forall j | 1 <= j <= |task| ::
         Eligible(task[Place(rr, j, |task|)]) ==> !Better(task[Place(rr, j, |task|)], b))
       && (forall j | 1 <= j < i :: Eligible(task[Place(rr, j, |task|)]) ==> Better(b, task[Place(rr, j, |task|)]))
  }

  ghost predicate NoneEligible(task: seq<Task>) {
    forall k | 0 <= k < |task| :: !Eligible(task[k])
  }

  lemma BetterChain(a: Task, b: Task, c: Task)
    ensures Better(a, b) && Better(b, c) ==> Better(a, c)
    ensures !Better(a, b) && !Better(b, c) ==> !Better(a, c)
    ensures Better(a, b) && !Better(c, b) ==> Better(a, c)
  {
  }

  /** Every slot has its place in the round. */
  lemma InRound(rr: nat, k: nat, n: nat) returns (j: nat)
    requires k < n && rr < n
    ensures 1 <= j <= n && Place(rr, j, n) == k
  {
    j := if k > rr then k - rr else k + n - rr;
    if k > rr { Wrap(k, n); } else { Wrap(k + n, n); }
  }

  lemma Wrap(x: nat, n: nat)
    requires 0 < n && x < 2 * n
    ensures x % n == if x < n then x else x - n
  {
    var q := x / n;
    assert x == n * q + x % n;
    assert q >= 2 ==> n * q >= 2 * n;
    assert q == 1 ==> n * q == n;
  }

  // ---------- one tick as a value ----------

  datatype St = St(task: seq<Task>, cur: int, slice: nat, rr: nat, vmin: nat)

  predicate Shaped(s: St) { -1 <= s.cur < |s.task| && (|s.task| > 0 ==> s.rr < |s.task|) }

  /** The running task pays for the tick. */
  function Charged(s: St): seq<Task>
    requires Shaped(s)
  {
    if s.cur < 0 then s.task
    else
      var t := s.task[s.cur];
      s.task[s.cur := t.(ticks := t.ticks + 1, vrt := t.vrt + Cost(t))]
  }

  /** A task that slept for ages does not get more than the window ahead. */
  function Clamped(t: Task, vmin: nat): Task {
    if t.vrt + WINDOW < vmin then t.(vrt := vmin - WINDOW) else t
  }

  /** The running task goes on although another one was picked. */
  predicate Keeps(cur: Task, n: Task) {
    cur.ready && if cur.policy == 1 then n.rt <= cur.rt else !Better(n, cur) && !(cur.policy == 2 && n.rt == cur.rt)
  }

  predicate TimeUp(s: St)
    requires Shaped(s)
  {
    s.cur < 0 || !s.task[s.cur].ready || s.slice + 1 >= SLICE
  }

  function Moved(task: seq<Task>, cur: int, next: int): seq<Task>
    requires -1 <= cur < |task| && -1 <= next < |task|
  {
    var a := if cur >= 0 then task[cur := task[cur].(on := false)] else task;
    if next >= 0 then a[next := a[next].(on := true)] else a
  }

  /** The rest of the tick once `b` has been picked, or nothing (-1). */
  function AfterPick(s: St, b: int): St
    requires Shaped(s) && -1 <= b < |s.task|
  {
    var ts := Charged(s);
    var slice := if s.cur < 0 then s.slice else 0;
    if b < 0 then
      var next := if s.cur >= 0 && !ts[s.cur].ready then -1 else s.cur;
      St(Moved(ts, s.cur, next), next, slice, s.rr, s.vmin)
    else
      var us := ts[b := Clamped(ts[b], s.vmin)];
      var next := if s.cur >= 0 && Keeps(us[s.cur], us[b]) then s.cur else b;
      St(Moved(us, s.cur, next), next, slice, b, if us[b].vrt > s.vmin then us[b].vrt else s.vmin)
  }

  /** `b` is what pick may return. */
  ghost predicate Choice(ts: seq<Task>, rr: nat, b: int) {
    if b < 0 then b == -1 && NoneEligible(ts)
    else b < |ts| && exists i | 1 <= i <= |ts| :: Picked(ts, rr, i) && b == Place(rr, i, |ts|)
  }

  ghost predicate Tick(s: St, s': St) {
    && Shaped(s)
    && if !TimeUp(s) then s' == s.(task := Charged(s), slice := s.slice + 1)
       else exists b :: Choice(Charged(s), s.rr, b) && s' == AfterPick(s, b)
  }

  class Queue {
    const task: array<Task>
    var cur: int       // -1 is the idle task
    var slice: nat
    var rr: nat
    var vmin: nat

    ghost predicate Valid()
      reads this, task
    {
      && -1 <= cur < task.Length && (task.Length > 0 ==> rr < task.Length)
      && (forall k | 0 <= k < task.Length :: task[k].on <==> k == cur)
    }

    constructor (ts: array<Task>)
      requires forall k | 0 <= k < ts.Length :: !ts[k].on
      ensures Valid() && task == ts && cur == -1
    {
      task := ts;
      cur, slice, rr, vmin := -1, 0, 0, 0;
    }

    /** The search of pick, without its bookkeeping. */
    method Search() returns (best: int)
      requires Valid()
      ensures Choice(task[..], rr, best)
    {
      best := -1;
      ghost var at := 0;
      var n := task.Length;
      var i := 1;
      ghost var ts := task[..];
      while i <= n
        invariant 1 <= i <= n + 1 && best >= -1
        invariant best < 0 ==> forall j | 1 <= j < i :: !Eligible(ts[Place(rr, j, n)])
        invariant best >= 0 ==> 1 <= at < i && best == Place(rr, at, n) && best < n && Eligible(ts[best])
        invariant best >= 0 ==> forall j | 1 <= j < i ::
          Eligible(ts[Place(rr, j, n)]) ==> !Better(ts[Place(rr, j, n)], ts[best])
        invariant best >= 0 ==> forall j | 1 <= j < at ::
          Eligible(ts[Place(rr, j, n)]) ==> Better(ts[best], ts[Place(rr, j, n)])
      {
        var k := (rr + i) % n;
        assert k == Place(rr, i, n);
        if task[k].ready && !task[k].on && (best < 0 || Better(task[k], task[best])) {
          if best >= 0 {
            forall j | 1 <= j < i && Eligible(ts[Place(rr, j, n)])
              ensures Better(ts[k], ts[Place(rr, j, n)])
            {
              BetterChain(ts[k], ts[best], ts[Place(rr, j, n)]);
            }
          }
          best, at := k, i;
        }
        i := i + 1;
      }
      if best < 0 {
        forall k | 0 <= k < n ensures !Eligible(ts[k]) { var j := InRound(rr, k, n); }
      }
    }

    ghost function Snap(): St
      reads this, task
    {
      St(task[..], cur, slice, rr, vmin)
    }

    method SetOn(k: int, on: bool)
      requires k < task.Length
      modifies task
      ensures task[..] == if k >= 0 then old(task[..])[k := old(task[..])[k].(on := on)] else old(task[..])
    {
      if k >= 0 { task[k] := task[k].(on := on); }
    }

    /** pick's bookkeeping and the switch. */
    method Finish(b: int, ghost s: St)
      requires Shaped(s) && -1 <= b < task.Length == |s.task|
      requires Snap() == St(Charged(s), s.cur, if s.cur < 0 then s.slice else 0, s.rr, s.vmin)
      modifies this, task
      ensures Snap() == AfterPick(s, b)
    {
      var next := cur;
      if b >= 0 {
        rr := b;
        if task[b].vrt + WINDOW < vmin { task[b] := task[b].(vrt := vmin - WINDOW); }
        assert task[..] == Charged(s)[b := Clamped(Charged(s)[b], s.vmin)];
        if task[b].vrt > vmin { vmin := task[b].vrt; }
        if !(cur >= 0 && Keeps(task[cur], task[b])) { next := b; }
      } else if cur >= 0 && !task[cur].ready {
        next := -1;
      }
      SetOn(cur, false);
      SetOn(next, true);
      cur := next;
    }

    /** The scheduling part of the timer interrupt, and isr_leave. */
    method OnTick()
      requires Valid()
      modifies this, task
      ensures Tick(old(Snap()), Snap()) && Valid()
    {
      hide Choice, AfterPick;
      ghost var s := Snap();
      if cur >= 0 {
        var t := task[cur];
        task[cur] := t.(ticks := t.ticks + 1, vrt := t.vrt + Cost(t));
        assert task[..] == Charged(s);
        if t.ready && slice + 1 < SLICE {
          slice := slice + 1;
          return;
        }
        slice := 0;
      }
      assert task[..] == Charged(s);
      var b := Search();
      ChoiceRange(task[..], rr, b);
      Finish(b, s);
      AfterPickValid(s, b);
      forall k | 0 <= k < task.Length ensures task[k].on <==> k == cur { assert task[k] == task[..][k]; }
    }
  }

  lemma ChoiceRange(ts: seq<Task>, rr: nat, b: int)
    requires Choice(ts, rr, b)
    ensures -1 <= b < |ts|
  {
  }

  lemma AfterPickValid(s: St, b: int)
    requires Shaped(s) && -1 <= b < |s.task| && forall k | 0 <= k < |s.task| :: s.task[k].on <==> k == s.cur
    ensures var t := AfterPick(s, b); Shaped(t) && |t.task| == |s.task| && forall k | 0 <= k < |s.task| ::
      t.task[k].on <==> k == t.cur
  {
  }

  // ---------- fair shares ----------

  /** Always-ready tasks without real-time priority, none of which costs more than the window per slice. */
  ghost predicate Fair(s: St) {
    && Shaped(s) && 0 <= s.cur && |s.task| >= 2 && s.slice < SLICE
    && forall k | 0 <= k < |s.task| :: FairTask(s, k)
  }

  predicate FairTask(s: St, k: nat)
    requires k < |s.task|
  {
    var t := s.task[k];
    t.ready && t.rt == 0 && t.policy == 0 && (t.on <==> k == s.cur) && SLICE * Cost(t) <= WINDOW
  }

  /** No two virtual runtimes are further apart than the window. */
  ghost predicate Close(s: St) {
    forall j, k | 0 <= j < |s.task| && 0 <= k < |s.task| :: s.task[j].vrt <= s.task[k].vrt + WINDOW
  }

  /** What the running task can still run up before the next pick. */
  function Ahead(s: St): nat
    requires Shaped(s) && s.cur >= 0 && s.slice < SLICE
  {
    s.task[s.cur].vrt + Rest(s.slice, Cost(s.task[s.cur]))
  }

  function Rest(slice: nat, d: nat): (r: nat)
    requires slice <= SLICE
  {
    (SLICE - slice) * d
  }

  lemma RestStep(slice: nat, d: nat)
    requires slice < SLICE
    ensures Rest(slice, d) == d + Rest(slice + 1, d) && Rest(SLICE - 1, d) == d
  {
    assert (SLICE - slice) * d == d + (SLICE - (slice + 1)) * d;
  }

  /** The slice in progress ends inside the window. */
  ghost predicate SliceFits(s: St)
    requires Shaped(s) && s.cur >= 0 && s.slice < SLICE
  {
    forall k | 0 <= k < |s.task| && k != s.cur :: Ahead(s) <= s.task[k].vrt + WINDOW
  }

  /** vmin is not ahead of any task by more than the window, so nobody counts as a sleeper. */
  ghost predicate NoSleeper(s: St) {
    forall k | 0 <= k < |s.task| :: s.vmin <= s.task[k].vrt + WINDOW
  }

  /** Exactly the running task is charged, and nobody's virtual runtime is moved. */
  ghost predicate OnlyCharged(s: St, s': St)
    requires Shaped(s)
  {
    && |s'.task| == |s.task|
    && forall k | 0 <= k < |s.task| ::
         var t, u := s.task[k], s'.task[k];
         && u.weight == t.weight && u.ready == t.ready && u.rt == t.rt && u.policy == t.policy
         && u.vrt == t.vrt + (if k == s.cur then Cost(t) else 0) && u.ticks == t.ticks + (if k == s.cur then 1 else 0)
  }

  /** A pick among fair tasks returns the one behind all others but the running one. */
  lemma PickedLeast(s: St, b: int)
    requires Fair(s) && Choice(Charged(s), s.rr, b)
    ensures 0 <= b < |s.task| && b != s.cur
    ensures forall k | 0 <= k < |s.task| && k != s.cur :: s.task[b].vrt <= s.task[k].vrt
  {
    var ts := Charged(s);
    var o := if s.cur == 0 then 1 else 0;
    assert FairTask(s, o) && FairTask(s, s.cur);
    assert Eligible(ts[o]);
    var i :| 1 <= i <= |ts| && Picked(ts, s.rr, i) && b == Place(s.rr, i, |ts|);
    assert FairTask(s, b);
    forall k | 0 <= k < |s.task| && k != s.cur
      ensures s.task[b].vrt <= s.task[k].vrt
    {
      assert FairTask(s, k);
      var j := InRound(s.rr, k, |ts|);
      assert !Better(ts[Place(s.rr, j, |ts|)], ts[b]);
    }
  }

  lemma PickCharges(s: St, b: int)
    requires Fair(s) && NoSleeper(s) && Choice(Charged(s), s.rr, b)
    ensures 0 <= b < |s.task| && OnlyCharged(s, AfterPick(s, b))
    ensures var t := AfterPick(s, b);
            && t.slice == 0 && t.cur == (if s.task[s.cur].vrt + Cost(s.task[s.cur]) <= s.task[b].vrt then s.cur else b)
            && t.vmin == (if s.task[b].vrt > s.vmin then s.task[b].vrt else s.vmin) && Shaped(t)
  {
    PickedLeast(s, b);
    assert FairTask(s, b) && FairTask(s, s.cur);
  }

  /** A tick keeps the tasks fair. */
  lemma TickFair(s: St, s': St)
    requires Fair(s) && NoSleeper(s) && Tick(s, s')
    ensures Fair(s') && OnlyCharged(s, s')
  {
    if TimeUp(s) {
      var b :| Choice(Charged(s), s.rr, b) && s' == AfterPick(s, b);
      PickCharges(s, b);
      AfterOn(s, b);
    }
    forall k | 0 <= k < |s'.task| ensures FairTask(s', k) { assert FairTask(s, k); }
  }

  lemma AfterOn(s: St, b: int)
    requires Fair(s) && 0 <= b < |s.task|
    ensures var t := AfterPick(s, b); Shaped(t) && |t.task| == |s.task| && forall k | 0 <= k < |s.task| ::
      t.task[k].on <==> k == t.cur
  {
    forall k | 0 <= k < |s.task| ensures s.task[k].on <==> k == s.cur { assert FairTask(s, k); }
    AfterPickValid(s, b);
  }

  /** The end of a slice, in one place: who was picked, and what is known of it. */
  lemma SliceEnd(s: St, s': St) returns (b: nat)
    requires Fair(s) && NoSleeper(s) && Tick(s, s') && TimeUp(s)
    ensures b < |s.task| && b != s.cur && forall k | 0 <= k < |s.task| && k != s.cur :: s.task[b].vrt <= s.task[k].vrt
    ensures s'.slice == 0 && s'.cur == (if s.task[s.cur].vrt + Cost(s.task[s.cur]) <= s.task[b].vrt then s.cur else b)
    ensures s'.vmin == (if s.task[b].vrt > s.vmin then s.task[b].vrt else s.vmin)
  {
    var c :| Choice(Charged(s), s.rr, c) && s' == AfterPick(s, c);
    PickCharges(s, c);
    PickedLeast(s, c);
    b := c;
  }

  lemma MidSlice(s: St, s': St)
    requires Fair(s) && Tick(s, s') && !TimeUp(s)
    ensures s'.slice == s.slice + 1 < SLICE && s'.cur == s.cur && s'.vmin == s.vmin
  {
  }

  /** The window is kept: at the end of a slice whoever runs next is behind everybody else. */
  lemma TickClose(s: St, s': St)
    requires Fair(s) && Close(s) && SliceFits(s) && NoSleeper(s) && Tick(s, s')
    ensures Fair(s') && OnlyCharged(s, s') && Close(s') && SliceFits(s') && NoSleeper(s')
  {
    TickFair(s, s');
    RestStep(s.slice, Cost(s.task[s.cur]));
    TickSpread(s, s');
    if TimeUp(s) {
      var b := SliceEnd(s, s');
      hide Tick, Rest, Cost;
      assert FairTask(s', s'.cur);
      RestWhole(Cost(s'.task[s'.cur]));
      forall k | 0 <= k < |s.task| ensures s'.vmin <= s'.task[k].vrt + WINDOW {
        assert s.vmin <= s.task[k].vrt + WINDOW && s.task[b].vrt <= s.task[k].vrt + WINDOW;
      }
    } else {
      MidSlice(s, s');
      hide Tick, Rest, Cost;
    }
  }

  lemma RestWhole(d: nat)
    ensures Rest(0, d) == SLICE * d
  {
  }

  lemma TickSpread(s: St, s': St)
    requires Fair(s) && Close(s) && SliceFits(s) && OnlyCharged(s, s')
    ensures Close(s')
  {
    RestStep(s.slice, Cost(s.task[s.cur]));
    hide Rest, Cost;
    forall j, k | 0 <= j < |s'.task| && 0 <= k < |s'.task|
      ensures s'.task[j].vrt <= s'.task[k].vrt + WINDOW
    {
      assert s.task[j].vrt <= s.task[k].vrt + WINDOW;
      assert k != s.cur ==> Ahead(s) <= s.task[k].vrt + WINDOW;
    }
  }

  // ---------- whole runs ----------

  ghost predicate Chain(ss: seq<St>) {
    |ss| > 0 && forall i, j | 0 <= i < |ss| - 1 && j == i + 1 :: Tick(ss[i], ss[j])
  }

  /** What one task got in the run. */
  function Got(ss: seq<St>, n: nat, k: nat): int
    requires n < |ss| && k < |ss[0].task| && k < |ss[n].task|
  {
    ss[n].task[k].ticks - ss[0].task[k].ticks
  }

  ghost predicate Started(s: St) { Fair(s) && Close(s) && SliceFits(s) && NoSleeper(s) }

  /** Nothing but charges happened to task `k` up to state `n`. */
  ghost predicate Accounted(ss: seq<St>, n: nat, k: nat) {
    && n < |ss| && k < |ss[0].task| == |ss[n].task|
    && var t, u := ss[0].task[k], ss[n].task[k];
       u.weight == t.weight && u.ticks >= t.ticks && u.vrt == t.vrt + Cost(t) * (u.ticks - t.ticks)
  }

  /** The spread stays inside the window for ever, and the clamp for sleepers never fires. */
  lemma {:induction false} CloseForever(ss: seq<St>, n: nat)
    requires Chain(ss) && Started(ss[0]) && n < |ss|
    ensures Started(ss[n]) && forall k | 0 <= k < |ss[0].task| :: Accounted(ss, n, k)
    ensures Total(ss[n].task) == Total(ss[0].task) + n
  {
    hide Close, SliceFits, NoSleeper, FairTask;
    if n > 0 {
      CloseForever(ss, n - 1);
      TickClose(ss[n - 1], ss[n]);
      TotalStep(ss[n - 1], ss[n]);
      forall k | 0 <= k < |ss[0].task| ensures Accounted(ss, n, k) {
        assert Accounted(ss, n - 1, k);
        ChargeMore(Cost(ss[0].task[k]), ss[n - 1].task[k].ticks - ss[0].task[k].ticks);
      }
    }
  }

  lemma ChargeMore(d: nat, t: nat)
    ensures d * (t + 1) == d * t + d && d * 0 == 0
  {
  }

  /** If the slice in progress does not fit, the spread is outside the window when that slice ends. */
  lemma {:induction false} NotClose(ss: seq<St>)
    requires Chain(ss) && Fair(ss[0]) && NoSleeper(ss[0]) && !SliceFits(ss[0]) && |ss| > SLICE - ss[0].slice
    ensures !Close(ss[SLICE - ss[0].slice])
    decreases SLICE - ss[0].slice
  {
    var s, s' := ss[0], ss[1];
    var k :| 0 <= k < |s.task| && k != s.cur && Ahead(s) > s.task[k].vrt + WINDOW;
    assert Tick(s, s');
    TickFair(s, s');
    RestStep(s.slice, Cost(s.task[s.cur]));
    if s.slice == SLICE - 1 {
      assert s'.task[s.cur].vrt > s'.task[k].vrt + WINDOW;
    } else {
      assert FairTask(s, s.cur);
      assert Ahead(s') == Ahead(s) && s'.task[k].vrt == s.task[k].vrt;
      LaterChain(ss);
      NotClose(Later(ss));
    }
  }

  function Later(ss: seq<St>): seq<St>
    requires |ss| > 0
  {
    ss[1..]
  }

  lemma LaterChain(ss: seq<St>)
    requires Chain(ss) && |ss| > 1
    ensures Chain(Later(ss))
  {
    var r := Later(ss);
    forall i, j | 0 <= i < |r| - 1 && j == i + 1 ensures Tick(r[i], r[j]) { assert Tick(ss[i + 1], ss[j + 1]); }
  }

  // ---------- ticks ----------

  function Total(task: seq<Task>): nat {
    if task == [] then 0 else Total(task[..|task| - 1]) + task[|task| - 1].ticks
  }

  lemma {:induction false} TotalUpdate(task: seq<Task>, task': seq<Task>, c: int)
    requires |task| == |task'|
    requires forall k | 0 <= k < |task| :: task'[k].ticks == task[k].ticks + (if k == c then 1 else 0)
    ensures Total(task') == Total(task) + (if 0 <= c < |task| then 1 else 0)
    decreases |task|
  {
    if task != [] { TotalUpdate(task[..|task| - 1], task'[..|task| - 1], c); }
  }

  lemma TotalStep(s: St, s': St)
    requires Shaped(s) && s.cur >= 0 && OnlyCharged(s, s')
    ensures Total(s'.task) == Total(s.task) + 1
  {
    TotalUpdate(s.task, s'.task, s.cur);
  }

  lemma {:induction false} TotalBound(a: seq<Task>, b: seq<Task>, l: nat)
    requires |a| == |b| && forall k | 0 <= k < |a| :: b[k].ticks <= a[k].ticks + l
    ensures Total(b) <= Total(a) + |a| * l
    decreases |a|
  {
    if a != [] {
      var n := |a| - 1;
      TotalBound(a[..n], b[..n], l);
      ChargeMore(l, n);
      assert (n + 1) * l == n * l + l;
    }
  }

  /** Weighted with their cost, the ticks of any two tasks differ by at most two windows. */
  lemma Shares(ss: seq<St>, n: nat, i: nat, j: nat)
    requires Chain(ss) && Started(ss[0]) && n < |ss| && i < |ss[0].task| && j < |ss[0].task|
    ensures |ss[n].task| == |ss[0].task| && Got(ss, n, i) >= 0 && Got(ss, n, j) >= 0
    ensures Cost(ss[0].task[i]) * Got(ss, n, i) <= Cost(ss[0].task[j]) * Got(ss, n, j) + 2 * WINDOW
  {
    hide Fair, SliceFits, NoSleeper;
    CloseForever(ss, n);
    assert Accounted(ss, n, i) && Accounted(ss, n, j);
    assert ss[n].task[i].vrt <= ss[n].task[j].vrt + WINDOW;
    assert ss[0].task[j].vrt <= ss[0].task[i].vrt + WINDOW;
  }

  function Abs(x: int): nat { if x < 0 then -x else x }

  /** The ticks set against the weights: how far two tasks are from shares in proportion to their weights. */
  function Off(ss: seq<St>, n: nat, i: nat, j: nat): int
    requires n < |ss| && i < |ss[0].task| && i < |ss[n].task| && j < |ss[0].task| && j < |ss[n].task|
  {
    Weight(ss[0].task[j]) * Got(ss, n, i) - Weight(ss[0].task[i]) * Got(ss, n, j)
  }

  lemma Algebra(ci: nat, cj: nat, wi: nat, wj: nat, ti: int, tj: int)
    ensures ci * cj * (wj * ti - wi * tj) == (ci * ti - cj * tj) * (wj * cj) + cj * tj * (wj * cj - wi * ci)
  {
    var x, y, a, b := ci * ti, cj * tj, wi * ci, wj * cj;
    assert ci * cj * (wj * ti) == x * b;
    assert ci * cj * (wi * tj) == y * a;
    assert ci * cj * (wj * ti - wi * tj) == ci * cj * (wj * ti) - ci * cj * (wi * tj);
    assert (x - y) * b + y * (b - a) == x * b - y * a;
  }

  /** Where weight times cost comes out equal, the shares are in proportion to the weights up to a constant. */
  lemma InProportion(ss: seq<St>, n: nat, i: nat, j: nat)
    requires Chain(ss) && Started(ss[0]) && n < |ss| && i < |ss[0].task| && j < |ss[0].task|
    requires Weight(ss[0].task[i]) * Cost(ss[0].task[i]) == Weight(ss[0].task[j]) * Cost(ss[0].task[j])
    ensures |ss[n].task| == |ss[0].task|
    ensures Cost(ss[0].task[i]) * Cost(ss[0].task[j]) * Abs(Off(ss, n, i, j)) <=
            2 * WINDOW * (Weight(ss[0].task[j]) * Cost(ss[0].task[j]))
  {
    hide Cost, Weight, Started, Chain;
    Shares(ss, n, i, j);
    Shares(ss, n, j, i);
    Ratio(Cost(ss[0].task[i]), Cost(ss[0].task[j]), Weight(ss[0].task[i]), Weight(ss[0].task[j]), Got(ss, n, i),
      Got(ss, n, j));
  }

  lemma Ratio(ci: nat, cj: nat, wi: nat, wj: nat, ti: int, tj: int)
    requires ci * ti <= cj * tj + 2 * WINDOW && cj * tj <= ci * ti + 2 * WINDOW && wi * ci == wj * cj
    ensures ci * cj * Abs(wj * ti - wi * tj) <= 2 * WINDOW * (wj * cj)
  {
    Algebra(ci, cj, wi, wj, ti, tj);
    assert cj * tj * (wj * cj - wi * ci) == 0;
    MulBound(ci * ti - cj * tj, wj * cj, 2 * WINDOW);
    AbsMul(ci * cj, wj * ti - wi * tj);
  }

  lemma MulBound(d: int, b: nat, m: nat)
    requires 0 - m <= d <= m
    ensures 0 - m * b <= d * b <= m * b
  {
  }

  lemma AbsMul(a: nat, x: int)
    ensures a * Abs(x) == Abs(a * x)
  {
    if x < 0 { assert a * (-x) == -(a * x); }
  }

  /** Where it does not, the distance grows beyond every bound. */
  lemma OutOfProportion(ss: seq<St>, n: nat, i: nat, j: nat, bound: nat)
    requires Chain(ss) && Started(ss[0]) && n < |ss| && i < |ss[0].task| && j < |ss[0].task|
    requires forall k | 0 <= k < |ss[0].task| :: Cost(ss[0].task[k]) >= 1
    requires Weight(ss[0].task[i]) * Cost(ss[0].task[i]) != Weight(ss[0].task[j]) * Cost(ss[0].task[j])
    requires n > Needed(|ss[0].task|, Margin(Cost(ss[0].task[i]), Cost(ss[0].task[j]), Weight(ss[0].task[j]), bound))
    ensures |ss[n].task| == |ss[0].task| && Abs(Off(ss, n, i, j)) > bound
  {
    var ci, cj, wi, wj := Cost(ss[0].task[i]), Cost(ss[0].task[j]), Weight(ss[0].task[i]), Weight(ss[0].task[j]);
    hide Cost, Weight, Started, Chain, Needed, Margin;
    Enough(ss, n, j, Margin(ci, cj, wj, bound));
    Shares(ss, n, i, j);
    Shares(ss, n, j, i);
    NoRatio(ci, cj, wi, wj, Got(ss, n, i), Got(ss, n, j), bound);
  }

  /** How far a task has to get before its distance from the proportion passes the bound. */
  function Margin(ci: nat, cj: nat, wj: nat, bound: nat): nat {
    2 * WINDOW * (wj * cj) + ci * cj * bound
  }

  lemma NoRatio(ci: nat, cj: nat, wi: nat, wj: nat, ti: int, tj: int, bound: nat)
    requires ci * ti <= cj * tj + 2 * WINDOW && cj * tj <= ci * ti + 2 * WINDOW && wi * ci != wj * cj
    requires cj * tj > Margin(ci, cj, wj, bound)
    ensures Abs(wj * ti - wi * tj) > bound
  {
    var x, y, a, b, c, o := ci * ti, cj * tj, wi * ci, wj * cj, ci * cj, wj * ti - wi * tj;
    Algebra(ci, cj, wi, wj, ti, tj);
    Distance(x, y, a, b, c * bound);
    AbsMul(c, o);
    if Abs(o) <= bound { MulMono(c, Abs(o), bound); }
  }

  lemma Distance(x: int, y: int, a: nat, b: nat, m: nat)
    requires x <= y + 2 * WINDOW && y <= x + 2 * WINDOW && a != b && y > 2 * WINDOW * b + m
    ensures Abs((x - y) * b + y * (b - a)) > m
  {
    MulBound(x - y, b, 2 * WINDOW);
    FarOut(y, b - a);
  }

  lemma MulMono(c: nat, x: nat, y: nat)
    requires x <= y
    ensures c * x <= c * y
  {
  }

  lemma FarOut(y: int, d: int)
    requires y > 0 && d != 0
    ensures d > 0 ==> y * d >= y
    ensures d < 0 ==> y * d <= 0 - y
  {
    if d > 0 { AtLeast(d, y); } else { AtLeast(-d, y); assert y * d == -(-d * y); }
  }

  /** So many ticks that every one of `size` tasks has been charged more than `m`. */
  function Needed(size: nat, m: nat): nat { size * (2 * WINDOW + m) }

  /** After enough ticks every task has been charged more than `m`. */
  lemma Enough(ss: seq<St>, n: nat, j: nat, m: nat)
    requires Chain(ss) && Started(ss[0]) && n < |ss| && j < |ss[0].task| && n > Needed(|ss[0].task|, m)
    requires forall k | 0 <= k < |ss[0].task| :: Cost(ss[0].task[k]) >= 1
    ensures |ss[n].task| == |ss[0].task| && Cost(ss[0].task[j]) * Got(ss, n, j) > m
  {
    CloseForever(ss, n);
    Shares(ss, n, j, j);
    var y := Cost(ss[0].task[j]) * Got(ss, n, j);
    if y <= m {
      forall k | 0 <= k < |ss[0].task| ensures ss[n].task[k].ticks <= ss[0].task[k].ticks + (2 * WINDOW + m) {
        Shares(ss, n, k, j);
        AtLeast(Cost(ss[0].task[k]), Got(ss, n, k));
      }
      TotalBound(ss[0].task, ss[n].task, 2 * WINDOW + m);
    }
  }

  lemma AtLeast(c: nat, t: int)
    requires c >= 1 && t >= 0
    ensures c * t >= t
  {
  }

  // ---------- runs exist ----------

  /** The best of the first `m` places of the round; 0 when none of them is eligible. */
  lemma {:induction false} BestOf(ts: seq<Task>, rr: nat, m: nat) returns (at: nat)
    requires m <= |ts|
    ensures at <= m
    ensures at == 0 ==> forall j | 1 <= j <= m :: !Eligible(ts[Place(rr, j, |ts|)])
    ensures at > 0 ==>
              var b := ts[Place(rr, at, |ts|)];
              && Eligible(b)
              && (forall j | 1 <= j <= m :: Eligible(ts[Place(rr, j, |ts|)]) ==> !Better(ts[Place(rr, j, |ts|)], b))
              && (forall j | 1 <= j < at :: Eligible(ts[Place(rr, j, |ts|)]) ==> Better(b, ts[Place(rr, j, |ts|)]))
  {
    if m == 0 { return 0; }
    at := BestOf(ts, rr, m - 1);
    var t := ts[Place(rr, m, |ts|)];
    if !Eligible(t) { return; }
    if at == 0 { return m; }
    var b := ts[Place(rr, at, |ts|)];
    if !Better(t, b) { return; }
    forall j | 1 <= j < m && Eligible(ts[Place(rr, j, |ts|)])
      ensures Better(t, ts[Place(rr, j, |ts|)])
    {
      BetterChain(t, b, ts[Place(rr, j, |ts|)]);
    }
    at := m;
  }

  lemma ChoiceExists(ts: seq<Task>, rr: nat) returns (b: int)
    requires |ts| > 0 ==> rr < |ts|
    ensures Choice(ts, rr, b)
  {
    var at := BestOf(ts, rr, |ts|);
    if at > 0 {
      assert Picked(ts, rr, at);
      return Place(rr, at, |ts|);
    }
    forall k | 0 <= k < |ts| ensures !Eligible(ts[k]) { var j := InRound(rr, k, |ts|); }
    b := -1;
  }

  predicate Settled(s: St) {
    Shaped(s) && forall k | 0 <= k < |s.task| :: s.task[k].on <==> k == s.cur
  }

  lemma TickExists(s: St) returns (s': St)
    requires Settled(s)
    ensures Tick(s, s') && Settled(s')
  {
    if !TimeUp(s) {
      s' := s.(task := Charged(s), slice := s.slice + 1);
    } else {
      var b := ChoiceExists(Charged(s), s.rr);
      ChoiceRange(Charged(s), s.rr, b);
      AfterPickValid(s, b);
      s' := AfterPick(s, b);
    }
  }

  /** From every state there are runs of every length. */
  lemma {:induction false} ChainExists(s: St, n: nat) returns (ss: seq<St>)
    requires Settled(s)
    ensures Chain(ss) && |ss| == n + 1 && ss[0] == s && Settled(ss[n])
  {
    if n == 0 { return [s]; }
    var rr := ChainExists(s, n - 1);
    var t := TickExists(rr[n - 1]);
    ss := rr + [t];
    forall i, j | 0 <= i < n && j == i + 1 ensures Tick(ss[i], ss[j]) { assert i < n - 1 ==> Tick(rr[i], rr[j]); }
  }

  // ---------- two runs that break the promise ----------

  /** Two tasks of weight 1024; the one at its first tick is a whole window ahead of the other. */
  function LateSlice(): St {
    St([Task(true, true, 0, 0, WINDOW, 1024, 0), Task(true, false, 0, 0, 0, 1024, 0)], 0, 0, 0, 0)
  }

  /** The spread is inside the window and ten ticks later it is not. */
  lemma WindowLeft() returns (ss: seq<St>)
    ensures Chain(ss) && |ss| == SLICE + 1 && Fair(ss[0]) && Close(ss[0]) && NoSleeper(ss[0]) && !SliceFits(ss[0])
    ensures !Close(ss[SLICE])
  {
    var s := LateSlice();
    assert Cost(s.task[0]) == 1024 && Cost(s.task[1]) == 1024;
    assert FairTask(s, 0) && FairTask(s, 1);
    RestWhole(Cost(s.task[0]));
    assert Ahead(s) > s.task[1].vrt + WINDOW;
    ss := ChainExists(s, SLICE);
    NotClose(ss);
  }

  /** The weights of nice -20 and nice 0: 1048576 / 88761 is 11, so the first one is charged too little. */
  function TwoWeights(): St {
    St([Task(true, true, 0, 0, 0, 88761, 0), Task(true, false, 0, 0, 0, 1024, 0)], 0, 0, 0, 0)
  }

  /** However large the bound, in time the shares are further than that from the proportion of the weights. */
  lemma ProportionLeft(bound: nat) returns (ss: seq<St>, n: nat)
    ensures Chain(ss) && Started(ss[0]) && ss[0] == TwoWeights() && n < |ss| && |ss[n].task| == 2
      && Abs(Off(ss, n, 0, 1)) > bound
  {
    var s := TwoWeights();
    TwoWeightsStart();
    n := Needed(2, Margin(11, 1024, 1024, bound)) + 1;
    ss := ChainExists(s, n);
    OutOfProportion(ss, n, 0, 1, bound);
  }

  lemma TwoWeightsStart()
    ensures var s := TwoWeights(); Started(s) && Settled(s) && Cost(s.task[0]) == 11 && Cost(s.task[1]) == 1024
  {
    var s := TwoWeights();
    assert Cost(s.task[0]) == 11 && Cost(s.task[1]) == 1024;
    assert FairTask(s, 0) && FairTask(s, 1);
    RestWhole(Cost(s.task[0]));
  }
}

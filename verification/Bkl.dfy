/**
  The big kernel lock: a ticket lock on two 32-bit counters, taken, tried, dropped and yielded by
  any number of cpus in any interleaving. Every one of these runs with interrupts off, so a cpu is
  at one place in them at a time.
  */
module Bkl {

  const W: nat := 0x1_0000_0000

  datatype Pc =
    | Out               // no ticket
    | Loaded(t: nat)    // bkl_try between reading tk_serve and the compare and exchange
    | Want(t: nat)      // bkl_take, spinning
    | Held              // bkl set
    | Leaving(again: bool)   // bkl cleared, tk_serve still to be stored; bkl_yield comes back
    | Back              // bkl_yield between drop and take

  datatype Sys = Sys(next: nat, serve: nat, pc: seq<Pc>)

  datatype Step =
    | Fetch(c: nat) | See(c: nat) | Load(c: nat) | Cas(c: nat)
    | Drop(c: nat) | Yield(c: nat) | Store(c: nat)

  predicate Enabled(s: Sys, st: Step) {
    && st.c < |s.pc|
    && match st
       case Fetch(c) => s.pc[c] == Out || s.pc[c] == Back
       case See(c) => s.pc[c] == Want(s.serve)
       case Load(c) => s.pc[c] == Out
       case Cas(c) => s.pc[c].Loaded?
       case Drop(c) => s.pc[c] == Held
       case Yield(c) => s.pc[c] == Held && (s.next - s.serve) % W >= 2
       case Store(c) => s.pc[c].Leaving?
  }

  function Next(s: Sys, st: Step): Sys
    requires Enabled(s, st)
  {
    match st
    case Fetch(c) => s.(next := (s.next + 1) % W, pc := s.pc[c := Want(s.next)])
    case See(c) => s.(pc := s.pc[c := Held])
    case Load(c) => s.(pc := s.pc[c := Loaded(s.serve)])
    case Cas(c) => if s.next == s.pc[c].t then s.(next := (s.next + 1) % W, pc := s.pc[c := Held])
      else s.(pc := s.pc[c := Out])
    case Drop(c) => s.(pc := s.pc[c := Leaving(false)])
    case Yield(c) => s.(pc := s.pc[c := Leaving(true)])
    case Store(c) => s.(serve := (s.serve + 1) % W, pc := s.pc[c := if s.pc[c].again then Back else Out])
  }

  // ---------- the queue behind the counters ----------

  /** The cpus with a ticket in ticket order, and for each try how many tickets were served since it looked. */
  datatype Queue = Queue(q: seq<nat>, lag: map<nat, nat>)

  /** One more ticket served: every try that is under way looked one ticket longer ago. */
  function Later(lag: map<nat, nat>): map<nat, nat> {
    map c | c in lag :: lag[c] + 1
  }

  /** What a step does to the queue. */
  function Moved(s: Sys, a: Queue, st: Step): Queue
    requires Enabled(s, st)
  {
    match st
    case Fetch(c) => a.(q := a.q + [c])
    case See(_) => a
    case Load(c) => a.(lag := a.lag[c := 0])
    case Cas(c) => Queue(if s.next == s.pc[c].t then a.q + [c] else a.q, a.lag - {c})
    case Drop(_) => a
    case Yield(_) => a
    case Store(_) => Queue(if a.q == [] then [] else a.q[1..], Later(a.lag))
  }

  predicate HasTicket(p: Pc) { p.Want? || p.Held? || p.Leaving? }

  /** The ticket at place `i` of the queue. */
  predicate PlaceOk(s: Sys, a: Queue, i: nat) {
    i < |a.q| ==>
      && a.q[i] < |s.pc| && HasTicket(s.pc[a.q[i]])
      && (s.pc[a.q[i]].Want? ==> s.pc[a.q[i]].t == (s.serve + i) % W)
      && (!s.pc[a.q[i]].Want? ==> i == 0)
  }

  predicate CpuOk(s: Sys, a: Queue, c: nat) {
    c < |s.pc| ==>
      && (HasTicket(s.pc[c]) ==> c in a.q)
      && (s.pc[c].Loaded? <==> c in a.lag)
      && (s.pc[c].Loaded? ==> s.pc[c].t == (s.serve - a.lag[c]) % W)
  }

  predicate NotTwice(q: seq<nat>) {
    forall i, j | 0 <= i < j < |q| :: q[i] != q[j]
  }

  /** The counters stand for the queue: its tickets are distinct and fill [tk_serve, tk_next). */
  ghost predicate Rep(s: Sys, a: Queue) {
    && |s.pc| < W && s.next < W && s.serve < W && s.next == (s.serve + |a.q|) % W && |a.q| <= |s.pc|
    && NotTwice(a.q)
    && (forall i: nat :: PlaceOk(s, a, i))
    && (forall c: nat :: CpuOk(s, a, c))
  }

  /** No try is so old that all the tickets went round since it looked. */
  ghost predicate Timely(a: Queue) {
    forall c | c in a.lag :: a.lag[c] + |a.q| < W
  }

  lemma {:induction false} Below(q: seq<nat>, n: nat)
    requires NotTwice(q) && forall i | 0 <= i < |q| :: q[i] < n
    ensures |q| <= n
    decreases n
  {
    if q != [] {
      assert q[0] < n;
      if k :| 0 <= k < |q| && q[k] == n - 1 {
        Below(q[..k] + q[k + 1..], n - 1);
      } else {
        Below(q, n - 1);
      }
    }
  }

  /** A cpu's place: a cpu without a ticket is not in the queue, one with the lock is at its head. */
  lemma Absent(s: Sys, a: Queue, c: nat)
    requires Rep(s, a) && c < |s.pc| && !HasTicket(s.pc[c])
    ensures c !in a.q
  {
    forall i | 0 <= i < |a.q| ensures a.q[i] != c { assert PlaceOk(s, a, i); }
  }

  lemma AtHead(s: Sys, a: Queue, c: nat)
    requires Rep(s, a) && c < |s.pc| && (s.pc[c].Held? || s.pc[c].Leaving? || s.pc[c] == Want(s.serve))
    ensures |a.q| > 0 && a.q[0] == c
  {
    assert CpuOk(s, a, c);
    var i :| 0 <= i < |a.q| && a.q[i] == c;
    assert PlaceOk(s, a, i);
    Small(s.serve, i);
  }

  lemma Small(x: nat, i: nat)
    requires x < W && i < W && (x + i) % W == x
    ensures i == 0
  {
  }

  /** The compare and exchange goes through exactly when the queue and the wait together are a multiple of 2^32. */
  lemma CasGoesThrough(s: Sys, a: Queue, c: nat)
    requires Rep(s, a) && c < |s.pc| && s.pc[c].Loaded?
    ensures c in a.lag && (s.next == s.pc[c].t <==> (|a.q| + a.lag[c]) % W == 0)
  {
    assert CpuOk(s, a, c);
  }

  lemma JoinRep(s: Sys, a: Queue, c: nat, p: Pc, lag: map<nat, nat>)
    requires Rep(s, a) && c < |s.pc| && !HasTicket(s.pc[c]) && (p == Want(s.next) || (p == Held && a.q == []))
      && lag == a.lag - {c}
    ensures Rep(Sys((s.next + 1) % W, s.serve, s.pc[c := p]), Queue(a.q + [c], lag))
  {
    var s', a' := Sys((s.next + 1) % W, s.serve, s.pc[c := p]), Queue(a.q + [c], lag);
    Absent(s, a, c);
    forall i: nat
      ensures PlaceOk(s', a', i)
    {
      assert PlaceOk(s, a, i);
    }
    forall d: nat
      ensures CpuOk(s', a', d)
    {
      assert CpuOk(s, a, d);
    }
    RoomLeft(s, a, c);
  }

  lemma RoomLeft(s: Sys, a: Queue, c: nat)
    requires Rep(s, a) && c < |s.pc| && c !in a.q
    ensures |a.q| < |s.pc|
  {
    var q := a.q + [c];
    forall i | 0 <= i < |q| ensures q[i] < |s.pc| { assert PlaceOk(s, a, i); }
    Below(q, |s.pc|);
  }

  lemma ServeRep(s: Sys, a: Queue, c: nat)
    requires Rep(s, a) && Enabled(s, Store(c))
    ensures Rep(Next(s, Store(c)), Moved(s, a, Store(c)))
  {
    var s', a' := Next(s, Store(c)), Moved(s, a, Store(c));
    AtHead(s, a, c);
    forall i: nat
      ensures PlaceOk(s', a', i)
    {
      assert PlaceOk(s, a, i + 1);
    }
    forall d: nat
      ensures CpuOk(s', a', d)
    {
      assert CpuOk(s, a, d);
    }
  }

  /** Steps that move nobody in the queue. */
  lemma StayRep(s: Sys, a: Queue, c: nat, p: Pc, lag: map<nat, nat>)
    requires Rep(s, a) && c < |s.pc|
    requires HasTicket(s.pc[c]) ==> a.q != [] && a.q[0] == c && (p.Held? || p.Leaving?)
    requires !HasTicket(s.pc[c]) ==> !HasTicket(p)
    requires lag == (if p.Loaded? then a.lag[c := 0] else a.lag - {c}) && (p.Loaded? ==> p.t == s.serve)
    ensures Rep(s.(pc := s.pc[c := p]), a.(lag := lag))
  {
    var s', a' := s.(pc := s.pc[c := p]), a.(lag := lag);
    forall i: nat
      ensures PlaceOk(s', a', i)
    {
      assert PlaceOk(s, a, i);
    }
    forall d: nat
      ensures CpuOk(s', a', d)
    {
      assert CpuOk(s, a, d);
    }
  }

  /** Every step moves the queue the way a queue moves, provided no try is older than 2^32 tickets. */
  lemma StepRep(s: Sys, a: Queue, st: Step)
    requires Rep(s, a) && Enabled(s, st) && (st.Cas? ==> Timely(a))
    ensures Rep(Next(s, st), Moved(s, a, st))
  {
    hide Rep;
    RepCpu(s, a, st.c);
    match st
    case Fetch(c) => JoinRep(s, a, c, Want(s.next), a.lag);
    case See(c) => AtHead(s, a, c); StayRep(s, a, c, Held, a.lag);
    case Load(c) => StayRep(s, a, c, Loaded(s.serve), a.lag[c := 0]);
    case Cas(c) =>
      CasGoesThrough(s, a, c);
      if s.next == s.pc[c].t { JoinRep(s, a, c, Held, a.lag - {c}); } else { StayRep(s, a, c, Out, a.lag - {c}); }
    case Drop(c) => AtHead(s, a, c); StayRep(s, a, c, Leaving(false), a.lag);
    case Yield(c) => AtHead(s, a, c); StayRep(s, a, c, Leaving(true), a.lag);
    case Store(c) => ServeRep(s, a, c);
  }

  lemma RepCpu(s: Sys, a: Queue, c: nat)
    requires Rep(s, a)
    ensures CpuOk(s, a, c) && s.next < W && s.serve < W && |a.q| <= |s.pc| < W
    ensures c < |s.pc| && !s.pc[c].Loaded? ==> a.lag - {c} == a.lag
  {
    assert CpuOk(s, a, c);
  }

  // ---------- what it is for ----------

  predicate Owns(p: Pc) { p.Held? || p.Leaving? }

  /** At most one cpu has the lock, and its ticket is tk_serve; all tickets are different. */
  lemma OneOwner(s: Sys, a: Queue, c: nat, d: nat)
    requires Rep(s, a) && c < |s.pc| && d < |s.pc| && c != d && HasTicket(s.pc[c]) && HasTicket(s.pc[d])
    ensures !(Owns(s.pc[c]) && Owns(s.pc[d]))
    ensures s.pc[c].Want? && s.pc[d].Want? ==> s.pc[c].t != s.pc[d].t
    ensures Owns(s.pc[c]) && s.pc[d].Want? ==> s.pc[d].t != s.serve
  {
    assert CpuOk(s, a, c) && CpuOk(s, a, d);
    var i :| 0 <= i < |a.q| && a.q[i] == c;
    var j :| 0 <= j < |a.q| && a.q[j] == d;
    assert PlaceOk(s, a, i) && PlaceOk(s, a, j);
    ApartMod(s.serve, i, j);
  }

  lemma ApartMod(x: nat, i: nat, j: nat)
    requires x < W && i < W && j < W && i != j
    ensures (x + i) % W != (x + j) % W && (i > 0 ==> (x + i) % W != x)
  {
  }

  /** bkl_try gets the lock only when nobody has or wants it. */
  lemma TryOnlyFree(s: Sys, a: Queue, c: nat, d: nat)
    requires Rep(s, a) && Timely(a) && Enabled(s, Cas(c)) && Next(s, Cas(c)).pc[c] == Held && d < |s.pc|
    ensures !HasTicket(s.pc[d])
  {
    CasGoesThrough(s, a, c);
    assert CpuOk(s, a, d);
  }

  /** The one way it can go wrong: 2^32 tickets served between the two halves of the try. */
  lemma TryTooOld(s: Sys, a: Queue, c: nat)
    requires Rep(s, a) && Enabled(s, Cas(c))
    ensures c in a.lag
    ensures Next(s, Cas(c)).pc[c] == Held && a.q != [] <==> a.q != [] && (|a.q| + a.lag[c]) % W == 0
  {
    CasGoesThrough(s, a, c);
  }

  /** bkl_yield gives the lock up exactly when somebody waits. */
  lemma YieldWhenWanted(s: Sys, a: Queue, c: nat)
    requires Rep(s, a) && c < |s.pc| && s.pc[c].Held?
    ensures Enabled(s, Yield(c)) <==> |a.q| >= 2
  {
    AtHead(s, a, c);
  }

  // ---------- whole runs ----------

  predicate Runs(s: Sys, run: seq<Step>)
    decreases |run|
  {
    run == [] || (Enabled(s, run[0]) && Runs(Next(s, run[0]), run[1..]))
  }

  function After(s: Sys, run: seq<Step>): Sys
    requires Runs(s, run)
    decreases |run|
  {
    if run == [] then s else After(Next(s, run[0]), run[1..])
  }

  function QueueAfter(s: Sys, a: Queue, run: seq<Step>): Queue
    requires Runs(s, run)
    decreases |run|
  {
    if run == [] then a else QueueAfter(Next(s, run[0]), Moved(s, a, run[0]), run[1..])
  }

  ghost predicate TimelyRun(s: Sys, a: Queue, run: seq<Step>)
    requires Runs(s, run)
    decreases |run|
  {
    run == [] || (Timely(a) && TimelyRun(Next(s, run[0]), Moved(s, a, run[0]), run[1..]))
  }

  /** At boot cpu 0 owns ticket 0. */
  function Boot(n: nat): Sys
    requires n > 0
  {
    Sys(1, 0, [Held] + seq(n - 1, _ => Out))
  }

  lemma BootRep(n: nat)
    requires 0 < n < W
    ensures Rep(Boot(n), Queue([0], map[]))
  {
    var s, a := Boot(n), Queue([0], map[]);
    assert forall i: nat :: PlaceOk(s, a, i);
    assert forall c: nat :: CpuOk(s, a, c);
  }

  function Served(run: seq<Step>): nat {
    if run == [] then 0 else (if run[0].Store? then 1 else 0) + Served(run[1..])
  }

  /** In every run the counters go on standing for the queue. */
  lemma {:induction false} RunRep(s: Sys, a: Queue, run: seq<Step>)
    requires Rep(s, a) && Runs(s, run) && TimelyRun(s, a, run)
    ensures Rep(After(s, run), QueueAfter(s, a, run))
    decreases |run|
  {
    hide Rep, Timely;
    if run != [] {
      StepRep(s, a, run[0]);
      RunRep(Next(s, run[0]), Moved(s, a, run[0]), run[1..]);
    }
  }

  /** First come, first served: whoever is in the queue moves up by one for every ticket served, and by nothing else. */
  lemma {:induction false} InTicketOrder(s: Sys, a: Queue, run: seq<Step>, i: nat)
    requires Rep(s, a) && Runs(s, run) && TimelyRun(s, a, run) && Served(run) <= i < |a.q|
    ensures var q := QueueAfter(s, a, run).q; i - Served(run) < |q| && q[i - Served(run)] == a.q[i]
    decreases |run|
  {
    hide Rep, Timely;
    if run != [] {
      StepRep(s, a, run[0]);
      InTicketOrder(Next(s, run[0]), Moved(s, a, run[0]), run[1..], if run[0].Store? then i - 1 else i);
    }
  }

  // ---------- the one run that goes wrong ----------

  ghost predicate Leads(s: Sys, run: seq<Step>, t: Sys) {
    Runs(s, run) && After(s, run) == t
  }

  lemma Step1(s: Sys, st: Step)
    requires Enabled(s, st)
    ensures Leads(s, [st], Next(s, st))
  {
    var t := Next(s, st);
    assert [st][1..] == [];
    assert Runs(t, []) && After(t, []) == t;
  }

  lemma {:induction false} Then(s: Sys, a: seq<Step>, t: Sys, b: seq<Step>, u: Sys)
    requires Leads(s, a, t) && Leads(t, b, u)
    ensures Leads(s, a + b, u)
    decreases |a|
  {
    if a == [] {
      assert a + b == b;
    } else {
      Then(Next(s, a[0]), a[1..], t, b, u);
      assert (a + b)[0] == a[0] && (a + b)[1..] == a[1..] + b;
    }
  }

  /** Cpu 1 has looked at ticket 1, and the lock is free with ticket `t` next. */
  function Looked(t: nat): Sys { Sys(t, t, [Out, Loaded(1)]) }

  /** Cpu 0 takes the lock. */
  lemma Takes(t: nat)
    requires t < W
    ensures Leads(Looked(t), [Fetch(0)] + [See(0)], Sys((t + 1) % W, t, [Held, Loaded(1)]))
  {
    var s := Looked(t);
    Step1(s, Fetch(0));
    Step1(Next(s, Fetch(0)), See(0));
    assert Next(Next(s, Fetch(0)), See(0)).pc == [Held, Loaded(1)];
    Then(s, [Fetch(0)], Next(s, Fetch(0)), [See(0)], Sys((t + 1) % W, t, [Held, Loaded(1)]));
  }

  /** And gives it back. */
  lemma Gives(t: nat, n: nat, p: Pc)
    requires t < W
    ensures Leads(Sys(n, t, [Held, p]), [Drop(0)] + [Store(0)], Sys(n, (t + 1) % W, [Out, p]))
  {
    var s := Sys(n, t, [Held, p]);
    Step1(s, Drop(0));
    Step1(Next(s, Drop(0)), Store(0));
    assert Next(Next(s, Drop(0)), Store(0)).pc == [Out, p];
    Then(s, [Drop(0)], Next(s, Drop(0)), [Store(0)], Sys(n, (t + 1) % W, [Out, p]));
  }

  /** `n` rounds of that. */
  lemma {:induction false} Rounds(n: nat) returns (run: seq<Step>)
    requires n < W
    ensures Leads(Looked(1), run, Looked((1 + n) % W))
  {
    if n == 0 { return []; }
    var before := Rounds(n - 1);
    Takes(n);
    Gives(n, (n + 1) % W, Loaded(1));
    Then(Looked(n), [Fetch(0)] + [See(0)], Sys((n + 1) % W, n, [Held, Loaded(1)]), [Drop(0)] + [Store(0)],
      Looked((n + 1) % W));
    run := before + (([Fetch(0)] + [See(0)]) + ([Drop(0)] + [Store(0)]));
    Then(Looked(1), before, Looked(n), ([Fetch(0)] + [See(0)]) + ([Drop(0)] + [Store(0)]), Looked((n + 1) % W));
  }

  /**
    From boot on two cpus: cpu 1 looks and waits while cpu 0 takes the lock 2^32 times, the last time
    without giving it back. Then cpu 1 gets it too.
    */
  lemma TwoOwners() returns (run: seq<Step>)
    ensures Leads(Boot(2), run, Sys(2, 0, [Held, Held]))
  {
    assert Boot(2).pc == [Held, Out];
    Gives(0, 1, Out);
    var free := Sys(1, 1, [Out, Out]);
    Step1(free, Load(1));
    assert Next(free, Load(1)).pc == [Out, Loaded(1)];
    Then(Boot(2), [Drop(0)] + [Store(0)], free, [Load(1)], Looked(1));
    var round := Rounds(W - 1);
    run := ([Drop(0)] + [Store(0)]) + [Load(1)] + round;
    Then(Boot(2), ([Drop(0)] + [Store(0)]) + [Load(1)], Looked(1), round, Looked(0));
    Takes(0);
    var held := Sys(1, 0, [Held, Loaded(1)]);
    Then(Boot(2), run, Looked(0), [Fetch(0)] + [See(0)], held);
    Step1(held, Cas(1));
    assert Next(held, Cas(1)).pc == [Held, Held];
    Then(Boot(2), run + ([Fetch(0)] + [See(0)]), held, [Cas(1)], Sys(2, 0, [Held, Held]));
    run := run + ([Fetch(0)] + [See(0)]) + [Cas(1)];
  }
}

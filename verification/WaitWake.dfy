/**
  Sleeping until a condition holds, as single steps: a waiter queues itself, looks at the condition
  again and only then blocks; a waker makes the condition true, looks at the head of the queue
  without a lock, and then marks and readies everybody on it.
  */
module WaitWake {

  /** Where a waiter is in its loop around wq_wait. */
  datatype Pc =
    | First      // about to look at the condition, not queued yet
    | Join       // condition false, about to queue itself
    | Look       // queued, about to look at the condition
    | Sleep      // condition was false, about to enter the locked part of wq_sleep
    | Asleep     // in the loop that yields while the task is blocked
    | Reset      // about to clear the mark
    | Gone       // condition was true

  datatype Waiter = Waiter(pc: Pc, fired: bool, blocked: bool)

  /** A waker has made the condition true and has still to call wq_wake, or has found the queue not empty. */
  datatype Waker = Idle | Due | Marking

  datatype Sys = Sys(cond: bool, waiter: seq<Waiter>, waker: seq<Waker>)

  predicate Queued(w: Waiter) { w.pc != First && w.pc != Join && w.pc != Gone }

  ghost predicate SomebodyQueued(s: Sys) { exists i | 0 <= i < |s.waiter| :: Queued(s.waiter[i]) }

  datatype Step =
    | Turn(i: nat)        // the next step of waiter i
    | Timeout(i: nat)
    | Produce(k: nat)     // a waker makes the condition true
    | Consume             // somebody makes it false again
    | TestHead(k: nat)
    | Wake(k: nat)

  predicate Enabled(s: Sys, st: Step) {
    match st
    case Turn(i) => i < |s.waiter| && s.waiter[i].pc != Gone && (s.waiter[i].pc == Asleep ==> !s.waiter[i].blocked)
    case Timeout(i) => i < |s.waiter|
    case Produce(k) => k < |s.waker| && s.waker[k] == Idle
    case Consume => true
    case TestHead(k) => k < |s.waker| && s.waker[k] == Due
    case Wake(k) => k < |s.waker| && s.waker[k] == Marking
  }

  function Turned(w: Waiter, cond: bool): Waiter {
    match w.pc
    case First => w.(pc := if cond then Gone else Join)
    case Join => w.(pc := Look)
    case Look => w.(pc := if cond then Gone else Sleep)
    case Sleep => if w.fired then w.(pc := Reset) else w.(pc := Asleep, blocked := true)
    case Asleep => if w.blocked then w else w.(pc := Reset)
    case Reset => w.(pc := Look, fired := false)
    case Gone => w
  }

  /** What the locked loop of wq_wake does to one waiter. */
  function Marked(w: Waiter): Waiter {
    if Queued(w) then w.(fired := true, blocked := false) else w
  }

  function MarkAll(ws: seq<Waiter>): (r: seq<Waiter>)
    ensures |r| == |ws| && forall i | 0 <= i < |ws| :: r[i] == Marked(ws[i])
  {
    seq(|ws|, i requires 0 <= i < |ws| => Marked(ws[i]))
  }

  ghost function Next(s: Sys, st: Step): Sys
    requires Enabled(s, st)
  {
    match st
    case Turn(i) => s.(waiter := s.waiter[i := Turned(s.waiter[i], s.cond)])
    case Timeout(i) => s.(waiter := s.waiter[i := s.waiter[i].(blocked := false)])
    case Produce(k) => s.(cond := true, waker := s.waker[k := Due])
    case Consume => s.(cond := false)
    case TestHead(k) => s.(waker := s.waker[k := if SomebodyQueued(s) then Marking else Idle])
    case Wake(k) => s.(waiter := MarkAll(s.waiter), waker := s.waker[k := Idle])
  }

  ghost predicate WakePending(s: Sys) { exists k | 0 <= k < |s.waker| :: s.waker[k] != Idle }

  /** A waiter that sleeps, or is bound to, while the condition holds has a wake coming. */
  ghost predicate WaiterOk(s: Sys, i: nat) {
    i < |s.waiter| ==>
      var w := s.waiter[i];
      && (w.blocked ==> w.pc == Asleep)
      && (s.cond && ((w.pc == Sleep && !w.fired) || w.blocked) ==> WakePending(s))
  }

  ghost predicate Inv(s: Sys) { forall i: nat :: WaiterOk(s, i) }

  lemma StepWaiter(s: Sys, st: Step, i: nat)
    requires Inv(s) && Enabled(s, st)
    ensures WaiterOk(Next(s, st), i)
  {
    assert WaiterOk(s, i);
    var s' := Next(s, st);
    if st.Produce? { assert s'.waker[st.k] == Due; }
    if WakePending(s) && !st.Wake? {
      var k :| 0 <= k < |s.waker| && s.waker[k] != Idle;
      assert s'.waker[k] != Idle || (st.TestHead? && st.k == k && !SomebodyQueued(s));
      if i < |s.waiter| && Queued(s.waiter[i]) { assert SomebodyQueued(s); }
    }
  }

  lemma StepInv(s: Sys, st: Step)
    requires Inv(s) && Enabled(s, st)
    ensures Inv(Next(s, st))
  {
    var t := Next(s, st);
    forall i: nat ensures WaiterOk(t, i) { StepWaiter(s, st, i); }
  }

  ghost predicate Runs(s: Sys, run: seq<Step>)
    decreases |run|
  {
    run == [] || (Enabled(s, run[0]) && Runs(Next(s, run[0]), run[1..]))
  }

  ghost function After(s: Sys, run: seq<Step>): Sys
    requires Runs(s, run)
    decreases |run|
  {
    if run == [] then s else After(Next(s, run[0]), run[1..])
  }

  ghost predicate Init(s: Sys) {
    && (forall i | 0 <= i < |s.waiter| :: s.waiter[i] == Waiter(First, false, false))
    && (forall k | 0 <= k < |s.waker| :: s.waker[k] == Idle)
  }

  lemma {:induction false} RunInv(s: Sys, run: seq<Step>)
    requires Inv(s) && Runs(s, run)
    ensures Inv(After(s, run))
    decreases |run|
  {
    if run != [] {
      StepInv(s, run[0]);
      RunInv(Next(s, run[0]), run[1..]);
    }
  }

  /** No lost wakeup: in no run is the condition true, a waiter blocked, and nobody left to wake it. */
  lemma NoLostWakeup(s: Sys, run: seq<Step>, i: nat)
    requires Init(s) && Runs(s, run) && i < |After(s, run).waiter|
    requires After(s, run).cond && After(s, run).waiter[i].blocked
    ensures WakePending(After(s, run))
  {
    forall j: nat ensures WaiterOk(s, j) {}
    RunInv(s, run);
    assert WaiterOk(After(s, run), i);
  }

  /** The wake that is coming arrives: a waker that is due finds the queue not empty and readies all that wait. */
  lemma WakeArrives(s: Sys, k: nat, i: nat)
    requires Inv(s) && i < |s.waiter| && s.waiter[i].blocked && k < |s.waker| && s.waker[k] == Due
    ensures var t := Next(s, TestHead(k));
            Enabled(t, Wake(k)) && !Next(t, Wake(k)).waiter[i].blocked && Next(t, Wake(k)).waiter[i].fired
  {
    assert WaiterOk(s, i) && Queued(s.waiter[i]);
  }
}

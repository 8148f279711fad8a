/**
  Which task is on which cpu: the scheduler as single steps of any number of cpus, with the lock
  around pick and switch_to and with on_cpu cleared only when a cpu is off the old stack.
  */
module Sched {

  datatype State = Free | Ready | Blocked | Dead

  /** A slot of the task table; `life` counts how often the slot has been given out. */
  datatype Task = Task(state: State, on: bool, life: nat)

  /** A task, or the idle task that belongs to one cpu. */
  datatype Who = Slot(i: nat) | Idle(c: nat)

  datatype Opt = None | Some(w: Who)

  /** Code of the current task; holding the lock while looking; one task chosen; switched, still in the interrupt. */
  datatype Phase = Run | Looking | Chosen(i: nat) | Tail

  datatype Cpu = Cpu(cur: Who, prev: Opt, prev2: Opt, phase: Phase)

  datatype Sys = Sys(task: seq<Task>, cpu: seq<Cpu>, slk: map<nat, nat>)

  /** The scheduler lock: one key, mapped to the cpu that has it. */
  const LOCK: nat := 0

  datatype Step =
    | PickLock(c: nat)
    | Choose(c: nat, i: nat)
    | SwitchTo(c: nat, w: Who)
    | Stay(c: nat)
    | Leave(c: nat)
    | Block(c: nat)
    | Exit(c: nat)
    | Wake(i: nat)
    | Kill(i: nat)
    | Spawn(i: nat)

  predicate Locked(s: Sys, c: nat) { LOCK in s.slk && s.slk[LOCK] == c }

  predicate InLock(p: Phase) { p.Looking? || p.Chosen? }

  predicate Eligible(s: Sys, i: nat) { i < |s.task| && s.task[i].state == Ready && !s.task[i].on }

  /** In its own code, or in the last look that finish takes, a task may block or die. */
  predicate MayStop(s: Sys, c: nat) {
    c < |s.cpu| && !InLock(s.cpu[c].phase) && s.cpu[c].cur.Slot? && s.cpu[c].cur.i < |s.task|
  }

  predicate Enabled(s: Sys, st: Step) {
    match st
    case PickLock(c) => c < |s.cpu| && !InLock(s.cpu[c].phase) && LOCK !in s.slk
    case Choose(c, i) => c < |s.cpu| && InLock(s.cpu[c].phase) && Eligible(s, i)
    case SwitchTo(c, w) =>
      c < |s.cpu| && InLock(s.cpu[c].phase)
      && (w == s.cpu[c].cur || w == Idle(c) || (s.cpu[c].phase.Chosen? && w == Slot(s.cpu[c].phase.i)))
    case Stay(c) => c < |s.cpu| && s.cpu[c].phase == Run
    case Leave(c) => c < |s.cpu| && s.cpu[c].phase == Tail
    case Block(c) => MayStop(s, c) && s.task[s.cpu[c].cur.i].state == Ready
    case Exit(c) => MayStop(s, c)
    case Wake(i) => i < |s.task| && s.task[i].state == Blocked
    case Kill(i) => i < |s.task| && LOCK !in s.slk
    case Spawn(i) => i < |s.task| && !s.task[i].on && (s.task[i].state == Free || s.task[i].state == Dead)
  }

  function SetState(s: Sys, i: nat, v: State): Sys
    requires i < |s.task|
  {
    s.(task := s.task[i := s.task[i].(state := v)])
  }

  function SetOn(task: seq<Task>, w: Opt, on: bool): seq<Task> {
    if w.Some? && w.w.Slot? && w.w.i < |task| then task[w.w.i := task[w.w.i].(on := on)] else task
  }

  /** switch_to a different task: the old one is remembered until isr_leave, the lock goes. */
  function Switched(s: Sys, c: nat, w: Who): Sys
    requires c < |s.cpu|
  {
    var u := s.cpu[c];
    Sys(SetOn(s.task, Some(w), true),
        s.cpu[c := Cpu(w, Some(u.cur), if u.prev.Some? then u.prev else u.prev2, Tail)],
        s.slk - {LOCK})
  }

  function Next(s: Sys, st: Step): Sys
    requires Enabled(s, st)
  {
    match st
    case PickLock(c) => s.(cpu := s.cpu[c := s.cpu[c].(phase := Looking)], slk := s.slk[LOCK := c])
    case Choose(c, i) => s.(cpu := s.cpu[c := s.cpu[c].(phase := Chosen(i))])
    case SwitchTo(c, w) =>
      if w == s.cpu[c].cur then s.(cpu := s.cpu[c := s.cpu[c].(phase := Tail)], slk := s.slk - {LOCK})
      else Switched(s, c, w)
    case Stay(c) => s.(cpu := s.cpu[c := s.cpu[c].(phase := Tail)])
    case Leave(c) =>
      var u := s.cpu[c];
      s.(task := SetOn(SetOn(s.task, u.prev, false), u.prev2, false), cpu := s.cpu[c := Cpu(u.cur, None, None, Run)])
    case Block(c) => SetState(s, s.cpu[c].cur.i, Blocked)
    case Exit(c) => SetState(s, s.cpu[c].cur.i, Dead)
    case Wake(i) => SetState(s, i, Ready)
    case Kill(i) => if s.task[i].state == Free then s else SetState(s, i, Dead)
    case Spawn(i) => s.(task := s.task[i := Task(Ready, false, s.task[i].life + 1)])
  }

  // ---------- who is where ----------

  /** Cpu `c` is on the stack of task `i`, or still leaving it. */
  predicate On(u: Cpu, i: nat) {
    u.cur == Slot(i) || u.prev == Some(Slot(i)) || u.prev2 == Some(Slot(i))
  }

  predicate IdleOk(c: nat, o: Opt) { o.Some? && o.w.Idle? ==> o.w.c == c }

  predicate SlotOk(s: Sys, c: nat, i: nat) {
    c < |s.cpu| && On(s.cpu[c], i) ==> i < |s.task| && s.task[i].on
  }

  /** What one cpu remembers is consistent; the lock is with the cpu that is between pick and switch_to. */
  predicate CpuOk(s: Sys, c: nat) {
    c < |s.cpu| ==>
      var u := s.cpu[c];
      && (u.cur.Slot? ==> u.prev != Some(u.cur) && u.prev2 != Some(u.cur))
      && IdleOk(c, Some(u.cur)) && IdleOk(c, u.prev) && IdleOk(c, u.prev2)
      && (InLock(u.phase) <==> Locked(s, c))
      && (u.phase.Chosen? ==> Eligible(s, u.phase.i))
  }

  predicate Alone(s: Sys, c: nat, d: nat, i: nat) {
    c < |s.cpu| && d < |s.cpu| && On(s.cpu[c], i) && On(s.cpu[d], i) ==> c == d
  }

  ghost predicate Inv(s: Sys) {
    && (forall c: nat :: CpuOk(s, c))
    && (forall c: nat, i: nat :: SlotOk(s, c, i))
    && (forall c: nat, d: nat, i: nat :: Alone(s, c, d, i))
    && (LOCK in s.slk ==> s.slk[LOCK] < |s.cpu|)
  }

  lemma StepSlot(s: Sys, st: Step, c: nat, i: nat)
    requires Inv(s) && Enabled(s, st)
    ensures SlotOk(Next(s, st), c, i)
  {
    assert SlotOk(s, c, i) && CpuOk(s, c);
    if st.Leave? && c < |s.cpu| { assert Alone(s, c, st.c, i) && CpuOk(s, st.c); }
  }

  lemma StepAlone(s: Sys, st: Step, c: nat, d: nat, i: nat)
    requires Inv(s) && Enabled(s, st)
    ensures Alone(Next(s, st), c, d, i)
  {
    assert Alone(s, c, d, i) && SlotOk(s, c, i) && SlotOk(s, d, i) && CpuOk(s, c) && CpuOk(s, d);
  }

  lemma StepCpu(s: Sys, st: Step, c: nat)
    requires Inv(s) && Enabled(s, st)
    ensures CpuOk(Next(s, st), c)
  {
    assert CpuOk(s, c);
    if c < |s.cpu| && s.cpu[c].phase.Chosen? { assert SlotOk(s, c, s.cpu[c].phase.i); }
    if st.Block? || st.Exit? { assert SlotOk(s, st.c, s.cpu[st.c].cur.i); }
    if st.SwitchTo? || st.PickLock? { assert CpuOk(s, st.c); }
  }

  lemma StepInv(s: Sys, st: Step)
    requires Inv(s) && Enabled(s, st)
    ensures Inv(Next(s, st))
  {
    var t := Next(s, st);
    forall c: nat ensures CpuOk(t, c) { StepCpu(s, st, c); }
    forall c: nat, i: nat ensures SlotOk(t, c, i) { StepSlot(s, st, c, i); }
    forall c: nat, d: nat, i: nat ensures Alone(t, c, d, i) { StepAlone(s, st, c, d, i); }
  }

  // ---------- whole runs ----------

  predicate Runs(s: Sys, run: seq<Step>)
    decreases |run|
  {
    run == [] || (Enabled(s, run[0]) && Runs(Next(s, run[0]), run[1..]))
  }

  function After(s: Sys, run: seq<Step>): Sys
    requires Runs(s, run)
    decreases |run|
  {
    if run == [] then s else After(Next(s, run[0]), run[1..])
  }

  /** The boot task on cpu 0, every other cpu on its own idle task. */
  ghost predicate Init(s: Sys) {
    && |s.task| > 0 && |s.cpu| > 0 && s.slk == map[] && s.task[0] == Task(Ready, true, 0)
    && (forall i | 1 <= i < |s.task| :: s.task[i] == Task(Free, false, 0))
    && (forall c | 0 <= c < |s.cpu| :: s.cpu[c] == Cpu(if c == 0 then Slot(0) else Idle(c), None, None, Run))
  }

  lemma InitInv(s: Sys)
    requires Init(s)
    ensures Inv(s)
  {
  }

  lemma {:induction false} RunInv(s: Sys, run: seq<Step>)
    requires Inv(s) && Runs(s, run)
    ensures Inv(After(s, run))
    decreases |run|
  {
    hide Inv;
    if run != [] {
      StepInv(s, run[0]);
      RunInv(Next(s, run[0]), run[1..]);
    }
  }

  /** No task is on two cpus, not even while one of them is still leaving its stack. */
  lemma OneCpuPerTask(s: Sys, run: seq<Step>, c: nat, d: nat, i: nat)
    requires Init(s) && Runs(s, run)
    requires var t := After(s, run); c < |t.cpu| && d < |t.cpu| && On(t.cpu[c], i) && On(t.cpu[d], i)
    ensures c == d
  {
    InitInv(s);
    RunInv(s, run);
    assert Alone(After(s, run), c, d, i);
  }

  /** A task is chosen, and a slot with its stack is given out again, only when no cpu is on it or leaving it. */
  lemma TakenOnlyWhenOff(s: Sys, run: seq<Step>, c: nat, i: nat)
    requires Init(s) && Runs(s, run) && c < |After(s, run).cpu|
    requires var t := After(s, run);
             || (exists d | 0 <= d < |t.cpu| :: t.cpu[d].phase == Chosen(i))
             || Enabled(t, Spawn(i))
    ensures !On(After(s, run).cpu[c], i)
  {
    InitInv(s);
    RunInv(s, run);
    var t := After(s, run);
    assert SlotOk(t, c, i);
    if !Enabled(t, Spawn(i)) {
      var d :| 0 <= d < |t.cpu| && t.cpu[d].phase == Chosen(i);
      assert CpuOk(t, d);
    }
  }

  /** Only one cpu is between pick and switch_to. */
  lemma OnePicker(s: Sys, run: seq<Step>, c: nat, d: nat)
    requires Init(s) && Runs(s, run)
    requires var t := After(s, run); c < |t.cpu| && d < |t.cpu| && InLock(t.cpu[c].phase) && InLock(t.cpu[d].phase)
    ensures c == d
  {
    InitInv(s);
    RunInv(s, run);
    assert CpuOk(After(s, run), c) && CpuOk(After(s, run), d);
  }

  function Picks(run: seq<Step>, c: nat): nat {
    if run == [] then 0 else (if run[0] == PickLock(c) then 1 else 0) + Picks(run[1..], c)
  }

  function Switches(run: seq<Step>, c: nat): nat {
    if run == [] then 0 else (if run[0].SwitchTo? && run[0].c == c then 1 else 0) + Switches(run[1..], c)
  }

  function Open(s: Sys, c: nat): nat
    requires c < |s.cpu|
  {
    if InLock(s.cpu[c].phase) then 1 else 0
  }

  /** Every pick is followed by exactly one switch_to of the same cpu, which lets go of its lock. */
  lemma {:induction false} PickThenSwitch(s: Sys, run: seq<Step>, c: nat)
    requires Inv(s) && Runs(s, run) && c < |s.cpu|
    ensures c < |After(s, run).cpu| && Picks(run, c) + Open(s, c) == Switches(run, c) + Open(After(s, run), c)
    ensures Open(After(s, run), c) == 1 <==> Locked(After(s, run), c)
    decreases |run|
  {
    assert CpuOk(s, c);
    hide Inv;
    if run != [] {
      StepInv(s, run[0]);
      PickThenSwitch(Next(s, run[0]), run[1..], c);
    }
  }
}

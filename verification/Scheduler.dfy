/** The lab3 scheduler: any number of CPUs walking the process table, yield, sleep, exit and
    allocproc.  Between a test, the write of a state and the switch of stacks anything may happen on
    other CPUs; only p->lock keeps it away. */
module Scheduler {
  const FREE := -1
  const NPRIO := 3

  datatype Status = Unused | Used | Sleeping | Runnable | Running | Zombie

  datatype Proc = Proc(status: Status, lock: int, schedpick: nat, priority: int, lastexec: nat)

  datatype Way = ByYield | BySleep | ByExit

  /** Where a CPU is, with the process slot it is about. */
  datatype Cpu =
    // in scheduler, on its own stack
    | Scan(at: int)            // about to acquire the lock
    | Look(at: int)            // has it, about to test the state
    | Chosen(at: int)          // found RUNNABLE
    | Marked(at: int)          // set RUNNING, about to swtch
    // on the stack of the process
    | Start(at: int)           // switched to, about to release the lock
    | Run(at: int)
    | Give(at: int, how: Way)  // has acquired its lock in yield, sleep or exit
    | Gone(at: int)            // has set its state, in sched, about to swtch
    // in scheduler again
    | Back(at: int)            // about to release the lock

  /** runner: the CPU that is on the process's stack, FREE if none. */
  datatype State = State(procs: seq<Proc>, cpus: seq<Cpu>, ticks: nat, runner: seq<int>)

  datatype Label =
    | Acquire(c: int)
    | Test(c: int)
    | Mark(c: int, q: int)              // schedpick, lastexec, RUNNING
    | SwtchIn(c: int)
    | Release(c: int)
    | Enter(c: int, how: Way)           // the process acquires its lock
    | Quit(c: int, q: int, how: Way)    // and sets its state and priority
    | SwtchOut(c: int)
    | Wake(q: int)                      // wakeup, for a process it finds asleep
    | Alloc(q: int)                     // allocproc
    | Ready(q: int)                     // fork makes it runnable
    | Free(q: int)                      // freeproc
    | Tick

  predicate IsProc(st: State, q: int) { 0 <= q < |st.procs| }

  predicate IsCpu(st: State, c: int) { 0 <= c < |st.cpus| }

  predicate Sized(st: State) {
    && 0 < |st.procs| == |st.runner|
    && forall c :: 0 <= c < |st.cpus| ==> 0 <= st.cpus[c].at < |st.procs|
  }

  function Next(st: State, at: int): int
    requires IsProc(st, at)
  {
    if at + 1 == |st.procs| then 0 else at + 1
  }

  predicate Holds(cpu: Cpu) { !cpu.Scan? && !cpu.Run? }

  predicate OnStack(cpu: Cpu) { cpu.Start? || cpu.Run? || cpu.Give? || cpu.Gone? }

  predicate OnCpu(l: Label) {
    !l.Wake? && !l.Alloc? && !l.Ready? && !l.Free? && !l.Tick?
  }

  predicate Enabled(st: State, l: Label)
    requires Sized(st)
  {
    match l
    case Acquire(c) => IsCpu(st, c) && st.cpus[c].Scan? && st.procs[st.cpus[c].at].lock == FREE
    case Test(c) => IsCpu(st, c) && st.cpus[c].Look?
    case Mark(c, q) => IsCpu(st, c) && st.cpus[c] == Chosen(q)
    case SwtchIn(c) => IsCpu(st, c) && st.cpus[c].Marked?
    case Release(c) => IsCpu(st, c) && (st.cpus[c].Start? || st.cpus[c].Back?)
    case Enter(c, how) => IsCpu(st, c) && st.cpus[c].Run? && st.procs[st.cpus[c].at].lock == FREE
    case Quit(c, q, how) => IsCpu(st, c) && st.cpus[c] == Give(q, how)
    case SwtchOut(c) => IsCpu(st, c) && st.cpus[c].Gone?
    case Wake(q) => IsProc(st, q) && st.procs[q].status == Sleeping && st.procs[q].lock == FREE
    case Alloc(q) => IsProc(st, q) && st.procs[q].status == Unused && st.procs[q].lock == FREE
    case Ready(q) => IsProc(st, q) && st.procs[q].status == Used && st.procs[q].lock == FREE
    case Free(q) => IsProc(st, q) && (st.procs[q].status == Zombie || st.procs[q].status == Used) && st.procs[q].lock == FREE
    case Tick => true
  }

  function Raised(priority: int): int { if priority < NPRIO - 1 then priority + 1 else priority }

  function Lowered(priority: int): int { if priority > 0 then priority - 1 else priority }

  function With(st: State, c: int, cpu: Cpu, pr: Proc): State
    requires Sized(st) && IsCpu(st, c)
  {
    st.(cpus := st.cpus[c := cpu], procs := st.procs[st.cpus[c].at := pr])
  }

  function SetStatus(st: State, q: int, status: Status): State
    requires IsProc(st, q)
  {
    st.(procs := st.procs[q := st.procs[q].(status := status)])
  }

  function AfterQuit(pr: Proc, how: Way): Proc {
    match how
    case ByYield => pr.(status := Runnable, priority := Lowered(pr.priority))
    case BySleep => pr.(status := Sleeping, priority := Raised(pr.priority))
    case ByExit => pr.(status := Zombie)
  }

  function CpuStep(st: State, l: Label): State
    requires Sized(st) && Enabled(st, l) && OnCpu(l)
  {
    var c := l.c;
    var at := st.cpus[c].at;
    var pr := st.procs[at];
    match l
    case Acquire(_) => With(st, c, Look(at), pr.(lock := c))
    case Test(_) => With(st, c, if pr.status == Runnable then Chosen(at) else Back(at), pr)
    case Mark(_, _) => With(st, c, Marked(at), pr.(status := Running, schedpick := pr.schedpick + 1, lastexec := st.ticks))
    case SwtchIn(_) => With(st, c, Start(at), pr).(runner := st.runner[at := c])
    case Release(_) => With(st, c, if st.cpus[c].Start? then Run(at) else Scan(Next(st, at)), pr.(lock := FREE))
    case Enter(_, how) => With(st, c, Give(at, how), pr.(lock := c))
    case Quit(_, _, how) => With(st, c, Gone(at), AfterQuit(pr, how))
    case SwtchOut(_) => With(st, c, Back(at), pr).(runner := st.runner[at := FREE])
  }

  function Apply(st: State, l: Label): State
    requires Sized(st) && Enabled(st, l)
  {
    match l
    case Wake(q) => SetStatus(st, q, Runnable)
    case Alloc(q) => st.(procs := st.procs[q := st.procs[q].(status := Used, schedpick := 0, priority := NPRIO - 1)])
    case Ready(q) => SetStatus(st, q, Runnable)
    case Free(q) => SetStatus(st, q, Unused)
    case Tick => st.(ticks := st.ticks + 1)
    case _ => CpuStep(st, l)
  }

  // ---------------------------------------------------------------- invariant

  /** A CPU holds the lock its phase says, and the process is in the state its phase relies on. */
  predicate CpuOk(st: State, c: int)
    requires Sized(st) && IsCpu(st, c)
  {
    var cpu, pr, on := st.cpus[c], st.procs[st.cpus[c].at], st.runner[st.cpus[c].at];
    && (Holds(cpu) ==> pr.lock == c)
    && (OnStack(cpu) ==> on == c)
    && match cpu
       case Scan(_) => true
       case Look(_) => pr.status == Running <==> on != FREE
       case Chosen(_) => pr.status == Runnable && on == FREE
       case Marked(_) => pr.status == Running && on == FREE
       case Start(_) => pr.status == Running
       case Run(_) => pr.status == Running
       case Give(_, _) => pr.status == Running
       case Gone(_) => pr.status == Runnable || pr.status == Sleeping || pr.status == Zombie
       case Back(_) => pr.status == Running <==> on != FREE
  }

  /** A lock has a holder, a stack in use a CPU, a running process one of them. */
  predicate ProcOk(st: State, q: int)
    requires Sized(st) && IsProc(st, q)
  {
    var pr, on := st.procs[q], st.runner[q];
    && (pr.lock != FREE ==> IsCpu(st, pr.lock) && Holds(st.cpus[pr.lock]) && st.cpus[pr.lock].at == q)
    && (on != FREE ==> IsCpu(st, on) && OnStack(st.cpus[on]) && st.cpus[on].at == q)
    && (pr.status == Running ==> on != FREE || (pr.lock != FREE && st.cpus[pr.lock].Marked?))
    && (pr.status != Unused ==> 0 <= pr.priority <= NPRIO - 1) && pr.lastexec <= st.ticks
  }

  ghost predicate Inv(st: State) {
    && Sized(st)
    && (forall c {:trigger CpuOk(st, c)} :: 0 <= c < |st.cpus| ==> CpuOk(st, c))
    && (forall q {:trigger ProcOk(st, q)} :: 0 <= q < |st.procs| ==> ProcOk(st, q))
  }

  /** Nothing runs yet: every CPU is about to enter its first scan. */
  ghost predicate Initial(st: State) {
    && Sized(st) && (forall c :: 0 <= c < |st.cpus| ==> st.cpus[c] == Scan(0))
    && (forall q :: 0 <= q < |st.procs| ==>
          (st.procs[q].lock == FREE && st.runner[q] == FREE && st.procs[q].status == Unused && st.procs[q].lastexec == 0))
  }

  lemma InitialInv(st: State)
    requires Initial(st)
    ensures Inv(st)
  {
  }

  lemma StepOwnCpu(st: State, l: Label)
    requires Inv(st) && Enabled(st, l) && OnCpu(l)
    ensures Sized(CpuStep(st, l)) && IsCpu(CpuStep(st, l), l.c) && CpuOk(CpuStep(st, l), l.c)
  {
    assert CpuOk(st, l.c) && ProcOk(st, st.cpus[l.c].at);
    var on := st.runner[st.cpus[l.c].at];
    assert on != FREE ==> CpuOk(st, on);
  }

  lemma StepOtherCpu(st: State, l: Label, c: int)
    requires Inv(st) && Enabled(st, l) && OnCpu(l) && IsCpu(st, c) && c != l.c && Sized(CpuStep(st, l))
    ensures IsCpu(CpuStep(st, l), c) && CpuOk(CpuStep(st, l), c)
  {
    assert CpuOk(st, c) && CpuOk(st, l.c) && ProcOk(st, st.cpus[l.c].at);
  }

  lemma StepSized(st: State, l: Label)
    requires Inv(st) && Enabled(st, l)
    ensures Sized(Apply(st, l)) && |Apply(st, l).procs| == |st.procs| && |Apply(st, l).cpus| == |st.cpus|
  {
    if OnCpu(l) { StepOwnCpu(st, l); }
  }

  lemma StepProc(st: State, l: Label, q: int)
    requires Inv(st) && Enabled(st, l) && OnCpu(l) && IsProc(st, q) && Sized(CpuStep(st, l))
    ensures IsProc(CpuStep(st, l), q) && ProcOk(CpuStep(st, l), q)
  {
    assert ProcOk(st, q);
    assert CpuOk(st, l.c) && ProcOk(st, st.cpus[l.c].at);
  }

  lemma StepElsewhere(st: State, l: Label)
    requires Inv(st) && Enabled(st, l) && !OnCpu(l)
    ensures Inv(Apply(st, l))
  {
    var next := Apply(st, l);
    forall c | 0 <= c < |next.cpus| ensures CpuOk(next, c) { assert CpuOk(st, c); }
    forall q | 0 <= q < |next.procs| ensures ProcOk(next, q) { assert ProcOk(st, q); }
  }

  lemma StepKeepsInv(st: State, l: Label)
    requires Inv(st) && Enabled(st, l)
    ensures Inv(Apply(st, l))
  {
    StepSized(st, l);
    if OnCpu(l) {
      var next := Apply(st, l);
      forall c | 0 <= c < |next.cpus| ensures CpuOk(next, c) {
        if c == l.c { StepOwnCpu(st, l); } else { StepOtherCpu(st, l, c); }
      }
      forall q | 0 <= q < |next.procs| ensures ProcOk(next, q) { StepProc(st, l, q); }
    } else {
      StepElsewhere(st, l);
    }
  }

  // ---------------------------------------------------------------- runs

  ghost predicate Trace(st: State, ls: seq<Label>, end: State)
    decreases |ls|
  {
    if ls == [] then st == end
    else Sized(st) && Enabled(st, ls[0]) && Trace(Apply(st, ls[0]), ls[1..], end)
  }

  lemma {:induction false} RunKeepsInv(st: State, ls: seq<Label>, end: State)
    requires Inv(st) && Trace(st, ls, end)
    ensures Inv(end) && |end.procs| == |st.procs| && |end.cpus| == |st.cpus|
    decreases |ls|
  {
    if ls != [] {
      StepKeepsInv(st, ls[0]);
      StepSized(st, ls[0]);
      RunKeepsInv(Apply(st, ls[0]), ls[1..], end);
    }
  }

  /** At most one CPU is ever on a process's stack, from the switch to it until the switch away,
      though the process is RUNNABLE, and so fair game for the others, before it has switched away. */
  lemma OneCpu(st: State, ls: seq<Label>, end: State, c: int, d: int)
    requires Initial(st) && Trace(st, ls, end) && IsCpu(end, c) && IsCpu(end, d)
    requires OnStack(end.cpus[c]) && OnStack(end.cpus[d]) && end.cpus[c].at == end.cpus[d].at
    ensures c == d
  {
    InitialInv(st);
    RunKeepsInv(st, ls, end);
    assert CpuOk(end, c) && CpuOk(end, d);
  }

  /** A RUNNING process is on a CPU, or the one that holds its lock is about to switch to it. */
  lemma RunningIsOnACpu(st: State, ls: seq<Label>, end: State, q: int) returns (c: int)
    requires Initial(st) && Trace(st, ls, end) && IsProc(end, q) && end.procs[q].status == Running
    ensures IsCpu(end, c) && end.cpus[c].at == q
    ensures OnStack(end.cpus[c]) || (end.cpus[c].Marked? && end.procs[q].lock == c)
  {
    InitialInv(st);
    RunKeepsInv(st, ls, end);
    assert ProcOk(end, q);
    c := if end.runner[q] != FREE then end.runner[q] else end.procs[q].lock;
  }

  /** A process that is woken, freed or given out anew is on no CPU: nobody is on its stack any more. */
  lemma OffCpu(st: State, ls: seq<Label>, end: State, l: Label, c: int)
    requires Initial(st) && Trace(st, ls, end) && IsCpu(end, c)
    requires Sized(end) && Enabled(end, l) && (l.Wake? || l.Alloc? || l.Ready? || l.Free?)
    ensures OnStack(end.cpus[c]) ==> end.cpus[c].at != l.q
  {
    InitialInv(st);
    RunKeepsInv(st, ls, end);
    assert CpuOk(end, c);
  }

  /** sched's panics "sched p->lock" and "sched running" are out of reach. */
  lemma SchedChecks(st: State, ls: seq<Label>, end: State, c: int)
    requires Initial(st) && Trace(st, ls, end) && Sized(end) && Enabled(end, SwtchOut(c))
    ensures end.procs[end.cpus[c].at].lock == c && end.procs[end.cpus[c].at].status != Running
  {
    InitialInv(st);
    RunKeepsInv(st, ls, end);
    assert CpuOk(end, c);
  }

  // ---------------------------------------------------------------- round robin

  /** q is runnable in every state of the run. */
  ghost predicate Waits(st: State, ls: seq<Label>, q: int)
    decreases |ls|
  {
    && IsProc(st, q) && st.procs[q].status == Runnable
    && (ls != [] ==> Sized(st) && Enabled(st, ls[0]) && Waits(Apply(st, ls[0]), ls[1..], q))
  }

  predicate IsPick(l: Label, c: int) {
    l.Mark? && l.c == c
  }

  function Picks(ls: seq<Label>, c: int): nat {
    if ls == [] then 0 else (if IsPick(ls[0], c) then 1 else 0) + Picks(ls[1..], c)
  }

  /** Slots CPU c looks at before it comes to q. */
  function Before(st: State, c: int, q: int): int
    requires Sized(st) && IsCpu(st, c) && IsProc(st, q)
  {
    var n, at := |st.procs|, st.cpus[c].at;
    if st.cpus[c].Scan? || st.cpus[c].Look? || st.cpus[c].Chosen? then (if at <= q then q - at else q - at + n)
    else (if at < q then q - at - 1 else q - at - 1 + n)
  }

  /** No step takes CPU c further from a waiting q, and each pick brings it nearer. */
  lemma StepNearer(st: State, l: Label, c: int, q: int)
    requires Inv(st) && Enabled(st, l) && IsCpu(st, c) && IsProc(st, q)
    requires st.procs[q].status == Runnable && Sized(Apply(st, l)) && IsProc(Apply(st, l), q)
    requires Apply(st, l).procs[q].status == Runnable
    ensures IsCpu(Apply(st, l), c)
    ensures Before(Apply(st, l), c, q) + (if IsPick(l, c) then 1 else 0) <= Before(st, c, q)
  {
    StepSized(st, l);
    assert CpuOk(st, c);
  }

  /** Round robin: while q waits, no CPU picks as many as NPROC others. */
  lemma {:induction false} RoundRobin(st: State, ls: seq<Label>, end: State, c: int, q: int)
    requires Inv(st) && Trace(st, ls, end) && Waits(st, ls, q) && IsCpu(st, c)
    ensures Picks(ls, c) <= Before(st, c, q) < |st.procs|
    decreases |ls|
  {
    if ls != [] {
      StepKeepsInv(st, ls[0]);
      StepSized(st, ls[0]);
      StepNearer(st, ls[0], c, q);
      RoundRobin(Apply(st, ls[0]), ls[1..], end, c, q);
    }
  }

  /** Where in a turn of its loop a CPU is. */
  function Phase(cpu: Cpu): nat {
    match cpu
    case Marked(_) => 8
    case Start(_) => 7
    case Run(_) => 6
    case Give(_, _) => 5
    case Gone(_) => 4
    case Back(_) => 3
    case Scan(_) => 2
    case Look(_) => 1
    case Chosen(_) => 0
  }

  /** Steps of its own CPU c is away from picking q. */
  function StepsTo(st: State, c: int, q: int): int
    requires Sized(st) && IsCpu(st, c) && IsProc(st, q)
  {
    9 * Before(st, c, q) + Phase(st.cpus[c])
  }

  predicate IsStepOf(l: Label, c: int) {
    OnCpu(l) && l.c == c
  }

  /** Every step of CPU c brings it nearer to a waiting q, and no other step takes it further away. */
  lemma EachStepNearer(st: State, l: Label, c: int, q: int)
    requires Inv(st) && Enabled(st, l) && IsCpu(st, c) && IsProc(st, q)
    requires st.procs[q].status == Runnable && Sized(Apply(st, l)) && IsProc(Apply(st, l), q)
    requires Apply(st, l).procs[q].status == Runnable
    ensures IsCpu(Apply(st, l), c)
    ensures StepsTo(Apply(st, l), c, q) + (if IsStepOf(l, c) then 1 else 0) <= StepsTo(st, c, q)
  {
    StepSized(st, l);
    assert CpuOk(st, c);
  }

  /** The only way out of waiting is to be picked. */
  lemma OnlyPicked(st: State, l: Label, q: int)
    requires Inv(st) && Enabled(st, l) && IsProc(st, q) && st.procs[q].status == Runnable
    ensures IsProc(Apply(st, l), q) && (Apply(st, l).procs[q].status != Runnable ==> l.Mark? && l.q == q)
  {
    if OnCpu(l) { assert CpuOk(st, l.c); }
  }

  function StepsOf(ls: seq<Label>, c: int): nat {
    if ls == [] then 0 else (if IsStepOf(ls[0], c) then 1 else 0) + StepsOf(ls[1..], c)
  }

  /** A waiting process is picked before any CPU has made 9 NPROC steps. */
  lemma {:induction false} PickedSoon(st: State, ls: seq<Label>, end: State, c: int, q: int)
    requires Inv(st) && Trace(st, ls, end) && Waits(st, ls, q) && IsCpu(st, c)
    ensures StepsOf(ls, c) <= StepsTo(st, c, q) < 9 * |st.procs|
    decreases |ls|
  {
    if ls != [] {
      StepKeepsInv(st, ls[0]);
      StepSized(st, ls[0]);
      EachStepNearer(st, ls[0], c, q);
      PickedSoon(Apply(st, ls[0]), ls[1..], end, c, q);
    }
  }

  /** Whether CPU c has a step it can take. */
  ghost predicate CanStep(st: State, c: int)
    requires Sized(st)
  {
    exists l :: IsStepOf(l, c) && Enabled(st, l)
  }

  lemma CanStepBy(st: State, c: int, l: Label)
    requires Sized(st) && IsStepOf(l, c) && Enabled(st, l)
    ensures CanStep(st, c)
  {
  }

  lemma HolderCanStep(st: State, d: int)
    requires Inv(st) && IsCpu(st, d) && Holds(st.cpus[d])
    ensures CanStep(st, d)
  {
    match st.cpus[d]
    case Look(_) => CanStepBy(st, d, Test(d));
    case Chosen(at) => CanStepBy(st, d, Mark(d, at));
    case Marked(_) => CanStepBy(st, d, SwtchIn(d));
    case Start(_) => CanStepBy(st, d, Release(d));
    case Back(_) => CanStepBy(st, d, Release(d));
    case Give(at, how) => CanStepBy(st, d, Quit(d, at, how));
    case Gone(_) => CanStepBy(st, d, SwtchOut(d));
  }

  /** No deadlock: a CPU that cannot step waits for a lock whose holder can. */
  lemma Progress(st: State, c: int) returns (d: int)
    requires Inv(st) && IsCpu(st, c)
    ensures IsCpu(st, d) && CanStep(st, d) && (d == c || st.procs[st.cpus[c].at].lock == d)
  {
    d := c;
    var at := st.cpus[c].at;
    if Holds(st.cpus[c]) {
      HolderCanStep(st, c);
    } else if st.procs[at].lock != FREE {
      assert ProcOk(st, at);
      d := st.procs[at].lock;
      HolderCanStep(st, d);
    } else if st.cpus[c].Scan? {
      CanStepBy(st, c, Acquire(c));
    } else {
      CanStepBy(st, c, Enter(c, ByYield));
    }
  }

  // ---------------------------------------------------------------- accounting

  /** How often q is picked. */
  function PicksOf(ls: seq<Label>, q: int): nat {
    if ls == [] then 0 else (if ls[0].Mark? && ls[0].q == q then 1 else 0) + PicksOf(ls[1..], q)
  }

  /** The nearest number from 0 to NPRIO - 1. */
  function Clamped(x: int): int { if x < 0 then 0 else if x > NPRIO - 1 then NPRIO - 1 else x }

  /** Down for each yield and up for each sleep of q, within bounds. */
  function PriorityAfter(ls: seq<Label>, q: int, priority: int): int
    decreases |ls|
  {
    if ls == [] then priority
    else PriorityAfter(ls[1..], q,
           if !(ls[0].Quit? && ls[0].q == q) || ls[0].how == ByExit then priority
           else Clamped(if ls[0].how == ByYield then priority - 1 else priority + 1))
  }

  /** The k-th step allocates q, and none after it does. */
  predicate LastAlloc(ls: seq<Label>, q: int, k: nat) {
    k < |ls| && ls[k] == Alloc(q) && Alloc(q) !in ls[k + 1..]
  }

  /** yield lowers the priority by one and sleep raises it by one, unless it is at the end already. */
  lemma QuitPriority(st: State, c: int, q: int, how: Way)
    requires Inv(st) && Enabled(st, Quit(c, q, how))
    ensures IsProc(st, q) && IsProc(Apply(st, Quit(c, q, how)), q)
    ensures var before, after := st.procs[q].priority, Apply(st, Quit(c, q, how)).procs[q].priority;
      && 0 <= before <= 2
      && (how == ByYield ==> after == if before == 0 then 0 else before - 1)
      && (how == BySleep ==> after == if before == 2 then 2 else before + 1)
      && (how == ByExit ==> after == before)
  {
    assert CpuOk(st, c) && ProcOk(st, q);
  }

  lemma {:induction false} CountsOn(st: State, ls: seq<Label>, end: State, q: int)
    requires Inv(st) && Trace(st, ls, end) && IsProc(st, q) && Alloc(q) !in ls
    ensures IsProc(end, q) && end.procs[q].schedpick == st.procs[q].schedpick + PicksOf(ls, q)
    ensures end.procs[q].priority == PriorityAfter(ls, q, st.procs[q].priority)
    decreases |ls|
  {
    if ls != [] {
      if ls[0].Quit? { QuitPriority(st, ls[0].c, ls[0].q, ls[0].how); }
      StepKeepsInv(st, ls[0]);
      StepSized(st, ls[0]);
      CountsOn(Apply(st, ls[0]), ls[1..], end, q);
    }
  }

  /** schedpick is how often the process was picked since its last allocproc, and priority what its
      yields and sleeps since then make of the highest one. */
  lemma {:induction false} SinceAlloc(st: State, ls: seq<Label>, end: State, q: int, k: nat)
    requires Inv(st) && Trace(st, ls, end) && IsProc(st, q) && LastAlloc(ls, q, k)
    ensures IsProc(end, q) && end.procs[q].schedpick == PicksOf(ls[k + 1..], q)
    ensures end.procs[q].priority == PriorityAfter(ls[k + 1..], q, NPRIO - 1)
    decreases |ls|
  {
    StepKeepsInv(st, ls[0]);
    StepSized(st, ls[0]);
    if k == 0 {
      CountsOn(Apply(st, ls[0]), ls[1..], end, q);
    } else {
      assert ls[1..][k - 1..][1..] == ls[k + 1..] && ls[1..][k..] == ls[k + 1..];
      SinceAlloc(Apply(st, ls[0]), ls[1..], end, q, k - 1);
    }
  }

  /** How often q leaves a CPU in the given way. */
  function QuitsOf(ls: seq<Label>, q: int, how: Way): nat {
    if ls == [] then 0 else (if ls[0].Quit? && ls[0].q == q && ls[0].how == how then 1 else 0) + QuitsOf(ls[1..], q, how)
  }

  lemma {:induction false} OnlyDown(ls: seq<Label>, q: int, priority: int)
    requires 0 <= priority <= NPRIO - 1 && QuitsOf(ls, q, BySleep) == 0
    ensures PriorityAfter(ls, q, priority) == Clamped(priority - QuitsOf(ls, q, ByYield))
    decreases |ls|
  {
    if ls != [] {
      var down := ls[0].Quit? && ls[0].q == q && ls[0].how == ByYield;
      OnlyDown(ls[1..], q, if down then Clamped(priority - 1) else priority);
    }
  }

  lemma {:induction false} OnlyUp(ls: seq<Label>, q: int, priority: int)
    requires 0 <= priority <= NPRIO - 1 && QuitsOf(ls, q, ByYield) == 0
    ensures PriorityAfter(ls, q, priority) == Clamped(priority + QuitsOf(ls, q, BySleep))
    decreases |ls|
  {
    if ls != [] {
      var up := ls[0].Quit? && ls[0].q == q && ls[0].how == BySleep;
      OnlyUp(ls[1..], q, if up then Clamped(priority + 1) else priority);
    }
  }

  /** After allocproc and y yields without a sleep the priority is 2 - y, or 0. */
  lemma Yielded(st: State, ls: seq<Label>, end: State, q: int, k: nat)
    requires Inv(st) && Trace(st, ls, end) && IsProc(st, q) && LastAlloc(ls, q, k)
    requires QuitsOf(ls[k + 1..], q, BySleep) == 0
    ensures IsProc(end, q)
    ensures var y := QuitsOf(ls[k + 1..], q, ByYield); end.procs[q].priority == if y >= 2 then 0 else 2 - y
  {
    SinceAlloc(st, ls, end, q, k);
    OnlyDown(ls[k + 1..], q, NPRIO - 1);
  }

  /** From any state on, n sleeps without a yield raise a priority by n, or to 2. */
  lemma Slept(st: State, ls: seq<Label>, end: State, q: int)
    requires Inv(st) && Trace(st, ls, end) && IsProc(st, q) && Alloc(q) !in ls && st.procs[q].status != Unused
    requires QuitsOf(ls, q, ByYield) == 0
    ensures IsProc(end, q)
    ensures var up := st.procs[q].priority + QuitsOf(ls, q, BySleep); end.procs[q].priority == if up >= 2 then 2 else up
  {
    assert ProcOk(st, q);
    CountsOn(st, ls, end, q);
    OnlyUp(ls, q, st.procs[q].priority);
  }

  /** The k-th step picks q, and none after it does. */
  predicate LastPick(ls: seq<Label>, q: int, k: nat) {
    k < |ls| && ls[k].Mark? && ls[k].q == q && PicksOf(ls[k + 1..], q) == 0
  }

  function Ticks(ls: seq<Label>): nat {
    if ls == [] then 0 else (if ls[0].Tick? then 1 else 0) + Ticks(ls[1..])
  }

  lemma {:induction false} NotPicked(st: State, ls: seq<Label>, end: State, q: int)
    requires Inv(st) && Trace(st, ls, end) && IsProc(st, q) && PicksOf(ls, q) == 0
    ensures IsProc(end, q) && end.procs[q].lastexec == st.procs[q].lastexec
    decreases |ls|
  {
    if ls != [] {
      StepKeepsInv(st, ls[0]);
      StepSized(st, ls[0]);
      NotPicked(Apply(st, ls[0]), ls[1..], end, q);
    }
  }

  /** lastexec is the time of the last pick. */
  lemma {:induction false} LastExec(st: State, ls: seq<Label>, end: State, q: int, k: nat)
    requires Inv(st) && Trace(st, ls, end) && IsProc(st, q) && LastPick(ls, q, k)
    ensures IsProc(end, q) && end.procs[q].lastexec == st.ticks + Ticks(ls[..k])
    decreases |ls|
  {
    StepKeepsInv(st, ls[0]);
    StepSized(st, ls[0]);
    if k == 0 {
      NotPicked(Apply(st, ls[0]), ls[1..], end, q);
    } else {
      assert ls[1..][k - 1..][1..] == ls[k + 1..] && ls[1..][k..] == ls[k + 1..] && ls[..k][1..] == ls[1..][..k - 1];
      LastExec(Apply(st, ls[0]), ls[1..], end, q, k - 1);
    }
  }

  /** A process in use has a priority within its bounds. */
  lemma PriorityInRange(st: State, ls: seq<Label>, end: State, q: int)
    requires Initial(st) && Trace(st, ls, end) && IsProc(end, q) && end.procs[q].status != Unused
    ensures 0 <= end.procs[q].priority <= NPRIO - 1
  {
    InitialInv(st);
    RunKeepsInv(st, ls, end);
    assert ProcOk(end, q);
  }
}

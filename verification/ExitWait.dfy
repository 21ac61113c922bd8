/** fork, exit, wait and kill of proc.c as steps of interleaved processes.

    wait_lock and each p->lock name their holder.  A section that only looks at one process under
    its p->lock, as wakeup and wait do, is one step that needs that lock free. */
module ExitWait {
  const FREE := -1
  const INIT := 0      // initproc is the first slot

  datatype Status = Unused | Embryo | Runnable | Sleeping | Zombie   // Embryo: USED; Runnable: RUNNABLE or RUNNING

  datatype Pc =
    | User
    | Unborn                         // no code runs for this slot
    | ForkAlloc(np: int)             // allocproc has returned, np's lock held
    | ForkLink(np: int)              // about to acquire wait_lock
    | ForkSet(np: int)               // about to set np->parent
    | ForkUnlink(np: int)
    | ForkReady(np: int)             // about to acquire np->lock again
    | ForkRun(np: int)
    | ForkDone(np: int)
    | ExitAcq
    | Reparent(k: int)               // reparent is about to look at slot k
    | ReparentWake(k: int, i: int)   // slot k given to init; wakeup(init) is at process i
    | ExitWake(i: int)               // wakeup(p->parent) is at process i
    | ExitLock
    | ExitZombie
    | ExitUnlock
    | ExitSched
    | WaitAcq
    | WaitScan(i: int, kids: bool)
    | WaitEnd(kids: bool)
    | WaitSleep                      // sleep(p, &wait_lock) is about to acquire p->lock
    | WaitRel
    | WaitSet
    | Asleep                         // in sched, chan == p
    | WaitTidy
    | WaitDone(pid: nat)             // a child was reaped, wait_lock still held
    | KillAt(q: int)

  /** maker: while an Embryo, the process whose fork is creating it.  ret: what the last system call to
      return to user space gave. */
  datatype Proc = Proc(status: Status, parent: int, pid: nat, killed: bool, lock: int, pc: Pc, maker: int, ret: int)

  /** A child taken by wait: its pid and the process that took it. */
  datatype Reap = Reap(pid: nat, taker: int)

  /** slotOf: for every pid ever given out, the slot it is in, or -1 when it is no more. */
  datatype State = State(procs: seq<Proc>, waitLock: int, slotOf: seq<int>, exited: set<nat>, reaped: seq<Reap>)

  datatype Label =
    | Run(p: int)
    | Fork(p: int, np: int)
    | ForkFails(p: int)       // proc_pagetable or uvmcopy runs out of memory
    | Exit(p: int)
    | Wait(p: int)
    | NoCopyout(p: int)       // wait cannot copy the status out
    | Kill(p: int, q: int)

  predicate Is(st: State, p: int) {
    0 <= p < |st.procs|
  }

  predicate PcOk(st: State, pc: Pc) {
    match pc
    case ForkAlloc(np) => Is(st, np)
    case ForkLink(np) => Is(st, np)
    case ForkSet(np) => Is(st, np)
    case ForkUnlink(np) => Is(st, np)
    case ForkReady(np) => Is(st, np)
    case ForkRun(np) => Is(st, np)
    case ForkDone(np) => Is(st, np)
    case Reparent(k) => 0 <= k <= |st.procs|
    case ReparentWake(k, i) => Is(st, k) && 0 <= i <= |st.procs|
    case ExitWake(i) => 0 <= i <= |st.procs|
    case WaitScan(i, kids) => 0 <= i <= |st.procs|
    case KillAt(q) => Is(st, q)
    case _ => true
  }

  predicate Sized(st: State) {
    0 < |st.procs| && forall p :: 0 <= p < |st.procs| ==> PcOk(st, st.procs[p].pc)
  }

  /** p's code can run: it is on a CPU, or it is the tail of exit. */
  predicate OnCpu(pr: Proc) {
    pr.status == Runnable || (pr.status == Zombie && (pr.pc.ExitUnlock? || pr.pc.ExitSched?))
  }

  function With(st: State, p: int, pr: Proc): State
    requires Is(st, p)
  {
    st.(procs := st.procs[p := pr])
  }

  function Goto(st: State, p: int, pc: Pc): State
    requires Is(st, p)
  {
    With(st, p, st.procs[p].(pc := pc))
  }

  /** The system call p is in returns v. */
  function Return(st: State, p: int, v: int): State
    requires Is(st, p)
  {
    With(st, p, st.procs[p].(pc := User, ret := v))
  }

  /** One process of wakeup(chan), for the processes that sleep in wait, on themselves. */
  function WakeOne(st: State, i: int, chan: int): State
    requires Is(st, i)
  {
    if st.procs[i].status == Sleeping && i == chan then With(st, i, st.procs[i].(status := Runnable)) else st
  }

  /** freeproc. */
  function Freed(pr: Proc): Proc {
    pr.(status := Unused, parent := -1, pid := 0, killed := false, pc := Unborn, maker := -1)
  }

  function FreeSlot(st: State, q: int): State
    requires Is(st, q)
  {
    With(st, q, Freed(st.procs[q])).(slotOf := if st.procs[q].pid < |st.slotOf| then st.slotOf[st.procs[q].pid := -1] else st.slotOf)
  }

  predicate Enabled(st: State, l: Label)
    requires Sized(st)
  {
    match l
    case Fork(p, np) => (Is(st, p) && Is(st, np) && OnCpu(st.procs[p]) && st.procs[p].pc.User?
                         && st.procs[np].status == Unused && st.procs[np].lock == FREE)
    case ForkFails(p) => Is(st, p) && OnCpu(st.procs[p]) && st.procs[p].pc.ForkAlloc?
    case Exit(p) => Is(st, p) && OnCpu(st.procs[p]) && st.procs[p].pc.User? && p != INIT
    case Wait(p) => Is(st, p) && OnCpu(st.procs[p]) && st.procs[p].pc.User?
    case Kill(p, q) => Is(st, p) && Is(st, q) && OnCpu(st.procs[p]) && st.procs[p].pc.User? && st.procs[q].lock == FREE
    case NoCopyout(p) => (Is(st, p) && OnCpu(st.procs[p]) && st.procs[p].pc.WaitScan? && st.procs[p].pc.i < |st.procs|
                          && st.procs[st.procs[p].pc.i].parent == p && st.procs[st.procs[p].pc.i].status == Zombie
                          && st.procs[st.procs[p].pc.i].lock == FREE)
    case Run(p) => Is(st, p) && CanRun(st, p)
  }

  /** The next step of p's kernel code, which has no choice. */
  predicate CanRun(st: State, p: int)
    requires Sized(st) && Is(st, p)
  {
    if st.procs[p].pc.Asleep? then st.procs[p].status == Runnable && st.procs[p].lock == FREE
    else
      OnCpu(st.procs[p]) &&
      match st.procs[p].pc
      case User => false
      case Unborn => false
      case ForkLink(np) => st.waitLock == FREE
      case ForkReady(np) => st.procs[np].lock == FREE
      case ExitAcq => st.waitLock == FREE
      case ReparentWake(k, i) => i == |st.procs| || i == p || st.procs[i].lock == FREE
      case ExitWake(i) => i == |st.procs| || i == p || st.procs[i].lock == FREE
      case ExitLock => st.procs[p].lock == FREE
      case WaitAcq => st.waitLock == FREE
      case WaitScan(i, kids) => i == |st.procs| || st.procs[i].parent != p || st.procs[i].lock == FREE
      case WaitEnd(kids) => !kids || st.procs[p].lock == FREE
      case WaitSleep => st.procs[p].lock == FREE
      case _ => true
  }

  function SetLock(st: State, q: int, h: int): State
    requires Is(st, q)
  {
    With(st, q, st.procs[q].(lock := h))
  }

  /** The parent recorded for q. */
  function SetParent(st: State, q: int, parent: int): State
    requires Is(st, q)
  {
    With(st, q, st.procs[q].(parent := parent))
  }

  predicate InFork(pc: Pc) {
    pc.ForkAlloc? || pc.ForkLink? || pc.ForkSet? || pc.ForkUnlink? || pc.ForkReady? || pc.ForkRun? || pc.ForkDone?
  }

  predicate InExit(pc: Pc) {
    pc.ExitAcq? || pc.Reparent? || pc.ReparentWake? || pc.ExitWake? || pc.ExitLock? || pc.ExitZombie?
    || pc.ExitUnlock? || pc.ExitSched?
  }

  function RunFork(st: State, p: int): State
    requires Sized(st) && Is(st, p) && InFork(st.procs[p].pc)
  {
    assert PcOk(st, st.procs[p].pc);
    match st.procs[p].pc
    case ForkAlloc(np) => Goto(SetLock(st, np, FREE), p, ForkLink(np))
    case ForkLink(np) => Goto(st.(waitLock := p), p, ForkSet(np))
    case ForkSet(np) => Goto(SetParent(st, np, p), p, ForkUnlink(np))
    case ForkUnlink(np) => Goto(st.(waitLock := FREE), p, ForkReady(np))
    case ForkReady(np) => Goto(SetLock(st, np, p), p, ForkRun(np))
    case ForkRun(np) => Goto(With(st, np, st.procs[np].(status := Runnable, pc := User, maker := -1, ret := 0)), p, ForkDone(np))
    case ForkDone(np) => Return(SetLock(st, np, FREE), p, st.procs[np].pid)
  }

  function RunExit(st: State, p: int): State
    requires Sized(st) && Is(st, p) && InExit(st.procs[p].pc)
  {
    assert PcOk(st, st.procs[p].pc);
    match st.procs[p].pc
    case ExitAcq => Goto(st.(waitLock := p), p, Reparent(0))
    case Reparent(k) =>
      if k == |st.procs| then Goto(st, p, ExitWake(0))
      else if st.procs[k].parent == p then Goto(SetParent(st, k, INIT), p, ReparentWake(k, 0))
      else Goto(st, p, Reparent(k + 1))
    case ReparentWake(k, i) =>
      if i == |st.procs| then Goto(st, p, Reparent(k + 1))
      else if i == p then Goto(st, p, ReparentWake(k, i + 1))
      else Goto(WakeOne(st, i, INIT), p, ReparentWake(k, i + 1))
    case ExitWake(i) =>
      if i == |st.procs| then Goto(st, p, ExitLock)
      else if i == p then Goto(st, p, ExitWake(i + 1))
      else Goto(WakeOne(st, i, st.procs[p].parent), p, ExitWake(i + 1))
    case ExitLock => With(st, p, st.procs[p].(lock := p, pc := ExitZombie))
    case ExitZombie => With(st, p, st.procs[p].(status := Zombie, pc := ExitUnlock)).(exited := st.exited + {st.procs[p].pid})
    case ExitUnlock => Goto(st.(waitLock := FREE), p, ExitSched)
    case ExitSched => With(st, p, st.procs[p].(lock := FREE, pc := Unborn))
  }

  function RunWait(st: State, p: int): State
    requires Sized(st) && Is(st, p)
  {
    assert PcOk(st, st.procs[p].pc);
    match st.procs[p].pc
    case WaitAcq => Goto(st.(waitLock := p), p, WaitScan(0, false))
    case WaitScan(i, kids) =>
      if i == |st.procs| then Goto(st, p, WaitEnd(kids))
      else if st.procs[i].parent != p then Goto(st, p, WaitScan(i + 1, kids))
      else if st.procs[i].status != Zombie then Goto(st, p, WaitScan(i + 1, true))
      else Goto(FreeSlot(st, i), p, WaitDone(st.procs[i].pid)).(reaped := st.reaped + [Reap(st.procs[i].pid, p)])
    case WaitEnd(kids) =>
      if !kids || st.procs[p].killed then Return(st.(waitLock := FREE), p, -1) else Goto(st, p, WaitSleep)
    case WaitSleep => With(st, p, st.procs[p].(lock := p, pc := WaitRel))
    case WaitRel => Goto(st.(waitLock := FREE), p, WaitSet)
    case WaitSet => With(st, p, st.procs[p].(status := Sleeping, lock := FREE, pc := Asleep))
    case Asleep => With(st, p, st.procs[p].(lock := p, pc := WaitTidy))
    case WaitTidy => With(st, p, st.procs[p].(lock := FREE, pc := WaitAcq))
    case WaitDone(pid) => Return(st.(waitLock := FREE), p, pid)
    case KillAt(q) =>
      var st1 := With(st, q, st.procs[q].(killed := true, lock := FREE,
                       status := if st.procs[q].status == Sleeping then Runnable else st.procs[q].status));
      Return(st1, p, 0)
    case _ => st
  }

  function RunStep(st: State, p: int): State
    requires Sized(st) && Is(st, p)
  {
    if InFork(st.procs[p].pc) then RunFork(st, p) else if InExit(st.procs[p].pc) then RunExit(st, p) else RunWait(st, p)
  }

  /** A process in user space, or one whose kernel code has a choice. */
  function UserStep(st: State, l: Label): State
    requires Sized(st) && Enabled(st, l) && !l.Run?
  {
    match l
    case Fork(p, np) =>
      var st1 := With(st, np, st.procs[np].(status := Embryo, pid := |st.slotOf|, lock := p, pc := Unborn, maker := p));
      Goto(st1.(slotOf := st.slotOf + [np]), p, ForkAlloc(np))
    case ForkFails(p) =>
      var np := st.procs[p].pc.np;
      Return(SetLock(FreeSlot(st, np), np, FREE), p, -1)
    case Exit(p) => Goto(st, p, ExitAcq)
    case Wait(p) => Goto(st, p, WaitAcq)
    case NoCopyout(p) => Return(st.(waitLock := FREE), p, -1)
    case Kill(p, q) => Goto(SetLock(st, q, p), p, KillAt(q))
  }

  function Apply(st: State, l: Label): State
    requires Sized(st) && Enabled(st, l)
  {
    if l.Run? then RunStep(st, l.p) else UserStep(st, l)
  }

  // ---------------------------------------------------------------- invariant

  predicate HoldsWait(pc: Pc) {
    pc.ForkSet? || pc.ForkUnlink? || pc.Reparent? || pc.ReparentWake? || pc.ExitWake? || pc.ExitLock? || pc.ExitZombie?
    || pc.ExitUnlock? || pc.WaitScan? || pc.WaitEnd? || pc.WaitSleep? || pc.WaitRel? || pc.WaitDone?
  }

  /** Process p at pc holds q's p->lock. */
  predicate HoldsProc(pc: Pc, p: int, q: int) {
    match pc
    case ForkAlloc(np) => np == q
    case ForkRun(np) => np == q
    case ForkDone(np) => np == q
    case ExitZombie => p == q
    case ExitUnlock => p == q
    case ExitSched => p == q
    case WaitRel => p == q
    case WaitSet => p == q
    case WaitTidy => p == q
    case KillAt(t) => t == q
    case _ => false
  }

  ghost predicate WaitLockOk(st: State) {
    && (st.waitLock != FREE ==> Is(st, st.waitLock) && HoldsWait(st.procs[st.waitLock].pc))
    && (forall p {:trigger HoldsWait(st.procs[p].pc)} :: Is(st, p) && HoldsWait(st.procs[p].pc) ==> st.waitLock == p)
  }

  ghost predicate ProcLocksOk(st: State) {
    && (forall q :: 0 <= q < |st.procs| && st.procs[q].lock != FREE ==>
          Is(st, st.procs[q].lock) && HoldsProc(st.procs[st.procs[q].lock].pc, st.procs[q].lock, q))
    && (forall p, q {:trigger HoldsProc(st.procs[p].pc, p, q)} ::
          Is(st, p) && Is(st, q) && HoldsProc(st.procs[p].pc, p, q) ==> st.procs[q].lock == p)
  }

  predicate Forking(pc: Pc) {
    pc.ForkAlloc? || pc.ForkLink? || pc.ForkSet? || pc.ForkUnlink? || pc.ForkReady? || pc.ForkRun?
  }

  predicate Exiting(pc: Pc) {
    pc.ExitAcq? || pc.Reparent? || pc.ReparentWake? || pc.ExitWake? || pc.ExitLock? || pc.ExitZombie?
  }

  /** How a slot's status and the code running for it go together. */
  predicate SlotOk(st: State, p: int)
    requires Is(st, p)
  {
    var pr := st.procs[p];
    && (match pr.status
        case Unused => pr.pc.Unborn? && pr.parent == -1
        case Embryo => (pr.pc.Unborn? && Is(st, pr.maker) && Forking(st.procs[pr.maker].pc) && st.procs[pr.maker].pc.np == p
                        && (pr.parent == -1 || pr.parent == pr.maker))
        case Runnable => !pr.pc.Unborn? && !pr.pc.ExitUnlock? && !pr.pc.ExitSched?
        case Sleeping => pr.pc.Asleep?
        case Zombie => pr.pc.Unborn? || pr.pc.ExitUnlock? || pr.pc.ExitSched?)
    && (Forking(pr.pc) ==> Is(st, pr.pc.np) && st.procs[pr.pc.np].status == Embryo && st.procs[pr.pc.np].maker == p
                           && (st.procs[pr.pc.np].parent == -1 <==> pr.pc.ForkAlloc? || pr.pc.ForkLink? || pr.pc.ForkSet?))
    && (Exiting(pr.pc) ==> p != INIT)
    && (p != INIT && pr.status != Unused && pr.status != Embryo ==> pr.parent != -1)
  }

  /** A process with a parent has a live one. */
  predicate ParentOk(st: State, c: int)
    requires Is(st, c)
  {
    st.procs[c].parent != -1 ==>
      && Is(st, st.procs[c].parent) && st.procs[c].parent != c && c != INIT
      && (st.procs[st.procs[c].parent].status == Runnable || st.procs[st.procs[c].parent].status == Sleeping)
  }

  predicate InitOk(st: State) {
    Is(st, INIT) && (st.procs[INIT].status == Runnable || st.procs[INIT].status == Sleeping)
  }

  /** p has let go of wait_lock in order to sleep in wait, and nobody has woken it since. */
  predicate Committed(st: State, p: int)
    requires Is(st, p)
  {
    st.procs[p].pc.WaitSet? || (st.procs[p].pc.Asleep? && st.procs[p].status == Sleeping)
  }

  predicate ChildOf(st: State, c: int, p: int) {
    Is(st, c) && st.procs[c].parent == p
  }

  predicate DeadChild(st: State, c: int, p: int) {
    ChildOf(st, c, p) && st.procs[c].status == Zombie
  }

  /** A reparent has just given init a child and its wakeup has yet to reach init. */
  predicate GivingToInit(st: State) {
    Is(st, st.waitLock) && st.procs[st.waitLock].pc.ReparentWake? && st.procs[st.waitLock].pc.i <= INIT
  }

  /** A process asleep in wait has a child, and no dead one it has not been told about. */
  ghost predicate WaiterOk(st: State, p: int)
    requires Is(st, p)
  {
    Committed(st, p) ==>
      && (exists c :: ChildOf(st, c, p))
      && ((p == INIT && GivingToInit(st)) || forall c :: !DeadChild(st, c, p))
  }

  /** What the code has established so far. */
  ghost predicate PcFacts(st: State, p: int)
    requires Sized(st) && Is(st, p)
  {
    match st.procs[p].pc
    case Reparent(k) => forall c :: ChildOf(st, c, p) ==> c >= k
    case ReparentWake(k, i) => forall c :: ChildOf(st, c, p) ==> c > k
    case ExitWake(i) => (forall c :: !ChildOf(st, c, p)) && ToldParent(st, p, i)
    case ExitLock => (forall c :: !ChildOf(st, c, p)) && ToldParent(st, p, |st.procs|)
    case ExitZombie => (forall c :: !ChildOf(st, c, p)) && ToldParent(st, p, |st.procs|)
    case WaitScan(i, kids) => (forall c :: DeadChild(st, c, p) ==> c >= i) && (kids ==> exists c :: ChildOf(st, c, p))
                              && (!kids ==> forall c :: ChildOf(st, c, p) ==> c >= i)
    case WaitEnd(kids) => (forall c :: !DeadChild(st, c, p)) && (kids <==> exists c :: ChildOf(st, c, p))
    case WaitDone(pid) => JustReaped(st, pid, p)
    case WaitSleep => (forall c :: !DeadChild(st, c, p)) && (exists c :: ChildOf(st, c, p))
    case WaitRel => (forall c :: !DeadChild(st, c, p)) && (exists c :: ChildOf(st, c, p))
    case _ => true
  }

  /** The last child taken is p's, and had that pid. */
  predicate JustReaped(st: State, pid: nat, p: int) {
    st.reaped != [] && st.reaped[|st.reaped| - 1] == Reap(pid, p)
  }

  /** If p's parent is among the first i processes it is not asleep in wait any more. */
  predicate ToldParent(st: State, p: int, i: int)
    requires Is(st, p)
  {
    Is(st, st.procs[p].parent) && st.procs[p].parent < i ==> !Committed(st, st.procs[p].parent)
  }

  /** Pids in use are in their slots; the ones reaped are gone for good. */
  ghost predicate PidsOk(st: State) {
    && (forall p :: 0 <= p < |st.procs| && st.procs[p].status != Unused ==>
          st.procs[p].pid < |st.slotOf| && st.slotOf[st.procs[p].pid] == p)
    && (forall p :: 0 <= p < |st.procs| && st.procs[p].status == Zombie ==> st.procs[p].pid in st.exited)
    && (forall k :: 0 <= k < |st.reaped| ==>
          st.reaped[k].pid < |st.slotOf| && st.slotOf[st.reaped[k].pid] == -1 && st.reaped[k].pid in st.exited)
    && (forall j, k :: 0 <= j < k < |st.reaped| ==> st.reaped[j].pid != st.reaped[k].pid)
  }

  ghost predicate SlotsOk(st: State) {
    forall p {:trigger SlotOk(st, p)} :: 0 <= p < |st.procs| ==> SlotOk(st, p)
  }

  ghost predicate ParentsOk(st: State) {
    forall p {:trigger ParentOk(st, p)} :: 0 <= p < |st.procs| ==> ParentOk(st, p)
  }

  ghost predicate WaitersOk(st: State) {
    forall p {:trigger WaiterOk(st, p)} :: 0 <= p < |st.procs| ==> WaiterOk(st, p)
  }

  ghost predicate FactsOk(st: State)
    requires Sized(st)
  {
    forall p {:trigger PcFacts(st, p)} :: 0 <= p < |st.procs| ==> PcFacts(st, p)
  }

  ghost predicate Inv(st: State) {
    && Sized(st) && InitOk(st) && WaitLockOk(st) && ProcLocksOk(st) && PidsOk(st)
    && SlotsOk(st) && ParentsOk(st) && WaitersOk(st) && FactsOk(st)
  }
}

/** What wait and kill answer, and that no call goes on for ever. */
module ExitWaitAnswers {
  import opened ExitWait
  import opened ExitWaitSteps
  import opened ExitWaitFamily
  import opened ExitWaitRuns

  predicate InWait(pc: Pc) {
    pc.WaitAcq? || pc.WaitScan? || pc.WaitEnd? || pc.WaitSleep? || pc.WaitRel? || pc.WaitSet? || pc.Asleep?
    || pc.WaitTidy? || pc.WaitDone?
  }

  // ---------------------------------------------------------------- what wait answers

  lemma ActorStays(st: State, l: Label)
    requires Inv(st) && Enabled(st, l)
    ensures Is(st, l.p) && Is(Apply(st, l), l.p)
  {
    StepEffects(st, l);
  }

  /** wait gives the pid of the child it has taken, or -1: to a process without children, to one that has
      been killed, or because the status cannot be copied out. */
  lemma WaitAnswer(st: State, l: Label)
    requires Inv(st) && Enabled(st, l) && Is(st, l.p) && InWait(st.procs[l.p].pc)
    requires Is(Apply(st, l), l.p) && Apply(st, l).procs[l.p].pc.User?
    ensures var next, r := Apply(st, l), Apply(st, l).procs[l.p].ret;
      || (r >= 0 && JustReaped(next, r, l.p))
      || (r == -1 && ((forall c :: !ChildOf(next, c, l.p)) || next.procs[l.p].killed || l == NoCopyout(l.p)))
  {
    var p := l.p;
    assert PcFacts(st, p) && PcOk(st, st.procs[p].pc);
    if st.procs[p].pc.WaitEnd? {
      forall c | ChildOf(Apply(st, l), c, p) ensures ChildOf(st, c, p) {}
    }
  }

  /** What wait takes is a child of its own that has ended, and only that slot is freed. */
  lemma TakesChild(st: State, l: Label) returns (c: int)
    requires Inv(st) && Enabled(st, l) && Apply(st, l).reaped != st.reaped
    ensures DeadChild(st, c, l.p) && Is(Apply(st, l), l.p) && Is(Apply(st, l), c)
    ensures Apply(st, l).reaped == st.reaped + [Reap(st.procs[c].pid, l.p)]
    ensures Apply(st, l).procs[l.p].pc == WaitDone(st.procs[c].pid) && Apply(st, l).procs[c].status == Unused
  {
    ActorStays(st, l);
    NotItself(st, l.p);
    assert PcOk(st, st.procs[l.p].pc);
    c := st.procs[l.p].pc.i;
  }

  /** p is in wait in every state of the run but the last. */
  ghost predicate WaitsThrough(st: State, ls: seq<Label>, p: int)
    decreases |ls|
  {
    ls != [] ==>
      Sized(st) && Enabled(st, ls[0]) && Is(st, p) && InWait(st.procs[p].pc) && WaitsThrough(Apply(st, ls[0]), ls[1..], p)
  }

  ghost predicate TakenSince(n: nat, st: State, pid: int, p: int) {
    exists k :: n <= k < |st.reaped| && st.reaped[k].pid == pid && st.reaped[k].taker == p
  }

  /** end is right after p's wait, whose last step was l, has answered. */
  ghost predicate Answered(n: nat, end: State, p: int, l: Label)
    requires Is(end, p)
  {
    var r := end.procs[p].ret;
    || (r >= 0 && TakenSince(n, end, r, p))
    || (r == -1 && ((forall c :: !ChildOf(end, c, p)) || end.procs[p].killed || l == NoCopyout(p)))
  }

  /** A whole call of wait, with anything else in between: a pid it gives is of a child taken during the call. */
  lemma WaitCall(st: State, ls: seq<Label>, end: State, p: int)
    requires Inv(st) && Is(st, p) && st.procs[p].pc.WaitAcq? && Runs(st, ls, end) && WaitsThrough(st, ls, p)
    requires Is(end, p) && end.procs[p].pc.User?
    ensures ls != [] && Answered(|st.reaped|, end, p, ls[|ls| - 1])
  {
    WaitCallFrom(|st.reaped|, st, ls, end, p);
  }

  lemma {:induction false} WaitCallFrom(n: nat, st: State, ls: seq<Label>, end: State, p: int)
    requires Inv(st) && Is(st, p) && InWait(st.procs[p].pc) && Runs(st, ls, end) && WaitsThrough(st, ls, p)
    requires n <= |st.reaped| && (st.procs[p].pc.WaitDone? ==> n < |st.reaped|)
    requires Is(end, p) && end.procs[p].pc.User?
    ensures ls != [] && Answered(n, end, p, ls[|ls| - 1])
    decreases |ls|
  {
    var l, next := ls[0], Apply(st, ls[0]);
    StepKeepsInv(st, l);
    WaitingStep(n, st, l, p);
    if ls[1..] == [] {
      AnsweredNow(n, st, l, p);
    } else {
      WaitCallFrom(n, next, ls[1..], end, p);
    }
  }

  lemma AnsweredNow(n: nat, st: State, l: Label, p: int)
    requires Inv(st) && Enabled(st, l) && Is(st, p) && InWait(st.procs[p].pc)
    requires n <= |st.reaped| && (st.procs[p].pc.WaitDone? ==> n < |st.reaped|)
    requires Is(Apply(st, l), p) && Apply(st, l).procs[p].pc.User?
    ensures Answered(n, Apply(st, l), p, l)
  {
    WaitingStep(n, st, l, p);
    if l.p == p {
      WaitAnswer(st, l);
    }
  }

  lemma WaitingStep(n: nat, st: State, l: Label, p: int)
    requires Inv(st) && Enabled(st, l) && Is(st, p) && InWait(st.procs[p].pc)
    requires n <= |st.reaped| && (st.procs[p].pc.WaitDone? ==> n < |st.reaped|)
    ensures Is(Apply(st, l), p) && n <= |Apply(st, l).reaped|
    ensures l.p != p ==> Apply(st, l).procs[p].pc == st.procs[p].pc
    ensures Apply(st, l).procs[p].pc.WaitDone? || (l.p == p && st.procs[p].pc.WaitDone?) ==> n < |Apply(st, l).reaped|
  {
    StepEffects(st, l);
    if l.p != p { assert Touch(st, Apply(st, l), l.p, p) && SlotOk(st, p) && SlotOk(st, l.p); }
    if Apply(st, l).reaped != st.reaped { var c := TakesChild(st, l); }
    else if l.p == p { NotItself(st, p); assert PcOk(st, st.procs[p].pc); }
  }

  // ---------------------------------------------------------------- what kill answers

  /** kill can always finish, and then its victim is marked and not asleep. */
  lemma KillAnswer(st: State, p: int)
    requires Inv(st) && Is(st, p) && st.procs[p].pc.KillAt?
    ensures CanRun(st, p) && Is(st, st.procs[p].pc.q) && |RunStep(st, p).procs| == |st.procs|
    ensures var victim := RunStep(st, p).procs[st.procs[p].pc.q]; victim.killed && victim.status != Sleeping && victim.lock == FREE
    ensures RunStep(st, p).procs[p].pc.User? && RunStep(st, p).procs[p].ret == 0
    ensures forall r {:trigger RunStep(st, p).procs[r]} :: Is(st, r) && r != p && r != st.procs[p].pc.q ==> RunStep(st, p).procs[r] == st.procs[r]
  {
    assert SlotOk(st, p) && PcOk(st, st.procs[p].pc);
  }

  // ---------------------------------------------------------------- every call comes to an end

  /** How many own steps a process at pc is away, at most, from user space, its end, or sleep. */
  function Left(pc: Pc, n: int): int {
    match pc
    case ForkAlloc(_) => 7
    case ForkLink(_) => 6
    case ForkSet(_) => 5
    case ForkUnlink(_) => 4
    case ForkReady(_) => 3
    case ForkRun(_) => 2
    case ForkDone(_) => 1
    case ExitAcq => Round(n, n) + n + 7
    case Reparent(k) => Round(n - k, n) + n + 6
    case ReparentWake(k, i) => Round(n - k - 1, n) + (n - i) + n + 7
    case ExitWake(i) => (n - i) + 5
    case ExitLock => 4
    case ExitZombie => 3
    case ExitUnlock => 2
    case ExitSched => 1
    case WaitTidy => n + 7
    case WaitAcq => n + 6
    case WaitScan(i, _) => (n - i) + 5
    case WaitEnd(_) => 4
    case WaitSleep => 3
    case WaitRel => 2
    case WaitSet => 1
    case WaitDone(_) => 1
    case KillAt(_) => 1
    case _ => 0
  }

  /** k turns of reparent's loop, each with a wakeup. */
  function Round(k: int, n: int): (r: int) {
    k * (n + 2)
  }

  lemma RoundLess(k: int, n: int)
    ensures Round(k, n) == Round(k - 1, n) + n + 2
  {
    assert k * (n + 2) == (k - 1) * (n + 2) + (n + 2);
  }

  lemma ExitNearer(st: State, p: int)
    requires Sized(st) && Is(st, p) && InExit(st.procs[p].pc) && CanRun(st, p)
    ensures |RunExit(st, p).procs| == |st.procs|
    ensures Left(RunExit(st, p).procs[p].pc, |st.procs|) < Left(st.procs[p].pc, |st.procs|)
  {
    assert PcOk(st, st.procs[p].pc);
    if st.procs[p].pc.Reparent? { RoundLess(|st.procs| - st.procs[p].pc.k, |st.procs|); }
  }

  lemma ForkNearer(st: State, p: int)
    requires Sized(st) && Is(st, p) && InFork(st.procs[p].pc) && CanRun(st, p)
    requires st.procs[p].pc.ForkDone? || st.procs[p].pc.np != p
    ensures |RunFork(st, p).procs| == |st.procs|
    ensures Left(RunFork(st, p).procs[p].pc, |st.procs|) < Left(st.procs[p].pc, |st.procs|)
  {
    assert PcOk(st, st.procs[p].pc);
  }

  lemma WaitNearer(st: State, p: int)
    requires Sized(st) && Is(st, p) && !InFork(st.procs[p].pc) && !InExit(st.procs[p].pc) && CanRun(st, p)
    requires !st.procs[p].pc.Asleep? && st.procs[p].parent != p
    ensures |RunWait(st, p).procs| == |st.procs|
    ensures Left(RunWait(st, p).procs[p].pc, |st.procs|) < Left(st.procs[p].pc, |st.procs|)
  {
    assert PcOk(st, st.procs[p].pc);
  }

  lemma Nearer(st: State, p: int)
    requires Inv(st) && Is(st, p) && CanRun(st, p) && !st.procs[p].pc.Asleep?
    ensures |RunStep(st, p).procs| == |st.procs|
    ensures Left(RunStep(st, p).procs[p].pc, |st.procs|) < Left(st.procs[p].pc, |st.procs|)
  {
    NotItself(st, p);
    if InFork(st.procs[p].pc) { ForkNearer(st, p); }
    else if InExit(st.procs[p].pc) { ExitNearer(st, p); }
    else { WaitNearer(st, p); }
  }

  predicate InCall(pc: Pc) {
    !pc.User? && !pc.Unborn? && !pc.Asleep?
  }

  /** p is in a system call, and not asleep, in every state of the run but the last. */
  ghost predicate CallsThrough(st: State, ls: seq<Label>, p: int)
    decreases |ls|
  {
    ls != [] ==>
      Sized(st) && Enabled(st, ls[0]) && Is(st, p) && InCall(st.procs[p].pc) && CallsThrough(Apply(st, ls[0]), ls[1..], p)
  }

  /** The steps of p's own in a run. */
  function OwnSteps(ls: seq<Label>, p: int): nat {
    if ls == [] then 0 else OwnSteps(ls[1..], p) + if ls[0] == Run(p) then 1 else 0
  }

  lemma RoundNotNegative(k: nat, n: nat)
    ensures Round(k, n) >= 0
  {
  }

  lemma LeftNotNegative(st: State, p: int)
    requires Sized(st) && Is(st, p)
    ensures Left(st.procs[p].pc, |st.procs|) >= 0 && (InCall(st.procs[p].pc) ==> Left(st.procs[p].pc, |st.procs|) > 0)
  {
    assert PcOk(st, st.procs[p].pc);
    var n, pc := |st.procs|, st.procs[p].pc;
    RoundNotNegative(n, n);
    if pc.Reparent? { RoundNotNegative(n - pc.k, n); }
    if pc.ReparentWake? { RoundNotNegative(n - pc.k - 1, n); }
  }

  lemma StepLeft(st: State, l: Label, p: int)
    requires Inv(st) && Enabled(st, l) && Is(st, p) && InCall(st.procs[p].pc)
    ensures |Apply(st, l).procs| == |st.procs|
    ensures Left(Apply(st, l).procs[p].pc, |st.procs|) + (if l == Run(p) then 1 else 0) <= Left(st.procs[p].pc, |st.procs|)
  {
    StepEffects(st, l);
    LeftNotNegative(st, p);
    if l.p != p { assert Touch(st, Apply(st, l), l.p, p) && SlotOk(st, p) && SlotOk(st, l.p); }
    else if l == Run(p) { Nearer(st, p); }
  }

  /** Whatever others do, a system call is over, or asleep, after a bounded number of its own steps. */
  lemma {:induction false} CallBounded(st: State, ls: seq<Label>, end: State, p: int)
    requires Inv(st) && Is(st, p) && Runs(st, ls, end) && CallsThrough(st, ls, p)
    ensures OwnSteps(ls, p) <= Left(st.procs[p].pc, |st.procs|)
    decreases |ls|
  {
    LeftNotNegative(st, p);
    if ls != [] {
      StepLeft(st, ls[0], p);
      StepKeepsInv(st, ls[0]);
      CallBounded(Apply(st, ls[0]), ls[1..], end, p);
    }
  }
}

/** sleep, wakeup and kill of proc.c under sem.c and sleeplock.c, one lock operation or one
    critical action per step, for any number of processes running any finite programs.

    A spin lock is a field naming its holder, or FREE.  Handing control to the scheduler
    (sched, swtch) and taking it back are single steps. */
module SleepWakeup {
  const FREE := -1

  /** A semaphore (sem.c), or a sleep-lock (sleeplock.c) whose value is 1 when unlocked. */
  datatype Kind = Counting | Mutex

  datatype Op =
    | Down(s: int)    // sem_down, acquiresleep
    | Up(s: int)      // sem_up, releasesleep
    | Print(x: int)
    | Kill(q: int)

  datatype Pc =
    | Idle
    | UpAcq(s: int)
    | UpTest(s: int)
    | UpSet(s: int)               // releasesleep: locked = 0, before wakeup
    | UpWake(s: int, i: int)      // wakeup is about to look at process i
    | UpLook(s: int, i: int)      // wakeup holds process i's lock
    | UpInc(s: int)               // sem_up: value + 1, after wakeup
    | UpRel(s: int)
    | DownAcq(s: int)
    | DownTest(s: int)
    | SleepAcq(s: int)            // sleep is about to acquire p->lock
    | SleepRel(s: int)            // sleep is about to release the semaphore's lock
    | SleepSet(s: int)            // sleep is about to set chan and SLEEPING
    | Asleep(s: int)              // in sched
    | WakeTidy(s: int)            // back from sched, holding p->lock
    | DownDec(s: int)
    | DownRel(s: int)
    | KillAcq(q: int)
    | KillLook(q: int)

  /** `sleeping` is state == SLEEPING; `held` the sleep-locks between acquire and release. */
  datatype Proc = Proc(pc: Pc, sleeping: bool, chan: int, lock: int, held: set<int>, script: seq<Op>)

  datatype Sem = Sem(kind: Kind, lock: int, value: int, init: int, ups: nat, downs: nat)

  datatype State = State(procs: seq<Proc>, sems: seq<Sem>, out: seq<int>)

  // ---------------------------------------------------------------- steps

  function StartPc(op: Op): Pc {
    match op
    case Down(s) => DownAcq(s)
    case Up(s) => UpAcq(s)
    case Print(x) => Idle
    case Kill(q) => KillAcq(q)
  }

  predicate InRange(st: State, p: int) {
    0 <= p < |st.procs|
  }

  predicate IsSem(st: State, s: int) {
    0 <= s < |st.sems|
  }

  predicate OpOk(st: State, op: Op) {
    match op
    case Down(s) => IsSem(st, s)
    case Up(s) => IsSem(st, s)
    case Print(x) => true
    case Kill(q) => InRange(st, q)
  }

  predicate PcOk(st: State, pc: Pc) {
    match pc
    case Idle => true
    case UpWake(s, i) => IsSem(st, s) && 0 <= i <= |st.procs|
    case UpLook(s, i) => IsSem(st, s) && InRange(st, i)
    case KillAcq(q) => InRange(st, q)
    case KillLook(q) => InRange(st, q)
    case _ => IsSem(st, pc.s)
  }

  predicate WellTyped(st: State) {
    && (forall p :: 0 <= p < |st.procs| ==> PcOk(st, st.procs[p].pc))
    && (forall p, k :: 0 <= p < |st.procs| && 0 <= k < |st.procs[p].script| ==> OpOk(st, st.procs[p].script[k]))
  }

  /** Process p can take its next step: it is not waiting for a lock or asleep. */
  predicate Enabled(st: State, p: int)
    requires WellTyped(st) && InRange(st, p)
  {
    match st.procs[p].pc
    case Idle => st.procs[p].script != []
    case UpAcq(s) => st.sems[s].lock == FREE
    case DownAcq(s) => st.sems[s].lock == FREE
    case UpWake(s, i) => i == |st.procs| || i == p || st.procs[i].lock == FREE
    case SleepAcq(s) => st.procs[p].lock == FREE
    case Asleep(s) => !st.procs[p].sleeping && st.procs[p].lock == FREE
    case KillAcq(q) => st.procs[q].lock == FREE
    case _ => true
  }

  function SetPc(st: State, p: int, pc: Pc): State
    requires InRange(st, p)
  {
    st.(procs := st.procs[p := st.procs[p].(pc := pc)])
  }

  function SetSem(st: State, s: int, m: Sem): State
    requires IsSem(st, s)
  {
    st.(sems := st.sems[s := m])
  }

  function SetPlock(st: State, q: int, h: int): State
    requires InRange(st, q)
  {
    st.(procs := st.procs[q := st.procs[q].(lock := h)])
  }

  /** state = RUNNABLE if SLEEPING (on s, unless s is FREE). */
  function Rouse(st: State, q: int, s: int): State
    requires InRange(st, q)
  {
    if st.procs[q].sleeping && (s == FREE || st.procs[q].chan == s)
    then st.(procs := st.procs[q := st.procs[q].(sleeping := false)])
    else st
  }

  function Step(st: State, p: int): State
    requires WellTyped(st) && InRange(st, p) && Enabled(st, p)
  {
    var me := st.procs[p];
    match me.pc
    case Idle =>
      var st1 := st.(procs := st.procs[p := me.(pc := StartPc(me.script[0]), script := me.script[1..])]);
      if me.script[0].Print? then st1.(out := st.out + [me.script[0].x]) else st1
    case UpAcq(s) =>
      SetPc(SetSem(st, s, st.sems[s].(lock := p)), p, if st.sems[s].kind.Mutex? then UpSet(s) else UpTest(s))
    case UpTest(s) =>
      SetPc(st, p, if st.sems[s].value == 0 then UpWake(s, 0) else UpInc(s))
    case UpSet(s) =>
      var st1 := SetSem(st, s, st.sems[s].(value := 1, ups := st.sems[s].ups + 1));
      st1.(procs := st.procs[p := me.(pc := UpWake(s, 0), held := me.held - {s})])
    case UpWake(s, i) =>
      if i == |st.procs| then SetPc(st, p, if st.sems[s].kind.Mutex? then UpRel(s) else UpInc(s))
      else if i == p then SetPc(st, p, UpWake(s, i + 1))
      else SetPc(SetPlock(st, i, p), p, UpLook(s, i))
    case UpLook(s, i) =>
      SetPc(SetPlock(Rouse(st, i, s), i, FREE), p, UpWake(s, i + 1))
    case UpInc(s) =>
      SetPc(SetSem(st, s, st.sems[s].(value := st.sems[s].value + 1, ups := st.sems[s].ups + 1)), p, UpRel(s))
    case UpRel(s) =>
      SetPc(SetSem(st, s, st.sems[s].(lock := FREE)), p, Idle)
    case DownAcq(s) =>
      SetPc(SetSem(st, s, st.sems[s].(lock := p)), p, DownTest(s))
    case DownTest(s) =>
      SetPc(st, p, if st.sems[s].value == 0 then SleepAcq(s) else DownDec(s))
    case SleepAcq(s) =>
      SetPc(SetPlock(st, p, p), p, SleepRel(s))
    case SleepRel(s) =>
      SetPc(SetSem(st, s, st.sems[s].(lock := FREE)), p, SleepSet(s))
    case SleepSet(s) =>
      st.(procs := st.procs[p := me.(pc := Asleep(s), sleeping := true, chan := s, lock := FREE)])
    case Asleep(s) =>
      SetPc(SetPlock(st, p, p), p, WakeTidy(s))
    case WakeTidy(s) =>
      st.(procs := st.procs[p := me.(pc := DownAcq(s), chan := FREE, lock := FREE)])
    case DownDec(s) =>
      var st1 := SetSem(st, s, st.sems[s].(value := st.sems[s].value - 1, downs := st.sems[s].downs + 1));
      st1.(procs := st.procs[p := me.(pc := DownRel(s),
                             held := if st.sems[s].kind.Mutex? then me.held + {s} else me.held)])
    case DownRel(s) =>
      SetPc(SetSem(st, s, st.sems[s].(lock := FREE)), p, Idle)
    case KillAcq(q) =>
      SetPc(SetPlock(st, q, p), p, KillLook(q))
    case KillLook(q) =>
      SetPc(SetPlock(Rouse(st, q, FREE), q, FREE), p, Idle)
  }

  // ---------------------------------------------------------------- invariant

  /** pc holds semaphore s's spin lock. */
  predicate HoldsSem(pc: Pc, s: int) {
    match pc
    case UpTest(t) => t == s
    case UpSet(t) => t == s
    case UpWake(t, i) => t == s
    case UpLook(t, i) => t == s
    case UpInc(t) => t == s
    case UpRel(t) => t == s
    case DownTest(t) => t == s
    case SleepAcq(t) => t == s
    case SleepRel(t) => t == s
    case DownDec(t) => t == s
    case DownRel(t) => t == s
    case _ => false
  }

  /** Process p at pc holds process q's p->lock. */
  predicate HoldsProc(pc: Pc, p: int, q: int) {
    match pc
    case UpLook(s, i) => i == q
    case SleepRel(s) => p == q
    case SleepSet(s) => p == q
    case WakeTidy(s) => p == q
    case KillLook(t) => t == q
    case _ => false
  }

  ghost predicate SemLocks(st: State) {
    && (forall s :: 0 <= s < |st.sems| && st.sems[s].lock != FREE ==>
          InRange(st, st.sems[s].lock) && HoldsSem(st.procs[st.sems[s].lock].pc, s))
    && (forall p, s {:trigger HoldsSem(st.procs[p].pc, s)} ::
          InRange(st, p) && IsSem(st, s) && HoldsSem(st.procs[p].pc, s) ==> st.sems[s].lock == p)
  }

  ghost predicate ProcLocks(st: State) {
    && (forall q :: 0 <= q < |st.procs| && st.procs[q].lock != FREE ==>
          InRange(st, st.procs[q].lock) && HoldsProc(st.procs[st.procs[q].lock].pc, st.procs[q].lock, q))
    && (forall p, q {:trigger HoldsProc(st.procs[p].pc, p, q)} ::
          InRange(st, p) && InRange(st, q) && HoldsProc(st.procs[p].pc, p, q) ==> st.procs[q].lock == p)
  }

  /** SLEEPING happens only inside sched, on the channel recorded. */
  ghost predicate SleepOk(st: State) {
    forall p :: 0 <= p < |st.procs| ==>
      && (st.procs[p].sleeping ==> st.procs[p].pc.Asleep?)
      && (st.procs[p].pc.Asleep? ==> st.procs[p].chan == st.procs[p].pc.s)
  }

  /** p has let go of s's lock in order to sleep on it and nobody has woken it since. */
  predicate Committed(st: State, p: int, s: int)
    requires InRange(st, p)
  {
    st.procs[p].pc == SleepSet(s) || (st.procs[p].pc == Asleep(s) && st.procs[p].sleeping)
  }

  /** No process below i is on its way to sleeping on s. */
  ghost predicate ScannedTo(st: State, s: int, i: int) {
    forall q {:trigger Committed(st, q, s)} :: 0 <= q < |st.procs| && q < i ==> !Committed(st, q, s)
  }

  ghost predicate Scanning(st: State, s: int)
    requires IsSem(st, s)
  {
    && InRange(st, st.sems[s].lock)
    && (st.procs[st.sems[s].lock].pc.UpWake? || st.procs[st.sems[s].lock].pc.UpLook?)
    && st.procs[st.sems[s].lock].pc.s == s
  }

  /** A positive semaphore has no sleeper, except those a running wakeup has yet to reach. */
  ghost predicate NoLostWakeup(st: State, s: int)
    requires IsSem(st, s)
  {
    st.sems[s].value > 0 ==>
      ScannedTo(st, s, |st.procs|) || (st.sems[s].kind.Mutex? && Scanning(st, s))
  }

  ghost predicate PcFacts(st: State, p: int)
    requires WellTyped(st) && InRange(st, p)
  {
    match st.procs[p].pc
    case UpTest(s) => st.sems[s].kind.Counting?
    case UpSet(s) => st.sems[s].kind.Mutex?
    case UpWake(s, i) => ScannedTo(st, s, i) && (st.sems[s].kind.Counting? ==> st.sems[s].value == 0)
    case UpLook(s, i) =>
      ScannedTo(st, s, i) && i != p && (st.sems[s].kind.Counting? ==> st.sems[s].value == 0)
    case UpInc(s) => ScannedTo(st, s, |st.procs|) && st.sems[s].kind.Counting?
    case SleepAcq(s) => st.sems[s].value == 0
    case SleepRel(s) => st.sems[s].value == 0
    case DownDec(s) => st.sems[s].value > 0
    case _ => true
  }

  ghost predicate Inv(st: State) {
    && WellTyped(st) && SemLocks(st) && ProcLocks(st) && SleepOk(st)
    && (forall s :: 0 <= s < |st.sems| ==> NoLostWakeup(st, s) && st.sems[s].value >= 0)
    && (forall p :: 0 <= p < |st.procs| ==> PcFacts(st, p))
  }

  // ---------------------------------------------------------------- every step keeps it

  lemma StepShape(st: State, p: int)
    requires WellTyped(st) && InRange(st, p) && Enabled(st, p)
    ensures |Step(st, p).procs| == |st.procs| && |Step(st, p).sems| == |st.sems|
  {
  }

  lemma UpWakePcOk(st: State, p: int)
    requires WellTyped(st) && InRange(st, p) && Enabled(st, p) && st.procs[p].pc.UpWake?
    ensures InRange(Step(st, p), p) && PcOk(Step(st, p), Step(st, p).procs[p].pc)
  {
    StepShape(st, p);
    assert PcOk(st, st.procs[p].pc);
  }

  lemma StepPcOk(st: State, p: int)
    requires WellTyped(st) && InRange(st, p) && Enabled(st, p)
    ensures InRange(Step(st, p), p) && PcOk(Step(st, p), Step(st, p).procs[p].pc)
  {
    StepShape(st, p);
    var pc := st.procs[p].pc;
    assert PcOk(st, pc);
    if pc.Idle? {
      assert OpOk(st, st.procs[p].script[0]);
    } else if pc.UpWake? {
      UpWakePcOk(st, p);
    }
  }

  /** Scripts only get shorter, from the front. */
  lemma StepScript(st: State, p: int, q: int)
    requires WellTyped(st) && InRange(st, p) && Enabled(st, p) && InRange(st, q)
    ensures InRange(Step(st, p), q)
    ensures Step(st, p).procs[q].script ==
      if q == p && st.procs[p].pc.Idle? then st.procs[p].script[1..] else st.procs[q].script
  {
  }

  lemma StepTyped(st: State, p: int)
    requires WellTyped(st) && InRange(st, p) && Enabled(st, p)
    ensures WellTyped(Step(st, p))
    ensures |Step(st, p).procs| == |st.procs| && |Step(st, p).sems| == |st.sems|
  {
    StepShape(st, p);
    var next := Step(st, p);
    forall q | 0 <= q < |next.procs| ensures PcOk(next, next.procs[q].pc) {
      if q == p { StepPcOk(st, p); } else { StepPcs(st, p, q); assert PcOk(st, st.procs[q].pc); }
    }
    forall q, k | 0 <= q < |next.procs| && 0 <= k < |next.procs[q].script|
      ensures OpOk(next, next.procs[q].script[k])
    {
      StepScript(st, p, q);
      var j := k + |st.procs[q].script| - |next.procs[q].script|;
      assert OpOk(st, st.procs[q].script[j]);
    }
  }

  /** A step by p moves no other process's pc. */
  lemma StepPcs(st: State, p: int, q: int)
    requires WellTyped(st) && InRange(st, p) && Enabled(st, p) && InRange(st, q) && q != p
    ensures InRange(Step(st, p), q) && Step(st, p).procs[q].pc == st.procs[q].pc
    ensures Step(st, p).procs[q].held == st.procs[q].held && Step(st, p).procs[q].script == st.procs[q].script
  {
  }

  predicate InUp(pc: Pc) {
    pc.UpAcq? || pc.UpTest? || pc.UpSet? || pc.UpWake? || pc.UpLook? || pc.UpInc? || pc.UpRel?
  }

  lemma UpSemLock(st: State, p: int, s: int)
    requires WellTyped(st) && InRange(st, p) && Enabled(st, p) && IsSem(st, s) && InUp(st.procs[p].pc)
    requires HoldsSem(st.procs[p].pc, s) ==> st.sems[s].lock == p
    ensures |Step(st, p).sems| == |st.sems| && InRange(Step(st, p), p)
    ensures SemLockMoves(st, Step(st, p), p, s)
  {
  }

  lemma OtherSemLock(st: State, p: int, s: int)
    requires WellTyped(st) && InRange(st, p) && Enabled(st, p) && IsSem(st, s) && !InUp(st.procs[p].pc)
    requires HoldsSem(st.procs[p].pc, s) ==> st.sems[s].lock == p
    ensures |Step(st, p).sems| == |st.sems| && InRange(Step(st, p), p)
    ensures SemLockMoves(st, Step(st, p), p, s)
  {
  }

  predicate SemLockMoves(st: State, next: State, p: int, s: int)
    requires InRange(st, p) && InRange(next, p) && IsSem(st, s) && IsSem(next, s)
  {
    && next.sems[s].lock == (if HoldsSem(next.procs[p].pc, s) then p
                             else if HoldsSem(st.procs[p].pc, s) then FREE
                             else st.sems[s].lock)
    && (HoldsSem(next.procs[p].pc, s) ==> st.sems[s].lock == FREE || st.sems[s].lock == p)
  }

  /** A step by p changes only the spin locks its pc enters or leaves. */
  lemma StepSemLock(st: State, p: int, s: int)
    requires Inv(st) && InRange(st, p) && Enabled(st, p) && IsSem(st, s)
    ensures |Step(st, p).sems| == |st.sems| && InRange(Step(st, p), p)
    ensures Step(st, p).sems[s].lock ==
      if HoldsSem(Step(st, p).procs[p].pc, s) then p
      else if HoldsSem(st.procs[p].pc, s) then FREE
      else st.sems[s].lock
    ensures HoldsSem(Step(st, p).procs[p].pc, s) ==> st.sems[s].lock == FREE || st.sems[s].lock == p
  {
    assert HoldsSem(st.procs[p].pc, s) ==> st.sems[s].lock == p;
    if InUp(st.procs[p].pc) { UpSemLock(st, p, s); } else { OtherSemLock(st, p, s); }
  }

  lemma StepSemLocks(st: State, p: int)
    requires Inv(st) && InRange(st, p) && Enabled(st, p)
    ensures SemLocks(Step(st, p))
  {
    StepTyped(st, p);
    var next := Step(st, p);
    forall s | 0 <= s < |next.sems| && next.sems[s].lock != FREE
      ensures InRange(next, next.sems[s].lock) && HoldsSem(next.procs[next.sems[s].lock].pc, s)
    {
      StepSemLock(st, p, s);
      if next.sems[s].lock != p { StepPcs(st, p, next.sems[s].lock); }
    }
    forall q, s | InRange(next, q) && IsSem(next, s) && HoldsSem(next.procs[q].pc, s)
      ensures next.sems[s].lock == q
    {
      StepSemLock(st, p, s);
      if q != p { StepPcs(st, p, q); }
    }
  }

  lemma StepProcLock(st: State, p: int, q: int)
    requires Inv(st) && InRange(st, p) && Enabled(st, p) && InRange(st, q)
    ensures |Step(st, p).procs| == |st.procs|
    ensures Step(st, p).procs[q].lock ==
      if HoldsProc(Step(st, p).procs[p].pc, p, q) then p
      else if HoldsProc(st.procs[p].pc, p, q) then FREE
      else st.procs[q].lock
  {
    StepShape(st, p);
    assert PcFacts(st, p);
    assert HoldsProc(st.procs[p].pc, p, q) ==> st.procs[q].lock == p;
  }

  lemma ProcLockWasFree(st: State, p: int, q: int)
    requires Inv(st) && InRange(st, p) && Enabled(st, p) && InRange(st, q)
    ensures |Step(st, p).procs| == |st.procs|
    ensures HoldsProc(Step(st, p).procs[p].pc, p, q) ==> st.procs[q].lock == FREE || st.procs[q].lock == p
  {
    StepShape(st, p);
    assert HoldsProc(st.procs[p].pc, p, q) ==> st.procs[q].lock == p;
  }

  lemma StepProcLocks(st: State, p: int)
    requires Inv(st) && InRange(st, p) && Enabled(st, p)
    ensures ProcLocks(Step(st, p))
  {
    StepTyped(st, p);
    var next := Step(st, p);
    forall q | 0 <= q < |next.procs| && next.procs[q].lock != FREE
      ensures InRange(next, next.procs[q].lock) && HoldsProc(next.procs[next.procs[q].lock].pc, next.procs[q].lock, q)
    {
      StepProcLock(st, p, q);
      ProcLockWasFree(st, p, q);
      if next.procs[q].lock != p { StepPcs(st, p, next.procs[q].lock); }
    }
    forall r, q | InRange(next, r) && InRange(next, q) && HoldsProc(next.procs[r].pc, r, q)
      ensures next.procs[q].lock == r
    {
      StepProcLock(st, p, q);
      ProcLockWasFree(st, p, q);
      if r != p { StepPcs(st, p, r); }
    }
  }

  lemma StepSleepOk(st: State, p: int)
    requires WellTyped(st) && SleepOk(st) && InRange(st, p) && Enabled(st, p)
    ensures SleepOk(Step(st, p))
  {
    StepTyped(st, p);
  }

  /** The only step that commits a process to sleeping on s is releasing s's lock in sleep. */
  lemma StepCommits(st: State, p: int, q: int, s: int)
    requires WellTyped(st) && InRange(st, p) && Enabled(st, p) && InRange(st, q)
    ensures InRange(Step(st, p), q)
    ensures Committed(Step(st, p), q, s) ==>
      Committed(st, q, s) || (q == p && st.procs[p].pc == SleepRel(s))
  {
  }

  lemma StepScanned(st: State, p: int, s: int, i: int)
    requires WellTyped(st) && InRange(st, p) && Enabled(st, p)
    requires ScannedTo(st, s, i) && st.procs[p].pc != SleepRel(s)
    ensures ScannedTo(Step(st, p), s, i)
  {
    StepTyped(st, p);
    forall q | 0 <= q < |st.procs| && q < i
      ensures !Committed(Step(st, p), q, s)
    {
      StepCommits(st, p, q, s);
    }
  }

  /** Looking at process i in wakeup leaves it not asleep on s. */
  lemma LookRouses(st: State, p: int, s: int, i: int)
    requires Inv(st) && InRange(st, p) && st.procs[p].pc == UpLook(s, i)
    ensures Enabled(st, p) && ScannedTo(Step(st, p), s, i + 1)
  {
    assert PcFacts(st, p) && HoldsProc(st.procs[p].pc, p, i);
    assert st.procs[i].lock == p;
    StepScanned(st, p, s, i);
    assert !Committed(Step(st, p), i, s) by {
      assert HoldsProc(SleepSet(s), i, i);
    }
  }

  /** A sleeper is woken by an up of the very semaphore it sleeps on, or by a kill of it, and by nothing
      else: sleepers on other channels sleep on. */
  lemma WokenBy(st: State, p: int, q: int)
    requires Inv(st) && InRange(st, p) && Enabled(st, p) && InRange(st, q) && st.procs[q].sleeping
    ensures InRange(Step(st, p), q)
    ensures st.procs[q].pc == Asleep(st.procs[q].chan) && Step(st, p).procs[q].chan == st.procs[q].chan
    ensures Step(st, p).procs[q].sleeping <==> st.procs[p].pc != UpLook(st.procs[q].chan, q) && st.procs[p].pc != KillLook(q)
  {
    assert PcFacts(st, p);
  }

  /** Only the holder of s's lock changes its value. */
  lemma StepValue(st: State, p: int, s: int)
    requires Inv(st) && InRange(st, p) && Enabled(st, p) && IsSem(st, s)
    ensures |Step(st, p).sems| == |st.sems|
    ensures Step(st, p).sems[s].kind == st.sems[s].kind && Step(st, p).sems[s].init == st.sems[s].init
    ensures Step(st, p).sems[s].value ==
      if st.procs[p].pc == UpInc(s) then st.sems[s].value + 1
      else if st.procs[p].pc == UpSet(s) then 1
      else if st.procs[p].pc == DownDec(s) then st.sems[s].value - 1
      else st.sems[s].value
    ensures Step(st, p).sems[s].value >= 0
  {
    assert PcFacts(st, p);
  }

  /** A process that holds the lock of s keeps s as it is while another one steps. */
  lemma HolderKeeps(st: State, p: int, q: int, s: int)
    requires Inv(st) && InRange(st, p) && Enabled(st, p) && InRange(st, q) && q != p
    requires IsSem(st, s) && HoldsSem(st.procs[q].pc, s)
    ensures !HoldsSem(st.procs[p].pc, s)
    ensures IsSem(Step(st, p), s) && Step(st, p).sems[s].value == st.sems[s].value
    ensures Step(st, p).sems[s].kind == st.sems[s].kind
  {
    assert st.sems[s].lock == q;
    StepValue(st, p, s);
  }

  lemma OtherPcFacts(st: State, p: int, q: int)
    requires Inv(st) && InRange(st, p) && Enabled(st, p) && InRange(st, q) && q != p
    ensures WellTyped(Step(st, p)) && PcFacts(Step(st, p), q)
  {
    StepTyped(st, p);
    StepPcs(st, p, q);
    assert PcFacts(st, q);
    var pc := st.procs[q].pc;
    if pc.UpTest? || pc.UpSet? || pc.UpWake? || pc.UpLook? || pc.UpInc? || pc.SleepAcq? || pc.SleepRel? || pc.DownDec? {
      HolderKeeps(st, p, q, pc.s);
      if pc.UpWake? || pc.UpLook? { StepScanned(st, p, pc.s, pc.i); }
      if pc.UpInc? { StepScanned(st, p, pc.s, |st.procs|); }
    }
  }

  lemma UpPcFacts(st: State, p: int)
    requires Inv(st) && InRange(st, p) && Enabled(st, p) && InUp(st.procs[p].pc)
    ensures WellTyped(Step(st, p)) && PcFacts(Step(st, p), p)
  {
    StepTyped(st, p);
    assert PcFacts(st, p);
    var pc := st.procs[p].pc;
    match pc
    case UpTest(s) =>
      assert NoLostWakeup(st, s) && HoldsSem(pc, s);
      if st.sems[s].value > 0 { StepScanned(st, p, s, |st.procs|); }
    case UpWake(s, i) =>
      StepScanned(st, p, s, i);
      assert i == p ==> !Committed(Step(st, p), p, s);
    case UpLook(s, i) => LookRouses(st, p, s, i);
    case _ =>
  }

  lemma OwnPcFacts(st: State, p: int)
    requires Inv(st) && InRange(st, p) && Enabled(st, p)
    ensures WellTyped(Step(st, p)) && PcFacts(Step(st, p), p)
  {
    if InUp(st.procs[p].pc) {
      UpPcFacts(st, p);
    } else {
      StepTyped(st, p);
      assert PcFacts(st, p);
      if st.procs[p].pc.DownTest? { assert NoLostWakeup(st, st.procs[p].pc.s); }
    }
  }

  /** No lost wakeup, one step: whatever p does, a positive semaphore gains no sleeper. */
  lemma StepNoLostWakeup(st: State, p: int, s: int)
    requires Inv(st) && InRange(st, p) && Enabled(st, p) && IsSem(st, s)
    ensures IsSem(Step(st, p), s) && NoLostWakeup(Step(st, p), s)
  {
    StepTyped(st, p);
    StepValue(st, p, s);
    var next := Step(st, p);
    assert NoLostWakeup(st, s) && PcFacts(st, p);
    if next.sems[s].value > 0 {
      var pc := st.procs[p].pc;
      assert pc != SleepRel(s);
      StepSemLock(st, p, s);
      assert HoldsSem(pc, s) ==> st.sems[s].lock == p;
      if pc == UpInc(s) {
        StepScanned(st, p, s, |st.procs|);
      } else if pc == UpSet(s) {
        assert Scanning(next, s);
      } else if ScannedTo(st, s, |st.procs|) {
        StepScanned(st, p, s, |st.procs|);
      } else {
        ScanGoesOn(st, p, s);
      }
    }
  }

  /** A wakeup under way either goes on or has looked at everyone. */
  lemma ScanGoesOn(st: State, p: int, s: int)
    requires Inv(st) && InRange(st, p) && Enabled(st, p) && IsSem(st, s) && Scanning(st, s)
    requires st.sems[s].kind.Mutex?
    ensures IsSem(Step(st, p), s)
    ensures Scanning(Step(st, p), s) || ScannedTo(Step(st, p), s, |Step(st, p).procs|)
  {
    StepTyped(st, p);
    StepSemLock(st, p, s);
    var h := st.sems[s].lock;
    if h != p {
      StepPcs(st, p, h);
    } else {
      assert PcFacts(st, p);
      if st.procs[p].pc.UpWake? { StepScanned(st, p, s, st.procs[p].pc.i); }
    }
  }

  lemma StepKeepsInv(st: State, p: int)
    requires Inv(st) && InRange(st, p) && Enabled(st, p)
    ensures Inv(Step(st, p))
  {
    StepTyped(st, p);
    StepSemLocks(st, p);
    StepProcLocks(st, p);
    StepSleepOk(st, p);
    var next := Step(st, p);
    forall s | 0 <= s < |next.sems| ensures NoLostWakeup(next, s) && next.sems[s].value >= 0 {
      StepNoLostWakeup(st, p, s);
      StepValue(st, p, s);
    }
    forall q | 0 <= q < |next.procs| ensures PcFacts(next, q) {
      if q == p { OwnPcFacts(st, p); } else { OtherPcFacts(st, p, q); }
    }
  }
}

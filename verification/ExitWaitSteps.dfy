/** What one step of ExitWait can change, and that it keeps the locks in order. */
module ExitWaitSteps {
  import opened ExitWait

  /** How a step by p may change the slot q of another process. */
  predicate Touch(st: State, next: State, p: int, q: int)
    requires Is(st, p) && Is(st, q) && Is(next, q) && Is(next, p)
  {
    var old_, new_, pc := st.procs[q], next.procs[q], st.procs[p].pc;
    && (new_.pc == old_.pc || (new_.pc.User? && pc == ForkRun(q)))
    && (new_.pid == old_.pid || (old_.status == Unused && pc.User? && new_.pid == |st.slotOf|) || new_.status == Unused)
    && (new_.maker == old_.maker || old_.status == Unused || new_.status == Unused || pc == ForkRun(q))
    && TouchStatus(st, next, p, q) && TouchParent(st, next, p, q)
  }

  predicate TouchStatus(st: State, next: State, p: int, q: int)
    requires Is(st, p) && Is(st, q) && Is(next, q) && Is(next, p)
  {
    var old_, new_, pc := st.procs[q].status, next.procs[q].status, st.procs[p].pc;
    || new_ == old_
    || (old_ == Sleeping && new_ == Runnable)
    || (new_ == Runnable && pc == ForkRun(q))
    || (old_ == Unused && new_ == Embryo && pc.User? && next.procs[q].maker == p && next.procs[p].pc == ForkAlloc(q)
        && next.procs[q].parent == st.procs[q].parent)
    || (new_ == Unused && next.procs[q].parent == -1 && next.procs[q].pc.Unborn? && pc == ForkAlloc(q) && next.procs[p].pc.User?)
    || (new_ == Unused && next.procs[q].parent == -1 && next.procs[q].pc.Unborn? && old_ == Zombie && st.procs[q].parent == p
        && pc.WaitScan? && pc.i == q)
  }

  predicate TouchParent(st: State, next: State, p: int, q: int)
    requires Is(st, p) && Is(st, q) && Is(next, q) && Is(next, p)
  {
    var old_, new_, pc := st.procs[q].parent, next.procs[q].parent, st.procs[p].pc;
    || new_ == old_
    || (new_ == p && pc == ForkSet(q))
    || (old_ == p && new_ == INIT && pc == Reparent(q))
    || (new_ == -1 && next.procs[q].status == Unused)
  }

  /** How a step may change the slot of the process that takes it. */
  predicate OwnTouch(st: State, next: State, p: int)
    requires Is(st, p) && Is(next, p)
  {
    var old_, new_ := st.procs[p], next.procs[p];
    && new_.parent == old_.parent && new_.pid == old_.pid && new_.maker == old_.maker
    && new_.status == (if old_.pc.ExitZombie? then Zombie else if old_.pc.WaitSet? then Sleeping else old_.status)
  }

  ghost predicate Effects(st: State, next: State, p: int) {
    && |next.procs| == |st.procs| && Is(st, p) && Is(next, p) && OwnTouch(st, next, p) && PcOk(st, next.procs[p].pc)
    && (forall q {:trigger Touch(st, next, p, q)} :: Is(st, q) && q != p ==> Touch(st, next, p, q))
  }

  /** Nobody is his own child, and a process is not the one it is forking. */
  lemma NotItself(st: State, p: int)
    requires Inv(st) && Is(st, p) && (OnCpu(st.procs[p]) || st.procs[p].pc.Asleep?)
    ensures st.procs[p].parent != p
    ensures InFork(st.procs[p].pc) ==> PcOk(st, st.procs[p].pc) && (st.procs[p].pc.ForkDone? || st.procs[p].pc.np != p)
    ensures st.procs[p].pc.WaitScan? ==> PcOk(st, st.procs[p].pc)
  {
    assert SlotOk(st, p) && ParentOk(st, p);
  }

  lemma ForkEffects(st: State, p: int)
    requires Inv(st) && Is(st, p) && InFork(st.procs[p].pc) && CanRun(st, p)
    ensures Effects(st, RunFork(st, p), p)
  {
    NotItself(st, p);
    assert PcOk(st, st.procs[p].pc);
    var next := RunFork(st, p);
    forall q | Is(st, q) && q != p ensures Touch(st, next, p, q) {}
  }

  /** Exit steps leave all of another slot but its parent and a wakeup. */
  lemma ExitTouches(st: State, p: int)
    requires Sized(st) && Is(st, p) && InExit(st.procs[p].pc) && CanRun(st, p) && st.procs[p].parent != p
    ensures |RunExit(st, p).procs| == |st.procs| && PcOk(st, RunExit(st, p).procs[p].pc)
    ensures forall q {:trigger RunExit(st, p).procs[q]} :: Is(st, q) && q != p ==>
      var old_, new_ := st.procs[q], RunExit(st, p).procs[q];
      new_.pc == old_.pc && new_.pid == old_.pid && new_.maker == old_.maker
    ensures OwnTouch(st, RunExit(st, p), p)
  {
    assert PcOk(st, st.procs[p].pc);
  }

  /** reparent gives the slot it looks at to init. */
  lemma ExitParents(st: State, p: int)
    requires Sized(st) && Is(st, p) && InExit(st.procs[p].pc) && CanRun(st, p)
    ensures |RunExit(st, p).procs| == |st.procs|
    ensures forall q {:trigger RunExit(st, p).procs[q]} :: Is(st, q) ==>
      RunExit(st, p).procs[q].parent ==
        if st.procs[p].pc == Reparent(q) && st.procs[q].parent == p then INIT else st.procs[q].parent
  {
    assert PcOk(st, st.procs[p].pc);
  }

  /** p's exit is at q, and q is who it is waking. */
  predicate Wakes(st: State, p: int, q: int)
    requires Is(st, p)
  {
    (st.procs[p].pc.ReparentWake? && st.procs[p].pc.i == q == INIT)
    || (st.procs[p].pc.ExitWake? && st.procs[p].pc.i == q == st.procs[p].parent)
  }

  lemma ExitStatus(st: State, p: int)
    requires Sized(st) && Is(st, p) && InExit(st.procs[p].pc) && CanRun(st, p)
    ensures |RunExit(st, p).procs| == |st.procs|
    ensures forall q {:trigger RunExit(st, p).procs[q]} :: Is(st, q) && q != p ==>
      RunExit(st, p).procs[q].status ==
        if Wakes(st, p, q) && st.procs[q].status == Sleeping then Runnable else st.procs[q].status
  {
    assert PcOk(st, st.procs[p].pc);
  }

  lemma ExitEffects(st: State, p: int)
    requires Inv(st) && Is(st, p) && InExit(st.procs[p].pc) && CanRun(st, p)
    ensures Effects(st, RunExit(st, p), p)
  {
    NotItself(st, p);
    ExitTouches(st, p);
    ExitParents(st, p);
    ExitStatus(st, p);
    var next := RunExit(st, p);
    forall q | Is(st, q) && q != p ensures Touch(st, next, p, q) {
      assert next.procs[q].pc == st.procs[q].pc;
    }
  }

  lemma WaitPcOk(st: State, p: int)
    requires Sized(st) && Is(st, p) && !InFork(st.procs[p].pc) && !InExit(st.procs[p].pc) && CanRun(st, p)
    ensures |RunWait(st, p).procs| == |st.procs| && PcOk(st, RunWait(st, p).procs[p].pc)
  {
    assert PcOk(st, st.procs[p].pc);
  }

  lemma WaitOwn(st: State, p: int)
    requires Sized(st) && Is(st, p) && !InFork(st.procs[p].pc) && !InExit(st.procs[p].pc) && CanRun(st, p)
    requires st.procs[p].status == Runnable && st.procs[p].parent != p
    ensures |RunWait(st, p).procs| == |st.procs| && OwnTouch(st, RunWait(st, p), p)
  {
    WaitPcOk(st, p);
    assert PcOk(st, st.procs[p].pc);
  }

  /** wait frees the dead child it finds; kill marks its victim and wakes it; nothing else is touched. */
  lemma WaitOthers(st: State, p: int, q: int)
    requires Sized(st) && Is(st, p) && !InFork(st.procs[p].pc) && !InExit(st.procs[p].pc) && CanRun(st, p)
    requires Is(st, q) && q != p
    ensures |RunWait(st, p).procs| == |st.procs|
    ensures RunWait(st, p).procs[q] ==
      if st.procs[p].pc.WaitScan? && st.procs[p].pc.i == q && st.procs[q].parent == p && st.procs[q].status == Zombie
      then Freed(st.procs[q])
      else if st.procs[p].pc == KillAt(q)
      then st.procs[q].(killed := true, lock := FREE,
                        status := if st.procs[q].status == Sleeping then Runnable else st.procs[q].status)
      else st.procs[q]
  {
    assert PcOk(st, st.procs[p].pc);
  }

  lemma WaitEffects(st: State, p: int)
    requires Inv(st) && Is(st, p) && !InFork(st.procs[p].pc) && !InExit(st.procs[p].pc) && CanRun(st, p)
    ensures Effects(st, RunWait(st, p), p)
  {
    assert SlotOk(st, p) && ParentOk(st, p);
    WaitOwn(st, p);
    WaitPcOk(st, p);
    var next := RunWait(st, p);
    forall q | Is(st, q) && q != p ensures Touch(st, next, p, q) {
      WaitOthers(st, p, q);
      assert SlotOk(st, q);
      assert HoldsProc(st.procs[q].pc, q, q) ==> st.procs[q].lock == q;
    }
  }

  lemma UserOwn(st: State, l: Label)
    requires Inv(st) && Enabled(st, l) && !l.Run?
    ensures |UserStep(st, l).procs| == |st.procs| && OwnTouch(st, UserStep(st, l), l.p) && PcOk(st, UserStep(st, l).procs[l.p].pc)
  {
    NotItself(st, l.p);
    assert SlotOk(st, l.p);
  }

  lemma UserEffects(st: State, l: Label)
    requires Inv(st) && Enabled(st, l) && !l.Run?
    ensures Effects(st, UserStep(st, l), l.p)
  {
    NotItself(st, l.p);
    UserOwn(st, l);
    var next := UserStep(st, l);
    forall q | Is(st, q) && q != l.p ensures Touch(st, next, l.p, q) {
      assert SlotOk(st, q) && SlotOk(st, l.p);
    }
  }

  lemma StepEffects(st: State, l: Label)
    requires Inv(st) && Enabled(st, l)
    ensures Effects(st, Apply(st, l), l.p)
  {
    if !l.Run? { UserEffects(st, l); }
    else if InFork(st.procs[l.p].pc) { ForkEffects(st, l.p); }
    else if InExit(st.procs[l.p].pc) { ExitEffects(st, l.p); }
    else { WaitEffects(st, l.p); }
  }

  // ---------------------------------------------------------------- locks

  /** A step by p takes or lets go of wait_lock exactly as its pc says. */
  predicate WaitLockMoves(st: State, next: State, p: int)
    requires Is(st, p) && Is(next, p)
  {
    && next.waitLock == (if HoldsWait(next.procs[p].pc) then p else if HoldsWait(st.procs[p].pc) then FREE else st.waitLock)
    && (HoldsWait(next.procs[p].pc) ==> st.waitLock == FREE || st.waitLock == p)
  }

  predicate ProcLockMoves(st: State, next: State, p: int, q: int)
    requires Is(st, p) && Is(next, p) && Is(st, q) && Is(next, q)
  {
    && next.procs[q].lock == (if HoldsProc(next.procs[p].pc, p, q) then p
                              else if HoldsProc(st.procs[p].pc, p, q) then FREE
                              else st.procs[q].lock)
    && (HoldsProc(next.procs[p].pc, p, q) ==> st.procs[q].lock == FREE || st.procs[q].lock == p)
  }

  lemma ForkWaitLock(st: State, p: int)
    requires Sized(st) && Is(st, p) && InFork(st.procs[p].pc) && CanRun(st, p)
    requires HoldsWait(st.procs[p].pc) ==> st.waitLock == p
    requires InFork(st.procs[p].pc) && st.procs[p].pc.np == p ==> st.procs[p].pc.ForkDone?
    ensures |RunFork(st, p).procs| == |st.procs| && WaitLockMoves(st, RunFork(st, p), p)
  {
    assert PcOk(st, st.procs[p].pc);
  }

  lemma ForkProcLock(st: State, p: int, q: int)
    requires Sized(st) && Is(st, p) && InFork(st.procs[p].pc) && CanRun(st, p) && Is(st, q)
    requires HoldsProc(st.procs[p].pc, p, q) ==> st.procs[q].lock == p
    requires InFork(st.procs[p].pc) && st.procs[p].pc.np == p ==> st.procs[p].pc.ForkDone?
    ensures |RunFork(st, p).procs| == |st.procs| && ProcLockMoves(st, RunFork(st, p), p, q)
  {
    assert PcOk(st, st.procs[p].pc);
  }

  lemma ExitWaitLock(st: State, p: int)
    requires Sized(st) && Is(st, p) && InExit(st.procs[p].pc) && CanRun(st, p)
    requires HoldsWait(st.procs[p].pc) ==> st.waitLock == p
    ensures |RunExit(st, p).procs| == |st.procs| && WaitLockMoves(st, RunExit(st, p), p)
  {
    assert PcOk(st, st.procs[p].pc);
  }

  lemma EndProcLock(st: State, p: int, q: int)
    requires Sized(st) && Is(st, p) && InExit(st.procs[p].pc) && CanRun(st, p) && Is(st, q)
    requires st.procs[p].pc.ExitLock? || st.procs[p].pc.ExitZombie? || st.procs[p].pc.ExitUnlock? || st.procs[p].pc.ExitSched?
    requires HoldsProc(st.procs[p].pc, p, q) ==> st.procs[q].lock == p
    ensures |RunExit(st, p).procs| == |st.procs| && ProcLockMoves(st, RunExit(st, p), p, q)
  {
  }

  lemma ExitProcLock(st: State, p: int, q: int)
    requires Sized(st) && Is(st, p) && InExit(st.procs[p].pc) && CanRun(st, p) && Is(st, q)
    requires HoldsProc(st.procs[p].pc, p, q) ==> st.procs[q].lock == p
    ensures |RunExit(st, p).procs| == |st.procs| && ProcLockMoves(st, RunExit(st, p), p, q)
  {
    assert PcOk(st, st.procs[p].pc);
    var pc := st.procs[p].pc;
    if pc.ExitLock? || pc.ExitZombie? || pc.ExitUnlock? || pc.ExitSched? { EndProcLock(st, p, q); }
  }

  lemma WaitWaitLock(st: State, p: int)
    requires Sized(st) && Is(st, p) && !InFork(st.procs[p].pc) && !InExit(st.procs[p].pc) && CanRun(st, p)
    requires HoldsWait(st.procs[p].pc) ==> st.waitLock == p
    requires st.procs[p].parent != p
    ensures |RunWait(st, p).procs| == |st.procs| && WaitLockMoves(st, RunWait(st, p), p)
  {
    assert PcOk(st, st.procs[p].pc);
  }

  predicate ToSleep(pc: Pc) {
    pc.WaitEnd? || pc.WaitSleep? || pc.WaitRel? || pc.WaitSet? || pc.Asleep? || pc.WaitTidy?
  }

  lemma SleepProcLock(st: State, p: int, q: int)
    requires Sized(st) && Is(st, p) && ToSleep(st.procs[p].pc) && CanRun(st, p) && Is(st, q)
    requires HoldsProc(st.procs[p].pc, p, q) ==> st.procs[q].lock == p
    ensures |RunWait(st, p).procs| == |st.procs| && ProcLockMoves(st, RunWait(st, p), p, q)
  {
  }

  lemma WaitProcLock(st: State, p: int, q: int)
    requires Sized(st) && Is(st, p) && !InFork(st.procs[p].pc) && !InExit(st.procs[p].pc) && CanRun(st, p) && Is(st, q)
    requires HoldsProc(st.procs[p].pc, p, q) ==> st.procs[q].lock == p
    requires st.procs[p].parent != p
    ensures |RunWait(st, p).procs| == |st.procs| && ProcLockMoves(st, RunWait(st, p), p, q)
  {
    assert PcOk(st, st.procs[p].pc);
    if ToSleep(st.procs[p].pc) { SleepProcLock(st, p, q); }
  }

  lemma UserWaitLock(st: State, l: Label)
    requires Sized(st) && Enabled(st, l) && !l.Run? && (HoldsWait(st.procs[l.p].pc) ==> st.waitLock == l.p)
    requires st.procs[l.p].pc.ForkAlloc? ==> st.procs[l.p].pc.np != l.p
    ensures |UserStep(st, l).procs| == |st.procs| && WaitLockMoves(st, UserStep(st, l), l.p)
  {
    assert PcOk(st, st.procs[l.p].pc);
  }

  lemma UserProcLock(st: State, l: Label, q: int)
    requires Sized(st) && Enabled(st, l) && !l.Run? && Is(st, q)
    requires HoldsProc(st.procs[l.p].pc, l.p, q) ==> st.procs[q].lock == l.p
    requires st.procs[l.p].pc.ForkAlloc? ==> st.procs[l.p].pc.np != l.p
    ensures |UserStep(st, l).procs| == |st.procs| && ProcLockMoves(st, UserStep(st, l), l.p, q)
  {
    assert PcOk(st, st.procs[l.p].pc);
  }

  lemma StepWaitLock(st: State, l: Label)
    requires Inv(st) && Enabled(st, l)
    ensures |Apply(st, l).procs| == |st.procs| && WaitLockMoves(st, Apply(st, l), l.p)
  {
    NotItself(st, l.p);
    assert HoldsWait(st.procs[l.p].pc) ==> st.waitLock == l.p;
    if !l.Run? { UserWaitLock(st, l); }
    else if InFork(st.procs[l.p].pc) { ForkWaitLock(st, l.p); }
    else if InExit(st.procs[l.p].pc) { ExitWaitLock(st, l.p); }
    else { WaitWaitLock(st, l.p); }
  }

  lemma StepProcLock(st: State, l: Label, q: int)
    requires Inv(st) && Enabled(st, l) && Is(st, q)
    ensures |Apply(st, l).procs| == |st.procs| && ProcLockMoves(st, Apply(st, l), l.p, q)
  {
    NotItself(st, l.p);
    assert HoldsProc(st.procs[l.p].pc, l.p, q) ==> st.procs[q].lock == l.p;
    if !l.Run? { UserProcLock(st, l, q); }
    else if InFork(st.procs[l.p].pc) { ForkProcLock(st, l.p, q); }
    else if InExit(st.procs[l.p].pc) { ExitProcLock(st, l.p, q); }
    else { WaitProcLock(st, l.p, q); }
  }

  lemma KeepsWaitLock(st: State, next: State, p: int)
    requires WaitLockOk(st) && Effects(st, next, p) && WaitLockMoves(st, next, p)
    requires forall q :: Is(st, q) && st.procs[p].pc == ForkRun(q) ==> st.procs[q].pc.Unborn?
    ensures WaitLockOk(next)
  {
    forall q | Is(next, q) && HoldsWait(next.procs[q].pc) ensures next.waitLock == q {
      if q != p { assert Touch(st, next, p, q); }
    }
    if next.waitLock != FREE && next.waitLock != p { assert Touch(st, next, p, next.waitLock); }
  }

  lemma KeepsProcLocks(st: State, next: State, p: int)
    requires ProcLocksOk(st) && Effects(st, next, p) && (forall q :: Is(st, q) && q != p ==> SlotOk(st, q))
    requires forall q {:trigger ProcLockMoves(st, next, p, q)} :: Is(st, q) ==> ProcLockMoves(st, next, p, q)
    requires forall q :: Is(st, q) && st.procs[p].pc == ForkRun(q) ==> st.procs[q].pc.Unborn?
    ensures ProcLocksOk(next)
  {
    forall r, q | Is(next, r) && Is(next, q) && HoldsProc(next.procs[r].pc, r, q) ensures next.procs[q].lock == r {
      assert ProcLockMoves(st, next, p, q);
      if r != p { assert Touch(st, next, p, r); }
    }
    forall q | 0 <= q < |next.procs| && next.procs[q].lock != FREE
      ensures Is(next, next.procs[q].lock) && HoldsProc(next.procs[next.procs[q].lock].pc, next.procs[q].lock, q)
    {
      assert ProcLockMoves(st, next, p, q);
      if next.procs[q].lock != p { assert Touch(st, next, p, next.procs[q].lock); }
    }
  }

  lemma StepKeepsLocks(st: State, l: Label)
    requires Inv(st) && Enabled(st, l)
    ensures WaitLockOk(Apply(st, l)) && ProcLocksOk(Apply(st, l))
  {
    StepEffects(st, l);
    StepWaitLock(st, l);
    forall q | Is(st, q) ensures ProcLockMoves(st, Apply(st, l), l.p, q) { StepProcLock(st, l, q); }
    forall q | Is(st, q) && st.procs[l.p].pc == ForkRun(q) ensures st.procs[q].pc.Unborn? { assert SlotOk(st, l.p) && SlotOk(st, q); }
    KeepsWaitLock(st, Apply(st, l), l.p);
    KeepsProcLocks(st, Apply(st, l), l.p);
  }
}

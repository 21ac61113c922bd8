/** Every step of ExitWait keeps what waiting parents and exiting children rely on. */
module ExitWaitChildren {
  import opened ExitWait
  import opened ExitWaitSteps
  import opened ExitWaitFamily

  // ---------------------------------------------------------------- who is whose child

  /** A child of q after p's step was one before, or p has just forked it, or p has just given it to init. */
  lemma ChildBack(st: State, next: State, p: int, c: int, q: int)
    requires Moves(st, next, p) && Is(st, q) && ChildOf(next, c, q)
    ensures ChildOf(st, c, q) || (q == p && st.procs[p].pc == ForkSet(c))
      || (q == INIT && st.procs[p].pc == Reparent(c) && ChildOf(st, c, p))
  {
    if c != p { assert Touch(st, next, p, c); }
  }

  /** Only a process itself loses its children. */
  lemma ChildForward(st: State, next: State, p: int, c: int, q: int)
    requires Moves(st, next, p) && Is(st, q) && q != p && ChildOf(st, c, q) && SlotOk(st, p) && SlotOk(st, c)
    ensures ChildOf(next, c, q)
  {
    if c != p { assert Touch(st, next, p, c); }
  }

  lemma DeadBack(st: State, next: State, p: int, c: int, q: int)
    requires Moves(st, next, p) && Is(st, q) && DeadChild(next, c, q) && SlotOk(st, p)
    requires Is(st, c) && SlotOk(st, c)
    ensures DeadChild(st, c, q) || (c == p && st.procs[p].pc.ExitZombie? && st.procs[p].parent == q)
      || (q == INIT && st.procs[p].pc == Reparent(c) && DeadChild(st, c, p))
  {
    ChildBack(st, next, p, c, q);
    if c != p { assert Touch(st, next, p, c); }
  }

  lemma CommitBack(st: State, next: State, p: int, q: int)
    requires Moves(st, next, p) && Is(st, q) && Committed(next, q)
    requires st.procs[p].pc.Asleep? ==> st.procs[p].status == Runnable
    ensures Committed(st, q) || (q == p && st.procs[p].pc.WaitRel?) || (q == p && next.procs[p].pc.WaitSet?)
  {
    if q != p { assert Touch(st, next, p, q); }
  }

  // ---------------------------------------------------------------- while another process holds wait_lock

  /** A process that holds wait_lock finds its own facts undisturbed by anyone else's step. */
  lemma OtherFacts(st: State, next: State, p: int, q: int)
    requires Inv(st) && Sized(next) && Moves(st, next, p) && Is(st, q) && q != p && WaitLockMoves(st, next, p)
    requires st.procs[p].pc.Asleep? ==> st.procs[p].status == Runnable
    requires next.procs[p].pc.WaitSet? ==> st.procs[p].pc.WaitRel?
    requires next.reaped != st.reaped ==> HoldsWait(st.procs[p].pc)
    ensures PcFacts(next, q)
  {
    assert Touch(st, next, p, q) && PcFacts(st, q) && SlotOk(st, p) && SlotOk(st, q);
    if HoldsWait(st.procs[q].pc) {
      assert st.waitLock == q;
      assert HoldsWait(st.procs[p].pc) ==> st.waitLock == p;
      forall c | ChildOf(next, c, q) ensures ChildOf(st, c, q) { ChildBack(st, next, p, c, q); }
      forall c | DeadChild(next, c, q) ensures DeadChild(st, c, q) { assert SlotOk(st, c); DeadBack(st, next, p, c, q); }
      if c :| ChildOf(st, c, q) { assert SlotOk(st, c); ChildForward(st, next, p, c, q); }
      var r := st.procs[q].parent;
      if Is(st, r) && Committed(next, r) { CommitBack(st, next, p, r); }
    }
  }

  // ---------------------------------------------------------------- a process's own facts

  /** On its way to sleep a process holds its own p->lock, so no wakeup can look at it there. */
  lemma OnTheWay(st: State, q: int)
    requires ProcLocksOk(st) && Is(st, q)
    ensures st.procs[q].pc.WaitSet? ==> st.procs[q].lock == q
  {
    assert HoldsProc(st.procs[q].pc, q, q) ==> st.procs[q].lock == q;
  }

  lemma ExitFacts(st: State, p: int)
    requires Sized(st) && Is(st, p) && InExit(st.procs[p].pc) && CanRun(st, p) && PcFacts(st, p)
    requires st.procs[p].parent != p && p != INIT
    requires forall q {:trigger st.procs[q]} :: Is(st, q) && st.procs[q].lock == FREE ==> !st.procs[q].pc.WaitSet?
    ensures Sized(RunExit(st, p)) ==> PcFacts(RunExit(st, p), p)
  {
    assert PcOk(st, st.procs[p].pc);
    ExitParents(st, p);
    ExitTouches(st, p);
    var next := RunExit(st, p);
    forall c | ChildOf(next, c, p) ensures ChildOf(st, c, p) && st.procs[p].pc != Reparent(c) {
      assert next.procs[c].parent == p;
    }
  }

  /** A step of wait that takes no child leaves every other process, so children are as they were. */
  lemma SameChildren(st: State, p: int)
    requires Sized(st) && Is(st, p) && CanRun(st, p) && st.procs[p].parent != p && st.procs[p].status == Runnable
    requires var pc := st.procs[p].pc; pc.WaitScan? || pc.WaitEnd? || pc.WaitSleep?
    requires var next := RunWait(st, p); Is(next, p) && !next.procs[p].pc.WaitDone?
    ensures forall c :: ChildOf(RunWait(st, p), c, p) <==> ChildOf(st, c, p)
    ensures forall c :: DeadChild(RunWait(st, p), c, p) <==> DeadChild(st, c, p)
  {
    WaitOwn(st, p);
    var next := RunWait(st, p);
    forall q | Is(st, q) && q != p ensures next.procs[q] == st.procs[q] { WaitOthers(st, p, q); }
  }

  lemma ScanFacts(st: State, p: int)
    requires Sized(st) && Is(st, p) && st.procs[p].pc.WaitScan? && CanRun(st, p) && PcFacts(st, p)
    requires st.procs[p].parent != p && st.procs[p].status == Runnable
    ensures Sized(RunWait(st, p)) ==> PcFacts(RunWait(st, p), p)
  {
    assert PcOk(st, st.procs[p].pc);
    WaitPcOk(st, p);
    var next, pc := RunWait(st, p), st.procs[p].pc;
    if !next.procs[p].pc.WaitDone? {
      SameChildren(st, p);
      if pc.i < |st.procs| && st.procs[pc.i].parent == p { assert ChildOf(st, pc.i, p); }
    }
  }

  lemma WaitFacts(st: State, p: int)
    requires Sized(st) && Is(st, p) && !InFork(st.procs[p].pc) && !InExit(st.procs[p].pc) && CanRun(st, p) && PcFacts(st, p)
    requires st.procs[p].parent != p && st.procs[p].status == Runnable
    ensures Sized(RunWait(st, p)) ==> PcFacts(RunWait(st, p), p)
  {
    assert PcOk(st, st.procs[p].pc);
    WaitPcOk(st, p);
    if st.procs[p].pc.WaitScan? {
      ScanFacts(st, p);
    } else if st.procs[p].pc.WaitEnd? || st.procs[p].pc.WaitSleep? {
      SameChildren(st, p);
    }
  }

  // ---------------------------------------------------------------- who is asleep in wait

  /** A reparent by someone else is still at the same place. */
  lemma StillGiving(st: State, next: State, p: int)
    requires WaitLockOk(st) && SlotsOk(st) && Moves(st, next, p) && WaitLockMoves(st, next, p)
    requires GivingToInit(st) && st.waitLock != p
    ensures GivingToInit(next)
  {
    var h := st.waitLock;
    assert Touch(st, next, p, h) && SlotOk(st, h) && SlotOk(st, p);
    assert HoldsWait(st.procs[p].pc) ==> st.waitLock == p;
  }

  /** A dead child of q that p's step has made is one q has been told about, or a gift to init. */
  lemma NewDeadChild(st: State, next: State, p: int, q: int, d: int)
    requires Inv(st) && Sized(next) && Moves(st, next, p) && Is(st, q) && q != p && WaitLockMoves(st, next, p)
    requires GiftKept(st, next, p) && Committed(st, q) && DeadChild(next, d, q)
    ensures DeadChild(st, d, q) || (q == INIT && GivingToInit(next))
  {
    assert SlotOk(st, p) && PcFacts(st, p) && SlotOk(st, d);
    DeadBack(st, next, p, d, q);
  }

  /** A process asleep in wait, other than the one that takes the step. */
  lemma OtherWaiter(st: State, next: State, p: int, q: int)
    requires Inv(st) && Sized(next) && Moves(st, next, p) && Is(st, q) && q != p && WaitLockMoves(st, next, p)
    requires GiftKept(st, next, p)
    ensures WaiterOk(next, q)
  {
    if Committed(next, q) {
      assert Touch(st, next, p, q) && WaiterOk(st, q) && SlotOk(st, p);
      var c :| ChildOf(st, c, q);
      assert SlotOk(st, c);
      ChildForward(st, next, p, c, q);
      if d :| DeadChild(next, d, q) {
        NewDeadChild(st, next, p, q, d);
        if DeadChild(st, d, q) && st.waitLock != p { StillGiving(st, next, p); }
      }
    }
  }

  /** reparent goes straight on to wake init, and has woken it when it passes it by. */
  predicate GiftKept(st: State, next: State, p: int)
    requires Is(st, p) && Is(next, p) && Is(next, INIT)
  {
    var pc, pc' := st.procs[p].pc, next.procs[p].pc;
    && (pc.Reparent? && Is(st, pc.k) && st.procs[pc.k].parent == p ==> pc' == ReparentWake(pc.k, 0))
    && (pc.ReparentWake? && pc.i <= INIT ==> !Committed(next, INIT))
  }

  lemma ExitGift(st: State, p: int)
    requires Sized(st) && Is(st, p) && InExit(st.procs[p].pc) && CanRun(st, p) && p != INIT && Is(st, INIT)
    requires st.procs[INIT].lock == FREE ==> !st.procs[INIT].pc.WaitSet?
    ensures |RunExit(st, p).procs| == |st.procs| && GiftKept(st, RunExit(st, p), p)
  {
    assert PcOk(st, st.procs[p].pc);
  }

  lemma StepGift(st: State, l: Label)
    requires Inv(st) && Enabled(st, l)
    ensures |Apply(st, l).procs| == |st.procs| && GiftKept(st, Apply(st, l), l.p)
  {
    StepMoves(st, l);
    assert SlotOk(st, l.p);
    if l.Run? && InExit(st.procs[l.p].pc) {
      OnTheWay(st, INIT);
      if !st.procs[l.p].pc.ExitUnlock? && !st.procs[l.p].pc.ExitSched? { ExitGift(st, l.p); }
    }
  }

  /** A process that goes to sleep in wait has just looked at all its children. */
  lemma OwnWaiter(st: State, p: int)
    requires Inv(st) && Is(st, p) && (st.procs[p].pc.WaitRel? || st.procs[p].pc.WaitSet?) && CanRun(st, p)
    ensures Is(RunWait(st, p), p) && WaiterOk(RunWait(st, p), p)
  {
    var next := RunWait(st, p);
    assert PcFacts(st, p) && WaiterOk(st, p);
    var c :| ChildOf(st, c, p);
    assert ChildOf(next, c, p);
    forall d | DeadChild(next, d, p) ensures DeadChild(st, d, p) {}
    assert HoldsWait(st.procs[p].pc) ==> st.waitLock == p;
  }

  lemma StepWaiter(st: State, l: Label, q: int)
    requires Inv(st) && Enabled(st, l) && Is(st, q) && Sized(Apply(st, l))
    ensures Is(Apply(st, l), q) && WaiterOk(Apply(st, l), q)
  {
    StepMoves(st, l);
    StepWaitLock(st, l);
    StepGift(st, l);
    var next := Apply(st, l);
    if q != l.p {
      OtherWaiter(st, next, l.p, q);
    } else if Committed(next, q) {
      CommitsFrom(st, l);
      OwnWaiter(st, q);
    }
  }

  /** The only ways into sleep. */
  lemma CommitsFrom(st: State, l: Label)
    requires Inv(st) && Enabled(st, l)
    ensures Is(Apply(st, l), l.p)
    ensures Committed(Apply(st, l), l.p) ==> l.Run? && (st.procs[l.p].pc.WaitRel? || st.procs[l.p].pc.WaitSet?)
  {
    StepMoves(st, l);
    if l.Run? && InExit(st.procs[l.p].pc) { ExitNeverSleeps(st, l.p); }
    assert PcOk(st, st.procs[l.p].pc);
  }

  lemma ExitNeverSleeps(st: State, p: int)
    requires Sized(st) && Is(st, p) && InExit(st.procs[p].pc) && CanRun(st, p)
    ensures |RunExit(st, p).procs| == |st.procs|
    ensures !RunExit(st, p).procs[p].pc.WaitSet? && !RunExit(st, p).procs[p].pc.Asleep?
  {
    assert PcOk(st, st.procs[p].pc);
  }
}

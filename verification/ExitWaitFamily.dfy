/** Every step of ExitWait keeps slots, parents and pids in order. */
module ExitWaitFamily {
  import opened ExitWait
  import opened ExitWaitSteps

  // ---------------------------------------------------------------- how a process's own code moves on

  /** Where the pc can go at the ends of exit and of sleep. */
  predicate OwnEnds(st: State, next: State, p: int)
    requires Is(st, p) && Is(next, p)
  {
    var pc, pc' := st.procs[p].pc, next.procs[p].pc;
    && (pc'.Unborn? <==> pc.ExitSched?) && (pc'.ExitUnlock? <==> pc.ExitZombie?) && (pc'.ExitSched? <==> pc.ExitUnlock?)
    && (pc'.Asleep? <==> pc.WaitSet?)
    && (Exiting(pc') ==> Exiting(pc) || (pc.User? && p != INIT))
  }

  /** What becomes of the slot a fork is filling. */
  predicate OwnFork(st: State, next: State, p: int)
    requires Is(st, p) && Is(next, p)
  {
    var pc, pc' := st.procs[p].pc, next.procs[p].pc;
    && (Forking(pc) ==> Is(st, pc.np) && Is(next, pc.np))
    && (Forking(pc) ==>
          || (!pc.ForkRun? && Forking(pc') && pc'.np == pc.np && next.procs[pc.np].status == st.procs[pc.np].status
              && next.procs[pc.np].maker == st.procs[pc.np].maker
              && next.procs[pc.np].parent == (if pc.ForkSet? then p else st.procs[pc.np].parent)
              && ((pc'.ForkAlloc? || pc'.ForkLink? || pc'.ForkSet?) == (pc.ForkAlloc? || pc.ForkLink?)))
          || (pc.ForkRun? && pc' == ForkDone(pc.np) && next.procs[pc.np].status == Runnable && next.procs[pc.np].pc.User?
              && next.procs[pc.np].parent == st.procs[pc.np].parent)
          || (pc.ForkAlloc? && pc'.User? && next.procs[pc.np].status == Unused))
    && (!Forking(pc) && Forking(pc') ==>
          && pc.User? && pc'.ForkAlloc? && Is(st, pc'.np) && Is(next, pc'.np) && st.procs[pc'.np].status == Unused
          && next.procs[pc'.np].status == Embryo && next.procs[pc'.np].maker == p && next.procs[pc'.np].pc.Unborn?
          && next.procs[pc'.np].parent == st.procs[pc'.np].parent)
  }

  lemma ForkOwn(st: State, p: int)
    requires Sized(st) && Is(st, p) && InFork(st.procs[p].pc) && CanRun(st, p)
    requires st.procs[p].pc.np == p ==> st.procs[p].pc.ForkDone?
    ensures Is(RunFork(st, p), p) && OwnEnds(st, RunFork(st, p), p) && OwnFork(st, RunFork(st, p), p)
  {
    assert PcOk(st, st.procs[p].pc);
  }

  lemma ExitOwn(st: State, p: int)
    requires Sized(st) && Is(st, p) && InExit(st.procs[p].pc) && CanRun(st, p)
    ensures Is(RunExit(st, p), p) && OwnEnds(st, RunExit(st, p), p) && OwnFork(st, RunExit(st, p), p)
  {
    assert PcOk(st, st.procs[p].pc);
  }

  lemma WaitOwnPc(st: State, p: int)
    requires Sized(st) && Is(st, p) && !InFork(st.procs[p].pc) && !InExit(st.procs[p].pc) && CanRun(st, p)
    requires st.procs[p].parent != p && !st.procs[p].pc.Unborn?
    ensures Is(RunWait(st, p), p) && OwnEnds(st, RunWait(st, p), p) && OwnFork(st, RunWait(st, p), p)
  {
    assert PcOk(st, st.procs[p].pc);
  }

  lemma UserOwnPc(st: State, l: Label)
    requires Sized(st) && Enabled(st, l) && !l.Run? && (st.procs[l.p].pc.ForkAlloc? ==> st.procs[l.p].pc.np != l.p)
    requires st.procs[l.p].parent != l.p
    requires forall q :: Is(st, q) && st.procs[q].status == Unused ==> st.procs[q].pc.Unborn?
    ensures Is(UserStep(st, l), l.p) && OwnEnds(st, UserStep(st, l), l.p) && OwnFork(st, UserStep(st, l), l.p)
  {
    assert PcOk(st, st.procs[l.p].pc);
  }

  lemma StepOwn(st: State, l: Label)
    requires Inv(st) && Enabled(st, l)
    ensures Is(Apply(st, l), l.p) && OwnEnds(st, Apply(st, l), l.p) && OwnFork(st, Apply(st, l), l.p)
  {
    NotItself(st, l.p);
    assert SlotOk(st, l.p);
    forall q | Is(st, q) && st.procs[q].status == Unused ensures st.procs[q].pc.Unborn? { assert SlotOk(st, q); }
    if !l.Run? { UserOwnPc(st, l); }
    else if InFork(st.procs[l.p].pc) { ForkOwn(st, l.p); }
    else if InExit(st.procs[l.p].pc) { ExitOwn(st, l.p); }
    else { WaitOwnPc(st, l.p); }
  }

  // ---------------------------------------------------------------- slots

  /** Everything but the actor's PcFacts that a step's effect on slots depends on. */
  ghost predicate Moves(st: State, next: State, p: int) {
    Effects(st, next, p) && Is(next, p) && OwnEnds(st, next, p) && OwnFork(st, next, p)
  }

  lemma StepMoves(st: State, l: Label)
    requires Inv(st) && Enabled(st, l)
    ensures Moves(st, Apply(st, l), l.p)
  {
    StepEffects(st, l);
    StepOwn(st, l);
  }

  lemma KeepsOwnSlot(st: State, next: State, p: int)
    requires SlotsOk(st) && ParentsOk(st) && InitOk(st) && Moves(st, next, p)
    requires OnCpu(st.procs[p]) || st.procs[p].pc.Asleep?
    requires st.procs[p].pc.Asleep? ==> st.procs[p].status == Runnable
    ensures SlotOk(next, p)
  {
    assert SlotOk(st, p);
    if Forking(next.procs[p].pc) && !Forking(st.procs[p].pc) {
      assert SlotOk(st, next.procs[p].pc.np);
    }
  }

  lemma KeepsOtherSlot(st: State, next: State, p: int, q: int)
    requires SlotsOk(st) && ParentsOk(st) && InitOk(st) && Moves(st, next, p) && Is(st, q) && q != p
    requires OnCpu(st.procs[p]) || st.procs[p].pc.Asleep?
    ensures SlotOk(next, q)
  {
    assert SlotOk(st, q) && SlotOk(st, p) && Touch(st, next, p, q);
    if Forking(st.procs[q].pc) {
      var np := st.procs[q].pc.np;
      assert SlotOk(st, np);
      if np != p { assert Touch(st, next, p, np); }
    }
    if st.procs[q].status == Embryo {
      var r := st.procs[q].maker;
      assert SlotOk(st, r);
      if r != p { assert Touch(st, next, p, r); }
    }
  }

  // ---------------------------------------------------------------- parents

  lemma KeepsInit(st: State, next: State, p: int)
    requires SlotsOk(st) && InitOk(st) && Moves(st, next, p)
    ensures InitOk(next)
  {
    assert SlotOk(st, p);
    if p != INIT { assert Touch(st, next, p, INIT); }
  }

  /** A process that ends has no children left, so nobody's parent dies. */
  lemma KeepsParent(st: State, next: State, p: int, c: int)
    requires SlotsOk(st) && ParentsOk(st) && InitOk(st) && Moves(st, next, p) && Is(st, c)
    requires OnCpu(st.procs[p]) || st.procs[p].pc.Asleep?
    requires st.procs[p].pc.ExitZombie? ==> forall k :: !ChildOf(st, k, p)
    ensures ParentOk(next, c)
  {
    assert SlotOk(st, p) && SlotOk(st, c) && ParentOk(st, c);
    KeepsInit(st, next, p);
    if c != p { assert Touch(st, next, p, c); }
    var r := next.procs[c].parent;
    if Is(st, r) && r != p {
      assert Touch(st, next, p, r) && SlotOk(st, r);
    }
    assert st.procs[p].pc.ExitZombie? ==> !ChildOf(st, c, p);
  }
}

/** What holds in every state fork, exit, wait and kill can reach. */
module ExitWaitRuns {
  import opened ExitWait
  import opened ExitWaitSteps
  import opened ExitWaitFamily
  import opened ExitWaitChildren

  /** Only a process in wait, with wait_lock, takes children. */
  lemma ReapsWithLock(st: State, l: Label)
    requires Sized(st) && Enabled(st, l)
    ensures Apply(st, l).reaped != st.reaped ==> HoldsWait(st.procs[l.p].pc)
  {
    assert PcOk(st, st.procs[l.p].pc);
  }

  lemma StepFacts(st: State, l: Label, q: int)
    requires Inv(st) && Enabled(st, l) && Is(st, q) && Sized(Apply(st, l))
    ensures Is(Apply(st, l), q) && PcFacts(Apply(st, l), q)
  {
    StepMoves(st, l);
    StepWaitLock(st, l);
    CommitsFrom(st, l);
    var next, p := Apply(st, l), l.p;
    assert SlotOk(st, p) && PcFacts(st, p);
    NotItself(st, p);
    if q != p {
      ReapsWithLock(st, l);
      OtherFacts(st, next, p, q);
    } else if l.Run? && InExit(st.procs[p].pc) {
      forall r {:trigger st.procs[r]} | Is(st, r) && st.procs[r].lock == FREE ensures !st.procs[r].pc.WaitSet? { OnTheWay(st, r); }
      if !st.procs[p].pc.ExitUnlock? && !st.procs[p].pc.ExitSched? { ExitFacts(st, p); }
    } else if l.Run? && !InFork(st.procs[p].pc) {
      WaitFacts(st, p);
    } else {
      PlainFacts(st, l);
    }
  }

  /** The other pcs a process can move to claim nothing. */
  lemma PlainFacts(st: State, l: Label)
    requires Sized(st) && Enabled(st, l) && Sized(Apply(st, l)) && (l.Run? ==> InFork(st.procs[l.p].pc))
    requires st.procs[l.p].pc.ForkAlloc? ==> st.procs[l.p].pc.np != l.p
    ensures Is(Apply(st, l), l.p) && PcFacts(Apply(st, l), l.p)
  {
    assert PcOk(st, st.procs[l.p].pc);
  }

  // ---------------------------------------------------------------- pids

  /** Pids stay where they are under steps that end, reap and create nobody. */
  lemma SamePids(st: State, next: State, p: int)
    requires PidsOk(st) && SlotsOk(st) && Moves(st, next, p) && next.slotOf == st.slotOf && next.reaped == st.reaped
    requires st.exited <= next.exited && (st.procs[p].pc.ExitZombie? ==> st.procs[p].pid in next.exited)
    requires forall q :: Is(st, q) && st.procs[q].status == Unused ==> next.procs[q].status == Unused
    ensures PidsOk(next)
  {
    assert SlotOk(st, p);
    forall q | 0 <= q < |next.procs| && next.procs[q].status != Unused
      ensures next.procs[q].pid < |next.slotOf| && next.slotOf[next.procs[q].pid] == q
    {
      if q != p { assert Touch(st, next, p, q); }
    }
    forall q | 0 <= q < |next.procs| && next.procs[q].status == Zombie ensures next.procs[q].pid in next.exited {
      if q != p { assert Touch(st, next, p, q); }
    }
  }

  lemma RunForkPids(st: State, p: int)
    requires Inv(st) && Is(st, p) && InFork(st.procs[p].pc) && CanRun(st, p)
    ensures PidsOk(RunFork(st, p))
  {
    StepMoves(st, Run(p));
    NotItself(st, p);
    assert SlotOk(st, p);
    SamePids(st, RunFork(st, p), p);
  }

  lemma RunExitPids(st: State, p: int)
    requires Inv(st) && Is(st, p) && InExit(st.procs[p].pc) && CanRun(st, p)
    ensures PidsOk(RunExit(st, p))
  {
    StepMoves(st, Run(p));
    ExitStatus(st, p);
    assert SlotOk(st, p);
    SamePids(st, RunExit(st, p), p);
  }

  /** Freeing a slot retires its pid. */
  lemma FreedPids(st: State, q: int, next: State, taker: int, reap: bool)
    requires PidsOk(st) && Is(st, q) && st.procs[q].status != Unused && |next.procs| == |st.procs|
    requires next.slotOf == FreeSlot(st, q).slotOf && next.exited == st.exited
    requires next.reaped == if reap then st.reaped + [Reap(st.procs[q].pid, taker)] else st.reaped
    requires reap ==> st.procs[q].status == Zombie
    requires next.procs[q].status == Unused
    requires forall r :: Is(st, r) && r != q ==> next.procs[r].pid == st.procs[r].pid && next.procs[r].status == st.procs[r].status
    ensures PidsOk(next)
  {
    forall r | 0 <= r < |next.procs| && next.procs[r].status != Unused
      ensures next.procs[r].pid < |next.slotOf| && next.slotOf[next.procs[r].pid] == r
    {
      assert st.slotOf[st.procs[r].pid] == r;
    }
    FreedReaps(st, q, next, taker, reap);
  }

  lemma FreedReaps(st: State, q: int, next: State, taker: int, reap: bool)
    requires PidsOk(st) && Is(st, q) && st.procs[q].status != Unused
    requires next.slotOf == FreeSlot(st, q).slotOf && next.exited == st.exited
    requires next.reaped == if reap then st.reaped + [Reap(st.procs[q].pid, taker)] else st.reaped
    requires reap ==> st.procs[q].status == Zombie
    ensures forall k :: 0 <= k < |next.reaped| ==>
      next.reaped[k].pid < |next.slotOf| && next.slotOf[next.reaped[k].pid] == -1 && next.reaped[k].pid in next.exited
    ensures forall j, k :: 0 <= j < k < |next.reaped| ==> next.reaped[j].pid != next.reaped[k].pid
  {
    assert st.slotOf[st.procs[q].pid] == q;
  }

  lemma RunWaitPids(st: State, p: int)
    requires Inv(st) && Is(st, p) && !InFork(st.procs[p].pc) && !InExit(st.procs[p].pc) && CanRun(st, p)
    ensures PidsOk(RunWait(st, p))
  {
    StepMoves(st, Run(p));
    var next, pc := RunWait(st, p), st.procs[p].pc;
    assert SlotOk(st, p) && PcOk(st, pc);
    NotItself(st, p);
    forall q | Is(st, q) && q != p
      ensures st.procs[q].status == Unused ==> next.procs[q].status == Unused
    {
      WaitOthers(st, p, q);
    }
    if pc.WaitScan? && pc.i < |st.procs| && st.procs[pc.i].parent == p && st.procs[pc.i].status == Zombie {
      FreedPids(st, pc.i, next, p, true);
    } else {
      SamePids(st, next, p);
    }
  }

  lemma ForkPids(st: State, p: int, np: int)
    requires PidsOk(st) && SlotsOk(st) && Sized(st) && Enabled(st, Fork(p, np))
    ensures PidsOk(UserStep(st, Fork(p, np)))
  {
    assert SlotOk(st, np) && SlotOk(st, p);
  }

  lemma FailedPids(st: State, p: int)
    requires PidsOk(st) && SlotsOk(st) && Sized(st) && Enabled(st, ForkFails(p))
    requires Is(st, st.procs[p].pc.np) && st.procs[p].pc.np != p
    ensures PidsOk(UserStep(st, ForkFails(p)))
  {
    assert SlotOk(st, p);
    FreedPids(st, st.procs[p].pc.np, UserStep(st, ForkFails(p)), p, false);
  }

  lemma UserPids(st: State, l: Label)
    requires Inv(st) && Enabled(st, l) && !l.Run?
    ensures PidsOk(UserStep(st, l))
  {
    StepMoves(st, l);
    var next := UserStep(st, l);
    assert SlotOk(st, l.p) && PcOk(st, st.procs[l.p].pc);
    NotItself(st, l.p);
    match l
    case Fork(p, np) => ForkPids(st, p, np);
    case ForkFails(p) => FailedPids(st, p);
    case _ => SamePids(st, next, l.p);
  }

  lemma StepPids(st: State, l: Label)
    requires Inv(st) && Enabled(st, l)
    ensures PidsOk(Apply(st, l))
  {
    if !l.Run? { UserPids(st, l); }
    else if InFork(st.procs[l.p].pc) { RunForkPids(st, l.p); }
    else if InExit(st.procs[l.p].pc) { RunExitPids(st, l.p); }
    else { RunWaitPids(st, l.p); }
  }

  // ---------------------------------------------------------------- every step, every run

  lemma StepSized(st: State, l: Label)
    requires Inv(st) && Enabled(st, l)
    ensures Sized(Apply(st, l))
  {
    StepMoves(st, l);
    var next := Apply(st, l);
    forall q | 0 <= q < |next.procs| ensures PcOk(next, next.procs[q].pc) {
      if q != l.p { assert Touch(st, next, l.p, q) && PcOk(st, st.procs[q].pc); }
    }
  }

  lemma StepSlots(st: State, l: Label)
    requires Inv(st) && Enabled(st, l)
    ensures SlotsOk(Apply(st, l)) && ParentsOk(Apply(st, l)) && InitOk(Apply(st, l))
  {
    StepMoves(st, l);
    var next := Apply(st, l);
    assert PcFacts(st, l.p);
    KeepsInit(st, next, l.p);
    forall q | 0 <= q < |next.procs| ensures SlotOk(next, q) {
      if q == l.p { KeepsOwnSlot(st, next, q); } else { KeepsOtherSlot(st, next, l.p, q); }
    }
    forall q | 0 <= q < |next.procs| ensures ParentOk(next, q) { KeepsParent(st, next, l.p, q); }
  }

  lemma StepWaitersFacts(st: State, l: Label)
    requires Inv(st) && Enabled(st, l) && Sized(Apply(st, l))
    ensures WaitersOk(Apply(st, l)) && FactsOk(Apply(st, l))
  {
    StepMoves(st, l);
    var next := Apply(st, l);
    forall q | 0 <= q < |next.procs| ensures WaiterOk(next, q) { StepWaiter(st, l, q); }
    forall q | 0 <= q < |next.procs| ensures PcFacts(next, q) { StepFacts(st, l, q); }
  }

  lemma StepKeepsInv(st: State, l: Label)
    requires Inv(st) && Enabled(st, l)
    ensures Inv(Apply(st, l))
  {
    StepSized(st, l);
    StepKeepsLocks(st, l);
    StepPids(st, l);
    StepSlots(st, l);
    StepWaitersFacts(st, l);
  }

  /** Only init runs, every other slot is unused. */
  ghost predicate Initial(st: State) {
    && 0 < |st.procs| && st.waitLock == FREE && st.slotOf == [INIT] && st.reaped == []
    && st.procs[INIT] == Proc(Runnable, -1, 0, false, FREE, User, -1, 0)
    && forall p :: 0 < p < |st.procs| ==>
         (st.procs[p].status == Unused && st.procs[p].parent == -1 && st.procs[p].pc == Unborn && st.procs[p].lock == FREE)
  }

  lemma InitialInv(st: State)
    requires Initial(st)
    ensures Inv(st)
  {
  }

  ghost predicate Runs(st: State, ls: seq<Label>, end: State)
    decreases |ls|
  {
    if ls == [] then st == end
    else Sized(st) && Enabled(st, ls[0]) && Runs(Apply(st, ls[0]), ls[1..], end)
  }

  lemma {:induction false} RunKeepsInv(st: State, ls: seq<Label>, end: State)
    requires Inv(st) && Runs(st, ls, end)
    ensures Inv(end)
    decreases |ls|
  {
    if ls != [] {
      StepKeepsInv(st, ls[0]);
      RunKeepsInv(Apply(st, ls[0]), ls[1..], end);
    }
  }

  /** No orphans: a process that runs, sleeps or has ended has a parent, live, unless it is init. */
  lemma ParentAlive(st: State, ls: seq<Label>, end: State, p: int)
    requires Initial(st) && Runs(st, ls, end) && Is(end, p) && p != INIT
    requires end.procs[p].status != Unused && end.procs[p].status != Embryo
    ensures Is(end, end.procs[p].parent) && end.procs[p].parent != p
    ensures end.procs[end.procs[p].parent].status == Runnable || end.procs[end.procs[p].parent].status == Sleeping
  {
    InitialInv(st);
    RunKeepsInv(st, ls, end);
    assert SlotOk(end, p) && ParentOk(end, p);
  }

  /** No lost exit: with wait_lock free, a process asleep in wait has a child, and none that has ended. */
  lemma NoLostExit(st: State, ls: seq<Label>, end: State, p: int) returns (c: int)
    requires Initial(st) && Runs(st, ls, end) && Is(end, p) && end.waitLock == FREE
    requires end.procs[p].pc.Asleep? && end.procs[p].status == Sleeping
    ensures ChildOf(end, c, p) && end.procs[c].status != Zombie
    ensures forall d :: !DeadChild(end, d, p)
  {
    InitialInv(st);
    RunKeepsInv(st, ls, end);
    assert WaiterOk(end, p) && Committed(end, p);
    c :| ChildOf(end, c, p);
    assert !DeadChild(end, c, p);
  }

  /** Every process is taken by wait at most once, and only after it has ended. */
  lemma ReapedOnce(st: State, ls: seq<Label>, end: State, j: int, k: int)
    requires Initial(st) && Runs(st, ls, end) && 0 <= j < |end.reaped| && 0 <= k < |end.reaped|
    ensures end.reaped[j].pid in end.exited
    ensures end.reaped[j].pid == end.reaped[k].pid ==> j == k
  {
    InitialInv(st);
    RunKeepsInv(st, ls, end);
  }

  /** A slot leaves the zombie state only by wait, at the hands of its parent at that moment. */
  lemma ReapedByParent(st: State, l: Label, c: int)
    requires Inv(st) && Enabled(st, l) && Is(st, c) && st.procs[c].status == Zombie
    ensures |Apply(st, l).procs| == |st.procs|
    ensures Apply(st, l).procs[c].status != Zombie ==>
      && Apply(st, l).procs[c].status == Unused && st.procs[c].parent == l.p && st.waitLock == l.p
      && Apply(st, l).reaped == st.reaped + [Reap(st.procs[c].pid, l.p)]
  {
    StepMoves(st, l);
    var p := l.p;
    assert SlotOk(st, p) && SlotOk(st, c) && PcOk(st, st.procs[p].pc);
    if c != p {
      assert Touch(st, Apply(st, l), p, c);
      if Apply(st, l).procs[c].status != Zombie {
        assert HoldsWait(st.procs[p].pc) ==> st.waitLock == p;
      }
    }
  }

  // ---------------------------------------------------------------- the locks never deadlock

  lemma ProcLockHolderRuns(st: State, q: int)
    requires Inv(st) && Is(st, q) && st.procs[q].lock != FREE
    ensures Is(st, st.procs[q].lock) && CanRun(st, st.procs[q].lock)
  {
    assert SlotOk(st, st.procs[q].lock);
  }

  lemma WaitLockHolderRuns(st: State) returns (q: int)
    requires Inv(st) && st.waitLock != FREE
    ensures Is(st, q) && CanRun(st, q)
  {
    var h := st.waitLock;
    assert SlotOk(st, h) && PcOk(st, st.procs[h].pc);
    if CanRun(st, h) {
      q := h;
    } else {
      var pc := st.procs[h].pc;
      var l := if pc.ReparentWake? || pc.ExitWake? || pc.WaitScan? then pc.i else h;
      ProcLockHolderRuns(st, l);
      q := st.procs[l].lock;
    }
  }

  /** While some process is in fork, exit, wait or kill and not asleep, some such process can take a step. */
  lemma Progress(st: State, p: int) returns (q: int)
    requires Inv(st) && Is(st, p) && !st.procs[p].pc.User? && !st.procs[p].pc.Unborn? && st.procs[p].status != Sleeping
    ensures Is(st, q) && CanRun(st, q)
  {
    assert SlotOk(st, p) && PcOk(st, st.procs[p].pc);
    var pc := st.procs[p].pc;
    if CanRun(st, p) {
      q := p;
    } else if pc.ForkLink? || pc.ExitAcq? || pc.WaitAcq? {
      q := WaitLockHolderRuns(st);
    } else {
      var l := if pc.ReparentWake? || pc.ExitWake? || pc.WaitScan? then pc.i else if pc.ForkReady? then pc.np else p;
      ProcLockHolderRuns(st, l);
      q := st.procs[l].lock;
    }
  }
}

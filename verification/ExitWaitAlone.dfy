/** What wait, fork and exit do when nobody is in their way. */
module ExitWaitAlone {
  import opened ExitWait
  import opened ExitWaitRuns

  ghost predicate Before<S>(c: seq<S>, i: int) {
    0 <= i < |c| - 1
  }

  /** Each state leads to the next. */
  ghost predicate Chain<S(!new)>(leads: (S, S) -> bool, c: seq<S>) {
    |c| > 0 && forall i {:trigger Before(c, i)} :: Before(c, i) ==> leads(c[i], c[i + 1])
  }

  lemma ChainJoin<S(!new)>(leads: (S, S) -> bool, a: seq<S>, b: seq<S>)
    requires Chain(leads, a) && Chain(leads, b) && a[|a| - 1] == b[0]
    ensures Chain(leads, a + b[1..]) && (a + b[1..])[0] == a[0] && (a + b[1..])[|a + b[1..]| - 1] == b[|b| - 1]
  {
    var c := a + b[1..];
    forall i | Before(c, i) ensures leads(c[i], c[i + 1]) {
      assert if i < |a| - 1 then Before(a, i) else Before(b, i - |a| + 1);
    }
  }

  /** A step of p's own. */
  function StepOf(p: int): (State, State) -> bool {
    (s, t) => Sized(s) && Is(s, p) && CanRun(s, p) && Apply(s, Run(p)) == t
  }

  ghost predicate Path(st: State, p: int, end: State, c: seq<State>) {
    Chain(StepOf(p), c) && c[0] == st && c[|c| - 1] == end
  }

  /** p alone can get from st to end. */
  ghost predicate Gets(st: State, p: int, end: State) {
    exists c :: Path(st, p, end, c)
  }

  lemma Stays(st: State, p: int)
    ensures Gets(st, p, st)
  {
    assert Path(st, p, st, [st]);
  }

  lemma Then(st: State, p: int, mid: State, end: State)
    requires Gets(st, p, mid) && Gets(mid, p, end)
    ensures Gets(st, p, end)
  {
    var a :| Path(st, p, mid, a);
    var b :| Path(mid, p, end, b);
    ChainJoin(StepOf(p), a, b);
    assert Path(st, p, end, a + b[1..]);
  }

  lemma Once(st: State, p: int, end: State)
    requires Sized(st) && Is(st, p) && CanRun(st, p) && RunStep(st, p) == end
    ensures Gets(st, p, end)
  {
    assert Path(st, p, end, [st, end]);
  }

  /** One more step, of wait. */
  lemma WaitStep(st: State, p: int, mid: State, end: State)
    requires Gets(st, p, mid) && Sized(mid) && Is(mid, p) && !InFork(mid.procs[p].pc) && !InExit(mid.procs[p].pc)
    requires CanRun(mid, p) && RunWait(mid, p) == end
    ensures Gets(st, p, end)
  {
    Once(mid, p, end);
    Then(st, p, mid, end);
  }

  /** One more step, of fork. */
  lemma ForkStep(st: State, p: int, mid: State, end: State)
    requires Gets(st, p, mid) && Sized(mid) && Is(mid, p) && InFork(mid.procs[p].pc)
    requires CanRun(mid, p) && RunFork(mid, p) == end
    ensures Gets(st, p, end)
  {
    Once(mid, p, end);
    Then(st, p, mid, end);
  }

  /** One more step, of exit. */
  lemma ExitStep(st: State, p: int, mid: State, end: State)
    requires Gets(st, p, mid) && Sized(mid) && Is(mid, p) && InExit(mid.procs[p].pc)
    requires CanRun(mid, p) && RunExit(mid, p) == end
    ensures Gets(st, p, end)
  {
    Once(mid, p, end);
    Then(st, p, mid, end);
  }

  // ---------------------------------------------------------------- wait

  /** Nobody holds p's lock or a child's. */
  predicate Clear(st: State, p: int) {
    && Sized(st) && Is(st, p) && st.procs[p].status == Runnable && st.procs[p].parent != p && st.procs[p].lock == FREE
    && forall c :: 0 <= c < |st.procs| && st.procs[c].parent == p ==> st.procs[c].lock == FREE
  }

  lemma ScanOne(st: State, p: int, i: int, kids: bool, next: State)
    requires Clear(st, p) && st.procs[p].pc == WaitScan(i, kids) && i < |st.procs| && !DeadChild(st, i, p)
    requires Is(st, i) && next == Goto(st, p, WaitScan(i + 1, kids || st.procs[i].parent == p))
    ensures Gets(st, p, next) && Clear(next, p)
    ensures forall c :: DeadChild(next, c, p) <==> DeadChild(st, c, p)
    ensures forall c :: ChildOf(next, c, p) <==> ChildOf(st, c, p)
  {
    Stays(st, p);
    WaitStep(st, p, st, next);
  }

  lemma {:induction false} ScanOn(st: State, p: int, i: int, kids: bool, j: int) returns (more: bool)
    requires Clear(st, p) && st.procs[p].pc == WaitScan(i, kids) && i <= j <= |st.procs|
    requires forall c :: i <= c < j ==> !DeadChild(st, c, p)
    ensures Gets(st, p, Goto(st, p, WaitScan(j, more)))
    ensures more <==> kids || exists c :: i <= c < j && ChildOf(st, c, p)
    decreases j - i
  {
    assert PcOk(st, st.procs[p].pc);
    if i == j {
      more := kids;
      assert Goto(st, p, WaitScan(j, more)) == st;
      Stays(st, p);
    } else {
      var kid := st.procs[i].parent == p;
      var next := Goto(st, p, WaitScan(i + 1, kids || kid));
      ScanOne(st, p, i, kids, next);
      more := ScanOn(next, p, i + 1, kids || kid, j);
      assert Goto(next, p, WaitScan(j, more)) == Goto(st, p, WaitScan(j, more));
      Then(st, p, next, Goto(st, p, WaitScan(j, more)));
      assert ChildOf(st, i, p) <==> kid;
    }
  }

  /** p is in user space and nobody is in its way. */
  predicate Calls(st: State, p: int) {
    Clear(st, p) && st.procs[p].pc.User? && st.waitLock == FREE
  }

  /** p has called wait and nobody is in its way. */
  predicate Waits(st: State, p: int) {
    Clear(st, p) && st.procs[p].pc.WaitAcq? && st.waitLock == FREE
  }

  lemma Starts(st: State, p: int, s1: State)
    requires Waits(st, p) && s1 == Goto(st.(waitLock := p), p, WaitScan(0, false))
    ensures Gets(st, p, s1) && Clear(s1, p) && forall c :: DeadChild(s1, c, p) <==> DeadChild(st, c, p)
    ensures forall c :: ChildOf(s1, c, p) <==> ChildOf(st, c, p)
  {
    Stays(st, p);
    WaitStep(st, p, st, s1);
  }

  /** p's wait has taken child d and given its pid. */
  function Took(st: State, p: int, d: int): State
    requires Is(st, p) && Is(st, d)
  {
    Return(FreeSlot(st, d), p, st.procs[d].pid).(reaped := st.reaped + [Reap(st.procs[d].pid, p)])
  }

  lemma TakesNow(s2: State, p: int, d: int, more: bool)
    requires Clear(s2, p) && s2.procs[p].pc == WaitScan(d, more) && DeadChild(s2, d, p)
    ensures Gets(s2, p, Took(s2.(waitLock := FREE), p, d))
  {
    var s3 := RunWait(s2, p);
    Stays(s2, p);
    WaitStep(s2, p, s2, s3);
    assert s3.procs[p].pc == WaitDone(s2.procs[d].pid) && Sized(s3);
    WaitStep(s2, p, s3, Took(s2.(waitLock := FREE), p, d));
  }

  lemma TookSame(st: State, p: int, d: int, more: bool, s2: State)
    requires Is(st, p) && Is(st, d) && p != d && st.waitLock == FREE && s2 == Goto(st.(waitLock := p), p, WaitScan(d, more))
    ensures Is(s2, p) && Is(s2, d) && Took(s2.(waitLock := FREE), p, d) == Took(st, p, d)
  {
    assert Took(s2.(waitLock := FREE), p, d).procs == Took(st, p, d).procs;
  }

  lemma TakesFirst(st: State, p: int, d: int)
    requires Waits(st, p) && DeadChild(st, d, p) && forall c :: c < d ==> !DeadChild(st, c, p)
    ensures Gets(st, p, Took(st, p, d))
  {
    var s1 := Goto(st.(waitLock := p), p, WaitScan(0, false));
    Starts(st, p, s1);
    var more := ScanOn(s1, p, 0, false, d);
    var s2 := Goto(s1, p, WaitScan(d, more));
    Then(st, p, s1, s2);
    TakesNow(s2, p, d, more);
    TookSame(st, p, d, more, s2);
    Then(st, p, s2, Took(st, p, d));
  }

  /** Without a dead child, wait gets to the end of the table and knows whether there is a child at all. */
  lemma LooksInVain(st: State, p: int) returns (kids: bool)
    requires Waits(st, p) && forall c :: !DeadChild(st, c, p)
    ensures Gets(st, p, Goto(st.(waitLock := p), p, WaitEnd(kids)))
    ensures kids <==> exists c :: ChildOf(st, c, p)
  {
    var n := |st.procs|;
    var s1 := Goto(st.(waitLock := p), p, WaitScan(0, false));
    Starts(st, p, s1);
    kids := ScanOn(s1, p, 0, false, n);
    var at := Goto(s1, p, WaitScan(n, kids));
    Then(st, p, s1, at);
    assert Goto(st.(waitLock := p), p, WaitEnd(kids)) == Goto(at, p, WaitEnd(kids));
    WaitStep(st, p, at, Goto(at, p, WaitEnd(kids)));
    if c :| ChildOf(st, c, p) { assert 0 <= c < n && ChildOf(s1, c, p); }
  }

  lemma Refuses(st: State, p: int)
    requires Waits(st, p) && forall c :: !DeadChild(st, c, p)
    requires st.procs[p].killed || forall c :: !ChildOf(st, c, p)
    ensures Gets(st, p, Return(st, p, -1))
  {
    var kids := LooksInVain(st, p);
    var s2 := Goto(st.(waitLock := p), p, WaitEnd(kids));
    assert Return(s2.(waitLock := FREE), p, -1) == Return(st, p, -1);
    WaitStep(st, p, s2, Return(st, p, -1));
  }

  /** p asleep on itself. */
  function Dozing(st: State, p: int): State
    requires Is(st, p)
  {
    With(st, p, st.procs[p].(status := Sleeping, pc := Asleep))
  }

  /** On its way to sleep p has its own lock and wait_lock. */
  function Nodding(st: State, p: int): State
    requires Is(st, p)
  {
    With(st, p, st.procs[p].(lock := p, pc := WaitRel)).(waitLock := p)
  }

  lemma Nods(st: State, p: int, s2: State)
    requires Waits(st, p) && !st.procs[p].killed && s2 == Goto(st.(waitLock := p), p, WaitEnd(true))
    ensures Gets(s2, p, Nodding(st, p))
  {
    var s3 := Goto(s2, p, WaitSleep);
    Stays(s2, p);
    WaitStep(s2, p, s2, s3);
    WaitStep(s2, p, s3, Nodding(st, p));
  }

  lemma FallsAsleep(st: State, p: int)
    requires Waits(st, p)
    ensures Gets(Nodding(st, p), p, Dozing(st, p))
  {
    var s4 := Nodding(st, p);
    var s5 := Goto(s4.(waitLock := FREE), p, WaitSet);
    Stays(s4, p);
    WaitStep(s4, p, s4, s5);
    assert RunWait(s5, p).procs == Dozing(st, p).procs;
    WaitStep(s4, p, s5, Dozing(st, p));
  }

  lemma GoesToSleep(st: State, p: int, c: int)
    requires Waits(st, p) && !st.procs[p].killed && ChildOf(st, c, p) && forall d :: !DeadChild(st, d, p)
    ensures Gets(st, p, Dozing(st, p))
  {
    var kids := LooksInVain(st, p);
    var s2 := Goto(st.(waitLock := p), p, WaitEnd(true));
    Nods(st, p, s2);
    Then(st, p, s2, Nodding(st, p));
    FallsAsleep(st, p);
    Then(st, p, Nodding(st, p), Dozing(st, p));
  }

  lemma WaitBegins(st: State, p: int)
    requires Calls(st, p)
    ensures Enabled(st, Wait(p)) && Waits(Apply(st, Wait(p)), p) && Apply(st, Wait(p)) == Goto(st, p, WaitAcq)
    ensures forall c :: ChildOf(Apply(st, Wait(p)), c, p) <==> ChildOf(st, c, p)
    ensures forall c :: DeadChild(Apply(st, Wait(p)), c, p) <==> DeadChild(st, c, p)
  {
  }

  /** wait with a dead child: it takes the first in the table and gives its pid, and all else stays. */
  lemma WaitTakes(st: State, p: int, d: int)
    requires Calls(st, p) && DeadChild(st, d, p) && forall c :: c < d ==> !DeadChild(st, c, p)
    ensures Enabled(st, Wait(p)) && Gets(Apply(st, Wait(p)), p, Took(st, p, d))
  {
    WaitBegins(st, p);
    var s0 := Goto(st, p, WaitAcq);
    TakesFirst(s0, p, d);
    assert Took(s0, p, d).procs == Took(st, p, d).procs;
  }

  /** wait without a dead child, of a process without children or killed: -1, and all else stays. */
  lemma WaitRefuses(st: State, p: int)
    requires Calls(st, p) && forall c :: !DeadChild(st, c, p)
    requires st.procs[p].killed || forall c :: !ChildOf(st, c, p)
    ensures Enabled(st, Wait(p)) && Gets(Apply(st, Wait(p)), p, Return(st, p, -1))
  {
    WaitBegins(st, p);
    var s0 := Goto(st, p, WaitAcq);
    Refuses(s0, p);
    assert Return(s0, p, -1).procs == Return(st, p, -1).procs;
  }

  /** wait with live children only, of a process not killed: it is asleep, and all else stays. */
  lemma WaitSleeps(st: State, p: int, c: int)
    requires Calls(st, p) && !st.procs[p].killed && ChildOf(st, c, p) && forall d :: !DeadChild(st, d, p)
    ensures Enabled(st, Wait(p)) && Gets(Apply(st, Wait(p)), p, Dozing(st, p))
  {
    WaitBegins(st, p);
    var s0 := Goto(st, p, WaitAcq);
    GoesToSleep(s0, p, c);
    assert Dozing(s0, p).procs == Dozing(st, p).procs;
  }

  // ---------------------------------------------------------------- kill

  /** q is marked and not asleep. */
  function Killed(st: State, p: int, q: int): State
    requires Is(st, p) && Is(st, q)
  {
    var victim := st.procs[q].(killed := true, status := if st.procs[q].status == Sleeping then Runnable else st.procs[q].status);
    Return(With(st, q, victim), p, 0)
  }

  /** kill: its target is marked and does not sleep on, and all else stays. */
  lemma KillKills(st: State, p: int, q: int)
    requires Sized(st) && Is(st, p) && Is(st, q) && st.procs[p].status == Runnable && st.procs[p].pc.User? && st.procs[q].lock == FREE
    ensures Enabled(st, Kill(p, q)) && Gets(Apply(st, Kill(p, q)), p, Killed(st, p, q))
  {
    var s0 := Apply(st, Kill(p, q));
    Stays(s0, p);
    assert RunWait(s0, p).procs == Killed(st, p, q).procs;
    WaitStep(s0, p, s0, Killed(st, p, q));
  }

  // ---------------------------------------------------------------- fork

  /** What a fork that nobody disturbs leaves in the child's slot. */
  function Child(st: State, p: int, np: int): Proc
    requires Is(st, np)
  {
    st.procs[np].(status := Runnable, parent := p, pid := |st.slotOf|, lock := FREE, pc := User, maker := -1, ret := 0)
  }

  /** The caller has the child's pid. */
  function Forked(st: State, p: int, np: int): State
    requires Is(st, p) && Is(st, np)
  {
    Return(With(st, np, Child(st, p, np)), p, |st.slotOf|).(slotOf := st.slotOf + [np])
  }

  /** The child is linked to its parent and not yet runnable. */
  function Linked(st: State, p: int, np: int): State
    requires Is(st, p) && Is(st, np)
  {
    Goto(With(st, np, Child(st, p, np).(status := Embryo, pc := Unborn, maker := p, ret := st.procs[np].ret))
         .(slotOf := st.slotOf + [np], waitLock := p), p, ForkUnlink(np))
  }

  /** The child has its pid, and its creator waits for wait_lock. */
  function Made(st: State, p: int, np: int): State
    requires Is(st, p) && Is(st, np)
  {
    Goto(With(st, np, Child(st, p, np).(status := Embryo, pc := Unborn, maker := p, ret := st.procs[np].ret, parent := st.procs[np].parent))
         .(slotOf := st.slotOf + [np]), p, ForkLink(np))
  }

  lemma ForkMakes(st: State, p: int, np: int)
    requires Sized(st) && Enabled(st, Fork(p, np)) && p != np && st.procs[p].status == Runnable
    ensures Gets(UserStep(st, Fork(p, np)), p, Made(st, p, np))
  {
    var s1 := UserStep(st, Fork(p, np));
    Stays(s1, p);
    assert RunFork(s1, p).procs == Made(st, p, np).procs;
    ForkStep(s1, p, s1, Made(st, p, np));
  }

  lemma ForkFirst(st: State, p: int, np: int)
    requires Sized(st) && Enabled(st, Fork(p, np)) && p != np && st.waitLock == FREE && st.procs[p].status == Runnable
    ensures Gets(Made(st, p, np), p, Linked(st, p, np))
  {
    var s2 := Made(st, p, np);
    Stays(s2, p);
    var s3 := Goto(s2.(waitLock := p), p, ForkSet(np));
    ForkStep(s2, p, s2, s3);
    assert RunFork(s3, p).procs == Linked(st, p, np).procs;
    ForkStep(s2, p, s3, Linked(st, p, np));
  }

  /** The child is about to be made runnable. */
  function Locked(st: State, p: int, np: int): State
    requires Is(st, p) && Is(st, np)
  {
    Goto(With(st, np, Child(st, p, np).(status := Embryo, pc := Unborn, maker := p, ret := st.procs[np].ret, lock := p))
         .(slotOf := st.slotOf + [np]), p, ForkRun(np))
  }

  lemma ForkMiddle(st: State, p: int, np: int)
    requires Sized(st) && Enabled(st, Fork(p, np)) && p != np && st.waitLock == FREE && st.procs[p].status == Runnable
    ensures Gets(Linked(st, p, np), p, Locked(st, p, np))
  {
    var s4 := Linked(st, p, np);
    var s5 := Goto(s4.(waitLock := FREE), p, ForkReady(np));
    Stays(s4, p);
    ForkStep(s4, p, s4, s5);
    assert RunFork(s5, p).procs == Locked(st, p, np).procs;
    ForkStep(s4, p, s5, Locked(st, p, np));
  }

  lemma ForkLast(st: State, p: int, np: int)
    requires Sized(st) && Enabled(st, Fork(p, np)) && p != np && st.waitLock == FREE && st.procs[p].status == Runnable
    ensures Gets(Locked(st, p, np), p, Forked(st, p, np))
  {
    var s6 := Locked(st, p, np);
    var s7 := RunFork(s6, p);
    Stays(s6, p);
    ForkStep(s6, p, s6, s7);
    assert s7.procs[p].pc == ForkDone(np) && RunFork(s7, p).procs == Forked(st, p, np).procs;
    ForkStep(s6, p, s7, Forked(st, p, np));
  }

  /** fork gives its caller a fresh pid, and the slot it took is a runnable child of that pid in which fork
      gives 0; all else stays. */
  lemma ForkMakesChild(st: State, p: int, np: int)
    requires Inv(st) && Enabled(st, Fork(p, np)) && st.waitLock == FREE
    ensures p != np && Gets(UserStep(st, Fork(p, np)), p, Forked(st, p, np))
    ensures forall q :: Is(st, q) && st.procs[q].status != Unused ==> st.procs[q].pid != |st.slotOf|
  {
    assert SlotOk(st, p) && SlotOk(st, np);
    ForkMakes(st, p, np);
    ForkFirst(st, p, np);
    Then(UserStep(st, Fork(p, np)), p, Made(st, p, np), Linked(st, p, np));
    ForkMiddle(st, p, np);
    Then(UserStep(st, Fork(p, np)), p, Linked(st, p, np), Locked(st, p, np));
    ForkLast(st, p, np);
    Then(UserStep(st, Fork(p, np)), p, Locked(st, p, np), Forked(st, p, np));
  }

  // ---------------------------------------------------------------- exit

  /** p is in exit and holds wait_lock, and no other lock is held. */
  predicate Leaving(st: State, p: int) {
    && Sized(st) && Is(st, p) && st.procs[p].status == Runnable && p != INIT && Is(st, st.procs[p].parent) && st.procs[p].parent != p
    && st.procs[INIT].parent == -1 && st.waitLock == p && forall q :: 0 <= q < |st.procs| ==> st.procs[q].lock == FREE
  }

  /** reparent's wakeup from process i on. */
  function Woken(st: State, p: int, k: int, i: int): State
    requires Is(st, p) && Is(st, INIT)
  {
    Goto(if i <= INIT then WakeOne(st, INIT, INIT) else st, p, ReparentWake(k, |st.procs|))
  }

  lemma CheerOne(st: State, p: int, k: int, i: int, next: State)
    requires Leaving(st, p) && st.procs[p].pc == ReparentWake(k, i) && i < |st.procs| && next == RunExit(st, p)
    ensures Gets(st, p, next) && Leaving(next, p) && next.procs[p].pc == ReparentWake(k, i + 1) && |next.procs| == |st.procs|
    ensures Woken(next, p, k, i + 1) == Woken(st, p, k, i)
  {
    assert PcOk(st, st.procs[p].pc);
    Stays(st, p);
    ExitStep(st, p, st, next);
    WokenSame(st, p, k, i, next);
  }

  lemma WokenSame(st: State, p: int, k: int, i: int, next: State)
    requires Is(st, p) && Is(st, i) && p != INIT && Is(st, INIT)
    requires next == Goto(if i == p then st else WakeOne(st, i, INIT), p, ReparentWake(k, i + 1))
    ensures Woken(next, p, k, i + 1) == Woken(st, p, k, i)
  {
    assert Woken(next, p, k, i + 1).procs == Woken(st, p, k, i).procs;
  }

  lemma {:induction false} WakesInit(st: State, p: int, k: int, i: int)
    requires Leaving(st, p) && st.procs[p].pc == ReparentWake(k, i)
    ensures Gets(st, p, Woken(st, p, k, i))
    decreases |st.procs| - i
  {
    assert PcOk(st, st.procs[p].pc);
    if i == |st.procs| {
      assert Woken(st, p, k, i) == st;
      Stays(st, p);
    } else {
      var next := RunExit(st, p);
      CheerOne(st, p, k, i, next);
      WakesInit(next, p, k, i + 1);
      Then(st, p, next, Woken(st, p, k, i));
    }
  }

  /** exit's wakeup from process i on. */
  function Told(st: State, p: int, i: int): State
    requires Is(st, p) && Is(st, st.procs[p].parent)
  {
    var r := st.procs[p].parent;
    Goto(if i <= r then WakeOne(st, r, r) else st, p, ExitWake(|st.procs|))
  }

  lemma TellOne(st: State, p: int, i: int, next: State)
    requires Leaving(st, p) && st.procs[p].pc == ExitWake(i) && i < |st.procs| && next == RunExit(st, p)
    ensures Gets(st, p, next) && Leaving(next, p) && next.procs[p].pc == ExitWake(i + 1) && |next.procs| == |st.procs|
    ensures Told(next, p, i + 1) == Told(st, p, i)
  {
    assert PcOk(st, st.procs[p].pc);
    Stays(st, p);
    ExitStep(st, p, st, next);
    ToldSame(st, p, i, next);
  }

  lemma ToldSame(st: State, p: int, i: int, next: State)
    requires Is(st, p) && Is(st, i) && Is(st, st.procs[p].parent) && st.procs[p].parent != p
    requires next == Goto(if i == p then st else WakeOne(st, i, st.procs[p].parent), p, ExitWake(i + 1))
    ensures Told(next, p, i + 1) == Told(st, p, i)
  {
    assert Told(next, p, i + 1).procs == Told(st, p, i).procs;
  }

  lemma {:induction false} WakesParent(st: State, p: int, i: int)
    requires Leaving(st, p) && st.procs[p].pc == ExitWake(i)
    ensures Gets(st, p, Told(st, p, i))
    decreases |st.procs| - i
  {
    assert PcOk(st, st.procs[p].pc);
    if i == |st.procs| {
      assert Told(st, p, i) == st;
      Stays(st, p);
    } else {
      var next := RunExit(st, p);
      TellOne(st, p, i, next);
      WakesParent(next, p, i + 1);
      Then(st, p, next, Told(st, p, i));
    }
  }

  /** Process q after p's reparent has gone through the slots from k on: init has p's children, and is awake
      if there was any. */
  function Adopted(st: State, p: int, k: int, any: bool, q: int): Proc
    requires Is(st, q)
  {
    var a := if q >= k && st.procs[q].parent == p then st.procs[q].(parent := INIT) else st.procs[q];
    if any && q == INIT && a.status == Sleeping then a.(status := Runnable) else a
  }

  function AllAdopted(st: State, p: int, k: int, any: bool): State
    requires Is(st, p)
  {
    Goto(st.(procs := seq(|st.procs|, q requires 0 <= q < |st.procs| => Adopted(st, p, k, any, q))), p, Reparent(|st.procs|))
  }

  /** After one turn of reparent's loop. */
  function Turned(st: State, p: int, k: int): State
    requires Is(st, p) && Is(st, k) && Is(st, INIT)
  {
    Goto(if st.procs[k].parent == p then WakeOne(SetParent(st, k, INIT), INIT, INIT) else st, p, Reparent(k + 1))
  }

  /** Child k has just been given to init. */
  function Given(st: State, p: int, k: int): State
    requires Is(st, p) && Is(st, k)
  {
    Goto(SetParent(st, k, INIT), p, ReparentWake(k, 0))
  }

  lemma Gives(st: State, p: int, k: int)
    requires Leaving(st, p) && st.procs[p].pc == Reparent(k) && Is(st, k) && st.procs[k].parent == p
    ensures Gets(st, p, Given(st, p, k)) && Leaving(Given(st, p, k), p)
  {
    Stays(st, p);
    ExitStep(st, p, st, Given(st, p, k));
  }

  lemma GivesOn(st: State, p: int, k: int, end: State)
    requires Leaving(st, p) && Is(st, k) && st.procs[p].pc == ReparentWake(k, |st.procs|) && end == Goto(st, p, Reparent(k + 1))
    ensures Gets(st, p, end)
  {
    Stays(st, p);
    ExitStep(st, p, st, end);
  }

  /** And init has been woken. */
  function Cheered(st: State, p: int, k: int): State
    requires Is(st, p) && Is(st, k) && Is(st, INIT)
  {
    Goto(WakeOne(Given(st, p, k), INIT, INIT), p, ReparentWake(k, |st.procs|))
  }

  lemma Cheers(st: State, p: int, k: int)
    requires Leaving(st, p) && st.procs[p].pc == Reparent(k) && Is(st, k) && st.procs[k].parent == p
    ensures Gets(st, p, Cheered(st, p, k)) && Leaving(Cheered(st, p, k), p)
  {
    Gives(st, p, k);
    WakesInit(Given(st, p, k), p, k, 0);
    Then(st, p, Given(st, p, k), Cheered(st, p, k));
  }

  lemma AdoptKid(st: State, p: int, k: int)
    requires Leaving(st, p) && st.procs[p].pc == Reparent(k) && Is(st, k) && st.procs[k].parent == p
    ensures Gets(st, p, Turned(st, p, k))
  {
    Cheers(st, p, k);
    assert Goto(Cheered(st, p, k), p, Reparent(k + 1)).procs == Turned(st, p, k).procs;
    GivesOn(Cheered(st, p, k), p, k, Turned(st, p, k));
    Then(st, p, Cheered(st, p, k), Turned(st, p, k));
  }

  lemma PassOver(st: State, p: int, k: int)
    requires Leaving(st, p) && st.procs[p].pc == Reparent(k) && Is(st, k) && st.procs[k].parent != p
    ensures Gets(st, p, Turned(st, p, k))
  {
    Stays(st, p);
    ExitStep(st, p, st, Turned(st, p, k));
  }

  lemma AdoptOne(st: State, p: int, k: int)
    requires Leaving(st, p) && st.procs[p].pc == Reparent(k) && k < |st.procs| && Is(st, k)
    ensures Gets(st, p, Turned(st, p, k)) && Leaving(Turned(st, p, k), p)
  {
    if st.procs[k].parent == p { AdoptKid(st, p, k); } else { PassOver(st, p, k); }
  }

  lemma {:induction false} AdoptsAll(st: State, p: int, k: int) returns (any: bool)
    requires Leaving(st, p) && st.procs[p].pc == Reparent(k)
    ensures any <==> exists c :: c >= k && ChildOf(st, c, p)
    ensures Gets(st, p, AllAdopted(st, p, k, any))
    decreases |st.procs| - k
  {
    assert PcOk(st, st.procs[p].pc);
    if k == |st.procs| {
      any := false;
      assert AllAdopted(st, p, k, any).procs == st.procs;
      Stays(st, p);
    } else {
      AdoptOne(st, p, k);
      var more := AdoptsAll(Turned(st, p, k), p, k + 1);
      any := st.procs[k].parent == p || more;
      AdoptedMore(st, p, k, more);
      Then(st, p, Turned(st, p, k), AllAdopted(st, p, k, any));
    }
  }

  lemma AdoptedMore(st: State, p: int, k: int, more: bool)
    requires Leaving(st, p) && Is(st, k)
    requires more <==> exists c :: c >= k + 1 && ChildOf(Turned(st, p, k), c, p)
    ensures st.procs[k].parent == p || more <==> exists c :: c >= k && ChildOf(st, c, p)
    ensures AllAdopted(Turned(st, p, k), p, k + 1, more) == AllAdopted(st, p, k, st.procs[k].parent == p || more)
  {
    var kid, next := st.procs[k].parent == p, Turned(st, p, k);
    forall c | c >= k + 1 ensures ChildOf(next, c, p) <==> ChildOf(st, c, p) {}
    assert kid <==> ChildOf(st, k, p);
    if c :| c >= k && ChildOf(st, c, p) && c != k { assert ChildOf(next, c, p); }
    var a, b := AllAdopted(next, p, k + 1, more), AllAdopted(st, p, k, kid || more);
    forall q | 0 <= q < |st.procs| ensures a.procs[q] == b.procs[q] {}
    assert a.procs == b.procs;
  }

  /** What an exit that nobody disturbs leaves of process q: p a zombie, its children with init, and
      whoever of init and its parent slept for this awake. */
  function Left(st: State, p: int, any: bool, q: int): Proc
    requires Is(st, p) && Is(st, q)
  {
    if q == p then st.procs[p].(status := Zombie, pc := Unborn)
    else
      var a := Adopted(st, p, 0, any, q);
      if q == st.procs[p].parent && a.status == Sleeping then a.(status := Runnable) else a
  }

  function AllLeft(st: State, p: int, any: bool): State
    requires Is(st, p)
  {
    st.(procs := seq(|st.procs|, q requires 0 <= q < |st.procs| => Left(st, p, any, q)), exited := st.exited + {st.procs[p].pid})
  }

  /** p is a zombie now and its locks are free. */
  function Ended(st: State, p: int): State
    requires Is(st, p)
  {
    With(st, p, st.procs[p].(status := Zombie, pc := Unborn)).(waitLock := FREE, exited := st.exited + {st.procs[p].pid})
  }

  /** p has its own lock and is about to become a zombie. */
  function Dying(st: State, p: int): State
    requires Is(st, p)
  {
    With(st, p, st.procs[p].(lock := p, pc := ExitZombie))
  }

  lemma Dies(st: State, p: int)
    requires Leaving(st, p) && st.procs[p].pc == ExitWake(|st.procs|)
    ensures Gets(st, p, Dying(st, p))
  {
    var s1 := Goto(st, p, ExitLock);
    Stays(st, p);
    ExitStep(st, p, st, s1);
    ExitStep(st, p, s1, Dying(st, p));
  }

  lemma LastSteps(st: State, p: int)
    requires Leaving(st, p)
    ensures Gets(Dying(st, p), p, Ended(st, p))
  {
    var s2 := Dying(st, p);
    var s3 := With(s2, p, s2.procs[p].(status := Zombie, pc := ExitUnlock)).(exited := s2.exited + {s2.procs[p].pid});
    Stays(s2, p);
    ExitStep(s2, p, s2, s3);
    var s4 := Goto(s3.(waitLock := FREE), p, ExitSched);
    ExitStep(s2, p, s3, s4);
    assert RunExit(s4, p).procs == Ended(st, p).procs;
    ExitStep(s2, p, s4, Ended(st, p));
  }

  lemma ToldLeaves(st: State, p: int)
    requires Leaving(st, p)
    ensures Leaving(Told(st, p, 0), p) && Leaving(Goto(st, p, ExitWake(0)), p)
    ensures Told(Goto(st, p, ExitWake(0)), p, 0) == Told(st, p, 0)
  {
    assert Told(Goto(st, p, ExitWake(0)), p, 0).procs == Told(st, p, 0).procs;
  }

  lemma TellsAll(st: State, p: int)
    requires Leaving(st, p) && st.procs[p].pc == Reparent(|st.procs|)
    ensures Gets(st, p, Told(st, p, 0)) && Leaving(Told(st, p, 0), p)
  {
    ToldLeaves(st, p);
    var s3 := Goto(st, p, ExitWake(0));
    Stays(st, p);
    ExitStep(st, p, st, s3);
    WakesParent(s3, p, 0);
    Then(st, p, s3, Told(st, p, 0));
  }

  lemma LastHalf(st: State, p: int)
    requires Leaving(st, p) && st.procs[p].pc == Reparent(|st.procs|)
    ensures Gets(st, p, Ended(Told(st, p, 0), p))
  {
    TellsAll(st, p);
    var s4 := Told(st, p, 0);
    Dies(s4, p);
    Then(st, p, s4, Dying(s4, p));
    LastSteps(s4, p);
    Then(st, p, Dying(s4, p), Ended(s4, p));
  }

  lemma ExitLeavesFrom(st: State, p: int) returns (any: bool)
    requires Leaving(st.(waitLock := p), p) && st.waitLock == FREE && st.procs[p].pc.ExitAcq?
    ensures any <==> exists c :: ChildOf(st, c, p)
    ensures Gets(st, p, AllLeft(st, p, any))
  {
    var s1 := Goto(st.(waitLock := p), p, Reparent(0));
    Stays(st, p);
    ExitStep(st, p, st, s1);
    any := AdoptsAll(s1, p, 0);
    var s2 := AllAdopted(s1, p, 0, any);
    Then(st, p, s1, s2);
    LastHalf(s2, p);
    EndsAlike(st, p, any, s1);
    Then(st, p, s2, AllLeft(st, p, any));
  }

  /** exit: p is a zombie, init has its children, and the parent does not sleep on; all else stays. */
  lemma ExitLeaves(st: State, p: int) returns (any: bool)
    requires Leaving(st.(waitLock := p), p) && st.waitLock == FREE && st.procs[p].pc.User?
    ensures any <==> exists c :: ChildOf(st, c, p)
    ensures Enabled(st, Exit(p)) && Gets(Apply(st, Exit(p)), p, AllLeft(st, p, any))
  {
    var s0 := Goto(st, p, ExitAcq);
    any := ExitLeavesFrom(s0, p);
    assert forall c :: ChildOf(s0, c, p) <==> ChildOf(st, c, p);
    assert AllLeft(s0, p, any).procs == AllLeft(st, p, any).procs;
  }

  lemma EndsAlike(st: State, p: int, any: bool, s1: State)
    requires Leaving(st.(waitLock := p), p) && st.waitLock == FREE && s1 == Goto(st.(waitLock := p), p, Reparent(0))
    requires any <==> exists c :: c >= 0 && ChildOf(s1, c, p)
    ensures any <==> exists c :: ChildOf(st, c, p)
    ensures Leaving(AllAdopted(s1, p, 0, any), p)
    ensures Ended(Told(AllAdopted(s1, p, 0, any), p, 0), p) == AllLeft(st, p, any)
  {
    if c :| ChildOf(st, c, p) { assert c >= 0 && ChildOf(s1, c, p); }
    if c :| c >= 0 && ChildOf(s1, c, p) { assert ChildOf(st, c, p); }
    assert st.procs[p].parent != p && s1.procs[p].parent == st.procs[p].parent;
    var a, b := Ended(Told(AllAdopted(s1, p, 0, any), p, 0), p), AllLeft(st, p, any);
    forall q | 0 <= q < |st.procs| ensures a.procs[q] == b.procs[q] { EndsAlikeAt(st, p, any, s1, q); }
    assert a.procs == b.procs;
    StillLeaving(s1, p, any);
  }

  lemma StillLeaving(s1: State, p: int, any: bool)
    requires Leaving(s1, p)
    ensures Leaving(AllAdopted(s1, p, 0, any), p)
  {
  }

  lemma EndsAlikeAt(st: State, p: int, any: bool, s1: State, q: int)
    requires Is(st, p) && Is(st, q) && Is(st, st.procs[p].parent) && st.procs[p].parent != p && p != INIT
    requires s1 == Goto(st.(waitLock := p), p, Reparent(0))
    ensures Is(AllAdopted(s1, p, 0, any), p) && AllAdopted(s1, p, 0, any).procs[p].parent == st.procs[p].parent
    ensures Ended(Told(AllAdopted(s1, p, 0, any), p, 0), p).procs[q] == Left(st, p, any, q)
  {
  }
}

/** What holds over whole runs of the sleep and wakeup protocol: no lost wakeup, exact
    semaphore accounting, mutual exclusion of sleep-locks, progress and termination. */
module SleepRuns {
  import opened SleepWakeup

  ghost predicate Initial(st: State) {
    && WellTyped(st)
    && (forall p :: 0 <= p < |st.procs| ==>
          && st.procs[p].pc == Idle && !st.procs[p].sleeping && st.procs[p].lock == FREE && st.procs[p].held == {})
    && (forall s :: 0 <= s < |st.sems| ==>
          && st.sems[s].lock == FREE && st.sems[s].value == st.sems[s].init >= 0
          && st.sems[s].ups == 0 && st.sems[s].downs == 0
          && (st.sems[s].kind.Mutex? ==> st.sems[s].init == 1))
  }

  /** The processes named in order can take one step each, from st to end. */
  ghost predicate Runs(st: State, ps: seq<int>, end: State)
    decreases |ps|
  {
    if ps == [] then st == end
    else WellTyped(st) && InRange(st, ps[0]) && Enabled(st, ps[0]) && Runs(Step(st, ps[0]), ps[1..], end)
  }

  lemma InitialInv(st: State)
    requires Initial(st)
    ensures Inv(st)
  {
    forall s | 0 <= s < |st.sems| ensures NoLostWakeup(st, s) {
      assert ScannedTo(st, s, |st.procs|);
    }
  }

  lemma {:induction false} RunKeepsInv(st: State, ps: seq<int>, end: State)
    requires Inv(st) && Runs(st, ps, end)
    ensures Inv(end)
    decreases |ps|
  {
    if ps != [] {
      StepKeepsInv(st, ps[0]);
      RunKeepsInv(Step(st, ps[0]), ps[1..], end);
    }
  }

  /** No lost wakeup: nobody sleeps on a semaphore that is positive and unlocked. */
  lemma NoSleeperOnPositive(st: State, ps: seq<int>, end: State, s: int, p: int)
    requires Initial(st) && Runs(st, ps, end) && IsSem(end, s) && InRange(end, p)
    requires end.sems[s].lock == FREE && end.sems[s].value > 0
    ensures !(end.procs[p].sleeping && end.procs[p].chan == s)
  {
    InitialInv(st);
    RunKeepsInv(st, ps, end);
    assert NoLostWakeup(end, s);
    assert !Committed(end, p, s);
  }

  // ---------------------------------------------------------------- accounting

  ghost predicate Account(st: State) {
    forall s :: 0 <= s < |st.sems| && st.sems[s].kind.Counting? ==>
      st.sems[s].value == st.sems[s].init + st.sems[s].ups - st.sems[s].downs
  }

  lemma StepAccount(st: State, p: int)
    requires Inv(st) && Account(st) && InRange(st, p) && Enabled(st, p)
    ensures Account(Step(st, p))
  {
    StepShape(st, p);
    assert PcFacts(st, p);
  }

  lemma {:induction false} RunAccount(st: State, ps: seq<int>, end: State)
    requires Inv(st) && Account(st) && Runs(st, ps, end)
    ensures Account(end)
    decreases |ps|
  {
    if ps != [] {
      StepKeepsInv(st, ps[0]);
      StepAccount(st, ps[0]);
      RunAccount(Step(st, ps[0]), ps[1..], end);
    }
  }

  /** value = initial + ups - downs >= 0, in every reachable state. */
  lemma ValueIsBalance(st: State, ps: seq<int>, end: State, s: int)
    requires Initial(st) && Runs(st, ps, end) && IsSem(end, s) && end.sems[s].kind.Counting?
    ensures end.sems[s].value == end.sems[s].init + end.sems[s].ups - end.sems[s].downs
    ensures end.sems[s].value >= 0
  {
    InitialInv(st);
    RunKeepsInv(st, ps, end);
    RunAccount(st, ps, end);
  }

  // ---------------------------------------------------------------- progress

  predicate Finished(pr: Proc) {
    pr.pc.Idle? && pr.script == []
  }

  predicate SleepingNow(pr: Proc) {
    pr.pc.Asleep? && pr.sleeping
  }

  predicate CanMove(st: State, p: int) {
    WellTyped(st) && InRange(st, p) && Enabled(st, p)
  }

  /** Whoever holds a p->lock can always go on: those locks are never waited for in a cycle. */
  lemma ProcLockHolderMoves(st: State, q: int)
    requires Inv(st) && InRange(st, q) && st.procs[q].lock != FREE
    ensures CanMove(st, st.procs[q].lock)
  {
  }

  lemma SemLockHolderMoves(st: State, s: int) returns (q: int)
    requires Inv(st) && IsSem(st, s) && st.sems[s].lock != FREE
    ensures CanMove(st, q)
  {
    var h := st.sems[s].lock;
    if Enabled(st, h) {
      q := h;
    } else {
      var pc := st.procs[h].pc;
      var l := if pc.UpWake? then pc.i else h;
      ProcLockHolderMoves(st, l);
      q := st.procs[l].lock;
    }
  }

  /** The spin locks never deadlock: a process that is neither done nor asleep, or the one it
      waits for, can take a step. */
  lemma Progress(st: State, p: int) returns (q: int)
    requires Inv(st) && InRange(st, p) && !Finished(st.procs[p]) && !SleepingNow(st.procs[p])
    ensures CanMove(st, q)
  {
    var pc := st.procs[p].pc;
    if Enabled(st, p) {
      q := p;
    } else if pc.UpAcq? || pc.DownAcq? {
      q := SemLockHolderMoves(st, pc.s);
    } else {
      var l := if pc.UpWake? then pc.i else if pc.KillAcq? then pc.q else p;
      ProcLockHolderMoves(st, l);
      q := st.procs[l].lock;
    }
  }

  ghost predicate Stuck(st: State) {
    forall p :: !CanMove(st, p)
  }

  lemma NotStuck(st: State, p: int)
    requires Inv(st) && InRange(st, p) && !Finished(st.procs[p]) && !SleepingNow(st.procs[p])
    ensures !Stuck(st)
  {
    var q := Progress(st, p);
    assert CanMove(st, q);
  }

  /** A run that cannot go on has every process done, or asleep on a semaphore at zero. */
  lemma StuckMeansDoneOrZero(st: State, p: int)
    requires Inv(st) && Stuck(st) && InRange(st, p)
    ensures Finished(st.procs[p]) || (SleepingNow(st.procs[p]) && st.sems[st.procs[p].pc.s].value == 0)
  {
    if !Finished(st.procs[p]) && !SleepingNow(st.procs[p]) {
      NotStuck(st, p);
    } else if SleepingNow(st.procs[p]) {
      var s := st.procs[p].pc.s;
      assert NoLostWakeup(st, s) && Committed(st, p, s);
      if st.sems[s].value > 0 {
        assert Scanning(st, s);
        NotStuck(st, st.sems[s].lock);
      }
    }
  }

  // ---------------------------------------------------------------- termination

  function OpWork(n: nat, op: Op): (w: nat)
  {
    match op
    case Down(_) => 16
    case Up(_) => 6 + 10 * n
    case Print(_) => 1
    case Kill(_) => 10
  }

  function ScriptWork(n: nat, script: seq<Op>): nat {
    if script == [] then 0 else OpWork(n, script[0]) + ScriptWork(n, script[1..])
  }

  /** Steps left in the current operation, with enough to spare to pay for each process it rouses. */
  function PcWork(n: nat, pr: Proc): nat {
    match pr.pc
    case Idle => 0
    case UpAcq(_) => 5 + 10 * n
    case UpTest(_) => 4 + 10 * n
    case UpSet(_) => 4 + 10 * n
    case UpWake(_, i) => if 0 <= i <= n then 3 + 10 * (n - i) else 0
    case UpLook(_, i) => if 0 <= i < n then 2 + 10 * (n - i) else 0
    case UpInc(_) => 2
    case UpRel(_) => 1
    case DownAcq(_) => 15
    case DownTest(_) => 14
    case SleepAcq(_) => 13
    case SleepRel(_) => 12
    case SleepSet(_) => 11
    case Asleep(_) => if pr.sleeping then 10 else 17
    case WakeTidy(_) => 16
    case DownDec(_) => 2
    case DownRel(_) => 1
    case KillAcq(_) => 9
    case KillLook(_) => 8
  }

  function Work(n: nat, pr: Proc): nat {
    PcWork(n, pr) + ScriptWork(n, pr.script)
  }

  function Total(n: nat, procs: seq<Proc>): nat {
    if procs == [] then 0 else Work(n, procs[0]) + Total(n, procs[1..])
  }

  lemma {:induction false} TotalUpdate(n: nat, procs: seq<Proc>, i: int, pr: Proc)
    requires 0 <= i < |procs|
    ensures Total(n, procs[i := pr]) == Total(n, procs) - Work(n, procs[i]) + Work(n, pr)
  {
    if i == 0 {
      assert procs[i := pr][1..] == procs[1..];
    } else {
      TotalUpdate(n, procs[1..], i - 1, pr);
      assert procs[i := pr][1..] == procs[1..][i - 1 := pr];
    }
  }

  /** Rousing a sleeper costs at most seven more steps. */
  lemma RouseWork(n: nat, pr: Proc)
    requires pr.sleeping ==> pr.pc.Asleep?
    ensures Work(n, pr.(sleeping := false)) <= Work(n, pr) + 7
    ensures forall l :: Work(n, pr.(lock := l)) == Work(n, pr)
  {
  }

  /** Every step uses up work. */
  lemma StepWorks(st: State, p: int)
    requires Inv(st) && InRange(st, p) && Enabled(st, p)
    ensures Total(|st.procs|, Step(st, p).procs) < Total(|st.procs|, st.procs)
  {
    var n := |st.procs|;
    var next := Step(st, p);
    StepShape(st, p);
    var pc := st.procs[p].pc;
    var i := if pc.UpWake? || pc.UpLook? then pc.i else if pc.KillAcq? || pc.KillLook? then pc.q else p;
    if i == p || i == n {
      OneWorks(st, p);
      assert next.procs == st.procs[p := next.procs[p]];
      TotalUpdate(n, st.procs, p, next.procs[p]);
    } else {
      TwoWork(st, p, i);
      var mid := st.procs[i := next.procs[i]];
      assert next.procs == mid[p := next.procs[p]];
      TotalUpdate(n, st.procs, i, next.procs[i]);
      TotalUpdate(n, mid, p, next.procs[p]);
    }
  }

  predicate Touches(pc: Pc, q: int) {
    (pc.UpWake? && pc.i == q) || (pc.UpLook? && pc.i == q) || (pc.KillAcq? && pc.q == q) || (pc.KillLook? && pc.q == q)
  }

  /** A step that looks at no other process. */
  lemma OneChanges(st: State, p: int)
    requires Inv(st) && InRange(st, p) && Enabled(st, p)
    requires forall q :: InRange(st, q) && q != p ==> !Touches(st.procs[p].pc, q)
    ensures InRange(Step(st, p), p) && Step(st, p).procs == st.procs[p := Step(st, p).procs[p]]
  {
    var pc := st.procs[p].pc;
    assert pc.UpLook? ==> Touches(pc, pc.i);
    assert pc.UpWake? ==> Touches(pc, pc.i);
    assert pc.KillAcq? || pc.KillLook? ==> Touches(pc, pc.q);
  }

  lemma OneWorks(st: State, p: int)
    requires Inv(st) && InRange(st, p) && Enabled(st, p)
    requires forall q :: InRange(st, q) && q != p ==> !Touches(st.procs[p].pc, q)
    ensures InRange(Step(st, p), p) && Step(st, p).procs == st.procs[p := Step(st, p).procs[p]]
    ensures Work(|st.procs|, Step(st, p).procs[p]) < Work(|st.procs|, st.procs[p])
  {
    OneChanges(st, p);
    if InUp(st.procs[p].pc) { UpFalls(st, p); } else { OtherFalls(st, p); }
  }

  lemma UpFalls(st: State, p: int)
    requires Inv(st) && InRange(st, p) && Enabled(st, p) && InUp(st.procs[p].pc)
    requires forall q :: InRange(st, q) && q != p ==> !Touches(st.procs[p].pc, q)
    ensures InRange(Step(st, p), p) && Work(|st.procs|, Step(st, p).procs[p]) < Work(|st.procs|, st.procs[p])
  {
    assert PcFacts(st, p);
    var pc := st.procs[p].pc;
    assert pc.UpLook? || pc.UpWake? ==> Touches(pc, pc.i);
  }

  lemma OtherFalls(st: State, p: int)
    requires Inv(st) && InRange(st, p) && Enabled(st, p) && !InUp(st.procs[p].pc)
    requires forall q :: InRange(st, q) && q != p ==> !Touches(st.procs[p].pc, q)
    ensures InRange(Step(st, p), p) && Work(|st.procs|, Step(st, p).procs[p]) < Work(|st.procs|, st.procs[p])
  {
    assert PcFacts(st, p);
    var pc := st.procs[p].pc;
    assert pc.KillAcq? || pc.KillLook? ==> Touches(pc, pc.q);
  }

  /** Acquiring q's lock to look at it. */
  lemma LockWork(st: State, p: int, q: int)
    requires Inv(st) && InRange(st, p) && Enabled(st, p) && InRange(st, q) && q != p
    requires Touches(st.procs[p].pc, q) && (st.procs[p].pc.UpWake? || st.procs[p].pc.KillAcq?)
    ensures |Step(st, p).procs| == |st.procs| && Step(st, p).procs[q] == st.procs[q].(lock := p)
    ensures Step(st, p).procs == st.procs[q := Step(st, p).procs[q]][p := Step(st, p).procs[p]]
    ensures Work(|st.procs|, Step(st, p).procs[p]) < Work(|st.procs|, st.procs[p])
  {
  }

  /** Looking at q, and perhaps rousing it. */
  lemma LookWork(st: State, p: int, q: int)
    requires Inv(st) && InRange(st, p) && Enabled(st, p) && InRange(st, q) && q != p
    requires Touches(st.procs[p].pc, q) && (st.procs[p].pc.UpLook? || st.procs[p].pc.KillLook?)
    ensures |Step(st, p).procs| == |st.procs|
    ensures Step(st, p).procs[q] == st.procs[q].(lock := FREE) || Step(st, p).procs[q] == st.procs[q].(sleeping := false).(lock := FREE)
    ensures Work(|st.procs|, Step(st, p).procs[q]) <= Work(|st.procs|, st.procs[q]) + 7
    ensures Step(st, p).procs == st.procs[q := Step(st, p).procs[q]][p := Step(st, p).procs[p]]
    ensures Work(|st.procs|, Step(st, p).procs[p]) + 7 < Work(|st.procs|, st.procs[p])
  {
    RouseWork(|st.procs|, st.procs[q]);
    RouseWork(|st.procs|, st.procs[q].(sleeping := false));
  }

  lemma TwoWork(st: State, p: int, q: int)
    requires Inv(st) && InRange(st, p) && Enabled(st, p) && InRange(st, q) && q != p
    requires Touches(st.procs[p].pc, q)
    ensures |Step(st, p).procs| == |st.procs|
    ensures Step(st, p).procs == st.procs[q := Step(st, p).procs[q]][p := Step(st, p).procs[p]]
    ensures Work(|st.procs|, Step(st, p).procs[p]) + Work(|st.procs|, Step(st, p).procs[q]) <
      Work(|st.procs|, st.procs[p]) + Work(|st.procs|, st.procs[q])
  {
    RouseWork(|st.procs|, st.procs[q]);
    if st.procs[p].pc.UpWake? || st.procs[p].pc.KillAcq? { LockWork(st, p, q); } else { LookWork(st, p, q); }
  }

  /** Every run of finite programs ends: no interleaving is longer than the work at its start. */
  lemma {:induction false} RunBounded(st: State, ps: seq<int>, end: State)
    requires Inv(st) && Runs(st, ps, end)
    ensures |ps| + Total(|st.procs|, end.procs) <= Total(|st.procs|, st.procs)
    decreases |ps|
  {
    if ps != [] {
      StepKeepsInv(st, ps[0]);
      StepShape(st, ps[0]);
      StepWorks(st, ps[0]);
      RunBounded(Step(st, ps[0]), ps[1..], end);
    }
  }
}

/** sleeplock.c: programs that release only what they hold and never take a lock twice get
    mutual exclusion, and whoever sleeps on a lock is waiting for a holder. */
module SleepLocks {
  import opened SleepWakeup
  import opened SleepRuns

  /** Every releasesleep in the program is of a lock held, every acquiresleep of one not held. */
  predicate Bracketed(sems: seq<Sem>, script: seq<Op>, held: set<int>)
    decreases |script|
  {
    if script == [] then true
    else match script[0]
      case Down(s) =>
        if IsMutex(sems, s) then s !in held && Bracketed(sems, script[1..], held + {s})
        else Bracketed(sems, script[1..], held)
      case Up(s) =>
        if IsMutex(sems, s) then s in held && Bracketed(sems, script[1..], held - {s})
        else Bracketed(sems, script[1..], held)
      case _ => Bracketed(sems, script[1..], held)
  }

  predicate IsMutex(sems: seq<Sem>, s: int) {
    0 <= s < |sems| && sems[s].kind.Mutex?
  }

  /** In acquiresleep(s), not yet the holder. */
  predicate Acquiring(pc: Pc) {
    pc.DownAcq? || pc.DownTest? || pc.SleepAcq? || pc.SleepRel? || pc.SleepSet? || pc.Asleep? || pc.WakeTidy? || pc.DownDec?
  }

  /** In releasesleep(s), still the holder. */
  predicate Releasing(pc: Pc) {
    pc.UpAcq? || pc.UpTest? || pc.UpSet?
  }

  /** The locks held once the operation under way is over. */
  function HeldAfter(sems: seq<Sem>, pr: Proc): set<int> {
    if Acquiring(pr.pc) && IsMutex(sems, pr.pc.s) then pr.held + {pr.pc.s}
    else if Releasing(pr.pc) && IsMutex(sems, pr.pc.s) then pr.held - {pr.pc.s}
    else pr.held
  }

  ghost predicate Disciplined(sems: seq<Sem>, pr: Proc) {
    && Bracketed(sems, pr.script, HeldAfter(sems, pr))
    && (Acquiring(pr.pc) && IsMutex(sems, pr.pc.s) ==> pr.pc.s !in pr.held)
    && (Releasing(pr.pc) && IsMutex(sems, pr.pc.s) ==> pr.pc.s in pr.held)
  }

  /** locked is 0 exactly when nobody holds the lock, and never do two hold it. */
  ghost predicate Exclusive(st: State, s: int)
    requires IsSem(st, s)
  {
    && 0 <= st.sems[s].value <= 1
    && (st.sems[s].value == 1 ==> forall p :: 0 <= p < |st.procs| ==> s !in st.procs[p].held)
    && (st.sems[s].value == 0 ==> exists p :: InRange(st, p) && s in st.procs[p].held)
    && (forall p, q :: 0 <= p < |st.procs| && 0 <= q < |st.procs| && s in st.procs[p].held && s in st.procs[q].held ==>
          p == q)
  }

  ghost predicate LockInv(st: State) {
    && (forall p :: 0 <= p < |st.procs| ==> Disciplined(st.sems, st.procs[p]))
    && (forall s :: 0 <= s < |st.sems| && IsMutex(st.sems, s) ==> Exclusive(st, s))
  }

  lemma {:induction false} BracketedKinds(sems: seq<Sem>, sems': seq<Sem>, script: seq<Op>, held: set<int>)
    requires forall s :: IsMutex(sems, s) <==> IsMutex(sems', s)
    ensures Bracketed(sems, script, held) == Bracketed(sems', script, held)
    decreases |script|
  {
    if script != [] {
      match script[0]
      case Down(s) =>
        BracketedKinds(sems, sems', script[1..], held + {s});
        BracketedKinds(sems, sems', script[1..], held);
      case Up(s) =>
        BracketedKinds(sems, sems', script[1..], held - {s});
        BracketedKinds(sems, sems', script[1..], held);
      case _ => BracketedKinds(sems, sems', script[1..], held);
    }
  }

  lemma StepKinds(st: State, p: int)
    requires Inv(st) && InRange(st, p) && Enabled(st, p)
    ensures |Step(st, p).sems| == |st.sems|
    ensures forall s :: IsMutex(st.sems, s) <==> IsMutex(Step(st, p).sems, s)
  {
    StepShape(st, p);
    forall s | 0 <= s < |st.sems| ensures IsMutex(st.sems, s) <==> IsMutex(Step(st, p).sems, s) {
      StepValue(st, p, s);
    }
  }

  /** What p holds changes at two steps only. */
  lemma StepHeld(st: State, p: int)
    requires Inv(st) && InRange(st, p) && Enabled(st, p)
    ensures InRange(Step(st, p), p)
    ensures Step(st, p).procs[p].held ==
      if st.procs[p].pc.UpSet? then st.procs[p].held - {st.procs[p].pc.s}
      else if st.procs[p].pc.DownDec? && IsMutex(st.sems, st.procs[p].pc.s) then st.procs[p].held + {st.procs[p].pc.s}
      else st.procs[p].held
  {
    StepShape(st, p);
  }

  lemma StepHeldAfter(st: State, p: int)
    requires WellTyped(st) && InRange(st, p) && Enabled(st, p) && !st.procs[p].pc.Idle? && PcFacts(st, p)
    requires st.procs[p].pc.UpAcq? ==> IsMutex(st.sems, st.procs[p].pc.s) ==> st.procs[p].pc.s in st.procs[p].held
    ensures InRange(Step(st, p), p)
    ensures HeldAfter(st.sems, Step(st, p).procs[p]) == HeldAfter(st.sems, st.procs[p])
  {
    StepShape(st, p);
  }

  /** Starting the next operation of a bracketed program. */
  lemma StartDiscipline(sems: seq<Sem>, pr: Proc, next: Proc)
    requires Disciplined(sems, pr) && pr.pc.Idle? && pr.script != []
    requires next.pc == StartPc(pr.script[0]) && next.script == pr.script[1..] && next.held == pr.held
    ensures Disciplined(sems, next)
  {
  }

  lemma IdleStep(st: State, p: int)
    requires WellTyped(st) && InRange(st, p) && Enabled(st, p) && st.procs[p].pc.Idle?
    ensures InRange(Step(st, p), p)
    ensures Step(st, p).procs[p].pc == StartPc(st.procs[p].script[0])
    ensures Step(st, p).procs[p].script == st.procs[p].script[1..]
    ensures Step(st, p).procs[p].held == st.procs[p].held
  {
  }

  /** Within an operation what p holds and is bound to release stays in step. */
  lemma WithinDiscipline(st: State, p: int)
    requires WellTyped(st) && InRange(st, p) && Enabled(st, p) && PcFacts(st, p) && !st.procs[p].pc.Idle?
    requires Disciplined(st.sems, st.procs[p])
    ensures InRange(Step(st, p), p)
    ensures Acquiring(Step(st, p).procs[p].pc) && IsMutex(st.sems, Step(st, p).procs[p].pc.s) ==>
      Step(st, p).procs[p].pc.s !in Step(st, p).procs[p].held
    ensures Releasing(Step(st, p).procs[p].pc) && IsMutex(st.sems, Step(st, p).procs[p].pc.s) ==>
      Step(st, p).procs[p].pc.s in Step(st, p).procs[p].held
  {
    StepShape(st, p);
  }

  lemma StepOwnDiscipline(st: State, p: int)
    requires Inv(st) && InRange(st, p) && Enabled(st, p) && Disciplined(st.sems, st.procs[p])
    ensures InRange(Step(st, p), p) && Disciplined(st.sems, Step(st, p).procs[p])
  {
    if st.procs[p].pc.Idle? {
      IdleStep(st, p);
      StartDiscipline(st.sems, st.procs[p], Step(st, p).procs[p]);
    } else {
      assert PcFacts(st, p);
      StepScript(st, p, p);
      StepHeldAfter(st, p);
      WithinDiscipline(st, p);
    }
  }

  lemma StepDiscipline(st: State, p: int, q: int)
    requires Inv(st) && LockInv(st) && InRange(st, p) && Enabled(st, p) && InRange(st, q)
    ensures InRange(Step(st, p), q) && Disciplined(Step(st, p).sems, Step(st, p).procs[q])
  {
    StepShape(st, p);
    StepKinds(st, p);
    var next := Step(st, p);
    if q == p { StepOwnDiscipline(st, p); } else { StepPcs(st, p, q); }
    BracketedKinds(st.sems, next.sems, next.procs[q].script, HeldAfter(st.sems, next.procs[q]));
  }

  lemma StepExclusive(st: State, p: int, s: int)
    requires Inv(st) && LockInv(st) && InRange(st, p) && Enabled(st, p) && IsSem(st, s) && st.sems[s].kind.Mutex?
    ensures IsSem(Step(st, p), s) && Exclusive(Step(st, p), s)
  {
    StepShape(st, p);
    StepValue(st, p, s);
    StepHeld(st, p);
    var next := Step(st, p);
    assert PcFacts(st, p) && Exclusive(st, s) && Disciplined(st.sems, st.procs[p]);
    forall q | 0 <= q < |st.procs| && q != p ensures next.procs[q].held == st.procs[q].held {
      StepPcs(st, p, q);
    }
    if st.procs[p].pc != DownDec(s) && st.sems[s].value == 0 && next.sems[s].value == 0 {
      var h :| InRange(st, h) && s in st.procs[h].held;
      assert InRange(next, h) && s in next.procs[h].held;
    }
    if st.procs[p].pc == DownDec(s) {
      assert InRange(next, p) && s in next.procs[p].held;
    }
  }

  lemma StepKeepsLockInv(st: State, p: int)
    requires Inv(st) && LockInv(st) && InRange(st, p) && Enabled(st, p)
    ensures LockInv(Step(st, p))
  {
    StepShape(st, p);
    StepKinds(st, p);
    forall q | 0 <= q < |st.procs| ensures Disciplined(Step(st, p).sems, Step(st, p).procs[q]) {
      StepDiscipline(st, p, q);
    }
    forall s | 0 <= s < |st.sems| && IsMutex(Step(st, p).sems, s) ensures Exclusive(Step(st, p), s) {
      assert IsMutex(st.sems, s);
      StepExclusive(st, p, s);
    }
  }

  lemma {:induction false} RunKeepsLockInv(st: State, ps: seq<int>, end: State)
    requires Inv(st) && LockInv(st) && Runs(st, ps, end)
    ensures Inv(end) && LockInv(end)
    decreases |ps|
  {
    if ps != [] {
      StepKeepsInv(st, ps[0]);
      StepKeepsLockInv(st, ps[0]);
      RunKeepsLockInv(Step(st, ps[0]), ps[1..], end);
    }
  }

  /** Programs that start out holding nothing and keep the rule. */
  ghost predicate AllBracketed(st: State) {
    forall p :: 0 <= p < |st.procs| ==> Bracketed(st.sems, st.procs[p].script, {})
  }

  lemma RunExclusive(st: State, ps: seq<int>, end: State, s: int)
    requires Initial(st) && AllBracketed(st) && Runs(st, ps, end) && IsMutex(end.sems, s)
    ensures Exclusive(end, s) && NoLostWakeup(end, s)
    ensures forall p :: 0 <= p < |end.procs| ==> Disciplined(end.sems, end.procs[p])
  {
    InitialInv(st);
    RunKeepsLockInv(st, ps, end);
  }

  /** Mutual exclusion: at most one process is ever between acquiresleep and releasesleep. */
  lemma MutualExclusion(st: State, ps: seq<int>, end: State, s: int, p: int, q: int)
    requires Initial(st) && AllBracketed(st) && Runs(st, ps, end) && IsMutex(end.sems, s)
    requires InRange(end, p) && InRange(end, q) && s in end.procs[p].held && s in end.procs[q].held
    ensures p == q && end.sems[s].value == 0
  {
    RunExclusive(st, ps, end, s);
  }

  lemma RunKeepsSleepOk(st: State, ps: seq<int>, end: State)
    requires Initial(st) && Runs(st, ps, end)
    ensures SleepOk(end) && forall s :: 0 <= s < |end.sems| ==> end.sems[s].value >= 0
  {
    InitialInv(st);
    RunKeepsInv(st, ps, end);
  }

  /** A process asleep on a lock nobody is busy with waits for some other process that holds it. */
  lemma SleeperImpliesLocked(st: State, ps: seq<int>, end: State, s: int, p: int) returns (h: int)
    requires Initial(st) && AllBracketed(st) && Runs(st, ps, end) && IsMutex(end.sems, s)
    requires InRange(end, p) && SleepingNow(end.procs[p]) && end.procs[p].chan == s && end.sems[s].lock == FREE
    ensures InRange(end, h) && h != p && s in end.procs[h].held
  {
    RunExclusive(st, ps, end, s);
    RunKeepsSleepOk(st, ps, end);
    assert Committed(end, p, s) && Disciplined(end.sems, end.procs[p]);
    h :| InRange(end, h) && s in end.procs[h].held;
  }
}

/** pingpong.c on two private semaphores: every interleaving of the two processes prints a
    prefix of ping, pong, ping, pong, ... and the only place a run can end is after N of each. */
module PingPong {
  import opened SleepWakeup
  import opened SleepRuns

  const PING := 0
  const PONG := 1

  /** n times: sem_down(d), printf(x), sem_up(u). */
  function Rounds(n: nat, d: int, x: int, u: int): (r: seq<Op>)
    ensures |r| == 3 * n
  {
    if n == 0 then [] else [Down(d), Print(x), Up(u)] + Rounds(n - 1, d, x, u)
  }

  /** sem_name_f is semaphore 0, opened with 1; sem_name_s is semaphore 1, opened with 0. */
  ghost predicate Start(st: State, n: nat) {
    && Initial(st) && |st.procs| == 2 && |st.sems| == 2 && st.out == []
    && st.sems[0].kind.Counting? && st.sems[0].init == 1
    && st.sems[1].kind.Counting? && st.sems[1].init == 0
    && st.procs[0].script == Rounds(n, 0, PING, 1)
    && st.procs[1].script == Rounds(n, 1, PONG, 0)
  }

  predicate Alternates(out: seq<int>) {
    forall k :: 0 <= k < |out| ==> out[k] == k % 2
  }

  // ---------------------------------------------------------------- one process

  predicate InDown(pc: Pc, d: int) {
    (pc.DownAcq? || pc.DownTest? || pc.SleepAcq? || pc.SleepRel? || pc.SleepSet? || pc.Asleep? || pc.WakeTidy? || pc.DownDec?)
    && pc.s == d
  }

  predicate BeforeInc(pc: Pc, u: int) {
    (pc.UpAcq? || pc.UpTest? || pc.UpWake? || pc.UpLook? || pc.UpInc?) && pc.s == u
  }

  /** Where a process is in its loop, from what is left of its program: how many downs, prints
      and ups of its own are behind it. */
  ghost predicate AtTurn(pr: Proc, n: nat, d: int, x: int, u: int, downs: int, prints: int, ups: int) {
    var k := |pr.script| / 3;
    if |pr.script| % 3 == 0 then
      && k <= n && pr.script == Rounds(k, d, x, u)
      && downs == prints == n - k
      && ((pr.pc.Idle? && ups == n - k) || (pr.pc == UpRel(u) && ups == n - k)
          || (BeforeInc(pr.pc, u) && ups == n - k - 1))
    else if |pr.script| % 3 == 2 then
      && k < n && pr.script == [Print(x), Up(u)] + Rounds(k, d, x, u)
      && prints == ups == n - k - 1
      && ((pr.pc.Idle? && downs == n - k) || (pr.pc == DownRel(d) && downs == n - k)
          || (InDown(pr.pc, d) && downs == n - k - 1))
    else
      && k < n && pr.script == [Up(u)] + Rounds(k, d, x, u)
      && pr.pc.Idle? && ups == n - k - 1 && downs == prints == n - k
  }

  predicate Prints(pr: Proc) {
    pr.pc.Idle? && pr.script != [] && pr.script[0].Print?
  }

  lemma TurnIdle(st: State, p: int, n: nat, d: int, x: int, u: int, prints: int)
    requires WellTyped(st) && InRange(st, p) && Enabled(st, p) && IsSem(st, d) && IsSem(st, u) && d != u
    requires AtTurn(st.procs[p], n, d, x, u, st.sems[d].downs, prints, st.sems[u].ups) && st.procs[p].pc.Idle?
    ensures InRange(Step(st, p), p) && Step(st, p).sems == st.sems
    ensures AtTurn(Step(st, p).procs[p], n, d, x, u, st.sems[d].downs,
              prints + (if Prints(st.procs[p]) then 1 else 0), st.sems[u].ups)
    ensures Step(st, p).out == if Prints(st.procs[p]) then st.out + [x] else st.out
  {
    var script := st.procs[p].script;
    var k := |script| / 3;
    if |script| % 3 == 0 {
      assert script == [Down(d), Print(x), Up(u)] + Rounds(k - 1, d, x, u);
      assert script[1..] == [Print(x), Up(u)] + Rounds(k - 1, d, x, u);
    } else if |script| % 3 == 2 {
      assert script[1..] == [Up(u)] + Rounds(k, d, x, u);
    } else {
      assert script[1..] == Rounds(k, d, x, u);
    }
  }

  lemma TurnBusy(st: State, p: int, n: nat, d: int, x: int, u: int, prints: int)
    requires WellTyped(st) && InRange(st, p) && Enabled(st, p) && IsSem(st, d) && IsSem(st, u) && d != u
    requires st.sems[d].kind.Counting? && st.sems[u].kind.Counting?
    requires AtTurn(st.procs[p], n, d, x, u, st.sems[d].downs, prints, st.sems[u].ups) && !st.procs[p].pc.Idle?
    ensures InRange(Step(st, p), p) && |Step(st, p).sems| == |st.sems| && Step(st, p).out == st.out
    ensures AtTurn(Step(st, p).procs[p], n, d, x, u, Step(st, p).sems[d].downs, prints, Step(st, p).sems[u].ups)
  {
    StepScript(st, p, p);
  }

  /** A process does not touch the other's counts. */
  lemma TurnLeaves(st: State, p: int, n: nat, d: int, x: int, u: int, prints: int)
    requires WellTyped(st) && InRange(st, p) && Enabled(st, p) && IsSem(st, d) && IsSem(st, u) && d != u
    requires st.sems[d].kind.Counting? && st.sems[u].kind.Counting?
    requires AtTurn(st.procs[p], n, d, x, u, st.sems[d].downs, prints, st.sems[u].ups)
    ensures |Step(st, p).sems| == |st.sems|
    ensures Step(st, p).sems[u].downs == st.sems[u].downs && Step(st, p).sems[d].ups == st.sems[d].ups
  {
  }

  // ---------------------------------------------------------------- both processes

  ghost predicate Shape(st: State, n: nat) {
    && Inv(st) && Account(st) && |st.procs| == 2 && |st.sems| == 2
    && st.sems[0].kind.Counting? && st.sems[0].init == 1
    && st.sems[1].kind.Counting? && st.sems[1].init == 0
  }

  /** The output so far tells how often each has printed, and so where each is. */
  ghost predicate Game(st: State, n: nat) {
    Shape(st, n) && Turns(st, n)
  }

  predicate Pair(st: State) {
    |st.procs| == 2 && |st.sems| == 2 && st.sems[0].kind.Counting? && st.sems[1].kind.Counting?
  }

  ghost predicate Turns(st: State, n: nat)
    requires Pair(st)
  {
    && Alternates(st.out)
    && AtTurn(st.procs[0], n, 0, PING, 1, st.sems[0].downs, (|st.out| + 1) / 2, st.sems[1].ups)
    && AtTurn(st.procs[1], n, 1, PONG, 0, st.sems[1].downs, |st.out| / 2, st.sems[0].ups)
  }

  lemma StartGame(st: State, n: nat)
    requires Start(st, n)
    ensures Game(st, n)
  {
    InitialInv(st);
  }

  /** A process prints only when it is its turn. */
  lemma TurnsAlternate(st: State, n: nat)
    requires Game(st, n)
    ensures Prints(st.procs[0]) ==> |st.out| % 2 == 0
    ensures Prints(st.procs[1]) ==> |st.out| % 2 == 1
  {
    assert st.sems[0].value == 1 + st.sems[0].ups - st.sems[0].downs >= 0;
    assert st.sems[1].value == st.sems[1].ups - st.sems[1].downs >= 0;
  }

  lemma StepShapeKept(st: State, n: nat, p: int)
    requires Shape(st, n) && CanMove(st, p)
    ensures Shape(Step(st, p), n)
  {
    StepKeepsInv(st, p);
    StepAccount(st, p);
    SleepWakeup.StepShape(st, p);
    StepValue(st, p, 0);
    StepValue(st, p, 1);
  }

  /** Both kinds of step by the process whose turn bookkeeping is given. */
  lemma TurnStep(st: State, p: int, n: nat, d: int, x: int, u: int, prints: int)
    requires WellTyped(st) && InRange(st, p) && Enabled(st, p) && IsSem(st, d) && IsSem(st, u) && d != u
    requires st.sems[d].kind.Counting? && st.sems[u].kind.Counting?
    requires AtTurn(st.procs[p], n, d, x, u, st.sems[d].downs, prints, st.sems[u].ups)
    ensures InRange(Step(st, p), p) && |Step(st, p).sems| == |st.sems|
    ensures AtTurn(Step(st, p).procs[p], n, d, x, u, Step(st, p).sems[d].downs,
              prints + (if Prints(st.procs[p]) then 1 else 0), Step(st, p).sems[u].ups)
    ensures Step(st, p).out == if Prints(st.procs[p]) then st.out + [x] else st.out
  {
    if st.procs[p].pc.Idle? { TurnIdle(st, p, n, d, x, u, prints); } else { TurnBusy(st, p, n, d, x, u, prints); }
  }

  lemma SameTurn(pr: Proc, pr': Proc, n: nat, d: int, x: int, u: int, downs: int, prints: int, ups: int)
    requires AtTurn(pr, n, d, x, u, downs, prints, ups) && pr'.pc == pr.pc && pr'.script == pr.script
    ensures AtTurn(pr', n, d, x, u, downs, prints, ups)
  {
  }

  lemma PingStep(st: State, n: nat)
    requires WellTyped(st) && Pair(st) && Turns(st, n) && Enabled(st, 0)
    requires Prints(st.procs[0]) ==> |st.out| % 2 == 0
    ensures Pair(Step(st, 0)) ==> Turns(Step(st, 0), n)
  {
    StepPcs(st, 0, 1);
    var next := Step(st, 0);
    var pings := (|st.out| + 1) / 2;
    TurnLeaves(st, 0, n, 0, PING, 1, pings);
    TurnStep(st, 0, n, 0, PING, 1, pings);
    SameTurn(st.procs[1], next.procs[1], n, 1, PONG, 0, next.sems[1].downs, |st.out| / 2, next.sems[0].ups);
  }

  lemma PongStep(st: State, n: nat)
    requires WellTyped(st) && Pair(st) && Turns(st, n) && Enabled(st, 1)
    requires Prints(st.procs[1]) ==> |st.out| % 2 == 1
    ensures Pair(Step(st, 1)) ==> Turns(Step(st, 1), n)
  {
    StepPcs(st, 1, 0);
    var next := Step(st, 1);
    var pongs := |st.out| / 2;
    TurnLeaves(st, 1, n, 1, PONG, 0, pongs);
    TurnStep(st, 1, n, 1, PONG, 0, pongs);
    SameTurn(st.procs[0], next.procs[0], n, 0, PING, 1, next.sems[0].downs, (|st.out| + 1) / 2, next.sems[1].ups);
  }

  lemma StepGame(st: State, n: nat, p: int)
    requires Game(st, n) && CanMove(st, p)
    ensures Game(Step(st, p), n)
  {
    StepShapeKept(st, n, p);
    TurnsAlternate(st, n);
    if p == 0 { PingStep(st, n); } else { PongStep(st, n); }
  }

  lemma {:induction false} RunGame(st: State, ps: seq<int>, end: State, n: nat)
    requires Game(st, n) && Runs(st, ps, end)
    ensures Game(end, n)
    decreases |ps|
  {
    if ps != [] {
      StepGame(st, n, ps[0]);
      RunGame(Step(st, ps[0]), ps[1..], end, n);
    }
  }

  /** The output of every run, at every moment, is a prefix of (ping pong)^n. */
  lemma OutputIsPrefix(st: State, ps: seq<int>, end: State, n: nat)
    requires Start(st, n) && Runs(st, ps, end)
    ensures Alternates(end.out) && |end.out| <= 2 * n
  {
    StartGame(st, n);
    RunGame(st, ps, end, n);
    TurnsAlternate(end, n);
  }

  /** No run deadlocks: one that cannot go on has printed exactly (ping pong)^n. */
  lemma MaximalRunPrintsAll(st: State, ps: seq<int>, end: State, n: nat)
    requires Start(st, n) && Runs(st, ps, end) && Stuck(end)
    ensures |end.out| == 2 * n && Alternates(end.out)
    ensures |end.procs| == 2 && Finished(end.procs[0]) && Finished(end.procs[1])
  {
    StartGame(st, n);
    RunGame(st, ps, end, n);
    StuckMeansDoneOrZero(end, 0);
    StuckMeansDoneOrZero(end, 1);
    GameOver(end, n);
  }

  predicate DoneOrZero(st: State, p: int) {
    && InRange(st, p)
    && (Finished(st.procs[p])
        || (SleepingNow(st.procs[p]) && IsSem(st, st.procs[p].pc.s) && st.sems[st.procs[p].pc.s].value == 0))
  }

  lemma GameOver(st: State, n: nat)
    requires Game(st, n)
    requires DoneOrZero(st, 0) && DoneOrZero(st, 1)
    ensures |st.out| == 2 * n && Finished(st.procs[0]) && Finished(st.procs[1])
  {
    assert st.sems[0].value == 1 + st.sems[0].ups - st.sems[0].downs;
    assert st.sems[1].value == st.sems[1].ups - st.sems[1].downs;
    assert st.procs[0].script == [] ==> |st.procs[0].script| / 3 == 0;
    assert st.procs[1].script == [] ==> |st.procs[1].script| / 3 == 0;
  }

  /** Every run ends within a bound fixed at the start. */
  lemma RunsEnd(st: State, ps: seq<int>, end: State, n: nat)
    requires Start(st, n) && Runs(st, ps, end)
    ensures |ps| <= 2 * n * 43
  {
    InitialInv(st);
    RunBounded(st, ps, end);
    RoundsWork(n, 0, PING, 1);
    RoundsWork(n, 1, PONG, 0);
    assert st.procs == [st.procs[0], st.procs[1]];
    assert Total(2, [st.procs[0], st.procs[1]]) == Work(2, st.procs[0]) + Work(2, st.procs[1]) by {
      assert [st.procs[0], st.procs[1]][1..] == [st.procs[1]];
      assert Total(2, [st.procs[1]]) == Work(2, st.procs[1]);
    }
  }

  lemma {:induction false} RoundsWork(n: nat, d: int, x: int, u: int)
    ensures ScriptWork(2, Rounds(n, d, x, u)) == n * 43
  {
    if n > 0 {
      RoundsWork(n - 1, d, x, u);
      var r, rest := Rounds(n, d, x, u), Rounds(n - 1, d, x, u);
      assert r[1..] == [Print(x), Up(u)] + rest;
      assert r[1..][1..] == [Up(u)] + rest;
      assert r[1..][1..][1..] == rest;
      assert ScriptWork(2, r[1..][1..]) == 26 + ScriptWork(2, rest);
      assert ScriptWork(2, r[1..]) == 1 + ScriptWork(2, r[1..][1..]);
    }
  }
}

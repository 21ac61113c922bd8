/** begin_op's reservation: exactly when log_write's "too big a transaction" panic is
    out of reach. */
module LogReservation {
  import opened Blocks
  import opened LogProtocol
  import opened LogInvariant
  import opened LogSteps
  import opened LogRefinement

  /** The room log_write insists on. */
  function Capacity(c: Layout): int {
    if LOGSIZE < c.nlog - 1 then LOGSIZE else c.nlog - 1
  }

  /** The most blocks the running operations can ever list together. */
  function Peak(c: Layout): int {
    MAXOPBLOCKS + 2 * c.opMax
  }

  // ---------------------------------------------------------------- the bound

  function Entries(logged: set<(nat, int)>, p: nat): set<(nat, int)> {
    set e | e in logged && e.0 == p
  }

  lemma OwnEntry(rest: set<(nat, int)>, e: (nat, int))
    requires e !in rest
    ensures |Entries(rest + {e}, e.0)| == |Entries(rest, e.0)| + 1
    ensures |LoggedBy(rest + {e}, e.0)| == |LoggedBy(rest, e.0)| + 1
  {
    assert Entries(rest + {e}, e.0) == Entries(rest, e.0) + {e};
    assert LoggedBy(rest + {e}, e.0) == LoggedBy(rest, e.0) + {e.1};
  }

  lemma OtherEntry(rest: set<(nat, int)>, e: (nat, int), p: nat)
    requires e.0 != p
    ensures Entries(rest + {e}, p) == Entries(rest, p) && LoggedBy(rest + {e}, p) == LoggedBy(rest, p)
  {
  }

  lemma {:induction false} EntriesCount(logged: set<(nat, int)>, p: nat)
    ensures |Entries(logged, p)| == |LoggedBy(logged, p)|
    decreases |logged|
  {
    if logged != {} {
      var e :| e in logged;
      var rest := logged - {e};
      EntriesCount(rest, p);
      assert logged == rest + {e};
      if e.0 == p { OwnEntry(rest, e); } else { OtherEntry(rest, e, p); }
    }
  }

  lemma LeaveCount(logged: set<(nat, int)>, p: nat)
    ensures |WithoutProc(logged, p)| == |logged| - |LoggedBy(logged, p)|
  {
    EntriesCount(logged, p);
    assert logged == WithoutProc(logged, p) + Entries(logged, p);
    assert WithoutProc(logged, p) !! Entries(logged, p);
  }

  lemma Admitted(m: nat, listed: nat, running: nat)
    requires m <= MAXOPBLOCKS && listed + (running + 1) * MAXOPBLOCKS <= LOGSIZE && (running == 0 ==> listed == 0)
    ensures listed + m * (running + 1) <= MAXOPBLOCKS + 2 * m
  {
    assert running <= 2;
  }

  lemma BeginOpReserves(c: Layout, s: State, p: nat)
    requires Inv(c, s) && Reserved(c, s) && CanBeginOp(s, p)
    ensures Reserved(c, DoBeginOp(s, p))
  {
    assert |s.ops + {p}| == |s.ops| + 1;
    assert s.outstanding == 0 ==> s.ops == {} && s.lh == [];
    Admitted(c.opMax, |s.lh|, s.outstanding);
  }

  lemma EndOpReserves(c: Layout, s: State, p: nat)
    requires OpsOk(c, s) && Reserved(c, s) && CanEndOp(s, p)
    ensures Reserved(c, DoEndOp(s, p))
  {
    LeaveCount(s.logged, p);
    assert |LoggedBy(s.logged, p)| <= c.opMax;
    Distribute(c.opMax, |s.ops|);
  }

  lemma Distribute(m: nat, n: nat)
    ensures m * (n - 1) == m * n - m
  {
  }

  lemma LogWriteReserves(c: Layout, s: State, p: nat, i: nat)
    requires OpsOk(c, s) && Reserved(c, s) && CanLogWrite(c, s, p, i)
    ensures Reserved(c, DoLogWrite(s, p, i))
  {
    var e := (p, s.bufs[i].blockno);
    assert s.logged + {e} == if e in s.logged then s.logged else s.logged + {e};
  }

  lemma StepReserves(c: Layout, s: State, l: Label)
    requires Inv(c, s) && Reserved(c, s) && Enabled(c, s, l)
    ensures Reserved(c, Apply(c, s, l))
  {
    match l
    case BeginOp(p) => BeginOpReserves(c, s, p);
    case EndOp(p) => EndOpReserves(c, s, p);
    case LogWrite(p, i) => LogWriteReserves(c, s, p, i);
    case _ =>
  }

  lemma {:induction false} RunReserves(c: Layout, s: State, ls: seq<Label>)
    requires Inv(c, s) && Reserved(c, s) && Run(c, s, ls).Some?
    ensures Inv(c, Run(c, s, ls).value) && Reserved(c, Run(c, s, ls).value)
    decreases |ls|
  {
    if ls != [] {
      StepKeepsInv(c, s, ls[0]);
      StepReserves(c, s, ls[0]);
      RunReserves(c, Apply(c, s, ls[0]), ls[1..]);
    }
  }

  lemma {:induction false} OpsBounded(logged: set<(nat, int)>, ops: set<nat>, m: nat)
    requires forall e :: e in logged ==> e.0 in ops
    requires forall p :: p in ops ==> |LoggedBy(logged, p)| <= m
    ensures |logged| <= m * |ops|
    decreases |ops|
  {
    if ops == {} {
      assert logged == {};
    } else {
      var p :| p in ops;
      var rest := WithoutProc(logged, p);
      LeaveCount(logged, p);
      forall q | q in ops - {p} ensures |LoggedBy(rest, q)| <= m {
        LoggedByOthers(logged, p, q);
      }
      OpsBounded(rest, ops - {p}, m);
      assert m * |ops| == m * |ops - {p}| + m;
    }
  }

  /** The in-memory list never exceeds Peak, in any run. */
  lemma PeakBound(c: Layout, s: State)
    requires Inv(c, s) && Reserved(c, s) && s.phase.Quiet?
    ensures |s.lh| <= Peak(c)
  {
    OpsBounded(s.logged, s.ops, c.opMax);
  }

  /** If Peak is below the capacity no legal log_write panics, in any run. */
  lemma NoPanic(c: Layout, s0: State, ls: seq<Label>, p: nat, i: nat)
    requires Initial(c, s0) && Run(c, s0, ls).Some? && Peak(c) < Capacity(c)
    requires LogWriteCall(c, Run(c, s0, ls).value, p, i)
    ensures !LogWritePanics(c, Run(c, s0, ls).value)
  {
    BootInv(c, s0.disk, s0.runner);
    RunReserves(c, s0, ls);
    var s := Run(c, s0, ls).value;
    EndOpNeverPanics(c, s, p);
    PeakBound(c, s);
  }
}

/** The converse of LogReservation.NoPanic: when Peak reaches the capacity, some run of
    well-behaved operations ends in log_write's "too big a transaction" panic. */
module LogOverflow {
  import opened Sequences
  import opened Blocks
  import opened LogProtocol
  import opened LogSteps
  import opened LogRefinement
  import opened LogReservation

  /** Between operations' calls: blocks h[..n] are listed, buffer i caches h[i], nobody uses
      a buffer, and the other buffers cache no home block. */
  ghost predicate Stocked(c: Layout, s: State, h: seq<int>, n: nat) {
    && n <= |h| && n <= NBUF && |s.bufs| == NBUF && |s.disk| == c.size
    && s.phase == Quiet && !s.recovering && !s.committing
    && s.refs == map[] && s.lh == h[..n] && s.outstanding == |s.ops|
    && (forall i :: 0 <= i < n ==>
          Caches(s.bufs[i], h[i]) && s.bufs[i].valid && s.bufs[i].lock == None && !s.bufs[i].dirty)
    && (forall i :: n <= i < NBUF ==>
          && s.bufs[i].refcnt == 0 && s.bufs[i].lock == None && !s.bufs[i].dirty
          && (s.bufs[i].dev == ROOTDEV ==> s.bufs[i].blockno == c.logStart))
  }

  ghost predicate HomeList(c: Layout, h: seq<int>) {
    (forall k :: 0 <= k < |h| ==> c.Home(h[k])) && Distinct(h)
  }

  /** bread, log_write and brelse of block b through buffer i. */
  function LogOne(p: nat, b: int, i: nat): seq<Label> {
    [Bget(p, b, i), Lock(p, i), Fill(p, i), LogWrite(p, i), Unlock(p, i), Drop(p, i)]
  }

  lemma LogOneRead(c: Layout, s: State, h: seq<int>, n: nat, p: nat)
    requires c.Ok() && Stocked(c, s, h, n) && HomeList(c, h) && n < |h| && n < NBUF
    ensures var ls := [Bget(p, h[n], n), Lock(p, n), Fill(p, n)];
      Run(c, s, ls) == Some(s.(
        bufs := s.bufs[n := Buf(ROOTDEV, h[n], true, 1, Some(p), s.disk[h[n]], false)],
        refs := map[(p, n) := Have]))
  {
    var b := h[n];
    assert !Cached(s, b);
    var s1 := DoBget(s, p, b, n);
    assert CanBget(c, s, p, b, n);
    var s2 := DoLock(s1, p, n);
    var s3 := DoFill(s2, n);
    assert Run(c, s3, []) == Some(s3);
    assert Run(c, s2, [Fill(p, n)]) == Some(s3);
    assert [Lock(p, n), Fill(p, n)][1..] == [Fill(p, n)];
    assert Run(c, s1, [Lock(p, n), Fill(p, n)]) == Some(s3);
    var ls := [Bget(p, b, n), Lock(p, n), Fill(p, n)];
    assert ls[1..] == [Lock(p, n), Fill(p, n)];
    assert s3.refs == map[(p, n) := Have];
    assert s3.bufs == s.bufs[n := Buf(ROOTDEV, b, true, 1, Some(p), s.disk[b], false)];
  }

  /** The state after one more block has been logged. */
  ghost function OneMore(s: State, b: int, n: nat, p: nat): State
    requires n < |s.bufs| && 0 <= b < |s.disk|
  {
    s.(bufs := s.bufs[n := Buf(ROOTDEV, b, true, 1, None, s.disk[b], false)], lh := s.lh + [b], logged := s.logged + {(p, b)})
  }

  lemma LogOneRuns(c: Layout, s: State, h: seq<int>, n: nat, p: nat)
    requires c.Ok() && Stocked(c, s, h, n) && HomeList(c, h) && n < |h| && n < NBUF && n < Capacity(c)
    requires p in s.ops && |LoggedBy(s.logged, p)| < c.opMax
    ensures 0 <= h[n] < |s.disk| && Run(c, s, LogOne(p, h[n], n)) == Some(OneMore(s, h[n], n, p))
  {
    var b := h[n];
    LogOneRead(c, s, h, n, p);
    var read := [Bget(p, b, n), Lock(p, n), Fill(p, n)];
    var s3 := Run(c, s, read).value;
    assert s.ops != {};
    assert b !in s3.lh;
    assert CanLogWrite(c, s3, p, n);
    var s4 := DoLogWrite(s3, p, n);
    var s6 := DoDrop(DoUnlock(s4, p, n), p, n);
    RunSnoc(c, s, read, LogWrite(p, n));
    RunSnoc(c, s, read + [LogWrite(p, n)], Unlock(p, n));
    RunSnoc(c, s, read + [LogWrite(p, n)] + [Unlock(p, n)], Drop(p, n));
    assert read + [LogWrite(p, n)] + [Unlock(p, n)] + [Drop(p, n)] == LogOne(p, b, n);
    assert s6.refs == map[] && s6.bufs == OneMore(s, b, n, p).bufs;
  }

  lemma OneMoreStocked(c: Layout, s: State, h: seq<int>, n: nat, p: nat)
    requires c.Ok() && Stocked(c, s, h, n) && HomeList(c, h) && n < |h| && n < NBUF && 0 <= h[n] < |s.disk|
    ensures Stocked(c, OneMore(s, h[n], n, p), h, n + 1)
  {
    assert h[..n + 1] == h[..n] + [h[n]];
  }

  lemma LogOneWrite(c: Layout, s: State, h: seq<int>, n: nat, p: nat)
    requires c.Ok() && Stocked(c, s, h, n) && HomeList(c, h) && n < |h| && n < NBUF && n < Capacity(c)
    requires p in s.ops && |LoggedBy(s.logged, p)| < c.opMax
    ensures Run(c, s, LogOne(p, h[n], n)).Some?
    ensures var s' := Run(c, s, LogOne(p, h[n], n)).value;
      Stocked(c, s', h, n + 1) && s'.ops == s.ops && s'.logged == s.logged + {(p, h[n])}
  {
    LogOneRuns(c, s, h, n, p);
    OneMoreStocked(c, s, h, n, p);
  }

  /** p logs the next `count` blocks of h. */
  lemma {:induction false} LogMany(c: Layout, s: State, h: seq<int>, n: nat, p: nat, count: nat)
    returns (ls: seq<Label>)
    requires c.Ok() && Stocked(c, s, h, n) && HomeList(c, h)
    requires n + count <= |h| && n + count <= NBUF && n + count <= Capacity(c)
    requires p in s.ops && |LoggedBy(s.logged, p)| + count <= c.opMax
    ensures Run(c, s, ls).Some?
    ensures var s' := Run(c, s, ls).value;
      && Stocked(c, s', h, n + count) && s'.ops == s.ops
      && (forall q :: q != p ==> LoggedBy(s'.logged, q) == LoggedBy(s.logged, q))
      && |LoggedBy(s'.logged, p)| <= |LoggedBy(s.logged, p)| + count
      && LoggedBy(s.logged, p) <= LoggedBy(s'.logged, p)
      && (0 < count ==> h[n] in LoggedBy(s'.logged, p))
    decreases count
  {
    if count == 0 {
      ls := [];
    } else {
      LogOneWrite(c, s, h, n, p);
      var one := LogOne(p, h[n], n);
      var s1 := Run(c, s, one).value;
      LoggedByGrows(s.logged, p, h[n]);
      var rest := LogMany(c, s1, h, n + 1, p, count - 1);
      RunCat(c, s, one, rest);
      ls := one + rest;
    }
  }

  /** begin_op by a new process q, up to the reservation limit. */
  lemma Enter(c: Layout, s: State, h: seq<int>, n: nat, q: nat)
    requires Stocked(c, s, h, n) && q !in s.ops
    requires n + (|s.ops| + 1) * MAXOPBLOCKS <= LOGSIZE
    requires forall e :: e in s.logged ==> e.0 != q
    ensures Run(c, s, [BeginOp(q)]).Some?
    ensures var s' := Run(c, s, [BeginOp(q)]).value;
      Stocked(c, s', h, n) && s'.ops == s.ops + {q} && s'.logged == s.logged && LoggedBy(s.logged, q) == {}
  {
    var s' := DoBeginOp(s, q);
    assert Run(c, s', []) == Some(s');
    assert |s.ops + {q}| == |s.ops| + 1;
  }

  /** end_op by q while another operation is still running. */
  lemma Leave(c: Layout, s: State, h: seq<int>, n: nat, p: nat, q: nat)
    requires Stocked(c, s, h, n) && s.ops == {p, q} && p != q
    ensures Run(c, s, [EndOp(q)]).Some?
    ensures var s' := Run(c, s, [EndOp(q)]).value;
      && Stocked(c, s', h, n) && s'.ops == {p} && s'.logged == WithoutProc(s.logged, q)
  {
    assert forall i :: 0 <= i < |s.bufs| ==> s.bufs[i].lock == None;
    var s' := DoEndOp(s, q);
    assert Run(c, s', []) == Some(s');
    assert s.ops - {q} == {p};
  }

  /** While p stays in its operation, one-block operations of q fill the list up to `upTo`. */
  lemma {:induction false} FillUp(c: Layout, s: State, h: seq<int>, n: nat, p: nat, q: nat, upTo: nat)
    returns (ls: seq<Label>)
    requires c.Ok() && Stocked(c, s, h, n) && HomeList(c, h) && p != q && s.ops == {p} && s.logged == {}
    requires n <= upTo <= |h| && upTo <= MAXOPBLOCKS && upTo <= Capacity(c)
    ensures Run(c, s, ls).Some?
    ensures var s' := Run(c, s, ls).value;
      Stocked(c, s', h, upTo) && s'.ops == {p} && s'.logged == {}
    decreases upTo - n
  {
    if n == upTo {
      ls := [];
    } else {
      Enter(c, s, h, n, q);
      var s1 := Run(c, s, [BeginOp(q)]).value;
      LogOneWrite(c, s1, h, n, q);
      var one := LogOne(q, h[n], n);
      var s2 := Run(c, s1, one).value;
      assert s2.ops == {p, q};
      Leave(c, s2, h, n + 1, p, q);
      var s3 := Run(c, s2, [EndOp(q)]).value;
      assert s3.logged == {};
      var rest := FillUp(c, s3, h, n + 1, p, q, upTo);
      RunCat(c, s2, [EndOp(q)], rest);
      RunCat(c, s1, one, [EndOp(q)] + rest);
      RunCat(c, s, [BeginOp(q)], one + ([EndOp(q)] + rest));
      ls := [BeginOp(q)] + (one + ([EndOp(q)] + rest));
    }
  }

  /** Recovery of a disk whose log is empty. */
  function RecoverLabels(c: Layout, p: nat): seq<Label> {
    [Bget(p, c.logStart, 0), Lock(p, 0), Fill(p, 0), LoadHead(0), EndInstall,
     FillHead(0), PutHeader(0), FinishUp, Unlock(p, 0), Drop(p, 0)]
  }

  lemma RecoverRead(c: Layout, d: seq<Block>, p: nat)
    requires c.Ok() && |d| == c.size && d[c.logStart] == ZEROBLOCK
    ensures Run(c, Boot(d, p), RecoverLabels(c, p)[..4]) == Some(Boot(d, p).(
        bufs := Boot(d, p).bufs[0 := Buf(ROOTDEV, c.logStart, true, 1, Some(p), ZEROBLOCK, false)],
        refs := map[(p, 0) := Have], phase := Install(0, Ready)))
  {
    var s := Boot(d, p);
    var s1 := DoBget(s, p, c.logStart, 0);
    assert CanBget(c, s, p, c.logStart, 0);
    var s2 := DoLock(s1, p, 0);
    var s3 := DoFill(s2, 0);
    assert Run(c, s, []) == Some(s);
    RunSnoc(c, s, [], Bget(p, c.logStart, 0));
    RunSnoc(c, s, [] + [Bget(p, c.logStart, 0)], Lock(p, 0));
    RunSnoc(c, s, [] + [Bget(p, c.logStart, 0)] + [Lock(p, 0)], Fill(p, 0));
    assert Head(ZEROBLOCK) == [];
    RunSnoc(c, s, [] + [Bget(p, c.logStart, 0)] + [Lock(p, 0)] + [Fill(p, 0)], LoadHead(0));
    assert RecoverLabels(c, p)[..4]
        == [] + [Bget(p, c.logStart, 0)] + [Lock(p, 0)] + [Fill(p, 0)] + [LoadHead(0)];
    assert s3.refs == map[(p, 0) := Have];
    assert s3.bufs == s.bufs[0 := Buf(ROOTDEV, c.logStart, true, 1, Some(p), ZEROBLOCK, false)];
  }

  /** Recovery of an empty log after read_head: the erased header is written. */
  lemma EraseWrites(c: Layout, s: State, p: nat)
    requires c.Ok() && |s.disk| == c.size && s.disk[c.logStart] == ZEROBLOCK && s.runner == p
    requires s == Boot(s.disk, p).(
        bufs := Boot(s.disk, p).bufs[0 := Buf(ROOTDEV, c.logStart, true, 1, Some(p), ZEROBLOCK, false)],
        refs := map[(p, 0) := Have], phase := Install(0, Ready))
    ensures Run(c, s, [EndInstall, FillHead(0), PutHeader(0)]) == Some(s.(lh := [], phase := Finish))
  {
    assert PutHead(ZEROBLOCK, []) == ZEROBLOCK;
    var s1 := s.(lh := [], phase := EraseHead(Ready));
    var s2 := DoFillHead(s1, 0);
    assert DoPutHeader(s2, 0) == s.(lh := [], phase := Finish) by {
      assert DoPutHeader(s2, 0).bufs == s.bufs && DoPutHeader(s2, 0).disk == s.disk;
    }
    assert Run(c, s, []) == Some(s);
    RunSnoc(c, s, [], EndInstall);
    RunSnoc(c, s, [] + [EndInstall], FillHead(0));
    RunSnoc(c, s, [] + [EndInstall] + [FillHead(0)], PutHeader(0));
    assert [EndInstall, FillHead(0), PutHeader(0)] == [] + [EndInstall] + [FillHead(0)] + [PutHeader(0)];
  }

  lemma RecoverErase(c: Layout, s: State, p: nat)
    requires c.Ok() && |s.disk| == c.size && s.disk[c.logStart] == ZEROBLOCK && s.runner == p
    requires s == Boot(s.disk, p).(
        bufs := Boot(s.disk, p).bufs[0 := Buf(ROOTDEV, c.logStart, true, 1, Some(p), ZEROBLOCK, false)],
        refs := map[(p, 0) := Have], phase := Install(0, Ready))
    ensures Run(c, s, RecoverLabels(c, p)[4..]).Some?
    ensures var s' := Run(c, s, RecoverLabels(c, p)[4..]).value;
      Stocked(c, s', [], 0) && s'.ops == {} && s'.logged == {} && s'.lh == []
  {
    var front := [EndInstall, FillHead(0), PutHeader(0)];
    EraseWrites(c, s, p);
    var s4 := s.(lh := [], committing := false, recovering := false, phase := Quiet);
    var s6 := DoDrop(DoUnlock(s4, p, 0), p, 0);
    RunSnoc(c, s, front, FinishUp);
    RunSnoc(c, s, front + [FinishUp], Unlock(p, 0));
    RunSnoc(c, s, front + [FinishUp] + [Unlock(p, 0)], Drop(p, 0));
    assert RecoverLabels(c, p)[4..] == front + [FinishUp] + [Unlock(p, 0)] + [Drop(p, 0)];
    assert s6.refs == map[];
  }

  /** initlog on a disk with an empty log. */
  lemma Recover(c: Layout, d: seq<Block>, p: nat) returns (s: State)
    requires c.Ok() && |d| == c.size && d[c.logStart] == ZEROBLOCK
    ensures Run(c, Boot(d, p), RecoverLabels(c, p)) == Some(s)
    ensures forall h :: Stocked(c, s, h, 0)
    ensures s.ops == {} && s.logged == {}
  {
    RecoverRead(c, d, p);
    var ls := RecoverLabels(c, p);
    var s1 := Run(c, Boot(d, p), ls[..4]).value;
    RecoverErase(c, s1, p);
    RunCat(c, Boot(d, p), ls[..4], ls[4..]);
    assert ls[..4] + ls[4..] == ls;
    s := Run(c, s1, ls[4..]).value;
  }

  /** A legal call of log_write at the end of a run from power-on, and it panics. */
  ghost predicate PanicRun(c: Layout, d: seq<Block>, r: nat, ls: seq<Label>, p: nat, i: nat) {
    && Initial(c, Boot(d, r))
    && Run(c, Boot(d, r), ls).Some?
    && LogWriteCall(c, Run(c, Boot(d, r), ls).value, p, i)
    && LogWritePanics(c, Run(c, Boot(d, r), ls).value)
  }

  /** The list is full after one-block operations: the next new block panics. */
  lemma OverflowSmall(c: Layout, s: State, h: seq<int>) returns (ls: seq<Label>, i: nat)
    requires c.Ok() && Stocked(c, s, h, 0) && HomeList(c, h) && s.ops == {} && s.logged == {}
    requires Capacity(c) < |h| && Capacity(c) <= MAXOPBLOCKS
    ensures Run(c, s, ls).Some?
    ensures LogWriteCall(c, Run(c, s, ls).value, 1, i) && LogWritePanics(c, Run(c, s, ls).value)
  {
    Enter(c, s, h, 0, 1);
    var s1 := Run(c, s, [BeginOp(1)]).value;
    i := Capacity(c);
    var fill := FillUp(c, s1, h, 0, 1, 2, i);
    var s2 := Run(c, s1, fill).value;
    LogOneRead(c, s2, h, i, 1);
    var read := [Bget(1, h[i], i), Lock(1, i), Fill(1, i)];
    RunCat(c, s1, fill, read);
    RunCat(c, s, [BeginOp(1)], fill + read);
    ls := [BeginOp(1)] + (fill + read);
    assert LoggedBy(s2.logged, 1) == {};
  }

  /** Re-reading a listed block. */
  lemma Reread(c: Layout, s: State, h: seq<int>, n: nat, k: nat, p: nat)
    requires c.Ok() && Stocked(c, s, h, n) && HomeList(c, h) && k < n
    ensures Run(c, s, [Bget(p, h[k], k), Lock(p, k)]).Some?
    ensures var s' := Run(c, s, [Bget(p, h[k], k), Lock(p, k)]).value;
      && Holds(s', p, k) && s'.bufs[k].valid && s'.bufs[k].blockno == h[k]
      && s'.ops == s.ops && s'.logged == s.logged && s'.lh == s.lh
  {
    var s1 := DoBget(s, p, h[k], k);
    assert CanBget(c, s, p, h[k], k);
    var s2 := DoLock(s1, p, k);
    assert Run(c, s2, []) == Some(s2);
    assert Run(c, s1, [Lock(p, k)]) == Some(s2);
    assert [Bget(p, h[k], k), Lock(p, k)][1..] == [Lock(p, k)];
    assert Run(c, s, [Bget(p, h[k], k), Lock(p, k)]) == Some(s2);
  }

  /** Two operations admitted at the reservation limit fill the list to the capacity. */
  lemma FillBoth(c: Layout, s: State, h: seq<int>) returns (ls: seq<Label>)
    requires c.Ok() && Stocked(c, s, h, MAXOPBLOCKS) && HomeList(c, h) && s.ops == {1} && s.logged == {}
    requires MAXOPBLOCKS < Capacity(c) < |h| && Capacity(c) <= Peak(c)
    ensures Run(c, s, ls).Some?
    ensures var s' := Run(c, s, ls).value;
      && Stocked(c, s', h, Capacity(c)) && 1 in s'.ops
      && h[MAXOPBLOCKS] in LoggedBy(s'.logged, 1) && |LoggedBy(s'.logged, 1)| <= c.opMax
  {
    var n, k := MAXOPBLOCKS, Capacity(c);
    Enter(c, s, h, n, 2);
    var s1 := Run(c, s, [BeginOp(2)]).value;
    var x := if c.opMax < k - n then c.opMax else k - n;
    assert LoggedBy(s1.logged, 1) == {};
    var first := LogMany(c, s1, h, n, 1, x);
    var s2 := Run(c, s1, first).value;
    var second := LogMany(c, s2, h, n + x, 2, k - n - x);
    RunCat(c, s1, first, second);
    RunCat(c, s, [BeginOp(2)], first + second);
    ls := [BeginOp(2)] + (first + second);
  }

  /** The panic hits even a block that log absorption would not add. */
  lemma OverflowLarge(c: Layout, s: State, h: seq<int>) returns (ls: seq<Label>, i: nat)
    requires c.Ok() && Stocked(c, s, h, 0) && HomeList(c, h) && s.ops == {} && s.logged == {}
    requires MAXOPBLOCKS < Capacity(c) < |h| && Capacity(c) <= Peak(c)
    ensures Run(c, s, ls).Some?
    ensures LogWriteCall(c, Run(c, s, ls).value, 1, i) && LogWritePanics(c, Run(c, s, ls).value)
  {
    i := MAXOPBLOCKS;
    Enter(c, s, h, 0, 1);
    var s1 := Run(c, s, [BeginOp(1)]).value;
    var fill := FillUp(c, s1, h, 0, 1, 2, i);
    var s2 := Run(c, s1, fill).value;
    var both := FillBoth(c, s2, h);
    var s3 := Run(c, s2, both).value;
    Reread(c, s3, h, Capacity(c), i, 1);
    var again := [Bget(1, h[i], i), Lock(1, i)];
    RunCat(c, s2, both, again);
    RunCat(c, s1, fill, both + again);
    RunCat(c, s, [BeginOp(1)], fill + (both + again));
    ls := [BeginOp(1)] + (fill + (both + again));
    assert LoggedBy(s3.logged, 1) + {h[i]} == LoggedBy(s3.logged, 1);
  }

  lemma PanicReachable(c: Layout, h: seq<int>) returns (d: seq<Block>, ls: seq<Label>, i: nat)
    requires c.Ok() && HomeList(c, h) && Capacity(c) < |h| && Capacity(c) <= Peak(c)
    ensures PanicRun(c, d, 0, ls, 1, i)
  {
    d := seq(c.size, _ => ZEROBLOCK);
    var s := Recover(c, d, 0);
    var more: seq<Label>;
    if Capacity(c) <= MAXOPBLOCKS {
      more, i := OverflowSmall(c, s, h);
    } else {
      more, i := OverflowLarge(c, s, h);
    }
    RunCat(c, Boot(d, 0), RecoverLabels(c, 0), more);
    ls := RecoverLabels(c, 0) + more;
  }

  /** The panic is out of reach of well-behaved operations exactly when two full operations on
      top of MAXOPBLOCKS listed blocks still leave room. */
  lemma PanicExactly(c: Layout, h: seq<int>)
    requires c.Ok() && HomeList(c, h) && Capacity(c) < |h|
    ensures (exists d, r, ls, p, i :: PanicRun(c, d, r, ls, p, i)) <==> Capacity(c) <= Peak(c)
  {
    if Capacity(c) <= Peak(c) {
      var d, ls, i := PanicReachable(c, h);
      assert PanicRun(c, d, 0, ls, 1, i);
    } else {
      forall d, r, ls, p, i ensures !PanicRun(c, d, r, ls, p, i) {
        if PanicRun(c, d, r, ls, p, i) {
          NoPanic(c, Boot(d, r), ls, p, i);
          assert false;
        }
      }
    }
  }

  /** With mkfs's nlog == LOGSIZE, operations of at most 9 blocks are safe, and operations of
      the documented MAXOPBLOCKS are not. */
  lemma ShippedLayout(c: Layout, h: seq<int>)
    requires c.Ok() && c.nlog == LOGSIZE && HomeList(c, h) && LOGSIZE <= |h|
    ensures (exists d, r, ls, p, i :: PanicRun(c, d, r, ls, p, i)) <==> 10 <= c.opMax
  {
    PanicExactly(c, h);
  }
}

/** What the virtio driver promises in every reachable state, for any device completion order. */
module VirtioRuns {
  import opened VirtioDriver
  import opened VirtioProtocol
  import opened VirtioSteps

  ghost predicate Runs(st: State, ls: seq<Label>, end: State)
    decreases |ls|
  {
    if ls == [] then st == end
    else Sized(st) && Enabled(st, ls[0]) && Runs(Apply(st, ls[0]), ls[1..], end)
  }

  lemma {:induction false} RunKeepsInv(st: State, ls: seq<Label>, end: State)
    requires Inv(st) && Runs(st, ls, end)
    ensures Inv(end)
    decreases |ls|
  {
    if ls != [] {
      StepKeepsInv(st, ls[0]);
      RunKeepsInv(Apply(st, ls[0]), ls[1..], end);
    }
  }

  /** Descriptor i is in the chain of process p's request. */
  predicate InFlight(st: State, p: nat, i: nat) {
    p < |st.procs| && st.procs[p].Flight? && InChain(st.procs[p].c, i)
  }

  /** Every descriptor is free or in the chain of exactly one request in flight. */
  lemma Partition(st: State, i: nat, p: nat, q: nat)
    requires Inv(st) && i < NUM
    ensures st.q.free[i] <==> !exists r :: InFlight(st, r, i)
    ensures InFlight(st, p, i) && InFlight(st, q, i) ==> p == q
  {
    assert RoleOk(st, i);
    forall r | InFlight(st, r, i) ensures st.role[i] == r {
      assert ChainOk(st, r);
    }
    if !st.q.free[i] { assert InFlight(st, st.role[i], i); }
  }

  /** virtio_disk_intr never panics: what it is told about is a request in flight that succeeded,
      and the buffer it lets go of is that request's. */
  lemma IntrReleasesItsOwn(st: State)
    requires Inv(st) && st.q.seen != st.q.usedIdx
    ensures !IntrPanics(st)
    ensures var h := st.q.used[st.q.seen % NUM];
      && HeadAt(st, h, Reported) && st.q.info[h].b == st.procs[st.role[h]].op.b
      && DoIntr(st).onDisk == st.onDisk[st.procs[st.role[h]].op.b := false]
  {
    NextReported(st);
    IntrMoved(st);
  }

  /** free_chain on return: a chain of exactly the three descriptors submitted, none of them free. */
  lemma ReturnFreesItsOwn(st: State, p: nat)
    requires Inv(st) && p < |st.procs| && st.procs[p].Flight?
    ensures Three(st.q.free, st.procs[p].c)
    ensures var c := st.procs[p].c;
      Walks(st.q.desc, [c.i0, c.i1, c.i2]) && !st.q.free[c.i0] && !st.q.free[c.i1] && !st.q.free[c.i2]
  {
    var c := st.procs[p].c;
    assert ChainOk(st, p);
    assert RoleOk(st, c.i0) && RoleOk(st, c.i1) && RoleOk(st, c.i2);
    assert [c.i0, c.i1, c.i2][1..] == [c.i1, c.i2] && [c.i1, c.i2][1..] == [c.i2];
    assert Walks(st.q.desc, [c.i2]);
    assert Walks(st.q.desc, [c.i1, c.i2]);
  }

  /** Exactly once: when virtio_disk_rw returns, the device has carried out its request once since
      it was submitted, with its buffer, direction and block, and the buffer holds the block moved. */
  lemma CompletedOnce(st: State, p: nat) returns (k: nat)
    requires Inv(st) && Enabled(st, Return(p))
    ensures var f := st.procs[p];
      && DoneAt(st.log, f.op, f.since, k) && f.op.b < |st.data| && st.data[f.op.b] == st.log[k].value
  {
    assert OnceOk(st, p) && BufferOk(st, p);
    var f := st.procs[p];
    k :| DoneAt(st.log, f.op, f.since, k) && f.op.b < |st.data| && st.data[f.op.b] == st.log[k].value;
  }

  // ---------------------------------------------------------------- what is on the disk

  /** What one request does to the blocks. */
  function Did(store: seq<int>, e: Event): (r: seq<int>)
    ensures |r| == |store|
  {
    if e.op.out && e.op.blockno < |store| then store[e.op.blockno := e.value] else store
  }

  /** The blocks after the requests of log, one after the other. */
  function StoreAfter(store: seq<int>, log: seq<Event>): (r: seq<int>)
    ensures |r| == |store|
    decreases |log|
  {
    if log == [] then store else StoreAfter(Did(store, log[0]), log[1..])
  }

  /** A step carries out no request, or one at the end of the log. */
  lemma StepLog(st: State, l: Label)
    requires Inv(st) && Enabled(st, l)
    ensures var next := Apply(st, l);
      || (next.log == st.log && next.store == st.store)
      || (|next.log| == |st.log| + 1 && next.log[..|st.log|] == st.log && next.store == Did(st.store, next.log[|st.log|])
          && next.log[|st.log|].op.blockno < |st.store|
          && (!next.log[|st.log|].op.out ==> next.log[|st.log|].value == st.store[next.log[|st.log|].op.blockno]))
  {
    if l.Finish? {
      FinishMoved(st, l.h);
      DecodesRight(st, l.h);
    }
  }

  /** The k-th request read what the requests before it had left. */
  predicate ReadsRight(store: seq<int>, log: seq<Event>, k: nat)
    requires k < |log|
  {
    log[k].op.blockno < |store| && (!log[k].op.out ==> log[k].value == StoreAfter(store, log[..k])[log[k].op.blockno])
  }

  /** The device behaves as if it carried out one request after another: the blocks are what the log makes of
      them, and each read gives what the last write before it put there. */
  lemma {:induction false} OneByOne(st: State, ls: seq<Label>, end: State)
    requires Inv(st) && Runs(st, ls, end)
    ensures |st.log| <= |end.log| && end.log[..|st.log|] == st.log && end.store == StoreAfter(st.store, end.log[|st.log|..])
    ensures forall k: nat {:trigger ReadsRight(st.store, end.log[|st.log|..], k)} ::
      k < |end.log[|st.log|..]| ==> ReadsRight(st.store, end.log[|st.log|..], k)
    decreases |ls|
  {
    if ls != [] {
      var next := Apply(st, ls[0]);
      StepKeepsInv(st, ls[0]);
      StepLog(st, ls[0]);
      OneByOne(next, ls[1..], end);
      if next.log != st.log { LogCons(st.store, next.store, st.log, next.log, end.log); }
    }
  }

  lemma LogCons(store: seq<int>, store': seq<int>, l0: seq<Event>, l1: seq<Event>, l2: seq<Event>)
    requires |l1| == |l0| + 1 && l1[..|l0|] == l0 && |l1| <= |l2| && l2[..|l1|] == l1 && store' == Did(store, l1[|l0|])
    requires l1[|l0|].op.blockno < |store| && (!l1[|l0|].op.out ==> l1[|l0|].value == store[l1[|l0|].op.blockno])
    requires forall k: nat {:trigger ReadsRight(store', l2[|l1|..], k)} :: k < |l2[|l1|..]| ==> ReadsRight(store', l2[|l1|..], k)
    ensures l2[..|l0|] == l0 && StoreAfter(store, l2[|l0|..]) == StoreAfter(store', l2[|l1|..])
    ensures forall k: nat {:trigger ReadsRight(store, l2[|l0|..], k)} :: k < |l2[|l0|..]| ==> ReadsRight(store, l2[|l0|..], k)
  {
    var a, b := l2[|l0|..], l2[|l1|..];
    assert l2[|l0|] == l1[|l0|] && a[0] == l1[|l0|] && a[1..] == b;
    forall k: nat | k < |a| ensures ReadsRight(store, a, k) {
      if k > 0 {
        assert ReadsRight(store', b, k - 1);
        assert a[..k][1..] == b[..k - 1] && a[..k][0] == a[0];
      }
    }
  }

  /** Nobody changes the buffer of a write before it is over. */
  lemma WriteBufferKept(st: State, l: Label, p: nat)
    requires Inv(st) && Enabled(st, l) && p < |st.procs| && !st.procs[p].Out? && st.procs[p].op.out
    ensures st.procs[p].op.b < |st.data| && |Apply(st, l).data| == |st.data|
    ensures Apply(st, l).data[st.procs[p].op.b] == st.data[st.procs[p].op.b]
  {
    assert BufferOk(st, p);
    if l.Finish? {
      FinishMoved(st, l.h);
      assert BufferOk(st, st.role[l.h]);
    }
  }

  /** p is in virtio_disk_rw in every state of the run. */
  ghost predicate BusyThrough(st: State, ls: seq<Label>, p: nat)
    decreases |ls|
  {
    && p < |st.procs| && !st.procs[p].Out?
    && (ls != [] ==> Sized(st) && Enabled(st, ls[0]) && BusyThrough(Apply(st, ls[0]), ls[1..], p))
  }

  lemma StepBusy(st: State, l: Label, p: nat)
    requires Inv(st) && Enabled(st, l) && p < |st.procs| && !st.procs[p].Out?
    requires p < |Apply(st, l).procs| && !Apply(st, l).procs[p].Out?
    ensures Apply(st, l).procs[p].op == st.procs[p].op && |st.log| <= |Apply(st, l).log|
    ensures Apply(st, l).procs[p].Flight? ==>
      Apply(st, l).procs[p].since == if st.procs[p].Flight? then st.procs[p].since else |st.log|
  {
    StepLog(st, l);
    assert BufferOk(st, p);
    if l.Alloc? && l.p == p { assert st.procs[p].Want?; }
  }

  lemma {:induction false} BusyRun(n: nat, st: State, ls: seq<Label>, end: State, p: nat)
    requires Inv(st) && Runs(st, ls, end) && BusyThrough(st, ls, p)
    requires n <= |st.log| && (st.procs[p].Flight? ==> n <= st.procs[p].since)
    ensures p < |end.procs| && !end.procs[p].Out? && end.procs[p].op == st.procs[p].op
    ensures n <= |end.log| && (end.procs[p].Flight? ==> n <= end.procs[p].since)
    ensures st.procs[p].op.out ==> st.procs[p].op.b < |st.data| == |end.data| && end.data[st.procs[p].op.b] == st.data[st.procs[p].op.b]
    decreases |ls|
  {
    assert BufferOk(st, p);
    if ls != [] {
      StepKeepsInv(st, ls[0]);
      StepBusy(st, ls[0], p);
      if st.procs[p].op.out { WriteBufferKept(st, ls[0], p); }
      BusyRun(n, Apply(st, ls[0]), ls[1..], end, p);
    }
  }

  /** A whole write: when it returns, the device has since the call put what the buffer then held on its block. */
  lemma WriteCarries(st: State, ls: seq<Label>, end: State, p: nat) returns (k: nat)
    requires Inv(st) && Runs(st, ls, end) && BusyThrough(st, ls, p) && st.procs[p].Want? && st.procs[p].op.out
    requires Inv(end) && Enabled(end, Return(p))
    ensures |st.log| <= k < |end.log| && end.log[k].op == st.procs[p].op
    ensures st.procs[p].op.b < |st.data| && end.log[k].value == st.data[st.procs[p].op.b]
  {
    BusyRun(|st.log|, st, ls, end, p);
    k := CompletedOnce(end, p);
  }

  // ---------------------------------------------------------------- the rings

  lemma FewHeads(st: State, p: nat)
    requires Inv(st) && p < |st.procs| && st.procs[p].Flight?
    ensures |st.inAvail| < NUM && |st.inUsed| < NUM
  {
    assert ChainOk(st, p);
    AvailRoom(st, st.procs[p].c.i1);
    UsedRoom(st, st.procs[p].c.i1);
  }

  /** Publishing never overwrites a slot the device has yet to read, though the indices wrap at 16 bits. */
  lemma NoOverwrite(st: State, p: nat, c: Chain, k: nat)
    requires Inv(st) && Enabled(st, Alloc(p, c)) && k < (st.q.availIdx - st.devIdx + WRAP) % WRAP
    ensures (st.devIdx + k) % NUM != st.q.availIdx % NUM
    ensures DoAlloc(st, p, c).q.avail[(st.devIdx + k) % NUM] == st.q.avail[(st.devIdx + k) % NUM]
  {
    assert RoleOk(st, c.i0);
    AvailRoom(st, c.i0);
    var n := |st.inAvail|;
    RingIdx(st.q.avail, st.devIdx, st.q.availIdx, st.inAvail);
    Behind(st.devIdx, n, k);
  }

  lemma Behind(base: nat, n: nat, k: nat)
    requires base < WRAP && n < NUM && k < ((base + n) % WRAP - base + WRAP) % WRAP
    ensures (base + k) % NUM != (base + n) % WRAP % NUM
  {
    var x := (base + n) % WRAP;
    assert x == base + n || x == base + n - WRAP;
    assert (x - base + WRAP) % WRAP == n;
    var y := (base + k) % WRAP;
    assert y == base + k || y == base + k - WRAP;
    SlotApart(y, n - k);
    assert (y + (n - k)) % WRAP == x;
    assert y % NUM == (base + k) % NUM;
  }

  // ---------------------------------------------------------------- who waits for descriptors

  lemma {:induction false} CountAll(free: seq<bool>)
    ensures CountFree(free) <= |free|
    ensures CountFree(free) < |free| ==> exists i :: 0 <= i < |free| && !free[i]
  {
    if free != [] {
      CountAll(free[1..]);
      if free[0] && CountFree(free[1..]) < |free[1..]| {
        var j :| 0 <= j < |free[1..]| && !free[1..][j];
        assert !free[j + 1];
      }
    }
  }

  lemma FreedCount(free: seq<bool>, c: Chain)
    requires Three(free, c) && !free[c.i0] && !free[c.i1] && !free[c.i2]
    ensures CountFree(Freed(free, c)) == CountFree(free) + 3
  {
    CountUpdate(free, c.i0, true);
    CountUpdate(free[c.i0 := true], c.i1, true);
    CountUpdate(free[c.i0 := true][c.i1 := true], c.i2, true);
  }

  /** With fewer than three descriptors free there are two requests in flight. */
  lemma TwoInFlight(st: State) returns (p: nat, q: nat)
    requires Inv(st) && CountFree(st.q.free) < 3
    ensures p != q && p < |st.procs| && q < |st.procs| && st.procs[p].Flight? && st.procs[q].Flight?
  {
    CountAll(st.q.free);
    var i :| 0 <= i < NUM && !st.q.free[i];
    assert RoleOk(st, i);
    p := st.role[i];
    ReturnFreesItsOwn(st, p);
    var c := st.procs[p].c;
    FreedCount(st.q.free, c);
    CountAll(Freed(st.q.free, c));
    var j :| 0 <= j < NUM && !Freed(st.q.free, c)[j];
    assert RoleOk(st, j);
    q := st.role[j];
  }

  /** Eight descriptors are not enough for three requests. */
  lemma NeverThree(st: State, p: nat, q: nat, r: nat)
    requires Inv(st) && p < |st.procs| && q < |st.procs| && r < |st.procs| && p != q && p != r && q != r
    requires st.procs[p].Flight? && st.procs[q].Flight?
    ensures !st.procs[r].Flight?
  {
    if st.procs[r].Flight? {
      var a, b, d := st.procs[p].c, st.procs[q].c, st.procs[r].c;
      assert ChainOk(st, p) && ChainOk(st, q) && ChainOk(st, r);
      DistinctBound([a.i0, a.i1, a.i2, b.i0, b.i1, b.i2, d.i0, d.i1, d.i2], NUM);
    }
  }

  /** A process asleep for descriptors means exactly two requests are in flight. */
  lemma SleeperMeansTwo(st: State, w: nat) returns (p: nat, q: nat)
    requires Inv(st) && w < |st.procs| && st.procs[w].Want? && st.procs[w].asleep
    ensures p != q && p < |st.procs| && q < |st.procs| && st.procs[p].Flight? && st.procs[q].Flight?
    ensures forall r :: 0 <= r < |st.procs| && r != p && r != q ==> !st.procs[r].Flight?
  {
    assert BufferOk(st, w);
    p, q := TwoInFlight(st);
    forall r | 0 <= r < |st.procs| && r != p && r != q ensures !st.procs[r].Flight? {
      NeverThree(st, p, q, r);
    }
  }

  // ---------------------------------------------------------------- progress

  predicate Productive(l: Label) {
    l.Alloc? || l.Take? || l.Finish? || l.Intr? || l.Return?
  }

  lemma FindFree(free: seq<bool>) returns (i: nat)
    requires CountFree(free) > 0
    ensures i < |free| && free[i]
  {
    CountNone(free);
    i :| i < |free| && free[i];
  }

  lemma FindThree(free: seq<bool>) returns (c: Chain)
    requires CountFree(free) >= 3
    ensures AllFree(free, c)
  {
    var a := FindFree(free);
    CountUpdate(free, a, false);
    var b := FindFree(free[a := false]);
    CountUpdate(free[a := false], b, false);
    var d := FindFree(free[a := false][b := false]);
    c := Chain(a, b, d);
  }

  lemma FlightMoves(st: State, p: nat) returns (l: Label)
    requires Inv(st) && p < |st.procs| && st.procs[p].Flight?
    ensures Enabled(st, l) && Productive(l)
  {
    assert ChainOk(st, p) && BufferOk(st, p);
    FewHeads(st, p);
    var h := st.procs[p].c.i0;
    assert HeadAt(st, h, st.procs[p].stage);
    match st.procs[p].stage
    case Queued => RingEmpty(st.q.avail, st.devIdx, st.q.availIdx, st.inAvail); l := Take;
    case Working => l := Finish(h);
    case Reported => RingEmpty(st.q.used, st.q.seen, st.q.usedIdx, st.inUsed); l := Intr;
    case Done => l := Return(p);
  }

  /** No deadlock: while any process is inside virtio_disk_rw, the driver, the device or the
      interrupt handler can take a step that brings some request closer to its end. */
  lemma Progress(st: State, p: nat) returns (l: Label)
    requires Inv(st) && p < |st.procs| && !st.procs[p].Out?
    ensures Enabled(st, l) && Productive(l)
  {
    if st.procs[p].Flight? {
      l := FlightMoves(st, p);
    } else if CountFree(st.q.free) < 3 {
      var q, r := TwoInFlight(st);
      l := FlightMoves(st, q);
    } else {
      assert BufferOk(st, p);
      var c := FindThree(st.q.free);
      l := Alloc(p, c);
    }
  }

  // ---------------------------------------------------------------- termination

  /** Productive steps a call still has before it. */
  function Left(pr: Proc): nat {
    match pr
    case Out => 0
    case Want(_, _) => 5
    case Flight(_, _, stage, _, _) =>
      (match stage case Queued => 4 case Working => 3 case Reported => 2 case Done => 1)
  }

  function TotalLeft(procs: seq<Proc>): nat {
    if procs == [] then 0 else Left(procs[0]) + TotalLeft(procs[1..])
  }

  lemma {:induction false} LeftUpdate(procs: seq<Proc>, procs': seq<Proc>, i: nat)
    requires i < |procs| == |procs'|
    requires forall j :: 0 <= j < |procs| && j != i ==> Left(procs'[j]) == Left(procs[j])
    ensures TotalLeft(procs') == TotalLeft(procs) - Left(procs[i]) + Left(procs'[i])
  {
    if i == 0 {
      LeftSame(procs[1..], procs'[1..]);
    } else {
      LeftUpdate(procs[1..], procs'[1..], i - 1);
    }
  }

  lemma {:induction false} LeftSame(procs: seq<Proc>, procs': seq<Proc>)
    requires |procs| == |procs'| && forall j :: 0 <= j < |procs| ==> Left(procs'[j]) == Left(procs[j])
    ensures TotalLeft(procs') == TotalLeft(procs)
  {
    if procs != [] { LeftSame(procs[1..], procs'[1..]); }
  }

  lemma MovedLeft(st: State, st': State, h: nat, from: Stage, to: Stage)
    requires Sized(st) && Moved(st, st', h, to) && HeadAt(st, h, from)
    requires (from == Queued && to == Working) || (from == Working && to == Reported) || (from == Reported && to == Done)
    ensures TotalLeft(st'.procs) == TotalLeft(st.procs) - 1
  {
    LeftUpdate(st.procs, st'.procs, st.role[h]);
  }

  lemma DeviceLeft(st: State, l: Label)
    requires Inv(st) && Enabled(st, l) && (l.Take? || l.Finish? || l.Intr?)
    ensures TotalLeft(Apply(st, l).procs) == TotalLeft(st.procs) - 1
  {
    match l
    case Take => NextQueued(st); TakeSized(st); MovedLeft(st, DoTake(st), st.inAvail[0], Queued, Working);
    case Finish(h) => FinishMoved(st, h); MovedLeft(st, DoFinish(st, h), h, Working, Reported);
    case Intr => IntrMoved(st); MovedLeft(st, DoIntr(st), st.inUsed[0], Reported, Done);
  }

  lemma ProcessLeft(st: State, l: Label)
    requires Inv(st) && Enabled(st, l) && (l.Call? || l.Alloc? || l.Return?)
    ensures TotalLeft(Apply(st, l).procs) == TotalLeft(st.procs) + (if l.Call? then 5 else -1)
  {
    if l.Return? { assert BufferOk(st, l.p); }
    LeftUpdate(st.procs, Apply(st, l).procs, l.p);
  }

  /** Five productive steps per call, whatever happens in between. */
  lemma FivePerCall(st: State, l: Label)
    requires Inv(st) && Enabled(st, l)
    ensures TotalLeft(Apply(st, l).procs) ==
      TotalLeft(st.procs) + (if l.Call? then 5 else if Productive(l) then -1 else 0)
  {
    if l.Call? || l.Alloc? || l.Return? {
      ProcessLeft(st, l);
    } else if Productive(l) {
      DeviceLeft(st, l);
    } else {
      LeftSame(st.procs, Apply(st, l).procs);
    }
  }
}

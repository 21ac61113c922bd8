/** Commits and recoveries end: from any state of either, some run without a crash gets to the end, and
    other processes only have to give back the buffers they use. */
module LogEnds {
  import opened Sequences
  import opened Blocks
  import opened LogProtocol
  import opened LogInvariant
  import opened LogRefinement

  /** A step of the commit or recovery that process r runs, or one by which some process gives a buffer
      back: no new operation, no change of a block, no crash, and only r looks for blocks. */
  predicate Tame(l: Label, r: nat) {
    && !l.BeginOp? && !l.EndOp? && !l.Modify? && !l.LogWrite? && !l.Crash?
    && (l.Bget? || l.Fill? ==> l.p == r)
  }

  ghost predicate AllTame(ls: seq<Label>, r: nat) {
    forall k :: 0 <= k < |ls| ==> Tame(ls[k], r)
  }

  /** A run without disturbance leads from s to s'. */
  ghost predicate Leads(c: Layout, s: State, ls: seq<Label>, s': State) {
    AllTame(ls, s.runner) && Run(c, s, ls) == Some(s') && s'.runner == s.runner
  }

  lemma LeadsOn(c: Layout, s: State, a: seq<Label>, s1: State, b: seq<Label>, s2: State)
    requires Leads(c, s, a, s1) && Leads(c, s1, b, s2)
    ensures Leads(c, s, a + b, s2)
  {
    RunCat(c, s, a, b);
  }

  lemma LeadsOne(c: Layout, s: State, l: Label)
    requires Enabled(c, s, l) && Tame(l, s.runner)
    ensures Leads(c, s, [l], Apply(c, s, l))
  {
    assert Run(c, Apply(c, s, l), [l][1..]) == Some(Apply(c, s, l));
  }

  /** No buffer has an unwritten change. */
  ghost predicate Clean(s: State) {
    forall k :: 0 <= k < |s.bufs| ==> !s.bufs[k].dirty
  }

  /** In the middle of a commit or recovery, with no unwritten change. */
  ghost predicate Mid(c: Layout, s: State) {
    Inv(c, s) && s.phase != Quiet && (s.recovering || |s.lh| < NBUF) && Clean(s)
  }

  /** The commit itself has not moved. */
  predicate SameCommit(s: State, s': State) {
    && s'.phase == s.phase && s'.lh == s.lh && s'.runner == s.runner && s'.recovering == s.recovering
    && s'.disk == s.disk && s'.ops == s.ops
  }

  // ---------------------------------------------------------------- giving buffers back

  /** Some reference that can be given back: of a buffer nobody has locked any, else its owner's. */
  lemma Releasable(c: Layout, s: State) returns (p: nat, i: nat)
    requires Inv(c, s) && s.refs != map[]
    ensures (p, i) in s.refs && i < |s.bufs| && (s.refs[(p, i)] == Want ==> s.bufs[i].lock == None)
  {
    var k :| k in s.refs;
    p, i := k.0, k.1;
    if s.refs[k] == Want && s.bufs[i].lock.Some? {
      p := s.bufs[i].lock.value;
      assert (p, i) in s.refs && s.refs[(p, i)] == Have;
    }
  }

  lemma MidStep(c: Layout, s: State, l: Label)
    requires Mid(c, s) && Enabled(c, s, l) && Tame(l, s.runner) && SameCommit(s, Apply(c, s, l))
    requires Clean(Apply(c, s, l))
    ensures Leads(c, s, [l], Apply(c, s, l)) && Mid(c, Apply(c, s, l))
  {
    StepKeepsInv(c, s, l);
    LeadsOne(c, s, l);
  }

  lemma DropIt(c: Layout, s: State, p: nat, i: nat) returns (ls: seq<Label>, s': State)
    requires Mid(c, s) && CanDrop(s, p, i)
    ensures Leads(c, s, ls, s') && Mid(c, s') && SameCommit(s, s') && |s'.refs| < |s.refs|
  {
    MidStep(c, s, Drop(p, i));
    ls, s' := [Drop(p, i)], DoDrop(s, p, i);
    Fewer(s.refs, (p, i));
  }

  lemma UnlockOnly(c: Layout, s: State, p: nat, i: nat)
    requires Mid(c, s) && Holds(s, p, i)
    ensures Enabled(c, s, Unlock(p, i)) && Leads(c, s, [Unlock(p, i)], DoUnlock(s, p, i)) && Mid(c, DoUnlock(s, p, i))
    ensures CanDrop(DoUnlock(s, p, i), p, i) && |DoUnlock(s, p, i).refs| == |s.refs|
  {
    UnlockQuiet(s, p, i);
    MidStep(c, s, Unlock(p, i));
    SameKeys(s.refs, DoUnlock(s, p, i).refs);
  }

  lemma UnlockQuiet(s: State, p: nat, i: nat)
    requires Holds(s, p, i) && Clean(s)
    ensures CanUnlock(s, p, i) && SameCommit(s, DoUnlock(s, p, i)) && CanDrop(DoUnlock(s, p, i), p, i)
    ensures Clean(DoUnlock(s, p, i))
  {
  }

  lemma LockOnly(c: Layout, s: State, p: nat, i: nat)
    requires Mid(c, s) && CanLock(s, p, i)
    ensures Leads(c, s, [Lock(p, i)], DoLock(s, p, i)) && Mid(c, DoLock(s, p, i))
    ensures Holds(DoLock(s, p, i), p, i) && |DoLock(s, p, i).refs| == |s.refs|
  {
    MidStep(c, s, Lock(p, i));
    SameKeys(s.refs, DoLock(s, p, i).refs);
  }

  lemma UnlockIt(c: Layout, s: State, p: nat, i: nat) returns (ls: seq<Label>, s': State)
    requires Mid(c, s) && Holds(s, p, i)
    ensures Leads(c, s, ls, s') && Mid(c, s') && SameCommit(s, s') && |s'.refs| < |s.refs|
  {
    UnlockOnly(c, s, p, i);
    var s1 := DoUnlock(s, p, i);
    var more;
    more, s' := DropIt(c, s1, p, i);
    LeadsOn(c, s, [Unlock(p, i)], s1, more, s');
    ls := [Unlock(p, i)] + more;
  }

  lemma LockIt(c: Layout, s: State, p: nat, i: nat) returns (ls: seq<Label>, s': State)
    requires Mid(c, s) && CanLock(s, p, i)
    ensures Leads(c, s, ls, s') && Mid(c, s') && SameCommit(s, s') && |s'.refs| < |s.refs|
  {
    LockOnly(c, s, p, i);
    var s1 := DoLock(s, p, i);
    var more;
    more, s' := UnlockIt(c, s1, p, i);
    LeadsOn(c, s, [Lock(p, i)], s1, more, s');
    ls := [Lock(p, i)] + more;
  }

  lemma GiveBack(c: Layout, s: State) returns (ls: seq<Label>, s': State)
    requires Mid(c, s) && s.refs != map[]
    ensures Leads(c, s, ls, s') && Mid(c, s') && SameCommit(s, s') && |s'.refs| < |s.refs|
  {
    var p, i := Releasable(c, s);
    match s.refs[(p, i)]
    case Want => ls, s' := LockIt(c, s, p, i);
    case Have => ls, s' := UnlockIt(c, s, p, i);
    case Done => ls, s' := DropIt(c, s, p, i);
  }

  lemma Fewer(m: map<(nat, nat), Stage>, k: (nat, nat))
    requires k in m
    ensures |m - {k}| < |m|
  {
    assert (m - {k}).Keys == m.Keys - {k};
    assert |(m - {k}).Keys| < |m.Keys|;
  }

  lemma SameKeys(m: map<(nat, nat), Stage>, m': map<(nat, nat), Stage>)
    requires m'.Keys == m.Keys
    ensures |m'| == |m|
  {
    assert |m'.Keys| == |m.Keys|;
  }

  lemma {:induction false} AllBack(c: Layout, s: State) returns (ls: seq<Label>, s': State)
    requires Mid(c, s)
    ensures Leads(c, s, ls, s') && Mid(c, s') && SameCommit(s, s') && s'.refs == map[]
    decreases |s.refs|
  {
    ls, s' := [], s;
    if s.refs != map[] {
      var a, s1 := GiveBack(c, s);
      var b;
      b, s' := AllBack(c, s1);
      LeadsOn(c, s, a, s1, b, s');
      ls := a + b;
    }
  }

  // ---------------------------------------------------------------- getting buffers

  /** Distinct numbers that all occur in h are no more than h has. */
  lemma {:induction false} Pigeonhole(a: seq<int>, h: seq<int>)
    requires Distinct(a) && forall k :: 0 <= k < |a| ==> a[k] in h
    ensures |a| <= |h|
    decreases |a|
  {
    if a != [] {
      var j :| 0 <= j < |h| && h[j] == a[0];
      var rest := h[..j] + h[j + 1..];
      forall k | 0 <= k < |a| - 1 ensures a[1..][k] in rest {
        assert a[k + 1] != a[0] && a[k + 1] in h;
        var i :| 0 <= i < |h| && h[i] == a[k + 1];
        assert rest[if i < j then i else i - 1] == a[k + 1];
      }
      Pigeonhole(a[1..], rest);
    }
  }

  lemma NotAllPinned(c: Layout, s: State)
    requires Shape(c, s) && Unique(s) && |s.lh| < NBUF
    ensures exists j: nat :: j < |s.bufs| && !(s.bufs[j].dev == ROOTDEV && s.bufs[j].blockno in s.lh)
  {
    if forall j: nat :: j < |s.bufs| ==> s.bufs[j].dev == ROOTDEV && s.bufs[j].blockno in s.lh {
      var a := seq(|s.bufs|, j requires 0 <= j < |s.bufs| => s.bufs[j].blockno);
      Pigeonhole(a, s.lh);
    }
  }

  /** Pins leave a buffer over. */
  lemma FreeBuffer(c: Layout, s: State) returns (i: nat)
    requires Mid(c, s) && s.refs == map[]
    ensures i < |s.bufs| && s.bufs[i].refcnt == 0 && s.bufs[i].lock == None
  {
    i := 0;
    if !s.recovering {
      NotAllPinned(c, s);
      i :| i < |s.bufs| && !(s.bufs[i].dev == ROOTDEV && s.bufs[i].blockno in s.lh);
    }
    assert CountOk(s.bufs[i], |Users(s.refs, i)|, Pinned(s, s.bufs[i].blockno));
    assert Users(s.refs, i) == {};
  }

  /** The runner can have block b: nobody has its buffer locked, or else one is free. */
  ghost predicate Gettable(s: State, b: int) {
    && (forall i: nat :: i < |s.bufs| && Caches(s.bufs[i], b) ==> s.bufs[i].lock == None && (s.runner, i) !in s.refs)
    && (Cached(s, b) || exists i: nat :: i < |s.bufs| && s.bufs[i].refcnt == 0 && (s.runner, i) !in s.refs && s.bufs[i].lock == None)
  }

  /** Only buffer i differs, and the runner has it, with block b. */
  ghost predicate Got(s: State, s': State, i: nat, b: int) {
    && SameCommit(s, s') && Uses(s', s.runner, i, b) && |s'.bufs| == |s.bufs| && i < |s.bufs| && !s'.bufs[i].dirty
    && s'.refs == s.refs[(s.runner, i) := Have] && (s.runner, i) !in s.refs
    && (forall j :: 0 <= j < |s.bufs| && j != i ==> s'.bufs[j] == s.bufs[j])
    && (Caches(s.bufs[i], b) || (s.bufs[i].refcnt == 0 && !Cached(s, b)))
  }

  /** Buffer i is valid now, with the same block, and nothing else differs. */
  ghost predicate Filled(s: State, s': State, i: nat) {
    && SameCommit(s, s') && s'.refs == s.refs && |s'.bufs| == |s.bufs| && i < |s.bufs| && s'.bufs[i].valid
    && s'.bufs[i].dev == s.bufs[i].dev && s'.bufs[i].blockno == s.bufs[i].blockno
    && forall j :: 0 <= j < |s.bufs| && j != i ==> s'.bufs[j] == s.bufs[j]
  }

  lemma FillIt(c: Layout, s: State, i: nat) returns (ls: seq<Label>, s': State)
    requires Mid(c, s) && Holds(s, s.runner, i) && 0 <= s.bufs[i].blockno < c.size
    ensures Leads(c, s, ls, s') && Mid(c, s') && Filled(s, s', i)
  {
    if s.bufs[i].valid {
      ls, s' := [], s;
    } else {
      MidStep(c, s, Fill(s.runner, i));
      ls, s' := [Fill(s.runner, i)], DoFill(s, i);
    }
  }

  lemma BgetOnly(c: Layout, s: State, b: int, i: nat)
    requires Mid(c, s) && CanBget(c, s, s.runner, b, i) && s.bufs[i].lock == None
    ensures var s1 := DoBget(s, s.runner, b, i);
      Leads(c, s, [Bget(s.runner, b, i)], s1) && Mid(c, s1) && CanLock(s1, s.runner, i)
  {
    MidStep(c, s, Bget(s.runner, b, i));
  }

  /** The runner has buffer i locked, for block b, and no other buffer differs. */
  ghost predicate Taken(s: State, s': State, i: nat, b: int) {
    && SameCommit(s, s') && |s'.bufs| == |s.bufs| && i < |s.bufs|
    && s'.refs == s.refs[(s.runner, i) := Have] && Caches(s'.bufs[i], b)
    && forall j :: 0 <= j < |s.bufs| && j != i ==> s'.bufs[j] == s.bufs[j]
  }

  lemma BothTaken(s: State, b: int, i: nat)
    requires i < |s.bufs|
    ensures Taken(s, DoLock(DoBget(s, s.runner, b, i), s.runner, i), i, b)
  {
    assert s.refs[(s.runner, i) := Want][(s.runner, i) := Have] == s.refs[(s.runner, i) := Have];
  }

  lemma TakeIt(c: Layout, s: State, b: int, i: nat) returns (ls: seq<Label>, s': State)
    requires Mid(c, s) && 0 <= b < c.size && CanBget(c, s, s.runner, b, i) && s.bufs[i].lock == None
    ensures Leads(c, s, ls, s') && Mid(c, s') && Taken(s, s', i, b)
  {
    var p := s.runner;
    BgetOnly(c, s, b, i);
    var s1 := DoBget(s, p, b, i);
    LockOnly(c, s1, p, i);
    s' := DoLock(s1, p, i);
    LeadsOn(c, s, [Bget(p, b, i)], s1, [Lock(p, i)], s');
    ls := [Bget(p, b, i)] + [Lock(p, i)];
    BothTaken(s, b, i);
  }

  lemma TakenFilled(s: State, s1: State, s': State, i: nat, b: int)
    requires Taken(s, s1, i, b) && Filled(s1, s', i) && !s'.bufs[i].dirty && (s.runner, i) !in s.refs
    requires Caches(s.bufs[i], b) || (s.bufs[i].refcnt == 0 && !Cached(s, b))
    ensures Got(s, s', i, b)
  {
  }

  lemma Choose(s: State, b: int) returns (i: nat)
    requires Gettable(s, b)
    ensures i < |s.bufs| && (s.runner, i) !in s.refs && s.bufs[i].lock == None
    ensures Caches(s.bufs[i], b) || (!Cached(s, b) && s.bufs[i].refcnt == 0)
  {
    if Cached(s, b) {
      i :| i < |s.bufs| && Caches(s.bufs[i], b);
    } else {
      i :| i < |s.bufs| && s.bufs[i].refcnt == 0 && (s.runner, i) !in s.refs && s.bufs[i].lock == None;
    }
  }

  lemma GetBlock(c: Layout, s: State, b: int) returns (ls: seq<Label>, s': State, i: nat)
    requires Mid(c, s) && 0 <= b < c.size && Gettable(s, b)
    ensures Leads(c, s, ls, s') && Mid(c, s') && Got(s, s', i, b)
  {
    i := Choose(s, b);
    var take, s1 := TakeIt(c, s, b, i);
    var fill;
    fill, s' := FillIt(c, s1, i);
    LeadsOn(c, s, take, s1, fill, s');
    ls := take + fill;
    TakenFilled(s, s1, s', i, b);
  }

  lemma NobodyLocks(c: Layout, s: State)
    requires Inv(c, s) && s.refs == map[]
    ensures forall i: nat :: i < |s.bufs| ==> s.bufs[i].lock == None
  {
  }

  lemma OneBlock(c: Layout, s: State, a: int) returns (ls: seq<Label>, s': State, i: nat)
    requires Mid(c, s) && s.refs == map[] && 0 <= a < c.size
    ensures Leads(c, s, ls, s') && Mid(c, s') && Got(s, s', i, a)
  {
    NobodyLocks(c, s);
    var free := FreeBuffer(c, s);
    assert Gettable(s, a);
    ls, s', i := GetBlock(c, s, a);
  }

  /** A listed block that is yet to be installed is in the cache; recovery has room for everything. */
  ghost predicate Handy(s: State, b: int) {
    s.recovering || PinnedIn(s.lh, PinsFrom(s), b)
  }

  /** With one block in hand the runner can have another: recovery has buffers to spare ... */
  lemma SecondSpare(c: Layout, s: State, s1: State, i: nat, a: int)
    requires Inv(c, s) && s.refs == map[] && Got(s, s1, i, a) && s.recovering
    ensures exists j: nat :: j < |s1.bufs| && s1.bufs[j].refcnt == 0 && (s1.runner, j) !in s1.refs && s1.bufs[j].lock == None
  {
    NobodyLocks(c, s);
    var j: nat := if i == 0 then 1 else 0;
    assert CountOk(s.bufs[j], |Users(s.refs, j)|, Pinned(s, s.bufs[j].blockno)) && Users(s.refs, j) == {};
    assert s1.bufs[j].refcnt == 0;
  }

  /** ... and what a commit copies is cached. */
  lemma SecondCached(c: Layout, s1: State, b: int)
    requires Inv(c, s1) && PinnedIn(s1.lh, PinsFrom(s1), b)
    ensures Cached(s1, b)
  {
    var k :| 0 <= k < |s1.lh| && PinsFrom(s1) <= k && s1.lh[k] == b;
    assert InCache(s1, s1.lh[k]);
  }

  lemma SecondGettable(c: Layout, s: State, s1: State, i: nat, a: int, b: int)
    requires Mid(c, s) && Mid(c, s1) && s.refs == map[] && Got(s, s1, i, a) && a != b && Handy(s, b)
    ensures Gettable(s1, b)
  {
    NobodyLocks(c, s);
    if s.recovering {
      SecondSpare(c, s, s1, i, a);
    } else {
      SecondCached(c, s1, b);
    }
  }

  /** The runner has block a in buffer i and block b in buffer j, and there is no unwritten change. */
  ghost predicate Both(s: State, s': State, i: nat, a: int, j: nat, b: int) {
    && SameCommit(s, s') && i != j && Uses(s', s.runner, i, a) && Uses(s', s.runner, j, b)
  }

  lemma GotBoth(s: State, s1: State, s': State, i: nat, a: int, j: nat, b: int)
    requires Got(s, s1, i, a) && Got(s1, s', j, b)
    ensures Both(s, s', i, a, j, b)
  {
    assert s1.refs[(s.runner, i)] == Have && i != j;
  }

  lemma TwoBlocks(c: Layout, s: State, a: int, b: int) returns (ls: seq<Label>, s': State, i: nat, j: nat)
    requires Mid(c, s) && s.refs == map[] && 0 <= a < c.size && 0 <= b < c.size && a != b && Handy(s, b)
    ensures Leads(c, s, ls, s') && Mid(c, s') && Both(s, s', i, a, j, b)
  {
    var first, s1, second;
    first, s1, i := OneBlock(c, s, a);
    SecondGettable(c, s, s1, i, a, b);
    second, s', j := GetBlock(c, s1, b);
    LeadsOn(c, s, first, s1, second, s');
    ls := first + second;
    GotBoth(s, s1, s', i, a, j, b);
  }

  // ---------------------------------------------------------------- one thing after another

  /** What is left to do. */
  function Rank(s: State): int {
    match s.phase
    case Quiet => 0
    case Finish => 1
    case EraseHead(_) => 2
    case Install(t, sub) => 10 + 2 * (|s.lh| - t) - (if sub == Written then 1 else 0)
    case WriteHead(_) => 100
    case WriteLog(t, _) => 101 + (|s.lh| - t)
    case ReadHead => 200
  }

  /** A step of the commit itself, where it leaves no unwritten change. */
  lemma Moves(c: Layout, s: State, l: Label)
    requires Inv(c, s) && s.phase != Quiet && (s.recovering || |s.lh| < NBUF) && Enabled(c, s, l) && Tame(l, s.runner)
    requires var s' := Apply(c, s, l);
      s'.phase != Quiet && (s'.recovering || |s'.lh| < NBUF) && Clean(s')
    ensures Leads(c, s, [l], Apply(c, s, l)) && Mid(c, Apply(c, s, l))
  {
    StepKeepsInv(c, s, l);
    LeadsOne(c, s, l);
  }

  /** The list and the kind of work stay. */
  predicate SameWork(s: State, s': State) {
    s'.phase != Quiet && s'.lh == s.lh && s'.recovering == s.recovering
  }

  /** Copying into a buffer, and then the write of it. */
  lemma CopyThenWrite(c: Layout, s: State, l: Label, s2: State, m: Label, s3: State)
    requires Mid(c, s) && Enabled(c, s, l) && (l.CopyToLog? || l.FillHead? || l.CopyHome?) && Apply(c, s, l) == s2
    requires SameWork(s, s2) && Enabled(c, s2, m) && Tame(m, s.runner) && Apply(c, s2, m) == s3
    requires SameWork(s, s3) && Clean(s3)
    ensures Leads(c, s, [l] + [m], s3) && Mid(c, s3)
  {
    StepKeepsInv(c, s, l);
    LeadsOne(c, s, l);
    Moves(c, s2, m);
    LeadsOn(c, s, [l], s2, [m], s3);
  }

  lemma LogCopied(c: Layout, s: State, i: nat, j: nat) returns (s2: State, s3: State)
    requires Clean(s) && CanCopyToLog(c, s, i, j) && i != j && 0 <= c.Slot(s.phase.tail) < |s.disk|
    ensures s2 == DoCopyToLog(s, i, j) && CanPutLog(c, s2, i) && SameWork(s, s2)
    ensures s3 == DoPutLog(s2, i) && SameWork(s, s3) && Clean(s3) && Rank(s3) < Rank(s)
  {
    s2 := DoCopyToLog(s, i, j);
    s3 := DoPutLog(s2, i);
  }

  lemma MoveLog(c: Layout, s: State) returns (ls: seq<Label>, s': State)
    requires Mid(c, s) && s.refs == map[] && s.phase.WriteLog? && s.phase.sub == Ready && s.phase.tail < |s.lh|
    ensures Leads(c, s, ls, s') && Mid(c, s') && Rank(s') < Rank(s)
  {
    var t := s.phase.tail;
    assert c.Home(s.lh[t]) && PinnedIn(s.lh, 0, s.lh[t]);
    var get, s1, i, j := TwoBlocks(c, s, c.Slot(t), s.lh[t]);
    var s2;
    s2, s' := LogCopied(c, s1, i, j);
    CopyThenWrite(c, s1, CopyToLog(i, j), s2, PutLog(i), s');
    ls := get + ([CopyToLog(i, j)] + [PutLog(i)]);
    LeadsOn(c, s, get, s1, [CopyToLog(i, j)] + [PutLog(i)], s');
  }

  lemma HeadCopied(c: Layout, s: State, i: nat) returns (s2: State, s3: State)
    requires Clean(s) && CanFillHead(c, s, i) && 0 <= c.logStart < |s.disk| && |s.lh| <= LOGSIZE
    ensures s2 == DoFillHead(s, i) && CanPutHeader(c, s2, i) && SameWork(s, s2)
    ensures s3 == DoPutHeader(s2, i) && SameWork(s, s3) && Clean(s3) && Rank(s3) < Rank(s)
  {
    s2 := DoFillHead(s, i);
    s3 := DoPutHeader(s2, i);
  }

  lemma MoveHead(c: Layout, s: State) returns (ls: seq<Label>, s': State)
    requires Mid(c, s) && s.refs == map[] && (s.phase.WriteHead? || s.phase.EraseHead?) && s.phase.sub == Ready
    ensures Leads(c, s, ls, s') && Mid(c, s') && Rank(s') < Rank(s)
  {
    var get, s1, i := OneBlock(c, s, c.logStart);
    var s2;
    s2, s' := HeadCopied(c, s1, i);
    CopyThenWrite(c, s1, FillHead(i), s2, PutHeader(i), s');
    ls := get + ([FillHead(i)] + [PutHeader(i)]);
    LeadsOn(c, s, get, s1, [FillHead(i)] + [PutHeader(i)], s');
  }

  lemma HomeCopied(c: Layout, s: State, i: nat, j: nat) returns (s2: State, s3: State)
    requires Clean(s) && CanCopyHome(c, s, i, j) && i != j && 0 <= s.lh[s.phase.tail] < |s.disk|
    ensures s2 == DoCopyHome(s, i, j) && CanPutHome(s2, j) && SameWork(s, s2)
    ensures s3 == DoPutHome(s2, j) && SameWork(s, s3) && Clean(s3) && Rank(s3) < Rank(s)
  {
    s2 := DoCopyHome(s, i, j);
    s3 := DoPutHome(s2, j);
  }

  lemma MoveHome(c: Layout, s: State) returns (ls: seq<Label>, s': State)
    requires Mid(c, s) && s.refs == map[] && s.phase.Install? && s.phase.sub == Ready && s.phase.tail < |s.lh|
    ensures Leads(c, s, ls, s') && Mid(c, s') && Rank(s') < Rank(s)
  {
    var t := s.phase.tail;
    assert c.Home(s.lh[t]) && PinnedIn(s.lh, t, s.lh[t]);
    var get, s1, i, j := TwoBlocks(c, s, c.Slot(t), s.lh[t]);
    var s2;
    s2, s' := HomeCopied(c, s1, i, j);
    CopyThenWrite(c, s1, CopyHome(i, j), s2, PutHome(j), s');
    ls := get + ([CopyHome(i, j)] + [PutHome(j)]);
    LeadsOn(c, s, get, s1, [CopyHome(i, j)] + [PutHome(j)], s');
  }

  lemma MoveUnpin(c: Layout, s: State) returns (ls: seq<Label>, s': State)
    requires Mid(c, s) && s.refs == map[] && s.phase.Install? && s.phase.sub == Written
    ensures Leads(c, s, ls, s') && Mid(c, s') && Rank(s') < Rank(s)
  {
    var b := s.lh[s.phase.tail];
    assert c.Home(b);
    var get, s1, j := OneBlock(c, s, b);
    Moves(c, s1, Unpin(j));
    s' := DoUnpin(s1, j);
    LeadsOn(c, s, get, s1, [Unpin(j)], s');
    ls := get + [Unpin(j)];
  }

  lemma MoveLoad(c: Layout, s: State) returns (ls: seq<Label>, s': State)
    requires Mid(c, s) && s.refs == map[] && s.phase.ReadHead?
    ensures Leads(c, s, ls, s') && Mid(c, s') && Rank(s') < Rank(s)
  {
    var get, s1, i := OneBlock(c, s, c.logStart);
    assert s1.bufs[i].data == s1.disk[c.logStart];
    Moves(c, s1, LoadHead(i));
    s' := Apply(c, s1, LoadHead(i));
    LeadsOn(c, s, get, s1, [LoadHead(i)], s');
    ls := get + [LoadHead(i)];
  }

  lemma MoveOn(c: Layout, s: State) returns (ls: seq<Label>, s': State)
    requires Mid(c, s) && s.refs == map[] && !s.phase.Finish?
    ensures Leads(c, s, ls, s') && Mid(c, s') && Rank(s') < Rank(s)
  {
    match s.phase
    case ReadHead => ls, s' := MoveLoad(c, s);
    case WriteHead(_) => ls, s' := MoveHead(c, s);
    case EraseHead(_) => ls, s' := MoveHead(c, s);
    case WriteLog(t, _) =>
      if t < |s.lh| {
        ls, s' := MoveLog(c, s);
      } else {
        Moves(c, s, EndWriteLog);
        ls, s' := [EndWriteLog], Apply(c, s, EndWriteLog);
      }
    case Install(t, sub) =>
      if sub == Written {
        ls, s' := MoveUnpin(c, s);
      } else if t < |s.lh| {
        ls, s' := MoveHome(c, s);
      } else {
        Moves(c, s, EndInstall);
        ls, s' := [EndInstall], Apply(c, s, EndInstall);
      }
  }

  /** A change in hand is written first. */
  lemma WriteFirst(c: Layout, s: State) returns (ls: seq<Label>, s': State)
    requires Inv(c, s) && s.phase != Quiet && (s.recovering || |s.lh| < NBUF)
    ensures Leads(c, s, ls, s') && Mid(c, s')
  {
    if Target(c, s) == -1 {
      ls, s' := [], s;
    } else {
      var i: nat :| i < |s.bufs| && Caches(s.bufs[i], Target(c, s)) && s.bufs[i].valid
        && s.bufs[i].dirty && s.bufs[i].lock == Some(s.runner);
      var l := if s.phase.WriteLog? then PutLog(i) else if s.phase.Install? then PutHome(i) else PutHeader(i);
      WrittenOut(c, s, l, i);
      ls, s' := [l], Apply(c, s, l);
    }
  }

  lemma WrittenOut(c: Layout, s: State, l: Label, i: nat)
    requires Inv(c, s) && s.phase != Quiet && (s.recovering || |s.lh| < NBUF) && Target(c, s) != -1
    requires i < |s.bufs| && Caches(s.bufs[i], Target(c, s)) && s.bufs[i].valid && s.bufs[i].dirty && s.bufs[i].lock == Some(s.runner)
    requires l == if s.phase.WriteLog? then PutLog(i) else if s.phase.Install? then PutHome(i) else PutHeader(i)
    ensures Enabled(c, s, l) && Leads(c, s, [l], Apply(c, s, l)) && Mid(c, Apply(c, s, l))
  {
    assert Holds(s, s.runner, i);
    OnlyTarget(c, s, i);
    Moves(c, s, l);
  }

  lemma OnlyTarget(c: Layout, s: State, i: nat)
    requires Inv(c, s) && s.phase != Quiet && i < |s.bufs| && Caches(s.bufs[i], Target(c, s))
    ensures forall j :: 0 <= j < |s.bufs| && j != i ==> !s.bufs[j].dirty
  {
  }

  lemma {:induction false} ToFinish(c: Layout, s: State) returns (ls: seq<Label>, s': State)
    requires Mid(c, s)
    ensures Leads(c, s, ls, s') && Mid(c, s') && s'.phase.Finish?
    decreases Rank(s)
  {
    var back, s1 := AllBack(c, s);
    if s1.phase.Finish? {
      return back, s1;
    }
    var on, s2 := MoveOn(c, s1);
    LeadsOn(c, s, back, s1, on, s2);
    var more;
    more, s' := ToFinish(c, s2);
    LeadsOn(c, s, back + on, s2, more, s');
    ls := back + on + more;
  }

  /** Every commit and every recovery can end without a crash, once processes give back the buffers they
      use; it then has done what it was for, and begin_op goes on. */
  lemma CommitEnds(c: Layout, s: State) returns (ls: seq<Label>)
    requires Inv(c, s) && s.phase != Quiet && (s.recovering || |s.lh| < NBUF)
    ensures AllTame(ls, s.runner) && Run(c, s, ls).Some?
    ensures var s' := Run(c, s, ls).value;
      && s'.phase == Quiet && IsRecoverable(c, s'.disk) && IsRecoverable(c, s.disk)
      && Replay(c, s'.disk) == HomeOf(c, s'.disk) == View(c, s')
      && (!s.recovering ==> HomeOf(c, s'.disk) == View(c, s))
      && (s.recovering ==> HomeOf(c, s'.disk) == Replay(c, s.disk))
    ensures forall p :: CanBeginOp(Run(c, s, ls).value, p)
  {
    var first, s1 := WriteFirst(c, s);
    var most, s2 := ToFinish(c, s1);
    LeadsOn(c, s, first, s1, most, s2);
    LeadsOne(c, s2, FinishUp);
    var s' := Apply(c, s2, FinishUp);
    LeadsOn(c, s, first + most, s2, [FinishUp], s');
    ls := first + most + [FinishUp];
    Ended(c, s, ls);
    GoesOn(c, s2);
  }

  lemma GoesOn(c: Layout, s: State)
    requires Inv(c, s) && s.phase.Finish?
    ensures forall p :: CanBeginOp(Apply(c, s, FinishUp), p)
  {
  }

  lemma Ended(c: Layout, s: State, ls: seq<Label>)
    requires Inv(c, s) && s.phase != Quiet && AllTame(ls, s.runner) && Run(c, s, ls).Some? && Run(c, s, ls).value.phase == Quiet
    ensures var s' := Run(c, s, ls).value;
      && IsRecoverable(c, s'.disk) && IsRecoverable(c, s.disk)
      && Replay(c, s'.disk) == HomeOf(c, s'.disk) == View(c, s')
      && (!s.recovering ==> HomeOf(c, s'.disk) == View(c, s))
      && (s.recovering ==> HomeOf(c, s'.disk) == Replay(c, s.disk))
  {
    assert forall k :: 0 <= k < |ls| ==> Tame(ls[k], s.runner) && !ls[k].BeginOp? && !ls[k].Crash?;
    assert Undisturbed(ls) && NoOps(ls);
    if !s.recovering {
      CommitDurable(c, s, ls);
    } else {
      NoCommitWithoutOps(c, s, ls);
      CrashAtomicity(c, s, ls);
      RunKeepsInv(c, s, ls);
      QuietView(c, Run(c, s, ls).value);
    }
  }

  // ---------------------------------------------------------------- operations end

  /** No new operation, no change of a block, no crash. */
  predicate Closing(l: Label) {
    !l.BeginOp? && !l.Modify? && !l.LogWrite? && !l.Crash?
  }

  ghost predicate AllClosing(ls: seq<Label>) {
    forall k :: 0 <= k < |ls| ==> Closing(ls[k])
  }

  /** One operation ends; the last one leaves the commit to do. */
  lemma EndOne(c: Layout, s: State, p: nat)
    requires Inv(c, s) && s.phase == Quiet && p in s.ops && Clean(s)
    ensures Enabled(c, s, EndOp(p)) && Inv(c, DoEndOp(s, p)) && Clean(DoEndOp(s, p))
    ensures var s1 := DoEndOp(s, p);
      && s1.lh == s.lh && s1.ops == s.ops - {p} && !s1.recovering && View(c, s1) == View(c, s)
      && (s1.phase == Quiet <==> s1.ops != {})
  {
    StepKeepsInv(c, s, EndOp(p));
    ViewEndOp(c, s, p);
    assert |s.ops - {p}| == |s.ops| - 1;
    if s.ops - {p} != {} { var q :| q in s.ops - {p}; }
  }

  /** The operations that run can all end, and then everything they have written is durable and home. */
  lemma {:induction false} OpsEnd(c: Layout, s: State) returns (ls: seq<Label>)
    requires Inv(c, s) && s.phase == Quiet && s.ops != {} && Clean(s) && |s.lh| < NBUF
    ensures AllClosing(ls) && Run(c, s, ls).Some?
    ensures var s' := Run(c, s, ls).value;
      && s'.phase == Quiet && s'.ops == {} && IsRecoverable(c, s'.disk)
      && Replay(c, s'.disk) == HomeOf(c, s'.disk) == View(c, s') == View(c, s)
    decreases |s.ops|
  {
    var p :| p in s.ops;
    EndOne(c, s, p);
    var s1 := DoEndOp(s, p);
    var rest;
    if s1.ops == {} {
      rest := CommitEnds(c, s1);
      KeepsNoOps(c, s1, rest);
    } else {
      assert |s1.ops| < |s.ops|;
      rest := OpsEnd(c, s1);
    }
    ls := [EndOp(p)] + rest;
    assert ls[1..] == rest;
  }

  lemma {:induction false} KeepsNoOps(c: Layout, s: State, ls: seq<Label>)
    requires s.ops == {} && AllTame(ls, s.runner) && Run(c, s, ls).Some?
    ensures Run(c, s, ls).value.ops == {}
    decreases |ls|
  {
    if ls != [] {
      assert Tame(ls[0], s.runner) && Apply(c, s, ls[0]).runner == s.runner;
      KeepsNoOps(c, Apply(c, s, ls[0]), ls[1..]);
    }
  }

  // ---------------------------------------------------------------- and only then

  predicate NoCrash(ls: seq<Label>) {
    forall k :: 0 <= k < |ls| ==> !ls[k].Crash?
  }

  /** A commit that has yet to copy its first block, with a pin on as many blocks as there are buffers. */
  ghost predicate Full(c: Layout, s: State) {
    Inv(c, s) && !s.recovering && s.phase == WriteLog(0, Ready) && |s.lh| >= NBUF
  }

  /** Then no buffer has any other block. */
  lemma OnlyPinned(c: Layout, s: State, i: nat)
    requires Full(c, s) && i < |s.bufs|
    ensures !Caches(s.bufs[i], c.Slot(0))
  {
    if Caches(s.bufs[i], c.Slot(0)) {
      var a := seq(|s.bufs|, j requires 0 <= j < |s.bufs| => s.bufs[j].blockno);
      var others := a[..i] + a[i + 1..];
      forall k | 0 <= k < |s.lh| ensures s.lh[k] in others {
        assert c.Home(s.lh[k]) && InCache(s, s.lh[k]);
        var j :| 0 <= j < |s.bufs| && Caches(s.bufs[j], s.lh[k]);
        assert j != i && others[if j < i then j else j - 1] == s.lh[k];
      }
      Pigeonhole(s.lh, others);
    }
  }

  lemma {:induction false} FullStays(c: Layout, s: State, ls: seq<Label>)
    requires Full(c, s) && NoCrash(ls) && Run(c, s, ls).Some?
    ensures Full(c, Run(c, s, ls).value)
    decreases |ls|
  {
    if ls != [] {
      FullStep(c, s, ls[0]);
      FullStays(c, Apply(c, s, ls[0]), ls[1..]);
    }
  }

  lemma FullStep(c: Layout, s: State, l: Label)
    requires Full(c, s) && Enabled(c, s, l) && !l.Crash?
    ensures Full(c, Apply(c, s, l))
  {
    StepKeepsInv(c, s, l);
    forall i: nat | i < |s.bufs| ensures !Caches(s.bufs[i], c.Slot(0)) {
      OnlyPinned(c, s, i);
    }
  }

  ghost predicate CanEnd(c: Layout, s: State) {
    exists ls :: NoCrash(ls) && Run(c, s, ls).Some? && Run(c, s, ls).value.phase == Quiet
  }

  /** A commit can end exactly if it leaves a buffer unpinned: with all of them pinned, the first block of
      the log cannot be read. */
  lemma CommitEndsExactly(c: Layout, s: State)
    requires Inv(c, s) && !s.recovering && s.phase == WriteLog(0, Ready)
    ensures CanEnd(c, s) <==> |s.lh| < NBUF
  {
    if |s.lh| < NBUF {
      var ls := CommitEnds(c, s);
      assert NoCrash(ls);
    } else {
      forall ls | NoCrash(ls) && Run(c, s, ls).Some? ensures Run(c, s, ls).value.phase != Quiet {
        FullStays(c, s, ls);
      }
    }
  }

  /** With a log of at most NBUF blocks, header included, it always can. */
  lemma ShippedEnds(c: Layout, s: State)
    requires Inv(c, s) && s.phase != Quiet && c.nlog <= NBUF
    ensures CanEnd(c, s)
  {
    var ls := CommitEnds(c, s);
    assert NoCrash(ls);
  }
}

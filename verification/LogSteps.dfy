/** Each step of the log and buffer cache keeps the invariant. */
module LogSteps {
  import opened Sequences
  import opened Blocks
  import opened LogProtocol
  import opened LogInvariant

  // ---------------------------------------------------------------- users of a buffer

  lemma UsersAdd(refs: map<(nat, nat), Stage>, p: nat, i: nat, st: Stage)
    requires (p, i) !in refs
    ensures |Users(refs[(p, i) := st], i)| == |Users(refs, i)| + 1
    ensures forall j :: j != i ==> Users(refs[(p, i) := st], j) == Users(refs, j)
  {
    assert Users(refs[(p, i) := st], i) == Users(refs, i) + {(p, i)};
  }

  lemma UsersKeep(refs: map<(nat, nat), Stage>, p: nat, i: nat, st: Stage)
    requires (p, i) in refs
    ensures forall j :: Users(refs[(p, i) := st], j) == Users(refs, j)
  {
  }

  lemma UsersDrop(refs: map<(nat, nat), Stage>, p: nat, i: nat)
    requires (p, i) in refs
    ensures |Users(refs - {(p, i)}, i)| == |Users(refs, i)| - 1
    ensures forall j :: j != i ==> Users(refs - {(p, i)}, j) == Users(refs, j)
  {
    assert Users(refs, i) == Users(refs - {(p, i)}, i) + {(p, i)};
  }

  // ---------------------------------------------------------------- frames

  /** Only contents, dirtiness and validity of buffers differ. */
  ghost predicate SameBufs(s: State, s': State) {
    && |s'.bufs| == |s.bufs| && s'.refs == s.refs
    && (forall i :: 0 <= i < |s.bufs| ==>
          && s'.bufs[i].dev == s.bufs[i].dev && s'.bufs[i].blockno == s.bufs[i].blockno
          && s'.bufs[i].refcnt == s.bufs[i].refcnt && s'.bufs[i].lock == s.bufs[i].lock)
  }

  lemma FrameBufs(s: State, s': State)
    requires SameBufs(s, s') && s'.lh == s.lh && PinsFrom(s') == PinsFrom(s)
    requires Unique(s) && Counts(s) && Locks(s)
    ensures Unique(s') && Counts(s') && Locks(s')
  {
    forall i | 0 <= i < |s'.bufs|
      ensures CountOk(s'.bufs[i], |Users(s'.refs, i)|, Pinned(s', s'.bufs[i].blockno))
    {
      assert CountOk(s.bufs[i], |Users(s.refs, i)|, Pinned(s, s.bufs[i].blockno));
    }
  }

  /** Buffer i and its users differ, nothing else about counts does. */
  lemma CountsAt(s: State, s': State, i: nat)
    requires Counts(s) && i < |s.bufs| && |s'.bufs| == |s.bufs|
    requires s'.lh == s.lh && PinsFrom(s') == PinsFrom(s)
    requires forall j :: 0 <= j < |s.bufs| && j != i ==>
      s'.bufs[j] == s.bufs[j] && Users(s'.refs, j) == Users(s.refs, j)
    requires CountOk(s'.bufs[i], |Users(s'.refs, i)|, Pinned(s', s'.bufs[i].blockno))
    ensures Counts(s')
  {
    forall j | 0 <= j < |s'.bufs|
      ensures CountOk(s'.bufs[j], |Users(s'.refs, j)|, Pinned(s', s'.bufs[j].blockno))
    {
      assert CountOk(s.bufs[j], |Users(s.refs, j)|, Pinned(s, s.bufs[j].blockno));
    }
  }

  /** Replacing buffer i by f and p's stage by st keeps the lock discipline. */
  lemma LocksAt(s: State, p: nat, i: nat, f: Buf, st: Stage)
    requires Locks(s) && i < |s.bufs|
    requires forall k :: k in s.refs && k.1 == i && s.refs[k] == Have ==> k.0 == p || f.lock == s.bufs[i].lock
    requires st == Have ==> f.lock == Some(p)
    requires st != Have ==> f.lock == None || (f.lock == s.bufs[i].lock && f.lock != Some(p))
    ensures Locks(s.(bufs := s.bufs[i := f], refs := s.refs[(p, i) := st]))
  {
  }

  // ---------------------------------------------------------------- buffer references

  lemma BgetLocks(s: State, p: nat, b: int, i: nat)
    requires Locks(s) && i < |s.bufs| && (p, i) !in s.refs
    ensures Locks(DoBget(s, p, b, i))
  {
    LocksAt(s, p, i, DoBget(s, p, b, i).bufs[i], Want);
  }

  lemma BgetCounts(s: State, p: nat, b: int, i: nat)
    requires Counts(s) && PinsCached(s) && i < |s.bufs| && (p, i) !in s.refs
    requires Caches(s.bufs[i], b) || (!Cached(s, b) && s.bufs[i].refcnt == 0)
    ensures Counts(DoBget(s, p, b, i))
  {
    var s' := DoBget(s, p, b, i);
    UsersAdd(s.refs, p, i, Want);
    assert CountOk(s.bufs[i], |Users(s.refs, i)|, Pinned(s, s.bufs[i].blockno));
    assert Pinned(s, b) ==> Cached(s, b);
    assert Pinned(s', b) == Pinned(s, b);
    CountsAt(s, s', i);
  }

  lemma BgetDirty(c: Layout, s: State, p: nat, b: int, i: nat)
    requires Counts(s) && Locks(s) && DirtyOk(c, s) && i < |s.bufs| && (p, i) !in s.refs
    requires Caches(s.bufs[i], b) || s.bufs[i].refcnt == 0
    ensures DirtyOk(c, DoBget(s, p, b, i))
  {
    assert CountOk(s.bufs[i], |Users(s.refs, i)|, Pinned(s, s.bufs[i].blockno));
    if s.bufs[i].lock.Some? {
      assert (s.bufs[i].lock.value, i) in Users(s.refs, i);
    }
  }

  lemma CacheBget(c: Layout, s: State, p: nat, b: int, i: nat)
    requires CacheInv(c, s) && PinsCached(s) && CanBget(c, s, p, b, i)
    ensures CacheInv(c, DoBget(s, p, b, i))
  {
    BgetLocks(s, p, b, i);
    BgetCounts(s, p, b, i);
    BgetDirty(c, s, p, b, i);
  }

  lemma LockParts(s: State, p: nat, i: nat)
    requires Counts(s) && Locks(s) && CanLock(s, p, i)
    ensures Counts(DoLock(s, p, i)) && Locks(DoLock(s, p, i))
  {
    var s' := DoLock(s, p, i);
    UsersKeep(s.refs, p, i, Have);
    assert CountOk(s.bufs[i], |Users(s.refs, i)|, Pinned(s, s.bufs[i].blockno));
    CountsAt(s, s', i);
    LocksAt(s, p, i, s'.bufs[i], Have);
  }

  lemma LockDirty(c: Layout, s: State, p: nat, i: nat)
    requires DirtyOk(c, s) && CanLock(s, p, i)
    ensures DirtyOk(c, DoLock(s, p, i))
  {
  }

  lemma CacheLock(c: Layout, s: State, p: nat, i: nat)
    requires CacheInv(c, s) && CanLock(s, p, i)
    ensures CacheInv(c, DoLock(s, p, i))
  {
    LockParts(s, p, i);
    LockDirty(c, s, p, i);
  }

  lemma UnlockParts(s: State, p: nat, i: nat)
    requires Counts(s) && Locks(s) && CanUnlock(s, p, i)
    ensures Counts(DoUnlock(s, p, i)) && Locks(DoUnlock(s, p, i))
  {
    var s' := DoUnlock(s, p, i);
    UsersKeep(s.refs, p, i, Done);
    assert CountOk(s.bufs[i], |Users(s.refs, i)|, Pinned(s, s.bufs[i].blockno));
    CountsAt(s, s', i);
    LocksAt(s, p, i, s'.bufs[i], Done);
  }

  lemma UnlockDirty(c: Layout, s: State, p: nat, i: nat)
    requires DirtyOk(c, s) && CanUnlock(s, p, i)
    ensures DirtyOk(c, DoUnlock(s, p, i))
  {
  }

  lemma CacheUnlock(c: Layout, s: State, p: nat, i: nat)
    requires CacheInv(c, s) && CanUnlock(s, p, i)
    ensures CacheInv(c, DoUnlock(s, p, i))
  {
    UnlockParts(s, p, i);
    UnlockDirty(c, s, p, i);
  }

  lemma DropParts(s: State, p: nat, i: nat)
    requires Counts(s) && Locks(s) && CanDrop(s, p, i)
    ensures Counts(DoDrop(s, p, i)) && Locks(DoDrop(s, p, i))
  {
    var s' := DoDrop(s, p, i);
    UsersDrop(s.refs, p, i);
    assert CountOk(s.bufs[i], |Users(s.refs, i)|, Pinned(s, s.bufs[i].blockno));
    CountsAt(s, s', i);
  }

  lemma DropDirty(c: Layout, s: State, p: nat, i: nat)
    requires DirtyOk(c, s) && CanDrop(s, p, i)
    ensures DirtyOk(c, DoDrop(s, p, i))
  {
  }

  lemma CacheDrop(c: Layout, s: State, p: nat, i: nat)
    requires CacheInv(c, s) && CanDrop(s, p, i)
    ensures CacheInv(c, DoDrop(s, p, i))
  {
    DropParts(s, p, i);
    DropDirty(c, s, p, i);
  }

  // ---------------------------------------------------------------- contents

  lemma CacheFill(c: Layout, s: State, p: nat, i: nat)
    requires CacheInv(c, s) && CanFill(s, p, i)
    ensures CacheInv(c, DoFill(s, i))
  {
    FrameBufs(s, DoFill(s, i));
  }

  lemma CacheModify(c: Layout, s: State, p: nat, i: nat, data: Block)
    requires CacheInv(c, s) && CanModify(c, s, p, i)
    ensures CacheInv(c, SetData(s, i, data))
  {
    FrameBufs(s, SetData(s, i, data));
  }

  /** The runner changes buffer i, which caches the block the next phase targets. */
  lemma CacheCopy(c: Layout, s: State, s': State, i: nat)
    requires CacheInv(c, s) && Holds(s, s.runner, i) && s.bufs[i].valid
    requires i < |s'.bufs| && s' == SetData(s, i, s'.bufs[i].data).(phase := s'.phase)
    requires s.phase != Quiet && s'.phase != Quiet && s.ops == {}
    requires PinsFrom(s') == PinsFrom(s) && Target(c, s') == s.bufs[i].blockno && Target(c, s) == -1
    requires s.recovering ==> s'.phase.Install? || s'.phase.EraseHead?
    ensures CacheInv(c, s')
  {
    FrameBufs(s, s');
  }

  /** A bwrite of buffer i, the only changed one. */
  lemma CacheWrite(c: Layout, s: State, s': State, i: nat)
    requires CacheInv(c, s) && Holds(s, s.runner, i) && s.bufs[i].dev == ROOTDEV
    requires s' == Bwrite(s, i).(phase := s'.phase)
    requires s.phase != Quiet && s'.phase != Quiet && s.ops == {}
    requires PinsFrom(s') == PinsFrom(s) && Target(c, s) == s.bufs[i].blockno
    requires s.recovering ==> s'.phase.Install? || s'.phase.Finish?
    requires s.bufs[i].blockno == c.logStart ==> HeadOk(c, s.bufs[i].data)
    ensures CacheInv(c, s')
  {
    FrameBufs(s, s');
    assert Shape(c, s');
  }

  // ---------------------------------------------------------------- operations

  lemma LoggedByGrows(logged: set<(nat, int)>, p: nat, b: int)
    ensures LoggedBy(logged + {(p, b)}, p) == LoggedBy(logged, p) + {b}
    ensures forall q :: q != p ==> LoggedBy(logged + {(p, b)}, q) == LoggedBy(logged, q)
  {
    var logged' := logged + {(p, b)};
    assert (p, b) in logged';
    forall x | x in LoggedBy(logged, p) + {b} ensures x in LoggedBy(logged', p) {
      assert x == b || (p, x) in logged;
    }
    forall q | q != p ensures LoggedBy(logged', q) == LoggedBy(logged, q) {
      forall x | x in LoggedBy(logged, q) ensures x in LoggedBy(logged', q) {
        assert (q, x) in logged';
      }
    }
  }

  lemma LoggedByOthers(logged: set<(nat, int)>, p: nat, q: nat)
    requires p != q
    ensures LoggedBy(WithoutProc(logged, p), q) == LoggedBy(logged, q)
  {
    var rest := WithoutProc(logged, p);
    forall x | x in LoggedBy(logged, q) ensures x in LoggedBy(rest, q) {
      assert (q, x) in rest;
    }
  }

  lemma CacheBeginOp(c: Layout, s: State, p: nat)
    requires CacheInv(c, s) && CanBeginOp(s, p)
    requires forall e :: e in s.logged ==> e.0 != p
    ensures CacheInv(c, DoBeginOp(s, p))
  {
    var s' := DoBeginOp(s, p);
    FrameBufs(s, s');
    assert LoggedBy(s.logged, p) == {};
    assert OpsOk(c, s');
  }

  lemma EndOpOps(c: Layout, s: State, p: nat)
    requires OpsOk(c, s) && CanEndOp(s, p)
    ensures OpsOk(c, DoEndOp(s, p))
  {
    forall q | q != p ensures LoggedBy(DoEndOp(s, p).logged, q) == LoggedBy(s.logged, q) {
      LoggedByOthers(s.logged, p, q);
    }
    assert s.outstanding == 1 ==> s.ops == {p} by {
      if s.outstanding == 1 {
        assert |s.ops - {p}| == 0;
      }
    }
  }

  lemma CacheEndOp(c: Layout, s: State, p: nat)
    requires CacheInv(c, s) && CanEndOp(s, p)
    ensures CacheInv(c, DoEndOp(s, p))
  {
    EndOpOps(c, s, p);
    FrameBufs(s, DoEndOp(s, p));
  }

  lemma LogWriteOps(c: Layout, s: State, p: nat, i: nat)
    requires OpsOk(c, s) && CanLogWrite(c, s, p, i)
    ensures OpsOk(c, DoLogWrite(s, p, i))
  {
    LoggedByGrows(s.logged, p, s.bufs[i].blockno);
  }

  lemma LogWriteCounts(s: State, p: nat, i: nat)
    requires Counts(s) && Unique(s) && i < |s.bufs| && s.bufs[i].dev == ROOTDEV
    requires !s.recovering && !s.phase.Install?
    ensures Counts(DoLogWrite(s, p, i))
  {
    var s' := DoLogWrite(s, p, i);
    forall j | 0 <= j < |s'.bufs|
      ensures CountOk(s'.bufs[j], |Users(s'.refs, j)|, Pinned(s', s'.bufs[j].blockno))
    {
      assert CountOk(s.bufs[j], |Users(s.refs, j)|, Pinned(s, s.bufs[j].blockno));
      var b := s.bufs[i].blockno;
      if b !in s.lh {
        assert s'.lh[|s.lh|] == b;
        if j != i && s.bufs[j].dev == ROOTDEV {
          assert forall k :: 0 <= k < |s.lh| ==> s'.lh[k] == s.lh[k];
          assert Pinned(s', s.bufs[j].blockno) == Pinned(s, s.bufs[j].blockno);
        }
      }
    }
  }

  lemma LogWriteList(c: Layout, s: State, p: nat, i: nat)
    requires ListOk(c, s) && CanLogWrite(c, s, p, i)
    ensures ListOk(c, DoLogWrite(s, p, i))
  {
  }

  lemma LogWriteDirty(c: Layout, s: State, p: nat, i: nat)
    requires DirtyOk(c, s) && CanLogWrite(c, s, p, i) && s.phase == Quiet
    ensures DirtyOk(c, DoLogWrite(s, p, i))
  {
  }

  lemma LogWriteLocks(c: Layout, s: State, p: nat, i: nat)
    requires Locks(s) && Unique(s) && i < |s.bufs|
    ensures Locks(DoLogWrite(s, p, i)) && Unique(DoLogWrite(s, p, i))
  {
  }

  lemma CacheLogWrite(c: Layout, s: State, p: nat, i: nat)
    requires CacheInv(c, s) && CanLogWrite(c, s, p, i)
    ensures CacheInv(c, DoLogWrite(s, p, i))
  {
    LogWriteOps(c, s, p, i);
    LogWriteCounts(s, p, i);
    LogWriteList(c, s, p, i);
    LogWriteDirty(c, s, p, i);
    LogWriteLocks(c, s, p, i);
  }

  // ---------------------------------------------------------------- phases

  lemma CachePhase(c: Layout, s: State, phase: Phase)
    requires CacheInv(c, s) && s.phase != Quiet && phase != Quiet && s.ops == {}
    requires PinsFrom(s.(phase := phase)) == PinsFrom(s)
    requires s.recovering ==> phase.ReadHead? || phase.Install? || phase.EraseHead? || phase.Finish?
    requires Target(c, s) == -1
    ensures CacheInv(c, s.(phase := phase))
  {
    FrameBufs(s, s.(phase := phase));
  }

  lemma UnpinCounts(s: State, j: nat)
    requires Counts(s) && Unique(s) && Distinct(s.lh) && CanUnpin(s, j) && !s.recovering
    ensures Counts(DoUnpin(s, j))
  {
    var s' := DoUnpin(s, j);
    var t := s.phase.tail;
    forall k | 0 <= k < |s'.bufs|
      ensures CountOk(s'.bufs[k], |Users(s'.refs, k)|, Pinned(s', s'.bufs[k].blockno))
    {
      assert CountOk(s.bufs[k], |Users(s.refs, k)|, Pinned(s, s.bufs[k].blockno));
      assert Pinned(s, s.lh[t]);
      assert !Pinned(s', s.lh[t]);
      if k != j && s.bufs[k].dev == ROOTDEV {
        assert s.bufs[k].blockno != s.lh[t];
        assert Pinned(s', s.bufs[k].blockno) == Pinned(s, s.bufs[k].blockno);
      }
    }
  }

  lemma CacheUnpin(c: Layout, s: State, j: nat)
    requires CacheInv(c, s) && CanUnpin(s, j)
    ensures CacheInv(c, DoUnpin(s, j))
  {
    if s.recovering {
      FrameBufs(s, DoUnpin(s, j));
    } else {
      UnpinCounts(s, j);
      UnpinBufs(c, s, j);
    }
  }

  lemma UnpinBufs(c: Layout, s: State, j: nat)
    requires Shape(c, s) && Unique(s) && Locks(s) && CanUnpin(s, j) && !s.recovering
    ensures Shape(c, DoUnpin(s, j)) && Unique(DoUnpin(s, j)) && Locks(DoUnpin(s, j))
  {
  }

  lemma CacheEndInstall(c: Layout, s: State)
    requires CacheInv(c, s) && CanEndInstall(s)
    ensures CacheInv(c, s.(lh := [], phase := EraseHead(Ready)))
  {
    var s' := s.(lh := [], phase := EraseHead(Ready));
    forall k | 0 <= k < |s'.bufs|
      ensures CountOk(s'.bufs[k], |Users(s'.refs, k)|, Pinned(s', s'.bufs[k].blockno))
    {
      assert CountOk(s.bufs[k], |Users(s.refs, k)|, Pinned(s, s.bufs[k].blockno));
    }
  }

  lemma CacheLoadHead(c: Layout, s: State, i: nat)
    requires CacheInv(c, s) && CleanOk(s) && PhaseOk(c, s) && CanLoadHead(c, s, i)
    ensures CacheInv(c, s.(lh := Head(s.bufs[i].data), phase := Install(0, Ready)))
    ensures Head(s.bufs[i].data) == DiskHead(c, s)
  {
    var s' := s.(lh := Head(s.bufs[i].data), phase := Install(0, Ready));
    assert !s.bufs[i].dirty;
    assert s.bufs[i].data == s.disk[c.logStart];
    forall k | 0 <= k < |s'.bufs|
      ensures CountOk(s'.bufs[k], |Users(s'.refs, k)|, Pinned(s', s'.bufs[k].blockno))
    {
      assert CountOk(s.bufs[k], |Users(s.refs, k)|, Pinned(s, s.bufs[k].blockno));
    }
  }

  lemma CacheFinishUp(c: Layout, s: State)
    requires CacheInv(c, s) && s.phase.Finish? && s.lh == []
    ensures CacheInv(c, s.(committing := false, recovering := false, phase := Quiet))
  {
    var s' := s.(committing := false, recovering := false, phase := Quiet);
    forall k | 0 <= k < |s'.bufs|
      ensures CountOk(s'.bufs[k], |Users(s'.refs, k)|, Pinned(s', s'.bufs[k].blockno))
    {
      assert CountOk(s.bufs[k], |Users(s.refs, k)|, Pinned(s, s.bufs[k].blockno));
    }
  }

  lemma CacheBoot(c: Layout, disk: seq<Block>, p: nat)
    requires c.Ok() && c.IsDisk(disk) && HeadOk(c, disk[c.logStart])
    ensures CacheInv(c, Boot(disk, p))
  {
    var s := Boot(disk, p);
    forall i | 0 <= i < |s.bufs|
      ensures CountOk(s.bufs[i], |Users(s.refs, i)|, Pinned(s, s.bufs[i].blockno))
    {
      assert Users(s.refs, i) == {};
    }
  }
}

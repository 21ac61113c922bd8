/** Each step keeps what is known about the contents of buffers, log slots and header. */
module LogData {
  import opened Blocks
  import opened LogProtocol
  import opened LogInvariant
  import opened LogSteps

  // ---------------------------------------------------------------- frames

  /** The same contents everywhere; only users, counts and idle locks differ. */
  ghost predicate SameData(s: State, s': State) {
    && |s'.bufs| == |s.bufs| && s'.disk == s.disk && s'.lh == s.lh && s'.phase == s.phase
    && s'.runner == s.runner && s'.recovering == s.recovering
    && (forall i :: 0 <= i < |s.bufs| ==>
          && s'.bufs[i].dev == s.bufs[i].dev && s'.bufs[i].blockno == s.bufs[i].blockno
          && s'.bufs[i].valid == s.bufs[i].valid && s'.bufs[i].data == s.bufs[i].data
          && s'.bufs[i].dirty == s.bufs[i].dirty
          && (s.bufs[i].dirty ==> s'.bufs[i].lock == s.bufs[i].lock))
  }

  lemma FrameInCache(s: State, s': State, b: int)
    requires SameData(s, s') && InCache(s, b)
    ensures InCache(s', b)
  {
    var i :| 0 <= i < |s.bufs| && Caches(s.bufs[i], b) && s.bufs[i].valid;
    assert Caches(s'.bufs[i], b) && s'.bufs[i].valid;
  }

  lemma FramePending(s: State, s': State, b: int)
    requires SameData(s, s') && Pending(s, b)
    ensures Pending(s', b)
  {
    var i :| 0 <= i < |s.bufs| && Caches(s.bufs[i], b) && s.bufs[i].valid
      && s.bufs[i].dirty && s.bufs[i].lock == Some(s.runner);
    assert Caches(s'.bufs[i], b) && s'.bufs[i].dirty;
  }

  lemma FrameLogged(c: Layout, s: State, s': State, k: int)
    requires SameData(s, s') && 0 <= k < |s.lh| && 0 <= c.Slot(k) < |s.disk| && Logged(c, s, k)
    ensures Logged(c, s', k)
  {
  }

  lemma FrameClean(s: State, s': State)
    requires SameData(s, s') && CleanOk(s) && PinsCached(s)
    ensures CleanOk(s') && PinsCached(s')
  {
    forall k | 0 <= k < |s'.lh| && PinsFrom(s') <= k ensures InCache(s', s'.lh[k]) {
      FrameInCache(s, s', s.lh[k]);
    }
  }

  lemma FramePhase(c: Layout, s: State, s': State)
    requires Shape(c, s) && ListOk(c, s) && PhaseOk(c, s)
    requires Shape(c, s') && SameData(s, s') && (s'.ops == {} ==> s.ops == {})
    ensures PhaseOk(c, s')
  {
    var b := Target(c, s);
    if Pending(s, b) { FramePending(s, s', b); }
    forall k | 0 <= k < |s.lh| && Logged(c, s, k) ensures Logged(c, s', k) {
      FrameLogged(c, s, s', k);
    }
  }

  // ---------------------------------------------------------------- buffer references

  lemma DataBget(c: Layout, s: State, p: nat, b: int, i: nat)
    requires Inv(c, s) && CanBget(c, s, p, b, i)
    requires CacheInv(c, DoBget(s, p, b, i))
    ensures DataInv(c, DoBget(s, p, b, i))
  {
    var s' := DoBget(s, p, b, i);
    if Caches(s.bufs[i], b) {
      FrameClean(s, s');
      FramePhase(c, s, s');
    } else {
      Recyclable(c, s, i);
      RecycleClean(s, p, b, i);
      RecyclePhase(c, s, p, b, i);
    }
  }

  /** An unused buffer holds nothing that matters. */
  lemma Recyclable(c: Layout, s: State, i: nat)
    requires Counts(s) && Locks(s) && DirtyOk(c, s) && i < |s.bufs| && s.bufs[i].refcnt == 0
    ensures !s.bufs[i].dirty && s.bufs[i].lock == None
    ensures s.bufs[i].dev == ROOTDEV ==> !Pinned(s, s.bufs[i].blockno)
  {
    assert CountOk(s.bufs[i], |Users(s.refs, i)|, Pinned(s, s.bufs[i].blockno));
    assert forall k :: k in s.refs && k.1 == i ==> k in Users(s.refs, i);
  }

  lemma RecycleClean(s: State, p: nat, b: int, i: nat)
    requires CleanOk(s) && PinsCached(s) && i < |s.bufs| && !Caches(s.bufs[i], b)
    requires s.bufs[i].dev == ROOTDEV ==> !Pinned(s, s.bufs[i].blockno)
    ensures CleanOk(DoBget(s, p, b, i)) && PinsCached(DoBget(s, p, b, i))
  {
    var s' := DoBget(s, p, b, i);
    forall k | 0 <= k < |s'.lh| && PinsFrom(s') <= k ensures InCache(s', s'.lh[k]) {
      assert InCache(s, s.lh[k]);
      var j :| 0 <= j < |s.bufs| && Caches(s.bufs[j], s.lh[k]) && s.bufs[j].valid;
      assert Caches(s'.bufs[j], s.lh[k]) && s'.bufs[j].valid;
    }
  }

  lemma RecyclePhase(c: Layout, s: State, p: nat, b: int, i: nat)
    requires Shape(c, s) && ListOk(c, s) && PhaseOk(c, s) && PinsCached(s)
    requires i < |s.bufs| && !Cached(s, b) && !s.bufs[i].dirty
    requires Shape(c, DoBget(s, p, b, i))
    ensures PhaseOk(c, DoBget(s, p, b, i))
  {
    var s' := DoBget(s, p, b, i);
    var t := Target(c, s);
    if Pending(s, t) { RecyclePending(s, p, b, i, t); }
    forall k | 0 <= k < |s.lh| && Logged(c, s, k) ensures Logged(c, s', k) {
    }
  }

  lemma RecyclePending(s: State, p: nat, b: int, i: nat, t: int)
    requires i < |s.bufs| && !Cached(s, b) && !s.bufs[i].dirty && Pending(s, t)
    ensures Pending(DoBget(s, p, b, i), t)
  {
    var s' := DoBget(s, p, b, i);
    var j :| 0 <= j < |s.bufs| && Caches(s.bufs[j], t) && s.bufs[j].valid
      && s.bufs[j].dirty && s.bufs[j].lock == Some(s.runner);
    assert Caches(s'.bufs[j], t) && s'.bufs[j].dirty;
  }

  lemma DataLock(c: Layout, s: State, p: nat, i: nat)
    requires Inv(c, s) && CanLock(s, p, i) && CacheInv(c, DoLock(s, p, i))
    ensures DataInv(c, DoLock(s, p, i))
  {
    FrameClean(s, DoLock(s, p, i));
    FramePhase(c, s, DoLock(s, p, i));
  }

  lemma DataUnlock(c: Layout, s: State, p: nat, i: nat)
    requires Inv(c, s) && CanUnlock(s, p, i) && CacheInv(c, DoUnlock(s, p, i))
    ensures DataInv(c, DoUnlock(s, p, i))
  {
    FrameClean(s, DoUnlock(s, p, i));
    FramePhase(c, s, DoUnlock(s, p, i));
  }

  lemma DataDrop(c: Layout, s: State, p: nat, i: nat)
    requires Inv(c, s) && CanDrop(s, p, i) && CacheInv(c, DoDrop(s, p, i))
    ensures DataInv(c, DoDrop(s, p, i))
  {
    FrameClean(s, DoDrop(s, p, i));
    FramePhase(c, s, DoDrop(s, p, i));
  }

  // ---------------------------------------------------------------- operations

  lemma DataFill(c: Layout, s: State, p: nat, i: nat)
    requires Inv(c, s) && CanFill(s, p, i) && CacheInv(c, DoFill(s, i))
    ensures DataInv(c, DoFill(s, i))
  {
    FillClean(s, p, i);
    FillPhase(c, s, p, i);
  }

  lemma FillClean(s: State, p: nat, i: nat)
    requires CleanOk(s) && PinsCached(s) && Unique(s) && CanFill(s, p, i)
    ensures CleanOk(DoFill(s, i)) && PinsCached(DoFill(s, i))
  {
    var s' := DoFill(s, i);
    forall k | 0 <= k < |s'.lh| && PinsFrom(s') <= k ensures InCache(s', s'.lh[k]) {
      FillInCache(s, i, s.lh[k]);
    }
  }

  lemma FillInCache(s: State, i: nat, b: int)
    requires i < |s.bufs| && 0 <= s.bufs[i].blockno < |s.disk| && InCache(s, b)
    ensures InCache(DoFill(s, i), b)
  {
    var j :| 0 <= j < |s.bufs| && Caches(s.bufs[j], b) && s.bufs[j].valid;
    assert Caches(DoFill(s, i).bufs[j], b) && DoFill(s, i).bufs[j].valid;
  }

  /** A buffer being filled is not the valid copy that InCache promises. */
  lemma NotFilling(s: State, i: nat, b: int)
    requires Unique(s) && i < |s.bufs| && !s.bufs[i].valid && InCache(s, b)
    ensures !Caches(s.bufs[i], b)
  {
    var j :| 0 <= j < |s.bufs| && Caches(s.bufs[j], b) && s.bufs[j].valid;
    assert j != i;
  }

  lemma FillPending(s: State, i: nat, b: int)
    requires Unique(s) && i < |s.bufs| && 0 <= s.bufs[i].blockno < |s.disk| && !s.bufs[i].valid
    requires Pending(s, b)
    ensures Pending(DoFill(s, i), b) && !Caches(s.bufs[i], b)
  {
    var j :| 0 <= j < |s.bufs| && Caches(s.bufs[j], b) && s.bufs[j].valid
      && s.bufs[j].dirty && s.bufs[j].lock == Some(s.runner);
    assert Caches(DoFill(s, i).bufs[j], b) && DoFill(s, i).bufs[j].dirty;
    assert InCache(s, b);
    NotFilling(s, i, b);
  }

  lemma FillLogged(c: Layout, s: State, i: nat, k: int)
    requires i < |s.bufs| && 0 <= s.bufs[i].blockno < |s.disk|
    requires 0 <= k < |s.lh| && 0 <= c.Slot(k) < |s.disk| && Logged(c, s, k)
    requires !Caches(s.bufs[i], s.lh[k])
    ensures Logged(c, DoFill(s, i), k)
  {
  }

  lemma FillSame(s: State, i: nat, b: int, b': int)
    requires i < |s.bufs| && 0 <= s.bufs[i].blockno < |s.disk|
    requires SameAs(s, b, b') && !Caches(s.bufs[i], b) && !Caches(s.bufs[i], b')
    ensures SameAs(DoFill(s, i), b, b')
  {
  }

  lemma FillPhase(c: Layout, s: State, p: nat, i: nat)
    requires Shape(c, s) && ListOk(c, s) && PhaseOk(c, s) && PinsCached(s) && Unique(s)
    requires CanFill(s, p, i) && Shape(c, DoFill(s, i))
    requires s.recovering ==> !s.phase.WriteLog? && !s.phase.WriteHead?
    ensures PhaseOk(c, DoFill(s, i))
  {
    var t := Target(c, s);
    if Pending(s, t) { FillPending(s, i, t); }
    forall k | 0 <= k < |s.lh| && Logged(c, s, k) && (PinsFrom(s) <= k || (s.lh[k] == t && Pending(s, t)))
      ensures Logged(c, DoFill(s, i), k)
    {
      if PinsFrom(s) <= k { NotFilling(s, i, s.lh[k]); }
      FillLogged(c, s, i, k);
    }
    if s.phase.WriteLog? && s.phase.sub == Copied {
      NotFilling(s, i, s.lh[s.phase.tail]);
      FillSame(s, i, t, s.lh[s.phase.tail]);
    }
  }

  lemma DataModify(c: Layout, s: State, p: nat, i: nat, data: Block)
    requires Inv(c, s) && CanModify(c, s, p, i) && CacheInv(c, SetData(s, i, data))
    ensures DataInv(c, SetData(s, i, data))
  {
    SetDataPins(s, i, data);
    assert CleanOk(SetData(s, i, data));
  }

  lemma SetDataPins(s: State, i: nat, data: Block)
    requires PinsCached(s) && i < |s.bufs|
    ensures PinsCached(SetData(s, i, data))
  {
    var s' := SetData(s, i, data);
    forall k | 0 <= k < |s'.lh| && PinsFrom(s') <= k ensures InCache(s', s'.lh[k]) {
      assert InCache(s, s.lh[k]);
      var j :| 0 <= j < |s.bufs| && Caches(s.bufs[j], s.lh[k]) && s.bufs[j].valid;
      assert Caches(s'.bufs[j], s.lh[k]) && s'.bufs[j].valid;
    }
  }

  lemma DataBeginOp(c: Layout, s: State, p: nat)
    requires Inv(c, s) && CanBeginOp(s, p) && CacheInv(c, DoBeginOp(s, p))
    ensures DataInv(c, DoBeginOp(s, p))
  {
    FrameClean(s, DoBeginOp(s, p));
  }

  lemma DataEndOp(c: Layout, s: State, p: nat)
    requires Inv(c, s) && CanEndOp(s, p) && CacheInv(c, DoEndOp(s, p))
    ensures DataInv(c, DoEndOp(s, p))
  {
    var s' := DoEndOp(s, p);
    assert s.phase == Quiet;
    assert PinsCached(s') by {
      forall k | 0 <= k < |s'.lh| && PinsFrom(s') <= k ensures InCache(s', s'.lh[k]) {
        assert InCache(s, s.lh[k]);
      }
    }
    assert CleanOk(s');
  }

  lemma LogWriteClean(s: State, p: nat, i: nat)
    requires CleanOk(s) && PinsCached(s) && i < |s.bufs| && s.bufs[i].valid
    requires !s.recovering && !s.phase.Install? && s.bufs[i].dev == ROOTDEV
    ensures CleanOk(DoLogWrite(s, p, i)) && PinsCached(DoLogWrite(s, p, i))
  {
    var s' := DoLogWrite(s, p, i);
    var b := s.bufs[i].blockno;
    assert Pinned(s', b) by {
      var k := if b in s.lh then Find(s.lh, b) else |s.lh|;
      assert s'.lh[k] == b;
    }
    forall x | Pinned(s, x) ensures Pinned(s', x) {
      var k :| 0 <= k < |s.lh| && s.lh[k] == x;
      assert s'.lh[k] == x;
    }
    forall k | 0 <= k < |s'.lh| && PinsFrom(s') <= k ensures InCache(s', s'.lh[k]) {
      if k < |s.lh| {
        assert InCache(s, s.lh[k]);
        var j :| 0 <= j < |s.bufs| && Caches(s.bufs[j], s.lh[k]) && s.bufs[j].valid;
        assert Caches(s'.bufs[j], s.lh[k]) && s'.bufs[j].valid;
      } else {
        assert Caches(s'.bufs[i], b) && s'.bufs[i].valid;
      }
    }
  }

  lemma DataLogWrite(c: Layout, s: State, p: nat, i: nat)
    requires Inv(c, s) && CanLogWrite(c, s, p, i) && CacheInv(c, DoLogWrite(s, p, i))
    ensures DataInv(c, DoLogWrite(s, p, i))
  {
    LogWriteClean(s, p, i);
  }

  // ---------------------------------------------------------------- commit and recovery

  lemma DataCopyToLog(c: Layout, s: State, i: nat, j: nat)
    requires Inv(c, s) && CanCopyToLog(c, s, i, j) && CacheInv(c, DoCopyToLog(s, i, j))
    ensures DataInv(c, DoCopyToLog(s, i, j))
  {
    var s' := DoCopyToLog(s, i, j);
    SetDataPins(s, i, s.bufs[j].data);
    assert PinsCached(s') by {
      forall k | 0 <= k < |s'.lh| ensures InCache(s', s'.lh[k]) {
        assert InCache(SetData(s, i, s.bufs[j].data), s.lh[k]);
      }
    }
    assert CleanOk(s');
    CopyToLogPhase(c, s, i, j);
  }

  lemma CopyToLogPhase(c: Layout, s: State, i: nat, j: nat)
    requires Shape(c, s) && ListOk(c, s) && PhaseOk(c, s) && Unique(s) && Locks(s)
    requires CanCopyToLog(c, s, i, j) && Shape(c, DoCopyToLog(s, i, j))
    ensures PhaseOk(c, DoCopyToLog(s, i, j))
  {
    var s' := DoCopyToLog(s, i, j);
    var t := s.phase.tail;
    assert Caches(s'.bufs[i], c.Slot(t)) && s'.bufs[i].dirty && s'.bufs[i].lock == Some(s.runner);
    assert SameAs(s', c.Slot(t), s.lh[t]);
    forall k | 0 <= k < t ensures Logged(c, s', k) {
      assert Logged(c, s, k);
    }
  }

  lemma BwriteClean(s: State, i: nat)
    requires CleanOk(s) && PinsCached(s) && Unique(s) && i < |s.bufs|
    requires s.bufs[i].dev == ROOTDEV && s.bufs[i].valid && 0 <= s.bufs[i].blockno < |s.disk|
    ensures CleanOk(Bwrite(s, i)) && PinsCached(Bwrite(s, i))
  {
    var s' := Bwrite(s, i);
    forall k | 0 <= k < |s'.lh| && PinsFrom(s') <= k ensures InCache(s', s'.lh[k]) {
      assert InCache(s, s.lh[k]);
      var j :| 0 <= j < |s.bufs| && Caches(s.bufs[j], s.lh[k]) && s.bufs[j].valid;
      assert Caches(s'.bufs[j], s.lh[k]) && s'.bufs[j].valid;
    }
  }

  /** Pins and clean buffers depend on the phase only through PinsFrom. */
  lemma RephaseClean(s: State, s': State)
    requires CleanOk(s) && PinsCached(s)
    requires s' == s.(phase := s'.phase) && PinsFrom(s') == PinsFrom(s)
    ensures CleanOk(s') && PinsCached(s')
  {
    forall k | 0 <= k < |s'.lh| && PinsFrom(s') <= k ensures InCache(s', s'.lh[k]) {
      assert InCache(s, s.lh[k]);
    }
    assert forall b :: Pinned(s', b) == Pinned(s, b);
  }

  lemma DataPutLog(c: Layout, s: State, i: nat)
    requires Inv(c, s) && CanPutLog(c, s, i) && CacheInv(c, DoPutLog(s, i))
    ensures DataInv(c, DoPutLog(s, i))
  {
    BwriteClean(s, i);
    RephaseClean(Bwrite(s, i), DoPutLog(s, i));
    PutLogPhase(c, s, i);
  }

  lemma PutLogPhase(c: Layout, s: State, i: nat)
    requires Shape(c, s) && ListOk(c, s) && PhaseOk(c, s)
    requires CanPutLog(c, s, i) && Shape(c, DoPutLog(s, i))
    ensures PhaseOk(c, DoPutLog(s, i))
  {
    var s' := DoPutLog(s, i);
    var t := s.phase.tail;
    forall k | 0 <= k < t + 1 ensures Logged(c, s', k) {
      if k < t {
        assert Logged(c, s, k);
      }
    }
  }

  lemma DataEndWriteLog(c: Layout, s: State)
    requires Inv(c, s) && CanEndWriteLog(s) && CacheInv(c, s.(phase := WriteHead(Ready)))
    ensures DataInv(c, s.(phase := WriteHead(Ready)))
  {
    var s' := s.(phase := WriteHead(Ready));
    RephaseClean(s, s');
    forall k | 0 <= k < |s.lh| ensures Logged(c, s', k) {
      assert Logged(c, s, k);
    }
  }

  lemma DataFillHead(c: Layout, s: State, i: nat)
    requires Inv(c, s) && CanFillHead(c, s, i) && CacheInv(c, DoFillHead(s, i))
    ensures DataInv(c, DoFillHead(s, i))
  {
    var s' := DoFillHead(s, i);
    var d := PutHead(s.bufs[i].data, s.lh);
    SetDataPins(s, i, d);
    assert CleanOk(SetData(s, i, d));
    RephaseClean(SetData(s, i, d), s');
    FillHeadPhase(c, s, i);
  }

  lemma FillHeadPhase(c: Layout, s: State, i: nat)
    requires Shape(c, s) && ListOk(c, s) && PhaseOk(c, s) && Unique(s) && Locks(s)
    requires CanFillHead(c, s, i) && Shape(c, DoFillHead(s, i))
    ensures PhaseOk(c, DoFillHead(s, i))
  {
    var s' := DoFillHead(s, i);
    HeadRoundTrip(s.bufs[i].data, s.lh);
    assert Caches(s'.bufs[i], c.logStart) && s'.bufs[i].dirty && s'.bufs[i].lock == Some(s.runner);
    assert HoldsHead(s', c.logStart, s.lh);
    if s.phase.WriteHead? {
      forall k | 0 <= k < |s.lh| ensures Logged(c, s', k) {
        assert Logged(c, s, k);
      }
    }
  }

  /** A block that holds list h is a good header. */
  lemma HeadOkOf(c: Layout, s: State, b: Block)
    requires ListOk(c, s) && b[0] == |s.lh| && Head(b) == s.lh
    ensures HeadOk(c, b)
  {
    forall k | 1 <= k <= b[0] ensures c.Home(b[k]) {
      assert b[k] == Head(b)[k - 1];
    }
  }

  lemma PutHeaderHead(c: Layout, s: State, i: nat)
    requires Inv(c, s) && CanPutHeader(c, s, i)
    ensures HeadOk(c, s.bufs[i].data) && Head(s.bufs[i].data) == s.lh
  {
    assert Caches(s.bufs[i], c.logStart);
    HeadOkOf(c, s, s.bufs[i].data);
  }

  lemma DataPutHeader(c: Layout, s: State, i: nat)
    requires Inv(c, s) && CanPutHeader(c, s, i) && CacheInv(c, DoPutHeader(s, i))
    ensures DataInv(c, DoPutHeader(s, i))
  {
    PutHeaderHead(c, s, i);
    BwriteClean(s, i);
    RephaseClean(Bwrite(s, i), DoPutHeader(s, i));
    PutHeaderPhase(c, s, i);
  }

  lemma PutHeaderPhase(c: Layout, s: State, i: nat)
    requires Shape(c, s) && ListOk(c, s) && PhaseOk(c, s)
    requires CanPutHeader(c, s, i) && Shape(c, DoPutHeader(s, i)) && Head(s.bufs[i].data) == s.lh
    ensures PhaseOk(c, DoPutHeader(s, i))
  {
    var s' := DoPutHeader(s, i);
    assert DiskHead(c, s') == s.lh;
    if s.phase.WriteHead? {
      forall k | 0 <= k < |s.lh| ensures Logged(c, s', k) {
        assert Logged(c, s, k);
      }
    }
  }

  lemma DataCopyHome(c: Layout, s: State, i: nat, j: nat)
    requires Inv(c, s) && CanCopyHome(c, s, i, j) && CacheInv(c, DoCopyHome(s, i, j))
    ensures DataInv(c, DoCopyHome(s, i, j))
  {
    var s' := DoCopyHome(s, i, j);
    SetDataPins(s, j, s.bufs[i].data);
    assert CleanOk(SetData(s, j, s.bufs[i].data));
    RephaseClean(SetData(s, j, s.bufs[i].data), s');
    SlotClean(c, s, i);
    CopyHomePhase(c, s, i, j);
  }

  /** Between copies, a cached log slot equals its disk block. */
  lemma SlotClean(c: Layout, s: State, i: nat)
    requires Shape(c, s) && ListOk(c, s) && DirtyOk(c, s) && CleanOk(s) && s.phase.Install?
    requires s.phase.sub == Ready && s.phase.tail < |s.lh| && i < |s.bufs| && s.bufs[i].valid
    requires Caches(s.bufs[i], c.Slot(s.phase.tail))
    ensures s.bufs[i].data == s.disk[c.Slot(s.phase.tail)]
  {
    assert !c.Home(s.bufs[i].blockno);
  }

  lemma CopyHomePhase(c: Layout, s: State, i: nat, j: nat)
    requires Shape(c, s) && ListOk(c, s) && PhaseOk(c, s) && Unique(s) && Locks(s)
    requires CanCopyHome(c, s, i, j) && Shape(c, DoCopyHome(s, i, j))
    requires s.bufs[i].data == s.disk[c.Slot(s.phase.tail)]
    ensures PhaseOk(c, DoCopyHome(s, i, j))
  {
    var s' := DoCopyHome(s, i, j);
    var t := s.phase.tail;
    assert Caches(s'.bufs[j], s.lh[t]) && s'.bufs[j].dirty && s'.bufs[j].lock == Some(s.runner);
    forall k | 0 <= k < |s.lh| && t <= k && (k == t || Logged(c, s, k)) ensures Logged(c, s', k) {
    }
  }

  lemma DataPutHome(c: Layout, s: State, j: nat)
    requires Inv(c, s) && CanPutHome(s, j) && CacheInv(c, DoPutHome(s, j))
    ensures DataInv(c, DoPutHome(s, j))
  {
    BwriteClean(s, j);
    RephaseClean(Bwrite(s, j), DoPutHome(s, j));
    PutHomePhase(c, s, j);
  }

  lemma PutHomePhase(c: Layout, s: State, j: nat)
    requires Shape(c, s) && ListOk(c, s) && PhaseOk(c, s)
    requires CanPutHome(s, j) && Shape(c, DoPutHome(s, j))
    ensures PhaseOk(c, DoPutHome(s, j))
  {
    var s' := DoPutHome(s, j);
    var t := s.phase.tail;
    assert s.bufs[j].data == s.disk[c.Slot(t)] by { assert Logged(c, s, t); }
    assert DiskHead(c, s') == s.lh;
    assert Installed(c, s', s.lh, t + 1);
    forall k | 0 <= k < |s.lh| && Logged(c, s, k) ensures Logged(c, s', k) {
    }
  }

  lemma DataUnpin(c: Layout, s: State, j: nat)
    requires Inv(c, s) && CanUnpin(s, j) && CacheInv(c, DoUnpin(s, j))
    ensures DataInv(c, DoUnpin(s, j))
  {
    var s' := DoUnpin(s, j);
    var t := s.phase.tail;
    if s.recovering {
      RephaseClean(s, s');
    } else {
      assert Logged(c, s, t);
      UnpinClean(c, s, j);
      assert DiskHead(c, s') == s.lh;
      forall k | 0 <= k < |s.lh| && Logged(c, s, k) ensures Logged(c, s', k) {
      }
    }
  }

  lemma UnpinClean(c: Layout, s: State, j: nat)
    requires Shape(c, s) && ListOk(c, s) && CleanOk(s) && PinsCached(s) && CanUnpin(s, j) && !s.recovering
    requires Logged(c, s, s.phase.tail) && Installed(c, s, s.lh, s.phase.tail + 1)
    ensures CleanOk(DoUnpin(s, j)) && PinsCached(DoUnpin(s, j))
  {
    var s' := DoUnpin(s, j);
    var t := s.phase.tail;
    assert s.disk[s.lh[t]] == s.disk[c.Slot(t)];
    forall b | Pinned(s, b) && b != s.lh[t] ensures Pinned(s', b) {
      var k :| 0 <= k < |s.lh| && PinsFrom(s) <= k && s.lh[k] == b;
      assert s'.lh[k] == b;
    }
    forall k | 0 <= k < |s'.lh| && PinsFrom(s') <= k ensures InCache(s', s'.lh[k]) {
      assert InCache(s, s.lh[k]);
      var i :| 0 <= i < |s.bufs| && Caches(s.bufs[i], s.lh[k]) && s.bufs[i].valid;
      assert Caches(s'.bufs[i], s.lh[k]) && s'.bufs[i].valid;
    }
  }

  lemma DataEndInstall(c: Layout, s: State)
    requires Inv(c, s) && CanEndInstall(s) && CacheInv(c, s.(lh := [], phase := EraseHead(Ready)))
    ensures DataInv(c, s.(lh := [], phase := EraseHead(Ready)))
  {
    var s' := s.(lh := [], phase := EraseHead(Ready));
    assert forall b :: !Pinned(s, b);
    assert DiskHead(c, s') == s.lh;
    assert Installed(c, s', s.lh, |s.lh|);
  }

  lemma DataLoadHead(c: Layout, s: State, i: nat)
    requires Inv(c, s) && CanLoadHead(c, s, i)
    requires CacheInv(c, s.(lh := Head(s.bufs[i].data), phase := Install(0, Ready)))
    requires Head(s.bufs[i].data) == DiskHead(c, s)
    ensures DataInv(c, s.(lh := Head(s.bufs[i].data), phase := Install(0, Ready)))
  {
    var s' := s.(lh := Head(s.bufs[i].data), phase := Install(0, Ready));
    assert forall b :: !Pinned(s, b) && !Pinned(s', b);
  }

  lemma DataFinishUp(c: Layout, s: State)
    requires Inv(c, s) && s.phase.Finish?
    requires CacheInv(c, s.(committing := false, recovering := false, phase := Quiet))
    ensures DataInv(c, s.(committing := false, recovering := false, phase := Quiet))
  {
    assert forall b :: !Pinned(s, b);
  }
}

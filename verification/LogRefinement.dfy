/** The log and buffer cache, with crashes anywhere, refine one flat block store.

    The store has a durable and a current value of every home block.  Operations write
    the current value; only Persist moves it to the durable one, and only while no
    operation is running; a failure falls back to the durable value. */
module LogRefinement {
  import opened Blocks
  import opened LogProtocol
  import opened LogInvariant
  import opened LogSteps
  import opened LogData

  // ---------------------------------------------------------------- the invariant

  lemma BootInv(c: Layout, disk: seq<Block>, p: nat)
    requires c.Ok() && c.IsDisk(disk) && HeadOk(c, disk[c.logStart])
    ensures Inv(c, Boot(disk, p))
  {
    CacheBoot(c, disk, p);
  }

  lemma ClientStepKeepsInv(c: Layout, s: State, l: Label)
    requires Inv(c, s) && Enabled(c, s, l)
    requires l.BeginOp? || l.EndOp? || l.Bget? || l.Lock? || l.Fill? || l.Modify? || l.LogWrite?
      || l.Unlock? || l.Drop?
    ensures Inv(c, Apply(c, s, l))
  {
    match l
    case BeginOp(p) => CacheBeginOp(c, s, p); DataBeginOp(c, s, p);
    case EndOp(p) => CacheEndOp(c, s, p); DataEndOp(c, s, p);
    case Bget(p, b, i) => CacheBget(c, s, p, b, i); DataBget(c, s, p, b, i);
    case Lock(p, i) => CacheLock(c, s, p, i); DataLock(c, s, p, i);
    case Fill(p, i) => CacheFill(c, s, p, i); DataFill(c, s, p, i);
    case Modify(p, i, data) => CacheModify(c, s, p, i, data); DataModify(c, s, p, i, data);
    case LogWrite(p, i) => CacheLogWrite(c, s, p, i); DataLogWrite(c, s, p, i);
    case Unlock(p, i) => CacheUnlock(c, s, p, i); DataUnlock(c, s, p, i);
    case Drop(p, i) => CacheDrop(c, s, p, i); DataDrop(c, s, p, i);
  }

  lemma KeepsCopyToLog(c: Layout, s: State, i: nat, j: nat)
    requires Inv(c, s) && CanCopyToLog(c, s, i, j)
    ensures Inv(c, DoCopyToLog(s, i, j))
  {
    CacheCopy(c, s, DoCopyToLog(s, i, j), i);
    DataCopyToLog(c, s, i, j);
  }

  lemma KeepsPutLog(c: Layout, s: State, i: nat)
    requires Inv(c, s) && CanPutLog(c, s, i)
    ensures Inv(c, DoPutLog(s, i))
  {
    CacheWrite(c, s, DoPutLog(s, i), i);
    DataPutLog(c, s, i);
  }

  lemma KeepsFillHead(c: Layout, s: State, i: nat)
    requires Inv(c, s) && CanFillHead(c, s, i)
    ensures Inv(c, DoFillHead(s, i))
  {
    CacheCopy(c, s, DoFillHead(s, i), i);
    DataFillHead(c, s, i);
  }

  lemma KeepsPutHeader(c: Layout, s: State, i: nat)
    requires Inv(c, s) && CanPutHeader(c, s, i)
    ensures Inv(c, DoPutHeader(s, i))
  {
    PutHeaderHead(c, s, i);
    CacheWrite(c, s, DoPutHeader(s, i), i);
    DataPutHeader(c, s, i);
  }

  lemma KeepsCopyHome(c: Layout, s: State, i: nat, j: nat)
    requires Inv(c, s) && CanCopyHome(c, s, i, j)
    ensures Inv(c, DoCopyHome(s, i, j))
  {
    CacheCopy(c, s, DoCopyHome(s, i, j), j);
    DataCopyHome(c, s, i, j);
  }

  lemma KeepsPutHome(c: Layout, s: State, j: nat)
    requires Inv(c, s) && CanPutHome(s, j)
    ensures Inv(c, DoPutHome(s, j))
  {
    CacheWrite(c, s, DoPutHome(s, j), j);
    DataPutHome(c, s, j);
  }

  lemma CopyStepKeepsInv(c: Layout, s: State, l: Label)
    requires Inv(c, s) && Enabled(c, s, l)
    requires l.CopyToLog? || l.PutLog? || l.FillHead? || l.PutHeader? || l.CopyHome? || l.PutHome?
    ensures Inv(c, Apply(c, s, l))
  {
    match l
    case CopyToLog(i, j) => KeepsCopyToLog(c, s, i, j);
    case PutLog(i) => KeepsPutLog(c, s, i);
    case FillHead(i) => KeepsFillHead(c, s, i);
    case PutHeader(i) => KeepsPutHeader(c, s, i);
    case CopyHome(i, j) => KeepsCopyHome(c, s, i, j);
    case PutHome(j) => KeepsPutHome(c, s, j);
  }

  lemma KeepsUnpin(c: Layout, s: State, j: nat)
    requires Inv(c, s) && CanUnpin(s, j)
    ensures Inv(c, DoUnpin(s, j))
  {
    CacheUnpin(c, s, j);
    DataUnpin(c, s, j);
  }

  lemma KeepsLoadHead(c: Layout, s: State, i: nat)
    requires Inv(c, s) && CanLoadHead(c, s, i)
    ensures Inv(c, Apply(c, s, LoadHead(i)))
  {
    CacheLoadHead(c, s, i);
    DataLoadHead(c, s, i);
  }

  lemma KeepsEndWriteLog(c: Layout, s: State)
    requires Inv(c, s) && Enabled(c, s, EndWriteLog)
    ensures Inv(c, Apply(c, s, EndWriteLog))
  {
    CachePhase(c, s, WriteHead(Ready));
    DataEndWriteLog(c, s);
  }

  lemma KeepsEndInstall(c: Layout, s: State)
    requires Inv(c, s) && Enabled(c, s, EndInstall)
    ensures Inv(c, Apply(c, s, EndInstall))
  {
    CacheEndInstall(c, s);
    DataEndInstall(c, s);
  }

  lemma KeepsFinishUp(c: Layout, s: State)
    requires Inv(c, s) && Enabled(c, s, FinishUp)
    ensures Inv(c, Apply(c, s, FinishUp))
  {
    CacheFinishUp(c, s);
    DataFinishUp(c, s);
  }

  lemma PhaseStepKeepsInv(c: Layout, s: State, l: Label)
    requires Inv(c, s) && Enabled(c, s, l)
    requires l.EndWriteLog? || l.Unpin? || l.EndInstall? || l.LoadHead? || l.FinishUp? || l.Crash?
    ensures Inv(c, Apply(c, s, l))
  {
    match l
    case EndWriteLog => KeepsEndWriteLog(c, s);
    case Unpin(j) => KeepsUnpin(c, s, j);
    case EndInstall => KeepsEndInstall(c, s);
    case LoadHead(i) => KeepsLoadHead(c, s, i);
    case FinishUp => KeepsFinishUp(c, s);
    case Crash(p) => BootInv(c, s.disk, p);
  }

  lemma StepKeepsInv(c: Layout, s: State, l: Label)
    requires Inv(c, s) && Enabled(c, s, l)
    ensures Inv(c, Apply(c, s, l))
  {
    if l.CopyToLog? || l.PutLog? || l.FillHead? || l.PutHeader? || l.CopyHome? || l.PutHome? {
      CopyStepKeepsInv(c, s, l);
    } else if l.EndWriteLog? || l.Unpin? || l.EndInstall? || l.LoadHead? || l.FinishUp? || l.Crash? {
      PhaseStepKeepsInv(c, s, l);
    } else {
      ClientStepKeepsInv(c, s, l);
    }
  }

  lemma {:induction false} RunKeepsInv(c: Layout, s: State, ls: seq<Label>)
    requires Inv(c, s) && Run(c, s, ls).Some?
    ensures Inv(c, Run(c, s, ls).value)
    decreases |ls|
  {
    if ls != [] {
      StepKeepsInv(c, s, ls[0]);
      RunKeepsInv(c, Apply(c, s, ls[0]), ls[1..]);
    }
  }

  // ---------------------------------------------------------------- the flat store

  datatype Store = Store(durable: map<int, Block>, current: map<int, Block>, ops: set<nat>)

  datatype Event = Begin(p: nat) | Write(p: nat, b: int, data: Block) | End(p: nat) | Persist | Fail | Silent

  ghost predicate StoreStep(t: Store, e: Event, t': Store) {
    match e
    case Begin(p) => p !in t.ops && t' == t.(ops := t.ops + {p})
    case Write(p, b, data) => p in t.ops && b in t.current && t' == t.(current := t.current[b := data])
    case End(p) => p in t.ops && t' == t.(ops := t.ops - {p})
    case Persist => t.ops == {} && t' == t.(durable := t.current)
    case Fail => t' == Store(t.durable, t.durable, {})
    case Silent => t' == t
  }

  /** What the file system sees in block b: the cached copy if there is one. */
  ghost function ViewAt(s: State, b: int): Block
    requires 0 <= b < |s.disk|
  {
    if InCache(s, b) then
      var i :| 0 <= i < |s.bufs| && Caches(s.bufs[i], b) && s.bufs[i].valid;
      s.bufs[i].data
    else s.disk[b]
  }

  ghost function View(c: Layout, s: State): map<int, Block>
    requires c.Ok() && c.IsDisk(s.disk)
  {
    map b | 0 <= b < c.size && c.Home(b) :: ViewAt(s, b)
  }

  ghost function Abs(c: Layout, s: State): Store
    requires Shape(c, s)
  {
    Store(Replay(c, s.disk), if s.recovering then Replay(c, s.disk) else View(c, s), s.ops)
  }

  ghost function EventOf(s: State, l: Label): Event {
    match l
    case BeginOp(p) => Begin(p)
    case EndOp(p) => End(p)
    case Modify(p, i, data) => if i < |s.bufs| then Write(p, s.bufs[i].blockno, data) else Silent
    case PutHeader(i) => if s.phase.WriteHead? then Persist else Silent
    case Crash(p) => Fail
    case _ => Silent
  }

  lemma ViewIs(s: State, b: int, i: nat)
    requires Unique(s) && 0 <= b < |s.disk| && i < |s.bufs| && Caches(s.bufs[i], b) && s.bufs[i].valid
    ensures ViewAt(s, b) == s.bufs[i].data
  {
    assert InCache(s, b);
  }

  /** Whatever caches b afterwards shows what b showed before. */
  lemma ViewKept(s: State, s': State, b: int)
    requires 0 <= b < |s.disk| && |s'.disk| == |s.disk|
    requires forall j :: 0 <= j < |s'.bufs| && Caches(s'.bufs[j], b) && s'.bufs[j].valid ==>
      s'.bufs[j].data == ViewAt(s, b)
    requires !InCache(s', b) ==> s'.disk[b] == ViewAt(s, b)
    ensures ViewAt(s', b) == ViewAt(s, b)
  {
  }

  lemma InCacheKept(s: State, s': State, b: int)
    requires |s'.bufs| == |s.bufs| && InCache(s, b)
    requires forall i :: 0 <= i < |s.bufs| ==>
      s'.bufs[i].dev == s.bufs[i].dev && s'.bufs[i].blockno == s.bufs[i].blockno
      && s'.bufs[i].valid == s.bufs[i].valid
    ensures InCache(s', b)
  {
    var i :| 0 <= i < |s.bufs| && Caches(s.bufs[i], b) && s.bufs[i].valid;
    assert Caches(s'.bufs[i], b) && s'.bufs[i].valid;
  }

  /** Identity, validity and contents of every buffer and the home blocks are the same. */
  lemma ViewSameData(c: Layout, s: State, s': State)
    requires c.Ok() && c.IsDisk(s.disk) && c.IsDisk(s'.disk) && Unique(s) && |s'.bufs| == |s.bufs|
    requires forall i :: 0 <= i < |s.bufs| ==>
      && s'.bufs[i].dev == s.bufs[i].dev && s'.bufs[i].blockno == s.bufs[i].blockno
      && s'.bufs[i].valid == s.bufs[i].valid
      && (s.bufs[i].dev == ROOTDEV && c.Home(s.bufs[i].blockno) && s.bufs[i].valid ==>
            s'.bufs[i].data == s.bufs[i].data)
    requires forall b :: c.Home(b) && !InCache(s, b) ==> s'.disk[b] == s.disk[b]
    ensures View(c, s') == View(c, s)
  {
    forall b | 0 <= b < c.size && c.Home(b) ensures ViewAt(s', b) == ViewAt(s, b) {
      forall j | 0 <= j < |s'.bufs| && Caches(s'.bufs[j], b) && s'.bufs[j].valid
        ensures s'.bufs[j].data == ViewAt(s, b)
      {
        ViewIs(s, b, j);
      }
      if InCache(s, b) { InCacheKept(s, s', b); }
      ViewKept(s, s', b);
    }
  }

  lemma ViewBget(c: Layout, s: State, p: nat, b: int, i: nat)
    requires Inv(c, s) && CanBget(c, s, p, b, i)
    ensures View(c, DoBget(s, p, b, i)) == View(c, s)
  {
    var s' := DoBget(s, p, b, i);
    if Caches(s.bufs[i], b) {
      ViewSameData(c, s, s');
    } else {
      Recyclable(c, s, i);
      forall x | 0 <= x < c.size && c.Home(x) ensures ViewAt(s', x) == ViewAt(s, x) {
        ViewRecycled(s, p, b, i, x);
      }
    }
  }

  lemma ViewRecycled(s: State, p: nat, b: int, i: nat, x: int)
    requires Unique(s) && CleanOk(s) && i < |s.bufs| && !Caches(s.bufs[i], b) && 0 <= x < |s.disk|
    requires !s.bufs[i].dirty && (s.bufs[i].dev == ROOTDEV ==> !Pinned(s, s.bufs[i].blockno))
    ensures ViewAt(DoBget(s, p, b, i), x) == ViewAt(s, x)
  {
    var s' := DoBget(s, p, b, i);
    forall j | 0 <= j < |s'.bufs| && Caches(s'.bufs[j], x) && s'.bufs[j].valid
      ensures s'.bufs[j].data == ViewAt(s, x)
    {
      ViewIs(s, x, j);
    }
    if InCache(s, x) {
      var j :| 0 <= j < |s.bufs| && Caches(s.bufs[j], x) && s.bufs[j].valid;
      ViewIs(s, x, j);
      if j != i {
        assert Caches(s'.bufs[j], x) && s'.bufs[j].valid;
      }
    }
    ViewKept(s, s', x);
  }

  lemma ViewFill(c: Layout, s: State, p: nat, i: nat)
    requires Inv(c, s) && CanFill(s, p, i)
    ensures View(c, DoFill(s, i)) == View(c, s)
  {
    var s' := DoFill(s, i);
    forall x | 0 <= x < c.size && c.Home(x) ensures ViewAt(s', x) == ViewAt(s, x) {
      forall j | 0 <= j < |s'.bufs| && Caches(s'.bufs[j], x) && s'.bufs[j].valid
        ensures s'.bufs[j].data == ViewAt(s, x)
      {
        if j == i {
          if InCache(s, x) { NotFilling(s, i, x); }
        } else {
          ViewIs(s, x, j);
        }
      }
      if InCache(s, x) { FillInCache(s, i, x); }
      ViewKept(s, s', x);
    }
  }

  lemma ViewSetData(s: State, i: nat, data: Block, x: int)
    requires i < |s.bufs| && Unique(s) && Unique(SetData(s, i, data)) && s.bufs[i].dev == ROOTDEV
    requires s.bufs[i].valid && 0 <= x < |s.disk|
    ensures ViewAt(SetData(s, i, data), x) == if x == s.bufs[i].blockno then data else ViewAt(s, x)
  {
    var s' := SetData(s, i, data);
    if x == s.bufs[i].blockno {
      ViewIs(s', x, i);
    } else {
      forall j | 0 <= j < |s'.bufs| && Caches(s'.bufs[j], x) && s'.bufs[j].valid
        ensures s'.bufs[j].data == ViewAt(s, x)
      {
        ViewIs(s, x, j);
      }
      if InCache(s, x) { InCacheKept(s, s', x); }
      ViewKept(s, s', x);
    }
  }

  lemma ViewModify(c: Layout, s: State, p: nat, i: nat, data: Block)
    requires Shape(c, s) && Unique(s) && CanModify(c, s, p, i)
    ensures View(c, SetData(s, i, data)) == View(c, s)[s.bufs[i].blockno := data]
  {
    var s' := SetData(s, i, data);
    forall x | 0 <= x < c.size && c.Home(x)
      ensures ViewAt(s', x) == if x == s.bufs[i].blockno then data else ViewAt(s, x)
    {
      ViewSetData(s, i, data, x);
    }
  }

  lemma ViewCopyHome(c: Layout, s: State, i: nat, j: nat)
    requires Inv(c, s) && CanCopyHome(c, s, i, j) && !s.recovering
    ensures View(c, DoCopyHome(s, i, j)) == View(c, s)
  {
    SlotClean(c, s, i);
    assert Logged(c, s, s.phase.tail);
    ViewSameData(c, s, DoCopyHome(s, i, j));
  }

  lemma ViewPutHome(c: Layout, s: State, j: nat)
    requires Inv(c, s) && CanPutHome(s, j)
    ensures View(c, DoPutHome(s, j)) == View(c, s)
  {
    assert InCache(s, s.lh[s.phase.tail]);
    ViewSameData(c, s, DoPutHome(s, j));
  }

  // ---------------------------------------------------------------- the replayed disk

  lemma ReplayPutLog(c: Layout, s: State, i: nat)
    requires Inv(c, s) && CanPutLog(c, s, i)
    ensures Replay(c, DoPutLog(s, i).disk) == Replay(c, s.disk)
  {
    assert DiskHead(c, s) == [];
  }

  /** A listed block is read from its log slot, wherever its home copy stands. */
  lemma ReplayIgnores(c: Layout, d: seq<Block>, k: int, data: Block)
    requires c.Ok() && c.IsDisk(d) && HeadOk(c, d[c.logStart])
    requires 0 <= k < |Head(d[c.logStart])| && c.Home(Head(d[c.logStart])[k])
    ensures Replay(c, d[Head(d[c.logStart])[k] := data]) == Replay(c, d)
  {
    var h := Head(d[c.logStart]);
    var d' := d[h[k] := data];
    forall b | 0 <= b < c.size && c.Home(b) ensures ReplayAt(c, d', b) == ReplayAt(c, d, b) {
      if b == h[k] {
        assert Find(h, b) >= 0;
      }
    }
  }

  lemma ReplayPutHome(c: Layout, s: State, j: nat)
    requires Inv(c, s) && CanPutHome(s, j)
    ensures Replay(c, DoPutHome(s, j).disk) == Replay(c, s.disk)
  {
    ReplayIgnores(c, s.disk, s.phase.tail, s.bufs[j].data);
  }

  lemma ReplayInstalled(c: Layout, s: State)
    requires Shape(c, s) && Installed(c, s, DiskHead(c, s), |DiskHead(c, s)|)
    ensures Replay(c, s.disk) == HomeOf(c, s.disk)
  {
    var h := DiskHead(c, s);
    forall b | 0 <= b < c.size && c.Home(b) ensures ReplayAt(c, s.disk, b) == s.disk[b] {
      var k := Find(h, b);
      if 0 <= k {
        assert h[k] == b && c.Slot(k) < c.size;
      }
    }
  }

  lemma ReplayErase(c: Layout, s: State, i: nat)
    requires Inv(c, s) && CanPutHeader(c, s, i) && s.phase.EraseHead?
    requires Shape(c, DoPutHeader(s, i))
    ensures Replay(c, DoPutHeader(s, i).disk) == Replay(c, s.disk)
  {
    ReplayInstalled(c, s);
    PutHeaderHead(c, s, i);
    ReplayInstalled(c, DoPutHeader(s, i));
    assert HomeOf(c, DoPutHeader(s, i).disk) == HomeOf(c, s.disk);
  }

  lemma ReplayCommitAt(c: Layout, s: State, i: nat, b: int)
    requires Inv(c, s) && CanPutHeader(c, s, i) && s.phase.WriteHead? && 0 <= b < c.size && c.Home(b)
    requires Shape(c, DoPutHeader(s, i))
    requires HeadOk(c, s.bufs[i].data) && Head(s.bufs[i].data) == s.lh
    ensures ReplayAt(c, DoPutHeader(s, i).disk, b) == ViewAt(s, b)
  {
    var k := Find(s.lh, b);
    if 0 <= k {
      assert InCache(s, s.lh[k]);
    }
    if InCache(s, b) {
      var j :| 0 <= j < |s.bufs| && Caches(s.bufs[j], b) && s.bufs[j].valid;
      ViewIs(s, b, j);
      if 0 <= k {
        assert Logged(c, s, k);
      } else {
        assert !Pinned(s, b) && !s.bufs[j].dirty;
      }
    }
  }

  /** The header write of a commit makes exactly the current contents durable. */
  lemma ReplayCommit(c: Layout, s: State, i: nat)
    requires Inv(c, s) && CanPutHeader(c, s, i) && s.phase.WriteHead?
    requires Shape(c, DoPutHeader(s, i))
    ensures Replay(c, DoPutHeader(s, i).disk) == View(c, s)
  {
    var d' := DoPutHeader(s, i).disk;
    PutHeaderHead(c, s, i);
    forall b | 0 <= b < c.size && c.Home(b) ensures ReplayAt(c, d', b) == ViewAt(s, b) {
      ReplayCommitAt(c, s, i, b);
    }
  }

  /** With nothing logged and no operation running, cache, home blocks and log agree. */
  lemma QuietView(c: Layout, s: State)
    requires Inv(c, s) && s.ops == {} && (s.phase.Finish? || s.phase.Quiet?)
    ensures View(c, s) == Replay(c, s.disk) == HomeOf(c, s.disk)
  {
    ReplayInstalled(c, s);
    forall b | 0 <= b < c.size && c.Home(b) ensures ViewAt(s, b) == s.disk[b] {
      if InCache(s, b) {
        var j :| 0 <= j < |s.bufs| && Caches(s.bufs[j], b) && s.bufs[j].valid;
        ViewIs(s, b, j);
        assert !Pinned(s, b) && !s.bufs[j].dirty;
      }
    }
  }

  // ---------------------------------------------------------------- simulation

  lemma ViewBeginOp(c: Layout, s: State, p: nat)
    requires Shape(c, s) && Unique(s) && CanBeginOp(s, p)
    ensures View(c, DoBeginOp(s, p)) == View(c, s)
  {
    ViewSameData(c, s, DoBeginOp(s, p));
  }

  lemma ViewEndOp(c: Layout, s: State, p: nat)
    requires Shape(c, s) && Unique(s) && CanEndOp(s, p)
    ensures View(c, DoEndOp(s, p)) == View(c, s)
  {
    ViewSameData(c, s, DoEndOp(s, p));
  }

  lemma ViewLock(c: Layout, s: State, p: nat, i: nat)
    requires Shape(c, s) && Unique(s) && CanLock(s, p, i)
    ensures View(c, DoLock(s, p, i)) == View(c, s)
  {
    ViewSameData(c, s, DoLock(s, p, i));
  }

  lemma ViewLogWrite(c: Layout, s: State, p: nat, i: nat)
    requires Shape(c, s) && Unique(s) && CanLogWrite(c, s, p, i)
    ensures View(c, DoLogWrite(s, p, i)) == View(c, s)
  {
    ViewSameData(c, s, DoLogWrite(s, p, i));
  }

  lemma ViewUnlock(c: Layout, s: State, p: nat, i: nat)
    requires Shape(c, s) && Unique(s) && CanUnlock(s, p, i)
    ensures View(c, DoUnlock(s, p, i)) == View(c, s)
  {
    ViewSameData(c, s, DoUnlock(s, p, i));
  }

  lemma ViewDrop(c: Layout, s: State, p: nat, i: nat)
    requires Shape(c, s) && Unique(s) && CanDrop(s, p, i)
    ensures View(c, DoDrop(s, p, i)) == View(c, s)
  {
    ViewSameData(c, s, DoDrop(s, p, i));
  }

  lemma ViewCopyToLog(c: Layout, s: State, i: nat, j: nat)
    requires Shape(c, s) && ListOk(c, s) && Unique(s) && CanCopyToLog(c, s, i, j)
    ensures View(c, DoCopyToLog(s, i, j)) == View(c, s)
  {
    ViewSameData(c, s, DoCopyToLog(s, i, j));
  }

  lemma ViewPutLog(c: Layout, s: State, i: nat)
    requires Shape(c, s) && Unique(s) && CanPutLog(c, s, i)
    ensures View(c, DoPutLog(s, i)) == View(c, s)
  {
    ViewSameData(c, s, DoPutLog(s, i));
  }

  lemma ViewFillHead(c: Layout, s: State, i: nat)
    requires Shape(c, s) && Unique(s) && CanFillHead(c, s, i)
    ensures View(c, DoFillHead(s, i)) == View(c, s)
  {
    ViewSameData(c, s, DoFillHead(s, i));
  }

  lemma ViewPutHeader(c: Layout, s: State, i: nat)
    requires Shape(c, s) && Unique(s) && CanPutHeader(c, s, i)
    ensures View(c, DoPutHeader(s, i)) == View(c, s)
  {
    ViewSameData(c, s, DoPutHeader(s, i));
  }

  lemma ViewUnpin(c: Layout, s: State, j: nat)
    requires Shape(c, s) && Unique(s) && CanUnpin(s, j)
    ensures View(c, DoUnpin(s, j)) == View(c, s)
  {
    ViewSameData(c, s, DoUnpin(s, j));
  }

  lemma ClientStepRefines(c: Layout, s: State, l: Label)
    requires Inv(c, s) && Enabled(c, s, l) && Inv(c, Apply(c, s, l))
    requires l.BeginOp? || l.EndOp? || l.Bget? || l.Lock? || l.Fill? || l.Modify? || l.LogWrite?
      || l.Unlock? || l.Drop?
    ensures StoreStep(Abs(c, s), EventOf(s, l), Abs(c, Apply(c, s, l)))
  {
    match l
    case BeginOp(p) => ViewBeginOp(c, s, p);
    case EndOp(p) => ViewEndOp(c, s, p);
    case Bget(p, b, i) => ViewBget(c, s, p, b, i);
    case Lock(p, i) => ViewLock(c, s, p, i);
    case Fill(p, i) => ViewFill(c, s, p, i);
    case Modify(p, i, data) => ViewModify(c, s, p, i, data);
    case LogWrite(p, i) => ViewLogWrite(c, s, p, i);
    case Unlock(p, i) => ViewUnlock(c, s, p, i);
    case Drop(p, i) => ViewDrop(c, s, p, i);
  }

  lemma CommitStepRefines(c: Layout, s: State, l: Label)
    requires Inv(c, s) && Enabled(c, s, l) && Inv(c, Apply(c, s, l))
    requires l.CopyToLog? || l.PutLog? || l.FillHead? || l.Unpin?
    ensures StoreStep(Abs(c, s), EventOf(s, l), Abs(c, Apply(c, s, l)))
  {
    match l
    case CopyToLog(i, j) => ViewCopyToLog(c, s, i, j);
    case PutLog(i) =>
      ReplayPutLog(c, s, i);
      ViewPutLog(c, s, i);
    case FillHead(i) => ViewFillHead(c, s, i);
    case Unpin(j) => ViewUnpin(c, s, j);
  }

  lemma PhaseStepRefines(c: Layout, s: State, l: Label)
    requires Inv(c, s) && Enabled(c, s, l) && Inv(c, Apply(c, s, l))
    requires l.EndWriteLog? || l.EndInstall? || l.LoadHead? || l.FinishUp? || l.Crash?
    ensures StoreStep(Abs(c, s), EventOf(s, l), Abs(c, Apply(c, s, l)))
  {
    match l
    case FinishUp => ViewFinish(c, s);
    case Crash(p) =>
    case EndWriteLog => ViewSameData(c, s, s.(phase := WriteHead(Ready)));
    case EndInstall => ViewSameData(c, s, s.(lh := [], phase := EraseHead(Ready)));
    case LoadHead(i) =>
  }

  lemma ViewFinish(c: Layout, s: State)
    requires Inv(c, s) && s.phase.Finish?
    ensures View(c, s.(committing := false, recovering := false, phase := Quiet)) == View(c, s)
    ensures View(c, s) == Replay(c, s.disk)
  {
    QuietView(c, s);
    ViewSameData(c, s, s.(committing := false, recovering := false, phase := Quiet));
  }

  lemma InstallStepRefines(c: Layout, s: State, l: Label)
    requires Inv(c, s) && Enabled(c, s, l) && Inv(c, Apply(c, s, l))
    requires l.PutHeader? || l.CopyHome? || l.PutHome?
    ensures StoreStep(Abs(c, s), EventOf(s, l), Abs(c, Apply(c, s, l)))
  {
    match l
    case PutHeader(i) =>
      if s.phase.WriteHead? { ReplayCommit(c, s, i); } else { ReplayErase(c, s, i); }
      ViewPutHeader(c, s, i);
    case CopyHome(i, j) =>
      if !s.recovering { ViewCopyHome(c, s, i, j); }
    case PutHome(j) =>
      ReplayPutHome(c, s, j);
      ViewPutHome(c, s, j);
  }

  /** Every step of the log and the cache is a step of the flat store. */
  lemma StepRefines(c: Layout, s: State, l: Label)
    requires Inv(c, s) && Enabled(c, s, l)
    ensures Inv(c, Apply(c, s, l))
    ensures StoreStep(Abs(c, s), EventOf(s, l), Abs(c, Apply(c, s, l)))
  {
    StepKeepsInv(c, s, l);
    if l.PutHeader? || l.CopyHome? || l.PutHome? {
      InstallStepRefines(c, s, l);
    } else if l.CopyToLog? || l.PutLog? || l.FillHead? || l.Unpin? {
      CommitStepRefines(c, s, l);
    } else if l.EndWriteLog? || l.EndInstall? || l.LoadHead? || l.FinishUp? || l.Crash? {
      PhaseStepRefines(c, s, l);
    } else {
      ClientStepRefines(c, s, l);
    }
  }

  ghost predicate StoreRun(t: Store, es: seq<Event>, t': Store)
    decreases |es|
  {
    if es == [] then t' == t
    else exists u :: StoreStep(t, es[0], u) && StoreRun(u, es[1..], t')
  }

  ghost function Events(c: Layout, s: State, ls: seq<Label>): seq<Event>
    decreases |ls|
  {
    if ls == [] || !Enabled(c, s, ls[0]) then []
    else [EventOf(s, ls[0])] + Events(c, Apply(c, s, ls[0]), ls[1..])
  }

  /** Any interleaving of processes, commits, crashes and recoveries is a run of the store. */
  lemma {:induction false} RunRefines(c: Layout, s: State, ls: seq<Label>)
    requires Inv(c, s) && Run(c, s, ls).Some?
    ensures Inv(c, Run(c, s, ls).value)
    ensures StoreRun(Abs(c, s), Events(c, s, ls), Abs(c, Run(c, s, ls).value))
    decreases |ls|
  {
    if ls != [] {
      var s1 := Apply(c, s, ls[0]);
      StepRefines(c, s, ls[0]);
      RunRefines(c, s1, ls[1..]);
      var es := Events(c, s, ls);
      assert es[1..] == Events(c, s1, ls[1..]);
      assert StoreStep(Abs(c, s), es[0], Abs(c, s1));
    }
  }

  // ---------------------------------------------------------------- crash safety

  /** The store's durable value moves only at a Persist. */
  lemma {:induction false} DurableMoves(t: Store, es: seq<Event>, t': Store)
    requires StoreRun(t, es, t') && Persist !in es
    ensures t'.durable == t.durable
    decreases |es|
  {
    if es != [] {
      var u :| StoreStep(t, es[0], u) && StoreRun(u, es[1..], t');
      DurableMoves(u, es[1..], t');
    }
  }

  /** Crashing at any point between two commit records recovers the last committed state:
      all of the last transaction, none of the current one. */
  lemma CrashAtomicity(c: Layout, s: State, ls: seq<Label>)
    requires Inv(c, s) && Run(c, s, ls).Some? && Persist !in Events(c, s, ls)
    ensures IsRecoverable(c, Run(c, s, ls).value.disk)
    ensures Replay(c, Run(c, s, ls).value.disk) == Replay(c, s.disk)
  {
    RunRefines(c, s, ls);
    DurableMoves(Abs(c, s), Events(c, s, ls), Abs(c, Run(c, s, ls).value));
  }

  ghost predicate IsRecoverable(c: Layout, d: seq<Block>) {
    c.Ok() && c.IsDisk(d) && HeadOk(c, d[c.logStart])
  }

  /** One disk write, the header write in commit, moves the whole transaction from lost to
      durable, and no operation is half done at that point. */
  lemma CommitPoint(c: Layout, s: State, i: nat)
    requires Inv(c, s) && CanPutHeader(c, s, i) && s.phase.WriteHead?
    ensures s.ops == {} && IsRecoverable(c, DoPutHeader(s, i).disk)
    ensures Replay(c, s.disk) == HomeOf(c, s.disk)
    ensures Replay(c, DoPutHeader(s, i).disk) == View(c, s)
  {
    StepRefines(c, s, PutHeader(i));
    ReplayInstalled(c, s);
    ReplayCommit(c, s, i);
  }

  /** What the file system saw when the run last wrote a commit record, or m if it wrote none. */
  ghost function LastCommitted(c: Layout, s: State, ls: seq<Label>, m: map<int, Block>): map<int, Block>
    decreases |ls|
  {
    if ls == [] || !Enabled(c, s, ls[0]) || !c.Ok() || !c.IsDisk(s.disk) then m
    else LastCommitted(c, Apply(c, s, ls[0]), ls[1..], if EventOf(s, ls[0]) == Persist then View(c, s) else m)
  }

  lemma {:induction false} CommittedOn(c: Layout, s: State, ls: seq<Label>)
    requires Inv(c, s) && Run(c, s, ls).Some?
    ensures Inv(c, Run(c, s, ls).value)
    ensures Replay(c, Run(c, s, ls).value.disk) == LastCommitted(c, s, ls, Replay(c, s.disk))
    decreases |ls|
  {
    if ls != [] {
      StepRefines(c, s, ls[0]);
      assert Replay(c, Apply(c, s, ls[0]).disk) == if EventOf(s, ls[0]) == Persist then View(c, s) else Replay(c, s.disk);
      CommittedOn(c, Apply(c, s, ls[0]), ls[1..]);
    }
  }

  /** After any run from power-on, crashes and all, recovery would bring back exactly what the file system
      saw at the last commit record, or what was there at power-on. */
  lemma LastCommitSurvives(c: Layout, s: State, ls: seq<Label>)
    requires Initial(c, s) && Run(c, s, ls).Some?
    ensures IsRecoverable(c, Run(c, s, ls).value.disk)
    ensures Replay(c, Run(c, s, ls).value.disk) == LastCommitted(c, s, ls, Replay(c, s.disk))
  {
    BootInv(c, s.disk, s.runner);
    CommittedOn(c, s, ls);
  }

  /** No operation starts in this run, and there is no crash. */
  ghost predicate Undisturbed(ls: seq<Label>) {
    forall k :: 0 <= k < |ls| ==> !ls[k].BeginOp? && !ls[k].Crash?
  }

  lemma {:induction false} CommitKeepsView(c: Layout, s: State, ls: seq<Label>)
    requires Inv(c, s) && Run(c, s, ls).Some? && s.ops == {} && !s.recovering && Undisturbed(ls)
    ensures var s' := Run(c, s, ls).value; Inv(c, s') && s'.ops == {} && !s'.recovering && View(c, s') == View(c, s)
    decreases |ls|
  {
    if ls != [] {
      StepRefines(c, s, ls[0]);
      assert !ls[0].BeginOp? && !ls[0].Crash? && Undisturbed(ls[1..]);
      CommitKeepsView(c, Apply(c, s, ls[0]), ls[1..]);
    }
  }

  /** Once the commit that the last end_op set off is over, all that had been written before it is durable
      and home. */
  lemma CommitDurable(c: Layout, s: State, ls: seq<Label>)
    requires Inv(c, s) && s.ops == {} && !s.recovering && Undisturbed(ls) && Run(c, s, ls).Some?
    requires Run(c, s, ls).value.phase.Finish? || Run(c, s, ls).value.phase.Quiet?
    ensures var s' := Run(c, s, ls).value;
      IsRecoverable(c, s'.disk) && Replay(c, s'.disk) == HomeOf(c, s'.disk) == View(c, s) == View(c, s')
  {
    CommitKeepsView(c, s, ls);
    QuietView(c, Run(c, s, ls).value);
  }

  /** No operation starts in this run; recoveries and further crashes may. */
  ghost predicate NoOps(ls: seq<Label>) {
    forall k :: 0 <= k < |ls| ==> !ls[k].BeginOp?
  }

  /** Without running operations and before the commit record, none is ever written. */
  ghost predicate PastCommit(s: State) {
    s.ops == {} && !s.phase.WriteLog? && !s.phase.WriteHead?
  }

  lemma {:induction false} NoCommitWithoutOps(c: Layout, s: State, ls: seq<Label>)
    requires Inv(c, s) && Run(c, s, ls).Some? && PastCommit(s) && NoOps(ls)
    ensures Persist !in Events(c, s, ls)
    ensures PastCommit(Run(c, s, ls).value)
    decreases |ls|
  {
    if ls != [] {
      StepKeepsInv(c, s, ls[0]);
      assert !ls[0].BeginOp?;
      assert NoOps(ls[1..]);
      NoCommitWithoutOps(c, Apply(c, s, ls[0]), ls[1..]);
    }
  }

  /** Recovery, however often it is itself cut short by a crash, ends with exactly the
      committed contents in the home blocks. */
  lemma RecoveryRestores(c: Layout, d: seq<Block>, p: nat, ls: seq<Label>)
    requires IsRecoverable(c, d) && Run(c, Boot(d, p), ls).Some? && NoOps(ls)
    ensures IsRecoverable(c, Run(c, Boot(d, p), ls).value.disk)
    ensures Replay(c, Run(c, Boot(d, p), ls).value.disk) == Replay(c, d)
    ensures !Run(c, Boot(d, p), ls).value.recovering ==>
      HomeOf(c, Run(c, Boot(d, p), ls).value.disk) == Replay(c, d)
  {
    var s := Boot(d, p);
    BootInv(c, d, p);
    NoCommitWithoutOps(c, s, ls);
    CrashAtomicity(c, s, ls);
    RunKeepsInv(c, s, ls);
    var s' := Run(c, s, ls).value;
    if !s'.recovering {
      NoRecoverTwice(c, s, ls);
      QuietView(c, s');
    }
  }

  /** With no operation, a state is either recovering or quiet. */
  lemma {:induction false} NoRecoverTwice(c: Layout, s: State, ls: seq<Label>)
    requires Inv(c, s) && Run(c, s, ls).Some? && NoOps(ls) && s.ops == {}
    requires s.recovering || s.phase.Quiet?
    ensures var s' := Run(c, s, ls).value; s'.recovering || s'.phase.Quiet?
    decreases |ls|
  {
    if ls != [] {
      StepKeepsInv(c, s, ls[0]);
      assert !ls[0].BeginOp?;
      assert NoOps(ls[1..]);
      NoRecoverTwice(c, Apply(c, s, ls[0]), ls[1..]);
    }
  }

  /** end_op's own panic cannot happen. */
  lemma EndOpNeverPanics(c: Layout, s: State, p: nat)
    requires Inv(c, s) && p in s.ops
    ensures !s.committing && s.outstanding >= 1
  {
    assert s.ops != {};
  }
}

/** log.c over bio.c as a state machine: many processes, one disk, crashes anywhere.

    A step is one critical section, one disk transfer, or one in-memory copy under a
    buffer's sleep lock.  Every disk write is a step of its own, and `Crash` may follow
    any step, including the steps of recovery. */
module LogProtocol {
  import opened Blocks

  datatype Option<T> = None | Some(value: T)

  /** struct buf.  `dirty` is bookkeeping for the client rule "after changing a buffer,
      log_write (or bwrite) it before brelse": changed since then by the lock holder. */
  datatype Buf = Buf(dev: nat, blockno: int, valid: bool, refcnt: int,
                     lock: Option<nat>, data: Block, dirty: bool)

  /** A process's use of one buffer: counted in refcnt but not yet locked, locked, or
      unlocked by brelse but still counted. */
  datatype Stage = Want | Have | Done

  /** Progress through one copy-then-bwrite. */
  datatype Sub = Ready | Copied | Written

  /** Where commit() or recover_from_log() is. */
  datatype Phase =
    | Quiet
    | WriteLog(tail: nat, sub: Sub)
    | WriteHead(sub: Sub)
    | Install(tail: nat, sub: Sub)
    | EraseHead(sub: Sub)
    | Finish
    | ReadHead

  datatype State = State(
    disk: seq<Block>,
    bufs: seq<Buf>,
    refs: map<(nat, nat), Stage>,   // (process, buffer index)
    ops: set<nat>,                  // processes between begin_op and end_op
    logged: set<(nat, int)>,        // (process, block) logged by the running ops
    outstanding: int,
    committing: bool,
    lh: seq<int>,                   // the in-memory log header
    phase: Phase,
    runner: nat,                    // the process in commit() or recover_from_log()
    recovering: bool)

  const FRESHBUF := Buf(0, 0, false, 0, None, ZEROBLOCK, false)

  /** Power-on: the disk survives, the memory does not, and process p runs initlog. */
  function Boot(disk: seq<Block>, p: nat): State {
    State(disk, seq(NBUF, _ => FRESHBUF), map[], {}, {}, 0, false, [], ReadHead, p, true)
  }

  datatype Label =
    | BeginOp(p: nat)
    | EndOp(p: nat)
    | Bget(p: nat, b: int, i: nat)
    | Lock(p: nat, i: nat)
    | Fill(p: nat, i: nat)
    | Modify(p: nat, i: nat, data: Block)
    | LogWrite(p: nat, i: nat)
    | Unlock(p: nat, i: nat)
    | Drop(p: nat, i: nat)
    | CopyToLog(i: nat, j: nat)
    | PutLog(i: nat)
    | EndWriteLog
    | FillHead(i: nat)
    | PutHeader(i: nat)
    | CopyHome(i: nat, j: nat)
    | PutHome(j: nat)
    | Unpin(j: nat)
    | EndInstall
    | LoadHead(i: nat)
    | FinishUp
    | Crash(p: nat)

  // ---------------------------------------------------------------- buffer lookup

  predicate Caches(f: Buf, b: int) {
    f.dev == ROOTDEV && f.blockno == b
  }

  predicate Cached(s: State, b: int) {
    exists i :: 0 <= i < |s.bufs| && Caches(s.bufs[i], b)
  }

  predicate Holds(s: State, p: nat, i: nat) {
    && i < |s.bufs|
    && (p, i) in s.refs
    && s.refs[(p, i)] == Have
  }

  /** p may use the contents of buffer i, which caches block b. */
  predicate Uses(s: State, p: nat, i: nat, b: int) {
    Holds(s, p, i) && s.bufs[i].valid && Caches(s.bufs[i], b)
  }

  predicate Running(s: State, p: nat) {
    s.phase != Quiet && s.runner == p
  }

  /** The distinct blocks process p has logged in its operation. */
  function LoggedBy(logged: set<(nat, int)>, p: nat): set<int> {
    set e | e in logged && e.0 == p :: e.1
  }

  // ---------------------------------------------------------------- operations

  predicate CanBeginOp(s: State, p: nat) {
    && !s.recovering && !s.committing && p !in s.ops
    && !(|s.lh| + (s.outstanding + 1) * MAXOPBLOCKS > LOGSIZE)
  }

  function DoBeginOp(s: State, p: nat): State {
    s.(ops := s.ops + {p}, outstanding := s.outstanding + 1)
  }

  predicate CanEndOp(s: State, p: nat) {
    && p in s.ops
    && (forall i :: 0 <= i < |s.bufs| && s.bufs[i].lock == Some(p) ==> !s.bufs[i].dirty)
  }

  /** What is left of `logged` when p leaves. */
  function WithoutProc(logged: set<(nat, int)>, p: nat): set<(nat, int)> {
    set e | e in logged && e.0 != p
  }

  /** The last operation out starts the commit in the same critical section. */
  function DoEndOp(s: State, p: nat): State {
    var s1 := s.(ops := s.ops - {p}, outstanding := s.outstanding - 1,
                 logged := WithoutProc(s.logged, p));
    if s1.outstanding != 0 then s1
    else s1.(committing := true, runner := p,
             phase := if |s.lh| > 0 then WriteLog(0, Ready) else Finish)
  }

  /** A legal call of log_write: p is in an operation, holds the buffer it changed, and
      stays within opMax distinct blocks. */
  predicate LogWriteCall(c: Layout, s: State, p: nat, i: nat) {
    && p in s.ops
    && Holds(s, p, i) && s.bufs[i].valid && c.Home(s.bufs[i].blockno)
    && |LoggedBy(s.logged, p) + {s.bufs[i].blockno}| <= c.opMax
  }

  /** The two panics of log_write. */
  predicate LogWritePanics(c: Layout, s: State) {
    || |s.lh| >= LOGSIZE || |s.lh| >= c.nlog - 1
    || s.outstanding < 1
  }

  predicate CanLogWrite(c: Layout, s: State, p: nat, i: nat) {
    LogWriteCall(c, s, p, i) && !LogWritePanics(c, s)
  }

  function DoLogWrite(s: State, p: nat, i: nat): State
    requires i < |s.bufs|
  {
    var b := s.bufs[i].blockno;
    if b in s.lh then   // log absorption
      s.(bufs := s.bufs[i := s.bufs[i].(dirty := false)], logged := s.logged + {(p, b)})
    else
      s.(bufs := s.bufs[i := s.bufs[i].(dirty := false, refcnt := s.bufs[i].refcnt + 1)],
         logged := s.logged + {(p, b)}, lh := s.lh + [b])
  }

  // ---------------------------------------------------------------- bread, brelse

  predicate CanBget(c: Layout, s: State, p: nat, b: int, i: nat) {
    && i < |s.bufs| && (p, i) !in s.refs && 0 <= b < c.size
    && (Running(s, p) || (c.Home(b) && !s.recovering))
    && (Caches(s.bufs[i], b) || (!Cached(s, b) && s.bufs[i].refcnt == 0))
  }

  /** A hit counts one more user; a miss recycles a buffer nobody uses. */
  function DoBget(s: State, p: nat, b: int, i: nat): State
    requires i < |s.bufs|
  {
    var f := s.bufs[i];
    var g := if Caches(f, b) then f.(refcnt := f.refcnt + 1)
             else f.(dev := ROOTDEV, blockno := b, valid := false, refcnt := 1);
    s.(bufs := s.bufs[i := g], refs := s.refs[(p, i) := Want])
  }

  predicate CanLock(s: State, p: nat, i: nat) {
    i < |s.bufs| && (p, i) in s.refs && s.refs[(p, i)] == Want && s.bufs[i].lock == None
  }

  function DoLock(s: State, p: nat, i: nat): State
    requires i < |s.bufs|
  {
    s.(bufs := s.bufs[i := s.bufs[i].(lock := Some(p))], refs := s.refs[(p, i) := Have])
  }

  predicate CanFill(s: State, p: nat, i: nat) {
    Holds(s, p, i) && !s.bufs[i].valid && 0 <= s.bufs[i].blockno < |s.disk|
  }

  function DoFill(s: State, i: nat): State
    requires i < |s.bufs| && 0 <= s.bufs[i].blockno < |s.disk|
  {
    s.(bufs := s.bufs[i := s.bufs[i].(data := s.disk[s.bufs[i].blockno], valid := true)])
  }

  predicate CanModify(c: Layout, s: State, p: nat, i: nat) {
    p in s.ops && Holds(s, p, i) && s.bufs[i].valid && c.Home(s.bufs[i].blockno)
  }

  /** New contents for a locked buffer. */
  function SetData(s: State, i: nat, data: Block): State
    requires i < |s.bufs|
  {
    s.(bufs := s.bufs[i := s.bufs[i].(data := data, dirty := true)])
  }

  predicate CanUnlock(s: State, p: nat, i: nat) {
    Holds(s, p, i) && !s.bufs[i].dirty
  }

  function DoUnlock(s: State, p: nat, i: nat): State
    requires i < |s.bufs|
  {
    s.(bufs := s.bufs[i := s.bufs[i].(lock := None)], refs := s.refs[(p, i) := Done])
  }

  predicate CanDrop(s: State, p: nat, i: nat) {
    i < |s.bufs| && (p, i) in s.refs && s.refs[(p, i)] == Done
  }

  function DoDrop(s: State, p: nat, i: nat): State
    requires i < |s.bufs|
  {
    s.(bufs := s.bufs[i := s.bufs[i].(refcnt := s.bufs[i].refcnt - 1)], refs := s.refs - {(p, i)})
  }

  /** bwrite: one atomic disk write. */
  function Bwrite(s: State, i: nat): State
    requires i < |s.bufs| && 0 <= s.bufs[i].blockno < |s.disk|
  {
    s.(disk := s.disk[s.bufs[i].blockno := s.bufs[i].data],
       bufs := s.bufs[i := s.bufs[i].(dirty := false)])
  }

  // ---------------------------------------------------------------- commit and recovery

  predicate CanCopyToLog(c: Layout, s: State, i: nat, j: nat) {
    && s.phase.WriteLog? && s.phase.sub == Ready && s.phase.tail < |s.lh|
    && Uses(s, s.runner, i, c.Slot(s.phase.tail))
    && Uses(s, s.runner, j, s.lh[s.phase.tail])
  }

  function DoCopyToLog(s: State, i: nat, j: nat): State
    requires s.phase.WriteLog? && i < |s.bufs| && j < |s.bufs|
  {
    SetData(s, i, s.bufs[j].data).(phase := WriteLog(s.phase.tail, Copied))
  }

  predicate CanPutLog(c: Layout, s: State, i: nat) {
    && s.phase.WriteLog? && s.phase.sub == Copied
    && Uses(s, s.runner, i, c.Slot(s.phase.tail))
    && c.Slot(s.phase.tail) < |s.disk|
  }

  function DoPutLog(s: State, i: nat): State
    requires s.phase.WriteLog? && i < |s.bufs| && 0 <= s.bufs[i].blockno < |s.disk|
  {
    Bwrite(s, i).(phase := WriteLog(s.phase.tail + 1, Ready))
  }

  predicate CanEndWriteLog(s: State) {
    s.phase.WriteLog? && s.phase.sub == Ready && s.phase.tail == |s.lh|
  }

  predicate CanFillHead(c: Layout, s: State, i: nat) {
    && (s.phase.WriteHead? || s.phase.EraseHead?) && s.phase.sub == Ready
    && Uses(s, s.runner, i, c.logStart) && |s.lh| < BLOCKWORDS
  }

  function DoFillHead(s: State, i: nat): State
    requires (s.phase.WriteHead? || s.phase.EraseHead?) && i < |s.bufs| && |s.lh| < BLOCKWORDS
  {
    SetData(s, i, PutHead(s.bufs[i].data, s.lh))
    .(phase := if s.phase.WriteHead? then WriteHead(Copied) else EraseHead(Copied))
  }

  predicate CanPutHeader(c: Layout, s: State, i: nat) {
    && (s.phase.WriteHead? || s.phase.EraseHead?) && s.phase.sub == Copied
    && Uses(s, s.runner, i, c.logStart) && c.logStart < |s.disk|
  }

  function DoPutHeader(s: State, i: nat): State
    requires (s.phase.WriteHead? || s.phase.EraseHead?)
    requires i < |s.bufs| && 0 <= s.bufs[i].blockno < |s.disk|
  {
    Bwrite(s, i).(phase := if s.phase.WriteHead? then Install(0, Ready) else Finish)
  }

  predicate CanCopyHome(c: Layout, s: State, i: nat, j: nat) {
    && s.phase.Install? && s.phase.sub == Ready && s.phase.tail < |s.lh|
    && Uses(s, s.runner, i, c.Slot(s.phase.tail))
    && Uses(s, s.runner, j, s.lh[s.phase.tail])
  }

  function DoCopyHome(s: State, i: nat, j: nat): State
    requires s.phase.Install? && i < |s.bufs| && j < |s.bufs|
  {
    SetData(s, j, s.bufs[i].data).(phase := Install(s.phase.tail, Copied))
  }

  predicate CanPutHome(s: State, j: nat) {
    && s.phase.Install? && s.phase.sub == Copied && s.phase.tail < |s.lh|
    && Uses(s, s.runner, j, s.lh[s.phase.tail]) && 0 <= s.lh[s.phase.tail] < |s.disk|
  }

  function DoPutHome(s: State, j: nat): State
    requires s.phase.Install? && j < |s.bufs| && 0 <= s.bufs[j].blockno < |s.disk|
  {
    Bwrite(s, j).(phase := Install(s.phase.tail, Written))
  }

  predicate CanUnpin(s: State, j: nat) {
    && s.phase.Install? && s.phase.sub == Written && s.phase.tail < |s.lh|
    && Uses(s, s.runner, j, s.lh[s.phase.tail])
  }

  /** bunpin, which recovery skips. */
  function DoUnpin(s: State, j: nat): State
    requires s.phase.Install? && j < |s.bufs|
  {
    if s.recovering then s.(phase := Install(s.phase.tail + 1, Ready))
    else s.(bufs := s.bufs[j := s.bufs[j].(refcnt := s.bufs[j].refcnt - 1)],
            phase := Install(s.phase.tail + 1, Ready))
  }

  predicate CanEndInstall(s: State) {
    s.phase.Install? && s.phase.sub == Ready && s.phase.tail == |s.lh|
  }

  predicate CanLoadHead(c: Layout, s: State, i: nat) {
    && s.phase.ReadHead? && Uses(s, s.runner, i, c.logStart)
    && 0 <= s.bufs[i].data[0] < BLOCKWORDS
  }

  // ---------------------------------------------------------------- all steps

  predicate Enabled(c: Layout, s: State, l: Label) {
    match l
    case BeginOp(p) => CanBeginOp(s, p)
    case EndOp(p) => CanEndOp(s, p)
    case Bget(p, b, i) => CanBget(c, s, p, b, i)
    case Lock(p, i) => CanLock(s, p, i)
    case Fill(p, i) => CanFill(s, p, i)
    case Modify(p, i, data) => CanModify(c, s, p, i)
    case LogWrite(p, i) => CanLogWrite(c, s, p, i)
    case Unlock(p, i) => CanUnlock(s, p, i)
    case Drop(p, i) => CanDrop(s, p, i)
    case CopyToLog(i, j) => CanCopyToLog(c, s, i, j)
    case PutLog(i) => CanPutLog(c, s, i)
    case EndWriteLog => CanEndWriteLog(s)
    case FillHead(i) => CanFillHead(c, s, i)
    case PutHeader(i) => CanPutHeader(c, s, i)
    case CopyHome(i, j) => CanCopyHome(c, s, i, j)
    case PutHome(j) => CanPutHome(s, j)
    case Unpin(j) => CanUnpin(s, j)
    case EndInstall => CanEndInstall(s)
    case LoadHead(i) => CanLoadHead(c, s, i)
    case FinishUp => s.phase.Finish?
    case Crash(p) => true
  }

  function Apply(c: Layout, s: State, l: Label): State
    requires Enabled(c, s, l)
  {
    match l
    case BeginOp(p) => DoBeginOp(s, p)
    case EndOp(p) => DoEndOp(s, p)
    case Bget(p, b, i) => DoBget(s, p, b, i)
    case Lock(p, i) => DoLock(s, p, i)
    case Fill(p, i) => DoFill(s, i)
    case Modify(p, i, data) => SetData(s, i, data)
    case LogWrite(p, i) => DoLogWrite(s, p, i)
    case Unlock(p, i) => DoUnlock(s, p, i)
    case Drop(p, i) => DoDrop(s, p, i)
    case CopyToLog(i, j) => DoCopyToLog(s, i, j)
    case PutLog(i) => DoPutLog(s, i)
    case EndWriteLog => s.(phase := WriteHead(Ready))
    case FillHead(i) => DoFillHead(s, i)
    case PutHeader(i) => DoPutHeader(s, i)
    case CopyHome(i, j) => DoCopyHome(s, i, j)
    case PutHome(j) => DoPutHome(s, j)
    case Unpin(j) => DoUnpin(s, j)
    case EndInstall => s.(lh := [], phase := EraseHead(Ready))
    case LoadHead(i) => s.(lh := Head(s.bufs[i].data), phase := Install(0, Ready))
    case FinishUp => s.(committing := false, recovering := false, phase := Quiet)
    case Crash(p) => Boot(s.disk, p)
  }

  // ---------------------------------------------------------------- runs

  /** The state after a run, or None if some label was not enabled. */
  function Run(c: Layout, s: State, ls: seq<Label>): Option<State>
    decreases |ls|
  {
    if ls == [] then Some(s)
    else if Enabled(c, s, ls[0]) then Run(c, Apply(c, s, ls[0]), ls[1..])
    else None
  }

  lemma {:induction false} RunCat(c: Layout, s: State, a: seq<Label>, b: seq<Label>)
    requires Run(c, s, a).Some?
    ensures Run(c, s, a + b) == Run(c, Run(c, s, a).value, b)
    decreases |a|
  {
    if a == [] {
      assert a + b == b;
    } else {
      assert (a + b)[1..] == a[1..] + b;
      RunCat(c, Apply(c, s, a[0]), a[1..], b);
    }
  }

  /** A run extended by one enabled step. */
  lemma RunSnoc(c: Layout, s: State, a: seq<Label>, l: Label)
    requires Run(c, s, a).Some? && Enabled(c, Run(c, s, a).value, l)
    ensures Run(c, s, a + [l]) == Some(Apply(c, Run(c, s, a).value, l))
  {
    RunCat(c, s, a, [l]);
    assert Run(c, Apply(c, Run(c, s, a).value, l), []) == Some(Apply(c, Run(c, s, a).value, l));
  }

  ghost predicate Initial(c: Layout, s: State) {
    && c.Ok() && c.IsDisk(s.disk) && HeadOk(c, s.disk[c.logStart])
    && s == Boot(s.disk, s.runner)
  }
}

/** virtio_disk_rw, virtio_disk_intr and a device that completes requests in any order
    (Virtio 1.1, sections 2.6 and 5.2), as steps.  A driver step runs from one acquire of
    vdisk_lock, or return from sleep, to the next sleep or release. */
module VirtioProtocol {
  import opened Sequences
  import opened VirtioDriver

  /** One call of virtio_disk_rw: its buffer, direction and block. */
  datatype Op = Op(b: nat, out: bool, blockno: nat)

  /** Where a request is: in the avail ring, with the device, in the used ring, or reported. */
  datatype Stage = Queued | Working | Reported | Done

  datatype Proc =
    | Out
    | Want(op: Op, asleep: bool)                                            // looking for descriptors
    | Flight(op: Op, c: Chain, stage: Stage, asleep: bool, since: nat)      // submitted when |log| was since

  /** What the device did for one request, and the block that moved. */
  datatype Event = Event(op: Op, value: int)

  /** owner: the process that has the buffer's sleep-lock, or -1.  role: the process whose chain a
      descriptor is in, or -1.  inAvail and inUsed: the unconsumed part of each ring. */
  datatype State = State(q: Queue, onDisk: seq<bool>, data: seq<int>, store: seq<int>, procs: seq<Proc>,
                         owner: seq<int>, role: seq<int>, inAvail: seq<nat>, taken: set<nat>, inUsed: seq<nat>,
                         devIdx: nat, log: seq<Event>)

  datatype Label =
    | Call(p: nat, op: Op)
    | Fill(b: nat, v: int)        // a client writes a buffer nobody has given to the disk
    | Alloc(p: nat, c: Chain)
    | NoDesc(p: nat)
    | Take
    | Finish(h: nat)
    | Intr
    | Return(p: nat)
    | Stir(p: nat)                // a wakeup for no reason, as kill gives
    | Resleep(p: nat)

  // ---------------------------------------------------------------- steps

  /** The chain at h as the device reads it: descriptors, header, buffer and status byte.  Flag 1 says that
      there is a next descriptor, flag 2 that the device may write to the buffer. */
  datatype Reading = Bad | Good(op: Op, status: nat)

  function Decode(q: Queue, h: nat): Reading
    requires q.Shape()
  {
    if h >= NUM || !q.desc[h].addr.Header? || q.desc[h].addr.i >= NUM || q.desc[h].flags != 1 || q.desc[h].len != 16 then Bad
    else
      var i1 := q.desc[h].next;
      if i1 >= NUM || !q.desc[i1].addr.Data? || q.desc[i1].flags % 2 != 1 || q.desc[i1].len != 1024 then Bad
      else
        var i2 := q.desc[i1].next;
        var req := q.ops[q.desc[h].addr.i];
        if i2 >= NUM || !q.desc[i2].addr.Status? || q.desc[i2].addr.i >= NUM || q.desc[i2].flags != 2 || q.desc[i2].len != 1 then Bad
        else if (q.desc[i1].flags == 3) == req.out || req.sector % 2 != 0 then Bad
        else Good(Op(q.desc[i1].addr.b, req.out, req.sector / 2), q.desc[i2].addr.i)
  }

  function Woken(pr: Proc, asleep: bool): Proc {
    match pr
    case Out => pr
    case Want(op, _) => Want(op, asleep)
    case Flight(op, c, stage, _, since) => Flight(op, c, stage, asleep, since)
  }

  /** wakeup(&disk.free[0]). */
  function WakeWant(procs: seq<Proc>): (r: seq<Proc>)
    ensures |r| == |procs|
    ensures forall i :: 0 <= i < |procs| ==> r[i] == if procs[i].Want? then Woken(procs[i], false) else procs[i]
  {
    seq(|procs|, i requires 0 <= i < |procs| => if procs[i].Want? then Woken(procs[i], false) else procs[i])
  }

  /** wakeup(b). */
  function WakeFlight(procs: seq<Proc>, b: int): (r: seq<Proc>)
    ensures |r| == |procs|
    ensures forall i :: 0 <= i < |procs| ==>
      r[i] == if procs[i].Flight? && procs[i].op.b == b then Woken(procs[i], false) else procs[i]
  {
    seq(|procs|, i requires 0 <= i < |procs| =>
      if procs[i].Flight? && procs[i].op.b == b then Woken(procs[i], false) else procs[i])
  }

  /** Bookkeeping: the request with chain head h is at this stage now. */
  function SetStage(st: State, h: nat, stage: Stage): (r: seq<Proc>)
    ensures |r| == |st.procs|
  {
    if h < |st.role| && 0 <= st.role[h] < |st.procs| && st.procs[st.role[h]].Flight?
    then st.procs[st.role[h] := st.procs[st.role[h]].(stage := stage)]
    else st.procs
  }

  function Rest(l: seq<nat>): seq<nat> {
    if l == [] then [] else l[1..]
  }

  predicate Sized(st: State) {
    && st.q.Shape() && |st.role| == NUM && |st.owner| == |st.onDisk| == |st.data| && st.devIdx < WRAP
  }

  predicate Enabled(st: State, l: Label)
    requires Sized(st)
  {
    match l
    case Call(p, op) =>
      p < |st.procs| && st.procs[p].Out? && op.b < |st.owner| && st.owner[op.b] == -1 && op.blockno < |st.store|
    case Fill(b, v) => b < |st.owner| && st.owner[b] == -1
    case Alloc(p, c) =>
      p < |st.procs| && st.procs[p].Want? && !st.procs[p].asleep && AllFree(st.q.free, c) && st.procs[p].op.b < |st.onDisk|
    case NoDesc(p) => p < |st.procs| && st.procs[p].Want? && !st.procs[p].asleep && CountFree(st.q.free) < 3
    case Take => st.devIdx != st.q.availIdx
    case Finish(h) => h in st.taken
    case Intr => st.q.seen != st.q.usedIdx
    case Return(p) =>
      (p < |st.procs| && st.procs[p].Flight? && !st.procs[p].asleep && Three(st.q.free, st.procs[p].c)
       && st.procs[p].op.b < |st.onDisk| && !st.onDisk[st.procs[p].op.b])
    case Stir(p) => p < |st.procs| && !st.procs[p].Out?
    case Resleep(p) =>
      (p < |st.procs| && st.procs[p].Flight? && !st.procs[p].asleep
       && st.procs[p].op.b < |st.onDisk| && st.onDisk[st.procs[p].op.b])
  }

  function DoCall(st: State, p: nat, op: Op): State
    requires p < |st.procs| && op.b < |st.owner|
  {
    st.(procs := st.procs[p := Want(op, false)], owner := st.owner[op.b := p])
  }

  /** alloc3_desc succeeds; format, publish, and sleep on b. */
  function DoAlloc(st: State, p: nat, c: Chain): State
    requires Sized(st) && p < |st.procs| && st.procs[p].Want? && Three(st.q.free, c) && st.procs[p].op.b < |st.onDisk|
  {
    var op := st.procs[p].op;
    st.(q := Publish(st.q, c, op.b, op.out, op.blockno),
        onDisk := st.onDisk[op.b := true],
        procs := st.procs[p := Flight(op, c, Queued, true, |st.log|)],
        role := st.role[c.i0 := p][c.i1 := p][c.i2 := p],
        inAvail := st.inAvail + [c.i0])
  }

  /** alloc3_desc fails: freeing what it got wakes the other waiters; sleep on free[0]. */
  function DoNoDesc(st: State, p: nat): State
    requires Sized(st) && p < |st.procs| && st.procs[p].Want?
  {
    var procs := if CountFree(st.q.free) > 0 then WakeWant(st.procs) else st.procs;
    st.(procs := procs[p := Want(st.procs[p].op, true)])
  }

  function DoTake(st: State): State
    requires Sized(st)
  {
    var h := st.q.avail[st.devIdx % NUM];
    st.(devIdx := (st.devIdx + 1) % WRAP, taken := st.taken + {h}, inAvail := Rest(st.inAvail),
        procs := SetStage(st, h, Working))
  }

  /** The device carries out the request it finds at h, and says so in the used ring. */
  function DoFinish(st: State, h: nat): State
    requires Sized(st)
  {
    match Decode(st.q, h)
    case Bad => st
    case Good(op, status) =>
      if op.b >= |st.data| || op.blockno >= |st.store| then st
      else
        var value := if op.out then st.data[op.b] else st.store[op.blockno];
        st.(store := if op.out then st.store[op.blockno := value] else st.store,
            data := if op.out then st.data else st.data[op.b := value],
            q := st.q.(info := st.q.info[status := st.q.info[status].(status := 0)],
                       used := st.q.used[st.q.usedIdx % NUM := h],
                       usedIdx := (st.q.usedIdx + 1) % WRAP),
            taken := st.taken - {h}, inUsed := st.inUsed + [h],
            procs := SetStage(st, h, Reported), log := st.log + [Event(op, value)])
  }

  /** "virtio_disk_intr status", or a completion of no request. */
  predicate IntrPanics(st: State)
    requires Sized(st)
  {
    var id := st.q.used[st.q.seen % NUM];
    id >= NUM || st.q.info[id].status != 0 || !(0 <= st.q.info[id].b < |st.onDisk|)
  }

  /** One turn of virtio_disk_intr's loop. */
  function DoIntr(st: State): State
    requires Sized(st)
  {
    if IntrPanics(st) then st
    else
      var id := st.q.used[st.q.seen % NUM];
      var b := st.q.info[id].b;
      st.(onDisk := st.onDisk[b := false], q := st.q.(seen := (st.q.seen + 1) % WRAP), inUsed := Rest(st.inUsed),
          procs := WakeFlight(SetStage(st, id, Done), b))
  }

  /** The request has finished: give the descriptors back, wake those who wait for some. */
  function DoReturn(st: State, p: nat): State
    requires Sized(st) && p < |st.procs| && st.procs[p].Flight? && Three(st.q.free, st.procs[p].c)
    requires st.procs[p].op.b < |st.owner|
  {
    var c := st.procs[p].c;
    st.(q := Retire(st.q, c), role := st.role[c.i0 := -1][c.i1 := -1][c.i2 := -1],
        owner := st.owner[st.procs[p].op.b := -1], procs := WakeWant(st.procs[p := Out]))
  }

  function SetAsleep(st: State, p: nat, asleep: bool): State
    requires p < |st.procs| && !st.procs[p].Out?
  {
    st.(procs := st.procs[p := Woken(st.procs[p], asleep)])
  }

  function Apply(st: State, l: Label): State
    requires Sized(st) && Enabled(st, l)
  {
    match l
    case Call(p, op) => DoCall(st, p, op)
    case Fill(b, v) => st.(data := st.data[b := v])
    case Alloc(p, c) => DoAlloc(st, p, c)
    case NoDesc(p) => DoNoDesc(st, p)
    case Take => DoTake(st)
    case Finish(h) => DoFinish(st, h)
    case Intr => DoIntr(st)
    case Return(p) => DoReturn(st, p)
    case Stir(p) => SetAsleep(st, p, false)
    case Resleep(p) => SetAsleep(st, p, true)
  }

  // ---------------------------------------------------------------- invariant

  predicate InChain(c: Chain, i: nat) {
    i == c.i0 || i == c.i1 || i == c.i2
  }

  /** A descriptor is free, or in the chain of the request its role names. */
  predicate RoleOk(st: State, i: nat)
    requires Sized(st) && i < NUM
  {
    && (st.q.free[i] <==> st.role[i] == -1)
    && (st.role[i] != -1 ==>
          0 <= st.role[i] < |st.procs| && st.procs[st.role[i]].Flight? && InChain(st.procs[st.role[i]].c, i))
  }

  ghost predicate RolesOk(st: State)
    requires Sized(st)
  {
    forall i {:trigger RoleOk(st, i)} :: 0 <= i < NUM ==> RoleOk(st, i)
  }

  /** A request's chain is its own and holds what virtio_disk_rw put there. */
  predicate ChainOk(st: State, p: nat)
    requires Sized(st) && p < |st.procs| && st.procs[p].Flight?
  {
    var c, op := st.procs[p].c, st.procs[p].op;
    && Formatted(st.q, c, op.b, op.out, op.blockno)
    && st.role[c.i0] == p && st.role[c.i1] == p && st.role[c.i2] == p
    && (st.procs[p].stage == Reported || st.procs[p].stage == Done ==> st.q.info[c.i0].status == 0)
  }

  ghost predicate ChainsOk(st: State)
    requires Sized(st)
  {
    forall p {:trigger ChainOk(st, p)} :: 0 <= p < |st.procs| && st.procs[p].Flight? ==> ChainOk(st, p)
  }

  /** Buffers: the owner is the process using it; b->disk is set exactly until completion. */
  predicate BufferOk(st: State, p: nat)
    requires Sized(st) && p < |st.procs|
  {
    match st.procs[p]
    case Out => true
    case Want(op, asleep) =>
      && op.b < |st.owner| && st.owner[op.b] == p && op.blockno < |st.store|
      && (asleep ==> CountFree(st.q.free) < 3)
    case Flight(op, c, stage, asleep, since) =>
      && op.b < |st.owner| && st.owner[op.b] == p && op.blockno < |st.store|
      && st.onDisk[op.b] == (stage != Done) && (asleep ==> st.onDisk[op.b])
  }

  ghost predicate BuffersOk(st: State)
    requires Sized(st)
  {
    && (forall p {:trigger BufferOk(st, p)} :: 0 <= p < |st.procs| ==> BufferOk(st, p))
    && (forall b :: 0 <= b < |st.owner| && st.owner[b] != -1 ==>
          0 <= st.owner[b] < |st.procs| && !st.procs[st.owner[b]].Out? && st.procs[st.owner[b]].op.b == b)
  }

  /** h is the head of a request at this stage. */
  predicate HeadAt(st: State, h: nat, stage: Stage)
    requires Sized(st)
  {
    && h < NUM && 0 <= st.role[h] < |st.procs| && st.procs[st.role[h]].Flight?
    && st.procs[st.role[h]].c.i0 == h && st.procs[st.role[h]].stage == stage
  }

  /** The rings hold the heads of exactly the requests at the matching stage, in order. */
  ghost predicate RingsOk(st: State)
    requires Sized(st)
  {
    && Distinct(st.inAvail) && Distinct(st.inUsed)
    && RingHolds(st.q.avail, st.devIdx, st.q.availIdx, st.inAvail)
    && RingHolds(st.q.used, st.q.seen, st.q.usedIdx, st.inUsed)
    && Members(st)
  }

  /** Slots base, base + 1, ... up to idx of a ring hold the numbers l; indices wrap at 16 bits. */
  ghost predicate RingHolds(ring: seq<nat>, base: nat, idx: nat, l: seq<nat>)
    decreases |l|
  {
    && |ring| == NUM && base < WRAP
    && (if l == [] then idx == base
        else ring[base % NUM] == l[0] && RingHolds(ring, (base + 1) % WRAP, idx, l[1..]))
  }

  ghost predicate Members(st: State)
    requires Sized(st)
  {
    && (forall h {:trigger HeadAt(st, h, Queued)} :: h in st.inAvail <==> HeadAt(st, h, Queued))
    && (forall h {:trigger HeadAt(st, h, Working)} :: h in st.taken <==> HeadAt(st, h, Working))
    && (forall h {:trigger HeadAt(st, h, Reported)} :: h in st.inUsed <==> HeadAt(st, h, Reported))
  }

  /** Nothing done for this buffer between from and to. */
  predicate Untouched(log: seq<Event>, b: nat, from: nat, to: nat) {
    forall k :: from <= k < to && k < |log| ==> log[k].op.b != b
  }

  /** Since it was submitted the request has been carried out exactly once, the k-th event. */
  predicate DoneAt(log: seq<Event>, op: Op, since: nat, k: nat) {
    && since <= k < |log| && log[k].op == op
    && Untouched(log, op.b, since, k) && Untouched(log, op.b, k + 1, |log|)
  }

  ghost predicate OnceOk(st: State, p: nat)
    requires Sized(st) && p < |st.procs| && st.procs[p].Flight?
  {
    var f := st.procs[p];
    && f.since <= |st.log|
    && (if f.stage == Queued || f.stage == Working then Untouched(st.log, f.op.b, f.since, |st.log|)
        else exists k: nat :: DoneAt(st.log, f.op, f.since, k) && f.op.b < |st.data| && st.data[f.op.b] == st.log[k].value)
  }

  ghost predicate LogOk(st: State)
    requires Sized(st)
  {
    forall p {:trigger OnceOk(st, p)} :: 0 <= p < |st.procs| && st.procs[p].Flight? ==> OnceOk(st, p)
  }

  ghost predicate Inv(st: State) {
    Sized(st) && RolesOk(st) && ChainsOk(st) && BuffersOk(st) && RingsOk(st) && LogOk(st)
  }

  /** After virtio_disk_init, with every process outside and every buffer unlocked. */
  ghost predicate Initial(st: State) {
    && Sized(st) && (forall i :: 0 <= i < NUM ==> st.q.free[i] && st.role[i] == -1)
    && st.q.availIdx == st.devIdx && st.q.usedIdx == st.q.seen
    && st.inAvail == [] && st.inUsed == [] && st.taken == {}
    && (forall p :: 0 <= p < |st.procs| ==> st.procs[p].Out?)
    && (forall b :: 0 <= b < |st.owner| ==> st.owner[b] == -1)
  }

  lemma InitialInv(st: State)
    requires Initial(st)
    ensures Inv(st)
  {
  }
}

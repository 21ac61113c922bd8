/** What every step of the log and buffer cache keeps. */
module LogInvariant {
  import opened Sequences
  import opened Blocks
  import opened LogProtocol

  /** The first list position whose pin log_write's bpin still holds. */
  ghost function PinsFrom(s: State): int {
    if s.recovering then |s.lh| else if s.phase.Install? then s.phase.tail else 0
  }

  ghost predicate PinnedIn(h: seq<int>, from: int, b: int) {
    exists k :: 0 <= k < |h| && from <= k && h[k] == b
  }

  ghost predicate Pinned(s: State, b: int) {
    PinnedIn(s.lh, PinsFrom(s), b)
  }

  /** The processes counted in buffer i's refcnt. */
  ghost function Users(refs: map<(nat, nat), Stage>, i: nat): set<(nat, nat)> {
    set k | k in refs && k.1 == i
  }

  ghost predicate Shape(c: Layout, s: State) {
    && c.Ok() && c.IsDisk(s.disk) && |s.bufs| == NBUF
    && HeadOk(c, s.disk[c.logStart])
    && (forall k :: k in s.refs ==> k.1 < NBUF && s.bufs[k.1].dev == ROOTDEV)
    && (forall i :: 0 <= i < NBUF && s.bufs[i].dev == ROOTDEV ==> 0 <= s.bufs[i].blockno < c.size)
  }

  /** At most one buffer per block. */
  ghost predicate Unique(s: State) {
    forall i, j :: 0 <= i < j < |s.bufs| && s.bufs[i].dev == ROOTDEV && s.bufs[j].dev == ROOTDEV
      ==> s.bufs[i].blockno != s.bufs[j].blockno
  }

  ghost predicate CountOk(f: Buf, users: nat, pinned: bool) {
    f.refcnt == users + (if f.dev == ROOTDEV && pinned then 1 else 0)
  }

  /** refcnt is the number of users plus one for a pin. */
  ghost predicate Counts(s: State) {
    forall i :: 0 <= i < |s.bufs| ==>
      CountOk(s.bufs[i], |Users(s.refs, i)|, Pinned(s, s.bufs[i].blockno))
  }

  /** The sleep-lock's owner is the one process at stage Have. */
  ghost predicate Locks(s: State) {
    && (forall i :: 0 <= i < |s.bufs| && s.bufs[i].lock.Some? ==>
          (s.bufs[i].lock.value, i) in s.refs && s.refs[(s.bufs[i].lock.value, i)] == Have)
    && (forall k :: k in s.refs && k.1 < |s.bufs| && s.refs[k] == Have ==>
          s.bufs[k.1].lock == Some(k.0))
  }

  /** The block the current copy-then-bwrite is about, or -1. */
  ghost function Target(c: Layout, s: State): int {
    match s.phase
    case WriteLog(t, Copied) => c.Slot(t)
    case WriteHead(Copied) => c.logStart
    case EraseHead(Copied) => c.logStart
    case Install(t, Copied) => if t < |s.lh| then s.lh[t] else -1
    case _ => -1
  }

  /** Who may have an unwritten change. */
  ghost predicate DirtyOk(c: Layout, s: State) {
    forall i :: 0 <= i < |s.bufs| && s.bufs[i].dirty ==>
      && s.bufs[i].lock.Some? && s.bufs[i].valid && s.bufs[i].dev == ROOTDEV
      && ((c.Home(s.bufs[i].blockno) && s.bufs[i].lock.value in s.ops)
          || (s.bufs[i].lock.value == s.runner && s.bufs[i].blockno == Target(c, s)))
  }

  /** An unpinned, unchanged, valid buffer equals its disk block. */
  ghost predicate CleanOk(s: State) {
    forall i :: 0 <= i < |s.bufs| && s.bufs[i].dev == ROOTDEV && s.bufs[i].valid
      && !s.bufs[i].dirty && !Pinned(s, s.bufs[i].blockno)
      && 0 <= s.bufs[i].blockno < |s.disk|
      ==> s.bufs[i].data == s.disk[s.bufs[i].blockno]
  }

  ghost predicate InCache(s: State, b: int) {
    exists i :: 0 <= i < |s.bufs| && Caches(s.bufs[i], b) && s.bufs[i].valid
  }

  /** A logged block stays in the cache until it is installed. */
  ghost predicate PinsCached(s: State) {
    forall k :: 0 <= k < |s.lh| && PinsFrom(s) <= k ==> InCache(s, s.lh[k])
  }

  ghost predicate ListOk(c: Layout, s: State) {
    && |s.lh| <= LOGSIZE && |s.lh| < c.nlog
    && (forall k :: 0 <= k < |s.lh| ==> c.Home(s.lh[k]))
    && Distinct(s.lh)
  }

  ghost predicate OpsOk(c: Layout, s: State) {
    && s.outstanding == |s.ops|
    && (s.committing <==> s.phase != Quiet && !s.recovering)
    && (s.phase != Quiet ==> s.ops == {})
    && (s.recovering ==> s.phase.ReadHead? || s.phase.Install? || s.phase.EraseHead? || s.phase.Finish?)
    && (forall e :: e in s.logged ==> e.0 in s.ops && e.1 in s.lh)
    && (forall p :: p in s.ops ==> |LoggedBy(s.logged, p)| <= c.opMax)
  }

  /** What the operations have logged plus what they may still log. */
  ghost predicate Reserved(c: Layout, s: State) {
    s.phase == Quiet ==>
      |s.lh| + c.opMax * |s.ops| - |s.logged| <= MAXOPBLOCKS + 2 * c.opMax
  }

  ghost function DiskHead(c: Layout, s: State): seq<int>
    requires Shape(c, s)
  {
    Head(s.disk[c.logStart])
  }

  /** The cached copy of the k-th logged block, if any, equals log slot k on disk. */
  ghost predicate Logged(c: Layout, s: State, k: int)
    requires 0 <= k < |s.lh| && 0 <= c.Slot(k) < |s.disk|
  {
    forall i :: 0 <= i < |s.bufs| && Caches(s.bufs[i], s.lh[k]) && s.bufs[i].valid
      ==> s.bufs[i].data == s.disk[c.Slot(k)]
  }

  ghost predicate Installed(c: Layout, s: State, h: seq<int>, n: int)
    requires Shape(c, s)
  {
    forall k :: 0 <= k < |h| && k < n && c.Home(h[k]) && c.Slot(k) < c.size
      ==> s.disk[h[k]] == s.disk[c.Slot(k)]
  }

  /** The runner holds a changed, not yet written copy of block b. */
  ghost predicate Pending(s: State, b: int) {
    exists i :: 0 <= i < |s.bufs| && Caches(s.bufs[i], b) && s.bufs[i].valid
      && s.bufs[i].dirty && s.bufs[i].lock == Some(s.runner)
  }

  ghost predicate SameAs(s: State, b: int, b': int) {
    forall i, j :: 0 <= i < |s.bufs| && 0 <= j < |s.bufs| && Caches(s.bufs[i], b)
      && Caches(s.bufs[j], b') && s.bufs[j].valid
      ==> s.bufs[i].data == s.bufs[j].data
  }

  ghost predicate HoldsHead(s: State, b: int, h: seq<int>) {
    forall i :: 0 <= i < |s.bufs| && Caches(s.bufs[i], b) ==>
      s.bufs[i].data[0] == |h| && |h| < BLOCKWORDS && Head(s.bufs[i].data) == h
  }

  ghost predicate PhaseOk(c: Layout, s: State)
    requires Shape(c, s) && ListOk(c, s)
  {
    match s.phase
    case Quiet => !s.recovering && DiskHead(c, s) == [] && (s.ops == {} ==> s.lh == [])
    case WriteLog(t, sub) =>
      && DiskHead(c, s) == [] && t <= |s.lh| && sub != Written
      && (forall k :: 0 <= k < t ==> Logged(c, s, k))
      && (sub == Copied ==> t < |s.lh| && Pending(s, c.Slot(t)) && SameAs(s, c.Slot(t), s.lh[t]))
    case WriteHead(sub) =>
      && DiskHead(c, s) == [] && sub != Written
      && (forall k :: 0 <= k < |s.lh| ==> Logged(c, s, k))
      && (sub == Copied ==> Pending(s, c.logStart) && HoldsHead(s, c.logStart, s.lh))
    case Install(t, sub) =>
      && DiskHead(c, s) == s.lh && t <= |s.lh|
      && (sub != Ready ==> t < |s.lh|)
      && Installed(c, s, s.lh, if sub == Written then t + 1 else t)
      && (!s.recovering ==> forall k :: 0 <= k < |s.lh| && t <= k ==> Logged(c, s, k))
      && (sub == Copied ==> Pending(s, s.lh[t]) && Logged(c, s, t))
    case EraseHead(sub) =>
      && s.lh == [] && sub != Written
      && Installed(c, s, DiskHead(c, s), |DiskHead(c, s)|)
      && (sub == Copied ==> Pending(s, c.logStart) && HoldsHead(s, c.logStart, []))
    case Finish => s.lh == [] && DiskHead(c, s) == []
    case ReadHead => s.recovering && s.lh == []
  }

  ghost predicate CacheInv(c: Layout, s: State) {
    Shape(c, s) && Unique(s) && Counts(s) && Locks(s) && ListOk(c, s) && OpsOk(c, s) && DirtyOk(c, s)
  }

  ghost predicate DataInv(c: Layout, s: State)
    requires CacheInv(c, s)
  {
    CleanOk(s) && PinsCached(s) && PhaseOk(c, s)
  }

  ghost predicate Inv(c: Layout, s: State) {
    CacheInv(c, s) && DataInv(c, s)
  }
}

/** log.c's own loops, run by one process: write_log, write_head, install_trans, commit and
    recover_from_log over a disk that remembers every state a crash could have exposed. */
module LogCommit {
  import opened Sequences
  import opened Blocks
  import opened LogRefinement

  /** The state of the log, with the cached contents of the pinned blocks. */
  class Log {
    const c: Layout
    var disk: seq<Block>
    var lh: seq<int>
    var pinned: map<int, Block>
    ghost var trace: seq<seq<Block>>  // every disk so far, the current one last

    ghost predicate Valid()
      reads this
    {
      && c.Ok() && c.IsDisk(disk) && |trace| > 0 && trace[|trace| - 1] == disk
      && |lh| <= LOGSIZE && |lh| < c.nlog && Distinct(lh)
      && (forall k :: 0 <= k < |lh| ==> c.Home(lh[k]))
      && HeadOk(c, disk[c.logStart])
    }

    /** The list and the pins agree, as between operations. */
    ghost predicate Pinned()
      reads this
    {
      forall b :: b in pinned <==> b in lh
    }

    /** What the file system sees: the cached copy of a listed block, the disk otherwise. */
    ghost function View(): map<int, Block>
      reads this
      requires c.Ok() && c.IsDisk(disk)
    {
      Overlay(HomeOf(c, disk), pinned)
    }

    /** Power-on. */
    constructor (c: Layout, disk: seq<Block>)
      requires IsRecoverable(c, disk)
      ensures Valid() && this.c == c && this.disk == disk && trace == [disk] && lh == [] && pinned == map[]
    {
      this.c, this.disk, this.lh, this.pinned := c, disk, [], map[];
      this.trace := [disk];
    }

    method Bwrite(b: int, data: Block)
      requires c.Ok() && c.IsDisk(disk) && 0 <= b < c.size
      modifies `disk, `trace
      ensures disk == old(disk)[b := data] && trace == old(trace) + [disk]
    {
      disk := disk[b := data];
      trace := trace + [disk];
    }

    /** log_write: absorb a block already listed, otherwise pin it and list it. */
    method LogWrite(b: int, data: Block)
      requires Valid() && Pinned() && c.Home(b)
      requires |lh| < LOGSIZE && |lh| < c.nlog - 1
      modifies `lh, `pinned
      ensures Valid() && Pinned() && View() == old(View())[b := data]
      ensures lh == if b in old(lh) then old(lh) else old(lh) + [b]
    {
      var i := 0;
      while i < |lh|
        invariant 0 <= i <= |lh|
        invariant b !in lh[..i]
      {
        if lh[i] == b { break; }
        i := i + 1;
      }
      if i == |lh| {
        lh := lh + [b];
      }
      pinned := pinned[b := data];
    }

    /** Copy the listed blocks from the cache to the log slots. */
    method WriteLog()
      requires Valid() && Pinned() && Head(disk[c.logStart]) == []
      modifies `disk, `trace
      ensures Valid() && |old(trace)| <= |trace| && old(trace) == trace[..|old(trace)|]
      ensures forall k :: 0 <= k < |lh| ==> disk[c.Slot(k)] == pinned[lh[k]]
      ensures disk[c.logStart] == old(disk[c.logStart])
      ensures HomeOf(c, disk) == old(HomeOf(c, disk))
      ensures Exposed(c, trace, |old(trace)|, |trace|, old(HomeOf(c, disk)))
    {
      ghost var n := |trace|;
      var tail := 0;
      while tail < |lh|
        invariant 0 <= tail <= |lh| && Valid() && n <= |trace| && trace[..n] == old(trace)
        invariant disk[c.logStart] == old(disk[c.logStart])
        invariant HomeOf(c, disk) == old(HomeOf(c, disk))
        invariant forall k :: 0 <= k < tail ==> disk[c.Slot(k)] == pinned[lh[k]]
        invariant Exposed(c, trace, n, |trace|, old(HomeOf(c, disk)))
      {
        assert lh[tail] in pinned;
        Bwrite(c.Slot(tail), pinned[lh[tail]]);
        EmptyLogReplay(c, disk);
        assert trace[..n] == old(trace);
        assert forall b :: c.Home(b) ==> HomeOf(c, disk)[b] == old(HomeOf(c, disk))[b];
        tail := tail + 1;
      }
    }

    /** The one write that commits, or erases, the list. */
    method WriteHead()
      requires Valid()
      modifies `disk, `trace
      ensures Valid() && trace == old(trace) + [disk]
      ensures Head(disk[c.logStart]) == lh
      ensures forall b :: 0 <= b < c.size && b != c.logStart ==> disk[b] == old(disk)[b]
      ensures HomeOf(c, disk) == old(HomeOf(c, disk))
    {
      ghost var was: seq<int> := disk[c.logStart];
      var hb: seq<int> := disk[c.logStart];
      hb := hb[0 := |lh|];
      for i := 0 to |lh|
        invariant hb == [|lh|] + lh[..i] + was[1 + i..]
      {
        hb := hb[1 + i := lh[i]];
      }
      assert hb == PutHead(was, lh);
      HeadRoundTrip(was, lh);
      ListHeadOk(c, hb, lh);
      Bwrite(c.logStart, hb);
    }

    /** Copy the committed blocks from the log slots to their home locations. */
    method InstallTrans(recovering: bool)
      requires Valid() && Head(disk[c.logStart]) == lh
      modifies `disk, `trace, `pinned
      ensures Valid() && |old(trace)| <= |trace| && trace[..|old(trace)|] == old(trace)
      ensures Head(disk[c.logStart]) == lh
      ensures Replay(c, disk) == old(Replay(c, disk)) && HomeOf(c, disk) == Replay(c, disk)
      ensures Exposed(c, trace, |old(trace)|, |trace|, old(Replay(c, disk)))
      ensures recovering ==> pinned == old(pinned)
      ensures !recovering ==> forall b :: b in pinned <==> b in old(pinned) && b !in lh
    {
      ghost var n := |trace|;
      var tail := 0;
      while tail < |lh|
        invariant 0 <= tail <= |lh| && Valid() && n <= |trace| && trace[..n] == old(trace)
        invariant Head(disk[c.logStart]) == lh
        invariant Replay(c, disk) == old(Replay(c, disk))
        invariant forall k :: 0 <= k < tail ==> disk[lh[k]] == disk[c.Slot(k)]
        invariant Exposed(c, trace, n, |trace|, old(Replay(c, disk)))
        invariant recovering ==> pinned == old(pinned)
        invariant !recovering ==> forall b :: b in pinned <==> b in old(pinned) && b !in lh[..tail]
      {
        ReplayIgnores(c, disk, tail, disk[c.Slot(tail)]);
        Bwrite(lh[tail], disk[c.Slot(tail)]);
        assert trace[..n] == old(trace);
        if !recovering {
          pinned := pinned - {lh[tail]};  // bunpin
        }
        tail := tail + 1;
      }
      InstalledReplay(c, disk);
    }

    /** At every disk write before the header, a crash loses the whole transaction; from the
        header write on, it loses nothing. */
    method Commit()
      requires Valid() && Pinned() && Head(disk[c.logStart]) == []
      modifies `disk, `trace, `lh, `pinned
      ensures Valid() && Pinned() && lh == [] && Head(disk[c.logStart]) == []
      ensures HomeOf(c, disk) == View() == old(View())
      ensures |old(trace)| <= |trace| && trace[..|old(trace)|] == old(trace)
      ensures old(lh) != [] ==>
        AllOrNothing(c, trace, |old(trace)|, old(HomeOf(c, disk)), old(View()), old(lh))
      ensures old(lh) == [] ==> trace == old(trace)
    {
      ghost var home, view := HomeOf(c, disk), View();
      if |lh| > 0 {
        WriteLog();
        ghost var k := |trace|;
        ghost var before := trace;
        WriteHead();
        CommittedReplay(c, disk, lh, pinned);
        ghost var record := trace;
        InstallTrans(false);
        ghost var installed := trace;
        lh := [];
        WriteHead();
        EmptyLogReplay(c, disk);
        assert pinned == map[];
        OverlayNothing(HomeOf(c, disk));
        CommitTrace(c, before, record, installed, trace, |old(trace)|, home, view, old(lh));
      } else {
        assert lh == [];
        assert forall b :: b in pinned ==> b in lh;
        assert pinned == map[];
        OverlayNothing(HomeOf(c, disk));
      }
    }

    method ReadHead()
      requires Valid()
      modifies `lh
      ensures Valid() && lh == Head(disk[c.logStart])
    {
      var hb: seq<int> := disk[c.logStart];
      lh := [];
      for i := 0 to hb[0]
        invariant lh == Head(hb)[..i]
      {
        lh := lh + [hb[1 + i]];
      }
      forall k | 0 <= k < |lh| ensures c.Home(lh[k]) { assert lh[k] == disk[c.logStart][1 + k]; }
    }

    /** Recovery makes the committed contents the home contents, and a crash at any of its own
        writes leaves a disk that recovers to the same contents. */
    method RecoverFromLog()
      requires Valid() && pinned == map[]
      modifies `disk, `trace, `lh, `pinned
      ensures Valid() && lh == [] && pinned == map[] && Head(disk[c.logStart]) == []
      ensures HomeOf(c, disk) == old(Replay(c, disk))
      ensures |old(trace)| <= |trace| && trace[..|old(trace)|] == old(trace)
      ensures Exposed(c, trace, |old(trace)|, |trace|, old(Replay(c, disk)))
    {
      ReadHead();
      InstallTrans(true);
      ghost var installed := trace;
      lh := [];
      WriteHead();
      EmptyLogReplay(c, disk);
      assert HomeOf(c, disk) == old(Replay(c, disk));
      assert forall t :: 0 <= t < |installed| ==> trace[t] == installed[t];
    }
  }

  /** The home blocks under the cached contents of the pinned ones. */
  function Overlay(home: map<int, Block>, pinned: map<int, Block>): map<int, Block> {
    map b | b in home :: if b in pinned then pinned[b] else home[b]
  }

  lemma OverlayNothing(home: map<int, Block>)
    ensures Overlay(home, map[]) == home
  {
  }

  /** Every disk in this stretch of the trace recovers to m. */
  ghost predicate Exposed(c: Layout, trace: seq<seq<Block>>, from: nat, to: nat, m: map<int, Block>) {
    from <= to <= |trace| && forall t :: from <= t < to ==> IsRecoverable(c, trace[t]) && Replay(c, trace[t]) == m
  }

  /** After the first n disks: up to some point a crash loses everything, and from the disk on
      whose header lists h it loses nothing. */
  ghost predicate AllOrNothing(c: Layout, trace: seq<seq<Block>>, n: nat, home: map<int, Block>,
                               view: map<int, Block>, h: seq<int>) {
    exists k :: n <= k < |trace| && Exposed(c, trace, n, k, home) && Exposed(c, trace, k, |trace|, view)
      && Head(trace[k][c.logStart]) == h
  }

  lemma CommitTrace(c: Layout, before: seq<seq<Block>>, record: seq<seq<Block>>, installed: seq<seq<Block>>,
                    trace: seq<seq<Block>>, n: nat, home: map<int, Block>, view: map<int, Block>, h: seq<int>)
    requires Exposed(c, before, n, |before|, home)
    requires |record| == |before| + 1 && record[..|before|] == before
    requires Exposed(c, record, |before|, |record|, view) && Head(record[|before|][c.logStart]) == h
    requires |record| <= |installed| && installed[..|record|] == record
    requires Exposed(c, installed, |record|, |installed|, view)
    requires |trace| == |installed| + 1 && trace[..|installed|] == installed
    requires Exposed(c, trace, |installed|, |trace|, view)
    ensures AllOrNothing(c, trace, n, home, view, h)
  {
    var k := |before|;
    assert forall t :: 0 <= t < |installed| ==> trace[t] == installed[t];
    assert forall t :: 0 <= t < |record| ==> installed[t] == record[t];
    assert forall t :: 0 <= t < |before| ==> record[t] == before[t];
    assert Exposed(c, trace, n, k, home);
    assert Exposed(c, trace, k, |trace|, view);
  }

  /** A block that holds a valid list is a good header. */
  lemma ListHeadOk(c: Layout, b: Block, h: seq<int>)
    requires |h| <= LOGSIZE && |h| < c.nlog && Distinct(h) && (forall k :: 0 <= k < |h| ==> c.Home(h[k]))
    requires b[0] == |h| && Head(b) == h
    ensures HeadOk(c, b)
  {
    forall k | 1 <= k <= b[0] ensures c.Home(b[k]) {
      assert b[k] == Head(b)[k - 1];
    }
  }

  lemma EmptyLogReplay(c: Layout, d: seq<Block>)
    requires IsRecoverable(c, d) && Head(d[c.logStart]) == []
    ensures Replay(c, d) == HomeOf(c, d)
  {
  }

  lemma InstalledReplay(c: Layout, d: seq<Block>)
    requires IsRecoverable(c, d)
    requires forall k ::
      0 <= k < |Head(d[c.logStart])| && c.Home(Head(d[c.logStart])[k]) && c.Slot(k) < c.size ==>
      d[Head(d[c.logStart])[k]] == d[c.Slot(k)]
    ensures Replay(c, d) == HomeOf(c, d)
  {
    var h := Head(d[c.logStart]);
    forall b | 0 <= b < c.size && c.Home(b) ensures ReplayAt(c, d, b) == d[b] {
      var k := Find(h, b);
      if 0 <= k {
        assert h[k] == b && c.Slot(k) < c.size;
      }
    }
  }

  /** Log slots that hold the pinned contents replay to the view. */
  lemma CommittedReplay(c: Layout, d: seq<Block>, h: seq<int>, pinned: map<int, Block>)
    requires IsRecoverable(c, d) && Head(d[c.logStart]) == h
    requires forall b :: b in pinned <==> b in h
    requires forall k :: 0 <= k < |h| && h[k] in pinned && 0 <= c.Slot(k) < c.size ==> d[c.Slot(k)] == pinned[h[k]]
    ensures Replay(c, d) == Overlay(HomeOf(c, d), pinned)
  {
    forall b | 0 <= b < c.size && c.Home(b) ensures ReplayAt(c, d, b) == Overlay(HomeOf(c, d), pinned)[b] {
      var k := Find(h, b);
      if 0 <= k {
        assert h[k] in pinned && 0 <= c.Slot(k) < c.size;
      }
    }
  }
}

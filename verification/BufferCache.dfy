/** bio.c: bget finds the one buffer of a block or recycles the least recently used free one; brelse
    moves a buffer that becomes free to the front.  Buffers, pins and disk together are one map from
    blocks to contents, which only a holder's own change ever changes. */
module BufferCache {
  import opened Blocks

  /** struct buf; prev and next are indices, owner is the process that has the sleeplock. */
  datatype Node = Node(dev: int, blockno: int, valid: bool, refcnt: int, prev: nat, next: nat, data: Block, owner: int)

  const FREE := -1

  const HEAD := NBUF

  /** Where a walk over `order` that starts and ends at the list head goes next. */
  function After(order: seq<nat>, k: int): nat
    requires -1 <= k < |order|
  {
    if k + 1 < |order| then order[k + 1] else HEAD
  }

  function Before(order: seq<nat>, k: int): nat
    requires 0 <= k <= |order|
  {
    if 0 < k then order[k - 1] else HEAD
  }

  ghost predicate IsOrder(order: seq<nat>) {
    && (forall k :: 0 <= k < |order| ==> order[k] < NBUF)
    && (forall j, k :: 0 <= j < k < |order| ==> order[j] != order[k])
  }

  /** The buffers' list: both directions follow `order`. */
  ghost predicate Linked(buf: seq<Node>, order: seq<nat>) {
    && |buf| == NBUF + 1 && IsOrder(order)
    && buf[HEAD].next == After(order, -1) && buf[HEAD].prev == Before(order, |order|)
    && (forall k {:trigger After(order, k)} :: 0 <= k < |order| ==> buf[order[k]].next == After(order, k))
    && (forall k {:trigger Before(order, k)} :: 0 <= k < |order| ==> buf[order[k]].prev == Before(order, k))
  }

  predicate Matches(f: Node, dev: int, blockno: int) {
    f.dev == dev && f.blockno == blockno
  }

  ghost predicate IsCached(buf: seq<Node>, dev: int, blockno: int) {
    exists i :: 0 <= i < |buf| && i < NBUF && Matches(buf[i], dev, blockno)
  }

  /** At most one buffer per block of a real device. */
  ghost predicate OnePerBlock(buf: seq<Node>) {
    forall i, j :: 0 <= i < j < |buf| && i < NBUF && j < NBUF && buf[i].dev != 0
      ==> !Matches(buf[j], buf[i].dev, buf[i].blockno)
  }

  function Without(order: seq<nat>, k: nat): seq<nat>
    requires k < |order|
  {
    order[..k] + order[k + 1..]
  }

  /** b->next->prev = b->prev; b->prev->next = b->next. */
  function Unlink(buf: seq<Node>, b: nat): seq<Node>
    requires b < |buf| && buf[b].next < |buf| && buf[b].prev < |buf|
  {
    var b1 := buf[buf[b].next := buf[buf[b].next].(prev := buf[b].prev)];
    b1[b1[b].prev := b1[b1[b].prev].(next := b1[b].next)]
  }

  /** b->next = head.next; b->prev = &head; head.next->prev = b; head.next = b. */
  function Insert(buf: seq<Node>, b: nat): seq<Node>
    requires b < NBUF && |buf| == NBUF + 1 && buf[HEAD].next < |buf|
  {
    var b1 := buf[b := buf[b].(next := buf[HEAD].next, prev := HEAD)];
    var b2 := b1[b1[HEAD].next := b1[b1[HEAD].next].(prev := b)];
    b2[HEAD := b2[HEAD].(next := b)]
  }

  lemma UnlinkFields(buf: seq<Node>, x: nat)
    requires x < |buf| && buf[x].next < |buf| && buf[x].prev < |buf|
    requires buf[x].next != x && buf[x].prev != x
    ensures |Unlink(buf, x)| == |buf|
    ensures forall y :: 0 <= y < |buf| ==>
      Unlink(buf, x)[y].next == if y == buf[x].prev then buf[x].next else buf[y].next
    ensures forall y :: 0 <= y < |buf| ==>
      Unlink(buf, x)[y].prev == if y == buf[x].next then buf[x].prev else buf[y].prev
    ensures forall y :: 0 <= y < |buf| ==>
      Unlink(buf, x)[y].(next := 0, prev := 0) == buf[y].(next := 0, prev := 0)
  {
  }

  lemma InsertFields(buf: seq<Node>, x: nat)
    requires x < NBUF && |buf| == NBUF + 1 && buf[HEAD].next < |buf| && buf[HEAD].next != x
    ensures |Insert(buf, x)| == |buf|
    ensures forall y :: 0 <= y < |buf| ==>
      Insert(buf, x)[y].next == if y == HEAD then x else if y == x then buf[HEAD].next else buf[y].next
    ensures forall y :: 0 <= y < |buf| ==>
      Insert(buf, x)[y].prev == if y == buf[HEAD].next then x else if y == x then HEAD else buf[y].prev
    ensures forall y :: 0 <= y < |buf| ==>
      Insert(buf, x)[y].(next := 0, prev := 0) == buf[y].(next := 0, prev := 0)
  {
  }

  /** A listed buffer's neighbours are list elements or the head, not itself. */
  lemma Neighbours(buf: seq<Node>, order: seq<nat>, k: nat)
    requires Linked(buf, order) && k < |order|
    ensures order[k] < NBUF && buf[order[k]].next < |buf| && buf[order[k]].prev < |buf|
    ensures buf[order[k]].next != order[k] && buf[order[k]].prev != order[k]
    ensures buf[order[k]].next == After(order, k) && buf[order[k]].prev == Before(order, k)
  {
    assert buf[order[k]].next == After(order, k);
    assert buf[order[k]].prev == Before(order, k);
  }

  lemma WithoutAt(order: seq<nat>, k: nat, j: nat) returns (i: nat)
    requires IsOrder(order) && k < |order| && j < |order| - 1
    ensures i == if j < k then j else j + 1
    ensures Without(order, k)[j] == order[i]
    ensures After(Without(order, k), j) == if i == k - 1 then After(order, k) else After(order, i)
    ensures Before(Without(order, k), j) == if i == k + 1 then Before(order, k) else Before(order, i)
  {
    i := if j < k then j else j + 1;
  }

  lemma WithoutIsOrder(order: seq<nat>, k: nat)
    requires IsOrder(order) && k < |order|
    ensures IsOrder(Without(order, k)) && order[k] !in Without(order, k)
  {
  }

  lemma UnlinkNext(buf: seq<Node>, order: seq<nat>, k: nat, j: nat)
    requires Linked(buf, order) && k < |order| && j < |order| - 1
    requires order[k] < |buf| && buf[order[k]].next < |buf| && buf[order[k]].prev < |buf|
    requires Without(order, k)[j] < |buf|
    ensures Unlink(buf, order[k])[Without(order, k)[j]].next == After(Without(order, k), j)
  {
    Neighbours(buf, order, k);
    UnlinkFields(buf, order[k]);
    var i := WithoutAt(order, k, j);
    assert buf[order[i]].next == After(order, i);
    assert order[i] == Before(order, k) <==> i == k - 1;
  }

  lemma UnlinkPrev(buf: seq<Node>, order: seq<nat>, k: nat, j: nat)
    requires Linked(buf, order) && k < |order| && j < |order| - 1
    requires order[k] < |buf| && buf[order[k]].next < |buf| && buf[order[k]].prev < |buf|
    requires Without(order, k)[j] < |buf|
    ensures Unlink(buf, order[k])[Without(order, k)[j]].prev == Before(Without(order, k), j)
  {
    Neighbours(buf, order, k);
    UnlinkFields(buf, order[k]);
    var i := WithoutAt(order, k, j);
    assert buf[order[i]].prev == Before(order, i);
    assert order[i] == After(order, k) <==> i == k + 1;
  }

  lemma UnlinkHead(buf: seq<Node>, order: seq<nat>, k: nat)
    requires Linked(buf, order) && k < |order|
    requires order[k] < |buf| && buf[order[k]].next < |buf| && buf[order[k]].prev < |buf|
    ensures Unlink(buf, order[k])[HEAD].next == After(Without(order, k), -1)
    ensures Unlink(buf, order[k])[HEAD].prev == Before(Without(order, k), |order| - 1)
  {
    Neighbours(buf, order, k);
    UnlinkFields(buf, order[k]);
  }

  lemma UnlinkKeepsOrder(buf: seq<Node>, order: seq<nat>, k: nat)
    requires Linked(buf, order) && k < |order|
    requires order[k] < |buf| && buf[order[k]].next < |buf| && buf[order[k]].prev < |buf|
    ensures Linked(Unlink(buf, order[k]), Without(order, k))
  {
    WithoutIsOrder(order, k);
    UnlinkHead(buf, order, k);
    forall j | 0 <= j < |order| - 1
      ensures Unlink(buf, order[k])[Without(order, k)[j]].next == After(Without(order, k), j)
      ensures Unlink(buf, order[k])[Without(order, k)[j]].prev == Before(Without(order, k), j)
    {
      UnlinkNext(buf, order, k, j);
      UnlinkPrev(buf, order, k, j);
    }
  }

  lemma ConsAt(order: seq<nat>, x: nat, j: nat)
    requires j < |order|
    ensures ([x] + order)[j + 1] == order[j]
    ensures After([x] + order, j + 1) == After(order, j)
    ensures Before([x] + order, j + 1) == if j == 0 then x else Before(order, j)
  {
  }

  lemma InsertAt(buf: seq<Node>, order: seq<nat>, x: nat, j: nat)
    requires Linked(buf, order) && x < NBUF && x !in order && j < |order| && order[j] < |buf|
    requires buf[HEAD].next < |buf| && buf[HEAD].next != x
    ensures Insert(buf, x)[order[j]].next == After([x] + order, j + 1)
    ensures Insert(buf, x)[order[j]].prev == Before([x] + order, j + 1)
  {
    InsertFields(buf, x);
    ConsAt(order, x, j);
    Neighbours(buf, order, j);
    assert order[j] == buf[HEAD].next <==> j == 0;
  }

  lemma InsertEnds(buf: seq<Node>, order: seq<nat>, x: nat)
    requires Linked(buf, order) && x < NBUF && x !in order
    ensures buf[HEAD].next < |buf| && buf[HEAD].next != x
    ensures Insert(buf, x)[HEAD].next == x && Insert(buf, x)[HEAD].prev == Before([x] + order, |order| + 1)
    ensures Insert(buf, x)[x].next == After([x] + order, 0) && Insert(buf, x)[x].prev == HEAD
  {
    assert buf[HEAD].next == After(order, -1);
    InsertFields(buf, x);
  }

  lemma ConsIsOrder(order: seq<nat>, x: nat)
    requires IsOrder(order) && x < NBUF && x !in order
    ensures IsOrder([x] + order)
  {
  }

  lemma InsertKeepsOrder(buf: seq<Node>, order: seq<nat>, x: nat)
    requires Linked(buf, order) && x < NBUF && x !in order
    ensures buf[HEAD].next < |buf| && buf[HEAD].next != x
    ensures Linked(Insert(buf, x), [x] + order)
  {
    InsertEnds(buf, order, x);
    ConsIsOrder(order, x);
    var o := [x] + order;
    forall j | 0 <= j < |o|
      ensures Insert(buf, x)[o[j]].next == After(o, j) && Insert(buf, x)[o[j]].prev == Before(o, j)
    {
      if 0 < j {
        InsertAt(buf, order, x, j - 1);
      }
    }
  }

  /** What the pointer writes of brelse do to the list. */
  lemma Relinked(buf: seq<Node>, order: seq<nat>, k: nat)
    requires Linked(buf, order) && k < |order|
    ensures order[k] < NBUF && buf[order[k]].next < |buf| && buf[order[k]].prev < |buf|
    ensures buf[order[k]].next != order[k] && buf[order[k]].prev != order[k]
    ensures var cut := Unlink(buf, order[k]);
      && |cut| == NBUF + 1 && cut[HEAD].next < |cut|
      && Linked(Insert(cut, order[k]), [order[k]] + Without(order, k)) && |Insert(cut, order[k])| == |buf|
      && forall y :: 0 <= y < |buf| ==> Insert(cut, order[k])[y].(next := 0, prev := 0) == buf[y].(next := 0, prev := 0)
  {
    Neighbours(buf, order, k);
    UnlinkFields(buf, order[k]);
    UnlinkKeepsOrder(buf, order, k);
    WithoutIsOrder(order, k);
    var cut := Unlink(buf, order[k]);
    InsertKeepsOrder(cut, Without(order, k), order[k]);
    InsertFields(cut, order[k]);
    forall y | 0 <= y < |buf| ensures Insert(cut, order[k])[y].(next := 0, prev := 0) == buf[y].(next := 0, prev := 0) {
      assert cut[y].(next := 0, prev := 0) == buf[y].(next := 0, prev := 0);
    }
  }

  /** The list goes from the buffer freed last to the one freed first. */
  ghost predicate ByRecency(order: seq<nat>, freed: seq<int>) {
    forall j, k :: 0 <= j < k < |order| && order[j] < |freed| && order[k] < |freed| ==>
      freed[order[j]] > freed[order[k]]
  }

  lemma ToFrontByRecency(order: seq<nat>, freed: seq<int>, k: nat, now: int)
    requires IsOrder(order) && ByRecency(order, freed) && |freed| == NBUF && k < |order|
    requires forall i :: 0 <= i < NBUF ==> freed[i] < now
    ensures ByRecency([order[k]] + Without(order, k), freed[order[k] := now])
  {
    var o := [order[k]] + Without(order, k);
    var f := freed[order[k] := now];
    forall i, j | 0 <= i < j < |o| && o[i] < |f| && o[j] < |f| ensures f[o[i]] > f[o[j]] {
      var b := WithoutAt(order, k, j - 1);
      if 0 < i {
        var a := WithoutAt(order, k, i - 1);
        assert a < b;
      }
    }
  }

  /** Every buffer is on the list. */
  ghost predicate Complete(order: seq<nat>) {
    |order| == NBUF && forall i: nat :: i < NBUF ==> i in order
  }

  lemma ToFrontComplete(order: seq<nat>, k: nat)
    requires Complete(order) && k < |order|
    ensures Complete([order[k]] + Without(order, k))
  {
    var o := [order[k]] + Without(order, k);
    forall i: nat | i < NBUF ensures i in o {
      assert i in order;
      var j :| 0 <= j < |order| && order[j] == i;
      if j < k {
        assert o[j + 1] == i;
      } else if k < j {
        assert o[j] == i;
      }
    }
  }

  ghost predicate Stamped(order: seq<nat>, freed: seq<int>, clock: int) {
    |freed| == NBUF && ByRecency(order, freed) && forall i :: 0 <= i < NBUF ==> freed[i] < clock
  }

  /** refcnt counts the processes that use the buffer or wait for it, and the log's pins. */
  predicate RefOk(f: Node, users: multiset<nat>, pins: nat) {
    && f.refcnt == |users| + pins && (f.refcnt > 0 ==> f.dev != 0)
    && (f.owner != FREE ==> 0 <= f.owner && f.owner in users)
  }

  ghost predicate RefsOk(buf: seq<Node>, users: seq<multiset<nat>>, pins: seq<nat>) {
    && |users| == |pins| == NBUF && |buf| == NBUF + 1
    && forall i: nat {:trigger RefOk(buf[i], users[i], pins[i])} :: i < NBUF ==> RefOk(buf[i], users[i], pins[i])
  }

  type Disk = map<(int, int), Block>

  function Key(f: Node): (int, int) {
    (f.dev, f.blockno)
  }

  /** A valid buffer that is neither locked nor pinned equals its disk block. */
  predicate CleanOk(f: Node, pins: nat, disk: Disk) {
    f.valid ==> f.dev != 0 && Key(f) in disk && (f.owner == FREE && pins == 0 ==> f.data == disk[Key(f)])
  }

  ghost predicate Clean(buf: seq<Node>, pins: seq<nat>, disk: Disk) {
    && |pins| == NBUF && |buf| == NBUF + 1
    && forall i: nat {:trigger CleanOk(buf[i], pins[i], disk)} :: i < NBUF ==> CleanOk(buf[i], pins[i], disk)
  }

  predicate Holds(f: Node, k: (int, int)) {
    f.valid && Key(f) == k
  }

  /** The contents of block k: those of the valid buffer that has it, or else those on disk. */
  ghost predicate ViewAt(buf: seq<Node>, disk: Disk, view: Disk, k: (int, int))
    requires k in disk && k in view && |buf| == NBUF + 1
  {
    && (forall i: nat {:trigger Holds(buf[i], k)} :: i < NBUF && Holds(buf[i], k) ==> view[k] == buf[i].data)
    && ((forall i: nat {:trigger Holds(buf[i], k)} :: i < NBUF ==> !Holds(buf[i], k)) ==> view[k] == disk[k])
  }

  ghost predicate Views(buf: seq<Node>, disk: Disk, view: Disk) {
    && |buf| == NBUF + 1 && view.Keys == disk.Keys
    && forall k {:trigger ViewAt(buf, disk, view, k)} :: k in disk ==> ViewAt(buf, disk, view, k)
  }

  /** Buffers and disk determine the contents. */
  lemma ViewUnique(buf: seq<Node>, disk: Disk, v: Disk, w: Disk)
    requires Views(buf, disk, v) && Views(buf, disk, w)
    ensures v == w
  {
    forall k | k in disk ensures v[k] == w[k] {
      assert ViewAt(buf, disk, v, k) && ViewAt(buf, disk, w, k);
      if i: nat :| i < NBUF && Holds(buf[i], k) { assert v[k] == buf[i].data; }
    }
  }

  /** Counts, locks and list pointers are no contents. */
  lemma SameViews(buf: seq<Node>, buf': seq<Node>, disk: Disk, view: Disk)
    requires Views(buf, disk, view) && |buf'| == |buf|
    requires forall i: nat :: i < NBUF ==> buf'[i].valid == buf[i].valid && Key(buf'[i]) == Key(buf[i]) && buf'[i].data == buf[i].data
    ensures Views(buf', disk, view)
  {
    forall k | k in disk ensures ViewAt(buf', disk, view, k) {
      assert ViewAt(buf, disk, view, k);
      forall i: nat | i < NBUF ensures Holds(buf'[i], k) == Holds(buf[i], k) {}
    }
  }

  lemma OnlyOne(buf: seq<Node>, b: nat)
    requires OnePerBlock(buf) && |buf| == NBUF + 1 && b < NBUF && buf[b].dev != 0
    ensures forall i: nat :: i < NBUF && i != b ==> Key(buf[i]) != Key(buf[b])
  {
    forall i: nat | i < NBUF && i != b ensures Key(buf[i]) != Key(buf[b]) {
      assert b < i ==> !Matches(buf[i], buf[b].dev, buf[b].blockno);
      assert i < b && buf[i].dev != 0 ==> !Matches(buf[b], buf[i].dev, buf[i].blockno);
    }
  }

  /** Giving a clean buffer to another block changes no contents. */
  lemma RecycleViews(buf: seq<Node>, disk: Disk, view: Disk, b: nat, f: Node)
    requires Views(buf, disk, view) && b < NBUF && !f.valid
    requires buf[b].valid ==> Key(buf[b]) in disk && buf[b].data == disk[Key(buf[b])]
    requires OnePerBlock(buf) && (buf[b].valid ==> buf[b].dev != 0)
    ensures Views(buf[b := f], disk, view)
  {
    var buf' := buf[b := f];
    forall k | k in disk ensures ViewAt(buf', disk, view, k) {
      assert ViewAt(buf, disk, view, k);
      if Holds(buf[b], k) {
        assert view[k] == disk[k];
        OnlyOne(buf, b);
        forall i: nat | i < NBUF ensures !Holds(buf'[i], k) {}
      } else {
        forall i: nat | i < NBUF ensures Holds(buf'[i], k) == Holds(buf[i], k) {}
      }
    }
  }

  /** Reading a block in changes no contents, and gives the buffer those of its block. */
  lemma FillViews(buf: seq<Node>, disk: Disk, view: Disk, b: nat, f: Node)
    requires Views(buf, disk, view) && b < NBUF && OnePerBlock(buf) && buf[b].dev != 0 && !buf[b].valid
    requires Key(f) == Key(buf[b]) && Key(f) in disk && f.valid && f.data == disk[Key(f)]
    ensures Views(buf[b := f], disk, view)
  {
    var buf' := buf[b := f];
    forall k | k in disk ensures ViewAt(buf', disk, view, k) {
      assert ViewAt(buf, disk, view, k);
      if k == Key(f) {
        OnlyOne(buf, b);
        forall i: nat | i < NBUF ensures !Holds(buf[i], k) {}
        assert Holds(buf'[b], k);
      } else {
        forall i: nat | i < NBUF ensures Holds(buf'[i], k) == Holds(buf[i], k) {}
      }
    }
  }

  /** Writing a buffer out changes no contents. */
  lemma WriteViews(buf: seq<Node>, disk: Disk, view: Disk, b: nat)
    requires Views(buf, disk, view) && b < NBUF && buf[b].valid && Key(buf[b]) in disk
    ensures Views(buf, disk[Key(buf[b]) := buf[b].data], view)
  {
    var disk' := disk[Key(buf[b]) := buf[b].data];
    forall k | k in disk' ensures ViewAt(buf, disk', view, k) {
      assert ViewAt(buf, disk, view, k);
      assert k == Key(buf[b]) ==> Holds(buf[b], k);
    }
  }

  /** Changing a buffer changes the contents of its block, and of no other. */
  lemma ChangeViews(buf: seq<Node>, disk: Disk, view: Disk, b: nat, data: Block)
    requires Views(buf, disk, view) && b < NBUF && OnePerBlock(buf) && buf[b].dev != 0 && buf[b].valid && Key(buf[b]) in disk
    ensures Views(buf[b := buf[b].(data := data)], disk, view[Key(buf[b]) := data])
  {
    var buf', view' := buf[b := buf[b].(data := data)], view[Key(buf[b]) := data];
    forall k | k in disk ensures ViewAt(buf', disk, view', k) {
      assert ViewAt(buf, disk, view, k);
      if k == Key(buf[b]) {
        OnlyOne(buf, b);
        forall i: nat | i < NBUF && i != b ensures !Holds(buf'[i], k) {}
        assert Holds(buf'[b], k);
      } else {
        forall i: nat | i < NBUF ensures Holds(buf'[i], k) == Holds(buf[i], k) {}
      }
    }
  }

  /** A valid buffer has its block's contents. */
  lemma ViewOf(buf: seq<Node>, disk: Disk, view: Disk, b: nat)
    requires Views(buf, disk, view) && b < NBUF && buf[b].valid && Key(buf[b]) in disk
    ensures Key(buf[b]) in view && view[Key(buf[b])] == buf[b].data
  {
    assert ViewAt(buf, disk, view, Key(buf[b])) && Holds(buf[b], Key(buf[b]));
  }

  /** Changing a buffer but not its pointers. */
  lemma PatchKeepsOrder(buf: seq<Node>, order: seq<nat>, b: nat, f: Node)
    requires Linked(buf, order) && b < NBUF && f.prev == buf[b].prev && f.next == buf[b].next
    ensures Linked(buf[b := f], order)
  {
  }

  lemma PatchKeepsBlocks(buf: seq<Node>, b: nat, f: Node)
    requires OnePerBlock(buf) && b < NBUF < |buf|
    requires Matches(f, buf[b].dev, buf[b].blockno)
      || (f.dev != 0 && forall i :: 0 <= i < NBUF ==> !Matches(buf[i], f.dev, f.blockno))
    ensures OnePerBlock(buf[b := f])
  {
  }

  /** Nothing but the list depends on the pointers. */
  lemma RelinkKeepsBlocks(buf: seq<Node>, buf': seq<Node>, users: seq<multiset<nat>>, pins: seq<nat>, disk: Disk, view: Disk)
    requires OnePerBlock(buf) && RefsOk(buf, users, pins) && Clean(buf, pins, disk) && Views(buf, disk, view)
    requires |buf'| == |buf| && forall y :: 0 <= y < |buf| ==> buf'[y].(next := 0, prev := 0) == buf[y].(next := 0, prev := 0)
    ensures OnePerBlock(buf') && RefsOk(buf', users, pins) && Clean(buf', pins, disk) && Views(buf', disk, view)
  {
    forall y | 0 <= y < |buf| ensures buf'[y] == buf[y].(next := buf'[y].next, prev := buf'[y].prev) {
      assert buf'[y].(next := 0, prev := 0).(next := buf'[y].next, prev := buf'[y].prev) == buf'[y];
      assert buf[y].(next := 0, prev := 0).(next := buf'[y].next, prev := buf'[y].prev) == buf[y].(next := buf'[y].next, prev := buf'[y].prev);
    }
    forall i: nat | i < NBUF ensures RefOk(buf'[i], users[i], pins[i]) && CleanOk(buf'[i], pins[i], disk) {
      assert RefOk(buf[i], users[i], pins[i]) && CleanOk(buf[i], pins[i], disk);
    }
    SameViews(buf, buf', disk, view);
  }

  /** One buffer's counts, lock and contents change. */
  lemma PatchKeepsRefs(buf: seq<Node>, users: seq<multiset<nat>>, pins: seq<nat>, disk: Disk, b: nat, f: Node, u: multiset<nat>, n: nat, disk': Disk)
    requires RefsOk(buf, users, pins) && Clean(buf, pins, disk) && b < NBUF
    requires RefOk(f, u, n) && CleanOk(f, n, disk') && disk'.Keys == disk.Keys
    requires forall i: nat :: i < NBUF && i != b && buf[i].valid && Key(buf[i]) in disk ==> disk'[Key(buf[i])] == disk[Key(buf[i])]
    ensures RefsOk(buf[b := f], users[b := u], pins[b := n]) && Clean(buf[b := f], pins[b := n], disk')
  {
    var buf', users', pins' := buf[b := f], users[b := u], pins[b := n];
    forall i: nat | i < NBUF ensures RefOk(buf'[i], users'[i], pins'[i]) && CleanOk(buf'[i], pins'[i], disk') {
      assert RefOk(buf[i], users[i], pins[i]) && CleanOk(buf[i], pins[i], disk);
    }
  }

  predicate IsBlank(f: Node) {
    f.dev == 0 && f.blockno == 0 && !f.valid && f.refcnt == 0 && f.owner == FREE
  }

  /** The first b buffers are on the list, the last one first, and none is in use. */
  ghost predicate Built(buf: seq<Node>, order: seq<nat>, b: nat) {
    && Linked(buf, order) && |order| == b <= NBUF && (forall k :: 0 <= k < b ==> order[k] == b - 1 - k)
    && forall y {:trigger IsBlank(buf[y])} :: 0 <= y <= NBUF ==> IsBlank(buf[y])
  }

  lemma BuiltStep(buf: seq<Node>, order: seq<nat>, b: nat)
    requires Built(buf, order, b) && b < NBUF
    ensures buf[HEAD].next < |buf| && Built(Insert(buf, b), [b] + order, b + 1)
  {
    InsertKeepsOrder(buf, order, b);
    InsertFields(buf, b);
    forall y | 0 <= y <= NBUF ensures IsBlank(Insert(buf, b)[y]) {
      assert IsBlank(buf[y]);
      assert Insert(buf, b)[y].(next := 0, prev := 0) == buf[y].(next := 0, prev := 0);
    }
  }

  lemma BuiltAll(buf: seq<Node>, order: seq<nat>, disk: Disk, users: seq<multiset<nat>>, pins: seq<nat>)
    requires Built(buf, order, NBUF) && users == seq(NBUF, _ => multiset{}) && pins == seq(NBUF, _ => 0)
    ensures Complete(order) && Stamped(order, seq(NBUF, i => i), NBUF)
    ensures OnePerBlock(buf) && RefsOk(buf, users, pins) && Clean(buf, pins, disk) && Views(buf, disk, disk)
  {
    forall i: nat | i < NBUF ensures i in order {
      assert order[NBUF - 1 - i] == i;
    }
    forall i: nat | i < NBUF ensures buf[i].dev == 0 && RefOk(buf[i], users[i], pins[i]) && CleanOk(buf[i], pins[i], disk) {
      assert IsBlank(buf[i]);
    }
    forall k | k in disk ensures ViewAt(buf, disk, disk, k) {
      forall i: nat | i < NBUF ensures !Holds(buf[i], k) { assert IsBlank(buf[i]); }
    }
  }

  class Bcache {
    var buf: array<Node>                   // NBUF buffers, then the list head
    var disk: Disk
    ghost var users: seq<multiset<nat>>    // for each buffer, who has called bget and not yet brelse
    ghost var pins: seq<nat>               // how often the log has pinned it
    ghost var view: Disk                   // the contents of every block
    ghost var order: seq<nat>              // the list, most recently freed first
    ghost var freed: seq<int>              // when each buffer was last freed
    ghost var clock: int

    ghost predicate Valid()
      reads this, buf
    {
      && buf.Length == NBUF + 1 && Linked(buf[..], order) && Complete(order)
      && OnePerBlock(buf[..]) && Stamped(order, freed, clock)
      && RefsOk(buf[..], users, pins) && Clean(buf[..], pins, disk) && Views(buf[..], disk, view)
    }

    /** binit */
    constructor (disk: Disk)
      ensures Valid() && fresh(buf) && this.disk == view == disk
      ensures forall i :: 0 <= i < NBUF ==> buf[i].dev == 0 && buf[i].refcnt == 0 && !buf[i].valid && buf[i].owner == FREE
    {
      buf := new Node[NBUF + 1](_ => Node(0, 0, false, 0, HEAD, HEAD, ZEROBLOCK, FREE));
      this.disk, view, order, clock := disk, disk, [], NBUF;
      freed, users, pins := seq(NBUF, i => i), seq(NBUF, _ => multiset{}), seq(NBUF, _ => 0);
      new;
      var b := 0;
      while b < NBUF
        invariant 0 <= b <= NBUF && buf.Length == NBUF + 1 && fresh(buf) && Built(buf[..], order, b)
        invariant freed == seq(NBUF, i => i) && clock == NBUF && this.disk == view == disk
        invariant users == seq(NBUF, _ => multiset{}) && pins == seq(NBUF, _ => 0)
      {
        BuiltStep(buf[..], order, b);
        InsertAtHead(b);
        order := [b] + order;
        b := b + 1;
      }
      BuiltAll(buf[..], order, disk, users, pins);
      forall i | 0 <= i < NBUF ensures buf[i].dev == 0 && buf[i].refcnt == 0 && !buf[i].valid && buf[i].owner == FREE {
        assert IsBlank(buf[..][i]);
      }
    }

    /** Put b in front of the list. */
    method InsertAtHead(b: nat)
      requires buf.Length == NBUF + 1 && b < NBUF && buf[HEAD].next < buf.Length
      modifies buf
      ensures buf[..] == Insert(old(buf[..]), b)
    {
      buf[b] := buf[b].(next := buf[HEAD].next, prev := HEAD);
      buf[buf[HEAD].next] := buf[buf[HEAD].next].(prev := b);
      buf[HEAD] := buf[HEAD].(next := b);
    }

    /** The buffer that caches the block, or -1. */
    method Lookup(dev: int, blockno: int) returns (b: int)
      requires Valid()
      ensures -1 <= b < NBUF
      ensures b >= 0 ==> Matches(buf[b], dev, blockno)
      ensures b == -1 ==> forall i :: 0 <= i < NBUF ==> !Matches(buf[..][i], dev, blockno)
    {
      b := buf[HEAD].next;
      ghost var k := 0;
      while b != HEAD
        invariant 0 <= k <= NBUF && b == After(order, k - 1)
        invariant forall j :: 0 <= j < k ==> !Matches(buf[..][order[j]], dev, blockno)
        decreases NBUF - k
      {
        if Matches(buf[b], dev, blockno) {
          return b;
        }
        assert buf[..][order[k]].next == After(order, k);
        b := buf[b].next;
        k := k + 1;
      }
      forall i: nat | i < NBUF ensures !Matches(buf[..][i], dev, blockno) {
        assert i in order;
      }
      b := -1;
    }

    /** The unused buffer that was freed longest ago, or -1. */
    method OldestFree() returns (b: int)
      requires Valid()
      ensures -1 <= b < NBUF
      ensures b >= 0 ==> buf[b].refcnt == 0
      ensures b >= 0 ==> forall i :: 0 <= i < NBUF && buf[..][i].refcnt == 0 ==> freed[b] <= freed[i]
      ensures b == -1 ==> forall i :: 0 <= i < NBUF ==> buf[..][i].refcnt != 0
    {
      b := buf[HEAD].prev;
      ghost var k := NBUF;
      while b != HEAD
        invariant 0 <= k <= NBUF && b == Before(order, k)
        invariant forall j :: k <= j < NBUF ==> buf[..][order[j]].refcnt != 0
        decreases k
      {
        if buf[b].refcnt == 0 {
          forall i | 0 <= i < NBUF && buf[..][i].refcnt == 0 ensures freed[b] <= freed[i] {
            assert i as nat in order;
            var j :| 0 <= j < |order| && order[j] == i;
          }
          return b;
        }
        assert buf[..][order[k - 1]].prev == Before(order, k - 1);
        b := buf[b].prev;
        k := k - 1;
      }
      forall i: nat | i < NBUF ensures buf[..][i].refcnt != 0 {
        assert i in order;
      }
      b := -1;
    }

    /** bget up to the sleeplock: the buffer of the block, with one more reference: the one that has it,
        or else the unused buffer that was freed longest ago.  -1 is the panic "no buffers". */
    method Bget(p: nat, dev: int, blockno: int) returns (r: int)
      requires Valid() && dev != 0
      modifies buf, `users, `pins
      ensures Valid() && -1 <= r < NBUF && pins == old(pins)
      ensures users == if r == -1 then old(users) else old(users)[r := old(users)[r] + multiset{p}]
      ensures r == -1 ==>
        && !IsCached(old(buf[..]), dev, blockno) && buf[..] == old(buf[..])
        && forall i :: 0 <= i < NBUF ==> old(buf[..])[i].refcnt != 0
      ensures r >= 0 && IsCached(old(buf[..]), dev, blockno) ==>
        && Matches(old(buf[..])[r], dev, blockno)
        && buf[..] == old(buf[..])[r := old(buf[..])[r].(refcnt := old(buf[..])[r].refcnt + 1)]
      ensures r >= 0 && !IsCached(old(buf[..]), dev, blockno) ==>
        && old(buf[..])[r].refcnt == 0 && old(buf[..])[r].owner == FREE
        && (forall i :: 0 <= i < NBUF && old(buf[..])[i].refcnt == 0 ==> freed[r] <= freed[i])
        && buf[..] == old(buf[..])[r :=
             old(buf[..])[r].(dev := dev, blockno := blockno, valid := false, refcnt := 1)]
    {
      var b := Lookup(dev, blockno);
      ghost var was := buf[..];
      if b >= 0 {
        assert Matches(was[b], dev, blockno);
        var f := buf[b].(refcnt := buf[b].refcnt + 1);
        assert RefOk(was[b], users[b], pins[b]) && CleanOk(was[b], pins[b], disk);
        Patch(b, f, users[b] + multiset{p}, pins[b]);
        return b;
      }
      b := OldestFree();
      if b >= 0 {
        var f := buf[b].(dev := dev, blockno := blockno, valid := false, refcnt := 1);
        assert RefOk(was[b], users[b], pins[b]);
        Unused(was[b], users[b], pins[b]);
        assert CleanOk(was[b], pins[b], disk);
        RecycleViews(was, disk, view, b, f);
        PatchKeepsOrder(was, order, b, f);
        PatchKeepsBlocks(was, b, f);
        PatchKeepsRefs(was, users, pins, disk, b, f, users[b] + multiset{p}, pins[b], disk);
        assert pins[b := pins[b]] == pins;
        buf[b] := f;
        users := users[b := users[b] + multiset{p}];
        assert buf[..] == was[b := f];
      }
      return b;
    }

    /** A change of one buffer's count and lock: its users and pins follow. */
    method Patch(b: nat, f: Node, ghost u: multiset<nat>, ghost n: nat)
      requires Valid() && b < NBUF && f == buf[b].(refcnt := f.refcnt, owner := f.owner)
      requires RefOk(f, u, n) && CleanOk(f, n, disk)
      modifies buf, `users, `pins
      ensures Valid() && buf[..] == old(buf[..])[b := f] && users == old(users)[b := u] && pins == old(pins)[b := n]
    {
      ghost var was := buf[..];
      PatchKeepsOrder(was, order, b, f);
      PatchKeepsBlocks(was, b, f);
      PatchKeepsRefs(was, users, pins, disk, b, f, u, n, disk);
      SameViews(was, was[b := f], disk, view);
      buf[b] := f;
      users, pins := users[b := u], pins[b := n];
      assert buf[..] == was[b := f];
    }

    /** acquiresleep(&b->lock), once nobody has it. */
    method Acquire(p: nat, b: nat)
      requires Valid() && b < NBUF && p in users[b] && buf[b].owner == FREE
      modifies buf
      ensures Valid() && buf[..] == old(buf[..])[b := old(buf[b]).(owner := p)]
    {
      ghost var was, users0, pins0 := buf[..], users, pins;
      var f := buf[b].(owner := p);
      assert RefOk(was[b], users[b], pins[b]) && CleanOk(was[b], pins[b], disk);
      PatchKeepsOrder(was, order, b, f);
      PatchKeepsBlocks(was, b, f);
      PatchKeepsRefs(was, users, pins, disk, b, f, users[b], pins[b], disk);
      SameViews(was, was[b := f], disk, view);
      assert users[b := users[b]] == users && pins[b := pins[b]] == pins;
      buf[b] := f;
      assert buf[..] == was[b := f];
    }

    /** bread's own part: the buffer gets the contents of its block. */
    method Fill(p: nat, b: nat)
      requires Valid() && b < NBUF && buf[b].owner == p && Key(buf[b]) in disk
      modifies buf
      ensures Valid() && Key(old(buf[b])) in view
      ensures buf[..] == old(buf[..])[b := old(buf[b]).(valid := true, data := view[Key(old(buf[b]))])]
    {
      ghost var was := buf[..];
      assert RefOk(was[b], users[b], pins[b]) && CleanOk(was[b], pins[b], disk);
      if !buf[b].valid {
        var f := buf[b].(valid := true, data := disk[Key(buf[b])]);
        FillViews(was, disk, view, b, f);
        PatchKeepsOrder(was, order, b, f);
        PatchKeepsBlocks(was, b, f);
        PatchKeepsRefs(was, users, pins, disk, b, f, users[b], pins[b], disk);
        assert users[b := users[b]] == users && pins[b := pins[b]] == pins;
        buf[b] := f;
        assert buf[..] == was[b := f];
      }
      ViewOf(buf[..], disk, view, b);
      assert buf[..] == was[b := was[b].(valid := true, data := view[Key(was[b])])];
    }

    /** bread, of a block nobody has locked: a locked buffer with the block's contents. */
    method Bread(p: nat, dev: int, blockno: int) returns (r: int)
      requires Valid() && dev != 0 && (dev, blockno) in disk
      requires forall i :: 0 <= i < NBUF && Matches(buf[..][i], dev, blockno) ==> buf[..][i].owner == FREE
      modifies buf, `users, `pins
      ensures Valid() && -1 <= r < NBUF && (dev, blockno) in view && pins == old(pins)
      ensures r == -1 ==>
        && buf[..] == old(buf[..]) && users == old(users) && !IsCached(old(buf[..]), dev, blockno)
        && forall i :: 0 <= i < NBUF ==> old(buf[..])[i].refcnt != 0
      ensures r >= 0 ==>
        && users == old(users)[r := old(users)[r] + multiset{p}]
        && Matches(buf[r], dev, blockno) && buf[r].owner == p && buf[r].valid && buf[r].data == view[(dev, blockno)]
        && forall i :: 0 <= i < NBUF && i != r ==> buf[..][i] == old(buf[..])[i]
    {
      r := Bget(p, dev, blockno);
      assert view.Keys == disk.Keys;
      if r >= 0 {
        LockAndFill(p, r);
      }
    }

    /** What bread does once it has a free buffer to itself. */
    method LockAndFill(p: nat, b: nat)
      requires Valid() && b < NBUF && p in users[b] && buf[b].owner == FREE && Key(buf[b]) in disk
      modifies buf
      ensures Valid() && Key(old(buf[b])) in view
      ensures buf[..] == old(buf[..])[b := old(buf[b]).(owner := p, valid := true, data := view[Key(old(buf[b]))])]
    {
      ghost var was := buf[..];
      Acquire(p, b);
      Fill(p, b);
      assert buf[..] == was[b := was[b].(owner := p, valid := true, data := view[Key(was[b])])];
    }

    /** The holder changes the contents. */
    method Change(p: nat, b: nat, data: Block)
      requires Valid() && b < NBUF && buf[b].owner == p && buf[b].valid
      modifies buf, `view
      ensures Valid() && buf[..] == old(buf[..])[b := old(buf[b]).(data := data)]
      ensures view == old(view)[Key(old(buf[b])) := data]
    {
      ghost var was := buf[..];
      var f := buf[b].(data := data);
      assert RefOk(was[b], users[b], pins[b]) && CleanOk(was[b], pins[b], disk);
      ChangeViews(was, disk, view, b, data);
      PatchKeepsOrder(was, order, b, f);
      PatchKeepsBlocks(was, b, f);
      PatchKeepsRefs(was, users, pins, disk, b, f, users[b], pins[b], disk);
      assert users[b := users[b]] == users && pins[b := pins[b]] == pins;
      view := view[Key(buf[b]) := data];
      buf[b] := f;
      assert buf[..] == was[b := f];
    }

    /** bwrite */
    method Bwrite(p: nat, b: nat)
      requires Valid() && b < NBUF && buf[b].owner == p && buf[b].valid
      modifies `disk
      ensures Valid() && disk == old(disk)[Key(buf[b]) := buf[b].data]
    {
      ghost var was := buf[..];
      assert RefOk(was[b], users[b], pins[b]) && CleanOk(was[b], pins[b], disk);
      WriteViews(was, disk, view, b);
      OnlyOne(was, b);
      PatchKeepsRefs(was, users, pins, disk, b, was[b], users[b], pins[b], disk[Key(buf[b]) := buf[b].data]);
      assert users[b := users[b]] == users && pins[b := pins[b]] == pins && was[b := was[b]] == was;
      disk := disk[Key(buf[b]) := buf[b].data];
    }

    /** brelse, by a holder whose changes, if any, are pinned or written: one reference less; a buffer that
        becomes free goes to the front of the list. */
    method Brelse(p: nat, b: nat)
      requires Valid() && b < NBUF && buf[b].owner == p
      requires buf[b].valid && pins[b] == 0 ==> Key(buf[b]) in disk && buf[b].data == disk[Key(buf[b])]
      modifies this, buf
      ensures Valid() && buf == old(buf) && disk == old(disk) && view == old(view) && pins == old(pins)
      ensures p in old(users)[b] && users == old(users)[b := old(users)[b] - multiset{p}]
      ensures forall y :: 0 <= y < NBUF && y != b ==>
        buf[..][y].(next := 0, prev := 0) == old(buf[..])[y].(next := 0, prev := 0)
      ensures buf[..][b].(next := 0, prev := 0) ==
        old(buf[..])[b].(next := 0, prev := 0, refcnt := old(buf[..])[b].refcnt - 1, owner := FREE)
      ensures old(buf[b]).refcnt > 1 ==> order == old(order) && freed == old(freed)
      ensures old(buf[b]).refcnt == 1 ==>
        && freed == old(freed)[b := old(clock)]
        && exists k :: 0 <= k < |old(order)| && old(order)[k] == b && order == [b] + Without(old(order), k)
    {
      ghost var was := buf[..];
      assert RefOk(was[b], users[b], pins[b]) && CleanOk(was[b], pins[b], disk);
      var f := buf[b].(refcnt := buf[b].refcnt - 1, owner := FREE);
      Patch(b, f, users[b] - multiset{p}, pins[b]);
      assert pins == old(pins);
      if buf[b].refcnt == 0 {
        assert b in order;
        ghost var k :| 0 <= k < |order| && order[k] == b;
        MoveToFront(b, k);
      }
    }

    /** Unlink b and put it in front. */
    method MoveToFront(b: nat, ghost k: nat)
      requires Valid() && k < |order| && order[k] == b
      modifies this, buf
      ensures Valid() && buf == old(buf) && disk == old(disk) && view == old(view) && users == old(users) && pins == old(pins)
      ensures forall y :: 0 <= y < NBUF ==>
        buf[..][y].(next := 0, prev := 0) == old(buf[..])[y].(next := 0, prev := 0)
      ensures order == [b] + Without(old(order), k) && freed == old(freed)[b := old(clock)]
    {
      ghost var was := buf[..];
      Relinked(was, order, k);
      buf[buf[b].next] := buf[buf[b].next].(prev := buf[b].prev);
      buf[buf[b].prev] := buf[buf[b].prev].(next := buf[b].next);
      assert buf[..] == Unlink(was, b);
      InsertAtHead(b);
      ToFrontByRecency(order, freed, k, clock);
      ToFrontComplete(order, k);
      RelinkKeepsBlocks(was, buf[..], users, pins, disk, view);
      order := [b] + Without(order, k);
      freed := freed[b := clock];
      clock := clock + 1;
    }

    /** bpin, of a buffer in use. */
    method Bpin(b: nat)
      requires Valid() && b < NBUF && buf[b].refcnt >= 1
      modifies buf, `users, `pins
      ensures Valid() && buf[..] == old(buf[..])[b := old(buf[b]).(refcnt := old(buf[b]).refcnt + 1)]
      ensures users == old(users) && pins == old(pins)[b := old(pins)[b] + 1]
    {
      assert RefOk(buf[..][b], users[b], pins[b]) && CleanOk(buf[..][b], pins[b], disk);
      Patch(b, buf[b].(refcnt := buf[b].refcnt + 1), users[b], pins[b] + 1);
      assert users == old(users);
    }

    /** bunpin, of a pinned buffer that someone still has, as install_trans does, and has brought home. */
    method Bunpin(b: nat)
      requires Valid() && b < NBUF && buf[b].refcnt >= 2 && pins[b] >= 1
      requires buf[b].valid && buf[b].owner == FREE && pins[b] == 1 ==> Key(buf[b]) in disk && buf[b].data == disk[Key(buf[b])]
      modifies buf, `users, `pins
      ensures Valid() && buf[..] == old(buf[..])[b := old(buf[b]).(refcnt := old(buf[b]).refcnt - 1)]
      ensures users == old(users) && pins == old(pins)[b := old(pins)[b] - 1]
    {
      assert RefOk(buf[..][b], users[b], pins[b]) && CleanOk(buf[..][b], pins[b], disk);
      Patch(b, buf[b].(refcnt := buf[b].refcnt - 1), users[b], pins[b] - 1);
      assert users == old(users);
    }
  }

  /** An unused buffer is neither locked nor pinned. */
  lemma Unused(f: Node, users: multiset<nat>, pins: nat)
    requires RefOk(f, users, pins) && f.refcnt == 0
    ensures users == multiset{} && pins == 0 && f.owner == FREE
  {
    assert |users| == 0;
  }
}

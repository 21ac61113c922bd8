/** The descriptor table and rings of virtio_disk.c, and the driver's code over them.

    An address in a descriptor says what it points at.  Sleeping and waking are steps of
    VirtioProtocol; everything here runs with vdisk_lock held. */
module VirtioDriver {
  const NUM := 8
  const WRAP := 0x1_0000     // uint16
  const BSIZE := 1024
  const NEXT := 1            // VRING_DESC_F_NEXT
  const WRITE := 2           // VRING_DESC_F_WRITE

  datatype Addr = Nowhere | Header(i: nat) | Data(b: nat) | Status(i: nat)

  datatype Desc = Desc(addr: Addr, len: nat, flags: nat, next: nat)

  /** b is the buffer number, or -1. */
  datatype Info = Info(b: int, status: nat)

  datatype Req = Req(out: bool, sector: nat)

  datatype Chain = Chain(i0: nat, i1: nat, i2: nat)

  datatype Queue = Queue(desc: seq<Desc>, free: seq<bool>, info: seq<Info>, ops: seq<Req>,
                         avail: seq<nat>, availIdx: nat, used: seq<nat>, usedIdx: nat, seen: nat)
  {
    predicate Shape() {
      && |desc| == |free| == |info| == |ops| == |avail| == |used| == NUM
      && availIdx < WRAP && usedIdx < WRAP && seen < WRAP
    }
  }

  predicate Three(free: seq<bool>, c: Chain) {
    && c.i0 < |free| && c.i1 < |free| && c.i2 < |free|
    && c.i0 != c.i1 && c.i0 != c.i2 && c.i1 != c.i2
  }

  predicate AllFree(free: seq<bool>, c: Chain) {
    Three(free, c) && free[c.i0] && free[c.i1] && free[c.i2]
  }

  function CountFree(free: seq<bool>): nat {
    if free == [] then 0 else (if free[0] then 1 else 0) + CountFree(free[1..])
  }

  lemma {:induction false} CountUpdate(free: seq<bool>, i: nat, v: bool)
    requires i < |free|
    ensures CountFree(free[i := v]) == CountFree(free) - (if free[i] then 1 else 0) + (if v then 1 else 0)
  {
    if i == 0 {
      assert free[i := v][1..] == free[1..];
    } else {
      CountUpdate(free[1..], i - 1, v);
      assert free[i := v][1..] == free[1..][i - 1 := v];
    }
  }

  lemma {:induction false} CountNone(free: seq<bool>)
    ensures CountFree(free) == 0 <==> forall i :: 0 <= i < |free| ==> !free[i]
  {
    if free != [] {
      CountNone(free[1..]);
      assert free == [free[0]] + free[1..];
    }
  }

  // ---------------------------------------------------------------- what a request does to the queue

  function Taken(free: seq<bool>, c: Chain): seq<bool>
    requires Three(free, c)
  {
    free[c.i0 := false][c.i1 := false][c.i2 := false]
  }

  function Freed(free: seq<bool>, c: Chain): seq<bool>
    requires Three(free, c)
  {
    free[c.i0 := true][c.i1 := true][c.i2 := true]
  }

  /** The three descriptors of one request, as the device finds them. */
  predicate Formatted(q: Queue, c: Chain, b: nat, out: bool, blockno: nat)
    requires q.Shape()
  {
    && Three(q.free, c)
    && q.desc[c.i0] == Desc(Header(c.i0), 16, NEXT, c.i1)
    && q.desc[c.i1] == Desc(Data(b), BSIZE, if out then NEXT else WRITE + NEXT, c.i2)
    && q.desc[c.i2] == Desc(Status(c.i0), 1, WRITE, 0)
    && q.ops[c.i0] == Req(out, blockno * (BSIZE / 512))
    && q.info[c.i0].b == b
  }

  function Publish(q: Queue, c: Chain, b: nat, out: bool, blockno: nat): (r: Queue)
    requires q.Shape() && Three(q.free, c)
  {
    q.(free := Taken(q.free, c),
       desc := q.desc[c.i0 := Desc(Header(c.i0), 16, NEXT, c.i1)]
                     [c.i1 := Desc(Data(b), BSIZE, if out then NEXT else WRITE + NEXT, c.i2)]
                     [c.i2 := Desc(Status(c.i0), 1, WRITE, 0)],
       ops := q.ops[c.i0 := Req(out, blockno * (BSIZE / 512))],
       info := q.info[c.i0 := Info(b, 0xff)],
       avail := q.avail[q.availIdx % NUM := c.i0],
       availIdx := (q.availIdx + 1) % WRAP)
  }

  function Retire(q: Queue, c: Chain): (r: Queue)
    requires q.Shape() && Three(q.free, c)
  {
    var clear := Desc(Nowhere, 0, 0, 0);
    q.(free := Freed(q.free, c),
       desc := q.desc[c.i0 := clear][c.i1 := clear][c.i2 := clear],
       info := q.info[c.i0 := q.info[c.i0].(b := -1)])
  }

  /** A chain as free_chain walks it. */
  ghost predicate Walks(desc: seq<Desc>, l: seq<nat>)
    requires |desc| == NUM
  {
    && l != [] && l[0] < NUM && l[0] !in l[1..]
    && (if |l| == 1 then desc[l[0]].flags % 2 != NEXT
        else desc[l[0]].flags % 2 == NEXT && desc[l[0]].next == l[1] && Walks(desc, l[1..]))
  }

  lemma {:induction false} WalksOn(desc: seq<Desc>, desc': seq<Desc>, l: seq<nat>)
    requires |desc| == |desc'| == NUM && Walks(desc, l) && forall i :: 0 <= i < NUM && i in l ==> desc'[i] == desc[i]
    ensures Walks(desc', l)
  {
    if |l| > 1 { WalksOn(desc, desc', l[1..]); }
  }

  class Disk {
    const desc: array<Desc>
    const free: array<bool>
    const info: array<Info>
    const ops: array<Req>
    const avail: array<nat>
    const used: array<nat>
    var availIdx: nat
    var usedIdx: nat
    var seen: nat
    const onDisk: array<bool>   // b->disk, for each buffer

    ghost predicate Valid()
      reads this
    {
      && desc.Length == free.Length == info.Length == ops.Length == avail.Length == used.Length == NUM
      && availIdx < WRAP && usedIdx < WRAP && seen < WRAP && avail != used && free != onDisk
    }

    ghost function Q(): (q: Queue)
      requires Valid()
      reads this, desc, free, info, ops, avail, used
      ensures q.Shape()
    {
      Queue(desc[..], free[..], info[..], ops[..], avail[..], availIdx, used[..], usedIdx, seen)
    }

    /** virtio_disk_init, as far as the queue goes. */
    constructor (nbuf: nat)
      ensures Valid() && fresh(desc) && fresh(free) && fresh(info) && fresh(ops) && fresh(avail) && fresh(used)
      ensures fresh(onDisk) && onDisk.Length == nbuf
      ensures forall i :: 0 <= i < NUM ==> Q().free[i]
      ensures availIdx == usedIdx == seen == 0
    {
      desc := new Desc[NUM](_ => Desc(Nowhere, 0, 0, 0));
      free := new bool[NUM](_ => true);
      info := new Info[NUM](_ => Info(-1, 0));
      ops := new Req[NUM](_ => Req(false, 0));
      avail := new nat[NUM](_ => 0);
      used := new nat[NUM](_ => 0);
      onDisk := new bool[nbuf](_ => false);
      availIdx, usedIdx, seen := 0, 0, 0;
    }

    /** alloc_desc: the lowest free descriptor, or -1 when there is none. */
    method AllocDesc() returns (d: int)
      requires Valid()
      modifies free
      ensures d < 0 ==> free[..] == old(free[..]) && CountFree(free[..]) == 0
      ensures d >= 0 ==> d < NUM && old(free[d]) && free[..] == old(free[..])[d := false]
      ensures d >= 0 ==> forall j :: 0 <= j < d ==> !free[j]
    {
      for i := 0 to NUM
        invariant free[..] == old(free[..]) && forall j :: 0 <= j < i ==> !free[j]
      {
        if free[i] {
          free[i] := false;
          return i;
        }
      }
      CountNone(free[..]);
      return -1;
    }

    method FreeDesc(i: nat)
      requires Valid() && i < NUM && !free[i]
      modifies free, desc
      ensures free[..] == old(free[..])[i := true] && desc[..] == old(desc[..])[i := Desc(Nowhere, 0, 0, 0)]
    {
      desc[i] := Desc(Nowhere, 0, 0, 0);
      free[i] := true;
    }

    /** free_chain: exactly the descriptors of the chain become free, and free_desc never panics. */
    method FreeChain(head: nat, ghost l: seq<nat>)
      requires Valid() && Walks(desc[..], l) && l[0] == head && forall i :: 0 <= i < NUM && i in l ==> !free[i]
      modifies free, desc
      ensures forall i :: 0 <= i < NUM ==> free[i] == (old(free[i]) || i in l)
      ensures forall i :: 0 <= i < NUM ==> desc[i] == if i in l then Desc(Nowhere, 0, 0, 0) else old(desc[i])
    {
      var i := head;
      ghost var rest := l;
      while true
        invariant Walks(desc[..], rest) && i == rest[0] && forall j :: j in rest ==> j in l
        invariant forall j :: 0 <= j < NUM && j in rest ==> !free[j]
        invariant forall j :: 0 <= j < NUM ==> free[j] == (old(free[j]) || (j in l && j !in rest))
        invariant forall j :: 0 <= j < NUM ==>
          desc[j] == if j in l && j !in rest then Desc(Nowhere, 0, 0, 0) else old(desc[j])
        decreases |rest|
      {
        var flag := desc[i].flags;
        var nxt := desc[i].next;
        ghost var d0, later := desc[..], rest[1..];
        assert rest == [i] + later;
        FreeDesc(i);
        if flag % 2 == NEXT {
          WalksOn(d0, desc[..], later);
          i := nxt;
          rest := later;
        } else {
          break;
        }
      }
    }

    /** alloc3_desc: three distinct free descriptors, or none at all because fewer were free. */
    method Alloc3Desc() returns (ok: bool, c: Chain)
      requires Valid()
      modifies free, desc
      ensures ok ==> AllFree(old(free[..]), c) && free[..] == Taken(old(free[..]), c) && desc[..] == old(desc[..])
      ensures !ok ==> free[..] == old(free[..]) && CountFree(free[..]) < 3
      ensures !ok ==> forall i :: 0 <= i < NUM ==> !free[i] ==> desc[i] == old(desc[i])
    {
      c := Chain(0, 0, 0);
      ghost var f0 := free[..];
      var a := AllocDesc();
      if a < 0 { return false, c; }
      ghost var f1 := free[..];
      CountUpdate(f0, a, false);
      var b := AllocDesc();
      if b < 0 {
        FreeDesc(a);
        assert free[..] == f0;
        return false, c;
      }
      ghost var f2 := free[..];
      CountUpdate(f1, b, false);
      var d := AllocDesc();
      if d < 0 {
        FreeDesc(a);
        FreeDesc(b);
        assert free[..] == f0;
        return false, c;
      }
      return true, Chain(a, b, d);
    }

    /** The three descriptors, the request header and the status byte. */
    method Format(c: Chain, b: nat, out: bool, blockno: nat)
      requires Valid() && Three(free[..], c)
      modifies desc, ops, info
      ensures ops[..] == old(ops[..])[c.i0 := Req(out, blockno * (BSIZE / 512))]
      ensures info[..] == old(info[..])[c.i0 := old(info[c.i0]).(status := 0xff)]
      ensures desc[..] == old(desc[..])[c.i0 := Desc(Header(c.i0), 16, NEXT, c.i1)]
        [c.i1 := Desc(Data(b), BSIZE, if out then NEXT else WRITE + NEXT, c.i2)]
        [c.i2 := Desc(Status(c.i0), 1, WRITE, 0)]
    {
      ops[c.i0] := Req(out, blockno * (BSIZE / 512));
      desc[c.i0] := Desc(Header(c.i0), 16, NEXT, c.i1);
      desc[c.i1] := Desc(Data(b), BSIZE, if out then 0 else WRITE, desc[c.i1].next);
      desc[c.i1] := desc[c.i1].(flags := desc[c.i1].flags + NEXT, next := c.i2);
      info[c.i0] := info[c.i0].(status := 0xff);
      desc[c.i2] := Desc(Status(c.i0), 1, WRITE, 0);
    }

    /** virtio_disk_rw from the formatting of the descriptors to the notification. */
    method Submit(c: Chain, b: nat, out: bool, blockno: nat)
      requires Valid() && Three(free[..], c) && b < onDisk.Length
      requires !free[c.i0] && !free[c.i1] && !free[c.i2]
      modifies this`availIdx, desc, ops, info, avail, onDisk
      ensures Valid() && Q() == Publish(old(Q()), c, b, out, blockno) && Formatted(Q(), c, b, out, blockno)
      ensures onDisk[..] == old(onDisk[..])[b := true]
    {
      Format(c, b, out, blockno);
      onDisk[b] := true;
      info[c.i0] := info[c.i0].(b := b);
      avail[availIdx % NUM] := c.i0;
      availIdx := (availIdx + 1) % WRAP;
    }

    /** virtio_disk_rw after the request has finished. */
    method Reclaim(c: Chain, ghost b: nat, ghost out: bool, ghost blockno: nat)
      requires Valid() && Formatted(Q(), c, b, out, blockno)
      requires !free[c.i0] && !free[c.i1] && !free[c.i2]
      modifies free, desc, info
      ensures Valid() && Q() == Retire(old(Q()), c)
      ensures forall i :: 0 <= i < NUM ==> free[i] == (old(free[i]) || i == c.i0 || i == c.i1 || i == c.i2)
    {
      info[c.i0] := info[c.i0].(b := -1);
      ghost var l := [c.i0, c.i1, c.i2];
      assert Walks(desc[..], l) by {
        assert l[1..] == [c.i1, c.i2] && [c.i1, c.i2][1..] == [c.i2];
        assert Walks(desc[..], [c.i2]);
        assert Walks(desc[..], [c.i1, c.i2]);
      }
      FreeChain(c.i0, l);
      assert free[..] == Freed(old(free[..]), c);
      assert desc[..] == Retire(old(Q()), c).desc;
    }

    /** virtio_disk_intr: lets go of exactly the buffers whose requests the device has reported. */
    method Intr()
      requires Valid() && forall k :: 0 <= k < Unseen(Q()) ==> Reported(Q(), k, onDisk.Length)
      modifies this`seen, onDisk
      ensures Valid() && Q() == old(Q()).(seen := usedIdx) && usedIdx == old(usedIdx)
      ensures forall b :: 0 <= b < onDisk.Length ==>
        onDisk[b] == (old(onDisk[b]) && !Releases(old(Q()), b, Unseen(old(Q()))))
    {
      ghost var k := 0;
      while seen != usedIdx
        invariant 0 <= k <= Unseen(old(Q())) && Valid() && seen == (old(seen) + k) % WRAP
        invariant forall b :: 0 <= b < onDisk.Length ==> onDisk[b] == (old(onDisk[b]) && !Releases(old(Q()), b, k))
        decreases Unseen(old(Q())) - k
      {
        UnseenLeft(old(Q()), k);
        assert Reported(old(Q()), k, onDisk.Length);
        var id := used[seen % NUM];
        assert info[id].status == 0;
        var b := info[id].b;
        onDisk[b] := false;
        seen := (seen + 1) % WRAP;
        k := k + 1;
      }
      AllSeen(old(Q()), k);
    }
  }

  /** Completions the driver has not looked at, in 16-bit arithmetic. */
  function Unseen(q: Queue): nat {
    (q.usedIdx - q.seen + WRAP) % WRAP
  }

  function UsedHead(q: Queue, k: nat): nat
    requires q.Shape()
  {
    q.used[(q.seen + k) % NUM]
  }

  /** The k-th such completion is of a request the driver knows, and succeeded. */
  predicate Reported(q: Queue, k: nat, nbuf: nat)
    requires q.Shape()
  {
    UsedHead(q, k) < NUM && q.info[UsedHead(q, k)].status == 0 && 0 <= q.info[UsedHead(q, k)].b < nbuf
  }

  /** One of the first n completions is for buffer b. */
  ghost predicate Releases(q: Queue, b: int, n: nat)
    requires q.Shape()
  {
    exists k {:trigger UsedHead(q, k)} :: 0 <= k < n && UsedHead(q, k) < NUM && q.info[UsedHead(q, k)].b == b
  }

  lemma UnseenLeft(q: Queue, k: nat)
    requires q.Shape() && k <= Unseen(q) && (q.seen + k) % WRAP != q.usedIdx
    ensures k < Unseen(q) && (q.seen + k) % WRAP % NUM == (q.seen + k) % NUM
    ensures ((q.seen + k) % WRAP + 1) % WRAP == (q.seen + k + 1) % WRAP
  {
  }

  lemma AllSeen(q: Queue, k: nat)
    requires q.Shape() && k <= Unseen(q) && (q.seen + k) % WRAP == q.usedIdx
    ensures k == Unseen(q)
  {
  }
}

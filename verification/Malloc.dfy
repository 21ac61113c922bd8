/** umalloc.c: Kernighan and Ritchie's first-fit allocator over sbrk. */
module Malloc {
  import opened HeapList

  const HEADERBYTES := 16    // sizeof(Header)
  const MINUNITS := 4096     // the least morecore asks for
  const MAXREQUEST := 0x7FFFFFE0

  /** Units for a request: its bytes rounded up, and one for the header. */
  function Units(nbytes: nat): (n: nat)
    ensures n >= 1 && (n - 1) * HEADERBYTES >= nbytes
    ensures (n - 1) * HEADERBYTES < nbytes + HEADERBYTES
  {
    (nbytes + HEADERBYTES - 1) / HEADERBYTES + 1
  }

  /** At least 4096 units, and no more than that unless they are asked for. */
  function MoreUnits(nu: nat): (n: nat)
    ensures nu <= n && 4096 <= n && (n == nu || n == 4096)
  {
    if nu < MINUNITS then MINUNITS else nu
  }

  /** The conversion of a 64-bit size to sbrk's int parameter. */
  function AsInt32(x: nat): int {
    var y := x % 0x1_0000_0000;
    if y < 0x8000_0000 then y else y - 0x1_0000_0000
  }

  /** For a uint request, sbrk is asked for the intended number of bytes exactly when the request
      is at most MAXREQUEST; above it the int parameter is a different number. */
  lemma SbrkExact(nbytes: nat)
    requires nbytes < 0x1_0000_0000
    ensures var bytes := MoreUnits(Units(nbytes)) * HEADERBYTES;
      AsInt32(bytes) == bytes <==> nbytes <= MAXREQUEST
  {
    var bytes := MoreUnits(Units(nbytes)) * HEADERBYTES;
    if nbytes <= MAXREQUEST {
      assert (nbytes + 15) / 16 <= 0x7FFFFFE;
    } else {
      assert (nbytes + 15) / 16 >= 0x7FFFFFF;
    }
  }

  /** The largest request: sbrk is asked for 16 bytes, and the heap grows by 4 GB and a unit. */
  lemma LargestRequest()
    ensures Units(0xFFFF_FFFF) == 0x1000_0001 && AskedBytes(Units(0xFFFF_FFFF)) == 16
    ensures MoreUnits(Units(0xFFFF_FFFF)) * HEADERBYTES == 0x1_0000_0010
  {
    assert (0xFFFF_FFFF + HEADERBYTES - 1) / HEADERBYTES == 0x1000_0000;
  }

  /** How many list elements lie between position i and position f, going around n elements. */
  function Ahead(i: int, f: int, n: int): int {
    if i <= f then f - i else f - i + n
  }

  function Succ(i: int, n: int): int {
    if i + 1 < n then i + 1 else 0
  }

  /** h1 differs from h0 nowhere inside the live blocks. */
  ghost predicate Untouched(h0: Memory, h1: Memory, live: set<int>) {
    forall x :: InLive(h0, live, x) ==> (x in h1 <==> x in h0) && (x in h1 ==> h1[x] == h0[x])
  }

  lemma UntouchedTrans(h0: Memory, h1: Memory, h2: Memory, live: set<int>)
    requires Untouched(h0, h1, live) && Untouched(h1, h2, live)
    requires forall a :: a in live ==> Sz(h0, a) >= 1
    ensures Untouched(h0, h2, live)
  {
    forall x | InLive(h0, live, x) ensures InLive(h1, live, x) {
      var a :| a in live && Inside(h0, a, x);
      assert Inside(h0, a, a) && InLive(h0, live, a);
      assert Inside(h1, a, x);
    }
  }

  /** Headers on the list, and of other blocks, are outside live blocks. */
  lemma Outside(h: Memory, base: int, l: seq<int>, live: set<int>, region: set<int>, kept: set<int>, y: int)
    requires Good(h, base, l, live, region) && kept <= live && (forall a :: a in live ==> base < a)
    requires y in l || y in live - kept
    ensures !InLive(h, kept, y)
  {
    forall a | a in kept ensures !Inside(h, a, y) {
      if y in l {
        var k :| 0 <= k < |l| && l[k] == y;
        assert k == 0 || Apart(h, a, l[k]);
      } else {
        assert Apart(h, a, y);
      }
    }
  }

  /** A call of sbrk: the bytes it was asked for and what it returned. */
  datatype Call = Call(bytes: int, result: int)

  /** What morecore asks sbrk for. */
  function AskedBytes(nu: nat): int {
    AsInt32(MoreUnits(nu) * HEADERBYTES)
  }

  /** Between calls0 and calls there was one call of sbrk, morecore's. */
  ghost predicate Asked(calls0: seq<Call>, calls: seq<Call>, nu: nat) {
    |calls| == |calls0| + 1 && calls == calls0 + [Call(AskedBytes(nu), calls[|calls0|].result)]
  }

  /** The int is a whole number of units, never more than was meant. */
  lemma IntUnits(n: nat)
    ensures AsInt32(n * HEADERBYTES) % HEADERBYTES == 0 && AsInt32(n * HEADERBYTES) / HEADERBYTES <= n
    ensures AsInt32(n * HEADERBYTES) / HEADERBYTES == n <==> AsInt32(n * HEADERBYTES) == n * HEADERBYTES
  {
  }

  /** p is a new block of n units. */
  ghost predicate Given(live0: set<int>, live: set<int>, h: Memory, p: int, n: int) {
    p !in live0 && live == live0 + {p} && Sz(h, p) == n
  }

  /** Some free block is large enough. */
  ghost predicate Fits(h: Memory, l: seq<int>, n: int) {
    exists k :: 1 <= k < |l| && Sz(h, l[k]) >= n
  }

  /** Going around from f's successor, block k is the first that is large enough. */
  ghost predicate FirstAt(h: Memory, l: seq<int>, n: int, f: int, k: int) {
    && 0 <= f < |l| && 1 <= k < |l| && Sz(h, l[k]) >= n
    && forall i {:trigger l[i]} :: 0 <= i < |l| && Ahead(i, f, |l|) > Ahead(k, f, |l|) ==> Sz(h, l[i]) < n
  }

  /** p is the tail, n units long, of the first block that fits from freep's successor on, and the next
      search starts behind the block before that. */
  ghost predicate FirstFit(h: Memory, l: seq<int>, n: int, freep: int, p: int, freep': int) {
    exists f, k {:trigger FirstAt(h, l, n, f, k)} ::
      FirstAt(h, l, n, f, k) && l[f] == freep && p == l[k] + Sz(h, l[k]) - n && freep' == l[k - 1]
  }

  predicate Between(lo: int, x: int, hi: int) {
    lo < x < hi
  }

  /** The free block below a, or the static header: where the next search starts after a was freed. */
  ghost predicate JustBelow(l: seq<int>, a: int, freep: int) {
    freep in l && freep < a && forall x {:trigger Between(freep, x, a)} :: x in l ==> !Between(freep, x, a)
  }

  lemma SlotIsBelow(h: Memory, base: int, l: seq<int>, j: int, a: int)
    requires Ring(h, base, l) && Slot(l, j, a)
    ensures JustBelow(l, a, l[j])
  {
    Ascend(h, l);
  }

  /** The search, now at i, has passed no block that is large enough. */
  ghost predicate NoneYet(h: Memory, l: seq<int>, n: int, i: int, f: int) {
    forall j {:trigger l[j]} :: 0 <= j < |l| && Ahead(j, f, |l|) > Ahead(i, f, |l|) ==> Sz(h, l[j]) < n
  }

  lemma FirstIs(h: Memory, l: seq<int>, n: int, f: int, i: int)
    requires 0 <= f < |l| && 1 <= i < |l| && NoneYet(h, l, n, i, f) && Sz(h, l[i]) >= n
    ensures Fits(h, l, n) && FirstFit(h, l, n, l[f], l[i] + Sz(h, l[i]) - n, l[i - 1])
  {
    assert FirstAt(h, l, n, f, i);
  }

  lemma NoneYetOn(h: Memory, l: seq<int>, n: int, i: int, f: int)
    requires 0 <= f < |l| && 0 <= i < |l| && i != f && NoneYet(h, l, n, i, f) && Sz(h, l[i]) < n
    ensures NoneYet(h, l, n, Succ(i, |l|), f)
  {
    forall j | 0 <= j < |l| && Ahead(j, f, |l|) > Ahead(Succ(i, |l|), f, |l|) ensures Sz(h, l[j]) < n {
      assert j == i || Ahead(j, f, |l|) > Ahead(i, f, |l|);
    }
  }

  /** free's first two assignments: join with the upper neighbour, or point to it. */
  function JoinUp(h: Memory, a: int, nxt: int): Memory {
    if a + Sz(h, a) == nxt then h[a := Header(Ptr(h, nxt), Sz(h, a) + Sz(h, nxt))]
    else h[a := Header(nxt, Sz(h, a))]
  }

  /** free's last two: join with the lower neighbour, or be pointed to by it. */
  function JoinDown(h: Memory, p: int, a: int): Memory {
    if p + Sz(h, p) == a then h[p := Header(Ptr(h, a), Sz(h, p) + Sz(h, a))]
    else h[p := Header(a, Sz(h, p))]
  }

  /** The pointer writes of free are FreeAt's. */
  lemma FreeWrites(h: Memory, l: seq<int>, j: int, a: int)
    requires Circular(h, l) && Ascending(h, l) && 0 <= j < |l| && a !in l && a in h
    requires a + Sz(h, a) == NextOf(l, j) ==> j + 1 < |l|
    ensures JoinDown(JoinUp(h, a, Ptr(h, l[j])), l[j], a) == FreeAt(h, l, j, a).h
  {
    Ascend(h, l);
    assert Ptr(h, l[j]) == NextOf(l, j);
    LinkSizes(h, l[j], a);
  }

  /** The ring and the live blocks tile the region; before the first malloc there is nothing. */
  ghost predicate HeapOk(base: int, h: Memory, freep: int, l: seq<int>, live: set<int>, region: set<int>) {
    && 0 < base
    && (forall x :: x in region ==> base < x)
    && (forall a :: a in live ==> base < a)
    && (if freep == 0 then l == [] && live == {} && region == {}
        else freep in l && Good(h, base, l, live, region) && Coalesced(h, l))
  }

  lemma UntouchedOn(base: int, h0: Memory, freep: int, l: seq<int>, live: set<int>, region: set<int>, h1: Memory, h2: Memory)
    requires HeapOk(base, h0, freep, l, live, region)
    requires Untouched(h0, h1, live) && Untouched(h1, h2, live)
    ensures Untouched(h0, h2, live)
  {
    UntouchedTrans(h0, h1, h2, live);
  }

  lemma NotNull(base: int, h: Memory, l: seq<int>, j: int)
    requires Ring(h, base, l) && 0 < base && 0 <= j < |l|
    ensures l[j] != 0 && l[j] in l
  {
    Ascend(h, l);
  }

  /** The tail q of block k becomes live. */
  lemma CutOk(base: int, h: Memory, freep: int, l: seq<int>, live: set<int>, region: set<int>, k: int, n: int, q: int)
    requires HeapOk(base, h, freep, l, live, region) && freep != 0
    requires 1 <= k < |l| && 1 <= n < Sz(h, l[k]) && q == l[k] + Sz(h, l[k]) - n
    ensures HeapOk(base, Cut(h, l[k], n), l[k - 1], l, live + {q}, region)
    ensures Given(live, live + {q}, Cut(h, l[k], n), q, n)
  {
    CutKeeps(h, base, l, live, region, k, l[k], n);
    NotNull(base, h, l, k - 1);
  }

  /** What sbrk gave is all that was meant exactly when the process owns it. */
  lemma StillBacked(base: int, region: set<int>, brk0: int, p: int, n: nat, m: int, brk: int)
    requires 0 < base < brk0 <= p && (forall x :: x in region ==> x < brk0) && m <= n && 1 <= n
    requires brk == if p + m < 0 then p else p + m
    ensures (base < brk && forall x :: x in region + Range(p, n) ==> x < brk) <==> m == n
  {
    assert p + n - 1 in region + Range(p, n);
  }

  class Allocator {
    const base: int              // the address of the static header
    var hdr: Memory
    var freep: int               // 0 before the first malloc
    var brk: int
    ghost var list: seq<int>     // the free list, from base
    ghost var live: set<int>     // headers of blocks malloc returned
    ghost var region: set<int>   // every unit morecore took over
    ghost var calls: seq<Call>   // of sbrk

    ghost predicate Valid()
      reads this
    {
      Formed() && Backed()
    }

    /** The process owns all the memory the heap is made of. */
    ghost predicate Backed()
      reads this
    {
      base < brk && forall x :: x in region ==> x < brk
    }

    /** The ring and the live blocks tile the region. */
    ghost predicate Formed()
      reads this
    {
      HeapOk(base, hdr, freep, list, live, region)
    }

    constructor (base: int, brk: int)
      requires 0 < base < brk
      ensures Valid() && this.base == base && freep == 0 && calls == []
    {
      this.base, this.brk, this.freep := base, brk, 0;
      hdr, list, live, region, calls := map[], [], {}, {}, [];
    }

    /** sbrk: -1 for want of memory, or the old end of memory, which other callers of sbrk may have moved
        up; a negative number of bytes moves it down, unless that is beyond its start. */
    method Sbrk(bytes: int) returns (p: int)
      requires 0 < brk && bytes % HEADERBYTES == 0
      modifies `brk, `calls
      ensures calls == old(calls) + [Call(bytes, p)]
      ensures p == -1 ==> brk == old(brk) && bytes > 0
      ensures p != -1 ==> old(brk) <= p && brk == (if p + bytes / HEADERBYTES < 0 then p else p + bytes / HEADERBYTES)
    {
      p := -1;
      var refuse: bool := *;
      if !refuse || bytes <= 0 {
        var gap :| gap >= 0;
        p := brk + gap;
        brk := if p + bytes / HEADERBYTES < 0 then p else p + bytes / HEADERBYTES;
      }
      calls := calls + [Call(bytes, p)];
    }

    /** The user may store anything in a live block behind its header. */
    method Store(a: int, x: int, v: Header)
      requires Formed() && a in live && a < x < a + Sz(hdr, a)
      modifies `hdr
      ensures Formed() && hdr == old(hdr)[x := v]
    {
      StoreKeeps(hdr, base, list, live, region, a, x, v);
      hdr := hdr[x := v];
    }

    /** free's search: around the ring to the block after which bp belongs. */
    method FindPlace(bp: int) returns (p: int, ghost j: int)
      requires Formed() && bp in live
      ensures Slot(list, j, bp) && p == list[j] && base <= p
    {
      LiveNotFree(hdr, base, list, live, region, bp);
      Ascend(hdr, list);
      j := SlotExists(list, bp);
      ghost var i :| 0 <= i < |list| && list[i] == freep;
      p := freep;
      while !(bp > p && bp < Ptr(hdr, p))
        invariant 0 <= i < |list| && p == list[i]
        decreases Ahead(i, j, |list|)
      {
        assert Ptr(hdr, list[i]) == NextOf(list, i);
        if p >= Ptr(hdr, p) && (bp > p || bp < Ptr(hdr, p)) {
          assert i == j;
          return;
        }
        p := Ptr(hdr, p);
        i := Succ(i, |list|);
      }
      assert Ptr(hdr, list[i]) == NextOf(list, i);
      assert i == j;
    }

    /** free's pointer writes, once its search has found p: the block is linked in and merged with
        the neighbours it touches. */
    method Join(p: int, bp: int, ghost j: int)
      requires Formed() && bp in live && Slot(list, j, bp) && p == list[j]
      requires bp + Sz(hdr, bp) == NextOf(list, j) ==> j + 1 < |list|
      modifies `hdr
      ensures hdr == FreeAt(old(hdr), list, j, bp).h
    {
      LiveNotFree(hdr, base, list, live, region, bp);
      FreeWrites(hdr, list, j, bp);
      var nxt := Ptr(hdr, p);
      if bp + Sz(hdr, bp) == nxt {
        hdr := hdr[bp := Header(Ptr(hdr, nxt), Sz(hdr, bp) + Sz(hdr, nxt))];
      } else {
        hdr := hdr[bp := Header(nxt, Sz(hdr, bp))];
      }
      if p + Sz(hdr, p) == bp {
        hdr := hdr[p := Header(Ptr(hdr, bp), Sz(hdr, p) + Sz(hdr, bp))];
      } else {
        hdr := hdr[p := Header(bp, Sz(hdr, p))];
      }
    }

    method Free(ap: int)
      requires Formed() && ap - 1 in live
      modifies `hdr, `freep, `list, `live
      ensures Formed() && freep != 0 && live == old(live) - {ap - 1}
      ensures Untouched(old(hdr), hdr, old(live) - {ap - 1})
      ensures Fits(hdr, list, old(Sz(hdr, ap - 1))) && JustBelow(old(list), ap - 1, freep)
    {
      var bp := ap - 1;
      var p;
      ghost var j;
      p, j := FindPlace(bp);
      LiveNotFree(hdr, base, list, live, region, bp);
      FreeKeeps(hdr, base, list, live, region, j, bp);
      SlotIsBelow(hdr, base, list, j, bp);
      FreeUntouched(hdr, base, list, live, region, j, bp);
      ghost var l := FreeAt(hdr, list, j, bp).l;
      Join(p, bp, j);
      list := l;
      freep := p;
      live := live - {bp};
    }

    /** hp->s.size = nu, which makes n units at p a block as if malloc had given them out. */
    method TakeOver(p: int, n: nat)
      requires Formed() && freep != 0 && base < p && n >= 1 && forall x :: x in region ==> x < p
      modifies `hdr, `live, `region
      ensures Formed() && p !in old(live) && live == old(live) + {p} && region == old(region) + Range(p, n) && Sz(hdr, p) == n
      ensures Untouched(old(hdr), hdr, old(live))
    {
      GrantKeeps(hdr, base, list, live, region, p, n, Ptr(hdr, p));
      GrantUntouched(hdr, live, region, list, p, Header(Ptr(hdr, p), n));
      hdr := hdr[p := Header(Ptr(hdr, p), n)];
      live := live + {p};
      region := region + Range(p, n);
    }

    /** The rest of morecore: n units at p become a block and are freed. */
    method Grow(p: int, n: nat)
      requires Formed() && freep != 0 && base < p && n >= 1 && forall x :: x in region ==> x < p
      modifies `hdr, `freep, `list, `live, `region
      ensures Formed() && freep != 0 && live == old(live) && region == old(region) + Range(p, n)
      ensures Untouched(old(hdr), hdr, old(live)) && Fits(hdr, list, n)
    {
      ghost var h0, l0, live0, region0 := hdr, list, live, region;
      TakeOver(p, n);
      ghost var h1 := hdr;
      Free(p + 1);
      assert live0 + {p} - {p} == live0;
      UntouchedOn(base, h0, old(freep), l0, live0, region0, h1, hdr);
    }

    /** morecore: at least MINUNITS units more on the free list, or 0.  The process owns them exactly
        when sbrk was asked for as many bytes as they have. */
    method Morecore(nu: nat) returns (r: int)
      requires Valid() && freep != 0 && nu >= 1
      modifies `hdr, `freep, `list, `live, `region, `brk, `calls
      ensures Formed() && freep != 0 && live == old(live) && Untouched(old(hdr), hdr, old(live))
      ensures Asked(old(calls), calls, nu)
      ensures r == 0 <==> calls[|old(calls)|].result == -1
      ensures r == 0 ==> hdr == old(hdr) && list == old(list) && freep == old(freep)
      ensures r == 0 ==> region == old(region) && brk == old(brk)
      ensures r != 0 ==> r == freep && Fits(hdr, list, nu)
      ensures r != 0 ==> region == old(region) + Range(calls[|old(calls)|].result, MoreUnits(nu))
      ensures r != 0 ==> (Backed() <==> AskedBytes(nu) == MoreUnits(nu) * HEADERBYTES)
    {
      var n := MoreUnits(nu);
      IntUnits(n);
      var p := Sbrk(AsInt32(n * HEADERBYTES));
      if p == -1 {
        return 0;
      }
      StillBacked(base, region, old(brk), p, n, AsInt32(n * HEADERBYTES) / HEADERBYTES, brk);
      Grow(p, n);
      return freep;
    }

    /** malloc's exact hit: unlink the block after prevp. */
    method TakeAll(prevp: int, p: int, ghost i: int)
      requires Formed() && freep != 0 && 1 <= i < |list| && p == list[i] && prevp == list[i - 1]
      modifies `hdr, `freep, `list, `live
      ensures Formed() && freep == prevp
      ensures Given(old(live), live, hdr, p, old(Sz(hdr, p)))
      ensures Untouched(old(hdr), hdr, old(live))
    {
      TakeKeeps(hdr, base, list, live, region, i);
      TakeUntouched(hdr, base, list, live, region, i);
      hdr := hdr[prevp := Header(Ptr(hdr, p), Sz(hdr, prevp))];
      freep := prevp;
      list := Skip(list, i);
      live := live + {p};
    }

    /** malloc's other hit: the end of block p0. */
    method TakeEnd(prevp: int, p0: int, nunits: nat, ghost i: int) returns (p: int)
      requires Formed() && freep != 0 && 1 <= i < |list| && p0 == list[i] && prevp == list[i - 1]
      requires 1 <= nunits < Sz(hdr, p0)
      modifies `hdr, `freep, `live
      ensures Formed() && freep == prevp
      ensures Given(old(live), live, hdr, p, nunits) && p == p0 + old(Sz(hdr, p0)) - nunits
      ensures Untouched(old(hdr), hdr, old(live))
    {
      ghost var h0 := hdr;
      p := CutBlock(p0, nunits);
      CutOk(base, h0, freep, list, live, region, i, nunits, p);
      CutUntouched(h0, base, list, live, region, i, p0, nunits);
      freep := prevp;
      live := live + {p};
    }

    method CutBlock(p0: int, nunits: nat) returns (p: int)
      modifies `hdr
      ensures hdr == Cut(old(hdr), p0, nunits) && p == p0 + old(Sz(hdr, p0)) - nunits
      ensures Sz(hdr, p) == nunits
    {
      p := p0;
      hdr := hdr[p := Header(Ptr(hdr, p), Sz(hdr, p) - nunits)];
      p := p + Sz(hdr, p);
      hdr := hdr[p := Header(Ptr(hdr, p), nunits)];
    }

    method Take(prevp: int, p0: int, nunits: nat, ghost i: int) returns (p: int)
      requires Formed() && freep != 0 && 1 <= i < |list| && p0 == list[i] && prevp == list[i - 1]
      requires 1 <= nunits <= Sz(hdr, p0)
      modifies `hdr, `freep, `list, `live
      ensures Formed() && freep == prevp
      ensures Given(old(live), live, hdr, p, nunits) && p == p0 + old(Sz(hdr, p0)) - nunits
      ensures Untouched(old(hdr), hdr, old(live))
    {
      if Sz(hdr, p0) == nunits {
        TakeAll(prevp, p0, i);
        p := p0;
      } else {
        p := TakeEnd(prevp, p0, nunits, i);
      }
    }

    /** malloc's walk once around the ring, from freep's successor back to freep: first fit, or 0
        when no free block is large enough. */
    method Round(nunits: nat) returns (p: int)
      requires Formed() && freep != 0 && nunits >= 1
      modifies `hdr, `freep, `list, `live
      ensures Formed() && freep != 0
      ensures p != 0 <==> Fits(old(hdr), old(list), nunits)
      ensures p == 0 ==> hdr == old(hdr) && list == old(list) && live == old(live) && freep == old(freep)
      ensures p != 0 ==> base < p && Given(old(live), live, hdr, p, nunits)
      ensures p != 0 ==> FirstFit(old(hdr), old(list), nunits, old(freep), p, freep)
      ensures Untouched(old(hdr), hdr, old(live))
    {
      var prevp := freep;
      ghost var h0, l0, freep0 := hdr, list, freep;
      ghost var f :| 0 <= f < |list| && list[f] == freep;
      ghost var i := Succ(f, |list|);
      NextIs(hdr, base, list, f);
      p := Ptr(hdr, prevp);
      while true
        invariant 0 <= i < |list| && p == list[i] && (1 <= i ==> prevp == list[i - 1])
        invariant NoneYet(hdr, list, nunits, i, f)
        invariant hdr == h0 && list == l0 && live == old(live) && freep == freep0
        decreases Ahead(i, f, |list|)
      {
        if Sz(hdr, p) >= nunits {
          BaseTooSmall(hdr, base, list, i, nunits);
          FirstIs(h0, l0, nunits, f, i);
          p := Take(prevp, p, nunits, i);
          return;
        }
        if p == freep {
          AllPassed(hdr, base, list, nunits, i, f);
          return 0;
        }
        assert i != f;
        NoneYetOn(hdr, list, nunits, i, f);
        NextIs(hdr, base, list, i);
        AheadDrops(i, f, |list|);
        prevp := p;
        p := Ptr(hdr, p);
        i := Succ(i, |list|);
      }
      p := 0;
    }

    /** First fit from freep onwards, growing the heap only when no free block fits.  After
        morecore the walk goes on from freep, which is a second round. */
    method Search(nunits: nat) returns (p: int)
      requires Valid() && freep != 0 && nunits >= 1
      modifies `hdr, `freep, `list, `live, `region, `brk, `calls
      ensures Formed() && freep != 0 && Untouched(old(hdr), hdr, old(live))
      ensures p != 0 ==> base < p && Given(old(live), live, hdr, p, nunits)
      ensures Fits(old(hdr), old(list), nunits) ==>
        && p != 0 && region == old(region) && brk == old(brk) && calls == old(calls)
        && FirstFit(old(hdr), old(list), nunits, old(freep), p, freep)
      ensures !Fits(old(hdr), old(list), nunits) ==>
        && Asked(old(calls), calls, nunits) && (p == 0 <==> calls[|old(calls)|].result == -1)
        && (p != 0 ==> region == old(region) + Range(calls[|old(calls)|].result, MoreUnits(nunits)))
      ensures p == 0 ==>
        && hdr == old(hdr) && list == old(list) && freep == old(freep) && live == old(live)
        && region == old(region) && brk == old(brk)
      ensures Backed() <==>
        p == 0 || Fits(old(hdr), old(list), nunits) || AskedBytes(nunits) == MoreUnits(nunits) * HEADERBYTES
    {
      p := Round(nunits);
      if p == 0 {
        p := Morecore(nunits);
        if p != 0 {
          ghost var h1 := hdr;
          p := Round(nunits);
          UntouchedTrans(old(hdr), h1, hdr, old(live));
        }
      }
    }

    /** malloc's first call: the ring is the static header alone. */
    method Init()
      requires Valid() && freep == 0
      modifies `hdr, `freep, `list
      ensures Valid() && freep == base && list == [base] && hdr == old(hdr)[base := Header(base, 0)]
    {
      hdr := hdr[base := Header(base, 0)];
      freep := base;
      list := [base];
      StartGood(hdr, base);
    }

    /** malloc, of a uint number of bytes, with the header p in front of what it returns: 0 exactly when
        nothing fits and sbrk refuses.  The heap stays within the memory of the process unless morecore
        is needed for more than MAXREQUEST bytes. */
    method Malloc(nbytes: nat) returns (ap: int, ghost p: int)
      requires Valid() && nbytes < 0x1_0000_0000
      modifies `hdr, `freep, `list, `live, `region, `brk, `calls
      ensures Formed() && Untouched(old(hdr), hdr, old(live))
      ensures ap == if p == 0 then 0 else p + 1
      ensures Valid() <==> p == 0 || Fits(old(hdr), old(list), Units(nbytes)) || nbytes <= MAXREQUEST
      ensures p != 0 ==> base < p && Given(old(live), live, hdr, p, Units(nbytes))
      ensures Fits(old(hdr), old(list), Units(nbytes)) ==>
        && p != 0 && region == old(region) && brk == old(brk) && calls == old(calls)
        && FirstFit(old(hdr), old(list), Units(nbytes), old(freep), p, freep)
      ensures !Fits(old(hdr), old(list), Units(nbytes)) ==>
        && Asked(old(calls), calls, Units(nbytes)) && (p == 0 <==> calls[|old(calls)|].result == -1)
        && (p != 0 ==> region == old(region) + Range(calls[|old(calls)|].result, MoreUnits(Units(nbytes))))
      ensures p == 0 ==> live == old(live) && region == old(region) && brk == old(brk)
      ensures p == 0 && old(freep) != 0 ==> hdr == old(hdr) && list == old(list) && freep == old(freep)
      ensures p == 0 && old(freep) == 0 ==> list == [base] && freep == base && hdr == old(hdr)[base := Header(base, 0)]
    {
      SbrkExact(nbytes);
      if freep == 0 {
        Init();
      }
      var q := Search(Units(nbytes));
      p := q;
      ap := if q == 0 then 0 else q + 1;
    }
  }

  lemma NextIs(h: Memory, base: int, l: seq<int>, i: int)
    requires Ring(h, base, l) && 0 <= i < |l|
    ensures Ptr(h, l[i]) == l[Succ(i, |l|)]
    ensures 1 <= Succ(i, |l|) ==> l[Succ(i, |l|) - 1] == l[i]
  {
    assert Ptr(h, l[i]) == NextOf(l, i);
  }

  lemma AheadDrops(i: int, f: int, n: int)
    requires 0 <= i < n && 0 <= f < n && i != f
    ensures 0 <= Succ(i, n) < n && 0 <= Ahead(Succ(i, n), f, n) < Ahead(i, f, n)
  {
  }

  lemma BaseTooSmall(h: Memory, base: int, l: seq<int>, i: int, n: nat)
    requires Ring(h, base, l) && 0 <= i < |l| && 1 <= n <= Sz(h, l[i])
    ensures 1 <= i
  {
  }

  lemma StartGood(h: Memory, base: int)
    requires base in h && h[base] == Header(base, 0)
    ensures Good(h, base, [base], {}, {}) && Coalesced(h, [base])
  {
  }

  /** Back at freep without a hit: nothing fits. */
  lemma AllPassed(h: Memory, base: int, l: seq<int>, n: int, i: int, f: int)
    requires Ring(h, base, l) && 0 <= i < |l| && 0 <= f < |l| && l[i] == l[f] && Sz(h, l[i]) < n
    requires NoneYet(h, l, n, i, f)
    ensures !Fits(h, l, n)
  {
    Ascend(h, l);
    assert i == f;
    forall k | 1 <= k < |l| ensures Sz(h, l[k]) < n {
      assert k == f || Ahead(k, f, |l|) > 0;
    }
  }

  lemma TakeUntouched(h: Memory, base: int, l: seq<int>, live: set<int>, region: set<int>, k: int)
    requires Good(h, base, l, live, region) && (forall a :: a in live ==> base < a) && 1 <= k < |l|
    ensures Untouched(h, h[l[k - 1] := Header(Ptr(h, l[k]), Sz(h, l[k - 1]))], live)
  {
    assert l[k - 1] in l;
    Outside(h, base, l, live, region, live, l[k - 1]);
  }

  lemma CutUntouched(h: Memory, base: int, l: seq<int>, live: set<int>, region: set<int>, k: int, p: int, n: int)
    requires Good(h, base, l, live, region) && (forall a :: a in live ==> base < a)
    requires 1 <= k < |l| && p == l[k] && 1 <= n < Sz(h, p)
    ensures Untouched(h, Cut(h, p, n), live)
  {
    assert p in l;
    Outside(h, base, l, live, region, live, p);
    var q := p + Sz(h, p) - n;
    forall a | a in live ensures !Inside(h, a, q) {
      assert Apart(h, a, p);
    }
    assert !InLive(h, live, q);
  }

  lemma FreeWritesOnly(h: Memory, l: seq<int>, j: int, a: int, x: int)
    requires 0 <= j < |l| && (a + Sz(h, a) == NextOf(l, j) ==> j + 1 < |l|) && x != l[j] && x != a
    ensures var h' := FreeAt(h, l, j, a).h; (x in h' <==> x in h) && (x in h ==> h'[x] == h[x])
  {
  }

  /** What free overwrites lies outside the blocks that stay live. */
  lemma FreeUntouched(h: Memory, base: int, l: seq<int>, live: set<int>, region: set<int>, j: int, a: int)
    requires Good(h, base, l, live, region) && (forall b :: b in live ==> base < b)
    requires a in live && Slot(l, j, a) && (a + Sz(h, a) == NextOf(l, j) ==> j + 1 < |l|)
    ensures Untouched(h, FreeAt(h, l, j, a).h, live - {a})
  {
    Outside(h, base, l, live, region, live - {a}, l[j]);
    Outside(h, base, l, live, region, live - {a}, a);
    var h' := FreeAt(h, l, j, a).h;
    forall x | InLive(h, live - {a}, x) ensures (x in h' <==> x in h) && (x in h ==> h'[x] == h[x]) {
      FreeWritesOnly(h, l, j, a, x);
    }
  }

  lemma GrantUntouched(h: Memory, live: set<int>, region: set<int>, l: seq<int>, a: int, hd: Header)
    requires Covers(h, l, live, region) && a !in region
    ensures Untouched(h, h[a := hd], live)
  {
    assert !InLive(h, live, a);
  }

  lemma StoreKeeps(h: Memory, base: int, l: seq<int>, live: set<int>, region: set<int>, a: int, x: int, v: Header)
    requires Good(h, base, l, live, region) && Coalesced(h, l) && a in live && a < x < a + Sz(h, a) && base < a
    ensures Good(h[x := v], base, l, live, region) && Coalesced(h[x := v], l)
  {
    var h' := h[x := v];
    forall k | 0 <= k < |l| ensures l[k] != x {
      assert k == 0 || Apart(h, a, l[k]);
    }
    forall b | b in live ensures b != x {
      assert b == a || Apart(h, a, b);
    }
    GrantRing(h, base, l, x, v);
    forall y ensures InFree(h', l, y) || InLive(h', live, y) <==> InFree(h, l, y) || InLive(h, live, y) {
      assert forall k :: 1 <= k < |l| ==> (Inside(h', l[k], y) <==> Inside(h, l[k], y));
      assert forall b :: b in live ==> (Inside(h', b, y) <==> Inside(h, b, y));
    }
    assert LiveApart(h', l, live) by {
      forall b, c | b in live && c in live && b != c ensures Apart(h', b, c) {
        assert Apart(h, b, c);
      }
      forall b, k | b in live && 1 <= k < |l| ensures b != l[k] && Apart(h', b, l[k]) {
        assert Apart(h, b, l[k]);
      }
    }
  }
}

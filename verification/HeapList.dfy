/** The free list of umalloc.c as a mathematical object: a ring of headers in address order,
    and the tiling of the memory obtained from sbrk into free and live blocks.

    Addresses and sizes count units of sizeof(Header). */
module HeapList {

  datatype Header = Header(ptr: int, size: int)

  type Memory = map<int, Header>

  function Sz(h: Memory, a: int): int {
    if a in h then h[a].size else 0
  }

  function Ptr(h: Memory, a: int): int {
    if a in h then h[a].ptr else 0
  }

  /** The list element after position k, wrapping around. */
  function NextOf(l: seq<int>, k: int): int
    requires 0 <= k < |l|
  {
    if k + 1 < |l| then l[k + 1] else l[0]
  }

  /** `ptr` fields lead around l. */
  ghost predicate Circular(h: Memory, l: seq<int>) {
    && (forall k :: 0 <= k < |l| ==> l[k] in h)
    && (forall k {:trigger NextOf(l, k)} :: 0 <= k < |l| ==> Ptr(h, l[k]) == NextOf(l, k))
  }

  ghost predicate Below(h: Memory, l: seq<int>, i: int, j: int)
    requires 0 <= i < |l| && 0 <= j < |l|
  {
    l[i] < l[j] && l[i] + Sz(h, l[i]) <= l[j]
  }

  /** Addresses ascend and no block reaches into the next. */
  ghost predicate Ascending(h: Memory, l: seq<int>) {
    forall i, j {:trigger Below(h, l, i, j)} :: 0 <= i < j < |l| ==> Below(h, l, i, j)
  }

  lemma Ascend(h: Memory, l: seq<int>)
    requires Ascending(h, l)
    ensures forall i, j :: 0 <= i < j < |l| ==> l[i] < l[j] && l[i] + Sz(h, l[i]) <= l[j]
  {
    forall i, j | 0 <= i < j < |l| ensures l[i] < l[j] && l[i] + Sz(h, l[i]) <= l[j] {
      assert Below(h, l, i, j);
    }
  }

  /** Block k does not touch the next one. */
  ghost predicate Gap(h: Memory, l: seq<int>, k: int)
    requires 0 <= k < |l| - 1
  {
    l[k] + Sz(h, l[k]) != l[k + 1]
  }

  /** No two neighbours could be one block. */
  ghost predicate Coalesced(h: Memory, l: seq<int>) {
    forall k :: 0 <= k < |l| - 1 ==> Gap(h, l, k)
  }

  /** A ring that starts at the static, empty `base` block. */
  ghost predicate Ring(h: Memory, base: int, l: seq<int>) {
    && |l| > 0 && l[0] == base && Sz(h, base) == 0
    && Circular(h, l) && Ascending(h, l)
    && (forall k :: 1 <= k < |l| ==> Sz(h, l[k]) >= 1)
  }

  ghost predicate Inside(h: Memory, a: int, x: int) {
    a <= x < a + Sz(h, a)
  }

  ghost predicate Apart(h: Memory, a: int, b: int) {
    a + Sz(h, a) <= b || b + Sz(h, b) <= a
  }

  ghost predicate InFree(h: Memory, l: seq<int>, x: int) {
    exists k :: 1 <= k < |l| && Inside(h, l[k], x)
  }

  ghost predicate InLive(h: Memory, live: set<int>, x: int) {
    exists a :: a in live && Inside(h, a, x)
  }

  /** Live blocks overlap neither each other nor a free block. */
  ghost predicate LiveApart(h: Memory, l: seq<int>, live: set<int>) {
    && (forall a :: a in live ==> a in h && Sz(h, a) >= 1)
    && (forall a, b {:trigger Apart(h, a, b)} :: a in live && b in live && a != b ==> Apart(h, a, b))
    && (forall a, k {:trigger Apart(h, a, l[k])} :: a in live && 1 <= k < |l| ==> a != l[k] && Apart(h, a, l[k]))
  }

  /** Free and live blocks together are exactly the memory sbrk granted. */
  ghost predicate Covers(h: Memory, l: seq<int>, live: set<int>, region: set<int>) {
    forall x :: x in region <==> InFree(h, l, x) || InLive(h, live, x)
  }

  ghost predicate Tiles(h: Memory, l: seq<int>, live: set<int>, region: set<int>) {
    LiveApart(h, l, live) && Covers(h, l, live, region)
  }

  // ---------------------------------------------------------------- positions

  /** The position after which address a belongs: the last element below it. */
  ghost predicate Slot(l: seq<int>, j: int, a: int) {
    && 0 <= j < |l| && l[j] < a
    && (forall k :: j < k < |l| ==> a < l[k])
  }

  lemma {:induction false} SlotExists(l: seq<int>, a: int) returns (j: int)
    requires |l| > 0 && l[0] < a && a !in l
    requires forall i, k :: 0 <= i < k < |l| ==> l[i] < l[k]
    ensures Slot(l, j, a)
  {
    j := |l| - 1;
    while l[j] > a
      invariant 0 <= j < |l|
      invariant forall k :: j < k < |l| ==> a < l[k]
    {
      j := j - 1;
    }
  }

  // ---------------------------------------------------------------- inserting a block

  function InsertAfter(l: seq<int>, j: int, a: int): seq<int>
    requires 0 <= j < |l|
  {
    l[..j + 1] + [a] + l[j + 1..]
  }

  /** a->ptr = p->ptr; p->ptr = a. */
  function LinkAfter(h: Memory, p: int, a: int): Memory {
    var h1 := h[a := Header(Ptr(h, p), Sz(h, a))];
    h1[p := Header(a, Sz(h1, p))]
  }

  lemma LinkSizes(h: Memory, p: int, a: int)
    ensures forall x :: Sz(LinkAfter(h, p, a), x) == Sz(h, x)
    ensures forall x :: x != p && x != a ==> Ptr(LinkAfter(h, p, a), x) == Ptr(h, x)
    ensures p != a ==> Ptr(LinkAfter(h, p, a), p) == a && Ptr(LinkAfter(h, p, a), a) == Ptr(h, p)
    ensures p in LinkAfter(h, p, a) && a in LinkAfter(h, p, a)
    ensures forall x :: x in h ==> x in LinkAfter(h, p, a)
  {
  }

  lemma InsertAt(l: seq<int>, j: int, a: int, k: int)
    requires 0 <= j < |l| && 0 <= k < |l| + 1
    ensures InsertAfter(l, j, a)[k] == if k <= j then l[k] else if k == j + 1 then a else l[k - 1]
    ensures NextOf(InsertAfter(l, j, a), k)
      == if k == j then a else if k == j + 1 then NextOf(l, j) else if k < j then NextOf(l, k) else NextOf(l, k - 1)
  {
  }

  lemma InsertCircular(h: Memory, l: seq<int>, j: int, a: int)
    requires Circular(h, l) && 0 <= j < |l| && a !in l && a in h
    requires forall i, k :: 0 <= i < k < |l| ==> l[i] != l[k]
    ensures Circular(LinkAfter(h, l[j], a), InsertAfter(l, j, a))
  {
    var h' := LinkAfter(h, l[j], a);
    var l' := InsertAfter(l, j, a);
    LinkSizes(h, l[j], a);
    forall k | 0 <= k < |l'| ensures l'[k] in h' && Ptr(h', l'[k]) == NextOf(l', k) {
      InsertAt(l, j, a, k);
      assert k <= j ==> Ptr(h, l[k]) == NextOf(l, k);
      assert k > j + 1 ==> Ptr(h, l[k - 1]) == NextOf(l, k - 1);
      assert Ptr(h, l[j]) == NextOf(l, j);
    }
  }

  lemma InsertAscending(h: Memory, l: seq<int>, j: int, a: int, i: int, k: int)
    requires Ascending(h, l) && Slot(l, j, a) && 0 <= i < k < |l| + 1 && Sz(h, l[0]) == 0
    requires Sz(h, a) >= 0 && forall k :: 1 <= k < |l| ==> Apart(h, a, l[k]) && Sz(h, l[k]) >= 0
    ensures var l' := InsertAfter(l, j, a); l'[i] < l'[k] && l'[i] + Sz(h, l'[i]) <= l'[k]
  {
    Ascend(h, l);
    InsertAt(l, j, a, i);
    InsertAt(l, j, a, k);
    if i <= j && k == j + 1 {
      assert i == 0 || Apart(h, a, l[i]);
    } else if i == j + 1 {
      assert Apart(h, a, l[k - 1]);
    }
  }

  lemma InsertRing(h: Memory, base: int, l: seq<int>, j: int, a: int)
    requires Ring(h, base, l) && Slot(l, j, a) && a !in l && a in h && Sz(h, a) >= 1
    requires forall k :: 1 <= k < |l| ==> Apart(h, a, l[k])
    ensures Ring(LinkAfter(h, l[j], a), base, InsertAfter(l, j, a))
  {
    Ascend(h, l);
    var h' := LinkAfter(h, l[j], a);
    var l' := InsertAfter(l, j, a);
    LinkSizes(h, l[j], a);
    InsertCircular(h, l, j, a);
    forall i, k | 0 <= i < k < |l'| ensures Below(h', l', i, k) {
      InsertAscending(h, l, j, a, i, k);
    }
    forall k | 1 <= k < |l'| ensures Sz(h', l'[k]) >= 1 {
      InsertAt(l, j, a, k);
    }
  }

  /** A live block moved to the list covers what it covered before. */
  lemma InsertTiles(h: Memory, l: seq<int>, live: set<int>, region: set<int>, j: int, a: int)
    requires Tiles(h, l, live, region) && 0 <= j < |l| && a in live && a !in l
    ensures Tiles(LinkAfter(h, l[j], a), InsertAfter(l, j, a), live - {a}, region)
  {
    var h' := LinkAfter(h, l[j], a);
    var l' := InsertAfter(l, j, a);
    LinkSizes(h, l[j], a);
    forall b, k | b in live - {a} && 1 <= k < |l'| ensures b != l'[k] && Apart(h', b, l'[k]) {
      InsertAt(l, j, a, k);
      if k <= j { assert Apart(h, b, l[k]); }
      else if k == j + 1 { assert Apart(h, b, a); }
      else { assert Apart(h, b, l[k - 1]); }
    }
    forall b, b' | b in live && b' in live && b != b' ensures Apart(h', b, b') {
      assert Apart(h, b, b');
    }
    forall x ensures x in region <==> InFree(h', l', x) || InLive(h', live - {a}, x) {
      InsertOwners(h, l, live, j, a, x);
    }
  }

  lemma InsertOwners(h: Memory, l: seq<int>, live: set<int>, j: int, a: int, x: int)
    requires 0 <= j < |l| && a in live
    ensures InFree(h, l, x) || InLive(h, live, x) <==>
      InFree(LinkAfter(h, l[j], a), InsertAfter(l, j, a), x) || InLive(LinkAfter(h, l[j], a), live - {a}, x)
  {
    var h' := LinkAfter(h, l[j], a);
    var l' := InsertAfter(l, j, a);
    LinkSizes(h, l[j], a);
    if InFree(h, l, x) {
      var k :| 1 <= k < |l| && Inside(h, l[k], x);
      var k' := if k <= j then k else k + 1;
      InsertAt(l, j, a, k');
      assert Inside(h', l'[k'], x);
    }
    if InLive(h, live, x) {
      var b :| b in live && Inside(h, b, x);
      InsertAt(l, j, a, j + 1);
      assert b == a ==> Inside(h', l'[j + 1], x);
      assert b != a ==> b in live - {a} && Inside(h', b, x);
    }
    if InFree(h', l', x) {
      var k :| 1 <= k < |l'| && Inside(h', l'[k], x);
      InsertAt(l, j, a, k);
      if k <= j { assert Inside(h, l[k], x); }
      else if k == j + 1 { assert Inside(h, a, x); }
      else { assert Inside(h, l[k - 1], x); }
    }
    if InLive(h', live - {a}, x) {
      var b :| b in live - {a} && Inside(h', b, x);
      assert Inside(h, b, x);
    }
  }

  // ---------------------------------------------------------------- merging neighbours

  function Skip(l: seq<int>, k: int): seq<int>
    requires 0 <= k < |l|
  {
    l[..k] + l[k + 1..]
  }

  /** a absorbs the block after it. */
  function Absorb(h: Memory, a: int, b: int): Memory {
    h[a := Header(Ptr(h, b), Sz(h, a) + Sz(h, b))]
  }

  lemma SkipAt(l: seq<int>, k: int, i: int)
    requires 1 <= k < |l| && 0 <= i < |l| - 1
    ensures Skip(l, k)[i] == if i < k then l[i] else l[i + 1]
    ensures NextOf(Skip(l, k), i)
      == if i < k - 1 then NextOf(l, i) else if i == k - 1 then NextOf(l, k) else NextOf(l, i + 1)
  {
  }

  lemma MergeCircular(h: Memory, l: seq<int>, k: int)
    requires Circular(h, l) && 0 <= k < |l| - 1
    requires forall i, j :: 0 <= i < j < |l| ==> l[i] != l[j]
    ensures Circular(Absorb(h, l[k], l[k + 1]), Skip(l, k + 1))
  {
    var h' := Absorb(h, l[k], l[k + 1]);
    var l' := Skip(l, k + 1);
    forall i | 0 <= i < |l'| ensures l'[i] in h' && Ptr(h', l'[i]) == NextOf(l', i) {
      SkipAt(l, k + 1, i);
      var i' := if i <= k then i else i + 1;
      assert Ptr(h, l[i']) == NextOf(l, i');
      assert Ptr(h, l[k + 1]) == NextOf(l, k + 1);
    }
  }

  lemma MergeAscending(h: Memory, l: seq<int>, k: int, i: int, j: int)
    requires Ascending(h, l) && 0 <= k < |l| - 1 && l[k] + Sz(h, l[k]) == l[k + 1]
    requires 0 <= i < j < |l| - 1
    ensures var l' := Skip(l, k + 1); var h' := Absorb(h, l[k], l[k + 1]);
      l'[i] < l'[j] && l'[i] + Sz(h', l'[i]) <= l'[j]
  {
    Ascend(h, l);
    SkipAt(l, k + 1, i);
    SkipAt(l, k + 1, j);
    if i == k {
      assert l[k + 1] + Sz(h, l[k + 1]) <= l[j + 1];
    }
  }

  lemma MergeRing(h: Memory, base: int, l: seq<int>, k: int)
    requires Ring(h, base, l) && 1 <= k < |l| - 1 && l[k] + Sz(h, l[k]) == l[k + 1]
    ensures Ring(Absorb(h, l[k], l[k + 1]), base, Skip(l, k + 1))
  {
    Ascend(h, l);
    var h' := Absorb(h, l[k], l[k + 1]);
    var l' := Skip(l, k + 1);
    MergeCircular(h, l, k);
    forall i, j | 0 <= i < j < |l'| ensures Below(h', l', i, j) {
      MergeAscending(h, l, k, i, j);
    }
    forall i | 1 <= i < |l'| ensures Sz(h', l'[i]) >= 1 {
      SkipAt(l, k + 1, i);
    }
  }

  lemma MergeTiles(h: Memory, base: int, l: seq<int>, live: set<int>, region: set<int>, k: int)
    requires Ring(h, base, l) && Tiles(h, l, live, region)
    requires 1 <= k < |l| - 1 && l[k] + Sz(h, l[k]) == l[k + 1]
    ensures Tiles(Absorb(h, l[k], l[k + 1]), Skip(l, k + 1), live, region)
  {
    Ascend(h, l);
    var h' := Absorb(h, l[k], l[k + 1]);
    var l' := Skip(l, k + 1);
    forall a, i | a in live && 1 <= i < |l'| ensures a != l'[i] && Apart(h', a, l'[i]) {
      SkipAt(l, k + 1, i);
      assert Apart(h, a, l[k]) && Apart(h, a, l[k + 1]) && Apart(h, a, l[if i <= k then i else i + 1]);
    }
    forall a, b | a in live && b in live && a != b ensures Apart(h', a, b) {
      assert Apart(h, a, b) && Apart(h, a, l[k]) && Apart(h, b, l[k]);
    }
    forall a | a in live ensures Sz(h', a) == Sz(h, a) {
      assert Apart(h, a, l[k]);
    }
    forall x ensures InFree(h', l', x) <==> InFree(h, l, x) {
      MergeOwners(h, l, k, x);
    }
    assert forall x, a :: a in live ==> (Inside(h', a, x) <==> Inside(h, a, x));
  }

  lemma MergeOwners(h: Memory, l: seq<int>, k: int, x: int)
    requires forall i, j :: 0 <= i < j < |l| ==> l[i] != l[j]
    requires 1 <= k < |l| - 1 && l[k] + Sz(h, l[k]) == l[k + 1] && Sz(h, l[k]) >= 0 && Sz(h, l[k + 1]) >= 0
    ensures InFree(Absorb(h, l[k], l[k + 1]), Skip(l, k + 1), x) <==> InFree(h, l, x)
  {
    var h' := Absorb(h, l[k], l[k + 1]);
    var l' := Skip(l, k + 1);
    if InFree(h, l, x) {
      var i :| 1 <= i < |l| && Inside(h, l[i], x);
      var i' := if i <= k then i else i - 1;
      SkipAt(l, k + 1, i');
      SkipAt(l, k + 1, k);
      assert i == k + 1 ==> Inside(h', l'[k], x);
      assert i != k + 1 ==> Inside(h', l'[i'], x);
    }
    if InFree(h', l', x) {
      var i :| 1 <= i < |l'| && Inside(h', l'[i], x);
      SkipAt(l, k + 1, i);
      if i < k { assert Inside(h, l[i], x); }
      else if i == k { assert Inside(h, l[k], x) || Inside(h, l[k + 1], x); }
      else { assert Inside(h, l[i + 1], x); }
    }
  }

  // ---------------------------------------------------------------- free

  datatype Heap = Heap(h: Memory, l: seq<int>)

  /** What free does after its search stopped at position j: link, then merge upwards, then
      merge downwards. */
  function FreeAt(h: Memory, l: seq<int>, j: int, a: int): (r: Heap)
    requires 0 <= j < |l| && (a + Sz(h, a) == NextOf(l, j) ==> j + 1 < |l|)
    ensures |r.l| >= 1
  {
    var h1, l1 := LinkAfter(h, l[j], a), InsertAfter(l, j, a);
    var up := a + Sz(h, a) == NextOf(l, j);
    var h2, l2 := if up then Absorb(h1, a, l[j + 1]) else h1, if up then Skip(l1, j + 2) else l1;
    if l[j] + Sz(h, l[j]) == a then Heap(Absorb(h2, l[j], a), Skip(l2, j + 1)) else Heap(h2, l2)
  }

  lemma InsertGaps(h: Memory, l: seq<int>, j: int, a: int)
    requires Coalesced(h, l) && 0 <= j < |l|
    ensures forall k :: 0 <= k < |l| && k != j && k != j + 1 ==> Gap(LinkAfter(h, l[j], a), InsertAfter(l, j, a), k)
  {
    LinkSizes(h, l[j], a);
    var h', l' := LinkAfter(h, l[j], a), InsertAfter(l, j, a);
    forall k | 0 <= k < |l| && k != j && k != j + 1 ensures Gap(h', l', k) {
      InsertAt(l, j, a, k);
      InsertAt(l, j, a, k + 1);
      assert Gap(h, l, if k < j then k else k - 1);
    }
  }

  /** Merging two neighbours leaves every other pair as it was. */
  lemma MergeGaps(h: Memory, l: seq<int>, k: int, except: int)
    requires Ascending(h, l) && 0 <= k < |l| - 1 && !Gap(h, l, k) && except < k
    requires forall i :: 0 <= i < |l| - 1 && i != k && i != except ==> Gap(h, l, i)
    ensures var h', l' := Absorb(h, l[k], l[k + 1]), Skip(l, k + 1);
      forall i :: 0 <= i < |l| - 2 && i != except ==> Gap(h', l', i)
  {
    Ascend(h, l);
    var h', l' := Absorb(h, l[k], l[k + 1]), Skip(l, k + 1);
    forall i | 0 <= i < |l| - 2 && i != except ensures Gap(h', l', i) {
      SkipAt(l, k + 1, i);
      SkipAt(l, k + 1, i + 1);
      assert i < k ==> Gap(h, l, i);
      assert i >= k ==> Gap(h, l, i + 1);
    }
  }

  /** Ring and tiling in one piece of a free, with the gaps known so far. */
  ghost predicate Good(h: Memory, base: int, l: seq<int>, live: set<int>, region: set<int>) {
    Ring(h, base, l) && Tiles(h, l, live, region)
  }

  lemma LiveNotFree(h: Memory, base: int, l: seq<int>, live: set<int>, region: set<int>, a: int)
    requires Good(h, base, l, live, region) && a in live && base < a
    ensures a !in l
  {
    Ascend(h, l);
    forall k | 0 <= k < |l| ensures l[k] != a {
      assert k > 0 ==> Apart(h, a, l[k]);
    }
  }

  lemma FreeLink(h: Memory, base: int, l: seq<int>, live: set<int>, region: set<int>, j: int, a: int)
    requires Good(h, base, l, live, region) && Coalesced(h, l)
    requires a in live && base < a && Slot(l, j, a)
    ensures a + Sz(h, a) == NextOf(l, j) ==> j + 1 < |l|
    ensures var h1, l1 := LinkAfter(h, l[j], a), InsertAfter(l, j, a);
      && Good(h1, base, l1, live - {a}, region)
      && Sz(h1, a) == Sz(h, a) && Sz(h1, l[j]) == Sz(h, l[j])
      && forall k :: 0 <= k < |l| && k != j && k != j + 1 ==> Gap(h1, l1, k)
  {
    LiveNotFree(h, base, l, live, region, a);
    LinkSizes(h, l[j], a);
    InsertRing(h, base, l, j, a);
    InsertTiles(h, l, live, region, j, a);
    InsertGaps(h, l, j, a);
  }

  lemma FreeUp(h: Memory, base: int, l: seq<int>, live: set<int>, region: set<int>, k: int)
    requires Good(h, base, l, live, region) && 1 <= k < |l| - 1 && !Gap(h, l, k)
    requires forall i :: 0 <= i < |l| - 1 && i != k - 1 && i != k ==> Gap(h, l, i)
    ensures var h', l' := Absorb(h, l[k], l[k + 1]), Skip(l, k + 1);
      && Good(h', base, l', live, region)
      && l'[..k + 1] == l[..k + 1] && Sz(h', l[k]) >= Sz(h, l[k]) && Sz(h', l[k - 1]) == Sz(h, l[k - 1])
      && forall i :: 0 <= i < |l'| - 1 && i != k - 1 ==> Gap(h', l', i)
  {
    Ascend(h, l);
    MergeRing(h, base, l, k);
    MergeTiles(h, base, l, live, region, k);
    MergeGaps(h, l, k, k - 1);
  }

  lemma FreeDown(h: Memory, base: int, l: seq<int>, live: set<int>, region: set<int>, k: int)
    requires Good(h, base, l, live, region) && 0 <= k < |l| - 1 && !Gap(h, l, k)
    requires forall i :: 0 <= i < |l| - 1 && i != k ==> Gap(h, l, i)
    ensures var h', l' := Absorb(h, l[k], l[k + 1]), Skip(l, k + 1);
      && Good(h', base, l', live, region) && Coalesced(h', l') && k >= 1
      && l'[..k + 1] == l[..k + 1] && Sz(h', l[k]) >= Sz(h, l[k + 1])
  {
    Ascend(h, l);
    assert k != 0 by {
      assert Sz(h, l[0]) == 0 && l[0] < l[1];
    }
    MergeRing(h, base, l, k);
    MergeTiles(h, base, l, live, region, k);
    MergeGaps(h, l, k, -1);
  }

  /** After linking and merging upwards: position j, block a after it, gaps elsewhere. */
  lemma FreeFirst(h: Memory, base: int, l: seq<int>, live: set<int>, region: set<int>, j: int, a: int)
    returns (h2: Memory, l2: seq<int>)
    requires Good(h, base, l, live, region) && Coalesced(h, l)
    requires a in live && base < a && Slot(l, j, a)
    ensures a + Sz(h, a) == NextOf(l, j) ==> j + 1 < |l|
    ensures var up := a + Sz(h, a) == NextOf(l, j);
      && h2 == (if up then Absorb(LinkAfter(h, l[j], a), a, l[j + 1]) else LinkAfter(h, l[j], a))
      && l2 == (if up then Skip(InsertAfter(l, j, a), j + 2) else InsertAfter(l, j, a))
    ensures Good(h2, base, l2, live - {a}, region)
    ensures j + 1 < |l2| && l2[j] == l[j] && l2[j + 1] == a
    ensures Sz(h2, a) >= Sz(h, a) && Sz(h2, l[j]) == Sz(h, l[j])
    ensures forall i :: 0 <= i < |l2| - 1 && i != j ==> Gap(h2, l2, i)
  {
    FreeLink(h, base, l, live, region, j, a);
    h2, l2 := LinkAfter(h, l[j], a), InsertAfter(l, j, a);
    assert l2[j] == l[j] && l2[j + 1] == a;
    if a + Sz(h, a) == NextOf(l, j) {
      assert l2[j + 2] == l[j + 1];
      FreeUp(h2, base, l2, live - {a}, region, j + 1);
      var l1 := l2;
      h2, l2 := Absorb(h2, a, l[j + 1]), Skip(l2, j + 2);
      assert l2[j] == l1[j] && l2[j + 1] == l1[j + 1];
    } else if j + 2 < |l2| {
      assert l2[j + 2] == l[j + 1];
      assert Gap(h2, l2, j + 1);
    }
  }

  /** free keeps the ring, the tiling and full coalescing, and the freed units stay in one
      piece of a free block. */
  lemma FreeKeeps(h: Memory, base: int, l: seq<int>, live: set<int>, region: set<int>, j: int, a: int)
    requires Good(h, base, l, live, region) && Coalesced(h, l)
    requires a in live && base < a && Slot(l, j, a)
    ensures a + Sz(h, a) == NextOf(l, j) ==> j + 1 < |l|
    ensures var r := FreeAt(h, l, j, a);
      && Good(r.h, base, r.l, live - {a}, region) && Coalesced(r.h, r.l)
      && j < |r.l| && r.l[j] == l[j]
      && exists k :: 1 <= k < |r.l| && Sz(r.h, r.l[k]) >= Sz(h, a)
  {
    var h2, l2 := FreeFirst(h, base, l, live, region, j, a);
    if l[j] + Sz(h, l[j]) == a {
      FreeDown(h2, base, l2, live - {a}, region, j);
      assert Skip(l2, j + 1)[j] == l[j];
    } else {
      assert Gap(h2, l2, j);
    }
  }

  // ---------------------------------------------------------------- malloc

  /** The search took the whole k-th block: prevp->ptr = p->ptr. */
  lemma TakeKeeps(h: Memory, base: int, l: seq<int>, live: set<int>, region: set<int>, k: int)
    requires Good(h, base, l, live, region) && Coalesced(h, l) && 1 <= k < |l|
    ensures var h' := h[l[k - 1] := Header(Ptr(h, l[k]), Sz(h, l[k - 1]))];
      Good(h', base, Skip(l, k), live + {l[k]}, region) && Coalesced(h', Skip(l, k))
    ensures base < l[k] && l[k] !in live && Skip(l, k)[k - 1] == l[k - 1]
  {
    Ascend(h, l);
    var h' := h[l[k - 1] := Header(Ptr(h, l[k]), Sz(h, l[k - 1]))];
    var l' := Skip(l, k);
    assert forall x :: Sz(h', x) == Sz(h, x);
    TakeRing(h, base, l, k);
    forall a, i | a in live + {l[k]} && 1 <= i < |l'| ensures a != l'[i] && Apart(h', a, l'[i]) {
      SkipAt(l, k, i);
      var i' := if i < k then i else i + 1;
      if a in live { assert Apart(h, a, l[i']); }
      else if i' < k { assert l[i'] + Sz(h, l[i']) <= l[k]; }
      else { assert l[k] + Sz(h, l[k]) <= l[i']; }
    }
    forall a, b | a in live + {l[k]} && b in live + {l[k]} && a != b ensures Apart(h', a, b) {
      if a == l[k] { assert Apart(h, b, l[k]); }
      else if b == l[k] { assert Apart(h, a, l[k]); }
      else { assert Apart(h, a, b); }
    }
    assert forall a {:trigger a in live} :: a in live ==> Apart(h, a, l[k]) && a != l[k];
    forall x ensures InFree(h', l', x) || InLive(h', live + {l[k]}, x) <==> InFree(h, l, x) || InLive(h, live, x) {
      TakeOwners(h, h', l, live, k, x);
    }
  }

  lemma TakeCircular(h: Memory, l: seq<int>, k: int)
    requires Circular(h, l) && Ascending(h, l) && 1 <= k < |l|
    ensures Circular(h[l[k - 1] := Header(Ptr(h, l[k]), Sz(h, l[k - 1]))], Skip(l, k))
  {
    var h' := h[l[k - 1] := Header(Ptr(h, l[k]), Sz(h, l[k - 1]))];
    var l' := Skip(l, k);
    Ascend(h, l);
    forall i | 0 <= i < |l'| ensures l'[i] in h' && Ptr(h', l'[i]) == NextOf(l', i) {
      SkipAt(l, k, i);
      assert Ptr(h, l[k]) == NextOf(l, k);
      var i' := if i < k then i else i + 1;
      assert Ptr(h, l[i']) == NextOf(l, i');
    }
  }

  /** Dropping an element keeps order and gaps, whatever happens to pointers. */
  lemma TakeOrder(h: Memory, h': Memory, l: seq<int>, k: int)
    requires Ascending(h, l) && Coalesced(h, l) && 1 <= k < |l| && (forall x :: Sz(h', x) == Sz(h, x))
    requires Sz(h, l[k]) >= 1
    ensures Ascending(h', Skip(l, k)) && Coalesced(h', Skip(l, k))
  {
    var l' := Skip(l, k);
    forall i, j | 0 <= i < j < |l'| ensures Below(h', l', i, j) {
      SkipAt(l, k, i);
      SkipAt(l, k, j);
      assert Below(h, l, if i < k then i else i + 1, if j < k then j else j + 1);
    }
    forall i | 0 <= i < |l'| - 1 ensures Gap(h', l', i) {
      SkipAt(l, k, i);
      SkipAt(l, k, i + 1);
      if i < k - 1 { assert Gap(h, l, i); }
      else if i >= k { assert Gap(h, l, i + 1); }
      else { assert Below(h, l, k - 1, k) && Below(h, l, k, k + 1); }
    }
  }

  lemma TakeRing(h: Memory, base: int, l: seq<int>, k: int)
    requires Ring(h, base, l) && Coalesced(h, l) && 1 <= k < |l|
    ensures var h' := h[l[k - 1] := Header(Ptr(h, l[k]), Sz(h, l[k - 1]))];
      Ring(h', base, Skip(l, k)) && Coalesced(h', Skip(l, k))
  {
    var h' := h[l[k - 1] := Header(Ptr(h, l[k]), Sz(h, l[k - 1]))];
    TakeCircular(h, l, k);
    TakeOrder(h, h', l, k);
    forall i | 0 <= i < |l| - 1 ensures Skip(l, k)[i] == if i < k then l[i] else l[i + 1] {
      SkipAt(l, k, i);
    }
  }

  lemma TakeOwners(h: Memory, h': Memory, l: seq<int>, live: set<int>, k: int, x: int)
    requires 1 <= k < |l| && forall y :: Sz(h', y) == Sz(h, y)
    ensures InFree(h', Skip(l, k), x) || InLive(h', live + {l[k]}, x) <==> InFree(h, l, x) || InLive(h, live, x)
  {
    var l' := Skip(l, k);
    if InFree(h, l, x) {
      var i :| 1 <= i < |l| && Inside(h, l[i], x);
      if i == k { assert l[k] in live + {l[k]} && Inside(h', l[k], x); }
      else {
        var i' := if i < k then i else i - 1;
        SkipAt(l, k, i');
        assert Inside(h', l'[i'], x);
      }
    }
    if InLive(h, live, x) {
      var a :| a in live && Inside(h, a, x);
      assert a in live + {l[k]} && Inside(h', a, x);
    }
    if InFree(h', l', x) {
      var i :| 1 <= i < |l'| && Inside(h', l'[i], x);
      SkipAt(l, k, i);
      assert Inside(h, l[if i < k then i else i + 1], x);
    }
    if InLive(h', live + {l[k]}, x) {
      var a :| a in live + {l[k]} && Inside(h', a, x);
      assert Inside(h, a, x);
    }
  }

  /** The search cut n units off the end of block p. */
  function Cut(h: Memory, p: int, n: int): Memory {
    var rest := Sz(h, p) - n;
    var h1 := h[p := Header(Ptr(h, p), rest)];
    h1[p + rest := Header(Ptr(h1, p + rest), n)]
  }

  lemma CutSizes(h: Memory, p: int, n: int)
    requires 1 <= n < Sz(h, p)
    ensures var q := p + Sz(h, p) - n; var h' := Cut(h, p, n);
      && Sz(h', p) == Sz(h, p) - n && Sz(h', q) == n && p in h' && q in h'
      && (forall x :: x != p && x != q ==> Sz(h', x) == Sz(h, x))
      && (forall x :: x != q ==> Ptr(h', x) == Ptr(h, x))
      && (forall x :: x in h ==> x in h')
  {
  }

  lemma CutOutside(h: Memory, l: seq<int>, k: int, n: int, i: int)
    requires Ascending(h, l) && 1 <= k < |l| && 1 <= n < Sz(h, l[k]) && 0 <= i < |l|
    ensures l[i] != l[k] + Sz(h, l[k]) - n && (i != k ==> l[i] != l[k])
  {
    assert i < k ==> Below(h, l, i, k);
    assert k < i ==> Below(h, l, k, i);
  }

  lemma CutRing(h: Memory, base: int, l: seq<int>, k: int, n: int)
    requires Ring(h, base, l) && Coalesced(h, l) && 1 <= k < |l| && 1 <= n < Sz(h, l[k])
    ensures Ring(Cut(h, l[k], n), base, l) && Coalesced(Cut(h, l[k], n), l)
    ensures l[k] + Sz(h, l[k]) - n !in l
  {
    var h' := Cut(h, l[k], n);
    CutSizes(h, l[k], n);
    forall i | 0 <= i < |l|
      ensures l[i] != l[k] + Sz(h, l[k]) - n && l[i] in h' && Ptr(h', l[i]) == NextOf(l, i)
      ensures Sz(h', l[i]) == if i == k then Sz(h, l[k]) - n else Sz(h, l[i])
    {
      CutOutside(h, l, k, n, i);
      assert Ptr(h, l[i]) == NextOf(l, i);
    }
    forall i, j | 0 <= i < j < |l| ensures Below(h', l, i, j) {
      assert Below(h, l, i, j);
    }
    forall i | 0 <= i < |l| - 1 ensures Gap(h', l, i) {
      assert Gap(h, l, i) && Below(h, l, i, i + 1);
    }
  }

  lemma CutKeeps(h: Memory, base: int, l: seq<int>, live: set<int>, region: set<int>, k: int, p: int, n: int)
    requires Good(h, base, l, live, region) && Coalesced(h, l)
    requires 1 <= k < |l| && p == l[k] && 1 <= n < Sz(h, p)
    ensures var q := p + Sz(h, p) - n; var h' := Cut(h, p, n);
      && q !in live && base < q && Sz(h', q) == n
      && Good(h', base, l, live + {q}, region) && Coalesced(h', l)
  {
    Ascend(h, l);
    var h' := Cut(h, p, n);
    var q := p + Sz(h, p) - n;
    CutSizes(h, p, n);
    CutRing(h, base, l, k, n);
    forall a | a in live ensures a != q && Sz(h', a) == Sz(h, a) && Apart(h', a, q) {
      assert Apart(h, a, l[k]);
    }
    forall i | 1 <= i < |l| ensures Apart(h', q, l[i]) {
      assert i < k ==> l[i] + Sz(h, l[i]) <= p;
      assert k < i ==> p + Sz(h, p) <= l[i];
    }
    forall a, i | a in live + {q} && 1 <= i < |l| ensures a != l[i] && Apart(h', a, l[i]) {
      assert a in live ==> Apart(h, a, l[i]);
    }
    forall a, b | a in live + {q} && b in live + {q} && a != b ensures Apart(h', a, b) {
      assert a in live && b in live ==> Apart(h, a, b);
    }
    forall x ensures InFree(h', l, x) || InLive(h', live + {q}, x) <==> InFree(h, l, x) || InLive(h, live, x) {
      CutOwners(h, l, live, k, n, x);
    }
  }

  lemma CutOwners(h: Memory, l: seq<int>, live: set<int>, k: int, n: int, x: int)
    requires 1 <= k < |l| && 1 <= n < Sz(h, l[k]) && l[k] + Sz(h, l[k]) - n !in l && l[k] !in live
    requires l[k] + Sz(h, l[k]) - n !in live
    ensures var q := l[k] + Sz(h, l[k]) - n; var h' := Cut(h, l[k], n);
      InFree(h', l, x) || InLive(h', live + {q}, x) <==> InFree(h, l, x) || InLive(h, live, x)
  {
    var q := l[k] + Sz(h, l[k]) - n;
    var h' := Cut(h, l[k], n);
    CutSizes(h, l[k], n);
    if InFree(h, l, x) {
      var i :| 1 <= i < |l| && Inside(h, l[i], x);
      assert Inside(h', l[i], x) || (q in live + {q} && Inside(h', q, x));
    }
    if InLive(h, live, x) {
      var a :| a in live && Inside(h, a, x);
      assert a in live + {q} && Inside(h', a, x);
    }
    if InFree(h', l, x) {
      var i :| 1 <= i < |l| && Inside(h', l[i], x);
      assert Inside(h, l[i], x);
    }
    if InLive(h', live + {q}, x) {
      var a :| a in live + {q} && Inside(h', a, x);
      assert a == q ==> Inside(h, l[k], x);
      assert a != q ==> Inside(h, a, x);
    }
  }

  function Range(a: int, n: nat): (r: set<int>)
    ensures forall x :: x in r <==> a <= x < a + n
  {
    if n == 0 then {} else Range(a, n - 1) + {a + n - 1}
  }

  /** sbrk granted n fresh units at a, not yet on the list. */
  lemma GrantKeeps(h: Memory, base: int, l: seq<int>, live: set<int>, region: set<int>, a: int, n: int, ptr: int)
    requires Good(h, base, l, live, region) && Coalesced(h, l) && n >= 1 && base < a
    requires forall x :: x in region ==> x < a
    ensures var h' := h[a := Header(ptr, n)];
      && a !in live && a !in l
      && Good(h', base, l, live + {a}, region + Range(a, n)) && Coalesced(h', l)
  {
    var h' := h[a := Header(ptr, n)];
    forall k | 1 <= k < |l| ensures l[k] + Sz(h, l[k]) <= a {
      assert Inside(h, l[k], l[k] + Sz(h, l[k]) - 1);
      assert l[k] + Sz(h, l[k]) - 1 in region;
    }
    forall b | b in live ensures b + Sz(h, b) <= a {
      assert Inside(h, b, b + Sz(h, b) - 1);
      assert b + Sz(h, b) - 1 in region;
    }
    assert a !in l;
    assert forall x :: x != a ==> Sz(h', x) == Sz(h, x) && Ptr(h', x) == Ptr(h, x);
    GrantRing(h, base, l, a, Header(ptr, n));
    forall b, k | b in live + {a} && 1 <= k < |l| ensures b != l[k] && Apart(h', b, l[k]) {
      assert b in live ==> Apart(h, b, l[k]);
    }
    forall b, c | b in live + {a} && c in live + {a} && b != c ensures Apart(h', b, c) {
      assert b in live && c in live ==> Apart(h, b, c);
    }
    forall x ensures x in region + Range(a, n) <==> InFree(h', l, x) || InLive(h', live + {a}, x) {
      GrantOwners(h, l, live, region, a, Header(ptr, n), x);
    }
  }

  /** Writing outside the list's headers keeps the list. */
  lemma GrantRing(h: Memory, base: int, l: seq<int>, a: int, hd: Header)
    requires Ring(h, base, l) && Coalesced(h, l) && a !in l
    ensures Ring(h[a := hd], base, l) && Coalesced(h[a := hd], l)
  {
    var h' := h[a := hd];
    forall k | 0 <= k < |l| ensures l[k] in h' && Ptr(h', l[k]) == NextOf(l, k) && Sz(h', l[k]) == Sz(h, l[k]) {
      assert Ptr(h, l[k]) == NextOf(l, k);
    }
    forall i, j | 0 <= i < j < |l| ensures Below(h', l, i, j) {
      assert Below(h, l, i, j);
    }
    forall k | 0 <= k < |l| - 1 ensures Gap(h', l, k) {
      assert Gap(h, l, k);
    }
  }

  lemma GrantOwners(h: Memory, l: seq<int>, live: set<int>, region: set<int>, a: int, hd: Header, x: int)
    requires a !in l && a !in live && Covers(h, l, live, region)
    ensures x in region || a <= x < a + hd.size <==>
      InFree(h[a := hd], l, x) || InLive(h[a := hd], live + {a}, x)
  {
    var h' := h[a := hd];
    if InFree(h, l, x) {
      var k :| 1 <= k < |l| && Inside(h, l[k], x);
      assert Inside(h', l[k], x);
    }
    if InLive(h, live, x) {
      var b :| b in live && Inside(h, b, x);
      assert b in live + {a} && Inside(h', b, x);
    }
    if a <= x < a + hd.size {
      assert a in live + {a} && Inside(h', a, x);
    }
    if InFree(h', l, x) {
      var k :| 1 <= k < |l| && Inside(h', l[k], x);
      assert Inside(h, l[k], x);
    }
    if InLive(h', live + {a}, x) {
      var b :| b in live + {a} && Inside(h', b, x);
      assert b != a ==> Inside(h, b, x);
    }
  }
}

/** The free list, and what runs of page-table operations do to the roles and maps of PageTree. */
module PageMaps {
  import opened Sequences
  import opened Arith
  import opened PageTree

  const PGSIZE := 4096
  const TRAMPOLINE := MAXPAGE - 1   // page numbers, memlayout.h
  const TRAPFRAME := MAXPAGE - 2

  const PTE_R := 2
  const PTE_W := 4
  const PTE_X := 8
  const PTE_U := 16

  function Up(n: nat): nat { (n + PGSIZE - 1) / PGSIZE }   // PGROUNDUP, as a page number

  /** The least number of pages with room for n bytes. */
  lemma UpLeast(n: nat)
    ensures n <= Up(n) * 4096 && (Up(n) > 0 ==> (Up(n) - 1) * 4096 < n)
  {
  }

  function Junk(x: nat): Page { seq(512, _ => x) }

  /** The free list threaded through the first word of each free page. */
  predicate Linked(m: seq<Page>, free: seq<nat>, head: nat) {
    if free == [] then head == 0
    else head == free[0] && 0 < head < |m| && Linked(m, free[1..], m[head][0])
  }

  lemma {:induction false} LinkedSame(m: seq<Page>, m': seq<Page>, free: seq<nat>, head: nat)
    requires |m'| == |m| && Linked(m, free, head)
    requires forall p :: p in free && p < |m| ==> m'[p] == m[p]
    ensures Linked(m', free, head)
  {
    if free != [] { LinkedSame(m, m', free[1..], m[head][0]); }
  }

  ghost predicate FreeOk(m: seq<Page>, role: seq<Role>, free: seq<nat>, head: nat) {
    && |role| == |m| && Linked(m, free, head) && Distinct(free)
    && (forall p: nat :: p in free <==> p < |m| && role[p] == Free)
    && 0 < |m| && role[0] == Held
  }

  /** Only free pages have become nodes of root's tree; everything else keeps its role. */
  ghost predicate Grew(role: seq<Role>, role': seq<Role>, root: nat) {
    && |role'| == |role|
    && forall p :: 0 <= p < |role| ==>
         role'[p] == role[p] || (role[p] == Free && role'[p].Node? && role'[p].root == root)
  }

  /** Pages that are neither free nor page tables keep their contents. */
  ghost predicate SameData(m: seq<Page>, role: seq<Role>, m': seq<Page>) {
    && |m'| == |m| == |role|
    && forall p :: 0 <= p < |m| && (role[p].Held? || role[p].Frame?) ==> m'[p] == m[p]
  }

  lemma FreeFrame(m: seq<Page>, role: seq<Role>, m': seq<Page>, role': seq<Role>, free: seq<nat>, head: nat)
    requires FreeOk(m, role, free, head) && |m'| == |m| && |role'| == |m|
    requires forall p :: 0 <= p < |m| && role[p] == Free ==> m'[p] == m[p]
    requires forall p :: 0 <= p < |m| ==> (role'[p] == Free <==> role[p] == Free)
    requires role'[0] == Held
    ensures FreeOk(m', role', free, head)
  {
    LinkedSame(m, m', free, head);
  }

  lemma SameMapsFrames(m: seq<Page>, role: seq<Role>, m': seq<Page>, role': seq<Role>)
    requires TreeOk(m, role) && FramesOk(m, role) && SameMaps(m, role, m') && |role'| == |role|
    requires forall p :: 0 <= p < |role| && role'[p].Frame? ==> role'[p] == role[p]
    requires forall r: nat :: IsRoot(role, r) ==> IsRoot(role', r)
    ensures FramesOk(m', role')
  {
    forall p | 0 <= p < |role'| && role'[p].Frame? ensures FrameOk(m', role', p) {
      assert FrameOk(m, role, p);
    }
  }

  /** In root's map the n page numbers from first go to the n frames from ppn; nothing else changed. */
  ghost predicate MapsRange(m0: seq<Page>, role0: seq<Role>, m: seq<Page>, root: nat, first: nat, n: nat, ppn: nat, perm: nat) {
    perm < 1024 &&
    forall r: nat, v: nat {:trigger Mapped(m, r, v)} :: IsRoot(role0, r) && v < PAGES ==>
      Mapped(m, r, v) ==
        if r == root && first <= v < first + n then LeafPte(ppn + (v - first), perm) else Mapped(m0, r, v)
  }

  lemma RangeWalked(m0: seq<Page>, role0: seq<Role>, m1: seq<Page>, role1: seq<Role>, m2: seq<Page>, role2: seq<Role>,
                    root: nat, first: nat, n: nat, ppn: nat, perm: nat)
    requires MapsRange(m0, role0, m1, root, first, n, ppn, perm) && SameMaps(m1, role1, m2)
    requires Grew(role0, role1, root) && SameData(m0, role0, m1)
    requires Grew(role1, role2, root) && SameData(m1, role1, m2)
    ensures MapsRange(m0, role0, m2, root, first, n, ppn, perm)
    ensures Grew(role0, role2, root) && SameData(m0, role0, m2)
  {
    forall r: nat, v: nat | IsRoot(role0, r) && v < PAGES ensures Mapped(m2, r, v) == Mapped(m1, r, v) {
      assert IsRoot(role1, r);
    }
  }

  lemma RangePut(m0: seq<Page>, role0: seq<Role>, m2: seq<Page>, role: seq<Role>, m3: seq<Page>,
                 root: nat, first: nat, n: nat, ppn: nat, perm: nat)
    requires MapsRange(m0, role0, m2, root, first, n, ppn, perm)
    requires MapsWith(m2, role, m3, root, first + n, LeafPte(ppn + n, perm)) && SameData(m2, role, m3)
    requires Grew(role0, role, root) && SameData(m0, role0, m2)
    ensures MapsRange(m0, role0, m3, root, first, n + 1, ppn, perm) && SameData(m0, role0, m3)
  {
    forall r: nat, v: nat | IsRoot(role0, r) && v < PAGES
      ensures Mapped(m3, r, v) ==
        if r == root && first <= v < first + n + 1 then LeafPte(ppn + (v - first), perm) else Mapped(m0, r, v)
    {
      assert IsRoot(role, r);
      assert Mapped(m2, r, v) ==
        if r == root && first <= v < first + n then LeafPte(ppn + (v - first), perm) else Mapped(m0, r, v);
    }
  }

  lemma NoFrameAt(m: seq<Page>, role: seq<Role>, root: nat, v: nat)
    requires FramesOk(m, role) && (Mapped(m, root, v) == 0 || Ppn(Mapped(m, root, v)) >= |role|
                                   || role[Ppn(Mapped(m, root, v))] != Frame(root, v))
    ensures forall p :: 0 <= p < |role| ==> role[p] != Frame(root, v)
  {
    forall p | 0 <= p < |role| ensures role[p] != Frame(root, v) {
      assert role[p].Frame? ==> FrameOk(m, role, p);
    }
  }

  /** Growth and unchanged maps add up over two steps. */
  lemma Further(m0: seq<Page>, role0: seq<Role>, m1: seq<Page>, role1: seq<Role>, m2: seq<Page>, role2: seq<Role>, root: nat)
    requires Grew(role0, role1, root) && SameMaps(m0, role0, m1) && SameData(m0, role0, m1)
    requires Grew(role1, role2, root) && SameMaps(m1, role1, m2) && SameData(m1, role1, m2)
    ensures Grew(role0, role2, root) && SameMaps(m0, role0, m2) && SameData(m0, role0, m2)
  {
    forall r: nat, v: nat | IsRoot(role0, r) && v < PAGES ensures Mapped(m2, r, v) == Mapped(m0, r, v) {
      assert IsRoot(role1, r);
      assert Mapped(m1, r, v) == Mapped(m0, r, v);
    }
  }

  lemma NodeNotNull(m: seq<Page>, role: seq<Role>, p: nat)
    requires 0 < |role| && role[0] == Held && p < |role| && role[p].Node?
    ensures p != 0
  {
  }

  /** In root's map the n page numbers from first are gone; nothing else changed. */
  ghost predicate MapsCleared(m0: seq<Page>, role0: seq<Role>, m: seq<Page>, root: nat, first: nat, n: nat) {
    forall r: nat, v: nat {:trigger Mapped(m, r, v)} :: IsRoot(role0, r) && v < PAGES ==>
      Mapped(m, r, v) == if r == root && first <= v < first + n then 0 else Mapped(m0, r, v)
  }

  /** Exactly the frames recorded for those page numbers are free again. */
  ghost predicate Unframed(role0: seq<Role>, role: seq<Role>, root: nat, first: nat, n: nat) {
    && |role| == |role0|
    && forall p :: 0 <= p < |role| ==>
         role[p] == if role0[p].Frame? && role0[p].root == root && first <= role0[p].vpn < first + n then Free else role0[p]
  }

  /** v is mapped to a frame of its own. */
  ghost predicate Owned(m: seq<Page>, role: seq<Role>, root: nat, v: nat) {
    Ppn(Mapped(m, root, v)) < |role| && role[Ppn(Mapped(m, root, v))] == Frame(root, v)
  }

  /** Taking back one more frame. */
  lemma UnframeOne(role0: seq<Role>, role: seq<Role>, role': seq<Role>, root: nat, first: nat, n: nat, p: nat,
                   m: seq<Page>)
    requires Unframed(role0, role, root, first, n) && p < |role| && role[p] == Frame(root, first + n)
    requires FramesOk(m, role) && role' == role[p := Free]
    ensures Unframed(role0, role', root, first, n + 1)
  {
    assert FrameOk(m, role, p);
    forall q | 0 <= q < |role| && role[q] == Frame(root, first + n) ensures q == p {
      assert FrameOk(m, role, q);
    }
  }

  lemma ClearOne(m0: seq<Page>, role0: seq<Role>, m1: seq<Page>, role: seq<Role>, m2: seq<Page>, root: nat,
                 first: nat, n: nat)
    requires MapsCleared(m0, role0, m1, root, first, n) && MapsWith(m1, role, m2, root, first + n, 0)
    requires forall r: nat :: IsRoot(role0, r) ==> IsRoot(role, r)
    ensures MapsCleared(m0, role0, m2, root, first, n + 1)
  {
    forall r: nat, v: nat | IsRoot(role0, r) && v < PAGES
      ensures Mapped(m2, r, v) == if r == root && first <= v < first + n + 1 then 0 else Mapped(m0, r, v)
    {
      assert IsRoot(role, r);
      assert Mapped(m1, r, v) == if r == root && first <= v < first + n then 0 else Mapped(m0, r, v);
    }
  }

  lemma LeafIsMore(w: nat)
    requires IsLeaf(w)
    ensures Flags(w) != 1
  {
    if Flags(w) == 1 {
      QuotientUnique(w, w / 1024 * 512, 1, 2);
      QuotientUnique(w / 2, w / 1024 * 64, 0, 8);
    }
  }

  /** One fresh page p now holds data and is mapped at v; page-table pages may have been added. */
  ghost predicate Added(m0: seq<Page>, role0: seq<Role>, m: seq<Page>, role: seq<Role>, root: nat, v: nat, p: nat,
                        data: Page, perm: nat) {
    && perm < 1024 && |role| == |role0| && p < |role| && p < |m|
    && role0[p] == Free && role[p] == Frame(root, v) && m[p] == data
    && (forall q :: 0 <= q < |role| && q != p ==>
          role[q] == role0[q] || (role0[q] == Free && role[q].Node? && role[q].root == root))
    && MapsWith(m0, role0, m, root, v, LeafPte(p, perm)) && SameData(m0, role0, m)
  }

  /** Nothing is different except that page-table pages may have been added below root. */
  ghost predicate OnlyGrew(m0: seq<Page>, role0: seq<Role>, m: seq<Page>, role: seq<Role>, root: nat) {
    Grew(role0, role, root) && SameMaps(m0, role0, m) && SameData(m0, role0, m)
  }

  /** The n page numbers from first are mapped, each to a page that was free before; every other
      page number of every map is as it was. */
  ghost predicate Filled(m0: seq<Page>, role0: seq<Role>, m: seq<Page>, role: seq<Role>, root: nat, first: nat, n: nat) {
    && |role| == |role0|
    && (forall p :: 0 <= p < |role| ==>
          || role[p] == role0[p]
          || (role0[p] == Free && role[p].Node? && role[p].root == root)
          || (role0[p] == Free && role[p].Frame? && role[p].root == root && first <= role[p].vpn < first + n))
    && (forall r: nat, v: nat {:trigger Mapped(m, r, v)} {:trigger FilledAt(m0, role0, m, role, root, first, n, r, v)} ::
          IsRoot(role0, r) && v < PAGES ==> FilledAt(m0, role0, m, role, root, first, n, r, v))
    && SameData(m0, role0, m)
  }

  ghost predicate FilledAt(m0: seq<Page>, role0: seq<Role>, m: seq<Page>, role: seq<Role>, root: nat, first: nat, n: nat,
                           r: nat, v: nat) {
    if r == root && first <= v < first + n then FreshAt(role0, m, role, r, v)
    else Mapped(m, r, v) == Mapped(m0, r, v)
  }

  /** v is mapped to a frame of its own that used to be free. */
  ghost predicate FreshAt(role0: seq<Role>, m: seq<Page>, role: seq<Role>, r: nat, v: nat) {
    && IsLeaf(Mapped(m, r, v)) && Owned(m, role, r, v)
    && Ppn(Mapped(m, r, v)) < |role0| && role0[Ppn(Mapped(m, r, v))] == Free
  }

  lemma FilledGrew(m0: seq<Page>, role0: seq<Role>, m1: seq<Page>, role1: seq<Role>, m2: seq<Page>, role2: seq<Role>,
                   root: nat, first: nat, n: nat)
    requires Filled(m0, role0, m1, role1, root, first, n) && OnlyGrew(m1, role1, m2, role2, root)
    ensures Filled(m0, role0, m2, role2, root, first, n)
  {
    forall r: nat, v: nat | IsRoot(role0, r) && v < PAGES
      ensures FilledAt(m0, role0, m2, role2, root, first, n, r, v)
    {
      assert IsRoot(role1, r);
      assert Mapped(m2, r, v) == Mapped(m1, r, v) && FilledAt(m0, role0, m1, role1, root, first, n, r, v);
    }
  }

  lemma FilledOne(m0: seq<Page>, role0: seq<Role>, m1: seq<Page>, role1: seq<Role>, m2: seq<Page>, role2: seq<Role>,
                  root: nat, first: nat, n: nat, p: nat, data: Page, perm: nat)
    requires Filled(m0, role0, m1, role1, root, first, n)
    requires Added(m1, role1, m2, role2, root, first + n, p, data, perm) && perm / 2 % 8 != 0
    ensures Filled(m0, role0, m2, role2, root, first, n + 1)
  {
    LeafPteFields(p, perm);
    assert role0[p] == Free;
    var k := n + 1;
    forall r: nat, v: nat | IsRoot(role0, r) && v < PAGES
      ensures FilledAt(m0, role0, m2, role2, root, first, k, r, v)
    {
      assert IsRoot(role1, r) && FilledAt(m0, role0, m1, role1, root, first, n, r, v);
      assert Mapped(m2, r, v) == if r == root && v == first + n then LeafPte(p, perm) else Mapped(m1, r, v);
    }
  }

  /** Unmapping what was filled leads back to the maps and data there were. */
  lemma RollBack(m0: seq<Page>, role0: seq<Role>, m1: seq<Page>, role1: seq<Role>, m2: seq<Page>, role2: seq<Role>,
                 root: nat, first: nat, n: nat)
    requires FramesOk(m0, role0) && IsRoot(role0, root) && first + n <= MAXPAGE
    requires forall v: nat :: first <= v < first + n ==> Mapped(m0, root, v) == 0
    requires Filled(m0, role0, m1, role1, root, first, n)
    requires MapsCleared(m1, role1, m2, root, first, n) && Unframed(role1, role2, root, first, n)
    requires SameData(m1, role2, m2)
    ensures OnlyGrew(m0, role0, m2, role2, root)
  {
    forall p | 0 <= p < |role0| && role0[p].Frame? && role0[p].root == root ensures !(first <= role0[p].vpn < first + n) {
      assert FrameOk(m0, role0, p);
    }
    forall r: nat, v: nat | IsRoot(role0, r) && v < PAGES ensures Mapped(m2, r, v) == Mapped(m0, r, v) {
      assert IsRoot(role1, r);
      assert r == root && first <= v < first + n ==> Mapped(m0, root, v) == 0;
      assert FilledAt(m0, role0, m1, role1, root, first, n, r, v);
    }
  }

  /** Maps and data unchanged by two steps that leave every tree's nodes in place. */
  lemma MapsTrans(m0: seq<Page>, role0: seq<Role>, m1: seq<Page>, role1: seq<Role>, m2: seq<Page>)
    requires SameMaps(m0, role0, m1) && SameMaps(m1, role1, m2)
    requires forall r: nat :: IsRoot(role0, r) ==> IsRoot(role1, r)
    ensures SameMaps(m0, role0, m2)
  {
    forall r: nat, v: nat | IsRoot(role0, r) && v < PAGES ensures Mapped(m2, r, v) == Mapped(m0, r, v) {
      assert Mapped(m1, r, v) == Mapped(m0, r, v);
    }
  }

  /** A successful mappages of one page. */
  lemma MapsOne(m0: seq<Page>, role0: seq<Role>, m2: seq<Page>, role2: seq<Role>, m3: seq<Page>, root: nat, v: nat,
                p: nat, perm: nat)
    requires SameMaps(m0, role0, m2) && MapsRange(m2, role2, m3, root, v, 1, p, perm)
    requires forall r: nat :: IsRoot(role0, r) ==> IsRoot(role2, r)
    ensures MapsWith(m0, role0, m3, root, v, LeafPte(p, perm))
  {
    forall r: nat, u: nat | IsRoot(role0, r) && u < PAGES
      ensures Mapped(m3, r, u) == if r == root && u == v then LeafPte(p, perm) else Mapped(m0, r, u)
    {
      assert Mapped(m2, r, u) == Mapped(m0, r, u);
    }
  }

  /** A new frame for v, put together from its allocation and its mapping. */
  lemma IsAdded(m0: seq<Page>, role0: seq<Role>, m2: seq<Page>, role2: seq<Role>, m3: seq<Page>, role3: seq<Role>,
                role4: seq<Role>, root: nat, v: nat, p: nat, data: Page, perm: nat)
    requires |role0| == |m0| == |m2| && perm < 1024 && 0 < p < |role0| && role0[p] == Free && role2 == role0[p := Held]
    requires m2[p] == data && forall q :: 0 <= q < |m0| && q != p ==> m2[q] == m0[q]
    requires SameMaps(m0, role0, m2) && MapsRange(m2, role2, m3, root, v, 1, p, perm)
    requires Grew(role2, role3, root) && SameData(m2, role2, m3) && role4 == role3[p := Frame(root, v)]
    ensures Added(m0, role0, m3, role4, root, v, p, data, perm)
  {
    MapsOne(m0, role0, m2, role2, m3, root, v, p, perm);
  }

  lemma MapsNone(m0: seq<Page>, role0: seq<Role>, m2: seq<Page>, role2: seq<Role>, m3: seq<Page>, root: nat, v: nat,
                 p: nat, perm: nat)
    requires SameMaps(m0, role0, m2) && MapsRange(m2, role2, m3, root, v, 0, p, perm)
    requires forall r: nat :: IsRoot(role0, r) ==> IsRoot(role2, r)
    ensures SameMaps(m0, role0, m3)
  {
    forall r: nat, u: nat | IsRoot(role0, r) && u < PAGES ensures Mapped(m3, r, u) == Mapped(m0, r, u) {
      assert Mapped(m2, r, u) == Mapped(m0, r, u);
    }
  }

  lemma SameFilled(m: seq<Page>, role: seq<Role>, root: nat, first: nat)
    requires |m| == |role|
    ensures Filled(m, role, m, role, root, first, 0)
  {
  }

  lemma FilledOwned(m0: seq<Page>, role0: seq<Role>, m: seq<Page>, role: seq<Role>, root: nat, first: nat, n: nat)
    requires Filled(m0, role0, m, role, root, first, n) && IsRoot(role0, root) && first + n <= MAXPAGE
    ensures forall v: nat :: first <= v < first + n ==> Mapped(m, root, v) != 0
    ensures forall v: nat :: first <= v < first + n ==> Owned(m, role, root, v)
  {
  }

  /** v is mapped readable, for the user, with xperm, to a page of zeroes. */
  ghost predicate UserPage(m: seq<Page>, root: nat, v: nat, xperm: nat) {
    var w := Mapped(m, root, v);
    Flags(w) == 19 + xperm && Ppn(w) < |m| && m[Ppn(w)] == Zero()
  }

  lemma UserPageKept(m1: seq<Page>, role1: seq<Role>, m2: seq<Page>, role2: seq<Role>, root: nat, first: nat, a: nat,
                     p: nat, xperm: nat)
    requires FramesOk(m1, role1) && IsRoot(role1, root) && a < MAXPAGE && xperm in {0, PTE_W, PTE_X, PTE_W + PTE_X}
    requires Added(m1, role1, m2, role2, root, a, p, Zero(), PTE_R + PTE_U + xperm)
    requires forall v: nat :: first <= v < a ==> UserPage(m1, root, v, xperm)
    requires forall v: nat :: first <= v < a ==> Owned(m1, role1, root, v)
    ensures forall v: nat :: first <= v < a + 1 ==> UserPage(m2, root, v, xperm)
  {
    LeafPteFields(p, PTE_R + PTE_U + xperm);
    forall v: nat | first <= v < a + 1 ensures UserPage(m2, root, v, xperm) {
      assert Mapped(m2, root, v) == if v == a then LeafPte(p, PTE_R + PTE_U + xperm) else Mapped(m1, root, v);
      if v < a { assert UserPage(m1, root, v, xperm) && Owned(m1, role1, root, v); }
    }
  }

  /** v has the same flags and data in child's map as it had in parent's. */
  ghost predicate CopyOf(m0: seq<Page>, parent: nat, m: seq<Page>, child: nat, v: nat) {
    var w0, w := Mapped(m0, parent, v), Mapped(m, child, v);
    Flags(w) == Flags(w0) && Ppn(w) != Ppn(w0) && Ppn(w) < |m| && Ppn(w0) < |m0| && m[Ppn(w)] == m0[Ppn(w0)]
  }

  lemma FlagsOfLeaf(w: nat)
    requires IsLeaf(w)
    ensures IsV(Flags(w)) && Flags(w) / 2 % 8 != 0
  {
    var f := Flags(w);
    assert w == w / 1024 * 1024 + f;
    QuotientUnique(w / 2, w / 1024 * 64 + f / 16, f / 2 % 8, 8);
  }

  /** The first n page numbers of child are fresh copies of parent's; nothing else is different. */
  ghost predicate Copied(m0: seq<Page>, role0: seq<Role>, m: seq<Page>, role: seq<Role>, parent: nat, child: nat, n: nat) {
    && Filled(m0, role0, m, role, child, 0, n)
    && forall v: nat {:trigger CopyOf(m0, parent, m, child, v)} :: v < n ==> CopyOf(m0, parent, m, child, v)
  }

  lemma CopiedSoFar(m0: seq<Page>, role0: seq<Role>, m1: seq<Page>, role1: seq<Role>, parent: nat, child: nat, i: nat)
    requires Copied(m0, role0, m1, role1, parent, child, i) && parent != child && i < MAXPAGE
    requires IsRoot(role0, parent) && IsRoot(role0, child) && Owned(m0, role0, parent, i)
    ensures Mapped(m1, parent, i) == Mapped(m0, parent, i) && Mapped(m1, child, i) == Mapped(m0, child, i)
    ensures Owned(m1, role1, parent, i) && Ppn(Mapped(m0, parent, i)) < |m0| == |m1|
    ensures m1[Ppn(Mapped(m0, parent, i))] == m0[Ppn(Mapped(m0, parent, i))]
  {
  }

  lemma CopiedNext(m0: seq<Page>, role0: seq<Role>, m1: seq<Page>, role1: seq<Role>, m2: seq<Page>, role2: seq<Role>,
                   parent: nat, child: nat, i: nat, p: nat)
    requires IsRoot(role0, parent) && IsRoot(role0, child) && parent != child && i < MAXPAGE
    requires Owned(m0, role0, parent, i) && IsLeaf(Mapped(m0, parent, i))
    requires Copied(m0, role0, m1, role1, parent, child, i) && |m1| == |m0| == |role1|
    requires Ppn(Mapped(m0, parent, i)) < |m1|
    requires Added(m1, role1, m2, role2, child, i, p, m1[Ppn(Mapped(m0, parent, i))], Flags(Mapped(m0, parent, i)))
    ensures Copied(m0, role0, m2, role2, parent, child, i + 1)
  {
    CopiedSoFar(m0, role0, m1, role1, parent, child, i);
    var w := Mapped(m0, parent, i);
    FlagsOfLeaf(w);
    FilledOne(m0, role0, m1, role1, m2, role2, child, 0, i, p, m1[Ppn(w)], Flags(w));
    LeafPteFields(p, Flags(w));
    forall v: nat | v < i + 1 ensures CopyOf(m0, parent, m2, child, v) {
      assert IsRoot(role1, child);
      assert Mapped(m2, child, v) == if v == i then LeafPte(p, Flags(w)) else Mapped(m1, child, v);
      if v < i {
        assert CopyOf(m0, parent, m1, child, v);
        assert IsRoot(role0, child) && Mapped(m1, child, v) != 0 && Owned(m1, role1, child, v);
      }
    }
  }

  /** After everything mapped has been unmapped the map is empty and the tree has no frame left. */
  lemma EmptyNow(m0: seq<Page>, role0: seq<Role>, m1: seq<Page>, role1: seq<Role>, root: nat, n: nat)
    requires FramesOk(m0, role0) && IsRoot(role0, root)
    requires forall v: nat :: v < PAGES ==> (Mapped(m0, root, v) != 0 <==> v < n)
    requires n == 0 ==> m1 == m0 && role1 == role0
    requires n > 0 ==> MapsCleared(m0, role0, m1, root, 0, n) && Unframed(role0, role1, root, 0, n)
    ensures forall v: nat :: v < PAGES ==> Mapped(m1, root, v) == 0
    ensures forall q :: 0 <= q < |role1| && role1[q].Frame? ==> role1[q].root != root
  {
    forall q | 0 <= q < |role1| && role1[q].Frame? ensures role1[q].root != root {
      assert FrameOk(m0, role0, q);
    }
  }
}

/** What fork does to the roles and maps of physical memory, put together from its parts. */
module PageFork {
  import opened PageTree
  import opened PageMaps
  import opened PageTeardown

  /** A process's page table: frames of its own for [0, n), trampoline, trapframe, nothing else. */
  ghost predicate UserMap(m: seq<Page>, role: seq<Role>, root: nat, n: nat) {
    && (forall v: nat :: v < PAGES ==> (Mapped(m, root, v) != 0 <==> v < n || v == TRAPFRAME || v == TRAMPOLINE))
    && (forall v: nat :: v < n ==> Owned(m, role, root, v))
    && !Owned(m, role, root, TRAMPOLINE) && !Owned(m, role, root, TRAPFRAME)
  }

  /** Since (m0, role0), root's tree and a held trapframe page have come into being, nothing else. */
  ghost predicate Born(m0: seq<Page>, role0: seq<Role>, m: seq<Page>, role: seq<Role>, root: nat, trapframe: nat) {
    && |role0| == |role| == |m| == |m0| && IsRoot(role, root) && role0[root] == Free
    && 0 < trapframe < |role| && role[trapframe] == Held && role0[trapframe] == Free
    && (forall q :: 0 <= q < |role| && q != trapframe ==>
          role[q] == role0[q] || (role0[q] == Free && role[q].Node? && role[q].root == root))
    && SameMaps(m0, role0, m) && SameData(m0, role0, m)
  }

  lemma IsBorn(m0: seq<Page>, role0: seq<Role>, m1: seq<Page>, role1: seq<Role>, m2: seq<Page>, role2: seq<Role>,
               root: nat, trapframe: nat)
    requires |role0| == |m0| == |m1| && 0 < trapframe < |role0| && role0[trapframe] == Free && role1 == role0[trapframe := Held]
    requires SameMaps(m0, role0, m1) && forall q :: 0 <= q < |m0| && q != trapframe ==> m1[q] == m0[q]
    requires Sprouted(m1, role1, m2, role2, root)
    ensures Born(m0, role0, m2, role2, root, trapframe)
  {
    MapsTrans(m0, role0, m1, role1, m2);
  }

  lemma NotBorn(m0: seq<Page>, role0: seq<Role>, m1: seq<Page>, role1: seq<Role>, m2: seq<Page>, m3: seq<Page>,
                role3: seq<Role>, trapframe: nat)
    requires |role0| == |m0| == |m1| == |m2| == |m3|
    requires 0 < trapframe < |role0| && role0[trapframe] == Free && role1 == role0[trapframe := Held]
    requires SameMaps(m0, role0, m1) && forall q :: 0 <= q < |m0| && q != trapframe ==> m1[q] == m0[q]
    requires SameMaps(m1, role1, m2) && SameData(m1, role1, m2) && role3 == role1[trapframe := Free]
    requires SameMaps(m2, role1, m3) && forall q :: 0 <= q < |m0| && q != trapframe ==> m3[q] == m2[q]
    ensures role3 == role0 && SameMaps(m0, role0, m3) && SameData(m0, role0, m3)
  {
    MapsTrans(m0, role0, m1, role1, m2);
    MapsTrans(m0, role0, m2, role1, m3);
  }

  lemma UserMapKept(m0: seq<Page>, role0: seq<Role>, m1: seq<Page>, role1: seq<Role>, root: nat, n: nat, trapframe: nat)
    requires UserMap(m0, role0, root, n) && IsRoot(role0, root) && SameMaps(m0, role0, m1) && n <= TRAPFRAME
    requires trapframe < |role0| && role0[trapframe] == Held && role1 == role0[trapframe := Free]
    ensures UserMap(m1, role1, root, n)
  {
    assert Mapped(m1, root, TRAMPOLINE) == Mapped(m0, root, TRAMPOLINE);
    assert Mapped(m1, root, TRAPFRAME) == Mapped(m0, root, TRAPFRAME);
    forall v: nat | v < n ensures Owned(m1, role1, root, v) {
      assert Owned(m0, role0, root, v) && Mapped(m1, root, v) == Mapped(m0, root, v);
    }
  }

  lemma OthersAfter(m0: seq<Page>, role0: seq<Role>, m1: seq<Page>, role1: seq<Role>, m2: seq<Page>, root: nat)
    requires SameMaps(m0, role0, m1) && OtherMaps(m1, role1, m2, root)
    requires forall r: nat :: IsRoot(role0, r) ==> IsRoot(role1, r)
    ensures OtherMaps(m0, role0, m2, root)
  {
    forall r: nat, v: nat | IsRoot(role0, r) && r != root && v < PAGES ensures Mapped(m2, r, v) == Mapped(m0, r, v) {
      assert Mapped(m1, r, v) == Mapped(m0, r, v);
    }
  }

  /** A new tree maps no frame of its own. */
  lemma BareUserMap(m: seq<Page>, role: seq<Role>, root: nat, trampoline: nat, trapframe: nat)
    requires BareMap(m, root, trampoline, trapframe)
    requires forall q :: 0 <= q < |role| && role[q].Frame? ==> role[q].root != root
    ensures UserMap(m, role, root, 0)
  {
    LeafPteFields(trampoline / PGSIZE, PTE_R + PTE_X);
    LeafPteFields(trapframe / PGSIZE, PTE_R + PTE_W);
  }

  lemma ReadyToCopy(m0: seq<Page>, role0: seq<Role>, m1: seq<Page>, role1: seq<Role>, parent: nat, child: nat,
                    trapframe: nat, trampoline: nat, n: nat)
    requires TreeOk(m0, role0) && FramesOk(m0, role0) && IsRoot(role0, parent) && UserMap(m0, role0, parent, n)
    requires Born(m0, role0, m1, role1, child, trapframe) && n <= TRAPFRAME
    requires BareMap(m1, child, trampoline, trapframe * PGSIZE)
    ensures IsRoot(role1, parent) && parent != child
    ensures forall v: nat :: v < n ==> Mapped(m1, parent, v) != 0
    ensures forall v: nat :: v < n ==> Owned(m1, role1, parent, v)
    ensures forall v: nat :: v < n ==> Mapped(m1, child, v) == 0
    ensures forall q :: 0 <= q < |role1| && role1[q].Frame? ==> role1[q].root != child
  {
    NoTreeYet(m0, role0, child);
    forall v: nat | v < n ensures Mapped(m1, parent, v) != 0 && Owned(m1, role1, parent, v) {
      assert Mapped(m1, parent, v) == Mapped(m0, parent, v) && Owned(m0, role0, parent, v);
    }
  }

  lemma StillBare(m1: seq<Page>, role1: seq<Role>, m2: seq<Page>, role2: seq<Role>, child: nat, trampoline: nat, trapframe: nat)
    requires BareMap(m1, child, trampoline, trapframe) && OnlyGrew(m1, role1, m2, role2, child) && IsRoot(role1, child)
    requires forall q :: 0 <= q < |role1| && role1[q].Frame? ==> role1[q].root != child
    ensures UserMap(m2, role2, child, 0)
  {
    forall v: nat | v < PAGES ensures Mapped(m2, child, v) == Mapped(m1, child, v) {}
    BareUserMap(m2, role2, child, trampoline, trapframe);
  }

  lemma Unforked(m0: seq<Page>, role0: seq<Role>, m1: seq<Page>, role1: seq<Role>, m2: seq<Page>, role2: seq<Role>,
                 m3: seq<Page>, role3: seq<Role>, child: nat, trapframe: nat)
    requires TreeOk(m0, role0) && FramesOk(m0, role0) && Born(m0, role0, m1, role1, child, trapframe)
    requires OnlyGrew(m1, role1, m2, role2, child)
    requires TornDown(role2[trapframe := Free], role3, child) && OtherMaps(m2, role2, m3, child) && SameData(m2, role3, m3)
    ensures role3 == role0 && SameMaps(m0, role0, m3) && SameData(m0, role0, m3)
  {
    NoTreeYet(m0, role0, child);
    MapsTrans(m0, role0, m1, role1, m2);
    forall r: nat, v: nat | IsRoot(role0, r) && v < PAGES ensures Mapped(m3, r, v) == Mapped(m0, r, v) {
      assert IsRoot(role1, r) && IsRoot(role2, r) && Mapped(m2, r, v) == Mapped(m0, r, v);
    }
  }

  /** child is a process's page table, each of its n frames a copy of parent's on a page that was free;
      no other map and no other data is different. */
  ghost predicate Forked(m0: seq<Page>, role0: seq<Role>, m: seq<Page>, role: seq<Role>, parent: nat, child: nat,
                         trapframe: nat, trampoline: nat, n: nat) {
    && IsRoot(role, child) && UserMap(m, role, child, n)
    && Mapped(m, child, TRAPFRAME) == trapframe * 1024 + 7
    && Mapped(m, child, TRAMPOLINE) == trampoline / PGSIZE * 1024 + 11
    && (forall v: nat :: v < n ==> FreshAt(role0, m, role, child, v) && CopyOf(m0, parent, m, child, v))
    && SameMaps(m0, role0, m) && SameData(m0, role0, m)
    && |role| == |role0| && 0 < trapframe < |role| && role[trapframe] == Held && role0[trapframe] == Free
    && (forall q :: 0 <= q < |role| && q != trapframe ==>
          role[q] == role0[q] || (role0[q] == Free && OfTree(role[q], child)))
  }

  lemma ForkedMap(m1: seq<Page>, role1: seq<Role>, m2: seq<Page>, role2: seq<Role>, parent: nat, child: nat,
                  trapframe: nat, trampoline: nat, n: nat)
    requires Copied(m1, role1, m2, role2, parent, child, n) && n <= TRAPFRAME && IsRoot(role1, child)
    requires BareMap(m1, child, trampoline, trapframe * PGSIZE)
    requires forall q :: 0 <= q < |role1| && role1[q].Frame? ==> role1[q].root != child
    ensures UserMap(m2, role2, child, n)
    ensures Mapped(m2, child, TRAPFRAME) == trapframe * 1024 + 7
    ensures Mapped(m2, child, TRAMPOLINE) == trampoline / PGSIZE * 1024 + 11
  {
    assert trapframe * PGSIZE / PGSIZE == trapframe;
    BareUserMap(m1, role1, child, trampoline, trapframe * PGSIZE);
    forall v: nat | v < PAGES
      ensures if v < n then FreshAt(role1, m2, role2, child, v) else Mapped(m2, child, v) == Mapped(m1, child, v)
    {
      assert FilledAt(m1, role1, m2, role2, child, 0, n, child, v);
    }
  }

  lemma ForkedOthers(m0: seq<Page>, role0: seq<Role>, m1: seq<Page>, role1: seq<Role>, m2: seq<Page>, role2: seq<Role>,
                     parent: nat, child: nat, trapframe: nat, n: nat)
    requires TreeOk(m0, role0) && FramesOk(m0, role0) && Born(m0, role0, m1, role1, child, trapframe)
    requires Copied(m1, role1, m2, role2, parent, child, n)
    ensures SameMaps(m0, role0, m2)
  {
    NoTreeYet(m0, role0, child);
    forall r: nat, v: nat | IsRoot(role0, r) && v < PAGES ensures Mapped(m2, r, v) == Mapped(m0, r, v) {
      assert IsRoot(role1, r) && Mapped(m1, r, v) == Mapped(m0, r, v);
      assert FilledAt(m1, role1, m2, role2, child, 0, n, r, v);
    }
  }

  lemma ForkedCopies(m0: seq<Page>, role0: seq<Role>, m1: seq<Page>, role1: seq<Role>, m2: seq<Page>, role2: seq<Role>,
                     parent: nat, child: nat, trapframe: nat, n: nat)
    requires IsRoot(role0, parent) && forall v: nat :: v < n ==> Owned(m0, role0, parent, v)
    requires Born(m0, role0, m1, role1, child, trapframe) && n <= TRAPFRAME && IsRoot(role1, child)
    requires Copied(m1, role1, m2, role2, parent, child, n)
    ensures forall v: nat :: v < n ==> FreshAt(role0, m2, role2, child, v) && CopyOf(m0, parent, m2, child, v)
  {
    forall v: nat | v < n ensures FreshAt(role0, m2, role2, child, v) && CopyOf(m0, parent, m2, child, v) {
      assert FilledAt(m1, role1, m2, role2, child, 0, n, child, v);
      assert CopyOf(m1, parent, m2, child, v) && Mapped(m1, parent, v) == Mapped(m0, parent, v);
      assert Owned(m0, role0, parent, v);
    }
  }

  lemma IsForked(m0: seq<Page>, role0: seq<Role>, m1: seq<Page>, role1: seq<Role>, m2: seq<Page>, role2: seq<Role>,
                 parent: nat, child: nat, trapframe: nat, trampoline: nat, n: nat)
    requires TreeOk(m0, role0) && FramesOk(m0, role0) && IsRoot(role0, parent) && UserMap(m0, role0, parent, n)
    requires Born(m0, role0, m1, role1, child, trapframe) && n <= TRAPFRAME
    requires BareMap(m1, child, trampoline, trapframe * PGSIZE)
    requires Copied(m1, role1, m2, role2, parent, child, n) && IsRoot(role2, child)
    ensures Forked(m0, role0, m2, role2, parent, child, trapframe, trampoline, n)
  {
    ReadyToCopy(m0, role0, m1, role1, parent, child, trapframe, trampoline, n);
    ForkedMap(m1, role1, m2, role2, parent, child, trapframe, trampoline, n);
    ForkedOthers(m0, role0, m1, role1, m2, role2, parent, child, trapframe, n);
    ForkedCopies(m0, role0, m1, role1, m2, role2, parent, child, trapframe, n);
  }
}

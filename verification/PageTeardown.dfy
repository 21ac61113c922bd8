/** What freewalk relies on while it takes a tree apart: the nodes stay linked to the root, and
    only entries on the way from the root to the page at hand may be stale. */
module PageTeardown {
  import opened Arith
  import opened PageTree
  import opened PageMaps

  ghost predicate EntriesBut(m: seq<Page>, role: seq<Role>, ex: set<(nat, nat)>)
    requires |role| == |m|
  {
    forall p: nat, i: nat {:trigger EntryOk(m, role, p, i)} ::
      p < |m| && role[p].Node? && i < 512 && (p, i) !in ex ==> EntryOk(m, role, p, i)
  }

  function Shift(prefix: nat, levels: int): nat {
    if levels == 1 then prefix / 512 else if levels == 2 then prefix / 512 / 512 else prefix
  }

  /** A node at or below the nodes of root at this level whose prefixes are in [lo, hi). */
  predicate Under(n: Role, root: nat, level: int, lo: nat, hi: nat) {
    n.Node? && n.root == root && n.level <= level && lo <= Shift(n.prefix, level - n.level) < hi
  }

  lemma {:induction false} PrefixBound(m: seq<Page>, role: seq<Role>, q: nat)
    requires NodesOk(m, role) && q < |m| && role[q].Node?
    ensures role[q].level <= 2 && Shift(role[q].prefix, 2 - role[q].level) == 0
    decreases 2 - role[q].level
  {
    assert NodeOk(m, role, q);
    if role[q].level < 2 { PrefixBound(m, role, role[q].up); }
  }

  /** A node below p hangs from an entry of p that is not clear. */
  lemma {:induction false} UnderMeansEntry(m: seq<Page>, role: seq<Role>, p: nat, q: nat, i: nat)
    requires NodesOk(m, role) && p < |m| && q < |m| && role[p].Node? && i < 512
    requires var x := role[p].prefix * 512 + i; Under(role[q], role[p].root, role[p].level - 1, x, x + 1)
    ensures m[p][i] != 0
    decreases 2 - role[q].level
  {
    assert NodeOk(m, role, q) && NodeOk(m, role, p);
    var up := role[q].up;
    if role[q].level == role[p].level - 1 {
      NodeUnique(m, role, up, p);
    } else {
      assert NodeOk(m, role, up);
      UnderMeansEntry(m, role, p, up, i);
    }
  }

  /** Clearing the entry of a child that is gone. */
  lemma ClearEntry(m: seq<Page>, role: seq<Role>, ex: set<(nat, nat)>, p: nat, i: nat, m': seq<Page>)
    requires NodesOk(m, role) && EntriesBut(m, role, ex + {(p, i)}) && p < |m| && role[p].Node? && i < 512
    requires m' == m[p := m[p][i := 0]]
    requires forall q :: 0 <= q < |m| && role[q].Node? && role[q].level < 2 && role[q].up == p ==> role[q].prefix % 512 != i
    ensures NodesOk(m', role) && EntriesBut(m', role, ex)
  {
    forall q | 0 <= q < |m| && role[q].Node? ensures NodeOk(m', role, q) {
      assert NodeOk(m, role, q);
    }
    forall q: nat, j: nat | q < |m| && role[q].Node? && j < 512 && (q, j) !in ex ensures EntryOk(m', role, q, j) {
      if q != p || j != i { assert EntryOk(m, role, q, j); }
    }
  }

  /** A node with no children left is named by nothing but its parent's entry. */
  lemma DropNode(m: seq<Page>, role: seq<Role>, ex: set<(nat, nat)>, p: nat, m': seq<Page>, role': seq<Role>)
    requires NodesOk(m, role) && EntriesBut(m, role, ex) && p < |m| && role[p].Node?
    requires forall i :: 0 <= i < 512 ==> m[p][i] == 0
    requires |m'| == |m| && role' == role[p := Free] && forall q :: 0 <= q < |m| && q != p ==> m'[q] == m[q]
    ensures NodesOk(m', role') && EntriesBut(m', role', ex + {(role[p].up, role[p].prefix % 512)})
  {
    forall q | 0 <= q < |m| && role'[q].Node? ensures NodeOk(m', role', q) {
      assert NodeOk(m, role, q) && NodeOk(m, role, p);
      TablePteFields(q);
      if role[q].root == p { OnlyRoot(m, role, p, q); }
    }
    forall q: nat, j: nat | q < |m| && role'[q].Node? && j < 512 && (q, j) !in ex + {(role[p].up, role[p].prefix % 512)}
      ensures EntryOk(m', role', q, j)
    {
      assert EntryOk(m, role, q, j);
    }
  }

  /** A root whose entries are all clear has no other node. */
  lemma {:induction false} OnlyRoot(m: seq<Page>, role: seq<Role>, p: nat, q: nat)
    requires NodesOk(m, role) && p < |m| && q < |m| && role[p].Node? && role[q].Node? && role[q].root == p
    requires forall i :: 0 <= i < 512 ==> m[p][i] == 0
    ensures q == p
    decreases 2 - role[q].level
  {
    assert NodeOk(m, role, q);
    TablePteFields(q);
    if role[q].level < 2 { OnlyRoot(m, role, p, role[q].up); }
  }

  /** Every leaf slot below the nodes in range is clear. */
  ghost predicate NoLeaves(m: seq<Page>, role: seq<Role>, root: nat, level: int, lo: nat, hi: nat)
    requires |role| == |m|
  {
    forall q: nat, j: nat {:trigger m[q][j]} ::
      q < |m| && Under(role[q], root, level, lo, hi) && role[q].level == 0 && j < 512 ==> m[q][j] == 0
  }

  /** An empty map has no leaf slot in use. */
  lemma EmptyNoLeaves(m: seq<Page>, role: seq<Role>, root: nat)
    requires TreeOk(m, role) && forall v: nat :: v < PAGES ==> Mapped(m, root, v) == 0
    ensures NoLeaves(m, role, root, 2, 0, 1)
  {
    forall q: nat, j: nat | q < |m| && Under(role[q], root, 2, 0, 1) && role[q].level == 0 && j < 512 ensures m[q][j] == 0 {
      PrefixBound(m, role, q);
      var v := role[q].prefix * 512 + j;
      assert v < PAGES && Prefix(0, v) == role[q].prefix && Px(0, v) == j;
      ThroughNode(m, role, q, v);
    }
  }

  /** Exactly the nodes in the range are free now. */
  ghost predicate Freed(role0: seq<Role>, role: seq<Role>, root: nat, level: int, lo: nat, hi: nat) {
    && |role| == |role0|
    && forall q :: 0 <= q < |role| ==> role[q] == if Under(role0[q], root, level, lo, hi) then Free else role0[q]
  }

  lemma FreedJoin(role0: seq<Role>, role1: seq<Role>, role2: seq<Role>, root: nat, level: int, lo: nat, mid: nat)
    requires Freed(role0, role1, root, level, lo, mid) && Freed(role1, role2, root, level, mid, mid + 1) && lo <= mid
    ensures Freed(role0, role2, root, level, lo, mid + 1)
  {
  }

  /** A clear entry has nothing below it. */
  lemma FreedSkip(m: seq<Page>, role0: seq<Role>, role: seq<Role>, p: nat, i: nat)
    requires NodesOk(m, role) && p < |m| && role[p].Node? && i < 512 && m[p][i] == 0
    requires Freed(role0, role, role[p].root, role[p].level - 1, role[p].prefix * 512, role[p].prefix * 512 + i)
    ensures Freed(role0, role, role[p].root, role[p].level - 1, role[p].prefix * 512, role[p].prefix * 512 + i + 1)
  {
    var x := role[p].prefix * 512 + i;
    forall q | 0 <= q < |role| ensures !Under(role[q], role[p].root, role[p].level - 1, x, x + 1) {
      if Under(role[q], role[p].root, role[p].level - 1, x, x + 1) {
        UnderMeansEntry(m, role, p, q, i);
      }
    }
  }

  lemma FreedAll(m0: seq<Page>, role0: seq<Role>, role1: seq<Role>, p: nat)
    requires NodesOk(m0, role0) && p < |m0| && role0[p].Node? && |role1| == |role0|
    requires Freed(role0, role1, role0[p].root, role0[p].level - 1, role0[p].prefix * 512, role0[p].prefix * 512 + 512)
    ensures Freed(role0, role1[p := Free], role0[p].root, role0[p].level, role0[p].prefix, role0[p].prefix + 1)
  {
    var n := role0[p];
    var role2 := role1[p := Free];
    assert NodeOk(m0, role0, p);
    forall q | 0 <= q < |role2|
      ensures role2[q] == if Under(role0[q], n.root, n.level, n.prefix, n.prefix + 1) then Free else role0[q]
    {
      assert role0[q].Node? ==> NodeOk(m0, role0, q);
      if role0[q].Node? && role0[q].root == n.root && role0[q].level == n.level && role0[q].prefix == n.prefix {
        NodeUnique(m0, role0, p, q);
      }
    }
  }

  /** What has no leaves before its siblings are freed has none after. */
  lemma ChildNoLeaves(m0: seq<Page>, role0: seq<Role>, m: seq<Page>, role: seq<Role>, p: nat, i: nat)
    requires |m0| == |role0| == |m| == |role| && p < |role| && i < 512
    requires role[p].Node? && role[p] == role0[p] && role[p].level <= 2
    requires NoLeaves(m0, role0, role[p].root, role[p].level, role[p].prefix, role[p].prefix + 1)
    requires Freed(role0, role, role[p].root, role[p].level - 1, role[p].prefix * 512, role[p].prefix * 512 + i)
    requires forall q :: 0 <= q < |m| && role[q] != Free && q != p ==> m[q] == m0[q]
    ensures NoLeaves(m, role, role[p].root, role[p].level - 1, role[p].prefix * 512 + i, role[p].prefix * 512 + i + 1)
  {
    var x := role[p].prefix * 512 + i;
    forall q: nat, j: nat | q < |m| && Under(role[q], role[p].root, role[p].level - 1, x, x + 1) && role[q].level == 0 && j < 512
      ensures m[q][j] == 0
    {
      assert role0[q] == role[q] && q != p;
      assert Under(role0[q], role[p].root, role[p].level, role[p].prefix, role[p].prefix + 1);
      assert m0[q][j] == 0;
    }
  }

  /** An entry on the way down is clear or points to a page-table page: freewalk never meets a leaf. */
  lemma NoLeafEntry(m: seq<Page>, role: seq<Role>, ex: set<(nat, nat)>, p: nat, i: nat)
    requires |m| == |role| && EntriesBut(m, role, ex) && p < |m| && role[p].Node? && i < 512 && (p, i) !in ex
    requires role[p].level == 0 ==> m[p][i] == 0
    ensures m[p][i] == 0 || (IsV(m[p][i]) && !IsLeaf(m[p][i]) && 0 < role[p].level && Ppn(m[p][i]) < |m|
                             && role[Ppn(m[p][i])] == Node(role[p].root, role[p].level - 1, role[p].prefix * 512 + i, p))
  {
    assert EntryOk(m, role, p, i);
    TablePteFields(Ppn(m[p][i]));
    if m[p][i] != 0 { TableNotLeaf(Ppn(m[p][i])); }
  }

  lemma TableNotLeaf(p: nat)
    ensures !IsLeaf(TablePte(p))
  {
    QuotientUnique(TablePte(p), p * 512, 1, 2);
    QuotientUnique(p * 512, p * 64, 0, 8);
  }

  /** Once everything under entry i of p is free, no node has it for its parent's entry. */
  lemma NoChildAt(m: seq<Page>, role: seq<Role>, p: nat, i: nat)
    requires NodesOk(m, role) && p < |m| && role[p].Node? && i < 512
    requires forall q :: 0 <= q < |role| ==>
      !Under(role[q], role[p].root, role[p].level - 1, role[p].prefix * 512 + i, role[p].prefix * 512 + i + 1)
    ensures forall q :: 0 <= q < |m| && role[q].Node? && role[q].level < 2 && role[q].up == p ==> role[q].prefix % 512 != i
  {
    forall q | 0 <= q < |m| && role[q].Node? && role[q].level < 2 && role[q].up == p ensures role[q].prefix % 512 != i {
      assert NodeOk(m, role, q);
      assert !Under(role[q], role[p].root, role[p].level - 1, role[p].prefix * 512 + i, role[p].prefix * 512 + i + 1);
    }
  }

  /** freewalk(p) has dealt with the first i entries. */
  ghost predicate HalfFreed(m0: seq<Page>, role0: seq<Role>, m: seq<Page>, role: seq<Role>, p: nat, i: nat)
    requires p < |m0| && |role0| == |m0| && role0[p].Node? && i <= 512
  {
    && |m| == |m0| == |role| && role[p] == role0[p]
    && Freed(role0, role, role[p].root, role[p].level - 1, role[p].prefix * 512, role[p].prefix * 512 + i)
    && (forall q :: 0 <= q < |m| && role[q] != Free && q != p ==> m[q] == m0[q])
    && (forall j :: 0 <= j < i ==> m[p][j] == 0)
    && (forall j :: i <= j < 512 ==> m[p][j] == m0[p][j])
  }

  lemma NextChild(m0: seq<Page>, role0: seq<Role>, m1: seq<Page>, role1: seq<Role>, m2: seq<Page>, role2: seq<Role>,
                  p: nat, i: nat)
    requires p < |m0| && |role0| == |m0| && role0[p].Node? && i < 512
    requires HalfFreed(m0, role0, m1, role1, p, i) && |m2| == |m1| && |role2| == |role1|
    requires role2[p] == role1[p] && m2[p] == m1[p][i := 0]
    requires Freed(role1, role2, role1[p].root, role1[p].level - 1, role1[p].prefix * 512 + i, role1[p].prefix * 512 + i + 1)
    requires forall q :: 0 <= q < |m1| && role2[q] != Free && q != p ==> m2[q] == m1[q]
    ensures HalfFreed(m0, role0, m2, role2, p, i + 1)
  {
    FreedJoin(role0, role1, role2, role1[p].root, role1[p].level - 1, role1[p].prefix * 512, role1[p].prefix * 512 + i);
  }

  /** Nodes above p's level are not freed. */
  lemma ExStays(role0: seq<Role>, role: seq<Role>, p: nat, ex: set<(nat, nat)>, i: nat)
    requires p < |role0| && role0[p].Node?
    requires Freed(role0, role, role0[p].root, role0[p].level - 1, role0[p].prefix * 512, role0[p].prefix * 512 + i)
    requires forall e :: e in ex ==> e.0 < |role0| && role0[e.0].Node? && role0[e.0].level > role0[p].level
    ensures forall e :: e in ex ==> e.0 < |role| && role[e.0].Node? && role[e.0].level > role0[p].level
  {
  }

  predicate OfTree(n: Role, root: nat) {
    (n.Node? || n.Frame?) && n.root == root
  }

  /** Every page of root's tree, tables and frames, is free again, and no other page changed role. */
  ghost predicate TornDown(role0: seq<Role>, role: seq<Role>, root: nat) {
    && |role| == |role0|
    && forall q :: 0 <= q < |role| ==> role[q] == if OfTree(role0[q], root) then Free else role0[q]
  }

  /** Every map but root's is as it was. */
  ghost predicate OtherMaps(m0: seq<Page>, role0: seq<Role>, m: seq<Page>, root: nat) {
    forall r: nat, v: nat {:trigger Mapped(m, r, v)} :: IsRoot(role0, r) && r != root && v < PAGES ==>
      Mapped(m, r, v) == Mapped(m0, r, v)
  }

  /** freewalk of a root with neither leaves nor frames. */
  lemma RootFreed(m1: seq<Page>, role1: seq<Role>, m2: seq<Page>, role2: seq<Role>, root: nat)
    requires TreeOk(m1, role1) && IsRoot(role1, root)
    requires forall q :: 0 <= q < |role1| && role1[q].Frame? ==> role1[q].root != root
    requires Freed(role1, role2, root, 2, 0, 1) && |m2| == |m1|
    requires forall q :: 0 <= q < |m2| && role2[q] != Free ==> m2[q] == m1[q]
    ensures TornDown(role1, role2, root) && OtherMaps(m1, role1, m2, root)
  {
    forall q | 0 <= q < |role1| && role1[q].Node? ensures Under(role1[q], root, 2, 0, 1) <==> role1[q].root == root {
      PrefixBound(m1, role1, q);
    }
    forall r: nat, v: nat | IsRoot(role1, r) && r != root && v < PAGES ensures Mapped(m2, r, v) == Mapped(m1, r, v) {
      SameLookup(m1, role1, m2, r, v);
    }
  }

  /** The other trees and their frames are still in order. */
  lemma OthersStand(m1: seq<Page>, role1: seq<Role>, m2: seq<Page>, role2: seq<Role>, root: nat)
    requires FramesOk(m1, role1) && TornDown(role1, role2, root) && OtherMaps(m1, role1, m2, root)
    requires NodesOk(m2, role2) && EntriesBut(m2, role2, {(0, 0)}) && 0 < |role2| && role2[0] == Held
    ensures TreeOk(m2, role2) && FramesOk(m2, role2)
  {
    forall p, i | 0 <= p < |m2| && role2[p].Node? && 0 <= i < 512 ensures EntryOk(m2, role2, p, i) {
      assert p != 0;
    }
    forall p | 0 <= p < |role2| && role2[p].Frame? ensures FrameOk(m2, role2, p) {
      assert FrameOk(m1, role1, p);
    }
  }

  /** A new root on a page that had no part in any tree. */
  lemma PlantRoot(m: seq<Page>, role: seq<Role>, p: nat, role': seq<Role>)
    requires TreeOk(m, role) && FramesOk(m, role) && p < |m| && role[p] == Held && m[p] == Zero()
    requires role' == role[p := Node(p, 2, 0, 0)]
    ensures TreeOk(m, role') && FramesOk(m, role')
    ensures forall v: nat :: v < PAGES ==> Mapped(m, p, v) == 0
  {
    forall q | 0 <= q < |m| && role'[q].Node? ensures NodeOk(m, role', q) {
      if q != p { assert NodeOk(m, role, q); }
    }
    forall q, i | 0 <= q < |m| && role'[q].Node? && 0 <= i < 512 ensures EntryOk(m, role', q, i) {
      if q != p { assert EntryOk(m, role, q, i); }
    }
    forall q | 0 <= q < |role'| && role'[q].Frame? ensures FrameOk(m, role', q) {
      assert FrameOk(m, role, q);
    }
  }

  /** Before a page is a root, nothing belongs to its tree. */
  lemma NoTreeYet(m: seq<Page>, role: seq<Role>, root: nat)
    requires TreeOk(m, role) && FramesOk(m, role) && !IsRoot(role, root)
    ensures forall q :: 0 <= q < |role| ==> !OfTree(role[q], root)
  {
    forall q | 0 <= q < |role| ensures !OfTree(role[q], root) {
      if role[q].Node? { assert NodeOk(m, role, q); }
      if role[q].Frame? { assert FrameOk(m, role, q); }
    }
  }

  /** All that has happened since (m0, role0) is that root's tree has come into being. */
  ghost predicate Sprouted(m0: seq<Page>, role0: seq<Role>, m: seq<Page>, role: seq<Role>, root: nat) {
    && |role0| == |role| == |m| == |m0| && root < |role| && role0[root] == Free && IsRoot(role, root)
    && (forall q :: 0 <= q < |role| ==>
          role[q] == role0[q] || (role0[q] == Free && role[q].Node? && role[q].root == root))
    && SameMaps(m0, role0, m) && SameData(m0, role0, m)
  }

  /** A page table has no frame at v if it has no frame at all. */
  lemma NoFrames(role: seq<Role>, root: nat, m: seq<Page>, v: nat)
    requires forall q :: 0 <= q < |role| && role[q].Frame? ==> role[q].root != root
    ensures !Owned(m, role, root, v)
  {
  }

  lemma SproutsOn(m0: seq<Page>, role0: seq<Role>, m1: seq<Page>, role1: seq<Role>, m2: seq<Page>, role2: seq<Role>, root: nat)
    requires Sprouted(m0, role0, m1, role1, root) && |m2| == |m1|
    requires Grew(role1, role2, root) && SameData(m1, role1, m2) && OtherMaps(m1, role1, m2, root)
    ensures Sprouted(m0, role0, m2, role2, root)
  {
    forall r: nat, v: nat | IsRoot(role0, r) && v < PAGES ensures Mapped(m2, r, v) == Mapped(m0, r, v) {
      assert IsRoot(role1, r) && Mapped(m1, r, v) == Mapped(m0, r, v);
    }
  }

  lemma RangeLeavesOthers(m1: seq<Page>, role1: seq<Role>, m2: seq<Page>, root: nat, first: nat, n: nat, ppn: nat, perm: nat)
    requires MapsRange(m1, role1, m2, root, first, n, ppn, perm)
    ensures OtherMaps(m1, role1, m2, root)
  {
  }

  lemma ClearLeavesOthers(m1: seq<Page>, role1: seq<Role>, m2: seq<Page>, root: nat, first: nat, n: nat)
    requires MapsCleared(m1, role1, m2, root, first, n)
    ensures OtherMaps(m1, role1, m2, root)
  {
  }

  /** Tearing down a tree that has just come into being restores every role. */
  lemma HandedBack(m0: seq<Page>, role0: seq<Role>, m1: seq<Page>, role1: seq<Role>, m2: seq<Page>, role2: seq<Role>, root: nat)
    requires TreeOk(m0, role0) && FramesOk(m0, role0) && Sprouted(m0, role0, m1, role1, root)
    requires TornDown(role1, role2, root) && OtherMaps(m1, role1, m2, root) && SameData(m1, role2, m2)
    ensures role2 == role0 && SameMaps(m0, role0, m2) && SameData(m0, role0, m2)
  {
    NoTreeYet(m0, role0, root);
    forall r: nat, v: nat | IsRoot(role0, r) && v < PAGES ensures Mapped(m2, r, v) == Mapped(m0, r, v) {
      assert IsRoot(role1, r) && Mapped(m1, r, v) == Mapped(m0, r, v);
    }
  }

  lemma NoFramesInSprout(m0: seq<Page>, role0: seq<Role>, m: seq<Page>, role: seq<Role>, root: nat, v: nat)
    requires TreeOk(m0, role0) && FramesOk(m0, role0) && Sprouted(m0, role0, m, role, root)
    ensures !Owned(m, role, root, v)
  {
    NoTreeYet(m0, role0, root);
    NoFrames(role, root, m, v);
  }

  /** With trampoline and trapframe gone, exactly [0, n) is left, with the frames it had. */
  lemma TwoGone(m0: seq<Page>, role: seq<Role>, m1: seq<Page>, m2: seq<Page>, root: nat, n: nat)
    requires IsRoot(role, root) && n <= TRAPFRAME
    requires MapsCleared(m0, role, m1, root, TRAMPOLINE, 1) && MapsCleared(m1, role, m2, root, TRAPFRAME, 1)
    requires forall v: nat :: v < PAGES ==> (Mapped(m0, root, v) != 0 <==> v < n || v == TRAPFRAME || v == TRAMPOLINE)
    requires forall v: nat :: v < n ==> Owned(m0, role, root, v)
    ensures forall v: nat :: v < PAGES ==> (Mapped(m2, root, v) != 0 <==> v < n)
    ensures forall v: nat :: v < n ==> Owned(m2, role, root, v)
    ensures OtherMaps(m0, role, m2, root)
  {
    forall v: nat | v < PAGES ensures Mapped(m2, root, v) == if v == TRAPFRAME || v == TRAMPOLINE then 0 else Mapped(m0, root, v) {
      assert Mapped(m1, root, v) == if v == TRAMPOLINE then 0 else Mapped(m0, root, v);
    }
    forall v: nat | v < n ensures Owned(m2, role, root, v) {
      assert Owned(m0, role, root, v);
    }
    forall r: nat, v: nat | IsRoot(role, r) && r != root && v < PAGES ensures Mapped(m2, r, v) == Mapped(m0, r, v) {
      assert Mapped(m1, r, v) == Mapped(m0, r, v);
    }
  }

  lemma OthersTrans(m0: seq<Page>, role0: seq<Role>, m1: seq<Page>, role1: seq<Role>, m2: seq<Page>, root: nat)
    requires OtherMaps(m0, role0, m1, root) && OtherMaps(m1, role1, m2, root)
    requires forall r: nat :: IsRoot(role0, r) && r != root ==> IsRoot(role1, r)
    ensures OtherMaps(m0, role0, m2, root)
  {
    forall r: nat, v: nat | IsRoot(role0, r) && r != root && v < PAGES ensures Mapped(m2, r, v) == Mapped(m0, r, v) {
      assert Mapped(m1, r, v) == Mapped(m0, r, v);
    }
  }

  /** Trampoline and trapframe for the supervisor only, and nothing else: the bits V, R and X, and V, R and W. */
  ghost predicate BareMap(m: seq<Page>, root: nat, trampoline: nat, trapframe: nat) {
    forall v: nat :: v < PAGES ==>
      Mapped(m, root, v) ==
        if v == TRAMPOLINE then trampoline / PGSIZE * 1024 + 11
        else if v == TRAPFRAME then trapframe / PGSIZE * 1024 + 7
        else 0
  }

  lemma NextClear(m0: seq<Page>, role0: seq<Role>, m: seq<Page>, role: seq<Role>, p: nat, i: nat)
    requires NodesOk(m, role) && p < |m0| && |role0| == |m0| && role0[p].Node? && i < 512
    requires HalfFreed(m0, role0, m, role, p, i) && m[p][i] == 0
    ensures HalfFreed(m0, role0, m, role, p, i + 1)
  {
    FreedSkip(m, role0, role, p, i);
  }
}

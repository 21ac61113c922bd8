/** Sv39 page tables as they lie in physical memory (vm.c, riscv.h), on values.

    Every physical page has one role.  A page-table page is the node of one tree at one level
    and prefix; a frame is the page one virtual page number of one tree maps. */
module PageTree {
  import opened Arith

  /** 512 64-bit words. */
  type Page = s: seq<nat> | |s| == 512 witness seq(512, _ => 0)

  const PAGES := 0x800_0000     // page numbers a three-level table can name, 512 * 512 * 512
  const MAXPAGE := 0x400_0000   // MAXVA / PGSIZE

  datatype Role =
    | Free
    | Held                                                    // handed out, or not kalloc's
    | Node(root: nat, level: nat, prefix: nat, up: nat)
    | Frame(root: nat, vpn: nat)

  function Zero(): (r: Page)
    ensures forall i :: 0 <= i < 512 ==> r[i] == 0
  {
    seq(512, _ => 0)
  }

  // ---------------------------------------------------------------- page-table entries

  predicate IsV(w: nat) { w % 2 == 1 }

  function Ppn(w: nat): nat { w / 1024 }

  function Flags(w: nat): nat { w % 1024 }

  /** PTE_V, and at least one of PTE_R, PTE_W, PTE_X. */
  predicate IsLeaf(w: nat) { IsV(w) && w / 2 % 8 != 0 }

  function TablePte(p: nat): nat { p * 1024 + 1 }

  /** PA2PTE(pa) | perm | PTE_V. */
  function LeafPte(p: nat, perm: nat): nat
    requires perm < 1024
  {
    p * 1024 + (if IsV(perm) then perm else perm + 1)
  }

  lemma LeafPteFields(p: nat, perm: nat)
    requires perm < 1024 && perm / 2 % 8 != 0
    ensures IsLeaf(LeafPte(p, perm)) && Ppn(LeafPte(p, perm)) == p
    ensures Flags(LeafPte(p, perm)) == if IsV(perm) then perm else perm + 1
  {
    var f := if IsV(perm) then perm else perm + 1;
    assert f == f / 2 * 2 + 1 && f / 2 == perm / 2;
    QuotientUnique(LeafPte(p, perm), p, f, 1024);
    QuotientUnique(LeafPte(p, perm), p * 512 + f / 2, 1, 2);
    QuotientUnique(p * 512 + f / 2, p * 64 + f / 16, f / 2 % 8, 8);
  }

  // ---------------------------------------------------------------- addresses

  /** Page numbers covered by one entry at a level. */
  function Span(level: nat): nat {
    if level == 0 then 1 else if level == 1 then 512 else 512 * 512
  }

  /** PX(level, va), for va in page vpn. */
  function Px(level: nat, vpn: nat): (i: nat)
    ensures i < 512
  {
    vpn / Span(level) % 512
  }

  /** What the nodes at a level share: the indices used above them. */
  function Prefix(level: nat, vpn: nat): nat {
    vpn / Span(level) / 512
  }

  /** One level down, the prefix has grown by the index just used. */
  lemma PrefixStep(level: nat, vpn: nat)
    requires 0 < level <= 2
    ensures Prefix(level - 1, vpn) == Prefix(level, vpn) * 512 + Px(level, vpn)
  {
    assert vpn / 1 == vpn && vpn / 512 / 512 == vpn / (512 * 512);
  }

  lemma PrefixTop(vpn: nat)
    requires vpn < PAGES
    ensures Prefix(2, vpn) == 0
  {
  }

  // ---------------------------------------------------------------- the tree in memory

  /** The leaf entry for vpn below the node in page p, or 0. */
  function Lookup(m: seq<Page>, p: nat, level: nat, vpn: nat): nat
    decreases level
  {
    if p >= |m| then 0
    else
      var w := m[p][Px(level, vpn)];
      if level == 0 then w
      else if IsV(w) then Lookup(m, Ppn(w), level - 1, vpn)
      else 0
  }

  /** The map a page table stands for: page number to entry, 0 where there is none. */
  function Mapped(m: seq<Page>, root: nat, vpn: nat): nat {
    Lookup(m, root, 2, vpn)
  }

  /** The word at index i of the page that entry w names, or 0 if w is not valid. */
  function Below(m: seq<Page>, w: nat, i: nat): nat
    requires i < 512
  {
    if w % 2 == 1 && w / 1024 < |m| then m[w / 1024][i] else 0
  }

  /** Address translation as the machine does it (RISC-V privileged architecture, Sv39): the last-level
      entry for an address, found by its bits 30 to 38, 21 to 29 and 12 to 20. */
  function Sv39(m: seq<Page>, root: nat, va: nat): nat
    requires root < |m|
  {
    Below(m, Below(m, m[root][va / 0x4000_0000 % 512], va / 0x20_0000 % 512), va / 0x1000 % 512)
  }

  lemma PageBits(va: nat)
    ensures va / 4096 / (512 * 512) == va / 0x4000_0000 && va / 4096 / 512 == va / 0x20_0000 && va / 4096 / 1 == va / 0x1000
  {
  }

  /** The map is the one the machine uses. */
  lemma MappedIsSv39(m: seq<Page>, root: nat, va: nat)
    requires root < |m|
    ensures Mapped(m, root, va / 4096) == Sv39(m, root, va)
  {
    var vpn := va / 4096;
    PageBits(va);
    var w2 := m[root][Px(2, vpn)];
    assert Lookup(m, root, 2, vpn) == if IsV(w2) then Lookup(m, Ppn(w2), 1, vpn) else 0;
    if IsV(w2) && Ppn(w2) < |m| {
      var w1 := m[Ppn(w2)][Px(1, vpn)];
      assert Lookup(m, Ppn(w2), 1, vpn) == if IsV(w1) then Lookup(m, Ppn(w1), 0, vpn) else 0;
    }
  }

  /** An entry is clear, a leaf at level 0, or points one level down to its own child. */
  ghost predicate EntryOk(m: seq<Page>, role: seq<Role>, p: nat, i: nat)
    requires |role| == |m| && p < |m| && role[p].Node? && i < 512
  {
    var w := m[p][i];
    w == 0 || (
      if role[p].level == 0 then IsLeaf(w)
      else
        && Ppn(w) < |m| && w == TablePte(Ppn(w))
        && role[Ppn(w)] == Node(role[p].root, role[p].level - 1, role[p].prefix * 512 + i, p))
  }

  predicate IsRoot(role: seq<Role>, r: nat) {
    r < |role| && role[r] == Node(r, 2, 0, 0)
  }

  /** A node is a root, or the entry of its parent that its prefix selects points to it. */
  ghost predicate NodeOk(m: seq<Page>, role: seq<Role>, p: nat)
    requires |role| == |m| && p < |m| && role[p].Node?
  {
    var n := role[p];
    && IsRoot(role, n.root)
    && (if n.level == 2 then p == n.root
        else
          && n.level < 2 && n.up < |m| && role[n.up].Node?
          && role[n.up].root == n.root && role[n.up].level == n.level + 1 && role[n.up].prefix == n.prefix / 512
          && m[n.up][n.prefix % 512] == TablePte(p))
  }

  ghost predicate NodesOk(m: seq<Page>, role: seq<Role>) {
    && |role| == |m|
    && forall p {:trigger NodeOk(m, role, p)} :: 0 <= p < |m| && role[p].Node? ==> NodeOk(m, role, p)
  }

  ghost predicate TreeOk(m: seq<Page>, role: seq<Role>) {
    && NodesOk(m, role)
    && (forall p, i {:trigger EntryOk(m, role, p, i)} ::
          0 <= p < |m| && role[p].Node? && 0 <= i < 512 ==> EntryOk(m, role, p, i))
  }

  /** A frame is what its tree maps its page number to. */
  ghost predicate FrameOk(m: seq<Page>, role: seq<Role>, p: nat)
    requires p < |role| && role[p].Frame?
  {
    && IsRoot(role, role[p].root) && role[p].vpn < PAGES
    && IsLeaf(Mapped(m, role[p].root, role[p].vpn)) && Ppn(Mapped(m, role[p].root, role[p].vpn)) == p
  }

  ghost predicate FramesOk(m: seq<Page>, role: seq<Role>) {
    forall p {:trigger FrameOk(m, role, p)} :: 0 <= p < |role| && role[p].Frame? ==> FrameOk(m, role, p)
  }

  // ---------------------------------------------------------------- walking

  /** Looking a page number up from the root passes through every node whose prefix it has. */
  lemma {:induction false} ThroughNode(m: seq<Page>, role: seq<Role>, q: nat, vpn: nat)
    requires TreeOk(m, role) && q < |m| && role[q].Node? && vpn < PAGES
    requires role[q].prefix == Prefix(role[q].level, vpn)
    ensures role[q].level <= 2 && Mapped(m, role[q].root, vpn) == Lookup(m, q, role[q].level, vpn)
    decreases 2 - role[q].level
  {
    assert NodeOk(m, role, q);
    var n := role[q];
    if n.level < 2 {
      PrefixStep(n.level + 1, vpn);
      ThroughNode(m, role, n.up, vpn);
      TablePteFields(q);
    }
  }

  lemma TablePteFields(p: nat)
    ensures IsV(TablePte(p)) && Ppn(TablePte(p)) == p && TablePte(p) != 0
  {
    QuotientUnique(TablePte(p), p, 1, 1024);
    QuotientUnique(TablePte(p), p * 512, 1, 2);
  }

  /** Where a valid entry on the way to vpn leads. */
  lemma WalkDown(m: seq<Page>, role: seq<Role>, q: nat, vpn: nat)
    requires TreeOk(m, role) && q < |m| && role[q].Node? && 0 < role[q].level <= 2
    requires role[q].prefix == Prefix(role[q].level, vpn) && IsV(m[q][Px(role[q].level, vpn)])
    ensures var child := Ppn(m[q][Px(role[q].level, vpn)]);
      child < |m| && role[child] == Node(role[q].root, role[q].level - 1, Prefix(role[q].level - 1, vpn), q)
  {
    PrefixStep(role[q].level, vpn);
    assert EntryOk(m, role, q, Px(role[q].level, vpn));
  }

  /** An invalid entry on the way is clear, and vpn is not mapped. */
  lemma WalkEnds(m: seq<Page>, role: seq<Role>, q: nat, vpn: nat)
    requires TreeOk(m, role) && q < |m| && role[q].Node? && 0 < role[q].level <= 2 && vpn < PAGES
    requires role[q].prefix == Prefix(role[q].level, vpn) && !IsV(m[q][Px(role[q].level, vpn)])
    ensures m[q][Px(role[q].level, vpn)] == 0 && Mapped(m, role[q].root, vpn) == 0
  {
    assert EntryOk(m, role, q, Px(role[q].level, vpn));
    if m[q][Px(role[q].level, vpn)] != 0 { TablePteFields(Ppn(m[q][Px(role[q].level, vpn)])); }
    ThroughNode(m, role, q, vpn);
  }

  /** Whatever a page table maps is a leaf entry. */
  lemma {:induction false} MappedIsLeaf(m: seq<Page>, role: seq<Role>, q: nat, vpn: nat)
    requires TreeOk(m, role) && q < |m| && role[q].Node?
    ensures Lookup(m, q, role[q].level, vpn) == 0 || IsLeaf(Lookup(m, q, role[q].level, vpn))
    decreases role[q].level
  {
    var i := Px(role[q].level, vpn);
    assert EntryOk(m, role, q, i);
    if role[q].level > 0 && IsV(m[q][i]) {
      MappedIsLeaf(m, role, Ppn(m[q][i]), vpn);
    }
  }

  // ---------------------------------------------------------------- what the operations do to it

  /** Nothing below a node depends on pages that are not nodes. */
  ghost predicate SameNodes(m: seq<Page>, role: seq<Role>, m': seq<Page>, role': seq<Role>) {
    && |role| == |m| == |m'| == |role'|
    && forall p :: 0 <= p < |m| && (role[p].Node? || role'[p].Node?) ==> role'[p] == role[p] && m'[p] == m[p]
  }

  lemma {:induction false} SameLookup(m: seq<Page>, role: seq<Role>, m': seq<Page>, q: nat, vpn: nat)
    requires TreeOk(m, role) && |m'| == |m| && q < |m| && role[q].Node?
    requires forall p :: 0 <= p < |m| && role[p].Node? && role[p].root == role[q].root ==> m'[p] == m[p]
    ensures Lookup(m', q, role[q].level, vpn) == Lookup(m, q, role[q].level, vpn)
    decreases role[q].level
  {
    var i := Px(role[q].level, vpn);
    assert EntryOk(m, role, q, i);
    if role[q].level > 0 && IsV(m[q][i]) {
      SameLookup(m, role, m', Ppn(m[q][i]), vpn);
    }
  }

  lemma SameNodesKeep(m: seq<Page>, role: seq<Role>, m': seq<Page>, role': seq<Role>)
    requires TreeOk(m, role) && SameNodes(m, role, m', role')
    ensures TreeOk(m', role')
  {
    forall p | 0 <= p < |m'| && role'[p].Node? ensures NodeOk(m', role', p) {
      assert NodeOk(m, role, p);
    }
    forall p, i | 0 <= p < |m'| && role'[p].Node? && 0 <= i < 512 ensures EntryOk(m', role', p, i) {
      assert EntryOk(m, role, p, i);
    }
  }

  /** The same map, for every page table. */
  ghost predicate SameMaps(m: seq<Page>, role: seq<Role>, m': seq<Page>) {
    forall r: nat, v: nat {:trigger Mapped(m', r, v)} :: IsRoot(role, r) && v < PAGES ==> Mapped(m', r, v) == Mapped(m, r, v)
  }

  lemma SameNodesSameMaps(m: seq<Page>, role: seq<Role>, m': seq<Page>, role': seq<Role>)
    requires TreeOk(m, role) && SameNodes(m, role, m', role')
    ensures SameMaps(m, role, m')
  {
    forall r: nat, v: nat | IsRoot(role, r) && v < PAGES ensures Mapped(m', r, v) == Mapped(m, r, v) {
      SameLookup(m, role, m', r, v);
    }
  }

  /** Hanging a zeroed page below a clear entry: a new node, and no map changes. */
  ghost predicate Hung(m: seq<Page>, role: seq<Role>, m': seq<Page>, role': seq<Role>, q: nat, i: nat, new_: nat) {
    && |role| == |m| && q < |m| && new_ < |m| && i < 512
    && role[q].Node? && 0 < role[q].level && m[q][i] == 0 && !role[new_].Node?
    && m' == m[new_ := Zero()][q := m[q][i := TablePte(new_)]]
    && role' == role[new_ := Node(role[q].root, role[q].level - 1, role[q].prefix * 512 + i, q)]
  }

  lemma HangNode(m: seq<Page>, role: seq<Role>, m': seq<Page>, role': seq<Role>, q: nat, i: nat, new_: nat, p: nat)
    requires TreeOk(m, role) && Hung(m, role, m', role', q, i, new_) && p < |m'| && role'[p].Node?
    ensures NodeOk(m', role', p)
  {
    assert NodeOk(m, role, q);
    if p != new_ {
      assert NodeOk(m, role, p);
      TablePteFields(p);
    }
  }

  lemma HangEntry(m: seq<Page>, role: seq<Role>, m': seq<Page>, role': seq<Role>, q: nat, i: nat, new_: nat, p: nat, j: nat)
    requires TreeOk(m, role) && Hung(m, role, m', role', q, i, new_) && p < |m'| && role'[p].Node? && j < 512
    ensures EntryOk(m', role', p, j)
  {
    TablePteFields(new_);
    if p != new_ {
      assert EntryOk(m, role, p, j);
    }
  }

  lemma HangKeeps(m: seq<Page>, role: seq<Role>, m': seq<Page>, role': seq<Role>, q: nat, i: nat, new_: nat)
    requires TreeOk(m, role) && Hung(m, role, m', role', q, i, new_)
    ensures TreeOk(m', role')
  {
    forall p | 0 <= p < |m'| && role'[p].Node? ensures NodeOk(m', role', p) {
      HangNode(m, role, m', role', q, i, new_, p);
    }
    forall p, j | 0 <= p < |m'| && role'[p].Node? && 0 <= j < 512 ensures EntryOk(m', role', p, j) {
      HangEntry(m, role, m', role', q, i, new_, p, j);
    }
  }

  lemma {:induction false} HangLookup(m: seq<Page>, role: seq<Role>, m': seq<Page>, role': seq<Role>, q: nat, i: nat, new_: nat,
                                      p: nat, vpn: nat)
    requires TreeOk(m, role) && Hung(m, role, m', role', q, i, new_) && p < |m| && role[p].Node?
    ensures Lookup(m', p, role[p].level, vpn) == Lookup(m, p, role[p].level, vpn)
    decreases role[p].level
  {
    var j := Px(role[p].level, vpn);
    assert EntryOk(m, role, p, j);
    if p == q && j == i {
      TablePteFields(new_);
      assert Lookup(m', new_, role[p].level - 1, vpn) == 0;
    } else if role[p].level > 0 && IsV(m[p][j]) {
      HangLookup(m, role, m', role', q, i, new_, Ppn(m[p][j]), vpn);
    }
  }

  lemma HangSameMaps(m: seq<Page>, role: seq<Role>, m': seq<Page>, role': seq<Role>, q: nat, i: nat, new_: nat)
    requires TreeOk(m, role) && Hung(m, role, m', role', q, i, new_)
    ensures SameMaps(m, role, m')
  {
    forall r: nat, v: nat | IsRoot(role, r) && v < PAGES ensures Mapped(m', r, v) == Mapped(m, r, v) {
      HangLookup(m, role, m', role', q, i, new_, r, v);
    }
  }

  /** The page number a leaf slot is for. */
  function SlotVpn(role: seq<Role>, q: nat, j: nat): nat
    requires q < |role| && role[q].Node?
  {
    role[q].prefix * 512 + j
  }

  /** Writing a leaf slot changes one page number of one map. */
  lemma {:induction false} PutLookup(m: seq<Page>, role: seq<Role>, m': seq<Page>, q: nat, j: nat, w: nat, p: nat, vpn: nat)
    requires TreeOk(m, role) && q < |m| && role[q].Node? && role[q].level == 0 && j < 512
    requires m' == m[q := m[q][j := w]] && p < |m| && role[p].Node?
    requires role[p].prefix == Prefix(role[p].level, vpn) && role[p].level <= 2
    ensures role[p].root != role[q].root || vpn != SlotVpn(role, q, j) ==>
      Lookup(m', p, role[p].level, vpn) == Lookup(m, p, role[p].level, vpn)
    decreases role[p].level
  {
    var i := Px(role[p].level, vpn);
    assert EntryOk(m, role, p, i);
    if role[p].level > 0 {
      PrefixStep(role[p].level, vpn);
      if IsV(m[p][i]) { PutLookup(m, role, m', q, j, w, Ppn(m[p][i]), vpn); }
    }
  }

  lemma PutKeeps(m: seq<Page>, role: seq<Role>, m': seq<Page>, q: nat, j: nat, w: nat)
    requires TreeOk(m, role) && q < |m| && role[q].Node? && role[q].level == 0 && j < 512
    requires m' == m[q := m[q][j := w]] && (w == 0 || IsLeaf(w))
    ensures TreeOk(m', role)
  {
    forall p | 0 <= p < |m'| && role[p].Node? ensures NodeOk(m', role, p) {
      assert NodeOk(m, role, p);
    }
    forall p, i | 0 <= p < |m'| && role[p].Node? && 0 <= i < 512 ensures EntryOk(m', role, p, i) {
      assert EntryOk(m, role, p, i);
    }
  }

  /** The map of root with page number vpn sent to w, every other map as it was. */
  ghost predicate MapsWith(m: seq<Page>, role: seq<Role>, m': seq<Page>, root: nat, vpn: nat, w: nat) {
    forall r: nat, v: nat {:trigger Mapped(m', r, v)} :: IsRoot(role, r) && v < PAGES ==>
      Mapped(m', r, v) == if r == root && v == vpn then w else Mapped(m, r, v)
  }

  lemma PutMaps(m: seq<Page>, role: seq<Role>, m': seq<Page>, q: nat, j: nat, w: nat)
    requires TreeOk(m, role) && q < |m| && role[q].Node? && role[q].level == 0 && j < 512
    requires m' == m[q := m[q][j := w]] && (w == 0 || IsLeaf(w))
    ensures MapsWith(m, role, m', role[q].root, SlotVpn(role, q, j), w)
  {
    PutKeeps(m, role, m', q, j, w);
    forall r: nat, v: nat | IsRoot(role, r) && v < PAGES
      ensures Mapped(m', r, v) == if r == role[q].root && v == SlotVpn(role, q, j) then w else Mapped(m, r, v)
    {
      PrefixTop(v);
      PutLookup(m, role, m', q, j, w, r, v);
      if r == role[q].root && v == SlotVpn(role, q, j) {
        ThroughNode(m', role, q, v);
      }
    }
  }

  /** Two page numbers never share a slot. */
  lemma SlotsDistinct(m: seq<Page>, role: seq<Role>, q: nat, j: nat, v1: nat, v2: nat)
    requires TreeOk(m, role) && q < |m| && role[q].Node? && role[q].level == 0
    requires role[q].prefix == Prefix(0, v1) && Px(0, v1) == j
    requires role[q].prefix == Prefix(0, v2) && Px(0, v2) == j
    ensures v1 == v2
  {
  }

  /** Within one tree a level and prefix name one page. */
  lemma {:induction false} NodeUnique(m: seq<Page>, role: seq<Role>, p: nat, q: nat)
    requires NodesOk(m, role) && p < |m| && q < |m| && role[p].Node? && role[q].Node?
    requires role[p].root == role[q].root && role[p].level == role[q].level && role[p].prefix == role[q].prefix
    ensures p == q
    decreases 2 - role[p].level
  {
    assert NodeOk(m, role, p) && NodeOk(m, role, q);
    if role[p].level < 2 {
      NodeUnique(m, role, role[p].up, role[q].up);
      TablePteFields(p);
      TablePteFields(q);
    }
  }
}

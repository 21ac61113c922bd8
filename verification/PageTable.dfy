/** kalloc.c and the page-table operations of vm.c and proc.c, over physical memory. */
module PageTable {
  import opened PageTree
  import opened PageMaps
  import opened PageTeardown
  import opened PageFork

  class Vm {
    const mem: array<Page>
    var freelist: nat
    ghost var role: seq<Role>
    ghost var free: seq<nat>

    ghost predicate Valid()
      reads this, mem
    {
      FreeOk(mem[..], role, free, freelist) && TreeOk(mem[..], role) && FramesOk(mem[..], role)
    }

    /** kinit: freerange gives the allocator every page from the end of the kernel up. */
    constructor (pages: nat, end: nat)
      requires 0 < end <= pages
      ensures Valid() && fresh(mem) && mem.Length == pages
      ensures forall p :: 0 <= p < pages ==> role[p] == if p < end then Held else Free
    {
      mem := new Page[pages];
      freelist := 0;
      free := [];
      role := seq(pages, _ => Held);
      new;
      var p := end;
      while p < mem.Length
        invariant end <= p <= mem.Length == pages && FreeOk(mem[..], role, free, freelist)
        invariant forall q :: 0 <= q < pages ==> role[q] == if end <= q < p then Free else Held
      {
        Kfree(p);
        p := p + 1;
      }
    }

    // -------------------------------------------------------------- kalloc.c

    method Kfree(p: nat)
      requires FreeOk(mem[..], role, free, freelist) && 0 < p < mem.Length && role[p] != Free
      modifies this, mem
      ensures FreeOk(mem[..], role, free, freelist)
      ensures role == old(role)[p := Free] && free == [p] + old(free)
      ensures forall q :: 0 <= q < mem.Length && q != p ==> mem[q] == old(mem[q])
    {
      ghost var m := mem[..];
      mem[p] := Junk(0x0101010101010101);
      mem[p] := mem[p][0 := freelist];
      freelist := p;
      free, role := [p] + free, role[p := Free];
      LinkedSame(m, mem[..], free[1..], old(freelist));
      assert free[1..] == old(free);
    }

    method Kalloc() returns (p: nat)
      requires FreeOk(mem[..], role, free, freelist)
      modifies this, mem
      ensures FreeOk(mem[..], role, free, freelist)
      ensures p == 0 ==> old(free) == [] && free == [] && role == old(role) && mem[..] == old(mem[..])
      ensures p != 0 ==>
        && old(free) == [p] + free && p < mem.Length && role == old(role)[p := Held]
        && forall q :: 0 <= q < mem.Length && q != p ==> mem[q] == old(mem[q])
    {
      p := freelist;
      if p != 0 {
        ghost var m := mem[..];
        freelist := mem[p][0];
        assert p in free && forall q :: q in free[1..] ==> q in free;
        free, role := free[1..], role[p := Held];
        mem[p] := Junk(0x0505050505050505);
        LinkedSame(m, mem[..], free, freelist);
      }
    }

    // -------------------------------------------------------------- walk

    /** *pte = PA2PTE(kalloc()) | PTE_V, with the new page cleared. */
    method AddTable(pt: nat, i: nat) returns (child: nat)
      requires Valid() && pt < mem.Length && role[pt].Node? && role[pt].level > 0 && i < 512 && mem[pt][i] == 0
      modifies this, mem
      ensures Valid()
      ensures child == 0 ==> free == [] && old(free) == [] && role == old(role) && mem[..] == old(mem[..])
      ensures child != 0 ==>
        && child < mem.Length && old(free) == [child] + free
        && role == old(role)[child := Node(old(role)[pt].root, old(role)[pt].level - 1, old(role)[pt].prefix * 512 + i, pt)]
        && SameMaps(old(mem[..]), old(role), mem[..]) && SameData(old(mem[..]), old(role), mem[..])
    {
      ghost var m0: seq<Page>, role0: seq<Role> := mem[..], role;
      child := Kalloc();
      if child != 0 {
        assert role0[child] == Free by { assert child in old(free); }
        ghost var m1: seq<Page>, role1: seq<Role> := mem[..], role;
        mem[child] := Zero();
        mem[pt] := mem[pt][i := TablePte(child)];
        role := role[child := Node(role[pt].root, role[pt].level - 1, role[pt].prefix * 512 + i, pt)];
        FreeFrame(m1, role1, mem[..], role, free, freelist);
        ghost var node: Page := m0[pt][i := TablePte(child)];
        assert mem[..] == m0[child := Zero()][pt := node];
        assert Hung(m0, role0, mem[..], role, pt, i, child);
        HangKeeps(m0, role0, mem[..], role, pt, i, child);
        HangSameMaps(m0, role0, mem[..], role, pt, i, child);
        SameMapsFrames(m0, role0, mem[..], role);
      }
    }

    /** walk: the slot for va, or page 0.  No map changes, whatever it allocates on the way. */
    method Walk(root: nat, va: nat, alloc: bool) returns (page: nat, slot: nat)
      requires Valid() && IsRoot(role, root) && va / PGSIZE < MAXPAGE
      modifies this, mem
      ensures Valid() && IsRoot(role, root)
      ensures SameMaps(old(mem[..]), old(role), mem[..])
      ensures Grew(old(role), role, root) && SameData(old(mem[..]), old(role), mem[..])
      ensures page != 0 ==>
        && page < mem.Length && role[page].Node? && role[page].root == root && role[page].level == 0
        && slot < 512 && SlotVpn(role, page, slot) == va / PGSIZE
        && mem[page][slot] == Mapped(mem[..], root, va / PGSIZE)
      ensures !alloc ==> mem[..] == old(mem[..]) && role == old(role) && free == old(free)
      ensures page == 0 ==> Mapped(mem[..], root, va / PGSIZE) == 0 && (alloc ==> free == [] && |old(free)| < 2)
      ensures |old(free)| <= |free| + 2
    {
      var vpn := va / PGSIZE;
      var level := 2;
      page := root;
      PrefixTop(vpn);
      while level > 0
        invariant 0 <= level <= 2 && Valid() && page < mem.Length
        invariant role[page].Node? && role[page].root == root && role[page].level == level
        invariant role[page].prefix == Prefix(level, vpn)
        invariant IsRoot(role, root) && SameMaps(old(mem[..]), old(role), mem[..])
        invariant Grew(old(role), role, root) && SameData(old(mem[..]), old(role), mem[..])
        invariant !alloc ==> mem[..] == old(mem[..]) && role == old(role) && free == old(free)
        invariant |old(free)| <= |free| + (2 - level)
      {
        var i := Px(level, vpn);
        PrefixStep(level, vpn);
        if IsV(mem[page][i]) {
          WalkDown(mem[..], role, page, vpn);
          page := Ppn(mem[page][i]);
        } else {
          WalkEnds(mem[..], role, page, vpn);
          if !alloc {
            return 0, 0;
          }
          ghost var m1: seq<Page>, role1: seq<Role> := mem[..], role;
          var child := AddTable(page, i);
          if child == 0 {
            return 0, 0;
          }
          Further(old(mem[..]), old(role), m1, role1, mem[..], role, root);
          page := child;
        }
        level := level - 1;
      }
      slot := Px(0, vpn);
      ThroughNode(mem[..], role, page, vpn);
      NodeNotNull(mem[..], role, page);
    }

    /** *pte = w, in a leaf slot whose page number no frame is recorded for. */
    method PutPte(page: nat, slot: nat, w: nat)
      requires Valid() && page < mem.Length && role[page].Node? && role[page].level == 0 && slot < 512
      requires w == 0 || IsLeaf(w)
      requires forall p :: 0 <= p < |role| ==> role[p] != Frame(role[page].root, SlotVpn(role, page, slot))
      modifies mem
      ensures Valid()
      ensures MapsWith(old(mem[..]), role, mem[..], role[page].root, SlotVpn(role, page, slot), w)
      ensures SameData(old(mem[..]), role, mem[..])
    {
      ghost var m0: seq<Page> := mem[..];
      mem[page] := mem[page][slot := w];
      assert mem[..] == m0[page := m0[page][slot := w]];
      PutKeeps(m0, role, mem[..], page, slot, w);
      PutMaps(m0, role, mem[..], page, slot, w);
      FreeFrame(m0, role, mem[..], role, free, freelist);
      forall p | 0 <= p < |role| && role[p].Frame? ensures FrameOk(mem[..], role, p) {
        assert FrameOk(m0, role, p);
      }
    }

    // -------------------------------------------------------------- mappages, uvmunmap

    /** mappages: adds exactly its range, or on failure exactly the part before the page it stopped at. */
    method Mappages(root: nat, va: nat, size: nat, pa: nat, perm: nat) returns (ok: bool, ghost done: nat)
      requires Valid() && IsRoot(role, root) && 0 < size && (va + size - 1) / PGSIZE < MAXPAGE
      requires perm < 1024 && perm / 2 % 8 != 0
      requires forall v: nat :: va / PGSIZE <= v <= (va + size - 1) / PGSIZE ==> Mapped(mem[..], root, v) == 0
      modifies this, mem
      ensures Valid() && IsRoot(role, root)
      ensures Grew(old(role), role, root) && SameData(old(mem[..]), old(role), mem[..])
      ensures MapsRange(old(mem[..]), old(role), mem[..], root, va / PGSIZE, done, pa / PGSIZE, perm)
      ensures ok ==> done == (va + size - 1) / PGSIZE - va / PGSIZE + 1
      ensures !ok ==> done < (va + size - 1) / PGSIZE - va / PGSIZE + 1 && free == [] && |old(free)| < 2 * done + 2
      ensures ok ==> |old(free)| <= |free| + 2 * done
    {
      var first, last, ppn := va / PGSIZE, (va + size - 1) / PGSIZE, pa / PGSIZE;
      var a := first;
      done := 0;
      while true
        invariant first <= a <= last && done == a - first && Valid() && IsRoot(role, root)
        invariant Grew(old(role), role, root) && SameData(old(mem[..]), old(role), mem[..])
        invariant MapsRange(old(mem[..]), old(role), mem[..], root, first, done, ppn, perm)
        invariant |old(free)| <= |free| + 2 * done
        decreases last - a
      {
        ghost var m1: seq<Page>, role1: seq<Role> := mem[..], role;
        var page, slot := Walk(root, a * PGSIZE, true);
        assert a * PGSIZE / PGSIZE == a;
        ghost var m2: seq<Page>, role2: seq<Role> := mem[..], role;
        RangeWalked(old(mem[..]), old(role), m1, role1, m2, role2, root, first, done, ppn, perm);
        if page == 0 {
          return false, done;
        }
        LeafPteFields(ppn + (a - first), perm);
        NoFrameAt(mem[..], role, root, a);
        PutPte(page, slot, LeafPte(ppn + (a - first), perm));
        RangePut(old(mem[..]), old(role), m2, role2, mem[..], root, first, done, ppn, perm);
        done := done + 1;
        if a == last {
          return true, done;
        }
        a := a + 1;
      }
    }

    /** kfree of a page that is neither free nor a page table. */
    method FreeData(p: nat)
      requires Valid() && p < mem.Length && p != 0 && (role[p].Held? || role[p].Frame?)
      modifies this, mem
      ensures Valid() && role == old(role)[p := Free] && free == [p] + old(free)
      ensures SameMaps(old(mem[..]), old(role), mem[..])
      ensures forall q :: 0 <= q < mem.Length && q != p ==> mem[q] == old(mem[q])
    {
      ghost var m0: seq<Page>, role0: seq<Role> := mem[..], role;
      Kfree(p);
      SameNodesKeep(m0, role0, mem[..], role);
      SameNodesSameMaps(m0, role0, mem[..], role);
      SameMapsFrames(m0, role0, mem[..], role);
    }

    /** kalloc of a page for data. */
    method AllocData() returns (p: nat)
      requires Valid()
      modifies this, mem
      ensures Valid() && SameMaps(old(mem[..]), old(role), mem[..])
      ensures p == 0 ==> old(free) == [] && free == [] && role == old(role) && mem[..] == old(mem[..])
      ensures p != 0 ==> |old(free)| == |free| + 1
      ensures p != 0 ==>
        && p < mem.Length && old(role)[p] == Free && role == old(role)[p := Held]
        && forall q :: 0 <= q < mem.Length && q != p ==> mem[q] == old(mem[q])
    {
      ghost var m0: seq<Page>, role0: seq<Role> := mem[..], role;
      p := Kalloc();
      if p != 0 {
        assert p in old(free);
      }
      SameNodesKeep(m0, role0, mem[..], role);
      SameNodesSameMaps(m0, role0, mem[..], role);
      SameMapsFrames(m0, role0, mem[..], role);
    }

    /** The body of uvmunmap's loop, for page number v. */
    method UnmapOne(root: nat, v: nat, doFree: bool)
      requires Valid() && IsRoot(role, root) && v < MAXPAGE && Mapped(mem[..], root, v) != 0
      requires Owned(mem[..], role, root, v) == doFree
      modifies this, mem
      ensures Valid() && IsRoot(role, root) && MapsWith(old(mem[..]), old(role), mem[..], root, v, 0)
      ensures if doFree then
          Owned(old(mem[..]), old(role), root, v) && role == old(role)[Ppn(Mapped(old(mem[..]), root, v)) := Free]
        else role == old(role) && free == old(free)
      ensures SameData(old(mem[..]), role, mem[..])
    {
      assert v * PGSIZE / PGSIZE == v;
      var page, slot := Walk(root, v * PGSIZE, false);
      var w := mem[page][slot];
      MappedIsLeaf(mem[..], role, root, v);
      LeafIsMore(w);
      assert page != 0 && IsV(w) && Flags(w) != 1;
      if doFree {
        FreeData(Ppn(w));
      }
      NoFrameAt(mem[..], role, root, v);
      PutPte(page, slot, 0);
    }

    /** uvmunmap: removes exactly its range, and gives back exactly the frames it mapped there. */
    method Uvmunmap(root: nat, va: nat, npages: nat, doFree: bool)
      requires Valid() && IsRoot(role, root) && va % PGSIZE == 0 && va / PGSIZE + npages <= MAXPAGE
      requires forall v: nat :: va / PGSIZE <= v < va / PGSIZE + npages ==> Mapped(mem[..], root, v) != 0
      requires forall v: nat :: va / PGSIZE <= v < va / PGSIZE + npages ==> Owned(mem[..], role, root, v) == doFree
      modifies this, mem
      ensures Valid() && IsRoot(role, root)
      ensures MapsCleared(old(mem[..]), old(role), mem[..], root, va / PGSIZE, npages)
      ensures if doFree then Unframed(old(role), role, root, va / PGSIZE, npages)
        else role == old(role) && free == old(free)
      ensures SameData(old(mem[..]), role, mem[..])
    {
      var first := va / PGSIZE;
      var a := first;
      while a < first + npages
        invariant first <= a <= first + npages && Valid() && IsRoot(role, root)
        invariant MapsCleared(old(mem[..]), old(role), mem[..], root, first, a - first)
        invariant if doFree then Unframed(old(role), role, root, first, a - first)
          else role == old(role) && free == old(free)
        invariant SameData(old(mem[..]), role, mem[..])
      {
        ghost var m1: seq<Page>, role1: seq<Role> := mem[..], role;
        assert Mapped(m1, root, a) == Mapped(old(mem[..]), root, a);
        assert Owned(old(mem[..]), old(role), root, a) == doFree;
        UnmapOne(root, a, doFree);
        if doFree {
          UnframeOne(old(role), role1, role, root, first, a - first, Ppn(Mapped(m1, root, a)), m1);
        }
        ClearOne(old(mem[..]), old(role), m1, role1, mem[..], root, first, a - first);
        a := a + 1;
      }
    }

    // -------------------------------------------------------------- uvmalloc, uvmdealloc, uvmcopy

    /** memset or memmove of a whole page the caller holds. */
    method FillData(p: nat, data: Page)
      requires Valid() && p < mem.Length && role[p].Held?
      modifies mem
      ensures Valid() && SameMaps(old(mem[..]), role, mem[..])
      ensures mem[p] == data && forall q :: 0 <= q < mem.Length && q != p ==> mem[q] == old(mem[q])
    {
      ghost var m0: seq<Page> := mem[..];
      mem[p] := data;
      SameNodesKeep(m0, role, mem[..], role);
      SameNodesSameMaps(m0, role, mem[..], role);
      SameMapsFrames(m0, role, mem[..], role);
      FreeFrame(m0, role, mem[..], role, free, freelist);
    }

    /** kalloc of a page and the memset or memmove that follows. */
    method AllocFilled(data: Page) returns (p: nat)
      requires Valid()
      modifies this, mem
      ensures Valid() && SameMaps(old(mem[..]), old(role), mem[..])
      ensures p == 0 ==> old(free) == [] && role == old(role) && mem[..] == old(mem[..])
      ensures p != 0 ==> |old(free)| == |free| + 1
      ensures p != 0 ==>
        && p < mem.Length && old(role)[p] == Free && role == old(role)[p := Held] && mem[p] == data
        && forall q :: 0 <= q < mem.Length && q != p ==> mem[q] == old(mem[q])
    {
      ghost var m0: seq<Page>, role0: seq<Role> := mem[..], role;
      p := AllocData();
      if p != 0 {
        ghost var m1: seq<Page> := mem[..];
        FillData(p, data);
        MapsTrans(m0, role0, m1, role, mem[..]);
      }
    }

    /** Records that the held page p is now the frame of v. */
    ghost method Adopt(root: nat, v: nat, p: nat, perm: nat)
      requires Valid() && IsRoot(role, root) && v < PAGES && 0 < p < mem.Length && role[p].Held?
      requires perm < 1024 && perm / 2 % 8 != 0 && Mapped(mem[..], root, v) == LeafPte(p, perm)
      modifies `role
      ensures Valid() && role == old(role)[p := Frame(root, v)]
    {
      ghost var role0: seq<Role> := role;
      role := role[p := Frame(root, v)];
      SameNodesKeep(mem[..], role0, mem[..], role);
      FreeFrame(mem[..], role0, mem[..], role, free, freelist);
      LeafPteFields(p, perm);
      forall q | 0 <= q < |role| && role[q].Frame? ensures FrameOk(mem[..], role, q) {
        if q != p { assert FrameOk(mem[..], role0, q); }
      }
    }

    /** kalloc, fill the page, mappages it at v; kfree it if that fails. */
    method MapNew(root: nat, v: nat, data: Page, perm: nat) returns (ok: bool, ghost p: nat)
      requires Valid() && IsRoot(role, root) && v < MAXPAGE && Mapped(mem[..], root, v) == 0
      requires perm < 1024 && perm / 2 % 8 != 0
      modifies this, mem
      ensures Valid() && IsRoot(role, root)
      ensures ok ==> Added(old(mem[..]), old(role), mem[..], role, root, v, p, data, perm)
      ensures !ok ==> OnlyGrew(old(mem[..]), old(role), mem[..], role, root) && |old(free)| < 3
      ensures ok ==> |old(free)| <= |free| + 3
    {
      ghost var m0: seq<Page>, role0: seq<Role> := mem[..], role;
      var page := AllocFilled(data);
      p := page;
      if page == 0 {
        return false, p;
      }
      assert v * PGSIZE / PGSIZE == v && (v * PGSIZE + PGSIZE - 1) / PGSIZE == v && page * PGSIZE / PGSIZE == page;
      ghost var m2: seq<Page>, role2: seq<Role> := mem[..], role;
      ghost var done;
      ok, done := Mappages(root, v * PGSIZE, PGSIZE, page * PGSIZE, perm);
      if ok {
        ghost var role3: seq<Role> := role;
        Adopt(root, v, page, perm);
        IsAdded(m0, role0, m2, role2, mem[..], role3, role, root, v, page, data, perm);
      } else {
        ghost var m3: seq<Page>, role3: seq<Role> := mem[..], role;
        MapsNone(m0, role0, m2, role2, m3, root, v, page, perm);
        FreeData(page);
        MapsTrans(m0, role0, m3, role3, mem[..]);
      }
    }

    method Uvmdealloc(root: nat, oldsz: nat, newsz: nat) returns (sz: nat)
      requires Valid() && IsRoot(role, root) && Up(oldsz) <= MAXPAGE
      requires forall v: nat :: Up(newsz) <= v < Up(oldsz) ==> Mapped(mem[..], root, v) != 0
      requires forall v: nat :: Up(newsz) <= v < Up(oldsz) ==> Owned(mem[..], role, root, v)
      modifies this, mem
      ensures Valid() && IsRoot(role, root) && sz == if newsz < oldsz then newsz else oldsz
      ensures Up(newsz) <= Up(oldsz) ==>
        && MapsCleared(old(mem[..]), old(role), mem[..], root, Up(newsz), Up(oldsz) - Up(newsz))
        && Unframed(old(role), role, root, Up(newsz), Up(oldsz) - Up(newsz))
      ensures SameData(old(mem[..]), role, mem[..])
    {
      if newsz >= oldsz {
        return oldsz;
      }
      if Up(newsz) < Up(oldsz) {
        Uvmunmap(root, Up(newsz) * PGSIZE, Up(oldsz) - Up(newsz), true);
      }
      return newsz;
    }

    /** uvmalloc's way out: uvmdealloc of what it has mapped so far. */
    method UndoAlloc(root: nat, first: nat, a: nat, ghost m0: seq<Page>, ghost role0: seq<Role>)
      requires Valid() && IsRoot(role, root) && IsRoot(role0, root) && first <= a <= MAXPAGE
      requires FramesOk(m0, role0) && Filled(m0, role0, mem[..], role, root, first, a - first)
      requires forall v: nat :: first <= v < a ==> Mapped(m0, root, v) == 0
      modifies this, mem
      ensures Valid() && IsRoot(role, root) && OnlyGrew(m0, role0, mem[..], role, root)
    {
      ghost var m2: seq<Page>, role2: seq<Role> := mem[..], role;
      FilledOwned(m0, role0, m2, role2, root, first, a - first);
      var back := Uvmdealloc(root, a * PGSIZE, first * PGSIZE);
      RollBack(m0, role0, m2, role2, mem[..], role, root, first, a - first);
    }

    /** uvmcopy's err: uvmunmap of what it has mapped so far. */
    method UndoCopy(child: nat, i: nat, ghost m0: seq<Page>, ghost role0: seq<Role>)
      requires Valid() && IsRoot(role, child) && IsRoot(role0, child) && i <= MAXPAGE
      requires FramesOk(m0, role0) && Filled(m0, role0, mem[..], role, child, 0, i)
      requires forall v: nat :: v < i ==> Mapped(m0, child, v) == 0
      modifies this, mem
      ensures Valid() && IsRoot(role, child) && OnlyGrew(m0, role0, mem[..], role, child)
    {
      ghost var m2: seq<Page>, role2: seq<Role> := mem[..], role;
      FilledOwned(m0, role0, m2, role2, child, 0, i);
      Uvmunmap(child, 0, i, true);
      RollBack(m0, role0, m2, role2, mem[..], role, child, 0, i);
    }

    /** The body of uvmcopy's loop: it takes at most a frame and two page-table pages. */
    method CopyPage(parent: nat, child: nat, i: nat) returns (ok: bool, ghost p: nat)
      requires Valid() && IsRoot(role, parent) && IsRoot(role, child) && i < MAXPAGE
      requires Mapped(mem[..], parent, i) != 0 && Owned(mem[..], role, parent, i) && Mapped(mem[..], child, i) == 0
      modifies this, mem
      ensures Valid() && IsRoot(role, parent) && IsRoot(role, child) && old(mem.Length == |role|)
      ensures old(IsLeaf(Mapped(mem[..], parent, i)))
      ensures ok ==> Added(old(mem[..]), old(role), mem[..], role, child, i, p,
                       old(mem[Ppn(Mapped(mem[..], parent, i))]), Flags(old(Mapped(mem[..], parent, i))))
      ensures !ok ==> OnlyGrew(old(mem[..]), old(role), mem[..], role, child) && |old(free)| < 3
      ensures ok ==> |old(free)| <= |free| + 3
    {
      assert i * PGSIZE / PGSIZE == i;
      var page, slot := Walk(parent, i * PGSIZE, false);
      var w := mem[page][slot];
      MappedIsLeaf(mem[..], role, parent, i);
      FlagsOfLeaf(w);
      ok, p := MapNew(child, i, mem[Ppn(w)], Flags(w));
    }

    /** uvmalloc: all of the range on fresh zeroed pages, or nothing but page-table pages when fewer than
        three pages were free for each that is asked for. */
    method Uvmalloc(root: nat, oldsz: nat, newsz: nat, xperm: nat) returns (sz: nat, ghost ok: bool)
      requires Valid() && IsRoot(role, root) && Up(newsz) <= TRAPFRAME && xperm in {0, PTE_W, PTE_X, PTE_W + PTE_X}
      requires forall v: nat :: Up(oldsz) <= v < Up(newsz) ==> Mapped(mem[..], root, v) == 0
      modifies this, mem
      ensures Valid() && IsRoot(role, root)
      ensures sz == if newsz < oldsz then oldsz else if ok then newsz else 0
      ensures newsz < oldsz ==> mem[..] == old(mem[..]) && role == old(role)
      ensures ok && oldsz <= newsz ==>
        && Filled(old(mem[..]), old(role), mem[..], role, root, Up(oldsz), Up(newsz) - Up(oldsz))
        && (forall v: nat :: Up(oldsz) <= v < Up(newsz) ==> UserPage(mem[..], root, v, xperm))
      ensures !ok ==> OnlyGrew(old(mem[..]), old(role), mem[..], role, root) && |old(free)| < 3 * (Up(newsz) - Up(oldsz))
    {
      ok := true;
      if newsz < oldsz {
        return oldsz, ok;
      }
      var first := Up(oldsz);
      var a := first;
      var perm := PTE_R + PTE_U + xperm;
      SameFilled(mem[..], role, root, first);
      while a * PGSIZE < newsz
        invariant first <= a <= Up(newsz) && Valid() && IsRoot(role, root) && ok
        invariant Filled(old(mem[..]), old(role), mem[..], role, root, first, a - first)
        invariant forall v: nat :: first <= v < a ==> UserPage(mem[..], root, v, xperm)
        invariant |old(free)| <= |free| + 3 * (a - first)
      {
        ghost var m1: seq<Page>, role1: seq<Role> := mem[..], role;
        assert Mapped(m1, root, a) == Mapped(old(mem[..]), root, a);
        ghost var p;
        var mapped;
        mapped, p := MapNew(root, a, Zero(), perm);
        if !mapped {
          ok := false;
          FilledGrew(old(mem[..]), old(role), m1, role1, mem[..], role, root, first, a - first);
          UndoAlloc(root, first, a, old(mem[..]), old(role));
          return 0, ok;
        }
        FilledOne(old(mem[..]), old(role), m1, role1, mem[..], role, root, first, a - first, p, Zero(), perm);
        UserPageKept(m1, role1, mem[..], role, root, first, a, p, xperm);
        a := a + 1;
      }
      return newsz, ok;
    }

    /** uvmcopy: the child gets equal contents and flags on fresh pages of its own, or nothing but
        page-table pages when fewer than three pages were free for each; the parent's map and data are
        untouched either way. */
    method Uvmcopy(parent: nat, child: nat, size: nat) returns (ok: bool)
      requires Valid() && IsRoot(role, parent) && IsRoot(role, child) && parent != child && Up(size) <= TRAPFRAME
      requires forall v: nat :: v < Up(size) ==> Mapped(mem[..], parent, v) != 0
      requires forall v: nat :: v < Up(size) ==> Owned(mem[..], role, parent, v)
      requires forall v: nat :: v < Up(size) ==> Mapped(mem[..], child, v) == 0
      modifies this, mem
      ensures Valid() && IsRoot(role, parent) && IsRoot(role, child)
      ensures ok ==> Copied(old(mem[..]), old(role), mem[..], role, parent, child, Up(size))
      ensures !ok ==> OnlyGrew(old(mem[..]), old(role), mem[..], role, child) && |old(free)| < 3 * Up(size)
    {
      var i := 0;
      SameFilled(mem[..], role, child, 0);
      while i * PGSIZE < size
        invariant 0 <= i <= Up(size) && Valid() && IsRoot(role, parent) && IsRoot(role, child)
        invariant Copied(old(mem[..]), old(role), mem[..], role, parent, child, i)
        invariant |old(free)| <= |free| + 3 * i
      {
        ghost var m1: seq<Page>, role1: seq<Role> := mem[..], role;
        CopiedSoFar(old(mem[..]), old(role), m1, role1, parent, child, i);
        ghost var p;
        ok, p := CopyPage(parent, child, i);
        if !ok {
          FilledGrew(old(mem[..]), old(role), m1, role1, mem[..], role, child, 0, i);
          UndoCopy(child, i, old(mem[..]), old(role));
          return false;
        }
        CopiedNext(old(mem[..]), old(role), m1, role1, mem[..], role, parent, child, i, p);
        i := i + 1;
      }
      return true;
    }

    // -------------------------------------------------------------- freewalk, uvmfree

    /** freewalk(child); pagetable[i] = 0. */
    method FreeChild(p: nat, i: nat, ghost ex: set<(nat, nat)>)
      requires FreeOk(mem[..], role, free, freelist) && NodesOk(mem[..], role) && EntriesBut(mem[..], role, ex)
      requires p < mem.Length && role[p].Node? && 0 < role[p].level && i < 512
      requires forall e :: e in ex ==> e.0 < |role| && role[e.0].Node? && role[e.0].level > role[p].level
      requires Ppn(mem[p][i]) < mem.Length
      requires role[Ppn(mem[p][i])] == Node(role[p].root, role[p].level - 1, role[p].prefix * 512 + i, p)
      requires NoLeaves(mem[..], role, role[p].root, role[p].level - 1, role[p].prefix * 512 + i, role[p].prefix * 512 + i + 1)
      modifies this, mem
      ensures FreeOk(mem[..], role, free, freelist) && NodesOk(mem[..], role) && EntriesBut(mem[..], role, ex)
      ensures role[p] == old(role[p]) && mem[p] == old(mem[p])[i := 0]
      ensures Freed(old(role), role, role[p].root, role[p].level - 1, role[p].prefix * 512 + i, role[p].prefix * 512 + i + 1)
      ensures forall q :: 0 <= q < mem.Length && role[q] != Free && q != p ==> mem[q] == old(mem[q])
      decreases role[p].level, 0
    {
      Freewalk(Ppn(mem[p][i]), ex);
      ghost var m1: seq<Page> := mem[..];
      mem[p] := mem[p][i := 0];
      FreeFrame(m1, role, mem[..], role, free, freelist);
      NoChildAt(m1, role, p, i);
      ClearEntry(m1, role, ex, p, i, mem[..]);
    }

    /** The body of freewalk's loop.  "freewalk: leaf" is never reached. */
    method FreeEntry(p: nat, i: nat, ghost ex: set<(nat, nat)>, ghost m0: seq<Page>, ghost role0: seq<Role>)
      requires FreeOk(mem[..], role, free, freelist) && NodesOk(mem[..], role) && EntriesBut(mem[..], role, ex)
      requires p < mem.Length == |m0| == |role0| && role0[p].Node? && role0[p].level <= 2 && i < 512
      requires HalfFreed(m0, role0, mem[..], role, p, i)
      requires forall e :: e in ex ==> e.0 < |role| && role[e.0].Node? && role[e.0].level > role[p].level
      requires NoLeaves(m0, role0, role0[p].root, role0[p].level, role0[p].prefix, role0[p].prefix + 1)
      modifies this, mem
      ensures FreeOk(mem[..], role, free, freelist) && NodesOk(mem[..], role) && EntriesBut(mem[..], role, ex)
      ensures HalfFreed(m0, role0, mem[..], role, p, i + 1)
      decreases role[p].level, 1
    {
      var pte := mem[p][i];
      assert role0[p].level == 0 ==> Under(role0[p], role0[p].root, 0, role0[p].prefix, role0[p].prefix + 1) && m0[p][i] == 0;
      NoLeafEntry(mem[..], role, ex, p, i);
      if IsV(pte) && !IsLeaf(pte) {
        ghost var m1: seq<Page>, role1: seq<Role> := mem[..], role;
        ChildNoLeaves(m0, role0, m1, role1, p, i);
        FreeChild(p, i, ex);
        NextChild(m0, role0, m1, role1, mem[..], role, p, i);
      } else {
        assert pte == 0;
        NextClear(m0, role0, mem[..], role, p, i);
      }
    }

    /** freewalk: frees exactly the page-table pages at and below p, and touches nothing else. */
    method Freewalk(p: nat, ghost ex: set<(nat, nat)>)
      requires FreeOk(mem[..], role, free, freelist) && NodesOk(mem[..], role) && EntriesBut(mem[..], role, ex)
      requires p < mem.Length && role[p].Node?
      requires forall e :: e in ex ==> e.0 < |role| && role[e.0].Node? && role[e.0].level > role[p].level
      requires NoLeaves(mem[..], role, role[p].root, role[p].level, role[p].prefix, role[p].prefix + 1)
      modifies this, mem
      ensures FreeOk(mem[..], role, free, freelist) && NodesOk(mem[..], role)
      ensures EntriesBut(mem[..], role, ex + {(old(role[p].up), old(role[p].prefix) % 512)})
      ensures Freed(old(role), role, old(role[p].root), old(role[p].level), old(role[p].prefix), old(role[p].prefix) + 1)
      ensures forall q :: 0 <= q < mem.Length && role[q] != Free ==> mem[q] == old(mem[q])
      decreases role[p].level, 2
    {
      ghost var m0: seq<Page>, role0: seq<Role> := mem[..], role;
      assert NodeOk(m0, role0, p);
      var i := 0;
      while i < 512
        invariant FreeOk(mem[..], role, free, freelist) && NodesOk(mem[..], role) && EntriesBut(mem[..], role, ex)
        invariant 0 <= i <= 512 && HalfFreed(m0, role0, mem[..], role, p, i)
      {
        ExStays(role0, role, p, ex, i);
        FreeEntry(p, i, ex, m0, role0);
        i := i + 1;
      }
      ghost var m1: seq<Page>, role1: seq<Role> := mem[..], role;
      Kfree(p);
      DropNode(m1, role1, ex, p, mem[..], role);
      FreedAll(m0, role0, role1, p);
    }

    /** uvmfree of a tree that maps exactly the frames of [0, sz): every page of it comes back. */
    method Uvmfree(root: nat, sz: nat)
      requires Valid() && IsRoot(role, root) && Up(sz) <= MAXPAGE
      requires forall v: nat :: v < PAGES ==> (Mapped(mem[..], root, v) != 0 <==> v < Up(sz))
      requires forall v: nat :: v < Up(sz) ==> Owned(mem[..], role, root, v)
      modifies this, mem
      ensures Valid() && TornDown(old(role), role, root)
      ensures OtherMaps(old(mem[..]), old(role), mem[..], root) && SameData(old(mem[..]), role, mem[..])
    {
      ghost var m0: seq<Page>, role0: seq<Role> := mem[..], role;
      if sz > 0 {
        Uvmunmap(root, 0, Up(sz), true);
      }
      ghost var m1: seq<Page>, role1: seq<Role> := mem[..], role;
      EmptyNow(m0, role0, m1, role1, root, Up(sz));
      EmptyNoLeaves(m1, role1, root);
      Freewalk(root, {});
      assert {} + {(0, 0)} == {(0, 0)};
      RootFreed(m1, role1, mem[..], role, root);
      OthersStand(m1, role1, mem[..], role, root);
    }

    // -------------------------------------------------------------- proc.c

    /** uvmcreate: a root with an empty map. */
    method Uvmcreate() returns (root: nat)
      requires Valid()
      modifies this, mem
      ensures Valid() && SameMaps(old(mem[..]), old(role), mem[..]) && SameData(old(mem[..]), old(role), mem[..])
      ensures root == 0 <==> old(free) == []
      ensures root == 0 ==> role == old(role)
      ensures root != 0 ==> |old(free)| == |free| + 1
      ensures root != 0 ==>
        && root < |role| && old(role)[root] == Free && role == old(role)[root := Node(root, 2, 0, 0)]
        && forall v: nat :: v < PAGES ==> Mapped(mem[..], root, v) == 0
    {
      root := AllocFilled(Zero());
      if root != 0 {
        ghost var role1: seq<Role> := role;
        role := role[root := Node(root, 2, 0, 0)];
        PlantRoot(mem[..], role1, root, role);
        FreeFrame(mem[..], role1, mem[..], role, free, freelist);
      }
    }

    /** mappages of one page in a tree that is just being set up. */
    method MapOne(root: nat, v: nat, pa: nat, perm: nat, ghost m0: seq<Page>, ghost role0: seq<Role>) returns (ok: bool)
      requires Valid() && Sprouted(m0, role0, mem[..], role, root) && v < MAXPAGE
      requires perm < 1024 && perm / 2 % 8 != 0 && Mapped(mem[..], root, v) == 0
      modifies this, mem
      ensures Valid() && Sprouted(m0, role0, mem[..], role, root)
      ensures forall u: nat :: u < PAGES ==>
        Mapped(mem[..], root, u) == if ok && u == v then LeafPte(pa / PGSIZE, perm) else old(Mapped(mem[..], root, u))
      ensures if ok then |old(free)| <= |free| + 2 else |old(free)| < 2
    {
      ghost var m1: seq<Page>, role1: seq<Role> := mem[..], role;
      assert v * PGSIZE / PGSIZE == v && (v * PGSIZE + PGSIZE - 1) / PGSIZE == v;
      ghost var done;
      ok, done := Mappages(root, v * PGSIZE, PGSIZE, pa, perm);
      RangeLeavesOthers(m1, role1, mem[..], root, v, done, pa / PGSIZE, perm);
      SproutsOn(m0, role0, m1, role1, mem[..], role, root);
    }

    /** uvmfree(pagetable, 0) of a tree that maps nothing yet. */
    method Discard(root: nat, ghost m0: seq<Page>, ghost role0: seq<Role>)
      requires Valid() && TreeOk(m0, role0) && FramesOk(m0, role0) && Sprouted(m0, role0, mem[..], role, root)
      requires forall v: nat :: v < PAGES ==> Mapped(mem[..], root, v) == 0
      modifies this, mem
      ensures Valid() && role == role0 && SameMaps(m0, role0, mem[..]) && SameData(m0, role0, mem[..])
    {
      ghost var m1: seq<Page>, role1: seq<Role> := mem[..], role;
      Uvmfree(root, 0);
      HandedBack(m0, role0, m1, role1, mem[..], role, root);
    }

    method DropTrampoline(root: nat, ghost m0: seq<Page>, ghost role0: seq<Role>)
      requires Valid() && TreeOk(m0, role0) && FramesOk(m0, role0) && Sprouted(m0, role0, mem[..], role, root)
      requires forall v: nat :: v < PAGES ==> (Mapped(mem[..], root, v) != 0 <==> v == TRAMPOLINE)
      modifies this, mem
      ensures Valid() && Sprouted(m0, role0, mem[..], role, root)
      ensures forall v: nat :: v < PAGES ==> Mapped(mem[..], root, v) == 0
    {
      ghost var m3: seq<Page> := mem[..];
      NoFramesInSprout(m0, role0, m3, role, root, TRAMPOLINE);
      Uvmunmap(root, TRAMPOLINE * PGSIZE, 1, false);
      ClearLeavesOthers(m3, role, mem[..], root, TRAMPOLINE, 1);
      SproutsOn(m0, role0, m3, role, mem[..], role, root);
    }

    /** proc_pagetable: trampoline and trapframe mapped and nothing else, or every page handed back, when
        fewer than five were free. */
    method ProcPagetable(trampoline: nat, trapframe: nat) returns (root: nat)
      requires Valid()
      modifies this, mem
      ensures Valid()
      ensures root == 0 ==>
        && role == old(role) && SameMaps(old(mem[..]), role, mem[..]) && SameData(old(mem[..]), role, mem[..])
        && |old(free)| < 5
      ensures root != 0 ==> |old(free)| <= |free| + 5
      ensures root != 0 ==>
        Sprouted(old(mem[..]), old(role), mem[..], role, root) && BareMap(mem[..], root, trampoline, trapframe)
    {
      ghost var m0: seq<Page>, role0: seq<Role> := mem[..], role;
      root := Uvmcreate();
      if root == 0 {
        return;
      }
      var ok := MapOne(root, TRAMPOLINE, trampoline, PTE_R + PTE_X, m0, role0);
      if !ok {
        Discard(root, m0, role0);
        return 0;
      }
      ok := MapOne(root, TRAPFRAME, trapframe, PTE_R + PTE_W, m0, role0);
      if !ok {
        DropTrampoline(root, m0, role0);
        Discard(root, m0, role0);
        return 0;
      }
    }

    /** The unmapping of trampoline and trapframe. */
    method DropTwo(root: nat, ghost n: nat)
      requires Valid() && IsRoot(role, root) && n <= TRAPFRAME && UserMap(mem[..], role, root, n)
      modifies this, mem
      ensures Valid() && role == old(role) && IsRoot(role, root)
      ensures forall v: nat :: v < PAGES ==> (Mapped(mem[..], root, v) != 0 <==> v < n)
      ensures forall v: nat :: v < n ==> Owned(mem[..], role, root, v)
      ensures OtherMaps(old(mem[..]), role, mem[..], root) && SameData(old(mem[..]), role, mem[..])
    {
      ghost var m0: seq<Page>, role0: seq<Role> := mem[..], role;
      Uvmunmap(root, TRAMPOLINE * PGSIZE, 1, false);
      ghost var m1: seq<Page> := mem[..];
      assert Mapped(m1, root, TRAPFRAME) == Mapped(m0, root, TRAPFRAME);
      Uvmunmap(root, TRAPFRAME * PGSIZE, 1, false);
      TwoGone(m0, role0, m1, mem[..], root, n);
    }

    /** proc_freepagetable: every page-table page and every frame comes back, once, with no panic. */
    method ProcFreepagetable(root: nat, sz: nat)
      requires Valid() && IsRoot(role, root) && Up(sz) <= TRAPFRAME
      requires UserMap(mem[..], role, root, Up(sz))
      modifies this, mem
      ensures Valid() && TornDown(old(role), role, root)
      ensures OtherMaps(old(mem[..]), old(role), mem[..], root) && SameData(old(mem[..]), role, mem[..])
    {
      ghost var m0: seq<Page>, role0: seq<Role> := mem[..], role;
      DropTwo(root, Up(sz));
      ghost var m2: seq<Page> := mem[..];
      Uvmfree(root, sz);
      OthersTrans(m0, role0, m2, role0, mem[..], root);
    }

    /** allocproc's memory: a trapframe page and a bare page table, or every page handed back, when fewer
        than six were free. */
    method AllocProc(trampoline: nat) returns (root: nat, trapframe: nat)
      requires Valid()
      modifies this, mem
      ensures Valid()
      ensures root == 0 ==>
        && role == old(role) && SameMaps(old(mem[..]), role, mem[..]) && SameData(old(mem[..]), role, mem[..])
        && |old(free)| < 6
      ensures root != 0 ==> |old(free)| <= |free| + 6
      ensures root != 0 ==> Born(old(mem[..]), old(role), mem[..], role, root, trapframe)
      ensures root != 0 ==> BareMap(mem[..], root, trampoline, trapframe * PGSIZE)
    {
      ghost var m0: seq<Page>, role0: seq<Role> := mem[..], role;
      root := 0;
      trapframe := AllocData();
      if trapframe == 0 {
        return;
      }
      ghost var m1: seq<Page>, role1: seq<Role> := mem[..], role;
      root := ProcPagetable(trampoline, trapframe * PGSIZE);
      if root == 0 {
        ghost var m2: seq<Page> := mem[..];
        FreeData(trapframe);
        NotBorn(m0, role0, m1, role1, m2, mem[..], role, trapframe);
      } else {
        IsBorn(m0, role0, m1, role1, mem[..], role, root, trapframe);
      }
    }

    /** freeproc's memory: the trapframe page and everything proc_freepagetable frees. */
    method FreeProc(trapframe: nat, root: nat, sz: nat)
      requires Valid() && IsRoot(role, root) && Up(sz) <= TRAPFRAME
      requires 0 < trapframe < mem.Length && role[trapframe].Held?
      requires UserMap(mem[..], role, root, Up(sz))
      modifies this, mem
      ensures Valid() && TornDown(old(role)[trapframe := Free], role, root)
      ensures OtherMaps(old(mem[..]), old(role), mem[..], root) && SameData(old(mem[..]), role, mem[..])
    {
      ghost var m0: seq<Page>, role0: seq<Role> := mem[..], role;
      FreeData(trapframe);
      ghost var m1: seq<Page>, role1: seq<Role> := mem[..], role;
      UserMapKept(m0, role0, m1, role1, root, Up(sz), trapframe);
      ProcFreepagetable(root, sz);
      OthersAfter(m0, role0, m1, role1, mem[..], root);
    }

    /** fork's memory: a child with equal contents and flags on pages of its own, or, when memory runs out
        anywhere, every page back in the role it had.  Six pages and three for each page of the parent
        are always enough. */
    method Fork(parent: nat, sz: nat, trampoline: nat) returns (child: nat, trapframe: nat)
      requires Valid() && IsRoot(role, parent) && Up(sz) <= TRAPFRAME && UserMap(mem[..], role, parent, Up(sz))
      modifies this, mem
      ensures Valid()
      ensures child == 0 ==>
        && role == old(role) && SameMaps(old(mem[..]), role, mem[..]) && SameData(old(mem[..]), role, mem[..])
        && |old(free)| < 6 + 3 * Up(sz)
      ensures child != 0 ==> Forked(old(mem[..]), old(role), mem[..], role, parent, child, trapframe, trampoline, Up(sz))
    {
      ghost var m0: seq<Page>, role0: seq<Role> := mem[..], role;
      child, trapframe := AllocProc(trampoline);
      if child == 0 {
        return;
      }
      ghost var m1: seq<Page>, role1: seq<Role> := mem[..], role;
      ReadyToCopy(m0, role0, m1, role1, parent, child, trapframe, trampoline, Up(sz));
      var ok := Uvmcopy(parent, child, sz);
      ghost var m2: seq<Page>, role2: seq<Role> := mem[..], role;
      if !ok {
        StillBare(m1, role1, m2, role2, child, trampoline, trapframe * PGSIZE);
        FreeProc(trapframe, child, 0);
        Unforked(m0, role0, m1, role1, m2, role2, mem[..], role, child, trapframe);
        child := 0;
      } else {
        IsForked(m0, role0, m1, role1, m2, role2, parent, child, trapframe, trampoline, Up(sz));
      }
    }
  }
}

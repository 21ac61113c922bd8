/** What each change fs.c makes to the bitmap, an inode or an indirect block does to FileMap's agreement. */
module FileSteps {
  import opened FileBlocks
  import opened FileMap

  // ---------------------------------------------------------------- bitmap

  lemma MapBlockPlace(sb: Super, store: seq<Bytes>, inodes: seq<Inode>, role: seq<Role>, x: nat)
    requires Sized(sb, store, inodes, role) && BitsOk(sb, store, inodes, role) && x < |role|
    ensures MapBlock(sb, x) < |role| && role[MapBlock(sb, x)] == Meta
    ensures role[x] != Meta ==> forall b: nat :: b < |role| ==> MapBlock(sb, b) != x
  {
    MapBlockMeta(sb, |inodes|, x);
    assert BitmapOk(sb, store, role, MapBlock(sb, x)) && BitmapOk(sb, store, role, x);
  }

  /** Setting or clearing x's bit. */
  function Marked(sb: Super, store: seq<Bytes>, x: nat, used: bool): seq<Bytes>
    requires MapBlock(sb, x) < |store| && Used(sb, store, x) == !used
  {
    store[MapBlock(sb, x) := WithBit(store[MapBlock(sb, x)], x % BPB, used)]
  }

  lemma MarkedBits(sb: Super, store: seq<Bytes>, x: nat, used: bool, b: nat)
    requires MapBlock(sb, x) < |store| && Used(sb, store, x) == !used && MapBlock(sb, b) < |store|
    ensures Used(sb, Marked(sb, store, x, used), b) == if b == x then used else Used(sb, store, b)
  {
    if MapBlock(sb, b) == MapBlock(sb, x) && b % BPB == x % BPB {
      assert b == b / BPB * BPB + b % BPB && x == x / BPB * BPB + x % BPB;
    }
  }

  /** balloc: a free block is marked and zeroed. */
  lemma AllocKeeps(sb: Super, store: seq<Bytes>, inodes: seq<Inode>, role: seq<Role>, x: nat)
    requires FsOk(sb, store, inodes, role) && x < |role| && MapBlock(sb, x) < |store| && !Used(sb, store, x)
    ensures role[x] == Unused
    ensures FsOk(sb, Marked(sb, store, x, true)[x := Zero()], inodes, role[x := Held])
    ensures SameIndirect(store, role, Marked(sb, store, x, true)[x := Zero()])
  {
    assert BitmapOk(sb, store, role, x);
    MapBlockPlace(sb, store, inodes, role, x);
    var store', role' := Marked(sb, store, x, true)[x := Zero()], role[x := Held];
    SameMap(store, inodes, role, store', role');
    SameSizes(store, inodes, role, store');
    forall b: nat | b < |role'| ensures MapBlock(sb, b) < |store'| && BitmapOk(sb, store', role', b) {
      assert BitmapOk(sb, store, role, b);
      MapBlockMeta(sb, |inodes|, b);
      MarkedBits(sb, store, x, true, b);
    }
  }

  /** bfree of a block in no file. */
  lemma FreeKeeps(sb: Super, store: seq<Bytes>, inodes: seq<Inode>, role: seq<Role>, x: nat)
    requires FsOk(sb, store, inodes, role) && x < |role| && role[x] == Held
    ensures MapBlock(sb, x) < |store| && Used(sb, store, x)
    ensures FsOk(sb, Marked(sb, store, x, false), inodes, role[x := Unused])
    ensures SameIndirect(store, role, Marked(sb, store, x, false))
  {
    assert BitmapOk(sb, store, role, x);
    MapBlockPlace(sb, store, inodes, role, x);
    var store', role' := Marked(sb, store, x, false), role[x := Unused];
    SameMap(store, inodes, role, store', role');
    SameSizes(store, inodes, role, store');
    forall b: nat | b < |role'| ensures MapBlock(sb, b) < |store'| && BitmapOk(sb, store', role', b) {
      assert BitmapOk(sb, store, role, b);
      MarkedBits(sb, store, x, false, b);
    }
  }

  /** The bitmap agrees with any roles that say used of the same blocks. */
  lemma SameBits(sb: Super, store: seq<Bytes>, inodes: seq<Inode>, role: seq<Role>, store': seq<Bytes>, inodes': seq<Inode>,
                 role': seq<Role>)
    requires Sized(sb, store, inodes, role) && BitsOk(sb, store, inodes, role) && Sized(sb, store', inodes', role')
    requires forall b :: 0 <= b < |role| && role[b] == Meta ==> store'[b] == store[b]
    requires forall b :: 0 <= b < |role| ==> (role'[b] == Unused <==> role[b] == Unused) && (role'[b] == Meta <==> role[b] == Meta)
    ensures BitsOk(sb, store', inodes', role')
  {
    forall b: nat | b < |role'| ensures MapBlock(sb, b) < |store'| && BitmapOk(sb, store', role', b) {
      assert BitmapOk(sb, store, role, b);
      MapBlockPlace(sb, store, inodes, role, b);
    }
  }

  // ---------------------------------------------------------------- linking a block into a file

  /** Every recorded block number is as before, but for block bn of file i. */
  ghost predicate SameAddrsBut(store: seq<Bytes>, inodes: seq<Inode>, store': seq<Bytes>, inodes': seq<Inode>, i: nat, bn: nat) {
    && |inodes'| == |inodes|
    && forall k: nat, n: nat {:trigger Addr(store', inodes'[k], n)} :: k < |inodes| && n < MAXFILE && (k != i || n != bn) ==>
         Addr(store', inodes'[k], n) == Addr(store, inodes[k], n)
  }

  lemma LinkedMap(store: seq<Bytes>, inodes: seq<Inode>, role: seq<Role>, store': seq<Bytes>, inodes': seq<Inode>,
                  role': seq<Role>, i: nat, bn: nat, a: nat)
    requires MapOk(store, inodes, role) && |store| == |role| && i < |inodes| && bn < MAXFILE && 0 < a < |role|
    requires role[a] == Held && role' == role[a := Data(i, bn)] && Addr(store, inodes[i], bn) == 0
    requires SameAddrsBut(store, inodes, store', inodes', i, bn) && Addr(store', inodes'[i], bn) == a
    requires forall k :: 0 <= k < |inodes| ==> inodes'[k].addrs[NDIRECT] == inodes[k].addrs[NDIRECT]
    ensures MapOk(store', inodes', role')
  {
    forall k: nat, n: nat | k < |inodes'| && n < MAXFILE ensures SlotOk(store', inodes', role', k, n) {
      assert SlotOk(store, inodes, role, k, n);
    }
    forall k: nat | k < |inodes'| ensures IndirectOk(inodes', role', k) {
      assert IndirectOk(inodes, role, k);
    }
    forall b: nat | b < |role'| ensures BlockOk(store', inodes', role', b) {
      assert BlockOk(store, inodes, role, b);
    }
  }

  lemma LinkedSizes(store: seq<Bytes>, inodes: seq<Inode>, store': seq<Bytes>, inodes': seq<Inode>, i: nat, bn: nat)
    requires SizesOk(store, inodes) && SameAddrsBut(store, inodes, store', inodes', i, bn) && i < |inodes|
    requires Addr(store', inodes'[i], bn) != 0
    requires forall k :: 0 <= k < |inodes| ==> inodes'[k].size == inodes[k].size
    ensures SizesOk(store', inodes')
  {
    forall k: nat | k < |inodes'| ensures SizeOk(store', inodes'[k]) {
      assert SizeOk(store, inodes[k]);
      var ino' := inodes'[k];
      forall n: nat | n * BSIZE < ino'.size ensures Addr(store', ino', n) != 0 {
        assert Addr(store, inodes[k], n) != 0;
        assert k != i || n != bn ==> Addr(store', inodes'[k], n) == Addr(store, inodes[k], n);
      }
    }
  }

  function WithAddr(ino: Inode, n: nat, a: nat): Inode
    requires n <= NDIRECT
  {
    ino.(addrs := ino.addrs[n := a])
  }

  lemma LinkDirect(sb: Super, store: seq<Bytes>, inodes: seq<Inode>, role: seq<Role>, i: nat, bn: nat, a: nat)
    requires FsOk(sb, store, inodes, role) && i < |inodes| && bn < NDIRECT && 0 < a < |role|
    requires role[a] == Held && inodes[i].addrs[bn] == 0
    ensures var inodes' := inodes[i := WithAddr(inodes[i], bn, a)];
      && FsOk(sb, store, inodes', role[a := Data(i, bn)])
      && SameAddrsBut(store, inodes, store, inodes', i, bn) && Addr(store, inodes'[i], bn) == a
  {
    var inodes', role' := inodes[i := WithAddr(inodes[i], bn, a)], role[a := Data(i, bn)];
    LinkedMap(store, inodes, role, store, inodes', role', i, bn, a);
    LinkedSizes(store, inodes, store, inodes', i, bn);
    SameBits(sb, store, inodes, role, store, inodes', role');
  }

  /** A zeroed indirect block records nothing yet. */
  lemma LinkIndirect(sb: Super, store: seq<Bytes>, inodes: seq<Inode>, role: seq<Role>, i: nat, a: nat)
    requires FsOk(sb, store, inodes, role) && i < |inodes| && 0 < a < |role|
    requires role[a] == Held && store[a] == Zero() && inodes[i].addrs[NDIRECT] == 0
    ensures var inodes' := inodes[i := WithAddr(inodes[i], NDIRECT, a)];
      && FsOk(sb, store, inodes', role[a := Indirect(i)])
      && forall k: nat, n: nat :: k < |inodes| && n < MAXFILE ==> Addr(store, inodes'[k], n) == Addr(store, inodes[k], n)
  {
    var inodes', role' := inodes[i := WithAddr(inodes[i], NDIRECT, a)], role[a := Indirect(i)];
    forall k: nat, n: nat | k < |inodes| && n < MAXFILE ensures Addr(store, inodes'[k], n) == Addr(store, inodes[k], n) {
      if k == i && n >= NDIRECT { ZeroWords(n - NDIRECT); }
    }
    forall k: nat, n: nat | k < |inodes'| && n < MAXFILE ensures SlotOk(store, inodes', role', k, n) {
      assert SlotOk(store, inodes, role, k, n);
    }
    forall k: nat | k < |inodes'| ensures IndirectOk(inodes', role', k) {
      assert IndirectOk(inodes, role, k);
    }
    forall b: nat | b < |role'| ensures BlockOk(store, inodes', role', b) {
      assert BlockOk(store, inodes, role, b);
    }
    forall k: nat | k < |inodes'| ensures SizeOk(store, inodes'[k]) {
      assert SizeOk(store, inodes[k]);
    }
    SameBits(sb, store, inodes, role, store, inodes', role');
  }

  /** An indirect block is one file's. */
  lemma IndirectApart(store: seq<Bytes>, inodes: seq<Inode>, role: seq<Role>, i: nat, k: nat)
    requires MapOk(store, inodes, role) && i < |inodes| && k < |inodes| && inodes[i].addrs[NDIRECT] != 0
    requires inodes[k].addrs[NDIRECT] == inodes[i].addrs[NDIRECT]
    ensures k == i
  {
    assert IndirectOk(inodes, role, i) && IndirectOk(inodes, role, k);
  }

  lemma LinkSlot(sb: Super, store: seq<Bytes>, inodes: seq<Inode>, role: seq<Role>, i: nat, bn: nat, a: nat)
    requires FsOk(sb, store, inodes, role) && i < |inodes| && NDIRECT <= bn < MAXFILE && 0 < a < |role|
    requires role[a] == Held && inodes[i].addrs[NDIRECT] != 0 && Addr(store, inodes[i], bn) == 0
    ensures inodes[i].addrs[NDIRECT] < |store|
    ensures var ind := inodes[i].addrs[NDIRECT]; var store' := store[ind := WithWord(store[ind], bn - NDIRECT, a)];
      && role[ind] == Indirect(i)
      && FsOk(sb, store', inodes, role[a := Data(i, bn)])
      && SameAddrsBut(store, inodes, store', inodes, i, bn) && Addr(store', inodes[i], bn) == a
  {
    assert IndirectOk(inodes, role, i);
    var ind := inodes[i].addrs[NDIRECT];
    var store', role' := store[ind := WithWord(store[ind], bn - NDIRECT, a)], role[a := Data(i, bn)];
    forall k: nat, n: nat | k < |inodes| && n < MAXFILE && (k != i || n != bn)
      ensures Addr(store', inodes[k], n) == Addr(store, inodes[k], n)
    {
      if k != i && inodes[k].addrs[NDIRECT] == ind { IndirectApart(store, inodes, role, i, k); }
    }
    LinkedMap(store, inodes, role, store', inodes, role', i, bn, a);
    LinkedSizes(store, inodes, store', inodes, i, bn);
    SameBits(sb, store, inodes, role, store', inodes, role');
  }

  // ---------------------------------------------------------------- taking a file apart

  /** A file that is to be emptied has size 0 as far as its blocks are concerned. */
  lemma Emptied(sb: Super, store: seq<Bytes>, inodes: seq<Inode>, role: seq<Role>, i: nat)
    requires FsOk(sb, store, inodes, role) && i < |inodes|
    ensures FsOk(sb, store, inodes[i := inodes[i].(size := 0)], role)
  {
    var inodes' := inodes[i := inodes[i].(size := 0)];
    forall k: nat, n: nat | k < |inodes'| && n < MAXFILE ensures SlotOk(store, inodes', role, k, n) {
      assert SlotOk(store, inodes, role, k, n);
    }
    forall k: nat | k < |inodes'| ensures IndirectOk(inodes', role, k) { assert IndirectOk(inodes, role, k); }
    forall b: nat | b < |role| ensures BlockOk(store, inodes', role, b) { assert BlockOk(store, inodes, role, b); }
    forall k: nat | k < |inodes'| ensures SizeOk(store, inodes'[k]) { assert SizeOk(store, inodes[k]); }
    SameBits(sb, store, inodes, role, store, inodes', role);
  }

  lemma DetachDirect(sb: Super, store: seq<Bytes>, inodes: seq<Inode>, role: seq<Role>, i: nat, n: nat)
    requires FsOk(sb, store, inodes, role) && i < |inodes| && n < NDIRECT && inodes[i].size == 0 && inodes[i].addrs[n] != 0
    ensures inodes[i].addrs[n] < |role| && role[inodes[i].addrs[n]] == Data(i, n)
    ensures FsOk(sb, store, inodes[i := WithAddr(inodes[i], n, 0)], role[inodes[i].addrs[n] := Held])
  {
    assert SlotOk(store, inodes, role, i, n);
    var inodes', role' := inodes[i := WithAddr(inodes[i], n, 0)], role[inodes[i].addrs[n] := Held];
    forall k: nat, m: nat | k < |inodes'| && m < MAXFILE ensures SlotOk(store, inodes', role', k, m) {
      assert SlotOk(store, inodes, role, k, m);
    }
    forall k: nat | k < |inodes'| ensures IndirectOk(inodes', role', k) { assert IndirectOk(inodes, role, k); }
    forall b: nat | b < |role'| ensures BlockOk(store, inodes', role', b) { assert BlockOk(store, inodes, role, b); }
    forall k: nat | k < |inodes'| ensures SizeOk(store, inodes'[k]) { assert SizeOk(store, inodes[k]); }
    SameBits(sb, store, inodes, role, store, inodes', role');
  }

  /** What hangs from file i's indirect block, and the block itself. */
  predicate Below(r: Role, i: nat) {
    (r.Data? && r.i == i && r.n >= NDIRECT) || (r.Indirect? && r.i == i)
  }

  ghost predicate Detached(role: seq<Role>, role': seq<Role>, i: nat) {
    && |role'| == |role|
    && forall b :: 0 <= b < |role| ==> role'[b] == if Below(role[b], i) then Held else role[b]
  }

  lemma DetachIndirect(sb: Super, store: seq<Bytes>, inodes: seq<Inode>, role: seq<Role>, i: nat, role': seq<Role>)
    requires FsOk(sb, store, inodes, role) && i < |inodes| && inodes[i].size == 0 && Detached(role, role', i)
    ensures FsOk(sb, store, inodes[i := WithAddr(inodes[i], NDIRECT, 0)], role')
  {
    var inodes' := inodes[i := WithAddr(inodes[i], NDIRECT, 0)];
    forall k: nat, m: nat | k < |inodes'| && m < MAXFILE ensures SlotOk(store, inodes', role', k, m) {
      assert SlotOk(store, inodes, role, k, m);
    }
    forall k: nat | k < |inodes'| ensures IndirectOk(inodes', role', k) { assert IndirectOk(inodes, role, k); }
    forall b: nat | b < |role'| ensures BlockOk(store, inodes', role', b) { assert BlockOk(store, inodes, role, b); }
    forall k: nat | k < |inodes'| ensures SizeOk(store, inodes'[k]) { assert SizeOk(store, inodes[k]); }
    SameBits(sb, store, inodes, role, store, inodes', role');
  }

  // ---------------------------------------------------------------- data and size

  lemma WriteKeeps(sb: Super, store: seq<Bytes>, inodes: seq<Inode>, role: seq<Role>, a: nat, data: Bytes)
    requires FsOk(sb, store, inodes, role) && a < |role| && role[a].Data?
    ensures FsOk(sb, store[a := data], inodes, role) && SameIndirect(store, role, store[a := data])
  {
    SameMap(store, inodes, role, store[a := data], role);
    SameSizes(store, inodes, role, store[a := data]);
    SameBits(sb, store, inodes, role, store[a := data], inodes, role);
  }

  lemma GrowKeeps(sb: Super, store: seq<Bytes>, inodes: seq<Inode>, role: seq<Role>, i: nat, size: nat)
    requires FsOk(sb, store, inodes, role) && i < |inodes| && size <= MAXFILE * BSIZE
    requires forall n: nat :: n * BSIZE < size ==> Addr(store, inodes[i], n) != 0
    ensures FsOk(sb, store, inodes[i := inodes[i].(size := size)], role)
  {
    var inodes' := inodes[i := inodes[i].(size := size)];
    forall k: nat, n: nat | k < |inodes'| && n < MAXFILE ensures SlotOk(store, inodes', role, k, n) {
      assert SlotOk(store, inodes, role, k, n);
    }
    forall k: nat | k < |inodes'| ensures IndirectOk(inodes', role, k) { assert IndirectOk(inodes, role, k); }
    forall b: nat | b < |role| ensures BlockOk(store, inodes', role, b) { assert BlockOk(store, inodes, role, b); }
    forall n: nat ensures Addr(store, inodes'[i], n) == Addr(store, inodes[i], n) {}
    forall k: nat | k < |inodes'| ensures SizeOk(store, inodes'[k]) { assert k != i ==> SizeOk(store, inodes[k]); }
    SameBits(sb, store, inodes, role, store, inodes', role);
  }

  // ---------------------------------------------------------------- what stays the same in a file

  /** File k has the same block numbers and the same data in them. */
  ghost predicate SameFile(store: seq<Bytes>, ino: Inode, store': seq<Bytes>, ino': Inode) {
    && ino'.size == ino.size && |store'| == |store|
    && (forall n: nat {:trigger Addr(store', ino', n)} :: n * BSIZE < ino.size ==> Addr(store', ino', n) == Addr(store, ino, n))
    && (forall n: nat {:trigger Addr(store, ino, n)} :: n * BSIZE < ino.size && 0 < Addr(store, ino, n) < |store| ==>
          store'[Addr(store, ino, n)] == store[Addr(store, ino, n)])
  }

  lemma SameFileSameContent(store: seq<Bytes>, ino: Inode, store': seq<Bytes>, ino': Inode)
    requires SameFile(store, ino, store', ino')
    ensures Content(store', ino') == Content(store, ino)
  {
    forall k | 0 <= k < ino.size ensures FileByte(store', ino', k) == FileByte(store, ino, k) {
      assert k / BSIZE * BSIZE < ino.size;
    }
  }

  /** Two places in files never share a block. */
  lemma BlocksDistinct(sb: Super, store: seq<Bytes>, inodes: seq<Inode>, role: seq<Role>, i: nat, n: nat, j: nat, m: nat)
    requires FsOk(sb, store, inodes, role) && i < |inodes| && j < |inodes| && n < MAXFILE && m < MAXFILE
    requires Addr(store, inodes[i], n) == Addr(store, inodes[j], m) != 0
    ensures i == j && n == m
  {
    assert SlotOk(store, inodes, role, i, n) && SlotOk(store, inodes, role, j, m);
  }
}

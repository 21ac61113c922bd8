/** Which block belongs to which file: fs.c's bitmap, direct and indirect block maps, on values.

    Every block has one role.  That the bitmap, the inodes and the indirect blocks all agree with
    the roles is FsOk; everything the file system promises about ownership follows from it. */
module FileMap {
  import opened FileBlocks

  const NDIRECT := 12
  const MAXFILE := 268      // NDIRECT + NINDIRECT
  const IPB := 16           // inodes per block

  /** The superblock; blocks below meta hold the log, inodes and bitmap. */
  datatype Super = Super(size: nat, inodeStart: nat, bmapStart: nat, meta: nat) {
    predicate Ok(ninodes: nat) {
      && 0 < meta <= size < 0x1_0000_0000
      && bmapStart + (size - 1) / BPB < meta && (ninodes > 0 ==> inodeStart + (ninodes - 1) / IPB < meta)
    }
  }

  /** addrs of struct inode: NDIRECT block numbers, then the indirect block's. */
  type Addrs = a: seq<nat> | |a| == 13 witness seq(13, _ => 0)

  datatype Inode = Inode(size: nat, addrs: Addrs)

  datatype Role =
    | Unused
    | Meta
    | Held                        // allocated and not yet, or no longer, in a file
    | Data(i: nat, n: nat)        // the n-th block of file i
    | Indirect(i: nat)

  function MapBlock(sb: Super, b: nat): nat {
    b / BPB + sb.bmapStart
  }

  predicate Used(sb: Super, store: seq<Bytes>, b: nat)
    requires MapBlock(sb, b) < |store|
  {
    BitAt(store[MapBlock(sb, b)], b % BPB)
  }

  /** The block number recorded for block bn of a file, 0 if none. */
  function Addr(store: seq<Bytes>, ino: Inode, bn: nat): nat
  {
    if bn < NDIRECT then ino.addrs[bn]
    else if bn < MAXFILE && 0 < ino.addrs[NDIRECT] < |store| then Word(store[ino.addrs[NDIRECT]], bn - NDIRECT)
    else 0
  }

  // ---------------------------------------------------------------- agreement

  predicate Sized(sb: Super, store: seq<Bytes>, inodes: seq<Inode>, role: seq<Role>) {
    |store| == |role| == sb.size && sb.Ok(|inodes|)
  }

  /** A recorded block is that file's. */
  predicate SlotOk(store: seq<Bytes>, inodes: seq<Inode>, role: seq<Role>, i: nat, n: nat)
    requires i < |inodes|
  {
    var a := Addr(store, inodes[i], n);
    a != 0 ==> a < |role| && role[a] == Data(i, n)
  }

  predicate IndirectOk(inodes: seq<Inode>, role: seq<Role>, i: nat)
    requires i < |inodes|
  {
    var a := inodes[i].addrs[NDIRECT];
    a != 0 ==> a < |role| && role[a] == Indirect(i)
  }

  /** A block with a place in a file is recorded there. */
  predicate BlockOk(store: seq<Bytes>, inodes: seq<Inode>, role: seq<Role>, b: nat)
    requires b < |role|
  {
    match role[b]
    case Data(i, n) => b != 0 && i < |inodes| && n < MAXFILE && Addr(store, inodes[i], n) == b
    case Indirect(i) => b != 0 && i < |inodes| && inodes[i].addrs[NDIRECT] == b
    case _ => true
  }

  /** The bitmap says used of exactly the blocks that are. */
  predicate BitmapOk(sb: Super, store: seq<Bytes>, role: seq<Role>, b: nat)
    requires b < |role| && MapBlock(sb, b) < |store|
  {
    Used(sb, store, b) == (role[b] != Unused) && (b < sb.meta <==> role[b] == Meta)
  }

  /** No hole below the size. */
  ghost predicate SizeOk(store: seq<Bytes>, ino: Inode) {
    && ino.size <= MAXFILE * BSIZE
    && forall n: nat {:trigger Addr(store, ino, n)} :: n * BSIZE < ino.size ==> Addr(store, ino, n) != 0
  }

  lemma MapBlockMeta(sb: Super, ninodes: nat, b: nat)
    requires sb.Ok(ninodes) && b < sb.size
    ensures MapBlock(sb, b) < sb.meta
  {
  }

  ghost predicate MapOk(store: seq<Bytes>, inodes: seq<Inode>, role: seq<Role>)
  {
    && (forall i: nat, n: nat {:trigger SlotOk(store, inodes, role, i, n)} ::
          i < |inodes| && n < MAXFILE ==> SlotOk(store, inodes, role, i, n))
    && (forall i: nat {:trigger IndirectOk(inodes, role, i)} :: i < |inodes| ==> IndirectOk(inodes, role, i))
    && (forall b: nat {:trigger BlockOk(store, inodes, role, b)} :: b < |role| ==> BlockOk(store, inodes, role, b))
  }

  ghost predicate BitsOk(sb: Super, store: seq<Bytes>, inodes: seq<Inode>, role: seq<Role>)
    requires Sized(sb, store, inodes, role)
  {
    forall b: nat {:trigger BitmapOk(sb, store, role, b)} ::
      b < |role| ==> MapBlock(sb, b) < |store| && BitmapOk(sb, store, role, b)
  }

  ghost predicate SizesOk(store: seq<Bytes>, inodes: seq<Inode>)
  {
    forall i: nat {:trigger SizeOk(store, inodes[i])} :: i < |inodes| ==> SizeOk(store, inodes[i])
  }

  ghost predicate FsOk(sb: Super, store: seq<Bytes>, inodes: seq<Inode>, role: seq<Role>) {
    Sized(sb, store, inodes, role) && MapOk(store, inodes, role) && BitsOk(sb, store, inodes, role) && SizesOk(store, inodes)
  }

  // ---------------------------------------------------------------- what a file holds

  function FileByte(store: seq<Bytes>, ino: Inode, k: nat): byte
  {
    var a := Addr(store, ino, k / BSIZE);
    if 0 < a < |store| then store[a][k % BSIZE] else 0
  }

  /** The file as a byte sequence. */
  function Content(store: seq<Bytes>, ino: Inode): (s: seq<byte>)
    ensures |s| == ino.size
  {
    seq(ino.size, k requires 0 <= k < ino.size => FileByte(store, ino, k))
  }

  // ---------------------------------------------------------------- frames

  /** Maps depend on the store through indirect blocks only. */
  ghost predicate SameIndirect(store: seq<Bytes>, role: seq<Role>, store': seq<Bytes>) {
    && |store'| == |store| == |role|
    && forall b :: 0 <= b < |role| && role[b].Indirect? ==> store'[b] == store[b]
  }

  lemma SameAddr(store: seq<Bytes>, inodes: seq<Inode>, role: seq<Role>, store': seq<Bytes>, i: nat, n: nat)
    requires MapOk(store, inodes, role) && SameIndirect(store, role, store') && i < |inodes|
    ensures Addr(store', inodes[i], n) == Addr(store, inodes[i], n)
  {
    assert IndirectOk(inodes, role, i);
  }

  /** A store with the same indirect blocks and roles that differ only among blocks in no file. */
  lemma SameMap(store: seq<Bytes>, inodes: seq<Inode>, role: seq<Role>, store': seq<Bytes>, role': seq<Role>)
    requires MapOk(store, inodes, role) && SameIndirect(store, role, store') && |role'| == |role|
    requires forall b :: 0 <= b < |role| ==>
      role'[b] == role[b] || !(role[b].Data? || role[b].Indirect? || role'[b].Data? || role'[b].Indirect?)
    ensures MapOk(store', inodes, role')
  {
    forall i: nat, n: nat | i < |inodes| && n < MAXFILE ensures SlotOk(store', inodes, role', i, n) {
      assert SlotOk(store, inodes, role, i, n);
      SameAddr(store, inodes, role, store', i, n);
    }
    forall i: nat | i < |inodes| ensures IndirectOk(inodes, role', i) {
      assert IndirectOk(inodes, role, i);
    }
    forall b: nat | b < |role'| ensures BlockOk(store', inodes, role', b) {
      assert BlockOk(store, inodes, role, b);
      if role[b].Data? { SameAddr(store, inodes, role, store', role[b].i, role[b].n); }
    }
  }

  lemma SameSizes(store: seq<Bytes>, inodes: seq<Inode>, role: seq<Role>, store': seq<Bytes>)
    requires MapOk(store, inodes, role) && SizesOk(store, inodes) && SameIndirect(store, role, store')
    ensures SizesOk(store', inodes)
  {
    forall i: nat | i < |inodes| ensures SizeOk(store', inodes[i]) {
      assert SizeOk(store, inodes[i]);
      forall n: nat | n * BSIZE < inodes[i].size ensures Addr(store', inodes[i], n) != 0 {
        SameAddr(store, inodes, role, store', i, n);
      }
    }
  }
}

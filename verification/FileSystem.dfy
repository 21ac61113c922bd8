/** balloc, bfree, bmap, itrunc, readi and writei of fs.c and the chunks of filewrite, over a flat
    block store: bread of a block and log_write of a changed one are reads and writes of it.

    The caller holds the inode's lock and is inside a log transaction. */
module FileSystem {
  import opened FileBlocks
  import opened FileMap
  import opened FileSteps
  import opened FileData

  const UINT := 0x1_0000_0000
  const MAXCHUNK := 3 * BSIZE   // ((MAXOPBLOCKS - 1 - 1 - 2) / 2) * BSIZE

  class Fs {
    const sb: Super
    const store: array<Bytes>
    const inode: array<Inode>     // the in-memory inodes
    const dinode: array<Inode>    // the ones in the inode blocks
    ghost var role: seq<Role>
    ghost var logged: set<nat>    // blocks log_write has been called for

    ghost predicate Valid()
      reads this, store, inode
    {
      inode.Length == dinode.Length && inode != dinode && FsOk(sb, store[..], inode[..], role)
    }

    method Bzero(b: nat)
      requires b < store.Length
      modifies this`logged, store
      ensures store[..] == old(store[..])[b := Zero()] && logged == old(logged) + {b}
    {
      store[b] := Zero();
      logged := logged + {b};
    }

    /** Marks x in use, and zeroes it. */
    method Claim(x: nat)
      requires Valid() && x < sb.size && MapBlock(sb, x) < store.Length && !Used(sb, store[..], x)
      modifies this`role, this`logged, store
      ensures Valid() && x != 0 && old(role)[x] == Unused && role == old(role)[x := Held] && store[x] == Zero()
      ensures SameIndirect(old(store[..]), old(role), store[..]) && SameData(old(store[..]), old(role), store[..])
      ensures logged == old(logged) + {MapBlock(sb, x), x}
      ensures AllLogged(old(store[..]), old(logged), store[..], logged)
    {
      AllocKeeps(sb, store[..], inode[..], role, x);
      MapBlockPlace(sb, store[..], inode[..], role, x);
      assert BitmapOk(sb, store[..], role, x);
      var bp := store[MapBlock(sb, x)];
      bp := WithBit(bp, x % BPB, true);
      store[MapBlock(sb, x)] := bp;
      logged := logged + {MapBlock(sb, x)};
      assert store[..] == Marked(sb, old(store[..]), x, true);
      Bzero(x);
      role := role[x := Held];
    }

    /** The inner loop of balloc: the first free block of the bitmap block for b, if any. */
    method FirstClear(b: nat) returns (bi: nat)
      requires Sized(sb, store[..], inode[..], role) && b % BPB == 0 && b < sb.size
      ensures MapBlock(sb, b) < store.Length && bi <= BPB && (bi < BPB && b + bi < sb.size ==> !Used(sb, store[..], b + bi))
      ensures forall k: nat {:trigger Used(sb, store[..], k)} :: b <= k < b + bi && k < sb.size ==> Used(sb, store[..], k)
      ensures forall k: nat {:trigger MapBlock(sb, k)} :: b <= k < b + BPB ==> MapBlock(sb, k) == MapBlock(sb, b)
    {
      MapBlockMeta(sb, inode.Length, b);
      forall k: nat | b <= k < b + BPB ensures MapBlock(sb, k) == MapBlock(sb, b) && k % BPB == k - b {}
      var bp := store[MapBlock(sb, b)];
      bi := 0;
      while bi < BPB && b + bi < sb.size
        invariant 0 <= bi <= BPB
        invariant forall k: nat {:trigger Used(sb, store[..], k)} :: b <= k < b + bi && k < sb.size ==> Used(sb, store[..], k)
      {
        if !BitAt(bp, bi) {
          return;
        }
        bi := bi + 1;
      }
    }

    /** balloc: a zeroed block that nobody owned, or 0 because every block is in use. */
    method Balloc() returns (r: nat)
      requires Valid()
      modifies this`role, this`logged, store
      ensures Valid()
      ensures r == 0 ==> store[..] == old(store[..]) && role == old(role) && logged == old(logged)
      ensures r == 0 ==> DiskFull(role)
      ensures r != 0 ==>
        && r < |role| && old(role)[r] == Unused && role == old(role)[r := Held] && store[r] == Zero()
        && SameIndirect(old(store[..]), old(role), store[..]) && SameData(old(store[..]), old(role), store[..])
        && logged == old(logged) + {MapBlock(sb, r), r}
      ensures AllLogged(old(store[..]), old(logged), store[..], logged)
    {
      var b := 0;
      while b < sb.size
        invariant b % BPB == 0 && Valid() && store[..] == old(store[..]) && role == old(role) && logged == old(logged)
        invariant forall k: nat :: k < b && k < sb.size ==> MapBlock(sb, k) < store.Length && Used(sb, store[..], k)
        decreases sb.size - b
      {
        var bi := FirstClear(b);
        if bi < BPB && b + bi < sb.size {
          Claim(b + bi);
          return b + bi;
        }
        b := b + BPB;
      }
      forall k | 0 <= k < |role| ensures role[k] != Unused {
        assert BitmapOk(sb, store[..], role, k);
      }
      return 0;
    }

    /** bfree, of a block in no file of virt.  "freeing free block" is never reached. */
    method Bfree(b: nat, ghost virt: seq<Inode>)
      requires FsOk(sb, store[..], virt, role) && b < |role| && role[b] == Held
      modifies this`role, this`logged, store
      ensures FsOk(sb, store[..], virt, role) && role == old(role)[b := Unused]
      ensures SameIndirect(old(store[..]), old(role), store[..]) && SameData(old(store[..]), old(role), store[..])
      ensures logged == old(logged) + {MapBlock(sb, b)} && LogsBitmap(sb, old(logged), logged)
      ensures AllLogged(old(store[..]), old(logged), store[..], logged)
    {
      FreeKeeps(sb, store[..], virt, role, b);
      MapBlockPlace(sb, store[..], virt, role, b);
      var bp := store[MapBlock(sb, b)];
      assert BitAt(bp, b % BPB);
      bp := WithBit(bp, b % BPB, false);
      store[MapBlock(sb, b)] := bp;
      assert store[..] == Marked(sb, old(store[..]), b, false);
      logged := logged + {MapBlock(sb, b)};
      MapBlockIs(sb, b);
      role := role[b := Unused];
    }

    /** bmap: the block recorded for bn, or a fresh zeroed one recorded there now, or 0 when the
        disk is full; nothing else in any file changes. */
    method Bmap(i: nat, bn: nat) returns (addr: nat)
      requires Valid() && i < inode.Length && bn < MAXFILE
      modifies this`role, this`logged, store, inode
      ensures Valid() && BmapDone(old(store[..]), old(inode[..]), old(role), store[..], inode[..], role, i, bn)
      ensures addr == Addr(store[..], inode[i], bn)
      ensures addr == 0 ==> DiskFull(role)
      ensures old(Addr(store[..], inode[i], bn)) != 0 ==>
        store[..] == old(store[..]) && inode[..] == old(inode[..]) && role == old(role) && logged == old(logged)
      ensures LogsOnly(sb, old(logged), logged, store[..], inode[i], bn, bn)
      ensures AllLogged(old(store[..]), old(logged), store[..], logged)
    {
      if bn < NDIRECT {
        addr := inode[i].addrs[bn];
        if addr == 0 {
          addr := BmapDirect(i, bn);
        }
        return;
      }
      addr := BmapIndirect(i, bn);
    }

    method BmapDirect(i: nat, bn: nat) returns (addr: nat)
      requires Valid() && i < inode.Length && bn < NDIRECT && inode[i].addrs[bn] == 0
      modifies this`role, this`logged, store, inode
      ensures Valid() && BmapDone(old(store[..]), old(inode[..]), old(role), store[..], inode[..], role, i, bn)
      ensures addr == Addr(store[..], inode[i], bn)
      ensures addr == 0 ==> DiskFull(role)
      ensures LogsOnly(sb, old(logged), logged, store[..], inode[i], bn, bn)
      ensures AllLogged(old(store[..]), old(logged), store[..], logged)
    {
      addr := Balloc();
      if addr == 0 {
        return;
      }
      ghost var s1: seq<Bytes>, r1: seq<Role> := store[..], role;
      AllocatedAddrs(old(store[..]), old(inode[..]), old(role), s1);
      LinkDirect(sb, s1, inode[..], r1, i, bn, addr);
      inode[i] := WithAddr(inode[i], bn, addr);
      role := role[addr := Data(i, bn)];
      assert inode[..] == old(inode[..])[i := WithAddr(old(inode[i]), bn, addr)];
      MapBlockIs(sb, addr);
    }

    /** The indirect block of file i, which has none. */
    method AddIndirect(i: nat) returns (addr: nat)
      requires Valid() && i < inode.Length && inode[i].addrs[NDIRECT] == 0
      modifies this`role, this`logged, store, inode
      ensures Valid() && forall bn :: NDIRECT <= bn < MAXFILE ==>
        BmapDone(old(store[..]), old(inode[..]), old(role), store[..], inode[..], role, i, bn)
      ensures addr == inode[i].addrs[NDIRECT]
      ensures addr == 0 ==> DiskFull(role)
      ensures forall n :: NDIRECT <= n < MAXFILE ==> Addr(store[..], inode[i], n) == 0
      ensures forall bn: nat :: LogsOnly(sb, old(logged), logged, store[..], inode[i], bn, bn)
      ensures AllLogged(old(store[..]), old(logged), store[..], logged)
    {
      addr := Balloc();
      if addr == 0 {
        return;
      }
      ghost var s1: seq<Bytes>, r1: seq<Role> := store[..], role;
      AllocatedAddrs(old(store[..]), old(inode[..]), old(role), s1);
      LinkIndirect(sb, s1, inode[..], r1, i, addr);
      inode[i] := WithAddr(inode[i], NDIRECT, addr);
      role := role[addr := Indirect(i)];
      assert inode[..] == old(inode[..])[i := WithAddr(old(inode[i]), NDIRECT, addr)];
      MapBlockIs(sb, addr);
    }

    /** A block for slot bn of file i's indirect block, which has none there. */
    method AddSlot(i: nat, bn: nat) returns (addr: nat)
      requires Valid() && i < inode.Length && NDIRECT <= bn < MAXFILE && inode[i].addrs[NDIRECT] != 0
      requires Addr(store[..], inode[i], bn) == 0
      modifies this`role, this`logged, store
      ensures Valid() && BmapDone(old(store[..]), inode[..], old(role), store[..], inode[..], role, i, bn)
      ensures addr == Addr(store[..], inode[i], bn)
      ensures addr == 0 ==> DiskFull(role)
      ensures LogsOnly(sb, old(logged), logged, store[..], inode[i], bn, bn)
      ensures AllLogged(old(store[..]), old(logged), store[..], logged)
    {
      addr := Balloc();
      if addr == 0 {
        return;
      }
      ghost var s1: seq<Bytes>, r1: seq<Role> := store[..], role;
      AllocatedAddrs(old(store[..]), inode[..], old(role), s1);
      LinkSlot(sb, s1, inode[..], r1, i, bn, addr);
      var ind := inode[i].addrs[NDIRECT];
      store[ind] := WithWord(store[ind], bn - NDIRECT, addr);
      logged := logged + {ind};
      role := role[addr := Data(i, bn)];
      MapBlockIs(sb, addr);
    }

    method BmapIndirect(i: nat, bn: nat) returns (addr: nat)
      requires Valid() && i < inode.Length && NDIRECT <= bn < MAXFILE
      modifies this`role, this`logged, store, inode
      ensures Valid() && BmapDone(old(store[..]), old(inode[..]), old(role), store[..], inode[..], role, i, bn)
      ensures addr == Addr(store[..], inode[i], bn)
      ensures addr == 0 ==> DiskFull(role)
      ensures old(Addr(store[..], inode[i], bn)) != 0 ==>
        store[..] == old(store[..]) && inode[..] == old(inode[..]) && role == old(role) && logged == old(logged)
      ensures LogsOnly(sb, old(logged), logged, store[..], inode[i], bn, bn)
      ensures AllLogged(old(store[..]), old(logged), store[..], logged)
    {
      addr := inode[i].addrs[NDIRECT];
      if addr == 0 {
        addr := AddIndirect(i);
        if addr == 0 {
          return;
        }
      }
      assert IndirectOk(inode[..], role, i);
      var bp := store[addr];
      var a := Word(bp, bn - NDIRECT);
      if a != 0 {
        return a;
      }
      ghost var s1: seq<Bytes>, n1: seq<Inode>, r1: seq<Role> := store[..], inode[..], role;
      ghost var l1 := logged;
      a := AddSlot(i, bn);
      LogsMore(sb, old(logged), l1, s1, n1[i], bn, bn, logged, store[..], inode[i], bn);
      DoneTwice(old(store[..]), old(inode[..]), old(role), s1, n1, r1, store[..], inode[..], role, i, bn);
      LoggedTwice(old(store[..]), old(logged), s1, l1, store[..], logged);
      return a;
    }

    method Iupdate(i: nat)
      requires i < inode.Length == dinode.Length && inode != dinode
      modifies this`logged, dinode
      ensures dinode[..] == old(dinode[..])[i := inode[i]] && logged == old(logged) + {i / IPB + sb.inodeStart}
    {
      dinode[i] := inode[i];
      logged := logged + {i / IPB + sb.inodeStart};
    }

    /** bmap, bread and the bytes wanted of one block. */
    method ReadChunk(i: nat, off: nat, m: nat) returns (chunk: seq<byte>)
      requires Valid() && i < inode.Length && 0 < m && off + m <= inode[i].size && off % BSIZE + m <= BSIZE
      modifies this`role, this`logged, store, inode
      ensures store[..] == old(store[..]) && inode[..] == old(inode[..]) && role == old(role) && logged == old(logged)
      ensures chunk == Content(store[..], inode[i])[off..off + m]
    {
      assert SizeOk(store[..], inode[i]);
      assert off / BSIZE * BSIZE < inode[i].size && SlotOk(store[..], inode[..], role, i, off / BSIZE);
      var addr := Bmap(i, off / BSIZE);
      var bp := store[addr];
      SliceBytes(store[..], inode[i], off, m, addr);
      chunk := bp[off % BSIZE..off % BSIZE + m];
    }

    /** readi: exactly the slice of the file asked for, cut at its size; it allocates nothing.
        limit is how many bytes the destination can take before copying out fails. */
    method Readi(i: nat, off0: nat, n0: nat, limit: nat) returns (tot: int, data: seq<byte>)
      requires Valid() && i < inode.Length && off0 < UINT && n0 < UINT
      modifies this`role, this`logged, store, inode
      ensures store[..] == old(store[..]) && inode[..] == old(inode[..]) && role == old(role) && logged == old(logged)
      ensures off0 > inode[i].size || off0 + n0 >= UINT ==> tot == 0 && data == []
      ensures off0 <= inode[i].size && off0 + n0 < UINT ==>
        var n := if off0 + n0 > inode[i].size then inode[i].size - off0 else n0;
        (if n <= limit then tot == n && data == Content(store[..], inode[i])[off0..off0 + n] else tot == -1)
    {
      data := [];
      if off0 > inode[i].size || (off0 + n0) % UINT < off0 {
        return 0, [];
      }
      var off, n := off0, n0;
      if off + n > inode[i].size {
        n := inode[i].size - off;
      }
      tot := 0;
      while tot < n
        invariant 0 <= tot <= n && off == off0 + tot && tot <= limit
        invariant store[..] == old(store[..]) && inode[..] == old(inode[..]) && role == old(role) && logged == old(logged)
        invariant off0 + n <= inode[i].size && data == Content(store[..], inode[i])[off0..off]
      {
        var m := ToBlockEnd(off, n - tot);
        var chunk := ReadChunk(i, off, m);
        if tot + m > limit {
          return -1, data;
        }
        SliceJoin(Content(store[..], inode[i]), off0, off, m);
        data := data + chunk;
        tot := tot + m;
        off := off + m;
      }
    }

    /** One turn of writei's loop: bmap, then m bytes of w into the block, unless it has none or the
        bytes cannot be copied in. */
    method WriteChunk(i: nat, off: nat, w: seq<byte>, copies: bool, ghost f: seq<byte>) returns (ok: bool)
      requires Valid() && i < inode.Length && Holds(store[..], inode[i], f) && off <= |f|
      requires 0 < |w| && off % BSIZE + |w| <= BSIZE && off + |w| <= MAXFILE * BSIZE
      modifies this`role, this`logged, store, inode
      ensures Valid() && inode[i].size == old(inode[i].size)
      ensures OthersKept(old(store[..]), old(inode[..]), old(role), store[..], inode[..], i)
      ensures Holds(store[..], inode[i], if ok then Splice(f, off, w) else f)
      ensures !ok ==> !copies || DiskFull(role)
      ensures LogsOnly(sb, old(logged), logged, store[..], inode[i], off / BSIZE, off / BSIZE)
      ensures AllLogged(old(store[..]), old(logged), store[..], logged)
      ensures KeepsAddrs(old(store[..]), old(inode[i]), store[..], inode[i]) && RolesGrew(old(role), role, i)
    {
      ghost var s0: seq<Bytes>, n0: seq<Inode>, r0: seq<Role> := store[..], inode[..], role;
      var addr := Bmap(i, off / BSIZE);
      BmapFile(sb, s0, n0, r0, store[..], inode[..], role, i, off / BSIZE, f);
      DoneGrew(s0, n0, r0, store[..], inode[..], role, i, off / BSIZE);
      if addr == 0 || !copies {
        return false;
      }
      ghost var s1: seq<Bytes> := store[..];
      assert SlotOk(s1, inode[..], role, i, off / BSIZE);
      WriteKeeps(sb, s1, inode[..], role, addr, Patch(store[addr], off % BSIZE, w));
      store[addr] := Patch(store[addr], off % BSIZE, w);
      logged := logged + {addr};
      PatchFile(sb, s1, inode[..], role, store[..], i, off, w, f);
      PatchOthers(s0, n0, r0, s1, inode[..], role, store[..], i, off / BSIZE, addr);
      return true;
    }

    /** writei: replaces or extends exactly the bytes from off0, as many as it returns, and changes
        no other file.  limit is how many bytes of src can be copied in. */
    method Writei(i: nat, off0: nat, src: seq<byte>, limit: nat) returns (tot: int)
      requires Valid() && i < inode.Length && off0 < UINT && |src| < UINT
      modifies this`role, this`logged, store, inode, dinode
      ensures Valid() && RolesGrew(old(role), role, i)
      ensures tot < 0 <==> off0 > old(inode[i].size) || off0 + |src| >= UINT || off0 + |src| > MAXFILE * BSIZE
      ensures tot < 0 ==>
        (tot == -1 && store[..] == old(store[..]) && inode[..] == old(inode[..]) && role == old(role)
         && dinode[..] == old(dinode[..]) && logged == old(logged))
      ensures tot >= 0 ==>
        (off0 <= |old(Content(store[..], inode[i]))| && tot <= |src|
         && Content(store[..], inode[i]) == Splice(old(Content(store[..], inode[i])), off0, src[..tot])
         && dinode[..] == old(dinode[..])[i := inode[i]])
      ensures OthersSame(old(store[..]), old(inode[..]), store[..], inode[..], i)
      ensures 0 <= tot < |src| ==> (limit < |src| && limit < tot + BSIZE) || DiskFull(role)
      ensures tot >= 0 && src != [] ==>
        LogsOnly(sb, old(logged) + {i / IPB + sb.inodeStart}, logged, store[..], inode[i], off0 / BSIZE, (off0 + |src| - 1) / BSIZE)
      ensures AllLogged(old(store[..]), old(logged), store[..], logged)
      ensures InodesLogged(sb, old(dinode[..]), dinode[..], logged)
    {
      var off, n := off0, |src|;
      if off > inode[i].size || (off + n) % UINT < off {
        return -1;
      }
      if (off + n) % UINT > MAXFILE * BSIZE {
        return -1;
      }
      ghost var s0: seq<Bytes>, n0: seq<Inode>, r0: seq<Role> := store[..], inode[..], role;
      WrittenNothing(sb, s0, n0, r0, logged, i, off0, src);
      tot := WriteBlocks(i, off0, src, limit, s0, n0, r0, logged);
      off := off0 + tot;
      ghost var f := Splice(Content(s0, n0[i]), off0, src[..tot]);
      ghost var s1: seq<Bytes>, n1: seq<Inode>, l1 := store[..], inode[..], logged;
      Finish(i, off, f);
      OthersContent(sb, s0, n0, r0, s1, n1, i);
      LogsInode(sb, old(logged), l1, s1, n1[i], inode[i], off0, |src|, i / IPB + sb.inodeStart);
    }

    /** The loop of writei. */
    method WriteBlocks(i: nat, off0: nat, src: seq<byte>, limit: nat,
                       ghost s0: seq<Bytes>, ghost n0: seq<Inode>, ghost r0: seq<Role>, ghost l0: set<nat>) returns (tot: nat)
      requires Valid() && i < inode.Length && off0 + |src| <= MAXFILE * BSIZE
      requires Written(sb, s0, n0, r0, l0, store[..], inode[..], role, logged, i, off0, src, 0)
      modifies this`role, this`logged, store, inode
      ensures Valid() && tot <= |src|
      ensures Written(sb, s0, n0, r0, l0, store[..], inode[..], role, logged, i, off0, src, tot)
      ensures tot < |src| ==> (limit < |src| && limit < tot + BSIZE) || DiskFull(role)
    {
      tot := 0;
      while tot < |src|
        invariant 0 <= tot <= |src| && Valid()
        invariant Written(sb, s0, n0, r0, l0, store[..], inode[..], role, logged, i, off0, src, tot)
      {
        var ok, m := WriteTurn(i, off0, src, tot, limit, s0, n0, r0, l0);
        if !ok {
          return;
        }
        tot := tot + m;
      }
    }

    method WriteTurn(i: nat, off0: nat, src: seq<byte>, tot: nat, limit: nat,
                     ghost s0: seq<Bytes>, ghost n0: seq<Inode>, ghost r0: seq<Role>, ghost l0: set<nat>) returns (ok: bool, m: nat)
      requires Valid() && i < inode.Length && tot < |src| && off0 + |src| <= MAXFILE * BSIZE
      requires Written(sb, s0, n0, r0, l0, store[..], inode[..], role, logged, i, off0, src, tot)
      modifies this`role, this`logged, store, inode
      ensures Valid() && 0 < m <= BSIZE && tot + m <= |src|
      ensures Written(sb, s0, n0, r0, l0, store[..], inode[..], role, logged, i, off0, src, if ok then tot + m else tot)
      ensures !ok ==> limit < tot + m || DiskFull(role)
    {
      var off := off0 + tot;
      m := ToBlockEnd(off, |src| - tot);
      ghost var s1: seq<Bytes>, n1: seq<Inode>, r1: seq<Role>, l1 := store[..], inode[..], role, logged;
      ok := WriteChunk(i, off, src[tot..tot + m], tot + m <= limit, Splice(Content(s0, n0[i]), off0, src[..tot]));
      WrittenMore(sb, s0, n0, r0, l0, s1, n1, r1, l1, store[..], inode[..], role, logged, i, off0, src, tot, m, ok);
    }

    /** The end of writei: the new size, and the inode back to its block. */
    method Finish(i: nat, off: nat, ghost f: seq<byte>)
      requires Valid() && i < inode.Length && Holds(store[..], inode[i], f)
      requires |f| == if off > inode[i].size then off else inode[i].size
      modifies this`logged, inode, dinode
      ensures Valid() && Content(store[..], inode[i]) == f
      ensures inode[..] == old(inode[..])[i := old(inode[i]).(size := |f|)]
      ensures dinode[..] == old(dinode[..])[i := inode[i]] && logged == old(logged) + {i / IPB + sb.inodeStart}
    {
      ContentHolds(store[..], inode[i], f, |f|);
      GrowKeeps(sb, store[..], inode[..], role, i, |f|);
      if off > inode[i].size {
        inode[i] := inode[i].(size := off);
      }
      assert inode[..] == old(inode[..])[i := old(inode[i]).(size := |f|)];
      Iupdate(i);
    }

    // -------------------------------------------------------------- itrunc

    /** bfree(ip->addrs[n]); ip->addrs[n] = 0. */
    method FreeDirect(i: nat, n: nat)
      requires i < inode.Length && n < NDIRECT && inode[i].addrs[n] != 0
      requires FsOk(sb, store[..], Emptying(inode[..], i), role)
      modifies this`role, this`logged, store, inode
      ensures FsOk(sb, store[..], Emptying(inode[..], i), role)
      ensures inode[..] == old(inode[..])[i := WithAddr(old(inode[i]), n, 0)]
      ensures old(inode[i].addrs[n] < |role| && role[inode[i].addrs[n]] == Data(i, n))
      ensures role == old(role)[old(inode[i].addrs[n]) := Unused]
      ensures SameIndirect(old(store[..]), old(role), store[..]) && SameData(old(store[..]), role, store[..])
      ensures AllLogged(old(store[..]), old(logged), store[..], logged) && LogsBitmap(sb, old(logged), logged)
    {
      ghost var virt := Emptying(inode[..], i);
      DetachDirect(sb, store[..], virt, role, i, n);
      ghost var virt1 := virt[i := WithAddr(virt[i], n, 0)];
      role := role[inode[i].addrs[n] := Held];
      Bfree(inode[i].addrs[n], virt1);
      inode[i] := WithAddr(inode[i], n, 0);
      assert Emptying(inode[..], i) == virt1;
    }

    /** The blocks listed in the indirect block, and then that block itself. */
    method FreeIndirect(i: nat)
      requires i < inode.Length && inode[i].addrs[NDIRECT] != 0
      requires FsOk(sb, store[..], Emptying(inode[..], i), role)
      modifies this`role, this`logged, store, inode
      ensures FsOk(sb, store[..], Emptying(inode[..], i), role)
      ensures inode[..] == old(inode[..])[i := WithAddr(old(inode[i]), NDIRECT, 0)]
      ensures BelowFreed(old(role), role, i, MAXFILE - NDIRECT, false)
      ensures SameData(old(store[..]), role, store[..])
      ensures AllLogged(old(store[..]), old(logged), store[..], logged) && LogsBitmap(sb, old(logged), logged)
    {
      ghost var virt, r0, s0: seq<Bytes> := Emptying(inode[..], i), role, store[..];
      ghost var virt1 := virt[i := WithAddr(virt[i], NDIRECT, 0)];
      role := Detach(role, i);
      DetachIndirect(sb, store[..], virt, r0, i, role);
      var ind := inode[i].addrs[NDIRECT];
      assert IndirectOk(virt, r0, i) && r0[ind] == Indirect(i);
      var bp := store[ind];
      var j := 0;
      while j < NINDIRECT
        invariant 0 <= j <= NINDIRECT && inode[..] == old(inode[..]) && FsOk(sb, store[..], virt1, role)
        invariant BelowFreed(r0, role, i, j, true) && SameData(s0, role, store[..])
        invariant AllLogged(s0, old(logged), store[..], logged) && LogsBitmap(sb, old(logged), logged)
      {
        var a := Word(bp, j);
        assert SlotOk(s0, virt, r0, i, NDIRECT + j) && Addr(s0, virt[i], NDIRECT + j) == a;
        if a != 0 {
          assert r0[a] == Data(i, NDIRECT + j);
          ghost var r1 := role;
          Bfree(a, virt1);
          OneMoreFreed(s0, virt, r0, r1, role, i, j, a);
        } else {
          NoSuchBlock(s0, virt, r0, role, i, j);
        }
        j := j + 1;
      }
      ghost var r2 := role;
      Bfree(ind, virt1);
      IndirectFreed(s0, virt, r0, r2, role, i, ind);
      inode[i] := WithAddr(inode[i], NDIRECT, 0);
      assert Emptying(inode[..], i) == virt1;
    }

    /** The loop of itrunc over the direct blocks. */
    method FreeAllDirect(i: nat)
      requires i < inode.Length && FsOk(sb, store[..], Emptying(inode[..], i), role)
      modifies this`role, this`logged, store, inode
      ensures FsOk(sb, store[..], Emptying(inode[..], i), role)
      ensures forall k :: 0 <= k < inode.Length && k != i ==> inode[k] == old(inode[k])
      ensures forall m :: 0 <= m < NDIRECT ==> inode[i].addrs[m] == 0
      ensures FirstFreed(old(role), role, i, NDIRECT) && SameData(old(store[..]), role, store[..])
      ensures AllLogged(old(store[..]), old(logged), store[..], logged) && LogsBitmap(sb, old(logged), logged)
    {
      var n := 0;
      while n < NDIRECT
        invariant 0 <= n <= NDIRECT && FsOk(sb, store[..], Emptying(inode[..], i), role)
        invariant forall k :: 0 <= k < inode.Length && k != i ==> inode[k] == old(inode[k])
        invariant forall m :: 0 <= m < n ==> inode[i].addrs[m] == 0
        invariant FirstFreed(old(role), role, i, n) && SameData(old(store[..]), role, store[..])
        invariant AllLogged(old(store[..]), old(logged), store[..], logged) && LogsBitmap(sb, old(logged), logged)
      {
        if inode[i].addrs[n] != 0 {
          ghost var r1, s1: seq<Bytes>, v1 := role, store[..], Emptying(inode[..], i);
          FreeDirect(i, n);
          OneMoreDirect(s1, v1, old(role), r1, role, i, n);
        } else {
          NoDirectBlock(store[..], Emptying(inode[..], i), old(role), role, i, n);
        }
        n := n + 1;
      }
    }

    /** itrunc: frees exactly the blocks of file i, and leaves every other file alone. */
    method Itrunc(i: nat)
      requires Valid() && i < inode.Length
      modifies this`role, this`logged, store, inode, dinode
      ensures Valid() && inode[..] == old(inode[..])[i := Inode(0, NoAddrs())] && dinode[..] == old(dinode[..])[i := inode[i]]
      ensures |role| == |old(role)| && forall b :: 0 <= b < |role| ==>
        role[b] == if InFile(old(role[b]), i) then Unused else old(role[b])
      ensures SameData(old(store[..]), role, store[..])
      ensures AllLogged(old(store[..]), old(logged), store[..], logged)
      ensures InodesLogged(sb, old(dinode[..]), dinode[..], logged)
      ensures LogsBitmap(sb, old(logged) + {i / IPB + sb.inodeStart}, logged)
    {
      Emptied(sb, store[..], inode[..], role, i);
      ghost var r0 := role;
      FreeAllDirect(i);
      ghost var r1, s1: seq<Bytes>, v1 := role, store[..], Emptying(inode[..], i);
      if inode[i].addrs[NDIRECT] != 0 {
        FreeIndirect(i);
      } else {
        NoneBelow(s1, v1, role, i);
      }
      inode[i] := inode[i].(size := 0);
      assert inode[i].addrs == NoAddrs();
      assert Emptying(inode[..], i) == inode[..];
      AllFreed(s1, v1, r0, r1, role, i);
      Iupdate(i);
      assert inode[..] == old(inode[..])[i := Inode(0, NoAddrs())];
      DataTwice(old(store[..]), r1, s1, role, store[..]);
    }

    // -------------------------------------------------------------- filewrite

    /** One chunk of filewrite: one log transaction, of at most seven blocks if the bitmap is one block. */
    method WriteOp(i: nat, off: nat, chunk: seq<byte>, limit: nat) returns (r: int)
      requires Valid() && i < inode.Length && off < UINT && 0 < |chunk| <= MAXCHUNK
      modifies this`role, this`logged, store, inode, dinode
      ensures Valid() && RolesGrew(old(role), role, i)
      ensures r < 0 <==> off > old(inode[i].size) || off + |chunk| > MAXFILE * BSIZE
      ensures 0 <= r < |chunk| ==> (limit < |chunk| && limit < r + BSIZE) || DiskFull(role)
      ensures r < 0 ==> Content(store[..], inode[i]) == old(Content(store[..], inode[i]))
      ensures r >= 0 ==>
        (off <= |old(Content(store[..], inode[i]))| && r <= |chunk|
         && Content(store[..], inode[i]) == Splice(old(Content(store[..], inode[i])), off, chunk[..r]))
      ensures OthersSame(old(store[..]), old(inode[..]), store[..], inode[..], i)
      ensures sb.size <= BPB ==> |logged| <= 7
      ensures AllLogged(old(store[..]), {}, store[..], logged) && InodesLogged(sb, old(dinode[..]), dinode[..], logged)
      ensures Synced(old(inode[..]), old(dinode[..]), inode[..], dinode[..])
    {
      logged := {};                       // begin_op
      r := Writei(i, off, chunk, limit);
      if sb.size <= BPB && r >= 0 {
        var iblock := i / IPB + sb.inodeStart;
        assert {} + {iblock} == {iblock};
        SevenBlocks(sb, logged, store[..], inode[i], off, |chunk|, iblock);
      }
    }

    /** The body of filewrite's loop. */
    method FileTurn(i: nat, off: nat, src: seq<byte>, t: nat, limit: nat, ghost s0: seq<Bytes>, ghost n0: seq<Inode>, ghost r0: seq<Role>,
                    ghost off0: nat) returns (n1: nat, r: int)
      requires Valid() && i < inode.Length && off == off0 + t && off < UINT && t < |src|
      requires FileWritten(s0, n0, store[..], inode[..], i, off0, src, t) && RolesGrew(r0, role, i)
      modifies this`role, this`logged, store, inode, dinode
      ensures Valid() && n1 == ChunkLen(|src|, t) && r <= n1 && (r > 0 ==> off + r < UINT) && RolesGrew(r0, role, i)
      ensures r < n1 ==> off0 > n0[i].size || off0 + |src| > MAXFILE * BSIZE || limit < n1 || DiskFull(role)
      ensures FileWritten(s0, n0, store[..], inode[..], i, off0, src, if r > 0 then t + r else t)
      ensures AllLogged(old(store[..]), {}, store[..], logged) && (sb.size <= BPB ==> |logged| <= 7)
      ensures Synced(old(inode[..]), old(dinode[..]), inode[..], dinode[..])
    {
      n1 := if |src| - t > MAXCHUNK then MAXCHUNK else |src| - t;
      assert |Content(store[..], inode[i])| == inode[i].size;
      ghost var s1: seq<Bytes>, v1: seq<Inode>, r1: seq<Role> := store[..], inode[..], role;
      r := WriteOp(i, off, src[t..t + n1], limit);
      GrewTwice(r0, r1, role, i);
      TurnWritten(s0, n0, s1, v1, store[..], inode[..], i, off0, src, t, n1, r);
      if off0 <= n0[i].size {
        assert SizeOk(store[..], inode[..][i]);
      }
    }

    /** filewrite on an inode, the file offset passed in and out: it writes src at off, in chunks, up
        to the first chunk that fails; it returns |src| exactly when all of it is in the file.
        limits says how much of each chunk can be copied in.  It stops short only for an offset beyond the
        end, too large a file, a full disk, or a chunk that could not all be copied in.  txs are the
        blocks its transactions logged, and between[k] the store before the k-th of them. */
    method Filewrite(i: nat, off0: nat, src: seq<byte>, limits: nat -> nat)
      returns (ret: int, off: nat, ghost done: nat, ghost between: seq<seq<Bytes>>, ghost txs: seq<set<nat>>)
      requires Valid() && i < inode.Length && off0 < UINT
      modifies this`role, this`logged, store, inode, dinode
      ensures Valid() && done <= |src| && off == off0 + done && (ret == |src| <==> done == |src|) && (ret != |src| ==> ret == -1)
      ensures FileWritten(old(store[..]), old(inode[..]), store[..], inode[..], i, off0, src, done)
      ensures RolesGrew(old(role), role, i)
      ensures done < |src| ==>
        || off0 > old(inode[i].size) || off0 + |src| > MAXFILE * BSIZE || DiskFull(role)
        || exists t: nat :: t <= done && t < |src| && limits(t) < ChunkLen(|src|, t)
      ensures Transactions(between, txs, old(store[..]), store[..])
      ensures Synced(old(inode[..]), old(dinode[..]), inode[..], dinode[..])
      ensures sb.size <= BPB ==> forall k :: 0 <= k < |txs| ==> |txs[k]| <= 7
    {
      ghost var s0: seq<Bytes>, n0: seq<Inode>, r0: seq<Role> := store[..], inode[..], role;
      if off0 <= n0[i].size { SpliceNothing(Content(s0, n0[i]), off0, src); }
      var t := 0;
      off, done := off0, 0;
      between, txs := [s0], [];
      while t < |src|
        invariant 0 <= t <= |src| && off == off0 + t < UINT && Valid() && done == t
        invariant FileWritten(s0, n0, store[..], inode[..], i, off0, src, t) && RolesGrew(r0, role, i)
        invariant Transactions(between, txs, s0, store[..]) && Synced(n0, old(dinode[..]), inode[..], dinode[..])
        invariant sb.size <= BPB ==> forall k :: 0 <= k < |txs| ==> |txs[k]| <= 7
      {
        var n1, r := FileTurn(i, off, src, t, limits(t), s0, n0, r0, off0);
        OneTransaction(between, txs, s0, store[..], logged);
        between, txs := between + [store[..]], txs + [logged];
        if r > 0 {
          off := off + r;
          done := done + r;
        }
        if r != n1 {
          break;
        }
        t := t + r;
      }
      ret := if t == |src| then |src| else -1;
    }

    /** Calls in any order, on any files: the bitmap goes on marking exactly the metadata and what files
        record. */
    method Calls(calls: seq<Call>)
      requires Valid() && NoneHeld(role)
      requires forall k :: 0 <= k < |calls| ==> calls[k].i < inode.Length && (calls[k].Trunc? || calls[k].off < UINT)
      requires forall k :: 0 <= k < |calls| ==>
        (calls[k].Read? ==> calls[k].n < UINT) && (calls[k].Write? ==> |calls[k].src| < UINT)
      modifies this`role, this`logged, store, inode, dinode
      ensures Valid() && NoneHeld(role) && Synced(old(inode[..]), old(dinode[..]), inode[..], dinode[..])
      ensures forall b: nat :: b < |role| ==>
        (MapBlock(sb, b) < store.Length && (Used(sb, store[..], b) <==> b < sb.meta || Recorded(store[..], inode[..], b)))
    {
      for k := 0 to |calls|
        invariant Valid() && NoneHeld(role) && Synced(old(inode[..]), old(dinode[..]), inode[..], dinode[..])
      {
        DoCall(calls[k]);
      }
      forall b: nat | b < |role|
        ensures MapBlock(sb, b) < store.Length && (Used(sb, store[..], b) <==> b < sb.meta || Recorded(store[..], inode[..], b))
      {
        UsedExactly(sb, store[..], inode[..], role, b);
      }
    }

    method DoCall(c: Call)
      requires Valid() && NoneHeld(role) && c.i < inode.Length && (c.Trunc? || c.off < UINT)
      requires (c.Read? ==> c.n < UINT) && (c.Write? ==> |c.src| < UINT)
      modifies this`role, this`logged, store, inode, dinode
      ensures Valid() && NoneHeld(role) && Synced(old(inode[..]), old(dinode[..]), inode[..], dinode[..])
    {
      ghost var r0 := role;
      match c
      case Read(i, off, n, limit) =>
        var tot, data := Readi(i, off, n, limit);
        assert FsOk(sb, store[..], inode[..], role);
      case Write(i, off, src, limit) =>
        var tot := Writei(i, off, src, limit);
        GrewNoneHeld(r0, role, i);
      case FileWrite(i, off, src, limits) =>
        var ret, end, done, between, txs := Filewrite(i, off, src, limits);
        GrewNoneHeld(r0, role, i);
      case Trunc(i) =>
        Itrunc(i);
    }
  }

  datatype Call =
    | Read(i: nat, off: nat, n: nat, limit: nat)
    | Write(i: nat, off: nat, src: seq<byte>, limit: nat)
    | FileWrite(i: nat, off: nat, src: seq<byte>, limits: nat -> nat)
    | Trunc(i: nat)

  /** How many of n bytes at off are in the block of the first. */
  function ToBlockEnd(off: nat, n: nat): (m: nat)
    ensures m <= n && off % BSIZE + m <= BSIZE && (n > 0 ==> m > 0) && (m == n || (off + m) % BSIZE == 0)
  {
    if n < BSIZE - off % BSIZE then n else BSIZE - off % BSIZE
  }

  /** How much of n bytes filewrite takes in the chunk at t. */
  function ChunkLen(n: nat, t: nat): (m: nat)
    requires t < n
    ensures 0 < m <= MAXCHUNK && t + m <= n
  {
    if n - t > MAXCHUNK then MAXCHUNK else n - t
  }

  lemma GrewTwice(r0: seq<Role>, r1: seq<Role>, r2: seq<Role>, i: nat)
    requires RolesGrew(r0, r1, i) && RolesGrew(r1, r2, i)
    ensures RolesGrew(r0, r2, i)
  {
  }

  /** The first done bytes of src are in file i at off0, and none beyond its end; every other file
      reads as it did. */
  ghost predicate FileWritten(s0: seq<Bytes>, n0: seq<Inode>, s: seq<Bytes>, n: seq<Inode>, i: nat, off0: nat, src: seq<byte>,
                              done: nat) {
    && i < |n0| == |n| && done <= |src| && OthersSame(s0, n0, s, n, i)
    && if off0 <= n0[i].size then Content(s, n[i]) == Splice(Content(s0, n0[i]), off0, src[..done])
       else done == 0 && Content(s, n[i]) == Content(s0, n0[i])
  }

  /** One more chunk, or less of it, or nothing. */
  lemma TurnWritten(s0: seq<Bytes>, n0: seq<Inode>, s1: seq<Bytes>, n1: seq<Inode>, s2: seq<Bytes>, n2: seq<Inode>, i: nat,
                    off0: nat, src: seq<byte>, t: nat, n: nat, r: int)
    requires FileWritten(s0, n0, s1, n1, i, off0, src, t) && OthersSame(s1, n1, s2, n2, i) && t + n <= |src| && r <= n
    requires r < 0 ==> Content(s2, n2[i]) == Content(s1, n1[i])
    requires r >= 0 ==>
      off0 + t <= |Content(s1, n1[i])| && Content(s2, n2[i]) == Splice(Content(s1, n1[i]), off0 + t, src[t..t + n][..r])
    requires off0 > n0[i].size ==> r < 0
    ensures FileWritten(s0, n0, s2, n2, i, off0, src, if r > 0 then t + r else t)
  {
    if off0 <= n0[i].size {
      SpliceRest(Content(s0, n0[i]), off0, src, t, n, if r > 0 then r else 0);
    }
  }

  /** The data of every file is as it was. */
  ghost predicate SameData(store: seq<Bytes>, role: seq<Role>, store': seq<Bytes>) {
    && |store'| == |store| == |role|
    && forall b :: 0 <= b < |role| && role[b].Data? ==> store'[b] == store[b]
  }

  /** What bmap may do: file i gains block bn, and an indirect block if it needs one; every other
      recorded block number, and all data in files, stays. */
  ghost predicate BmapDone(store: seq<Bytes>, inodes: seq<Inode>, role: seq<Role>, store': seq<Bytes>, inodes': seq<Inode>,
                           role': seq<Role>, i: nat, bn: nat)
    requires i < |inodes|
  {
    && SameAddrsBut(store, inodes, store', inodes', i, bn) && SameData(store, role, store') && |role'| == |role|
    && (Addr(store, inodes[i], bn) != 0 ==> Addr(store', inodes'[i], bn) == Addr(store, inodes[i], bn))
    && (inodes[i].addrs[NDIRECT] != 0 ==> inodes'[i].addrs[NDIRECT] == inodes[i].addrs[NDIRECT])
    && inodes'[i].size == inodes[i].size && (forall k :: 0 <= k < |inodes| && k != i ==> inodes'[k] == inodes[k])
    && (forall b :: 0 <= b < |role| ==>
          role'[b] == role[b] || (role[b] == Unused && (role'[b] == Data(i, bn) || role'[b] == Indirect(i))))
  }

  lemma AllocatedAddrs(store: seq<Bytes>, inodes: seq<Inode>, role: seq<Role>, store': seq<Bytes>)
    requires MapOk(store, inodes, role) && SameIndirect(store, role, store')
    ensures forall k: nat, n: nat :: k < |inodes| && n < MAXFILE ==> Addr(store', inodes[k], n) == Addr(store, inodes[k], n)
  {
    forall k: nat, n: nat | k < |inodes| && n < MAXFILE ensures Addr(store', inodes[k], n) == Addr(store, inodes[k], n) {
      SameAddr(store, inodes, role, store', k, n);
    }
  }

  /** Every block that differs now has been logged, and none logged was forgotten. */
  ghost predicate AllLogged(s0: seq<Bytes>, l0: set<nat>, s: seq<Bytes>, l: set<nat>) {
    |s| == |s0| && l0 <= l && forall b :: 0 <= b < |s| && s[b] != s0[b] ==> b in l
  }

  lemma LoggedTwice(s0: seq<Bytes>, l0: set<nat>, s1: seq<Bytes>, l1: set<nat>, s2: seq<Bytes>, l2: set<nat>)
    requires AllLogged(s0, l0, s1, l1) && AllLogged(s1, l1, s2, l2)
    ensures AllLogged(s0, l0, s2, l2)
  {
  }

  /** An inode that agreed with its block still does. */
  ghost predicate Synced(n0: seq<Inode>, d0: seq<Inode>, n: seq<Inode>, d: seq<Inode>) {
    |n| == |n0| == |d0| == |d| && forall k :: 0 <= k < |n| && n0[k] == d0[k] ==> n[k] == d[k]
  }

  /** Every block logged beyond before is a bitmap block. */
  ghost predicate LogsBitmap(sb: Super, before: set<nat>, after: set<nat>) {
    before <= after && forall x :: x in after ==> x in before || IsMapBlock(sb, x)
  }

  /** So a truncation logs at most two blocks when the bitmap is one block. */
  lemma TwoBlocks(sb: Super, after: set<nat>, iblock: nat)
    requires sb.size <= BPB && LogsBitmap(sb, {iblock}, after)
    ensures |after| <= 2
  {
    forall x | x in after ensures x in {iblock} + {sb.bmapStart} {
      assert x == iblock || IsMapBlock(sb, x);
    }
    CardSum({iblock}, {sb.bmapStart});
    SubsetCard(after, {iblock} + {sb.bmapStart});
  }

  /** From s0 to s by transactions, each of which logs whatever it changes. */
  ghost predicate Transactions(between: seq<seq<Bytes>>, txs: seq<set<nat>>, s0: seq<Bytes>, s: seq<Bytes>) {
    && |between| == |txs| + 1 && between[0] == s0 && between[|txs|] == s
    && forall k {:trigger txs[k]} :: 0 <= k < |txs| ==> AllLogged(between[k], {}, between[k + 1], txs[k])
  }

  lemma OneTransaction(between: seq<seq<Bytes>>, txs: seq<set<nat>>, s0: seq<Bytes>, s: seq<Bytes>, tx: set<nat>)
    requires |between| == |txs| + 1 && Transactions(between, txs, s0, between[|txs|])
    requires AllLogged(between[|txs|], {}, s, tx)
    ensures Transactions(between + [s], txs + [tx], s0, s)
  {
  }

  /** The block of every inode that differs now has been logged. */
  ghost predicate InodesLogged(sb: Super, d0: seq<Inode>, d: seq<Inode>, l: set<nat>) {
    |d| == |d0| && forall k :: 0 <= k < |d| && d[k] != d0[k] ==> k / IPB + sb.inodeStart in l
  }

  lemma MapBlockIs(sb: Super, b: nat)
    requires b < sb.size
    ensures IsMapBlock(sb, MapBlock(sb, b))
  {
  }

  lemma DoneTwice(store: seq<Bytes>, inodes: seq<Inode>, role: seq<Role>, s1: seq<Bytes>, n1: seq<Inode>, r1: seq<Role>,
                  s2: seq<Bytes>, n2: seq<Inode>, r2: seq<Role>, i: nat, bn: nat)
    requires i < |inodes| && |n1| == |inodes|
    requires BmapDone(store, inodes, role, s1, n1, r1, i, bn) && BmapDone(s1, n1, r1, s2, n2, r2, i, bn)
    ensures BmapDone(store, inodes, role, s2, n2, r2, i, bn)
  {
    forall k: nat, n: nat | k < |inodes| && n < MAXFILE && (k != i || n != bn)
      ensures Addr(s2, n2[k], n) == Addr(store, inodes[k], n)
    {
      assert Addr(s1, n1[k], n) == Addr(store, inodes[k], n);
    }
  }

  lemma SliceJoin(c: seq<byte>, from: nat, mid: nat, m: nat)
    requires from <= mid && mid + m <= |c|
    ensures c[from..mid] + c[mid..mid + m] == c[from..mid + m]
  {
  }

  lemma WithinBlock(off: nat, k: nat)
    requires off % BSIZE + k < BSIZE
    ensures (off + k) / BSIZE == off / BSIZE && (off + k) % BSIZE == off % BSIZE + k
  {
  }

  /** A slice of a file within one block. */
  lemma SliceBytes(store: seq<Bytes>, ino: Inode, off: nat, m: nat, a: nat)
    requires off + m <= ino.size && off % BSIZE + m <= BSIZE && a == Addr(store, ino, off / BSIZE) && 0 < a < |store|
    ensures Content(store, ino)[off..off + m] == store[a][off % BSIZE..off % BSIZE + m]
  {
    var whole, part := Content(store, ino)[off..off + m], store[a][off % BSIZE..off % BSIZE + m];
    forall k | 0 <= k < m ensures whole[k] == part[k] {
      WithinBlock(off, k);
    }
  }

  /** Every file but i is recorded and holds what it did. */
  ghost predicate OthersKept(store: seq<Bytes>, inodes: seq<Inode>, role: seq<Role>, store': seq<Bytes>, inodes': seq<Inode>,
                             i: nat) {
    && |inodes'| == |inodes| && |store'| == |store| == |role|
    && (forall k :: 0 <= k < |inodes| && k != i ==> inodes'[k] == inodes[k])
    && (forall k: nat, n: nat {:trigger Addr(store', inodes[k], n)} :: k < |inodes| && k != i && n < MAXFILE ==>
          Addr(store', inodes[k], n) == Addr(store, inodes[k], n))
    && (forall b :: 0 <= b < |role| && role[b].Data? && role[b].i != i ==> store'[b] == store[b])
  }

  /** Block numbers once recorded stay. */
  ghost predicate KeepsAddrs(store: seq<Bytes>, ino: Inode, store': seq<Bytes>, ino': Inode) {
    && (ino.addrs[NDIRECT] != 0 ==> ino'.addrs[NDIRECT] == ino.addrs[NDIRECT])
    && forall n: nat {:trigger Addr(store, ino, n)} {:trigger Addr(store', ino', n)} :: n < MAXFILE && Addr(store, ino, n) != 0 ==>
         Addr(store', ino', n) == Addr(store, ino, n)
  }

  lemma BmapFile(sb: Super, store: seq<Bytes>, inodes: seq<Inode>, role: seq<Role>, store': seq<Bytes>, inodes': seq<Inode>,
                 role': seq<Role>, i: nat, bn: nat, f: seq<byte>)
    requires FsOk(sb, store, inodes, role) && i < |inodes| && BmapDone(store, inodes, role, store', inodes', role', i, bn)
    requires Holds(store, inodes[i], f) && |store'| == |store|
    ensures Holds(store', inodes'[i], f) && KeepsAddrs(store, inodes[i], store', inodes'[i])
    ensures OthersKept(store, inodes, role, store', inodes', i)
  {
    var ino, ino' := inodes[i], inodes'[i];
    forall n: nat | n < MAXFILE && 0 < Addr(store, ino, n) < |store|
      ensures store'[Addr(store, ino, n)] == store[Addr(store, ino, n)]
    {
      assert SlotOk(store, inodes, role, i, n);
    }
    MappedHolds(store, ino, store', ino', bn, f);
    forall k: nat, n: nat | k < |inodes| && k != i && n < MAXFILE ensures Addr(store', inodes[k], n) == Addr(store, inodes[k], n) {
      assert Addr(store', inodes'[k], n) == Addr(store, inodes[k], n);
    }
  }

  lemma PatchFile(sb: Super, store: seq<Bytes>, inodes: seq<Inode>, role: seq<Role>, store': seq<Bytes>, i: nat, off: nat,
                  w: seq<byte>, f: seq<byte>)
    requires FsOk(sb, store, inodes, role) && i < |inodes| && Holds(store, inodes[i], f)
    requires off <= |f| && off % BSIZE + |w| <= BSIZE && off + |w| <= MAXFILE * BSIZE
    requires 0 < Addr(store, inodes[i], off / BSIZE) < |store| && SameIndirect(store, role, store')
    requires var a := Addr(store, inodes[i], off / BSIZE); store' == store[a := Patch(store[a], off % BSIZE, w)]
    ensures Holds(store', inodes[i], Splice(f, off, w))
    ensures KeepsAddrs(store, inodes[i], store', inodes[i])
  {
    var ino := inodes[i];
    forall n: nat | n < MAXFILE ensures Addr(store', ino, n) == Addr(store, ino, n) {
      SameAddr(store, inodes, role, store', i, n);
    }
    forall n: nat | n < MAXFILE && n != off / BSIZE ensures Addr(store, ino, n) != Addr(store, ino, off / BSIZE) {
      if Addr(store, ino, n) == Addr(store, ino, off / BSIZE) {
        BlocksDistinct(sb, store, inodes, role, i, n, i, off / BSIZE);
      }
    }
    ChunkHolds(store, ino, f, off, w, store');
  }

  lemma PatchOthers(s0: seq<Bytes>, n0: seq<Inode>, r0: seq<Role>, s1: seq<Bytes>, n1: seq<Inode>, r1: seq<Role>,
                    s2: seq<Bytes>, i: nat, bn: nat, a: nat)
    requires OthersKept(s0, n0, r0, s1, n1, i) && MapOk(s1, n1, r1) && SameIndirect(s1, r1, s2)
    requires a < |s1| && r1[a] == Data(i, bn) && forall b :: 0 <= b < |s1| && b != a ==> s2[b] == s1[b]
    requires |r0| == |r1| && forall b :: 0 <= b < |r0| && r0[b].Data? ==> r1[b] == r0[b]
    ensures OthersKept(s0, n0, r0, s2, n1, i)
  {
    forall k: nat, n: nat | k < |n0| && k != i && n < MAXFILE ensures Addr(s2, n0[k], n) == Addr(s0, n0[k], n) {
      SameAddr(s1, n1, r1, s2, k, n);
      assert Addr(s1, n0[k], n) == Addr(s0, n0[k], n);
    }
  }

  /** Every other file reads as it did. */
  ghost predicate OthersSame(s0: seq<Bytes>, n0: seq<Inode>, s: seq<Bytes>, n: seq<Inode>, i: nat) {
    && |n| == |n0|
    && forall k {:trigger n[k]} :: 0 <= k < |n| && k != i ==> n[k] == n0[k] && Content(s, n[k]) == Content(s0, n0[k])
  }

  /** Blocks in use keep their roles, and others are unused still or file i's. */
  ghost predicate RolesGrew(role: seq<Role>, role': seq<Role>, i: nat) {
    && |role'| == |role|
    && forall b :: 0 <= b < |role| ==> role'[b] == role[b] || (role[b] == Unused && InFile(role'[b], i))
  }

  lemma DoneGrew(store: seq<Bytes>, inodes: seq<Inode>, role: seq<Role>, store': seq<Bytes>, inodes': seq<Inode>,
                 role': seq<Role>, i: nat, bn: nat)
    requires i < |inodes| && BmapDone(store, inodes, role, store', inodes', role', i, bn)
    ensures RolesGrew(role, role', i)
  {
  }

  /** No block is marked used and in no file. */
  ghost predicate NoneHeld(role: seq<Role>) {
    forall b :: 0 <= b < |role| ==> role[b] != Held
  }

  lemma GrewNoneHeld(role: seq<Role>, role': seq<Role>, i: nat)
    requires RolesGrew(role, role', i) && NoneHeld(role)
    ensures NoneHeld(role')
  {
  }

  ghost predicate DiskFull(role: seq<Role>) {
    forall b :: 0 <= b < |role| ==> role[b] != Unused
  }

  /** Some file records block b. */
  ghost predicate Recorded(store: seq<Bytes>, inodes: seq<Inode>, b: nat) {
    b != 0 && exists i: nat :: i < |inodes| && Records(store, inodes[i], b)
  }

  ghost predicate Records(store: seq<Bytes>, ino: Inode, b: nat) {
    ino.addrs[NDIRECT] == b || exists n: nat :: n < MAXFILE && Addr(store, ino, n) == b
  }

  /** Exact ownership: the bitmap says used of the metadata and of what files record, and of no other block. */
  lemma UsedExactly(sb: Super, store: seq<Bytes>, inodes: seq<Inode>, role: seq<Role>, b: nat)
    requires FsOk(sb, store, inodes, role) && NoneHeld(role) && b < |role|
    ensures MapBlock(sb, b) < |store|
    ensures Used(sb, store, b) <==> b < sb.meta || Recorded(store, inodes, b)
  {
    assert BitmapOk(sb, store, role, b) && BlockOk(store, inodes, role, b);
    if Recorded(store, inodes, b) {
      var i: nat :| i < |inodes| && Records(store, inodes[i], b);
      assert IndirectOk(inodes, role, i);
      if n: nat :| n < MAXFILE && Addr(store, inodes[i], n) == b { assert SlotOk(store, inodes, role, i, n); }
    }
    if role[b].Data? || role[b].Indirect? {
      assert Records(store, inodes[role[b].i], b);
    }
  }

  lemma OthersTwice(s0: seq<Bytes>, n0: seq<Inode>, r0: seq<Role>, s1: seq<Bytes>, n1: seq<Inode>, r1: seq<Role>,
                    s2: seq<Bytes>, n2: seq<Inode>, i: nat)
    requires OthersKept(s0, n0, r0, s1, n1, i) && OthersKept(s1, n1, r1, s2, n2, i) && RolesGrew(r0, r1, i)
    ensures OthersKept(s0, n0, r0, s2, n2, i)
  {
    forall k: nat, n: nat | k < |n0| && k != i && n < MAXFILE ensures Addr(s2, n0[k], n) == Addr(s0, n0[k], n) {
      assert Addr(s2, n1[k], n) == Addr(s1, n1[k], n) && Addr(s1, n0[k], n) == Addr(s0, n0[k], n);
    }
  }

  lemma OthersContent(sb: Super, s0: seq<Bytes>, n0: seq<Inode>, r0: seq<Role>, s1: seq<Bytes>, n1: seq<Inode>, i: nat)
    requires FsOk(sb, s0, n0, r0) && OthersKept(s0, n0, r0, s1, n1, i)
    ensures OthersSame(s0, n0, s1, n1, i)
  {
    forall k | 0 <= k < |n0| && k != i ensures Content(s1, n1[k]) == Content(s0, n0[k]) {
      var ino := n0[k];
      assert SizeOk(s0, ino);
      forall n: nat | n * BSIZE < ino.size
        ensures Addr(s1, ino, n) == Addr(s0, ino, n) && Addr(s0, ino, n) < |s0| && s1[Addr(s0, ino, n)] == s0[Addr(s0, ino, n)]
      {
        assert SlotOk(s0, n0, r0, k, n);
        assert Addr(s1, n0[k], n) == Addr(s0, n0[k], n);
      }
      SameFileSameContent(s0, ino, s1, ino);
    }
  }

  lemma InRange(off0: nat, off: nat, n: nat)
    requires off0 <= off < off0 + n
    ensures off0 / BSIZE <= off / BSIZE <= (off0 + n - 1) / BSIZE
  {
  }

  /** writei has put the first tot bytes of src into file i and touched nothing else. */
  ghost predicate Written(sb: Super, s0: seq<Bytes>, n0: seq<Inode>, r0: seq<Role>, l0: set<nat>, s: seq<Bytes>, n: seq<Inode>,
                          r: seq<Role>, l: set<nat>, i: nat, off0: nat, src: seq<byte>, tot: nat) {
    && i < |n0| == |n| && n[i].size == n0[i].size && off0 <= n0[i].size && tot <= |src|
    && Holds(s, n[i], Splice(Content(s0, n0[i]), off0, src[..tot]))
    && OthersKept(s0, n0, r0, s, n, i) && RolesGrew(r0, r, i) && AllLogged(s0, l0, s, l)
    && (src != [] ==> LogsOnly(sb, l0, l, s, n[i], off0 / BSIZE, (off0 + |src| - 1) / BSIZE))
    && (src == [] ==> l == l0)
  }

  lemma WrittenNothing(sb: Super, s0: seq<Bytes>, n0: seq<Inode>, r0: seq<Role>, l0: set<nat>, i: nat, off0: nat, src: seq<byte>)
    requires FsOk(sb, s0, n0, r0) && i < |n0| && off0 <= n0[i].size
    ensures Written(sb, s0, n0, r0, l0, s0, n0, r0, l0, i, off0, src, 0)
  {
    HoldsContent(sb, s0, n0, r0, i);
    SpliceNothing(Content(s0, n0[i]), off0, src);
  }

  lemma WrittenMore(sb: Super, s0: seq<Bytes>, n0: seq<Inode>, r0: seq<Role>, l0: set<nat>, s1: seq<Bytes>, n1: seq<Inode>,
                    r1: seq<Role>, l1: set<nat>, s2: seq<Bytes>, n2: seq<Inode>, r2: seq<Role>, l2: set<nat>,
                    i: nat, off0: nat, src: seq<byte>, tot: nat, m: nat, ok: bool)
    requires Written(sb, s0, n0, r0, l0, s1, n1, r1, l1, i, off0, src, tot) && tot + m <= |src| && 0 < m
    requires |n2| == |n1| && n2[i].size == n1[i].size && OthersKept(s1, n1, r1, s2, n2, i) && RolesGrew(r1, r2, i)
    requires var f := Splice(Content(s0, n0[i]), off0, src[..tot]);
      Holds(s2, n2[i], if ok then Splice(f, off0 + tot, src[tot..tot + m]) else f)
    requires LogsOnly(sb, l1, l2, s2, n2[i], (off0 + tot) / BSIZE, (off0 + tot) / BSIZE)
    requires KeepsAddrs(s1, n1[i], s2, n2[i]) && off0 + |src| <= MAXFILE * BSIZE && AllLogged(s1, l1, s2, l2)
    ensures Written(sb, s0, n0, r0, l0, s2, n2, r2, l2, i, off0, src, if ok then tot + m else tot)
  {
    OthersTwice(s0, n0, r0, s1, n1, r1, s2, n2, i);
    LoggedTwice(s0, l0, s1, l1, s2, l2);
    SpliceMore(Content(s0, n0[i]), off0, src, tot, m);
    InRange(off0, off0 + tot, |src|);
    forall n: nat | off0 / BSIZE <= n <= (off0 + |src| - 1) / BSIZE && Addr(s1, n1[i], n) != 0
      ensures Addr(s2, n2[i], n) == Addr(s1, n1[i], n)
    {
      assert n < MAXFILE;
    }
    LogsMore(sb, l0, l1, s1, n1[i], off0 / BSIZE, (off0 + |src| - 1) / BSIZE, l2, s2, n2[i], (off0 + tot) / BSIZE);
  }

  lemma LogsInode(sb: Super, l0: set<nat>, l1: set<nat>, s: seq<Bytes>, ino: Inode, ino': Inode, off: nat, n: nat, iblock: nat)
    requires n > 0 ==> LogsOnly(sb, l0, l1, s, ino, off / BSIZE, (off + n - 1) / BSIZE)
    requires ino'.addrs == ino.addrs
    ensures n > 0 ==> LogsOnly(sb, l0 + {iblock}, l1 + {iblock}, s, ino', off / BSIZE, (off + n - 1) / BSIZE)
  {
    if n > 0 {
      var first, last := off / BSIZE, (off + n - 1) / BSIZE;
      forall x | x in l1 && x !in l0 ensures LogsFor(sb, x, s, ino', first, last) {
        assert LogsFor(sb, x, s, ino, first, last);
        if k :| first <= k <= last && x == Addr(s, ino, k) && x != 0 {
          assert Addr(s, ino', k) == x;
        }
      }
    }
  }

  // ---------------------------------------------------------------- itrunc, block by block

  function NoAddrs(): Addrs {
    seq(13, _ => 0)
  }

  /** The inodes with file i already counted as empty. */
  function Emptying(inodes: seq<Inode>, i: nat): seq<Inode>
    requires i < |inodes|
  {
    inodes[i := inodes[i].(size := 0)]
  }

  predicate InFile(r: Role, i: nat) {
    (r.Data? || r.Indirect?) && r.i == i
  }

  /** The first n direct blocks of file i are unused now, nothing else has changed. */
  ghost predicate FirstFreed(r0: seq<Role>, r: seq<Role>, i: nat, n: nat) {
    && |r| == |r0|
    && forall b :: 0 <= b < |r| ==> r[b] == if r0[b].Data? && r0[b].i == i && r0[b].n < n then Unused else r0[b]
  }

  lemma OneMoreDirect(s: seq<Bytes>, v: seq<Inode>, r0: seq<Role>, r1: seq<Role>, r2: seq<Role>, i: nat, n: nat)
    requires i < |v| && n < NDIRECT && MapOk(s, v, r1) && FirstFreed(r0, r1, i, n)
    requires v[i].addrs[n] < |r1| && r2 == r1[v[i].addrs[n] := Unused] && r1[v[i].addrs[n]] == Data(i, n)
    ensures FirstFreed(r0, r2, i, n + 1)
  {
    forall b | 0 <= b < |r1| && r1[b] == Data(i, n) ensures b == v[i].addrs[n] {
      assert BlockOk(s, v, r1, b);
    }
  }

  lemma NoDirectBlock(s: seq<Bytes>, v: seq<Inode>, r0: seq<Role>, r: seq<Role>, i: nat, n: nat)
    requires i < |v| && n < NDIRECT && MapOk(s, v, r) && FirstFreed(r0, r, i, n) && v[i].addrs[n] == 0
    ensures FirstFreed(r0, r, i, n + 1)
  {
    forall b | 0 <= b < |r| ensures r[b] != Data(i, n) {
      assert BlockOk(s, v, r, b);
    }
  }

  /** Of what was below the indirect block, the first j blocks are unused; the rest is held, or, when
      held is false, unused too. */
  ghost predicate BelowFreed(r0: seq<Role>, r: seq<Role>, i: nat, j: nat, held: bool) {
    && |r| == |r0|
    && forall b :: 0 <= b < |r| ==>
         r[b] == if !Below(r0[b], i) then r0[b]
                 else if held && !(r0[b].Data? && r0[b].n < NDIRECT + j) then Held
                 else Unused
  }

  function Detach(role: seq<Role>, i: nat): (r: seq<Role>)
    ensures Detached(role, r, i)
  {
    seq(|role|, b requires 0 <= b < |role| => if Below(role[b], i) then Held else role[b])
  }

  lemma OneMoreFreed(s: seq<Bytes>, v: seq<Inode>, r0: seq<Role>, r1: seq<Role>, r2: seq<Role>, i: nat, j: nat, a: nat)
    requires i < |v| && j < NINDIRECT && MapOk(s, v, r0) && BelowFreed(r0, r1, i, j, true)
    requires a < |r1| && r0[a] == Data(i, NDIRECT + j) && r2 == r1[a := Unused]
    ensures BelowFreed(r0, r2, i, j + 1, true)
  {
    forall b | 0 <= b < |r0| && r0[b] == Data(i, NDIRECT + j) ensures b == a {
      assert BlockOk(s, v, r0, b) && BlockOk(s, v, r0, a);
    }
  }

  lemma NoSuchBlock(s: seq<Bytes>, v: seq<Inode>, r0: seq<Role>, r: seq<Role>, i: nat, j: nat)
    requires i < |v| && j < NINDIRECT && MapOk(s, v, r0) && BelowFreed(r0, r, i, j, true)
    requires Addr(s, v[i], NDIRECT + j) == 0
    ensures BelowFreed(r0, r, i, j + 1, true)
  {
    forall b | 0 <= b < |r0| ensures r0[b] != Data(i, NDIRECT + j) {
      assert BlockOk(s, v, r0, b);
    }
  }

  lemma IndirectFreed(s: seq<Bytes>, v: seq<Inode>, r0: seq<Role>, r1: seq<Role>, r2: seq<Role>, i: nat, ind: nat)
    requires i < |v| && MapOk(s, v, r0) && BelowFreed(r0, r1, i, NINDIRECT, true)
    requires ind < |r1| && r0[ind] == Indirect(i) && r2 == r1[ind := Unused]
    ensures BelowFreed(r0, r2, i, MAXFILE - NDIRECT, false)
  {
    forall b | 0 <= b < |r0| && Below(r0[b], i) ensures b == ind || (r0[b].Data? && r0[b].n < MAXFILE) {
      assert BlockOk(s, v, r0, b) && BlockOk(s, v, r0, ind);
    }
  }

  lemma NoneBelow(s: seq<Bytes>, v: seq<Inode>, r: seq<Role>, i: nat)
    requires i < |v| && MapOk(s, v, r) && v[i].addrs[NDIRECT] == 0
    ensures forall b :: 0 <= b < |r| ==> !Below(r[b], i)
  {
    forall b | 0 <= b < |r| ensures !Below(r[b], i) {
      assert BlockOk(s, v, r, b);
    }
  }

  lemma DataTwice(s0: seq<Bytes>, r1: seq<Role>, s1: seq<Bytes>, r2: seq<Role>, s2: seq<Bytes>)
    requires SameData(s0, r1, s1) && SameData(s1, r2, s2)
    requires forall b :: 0 <= b < |r2| && r2[b].Data? ==> r1[b] == r2[b]
    ensures SameData(s0, r2, s2)
  {
  }

  lemma AllFreed(s: seq<Bytes>, v: seq<Inode>, r0: seq<Role>, r1: seq<Role>, r2: seq<Role>, i: nat)
    requires FirstFreed(r0, r1, i, NDIRECT)
    requires BelowFreed(r1, r2, i, MAXFILE - NDIRECT, false) || (r2 == r1 && forall b :: 0 <= b < |r1| ==> !Below(r1[b], i))
    ensures |r2| == |r0| && forall b :: 0 <= b < |r2| ==> r2[b] == if InFile(r0[b], i) then Unused else r0[b]
  {
  }
}

/** Reading and writing a file block by block, against the file as one byte sequence. */
module FileData {
  import opened FileBlocks
  import opened FileMap
  import opened FileSteps

  /** Bytes [at, at + |w|) replaced by w. */
  function Patch(b: Bytes, at: nat, w: seq<byte>): (r: Bytes)
    requires at + |w| <= BSIZE
    ensures forall k :: 0 <= k < BSIZE ==> r[k] == if at <= k < at + |w| then w[k - at] else b[k]
  {
    b[..at] + w + b[at + |w|..]
  }

  /** w written over s at off, extending it if it reaches beyond the end. */
  function Splice(s: seq<byte>, off: nat, w: seq<byte>): (r: seq<byte>)
    requires off <= |s|
    ensures |r| == if off + |w| < |s| then |s| else off + |w|
    ensures forall k :: 0 <= k < |r| ==> r[k] == if off <= k < off + |w| then w[k - off] else s[k]
  {
    s[..off] + w + (if off + |w| < |s| then s[off + |w|..] else [])
  }

  lemma SpliceMore(s: seq<byte>, off: nat, src: seq<byte>, t: nat, m: nat)
    requires off <= |s| && t + m <= |src|
    ensures Splice(Splice(s, off, src[..t]), off + t, src[t..t + m]) == Splice(s, off, src[..t + m])
  {
  }

  lemma SpliceRest(s: seq<byte>, off: nat, src: seq<byte>, t: nat, n: nat, r: nat)
    requires off <= |s| && t + n <= |src| && r <= n
    ensures Splice(Splice(s, off, src[..t]), off + t, src[t..t + n][..r]) == Splice(s, off, src[..t + r])
    ensures r == 0 ==> Splice(s, off, src[..t + r]) == Splice(s, off, src[..t])
  {
    assert src[t..t + n][..r] == src[t..t + r];
    SpliceMore(s, off, src, t, r);
  }

  lemma SpliceNothing(s: seq<byte>, off: nat, src: seq<byte>)
    requires off <= |s|
    ensures Splice(s, off, src[..0]) == s
  {
  }

  /** The first |f| bytes of a file are f, and none of them is in a hole. */
  ghost predicate Holds(store: seq<Bytes>, ino: Inode, f: seq<byte>) {
    && |f| <= MAXFILE * BSIZE
    && (forall n: nat {:trigger Addr(store, ino, n)} :: n * BSIZE < |f| ==> 0 < Addr(store, ino, n) < |store|)
    && (forall k: nat {:trigger FileByte(store, ino, k)} {:trigger f[k]} :: k < |f| ==> FileByte(store, ino, k) == f[k])
  }

  lemma HoldsContent(sb: Super, store: seq<Bytes>, inodes: seq<Inode>, role: seq<Role>, i: nat)
    requires FsOk(sb, store, inodes, role) && i < |inodes|
    ensures Holds(store, inodes[i], Content(store, inodes[i]))
  {
    assert SizeOk(store, inodes[i]);
    var ino := inodes[i];
    forall n: nat | n * BSIZE < ino.size ensures 0 < Addr(store, ino, n) < |store| {
      assert SlotOk(store, inodes, role, i, n);
    }
  }

  lemma ContentHolds(store: seq<Bytes>, ino: Inode, f: seq<byte>, size: nat)
    requires Holds(store, ino, f) && size == |f|
    ensures Content(store, ino.(size := size)) == f
  {
    forall k: nat | k < size ensures FileByte(store, ino.(size := size), k) == f[k] {
      assert FileByte(store, ino.(size := size), k) == FileByte(store, ino, k);
    }
  }

  /** bmap leaves what a file holds as it is. */
  lemma MappedHolds(store: seq<Bytes>, ino: Inode, store': seq<Bytes>, ino': Inode, bn: nat, f: seq<byte>)
    requires Holds(store, ino, f) && |store'| == |store|
    requires forall n: nat {:trigger Addr(store', ino', n)} :: n < MAXFILE && n != bn ==> Addr(store', ino', n) == Addr(store, ino, n)
    requires Addr(store, ino, bn) != 0 ==> Addr(store', ino', bn) == Addr(store, ino, bn)
    requires forall n: nat {:trigger Addr(store, ino, n)} :: n < MAXFILE && 0 < Addr(store, ino, n) < |store| ==>
      store'[Addr(store, ino, n)] == store[Addr(store, ino, n)]
    ensures Holds(store', ino', f)
  {
    forall n: nat | n * BSIZE < |f| ensures Addr(store', ino', n) == Addr(store, ino, n) && 0 < Addr(store, ino, n) < |store| {
    }
    forall k: nat | k < |f| ensures FileByte(store', ino', k) == f[k] {
      var n := k / BSIZE;
      assert n * BSIZE < |f| && Addr(store', ino', n) == Addr(store, ino, n);
      assert FileByte(store, ino, k) == f[k];
    }
  }

  /** One turn of writei's loop: a chunk within one block. */
  lemma ChunkHolds(store: seq<Bytes>, ino: Inode, f: seq<byte>, off: nat, w: seq<byte>, store': seq<Bytes>)
    requires Holds(store, ino, f) && off <= |f| && off % BSIZE + |w| <= BSIZE && off + |w| <= MAXFILE * BSIZE
    requires 0 < Addr(store, ino, off / BSIZE) < |store|
    requires var a := Addr(store, ino, off / BSIZE); store' == store[a := Patch(store[a], off % BSIZE, w)]
    requires forall n: nat {:trigger Addr(store', ino, n)} :: n < MAXFILE ==> Addr(store', ino, n) == Addr(store, ino, n)
    requires forall n: nat {:trigger Addr(store, ino, n)} :: n < MAXFILE && n != off / BSIZE ==>
      Addr(store, ino, n) != Addr(store, ino, off / BSIZE)
    ensures Holds(store', ino, Splice(f, off, w))
  {
    var g, bn := Splice(f, off, w), off / BSIZE;
    forall n: nat | n * BSIZE < |g| ensures 0 < Addr(store', ino, n) < |store'| {
      assert Addr(store', ino, n) == Addr(store, ino, n);
      assert n * BSIZE < |f| || n == bn;
    }
    forall k: nat | k < |g| ensures FileByte(store', ino, k) == g[k] {
      ChunkByte(store, ino, f, off, w, store', k);
    }
  }

  lemma ChunkByte(store: seq<Bytes>, ino: Inode, f: seq<byte>, off: nat, w: seq<byte>, store': seq<Bytes>, k: nat)
    requires Holds(store, ino, f) && off <= |f| && off % BSIZE + |w| <= BSIZE && off + |w| <= MAXFILE * BSIZE
    requires 0 < Addr(store, ino, off / BSIZE) < |store|
    requires var a := Addr(store, ino, off / BSIZE); store' == store[a := Patch(store[a], off % BSIZE, w)]
    requires k < |Splice(f, off, w)| && Addr(store', ino, k / BSIZE) == Addr(store, ino, k / BSIZE)
    requires k / BSIZE != off / BSIZE ==> Addr(store, ino, k / BSIZE) != Addr(store, ino, off / BSIZE)
    ensures FileByte(store', ino, k) == Splice(f, off, w)[k]
  {
    var n, bn := k / BSIZE, off / BSIZE;
    assert k == n * BSIZE + k % BSIZE && off == bn * BSIZE + off % BSIZE;
    if off <= k < off + |w| {
      assert n == bn;
    } else {
      assert FileByte(store, ino, k) == f[k];
      assert n * BSIZE < |f| && 0 < Addr(store, ino, n) < |store|;
    }
  }

  // ---------------------------------------------------------------- how many blocks one write logs

  predicate IsMapBlock(sb: Super, x: nat) {
    sb.bmapStart <= x && (x - sb.bmapStart) * BPB < sb.size
  }

  /** Every block logged beyond before is the indirect block, a bitmap block, or one of the file's
      blocks first to last. */
  ghost predicate LogsOnly(sb: Super, before: set<nat>, after: set<nat>, store: seq<Bytes>, ino: Inode, first: nat, last: nat) {
    before <= after && forall x :: x in after ==> x in before || LogsFor(sb, x, store, ino, first, last)
  }

  ghost predicate LogsFor(sb: Super, x: nat, store: seq<Bytes>, ino: Inode, first: nat, last: nat) {
    || IsMapBlock(sb, x)
    || (x != 0 && x == ino.addrs[NDIRECT])
    || (x != 0 && exists n {:trigger Addr(store, ino, n)} :: first <= n <= last && x == Addr(store, ino, n))
  }

  /** Block numbers once recorded stay, so what was logged for them still is. */
  lemma LogsMore(sb: Super, l0: set<nat>, l1: set<nat>, s1: seq<Bytes>, ino1: Inode, first: nat, last: nat,
                 l2: set<nat>, s2: seq<Bytes>, ino2: Inode, bn: nat)
    requires LogsOnly(sb, l0, l1, s1, ino1, first, last) && LogsOnly(sb, l1, l2, s2, ino2, bn, bn) && first <= bn <= last
    requires ino1.addrs[NDIRECT] != 0 ==> ino2.addrs[NDIRECT] == ino1.addrs[NDIRECT]
    requires forall n: nat {:trigger Addr(s1, ino1, n)} :: first <= n <= last && Addr(s1, ino1, n) != 0 ==>
      Addr(s2, ino2, n) == Addr(s1, ino1, n)
    ensures LogsOnly(sb, l0, l2, s2, ino2, first, last)
  {
    forall x | x in l2 && x !in l0 ensures LogsFor(sb, x, s2, ino2, first, last) {
      if x in l1 {
        assert LogsFor(sb, x, s1, ino1, first, last);
        if n :| first <= n <= last && x == Addr(s1, ino1, n) && x != 0 {
          assert Addr(s2, ino2, n) == x;
        }
      } else {
        assert LogsFor(sb, x, s2, ino2, bn, bn);
      }
    }
  }

  lemma CardSum(a: set<nat>, b: set<nat>)
    ensures |a + b| <= |a| + |b|
  {
    assert |a + b| == |a| + |b| - |a * b|;
  }

  /** A chunk of filewrite, at most three blocks long, logs at most seven blocks when the bitmap is
      one block: the inode's, the indirect one, the bitmap, and four of data. */
  lemma SevenBlocks(sb: Super, after: set<nat>, store: seq<Bytes>, ino: Inode, off: nat, n: nat, iblock: nat)
    requires 0 < n <= 3 * BSIZE && sb.size <= BPB
    requires LogsOnly(sb, {iblock}, after, store, ino, off / BSIZE, (off + n - 1) / BSIZE)
    ensures |after| <= 7
  {
    var f := off / BSIZE;
    assert (off + n - 1) / BSIZE <= f + 3;
    var data := {Addr(store, ino, f), Addr(store, ino, f + 1), Addr(store, ino, f + 2), Addr(store, ino, f + 3)};
    var rest := {iblock, ino.addrs[NDIRECT], sb.bmapStart};
    forall x | x in after ensures x in data + rest {
      assert x == iblock || LogsFor(sb, x, store, ino, f, (off + n - 1) / BSIZE);
    }
    CardSum(data, rest);
    assert |rest| <= 3 && |data| <= 4 by {
      CardSum({iblock}, {ino.addrs[NDIRECT]});
      CardSum({iblock} + {ino.addrs[NDIRECT]}, {sb.bmapStart});
      assert rest == {iblock} + {ino.addrs[NDIRECT]} + {sb.bmapStart};
      var a, b, c, d := Addr(store, ino, f), Addr(store, ino, f + 1), Addr(store, ino, f + 2), Addr(store, ino, f + 3);
      CardSum({a}, {b});
      CardSum({a} + {b}, {c});
      CardSum({a} + {b} + {c}, {d});
      assert data == {a} + {b} + {c} + {d};
    }
    SubsetCard(after, data + rest);
  }

  lemma SubsetCard(a: set<nat>, b: set<nat>)
    requires a <= b
    ensures |a| <= |b|
  {
    assert b == a + (b - a);
    assert |b| == |a| + |b - a|;
  }
}

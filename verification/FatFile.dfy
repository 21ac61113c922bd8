/** The FAT32 driver's cluster operations (lab4: fat_table.c and fat_file.c), on a volume whose disk
    reads and table writes succeed. */
module FatFile {
  import opened FileBlocks
  import opened FileData
  import opened FatChains

  class Volume {
    const bpc: nat                 // 1 << cluster_order
    const n: nat                   // num_data_clusters
    const fat: array<nat>          // fat_map
    const data: array<seq<byte>>   // the data region, by cluster number
    var files: seq<File>
    ghost var chains: seq<seq<nat>>
    ghost var role: seq<Role>

    ghost predicate Ok()
      reads this, fat, data
    {
      && fat.Length == data.Length == n + 2 && 0 < bpc
      && FatOk(n, fat[..], chains, role) && FilesOk(bpc, files, chains) && DataOk(n, bpc, data[..])
    }

    ghost predicate Live(f: nat)
      reads this
    {
      f < |files| == |chains| && chains[f] != []
    }

    // -------------------------------------------------------------- fat_table.c

    method GetNext(c: nat) returns (r: nat)
      requires c < n + 2 == fat.Length
      ensures r == if Valid(n, fat[c]) then fat[c] else EOC
    {
      r := fat[c];
      if !(2 <= r < n + 2) {
        r := EOC;
      }
    }

    /** fat_table_get_next_free_cluster, which needs one to exist: the first. */
    method NextFree() returns (c: nat)
      requires fat.Length == n + 2 && exists d: nat :: Valid(n, d) && fat[d] == FREE
      ensures Valid(n, c) && fat[c] == FREE && forall d: nat :: Valid(n, d) && d < c ==> fat[d] != FREE
    {
      ghost var d: nat :| Valid(n, d) && fat[d] == FREE;
      c := 2;
      while fat[c] != FREE
        invariant 2 <= c <= d && forall e :: 2 <= e < c ==> fat[e] != FREE
        decreases d - c
      {
        c := c + 1;
      }
    }

    /** The cluster offset lies in, the end mark right after the last one, an error beyond. */
    method Seek(start: nat, offset: nat, ghost f: nat) returns (cluster: nat, err: bool)
      requires Ok() && Live(f) && start == chains[f][0]
      ensures err <==> Whole(offset, bpc) > |chains[f]|
      ensures !err ==> cluster == if Whole(offset, bpc) < |chains[f]| then chains[f][Whole(offset, bpc)] else EOC
    {
      var positions := Whole(offset, bpc);
      cluster := start;
      for i := 0 to positions
        invariant i <= |chains[f]| && cluster == if i < |chains[f]| then chains[f][i] else EOC
      {
        if i < |chains[f]| {
          NextInChain(n, fat[..], chains, role, f, i);
        }
        if cluster == EOC {
          return 0, true;
        }
        cluster := GetNext(cluster);
      }
      err := false;
    }

    method ClustersFor(size: nat) returns (r: nat)
      requires 0 < bpc
      ensures r == Whole(size + (bpc - 1), bpc)
    {
      r := Whole(size + (bpc - 1), bpc);
    }

    // -------------------------------------------------------------- fat_file.c

    /** fat_file_init: one free cluster becomes a new file's chain. */
    method Create() returns (f: nat)
      requires Ok() && exists d: nat :: Valid(n, d) && fat[d] == FREE
      modifies this, fat
      ensures Ok() && Live(f) && f == |old(files)| && |chains[f]| == 1 && files[f].size == 0
      ensures |old(role)| == n + 2 && Valid(n, chains[f][0])
      ensures old(role)[chains[f][0]] == Unused && role == old(role)[chains[f][0] := Own(f, 0)]
      ensures OthersKept(old(data[..]), old(files), old(chains), data[..], files, chains, f)
    {
      var c := NextFree();
      FreeIsUnused(n, fat[..], chains, role, c);
      Appended(n, fat[..], chains, role, c);
      f := |files|;
      fat[c] := EOC;
      role := role[c := Own(f, 0)];
      chains := chains + [[c]];
      files := files + [File(c, 0)];
      assert fat[..] == old(fat[..])[c := EOC];
    }

    /** The loop of truncate and remove: clears the chain from position m on. */
    method FreeRest(ghost f: nat, ghost m: nat, first: nat, ghost fat0: seq<nat>)
      requires FatOk(n, fat0, chains, role) && Live(f) && m <= |chains[f]| && fat.Length == n + 2
      requires first == if m < |chains[f]| then chains[f][m] else EOC
      requires Cutting(n, fat0, fat[..], chains[f], m, m)
      modifies fat
      ensures Cutting(n, fat0, fat[..], chains[f], m, |chains[f]|)
    {
      var last := first;
      ghost var j := m;
      ghost var chain := chains[f];
      while !(last == EOC || last == EOC2)
        invariant m <= j <= |chain| && last == (if j < |chain| then chain[j] else EOC)
        invariant Cutting(n, fat0, fat[..], chain, m, j)
        decreases |chain| - j
      {
        NextInChain(n, fat0, chains, role, f, j);
        NotYet(n, fat0, chains, role, f, j);
        var next := GetNext(last);
        fat[last] := FREE;
        CutOne(n, fat0, chains, role, f, m, j, fat[..]);
        last := next;
        j := j + 1;
      }
      if j < |chain| {
        NextInChain(n, fat0, chains, role, f, j);
      }
    }

    /** fat_file_truncate: where it frees anything it keeps the clusters up to the one offset is in, the
        first offset bytes, and every other file; otherwise it changes nothing, not even the size. */
    method Truncate(f: nat, offset: nat)
      requires Ok() && Live(f)
      modifies this, fat
      ensures Ok() && OthersKept(old(data[..]), old(files), old(chains), data[..], files, chains, f)
      ensures |files| == |old(files)| && |chains| == |old(chains)|
      ensures Shortens(bpc, old(files[f].size), offset) ==>
        && Whole(offset, bpc) + 1 <= |old(chains[f])| && chains[f] == old(chains[f])[..Whole(offset, bpc) + 1]
        && role == CutRole(old(role), f, Whole(offset, bpc) + 1)
        && files[f].size == offset <= |old(Text(data[..], chains[f], files[f].size))|
        && Text(data[..], chains[f], offset) == old(Text(data[..], chains[f], files[f].size))[..offset]
      ensures !Shortens(bpc, old(files[f].size), offset) ==>
        chains == old(chains) && role == old(role) && files == old(files) && fat[..] == old(fat[..])
      ensures files[f].size == offset <==> offset == old(files[f].size) || Shortens(bpc, old(files[f].size), offset)
    {
      var cur := ClustersFor(files[f].size);
      cur := if cur > 1 then cur else 1;
      var wanted := ClustersFor(offset);
      wanted := if wanted > 1 then wanted else 1;
      if offset > files[f].size || wanted >= cur {
        return;
      }
      CutPoint(n, bpc, fat[..], data[..], files, chains, role, f, offset);
      var last, err := Seek(files[f].start, offset, f);
      ghost var q, fat0 := Whole(offset, bpc), fat[..];
      NextInChain(n, fat0, chains, role, f, q);
      var next := GetNext(last);
      fat[last] := EOC;
      CutHere(n, fat0, chains, role, f, q, fat[..]);
      FreeRest(f, q + 1, next, fat0);
      CutFile(offset, f, q + 1, fat0);
    }

    /** The bookkeeping and the new size at the end of truncate. */
    method CutFile(offset: nat, f: nat, ghost m: nat, ghost fat0: seq<nat>)
      requires fat.Length == data.Length == n + 2 && 0 < bpc && Live(f) && 0 < m <= |chains[f]|
      requires FatOk(n, fat0, chains, role) && FilesOk(bpc, files, chains) && DataOk(n, bpc, data[..])
      requires Cutting(n, fat0, fat[..], chains[f], m, |chains[f]|)
      requires offset <= files[f].size && offset <= |Flat(data[..], chains[f][..m])|
      modifies this
      ensures Ok() && OthersKept(data[..], old(files), old(chains), data[..], files, chains, f)
      ensures |files| == |old(files)| && chains == old(chains)[f := old(chains[f])[..m]] && role == CutRole(old(role), f, m)
      ensures files[f].size == offset <= |old(Text(data[..], chains[f], files[f].size))|
      ensures Text(data[..], chains[f], offset) == old(Text(data[..], chains[f], files[f].size))[..offset]
    {
      Cut(n, fat0, fat[..], chains, role, f, m);
      TextLen(n, bpc, fat0, data[..], files, chains, role, f);
      CutFlat(data[..], chains[f], m);
      ChainIn(n, fat0, chains, role, f);
      FlatLen(n, bpc, data[..], chains[f][..m]);
      assert |chains[f][..m]| == m;
      files := files[f := files[f].(size := offset)];
      chains := chains[f := chains[f][..m]];
      role := CutRole(role, f, m);
    }

    /** fat_file_remove: exactly the file's clusters become free. */
    method Remove(f: nat)
      requires Ok() && Live(f)
      modifies this, fat
      ensures Ok() && !Live(f) && role == CutRole(old(role), f, 0) && files == old(files)
      ensures OthersKept(old(data[..]), old(files), old(chains), data[..], files, chains, f)
    {
      ghost var fat0 := fat[..];
      TextLen(n, bpc, fat0, data[..], files, chains, role, f);
      FreeRest(f, 0, files[f].start, fat0);
      Cut(n, fat0, fat[..], chains, role, f, 0);
      chains := chains[f := chains[f][..0]];
      role := CutRole(role, f, 0);
    }

    /** fat_get_next_or_add_cluster, from inside a chain: its other branch asks for an end mark, which
        the loop around it has already ruled out. */
    method NextOrAdd(c: nat) returns (r: nat)
      requires c < n + 2 == fat.Length && !IsEoc(c)
      ensures r == if Valid(n, fat[c]) then fat[c] else EOC
    {
      r := GetNext(c);
    }

    /** Bytes of buf into the cluster that offset lies in: as many as asked, or as the device takes. */
    method PutBytes(c: nat, offset: nat, w: seq<byte>, ghost f: nat)
      requires Ok() && Live(f) && Whole(offset, bpc) < |chains[f]| && c == chains[f][Whole(offset, bpc)]
      requires Within(offset, bpc) + |w| <= bpc
      modifies data
      ensures Ok() && offset + |w| <= |old(Flat(data[..], chains[f]))|
      ensures Flat(data[..], chains[f]) == Over(old(Flat(data[..], chains[f])), offset, w)
      ensures forall g: nat :: g < |chains| && g != f ==> Flat(data[..], chains[g]) == old(Flat(data[..], chains[g]))
    {
      PutFlat(n, bpc, fat[..], chains, role, data[..], f, offset, w);
      ghost var d0 := data[..];
      data[c] := Over(data[c], Within(offset, bpc), w);
      assert data[..] == d0[c := Over(d0[c], Within(offset, bpc), w)];
    }

    /** fat_file_pread: the bytes of the file at offset, cut at its size; past its end, none.  The device
        gives out whole pieces, as long as they end within limit bytes. */
    method Pread(f: nat, size: nat, offset: nat, limit: nat) returns (buf: seq<byte>)
      requires Ok() && Live(f)
      ensures offset > files[f].size ==> buf == []
      ensures offset <= files[f].size ==>
        && offset + |buf| <= |Text(data[..], chains[f], files[f].size)| == files[f].size && |buf| <= size
        && buf == Text(data[..], chains[f], files[f].size)[offset..offset + |buf|]
      ensures offset <= files[f].size && |buf| < size && |buf| < files[f].size - offset ==>
        limit < size && limit < files[f].size - offset
    {
      if offset > files[f].size {
        return [];
      }
      var want := if size < files[f].size - offset then size else files[f].size - offset;
      ghost var flat := Flat(data[..], chains[f]);
      TextLen(n, bpc, fat[..], data[..], files, chains, role, f);
      assert Text(data[..], chains[f], files[f].size) == flat[..files[f].size];
      buf := [];
      if want > 0 {
        var cluster, err := Seek(files[f].start, offset, f);
        SeekLands(bpc, offset, |chains[f]|);
        buf := ReadLoop(f, want, offset, limit, cluster);
        TextSlice(flat, files[f].size, offset, |buf|);
      }
    }

    /** The loop of fat_file_pread. */
    method ReadLoop(f: nat, want: nat, offset: nat, limit: nat, first: nat) returns (buf: seq<byte>)
      requires Ok() && Live(f) && At(bpc, chains[f], offset, first)
      requires offset + want <= |Flat(data[..], chains[f])| == Span(|chains[f]|, bpc)
      ensures |buf| <= want && Reads(Flat(data[..], chains[f]), offset, buf)
      ensures |buf| < want ==> limit < want
    {
      ghost var flat := Flat(data[..], chains[f]);
      var cluster := first;
      buf := [];
      assert Reading(bpc, flat, chains[f], offset, want, buf, cluster);
      while |buf| < want && cluster != EOC
        invariant Reading(bpc, flat, chains[f], offset, want, buf, cluster)
        decreases want - |buf|
      {
        var more, next := ReadTurn(f, offset, want, buf, cluster, limit);
        if more == buf {
          return;
        }
        buf, cluster := more, next;
      }
      ReadAll(n, bpc, fat[..], chains, role, flat, f, offset, want, buf, cluster);
    }

    /** The body of that loop: nothing more when the device fails. */
    method ReadTurn(f: nat, offset: nat, want: nat, buf: seq<byte>, cluster: nat, limit: nat)
      returns (more: seq<byte>, next: nat)
      requires Ok() && Live(f) && |buf| < want && cluster != EOC
      requires Reading(bpc, Flat(data[..], chains[f]), chains[f], offset, want, buf, cluster)
      ensures if more == buf then limit < want else |more| > |buf| && Reading(bpc, Flat(data[..], chains[f]), chains[f], offset, want, more, next)
    {
      var r := Within(offset + |buf|, bpc);
      var m := Piece(bpc, offset + |buf|, want - |buf|);
      if limit < |buf| + m {
        return buf, cluster;
      }
      ReadAt(n, bpc, fat[..], chains, role, data[..], f, offset + |buf|, m);
      var piece := data[cluster][r..r + m];
      next := GetNext(cluster);
      ReadMore(n, bpc, fat[..], chains, role, Flat(data[..], chains[f]), f, offset, want, buf, cluster, piece);
      more := buf + piece;
    }

    /** fat_file_pwrite: the bytes it returns, no more than the chain has room for, are spliced into the
        file at offset, and no other file changes.  limit is how many bytes the device takes. */
    method Pwrite(f: nat, buf: seq<byte>, offset: nat, limit: nat) returns (k: nat)
      requires Ok() && Live(f)
      modifies this`files, data
      ensures Ok() && Live(f) && k <= |buf| && |files| == |old(files)|
      ensures offset > old(files[f].size) ==> k == 0 && files == old(files) && data[..] == old(data[..])
      ensures offset <= old(files[f].size) ==>
        && files[f] == old(files[f]).(size := if offset + k > old(files[f].size) then offset + k else old(files[f].size))
        && offset <= |old(Text(data[..], chains[f], files[f].size))|
        && Text(data[..], chains[f], files[f].size) == Splice(old(Text(data[..], chains[f], files[f].size)), offset, buf[..k])
      ensures offset <= old(files[f].size) && k < |buf| && k < limit ==> offset + k == Span(|chains[f]|, bpc)
      ensures offset <= old(files[f].size) && |buf| <= limit ==> (k == |buf| <==> offset + |buf| <= Span(|chains[f]|, bpc))
      ensures OthersKept(old(data[..]), old(files), chains, data[..], files, chains, f)
    {
      if offset > files[f].size {
        return 0;
      }
      ghost var d0: seq<seq<byte>>, flat := data[..], Flat(data[..], chains[f]);
      TextLen(n, bpc, fat[..], d0, files, chains, role, f);
      var cluster, err := Seek(files[f].start, offset, f);
      SeekLands(bpc, offset, |chains[f]|);
      k := WriteLoop(f, buf, offset, limit, cluster);
      TextsKept(d0, data[..], files, chains, f, offset, buf, k);
      OverSplice(flat, files[f].size, offset, buf[..k]);
      if offset + k > files[f].size {
        files := files[f := files[f].(size := offset + k)];
      }
    }

    /** The loop of fat_file_pwrite. */
    method WriteLoop(f: nat, buf: seq<byte>, offset: nat, limit: nat, first: nat) returns (k: nat)
      requires Ok() && Live(f) && At(bpc, chains[f], offset, first) && offset <= Span(|chains[f]|, bpc)
      modifies data
      ensures Ok() && k <= |buf| && Poured(old(data[..]), data[..], chains, f, offset, buf, k)
      ensures k < |buf| && k < limit ==> offset + k == Span(|chains[f]|, bpc)
    {
      ghost var d0: seq<seq<byte>>, chain := data[..], chains[f];
      var cluster := first;
      k := 0;
      PouredNothing(n, bpc, fat[..], d0, chains, role, f, offset, buf);
      while k < |buf| && !(cluster == EOC || cluster == EOC2)
        invariant Ok() && k <= |buf| && Poured(d0, data[..], chains, f, offset, buf, k)
        invariant GoesOn(bpc, chain, offset + k, |buf| - k, cluster)
        decreases |buf| - k
      {
        var got, more, next := WriteTurn(f, buf, offset, k, limit, cluster, d0);
        k := k + got;
        if !more {
          return;
        }
        cluster := next;
      }
      if k < |buf| {
        AtEnd(n, bpc, fat[..], chains, role, f, offset + k, cluster);
      }
    }

    /** The body of that loop. */
    method WriteTurn(f: nat, buf: seq<byte>, offset: nat, k: nat, limit: nat, cluster: nat, ghost d0: seq<seq<byte>>)
      returns (got: nat, more: bool, next: nat)
      requires Ok() && Live(f) && k < |buf| && Poured(d0, data[..], chains, f, offset, buf, k)
      requires At(bpc, chains[f], offset + k, cluster) && !IsEoc(cluster)
      modifies data
      ensures Ok() && k + got <= |buf| && Poured(d0, data[..], chains, f, offset, buf, k + got)
      ensures more ==> got > 0 && GoesOn(bpc, chains[f], offset + k + got, |buf| - (k + got), next)
      ensures !more && k + got < |buf| && k + got < limit ==> offset + k + got == Span(|chains[f]|, bpc)
    {
      ghost var d1: seq<seq<byte>>, q := data[..], Whole(offset + k, bpc);
      var m := Piece(bpc, offset + k, |buf| - k);
      got := if k + m <= limit then m else if k <= limit then limit - k else 0;
      NextInChain(n, fat[..], chains, role, f, q);
      PutBytes(cluster, offset + k, buf[k..k + got], f);
      PouredMore(d0, d1, data[..], chains, f, offset, buf, k, got);
      if got != m {
        return got, false, cluster;
      }
      more, next := true, cluster;
      if k + got < |buf| {
        OnToNext(n, bpc, fat[..], chains, role, f, offset + k);
        next := NextOrAdd(cluster);
        if !(2 <= next < n + 2) {
          AtEnd(n, bpc, fat[..], chains, role, f, offset + k + got, next);
          more := false;
        }
      }
    }
  }

  /** A new file has one cluster: of 600 bytes a cluster of 512 takes 512. */
  method ShortWrite(v: Volume, buf: seq<byte>) returns (f: nat, k: nat)
    requires v.Ok() && v.bpc == 512 && |buf| == 600 && exists d: nat :: Valid(v.n, d) && v.fat[d] == FREE
    modifies v, v.fat, v.data
    ensures v.Ok() && v.Live(f) && k == 512
  {
    f := v.Create();
    OneCluster(512);
    k := v.Pwrite(f, buf, 0, 600);
  }

  /** A file of 300 bytes in a cluster of 512 stays that long when it is cut to 100. */
  method CutIgnored(v: Volume, buf: seq<byte>) returns (f: nat)
    requires v.Ok() && v.bpc == 512 && |buf| == 300 && exists d: nat :: Valid(v.n, d) && v.fat[d] == FREE
    modifies v, v.fat, v.data
    ensures v.Ok() && v.Live(f) && v.files[f].size == 300
  {
    f := v.Create();
    OneCluster(512);
    var k := v.Pwrite(f, buf, 0, 300);
    TruncateIgnored();
    v.Truncate(f, 100);
  }

  lemma OneCluster(bpc: nat)
    ensures Span(1, bpc) == bpc
  {
    assert Span(0, bpc) == 0;
  }

  /** cluster is where pos is in the chain, or the end mark when pos is right at its end. */
  predicate At(bpc: nat, chain: seq<nat>, pos: nat, cluster: nat)
    requires 0 < bpc
  {
    && Whole(pos, bpc) <= |chain| && (Whole(pos, bpc) == |chain| ==> pos == Span(|chain|, bpc))
    && cluster == if Whole(pos, bpc) < |chain| then chain[Whole(pos, bpc)] else EOC
  }

  /** w is what flat holds at at. */
  predicate Reads(flat: seq<byte>, at: nat, w: seq<byte>) {
    at + |w| <= |flat| && w == flat[at..at + |w|]
  }

  /** The bytes at pos are in the cluster it lies in. */
  lemma ReadAt(n: nat, bpc: nat, fat: seq<nat>, chains: seq<seq<nat>>, role: seq<Role>, data: seq<seq<byte>>, f: nat,
               pos: nat, m: nat)
    requires FatOk(n, fat, chains, role) && DataOk(n, bpc, data) && 0 < bpc && f < |chains|
    requires Whole(pos, bpc) < |chains[f]| && Within(pos, bpc) + m <= bpc
    ensures var c := chains[f][Whole(pos, bpc)]; var r := Within(pos, bpc);
      && Valid(n, c) && c < |data| && |data[c]| == bpc && pos + m <= |Flat(data, chains[f])|
      && Reads(Flat(data, chains[f]), pos, data[c][r..r + m])
  {
    ChainIn(n, fat, chains, role, f);
    ReadCluster(n, bpc, data, chains[f], Whole(pos, bpc), Within(pos, bpc), m);
    WholeWithin(pos, bpc);
  }

  /** Past the end of the cluster pos is in, and still inside the chain, comes the next one. */
  lemma OnToNext(n: nat, bpc: nat, fat: seq<nat>, chains: seq<seq<nat>>, role: seq<Role>, f: nat, pos: nat)
    requires FatOk(n, fat, chains, role) && 0 < bpc && f < |chains|
    requires Whole(pos, bpc) < |chains[f]|
    ensures Valid(n, chains[f][Whole(pos, bpc)]) && chains[f][Whole(pos, bpc)] < |fat|
    ensures var e := fat[chains[f][Whole(pos, bpc)]];
      At(bpc, chains[f], pos + (bpc - Within(pos, bpc)), if Valid(n, e) then e else EOC)
  {
    WholeNext(pos, bpc - Within(pos, bpc), bpc);
    WholeWithin(pos, bpc);
    WholeWithin(pos + (bpc - Within(pos, bpc)), bpc);
    NextInChain(n, fat, chains, role, f, Whole(pos, bpc));
  }

  /** buf is what has been read from offset on, and cluster is where the rest comes from. */
  predicate Reading(bpc: nat, flat: seq<byte>, chain: seq<nat>, offset: nat, want: nat, buf: seq<byte>, cluster: nat)
    requires 0 < bpc
  {
    |buf| <= want && Reads(flat, offset, buf) && (|buf| < want ==> At(bpc, chain, offset + |buf|, cluster))
  }

  /** fat_table_get_cluster_remaining_bytes. */
  function Piece(bpc: nat, pos: nat, left: nat): (m: nat)
    requires 0 < bpc
    ensures m <= left && Within(pos, bpc) + m <= bpc && (m == 0 ==> left == 0)
  {
    if left < bpc - Within(pos, bpc) then left else bpc - Within(pos, bpc)
  }

  lemma ReadMore(n: nat, bpc: nat, fat: seq<nat>, chains: seq<seq<nat>>, role: seq<Role>, flat: seq<byte>, f: nat,
                 offset: nat, want: nat, buf: seq<byte>, c: nat, piece: seq<byte>)
    requires FatOk(n, fat, chains, role) && 0 < bpc && f < |chains| && |buf| < want
    requires Reading(bpc, flat, chains[f], offset, want, buf, c) && c < n + 2 && Valid(n, c)
    requires |piece| == Piece(bpc, offset + |buf|, want - |buf|) && Reads(flat, offset + |buf|, piece)
    ensures Reading(bpc, flat, chains[f], offset, want, buf + piece, if Valid(n, fat[c]) then fat[c] else EOC)
  {
    var pos := offset + |buf|;
    SliceJoin(flat, offset, buf, piece);
    if |buf + piece| < want {
      assert c != EOC;
      OnToNext(n, bpc, fat, chains, role, f, pos);
    }
  }

  lemma AtEnd(n: nat, bpc: nat, fat: seq<nat>, chains: seq<seq<nat>>, role: seq<Role>, f: nat, pos: nat, cluster: nat)
    requires FatOk(n, fat, chains, role) && 0 < bpc && f < |chains| && At(bpc, chains[f], pos, cluster)
    requires !Valid(n, cluster) || IsEoc(cluster)
    ensures pos == Span(|chains[f]|, bpc)
  {
    if Whole(pos, bpc) < |chains[f]| { NextInChain(n, fat, chains, role, f, Whole(pos, bpc)); }
  }

  /** A read that meets the end mark has got all there is. */
  lemma ReadAll(n: nat, bpc: nat, fat: seq<nat>, chains: seq<seq<nat>>, role: seq<Role>, flat: seq<byte>, f: nat,
                offset: nat, want: nat, buf: seq<byte>, cluster: nat)
    requires FatOk(n, fat, chains, role) && 0 < bpc && f < |chains| && offset + want <= Span(|chains[f]|, bpc)
    requires Reading(bpc, flat, chains[f], offset, want, buf, cluster) && (|buf| < want ==> cluster == EOC)
    ensures |buf| == want
  {
    if |buf| < want { AtEnd(n, bpc, fat, chains, role, f, offset + |buf|, cluster); }
  }

  lemma SliceJoin(flat: seq<byte>, at: nat, a: seq<byte>, b: seq<byte>)
    requires Reads(flat, at, a) && Reads(flat, at + |a|, b)
    ensures Reads(flat, at, a + b)
  {
    assert flat[at..at + |a + b|] == flat[at..at + |a|] + flat[at + |a|..at + |a| + |b|];
  }

  lemma TextSlice(flat: seq<byte>, size: nat, at: nat, m: nat)
    requires at + m <= size <= |flat|
    ensures flat[..size][at..at + m] == flat[at..at + m]
  {
  }

  /** If anything is left to do at pos, it is in cluster. */
  predicate GoesOn(bpc: nat, chain: seq<nat>, pos: nat, left: nat, cluster: nat)
    requires 0 < bpc
  {
    left > 0 ==> At(bpc, chain, pos, cluster)
  }

  /** The first k bytes of buf are in f's chain at offset; the other chains hold what they did. */
  ghost predicate Poured(d0: seq<seq<byte>>, d: seq<seq<byte>>, chains: seq<seq<nat>>, f: nat, offset: nat, buf: seq<byte>, k: nat) {
    && f < |chains| && k <= |buf| && offset + k <= |Flat(d0, chains[f])|
    && Flat(d, chains[f]) == Over(Flat(d0, chains[f]), offset, buf[..k])
    && forall g: nat {:trigger chains[g]} :: g < |chains| && g != f ==> Flat(d, chains[g]) == Flat(d0, chains[g])
  }

  lemma PouredNothing(n: nat, bpc: nat, fat: seq<nat>, d: seq<seq<byte>>, chains: seq<seq<nat>>, role: seq<Role>, f: nat,
                      offset: nat, buf: seq<byte>)
    requires FatOk(n, fat, chains, role) && DataOk(n, bpc, d) && f < |chains| && offset <= Span(|chains[f]|, bpc)
    ensures Poured(d, d, chains, f, offset, buf, 0)
  {
    ChainIn(n, fat, chains, role, f);
    FlatLen(n, bpc, d, chains[f]);
    var flat := Flat(d, chains[f]);
    assert buf[..0] == [] && flat[..offset] + [] + flat[offset..] == flat;
  }

  lemma PouredMore(d0: seq<seq<byte>>, d1: seq<seq<byte>>, d2: seq<seq<byte>>, chains: seq<seq<nat>>, f: nat, offset: nat,
                   buf: seq<byte>, k: nat, got: nat)
    requires Poured(d0, d1, chains, f, offset, buf, k) && k + got <= |buf| && offset + k + got <= |Flat(d1, chains[f])|
    requires Flat(d2, chains[f]) == Over(Flat(d1, chains[f]), offset + k, buf[k..k + got])
    requires forall g: nat {:trigger chains[g]} :: g < |chains| && g != f ==> Flat(d2, chains[g]) == Flat(d1, chains[g])
    ensures Poured(d0, d2, chains, f, offset, buf, k + got)
  {
    OverTwice(Flat(d0, chains[f]), offset, buf[..k], buf[k..k + got]);
    assert buf[..k] + buf[k..k + got] == buf[..k + got];
  }

  lemma TextsKept(d0: seq<seq<byte>>, d: seq<seq<byte>>, files: seq<File>, chains: seq<seq<nat>>, f: nat, offset: nat,
                  buf: seq<byte>, k: nat)
    requires Poured(d0, d, chains, f, offset, buf, k) && |files| == |chains|
    ensures forall g: nat {:trigger files[g]} {:trigger chains[g]} :: g < |files| && g != f ==>
      Text(d, chains[g], files[g].size) == Text(d0, chains[g], files[g].size)
  {
  }

  /** An offset inside a chain's span is in one of its clusters, or right at the end. */
  lemma SeekLands(bpc: nat, offset: nat, len: nat)
    requires 0 < bpc && offset <= Span(len, bpc)
    ensures Whole(offset, bpc) <= len && (Whole(offset, bpc) == len ==> offset == Span(len, bpc))
  {
    WholeWithin(offset, bpc);
    SpanMono(len + 1, Whole(offset, bpc), bpc);
  }

  /** What PutBytes does to the chains. */
  lemma PutFlat(n: nat, bpc: nat, fat: seq<nat>, chains: seq<seq<nat>>, role: seq<Role>, data: seq<seq<byte>>, f: nat,
                offset: nat, w: seq<byte>)
    requires FatOk(n, fat, chains, role) && DataOk(n, bpc, data) && 0 < bpc && f < |chains|
    requires Whole(offset, bpc) < |chains[f]| && Within(offset, bpc) + |w| <= bpc
    ensures var c := chains[f][Whole(offset, bpc)];
      Valid(n, c) && |data[c]| == bpc && DataOk(n, bpc, data[c := Over(data[c], Within(offset, bpc), w)])
    ensures var c := chains[f][Whole(offset, bpc)]; var data' := data[c := Over(data[c], Within(offset, bpc), w)];
      && offset + |w| <= |Flat(data, chains[f])| && Flat(data', chains[f]) == Over(Flat(data, chains[f]), offset, w)
      && forall g: nat :: g < |chains| && g != f ==> Flat(data', chains[g]) == Flat(data, chains[g])
  {
    var q := Whole(offset, bpc);
    var c := chains[f][q];
    ChainIn(n, fat, chains, role, f);
    NotYet(n, fat, chains, role, f, q);
    PatchedData(n, bpc, data, c, Within(offset, bpc), w);
    WholeWithin(offset, bpc);
    WriteCluster(n, bpc, data, chains[f], q, Within(offset, bpc), w);
    forall g: nat | g < |chains| && g != f
      ensures Flat(data[c := Over(data[c], Within(offset, bpc), w)], chains[g]) == Flat(data, chains[g])
    {
      OthersUntouched(n, fat, chains, role, data, data[c := Over(data[c], Within(offset, bpc), w)], f, g);
    }
  }

  /** Fewer clusters would do: when truncate does anything at all. */
  predicate Shortens(bpc: nat, size: nat, offset: nat)
    requires 0 < bpc
  {
    var cur, wanted := Whole(size + (bpc - 1), bpc), Whole(offset + (bpc - 1), bpc);
    offset <= size && (if wanted > 1 then wanted else 1) < (if cur > 1 then cur else 1)
  }

  /** It does exactly when the clusters that offset needs have no room for the file as it is. */
  lemma ShortensExactly(bpc: nat, size: nat, offset: nat)
    requires 0 < bpc && offset <= size
    ensures var kept := Whole(offset + (bpc - 1), bpc);
      Shortens(bpc, size, offset) <==> Span(if kept > 1 then kept else 1, bpc) < size
  {
    var cur, kept := Whole(size + (bpc - 1), bpc), Whole(offset + (bpc - 1), bpc);
    RoundUp(size, bpc);
    SpanMono(cur, if kept > 1 then kept else 1, bpc);
    if cur > 0 { SpanMono(if kept > 1 then kept else 1, cur - 1, bpc); }
  }

  /** A file of 300 bytes in clusters of 512 is not cut to 100. */
  lemma TruncateIgnored()
    ensures !Shortens(512, 300, 100)
  {
    ShortensExactly(512, 300, 100);
    assert Whole(611, 512) == 1 + Whole(99, 512);
    assert Span(1, 512) == 512 + Span(0, 512);
  }

  /** The cluster offset is in is one of those a longer file needs, with room for all before offset. */
  lemma KeepsOne(bpc: nat, size: nat, offset: nat, len: nat)
    requires 0 < bpc && size <= Span(len, bpc) && Shortens(bpc, size, offset) && 0 < len
    ensures Whole(offset, bpc) + 1 <= len && offset <= Span(Whole(offset, bpc) + 1, bpc)
  {
    var q, r, w := Whole(offset, bpc), Whole(size + (bpc - 1), bpc), Whole(offset + (bpc - 1), bpc);
    RoundUp(size, bpc);
    RoundUp(offset, bpc);
    WholeWithin(offset, bpc);
    SpanMono(w + 1, q, bpc);
    SpanMono(len, r - 1, bpc);
  }

  /** What truncate needs of the chain where it cuts. */
  lemma CutPoint(n: nat, bpc: nat, fat: seq<nat>, data: seq<seq<byte>>, files: seq<File>, chains: seq<seq<nat>>,
                 role: seq<Role>, f: nat, offset: nat)
    requires FatOk(n, fat, chains, role) && FilesOk(bpc, files, chains) && DataOk(n, bpc, data)
    requires f < |files| && chains[f] != [] && Shortens(bpc, files[f].size, offset)
    ensures Whole(offset, bpc) + 1 <= |chains[f]| && files[f].start == chains[f][0]
    ensures offset <= |Flat(data, chains[f][..Whole(offset, bpc) + 1])|
  {
    TextLen(n, bpc, fat, data, files, chains, role, f);
    KeepsOne(bpc, files[f].size, offset, |chains[f]|);
    ChainIn(n, fat, chains, role, f);
    FlatLen(n, bpc, data, chains[f][..Whole(offset, bpc) + 1]);
    assert |chains[f][..Whole(offset, bpc) + 1]| == Whole(offset, bpc) + 1;
  }

  lemma NotYet(n: nat, fat0: seq<nat>, chains: seq<seq<nat>>, role: seq<Role>, f: nat, j: nat)
    requires FatOk(n, fat0, chains, role) && f < |chains| && j < |chains[f]|
    ensures chains[f][j] !in chains[f][..j] && chains[f][j] !in chains[f][j + 1..]
    ensures forall k: nat :: k < |chains[f]| && k != j ==> chains[f][k] != chains[f][j]
  {
    forall k: nat | k < |chains[f]| && k != j ensures chains[f][k] != chains[f][j] {
      if chains[f][k] == chains[f][j] { ChainsDisjoint(n, fat0, chains, role, f, k, f, j); }
    }
  }

  lemma CutOne(n: nat, fat0: seq<nat>, chains: seq<seq<nat>>, role: seq<Role>, f: nat, m: nat, j: nat, fat': seq<nat>)
    requires FatOk(n, fat0, chains, role) && f < |chains| && m <= j < |chains[f]| && |fat'| == n + 2
    requires exists fat :: Cutting(n, fat0, fat, chains[f], m, j) && chains[f][j] < n + 2 && fat' == fat[chains[f][j] := FREE]
    ensures Cutting(n, fat0, fat', chains[f], m, j + 1)
  {
    var chain := chains[f];
    NotYet(n, fat0, chains, role, f, j);
    assert chain[..j + 1] == chain[..j] + [chain[j]];
    forall k: nat | k < m ensures chain[k] != chain[j] {}
  }

  lemma CutHere(n: nat, fat0: seq<nat>, chains: seq<seq<nat>>, role: seq<Role>, f: nat, q: nat, fat': seq<nat>)
    requires FatOk(n, fat0, chains, role) && f < |chains| && q < |chains[f]|
    requires chains[f][q] < n + 2 && fat' == fat0[chains[f][q] := EOC]
    ensures Cutting(n, fat0, fat', chains[f], q + 1, q + 1)
  {
    var chain := chains[f];
    NotYet(n, fat0, chains, role, f, q);
    assert chain[..q + 1] == chain[..q] + [chain[q]];
    forall k: nat | k < q + 1 ensures chain[k] < n + 2 { assert LinkOk(n, fat0, chains, role, f, k); }
  }
}

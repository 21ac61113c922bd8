/** FAT32 cluster chains (lab4), on values: every data cluster is free or has one place in one file. */
module FatChains {
  import opened FileBlocks
  import opened FileData

  const FREE := 0                // FAT_CLUSTER_FREE
  const EOC := 0x0fff_fff8       // FAT_CLUSTER_END_OF_CHAIN
  const EOC2 := 0x0fff_ffff      // FAT_CLUSTER_END_OF_CHAIN2

  datatype File = File(start: nat, size: nat)

  datatype Role = Unused | Own(f: nat, k: nat)

  /** fat_table_is_valid_cluster_number, for n data clusters. */
  predicate Valid(n: nat, c: nat) {
    2 <= c < n + 2
  }

  predicate IsEoc(c: nat) {
    c == EOC || c == EOC2
  }

  /** What the chain says should follow position k. */
  predicate NextOk(n: nat, entry: nat, chain: seq<nat>, k: nat)
    requires k < |chain|
  {
    if k + 1 < |chain| then entry == chain[k + 1] else !Valid(n, entry) && entry != FREE
  }

  predicate LinkOk(n: nat, fat: seq<nat>, chains: seq<seq<nat>>, role: seq<Role>, f: nat, k: nat)
    requires f < |chains| && k < |chains[f]| && |fat| == |role| == n + 2
  {
    var c := chains[f][k];
    Valid(n, c) && role[c] == Own(f, k) && NextOk(n, fat[c], chains[f], k)
  }

  predicate RoleOk(n: nat, fat: seq<nat>, chains: seq<seq<nat>>, role: seq<Role>, c: nat)
    requires |fat| == |role| == n + 2 && Valid(n, c)
  {
    match role[c]
    case Unused => fat[c] == FREE
    case Own(f, k) => f < |chains| && k < |chains[f]| && chains[f][k] == c
  }

  /** The entries of the table spell out the chains; a removed file's chain is empty. */
  ghost predicate FatOk(n: nat, fat: seq<nat>, chains: seq<seq<nat>>, role: seq<Role>) {
    && |fat| == |role| == n + 2 && n + 2 <= EOC
    && (forall f: nat, k: nat {:trigger LinkOk(n, fat, chains, role, f, k)} ::
          f < |chains| && k < |chains[f]| ==> LinkOk(n, fat, chains, role, f, k))
    && (forall c: nat {:trigger RoleOk(n, fat, chains, role, c)} :: Valid(n, c) ==> RoleOk(n, fat, chains, role, c))
  }

  /** A live file starts at its chain and fits in it. */
  predicate FileOk(bpc: nat, file: File, chain: seq<nat>) {
    chain != [] ==> file.start == chain[0] && file.size <= Span(|chain|, bpc)
  }

  ghost predicate FilesOk(bpc: nat, files: seq<File>, chains: seq<seq<nat>>) {
    && |files| == |chains| && 0 < bpc
    && forall f: nat {:trigger files[f]} {:trigger chains[f]} :: f < |files| ==> FileOk(bpc, files[f], chains[f])
  }

  /** Chains never cross, and never come back to a cluster. */
  lemma ChainsDisjoint(n: nat, fat: seq<nat>, chains: seq<seq<nat>>, role: seq<Role>, f: nat, k: nat, g: nat, j: nat)
    requires FatOk(n, fat, chains, role) && f < |chains| && k < |chains[f]| && g < |chains| && j < |chains[g]|
    requires chains[f][k] == chains[g][j]
    ensures f == g && k == j
  {
    assert LinkOk(n, fat, chains, role, f, k) && LinkOk(n, fat, chains, role, g, j);
  }

  // ---------------------------------------------------------------- clusters and bytes

  /** Bytes in k clusters. */
  function Span(k: nat, bpc: nat): nat {
    if k == 0 then 0 else bpc + Span(k - 1, bpc)
  }

  /** offset >> cluster_order: whole clusters before offset. */
  function Whole(offset: nat, bpc: nat): nat
    requires 0 < bpc
  {
    if offset < bpc then 0 else 1 + Whole(offset - bpc, bpc)
  }

  /** offset & (bytes_per_cluster - 1): bytes into its cluster. */
  function Within(offset: nat, bpc: nat): (r: nat)
    requires 0 < bpc
    ensures r < bpc
  {
    if offset < bpc then offset else Within(offset - bpc, bpc)
  }

  lemma {:induction false} WholeWithin(offset: nat, bpc: nat)
    requires 0 < bpc
    ensures offset == Span(Whole(offset, bpc), bpc) + Within(offset, bpc)
  {
    if offset >= bpc { WholeWithin(offset - bpc, bpc); }
  }

  lemma {:induction false} SpanMono(a: nat, b: nat, bpc: nat)
    ensures a <= b ==> Span(a, bpc) <= Span(b, bpc)
    decreases b
  {
    if a < b { SpanMono(a, b - 1, bpc); }
  }

  /** fat_table_get_clusters_for_size: the least number of clusters with room for size bytes. */
  lemma RoundUp(size: nat, bpc: nat)
    requires 0 < bpc
    ensures var r := Whole(size + (bpc - 1), bpc); Span(r, bpc) >= size && (r > 0 ==> Span(r - 1, bpc) < size)
  {
    WholeWithin(size + (bpc - 1), bpc);
  }

  /** Going on within or to the start of the next cluster. */
  lemma {:induction false} WholeNext(offset: nat, m: nat, bpc: nat)
    requires 0 < bpc && Within(offset, bpc) + m <= bpc
    ensures Within(offset, bpc) + m < bpc ==> Whole(offset + m, bpc) == Whole(offset, bpc)
    ensures Within(offset, bpc) + m == bpc ==> Whole(offset + m, bpc) == Whole(offset, bpc) + 1 && Within(offset + m, bpc) == 0
    decreases offset
  {
    if offset >= bpc {
      WholeNext(offset - bpc, m, bpc);
      assert offset + m - bpc == (offset - bpc) + m;
    }
  }

  // ---------------------------------------------------------------- what changes to the table do

  lemma Appended(n: nat, fat: seq<nat>, chains: seq<seq<nat>>, role: seq<Role>, c: nat)
    requires FatOk(n, fat, chains, role) && Valid(n, c) && role[c] == Unused
    ensures FatOk(n, fat[c := EOC], chains + [[c]], role[c := Own(|chains|, 0)])
  {
    var fat', chains', role' := fat[c := EOC], chains + [[c]], role[c := Own(|chains|, 0)];
    forall f: nat, k: nat | f < |chains'| && k < |chains'[f]| ensures LinkOk(n, fat', chains', role', f, k) {
      if f < |chains| { assert LinkOk(n, fat, chains, role, f, k); }
    }
    forall d: nat | Valid(n, d) ensures RoleOk(n, fat', chains', role', d) {
      assert RoleOk(n, fat, chains, role, d);
    }
  }

  /** File f cut down to its first m clusters: cut says which entries are already cleared. */
  ghost predicate Cutting(n: nat, fat0: seq<nat>, fat: seq<nat>, chain: seq<nat>, m: nat, j: nat) {
    && |fat| == |fat0| == n + 2 && m <= j <= |chain|
    && (forall c: nat :: c < n + 2 && c !in chain[..j] ==> fat[c] == fat0[c])
    && (forall k: nat :: m <= k < j ==> chain[k] < n + 2 && fat[chain[k]] == FREE)
    && (forall k: nat :: k < m ==> chain[k] < n + 2 && (if k + 1 < m then fat[chain[k]] == fat0[chain[k]] else fat[chain[k]] == EOC))
  }

  function CutRole(role: seq<Role>, f: nat, m: nat): (r: seq<Role>)
    ensures |r| == |role|
    ensures forall c :: 0 <= c < |role| ==> r[c] == if role[c].Own? && role[c].f == f && role[c].k >= m then Unused else role[c]
  {
    seq(|role|, c requires 0 <= c < |role| => if role[c].Own? && role[c].f == f && role[c].k >= m then Unused else role[c])
  }

  lemma Cut(n: nat, fat0: seq<nat>, fat: seq<nat>, chains: seq<seq<nat>>, role: seq<Role>, f: nat, m: nat)
    requires FatOk(n, fat0, chains, role) && f < |chains| && m <= |chains[f]|
    requires Cutting(n, fat0, fat, chains[f], m, |chains[f]|)
    ensures FatOk(n, fat, chains[f := chains[f][..m]], CutRole(role, f, m))
  {
    var chains', role' := chains[f := chains[f][..m]], CutRole(role, f, m);
    forall g: nat, k: nat | g < |chains'| && k < |chains'[g]| ensures LinkOk(n, fat, chains', role', g, k) {
      assert LinkOk(n, fat0, chains, role, g, k);
      if g != f { NotIn(n, fat0, chains, role, f, g, k); }
    }
    forall c: nat | Valid(n, c) ensures RoleOk(n, fat, chains', role', c) {
      assert RoleOk(n, fat0, chains, role, c);
      if role[c].Unused? { NotMine(n, fat0, chains, role, f, c); }
      if role[c].Own? && role[c].f == f && role[c].k >= m { assert chains[f][role[c].k] == c; }
    }
  }

  lemma NotIn(n: nat, fat: seq<nat>, chains: seq<seq<nat>>, role: seq<Role>, f: nat, g: nat, k: nat)
    requires FatOk(n, fat, chains, role) && f < |chains| && g < |chains| && g != f && k < |chains[g]|
    ensures chains[g][k] !in chains[f]
  {
    forall j: nat | j < |chains[f]| ensures chains[f][j] != chains[g][k] {
      if chains[f][j] == chains[g][k] { ChainsDisjoint(n, fat, chains, role, f, j, g, k); }
    }
  }

  lemma NotMine(n: nat, fat: seq<nat>, chains: seq<seq<nat>>, role: seq<Role>, f: nat, c: nat)
    requires FatOk(n, fat, chains, role) && f < |chains| && Valid(n, c) && role[c] == Unused
    ensures c !in chains[f]
  {
    forall j: nat | j < |chains[f]| ensures chains[f][j] != c { assert LinkOk(n, fat, chains, role, f, j); }
  }

  // ---------------------------------------------------------------- what a file holds

  /** Every cluster holds bpc bytes. */
  ghost predicate DataOk(n: nat, bpc: nat, data: seq<seq<byte>>) {
    |data| == n + 2 && forall c: nat {:trigger data[c]} :: Valid(n, c) ==> |data[c]| == bpc
  }

  ghost predicate InData(n: nat, chain: seq<nat>) {
    forall k :: 0 <= k < |chain| ==> Valid(n, chain[k])
  }

  /** All bytes of a chain, cluster after cluster. */
  function Flat(data: seq<seq<byte>>, chain: seq<nat>): seq<byte> {
    if chain == [] then [] else Cluster(data, chain[0]) + Flat(data, chain[1..])
  }

  function Cluster(data: seq<seq<byte>>, c: nat): seq<byte> {
    if c < |data| then data[c] else []
  }

  lemma {:induction false} FlatLen(n: nat, bpc: nat, data: seq<seq<byte>>, chain: seq<nat>)
    requires DataOk(n, bpc, data) && InData(n, chain)
    ensures |Flat(data, chain)| == Span(|chain|, bpc)
  {
    if chain != [] {
      var head, rest := Cluster(data, chain[0]), Flat(data, chain[1..]);
      FlatLen(n, bpc, data, chain[1..]);
      assert Valid(n, chain[0]) && |head| == bpc;
      assert |head + rest| == |head| + |rest|;
    }
  }

  lemma Assoc(a: seq<byte>, b: seq<byte>, c: seq<byte>)
    ensures a + b + c == a + (b + c)
  {
  }

  lemma {:induction false} FlatJoin(data: seq<seq<byte>>, a: seq<nat>, b: seq<nat>)
    ensures Flat(data, a + b) == Flat(data, a) + Flat(data, b)
  {
    if a == [] {
      assert a + b == b;
    } else {
      FlatJoin(data, a[1..], b);
      assert (a + b)[1..] == a[1..] + b;
      Assoc(Cluster(data, a[0]), Flat(data, a[1..]), Flat(data, b));
    }
  }

  lemma {:induction false} FlatSame(data: seq<seq<byte>>, data': seq<seq<byte>>, chain: seq<nat>)
    requires |data'| == |data| && forall k :: 0 <= k < |chain| && chain[k] < |data| ==> data'[chain[k]] == data[chain[k]]
    ensures Flat(data', chain) == Flat(data, chain)
  {
    if chain != [] { FlatSame(data, data', chain[1..]); }
  }

  /** w written over b at at. */
  function Over(b: seq<byte>, at: nat, w: seq<byte>): (r: seq<byte>)
    requires at + |w| <= |b|
    ensures |r| == |b|
    ensures forall k {:trigger r[k]} :: 0 <= k < |b| ==> r[k] == if at <= k < at + |w| then w[k - at] else b[k]
    decreases |w|
  {
    if w == [] then b else Over(b[at := w[0]], at + 1, w[1..])
  }

  lemma PatchedData(n: nat, bpc: nat, data: seq<seq<byte>>, c: nat, r: nat, w: seq<byte>)
    requires DataOk(n, bpc, data) && Valid(n, c) && r + |w| <= bpc
    ensures |data[c]| == bpc && DataOk(n, bpc, data[c := Over(data[c], r, w)])
  {
    assert |data[c]| == bpc;
  }

  lemma SameAround(data: seq<seq<byte>>, c: nat, v: seq<byte>, chain: seq<nat>)
    requires c < |data| && c !in chain
    ensures Flat(data[c := v], chain) == Flat(data, chain)
  {
    FlatSame(data, data[c := v], chain);
  }

  lemma OverFront(b: seq<byte>, c: seq<byte>, r: nat, w: seq<byte>)
    requires r + |w| <= |b|
    ensures Over(b, r, w) + c == Over(b + c, r, w)
  {
  }

  lemma OverShift(a: seq<byte>, b: seq<byte>, at: nat, w: seq<byte>)
    requires at + |w| <= |b|
    ensures a + Over(b, at, w) == Over(a + b, |a| + at, w)
  {
  }

  lemma WriteFirst(n: nat, bpc: nat, data: seq<seq<byte>>, chain: seq<nat>, r: nat, w: seq<byte>)
    requires DataOk(n, bpc, data) && InData(n, chain) && chain != [] && r + |w| <= bpc && |data[chain[0]]| == bpc
    requires chain[0] !in chain[1..]
    ensures r + |w| <= |Flat(data, chain)|
    ensures Flat(data[chain[0] := Over(data[chain[0]], r, w)], chain) == Over(Flat(data, chain), r, w)
  {
    SameAround(data, chain[0], Over(data[chain[0]], r, w), chain[1..]);
    OverFront(data[chain[0]], Flat(data, chain[1..]), r, w);
  }

  lemma Later(chain: seq<nat>, q: nat)
    requires 0 < q < |chain| && chain[q] !in chain[..q] && chain[q] !in chain[q + 1..]
    ensures chain[1..][q - 1] == chain[q] != chain[0]
    ensures chain[q] !in chain[1..][..q - 1] && chain[q] !in chain[1..][q..]
  {
    assert chain[..q] == [chain[0]] + chain[1..][..q - 1] && chain[1..][q..] == chain[q + 1..];
  }

  /** Writing within one cluster of a chain is writing at one place of the whole. */
  lemma {:induction false} WriteCluster(n: nat, bpc: nat, data: seq<seq<byte>>, chain: seq<nat>, q: nat, r: nat, w: seq<byte>)
    requires DataOk(n, bpc, data) && InData(n, chain) && q < |chain| && r + |w| <= bpc && |data[chain[q]]| == bpc
    requires chain[q] !in chain[..q] && chain[q] !in chain[q + 1..]
    ensures var data' := data[chain[q] := Over(data[chain[q]], r, w)];
      && Span(q, bpc) + r + |w| <= |Flat(data, chain)|
      && Flat(data', chain) == Over(Flat(data, chain), Span(q, bpc) + r, w)
    decreases q
  {
    if q == 0 {
      WriteFirst(n, bpc, data, chain, r, w);
    } else {
      assert Valid(n, chain[0]);
      Later(chain, q);
      WriteCluster(n, bpc, data, chain[1..], q - 1, r, w);
      OverShift(data[chain[0]], Flat(data, chain[1..]), Span(q - 1, bpc) + r, w);
    }
  }

  lemma SliceShift(a: seq<byte>, b: seq<byte>, i: nat, j: nat)
    requires i <= j <= |b|
    ensures (a + b)[|a| + i..|a| + j] == b[i..j]
  {
  }

  lemma SliceFront(a: seq<byte>, b: seq<byte>, i: nat, j: nat)
    requires i <= j <= |a|
    ensures (a + b)[i..j] == a[i..j]
  {
  }

  /** Reading within one cluster of a chain is reading at one place of the whole. */
  lemma {:induction false} ReadCluster(n: nat, bpc: nat, data: seq<seq<byte>>, chain: seq<nat>, q: nat, r: nat, m: nat)
    requires DataOk(n, bpc, data) && InData(n, chain) && q < |chain| && r + m <= bpc
    ensures Span(q, bpc) + r + m <= |Flat(data, chain)| && |data[chain[q]]| == bpc
    ensures Flat(data, chain)[Span(q, bpc) + r..Span(q, bpc) + r + m] == data[chain[q]][r..r + m]
    decreases q
  {
    var head, rest := Cluster(data, chain[0]), Flat(data, chain[1..]);
    assert Valid(n, chain[0]) && |head| == bpc;
    if q == 0 {
      SliceFront(head, rest, r, r + m);
    } else {
      ReadCluster(n, bpc, data, chain[1..], q - 1, r, m);
      SliceShift(head, rest, Span(q - 1, bpc) + r, Span(q - 1, bpc) + r + m);
    }
  }

  lemma CutFlat(data: seq<seq<byte>>, chain: seq<nat>, m: nat)
    requires m <= |chain|
    ensures Flat(data, chain[..m]) <= Flat(data, chain)
  {
    FlatJoin(data, chain[..m], chain[m..]);
    assert chain == chain[..m] + chain[m..];
  }

  /** Overwriting the whole chain splices the file that is its front. */
  lemma OverSplice(flat: seq<byte>, size: nat, off: nat, w: seq<byte>)
    requires off <= size <= |flat| && off + |w| <= |flat|
    ensures var size' := if off + |w| > size then off + |w| else size;
      Over(flat, off, w)[..size'] == Splice(flat[..size], off, w)
  {
  }

  lemma OverTwice(flat: seq<byte>, off: nat, w: seq<byte>, v: seq<byte>)
    requires off + |w| + |v| <= |flat|
    ensures Over(Over(flat, off, w), off + |w|, v) == Over(flat, off, w + v)
  {
  }

  /** A file: the front of its chain. */
  function Text(data: seq<seq<byte>>, chain: seq<nat>, size: nat): seq<byte> {
    if size <= |Flat(data, chain)| then Flat(data, chain)[..size] else Flat(data, chain)
  }

  /** Every file but f is as it was: size, chain and bytes. */
  ghost predicate OthersKept(data0: seq<seq<byte>>, files0: seq<File>, chains0: seq<seq<nat>>,
                             data: seq<seq<byte>>, files: seq<File>, chains: seq<seq<nat>>, f: nat) {
    && |files| >= |files0| && |chains| >= |chains0| && |files0| == |chains0|
    && forall g: nat {:trigger files0[g]} {:trigger chains0[g]} :: g < |files0| && g != f ==>
         files[g] == files0[g] && chains[g] == chains0[g] && Text(data, chains[g], files[g].size) == Text(data0, chains0[g], files0[g].size)
  }

  lemma ChainIn(n: nat, fat: seq<nat>, chains: seq<seq<nat>>, role: seq<Role>, f: nat)
    requires FatOk(n, fat, chains, role) && f < |chains|
    ensures InData(n, chains[f])
  {
    forall k | 0 <= k < |chains[f]| ensures Valid(n, chains[f][k]) { assert LinkOk(n, fat, chains, role, f, k); }
  }

  /** A file's text has its size. */
  lemma TextLen(n: nat, bpc: nat, fat: seq<nat>, data: seq<seq<byte>>, files: seq<File>, chains: seq<seq<nat>>, role: seq<Role>, f: nat)
    requires FatOk(n, fat, chains, role) && FilesOk(bpc, files, chains) && DataOk(n, bpc, data) && f < |files| && chains[f] != []
    ensures |Flat(data, chains[f])| == Span(|chains[f]|, bpc) && files[f].size <= Span(|chains[f]|, bpc)
    ensures |Text(data, chains[f], files[f].size)| == files[f].size && files[f].start == chains[f][0]
  {
    ChainIn(n, fat, chains, role, f);
    FlatLen(n, bpc, data, chains[f]);
    assert FileOk(bpc, files[f], chains[f]);
  }

  /** Writing clusters of f's chain leaves every other file alone. */
  lemma OthersUntouched(n: nat, fat: seq<nat>, chains: seq<seq<nat>>, role: seq<Role>, data: seq<seq<byte>>,
                        data': seq<seq<byte>>, f: nat, g: nat)
    requires FatOk(n, fat, chains, role) && f < |chains| && g < |chains| && g != f && |data'| == |data|
    requires forall c: nat :: c < |data| && c !in chains[f] ==> data'[c] == data[c]
    ensures Flat(data', chains[g]) == Flat(data, chains[g])
  {
    forall k: nat | k < |chains[g]| && chains[g][k] < |data| ensures data'[chains[g][k]] == data[chains[g][k]] {
      NotIn(n, fat, chains, role, f, g, k);
    }
    FlatSame(data, data', chains[g]);
  }

  /** A clear entry is a cluster in no chain. */
  lemma FreeIsUnused(n: nat, fat: seq<nat>, chains: seq<seq<nat>>, role: seq<Role>, c: nat)
    requires FatOk(n, fat, chains, role) && Valid(n, c) && fat[c] == FREE
    ensures role[c] == Unused
  {
    assert RoleOk(n, fat, chains, role, c);
    if role[c].Own? { NextInChain(n, fat, chains, role, role[c].f, role[c].k); }
  }

  /** What the table says follows the k-th cluster of a chain. */
  lemma NextInChain(n: nat, fat: seq<nat>, chains: seq<seq<nat>>, role: seq<Role>, f: nat, k: nat)
    requires FatOk(n, fat, chains, role) && f < |chains| && k < |chains[f]|
    ensures Valid(n, chains[f][k]) && fat[chains[f][k]] != FREE && chains[f][k] != EOC && !IsEoc(chains[f][k])
    ensures k + 1 < |chains[f]| ==> Valid(n, chains[f][k + 1])
    ensures (if Valid(n, fat[chains[f][k]]) then fat[chains[f][k]] else EOC) == if k + 1 < |chains[f]| then chains[f][k + 1] else EOC
  {
    assert LinkOk(n, fat, chains, role, f, k);
    if k + 1 < |chains[f]| { assert LinkOk(n, fat, chains, role, f, k + 1); }
  }
}

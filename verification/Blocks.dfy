/** Disk blocks, the disk layout and the on-disk log header.

    A block is its BSIZE bytes read as 256 words of type uint.  The log region is one
    header block followed by the logged blocks; everything else is a home block. */
module Blocks {
  import opened Sequences

  const BLOCKWORDS := 256  // BSIZE / sizeof(uint)
  const MAXOPBLOCKS := 10
  const LOGSIZE := 30      // MAXOPBLOCKS * 3
  const NBUF := 30
  const ROOTDEV := 1

  type Block = b: seq<int> | |b| == BLOCKWORDS witness seq(BLOCKWORDS, _ => 0)

  const ZEROBLOCK: Block := seq(BLOCKWORDS, _ => 0)

  /** The superblock fields the log uses.  `opMax` is how many distinct blocks one file
      system operation may log; the source relies on opMax <= MAXOPBLOCKS. */
  datatype Layout = Layout(size: nat, logStart: nat, nlog: nat, opMax: nat) {
    ghost predicate Ok() {
      1 <= nlog && logStart + nlog <= size && 1 <= opMax <= MAXOPBLOCKS
    }

    predicate Home(b: int) {
      0 <= b < size && !(logStart <= b < logStart + nlog)
    }

    /** Where the k-th logged block lives. */
    function Slot(k: int): int {
      logStart + 1 + k
    }

    ghost predicate IsDisk(d: seq<Block>) {
      |d| == size
    }
  }

  /** A header that write_head can have produced: a count that fits, and distinct home blocks. */
  ghost predicate HeadOk(c: Layout, b: Block) {
    && 0 <= b[0] <= LOGSIZE
    && b[0] < c.nlog
    && (forall k :: 1 <= k <= b[0] ==> c.Home(b[k]))
    && Distinct(b[1..1 + b[0]])
  }

  /** read_head: the block numbers listed in a header block. */
  function Head(b: Block): (h: seq<int>)
    requires 0 <= b[0] < BLOCKWORDS
  {
    b[1..1 + b[0]]
  }

  /** write_head: the list replaces the leading words, stale words after it stay. */
  function PutHead(b: Block, h: seq<int>): Block
    requires |h| < BLOCKWORDS
  {
    [|h|] + h + b[1 + |h|..]
  }

  lemma HeadRoundTrip(b: Block, h: seq<int>)
    requires |h| < BLOCKWORDS
    ensures Head(PutHead(b, h)) == h
    ensures forall k :: 1 + |h| <= k < BLOCKWORDS ==> PutHead(b, h)[k] == b[k]
  {
    assert PutHead(b, h)[1..1 + |h|] == h;
  }

  /** The last position at which b is listed, or -1. */
  function Find(h: seq<int>, b: int): (k: int)
    ensures -1 <= k < |h|
    ensures 0 <= k ==> h[k] == b
    ensures forall j :: k < j < |h| ==> h[j] != b
  {
    if |h| == 0 then -1
    else if h[|h| - 1] == b then |h| - 1
    else Find(h[..|h| - 1], b)
  }

  /** What home block b holds once the log on disk d is replayed. */
  function ReplayAt(c: Layout, d: seq<Block>, b: int): Block
    requires c.Ok() && c.IsDisk(d) && HeadOk(c, d[c.logStart]) && c.Home(b)
  {
    var k := Find(Head(d[c.logStart]), b);
    if k < 0 then d[b] else d[c.Slot(k)]
  }

  /** The home blocks as recovery will leave them. */
  function Replay(c: Layout, d: seq<Block>): map<int, Block>
    requires c.Ok() && c.IsDisk(d) && HeadOk(c, d[c.logStart])
  {
    map b | 0 <= b < c.size && c.Home(b) :: ReplayAt(c, d, b)
  }

  /** The home blocks as they are on disk d. */
  function HomeOf(c: Layout, d: seq<Block>): map<int, Block>
    requires c.Ok() && c.IsDisk(d)
  {
    map b | 0 <= b < c.size && c.Home(b) :: d[b]
  }
}

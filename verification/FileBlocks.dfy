/** A disk block as bytes, and the two things fs.c keeps in one besides file data: bitmap bits and
    little-endian 32-bit block numbers. */
module FileBlocks {
  const BSIZE := 1024
  const BPB := 8192           // bitmap bits in a block
  const NINDIRECT := 256      // block numbers in a block

  newtype byte = x: int | 0 <= x < 256

  type Bytes = b: seq<byte> | |b| == 1024 witness seq(1024, _ => 0)

  function Zero(): (r: Bytes)
    ensures forall i :: 0 <= i < BSIZE ==> r[i] == 0
  {
    seq(BSIZE, _ => 0)
  }

  // ---------------------------------------------------------------- bits

  /** 1 << j. */
  function Mask(j: nat): (m: nat)
    ensures m > 0
  {
    if j == 0 then 1 else 2 * Mask(j - 1)
  }

  /** Bit j of v. */
  predicate Bit(v: nat, j: nat)
    decreases j
  {
    if j == 0 then v % 2 == 1 else Bit(v / 2, j - 1)
  }

  predicate BitAt(b: Bytes, i: nat)
    requires i < BPB
  {
    Bit(b[i / 8] as nat, i % 8)
  }

  /** v | 1 << j, for a bit that is clear: no other bit changes, and v stays within its width. */
  lemma {:induction false} SetBit(v: nat, j: nat, n: nat)
    requires !Bit(v, j) && j < n && v < Mask(n)
    ensures v + Mask(j) < Mask(n)
    ensures forall k: nat :: Bit(v + Mask(j), k) == (k == j || Bit(v, k))
    decreases j
  {
    if j == 0 {
      assert Mask(n) % 2 == 0;
      forall k: nat ensures Bit(v + 1, k) == (k == 0 || Bit(v, k)) {
        assert (v + 1) / 2 == v / 2;
      }
    } else {
      SetBit(v / 2, j - 1, n - 1);
      forall k: nat ensures Bit(v + Mask(j), k) == (k == j || Bit(v, k)) {
        assert (v + Mask(j)) / 2 == v / 2 + Mask(j - 1);
        if k > 0 { assert Bit(v / 2 + Mask(j - 1), k - 1) == (k - 1 == j - 1 || Bit(v / 2, k - 1)); }
      }
    }
  }

  /** v & ~(1 << j), for a bit that is set. */
  lemma {:induction false} ClearBit(v: nat, j: nat)
    requires Bit(v, j)
    ensures Mask(j) <= v
    ensures forall k: nat :: Bit(v - Mask(j), k) == (k != j && Bit(v, k))
    decreases j
  {
    if j == 0 {
      forall k: nat ensures Bit(v - 1, k) == (k != 0 && Bit(v, k)) {
        assert (v - 1) / 2 == v / 2;
      }
    } else {
      ClearBit(v / 2, j - 1);
      forall k: nat ensures Bit(v - Mask(j), k) == (k != j && Bit(v, k)) {
        assert (v - Mask(j)) / 2 == v / 2 - Mask(j - 1);
        if k > 0 { assert Bit(v / 2 - Mask(j - 1), k - 1) == (k - 1 != j - 1 && Bit(v / 2, k - 1)); }
      }
    }
  }

  lemma MaskEight()
    ensures Mask(8) == 256
  {
    assert Mask(4) == 16;
  }

  /** A bitmap block with bit i set, or cleared. */
  function WithBit(b: Bytes, i: nat, used: bool): (r: Bytes)
    requires i < BPB && BitAt(b, i) == !used
    ensures forall k: nat :: k < BPB ==> BitAt(r, k) == if k == i then used else BitAt(b, k)
  {
    var v := b[i / 8] as nat;
    MaskEight();
    if used then
      SetBit(v, i % 8, 8);
      b[i / 8 := (v + Mask(i % 8)) as byte]
    else
      ClearBit(v, i % 8);
      b[i / 8 := (v - Mask(i % 8)) as byte]
  }

  // ---------------------------------------------------------------- block numbers

  /** The k-th uint of a block, little-endian. */
  function Word(b: Bytes, k: nat): nat
    requires k < NINDIRECT
  {
    b[4 * k] as nat + 0x100 * (b[4 * k + 1] as nat) + 0x10000 * (b[4 * k + 2] as nat) + 0x1000000 * (b[4 * k + 3] as nat)
  }

  function WithWord(b: Bytes, k: nat, v: nat): (r: Bytes)
    requires k < NINDIRECT && v < 0x1_0000_0000
    ensures forall j: nat :: j < NINDIRECT ==> Word(r, j) == if j == k then v else Word(b, j)
  {
    var v1, v2, v3 := v / 0x100, v / 0x100 / 0x100, v / 0x100 / 0x100 / 0x100;
    b[4 * k := (v % 0x100) as byte][4 * k + 1 := (v1 % 0x100) as byte]
     [4 * k + 2 := (v2 % 0x100) as byte][4 * k + 3 := v3 as byte]
  }

  lemma ZeroWords(k: nat)
    requires k < NINDIRECT
    ensures Word(Zero(), k) == 0
  {
  }
}

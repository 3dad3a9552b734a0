/**
  Bytes, bits and their packing.  Bit `i` of a byte is `(byte >> i) & 1`, bit `k` of a buffer is
  bit `k % 8` of byte `k / 8`, so bits are packed least significant first.
 */
module Bits {

  type Bytes = seq<bv8>

  /** `1 << i` */
  function BitMask(i: nat): bv8
    requires i < 8
  {
    match i
    case 0 => 0x01
    case 1 => 0x02
    case 2 => 0x04
    case 3 => 0x08
    case 4 => 0x10
    case 5 => 0x20
    case 6 => 0x40
    case _ => 0x80
  }

  predicate GetBit(b: bv8, i: nat)
    requires i < 8
  {
    b & BitMask(i) != 0
  }

  /** SET_BIT or CLEAR_BIT: no other bit of the byte changes. */
  function PutBit(b: bv8, i: nat, v: bool): (r: bv8)
    requires i < 8
    ensures forall j: nat | j < 8 :: GetBit(r, j) == if j == i then v else GetBit(b, j)
  {
    if v then b | BitMask(i) else b & !BitMask(i)
  }

  lemma SameBits(a: bv8, b: bv8)
    requires forall j: nat | j < 8 :: GetBit(a, j) == GetBit(b, j)
    ensures a == b
  {
    assert GetBit(a, 0) == GetBit(b, 0) && GetBit(a, 1) == GetBit(b, 1);
    assert GetBit(a, 2) == GetBit(b, 2) && GetBit(a, 3) == GetBit(b, 3);
    assert GetBit(a, 4) == GetBit(b, 4) && GetBit(a, 5) == GetBit(b, 5);
    assert GetBit(a, 6) == GetBit(b, 6) && GetBit(a, 7) == GetBit(b, 7);
  }

  /** A C `bool` used as a number. */
  function One(b: bool): nat {
    if b then 1 else 0
  }

  /** The number of one bits of a byte. */
  function Pop(b: bv8): (n: nat)
    ensures n <= 8
  {
    One(GetBit(b, 0)) + One(GetBit(b, 1)) + One(GetBit(b, 2)) + One(GetBit(b, 3)) +
    One(GetBit(b, 4)) + One(GetBit(b, 5)) + One(GetBit(b, 6)) + One(GetBit(b, 7))
  }

  /** The number a byte stands for. */
  function BitSum(b: bv8): nat {
    128 * BitNum(b, 7) + 64 * BitNum(b, 6) + 32 * BitNum(b, 5) + 16 * BitNum(b, 4) +
    8 * BitNum(b, 3) + 4 * BitNum(b, 2) + 2 * BitNum(b, 1) + BitNum(b, 0)
  }

  function BitNum(b: bv8, i: nat): nat
    requires i < 8
  {
    One(GetBit(b, i))
  }

  lemma ByteValue(b: bv8)
    ensures (b as nat) == BitSum(b)
  {
  }

  lemma Complement(b: bv8)
    ensures Pop(!b) == 8 - Pop(b)
  {
  }

  predicate BitAt(data: Bytes, k: nat)
    requires k < 8 * |data|
  {
    GetBit(data[k / 8], k % 8)
  }

  /** All bits of a buffer. */
  function Unpack(data: Bytes): (bits: seq<bool>)
    ensures |bits| == 8 * |data|
  {
    seq(8 * |data|, k requires 0 <= k < 8 * |data| => BitAt(data, k))
  }

  function PackByte(bits: seq<bool>): (b: bv8)
    requires |bits| == 8
    ensures forall j: nat | j < 8 :: GetBit(b, j) == bits[j]
  {
    var b0 := PutBit(0, 0, bits[0]);
    var b1 := PutBit(b0, 1, bits[1]);
    var b2 := PutBit(b1, 2, bits[2]);
    var b3 := PutBit(b2, 3, bits[3]);
    var b4 := PutBit(b3, 4, bits[4]);
    var b5 := PutBit(b4, 5, bits[5]);
    var b6 := PutBit(b5, 6, bits[6]);
    PutBit(b6, 7, bits[7])
  }

  /** The whole bytes of a bit sequence; up to 7 bits at the end are dropped. */
  function Pack(bits: seq<bool>): (data: Bytes)
    ensures |data| == |bits| / 8
  {
    seq(|bits| / 8, i requires 0 <= i < |bits| / 8 => PackByte(bits[8 * i..8 * i + 8]))
  }

  lemma UnpackPack(bits: seq<bool>)
    requires |bits| % 8 == 0
    ensures Unpack(Pack(bits)) == bits
  {
    hide GetBit, PackByte;
    forall k: nat | k < |bits| ensures Unpack(Pack(bits))[k] == bits[k] {
      assert bits[8 * (k / 8)..8 * (k / 8) + 8][k % 8] == bits[k];
    }
  }

  lemma UnpackAppend(a: Bytes, b: Bytes)
    ensures Unpack(a + b) == Unpack(a) + Unpack(b)
  {
    hide GetBit;
    forall k: nat | k < 8 * |a + b| ensures Unpack(a + b)[k] == (Unpack(a) + Unpack(b))[k] {
      if k >= 8 * |a| {
        var j := k - 8 * |a|;
        assert k / 8 == |a| + j / 8 && k % 8 == j % 8;
        assert (a + b)[k / 8] == b[j / 8];
      }
    }
  }

  lemma SameBytes(a: Bytes, b: Bytes)
    requires Unpack(a) == Unpack(b)
    ensures a == b
  {
    hide GetBit;
    assert |a| == |b|;
    forall i: nat | i < |a| ensures a[i] == b[i] {
      forall j: nat | j < 8 ensures GetBit(a[i], j) == GetBit(b[i], j) {
        assert Unpack(a)[8 * i + j] == Unpack(b)[8 * i + j];
      }
      SameBits(a[i], b[i]);
    }
  }

  lemma PackUnpack(data: Bytes)
    ensures Pack(Unpack(data)) == data
  {
    UnpackPack(Unpack(data));
    SameBytes(Pack(Unpack(data)), data);
  }

  /** How many bits are set. */
  function Count(bits: seq<bool>): (n: nat)
    ensures n <= |bits|
  {
    if bits == [] then 0 else Count(bits[..|bits| - 1]) + One(bits[|bits| - 1])
  }

  lemma {:induction false} CountAppend(a: seq<bool>, b: seq<bool>)
    ensures Count(a + b) == Count(a) + Count(b)
    decreases |b|
  {
    if b == [] {
      assert a + b == a;
    } else {
      CountAppend(a, b[..|b| - 1]);
      assert (a + b)[..|a + b| - 1] == a + b[..|b| - 1];
    }
  }

  /** Hamming weight of a buffer: the sum of its bytes' weights. */
  function Weight(data: Bytes): nat {
    if data == [] then 0 else Weight(data[..|data| - 1]) + Pop(data[|data| - 1])
  }
}

/**
  The growing bit array of the PUF library: a byte buffer that starts with arbitrary contents and a
  count of valid bits, as a packed form of a sequence of booleans.
 */
module BitArrays {
  import opened Bits

  class BitArray {
    const data: array<bv8>
    var bitLen: nat

    ghost predicate Valid()
      reads this
    {
      bitLen <= 8 * data.Length
    }

    ghost function Contents(): (bits: seq<bool>)
      requires Valid()
      reads this, data
      ensures |bits| == bitLen
    {
      Unpack(data[..])[..bitLen]
    }

    /** The bytes of a new buffer are whatever the memory held. */
    constructor (len: nat)
      ensures Valid() && fresh(data) && data.Length == len && Contents() == []
    {
      data := new bv8[len];
      bitLen := 0;
    }

    method Get(bitNum: nat) returns (bit: bool)
      requires Valid() && bitNum < bitLen
      ensures bit == Contents()[bitNum]
    {
      bit := GetBit(data[bitNum / 8], bitNum % 8);
    }

    method Set(bitNum: nat, bit: bool)
      requires Valid() && bitNum < bitLen
      modifies data
      ensures Valid() && Contents() == old(Contents())[bitNum := bit]
    {
      ghost var bytes := data[..];
      data[bitNum / 8] := PutBit(data[bitNum / 8], bitNum % 8, bit);
      assert data[..] == bytes[bitNum / 8 := PutBit(bytes[bitNum / 8], bitNum % 8, bit)];
      PutUnpacks(bytes, bitNum, bit);
    }

    /** `ok` is false where the assertion that the buffer still has room fails. */
    method Append(bit: bool) returns (ok: bool)
      requires Valid()
      modifies this`bitLen, data
      ensures Valid()
      ensures ok == (old(bitLen) < 8 * data.Length)
      ensures Contents() == if ok then old(Contents()) + [bit] else old(Contents())
    {
      if bitLen >= 8 * data.Length {
        return false;
      }
      bitLen := bitLen + 1;
      assert Contents()[..bitLen - 1] == old(Contents());
      Set(bitLen - 1, bit);
      return true;
    }

    method Remove()
      requires Valid() && bitLen > 0
      modifies this`bitLen
      ensures Valid() && Contents() == old(Contents()[..bitLen - 1])
    {
      bitLen := bitLen - 1;
    }

    /** Only whole bytes are copied; the rest of the target keeps what it held. */
    method CopyData(buffer: array<bv8>) returns (validBytes: nat)
      requires Valid() && bitLen / 8 <= buffer.Length && buffer != data
      modifies buffer
      ensures validBytes == bitLen / 8
      ensures buffer[..] == Pack(Contents()) + old(buffer[validBytes..])
    {
      validBytes := bitLen / 8;
      forall i | 0 <= i < validBytes {
        buffer[i] := data[i];
      }
      PrefixPacks(data[..], bitLen);
      assert buffer[..validBytes] == data[..validBytes];
      assert buffer[..] == buffer[..validBytes] + buffer[validBytes..];
    }
  }

  lemma PutUnpacks(data: Bytes, n: nat, bit: bool)
    requires n < 8 * |data|
    ensures Unpack(data[n / 8 := PutBit(data[n / 8], n % 8, bit)]) == Unpack(data)[n := bit]
  {
    hide GetBit, PutBit;
    var after := data[n / 8 := PutBit(data[n / 8], n % 8, bit)];
    forall k: nat | k < 8 * |data| ensures Unpack(after)[k] == Unpack(data)[n := bit][k] {
      assert k == 8 * (k / 8) + k % 8 && n == 8 * (n / 8) + n % 8;
      if k / 8 == n / 8 {
        assert GetBit(after[k / 8], k % 8) == if k % 8 == n % 8 then bit else GetBit(data[k / 8], k % 8);
      }
    }
  }

  lemma PrefixPacks(data: Bytes, n: nat)
    requires n <= 8 * |data|
    ensures Pack(Unpack(data)[..n]) == data[..n / 8]
  {
    hide GetBit, PackByte;
    var bits := Unpack(data)[..n];
    forall i: nat | i < n / 8 ensures Pack(bits)[i] == data[i] {
      forall j: nat | j < 8 ensures GetBit(Pack(bits)[i], j) == GetBit(data[i], j) {
        assert bits[8 * i..8 * i + 8][j] == bits[8 * i + j];
      }
      SameBits(Pack(bits)[i], data[i]);
    }
  }

  /** array_getBit */
  method ArrayGetBit(data: array<bv8>, bitNum: nat) returns (bit: bool)
    requires bitNum < 8 * data.Length
    ensures bit == Unpack(data[..])[bitNum]
  {
    bit := GetBit(data[bitNum / 8], bitNum % 8);
  }
}

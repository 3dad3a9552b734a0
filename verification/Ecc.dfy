/**
  The loops of the helper-data scheme over its buffers, each proved against the functions of
  EccSpec.  A result `ok == false` stands for a failing C assertion.
 */
module Ecc {
  import opened Bits
  import opened BitArrays
  import opened EccSpec
  import opened EccTables

  method HammingWeight(data: array<bv8>) returns (counter: nat)
    ensures counter == Weight(data[..])
    ensures counter == Count(Unpack(data[..]))
  {
    counter := 0;
    for i := 0 to data.Length
      invariant counter == Weight(data[..i])
    {
      TablesTabulate(data[i]);
      assert data[..i + 1][..i] == data[..i];
      counter := counter + HwTable(data[i]);
    }
    assert data[..] == data[..data.Length];
    WeightCounts(data[..]);
  }

  lemma {:induction false} WeightCounts(data: Bytes)
    ensures Weight(data) == Count(Unpack(data))
  {
    hide Pop, GetBit;
    if data == [] {
    } else {
      var init, b := data[..|data| - 1], data[|data| - 1];
      WeightCounts(init);
      ByteCounts(b);
      assert data == init + [b];
      UnpackAppend(init, [b]);
      CountAppend(Unpack(init), Unpack([b]));
    }
  }

  lemma CountSnoc(bits: seq<bool>, bit: bool)
    ensures Count(bits + [bit]) == Count(bits) + One(bit)
  {
    assert (bits + [bit])[..|bits|] == bits;
  }

  lemma CountOfFour(b0: bool, b1: bool, b2: bool, b3: bool)
    ensures Count([b0, b1, b2, b3]) == One(b0) + One(b1) + One(b2) + One(b3)
  {
    CountSnoc([], b0);
    CountSnoc([b0], b1);
    CountSnoc([b0, b1], b2);
    CountSnoc([b0, b1, b2], b3);
    assert [] + [b0] == [b0] && [b0] + [b1] == [b0, b1] && [b0, b1] + [b2] == [b0, b1, b2];
    assert [b0, b1, b2] + [b3] == [b0, b1, b2, b3];
  }

  lemma ByteCounts(b: bv8)
    ensures Count(Unpack([b])) == Pop(b)
  {
    hide Count, BitMask;
    var low := [GetBit(b, 0), GetBit(b, 1), GetBit(b, 2), GetBit(b, 3)];
    var high := [GetBit(b, 4), GetBit(b, 5), GetBit(b, 6), GetBit(b, 7)];
    CountOfFour(GetBit(b, 0), GetBit(b, 1), GetBit(b, 2), GetBit(b, 3));
    CountOfFour(GetBit(b, 4), GetBit(b, 5), GetBit(b, 6), GetBit(b, 7));
    CountAppend(low, high);
    UnpackByte(b);
  }

  lemma UnpackByte(b: bv8)
    ensures Unpack([b]) == [GetBit(b, 0), GetBit(b, 1), GetBit(b, 2), GetBit(b, 3)] +
                           [GetBit(b, 4), GetBit(b, 5), GetBit(b, 6), GetBit(b, 7)]
  {
    hide GetBit;
  }

  method GenerateEccData(pufReference: array<bv8>, eccData: array<bv8>)
    requires eccData.Length == pufReference.Length && eccData != pufReference
    modifies eccData
    ensures eccData[..] == EccData(pufReference[..], pufReference[..])
  {
    for i := 0 to pufReference.Length
      invariant forall k | 0 <= k < i :: eccData[k] == EccByte(pufReference[k], pufReference[k])
    {
      if HighestBit(pufReference[i]) {
        eccData[i] := !pufReference[i];
      } else {
        eccData[i] := pufReference[i];
      }
    }
  }

  method GenerateEccDataTemplate(pufReference: array<bv8>, templateReference: array<bv8>, eccData: array<bv8>)
    requires eccData.Length == pufReference.Length == templateReference.Length
    requires eccData != pufReference && eccData != templateReference
    modifies eccData
    ensures eccData[..] == EccData(pufReference[..], templateReference[..])
  {
    for i := 0 to pufReference.Length
      invariant forall k | 0 <= k < i :: eccData[k] == EccByte(pufReference[k], templateReference[k])
    {
      if HighestBit(templateReference[i]) {
        eccData[i] := !pufReference[i];
      } else {
        eccData[i] := pufReference[i];
      }
    }
  }

  /** One code word of the decoder: what the tables say of it is its majority and its error count. */
  lemma WordDecodes(codeWord: bv8)
    ensures (MajorityTable(codeWord) != 0) == Majority(codeWord)
    ensures HwTable(if Majority(codeWord) then !codeWord else codeWord) == WordErrors(codeWord)
  {
    hide HwTable, MajorityTable;
    TablesTabulate(codeWord);
    TablesTabulate(!codeWord);
    Complement(codeWord);
  }

  lemma DecodeStep(masked: Bytes, ecc: Bytes, i: nat)
    requires i < |masked| == |ecc|
    ensures Decode(masked, ecc)[..i + 1] == Decode(masked, ecc)[..i] + [Majority(CodeWord(masked[i], ecc[i]))]
  {
    var bits := Decode(masked, ecc);
    assert bits[i] == Majority(CodeWord(masked[i], ecc[i]));
    assert bits[..i + 1] == bits[..i] + [bits[i]];
  }

  lemma ErrorCountStep(masked: Bytes, ecc: Bytes, i: nat)
    requires i < |masked| == |ecc|
    ensures ErrorCount(masked[..i + 1], ecc[..i + 1]) ==
            ErrorCount(masked[..i], ecc[..i]) + WordErrors(CodeWord(masked[i], ecc[i]))
  {
    hide WordErrors, CodeWord;
    assert masked[..i + 1][..i] == masked[..i] && ecc[..i + 1][..i] == ecc[..i];
  }

  method CorrectData(maskedData: array<bv8>, eccData: array<bv8>, result: array<bv8>) returns (ok: bool, errors: nat)
    requires maskedData.Length == eccData.Length && result.Length == maskedData.Length / 8
    modifies result
    ensures ok == (maskedData.Length % 8 == 0)
    ensures !ok ==> result[..] == old(result[..])
    ensures ok ==> result[..] == Pack(Decode(old(maskedData[..]), old(eccData[..])))
    ensures ok ==> errors == ErrorCount(old(maskedData[..]), old(eccData[..]))
  {
    hide Decode, ErrorCount, Majority, WordErrors, HwTable, MajorityTable, Pack, BitArray.Contents;
    ghost var masked, ecc := maskedData[..], eccData[..];
    var arr: BitArray := new BitArray(result.Length);
    errors := 0;
    EmptyErrors();
    for i := 0 to maskedData.Length
      modifies arr, arr.data
      invariant arr.Valid() && arr.Contents() == Decode(masked, ecc)[..i]
      invariant errors == ErrorCount(masked[..i], ecc[..i])
    {
      var codeWord := maskedData[i] ^ eccData[i];
      WordDecodes(codeWord);
      DecodeStep(masked, ecc, i);
      ErrorCountStep(masked, ecc, i);
      ok := arr.Append(MajorityTable(codeWord) != 0);
      if !ok {
        return false, errors;
      }
      if MajorityTable(codeWord) != 0 {
        codeWord := !codeWord;
      }
      errors := errors + HwTable(codeWord);
    }
    assert masked[..|masked|] == masked && ecc[..|ecc|] == ecc;
    assert arr.Contents() == Decode(masked, ecc);
    var _ := arr.CopyData(result);
    ok := true;
  }

  lemma EmptyErrors()
    ensures ErrorCount([], []) == 0
  {
  }

  lemma EmptyCount()
    ensures Count([]) == 0
  {
  }

  method CreatePufMask(pufFreq: array<uint16>, mask: array<bv8>) returns (maskHw: nat)
    requires pufFreq.Length == 8 * mask.Length
    modifies mask
    ensures mask[..] == Pack(StableBits(pufFreq[..]))
    ensures maskHw == Floor64(Count(StableBits(pufFreq[..])))
  {
    hide Unpack, Pack, BitArray.Contents, Round, Count;
    ghost var bits := StableBits(pufFreq[..]);
    assert Count(bits[..0]) == 0 by {
      EmptyCount();
    }
    var arr: BitArray := new BitArray(mask.Length);
    maskHw := 0;
    for i := 0 to pufFreq.Length
      modifies arr, arr.data
      invariant arr.Valid() && arr.Contents() == bits[..i]
      invariant maskHw == Count(bits[..i])
    {
      var bit := pufFreq[i] >= MASK_UPPER_BOUND || pufFreq[i] <= MASK_LOWER_BOUND;
      maskHw := maskHw + One(bit);
      var ok := arr.Append(bit);
      assert bits[..i + 1] == bits[..i] + [bit];
      CountSnoc(bits[..i], bit);
    }
    assert bits[..pufFreq.Length] == bits;
    maskHw := maskHw - maskHw % 64;
    var _ := arr.CopyData(mask);
  }

  method CreatePufReference(pufFreq: array<uint16>, pufReference: array<bv8>)
    requires pufFreq.Length == 8 * pufReference.Length
    modifies pufReference
    ensures pufReference[..] == Pack(ReferenceBits(pufFreq[..]))
  {
    hide Unpack, Pack, BitArray.Contents;
    ghost var bits := ReferenceBits(pufFreq[..]);
    var arr: BitArray := new BitArray(pufReference.Length);
    for i := 0 to pufFreq.Length
      modifies arr, arr.data
      invariant arr.Valid() && arr.Contents() == bits[..i]
    {
      var bit := pufFreq[i] > PROVISIONING_MEASUREMENTS / 2;
      var ok := arr.Append(bit);
      assert bits[..i + 1] == bits[..i] + [bit];
    }
    assert bits[..pufFreq.Length] == bits;
    var _ := arr.CopyData(pufReference);
  }

  /** Selecting from a prefix gives a prefix of the whole selection. */
  lemma {:induction false} SelectPrefix(mask: seq<bool>, data: seq<bool>, i: nat)
    requires i <= |mask| == |data|
    ensures Select(mask[..i], data[..i]) <= Select(mask, data)
    decreases |mask| - i
  {
    if i == |mask| {
      assert mask[..i] == mask && data[..i] == data;
    } else {
      SelectPrefix(mask, data, i + 1);
      assert mask[..i + 1][..i] == mask[..i] && data[..i + 1][..i] == data[..i];
    }
  }

  lemma SelectStep(mask: seq<bool>, data: seq<bool>, i: nat)
    requires i < |mask| == |data|
    ensures Select(mask[..i + 1], data[..i + 1]) == Select(mask[..i], data[..i]) + if mask[i] then [data[i]] else []
  {
    assert mask[..i + 1][..i] == mask[..i] && data[..i + 1][..i] == data[..i];
  }

  /** The last bit that was appended did not fit. */
  lemma ApplyFails(mask: seq<bool>, maskHw: nat, data: seq<bool>, i: nat)
    requires i <= |mask| == |data|
    requires |Select(mask[..i], data[..i])| > 8 * (maskHw / 8)
    requires |Select(mask[..i], data[..i])| == 1 || |Select(mask[..i], data[..i])| <= maskHw
    ensures !CanApply(mask, maskHw)
  {
    SelectPrefix(mask, data, i);
  }

  /** Every appended bit fitted, and masking stopped with enough bits or at the end of the data. */
  lemma ApplySucceeds(mask: seq<bool>, maskHw: nat, data: seq<bool>, i: nat)
    requires i <= |mask| == |data|
    requires |Select(mask[..i], data[..i])| <= 8 * (maskHw / 8)
    requires |Select(mask[..i], data[..i])| == maskHw > 0 || (i == |mask| && |Select(mask[..i], data[..i])| <= maskHw)
    ensures CanApply(mask, maskHw)
    ensures Select(mask[..i], data[..i]) == MaskedBits(mask, maskHw, data)
  {
    SelectPrefix(mask, data, i);
    if i == |mask| {
      assert mask[..i] == mask && data[..i] == data;
    }
  }

  method ApplyPufMask(mask: array<bv8>, maskHw: nat, pufResponse: array<bv8>, result: array<bv8>) returns (ok: bool)
    requires mask.Length == pufResponse.Length && result.Length == maskHw / 8
    modifies result
    ensures ok == CanApply(Unpack(old(mask[..])), maskHw)
    ensures !ok ==> result[..] == old(result[..])
    ensures ok ==>
              var masked := Pack(MaskedBits(Unpack(old(mask[..])), maskHw, Unpack(old(pufResponse[..]))));
              |masked| <= result.Length && result[..] == masked + old(result[..])[|masked|..]
  {
    hide Unpack, Pack, Select, Count, MaskedBits, CanApply, BitArray.Contents;
    ghost var m, d := Unpack(mask[..]), Unpack(pufResponse[..]);
    var arr: BitArray := new BitArray(result.Length);
    var bitCounter := 0;
    assert Select([], []) == [] by {
      EmptySelect();
    }
    var i := 0;
    while i < 8 * mask.Length
      modifies arr, arr.data
      invariant 0 <= i <= |m|
      invariant arr.Valid() && bitCounter == arr.bitLen && arr.Contents() == Select(m[..i], d[..i])
      invariant bitCounter == 0 || bitCounter < maskHw
    {
      SelectStep(m, d, i);
      assert mask[..] == old(mask[..]) && pufResponse[..] == old(pufResponse[..]);
      var masked := ArrayGetBit(mask, i);
      i := i + 1;
      if masked {
        var bit := ArrayGetBit(pufResponse, i - 1);
        ok := arr.Append(bit);
        if !ok {
          ApplyFails(m, maskHw, d, i);
          return false;
        }
        bitCounter := bitCounter + 1;
        if bitCounter >= maskHw {
          break;
        }
      }
    }
    ApplySucceeds(m, maskHw, d, i);
    assert arr.Contents() == MaskedBits(m, maskHw, d);
    var _ := arr.CopyData(result);
    ok := true;
  }

  lemma EmptySelect()
    ensures Select([], []) == []
  {
  }
}

/**
  The mask, the reference and the response, told from the captures alone: which bits are masked, what
  the reference says of them, and which of them make up the response.
 */
module EccExact {
  import opened Bits
  import opened EccSpec
  import opened EccTheorems

  // ---------- counting captures ----------

  /** The captures in which bit `j` is set. */
  function Holders(captures: seq<Bytes>, j: nat): set<nat>
    requires forall c | c in captures :: j < 8 * |c|
  {
    set i: nat | i < |captures| && Unpack(captures[i])[j]
  }

  /** A frequency is a number of captures. */
  lemma {:induction false} FrequencyCounts(captures: seq<Bytes>, j: nat)
    requires forall c | c in captures :: j < 8 * |c|
    ensures Frequency(captures, j) == |Holders(captures, j)|
  {
    hide Unpack, Holders;
    if captures == [] {
      NoHolders(captures, j);
    } else {
      var before := captures[..|captures| - 1];
      assert forall c | c in before :: c in captures;
      FrequencyCounts(before, j);
      HoldersStep(captures, j);
    }
  }

  lemma NoHolders(captures: seq<Bytes>, j: nat)
    requires captures == []
    ensures Holders(captures, j) == {}
  {
  }

  lemma HoldersStep(captures: seq<Bytes>, j: nat)
    requires captures != [] && forall c | c in captures :: j < 8 * |c|
    ensures var before, last := captures[..|captures| - 1], |captures| - 1;
            (forall c | c in before :: j < 8 * |c|)
            && |Holders(captures, j)| == |Holders(before, j)| + One(Unpack(captures[last])[j])
  {
    hide Unpack;
    var before, last := captures[..|captures| - 1], |captures| - 1;
    assert forall c | c in before :: c in captures;
    var all, some := Holders(captures, j), Holders(before, j);
    forall i: nat ensures i in all <==> i in some || (i == last && Unpack(captures[last])[j]) {
      assert i < last ==> before[i] == captures[i];
    }
    assert last !in some;
    assert all == if Unpack(captures[last])[j] then some + {last} else some;
  }

  predicate Agree(captures: seq<Bytes>, j: nat)
    requires forall c | c in captures :: j < 8 * |c|
  {
    forall x, y | x in captures && y in captures :: Unpack(x)[j] == Unpack(y)[j]
  }

  lemma {:induction false} AgreeingFrequency(captures: seq<Bytes>, j: nat)
    requires captures != [] && (forall c | c in captures :: j < 8 * |c|) && Agree(captures, j)
    ensures Frequency(captures, j) == if Unpack(captures[0])[j] then |captures| else 0
  {
    hide Unpack;
    if |captures| > 1 {
      var before := captures[..|captures| - 1];
      assert forall c | c in before :: c in captures;
      AgreeingFrequency(before, j);
    }
    assert captures[|captures| - 1] in captures && captures[0] in captures;
    if |captures| == 1 {
      assert captures[..0] == [];
    }
  }

  /** A bit is masked as stable if and only if all 20 captures agree on it. */
  lemma StableIff(captures: seq<Bytes>, size: nat, j: nat)
    requires |captures| == PROVISIONING_MEASUREMENTS && (forall x | x in captures :: |x| == size) && j < 8 * size
    ensures StableBits(Frequencies(captures, size))[j] <==> Agree(captures, j)
  {
    hide Unpack, Frequency, ReferenceBits;
    Bounds();
    assert Frequencies(captures, size)[j] == Frequency(captures, j);
    if StableBits(Frequencies(captures, size))[j] {
      forall x, y | x in captures && y in captures ensures Unpack(x)[j] == Unpack(y)[j] {
        StableBitsAgree(captures, size, x, j);
        StableBitsAgree(captures, size, y, j);
      }
    }
    if Agree(captures, j) {
      AgreeingFrequency(captures, j);
    }
  }

  /** A reference bit is 1 if and only if more than 10 of the 20 captures hold a 1. */
  lemma ReferenceIff(captures: seq<Bytes>, size: nat, j: nat)
    requires |captures| == PROVISIONING_MEASUREMENTS && (forall x | x in captures :: |x| == size) && j < 8 * size
    ensures ReferenceBits(Frequencies(captures, size))[j] <==> |Holders(captures, j)| > 10
  {
    hide Unpack, Frequency;
    FrequencyCounts(captures, j);
    assert Frequencies(captures, size)[j] == Frequency(captures, j);
  }

  // ---------- which bits are used, and where they go ----------

  /** Selection keeps the order: a set position of the mask lands behind the set positions before it. */
  lemma {:induction false} SelectAt(mask: seq<bool>, data: seq<bool>, i: nat)
    requires |mask| == |data| && i < |mask| && mask[i]
    ensures Count(mask[..i]) < Count(mask) && Select(mask, data)[Count(mask[..i])] == data[i]
    decreases |mask|
  {
    var last := |mask| - 1;
    CountLast(mask);
    if i < last {
      SelectAt(mask[..last], data[..last], i);
      assert mask[..last][..i] == mask[..i];
    }
  }

  lemma CountLast(bits: seq<bool>)
    requires bits != []
    ensures Count(bits) == Count(bits[..|bits| - 1]) + One(bits[|bits| - 1])
  {
    assert bits == bits[..|bits| - 1] + [bits[|bits| - 1]];
    CountAppend(bits[..|bits| - 1], [bits[|bits| - 1]]);
    assert [bits[|bits| - 1]][..0] == [] && [bits[|bits| - 1]][1..] == [];
  }

  /** The weight used is the largest multiple of 64 that both masks reach. */
  lemma MaskWeightIs(freqRtc: seq<nat>, freqSleep: seq<nat>, n: nat)
    requires n % 64 == 0
    ensures MaskWeight(freqRtc, freqSleep) % 64 == 0
    ensures n <= Count(StableBits(freqRtc)) && n <= Count(StableBits(freqSleep))
            <==> n <= MaskWeight(freqRtc, freqSleep)
  {
    hide Count, StableBits;
    LargestMultiple(Count(StableBits(freqRtc)), n);
    LargestMultiple(Count(StableBits(freqSleep)), n);
  }

  lemma LargestMultiple(m: nat, n: nat)
    requires n % 64 == 0
    ensures Floor64(m) % 64 == 0 && (n <= m <==> n <= Floor64(m))
  {
  }

  /** The template bit of a byte is the one worth 128. */
  lemma HighestBitIs(b: bv8)
    ensures HighestBit(b) <==> b as nat >= 128
  {
    ByteValue(b);
    hide GetBit;
  }

  /** Bit `i` of the enrolled response is the last of the eight bits of group `i` of the masked sleep reference. */
  lemma ResponseBit(freqRtc: seq<nat>, freqSleep: seq<nat>, i: nat)
    requires 8 * i + 8 <= MaskWeight(freqRtc, freqSleep)
    ensures var response := EnrolledResponse(freqRtc, freqSleep);
            && 8 * |response| == MaskWeight(freqRtc, freqSleep) / 8 && i < 8 * |response|
            && Unpack(response)[i] == Select(StableBits(freqSleep), ReferenceBits(freqSleep))[8 * i + 7]
  {
    hide MaskWeight, Select, StableBits, ReferenceBits, GetBit, Unpack, PackByte, Count, HighestBits, Pack, MaskedBits;
    var maskHw := MaskWeight(freqRtc, freqSleep);
    MaskWeightIs(freqRtc, freqSleep, 0);
    MaskWeightIs(freqRtc, freqSleep, maskHw);
    Eighths(maskHw);
    MaskedResponseBit(StableBits(freqSleep), ReferenceBits(freqSleep), maskHw, i);
  }

  lemma Eighths(m: nat)
    requires m % 64 == 0
    ensures m % 8 == 0 && m / 8 % 8 == 0 && 8 * (m / 8 / 8) == m / 8
  {
  }

  lemma MaskedResponseBit(mask: seq<bool>, data: seq<bool>, maskHw: nat, i: nat)
    requires |mask| == |data| && maskHw <= Count(mask) && maskHw % 8 == 0 && maskHw / 8 % 8 == 0 && 8 * i + 8 <= maskHw
    ensures var bits := Unpack(Pack(HighestBits(Pack(MaskedBits(mask, maskHw, data)))));
            |bits| == maskHw / 8 && i < |bits| && bits[i] == Select(mask, data)[8 * i + 7]
  {
    hide Select, GetBit, Unpack, PackByte, Count, HighestBits;
    var bits := MaskedBits(mask, maskHw, data);
    assert |bits| == maskHw;
    TopOfGroup(bits, i);
    UnpackPack(HighestBits(Pack(bits)));
  }

  lemma TopOfGroup(bits: seq<bool>, i: nat)
    requires |bits| % 8 == 0 && 8 * i + 8 <= |bits|
    ensures |HighestBits(Pack(bits))| == |bits| / 8 && HighestBits(Pack(bits))[i] == bits[8 * i + 7]
  {
    hide GetBit, PackByte;
    var group := bits[8 * i..8 * i + 8];
    assert Pack(bits)[i] == PackByte(group);
    assert GetBit(PackByte(group), 7) == group[7];
  }
}

/**
  What the helper data guarantees: exactly which measurements decode to the enrolled response, on
  either of the two measurement paths, and that every enrollment measurement does.
 */
module EccTheorems {
  import opened Bits
  import opened EccSpec

  // ---------- one code word ----------

  /** In how many bits two bytes differ. */
  function Flips(a: bv8, b: bv8): (n: nat)
    ensures n <= 8
  {
    Pop(a ^ b)
  }

  /** The template's highest bit survives three flips, or four when it is 0: a tie decodes to 0. */
  predicate GroupDecodes(measured: bv8, reference: bv8, template: bv8) {
    Flips(measured, reference) <= 3 || (Flips(measured, reference) == 4 && !HighestBit(template))
  }

  lemma XorComplement(a: bv8, b: bv8)
    ensures Pop(a ^ !b) == 8 - Pop(a ^ b)
  {
    assert a ^ !b == !(a ^ b);
    Complement(a ^ b);
  }

  lemma CodeWordWeight(measured: bv8, reference: bv8, template: bv8)
    ensures Pop(CodeWord(measured, EccByte(reference, template))) ==
            if HighestBit(template) then 8 - Flips(measured, reference) else Flips(measured, reference)
  {
    hide Pop, HighestBit;
    XorComplement(measured, reference);
  }

  lemma WordLaw(measured: bv8, reference: bv8, template: bv8)
    ensures Majority(CodeWord(measured, EccByte(reference, template))) == HighestBit(template)
            <==> GroupDecodes(measured, reference, template)
    ensures WordErrors(CodeWord(measured, EccByte(reference, template))) ==
            Min(Flips(measured, reference), 8 - Flips(measured, reference))
  {
    hide Pop, HighestBit, EccByte, CodeWord, Flips;
    CodeWordWeight(measured, reference, template);
  }

  // ---------- a whole masked response ----------

  ghost predicate AllGroupsDecode(measured: Bytes, reference: Bytes, template: Bytes)
    requires |measured| == |reference| == |template|
  {
    forall i | 0 <= i < |measured| :: GroupDecodes(measured[i], reference[i], template[i])
  }

  /** The decoder returns the template's highest bits if and only if every group decodes. */
  lemma DecodeExact(measured: Bytes, reference: Bytes, template: Bytes)
    requires |measured| == |reference| == |template| && |measured| % 8 == 0
    ensures Pack(Decode(measured, EccData(reference, template))) == Pack(HighestBits(template))
            <==> AllGroupsDecode(measured, reference, template)
  {
    hide Pack, Majority, CodeWord, HighestBit, GroupDecodes, EccByte;
    var decoded, wanted := Decode(measured, EccData(reference, template)), HighestBits(template);
    UnpackPack(decoded);
    UnpackPack(wanted);
    forall i | 0 <= i < |measured|
      ensures decoded[i] == wanted[i] <==> GroupDecodes(measured[i], reference[i], template[i])
    {
      WordLaw(measured[i], reference[i], template[i]);
    }
    if AllGroupsDecode(measured, reference, template) {
      assert decoded == wanted;
    } else {
      var i :| 0 <= i < |measured| && !GroupDecodes(measured[i], reference[i], template[i]);
      assert decoded[i] != wanted[i];
    }
  }

  /** The Hamming distance of two responses. */
  function Distance(a: Bytes, b: Bytes): nat
    requires |a| == |b|
  {
    if a == [] then 0 else
      var last := |a| - 1;
      Distance(a[..last], b[..last]) + Flips(a[last], b[last])
  }

  predicate WithinFour(measured: Bytes, reference: Bytes) {
    |measured| == |reference| && forall i | 0 <= i < |measured| :: Flips(measured[i], reference[i]) <= 4
  }

  /** The decoder never reports more errors than there are, and reports all of them exactly when no
      group has more than four. */
  lemma {:induction false} ErrorCountLaw(measured: Bytes, reference: Bytes, template: Bytes)
    requires |measured| == |reference| == |template|
    ensures ErrorCount(measured, EccData(reference, template)) <= Distance(measured, reference)
    ensures ErrorCount(measured, EccData(reference, template)) == Distance(measured, reference)
            <==> WithinFour(measured, reference)
  {
    hide Flips, WordErrors, CodeWord, EccByte, WithinFour;
    if measured == [] {
      assert WithinFour(measured, reference) by {
        EmptyWithinFour(measured, reference);
      }
    } else {
      var last := |measured| - 1;
      var m, r, t := measured[..last], reference[..last], template[..last];
      ErrorCountLaw(m, r, t);
      WordLaw(measured[last], reference[last], template[last]);
      LastWithinFour(measured, reference);
      assert EccData(reference, template)[..last] == EccData(r, t);
      assert EccData(reference, template)[last] == EccByte(reference[last], template[last]);
    }
  }

  lemma EmptyWithinFour(measured: Bytes, reference: Bytes)
    requires measured == reference == []
    ensures WithinFour(measured, reference)
  {
  }

  lemma LastWithinFour(measured: Bytes, reference: Bytes)
    requires |measured| == |reference| > 0
    ensures var last := |measured| - 1;
            WithinFour(measured, reference)
            <==> WithinFour(measured[..last], reference[..last]) && Flips(measured[last], reference[last]) <= 4
  {
    hide Flips;
    var last := |measured| - 1;
    if WithinFour(measured[..last], reference[..last]) && Flips(measured[last], reference[last]) <= 4 {
      forall i | 0 <= i < |measured| ensures Flips(measured[i], reference[i]) <= 4 {
        if i < last {
          assert measured[..last][i] == measured[i] && reference[..last][i] == reference[i];
        }
      }
    }
    if WithinFour(measured, reference) {
      forall i | 0 <= i < last ensures Flips(measured[..last][i], reference[..last][i]) <= 4 {
        assert measured[..last][i] == measured[i] && reference[..last][i] == reference[i];
      }
    }
  }

  // ---------- provisioning ----------

  lemma Floor64AtLeast(n: nat)
    ensures Floor64(n) % 64 == 0 && Floor64(n) <= n
    ensures n >= 64 <==> Floor64(n) >= 64
    ensures Floor64(n) == 0 || Floor64(n) >= 64
  {
  }

  lemma CanApplyIff(mask: seq<bool>, maskHw: nat)
    requires maskHw % 64 == 0 && maskHw <= Count(mask)
    ensures CanApply(mask, maskHw) <==> maskHw > 0 || Count(mask) == 0
  {
    hide Count;
    assert 8 * (maskHw / 8) == maskHw;
  }

  /** Provisioning survives its assertions exactly with 64 stable bits on either path, or with none at all. */
  lemma CanProvisionIff(freqRtc: seq<nat>, freqSleep: seq<nat>)
    ensures var rtc, sleep := Count(StableBits(freqRtc)), Count(StableBits(freqSleep));
            CanProvision(freqRtc, freqSleep) <==> (rtc >= 64 && sleep >= 64) || (rtc == 0 && sleep == 0)
    ensures MaskWeight(freqRtc, freqSleep) % 64 == 0
    ensures MaskWeight(freqRtc, freqSleep) <= Count(StableBits(freqRtc))
    ensures MaskWeight(freqRtc, freqSleep) <= Count(StableBits(freqSleep))
  {
    hide Count, StableBits, Floor64, CanApply;
    Floor64AtLeast(Count(StableBits(freqRtc)));
    Floor64AtLeast(Count(StableBits(freqSleep)));
    CanApplyIff(StableBits(freqRtc), MaskWeight(freqRtc, freqSleep));
    CanApplyIff(StableBits(freqSleep), MaskWeight(freqRtc, freqSleep));
  }

  /** The stored masks and helper data fit each other, whatever the frequencies were. */
  lemma HelperFits(freqRtc: seq<nat>, freqSleep: seq<nat>)
    requires |freqRtc| == |freqSleep| && |freqRtc| % 8 == 0 && CanProvision(freqRtc, freqSleep)
    ensures var h := Helper(freqRtc, freqSleep);
            && |h.mask| == |h.sleepMask| == |freqRtc| / 8
            && |h.ecc| == |h.eccSleep| && 8 * |h.ecc| == MaskWeight(freqRtc, freqSleep)
            && CanReconstruct(h.mask, h.ecc) && CanReconstruct(h.sleepMask, h.eccSleep)
    ensures Unpack(Helper(freqRtc, freqSleep).mask) == StableBits(freqRtc)
    ensures Unpack(Helper(freqRtc, freqSleep).sleepMask) == StableBits(freqSleep)
  {
    hide Count, Pack, Unpack, StableBits, ReferenceBits, Select;
    CanProvisionIff(freqRtc, freqSleep);
    UnpackPack(StableBits(freqRtc));
    UnpackPack(StableBits(freqSleep));
  }

  /** First-attempt reconstruction returns the enrolled response if and only if every group decodes. */
  lemma RtcReconstruction(freqRtc: seq<nat>, freqSleep: seq<nat>, measured: Bytes)
    requires |freqRtc| == |freqSleep| == 8 * |measured| && CanProvision(freqRtc, freqSleep)
    ensures var h, maskHw := Helper(freqRtc, freqSleep), MaskWeight(freqRtc, freqSleep);
            && |h.mask| == |measured| && CanReconstruct(h.mask, h.ecc)
            && |MaskForEcc(h.mask, h.ecc, measured)| == |MaskedReference(freqRtc, maskHw)|
               == |MaskedReference(freqSleep, maskHw)|
            && (Reconstruct(h.mask, h.ecc, measured) == EnrolledResponse(freqRtc, freqSleep)
                <==> AllGroupsDecode(MaskForEcc(h.mask, h.ecc, measured),
                                     MaskedReference(freqRtc, maskHw), MaskedReference(freqSleep, maskHw)))
  {
    hide Pack, Unpack, Decode, AllGroupsDecode, StableBits, Count, EccData, HighestBits;
    HelperFits(freqRtc, freqSleep);
    CanProvisionIff(freqRtc, freqSleep);
    var h, maskHw := Helper(freqRtc, freqSleep), MaskWeight(freqRtc, freqSleep);
    DecodeExact(MaskForEcc(h.mask, h.ecc, measured), MaskedReference(freqRtc, maskHw),
                MaskedReference(freqSleep, maskHw));
  }

  /** The same law for the retry path, whose reference is its own template. */
  lemma SleepReconstruction(freqRtc: seq<nat>, freqSleep: seq<nat>, measured: Bytes)
    requires |freqRtc| == |freqSleep| == 8 * |measured| && CanProvision(freqRtc, freqSleep)
    ensures var h, maskHw := Helper(freqRtc, freqSleep), MaskWeight(freqRtc, freqSleep);
            && |h.sleepMask| == |measured| && CanReconstruct(h.sleepMask, h.eccSleep)
            && |MaskForEcc(h.sleepMask, h.eccSleep, measured)| == |MaskedReference(freqSleep, maskHw)|
            && (Reconstruct(h.sleepMask, h.eccSleep, measured) == EnrolledResponse(freqRtc, freqSleep)
                <==> AllGroupsDecode(MaskForEcc(h.sleepMask, h.eccSleep, measured),
                                     MaskedReference(freqSleep, maskHw), MaskedReference(freqSleep, maskHw)))
  {
    hide Pack, Unpack, Decode, AllGroupsDecode, StableBits, Count, EccData, HighestBits;
    HelperFits(freqRtc, freqSleep);
    CanProvisionIff(freqRtc, freqSleep);
    var h, maskHw := Helper(freqRtc, freqSleep), MaskWeight(freqRtc, freqSleep);
    DecodeExact(MaskForEcc(h.sleepMask, h.eccSleep, measured),
                MaskedReference(freqSleep, maskHw), MaskedReference(freqSleep, maskHw));
  }

  /** At most three flips in every masked group of a measurement, against its own path's reference. */
  ghost predicate WithinThree(measured: Bytes, reference: Bytes) {
    |measured| == |reference| && forall i | 0 <= i < |measured| :: Flips(measured[i], reference[i]) <= 3
  }

  /** A first attempt and a retry return the same bytes, although their masks, references and
      helper data come from two different measurements of the device. */
  lemma BothPathsAgree(freqRtc: seq<nat>, freqSleep: seq<nat>, first: Bytes, retry: Bytes)
    requires |freqRtc| == |freqSleep| == 8 * |first| == 8 * |retry| && CanProvision(freqRtc, freqSleep)
    ensures var h, maskHw := Helper(freqRtc, freqSleep), MaskWeight(freqRtc, freqSleep);
            && |h.mask| == |first| && |h.sleepMask| == |retry|
            && CanReconstruct(h.mask, h.ecc) && CanReconstruct(h.sleepMask, h.eccSleep)
            && (WithinThree(MaskForEcc(h.mask, h.ecc, first), MaskedReference(freqRtc, maskHw)) ==>
                  Reconstruct(h.mask, h.ecc, first) == EnrolledResponse(freqRtc, freqSleep))
            && (WithinThree(MaskForEcc(h.sleepMask, h.eccSleep, retry), MaskedReference(freqSleep, maskHw)) ==>
                  Reconstruct(h.sleepMask, h.eccSleep, retry) == EnrolledResponse(freqRtc, freqSleep))
  {
    hide Flips, Helper, Reconstruct, CanReconstruct, EnrolledResponse, MaskForEcc, MaskedReference, HighestBit;
    RtcReconstruction(freqRtc, freqSleep, first);
    SleepReconstruction(freqRtc, freqSleep, retry);
  }

  // ---------- replaying an enrollment measurement ----------

  lemma Bounds()
    ensures MASK_LOWER_BOUND == 0 && MASK_UPPER_BOUND == 20
  {
  }

  /** A frequency of 0 or of all captures means that every capture has the same bit. */
  lemma {:induction false} UnanimousCaptures(captures: seq<Bytes>, j: nat, c: Bytes)
    requires forall x | x in captures :: j < 8 * |x|
    requires c in captures
    ensures Frequency(captures, j) == |captures| ==> Unpack(c)[j]
    ensures Frequency(captures, j) == 0 ==> !Unpack(c)[j]
  {
    hide Unpack;
    var last := |captures| - 1;
    if c != captures[last] {
      UnanimousCaptures(captures[..last], j, c);
    }
  }

  /** A stable position holds the reference bit in every capture it was derived from. */
  lemma StableBitsAgree(captures: seq<Bytes>, size: nat, c: Bytes, j: nat)
    requires |captures| == PROVISIONING_MEASUREMENTS && forall x | x in captures :: |x| == size
    requires c in captures && j < 8 * size
    requires StableBits(Frequencies(captures, size))[j]
    ensures Unpack(c)[j] == ReferenceBits(Frequencies(captures, size))[j]
  {
    hide Unpack, Frequency;
    Bounds();
    UnanimousCaptures(captures, j, c);
    assert Frequencies(captures, size)[j] == Frequency(captures, j);
  }

  lemma {:induction false} SelectAgrees(mask: seq<bool>, a: seq<bool>, b: seq<bool>)
    requires |mask| == |a| == |b|
    requires forall j | 0 <= j < |mask| && mask[j] :: a[j] == b[j]
    ensures Select(mask, a) == Select(mask, b)
  {
    if mask == [] {
    } else {
      var last := |mask| - 1;
      SelectAgrees(mask[..last], a[..last], b[..last]);
    }
  }

  lemma MaskedCapture(captures: seq<Bytes>, size: nat, c: Bytes, maskHw: nat)
    requires |captures| == PROVISIONING_MEASUREMENTS && forall x | x in captures :: |x| == size
    requires c in captures
    ensures var freq := Frequencies(captures, size);
            Pack(MaskedBits(StableBits(freq), maskHw, Unpack(c))) == MaskedReference(freq, maskHw)
  {
    hide Unpack, Pack, Frequency, Stable;
    var freq := Frequencies(captures, size);
    forall j | 0 <= j < 8 * size && StableBits(freq)[j] ensures Unpack(c)[j] == ReferenceBits(freq)[j] {
      StableBitsAgree(captures, size, c, j);
    }
    SelectAgrees(StableBits(freq), Unpack(c), ReferenceBits(freq));
  }

  lemma NoErrorsAgainstOwn(reference: Bytes, template: Bytes)
    requires |reference| == |template|
    ensures ErrorCount(reference, EccData(reference, template)) == 0
  {
    hide Pop, WordErrors, EccByte;
    NoDistance(reference);
    ErrorCountLaw(reference, reference, template);
  }

  lemma {:induction false} NoDistance(a: Bytes)
    ensures Distance(a, a) == 0
    ensures WithinThree(a, a)
  {
    hide Flips;
    forall i | 0 <= i < |a| ensures Flips(a[i], a[i]) == 0 {
      SelfXor(a[i]);
    }
    if a != [] {
      NoDistance(a[..|a| - 1]);
    }
  }

  lemma NoFlips(a: Bytes, template: Bytes)
    requires |a| == |template|
    ensures AllGroupsDecode(a, a, template)
  {
    hide Flips;
    forall i | 0 <= i < |a| ensures Flips(a[i], a[i]) == 0 {
      SelfXor(a[i]);
    }
  }

  lemma SelfXor(b: bv8)
    ensures Flips(b, b) == 0
  {
    assert b ^ b == 0;
  }

  /** Replaying any first-path enrollment capture decodes without a single error and returns the
      enrolled response. */
  lemma RtcReplays(rtc: seq<Bytes>, sleep: seq<Bytes>, size: nat, capture: Bytes)
    requires |rtc| == |sleep| == PROVISIONING_MEASUREMENTS
    requires (forall c | c in rtc :: |c| == size) && (forall c | c in sleep :: |c| == size)
    requires capture in rtc
    requires CanProvision(Frequencies(rtc, size), Frequencies(sleep, size))
    ensures var h := Helper(Frequencies(rtc, size), Frequencies(sleep, size));
            && |h.mask| == |capture| && CanReconstruct(h.mask, h.ecc)
            && Reconstruct(h.mask, h.ecc, capture) == EnrolledResponse(Frequencies(rtc, size), Frequencies(sleep, size))
            && ErrorCount(MaskForEcc(h.mask, h.ecc, capture), h.ecc) == 0
  {
    hide Pack, Unpack, Frequencies, StableBits, ReferenceBits, MaskedBits, CanProvision, CanReconstruct, Reconstruct;
    hide EnrolledResponse, ErrorCount, EccData, WithinThree, MaskWeight;
    var freqRtc, freqSleep := Frequencies(rtc, size), Frequencies(sleep, size);
    var maskHw := MaskWeight(freqRtc, freqSleep);
    HelperFits(freqRtc, freqSleep);
    MaskedCapture(rtc, size, capture, maskHw);
    RtcReconstruction(freqRtc, freqSleep, capture);
    NoErrorsAgainstOwn(MaskedReference(freqRtc, maskHw), MaskedReference(freqSleep, maskHw));
    NoFlips(MaskedReference(freqRtc, maskHw), MaskedReference(freqSleep, maskHw));
  }

  /** So does replaying any deep-sleep capture through the retry path. */
  lemma SleepReplays(rtc: seq<Bytes>, sleep: seq<Bytes>, size: nat, capture: Bytes)
    requires |rtc| == |sleep| == PROVISIONING_MEASUREMENTS
    requires (forall c | c in rtc :: |c| == size) && (forall c | c in sleep :: |c| == size)
    requires capture in sleep
    requires CanProvision(Frequencies(rtc, size), Frequencies(sleep, size))
    ensures var h := Helper(Frequencies(rtc, size), Frequencies(sleep, size));
            && |h.sleepMask| == |capture| && CanReconstruct(h.sleepMask, h.eccSleep)
            && Reconstruct(h.sleepMask, h.eccSleep, capture)
               == EnrolledResponse(Frequencies(rtc, size), Frequencies(sleep, size))
            && ErrorCount(MaskForEcc(h.sleepMask, h.eccSleep, capture), h.eccSleep) == 0
  {
    hide Pack, Unpack, Frequencies, StableBits, ReferenceBits, MaskedBits, CanProvision, CanReconstruct, Reconstruct;
    hide EnrolledResponse, ErrorCount, EccData, WithinThree, MaskWeight;
    var freqRtc, freqSleep := Frequencies(rtc, size), Frequencies(sleep, size);
    var maskHw := MaskWeight(freqRtc, freqSleep);
    HelperFits(freqRtc, freqSleep);
    MaskedCapture(sleep, size, capture, maskHw);
    SleepReconstruction(freqRtc, freqSleep, capture);
    NoErrorsAgainstOwn(MaskedReference(freqSleep, maskHw), MaskedReference(freqSleep, maskHw));
    NoFlips(MaskedReference(freqSleep, maskHw), MaskedReference(freqSleep, maskHw));
  }

  // ---------- masking and flips ----------

  function Xor(a: seq<bool>, b: seq<bool>): (c: seq<bool>)
    requires |a| == |b|
    ensures |c| == |a|
  {
    seq(|a|, i requires 0 <= i < |a| => a[i] != b[i])
  }

  /** Masking commutes with flipping bits, so the masked flips are the flips at stable positions. */
  lemma {:induction false} SelectXor(mask: seq<bool>, a: seq<bool>, b: seq<bool>)
    requires |mask| == |a| == |b|
    ensures Select(mask, Xor(a, b)) == Xor(Select(mask, a), Select(mask, b))
  {
    if mask == [] {
    } else {
      var last := |mask| - 1;
      SelectXor(mask[..last], a[..last], b[..last]);
      assert Xor(a, b)[..last] == Xor(a[..last], b[..last]);
      assert Xor(a, b)[last] == (a[last] != b[last]);
    }
  }
}

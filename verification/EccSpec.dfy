/**
  What the helper-data scheme computes, as functions on bit and byte sequences: the stable-bit mask
  and reference of a frequency array, the masked bits, and the 8x repetition code.
 */
module EccSpec {
  import opened Bits

  const PROVISIONING_MEASUREMENTS: nat := 20
  const STABLE_BIT_PROBABILITY := 0.001

  function Round(x: real): int {
    (x + 0.5).Floor
  }

  const MASK_LOWER_BOUND := Round(PROVISIONING_MEASUREMENTS as real * STABLE_BIT_PROBABILITY)
  const MASK_UPPER_BOUND := Round(PROVISIONING_MEASUREMENTS as real * (1.0 - STABLE_BIT_PROBABILITY))

  type uint16 = x: nat | x < 0x1_0000

  function Min(a: nat, b: nat): nat {
    if a < b then a else b
  }

  // ---------- frequencies, masks and references ----------

  predicate Stable(frequency: nat) {
    frequency >= MASK_UPPER_BOUND || frequency <= MASK_LOWER_BOUND
  }

  function StableBits(freq: seq<nat>): (bits: seq<bool>)
    ensures |bits| == |freq|
  {
    seq(|freq|, i requires 0 <= i < |freq| => Stable(freq[i]))
  }

  function ReferenceBits(freq: seq<nat>): (bits: seq<bool>)
    ensures |bits| == |freq|
  {
    seq(|freq|, i requires 0 <= i < |freq| => freq[i] > PROVISIONING_MEASUREMENTS / 2)
  }

  /** The mask's weight, rounded down to a multiple of 64. */
  function Floor64(n: nat): nat {
    n - n % 64
  }

  /** The bits of `data` at the set positions of `mask`, in order. */
  function Select(mask: seq<bool>, data: seq<bool>): (bits: seq<bool>)
    requires |mask| == |data|
    ensures |bits| == Count(mask)
  {
    if mask == [] then [] else
      var last := |mask| - 1;
      Select(mask[..last], data[..last]) + if mask[last] then [data[last]] else []
  }

  /** The first `maskHw` selected bits, or all of them when there are fewer. */
  function MaskedBits(mask: seq<bool>, maskHw: nat, data: seq<bool>): (bits: seq<bool>)
    requires |mask| == |data|
    ensures |bits| == Min(Count(mask), maskHw)
  {
    Select(mask, data)[..Min(Count(mask), maskHw)]
  }

  /** Whether masking runs to its end: it appends once before it looks whether it has enough bits. */
  predicate CanApply(mask: seq<bool>, maskHw: nat) {
    Min(Count(mask), if maskHw == 0 then 1 else maskHw) <= 8 * (maskHw / 8)
  }

  // ---------- the repetition code ----------

  predicate HighestBit(b: bv8) {
    GetBit(b, 7)
  }

  function EccByte(reference: bv8, template: bv8): bv8 {
    if HighestBit(template) then !reference else reference
  }

  function EccData(reference: Bytes, template: Bytes): (ecc: Bytes)
    requires |reference| == |template|
    ensures |ecc| == |reference|
  {
    seq(|reference|, i requires 0 <= i < |reference| => EccByte(reference[i], template[i]))
  }

  function CodeWord(masked: bv8, ecc: bv8): bv8 {
    masked ^ ecc
  }

  predicate Majority(codeWord: bv8) {
    Pop(codeWord) > 4
  }

  function Decode(masked: Bytes, ecc: Bytes): (bits: seq<bool>)
    requires |masked| == |ecc|
    ensures |bits| == |masked|
  {
    seq(|masked|, i requires 0 <= i < |masked| => Majority(CodeWord(masked[i], ecc[i])))
  }

  /** How many bits of a code word the decoder takes to be wrong. */
  function WordErrors(codeWord: bv8): nat {
    Min(Pop(codeWord), 8 - Pop(codeWord))
  }

  function ErrorCount(masked: Bytes, ecc: Bytes): nat
    requires |masked| == |ecc|
  {
    if masked == [] then 0 else
      var last := |masked| - 1;
      ErrorCount(masked[..last], ecc[..last]) + WordErrors(CodeWord(masked[last], ecc[last]))
  }

  function HighestBits(template: Bytes): (bits: seq<bool>)
    ensures |bits| == |template|
  {
    seq(|template|, i requires 0 <= i < |template| => HighestBit(template[i]))
  }

  // ---------- provisioning and reconstruction ----------

  datatype HelperData = HelperData(mask: Bytes, sleepMask: Bytes, eccSleep: Bytes, ecc: Bytes)

  function MaskWeight(freqRtc: seq<nat>, freqSleep: seq<nat>): nat {
    Min(Floor64(Count(StableBits(freqRtc))), Floor64(Count(StableBits(freqSleep))))
  }

  /** The bytes of the reference of `freq` at its first `maskHw` stable positions. */
  function MaskedReference(freq: seq<nat>, maskHw: nat): Bytes {
    Pack(MaskedBits(StableBits(freq), maskHw, ReferenceBits(freq)))
  }

  /** Whether provisioning survives its own assertions. */
  predicate CanProvision(freqRtc: seq<nat>, freqSleep: seq<nat>) {
    var maskHw := MaskWeight(freqRtc, freqSleep);
    CanApply(StableBits(freqRtc), maskHw) && CanApply(StableBits(freqSleep), maskHw)
  }

  lemma MaskedReferenceLength(freq: seq<nat>, maskHw: nat)
    requires maskHw <= Count(StableBits(freq))
    ensures |MaskedReference(freq, maskHw)| == maskHw / 8
  {
  }

  function Helper(freqRtc: seq<nat>, freqSleep: seq<nat>): HelperData {
    var maskHw := MaskWeight(freqRtc, freqSleep);
    var rtc, sleep := MaskedReference(freqRtc, maskHw), MaskedReference(freqSleep, maskHw);
    HelperData(Pack(StableBits(freqRtc)), Pack(StableBits(freqSleep)), EccData(sleep, sleep), EccData(rtc, sleep))
  }

  /** The response that enrollment fixes: the highest bits of the masked sleep reference. */
  function EnrolledResponse(freqRtc: seq<nat>, freqSleep: seq<nat>): Bytes {
    Pack(HighestBits(MaskedReference(freqSleep, MaskWeight(freqRtc, freqSleep))))
  }

  function MaskedBytes(mask: Bytes, maskHw: nat, data: Bytes): Bytes
    requires |mask| == |data|
  {
    Pack(MaskedBits(Unpack(mask), maskHw, Unpack(data)))
  }

  /** Whether a reconstruction runs to its end: masking fits, fills its buffer, and decodes to whole bytes. */
  predicate CanReconstruct(mask: Bytes, ecc: Bytes) {
    8 * |ecc| <= Count(Unpack(mask)) && (|ecc| == 0 ==> Count(Unpack(mask)) == 0) && |ecc| % 8 == 0
  }

  function MaskForEcc(mask: Bytes, ecc: Bytes, data: Bytes): (masked: Bytes)
    requires |mask| == |data| && CanReconstruct(mask, ecc)
    ensures |masked| == |ecc|
  {
    MaskedBytes(mask, 8 * |ecc|, data)
  }

  function Reconstruct(mask: Bytes, ecc: Bytes, data: Bytes): Bytes
    requires |mask| == |data| && CanReconstruct(mask, ecc)
  {
    Pack(Decode(MaskForEcc(mask, ecc, data), ecc))
  }

  function Frequency(captures: seq<Bytes>, j: nat): (f: nat)
    requires forall c | c in captures :: j < 8 * |c|
    ensures f <= |captures|
  {
    if captures == [] then 0 else
      var last := |captures| - 1;
      Frequency(captures[..last], j) + One(Unpack(captures[last])[j])
  }

  /** Per-bit frequencies of captures of `size` bytes each. */
  function Frequencies(captures: seq<Bytes>, size: nat): (freq: seq<nat>)
    requires forall c | c in captures :: |c| == size
    ensures |freq| == 8 * size
  {
    seq(8 * size, j requires 0 <= j < 8 * size => Frequency(captures, j))
  }
}

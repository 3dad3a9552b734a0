/**
  The firmware of one boot as it runs: the globals of the PUF library and of the identity layer, and
  the functions that update them step by step, each proved against its function in DeviceSpec.
 */
module PufDevice {
  import opened Bits
  import opened BitArrays
  import opened EccSpec
  import opened EccTheorems
  import opened Ecc
  import opened Options
  import opened DeviceSpec
  import opened DeviceIdentity

  class Puf {
    var nvs: Nvs
    // RTC_DATA_ATTR
    var lib: LibState
    var progress: nat
    var ready: bool
    var retries: nat
    // RAM of this boot; the length of PUF_RESPONSE is the length of its buffer
    var response: array?<bv8>
    const pufBuffer: array<bv8>
    const rtcFastMemory: array<bv8>
    ghost var log: seq<NvsOp>

    ghost function View(): Memory
      reads this, response
    {
      Memory(nvs, Rtc(lib, progress, ready, retries), if response == null then None else Some(response[..]), log)
    }

    /** The wake stub has filled the buffer with this boot's measurement. */
    ghost predicate Woken(wake: Capture)
      reads this, pufBuffer, rtcFastMemory
    {
      && pufBuffer.Length == rtcFastMemory.Length == PUF_MEMORY_SIZE && pufBuffer != rtcFastMemory
      && response != pufBuffer && response != rtcFastMemory
      && pufBuffer[..] == wake
    }

    constructor (nvs: Nvs, rtc: Rtc, wake: Capture)
      ensures Woken(wake) && fresh(pufBuffer) && fresh(rtcFastMemory)
      ensures View() == Memory(nvs, rtc, None, [])
    {
      this.nvs := nvs;
      lib, progress, ready, retries := rtc.lib, rtc.progress, rtc.ready, rtc.retries;
      response := null;
      pufBuffer := new bv8[PUF_MEMORY_SIZE](i requires 0 <= i < PUF_MEMORY_SIZE => wake[i]);
      rtcFastMemory := new bv8[PUF_MEMORY_SIZE];
      log := [];
    }

    method SetBlob(op: NvsOp)
      modifies this`nvs, this`log
      ensures View() == Write(old(View()), op)
    {
      nvs := Apply(nvs, op);
      log := log + [op];
    }

    // ---------- measurements ----------

    /** turn_off_rtc_sram: after the power cycle the memory holds a new measurement. */
    method TurnOffRtcSram(capture: Capture)
      requires rtcFastMemory.Length == PUF_MEMORY_SIZE
      modifies rtcFastMemory
      ensures rtcFastMemory[..] == capture
    {
      forall i | 0 <= i < PUF_MEMORY_SIZE {
        rtcFastMemory[i] := capture[i];
      }
    }

    method RestoreRtcSram(backup: Bytes)
      requires |backup| == rtcFastMemory.Length
      modifies rtcFastMemory
      ensures rtcFastMemory[..] == backup
    {
      forall i | 0 <= i < rtcFastMemory.Length {
        rtcFastMemory[i] := backup[i];
      }
    }

    /** Adds the bits of one buffer to 16-bit counters. */
    method CountBits(pufFreq: array<uint16>, memory: array<bv8>)
      requires pufFreq.Length == 8 * PUF_MEMORY_SIZE && memory.Length == PUF_MEMORY_SIZE
      modifies pufFreq
      ensures pufFreq[..] == AddCapture(old(pufFreq[..]), memory[..])
    {
      hide Unpack;
      ghost var bits := Unpack(memory[..]);
      for j := 0 to pufFreq.Length
        invariant forall k | 0 <= k < j :: pufFreq[k] == (old(pufFreq[k]) + One(bits[k])) % 0x1_0000
        invariant forall k | j <= k < pufFreq.Length :: pufFreq[k] == old(pufFreq[k])
      {
        var bit := ArrayGetBit(memory, j);
        pufFreq[j] := (pufFreq[j] + One(bit)) % 0x1_0000;
      }
    }

    /** get_puf_bit_frequency: every measurement counts once, and the memory is restored. */
    method GetPufBitFrequency(pufFreq: array<uint16>, captures: seq<Capture>)
      requires pufFreq.Length == 8 * PUF_MEMORY_SIZE && rtcFastMemory.Length == PUF_MEMORY_SIZE
      requires |captures| < 0xFFFF && forall j | 0 <= j < pufFreq.Length :: pufFreq[j] == 0
      modifies pufFreq, rtcFastMemory
      ensures pufFreq[..] == Frequencies(captures, PUF_MEMORY_SIZE)
      ensures rtcFastMemory[..] == old(rtcFastMemory[..])
    {
      hide AddCapture, Frequencies;
      var backup := rtcFastMemory[..];
      assert captures[..0] == [];
      NoCounts(pufFreq[..]);
      for i := 0 to |captures|
        invariant pufFreq[..] == Frequencies(captures[..i], PUF_MEMORY_SIZE)
      {
        TurnOffRtcSram(captures[i]);
        CountBits(pufFreq, rtcFastMemory);
        AddCaptureCounts(captures[..i], captures[i]);
        assert captures[..i] + [captures[i]] == captures[..i + 1];
      }
      assert captures[..|captures|] == captures;
      RestoreRtcSram(backup);
    }

    /** pufsleep_bit_frequency_helper, on the measurement in PUF_BUFFER */
    method SleepFrequencyStep(ghost wake: Capture) returns (flow: Flow)
      requires Woken(wake)
      modifies this`nvs, this`log
      ensures Out(View(), flow) == DeviceSpec.SleepFrequencyStep(old(View()), wake)
    {
      hide AddCapture, Zeros;
      var pufFreq: array<uint16>;
      if progress == 0 {
        pufFreq := new uint16[8 * PUF_MEMORY_SIZE](_ => 0);
        AllZeros(pufFreq[..]);
      } else {
        if nvs.freq.None? {
          return Panics;
        }
        var blob := nvs.freq.value;
        if |blob| != 8 * PUF_MEMORY_SIZE {
          return Panics;
        }
        pufFreq := new uint16[8 * PUF_MEMORY_SIZE](i requires 0 <= i < |blob| => blob[i]);
        assert pufFreq[..] == blob;
        CountBits(pufFreq, pufBuffer);
      }
      SetBlob(SetFreq(pufFreq[..]));
      flow := if progress == PROVISIONING_MEASUREMENTS then Returns else Sleeps;
    }

    /** get_pufsleep_bit_frequency */
    method SleepFrequency(ghost wake: Capture) returns (flow: Flow)
      requires Woken(wake)
      modifies this`nvs, this`log
      ensures Out(View(), flow) == DeviceSpec.SleepFrequency(old(View()), wake)
    {
      hide AddCapture, Zeros;
      flow := Returns;
      if progress <= PROVISIONING_MEASUREMENTS {
        flow := SleepFrequencyStep(wake);
        if flow != Returns {
          return;
        }
      }
      if nvs.freq.None? || |nvs.freq.value| != 8 * PUF_MEMORY_SIZE {
        flow := Panics;
      }
    }

    // ---------- provisioning ----------

    /** One path's share of provision_puf_helper: the masked reference of its frequencies. */
    method MaskReference(pufFreq: array<uint16>, mask: array<bv8>, maskHw: nat) returns (ok: bool, masked: array<bv8>)
      requires pufFreq.Length == 8 * PUF_MEMORY_SIZE && mask.Length == PUF_MEMORY_SIZE
      requires mask[..] == Pack(StableBits(pufFreq[..])) && maskHw <= Count(StableBits(pufFreq[..]))
      ensures fresh(masked) && masked.Length == maskHw / 8
      ensures ok == CanApply(StableBits(pufFreq[..]), maskHw)
      ensures ok ==> masked[..] == MaskedReference(pufFreq[..], maskHw)
    {
      hide Pack, Unpack, StableBits, ReferenceBits, CanApply, MaskedBits;
      ghost var stable, bits := StableBits(pufFreq[..]), ReferenceBits(pufFreq[..]);
      var pufReference := new bv8[PUF_MEMORY_SIZE];
      CreatePufReference(pufFreq, pufReference);
      masked := new bv8[maskHw / 8];
      UnpackPack(stable);
      UnpackPack(bits);
      assert mask[..] == Pack(stable);
      ok := ApplyPufMask(mask, maskHw, pufReference, masked);
      MaskedReferenceLength(pufFreq[..], maskHw);
    }

    /** The end of provision_puf_helper: the ECC blob of the first path is written last. */
    method StoreEcc(maskedRtc: array<bv8>, maskedSleep: array<bv8>)
      requires maskedRtc.Length == maskedSleep.Length
      modifies this`nvs, this`log
      ensures View() == Write(Write(old(View()), SetEccSleep(EccData(maskedSleep[..], maskedSleep[..]))),
                              SetEcc(EccData(maskedRtc[..], maskedSleep[..])))
    {
      hide EccData;
      var eccSleep := new bv8[maskedSleep.Length];
      GenerateEccData(maskedSleep, eccSleep);
      SetBlob(SetEccSleep(eccSleep[..]));
      var eccRtc := new bv8[maskedRtc.Length];
      GenerateEccDataTemplate(maskedRtc, maskedSleep, eccRtc);
      SetBlob(SetEcc(eccRtc[..]));
    }

    /** provision_puf_helper */
    method ProvisionHelper(pufFreqRtc: array<uint16>, pufFreqSleep: array<uint16>) returns (flow: Flow)
      requires pufFreqRtc.Length == pufFreqSleep.Length == 8 * PUF_MEMORY_SIZE
      modifies this`nvs, this`log
      ensures Out(View(), flow) == DeviceSpec.ProvisionHelper(old(View()), pufFreqRtc[..], pufFreqSleep[..])
    {
      hide Pack, Unpack, StableBits, ReferenceBits, CanApply, MaskedReference, EccData, Count, Floor64;
      hide Helper, CanProvision, MaskWeight;
      HelperFields(pufFreqRtc[..], pufFreqSleep[..]);
      var maskRtc, maskSleep := new bv8[PUF_MEMORY_SIZE], new bv8[PUF_MEMORY_SIZE];
      var maskRtcHw := CreatePufMask(pufFreqRtc, maskRtc);
      var maskSleepHw := CreatePufMask(pufFreqSleep, maskSleep);
      var maskHw := Min(maskRtcHw, maskSleepHw);
      SetBlob(SetMask(maskRtc[..]));
      SetBlob(SetSleepMask(maskSleep[..]));
      var ok, maskedRtc, maskedSleep;
      ok, maskedRtc := MaskReference(pufFreqRtc, maskRtc, maskHw);
      if !ok {
        return Panics;
      }
      ok, maskedSleep := MaskReference(pufFreqSleep, maskSleep, maskHw);
      if !ok {
        return Panics;
      }
      StoreEcc(maskedRtc, maskedSleep);
      flow := Returns;
    }

    /** provision_puf_calculate */
    method ProvisionCalculate(input: Input) returns (flow: Flow)
      requires Woken(input.wake) && input.Valid()
      modifies this`nvs, this`log, rtcFastMemory
      ensures Out(View(), flow) == DeviceSpec.ProvisionCalculate(old(View()), input)
      ensures rtcFastMemory[..] == old(rtcFastMemory[..])
    {
      hide Helper, CanProvision, Frequencies, Zeros, AddCapture;
      flow := SleepFrequency(input.wake);
      if flow != Returns {
        return;
      }
      var blob := nvs.freq.value;
      var pufFreqSleep := new uint16[8 * PUF_MEMORY_SIZE](i requires 0 <= i < |blob| => blob[i]);
      assert pufFreqSleep[..] == blob;
      var pufFreqRtc := new uint16[8 * PUF_MEMORY_SIZE](_ => 0);
      GetPufBitFrequency(pufFreqRtc, input.captures);
      flow := ProvisionHelper(pufFreqRtc, pufFreqSleep);
      if flow != Returns {
        return;
      }
      var zeros := new uint16[8 * PUF_MEMORY_SIZE](_ => 0);
      AllZeros(zeros[..]);
      SetBlob(SetFreq(zeros[..]));
      SetBlob(EraseFreq);
    }

    method EnrollPuf(input: Input) returns (flow: Flow)
      requires Woken(input.wake) && input.Valid()
      modifies this`nvs, this`log, this`lib, this`progress, rtcFastMemory
      ensures Out(View(), flow) == DeviceSpec.EnrollPuf(old(View()), input)
      ensures rtcFastMemory[..] == old(rtcFastMemory[..])
    {
      hide DeviceSpec.ProvisionCalculate;
      flow := Returns;
      if lib == Provisioning {
        lib := Idle;
        progress := 0;
      } else if lib == Idle {
        lib := Provisioning;
        progress := 0;
        flow := ProvisionCalculate(input);
      }
    }

    // ---------- reconstruction ----------

    /** clean_puf_response: zero the buffer, then drop it. */
    method CleanPufResponse()
      modifies this`response, this`ready, response
      ensures View() == CleanResponse(old(View()))
      ensures response == null
    {
      if response != null {
        forall i | 0 <= i < response.Length {
          response[i] := 0;
        }
      }
      response := null;
      ready := false;
    }

    /** Masks a measurement and decodes it into a new PUF_RESPONSE buffer; true if the weight gate
        of the unmasked measurement is passed. */
    method Decode(mask: Bytes, ecc: Bytes, memory: array<bv8>) returns (pufOk: bool)
      requires |mask| == memory.Length == PUF_MEMORY_SIZE && CanReconstruct(mask, ecc)
      modifies this`response
      ensures fresh(response) && response[..] == Reconstruct(mask, ecc, memory[..])
      ensures pufOk == GateOk(memory[..])
    {
      hide Pack, Unpack, MaskedBits, EccSpec.Decode, Weight;
      ghost var data := memory[..];
      var maskBuffer := new bv8[|mask|](i requires 0 <= i < |mask| => mask[i]);
      var eccBuffer := new bv8[|ecc|](i requires 0 <= i < |ecc| => ecc[i]);
      assert maskBuffer[..] == mask && eccBuffer[..] == ecc;
      var weight := HammingWeight(memory);
      pufOk := 200 * weight > 97 * (8 * PUF_MEMORY_SIZE);
      var masked := new bv8[|ecc|];
      var ok := ApplyPufMask(maskBuffer, 8 * |ecc|, memory, masked);
      assert masked[..] == MaskForEcc(mask, ecc, data);
      var buffer := new bv8[|ecc| / 8];
      var errors;
      ok, errors := CorrectData(masked, eccBuffer, buffer);
      response := buffer;
    }

    /** get_puf_response, the first attempt; the RTC memory is restored.  Blobs that do not fit make
        the C code fail an assertion or read memory it never wrote. */
    method GetPufResponse(input: Input) returns (flow: Flow, pufOk: bool)
      requires Woken(input.wake)
      modifies this`response, this`ready, rtcFastMemory
      ensures Out(View(), flow) == DeviceSpec.GetPufResponse(old(View()), input.attempt)
      ensures flow == Returns ==> pufOk == ready && rtcFastMemory[..] == old(rtcFastMemory[..])
      ensures response == old(response) || response == null || fresh(response)
    {
      hide GateOk, Reconstruct, CanReconstruct;
      var backup := rtcFastMemory[..];
      if !BlobsFit(nvs.mask, nvs.ecc) {
        return Panics, false;
      }
      TurnOffRtcSram(input.attempt);
      pufOk := Decode(nvs.mask.value, nvs.ecc.value, rtcFastMemory);
      RestoreRtcSram(backup);
      ready := true;
      if !pufOk {
        CleanPufResponse();
      }
      flow := Returns;
    }

    /** puf_response_reset_calculate, the retry, on the measurement in PUF_BUFFER */
    method ResetCalculate(ghost wake: Capture) returns (flow: Flow)
      requires Woken(wake)
      modifies this`response, this`ready, this`lib
      ensures Out(View(), flow) == DeviceSpec.ResetCalculate(old(View()), wake)
      ensures response == old(response) || response == null || fresh(response)
    {
      hide GateOk, Reconstruct, CanReconstruct;
      if !BlobsFit(nvs.sleepMask, nvs.eccSleep) {
        return Panics;
      }
      var pufOk := Decode(nvs.sleepMask.value, nvs.eccSleep.value, pufBuffer);
      lib := Idle;
      if !pufOk {
        CleanPufResponse();
        return Returns;
      }
      ready := true;
      flow := Returns;
    }

    // ---------- the boot ----------

    method PuflibInit(input: Input) returns (flow: Flow)
      requires Woken(input.wake) && input.Valid()
      modifies this, rtcFastMemory
      ensures Out(View(), flow) == DeviceSpec.PuflibInit(old(View()), input)
      ensures response == old(response) || response == null || fresh(response)
      ensures rtcFastMemory[..] == old(rtcFastMemory[..])
    {
      hide DeviceSpec.ProvisionCalculate, DeviceSpec.ResetCalculate;
      flow := Returns;
      match lib
      case Idle =>
      case Provisioning =>
        progress := progress + 1;
        flow := ProvisionCalculate(input);
      case ResponseReset =>
        flow := ResetCalculate(input.wake);
    }

    /** rot_identity_run_enrollment_step: enroll_puf runs only while the flash holds no enrollment. */
    method RunEnrollmentStep(input: Input) returns (flow: Flow, enrolled: bool)
      requires Woken(input.wake) && input.Valid()
      modifies this, rtcFastMemory
      ensures Out(View(), flow) == DeviceSpec.RunEnrollmentStep(old(View()), input)
      ensures flow == Returns ==> enrolled == Enrolled(nvs)
      ensures response == old(response) || response == null || fresh(response)
      ensures rtcFastMemory[..] == old(rtcFastMemory[..])
    {
      hide DeviceSpec.PuflibInit, DeviceSpec.EnrollPuf;
      flow := PuflibInit(input);
      if flow != Returns {
        return flow, false;
      }
      if !Enrolled(nvs) {
        flow := EnrollPuf(input);
      }
      enrolled := Enrolled(nvs);
    }

    /** rot_identity_get_puf_response: a retry goes through deep sleep and does not come back. */
    method IdentityGetPufResponse(input: Input) returns (flow: Flow, ok: bool, outResponse: array?<bv8>)
      requires Woken(input.wake)
      modifies this, rtcFastMemory
      ensures Got(View(), flow, if ok then Buffer(if outResponse == null then None else Some(outResponse[..]))
                  else Nothing)
              == DeviceSpec.IdentityGetResponse(old(View()), input.attempt)
      ensures ok ==> flow == Returns && outResponse == response
      ensures response == old(response) || response == null || fresh(response)
    {
      hide DeviceSpec.GetPufResponse;
      flow, ok, outResponse := Returns, false, null;
      if !Enrolled(nvs) {
        return;
      }
      if ready {
        retries := 0;
        return Returns, true, response;
      }
      var pufOk;
      flow, pufOk := GetPufResponse(input);
      if flow != Returns {
        return;
      }
      if !pufOk {
        retries := retries + 1;
        if retries > RESET_RETRY_LIMIT {
          retries := 0;
          return;
        }
        lib := ResponseReset;
        return Sleeps, false, null;
      }
      retries := 0;
      return Returns, true, response;
    }

    /** app_main, up to the point where the network or the serial export takes over: `used` is the
        response that the identity is derived from, which is then released. */
    method AppMain(input: Input, library: Library)
      returns (flow: Flow, ok: bool, used: Option<Bytes>, pair: Option<KeyPair>)
      requires Woken(input.wake) && input.Valid()
      modifies this, response, rtcFastMemory
      ensures Got(View(), flow, if ok then Buffer(used) else Nothing) == DeviceSpec.AppMain(old(View()), input)
      ensures pair.Some? ==> used.Some? && IsIdentity(library, nvs, used.value, pair.value)
      ensures used.Some? && pair.None? ==> forall other :: !IsIdentity(library, nvs, used.value, other)
    {
      hide DeviceSpec.RunEnrollmentStep, DeviceSpec.IdentityGetResponse, IsIdentity, DeviceIdentity.InGroup;
      ok, used, pair := false, None, None;
      var enrolled;
      flow, enrolled := RunEnrollmentStep(input);
      if flow != Returns || !enrolled {
        return;
      }
      if input.pinned && !input.online {
        return;
      }
      var outResponse;
      flow, ok, outResponse := IdentityGetPufResponse(input);
      if flow != Returns || !ok {
        return;
      }
      if outResponse != null {
        used := Some(outResponse[..]);
        pair := DeriveKeyPair(library, nvs, used.value);
      }
      CleanPufResponse();
    }
  }

  lemma HelperFields(freqRtc: seq<nat>, freqSleep: seq<nat>)
    ensures var maskHw, h := MaskWeight(freqRtc, freqSleep), Helper(freqRtc, freqSleep);
            var rtc, sleep := MaskedReference(freqRtc, maskHw), MaskedReference(freqSleep, maskHw);
            && maskHw == Min(Floor64(Count(StableBits(freqRtc))), Floor64(Count(StableBits(freqSleep))))
            && maskHw <= Count(StableBits(freqRtc)) && maskHw <= Count(StableBits(freqSleep))
            && |rtc| == |sleep| && h == HelperData(Pack(StableBits(freqRtc)), Pack(StableBits(freqSleep)),
                                                   EccData(sleep, sleep), EccData(rtc, sleep))
            && (CanProvision(freqRtc, freqSleep) <==>
                  (CanApply(StableBits(freqRtc), maskHw) && CanApply(StableBits(freqSleep), maskHw)))
  {
    hide Pack, StableBits, Count, CanApply, EccData;
  }

  lemma AllZeros(freq: seq<uint16>)
    requires |freq| == 8 * PUF_MEMORY_SIZE && forall j | 0 <= j < |freq| :: freq[j] == 0
    ensures freq == Zeros()
  {
  }

  lemma NoCounts(freq: seq<uint16>)
    requires |freq| == 8 * PUF_MEMORY_SIZE && forall j | 0 <= j < |freq| :: freq[j] == 0
    ensures freq == Frequencies([], PUF_MEMORY_SIZE)
  {
  }
}

/**
  One boot of the device as a function: its flash (NVS), the RTC variables that survive deep sleep
  only, and the RAM of one boot.  Measurements and the outcome of the network are inputs.
  The log records the flash writes of the boot in order, so that a power cut can fall between two.
 */
module DeviceSpec {
  import opened Bits
  import opened Options
  import opened EccSpec

  const PUF_MEMORY_SIZE: nat := 0x1000
  const RESET_RETRY_LIMIT: nat := 5

  /** The bytes of one measurement. */
  type Capture = c: Bytes | |c| == PUF_MEMORY_SIZE witness seq(PUF_MEMORY_SIZE, _ => 0)

  datatype Nvs = Nvs(mask: Option<Bytes>, sleepMask: Option<Bytes>, eccSleep: Option<Bytes>, ecc: Option<Bytes>,
                     freq: Option<seq<uint16>>)

  datatype NvsOp =
    | SetMask(blob: Bytes)
    | SetSleepMask(blob: Bytes)
    | SetEccSleep(blob: Bytes)
    | SetEcc(blob: Bytes)
    | SetFreq(freq: seq<uint16>)
    | EraseFreq

  datatype LibState = Idle | Provisioning | ResponseReset

  /** RTC_DATA_ATTR variables; `ready` is PUF_STATE == RESPONSE_READY. */
  datatype Rtc = Rtc(lib: LibState, progress: nat, ready: bool, retries: nat)

  /** `response` is the buffer PUF_RESPONSE points to, if any. */
  datatype Memory = Memory(nvs: Nvs, rtc: Rtc, response: Option<Bytes>, log: seq<NvsOp>)

  /** How a piece of code ends: it returns, enters deep sleep, or fails an assertion (or reads a
      blob that is not there) and panics. */
  datatype Flow = Returns | Sleeps | Panics
  datatype Out = Out(mem: Memory, flow: Flow)

  /** What a boot depends on besides its memory: the measurement taken by the wake stub, the
      enrollment measurements of the first path, that of a first-attempt reconstruction, whether a
      server reference is pinned, and whether the network comes up. */
  datatype Input = Input(wake: Capture, captures: seq<Capture>, attempt: Capture, pinned: bool, online: bool)
  {
    predicate Valid() {
      |captures| == PROVISIONING_MEASUREMENTS
    }
  }

  function Apply(nvs: Nvs, op: NvsOp): Nvs {
    match op
    case SetMask(b) => nvs.(mask := Some(b))
    case SetSleepMask(b) => nvs.(sleepMask := Some(b))
    case SetEccSleep(b) => nvs.(eccSleep := Some(b))
    case SetEcc(b) => nvs.(ecc := Some(b))
    case SetFreq(f) => nvs.(freq := Some(f))
    case EraseFreq => nvs.(freq := None)
  }

  function ApplyAll(nvs: Nvs, ops: seq<NvsOp>): Nvs {
    if ops == [] then nvs else Apply(ApplyAll(nvs, ops[..|ops| - 1]), ops[|ops| - 1])
  }

  function Write(mem: Memory, op: NvsOp): Memory {
    mem.(nvs := Apply(mem.nvs, op), log := mem.log + [op])
  }

  predicate Enrolled(nvs: Nvs) {
    nvs.mask.Some? && nvs.ecc.Some?
  }

  // ---------- enrollment ----------

  function Zeros(): seq<uint16> {
    seq(8 * PUF_MEMORY_SIZE, _ => 0)
  }

  /** Adding one measurement to the 16-bit counters. */
  function AddCapture(freq: seq<uint16>, capture: Capture): (r: seq<uint16>)
    requires |freq| == 8 * PUF_MEMORY_SIZE
    ensures |r| == |freq|
  {
    seq(|freq|, j requires 0 <= j < |freq| => (freq[j] + One(Unpack(capture)[j])) % 0x1_0000)
  }

  /** The 16-bit counters do not wrap: adding a measurement gives the frequencies of one more. */
  lemma AddCaptureCounts(captures: seq<Capture>, capture: Capture)
    requires |captures| + 1 < 0xFFFF
    ensures forall j | 0 <= j < 8 * PUF_MEMORY_SIZE :: Frequencies(captures, PUF_MEMORY_SIZE)[j] < 0x1_0000
    ensures AddCapture(Frequencies(captures, PUF_MEMORY_SIZE), capture)
            == Frequencies(captures + [capture], PUF_MEMORY_SIZE)
  {
    hide Unpack;
    var more := captures + [capture];
    assert more[..|more| - 1] == captures;
    forall j: nat | j < 8 * PUF_MEMORY_SIZE
      ensures Frequencies(captures, PUF_MEMORY_SIZE)[j] < 0xFFFF
      ensures Frequencies(more, PUF_MEMORY_SIZE)[j]
              == Frequencies(captures, PUF_MEMORY_SIZE)[j] + One(Unpack(capture)[j])
    {
    }
  }

  /** pufsleep_bit_frequency_helper */
  function SleepFrequencyStep(mem: Memory, wake: Capture): Out {
    var write :=
      if mem.rtc.progress == 0 then Some(Zeros())
      else if mem.nvs.freq.Some? && |mem.nvs.freq.value| == 8 * PUF_MEMORY_SIZE
      then Some(AddCapture(mem.nvs.freq.value, wake))
      else None;
    if write.None? then Out(mem, Panics)
    else Out(Write(mem, SetFreq(write.value)),
             if mem.rtc.progress == PROVISIONING_MEASUREMENTS then Returns else Sleeps)
  }

  /** get_pufsleep_bit_frequency: past the last iteration it only reads the stored counters. */
  function SleepFrequency(mem: Memory, wake: Capture): Out {
    var step := if mem.rtc.progress <= PROVISIONING_MEASUREMENTS then SleepFrequencyStep(mem, wake)
                else Out(mem, Returns);
    if step.flow == Returns && !(step.mem.nvs.freq.Some? && |step.mem.nvs.freq.value| == 8 * PUF_MEMORY_SIZE)
    then Out(step.mem, Panics)
    else step
  }

  function ProvisionHelper(mem: Memory, freqRtc: seq<nat>, freqSleep: seq<nat>): Out {
    var h := Helper(freqRtc, freqSleep);
    var masks := Write(Write(mem, SetMask(h.mask)), SetSleepMask(h.sleepMask));
    if CanProvision(freqRtc, freqSleep)
    then Out(Write(Write(masks, SetEccSleep(h.eccSleep)), SetEcc(h.ecc)), Returns)
    else Out(masks, Panics)
  }

  function ProvisionCalculate(mem: Memory, input: Input): Out {
    var slept := SleepFrequency(mem, input.wake);
    if slept.flow != Returns then slept else
      var derived := ProvisionHelper(slept.mem, Frequencies(input.captures, PUF_MEMORY_SIZE), slept.mem.nvs.freq.value);
      if derived.flow != Returns then derived else
        Out(Write(Write(derived.mem, SetFreq(Zeros())), EraseFreq), Returns)
  }

  function EnrollPuf(mem: Memory, input: Input): Out {
    match mem.rtc.lib
    case Provisioning => Out(mem.(rtc := mem.rtc.(lib := Idle, progress := 0)), Returns)
    case Idle => ProvisionCalculate(mem.(rtc := mem.rtc.(lib := Provisioning, progress := 0)), input)
    case ResponseReset => Out(mem, Returns)
  }

  // ---------- reconstruction ----------

  /** More than 48.5 % of the measured bits are ones; both sides of the C comparison are exact. */
  predicate GateOk(capture: Capture) {
    200 * Weight(capture) > 97 * (8 * PUF_MEMORY_SIZE)
  }

  function CleanResponse(mem: Memory): Memory {
    mem.(response := None, rtc := mem.rtc.(ready := false))
  }

  /** The blobs of a reconstruction path are there and fit each other. */
  predicate BlobsFit(mask: Option<Bytes>, ecc: Option<Bytes>) {
    mask.Some? && ecc.Some? && |mask.value| == PUF_MEMORY_SIZE && CanReconstruct(mask.value, ecc.value)
  }

  /** Decodes one measurement into PUF_RESPONSE, which the weight gate may clean again. */
  function Accept(mem: Memory, mask: Option<Bytes>, ecc: Option<Bytes>, capture: Capture): Out {
    if !BlobsFit(mask, ecc) then Out(mem, Panics)
    else if GateOk(capture) then
      Out(mem.(response := Some(Reconstruct(mask.value, ecc.value, capture)), rtc := mem.rtc.(ready := true)), Returns)
    else Out(CleanResponse(mem), Returns)
  }

  /** puf_response_reset_calculate: the retry path, from the measurement of the wake stub. */
  function ResetCalculate(mem: Memory, wake: Capture): Out {
    var out := Accept(mem, mem.nvs.sleepMask, mem.nvs.eccSleep, wake);
    if out.flow == Returns then out.(mem := out.mem.(rtc := out.mem.rtc.(lib := Idle))) else out
  }

  /** get_puf_response: the first-attempt path; afterwards `ready` tells whether it succeeded. */
  function GetPufResponse(mem: Memory, attempt: Capture): Out {
    Accept(mem, mem.nvs.mask, mem.nvs.ecc, attempt)
  }

  // ---------- the boot ----------

  function PuflibInit(mem: Memory, input: Input): Out {
    match mem.rtc.lib
    case Idle => Out(mem, Returns)
    case Provisioning =>
      ProvisionCalculate(mem.(rtc := mem.rtc.(progress := mem.rtc.progress + 1)), input)
    case ResponseReset => ResetCalculate(mem, input.wake)
  }

  function RunEnrollmentStep(mem: Memory, input: Input): Out {
    var init := PuflibInit(mem, input);
    if init.flow == Returns && !Enrolled(init.mem.nvs) then EnrollPuf(init.mem, input) else init
  }

  /** What rot_identity_get_puf_response hands to its caller: nothing, or the buffer PUF_RESPONSE
      points to (which may be none). */
  datatype Handed = Nothing | Buffer(response: Option<Bytes>)
  datatype Got = Got(mem: Memory, flow: Flow, handed: Handed)

  function IdentityGetResponse(mem: Memory, attempt: Capture): Got {
    if !Enrolled(mem.nvs) then Got(mem, Returns, Nothing)
    else if mem.rtc.ready then Got(mem.(rtc := mem.rtc.(retries := 0)), Returns, Buffer(mem.response))
    else
      var out := GetPufResponse(mem, attempt);
      if out.flow != Returns then Got(out.mem, out.flow, Nothing)
      else if out.mem.rtc.ready then
        Got(out.mem.(rtc := out.mem.rtc.(retries := 0)), Returns, Buffer(out.mem.response))
      else if out.mem.rtc.retries + 1 > RESET_RETRY_LIMIT then
        Got(out.mem.(rtc := out.mem.rtc.(retries := 0)), Returns, Nothing)
      else
        Got(out.mem.(rtc := out.mem.rtc.(retries := out.mem.rtc.retries + 1, lib := ResponseReset)), Sleeps, Nothing)
  }

  /** app_main: enrollment, then one response, which is released once the caller is done with it. */
  function AppMain(mem: Memory, input: Input): Got {
    var enrollment := RunEnrollmentStep(mem, input);
    if enrollment.flow != Returns then Got(enrollment.mem, enrollment.flow, Nothing)
    else if !Enrolled(enrollment.mem.nvs) || (input.pinned && !input.online) then Got(enrollment.mem, Returns, Nothing)
    else
      var got := IdentityGetResponse(enrollment.mem, input.attempt);
      if got.flow == Returns && got.handed.Buffer? then got.(mem := CleanResponse(got.mem)) else got
  }
}

/**
  Runs of the device: boots, deep sleeps, panics, and power cuts between any two flash writes, from
  a device that was never enrolled.
 */
module DeviceRuns {
  import opened Bits
  import opened EccSpec
  import opened EccTheorems
  import opened Options
  import opened DeviceSpec

  datatype Phase = Off | Asleep | Stopped

  /** The measurements an enrollment was derived from. */
  datatype Origin = Origin(rtc: seq<Capture>, sleep: seq<Capture>)

  /** The device between boots.  `taken` and `origin` are history: the measurements of the deep-sleep
      enrollment in progress, and those of the boot that wrote ECC_DATA. */
  datatype Device = Device(phase: Phase, nvs: Nvs, rtc: Rtc, taken: seq<Capture>, origin: Option<Origin>)

  datatype Step =
    | Boot(input: Input)                  // a boot that runs to its end
    | CutBoot(input: Input, writes: nat)  // the power fails after some flash writes of a boot
    | Cut                                 // the power fails between boots

  const RTC_POWER_ON := Rtc(Idle, 0, false, 0)

  function Factory(): Device {
    Device(Off, Nvs(None, None, None, None, None), RTC_POWER_ON, [], None)
  }

  function RunBoot(d: Device, input: Input): Got {
    AppMain(Memory(d.nvs, d.rtc, None, []), input)
  }

  function Taken(d: Device, input: Input): seq<Capture> {
    if d.rtc.lib == Provisioning then d.taken + [input.wake] else []
  }

  predicate WritesEcc(ops: seq<NvsOp>) {
    exists op | op in ops :: op.SetEcc?
  }

  function OriginAfter(d: Device, input: Input, ops: seq<NvsOp>): Option<Origin> {
    if WritesEcc(ops) then Some(Origin(input.captures, Taken(d, input))) else d.origin
  }

  /** A deep sleep keeps the RTC variables; returning from app_main leaves them until the power
      fails; a panic resets them like a power cut. */
  function AfterBoot(d: Device, input: Input): Device {
    var end := RunBoot(d, input);
    var origin := OriginAfter(d, input, end.mem.log);
    match end.flow
    case Sleeps => Device(Asleep, end.mem.nvs, end.mem.rtc, Taken(d, input), origin)
    case Returns => Device(Stopped, end.mem.nvs, end.mem.rtc, [], origin)
    case Panics => Device(Off, end.mem.nvs, RTC_POWER_ON, [], origin)
  }

  function AfterCut(d: Device, input: Input, writes: nat): Device {
    var log := RunBoot(d, input).mem.log;
    var ops := log[..Min(writes, |log|)];
    Device(Off, ApplyAll(d.nvs, ops), RTC_POWER_ON, [], OriginAfter(d, input, ops))
  }

  predicate CanStep(d: Device, step: Step) {
    match step
    case Boot(input) => d.phase != Stopped && input.Valid()
    case CutBoot(input, _) => d.phase != Stopped && input.Valid()
    case Cut => true
  }

  function Next(d: Device, step: Step): Device {
    match step
    case Boot(input) => AfterBoot(d, input)
    case CutBoot(input, writes) => AfterCut(d, input, writes)
    case Cut => d.(phase := Off, rtc := RTC_POWER_ON, taken := [])
  }

  predicate CanRun(d: Device, steps: seq<Step>)
    decreases |steps|
  {
    steps == [] || (CanStep(d, steps[0]) && CanRun(Next(d, steps[0]), steps[1..]))
  }

  function Run(d: Device, steps: seq<Step>): Device
    decreases |steps|
  {
    if steps == [] then d else Run(Next(d, steps[0]), steps[1..])
  }

  // ---------- what every step keeps ----------

  function OriginFreqs(o: Origin): (seq<nat>, seq<nat>) {
    (Frequencies(o.rtc, PUF_MEMORY_SIZE), Frequencies(o.sleep, PUF_MEMORY_SIZE))
  }

  predicate FullOrigin(o: Origin) {
    |o.rtc| == |o.sleep| == PROVISIONING_MEASUREMENTS && CanProvision(OriginFreqs(o).0, OriginFreqs(o).1)
  }

  /** The four helper blobs are there and come from one enrollment. */
  predicate HelperFrom(nvs: Nvs, o: Origin) {
    var h := Helper(OriginFreqs(o).0, OriginFreqs(o).1);
    && nvs.mask == Some(h.mask) && nvs.sleepMask == Some(h.sleepMask)
    && nvs.eccSleep == Some(h.eccSleep) && nvs.ecc == Some(h.ecc)
  }

  predicate EnrolledFromOne(nvs: Nvs, origin: Option<Origin>) {
    nvs.ecc.Some? ==> origin.Some? && FullOrigin(origin.value) && HelperFrom(nvs, origin.value)
  }

  /** A sleeping device is either in the middle of an enrollment, holding the sum of exactly the
      measurements taken so far, or enrolled and retrying; in neither case does it hold a response. */
  predicate SleepOk(d: Device) {
    && !d.rtc.ready
    && match d.rtc.lib
       case Idle => false
       case Provisioning =>
         && !Enrolled(d.nvs) && d.rtc.retries == 0
         && d.rtc.progress == |d.taken| < PROVISIONING_MEASUREMENTS
         && d.nvs.freq == Some(Frequencies(d.taken, PUF_MEMORY_SIZE))
       case ResponseReset => Enrolled(d.nvs) && 1 <= d.rtc.retries <= RESET_RETRY_LIMIT
  }

  predicate Inv(d: Device) {
    && EnrolledFromOne(d.nvs, d.origin)
    && (d.phase == Off ==> d.rtc == RTC_POWER_ON)
    && (d.phase == Asleep ==> SleepOk(d))
  }

  // ---------- the boots of an enrollment ----------

  /** The next wake adds a measurement and sleeps again. */
  predicate Counting(d: Device) {
    d.phase == Asleep && d.rtc.lib == Provisioning && d.rtc.progress < PROVISIONING_MEASUREMENTS - 1
  }

  /** The next wake takes the last measurement. */
  predicate Deriving(d: Device) {
    d.phase == Asleep && d.rtc.lib == Provisioning && d.rtc.progress == PROVISIONING_MEASUREMENTS - 1
  }

  function BootOrigin(d: Device, input: Input): Origin {
    Origin(input.captures, d.taken + [input.wake])
  }

  lemma NoCapturesCountZero()
    ensures Frequencies([], PUF_MEMORY_SIZE) == Zeros()
  {
  }

  /** A power-on without enrollment zeroes the counters and sleeps. */
  lemma StartingBoot(d: Device, input: Input)
    requires Inv(d) && d.phase == Off && !Enrolled(d.nvs)
    ensures var end := RunBoot(d, input);
            && end.flow == Sleeps && end.mem.log == [SetFreq(Zeros())]
            && end.mem.nvs == d.nvs.(freq := Some(Zeros()))
            && end.mem.rtc == Rtc(Provisioning, 0, false, 0)
  {
    hide Zeros;
  }

  /** Each of the next 19 wakes adds its measurement and sleeps. */
  lemma CountingBoot(d: Device, input: Input)
    requires Inv(d) && Counting(d)
    ensures var end, freq := RunBoot(d, input), Frequencies(d.taken + [input.wake], PUF_MEMORY_SIZE);
            && end.flow == Sleeps && |end.mem.log| == 1 && end.mem.log[0].SetFreq? && end.mem.log[0].freq == freq
            && end.mem.nvs == Apply(d.nvs, end.mem.log[0])
            && end.mem.rtc == Rtc(Provisioning, d.rtc.progress + 1, false, 0)
  {
    hide Frequencies, AddCapture;
    AddCaptureCounts(d.taken, input.wake);
  }

  predicate AllBlobsFit(nvs: Nvs) {
    BlobsFit(nvs.mask, nvs.ecc) && BlobsFit(nvs.sleepMask, nvs.eccSleep)
  }

  /** The blobs of one enrollment fit each other on both reconstruction paths. */
  lemma OneEnrollmentFits(nvs: Nvs, o: Origin)
    requires FullOrigin(o) && HelperFrom(nvs, o)
    ensures AllBlobsFit(nvs)
  {
    hide Helper, CanReconstruct, CanProvision, Unpack, StableBits;
    HelperFits(OriginFreqs(o).0, OriginFreqs(o).1);
  }

  /** The part of a boot after enrollment, on memory whose blobs fit: it leaves the flash alone, and
      hands out a response of this boot, gives up, or sleeps with the response cleaned. */
  lemma ResponsePart(mem: Memory, attempt: Capture)
    requires Enrolled(mem.nvs) && BlobsFit(mem.nvs.mask, mem.nvs.ecc)
    requires mem.rtc.ready ==> mem.response.Some?
    ensures var got := IdentityGetResponse(mem, attempt);
            && got.mem.nvs == mem.nvs && got.mem.log == mem.log && got.flow != Panics
            && (got.mem.rtc.ready ==> got.mem.response.Some?)
            && (got.flow == Sleeps ==>
                  (&& !mem.rtc.ready && mem.rtc.retries < RESET_RETRY_LIMIT
                   && got.mem.rtc == Rtc(ResponseReset, mem.rtc.progress, false, mem.rtc.retries + 1)))
            && (got.handed.Buffer? ==>
                  (&& got.flow == Returns
                   && got.handed == Buffer(Some(if mem.rtc.ready then mem.response.value
                                                else Reconstruct(mem.nvs.mask.value, mem.nvs.ecc.value, attempt)))))
            && (got.handed == Nothing <==> !mem.rtc.ready && !GateOk(attempt))
            && (got.flow == Sleeps <==> got.handed == Nothing && mem.rtc.retries < RESET_RETRY_LIMIT)
  {
    hide Reconstruct, CanReconstruct, GateOk;
  }

  function FullLog(freq: seq<uint16>, h: HelperData): seq<NvsOp> {
    [SetFreq(freq), SetMask(h.mask), SetSleepMask(h.sleepMask), SetEccSleep(h.eccSleep), SetEcc(h.ecc),
     SetFreq(Zeros()), EraseFreq]
  }

  /** The 20th wake derives the helper data, writing ECC_DATA after the other three blobs and erasing
      the counters last; without 64 stable bits it panics before the helper data is written. */
  lemma DerivingBoot(d: Device, input: Input)
    requires Inv(d) && Deriving(d) && input.Valid()
    ensures var o := BootOrigin(d, input);
            var h := Helper(OriginFreqs(o).0, OriginFreqs(o).1);
            var init := PuflibInit(Memory(d.nvs, d.rtc, None, []), input);
            && |OriginFreqs(o).1| == 8 * PUF_MEMORY_SIZE
            && (forall j | 0 <= j < 8 * PUF_MEMORY_SIZE :: OriginFreqs(o).1[j] < 0x1_0000)
            && var log := FullLog(OriginFreqs(o).1, h);
            if FullOrigin(o) then
              && init.flow == Returns && init.mem.log == log
              && init.mem.nvs == Nvs(Some(h.mask), Some(h.sleepMask), Some(h.eccSleep), Some(h.ecc), None)
              && init.mem.rtc == Rtc(Provisioning, PROVISIONING_MEASUREMENTS, false, 0) && init.mem.response == None
            else
              && init.flow == Panics && init.mem.log == log[..3]
              && init.mem.nvs == d.nvs.(freq := Some(OriginFreqs(o).1), mask := Some(h.mask),
                                        sleepMask := Some(h.sleepMask))
  {
    hide Frequencies, AddCapture, Helper, CanProvision, Zeros;
    AddCaptureCounts(d.taken, input.wake);
  }

  /** The boot keeps the response it decoded from the measurement of its wake stub. */
  predicate TakesWake(d: Device, input: Input) {
    d.phase == Asleep && d.rtc.lib == ResponseReset && GateOk(input.wake)
  }

  /** The response handed out was decoded in this boot: on the retry path from the measurement of the
      wake stub if that passed the weight gate, and otherwise on the first-attempt path. */
  predicate FromThisBoot(d: Device, nvs: Nvs, input: Input, response: Bytes)
    requires AllBlobsFit(nvs)
  {
    response == if TakesWake(d, input) then Reconstruct(nvs.sleepMask.value, nvs.eccSleep.value, input.wake)
                else Reconstruct(nvs.mask.value, nvs.ecc.value, input.attempt)
  }

  predicate HandedFromThisBoot(d: Device, nvs: Nvs, input: Input, handed: Handed)
    requires AllBlobsFit(nvs)
  {
    handed.Buffer? ==> handed.response.Some? && FromThisBoot(d, nvs, input, handed.response.value)
  }

  /** app_main gets as far as asking for a response. */
  predicate Proceeds(input: Input) {
    input.pinned ==> input.online
  }

  /** Both measurements an enrolled boot would decode are rejected by the weight gate. */
  predicate Rejected(d: Device, input: Input) {
    !GateOk(input.attempt) && !(d.rtc.lib == ResponseReset && GateOk(input.wake))
  }

  /** Once enrolled, a boot writes nothing to the flash, never panics and never starts an
      enrollment: it sleeps only to retry, at most RESET_RETRY_LIMIT times. */
  lemma EnrolledBoot(d: Device, input: Input)
    requires Inv(d) && d.phase != Stopped && Enrolled(d.nvs) && input.Valid()
    ensures AllBlobsFit(d.nvs)
    ensures var end := RunBoot(d, input);
            && end.mem.log == [] && end.mem.nvs == d.nvs && end.flow != Panics
            && (end.flow == Sleeps ==>
                  d.rtc.retries < RESET_RETRY_LIMIT
                  && end.mem.rtc == Rtc(ResponseReset, d.rtc.progress, false, d.rtc.retries + 1))
            && HandedFromThisBoot(d, d.nvs, input, end.handed)
            && (end.flow == Sleeps <==> Proceeds(input) && Rejected(d, input) && d.rtc.retries < RESET_RETRY_LIMIT)
            && (end.handed.Buffer? <==> Proceeds(input) && !Rejected(d, input))
  {
    hide CanReconstruct, Reconstruct, GateOk, FullOrigin, HelperFrom, IdentityGetResponse;
    OneEnrollmentFits(d.nvs, d.origin.value);
    var init := PuflibInit(Memory(d.nvs, d.rtc, None, []), input);
    assert init.flow == Returns && init.mem.nvs == d.nvs;
    ResponsePart(init.mem, input.attempt);
  }

  /** The 20th wake, seen from its end. */
  lemma DerivedBoot(d: Device, input: Input)
    requires Inv(d) && Deriving(d) && input.Valid()
    ensures var o, end := BootOrigin(d, input), RunBoot(d, input);
            var h := Helper(OriginFreqs(o).0, OriginFreqs(o).1);
            && |OriginFreqs(o).1| == 8 * PUF_MEMORY_SIZE
            && (forall j | 0 <= j < 8 * PUF_MEMORY_SIZE :: OriginFreqs(o).1[j] < 0x1_0000)
            && var log := FullLog(OriginFreqs(o).1, h);
            if FullOrigin(o) then
              && end.mem.log == log && end.flow != Panics
              && end.mem.nvs == Nvs(Some(h.mask), Some(h.sleepMask), Some(h.eccSleep), Some(h.ecc), None)
              && AllBlobsFit(end.mem.nvs) && HandedFromThisBoot(d, end.mem.nvs, input, end.handed)
              && (end.flow == Sleeps ==> end.mem.rtc == Rtc(ResponseReset, PROVISIONING_MEASUREMENTS, false, 1))
              && (end.flow == Sleeps <==> Proceeds(input) && !GateOk(input.attempt))
              && (end.handed.Buffer? <==> Proceeds(input) && GateOk(input.attempt))
            else
              && end.mem.log == log[..3] && end.flow == Panics
              && end.mem.nvs == d.nvs.(freq := Some(OriginFreqs(o).1), mask := Some(h.mask),
                                       sleepMask := Some(h.sleepMask))
  {
    hide Frequencies, Helper, CanProvision, Zeros, FullLog, CanReconstruct, Reconstruct, GateOk, IdentityGetResponse;
    hide PuflibInit;
    DerivingBoot(d, input);
    var o := BootOrigin(d, input);
    var init := PuflibInit(Memory(d.nvs, d.rtc, None, []), input);
    if FullOrigin(o) {
      OneEnrollmentFits(init.mem.nvs, o);
      ResponsePart(init.mem, input.attempt);
    }
  }

  // ---------- power cuts ----------

  lemma ApplyOneMore(nvs: Nvs, ops: seq<NvsOp>, k: nat)
    requires k < |ops|
    ensures ApplyAll(nvs, ops[..k + 1]) == Apply(ApplyAll(nvs, ops[..k]), ops[k])
  {
    assert ops[..k + 1][..k] == ops[..k];
  }

  /** What the flash holds when the power fails after `k` writes of the deriving boot: the helper
      data is complete from the fifth write on, the counters are gone only after the seventh. */
  lemma CutDeriving(nvs: Nvs, freq: seq<uint16>, h: HelperData, k: nat)
    requires k <= 7
    ensures var after := ApplyAll(nvs, FullLog(freq, h)[..k]);
            && after.mask == (if k >= 2 then Some(h.mask) else nvs.mask)
            && after.sleepMask == (if k >= 3 then Some(h.sleepMask) else nvs.sleepMask)
            && after.eccSleep == (if k >= 4 then Some(h.eccSleep) else nvs.eccSleep)
            && after.ecc == (if k >= 5 then Some(h.ecc) else nvs.ecc)
            && after.freq == (if k == 0 then nvs.freq else if k <= 5 then Some(freq)
                              else if k == 6 then Some(Zeros()) else None)
    ensures WritesEcc(FullLog(freq, h)[..k]) <==> k >= 5
  {
    hide Zeros;
    var log := FullLog(freq, h);
    assert log[..0] == [];
    for i: nat := 0 to k
      invariant var after := ApplyAll(nvs, log[..i]);
                && after.mask == (if i >= 2 then Some(h.mask) else nvs.mask)
                && after.sleepMask == (if i >= 3 then Some(h.sleepMask) else nvs.sleepMask)
                && after.eccSleep == (if i >= 4 then Some(h.eccSleep) else nvs.eccSleep)
                && after.ecc == (if i >= 5 then Some(h.ecc) else nvs.ecc)
                && after.freq == (if i == 0 then nvs.freq else if i <= 5 then Some(freq)
                                  else if i == 6 then Some(Zeros()) else None)
    {
      ApplyOneMore(nvs, log, i);
    }
    if k >= 5 {
      assert log[..k][4].SetEcc?;
    } else {
      assert forall i | 0 <= i < k :: !log[..k][i].SetEcc?;
    }
  }

  // ---------- every step keeps the invariant ----------

  lemma SingleSetFreq(nvs: Nvs, freq: seq<uint16>, k: nat)
    ensures var after := ApplyAll(nvs, [SetFreq(freq)][..Min(k, 1)]);
            after == if k == 0 then nvs else nvs.(freq := Some(freq))
    ensures !WritesEcc([SetFreq(freq)][..Min(k, 1)])
  {
    assert [SetFreq(freq)][..0] == [] && [SetFreq(freq)][..1] == [SetFreq(freq)];
    assert ApplyAll(nvs, []) == nvs;
  }

  lemma BootKeeps(d: Device, input: Input)
    requires Inv(d) && d.phase != Stopped && input.Valid()
    ensures Inv(AfterBoot(d, input))
  {
    hide Frequencies, Helper, CanProvision, RunBoot, Zeros;
    if Enrolled(d.nvs) {
      EnrolledBoot(d, input);
    } else if d.phase == Off {
      StartingBoot(d, input);
      NoCapturesCountZero();
      SingleSetFreq(d.nvs, Zeros(), 1);
    } else if Counting(d) {
      CountingBoot(d, input);
      var freq := RunBoot(d, input).mem.log[0].freq;
      SingleSetFreq(d.nvs, freq, 1);
      assert RunBoot(d, input).mem.log == [SetFreq(freq)];
      assert [SetFreq(freq)][..1] == [SetFreq(freq)];
    } else {
      DerivingKeeps(d, input);
    }
  }

  lemma DerivingKeeps(d: Device, input: Input)
    requires Inv(d) && Deriving(d) && input.Valid()
    ensures Inv(AfterBoot(d, input))
  {
    hide Frequencies, Helper, CanProvision, RunBoot, Zeros, AllBlobsFit, HandedFromThisBoot, GateOk, FullOrigin;
    DerivedBoot(d, input);
    var o := BootOrigin(d, input);
    var freq := OriginFreqs(o).1;
    var h := Helper(OriginFreqs(o).0, freq);
    assert FullLog(freq, h)[..7] == FullLog(freq, h);
    CutDeriving(d.nvs, freq, h, if FullOrigin(o) then 7 else 3);
  }

  lemma CutKeeps(d: Device, input: Input, writes: nat)
    requires Inv(d) && d.phase != Stopped && input.Valid()
    ensures Inv(AfterCut(d, input, writes))
  {
    hide Frequencies, Helper, CanProvision, RunBoot, Zeros;
    if Enrolled(d.nvs) {
      EnrolledBoot(d, input);
    } else if d.phase == Off {
      StartingBoot(d, input);
      SingleSetFreq(d.nvs, Zeros(), writes);
    } else if Counting(d) {
      CountingBoot(d, input);
      var freq := RunBoot(d, input).mem.log[0].freq;
      assert RunBoot(d, input).mem.log == [SetFreq(freq)];
      SingleSetFreq(d.nvs, freq, writes);
    } else {
      CutDerivingKeeps(d, input, writes);
    }
  }

  lemma CutDerivingKeeps(d: Device, input: Input, writes: nat)
    requires Inv(d) && Deriving(d) && input.Valid()
    ensures Inv(AfterCut(d, input, writes))
  {
    hide Frequencies, Helper, CanProvision, RunBoot, Zeros, AllBlobsFit, HandedFromThisBoot, GateOk, FullOrigin;
    DerivedBoot(d, input);
    var o := BootOrigin(d, input);
    var freq := OriginFreqs(o).1;
    var h := Helper(OriginFreqs(o).0, freq);
    var log := FullLog(freq, h);
    var k := Min(writes, if FullOrigin(o) then 7 else 3);
    CutDeriving(d.nvs, freq, h, k);
    assert log[..3][..Min(writes, 3)] == log[..Min(writes, 3)];
  }

  lemma NextKeeps(d: Device, step: Step)
    requires Inv(d) && CanStep(d, step)
    ensures Inv(Next(d, step))
  {
    match step
    case Boot(input) => BootKeeps(d, input);
    case CutBoot(input, writes) => CutKeeps(d, input, writes);
    case Cut =>
  }

  /** In every run from the factory state the invariant holds. */
  lemma {:induction false} RunKeeps(d: Device, steps: seq<Step>)
    requires Inv(d) && CanRun(d, steps)
    ensures Inv(Run(d, steps))
    decreases |steps|
  {
    hide Inv, Next, CanStep;
    if steps == [] {
    } else {
      NextKeeps(d, steps[0]);
      RunKeeps(Next(d, steps[0]), steps[1..]);
    }
  }

  // ---------- safety over whole runs ----------

  predicate Reachable(d: Device, steps: seq<Step>) {
    CanRun(Factory(), steps) && d == Run(Factory(), steps)
  }

  lemma ReachableKeeps(d: Device, steps: seq<Step>)
    requires Reachable(d, steps)
    ensures Inv(d)
  {
    hide Run, CanRun;
    RunKeeps(Factory(), steps);
  }

  /** In every run, however often the power fails, an enrolled device holds all four blobs of one
      enrollment of 20 measurements on either path, and they fit each other. */
  lemma EnrolledMeansOneEnrollment(d: Device, steps: seq<Step>)
    requires Reachable(d, steps) && Enrolled(d.nvs)
    ensures d.origin.Some? && FullOrigin(d.origin.value) && HelperFrom(d.nvs, d.origin.value) && AllBlobsFit(d.nvs)
  {
    hide HelperFrom, FullOrigin, Run, CanRun;
    ReachableKeeps(d, steps);
    OneEnrollmentFits(d.nvs, d.origin.value);
  }

  /** From then on no step changes the flash, and so no run does. */
  lemma {:induction false} EnrolledFrozen(d: Device, steps: seq<Step>)
    requires Inv(d) && Enrolled(d.nvs) && CanRun(d, steps)
    ensures Run(d, steps).nvs == d.nvs && Run(d, steps).origin == d.origin
    decreases |steps|
  {
    hide Inv, AllBlobsFit, RunBoot, HandedFromThisBoot;
    if steps == [] {
    } else {
      var step := steps[0];
      if !step.Cut? {
        EnrolledBoot(d, step.input);
        assert ApplyAll(d.nvs, []) == d.nvs;
      }
      NextKeeps(d, step);
      EnrolledFrozen(Next(d, step), steps[1..]);
    }
  }

  /** After k wakes of an enrollment the stored counters are the sums of exactly those k
      measurements; no wake ever finds an enrollment that already has all 20. */
  lemma CountersAreTheMeasurements(d: Device, steps: seq<Step>)
    requires Reachable(d, steps) && d.phase == Asleep && d.rtc.lib == Provisioning
    ensures d.rtc.progress == |d.taken| < 20
    ensures d.nvs.freq == Some(Frequencies(d.taken, PUF_MEMORY_SIZE))
  {
    hide Run, CanRun;
    ReachableKeeps(d, steps);
  }

  /** Whatever a boot hands out was decoded in that boot. */
  lemma HandedIsFresh(d: Device, input: Input)
    requires Inv(d) && d.phase != Stopped && input.Valid() && RunBoot(d, input).handed.Buffer?
    ensures var end := RunBoot(d, input);
            AllBlobsFit(end.mem.nvs) && HandedFromThisBoot(d, end.mem.nvs, input, end.handed)
  {
    hide RunBoot, AllBlobsFit, HandedFromThisBoot, Frequencies, FullLog;
    SleepsHandNothing(d, input);
    if Enrolled(d.nvs) {
      EnrolledBoot(d, input);
    } else if d.phase == Off {
      StartingBoot(d, input);
    } else if Counting(d) {
      CountingBoot(d, input);
    } else {
      DerivedBoot(d, input);
    }
  }

  /** The response flag survives deep sleep and the buffer does not, but no device sleeps with the
      flag set; so a boot never hands out a response that it did not decode itself. */
  lemma NoStaleResponse(d: Device, steps: seq<Step>, input: Input)
    requires Reachable(d, steps) && d.phase != Stopped && input.Valid()
    ensures d.phase == Asleep ==> !d.rtc.ready
    ensures var end := RunBoot(d, input);
            end.handed.Buffer? ==> AllBlobsFit(end.mem.nvs) && HandedFromThisBoot(d, end.mem.nvs, input, end.handed)
  {
    hide Run, CanRun, RunBoot, AllBlobsFit, HandedFromThisBoot;
    ReachableKeeps(d, steps);
    if RunBoot(d, input).handed.Buffer? {
      HandedIsFresh(d, input);
    }
  }

  lemma SleepsHandNothing(d: Device, input: Input)
    ensures RunBoot(d, input).flow != Returns ==> RunBoot(d, input).handed == Nothing
  {
    hide RunEnrollmentStep, GetPufResponse;
  }

  /** PUF_STATE == RESPONSE_READY means that there is a response buffer. */
  predicate ReadyMeansBuffer(mem: Memory) {
    mem.rtc.ready ==> mem.response.Some?
  }

  /** Every stage of a boot keeps that, from any memory, reachable or not. */
  lemma StagesKeepReady(mem: Memory, input: Input)
    requires ReadyMeansBuffer(mem)
    ensures ReadyMeansBuffer(PuflibInit(mem, input).mem) && ReadyMeansBuffer(RunEnrollmentStep(mem, input).mem)
    ensures ReadyMeansBuffer(GetPufResponse(mem, input.attempt).mem)
    ensures ReadyMeansBuffer(IdentityGetResponse(mem, input.attempt).mem)
    ensures ReadyMeansBuffer(AppMain(mem, input).mem)
  {
    hide ProvisionCalculate, Reconstruct, BlobsFit, GateOk, Enrolled;
    var first := mem.(rtc := mem.rtc.(lib := Provisioning, progress := 0));
    var next := mem.(rtc := mem.rtc.(progress := mem.rtc.progress + 1));
    EnrollmentKeepsResponse(first, input);
    EnrollmentKeepsResponse(next, input);
    var init := PuflibInit(mem, input).mem;
    EnrollmentKeepsResponse(init.(rtc := init.rtc.(lib := Provisioning, progress := 0)), input);
  }

  lemma EnrollmentKeepsResponse(mem: Memory, input: Input)
    ensures var after := ProvisionCalculate(mem, input).mem; after.rtc == mem.rtc && after.response == mem.response
  {
    hide Helper, CanProvision, Frequencies, AddCapture, Zeros;
  }

  // ---------- how a boot ends ----------

  /** How a boot must end, told from its state and inputs alone. */
  function Outcome(d: Device, input: Input): Flow {
    if Enrolled(d.nvs) then
      if Proceeds(input) && Rejected(d, input) && d.rtc.retries < RESET_RETRY_LIMIT then Sleeps else Returns
    else if !Deriving(d) then Sleeps
    else if !FullOrigin(BootOrigin(d, input)) then Panics
    else if Proceeds(input) && !GateOk(input.attempt) then Sleeps
    else Returns
  }

  lemma BootOutcome(d: Device, input: Input)
    requires Inv(d) && d.phase != Stopped && input.Valid()
    ensures RunBoot(d, input).flow == Outcome(d, input)
  {
    hide RunBoot, AllBlobsFit, HandedFromThisBoot, Frequencies, FullLog, GateOk, FullOrigin, Helper;
    if Enrolled(d.nvs) {
      EnrolledBoot(d, input);
    } else if d.phase == Off {
      StartingBoot(d, input);
    } else if Counting(d) {
      CountingBoot(d, input);
    } else {
      DerivedBoot(d, input);
    }
  }

  /** How many deep sleeps are left before app_main must return: the measurements an enrollment still
      needs, then the retries. */
  function Budget(d: Device): nat {
    match d.phase
    case Stopped => 0
    case Off => if Enrolled(d.nvs) then RESET_RETRY_LIMIT else PROVISIONING_MEASUREMENTS + RESET_RETRY_LIMIT
    case Asleep =>
      if d.rtc.lib == Provisioning && d.rtc.progress < PROVISIONING_MEASUREMENTS
      then PROVISIONING_MEASUREMENTS - 1 - d.rtc.progress + RESET_RETRY_LIMIT
      else if d.rtc.retries < RESET_RETRY_LIMIT then RESET_RETRY_LIMIT - d.rtc.retries else 0
  }

  /** Every deep sleep uses up exactly one. */
  lemma SleepCosts(d: Device, input: Input)
    requires Inv(d) && d.phase != Stopped && input.Valid() && RunBoot(d, input).flow == Sleeps
    ensures Budget(d) == Budget(AfterBoot(d, input)) + 1
  {
    hide RunBoot, AllBlobsFit, HandedFromThisBoot, Frequencies, FullLog, GateOk, FullOrigin, Helper, OriginAfter;
    if Enrolled(d.nvs) {
      EnrolledBoot(d, input);
    } else if d.phase == Off {
      StartingBoot(d, input);
    } else if Counting(d) {
      CountingBoot(d, input);
    } else {
      DerivedBoot(d, input);
    }
  }

  /** Boots that all end in deep sleep, one waking from the other. */
  predicate AllSleep(d: Device, inputs: seq<Input>)
    decreases |inputs|
  {
    inputs == [] || (CanStep(d, Boot(inputs[0])) && RunBoot(d, inputs[0]).flow == Sleeps
                     && AllSleep(AfterBoot(d, inputs[0]), inputs[1..]))
  }

  lemma {:induction false} SleepsWithinBudget(d: Device, inputs: seq<Input>)
    requires Inv(d) && AllSleep(d, inputs)
    ensures |inputs| <= Budget(d)
    decreases |inputs|
  {
    hide Inv, RunBoot, AfterBoot, Budget;
    if inputs == [] {
    } else {
      SleepCosts(d, inputs[0]);
      BootKeeps(d, inputs[0]);
      SleepsWithinBudget(AfterBoot(d, inputs[0]), inputs[1..]);
    }
  }

  /** From a power-on, whatever the measurements and the network do, at most 25 deep sleeps follow
      each other: 20 of an enrollment and 5 retries. */
  lemma AppMainFinishes(d: Device, steps: seq<Step>, inputs: seq<Input>)
    requires Reachable(d, steps) && AllSleep(d, inputs)
    ensures |inputs| <= 25
    ensures Enrolled(d.nvs) ==> |inputs| <= 5
  {
    hide Run, CanRun, RunBoot;
    ReachableKeeps(d, steps);
    SleepsWithinBudget(d, inputs);
  }

  /** Boots whose measurements all fail the weight gate, on a device whose enrollment succeeds. */
  predicate AllRejected(d: Device, inputs: seq<Input>)
    decreases |inputs|
  {
    inputs == [] || (inputs[0].Valid() && Proceeds(inputs[0]) && !GateOk(inputs[0].attempt) && !GateOk(inputs[0].wake)
                     && (Deriving(d) ==> FullOrigin(BootOrigin(d, inputs[0])))
                     && AllRejected(AfterBoot(d, inputs[0]), inputs[1..]))
  }

  /** The device after boots that wake one from the other. */
  function AfterBoots(d: Device, inputs: seq<Input>): Device
    decreases |inputs|
  {
    if inputs == [] then d else AfterBoots(AfterBoot(d, inputs[0]), inputs[1..])
  }

  /** The bound is met: with every measurement rejected, the device sleeps exactly as often as its
      budget says, and the boot after that gives up: it returns without a response. */
  lemma {:induction false} RejectionUsesTheBudget(d: Device, inputs: seq<Input>)
    requires Inv(d) && d.phase != Stopped && AllRejected(d, inputs) && |inputs| == Budget(d) + 1
    ensures AllSleep(d, inputs[..Budget(d)])
    ensures var end := RunBoot(AfterBoots(d, inputs[..Budget(d)]), inputs[Budget(d)]);
            end.flow == Returns && end.handed == Nothing
    decreases |inputs|
  {
    hide Inv, RunBoot, AfterBoot, GateOk, FullOrigin, CanStep;
    var input := inputs[0];
    if Budget(d) > 0 {
      assert RunBoot(d, input).flow == Sleeps && CanStep(d, Boot(input)) by {
        BudgetMeansSleep(d, input);
      }
      SleepCosts(d, input);
      BootKeeps(d, input);
      var next := AfterBoot(d, input);
      assert next.phase == Asleep by {
        SleepsAreAsleep(d, input);
      }
      RejectionUsesTheBudget(next, inputs[1..]);
      assert inputs[..Budget(d)][0] == input;
      assert inputs[..Budget(d)][1..] == inputs[1..][..Budget(next)];
    } else {
      GivesUp(d, input);
    }
  }

  lemma GivesUp(d: Device, input: Input)
    requires Inv(d) && d.phase != Stopped && Budget(d) == 0 && AllRejected(d, [input])
    ensures RunBoot(d, input).flow == Returns && RunBoot(d, input).handed == Nothing
  {
    hide RunBoot, AfterBoot, GateOk, FullOrigin, AllBlobsFit, HandedFromThisBoot;
    BootOutcome(d, input);
    EnrolledBoot(d, input);
  }

  /** Boots none of which takes the last measurement of an enrollment that leaves too few stable bits. */
  predicate NoneStarved(d: Device, inputs: seq<Input>)
    decreases |inputs|
  {
    inputs == [] || (inputs[0].Valid() && (Deriving(d) ==> FullOrigin(BootOrigin(d, inputs[0])))
                     && NoneStarved(AfterBoot(d, inputs[0]), inputs[1..]))
  }

  /** Among one more boots than the budget, one returns from app_main, after nothing but deep sleeps. */
  lemma {:induction false} SomeBootReturns(d: Device, inputs: seq<Input>) returns (k: nat)
    requires Inv(d) && d.phase != Stopped && NoneStarved(d, inputs) && |inputs| > Budget(d)
    ensures k <= Budget(d) && AllSleep(d, inputs[..k]) && RunBoot(AfterBoots(d, inputs[..k]), inputs[k]).flow == Returns
    decreases |inputs|
  {
    hide Inv, RunBoot, AfterBoot, FullOrigin, CanStep, Deriving, Budget;
    var input := inputs[0];
    NoPanic(d, input);
    if RunBoot(d, input).flow == Returns {
      k := 0;
    } else {
      SleepCosts(d, input);
      BootKeeps(d, input);
      SleepsAreAsleep(d, input);
      var j := SomeBootReturns(AfterBoot(d, input), inputs[1..]);
      k := j + 1;
      assert inputs[..k][0] == input && inputs[..k][1..] == inputs[1..][..j];
    }
  }

  lemma NoPanic(d: Device, input: Input)
    requires Inv(d) && d.phase != Stopped && input.Valid() && (Deriving(d) ==> FullOrigin(BootOrigin(d, input)))
    ensures RunBoot(d, input).flow != Panics && CanStep(d, Boot(input))
  {
    hide RunBoot, AfterBoot, GateOk, FullOrigin;
    BootOutcome(d, input);
  }

  /** From any reachable state app_main returns within 26 boots, and within 6 once enrolled, whatever
      the measurements and the network do, as long as enrollment finds enough stable bits. */
  lemma AppMainReturns(d: Device, steps: seq<Step>, inputs: seq<Input>) returns (k: nat)
    requires Reachable(d, steps) && d.phase != Stopped && NoneStarved(d, inputs)
    requires |inputs| > if Enrolled(d.nvs) then 5 else 25
    ensures k < |inputs| && k <= 25
    ensures Enrolled(d.nvs) ==> k <= 5
    ensures AllSleep(d, inputs[..k]) && RunBoot(AfterBoots(d, inputs[..k]), inputs[k]).flow == Returns
  {
    hide Run, CanRun, RunBoot;
    ReachableKeeps(d, steps);
    k := SomeBootReturns(d, inputs);
  }

  lemma SleepsAreAsleep(d: Device, input: Input)
    ensures RunBoot(d, input).flow == Sleeps <==> AfterBoot(d, input).phase == Asleep
  {
    hide RunBoot;
  }

  lemma BudgetMeansSleep(d: Device, input: Input)
    requires Inv(d) && d.phase != Stopped && Budget(d) > 0 && AllRejected(d, [input])
    ensures RunBoot(d, input).flow == Sleeps && CanStep(d, Boot(input))
  {
    hide RunBoot, AfterBoot, GateOk, FullOrigin;
    BootOutcome(d, input);
  }

  /** A boot panics only where the last enrollment measurement leaves too few stable bits: fewer than
      64 on a path, and some on one of them. */
  lemma PanicsIff(d: Device, steps: seq<Step>, input: Input)
    requires Reachable(d, steps) && d.phase != Stopped && input.Valid()
    ensures RunBoot(d, input).flow == Panics <==>
              Deriving(d) &&
              var (rtc, sleep) := OriginFreqs(BootOrigin(d, input));
              var m, n := Count(StableBits(rtc)), Count(StableBits(sleep));
              !(m >= 64 && n >= 64) && !(m == 0 && n == 0)
  {
    hide Run, CanRun, RunBoot, Frequencies, CanProvision, GateOk, Count, StableBits;
    ReachableKeeps(d, steps);
    BootOutcome(d, input);
    var o := BootOrigin(d, input);
    CanProvisionIff(OriginFreqs(o).0, OriginFreqs(o).1);
  }

  /** A device that has no response yet never restarts an enrollment by retrying. */
  lemma RetryNeverEnrolls(d: Device, steps: seq<Step>, input: Input)
    requires Reachable(d, steps) && d.phase == Asleep && d.rtc.lib == ResponseReset && input.Valid()
    ensures Enrolled(d.nvs) && RunBoot(d, input).mem.log == []
    ensures AfterBoot(d, input).rtc.lib != Provisioning
  {
    hide Run, CanRun, RunBoot, AllBlobsFit, HandedFromThisBoot, GateOk;
    ReachableKeeps(d, steps);
    EnrolledBoot(d, input);
    RetryReturnsIdle(d, input);
  }

  lemma RetryReturnsIdle(d: Device, input: Input)
    requires d.rtc.lib == ResponseReset && Enrolled(d.nvs)
    ensures RunBoot(d, input).mem.rtc.lib != Provisioning
  {
    hide Accept;
    AcceptKeepsLib(Memory(d.nvs, d.rtc, None, []), d.nvs.sleepMask, d.nvs.eccSleep, input.wake);
    var init := PuflibInit(Memory(d.nvs, d.rtc, None, []), input);
    AcceptKeepsLib(init.mem, init.mem.nvs.mask, init.mem.nvs.ecc, input.attempt);
  }

  lemma AcceptKeepsLib(mem: Memory, mask: Option<Bytes>, ecc: Option<Bytes>, capture: Capture)
    ensures Accept(mem, mask, ecc, capture).mem.rtc.lib == mem.rtc.lib
    ensures Accept(mem, mask, ecc, capture).mem.nvs == mem.nvs
  {
    hide BlobsFit, GateOk, Reconstruct;
  }

  // ---------- what the enrollment leaves behind ----------

  /** The boot that enrolls erases the counters last.  They are gone afterwards if and only if the
      power did not fail within the two writes that follow ECC_DATA. */
  lemma CountersErasedIff(d: Device, steps: seq<Step>, step: Step)
    requires Reachable(d, steps) && CanStep(d, step) && !Enrolled(d.nvs) && Enrolled(Next(d, step).nvs)
    ensures step.Boot? || (step.CutBoot? && step.writes >= 5)
    ensures Next(d, step).nvs.freq.None? <==> (step.CutBoot? ==> step.writes >= 7)
  {
    hide Run, CanRun, RunBoot, AllBlobsFit, HandedFromThisBoot, Frequencies, GateOk, FullOrigin, Helper, Zeros;
    ReachableKeeps(d, steps);
    var input := step.input;
    if d.phase == Off {
      StartingBoot(d, input);
      SingleSetFreq(d.nvs, Zeros(), if step.CutBoot? then step.writes else 1);
    } else if Counting(d) {
      CountingBoot(d, input);
      var freq := RunBoot(d, input).mem.log[0].freq;
      assert RunBoot(d, input).mem.log == [SetFreq(freq)];
      SingleSetFreq(d.nvs, freq, if step.CutBoot? then step.writes else 1);
    } else {
      DerivedBoot(d, input);
      var o := BootOrigin(d, input);
      var freq := OriginFreqs(o).1;
      var h := Helper(OriginFreqs(o).0, freq);
      var log := FullLog(freq, h);
      if step.CutBoot? {
        var k := Min(step.writes, if FullOrigin(o) then 7 else 3);
        CutDeriving(d.nvs, freq, h, k);
        assert log[..3][..Min(step.writes, 3)] == log[..Min(step.writes, 3)];
      }
    }
  }
}

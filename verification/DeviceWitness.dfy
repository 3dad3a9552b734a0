/**
  A concrete run: a device whose memory always powers up as all ones enrolls, and a power cut right
  after ECC_DATA is written leaves the enrollment counters in its flash for good.
 */
module DeviceWitness {
  import opened Bits
  import opened EccSpec
  import opened EccTheorems
  import opened Options
  import opened DeviceSpec
  import opened DeviceRuns

  function Ones(): Capture {
    seq(PUF_MEMORY_SIZE, _ => 0xFF)
  }

  function OnesInput(): Input {
    Input(Ones(), seq(PROVISIONING_MEASUREMENTS, _ => Ones()), Ones(), false, true)
  }

  lemma OnesBits(j: nat)
    requires j < 8 * PUF_MEMORY_SIZE
    ensures Unpack(Ones())[j]
  {
    assert Ones()[j / 8] == 0xFF;
  }

  lemma {:induction false} OnesFrequency(captures: seq<Capture>, j: nat)
    requires j < 8 * PUF_MEMORY_SIZE && forall c | c in captures :: c == Ones()
    ensures Frequency(captures, j) == |captures|
  {
    hide Unpack, Ones;
    if captures != [] {
      var last := |captures| - 1;
      assert captures[last] in captures;
      forall c | c in captures[..last] ensures c == Ones() {
        assert c in captures;
      }
      OnesFrequency(captures[..last], j);
      OnesBits(j);
    }
  }

  lemma {:induction false} CountAll(bits: seq<bool>)
    requires forall j | 0 <= j < |bits| :: bits[j]
    ensures Count(bits) == |bits|
  {
    if bits != [] {
      CountAll(bits[..|bits| - 1]);
    }
  }

  lemma OnesAreStable(captures: seq<Capture>)
    requires |captures| == PROVISIONING_MEASUREMENTS && forall c | c in captures :: c == Ones()
    ensures Count(StableBits(Frequencies(captures, PUF_MEMORY_SIZE))) == 8 * PUF_MEMORY_SIZE
  {
    hide Count, Ones, Frequency;
    Bounds();
    var freq := Frequencies(captures, PUF_MEMORY_SIZE);
    forall j | 0 <= j < 8 * PUF_MEMORY_SIZE ensures StableBits(freq)[j] {
      OnesFrequency(captures, j);
    }
    CountAll(StableBits(freq));
  }

  function OnesBoots(n: nat): seq<Step> {
    seq(n, _ => Boot(OnesInput()))
  }

  lemma {:induction false} RunAppend(d: Device, a: seq<Step>, b: seq<Step>)
    requires CanRun(d, a) && CanRun(Run(d, a), b)
    ensures CanRun(d, a + b) && Run(d, a + b) == Run(Run(d, a), b)
    decreases |a|
  {
    hide Next, CanStep;
    if a == [] {
      assert a + b == b;
    } else {
      assert (a + b)[0] == a[0] && (a + b)[1..] == a[1..] + b;
      RunAppend(Next(d, a[0]), a[1..], b);
    }
  }

  /** After n + 1 boots n measurements have been taken. */
  lemma {:induction false} OnesEnrollment(n: nat)
    requires n < PROVISIONING_MEASUREMENTS
    ensures var d := Run(Factory(), OnesBoots(n + 1));
            && CanRun(Factory(), OnesBoots(n + 1)) && Inv(d)
            && d.phase == Asleep && d.rtc.lib == Provisioning && d.rtc.progress == n
            && forall c | c in d.taken :: c == Ones()
  {
    hide Ones, RunBoot, Frequencies, OriginAfter;
    var step := Boot(OnesInput());
    var before := if n == 0 then Factory() else Run(Factory(), OnesBoots(n));
    if n == 0 {
      StartingBoot(before, OnesInput());
    } else {
      OnesEnrollment(n - 1);
      CountingBoot(before, OnesInput());
    }
    BootKeeps(before, OnesInput());
    assert Run(before, [step]) == Next(before, step) && CanRun(before, [step]) by {
      OneStep(before, step);
    }
    assert OnesBoots(0) == [];
    RunAppend(Factory(), OnesBoots(n), [step]);
    assert OnesBoots(n + 1) == OnesBoots(n) + [step];
  }

  lemma OneStep(d: Device, step: Step)
    requires CanStep(d, step)
    ensures CanRun(d, [step]) && Run(d, [step]) == Next(d, step)
  {
    hide Next, CanStep;
  }

  function CutAfterEcc(): seq<Step> {
    OnesBoots(PROVISIONING_MEASUREMENTS) + [CutBoot(OnesInput(), 5)]
  }

  /** The counters of the enrollment survive it, in this run and in every continuation of it. */
  lemma CountersCanSurvive(later: seq<Step>)
    requires CanRun(Run(Factory(), CutAfterEcc()), later)
    ensures CanRun(Factory(), CutAfterEcc())
    ensures var d := Run(Run(Factory(), CutAfterEcc()), later);
            && Enrolled(d.nvs) && d.nvs.freq.Some?
            && forall j | 0 <= j < |d.nvs.freq.value| :: d.nvs.freq.value[j] == PROVISIONING_MEASUREMENTS
  {
    hide Ones, RunBoot, Helper, FullOrigin, HelperFrom, Run, CanRun, StableBits, Count, Frequency;
    OnesEnrollment(PROVISIONING_MEASUREMENTS - 1);
    var d := Run(Factory(), OnesBoots(PROVISIONING_MEASUREMENTS));
    var input := OnesInput();
    var step := CutBoot(input, 5);
    DerivedBoot(d, input);
    var o := BootOrigin(d, input);
    assert FullOrigin(o) by {
      OnesCanProvision(o);
    }
    var freq := OriginFreqs(o).1;
    CutDeriving(d.nvs, freq, Helper(OriginFreqs(o).0, freq), 5);
    NextKeeps(d, step);
    OneStep(d, step);
    RunAppend(Factory(), OnesBoots(PROVISIONING_MEASUREMENTS), [step]);
    forall j | 0 <= j < |freq| ensures freq[j] == PROVISIONING_MEASUREMENTS {
      OnesFrequency(o.sleep, j);
    }
    EnrolledFrozen(Next(d, step), later);
  }

  lemma OnesCanProvision(o: Origin)
    requires |o.rtc| == |o.sleep| == PROVISIONING_MEASUREMENTS
    requires (forall c | c in o.rtc :: c == Ones()) && (forall c | c in o.sleep :: c == Ones())
    ensures FullOrigin(o)
  {
    hide Ones, CanProvision, Frequencies, StableBits, Count;
    OnesAreStable(o.rtc);
    OnesAreStable(o.sleep);
    CanProvisionIff(OriginFreqs(o).0, OriginFreqs(o).1);
  }
}

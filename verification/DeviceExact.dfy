/**
  What the weight gate lets through, and what the derived key depends on.
 */
module DeviceExact {
  import opened Bits
  import opened Ecc
  import opened EccSpec
  import opened EccTheorems
  import opened Options
  import opened DeviceSpec
  import opened DeviceRuns
  import opened DeviceIdentity

  // ---------- the weight gate ----------

  /** A measurement passes if and only if more than 48.5 % of its bits are ones, which is 15893 of 32768. */
  lemma GateIff(capture: Capture)
    ensures GateOk(capture) <==> 100.0 * Count(Unpack(capture)) as real / 32768.0 > 48.5
    ensures GateOk(capture) <==> Count(Unpack(capture)) >= 15893
  {
    hide Unpack, Weight, Count;
    WeightCounts(capture);
    Percentage(Count(Unpack(capture)));
  }

  lemma Percentage(n: nat)
    ensures 100.0 * n as real / 32768.0 > 48.5 <==> n >= 15893
  {
  }

  // ---------- what the key is bound to ----------

  /** Without the four blobs there is no key. */
  lemma NoHelperNoKey(lib: Library, nvs: Nvs, response: Bytes, pair: KeyPair)
    ensures HelperHash(lib, nvs).Some? <==> Complete(nvs)
    ensures IsIdentity(lib, nvs, response, pair) ==> Complete(nvs)
  {
    hide FirstCandidate, Block, BigEndian;
  }

  /** The hash binds all four blobs: with the lengths fixed, equal hashes mean equal helper data on both
      reconstruction paths. */
  lemma HashBindsAll(lib: Library, a: Nvs, b: Nvs)
    requires Complete(a) && Complete(b)
    requires |a.mask.value| == |b.mask.value| && |a.ecc.value| == |b.ecc.value|
    requires |a.sleepMask.value| == |b.sleepMask.value|
    requires lib.sha256(HelperText(a)) == lib.sha256(HelperText(b)) ==> HelperText(a) == HelperText(b)
    ensures HelperHash(lib, a) == HelperHash(lib, b)
            <==> a.mask == b.mask && a.ecc == b.ecc && a.sleepMask == b.sleepMask && a.eccSleep == b.eccSleep
  {
    if HelperHash(lib, a) == HelperHash(lib, b) {
      var am, ae, asm, ase := a.mask.value, a.ecc.value, a.sleepMask.value, a.eccSleep.value;
      var bm, be, bsm, bse := b.mask.value, b.ecc.value, b.sleepMask.value, b.eccSleep.value;
      Prefixes(am + ae + asm, ase, bm + be + bsm, bse);
      Prefixes(am + ae, asm, bm + be, bsm);
      Prefixes(am, ae, bm, be);
    }
  }

  lemma Prefixes(a: Bytes, x: Bytes, b: Bytes, y: Bytes)
    requires |a| == |b| && a + x == b + y
    ensures a == b && x == y
  {
    assert a == (a + x)[..|a|] && b == (b + y)[..|b|];
    assert x == (a + x)[|a|..] && y == (b + y)[|b|..];
  }

  /** Between two enrollments the lengths need no mention: masks have the size of the memory, and the
      helper data of both paths one length. */
  lemma EnrollmentsBound(lib: Library, a: Nvs, o: Origin, b: Nvs, p: Origin)
    requires FullOrigin(o) && HelperFrom(a, o) && FullOrigin(p) && HelperFrom(b, p)
    requires lib.sha256(HelperText(a)) == lib.sha256(HelperText(b)) ==> HelperText(a) == HelperText(b)
    ensures HelperHash(lib, a) == HelperHash(lib, b)
            <==> a.mask == b.mask && a.ecc == b.ecc && a.sleepMask == b.sleepMask && a.eccSleep == b.eccSleep
  {
    hide Helper, CanProvision, Frequencies, CanReconstruct;
    HelperFits(OriginFreqs(o).0, OriginFreqs(o).1);
    HelperFits(OriginFreqs(p).0, OriginFreqs(p).1);
    if |a.ecc.value| == |b.ecc.value| {
      HashBindsAll(lib, a, b);
    } else {
      assert |HelperText(a)| != |HelperText(b)|;
    }
  }

  /** Each counter, and each hash of the helper data, draws from its own info string. */
  lemma InfoInjective(h: Bytes, i: nat, g: Bytes, j: nat)
    requires |h| == |g| && i < DERIVE_ATTEMPTS && j < DERIVE_ATTEMPTS
    ensures Info(h, i) == Info(g, j) <==> h == g && i == j
  {
    if Info(h, i) == Info(g, j) {
      Prefixes(INFO_BASE + h, [i as bv8], INFO_BASE + g, [j as bv8]);
      Prefixes(INFO_BASE, h, INFO_BASE, g);
      assert [i as bv8][0] == [j as bv8][0];
      SmallBytes(i, j);
    }
  }

  lemma SmallBytes(i: nat, j: nat)
    requires i < 8 && j < 8 && i as bv8 == j as bv8
    ensures i == j
  {
    assert (i as bv8) as nat == i && (j as bv8) as nat == j;
  }

  const TWO_TO_256: nat := 0x1_0000_0000_0000_0000_0000_0000_0000_0000_0000_0000_0000_0000_0000_0000_0000_0000

  const TWO_TO_224: nat := 0x1_0000_0000_0000_0000_0000_0000_0000_0000_0000_0000_0000_0000_0000_0000
  const TWO_TO_192: nat := 0x1_0000_0000_0000_0000_0000_0000_0000_0000_0000_0000_0000_0000

  /** A candidate is a number of 256 bits; fewer than one in 2^32 of these are no scalar of the group. */
  lemma FewRejected(data: Bytes)
    requires |data| == 32
    ensures BigEndian(data) < TWO_TO_256
    ensures !InGroup(BigEndian(data)) <==> BigEndian(data) == 0 || BigEndian(data) >= GROUP_ORDER
    ensures TWO_TO_256 - GROUP_ORDER == TWO_TO_224 - TWO_TO_192 + 0x4319_0552_58E8_617B_0C46_353D_039C_DAAF
    ensures TWO_TO_256 - GROUP_ORDER + 1 < TWO_TO_224
  {
    BigEndianBound(data);
    PowerIs();
  }

  function Power256(n: nat): nat {
    if n == 0 then 1 else 256 * Power256(n - 1)
  }

  lemma FourBytes(n: nat)
    ensures Power256(n + 4) == 0x1_0000_0000 * Power256(n)
  {
    assert Power256(n + 1) == 256 * Power256(n);
    assert Power256(n + 2) == 256 * Power256(n + 1);
    assert Power256(n + 3) == 256 * Power256(n + 2);
    assert Power256(n + 4) == 256 * Power256(n + 3);
  }

  lemma PowerIs()
    ensures Power256(32) == TWO_TO_256
  {
    FourBytes(0);
    FourBytes(4);
    FourBytes(8);
    FourBytes(12);
    FourBytes(16);
    FourBytes(20);
    FourBytes(24);
    FourBytes(28);
    assert Power256(0) == 1;
    hide Power256;
  }

  lemma {:induction false} BigEndianBound(data: Bytes)
    ensures BigEndian(data) < Power256(|data|)
  {
    if data != [] {
      BigEndianBound(data[..|data| - 1]);
    }
  }

  /** A counter is chosen if and only if it is one of eight, its block was drawn and is a scalar of the group,
      and the blocks before it were drawn and are not. */
  lemma ChosenIff(lib: Library, response: Bytes, hash: Bytes, attempt: nat)
    ensures FirstCandidate(lib, response, hash, attempt) <==>
              && attempt < 8
              && (forall k: nat | k <= attempt :: lib.hkdf(response, Info(hash, k)).Some?)
              && (forall k: nat | k <= attempt ::
                    InGroup(BigEndian(lib.hkdf(response, Info(hash, k)).value)) <==> k == attempt)
  {
    hide Info, InGroup, BigEndian;
    assert forall k: nat | k < 8 :: Block(lib, response, hash, k) == lib.hkdf(response, Info(hash, k));
  }

  // ---------- states of a boot ----------

  /** The firmware asks for two of the blobs; in every run the last one written decides, and means all four. */
  lemma EnrolledIff(d: Device, steps: seq<Step>)
    ensures Enrolled(d.nvs) <==> d.nvs.mask.Some? && d.nvs.ecc.Some?
    ensures Reachable(d, steps) ==> (Enrolled(d.nvs) <==> d.nvs.ecc.Some?) && (Enrolled(d.nvs) ==> Complete(d.nvs))
  {
    hide Run, CanRun, FullOrigin;
    if Reachable(d, steps) {
      ReachableKeeps(d, steps);
    }
  }

  /** enroll_puf would end an enrollment that it finds in progress, but no boot of any run calls it then:
      the enrolled device keeps the state it enrolled in, and nothing reads that again. */
  lemma EnrollmentEndsUnseen(d: Device, steps: seq<Step>, input: Input)
    requires Reachable(d, steps) && d.phase != Stopped && input.Valid()
    ensures var init := PuflibInit(Memory(d.nvs, d.rtc, None, []), input);
            && (init.flow == Returns && !Enrolled(init.mem.nvs) ==> init.mem.rtc.lib == Idle)
            && (init.mem.rtc.lib == Provisioning ==>
                  EnrollPuf(init.mem, input)
                  == Out(init.mem.(rtc := init.mem.rtc.(lib := Idle, progress := 0)), Returns))
  {
    hide Run, CanRun, Frequencies, AddCapture, Helper, CanProvision, DeviceSpec.Zeros, CanReconstruct, Reconstruct;
    hide GateOk;
    ReachableKeeps(d, steps);
    if d.phase == Asleep && d.rtc.lib == Provisioning && Deriving(d) {
      DerivingBoot(d, input);
    }
  }

  /** Whenever a response was asked for and the boot does not sleep, the retry budget is fresh again; and no
      retry is pending after any boot that returns. */
  lemma BudgetIsFresh(d: Device, input: Input)
    requires Inv(d) && d.phase != Stopped && input.Valid() && Enrolled(d.nvs)
    ensures var end := RunBoot(d, input);
            && (end.flow == Returns && Proceeds(input) ==> end.mem.rtc.retries == 0)
            && (end.flow == Sleeps ==> end.mem.rtc.retries == d.rtc.retries + 1)
            && (end.flow == Returns ==> end.mem.rtc.lib == Idle)
  {
    hide CanReconstruct, Reconstruct, GateOk, FullOrigin, HelperFrom, BlobsFit, RunEnrollmentStep;
    EnrolledBoot(d, input);
    EnrolledStep(d, input);
  }

  /** A response that was handed out is gone when the boot returns.  One that a retry reconstructed while the
      network is down is not: nobody asks for it, and nobody releases it. */
  lemma ResponseStaysIff(d: Device, input: Input)
    requires Inv(d) && d.phase != Stopped && input.Valid() && Enrolled(d.nvs)
    ensures var end := RunBoot(d, input);
            && (end.flow == Returns ==> (end.mem.response.Some? <==> !Proceeds(input) && TakesWake(d, input)))
            && (end.flow == Returns ==> (end.mem.rtc.ready <==> end.mem.response.Some?))
            && (end.handed.Buffer? ==> end.mem.response == None)
  {
    hide CanReconstruct, Reconstruct, GateOk, FullOrigin, HelperFrom, BlobsFit, RunEnrollmentStep;
    EnrolledStep(d, input);
  }

  /** Without an enrollment there is nothing to measure against. */
  lemma NotEnrolledNoResponse(mem: Memory, attempt: Capture)
    ensures !Enrolled(mem.nvs) ==> IdentityGetResponse(mem, attempt) == Got(mem, Returns, Nothing)
    ensures IdentityGetResponse(mem, attempt).mem.nvs == mem.nvs && IdentityGetResponse(mem, attempt).mem.log == mem.log
  {
    hide CanReconstruct, Reconstruct, GateOk;
  }

  lemma EnrolledStep(d: Device, input: Input)
    requires Inv(d) && d.phase != Stopped && input.Valid() && Enrolled(d.nvs)
    ensures var out := RunEnrollmentStep(Memory(d.nvs, d.rtc, None, []), input);
            && out.flow == Returns && out.mem.nvs == d.nvs && out.mem.rtc.retries == d.rtc.retries
            && out.mem.rtc.lib == Idle && BlobsFit(d.nvs.mask, d.nvs.ecc)
            && out.mem.rtc.ready == out.mem.response.Some? == TakesWake(d, input)
  {
    hide CanReconstruct, Reconstruct, GateOk, FullOrigin, HelperFrom;
    OneEnrollmentFits(d.nvs, d.origin.value);
  }
}

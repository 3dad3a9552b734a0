/**
  The device identity: the key pair derived from the PUF response and the helper data, and the proof
  that every boot derives the one that was exported at provisioning.
 */
module DeviceIdentity {
  import opened Bits
  import opened EccSpec
  import opened EccTheorems
  import opened Options
  import opened DeviceSpec
  import opened DeviceRuns

  /** The order of the group of P-256. */
  const GROUP_ORDER: nat := 0xFFFFFFFF_00000000_FFFFFFFF_FFFFFFFF_BCE6FAAD_A7179E84_F3B9CAC2_FC632551

  const DERIVE_ATTEMPTS: nat := 8

  /** The library functions: SHA-256; HKDF under the fixed salt, from the response and the info
      string, or an error; and the public point of a scalar, or an error. */
  datatype Library = Library(sha256: Bytes -> Bytes, hkdf: (Bytes, Bytes) -> Option<Bytes>,
                             publicPoint: nat -> Option<Bytes>)

  datatype KeyPair = KeyPair(secret: nat, public: Bytes)

  function BigEndian(data: Bytes): nat {
    if data == [] then 0 else 256 * BigEndian(data[..|data| - 1]) + data[|data| - 1] as nat
  }

  predicate InGroup(k: nat) {
    0 < k < GROUP_ORDER
  }

  /** "SMG-RoT-P256-sk_A" with its terminating zero byte */
  const INFO_BASE: Bytes := [0x53, 0x4D, 0x47, 0x2D, 0x52, 0x6F, 0x54, 0x2D, 0x50, 0x32, 0x35, 0x36, 0x2D, 0x73, 0x6B,
                             0x5F, 0x41, 0x00]

  predicate Complete(nvs: Nvs) {
    nvs.mask.Some? && nvs.ecc.Some? && nvs.sleepMask.Some? && nvs.eccSleep.Some?
  }

  function HelperText(nvs: Nvs): Bytes
    requires Complete(nvs)
  {
    nvs.mask.value + nvs.ecc.value + nvs.sleepMask.value + nvs.eccSleep.value
  }

  /** get_mask_ecc_hash */
  function HelperHash(lib: Library, nvs: Nvs): Option<Bytes> {
    if Complete(nvs) then Some(lib.sha256(HelperText(nvs))) else None
  }

  /** The HKDF info string: a fixed text, the hash of the helper data, and the counter. */
  function Info(hash: Bytes, attempt: nat): Bytes
    requires attempt < DERIVE_ATTEMPTS
  {
    INFO_BASE + hash + [attempt as bv8]
  }

  /** The block that the derivation draws for a counter. */
  function Block(lib: Library, response: Bytes, hash: Bytes, attempt: nat): Option<Bytes>
    requires attempt < DERIVE_ATTEMPTS
  {
    lib.hkdf(response, Info(hash, attempt))
  }

  /** Counter `attempt` is the first of the 8 whose block is a scalar of the group, and no block
      before it failed to be drawn. */
  predicate FirstCandidate(lib: Library, response: Bytes, hash: Bytes, attempt: nat) {
    && attempt < DERIVE_ATTEMPTS
    && Block(lib, response, hash, attempt).Some? && InGroup(BigEndian(Block(lib, response, hash, attempt).value))
    && forall k | 0 <= k < attempt ::
         Block(lib, response, hash, k).Some? && !InGroup(BigEndian(Block(lib, response, hash, k).value))
  }

  /** The key pair that a response and the stored helper data determine, if any. */
  ghost predicate IsIdentity(lib: Library, nvs: Nvs, response: Bytes, pair: KeyPair) {
    HelperHash(lib, nvs).Some? && exists attempt ::
      FirstCandidate(lib, response, HelperHash(lib, nvs).value, attempt)
      && pair.secret == BigEndian(Block(lib, response, HelperHash(lib, nvs).value, attempt).value)
      && lib.publicPoint(pair.secret) == Some(pair.public)
  }

  /** rot_identity_derive_keypair: it finds the identity exactly when there is one. */
  method DeriveKeyPair(lib: Library, nvs: Nvs, response: Bytes) returns (pair: Option<KeyPair>)
    ensures pair.Some? ==> IsIdentity(lib, nvs, response, pair.value) && InGroup(pair.value.secret)
    ensures pair.None? ==> forall other :: !IsIdentity(lib, nvs, response, other)
  {
    hide BigEndian;
    var hash := HelperHash(lib, nvs);
    if hash.None? {
      return None;
    }
    var ok, secret, attempt := false, 0, 0;
    while attempt < DERIVE_ATTEMPTS && !ok
      invariant 0 <= attempt <= DERIVE_ATTEMPTS
      invariant ok ==> attempt > 0 && FirstCandidate(lib, response, hash.value, attempt - 1)
                       && secret == BigEndian(Block(lib, response, hash.value, attempt - 1).value)
      invariant !ok ==> forall k | 0 <= k < attempt ::
                          Block(lib, response, hash.value, k).Some?
                          && !InGroup(BigEndian(Block(lib, response, hash.value, k).value))
    {
      var okm := Block(lib, response, hash.value, attempt);
      if okm.None? {
        break;
      }
      secret := BigEndian(okm.value);
      if InGroup(secret) {
        ok := true;
      }
      attempt := attempt + 1;
    }
    if !ok {
      return None;
    }
    OneFirstCandidate(lib, response, hash.value, attempt - 1);
    var public := lib.publicPoint(secret);
    if public.None? {
      return None;
    }
    pair := Some(KeyPair(secret, public.value));
  }

  lemma OneFirstCandidate(lib: Library, response: Bytes, hash: Bytes, attempt: nat)
    requires FirstCandidate(lib, response, hash, attempt)
    ensures forall other | FirstCandidate(lib, response, hash, other) :: other == attempt
  {
    hide Block, InGroup, BigEndian;
  }

  lemma OneIdentity(lib: Library, nvs: Nvs, response: Bytes, a: KeyPair, b: KeyPair)
    requires IsIdentity(lib, nvs, response, a) && IsIdentity(lib, nvs, response, b)
    ensures a == b
  {
    hide Block, InGroup, BigEndian, HelperHash;
    var hash := HelperHash(lib, nvs).value;
    var i :| FirstCandidate(lib, response, hash, i)
      && a.secret == BigEndian(Block(lib, response, hash, i).value) && lib.publicPoint(a.secret) == Some(a.public);
    OneFirstCandidate(lib, response, hash, i);
  }

  function OriginResponse(o: Origin): Bytes {
    EnrolledResponse(OriginFreqs(o).0, OriginFreqs(o).1)
  }

  /** The one measurement that the response of the boot comes from is within three flips of its own
      path's reference in every group. */
  ghost predicate Close(d: Device, o: Origin, nvs: Nvs, input: Input)
    requires FullOrigin(o) && HelperFrom(nvs, o)
  {
    OneEnrollmentFits(nvs, o);
    var (rtc, sleep) := OriginFreqs(o);
    var maskHw := MaskWeight(rtc, sleep);
    if TakesWake(d, input)
    then WithinThree(MaskForEcc(nvs.sleepMask.value, nvs.eccSleep.value, input.wake), MaskedReference(sleep, maskHw))
    else WithinThree(MaskForEcc(nvs.mask.value, nvs.ecc.value, input.attempt), MaskedReference(rtc, maskHw))
  }

  /** Whichever path decoded it, a response from a close measurement is the enrolled one. */
  lemma CloseMeansEnrolled(d: Device, o: Origin, nvs: Nvs, input: Input, response: Bytes)
    requires FullOrigin(o) && HelperFrom(nvs, o) && Close(d, o, nvs, input)
    requires AllBlobsFit(nvs) && FromThisBoot(d, nvs, input, response)
    ensures response == OriginResponse(o)
  {
    hide WithinThree, Reconstruct, CanReconstruct, EnrolledResponse, Helper, CanProvision, MaskForEcc, MaskedReference;
    hide Frequencies;
    hide TakesWake;
    BothPathsAgree(OriginFreqs(o).0, OriginFreqs(o).1, input.attempt, input.wake);
  }

  /** The boot of `d` takes its response from a close measurement.  Its helper data is that of one
      enrollment wherever the device is enrolled. */
  ghost predicate CloseBoot(d: Device, input: Input) {
    var next := AfterBoot(d, input);
    next.origin.Some? && FullOrigin(next.origin.value) && HelperFrom(next.nvs, next.origin.value) ==>
      Close(d, next.origin.value, next.nvs, input)
  }

  lemma BlobsThere(nvs: Nvs)
    requires AllBlobsFit(nvs)
    ensures nvs.ecc.Some? && Enrolled(nvs)
  {
    hide CanReconstruct;
  }

  lemma FlashAfterBoot(d: Device, input: Input)
    ensures AfterBoot(d, input).nvs == RunBoot(d, input).mem.nvs
  {
    hide RunBoot, OriginAfter;
  }

  lemma EnrolledOrigin(d: Device)
    requires Inv(d) && Enrolled(d.nvs)
    ensures d.origin.Some? && FullOrigin(d.origin.value) && HelperFrom(d.nvs, d.origin.value)
  {
    hide FullOrigin, HelperFrom;
  }

  /** Any boot that hands out a response from a close measurement hands out the enrolled response, and
      leaves an enrolled device behind. */
  lemma CloseBootHandsEnrolled(d: Device, input: Input)
    requires Inv(d) && d.phase != Stopped && input.Valid() && RunBoot(d, input).handed.Buffer? && CloseBoot(d, input)
    ensures var next := AfterBoot(d, input);
            && Inv(next) && Enrolled(next.nvs) && next.origin.Some?
            && RunBoot(d, input).handed == Buffer(Some(OriginResponse(next.origin.value)))
  {
    hide RunBoot, Frequencies, AllBlobsFit, HandedFromThisBoot, HelperFrom, FullOrigin, FromThisBoot, OriginResponse;
    hide Close, Inv;
    hide AfterBoot;
    BootKeeps(d, input);
    FlashAfterBoot(d, input);
    HandedIsFresh(d, input);
    var next := AfterBoot(d, input);
    BlobsThere(next.nvs);
    EnrolledOrigin(next);
    HandedUnfolds(d, next.nvs, input);
    CloseMeansEnrolled(d, next.origin.value, next.nvs, input, RunBoot(d, input).handed.response.value);
  }

  lemma HandedUnfolds(d: Device, nvs: Nvs, input: Input)
    requires AllBlobsFit(nvs) && RunBoot(d, input).handed.Buffer?
    requires HandedFromThisBoot(d, nvs, input, RunBoot(d, input).handed)
    ensures RunBoot(d, input).handed.response.Some?
    ensures FromThisBoot(d, nvs, input, RunBoot(d, input).handed.response.value)
  {
    hide RunBoot, FromThisBoot, AllBlobsFit;
  }

  /** What a later boot of an enrolled device does: it hands out a response exactly if it gets as far
      as asking for one and the weight gate passes a measurement, and leaves flash and origin alone. */
  lemma LaterBoot(e: Device, again: Input)
    requires Inv(e) && Enrolled(e.nvs) && e.phase != Stopped && again.Valid()
    ensures AfterBoot(e, again).nvs == e.nvs && AfterBoot(e, again).origin == e.origin
    ensures RunBoot(e, again).handed.Buffer? <==> Proceeds(again) && !Rejected(e, again)
  {
    hide RunBoot, AllBlobsFit, HandedFromThisBoot, GateOk, HelperFrom, FullOrigin;
    EnrolledBoot(e, again);
  }

  /** From the boot whose key pair was exported on, over any number of later boots, retries and power
      cuts, and over both reconstruction paths: a boot that asks for a response and has a measurement
      pass the weight gate, that measurement being close, hands out the enrolled response, from which
      the exported key pair is derived, and no other. */
  lemma SameIdentityEveryBoot(lib: Library, d: Device, steps: seq<Step>, input: Input, response: Bytes,
                              exported: KeyPair, later: seq<Step>, again: Input)
    requires Reachable(d, steps) && d.phase != Stopped && input.Valid() && CloseBoot(d, input)
    requires RunBoot(d, input).handed == Buffer(Some(response))
    requires IsIdentity(lib, AfterBoot(d, input).nvs, response, exported)
    requires CanRun(AfterBoot(d, input), later)
    requires var e := Run(AfterBoot(d, input), later);
             e.phase != Stopped && again.Valid() && Proceeds(again) && !Rejected(e, again) && CloseBoot(e, again)
    ensures var e := Run(AfterBoot(d, input), later);
            && RunBoot(e, again).handed == Buffer(Some(response))
            && IsIdentity(lib, AfterBoot(e, again).nvs, response, exported)
            && forall other | IsIdentity(lib, AfterBoot(e, again).nvs, response, other) :: other == exported
  {
    hide Run, CanRun, RunBoot, IsIdentity, OriginResponse, Enrolled, Inv, AfterBoot, CloseBoot, Rejected, Proceeds;
    ReachableKeeps(d, steps);
    CloseBootHandsEnrolled(d, input);
    var next := AfterBoot(d, input);
    EnrolledFrozen(next, later);
    RunKeeps(next, later);
    var e := Run(next, later);
    LaterBoot(e, again);
    CloseBootHandsEnrolled(e, again);
    forall other | IsIdentity(lib, AfterBoot(e, again).nvs, response, other) ensures other == exported {
      OneIdentity(lib, next.nvs, response, exported, other);
    }
  }
}

# Smart microgrid node and server: models and proofs

A sensor node (ESP32) derives its identity from the power-up contents of its SRAM and proves it to a
primary server (Raspberry Pi), which collects readings over a hash chain and hands out power
setpoints. This project models the four parts whose correctness is not visible in any one function,
and proves what they are for.

**The PUF helper-data scheme.** Enrollment turns 20 noisy measurements on each of two measurement
paths (RTC power-down and deep sleep) into stable-bit masks, a majority reference and 8x repetition
helper data; the helper data of the first path is built against the reference of the second, so that
both must decode to one response. `Bits`, `EccTables`, `BitArrays`, `EccSpec` and `Ecc` hold the bit
arithmetic, the two 256-entry tables, the packed bit array and the loops of `ecc.c`, each method tied
to a function on bit sequences. `EccTheorems` says exactly which measurements decode, and `EccExact`
which bits the captures make stable, what the reference says of them and where they end up.

**The cross-boot machine.** `DeviceSpec` is one boot as a function of three memories: flash, RTC
variables that survive deep sleep only, and RAM. `PufDevice` is the same code as a class that updates
its fields, method by method. `DeviceRuns` lets the power fail between any two flash writes of any
boot and proves what holds in every run; `DeviceIdentity` adds the derived key pair, `DeviceExact` the
weight gate and what the key is bound to, `DeviceWitness` one concrete run.

**The mutual handshake.** `HandshakeSpec` has both roles, `RotSessions` their code, and
`HandshakeRuns` any number of interleaved sessions over a network that may drop, reorder, duplicate,
alter and invent messages. `Framing` is the length-prefixed stream below it.

**The SecureNode chain, trust and setpoints.** `Tlv`, `ChainSpec` and `SecureNode` have both ends of
a session; `ChainHistory`, `ChainRuns` and `ChainLockstep` say what a chain head commits to and how
far apart the two heads can be, `ChainAgreement` what each check lets through and what both ends then
agree on. `Trust` is the trust score over any run, the session's own and the one
it stores; `FuzzySpec` and `Coordinator` are the fuzzy controller that turns the stored score into a
setpoint, over exact reals, `FuzzyExact` tells
it from its tables, and `Bands` says where each score puts a node.

## What is assumed

- SHA-256 is any function with 32-byte digests. A result that needs more assumes only that the byte
  strings hashed in the runs it speaks about (`NoCollision`) do not collide, including those hashed to
  check the message it speaks about (`NoCollisionWith`, `HashedToCheck`). HKDF, AES-GCM, ECDSA and
  ECDH are parameters with the laws in `Crypto.Sound` and `Suite.Sound`; that a signature or a server
  proof cannot be forged without its secret is a guard on the network's steps (`SignatureUnforged`,
  `ProofUnforged`), as is the freshness of random draws; that a confirmation does not open under
  another key (`KeyBound`) is a premise of the one result that needs it.
- A measurement is an arbitrary string of bytes. A flash write is atomic per key and succeeds; a
  missing or misfitting blob, which the C code asserts on or dereferences, is a panic.
- The 48.5 % weight gate is compared exactly: the divisor in the C expression is a power of two.

## Where the code and its comments differ

The model follows the code.

- `ecc.c:194` says a reference bit is 0 iff it was 0 in more than half of the measurements; the code
  also makes it 0 at exactly half (`EccSpec.ReferenceBits`).
- `ecc.c:267-285` promises that the enrollment counters are erased. They are, except when the power
  fails within the two writes after ECC_DATA; then they stay, because enrollment never starts again.
  `CountersErasedIff` gives the exact condition, `CountersCanSurvive` a run.
- `app_main.c:99-100` says the PUF response is released from RAM like in any other boot. A response that a
  retry reconstructed stays where the boot then finds the network down; `ResponseStaysIff` says when.
- `rot_session.c:241` logs an authenticated device when the acknowledgement arrives. Neither
  challenge_b nor the acknowledgement is covered by the server's proof, so a completed device session
  does not mean an authenticated server session (`CompletionIsNotAuthentication` gives such runs).
  `AuthenticatesIff` gives the exact condition on what the network delivered: challenge_b reached the
  device unaltered, and the device's answer was the next message its server session received.
- `ems_coordinator.py:14-19` says that integrity failures reduce a node's setpoint, and that an
  untrusted node, one below 0.30, gets 0 W. Neither holds.
  - The controller reads the score stored with a reading, and the penalty of an error is never
    stored. `StoredScoreLaw` says what it reads, and that this is the session's own score iff there
    was no error or two windows of anomalies; `FailureGoesUnread` is a run where it is not.
  - The setpoint is 0 exactly when an input leaves its range (`SetpointZeroIff`). Up to a score of
    0.20 a node gets between 3.2 and 4.8 W (`UntrustedBand`). Between 0.20 and 0.30 that holds where
    no rule for reduced trust asks for power, which `OnlyZeroIff` says exactly; elsewhere a node can
    get more than 10 W (`UntrustedAboveTen`), and at most 60 W (`DegradedBand`).
- `auth_service.py:241-243` lets the client derive its head from a digest that the server echoes
  (`pc_client.py:228-241`), which the client does not compare with its own. After an opening that the
  server accepts, `HeadsAgreeIff` says when the heads are equal nevertheless.
- `auth_service.py:340-342` checks the chain but never compares M_num with the expected number.
  `NoReplay` shows that the chain alone rules out accepting a message twice.

## Model

| member | source | states |
|---|---|---|
| EccTables.TablesTabulate | smg_puf_rot_node/components/esp32_puflib/ecc.c:30-66 | for every byte the weight table gives its number of one bits and the majority table whether that exceeds four, so a tie is 0 |
| BitArrays.BitArray.constructor | smg_puf_rot_node/components/esp32_puflib/bit_array.c:13-17 | a new array is empty as a bit sequence, over memory of unknown contents |
| BitArrays.BitArray.Get | smg_puf_rot_node/components/esp32_puflib/bit_array.c:25-30 | returns the bit of the abstract sequence at an index below its length |
| BitArrays.BitArray.Set | smg_puf_rot_node/components/esp32_puflib/bit_array.c:32-41 | replaces exactly one bit of the sequence |
| BitArrays.BitArray.Append | smg_puf_rot_node/components/esp32_puflib/bit_array.c:43-47 | extends the sequence by one bit while there is room, whatever the memory held; without room it fails its assertion |
| BitArrays.BitArray.Remove | smg_puf_rot_node/components/esp32_puflib/bit_array.c:49-52 | drops the last bit of the sequence |
| BitArrays.BitArray.CopyData | smg_puf_rot_node/components/esp32_puflib/bit_array.c:68-73 | copies the packed whole bytes of the sequence and leaves the rest of the buffer as it was |
| BitArrays.PutUnpacks | smg_puf_rot_node/components/esp32_puflib/bit_array.c:32-41 | setting one bit of one byte changes exactly one bit of the unpacked memory |
| BitArrays.PrefixPacks | smg_puf_rot_node/components/esp32_puflib/bit_array.c:68-73 | packing the first n bits of any memory gives its first n/8 bytes |
| BitArrays.ArrayGetBit | smg_puf_rot_node/components/esp32_puflib/bit_array.c:75-80 | bit k of an array is bit k of its unpacked sequence, lowest bit of each byte first |
| Bits.UnpackPack | smg_puf_rot_node/components/esp32_puflib/bit_array.c:43-73 | packing whole bytes of bits and unpacking them gives the bits back |
| Bits.PackUnpack | smg_puf_rot_node/components/esp32_puflib/bit_array.c:43-73 | unpacking bytes and packing them gives the bytes back |
| Ecc.HammingWeight | smg_puf_rot_node/components/esp32_puflib/ecc.c:68-74 | the table sum over an array is the number of ones in its bit sequence |
| Ecc.WeightCounts | smg_puf_rot_node/components/esp32_puflib/ecc.c:68-74 | summing bit counts byte by byte counts the ones of the whole |
| Ecc.GenerateEccData | smg_puf_rot_node/components/esp32_puflib/ecc.c:82-90 | the helper data of a reference with itself as template |
| Ecc.GenerateEccDataTemplate | smg_puf_rot_node/components/esp32_puflib/ecc.c:101-110 | the helper data that makes the reference decode to the template's highest bits |
| Ecc.CorrectData | smg_puf_rot_node/components/esp32_puflib/ecc.c:112-132 | returns the packed majority decision of every code word and the decoder's error count; on a length that is not whole bytes of bits it fails its assertion before any result is written |
| Ecc.WordDecodes | smg_puf_rot_node/components/esp32_puflib/ecc.c:118-127 | the tables decide a code word by majority and count the bits of the minority |
| Ecc.CreatePufMask | smg_puf_rot_node/components/esp32_puflib/ecc.c:142-159 | the mask marks exactly the bits that were always equal; its weight is rounded down to a multiple of 64 |
| Ecc.ApplyPufMask | smg_puf_rot_node/components/esp32_puflib/ecc.c:161-178 | succeeds exactly when the selected bits fit, also for a weight of 0, where it appends before it stops; then the result is the packed first selected bits |
| Ecc.ApplySucceeds | smg_puf_rot_node/components/esp32_puflib/ecc.c:167-175 | where the masking loop stops it has selected exactly the first mask_hw bits of the whole response, or all there are |
| Ecc.ApplyFails | smg_puf_rot_node/components/esp32_puflib/ecc.c:167-175 | an append beyond the buffer happens only when the mask has too many bits for it |
| Ecc.CreatePufReference | smg_puf_rot_node/components/esp32_puflib/ecc.c:187-201 | a reference bit is 1 iff it was 1 in more than half of the measurements |
| EccTheorems.WordLaw | smg_puf_rot_node/components/esp32_puflib/ecc.c:82-127 | a decoded bit is the template's exactly when its group has at most 3 flips, or 4 and a template bit of 0; the word counts min(d, 8-d) errors |
| EccTheorems.DecodeExact | smg_puf_rot_node/components/esp32_puflib/ecc.c:101-132 | for all measurements, references and templates: the decoder returns the template's bits if and only if every group decodes |
| EccTheorems.ErrorCountLaw | smg_puf_rot_node/components/esp32_puflib/ecc.c:118-131 | the error count never exceeds the true distance, and equals it exactly when no group has more than four flips |
| EccTheorems.CanApplyIff | smg_puf_rot_node/components/esp32_puflib/ecc.c:161-178 | for a mask weight rounded to 64 masking runs to its end iff the weight is positive or the mask is empty |
| EccTheorems.CanProvisionIff | smg_puf_rot_node/components/esp32_puflib/ecc.c:203-231 | provisioning survives its assertions iff each path has 64 stable bits, or neither has any |
| EccTheorems.HelperFits | smg_puf_rot_node/components/esp32_puflib/ecc.c:203-241 | the four blobs of one enrollment fit each other: masks of memory size, helper data of one common weight, reconstruction never out of room on either path |
| EccTheorems.RtcReconstruction | smg_puf_rot_node/components/esp32_puflib/puf_measurement.c:153-179 | the first-attempt path returns the enrolled response if and only if every masked group decodes against its own reference under the sleep template |
| EccTheorems.SleepReconstruction | smg_puf_rot_node/components/esp32_puflib/puf_measurement.c:229-257 | the retry path returns the enrolled response if and only if every masked group decodes against the sleep reference |
| EccTheorems.BothPathsAgree | smg_puf_rot_node/components/esp32_puflib/ecc.c:92-110 | with at most 3 flips per masked group against its own path's reference both paths return the same enrolled response |
| EccTheorems.UnanimousCaptures | smg_puf_rot_node/components/esp32_puflib/ecc.c:149-195 | a bit whose count is 0 or the number of measurements has that value in every one of them |
| EccTheorems.StableBitsAgree | smg_puf_rot_node/components/esp32_puflib/ecc.c:142-201 | at every masked bit each of the 20 measurements equals the reference |
| EccTheorems.MaskedCapture | smg_puf_rot_node/components/esp32_puflib/ecc.c:142-201 | masking any enrollment measurement gives the masked reference itself |
| EccTheorems.RtcReplays | smg_puf_rot_node/components/esp32_puflib/ecc.c:203-251 | every first-path enrollment measurement, replayed, decodes to the enrolled response with error count 0 |
| EccTheorems.SleepReplays | smg_puf_rot_node/components/esp32_puflib/ecc.c:203-251 | every deep-sleep enrollment measurement, replayed, decodes to the enrolled response with error count 0 |
| EccTheorems.SelectXor | smg_puf_rot_node/components/esp32_puflib/ecc.c:161-178 | masking commutes with exclusive or |
| EccExact.StableIff | smg_puf_rot_node/components/esp32_puflib/ecc.c:142-153 | for 20 captures: a bit is masked as stable iff all of them agree on it, be it 0 or 1 |
| EccExact.ReferenceIff | smg_puf_rot_node/components/esp32_puflib/ecc.c:187-197 | for 20 captures: a reference bit is 1 iff more than 10 of them hold a 1 |
| EccExact.FrequencyCounts | smg_puf_rot_node/components/esp32_puflib/puf_measurement.c:98-125 | a frequency is the number of captures in which the bit is set |
| EccExact.SelectAt | smg_puf_rot_node/components/esp32_puflib/ecc.c:167-175 | a masked bit lands behind the masked bits before it |
| EccExact.MaskWeightIs | smg_puf_rot_node/components/esp32_puflib/ecc.c:154-156 | the common weight is the largest multiple of 64 that both masks reach |
| EccExact.HighestBitIs | smg_puf_rot_node/components/esp32_puflib/ecc.c:84 | the template bit of a byte is the one worth 128 |
| EccExact.ResponseBit | smg_puf_rot_node/components/esp32_puflib/ecc.c:101-132 | bit i of the enrolled response is the last bit of group i of the masked sleep reference |
| DeviceExact.GateIff | smg_puf_rot_node/components/esp32_puflib/puf_measurement.c:172-204 | a measurement passes iff more than 48.5 % of its bits are ones, which is 15893 of 32768 |
| PufDevice.Puf.constructor | smg_puf_rot_node/components/esp32_puflib/puf_measurement.c:28-34 | a wake: flash and RTC variables as they were, no response in RAM, the buffer holding the wake stub's measurement |
| PufDevice.Puf.SetBlob | smg_puf_rot_node/components/esp32_puflib/nvs.c:55-82 | one flash write or erasure, recorded in order |
| PufDevice.Puf.TurnOffRtcSram | smg_puf_rot_node/components/esp32_puflib/puf_measurement.c:91-96 | after a power cycle the fast memory holds an arbitrary measurement |
| PufDevice.Puf.RestoreRtcSram | smg_puf_rot_node/components/esp32_puflib/puf_measurement.c:80-83 | the fast memory holds its backup again |
| PufDevice.Puf.CountBits | smg_puf_rot_node/components/esp32_puflib/puf_measurement.c:103-105 | adds a measurement to the 16-bit counters |
| DeviceSpec.AddCaptureCounts | smg_puf_rot_node/components/esp32_puflib/puf_measurement.c:98-125 | the 16-bit counters do not wrap in an enrollment: adding a measurement gives the frequencies of one more |
| PufDevice.Puf.GetPufBitFrequency | smg_puf_rot_node/components/esp32_puflib/puf_measurement.c:98-108 | the counters are the frequencies of the measurements taken, and the fast memory is restored |
| PufDevice.Puf.SleepFrequencyStep | smg_puf_rot_node/components/esp32_puflib/puf_measurement.c:110-136 | zeroes or increments the stored counters, sleeping unless it is the last iteration |
| PufDevice.Puf.SleepFrequency | smg_puf_rot_node/components/esp32_puflib/puf_measurement.c:138-151 | as the boot specification: past the last iteration the stored counters are read as they are |
| PufDevice.Puf.MaskReference | smg_puf_rot_node/components/esp32_puflib/ecc.c:221-231 | reference and mask of one path, masked to the common weight |
| PufDevice.Puf.StoreEcc | smg_puf_rot_node/components/esp32_puflib/ecc.c:234-241 | sleep helper data first, then ECC_DATA built against the sleep reference |
| PufDevice.Puf.ProvisionHelper | smg_puf_rot_node/components/esp32_puflib/ecc.c:203-251 | writes masks, sleep helper data and ECC_DATA in that order, or fails between the masks and the helper data |
| PufDevice.Puf.ProvisionCalculate | smg_puf_rot_node/components/esp32_puflib/ecc.c:254-289 | derives the helper data after the last measurement, then overwrites and erases the counters |
| PufDevice.Puf.EnrollPuf | smg_puf_rot_node/components/esp32_puflib/ecc.c:335-347 | starts, or ends, an enrollment from the library state |
| PufDevice.Puf.CleanPufResponse | smg_puf_rot_node/components/esp32_puflib/puf_measurement.c:288-294 | clears the response, its buffer and the ready flag |
| PufDevice.Puf.Decode | smg_puf_rot_node/components/esp32_puflib/puf_measurement.c:168-179 | a fresh buffer receives the reconstruction of the measurement; the gate is more than 48.5 % ones |
| PufDevice.Puf.GetPufResponse | smg_puf_rot_node/components/esp32_puflib/puf_measurement.c:153-216 | the first-attempt path: afterwards the ready flag tells whether the gate passed |
| PufDevice.Puf.ResetCalculate | smg_puf_rot_node/components/esp32_puflib/puf_measurement.c:229-286 | the retry path, from the measurement of the wake stub |
| PufDevice.Puf.PuflibInit | smg_puf_rot_node/components/esp32_puflib/puf_measurement.c:55-68 | resumes whatever the library state says was interrupted by sleep |
| PufDevice.Puf.RunEnrollmentStep | smg_puf_rot_node/main/rot_identity.c:42-68 | enrollment is entered only while the flash does not say enrolled |
| PufDevice.Puf.IdentityGetPufResponse | smg_puf_rot_node/main/rot_identity.c:93-138 | hands out a ready response, or measures, retries through sleep at most five times and then gives up |
| PufDevice.Puf.AppMain | smg_puf_rot_node/main/app_main.c:76-160 | one whole boot, as the specification that the runs below are made of, with the key pair derived from the response before that is released |
| DeviceRuns.StartingBoot | smg_puf_rot_node/components/esp32_puflib/ecc.c:341-346 | a power-on without enrollment zeroes the counters and sleeps |
| DeviceRuns.CountingBoot | smg_puf_rot_node/components/esp32_puflib/puf_measurement.c:110-136 | each of the next 19 wakes adds exactly its measurement and sleeps |
| DeviceRuns.DerivingBoot | smg_puf_rot_node/components/esp32_puflib/ecc.c:254-289 | the 20th wake writes the four blobs with ECC_DATA last, then erases the counters; without enough stable bits it panics before any helper data |
| DeviceRuns.CutDeriving | smg_puf_rot_node/components/esp32_puflib/ecc.c:218-241 | what the flash holds after a power cut behind each of the seven writes of that boot |
| DeviceRuns.OneEnrollmentFits | smg_puf_rot_node/components/esp32_puflib/ecc.c:203-251 | the blobs of one enrollment fit each other on both reconstruction paths |
| DeviceRuns.ResponsePart | smg_puf_rot_node/main/rot_identity.c:93-138 | after enrollment a boot leaves the flash alone and hands out its own response, gives up, or sleeps with the response cleaned |
| DeviceRuns.DerivedBoot | smg_puf_rot_node/components/esp32_puflib/ecc.c:254-289 | the 20th wake seen from its end: enrolled with the counters erased, or panicked |
| DeviceRuns.EnrolledBoot | smg_puf_rot_node/main/rot_identity.c:42-138 | an enrolled boot writes no flash, never panics, never starts an enrollment and sleeps only to retry |
| DeviceRuns.BootKeeps | smg_puf_rot_node/main/app_main.c:70-165 | one whole boot keeps the invariant |
| DeviceRuns.CutKeeps | smg_puf_rot_node/components/esp32_puflib/ecc.c:215-285 | a power cut behind any of a boot's flash writes keeps the invariant |
| DeviceRuns.ReachableKeeps | smg_puf_rot_node/main/app_main.c:70-165 | the invariant holds after every run of boots, sleeps, panics and power cuts from the factory state |
| DeviceRuns.EnrolledMeansOneEnrollment | smg_puf_rot_node/components/esp32_puflib/ecc.c:215-241 | in every run an enrolled device holds all four blobs of one enrollment of 20 measurements per path |
| DeviceRuns.EnrolledFrozen | smg_puf_rot_node/main/rot_identity.c:57-59 | from then on no run changes the flash |
| DeviceRuns.CountersAreTheMeasurements | smg_puf_rot_node/components/esp32_puflib/puf_measurement.c:110-151 | after k wakes the stored counters are the sums of exactly those k measurements; no wake finds PROVISIONING with progress 20 |
| DeviceRuns.NoStaleResponse | smg_puf_rot_node/components/esp32_puflib/puf_measurement.c:32-34 | no device sleeps with the ready flag set, and what a boot hands out it decoded itself |
| DeviceRuns.HandedIsFresh | smg_puf_rot_node/main/rot_identity.c:93-138 | a response handed out is the reconstruction of a measurement of this boot: of the wake stub's if that passed the weight gate on a retry, and otherwise of the first-attempt path |
| DeviceRuns.StagesKeepReady | smg_puf_rot_node/components/esp32_puflib/puf_measurement.c:187-294 | the ready flag implies a response buffer after every stage, from any memory |
| DeviceRuns.BootOutcome | smg_puf_rot_node/main/app_main.c:76-165 | how each boot ends is told from its state and its measurements alone |
| DeviceRuns.SleepCosts | smg_puf_rot_node/main/rot_identity.c:42-138 | every deep sleep lowers the remaining budget by exactly one |
| DeviceRuns.AppMainFinishes | smg_puf_rot_node/main/rot_identity.c:44-56 | from any reachable state at most 25 deep sleeps follow each other, and at most 5 once enrolled |
| DeviceRuns.AppMainReturns | smg_puf_rot_node/main/app_main.c:76-165 | from any reachable state one of the next 26 boots returns from app_main, one of the next 6 once enrolled, as long as enrollment finds enough stable bits |
| DeviceRuns.SomeBootReturns | smg_puf_rot_node/main/rot_identity.c:86-138 | one more boot than the budget of a state, and one of them returns after nothing but deep sleeps |
| DeviceRuns.SleepsWithinBudget | smg_puf_rot_node/main/rot_identity.c:86-138 | deep sleeps in a row never exceed the budget of the state they start from |
| DeviceRuns.RejectionUsesTheBudget | smg_puf_rot_node/main/rot_identity.c:112-133 | the bound is tight: with every measurement rejected the device sleeps exactly its budget, and the boot after that returns without a response |
| DeviceRuns.PanicsIff | smg_puf_rot_node/components/esp32_puflib/ecc.c:161-178 | a reachable boot panics iff it takes the last measurement and a path is left with fewer than 64 stable bits while some path has any |
| DeviceRuns.RetryNeverEnrolls | smg_puf_rot_node/main/rot_identity.c:44-59 | a wake from a retry writes no flash and never leads back into enrollment |
| DeviceRuns.CountersErasedIff | smg_puf_rot_node/components/esp32_puflib/ecc.c:267-285 | the boot that enrolls leaves the counters erased iff the power did not fail within the two writes behind ECC_DATA |
| DeviceWitness.CountersCanSurvive | smg_puf_rot_node/components/esp32_puflib/ecc.c:279-285 | a run with one power cut after which the counters stay in flash in every continuation |
| DeviceIdentity.DeriveKeyPair | smg_puf_rot_node/main/rot_identity.c:154-225 | finds the key pair of the first of 8 counters whose block lies in [1, n-1], and fails exactly when there is none |
| DeviceIdentity.OneIdentity | smg_puf_rot_node/main/rot_identity.c:182-201 | a response and the stored helper data determine at most one key pair |
| DeviceIdentity.CloseMeansEnrolled | smg_puf_rot_node/components/esp32_puflib/ecc.c:92-110 | whichever path decoded it, a response whose one measurement was close is the enrolled one |
| DeviceIdentity.CloseBootHandsEnrolled | smg_puf_rot_node/main/rot_identity.c:93-138 | any boot that hands out a response from a close measurement hands out the enrolled response, whatever its other measurements were |
| DeviceIdentity.LaterBoot | smg_puf_rot_node/main/rot_identity.c:93-138 | an enrolled boot hands out a response exactly if it asks for one and a measurement passes the weight gate |
| DeviceIdentity.SameIdentityEveryBoot | smg_puf_rot_node/main/rot_identity.c:154-225 | after any later boots, retries and power cuts, a boot whose decoded measurement passes the gate and is close hands out the enrolled response, and the exported key pair is what is derived from it, and nothing else |
| DeviceExact.NoHelperNoKey | smg_puf_rot_node/components/esp32_puflib/ecc.c:303-314 | a key is derived only where all four blobs are present |
| DeviceExact.HashBindsAll | smg_puf_rot_node/components/esp32_puflib/ecc.c:291-325 | with the lengths fixed and no collision, two flash contents have one hash iff all four blobs are equal |
| DeviceExact.EnrollmentsBound | smg_puf_rot_node/components/esp32_puflib/ecc.c:291-325 | for the blobs of two enrollments the same holds with no word about lengths |
| DeviceExact.InfoInjective | smg_puf_rot_node/main/rot_identity.c:187-190 | different counters, or different helper-data hashes, give different HKDF inputs |
| DeviceExact.FewRejected | smg_puf_rot_node/main/rot_identity.c:182-184 | a candidate is a 256-bit number, fewer than 2^224 of which are rejected |
| DeviceExact.ChosenIff | smg_puf_rot_node/main/rot_identity.c:185-201 | a counter is chosen iff it is one of eight and its block is the first that is a scalar of the group |
| DeviceExact.EnrolledIff | smg_puf_rot_node/main/rot_identity.c:70-84 | two blobs are asked for; in every run the last one written decides, and means all four |
| DeviceExact.EnrollmentEndsUnseen | smg_puf_rot_node/components/esp32_puflib/ecc.c:335-341 | no boot of any run calls enroll_puf on an enrollment in progress, so its last branch never runs and the state it would reset is never read |
| DeviceExact.BudgetIsFresh | smg_puf_rot_node/main/rot_identity.c:105-137 | a boot that asks for a response and does not sleep leaves the retry budget fresh, one that sleeps has used one retry, and none that returns leaves a retry pending |
| DeviceExact.ResponseStaysIff | smg_puf_rot_node/main/app_main.c:139-160 | a response that was handed out is gone when the boot returns; one stays in RAM iff a retry reconstructed it and the network was down |
| DeviceExact.NotEnrolledNoResponse | smg_puf_rot_node/main/rot_identity.c:94-97 | without an enrollment nothing is measured and nothing changes |
| HandshakeSpec.HonestHandshake | smg_puf_rot_node/main/rot_session.c:99-277 | without interference both ends complete with the same key |
| HandshakeSpec.TranscriptInjective | smg_puf_rot_node/main/rot_session.c:176-192 | the signed transcript determines every one of its fields |
| RotSessions.RotSession.Handshake | smg_primary_server/rot_challenge_service.py:218-303 | the server authenticates, sets its key and acknowledges only after the signature over the whole transcript verified; otherwise it stays unauthenticated, and sends an error message unless a field of a wrong length raised first |
| RotSessions.RotSession.constructor | smg_primary_server/rot_challenge_service.py:192-199 | a new connection has no key and is not authenticated |
| RotSessions.DeviceHandshake | smg_puf_rot_node/main/rot_session.c:99-277 | the device completes only after proof and acknowledgement, with the key of its own transcript |
| RotSessions.DeviceCompletesIff | smg_puf_rot_node/main/rot_session.c:118-277 | a device holds a key iff it got a challenge under the pinned identifier with the right proof, and then an acknowledgement; the key is the hash of the four secrets and nonces |
| RotSessions.ServerCompletesIff | smg_primary_server/rot_challenge_service.py:218-303 | a server authenticates iff it got the hello of a registered node and a signature under its key over the whole exchange; the key is the hash of the same four values |
| HandshakeRuns.ReachableKeeps | smg_puf_rot_node/main/rot_session.c:53-285 | every session of every run is in a state its own messages explain |
| HandshakeRuns.ServerAuthenticates | smg_primary_server/rot_challenge_service.py:286-303 | an authenticated server session matches exactly one device session, which signed both ids, both nonces, both ephemeral keys and the proof; also when all verifiers are known |
| HandshakeRuns.SignatureAuthenticatesOnce | smg_primary_server/rot_challenge_service.py:286-303 | one device session never authenticates two server sessions |
| HandshakeRuns.MatchedKeysAgree | smg_puf_rot_node/main/rot_session.c:243-275 | if the matching device session completes, both hold the same key |
| HandshakeRuns.KeysDiffer | smg_primary_server/rot_challenge_service.py:298-299 | two authenticated server sessions never hold the same key |
| HandshakeRuns.DeviceAuthenticates | smg_puf_rot_node/main/rot_session.c:140-163 | a device past the server's proof was answered by exactly one server session of that node, over its challenge and that ephemeral key |
| HandshakeRuns.VerifiesIff | smg_primary_server/rot_challenge_service.py:286-300 | of all messages the network can deliver, the session that answered a device verifies exactly those that carry that device's answer, and only if challenge_b had reached the device unaltered |
| HandshakeRuns.ResponseCarries | smg_puf_rot_node/main/rot_session.c:176-226 | the device's own response carries its answer |
| HandshakeRuns.IntactTranscripts | smg_puf_rot_node/main/rot_session.c:176-192 | with challenge_b intact the device signed the very transcript its server session verifies |
| HandshakeRuns.SignerIsAnswered | smg_primary_server/rot_challenge_service.py:286-291 | a signed transcript that the answering session verifies is that of the device session it answered |
| HandshakeRuns.ServerFate | smg_primary_server/rot_challenge_service.py:218-303 | a session that sent a challenge is decided by the next message delivered to it, and takes no other |
| HandshakeRuns.AuthenticatesIff | smg_primary_server/rot_challenge_service.py:243-303 | in any run the session that answered a device authenticates iff challenge_b arrived unaltered and the next message it was delivered carried the device's answer |
| HandshakeRuns.KeyIsSharedIffBothArrived | smg_puf_rot_node/main/rot_session.c:228-275 | a completed device shares its key with the session that answered it exactly in those runs |
| HandshakeRuns.KeyIsSharedIff | smg_puf_rot_node/main/rot_session.c:228-275 | the answering server session of a completed device holds its key iff it authenticated |
| HandshakeRuns.DeviceFate | smg_puf_rot_node/main/rot_session.c:118-241 | in any run a device session is what its delivered messages make of it: one challenge, one last message, no third |
| HandshakeRuns.DeviceCompletesIffDelivered | smg_puf_rot_node/main/rot_session.c:228-241 | in any run a device session holds a key iff it was delivered a challenge it accepts and then an acknowledgement |
| HandshakeRuns.SharedKeyAgrees | smg_puf_rot_node/main/rot_session.c:243-275 | a device and a server session with equal keys agree on the exchanged secret, the verifier and both challenges |
| HandshakeRuns.CompletionIsNotAuthentication | smg_puf_rot_node/main/rot_session.c:228-241 | for every registered node there is a run in which the device completes and no server session is authenticated |
| BigEndian.Be32RoundTrip | smg_puf_rot_node/main/net_msg.c:43-48 | the four header bytes give back the length modulo 2^32 |
| Framing.FrameRoundTrip | smg_puf_rot_node/main/net_msg.c:62-66 | a framed body is received, and the stream consumed exactly, iff its length is between 1 and the receiver's limit; otherwise the body is left behind |
| Framing.AllBodiesArrive | smg_puf_rot_node/main/net_msg.c:37-79 | any list of bodies within the limit arrives in order and nothing behind it is touched |
| Framing.BothDirections | smg_puf_rot_node/main/net_msg.c:62-66 | bodies of 1 to 16384 bytes arrive at either end, longer ones up to 65536 at the server only |
| Framing.Stream.SendAll | smg_puf_rot_node/main/net_msg.c:12-22 | fails iff a send fails; on success everything is sent once, whatever parts send() takes, on failure a prefix of it |
| Framing.Stream.RecvAll | smg_puf_rot_node/main/net_msg.c:24-34 | fills the buffer from the front of the stream however it is split, or fails iff the stream ends first |
| Framing.Stream.NetMsgSend | smg_puf_rot_node/main/net_msg.c:37-52 | on success exactly the frame of the body was sent, on failure a prefix of it |
| Framing.Stream.NetMsgRecv | smg_puf_rot_node/main/net_msg.c:54-79 | what is received and what stays unread is a function of the stream, not of how it was split |
| Framing.Stream.SendJson | smg_primary_server/rot_challenge_service.py:105-107 | on success exactly the frame of the body was sent, on failure a prefix of it, and nothing if its length does not fit the header |
| Framing.Stream.RecvExact | smg_primary_server/rot_challenge_service.py:120-127 | returns the next n bytes, or fails iff the stream ends first |
| Framing.Stream.RecvJson | smg_primary_server/rot_challenge_service.py:110-117 | the Python end receives by the same function of the stream, with its own limit |
| Tlv.ParseTlv | smg_primary_server/auth_service.py:44-55 | the cursor loop computes the parse of the data |
| Tlv.ParseExact | smg_primary_server/auth_service.py:39-55 | parsing returns the one list of n fields whose packing the data starts with, and fails iff there is none |
| Tlv.PackedInjective | smg_primary_server/auth_service.py:39-41 | two packings of as many fields agree only if every field does, whatever follows |
| SecureNode.NodeSession.constructor | smg_primary_server/auth_service.py:89-128 | a new session has no keys and trust 0 |
| SecureNode.NodeSession.RunP2 | smg_primary_server/auth_service.py:171-214 | an unknown node changes nothing; a known one sets the shared secret and the genesis head, also when the acknowledgement then cannot be sent |
| SecureNode.NodeSession.ProcessInit | smg_primary_server/auth_service.py:223-258 | the registration passes iff it decrypts and its PREINIT value continues the genesis head |
| SecureNode.NodeSession.ProcessConf | smg_primary_server/auth_service.py:255-290 | the confirmation makes the session; if the acknowledgement cannot be sent it stays made, but without its trust |
| SecureNode.NodeSession.RunP3 | smg_primary_server/auth_service.py:220-296 | a session becomes active only after the confirmation tag matched; any failure up to there leaves the state as it was |
| SecureNode.NodeSession.VerifyMessage | smg_primary_server/auth_service.py:325-343 | a record is accepted iff it decrypts, parses and its PREG value continues the chain |
| SecureNode.NodeSession.HandleP4 | smg_primary_server/auth_service.py:322-424 | the chain advances by an accepted record before anything is sent; every error lowers trust and ends the session |
| SecureNode.NodeSession.JudgeReading | smg_primary_server/auth_service.py:370-393 | the anomaly check against the median of the other nodes, and the score stored with the reading |
| SecureNode.NodeSession.UpdateTrust | smg_primary_server/auth_service.py:474-505 | the three trust events |
| SecureNode.NodeSession.FailP4 | smg_primary_server/auth_service.py:416-424 | an error costs 0.3 and always ends the session, dropped or not |
| SecureNode.NodeSession.RunDataLoop | smg_primary_server/auth_service.py:300-320 | the loop over any messages is the run function the results below speak about |
| SecureNode.EndedStays | smg_primary_server/auth_service.py:303 | a session that has ended takes no further message |
| SecureNode.SecureNodeClient.constructor | smg_primary_server/pc_client.py:174-185 | a new client has no keys and message number 0 |
| SecureNode.SecureNodeClient.P2InitiatorCompute | smg_primary_server/pc_client.py:191-195 | the client's hello |
| SecureNode.SecureNodeClient.P2Finalize | smg_primary_server/pc_client.py:197-201 | the client's shared secret and genesis head |
| SecureNode.SecureNodeClient.P3Prepare | smg_primary_server/pc_client.py:203-219 | the client's registration |
| SecureNode.SecureNodeClient.P3Finalize | smg_primary_server/pc_client.py:221-247 | accepts a reply that echoes its nonce and moves its head to INIT |
| SecureNode.SecureNodeClient.P4Send | smg_primary_server/pc_client.py:249-271 | sends the next record over the current head; a reading too long for its fields fails with only the number moved on |
| SecureNode.SecureNodeClient.AwaitResponse | smg_primary_server/pc_client.py:486-495 | skips setpoints, then finalizes on a response or fails without moving the head |
| ChainHistory.RegRegInjective | smg_primary_server/auth_service.py:39-41 | the record text determines the record, the server and the session |
| ChainHistory.LinkInjective | smg_primary_server/auth_service.py:336-353 | equal links extend equal heads by the same record under the same session key |
| ChainHistory.LinkIsNoOpening | smg_primary_server/auth_service.py:273-274 | a link is never the first head of a session, although the client's part of it may have any length |
| ChainHistory.OpeningInjective | smg_primary_server/auth_service.py:273-274 | equal first heads mean the same genesis, registration and session identifier |
| ChainHistory.HeadDetermines | smg_primary_server/auth_service.py:336-357 | equal heads, of one session or two, mean the same opening and the same records in the same order |
| ChainHistory.HeadsNeverRepeat | smg_primary_server/auth_service.py:355-357 | the heads of one session are pairwise different |
| ChainRuns.SessionsOpen | smg_primary_server/auth_service.py:171-296 | every session that the opening lets through starts a chain whose opening is longer than a key input |
| ChainRuns.RunKeeps | smg_primary_server/auth_service.py:322-365 | after any messages the head, the log and the expected number are functions of the opening and the accepted records |
| ChainRuns.DataAdvances | smg_primary_server/auth_service.py:322-424 | a message with an acceptable record advances the chain even when handling it then fails; any other leaves the chain alone |
| ChainRuns.HeadsCommit | smg_primary_server/auth_service.py:359-365 | two sessions with equal heads accepted the same records and hold the same log |
| ChainRuns.AcceptedOnce | smg_primary_server/auth_service.py:330-343 | two sessions that would both take a message have the same identifier and the same history |
| ChainRuns.NoReplay | smg_primary_server/auth_service.py:340-358 | a message accepted once is never accepted again in its session, although M_num is never compared |
| ChainAgreement.RegistrationIff | smg_primary_server/auth_service.py:223-237 | a registration passes iff it decrypts to the digest that continues the genesis head over the rest of the text and both identities |
| ChainAgreement.ConfirmationIff | smg_primary_server/auth_service.py:262-283 | a confirmation passes iff it decrypts under the session key to the tag over the key, the identifier and both nonces |
| ChainAgreement.EchoIff | smg_primary_server/pc_client.py:221-231 | a client goes on iff the reply decrypts and echoes its nonce |
| ChainAgreement.ReceiveIff | smg_primary_server/pc_client.py:486-495 | a waiting client skips setpoints, moves by the server's contribution on a response it can decrypt, and stops at everything else |
| ChainAgreement.HelloBinds | smg_primary_server/pc_client.py:191-195 | both parts of a hello bind the client's nonce and identity, the first one its salt |
| ChainAgreement.AcceptedExact | smg_primary_server/auth_service.py:325-343 | a text is accepted as a record iff it starts with exactly that record's fields over the current head |
| ChainAgreement.RegistrationAgrees | smg_primary_server/auth_service.py:231-237 | whatever the network delivers, a server that accepts a client's digest agrees with it on both identities, the secret, the genesis head and the nonce |
| ChainAgreement.ConfirmationAgrees | smg_primary_server/auth_service.py:262-270 | any client whose confirmation a server accepts has that session's identifier, key, nonces and shared secret, whatever the network did to the reply |
| ChainAgreement.HeadsAgreeIff | smg_primary_server/pc_client.py:238-241 | after that the heads are equal iff the genesis heads were and the echoed digest, which the client does not check, was the server's |
| ChainAgreement.DataAnswered | smg_primary_server/auth_service.py:395-424 | a message handled to its end is answered by the server's contribution to the new head and the setpoint as it is; every other one by an error that ends the session |
| ChainAgreement.ContributionBinds | smg_primary_server/pc_client.py:258-260 | equal contributions of nodes to a link come from equal keys over equal PREG values |
| ChainLockstep.GenesisInLockstep | smg_primary_server/auth_service.py:186-205 | after P2 the heads are equal for every registered node, whichever salt the client has |
| ChainLockstep.OpeningInLockstep | smg_primary_server/pc_client.py:203-247 | without interference every check of P3 passes on both sides and the heads and keys end equal |
| ChainLockstep.NormalizedRoundTrip | smg_primary_server/pc_client.py:306-310 | the text of a reading survives normalisation, which fills whole blocks |
| ChainLockstep.SentIsAccepted | smg_primary_server/pc_client.py:249-271 | what the client sends, the server at the same head accepts as the same record |
| ChainLockstep.RunsInLockstep | smg_primary_server/pc_client.py:477-495 | in every undisturbed run no message is refused, with setpoints anywhere between responses |
| ChainLockstep.HeadsInLockstep | smg_primary_server/auth_service.py:355-406 | heads are equal after every completed exchange and commit to exactly what was sent; between response and receipt they differ by exactly the last record |
| Trust.TrustLaw | smg_primary_server/auth_service.py:474-505 | after any exchanges the score is max(0, 0.8 - 0.4 w), less 0.3 after an error, w counting windows of five in the stretches of anomalies; active iff no error and w at most 1 |
| Trust.WindowsStep | smg_primary_server/auth_service.py:493-505 | how one verdict changes the stretches and the number of windows |
| Trust.ActiveScores | smg_primary_server/auth_service.py:408-410 | while active the score is 0.8 or 0.4 and the counter below five |
| Trust.NeverRises | smg_primary_server/auth_service.py:474-505 | the score never rises or goes negative, and an ended session stays as it is |
| Trust.VerdictIs | smg_primary_server/auth_service.py:377-391 | a reading counts against a node iff it reports a voltage more than 0.8 V from a median, and which readings are stored |
| Trust.SteadyNode | smg_primary_server/auth_service.py:493-505 | a node never judged anomalous keeps a score of 0.8 for as long as nothing fails |
| Trust.AnomalousNode | smg_primary_server/auth_service.py:493-505 | five anomalous readings in a row leave 0.4, and ten end the session |
| Trust.StoredScoreLaw | smg_primary_server/auth_service.py:387-391 | over any exchanges, errors included, the score stored with the readings is max(0, 0.8 - 0.4 w); it is the session's own score iff there was no error or two windows |
| Trust.StoredStep | smg_primary_server/auth_service.py:380-391 | the verdict on a reading counts before it is stored, the failure of its handling does not |
| Trust.FailureIsNotStored | smg_primary_server/auth_service.py:387-417 | a failure never changes the stored score |
| Trust.FailureGoesUnread | smg_primary_server/ems_coordinator.py:14-19 | a run after which the session stands at 0.5 and others still read 0.8 |
| ChainRuns.TrustStep | smg_primary_server/auth_service.py:322-424 | handling one data message is one step of the trust machine, and stores the score in between |
| ChainRuns.SessionTrust | smg_primary_server/auth_service.py:300-424 | over any messages a session's trust and the score it stored are what its exchanges account for, and it is active iff they leave it active and nobody logged out |
| FuzzySpec.Trimf | smg_primary_server/ems_coordinator.py:44-50 | for any corners defined without a zero divisor, between 0 and 1, and positive exactly inside its support |
| FuzzySpec.Trapf | smg_primary_server/ems_coordinator.py:53-61 | the same for the trapezoid, also where two corners coincide |
| FuzzyExact.TriangleIs | smg_primary_server/ems_coordinator.py:44-50 | the triangle rises and falls on straight lines and is 1 at its peak only |
| FuzzyExact.TrapezoidIs | smg_primary_server/ems_coordinator.py:53-61 | the trapezoid rises and falls on straight lines and is 1 on its top only |
| FuzzyExact.TrustSets | smg_primary_server/ems_coordinator.py:94-104 | where each trust set applies, and where fully |
| FuzzyExact.ErrorSets | smg_primary_server/ems_coordinator.py:68-78 | where each voltage set applies, and where fully |
| FuzzyExact.DemandSets | smg_primary_server/ems_coordinator.py:81-91 | where each demand set applies, and where fully |
| FuzzyExact.OutputSets | smg_primary_server/ems_coordinator.py:111-120 | where each output set begins, peaks and ends |
| FuzzyExact.RuleTable | smg_primary_server/ems_coordinator.py:122-167 | every output by number: 2 + demand - error for trusted nodes, one less within 0 to 2 for reduced trust, 0 for none |
| FuzzyExact.OneRulePerCombination | smg_primary_server/ems_coordinator.py:136-167 | each combination of sets has exactly one output |
| FuzzyExact.TrustNeverCosts | smg_primary_server/ems_coordinator.py:126-130 | for equal voltage and demand a higher tier of trust is never asked for less |
| FuzzySpec.EveryCombination | smg_primary_server/ems_coordinator.py:136-167 | the table has a rule for each of the 27 combinations |
| FuzzySpec.FiresIff | smg_primary_server/ems_coordinator.py:64-167 | some rule fires iff trust is in (-0.1, 1.1), the voltage error in (-3, 3) and the demand in (-10, 150) |
| FuzzySpec.AggregateIff | smg_primary_server/ems_coordinator.py:179-186 | an output has positive weight iff it is inside the support of some firing rule's label |
| FuzzyExact.AggregateLevel | smg_primary_server/ems_coordinator.py:179-186 | the aggregate reaches a level iff some rule does with all three sets and its output |
| FuzzyExact.CentroidBalances | smg_primary_server/ems_coordinator.py:188-192 | the weights balance around the result and nowhere else |
| FuzzySpec.MomentBetween | smg_primary_server/ems_coordinator.py:188-192 | weights positive only between two bounds have their centroid between them |
| FuzzySpec.DenominatorIff | smg_primary_server/ems_coordinator.py:189-191 | the denominator is zero iff no rule fires |
| FuzzySpec.WithinHull | smg_primary_server/ems_coordinator.py:188-192 | the centroid lies inside any bounds that hold the supports of all firing rules |
| Coordinator.FuzzyInfer | smg_primary_server/ems_coordinator.py:170-192 | the nested loops over the output array compute the centroid of the aggregate |
| Coordinator.Raise | smg_primary_server/ems_coordinator.py:183-186 | the inner loop raises every output to the rule's contribution there |
| Coordinator.NextRow | smg_primary_server/ems_coordinator.py:179-186 | one more rule of the table raises the aggregate by its own contribution, or not at all when it does not fire |
| Coordinator.InferBounds | smg_primary_server/ems_coordinator.py:170-192 | when a rule fires the centroid is between 0.24 and 100 |
| Coordinator.SetpointZeroIff | smg_primary_server/ems_coordinator.py:233-234 | a setpoint is 0 iff some input is out of range, and always within 0 and 100 |
| FuzzyExact.LoneRule | smg_primary_server/ems_coordinator.py:170-192 | where only one set of each kind applies the centroid lies within the output set its rule names |
| FuzzyExact.TrustedCorners | smg_primary_server/ems_coordinator.py:157-167 | what a trusted node is asked for in the nine corners of the range, from under 10 W to over 80 W |
| FuzzyExact.SetpointIsRounded | smg_primary_server/ems_coordinator.py:234 | a setpoint is the centroid to the nearest tenth; clamping never changes it |
| FuzzyExact.TiesToEven | smg_primary_server/ems_coordinator.py:234 | halfway between two tenths the even one is taken |
| Bands.OnlyZeroIff | smg_primary_server/ems_coordinator.py:136-156 | below 0.30 no firing rule asks for power iff the score is at most 0.20, or there is no undervoltage and the demand is low for the voltage |
| Bands.ZeroBand | smg_primary_server/ems_coordinator.py:170-192 | where no firing rule asks for power the centroid lies between 19/6 and 4.75 W and the setpoint between 3.2 and 4.8 W |
| Bands.UntrustedBand | smg_primary_server/ems_coordinator.py:94-96 | that is what a node with a score of at most 0.20 gets, whatever else is going on |
| Bands.UntrustedAboveTen | smg_primary_server/ems_coordinator.py:15-19 | at a score of 0.29, with an undervoltage of 1 V and 50 W of demand, the setpoint is above 10 W |
| Bands.DegradedBand | smg_primary_server/ems_coordinator.py:98-100 | up to a score of 0.65 a node gets more than 0 and at most 60 W |
| Bands.TrustSetsTheBand | smg_primary_server/auth_service.py:387-391 | over any run of a session, errors included, the number of windows decides the band of the setpoint, through the stored score |
| FuzzyExact.InputsAre | smg_primary_server/ems_coordinator.py:223-232 | the error is the average deviation from 12 V, the demand the sum of the powers, the trust the node's own, with the defaults for missing parts |
| FuzzyExact.TotalAdds | smg_primary_server/ems_coordinator.py:224-227 | a total is what its parts add up to |
| Coordinator.AssignedExactly | smg_primary_server/ems_coordinator.py:229-236 | every node with a reading gets the setpoint of its own trust; the others keep theirs |
| Coordinator.EMSCoordinator.constructor | smg_primary_server/ems_coordinator.py:211-215 | no setpoints before the first update |
| Coordinator.EMSCoordinator.Update | smg_primary_server/ems_coordinator.py:217-236 | one cycle stores exactly those setpoints, all within 0 and 100 |
| Coordinator.EMSCoordinator.GetSetpoint | smg_primary_server/ems_coordinator.py:242-247 | the stored setpoint, or none before a node's first update |

## Left out

- Wi-Fi, sockets, threads, argument parsing, logging, metrics, flashing and CSV tools: plumbing around the modelled state.
- SHA-256, HMAC, HKDF, AES-GCM, ECDSA and ECDH internals: library code, taken as parameters with stated laws.
- Power domains, delays, the wake stub and the physics of SRAM: a measurement is an arbitrary input.
- The client's K_AB key (pc_client.py:201): derived and never used.
- JSON and hexadecimal text on the wire: bodies are opaque, and messages are records whose fields of a wrong length do not decode.
- The encrypted demo data loop after the handshake (rot_challenge_service.py:307-323, secure_channel.c): one decryption per message, no state.
- Logout between client and server (P5): the client sends four fields where the server expects a pair, so there is no round trip; in the data loop it only ends the session.
- The data store, the registry tools and manual setpoints: only easy members; the median voltage and the readings are inputs.
- Floating-point rounding in the trust score and the controller: both are over exact reals, and `round(sp, 1)` is to the nearest tenth with ties to even.
- Out-of-memory failures, NVS errors and the erase-and-retry path of nvs_flash_init (nvs.c:22-33): allocation and flash writes succeed.
- The error percentage of a reconstruction (puf_measurement.c:180, 258): a diagnostic that gates nothing.
- PufDevice.Puf.AppMain: does not print the export and does not run the handshake; it stops at the key pair both start from.
- SecureNode.NodeSession.RunDataLoop: takes the messages as a list; a timeout or a lost connection is the end of the list.
- Bands.DegradedBand: ends at 0.65, where the rules for trusted nodes begin to fire; above it any output set can be asked for, and `Coordinator.InferBounds` is all that holds.
- ChainLockstep.RunsInLockstep: covers runs in which the network delivers what was sent and both sends of an exchange succeed; `ChainRuns` covers everything else that can reach the server.

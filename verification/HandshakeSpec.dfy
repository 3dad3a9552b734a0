/**
  The two roles of the mutual handshake as functions on the messages they receive.  Every field is a
  byte string of fixed length; cryptography is a parameter.
 */
module HandshakeSpec {
  import opened Bits
  import opened Options

  const ID_LEN: nat := 16
  const DIGEST_LEN: nat := 32
  const PUBKEY_LEN: nat := 65
  const CHALLENGE_LEN: nat := 16

  /** "SMG-RoT-device-proof-v1" */
  const DOMAIN_TAG: Bytes := [0x53, 0x4D, 0x47, 0x2D, 0x52, 0x6F, 0x54, 0x2D, 0x64, 0x65, 0x76, 0x69, 0x63, 0x65, 0x2D,
                              0x70, 0x72, 0x6F, 0x6F, 0x66, 0x2D, 0x76, 0x31]

  /** SHA-256, the public point of a scalar, point validation, the ECDH shared secret of a scalar and
      a point, and ECDSA over a digest. */
  datatype Crypto = Crypto(
    hash: Bytes -> Bytes,
    point: Bytes -> Bytes,
    validPoint: Bytes -> bool,
    shared: (Bytes, Bytes) -> Bytes,
    sign: (Bytes, Bytes) -> Bytes,
    verify: (Bytes, Bytes, Bytes) -> bool)
  {
    /** Digests and points have their lengths, generated points are valid, a signature verifies
        under the signer's point, and the key exchange commutes. */
    ghost predicate Sound() {
      && (forall m :: |hash(m)| == DIGEST_LEN)
      && (forall s :: |point(s)| == PUBKEY_LEN && validPoint(point(s)))
      && (forall s, t :: |shared(s, point(t))| == DIGEST_LEN && shared(s, point(t)) == shared(t, point(s)))
      && (forall s, m :: verify(point(s), m, sign(s, m)))
    }
  }

  /** A message with all its fields decoded from hex; fields of a wrong length do not decode. */
  datatype Message =
    | Hello(idA: Bytes, challengeA: Bytes)
    | Challenge(idB: Bytes, challengeB: Bytes, ephPkB: Bytes, serverProof: Bytes)
    | Response(ephPkA: Bytes, deviceProof: Bytes)
    | SessionAck
    | Error

  function ProofInput(shsB: Bytes, challengeA: Bytes, ephPkB: Bytes): Bytes {
    shsB + challengeA + ephPkB
  }

  function Transcript(idA: Bytes, idB: Bytes, challengeB: Bytes, challengeA: Bytes, ephPkA: Bytes, ephPkB: Bytes,
                      serverProof: Bytes): Bytes {
    DOMAIN_TAG + idA + idB + challengeB + challengeA + ephPkA + ephPkB + serverProof
  }

  function KeyInput(z: Bytes, shsB: Bytes, challengeA: Bytes, challengeB: Bytes): Bytes {
    z + shsB + challengeA + challengeB
  }

  // ---------- the device ----------

  /** What a node was provisioned with: its identifier and key, and the pinned server reference. */
  datatype Node = Node(idA: Bytes, skA: Bytes, idB: Bytes, shsB: Bytes)
  {
    predicate WellFormed() {
      |idA| == ID_LEN && |idB| == ID_LEN && |shsB| == DIGEST_LEN
    }
  }

  datatype Accepted = Accepted(challengeB: Bytes, ephPkB: Bytes, serverProof: Bytes)

  /** One call of the device's handshake: what it drew, what it accepted and signed, and its key. */
  datatype DeviceSession = DeviceSession(node: Node, challengeA: Bytes, ephSkA: Bytes, accepted: Option<Accepted>,
                                         key: Option<Bytes>, failed: bool)

  function DeviceStart(node: Node, challengeA: Bytes, ephSkA: Bytes): DeviceSession {
    DeviceSession(node, challengeA, ephSkA, None, None, false)
  }

  function DeviceHello(d: DeviceSession): Message {
    Hello(d.node.idA, d.challengeA)
  }

  /** The device takes any message that has the four fields, whatever its type. */
  predicate DeviceAccepts(c: Crypto, d: DeviceSession, m: Message) {
    && m.Challenge? && |m.idB| == ID_LEN && |m.challengeB| == CHALLENGE_LEN && |m.ephPkB| == PUBKEY_LEN
    && |m.serverProof| == DIGEST_LEN
    && m.idB == d.node.idB
    && m.serverProof == c.hash(ProofInput(d.node.shsB, d.challengeA, m.ephPkB))
  }

  function DeviceOnChallenge(c: Crypto, d: DeviceSession, m: Message): DeviceSession {
    if DeviceAccepts(c, d, m) then d.(accepted := Some(Accepted(m.challengeB, m.ephPkB, m.serverProof)))
    else d.(failed := true)
  }

  function DeviceTranscript(c: Crypto, d: DeviceSession): Bytes
    requires d.accepted.Some?
  {
    var a := d.accepted.value;
    Transcript(d.node.idA, d.node.idB, a.challengeB, d.challengeA, c.point(d.ephSkA), a.ephPkB, a.serverProof)
  }

  function DeviceResponse(c: Crypto, d: DeviceSession): Message
    requires d.accepted.Some?
  {
    Response(c.point(d.ephSkA), c.sign(d.node.skA, c.hash(DeviceTranscript(c, d))))
  }

  function DeviceKeyInput(c: Crypto, d: DeviceSession): Bytes
    requires d.accepted.Some?
  {
    KeyInput(c.shared(d.ephSkA, d.accepted.value.ephPkB), d.node.shsB, d.challengeA, d.accepted.value.challengeB)
  }

  /** The acknowledgement carries no proof: its type is all that is looked at. */
  function DeviceOnAck(c: Crypto, d: DeviceSession, m: Message): DeviceSession
    requires d.accepted.Some?
  {
    if m.SessionAck? && c.validPoint(d.accepted.value.ephPkB) then d.(key := Some(c.hash(DeviceKeyInput(c, d))))
    else d.(failed := true)
  }

  // ---------- the server ----------

  datatype Entry = Entry(pkA: Bytes, shsB: Bytes)

  /** The server's identifier and registry, and which nodes' secrets others know. */
  datatype Setup = Setup(idB: Bytes, registry: map<Bytes, Entry>, leakedKeys: set<Bytes>, leakedVerifiers: set<Bytes>)

  datatype Begun = Begun(idA: Bytes, entry: Entry, challengeA: Bytes, challengeB: Bytes, ephSkB: Bytes)

  /** One connection: the node it was opened for and what it drew, and the point and key of an
      authenticated device. */
  datatype ServerSession = ServerSession(begun: Option<Begun>, ephPkA: Bytes, key: Option<Bytes>, failed: bool)
  {
    predicate Authenticated() {
      key.Some?
    }
  }

  const NEW_SERVER := ServerSession(None, [], None, false)

  /** Whether the first message gets a challenge: it must be a hello of a registered node whose
      record decodes. */
  predicate ServerAccepts(c: Crypto, setup: Setup, m: Message) {
    && m.Hello? && |m.idA| == ID_LEN && |m.challengeA| == CHALLENGE_LEN && m.idA in setup.registry
    && |setup.registry[m.idA].pkA| == PUBKEY_LEN && |setup.registry[m.idA].shsB| == DIGEST_LEN
    && c.validPoint(setup.registry[m.idA].pkA)
  }

  function ServerOnHello(c: Crypto, setup: Setup, s: ServerSession, m: Message, challengeB: Bytes,
                         ephSkB: Bytes): ServerSession
  {
    if ServerAccepts(c, setup, m)
    then s.(begun := Some(Begun(m.idA, setup.registry[m.idA], m.challengeA, challengeB, ephSkB)))
    else s.(failed := true)
  }

  function ServerProofInput(c: Crypto, b: Begun): Bytes {
    ProofInput(b.entry.shsB, b.challengeA, c.point(b.ephSkB))
  }

  function ServerChallenge(c: Crypto, setup: Setup, b: Begun): Message {
    Challenge(setup.idB, b.challengeB, c.point(b.ephSkB), c.hash(ServerProofInput(c, b)))
  }

  function ServerTranscript(c: Crypto, setup: Setup, b: Begun, ephPkA: Bytes): Bytes {
    Transcript(b.idA, setup.idB, b.challengeB, b.challengeA, ephPkA, c.point(b.ephSkB), c.hash(ServerProofInput(c, b)))
  }

  function ServerKeyInput(c: Crypto, b: Begun, ephPkA: Bytes): Bytes {
    KeyInput(c.shared(b.ephSkB, ephPkA), b.entry.shsB, b.challengeA, b.challengeB)
  }

  predicate ServerVerifies(c: Crypto, setup: Setup, b: Begun, m: Message) {
    && m.Response? && |m.ephPkA| == PUBKEY_LEN && c.validPoint(m.ephPkA)
    && c.verify(b.entry.pkA, c.hash(ServerTranscript(c, setup, b, m.ephPkA)), m.deviceProof)
  }

  function ServerOnResponse(c: Crypto, setup: Setup, s: ServerSession, m: Message): ServerSession
    requires s.begun.Some?
  {
    if ServerVerifies(c, setup, s.begun.value, m)
    then s.(ephPkA := m.ephPkA, key := Some(c.hash(ServerKeyInput(c, s.begun.value, m.ephPkA))))
    else s.(failed := true)
  }

  /** With an honest network both ends complete with the same key. */
  lemma HonestHandshake(c: Crypto, setup: Setup, node: Node, challengeA: Bytes, ephSkA: Bytes, challengeB: Bytes,
                        ephSkB: Bytes)
    requires c.Sound() && node.WellFormed() && |setup.idB| == ID_LEN && node.idB == setup.idB
    requires |challengeA| == |challengeB| == CHALLENGE_LEN
    requires node.idA in setup.registry && setup.registry[node.idA] == Entry(c.point(node.skA), node.shsB)
    ensures var d := DeviceStart(node, challengeA, ephSkA);
            var s := ServerOnHello(c, setup, NEW_SERVER, DeviceHello(d), challengeB, ephSkB);
            s.begun.Some? &&
            var accepted := DeviceOnChallenge(c, d, ServerChallenge(c, setup, s.begun.value));
            accepted.accepted.Some? &&
            var done := ServerOnResponse(c, setup, s, DeviceResponse(c, accepted));
            done.Authenticated() && DeviceOnAck(c, accepted, SessionAck).key == done.key
  {
    hide Transcript, KeyInput, ProofInput;
  }

  // ---------- fixed-length concatenations are injective ----------

  lemma SplitAt(a: Bytes, b: Bytes, x: Bytes, y: Bytes)
    requires |a| == |b| && a + x == b + y
    ensures a == b && x == y
  {
    assert a == (a + x)[..|a|] && b == (b + y)[..|b|];
    assert x == (a + x)[|a|..] && y == (b + y)[|b|..];
  }

  lemma ProofInputInjective(s1: Bytes, a1: Bytes, p1: Bytes, s2: Bytes, a2: Bytes, p2: Bytes)
    requires |s1| == |s2| && |a1| == |a2|
    requires ProofInput(s1, a1, p1) == ProofInput(s2, a2, p2)
    ensures s1 == s2 && a1 == a2 && p1 == p2
  {
    SplitAt(s1 + a1, s2 + a2, p1, p2);
    SplitAt(s1, s2, a1, a2);
  }

  lemma KeyInputInjective(z1: Bytes, s1: Bytes, a1: Bytes, b1: Bytes, z2: Bytes, s2: Bytes, a2: Bytes, b2: Bytes)
    requires |s1| == |s2| && |a1| == |a2| && |b1| == |b2|
    requires KeyInput(z1, s1, a1, b1) == KeyInput(z2, s2, a2, b2)
    ensures z1 == z2 && s1 == s2 && a1 == a2 && b1 == b2
  {
    assert |z1| == |z2|;
    SplitAt(z1 + s1 + a1, z2 + s2 + a2, b1, b2);
    SplitAt(z1 + s1, z2 + s2, a1, a2);
    SplitAt(z1, z2, s1, s2);
  }

  lemma TranscriptInjective(i1: Bytes, j1: Bytes, b1: Bytes, a1: Bytes, p1: Bytes, q1: Bytes, s1: Bytes,
                            i2: Bytes, j2: Bytes, b2: Bytes, a2: Bytes, p2: Bytes, q2: Bytes, s2: Bytes)
    requires |i1| == |i2| && |j1| == |j2| && |b1| == |b2| && |a1| == |a2| && |p1| == |p2| && |q1| == |q2|
    requires Transcript(i1, j1, b1, a1, p1, q1, s1) == Transcript(i2, j2, b2, a2, p2, q2, s2)
    ensures i1 == i2 && j1 == j2 && b1 == b2 && a1 == a2 && p1 == p2 && q1 == q2 && s1 == s2
  {
    SplitAt(DOMAIN_TAG + i1 + j1 + b1 + a1 + p1 + q1, DOMAIN_TAG + i2 + j2 + b2 + a2 + p2 + q2, s1, s2);
    SplitAt(DOMAIN_TAG + i1 + j1 + b1 + a1 + p1, DOMAIN_TAG + i2 + j2 + b2 + a2 + p2, q1, q2);
    SplitAt(DOMAIN_TAG + i1 + j1 + b1 + a1, DOMAIN_TAG + i2 + j2 + b2 + a2, p1, p2);
    SplitAt(DOMAIN_TAG + i1 + j1 + b1, DOMAIN_TAG + i2 + j2 + b2, a1, a2);
    SplitAt(DOMAIN_TAG + i1 + j1, DOMAIN_TAG + i2 + j2, b1, b2);
    SplitAt(DOMAIN_TAG + i1, DOMAIN_TAG + i2, j1, j2);
    SplitAt(DOMAIN_TAG, DOMAIN_TAG, i1, i2);
  }
}

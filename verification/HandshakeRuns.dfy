/**
  Any number of device and server sessions over a network that may drop, reorder, duplicate, alter
  and invent messages.  Nothing is assumed of SHA-256 beyond that no two of the strings that the
  honest parties of the run themselves hashed collide.
 */
module HandshakeRuns {
  import opened Bits
  import opened Options
  import opened HandshakeSpec

  /** All sessions, and four records of the run: every challenge and ephemeral point that was drawn,
      every digest an honest device signed, every server proof an honest server sent, and every
      string that honest parties hashed. */
  datatype World = World(devices: map<nat, DeviceSession>, servers: map<nat, ServerSession>,
                         drawn: set<Bytes>, signed: set<(Bytes, Bytes)>, proofs: set<Bytes>, hashed: set<Bytes>)

  const EMPTY := World(map[], map[], {}, {}, {}, {})

  /** The received messages are whatever the network likes. */
  datatype Event =
    | DeviceStarts(d: nat, node: Node, challengeA: Bytes, ephSkA: Bytes)
    | DeviceReceives(d: nat, message: Message)
    | ServerStarts(s: nat)
    | ServerReceives(s: nat, message: Message, challengeB: Bytes, ephSkB: Bytes)

  /** A random draw gives a value that no honest party has drawn before. */
  predicate Fresh(w: World, value: Bytes) {
    value !in w.drawn
  }

  /** Without the verifier of a node its proof can only be replayed, not computed. */
  predicate ProofUnforged(c: Crypto, setup: Setup, w: World, d: DeviceSession, m: Message) {
    DeviceAccepts(c, d, m) && d.node.shsB !in setup.leakedVerifiers ==> m.serverProof in w.proofs
  }

  /** Without the key of a node a signature verifies only for a digest that one of its sessions signed. */
  predicate SignatureUnforged(c: Crypto, setup: Setup, w: World, b: Begun, m: Message) {
    ServerVerifies(c, setup, b, m) && b.entry.pkA !in setup.leakedKeys ==>
      (b.entry.pkA, c.hash(ServerTranscript(c, setup, b, m.ephPkA))) in w.signed
  }

  predicate CanHappen(c: Crypto, setup: Setup, w: World, e: Event) {
    match e
    case DeviceStarts(d, node, challengeA, ephSkA) =>
      && d !in w.devices && node.WellFormed() && |challengeA| == CHALLENGE_LEN
      && Fresh(w, challengeA) && Fresh(w, c.point(ephSkA)) && challengeA != c.point(ephSkA)
    case DeviceReceives(d, m) =>
      && d in w.devices && !w.devices[d].failed && w.devices[d].key.None?
      && (w.devices[d].accepted.None? ==> ProofUnforged(c, setup, w, w.devices[d], m))
    case ServerStarts(s) => s !in w.servers
    case ServerReceives(s, m, challengeB, ephSkB) =>
      && s in w.servers && !w.servers[s].failed && w.servers[s].key.None?
      && match w.servers[s].begun
         case None =>
           && |challengeB| == CHALLENGE_LEN && Fresh(w, challengeB) && Fresh(w, c.point(ephSkB))
           && challengeB != c.point(ephSkB)
         case Some(b) => SignatureUnforged(c, setup, w, b, m)
  }

  /** What a device session hashed by the time it has accepted a challenge. */
  function DeviceHashes(c: Crypto, d: DeviceSession): set<Bytes> {
    if d.accepted.None? then {} else
      {ProofInput(d.node.shsB, d.challengeA, d.accepted.value.ephPkB), DeviceTranscript(c, d)}
      + if d.key.Some? then {DeviceKeyInput(c, d)} else {}
  }

  function ServerHashes(c: Crypto, setup: Setup, s: ServerSession): set<Bytes> {
    if s.begun.None? then {} else
      {ServerProofInput(c, s.begun.value)}
      + if s.key.None? then {} else
          {ServerTranscript(c, setup, s.begun.value, s.ephPkA), ServerKeyInput(c, s.begun.value, s.ephPkA)}
  }

  function DeviceSignatures(c: Crypto, d: DeviceSession): set<(Bytes, Bytes)> {
    if d.accepted.None? then {} else {(c.point(d.node.skA), c.hash(DeviceTranscript(c, d)))}
  }

  function ServerProofs(c: Crypto, s: ServerSession): set<Bytes> {
    if s.begun.None? then {} else {c.hash(ServerProofInput(c, s.begun.value))}
  }

  function WithDevice(c: Crypto, w: World, d: nat, session: DeviceSession): World {
    w.(devices := w.devices[d := session], drawn := w.drawn + {session.challengeA, c.point(session.ephSkA)},
       signed := w.signed + DeviceSignatures(c, session), hashed := w.hashed + DeviceHashes(c, session))
  }

  function WithServer(c: Crypto, setup: Setup, w: World, s: nat, session: ServerSession): World {
    w.(servers := w.servers[s := session],
       drawn := w.drawn + (if session.begun.None? then {} else
                             {session.begun.value.challengeB, c.point(session.begun.value.ephSkB)}),
       proofs := w.proofs + ServerProofs(c, session), hashed := w.hashed + ServerHashes(c, setup, session))
  }

  function Next(c: Crypto, setup: Setup, w: World, e: Event): World
    requires CanHappen(c, setup, w, e)
  {
    match e
    case DeviceStarts(d, node, challengeA, ephSkA) => WithDevice(c, w, d, DeviceStart(node, challengeA, ephSkA))
    case DeviceReceives(d, m) =>
      WithDevice(c, w, d, if w.devices[d].accepted.None? then DeviceOnChallenge(c, w.devices[d], m)
                          else DeviceOnAck(c, w.devices[d], m))
    case ServerStarts(s) => WithServer(c, setup, w, s, NEW_SERVER)
    case ServerReceives(s, m, challengeB, ephSkB) =>
      var was := w.servers[s];
      WithServer(c, setup, w, s,
                 if was.begun.None? then ServerOnHello(c, setup, was, m, challengeB, ephSkB)
                 else ServerOnResponse(c, setup, was, m))
  }

  predicate CanRun(c: Crypto, setup: Setup, w: World, events: seq<Event>)
    decreases |events|
  {
    events == [] || (CanHappen(c, setup, w, events[0]) && CanRun(c, setup, Next(c, setup, w, events[0]), events[1..]))
  }

  function Run(c: Crypto, setup: Setup, w: World, events: seq<Event>): World
    requires CanRun(c, setup, w, events)
    decreases |events|
  {
    if events == [] then w else Run(c, setup, Next(c, setup, w, events[0]), events[1..])
  }

  predicate Reachable(c: Crypto, setup: Setup, w: World, events: seq<Event>) {
    CanRun(c, setup, EMPTY, events) && w == Run(c, setup, EMPTY, events)
  }

  // ---------- what every event keeps ----------

  /** A device session in order: its fields have their lengths, and everything it did is on record. */
  predicate DeviceOk(c: Crypto, setup: Setup, w: World, d: DeviceSession) {
    && d.node.WellFormed() && |d.challengeA| == CHALLENGE_LEN
    && d.challengeA in w.drawn && c.point(d.ephSkA) in w.drawn
    && DeviceHashes(c, d) <= w.hashed && DeviceSignatures(c, d) <= w.signed
    && (d.accepted.Some? ==>
          var a := d.accepted.value;
          && |a.challengeB| == CHALLENGE_LEN && |a.ephPkB| == PUBKEY_LEN && |a.serverProof| == DIGEST_LEN
          && a.serverProof == c.hash(ProofInput(d.node.shsB, d.challengeA, a.ephPkB))
          && (d.node.shsB !in setup.leakedVerifiers ==> a.serverProof in w.proofs))
    && (d.key.Some? ==> d.accepted.Some? && d.key.value == c.hash(DeviceKeyInput(c, d)))
  }

  predicate ServerOk(c: Crypto, setup: Setup, w: World, s: ServerSession) {
    && ServerHashes(c, setup, s) <= w.hashed && ServerProofs(c, s) <= w.proofs
    && (s.begun.Some? ==>
          var b := s.begun.value;
          && |b.idA| == ID_LEN && |b.challengeA| == CHALLENGE_LEN && |b.challengeB| == CHALLENGE_LEN
          && b.idA in setup.registry && b.entry == setup.registry[b.idA]
          && |b.entry.shsB| == DIGEST_LEN && |b.entry.pkA| == PUBKEY_LEN
          && b.challengeB in w.drawn && c.point(b.ephSkB) in w.drawn)
    && (s.key.Some? ==>
          && s.begun.Some? && |s.ephPkA| == PUBKEY_LEN
          && s.key.value == c.hash(ServerKeyInput(c, s.begun.value, s.ephPkA))
          && (s.begun.value.entry.pkA !in setup.leakedKeys ==>
                (s.begun.value.entry.pkA, c.hash(ServerTranscript(c, setup, s.begun.value, s.ephPkA))) in w.signed))
  }

  ghost predicate SessionsOk(c: Crypto, setup: Setup, w: World) {
    && (forall d | d in w.devices :: DeviceOk(c, setup, w, w.devices[d]))
    && (forall s | s in w.servers :: ServerOk(c, setup, w, w.servers[s]))
  }

  predicate SameDraw(c: Crypto, a: DeviceSession, b: DeviceSession) {
    a.challengeA == b.challengeA || c.point(a.ephSkA) == c.point(b.ephSkA)
  }

  predicate SameServerDraw(c: Crypto, a: ServerSession, b: ServerSession) {
    a.begun.Some? && b.begun.Some? &&
    (|| a.begun.value.challengeB == b.begun.value.challengeB
     || c.point(a.begun.value.ephSkB) == c.point(b.begun.value.ephSkB))
  }

  /** No two sessions share a challenge or an ephemeral key. */
  ghost predicate DrawsDiffer(c: Crypto, w: World) {
    && (forall d, e | d in w.devices && e in w.devices && d != e :: !SameDraw(c, w.devices[d], w.devices[e]))
    && (forall s, t | s in w.servers && t in w.servers && s != t :: !SameServerDraw(c, w.servers[s], w.servers[t]))
  }

  /** Every recorded signature and proof was made by a session. */
  ghost predicate RecordsOk(c: Crypto, w: World) {
    && (forall x | x in w.signed :: exists d :: d in w.devices && x in DeviceSignatures(c, w.devices[d]))
    && (forall p | p in w.proofs :: exists s :: s in w.servers && p in ServerProofs(c, w.servers[s]))
  }

  ghost predicate Inv(c: Crypto, setup: Setup, w: World) {
    SessionsOk(c, setup, w) && DrawsDiffer(c, w) && RecordsOk(c, w)
  }

  /** The records only grow. */
  predicate Grows(w: World, v: World) {
    w.drawn <= v.drawn && w.signed <= v.signed && w.proofs <= v.proofs && w.hashed <= v.hashed
  }

  lemma DeviceOkGrows(c: Crypto, setup: Setup, w: World, v: World, d: DeviceSession)
    requires DeviceOk(c, setup, w, d) && Grows(w, v)
    ensures DeviceOk(c, setup, v, d)
  {
  }

  lemma ServerOkGrows(c: Crypto, setup: Setup, w: World, v: World, s: ServerSession)
    requires ServerOk(c, setup, w, s) && Grows(w, v)
    ensures ServerOk(c, setup, v, s)
  {
  }

  /** A device session takes a step: it is new with fresh draws, or keeps its draws and its record. */
  lemma DeviceStepKeeps(c: Crypto, setup: Setup, w: World, d: nat, session: DeviceSession)
    requires Inv(c, setup, w)
    requires DeviceOk(c, setup, WithDevice(c, w, d, session), session)
    requires if d in w.devices
             then w.devices[d].challengeA == session.challengeA && w.devices[d].ephSkA == session.ephSkA
                  && DeviceSignatures(c, w.devices[d]) <= DeviceSignatures(c, session)
             else Fresh(w, session.challengeA) && Fresh(w, c.point(session.ephSkA))
    ensures Inv(c, setup, WithDevice(c, w, d, session))
  {
    hide DeviceOk, ServerOk, DeviceSignatures, DeviceHashes, ServerProofs;
    var v := WithDevice(c, w, d, session);
    forall e | e in v.devices ensures DeviceOk(c, setup, v, v.devices[e]) {
      if e != d {
        DeviceOkGrows(c, setup, w, v, w.devices[e]);
      }
    }
    forall s | s in v.servers ensures ServerOk(c, setup, v, v.servers[s]) {
      ServerOkGrows(c, setup, w, v, w.servers[s]);
    }
    forall e, f | e in v.devices && f in v.devices && e != f ensures !SameDraw(c, v.devices[e], v.devices[f]) {
      if d !in w.devices {
        var other := if e == d then f else e;
        DrawsOnRecord(c, setup, w, other);
      }
    }
    forall x | x in v.signed ensures exists e :: e in v.devices && x in DeviceSignatures(c, v.devices[e]) {
      if x in DeviceSignatures(c, session) {
        assert x in DeviceSignatures(c, v.devices[d]);
      } else {
        var e :| e in w.devices && x in DeviceSignatures(c, w.devices[e]);
        assert e in v.devices && x in DeviceSignatures(c, v.devices[e]);
      }
    }
  }

  lemma DrawsOnRecord(c: Crypto, setup: Setup, w: World, d: nat)
    requires Inv(c, setup, w)
    ensures d in w.devices ==> w.devices[d].challengeA in w.drawn && c.point(w.devices[d].ephSkA) in w.drawn
  {
  }

  lemma ServerDrawsOnRecord(c: Crypto, setup: Setup, w: World, s: nat)
    requires Inv(c, setup, w)
    ensures s in w.servers && w.servers[s].begun.Some? ==>
              w.servers[s].begun.value.challengeB in w.drawn && c.point(w.servers[s].begun.value.ephSkB) in w.drawn
  {
  }

  lemma ServerStepKeeps(c: Crypto, setup: Setup, w: World, s: nat, session: ServerSession)
    requires Inv(c, setup, w)
    requires ServerOk(c, setup, WithServer(c, setup, w, s, session), session)
    requires if s in w.servers && w.servers[s].begun.Some? then session.begun == w.servers[s].begun
             else session.begun.Some? ==>
                    (Fresh(w, session.begun.value.challengeB) && Fresh(w, c.point(session.begun.value.ephSkB)))
    ensures Inv(c, setup, WithServer(c, setup, w, s, session))
  {
    hide DeviceOk, ServerOk, DeviceSignatures, ServerHashes;
    var v := WithServer(c, setup, w, s, session);
    forall d | d in v.devices ensures DeviceOk(c, setup, v, v.devices[d]) {
      DeviceOkGrows(c, setup, w, v, w.devices[d]);
    }
    forall t | t in v.servers ensures ServerOk(c, setup, v, v.servers[t]) {
      if t != s {
        ServerOkGrows(c, setup, w, v, w.servers[t]);
      }
    }
    forall t, u | t in v.servers && u in v.servers && t != u ensures !SameServerDraw(c, v.servers[t], v.servers[u]) {
      ServerDrawsOnRecord(c, setup, w, if t == s then u else t);
    }
    forall p | p in v.proofs ensures exists t :: t in v.servers && p in ServerProofs(c, v.servers[t]) {
      if p in ServerProofs(c, session) {
        assert p in ServerProofs(c, v.servers[s]);
      } else {
        var t :| t in w.servers && p in ServerProofs(c, w.servers[t]);
        assert t in v.servers && p in ServerProofs(c, v.servers[t]);
      }
    }
  }

  /** What one event makes of its session is in order. */
  lemma DeviceEventOk(c: Crypto, setup: Setup, w: World, e: Event)
    requires c.Sound() && SessionsOk(c, setup, w) && CanHappen(c, setup, w, e) && (e.DeviceStarts? || e.DeviceReceives?)
    ensures var v := Next(c, setup, w, e); e.d in v.devices && DeviceOk(c, setup, v, v.devices[e.d])
  {
    hide Transcript, ProofInput, KeyInput, DeviceHashes, DeviceSignatures, ServerOk, ServerVerifies, ServerAccepts;
    if e.DeviceStarts? {
      StartedOk(c, setup, w, e.d, e.node, e.challengeA, e.ephSkA);
    } else {
      hide DeviceOk, DeviceAccepts, ProofUnforged;
      assert DeviceOk(c, setup, w, w.devices[e.d]);
      if w.devices[e.d].accepted.None? {
        ChallengedOk(c, setup, w, e.d, w.devices[e.d], e.message);
      } else {
        AckedOk(c, setup, w, e.d, w.devices[e.d], e.message);
      }
    }
  }

  lemma StartedOk(c: Crypto, setup: Setup, w: World, d: nat, node: Node, challengeA: Bytes, ephSkA: Bytes)
    requires node.WellFormed() && |challengeA| == CHALLENGE_LEN
    ensures var session := DeviceStart(node, challengeA, ephSkA);
            DeviceOk(c, setup, WithDevice(c, w, d, session), session)
  {
  }

  lemma ChallengedOk(c: Crypto, setup: Setup, w: World, d: nat, was: DeviceSession, m: Message)
    requires c.Sound() && DeviceOk(c, setup, w, was) && ProofUnforged(c, setup, w, was, m)
    requires was.accepted.None? && was.key.None?
    ensures var session := DeviceOnChallenge(c, was, m);
            DeviceOk(c, setup, WithDevice(c, w, d, session), session)
  {
    hide Transcript, ProofInput, KeyInput, DeviceSignatures, DeviceHashes;
    NothingYet(c, was.(failed := true));
  }

  lemma NothingYet(c: Crypto, d: DeviceSession)
    requires d.accepted.None?
    ensures DeviceHashes(c, d) == {} && DeviceSignatures(c, d) == {}
  {
  }

  lemma AckedOk(c: Crypto, setup: Setup, w: World, d: nat, was: DeviceSession, m: Message)
    requires c.Sound() && DeviceOk(c, setup, w, was) && was.accepted.Some? && was.key.None?
    ensures var session := DeviceOnAck(c, was, m);
            DeviceOk(c, setup, WithDevice(c, w, d, session), session)
  {
    hide Transcript, ProofInput, KeyInput, DeviceTranscript, DeviceSignatures, DeviceHashes;
  }

  lemma ServerEventOk(c: Crypto, setup: Setup, w: World, e: Event)
    requires c.Sound() && SessionsOk(c, setup, w) && CanHappen(c, setup, w, e) && (e.ServerStarts? || e.ServerReceives?)
    ensures var v := Next(c, setup, w, e); e.s in v.servers && ServerOk(c, setup, v, v.servers[e.s])
  {
    hide Transcript, ProofInput, KeyInput, DeviceOk, DeviceAccepts;
    if e.ServerReceives? {
      assert ServerOk(c, setup, w, w.servers[e.s]);
    }
  }

  lemma DeviceEventKeeps(c: Crypto, setup: Setup, w: World, e: Event)
    requires c.Sound() && Inv(c, setup, w) && CanHappen(c, setup, w, e) && (e.DeviceStarts? || e.DeviceReceives?)
    ensures Inv(c, setup, Next(c, setup, w, e))
  {
    hide Transcript, ProofInput, KeyInput, DrawsDiffer, RecordsOk, SessionsOk, DeviceOk;
    DeviceEventOk(c, setup, w, e);
    DeviceStepKeeps(c, setup, w, e.d, Next(c, setup, w, e).devices[e.d]);
  }

  lemma ServerEventKeeps(c: Crypto, setup: Setup, w: World, e: Event)
    requires c.Sound() && Inv(c, setup, w) && CanHappen(c, setup, w, e) && (e.ServerStarts? || e.ServerReceives?)
    ensures Inv(c, setup, Next(c, setup, w, e))
  {
    hide Transcript, ProofInput, KeyInput, DrawsDiffer, RecordsOk, SessionsOk, ServerOk;
    ServerEventOk(c, setup, w, e);
    ServerStepKeeps(c, setup, w, e.s, Next(c, setup, w, e).servers[e.s]);
  }

  lemma {:induction false} RunKeeps(c: Crypto, setup: Setup, w: World, events: seq<Event>)
    requires c.Sound() && Inv(c, setup, w) && CanRun(c, setup, w, events)
    ensures Inv(c, setup, Run(c, setup, w, events))
    decreases |events|
  {
    hide Inv, CanHappen, Next;
    if events == [] {
    } else {
      if events[0].DeviceStarts? || events[0].DeviceReceives? {
        DeviceEventKeeps(c, setup, w, events[0]);
      } else {
        ServerEventKeeps(c, setup, w, events[0]);
      }
      RunKeeps(c, setup, Next(c, setup, w, events[0]), events[1..]);
    }
  }

  /** In every reachable world the invariant holds. */
  lemma ReachableKeeps(c: Crypto, setup: Setup, w: World, events: seq<Event>)
    requires c.Sound() && Reachable(c, setup, w, events)
    ensures Inv(c, setup, w)
  {
    hide CanHappen, Next;
    RunKeeps(c, setup, EMPTY, events);
  }

  // ---------- agreement ----------

  /** No two of the strings that honest parties hashed have the same digest. */
  ghost predicate NoCollision(c: Crypto, w: World) {
    forall x, y | x in w.hashed && y in w.hashed && c.hash(x) == c.hash(y) :: x == y
  }

  /** Device session `d` signed exactly what server session `s` verified: both identifiers, both
      challenges, both ephemeral keys and the server's proof. */
  predicate Signed(c: Crypto, setup: Setup, d: DeviceSession, s: ServerSession)
    requires s.key.Some? && s.begun.Some?
  {
    var b := s.begun.value;
    && d.accepted.Some? && c.point(d.node.skA) == b.entry.pkA
    && d.node.idA == b.idA && d.node.idB == setup.idB
    && d.accepted.value.challengeB == b.challengeB && d.challengeA == b.challengeA
    && c.point(d.ephSkA) == s.ephPkA && d.accepted.value.ephPkB == c.point(b.ephSkB)
    && d.accepted.value.serverProof == c.hash(ServerProofInput(c, b))
    && d.node.shsB == b.entry.shsB
  }

  lemma MatchTranscripts(c: Crypto, setup: Setup, w: World, d: DeviceSession, s: ServerSession)
    requires c.Sound() && NoCollision(c, w) && |setup.idB| == ID_LEN
    requires DeviceOk(c, setup, w, d) && ServerOk(c, setup, w, s) && s.key.Some? && d.accepted.Some?
    requires c.point(d.node.skA) == s.begun.value.entry.pkA
    requires c.hash(DeviceTranscript(c, d)) == c.hash(ServerTranscript(c, setup, s.begun.value, s.ephPkA))
    ensures Signed(c, setup, d, s)
  {
    hide Transcript, ProofInput;
    var a, b := d.accepted.value, s.begun.value;
    assert DeviceTranscript(c, d) in w.hashed && ServerTranscript(c, setup, b, s.ephPkA) in w.hashed;
    TranscriptInjective(d.node.idA, d.node.idB, a.challengeB, d.challengeA, c.point(d.ephSkA), a.ephPkB, a.serverProof,
                        b.idA, setup.idB, b.challengeB, b.challengeA, s.ephPkA, c.point(b.ephSkB),
                        c.hash(ServerProofInput(c, b)));
    assert ProofInput(d.node.shsB, d.challengeA, a.ephPkB) in w.hashed && ServerProofInput(c, b) in w.hashed;
    ProofInputInjective(d.node.shsB, d.challengeA, a.ephPkB, b.entry.shsB, b.challengeA, c.point(b.ephSkB));
  }

  /** An authenticated server session of a node whose key is not leaked matches exactly one device
      session, which signed its whole transcript; even if the verifiers of all nodes are known. */
  lemma ServerAuthenticates(c: Crypto, setup: Setup, w: World, events: seq<Event>, s: nat)
    requires c.Sound() && |setup.idB| == ID_LEN && Reachable(c, setup, w, events) && NoCollision(c, w)
    requires s in w.servers && w.servers[s].Authenticated() && w.servers[s].begun.Some?
    requires w.servers[s].begun.value.entry.pkA !in setup.leakedKeys
    ensures exists d :: d in w.devices && Signed(c, setup, w.devices[d], w.servers[s])
    ensures forall d, e | d in w.devices && e in w.devices
                        && Signed(c, setup, w.devices[d], w.servers[s])
                        && Signed(c, setup, w.devices[e], w.servers[s]) :: d == e
  {
    hide Transcript, ProofInput, KeyInput, CanRun, Run;
    ReachableKeeps(c, setup, w, events);
    var session := w.servers[s];
    assert ServerOk(c, setup, w, session);
    var x := (session.begun.value.entry.pkA, c.hash(ServerTranscript(c, setup, session.begun.value, session.ephPkA)));
    assert x in w.signed;
    var d :| d in w.devices && x in DeviceSignatures(c, w.devices[d]);
    assert DeviceOk(c, setup, w, w.devices[d]);
    MatchTranscripts(c, setup, w, w.devices[d], session);
    forall d, e | d in w.devices && e in w.devices
                  && Signed(c, setup, w.devices[d], session) && Signed(c, setup, w.devices[e], session)
      ensures d == e
    {
      assert SameDraw(c, w.devices[d], w.devices[e]);
    }
  }

  /** One device session never authenticates two server sessions. */
  lemma SignatureAuthenticatesOnce(c: Crypto, setup: Setup, w: World, events: seq<Event>, d: nat, s: nat, t: nat)
    requires c.Sound() && Reachable(c, setup, w, events)
    requires d in w.devices && s in w.servers && t in w.servers
    requires w.servers[s].key.Some? && w.servers[s].begun.Some? && w.servers[t].key.Some? && w.servers[t].begun.Some?
    requires Signed(c, setup, w.devices[d], w.servers[s]) && Signed(c, setup, w.devices[d], w.servers[t])
    ensures s == t
  {
    hide Transcript, ProofInput, KeyInput, CanRun, Run, SessionsOk, RecordsOk;
    ReachableKeeps(c, setup, w, events);
    assert SameServerDraw(c, w.servers[s], w.servers[t]);
  }

  /** If the matching device session completes, both ends hold the same key. */
  lemma MatchedKeysAgree(c: Crypto, setup: Setup, w: World, events: seq<Event>, d: nat, s: nat)
    requires c.Sound() && Reachable(c, setup, w, events)
    requires d in w.devices && s in w.servers && w.servers[s].key.Some? && w.servers[s].begun.Some?
    requires Signed(c, setup, w.devices[d], w.servers[s])
    ensures w.devices[d].key.Some? ==> w.devices[d].key == w.servers[s].key
  {
    hide Transcript, ProofInput, KeyInput, CanRun, Run, DrawsDiffer, RecordsOk;
    ReachableKeeps(c, setup, w, events);
    assert DeviceOk(c, setup, w, w.devices[d]) && ServerOk(c, setup, w, w.servers[s]);
  }

  lemma EqualKeysSameDraw(c: Crypto, setup: Setup, w: World, x: ServerSession, y: ServerSession)
    requires c.Sound() && NoCollision(c, w) && ServerOk(c, setup, w, x) && ServerOk(c, setup, w, y)
    requires x.Authenticated() && x.key == y.key
    ensures SameServerDraw(c, x, y)
  {
    hide Transcript, ProofInput, KeyInput;
    var b, e := x.begun.value, y.begun.value;
    assert ServerKeyInput(c, b, x.ephPkA) in w.hashed && ServerKeyInput(c, e, y.ephPkA) in w.hashed;
    KeyInputInjective(c.shared(b.ephSkB, x.ephPkA), b.entry.shsB, b.challengeA, b.challengeB,
                      c.shared(e.ephSkB, y.ephPkA), e.entry.shsB, e.challengeA, e.challengeB);
  }

  /** Two authenticated server sessions never hold the same key. */
  lemma KeysDiffer(c: Crypto, setup: Setup, w: World, events: seq<Event>, s: nat, t: nat)
    requires c.Sound() && Reachable(c, setup, w, events) && NoCollision(c, w)
    requires s in w.servers && t in w.servers && s != t && w.servers[s].Authenticated() && w.servers[t].Authenticated()
    ensures w.servers[s].key != w.servers[t].key
  {
    hide Transcript, ProofInput, KeyInput, CanRun, Run, RecordsOk;
    ReachableKeeps(c, setup, w, events);
    var x, y := w.servers[s], w.servers[t];
    assert ServerOk(c, setup, w, x) && ServerOk(c, setup, w, y);
    if x.key == y.key {
      EqualKeysSameDraw(c, setup, w, x, y);
    }
  }

  // ---------- what the device knows ----------

  /** Server session `s` computed the proof that device session `d` accepted. */
  predicate Proved(c: Crypto, d: DeviceSession, s: ServerSession) {
    && d.accepted.Some? && s.begun.Some?
    && s.begun.value.entry.shsB == d.node.shsB && s.begun.value.challengeA == d.challengeA
    && c.point(s.begun.value.ephSkB) == d.accepted.value.ephPkB
  }

  /** Registration gives every node its own verifier. */
  predicate DistinctVerifiers(setup: Setup) {
    forall i, j | i in setup.registry && j in setup.registry && i != j ::
      setup.registry[i].shsB != setup.registry[j].shsB
  }

  /** A device session that gets past the server's proof was answered by exactly one server session,
      opened for that very node, over its challenge and that ephemeral key. */
  lemma DeviceAuthenticates(c: Crypto, setup: Setup, w: World, events: seq<Event>, d: nat)
    requires c.Sound() && Reachable(c, setup, w, events) && NoCollision(c, w) && DistinctVerifiers(setup)
    requires d in w.devices && w.devices[d].accepted.Some? && w.devices[d].node.shsB !in setup.leakedVerifiers
    requires var node := w.devices[d].node; node.idA in setup.registry && setup.registry[node.idA].shsB == node.shsB
    ensures exists s :: s in w.servers && Proved(c, w.devices[d], w.servers[s])
                        && w.servers[s].begun.value.idA == w.devices[d].node.idA
    ensures forall s, t | s in w.servers && t in w.servers
                        && Proved(c, w.devices[d], w.servers[s]) && Proved(c, w.devices[d], w.servers[t]) :: s == t
  {
    hide Transcript, ProofInput, KeyInput, CanRun, Run;
    ReachableKeeps(c, setup, w, events);
    var session := w.devices[d];
    assert DeviceOk(c, setup, w, session);
    var s :| s in w.servers && session.accepted.value.serverProof in ServerProofs(c, w.servers[s]);
    assert ServerOk(c, setup, w, w.servers[s]);
    var b := w.servers[s].begun.value;
    assert ServerProofInput(c, b) in w.hashed;
    assert ProofInput(session.node.shsB, session.challengeA, session.accepted.value.ephPkB) in w.hashed;
    ProofInputInjective(session.node.shsB, session.challengeA, session.accepted.value.ephPkB,
                        b.entry.shsB, b.challengeA, c.point(b.ephSkB));
    assert Proved(c, session, w.servers[s]);
    forall s, t | s in w.servers && t in w.servers && Proved(c, session, w.servers[s])
      && Proved(c, session, w.servers[t])
      ensures s == t
    {
      assert SameServerDraw(c, w.servers[s], w.servers[t]);
    }
  }

  // ---------- when the server authenticates ----------

  /** A message that carries the answer of a device session: its ephemeral point, and a signature that
      holds for what it signed. */
  predicate Carries(c: Crypto, d: DeviceSession, m: Message) {
    && d.accepted.Some? && m.Response? && m.ephPkA == c.point(d.ephSkA)
    && c.verify(c.point(d.node.skA), c.hash(DeviceTranscript(c, d)), m.deviceProof)
  }

  /** The device's own response does. */
  lemma ResponseCarries(c: Crypto, d: DeviceSession)
    requires c.Sound() && d.accepted.Some?
    ensures Carries(c, d, DeviceResponse(c, d))
  {
    hide Transcript;
  }

  /** A node as the server knows it: with its own verifier, and a key that nobody else has. */
  predicate Registered(c: Crypto, setup: Setup, node: Node) {
    && node.idA in setup.registry && setup.registry[node.idA] == Entry(c.point(node.skA), node.shsB)
    && node.idB == setup.idB && DistinctVerifiers(setup) && c.point(node.skA) !in setup.leakedKeys
  }

  /** The server's challenge reached the device unaltered. */
  predicate ChallengeIntact(d: DeviceSession, s: ServerSession)
    requires d.accepted.Some? && s.begun.Some?
  {
    d.accepted.value.challengeB == s.begun.value.challengeB
  }

  /** With its challenge intact, the server session that answered a device verifies just what the device signed. */
  lemma IntactTranscripts(c: Crypto, setup: Setup, w: World, d: DeviceSession, s: ServerSession)
    requires DeviceOk(c, setup, w, d) && ServerOk(c, setup, w, s) && Proved(c, d, s) && Registered(c, setup, d.node)
    requires ChallengeIntact(d, s)
    ensures DeviceTranscript(c, d) == ServerTranscript(c, setup, s.begun.value, c.point(d.ephSkA))
    ensures s.begun.value.entry == Entry(c.point(d.node.skA), d.node.shsB)
  {
    hide Transcript, ProofInput, DeviceHashes, ServerHashes;
  }

  /** A transcript that a device signed and the answering server session verifies is that of the
      device session it answered. */
  lemma SignerIsAnswered(c: Crypto, setup: Setup, w: World, d: nat, s: nat, point: Bytes)
    requires c.Sound() && |setup.idB| == ID_LEN && Inv(c, setup, w) && |point| == PUBKEY_LEN
    requires d in w.devices && s in w.servers && Proved(c, w.devices[d], w.servers[s])
    requires var b := w.servers[s].begun.value;
             var x := ServerTranscript(c, setup, b, point);
             NoCollisionWith(c, w, x) && (b.entry.pkA, c.hash(x)) in w.signed
    ensures ChallengeIntact(w.devices[d], w.servers[s]) && point == c.point(w.devices[d].ephSkA)
  {
    hide Transcript, ProofInput, KeyInput;
    var b := w.servers[s].begun.value;
    var x := ServerTranscript(c, setup, b, point);
    var e :| e in w.devices && (b.entry.pkA, c.hash(x)) in DeviceSignatures(c, w.devices[e]);
    assert DeviceOk(c, setup, w, w.devices[e]) && ServerOk(c, setup, w, w.servers[s]);
    hide SessionsOk, RecordsOk;
    SameTranscript(c, setup, w, w.devices[e], w.servers[s], point);
    assert SameDraw(c, w.devices[d], w.devices[e]);
  }

  lemma SameTranscript(c: Crypto, setup: Setup, w: World, d: DeviceSession, s: ServerSession, point: Bytes)
    requires c.Sound() && |setup.idB| == ID_LEN && |point| == PUBKEY_LEN
    requires DeviceOk(c, setup, w, d) && ServerOk(c, setup, w, s) && d.accepted.Some? && s.begun.Some?
    requires var x := ServerTranscript(c, setup, s.begun.value, point);
             NoCollisionWith(c, w, x) && c.hash(x) == c.hash(DeviceTranscript(c, d))
    ensures ChallengeIntact(d, s) && d.challengeA == s.begun.value.challengeA && point == c.point(d.ephSkA)
  {
    hide Transcript, ProofInput, KeyInput;
    var a, b := d.accepted.value, s.begun.value;
    assert DeviceTranscript(c, d) in w.hashed;
    TranscriptInjective(d.node.idA, d.node.idB, a.challengeB, d.challengeA, c.point(d.ephSkA), a.ephPkB, a.serverProof,
                        b.idA, setup.idB, b.challengeB, b.challengeA, point, c.point(b.ephSkB),
                        c.hash(ServerProofInput(c, b)));
  }

  /** Nor does `x` collide with any of them. */
  ghost predicate NoCollisionWith(c: Crypto, w: World, x: Bytes) {
    forall y | y in w.hashed && c.hash(x) == c.hash(y) :: x == y
  }

  /** Whatever the network delivers to the server session that answered a device, it verifies if and
      only if it carries that device's answer and the challenge had reached the device unaltered. */
  lemma VerifiesIff(c: Crypto, setup: Setup, w: World, events: seq<Event>, d: nat, s: nat, m: Message)
    requires c.Sound() && |setup.idB| == ID_LEN && Reachable(c, setup, w, events)
    requires d in w.devices && s in w.servers && Proved(c, w.devices[d], w.servers[s])
    requires Registered(c, setup, w.devices[d].node) && SignatureUnforged(c, setup, w, w.servers[s].begun.value, m)
    requires m.Response? ==> NoCollisionWith(c, w, ServerTranscript(c, setup, w.servers[s].begun.value, m.ephPkA))
    ensures ServerVerifies(c, setup, w.servers[s].begun.value, m)
            <==> ChallengeIntact(w.devices[d], w.servers[s]) && Carries(c, w.devices[d], m)
  {
    hide Transcript, ProofInput, KeyInput, CanRun, Run, DrawsDiffer, RecordsOk;
    ReachableKeeps(c, setup, w, events);
    var device, session := w.devices[d], w.servers[s];
    assert DeviceOk(c, setup, w, device) && ServerOk(c, setup, w, session);
    OwnEntry(c, setup, w, device, session);
    if ServerVerifies(c, setup, session.begun.value, m) {
      SignerIsAnswered(c, setup, w, d, s, m.ephPkA);
    }
    if ChallengeIntact(device, session) {
      IntactTranscripts(c, setup, w, device, session);
    }
  }

  lemma OwnEntry(c: Crypto, setup: Setup, w: World, d: DeviceSession, s: ServerSession)
    requires ServerOk(c, setup, w, s) && Proved(c, d, s) && Registered(c, setup, d.node)
    ensures s.begun.value.idA == d.node.idA && s.begun.value.entry == Entry(c.point(d.node.skA), d.node.shsB)
  {
    hide ServerHashes, ServerProofs;
  }

  /** The messages delivered to a server session, in order. */
  function Delivered(events: seq<Event>, s: nat): seq<Message> {
    if events == [] then [] else
      var e := events[0];
      (if e.ServerReceives? && e.s == s then [e.message] else []) + Delivered(events[1..], s)
  }

  predicate Waiting(s: ServerSession) {
    s.begun.Some? && s.key.None? && !s.failed
  }

  /** What became of a server session after the messages it was delivered: a second one decides, and
      there is no third. */
  predicate Decided(c: Crypto, setup: Setup, s: ServerSession, messages: seq<Message>) {
    s.begun.Some? ==>
      if |messages| == 1 then Waiting(s)
      else |messages| == 2 && s == ServerOnResponse(c, setup, NEW_SERVER.(begun := s.begun), messages[1])
  }

  /** A session that waits is decided by the next message delivered to it; one that is done takes none. */
  lemma {:induction false} WaitingFate(c: Crypto, setup: Setup, w: World, events: seq<Event>, s: nat)
    requires CanRun(c, setup, w, events) && s in w.servers && (w.servers[s].begun.Some? || w.servers[s].failed)
    ensures var was, messages := w.servers[s], Delivered(events, s);
            && s in Run(c, setup, w, events).servers
            && var now := Run(c, setup, w, events).servers[s];
            && (messages == [] ==> now == was)
            && (messages != [] ==>
                  (|messages| == 1 && Waiting(was) && now == ServerOnResponse(c, setup, was, messages[0])))
    decreases |events|
  {
    hide ServerVerifies, DeviceAccepts, DeviceHashes, ServerHashes, DeviceSignatures, ServerProofs, SignatureUnforged;
    hide ProofUnforged;
    if events != [] {
      var e := events[0];
      NextOfServer(c, setup, w, e, s);
      WaitingFate(c, setup, Next(c, setup, w, e), events[1..], s);
    }
  }

  /** An event changes a server session only by delivering it a message. */
  lemma NextOfServer(c: Crypto, setup: Setup, w: World, e: Event, s: nat)
    requires CanHappen(c, setup, w, e) && s in w.servers
    ensures s in Next(c, setup, w, e).servers
    ensures var was, now := w.servers[s], Next(c, setup, w, e).servers[s];
            if e.ServerReceives? && e.s == s then
              && !was.failed && was.key.None?
              && now == (if was.begun.None? then ServerOnHello(c, setup, was, e.message, e.challengeB, e.ephSkB)
                         else ServerOnResponse(c, setup, was, e.message))
            else now == was
  {
    hide ServerVerifies, DeviceAccepts, DeviceHashes, ServerHashes, DeviceSignatures, ServerProofs, SignatureUnforged;
    hide ProofUnforged;
  }

  lemma {:induction false} ServerFate(c: Crypto, setup: Setup, w: World, events: seq<Event>, s: nat)
    requires CanRun(c, setup, w, events) && (s in w.servers ==> w.servers[s] == NEW_SERVER)
    ensures s in Run(c, setup, w, events).servers ==>
              Decided(c, setup, Run(c, setup, w, events).servers[s], Delivered(events, s))
    decreases |events|
  {
    hide ServerAccepts, ServerVerifies;
    if events != [] {
      var e := events[0];
      var v := Next(c, setup, w, e);
      if s in w.servers && e.ServerReceives? && e.s == s {
        NextOfServer(c, setup, w, e, s);
        WaitingFate(c, setup, v, events[1..], s);
      } else {
        StillNew(c, setup, w, e, s);
        ServerFate(c, setup, v, events[1..], s);
      }
    }
  }

  lemma StillNew(c: Crypto, setup: Setup, w: World, e: Event, s: nat)
    requires CanHappen(c, setup, w, e) && (s in w.servers ==> w.servers[s] == NEW_SERVER)
    requires !(s in w.servers && e.ServerReceives? && e.s == s)
    ensures var v := Next(c, setup, w, e); s in v.servers ==> v.servers[s] == NEW_SERVER
    ensures !(e.ServerReceives? && e.s == s)
  {
    hide ServerVerifies, DeviceAccepts, DeviceHashes, ServerHashes, DeviceSignatures, ServerProofs, SignatureUnforged;
    hide ProofUnforged;
  }

  /** The server's answer to a device was unaltered, and the next message that the answering session
      was delivered carried the device's answer. */
  predicate BothArrived(c: Crypto, w: World, events: seq<Event>, d: nat, s: nat)
    requires d in w.devices && s in w.servers && Proved(c, w.devices[d], w.servers[s])
  {
    var messages := Delivered(events, s);
    ChallengeIntact(w.devices[d], w.servers[s]) && |messages| == 2 && Carries(c, w.devices[d], messages[1])
  }

  /** In any run the session that answered a device authenticates if and only if the network brought
      challenge_b to the device as it was sent, and the device's answer back while the session waited. */
  lemma AuthenticatesIff(c: Crypto, setup: Setup, w: World, events: seq<Event>, d: nat, s: nat)
    requires c.Sound() && |setup.idB| == ID_LEN && Reachable(c, setup, w, events) && NoCollision(c, w)
    requires d in w.devices && s in w.servers && Proved(c, w.devices[d], w.servers[s])
    requires Registered(c, setup, w.devices[d].node)
    ensures w.servers[s].Authenticated() <==> BothArrived(c, w, events, d, s)
    ensures w.servers[s].Authenticated() ==> Signed(c, setup, w.devices[d], w.servers[s])
  {
    hide Transcript, ProofInput, KeyInput, CanRun, Run, Registered, ServerHashes, RecordsOk, DrawsDiffer;
    ReachableKeeps(c, setup, w, events);
    ServerFate(c, setup, EMPTY, events, s);
    var device, session := w.devices[d], w.servers[s];
    assert DeviceOk(c, setup, w, device) && ServerOk(c, setup, w, session);
    OwnEntry(c, setup, w, device, session);
    RegisteredKey(c, setup, device.node);
    if session.Authenticated() {
      AnsweredIsSigned(c, setup, w, events, d, s);
      IntactTranscripts(c, setup, w, device, session);
    }
    if BothArrived(c, w, events, d, s) {
      IntactTranscripts(c, setup, w, device, session);
    }
  }

  lemma RegisteredKey(c: Crypto, setup: Setup, node: Node)
    requires Registered(c, setup, node)
    ensures c.point(node.skA) !in setup.leakedKeys
  {
  }

  lemma AnsweredIsSigned(c: Crypto, setup: Setup, w: World, events: seq<Event>, d: nat, s: nat)
    requires c.Sound() && |setup.idB| == ID_LEN && Reachable(c, setup, w, events) && NoCollision(c, w)
    requires d in w.devices && s in w.servers && Proved(c, w.devices[d], w.servers[s])
    requires w.servers[s].Authenticated() && w.servers[s].begun.value.entry.pkA !in setup.leakedKeys
    ensures Signed(c, setup, w.devices[d], w.servers[s])
  {
    hide Transcript, ProofInput, KeyInput, CanRun, Run, SessionsOk, RecordsOk;
    ServerAuthenticates(c, setup, w, events, s);
    var e :| e in w.devices && Signed(c, setup, w.devices[e], w.servers[s]);
    ReachableKeeps(c, setup, w, events);
    assert SameDraw(c, w.devices[d], w.devices[e]);
  }

  /** The server session that answered a completed device session holds its key if and only if it
      authenticated, whether or not the registry is in order. */
  lemma KeyIsSharedIff(c: Crypto, setup: Setup, w: World, events: seq<Event>, d: nat, s: nat)
    requires c.Sound() && |setup.idB| == ID_LEN && Reachable(c, setup, w, events) && NoCollision(c, w)
    requires d in w.devices && s in w.servers && Proved(c, w.devices[d], w.servers[s]) && w.devices[d].key.Some?
    requires w.servers[s].begun.value.entry.pkA !in setup.leakedKeys
    ensures w.servers[s].key == w.devices[d].key <==> w.servers[s].Authenticated()
    ensures w.servers[s].Authenticated() ==> Signed(c, setup, w.devices[d], w.servers[s])
  {
    hide Transcript, ProofInput, KeyInput, CanRun, Run;
    if w.servers[s].Authenticated() {
      AnsweredIsSigned(c, setup, w, events, d, s);
      MatchedKeysAgree(c, setup, w, events, d, s);
    }
  }

  /** So a completed device shares its key with the session that answered it exactly in the runs in
      which both messages arrived. */
  lemma KeyIsSharedIffBothArrived(c: Crypto, setup: Setup, w: World, events: seq<Event>, d: nat, s: nat)
    requires c.Sound() && |setup.idB| == ID_LEN && Reachable(c, setup, w, events) && NoCollision(c, w)
    requires d in w.devices && s in w.servers && Proved(c, w.devices[d], w.servers[s]) && w.devices[d].key.Some?
    requires Registered(c, setup, w.devices[d].node)
    ensures w.servers[s].key == w.devices[d].key <==> BothArrived(c, w, events, d, s)
  {
    hide Transcript, ProofInput, KeyInput, CanRun, Run, BothArrived;
    ReachableKeeps(c, setup, w, events);
    assert ServerOk(c, setup, w, w.servers[s]);
    OwnEntry(c, setup, w, w.devices[d], w.servers[s]);
    AuthenticatesIff(c, setup, w, events, d, s);
    KeyIsSharedIff(c, setup, w, events, d, s);
  }

  // ---------- when a device completes ----------

  /** The messages delivered to a device session, in order. */
  function DeliveredToDevice(events: seq<Event>, d: nat): seq<Message> {
    if events == [] then [] else
      var e := events[0];
      (if e.DeviceReceives? && e.d == d then [e.message] else []) + DeliveredToDevice(events[1..], d)
  }

  /** What a new device session becomes on the messages it is delivered: the first is judged as a
      challenge, the second as an acknowledgement, and there is no third. */
  predicate Became(c: Crypto, start: DeviceSession, messages: seq<Message>, now: DeviceSession) {
    match |messages|
    case 0 => now == start
    case 1 => now == DeviceOnChallenge(c, start, messages[0])
    case 2 =>
      var accepted := DeviceOnChallenge(c, start, messages[0]);
      accepted.accepted.Some? && now == DeviceOnAck(c, accepted, messages[1])
    case _ => false
  }

  predicate IsFresh(d: DeviceSession) {
    d == DeviceStart(d.node, d.challengeA, d.ephSkA)
  }

  /** An event changes a device session only by delivering it a message. */
  lemma NextOfDevice(c: Crypto, setup: Setup, w: World, e: Event, d: nat)
    requires CanHappen(c, setup, w, e) && d in w.devices
    ensures d in Next(c, setup, w, e).devices
    ensures var was, now := w.devices[d], Next(c, setup, w, e).devices[d];
            if e.DeviceReceives? && e.d == d then
              && !was.failed && was.key.None?
              && now == (if was.accepted.None? then DeviceOnChallenge(c, was, e.message)
                         else DeviceOnAck(c, was, e.message))
            else now == was
  {
    hide ServerVerifies, ServerAccepts, DeviceAccepts, DeviceHashes, ServerHashes, DeviceSignatures, ServerProofs;
    hide SignatureUnforged, ProofUnforged;
  }

  lemma {:induction false} ChallengedFate(c: Crypto, setup: Setup, w: World, events: seq<Event>, d: nat)
    requires CanRun(c, setup, w, events) && d in w.devices && (w.devices[d].accepted.Some? || w.devices[d].failed)
    ensures var was, messages := w.devices[d], DeliveredToDevice(events, d);
            && d in Run(c, setup, w, events).devices
            && var now := Run(c, setup, w, events).devices[d];
            && (messages == [] ==> now == was)
            && (messages != [] ==>
                  (|messages| == 1 && was.accepted.Some? && !was.failed && was.key.None?
                   && now == DeviceOnAck(c, was, messages[0])))
    decreases |events|
  {
    hide CanHappen, Next, DeviceAccepts;
    if events != [] {
      var e := events[0];
      NextOfDevice(c, setup, w, e, d);
      ChallengedFate(c, setup, Next(c, setup, w, e), events[1..], d);
    }
  }

  lemma {:induction false} DeviceFate(c: Crypto, setup: Setup, w: World, events: seq<Event>, d: nat)
    requires CanRun(c, setup, w, events) && (d in w.devices ==> IsFresh(w.devices[d]))
    ensures var v := Run(c, setup, w, events);
            d in v.devices ==>
              (var now := v.devices[d];
               && Became(c, DeviceStart(now.node, now.challengeA, now.ephSkA), DeliveredToDevice(events, d), now)
               && (d in w.devices ==> w.devices[d] == DeviceStart(now.node, now.challengeA, now.ephSkA)))
    decreases |events|
  {
    hide DeviceAccepts;
    if events != [] {
      var e := events[0];
      var v := Next(c, setup, w, e);
      if d in w.devices && e.DeviceReceives? && e.d == d {
        NextOfDevice(c, setup, w, e, d);
        hide CanHappen, Next;
        ChallengedFate(c, setup, v, events[1..], d);
      } else {
        StillFresh(c, setup, w, e, d);
        hide CanHappen, Next;
        DeviceFate(c, setup, v, events[1..], d);
      }
    }
  }

  lemma StillFresh(c: Crypto, setup: Setup, w: World, e: Event, d: nat)
    requires CanHappen(c, setup, w, e) && (d in w.devices ==> IsFresh(w.devices[d]))
    requires !(d in w.devices && e.DeviceReceives? && e.d == d)
    ensures var v := Next(c, setup, w, e);
            && (d in v.devices ==> IsFresh(v.devices[d]))
            && (d in w.devices ==> d in v.devices && v.devices[d] == w.devices[d])
    ensures !(e.DeviceReceives? && e.d == d)
  {
    hide ServerVerifies, ServerAccepts, DeviceAccepts, DeviceHashes, ServerHashes, DeviceSignatures, ServerProofs;
    hide SignatureUnforged, ProofUnforged;
  }

  /** In any run a device session holds a key if and only if it was delivered exactly two messages: a
      challenge that it accepts, with a valid point, and then an acknowledgement. */
  lemma DeviceCompletesIffDelivered(c: Crypto, setup: Setup, w: World, events: seq<Event>, d: nat)
    requires Reachable(c, setup, w, events) && d in w.devices
    ensures var now, messages := w.devices[d], DeliveredToDevice(events, d);
            now.key.Some? <==>
              (&& |messages| == 2 && DeviceAccepts(c, DeviceStart(now.node, now.challengeA, now.ephSkA), messages[0])
               && c.validPoint(messages[0].ephPkB) && messages[1] == SessionAck)
  {
    hide CanRun, Run, DeviceAccepts;
    DeviceFate(c, setup, EMPTY, events, d);
  }

  // ---------- what a shared key says ----------

  /** A device and an authenticated server session with equal keys agree on the secret of their key
      exchange, on the verifier and on both challenges. */
  lemma SharedKeyAgrees(c: Crypto, setup: Setup, w: World, events: seq<Event>, d: nat, s: nat)
    requires c.Sound() && Reachable(c, setup, w, events) && NoCollision(c, w)
    requires d in w.devices && s in w.servers && w.devices[d].key.Some? && w.servers[s].key == w.devices[d].key
    ensures w.devices[d].accepted.Some? && w.servers[s].begun.Some?
    ensures var a, b := w.devices[d].accepted.value, w.servers[s].begun.value;
            && c.shared(w.devices[d].ephSkA, a.ephPkB) == c.shared(b.ephSkB, w.servers[s].ephPkA)
            && w.devices[d].node.shsB == b.entry.shsB
            && w.devices[d].challengeA == b.challengeA && a.challengeB == b.challengeB
  {
    hide Transcript, ProofInput, KeyInput, CanRun, Run, DrawsDiffer, RecordsOk;
    ReachableKeeps(c, setup, w, events);
    var device, session := w.devices[d], w.servers[s];
    assert DeviceOk(c, setup, w, device) && ServerOk(c, setup, w, session);
    var a, b := device.accepted.value, session.begun.value;
    assert DeviceKeyInput(c, device) in w.hashed && ServerKeyInput(c, b, session.ephPkA) in w.hashed;
    KeyInputInjective(c.shared(device.ephSkA, a.ephPkB), device.node.shsB, device.challengeA, a.challengeB,
                      c.shared(b.ephSkB, session.ephPkA), b.entry.shsB, b.challengeA, b.challengeB);
  }

  // ---------- what completion does not mean ----------

  /** The network replaces the server's challenge and invents the acknowledgement. */
  function MisledRun(c: Crypto, setup: Setup, node: Node, challengeA: Bytes, ephSkA: Bytes, challengeB: Bytes,
                     ephSkB: Bytes, replaced: Bytes): seq<Event> {
    var b := Begun(node.idA, Entry(c.point(node.skA), node.shsB), challengeA, challengeB, ephSkB);
    [DeviceStarts(0, node, challengeA, ephSkA),
     ServerStarts(0),
     ServerReceives(0, Hello(node.idA, challengeA), challengeB, ephSkB),
     DeviceReceives(0, Challenge(setup.idB, replaced, c.point(ephSkB), c.hash(ServerProofInput(c, b)))),
     DeviceReceives(0, SessionAck)]
  }

  /** A device can complete with a key that no server session holds, since neither the server's
      challenge nor the acknowledgement is covered by its proof: for every registered node there is
      such a run. */
  lemma CompletionIsNotAuthentication(c: Crypto, setup: Setup, node: Node, challengeA: Bytes, ephSkA: Bytes,
                                      challengeB: Bytes, ephSkB: Bytes, replaced: Bytes)
    requires c.Sound() && node.WellFormed() && node.idB == setup.idB
    requires |challengeA| == |challengeB| == |replaced| == CHALLENGE_LEN
    requires node.idA in setup.registry && setup.registry[node.idA] == Entry(c.point(node.skA), node.shsB)
    requires challengeA != challengeB && c.point(ephSkA) != c.point(ephSkB)
    ensures var events := MisledRun(c, setup, node, challengeA, ephSkA, challengeB, ephSkB, replaced);
            && CanRun(c, setup, EMPTY, events)
            && var w := Run(c, setup, EMPTY, events);
            && 0 in w.devices && w.devices[0].key.Some?
            && forall s | s in w.servers :: !w.servers[s].Authenticated()
  {
    hide Transcript, ProofInput, KeyInput, DeviceHashes, ServerHashes, DeviceSignatures, ServerProofs, CanRun, Run;
    hide CanHappen, Next;
    var b := Begun(node.idA, Entry(c.point(node.skA), node.shsB), challengeA, challengeB, ephSkB);
    var challenge := Challenge(setup.idB, replaced, c.point(ephSkB), c.hash(ServerProofInput(c, b)));
    var events := MisledRun(c, setup, node, challengeA, ephSkA, challengeB, ephSkB, replaced);
    var w1 := BothStart(c, setup, node, challengeA, ephSkA);
    var w2 := ServerBegins(c, setup, node, challengeA, ephSkA, challengeB, ephSkB, w1);
    var w3 := DeviceIsMisled(c, setup, node, challengeA, ephSkA, replaced, b, w2);
    DeviceCompletes(c, setup, w3);
    RunLast(c, setup, w3, events[4]);
    assert events[3..][1..] == [events[4]] && events[2..][1..] == events[3..] && events[1..][1..] == events[2..];
    RunFirst(c, setup, w2, events[3..]);
    RunFirst(c, setup, w1, events[2..]);
    RunFirst(c, setup, Next(c, setup, EMPTY, events[0]), events[1..]);
    RunFirst(c, setup, EMPTY, events);
  }

  /** Only session 0 of either side, and nothing drawn but what it drew. */
  ghost predicate Alone(w: World, device: DeviceSession, server: ServerSession, drawn: set<Bytes>) {
    w.devices == map[0 := device] && w.servers == map[0 := server] && w.drawn == drawn
  }

  lemma BothStart(c: Crypto, setup: Setup, node: Node, challengeA: Bytes, ephSkA: Bytes) returns (w: World)
    requires node.WellFormed() && |challengeA| == CHALLENGE_LEN && challengeA != c.point(ephSkA)
    ensures CanHappen(c, setup, EMPTY, DeviceStarts(0, node, challengeA, ephSkA))
    ensures var first := Next(c, setup, EMPTY, DeviceStarts(0, node, challengeA, ephSkA));
            CanHappen(c, setup, first, ServerStarts(0)) && w == Next(c, setup, first, ServerStarts(0))
    ensures Alone(w, DeviceStart(node, challengeA, ephSkA), NEW_SERVER, {challengeA, c.point(ephSkA)})
    ensures w.proofs == {}
  {
    hide Transcript, ProofInput, KeyInput, DeviceAccepts, ServerAccepts, ServerVerifies;
    w := Next(c, setup, Next(c, setup, EMPTY, DeviceStarts(0, node, challengeA, ephSkA)), ServerStarts(0));
  }

  lemma ServerBegins(c: Crypto, setup: Setup, node: Node, challengeA: Bytes, ephSkA: Bytes, challengeB: Bytes,
                     ephSkB: Bytes, w: World) returns (v: World)
    requires c.Sound() && node.WellFormed() && |challengeA| == |challengeB| == CHALLENGE_LEN
    requires node.idA in setup.registry && setup.registry[node.idA] == Entry(c.point(node.skA), node.shsB)
    requires Alone(w, DeviceStart(node, challengeA, ephSkA), NEW_SERVER, {challengeA, c.point(ephSkA)})
    requires challengeB !in w.drawn && c.point(ephSkB) !in w.drawn
    ensures var e, b := ServerReceives(0, Hello(node.idA, challengeA), challengeB, ephSkB),
                        Begun(node.idA, Entry(c.point(node.skA), node.shsB), challengeA, challengeB, ephSkB);
            && CanHappen(c, setup, w, e) && v == Next(c, setup, w, e)
            && Alone(v, DeviceStart(node, challengeA, ephSkA), NEW_SERVER.(begun := Some(b)),
                     w.drawn + {challengeB, c.point(ephSkB)})
            && c.hash(ServerProofInput(c, b)) in v.proofs
  {
    hide Transcript, ProofInput, KeyInput, DeviceAccepts, ServerVerifies, DeviceHashes, ServerHashes, DeviceSignatures;
    assert |challengeB| != |c.point(ephSkB)|;
    v := Next(c, setup, w, ServerReceives(0, Hello(node.idA, challengeA), challengeB, ephSkB));
  }

  lemma DeviceIsMisled(c: Crypto, setup: Setup, node: Node, challengeA: Bytes, ephSkA: Bytes, replaced: Bytes, b: Begun,
                       w: World)
    returns (v: World)
    requires c.Sound() && node.WellFormed() && node.idB == setup.idB && |challengeA| == |replaced| == CHALLENGE_LEN
    requires b.entry.shsB == node.shsB && b.challengeA == challengeA
    requires w.devices == map[0 := DeviceStart(node, challengeA, ephSkA)]
    requires w.servers == map[0 := NEW_SERVER.(begun := Some(b))] && c.hash(ServerProofInput(c, b)) in w.proofs
    ensures var e := DeviceReceives(0, Challenge(setup.idB, replaced, c.point(b.ephSkB),
                                                 c.hash(ServerProofInput(c, b))));
            && CanHappen(c, setup, w, e) && v == Next(c, setup, w, e)
            && v.servers == w.servers && 0 in v.devices
            && var d := v.devices[0];
            && d.accepted.Some? && d.accepted.value.ephPkB == c.point(b.ephSkB) && d.key.None? && !d.failed
  {
    hide Transcript, ProofInput, KeyInput, ServerVerifies, DeviceHashes, ServerHashes, DeviceSignatures, ServerProofs;
    v := Next(c, setup, w, DeviceReceives(0, Challenge(setup.idB, replaced, c.point(b.ephSkB),
                                                       c.hash(ServerProofInput(c, b)))));
  }

  lemma DeviceCompletes(c: Crypto, setup: Setup, w: World)
    requires 0 in w.devices && w.devices[0].accepted.Some? && w.devices[0].key.None? && !w.devices[0].failed
    requires c.validPoint(w.devices[0].accepted.value.ephPkB)
    ensures CanHappen(c, setup, w, DeviceReceives(0, SessionAck))
    ensures var v := Next(c, setup, w, DeviceReceives(0, SessionAck));
            0 in v.devices && v.devices[0].key.Some? && v.servers == w.servers
  {
    hide Transcript, ProofInput, KeyInput, DeviceHashes, ServerHashes, DeviceSignatures, ServerProofs;
  }

  lemma RunLast(c: Crypto, setup: Setup, w: World, e: Event)
    requires CanHappen(c, setup, w, e)
    ensures CanRun(c, setup, w, [e]) && Run(c, setup, w, [e]) == Next(c, setup, w, e)
  {
    hide CanHappen, Next;
  }

  lemma RunFirst(c: Crypto, setup: Setup, w: World, events: seq<Event>)
    requires events != [] && CanHappen(c, setup, w, events[0])
    requires CanRun(c, setup, Next(c, setup, w, events[0]), events[1..])
    ensures CanRun(c, setup, w, events)
    ensures Run(c, setup, w, events) == Run(c, setup, Next(c, setup, w, events[0]), events[1..])
  {
    hide CanHappen, Next;
  }
}

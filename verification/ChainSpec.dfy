/**
  The two ends of a SecureNode session as functions: opening (P2, P3) and data exchange (P4), each
  step extending a hash chain.  Cryptography and randomness are parameters.
 */
module ChainSpec {
  import opened BigEndian
  import opened Bits
  import opened Options
  import opened Tlv
  import opened Trust

  const DIGEST_SIZE: nat := 32
  const ID_SIZE: nat := 16
  const BLOCK: nat := 64

  /** SHA-256, HKDF of a salt and key material, and AES-GCM over a nonce, a text and a key. */
  datatype Suite = Suite(
    hash: Bytes -> Bytes,
    hkdf: (Bytes, Bytes) -> Bytes,
    encrypt: (Bytes, Bytes, Bytes) -> Bytes,
    decrypt: (Bytes, Bytes) -> Option<Bytes>)
  {
    ghost predicate Sound() {
      && (forall m :: |hash(m)| == DIGEST_SIZE)
      && (forall salt, ikm :: |hkdf(salt, ikm)| == DIGEST_SIZE)
      && (forall nonce, text, key :: decrypt(encrypt(nonce, text, key), key) == Some(text))
    }
  }

  datatype Message =
    | RotHello(idA: Bytes, shsA: Bytes, aGen: Bytes)
    | RotAck(shsB: Bytes, bGen: Bytes, idB: Bytes)
    | SesInit(initCif: Bytes)
    | SesReply(sesCif: Bytes)
    | SesConf(confCif: Bytes)
    | SesConfAck(sesId: Bytes)
    | DxMsg(msgCif: Bytes)
    | DxRes(resCif: Bytes, mNum: nat)
    | Setpoint(demand: real)
    | LogoutReq
    | Error
    | Other

  /** One reading as it enters the chain. */
  datatype Record = Record(smg: Bytes, ts: Bytes, mNum: nat, idA: Bytes, aReg: Bytes)

  function RegFields(r: Record, idB: Bytes, sesId: Bytes): seq<Bytes> {
    [r.smg, r.ts, Be32(r.mNum), r.idA, idB, sesId]
  }

  function RegReg(r: Record, idB: Bytes, sesId: Bytes): Bytes {
    Packed(RegFields(r, idB, sesId))
  }

  function Preg(c: Suite, prv: Bytes, r: Record, idB: Bytes, sesId: Bytes): Bytes {
    c.hash(prv + c.hash(RegReg(r, idB, sesId)))
  }

  function BReg(c: Suite, preg: Bytes, sesKey: Bytes): Bytes {
    c.hash(preg + sesKey)
  }

  /** The head after one more record. */
  function Link(c: Suite, prv: Bytes, r: Record, idB: Bytes, sesId: Bytes, sesKey: Bytes): Bytes {
    c.hash(r.aReg + BReg(c, Preg(c, prv, r, idB, sesId), sesKey))
  }

  function Preinit(c: Suite, genesis: Bytes, initReg: Bytes): Bytes {
    c.hash(genesis + c.hash(initReg))
  }

  function InitReg(rdn1: Bytes, ts: Bytes, idA: Bytes, idB: Bytes, shs: Bytes): Bytes {
    rdn1 + ts + idA + idB + shs
  }

  function ConfTag(c: Suite, sesKey: Bytes, sesId: Bytes, rdn1: Bytes, rdn2: Bytes): Bytes {
    c.hash(sesKey + sesId + rdn1 + rdn2)
  }

  /** b[i..j] where either end may lie beyond the data. */
  function Slice(b: Bytes, i: nat, j: nat): Bytes
    requires i <= j
  {
    if |b| <= i then [] else if |b| <= j then b[i..] else b[i..j]
  }

  // ---------- the server ----------

  datatype Server = Server(c: Suite, id: Bytes, key: Bytes, registry: map<Bytes, Bytes>, parse: Bytes -> Reading)

  datatype Entry = Entry(index: nat, mNum: nat, ts: Bytes, reg: Bytes)

  datatype Session = Session(peerId: Bytes, shs: Bytes, prv: Bytes, sesId: Bytes, sesKey: Bytes, active: bool,
                             mNumExpected: nat, chain: seq<Entry>, trust: Trust, recorded: Option<real>)

  const NEW_SESSION := Session([], [], [], [], [], false, 0, [], Trust(0.0, 0), None)

  /** P2; None stands for a failed session. */
  function ServerHello(e: Server, s: Session, m: Message): Option<(Session, Message)> {
    if !m.RotHello? || m.idA !in e.registry then None else
      var salt := e.registry[m.idA];
      var shsB, bGen := e.c.hkdf(salt, e.key), e.c.hash(salt + e.id);
      var next := s.(peerId := m.idA, shs := e.c.hash(m.shsA + shsB), prv := e.c.hash(m.aGen + bGen));
      Some((next, RotAck(shsB, bGen, e.id)))
  }

  /** What the server keeps between its reply and the confirmation. */
  datatype Pending = Pending(sesId: Bytes, rdn1: Bytes, rdn2: Bytes, sesKey: Bytes, preinit: Bytes, initReg: Bytes)

  function ServerInit(e: Server, s: Session, m: Message, sesId: Bytes, rdn2: Bytes, nonce: Bytes)
    : Option<(Pending, Message)>
  {
    if !m.SesInit? then None else
      var plaintext := e.c.decrypt(m.initCif, s.shs);
      if plaintext.None? then None else
        var plain := plaintext.value;
        var received, rdn1 := Slice(plain, 0, DIGEST_SIZE), Slice(plain, DIGEST_SIZE, DIGEST_SIZE + ID_SIZE);
        var ts := if |plain| <= DIGEST_SIZE + ID_SIZE then [] else plain[DIGEST_SIZE + ID_SIZE..];
        var initReg := InitReg(rdn1, ts, s.peerId, e.id, s.shs);
        var preinit := Preinit(e.c, s.prv, initReg);
        if preinit != received then None else
          Some((Pending(sesId, rdn1, rdn2, e.c.hash(rdn2 + s.shs), preinit, initReg),
                SesReply(e.c.encrypt(nonce, sesId + rdn2 + rdn1 + received, s.shs))))
  }

  function ServerConf(e: Server, s: Session, p: Pending, m: Message): Option<(Session, Message)> {
    var expected := Some(ConfTag(e.c, p.sesKey, p.sesId, p.rdn1, p.rdn2));
    if !m.SesConf? || e.c.decrypt(m.confCif, p.sesKey) != expected then None
    else
      Some((s.(prv := e.c.hash(s.prv + p.sesId + p.preinit), sesId := p.sesId, sesKey := p.sesKey, active := true,
               mNumExpected := 0, trust := Trust(INITIAL_SCORE, 0)),
            SesConfAck(p.sesId)))
  }

  /** What surrounds the handling of one data message: the nonce of the response, the median voltage
      of the other nodes, the setpoint to hand out, and whether the two sends succeed. */
  datatype Surroundings = Surroundings(nonce: Bytes, median: Option<real>, setpoint: Option<real>, responseSent: bool,
                                       setpointSent: bool)

  /** The record in a decrypted data message, when it is well formed and its PREG value continues
      the chain.  The message number is not compared with the expected one. */
  function AcceptedRecord(e: Server, s: Session, plain: Bytes): Option<Record> {
    var fields := Parse(plain, 6);
    if fields.None? then None else
      FieldCount(plain, 6);
      var f := fields.value;
      if |f[2]| != 4 || |f[1]| != 8 then None else
        var r := Record(f[0], f[1], Be32Value(f[2]), f[3], f[5]);
        if Preg(e.c, s.prv, r, e.id, s.sesId) == f[4] then Some(r) else None
  }

  lemma FieldCount(data: Bytes, n: nat)
    requires Parse(data, n).Some?
    ensures |Parse(data, n).value| == n
  {
    ParseSound(data, n);
  }

  /** The text of a reading behind its length header. */
  function ReadingText(smg: Bytes): Option<Bytes> {
    if |smg| < 4 then None else Some(Slice(smg, 4, 4 + Be32Value(smg[..4])))
  }

  function ReadingIn(e: Server, smg: Bytes): Reading {
    var text := ReadingText(smg);
    if text.None? then Unparsable else e.parse(text.value)
  }

  /** The anomaly check: the verdict moves the score, and a usable reading is stored with the result. */
  function JudgeReading(e: Server, s: Session, smg: Bytes, median: Option<real>): Session {
    var reading := ReadingIn(e, smg);
    var trust := AfterVerdict(s.trust, Judge(reading, median));
    s.(trust := trust, recorded := if Recorded(reading, median) then Some(trust.score) else s.recorded)
  }

  /** Any error: trust falls and the session ends. */
  function Fail(s: Session): Session {
    s.(trust := Update(s.trust, SecurityError), active := false)
  }

  function DecryptedRecord(e: Server, s: Session, m: Message): Option<Record>
    requires m.DxMsg?
  {
    var plain := e.c.decrypt(m.msgCif, s.sesKey);
    if plain.None? then None else AcceptedRecord(e, s, plain.value)
  }

  function Advance(e: Server, s: Session, r: Record): Session {
    var reg := Link(e.c, s.prv, r, e.id, s.sesId, s.sesKey);
    s.(prv := reg, mNumExpected := r.mNum + 1, chain := s.chain + [Entry(|s.chain| + 1, r.mNum, r.ts, reg)])
  }

  function Response(e: Server, s: Session, r: Record, nonce: Bytes): Message {
    DxRes(e.c.encrypt(nonce, BReg(e.c, Preg(e.c, s.prv, r, e.id, s.sesId), s.sesKey), s.sesKey), r.mNum)
  }

  /** P4: the new state and what was sent. */
  function ServerData(e: Server, s: Session, m: Message, d: Surroundings): (Session, seq<Message>)
    requires m.DxMsg?
  {
    var record := DecryptedRecord(e, s, m);
    if record.None? then (Fail(s), [Error]) else
      var r := record.value;
      var judged := JudgeReading(e, Advance(e, s, r), r.smg, d.median);
      if !d.responseSent then (Fail(judged), [Error])
      else
        var response := Response(e, s, r, d.nonce);
        if d.setpoint.Some? && !d.setpointSent then (Fail(judged), [response, Error])
        else
          var sent := if d.setpoint.Some? then [response, Setpoint(d.setpoint.value)] else [response];
          (judged.(active := judged.active && judged.trust.score >= DROP_THRESHOLD), sent)
  }

  /** The data loop: one message at a time while the session is active.  Logging out ends it, any
      other message is ignored. */
  function ServerStep(e: Server, s: Session, m: Message, d: Surroundings): Session {
    if !s.active then s
    else if m.DxMsg? then ServerData(e, s, m, d).0
    else if m.LogoutReq? then s.(active := false)
    else s
  }

  datatype Input = Input(message: Message, around: Surroundings)

  function ServerRun(e: Server, s: Session, inputs: seq<Input>): Session {
    if inputs == [] then s else
      var last := inputs[|inputs| - 1];
      ServerStep(e, ServerRun(e, s, inputs[..|inputs| - 1]), last.message, last.around)
  }

  // ---------- the client ----------

  datatype Client = Client(c: Suite, id: Bytes, key: Bytes, peerId: Bytes, shs: Bytes, prv: Bytes, rdn1: Bytes,
                           sesId: Bytes, sesKey: Bytes, mNum: nat, lastAReg: Bytes)

  function NewClient(c: Suite, id: Bytes, key: Bytes): Client {
    Client(c, id, key, [], [], [], [], [], [], 0, [])
  }

  /** "GEN" */
  const GEN: Bytes := [0x47, 0x45, 0x4E]

  function ClientHello(k: Client, salt: Bytes, rA: Bytes): Message {
    RotHello(k.id, k.c.hkdf(salt, rA + k.id), k.c.hash(rA + GEN + k.id))
  }

  function ClientGenesis(k: Client, hello: Message, m: Message): Option<Client>
    requires hello.RotHello?
  {
    if !m.RotAck? then None else
      Some(k.(peerId := m.idB, shs := k.c.hash(hello.shsA + m.shsB), prv := k.c.hash(hello.aGen + m.bGen)))
  }

  function ClientInit(k: Client, rdn1: Bytes, ts: Bytes, nonce: Bytes): (Client, Message) {
    var preinit := Preinit(k.c, k.prv, InitReg(rdn1, ts, k.id, k.peerId, k.shs));
    (k.(rdn1 := rdn1), SesInit(k.c.encrypt(nonce, preinit + rdn1 + ts, k.shs)))
  }

  function ClientConf(k: Client, m: Message, nonce: Bytes): Option<(Client, Message)> {
    if !m.SesReply? then None else
      var plaintext := k.c.decrypt(m.sesCif, k.shs);
      if plaintext.None? then None else
        var plain := plaintext.value;
        var sesId, rdn2, echo, preinit := Slice(plain, 0, 16), Slice(plain, 16, 32), Slice(plain, 32, 48),
                                          Slice(plain, 48, 80);
        if echo != k.rdn1 then None else
          var sesKey := k.c.hash(rdn2 + k.shs);
          Some((k.(sesId := sesId, sesKey := sesKey, prv := k.c.hash(k.prv + sesId + preinit)),
                SesConf(k.c.encrypt(nonce, ConfTag(k.c, sesKey, sesId, k.rdn1, rdn2), sesKey))))
  }

  /** smg_normalize: a length header, the text, and zeros up to a whole number of blocks. */
  function Normalized(text: Bytes): Bytes {
    Be32(|text|) + text + Zeros(Padding(4 + |text|))
  }

  function Padding(n: nat): nat {
    (BLOCK - n % BLOCK) % BLOCK
  }

  function Zeros(n: nat): (z: Bytes)
    ensures |z| == n
  {
    seq(n, _ => 0 as bv8)
  }

  function ClientRecord(k: Client, text: Bytes, ts: Bytes): Record {
    var r := Record(Normalized(text), ts, k.mNum + 1, k.id, []);
    r.(aReg := k.c.hash(Preg(k.c, k.prv, r, k.peerId, k.sesId) + k.key))
  }

  function MsgReg(r: Record, preg: Bytes): seq<Bytes> {
    [r.smg, r.ts, Be32(r.mNum), r.idA, preg, r.aReg]
  }

  /** None stands for the error that a text too long for its fields, or a number over 32 bits, raises. */
  function ClientSend(k: Client, text: Bytes, ts: Bytes, nonce: Bytes): Option<(Client, Message)> {
    var r := ClientRecord(k, text, ts);
    var preg := Preg(k.c, k.prv, r, k.peerId, k.sesId);
    var packed := PackFields(MsgReg(r, preg));
    if r.mNum >= 0x1_0000_0000 || packed.None? then None
    else Some((k.(mNum := r.mNum, lastAReg := r.aReg), DxMsg(k.c.encrypt(nonce, packed.value, k.sesKey))))
  }

  /** While it waits for a response the client skips setpoints and stops at anything that is not a
      response it can decrypt. */
  function ClientReceive(k: Client, m: Message): Option<Client> {
    if m.Setpoint? then Some(k)
    else if !m.DxRes? then None
    else
      var plaintext := k.c.decrypt(m.resCif, k.sesKey);
      if plaintext.None? then None else Some(k.(prv := k.c.hash(k.lastAReg + plaintext.value)))
  }
}

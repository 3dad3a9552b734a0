/**
  The two ends of a SecureNode session as objects whose methods update their fields.
 */
module SecureNode {
  import opened BigEndian
  import opened Bits
  import opened Options
  import opened Tlv
  import opened Trust
  import opened ChainSpec

  class NodeSession {
    const e: Server
    var peerId: Bytes
    var shsAB: Bytes
    var prv: Bytes
    var sesId: Bytes
    var sesKey: Bytes
    var sessionActive: bool
    var mNumExpected: nat
    var chain: seq<Entry>
    var trustScore: real
    var consecutiveAnomalies: nat
    var recorded: Option<real>  // the score stored with the latest reading

    function View(): Session
      reads this
    {
      Session(peerId, shsAB, prv, sesId, sesKey, sessionActive, mNumExpected, chain,
              Trust(trustScore, consecutiveAnomalies), recorded)
    }

    constructor (e: Server)
      ensures this.e == e && View() == NEW_SESSION
    {
      this.e := e;
      peerId, shsAB, prv, sesId, sesKey := [], [], [], [], [];
      sessionActive, mNumExpected, chain := false, 0, [];
      trustScore, consecutiveAnomalies, recorded := 0.0, 0, None;
    }

    /** _run_p2: a failure to send the acknowledgement comes after the heads are set. */
    method RunP2(m: Message, ackSent: bool) returns (ok: bool, sent: seq<Message>)
      modifies this
      ensures var next := ServerHello(e, old(View()), m);
              && ok == (next.Some? && ackSent)
              && View() == (if next.Some? then next.value.0 else old(View()))
              && sent == if ok then [next.value.1] else [Error]
    {
      if !m.RotHello? || m.idA !in e.registry {
        return false, [Error];
      }
      peerId := m.idA;
      var nodeSalt := e.registry[m.idA];
      var shsB := e.c.hkdf(nodeSalt, e.key);
      var bGen := e.c.hash(nodeSalt + e.id);
      shsAB := e.c.hash(m.shsA + shsB);
      prv := e.c.hash(m.aGen + bGen);
      if !ackSent {
        return false, [Error];
      }
      ok, sent := true, [RotAck(shsB, bGen, e.id)];
    }

    /** The first half of _run_p3: the client's registration is checked and the session drawn. */
    method ProcessInit(m: Message, newId: Bytes, rdn2: Bytes, nonce: Bytes) returns (r: Option<(Pending, Message)>)
      ensures r == ServerInit(e, View(), m, newId, rdn2, nonce)
    {
      if !m.SesInit? {
        return None;
      }
      var opening := e.c.decrypt(m.initCif, shsAB);
      if opening.None? {
        return None;
      }
      var plain := opening.value;
      var received, rdn1 := Slice(plain, 0, DIGEST_SIZE), Slice(plain, DIGEST_SIZE, DIGEST_SIZE + ID_SIZE);
      var rest := if |plain| <= DIGEST_SIZE + ID_SIZE then [] else plain[DIGEST_SIZE + ID_SIZE..];
      var initReg := rdn1 + rest + peerId + e.id + shsAB;
      var aInit := e.c.hash(initReg);
      var preinit := e.c.hash(prv + aInit);
      if preinit != received {
        return None;
      }
      var newKey := e.c.hash(rdn2 + shsAB);
      r := Some((Pending(newId, rdn1, rdn2, newKey, preinit, initReg),
                 SesReply(e.c.encrypt(nonce, newId + rdn2 + rdn1 + received, shsAB))));
    }

    /** The second half of _run_p3: the confirmation makes the session; its trust is set only once the
        acknowledgement is out. */
    method ProcessConf(p: Pending, conf: Option<Message>, ackSent: bool) returns (ok: bool, sent: seq<Message>)
      modifies this
      ensures var next := if conf.None? then None else ServerConf(e, old(View()), p, conf.value);
              && ok == (next.Some? && ackSent)
              && sent == (if ok then [next.value.1] else [Error])
              && View() == if next.None? then old(View())
                           else if ackSent then next.value.0 else next.value.0.(trust := old(View()).trust)
    {
      if conf.None? || !conf.value.SesConf? {
        return false, [Error];
      }
      var tag := e.c.decrypt(conf.value.confCif, p.sesKey);
      if tag != Some(e.c.hash(p.sesKey + p.sesId + p.rdn1 + p.rdn2)) {
        return false, [Error];
      }
      prv := e.c.hash(prv + p.sesId + p.preinit);
      sesId, sesKey := p.sesId, p.sesKey;
      sessionActive, mNumExpected := true, 0;
      if !ackSent {
        return false, [Error];
      }
      trustScore, consecutiveAnomalies := INITIAL_SCORE, 0;
      ok, sent := true, [SesConfAck(p.sesId)];
    }

    /** _run_p3: between its two halves the client's confirmation arrives, or nothing does. */
    method RunP3(m: Message, newId: Bytes, rdn2: Bytes, nonce: Bytes, replySent: bool, conf: Option<Message>,
                 ackSent: bool)
      returns (ok: bool, sent: seq<Message>)
      modifies this
      ensures var first := ServerInit(e, old(View()), m, newId, rdn2, nonce);
              if first.None? || !replySent then !ok && View() == old(View()) && sent == [Error] else
                var second := if conf.None? then None else ServerConf(e, old(View()), first.value.0, conf.value);
                && ok == (second.Some? && ackSent)
                && sent == [first.value.1, if ok then second.value.1 else Error]
                && View() == if second.None? then old(View())
                             else if ackSent then second.value.0 else second.value.0.(trust := old(View()).trust)
    {
      hide ServerInit, ServerConf;
      var started := ProcessInit(m, newId, rdn2, nonce);
      if started.None? || !replySent {
        return false, [Error];
      }
      var (p, reply) := started.value;
      ok, sent := ProcessConf(p, conf, ackSent);
      sent := [reply] + sent;
    }

    /** _update_trust */
    method UpdateTrust(event: TrustEvent)
      modifies this`trustScore, this`consecutiveAnomalies
      ensures Trust(trustScore, consecutiveAnomalies) == Update(old(Trust(trustScore, consecutiveAnomalies)), event)
    {
      match event
      case SecurityError =>
        trustScore := NotNegative(trustScore - 0.3);
      case SensorAnomaly =>
        consecutiveAnomalies := consecutiveAnomalies + 1;
        if consecutiveAnomalies >= ANOMALY_WINDOW {
          trustScore := NotNegative(trustScore - 0.4);
          consecutiveAnomalies := 0;
        }
      case SensorOk =>
        consecutiveAnomalies := 0;
    }

    /** The handler of every error in _handle_p4: below the threshold the connection is dropped,
        above it the session just ends. */
    method FailP4()
      modifies this`trustScore, this`consecutiveAnomalies, this`sessionActive
      ensures View() == Fail(old(View()))
    {
      UpdateTrust(SecurityError);
      if trustScore < DROP_THRESHOLD {
        DropConnection();
      } else {
        sessionActive := false;
      }
    }

    /** _drop_connection: the score is kept. */
    method DropConnection()
      modifies this`sessionActive
      ensures !sessionActive
    {
      sessionActive := false;
    }

    /** The first half of _handle_p4: decryption, parsing and the check of the chain. */
    method VerifyMessage(m: Message) returns (record: Option<Record>, preg: Bytes)
      requires m.DxMsg?
      ensures record == DecryptedRecord(e, View(), m)
      ensures record.Some? ==> preg == Preg(e.c, prv, record.value, e.id, sesId)
    {
      hide Be32Value, RegReg;
      record, preg := None, [];
      var plain := e.c.decrypt(m.msgCif, sesKey);
      if plain.None? {
        return;
      }
      var fields := ParseTlv(plain.value, 6);
      if fields.None? {
        return;
      }
      FieldCount(plain.value, 6);
      var f := fields.value;
      var smg, ts, mBytes, idA, pregReceived, aReg := f[0], f[1], f[2], f[3], f[4], f[5];
      if |mBytes| != 4 || |ts| != 8 {
        return;
      }
      var r := Record(smg, ts, Be32Value(mBytes), idA, aReg);
      preg := e.c.hash(prv + e.c.hash(RegReg(r, e.id, sesId)));
      if preg == pregReceived {
        record := Some(r);
      }
    }

    /** _handle_p4: the chain advances before the reading is looked at and before anything is sent. */
    method HandleP4(m: Message, d: Surroundings) returns (sent: seq<Message>)
      requires m.DxMsg?
      modifies this
      ensures View() == ServerData(e, old(View()), m, d).0 && sent == ServerData(e, old(View()), m, d).1
    {
      hide DecryptedRecord, Preg, Update, ChainSpec.JudgeReading;
      var record, preg := VerifyMessage(m);
      if record.None? {
        FailP4();
        return [Error];
      }
      var r := record.value;
      ghost var advanced := Advance(e, View(), r);
      var bReg := e.c.hash(preg + sesKey);
      var reg := e.c.hash(r.aReg + bReg);
      prv := reg;
      mNumExpected := r.mNum + 1;
      chain := chain + [Entry(|chain| + 1, r.mNum, r.ts, reg)];
      assert View() == advanced;

      JudgeReading(r.smg, d.median);

      if !d.responseSent {
        FailP4();
        return [Error];
      }
      sent := [DxRes(e.c.encrypt(d.nonce, bReg, sesKey), r.mNum)];
      if d.setpoint.Some? {
        if !d.setpointSent {
          FailP4();
          return sent + [Error];
        }
        sent := sent + [Setpoint(d.setpoint.value)];
      }
      if trustScore < DROP_THRESHOLD {
        DropConnection();
      }
    }

    /** The anomaly check: a reading that cannot be read is skipped, and what was judged is stored
        with the score that resulted. */
    method JudgeReading(smg: Bytes, median: Option<real>)
      modifies this`trustScore, this`consecutiveAnomalies, this`recorded
      ensures View() == ChainSpec.JudgeReading(e, old(View()), smg, median)
    {
      hide Be32Value, Update;
      if |smg| < 4 {
        return;
      }
      var headerLen := Be32Value(smg[..4]);
      var reading := e.parse(Slice(smg, 4, 4 + headerLen));
      if reading.Unparsable? {
        return;
      }
      if median.Some? {
        if reading.NotANumber? {
          return;
        }
        var reported := if reading.vBus.Some? then reading.vBus.value else median.value;
        if reported - median.value > ANOMALY_THRESHOLD || median.value - reported > ANOMALY_THRESHOLD {
          UpdateTrust(SensorAnomaly);
        } else {
          UpdateTrust(SensorOk);
        }
      }
      recorded := Some(trustScore);
    }

    /** _run_data_loop, on the messages that arrive before the connection ends */
    method RunDataLoop(inputs: seq<Input>)
      modifies this
      ensures View() == ServerRun(e, old(View()), inputs)
    {
      var i := 0;
      assert inputs[..0] == [];
      while i < |inputs| && sessionActive
        invariant i <= |inputs| && View() == ServerRun(e, old(View()), inputs[..i])
      {
        assert inputs[..i + 1][..i] == inputs[..i];
        var m, d := inputs[i].message, inputs[i].around;
        if m.DxMsg? {
          var _ := HandleP4(m, d);
        } else if m.LogoutReq? {
          sessionActive := false;
        }
        i := i + 1;
      }
      if i < |inputs| {
        EndedStays(e, old(View()), inputs, i);
      } else {
        assert inputs[..i] == inputs;
      }
    }
  }

  /** A session that has ended takes no further message. */
  lemma {:induction false} EndedStays(e: Server, s: Session, inputs: seq<Input>, n: nat)
    requires n <= |inputs| && !ServerRun(e, s, inputs[..n]).active
    ensures ServerRun(e, s, inputs) == ServerRun(e, s, inputs[..n])
    decreases |inputs|
  {
    if n == |inputs| {
      assert inputs[..n] == inputs;
    } else {
      var before := inputs[..|inputs| - 1];
      assert before[..n] == inputs[..n];
      EndedStays(e, s, before, n);
    }
  }

  class SecureNodeClient {
    const c: Suite
    const id: Bytes
    const key: Bytes
    var peerId: Bytes
    var shsAB: Bytes
    var prv: Bytes
    var rA2: Bytes
    var sesId: Bytes
    var sesKey: Bytes
    var mNum: nat
    var lastAReg: Bytes

    function View(): Client
      reads this
    {
      Client(c, id, key, peerId, shsAB, prv, rA2, sesId, sesKey, mNum, lastAReg)
    }

    constructor (c: Suite, id: Bytes, key: Bytes)
      ensures View() == NewClient(c, id, key)
    {
      this.c, this.id, this.key := c, id, key;
      peerId, shsAB, prv, rA2, sesId, sesKey, mNum, lastAReg := [], [], [], [], [], [], 0, [];
    }

    /** p2_initiator_compute */
    method P2InitiatorCompute(salt: Bytes, rA: Bytes) returns (m: Message)
      ensures m == ClientHello(View(), salt, rA)
    {
      var shsA := c.hkdf(salt, rA + id);
      var genA := c.hash(rA + GEN + id);
      m := RotHello(id, shsA, genA);
    }

    /** p2_finalize, on the acknowledgement of the hello that was sent */
    method P2Finalize(hello: Message, m: Message) returns (ok: bool)
      requires hello.RotHello?
      modifies this
      ensures ok == ClientGenesis(old(View()), hello, m).Some?
      ensures View() == if ok then ClientGenesis(old(View()), hello, m).value else old(View())
    {
      if !m.RotAck? {
        return false;
      }
      peerId := m.idB;
      shsAB := c.hash(hello.shsA + m.shsB);
      prv := c.hash(hello.aGen + m.bGen);
      ok := true;
    }

    /** p3_initiator_prepare */
    method P3Prepare(rdn1: Bytes, ts: Bytes, nonce: Bytes) returns (m: Message)
      modifies this
      ensures (View(), m) == ClientInit(old(View()), rdn1, ts, nonce)
    {
      rA2 := rdn1;
      var aInit := c.hash(rA2 + ts + id + peerId + shsAB);
      var preinit := c.hash(prv + aInit);
      m := SesInit(c.encrypt(nonce, preinit + rA2 + ts, shsAB));
    }

    /** p3_initiator_finalize: an echo that differs leaves the session identifier behind. */
    method P3Finalize(m: Message, nonce: Bytes) returns (conf: Option<Message>)
      modifies this
      ensures var next := ClientConf(old(View()), m, nonce);
              && conf.Some? == next.Some?
              && (conf.Some? ==> (View(), conf.value) == next.value)
              && (conf.None? ==> View() == old(View()).(sesId := sesId))
    {
      if !m.SesReply? {
        return None;
      }
      var opening := c.decrypt(m.sesCif, shsAB);
      if opening.None? {
        return None;
      }
      var pt := opening.value;
      sesId := Slice(pt, 0, 16);
      var rdn2, echo, preinit := Slice(pt, 16, 32), Slice(pt, 32, 48), Slice(pt, 48, 80);
      if echo != rA2 {
        return None;
      }
      sesKey := c.hash(rdn2 + shsAB);
      var tag := c.hash(sesKey + sesId + rA2 + rdn2);
      conf := Some(SesConf(c.encrypt(nonce, tag, sesKey)));
      prv := c.hash(prv + sesId + preinit);
    }

    /** p4_send: the number moves on even if the reading turns out not to fit. */
    method P4Send(text: Bytes, ts: Bytes, nonce: Bytes) returns (m: Option<Message>)
      modifies this
      ensures var next := ClientSend(old(View()), text, ts, nonce);
              && m.Some? == next.Some?
              && (m.Some? ==> (View(), m.value) == next.value)
              && (m.None? ==> prv == old(prv) && mNum == old(mNum) + 1 && sesId == old(sesId) && sesKey == old(sesKey))
    {
      hide Packable, Packed, RegReg, Normalized, Be32;
      mNum := mNum + 1;
      var smg := Normalized(text);
      var r := Record(smg, ts, mNum, id, []);
      var preg := c.hash(prv + c.hash(RegReg(r, peerId, sesId)));
      var aReg := c.hash(preg + key);
      r := r.(aReg := aReg);
      assert r == ClientRecord(old(View()), text, ts);
      SamePreg(c, prv, r, peerId, sesId);
      var packed := PackFields(MsgReg(r, preg));
      if mNum >= 0x1_0000_0000 || packed.None? {
        return None;
      }
      lastAReg := aReg;
      m := Some(DxMsg(c.encrypt(nonce, packed.value, sesKey)));
    }

    /** The client's wait for a response: setpoints are skipped, and anything else but a response
        ends it. */
    method AwaitResponse(down: seq<Message>) returns (ok: bool, rest: seq<Message>)
      modifies this`prv
      ensures var n := LeadingSetpoints(down);
              && ok == (n < |down| && ClientReceive(old(View()), down[n]).Some?)
              && (ok ==> View() == ClientReceive(old(View()), down[n]).value && rest == down[n + 1..])
              && (!ok ==> View() == old(View()))
    {
      var i := 0;
      while i < |down| && down[i].Setpoint?
        invariant i <= LeadingSetpoints(down) == i + LeadingSetpoints(down[i..])
        invariant i <= |down|
      {
        assert down[i..][1..] == down[i + 1..];
        i := i + 1;
      }
      ok, rest := false, [];
      if i < |down| && down[i].DxRes? {
        var bReg := c.decrypt(down[i].resCif, sesKey);
        if bReg.Some? {
          prv := c.hash(lastAReg + bReg.value);
          ok, rest := true, down[i + 1..];
        }
      }
    }
  }

  function LeadingSetpoints(ms: seq<Message>): (n: nat)
    ensures n <= |ms| && (n < |ms| ==> !ms[n].Setpoint?)
  {
    if ms == [] || !ms[0].Setpoint? then 0 else 1 + LeadingSetpoints(ms[1..])
  }

  lemma SamePreg(c: Suite, prv: Bytes, r: Record, idB: Bytes, sesId: Bytes)
    ensures Preg(c, prv, r.(aReg := []), idB, sesId) == Preg(c, prv, r, idB, sesId)
  {
    assert RegFields(r.(aReg := []), idB, sesId) == RegFields(r, idB, sesId);
  }
}

/**
  What each check of a SecureNode session lets through, whatever the network delivers, and what the two
  ends then agree on.
 */
module ChainAgreement {
  import opened BigEndian
  import opened Bits
  import opened Options
  import opened Tlv
  import opened Trust
  import opened ChainSpec
  import opened ChainHistory

  // ---------- what each check lets through ----------

  /** A registration passes if and only if it decrypts to the digest that continues the genesis head
      over the rest of the text and both identities. */
  lemma RegistrationIff(e: Server, s: Session, m: Message, sesId: Bytes, rdn2: Bytes, nonce: Bytes)
    requires e.c.Sound()
    ensures ServerInit(e, s, m, sesId, rdn2, nonce).Some? <==>
              && m.SesInit? && e.c.decrypt(m.initCif, s.shs).Some?
              && var plain := e.c.decrypt(m.initCif, s.shs).value;
              |plain| >= 32 && plain[..32] == e.c.hash(s.prv + e.c.hash(plain[32..] + s.peerId + e.id + s.shs))
  {
    if m.SesInit? && e.c.decrypt(m.initCif, s.shs).Some? {
      var plain := e.c.decrypt(m.initCif, s.shs).value;
      RestOfText(plain, s.peerId, e.id, s.shs);
    }
  }

  lemma RestOfText(plain: Bytes, idA: Bytes, idB: Bytes, shs: Bytes)
    ensures var rdn1, ts := Slice(plain, 32, 48), if |plain| <= 48 then [] else plain[48..];
            |plain| >= 32 ==>
              (rdn1 + ts == plain[32..] && InitReg(rdn1, ts, idA, idB, shs) == plain[32..] + idA + idB + shs)
    ensures |Slice(plain, 0, 32)| == 32 <==> |plain| >= 32
    ensures |plain| >= 32 ==> Slice(plain, 0, 32) == plain[..32]
  {
  }

  /** A confirmation passes if and only if it decrypts, under the key of this session, to the tag over
      this session's key, identifier and nonces. */
  lemma ConfirmationIff(e: Server, s: Session, p: Pending, m: Message)
    ensures ServerConf(e, s, p, m).Some? <==>
              m.SesConf? && e.c.decrypt(m.confCif, p.sesKey) == Some(e.c.hash(p.sesKey + p.sesId + p.rdn1 + p.rdn2))
    ensures ServerConf(e, s, p, m).Some? ==>
              (var next := ServerConf(e, s, p, m).value.0;
               && next.active && next.sesId == p.sesId && next.sesKey == p.sesKey
               && next.prv == e.c.hash(s.prv + p.sesId + p.preinit)
               && next.trust.score == 0.8 && next.trust.anomalies == 0)
  {
  }

  /** A client goes on if and only if the reply decrypts and echoes its own nonce. */
  lemma EchoIff(k: Client, m: Message, nonce: Bytes)
    requires |k.rdn1| == 16
    ensures ClientConf(k, m, nonce).Some? <==>
              && m.SesReply? && k.c.decrypt(m.sesCif, k.shs).Some?
              && var plain := k.c.decrypt(m.sesCif, k.shs).value;
              |plain| >= 48 && plain[32..48] == k.rdn1
  {
    if m.SesReply? && k.c.decrypt(m.sesCif, k.shs).Some? {
      var plain := k.c.decrypt(m.sesCif, k.shs).value;
      assert |Slice(plain, 32, 48)| == 16 <==> |plain| >= 48;
      assert |plain| >= 48 ==> Slice(plain, 32, 48) == plain[32..48];
    }
  }

  /** The fields of a data message that carries record `r` after head `prv`. */
  function DataFields(c: Suite, prv: Bytes, r: Record, idB: Bytes, sesId: Bytes): seq<Bytes> {
    MsgReg(r, Preg(c, prv, r, idB, sesId))
  }

  /** A text is accepted as record `r` if and only if it starts with that record's fields, the PREG
      value among them being the one after the current head. */
  lemma AcceptedExact(e: Server, s: Session, plain: Bytes, r: Record)
    ensures AcceptedRecord(e, s, plain) == Some(r) <==>
              && r.mNum < 0x1_0000_0000 && |r.ts| == 8
              && var fields := DataFields(e.c, s.prv, r, e.id, s.sesId);
              Packable(fields) && Packed(fields) <= plain
  {
    hide Packed, Packable, Parse, Be32, Be32Value, RegReg, Preg;
    var fields := DataFields(e.c, s.prv, r, e.id, s.sesId);
    FieldsLength(e.c, s.prv, r, e.id, s.sesId);
    ParseExact(plain, 6, fields);
    if AcceptedRecord(e, s, plain) == Some(r) {
      FieldsAccepted(e, s, plain, r);
    }
    if r.mNum < 0x1_0000_0000 && |r.ts| == 8 && Parse(plain, 6) == Some(fields) {
      FieldsAreAccepted(e, s, plain, r);
    }
  }

  lemma FieldsLength(c: Suite, prv: Bytes, r: Record, idB: Bytes, sesId: Bytes)
    ensures |DataFields(c, prv, r, idB, sesId)| == 6
  {
  }

  lemma FieldsAccepted(e: Server, s: Session, plain: Bytes, r: Record)
    requires AcceptedRecord(e, s, plain) == Some(r)
    ensures r.mNum < 0x1_0000_0000 && |r.ts| == 8 && Parse(plain, 6) == Some(DataFields(e.c, s.prv, r, e.id, s.sesId))
  {
    hide Packed, Packable, Parse, Be32, Be32Value, RegReg, Preg;
    FieldCount(plain, 6);
    var f := Parse(plain, 6).value;
    Be32Bound(f[2]);
    Be32Covers(f[2]);
    assert f == [f[0], f[1], f[2], f[3], f[4], f[5]];
    assert DataFields(e.c, s.prv, r, e.id, s.sesId) == f;
  }

  lemma FieldsAreAccepted(e: Server, s: Session, plain: Bytes, r: Record)
    requires r.mNum < 0x1_0000_0000 && |r.ts| == 8 && Parse(plain, 6) == Some(DataFields(e.c, s.prv, r, e.id, s.sesId))
    ensures AcceptedRecord(e, s, plain) == Some(r)
  {
    hide Packed, Packable, Parse, Be32, Be32Value, RegReg, Preg;
    Be32RoundTrip(r.mNum);
    assert Be32Value(Be32(r.mNum)) == r.mNum;
  }

  // ---------- what the two ends agree on ----------

  /** A client, as the opening found it, and what it registered with. */
  datatype Registration = Registration(client: Client, rdn1: Bytes, ts: Bytes)
  {
    predicate WellFormed() {
      && |rdn1| == ID_SIZE && |ts| == 8 && |client.id| == |client.peerId| == ID_SIZE
      && |client.shs| == |client.prv| == DIGEST_SIZE
    }

    function Text(): Bytes {
      InitReg(rdn1, ts, client.id, client.peerId, client.shs)
    }

    function Digest(): Bytes {
      Preinit(client.c, client.prv, Text())
    }
  }

  predicate ServerReady(e: Server, s: Session) {
    |s.peerId| == |e.id| == ID_SIZE && |s.shs| == |s.prv| == DIGEST_SIZE
  }

  /** The registration text a server hashes on a decrypted message. */
  function ReceivedText(e: Server, s: Session, plain: Bytes): Bytes
    requires |plain| >= 32
  {
    plain[32..] + s.peerId + e.id + s.shs
  }

  /** If the digest a server accepts is one that a client computed, the two agree on everything under it,
      and the rest of the message is what the client sent. */
  lemma RegistrationAgrees(e: Server, s: Session, r: Registration, m: Message, sesId: Bytes, rdn2: Bytes, nonce: Bytes)
    requires e.c.Sound() && r.client.c == e.c && r.WellFormed() && ServerReady(e, s)
    requires ServerInit(e, s, m, sesId, rdn2, nonce).Some?
    requires var plain := e.c.decrypt(m.initCif, s.shs).value;
             && |plain| >= 32 && plain[..32] == r.Digest()
             && NoCollision(e.c, {r.Text(), ReceivedText(e, s, plain), r.client.prv + e.c.hash(r.Text()),
                                  s.prv + e.c.hash(ReceivedText(e, s, plain))})
    ensures s.peerId == r.client.id && e.id == r.client.peerId && s.shs == r.client.shs && s.prv == r.client.prv
    ensures e.c.decrypt(m.initCif, s.shs).value == r.Digest() + r.rdn1 + r.ts
    ensures ServerInit(e, s, m, sesId, rdn2, nonce).value.0.rdn1 == r.rdn1
  {
    RegistrationIff(e, s, m, sesId, rdn2, nonce);
    var plain := e.c.decrypt(m.initCif, s.shs).value;
    var k := r.client;
    RestOfText(plain, s.peerId, e.id, s.shs);
    assert k.prv + e.c.hash(r.Text()) == s.prv + e.c.hash(ReceivedText(e, s, plain));
    Tails(k.prv, e.c.hash(r.Text()), s.prv, e.c.hash(ReceivedText(e, s, plain)));
    assert r.Text() == ReceivedText(e, s, plain);
    Tails(r.rdn1 + r.ts + k.id + k.peerId, k.shs, plain[32..] + s.peerId + e.id, s.shs);
    Tails(r.rdn1 + r.ts + k.id, k.peerId, plain[32..] + s.peerId, e.id);
    Tails(r.rdn1 + r.ts, k.id, plain[32..], s.peerId);
    assert plain == plain[..32] + plain[32..];
    assert Slice(plain, 32, 48) == plain[32..][..16] == r.rdn1;
  }

  /** A text sealed under one key does not open under another. */
  predicate KeyBound(c: Suite, cif: Bytes, key: Bytes, other: Bytes) {
    key != other ==> c.decrypt(cif, other).None?
  }

  /** Any client whose confirmation a server accepts is in that server's session, whatever the network did
      to the reply: it has the same identifier, key and nonces, and the same shared secret. */
  lemma ConfirmationAgrees(e: Server, s: Session, p: Pending, k: Client, reply: Message, nonce: Bytes)
    requires e.c.Sound() && k.c == e.c && |k.rdn1| == 16 && |k.shs| == |s.shs| == 32
    requires |p.sesId| == |p.rdn2| == 16 && p.sesKey == e.c.hash(p.rdn2 + s.shs) && ClientConf(k, reply, nonce).Some?
    requires var (next, conf) := ClientConf(k, reply, nonce).value;
             && ServerConf(e, s, p, conf).Some? && KeyBound(e.c, conf.confCif, next.sesKey, p.sesKey)
             && var plain := e.c.decrypt(reply.sesCif, k.shs).value;
             NoCollision(e.c, {next.sesKey + next.sesId + k.rdn1 + Slice(plain, 16, 32),
                               p.sesKey + p.sesId + p.rdn1 + p.rdn2,
                               Slice(plain, 16, 32) + k.shs, p.rdn2 + s.shs})
    ensures var next := ClientConf(k, reply, nonce).value.0;
            && next.sesId == p.sesId && next.sesKey == p.sesKey && k.rdn1 == p.rdn1 && k.shs == s.shs
            && Slice(e.c.decrypt(reply.sesCif, k.shs).value, 16, 32) == p.rdn2
  {
    EchoIff(k, reply, nonce);
    var plain := e.c.decrypt(reply.sesCif, k.shs).value;
    var (next, conf) := ClientConf(k, reply, nonce).value;
    var theirs := Slice(plain, 16, 32);
    assert |next.sesId| == |theirs| == 16;
    ConfirmationIff(e, s, p, conf);
    assert e.c.decrypt(conf.confCif, next.sesKey) == Some(e.c.hash(next.sesKey + next.sesId + k.rdn1 + theirs));
    assert next.sesKey == p.sesKey;
    var a, b := next.sesKey + next.sesId + k.rdn1 + theirs, p.sesKey + p.sesId + p.rdn1 + p.rdn2;
    assert a == b;
    Tails(next.sesKey + next.sesId + k.rdn1, theirs, p.sesKey + p.sesId + p.rdn1, p.rdn2);
    Tails(next.sesKey + next.sesId, k.rdn1, p.sesKey + p.sesId, p.rdn1);
    Tails(next.sesKey, next.sesId, p.sesKey, p.sesId);
    assert theirs + k.shs == p.rdn2 + s.shs;
    Tails(theirs, k.shs, p.rdn2, s.shs);
  }

  /** After such an opening the heads are equal if and only if the two had the same genesis head and the
      digest echoed to the client was the server's: the client does not check the echo. */
  lemma HeadsAgreeIff(e: Server, s: Session, p: Pending, k: Client, reply: Message, nonce: Bytes)
    requires e.c.Sound() && k.c == e.c && |k.rdn1| == 16 && |k.prv| == |s.prv| == 32
    requires ClientConf(k, reply, nonce).Some?
    requires var (next, conf) := ClientConf(k, reply, nonce).value;
             && ServerConf(e, s, p, conf).Some? && next.sesId == p.sesId
             && var echoed := Slice(e.c.decrypt(reply.sesCif, k.shs).value, 48, 80);
             NoCollision(e.c, {k.prv + next.sesId + echoed, s.prv + p.sesId + p.preinit})
    ensures var (next, conf) := ClientConf(k, reply, nonce).value;
            next.prv == ServerConf(e, s, p, conf).value.0.prv
            <==> k.prv == s.prv && Slice(e.c.decrypt(reply.sesCif, k.shs).value, 48, 80) == p.preinit
  {
    var (next, conf) := ClientConf(k, reply, nonce).value;
    var echoed := Slice(e.c.decrypt(reply.sesCif, k.shs).value, 48, 80);
    if next.prv == ServerConf(e, s, p, conf).value.0.prv {
      assert k.prv + next.sesId + echoed == s.prv + p.sesId + p.preinit;
      assert k.prv + next.sesId + echoed == k.prv + (next.sesId + echoed);
      assert s.prv + p.sesId + p.preinit == s.prv + (p.sesId + p.preinit);
      Tails(k.prv, next.sesId + echoed, s.prv, p.sesId + p.preinit);
      Tails(next.sesId, echoed, p.sesId, p.preinit);
    }
  }

  // ---------- what a data message sends back ----------

  /** An accepted message that is handled to its end is answered by the server's contribution to the next
      link, sealed for the client, and by the setpoint at hand, if any, unchanged; every other one is
      answered by an error and ends the session. */
  lemma DataAnswered(e: Server, s: Session, m: Message, d: Surroundings)
    requires e.c.Sound() && m.DxMsg?
    ensures var r, (next, sent) := DecryptedRecord(e, s, m), ServerData(e, s, m, d);
            var handled := r.Some? && d.responseSent && (d.setpoint.Some? ==> d.setpointSent);
            && (Error in sent <==> !handled) && (!handled ==> !next.active)
            && (handled ==>
                  (&& |sent| == (if d.setpoint.Some? then 2 else 1)
                   && sent[0].DxRes? && sent[0].mNum == r.value.mNum
                   && e.c.decrypt(sent[0].resCif, s.sesKey).Some?
                   && next.prv == e.c.hash(r.value.aReg + e.c.decrypt(sent[0].resCif, s.sesKey).value)
                   && (d.setpoint.Some? ==> sent[1] == Setpoint(d.setpoint.value))))
  {
    hide DecryptedRecord, Preg, ReadingIn, Update, AfterVerdict;
  }

  /** A client's contribution to a link binds the record it follows and the node's own key: equal
      contributions come from equal keys over equal PREG values. */
  lemma ContributionBinds(k: Client, text: Bytes, ts: Bytes, j: Client, other: Bytes, ts': Bytes)
    requires k.c.Sound() && j.c == k.c
    requires var r, q := ClientRecord(k, text, ts), ClientRecord(j, other, ts');
             NoCollision(k.c, {Preg(k.c, k.prv, r, k.peerId, k.sesId) + k.key,
                               Preg(k.c, j.prv, q, j.peerId, j.sesId) + j.key})
    ensures var r, q := ClientRecord(k, text, ts), ClientRecord(j, other, ts');
            r.aReg == q.aReg <==>
              Preg(k.c, k.prv, r, k.peerId, k.sesId) == Preg(k.c, j.prv, q, j.peerId, j.sesId) && k.key == j.key
  {
    hide RegReg, Normalized;
    var r, q := ClientRecord(k, text, ts), ClientRecord(j, other, ts');
    ContributionIs(k, text, ts);
    ContributionIs(j, other, ts');
    if r.aReg == q.aReg {
      Tails(Preg(k.c, k.prv, r, k.peerId, k.sesId), k.key, Preg(k.c, j.prv, q, j.peerId, j.sesId), j.key);
    }
  }

  lemma ContributionIs(k: Client, text: Bytes, ts: Bytes)
    ensures var r := ClientRecord(k, text, ts); r.aReg == k.c.hash(Preg(k.c, k.prv, r, k.peerId, k.sesId) + k.key)
  {
    var r := ClientRecord(k, text, ts);
    assert RegFields(r.(aReg := []), k.peerId, k.sesId) == RegFields(r, k.peerId, k.sesId);
  }

  /** A waiting client takes a setpoint without moving, moves by the server's contribution on a response it
      can decrypt, and stops at everything else. */
  lemma ReceiveIff(k: Client, m: Message)
    ensures ClientReceive(k, m).Some? <==> m.Setpoint? || (m.DxRes? && k.c.decrypt(m.resCif, k.sesKey).Some?)
    ensures ClientReceive(k, m).Some? ==>
              ClientReceive(k, m).value ==
              if m.Setpoint? then k else k.(prv := k.c.hash(k.lastAReg + k.c.decrypt(m.resCif, k.sesKey).value))
  {
  }

  /** The two parts of a hello each bind the client's nonce and identity, and the first one its salt. */
  lemma HelloBinds(k: Client, salt: Bytes, rA: Bytes, j: Client, salt': Bytes, rA': Bytes)
    requires k.c == j.c && |rA| == |rA'| == 16
    requires NoCollision(k.c, {rA + GEN + k.id, rA' + GEN + j.id})
    requires k.c.hkdf(salt, rA + k.id) == k.c.hkdf(salt', rA' + j.id) ==> salt == salt' && rA + k.id == rA' + j.id
    ensures var m, n := ClientHello(k, salt, rA), ClientHello(j, salt', rA');
            && (m.aGen == n.aGen <==> rA == rA' && k.id == j.id)
            && (m.shsA == n.shsA <==> salt == salt' && rA == rA' && k.id == j.id)
            && m.idA == k.id
  {
    var m, n := ClientHello(k, salt, rA), ClientHello(j, salt', rA');
    if m.aGen == n.aGen {
      Tails(rA + GEN, k.id, rA' + GEN, j.id);
      Tails(rA, GEN, rA', GEN);
    }
    if m.shsA == n.shsA {
      Tails(rA, k.id, rA', j.id);
    }
  }
}

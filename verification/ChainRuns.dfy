/**
  A server session over everything it receives: its chain, its log and its trust score, whatever the
  network delivers.
 */
module ChainRuns {
  import opened BigEndian
  import opened Bits
  import opened Options
  import opened Tlv
  import opened Trust
  import opened ChainSpec
  import opened ChainHistory

  /** A session right after it was opened. */
  ghost predicate Established(e: Server, o: Opening, s: Session) {
    && o.WellFormed() && o.idB == e.id
    && s.prv == Head(e.c, o, []) && s.sesId == o.sesId && s.sesKey == o.SesKey(e.c)
    && s.active && s.chain == [] && s.mNumExpected == 0 && s.trust == START.trust && s.recorded == None
  }

  /** Every session that the two opening steps let through starts a chain; whatever the messages
      were, its opening has the lengths that keep it apart from later links. */
  lemma SessionsOpen(e: Server, s: Session, hello: Message, init: Message, conf: Message, sesId: Bytes, rdn2: Bytes,
                     nonce: Bytes)
    requires e.c.Sound() && |e.id| == ID_SIZE && [] !in e.registry && |sesId| == |rdn2| == ID_SIZE && s.chain == []
    requires s.recorded == None
    requires ServerHello(e, s, hello).Some?
    requires ServerInit(e, ServerHello(e, s, hello).value.0, init, sesId, rdn2, nonce).Some?
    requires var s1 := ServerHello(e, s, hello).value.0;
             ServerConf(e, s1, ServerInit(e, s1, init, sesId, rdn2, nonce).value.0, conf).Some?
    ensures var s1 := ServerHello(e, s, hello).value.0;
            var p := ServerInit(e, s1, init, sesId, rdn2, nonce).value.0;
            Established(e, Opening(s1.prv, p.initReg, sesId, rdn2, s1.shs, e.id), ServerConf(e, s1, p, conf).value.0)
  {
    var s1 := ServerHello(e, s, hello).value.0;
    var p := ServerInit(e, s1, init, sesId, rdn2, nonce).value.0;
    var o := Opening(s1.prv, p.initReg, sesId, rdn2, s1.shs, e.id);
    assert |p.initReg| >= |s1.peerId| + |e.id| + |s1.shs|;
    assert o.InitInput(e.c) == s1.prv + sesId + p.preinit;
  }

  /** The records that a run accepts, in order. */
  function Records(e: Server, s: Session, inputs: seq<Input>): seq<Record> {
    if inputs == [] then [] else
      var before, last := inputs[..|inputs| - 1], inputs[|inputs| - 1];
      var now := ServerRun(e, s, before);
      if now.active && last.message.DxMsg? && DecryptedRecord(e, now, last.message).Some?
      then Records(e, s, before) + [DecryptedRecord(e, now, last.message).value]
      else Records(e, s, before)
  }

  /** The log that a list of records leaves: each entry holds the head it produced. */
  function Log(c: Suite, o: Opening, records: seq<Record>): seq<Entry> {
    if records == [] then [] else
      var last := records[|records| - 1];
      Log(c, o, records[..|records| - 1]) + [Entry(|records|, last.mNum, last.ts, Head(c, o, records))]
  }

  /** The state of a session is a function of its opening and the records it accepted. */
  ghost predicate Keeps(e: Server, o: Opening, s: Session, records: seq<Record>) {
    && WellFormed(o, records) && o.idB == e.id
    && s.prv == Head(e.c, o, records) && s.sesId == o.sesId && s.sesKey == o.SesKey(e.c)
    && s.mNumExpected == (if records == [] then 0 else records[|records| - 1].mNum + 1)
    && s.chain == Log(e.c, o, records) && |s.chain| == |records|
  }

  lemma {:induction false} RunKeeps(e: Server, o: Opening, s: Session, inputs: seq<Input>)
    requires Established(e, o, s)
    ensures Keeps(e, o, ServerRun(e, s, inputs), Records(e, s, inputs))
  {
    hide Log, Head;
    if inputs == [] {
      StartKeeps(e, o, s);
    } else {
      var before, last := inputs[..|inputs| - 1], inputs[|inputs| - 1];
      RunKeeps(e, o, s, before);
      var now := ServerRun(e, s, before);
      hide Keeps;
      if now.active && last.message.DxMsg? {
        DataKeeps(e, o, now, Records(e, s, before), last.message, last.around);
      } else {
        KeepsFrame(e, o, now, ServerStep(e, now, last.message, last.around), Records(e, s, before));
      }
    }
  }

  lemma StartKeeps(e: Server, o: Opening, s: Session)
    requires Established(e, o, s)
    ensures Keeps(e, o, s, [])
  {
  }

  lemma KeepsFrame(e: Server, o: Opening, s: Session, t: Session, records: seq<Record>)
    requires Keeps(e, o, s, records) && t.(trust := s.trust, active := s.active, recorded := s.recorded) == s
    ensures Keeps(e, o, t, records)
  {
    hide Log, Head, Link;
  }

  lemma DataKeeps(e: Server, o: Opening, s: Session, records: seq<Record>, m: Message, d: Surroundings)
    requires Keeps(e, o, s, records) && m.DxMsg?
    ensures var r := DecryptedRecord(e, s, m);
            Keeps(e, o, ServerData(e, s, m, d).0, if r.None? then records else records + [r.value])
  {
    var found, next := DecryptedRecord(e, s, m), ServerData(e, s, m, d).0;
    DataAdvances(e, s, m, d);
    if found.Some? {
      assert o.WellFormed();
      AcceptedFits(e, o, s, e.c.decrypt(m.msgCif, s.sesKey).value);
      hide Keeps, Advance, ServerData;
      AdvanceKeeps(e, o, s, records, found.value);
      KeepsFrame(e, o, Advance(e, s, found.value), next, records + [found.value]);
    } else {
      hide Keeps, Advance, ServerData;
      KeepsFrame(e, o, s, next, records);
    }
  }

  /** A data message that holds an acceptable record advances the chain by it, also when its handling
      then fails; any other leaves the chain alone. */
  lemma DataAdvances(e: Server, s: Session, m: Message, d: Surroundings)
    requires m.DxMsg?
    ensures var r, next := DecryptedRecord(e, s, m), ServerData(e, s, m, d).0;
            if r.None? then next.(trust := s.trust, active := s.active, recorded := s.recorded) == s
            else
              var advanced := Advance(e, s, r.value);
              next.(trust := advanced.trust, active := advanced.active, recorded := advanced.recorded) == advanced
  {
    hide DecryptedRecord, Link, ReadingIn, Response;
  }

  lemma AdvanceKeeps(e: Server, o: Opening, s: Session, records: seq<Record>, r: Record)
    requires Keeps(e, o, s, records) && Fits(o, r)
    ensures Keeps(e, o, Advance(e, s, r), records + [r])
  {
    hide Link, Fits;
    var all := records + [r];
    assert all[..|all| - 1] == records && all[|all| - 1] == r;
  }

  /** Whatever decrypts and parses fits its fields. */
  lemma AcceptedFits(e: Server, o: Opening, s: Session, plain: Bytes)
    requires AcceptedRecord(e, s, plain).Some? && o.WellFormed()
    ensures Fits(o, AcceptedRecord(e, s, plain).value)
  {
    hide Parse, Packed, Be32, Be32Value, Preg;
    ParseSound(plain, 6);
    var f, r := Parse(plain, 6).value, AcceptedRecord(e, s, plain).value;
    assert f[0] in f && f[3] in f;
    Be32Bound(f[2]);
    assert RegFields(r, o.idB, o.sesId) == [f[0], f[1], Be32(r.mNum), f[3], o.idB, o.sesId];
  }

  // ---------- what a head commits to ----------

  /** Two sessions with equal heads, on the same server or on two, accepted the same records in the
      same order and hold the same log. */
  lemma HeadsCommit(e: Server, o: Opening, s: Session, xs: seq<Input>, f: Server, p: Opening, t: Session,
                    ys: seq<Input>)
    requires e.c.Sound() && e.c == f.c && Established(e, o, s) && Established(f, p, t)
    requires NoCollision(e.c, Hashed(e.c, o, Records(e, s, xs)) + Hashed(e.c, p, Records(f, t, ys)))
    requires ServerRun(e, s, xs).prv == ServerRun(f, t, ys).prv
    ensures Records(e, s, xs) == Records(f, t, ys) && s.sesId == t.sesId
    ensures ServerRun(e, s, xs).chain == ServerRun(f, t, ys).chain
  {
    RunKeeps(e, o, s, xs);
    RunKeeps(f, p, t, ys);
    hide Head, Hashed, Log, NoCollision, ServerRun, Records;
    var records := Records(e, s, xs);
    HeadDetermines(e.c, o, records, p, Records(f, t, ys));
    SameLog(e.c, o, p, records);
  }

  lemma {:induction false} SameLog(c: Suite, o: Opening, p: Opening, records: seq<Record>)
    requires o.genesis == p.genesis && o.initReg == p.initReg && o.sesId == p.sesId
    requires records != [] ==> o.SesKey(c) == p.SesKey(c) && o.idB == p.idB
    ensures Head(c, o, records) == Head(c, p, records) && Log(c, o, records) == Log(c, p, records)
  {
    hide Link;
    if records != [] {
      SameLog(c, o, p, records[..|records| - 1]);
    }
  }

  /** The strings that a session hashes when it takes its records, and when it then checks one more. */
  function HashedToCheck(c: Suite, o: Opening, records: seq<Record>, r: Record): set<Bytes> {
    Hashed(c, o, records) + {PregInput(c, o, Head(c, o, records), r)}
  }

  /** A decrypted data message is acceptable at one point only: two sessions that would both take it
      have the same session identifier and have accepted the same records before. */
  lemma AcceptedOnce(e: Server, o: Opening, s: Session, xs: seq<Input>, f: Server, p: Opening, t: Session,
                     ys: seq<Input>, plain: Bytes)
    requires e.c.Sound() && e.c == f.c && Established(e, o, s) && Established(f, p, t)
    requires AcceptedRecord(e, ServerRun(e, s, xs), plain).Some? && AcceptedRecord(f, ServerRun(f, t, ys), plain).Some?
    requires var r := AcceptedRecord(e, ServerRun(e, s, xs), plain).value;
             NoCollision(e.c, HashedToCheck(e.c, o, Records(e, s, xs), r) + HashedToCheck(e.c, p, Records(f, t, ys), r))
    ensures Records(e, s, xs) == Records(f, t, ys) && s.sesId == t.sesId
  {
    RunKeeps(e, o, s, xs);
    RunKeeps(f, p, t, ys);
    var S, T, a, b := ServerRun(e, s, xs), ServerRun(f, t, ys), Records(e, s, xs), Records(f, t, ys);
    var r := AcceptedRecord(e, S, plain).value;
    assert AcceptedRecord(f, T, plain) == Some(r);
    assert Preg(e.c, S.prv, r, e.id, S.sesId) == Preg(e.c, T.prv, r, f.id, T.sesId);
    hide AcceptedRecord, ServerRun, Records, Log, Fits;
    SamePoint(e.c, o, a, p, b, r);
  }

  lemma SamePoint(c: Suite, o: Opening, xs: seq<Record>, p: Opening, ys: seq<Record>, r: Record)
    requires c.Sound() && WellFormed(o, xs) && WellFormed(p, ys)
    requires NoCollision(c, HashedToCheck(c, o, xs, r) + HashedToCheck(c, p, ys, r))
    requires Preg(c, Head(c, o, xs), r, o.idB, o.sesId) == Preg(c, Head(c, p, ys), r, p.idB, p.sesId)
    ensures xs == ys && o.sesId == p.sesId
  {
    hide Suite.Sound, WellFormed, NoCollision, Preg, PregInput, Head, Hashed;
    var a, b := Head(c, o, xs), Head(c, p, ys);
    HeadLength(c, o, xs);
    HeadLength(c, p, ys);
    var all := HashedToCheck(c, o, xs, r) + HashedToCheck(c, p, ys, r);
    Fewer(c, all, {PregInput(c, o, a, r), PregInput(c, p, b, r)});
    Fewer(c, all, Hashed(c, o, xs) + Hashed(c, p, ys));
    PregPrefix(c, o, a, p, b, r);
    HeadDetermines(c, o, xs, p, ys);
  }

  lemma PregPrefix(c: Suite, o: Opening, a: Bytes, p: Opening, b: Bytes, r: Record)
    requires c.Sound() && |a| == |b| && NoCollision(c, {PregInput(c, o, a, r), PregInput(c, p, b, r)})
    requires Preg(c, a, r, o.idB, o.sesId) == Preg(c, b, r, p.idB, p.sesId)
    ensures a == b
  {
    hide RegReg;
    assert PregInput(c, o, a, r) == PregInput(c, p, b, r);
    Tails(a, c.hash(RegReg(r, o.idB, o.sesId)), b, c.hash(RegReg(r, p.idB, p.sesId)));
  }

  /** So a message that was accepted once is never accepted again in its session. */
  lemma NoReplay(e: Server, o: Opening, s: Session, xs: seq<Input>, ys: seq<Input>, plain: Bytes)
    requires e.c.Sound() && Established(e, o, s) && |Records(e, s, xs)| != |Records(e, s, ys)|
    requires AcceptedRecord(e, ServerRun(e, s, xs), plain).Some?
    requires var r := AcceptedRecord(e, ServerRun(e, s, xs), plain).value;
             NoCollision(e.c, HashedToCheck(e.c, o, Records(e, s, xs), r) + HashedToCheck(e.c, o, Records(e, s, ys), r))
    ensures AcceptedRecord(e, ServerRun(e, s, ys), plain).None?
  {
    hide *;
    if AcceptedRecord(e, ServerRun(e, s, ys), plain).Some? {
      AcceptedOnce(e, o, s, xs, e, o, s, ys, plain);
    }
  }

  // ---------- trust over a session ----------

  function ExchangeOf(e: Server, s: Session, m: Message, d: Surroundings): Exchange
    requires m.DxMsg?
  {
    var r := DecryptedRecord(e, s, m);
    if r.None? then Exchange(Unjudged, false, true) else
      var reading := ReadingIn(e, r.value.smg);
      Exchange(Judge(reading, d.median), Recorded(reading, d.median),
               !d.responseSent || (d.setpoint.Some? && !d.setpointSent))
  }

  /** The data messages that a session handled, as the trust score sees them. */
  function Exchanges(e: Server, s: Session, inputs: seq<Input>): seq<Exchange> {
    if inputs == [] then [] else
      var before, last := inputs[..|inputs| - 1], inputs[|inputs| - 1];
      var now := ServerRun(e, s, before);
      if now.active && last.message.DxMsg?
      then Exchanges(e, s, before) + [ExchangeOf(e, now, last.message, last.around)]
      else Exchanges(e, s, before)
  }

  predicate LoggedOut(e: Server, s: Session, inputs: seq<Input>) {
    inputs != [] &&
      var before, last := inputs[..|inputs| - 1], inputs[|inputs| - 1];
      LoggedOut(e, s, before) || (ServerRun(e, s, before).active && last.message.LogoutReq?)
  }

  /** Over any events a session's trust is what its exchanges account for, and the score stored with
      its readings is the stored score of those; it is active exactly while they leave it active and
      nobody has logged out. */
  lemma {:induction false} SessionTrust(e: Server, s: Session, inputs: seq<Input>)
    requires s.active && s.trust == START.trust && s.recorded == None
    ensures var xs, end := Exchanges(e, s, inputs), ServerRun(e, s, inputs);
            && end.trust == Run(xs).trust && end.active == (Run(xs).active && !LoggedOut(e, s, inputs))
            && Accounts(xs, Run(xs))
            && end.recorded == StoredScore(xs) && Genuine(xs)
  {
    hide Accounts, ServerData, ExchangeOf, Step;
    if inputs == [] {
      AccountsStart();
    } else {
      var before, last := inputs[..|inputs| - 1], inputs[|inputs| - 1];
      SessionTrust(e, s, before);
      var now := ServerRun(e, s, before);
      if now.active && last.message.DxMsg? {
        SessionTrustStep(e, now, Exchanges(e, s, before), last.message, last.around);
      }
    }
  }

  lemma SessionTrustStep(e: Server, s: Session, xs: seq<Exchange>, m: Message, d: Surroundings)
    requires m.DxMsg? && s.active && Run(xs) == Standing(s.trust, s.active) && Accounts(xs, Run(xs))
    requires s.recorded == StoredScore(xs) && Genuine(xs)
    ensures var next, all := ServerData(e, s, m, d).0, xs + [ExchangeOf(e, s, m, d)];
            && Run(all) == Standing(next.trust, next.active) && Accounts(all, Run(all))
            && next.recorded == StoredScore(all) && Genuine(all)
  {
    hide Accounts, ServerData, ExchangeOf, Step, AfterVerdict;
    var x := ExchangeOf(e, s, m, d);
    assert (xs + [x])[..|xs + [x]| - 1] == xs;
    TrustStep(e, s, m, d);
    AccountsStep(xs, Run(xs), x);
  }

  /** One data message moves trust by one step of the trust machine, and stores the score in between. */
  lemma TrustStep(e: Server, s: Session, m: Message, d: Surroundings)
    requires m.DxMsg? && s.active
    ensures var next, x := ServerData(e, s, m, d).0, ExchangeOf(e, s, m, d);
            && Standing(next.trust, next.active) == Step(Standing(s.trust, s.active), x)
            && next.recorded == (if x.stored then Some(AfterVerdict(s.trust, x.verdict).score) else s.recorded)
            && (!x.verdict.Unjudged? ==> x.stored)
  {
    hide DecryptedRecord, Link, ReadingIn, Response, Update;
    AfterNothing(s.trust);
  }

  lemma AfterNothing(t: Trust)
    ensures AfterVerdict(t, Unjudged) == t
  {
  }
}

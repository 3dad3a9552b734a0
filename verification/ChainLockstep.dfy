/**
  A client and a server that talk to each other: how far apart their chain heads can be.
 */
module ChainLockstep {
  import opened BigEndian
  import opened Bits
  import opened Options
  import opened Tlv
  import opened Trust
  import opened ChainSpec
  import opened ChainHistory
  import opened ChainRuns

  // ---------- opening ----------

  /** What the two sides draw while they open a session. */
  datatype Draws = Draws(rA: Bytes, rdn1: Bytes, ts: Bytes, initNonce: Bytes, sesId: Bytes, rdn2: Bytes,
                         replyNonce: Bytes, confNonce: Bytes)
  {
    predicate WellFormed() {
      |rdn1| == ID_SIZE && |ts| == 8 && |sesId| == ID_SIZE && |rdn2| == ID_SIZE
    }
  }

  datatype Pair = Pair(client: Client, server: Session)

  /** Two ends of one session share its keys and name each other. */
  ghost predicate Matched(e: Server, w: Pair) {
    && w.client.c == e.c && w.client.peerId == e.id && w.client.id == w.server.peerId
    && w.client.shs == w.server.shs && w.client.sesId == w.server.sesId && w.client.sesKey == w.server.sesKey
  }

  /** P2 without interference: whichever salt the client has, a registered node always gets through,
      and the heads are equal. */
  lemma GenesisInLockstep(e: Server, k: Client, salt: Bytes, d: Draws)
    requires k.c == e.c && k.id in e.registry
    ensures var hello := ClientHello(k, salt, d.rA);
            && ServerHello(e, NEW_SESSION, hello).Some?
            && var (s, ack) := ServerHello(e, NEW_SESSION, hello).value;
            && ClientGenesis(k, hello, ack).Some?
            && var next := ClientGenesis(k, hello, ack).value;
            && next.prv == s.prv && next.shs == s.shs && next.peerId == e.id && s.peerId == next.id == k.id
            && next.c == e.c
  {
  }

  /** P3 without interference: every check passes on either side, and both end with equal heads and
      keys; the client is one link ahead while its confirmation is on the way. */
  lemma OpeningInLockstep(e: Server, k: Client, s: Session, d: Draws)
    requires e.c.Sound() && k.c == e.c && d.WellFormed()
    requires k.prv == s.prv && k.shs == s.shs && k.peerId == e.id && s.peerId == k.id
    ensures var (k1, init) := ClientInit(k, d.rdn1, d.ts, d.initNonce);
            && k1.prv == s.prv
            && ServerInit(e, s, init, d.sesId, d.rdn2, d.replyNonce).Some?
            && var (p, reply) := ServerInit(e, s, init, d.sesId, d.rdn2, d.replyNonce).value;
            && ClientConf(k1, reply, d.confNonce).Some?
            && var (k2, conf) := ClientConf(k1, reply, d.confNonce).value;
            && k2.prv == e.c.hash(s.prv + p.sesId + p.preinit)
            && ServerConf(e, s, p, conf).Some?
            && var next := ServerConf(e, s, p, conf).value.0;
            && k2.prv == next.prv && Matched(e, Pair(k2, next)) && next.active && next.trust == START.trust
  {
    var c := e.c;
    var (k1, init) := ClientInit(k, d.rdn1, d.ts, d.initNonce);
    var initReg := InitReg(d.rdn1, d.ts, k.id, k.peerId, k.shs);
    var preinit := Preinit(c, k.prv, initReg);
    InitText(preinit, d.rdn1, d.ts);
    ReplyText(d.sesId, d.rdn2, d.rdn1, preinit);
    hide InitReg, Preinit, Slice, ConfTag;
    var reply := ServerInit(e, s, init, d.sesId, d.rdn2, d.replyNonce);
    assert c.decrypt(init.initCif, s.shs) == Some(preinit + d.rdn1 + d.ts);
    assert reply.Some? && reply.value.0 == Pending(d.sesId, d.rdn1, d.rdn2, c.hash(d.rdn2 + s.shs), preinit, initReg);
    assert c.decrypt(reply.value.1.sesCif, k1.shs) == Some(d.sesId + d.rdn2 + d.rdn1 + preinit);
  }

  lemma InitText(preinit: Bytes, rdn1: Bytes, ts: Bytes)
    requires |preinit| == DIGEST_SIZE && |rdn1| == ID_SIZE
    ensures var plain := preinit + rdn1 + ts;
            && Slice(plain, 0, DIGEST_SIZE) == preinit && Slice(plain, DIGEST_SIZE, DIGEST_SIZE + ID_SIZE) == rdn1
            && (if |plain| <= DIGEST_SIZE + ID_SIZE then [] else plain[DIGEST_SIZE + ID_SIZE..]) == ts
  {
  }

  lemma ReplyText(sesId: Bytes, rdn2: Bytes, rdn1: Bytes, preinit: Bytes)
    requires |sesId| == 16 && |rdn2| == 16 && |rdn1| == 16 && |preinit| == 32
    ensures var plain := sesId + rdn2 + rdn1 + preinit;
            && Slice(plain, 0, 16) == sesId && Slice(plain, 16, 32) == rdn2 && Slice(plain, 32, 48) == rdn1
            && Slice(plain, 48, 80) == preinit
  {
  }

  // ---------- one reading ----------

  /** The text of a reading survives its normalisation, which fills whole blocks. */
  lemma NormalizedRoundTrip(text: Bytes)
    requires |text| < 0x1_0000_0000
    ensures ReadingText(Normalized(text)) == Some(text) && |Normalized(text)| % 64 == 0
  {
    hide Be32, Be32Value, Padding, Zeros;
    Be32RoundTrip(|text|);
    FillsBlocks(4 + |text|);
    TextInside(Be32(|text|), text, Zeros(Padding(4 + |text|)));
  }

  lemma TextInside(header: Bytes, text: Bytes, padding: Bytes)
    requires |header| == 4
    ensures var smg := header + text + padding; smg[..4] == header && Slice(smg, 4, 4 + |text|) == text
  {
  }

  lemma FillsBlocks(n: nat)
    ensures (n + Padding(n)) % BLOCK == 0
  {
  }

  /** What the client sends is what the server, at the same head, accepts: the same record. */
  lemma SentIsAccepted(e: Server, k: Client, s: Session, text: Bytes, ts: Bytes, nonce: Bytes)
    requires e.c.Sound() && Matched(e, Pair(k, s)) && k.prv == s.prv && |ts| == 8
    requires ClientSend(k, text, ts, nonce).Some?
    ensures DecryptedRecord(e, s, ClientSend(k, text, ts, nonce).value.1) == Some(ClientRecord(k, text, ts))
  {
    var r := ClientRecord(k, text, ts);
    var preg := Preg(k.c, k.prv, r, k.peerId, k.sesId);
    var fields := MsgReg(r, preg);
    PregIgnoresAReg(k.c, k.prv, r, k.peerId, k.sesId);
    Be32RoundTrip(r.mNum);
    hide Be32, Be32Value, Packable, Packed, Parse, RegReg, Normalized;
    PackParse(fields, []);
    assert Packed(fields) + [] == Packed(fields);
    assert AcceptedRecord(e, s, Packed(fields)) == Some(r);
  }

  lemma PregIgnoresAReg(c: Suite, prv: Bytes, r: Record, idB: Bytes, sesId: Bytes)
    ensures forall a :: Preg(c, prv, r.(aReg := a), idB, sesId) == Preg(c, prv, r, idB, sesId)
  {
    forall a ensures Preg(c, prv, r.(aReg := a), idB, sesId) == Preg(c, prv, r, idB, sesId) {
      assert RegFields(r.(aReg := a), idB, sesId) == RegFields(r, idB, sesId);
    }
  }

  // ---------- data exchange ----------

  /** Both ends, the messages under way in each direction, and what the client has sent so far. */
  datatype World = World(pair: Pair, up: seq<Message>, down: seq<Message>, waiting: bool, stopped: bool,
                         sent: seq<Record>)

  datatype Event =
    | ClientSends(text: Bytes, ts: Bytes, nonce: Bytes)
    | ServerHandles(around: Surroundings)
    | ClientReceives

  /** The client has at most one message unanswered; the sends of a living connection succeed. */
  predicate CanStep(w: World, ev: Event) {
    match ev
    case ClientSends(text, ts, nonce) =>
      !w.waiting && !w.stopped && |ts| == 8 && ClientSend(w.pair.client, text, ts, nonce).Some?
    case ServerHandles(d) => w.up != [] && w.up[0].DxMsg? && w.pair.server.active && d.responseSent && d.setpointSent
    case ClientReceives => w.waiting && w.down != []
  }

  function Step(e: Server, w: World, ev: Event): World
    requires CanStep(w, ev)
  {
    match ev
    case ClientSends(text, ts, nonce) =>
      var (k, m) := ClientSend(w.pair.client, text, ts, nonce).value;
      w.(pair := w.pair.(client := k), up := w.up + [m], waiting := true,
         sent := w.sent + [ClientRecord(w.pair.client, text, ts)])
    case ServerHandles(d) =>
      var (s, replies) := ServerData(e, w.pair.server, w.up[0], d);
      w.(pair := w.pair.(server := s), up := w.up[1..], down := w.down + replies)
    case ClientReceives =>
      var k := ClientReceive(w.pair.client, w.down[0]);
      if k.None? then w.(down := w.down[1..], waiting := false, stopped := true)
      else w.(pair := w.pair.(client := k.value), down := w.down[1..], waiting := w.down[0].Setpoint?)
  }

  predicate CanRun(e: Server, w: World, events: seq<Event>)
    decreases |events|, 0
  {
    if events == [] then true else
      var before := events[..|events| - 1];
      CanRun(e, w, before) && CanStep(Run(e, w, before), events[|events| - 1])
  }

  function Run(e: Server, w: World, events: seq<Event>): World
    requires CanRun(e, w, events)
    decreases |events|, 1
  {
    if events == [] then w else
      Step(e, Run(e, w, events[..|events| - 1]), events[|events| - 1])
  }

  ghost predicate Fresh(e: Server, o: Opening, w: World) {
    && Matched(e, w.pair) && Established(e, o, w.pair.server) && w.pair.client.prv == w.pair.server.prv
    && w.up == [] && w.down == [] && !w.waiting && !w.stopped && w.sent == []
  }

  predicate Setpoints(ms: seq<Message>) {
    forall m | m in ms :: m.Setpoint?
  }

  /** The one response among the messages under way, and where it stands. */
  ghost predicate Answered(e: Server, w: World, i: nat, b: Bytes) {
    && i < |w.down| && Setpoints(w.down[..i]) && Setpoints(w.down[i + 1..])
    && w.down[i].DxRes? && e.c.decrypt(w.down[i].resCif, w.pair.client.sesKey) == Some(b)
  }

  /** What the server has taken, and what the client has seen answered. */
  function Accepted(w: World): seq<Record> {
    if w.up == [] || w.sent == [] then w.sent else w.sent[..|w.sent| - 1]
  }

  function Completed(w: World): seq<Record> {
    if !w.waiting || w.sent == [] then w.sent else w.sent[..|w.sent| - 1]
  }

  /** Nothing but setpoints under way to a client at rest; a message that the server will accept, or
      the one response to it, while the client waits. */
  ghost predicate InOrder(e: Server, w: World) {
    if !w.waiting then w.up == [] && Setpoints(w.down) else
      && w.sent != [] && w.pair.client.lastAReg == Last(w).aReg
      && if w.up != [] then Asking(e, w) else exists i: nat :: Answered(e, w, i, Reply(e, w))
  }

  function Last(w: World): Record
    requires w.sent != []
  {
    w.sent[|w.sent| - 1]
  }

  function Reply(e: Server, w: World): Bytes
    requires w.sent != []
  {
    var k := w.pair.client;
    BReg(e.c, Preg(e.c, k.prv, Last(w), e.id, k.sesId), k.sesKey)
  }

  ghost predicate Asking(e: Server, w: World)
    requires w.sent != []
  {
    && |w.up| == 1 && Setpoints(w.down) && w.up[0].DxMsg?
    && DecryptedRecord(e, w.pair.server, w.up[0]) == Some(Last(w))
  }

  ghost predicate Inv(e: Server, o: Opening, w: World) {
    && Matched(e, w.pair) && !w.stopped && InOrder(e, w)
    && Keeps(e, o, w.pair.server, Accepted(w)) && w.pair.client.prv == Head(e.c, o, Completed(w))
  }

  lemma SendStep(e: Server, w: World, ev: Event)
    requires ev.ClientSends? && CanStep(w, ev)
    ensures var next, r, k := Step(e, w, ev), ClientRecord(w.pair.client, ev.text, ev.ts), w.pair.client;
            && next == World(w.pair.(client := k.(mNum := next.pair.client.mNum, lastAReg := r.aReg)),
                             w.up + [ClientSend(k, ev.text, ev.ts, ev.nonce).value.1], w.down, true, w.stopped,
                             w.sent + [r])
            && ClientSend(k, ev.text, ev.ts, ev.nonce).value.1.DxMsg?
  {
    hide ClientRecord, Preg, MsgReg, PackFields;
  }

  lemma SendKeeps(e: Server, o: Opening, w: World, ev: Event)
    requires e.c.Sound() && Inv(e, o, w) && ev.ClientSends? && CanStep(w, ev)
    ensures Inv(e, o, Step(e, w, ev))
  {
    hide Keeps, DecryptedRecord, ClientRecord, Head, ClientSend, Step, Answered, Reply, Suite.Sound;
    SendStep(e, w, ev);
    var next := Step(e, w, ev);
    assert next.sent[..|next.sent| - 1] == w.sent;
    assert Accepted(w) == w.sent == Completed(w) && Accepted(next) == Completed(next) == w.sent;
    SameHead(e, o, w);
    SentIsAccepted(e, w.pair.client, w.pair.server, ev.text, ev.ts, ev.nonce);
  }

  lemma SameHead(e: Server, o: Opening, w: World)
    requires Keeps(e, o, w.pair.server, Accepted(w)) && w.pair.client.prv == Head(e.c, o, Completed(w))
    requires Accepted(w) == Completed(w)
    ensures w.pair.client.prv == w.pair.server.prv
  {
    hide Head, Log;
  }

  lemma HandleKeeps(e: Server, o: Opening, w: World, ev: Event)
    requires e.c.Sound() && Inv(e, o, w) && ev.ServerHandles? && CanStep(w, ev)
    ensures Inv(e, o, Step(e, w, ev))
  {
    hide RegReg;
    hide Keeps, DecryptedRecord, Head, ServerData, Reply, Answered, Suite.Sound;
    var s, m, r, next := w.pair.server, w.up[0], Last(w), Step(e, w, ev);
    var (s', replies) := ServerData(e, s, m, ev.around);
    assert w.up[1..] == [];
    assert next == w.(pair := w.pair.(server := s'), up := [], down := w.down + replies);
    SameHead(e, o, w);
    DataAdvances(e, s, m, ev.around);
    DataKeeps(e, o, s, Accepted(w), m, ev.around);
    assert Accepted(w) + [r] == w.sent;
    assert Accepted(next) == w.sent;
    Replies(e, w, ev.around);
    SameReply(e, w, next);
  }

  lemma SameReply(e: Server, w: World, next: World)
    requires w.sent != [] && w.sent == next.sent && w.pair.client == next.pair.client
    ensures Reply(e, w) == Reply(e, next)
  {
    hide RegReg;
  }

  /** The server's answer joins what is under way: the response, and perhaps a setpoint. */
  lemma Replies(e: Server, w: World, d: Surroundings)
    requires e.c.Sound() && w.sent != [] && Asking(e, w) && d.responseSent && d.setpointSent
    requires Matched(e, w.pair) && w.pair.client.prv == w.pair.server.prv
    ensures var (s, replies) := ServerData(e, w.pair.server, w.up[0], d);
            Answered(e, w.(pair := w.pair.(server := s), up := [], down := w.down + replies), |w.down|, Reply(e, w))
  {
    hide DecryptedRecord, BReg, Preg, Advance, JudgeReading;
    var (s, replies) := ServerData(e, w.pair.server, w.up[0], d);
    var down, i := w.down + replies, |w.down|;
    assert replies[0] == Response(e, w.pair.server, Last(w), d.nonce) && Setpoints(replies[1..]);
    assert down[..i] == w.down && down[i] == replies[0] && down[i + 1..] == replies[1..];
  }

  lemma ReceiveKeeps(e: Server, o: Opening, w: World, ev: Event)
    requires e.c.Sound() && Inv(e, o, w) && ev.ClientReceives? && CanStep(w, ev)
    ensures Inv(e, o, Step(e, w, ev))
  {
    hide Keeps, DecryptedRecord, Head, Reply, Answered, Suite.Sound;
    var next := Step(e, w, ev);
    if w.up != [] {
      assert w.down[0] in w.down;
      assert Setpoints(next.down);
    } else {
      var i: nat :| Answered(e, w, i, Reply(e, w));
      HeadLast(e.c, o, w.sent);
      Arrival(e, w, i);
      if i > 0 {
        SameReply(e, w, next);
      } else {
        OneLink(e, o, w);
      }
    }
  }

  /** With the response the client makes the link the server made. */
  lemma OneLink(e: Server, o: Opening, w: World)
    requires Matched(e, w.pair) && w.sent != [] && w.waiting && w.up == [] && w.pair.client.lastAReg == Last(w).aReg
    requires Keeps(e, o, w.pair.server, Accepted(w)) && w.pair.client.prv == Head(e.c, o, Completed(w))
    ensures e.c.hash(w.pair.client.lastAReg + Reply(e, w)) == Head(e.c, o, w.sent)
  {
    hide Log, Preg, BReg;
  }

  lemma HeadLast(c: Suite, o: Opening, records: seq<Record>)
    requires records != []
    ensures Head(c, o, records)
         == Link(c, Head(c, o, records[..|records| - 1]), records[|records| - 1], o.idB, o.sesId, o.SesKey(c))
  {
  }

  /** The next message to the client is a setpoint, and the response is one nearer; or it is the response. */
  lemma Arrival(e: Server, w: World, i: nat)
    requires e.c.Sound() && w.sent != [] && w.waiting && Answered(e, w, i, Reply(e, w))
    requires w.pair.client.c == e.c
    ensures var next := Step(e, w, ClientReceives);
            var k := w.pair.client;
            if i == 0 then next == w.(pair := w.pair.(client := k.(prv := e.c.hash(k.lastAReg + Reply(e, w)))),
                                      down := w.down[1..], waiting := false)
                           && Setpoints(next.down)
            else next == w.(down := w.down[1..]) && Answered(e, next, i - 1, Reply(e, w))
  {
    hide Preg, BReg;
    if i > 0 {
      assert w.down[0] == w.down[..i][0];
      assert w.down[1..][..i - 1] == w.down[..i][1..] && w.down[1..][i..] == w.down[i + 1..];
    }
  }

  /** In every run of the two ends that nobody interferes with: no message is refused, and a client
      that is not waiting for a response stands at the server's head. */
  lemma {:induction false} RunsInLockstep(e: Server, o: Opening, w: World, events: seq<Event>)
    requires e.c.Sound() && Fresh(e, o, w) && CanRun(e, w, events)
    ensures Inv(e, o, Run(e, w, events))
  {
    if events != [] {
      var before, last := events[..|events| - 1], events[|events| - 1];
      RunsInLockstep(e, o, w, before);
      var now := Run(e, w, before);
      hide Inv, Step, CanStep, Fresh;
      match last
      case ClientSends(_, _, _) => SendKeeps(e, o, now, last);
      case ServerHandles(_) => HandleKeeps(e, o, now, last);
      case ClientReceives => ReceiveKeeps(e, o, now, last);
    }
  }

  /** After every completed exchange the heads are equal and commit to exactly what was sent; between
      the server's response and the client's receipt they differ, by exactly the last record. */
  lemma HeadsInLockstep(e: Server, o: Opening, w: World, events: seq<Event>)
    requires e.c.Sound() && Fresh(e, o, w) && CanRun(e, w, events)
    requires NoCollision(e.c, Hashed(e.c, o, Run(e, w, events).sent))
    ensures var end := Run(e, w, events);
            && !end.stopped
            && (!end.waiting ==> end.pair.client.prv == end.pair.server.prv == Head(e.c, o, end.sent))
            && (end.waiting ==> end.sent != [] && end.pair.client.prv == Head(e.c, o, end.sent[..|end.sent| - 1]))
            && (end.waiting ==> (end.pair.client.prv == end.pair.server.prv <==> end.up != []))
            && (end.waiting && end.up == [] ==> end.pair.server.prv == Head(e.c, o, end.sent))
  {
    RunsInLockstep(e, o, w, events);
    var end := Run(e, w, events);
    HeadsAt(e, o, end);
  }

  lemma HeadsAt(e: Server, o: Opening, w: World)
    requires e.c.Sound() && Inv(e, o, w) && NoCollision(e.c, Hashed(e.c, o, w.sent))
    ensures !w.waiting ==> w.pair.client.prv == w.pair.server.prv == Head(e.c, o, w.sent)
    ensures w.waiting ==> w.sent != [] && w.pair.client.prv == Head(e.c, o, w.sent[..|w.sent| - 1])
    ensures w.waiting ==> (w.pair.client.prv == w.pair.server.prv <==> w.up != [])
    ensures w.waiting && w.up == [] ==> w.pair.server.prv == Head(e.c, o, w.sent)
  {
    hide Head, Hashed, Log, Answered, Reply, DecryptedRecord, Suite.Sound;
    if w.waiting && w.up == [] {
      assert w.sent[..|w.sent|] == w.sent;
      HeadsNeverRepeat(e.c, o, w.sent, |w.sent| - 1, |w.sent|);
    }
  }
}

/**
  What the head of a hash chain commits to.  The hash is any function with 32-byte digests; each
  result assumes only that the byte strings hashed in the sessions it speaks about do not collide.
 */
module ChainHistory {
  import opened BigEndian
  import opened Bits
  import opened Options
  import opened Tlv
  import opened ChainSpec

  /** What the chain of a session starts from. */
  datatype Opening = Opening(genesis: Bytes, initReg: Bytes, sesId: Bytes, rdn2: Bytes, shs: Bytes, idB: Bytes)
  {
    /** The lengths of the fields; the registration text holds at least an identifier of each side
        and the shared secret. */
    predicate WellFormed() {
      && |genesis| == DIGEST_SIZE && |sesId| == ID_SIZE && |rdn2| == ID_SIZE && |shs| == DIGEST_SIZE && |idB| == ID_SIZE
      && |initReg| > ID_SIZE + DIGEST_SIZE
    }

    function PreinitInput(c: Suite): Bytes {
      genesis + c.hash(initReg)
    }

    function KeyInput(): Bytes {
      rdn2 + shs
    }

    function InitInput(c: Suite): Bytes {
      genesis + sesId + c.hash(PreinitInput(c))
    }

    function SesKey(c: Suite): Bytes {
      c.hash(KeyInput())
    }
  }

  function Head(c: Suite, o: Opening, records: seq<Record>): Bytes {
    if records == [] then c.hash(o.InitInput(c)) else
      Link(c, Head(c, o, records[..|records| - 1]), records[|records| - 1], o.idB, o.sesId, o.SesKey(c))
  }

  predicate WellFormed(o: Opening, records: seq<Record>) {
    o.WellFormed() && forall r | r in records :: Fits(o, r)
  }

  predicate Fits(o: Opening, r: Record) {
    r.mNum < 0x1_0000_0000 && Packable(RegFields(r, o.idB, o.sesId))
  }

  // ---------- the byte strings a session hashes ----------

  function Opened(c: Suite, o: Opening): set<Bytes> {
    {o.initReg, o.PreinitInput(c), o.InitInput(c), o.KeyInput()}
  }

  function PregInput(c: Suite, o: Opening, prv: Bytes, r: Record): Bytes {
    prv + c.hash(RegReg(r, o.idB, o.sesId))
  }

  function BRegInput(c: Suite, o: Opening, prv: Bytes, r: Record): Bytes {
    c.hash(PregInput(c, o, prv, r)) + o.SesKey(c)
  }

  function RegInput(c: Suite, o: Opening, prv: Bytes, r: Record): Bytes {
    r.aReg + c.hash(BRegInput(c, o, prv, r))
  }

  function Linked(c: Suite, o: Opening, prv: Bytes, r: Record): set<Bytes> {
    {RegReg(r, o.idB, o.sesId), PregInput(c, o, prv, r), BRegInput(c, o, prv, r), RegInput(c, o, prv, r)}
  }

  function Hashed(c: Suite, o: Opening, records: seq<Record>): set<Bytes> {
    if records == [] then Opened(c, o) else
      var before := records[..|records| - 1];
      Hashed(c, o, before) + Linked(c, o, Head(c, o, before), records[|records| - 1])
  }

  ghost predicate NoCollision(c: Suite, inputs: set<Bytes>) {
    forall x, y | x in inputs && y in inputs :: c.hash(x) == c.hash(y) ==> x == y
  }

  // ---------- one step back ----------

  lemma Tails(a: Bytes, b: Bytes, x: Bytes, y: Bytes)
    requires a + b == x + y && (|a| == |x| || |b| == |y|)
    ensures a == x && b == y
  {
    assert (a + b)[..|a|] == a && (a + b)[|a|..] == b;
    assert (x + y)[..|x|] == x && (x + y)[|x|..] == y;
  }

  lemma RegRegInjective(o: Opening, r: Record, p: Opening, q: Record)
    requires Fits(o, r) && Fits(p, q) && RegReg(r, o.idB, o.sesId) == RegReg(q, p.idB, p.sesId)
    ensures r.(aReg := []) == q.(aReg := []) && o.idB == p.idB && o.sesId == p.sesId
  {
    hide Packed, Packable, RegFields, Be32, Be32Value;
    var x, y := RegFields(r, o.idB, o.sesId), RegFields(q, p.idB, p.sesId);
    assert |x| == |y| by {
      FieldsLength(r, o.idB, o.sesId);
      FieldsLength(q, p.idB, p.sesId);
    }
    PackedInjective(x, y, [], []);
    FieldsInjective(r, o.idB, o.sesId, q, p.idB, p.sesId);
  }

  lemma FieldsLength(r: Record, idB: Bytes, sesId: Bytes)
    ensures |RegFields(r, idB, sesId)| == 6
  {
  }

  lemma FieldsInjective(r: Record, idB: Bytes, sesId: Bytes, q: Record, idB': Bytes, sesId': Bytes)
    requires RegFields(r, idB, sesId) == RegFields(q, idB', sesId') && r.mNum < 0x1_0000_0000 && q.mNum < 0x1_0000_0000
    ensures r.(aReg := []) == q.(aReg := []) && idB == idB' && sesId == sesId'
  {
    hide Be32, Be32Value;
    var x, y := RegFields(r, idB, sesId), RegFields(q, idB', sesId');
    assert x[0] == y[0] && x[1] == y[1] && x[2] == y[2] && x[3] == y[3] && x[4] == y[4] && x[5] == y[5];
    Be32RoundTrip(r.mNum);
    Be32RoundTrip(q.mNum);
  }

  /** Equal links extend equal heads, by the same record, under the same session. */
  lemma LinkInjective(c: Suite, o: Opening, a: Bytes, r: Record, p: Opening, b: Bytes, q: Record)
    requires c.Sound() && Fits(o, r) && Fits(p, q) && |a| == |b| == DIGEST_SIZE
    requires NoCollision(c, Linked(c, o, a, r) + Linked(c, p, b, q))
    requires Link(c, a, r, o.idB, o.sesId, o.SesKey(c)) == Link(c, b, q, p.idB, p.sesId, p.SesKey(c))
    ensures a == b && r == q && o.idB == p.idB && o.sesId == p.sesId && o.SesKey(c) == p.SesKey(c)
  {
    hide RegReg, Fits;
    assert RegInput(c, o, a, r) == RegInput(c, p, b, q);
    Tails(r.aReg, c.hash(BRegInput(c, o, a, r)), q.aReg, c.hash(BRegInput(c, p, b, q)));
    assert BRegInput(c, o, a, r) == BRegInput(c, p, b, q);
    PregsAgree(c, o, a, r, p, b, q);
  }

  lemma PregsAgree(c: Suite, o: Opening, a: Bytes, r: Record, p: Opening, b: Bytes, q: Record)
    requires c.Sound() && Fits(o, r) && Fits(p, q) && |a| == |b| == DIGEST_SIZE
    requires NoCollision(c, Linked(c, o, a, r) + Linked(c, p, b, q))
    requires BRegInput(c, o, a, r) == BRegInput(c, p, b, q)
    ensures a == b && r.(aReg := []) == q.(aReg := []) && o.idB == p.idB && o.sesId == p.sesId
    ensures o.SesKey(c) == p.SesKey(c)
  {
    hide RegReg, Fits;
    Tails(c.hash(PregInput(c, o, a, r)), o.SesKey(c), c.hash(PregInput(c, p, b, q)), p.SesKey(c));
    assert PregInput(c, o, a, r) == PregInput(c, p, b, q);
    Tails(a, c.hash(RegReg(r, o.idB, o.sesId)), b, c.hash(RegReg(q, p.idB, p.sesId)));
    assert RegReg(r, o.idB, o.sesId) == RegReg(q, p.idB, p.sesId);
    RegRegInjective(o, r, p, q);
  }

  /** A link is never the first head of a session, although its first part may have any length: the
      session key would have to be the digest of a registration text, which is longer than its input. */
  lemma LinkIsNoOpening(c: Suite, o: Opening, a: Bytes, r: Record, p: Opening)
    requires c.Sound() && o.WellFormed() && p.WellFormed() && |a| == DIGEST_SIZE
    requires NoCollision(c, Opened(c, o) + Linked(c, o, a, r) + Opened(c, p))
    ensures Link(c, a, r, o.idB, o.sesId, o.SesKey(c)) != c.hash(p.InitInput(c))
  {
    hide RegReg;
    if Link(c, a, r, o.idB, o.sesId, o.SesKey(c)) == c.hash(p.InitInput(c)) {
      assert RegInput(c, o, a, r) == p.InitInput(c);
      Tails(r.aReg, c.hash(BRegInput(c, o, a, r)), p.genesis + p.sesId, c.hash(p.PreinitInput(c)));
      assert BRegInput(c, o, a, r) == p.PreinitInput(c);
      Tails(c.hash(PregInput(c, o, a, r)), o.SesKey(c), p.genesis, c.hash(p.initReg));
    }
  }

  lemma OpeningInjective(c: Suite, o: Opening, p: Opening)
    requires c.Sound() && o.WellFormed() && p.WellFormed() && NoCollision(c, Opened(c, o) + Opened(c, p))
    requires c.hash(o.InitInput(c)) == c.hash(p.InitInput(c))
    ensures o.genesis == p.genesis && o.sesId == p.sesId && o.initReg == p.initReg
  {
    assert o.InitInput(c) == p.InitInput(c);
    Tails(o.genesis + o.sesId, c.hash(o.PreinitInput(c)), p.genesis + p.sesId, c.hash(p.PreinitInput(c)));
    Tails(o.genesis, o.sesId, p.genesis, p.sesId);
    assert o.PreinitInput(c) == p.PreinitInput(c);
    Tails(o.genesis, c.hash(o.initReg), p.genesis, c.hash(p.initReg));
  }

  // ---------- whole histories ----------

  lemma HeadLength(c: Suite, o: Opening, records: seq<Record>)
    requires c.Sound()
    ensures |Head(c, o, records)| == DIGEST_SIZE
  {
  }

  /** Equal heads, of the same session or of two, mean equal histories: the same opening, the same
      records in the same order, and so as many of them. */
  lemma {:induction false} HeadDetermines(c: Suite, o: Opening, xs: seq<Record>, p: Opening, ys: seq<Record>)
    requires c.Sound() && WellFormed(o, xs) && WellFormed(p, ys)
    requires NoCollision(c, Hashed(c, o, xs) + Hashed(c, p, ys))
    requires Head(c, o, xs) == Head(c, p, ys)
    ensures xs == ys && o.genesis == p.genesis && o.initReg == p.initReg && o.sesId == p.sesId
    ensures xs != [] ==> o.SesKey(c) == p.SesKey(c) && o.idB == p.idB
    decreases |xs|
  {
    hide RegReg, Fits;
    HashedOpening(c, o, xs);
    HashedOpening(c, p, ys);
    var all := Hashed(c, o, xs) + Hashed(c, p, ys);
    hide Link, Linked, Opened, NoCollision;
    if xs == [] && ys == [] {
      Fewer(c, all, Opened(c, o) + Opened(c, p));
      OpeningInjective(c, o, p);
    } else if ys == [] {
      LastIsNoOpening(c, o, xs, p);
    } else if xs == [] {
      Fewer(c, all, Hashed(c, p, ys) + Opened(c, o));
      LastIsNoOpening(c, p, ys, o);
    } else {
      var x0, y0, x, y := xs[..|xs| - 1], ys[..|ys| - 1], xs[|xs| - 1], ys[|ys| - 1];
      HeadLength(c, o, x0);
      HeadLength(c, p, y0);
      Fewer(c, all, Linked(c, o, Head(c, o, x0), x) + Linked(c, p, Head(c, p, y0), y));
      LinkInjective(c, o, Head(c, o, x0), x, p, Head(c, p, y0), y);
      Fewer(c, all, Hashed(c, o, x0) + Hashed(c, p, y0));
      HeadDetermines(c, o, x0, p, y0);
      assert xs == x0 + [x] && ys == y0 + [y];
    }
  }

  lemma Fewer(c: Suite, all: set<Bytes>, some: set<Bytes>)
    requires NoCollision(c, all) && some <= all
    ensures NoCollision(c, some)
  {
  }

  lemma LastIsNoOpening(c: Suite, o: Opening, xs: seq<Record>, p: Opening)
    requires c.Sound() && WellFormed(o, xs) && p.WellFormed() && xs != []
    requires NoCollision(c, Hashed(c, o, xs) + Opened(c, p))
    ensures Head(c, o, xs) != c.hash(p.InitInput(c))
  {
    hide Link, Linked, Opened, NoCollision;
    var before, last := xs[..|xs| - 1], xs[|xs| - 1];
    HeadLength(c, o, before);
    HashedOpening(c, o, xs);
    Fewer(c, Hashed(c, o, xs) + Opened(c, p), Opened(c, o) + Linked(c, o, Head(c, o, before), last) + Opened(c, p));
    LinkIsNoOpening(c, o, Head(c, o, before), last, p);
  }

  lemma {:induction false} HashedOpening(c: Suite, o: Opening, records: seq<Record>)
    ensures Opened(c, o) <= Hashed(c, o, records)
  {
    if records != [] {
      HashedOpening(c, o, records[..|records| - 1]);
    }
  }

  lemma {:induction false} HashedPrefix(c: Suite, o: Opening, records: seq<Record>, n: nat)
    requires n <= |records|
    ensures Hashed(c, o, records[..n]) <= Hashed(c, o, records)
    decreases |records|
  {
    if n < |records| {
      var before := records[..|records| - 1];
      assert before[..n] == records[..n];
      HashedPrefix(c, o, before, n);
    } else {
      assert records[..n] == records;
    }
  }

  /** The heads of one session are pairwise different. */
  lemma HeadsNeverRepeat(c: Suite, o: Opening, records: seq<Record>, i: nat, j: nat)
    requires c.Sound() && WellFormed(o, records) && NoCollision(c, Hashed(c, o, records))
    requires i < j <= |records|
    ensures Head(c, o, records[..i]) != Head(c, o, records[..j])
  {
    hide Head, Hashed;
    HashedPrefix(c, o, records, i);
    HashedPrefix(c, o, records, j);
    if Head(c, o, records[..i]) == Head(c, o, records[..j]) {
      HeadDetermines(c, o, records[..i], o, records[..j]);
    }
  }
}

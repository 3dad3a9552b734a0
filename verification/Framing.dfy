/**
  Length-prefixed messages over a byte stream that splits its data anywhere, at the C end and at the
  Python end.
 */
module Framing {
  import opened BigEndian
  import opened Bits
  import opened Options

  const NET_MSG_MAX_LEN: nat := 16 * 1024  // the C receiver's limit
  const JSON_MAX_LEN: nat := 65536         // the Python receiver's limit

  // ---------- the wire format ----------

  function Frame(body: Bytes): Bytes {
    Be32(|body|) + body
  }

  /** What a receiver makes of a stream that ends after `wire`: a body, or nothing, and what it
      leaves unread. */
  datatype Parsed = Parsed(body: Option<Bytes>, rest: Bytes)

  function Parse(wire: Bytes, maxLen: nat): Parsed {
    if |wire| < 4 then Parsed(None, []) else
      var n := Be32Value(wire[..4]);
      if n == 0 || n > maxLen then Parsed(None, wire[4..])
      else if |wire| < 4 + n then Parsed(None, [])
      else Parsed(Some(wire[4..4 + n]), wire[4 + n..])
  }

  /** A framed body comes back, and the stream is consumed exactly, if and only if its length is
      between 1 and the receiver's limit. */
  lemma FrameRoundTrip(body: Bytes, rest: Bytes, maxLen: nat)
    requires |body| < 0x1_0000_0000
    ensures Parse(Frame(body) + rest, maxLen) == Parsed(Some(body), rest) <==> 1 <= |body| <= maxLen
    ensures !(1 <= |body| <= maxLen) ==> Parse(Frame(body) + rest, maxLen) == Parsed(None, body + rest)
  {
    hide Be32, Be32Value;
    Be32RoundTrip(|body|);
    var wire := Frame(body) + rest;
    assert wire[..4] == Be32(|body|) && wire[4..] == body + rest;
    if 1 <= |body| <= maxLen {
      assert wire[4..4 + |body|] == body && wire[4 + |body|..] == rest;
    }
  }

  function Wire(bodies: seq<Bytes>): Bytes {
    if bodies == [] then [] else Frame(bodies[0]) + Wire(bodies[1..])
  }

  /** The bodies that `count` receives in a row return. */
  function ParseMany(wire: Bytes, count: nat, maxLen: nat): (seq<Option<Bytes>>, Bytes)
    decreases count
  {
    if count == 0 then ([], wire) else
      var first := Parse(wire, maxLen);
      var others := ParseMany(first.rest, count - 1, maxLen);
      ([first.body] + others.0, others.1)
  }

  function All(bodies: seq<Bytes>): seq<Option<Bytes>> {
    if bodies == [] then [] else [Some(bodies[0])] + All(bodies[1..])
  }

  /** Any list of bodies within the limit is received in order, and nothing of what follows is touched. */
  lemma {:induction false} AllBodiesArrive(bodies: seq<Bytes>, tail: Bytes, maxLen: nat)
    requires maxLen < 0x1_0000_0000 && forall b | b in bodies :: 1 <= |b| <= maxLen
    ensures ParseMany(Wire(bodies) + tail, |bodies|, maxLen) == (All(bodies), tail)
  {
    hide Frame, Parse;
    if bodies == [] {
      assert Wire(bodies) + tail == tail;
    } else {
      assert bodies[0] in bodies && forall b | b in bodies[1..] :: b in bodies;
      FrameRoundTrip(bodies[0], Wire(bodies[1..]) + tail, maxLen);
      assert Wire(bodies) + tail == Frame(bodies[0]) + (Wire(bodies[1..]) + tail);
      AllBodiesArrive(bodies[1..], tail, maxLen);
    }
  }

  /** Bodies of 1 to 16384 bytes arrive at either end; the server also takes up to 65536, the node leaves
      anything longer in its stream. */
  lemma BothDirections(body: Bytes, rest: Bytes)
    requires |body| < 0x1_0000_0000
    ensures 1 <= |body| <= 16384 ==>
              (&& Parse(Frame(body) + rest, NET_MSG_MAX_LEN) == Parsed(Some(body), rest)
               && Parse(Frame(body) + rest, JSON_MAX_LEN) == Parsed(Some(body), rest))
    ensures 16384 < |body| <= 65536 ==>
              (&& Parse(Frame(body) + rest, NET_MSG_MAX_LEN) == Parsed(None, body + rest)
               && Parse(Frame(body) + rest, JSON_MAX_LEN) == Parsed(Some(body), rest))
    ensures |body| > 65536 ==> Parse(Frame(body) + rest, JSON_MAX_LEN) == Parsed(None, body + rest)
  {
    FrameRoundTrip(body, rest, NET_MSG_MAX_LEN);
    FrameRoundTrip(body, rest, JSON_MAX_LEN);
  }

  // ---------- the two ends ----------

  /** One direction of a connection: the bytes that were sent and not yet received. */
  class Stream {
    var wire: Bytes
    ghost var failures: nat  // how many sends have failed

    constructor ()
      ensures wire == [] && failures == 0
    {
      wire, failures := [], 0;
    }

    /** send(): any non-empty part of the data is taken, or the call fails. */
    method Send(data: Bytes) returns (n: int)
      requires data != []
      modifies this
      ensures if n <= 0 then wire == old(wire) else n <= |data| && wire == old(wire) + data[..n]
      ensures failures == if n <= 0 then old(failures) + 1 else old(failures)
    {
      n :| -1 <= n <= |data|;
      if n > 0 {
        wire := wire + data[..n];
      } else {
        failures := failures + 1;
      }
    }

    /** recv(): any non-empty part of what is there, at most `limit` bytes; nothing at the end. */
    method Recv(limit: nat) returns (chunk: Bytes)
      requires limit > 0
      modifies this
      ensures old(wire) == chunk + wire && |chunk| <= limit
      ensures chunk == [] <==> old(wire) == []
    {
      if wire == [] {
        return [];
      }
      var n: nat :| 1 <= n <= limit && n <= |wire|;
      chunk := wire[..n];
      wire := wire[n..];
    }

    /** send_all: it fails if and only if a send fails; on success everything has been sent once, on
        failure a prefix of it. */
    method SendAll(buf: Bytes) returns (ok: bool)
      modifies this
      ensures failures == if ok then old(failures) else old(failures) + 1
      ensures ok ==> wire == old(wire) + buf
      ensures exists k: nat :: k <= |buf| && wire == old(wire) + buf[..k]
    {
      var sent := 0;
      assert buf[..0] == [];
      while sent < |buf|
        invariant 0 <= sent <= |buf| && wire == old(wire) + buf[..sent] && failures == old(failures)
        decreases |buf| - sent
      {
        var n := Send(buf[sent..]);
        if n <= 0 {
          return false;
        }
        assert buf[..sent + n] == buf[..sent] + buf[sent..][..n];
        sent := sent + n;
      }
      assert buf[..|buf|] == buf;
      ok := true;
    }

    /** recv_all: fills the buffer from the front, or runs into the end of the stream. */
    method RecvAll(buf: array<bv8>) returns (ok: bool)
      modifies this, buf
      ensures ok == (|old(wire)| >= buf.Length)
      ensures ok ==> old(wire) == buf[..] + wire
      ensures !ok ==> wire == []
    {
      var got := 0;
      while got < buf.Length
        invariant 0 <= got <= buf.Length && old(wire) == buf[..got] + wire
        decreases buf.Length - got
      {
        var chunk := Recv(buf.Length - got);
        if chunk == [] {
          return false;
        }
        ghost var before := buf[..got];
        forall i | 0 <= i < |chunk| {
          buf[got + i] := chunk[i];
        }
        assert buf[..got + |chunk|] == before + chunk;
        got := got + |chunk|;
      }
      assert buf[..buf.Length] == buf[..];
      ok := true;
    }

    /** net_msg_send, on the printed message: whole, or cut off somewhere when sending fails. */
    method NetMsgSend(body: Bytes) returns (ok: bool)
      modifies this
      ensures failures == if ok then old(failures) else old(failures) + 1
      ensures ok ==> wire == old(wire) + Frame(body)
      ensures exists k: nat :: k <= |Frame(body)| && wire == old(wire) + Frame(body)[..k]
    {
      hide Be32;
      var hdr := Be32(|body|);
      ok := SendAll(hdr);
      if !ok {
        ghost var k: nat :| k <= |hdr| && wire == old(wire) + hdr[..k];
        assert Frame(body)[..k] == hdr[..k];
        return;
      }
      ghost var sent := wire;
      ok := SendAll(body);
      ghost var k: nat :| k <= |body| && wire == sent + body[..k];
      assert Frame(body)[..|hdr| + k] == hdr + body[..k];
    }

    /** net_msg_recv, up to the parsing of the text: however the stream was split, it returns what
        stands in it, and leaves what follows. */
    method NetMsgRecv() returns (body: Option<Bytes>)
      modifies this
      ensures Parsed(body, wire) == Parse(old(wire), NET_MSG_MAX_LEN)
    {
      hide Be32Value;
      var hdr := new bv8[4];
      var ok := RecvAll(hdr);
      if !ok {
        return None;
      }
      ghost var header := hdr[..];
      assert old(wire)[..4] == header && old(wire)[4..] == wire;
      var bodyLen := Be32Value(hdr[..]);
      if bodyLen == 0 || bodyLen > NET_MSG_MAX_LEN {
        return None;
      }
      ghost var rest := wire;
      var buf := new bv8[bodyLen];
      ok := RecvAll(buf);
      if !ok {
        return None;
      }
      assert buf[..] == rest[..bodyLen] == old(wire)[4..4 + bodyLen];
      assert wire == rest[bodyLen..] == old(wire)[4 + bodyLen..];
      body := Some(buf[..]);
    }

    /** send_json */
    method SendJson(body: Bytes) returns (ok: bool)
      modifies this
      ensures ok <==> |body| < 0x1_0000_0000 && failures == old(failures)
      ensures ok ==> wire == old(wire) + Frame(body)
      ensures |body| >= 0x1_0000_0000 ==> !ok && wire == old(wire)
      ensures exists k: nat :: k <= |Frame(body)| && wire == old(wire) + Frame(body)[..k]
    {
      assert Frame(body)[..0] == [];
      if |body| >= 0x1_0000_0000 {
        return false;
      }
      ok := SendAll(Be32(|body|) + body);
    }

    /** _recv_exact: None stands for the ConnectionError at the end of the stream. */
    method RecvExact(n: nat) returns (buf: Option<Bytes>)
      modifies this
      ensures buf.Some? == (|old(wire)| >= n)
      ensures buf.Some? ==> |buf.value| == n && old(wire) == buf.value + wire
      ensures buf.None? ==> wire == []
    {
      var got: Bytes := [];
      while |got| < n
        invariant |got| <= n && old(wire) == got + wire
        decreases n - |got|
      {
        var chunk := Recv(n - |got|);
        if chunk == [] {
          return None;
        }
        got := got + chunk;
      }
      buf := Some(got);
    }

    /** recv_json, up to the parsing of the text */
    method RecvJson() returns (body: Option<Bytes>)
      modifies this
      ensures Parsed(body, wire) == Parse(old(wire), JSON_MAX_LEN)
    {
      hide Be32Value;
      var hdr := RecvExact(4);
      if hdr.None? {
        return None;
      }
      assert old(wire)[..4] == hdr.value && old(wire)[4..] == wire;
      var length := Be32Value(hdr.value);
      if length == 0 || length > JSON_MAX_LEN {
        return None;
      }
      ghost var rest := wire;
      body := RecvExact(length);
      if body.Some? {
        assert body.value == rest[..length] == old(wire)[4..4 + length];
        assert wire == rest[length..] == old(wire)[4 + length..];
      }
    }
  }
}

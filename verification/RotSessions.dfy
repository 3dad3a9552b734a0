/**
  The two ends of the handshake as they run: one straight sequence of receives, checks and sends on
  either side, with an early exit at every failing check.
 */
module RotSessions {
  import opened Bits
  import opened Options
  import opened HandshakeSpec

  /** What the server does with a whole connection, on the messages the network delivers; a message
      that never arrives is None. */
  function ServerRun(c: Crypto, setup: Setup, hello: Option<Message>, challengeB: Bytes, ephSkB: Bytes,
                     response: Option<Message>): ServerSession {
    if hello.None? then NEW_SERVER.(failed := true) else
      var s := ServerOnHello(c, setup, NEW_SERVER, hello.value, challengeB, ephSkB);
      if s.failed then s
      else if response.None? then s.(failed := true)
      else ServerOnResponse(c, setup, s, response.value)
  }

  function DeviceRun(c: Crypto, d: DeviceSession, challenge: Option<Message>, ack: Option<Message>): DeviceSession {
    if challenge.None? then d.(failed := true) else
      var accepted := DeviceOnChallenge(c, d, challenge.value);
      if accepted.accepted.None? || accepted.failed then accepted
      else if ack.None? then accepted.(failed := true)
      else DeviceOnAck(c, accepted, ack.value)
  }

  class RotSession {
    const c: Crypto
    const setup: Setup
    var keyAb: Option<Bytes>
    var authenticated: bool

    constructor (c: Crypto, setup: Setup)
      ensures this.c == c && this.setup == setup && keyAb == None && !authenticated
    {
      this.c, this.setup := c, setup;
      keyAb, authenticated := None, false;
    }

    /** _handshake: the key is set, and the acknowledgement sent, only after the signature over the
        whole transcript has verified.  What cannot be decoded raises an error that tells the device
        nothing; every other refusal sends it an error message. */
    method Handshake(hello: Option<Message>, challengeB: Bytes, ephSkB: Bytes, response: Option<Message>)
      returns (ok: bool, sent: seq<Message>)
      requires keyAb == None && !authenticated
      modifies this`keyAb, this`authenticated
      ensures var s := ServerRun(c, setup, hello, challengeB, ephSkB, response);
              && ok == authenticated == s.Authenticated() && keyAb == s.key
              && (s.begun.None? ==> sent == if HelloRaises(setup, hello) then [] else [Error])
              && (s.begun.Some? ==>
                    1 <= |sent| <= 2 && sent[0] == ServerChallenge(c, setup, s.begun.value)
                    && sent[1..] == if ok then [SessionAck] else if ResponseRaises(response) then [] else [Error])
    {
      ok, sent := false, [];
      if hello.None? {
        return;
      }
      var m := hello.value;
      if !m.Hello? {
        sent := [Error];
        return;
      }
      if |m.idA| != ID_LEN || |m.challengeA| != CHALLENGE_LEN {
        return;
      }
      if m.idA !in setup.registry {
        sent := [Error];
        return;
      }
      var entry := setup.registry[m.idA];
      if |entry.pkA| != PUBKEY_LEN || |entry.shsB| != DIGEST_LEN {
        return;
      }
      if !c.validPoint(entry.pkA) {
        sent := [Error];
        return;
      }
      var ephPkB := c.point(ephSkB);
      var serverProof := c.hash(entry.shsB + m.challengeA + ephPkB);
      sent := [Challenge(setup.idB, challengeB, ephPkB, serverProof)];
      if response.None? {
        return;
      }
      var r := response.value;
      if !r.Response? {
        sent := sent + [Error];
        return;
      }
      if |r.ephPkA| != PUBKEY_LEN {
        return;
      }
      if !c.validPoint(r.ephPkA) {
        sent := sent + [Error];
        return;
      }
      var msgHash := c.hash(DOMAIN_TAG + m.idA + setup.idB + challengeB + m.challengeA + r.ephPkA + ephPkB
                            + serverProof);
      if !c.verify(entry.pkA, msgHash, r.deviceProof) {
        sent := sent + [Error];
        return;
      }
      keyAb := Some(c.hash(c.shared(ephSkB, r.ephPkA) + entry.shsB + m.challengeA + challengeB));
      authenticated := true;
      sent := sent + [SessionAck];
      ok := true;
    }
  }

  /** The connection ends, or a field of the hello or of the node's record has a wrong length. */
  predicate HelloRaises(setup: Setup, hello: Option<Message>) {
    hello.None? || (hello.value.Hello? &&
                    var m := hello.value;
                    || |m.idA| != ID_LEN || |m.challengeA| != CHALLENGE_LEN
                    || (m.idA in setup.registry
                        && (|setup.registry[m.idA].pkA| != PUBKEY_LEN || |setup.registry[m.idA].shsB| != DIGEST_LEN)))
  }

  predicate ResponseRaises(response: Option<Message>) {
    response.None? || (response.value.Response? && |response.value.ephPkA| != PUBKEY_LEN)
  }

  /** rot_session_handshake: the device signs nothing before the server's proof has been checked. */
  method DeviceHandshake(c: Crypto, node: Node, challengeA: Bytes, ephSkA: Bytes, challenge: Option<Message>,
                         ack: Option<Message>)
    returns (result: bool, keyAb: Option<Bytes>, sent: seq<Message>)
    ensures var d := DeviceRun(c, DeviceStart(node, challengeA, ephSkA), challenge, ack);
            && result == d.key.Some? && keyAb == d.key
            && sent == [DeviceHello(d)] + if d.accepted.Some? then [DeviceResponse(c, d)] else []
  {
    result, keyAb := false, None;
    sent := [Hello(node.idA, challengeA)];
    if challenge.None? {
      return;
    }
    var m := challenge.value;
    if !m.Challenge? || |m.idB| != ID_LEN || |m.challengeB| != CHALLENGE_LEN || |m.ephPkB| != PUBKEY_LEN
       || |m.serverProof| != DIGEST_LEN {
      return;
    }
    if m.idB != node.idB {
      return;
    }
    if m.serverProof != c.hash(node.shsB + challengeA + m.ephPkB) {
      return;
    }
    var ephPkA := c.point(ephSkA);
    var msgHash := c.hash(DOMAIN_TAG + node.idA + m.idB + m.challengeB + challengeA + ephPkA + m.ephPkB
                          + m.serverProof);
    sent := sent + [Response(ephPkA, c.sign(node.skA, msgHash))];
    if ack.None? || !ack.value.SessionAck? {
      return;
    }
    if !c.validPoint(m.ephPkB) {
      return;
    }
    keyAb := Some(c.hash(c.shared(ephSkA, m.ephPkB) + node.shsB + challengeA + m.challengeB));
    result := true;
  }

  // ---------- which messages lead to a key ----------

  /** A device completes on exactly these two messages: a challenge under the pinned identifier whose
      proof holds for the pinned verifier, its own challenge and that ephemeral key, and then an
      acknowledgement.  Nothing else, and no error message, gives it a key. */
  lemma DeviceCompletesIff(c: Crypto, node: Node, challengeA: Bytes, ephSkA: Bytes, challenge: Option<Message>,
                           ack: Option<Message>)
    ensures var d := DeviceRun(c, DeviceStart(node, challengeA, ephSkA), challenge, ack);
            && (d.key.Some? <==>
                  && challenge.Some? && challenge.value.Challenge?
                  && |challenge.value.idB| == 16 && |challenge.value.challengeB| == 16
                  && |challenge.value.ephPkB| == 65 && |challenge.value.serverProof| == 32
                  && challenge.value.idB == node.idB
                  && challenge.value.serverProof == c.hash(node.shsB + challengeA + challenge.value.ephPkB)
                  && ack == Some(SessionAck) && c.validPoint(challenge.value.ephPkB))
            && (d.key.Some? ==>
                  d.key.value == c.hash(c.shared(ephSkA, challenge.value.ephPkB) + node.shsB + challengeA
                                        + challenge.value.challengeB))
  {
  }

  /** The server authenticates on exactly these two messages: the hello of a node whose record decodes,
      and then a signature under the registered key over everything that was exchanged. */
  lemma ServerCompletesIff(c: Crypto, setup: Setup, hello: Option<Message>, challengeB: Bytes, ephSkB: Bytes,
                           response: Option<Message>)
    ensures var s := ServerRun(c, setup, hello, challengeB, ephSkB, response);
            && (s.key.Some? <==>
                  && hello.Some? && hello.value.Hello? && |hello.value.idA| == 16 && |hello.value.challengeA| == 16
                  && hello.value.idA in setup.registry
                  && var entry := setup.registry[hello.value.idA];
                  && |entry.pkA| == 65 && |entry.shsB| == 32 && c.validPoint(entry.pkA)
                  && response.Some? && response.value.Response? && |response.value.ephPkA| == 65
                  && c.validPoint(response.value.ephPkA)
                  && var proof := c.hash(entry.shsB + hello.value.challengeA + c.point(ephSkB));
                  c.verify(entry.pkA,
                           c.hash(DOMAIN_TAG + hello.value.idA + setup.idB + challengeB + hello.value.challengeA
                                  + response.value.ephPkA + c.point(ephSkB) + proof),
                           response.value.deviceProof))
            && (s.key.Some? ==>
                  s.key.value == c.hash(c.shared(ephSkB, response.value.ephPkA) + setup.registry[hello.value.idA].shsB
                                        + hello.value.challengeA + challengeB))
  {
  }
}

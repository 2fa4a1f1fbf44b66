/**
 * What a hello does that reaches the wrong role on an established connection. A client that takes a ClientHello
 * can be led back to CONNECTED without any key derivation; a server that takes a HelloRequest derives keys twice in
 * one handshake, the second time from the master secret in place of the random values.
 */
module Crossing {
  import opened Bytes
  import opened CcmSpec
  import opened Prf
  import opened Peers
  import opened RecordSpec
  import opened Datagram
  import opened Reorder
  import opened Hello
  import opened Engine
  import opened Transport
  import opened Order

  // ---------------------------------------------------------------- what can go wrong

  function Front(s: seq<byte>): seq<byte> {
    if |s| >= 32 then s[..32] else s
  }

  /** A derivation has taken the master secret of an earlier one for the random values. */
  ghost predicate Misread(t: seq<Milestone>) {
    exists i, j :: 0 <= i < j < |t| && t[i].KeysDerived? && t[j].KeysDerived? && t[j].client == Front(t[i].master)
  }

  /**
   * Connected without having gone through a handshake, or with a handshake that misread its storage: in a handshake
   * that is not on record as begun by a hello of the other role.
   */
  ghost predicate Broken(c: Config, e: Endpoint) {
    && e.known
    && ((e.state == Connected && !e.doneCrossed && !Complete(c.hash, e.role, e.done))
        || (e.hs.Some? && !e.hs.value.crossed && Misread(e.hs.value.trail)))
  }

  lemma ProgressReadsOnce(h: Hash, role: Role, t: seq<Milestone>)
    requires Progress(h, role, t)
    ensures !Misread(t)
  {
    hide MasterSecret, VerifyData;
  }

  lemma OrderedUnbroken(c: Config, e: Endpoint)
    requires InOrder(c, e)
    ensures !Broken(c, e)
  {
    hide Progress, Phase, Misread;
    if e.known && e.hs.Some? && !e.hs.value.crossed { ProgressReadsOnce(c.hash, e.role, e.hs.value.trail); }
  }

  // ---------------------------------------------------------------- the connection, the hello, the environment

  /** An established connection in order. A handshake may be pending, such as dtls_renegotiate leaves on a server, if `m` is its next message. */
  ghost predicate Settled(c: Config, e: Endpoint, m: Message) {
    && Ciphered(e) && e.state == Connected && InOrder(c, e) && !e.doneCrossed
    && (e.hs.Some? ==> !e.hs.value.crossed && Queue(e) == [] && MessageSeq(m) == e.hs.value.mseqR)
  }

  /** Callbacks that succeed, with bodies that fit into a record. */
  ghost predicate Willing(w: World) {
    && Perfect(w)
    && (forall n, q :: w.psk(n, q).Given? && |w.psk(n, q).value| <= 18)
    && (forall n :: var x := w.ecc(n);
          x.key >= 0 && x.verdict >= 0 && |x.certificate| <= 167 && |x.exchange| <= 167 && |x.verify| <= 167)
  }

  /** The role a hello is meant for. */
  function Addressee(m: Message): Role {
    if m[0] == 1 then Server else Client
  }

  /** The endpoint that looks at a message which has just been decrypted. */
  function Receiving(e: Endpoint): Endpoint { FreedOther(Tick(e)) }

  /** Every HelloRequest, and a ClientHello with a good cookie and a suite this host knows. */
  predicate Acceptable(c: Config, w: World, e: Endpoint, m: Message) {
    m[0] == 0 || (m[0] == 1 && VerifyPeer(c.hash, c.secret, c.session, Received(w, e, m)) == Hello.Good
                  && UpdateParameters(c, w, Admitted(e, m), m).err >= 0)
  }

  /** A record from the other side, under the keys in use. */
  function Letter(c: Config, e: Endpoint, ctype: byte, payload: seq<byte>): Event {
    Arrives(Protect(c.aes, Other(e.role), e.s0, ctype, payload))
  }

  /** Striking from the record which role the hello was meant for, so that a failure counts. */
  function Acquitted(e: Endpoint): Endpoint {
    if e.hs.Some? then e.With(e.hs.value.(crossed := false)) else e
  }

  /** The suite a ClientHello leads to. */
  function Chosen(c: Config, w: World, e: Endpoint, m: Message): uint16 {
    UpdateParameters(c, w, Admitted(e, m), m).e.hs.value.cipher
  }

  /** A host that asks the client for proof under this suite. */
  predicate Demanding(c: Config, cipher: uint16) {
    cipher == ECDHE_CIPHER && c.ownKey && c.verifiesKey
  }

  /**
   * The hellos that do harm: meant for the other role and, if a ClientHello, not followed by a demand for a
   * certificate, if a HelloRequest, at a host that can be offered a pre-shared key.
   */
  predicate Harmful(c: Config, w: World, e: Endpoint, m: Message) {
    e.role != Addressee(m) && if m[0] == 1 then !Demanding(c, Chosen(c, w, e, m)) else c.psk
  }

  ghost predicate Ciphered(e: Endpoint) {
    e.known && e.s0.Some? && e.s0.value.cipher != NULL_CIPHER
  }

  // ---------------------------------------------------------------- records arriving

  lemma ReceivingIs(e: Endpoint)
    ensures var a := Receiving(e); a == Tick(e).(s1 := a.s1)
  {
  }

  lemma LetterRead(c: Config, w: World, e: Endpoint, ctype: byte, payload: seq<byte>)
    requires Ciphered(e) && |payload| <= MAX_BUF
    ensures Step(c, w, e, Letter(c, e, ctype, payload)) == HandlePayload(c, w, Receiving(e), ctype, e.s0.value.epoch, payload).e
  {
    hide Protect, HandlePayload, HandleMessage, FreedOther;
    Carried(c, w, e, Other(e.role), e.s0.value, e.s0.value, ctype, payload);
  }

  /** The next message of a handshake. */
  lemma MessageArrives(c: Config, w: World, e: Endpoint, m: Message)
    requires Ciphered(e) && e.hs.Some? && Queue(e) == [] && MessageSeq(m) == e.hs.value.mseqR && |m| <= MAX_BUF
    requires !(e.role == Server && e.state == WaitFinished) && HandleHandshakeMsg(c, w, Receiving(e), m).err >= 0
    ensures Step(c, w, e, Letter(c, e, HANDSHAKE, m)) == HandleHandshakeMsg(c, w, Receiving(e), m).e
  {
    hide Step, HandlePayload, HandleHandshakeMsg, MessageSeq;
    LetterRead(c, w, e, HANDSHAKE, m);
    InTurn(c, w, Receiving(e), e.s0.value.epoch, m);
  }

  /** A hello on an established connection. */
  lemma HelloArrives(c: Config, w: World, e: Endpoint, m: Message)
    requires Ciphered(e) && e.state == Connected && (m[0] == 0 || m[0] == 1) && |m| <= MAX_BUF
    requires e.hs.Some? ==> Queue(e) == [] && MessageSeq(m) == e.hs.value.mseqR
    requires HandleHandshakeMsg(c, w, Receiving(e), m).err >= 0
    ensures Step(c, w, e, Letter(c, e, HANDSHAKE, m)) == HandleHandshakeMsg(c, w, Receiving(e), m).e
  {
    hide Step, HandleHandshakeMsg, MessageSeq;
    if e.hs.Some? { MessageArrives(c, w, e, m); } else {
      hide HandlePayload, Receiving;
      LetterRead(c, w, e, HANDSHAKE, m);
      ReceivingIs(e);
      OutsideHandshake(c, w, Receiving(e), e.s0.value.epoch, m);
    }
  }

  lemma OutsideHandshake(c: Config, w: World, e: Endpoint, epoch: uint16, m: Message)
    requires e.known && e.hs.None? && (m[0] == 0 || m[0] == 1) && RightEpoch(e, epoch) && HandleHandshakeMsg(c, w, e, m).err >= 0
    ensures HandlePayload(c, w, e, HANDSHAKE, epoch, m).e == HandleHandshakeMsg(c, w, e, m).e
  {
    hide HandleHandshakeMsg, DrainQueue, MessageSeq;
  }

  lemma ChangeArrives(c: Config, w: World, e: Endpoint)
    requires Ciphered(e) && HandleCcs(c, w, Receiving(e), [1]).err >= 0
    ensures Step(c, w, e, Letter(c, e, CHANGE_CIPHER_SPEC, [1])) == HandleCcs(c, w, Receiving(e), [1]).e
  {
    hide Step, HandleCcs;
    LetterRead(c, w, e, CHANGE_CIPHER_SPEC, [1]);
  }

  lemma ThreeEvents(c: Config, w: World, e: Endpoint, a: Event, b: Event, d: Event)
    ensures RunFrom(c, w, e, [a, b, d]) == Step(c, w, Step(c, w, Step(c, w, e, a), b), d)
  {
    hide Step;
    var vs := [a, b, d];
    assert vs[..2] == [a, b] && [a, b][..1] == [a] && [a][..0] == [];
    assert RunFrom(c, w, e, []) == e && RunFrom(c, w, e, [a]) == Step(c, w, e, a);
    assert RunFrom(c, w, e, [a, b]) == Step(c, w, RunFrom(c, w, e, [a]), b);
  }

  // ---------------------------------------------------------------- the hello is taken

  lemma HandshakeSent(c: Config, w: World, e: Endpoint, kind: byte, body: seq<byte>, addHash: bool)
    requires Perfect(w) && |body| <= 167
    ensures SendHandshake(c, w, e, kind, body, addHash).err >= 0
  {
    hide SendHandshake, Posted, Counted, HandshakeMessage;
    HandshakePosts(c, w, e, kind, body, addHash);
  }

  lemma FlightSent(c: Config, w: World, e: Endpoint)
    requires Willing(w) && e.hs.Some?
    ensures SendServerHelloMessages(c, w, e).err == 0
  {
    hide SendHandshake, SendServerHello, SendKeyMaterial, Willing, SameBut;
    HelloSent(c, w, e);
    var r1 := SendServerHello(c, w, e);
    MaterialSent(c, w, r1.e, e.hs.value.cipher);
    WillingPerfect(w);
    HandshakeSent(c, w, SendKeyMaterial(c, w, r1.e, e.hs.value.cipher).e, 14, [], true);
  }

  lemma WillingPerfect(w: World)
    requires Willing(w)
    ensures Perfect(w)
  {
  }

  lemma HelloSent(c: Config, w: World, e: Endpoint)
    requires Willing(w) && e.hs.Some?
    ensures SendServerHello(c, w, e).err >= 0
  {
    hide SendHandshake, ServerHelloBody;
    var h, random := e.hs.value, w.random(e.clock);
    HelloBodyFits(h.cipher, random);
    HandshakeSent(c, w, e.With(h.(tmp := h.tmp[..32] + random)), 2, ServerHelloBody(h.cipher, random), true);
  }

  lemma HelloBodyFits(cipher: uint16, random: Random)
    ensures |ServerHelloBody(cipher, random)| <= 167
  {
    hide BigEndian;
  }

  lemma MaterialSent(c: Config, w: World, e: Endpoint, cipher: uint16)
    requires Willing(w)
    ensures SendKeyMaterial(c, w, e, cipher).err >= 0
  {
    hide SendHandshake, SendCertificate;
    var reply := w.psk(e.clock, Hint);
    HandshakeSent(c, w, e, 12, BigEndian(|reply.value|, 2) + reply.value, true);
    CertificateSent(c, w, e);
    var r1 := SendCertificate(c, w, e);
    HandshakeSent(c, w, r1.e, 12, w.ecc(r1.e.clock).exchange, true);
    var r2 := SendHandshake(c, w, r1.e, 12, w.ecc(r1.e.clock).exchange, true);
    HandshakeSent(c, w, r2.e, 13, [1, 64, 0, 2, 4, 3, 0, 0], true);
  }

  lemma CertificateSent(c: Config, w: World, e: Endpoint)
    requires Willing(w)
    ensures SendCertificate(c, w, e).err >= 0
  {
    hide SendHandshake;
    HandshakeSent(c, w, e, 11, w.ecc(e.clock).certificate, true);
  }

  /** The connection after the hello: waiting for the client's next message, with the hello exchange on record. */
  ghost predicate TookClientHello(c: Config, e: Endpoint, f: Endpoint, cipher: uint16) {
    && f == e.(state := f.state, s0 := f.s0, hs := f.hs, clock := f.clock, sent := f.sent)
    && f.state == (if Demanding(c, cipher) then WaitClientCertificate else WaitClientKeyExchange)
    && SameSlot(e.s0, f.s0) && f.hs.Some? && f.hs.value.cipher == cipher && f.hs.value.queue == []
    && f.hs.value.crossed == (e.role == Client)
    && f.hs.value.trail == [HelloExchanged(f.hs.value.tmp[..32], f.hs.value.tmp[32..])]
  }

  /** No handshake is pending, or one that nothing has happened in. */
  ghost predicate Untouched(e: Endpoint) {
    e.hs.Some? ==> !e.hs.value.crossed && e.hs.value.queue == [] && e.hs.value.trail == []
  }

  lemma ClientHelloTaken(c: Config, w: World, e: Endpoint, m: Message)
    requires Willing(w) && e.known && e.state == Connected && Untouched(e)
    requires m[0] == 1 && Acceptable(c, w, Tick(e), m)
    ensures var r := HandleHandshakeMsg(c, w, e, m); r.err >= 0 && TookClientHello(c, e, r.e, Chosen(c, w, Tick(e), m))
  {
    hide VerifyPeer, UpdateParameters, SendServerHelloMessages, MessageSeq, Willing;
    var a := Admitted(Tick(e), m);
    var r1 := UpdateParameters(c, w, a, m);
    FlightSent(c, w, Absorbed(r1.e, m));
    var r2 := SendServerHelloMessages(c, w, Absorbed(r1.e, m));
    var h := r2.e.hs.value;
    assert [] + [HelloExchanged(h.tmp[..32], h.tmp[32..])] == [HelloExchanged(h.tmp[..32], h.tmp[32..])];
  }

  ghost predicate TookHelloRequest(e: Endpoint, f: Endpoint) {
    && f == e.(state := ClientHelloSent, s0 := f.s0, hs := f.hs, clock := f.clock, sent := f.sent)
    && SameSlot(e.s0, f.s0) && f.hs.Some? && f.hs.value.queue == [] && f.hs.value.trail == []
    && f.hs.value.crossed == (e.role == Server)
  }

  lemma HelloRequestTaken(c: Config, w: World, e: Endpoint, m: Message)
    requires Willing(w) && e.known && e.state == Connected && Untouched(e) && m[0] == 0
    ensures var r := HandleHandshakeMsg(c, w, e, m); r.err >= 0 && TookHelloRequest(e, r.e)
  {
    hide SendHandshake, ClientHelloBody, VerifyPeer;
    var e1 := HelloReady(w, HelloRequested(Tick(e)), []);
    var random := e1.hs.value.tmp[..32];
    HelloFits(c, random);
    HandshakeSent(c, w, e1, 1, ClientHelloBody(c.psk, c.verifiesKey, random, []), false);
  }

  lemma HelloFits(c: Config, random: Random)
    ensures |ClientHelloBody(c.psk, c.verifiesKey, random, [])| <= 167
  {
    hide BigEndian;
  }

  // ---------------------------------------------------------------- a client that has taken a ClientHello

  function EmptyExchange(e: Endpoint, m: Message): Endpoint
    requires e.hs.Some?
  {
    var h := e.hs.value;
    e.With(h.(transcript := h.transcript + m, trail := h.trail + [KeyExchanged], mseqR := Next(h.mseqR)))
      .In(WaitChangeCipherSpec).(clock := e.clock + 1)
  }

  /** A ClientKeyExchange that names the empty identity, or nothing that is looked at. */
  lemma TakesExchange(c: Config, w: World, e: Endpoint, k: uint16)
    requires Willing(w) && e.known && e.state == WaitClientKeyExchange && e.hs.Some? && !Demanding(c, e.hs.value.cipher)
    ensures var m := Msg(16, k, BigEndian(0, 2) + []); var r := HandleHandshakeMsg(c, w, e, m);
      r == Outcome(EmptyExchange(e, m).With(EmptyExchange(e, m).hs.value.(pskId := r.e.hs.value.pskId)), 0)
  {
    hide CheckClientKeyExchange, HandshakeHeader, BigEndian, MessageSeq, Willing;
    FirstIs(16, k, BigEndian(0, 2) + []);
    ExchangePasses(w, Tick(e), k);
  }

  lemma ExchangePasses(w: World, e: Endpoint, k: uint16)
    requires Willing(w) && e.hs.Some?
    ensures CheckClientKeyExchange(w, e, Msg(16, k, BigEndian(0, 2) + [])).err == 0
  {
    hide ShortField, HandshakeHeader, BigEndian;
    FieldReads(16, k, [], Fatal(HANDSHAKE_FAILURE));
    Judges(w, e, Msg(16, k, BigEndian(0, 2) + []));
  }

  lemma Judges(w: World, e: Endpoint, m: Message)
    requires Willing(w) && e.hs.Some?
    ensures Judged(w, e, m).err == 0
  {
    assert w.ecc(e.clock).verdict >= 0;
  }

  lemma PassesCcs(c: Config, w: World, e: Endpoint)
    requires e.known && e.role == Client && e.state == WaitChangeCipherSpec && e.hs.Some?
    ensures HandleCcs(c, w, e, [1]) == Outcome(e.With(e.hs.value.(trail := e.hs.value.trail + [CipherChanged])).In(WaitFinished), 0)
  {
  }

  /** The Finished that whoever knows the shared storage and the transcript can make. */
  function FinishedFor(c: Config, e: Endpoint, k: uint16): Message
    requires e.hs.Some?
  {
    Msg(20, k, VerifyData(c.hash, e.hs.value.tmp[..48], Server, e.hs.value.transcript))
  }

  lemma TakesFinished(c: Config, w: World, e: Endpoint, k: uint16)
    requires e.known && e.role == Client && e.state == WaitFinished && e.hs.Some?
    ensures var r := HandleHandshakeMsg(c, w, e, FinishedFor(c, e, k));
      && r.err >= 0 && r.e.known && r.e.role == Client && r.e.state == Connected && r.e.doneCrossed == e.hs.value.crossed
      && |r.e.done| == |e.hs.value.trail| + 1
  {
    hide VerifyData, HandshakeHeader, MessageSeq;
    var v := VerifyData(c.hash, e.hs.value.tmp[..48], Server, e.hs.value.transcript);
    FirstIs(20, k, v);
    assert Msg(20, k, v)[12..24] == Msg(20, k, v)[12..];
  }

  /** Three records from whoever holds the current keys, and the client is connected again, no key having been derived. */
  lemma ClientLedBack(c: Config, w: World, e: Endpoint) returns (vs: seq<Event>)
    requires Willing(w) && Ciphered(e) && e.role == Client && e.state == WaitClientKeyExchange
    requires e.hs.Some? && !Demanding(c, e.hs.value.cipher) && Queue(e) == [] && |e.hs.value.trail| == 1
    ensures var g := RunFrom(c, w, e, vs); g.known && g.doneCrossed == e.hs.value.crossed && g.role == Client && g.state == Connected && !Complete(c.hash, Client, g.done)
  {
    hide Step, VerifyData, HandshakeHeader, HandleHandshakeMsg, HandleCcs, MessageSeq, BigEndian, Complete, RunFrom, Receiving,
      Misread, Letter;
    ReceivingIs(e);
    var k := e.hs.value.mseqR;
    var m := Msg(16, k, BigEndian(0, 2) + []);
    FirstIs(16, k, BigEndian(0, 2) + []);
    TakesExchange(c, w, Receiving(e), k);
    MessageArrives(c, w, e, m);
    var e1 := HandleHandshakeMsg(c, w, Receiving(e), m).e;
    ReceivingIs(e1);
    PassesCcs(c, w, Receiving(e1));
    ChangeArrives(c, w, e1);
    var e2 := HandleCcs(c, w, Receiving(e1), [1]).e;
    ReceivingIs(e2);
    FirstIs(20, e2.hs.value.mseqR, VerifyData(c.hash, e2.hs.value.tmp[..48], Server, e2.hs.value.transcript));
    TakesFinished(c, w, Receiving(e2), e2.hs.value.mseqR);
    var f := FinishedFor(c, e2, e2.hs.value.mseqR);
    MessageArrives(c, w, e2, f);
    vs := [Letter(c, e, HANDSHAKE, m), Letter(c, e1, CHANGE_CIPHER_SPEC, [1]), Letter(c, e2, HANDSHAKE, f)];
    ThreeEvents(c, w, e, vs[0], vs[1], vs[2]);
    TooShort(c.hash, Client, RunFrom(c, w, e, vs).done);
  }

  lemma TooShort(h: Hash, role: Role, t: seq<Milestone>)
    requires |t| != 6
    ensures !Complete(h, role, t)
  {
    hide Progress;
  }

  // ---------------------------------------------------------------- a server that has taken a HelloRequest

  /** What a derivation reads, and what it leaves. */
  lemma DerivedFrom(c: Config, w: World, e: Endpoint)
    requires e.hs.Some? && e.hs.value.cipher == PSK_CIPHER
    requires var reply := w.psk(e.clock, Key(e.hs.value.pskId)); reply.Given? && |reply.value| <= 18
    ensures var r := CalculateKeyBlock(c, w, e); var h := e.hs.value;
      && r.err == 0 && r.e.hs.Some? && r.e.s1.Some? && r.e.s1.value.cipher == PSK_CIPHER
      && r.e.s1.value.epoch == NextParams(e).s1.value.epoch && r.e.hs.value.wrapped == LastEpoch(e)
      && |r.e.hs.value.trail| == |h.trail| + 1 && r.e.hs.value.trail[..|h.trail|] == h.trail
      && var d := r.e.hs.value.trail[|h.trail|];
      && d.KeysDerived? && d.client == h.tmp[..32] && |d.master| == 48 && r.e.hs.value.tmp[..48] == d.master
      && r.e.hs.value == h.(tmp := r.e.hs.value.tmp, trail := r.e.hs.value.trail, wrapped := r.e.hs.value.wrapped)
  {
    hide MasterSecret, KeyBlockOf;
    KeyBlockRoom(w.psk(e.clock, Key(e.hs.value.pskId)).value);
  }

  /** ServerHello: the client's half of a handshake goes on in an endpoint that is a server. */
  lemma TakesServerHello(c: Config, w: World, e: Endpoint, k: uint16)
    requires c.psk && e.known && e.state == ClientHelloSent && e.hs.Some? && e.hs.value.trail == []
    ensures var r := HandleHandshakeMsg(c, w, e, Msg(2, k, ServerHelloBody(PSK_CIPHER, Zeros(32)))); var h := e.hs.value;
      && r.err >= 0 && r.e.hs.Some?
      && r.e == e.(state := WaitServerHelloDone, clock := e.clock + 1, hs := r.e.hs)
      && r.e.hs.value == h.(transcript := r.e.hs.value.transcript, tmp := r.e.hs.value.tmp, cipher := PSK_CIPHER,
                            trail := r.e.hs.value.trail, mseqR := Next(h.mseqR))
      && |r.e.hs.value.trail| == 1
  {
    hide ServerHelloBody, HandshakeHeader, CheckServerHello, MessageSeq;
    FirstIs(2, k, ServerHelloBody(PSK_CIPHER, Zeros(32)));
    ServerHelloRead(c, w, Tick(e), k, Zeros(32));
  }

  lemma ExchangeSent(c: Config, w: World, e: Endpoint)
    requires Willing(w) && e.hs.Some? && e.hs.value.cipher == PSK_CIPHER
    ensures var r := SendKeyExchangeFlight(c, w, e); r.err >= 0 && r.e.hs.value.trail == e.hs.value.trail + [KeyExchanged]
  {
    hide SendHandshake, SendCertificate, SendClientKeyExchange, SameBut, Willing;
    CertificateSent(c, w, e);
    var auth := e.hs.value.clientAuth;
    SendingKeeps(e, e);
    var r1 := if auth then SendCertificate(c, w, e) else Outcome(e, 0);
    if auth { SendingKeeps(e, r1.e); }
    IdentitySent(c, w, r1.e);
    var r2 := SendClientKeyExchange(c, w, r1.e);
    SendingKeeps(r1.e.With(r1.e.hs.value.(pskId := r2.e.hs.value.pskId)), r2.e);
    var e2 := r2.e.With(r2.e.hs.value.(trail := r2.e.hs.value.trail + [KeyExchanged]));
    ProofSent(c, w, e2);
    SendingKeeps(e2, SendHandshake(c, w, e2, 15, w.ecc(e2.clock).verify, true).e);
  }

  lemma IdentitySent(c: Config, w: World, e: Endpoint)
    requires Willing(w) && e.hs.Some? && e.hs.value.cipher == PSK_CIPHER
    ensures SendClientKeyExchange(c, w, e).err >= 0
  {
    hide SendHandshake;
    var reply := w.psk(e.clock, Identity(e.hs.value.pskId));
    HandshakeSent(c, w, e.With(e.hs.value.(pskId := reply.value)), 16, BigEndian(|reply.value|, 2) + reply.value, true);
  }

  lemma ProofSent(c: Config, w: World, e: Endpoint)
    requires Willing(w)
    ensures SendHandshake(c, w, e, 15, w.ecc(e.clock).verify, true).err >= 0
  {
    hide SendHandshake;
    HandshakeSent(c, w, e, 15, w.ecc(e.clock).verify, true);
  }

  lemma ChangeSent(c: Config, w: World, e: Endpoint)
    requires Perfect(w)
    ensures Send(c, w, e, CHANGE_CIPHER_SPEC, [1]).err >= 0
  {
    hide Send, Posted;
    SendPosts(c, w, e, CHANGE_CIPHER_SPEC, [1]);
  }

  lemma AnswerSent(c: Config, w: World, e: Endpoint)
    requires Perfect(w) && e.hs.Some?
    ensures var r := SendServerFinished(c, w, e); var h := e.hs.value;
      && r.err >= 0 && r.e == e.(s0 := r.e.s0, s1 := r.e.s1, hs := r.e.hs, clock := r.e.clock, sent := r.e.sent)
      && SameSlot(e.s1, r.e.s0) && |r.e.hs.value.trail| == |h.trail| + 1 && r.e.hs.value.trail[..|h.trail|] == h.trail
      && r.e.hs.value == h.(mseqS := r.e.hs.value.mseqS, transcript := r.e.hs.value.transcript, trail := r.e.hs.value.trail)
  {
    hide Send, SendHandshake, VerifyData;
    ChangeSent(c, w, e);
    var f := Switched(Send(c, w, e, CHANGE_CIPHER_SPEC, [1]).e);
    var h := f.hs.value;
    var f1 := f.With(h.(trail := h.trail + [OwnFinished(c, f)]));
    HandshakeSent(c, w, f1, 20, VerifyData(c.hash, h.tmp[..48], f.role, h.transcript), true);
  }

  /** What ServerHelloDone leaves: keys derived, the master secret in the shared storage, and the wait for ChangeCipherSpec. */
  ghost predicate DerivedOnce(e: Endpoint, f: Endpoint) {
    && f.known && f.role == e.role && f.state == WaitChangeCipherSpec
    && f.hs.Some? && f.hs.value.queue == Queue(e) && f.hs.value.cipher == PSK_CIPHER
    && (e.hs.Some? ==> f.hs.value.crossed == e.hs.value.crossed) && f.s0.Some? && f.s0.value.cipher == PSK_CIPHER
    && var t := f.hs.value.trail;
    |t| == 4 && t[2].KeysDerived? && |t[2].master| == 48 && f.hs.value.tmp[..48] == t[2].master
  }

  lemma DerivesOnHelloDone(c: Config, w: World, e: Endpoint, m: Message)
    requires Willing(w) && e.known && e.state == WaitServerHelloDone && e.hs.Some? && m[0] == 14
    requires e.hs.value.cipher == PSK_CIPHER && |e.hs.value.trail| == 1
    ensures var r := HandleHandshakeMsg(c, w, e, m); r.err >= 0 && DerivedOnce(e, r.e)
  {
    hide OnServerHelloDone, Willing;
    HandlesHelloDone(c, w, Tick(e), m);
    Dispatched(c, w, e, m);
  }

  lemma Dispatched(c: Config, w: World, e: Endpoint, m: Message)
    requires e.known && e.hs.Some? && m[0] == 14
    ensures HandleHandshakeMsg(c, w, e, m) == OnServerHelloDone(c, w, Tick(e), m)
  {
    hide OnServerHelloDone;
  }

  lemma HandlesHelloDone(c: Config, w: World, e: Endpoint, m: Message)
    requires Willing(w) && e.known && e.state == WaitServerHelloDone && e.hs.Some?
    requires e.hs.value.cipher == PSK_CIPHER && |e.hs.value.trail| == 1
    ensures var r := OnServerHelloDone(c, w, e, m); r.err >= 0 && DerivedOnce(e, r.e)
  {
    hide CheckServerHelloDone, Willing;
    ChecksHelloDone(c, w, e, m);
  }

  /** Everything but the state and the count. */
  lemma ChecksHelloDone(c: Config, w: World, e: Endpoint, m: Message)
    requires Willing(w) && e.known && e.hs.Some? && e.hs.value.cipher == PSK_CIPHER && |e.hs.value.trail| == 1
    ensures var r := CheckServerHelloDone(c, w, e, m); r.err >= 0 && DerivedOnce(e, r.e.In(WaitChangeCipherSpec))
  {
    hide SendKeyExchangeFlight, CalculateKeyBlock, SendServerFinished, CheckServerHelloDone, Willing;
    ServerHelloDoneIs(c, w, e, m);
    ExchangeSent(c, w, Absorbed(e, m));
    var r1 := SendKeyExchangeFlight(c, w, Absorbed(e, m));
    KeyAtHand(w, r1.e);
    DerivedFrom(c, w, r1.e);
    var r2 := CalculateKeyBlock(c, w, r1.e);
    WillingPerfect(w);
    AnswerSent(c, w, r2.e);
    var r3 := SendServerFinished(c, w, r2.e);
    assert r3.e.hs.value.trail[..3] == r2.e.hs.value.trail;
    assert r3.e.hs.value.trail[2] == r2.e.hs.value.trail[2];
  }

  lemma KeyAtHand(w: World, e: Endpoint)
    requires Willing(w) && e.hs.Some?
    ensures var reply := w.psk(e.clock, Key(e.hs.value.pskId)); reply.Given? && |reply.value| <= 18
  {
  }

  /** The next ChangeCipherSpec makes a server derive once more, from what the storage now holds. */
  lemma DerivesAgain(c: Config, w: World, e: Endpoint)
    requires Willing(w) && e.known && e.role == Server && e.state == WaitChangeCipherSpec
    requires e.hs.Some? && e.hs.value.cipher == PSK_CIPHER
    requires var t := e.hs.value.trail; |t| == 4 && t[2].KeysDerived? && |t[2].master| == 48 && e.hs.value.tmp[..48] == t[2].master
    ensures var r := HandleCcs(c, w, e, [1]);
      && r.err >= 0 && r.e.known && r.e.hs.Some? && r.e.hs.value.crossed == e.hs.value.crossed && Misread(r.e.hs.value.trail)
  {
    hide CalculateKeyBlock;
    DerivedFrom(c, w, e);
    var t, r := e.hs.value.trail, CalculateKeyBlock(c, w, e);
    var u := r.e.hs.value.trail;
    assert e.hs.value.tmp[..32] == e.hs.value.tmp[..48][..32];
    assert u[2] == u[..4][2] == t[2];
    SecondReading(u + [CipherChanged], 2, 4);
  }

  lemma SecondReading(t: seq<Milestone>, i: nat, j: nat)
    requires i < j < |t| && t[i].KeysDerived? && t[j].KeysDerived? && t[j].client == Front(t[i].master)
    ensures Misread(t)
  {
  }

  lemma ServerMisled(c: Config, w: World, e: Endpoint) returns (vs: seq<Event>)
    requires Willing(w) && c.psk && Ciphered(e) && e.role == Server && e.state == ClientHelloSent
    requires e.hs.Some? && Queue(e) == [] && e.hs.value.trail == []
    ensures var g := RunFrom(c, w, e, vs); g.known && g.hs.Some? && g.hs.value.crossed == e.hs.value.crossed && Misread(g.hs.value.trail)
  {
    hide Step, HandshakeHeader, HandleHandshakeMsg, HandleCcs, MessageSeq, ServerHelloBody, Misread, RunFrom, Receiving, Letter,
      Complete;
    ReceivingIs(e);
    var k := e.hs.value.mseqR;
    var m1 := Msg(2, k, ServerHelloBody(PSK_CIPHER, Zeros(32)));
    BodyLengths(Zeros(32));
    FirstIs(2, k, ServerHelloBody(PSK_CIPHER, Zeros(32)));
    TakesServerHello(c, w, Receiving(e), k);
    MessageArrives(c, w, e, m1);
    var e1 := HandleHandshakeMsg(c, w, Receiving(e), m1).e;
    ReceivingIs(e1);
    var m2 := Msg(14, e1.hs.value.mseqR, []);
    FirstIs(14, e1.hs.value.mseqR, []);
    DerivesOnHelloDone(c, w, Receiving(e1), m2);
    MessageArrives(c, w, e1, m2);
    var e2 := HandleHandshakeMsg(c, w, Receiving(e1), m2).e;
    ReceivingIs(e2);
    DerivesAgain(c, w, Receiving(e2));
    ChangeArrives(c, w, e2);
    vs := [Letter(c, e, HANDSHAKE, m1), Letter(c, e1, HANDSHAKE, m2), Letter(c, e2, CHANGE_CIPHER_SPEC, [1])];
    ThreeEvents(c, w, e, vs[0], vs[1], vs[2]);
  }

  // ---------------------------------------------------------------- the exact condition

  ghost predicate Breaks(c: Config, w: World, e: Endpoint, vs: seq<Event>) {
    Broken(c, RunFrom(c, w, e, vs))
  }

  /** The endpoint after the hello. */
  function Greeted(c: Config, w: World, e: Endpoint, m: Message): Endpoint {
    Step(c, w, e, Letter(c, e, HANDSHAKE, m))
  }

  lemma SettledFacts(c: Config, e: Endpoint, m: Message)
    requires Settled(c, e, m)
    ensures Ciphered(e) && e.state == Connected && !e.doneCrossed
    ensures e.hs.Some? ==> Queue(e) == [] && MessageSeq(m) == e.hs.value.mseqR
    ensures var a := Receiving(e); a == Tick(e).(s1 := a.s1) && InOrder(c, a) && Untouched(a)
  {
    hide Complete, Lawful, MessageSeq;
  }

  /** What the hello does to a settled connection of either role. */
  lemma GreetedIs(c: Config, w: World, e: Endpoint, m: Message)
    requires Tame(w) && Willing(w) && Settled(c, e, m) && |m| <= MAX_BUF && Acceptable(c, w, Tick(Receiving(e)), m)
    ensures var f := Greeted(c, w, e, m); var a := Receiving(e);
      && (m[0] == 1 ==> TookClientHello(c, a, f, Chosen(c, w, Tick(a), m))) && (m[0] == 0 ==> TookHelloRequest(a, f)) && InOrder(c, f)
  {
    hide Step, Tame, Willing, InOrder, HandleHandshakeMsg, UpdateParameters, VerifyPeer, FreedOther, MessageSeq, Settled,
      TookClientHello, TookHelloRequest, Chosen;
    SettledFacts(c, e, m);
    var a := Receiving(e);
    if m[0] == 1 { ClientHelloTaken(c, w, a, m); } else { HelloRequestTaken(c, w, a, m); }
    HelloArrives(c, w, e, m);
    HandshakeMsgGood(c, w, a, m);
  }

  /** A hello that does no harm leaves the connection in order, even when its being meant for the other role is struck from the record. */
  lemma HarmlessInOrder(c: Config, w: World, e: Endpoint, m: Message)
    requires Tame(w) && Willing(w) && Settled(c, e, m) && |m| <= MAX_BUF && Acceptable(c, w, Tick(Receiving(e)), m)
    requires !Harmful(c, w, Tick(Receiving(e)), m)
    ensures InOrder(c, Acquitted(Greeted(c, w, e, m)))
  {
    hide Tame, Willing, Acceptable, Lawful, Complete, Greeted, Settled, Chosen;
    GreetedIs(c, w, e, m);
    SettledFacts(c, e, m);
    var f := Greeted(c, w, e, m);
    AcceptableKinds(c, w, Tick(Receiving(e)), m);
    Greet(c.hash, f.role, f.hs.value.tmp);
    Nothing(c.hash, f.role, f.hs.value.tmp);
  }

  lemma AcceptableKinds(c: Config, w: World, e: Endpoint, m: Message)
    requires Acceptable(c, w, e, m)
    ensures m[0] == 0 || m[0] == 1
  {
    hide VerifyPeer, UpdateParameters;
  }

  /** A hello that does harm leads to a broken connection. */
  lemma HarmfulBreaks(c: Config, w: World, e: Endpoint, m: Message) returns (vs: seq<Event>)
    requires Tame(w) && Willing(w) && Settled(c, e, m) && |m| <= MAX_BUF && Acceptable(c, w, Tick(Receiving(e)), m)
    requires Harmful(c, w, Tick(Receiving(e)), m)
    ensures Breaks(c, w, Acquitted(Greeted(c, w, e, m)), vs)
  {
    hide Tame, Willing, Acceptable, Complete, Misread, Greeted, Settled, Chosen, RunFrom, InOrder;
    GreetedIs(c, w, e, m);
    SettledFacts(c, e, m);
    AcceptableKinds(c, w, Tick(Receiving(e)), m);
    var f := Acquitted(Greeted(c, w, e, m));
    if m[0] == 1 { vs := ClientLedBack(c, w, f); } else { vs := ServerMisled(c, w, f); }
  }

  /**
   * On an established connection of either suite, for every acceptable hello and all callbacks that succeed: some
   * run from there ends connected without a complete handshake, or with a misread master secret, even though no
   * further hello reaches the wrong role, if and only if the hello is a harmful one.
   */
  lemma CrossedHelloExactly(c: Config, w: World, e: Endpoint, m: Message)
    requires Tame(w) && Willing(w) && Settled(c, e, m) && |m| <= MAX_BUF && Acceptable(c, w, Tick(Receiving(e)), m)
    ensures (exists vs :: Breaks(c, w, Acquitted(Greeted(c, w, e, m)), vs)) <==> Harmful(c, w, Tick(Receiving(e)), m)
  {
    hide Greeted, RunFrom, Tame, Willing, Settled, Acceptable, Broken, Harmful, InOrder;
    var f := Acquitted(Greeted(c, w, e, m));
    if Harmful(c, w, Tick(Receiving(e)), m) {
      var vs := HarmfulBreaks(c, w, e, m);
    } else {
      HarmlessInOrder(c, w, e, m);
      forall vs ensures !Breaks(c, w, f, vs) {
        RunOrdered(c, w, f, vs);
        OrderedUnbroken(c, RunFrom(c, w, f, vs));
      }
    }
  }
}

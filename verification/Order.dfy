/**
 * Handshake order and the storage shared by the random values and the master secret, over all runs in which
 * callbacks fail with reported codes only: what holds of every handshake that did not begin with a hello meant for
 * the other role.
 */
module Order {
  import opened Bytes
  import opened CcmSpec
  import opened Prf
  import opened Peers
  import opened RecordSpec
  import opened Datagram
  import opened Reorder
  import opened Hello
  import opened Engine
  import opened Wire

  /**
   * Callbacks fail with -1 or an alert code only. `write` may take part of a record, as long as what it takes is
   * more than header, explicit nonce and tag, so that the result is not negative.
   */
  ghost predicate Tame(w: World) {
    && (forall n, b :: w.write(n, b) >= 29 || w.write(n, b) >= |b| || w.write(n, b) == 0 || Reported(w.write(n, b)))
    && (forall n, q :: w.psk(n, q).Failed? ==> Reported(w.psk(n, q).code))
    && (forall n :: (w.ecc(n).key < 0 ==> Reported(w.ecc(n).key)) && (w.ecc(n).verdict < 0 ==> Reported(w.ecc(n).verdict)))
  }

  // ---------------------------------------------------------------- what a trail must look like

  ghost predicate Derived(h: Hash, t: seq<Milestone>)
    requires |t| > 2
  {
    && t[2].KeysDerived? && t[0].HelloExchanged? && t[2].client == t[0].client && t[2].server == t[0].server
    && t[2].master == MasterSecret(h, t[2].secret, t[2].client, t[2].server)
  }

  /** A Finished of `from`, checked against the PRF of the transcript at hand, under the master secret derived before. */
  ghost predicate Checked(h: Hash, from: Role, t: seq<Milestone>, i: nat)
    requires 2 < i < |t|
  {
    && t[2].KeysDerived? && t[i].FinishedAccepted? && t[i].master == t[2].master
    && t[i].verify == VerifyData(h, t[i].master, from, t[i].transcript)
  }

  /** A Finished of one's own, made with the same master secret. */
  ghost predicate Announced(h: Hash, from: Role, t: seq<Milestone>, i: nat)
    requires 2 < i < |t|
  {
    && t[2].KeysDerived? && t[i].FinishedSent? && t[i].master == t[2].master
    && t[i].verify == VerifyData(h, t[i].master, from, t[i].transcript)
  }

  /** A beginning of: hellos, key exchange, one key derivation from the exchanged values, and per role the rest. */
  ghost predicate Progress(h: Hash, role: Role, t: seq<Milestone>) {
    && |t| <= 6
    && (|t| > 0 ==> t[0].HelloExchanged?)
    && (|t| > 1 ==> t[1].KeyExchanged?)
    && (|t| > 2 ==> Derived(h, t))
    && (role == Client ==>
          && (|t| > 3 ==> Announced(h, Client, t, 3)) && (|t| > 4 ==> t[4].CipherChanged?) && (|t| > 5 ==> Checked(h, Server, t, 5)))
    && (role == Server ==>
          && (|t| > 3 ==> t[3].CipherChanged?) && (|t| > 4 ==> Checked(h, Client, t, 4)) && (|t| > 5 ==> Announced(h, Server, t, 5)))
  }

  ghost predicate Complete(h: Hash, role: Role, t: seq<Milestone>) {
    Progress(h, role, t) && |t| == 6
  }

  /** The same in octets: master secret and both Finished, each as HMACs over strings that are written out. */
  ghost predicate CompleteInOctets(h: Hash, role: Role, t: seq<Milestone>) {
    && |t| == 6 && t[0].HelloExchanged? && t[1].KeyExchanged? && t[2].KeysDerived?
    && t[2].client == t[0].client && t[2].server == t[0].server
    && IsMaster(h, t[2].secret, t[0].client, t[0].server, t[2].master)
    && var sent, accepted := t[if role == Client then 3 else 5], t[if role == Client then 5 else 4];
       && t[if role == Client then 4 else 3].CipherChanged? && sent.FinishedSent? && accepted.FinishedAccepted?
       && IsVerify(h, t[2].master, role, sent.transcript, sent.verify)
       && IsVerify(h, t[2].master, if role == Client then Server else Client, accepted.transcript, accepted.verify)
  }

  lemma CompleteOctets(h: Hash, role: Role, t: seq<Milestone>)
    requires Complete(h, role, t)
    ensures CompleteInOctets(h, role, t)
  {
    hide MasterSecret, VerifyData, IsMaster, IsVerify;
    MasterOctets(h, t[2].secret, t[2].client, t[2].server);
    var sent, accepted := t[if role == Client then 3 else 5], t[if role == Client then 5 else 4];
    VerifyOctets(h, t[2].master, role, sent.transcript);
    VerifyOctets(h, t[2].master, if role == Client then Server else Client, accepted.transcript);
  }

  /** What the shared storage holds, given how far the handshake is. */
  ghost predicate Lawful(h: Hash, role: Role, tmp: Tmp, t: seq<Milestone>) {
    && Progress(h, role, t)
    && (1 <= |t| <= 2 ==> tmp[..32] == t[0].client && tmp[32..] == t[0].server)
    && (|t| >= 3 ==> tmp[..48] == t[2].master)
  }

  predicate Negotiated(cipher: uint16) {
    cipher == PSK_CIPHER || cipher == ECDHE_CIPHER
  }

  /**
   * How long the trail is in each state, and whose state it is. Without a cipher suite WaitServerHelloDone leads
   * nowhere; nor does waiting for the other role's certificate, where a server gets that cannot be offered a
   * pre-shared key.
   */
  ghost predicate Phase(c: Config, role: Role, state: State, cipher: uint16, n: nat) {
    match state
    case Init | Connected => n == 0
    case ClientHelloSent => (role == Client || !c.psk) && n == 0
    case WaitServerCertificate | WaitClientCertificate => n == 1
    case WaitServerKeyExchange => role == Client && n == 1
    case WaitServerHelloDone => Negotiated(cipher) ==> role == Client && n == 1
    case WaitClientKeyExchange => role == Server && n == 1
    case WaitCertificateVerify => role == Server && n == 2
    case WaitChangeCipherSpec => n == if role == Server then 2 else 4
    case WaitFinished => n == if role == Server then 4 else 5
    case Closing | Closed => true
    case WaitClientHello => false
  }

  /** The shared storage of a handshake that began with a hello meant for this role. */
  ghost predicate Weak(c: Config, e: Endpoint) {
    e.hs.Some? && !e.hs.value.crossed ==> Lawful(c.hash, e.role, e.hs.value.tmp, e.hs.value.trail)
  }

  ghost predicate InOrder(c: Config, e: Endpoint) {
    e.known ==>
      && Weak(c, e)
      && (e.state == Connected && !e.doneCrossed ==> Complete(c.hash, e.role, e.done))
      && (e.hs.Some? && !e.hs.value.crossed ==> Phase(c, e.role, e.state, e.hs.value.cipher, |e.hs.value.trail|))
      && (e.hs.None? ==> e.state == Connected || e.state == Closing || e.state == Closed)
  }

  /** After a call: in order, or with an error that is going to be reported. */
  ghost predicate Good(c: Config, r: Outcome) {
    if r.err < 0 then Reported(r.err) && (r.e.known ==> Weak(c, r.e)) else InOrder(c, r.e)
  }

  // ---------------------------------------------------------------- one milestone after the other

  lemma Greet(h: Hash, role: Role, tmp: Tmp)
    ensures Lawful(h, role, tmp, [HelloExchanged(tmp[..32], tmp[32..])])
  {
  }

  lemma Exchange(h: Hash, role: Role, tmp: Tmp, t: seq<Milestone>)
    requires Lawful(h, role, tmp, t) && |t| == 1
    ensures Lawful(h, role, tmp, t + [KeyExchanged])
  {
  }

  lemma Derive(h: Hash, role: Role, tmp: Tmp, t: seq<Milestone>, secret: seq<byte>, master: seq<byte>)
    requires Lawful(h, role, tmp, t) && |t| == 2 && master == MasterSecret(h, secret, tmp[..32], tmp[32..])
    ensures Lawful(h, role, master + tmp[48..], t + [KeysDerived(tmp[..32], tmp[32..], secret, master)])
  {
    hide MasterSecret;
  }

  lemma Announce(h: Hash, role: Role, tmp: Tmp, t: seq<Milestone>, transcript: seq<byte>, mseq: uint16)
    requires Lawful(h, role, tmp, t) && |t| == if role == Client then 3 else 5
    ensures Lawful(h, role, tmp, t + [FinishedSent(tmp[..48], transcript, VerifyData(h, tmp[..48], role, transcript), mseq)])
  {
    hide MasterSecret, VerifyData;
  }

  lemma Change(h: Hash, role: Role, tmp: Tmp, t: seq<Milestone>)
    requires Lawful(h, role, tmp, t) && |t| == if role == Client then 4 else 3
    ensures Lawful(h, role, tmp, t + [CipherChanged])
  {
    hide MasterSecret, VerifyData;
  }

  lemma Accept(h: Hash, role: Role, tmp: Tmp, t: seq<Milestone>, transcript: seq<byte>, verify: seq<byte>, mseq: uint16)
    requires Lawful(h, role, tmp, t) && |t| == if role == Client then 5 else 4
    requires verify == VerifyData(h, tmp[..48], Other(role), transcript)
    ensures Lawful(h, role, tmp, t + [FinishedAccepted(tmp[..48], transcript, verify, mseq)])
  {
    hide MasterSecret, VerifyData;
  }

  // ---------------------------------------------------------------- errors are reported

  ghost predicate Fine(r: Outcome) {
    r.err < 0 ==> Reported(r.err)
  }

  lemma SendFine(c: Config, w: World, e: Endpoint, ctype: byte, payload: seq<byte>)
    requires Tame(w)
    ensures Fine(Send(c, w, e, ctype, payload))
  {
    hide Protect;
    var bytes := Protect(c.aes, e.role, e.s0, ctype, payload);
    var n := w.write(e.clock, bytes);
    ProtectLength(c.aes, e.role, e.s0, ctype, payload);
    assert n >= 29 || n >= |bytes| || n == 0 || Reported(n);
  }

  lemma SendHandshakeFine(c: Config, w: World, e: Endpoint, kind: byte, body: seq<byte>, addHash: bool)
    requires Tame(w)
    ensures Fine(SendHandshake(c, w, e, kind, body, addHash))
  {
    hide Tame, Fine, Send, HandshakeMessage;
    SendFine(c, w, Counted(e, kind, body, addHash), HANDSHAKE, HandshakeMessage(e, kind, body));
  }

  lemma SendClientHelloFine(c: Config, w: World, e: Endpoint, cookie: seq<byte>)
    requires Tame(w) && e.hs.Some? && |cookie| < 256
    ensures Fine(SendClientHello(c, w, e, cookie))
  {
    hide Tame, SendHandshake, ClientHelloBody;
    if |cookie| <= 32 {
      var h := e.hs.value;
      var h1 := if cookie == [] then h.(tmp := w.random(e.clock) + h.tmp[32..]) else h.(transcript := []);
      SendHandshakeFine(c, w, e.With(h1), 1, ClientHelloBody(c.psk, c.verifiesKey, h1.tmp[..32], cookie), cookie != []);
    }
  }

  lemma SendCertificateFine(c: Config, w: World, e: Endpoint)
    requires Tame(w)
    ensures Fine(SendCertificate(c, w, e))
  {
    hide SendHandshake;
    SendHandshakeFine(c, w, e, 11, w.ecc(e.clock).certificate, true);
    var k := w.ecc(e.clock);
    assert k.key < 0 ==> Reported(k.key);
  }

  /** A ClientKeyExchange is only sent under a negotiated cipher suite. */
  lemma SendClientKeyExchangeFine(c: Config, w: World, e: Endpoint)
    requires Tame(w) && e.hs.Some?
    ensures Fine(SendClientKeyExchange(c, w, e)) && (!Negotiated(e.hs.value.cipher) ==> SendClientKeyExchange(c, w, e).err < 0)
  {
    hide SendHandshake;
    var h := e.hs.value;
    if h.cipher == PSK_CIPHER {
      var reply := w.psk(e.clock, Identity(h.pskId));
      assert reply.Failed? ==> Reported(reply.code);
      if reply.Given? { SendHandshakeFine(c, w, e.With(h.(pskId := reply.value)), 16, BigEndian(|reply.value|, 2) + reply.value, true); }
    } else {
      SendHandshakeFine(c, w, e, 16, w.ecc(e.clock).exchange, true);
    }
  }

  lemma SendFinishedFine(c: Config, w: World, e: Endpoint)
    requires Tame(w) && e.hs.Some?
    ensures var h := e.hs.value; var r := SendFinished(c, w, e);
      Fine(r) && r.e.hs.value.trail == h.trail + [OwnFinished(c, e)]
  {
    hide Tame, Fine, SendHandshake, VerifyData;
    var h := e.hs.value;
    var e1 := e.With(h.(trail := h.trail + [OwnFinished(c, e)]));
    SendHandshakeFine(c, w, e1, 20, VerifyData(c.hash, h.tmp[..48], e.role, h.transcript), true);
  }

  lemma SendHintFine(c: Config, w: World, e: Endpoint)
    requires Tame(w)
    ensures Fine(SendHint(c, w, e))
  {
    hide SendHandshake;
    var reply := w.psk(e.clock, Hint);
    assert reply.Failed? ==> Reported(reply.code);
    if reply.Given? { SendHandshakeFine(c, w, e, 12, BigEndian(|reply.value|, 2) + reply.value, true); }
  }

  lemma EcdheMessagesFine(c: Config, w: World, e: Endpoint)
    requires Tame(w)
    ensures Fine(SendEcdheMessages(c, w, e))
  {
    hide Tame, SendHandshake, SendCertificate;
    SendCertificateFine(c, w, e);
    var r1 := SendCertificate(c, w, e);
    SendHandshakeFine(c, w, r1.e, 12, w.ecc(r1.e.clock).exchange, true);
    var r2 := SendHandshake(c, w, r1.e, 12, w.ecc(r1.e.clock).exchange, true);
    SendHandshakeFine(c, w, r2.e, 13, [1, 64, 0, 2, 4, 3, 0, 0], true);
  }

  lemma ServerHelloMessagesFine(c: Config, w: World, e: Endpoint)
    requires Tame(w) && e.hs.Some?
    ensures Fine(SendServerHelloMessages(c, w, e))
  {
    hide Tame, SendHandshake, ServerHelloBody, SendKeyMaterial;
    var h, random := e.hs.value, w.random(e.clock);
    SendHandshakeFine(c, w, e.With(h.(tmp := h.tmp[..32] + random)), 2, ServerHelloBody(h.cipher, random), true);
    var r1 := SendServerHello(c, w, e);
    KeyMaterialFine(c, w, r1.e, h.cipher);
    SendHandshakeFine(c, w, SendKeyMaterial(c, w, r1.e, h.cipher).e, 14, [], true);
  }

  lemma KeyMaterialFine(c: Config, w: World, e: Endpoint, cipher: uint16)
    requires Tame(w)
    ensures Fine(SendKeyMaterial(c, w, e, cipher))
  {
    hide Tame, SendEcdheMessages, SendHint;
    EcdheMessagesFine(c, w, e);
    SendHintFine(c, w, e);
  }

  // ---------------------------------------------------------------- the compound steps

  /** What the flight puts on record, with or without an error. */
  lemma FlightTrail(c: Config, w: World, e: Endpoint)
    requires Tame(w) && e.hs.Some?
    ensures var r := SendKeyExchangeFlight(c, w, e); var t := e.hs.value.trail;
      && Fine(r) && (r.e.hs.value.trail == t || (Negotiated(e.hs.value.cipher) && r.e.hs.value.trail == t + [KeyExchanged]))
      && (r.err >= 0 ==> Negotiated(e.hs.value.cipher) && r.e.hs.value.trail == t + [KeyExchanged])
  {
    hide Tame, SendHandshake, SendCertificate, SendClientKeyExchange, Reported, Negotiated, SameBut;
    SendCertificateFine(c, w, e);
    SendingKeeps(e, e);
    var auth := e.hs.value.clientAuth;
    var r1 := if auth then SendCertificate(c, w, e) else Outcome(e, 0);
    if auth { SendingKeeps(e, r1.e); }
    if r1.err >= 0 {
      SendClientKeyExchangeFine(c, w, r1.e);
      var r2 := SendClientKeyExchange(c, w, r1.e);
      SendingKeeps(r1.e.With(r1.e.hs.value.(pskId := r2.e.hs.value.pskId)), r2.e);
      if r2.err >= 0 {
        var h := r2.e.hs.value;
        var e2 := r2.e.With(h.(trail := h.trail + [KeyExchanged]));
        SendHandshakeFine(c, w, e2, 15, w.ecc(e2.clock).verify, true);
        SendingKeeps(e2, SendHandshake(c, w, e2, 15, w.ecc(e2.clock).verify, true).e);
      }
    }
  }

  lemma SendingKeeps(a: Endpoint, b: Endpoint)
    ensures SameBut(a, a) && (SameBut(a, b) && a.hs.Some? ==>
      b.hs.Some? && b.hs.value.trail == a.hs.value.trail && b.hs.value.cipher == a.hs.value.cipher)
  {
  }

  lemma FlightGood(c: Config, w: World, e: Endpoint)
    requires Tame(w) && e.hs.Some? && Weak(c, e)
    requires !e.hs.value.crossed && Negotiated(e.hs.value.cipher) ==> |e.hs.value.trail| == 1
    ensures var r := SendKeyExchangeFlight(c, w, e);
      Fine(r) && Weak(c, r.e) && r.e.hs.value.crossed == e.hs.value.crossed
      && (r.err >= 0 ==> Negotiated(e.hs.value.cipher) && |r.e.hs.value.trail| == |e.hs.value.trail| + 1)
  {
    hide Tame, SendKeyExchangeFlight, Lawful, Reported, Negotiated;
    FlightTrail(c, w, e);
    var h := e.hs.value;
    if !h.crossed && Negotiated(h.cipher) { Exchange(c.hash, e.role, h.tmp, h.trail); }
  }

  lemma PreMasterFine(w: World, e: Endpoint, h: Handshake)
    requires Tame(w)
    ensures var s := PreMasterSecret(w, e, h); s.NoSecret? ==> Reported(s.code)
  {
    hide PreMaster;
    var reply := w.psk(e.clock, Key(h.pskId));
    assert reply.Failed? ==> Reported(reply.code);
  }

  /** The key derivation reads the exchanged values and leaves the master secret. */
  lemma CalculateGood(c: Config, w: World, e: Endpoint)
    requires Tame(w) && e.hs.Some? && Weak(c, e) && (!e.hs.value.crossed ==> |e.hs.value.trail| == 2)
    ensures var r := CalculateKeyBlock(c, w, e);
      Fine(r) && Weak(c, r.e) && r.e.hs.value.crossed == e.hs.value.crossed
      && (r.err >= 0 ==> |r.e.hs.value.trail| == |e.hs.value.trail| + 1)
  {
    hide Tame, PreMasterSecret, MasterSecret, KeyBlockOf, Lawful, Reported;
    var h := e.hs.value;
    PreMasterFine(w, e, h);
    match PreMasterSecret(w, e, h)
    case NoSecret(_) =>
    case Secret(secret) =>
      if !h.crossed {
        Derive(c.hash, e.role, h.tmp, h.trail, secret, MasterSecret(c.hash, secret, h.tmp[..32], h.tmp[32..]));
      }
  }

  /** ChangeCipherSpec, the switch, and one's own Finished under the master secret. */
  lemma FinishGood(c: Config, w: World, e: Endpoint)
    requires Tame(w) && e.hs.Some? && Weak(c, e)
    requires !e.hs.value.crossed ==> |e.hs.value.trail| == if e.role == Client then 3 else 5
    ensures var r := SendServerFinished(c, w, e);
      Fine(r) && Weak(c, r.e) && r.e.role == e.role && r.e.state == e.state && r.e.known == e.known
      && r.e.done == e.done && r.e.doneCrossed == e.doneCrossed
      && r.e.hs.value.crossed == e.hs.value.crossed
      && (r.err >= 0 ==> |r.e.hs.value.trail| == |e.hs.value.trail| + 1)
  {
    hide Tame, Send, SendFinished, Lawful, Reported;
    SendFine(c, w, e, CHANGE_CIPHER_SPEC, [1]);
    var r := Send(c, w, e, CHANGE_CIPHER_SPEC, [1]);
    SendFinishedFine(c, w, Switched(r.e));
    var h := r.e.hs.value;
    if !h.crossed { Announce(c.hash, e.role, h.tmp, h.trail, h.transcript, h.mseqS); }
  }

  lemma ServerHelloDoneIs(c: Config, w: World, e: Endpoint, m: Message)
    requires e.hs.Some?
    ensures CheckServerHelloDone(c, w, e, m) ==
      var r1 := SendKeyExchangeFlight(c, w, Absorbed(e, m));
      if r1.err < 0 then r1 else
        var r2 := CalculateKeyBlock(c, w, r1.e);
        if r2.err < 0 then r2 else SendServerFinished(c, w, r2.e)
  {
    hide SendKeyExchangeFlight, CalculateKeyBlock, Send, SendFinished;
  }

  lemma ServerHelloDoneGood(c: Config, w: World, e: Endpoint, m: Message)
    requires Tame(w) && e.hs.Some? && InOrder(c, e) && e.known
    ensures Good(c, OnServerHelloDone(c, w, e, m))
  {
    hide Tame, SendKeyExchangeFlight, CalculateKeyBlock, SendServerFinished, CheckServerHelloDone, Lawful;
    if e.state == WaitServerHelloDone {
      ServerHelloDoneIs(c, w, e, m);
      FlightGood(c, w, Absorbed(e, m));
      var r1 := SendKeyExchangeFlight(c, w, Absorbed(e, m));
      if r1.err >= 0 {
        CalculateGood(c, w, r1.e);
        var r2 := CalculateKeyBlock(c, w, r1.e);
        if r2.err >= 0 { FinishGood(c, w, r2.e); }
      }
    }
  }

  // ---------------------------------------------------------------- every message keeps the order

  lemma ServerHelloGood(c: Config, w: World, e: Endpoint, m: Message)
    requires Tame(w) && e.hs.Some? && InOrder(c, e) && e.known
    ensures Good(c, OnServerHello(c, w, e, m))
  {
    hide Tame, CheckServerHello, Count, InOrder, HelloTaken, Weak, Negotiated, Good, Fine;
    WeakOf(c, e);
    GoodFailing(c, Unexpected(e));
    if e.state == ClientHelloSent {
      CheckServerHelloFine(c, w, e, m);
      HelloSentTrail(c, e);
      var r := CheckServerHello(c, w, e, m);
      EmptyWeak(c, r.e);
      GoodFailing(c, r);
      if r.err >= 0 {
        TakenInOrder(c, r.e);
        GoodPassing(c, Outcome(HelloTaken(r.e), 0));
        CountGood(c, Outcome(HelloTaken(r.e), 0));
      }
    }
  }

  lemma GoodFailing(c: Config, r: Outcome)
    requires Weak(c, r.e)
    ensures r.err < 0 && (Fine(r) || r.err == Fatal(UNEXPECTED_MESSAGE)) ==> Good(c, r)
  {
    hide Weak;
  }

  lemma GoodPassing(c: Config, r: Outcome)
    requires InOrder(c, r.e) && r.err >= 0
    ensures Good(c, r)
  {
    hide InOrder;
  }

  lemma WeakOf(c: Config, e: Endpoint)
    requires InOrder(c, e) && e.known
    ensures Weak(c, e)
  {
    hide Lawful, Complete;
  }

  lemma HelloSentTrail(c: Config, e: Endpoint)
    requires e.known && e.hs.Some? && InOrder(c, e) && e.state == ClientHelloSent
    ensures !e.hs.value.crossed ==> e.hs.value.trail == [] && (e.role == Client || !c.psk)
  {
    hide Lawful, Complete;
  }

  lemma EmptyWeak(c: Config, e: Endpoint)
    requires e.hs.Some? && (!e.hs.value.crossed ==> e.hs.value.trail == [])
    ensures Weak(c, e)
  {
    Nothing(c.hash, e.role, e.hs.value.tmp);
    hide Lawful;
  }

  lemma TakenInOrder(c: Config, e: Endpoint)
    requires e.known && e.hs.Some? && Negotiated(e.hs.value.cipher) && (!c.psk ==> e.hs.value.cipher == ECDHE_CIPHER)
    requires !e.hs.value.crossed ==> e.hs.value.trail == [] && (e.role == Client || !c.psk)
    ensures InOrder(c, HelloTaken(e))
  {
    hide Lawful, Complete;
    var h := e.hs.value;
    Greet(c.hash, e.role, h.tmp);
    assert [] + [HelloExchanged(h.tmp[..32], h.tmp[32..])] == [HelloExchanged(h.tmp[..32], h.tmp[32..])];
  }

  /** Before the hellos are exchanged anything may be in the storage. */
  lemma Nothing(h: Hash, role: Role, tmp: Tmp)
    ensures Lawful(h, role, tmp, [])
  {
  }

  lemma CheckServerHelloFine(c: Config, w: World, e: Endpoint, m: Message)
    requires e.hs.Some?
    ensures var r := CheckServerHello(c, w, e, m);
      Fine(r) && (r.err >= 0 ==> Negotiated(r.e.hs.value.cipher) && (!c.psk ==> r.e.hs.value.cipher == ECDHE_CIPHER))
  {
    hide Range, Octets2, ChosenParameters;
    if |m| >= 24 {
      var i, e1 := Received(w, e, m), Absorbed(e, m);
      ParametersFine(c, w, e1.With(e1.hs.value.(tmp := e1.hs.value.tmp[..32] + Range(i, 14, 32))), i);
    }
  }

  lemma ParametersFine(c: Config, w: World, e: Endpoint, i: Input)
    requires e.hs.Some?
    ensures var r := ChosenParameters(c, w, e, i);
      Fine(r) && (r.err >= 0 ==> Negotiated(r.e.hs.value.cipher) && (!c.psk ==> r.e.hs.value.cipher == ECDHE_CIPHER))
  {
    hide Octets2, Octet, Skip, SizeT, ExtensionsOk;
  }

  lemma JudgedGood(c: Config, w: World, e: Endpoint, m: Message)
    requires Tame(w) && e.hs.Some? && InOrder(c, e) && e.known
    ensures Good(c, OnCertificate(w, e, m)) && Good(c, OnCertificateRequest(w, e, m))
  {
    hide Tame, Judged, Lawful, Complete, Count;
    JudgedFine(w, e, m);
    var r := Judged(w, e, m);
    if r.err >= 0 && e.state == (if e.role == Client then WaitServerCertificate else WaitClientCertificate) {
      CertificateGood(c, e, r.e);
      CountGood(c, Outcome(r.e.In(if e.role == Client then WaitServerKeyExchange else WaitClientKeyExchange), 0));
    }
    if r.err >= 0 && e.state == WaitServerHelloDone {
      RequestGood(c, e, r.e);
      CountGood(c, Outcome(r.e.With(r.e.hs.value.(clientAuth := true)), 0));
    }
  }

  lemma CertificateGood(c: Config, e: Endpoint, f: Endpoint)
    requires e.hs.Some? && InOrder(c, e) && e.known
    requires f == e.With(e.hs.value.(transcript := if f.hs.Some? then f.hs.value.transcript else []))
    requires e.state == if e.role == Client then WaitServerCertificate else WaitClientCertificate
    ensures Good(c, Outcome(f.In(if e.role == Client then WaitServerKeyExchange else WaitClientKeyExchange), 0))
  {
    hide Lawful, Complete;
  }

  lemma RequestGood(c: Config, e: Endpoint, f: Endpoint)
    requires e.hs.Some? && InOrder(c, e) && e.known && e.state == WaitServerHelloDone
    requires f.hs.Some? && f == e.With(e.hs.value.(transcript := f.hs.value.transcript))
    ensures Good(c, Outcome(f.With(f.hs.value.(clientAuth := true)), 0))
  {
    hide Lawful, Complete;
  }

  lemma JudgedFine(w: World, e: Endpoint, m: Message)
    requires Tame(w) && e.hs.Some?
    ensures Fine(Judged(w, e, m))
  {
    assert w.ecc(e.clock).verdict < 0 ==> Reported(w.ecc(e.clock).verdict);
  }

  /** Counting a message changes nothing that matters here. */
  lemma CountGood(c: Config, r: Outcome)
    requires Good(c, r)
    ensures Good(c, Count(r))
  {
    hide Lawful, Complete;
  }

  lemma ServerKeyExchangeGood(c: Config, w: World, e: Endpoint, m: Message)
    requires Tame(w) && e.hs.Some? && InOrder(c, e) && e.known
    ensures Good(c, OnServerKeyExchange(w, e, m))
  {
    hide Tame, Judged, CheckHint, Lawful, Complete, Count;
    JudgedFine(w, e, m);
    HintFine(e, m);
    var cipher := e.hs.value.cipher;
    var r := if cipher == ECDHE_CIPHER then Judged(w, e, m) else if cipher == PSK_CIPHER then CheckHint(e, m) else Outcome(e, 0);
    var waiting := if cipher == ECDHE_CIPHER then e.state == WaitServerKeyExchange else cipher == PSK_CIPHER ==> e.state == WaitServerHelloDone;
    if waiting && r.err >= 0 {
      HintKept(c, e, r);
      CountGood(c, Outcome(r.e.In(WaitServerHelloDone), 0));
    }
  }

  /** Waiting for ServerHelloDone after a key exchange message, or without a cipher suite. */
  lemma HintKept(c: Config, e: Endpoint, r: Outcome)
    requires e.hs.Some? && InOrder(c, e) && e.known && r.e.hs.Some?
    requires r.e == e.With(e.hs.value.(transcript := r.e.hs.value.transcript, pskId := r.e.hs.value.pskId))
    requires var cipher := e.hs.value.cipher;
      if cipher == ECDHE_CIPHER then e.state == WaitServerKeyExchange else cipher == PSK_CIPHER ==> e.state == WaitServerHelloDone
    ensures Good(c, Outcome(r.e.In(WaitServerHelloDone), 0))
  {
    hide Lawful, Complete;
  }

  lemma HintFine(e: Endpoint, m: Message)
    requires e.hs.Some?
    ensures Fine(CheckHint(e, m))
  {
  }

  lemma ClientKeyExchangeGood(c: Config, w: World, e: Endpoint, m: Message)
    requires Tame(w) && e.hs.Some? && InOrder(c, e) && e.known
    ensures Good(c, OnClientKeyExchange(c, w, e, m))
  {
    hide Tame, CheckClientKeyExchange, Lawful, Complete, Count;
    CheckClientKeyExchangeFine(w, e, m);
    var r := CheckClientKeyExchange(w, e, m);
    if e.state == WaitClientKeyExchange && r.err >= 0 {
      if !e.hs.value.crossed { Exchange(c.hash, e.role, e.hs.value.tmp, e.hs.value.trail); }
      CountGood(c, Outcome(Exchanged(c, Absorbed(r.e, m)), 0));
    }
  }

  lemma CheckClientKeyExchangeFine(w: World, e: Endpoint, m: Message)
    requires Tame(w) && e.hs.Some?
    ensures Fine(CheckClientKeyExchange(w, e, m))
  {
    hide Tame, Judged;
    JudgedFine(w, e, m);
  }

  lemma CertificateVerifyGood(c: Config, w: World, e: Endpoint, m: Message)
    requires Tame(w) && e.hs.Some? && InOrder(c, e) && e.known
    ensures Good(c, OnCertificateVerify(w, e, m))
  {
    JudgedFine(w, e, m);
    hide Tame, Judged, Lawful;
  }

  lemma FinishedGood(c: Config, w: World, e: Endpoint, m: Message)
    requires Tame(w) && e.hs.Some? && InOrder(c, e) && e.known
    ensures Good(c, OnFinished(c, w, e, m))
  {
    hide Tame, SendServerFinished, Lawful, Progress, CheckFinished;
    if e.state == WaitFinished {
      CheckFinishedIs(c, e, m);
      if CheckFinished(c, e, m) >= 0 {
        var h := e.hs.value;
        if !h.crossed { Accept(c.hash, e.role, h.tmp, h.trail, h.transcript, m[12..24], h.mseqR); }
        var e1 := e.With(h.(trail := h.trail + [FinishedAccepted(h.tmp[..48], h.transcript, m[12..24], h.mseqR)]));
        if e.role == Server {
          FinishGood(c, w, Absorbed(e1, m));
          var r := SendServerFinished(c, w, Absorbed(e1, m));
          if !h.crossed { WholeTrail(c.hash, e.role, r.e.hs.value.tmp, r.e.hs.value.trail); }
        } else {
          if !h.crossed { WholeTrail(c.hash, e.role, h.tmp, e1.hs.value.trail); }
        }
      }
    }
  }

  lemma WholeTrail(h: Hash, role: Role, tmp: Tmp, t: seq<Milestone>)
    requires Lawful(h, role, tmp, t)
    ensures |t| == 6 ==> Complete(h, role, t)
  {
    hide Progress;
  }

  /** A Finished is accepted exactly when it is long enough and carries the PRF of the transcript. */
  lemma CheckFinishedIs(c: Config, e: Endpoint, m: Message)
    requires e.hs.Some?
    ensures CheckFinished(c, e, m) >= 0 <==>
      |m| >= 24 && m[12..24] == VerifyData(c.hash, e.hs.value.tmp[..48], Other(e.role), e.hs.value.transcript)
    ensures CheckFinished(c, e, m) < 0 ==> Reported(CheckFinished(c, e, m))
  {
    hide VerifyData;
  }

  lemma AcceptGood(c: Config, w: World, e: Endpoint, m: Message)
    requires Tame(w) && InOrder(c, e) && (e.known ==> e.state == Connected)
    ensures Good(c, AcceptClientHello(c, w, e, m))
  {
    hide Tame, UpdateParameters, SendServerHelloMessages, Count, InOrder, Admitted, HelloAccepted, Weak;
    var a := Admitted(e, m);
    AdmittedBlank(c, e, m);
    UpdateFine(c, w, a, m);
    var r1 := UpdateParameters(c, w, a, m);
    BlankWeak(c, r1.e);
    ServerHelloMessagesFine(c, w, Absorbed(r1.e, m));
    var r2 := SendServerHelloMessages(c, w, Absorbed(r1.e, m));
    BlankWeak(c, r2.e);
    if r1.err >= 0 && r2.err >= 0 {
      AcceptedInOrder(c, r2.e);
      CountGood(c, Outcome(HelloAccepted(c, r2.e), 0));
    }
  }

  /** Nothing is on record yet of a handshake that a ClientHello meant for this role begins. */
  ghost predicate Blank(e: Endpoint) {
    e.hs.Some? && (!e.hs.value.crossed ==> e.role == Server && e.hs.value.trail == [])
  }

  lemma AdmittedBlank(c: Config, e: Endpoint, m: Message)
    requires InOrder(c, e) && (e.known ==> e.state == Connected)
    ensures Blank(Admitted(e, m))
  {
    hide Lawful, Complete, MessageSeq;
  }

  lemma BlankWeak(c: Config, e: Endpoint)
    ensures Blank(e) ==> Weak(c, e)
  {
    if e.hs.Some? { Nothing(c.hash, e.role, e.hs.value.tmp); }
    hide Lawful;
  }

  lemma AcceptedInOrder(c: Config, e: Endpoint)
    requires e.known && Blank(e)
    ensures InOrder(c, HelloAccepted(c, e))
  {
    hide Lawful, Complete;
    var h := e.hs.value;
    Greet(c.hash, e.role, h.tmp);
    assert [] + [HelloExchanged(h.tmp[..32], h.tmp[32..])] == [HelloExchanged(h.tmp[..32], h.tmp[32..])];
  }

  lemma UpdateFine(c: Config, w: World, e: Endpoint, m: Message)
    requires e.hs.Some?
    ensures Fine(UpdateParameters(c, w, e, m))
  {
    hide ParseClientHello;
  }

  lemma ClientHelloGood(c: Config, w: World, e: Endpoint, m: Message)
    requires Tame(w) && InOrder(c, e)
    ensures Good(c, OnClientHello(c, w, e, m))
  {
    hide Tame, VerifyPeer, AcceptClientHello, SendHandshake, Lawful, Complete;
    RefusedReported(c, w, e, m);
    if e.known ==> e.state == Connected {
      AcceptGood(c, w, e, m);
      match VerifyPeer(c.hash, c.secret, c.session, Received(w, e, m))
      case Refused(_) =>
      case Good =>
      case Challenge(cookie, first) =>
        SendHandshakeFine(c, w, e, 3, BigEndian(VERSION, 2) + [16] + cookie, false);
        AcceptGood(c, w, SendHelloVerifyRequest(c, w, e, cookie).e, m);
    }
  }

  lemma RefusedReported(c: Config, w: World, e: Endpoint, m: Message)
    ensures var v := VerifyPeer(c.hash, c.secret, c.session, Received(w, e, m)); v.Refused? ==> v.code < 0 && Reported(v.code)
  {
    hide CookieText, CookieField;
  }

  lemma HelloRequestGood(c: Config, w: World, e: Endpoint)
    requires Tame(w) && InOrder(c, e) && e.known
    ensures Good(c, OnHelloRequest(c, w, e))
  {
    hide Tame, SendClientHello, Lawful, Complete, Count;
    if e.state == Connected {
      var e1 := HelloRequested(e);
      SendClientHelloFine(c, w, e1, []);
      var r := SendClientHello(c, w, e1, []);
      Nothing(c.hash, e.role, r.e.hs.value.tmp);
      if r.err >= 0 { CountGood(c, Outcome(r.e.In(ClientHelloSent), r.err)); }
    }
  }

  lemma HelloVerifyRequestGood(c: Config, w: World, e: Endpoint, m: Message)
    requires Tame(w) && e.hs.Some? && InOrder(c, e) && e.known
    ensures Good(c, OnHelloVerifyRequest(c, w, e, m))
  {
    hide Tame, SendClientHello, Lawful, Complete;
    if e.state == ClientHelloSent && |m| >= 15 {
      var cookie := Range(Received(w, e, m), 15, m[14]);
      SendClientHelloFine(c, w, e, cookie);
      Nothing(c.hash, e.role, SendClientHello(c, w, e, cookie).e.hs.value.tmp);
    }
  }

  lemma HandshakeMsgGood(c: Config, w: World, was: Endpoint, m: Message)
    requires Tame(w) && InOrder(c, was) && LetThrough(was, m)
    ensures Good(c, HandleHandshakeMsg(c, w, was, m))
  {
    hide Tame, Lawful, Complete, OnClientHello, OnHelloRequest, OnHelloVerifyRequest, OnServerHello, OnCertificate,
      OnServerKeyExchange,
      OnServerHelloDone, OnCertificateRequest, OnFinished, OnClientKeyExchange, OnCertificateVerify;
    var e := was.(clock := was.clock + 1);
    if m[0] == 1 { ClientHelloGood(c, w, e, m); }
    else if m[0] == 0 { HelloRequestGood(c, w, e); }
    else if m[0] == 3 { HelloVerifyRequestGood(c, w, e, m); }
    else if m[0] == 2 { ServerHelloGood(c, w, e, m); }
    else if m[0] == 11 || m[0] == 13 { JudgedGood(c, w, e, m); }
    else if m[0] == 12 { ServerKeyExchangeGood(c, w, e, m); }
    else if m[0] == 14 { ServerHelloDoneGood(c, w, e, m); }
    else if m[0] == 20 { FinishedGood(c, w, e, m); }
    else if m[0] == 16 { ClientKeyExchangeGood(c, w, e, m); }
    else if m[0] == 15 { CertificateVerifyGood(c, w, e, m); }
  }

  lemma {:induction false} DrainGood(c: Config, w: World, e: Endpoint, res: int)
    requires Tame(w) && InOrder(c, e) && e.known && res >= 0
    ensures Good(c, DrainQueue(c, w, e, res))
    decreases |Queue(e)|
  {
    hide Tame, Lawful, Complete, HandleHandshakeMsg;
    if e.hs.Some? {
      var h := e.hs.value;
      var i := Find(h.queue, h.mseqR);
      if i < |h.queue| {
        var e1 := e.With(h.(queue := Removed(h.queue, i)));
        HandshakeMsgGood(c, w, e1, h.queue[i]);
        var r := HandleHandshakeMsg(c, w, e1, h.queue[i]);
        if r.err >= 0 { DrainGood(c, w, r.e, r.err); }
      }
    }
  }

  lemma HandshakeGood(c: Config, w: World, e: Endpoint, data: seq<byte>)
    requires Tame(w) && InOrder(c, e)
    ensures Good(c, HandleHandshake(c, w, e, data))
  {
    hide Tame, Lawful, Complete, HandleHandshakeMsg, DrainQueue;
    if |data| >= HS_LENGTH {
      var m: Message := data;
      if LetThrough(e, m) {
        HandshakeMsgGood(c, w, e, m);
        var r := HandleHandshakeMsg(c, w, e, m);
        if e.known && r.err >= 0 { DrainGood(c, w, r.e, r.err); }
      }
    }
  }

  lemma CcsGood(c: Config, w: World, e: Endpoint, data: seq<byte>)
    requires Tame(w) && InOrder(c, e)
    ensures Good(c, HandleCcs(c, w, e, data))
  {
    hide Tame, Lawful, Complete, CalculateKeyBlock;
    if e.known && e.state == WaitChangeCipherSpec && e.hs.Some? && |data| >= 1 && data[0] == 1 {
      if e.role == Server { CalculateGood(c, w, e); }
      var r := if e.role == Server then CalculateKeyBlock(c, w, e) else Outcome(e, 0);
      if r.err >= 0 && !e.hs.value.crossed { Change(c.hash, e.role, r.e.hs.value.tmp, r.e.hs.value.trail); }
    }
  }

  /** Reporting an error closes the connection, which is always in order. */
  lemma ReportOrdered(c: Config, w: World, r: Outcome)
    requires Good(c, r) && r.err < 0
    ensures InOrder(c, ReportError(c, w, r.e, r.err))
  {
    hide Lawful, Complete, SendAlert;
  }

  lemma PayloadOrdered(c: Config, w: World, e: Endpoint, ctype: byte, epoch: uint16, data: seq<byte>)
    requires Tame(w) && InOrder(c, e)
    ensures InOrder(c, HandlePayload(c, w, e, ctype, epoch, data).e)
  {
    hide Tame, Lawful, Complete, HandleCcs, HandleHandshake, ReportError, SendAlert;
    if ctype == CHANGE_CIPHER_SPEC {
      CcsGood(c, w, e, data);
      var r := HandleCcs(c, w, e, data);
      if r.err < 0 { ReportOrdered(c, w, r); }
    } else if ctype == HANDSHAKE {
      HandshakeGood(c, w, e, data);
      var r := HandleHandshake(c, w, e, data);
      if r.err < 0 { ReportOrdered(c, w, r); }
    }
  }

  lemma RecordOrdered(c: Config, w: World, was: Endpoint, record: seq<byte>)
    requires Tame(w) && InOrder(c, was) && |record| >= HEADER_LENGTH
    ensures InOrder(c, HandleRecord(c, w, was, record).e)
  {
    hide Tame, Lawful, Complete, HandlePayload, DecryptVerify, SendAlert;
    var e := was.(clock := was.clock + 1);
    if !e.known { PayloadOrdered(c, w, e, record[0], EpochOf(record), record[13..]); }
    else {
      match DecryptVerify(c, e, record)
      case Rejected =>
      case Accepted(data) => PayloadOrdered(c, w, AfterDecrypt(e, record), record[0], EpochOf(record), data);
    }
  }

  lemma {:induction false} MessageOrdered(c: Config, w: World, e: Endpoint, msg: seq<byte>)
    requires Tame(w) && InOrder(c, e)
    ensures InOrder(c, HandleMessage(c, w, e, msg).e)
    decreases |msg|
  {
    hide Tame, InOrder, HandleRecord;
    var n := RecordLength(msg);
    if n > 0 {
      RecordOrdered(c, w, e, msg[..n]);
      MessageOrdered(c, w, HandleRecord(c, w, e, msg[..n]).e, msg[n..]);
    }
  }

  lemma RenegotiateOrdered(c: Config, w: World, e: Endpoint)
    requires InOrder(c, e)
    ensures InOrder(c, Renegotiate(c, w, e).e)
  {
    hide Lawful, Complete, SendClientHello, SendHandshake;
    var e1 := e.With(NewHandshake(0, 0).(ready := false));
    Nothing(c.hash, e.role, e1.hs.value.tmp);
    Nothing(c.hash, e.role, SendClientHello(c, w, e1, []).e.hs.value.tmp);
  }

  lemma ConnectOrdered(c: Config, w: World, e: Endpoint)
    requires InOrder(c, e)
    ensures InOrder(c, Connect(c, w, e).e)
  {
    hide Lawful, Complete, SendClientHello, Renegotiate;
    if e.known { RenegotiateOrdered(c, w, e); }
    else {
      var e1 := NewPeer(e, Client, 0).With(NewHandshake(0, 0));
      Nothing(c.hash, Client, SendClientHello(c, w, e1, []).e.hs.value.tmp);
    }
  }

  /** Sending alone changes nothing that matters here. */
  lemma SendingOrdered(c: Config, a: Endpoint, b: Endpoint)
    requires InOrder(c, a) && SameBut(a, b)
    ensures InOrder(c, b)
  {
    hide Lawful, Complete;
  }

  lemma ResendOrdered(c: Config, w: World, e: Endpoint, epoch: uint16, ctype: byte, payload: seq<byte>)
    requires InOrder(c, e)
    ensures InOrder(c, Resend(c, w, e, epoch, ctype, payload).e)
  {
    hide Lawful, Complete, Transmit;
  }

  lemma CloseOrdered(c: Config, w: World, e: Endpoint)
    requires InOrder(c, e)
    ensures InOrder(c, Close(c, w, e).e)
  {
    hide Lawful, Complete, Send;
  }

  lemma StepOrdered(c: Config, w: World, e: Endpoint, v: Event)
    requires Tame(w) && InOrder(c, e)
    ensures InOrder(c, Step(c, w, e, v))
  {
    hide Tame, InOrder, HandleMessage, Connect, Renegotiate, Send, Resend, Close;
    match v
    case Arrives(msg) => MessageOrdered(c, w, e, msg);
    case Connects => ConnectOrdered(c, w, e);
    case Renegotiates => RenegotiateOrdered(c, w, e);
    case Writes(data) => ConnectOrdered(c, w, e); SendingOrdered(c, e, Send(c, w, e, APPLICATION_DATA, data).e);
    case Closes => CloseOrdered(c, w, e);
    case Resends(epoch, ctype, payload) => ResendOrdered(c, w, e, epoch, ctype, payload);
  }

  lemma {:induction false} RunOrdered(c: Config, w: World, e: Endpoint, vs: seq<Event>)
    requires Tame(w) && InOrder(c, e)
    ensures InOrder(c, RunFrom(c, w, e, vs))
  {
    hide Tame, Step, InOrder;
    if vs != [] {
      RunOrdered(c, w, e, vs[..|vs| - 1]);
      StepOrdered(c, w, RunFrom(c, w, e, vs[..|vs| - 1]), vs[|vs| - 1]);
    }
  }

  /**
   * In every run, an endpoint in CONNECTED whose last handshake began with a hello meant for its role has exchanged
   * hellos and keys, derived its keys once and from the exchanged random values, changed ciphers, and accepted a
   * Finished that is the PRF of its own transcript under the master secret derived before; its own Finished was made
   * with it too.
   */
  lemma ConnectedIsComplete(c: Config, w: World, vs: seq<Event>)
    requires Tame(w)
    ensures var e := Run(c, w, vs); e.known && e.state == Connected && !e.doneCrossed ==>
      Complete(c.hash, e.role, e.done) && CompleteInOctets(c.hash, e.role, e.done)
  {
    hide RunFrom, Complete, Weak, Phase, Tame, CompleteInOctets;
    RunOrdered(c, w, NOBODY, vs);
    var e := Run(c, w, vs);
    if Complete(c.hash, e.role, e.done) { CompleteOctets(c.hash, e.role, e.done); }
  }

  /** In every run, at every moment, the shared storage of such a handshake holds what its next reader takes it for. */
  lemma StorageIsLawful(c: Config, w: World, vs: seq<Event>)
    requires Tame(w)
    ensures var e := Run(c, w, vs); e.known && e.hs.Some? && !e.hs.value.crossed ==>
      Lawful(c.hash, e.role, e.hs.value.tmp, e.hs.value.trail) && StoredInOctets(c.hash, e.hs.value.tmp, e.hs.value.trail)
  {
    hide RunFrom, Lawful, Complete, Phase, Tame, StoredInOctets;
    RunOrdered(c, w, NOBODY, vs);
    var e := Run(c, w, vs);
    if e.known && e.hs.Some? && !e.hs.value.crossed { StoredOctets(c.hash, e.role, e.hs.value.tmp, e.hs.value.trail); }
  }

  /** Random values before the derivation, the 48 octets of the master secret afterwards. */
  ghost predicate StoredInOctets(h: Hash, tmp: Tmp, t: seq<Milestone>) {
    && (1 <= |t| <= 2 ==> t[0].HelloExchanged? && tmp == t[0].client + t[0].server)
    && (|t| >= 3 ==> t[0].HelloExchanged? && t[2].KeysDerived? && IsMaster(h, t[2].secret, t[0].client, t[0].server, tmp[..48]))
  }

  lemma StoredOctets(h: Hash, role: Role, tmp: Tmp, t: seq<Milestone>)
    requires Lawful(h, role, tmp, t)
    ensures StoredInOctets(h, tmp, t)
  {
    hide MasterSecret, IsMaster, Announced, Checked;
    if |t| >= 3 { MasterOctets(h, t[2].secret, t[2].client, t[2].server); }
  }
}

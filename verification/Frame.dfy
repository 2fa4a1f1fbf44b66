/** No handler of a handshake message looks at the reorder queue: what it does is the same whatever waits there. */
module Frame {
  import opened Bytes
  import opened CcmSpec
  import opened Prf
  import opened Peers
  import opened RecordSpec
  import opened Reorder
  import opened Hello
  import opened Engine

  /** The same endpoint with another reorder queue, if it is in a handshake. */
  function Requeued(e: Endpoint, q: seq<Message>): Endpoint {
    if e.hs.Some? then e.With(e.hs.value.(queue := q)) else e
  }

  function Alike(r: Outcome, q: seq<Message>): Outcome {
    Outcome(Requeued(r.e, q), r.err)
  }

  lemma SendFrame(c: Config, w: World, e: Endpoint, q: seq<Message>, ctype: byte, payload: seq<byte>)
    ensures Send(c, w, Requeued(e, q), ctype, payload) == Alike(Send(c, w, e, ctype, payload), q)
  {
    hide Protect;
  }

  lemma SendHandshakeFrame(c: Config, w: World, e: Endpoint, q: seq<Message>, kind: byte, body: seq<byte>, addHash: bool)
    ensures SendHandshake(c, w, Requeued(e, q), kind, body, addHash) == Alike(SendHandshake(c, w, e, kind, body, addHash), q)
  {
    hide Send, HandshakeHeader;
    SendFrame(c, w, Counted(e, kind, body, addHash), q, HANDSHAKE, HandshakeMessage(e, kind, body));
  }

  lemma FinishedFrame(c: Config, w: World, e: Endpoint, q: seq<Message>)
    requires e.hs.Some?
    ensures SendFinished(c, w, Requeued(e, q)) == Alike(SendFinished(c, w, e), q)
  {
    hide SendHandshake, VerifyData;
    var h := e.hs.value;
    var e1 := e.With(h.(trail := h.trail + [OwnFinished(c, e)]));
    SendHandshakeFrame(c, w, e1, q, 20, VerifyData(c.hash, h.tmp[..48], e.role, h.transcript), true);
  }

  lemma ServerFinishedFrame(c: Config, w: World, e: Endpoint, q: seq<Message>)
    requires e.hs.Some?
    ensures SendServerFinished(c, w, Requeued(e, q)) == Alike(SendServerFinished(c, w, e), q)
  {
    hide Send, SendFinished;
    SendFrame(c, w, e, q, CHANGE_CIPHER_SPEC, [1]);
    FinishedFrame(c, w, Switched(Send(c, w, e, CHANGE_CIPHER_SPEC, [1]).e), q);
  }

  lemma KeyBlockFrame(c: Config, w: World, e: Endpoint, q: seq<Message>)
    requires e.hs.Some?
    ensures CalculateKeyBlock(c, w, Requeued(e, q)) == Alike(CalculateKeyBlock(c, w, e), q)
  {
    hide MasterSecret, KeyBlockOf, PreMasterSecret;
    SecretFrame(w, e, q);
  }

  lemma SecretFrame(w: World, e: Endpoint, q: seq<Message>)
    requires e.hs.Some?
    ensures PreMasterSecret(w, Requeued(e, q), Requeued(e, q).hs.value) == PreMasterSecret(w, e, e.hs.value)
  {
    hide PreMaster;
  }

  lemma AbsorbedFrame(e: Endpoint, q: seq<Message>, m: Message)
    requires e.hs.Some?
    ensures Requeued(e, q).hs.Some? && Absorbed(Requeued(e, q), m) == Requeued(Absorbed(e, m), q)
  {
  }

  lemma SwitchedFrame(e: Endpoint, q: seq<Message>)
    ensures Switched(Requeued(e, q)) == Requeued(Switched(e), q) && (e.hs.Some? ==> Requeued(e, q).hs.Some?)
  {
  }

  lemma ClientHelloFrame(c: Config, w: World, e: Endpoint, q: seq<Message>, cookie: seq<byte>)
    requires e.hs.Some? && |cookie| < 256
    ensures SendClientHello(c, w, Requeued(e, q), cookie) == Alike(SendClientHello(c, w, e, cookie), q)
  {
    hide SendHandshake, ClientHelloBody, HelloReady, Requeued;
    StillHandshaking(e, q);
    if |cookie| <= 32 {
      var e1 := HelloReady(w, e, cookie);
      HelloReadyFrame(w, e, q, cookie);
      StillHandshaking(e1, q);
      SendHandshakeFrame(c, w, e1, q, 1, ClientHelloBody(c.psk, c.verifiesKey, e1.hs.value.tmp[..32], cookie), cookie != []);
    }
  }

  lemma HelloReadyFrame(w: World, e: Endpoint, q: seq<Message>, cookie: seq<byte>)
    requires e.hs.Some?
    ensures Requeued(e, q).hs.Some? && HelloReady(w, Requeued(e, q), cookie) == Requeued(HelloReady(w, e, cookie), q)
  {
  }

  /** Everything but the queue. */
  lemma StillHandshaking(e: Endpoint, q: seq<Message>)
    requires e.hs.Some?
    ensures var f := Requeued(e, q); var h := e.hs.value;
      f == e.With(h.(queue := q)) && f.hs == Some(h.(queue := q)) && f.clock == e.clock && f.state == e.state && f.role == e.role
  {
  }

  lemma IdentityFrame(c: Config, w: World, e: Endpoint, q: seq<Message>, id: Short)
    requires e.hs.Some?
    ensures Requeued(e, q).hs.Some? && SendIdentity(c, w, Requeued(e, q), id) == Alike(SendIdentity(c, w, e, id), q)
  {
    hide SendHandshake;
    SendHandshakeFrame(c, w, e.With(e.hs.value.(pskId := id)), q, 16, BigEndian(|id|, 2) + id, true);
  }

  lemma ClientKeyExchangeFrame(c: Config, w: World, e: Endpoint, q: seq<Message>)
    requires e.hs.Some?
    ensures SendClientKeyExchange(c, w, Requeued(e, q)) == Alike(SendClientKeyExchange(c, w, e), q)
  {
    hide SendHandshake, SendIdentity, Requeued;
    StillHandshaking(e, q);
    var reply := w.psk(e.clock, Identity(e.hs.value.pskId));
    if reply.Given? { IdentityFrame(c, w, e, q, reply.value); }
    SendHandshakeFrame(c, w, e, q, 16, w.ecc(e.clock).exchange, true);
  }

  lemma CertificateFrame(c: Config, w: World, e: Endpoint, q: seq<Message>)
    ensures SendCertificate(c, w, Requeued(e, q)) == Alike(SendCertificate(c, w, e), q)
  {
    hide SendHandshake;
    SendHandshakeFrame(c, w, e, q, 11, w.ecc(e.clock).certificate, true);
  }

  lemma FlightFrame(c: Config, w: World, e: Endpoint, q: seq<Message>)
    requires e.hs.Some?
    ensures SendKeyExchangeFlight(c, w, Requeued(e, q)) == Alike(SendKeyExchangeFlight(c, w, e), q)
  {
    hide SendHandshake, SendCertificate, SendClientKeyExchange, Requeued, SameBut;
    StillHandshaking(e, q);
    CertificateFrame(c, w, e, q);
    var auth := e.hs.value.clientAuth;
    var r1 := if auth then SendCertificate(c, w, e) else Outcome(e, 0);
    if auth { StillIn(e, r1.e); }
    ClientKeyExchangeFrame(c, w, r1.e, q);
    var r2 := SendClientKeyExchange(c, w, r1.e);
    var e2 := r2.e.With(r2.e.hs.value.(trail := r2.e.hs.value.trail + [KeyExchanged]));
    StillHandshaking(r2.e, q);
    StillHandshaking(e2, q);
    SendHandshakeFrame(c, w, e2, q, 15, w.ecc(e2.clock).verify, true);
  }

  lemma HelloDoneFrame(c: Config, w: World, e: Endpoint, q: seq<Message>, m: Message)
    requires e.hs.Some?
    ensures CheckServerHelloDone(c, w, Requeued(e, q), m) == Alike(CheckServerHelloDone(c, w, e, m), q)
  {
    hide SendKeyExchangeFlight, CalculateKeyBlock, Send, SendFinished, Requeued, Switched, SameBut;
    AbsorbedFrame(e, q, m);
    FlightFrame(c, w, Absorbed(e, m), q);
    var r1 := SendKeyExchangeFlight(c, w, Absorbed(e, m));
    KeyBlockFrame(c, w, r1.e, q);
    var r2 := CalculateKeyBlock(c, w, r1.e);
    SendFrame(c, w, r2.e, q, CHANGE_CIPHER_SPEC, [1]);
    var r3 := Send(c, w, r2.e, CHANGE_CIPHER_SPEC, [1]);
    StillIn(r2.e, r3.e);
    SwitchedFrame(r3.e, q);
    FinishedFrame(c, w, Switched(r3.e), q);
  }

  lemma StillIn(a: Endpoint, b: Endpoint)
    requires SameBut(a, b) && a.hs.Some?
    ensures b.hs.Some? && Switched(b).hs.Some?
  {
  }

  lemma EcdheFrame(c: Config, w: World, e: Endpoint, q: seq<Message>)
    ensures SendEcdheMessages(c, w, Requeued(e, q)) == Alike(SendEcdheMessages(c, w, e), q)
  {
    hide SendHandshake, SendCertificate;
    CertificateFrame(c, w, e, q);
    var r1 := SendCertificate(c, w, e);
    SendHandshakeFrame(c, w, r1.e, q, 12, w.ecc(r1.e.clock).exchange, true);
    var r2 := SendHandshake(c, w, r1.e, 12, w.ecc(r1.e.clock).exchange, true);
    SendHandshakeFrame(c, w, r2.e, q, 13, [1, 64, 0, 2, 4, 3, 0, 0], true);
  }

  lemma KeyMaterialFrame(c: Config, w: World, e: Endpoint, q: seq<Message>, cipher: uint16)
    ensures SendKeyMaterial(c, w, Requeued(e, q), cipher) == Alike(SendKeyMaterial(c, w, e, cipher), q)
  {
    hide SendHandshake, SendEcdheMessages;
    EcdheFrame(c, w, e, q);
    var reply := w.psk(e.clock, Hint);
    if reply.Given? { SendHandshakeFrame(c, w, e, q, 12, BigEndian(|reply.value|, 2) + reply.value, true); }
  }

  lemma HelloSentFrame(c: Config, w: World, e: Endpoint, q: seq<Message>)
    requires e.hs.Some?
    ensures Requeued(e, q).hs.Some? && SendServerHello(c, w, Requeued(e, q)) == Alike(SendServerHello(c, w, e), q)
  {
    hide SendHandshake, ServerHelloBody;
    var h, random := e.hs.value, w.random(e.clock);
    SendHandshakeFrame(c, w, e.With(h.(tmp := h.tmp[..32] + random)), q, 2, ServerHelloBody(h.cipher, random), true);
  }

  lemma ServerHelloFrame(c: Config, w: World, e: Endpoint, q: seq<Message>)
    requires e.hs.Some?
    ensures SendServerHelloMessages(c, w, Requeued(e, q)) == Alike(SendServerHelloMessages(c, w, e), q)
  {
    hide SendHandshake, SendKeyMaterial, SendServerHello, Requeued, SameBut;
    StillHandshaking(e, q);
    HelloSentFrame(c, w, e, q);
    var r1 := SendServerHello(c, w, e);
    KeyMaterialFrame(c, w, r1.e, q, e.hs.value.cipher);
    SendHandshakeFrame(c, w, SendKeyMaterial(c, w, r1.e, e.hs.value.cipher).e, q, 14, [], true);
  }

  lemma UpdateFrame(c: Config, w: World, e: Endpoint, q: seq<Message>, m: Message)
    requires e.hs.Some?
    ensures UpdateParameters(c, w, Requeued(e, q), m) == Alike(UpdateParameters(c, w, e, m), q)
  {
    hide ParseClientHello, OfferVerdict;
  }

  /** Only for a known peer in a handshake: otherwise both are made anew, queue and all. */
  lemma AcceptFrame(c: Config, w: World, e: Endpoint, q: seq<Message>, m: Message)
    requires e.known && e.hs.Some?
    ensures AcceptClientHello(c, w, Requeued(e, q), m) == Alike(AcceptClientHello(c, w, e, m), q)
  {
    hide UpdateParameters, SendServerHelloMessages, Count, HelloAccepted, Admitted;
    var a := Admitted(e, m);
    AdmittedFrame(e, q, m);
    UpdateFrame(c, w, a, q, m);
    var r1 := UpdateParameters(c, w, a, m);
    ServerHelloFrame(c, w, Absorbed(r1.e, m), q);
    var r2 := SendServerHelloMessages(c, w, Absorbed(r1.e, m));
    AcceptedFrame(c, r2.e, q);
    CountFrame(Outcome(HelloAccepted(c, r2.e), 0), q);
  }

  lemma AdmittedFrame(e: Endpoint, q: seq<Message>, m: Message)
    requires e.known && e.hs.Some?
    ensures Admitted(Requeued(e, q), m) == Requeued(Admitted(e, m), q)
  {
  }

  lemma AcceptedFrame(c: Config, e: Endpoint, q: seq<Message>)
    requires e.hs.Some?
    ensures HelloAccepted(c, Requeued(e, q)) == Requeued(HelloAccepted(c, e), q)
  {
  }

  lemma OnClientHelloFrame(c: Config, w: World, e: Endpoint, q: seq<Message>, m: Message)
    requires e.known && e.hs.Some?
    ensures OnClientHello(c, w, Requeued(e, q), m) == Alike(OnClientHello(c, w, e, m), q)
  {
    hide VerifyPeer, AcceptClientHello, SendHandshake;
    AcceptFrame(c, w, e, q, m);
    match VerifyPeer(c.hash, c.secret, c.session, Received(w, e, m))
    case Refused(_) =>
    case Good =>
    case Challenge(cookie, first) =>
      SendHandshakeFrame(c, w, e, q, 3, BigEndian(VERSION, 2) + [16] + cookie, false);
      AcceptFrame(c, w, SendHelloVerifyRequest(c, w, e, cookie).e, q, m);
  }

  lemma OnHelloRequestFrame(c: Config, w: World, e: Endpoint, q: seq<Message>)
    requires e.hs.Some?
    ensures OnHelloRequest(c, w, Requeued(e, q)) == Alike(OnHelloRequest(c, w, e), q)
  {
    hide SendClientHello, HelloRequested, Count;
    HelloRequestedFrame(e, q);
    ClientHelloFrame(c, w, HelloRequested(e), q, []);
    var r := SendClientHello(c, w, HelloRequested(e), []);
    CountFrame(Outcome(r.e.In(ClientHelloSent), r.err), q);
  }

  lemma HelloRequestedFrame(e: Endpoint, q: seq<Message>)
    requires e.hs.Some?
    ensures HelloRequested(Requeued(e, q)) == Requeued(HelloRequested(e), q)
  {
  }

  lemma OnVerifyRequestFrame(c: Config, w: World, e: Endpoint, q: seq<Message>, m: Message)
    requires e.hs.Some?
    ensures OnHelloVerifyRequest(c, w, Requeued(e, q), m) == Alike(OnHelloVerifyRequest(c, w, e, m), q)
  {
    hide SendClientHello, Range;
    if |m| >= 15 { ClientHelloFrame(c, w, e, q, Range(Received(w, e, m), 15, m[14])); }
  }

  lemma OnServerHelloFrame(c: Config, w: World, e: Endpoint, q: seq<Message>, m: Message)
    requires e.hs.Some?
    ensures OnServerHello(c, w, Requeued(e, q), m) == Alike(OnServerHello(c, w, e, m), q)
  {
    hide CheckServerHello;
    CheckServerHelloFrame(c, w, e, q, m);
  }

  lemma CheckServerHelloFrame(c: Config, w: World, e: Endpoint, q: seq<Message>, m: Message)
    requires e.hs.Some?
    ensures CheckServerHello(c, w, Requeued(e, q), m) == Alike(CheckServerHello(c, w, e, m), q)
  {
    hide Range, Octets2, ChosenParameters;
    if |m| >= 24 {
      var i, e1 := Received(w, e, m), Absorbed(e, m);
      ChosenFrame(c, w, e1.With(e1.hs.value.(tmp := e1.hs.value.tmp[..32] + Range(i, 14, 32))), q, i);
    }
  }

  lemma ChosenFrame(c: Config, w: World, e: Endpoint, q: seq<Message>, i: Input)
    requires e.hs.Some?
    ensures Requeued(e, q).hs.Some? && ChosenParameters(c, w, Requeued(e, q), i) == Alike(ChosenParameters(c, w, e, i), q)
  {
    hide Octets2, Octet, Skip, SizeT, ExtensionsOk;
  }

  lemma JudgedFrame(w: World, e: Endpoint, q: seq<Message>, m: Message)
    requires e.hs.Some?
    ensures Judged(w, Requeued(e, q), m) == Alike(Judged(w, e, m), q)
  {
  }

  lemma CountFrame(r: Outcome, q: seq<Message>)
    ensures Count(Alike(r, q)) == Alike(Count(r), q)
  {
  }

  lemma OnCertificateFrame(w: World, e: Endpoint, q: seq<Message>, m: Message)
    requires e.hs.Some?
    ensures OnCertificate(w, Requeued(e, q), m) == Alike(OnCertificate(w, e, m), q)
  {
    hide Judged, Count;
    JudgedFrame(w, e, q, m);
    var r := Judged(w, e, m);
    CountFrame(Outcome(r.e.In(if e.role == Client then WaitServerKeyExchange else WaitClientKeyExchange), 0), q);
  }

  lemma OnCertificateRequestFrame(w: World, e: Endpoint, q: seq<Message>, m: Message)
    requires e.hs.Some?
    ensures OnCertificateRequest(w, Requeued(e, q), m) == Alike(OnCertificateRequest(w, e, m), q)
  {
    hide Judged, Count;
    JudgedFrame(w, e, q, m);
    var r := Judged(w, e, m);
    CountFrame(Outcome(r.e.With(r.e.hs.value.(clientAuth := true)), 0), q);
  }

  lemma OnCertificateVerifyFrame(w: World, e: Endpoint, q: seq<Message>, m: Message)
    requires e.hs.Some?
    ensures OnCertificateVerify(w, Requeued(e, q), m) == Alike(OnCertificateVerify(w, e, m), q)
  {
    hide Judged, Count;
    JudgedFrame(w, e, q, m);
    CountFrame(Outcome(Judged(w, e, m).e.In(WaitChangeCipherSpec), 0), q);
  }

  lemma HintFrame(e: Endpoint, q: seq<Message>, m: Message)
    requires e.hs.Some?
    ensures CheckHint(Requeued(e, q), m) == Alike(CheckHint(e, m), q)
  {
    hide ShortField;
  }

  lemma OnServerKeyExchangeFrame(w: World, e: Endpoint, q: seq<Message>, m: Message)
    requires e.hs.Some?
    ensures OnServerKeyExchange(w, Requeued(e, q), m) == Alike(OnServerKeyExchange(w, e, m), q)
  {
    hide Judged, CheckHint, Count;
    JudgedFrame(w, e, q, m);
    HintFrame(e, q, m);
    var cipher := e.hs.value.cipher;
    var r := if cipher == ECDHE_CIPHER then Judged(w, e, m) else if cipher == PSK_CIPHER then CheckHint(e, m) else Outcome(e, 0);
    CountFrame(Outcome(r.e.In(WaitServerHelloDone), 0), q);
  }

  lemma CheckExchangeFrame(w: World, e: Endpoint, q: seq<Message>, m: Message)
    requires e.hs.Some?
    ensures CheckClientKeyExchange(w, Requeued(e, q), m) == Alike(CheckClientKeyExchange(w, e, m), q)
  {
    hide ShortField, Judged;
    JudgedFrame(w, e, q, m);
  }

  lemma ExchangedFrame(c: Config, e: Endpoint, q: seq<Message>, m: Message)
    requires e.hs.Some?
    ensures Requeued(e, q).hs.Some? && Exchanged(c, Absorbed(Requeued(e, q), m)) == Requeued(Exchanged(c, Absorbed(e, m)), q)
  {
  }

  lemma OnClientKeyExchangeFrame(c: Config, w: World, e: Endpoint, q: seq<Message>, m: Message)
    requires e.hs.Some?
    ensures OnClientKeyExchange(c, w, Requeued(e, q), m) == Alike(OnClientKeyExchange(c, w, e, m), q)
  {
    hide CheckClientKeyExchange, Exchanged, Count;
    CheckExchangeFrame(w, e, q, m);
    var r := CheckClientKeyExchange(w, e, m);
    ExchangedFrame(c, r.e, q, m);
    CountFrame(Outcome(Exchanged(c, Absorbed(r.e, m)), 0), q);
  }

  lemma OnFinishedFrame(c: Config, w: World, e: Endpoint, q: seq<Message>, m: Message)
    requires e.hs.Some?
    ensures OnFinished(c, w, Requeued(e, q), m) == Alike(OnFinished(c, w, e, m), q)
  {
    hide SendServerFinished, CheckFinished, Requeued;
    FinishedCheckFrame(c, e, q, m);
    RequeuedIs(e, q);
    if e.state == WaitFinished && CheckFinished(c, e, m) >= 0 {
      var h := e.hs.value;
      var x := FinishedAccepted(h.tmp[..48], h.transcript, m[12..24], h.mseqR);
      var e1 := e.With(h.(trail := h.trail + [x]));
      MarkedFrame(e, q, x, m);
      ServerFinishedFrame(c, w, Absorbed(e1, m), q);
      EndedFrame(if e.role == Server then SendServerFinished(c, w, Absorbed(e1, m)).e else e1, q);
    }
  }

  lemma RequeuedIs(e: Endpoint, q: seq<Message>)
    requires e.hs.Some?
    ensures Requeued(e, q) == e.With(e.hs.value.(queue := q))
  {
  }

  lemma MarkedFrame(e: Endpoint, q: seq<Message>, x: Milestone, m: Message)
    requires e.hs.Some?
    ensures var f := Requeued(e, q); var e1 := e.With(e.hs.value.(trail := e.hs.value.trail + [x]));
      && f.hs.Some? && Requeued(e1, q) == f.With(f.hs.value.(trail := f.hs.value.trail + [x]))
      && Requeued(Absorbed(e1, m), q) == Absorbed(Requeued(e1, q), m)
  {
  }

  lemma EndedFrame(e: Endpoint, q: seq<Message>)
    requires e.hs.Some?
    ensures Requeued(e, q).hs.Some? && Ended(Requeued(e, q)) == Ended(e) && Requeued(Ended(e), q) == Ended(e)
  {
  }

  lemma FinishedCheckFrame(c: Config, e: Endpoint, q: seq<Message>, m: Message)
    requires e.hs.Some?
    ensures CheckFinished(c, Requeued(e, q), m) == CheckFinished(c, e, m) && (CheckFinished(c, e, m) >= 0 ==> |m| >= 24)
  {
    hide VerifyData;
  }

  lemma OnServerHelloDoneFrame(c: Config, w: World, e: Endpoint, q: seq<Message>, m: Message)
    requires e.hs.Some?
    ensures OnServerHelloDone(c, w, Requeued(e, q), m) == Alike(OnServerHelloDone(c, w, e, m), q)
  {
    hide CheckServerHelloDone;
    HelloDoneFrame(c, w, e, q, m);
  }

  lemma HandleFrame(c: Config, w: World, was: Endpoint, q: seq<Message>, m: Message)
    requires was.known && was.hs.Some?
    ensures HandleHandshakeMsg(c, w, Requeued(was, q), m) == Alike(HandleHandshakeMsg(c, w, was, m), q)
  {
    hide OnClientHello, OnHelloRequest, OnHelloVerifyRequest, OnServerHello, OnCertificate, OnServerKeyExchange,
      OnServerHelloDone, OnCertificateRequest, OnFinished, OnClientKeyExchange, OnCertificateVerify;
    var e := was.(clock := was.clock + 1);
    if m[0] == 1 { OnClientHelloFrame(c, w, e, q, m); }
    else if m[0] == 0 { OnHelloRequestFrame(c, w, e, q); }
    else if m[0] == 3 { OnVerifyRequestFrame(c, w, e, q, m); }
    else if m[0] == 2 { OnServerHelloFrame(c, w, e, q, m); }
    else if m[0] == 14 { OnServerHelloDoneFrame(c, w, e, q, m); }
    else if m[0] == 20 { OnFinishedFrame(c, w, e, q, m); }
    else if m[0] == 12 { OnServerKeyExchangeFrame(w, e, q, m); }
    else if m[0] == 16 { OnClientKeyExchangeFrame(c, w, e, q, m); }
    else if m[0] == 11 { OnCertificateFrame(w, e, q, m); }
    else if m[0] == 13 { OnCertificateRequestFrame(w, e, q, m); }
    else if m[0] == 15 { OnCertificateVerifyFrame(w, e, q, m); }
  }
}

/** The state machine of one endpoint, in the numbers of RFC 5246: which message and which record does what in which state. */
module Machine {
  import opened Bytes
  import opened CcmSpec
  import opened Prf
  import opened Peers
  import opened RecordSpec
  import opened Datagram
  import opened Reorder
  import opened Hello
  import opened Engine
  import opened Wire

  // ---------------------------------------------------------------- handshake messages

  /** Whether a message of this type is due in this state, with the suite negotiated so far; a HelloRequest never is an error. */
  predicate IsDue(role: Role, kind: byte, state: State, cipher: uint16) {
    match kind
    case 0 => true
    case 1 => state == Connected
    case 2 => state == ClientHelloSent
    case 3 => state == ClientHelloSent
    case 11 => state == if role == Client then WaitServerCertificate else WaitClientCertificate
    case 12 => (cipher == 0xc0ae ==> state == WaitServerKeyExchange) && (cipher == 0xc0a8 ==> state == WaitServerHelloDone)
    case 13 => state == WaitServerHelloDone
    case 14 => state == WaitServerHelloDone
    case 15 => state == WaitCertificateVerify
    case 16 => state == WaitClientKeyExchange
    case 20 => state == WaitFinished
    case _ => false
  }

  /** Where it leads when it is handled without error; `cipher` is the suite then, `proof` whether the client must show a certificate. */
  predicate Leads(role: Role, kind: byte, from: State, to: State, cipher: uint16, proof: bool) {
    var certified := cipher == 0xc0ae && proof;
    match kind
    case 0 => to == if from == Connected then ClientHelloSent else from
    case 1 => to == from || to == if certified then WaitClientCertificate else WaitClientKeyExchange
    case 2 => to == if cipher == 0xc0ae then WaitServerCertificate else WaitServerHelloDone
    case 3 => to == ClientHelloSent
    case 11 => to == if role == Client then WaitServerKeyExchange else WaitClientKeyExchange
    case 12 => to == WaitServerHelloDone
    case 13 => to == WaitServerHelloDone
    case 14 => to == WaitChangeCipherSpec
    case 15 => to == WaitChangeCipherSpec
    case 16 => to == if certified then WaitCertificateVerify else WaitChangeCipherSpec
    case 20 => to == Connected
    case _ => false
  }

  function CipherOf(e: Endpoint): uint16 { if e.hs.Some? then e.hs.value.cipher else 0 }

  lemma CountMoves(r: Outcome)
    ensures Count(r).err == r.err && Count(r).e.state == r.e.state && CipherOf(Count(r).e) == CipherOf(r.e)
  {
  }

  lemma SentMoves(a: Endpoint, b: Endpoint)
    ensures SameBut(a, b) ==> b.state == a.state && CipherOf(b) == CipherOf(a)
  {
  }

  predicate Proof(c: Config) { c.ownKey && c.verifiesKey }

  lemma HelloLeads(c: Config, w: World, e: Endpoint, m: Message)
    requires e.known && e.state == Connected
    ensures var r := AcceptClientHello(c, w, e, m);
      r.err >= 0 ==> r.e.state == if CipherOf(r.e) == 0xc0ae && Proof(c) then WaitClientCertificate else WaitClientKeyExchange
  {
    hide UpdateParameters, SendServerHelloMessages, Count;
    var r1 := UpdateParameters(c, w, Admitted(e, m), m);
    if r1.err >= 0 {
      var r2 := SendServerHelloMessages(c, w, Absorbed(r1.e, m));
      if r2.err >= 0 { CountMoves(Outcome(HelloAccepted(c, r2.e), 0)); }
    }
  }

  lemma ClientHelloLeads(c: Config, w: World, e: Endpoint, m: Message)
    requires e.known && e.state == Connected
    ensures var r := OnClientHello(c, w, e, m); r.err >= 0 ==> Leads(e.role, 1, e.state, r.e.state, CipherOf(r.e), Proof(c))
  {
    hide VerifyPeer, AcceptClientHello, SendHelloVerifyRequest, Count, Proof;
    HelloLeads(c, w, e, m);
    match VerifyPeer(c.hash, c.secret, c.session, Received(w, e, m))
    case Refused(_) =>
    case Good =>
    case Challenge(cookie, _) =>
      var r := SendHelloVerifyRequest(c, w, e, cookie);
      SentMoves(e, r.e);
      CountMoves(r);
      HelloLeads(c, w, r.e, m);
  }

  lemma HelloRequestLeads(c: Config, w: World, e: Endpoint)
    ensures var r := OnHelloRequest(c, w, e); r.err >= 0 ==> Leads(e.role, 0, e.state, r.e.state, CipherOf(r.e), Proof(c))
  {
    hide SendClientHello, Count;
    var r := SendClientHello(c, w, HelloRequested(e), []);
    CountMoves(Outcome(r.e.In(ClientHelloSent), r.err));
  }

  lemma ServerHelloLeads(c: Config, w: World, e: Endpoint, m: Message)
    requires e.hs.Some? && e.state == ClientHelloSent
    ensures var r := OnServerHello(c, w, e, m); r.err >= 0 ==> Leads(e.role, 2, e.state, r.e.state, CipherOf(r.e), Proof(c))
  {
    hide CheckServerHello, Count;
    var r := CheckServerHello(c, w, e, m);
    CountMoves(Outcome(HelloTaken(r.e), 0));
  }

  lemma VerifyRequestLeads(c: Config, w: World, e: Endpoint, m: Message)
    requires e.hs.Some? && e.state == ClientHelloSent
    ensures var r := OnHelloVerifyRequest(c, w, e, m); r.err >= 0 ==> Leads(e.role, 3, e.state, r.e.state, CipherOf(r.e), Proof(c))
  {
    hide SendClientHello, Range, Count;
    if |m| >= 15 { CountMoves(SendClientHello(c, w, e, Range(Received(w, e, m), 15, m[14]))); }
  }

  lemma HelloDoneLeads(c: Config, w: World, e: Endpoint, m: Message)
    requires e.hs.Some? && e.state == WaitServerHelloDone
    ensures var r := OnServerHelloDone(c, w, e, m); r.err >= 0 ==> Leads(e.role, 14, e.state, r.e.state, CipherOf(r.e), Proof(c))
  {
    hide CheckServerHelloDone, Count;
    var r := CheckServerHelloDone(c, w, e, m);
    CountMoves(Outcome(r.e.In(WaitChangeCipherSpec), r.err));
  }

  lemma FinishedLeads(c: Config, w: World, e: Endpoint, m: Message)
    requires e.hs.Some? && e.state == WaitFinished
    ensures var r := OnFinished(c, w, e, m); r.err >= 0 ==> Leads(e.role, 20, e.state, r.e.state, CipherOf(r.e), Proof(c))
  {
    hide AnswerFinished, CheckFinished;
  }

  lemma ClientExchangeLeads(c: Config, w: World, e: Endpoint, m: Message)
    requires e.hs.Some? && e.state == WaitClientKeyExchange
    ensures var r := OnClientKeyExchange(c, w, e, m); r.err >= 0 ==> Leads(e.role, 16, e.state, r.e.state, CipherOf(r.e), Proof(c))
  {
    hide CheckClientKeyExchange, Count;
    var r := CheckClientKeyExchange(w, e, m);
    if r.err >= 0 { CountMoves(Outcome(Exchanged(c, Absorbed(r.e, m)), 0)); }
  }

  /** Messages that the elliptic-curve half judges, and the ServerKeyExchange. */
  lemma JudgedLeads(c: Config, w: World, e: Endpoint, m: Message)
    requires e.hs.Some?
    ensures var r := OnCertificate(w, e, m); r.err >= 0 ==> Leads(e.role, 11, e.state, r.e.state, CipherOf(r.e), Proof(c))
    ensures var r := OnServerKeyExchange(w, e, m); r.err >= 0 ==> Leads(e.role, 12, e.state, r.e.state, CipherOf(r.e), Proof(c))
    ensures var r := OnCertificateRequest(w, e, m); r.err >= 0 ==> Leads(e.role, 13, e.state, r.e.state, CipherOf(r.e), Proof(c))
    ensures var r := OnCertificateVerify(w, e, m); r.err >= 0 ==> Leads(e.role, 15, e.state, r.e.state, CipherOf(r.e), Proof(c))
  {
    hide ShortField;
  }

  lemma NotDueRefused(c: Config, w: World, e: Endpoint, m: Message)
    requires e.known && e.hs.Some? && !IsDue(e.role, m[0], e.state, e.hs.value.cipher)
    ensures HandleHandshakeMsg(c, w, e, m) == Outcome(e.(clock := e.clock + 1), -522)
  {
    hide VerifyPeer, AcceptClientHello, Challenged, SendClientHello, CheckServerHello, Judged, CheckHint, CheckServerHelloDone,
      CheckFinished, AnswerFinished, CheckClientKeyExchange, Count, ShortField, Range;
  }

  lemma DueLeads(c: Config, w: World, e: Endpoint, m: Message)
    requires e.known && e.hs.Some? && IsDue(e.role, m[0], e.state, e.hs.value.cipher)
    ensures var r := HandleHandshakeMsg(c, w, e, m); r.err >= 0 ==> Leads(e.role, m[0], e.state, r.e.state, CipherOf(r.e), Proof(c))
  {
    hide OnClientHello, OnHelloRequest, OnHelloVerifyRequest, OnServerHello, OnCertificate, OnServerKeyExchange,
      OnServerHelloDone, OnCertificateRequest, OnFinished, OnClientKeyExchange, OnCertificateVerify, Leads;
    var f := e.(clock := e.clock + 1);
    JudgedLeads(c, w, f, m);
    HelloRequestLeads(c, w, f);
    if f.state == Connected { ClientHelloLeads(c, w, f, m); }
    if f.state == ClientHelloSent { ServerHelloLeads(c, w, f, m); VerifyRequestLeads(c, w, f, m); }
    if f.state == WaitServerHelloDone { HelloDoneLeads(c, w, f, m); }
    if f.state == WaitFinished { FinishedLeads(c, w, f, m); }
    if f.state == WaitClientKeyExchange { ClientExchangeLeads(c, w, f, m); }
  }

  /**
   * At every endpoint in a handshake, for every message in turn: one that is not due changes nothing and is answered
   * with unexpected_message (10); one that is due and is handled without error leads where RFC 5246 has it.
   */
  lemma MessagesMove(c: Config, w: World, e: Endpoint, m: Message)
    requires e.known && e.hs.Some?
    ensures var r := HandleHandshakeMsg(c, w, e, m);
      if IsDue(e.role, m[0], e.state, e.hs.value.cipher)
      then r.err >= 0 ==> Leads(e.role, m[0], e.state, r.e.state, CipherOf(r.e), Proof(c))
      else r == Outcome(e.(clock := e.clock + 1), -522)
  {
    hide HandleHandshakeMsg, IsDue, Leads;
    if IsDue(e.role, m[0], e.state, e.hs.value.cipher) { DueLeads(c, w, e, m); } else { NotDueRefused(c, w, e, m); }
  }

  // ---------------------------------------------------------------- records

  /** The type of a record and the first octets of its payload, at an endpoint that knows the peer. */
  lemma PayloadsMove(c: Config, w: World, e: Endpoint, ctype: byte, epoch: uint16, data: seq<byte>)
    requires e.known
    ensures var r := HandlePayload(c, w, e, ctype, epoch, data);
      && (ctype !in {20, 21, 22} ==> r == Outcome(e, 0))
      && (ctype == 20 && (e.state != WaitChangeCipherSpec || e.hs.None?) ==> r == Outcome(e, 0))
      && (ctype == 20 && e.state == WaitChangeCipherSpec && e.hs.Some? ==>
            if |data| >= 1 && data[0] == 1 then r.err >= 0 ==> r.e.known && r.e.state == WaitFinished else r.err == -562 && !r.e.known)
      && (ctype == 22 && epoch != InEpoch(e) ==> r == Outcome(e, 0))
      && (ctype == 22 && epoch == InEpoch(e) && |data| < 12 ==> r.err == -562 && r.e.state == Closing && Wrote(c.aes, e, r.e, 21, [2, 50]))
  {
    hide HandleHandshakeMsg, CalculateKeyBlock, DrainQueue, Send, Wrote;
    if ctype == 22 { ReportOctets(c, w, e, -562); }
  }

  /** The epoch handshake messages have to come in: that of slot 0, and the next for the Finished of a client. */
  function InEpoch(e: Endpoint): int {
    var current := if e.s0.Some? then e.s0.value.epoch else 0;
    if e.role == Server && e.state == WaitFinished then (current + 1) % 65536 else current
  }

  /**
   * An alert: with fewer than two octets, decode_error (50); fatal (2), or close_notify (0) of any level, frees the
   * peer, after close_notify has been sent back once; any other changes nothing.
   */
  lemma AlertsMove(c: Config, w: World, e: Endpoint, epoch: uint16, data: seq<byte>)
    requires e.known
    ensures var r := HandlePayload(c, w, e, 21, epoch, data);
      if |data| < 2 then r == Outcome(e, -562)
      else if data[0] == 2 || data[1] == 0 then
        && r.err == -1 && !r.e.known && r.e.s0.None? && r.e.s1.None? && r.e.hs.None?
        && if data[1] == 0 && e.state != Closing then Wrote(c.aes, e, r.e, 21, [2, 0]) else r.e.sent == e.sent
      else r == Outcome(e, 0)
  {
    hide Send, Carries;
    SendOctets(c, w, e.In(Closing), ALERT, [FATAL, CLOSE_NOTIFY]);
  }

  // ---------------------------------------------------------------- errors

  /**
   * Too short a ServerHello: decode_error (50); another version: protocol_version (70); otherwise no error or one of
   * decode_error, insufficient_security (71) and handshake_failure (40).
   */
  lemma ServerHelloErrors(c: Config, w: World, e: Endpoint, m: Message)
    requires e.hs.Some?
    ensures var err := CheckServerHello(c, w, e, m).err;
      && (|m| < 24 ==> err == -562)
      && (|m| >= 24 && !(m[12] == 254 && m[13] == 253) ==> err == -582)
      && (|m| >= 24 && m[12] == 254 && m[13] == 253 ==> err in {0, -562, -583, -552})
      && (50 <= |m| < 0x1_0000_0000 && m[12] == 254 && m[13] == 253 && m[46] == 0 && m[49] != 0 ==> err == -583)
  {
    hide Range, SizeT, ExtensionsOk;
    if 50 <= |m| < 0x1_0000_0000 { SizeTSmall(|m| - 46); }
  }

  /** A hint or an identity: too short, or of another length than it says; longer than 32 octets. */
  lemma FieldErrors(e: Endpoint, w: World, m: Message)
    requires e.hs.Some? && e.hs.value.cipher == 0xc0a8
    ensures var broken := |m| < 14 || 256 * m[12] as int + m[13] as int != |m| - 14;
      && CheckHint(e, m).err == (if broken then -562 else if |m| > 46 then -592 else 0)
      && CheckClientKeyExchange(w, e, m).err == (if broken then -552 else if |m| > 46 then -592 else 0)
  {
  }

  /** A Finished that is not the expected one: handshake_failure; a key that does not fit, or no suite: internal_error. */
  lemma SecretErrors(c: Config, w: World, e: Endpoint, m: Message)
    requires e.hs.Some?
    ensures var h := e.hs.value;
      CheckFinished(c, e, m) ==
      if |m| >= 24 && IsVerify(c.hash, h.tmp[..48], if e.role == Client then Server else Client, h.transcript, m[12..24]) then 0 else -552
    ensures var h := e.hs.value; var r := CalculateKeyBlock(c, w, e);
      && (h.cipher !in {0xc0a8, 0xc0ae} ==> r.err == -592)
      && (h.cipher == 0xc0a8 ==>
            match w.psk(e.clock, Key(h.pskId)) case Failed(code) => r.err == code case Given(key) => r.err == if |key| <= 18 then 0 else -592)
  {
    hide IsVerify, VerifyData, PreMaster, KeysFrom;
    var h := e.hs.value;
    if |m| >= 24 { VerifyExactly(c.hash, h.tmp[..48], Other(e.role), h.transcript, m[12..24]); }
    if w.psk(e.clock, Key(h.pskId)).Given? { KeyBlockRoom(w.psk(e.clock, Key(h.pskId)).value); }
  }

  /** A ClientHello to which no cookie can be computed, and an offer that will not do: the latter only warns an established peer. */
  lemma OfferErrors(c: Config, w: World, e: Endpoint, m: Message)
    ensures var v := VerifyPeer(c.hash, c.secret, c.session, Received(w, e, m)); v.Refused? ==> v.code == -552
    ensures e.hs.Some? ==> UpdateParameters(c, w, e, m).err in {0, if e.state == Connected then -356 else -552}
  {
    hide ParseClientHello, ExtensionsOk, CookieText, CookieField, Cookie;
  }

  /** Anything but a ClientHello leaves a stranger unknown: with decode_error, handshake_failure, -1 or nothing, and without an answer. */
  lemma StrangersMove(c: Config, w: World, e: Endpoint, ctype: byte, epoch: uint16, data: seq<byte>)
    requires !e.known && !(ctype == 22 && |data| >= 12 && data[0] == 1)
    ensures HandlePayload(c, w, e, ctype, epoch, data) == Outcome(e,
      if ctype == 22 then if |data| < 12 then -562 else -552
      else if ctype == 21 && |data| < 2 then -562 else if ctype == 23 then -1 else 0)
  {
    hide HandleHandshakeMsg, SendAlert;
  }

  /**
   * A ChangeCipherSpec that fails frees the peer: after an alert with the error, if it is one that is reported, and
   * after close_notify (0) if it is not.
   */
  lemma ChangeFails(c: Config, w: World, e: Endpoint, epoch: uint16, data: seq<byte>)
    requires e.known && e.state == WaitChangeCipherSpec && e.hs.Some? && HandlePayload(c, w, e, 20, epoch, data).err < 0
    ensures var r := HandlePayload(c, w, e, 20, epoch, data); var code := -r.err;
      && !r.e.known && r.e.s0.None? && r.e.s1.None? && r.e.hs.None?
      && Wrote(c.aes, e, r.e, 21, if code == 1 then [2, 80] else if 256 < code < 768 then [code / 256, code % 256] else [2, 0])
      && (if |data| >= 1 && data[0] == 1 then e.role == Server && r.err == CalculateKeyBlock(c, w, e).err else r.err == -562)
  {
    hide CalculateKeyBlock, Send, Wrote, SendAlert;
    var r := HandleCcs(c, w, e, data);
    CcsKeepsSent(c, w, e, data);
    var code := -r.err;
    var f := ReportError(c, w, r.e, r.err);
    ReportOctets(c, w, r.e, r.err);
    var payload := if code == 1 then [2, 80] else if 256 < code < 768 then [code / 256, code % 256] else [2, 0];
    AlertOctets(c, w, f.In(Closing), 2, 0);
    var g := if f.state == Closing then f else SendAlert(c, w, f.In(Closing), 2, 0);
    WroteAs(c.aes, r.e, e, g, payload);
  }

  lemma AlertOctets(c: Config, w: World, e: Endpoint, level: byte, description: byte)
    ensures Wrote(c.aes, e, SendAlert(c, w, e, level, description), 21, [level, description])
  {
    hide Send, Wrote;
    SendOctets(c, w, e, ALERT, [level, description]);
  }

  lemma CcsKeepsSent(c: Config, w: World, e: Endpoint, data: seq<byte>)
    requires e.hs.Some? && HandleCcs(c, w, e, data).err < 0
    ensures var f := HandleCcs(c, w, e, data).e; f.known == e.known && f.state == e.state && f.role == e.role && f.s0 == e.s0 && f.sent == e.sent
  {
    hide CalculateKeyBlock;
  }

  lemma WroteAs(aes: Aes, a: Endpoint, e: Endpoint, b: Endpoint, payload: seq<byte>)
    requires exists d: Endpoint :: d.sent == a.sent && d.role == a.role && d.s0 == a.s0 && Wrote(aes, d, b, 21, payload)
    requires a.sent == e.sent && a.role == e.role && a.s0 == e.s0
    ensures Wrote(aes, e, Forgotten(b), 21, payload)
  {
    hide Carries;
  }

  // ---------------------------------------------------------------- calls of the application

  /** dtls_close: a fatal close_notify and the state of closing, whatever the state was; -1 without a peer. */
  lemma CloseMoves(c: Config, w: World, e: Endpoint)
    ensures var r := Close(c, w, e);
      if e.known then r.err == 0 && r.e.known && r.e.state == Closing && Wrote(c.aes, e, r.e, 21, [2, 0]) else r == Outcome(e, -1)
  {
    hide SendAlert, Carries;
    AlertOctets(c, w, e, 2, 0);
  }

  /**
   * dtls_write: a record of type 23 if connected; 0 and nothing in any other state of a known peer. Without one a
   * connection attempt, and 0 unless it fails.
   */
  lemma WriteMoves(c: Config, w: World, e: Endpoint, data: seq<byte>)
    ensures var r := Write(c, w, e, data);
      && (e.known && e.state == Connected && Fits(e.s0, |data|) ==>
            && Wrote(c.aes, e, r.e, 23, data)
            && var bytes := r.e.sent[|e.sent|].bytes; var n := w.write(e.clock, bytes);
               r.err == if n <= 0 then n else n - (|bytes| - |data|))
      && (e.known && e.state == Connected && !Fits(e.s0, |data|) ==> r.err == -592 && r.e.sent == e.sent)
      && (e.known && e.state != Connected ==> r == Outcome(e, 0))
      && (!e.known ==> var q := Connect(c, w, e); r == Outcome(q.e, if q.err < 0 then q.err else 0))
  {
    hide Send, Wrote, Connect;
    SendOctets(c, w, e, APPLICATION_DATA, data);
  }

  /** dtls_connect without a peer: a client whose first record, numbered 0 in epoch 0, is a ClientHello numbered 0 without a cookie. */
  lemma ConnectMoves(c: Config, w: World, e: Endpoint)
    requires !e.known
    ensures var r := Connect(c, w, e); var body := ClientHelloBody(c.psk, c.verifiesKey, w.random(e.clock), []);
      && r.e.known && r.e.role == Client && r.e.hs.Some? && r.e.hs.value.mseqR == 0 && r.e.hs.value.mseqS == 1
      && r.e.hs.value.tmp[..32] == w.random(e.clock) && r.e.hs.value.transcript == []
      && (r.err >= 0 ==> r.e.state == ClientHelloSent)
      && |r.e.sent| == |e.sent| + 1 && var bytes := r.e.sent[|e.sent|].bytes;
         Headed(bytes, 22, 0, 0) && bytes[13..] == MessageHeader(1, |body|, 0) + body
  {
    hide SendHandshake, ClientHelloBody, MessageHeader, Headed;
    var e1 := NewPeer(e, Client, 0).With(NewHandshake(0, 0));
    var e2 := HelloReady(w, e1, []);
    var body := ClientHelloBody(c.psk, c.verifiesKey, w.random(e.clock), []);
    BodyFits(c.psk, c.verifiesKey, w.random(e.clock));
    HandshakeOctets(c, w, e2, 1, body, false);
    assert e2.hs.value.tmp[..32] == w.random(e.clock);
  }

  lemma BodyFits(psk: bool, ecdsa: bool, random: Random)
    ensures |ClientHelloBody(psk, ecdsa, random, [])| <= 80
  {
    ClientHelloOctets(psk, ecdsa, random, []);
    hide ClientHelloBody;
  }

  /** dtls_renegotiate: a ClientHello or an empty HelloRequest, numbered 0, under the keys in use; -1 if not connected. */
  lemma RenegotiateMoves(c: Config, w: World, e: Endpoint)
    ensures var r := Renegotiate(c, w, e);
      var body := if e.role == Client then ClientHelloBody(c.psk, c.verifiesKey, w.random(e.clock), []) else [];
      if e.known && e.state == Connected then
        && r.e.known && r.e.role == e.role && r.e.hs.Some? && r.e.hs.value.mseqR == 0 && r.e.hs.value.mseqS == 1
        && Wrote(c.aes, e, r.e, 22, MessageHeader(if e.role == Client then 1 else 0, |body|, 0) + body)
        && r.e.state == if e.role == Client && r.err >= 0 then ClientHelloSent else Connected
      else r == Outcome(e, -1)
  {
    hide SendHandshake, ClientHelloBody, MessageHeader, Carries;
    var e1 := e.With(NewHandshake(0, 0).(ready := false));
    BodyFits(c.psk, c.verifiesKey, w.random(e.clock));
    HandshakeOctets(c, w, HelloReady(w, e1, []), 1, ClientHelloBody(c.psk, c.verifiesKey, w.random(e.clock), []), false);
    HandshakeOctets(c, w, e1, 0, [], false);
    assert HelloReady(w, e1, []).hs.value.tmp[..32] == w.random(e.clock);
  }

  /** dtls_retransmit: the message leaves under the slot of its epoch, with that slot's next number, or with neither if there is no such slot. */
  lemma ResendMoves(c: Config, w: World, e: Endpoint, epoch: uint16, ctype: byte, payload: seq<byte>)
    requires e.known
    ensures var f := Resend(c, w, e, epoch, ctype, payload).e;
      var first := e.s0.Some? && e.s0.value.epoch == epoch;
      var second := !first && e.s1.Some? && e.s1.value.epoch == epoch;
      var s := if first then e.s0 else if second then e.s1 else None;
      && f == e.(s0 := f.s0, s1 := f.s1, clock := f.clock, sent := f.sent)
      && f.s0 == (if first then Some(e.s0.value.(rseq := e.s0.value.rseq + 1)) else e.s0)
      && f.s1 == (if second then Some(e.s1.value.(rseq := e.s1.value.rseq + 1)) else e.s1)
      && (if Fits(s, |payload|)
          then |f.sent| == |e.sent| + 1 && f.sent[..|e.sent|] == e.sent && Carries(c.aes, e.role, s, ctype, payload, f.sent[|e.sent|].bytes)
          else f.sent == e.sent)
  {
    hide Protect, Carries;
    ProtectOctets(c.aes, e.role, ByEpoch(e.s0, e.s1, epoch), ctype, payload);
  }
}

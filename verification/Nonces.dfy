/**
 * No security-parameters object ever numbers two records alike, over any run: sends, retransmissions, key
 * calculations, epoch switches, and peers coming and going.
 */
module Nonces {
  import opened Bytes
  import opened CcmSpec
  import opened Peers
  import opened RecordSpec
  import opened Datagram
  import opened Reorder
  import opened Hello
  import opened Engine
  import opened Wire

  /** Sent under the object that is now `s`: the same keys and epoch, the same role, an earlier sequence number. */
  ghost predicate Before(role: Role, x: Sent, s: Security) {
    x.under.Some? && x.under.value.id == s.id ==>
      x.role == role && x.under == Some(s.(rseq := x.under.value.rseq)) && x.under.value.rseq < s.rseq
  }

  ghost predicate Fresh(x: Sent, made: nat) {
    x.under.Some? ==> x.under.value.id < made
  }

  /** Each record is what its security parameters make of its payload, and numbered after all earlier ones under the same object. */
  ghost predicate Numbered(c: Config, sent: seq<Sent>) {
    && (forall x :: x in sent ==> x.bytes == Protect(c.aes, x.role, x.under, x.ctype, x.payload))
    && (forall i, j :: 0 <= i < j < |sent| && sent[j].under.Some? ==> Before(sent[j].role, sent[i], sent[j].under.value))
  }

  /** What a slot may hold: an object that has been made, with a number none of its records has reached. */
  ghost predicate Slot(role: Role, s: Option<Security>, made: nat, sent: seq<Sent>) {
    s.Some? ==> s.value.id < made && forall x :: x in sent ==> Before(role, x, s.value)
  }

  ghost predicate Ledger(c: Config, role: Role, s0: Option<Security>, s1: Option<Security>, made: nat, sent: seq<Sent>) {
    && Numbered(c, sent)
    && (forall x :: x in sent ==> Fresh(x, made))
    && Slot(role, s0, made, sent) && Slot(role, s1, made, sent)
    && (s0.Some? && s1.Some? ==> s0.value.id != s1.value.id)
  }

  ghost predicate Sound(c: Config, e: Endpoint) {
    Ledger(c, e.role, e.s0, e.s1, e.made, e.sent)
  }

  // ---------------------------------------------------------------- the four ways the ledger changes

  lemma NumberedAppend(c: Config, sent: seq<Sent>, x: Sent)
    requires Numbered(c, sent) && x.bytes == Protect(c.aes, x.role, x.under, x.ctype, x.payload)
    requires x.under.Some? ==> forall y :: y in sent ==> Before(x.role, y, x.under.value)
    ensures Numbered(c, sent + [x])
  {
    hide Before, Protect;
    var t := sent + [x];
    forall i, j | 0 <= i < j < |t| && t[j].under.Some? ensures Before(t[j].role, t[i], t[j].under.value) {
      if j == |sent| { assert t[i] in sent; }
    }
  }

  /** A slot after a record under slot 0 (or under none) has gone out, slot 0 having been counted up. */
  lemma SlotAppend(role: Role, s: Option<Security>, made: nat, sent: seq<Sent>, x: Sent)
    requires Slot(role, s, made, sent) && x.role == role
    requires s.Some? && x.under.Some? && x.under.value.id == s.value.id ==> x.under == s
    ensures Slot(role, if s.Some? && x.under.Some? && x.under.value.id == s.value.id then Bumped(s) else s, made, sent + [x])
  {
    if s.Some? {
      forall y | y in sent + [x]
        ensures Before(role, y, if x.under.Some? && x.under.value.id == s.value.id then Bumped(s).value else s.value)
      {
        if y != x { assert y in sent && Before(role, y, s.value); }
      }
    }
  }

  /** Counting up without sending. */
  lemma SlotBumped(role: Role, s: Option<Security>, made: nat, sent: seq<Sent>)
    requires Slot(role, s, made, sent)
    ensures Slot(role, Bumped(s), made, sent)
  {
    if s.Some? {
      forall x | x in sent ensures Before(role, x, Bumped(s).value) { assert Before(role, x, s.value); }
    }
  }

  /** An object just made has sent nothing. */
  lemma SlotFresh(role: Role, s: Security, made: nat, sent: seq<Sent>)
    requires s.id >= made && forall x :: x in sent ==> Fresh(x, made)
    ensures Slot(role, Some(s), s.id + 1, sent)
  {
    forall x | x in sent ensures Before(role, x, s) { assert Fresh(x, made); }
  }

  lemma SlotLater(role: Role, s: Option<Security>, made: nat, sent: seq<Sent>)
    requires Slot(role, s, made, sent)
    ensures Slot(role, s, made + 1, sent)
  {
    hide Before;
  }

  lemma FreshAppend(sent: seq<Sent>, made: nat, x: Sent)
    requires (forall y :: y in sent ==> Fresh(y, made)) && Fresh(x, made)
    ensures forall y :: y in sent + [x] ==> Fresh(y, made)
  {
    hide Fresh;
    forall y | y in sent + [x] ensures Fresh(y, made) { if y != x { assert y in sent; } }
  }

  lemma LedgerAppend(c: Config, role: Role, s0: Option<Security>, s1: Option<Security>, made: nat, sent: seq<Sent>, x: Sent)
    requires Ledger(c, role, s0, s1, made, sent)
    requires x.role == role && (x.under.None? || x.under == s0 || x.under == s1)
    requires x.bytes == Protect(c.aes, x.role, x.under, x.ctype, x.payload)
    ensures Ledger(c, role, if x.under.Some? && x.under == s0 then Bumped(s0) else s0,
                   if x.under.Some? && x.under == s1 then Bumped(s1) else s1, made, sent + [x])
  {
    NumberedAppend(c, sent, x);
    SlotAppend(role, s0, made, sent, x);
    SlotAppend(role, s1, made, sent, x);
    FreshAppend(sent, made, x);
    hide Numbered, Before, Protect, Slot;
    assert Slot(role, s0, made, sent) && Slot(role, s1, made, sent);
  }

  lemma LedgerBumped(c: Config, role: Role, s0: Option<Security>, s1: Option<Security>, made: nat, sent: seq<Sent>)
    requires Ledger(c, role, s0, s1, made, sent)
    ensures Ledger(c, role, Bumped(s0), s1, made, sent) && Ledger(c, role, s0, Bumped(s1), made, sent)
  {
    SlotBumped(role, s0, made, sent);
    SlotBumped(role, s1, made, sent);
    hide Numbered, Fresh, Slot;
  }

  // ---------------------------------------------------------------- every operation keeps it

  lemma SendKeeps(c: Config, w: World, e: Endpoint, ctype: byte, payload: seq<byte>)
    requires Sound(c, e)
    ensures Sound(c, Send(c, w, e, ctype, payload).e)
  {
    hide Ledger, Protect;
    var bytes := Protect(c.aes, e.role, e.s0, ctype, payload);
    LedgerBumped(c, e.role, e.s0, e.s1, e.made, e.sent);
    LedgerAppend(c, e.role, e.s0, e.s1, e.made, e.sent, Engine.Sent(e.role, e.s0, ctype, payload, bytes));
    SlotsDiffer(c, e);
  }

  lemma SlotsDiffer(c: Config, e: Endpoint)
    requires Sound(c, e)
    ensures e.s0.Some? && e.s1.Some? ==> e.s0 != e.s1
  {
    hide Numbered, Slot;
  }

  lemma ResendKeeps(c: Config, w: World, e: Endpoint, epoch: uint16, ctype: byte, payload: seq<byte>)
    requires Sound(c, e)
    ensures Sound(c, Resend(c, w, e, epoch, ctype, payload).e)
  {
    hide Ledger, Protect;
    var s := ByEpoch(e.s0, e.s1, epoch);
    var bytes := Protect(c.aes, e.role, s, ctype, payload);
    LedgerBumped(c, e.role, e.s0, e.s1, e.made, e.sent);
    LedgerAppend(c, e.role, e.s0, e.s1, e.made, e.sent, Engine.Sent(e.role, s, ctype, payload, bytes));
    SlotsDiffer(c, e);
  }

  lemma NewPeerKeeps(c: Config, e: Endpoint, role: Role, rseq: nat)
    requires Sound(c, e)
    ensures Sound(c, NewPeer(e, role, rseq)) && Sound(c, Forgotten(e))
  {
    SlotFresh(role, NewSecurity(e.made).(rseq := rseq), e.made, e.sent);
    hide Numbered, Before;
  }

  /** A new slot 1 replaces the old one, whatever is then put into it. */
  lemma NextKeeps(c: Config, e: Endpoint, s: Security)
    requires Sound(c, e) && s.id == e.made
    ensures Ledger(c, e.role, e.s0, Some(s), e.made + 1, e.sent)
  {
    SlotFresh(e.role, s, e.made, e.sent);
    SlotLater(e.role, e.s0, e.made, e.sent);
    hide Numbered, Slot;
    assert forall x :: x in e.sent ==> Fresh(x, e.made + 1) by { assert forall x :: x in e.sent ==> Fresh(x, e.made); }
    SlotIds(e);
  }

  lemma SlotIds(e: Endpoint)
    requires Slot(e.role, e.s0, e.made, e.sent)
    ensures e.s0.Some? ==> e.s0.value.id < e.made
  {
  }

  lemma CalculateKeeps(c: Config, w: World, e: Endpoint)
    requires Sound(c, e) && e.hs.Some?
    ensures Sound(c, CalculateKeyBlock(c, w, e).e)
  {
    hide Ledger, PreMasterSecret, MasterSecret, KeyBlockOf;
    var r := CalculateKeyBlock(c, w, e);
    NextKeeps(c, e, r.e.s1.value);
  }

  lemma SlotsKeep(c: Config, e: Endpoint)
    requires Sound(c, e)
    ensures Sound(c, Switched(e)) && Sound(c, FreedOther(e))
  {
    hide Numbered, Fresh;
  }

  lemma SendHandshakeKeeps(c: Config, w: World, e: Endpoint, kind: byte, body: seq<byte>, addHash: bool)
    requires Sound(c, e)
    ensures Sound(c, SendHandshake(c, w, e, kind, body, addHash).e)
  {
    hide Ledger, Send, HandshakeMessage;
    SendKeeps(c, w, Counted(e, kind, body, addHash), HANDSHAKE, HandshakeMessage(e, kind, body));
  }

  lemma SendFinishedKeeps(c: Config, w: World, e: Endpoint)
    requires Sound(c, e) && e.hs.Some?
    ensures Sound(c, SendFinished(c, w, e).e)
  {
    hide Ledger, SendHandshake, VerifyData;
    var h := e.hs.value;
    var e1 := e.With(h.(trail := h.trail + [OwnFinished(c, e)]));
    SendHandshakeKeeps(c, w, e1, 20, VerifyData(c.hash, h.tmp[..48], e.role, h.transcript), true);
  }

  lemma SendClientHelloKeeps(c: Config, w: World, e: Endpoint, cookie: seq<byte>)
    requires Sound(c, e) && e.hs.Some? && |cookie| < 256
    ensures Sound(c, SendClientHello(c, w, e, cookie).e)
  {
    hide Ledger, SendHandshake, ClientHelloBody;
    if |cookie| <= 32 {
      var h := e.hs.value;
      var h1 := if cookie == [] then h.(tmp := w.random(e.clock) + h.tmp[32..]) else h.(transcript := []);
      SendHandshakeKeeps(c, w, e.With(h1), 1, ClientHelloBody(c.psk, c.verifiesKey, h1.tmp[..32], cookie), cookie != []);
    }
  }

  lemma SendClientKeyExchangeKeeps(c: Config, w: World, e: Endpoint)
    requires Sound(c, e) && e.hs.Some?
    ensures Sound(c, SendClientKeyExchange(c, w, e).e)
  {
    hide Ledger, SendHandshake;
    var h := e.hs.value;
    if h.cipher == PSK_CIPHER {
      match w.psk(e.clock, Identity(h.pskId))
      case Failed(_) =>
      case Given(id) => SendHandshakeKeeps(c, w, e.With(h.(pskId := id)), 16, BigEndian(|id|, 2) + id, true);
    } else {
      SendHandshakeKeeps(c, w, e, 16, w.ecc(e.clock).exchange, true);
    }
  }

  lemma SendCertificateKeeps(c: Config, w: World, e: Endpoint)
    requires Sound(c, e)
    ensures Sound(c, SendCertificate(c, w, e).e)
  {
    hide Ledger, SendHandshake;
    SendHandshakeKeeps(c, w, e, 11, w.ecc(e.clock).certificate, true);
  }

  lemma FlightKeeps(c: Config, w: World, e: Endpoint)
    requires Sound(c, e) && e.hs.Some?
    ensures Sound(c, SendKeyExchangeFlight(c, w, e).e)
  {
    hide Ledger, SendHandshake, SendCertificate, SendClientKeyExchange;
    SendCertificateKeeps(c, w, e);
    var auth := e.hs.value.clientAuth;
    var r1 := if auth then SendCertificate(c, w, e) else Outcome(e, 0);
    if r1.err >= 0 {
      SendClientKeyExchangeKeeps(c, w, r1.e);
      var r2 := SendClientKeyExchange(c, w, r1.e);
      var h := r2.e.hs.value;
      var e2 := r2.e.With(h.(trail := h.trail + [KeyExchanged]));
      SendHandshakeKeeps(c, w, e2, 15, w.ecc(e2.clock).verify, true);
    }
  }

  lemma ServerHelloDoneKeeps(c: Config, w: World, e: Endpoint, m: Message)
    requires Sound(c, e) && e.hs.Some?
    ensures Sound(c, CheckServerHelloDone(c, w, e, m).e)
  {
    hide Ledger, Send, SendFinished, SendKeyExchangeFlight, CalculateKeyBlock;
    FlightKeeps(c, w, Absorbed(e, m));
    var r1 := SendKeyExchangeFlight(c, w, Absorbed(e, m));
    if r1.err >= 0 {
      CalculateKeeps(c, w, r1.e);
      var r2 := CalculateKeyBlock(c, w, r1.e);
      SendAndFinishKeeps(c, w, r2.e);
    }
  }

  /** ChangeCipherSpec, switch, Finished. */
  lemma SendAndFinishKeeps(c: Config, w: World, e: Endpoint)
    requires Sound(c, e) && e.hs.Some?
    ensures Sound(c, SendServerFinished(c, w, e).e)
  {
    hide Ledger, Send, SendFinished;
    SendKeeps(c, w, e, CHANGE_CIPHER_SPEC, [1]);
    var r := Send(c, w, e, CHANGE_CIPHER_SPEC, [1]);
    SlotsKeep(c, r.e);
    SendFinishedKeeps(c, w, Switched(r.e));
  }

  lemma ServerHelloMessagesKeep(c: Config, w: World, e: Endpoint)
    requires Sound(c, e) && e.hs.Some?
    ensures Sound(c, SendServerHelloMessages(c, w, e).e)
  {
    hide Ledger, SendHandshake, SendServerHello, SendKeyMaterial;
    SendServerHelloKeeps(c, w, e);
    var r1 := SendServerHello(c, w, e);
    KeyMaterialKeeps(c, w, r1.e, e.hs.value.cipher);
    SendHandshakeKeeps(c, w, SendKeyMaterial(c, w, r1.e, e.hs.value.cipher).e, 14, [], true);
  }

  lemma KeyMaterialKeeps(c: Config, w: World, e: Endpoint, cipher: uint16)
    requires Sound(c, e)
    ensures Sound(c, SendKeyMaterial(c, w, e, cipher).e)
  {
    hide Ledger, SendEcdheMessages, SendHint;
    EcdheMessagesKeep(c, w, e);
    SendHintKeeps(c, w, e);
  }

  lemma SendServerHelloKeeps(c: Config, w: World, e: Endpoint)
    requires Sound(c, e) && e.hs.Some?
    ensures Sound(c, SendServerHello(c, w, e).e)
  {
    hide Ledger, SendHandshake, ServerHelloBody;
    var h, random := e.hs.value, w.random(e.clock);
    SendHandshakeKeeps(c, w, e.With(h.(tmp := h.tmp[..32] + random)), 2, ServerHelloBody(h.cipher, random), true);
  }

  lemma EcdheMessagesKeep(c: Config, w: World, e: Endpoint)
    requires Sound(c, e)
    ensures Sound(c, SendEcdheMessages(c, w, e).e)
  {
    hide Ledger, SendHandshake, SendCertificate;
    SendCertificateKeeps(c, w, e);
    var r1 := SendCertificate(c, w, e);
    SendHandshakeKeeps(c, w, r1.e, 12, w.ecc(r1.e.clock).exchange, true);
    var r2 := SendHandshake(c, w, r1.e, 12, w.ecc(r1.e.clock).exchange, true);
    SendHandshakeKeeps(c, w, r2.e, 13, [1, 64, 0, 2, 4, 3, 0, 0], true);
  }

  lemma SendHintKeeps(c: Config, w: World, e: Endpoint)
    requires Sound(c, e)
    ensures Sound(c, SendHint(c, w, e).e)
  {
    hide Ledger, SendHandshake;
    match w.psk(e.clock, Hint)
    case Failed(_) =>
    case Given(hint) => SendHandshakeKeeps(c, w, e, 12, BigEndian(|hint|, 2) + hint, true);
  }

  lemma AcceptKeeps(c: Config, w: World, e: Endpoint, m: Message)
    requires Sound(c, e)
    ensures Sound(c, AcceptClientHello(c, w, e, m).e)
  {
    hide Ledger, UpdateParameters, SendServerHelloMessages;
    NewPeerKeeps(c, e, Server, 1);
    var r1 := UpdateParameters(c, w, Admitted(e, m), m);
    ServerHelloMessagesKeep(c, w, Absorbed(r1.e, m));
  }

  lemma ClientHelloKeeps(c: Config, w: World, e: Endpoint, m: Message)
    requires Sound(c, e)
    ensures Sound(c, OnClientHello(c, w, e, m).e)
  {
    hide Ledger, VerifyPeer, AcceptClientHello, SendHandshake;
    AcceptKeeps(c, w, e, m);
    match VerifyPeer(c.hash, c.secret, c.session, Received(w, e, m))
    case Refused(_) =>
    case Good =>
    case Challenge(cookie, first) =>
      SendHandshakeKeeps(c, w, e, 3, BigEndian(VERSION, 2) + [16] + cookie, false);
      AcceptKeeps(c, w, SendHelloVerifyRequest(c, w, e, cookie).e, m);
  }

  lemma HelloRequestKeeps(c: Config, w: World, e: Endpoint)
    requires Sound(c, e)
    ensures Sound(c, OnHelloRequest(c, w, e).e)
  {
    hide Ledger, SendClientHello;
    SendClientHelloKeeps(c, w, HelloRequested(e), []);
  }

  lemma HelloVerifyRequestKeeps(c: Config, w: World, e: Endpoint, m: Message)
    requires Sound(c, e) && e.hs.Some?
    ensures Sound(c, OnHelloVerifyRequest(c, w, e, m).e)
  {
    hide Ledger, SendClientHello;
    if |m| >= 15 { SendClientHelloKeeps(c, w, e, Range(Received(w, e, m), 15, m[14])); }
  }

  lemma FinishedKeeps(c: Config, w: World, e: Endpoint, m: Message)
    requires Sound(c, e) && e.hs.Some?
    ensures Sound(c, OnFinished(c, w, e, m).e)
  {
    hide Ledger, CheckFinished, SendServerFinished;
    if e.state == WaitFinished && CheckFinished(c, e, m) >= 0 {
      CheckedLength(c, e, m);
      var h := e.hs.value;
      var e1 := e.With(h.(trail := h.trail + [FinishedAccepted(h.tmp[..48], h.transcript, m[12..24], h.mseqR)]));
      SendAndFinishKeeps(c, w, Absorbed(e1, m));
    }
  }

  lemma CheckedLength(c: Config, e: Endpoint, m: Message)
    requires e.hs.Some? && CheckFinished(c, e, m) >= 0
    ensures |m| >= 24
  {
  }

  /** The messages that only read, or only change the handshake and the state. */
  lemma QuietKeep(c: Config, w: World, e: Endpoint, m: Message)
    requires Sound(c, e) && e.hs.Some?
    ensures Sound(c, OnServerHello(c, w, e, m).e) && Sound(c, OnServerKeyExchange(w, e, m).e)
    ensures Sound(c, OnClientKeyExchange(c, w, e, m).e)
  {
    hide Ledger, CheckServerHello, HelloTaken, Exchanged, Judged, CheckHint, CheckClientKeyExchange, Count;
    TakenKeep(c, CheckServerHello(c, w, e, m).e);
    TakenKeep(c, Absorbed(CheckClientKeyExchange(w, e, m).e, m));
    var a, b, d := HelloTaken(CheckServerHello(c, w, e, m).e), Judged(w, e, m), CheckHint(e, m);
    CountKeeps(c, Outcome(a, 0));
    CountKeeps(c, Outcome(Exchanged(c, Absorbed(CheckClientKeyExchange(w, e, m).e, m)), 0));
    CountKeeps(c, Outcome(b.e.In(WaitServerHelloDone), 0));
    CountKeeps(c, Outcome(d.e.In(WaitServerHelloDone), 0));
    CountKeeps(c, Outcome(e.In(WaitServerHelloDone), 0));
  }

  lemma TakenKeep(c: Config, e: Endpoint)
    requires Sound(c, e) && e.hs.Some?
    ensures Sound(c, HelloTaken(e)) && Sound(c, Exchanged(c, e))
  {
    hide Ledger;
  }

  lemma CountKeeps(c: Config, r: Outcome)
    requires Sound(c, r.e)
    ensures Sound(c, Count(r).e)
  {
    hide Ledger;
  }

  lemma JudgedKeep(c: Config, w: World, e: Endpoint, m: Message)
    requires Sound(c, e) && e.hs.Some?
    ensures Sound(c, OnCertificate(w, e, m).e) && Sound(c, OnCertificateRequest(w, e, m).e)
    ensures Sound(c, OnCertificateVerify(w, e, m).e)
  {
    hide Ledger, Judged;
  }

  lemma HandshakeMsgKeeps(c: Config, w: World, was: Endpoint, m: Message)
    requires Sound(c, was) && LetThrough(was, m)
    ensures Sound(c, HandleHandshakeMsg(c, w, was, m).e)
  {
    hide Ledger, OnClientHello, OnHelloRequest, OnHelloVerifyRequest, OnServerHello, OnCertificate, OnServerKeyExchange,
      CheckServerHelloDone, OnCertificateRequest, OnFinished, OnClientKeyExchange, OnCertificateVerify;
    var e := was.(clock := was.clock + 1);
    if m[0] == 1 { ClientHelloKeeps(c, w, e, m); }
    else if m[0] == 0 { HelloRequestKeeps(c, w, e); }
    else if m[0] == 3 { HelloVerifyRequestKeeps(c, w, e, m); }
    else if m[0] == 14 { ServerHelloDoneKeeps(c, w, e, m); }
    else if m[0] == 20 { FinishedKeeps(c, w, e, m); }
    else { QuietKeep(c, w, e, m); JudgedKeep(c, w, e, m); }
  }

  lemma {:induction false} DrainKeeps(c: Config, w: World, e: Endpoint, res: int)
    requires Sound(c, e) && e.known
    ensures Sound(c, DrainQueue(c, w, e, res).e)
    decreases |Queue(e)|
  {
    hide Ledger, HandleHandshakeMsg;
    if e.hs.Some? {
      var h := e.hs.value;
      var i := Find(h.queue, h.mseqR);
      if i < |h.queue| {
        var e1 := e.With(h.(queue := Removed(h.queue, i)));
        HandshakeMsgKeeps(c, w, e1, h.queue[i]);
        var r := HandleHandshakeMsg(c, w, e1, h.queue[i]);
        if r.err >= 0 { DrainKeeps(c, w, r.e, r.err); }
      }
    }
  }

  lemma HandshakeKeeps(c: Config, w: World, e: Endpoint, data: seq<byte>)
    requires Sound(c, e)
    ensures Sound(c, HandleHandshake(c, w, e, data).e)
  {
    hide Ledger, HandleHandshakeMsg, DrainQueue;
    if |data| >= HS_LENGTH {
      var m: Message := data;
      if LetThrough(e, m) {
        HandshakeMsgKeeps(c, w, e, m);
        var r := HandleHandshakeMsg(c, w, e, m);
        if e.known && r.err >= 0 { DrainKeeps(c, w, r.e, r.err); }
      }
    }
  }

  lemma CcsKeeps(c: Config, w: World, e: Endpoint, data: seq<byte>)
    requires Sound(c, e)
    ensures Sound(c, HandleCcs(c, w, e, data).e)
  {
    hide Ledger, CalculateKeyBlock;
    if e.hs.Some? { CalculateKeeps(c, w, e); }
  }

  lemma AlertKeeps(c: Config, w: World, e: Endpoint, level: byte, description: byte)
    requires Sound(c, e)
    ensures Sound(c, SendAlert(c, w, e, level, description))
  {
    hide Ledger, Send;
    SendKeeps(c, w, e, ALERT, [level, description]);
  }

  lemma ReportKeeps(c: Config, w: World, e: Endpoint, err: int)
    requires Sound(c, e)
    ensures Sound(c, ReportError(c, w, e, err))
  {
    hide Ledger, SendAlert;
    if e.known && Reported(err) {
      AlertKeeps(c, w, e.In(Closing), FATAL, if err == -1 then INTERNAL_ERROR else 0);
      if err != -1 { AlertKeeps(c, w, e.In(Closing), -err / 256, -err % 256); }
    }
  }

  lemma DestroyedKeeps(c: Config, w: World, e: Endpoint)
    requires Sound(c, e)
    ensures Sound(c, Destroyed(c, w, e))
  {
    hide Ledger, SendAlert;
    AlertKeeps(c, w, e.In(Closing), FATAL, CLOSE_NOTIFY);
    NewPeerKeeps(c, e, Client, 0);
    NewPeerKeeps(c, SendAlert(c, w, e.In(Closing), FATAL, CLOSE_NOTIFY), Client, 0);
  }

  lemma HandleAlertKeeps(c: Config, w: World, e: Endpoint, data: seq<byte>)
    requires Sound(c, e)
    ensures Sound(c, HandleAlert(c, w, e, data).e)
  {
    hide Ledger, SendAlert, Forgotten;
    AlertKeeps(c, w, e.In(Closing), FATAL, CLOSE_NOTIFY);
    NewPeerKeeps(c, e, Client, 0);
    NewPeerKeeps(c, e.In(Closed), Client, 0);
    NewPeerKeeps(c, SendAlert(c, w, e.In(Closing), FATAL, CLOSE_NOTIFY), Client, 0);
  }

  lemma PayloadKeeps(c: Config, w: World, e: Endpoint, ctype: byte, epoch: uint16, data: seq<byte>)
    requires Sound(c, e)
    ensures Sound(c, HandlePayload(c, w, e, ctype, epoch, data).e)
  {
    hide Ledger, HandleCcs, HandleAlert, HandleHandshake, ReportError, Destroyed;
    if ctype == CHANGE_CIPHER_SPEC {
      CcsKeeps(c, w, e, data);
      var r := HandleCcs(c, w, e, data);
      ReportKeeps(c, w, r.e, r.err);
      DestroyedKeeps(c, w, ReportError(c, w, r.e, r.err));
    } else if ctype == ALERT {
      HandleAlertKeeps(c, w, e, data);
    } else if ctype == HANDSHAKE {
      HandshakeKeeps(c, w, e, data);
      var r := HandleHandshake(c, w, e, data);
      ReportKeeps(c, w, r.e, r.err);
    }
  }

  lemma RecordKeeps(c: Config, w: World, was: Endpoint, record: seq<byte>)
    requires Sound(c, was) && |record| >= HEADER_LENGTH
    ensures Sound(c, HandleRecord(c, w, was, record).e)
  {
    hide Ledger, HandlePayload, DecryptVerify, ReportError, Forgotten;
    var e := was.(clock := was.clock + 1);
    if !e.known { PayloadKeeps(c, w, e, record[0], EpochOf(record), record[13..]); }
    else {
      SlotsKeep(c, e);
      match DecryptVerify(c, e, record)
      case Rejected =>
        ReportKeeps(c, w, e, Fatal(DECRYPT_ERROR));
        NewPeerKeeps(c, ReportError(c, w, e, Fatal(DECRYPT_ERROR)), Client, 0);
      case Accepted(data) => PayloadKeeps(c, w, AfterDecrypt(e, record), record[0], EpochOf(record), data);
    }
  }

  lemma {:induction false} MessageKeeps(c: Config, w: World, e: Endpoint, msg: seq<byte>)
    requires Sound(c, e)
    ensures Sound(c, HandleMessage(c, w, e, msg).e)
    decreases |msg|
  {
    hide Ledger, HandleRecord;
    var n := RecordLength(msg);
    if n > 0 {
      RecordKeeps(c, w, e, msg[..n]);
      MessageKeeps(c, w, HandleRecord(c, w, e, msg[..n]).e, msg[n..]);
    }
  }

  lemma RenegotiateKeeps(c: Config, w: World, e: Endpoint)
    requires Sound(c, e)
    ensures Sound(c, Renegotiate(c, w, e).e)
  {
    hide Ledger, SendClientHello, SendHandshake;
    SendClientHelloKeeps(c, w, e.With(NewHandshake(0, 0).(ready := false)), []);
    SendHandshakeKeeps(c, w, e.With(NewHandshake(0, 0).(ready := false)), 0, [], false);
  }

  lemma ConnectKeeps(c: Config, w: World, e: Endpoint)
    requires Sound(c, e)
    ensures Sound(c, Connect(c, w, e).e)
  {
    hide Ledger, SendClientHello, Renegotiate;
    RenegotiateKeeps(c, w, e);
    NewPeerKeeps(c, e, Client, 0);
    SendClientHelloKeeps(c, w, NewPeer(e, Client, 0).With(NewHandshake(0, 0)), []);
  }

  lemma StepKeeps(c: Config, w: World, e: Endpoint, v: Event)
    requires Sound(c, e)
    ensures Sound(c, Step(c, w, e, v))
  {
    hide Ledger, HandleMessage, Connect, Renegotiate, Send, Resend, SendAlert;
    match v
    case Arrives(msg) => MessageKeeps(c, w, e, msg);
    case Connects => ConnectKeeps(c, w, e);
    case Renegotiates => RenegotiateKeeps(c, w, e);
    case Writes(data) => ConnectKeeps(c, w, e); SendKeeps(c, w, e, APPLICATION_DATA, data);
    case Closes => AlertKeeps(c, w, e, FATAL, CLOSE_NOTIFY);
    case Resends(epoch, ctype, payload) => ResendKeeps(c, w, e, epoch, ctype, payload);
  }

  lemma {:induction false} RunKeeps(c: Config, w: World, vs: seq<Event>)
    ensures Sound(c, Run(c, w, vs))
  {
    hide Step;
    if vs != [] {
      hide Ledger;
      RunKeeps(c, w, vs[..|vs| - 1]);
      StepKeeps(c, w, Run(c, w, vs[..|vs| - 1]), vs[|vs| - 1]);
    }
  }

  // ---------------------------------------------------------------- the theorem

  lemma NumberDiffers(epoch: uint16, m: nat, n: nat)
    requires m != n && m < Pow256(6) && n < Pow256(6)
    ensures RecordNumber(epoch, m) != RecordNumber(epoch, n)
  {
    if RecordNumber(epoch, m) == RecordNumber(epoch, n) {
      assert RecordNumber(epoch, m)[2..] == BigEndian(m, 6) && RecordNumber(epoch, n)[2..] == BigEndian(n, 6);
      BigEndianInjective(m, n, 6);
    }
  }

  lemma NumberWritten(aes: Aes, role: Role, s: Security, ctype: byte, payload: seq<byte>)
    ensures var r := Protect(aes, role, Some(s), ctype, payload); |r| >= 11 && r[3..11] == RecordNumber(s.epoch, s.rseq)
  {
    hide Fragment, RecordNumber, Header;
    var f := Fragment(aes, role, s, ctype, payload);
    HeaderParts(ctype, RecordNumber(s.epoch, s.rseq), |f|, f);
  }

  /** In every run, every record written is of the form that `Wire.Carries` writes out in octets. */
  lemma RunInOctets(c: Config, w: World, vs: seq<Event>, x: Sent)
    requires x in Run(c, w, vs).sent
    ensures Carries(c.aes, x.role, x.under, x.ctype, x.payload, x.bytes)
  {
    hide Run, Protect, Carries;
    RunKeeps(c, w, vs);
    ProtectOctets(c.aes, x.role, x.under, x.ctype, x.payload);
  }

  /**
   * In every run, two records written under one security-parameters object while its counter is below 2^48
   * carry different epoch and sequence octets; they were written by one role under one key block.
   */
  lemma NoNumberRepeats(c: Config, w: World, vs: seq<Event>, i: nat, j: nat)
    requires i < j < |Run(c, w, vs).sent|
    requires var x, y := Run(c, w, vs).sent[i], Run(c, w, vs).sent[j];
      x.under.Some? && y.under.Some? && x.under.value.id == y.under.value.id && y.under.value.rseq < Pow256(6)
    ensures var x, y := Run(c, w, vs).sent[i], Run(c, w, vs).sent[j];
      && |x.bytes| >= 11 && |y.bytes| >= 11 && x.bytes[3..11] != y.bytes[3..11]
      && x.role == y.role && x.under.value.keyBlock == y.under.value.keyBlock
  {
    RunKeeps(c, w, vs);
    hide Run, Protect, RecordNumber;
    var sent := Run(c, w, vs).sent;
    var x, y := sent[i], sent[j];
    assert x in sent && y in sent;
    assert Before(y.role, x, y.under.value);
    NumberWritten(c.aes, x.role, x.under.value, x.ctype, x.payload);
    NumberWritten(c.aes, y.role, y.under.value, y.ctype, y.payload);
    NumberDiffers(y.under.value.epoch, x.under.value.rseq, y.under.value.rseq);
  }
}

/**
 * What an endpoint says in a handshake, flight by flight (section 7.3 of RFC 5246), and that the transcript behind both
 * Finished is the messages said and heard, in that order, with nothing between them.
 */
module Flights {
  import opened Bytes
  import opened CcmSpec
  import opened Prf
  import opened Peers
  import opened RecordSpec
  import opened Datagram
  import opened Reorder
  import opened Hello
  import opened Engine
  import opened Wire

  /** A handshake message, of which the header is still to be written. */
  datatype Said = Said(kind: byte, body: seq<byte>)

  function Text(x: Said, mseq: nat): seq<byte> { MessageHeader(x.kind, |x.body|, mseq % 65536) + x.body }

  /** The messages with their headers, numbered from `mseq` on. */
  function Texts(xs: seq<Said>, mseq: nat): seq<byte> {
    if xs == [] then [] else Texts(xs[..|xs| - 1], mseq) + Text(xs[|xs| - 1], mseq + |xs| - 1)
  }

  lemma {:induction false} TextsAppend(xs: seq<Said>, ys: seq<Said>, mseq: nat)
    ensures Texts(xs + ys, mseq) == Texts(xs, mseq) + Texts(ys, mseq + |xs|)
  {
    hide Text;
    if ys == [] {
      assert xs + ys == xs;
    } else {
      var z := ys[..|ys| - 1];
      TextsAppend(xs, z, mseq);
      assert (xs + ys)[..|xs + ys| - 1] == xs + z;
    }
  }

  /** The i-th record from `at` on is of type 22 and carries message i. */
  ghost predicate IsOut(mseq: nat, sent: seq<Sent>, at: nat, xs: seq<Said>, i: nat)
    requires i < |xs| && at + i < |sent|
  {
    sent[at + i].ctype == 22 && sent[at + i].payload == Text(xs[i], mseq + i)
  }

  ghost predicate Out(a: Endpoint, b: Endpoint, xs: seq<Said>)
    requires a.hs.Some?
  {
    && |b.sent| == |a.sent| + |xs| && b.sent[..|a.sent|] == a.sent
    && forall i :: 0 <= i < |xs| ==> IsOut(a.hs.value.mseqS, b.sent, |a.sent|, xs, i)
  }

  /** From `a` to `b` just these messages have been sent, numbered on and hashed. */
  ghost predicate Spoke(a: Endpoint, b: Endpoint, xs: seq<Said>) {
    && a.hs.Some? && b.hs.Some? && Out(a, b, xs)
    && b.hs.value.mseqS == (a.hs.value.mseqS + |xs|) % 65536
    && b.hs.value.transcript == a.hs.value.transcript + Texts(xs, a.hs.value.mseqS)
  }

  lemma Silence(e: Endpoint)
    requires e.hs.Some?
    ensures Spoke(e, e, [])
  {
    assert e.hs.value.transcript + [] == e.hs.value.transcript;
  }

  lemma Modulo(a: nat, i: nat)
    ensures (a % 65536 + i) % 65536 == (a + i) % 65536
  {
  }

  lemma {:induction false} TextsModulo(xs: seq<Said>, mseq: nat)
    ensures Texts(xs, mseq % 65536) == Texts(xs, mseq)
  {
    hide MessageHeader;
    if xs != [] {
      TextsModulo(xs[..|xs| - 1], mseq);
      Modulo(mseq, |xs| - 1);
    }
  }

  /** First one thing, then another; `d` stands where `b` does. */
  lemma SpokeOn(a: Endpoint, b: Endpoint, d: Endpoint, f: Endpoint, xs: seq<Said>, ys: seq<Said>)
    requires Spoke(a, b, xs) && Spoke(d, f, ys) && d.sent == b.sent
    requires d.hs.value.mseqS == b.hs.value.mseqS && d.hs.value.transcript == b.hs.value.transcript
    ensures Spoke(a, f, xs + ys)
  {
    hide Text, Texts;
    var q := a.hs.value.mseqS;
    TextsAppend(xs, ys, q);
    TextsModulo(ys, q + |xs|);
    Modulo(q + |xs|, |ys|);
    OutOn(a, b, d, f, xs, ys);
  }

  lemma OutOn(a: Endpoint, b: Endpoint, d: Endpoint, f: Endpoint, xs: seq<Said>, ys: seq<Said>)
    requires a.hs.Some? && d.hs.Some? && Out(a, b, xs) && Out(d, f, ys) && d.sent == b.sent
    requires d.hs.value.mseqS == (a.hs.value.mseqS + |xs|) % 65536
    ensures Out(a, f, xs + ys)
  {
    hide IsOut;
    forall i | 0 <= i < |xs + ys| ensures IsOut(a.hs.value.mseqS, f.sent, |a.sent|, xs + ys, i) {
      if i < |xs| { OutFirst(a, b, f, xs, ys, i); } else { OutLater(a, b, d, f, xs, ys, i - |xs|); }
    }
    assert f.sent[..|a.sent|] == f.sent[..|d.sent|][..|a.sent|];
  }

  lemma OutFirst(a: Endpoint, b: Endpoint, f: Endpoint, xs: seq<Said>, ys: seq<Said>, i: nat)
    requires a.hs.Some? && Out(a, b, xs) && i < |xs| && |f.sent| >= |b.sent| && f.sent[..|b.sent|] == b.sent
    ensures IsOut(a.hs.value.mseqS, f.sent, |a.sent|, xs + ys, i)
  {
    hide Text;
    assert IsOut(a.hs.value.mseqS, b.sent, |a.sent|, xs, i);
    assert f.sent[..|b.sent|][|a.sent| + i] == b.sent[|a.sent| + i];
  }

  lemma OutLater(a: Endpoint, b: Endpoint, d: Endpoint, f: Endpoint, xs: seq<Said>, ys: seq<Said>, j: nat)
    requires a.hs.Some? && d.hs.Some? && Out(a, b, xs) && Out(d, f, ys) && d.sent == b.sent && j < |ys|
    requires d.hs.value.mseqS == (a.hs.value.mseqS + |xs|) % 65536
    ensures IsOut(a.hs.value.mseqS, f.sent, |a.sent|, xs + ys, |xs| + j)
  {
    hide MessageHeader;
    assert IsOut(d.hs.value.mseqS, f.sent, |d.sent|, ys, j);
    Modulo(a.hs.value.mseqS + |xs|, j);
    assert |a.sent| + (|xs| + j) == |d.sent| + j;
  }

  /** One message, if there is no error. */
  lemma SayOne(c: Config, w: World, e: Endpoint, kind: byte, body: seq<byte>)
    requires e.hs.Some? && SendHandshake(c, w, e, kind, body, true).err >= 0
    ensures Spoke(e, SendHandshake(c, w, e, kind, body, true).e, [Said(kind, body)])
  {
    hide Protect, MessageHeader, HandshakeHeader, SameBut;
    HeaderIs(kind, |body|, e.hs.value.mseqS);
    OneText(Said(kind, body), e.hs.value.mseqS);
    Numbered(e.hs.value.mseqS);
  }

  lemma OneText(x: Said, mseq: uint16)
    ensures Texts([x], mseq) == Text(x, mseq) == MessageHeader(x.kind, |x.body|, mseq) + x.body
  {
    hide MessageHeader;
    assert [x][..0] == [];
    assert mseq % 65536 == mseq;
  }

  lemma Numbered(mseq: uint16)
    ensures Next(mseq) == (mseq + 1) % 65536
  {
  }

  // ---------------------------------------------------------------- the server's flight

  /** What a server says between ServerHello and ServerHelloDone: certificate, key exchange and perhaps a request; or a hint. */
  function Material(c: Config, w: World, clock: nat, cipher: uint16): seq<Said> {
    if cipher == 0xc0ae then
      [Said(11, w.ecc(clock).certificate), Said(12, w.ecc(clock + 1).exchange)]
        + (if c.ownKey && c.verifiesKey then [Said(13, [1, 64, 0, 2, 4, 3, 0, 0])] else [])
    else if cipher == 0xc0a8 && w.psk(clock, Hint).Given? && w.psk(clock, Hint).value != [] then
      var hint := w.psk(clock, Hint).value; [Said(12, [0, |hint|] + hint)]
    else []
  }

  lemma Clocked(c: Config, w: World, e: Endpoint, kind: byte, body: seq<byte>)
    ensures var r := SendHandshake(c, w, e, kind, body, true); r.err >= 0 ==> r.e.clock == e.clock + 1
  {
    hide Protect, HandshakeHeader;
  }

  lemma MaterialSaid(c: Config, w: World, e: Endpoint, cipher: uint16)
    requires e.hs.Some? && SendKeyMaterial(c, w, e, cipher).err >= 0
    ensures Spoke(e, SendKeyMaterial(c, w, e, cipher).e, Material(c, w, e.clock, cipher))
  {
    hide SendHandshake, Spoke, SameBut, BigEndian;
    Silence(e);
    if cipher == 0xc0ae {
      EcdheSaid(c, w, e);
    } else if cipher == 0xc0a8 && w.psk(e.clock, Hint).Given? && w.psk(e.clock, Hint).value != [] {
      var hint := w.psk(e.clock, Hint).value;
      Two(|hint|);
      SayOne(c, w, e, 12, BigEndian(|hint|, 2) + hint);
    }
  }

  lemma EcdheSaid(c: Config, w: World, e: Endpoint)
    requires e.hs.Some? && SendEcdheMessages(c, w, e).err >= 0
    ensures Spoke(e, SendEcdheMessages(c, w, e).e, Material(c, w, e.clock, 0xc0ae))
  {
    hide SendHandshake, Spoke;
    SpokeEnds();
    var x, y := w.ecc(e.clock).certificate, w.ecc(e.clock + 1).exchange;
    SayOne(c, w, e, 11, x);
    Clocked(c, w, e, 11, x);
    var e1 := SendHandshake(c, w, e, 11, x, true).e;
    SayOne(c, w, e1, 12, y);
    var e2 := SendHandshake(c, w, e1, 12, y, true).e;
    SpokeOn(e, e1, e1, e2, [Said(11, x)], [Said(12, y)]);
    assert [Said(11, x)] + [Said(12, y)] == [Said(11, x), Said(12, y)];
    if c.ownKey && c.verifiesKey {
      var z := [1, 64, 0, 2, 4, 3, 0, 0];
      SayOne(c, w, e2, 13, z);
      SpokeOn(e, e2, e2, SendHandshake(c, w, e2, 13, z, true).e, [Said(11, x), Said(12, y)], [Said(13, z)]);
    } else {
      assert [Said(11, x), Said(12, y)] + [] == [Said(11, x), Said(12, y)];
    }
  }

  lemma SpokeEnds()
    ensures forall a, b, xs :: Spoke(a, b, xs) ==> a.hs.Some? && b.hs.Some?
  {
  }

  /** The ServerHello: version, random value, no session id, suite, null compression, and extensions with ECDHE-ECDSA. */
  function Greeting(cipher: uint16, random: Random): Said {
    Said(2, [254, 253] + random + (if cipher == 0xc0a8 then [0, 0xc0, 0xa8, 0]
      else [0, 0xc0, 0xae, 0] + [0, 16, 0, 19, 0, 1, 2, 0, 20, 0, 1, 2, 0, 11, 0, 2, 1, 0]))
  }

  /** The whole flight of a server under either suite, if nothing fails. */
  lemma ServerFlight(c: Config, w: World, e: Endpoint)
    requires e.hs.Some? && e.hs.value.cipher in {0xc0a8, 0xc0ae} && SendServerHelloMessages(c, w, e).err >= 0
    ensures var cipher, clock := e.hs.value.cipher, e.clock;
      Spoke(e, SendServerHelloMessages(c, w, e).e, [Greeting(cipher, w.random(clock))] + Material(c, w, clock + 1, cipher) + [Said(14, [])])
  {
    hide SendHandshake, Spoke, SendKeyMaterial, ServerHelloBody, Material;
    SpokeEnds();
    var h, random := e.hs.value, w.random(e.clock);
    var e0 := e.With(h.(tmp := h.tmp[..32] + random));
    var x := Greeting(h.cipher, random);
    ServerHelloOctets(random);
    assert ServerHelloBody(h.cipher, random) == x.body by { HelloBodyIs(h.cipher, random); }
    SayOne(c, w, e0, 2, x.body);
    Clocked(c, w, e0, 2, x.body);
    var e1 := SendHandshake(c, w, e0, 2, x.body, true).e;
    MaterialSaid(c, w, e1, h.cipher);
    var e2 := SendKeyMaterial(c, w, e1, h.cipher).e;
    SpokeOn(e0, e1, e1, e2, [x], Material(c, w, e1.clock, h.cipher));
    SayOne(c, w, e2, 14, []);
    var e3 := SendHandshake(c, w, e2, 14, [], true).e;
    SpokeOn(e0, e2, e2, e3, [x] + Material(c, w, e1.clock, h.cipher), [Said(14, [])]);
    SpokeFrom(e0, e, e3, [x] + Material(c, w, e1.clock, h.cipher) + [Said(14, [])]);
  }

  lemma HelloBodyIs(cipher: uint16, random: Random)
    requires cipher in {0xc0a8, 0xc0ae}
    ensures ServerHelloBody(cipher, random) == Greeting(cipher, random).body
  {
    hide ServerHelloBody;
    ServerHelloOctets(random);
  }

  lemma SpokeFrom(a: Endpoint, d: Endpoint, b: Endpoint, xs: seq<Said>)
    requires Spoke(a, b, xs) && d.hs.Some? && d.sent == a.sent
    requires d.hs.value.mseqS == a.hs.value.mseqS && d.hs.value.transcript == a.hs.value.transcript
    ensures Spoke(d, b, xs)
  {
  }

  // ---------------------------------------------------------------- the client's flight

  /** A ClientKeyExchange: the identity for the hint, with its length, or what the elliptic-curve half makes. */
  function Exchange(w: World, clock: nat, cipher: uint16, hint: seq<byte>): Said {
    if cipher == 0xc0ae then Said(16, w.ecc(clock).exchange)
    else match w.psk(clock, Identity(hint))
         case Given(id) => Said(16, [0, |id|] + id)
         case Failed(_) => Said(16, [])
  }

  /** Certificate if one was asked for, key exchange, and then the proof for the certificate. */
  function Response(w: World, clock: nat, h: Handshake): seq<Said> {
    if h.clientAuth
    then [Said(11, w.ecc(clock).certificate), Exchange(w, clock + 1, h.cipher, h.pskId), Said(15, w.ecc(clock + 2).verify)]
    else [Exchange(w, clock, h.cipher, h.pskId)]
  }

  lemma ExchangeSaid(c: Config, w: World, e: Endpoint)
    requires e.hs.Some? && e.hs.value.cipher in {0xc0a8, 0xc0ae} && SendClientKeyExchange(c, w, e).err >= 0
    ensures var f := SendClientKeyExchange(c, w, e).e;
      Spoke(e, f, [Exchange(w, e.clock, e.hs.value.cipher, e.hs.value.pskId)]) && f.clock == e.clock + 1
  {
    hide SendHandshake, Spoke, SameBut, BigEndian;
    var h := e.hs.value;
    if h.cipher == 0xc0ae {
      SayOne(c, w, e, 16, w.ecc(e.clock).exchange);
      Clocked(c, w, e, 16, w.ecc(e.clock).exchange);
    } else {
      var id := w.psk(e.clock, Identity(h.pskId)).value;
      var e1 := e.With(h.(pskId := id));
      Two(|id|);
      SayOne(c, w, e1, 16, BigEndian(|id|, 2) + id);
      Clocked(c, w, e1, 16, BigEndian(|id|, 2) + id);
      SpokeFrom(e1, e, SendClientKeyExchange(c, w, e).e, [Said(16, [0, |id|] + id)]);
    }
  }

  lemma ResponseSaid(c: Config, w: World, e: Endpoint)
    requires e.hs.Some? && e.hs.value.cipher in {0xc0a8, 0xc0ae} && SendKeyExchangeFlight(c, w, e).err >= 0
    ensures Spoke(e, SendKeyExchangeFlight(c, w, e).e, Response(w, e.clock, e.hs.value))
  {
    hide SendHandshake, SendClientKeyExchange, SendCertificate, Spoke, SameBut, Exchange;
    SpokeEnds();
    var h := e.hs.value;
    if h.clientAuth {
      CertificateSaid(c, w, e);
      var e1 := SendCertificate(c, w, e).e;
      CertificateKeeps(c, w, e);
      ExchangeSaid(c, w, e1);
      var x, y := Said(11, w.ecc(e.clock).certificate), Exchange(w, e1.clock, h.cipher, h.pskId);
      var e2 := SendClientKeyExchange(c, w, e1).e;
      SpokeOn(e, e1, e1, e2, [x], [y]);
      var f := e2.With(e2.hs.value.(trail := e2.hs.value.trail + [KeyExchanged]));
      var z := Said(15, w.ecc(f.clock).verify);
      SayOne(c, w, f, 15, w.ecc(f.clock).verify);
      SpokeOn(e, e2, f, SendHandshake(c, w, f, 15, w.ecc(f.clock).verify, true).e, [x] + [y], [z]);
      assert [x] + [y] + [z] == [x, y, z];
    } else {
      ExchangeSaid(c, w, e);
      var e2 := SendClientKeyExchange(c, w, e).e;
      SpokeTo(e, e2, e2.With(e2.hs.value.(trail := e2.hs.value.trail + [KeyExchanged])), Response(w, e.clock, h));
    }
  }

  lemma CertificateSaid(c: Config, w: World, e: Endpoint)
    requires e.hs.Some? && SendCertificate(c, w, e).err >= 0
    ensures var f := SendCertificate(c, w, e).e; Spoke(e, f, [Said(11, w.ecc(e.clock).certificate)]) && f.clock == e.clock + 1
  {
    hide SendHandshake, Spoke;
    SayOne(c, w, e, 11, w.ecc(e.clock).certificate);
    Clocked(c, w, e, 11, w.ecc(e.clock).certificate);
  }

  lemma CertificateKeeps(c: Config, w: World, e: Endpoint)
    requires e.hs.Some?
    ensures var f := SendCertificate(c, w, e).e; f.hs.Some? && f.hs.value.cipher == e.hs.value.cipher && f.hs.value.pskId == e.hs.value.pskId
  {
    hide SendCertificate;
  }

  lemma SpokeTo(a: Endpoint, b: Endpoint, d: Endpoint, xs: seq<Said>)
    requires Spoke(a, b, xs) && d.hs.Some? && d.sent == b.sent
    requires d.hs.value.mseqS == b.hs.value.mseqS && d.hs.value.transcript == b.hs.value.transcript
    ensures Spoke(a, d, xs)
  {
    hide Texts, IsOut;
  }

  // ---------------------------------------------------------------- ChangeCipherSpec and Finished

  /** Both records went out: type 20 with the octet 1, type 22 with the Finished over the transcript at hand, which is then hashed. */
  ghost predicate Closes(h: Hash, a: Endpoint, b: Endpoint, verify: seq<byte>) {
    && a.hs.Some? && b.hs.Some? && |b.sent| == |a.sent| + 2 && b.sent[..|a.sent|] == a.sent
    && b.sent[|a.sent|].ctype == 20 && b.sent[|a.sent|].payload == [1]
    && b.sent[|a.sent| + 1].ctype == 22 && b.sent[|a.sent| + 1].payload == Text(Said(20, verify), a.hs.value.mseqS)
    && IsVerify(h, a.hs.value.tmp[..48], a.role, a.hs.value.transcript, verify)
    && b.hs.value.transcript == a.hs.value.transcript + Text(Said(20, verify), a.hs.value.mseqS)
    && b.sent[|a.sent| + 1].under == a.s1
  }

  lemma FinishedSaid(c: Config, w: World, e: Endpoint)
    requires e.hs.Some? && SendServerFinished(c, w, e).err >= 0
    ensures var h := e.hs.value;
      Closes(c.hash, e, SendServerFinished(c, w, e).e, VerifyData(c.hash, h.tmp[..48], e.role, h.transcript))
  {
    hide SendHandshake, VerifyData, IsVerify, Text, SameBut, Protect;
    var h := e.hs.value;
    var verify := VerifyData(c.hash, h.tmp[..48], e.role, h.transcript);
    VerifyOctets(c.hash, h.tmp[..48], e.role, h.transcript);
    var e1 := Switched(Send(c, w, e, CHANGE_CIPHER_SPEC, [1]).e);
    var e2 := e1.With(h.(trail := h.trail + [OwnFinished(c, e1)]));
    SaidUnder(c, w, e2, 20, verify);
    LastText(e2, SendHandshake(c, w, e2, 20, verify, true).e, Said(20, verify));
  }

  lemma SaidUnder(c: Config, w: World, e: Endpoint, kind: byte, body: seq<byte>)
    requires e.hs.Some? && SendHandshake(c, w, e, kind, body, true).err >= 0
    ensures var f := SendHandshake(c, w, e, kind, body, true).e;
      Spoke(e, f, [Said(kind, body)]) && f.sent[|e.sent|].under == e.s0
  {
    hide Protect, MessageHeader, HandshakeHeader, SameBut, Spoke;
    SayOne(c, w, e, kind, body);
  }

  lemma LastText(a: Endpoint, b: Endpoint, x: Said)
    requires Spoke(a, b, [x])
    ensures |b.sent| == |a.sent| + 1 && b.sent[..|a.sent|] == a.sent
    ensures b.sent[|a.sent|].ctype == 22 && b.sent[|a.sent|].payload == Text(x, a.hs.value.mseqS)
    ensures b.hs.value.transcript == a.hs.value.transcript + Text(x, a.hs.value.mseqS)
  {
    hide MessageHeader;
    OneText(x, a.hs.value.mseqS);
    assert IsOut(a.hs.value.mseqS, b.sent, |a.sent|, [x], 0);
  }

  // ---------------------------------------------------------------- heard and answered

  lemma CountKeeps(r: Outcome)
    requires r.e.hs.Some?
    ensures var f := Count(r).e; f.hs.Some? && f.hs.value.transcript == r.e.hs.value.transcript && f.sent == r.e.sent && Count(r).err == r.err
  {
  }

  /** The messages that are answered by none: hashed as they came, and nothing is said. */
  predicate Unanswered(e: Endpoint, kind: byte)
    requires e.hs.Some?
  {
    kind in {2, 11, 13, 15, 16} || (kind == 12 && e.hs.value.cipher in {0xc0a8, 0xc0ae})
  }

  /** The message has been hashed, and nothing sent. */
  ghost predicate Took(a: Endpoint, b: Endpoint, m: Message) {
    a.hs.Some? && b.hs.Some? && b.hs.value.transcript == a.hs.value.transcript + m && b.sent == a.sent
  }

  lemma Heard(c: Config, w: World, e: Endpoint, m: Message)
    requires e.known && e.hs.Some? && Unanswered(e, m[0]) && HandleHandshakeMsg(c, w, e, m).err >= 0
    ensures Took(e, HandleHandshakeMsg(c, w, e, m).e, m)
  {
    hide HandleHandshakeMsg, OnServerHello, OnCertificate, OnServerKeyExchange, OnCertificateRequest, OnClientKeyExchange, OnCertificateVerify;
    var f := e.(clock := e.clock + 1);
    Dispatched(c, w, e, m);
    if m[0] == 2 { ServerHelloHeard(c, w, f, m); }
    else if m[0] == 16 { ClientKeyExchangeHeard(c, w, f, m); }
    else if m[0] == 11 { CertificateHeard(w, f, m); }
    else if m[0] == 12 { ServerKeyExchangeHeard(w, f, m); }
    else if m[0] == 13 { CertificateRequestHeard(w, f, m); }
    else { CertificateVerifyHeard(w, f, m); }
  }

  lemma Dispatched(c: Config, w: World, e: Endpoint, m: Message)
    requires e.known && e.hs.Some? && Unanswered(e, m[0])
    ensures var r, f := HandleHandshakeMsg(c, w, e, m), e.(clock := e.clock + 1);
      r == if m[0] == 2 then OnServerHello(c, w, f, m)
           else if m[0] == 16 then OnClientKeyExchange(c, w, f, m)
           else if m[0] == 11 then OnCertificate(w, f, m)
           else if m[0] == 12 then OnServerKeyExchange(w, f, m)
           else if m[0] == 13 then OnCertificateRequest(w, f, m) else OnCertificateVerify(w, f, m)
  {
    hide OnServerHello, OnCertificate, OnServerKeyExchange, OnCertificateRequest, OnClientKeyExchange, OnCertificateVerify;
  }

  lemma ServerHelloHeard(c: Config, w: World, e: Endpoint, m: Message)
    requires e.hs.Some? && OnServerHello(c, w, e, m).err >= 0
    ensures Took(e, OnServerHello(c, w, e, m).e, m)
  {
    hide ChosenParameters, Range, Count;
    var r := CheckServerHello(c, w, e, m);
    CountKeeps(Outcome(HelloTaken(r.e), 0));
  }

  lemma ClientKeyExchangeHeard(c: Config, w: World, e: Endpoint, m: Message)
    requires e.hs.Some? && OnClientKeyExchange(c, w, e, m).err >= 0
    ensures Took(e, OnClientKeyExchange(c, w, e, m).e, m)
  {
    hide CheckClientKeyExchange, Count;
    CountKeeps(Outcome(Exchanged(c, Absorbed(CheckClientKeyExchange(w, e, m).e, m)), 0));
  }

  lemma CertificateHeard(w: World, e: Endpoint, m: Message)
    requires e.hs.Some? && OnCertificate(w, e, m).err >= 0
    ensures Took(e, OnCertificate(w, e, m).e, m)
  {
    hide ShortField;
  }

  lemma CertificateRequestHeard(w: World, e: Endpoint, m: Message)
    requires e.hs.Some? && OnCertificateRequest(w, e, m).err >= 0
    ensures Took(e, OnCertificateRequest(w, e, m).e, m)
  {
    hide ShortField;
  }

  lemma CertificateVerifyHeard(w: World, e: Endpoint, m: Message)
    requires e.hs.Some? && OnCertificateVerify(w, e, m).err >= 0
    ensures Took(e, OnCertificateVerify(w, e, m).e, m)
  {
    hide ShortField;
  }

  lemma ServerKeyExchangeHeard(w: World, e: Endpoint, m: Message)
    requires e.hs.Some? && e.hs.value.cipher in {0xc0a8, 0xc0ae} && OnServerKeyExchange(w, e, m).err >= 0
    ensures Took(e, OnServerKeyExchange(w, e, m).e, m)
  {
    hide ShortField;
  }

  /** A ClientHello that is accepted: the transcript begins with it, and the server's flight follows. */
  lemma HelloAnswered(c: Config, w: World, e: Endpoint, m: Message)
    requires AcceptClientHello(c, w, e, m).err >= 0 && AcceptClientHello(c, w, e, m).e.hs.Some?
    requires AcceptClientHello(c, w, e, m).e.hs.value.cipher in {0xc0a8, 0xc0ae}
    ensures var a, f := Admitted(e, m), AcceptClientHello(c, w, e, m).e; var cipher := f.hs.value.cipher;
      var flight := [Greeting(cipher, w.random(a.clock))] + Material(c, w, a.clock + 1, cipher) + [Said(14, [])];
      Out(a, f, flight) && f.hs.value.transcript == m + Texts(flight, a.hs.value.mseqS)
  {
    hide AcceptClientHello, UpdateParameters, SendServerHelloMessages, Greeting, Material, Texts, IsOut, SameBut;
    var a := Admitted(e, m);
    var b := Absorbed(UpdateParameters(c, w, a, m).e, m);
    AcceptIs(c, w, e, m);
    ServerFlight(c, w, b);
    assert a.hs.value.transcript + m == m;
  }

  lemma AcceptIs(c: Config, w: World, e: Endpoint, m: Message)
    requires AcceptClientHello(c, w, e, m).err >= 0
    ensures var r1 := UpdateParameters(c, w, Admitted(e, m), m); var f := AcceptClientHello(c, w, e, m).e;
      && r1.err >= 0 && var r2 := SendServerHelloMessages(c, w, Absorbed(r1.e, m));
      && r2.err >= 0 && f.hs.Some? && f.hs.value.transcript == r2.e.hs.value.transcript && f.sent == r2.e.sent
      && f.hs.value.cipher == r2.e.hs.value.cipher == r1.e.hs.value.cipher
  {
    hide UpdateParameters, SendServerHelloMessages, Count, Admitted;
    var r1 := UpdateParameters(c, w, Admitted(e, m), m);
    var r2 := SendServerHelloMessages(c, w, Absorbed(r1.e, m));
    CountKeeps(Outcome(HelloAccepted(c, r2.e), 0));
    CountCipher(Outcome(HelloAccepted(c, r2.e), 0));
    AcceptedCipher(c, r2.e);
  }

  lemma CountCipher(r: Outcome)
    requires r.e.hs.Some?
    ensures Count(r).e.hs.Some? && Count(r).e.hs.value.cipher == r.e.hs.value.cipher
  {
  }

  lemma AcceptedCipher(c: Config, e: Endpoint)
    requires e.hs.Some?
    ensures HelloAccepted(c, e).hs.Some? && HelloAccepted(c, e).hs.value.cipher == e.hs.value.cipher
    ensures HelloAccepted(c, e).hs.value.transcript == e.hs.value.transcript && HelloAccepted(c, e).sent == e.sent
  {
  }

  /**
   * A ServerHelloDone: it is hashed, the client's messages are said, keys are derived, ChangeCipherSpec and Finished go
   * out, the latter under the new keys and over everything before it.
   */
  lemma HelloDoneAnswered(c: Config, w: World, e: Endpoint, m: Message)
    requires e.hs.Some? && e.hs.value.cipher in {0xc0a8, 0xc0ae} && CheckServerHelloDone(c, w, e, m).err >= 0
    ensures var a := Absorbed(e, m); var b := SendKeyExchangeFlight(c, w, a).e; var d := CalculateKeyBlock(c, w, b).e;
      && Spoke(a, b, Response(w, a.clock, a.hs.value)) && Derives(c.hash, b, d) && d.sent == b.sent
      && d.hs.value.transcript == b.hs.value.transcript && d.hs.value.mseqS == b.hs.value.mseqS
      && exists verify :: Closes(c.hash, d, CheckServerHelloDone(c, w, e, m).e, verify)
  {
    hide CheckServerHelloDone, SendKeyExchangeFlight, CalculateKeyBlock, SendServerFinished, Spoke, Response, Derives, Closes,
      VerifyData, SameBut;
    SpokeEnds();
    DoneIs(c, w, e, m);
    var a := Absorbed(e, m);
    ResponseSaid(c, w, a);
    var b := SendKeyExchangeFlight(c, w, a).e;
    DerivationOctets(c, w, b);
    var d := CalculateKeyBlock(c, w, b).e;
    DerivationKeeps(c, w, b);
    FinishedSaid(c, w, d);
  }

  lemma DerivationKeeps(c: Config, w: World, e: Endpoint)
    requires e.hs.Some?
    ensures var f := CalculateKeyBlock(c, w, e).e;
      && f.hs.Some? && f.sent == e.sent
      && f.hs.value.transcript == e.hs.value.transcript && f.hs.value.mseqS == e.hs.value.mseqS
  {
    hide PreMasterSecret;
  }

  lemma DoneIs(c: Config, w: World, e: Endpoint, m: Message)
    requires e.hs.Some? && CheckServerHelloDone(c, w, e, m).err >= 0
    ensures var r1 := SendKeyExchangeFlight(c, w, Absorbed(e, m));
      && r1.err >= 0 && var r2 := CalculateKeyBlock(c, w, r1.e);
      r2.err >= 0 && CheckServerHelloDone(c, w, e, m) == SendServerFinished(c, w, r2.e)
  {
    hide SendKeyExchangeFlight, CalculateKeyBlock, Send, SendFinished;
  }

  /** A client's Finished at a server: it is hashed, and the server's own goes out over a transcript that ends with it. */
  lemma FinishedAnswered(c: Config, w: World, e: Endpoint, m: Message)
    requires e.hs.Some? && e.role == Server && |m| >= 24 && AnswerFinished(c, w, e, m).err >= 0
    ensures exists verify :: Closes(c.hash, Absorbed(e, m), AnswerFinished(c, w, e, m).e, verify)
  {
    hide SendServerFinished, VerifyData, Closes;
    var h := e.hs.value;
    var e1 := e.With(h.(trail := h.trail + [FinishedAccepted(h.tmp[..48], h.transcript, m[12..24], h.mseqR)]));
    var verify := VerifyData(c.hash, h.tmp[..48], e.role, h.transcript + m);
    FinishedSaid(c, w, Absorbed(e1, m));
    ClosesFrom(c.hash, Absorbed(e1, m), Absorbed(e, m), AnswerFinished(c, w, e, m).e, verify);
  }

  lemma ClosesFrom(h: Hash, a: Endpoint, d: Endpoint, b: Endpoint, verify: seq<byte>)
    requires Closes(h, a, b, verify) && d.hs.Some? && d.sent == a.sent && d.role == a.role && d.s1 == a.s1
    requires d.hs.value.tmp == a.hs.value.tmp && d.hs.value.mseqS == a.hs.value.mseqS && d.hs.value.transcript == a.hs.value.transcript
    ensures Closes(h, d, b, verify)
  {
    hide IsVerify, Text;
  }
}

/**
 * A client and a server joined by a loss-free, ordered channel and sharing a key of at most 18 octets:
 * sections 4.2.4 and 4.2.6 of RFC 6347, message by message.
 */
module TwoParty {
  import opened Bytes
  import opened CcmSpec
  import opened Prf
  import opened Peers
  import opened RecordSpec
  import opened Datagram
  import opened Reorder
  import opened Hello
  import opened Engine
  import opened Wire
  import opened Transport

  /** What the two sides are going to agree on. */
  datatype Session = Session(hash: Hash, key: Short, id: Short, hint: Short, cr: Random, sr: Random, cookie: seq<byte>)
  {
    ghost predicate Valid() { |key| <= 18 && |cookie| == 16 }

    /** The number of the ServerHelloDone, one more with a ServerKeyExchange before it. */
    function K(): uint16 { if hint == [] then 2 else 3 }

    function Master(): (m: seq<byte>) ensures |m| == 48 { MasterSecret(hash, PreMaster(key), cr, sr) }
    function Kb(): KeyBlock { KeyBlockOf(hash, Master(), cr, sr) }
  }

  function Hello1(x: Session): Message { Msg(1, 0, ClientHelloBody(true, false, x.cr, [])) }

  function VerifyRequest(x: Session): Message { Msg(3, 0, BigEndian(VERSION, 2) + [16] + x.cookie) }

  function Hello2(x: Session): Message
    requires x.Valid()
  {
    Msg(1, 1, ClientHelloBody(true, false, x.cr, x.cookie))
  }

  function ServerHello(x: Session): Message { Msg(2, 1, ServerHelloBody(PSK_CIPHER, x.sr)) }

  function KeyHint(x: Session): Message { Msg(12, 2, BigEndian(|x.hint|, 2) + x.hint) }

  function HelloDone(x: Session): Message { Msg(14, x.K(), []) }

  function KeyExchange(x: Session): Message { Msg(16, 2, BigEndian(|x.id|, 2) + x.id) }

  /** The running transcript, as each side must have it after each message. */
  function T1(x: Session): seq<byte>
    requires x.Valid()
  {
    Hello2(x) + ServerHello(x)
  }

  function T2(x: Session): seq<byte>
    requires x.Valid()
  {
    if x.hint == [] then T1(x) else T1(x) + KeyHint(x)
  }

  function T3(x: Session): seq<byte>
    requires x.Valid()
  {
    T2(x) + HelloDone(x)
  }

  function T4(x: Session): seq<byte>
    requires x.Valid()
  {
    T3(x) + KeyExchange(x)
  }

  function ClientVerify(x: Session): (v: seq<byte>)
    requires x.Valid()
    ensures |v| == 12
  {
    VerifyData(x.hash, x.Master(), Client, T4(x))
  }

  function ClientFinished(x: Session): Message
    requires x.Valid()
  {
    Msg(20, 3, ClientVerify(x))
  }

  function T5(x: Session): seq<byte>
    requires x.Valid()
  {
    T4(x) + ClientFinished(x)
  }

  function ServerVerify(x: Session): (v: seq<byte>)
    requires x.Valid()
    ensures |v| == 12
  {
    VerifyData(x.hash, x.Master(), Server, T5(x))
  }

  function ServerFinished(x: Session): Message
    requires x.Valid()
  {
    Msg(20, x.K() + 1, ServerVerify(x))
  }

  function Derivation(x: Session): Milestone { KeysDerived(x.cr, x.sr, PreMaster(x.key), x.Master()) }

  /** A client or server that may talk pre-shared keys and nothing else, and whose callbacks know this session. */
  ghost predicate ClientWorld(c: Config, w: World, x: Session) {
    && x.Valid() && c.psk && !c.verifiesKey && c.hash == x.hash && Perfect(w)
    && (forall n :: w.psk(n, Identity(x.hint)) == Given(x.id))
    && (forall n :: w.psk(n, Key(x.id)) == Given(x.key))
  }

  ghost predicate ServerWorld(c: Config, w: World, x: Session) {
    && x.Valid() && c.psk && c.hash == x.hash && Perfect(w)
    && (forall n :: w.psk(n, Hint) == Given(x.hint))
    && (forall n :: w.psk(n, Key(x.id)) == Given(x.key))
    && x.cookie == Cookie(c.hash, c.secret, c.session + (BigEndian(VERSION, 2) + x.cr + [0] + []) + HelloTail(true, false))
  }

  /** The last handshake began with a hello meant for this role, and its epoch did not wrap. */
  ghost predicate Unscathed(e: Endpoint) { !e.doneCrossed && !e.doneWrapped }

  ghost predicate In(e: Endpoint, role: Role, state: State, h: Handshake) {
    e.known && e.role == role && e.state == state && e.hs == Some(h)
  }

  // ---------------------------------------------------------------- 1: the first ClientHello

  function Client1(x: Session): Handshake { NewHandshake(0, 0).(tmp := x.cr + Zeros(32), mseqS := 1) }

  lemma HelloLength(cookie: seq<byte>, random: Random)
    requires |cookie| <= 32
    ensures |ClientHelloBody(true, false, random, cookie)| <= 74
  {
    hide BigEndian;
    assert |HelloTail(true, false)| == 6 by { assert Suites(true, false) == [PSK_CIPHER]; assert SuiteOctets([]) == []; }
  }

  lemma Connecting(c: Config, w: World, e: Endpoint, x: Session) returns (y: Sent)
    requires ClientWorld(c, w, x) && !e.known && x.cr == w.random(e.clock)
    ensures var f := Connect(c, w, e).e;
      In(f, Client, ClientHelloSent, Client1(x)) && PlainSlot(f.s0) && f.sent == e.sent + [y]
      && Plain(c.aes, Client, y, HANDSHAKE, Hello1(x))
  {
    hide ClientHelloBody, SendHandshake, SendClientHello, HandshakeHeader, Protect;
    HelloLength([], x.cr);
    var e0 := NewPeer(e, Client, 0).With(NewHandshake(0, 0));
    FirstHello(c, w, e0, x);
    HandshakePosts(c, w, e0.With(Client1(x).(mseqS := 0)), 1, ClientHelloBody(true, false, x.cr, []), false);
    y := Connect(c, w, e).e.sent[|e.sent|];
  }

  lemma FirstHello(c: Config, w: World, e: Endpoint, x: Session)
    requires ClientWorld(c, w, x) && e.hs == Some(NewHandshake(0, 0)) && x.cr == w.random(e.clock)
    ensures SendClientHello(c, w, e, [])
      == SendHandshake(c, w, e.With(Client1(x).(mseqS := 0)), 1, ClientHelloBody(true, false, x.cr, []), false)
  {
    hide ClientHelloBody, SendHandshake;
    assert Zeros(64)[32..] == Zeros(32);
    assert (x.cr + Zeros(32))[..32] == x.cr;
  }

  // ---------------------------------------------------------------- 2: the cookie comes back

  /** What the cookie check makes of the first and of the second hello. */
  lemma CookieChecks(c: Config, w: World, x: Session, stale: nat -> byte)
    requires ServerWorld(c, w, x)
    ensures VerifyPeer(c.hash, c.secret, c.session, Input(Hello1(x), stale)) == Challenge(x.cookie, true)
    ensures VerifyPeer(c.hash, c.secret, c.session, Input(Hello2(x), stale)) == Good
  {
    hide VerifyPeer, ClientHelloBody, HelloTail, ClientHello, HandshakeHeader, Cookie, BigEndian;
    HelloLength([], x.cr);
    TailLength();
    BodyIsClientHello(true, false, x.cr, [], 0);
    BodyIsClientHello(true, false, x.cr, x.cookie, 1);
    CookieExchangeCloses(c.hash, c.secret, c.session, 0, 1, x.cr, [], [], HelloTail(true, false), stale);
  }

  lemma TailLength()
    ensures |HelloTail(true, false)| == 6
  {
    hide BigEndian;
    assert Suites(true, false) == [PSK_CIPHER];
    assert SuiteOctets([]) == [];
  }

  lemma Challenging(c: Config, w: World, e: Endpoint, y: Sent, x: Session) returns (z: Sent)
    requires ServerWorld(c, w, x) && Stranger(e) && Plain(c.aes, Client, y, HANDSHAKE, Hello1(x))
    ensures var f := HandleMessage(c, w, e, y.bytes).e;
      Stranger(f) && f.sent == e.sent + [z] && Plain(c.aes, Server, z, HANDSHAKE, VerifyRequest(x)) && f.clock == e.clock + 3
  {
    hide ClientHelloBody, SendHandshake, HandshakeHeader, Protect, VerifyPeer, AcceptClientHello, HandleMessage, Cookie;
    HelloLength([], x.cr);
    CarriedToStranger(c, w, e, Client, y, HANDSHAKE, Hello1(x));
    var e2 := Tick(Tick(e));
    CookieChecks(c, w, x, w.stale(e2.clock));
    FirstIs(1, 0, ClientHelloBody(true, false, x.cr, []));
    var body := BigEndian(VERSION, 2) + [16] + x.cookie;
    HandshakePosts(c, w, e2, 3, body, false);
    z := HandleMessage(c, w, e, y.bytes).e.sent[|e.sent|];
    RoleFree(c.aes, e.role, Server, HANDSHAKE, VerifyRequest(x));
  }

  /** Without security parameters the role does not show. */
  lemma RoleFree(aes: Aes, a: Role, b: Role, ctype: byte, payload: seq<byte>)
    ensures Protect(aes, a, None, ctype, payload) == Protect(aes, b, None, ctype, payload)
  {
    hide Header;
  }

  // ---------------------------------------------------------------- 3: the second ClientHello

  function Client2(x: Session): Handshake
    requires x.Valid()
  {
    Client1(x).(mseqR := 1, mseqS := 2, transcript := Hello2(x))
  }

  lemma Answering(c: Config, w: World, e: Endpoint, y: Sent, x: Session) returns (z: Sent)
    requires ClientWorld(c, w, x) && In(e, Client, ClientHelloSent, Client1(x)) && PlainSlot(e.s0)
    requires Plain(c.aes, Server, y, HANDSHAKE, VerifyRequest(x))
    ensures var f := HandleMessage(c, w, e, y.bytes).e;
      In(f, Client, ClientHelloSent, Client2(x)) && PlainSlot(f.s0) && f.sent == e.sent + [z]
      && Plain(c.aes, Client, z, HANDSHAKE, Hello2(x))
  {
    hide ClientHelloBody, SendHandshake, HandshakeHeader, Protect, HandleMessage, MessageSeq, HandleHandshakeMsg, Range;
    CarriedPlain(c, w, e, Server, y, HANDSHAKE, VerifyRequest(x));
    AnswerIs(c, w, Tick(e), x);
    FirstIs(3, 0, BigEndian(VERSION, 2) + [16] + x.cookie);
    InTurn(c, w, Tick(e), 0, VerifyRequest(x));
    z := HandleMessage(c, w, e, y.bytes).e.sent[|e.sent|];
  }

  lemma AnswerIs(c: Config, w: World, e: Endpoint, x: Session)
    requires ClientWorld(c, w, x) && In(e, Client, ClientHelloSent, Client1(x))
    ensures var h := Client1(x).(transcript := []);
      HandleHandshakeMsg(c, w, e, VerifyRequest(x))
      == Outcome(Posted(c, Tick(e).With(Client2(x)), HANDSHAKE, Hello2(x)), |Hello2(x)|)
  {
    hide ClientHelloBody, SendHandshake, HandshakeHeader, Protect, MessageSeq, Range;
    var m := VerifyRequest(x);
    var body := BigEndian(VERSION, 2) + [16] + x.cookie;
    FirstIs(3, 0, body);
    assert m[14] == m[12..][2] == 16 && m[15..31] == m[12..][3..19] == x.cookie;
    RangeInside(Received(w, Tick(e), m), 15, 16);
    HelloLength(x.cookie, x.cr);
    assert (x.cr + Zeros(32))[..32] == x.cr;
    var e1 := Tick(e).With(Client1(x).(transcript := []));
    HandshakePosts(c, w, e1, 1, ClientHelloBody(true, false, x.cr, x.cookie), true);
    assert [] + Hello2(x) == Hello2(x);
  }

  // ---------------------------------------------------------------- 4: the server's flight

  function Server1(x: Session): Handshake
    requires x.Valid()
  {
    Handshake(x.cr + x.sr, true, [], 2, x.K() + 1, T3(x), PSK_CIPHER, 0, false, [], [HelloExchanged(x.cr, x.sr)], false, false)
  }

  /** The hello is understood: the client's random value and the one suite both know. */
  lemma Understood(c: Config, w: World, e: Endpoint, x: Session)
    requires ServerWorld(c, w, x) && e.hs.Some? && e.hs.value == NewHandshake(1, 1).(crossed := e.hs.value.crossed)
    ensures UpdateParameters(c, w, e, Hello2(x))
      == Outcome(e.With(e.hs.value.(tmp := x.cr + Zeros(32), cipher := PSK_CIPHER)), 0)
  {
    hide ParseClientHello, ClientHelloBody, HandshakeHeader;
    PrintParseAgree(true, false, x.cr, x.cookie, 1, w.stale(e.clock), true, c.ownKey, e.s0, NULL_CIPHER, 0, w.overrun(e.clock));
    assert FirstKnown(Suites(true, false), true, c.ownKey) == Some(PSK_CIPHER) by { assert Suites(true, false) == [PSK_CIPHER]; }
    assert Extensions(false) == [];
    assert x.cr + Zeros(64)[32..] == x.cr + Zeros(32);
  }

  /** The two or three messages the server answers with. */
  ghost predicate ServerFlight(c: Config, x: Session, ys: seq<Sent>) {
    && |ys| == x.K() && Plain(c.aes, Server, ys[0], HANDSHAKE, ServerHello(x))
    && (x.hint != [] ==> Plain(c.aes, Server, ys[1], HANDSHAKE, KeyHint(x)))
    && Plain(c.aes, Server, ys[|ys| - 1], HANDSHAKE, HelloDone(x))
  }

  lemma FlightPosts(c: Config, w: World, e: Endpoint, x: Session) returns (ys: seq<Sent>)
    requires ServerWorld(c, w, x) && e.role == Server && PlainSlot(e.s0) && x.sr == w.random(e.clock)
    requires e.hs == Some(NewHandshake(1, 1).(tmp := x.cr + Zeros(32), cipher := PSK_CIPHER, transcript := Hello2(x)))
    ensures var r := SendServerHelloMessages(c, w, e);
      && r.err == 0 && PlainSlot(r.e.s0) && r.e.s1 == e.s1 && r.e.sent == e.sent + ys && ServerFlight(c, x, ys)
      && r.e == e.With(Server1(x).(mseqR := 1, trail := [])).(s0 := r.e.s0, clock := r.e.clock, sent := r.e.sent)
  {
    hide ServerHelloBody, SendServerHello, SendHandshake, HandshakeHeader, Protect, SendHint, BigEndian, Posted,
      Counted;
    var e1 := HelloPosts(c, w, e, x);
    HintPosts(c, w, e1, x);
    var e2, zs := AfterHint(c, w, e1, x);
    HandshakePosts(c, w, e2, 14, [], true);
    var z := DonePosted(c, e2, x);
    var r := SendServerHelloMessages(c, w, e);
    ys := [e1.sent[|e.sent|]] + zs + [z];
    assert e.sent + ys == e.sent + [e1.sent[|e.sent|]] + zs + [z];
  }

  lemma HelloPosts(c: Config, w: World, e: Endpoint, x: Session) returns (f: Endpoint)
    requires ServerWorld(c, w, x) && e.role == Server && PlainSlot(e.s0) && x.sr == w.random(e.clock)
    requires e.hs == Some(NewHandshake(1, 1).(tmp := x.cr + Zeros(32), cipher := PSK_CIPHER, transcript := Hello2(x)))
    ensures SendServerHello(c, w, e) == Outcome(f, 50) && |f.sent| == |e.sent| + 1
    ensures f == e.With(Server1(x).(mseqR := 1, mseqS := 2, transcript := T1(x), trail := []))
                   .(s0 := f.s0, clock := f.clock, sent := e.sent + [f.sent[|e.sent|]])
    ensures PlainSlot(f.s0) && Plain(c.aes, Server, f.sent[|e.sent|], HANDSHAKE, ServerHello(x))
  {
    hide ServerHelloBody, SendHandshake, HandshakeHeader, Protect, BigEndian;
    assert (x.cr + Zeros(32))[..32] == x.cr;
    BodyLengths(x.sr);
    HandshakePosts(c, w, e.With(e.hs.value.(tmp := x.cr + x.sr)), 2, ServerHelloBody(PSK_CIPHER, x.sr), true);
    f := SendServerHello(c, w, e).e;
  }

  lemma AfterHint(c: Config, w: World, e: Endpoint, x: Session) returns (f: Endpoint, zs: seq<Sent>)
    requires ServerWorld(c, w, x) && e.role == Server && PlainSlot(e.s0)
    requires e.hs == Some(Server1(x).(mseqR := 1, mseqS := 2, transcript := T1(x), trail := []))
    ensures SendHint(c, w, e).e == f && SendHint(c, w, e).err >= 0 && |zs| == x.K() - 2
    ensures f == e.With(Server1(x).(mseqR := 1, mseqS := x.K(), transcript := T2(x), trail := []))
                   .(s0 := f.s0, clock := f.clock, sent := e.sent + zs)
    ensures PlainSlot(f.s0) && (x.hint != [] ==> Plain(c.aes, Server, zs[0], HANDSHAKE, KeyHint(x)))
  {
    hide HandshakeHeader, Protect, BigEndian, SendHint;
    HintPosts(c, w, e, x);
    f := SendHint(c, w, e).e;
    zs := f.sent[|e.sent|..];
  }

  lemma DonePosted(c: Config, e: Endpoint, x: Session) returns (z: Sent)
    requires x.Valid() && e.role == Server && PlainSlot(e.s0)
    requires e.hs == Some(Server1(x).(mseqR := 1, mseqS := x.K(), transcript := T2(x), trail := []))
    ensures var f := Posted(c, Counted(e, 14, [], true), HANDSHAKE, HandshakeMessage(e, 14, []));
      f == e.With(Server1(x).(mseqR := 1, trail := [])).(s0 := f.s0, clock := f.clock, sent := e.sent + [z]) && PlainSlot(f.s0)
    ensures Plain(c.aes, Server, z, HANDSHAKE, HelloDone(x))
  {
    hide HandshakeHeader, Protect;
    z := Engine.Sent(e.role, e.s0, HANDSHAKE, HelloDone(x), Protect(c.aes, e.role, e.s0, HANDSHAKE, HelloDone(x)));
  }

  lemma HintPosts(c: Config, w: World, e: Endpoint, x: Session)
    requires ServerWorld(c, w, x) && e.hs.Some? && e.hs.value.mseqS == 2
    ensures SendHint(c, w, e) == if x.hint == [] then Outcome(e, 0) else
      Outcome(Posted(c, Counted(e, 12, BigEndian(|x.hint|, 2) + x.hint, true), HANDSHAKE, KeyHint(x)), 14 + |x.hint|)
  {
    hide SendHandshake, Posted, HandshakeHeader, BigEndian;
    assert w.psk(e.clock, Hint) == Given(x.hint);
    if x.hint != [] { HandshakePosts(c, w, e, 12, BigEndian(|x.hint|, 2) + x.hint, true); }
  }

  lemma Admitting(c: Config, w: World, e: Endpoint, x: Session) returns (ys: seq<Sent>)
    requires ServerWorld(c, w, x) && Stranger(e) && x.sr == w.random(e.clock)
    ensures var r := AcceptClientHello(c, w, e, Hello2(x));
      && r.err == 0 && In(r.e, Server, WaitClientKeyExchange, Server1(x)) && PlainSlot(r.e.s0) && r.e.s1.None?
      && r.e.sent == e.sent + ys && ServerFlight(c, x, ys)
  {
    hide UpdateParameters, SendServerHelloMessages, HandshakeHeader, ClientHelloBody, MessageSeq, T3, ServerFlight;
    FirstIs(1, 1, ClientHelloBody(true, false, x.cr, x.cookie));
    var e1 := Admitted(e, Hello2(x));
    assert e1.hs == Some(NewHandshake(1, 1));
    Understood(c, w, e1, x);
    var e2 := Absorbed(UpdateParameters(c, w, e1, Hello2(x)).e, Hello2(x));
    assert [] + Hello2(x) == Hello2(x);
    ys := FlightPosts(c, w, e2, x);
    Halves(x);
  }

  lemma Halves(x: Session)
    ensures (x.cr + x.sr)[..32] == x.cr && (x.cr + x.sr)[32..] == x.sr
    ensures [] + [HelloExchanged(x.cr, x.sr)] == [HelloExchanged(x.cr, x.sr)]
  {
  }

  lemma Welcoming(c: Config, w: World, e: Endpoint, y: Sent, x: Session) returns (ys: seq<Sent>)
    requires ServerWorld(c, w, x) && Stranger(e) && x.sr == w.random(e.clock + 2)
    requires Plain(c.aes, Client, y, HANDSHAKE, Hello2(x))
    ensures var f := HandleMessage(c, w, e, y.bytes).e;
      In(f, Server, WaitClientKeyExchange, Server1(x)) && PlainSlot(f.s0) && f.s1.None?
      && f.sent == e.sent + ys && ServerFlight(c, x, ys)
  {
    hide ClientHelloBody, HandshakeHeader, Protect, VerifyPeer, AcceptClientHello, HandleMessage, Cookie, ServerFlight;
    HelloLength(x.cookie, x.cr);
    CarriedToStranger(c, w, e, Client, y, HANDSHAKE, Hello2(x));
    var e2 := Tick(Tick(e));
    CookieChecks(c, w, x, w.stale(e2.clock));
    FirstIs(1, 1, ClientHelloBody(true, false, x.cr, x.cookie));
    ys := Admitting(c, w, e2, x);
  }

  // ---------------------------------------------------------------- 5: the client reads it

  function Client3(x: Session): Handshake
    requires x.Valid()
  {
    Handshake(x.cr + x.sr, true, [], 2, 2, T1(x), PSK_CIPHER, 0, false, [], [HelloExchanged(x.cr, x.sr)], false, false)
  }

  function Client4(x: Session): Handshake
    requires x.Valid()
  {
    Client3(x).(mseqR := x.K(), transcript := T2(x), pskId := x.hint)
  }

  lemma HelloDelivered(c: Config, w: World, e: Endpoint, y: Sent, x: Session)
    requires ClientWorld(c, w, x) && In(e, Client, ClientHelloSent, Client2(x)) && PlainSlot(e.s0)
    requires Plain(c.aes, Server, y, HANDSHAKE, ServerHello(x))
    ensures var f := HandleMessage(c, w, e, y.bytes).e;
      In(f, Client, WaitServerHelloDone, Client3(x)) && PlainSlot(f.s0) && f.sent == e.sent
  {
    hide ServerHelloBody, HandshakeHeader, Protect, HandleMessage, HandlePayload, HandleHandshakeMsg, MessageSeq, Hello2, T1;
    CarriedPlain(c, w, e, Server, y, HANDSHAKE, ServerHello(x)) by { BodyLengths(x.sr); }
    FirstIs(2, 1, ServerHelloBody(PSK_CIPHER, x.sr));
    HelloHandledByClient(c, w, Tick(e), x);
    InTurn(c, w, Tick(e), 0, ServerHello(x));
  }

  lemma HelloHandledByClient(c: Config, w: World, e: Endpoint, x: Session)
    requires ClientWorld(c, w, x) && In(e, Client, ClientHelloSent, Client2(x))
    ensures var r := HandleHandshakeMsg(c, w, e, ServerHello(x));
      r.err >= 0 && In(r.e, Client, WaitServerHelloDone, Client3(x)) && r.e.s0 == e.s0 && r.e.sent == e.sent
  {
    hide ServerHelloBody, HandshakeHeader, MessageSeq, CheckServerHello, Hello2;
    FirstIs(2, 1, ServerHelloBody(PSK_CIPHER, x.sr));
    ServerHelloRead(c, w, Tick(e), 1, x.sr);
    assert (x.cr + Zeros(32))[..32] == x.cr;
    Halves(x);
  }

  lemma HintDelivered(c: Config, w: World, e: Endpoint, y: Sent, x: Session)
    requires ClientWorld(c, w, x) && In(e, Client, WaitServerHelloDone, Client3(x)) && PlainSlot(e.s0)
    requires x.hint != [] && Plain(c.aes, Server, y, HANDSHAKE, KeyHint(x))
    ensures var f := HandleMessage(c, w, e, y.bytes).e;
      In(f, Client, WaitServerHelloDone, Client4(x)) && PlainSlot(f.s0) && f.sent == e.sent
  {
    hide HandshakeHeader, Protect, HandleMessage, MessageSeq, ShortField, BigEndian;
    CarriedPlain(c, w, e, Server, y, HANDSHAKE, KeyHint(x));
    FirstIs(12, 2, BigEndian(|x.hint|, 2) + x.hint);
    FieldReads(12, 2, x.hint, Fatal(DECODE_ERROR));
    InTurn(c, w, Tick(e), 0, KeyHint(x));
  }

  // ---------------------------------------------------------------- 6: the client's flight

  function Client5(x: Session): Handshake
    requires x.Valid()
  {
    var t := [HelloExchanged(x.cr, x.sr), KeyExchanged, Derivation(x), FinishedSent(x.Master(), T4(x), ClientVerify(x), 3)];
    Handshake(x.Master() + (x.cr + x.sr)[48..], true, [], x.K() + 1, 4, T5(x), PSK_CIPHER, 0, false, x.id, t, false, false)
  }

  ghost predicate ClientFlight(c: Config, x: Session, ys: seq<Sent>) {
    && x.Valid() && |ys| == 3 && Plain(c.aes, Client, ys[0], HANDSHAKE, KeyExchange(x))
    && Plain(c.aes, Client, ys[1], CHANGE_CIPHER_SPEC, [1])
    && Secured(c.aes, Client, ys[2], HANDSHAKE, ClientFinished(x), x.Kb())
  }

  lemma ExchangePosted(c: Config, w: World, e: Endpoint, x: Session) returns (y: Sent)
    requires ClientWorld(c, w, x) && e.role == Client && PlainSlot(e.s0) && e.hs == Some(Client4(x).(transcript := T3(x)))
    ensures var r := SendKeyExchangeFlight(c, w, e);
      && r.err >= 0 && PlainSlot(r.e.s0)
      && r.e == e.With(Client4(x).(mseqS := 3, transcript := T4(x), pskId := x.id, trail := Client4(x).trail + [KeyExchanged]))
                 .(s0 := r.e.s0, clock := r.e.clock, sent := e.sent + [y])
      && Plain(c.aes, Client, y, HANDSHAKE, KeyExchange(x))
  {
    hide HandshakeHeader, Protect, BigEndian, SendHandshake, T2, T3;
    assert w.psk(e.clock, Identity(x.hint)) == Given(x.id);
    HandshakePosts(c, w, e.With(e.hs.value.(pskId := x.id)), 16, BigEndian(|x.id|, 2) + x.id, true);
    y := SendKeyExchangeFlight(c, w, e).e.sent[|e.sent|];
  }

  /** Both sides derive the same. */
  lemma SameDerivation(c: Config, w: World, e: Endpoint, x: Session, t: seq<Milestone>)
    requires x.Valid() && c.hash == x.hash && (forall n :: w.psk(n, Key(x.id)) == Given(x.key))
    requires PlainSlot(e.s0) && e.hs.Some? && e.hs.value.tmp == x.cr + x.sr && e.hs.value.cipher == PSK_CIPHER
    requires e.hs.value.pskId == x.id && e.hs.value.trail == t && !e.hs.value.wrapped
    ensures var r := CalculateKeyBlock(c, w, e);
      && r.err == 0 && SecuredSlot(r.e.s1, x.Kb())
      && r.e == e.With(e.hs.value.(tmp := x.Master() + (x.cr + x.sr)[48..], trail := t + [Derivation(x)]))
                 .(s1 := r.e.s1, made := e.made + 1)
  {
    hide MasterSecret, KeyBlockOf, PreMaster;
    assert (x.cr + x.sr)[..32] == x.cr && (x.cr + x.sr)[32..] == x.sr;
    KeyBlockRoom(x.key);
    assert w.psk(e.clock, Key(x.id)) == Given(x.key);
    assert PreMasterSecret(w, e, e.hs.value) == Secret(PreMaster(x.key));
  }

  lemma ChangePosted(c: Config, w: World, e: Endpoint) returns (y: Sent)
    requires Perfect(w) && PlainSlot(e.s0)
    ensures var r := Send(c, w, e, CHANGE_CIPHER_SPEC, [1]);
      r.err >= 0 && PlainSlot(r.e.s0) && r.e == e.(s0 := r.e.s0, clock := r.e.clock, sent := e.sent + [y])
      && Plain(c.aes, e.role, y, CHANGE_CIPHER_SPEC, [1])
  {
    hide Protect, Send;
    SendPosts(c, w, e, CHANGE_CIPHER_SPEC, [1]);
    y := Send(c, w, e, CHANGE_CIPHER_SPEC, [1]).e.sent[|e.sent|];
  }

  /** One's Finished, in epoch 1, over transcript `t`. */
  lemma FinishedPosted(c: Config, w: World, e: Endpoint, x: Session, t: seq<byte>) returns (y: Sent)
    requires Perfect(w) && x.Valid() && c.hash == x.hash && SecuredSlot(e.s0, x.Kb()) && e.hs.Some?
    requires e.hs.value.tmp[..48] == x.Master() && e.hs.value.transcript == t
    ensures var r := SendFinished(c, w, e); var h := e.hs.value;
      var m := Msg(20, h.mseqS, VerifyData(x.hash, x.Master(), e.role, t));
      && r.err >= 0 && SecuredSlot(r.e.s0, x.Kb()) && Secured(c.aes, e.role, y, HANDSHAKE, m, x.Kb())
      && r.e == e.With(h.(mseqS := Next(h.mseqS), transcript := t + m, trail := h.trail + [FinishedSent(x.Master(), t, VerifyData(x.hash, x.Master(), e.role, t), h.mseqS)]))
                 .(s0 := r.e.s0, clock := r.e.clock, sent := e.sent + [y])
  {
    hide HandshakeHeader, Protect, SendHandshake, VerifyData, MasterSecret, KeyBlockOf;
    var h := e.hs.value;
    var e1 := e.With(h.(trail := h.trail + [FinishedSent(x.Master(), t, VerifyData(x.hash, x.Master(), e.role, t), h.mseqS)]));
    HandshakePosts(c, w, e1, 20, VerifyData(x.hash, x.Master(), e.role, t), true);
    y := SendFinished(c, w, e).e.sent[|e.sent|];
  }

  /** The client's flight, up to the endpoint that its Finished leaves. */
  lemma DoneChecked(c: Config, w: World, e: Endpoint, x: Session) returns (ys: seq<Sent>)
    requires ClientWorld(c, w, x) && In(e, Client, WaitServerHelloDone, Client4(x)) && PlainSlot(e.s0)
    ensures var r := CheckServerHelloDone(c, w, e, HelloDone(x));
      && r.err >= 0 && In(r.e, Client, WaitServerHelloDone, Client5(x).(mseqR := x.K()))
      && SecuredSlot(r.e.s0, x.Kb()) && PlainSlot(r.e.s1)
      && r.e.sent == e.sent + ys && ClientFlight(c, x, ys)
  {
    hide HandshakeHeader, Protect, SendKeyExchangeFlight, CalculateKeyBlock, SendFinished, Send, T2, MasterSecret,
      KeyBlockOf, VerifyData, Plain, Secured, SecuredSlot, Derivation;
    var e0 := Absorbed(e, HelloDone(x));
    var y1 := ExchangePosted(c, w, e0, x);
    var r1 := SendKeyExchangeFlight(c, w, e0);
    SameDerivation(c, w, r1.e, x, Client4(x).trail + [KeyExchanged]);
    var r2 := CalculateKeyBlock(c, w, r1.e);
    var y2 := ChangePosted(c, w, r2.e);
    var e3 := Switched(Send(c, w, r2.e, CHANGE_CIPHER_SPEC, [1]).e);
    var y3 := FinishedPosted(c, w, e3, x, T4(x));
    ys := [y1, y2, y3];
    assert e.sent + ys == e.sent + [y1] + [y2] + [y3];
    assert Client5(x).trail == Client4(x).trail + [KeyExchanged] + [Derivation(x)] + [FinishedSent(x.Master(), T4(x), ClientVerify(x), 3)];
  }

  lemma DoneHandled(c: Config, w: World, e: Endpoint, x: Session) returns (ys: seq<Sent>)
    requires ClientWorld(c, w, x) && In(e, Client, WaitServerHelloDone, Client4(x)) && PlainSlot(e.s0)
    ensures var r := OnServerHelloDone(c, w, e, HelloDone(x));
      && r.err >= 0 && In(r.e, Client, WaitChangeCipherSpec, Client5(x)) && SecuredSlot(r.e.s0, x.Kb()) && PlainSlot(r.e.s1)
      && r.e.sent == e.sent + ys && ClientFlight(c, x, ys)
  {
    hide CheckServerHelloDone, SecuredSlot, PlainSlot, ClientFlight, ClientWorld, Client4, HelloDone, T5, T4, Derivation;
    ys := DoneChecked(c, w, e, x);
  }

  lemma DoneDelivered(c: Config, w: World, e: Endpoint, y: Sent, x: Session) returns (ys: seq<Sent>)
    requires ClientWorld(c, w, x) && In(e, Client, WaitServerHelloDone, Client4(x)) && PlainSlot(e.s0)
    requires Plain(c.aes, Server, y, HANDSHAKE, HelloDone(x))
    ensures var f := HandleMessage(c, w, e, y.bytes).e;
      && In(f, Client, WaitChangeCipherSpec, Client5(x)) && SecuredSlot(f.s0, x.Kb()) && PlainSlot(f.s1)
      && f.sent == e.sent + ys && ClientFlight(c, x, ys)
  {
    hide HandshakeHeader, Protect, HandleMessage, MessageSeq, HandleHandshakeMsg, OnServerHelloDone, Client5, ClientFlight,
      ClientWorld, SecuredSlot, T2;
    CarriedPlain(c, w, e, Server, y, HANDSHAKE, HelloDone(x));
    FirstIs(14, x.K(), []);
    ys := DoneHandled(c, w, Tick(Tick(e)), x);
    DoneDispatched(c, w, Tick(e), HelloDone(x));
    InTurn(c, w, Tick(e), 0, HelloDone(x));
  }

  lemma DoneDispatched(c: Config, w: World, e: Endpoint, m: Message)
    requires e.known && e.hs.Some? && m[0] == 14
    ensures HandleHandshakeMsg(c, w, e, m) == OnServerHelloDone(c, w, Tick(e), m)
  {
    hide OnServerHelloDone;
  }

  // ---------------------------------------------------------------- 7: the server reads it and answers

  function Server2(x: Session): Handshake
    requires x.Valid()
  {
    Server1(x).(mseqR := 3, transcript := T4(x), pskId := x.id, trail := [HelloExchanged(x.cr, x.sr), KeyExchanged])
  }

  function Server3(x: Session): Handshake
    requires x.Valid()
  {
    Server2(x).(tmp := x.Master() + (x.cr + x.sr)[48..],
                trail := [HelloExchanged(x.cr, x.sr), KeyExchanged, Derivation(x), CipherChanged])
  }

  /** The whole way of the server. */
  function ServerTrail(x: Session): seq<Milestone>
    requires x.Valid()
  {
    [HelloExchanged(x.cr, x.sr), KeyExchanged, Derivation(x), CipherChanged,
     FinishedAccepted(x.Master(), T4(x), ClientVerify(x), 3), FinishedSent(x.Master(), T5(x), ServerVerify(x), x.K() + 1)]
  }

  /** The whole way of the client. */
  function ClientTrail(x: Session): seq<Milestone>
    requires x.Valid()
  {
    [HelloExchanged(x.cr, x.sr), KeyExchanged, Derivation(x), FinishedSent(x.Master(), T4(x), ClientVerify(x), 3), CipherChanged,
     FinishedAccepted(x.Master(), T5(x), ServerVerify(x), x.K() + 1)]
  }

  ghost predicate ServerAnswer(c: Config, x: Session, ys: seq<Sent>) {
    && x.Valid() && |ys| == 2 && Plain(c.aes, Server, ys[0], CHANGE_CIPHER_SPEC, [1])
    && Secured(c.aes, Server, ys[1], HANDSHAKE, ServerFinished(x), x.Kb())
  }

  lemma ExchangeDelivered(c: Config, w: World, e: Endpoint, y: Sent, x: Session)
    requires ServerWorld(c, w, x) && In(e, Server, WaitClientKeyExchange, Server1(x)) && PlainSlot(e.s0) && e.s1.None?
    requires Plain(c.aes, Client, y, HANDSHAKE, KeyExchange(x))
    ensures var f := HandleMessage(c, w, e, y.bytes).e;
      In(f, Server, WaitChangeCipherSpec, Server2(x)) && PlainSlot(f.s0) && f.s1.None? && f.sent == e.sent
  {
    hide HandshakeHeader, Protect, HandleMessage, MessageSeq, ShortField, BigEndian, T3, ServerWorld;
    CarriedPlain(c, w, e, Client, y, HANDSHAKE, KeyExchange(x));
    FirstIs(16, 2, BigEndian(|x.id|, 2) + x.id);
    FieldReads(16, 2, x.id, Fatal(HANDSHAKE_FAILURE));
    assert [HelloExchanged(x.cr, x.sr)] + [KeyExchanged] == [HelloExchanged(x.cr, x.sr), KeyExchanged];
    InTurn(c, w, Tick(e), 0, KeyExchange(x));
  }

  lemma ChangeDeliveredToServer(c: Config, w: World, e: Endpoint, y: Sent, x: Session)
    requires ServerWorld(c, w, x) && In(e, Server, WaitChangeCipherSpec, Server2(x)) && PlainSlot(e.s0)
    requires Plain(c.aes, Client, y, CHANGE_CIPHER_SPEC, [1])
    ensures var f := HandleMessage(c, w, e, y.bytes).e;
      In(f, Server, WaitFinished, Server3(x)) && PlainSlot(f.s0) && SecuredSlot(f.s1, x.Kb()) && f.sent == e.sent
  {
    hide Protect, HandleMessage, HandleCcs, Server2, Server3, ServerWorld, PlainSlot, SecuredSlot, MasterSecret, KeyBlockOf;
    assert PlainSlot(Tick(e).s0);
    CarriedPlain(c, w, e, Client, y, CHANGE_CIPHER_SPEC, [1]);
    ChangeHandledByServer(c, w, Tick(e), x);
  }

  lemma ChangeHandledByServer(c: Config, w: World, e: Endpoint, x: Session)
    requires ServerWorld(c, w, x) && In(e, Server, WaitChangeCipherSpec, Server2(x)) && PlainSlot(e.s0)
    ensures var r := HandleCcs(c, w, e, [1]);
      r.err == 0 && In(r.e, Server, WaitFinished, Server3(x)) && PlainSlot(r.e.s0) && SecuredSlot(r.e.s1, x.Kb()) && r.e.sent == e.sent
  {
    hide CalculateKeyBlock, T4, MasterSecret, KeyBlockOf, SecuredSlot, Derivation;
    SameDerivation(c, w, e, x, Server2(x).trail);
    assert Server3(x).trail == Server2(x).trail + [Derivation(x)] + [CipherChanged];
  }

  /** The octets of a Finished are what the other side computes. */
  lemma FinishedMatches(c: Config, e: Endpoint, from: Role, mseq: uint16, x: Session, t: seq<byte>)
    requires x.Valid() && c.hash == x.hash && e.hs.Some? && e.role == Other(from)
    requires e.hs.value.tmp[..48] == x.Master() && e.hs.value.transcript == t
    ensures var v := VerifyData(x.hash, x.Master(), from, t); var m := Msg(20, mseq, v);
      CheckFinished(c, e, m) == 0 && |m| == 24 && m[12..24] == v && m[0] == 20 && MessageSeq(m) == mseq
  {
    hide VerifyData, HandshakeHeader, MasterSecret, MessageSeq;
    var v := VerifyData(x.hash, x.Master(), from, t);
    FirstIs(20, mseq, v);
    assert Msg(20, mseq, v)[12..24] == Msg(20, mseq, v)[12..];
  }

  lemma FinishedHandledByServer(c: Config, w: World, e: Endpoint, x: Session) returns (ys: seq<Sent>)
    requires ServerWorld(c, w, x) && In(e, Server, WaitFinished, Server3(x)) && PlainSlot(e.s0) && SecuredSlot(e.s1, x.Kb())
    ensures var r := OnFinished(c, w, e, ClientFinished(x));
      && r.err >= 0 && r.e.known && r.e.role == Server && r.e.state == Connected && r.e.hs.None? && Unscathed(r.e)
      && r.e.done == ServerTrail(x) && SecuredSlot(r.e.s0, x.Kb()) && PlainSlot(r.e.s1) && r.e.sent == e.sent + ys && ServerAnswer(c, x, ys)
  {
    hide HandshakeHeader, Protect, CheckFinished, SendFinished, Send, VerifyData, MasterSecret, KeyBlockOf, T4,
      ServerWorld, MessageSeq;
    PerfectServer(c, w, x);
    FinishedMatches(c, e, Client, 3, x, T4(x));
    var m, h := ClientFinished(x), e.hs.value;
    var e1 := Absorbed(e.With(h.(trail := h.trail + [FinishedAccepted(h.tmp[..48], h.transcript, m[12..24], h.mseqR)])), m);
    var y1 := ChangePosted(c, w, e1);
    var e2 := Switched(Send(c, w, e1, CHANGE_CIPHER_SPEC, [1]).e);
    var y2 := FinishedPosted(c, w, e2, x, T5(x));
    ys := [y1, y2];
    assert e.sent + ys == e.sent + [y1] + [y2];
    assert ServerTrail(x) == e1.hs.value.trail + [FinishedSent(x.Master(), T5(x), ServerVerify(x), x.K() + 1)];
  }

  lemma PerfectServer(c: Config, w: World, x: Session)
    requires ServerWorld(c, w, x)
    ensures Perfect(w) && x.Valid() && c.hash == x.hash
  {
  }

  lemma FinishedDeliveredToServer(c: Config, w: World, e: Endpoint, y: Sent, x: Session) returns (ys: seq<Sent>)
    requires ServerWorld(c, w, x) && In(e, Server, WaitFinished, Server3(x)) && PlainSlot(e.s0) && SecuredSlot(e.s1, x.Kb())
    requires Secured(c.aes, Client, y, HANDSHAKE, ClientFinished(x), x.Kb())
    ensures var f := HandleMessage(c, w, e, y.bytes).e;
      && f.known && f.role == Server && f.state == Connected && f.hs.None? && Unscathed(f)
      && f.done == ServerTrail(x) && SecuredSlot(f.s0, x.Kb()) && PlainSlot(f.s1) && f.sent == e.sent + ys && ServerAnswer(c, x, ys)
  {
    hide HandshakeHeader, Protect, HandleMessage, OnFinished, VerifyData, MasterSecret, KeyBlockOf, T4, ServerWorld,
      MessageSeq, ServerAnswer;
    PerfectServer(c, w, x);
    CarriedSecured(c, w, e, Client, y, HANDSHAKE, ClientFinished(x), x.Kb());
    var e1 := FreedOther(Tick(e));
    assert e1 == Tick(e);
    FinishedMatches(c, e1, Client, 3, x, T4(x));
    ys := FinishedHandledByServer(c, w, Tick(e1), x);
    InTurn(c, w, e1, 1, ClientFinished(x));
  }

  // ---------------------------------------------------------------- 8: the client is done, too

  lemma ChangeDeliveredToClient(c: Config, w: World, e: Endpoint, y: Sent, x: Session)
    requires ClientWorld(c, w, x) && In(e, Client, WaitChangeCipherSpec, Client5(x)) && SecuredSlot(e.s0, x.Kb()) && PlainSlot(e.s1)
    requires Plain(c.aes, Server, y, CHANGE_CIPHER_SPEC, [1])
    ensures var f := HandleMessage(c, w, e, y.bytes).e;
      In(f, Client, WaitFinished, Client5(x).(trail := Client5(x).trail + [CipherChanged]))
      && SecuredSlot(f.s0, x.Kb()) && PlainSlot(f.s1) && f.sent == e.sent
  {
    hide Protect, HandleMessage, Client5, ClientWorld;
    CarriedPlain(c, w, e, Server, y, CHANGE_CIPHER_SPEC, [1]);
  }

  lemma FinishedDeliveredToClient(c: Config, w: World, e: Endpoint, y: Sent, x: Session)
    requires ClientWorld(c, w, x) && In(e, Client, WaitFinished, Client5(x).(trail := Client5(x).trail + [CipherChanged]))
    requires SecuredSlot(e.s0, x.Kb()) && PlainSlot(e.s1)
    requires Secured(c.aes, Server, y, HANDSHAKE, ServerFinished(x), x.Kb())
    ensures var f := HandleMessage(c, w, e, y.bytes).e;
      && f.known && f.role == Client && f.state == Connected && f.hs.None? && Unscathed(f) && f.done == ClientTrail(x)
      && SecuredSlot(f.s0, x.Kb()) && f.s1.None?
  {
    hide HandshakeHeader, Protect, HandleMessage, HandlePayload, HandleHandshakeMsg, VerifyData, MasterSecret, KeyBlockOf, T5,
      ClientWorld, MessageSeq, Client5, ClientTrail, FreedOther, Secured, SecuredSlot, Unscathed;
    WorldFacts(c, w, x);
    CarriedSecured(c, w, e, Server, y, HANDSHAKE, ServerFinished(x), x.Kb());
    var e1 := FreedOther(Tick(e));
    OnlySlotOne(e, x.Kb());
    FirstIs(20, x.K() + 1, ServerVerify(x));
    FinishedHandledByClient(c, w, e1, x);
    NumberFive(x);
    InTurn(c, w, e1, 1, ServerFinished(x));
  }

  lemma NumberFive(x: Session)
    requires x.Valid()
    ensures Client5(x).mseqR == x.K() + 1 && Client5(x).queue == []
  {
    hide T5, T4, VerifyData, MasterSecret;
  }

  /** A record read in epoch 1 frees the slot of epoch 0. */
  lemma OnlySlotOne(e: Endpoint, kb: KeyBlock)
    requires SecuredSlot(e.s0, kb) && PlainSlot(e.s1)
    ensures FreedOther(Tick(e)) == Tick(e).(s1 := None) && e.s0.Some? && e.s0.value.epoch == 1
  {
  }

  lemma FinishedHandledByClient(c: Config, w: World, e: Endpoint, x: Session)
    requires x.Valid() && c.hash == x.hash
    requires In(e, Client, WaitFinished, Client5(x).(trail := Client5(x).trail + [CipherChanged]))
    ensures var r := HandleHandshakeMsg(c, w, e, ServerFinished(x));
      && r.err >= 0 && r.e.known && r.e.role == Client && r.e.state == Connected && r.e.hs.None? && Unscathed(r.e)
      && r.e.done == ClientTrail(x) && r.e.s0 == e.s0 && r.e.s1 == e.s1
  {
    hide HandshakeHeader, CheckFinished, VerifyData, MasterSecret, KeyBlockOf, T5, T4, MessageSeq, Derivation;
    var m := ServerFinished(x);
    FinishedMatches(c, Tick(e), Server, x.K() + 1, x, T5(x));
    assert ClientTrail(x) == Client5(x).trail + [CipherChanged]
      + [FinishedAccepted(x.Master(), T5(x), ServerVerify(x), x.K() + 1)];
  }

  lemma WorldFacts(c: Config, w: World, x: Session)
    requires ClientWorld(c, w, x)
    ensures x.Valid() && c.hash == x.hash
  {
  }

  // ---------------------------------------------------------------- the whole exchange

  /** Records arriving one after the other, each in a datagram of its own. */
  function Deliver(c: Config, w: World, e: Endpoint, ys: seq<Sent>): Endpoint
    decreases |ys|
  {
    if ys == [] then e else Deliver(c, w, HandleMessage(c, w, e, ys[0].bytes).e, ys[1..])
  }

  /** Both endpoints, and how much of what each has sent the other has read. */
  datatype Pair = Pair(client: Endpoint, server: Endpoint, readByServer: nat, readByClient: nat)

  function Unread(sent: seq<Sent>, n: nat): seq<Sent> {
    if n <= |sent| then sent[n..] else []
  }

  /** The server reads what the client has sent since. */
  function ServerReads(c: Config, w: World, p: Pair): Pair {
    p.(server := Deliver(c, w, p.server, Unread(p.client.sent, p.readByServer)), readByServer := |p.client.sent|)
  }

  function ClientReads(c: Config, w: World, p: Pair): Pair {
    p.(client := Deliver(c, w, p.client, Unread(p.server.sent, p.readByClient)), readByClient := |p.server.sent|)
  }

  /** One turn of each. */
  function Round(cc: Config, cw: World, sc: Config, sw: World, p: Pair): Pair {
    ClientReads(cc, cw, ServerReads(sc, sw, p))
  }

  /** dtls_connect. */
  function Start(c: Config, w: World, client: Endpoint, server: Endpoint): Pair {
    Pair(Connect(c, w, client).e, server, |client.sent|, |server.sent|)
  }

  lemma DeliverOne(c: Config, w: World, e: Endpoint, y: Sent)
    ensures Deliver(c, w, e, [y]) == HandleMessage(c, w, e, y.bytes).e
  {
    hide HandleMessage;
    assert [y][1..] == [];
    assert Deliver(c, w, HandleMessage(c, w, e, y.bytes).e, []) == HandleMessage(c, w, e, y.bytes).e;
  }

  lemma DeliverFirst(c: Config, w: World, e: Endpoint, ys: seq<Sent>)
    requires ys != []
    ensures Deliver(c, w, e, ys) == Deliver(c, w, HandleMessage(c, w, e, ys[0].bytes).e, ys[1..])
  {
    hide HandleMessage;
  }

  lemma Suffix(was: seq<Sent>, now: seq<Sent>, ys: seq<Sent>)
    requires now == was + ys
    ensures Unread(now, |was|) == ys
  {
  }

  // ---------------------------------------------------------------- flight by flight

  /** Flights 1 to 3: the cookie. */
  lemma CookieFlights(cc: Config, cw: World, sc: Config, sw: World, client: Endpoint, server: Endpoint, x: Session) returns (z: Sent)
    requires ClientWorld(cc, cw, x) && ServerWorld(sc, sw, x) && cc.aes == sc.aes
    requires Stranger(client) && Stranger(server) && x.cr == cw.random(client.clock)
    ensures var p := Round(cc, cw, sc, sw, Start(cc, cw, client, server));
      && p.readByClient == |p.server.sent| && In(p.client, Client, ClientHelloSent, Client2(x)) && PlainSlot(p.client.s0)
      && Stranger(p.server) && p.server.clock == server.clock + 3
      && Unread(p.client.sent, p.readByServer) == [z] && Plain(cc.aes, Client, z, HANDSHAKE, Hello2(x))
  {
    hide Connect, HandleMessage, Plain, ClientWorld, ServerWorld, Client1, Client2, Hello1, Hello2, VerifyRequest,
      PlainSlot, Deliver, Unread;
    assert x.Valid() by { WorldFacts(cc, cw, x); }
    var y := Connecting(cc, cw, client, x);
    var c1 := Connect(cc, cw, client).e;
    Suffix(client.sent, c1.sent, [y]);
    DeliverOne(sc, sw, server, y);
    var y2 := Challenging(sc, sw, server, y, x);
    var s1 := HandleMessage(sc, sw, server, y.bytes).e;
    Suffix(server.sent, s1.sent, [y2]);
    DeliverOne(cc, cw, c1, y2);
    z := Answering(cc, cw, c1, y2, x);
    Suffix(c1.sent, HandleMessage(cc, cw, c1, y2.bytes).e.sent, [z]);
  }

  /** The client reads the server's two or three messages and answers with three records. */
  lemma ReadServerFlight(c: Config, w: World, e: Endpoint, ys: seq<Sent>, x: Session) returns (zs: seq<Sent>)
    requires ClientWorld(c, w, x) && In(e, Client, ClientHelloSent, Client2(x)) && PlainSlot(e.s0) && ServerFlight(c, x, ys)
    ensures var f := Deliver(c, w, e, ys);
      && In(f, Client, WaitChangeCipherSpec, Client5(x)) && SecuredSlot(f.s0, x.Kb()) && PlainSlot(f.s1)
      && f.sent == e.sent + zs && ClientFlight(c, x, zs)
  {
    hide HandleMessage, Plain, ClientWorld, Client3, Client5, ServerHello, KeyHint, HelloDone, PlainSlot, SecuredSlot,
      Deliver, ClientFlight, T2;
    DeliverFirst(c, w, e, ys);
    HelloDelivered(c, w, e, ys[0], x);
    var e1 := HandleMessage(c, w, e, ys[0].bytes).e;
    if x.hint == [] {
      WorldFacts(c, w, x);
      NoHint(x);
      DeliverOne(c, w, e1, ys[1]);
      assert ys[1..] == [ys[1]];
      zs := DoneDelivered(c, w, e1, ys[1], x);
    } else {
      DeliverFirst(c, w, e1, ys[1..]);
      HintDelivered(c, w, e1, ys[1], x);
      var e2 := HandleMessage(c, w, e1, ys[1].bytes).e;
      assert ys[1..][1..] == [ys[2]];
      DeliverOne(c, w, e2, ys[2]);
      zs := DoneDelivered(c, w, e2, ys[2], x);
    }
  }

  lemma NoHint(x: Session)
    requires x.Valid() && x.hint == []
    ensures Client3(x) == Client4(x)
  {
  }

  /** The server reads the client's three records, is connected, and answers with two. */
  lemma ReadClientFlight(c: Config, w: World, e: Endpoint, ys: seq<Sent>, x: Session) returns (zs: seq<Sent>)
    requires ServerWorld(c, w, x) && In(e, Server, WaitClientKeyExchange, Server1(x)) && PlainSlot(e.s0) && e.s1.None?
    requires ClientFlight(c, x, ys)
    ensures var f := Deliver(c, w, e, ys);
      && f.known && f.role == Server && f.state == Connected && f.hs.None? && Unscathed(f) && f.done == ServerTrail(x)
      && SecuredSlot(f.s0, x.Kb()) && PlainSlot(f.s1) && f.sent == e.sent + zs && ServerAnswer(c, x, zs)
  {
    hide HandleMessage, Plain, Secured, ServerWorld, Server1, Server2, Server3, KeyExchange, PlainSlot, SecuredSlot,
      Deliver, ServerAnswer, ServerTrail;
    DeliverFirst(c, w, e, ys);
    ExchangeDelivered(c, w, e, ys[0], x);
    var e1 := HandleMessage(c, w, e, ys[0].bytes).e;
    DeliverFirst(c, w, e1, ys[1..]);
    ChangeDeliveredToServer(c, w, e1, ys[1], x);
    var e2 := HandleMessage(c, w, e1, ys[1].bytes).e;
    assert ys[1..][1..] == [ys[2]];
    DeliverOne(c, w, e2, ys[2]);
    zs := FinishedDeliveredToServer(c, w, e2, ys[2], x);
  }

  /** The client reads the server's two records and is connected. */
  lemma ReadServerAnswer(c: Config, w: World, e: Endpoint, ys: seq<Sent>, x: Session)
    requires ClientWorld(c, w, x) && In(e, Client, WaitChangeCipherSpec, Client5(x)) && SecuredSlot(e.s0, x.Kb()) && PlainSlot(e.s1)
    requires ServerAnswer(c, x, ys)
    ensures var f := Deliver(c, w, e, ys);
      && f.known && f.role == Client && f.state == Connected && f.hs.None? && Unscathed(f) && f.done == ClientTrail(x)
      && SecuredSlot(f.s0, x.Kb()) && f.s1.None?
  {
    hide HandleMessage, Plain, Secured, ClientWorld, Client5, ServerFinished, PlainSlot, SecuredSlot, Deliver,
      ClientTrail;
    DeliverFirst(c, w, e, ys);
    ChangeDeliveredToClient(c, w, e, ys[0], x);
    var e1 := HandleMessage(c, w, e, ys[0].bytes).e;
    assert ys[1..] == [ys[1]];
    DeliverOne(c, w, e1, ys[1]);
    FinishedDeliveredToClient(c, w, e1, ys[1], x);
  }

  /** Flights 4 and 5: the server's hello messages, the client's keys. */
  lemma KeyFlights(cc: Config, cw: World, sc: Config, sw: World, p: Pair, y: Sent, x: Session) returns (zs: seq<Sent>)
    requires ClientWorld(cc, cw, x) && ServerWorld(sc, sw, x) && cc.aes == sc.aes && x.sr == sw.random(p.server.clock + 2)
    requires p.readByClient == |p.server.sent| && In(p.client, Client, ClientHelloSent, Client2(x)) && PlainSlot(p.client.s0)
    requires Stranger(p.server) && Unread(p.client.sent, p.readByServer) == [y] && Plain(cc.aes, Client, y, HANDSHAKE, Hello2(x))
    ensures var q := Round(cc, cw, sc, sw, p);
      && q.readByClient == |q.server.sent|
      && In(q.client, Client, WaitChangeCipherSpec, Client5(x)) && SecuredSlot(q.client.s0, x.Kb()) && PlainSlot(q.client.s1)
      && In(q.server, Server, WaitClientKeyExchange, Server1(x)) && PlainSlot(q.server.s0) && q.server.s1.None?
      && Unread(q.client.sent, q.readByServer) == zs && ClientFlight(cc, x, zs)
  {
    hide HandleMessage, Plain, ClientWorld, ServerWorld, Client2, Client5, Server1, Hello2, PlainSlot, SecuredSlot,
      Deliver, Unread,
      ClientFlight, ServerFlight;
    WorldFacts(cc, cw, x);
    DeliverOne(sc, sw, p.server, y);
    var ys := Welcoming(sc, sw, p.server, y, x);
    var s := HandleMessage(sc, sw, p.server, y.bytes).e;
    Suffix(p.server.sent, s.sent, ys);
    FlightTo(cc, sc, x, ys);
    zs := ReadServerFlight(cc, cw, p.client, ys, x);
    Suffix(p.client.sent, Deliver(cc, cw, p.client, ys).sent, zs);
  }

  lemma FlightTo(cc: Config, sc: Config, x: Session, ys: seq<Sent>)
    requires cc.aes == sc.aes
    ensures ServerFlight(sc, x, ys) == ServerFlight(cc, x, ys) && ServerAnswer(sc, x, ys) == ServerAnswer(cc, x, ys)
    ensures ClientFlight(sc, x, ys) == ClientFlight(cc, x, ys)
  {
    hide Plain, Secured;
    forall z, k: byte, m: seq<byte> ensures Plain(cc.aes, Server, z, k, m) == Plain(sc.aes, Server, z, k, m) {}
  }

  /** Flights 6 and 7: each side's Finished reaches the other. */
  lemma FinishedFlights(cc: Config, cw: World, sc: Config, sw: World, p: Pair, ys: seq<Sent>, x: Session)
    requires ClientWorld(cc, cw, x) && ServerWorld(sc, sw, x) && cc.aes == sc.aes
    requires p.readByClient == |p.server.sent|
    requires In(p.client, Client, WaitChangeCipherSpec, Client5(x)) && SecuredSlot(p.client.s0, x.Kb()) && PlainSlot(p.client.s1)
    requires In(p.server, Server, WaitClientKeyExchange, Server1(x)) && PlainSlot(p.server.s0) && p.server.s1.None?
    requires Unread(p.client.sent, p.readByServer) == ys && ClientFlight(cc, x, ys)
    ensures var q := Round(cc, cw, sc, sw, p);
      && q.client.known && q.client.role == Client && q.client.state == Connected && q.client.hs.None? && Unscathed(q.client)
      && q.client.done == ClientTrail(x) && SecuredSlot(q.client.s0, x.Kb()) && q.client.s1.None?
      && q.server.known && q.server.role == Server && q.server.state == Connected && q.server.hs.None? && Unscathed(q.server)
      && q.server.done == ServerTrail(x) && SecuredSlot(q.server.s0, x.Kb()) && PlainSlot(q.server.s1)
  {
    hide HandleMessage, Plain, ClientWorld, ServerWorld, Client5, Server1, PlainSlot, SecuredSlot, Deliver, Unread,
      ClientFlight, ServerAnswer, ClientTrail, ServerTrail;
    FlightTo(cc, sc, x, ys);
    var zs := ReadClientFlight(sc, sw, p.server, ys, x);
    Suffix(p.server.sent, Deliver(sc, sw, p.server, ys).sent, zs);
    FlightTo(cc, sc, x, zs);
    ReadServerAnswer(cc, cw, p.client, zs, x);
  }

  // ---------------------------------------------------------------- completeness

  /** The header of a short message: type, length, number, no fragment offset, and the length again. */
  function Head(kind: byte, mseq: byte, n: byte): seq<byte> {
    [kind, 0, 0, n, 0, mseq, 0, 0, 0, 0, 0, n]
  }

  /** A message, numbered 2, of nothing but a hint or an identity with its length. */
  function Labelled(kind: byte, s: Short): seq<byte> {
    Head(kind, 2, |s| + 2) + ([0, |s|] + s)
  }

  function HelloOctets(cr: Random, cookie: seq<byte>): seq<byte> {
    Head(1, 1, 58) + ([254, 253] + cr + [0, 16] + cookie + [0, 2, 0xc0, 0xa8, 1, 0])
  }

  function AnswerOctets(sr: Random): seq<byte> {
    Head(2, 1, 38) + ([254, 253] + sr + [0, 0xc0, 0xa8, 0])
  }

  /**
   * The messages up to the client's Finished, as the PRF of both Finished reads them, octet by octet: ClientHello with
   * cookie, ServerHello, ServerKeyExchange if there is a hint, ServerHelloDone, ClientKeyExchange.
   */
  function ExchangeOctets(x: Session): seq<byte>
    requires x.Valid()
  {
    HelloOctets(x.cr, x.cookie) + AnswerOctets(x.sr)
      + (if x.hint == [] then [] else Labelled(12, x.hint))
      + Head(14, if x.hint == [] then 2 else 3, 0)
      + Labelled(16, x.id)
  }

  /** A message with its header in numbers. */
  lemma MsgOctets(kind: byte, mseq: uint16, body: seq<byte>)
    requires |body| < 256 && mseq < 256
    ensures Msg(kind, mseq, body) == Head(kind, mseq, |body|) + body
  {
    hide HandshakeHeader;
    HeaderIs(kind, |body|, mseq);
    SmallOctets(|body|);
    SmallOctets(mseq);
  }

  lemma SmallOctets(n: nat)
    requires n < 256
    ensures n / 0x1_0000 % 256 == 0 && n / 256 % 256 == 0 && n % 256 == n
  {
  }

  lemma ShortOctets(s: Short)
    ensures BigEndian(|s|, 2) == [0, |s|]
  {
    Two(|s|);
  }

  lemma HelloInOctets(x: Session)
    requires x.Valid()
    ensures Hello2(x) == HelloOctets(x.cr, x.cookie)
  {
    hide ClientHelloBody, Msg;
    ClientHelloOctets(true, false, x.cr, x.cookie);
    var body := [254, 253] + x.cr + [0, 16] + x.cookie + [0, 2, 0xc0, 0xa8, 1, 0];
    assert [0, 2, 0xc0, 0xa8] + [1, 0] + [] == [0, 2, 0xc0, 0xa8, 1, 0];
    assert ClientHelloBody(true, false, x.cr, x.cookie) == body;
    MsgOctets(1, 1, body);
  }

  lemma ServerMessagesInOctets(x: Session)
    ensures ServerHello(x) == AnswerOctets(x.sr)
    ensures KeyHint(x) == Labelled(12, x.hint)
    ensures HelloDone(x) == Head(14, if x.hint == [] then 2 else 3, 0)
    ensures KeyExchange(x) == Labelled(16, x.id)
  {
    hide ServerHelloBody, Msg, BigEndian;
    ServerHelloOctets(x.sr);
    ShortOctets(x.hint);
    ShortOctets(x.id);
    MsgOctets(2, 1, [254, 253] + x.sr + [0, 0xc0, 0xa8, 0]);
    MsgOctets(12, 2, [0, |x.hint|] + x.hint);
    MsgOctets(14, x.K(), []);
    MsgOctets(16, 2, [0, |x.id|] + x.id);
  }

  /** Both transcripts. */
  lemma TranscriptsInOctets(x: Session)
    requires x.Valid()
    ensures T4(x) == ExchangeOctets(x)
    ensures T5(x) == ExchangeOctets(x) + (Head(20, 3, 12) + ClientVerify(x))
  {
    hide Hello2, ServerHello, KeyHint, HelloDone, KeyExchange, Msg, ClientVerify, Head, T4, ExchangeOctets;
    ExchangeInOctets(x);
    MsgOctets(20, 3, ClientVerify(x));
  }

  lemma ExchangeInOctets(x: Session)
    requires x.Valid()
    ensures T4(x) == ExchangeOctets(x)
  {
    hide Hello2, ServerHello, KeyHint, HelloDone, KeyExchange, Head, HelloOctets, AnswerOctets, Labelled;
    HelloInOctets(x);
    ServerMessagesInOctets(x);
  }

  /** What the two sides share, octet by octet: cookie, master secret, key block, transcripts, and both Finished. */
  ghost predicate SharedInOctets(sc: Config, x: Session, a: seq<Milestone>, b: seq<Milestone>, kb: KeyBlock)
  {
    && x.Valid() && |a| == |b| == 6 && a[2].KeysDerived?
    && a[3].FinishedSent? && b[4].FinishedAccepted? && b[5].FinishedSent? && a[5].FinishedAccepted?
    && x.cookie == Hmac(sc.hash, sc.secret, sc.session + ([254, 253] + x.cr + [0]) + [0, 2, 0xc0, 0xa8, 1, 0])[..16]
    && IsMaster(sc.hash, [0, |x.key|] + Zeros(|x.key|) + [0, |x.key|] + x.key, x.cr, x.sr, a[2].master)
    && IsKeyBlock(sc.hash, a[2].master, x.cr, x.sr, kb)
    && a[3].transcript == b[4].transcript == ExchangeOctets(x) && a[3].verify == b[4].verify
    && IsVerify(sc.hash, a[2].master, Client, ExchangeOctets(x), a[3].verify)
    && b[5].transcript == a[5].transcript == ExchangeOctets(x) + (Head(20, 3, 12) + a[3].verify)
    && b[5].verify == a[5].verify && IsVerify(sc.hash, a[2].master, Server, b[5].transcript, b[5].verify)
  }

  lemma AgreedInOctets(sc: Config, x: Session)
    requires x.Valid() && x.hash == sc.hash
    requires x.cookie == Cookie(sc.hash, sc.secret, sc.session + (BigEndian(VERSION, 2) + x.cr + [0] + []) + HelloTail(true, false))
    ensures SharedInOctets(sc, x, ClientTrail(x), ServerTrail(x), x.Kb())
  {
    hide T4, T5, ExchangeOctets, MasterSecret, KeyBlockOf, VerifyData, IsMaster, IsKeyBlock, IsVerify, Hmac, PreMaster, BigEndian;
    TranscriptsInOctets(x);
    PreMasterOctets(x.key);
    MasterOctets(x.hash, PreMaster(x.key), x.cr, x.sr);
    KeyBlockOctets(x.hash, x.Master(), x.cr, x.sr);
    VerifyOctets(x.hash, x.Master(), Client, T4(x));
    VerifyOctets(x.hash, x.Master(), Server, T5(x));
    CookieInOctets(x.cr);
  }

  lemma CookieInOctets(cr: Random)
    ensures BigEndian(VERSION, 2) + cr + [0] + [] == [254, 253] + cr + [0] && HelloTail(true, false) == [0, 2, 0xc0, 0xa8, 1, 0]
  {
    hide BigEndian, SuiteOctets;
    Two(VERSION);
    SuiteListOctets(true, false);
    assert [0, 2, 0xc0, 0xa8] + [1, 0] + [] == [0, 2, 0xc0, 0xa8, 1, 0];
  }

  /** What the two sides come to share, given the keys and names their callbacks return. */
  function Agreed(cw: World, sc: Config, sw: World, client: Endpoint, server: Endpoint, key: Short, id: Short, hint: Short): Session {
    var cr := cw.random(client.clock);
    Session(sc.hash, key, id, hint, cr, sw.random(server.clock + 5),
            Cookie(sc.hash, sc.secret, sc.session + (BigEndian(VERSION, 2) + cr + [0] + []) + HelloTail(true, false)))
  }

  /** The answers of the callbacks: `hint` of the server, `id` of the client to that hint, and the key of `id` from both. */
  ghost predicate Share(cw: World, sw: World, key: Short, id: Short, hint: Short) {
    && (forall n :: cw.psk(n, Identity(hint)) == Given(id)) && (forall n :: cw.psk(n, Key(id)) == Given(key))
    && (forall n :: sw.psk(n, Hint) == Given(hint)) && (forall n :: sw.psk(n, Key(id)) == Given(key))
  }

  /**
   * For all random values, cookie secrets, addresses, keys of at most 18 octets, identities and hints: the
   * exchange brings both sides to CONNECTED with the same keys and epoch; each accepted the other's Finished,
   * over the same transcript and under the message number it was sent with.
   */
  lemma HandshakeCompletes(cc: Config, cw: World, sc: Config, sw: World, client: Endpoint, server: Endpoint,
                           key: Short, id: Short, hint: Short)
    requires |key| <= 18 && Share(cw, sw, key, id, hint) && Perfect(cw) && Perfect(sw)
    requires cc.aes == sc.aes && cc.hash == sc.hash && cc.psk && sc.psk && !cc.verifiesKey
    requires Stranger(client) && Stranger(server)
    ensures var p := Round(cc, cw, sc, sw, Round(cc, cw, sc, sw, Round(cc, cw, sc, sw, Start(cc, cw, client, server))));
      var x := Agreed(cw, sc, sw, client, server, key, id, hint);
      && p.client.known && p.client.role == Client && p.client.state == Connected && p.client.hs.None? && Unscathed(p.client)
      && p.server.known && p.server.role == Server && p.server.state == Connected && p.server.hs.None? && Unscathed(p.server)
      && SecuredSlot(p.client.s0, x.Kb()) && SecuredSlot(p.server.s0, x.Kb()) && p.client.s1.None? && PlainSlot(p.server.s1)
      && var a, b := p.client.done, p.server.done;
      && |a| == 6 && |b| == 6 && a[0] == b[0] == HelloExchanged(x.cr, x.sr) && a[2] == b[2] == Derivation(x)
      && a[3].FinishedSent? && b[4].FinishedAccepted? && a[3].transcript == b[4].transcript && a[3].mseq == b[4].mseq
      && b[5].FinishedSent? && a[5].FinishedAccepted? && b[5].transcript == a[5].transcript && b[5].mseq == a[5].mseq
      && SharedInOctets(sc, x, a, b, x.Kb())
  {
    hide ClientWorld, ServerWorld, Client2, Client5, Server1, Hello2, Plain, PlainSlot, SecuredSlot, Round, Start,
      Unread, ClientFlight, Cookie, ClientTrail, ServerTrail, Derivation, SharedInOctets;
    var x := Agreed(cw, sc, sw, client, server, key, id, hint);
    WorldsOf(cc, cw, sc, sw, client, server, key, id, hint);
    WorldFacts(cc, cw, x);
    var z := CookieFlights(cc, cw, sc, sw, client, server, x);
    var p := Round(cc, cw, sc, sw, Start(cc, cw, client, server));
    var zs := KeyFlights(cc, cw, sc, sw, p, z, x);
    var q := Round(cc, cw, sc, sw, p);
    FinishedFlights(cc, cw, sc, sw, q, zs, x);
    TrailsAgree(x);
    AgreedInOctets(sc, x);
  }

  /** What the two trails have in common. */
  lemma TrailsAgree(x: Session)
    requires x.Valid()
    ensures var a, b := ClientTrail(x), ServerTrail(x);
      && |a| == 6 && |b| == 6 && a[0] == b[0] == HelloExchanged(x.cr, x.sr) && a[2] == b[2] == Derivation(x)
      && a[3].FinishedSent? && b[4].FinishedAccepted? && a[3].transcript == b[4].transcript && a[3].mseq == b[4].mseq
      && b[5].FinishedSent? && a[5].FinishedAccepted? && b[5].transcript == a[5].transcript && b[5].mseq == a[5].mseq
  {
    hide T4, T5, VerifyData, Derivation;
  }

  lemma WorldsOf(cc: Config, cw: World, sc: Config, sw: World, client: Endpoint, server: Endpoint, key: Short, id: Short, hint: Short)
    requires |key| <= 18 && Share(cw, sw, key, id, hint) && Perfect(cw) && Perfect(sw)
    requires cc.hash == sc.hash && cc.psk && sc.psk && !cc.verifiesKey
    ensures var x := Agreed(cw, sc, sw, client, server, key, id, hint); ClientWorld(cc, cw, x) && ServerWorld(sc, sw, x)
  {
    hide Cookie, HelloTail, BigEndian, Perfect;
  }
}

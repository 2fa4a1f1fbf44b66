/**
 * Runs from the very beginning, with concrete callbacks, to the states the other modules reason from: both sides
 * connected, and one run for each way in which order, storage or delivery fails.
 */
module Witness {
  import opened Bytes
  import opened CcmSpec
  import opened Prf
  import opened Peers
  import opened RecordSpec
  import opened Datagram
  import opened Reorder
  import opened Hello
  import opened Engine
  import opened Transport
  import opened Order
  import opened TwoParty
  import opened Crossing
  import opened Wrap
  import opened Delivery

  // ---------------------------------------------------------------- an exchange is a pair of runs

  lemma {:induction false} RunAppend(c: Config, w: World, e: Endpoint, us: seq<Event>, vs: seq<Event>)
    ensures RunFrom(c, w, e, us + vs) == RunFrom(c, w, RunFrom(c, w, e, us), vs)
  {
    hide Step;
    if vs == [] {
      assert us + vs == us;
    } else {
      assert (us + vs)[..|us + vs| - 1] == us + vs[..|vs| - 1];
      RunAppend(c, w, e, us, vs[..|vs| - 1]);
    }
  }

  lemma OneEvent(c: Config, w: World, e: Endpoint, v: Event)
    ensures RunFrom(c, w, e, [v]) == Step(c, w, e, v)
  {
    hide Step;
    assert [v][..0] == [] && RunFrom(c, w, e, []) == e;
  }

  lemma {:induction false} DeliverIsRun(c: Config, w: World, e: Endpoint, ys: seq<Sent>) returns (vs: seq<Event>)
    ensures TwoParty.Deliver(c, w, e, ys) == RunFrom(c, w, e, vs)
    decreases |ys|
  {
    hide HandleMessage, RunFrom;
    if ys == [] {
      vs := [];
      assert RunFrom(c, w, e, []) == e by { NoEvents(c, w, e); }
    } else {
      var v := Arrives(ys[0].bytes);
      var rest := DeliverIsRun(c, w, HandleMessage(c, w, e, ys[0].bytes).e, ys[1..]);
      vs := [v] + rest;
      OneEvent(c, w, e, v);
      RunAppend(c, w, e, [v], rest);
    }
  }

  lemma NoEvents(c: Config, w: World, e: Endpoint)
    ensures RunFrom(c, w, e, []) == e
  {
  }

  /** One turn of each side, as events at both. */
  lemma RoundIsRun(cc: Config, cw: World, sc: Config, sw: World, p: Pair) returns (us: seq<Event>, vs: seq<Event>)
    ensures var q := Round(cc, cw, sc, sw, p); q.client == RunFrom(cc, cw, p.client, us) && q.server == RunFrom(sc, sw, p.server, vs)
  {
    hide TwoParty.Deliver, RunFrom;
    vs := DeliverIsRun(sc, sw, p.server, Unread(p.client.sent, p.readByServer));
    var s := TwoParty.Deliver(sc, sw, p.server, Unread(p.client.sent, p.readByServer));
    us := DeliverIsRun(cc, cw, p.client, Unread(s.sent, p.readByClient));
  }

  /** Both sides of the exchange are runs, and end connected under keys for this epoch, in order and with none of its limits met. */
  lemma ConnectedByRuns(cc: Config, cw: World, sc: Config, sw: World, key: Short, id: Short, hint: Short)
    returns (us: seq<Event>, vs: seq<Event>)
    requires |key| <= 18 && Share(cw, sw, key, id, hint) && Perfect(cw) && Perfect(sw)
    requires cc.aes == sc.aes && cc.hash == sc.hash && cc.psk && sc.psk && !cc.verifiesKey
    ensures var x := Agreed(cw, sc, sw, NOBODY, NOBODY, key, id, hint);
      && Established(Run(cc, cw, us), Client, x.Kb()) && Established(Run(sc, sw, vs), Server, x.Kb())
  {
    hide Round, RunFrom, Connect, Agreed;
    var p0 := Start(cc, cw, NOBODY, NOBODY);
    var p1 := Round(cc, cw, sc, sw, p0);
    var p2 := Round(cc, cw, sc, sw, p1);
    HandshakeCompletes(cc, cw, sc, sw, NOBODY, NOBODY, key, id, hint);
    var u1, v1 := RoundIsRun(cc, cw, sc, sw, p0);
    var u2, v2 := RoundIsRun(cc, cw, sc, sw, p1);
    var u3, v3 := RoundIsRun(cc, cw, sc, sw, p2);
    OneEvent(cc, cw, NOBODY, Connects);
    us := FourRuns(cc, cw, [Connects], u1, u2, u3);
    NoEvents(sc, sw, NOBODY);
    vs := FourRuns(sc, sw, [], v1, v2, v3);
  }

  lemma FourRuns(c: Config, w: World, a: seq<Event>, b: seq<Event>, d: seq<Event>, f: seq<Event>) returns (all: seq<Event>)
    ensures Run(c, w, all) == RunFrom(c, w, RunFrom(c, w, RunFrom(c, w, RunFrom(c, w, NOBODY, a), b), d), f)
  {
    hide RunFrom;
    RunAppend(c, w, NOBODY, a, b);
    RunAppend(c, w, NOBODY, a + b, d);
    RunAppend(c, w, NOBODY, a + b + d, f);
    all := a + b + d + f;
  }

  ghost predicate Established(e: Endpoint, role: Role, kb: KeyBlock) {
    e.known && e.role == role && e.state == Connected && e.hs.None? && Unscathed(e) && SecuredSlot(e.s0, kb)
  }

  // ---------------------------------------------------------------- concrete callbacks

  /** Pre-shared keys only, as the shipped build is configured. */
  const HOST: Config := Config(k => (b: Block) => b, s => Zeros(32), [], [], true, false, false)

  /** `write` takes everything; there is one key, the empty one, for the empty identity, and no hint. */
  const FRIENDLY: World :=
    World((n, b) => |b|, n => Zeros(32), (n, q) => Given([]), n => Ecc(0, [], [], [], [], 0), n => (i => 0), n => 0)

  /** The same, but a plain ChangeCipherSpec is refused with a code that is not reported. */
  const STUBBORN: World :=
    World((n, b) => if |b| == 14 then -5 else |b|, n => Zeros(32), (n, q) => Given([]), n => Ecc(0, [], [], [], [], 0),
          n => (i => 0), n => 0)

  lemma FriendlyFacts()
    ensures Tame(FRIENDLY) && Willing(FRIENDLY) && Share(FRIENDLY, FRIENDLY, [], [], [])
  {
  }

  /** A client and a server, connected, with no handshake pending. */
  lemma BothConnected() returns (us: seq<Event>, vs: seq<Event>, kb: KeyBlock)
    ensures Established(Run(HOST, FRIENDLY, us), Client, kb) && InOrder(HOST, Run(HOST, FRIENDLY, us))
    ensures Established(Run(HOST, FRIENDLY, vs), Server, kb) && InOrder(HOST, Run(HOST, FRIENDLY, vs))
  {
    hide RunFrom, Tame, Willing, Share, Agreed, InOrder, Established;
    FriendlyFacts();
    us, vs := ConnectedByRuns(HOST, FRIENDLY, HOST, FRIENDLY, [], [], []);
    kb := Agreed(FRIENDLY, HOST, FRIENDLY, NOBODY, NOBODY, [], [], []).Kb();
    NobodyInOrder(HOST);
    RunOrdered(HOST, FRIENDLY, NOBODY, us);
    RunOrdered(HOST, FRIENDLY, NOBODY, vs);
  }

  lemma NobodyInOrder(c: Config)
    ensures InOrder(c, NOBODY)
  {
  }

  lemma InSettled(e: Endpoint, role: Role, kb: KeyBlock, m: Message)
    requires Established(e, role, kb) && InOrder(HOST, e)
    ensures Settled(HOST, e, m)
  {
    hide InOrder;
  }

  // ---------------------------------------------------------------- a client takes a ClientHello

  /** The session a client serves when it takes a hello. */
  function Served(): Session {
    Session(HOST.hash, [], [], [], Zeros(32), Zeros(32),
            Cookie(HOST.hash, HOST.secret, HOST.session + (BigEndian(VERSION, 2) + Zeros(32) + [0] + []) + HelloTail(true, false)))
  }

  lemma ServedWorld()
    ensures ServerWorld(HOST, FRIENDLY, Served())
  {
    hide Cookie, HelloTail, BigEndian;
    FriendlyFacts();
  }

  lemma ServedValid()
    ensures Served().Valid()
  {
    hide Cookie, HelloTail, BigEndian;
  }

  lemma HelloAcceptable(e: Endpoint)
    requires e.known && e.hs.None?
    ensures Served().Valid() && Acceptable(HOST, FRIENDLY, e, Hello2(Served())) && |Hello2(Served())| <= MAX_BUF && Hello2(Served())[0] == 1
    ensures Chosen(HOST, FRIENDLY, e, Hello2(Served())) == PSK_CIPHER
  {
    hide VerifyPeer, UpdateParameters, ServerWorld, MessageSeq, ClientHelloBody, HandshakeHeader;
    ServedWorld();
    var x := Served();
    CookieChecks(HOST, FRIENDLY, x, FRIENDLY.stale(e.clock));
    FirstIs(1, 1, ClientHelloBody(true, false, x.cr, x.cookie));
    HelloLength(x.cookie, x.cr);
    var a := Admitted(e, Hello2(x));
    assert a.hs == Some(NewHandshake(1, 1).(crossed := e.role == Client));
    Understood(HOST, FRIENDLY, a, x);
  }

  /** A client connects, takes a ClientHello, and is connected again without having derived a key. */
  lemma ClientRunBreaks() returns (vs: seq<Event>)
    ensures var g := Run(HOST, FRIENDLY, vs);
      g.known && g.role == Client && g.state == Connected && !Complete(HOST.hash, Client, g.done)
  {
    hide RunFrom, Tame, Willing, Settled, Acceptable, Complete, Greeted, Hello2, Served, Receiving, InOrder, Chosen;
    FriendlyFacts();
    var us, _, kb := BothConnected();
    var e := Run(HOST, FRIENDLY, us);
    ServedValid();
    var m := Hello2(Served());
    InSettled(e, Client, kb, m);
    ReceivingIs(e);
    HelloAcceptable(Tick(Receiving(e)));
    GreetedIs(HOST, FRIENDLY, e, m);
    var f := Greeted(HOST, FRIENDLY, e, m);
    var ws := ClientLedBack(HOST, FRIENDLY, f);
    vs := Through(HOST, FRIENDLY, us, e, m, ws);
  }

  lemma Through(c: Config, w: World, us: seq<Event>, e: Endpoint, m: Message, ws: seq<Event>) returns (vs: seq<Event>)
    requires e == Run(c, w, us)
    ensures Run(c, w, vs) == RunFrom(c, w, Greeted(c, w, e, m), ws)
  {
    hide RunFrom, Letter, Step;
    var v := Letter(c, e, HANDSHAKE, m);
    OneEvent(c, w, e, v);
    RunAppend(c, w, NOBODY, us, [v]);
    RunAppend(c, w, NOBODY, us + [v], ws);
    vs := us + [v] + ws;
  }

  // ---------------------------------------------------------------- a server takes a HelloRequest

  /** A server connects, takes a HelloRequest, and derives keys from a master secret. */
  lemma ServerRunBreaks() returns (vs: seq<Event>)
    ensures var g := Run(HOST, FRIENDLY, vs); g.known && g.hs.Some? && Misread(g.hs.value.trail)
  {
    hide RunFrom, Tame, Willing, Settled, Misread, Greeted, Receiving, HandshakeHeader, MessageSeq, InOrder;
    FriendlyFacts();
    var _, us, kb := BothConnected();
    var e := Run(HOST, FRIENDLY, us);
    var m := Msg(0, 0, []);
    FirstIs(0, 0, []);
    InSettled(e, Server, kb, m);
    ReceivingIs(e);
    RequestAcceptable(Tick(Receiving(e)), m);
    GreetedIs(HOST, FRIENDLY, e, m);
    var f := Greeted(HOST, FRIENDLY, e, m);
    var ws := ServerMisled(HOST, FRIENDLY, f);
    vs := Through(HOST, FRIENDLY, us, e, m, ws);
  }

  lemma RequestAcceptable(e: Endpoint, m: Message)
    requires m[0] == 0
    ensures Acceptable(HOST, FRIENDLY, e, m)
  {
  }

  // ---------------------------------------------------------------- an early message after dtls_renegotiate

  /** A client connects and renegotiates; the first message to arrive out of order finds no queue. */
  lemma EarlyMessageLost() returns (us: seq<Event>, m: Message)
    ensures var f := Run(HOST, FRIENDLY, us);
      && f.known && f.hs.Some? && !Ready(f) && MessageSeq(m) > f.hs.value.mseqR && |m| <= MAX_BUF
      && Run(HOST, FRIENDLY, us + [Letter(HOST, f, HANDSHAKE, m)]) == Receiving(f) && Queue(Receiving(f)) == []
  {
    hide RunFrom, Tame, Willing, Share, Receiving, InOrder, HandshakeHeader, MessageSeq, HandlePayload, Letter, Renegotiate, Queue, Ready;
    FriendlyFacts();
    var ws, _, kb := BothConnected();
    var e := Run(HOST, FRIENDLY, ws);
    us := ws + [Renegotiates];
    OneEvent(HOST, FRIENDLY, e, Renegotiates);
    RunAppend(HOST, FRIENDLY, NOBODY, ws, [Renegotiates]);
    RenegotiatedWithoutQueue(HOST, FRIENDLY, e);
    RenegotiatedSlot(HOST, FRIENDLY, e);
    var f := Renegotiate(HOST, FRIENDLY, e).e;
    m := Msg(14, 5, []);
    FirstIs(14, 5, []);
    LetterRead(HOST, FRIENDLY, f, HANDSHAKE, m);
    ReceivingIs(f);
    SameQueue(f);
    EarlyIgnored(HOST, FRIENDLY, Receiving(f), f.s0.value.epoch, m);
    var v := Letter(HOST, f, HANDSHAKE, m);
    OneEvent(HOST, FRIENDLY, f, v);
    RunAppend(HOST, FRIENDLY, NOBODY, us, [v]);
  }

  lemma SameQueue(e: Endpoint)
    ensures Queue(Receiving(e)) == Queue(e) && Ready(Receiving(e)) == Ready(e)
  {
  }

  lemma EarlyIgnored(c: Config, w: World, e: Endpoint, epoch: uint16, m: Message)
    requires e.known && e.hs.Some? && !Ready(e) && MessageSeq(m) > e.hs.value.mseqR && RightEpoch(e, epoch)
    ensures HandlePayload(c, w, e, HANDSHAKE, epoch, m).e == e
  {
    hide HandleHandshakeMsg, MessageSeq, DrainQueue;
  }

  lemma RenegotiatedSlot(c: Config, w: World, e: Endpoint)
    requires e.known && e.state == Connected
    ensures var f := Renegotiate(c, w, e).e; SameSlot(e.s0, f.s0) && f.role == e.role && (f.state == Connected || f.state == ClientHelloSent)
  {
    hide SendClientHello, SendHandshake;
  }

  // ---------------------------------------------------------------- the epoch after 65535

  lemma HelloWelcome(e: Endpoint)
    requires e.known && e.hs.None?
    ensures Welcome(HOST, FRIENDLY, e, Hello2(Served()))
  {
    hide Acceptable, Chosen, Hello2, Served, Receiving;
    ReceivingIs(e);
    HelloAcceptable(Tick(Receiving(e)));
  }

  /** Renegotiation after renegotiation, a server reaches every epoch. */
  lemma {:induction false} ServerReaches(epoch: uint16) returns (vs: seq<Event>)
    requires epoch >= 1
    ensures Serving(Run(HOST, FRIENDLY, vs), epoch)
    decreases epoch
  {
    hide RunFrom, Willing, Welcome, Tame, InOrder;
    FriendlyFacts();
    if epoch == 1 {
      var _, us, kb := BothConnected();
      vs := us;
    } else {
      var us := ServerReaches(epoch - 1);
      var e := Run(HOST, FRIENDLY, us);
      HelloWelcome(e);
      var ws := Renegotiated(HOST, FRIENDLY, e, epoch - 1, Hello2(Served()));
      RunAppend(HOST, FRIENDLY, NOBODY, us, ws);
      vs := us + ws;
    }
  }

  /** One renegotiation more, and what the server then writes goes out in the clear. */
  lemma WrappedServerWritesInTheClear(data: seq<byte>) returns (vs: seq<Event>)
    requires |data| <= MAX_BUF - 13
    ensures var e := Run(HOST, FRIENDLY, vs); var f := Run(HOST, FRIENDLY, vs + [Writes(data)]);
      && e.known && e.role == Server && e.state == Connected && e.s0.None? && e.doneWrapped
      && |f.sent| == |e.sent| + 1 && f.sent[|e.sent|].bytes == Header(APPLICATION_DATA, Zeros(8), |data|) + data
  {
    hide RunFrom, Willing, Welcome, Tame, Step, Header;
    FriendlyFacts();
    var us := ServerReaches(0xffff);
    var e := Run(HOST, FRIENDLY, us);
    HelloWelcome(e);
    var ws := Renegotiated(HOST, FRIENDLY, e, 0xffff, Hello2(Served()));
    RunAppend(HOST, FRIENDLY, NOBODY, us, ws);
    vs := us + ws;
    var f := Run(HOST, FRIENDLY, vs);
    OneEvent(HOST, FRIENDLY, f, Writes(data));
    RunAppend(HOST, FRIENDLY, NOBODY, vs, [Writes(data)]);
    WritesInTheClear(HOST, FRIENDLY, f, data);
  }

  // ---------------------------------------------------------------- a record longer than its buffer

  /** A client connects and writes 172 octets of data: the record is one octet longer than the buffer it is built in. */
  lemma OverrunInRun() returns (us: seq<Event>)
    ensures var e := Run(HOST, FRIENDLY, us); var f := Run(HOST, FRIENDLY, us + [Writes(Zeros(172))]);
      |f.sent| == |e.sent| + 1 && |f.sent[|e.sent|].bytes| == MAX_BUF + 1
  {
    hide RunFrom, Tame, Willing, Share, InOrder, Protect;
    var ws, _, kb := BothConnected();
    us := ws;
    var e := Run(HOST, FRIENDLY, us);
    OneEvent(HOST, FRIENDLY, e, Writes(Zeros(172)));
    RunAppend(HOST, FRIENDLY, NOBODY, us, [Writes(Zeros(172))]);
    ProtectLength(HOST.aes, e.role, e.s0, APPLICATION_DATA, Zeros(172));
  }

  // ---------------------------------------------------------------- a failure that is not reported

  ghost predicate Unreported(w: World) {
    && (forall n, b :: w.write(n, b) == if |b| == 14 then -5 else |b|)
    && (forall n, q :: w.psk(n, q) == Given([]))
  }

  /** Waiting for ServerHelloDone with a pre-shared key, before any key is there. */
  ghost predicate Pending(e: Endpoint, n: nat) {
    && e.known && e.role == Client && e.state == WaitServerHelloDone && PlainSlot(e.s0)
    && e.hs.Some? && e.hs.value.cipher == PSK_CIPHER && !e.hs.value.clientAuth && !e.hs.value.crossed && e.hs.value.queue == []
    && e.hs.value.mseqR == 1 && |e.hs.value.trail| == n
  }

  lemma PlainFlight(c: Config, w: World, e: Endpoint)
    requires Unreported(w) && e.hs.Some? && Pending(e, |e.hs.value.trail|)
    ensures var r := SendKeyExchangeFlight(c, w, e);
      r.err >= 0 && r.e.hs.value.trail == e.hs.value.trail + [KeyExchanged]
  {
    hide HandshakeMessage, Header;
    var e1 := e.With(e.hs.value.(pskId := []));
    var m := HandshakeMessage(e1, 16, BigEndian(0, 2) + []);
    var bytes := Protect(c.aes, e.role, e.s0, HANDSHAKE, m);
    assert w.psk(e.clock, Identity(e.hs.value.pskId)) == Given([]);
    assert |bytes| == 27 && w.write(e.clock, bytes) == 27;
  }

  lemma PlainCcsFails(c: Config, w: World, e: Endpoint)
    requires Unreported(w) && e.hs.Some? && PlainSlot(e.s0)
    ensures var r := SendServerFinished(c, w, e);
      r.err == -5 && r.e == e.(s0 := Bumped(e.s0), clock := r.e.clock, sent := r.e.sent)
  {
    hide Header, SendFinished;
    var bytes := Protect(c.aes, e.role, e.s0, CHANGE_CIPHER_SPEC, [1]);
    assert |bytes| == 14 && w.write(e.clock, bytes) == -5;
  }

  /** The ChangeCipherSpec fails when the keys are derived already, and the client goes on waiting for ServerHelloDone. */
  lemma DoneFails(c: Config, w: World, e: Endpoint, n: nat, m: Message)
    requires Unreported(w) && Pending(e, n)
    ensures var r := OnServerHelloDone(c, w, e, m); var t := e.hs.value.trail;
      && r.err == -5 && Pending(r.e, n + 2) && r.e.hs.value.trail[..n] == t
      && var d := r.e.hs.value.trail[n + 1];
      d.KeysDerived? && d.client == e.hs.value.tmp[..32] && |d.master| == 48 && r.e.hs.value.tmp[..48] == d.master
  {
    hide SendServerFinished, CheckServerHelloDone, SendKeyExchangeFlight, CalculateKeyBlock;
    ServerHelloDoneIs(c, w, e, m);
    var e0 := Absorbed(e, m);
    PlainFlight(c, w, e0);
    var r1 := SendKeyExchangeFlight(c, w, e0);
    assert w.psk(r1.e.clock, Key(r1.e.hs.value.pskId)) == Given([]);
    DerivedFrom(c, w, r1.e);
    var r2 := CalculateKeyBlock(c, w, r1.e);
    PlainCcsFails(c, w, r2.e);
    var t := r2.e.hs.value.trail;
    assert t[..n] == t[..n + 1][..n] == r1.e.hs.value.trail[..n] == e.hs.value.trail;
  }

  /** A record from a server without keys. */
  function PlainLetter(c: Config, payload: seq<byte>): Event {
    Arrives(Protect(c.aes, Server, Some(NewSecurity(0)), HANDSHAKE, payload))
  }

  lemma PlainLetterRead(c: Config, w: World, e: Endpoint, payload: seq<byte>)
    requires e.known && e.role == Client && PlainSlot(e.s0) && |payload| <= MAX_BUF
    ensures Step(c, w, e, PlainLetter(c, payload)) == HandlePayload(c, w, Tick(e), HANDSHAKE, 0, payload).e
  {
    hide Protect, HandlePayload, HandleMessage;
    var s := Some(NewSecurity(0));
    CarriedPlain(c, w, e, Server, Engine.Sent(Server, s, HANDSHAKE, payload, Protect(c.aes, Server, s, HANDSHAKE, payload)), HANDSHAKE, payload);
  }

  /** The ServerHelloDone arrives: an error, no report, and no change but a derivation. */
  lemma DoneArrives(c: Config, w: World, e: Endpoint, n: nat)
    requires Unreported(w) && Pending(e, n)
    ensures var f := Step(c, w, e, PlainLetter(c, Msg(14, 1, []))); var t := e.hs.value.trail;
      && Pending(f, n + 2) && f.hs.value.trail[..n] == t
      && var d := f.hs.value.trail[n + 1];
      d.KeysDerived? && d.client == e.hs.value.tmp[..32] && |d.master| == 48 && f.hs.value.tmp[..48] == d.master
  {
    hide Step, OnServerHelloDone, HandshakeHeader, MessageSeq;
    var m := Msg(14, 1, []);
    FirstIs(14, 1, []);
    PlainLetterRead(c, w, e, m);
    DoneFails(c, w, Tick(Tick(e)), n, m);
    DoneDispatched(c, w, Tick(e), m);
    Unanswered(c, w, Tick(e), m);
  }

  /** An error that is not reported leaves the peer as the handler left it. */
  lemma Unanswered(c: Config, w: World, e: Endpoint, m: Message)
    requires e.known && e.hs.Some? && MessageSeq(m) == e.hs.value.mseqR && RightEpoch(e, 0) && HandleHandshakeMsg(c, w, e, m).err == -5
    ensures HandlePayload(c, w, e, HANDSHAKE, 0, m).e == HandleHandshakeMsg(c, w, e, m).e
  {
    hide HandleHandshakeMsg, MessageSeq, DrainQueue;
  }

  lemma FirstHelloSent(c: Config, w: World)
    requires Unreported(w) && c.psk && !c.verifiesKey
    ensures var f := Step(c, w, NOBODY, Connects);
      && f.known && f.role == Client && f.state == ClientHelloSent && PlainSlot(f.s0)
      && f.hs.Some? && !f.hs.value.clientAuth && !f.hs.value.crossed && f.hs.value.queue == [] && f.hs.value.mseqR == 0 && f.hs.value.trail == []
  {
    hide ClientHelloBody, HandshakeHeader, Protect;
    var e0 := HelloReady(w, NewPeer(NOBODY, Client, 0).With(NewHandshake(0, 0)), []);
    var body := ClientHelloBody(true, false, e0.hs.value.tmp[..32], []);
    HelloLength([], e0.hs.value.tmp[..32]);
    BodyIsLong(e0.hs.value.tmp[..32]);
    var m := HandshakeMessage(e0, 1, body);
    PlainLength(c.aes, Client, e0.s0.value, m);
    WholeRecordPosts(c, w, Counted(e0, 1, body, false), HANDSHAKE, m);
  }

  lemma BodyIsLong(random: Random)
    ensures |ClientHelloBody(true, false, random, [])| >= 32
  {
    hide BigEndian, HelloTail;
  }

  lemma PlainLength(aes: Aes, role: Role, s: Security, payload: seq<byte>)
    requires s.cipher == NULL_CIPHER
    ensures |Protect(aes, role, Some(s), HANDSHAKE, payload)| == 13 + |payload|
  {
    hide Header;
  }

  lemma HelloAnswered(c: Config, w: World, e: Endpoint)
    requires c.psk && e.known && e.role == Client && e.state == ClientHelloSent && PlainSlot(e.s0)
    requires e.hs.Some? && !e.hs.value.clientAuth && !e.hs.value.crossed && e.hs.value.queue == [] && e.hs.value.mseqR == 0 && e.hs.value.trail == []
    ensures Pending(Step(c, w, e, PlainLetter(c, Msg(2, 0, ServerHelloBody(PSK_CIPHER, Zeros(32))))), 1)
  {
    hide Step, HandleHandshakeMsg, HandshakeHeader, MessageSeq, ServerHelloBody, HandlePayload;
    var m := Msg(2, 0, ServerHelloBody(PSK_CIPHER, Zeros(32)));
    BodyLengths(Zeros(32));
    FirstIs(2, 0, ServerHelloBody(PSK_CIPHER, Zeros(32)));
    PlainLetterRead(c, w, e, m);
    TakesServerHello(c, w, Tick(e), 0);
    InTurn(c, w, Tick(e), 0, m);
  }

  /** A client whose ChangeCipherSpec is refused with an unreported code reads its master secret as random values. */
  lemma UnreportedRunBreaks() returns (vs: seq<Event>)
    ensures var g := Run(HOST, STUBBORN, vs); g.known && g.hs.Some? && !g.hs.value.crossed && Misread(g.hs.value.trail)
  {
    hide Step, RunFrom, Misread, PlainLetter, HandshakeHeader, ServerHelloBody;
    var c, w := HOST, STUBBORN;
    assert Unreported(w);
    FirstHelloSent(c, w);
    var e1 := Step(c, w, NOBODY, Connects);
    HelloAnswered(c, w, e1);
    var v2, v3 := PlainLetter(c, Msg(2, 0, ServerHelloBody(PSK_CIPHER, Zeros(32)))), PlainLetter(c, Msg(14, 1, []));
    var e2 := Step(c, w, e1, v2);
    DoneArrives(c, w, e2, 1);
    var e3 := Step(c, w, e2, v3);
    DoneArrives(c, w, e3, 3);
    var e4 := Step(c, w, e3, v3);
    var t := e4.hs.value.trail;
    assert t[2] == t[..3][2] == e3.hs.value.trail[2];
    assert e3.hs.value.tmp[..32] == e3.hs.value.tmp[..48][..32];
    SecondReading(t, 2, 4);
    vs := [Connects] + [v2, v3, v3];
    OneEvent(c, w, NOBODY, Connects);
    RunAppend(c, w, NOBODY, [Connects], [v2, v3, v3]);
    ThreeEvents(c, w, e1, v2, v3, v3);
  }
}

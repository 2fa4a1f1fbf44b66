/**
 * One endpoint of a DTLS association, as dtls.c drives it: what every call and every datagram does to the
 * peer, its security parameters and its handshake, and what is handed to the `write` callback.
 */
module Engine {
  import opened Bytes
  import opened CcmSpec
  import opened Prf
  import opened Peers
  import opened RecordSpec
  import opened Datagram
  import opened Reorder
  import opened Hello

  // ---------------------------------------------------------------- state

  /** `union tmp`: client random, then server random; later the master secret over the first 48 octets. */
  type Tmp = t: seq<byte> | |t| == 64 witness Zeros(64)

  /** What a handshake has got through, for the record. */
  datatype Milestone =
    | HelloExchanged(client: seq<byte>, server: seq<byte>)
    | KeyExchanged
    | KeysDerived(client: seq<byte>, server: seq<byte>, secret: seq<byte>, master: seq<byte>)
    | CipherChanged
    | FinishedSent(master: seq<byte>, transcript: seq<byte>, verify: seq<byte>, mseq: uint16)
    | FinishedAccepted(master: seq<byte>, transcript: seq<byte>, verify: seq<byte>, mseq: uint16)

  /**
   * dtls_handshake_parameters_t; `transcript` is what the running hash has absorbed, `ready` whether
   * LIST_STRUCT_INIT has been run on the reorder queue, which is a null pointer until then. For the record:
   * `trail` is what the handshake has got through, `crossed` that it began with a hello meant for the other role,
   * and `wrapped` that its keys belong to the epoch after 65535, which is 0.
   */
  datatype Handshake = Handshake(tmp: Tmp, ready: bool, queue: seq<Message>, mseqR: uint16, mseqS: uint16, transcript: seq<byte>,
                                 cipher: uint16, compression: byte, clientAuth: bool, pskId: seq<byte>,
                                 trail: seq<Milestone>, crossed: bool, wrapped: bool)

  /** A record handed to `write`: by whom, under which security parameters, and the octets. */
  datatype Sent = Sent(role: Role, under: Option<Security>, ctype: byte, payload: seq<byte>, bytes: seq<byte>)

  /**
   * The peer of one remote address, if it is `known`. `done` is the trail of the handshake completed last, with
   * what was on record of it. `clock` numbers the dealings with the environment, `made` the security parameters,
   * over all peers.
   */
  datatype Endpoint = Endpoint(known: bool, role: Role, state: State, s0: Option<Security>, s1: Option<Security>,
                               hs: Option<Handshake>, done: seq<Milestone>, doneCrossed: bool, doneWrapped: bool,
                               clock: nat, made: nat, sent: seq<Sent>)
  {
    function With(h: Handshake): Endpoint { this.(hs := Some(h)) }
    function In(s: State): Endpoint { this.(state := s) }
  }

  /** dtls_context_t: keys, the remote address, and which callbacks are set. */
  datatype Config = Config(aes: Aes, hash: Hash, secret: seq<byte>, session: seq<byte>, psk: bool, ownKey: bool, verifiesKey: bool)

  type Short = s: seq<byte> | |s| <= 32 witness []
  type Failure = x: int | x < 0 witness -1

  datatype PskRequest = Hint | Identity(hint: seq<byte>) | Key(identity: seq<byte>)
  datatype PskReply = Failed(code: Failure) | Given(value: Short)

  /** What the elliptic-curve half does when it is asked: the key callback's result, message bodies, a shared secret, a verdict. */
  datatype Ecc = Ecc(key: int, certificate: seq<byte>, exchange: seq<byte>, verify: seq<byte>, secret: Short, verdict: int)

  /** Everything outside: callbacks, clock and random source, and memory beyond a message. */
  datatype World = World(write: (nat, seq<byte>) -> int, random: nat -> Random, psk: (nat, PskRequest) -> PskReply,
                         ecc: nat -> Ecc, stale: nat -> nat -> byte, overrun: nat -> uint16)

  datatype Outcome = Outcome(e: Endpoint, err: int)

  const NOBODY: Endpoint := Endpoint(false, Client, Init, None, None, None, [], false, false, 0, 0, [])

  /** dtls_free_peer: only the history stays. */
  function Forgotten(e: Endpoint): Endpoint {
    NOBODY.(clock := e.clock, made := e.made, sent := e.sent)
  }

  /** dtls_new_peer */
  function NewPeer(e: Endpoint, role: Role, rseq: nat): Endpoint {
    Forgotten(e).(known := true, role := role, s0 := Some(NewSecurity(e.made).(rseq := rseq)), made := e.made + 1)
  }

  /** dtls_handshake_new, with its reorder queue initialised */
  function NewHandshake(mseqR: uint16, mseqS: uint16): Handshake {
    Handshake(Zeros(64), true, [], mseqR, mseqS, [], NULL_CIPHER, 0, false, [], [], false, false)
  }

  function Next(n: uint16): uint16 { if n == 0xffff then 0 else n + 1 }

  // ---------------------------------------------------------------- sending

  /** The same security parameters, but for the counter. */
  ghost predicate SameSlot(a: Option<Security>, b: Option<Security>) {
    (a.Some? <==> b.Some?) && (a.Some? ==> b.value == a.value.(rseq := b.value.rseq))
  }

  /** Nothing but counters and history separates `b` from `a`. */
  ghost predicate SameBut(a: Endpoint, b: Endpoint) {
    && b == a.(s0 := b.s0, hs := b.hs, clock := b.clock, sent := b.sent)
    && SameSlot(a.s0, b.s0)
    && (b.hs.Some? <==> a.hs.Some?)
    && (a.hs.Some? ==> b.hs.value == a.hs.value.(mseqS := b.hs.value.mseqS, transcript := b.hs.value.transcript))
  }

  /** Sending again after sending. */
  lemma SameButTwice(a: Endpoint, b: Endpoint, d: Endpoint)
    requires SameBut(a, b) && SameBut(b, d)
    ensures SameBut(a, d) && (d.hs.Some? <==> a.hs.Some?)
  {
  }

  /** Sending a key exchange after something else. */
  lemma SameButExchanged(a: Endpoint, b: Endpoint, d: Endpoint)
    requires SameBut(a, b) && b.hs.Some? && d.hs.Some? && SameBut(b.With(b.hs.value.(pskId := d.hs.value.pskId)), d)
    ensures a.hs.Some? && SameBut(a.With(a.hs.value.(pskId := d.hs.value.pskId)), d)
  {
  }

  /** A milestone on top of that, and something sent after it. */
  lemma SameButMarked(a: Endpoint, d: Endpoint, x: Milestone, f: Endpoint)
    requires a.hs.Some? && d.hs.Some? && SameBut(a.With(a.hs.value.(pskId := d.hs.value.pskId)), d)
    requires SameBut(d.With(d.hs.value.(trail := d.hs.value.trail + [x])), f)
    ensures f.hs.Some? && SameBut(a.With(a.hs.value.(pskId := f.hs.value.pskId, trail := f.hs.value.trail)), f)
    ensures SameBut(a.With(a.hs.value.(pskId := d.hs.value.pskId, trail := d.hs.value.trail)), d)
  {
  }

  lemma SameButSelf(a: Endpoint)
    ensures SameBut(a, a)
  {
  }

  function Bumped(s: Option<Security>): Option<Security> {
    if s.None? then None else Some(s.value.(rseq := s.value.rseq + 1))
  }

  /** The room check of dtls_prepare_record; it does not count the authentication tag. */
  predicate Room(s: Option<Security>, n: nat) {
    HEADER_LENGTH + (if s.None? || s.value.cipher == NULL_CIPHER then 0 else 8) + n <= MAX_BUF
  }

  /** dtls_send_multi, with slot 0 already counted up. */
  function Transmit(c: Config, w: World, e: Endpoint, s: Option<Security>, ctype: byte, payload: seq<byte>): (r: Outcome)
    ensures SameBut(e, r.e)
  {
    if !Room(s, |payload|) then Outcome(e, Fatal(INTERNAL_ERROR))
    else
      var bytes := Protect(c.aes, e.role, s, ctype, payload);
      var n := w.write(e.clock, bytes);
      Outcome(e.(clock := e.clock + 1, sent := e.sent + [Sent(e.role, s, ctype, payload, bytes)]),
              if n <= 0 then n else |payload| - (|bytes| - n))
  }

  /** dtls_send */
  function Send(c: Config, w: World, e: Endpoint, ctype: byte, payload: seq<byte>): (r: Outcome)
    ensures SameBut(e, r.e)
  {
    Transmit(c, w, e.(s0 := Bumped(e.s0)), e.s0, ctype, payload)
  }

  function HandshakeMessage(e: Endpoint, kind: byte, body: seq<byte>): (m: Message)
    ensures |m| == HS_LENGTH + |body|
  {
    HandshakeHeader(kind, |body|, if e.hs.Some? then e.hs.value.mseqS else 0) + body
  }

  /** dtls_send_handshake_msg_hash */
  function SendHandshake(c: Config, w: World, e: Endpoint, kind: byte, body: seq<byte>, addHash: bool): (r: Outcome)
    ensures SameBut(e, r.e)
  {
    Send(c, w, Counted(e, kind, body, addHash), HANDSHAKE, HandshakeMessage(e, kind, body))
  }

  function Counted(e: Endpoint, kind: byte, body: seq<byte>, addHash: bool): Endpoint {
    if e.hs.None? then e
    else
      var h := e.hs.value;
      e.With(h.(mseqS := Next(h.mseqS), transcript := if addHash then h.transcript + HandshakeMessage(e, kind, body) else h.transcript))
  }

  const FATAL: byte := 2
  const CLOSE_NOTIFY: byte := 0

  /** dtls_send_alert, whose result nobody looks at */
  function SendAlert(c: Config, w: World, e: Endpoint, level: byte, description: byte): (r: Endpoint)
    ensures SameBut(e, r)
  {
    Send(c, w, e, ALERT, [level, description]).e
  }

  /** The codes dtls_alert_send_from_err turns into an alert. */
  predicate Reported(err: int) {
    err == -1 || -0x300 < err < -0x100
  }

  /** dtls_alert_send_from_err */
  function ReportError(c: Config, w: World, e: Endpoint, err: int): Endpoint {
    if !e.known || !Reported(err) then e
    else if err == -1 then SendAlert(c, w, e.In(Closing), FATAL, INTERNAL_ERROR)
    else SendAlert(c, w, e.In(Closing), -err / 256, -err % 256)
  }

  /** dtls_destroy_peer, unlinking: a peer not yet closing is closed first. */
  function Destroyed(c: Config, w: World, e: Endpoint): Endpoint {
    Forgotten(if e.state == Closed || e.state == Closing then e else SendAlert(c, w, e.In(Closing), FATAL, CLOSE_NOTIFY))
  }

  // ---------------------------------------------------------------- keys

  /** "master secret" */
  const MASTER_SECRET: seq<byte> := [109, 97, 115, 116, 101, 114, 32, 115, 101, 99, 114, 101, 116]
  /** "key expansion" */
  const KEY_EXPANSION: seq<byte> := [107, 101, 121, 32, 101, 120, 112, 97, 110, 115, 105, 111, 110]
  /** " finished" */
  const FINISHED: seq<byte> := [32, 102, 105, 110, 105, 115, 104, 101, 100]

  /** "client" or "server" */
  function Label(role: Role): seq<byte> {
    if role == Client then [99, 108, 105, 101, 110, 116] else [115, 101, 114, 118, 101, 114]
  }

  function Other(role: Role): Role {
    if role == Client then Server else Client
  }

  /** dtls_prf */
  function TlsPrf(h: Hash, key: seq<byte>, lbl: seq<byte>, random1: seq<byte>, random2: seq<byte>, n: nat): (s: seq<byte>)
    ensures |s| == n
  {
    PHash(h, key, lbl + random1 + random2, n)
  }

  function MasterSecret(h: Hash, secret: seq<byte>, client: seq<byte>, server: seq<byte>): (m: seq<byte>)
    ensures |m| == 48
  {
    TlsPrf(h, secret, MASTER_SECRET, client, server, 48)
  }

  function KeyBlockOf(h: Hash, master: seq<byte>, client: seq<byte>, server: seq<byte>): KeyBlock {
    TlsPrf(h, master, KEY_EXPANSION, server, client, 40)
  }

  /** The verify_data of the Finished message of `role` (section 7.4.9 of RFC 5246). */
  function VerifyData(h: Hash, master: seq<byte>, role: Role, transcript: seq<byte>): (v: seq<byte>)
    ensures |v| == 12
  {
    TlsPrf(h, master, Label(role), FINISHED, h(transcript), 12)
  }

  datatype Secret = NoSecret(code: Failure) | Secret(value: seq<byte>)

  /** The pre-master secret, or why there is none. */
  function PreMasterSecret(w: World, e: Endpoint, h: Handshake): Secret {
    if h.cipher == PSK_CIPHER then
      match w.psk(e.clock, Key(h.pskId))
      case Failed(code) => NoSecret(code)
      case Given(key) => if |PreMaster(key)| > PSK_KEY_BLOCK_ROOM then NoSecret(Fatal(INTERNAL_ERROR)) else Secret(PreMaster(key))
    else if h.cipher == ECDHE_CIPHER then Secret(w.ecc(e.clock).secret)
    else NoSecret(Fatal(INTERNAL_ERROR))
  }

  /** dtls_security_params_next: a fresh slot 1, one epoch on. */
  function NextParams(e: Endpoint): (r: Endpoint)
    ensures r.s1.Some? && r.hs == e.hs && r == e.(s1 := r.s1, made := e.made + 1)
  {
    e.(s1 := Some(NewSecurity(e.made).(epoch := if e.s0.Some? then Next(e.s0.value.epoch) else 1)), made := e.made + 1)
  }

  /** Whether the next epoch is 0 again. */
  predicate LastEpoch(e: Endpoint) { e.s0.Some? && e.s0.value.epoch == 0xffff }

  /** dtls_security_params_switch */
  function Switched(e: Endpoint): Endpoint {
    e.(s0 := e.s1, s1 := e.s0)
  }

  /** dtls_security_params_free_other */
  function FreedOther(e: Endpoint): Endpoint {
    if e.s0.None? || e.s1.None? || e.s0.value.epoch < e.s1.value.epoch then e else e.(s1 := None)
  }

  /** The master secret over the random values, and the new slot 1 filled with what follows from it. */
  function KeysFrom(c: Config, e: Endpoint, secret: seq<byte>): (f: Endpoint)
    requires e.hs.Some? && e.s1.Some?
    ensures f.hs.Some? && f == e.(s1 := f.s1, hs := f.hs)
    ensures f.hs.value == e.hs.value.(tmp := f.hs.value.tmp, trail := f.hs.value.trail)
  {
    hide MasterSecret, KeyBlockOf;
    var h := e.hs.value;
    var client, server := h.tmp[..32], h.tmp[32..];
    var master := MasterSecret(c.hash, secret, client, server);
    var s := e.s1.value.(cipher := h.cipher, compression := h.compression, rseq := 0,
                         keyBlock := KeyBlockOf(c.hash, master, client, server));
    e.(s1 := Some(s)).With(h.(tmp := master + h.tmp[48..], trail := h.trail + [KeysDerived(client, server, secret, master)]))
  }

  function Wrapped(e: Endpoint, yes: bool): (r: Endpoint)
    requires e.hs.Some?
    ensures r.hs.Some? && r == e.(hs := r.hs) && r.hs.value.queue == e.hs.value.queue && r.hs.value.ready == e.hs.value.ready
  {
    e.With(e.hs.value.(wrapped := yes))
  }

  /** calculate_key_block */
  function CalculateKeyBlock(c: Config, w: World, e: Endpoint): (r: Outcome)
    requires e.hs.Some?
    ensures r.e == e.(s1 := r.e.s1, hs := r.e.hs, made := e.made + 1) && r.e.hs.Some?
    ensures r.e.hs.value.queue == e.hs.value.queue && r.e.hs.value.ready == e.hs.value.ready
    ensures r.err <= 0
  {
    hide PreMasterSecret, KeysFrom, NextParams, Wrapped;
    match PreMasterSecret(w, e, e.hs.value)
    case NoSecret(code) => Outcome(NextParams(e), code)
    case Secret(secret) => Outcome(Wrapped(KeysFrom(c, NextParams(e), secret), LastEpoch(e)), 0)
  }

  /** What goes on record of a Finished that is sent. */
  function OwnFinished(c: Config, e: Endpoint): Milestone
    requires e.hs.Some?
  {
    var h := e.hs.value;
    FinishedSent(h.tmp[..48], h.transcript, VerifyData(c.hash, h.tmp[..48], e.role, h.transcript), h.mseqS)
  }

  /** dtls_send_finished */
  function SendFinished(c: Config, w: World, e: Endpoint): (r: Outcome)
    requires e.hs.Some?
    ensures r.e.hs.Some? && SameBut(e.With(e.hs.value.(trail := r.e.hs.value.trail)), r.e)
  {
    var h := e.hs.value;
    var e1 := e.With(h.(trail := h.trail + [OwnFinished(c, e)]));
    SendHandshake(c, w, e1, 20, VerifyData(c.hash, h.tmp[..48], e.role, h.transcript), true)
  }

  // ---------------------------------------------------------------- messages of the client

  /** A first hello gets a new random value, a repeated one keeps it and starts the transcript anew. */
  function HelloReady(w: World, e: Endpoint, cookie: seq<byte>): (r: Endpoint)
    requires e.hs.Some?
    ensures r.hs.Some?
  {
    var h := e.hs.value;
    e.With(if cookie == [] then h.(tmp := w.random(e.clock) + h.tmp[32..]) else h.(transcript := []))
  }

  /** dtls_send_client_hello */
  function SendClientHello(c: Config, w: World, e: Endpoint, cookie: seq<byte>): (r: Outcome)
    requires e.hs.Some? && |cookie| < 256
    ensures r.e.hs.Some? && SameBut(e.With(e.hs.value.(tmp := r.e.hs.value.tmp)), r.e)
  {
    if |cookie| > 32 then Outcome(e, Fatal(HANDSHAKE_FAILURE))
    else
      var e1 := HelloReady(w, e, cookie);
      SendHandshake(c, w, e1, 1, ClientHelloBody(c.psk, c.verifiesKey, e1.hs.value.tmp[..32], cookie), cookie != [])
  }

  /** The ClientKeyExchange with a pre-shared key: the identity is kept, and sent. */
  function SendIdentity(c: Config, w: World, e: Endpoint, id: Short): (r: Outcome)
    requires e.hs.Some?
    ensures r.e.hs.Some? && SameBut(e.With(e.hs.value.(pskId := id)), r.e)
  {
    hide Send;
    SendHandshake(c, w, e.With(e.hs.value.(pskId := id)), 16, BigEndian(|id|, 2) + id, true)
  }

  /** dtls_send_client_key_exchange */
  function SendClientKeyExchange(c: Config, w: World, e: Endpoint): (r: Outcome)
    requires e.hs.Some?
    ensures r.e.hs.Some? && SameBut(e.With(e.hs.value.(pskId := r.e.hs.value.pskId)), r.e)
  {
    hide SendIdentity, SendHandshake;
    var h := e.hs.value;
    if h.cipher == PSK_CIPHER then
      match w.psk(e.clock, Identity(h.pskId))
      case Failed(code) => Outcome(e, code)
      case Given(id) => SendIdentity(c, w, e, id)
    else if h.cipher == ECDHE_CIPHER then SendHandshake(c, w, e, 16, w.ecc(e.clock).exchange, true)
    else Outcome(e, Fatal(INTERNAL_ERROR))
  }

  /** dtls_send_certificate_ecdsa, when there is a key for it */
  function SendCertificate(c: Config, w: World, e: Endpoint): (r: Outcome)
    ensures SameBut(e, r.e)
  {
    hide SendHandshake;
    var k := w.ecc(e.clock);
    if k.key < 0 then Outcome(e, k.key) else SendHandshake(c, w, e, 11, k.certificate, true)
  }

  // ---------------------------------------------------------------- messages of the server

  function ServerHelloBody(cipher: uint16, random: Random): seq<byte> {
    BigEndian(VERSION, 2) + random + [0]
      + (if cipher == NULL_CIPHER then [] else BigEndian(cipher, 2) + [0])
      + (if cipher == ECDHE_CIPHER then [0, 16, 0, 19, 0, 1, 2, 0, 20, 0, 1, 2, 0, 11, 0, 2, 1, 0] else [])
  }

  /** Certificate, ServerKeyExchange and perhaps CertificateRequest. */
  function SendEcdheMessages(c: Config, w: World, e: Endpoint): (r: Outcome)
    ensures SameBut(e, r.e)
  {
    hide SendCertificate, SendHandshake;
    var r1 := SendCertificate(c, w, e);
    if r1.err < 0 then r1 else
      var r2 := SendHandshake(c, w, r1.e, 12, w.ecc(r1.e.clock).exchange, true);
      if r2.err < 0 || !(c.ownKey && c.verifiesKey) then r2
      else SendHandshake(c, w, r2.e, 13, [1, 64, 0, 2, 4, 3, 0, 0], true)
  }

  /** The ServerKeyExchange with a pre-shared key: sent only when there is a hint. */
  function SendHint(c: Config, w: World, e: Endpoint): (r: Outcome)
    ensures SameBut(e, r.e)
  {
    hide SendHandshake;
    match w.psk(e.clock, Hint)
    case Failed(code) => Outcome(e, code)
    case Given(hint) => if hint == [] then Outcome(e, 0) else SendHandshake(c, w, e, 12, BigEndian(|hint|, 2) + hint, true)
  }

  /** dtls_send_server_hello */
  function SendServerHello(c: Config, w: World, e: Endpoint): (r: Outcome)
    requires e.hs.Some?
    ensures r.e.hs.Some? && SameBut(e.With(e.hs.value.(tmp := e.hs.value.tmp[..32] + w.random(e.clock))), r.e)
  {
    hide SendHandshake, ServerHelloBody;
    var h, random := e.hs.value, w.random(e.clock);
    SendHandshake(c, w, e.With(h.(tmp := h.tmp[..32] + random)), 2, ServerHelloBody(h.cipher, random), true)
  }

  /** What comes between ServerHello and ServerHelloDone. */
  function SendKeyMaterial(c: Config, w: World, e: Endpoint, cipher: uint16): (r: Outcome)
    ensures SameBut(e, r.e)
  {
    hide SendEcdheMessages, SendHint;
    if cipher == ECDHE_CIPHER then SendEcdheMessages(c, w, e)
    else if cipher == PSK_CIPHER then SendHint(c, w, e)
    else Outcome(e, 0)
  }

  /** dtls_send_server_hello_msgs */
  function SendServerHelloMessages(c: Config, w: World, e: Endpoint): (r: Outcome)
    requires e.hs.Some?
    ensures r.e.hs.Some? && SameBut(e.With(e.hs.value.(tmp := e.hs.value.tmp[..32] + w.random(e.clock))), r.e)
    ensures r.err <= 0
  {
    hide SendServerHello, SendKeyMaterial, SendHandshake, SameBut;
    var e0 := e.With(e.hs.value.(tmp := e.hs.value.tmp[..32] + w.random(e.clock)));
    var r1 := SendServerHello(c, w, e);
    if r1.err < 0 then r1 else
      var r2 := SendKeyMaterial(c, w, r1.e, e.hs.value.cipher);
      SameButTwice(e0, r1.e, r2.e);
      if r2.err < 0 then r2 else
        var r3 := SendHandshake(c, w, r2.e, 14, [], true);
        SameButTwice(e0, r2.e, r3.e);
        if r3.err < 0 then r3 else Outcome(r3.e, 0)
  }

  // ---------------------------------------------------------------- receiving

  function Unexpected(e: Endpoint): Outcome { Outcome(e, Fatal(UNEXPECTED_MESSAGE)) }

  /** update_hs_hash */
  function Absorbed(e: Endpoint, m: Message): Endpoint
    requires e.hs.Some?
  {
    e.With(e.hs.value.(transcript := e.hs.value.transcript + m))
  }

  /** The end of handle_handshake_msg: a message without error is counted. */
  function Count(r: Outcome): Outcome {
    if r.e.hs.Some? && r.err >= 0 then Outcome(r.e.With(r.e.hs.value.(mseqR := Next(r.e.hs.value.mseqR))), r.err) else r
  }

  /** Handling a message neither forgets the peer nor touches its role or its reorder queue. */
  ghost predicate Kept(a: Endpoint, b: Endpoint) {
    && (a.known ==> b.known && b.role == a.role) && (a.known && b.hs.Some? ==> Queue(b) == Queue(a)) && (Ready(a) ==> Ready(b))
  }

  /** The reorder queue, if there is one, has been initialised. */
  predicate Ready(e: Endpoint) {
    e.hs.Some? ==> e.hs.value.ready
  }

  function Queue(e: Endpoint): seq<Message> {
    if e.hs.Some? then e.hs.value.queue else []
  }

  function Received(w: World, e: Endpoint, m: Message): Input { Input(m, w.stale(e.clock)) }

  /** dtls_check_tls_extension, and its result */
  function CheckExtensions(i: Input, p: nat, left: nat, cipher: uint16, hello: bool, code: Failure): (err: int)
    ensures err <= 0
  {
    if ExtensionsOk(i, p, left, cipher, hello) then 0 else code
  }

  /** check_server_hello_verify_request */
  function OnHelloVerifyRequest(c: Config, w: World, e: Endpoint, m: Message): (r: Outcome)
    requires e.hs.Some?
    ensures Kept(e, r.e)
  {
    hide SendClientHello;
    if e.state != ClientHelloSent then Unexpected(e)
    else if |m| < 15 then Outcome(e, Fatal(DECODE_ERROR))
    else Count(SendClientHello(c, w, e, Range(Received(w, e, m), 15, m[14])))
  }

  /** check_server_hello */
  function CheckServerHello(c: Config, w: World, e: Endpoint, m: Message): (r: Outcome)
    requires e.hs.Some?
    ensures r.e.hs.Some? && r.err <= 0
    ensures r.e == e.With(e.hs.value.(transcript := r.e.hs.value.transcript, tmp := r.e.hs.value.tmp, cipher := r.e.hs.value.cipher))
  {
    if |m| < 24 then Outcome(e, Fatal(DECODE_ERROR))
    else
      var i, e1 := Received(w, e, m), Absorbed(e, m);
      if Octets2(i, 12) != VERSION then Outcome(e1, Fatal(PROTOCOL_VERSION))
      else
        ChosenParameters(c, w, e1.With(e1.hs.value.(tmp := e1.hs.value.tmp[..32] + Range(i, 14, 32))), i)
  }

  /** The second half of a ServerHello: session id, cipher suite, compression method, extensions. */
  function ChosenParameters(c: Config, w: World, e: Endpoint, i: Input): (r: Outcome)
    requires e.hs.Some?
    ensures r.e.hs.Some? && r.err <= 0 && r.e == e.With(e.hs.value.(cipher := r.e.hs.value.cipher))
  {
    match Skip(i, 46, SizeT(|i.data| - 46))
    case None => Outcome(e, Fatal(DECODE_ERROR))
    case Some((p, left)) =>
      var e1 := e.With(e.hs.value.(cipher := Octets2(i, p)));
      if !Known(c.psk, c.verifiesKey, Octets2(i, p)) || Octet(i, p + 2) != 0 then Outcome(e1, Fatal(INSUFFICIENT_SECURITY))
      else Outcome(e1, CheckExtensions(i, p + 3, SizeT(left - 3), Octets2(i, p), false, Fatal(HANDSHAKE_FAILURE)))
  }

  function OnServerHello(c: Config, w: World, e: Endpoint, m: Message): (r: Outcome)
    requires e.hs.Some?
    ensures Kept(e, r.e)
  {
    if e.state != ClientHelloSent then Unexpected(e)
    else
      var r := CheckServerHello(c, w, e, m);
      if r.err < 0 then r
      else
        Count(Outcome(HelloTaken(r.e), 0))
  }

  function HelloTaken(e: Endpoint): Endpoint
    requires e.hs.Some?
  {
    var h := e.hs.value;
    e.With(h.(trail := h.trail + [HelloExchanged(h.tmp[..32], h.tmp[32..])]))
      .In(if h.cipher == ECDHE_CIPHER then WaitServerCertificate else WaitServerHelloDone)
  }

  /** A message whose body is examined by the elliptic-curve half, after it has been hashed. */
  function Judged(w: World, e: Endpoint, m: Message): (r: Outcome)
    requires e.hs.Some?
    ensures r.e.hs.Some? && r.e == Absorbed(e, m) && r.err <= 0
  {
    Outcome(Absorbed(e, m), if w.ecc(e.clock).verdict < 0 then w.ecc(e.clock).verdict else 0)
  }

  function OnCertificate(w: World, e: Endpoint, m: Message): (r: Outcome)
    requires e.hs.Some?
    ensures Kept(e, r.e)
  {
    if e.state != (if e.role == Client then WaitServerCertificate else WaitClientCertificate) then Unexpected(e)
    else
      var r := Judged(w, e, m);
      if r.err < 0 then r else Count(Outcome(r.e.In(if e.role == Client then WaitServerKeyExchange else WaitClientKeyExchange), 0))
  }

  /** A two-octet length and that many octets, at most 32, in `m` from octet 12 on. */
  function ShortField(m: Message, code: Failure): Secret {
    if |m| < 14 then NoSecret(code)
    else if 256 * m[12] as nat + m[13] as nat != |m| - 14 then NoSecret(code)
    else if |m| - 14 > 32 then NoSecret(Fatal(INTERNAL_ERROR))
    else Secret(m[14..])
  }

  /** check_server_key_exchange_psk */
  function CheckHint(e: Endpoint, m: Message): (r: Outcome)
    requires e.hs.Some?
    ensures r.e.hs.Some? && r.e == e.With(e.hs.value.(transcript := e.hs.value.transcript + m, pskId := r.e.hs.value.pskId)) && r.err <= 0
  {
    match ShortField(m, Fatal(DECODE_ERROR))
    case NoSecret(code) => Outcome(Absorbed(e, m), code)
    case Secret(hint) => Outcome(Absorbed(e, m).With(Absorbed(e, m).hs.value.(pskId := hint)), 0)
  }

  /** With neither cipher negotiated the message is not even hashed, and no state is asked for. */
  function OnServerKeyExchange(w: World, e: Endpoint, m: Message): (r: Outcome)
    requires e.hs.Some?
    ensures Kept(e, r.e)
  {
    var cipher := e.hs.value.cipher;
    if (cipher == ECDHE_CIPHER && e.state != WaitServerKeyExchange) || (cipher == PSK_CIPHER && e.state != WaitServerHelloDone)
    then Unexpected(e)
    else
      var r := if cipher == ECDHE_CIPHER then Judged(w, e, m) else if cipher == PSK_CIPHER then CheckHint(e, m) else Outcome(e, 0);
      if r.err < 0 then r else Count(Outcome(r.e.In(WaitServerHelloDone), 0))
  }

  function OnCertificateRequest(w: World, e: Endpoint, m: Message): (r: Outcome)
    requires e.hs.Some?
    ensures Kept(e, r.e)
  {
    if e.state != WaitServerHelloDone then Unexpected(e)
    else
      var r := Judged(w, e, m);
      if r.err < 0 then r else Count(Outcome(r.e.With(r.e.hs.value.(clientAuth := true)), 0))
  }

  /** The client's flight up to and including the key exchange. */
  function SendKeyExchangeFlight(c: Config, w: World, e: Endpoint): (r: Outcome)
    requires e.hs.Some?
    ensures r.e.hs.Some? && SameBut(e.With(e.hs.value.(pskId := r.e.hs.value.pskId, trail := r.e.hs.value.trail)), r.e)
  {
    hide SendCertificate, SendClientKeyExchange, SendHandshake, SameBut;
    SameButSelf(e);
    var auth := e.hs.value.clientAuth;
    var r1 := if auth then SendCertificate(c, w, e) else Outcome(e, 0);
    SameButTwice(e, e, r1.e);
    if r1.err < 0 then r1 else
      var r2 := SendClientKeyExchange(c, w, r1.e);
      SameButExchanged(e, r1.e, r2.e);
      var h := r2.e.hs.value;
      var e2 := r2.e.With(h.(trail := h.trail + [KeyExchanged]));
      SameButSelf(e2);
      SameButMarked(e, r2.e, KeyExchanged, e2);
      if r2.err < 0 then r2
      else if !auth then Outcome(e2, 0)
      else
        var r3 := SendHandshake(c, w, e2, 15, w.ecc(e2.clock).verify, true);
        SameButMarked(e, r2.e, KeyExchanged, r3.e);
        r3
  }

  /** check_server_hellodone */
  function CheckServerHelloDone(c: Config, w: World, e: Endpoint, m: Message): (r: Outcome)
    requires e.hs.Some?
    ensures r.e.hs.Some? && Kept(e, r.e)
  {
    hide SendKeyExchangeFlight, CalculateKeyBlock, Send, SendFinished;
    var r1 := SendKeyExchangeFlight(c, w, Absorbed(e, m));
    if r1.err < 0 then r1 else
      var r2 := CalculateKeyBlock(c, w, r1.e);
      if r2.err < 0 then r2 else
        var r3 := Send(c, w, r2.e, CHANGE_CIPHER_SPEC, [1]);
        if r3.err < 0 then r3 else SendFinished(c, w, Switched(r3.e))
  }

  function OnServerHelloDone(c: Config, w: World, e: Endpoint, m: Message): (r: Outcome)
    requires e.hs.Some?
    ensures Kept(e, r.e)
  {
    hide CheckServerHelloDone;
    if e.state != WaitServerHelloDone then Unexpected(e)
    else
      var r := CheckServerHelloDone(c, w, e, m);
      if r.err < 0 then r else Count(Outcome(r.e.In(WaitChangeCipherSpec), r.err))
  }

  /** check_client_keyexchange */
  function CheckClientKeyExchange(w: World, e: Endpoint, m: Message): (r: Outcome)
    requires e.hs.Some?
    ensures r.e.hs.Some? && r.e == e.With(e.hs.value.(pskId := r.e.hs.value.pskId)) && r.err <= 0
  {
    if e.hs.value.cipher == ECDHE_CIPHER then Outcome(e, Judged(w, e, m).err)
    else if e.hs.value.cipher == PSK_CIPHER then
      match ShortField(m, Fatal(HANDSHAKE_FAILURE))
      case NoSecret(code) => Outcome(e, code)
      case Secret(id) => Outcome(e.With(e.hs.value.(pskId := id)), 0)
    else Outcome(e, 0)
  }

  function OnClientKeyExchange(c: Config, w: World, e: Endpoint, m: Message): (r: Outcome)
    requires e.hs.Some?
    ensures Kept(e, r.e)
  {
    if e.state != WaitClientKeyExchange then Unexpected(e)
    else
      var r := CheckClientKeyExchange(w, e, m);
      if r.err < 0 then r else
        Count(Outcome(Exchanged(c, Absorbed(r.e, m)), 0))
  }

  function Exchanged(c: Config, e: Endpoint): Endpoint
    requires e.hs.Some?
  {
    var h := e.hs.value;
    var proof := h.cipher == ECDHE_CIPHER && c.ownKey && c.verifiesKey;
    e.With(h.(trail := h.trail + [KeyExchanged])).In(if proof then WaitCertificateVerify else WaitChangeCipherSpec)
  }

  function OnCertificateVerify(w: World, e: Endpoint, m: Message): (r: Outcome)
    requires e.hs.Some?
    ensures Kept(e, r.e)
  {
    if e.state != WaitCertificateVerify then Unexpected(e)
    else
      var r := Judged(w, e, m);
      if r.err < 0 then Outcome(e, r.err) else Count(Outcome(r.e.In(WaitChangeCipherSpec), 0))
  }

  /** check_finished */
  function CheckFinished(c: Config, e: Endpoint, m: Message): int
    requires e.hs.Some?
  {
    var h := e.hs.value;
    if |m| < 24 then Fatal(HANDSHAKE_FAILURE)
    else if m[12..24] == VerifyData(c.hash, h.tmp[..48], Other(e.role), h.transcript) then 0
    else Fatal(HANDSHAKE_FAILURE)
  }

  /** The server's answer to the client's Finished. */
  function SendServerFinished(c: Config, w: World, e: Endpoint): (r: Outcome)
    requires e.hs.Some?
    ensures r.e.hs.Some? && r.e.known == e.known && r.e.role == e.role
    ensures r.e.hs.value.queue == e.hs.value.queue && r.e.hs.value.ready == e.hs.value.ready
  {
    hide Send, SendFinished;
    var r1 := Send(c, w, e, CHANGE_CIPHER_SPEC, [1]);
    if r1.err < 0 then r1 else SendFinished(c, w, Switched(r1.e))
  }

  /** A good Finished is put on record; a server hashes and answers it. */
  function AnswerFinished(c: Config, w: World, e: Endpoint, m: Message): (r: Outcome)
    requires e.hs.Some? && |m| >= 24
    ensures r.e.hs.Some? && r.e.known == e.known && r.e.role == e.role
    ensures r.e.hs.value.queue == e.hs.value.queue && r.e.hs.value.ready == e.hs.value.ready
  {
    hide SendServerFinished;
    var h := e.hs.value;
    var e1 := e.With(h.(trail := h.trail + [FinishedAccepted(h.tmp[..48], h.transcript, m[12..24], h.mseqR)]));
    if e.role == Server then SendServerFinished(c, w, Absorbed(e1, m)) else Outcome(e1, 0)
  }

  function OnFinished(c: Config, w: World, e: Endpoint, m: Message): (r: Outcome)
    requires e.hs.Some?
    ensures Kept(e, r.e)
  {
    hide AnswerFinished, VerifyData;
    if e.state != WaitFinished then Unexpected(e)
    else if CheckFinished(c, e, m) < 0 then Outcome(e, CheckFinished(c, e, m))
    else
      var r := AnswerFinished(c, w, e, m);
      if r.err < 0 then r else Outcome(Ended(r.e), r.err)
  }

  /** dtls_handshake_free, at the end of a handshake */
  function Ended(e: Endpoint): Endpoint
    requires e.hs.Some?
  {
    var h := e.hs.value;
    e.(hs := None, state := Connected, done := h.trail, doneCrossed := h.crossed, doneWrapped := h.wrapped)
  }

  /** The answer to a ClientHello without a good cookie. */
  function SendHelloVerifyRequest(c: Config, w: World, e: Endpoint, cookie: seq<byte>): (r: Outcome)
    ensures SameBut(e, r.e)
  {
    SendHandshake(c, w, e, 3, BigEndian(VERSION, 2) + [16] + cookie, false)
  }

  /** The peer, with a handshake under way: both made when they are missing. */
  function Admitted(e: Endpoint, m: Message): (r: Endpoint)
    ensures r.known && r.hs.Some? && Kept(e, r)
  {
    var e1 := if e.known then e else NewPeer(e, Server, 1);
    var h := if e1.hs.Some? then e1.hs.value else NewHandshake(MessageSeq(m), 1);
    e1.With(h.(transcript := [], crossed := h.crossed || e1.role == Client))
  }

  /** dtls_update_parameters */
  function UpdateParameters(c: Config, w: World, e: Endpoint, m: Message): (r: Outcome)
    requires e.hs.Some?
    ensures r.e.hs.Some? && r.err <= 0
    ensures r.e == e.With(e.hs.value.(tmp := r.e.hs.value.tmp, cipher := r.e.hs.value.cipher, compression := r.e.hs.value.compression))
  {
    var h := e.hs.value;
    var o := ParseClientHello(Received(w, e, m), c.psk, c.ownKey, e.s0, h.cipher, h.compression, w.overrun(e.clock));
    Outcome(Updated(e, o), OfferVerdict(Received(w, e, m), e.state, o))
  }

  function Updated(e: Endpoint, o: Offer): Endpoint
    requires e.hs.Some?
  {
    e.With(e.hs.value.(tmp := o.random + e.hs.value.tmp[32..], cipher := o.cipher, compression := o.compression))
  }

  /** Whether an offer will do; what is wrong with a renegotiation is only a warning. */
  function OfferVerdict(i: Input, state: State, o: Offer): (err: int)
    ensures err <= 0
  {
    var code: Failure := if state == Connected then NO_RENEGOTIATION else Fatal(HANDSHAKE_FAILURE);
    if !o.ok then code
    else if o.extensions.None? then 0
    else CheckExtensions(i, o.extensions.value.0, o.extensions.value.1, o.cipher, true, code)
  }

  /** A ClientHello whose cookie is good, or is taken to be. */
  function AcceptClientHello(c: Config, w: World, e: Endpoint, m: Message): (r: Outcome)
    ensures Kept(e, r.e)
  {
    hide UpdateParameters, SendServerHelloMessages;
    var r1 := UpdateParameters(c, w, Admitted(e, m), m);
    if r1.err < 0 then r1 else
      var r2 := SendServerHelloMessages(c, w, Absorbed(r1.e, m));
      if r2.err < 0 then r2 else Count(Outcome(HelloAccepted(c, r2.e), 0))
  }

  function HelloAccepted(c: Config, e: Endpoint): Endpoint
    requires e.hs.Some?
  {
    var h := e.hs.value;
    var proof := h.cipher == ECDHE_CIPHER && c.ownKey && c.verifiesKey;
    e.With(h.(trail := h.trail + [HelloExchanged(h.tmp[..32], h.tmp[32..])]))
      .In(if proof then WaitClientCertificate else WaitClientKeyExchange)
  }

  /**
   * When the `write` callback reports 0 for a HelloVerifyRequest, the hello is treated as if its cookie had
   * been good, unless it had none.
   */
  function Challenged(c: Config, w: World, e: Endpoint, m: Message, cookie: seq<byte>, first: bool): (r: Outcome)
    ensures Kept(e, r.e)
  {
    hide SendHelloVerifyRequest, AcceptClientHello;
    var r := SendHelloVerifyRequest(c, w, e, cookie);
    if r.err < 0 then r
    else if r.err > 0 then Count(r)
    else if first then r
    else AcceptClientHello(c, w, r.e, m)
  }

  function OnClientHello(c: Config, w: World, e: Endpoint, m: Message): (r: Outcome)
    ensures Kept(e, r.e)
  {
    hide AcceptClientHello, Challenged, VerifyPeer;
    if e.known && e.state != Connected then Unexpected(e)
    else
      match VerifyPeer(c.hash, c.secret, c.session, Received(w, e, m))
      case Refused(code) => Outcome(e, code)
      case Good => AcceptClientHello(c, w, e, m)
      case Challenge(cookie, first) => Challenged(c, w, e, m, cookie, first)
  }

  function HelloRequested(e: Endpoint): (r: Endpoint)
    ensures r.hs.Some? && r.known == e.known && Kept(e, r)
  {
    var h := if e.hs.Some? then e.hs.value else NewHandshake(0, 0);
    e.With(h.(crossed := h.crossed || e.role == Server))
  }

  function OnHelloRequest(c: Config, w: World, e: Endpoint): (r: Outcome)
    ensures Kept(e, r.e)
  {
    hide SendClientHello;
    if e.state != Connected then Outcome(e, 0)
    else
      var r := SendClientHello(c, w, HelloRequested(e), []);
      if r.err < 0 then r else Count(Outcome(r.e.In(ClientHelloSent), r.err))
  }

  /** handle_handshake lets through: anything during a handshake, the two hellos outside one, only a ClientHello without a peer. */
  predicate LetThrough(e: Endpoint, m: Message) {
    (e.known && e.hs.Some?) || m[0] == 1 || (e.known && m[0] == 0)
  }

  /** handle_handshake_msg */
  function HandleHandshakeMsg(c: Config, w: World, was: Endpoint, m: Message): (r: Outcome)
    requires LetThrough(was, m)
    ensures Kept(was, r.e)
  {
    var e := was.(clock := was.clock + 1);
    if m[0] == 1 then OnClientHello(c, w, e, m)
    else if m[0] == 0 then OnHelloRequest(c, w, e)
    else if m[0] == 3 then OnHelloVerifyRequest(c, w, e, m)
    else if m[0] == 2 then OnServerHello(c, w, e, m)
    else if m[0] == 11 then OnCertificate(w, e, m)
    else if m[0] == 12 then OnServerKeyExchange(w, e, m)
    else if m[0] == 14 then OnServerHelloDone(c, w, e, m)
    else if m[0] == 13 then OnCertificateRequest(w, e, m)
    else if m[0] == 20 then OnFinished(c, w, e, m)
    else if m[0] == 16 then OnClientKeyExchange(c, w, e, m)
    else if m[0] == 15 then OnCertificateVerify(w, e, m)
    else Unexpected(e)
  }

  /** The loop over the reorder queue at the end of handle_handshake. */
  function DrainQueue(c: Config, w: World, e: Endpoint, res: int): (r: Outcome)
    requires e.known
    ensures r.e.known && r.e.role == e.role && (Ready(e) ==> Ready(r.e))
    decreases |Queue(e)|
  {
    if e.hs.None? then Outcome(e, res)
    else
      var h := e.hs.value;
      var i := Find(h.queue, h.mseqR);
      if i == |h.queue| then Outcome(e, res)
      else
        var r := HandleHandshakeMsg(c, w, e.With(h.(queue := Removed(h.queue, i))), h.queue[i]);
        if r.err < 0 then r else DrainQueue(c, w, r.e, r.err)
  }

  /**
   * handle_handshake. Storing an early message in a queue that has not been initialised follows a null pointer;
   * the message is not stored, and what else then happens is not modelled.
   */
  function HandleHandshake(c: Config, w: World, e: Endpoint, data: seq<byte>): (r: Outcome)
    ensures (e.known ==> r.e.known && r.e.role == e.role) && (Ready(e) ==> Ready(r.e))
  {
    if |data| < HS_LENGTH then Outcome(e, Fatal(DECODE_ERROR))
    else
      var m: Message := data;
      if !e.known then
        if m[0] == 1 then HandleHandshakeMsg(c, w, e, m) else Outcome(e, Fatal(HANDSHAKE_FAILURE))
      else if e.hs.None? then
        if m[0] == 1 || m[0] == 0 then HandleHandshakeMsg(c, w, e, m) else Outcome(e, 0)
      else
        var h := e.hs.value;
        if MessageSeq(m) < h.mseqR then Outcome(e, 0)
        else if MessageSeq(m) > h.mseqR then Outcome(if h.ready then e.With(h.(queue := Store(h.queue, m))) else e, 0)
        else
          var r := HandleHandshakeMsg(c, w, e, m);
          if r.err < 0 then r else DrainQueue(c, w, r.e, r.err)
  }

  /** handle_ccs */
  function HandleCcs(c: Config, w: World, e: Endpoint, data: seq<byte>): Outcome {
    if !e.known || e.state != WaitChangeCipherSpec || e.hs.None? then Outcome(e, 0)
    else if |data| < 1 || data[0] != 1 then Outcome(e, Fatal(DECODE_ERROR))
    else
      var r := if e.role == Server then CalculateKeyBlock(c, w, e) else Outcome(e, 0);
      if r.err < 0 then r
      else Outcome(r.e.With(r.e.hs.value.(trail := r.e.hs.value.trail + [CipherChanged])).In(WaitFinished), 0)
  }

  /** handle_alert, and what dtls_handle_message makes of its result */
  function HandleAlert(c: Config, w: World, e: Endpoint, data: seq<byte>): Outcome {
    if |data| < 2 then Outcome(e, Fatal(DECODE_ERROR))
    else if !e.known then Outcome(e, 0)
    else
      var e1 := if data[1] != CLOSE_NOTIFY then e
                else if e.state != Closing then SendAlert(c, w, e.In(Closing), FATAL, CLOSE_NOTIFY)
                else e.In(Closed);
      if data[0] == FATAL || data[1] == CLOSE_NOTIFY then Outcome(Forgotten(e1), -1) else Outcome(e1, 0)
  }

  /** decrypt_verify */
  function DecryptVerify(c: Config, e: Endpoint, record: seq<byte>): Opened
    requires |record| >= HEADER_LENGTH
  {
    match ByEpoch(e.s0, e.s1, EpochOf(record))
    case None => Rejected
    case Some(s) => Unprotect(c.aes, e.role, s, record)
  }

  /** Successful decryption under a cipher frees an older slot 1. */
  function AfterDecrypt(e: Endpoint, record: seq<byte>): Endpoint
    requires |record| >= HEADER_LENGTH
  {
    var s := ByEpoch(e.s0, e.s1, EpochOf(record));
    if s.None? || s.value.cipher == NULL_CIPHER then e else FreedOther(e)
  }

  predicate BeforeConnected(s: State) {
    s != Connected && s != Closing && s != Closed
  }

  /** A record that cannot be read ends a handshake, and is dropped afterwards. */
  function Undecipherable(c: Config, w: World, e: Endpoint): Outcome {
    if BeforeConnected(e.state)
    then Outcome(Forgotten(ReportError(c, w, e, Fatal(DECRYPT_ERROR))), Fatal(DECRYPT_ERROR))
    else Outcome(e, Fatal(DECRYPT_ERROR))
  }

  /** Handshake messages must come in the current epoch; the client's Finished in the next. */
  predicate RightEpoch(e: Endpoint, epoch: uint16) {
    var current: uint16 := if e.s0.Some? then e.s0.value.epoch else 0;
    epoch == if e.role == Server && e.state == WaitFinished then Next(current) else current
  }

  /** The switch of dtls_handle_message; a negative result ends the datagram. */
  function HandlePayload(c: Config, w: World, e: Endpoint, ctype: byte, epoch: uint16, data: seq<byte>): Outcome {
    if ctype == CHANGE_CIPHER_SPEC then
      var r := HandleCcs(c, w, e, data);
      if r.err < 0 then Outcome(Destroyed(c, w, ReportError(c, w, r.e, r.err)), r.err) else r
    else if ctype == ALERT then HandleAlert(c, w, e, data)
    else if ctype == HANDSHAKE then
      if e.known && !RightEpoch(e, epoch) then Outcome(e, 0)
      else
        var r := HandleHandshake(c, w, e, data);
        if r.err < 0 then Outcome(ReportError(c, w, r.e, r.err), r.err) else r
    else if ctype == APPLICATION_DATA && !e.known then Outcome(e, -1)
    else Outcome(e, 0)
  }

  /** One round of the loop of dtls_handle_message. */
  function HandleRecord(c: Config, w: World, was: Endpoint, record: seq<byte>): Outcome
    requires |record| >= HEADER_LENGTH
  {
    var e := was.(clock := was.clock + 1);
    if !e.known then HandlePayload(c, w, e, record[0], EpochOf(record), record[13..])
    else
      match DecryptVerify(c, e, record)
      case Rejected => Undecipherable(c, w, e)
      case Accepted(data) => HandlePayload(c, w, AfterDecrypt(e, record), record[0], EpochOf(record), data)
  }

  /** dtls_handle_message, up to the record that makes the peer known. */
  function HandleMessage(c: Config, w: World, e: Endpoint, msg: seq<byte>): Outcome
    decreases |msg|
  {
    var n := RecordLength(msg);
    if n == 0 then Outcome(e, 0)
    else
      var r := HandleRecord(c, w, e, msg[..n]);
      if r.err < 0 then r
      else if r.e.known && !e.known then Outcome(r.e, 0)
      else HandleMessage(c, w, r.e, msg[n..])
  }

  // ---------------------------------------------------------------- calls of the application

  /** dtls_renegotiate, which does not initialise the reorder queue */
  function Renegotiate(c: Config, w: World, e: Endpoint): Outcome {
    if !e.known || e.state != Connected then Outcome(e, -1)
    else
      var e1 := e.With(NewHandshake(0, 0).(ready := false));
      if e.role == Client then
        var r := SendClientHello(c, w, e1, []);
        if r.err < 0 then r else Outcome(r.e.In(ClientHelloSent), r.err)
      else SendHandshake(c, w, e1, 0, [], false)
  }

  /** dtls_connect */
  function Connect(c: Config, w: World, e: Endpoint): Outcome {
    if e.known then Renegotiate(c, w, e)
    else
      var r := SendClientHello(c, w, NewPeer(e, Client, 0).With(NewHandshake(0, 0)), []);
      if r.err < 0 then r else Outcome(r.e.In(ClientHelloSent), r.err)
  }

  /** dtls_write */
  function Write(c: Config, w: World, e: Endpoint, data: seq<byte>): Outcome {
    if !e.known then
      var r := Connect(c, w, e);
      Outcome(r.e, if r.err >= 0 then 0 else r.err)
    else if e.state != Connected then Outcome(e, 0)
    else Send(c, w, e, APPLICATION_DATA, data)
  }

  /** dtls_close */
  function Close(c: Config, w: World, e: Endpoint): Outcome {
    if !e.known then Outcome(e, -1)
    else Outcome(SendAlert(c, w, e, FATAL, CLOSE_NOTIFY).In(Closing), 0)
  }

  /** The sending half of dtls_retransmit, for a node of the given epoch. */
  function Resend(c: Config, w: World, e: Endpoint, epoch: uint16, ctype: byte, payload: seq<byte>): Outcome {
    if !e.known then Outcome(e, 0)
    else
      var s := ByEpoch(e.s0, e.s1, epoch);
      var e1 := if e.s0.Some? && e.s0.value.epoch == epoch then e.(s0 := Bumped(e.s0))
                else if e.s1.Some? && e.s1.value.epoch == epoch then e.(s1 := Bumped(e.s1)) else e;
      Transmit(c, w, e1, s, ctype, payload)
  }

  datatype Event =
    | Arrives(msg: seq<byte>)
    | Connects
    | Renegotiates
    | Writes(data: seq<byte>)
    | Closes
    | Resends(epoch: uint16, ctype: byte, payload: seq<byte>)

  function Step(c: Config, w: World, e: Endpoint, v: Event): Endpoint {
    match v
    case Arrives(msg) => HandleMessage(c, w, e, msg).e
    case Connects => Connect(c, w, e).e
    case Renegotiates => Renegotiate(c, w, e).e
    case Writes(data) => Write(c, w, e, data).e
    case Closes => Close(c, w, e).e
    case Resends(epoch, ctype, payload) => Resend(c, w, e, epoch, ctype, payload).e
  }

  /** What becomes of an endpoint over a sequence of events. */
  function RunFrom(c: Config, w: World, e: Endpoint, vs: seq<Event>): Endpoint {
    if vs == [] then e else Step(c, w, RunFrom(c, w, e, vs[..|vs| - 1]), vs[|vs| - 1])
  }

  function Run(c: Config, w: World, vs: seq<Event>): Endpoint {
    RunFrom(c, w, NOBODY, vs)
  }
}

/** ClientHello, HelloVerifyRequest and the cookie: sections 4.2.1 and 4.2.2 of RFC 6347. */
module Hello {
  import opened Bytes
  import opened Prf
  import opened Peers

  type Random = r: seq<byte> | |r| == 32 witness Zeros(32)

  /** Received octets, and the memory behind them. */
  datatype Input = Input(data: seq<byte>, stale: nat -> byte)

  function Octet(m: Input, i: nat): byte { At(m.data, m.stale, i) }

  function Octets2(m: Input, i: nat): (v: uint16) { 256 * Octet(m, i) + Octet(m, i + 1) }

  function Octets3(m: Input, i: nat): nat { 0x1_0000 * Octet(m, i) + 256 * Octet(m, i + 1) + Octet(m, i + 2) }

  function Range(m: Input, from: nat, n: nat): (s: seq<byte>)
    ensures |s| == n
    decreases n
  {
    if n == 0 then [] else [Octet(m, from)] + Range(m, from + 1, n - 1)
  }

  lemma {:induction false} RangeInside(m: Input, from: nat, n: nat)
    requires from + n <= |m.data|
    ensures Range(m, from, n) == m.data[from..from + n]
    decreases n
  {
    if n > 0 { RangeInside(m, from + 1, n - 1); }
  }

  const CLIENT_HELLO_FIXED: nat := 34

  /** dtls_handshake_header_t of an unfragmented message. */
  function HandshakeHeader(kind: byte, length: nat, mseq: uint16): (h: seq<byte>)
    ensures |h| == HS_LENGTH
  {
    [kind] + BigEndian(length, 3) + BigEndian(mseq, 2) + BigEndian(0, 3) + BigEndian(length, 3)
  }

  // ---------------------------------------------------------------- the cookie

  /** The octets dtls_create_cookie feeds to the HMAC: address, ClientHello up to the session id, and what follows the cookie. */
  function CookieText(session: seq<byte>, m: Input): Option<seq<byte>> {
    var e1 := CLIENT_HELLO_FIXED + Octet(m, HS_LENGTH + CLIENT_HELLO_FIXED) + 1;
    if e1 + HS_LENGTH > |m.data| then None
    else
      var e2 := e1 + Octet(m, HS_LENGTH + e1) + 1;
      if e2 + HS_LENGTH > |m.data| then None
      else Some(session + Range(m, HS_LENGTH, e1) + Range(m, HS_LENGTH + e2, SizeT(Octets3(m, 9) - e2)))
  }

  /** dtls_create_cookie with room for 16 octets. */
  function Cookie(h: Hash, secret: seq<byte>, text: seq<byte>): (c: seq<byte>)
    ensures |c| == 16
  {
    Hmac(h, secret, text)[..16]
  }

  /** dtls_create_cookie, feeding the HMAC piece by piece. */
  method CreateCookie(h: Hash, secret: seq<byte>, session: seq<byte>, m: Input) returns (cookie: Option<seq<byte>>)
    ensures cookie == match CookieText(session, m) case None => None case Some(text) => Some(Cookie(h, secret, text))
  {
    hide Range, Hmac, Octets3;
    var context := new HmacContext();
    context.Init(h, secret);
    context.Update(h, secret, [], session);
    assert [] + session == session;
    var e := CLIENT_HELLO_FIXED;
    e := e + Octet(m, HS_LENGTH + e) + 1;
    if e + HS_LENGTH > |m.data| { return None; }
    var first := Range(m, HS_LENGTH, e);
    context.Update(h, secret, session, first);
    e := e + Octet(m, HS_LENGTH + e);
    e := e + 1;
    if e + HS_LENGTH > |m.data| { return None; }
    var rest := Range(m, HS_LENGTH + e, SizeT(Octets3(m, 9) - e));
    context.Update(h, secret, session + first, rest);
    var digest := context.Finalize(h, secret, session + first + rest);
    cookie := Some(digest[..16]);
  }

  /** dtls_get_cookie */
  function CookieField(m: Input): Option<seq<byte>> {
    if |m.data| < HS_LENGTH + CLIENT_HELLO_FIXED + 1 then None
    else if Octets2(m, HS_LENGTH) != VERSION then None
    else
      var left := |m.data| - (HS_LENGTH + CLIENT_HELLO_FIXED);
      var sid := Octet(m, 46) + 1;
      if left < sid then None
      else if left - sid < Octet(m, 46 + sid) + 1 then None
      else Some(Range(m, 46 + sid + 1, Octet(m, 46 + sid)))
  }

  datatype Verdict = Refused(code: int) | Good | Challenge(cookie: seq<byte>, first: bool)

  /**
   * The decision of dtls_verify_peer. When the cookie field cannot be read, the code returned is that of the
   * cookie computation, which succeeded.
   */
  function VerifyPeer(h: Hash, secret: seq<byte>, session: seq<byte>, m: Input): Verdict {
    match CookieText(session, m)
    case None => Refused(Fatal(HANDSHAKE_FAILURE))
    case Some(text) =>
      var mine := Cookie(h, secret, text);
      match CookieField(m)
      case None => Good
      case Some(c) => if c == mine then Good else Challenge(mine, c == [])
  }

  /** The same, with the cookie computed piece by piece. */
  method CheckCookie(h: Hash, secret: seq<byte>, session: seq<byte>, m: Input) returns (v: Verdict)
    ensures v == VerifyPeer(h, secret, session, m)
  {
    hide CookieText, CookieField, Cookie;
    var mine := CreateCookie(h, secret, session, m);
    if mine.None? { return Refused(Fatal(HANDSHAKE_FAILURE)); }
    var cookie := CookieField(m);
    if cookie.None? || cookie.value == mine.value { return Good; }
    v := Challenge(mine.value, cookie.value == []);
  }

  /** A ClientHello with any session id, cookie and remainder, and a correct fragment length. */
  function ClientHello(mseq: uint16, version: uint16, random: Random, sid: seq<byte>, cookie: seq<byte>, rest: seq<byte>): (s: seq<byte>)
    requires |sid| < 256 && |cookie| < 256
    ensures |s| == HS_LENGTH + CLIENT_HELLO_FIXED + 2 + |sid| + |cookie| + |rest|
  {
    HandshakeHeader(1, CLIENT_HELLO_FIXED + 2 + |sid| + |cookie| + |rest|, mseq)
      + (BigEndian(version, 2) + random + [|sid|] + sid) + ([|cookie|] + cookie) + rest
  }

  lemma ThreeOctets(n: nat)
    requires n < 0x100_0000
    ensures BigEndian(n, 3) == [n / 0x1_0000, n / 256 % 256, n % 256]
  {
    assert BigEndian(n / 0x1_0000, 1) == [n / 0x1_0000] by { assert BigEndian(n / 0x1_0000 / 256, 0) == []; }
    assert n / 256 / 256 == n / 0x1_0000;
    assert BigEndian(n / 256, 2) == [n / 0x1_0000, n / 256 % 256];
  }

  lemma Sum3(n: nat)
    requires n < 0x100_0000
    ensures 0x1_0000 * (n / 0x1_0000) + 256 * (n / 256 % 256) + n % 256 == n
  {
  }

  /** Slices of a string in four parts. */
  lemma FourParts(h: seq<byte>, a: seq<byte>, b: seq<byte>, r: seq<byte>)
    ensures var s := h + a + b + r; var i, j := |h| + |a|, |h| + |a| + |b|;
      && s[..|h|] == h && s[|h|..i] == a && s[i..j] == b && s[j..] == r
  {
  }

  lemma SliceOf(s: seq<byte>, t: seq<byte>, from: nat, a: nat, b: nat)
    requires from + |t| <= |s| && s[from..from + |t|] == t && a <= b <= |t|
    ensures s[from + a..from + b] == t[a..b]
    ensures a < b ==> s[from + a] == t[a]
  {
    var u := s[from..from + |t|];
    forall k | a <= k < b ensures s[from + a..from + b][k - a] == t[k] { assert u[k] == s[from + k]; }
    assert a < b ==> u[a] == s[from + a];
  }

  lemma HeaderLayout(kind: byte, length: nat, mseq: uint16)
    ensures var h := HandshakeHeader(kind, length, mseq);
      h[0] == kind && h[4..6] == BigEndian(mseq, 2) && h[9..12] == BigEndian(length, 3)
  {
    hide BigEndian;
  }

  lemma FirstPart(version: uint16, random: Random, sid: seq<byte>)
    requires |sid| < 256
    ensures var a := BigEndian(version, 2) + random + [|sid|] + sid;
      |a| == 35 + |sid| && a[0..2] == BigEndian(version, 2) && a[2..34] == random && a[34] == |sid|
  {
    hide BigEndian;
  }

  /** Where the fields of a ClientHello are found. */
  lemma ClientHelloLayout(mseq: uint16, version: uint16, random: Random, sid: seq<byte>, cookie: seq<byte>, rest: seq<byte>)
    requires |sid| < 256 && |cookie| < 256
    ensures var s := ClientHello(mseq, version, random, sid, cookie, rest); var i := 47 + |sid|;
      && s[12..i] == BigEndian(version, 2) + random + [|sid|] + sid
      && s[46] == |sid| && s[i] == |cookie|
      && s[i + 1..i + 1 + |cookie|] == cookie && s[i + 1 + |cookie|..] == rest
      && s[14..46] == random && s[12..14] == BigEndian(version, 2)
      && s[9..12] == BigEndian(36 + |sid| + |cookie| + |rest|, 3)
      && s[4..6] == BigEndian(mseq, 2) && s[0] == 1
  {
    hide BigEndian, ClientHello;
    HeaderFields(mseq, version, random, sid, cookie, rest);
    BodyFields(mseq, version, random, sid, cookie, rest);
  }

  lemma HeaderFields(mseq: uint16, version: uint16, random: Random, sid: seq<byte>, cookie: seq<byte>, rest: seq<byte>)
    requires |sid| < 256 && |cookie| < 256
    ensures var s := ClientHello(mseq, version, random, sid, cookie, rest);
      s[9..12] == BigEndian(36 + |sid| + |cookie| + |rest|, 3) && s[4..6] == BigEndian(mseq, 2) && s[0] == 1
  {
    hide BigEndian, HandshakeHeader, ClientHello;
    var tail := HeaderFirst(mseq, version, random, sid, cookie, rest);
    HeaderOf(1, 36 + |sid| + |cookie| + |rest|, mseq, tail);
  }

  lemma HeaderFirst(mseq: uint16, version: uint16, random: Random, sid: seq<byte>, cookie: seq<byte>, rest: seq<byte>)
    returns (tail: seq<byte>)
    requires |sid| < 256 && |cookie| < 256
    ensures ClientHello(mseq, version, random, sid, cookie, rest) == HandshakeHeader(1, 36 + |sid| + |cookie| + |rest|, mseq) + tail
  {
    hide BigEndian, HandshakeHeader;
    tail := (BigEndian(version, 2) + random + [|sid|] + sid) + ([|cookie|] + cookie) + rest;
  }

  lemma HeaderOf(kind: byte, n: nat, mseq: uint16, tail: seq<byte>)
    ensures var s := HandshakeHeader(kind, n, mseq) + tail;
      s[9..12] == BigEndian(n, 3) && s[4..6] == BigEndian(mseq, 2) && s[0] == kind
  {
    hide BigEndian, HandshakeHeader;
    HeaderLayout(kind, n, mseq);
    var h := HandshakeHeader(kind, n, mseq);
    assert (h + tail)[..12] == h;
    Prefix12(h + tail, h);
  }

  lemma BodyFields(mseq: uint16, version: uint16, random: Random, sid: seq<byte>, cookie: seq<byte>, rest: seq<byte>)
    requires |sid| < 256 && |cookie| < 256
    ensures var s := ClientHello(mseq, version, random, sid, cookie, rest); var i := 47 + |sid|;
      && s[12..i] == BigEndian(version, 2) + random + [|sid|] + sid
      && s[46] == |sid| && s[i] == |cookie|
      && s[i + 1..i + 1 + |cookie|] == cookie && s[i + 1 + |cookie|..] == rest
      && s[14..46] == random && s[12..14] == BigEndian(version, 2)
  {
    hide BigEndian, HandshakeHeader, ClientHello;
    ClientHelloParts(mseq, version, random, sid, cookie, rest);
    FirstPart(version, random, sid);
    Layout(ClientHello(mseq, version, random, sid, cookie, rest), HandshakeHeader(1, 36 + |sid| + |cookie| + |rest|, mseq),
           BigEndian(version, 2) + random + [|sid|] + sid, cookie, rest);
  }

  /** The same for any header and first part. */
  lemma Layout(s: seq<byte>, h: seq<byte>, a: seq<byte>, cookie: seq<byte>, rest: seq<byte>)
    requires |h| == 12 && |a| >= 35 && |cookie| < 256 && s == h + a + ([|cookie|] + cookie) + rest
    ensures var i := 12 + |a|;
      && |s| == i + 1 + |cookie| + |rest| && s[12..i] == a && s[i] as nat == |cookie|
      && s[i + 1..i + 1 + |cookie|] == cookie && s[i + 1 + |cookie|..] == rest
      && s[0] == h[0] && s[4..6] == h[4..6] && s[9..12] == h[9..12]
      && s[12..14] == a[0..2] && s[14..46] == a[2..34] && s[46] == a[34]
  {
    var b := [|cookie|] + cookie;
    FourParts(h, a, b, rest);
    Prefix12(s, h);
    FirstFields(s, a);
    CookiePart(s, b, 12 + |a|, cookie);
  }

  lemma ClientHelloParts(mseq: uint16, version: uint16, random: Random, sid: seq<byte>, cookie: seq<byte>, rest: seq<byte>)
    requires |sid| < 256 && |cookie| < 256
    ensures ClientHello(mseq, version, random, sid, cookie, rest)
      == HandshakeHeader(1, 36 + |sid| + |cookie| + |rest|, mseq) + (BigEndian(version, 2) + random + [|sid|] + sid)
         + ([|cookie|] + cookie) + rest
  {
    hide BigEndian, HandshakeHeader;
  }

  lemma Prefix12(s: seq<byte>, h: seq<byte>)
    requires |h| == 12 <= |s| && s[..12] == h
    ensures s[0] == h[0] && s[4..6] == h[4..6] && s[9..12] == h[9..12]
  {
    SliceOf(s, h, 0, 0, 12);
    SliceOf(s, h, 0, 4, 6);
    SliceOf(s, h, 0, 9, 12);
  }

  lemma FirstFields(s: seq<byte>, a: seq<byte>)
    requires |a| >= 35 && 12 + |a| <= |s| && s[12..12 + |a|] == a
    ensures s[12..14] == a[0..2] && s[14..46] == a[2..34] && s[46] == a[34]
  {
    SliceOf(s, a, 12, 0, 2);
    SliceOf(s, a, 12, 2, 34);
    SliceOf(s, a, 12, 34, 35);
  }

  lemma CookiePart(s: seq<byte>, b: seq<byte>, i: nat, cookie: seq<byte>)
    requires |cookie| < 256 && b == [|cookie|] + cookie && i + |b| <= |s| && s[i..i + |b|] == b
    ensures s[i] as nat == |cookie| && s[i + 1..i + 1 + |cookie|] == cookie
  {
    SliceOf(s, b, i, 0, 1);
    SliceOf(s, b, i, 1, 1 + |cookie|);
  }

  lemma CookieTextOf(mseq: uint16, version: uint16, random: Random, sid: seq<byte>, cookie: seq<byte>, rest: seq<byte>,
                     session: seq<byte>, stale: nat -> byte)
    requires |sid| < 256 && |cookie| < 256 && 36 + |sid| + |cookie| + |rest| < 0x100_0000
    ensures CookieText(session, Input(ClientHello(mseq, version, random, sid, cookie, rest), stale))
         == Some(session + (BigEndian(version, 2) + random + [|sid|] + sid) + rest)
  {
    ClientHelloLayout(mseq, version, random, sid, cookie, rest);
    hide BigEndian, ClientHello, CookieText;
    CookieTextFrom(session, Input(ClientHello(mseq, version, random, sid, cookie, rest), stale),
                   BigEndian(version, 2) + random + [|sid|] + sid, |cookie|, rest);
  }

  /** `a` is the hello up to its session id, `c` the length of its cookie. */
  lemma CookieTextFrom(session: seq<byte>, m: Input, a: seq<byte>, c: nat, rest: seq<byte>)
    requires |m.data| == 13 + |a| + c + |rest| && 1 + |a| + c + |rest| < 0x100_0000
    requires |a| >= 35 && m.data[12..12 + |a|] == a && |a| == 35 + m.data[46] as nat
    requires m.data[12 + |a|] as nat == c && m.data[13 + |a| + c..] == rest
    requires m.data[9..12] == BigEndian(1 + |a| + c + |rest|, 3)
    ensures CookieText(session, m) == Some(session + a + rest)
  {
    hide BigEndian, Range, Octets3, CookieText;
    FragmentLength(m, 1 + |a| + c + |rest|);
    CookieTextIs(session, m, |a|, |a| + 1 + c, 1 + |a| + c + |rest|);
    RangeInside(m, 12, |a|);
    RangeInside(m, 13 + |a| + c, |rest|);
    assert m.data[13 + |a| + c..13 + |a| + c + |rest|] == rest;
  }

  lemma CookieTextIs(session: seq<byte>, m: Input, e1: nat, e2: nat, n: nat)
    requires e1 == 35 + Octet(m, 46) && e2 == e1 + Octet(m, 12 + e1) + 1 && 12 + e2 <= |m.data|
    requires Octets3(m, 9) == n && e2 <= n < 0x100_0000
    ensures CookieText(session, m) == Some(session + Range(m, 12, e1) + Range(m, 12 + e2, n - e2))
  {
    hide Range, Octets3;
  }

  lemma FragmentLength(m: Input, n: nat)
    requires |m.data| >= 12 && n < 0x100_0000 && m.data[9..12] == BigEndian(n, 3)
    ensures Octets3(m, 9) == n
  {
    ThreeOctets(n);
    Sum3(n);
    var t := m.data[9..12];
    assert t[0] == m.data[9] && t[1] == m.data[10] && t[2] == m.data[11];
  }

  lemma CookieFieldOf(mseq: uint16, random: Random, sid: seq<byte>, cookie: seq<byte>, rest: seq<byte>, stale: nat -> byte)
    requires |sid| < 256 && |cookie| < 256
    ensures CookieField(Input(ClientHello(mseq, VERSION, random, sid, cookie, rest), stale)) == Some(cookie)
  {
    var s := ClientHello(mseq, VERSION, random, sid, cookie, rest);
    var m := Input(s, stale);
    ClientHelloLayout(mseq, VERSION, random, sid, cookie, rest);
    TwoBytes(VERSION);
    var t := s[12..14];
    assert t[0] == s[12] && t[1] == s[13];
    RangeInside(m, 48 + |sid|, |cookie|);
    hide BigEndian, ClientHello, Range;
  }

  /**
   * The cookie of a ClientHello does not depend on its cookie field. So a ClientHello of this version is
   * good exactly when it carries the cookie, is otherwise answered with that cookie, and the same hello
   * carrying it is good, whatever its message number.
   */
  lemma CookieExchangeCloses(h: Hash, secret: seq<byte>, session: seq<byte>, m1: uint16, m2: uint16, random: Random,
                             sid: seq<byte>, cookie: seq<byte>, rest: seq<byte>, stale: nat -> byte)
    requires |sid| < 256 && |cookie| < 256 && 36 + |sid| + 256 + |rest| < 0x100_0000
    ensures var mine := Cookie(h, secret, session + (BigEndian(VERSION, 2) + random + [|sid|] + sid) + rest);
      && VerifyPeer(h, secret, session, Input(ClientHello(m1, VERSION, random, sid, cookie, rest), stale))
         == (if cookie == mine then Good else Challenge(mine, cookie == []))
      && VerifyPeer(h, secret, session, Input(ClientHello(m2, VERSION, random, sid, mine, rest), stale)) == Good
  {
    var mine := Cookie(h, secret, session + (BigEndian(VERSION, 2) + random + [|sid|] + sid) + rest);
    CookieTextOf(m1, VERSION, random, sid, cookie, rest, session, stale);
    CookieFieldOf(m1, random, sid, cookie, rest, stale);
    CookieTextOf(m2, VERSION, random, sid, mine, rest, session, stale);
    CookieFieldOf(m2, random, sid, mine, rest, stale);
    hide BigEndian, ClientHello, CookieText, CookieField, Cookie;
  }

  /** The bounds dtls_create_cookie checks are those of dtls_get_cookie: once there is a cookie, only another version hides the field. */
  lemma FieldUnreadable(session: seq<byte>, m: Input)
    ensures CookieText(session, m).Some? ==> (CookieField(m).None? <==> Octets2(m, 12) != VERSION)
  {
    hide Range, Octets2;
  }

  /**
   * Exactly which messages pass for hellos with a good cookie: of those long enough, the ones that carry it, and
   * every one whose version is not DTLS 1.2, with any cookie or none.
   */
  lemma GoodExactly(h: Hash, secret: seq<byte>, session: seq<byte>, m: Input)
    ensures VerifyPeer(h, secret, session, m) == Good <==>
      (var t := CookieText(session, m);
       t.Some? && (Octets2(m, 12) != VERSION || CookieField(m) == Some(Cookie(h, secret, t.value))))
  {
    FieldUnreadable(session, m);
    hide CookieText, CookieField, Cookie, Octets2;
  }

  /** A hello of another version is never challenged, whatever it carries as a cookie. */
  lemma OtherVersionIsGood(h: Hash, secret: seq<byte>, session: seq<byte>, mseq: uint16, version: uint16, random: Random,
                           sid: seq<byte>, cookie: seq<byte>, rest: seq<byte>, stale: nat -> byte)
    requires |sid| < 256 && |cookie| < 256 && 36 + |sid| + |cookie| + |rest| < 0x100_0000 && version != VERSION
    ensures VerifyPeer(h, secret, session, Input(ClientHello(mseq, version, random, sid, cookie, rest), stale)) == Good
  {
    hide BigEndian, ClientHello, CookieText, CookieField, Cookie, VerifyPeer;
    var m := Input(ClientHello(mseq, version, random, sid, cookie, rest), stale);
    CookieTextOf(mseq, version, random, sid, cookie, rest, session, stale);
    ClientHelloLayout(mseq, version, random, sid, cookie, rest);
    TwoBytes(version);
    var v := m.data[12..14];
    assert v[0] == m.data[12] && v[1] == m.data[13];
    assert Octets2(m, 12) == version;
    GoodExactly(h, secret, session, m);
  }

  // ---------------------------------------------------------------- ClientHello, printed and parsed

  /** The suites a client offers, in the order it writes them. */
  function Suites(psk: bool, ecdsa: bool): seq<uint16> {
    (if ecdsa then [ECDHE_CIPHER] else []) + (if psk then [PSK_CIPHER] else [])
  }

  function SuiteOctets(suites: seq<uint16>): (s: seq<byte>)
    ensures |s| == 2 * |suites|
  {
    if suites == [] then [] else BigEndian(suites[0], 2) + SuiteOctets(suites[1..])
  }

  /** Certificate types, curves and point formats, sent with ECDHE-ECDSA only. */
  function Extensions(ecdsa: bool): seq<byte> {
    if ecdsa then [0, 26, 0, 19, 0, 2, 1, 2, 0, 20, 0, 2, 1, 2, 0, 10, 0, 4, 0, 2, 0, 23, 0, 11, 0, 2, 1, 0] else []
  }

  /** What follows the cookie: suites, the null compression method, extensions. */
  function HelloTail(psk: bool, ecdsa: bool): seq<byte> {
    BigEndian(2 * |Suites(psk, ecdsa)|, 2) + SuiteOctets(Suites(psk, ecdsa)) + [1, 0] + Extensions(ecdsa)
  }

  /** The body dtls_send_client_hello writes. */
  function ClientHelloBody(psk: bool, ecdsa: bool, random: Random, cookie: seq<byte>): seq<byte>
    requires |cookie| < 256
  {
    BigEndian(VERSION, 2) + random + [0] + [|cookie|] + cookie + HelloTail(psk, ecdsa)
  }

  /** known_cipher */
  predicate Known(psk: bool, ecdsa: bool, code: uint16) {
    (psk && code == PSK_CIPHER) || (ecdsa && code == ECDHE_CIPHER)
  }

  /** What dtls_update_parameters leaves in the handshake parameters; `extensions` is where the octets still to be checked are, and how many. */
  datatype Offer = Offer(random: Random, cipher: uint16, compression: byte, ok: bool, extensions: Option<(nat, nat)>)

  /** SKIP_VAR_FIELD on a field with a one-octet length: position and octets left, or None. */
  function Skip(m: Input, p: nat, left: nat): Option<(nat, nat)> {
    var n := Octet(m, p) + 1;
    if left < n then None else Some((p + n, left - n))
  }

  /**
   * The search over a suite list of `n` octets at `p`. A list of odd length makes the loop run past its end,
   * until it meets a known suite in the memory behind: `overrun` is that suite.
   */
  function Pick(m: Input, p: nat, n: nat, psk: bool, ecdsa: bool, overrun: uint16): Option<uint16>
    decreases n
  {
    if n == 0 then None
    else if Known(psk, ecdsa, Octets2(m, p)) then Some(Octets2(m, p))
    else if n == 1 then if Known(psk, ecdsa, overrun) then Some(overrun) else None
    else Pick(m, p + 2, n - 2, psk, ecdsa, overrun)
  }

  /** The search itself: `i` octets are left, and stay odd once they are. */
  method PickCipher(m: Input, start: nat, n: nat, psk: bool, ecdsa: bool, overrun: uint16) returns (ok: bool, cipher: uint16)
    ensures Pick(m, start, n, psk, ecdsa, overrun) == if ok then Some(cipher) else None
  {
    var i, p := n, start;
    ok, cipher := false, NULL_CIPHER;
    while i > 0 && !ok
      invariant i >= 0
      invariant !ok ==> Pick(m, start, n, psk, ecdsa, overrun) == Pick(m, p, i, psk, ecdsa, overrun)
      invariant ok ==> Pick(m, start, n, psk, ecdsa, overrun) == Some(cipher)
      decreases i, !ok
    {
      cipher := Octets2(m, p);
      ok := Known(psk, ecdsa, cipher);
      if i == 1 && !ok {
        return Known(psk, ecdsa, overrun), overrun;
      }
      if !ok { i, p := i - 2, p + 2; }
    }
  }

  /** Whether one of `n` octets at `p` is `v`: a list of compression methods, certificate types or point formats. */
  predicate Offers(m: Input, p: nat, n: nat, v: byte)
    decreases n
  {
    n > 0 && (Octet(m, p) == v || Offers(m, p + 1, n - 1, v))
  }

  /** The search for it. */
  method FindOctet(m: Input, start: nat, n: nat, v: byte) returns (ok: bool)
    ensures ok == Offers(m, start, n, v)
  {
    var i, p := n, start;
    ok := false;
    while i > 0 && !ok
      invariant i >= 0
      invariant Offers(m, start, n, v) == (ok || Offers(m, p, i, v))
    {
      ok := Octet(m, p) == v;
      i, p := i - 1, p + 1;
    }
  }

  function ParseClientHello(m: Input, psk: bool, ecdsa: bool, current: Option<Security>,
                            cipher: uint16, compression: byte, overrun: uint16): Offer
  {
    var random := Range(m, 14, 32);
    var bad := Offer(random, cipher, compression, false, None);
    match Skip(m, 46, SizeT(|m.data| - 46))
    case None => bad
    case Some((p1, l1)) =>
      match Skip(m, p1, l1)
      case None => bad
      case Some((p2, l2)) => ParseSuites(m, p2, l2, random, psk, ecdsa, current, cipher, compression, overrun)
  }

  function ParseSuites(m: Input, p: nat, left: nat, random: Random, psk: bool, ecdsa: bool, current: Option<Security>,
                       cipher: uint16, compression: byte, overrun: uint16): Offer
  {
    var n := Octets2(m, p);
    if left < n + 2 then
      if current.None? || current.value.cipher == NULL_CIPHER then Offer(random, cipher, compression, false, None)
      else Offer(random, current.value.cipher, current.value.compression, true, None)
    else
      match Pick(m, p + 2, n, psk, ecdsa, overrun)
      case None => Offer(random, NULL_CIPHER, compression, false, None)
      case Some(c) => ParseCompression(m, p + 2 + n, left - 2 - n, random, c, current, compression)
  }

  function ParseCompression(m: Input, p: nat, left: nat, random: Random, cipher: uint16, current: Option<Security>,
                            compression: byte): Offer
  {
    if left < 1 then Offer(random, cipher, if current.Some? then current.value.compression else 0, true, None)
    else
      var n := Octet(m, p);
      if left < n + 1 || !Offers(m, p + 1, n, 0) then Offer(random, cipher, compression, false, None)
      else Offer(random, cipher, 0, true, Some((p + 1 + n, left - 1 - n)))
  }

  /** The parsing half of dtls_update_parameters, with a moving position and a remaining length. */
  method ReadClientHello(m: Input, psk: bool, ecdsa: bool, current: Option<Security>, cipher: uint16, compression: byte, overrun: uint16)
    returns (o: Offer)
    ensures o == ParseClientHello(m, psk, ecdsa, current, cipher, compression, overrun)
  {
    hide Range, Octet, Octets2, SizeT, Pick, Offers;
    o := Offer(Range(m, 14, 32), cipher, compression, false, None);
    var p, left := 46, SizeT(|m.data| - 46);
    if left < Octet(m, p) + 1 { return; }
    p, left := p + Octet(m, p) + 1, left - Octet(m, p) - 1;
    if left < Octet(m, p) + 1 { return; }
    p, left := p + Octet(m, p) + 1, left - Octet(m, p) - 1;
    var i: nat := Octets2(m, p);
    if left < i + 2 {
      if current.None? || current.value.cipher == NULL_CIPHER { return; }
      return o.(cipher := current.value.cipher, compression := current.value.compression, ok := true);
    }
    p, left := p + 2, left - 2 - i;
    var ok, found := PickCipher(m, p, i, psk, ecdsa, overrun);
    p := p + i;
    if !ok { return o.(cipher := NULL_CIPHER); }
    if left < 1 {
      return o.(cipher := found, compression := if current.Some? then current.value.compression else 0, ok := true);
    }
    var n: nat := Octet(m, p);
    if left < n + 1 { return o.(cipher := found); }
    p, left := p + 1, left - 1 - n;
    ok := FindOctet(m, p, n, 0);
    if !ok { return o.(cipher := found); }
    o := o.(cipher := found, compression := 0, ok := true, extensions := Some((p + n, left)));
  }

  // ---------------------------------------------------------------- extensions

  const ELLIPTIC_CURVES: uint16 := 10
  const EC_POINT_FORMATS: uint16 := 11
  const CLIENT_CERTIFICATE_TYPE: uint16 := 19
  const SERVER_CERTIFICATE_TYPE: uint16 := 20
  const SECP256R1: uint16 := 23
  const RAW_PUBLIC_KEY: byte := 2

  /** Which of the extensions ECDHE-ECDSA needs have been met. */
  datatype Seen = Seen(curves: bool, clientType: bool, serverType: bool, points: bool)
  {
    function With(kind: uint16): Seen {
      Seen(curves || kind == ELLIPTIC_CURVES, clientType || kind == CLIENT_CERTIFICATE_TYPE,
           serverType || kind == SERVER_CERTIFICATE_TYPE, points || kind == EC_POINT_FORMATS)
    }

    predicate Suffices(hello: bool) { clientType && serverType && (hello ==> curves && points) }
  }

  const NOTHING_SEEN: Seen := Seen(false, false, false, false)

  /** Whether secp256r1 is in a list of `n` octets at `p`; a list of odd length is read one octet too far. */
  predicate OffersCurve(m: Input, p: nat, n: int)
    decreases n
  {
    n > 0 && (Octets2(m, p) == SECP256R1 || OffersCurve(m, p + 2, n - 2))
  }

  /** verify_ext_cert_type and verify_ext_ec_point_formats: a one-octet length that fills the body, and `v` in the list. */
  predicate ListOk(m: Input, p: nat, n: nat, v: byte) {
    Octet(m, p) + 1 == n && Offers(m, p + 1, n - 1, v)
  }

  /** The switch of dtls_check_tls_extension over the body of one extension; a ServerHello names a type instead of a list. */
  predicate BodyOk(m: Input, p: nat, n: nat, kind: uint16, hello: bool) {
    if kind == ELLIPTIC_CURVES then Octets2(m, p) + 2 == n && OffersCurve(m, p + 2, n - 2)
    else if kind == CLIENT_CERTIFICATE_TYPE || kind == SERVER_CERTIFICATE_TYPE then
      if hello then ListOk(m, p, n, RAW_PUBLIC_KEY) else Octet(m, p) == RAW_PUBLIC_KEY
    else if kind == EC_POINT_FORMATS then ListOk(m, p, n, 0)
    else true
  }

  /** The extensions in `left` octets at `p`, or None if one of them is bad. */
  function Scan(m: Input, p: nat, left: nat, hello: bool, seen: Seen): Option<Seen>
    decreases left
  {
    if left == 0 then Some(seen)
    else if left < 4 then None
    else
      var kind, n := Octets2(m, p), Octets2(m, p + 2);
      if left - 4 < n || !BodyOk(m, p + 4, n, kind, hello) then None
      else Scan(m, p + 4 + n, left - 4 - n, hello, seen.With(kind))
  }

  /** dtls_check_tls_extension */
  predicate ExtensionsOk(m: Input, p: nat, left: nat, cipher: uint16, hello: bool) {
    if left < 2 then cipher != ECDHE_CIPHER
    else if left - 2 < Octets2(m, p) then false
    else
      match Scan(m, p + 2, left - 2, hello, NOTHING_SEEN)
      case None => false
      case Some(seen) => cipher == ECDHE_CIPHER ==> seen.Suffices(hello)
  }

  /** verify_ext_eliptic_curves */
  method VerifyCurves(m: Input, start: nat, n: nat) returns (ok: bool)
    ensures ok == (Octets2(m, start) + 2 == n && OffersCurve(m, start + 2, n - 2))
  {
    hide Octets2;
    if Octets2(m, start) + 2 != n { return false; }
    var i: int, p: nat := n - 2, start + 2;
    while i > 0
      invariant OffersCurve(m, start + 2, n - 2) == OffersCurve(m, p, i)
    {
      if Octets2(m, p) == SECP256R1 { return true; }
      i, p := i - 2, p + 2;
    }
    ok := false;
  }

  method VerifyList(m: Input, p: nat, n: nat, v: byte) returns (ok: bool)
    ensures ok == ListOk(m, p, n, v)
  {
    if Octet(m, p) + 1 != n { return false; }
    ok := FindOctet(m, p + 1, n - 1, v);
  }

  method VerifyBody(m: Input, p: nat, n: nat, kind: uint16, hello: bool) returns (ok: bool)
    ensures ok == BodyOk(m, p, n, kind, hello)
  {
    if kind == ELLIPTIC_CURVES { ok := VerifyCurves(m, p, n); return; }
    if kind == CLIENT_CERTIFICATE_TYPE || kind == SERVER_CERTIFICATE_TYPE {
      if !hello { return Octet(m, p) == RAW_PUBLIC_KEY; }
      ok := VerifyList(m, p, n, RAW_PUBLIC_KEY);
      return;
    }
    if kind == EC_POINT_FORMATS { ok := VerifyList(m, p, n, 0); return; }
    ok := true;
  }

  /** The loop over the extensions. */
  method CheckTlsExtension(m: Input, start: nat, length: nat, cipher: uint16, hello: bool) returns (ok: bool)
    ensures ok == ExtensionsOk(m, start, length, cipher, hello)
  {
    hide Octets2, BodyOk;
    if length < 2 { return cipher != ECDHE_CIPHER; }
    if length - 2 < Octets2(m, start) { return false; }
    var p: nat, left: nat, seen := start + 2, length - 2, NOTHING_SEEN;
    while left > 0
      invariant Scan(m, start + 2, length - 2, hello, NOTHING_SEEN) == Scan(m, p, left, hello, seen)
    {
      if left < 4 { return false; }
      var kind, n := Octets2(m, p), Octets2(m, p + 2);
      if left - 4 < n { return false; }
      var good := VerifyBody(m, p + 4, n, kind, hello);
      if !good { return false; }
      p, left, seen := p + 4 + n, left - 4 - n, seen.With(kind);
    }
    ok := cipher == ECDHE_CIPHER ==> seen.Suffices(hello);
  }

  /** The first of the client's suites that the server knows. */
  function FirstKnown(suites: seq<uint16>, psk: bool, ecdsa: bool): Option<uint16> {
    if suites == [] then None
    else if Known(psk, ecdsa, suites[0]) then Some(suites[0])
    else FirstKnown(suites[1..], psk, ecdsa)
  }

  /** What a server makes of a well-formed hello: the null method and the suite `c`, or a refusal without one. */
  function Choice(c: Option<uint16>, random: Random, compression: byte, extensions: (nat, nat)): Offer {
    if c.None? then Offer(random, NULL_CIPHER, compression, false, None) else Offer(random, c.value, 0, true, Some(extensions))
  }

  lemma BodyIsClientHello(psk: bool, ecdsa: bool, random: Random, cookie: seq<byte>, mseq: uint16)
    requires |cookie| < 256
    ensures var body := ClientHelloBody(psk, ecdsa, random, cookie);
      HandshakeHeader(1, |body|, mseq) + body == ClientHello(mseq, VERSION, random, [], cookie, HelloTail(psk, ecdsa))
  {
    hide BigEndian, HelloTail, HandshakeHeader;
  }

  lemma {:induction false} PickFirst(m: Input, p: nat, suites: seq<uint16>, psk: bool, ecdsa: bool, overrun: uint16)
    requires p + 2 * |suites| <= |m.data| && m.data[p..p + 2 * |suites|] == SuiteOctets(suites)
    ensures Pick(m, p, 2 * |suites|, psk, ecdsa, overrun) == FirstKnown(suites, psk, ecdsa)
    decreases |suites|
  {
    if suites != [] {
      var s, n := m.data, 2 * |suites|;
      TwoBytes(suites[0]);
      assert SuiteOctets(suites)[..2] == BigEndian(suites[0], 2) && SuiteOctets(suites)[2..] == SuiteOctets(suites[1..]);
      SliceOf(s, SuiteOctets(suites), p, 0, 1);
      SliceOf(s, SuiteOctets(suites), p, 1, 2);
      SliceOf(s, SuiteOctets(suites), p, 2, n);
      hide BigEndian, SuiteOctets;
      assert Octets2(m, p) == suites[0];
      PickFirst(m, p + 2, suites[1..], psk, ecdsa, overrun);
    }
  }

  lemma TailLayout(psk: bool, ecdsa: bool)
    ensures var t, n := HelloTail(psk, ecdsa), 2 * |Suites(psk, ecdsa)|;
      && |t| == 4 + n + |Extensions(ecdsa)| && t[0..2] == [0, n]
      && t[2..2 + n] == SuiteOctets(Suites(psk, ecdsa)) && t[2 + n..4 + n] == [1, 0]
      && t[4 + n..] == Extensions(ecdsa)
  {
    TwoBytes(2 * |Suites(psk, ecdsa)|);
    hide BigEndian, SuiteOctets;
  }

  /**
   * Reading what dtls_send_client_hello wrote, whatever the configuration, random value and cookie: the same
   * random value, and the first of the client's suites that the server knows, if there is one; and then the
   * extensions are accepted, too.
   */
  lemma PrintParseAgree(psk: bool, ecdsa: bool, random: Random, cookie: seq<byte>, mseq: uint16, stale: nat -> byte,
                        serverPsk: bool, serverEcdsa: bool, current: Option<Security>, cipher: uint16, compression: byte, overrun: uint16)
    requires |cookie| <= 32
    ensures var body := ClientHelloBody(psk, ecdsa, random, cookie);
      var m := Input(HandshakeHeader(1, |body|, mseq) + body, stale);
      ParseClientHello(m, serverPsk, serverEcdsa, current, cipher, compression, overrun)
      == Choice(FirstKnown(Suites(psk, ecdsa), serverPsk, serverEcdsa), random, compression, (52 + |cookie| + 2 * |Suites(psk, ecdsa)|, |Extensions(ecdsa)|))
      && var chosen := FirstKnown(Suites(psk, ecdsa), serverPsk, serverEcdsa);
      chosen.Some? ==> ExtensionsOk(m, 52 + |cookie| + 2 * |Suites(psk, ecdsa)|, |Extensions(ecdsa)|, chosen.value, true)
  {
    hide BigEndian, ClientHello, HelloTail, SuiteOctets, Extensions, Suites, ClientHelloBody, HandshakeHeader,
      ParseClientHello,
      ParseSuites, FirstKnown, Choice, SizeT, ExtensionsOk;
    var tail := HelloTail(psk, ecdsa);
    var s := ClientHello(mseq, VERSION, random, [], cookie, tail);
    BodyIsClientHello(psk, ecdsa, random, cookie, mseq);
    HelloFields(mseq, random, cookie, tail);
    TailLayout(psk, ecdsa);
    SuitesCount(psk, ecdsa);
    var p := 48 + |cookie|;
    ToSuites(Input(s, stale), random, |cookie|, serverPsk, serverEcdsa, current, cipher, compression, overrun);
    SuitesOfTail(Input(s, stale), p, psk, ecdsa, random, serverPsk, serverEcdsa, current, cipher, compression, overrun);
    var n := 2 * |Suites(psk, ecdsa)|;
    SliceOf(s, tail, p, 4 + n, |tail|);
    assert s[p + 4 + n..p + |tail|] == Extensions(ecdsa);
    PrintedExtensionsAccepted(Input(s, stale), p + 4 + n, psk, ecdsa, serverPsk, serverEcdsa);
  }

  lemma SuitesCount(psk: bool, ecdsa: bool)
    ensures |Suites(psk, ecdsa)| <= 2 && |Extensions(ecdsa)| <= 28
  {
  }

  lemma HelloFields(mseq: uint16, random: Random, cookie: seq<byte>, tail: seq<byte>)
    requires |cookie| < 256
    ensures var s := ClientHello(mseq, VERSION, random, [], cookie, tail);
      |s| == 48 + |cookie| + |tail| && s[14..46] == random && s[46] == 0 && s[47] as nat == |cookie|
      && s[48 + |cookie|..48 + |cookie| + |tail|] == tail
  {
    hide BigEndian, ClientHello;
    ClientHelloLayout(mseq, VERSION, random, [], cookie, tail);
    var s := ClientHello(mseq, VERSION, random, [], cookie, tail);
    assert s[48 + |cookie|..48 + |cookie| + |tail|] == s[48 + |cookie|..];
  }

  /** Skipping an empty session id and a cookie leads to the suites. */
  lemma ToSuites(m: Input, random: Random, c: nat, psk: bool, ecdsa: bool, current: Option<Security>,
                 cipher: uint16, compression: byte, overrun: uint16)
    requires 48 + c <= |m.data| < 0x1_0000_0000
    requires m.data[14..46] == random && m.data[46] == 0 && m.data[47] as nat == c
    ensures ParseClientHello(m, psk, ecdsa, current, cipher, compression, overrun)
         == ParseSuites(m, 48 + c, |m.data| - 48 - c, random, psk, ecdsa, current, cipher, compression, overrun)
  {
    hide Range, ParseSuites, SizeT, Skip, Octet;
    RangeInside(m, 14, 32);
    SizeTSmall(|m.data| - 46);
    SkipIs(m, 46, |m.data| - 46, 0);
    SkipIs(m, 47, |m.data| - 47, c);
  }

  lemma SkipIs(m: Input, p: nat, left: nat, n: nat)
    requires p < |m.data| && m.data[p] as nat == n && left > n
    ensures Skip(m, p, left) == Some((p + n + 1, left - n - 1))
  {
  }

  lemma SuitesOfTail(m: Input, p: nat, psk: bool, ecdsa: bool, random: Random, serverPsk: bool, serverEcdsa: bool,
                     current: Option<Security>, cipher: uint16, compression: byte, overrun: uint16)
    requires var t := HelloTail(psk, ecdsa); p + |t| == |m.data| && m.data[p..p + |t|] == t
    ensures ParseSuites(m, p, |HelloTail(psk, ecdsa)|, random, serverPsk, serverEcdsa, current, cipher, compression, overrun)
      == Choice(FirstKnown(Suites(psk, ecdsa), serverPsk, serverEcdsa), random, compression, (p + 4 + 2 * |Suites(psk, ecdsa)|, |Extensions(ecdsa)|))
  {
    var t, n := HelloTail(psk, ecdsa), 2 * |Suites(psk, ecdsa)|;
    hide HelloTail, SuiteOctets, Extensions, FirstKnown, Pick, ParseSuites, Choice;
    TailLayout(psk, ecdsa);
    SliceOf(m.data, t, p, 0, 2);
    SliceOf(m.data, t, p, 2, 2 + n);
    SliceOf(m.data, t, p, 2 + n, 4 + n);
    assert m.data[p] == t[0..2][0] == 0 && m.data[p + 1] == t[0..2][1] == n;
    assert m.data[p + 2 + n] == t[2 + n..4 + n][0] == 1 && m.data[p + 3 + n] == t[2 + n..4 + n][1] == 0;
    PickFirst(m, p + 2, Suites(psk, ecdsa), serverPsk, serverEcdsa, overrun);
    SuitesParsed(m, p, n, |Extensions(ecdsa)|, random, serverPsk, serverEcdsa, current, cipher, compression, overrun);
  }

  /** `n` octets of suites, one compression method, and `x` octets more. */
  lemma SuitesParsed(m: Input, p: nat, n: nat, x: nat, random: Random, psk: bool, ecdsa: bool,
                     current: Option<Security>, cipher: uint16, compression: byte, overrun: uint16)
    requires p + 4 + n <= |m.data| && n < 256
    requires m.data[p] == 0 && m.data[p + 1] as nat == n && m.data[p + 2 + n] == 1 && m.data[p + 3 + n] == 0
    ensures ParseSuites(m, p, 4 + n + x, random, psk, ecdsa, current, cipher, compression, overrun)
         == Choice(Pick(m, p + 2, n, psk, ecdsa, overrun), random, compression, (p + 4 + n, x))
  {
    hide Pick;
    assert Offers(m, p + 3 + n, 1, 0);
  }

  /** The extensions at `p` are `x`, octet by octet. */
  ghost predicate Holds(m: Input, p: nat, x: seq<byte>) {
    p + |x| <= |m.data| && m.data[p..p + |x|] == x
  }

  lemma HeldOctet(m: Input, p: nat, x: seq<byte>, i: nat)
    requires Holds(m, p, x) && i < |x|
    ensures Octet(m, p + i) == x[i]
  {
    SliceOf(m.data, x, p, i, i + 1);
  }

  lemma HeldPair(m: Input, p: nat, x: seq<byte>, i: nat)
    requires Holds(m, p, x) && i + 2 <= |x|
    ensures Octets2(m, p + i) == 256 * x[i] as int + x[i + 1] as int
  {
    hide Octet, Holds;
    HeldOctet(m, p, x, i);
    HeldOctet(m, p, x, i + 1);
  }

  /** Past one good extension. */
  lemma ScanStep(m: Input, p: nat, left: nat, kind: uint16, n: nat, hello: bool, seen: Seen)
    requires left >= 4 + n && Octets2(m, p) == kind && Octets2(m, p + 2) == n && BodyOk(m, p + 4, n, kind, hello)
    ensures Scan(m, p, left, hello, seen) == Scan(m, p + 4 + n, left - 4 - n, hello, seen.With(kind))
  {
    hide BodyOk, Octets2;
  }

  /** A body that is a list of one or more octets with `v` in first place. */
  lemma FirstListed(m: Input, p: nat, x: seq<byte>, i: nat, n: nat, v: byte)
    requires Holds(m, p, x) && i + n <= |x| && n >= 2 && x[i] as nat + 1 == n && x[i + 1] == v
    ensures ListOk(m, p + i, n, v) && Octet(m, p + i + 1) == v
  {
    hide Octet, Holds;
    HeldOctet(m, p, x, i);
    HeldOctet(m, p, x, i + 1);
  }

  /** A server accepts the extensions dtls_send_client_hello prints, and their absence with a pre-shared key. */
  lemma PrintedExtensionsAccepted(m: Input, p: nat, psk: bool, ecdsa: bool, serverPsk: bool, serverEcdsa: bool)
    requires Holds(m, p, Extensions(ecdsa))
    ensures var c := FirstKnown(Suites(psk, ecdsa), serverPsk, serverEcdsa);
      c.Some? ==> ExtensionsOk(m, p, |Extensions(ecdsa)|, c.value, true)
  {
    if ecdsa {
      ClientExtensionsScan(m, p);
    } else {
      assert Suites(psk, false) == if psk then [PSK_CIPHER] else [];
      assert psk ==> Suites(psk, false)[1..] == [];
    }
  }

  /** A client accepts the extensions dtls_send_server_hello writes: two certificate types and the point formats. */
  lemma ServerExtensionsAccepted(m: Input, p: nat, x: seq<byte>)
    requires Holds(m, p, x) && x == [0, 16, 0, 19, 0, 1, 2, 0, 20, 0, 1, 2, 0, 11, 0, 2, 1, 0]
    ensures ExtensionsOk(m, p, 18, ECDHE_CIPHER, false)
  {
    hide Octets2, Octet, Holds, Scan, BodyOk;
    ServerExtensionFields(m, p, x);
    ScanStep(m, p + 2, 16, 19, 1, false, NOTHING_SEEN);
    ScanStep(m, p + 7, 11, 20, 1, false, NOTHING_SEEN.With(19));
    ScanStep(m, p + 12, 6, 11, 2, false, NOTHING_SEEN.With(19).With(20));
    ScanEnd(m, p + 18, false, NOTHING_SEEN.With(19).With(20).With(11));
  }

  lemma ServerExtensionFields(m: Input, p: nat, x: seq<byte>)
    requires Holds(m, p, x) && x == [0, 16, 0, 19, 0, 1, 2, 0, 20, 0, 1, 2, 0, 11, 0, 2, 1, 0]
    ensures Octets2(m, p) == 16 && Octets2(m, p + 2) == 19 && Octets2(m, p + 4) == 1
    ensures Octets2(m, p + 7) == 20 && Octets2(m, p + 9) == 1 && Octets2(m, p + 12) == 11 && Octets2(m, p + 14) == 2
    ensures BodyOk(m, p + 6, 1, 19, false) && BodyOk(m, p + 11, 1, 20, false) && BodyOk(m, p + 16, 2, 11, false)
  {
    hide Octets2, Octet, Holds, ListOk;
    HeldPair(m, p, x, 0);
    HeldPair(m, p, x, 2);
    HeldPair(m, p, x, 4);
    HeldPair(m, p, x, 7);
    HeldPair(m, p, x, 9);
    HeldPair(m, p, x, 12);
    HeldPair(m, p, x, 14);
    HeldOctet(m, p, x, 6);
    HeldOctet(m, p, x, 11);
    FirstListed(m, p, x, 16, 2, 0);
  }

  lemma ClientExtensionsScan(m: Input, p: nat)
    requires Holds(m, p, Extensions(true))
    ensures Octets2(m, p) == 26 && Scan(m, p + 2, 26, true, NOTHING_SEEN) == Some(Seen(true, true, true, true))
  {
    hide Octets2, Holds, Scan, BodyOk, Extensions;
    ExtensionsAre();
    ExtensionHeads(m, p, Extensions(true));
    ExtensionBodies(m, p, Extensions(true));
    ScanStep(m, p + 2, 26, 19, 2, true, NOTHING_SEEN);
    ScanStep(m, p + 8, 20, 20, 2, true, NOTHING_SEEN.With(19));
    ScanStep(m, p + 14, 14, 10, 4, true, NOTHING_SEEN.With(19).With(20));
    ScanStep(m, p + 22, 6, 11, 2, true, NOTHING_SEEN.With(19).With(20).With(10));
    ScanEnd(m, p + 28, true, NOTHING_SEEN.With(19).With(20).With(10).With(11));
  }

  lemma ExtensionsAre()
    ensures Extensions(true) == [0, 26, 0, 19, 0, 2, 1, 2, 0, 20, 0, 2, 1, 2, 0, 10, 0, 4, 0, 2, 0, 23, 0, 11, 0, 2, 1, 0]
  {
  }

  lemma ExtensionHeads(m: Input, p: nat, x: seq<byte>)
    requires Holds(m, p, x)
    requires x == [0, 26, 0, 19, 0, 2, 1, 2, 0, 20, 0, 2, 1, 2, 0, 10, 0, 4, 0, 2, 0, 23, 0, 11, 0, 2, 1, 0]
    ensures Octets2(m, p) == 26 && Octets2(m, p + 2) == 19 && Octets2(m, p + 4) == 2
    ensures Octets2(m, p + 8) == 20 && Octets2(m, p + 10) == 2
    ensures Octets2(m, p + 14) == 10 && Octets2(m, p + 16) == 4 && Octets2(m, p + 22) == 11 && Octets2(m, p + 24) == 2
  {
    hide Octets2, Holds;
    FrontHeads(m, p, x);
    BackHeads(m, p, x);
  }

  lemma FrontHeads(m: Input, p: nat, x: seq<byte>)
    requires Holds(m, p, x) && |x| >= 12 && x[..12] == [0, 26, 0, 19, 0, 2, 1, 2, 0, 20, 0, 2]
    ensures Octets2(m, p) == 26 && Octets2(m, p + 2) == 19 && Octets2(m, p + 4) == 2
    ensures Octets2(m, p + 8) == 20 && Octets2(m, p + 10) == 2
  {
    hide Octets2, Holds;
    var v := x[..12];
    forall i | 0 <= i < 12 ensures x[i] == v[i] {}
    HeldPair(m, p, x, 0);
    HeldPair(m, p, x, 2);
    HeldPair(m, p, x, 4);
    HeldPair(m, p, x, 8);
    HeldPair(m, p, x, 10);
  }

  lemma BackHeads(m: Input, p: nat, x: seq<byte>)
    requires Holds(m, p, x) && |x| >= 26 && x[14..26] == [0, 10, 0, 4, 0, 2, 0, 23, 0, 11, 0, 2]
    ensures Octets2(m, p + 14) == 10 && Octets2(m, p + 16) == 4 && Octets2(m, p + 22) == 11 && Octets2(m, p + 24) == 2
  {
    hide Octets2, Holds;
    var v := x[14..26];
    forall i | 0 <= i < 12 ensures x[14 + i] == v[i] {}
    HeldPair(m, p, x, 14);
    HeldPair(m, p, x, 16);
    HeldPair(m, p, x, 22);
    HeldPair(m, p, x, 24);
  }

  lemma ExtensionBodies(m: Input, p: nat, x: seq<byte>)
    requires Holds(m, p, x)
    requires x == [0, 26, 0, 19, 0, 2, 1, 2, 0, 20, 0, 2, 1, 2, 0, 10, 0, 4, 0, 2, 0, 23, 0, 11, 0, 2, 1, 0]
    ensures BodyOk(m, p + 6, 2, 19, true) && BodyOk(m, p + 12, 2, 20, true) && BodyOk(m, p + 26, 2, 11, true)
    ensures BodyOk(m, p + 18, 4, 10, true)
  {
    hide Octet, Holds, BodyOk, ListOk, Offers, OffersCurve;
    FirstListed(m, p, x, 6, 2, 2);
    FirstListed(m, p, x, 12, 2, 2);
    FirstListed(m, p, x, 26, 2, 0);
    CurveListed(m, p, x);
    BodiesAre(m, p);
  }

  lemma ScanEnd(m: Input, p: nat, hello: bool, seen: Seen)
    ensures Scan(m, p, 0, hello, seen) == Some(seen)
  {
  }

  lemma CurveListed(m: Input, p: nat, x: seq<byte>)
    requires Holds(m, p, x) && |x| >= 22 && x[18..22] == [0, 2, 0, 23]
    ensures Octets2(m, p + 18) == 2 && OffersCurve(m, p + 20, 2)
  {
    hide Octet, Holds;
    var v := x[18..22];
    assert v[0] == x[18] && v[1] == x[19] && v[2] == x[20] && v[3] == x[21];
    HeldOctet(m, p, x, 18);
    HeldOctet(m, p, x, 19);
    HeldOctet(m, p, x, 20);
    HeldOctet(m, p, x, 21);
  }

  lemma BodiesAre(m: Input, p: nat)
    requires ListOk(m, p + 6, 2, 2) && ListOk(m, p + 12, 2, 2) && ListOk(m, p + 26, 2, 0)
    requires Octets2(m, p + 18) == 2 && OffersCurve(m, p + 20, 2)
    ensures BodyOk(m, p + 6, 2, 19, true) && BodyOk(m, p + 12, 2, 20, true) && BodyOk(m, p + 26, 2, 11, true)
    ensures BodyOk(m, p + 18, 4, 10, true)
  {
    hide Octets2, ListOk, OffersCurve;
  }
}

/** Which ClientHello makes a host keep state for a stranger: the cookie gate of section 4.2.1 of RFC 6347, as it is. */
module Admission {
  import opened Bytes
  import opened CcmSpec
  import opened Peers
  import opened RecordSpec
  import opened Datagram
  import opened Reorder
  import opened Hello
  import opened Engine
  import opened Wire
  import opened Transport

  /** The record of a HelloVerifyRequest to a stranger. */
  function ChallengeRecord(cookie: seq<byte>): seq<byte> {
    var body := BigEndian(VERSION, 2) + [16] + cookie;
    var m := HandshakeHeader(3, |body|, 0) + body;
    Header(HANDSHAKE, Zeros(8), |m|) + m
  }

  /** A hello that answers no challenge has nothing but the result of `write` against it: 0, or 13 of the 44 octets. */
  lemma ChallengeResult(c: Config, w: World, e: Endpoint, cookie: seq<byte>)
    requires Stranger(e) && |cookie| == 16
    ensures var r := SendHelloVerifyRequest(c, w, e, cookie); var n := w.write(e.clock, ChallengeRecord(cookie));
      r.err == (if n <= 0 then n else n - 13) && Stranger(r.e)
  {
    hide Header, BigEndian, HandshakeHeader;
  }

  /** That record in octets: type 22, version, number 0, 31 octets; type 3, 19 octets, number 0; version, and 16 octets of cookie. */
  lemma ChallengeOctets(c: Config, w: World, e: Endpoint, cookie: seq<byte>)
    requires Stranger(e) && |cookie| == 16
    ensures ChallengeRecord(cookie) == [22, 254, 253] + Zeros(8) + [0, 31] + [3, 0, 0, 19, 0, 0, 0, 0, 0, 0, 0, 19] + [254, 253, 16] + cookie
    ensures var f := SendHelloVerifyRequest(c, w, e, cookie).e;
      |f.sent| == |e.sent| + 1 && f.sent[|e.sent|].bytes == ChallengeRecord(cookie)
  {
    hide BigEndian, HandshakeHeader;
    Two(VERSION);
    Two(31);
    HeaderIs(3, 19, 0);
    assert [254, 253] + [16] == [254, 253, 16];
  }

  lemma Accepting(c: Config, w: World, e: Endpoint, m: Message)
    ensures AcceptClientHello(c, w, e, m).e.known
  {
    hide UpdateParameters, SendServerHelloMessages;
  }

  /**
   * A stranger's ClientHello is let in, and a peer made for it, exactly when the cookie can be computed and one
   * of these holds: the hello is not of version DTLS 1.2; it carries the cookie; or it carries another one and
   * `write` reports 0 or 13 for the challenge.
   */
  lemma LetInExactly(c: Config, w: World, e: Endpoint, m: Message)
    requires Stranger(e)
    ensures var i := Received(w, e, m); var t := CookieText(c.session, i);
      OnClientHello(c, w, e, m).e.known <==>
        t.Some? && var mine := Cookie(c.hash, c.secret, t.value);
          || Octets2(i, 12) != VERSION
          || CookieField(i) == Some(mine)
          || (CookieField(i) != Some([]) && w.write(e.clock, ChallengeRecord(mine)) in {0, 13})
  {
    hide CookieText, CookieField, Cookie, Octets2, ChallengeRecord, SendHelloVerifyRequest, AcceptClientHello, Count;
    var i := Received(w, e, m);
    var t := CookieText(c.session, i);
    FieldUnreadable(c.session, i);
    Accepting(c, w, e, m);
    if t.Some? {
      var mine := Cookie(c.hash, c.secret, t.value);
      ChallengeResult(c, w, e, mine);
      Accepting(c, w, SendHelloVerifyRequest(c, w, e, mine).e, m);
      Counted0(SendHelloVerifyRequest(c, w, e, mine));
    }
  }

  lemma Counted0(r: Outcome)
    ensures Count(r).e.known == r.e.known
  {
  }

  /** Any hello of any other version gets in: with a session id, cookie, suites and extensions of its own choice. */
  lemma OtherVersionLetIn(c: Config, w: World, e: Endpoint, mseq: uint16, version: uint16, random: Random,
                          sid: seq<byte>, cookie: seq<byte>, rest: seq<byte>)
    requires Stranger(e) && version != VERSION
    requires |sid| < 256 && |cookie| < 256 && 36 + |sid| + |cookie| + |rest| < 0x100_0000
    ensures OnClientHello(c, w, e, ClientHello(mseq, version, random, sid, cookie, rest)).e.known
  {
    hide ClientHello, VerifyPeer, AcceptClientHello, Challenged;
    var m := ClientHello(mseq, version, random, sid, cookie, rest);
    OtherVersionIsGood(c.hash, c.secret, c.session, mseq, version, random, sid, cookie, rest, w.stale(e.clock));
    Accepting(c, w, e, m);
  }

  /** A hello of this version gets in exactly with the cookie, or with any other one while `write` reports 0 or 13. */
  lemma ThisVersionLetIn(c: Config, w: World, e: Endpoint, mseq: uint16, random: Random, sid: seq<byte>, cookie: seq<byte>, rest: seq<byte>)
    requires Stranger(e) && |sid| < 256 && |cookie| < 256 && 36 + |sid| + 256 + |rest| < 0x100_0000
    ensures var mine := Cookie(c.hash, c.secret, c.session + (BigEndian(VERSION, 2) + random + [|sid|] + sid) + rest);
      OnClientHello(c, w, e, ClientHello(mseq, VERSION, random, sid, cookie, rest)).e.known <==>
        cookie == mine || (cookie != [] && w.write(e.clock, ChallengeRecord(mine)) in {0, 13})
  {
    hide ClientHello, VerifyPeer, AcceptClientHello, Cookie, BigEndian, ChallengeRecord, SendHelloVerifyRequest, Count;
    var m := ClientHello(mseq, VERSION, random, sid, cookie, rest);
    var mine := Cookie(c.hash, c.secret, c.session + (BigEndian(VERSION, 2) + random + [|sid|] + sid) + rest);
    CookieExchangeCloses(c.hash, c.secret, c.session, mseq, mseq, random, sid, cookie, rest, w.stale(e.clock));
    ChallengeResult(c, w, e, mine);
    Accepting(c, w, e, m);
    Accepting(c, w, SendHelloVerifyRequest(c, w, e, mine).e, m);
    Counted0(SendHelloVerifyRequest(c, w, e, mine));
  }
}

/** What one endpoint has written arrives, alone in a datagram, as the payload it was made from. */
module Transport {
  import opened Bytes
  import opened CcmSpec
  import opened Prf
  import opened Peers
  import opened RecordSpec
  import opened Datagram
  import opened Reorder
  import opened Hello
  import opened Engine
  import opened Wire

  /** Nothing is known of this peer. */
  ghost predicate Stranger(e: Endpoint) {
    !e.known && e.s0.None? && e.hs.None?
  }

  function Tick(e: Endpoint): Endpoint { e.(clock := e.clock + 1) }

  /** `x` went out before any keys were there. */
  ghost predicate Plain(aes: Aes, role: Role, x: Sent, ctype: byte, payload: seq<byte>) {
    && x.bytes == Protect(aes, role, x.under, ctype, payload)
    && (x.under.Some? ==> x.under.value.cipher == NULL_CIPHER && x.under.value.epoch == 0)
  }

  /** `x` went out in epoch 1, under the keys of `kb`. */
  ghost predicate Secured(aes: Aes, role: Role, x: Sent, ctype: byte, payload: seq<byte>, kb: KeyBlock) {
    && x.bytes == Protect(aes, role, x.under, ctype, payload)
    && x.under.Some? && x.under.value.cipher == PSK_CIPHER && x.under.value.epoch == 1 && x.under.value.keyBlock == kb
  }

  ghost predicate PlainSlot(s: Option<Security>) {
    s.Some? && s.value.cipher == NULL_CIPHER && s.value.epoch == 0
  }

  ghost predicate SecuredSlot(s: Option<Security>, kb: KeyBlock) {
    s.Some? && s.value.cipher == PSK_CIPHER && s.value.epoch == 1 && s.value.keyBlock == kb
  }

  /** A record without security parameters looks like the very first one of a new peer. */
  lemma NoParameters(aes: Aes, role: Role, ctype: byte, payload: seq<byte>)
    ensures Protect(aes, role, None, ctype, payload) == Protect(aes, role, Some(NewSecurity(0)), ctype, payload)
  {
    hide Header;
    BigEndianOfZero(2);
    BigEndianOfZero(6);
    assert RecordNumber(0, 0) == Zeros(8);
  }

  type Record = r: seq<byte> | |r| >= HEADER_LENGTH witness Zeros(13)

  /** The loop of dtls_handle_message over the records it finds: up to an error, or to the one that makes the peer known. */
  function HandleRecords(c: Config, w: World, e: Endpoint, rs: seq<Record>): Outcome
    decreases |rs|
  {
    if rs == [] then Outcome(e, 0)
    else
      var r := HandleRecord(c, w, e, rs[0]);
      if r.err < 0 then r
      else if r.e.known && !e.known then Outcome(r.e, 0)
      else HandleRecords(c, w, r.e, rs[1..])
  }

  lemma {:induction false} SplitLengths(msg: seq<byte>)
    ensures forall r :: r in Split(msg) ==> |r| >= HEADER_LENGTH
    decreases |msg|
  {
    var n := RecordLength(msg);
    if n > 0 { SplitLengths(msg[n..]); }
  }

  /** A datagram is handled as the records it splits into. */
  lemma {:induction false} MessageIsRecords(c: Config, w: World, e: Endpoint, msg: seq<byte>)
    ensures forall r :: r in Split(msg) ==> |r| >= HEADER_LENGTH
    ensures HandleMessage(c, w, e, msg) == HandleRecords(c, w, e, Split(msg))
    decreases |msg|
  {
    hide HandleRecord, RecordLength;
    SplitLengths(msg);
    var n := RecordLength(msg);
    if n > 0 {
      assert Split(msg)[0] == msg[..n] && Split(msg)[1..] == Split(msg[n..]);
      MessageIsRecords(c, w, HandleRecord(c, w, e, msg[..n]).e, msg[n..]);
    }
  }

  /** Any records put into one datagram, with anything behind them that is no record, are handled one after the other. */
  lemma RecordsInOneDatagram(c: Config, w: World, e: Endpoint, rs: seq<seq<byte>>, tail: seq<byte>)
    requires (forall r :: r in rs ==> WellFormed(r)) && RecordLength(tail) == 0
    ensures forall r :: r in rs ==> |r| >= HEADER_LENGTH
    ensures HandleMessage(c, w, e, Concat(rs) + tail) == HandleRecords(c, w, e, rs)
  {
    hide HandleMessage, HandleRecords;
    SplitOfConcat(rs, tail);
    MessageIsRecords(c, w, e, Concat(rs) + tail);
  }

  /** A datagram that is one well-formed record. */
  lemma OneRecord(c: Config, w: World, e: Endpoint, r: seq<byte>)
    requires WellFormed(r)
    ensures HandleMessage(c, w, e, r).e == HandleRecord(c, w, e, r).e
  {
    hide HandleRecord;
    assert r[..|r|] == r && RecordLength(r[|r|..]) == 0;
    assert HandleMessage(c, w, HandleRecord(c, w, e, r).e, r[|r|..]) == Outcome(HandleRecord(c, w, e, r).e, 0);
  }

  lemma RecordReads(aes: Aes, from: Role, to: Role, s: Security, t: Security, ctype: byte, payload: seq<byte>)
    requires from != to && SameKeys(s, t) && |payload| <= MAX_BUF
    ensures var r := Protect(aes, from, Some(s), ctype, payload);
      WellFormed(r) && |r| >= HEADER_LENGTH && r[0] == ctype && EpochOf(r) == s.epoch && Unprotect(aes, to, t, r) == Accepted(payload)
  {
    hide Protect, WellFormed, Unprotect, EpochOf;
    ProtectedIsWellFormed(aes, from, Some(s), ctype, payload);
    RecordRoundTrip(aes, from, to, s, t, ctype, payload);
    FirstOctet(aes, from, s, ctype, payload);
  }

  lemma FirstOctet(aes: Aes, from: Role, s: Security, ctype: byte, payload: seq<byte>)
    ensures var r := Protect(aes, from, Some(s), ctype, payload); |r| >= HEADER_LENGTH && r[0] == ctype
  {
    hide Fragment, RecordNumber, BigEndian;
  }

  /** At a known peer with matching keys for the epoch. */
  lemma Carried(c: Config, w: World, e: Endpoint, from: Role, s: Security, t: Security, ctype: byte, payload: seq<byte>)
    requires e.known && from != e.role && SameKeys(s, t) && ByEpoch(e.s0, e.s1, s.epoch) == Some(t) && |payload| <= MAX_BUF
    ensures HandleMessage(c, w, e, Protect(c.aes, from, Some(s), ctype, payload)).e
      == HandlePayload(c, w, if t.cipher == NULL_CIPHER then Tick(e) else FreedOther(Tick(e)), ctype, s.epoch, payload).e
  {
    hide Protect, HandlePayload, EpochOf, Unprotect, WellFormed, HandleMessage;
    var r := Protect(c.aes, from, Some(s), ctype, payload);
    RecordReads(c.aes, from, e.role, s, t, ctype, payload);
    OneRecord(c, w, e, r);
  }

  lemma CarriedPlain(c: Config, w: World, e: Endpoint, from: Role, x: Sent, ctype: byte, payload: seq<byte>)
    requires e.known && from != e.role && Plain(c.aes, from, x, ctype, payload) && |payload| <= MAX_BUF
    requires PlainSlot(e.s0) || (PlainSlot(e.s1) && e.s0.Some? && e.s0.value.epoch == 1)
    ensures HandleMessage(c, w, e, x.bytes).e == HandlePayload(c, w, Tick(e), ctype, 0, payload).e
  {
    hide Protect, HandlePayload, HandleMessage;
    NoParameters(c.aes, from, ctype, payload);
    var s := if x.under.Some? then x.under.value else NewSecurity(0);
    var t := if PlainSlot(e.s0) then e.s0.value else e.s1.value;
    PlainKeysAgree(c.aes, from, s, t.keyBlock, ctype, payload);
    Carried(c, w, e, from, s.(keyBlock := t.keyBlock), t, ctype, payload);
  }

  /** Without a cipher the key block does not matter. */
  lemma PlainKeysAgree(aes: Aes, role: Role, s: Security, kb: KeyBlock, ctype: byte, payload: seq<byte>)
    requires s.cipher == NULL_CIPHER
    ensures Protect(aes, role, Some(s.(keyBlock := kb)), ctype, payload) == Protect(aes, role, Some(s), ctype, payload)
  {
    hide Header, RecordNumber;
  }

  lemma CarriedSecured(c: Config, w: World, e: Endpoint, from: Role, x: Sent, ctype: byte, payload: seq<byte>, kb: KeyBlock)
    requires e.known && from != e.role && Secured(c.aes, from, x, ctype, payload, kb) && |payload| <= MAX_BUF
    requires SecuredSlot(e.s0, kb) || (SecuredSlot(e.s1, kb) && e.s0.Some? && e.s0.value.epoch == 0)
    ensures HandleMessage(c, w, e, x.bytes).e == HandlePayload(c, w, FreedOther(Tick(e)), ctype, 1, payload).e
  {
    hide Protect, HandlePayload, HandleMessage, FreedOther;
    Carried(c, w, e, from, x.under.value, if SecuredSlot(e.s0, kb) then e.s0.value else e.s1.value, ctype, payload);
  }

  /** At a host that does not know the peer. */
  lemma CarriedToStranger(c: Config, w: World, e: Endpoint, from: Role, x: Sent, ctype: byte, payload: seq<byte>)
    requires !e.known && Plain(c.aes, from, x, ctype, payload) && |payload| <= MAX_BUF
    ensures HandleMessage(c, w, e, x.bytes).e == HandlePayload(c, w, Tick(e), ctype, 0, payload).e
  {
    hide Protect, HandlePayload, HandleMessage, EpochOf, WellFormed;
    NoParameters(c.aes, from, ctype, payload);
    var s := if x.under.Some? then x.under.value else NewSecurity(0);
    RecordReads(c.aes, from, Other(from), s, s, ctype, payload);
    OneRecord(c, w, e, x.bytes);
    PlainPayload(c.aes, from, s, ctype, payload);
  }

  lemma PlainPayload(aes: Aes, role: Role, s: Security, ctype: byte, payload: seq<byte>)
    requires s.cipher == NULL_CIPHER
    ensures var r := Protect(aes, role, Some(s), ctype, payload); |r| >= 13 && r[13..] == payload
  {
    hide Header, RecordNumber;
    HeaderParts(ctype, RecordNumber(s.epoch, s.rseq), |payload|, payload);
  }

  // ---------------------------------------------------------------- messages in turn

  lemma SeqOf(kind: byte, length: nat, mseq: uint16, body: seq<byte>)
    ensures var m: Message := HandshakeHeader(kind, length, mseq) + body; MessageSeq(m) == mseq && m[0] == kind && m[12..] == body
  {
    hide BigEndian, Value;
    HeaderLayout(kind, length, mseq);
    var h := HandshakeHeader(kind, length, mseq);
    assert (h + body)[4..6] == h[4..6];
    assert Value(BigEndian(mseq, 2)) == mseq by { assert Pow256(1) == 256 && Pow256(2) == 0x1_0000; ValueOfBigEndian(mseq, 2); }
  }

  /** The next message, in the right epoch, with nothing waiting: what handling the payload amounts to. */
  lemma InTurn(c: Config, w: World, e: Endpoint, epoch: uint16, m: Message)
    requires e.known && e.hs.Some? && Queue(e) == [] && MessageSeq(m) == e.hs.value.mseqR && RightEpoch(e, epoch)
    requires HandleHandshakeMsg(c, w, e, m).err >= 0
    ensures HandlePayload(c, w, e, HANDSHAKE, epoch, m).e == HandleHandshakeMsg(c, w, e, m).e
  {
    hide HandleHandshakeMsg, MessageSeq;
    var r := HandleHandshakeMsg(c, w, e, m);
    if r.e.hs.Some? { assert Find(Queue(r.e), r.e.hs.value.mseqR) == 0; }
    assert DrainQueue(c, w, r.e, r.err) == Outcome(r.e, r.err);
  }

  // ---------------------------------------------------------------- sending when nothing fails

  ghost predicate Perfect(w: World) {
    forall n, b :: w.write(n, b) == |b|
  }

  /** The record for `payload` has gone out. */
  function Posted(c: Config, e: Endpoint, ctype: byte, payload: seq<byte>): Endpoint {
    e.(s0 := Bumped(e.s0), clock := e.clock + 1,
       sent := e.sent + [Engine.Sent(e.role, e.s0, ctype, payload, Protect(c.aes, e.role, e.s0, ctype, payload))])
  }

  lemma SendPosts(c: Config, w: World, e: Endpoint, ctype: byte, payload: seq<byte>)
    requires Perfect(w) && |payload| <= 179
    ensures Send(c, w, e, ctype, payload) == Outcome(Posted(c, e, ctype, payload), |payload|)
  {
    hide Protect;
    WholeRecordPosts(c, w, e, ctype, payload);
  }

  /** When `write` takes the whole record. */
  lemma WholeRecordPosts(c: Config, w: World, e: Endpoint, ctype: byte, payload: seq<byte>)
    requires |payload| <= 179
    requires var bytes := Protect(c.aes, e.role, e.s0, ctype, payload); w.write(e.clock, bytes) == |bytes|
    ensures Send(c, w, e, ctype, payload) == Outcome(Posted(c, e, ctype, payload), |payload|)
  {
    hide Header;
    var bytes := Protect(c.aes, e.role, e.s0, ctype, payload);
    assert |bytes| >= 13;
  }

  lemma HandshakePosts(c: Config, w: World, e: Endpoint, kind: byte, body: seq<byte>, addHash: bool)
    requires Perfect(w) && |body| <= 167
    ensures SendHandshake(c, w, e, kind, body, addHash)
      == Outcome(Posted(c, Counted(e, kind, body, addHash), HANDSHAKE, HandshakeMessage(e, kind, body)), 12 + |body|)
  {
    hide Send, Posted, Counted;
    SendPosts(c, w, Counted(e, kind, body, addHash), HANDSHAKE, HandshakeMessage(e, kind, body));
  }

  // ---------------------------------------------------------------- messages, built and read

  function Msg(kind: byte, mseq: uint16, body: seq<byte>): (m: Message)
    ensures |m| == 12 + |body|
  {
    HandshakeHeader(kind, |body|, mseq) + body
  }

  lemma FirstIs(kind: byte, mseq: uint16, body: seq<byte>)
    ensures Msg(kind, mseq, body)[0] == kind && MessageSeq(Msg(kind, mseq, body)) == mseq && Msg(kind, mseq, body)[12..] == body
  {
    hide MessageSeq, HandshakeHeader;
    SeqOf(kind, |body|, mseq, body);
  }

  lemma BodyLengths(sr: Random)
    ensures |ServerHelloBody(PSK_CIPHER, sr)| == 38
  {
    hide BigEndian;
  }

  lemma ServerHelloParts(k: uint16, sr: Random)
    ensures var m := Msg(2, k, ServerHelloBody(PSK_CIPHER, sr));
      && |m| == 50 && m[12..14] == [0xfe, 0xfd] && m[14..46] == sr && m[46] == 0 && m[47..49] == BigEndian(PSK_CIPHER, 2) && m[49] == 0
  {
    hide HandshakeHeader, BigEndian;
    VersionOctets();
    var b := ServerHelloBody(PSK_CIPHER, sr);
    var m := Msg(2, k, b);
    assert b == BigEndian(VERSION, 2) + sr + [0] + BigEndian(PSK_CIPHER, 2) + [0];
    forall i | 0 <= i < 38 ensures m[12 + i] == b[i] {}
  }

  /** A client that talks pre-shared keys reads a ServerHello for them. */
  lemma ServerHelloRead(c: Config, w: World, e: Endpoint, k: uint16, sr: Random)
    requires c.psk && e.hs.Some?
    ensures var m := Msg(2, k, ServerHelloBody(PSK_CIPHER, sr)); var h := e.hs.value;
      CheckServerHello(c, w, e, m)
      == Outcome(e.With(h.(transcript := h.transcript + m, tmp := h.tmp[..32] + sr, cipher := PSK_CIPHER)), 0)
  {
    hide ServerHelloBody, HandshakeHeader, Range, SizeT, Skip, Octets2;
    var m := Msg(2, k, ServerHelloBody(PSK_CIPHER, sr));
    var i := Received(w, e, m);
    ServerHelloParts(k, sr);
    RangeInside(i, 14, 32);
    SizeTSmall(4);
    SizeTSmall(0);
    SkipIs(i, 46, 4, 0);
    OctetsOf(i, 12, 0xfe, 0xfd);
    TwoBytes(PSK_CIPHER);
    var b := m[47..49];
    assert b[0] == m[47] && b[1] == m[48];
    OctetsOf(i, 47, m[47], m[48]);
    var v := m[12..14];
    assert v[0] == m[12] && v[1] == m[13];
  }

  /** And one that knows ECDHE-ECDSA the other, with its extensions. */
  lemma EcdheHelloRead(c: Config, w: World, e: Endpoint, k: uint16, sr: Random)
    requires c.verifiesKey && e.hs.Some?
    ensures var m := Msg(2, k, ServerHelloBody(ECDHE_CIPHER, sr)); var h := e.hs.value;
      CheckServerHello(c, w, e, m)
      == Outcome(e.With(h.(transcript := h.transcript + m, tmp := h.tmp[..32] + sr, cipher := ECDHE_CIPHER)), 0)
  {
    hide ServerHelloBody, HandshakeHeader, Range, SizeT, Skip, Octets2, ExtensionsOk, Holds;
    var m := Msg(2, k, ServerHelloBody(ECDHE_CIPHER, sr));
    var i := Received(w, e, m);
    EcdheHelloParts(k, sr);
    RangeInside(i, 14, 32);
    SizeTSmall(22);
    SizeTSmall(18);
    SkipIs(i, 46, 22, 0);
    OctetsOf(i, 12, 0xfe, 0xfd);
    OctetsOf(i, 47, 0xc0, 0xae);
    assert Holds(i, 50, m[50..]) by { HoldsTail(i, 50); }
    ServerExtensionsAccepted(i, 50, m[50..]);
  }

  lemma HoldsTail(i: Input, p: nat)
    requires p <= |i.data|
    ensures Holds(i, p, i.data[p..])
  {
  }

  lemma EcdheHelloParts(k: uint16, sr: Random)
    ensures var m := Msg(2, k, ServerHelloBody(ECDHE_CIPHER, sr));
      && |m| == 68 && m[12] == 0xfe && m[13] == 0xfd && m[14..46] == sr && m[46] == 0 && m[47] == 0xc0 && m[48] == 0xae && m[49] == 0
      && m[50..] == [0, 16, 0, 19, 0, 1, 2, 0, 20, 0, 1, 2, 0, 11, 0, 2, 1, 0]
  {
    hide HandshakeHeader, ServerHelloBody;
    ServerHelloOctets(sr);
    var b := ServerHelloBody(ECDHE_CIPHER, sr);
    var m := Msg(2, k, b);
    forall i | 0 <= i < 56 ensures m[12 + i] == b[i] {}
    assert m[14..46] == b[2..34] && m[50..] == b[38..];
  }

  lemma OctetsOf(i: Input, p: nat, a: byte, b: byte)
    requires p + 2 <= |i.data| && i.data[p] == a && i.data[p + 1] == b
    ensures Octets2(i, p) == 256 * a as int + b as int
  {
  }

  /** A length and that many octets read back. */
  lemma FieldReads(kind: byte, mseq: uint16, s: Short, code: Failure)
    ensures ShortField(Msg(kind, mseq, BigEndian(|s|, 2) + s), code) == Secret(s)
  {
    hide HandshakeHeader, BigEndian;
    TwoBytes(|s|);
    var body := BigEndian(|s|, 2) + s;
    var m := Msg(kind, mseq, body);
    FirstIs(kind, mseq, body);
    TwoThenRest(m, BigEndian(|s|, 2), s);
    Quotient0(|s|);
  }

  lemma TwoThenRest(m: Message, b: seq<byte>, s: seq<byte>)
    requires |b| == 2 && m[12..] == b + s
    ensures |m| == 14 + |s| && m[12] == b[0] && m[13] == b[1] && m[14..] == s
  {
    var t := m[12..];
    assert t[0] == b[0] && t[1] == b[1] && t[2..] == s;
    assert m[14..] == t[2..];
  }

  lemma Quotient0(n: nat)
    requires n < 256
    ensures n / 256 == 0 && n % 256 == n
  {
  }
}

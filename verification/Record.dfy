/** dtls_set_record_header, dtls_prepare_record and decrypt_verify, over the buffers they work in. */
module Record {
  import opened Bytes
  import opened CcmSpec
  import Ccm
  import opened Peers
  import opened RecordSpec
  import opened Engine
  import opened Wire

  /** dtls_security_parameters_t */
  class SecurityParameters {
    /** Stands for the address of the object. */
    const id: nat
    var cipher: uint16
    var compression: byte
    var epoch: uint16
    var rseq: nat
    const keyBlock: array<byte>

    /** dtls_security_new */
    constructor (id: nat)
      ensures fresh(keyBlock) && Valid() && Value() == NewSecurity(id)
    {
      this.id := id;
      cipher, compression, epoch, rseq := NULL_CIPHER, 0, 0, 0;
      keyBlock := new byte[40](_ => 0);
    }

    ghost predicate Valid() { keyBlock.Length == 40 }

    function Value(): Security
      requires Valid()
      reads this, keyBlock
    {
      Security(id, cipher, compression, epoch, rseq, keyBlock[..])
    }
  }

  ghost predicate Usable(s: SecurityParameters?) {
    s != null ==> s.Valid()
  }

  ghost function Footprint(s: SecurityParameters?): set<object> {
    if s == null then {} else {s, s.keyBlock}
  }

  function ValueOf(s: SecurityParameters?): Option<Security>
    requires Usable(s)
    reads Footprint(s)
  {
    if s == null then None else Some(s.Value())
  }

  /** The pieces of a payload, end to end. */
  function Flat(pieces: seq<seq<byte>>): seq<byte> {
    if pieces == [] then [] else Flat(pieces[..|pieces| - 1]) + pieces[|pieces| - 1]
  }

  lemma {:induction false} FlatLonger(pieces: seq<seq<byte>>, i: nat)
    requires i <= |pieces|
    ensures |Flat(pieces[..i])| <= |Flat(pieces)|
  {
    if i < |pieces| {
      FlatLonger(pieces[..|pieces| - 1], i);
      assert pieces[..|pieces| - 1][..i] == pieces[..i];
    } else {
      assert pieces[..i] == pieces;
    }
  }

  function NumberOf(s: Option<Security>): (n: seq<byte>)
    ensures |n| == 8
  {
    if s.None? then Zeros(8) else RecordNumber(s.value.epoch, s.value.rseq)
  }

  /** dtls_set_record_header: type, version, number, and a length of 0; the sequence counter goes up. */
  method SetRecordHeader(ctype: byte, security: SecurityParameters?, buf: array<byte>)
    requires Usable(security) && buf.Length >= HEADER_LENGTH && buf !in Footprint(security)
    modifies Footprint(security), buf
    ensures ValueOf(security) == Bumped(old(ValueOf(security)))
    ensures buf[..] == Splice(old(buf[..]), 0, Header(ctype, NumberOf(old(ValueOf(security))), 0))
  {
    hide BigEndian, Splice;
    ghost var was, number := buf[..], NumberOf(ValueOf(security));
    var octets := Zeros(8);
    if security != null {
      octets := BigEndian(security.epoch, 2) + BigEndian(security.rseq, 6);
      security.rseq := security.rseq + 1;
    }
    assert octets == number;
    var header := [ctype] + BigEndian(VERSION, 2) + octets + BigEndian(0, 2);
    Copy(buf, 0, header);
  }

  /** The loop over the payload pieces: each is checked for room, then copied. */
  method AppendPieces(pieces: seq<seq<byte>>, buf: array<byte>, base: nat, rlen: nat) returns (ok: bool, res: nat)
    requires rlen <= buf.Length && |pieces| >= 1
    modifies buf
    ensures ok <==> base + HEADER_LENGTH + |Flat(pieces)| <= rlen
    ensures ok ==> res == base + |Flat(pieces)| && buf[..] == Splice(old(buf[..]), HEADER_LENGTH + base, Flat(pieces))
  {
    hide Splice, Done, Flat;
    ghost var was, all := buf[..], Flat(pieces);
    FlatStarts(pieces);
    res := base;
    var i := 0;
    if HEADER_LENGTH + base <= buf.Length { DoneNothing(was, all, HEADER_LENGTH + base); }
    while i < |pieces|
      invariant 0 <= i <= |pieces| && res == base + |Flat(pieces[..i])|
      invariant i > 0 ==> HEADER_LENGTH + res <= rlen
      invariant HEADER_LENGTH + base <= buf.Length ==> Done(buf[..], was, all, HEADER_LENGTH + base, res - base)
    {
      FlatLonger(pieces, i + 1);
      FlatNext(pieces, i);
      if rlen < res + HEADER_LENGTH + |pieces[i]| { return false, res; }
      FlatPiece(pieces, i);
      Continue(buf, was, all, HEADER_LENGTH + base, res - base, pieces[i]);
      res := res + |pieces[i]|;
      i := i + 1;
    }
    assert pieces[..i] == pieces;
    DoneIsSplice(buf[..], was, all, HEADER_LENGTH + base);
    ok := true;
  }

  lemma FlatStarts(pieces: seq<seq<byte>>)
    ensures Flat(pieces[..0]) == []
  {
  }

  lemma FlatNext(pieces: seq<seq<byte>>, i: nat)
    requires i < |pieces|
    ensures |Flat(pieces[..i + 1])| == |Flat(pieces[..i])| + |pieces[i]|
  {
    assert pieces[..i + 1][..i] == pieces[..i];
  }

  /** Where piece `i` lies in the whole. */
  lemma {:induction false} FlatPiece(pieces: seq<seq<byte>>, i: nat)
    requires i < |pieces|
    ensures var n := |Flat(pieces[..i])|; n + |pieces[i]| <= |Flat(pieces)| && Flat(pieces)[n..n + |pieces[i]|] == pieces[i]
  {
    var front := pieces[..|pieces| - 1];
    if i < |front| {
      FlatPiece(front, i);
      assert front[..i] == pieces[..i];
    } else {
      assert pieces[..i] == front;
    }
  }

  ghost function Base(s: Option<Security>): nat {
    if s.None? || s.value.cipher == NULL_CIPHER then 0 else 8
  }

  ghost predicate Keyed(s: Option<Security>) {
    s.Some? && s.value.cipher != NULL_CIPHER
  }

  /** The room check of dtls_prepare_record: header, explicit nonce and payload, but not the tag. */
  ghost predicate Passes(s: Option<Security>, n: nat, rlen: nat) {
    HEADER_LENGTH + Base(s) + n <= rlen
  }

  /** In `size` octets of buffer the explicit nonce, which is written before the room check, or the tag would not fit. */
  ghost predicate Spills(s: Option<Security>, n: nat, rlen: nat, size: nat) {
    Keyed(s) && (size < 21 || (Passes(s, n, rlen) && size < 29 + n))
  }

  /**
   * What the room check lets through is longer than the buffer it was told of, by one to eight octets, exactly under
   * a cipher and when the payload comes within eight octets of the limit.
   */
  lemma OverrunExactly(aes: Aes, role: Role, s: Option<Security>, ctype: byte, payload: seq<byte>, rlen: nat)
    requires rlen >= 21
    ensures var n := |Protect(aes, role, s, ctype, payload)|;
      && (Passes(s, |payload|, rlen) && n > rlen <==> Keyed(s) && rlen < 29 + |payload| <= rlen + 8)
      && (Passes(s, |payload|, rlen) ==> n <= rlen + 8)
      && (Passes(s, |payload|, rlen) && n > rlen <==> Spills(s, |payload|, rlen, rlen))
  {
    hide Protect;
    ProtectLength(aes, role, s, ctype, payload);
  }

  /** With the static buffer of dtls_send_multi: 172 to 179 octets under a cipher; with more nothing is sent. */
  lemma SendOverruns(c: Config, w: World, e: Endpoint, ctype: byte, payload: seq<byte>)
    ensures var f := Send(c, w, e, ctype, payload).e;
      && (Room(e.s0, |payload|) <==> |f.sent| == |e.sent| + 1)
      && (|f.sent| == |e.sent| + 1 && |f.sent[|e.sent|].bytes| > MAX_BUF <==> Keyed(e.s0) && 172 <= |payload| <= 179)
  {
    hide Protect;
    ProtectLength(c.aes, e.role, e.s0, ctype, payload);
  }

  /**
   * dtls_prepare_record, in a buffer of at least the `rlen` octets it is told of. Where the code would write behind
   * the buffer, the method stops and says so.
   */
  method PrepareRecord(aes: Aes, role: Role, security: SecurityParameters?, ctype: byte, pieces: seq<seq<byte>>,
                       sendbuf: array<byte>, rlen: nat) returns (err: int, len: nat, spilt: bool)
    requires Usable(security) && sendbuf !in Footprint(security)
    requires rlen <= sendbuf.Length && |pieces| >= 1
    modifies Footprint(security), sendbuf
    ensures rlen < HEADER_LENGTH ==>
      !spilt && err == Fatal(INTERNAL_ERROR) && ValueOf(security) == old(ValueOf(security)) && sendbuf[..] == old(sendbuf[..])
    ensures rlen >= HEADER_LENGTH ==>
      && ValueOf(security) == Bumped(old(ValueOf(security)))
      && (spilt <==> Spills(old(ValueOf(security)), |Flat(pieces)|, rlen, sendbuf.Length))
      && (!spilt ==> err == if Passes(old(ValueOf(security)), |Flat(pieces)|, rlen) then 0 else Fatal(INTERNAL_ERROR))
    ensures rlen >= HEADER_LENGTH && !spilt && err == 0 ==>
      && len <= sendbuf.Length && sendbuf[..len] == Protect(aes, role, old(ValueOf(security)), ctype, Flat(pieces))
      && Carries(aes, role, old(ValueOf(security)), ctype, Flat(pieces), sendbuf[..len])
  {
    hide Protect, Carries, Flat;
    if rlen < HEADER_LENGTH { return Fatal(INTERNAL_ERROR), 0, false; }
    ProtectOctets(aes, role, ValueOf(security), ctype, Flat(pieces));
    err, len, spilt := BuildRecord(aes, role, security, ctype, pieces, sendbuf, rlen);
  }

  /** The same, once there is room for a header. */
  method BuildRecord(aes: Aes, role: Role, security: SecurityParameters?, ctype: byte, pieces: seq<seq<byte>>,
                     sendbuf: array<byte>, rlen: nat) returns (err: int, len: nat, spilt: bool)
    requires Usable(security) && sendbuf !in Footprint(security)
    requires HEADER_LENGTH <= rlen <= sendbuf.Length && |pieces| >= 1
    modifies Footprint(security), sendbuf
    ensures ValueOf(security) == Bumped(old(ValueOf(security)))
    ensures spilt <==> Spills(old(ValueOf(security)), |Flat(pieces)|, rlen, sendbuf.Length)
    ensures !spilt ==> err == if Passes(old(ValueOf(security)), |Flat(pieces)|, rlen) then 0 else Fatal(INTERNAL_ERROR)
    ensures !spilt && err == 0 ==>
      len <= sendbuf.Length && sendbuf[..len] == Protect(aes, role, old(ValueOf(security)), ctype, Flat(pieces))
  {
    hide Splice, BigEndian, Protect, Sealed, Encrypt, Header;
    ghost var s, number, payload := ValueOf(security), NumberOf(ValueOf(security)), Flat(pieces);
    SetRecordHeader(ctype, security, sendbuf);
    SpliceReads(old(sendbuf[..]), 0, Header(ctype, number, 0));
    assert sendbuf[..13] == Header(ctype, number, 0);
    HeaderNumber(ctype, number, 0);
    ghost var b1 := sendbuf[..];
    var ok, res;
    spilt := false;
    if security == null || security.cipher == NULL_CIPHER {
      ok, res := AppendPieces(pieces, sendbuf, 0, rlen);
      if !ok { return Fatal(INTERNAL_ERROR), 0, false; }
      SpliceReads(b1, 13, payload);
    } else {
      ok, res, spilt := EncryptPieces(aes, role, security, ctype, pieces, sendbuf, rlen, number);
      if spilt { return 0, 0, true; }
      if !ok { return Fatal(INTERNAL_ERROR), 0, false; }
    }
    ghost var b2, f := sendbuf[..], sendbuf[13..13 + res];
    assert b2[..13] == Header(ctype, number, 0);
    Copy(sendbuf, 11, BigEndian(res, 2));
    LengthFixed(b2, sendbuf[..], ctype, number, f);
    ProtectIs(aes, role, s, ctype, payload, f);
    err, len := 0, HEADER_LENGTH + res;
  }

  lemma HeaderNumber(ctype: byte, number: seq<byte>, length: nat)
    requires |number| == 8
    ensures var h := Header(ctype, number, length); h[3..11] == number && h[0..3] == [ctype] + BigEndian(VERSION, 2) && h[0] == ctype
  {
    hide BigEndian;
  }

  /** Writing the length over a header with length 0. */
  lemma LengthFixed(b: seq<byte>, d: seq<byte>, ctype: byte, number: seq<byte>, f: seq<byte>)
    requires |number| == 8 && 13 + |f| <= |b| && b[..13] == Header(ctype, number, 0) && b[13..13 + |f|] == f
    requires d == Splice(b, 11, BigEndian(|f|, 2))
    ensures |d| == |b| && d[..13 + |f|] == Header(ctype, number, |f|) + f
  {
    hide BigEndian;
    var h := Header(ctype, number, 0);
    assert b[..11] == h[..11] == [ctype] + BigEndian(VERSION, 2) + number;
    assert d[..11] == b[..11] && d[11..13] == BigEndian(|f|, 2);
    assert d[13..13 + |f|] == b[13..13 + |f|] == f;
    assert d[..13 + |f|] == d[..11] + d[11..13] + d[13..13 + |f|];
  }

  lemma ProtectIs(aes: Aes, role: Role, s: Option<Security>, ctype: byte, payload: seq<byte>, f: seq<byte>)
    requires f == if s.None? then payload else Fragment(aes, role, s.value, ctype, payload)
    ensures Protect(aes, role, s, ctype, payload) == Header(ctype, NumberOf(s), |f|) + f
  {
    hide Fragment, RecordNumber, Header;
  }

  /** Explicit nonce, payload and tag behind the header. */
  method EncryptPieces(aes: Aes, role: Role, security: SecurityParameters, ctype: byte, pieces: seq<seq<byte>>,
                       sendbuf: array<byte>, rlen: nat, ghost number: seq<byte>) returns (ok: bool, res: nat, spilt: bool)
    requires security.Valid() && sendbuf != security.keyBlock
    requires HEADER_LENGTH <= rlen <= sendbuf.Length && |pieces| >= 1 && |number| == 8
    requires sendbuf[3..11] == number && sendbuf[0..3] == [ctype] + BigEndian(VERSION, 2)
    modifies sendbuf
    ensures spilt <==> sendbuf.Length < 21 || (21 + |Flat(pieces)| <= rlen && sendbuf.Length < 29 + |Flat(pieces)|)
    ensures !spilt ==> (ok <==> 21 + |Flat(pieces)| <= rlen)
    ensures !spilt && ok ==> res == 16 + |Flat(pieces)| && sendbuf[..13] == old(sendbuf[..13])
    ensures !spilt && ok ==> var kb := security.keyBlock[..];
                   sendbuf[13..13 + res] == number + Sealed(aes(LocalKey(role, kb)), LocalIv(role, kb),
                                                            number, [ctype] + BigEndian(VERSION, 2), Flat(pieces))
  {
    hide Splice, BigEndian, Encrypt;
    ghost var b0, payload := sendbuf[..], Flat(pieces);
    if sendbuf.Length < 21 { return false, 0, true; }
    var start := sendbuf[3..11];
    Copy(sendbuf, 13, start);
    SpliceReads(b0, 13, number);
    ghost var b1 := sendbuf[..];
    ok, res := AppendPieces(pieces, sendbuf, 8, rlen);
    if !ok { return false, 0, false; }
    if sendbuf.Length < 21 + res { return false, 0, true; }
    SpliceReads(b1, 21, payload);
    ghost var b2 := sendbuf[..];
    Kept(b0, b1, b2, number);
    var kb := security.keyBlock[..];
    var iv := if role == Client then kb[32..36] else kb[36..40];
    var nonce := iv + sendbuf[13..21] + Zeros(4);
    var aData := sendbuf[3..11] + sendbuf[0..3] + BigEndian(res - 8, 2);
    var key := if role == Client then kb[0..16] else kb[16..32];
    assert sendbuf[21..21 + (res - 8)] == payload;
    var n := Ccm.EncryptMessage(aes(key), 8, 3, nonce, sendbuf, 21, res - 8, aData);
    ghost var c := Sealed(aes(key), iv, number, [ctype] + BigEndian(VERSION, 2), payload);
    SpliceReads(b2, 21, c);
    FrontAndRest(b2, sendbuf[..], number, c);
    res, spilt := n + 8, false;
  }

  /** The header is untouched, and the number now stands in two places. */
  lemma Kept(b0: seq<byte>, b1: seq<byte>, b2: seq<byte>, number: seq<byte>)
    requires |b0| == |b1| == |b2| >= 21 && |number| == 8
    requires b1[..13] == b0[..13] && b1[13..21] == number && b2[..21] == b1[..21] && b0[3..11] == number
    ensures b2[..13] == b0[..13] && b2[3..11] == number && b2[13..21] == number && b2[0..3] == b0[0..3]
  {
    assert b2[..13] == b2[..21][..13] && b1[..13] == b1[..21][..13];
    assert b2[3..11] == b2[..13][3..11] && b0[3..11] == b0[..13][3..11];
    assert b2[13..21] == b2[..21][13..21] && b1[13..21] == b1[..21][13..21];
    assert b2[0..3] == b2[..13][0..3] && b0[0..3] == b0[..13][0..3];
  }

  lemma FrontAndRest(b: seq<byte>, d: seq<byte>, number: seq<byte>, c: seq<byte>)
    requires |b| == |d| && 21 + |c| <= |d| && d[..21] == b[..21] && d[21..21 + |c|] == c && b[13..21] == number
    ensures d[..13] == b[..13] && d[13..21 + |c|] == number + c
  {
    assert d[..13] == d[..21][..13] && b[..13] == b[..21][..13];
    assert d[13..21] == d[..21][13..21] && b[13..21] == b[..21][13..21];
    assert d[13..21 + |c|] == d[13..21] + d[21..21 + |c|];
  }

  /** Where the cleartext is and how long, or -1. */
  ghost predicate LiesAt(o: Opened, packet: seq<byte>, clen: int, cleartext: nat) {
    match o
    case Rejected => clen == -1
    case Accepted(m) => clen == |m| && cleartext + |m| <= |packet| && packet[cleartext..cleartext + |m|] == m
  }

  lemma OpenedSeals(aes: Aes, role: Role, s: Security, record: seq<byte>, packet: seq<byte>, clen: int, cleartext: nat)
    requires |record| >= 13 && s.cipher != 0 && LiesAt(Unprotect(aes, role, s, record), packet, clen, cleartext)
    ensures var sender := if role == Client then Server else Client;
      && (clen >= 0 ==> cleartext + clen <= |packet| && Seals(aes, sender, s.keyBlock, record, packet[cleartext..cleartext + clen]))
      && (clen < 0 ==> clen == -1 && forall m :: !Seals(aes, sender, s.keyBlock, record, m))
  {
    hide Seals, Unprotect;
    var sender := if role == Client then Server else Client;
    if clen >= 0 { OpensExactly(aes, role, s, record, packet[cleartext..cleartext + clen]); }
    forall m ensures Seals(aes, sender, s.keyBlock, record, m) ==> Unprotect(aes, role, s, record) == Accepted(m) {
      OpensExactly(aes, role, s, record, m);
    }
  }

  /**
   * decrypt_verify, once the security parameters are found: where the cleartext begins and how long it is, or
   * -1. Only the fragment is written to.
   */
  method DecryptVerify(aes: Aes, role: Role, security: SecurityParameters, packet: array<byte>, off: nat, length: nat)
    returns (clen: int, cleartext: nat)
    requires security.Valid() && packet != security.keyBlock && HEADER_LENGTH <= length && off + length <= packet.Length
    modifies packet
    ensures LiesAt(Unprotect(aes, role, security.Value(), old(packet[off..off + length])), packet[..], clen, cleartext)
    ensures security.cipher != 0 ==>
      var sender, record := if role == Client then Server else Client, old(packet[off..off + length]);
      && (clen >= 0 ==> cleartext + clen <= packet.Length
                         && Seals(aes, sender, security.keyBlock[..], record, packet[cleartext..cleartext + clen]))
      && (clen < 0 ==> clen == -1 && forall m :: !Seals(aes, sender, security.keyBlock[..], record, m))
    ensures packet[..off + 13] == old(packet[..off + 13]) && packet[off + length..] == old(packet[off + length..])
  {
    hide Unprotect, LiesAt, Seals;
    ghost var record, s := packet[off..off + length], security.Value();
    clen, cleartext := OpenInPlace(aes, role, security, packet, off, length);
    if security.cipher != 0 { OpenedSeals(aes, role, s, record, packet[..], clen, cleartext); }
  }

  method OpenInPlace(aes: Aes, role: Role, security: SecurityParameters, packet: array<byte>, off: nat, length: nat)
    returns (clen: int, cleartext: nat)
    requires security.Valid() && packet != security.keyBlock && HEADER_LENGTH <= length && off + length <= packet.Length
    modifies packet
    ensures LiesAt(Unprotect(aes, role, security.Value(), old(packet[off..off + length])), packet[..], clen, cleartext)
    ensures packet[..off + 13] == old(packet[..off + 13]) && packet[off + length..] == old(packet[off + length..])
  {
    hide Splice, BigEndian, Decrypt, Unmasked;
    ghost var was, r := packet[..], packet[off..off + length];
    cleartext := off + HEADER_LENGTH;
    clen := length - HEADER_LENGTH;
    if security.cipher == NULL_CIPHER {
      assert packet[cleartext..cleartext + clen] == r[13..];
      return;
    }
    if clen < 16 { return -1, cleartext; }
    var kb := security.keyBlock[..];
    var iv := if role == Server then kb[32..36] else kb[36..40];
    var nonce := iv + packet[cleartext..cleartext + 8] + Zeros(4);
    cleartext := cleartext + 8;
    clen := clen - 8;
    var aData := packet[off + 3..off + 11] + packet[off..off + 3] + BigEndian(clen - 8, 2);
    var key := if role == Server then kb[0..16] else kb[16..32];
    Inside(was, off, length, r);
    var n := clen;
    clen := Ccm.DecryptMessage(aes(key), 8, 3, nonce, packet, cleartext, n, aData);
    Outside(was, packet[..], cleartext, Unmasked(aes(key), 8, 3, nonce, was[cleartext..cleartext + n]), off + 13, off + length);
  }

  /** The parts of a record within its datagram. */
  lemma Inside(p: seq<byte>, off: nat, length: nat, r: seq<byte>)
    requires off + length <= |p| && length >= 29 && r == p[off..off + length]
    ensures p[off + 13..off + 21] == r[13..21] && p[off + 3..off + 11] == r[3..11] && p[off..off + 3] == r[0..3]
    ensures p[off + 21..off + length] == r[21..]
  {
    var q := p[off..];
    assert q[..length] == r;
    assert p[off + 13..off + 21] == q[13..21] && p[off + 3..off + 11] == q[3..11] && p[off..off + 3] == q[0..3];
    assert p[off + 21..off + length] == q[21..length];
  }

  lemma Outside(p: seq<byte>, q: seq<byte>, at: nat, b: seq<byte>, i: nat, j: nat)
    requires at + |b| <= |p| && q == Splice(p, at, b) && i <= at && at + |b| <= j <= |p|
    ensures |q| == |p| && q[..i] == p[..i] && q[j..] == p[j..]
  {
    SpliceReads(p, at, b);
    assert q[..i] == q[..at][..i] && p[..i] == p[..at][..i];
    assert q[j..] == q[at + |b|..][j - at - |b|..] && p[j..] == p[at + |b|..][j - at - |b|..];
  }
}

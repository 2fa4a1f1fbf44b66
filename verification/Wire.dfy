/**
 * What goes over the wire, octet by octet: numbers written out where the other modules name the parts of a record, of
 * a key derivation and of a handshake message.
 */
module Wire {
  import opened Bytes
  import opened CcmSpec
  import opened Prf
  import Ccm
  import opened Peers
  import opened RecordSpec
  import opened Datagram
  import opened Reorder
  import opened Hello
  import opened Engine

  // ---------------------------------------------------------------- integers

  lemma Two(n: nat)
    ensures BigEndian(n, 2) == [n / 256 % 256, n % 256]
  {
    assert BigEndian(n / 256, 1) == [n / 256 % 256] by { assert BigEndian(n / 256 / 256, 0) == []; }
  }

  lemma Three(n: nat)
    ensures BigEndian(n, 3) == [n / 0x1_0000 % 256, n / 256 % 256, n % 256]
  {
    Two(n / 256);
    assert n / 256 / 256 == n / 0x1_0000;
  }

  /** Of a number that does not fit, the low octets are written. */
  lemma Six(n: nat)
    ensures Value(BigEndian(n, 6)) == n % 0x1_0000_0000_0000
  {
    hide BigEndian, Value;
    assert Pow256(6) == 0x1_0000_0000_0000 by { PowerSix(); }
    Ccm.MaskIsHarmless(n, 6);
    ValueOfBigEndian(n % Pow256(6), 6);
  }

  lemma PowerSix()
    ensures Pow256(6) == 0x1_0000_0000_0000
  {
    assert Pow256(2) == 0x1_0000 by { assert Pow256(1) == 256; }
    assert Pow256(4) == 0x1_0000_0000 by { assert Pow256(3) == 0x100_0000; }
    assert Pow256(5) == 0x100_0000_0000;
  }

  // ---------------------------------------------------------------- CCM with the parameters of a record

  /** S_i for a nonce of twelve octets: L - 1 = 2, the nonce, and the counter. */
  function KeyStream(E: BlockCipher, nonce: seq<byte>, i: nat): Block
    requires |nonce| == 12
  {
    E([2] + nonce + [i / 0x1_0000 % 256, i / 256 % 256, i % 256])
  }

  /** What the MAC of `m` with thirteen octets of additional data runs over, up to `z` zeroes. */
  function Authenticated(nonce: seq<byte>, x: seq<byte>, m: seq<byte>, z: nat): seq<byte>
    requires |nonce| == 12
  {
    [0x5a] + nonce + [|m| / 0x1_0000 % 256, |m| / 256 % 256, |m| % 256] + [0, 13] + x + [0] + m + Zeros(z)
  }

  lemma CounterIs(E: BlockCipher, nonce: seq<byte>, i: nat)
    requires |nonce| == 12
    ensures E(CounterBlock(3, nonce + Zeros(4), i)) == KeyStream(E, nonce, i)
  {
    hide BigEndian;
    Three(i);
    assert (nonce + Zeros(4))[..12] == nonce;
  }

  lemma FirstBlockIs(nonce: seq<byte>, n: nat)
    requires |nonce| == 12
    ensures B0(8, 3, nonce + Zeros(4), 13, n) == [0x5a] + nonce + [n / 0x1_0000 % 256, n / 256 % 256, n % 256]
  {
    hide BigEndian;
    Three(n);
    assert (nonce + Zeros(4))[..12] == nonce;
  }

  lemma DataBlockIs(x: seq<byte>)
    requires |x| == 13
    ensures AadBlocks(x) == [0, 13] + x + [0]
  {
    Two(13);
    assert PadLength(15) == 1;
    assert |LengthPrefix(13) + x| == 15;
  }

  /** Masked octet by octet, and a tag of the first eight octets of the CBC-MAC: sections 2.2 and 2.3 of RFC 3610. */
  lemma CcmOctets(E: BlockCipher, nonce: seq<byte>, x: seq<byte>, m: seq<byte>) returns (z: nat, k: nat)
    requires |nonce| == 12 && |x| == 13
    ensures z < 16 && |Authenticated(nonce, x, m, z)| == 16 * k
    ensures var c := Encrypt(E, 8, 3, nonce + Zeros(4), x, m); var n := |m|;
      && |c| == n + 8
      && (forall i :: 0 <= i < n ==> c[i] == Xor(m[i], KeyStream(E, nonce, i / 16 + 1)[i % 16]))
      && c[n..] == XorSeq(Cbc(E, Zeros(16), Authenticated(nonce, x, m, z))[..8], KeyStream(E, nonce, 0))
  {
    hide Encrypt, Crypt, CounterBlock, Authenticated, KeyStream, Cbc, Mac, XorSeq;
    z, k := MacOctets(E, nonce, x, m);
    CounterIs(E, nonce, 0);
    var tag := Tag(E, 8, 3, nonce + Zeros(4), x, m);
    Ccm.EncryptIs(E, 8, 3, nonce + Zeros(4), x, m, tag);
    var c := Encrypt(E, 8, 3, nonce + Zeros(4), x, m);
    forall i | 0 <= i < |m| ensures c[i] == Xor(m[i], KeyStream(E, nonce, i / 16 + 1)[i % 16]) {
      MaskedOctet(E, nonce, m, i / 16, i % 16);
    }
  }

  lemma MaskedOctet(E: BlockCipher, nonce: seq<byte>, m: seq<byte>, k: nat, r: nat)
    requires |nonce| == 12 && r < 16 && 16 * k + r < |m|
    ensures Crypt(E, 3, nonce + Zeros(4), m)[16 * k + r] == Xor(m[16 * k + r], KeyStream(E, nonce, k + 1)[r])
  {
    hide Crypt, CounterBlock, KeyStream, XorSeq;
    var len := if 16 * k + 16 <= |m| then 16 else |m| - 16 * k;
    var c, s := Crypt(E, 3, nonce + Zeros(4), m), KeyStream(E, nonce, k + 1);
    Ccm.CryptBlock(E, 3, nonce + Zeros(4), m, k, len);
    CounterIs(E, nonce, k + 1);
    XorSeqAt(m[16 * k..16 * k + len], s, r);
    assert c[16 * k..16 * k + len][r] == c[16 * k + r];
  }

  lemma MacOctets(E: BlockCipher, nonce: seq<byte>, x: seq<byte>, m: seq<byte>) returns (z: nat, k: nat)
    requires |nonce| == 12 && |x| == 13
    ensures z < 16 && |Authenticated(nonce, x, m, z)| == 16 * k
    ensures Mac(E, 8, 3, nonce + Zeros(4), x, m) == Cbc(E, Zeros(16), Authenticated(nonce, x, m, z))
  {
    hide Cbc, B0, AadBlocks;
    z := PadLength(|m|);
    var j := Ccm.PadBlocks(|m|);
    k := j + 2;
    var b, a, p := B0(8, 3, nonce + Zeros(4), 13, |m|), AadBlocks(x), Pad(m);
    FirstBlockIs(nonce, |m|);
    DataBlockIs(x);
    FirstBlockOfCbc(E, b);
    Ccm.CbcConcat(E, Zeros(16), b, a + p, j + 1);
    assert Authenticated(nonce, x, m, z) == b + (a + p);
  }

  // ---------------------------------------------------------------- records

  /** Type, version 254 253, epoch, sequence number, length. */
  ghost predicate Headed(record: seq<byte>, ctype: byte, epoch: nat, rseq: nat) {
    && |record| >= 13 && record[0] == ctype && record[1] == 254 && record[2] == 253
    && record[3] == epoch / 256 % 256 && record[4] == epoch % 256 && Value(record[5..11]) == rseq % 0x1_0000_0000_0000
    && record[11] == (|record| - 13) / 256 % 256 && record[12] == (|record| - 13) % 256
  }

  /**
   * The record carries `payload` under the write keys that `writer` has in the key block: the four octets of salt and
   * the eight that follow the header are the nonce; number, type, version and length are authenticated.
   */
  ghost predicate Seals(aes: Aes, writer: Role, kb: KeyBlock, record: seq<byte>, payload: seq<byte>) {
    && |record| == 29 + |payload|
    && var key := if writer == Client then kb[0..16] else kb[16..32];
       var iv := if writer == Client then kb[32..36] else kb[36..40];
       record[21..] == Encrypt(aes(key), 8, 3, iv + record[13..21] + Zeros(4),
                               record[3..11] + record[..3] + [|payload| / 256 % 256, |payload| % 256], payload)
  }

  /** The record an endpoint in `role` makes of `payload` with these security parameters. */
  ghost predicate Carries(aes: Aes, role: Role, s: Option<Security>, ctype: byte, payload: seq<byte>, record: seq<byte>) {
    match s
    case None => Headed(record, ctype, 0, 0) && record[13..] == payload
    case Some(v) =>
      && Headed(record, ctype, v.epoch, v.rseq)
      && if v.cipher == 0 then record[13..] == payload
         else Seals(aes, role, v.keyBlock, record, payload) && record[13..21] == record[3..11]
  }

  lemma HeaderOctets(ctype: byte, number: seq<byte>, f: seq<byte>, epoch: nat, rseq: nat)
    requires |number| == 8 && number == BigEndian(epoch, 2) + BigEndian(rseq, 6)
    ensures var r := Header(ctype, number, |f|) + f; Headed(r, ctype, epoch, rseq) && r[13..] == f && r[3..11] == number
    ensures var r := Header(ctype, number, |f|) + f; r[..3] == [ctype, 254, 253]
  {
    hide BigEndian, Value;
    Two(VERSION);
    Two(epoch);
    Two(|f|);
    Six(rseq);
    var r := Header(ctype, number, |f|) + f;
    HeaderParts(ctype, number, |f|, f);
    assert r[..3] == r[0..3];
    assert r[5..11] == BigEndian(rseq, 6);
    assert r[3..5] == BigEndian(epoch, 2) && r[11..13] == BigEndian(|f|, 2);
    assert r[3..5][0] == r[3] && r[3..5][1] == r[4] && r[11..13][0] == r[11] && r[11..13][1] == r[12];
  }

  lemma SealedIs(aes: Aes, role: Role, s: Security, ctype: byte, payload: seq<byte>)
    requires s.cipher != NULL_CIPHER
    ensures var number := RecordNumber(s.epoch, s.rseq); var kb := s.keyBlock;
      var key := if role == Client then kb[0..16] else kb[16..32];
      var iv := if role == Client then kb[32..36] else kb[36..40];
      Fragment(aes, role, s, ctype, payload) == number +
        Encrypt(aes(key), 8, 3, iv + number + Zeros(4),
                number + [ctype, 254, 253] + [|payload| / 256 % 256, |payload| % 256], payload)
  {
    hide BigEndian, Encrypt;
    Two(VERSION);
    Two(|payload|);
    assert [ctype] + [254, 253] == [ctype, 254, 253];
  }

  /** Every record an endpoint makes is of this form, whatever its security parameters, type and payload. */
  lemma ProtectOctets(aes: Aes, role: Role, s: Option<Security>, ctype: byte, payload: seq<byte>)
    ensures Carries(aes, role, s, ctype, payload, Protect(aes, role, s, ctype, payload))
  {
    hide Header, Headed, BigEndian, Encrypt, Fragment;
    BigEndianOfZero(2);
    BigEndianOfZero(6);
    if s.None? {
      assert Zeros(8) == BigEndian(0, 2) + BigEndian(0, 6);
      HeaderOctets(ctype, Zeros(8), payload, 0, 0);
    } else {
      var number, f := RecordNumber(s.value.epoch, s.value.rseq), Fragment(aes, role, s.value, ctype, payload);
      HeaderOctets(ctype, number, f, s.value.epoch, s.value.rseq);
      if s.value.cipher == NULL_CIPHER { PlainFragment(aes, role, s.value, ctype, payload); }
      else {
        SealedIs(aes, role, s.value, ctype, payload);
        SealedRecord(aes, role, s.value.keyBlock, Header(ctype, number, |f|) + f, number, ctype, payload);
      }
    }
  }

  lemma PlainFragment(aes: Aes, role: Role, s: Security, ctype: byte, payload: seq<byte>)
    requires s.cipher == NULL_CIPHER
    ensures Fragment(aes, role, s, ctype, payload) == payload
  {
  }

  lemma SealedRecord(aes: Aes, role: Role, kb: KeyBlock, r: seq<byte>, number: seq<byte>, ctype: byte, payload: seq<byte>)
    requires |number| == 8 && |r| >= 13 && r[3..11] == number && r[..3] == [ctype, 254, 253]
    requires var key := if role == Client then kb[0..16] else kb[16..32];
      var iv := if role == Client then kb[32..36] else kb[36..40];
      r[13..] == number + Encrypt(aes(key), 8, 3, iv + number + Zeros(4),
                                  number + [ctype, 254, 253] + [|payload| / 256 % 256, |payload| % 256], payload)
    ensures Seals(aes, role, kb, r, payload) && r[13..21] == r[3..11]
  {
    hide Encrypt;
    var f := r[13..];
    assert f[..8] == number;
    assert r[13..21] == f[..8] && r[21..] == f[8..];
  }

  /** What is accepted under a cipher: exactly what the other role seals; and without one, anything. */
  lemma OpensExactly(aes: Aes, role: Role, s: Security, record: seq<byte>, payload: seq<byte>)
    requires |record| >= 13
    ensures Unprotect(aes, role, s, record) == Accepted(payload) <==>
      if s.cipher == 0 then payload == record[13..]
      else Seals(aes, if role == Client then Server else Client, s.keyBlock, record, payload)
  {
    hide Encrypt, Decrypt, BigEndian;
    if s.cipher != 0 {
      AcceptsOnlySealed(aes, role, s, record, payload);
      Two(|payload|);
      assert record[..3] == record[0..3];
    }
  }

  // ---------------------------------------------------------------- keys (sections 5, 6.3, 7.4.9 and 8.1 of RFC 5246)

  /** The 48 octets of a master secret: "master secret", client random, server random, under the pre-master secret. */
  ghost predicate IsMaster(h: Hash, secret: seq<byte>, client: seq<byte>, server: seq<byte>, master: seq<byte>) {
    |master| == 48 && Expands(h, secret, [109, 97, 115, 116, 101, 114, 32, 115, 101, 99, 114, 101, 116] + client + server, master)
  }

  /** The 40 octets of a key block: "key expansion", server random, client random, under the master secret. */
  ghost predicate IsKeyBlock(h: Hash, master: seq<byte>, client: seq<byte>, server: seq<byte>, kb: seq<byte>) {
    |kb| == 40 && Expands(h, master, [107, 101, 121, 32, 101, 120, 112, 97, 110, 115, 105, 111, 110] + server + client, kb)
  }

  /** The 12 octets of a Finished: "client finished" or "server finished" by who sends it, and the hash of the transcript. */
  ghost predicate IsVerify(h: Hash, master: seq<byte>, sender: Role, transcript: seq<byte>, verify: seq<byte>) {
    |verify| == 12 && Expands(h, master,
      (if sender == Client then [99, 108, 105, 101, 110, 116, 32, 102, 105, 110, 105, 115, 104, 101, 100]
       else [115, 101, 114, 118, 101, 114, 32, 102, 105, 110, 105, 115, 104, 101, 100]) + h(transcript), verify)
  }

  lemma MasterOctets(h: Hash, secret: seq<byte>, client: seq<byte>, server: seq<byte>)
    ensures IsMaster(h, secret, client, server, MasterSecret(h, secret, client, server))
  {
    hide PHash, Expands;
    PHashExpands(h, secret, MASTER_SECRET + client + server, 48);
  }

  lemma KeyBlockOctets(h: Hash, master: seq<byte>, client: seq<byte>, server: seq<byte>)
    ensures IsKeyBlock(h, master, client, server, KeyBlockOf(h, master, client, server))
  {
    hide PHash, Expands;
    PHashExpands(h, master, KEY_EXPANSION + server + client, 40);
  }

  lemma VerifyOctets(h: Hash, master: seq<byte>, sender: Role, transcript: seq<byte>)
    ensures IsVerify(h, master, sender, transcript, VerifyData(h, master, sender, transcript))
  {
    hide PHash, Expands;
    PHashExpands(h, master, Label(sender) + FINISHED + h(transcript), 12);
    assert Label(Client) + FINISHED == [99, 108, 105, 101, 110, 116, 32, 102, 105, 110, 105, 115, 104, 101, 100];
    assert Label(Server) + FINISHED == [115, 101, 114, 118, 101, 114, 32, 102, 105, 110, 105, 115, 104, 101, 100];
  }

  /** The octets of a Finished are determined, so that comparing with them is comparing with the PRF. */
  lemma VerifyExactly(h: Hash, master: seq<byte>, sender: Role, transcript: seq<byte>, v: seq<byte>)
    ensures IsVerify(h, master, sender, transcript, v) <==> v == VerifyData(h, master, sender, transcript)
  {
    hide VerifyData, Hmac, A;
    VerifyOctets(h, master, sender, transcript);
    var u := VerifyData(h, master, sender, transcript);
    if IsVerify(h, master, sender, transcript, v) {
      forall i | 0 <= i < 12 ensures v[i] == u[i] {}
    }
  }

  /** The pre-master secret of a key below 256 octets: its length, as many zeroes, its length, the key. */
  lemma PreMasterOctets(key: seq<byte>)
    requires |key| < 256
    ensures PreMaster(key) == [0, |key|] + Zeros(|key|) + [0, |key|] + key
  {
    hide BigEndian;
    Two(|key|);
  }

  /** One derivation, octet by octet: what it reads in the handshake, and what it leaves in the new slot and in the handshake. */
  lemma DerivationOctets(c: Config, w: World, e: Endpoint)
    requires e.hs.Some?
    ensures var r := CalculateKeyBlock(c, w, e); r.err >= 0 ==> Derives(c.hash, e, r.e)
    ensures CalculateKeyBlock(c, w, e).err >= 0 <==>
      if e.hs.value.cipher == 0xc0a8 then var reply := w.psk(e.clock, Key(e.hs.value.pskId)); reply.Given? && |reply.value| <= 18
      else e.hs.value.cipher == 0xc0ae
  {
    hide MasterSecret, KeyBlockOf, IsMaster, IsKeyBlock, PreMaster;
    var h := e.hs.value;
    var secret := PreMasterSecret(w, e, h);
    if h.cipher == 0xc0a8 && w.psk(e.clock, Key(h.pskId)).Given? { KeyBlockRoom(w.psk(e.clock, Key(h.pskId)).value); }
    if secret.Secret? {
      var client, server := h.tmp[..32], h.tmp[32..];
      var master := MasterSecret(c.hash, secret.value, client, server);
      MasterOctets(c.hash, secret.value, client, server);
      KeyBlockOctets(c.hash, master, client, server);
      Given(c.hash, e, CalculateKeyBlock(c, w, e).e, secret.value, master);
    }
  }

  /** From `a` to `b` keys have been derived. */
  ghost predicate Derives(h: Hash, a: Endpoint, b: Endpoint)
    requires a.hs.Some?
  {
    && b.hs.Some? && b.s1.Some? && |b.hs.value.trail| == |a.hs.value.trail| + 1
    && var was, now := a.hs.value.tmp, b.hs.value.tmp;
       var t := b.hs.value.trail[|a.hs.value.trail|];
       && t.KeysDerived? && t.client == was[..32] && t.server == was[32..]
       && IsMaster(h, t.secret, was[..32], was[32..], now[..48]) && now[48..] == was[48..]
       && IsKeyBlock(h, now[..48], was[..32], was[32..], b.s1.value.keyBlock)
       && b.s1.value.epoch == (if a.s0.None? then 1 else if a.s0.value.epoch == 65535 then 0 else a.s0.value.epoch + 1)
       && b.s1.value.rseq == 0 && b.s1.value.cipher == a.hs.value.cipher && b.s0 == a.s0
  }

  lemma Given(h: Hash, a: Endpoint, b: Endpoint, secret: seq<byte>, master: seq<byte>)
    requires a.hs.Some? && b.hs.Some? && b.s1.Some? && |master| == 48 && b.s0 == a.s0
    requires var was := a.hs.value.tmp;
      && b.hs.value.tmp == master + was[48..] && b.hs.value.trail == a.hs.value.trail + [KeysDerived(was[..32], was[32..], secret, master)]
      && IsMaster(h, secret, was[..32], was[32..], master) && IsKeyBlock(h, master, was[..32], was[32..], b.s1.value.keyBlock)
    requires b.s1.value.epoch == (if a.s0.None? then 1 else if a.s0.value.epoch == 65535 then 0 else a.s0.value.epoch + 1)
    requires b.s1.value.rseq == 0 && b.s1.value.cipher == a.hs.value.cipher
    ensures Derives(h, a, b)
  {
    hide IsMaster, IsKeyBlock;
    assert b.hs.value.tmp[..48] == master;
  }

  // ---------------------------------------------------------------- what is sent

  /** The last record of `b` is the only one more than in `a`, and carries `payload`. */
  ghost predicate Wrote(aes: Aes, a: Endpoint, b: Endpoint, ctype: byte, payload: seq<byte>) {
    && |b.sent| == |a.sent| + 1 && b.sent[..|a.sent|] == a.sent
    && Carries(aes, a.role, a.s0, ctype, payload, b.sent[|a.sent|].bytes)
  }

  lemma WroteFrom(aes: Aes, a: Endpoint, d: Endpoint, b: Endpoint, ctype: byte, payload: seq<byte>)
    requires Wrote(aes, a, b, ctype, payload) && d.sent == a.sent && d.role == a.role && d.s0 == a.s0
    ensures Wrote(aes, d, b, ctype, payload)
  {
  }

  /** Header, explicit nonce and payload must fit into 200 octets. */
  ghost predicate Fits(s: Option<Security>, n: nat) {
    n <= if s.Some? && s.value.cipher != 0 then 179 else 187
  }

  /**
   * dtls_send: a record of the payload, under the next number of slot 0, and what `write` makes of it less what
   * the record has more than the payload; or internal_error and nothing sent. The number is used up in either case.
   */
  lemma SendOctets(c: Config, w: World, e: Endpoint, ctype: byte, payload: seq<byte>)
    ensures var r := Send(c, w, e, ctype, payload);
      && r.e == e.(s0 := r.e.s0, clock := r.e.clock, sent := r.e.sent)
      && (e.s0.Some? ==> r.e.s0 == Some(e.s0.value.(rseq := e.s0.value.rseq + 1)))
      && (Fits(e.s0, |payload|) ==>
            && Wrote(c.aes, e, r.e, ctype, payload)
            && var bytes := r.e.sent[|e.sent|].bytes; var n := w.write(e.clock, bytes);
               r.err == if n <= 0 then n else n - (|bytes| - |payload|))
      && (!Fits(e.s0, |payload|) ==> r.err == -592 && r.e.sent == e.sent)
  {
    hide Protect, Carries;
    ProtectOctets(c.aes, e.role, e.s0, ctype, payload);
  }

  /** The twelve octets in front of an unfragmented message: type, length, number, fragment offset 0, fragment length. */
  function MessageHeader(kind: byte, n: nat, mseq: nat): (h: seq<byte>)
    ensures |h| == 12
  {
    var a, b, d := n / 0x1_0000 % 256, n / 256 % 256, n % 256;
    [kind, a, b, d, mseq / 256 % 256, mseq % 256, 0, 0, 0, a, b, d]
  }

  lemma HeaderIs(kind: byte, n: nat, mseq: uint16)
    ensures HandshakeHeader(kind, n, mseq) == MessageHeader(kind, n, mseq)
  {
    hide BigEndian;
    Three(n);
    Three(0);
    Two(mseq);
  }

  /** A handshake message: its header, numbered with mseq_s, and its body, in a record of type 22. */
  lemma HandshakeOctets(c: Config, w: World, e: Endpoint, kind: byte, body: seq<byte>, addHash: bool)
    ensures var r := SendHandshake(c, w, e, kind, body, addHash);
      var m := MessageHeader(kind, |body|, if e.hs.Some? then e.hs.value.mseqS else 0) + body;
      && (if Fits(e.s0, |m|) then Wrote(c.aes, e, r.e, 22, m) else r.err == -592 && r.e.sent == e.sent)
      && (e.hs.Some? ==>
            && r.e.hs.value.mseqS == (if e.hs.value.mseqS == 65535 then 0 else e.hs.value.mseqS + 1)
            && r.e.hs.value.transcript == e.hs.value.transcript + (if addHash then m else []))
  {
    hide Send, Carries, MessageHeader, HandshakeHeader;
    HeaderIs(kind, |body|, if e.hs.Some? then e.hs.value.mseqS else 0);
    SendOctets(c, w, Counted(e, kind, body, addHash), HANDSHAKE, HandshakeMessage(e, kind, body));
  }

  /** The Finished: type 20, and the twelve octets for the sender's role, the master secret and the transcript at hand. */
  lemma FinishedOctets(c: Config, w: World, e: Endpoint)
    requires e.hs.Some?
    ensures var r := SendFinished(c, w, e); var h := e.hs.value; var t := r.e.hs.value.trail;
      && |t| == |h.trail| + 1 && t[|h.trail|].FinishedSent?
      && var verify := t[|h.trail|].verify;
         && IsVerify(c.hash, h.tmp[..48], e.role, h.transcript, verify)
         && Wrote(c.aes, e, r.e, 22, MessageHeader(20, 12, h.mseqS) + verify)
         && r.e.hs.value.transcript == h.transcript + (MessageHeader(20, 12, h.mseqS) + verify)
  {
    hide SendHandshake, VerifyData, IsVerify, Carries, MessageHeader, SameBut;
    var h, verify := e.hs.value, VerifyData(c.hash, e.hs.value.tmp[..48], e.role, e.hs.value.transcript);
    VerifyOctets(c.hash, h.tmp[..48], e.role, h.transcript);
    var e1 := e.With(h.(trail := h.trail + [OwnFinished(c, e)]));
    var r := SendHandshake(c, w, e1, 20, verify, true);
    HandshakeOctets(c, w, e1, 20, verify, true);
    SendingTrail(e1, r.e);
    assert SendFinished(c, w, e) == r;
    assert r.e.hs.value.trail[|h.trail|] == OwnFinished(c, e);
    assert |MessageHeader(20, 12, h.mseqS) + verify| == 24;
    assert r.e.hs.value.trail[|h.trail|].verify == verify;
    assert Wrote(c.aes, e1, r.e, 22, MessageHeader(20, 12, h.mseqS) + verify);
    WroteFrom(c.aes, e1, e, r.e, 22, MessageHeader(20, 12, h.mseqS) + verify);
  }

  lemma SendingTrail(a: Endpoint, b: Endpoint)
    ensures SameBut(a, b) && a.hs.Some? ==> b.hs.Some? && b.hs.value.trail == a.hs.value.trail
  {
  }

  /** A reported error leaves as two octets of level and description, and the state is that of closing. */
  lemma ReportOctets(c: Config, w: World, e: Endpoint, err: int)
    ensures var f := ReportError(c, w, e, err);
      if e.known && (err == -1 || -768 < err < -256) then
        f.state == Closing && var level, description := if err == -1 then 2 else -err / 256, if err == -1 then 80 else -err % 256;
          Wrote(c.aes, e, f, 21, [level, description]) && (err != -1 ==> err == -(256 * level + description) && level in {1, 2})
      else f == e
  {
    hide Send, Carries;
    SendOctets(c, w, e.In(Closing), ALERT, [FATAL, INTERNAL_ERROR]);
    if Reported(err) && err != -1 { SendOctets(c, w, e.In(Closing), ALERT, [-err / 256, -err % 256]); }
  }

  // ---------------------------------------------------------------- the bodies

  /** The list of suites a client offers, with its length. */
  lemma SuiteListOctets(psk: bool, ecdsa: bool)
    ensures BigEndian(2 * |Suites(psk, ecdsa)|, 2) + SuiteOctets(Suites(psk, ecdsa))
      == if ecdsa && psk then [0, 4, 0xc0, 0xae, 0xc0, 0xa8]
         else if ecdsa then [0, 2, 0xc0, 0xae] else if psk then [0, 2, 0xc0, 0xa8] else [0, 0]
  {
    hide BigEndian;
    Two(PSK_CIPHER);
    Two(ECDHE_CIPHER);
    Two(2 * |Suites(psk, ecdsa)|);
    assert SuiteOctets([]) == [];
    assert [PSK_CIPHER][1..] == [] && [ECDHE_CIPHER][1..] == [];
    assert [ECDHE_CIPHER, PSK_CIPHER][1..] == [PSK_CIPHER];
    assert [ECDHE_CIPHER] + [] == [ECDHE_CIPHER] && [] + [PSK_CIPHER] == [PSK_CIPHER];
  }

  /** The ClientHello of each configuration; behind the suites, the null compression method and the extensions. */
  lemma ClientHelloOctets(psk: bool, ecdsa: bool, random: Random, cookie: seq<byte>)
    requires |cookie| < 256
    ensures ClientHelloBody(psk, ecdsa, random, cookie) == [254, 253] + random + [0, |cookie|] + cookie
      + ((if ecdsa && psk then [0, 4, 0xc0, 0xae, 0xc0, 0xa8]
          else if ecdsa then [0, 2, 0xc0, 0xae] else if psk then [0, 2, 0xc0, 0xa8] else [0, 0])
      + [1, 0]
      + (if ecdsa then [0, 26, 0, 19, 0, 2, 1, 2, 0, 20, 0, 2, 1, 2, 0, 10, 0, 4, 0, 2, 0, 23, 0, 11, 0, 2, 1, 0] else []))
  {
    hide BigEndian, Suites, SuiteOctets;
    Two(VERSION);
    SuiteListOctets(psk, ecdsa);
    assert [0] + [|cookie|] == [0, |cookie|];
  }

  /** The ServerHello: no session id, one suite, the null compression method, and extensions with ECDHE-ECDSA. */
  lemma ServerHelloOctets(random: Random)
    ensures ServerHelloBody(0xc0a8, random) == [254, 253] + random + [0, 0xc0, 0xa8, 0]
    ensures ServerHelloBody(0xc0ae, random) == [254, 253] + random + [0, 0xc0, 0xae, 0]
      + [0, 16, 0, 19, 0, 1, 2, 0, 20, 0, 1, 2, 0, 11, 0, 2, 1, 0]
  {
    hide BigEndian;
    Two(VERSION);
    Two(PSK_CIPHER);
    Two(ECDHE_CIPHER);
  }
}

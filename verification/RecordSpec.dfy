/** DTLS records as octet strings: section 4.1 of RFC 6347, section 6.2.3.3 of RFC 5246, section 3 of RFC 6655. */
module RecordSpec {
  import opened Bytes
  import opened CcmSpec
  import opened Peers

  const CHANGE_CIPHER_SPEC: byte := 20
  const ALERT: byte := 21
  const HANDSHAKE: byte := 22
  const APPLICATION_DATA: byte := 23

  const HEADER_LENGTH: nat := 13

  /** The 64 bits that name a record: epoch and sequence number. */
  function RecordNumber(epoch: uint16, rseq: nat): (s: seq<byte>)
    ensures |s| == 8
  {
    BigEndian(epoch, 2) + BigEndian(rseq, 6)
  }

  function Header(ctype: byte, number: seq<byte>, length: nat): (s: seq<byte>)
    requires |number| == 8
    ensures |s| == HEADER_LENGTH
  {
    [ctype] + BigEndian(VERSION, 2) + number + BigEndian(length, 2)
  }

  /** Salt from the key block, explicit part from the record, zeroes up to the block size. */
  function Nonce(iv: seq<byte>, number: seq<byte>): Block
    requires |iv| == 4 && |number| == 8
  {
    iv + number + Zeros(4)
  }

  function AdditionalData(number: seq<byte>, typeAndVersion: seq<byte>, length: nat): seq<byte> {
    number + typeAndVersion + BigEndian(length, 2)
  }

  function Sealed(E: BlockCipher, iv: seq<byte>, number: seq<byte>, typeAndVersion: seq<byte>, payload: seq<byte>): (c: seq<byte>)
    requires |iv| == 4 && |number| == 8
    ensures |c| == |payload| + 8
  {
    Encrypt(E, 8, 3, Nonce(iv, number), AdditionalData(number, typeAndVersion, |payload|), payload)
  }

  /** The fragment of a record: the payload itself, or the explicit nonce and the sealed payload. */
  function Fragment(aes: Aes, role: Role, s: Security, ctype: byte, payload: seq<byte>): (f: seq<byte>) {
    if s.cipher == NULL_CIPHER then payload
    else
      var number := RecordNumber(s.epoch, s.rseq);
      number + Sealed(aes(LocalKey(role, s.keyBlock)), LocalIv(role, s.keyBlock), number, [ctype] + BigEndian(VERSION, 2), payload)
  }

  /** The record `s` turns `payload` into. Without security parameters the record number is zero. */
  function Protect(aes: Aes, role: Role, s: Option<Security>, ctype: byte, payload: seq<byte>): seq<byte> {
    match s
    case None => Header(ctype, Zeros(8), |payload|) + payload
    case Some(v) =>
      var f := Fragment(aes, role, v, ctype, payload);
      Header(ctype, RecordNumber(v.epoch, v.rseq), |f|) + f
  }

  // ---------------------------------------------------------------- reading

  /** dtls_security_params_epoch: the first of the two slots with that epoch. */
  function ByEpoch(s0: Option<Security>, s1: Option<Security>, epoch: uint16): Option<Security> {
    if s0.Some? && s0.value.epoch == epoch then s0
    else if s1.Some? && s1.value.epoch == epoch then s1
    else None
  }

  function EpochOf(record: seq<byte>): uint16
    requires |record| >= HEADER_LENGTH
  {
    TwoOctets(record[3..5]);
    Value(record[3..5])
  }

  lemma TwoOctets(s: seq<byte>)
    requires |s| == 2
    ensures Value(s) < 0x1_0000 && Value(s) == 256 * (s[0] as int) + s[1] as int
  {
    var t := s[..1];
    assert t[..0] == [] && Value(t) == 256 * Value(t[..0]) + t[0];
  }

  /** The payload of a record read under `s`, if it is authentic. */
  function Unprotect(aes: Aes, role: Role, s: Security, record: seq<byte>): Opened
    requires |record| >= HEADER_LENGTH
  {
    if s.cipher == NULL_CIPHER then Accepted(record[13..])
    else if |record| - 13 < 16 then Rejected
    else
      Decrypt(aes(RemoteKey(role, s.keyBlock)), 8, 3, Nonce(RemoteIv(role, s.keyBlock), record[13..21]),
              AdditionalData(record[3..11], record[0..3], |record| - 29), record[21..])
  }

  lemma HeaderParts(ctype: byte, number: seq<byte>, length: nat, rest: seq<byte>)
    requires |number| == 8
    ensures var r := Header(ctype, number, length) + rest;
      && r[0..3] == [ctype] + BigEndian(VERSION, 2) && r[3..11] == number && r[3..5] == number[..2]
      && r[11..13] == BigEndian(length, 2) && r[13..] == rest && r[0] == ctype
  {
  }

  /** The receiver's slot for an epoch holds the keys the sender used. */
  ghost predicate SameKeys(sender: Security, receiver: Security) {
    && sender.epoch == receiver.epoch
    && (sender.cipher == NULL_CIPHER <==> receiver.cipher == NULL_CIPHER)
    && sender.keyBlock == receiver.keyBlock
  }

  /** Whatever one side protects, the other side, holding the same key block, reads back unchanged. */
  lemma RecordRoundTrip(aes: Aes, from: Role, to: Role, s: Security, t: Security, ctype: byte, payload: seq<byte>)
    requires from != to && SameKeys(s, t)
    ensures var r := Protect(aes, from, Some(s), ctype, payload);
            |r| >= HEADER_LENGTH && EpochOf(r) == s.epoch && Unprotect(aes, to, t, r) == Accepted(payload)
  {
    hide Header, Sealed, Decrypt, Nonce, AdditionalData, BigEndian;
    var number := RecordNumber(s.epoch, s.rseq);
    var f := Fragment(aes, from, s, ctype, payload);
    HeaderParts(ctype, number, |f|, f);
    EpochWritten(s.epoch, s.rseq);
    if s.cipher != NULL_CIPHER {
      SealedRoundTrip(aes, from, to, s.keyBlock, number, [ctype] + BigEndian(VERSION, 2), payload);
      var c := Sealed(aes(LocalKey(from, s.keyBlock)), LocalIv(from, s.keyBlock), number, [ctype] + BigEndian(VERSION, 2), payload);
      var r := Header(ctype, number, |f|) + f;
      assert r[13..21] == f[..8] == number && r[21..] == f[8..] == c;
    }
  }

  lemma EpochWritten(epoch: uint16, rseq: nat)
    ensures Value(RecordNumber(epoch, rseq)[..2]) == epoch
  {
    assert RecordNumber(epoch, rseq)[..2] == BigEndian(epoch, 2);
    assert Pow256(1) == 256 && Pow256(2) == 0x1_0000;
    ValueOfBigEndian(epoch, 2);
  }

  lemma SealedRoundTrip(aes: Aes, from: Role, to: Role, kb: KeyBlock, number: seq<byte>, typeAndVersion: seq<byte>, payload: seq<byte>)
    requires from != to && |number| == 8
    ensures Decrypt(aes(RemoteKey(to, kb)), 8, 3, Nonce(RemoteIv(to, kb), number),
                    AdditionalData(number, typeAndVersion, |payload|),
                    Sealed(aes(LocalKey(from, kb)), LocalIv(from, kb), number, typeAndVersion, payload)) == Accepted(payload)
  {
    SlicesMeet(from, to, kb);
    RoundTrip(aes(LocalKey(from, kb)), 8, 3, Nonce(LocalIv(from, kb), number),
              AdditionalData(number, typeAndVersion, |payload|), payload);
    hide Encrypt, Decrypt, Nonce, AdditionalData;
  }

  /**
   * The converse: a protected record is accepted as `payload` exactly when its fragment is the sealing of
   * `payload` under the explicit nonce it carries and the header it came with.
   */
  lemma AcceptsOnlySealed(aes: Aes, to: Role, t: Security, record: seq<byte>, payload: seq<byte>)
    requires |record| >= HEADER_LENGTH && t.cipher != NULL_CIPHER
    ensures Unprotect(aes, to, t, record) == Accepted(payload) <==>
      (|record| >= 29 && |payload| == |record| - 29
       && record[21..] == Encrypt(aes(RemoteKey(to, t.keyBlock)), 8, 3, Nonce(RemoteIv(to, t.keyBlock), record[13..21]),
                                  AdditionalData(record[3..11], record[0..3], |payload|), payload))
  {
    hide Encrypt, Decrypt, Nonce, AdditionalData, RemoteKey;
    if |record| >= 29 {
      var E, nonce := aes(RemoteKey(to, t.keyBlock)), Nonce(RemoteIv(to, t.keyBlock), record[13..21]);
      var aad := AdditionalData(record[3..11], record[0..3], |record| - 29);
      AcceptsOnlyEncryptions(E, 8, 3, nonce, aad, record[21..], payload);
      DecryptLength(E, nonce, aad, record[21..], payload);
    }
  }

  lemma DecryptLength(E: BlockCipher, nonce: Block, aad: seq<byte>, c: seq<byte>, m: seq<byte>)
    ensures Decrypt(E, 8, 3, nonce, aad, c) == Accepted(m) ==> |m| == |c| - 8
  {
    hide Mac, Crypt, XorSeq;
  }

  /** How long a record is: 16 octets more under a cipher, for the explicit nonce and the tag. */
  lemma ProtectLength(aes: Aes, role: Role, s: Option<Security>, ctype: byte, payload: seq<byte>)
    ensures |Protect(aes, role, s, ctype, payload)| == 13 + |payload| + (if s.Some? && s.value.cipher != NULL_CIPHER then 16 else 0)
  {
    hide Header, Sealed;
  }
}

/** HMAC, P_hash and the pre-master secret: hmac.c and the key derivation half of crypto.c. */
module Prf {
  import opened Bytes

  type Digest = d: seq<byte> | |d| == 32 witness Zeros(32)

  /** SHA-256 over everything fed to the context. Nothing is assumed of it. */
  type Hash = seq<byte> -> Digest

  // ---------------------------------------------------------------- HMAC (RFC 2104)

  /** The key, hashed when longer than a block, zero-padded to 64 octets. */
  function BlockKey(h: Hash, key: seq<byte>): (k: seq<byte>)
    ensures |k| == 64
  {
    if |key| > 64 then h(key) + Zeros(32) else key + Zeros(64 - |key|)
  }

  function Repeat(b: byte, n: nat): (s: seq<byte>)
    ensures |s| == n
  {
    seq(n, _ => b)
  }

  function Hmac(h: Hash, key: seq<byte>, text: seq<byte>): Digest {
    var k := BlockKey(h, key);
    h(XorSeq(k, Repeat(0x5c, 64)) + h(XorSeq(k, Repeat(0x36, 64)) + text))
  }

  /**
   * Any two strings of 64 octets that are the key, zero-padded, with each octet exclusive-ored with 0x36 and with
   * 0x5c, are the pads; and a key of more than 64 octets stands for its hash.
   */
  lemma HmacOctets(h: Hash, key: seq<byte>, text: seq<byte>, inner: seq<byte>, outer: seq<byte>)
    requires |inner| == |outer| == 64
    requires forall i :: 0 <= i < 64 ==> inner[i] == Xor(if i < |key| then key[i] else 0, 0x36)
    requires forall i :: 0 <= i < 64 ==> outer[i] == Xor(if i < |key| then key[i] else 0, 0x5c)
    ensures |key| <= 64 ==> Hmac(h, key, text) == h(outer + h(inner + text))
    ensures |key| > 64 ==> Hmac(h, key, text) == Hmac(h, h(key), text)
  {
    hide XorSeq, Xor;
    if |key| <= 64 {
      XorSeqIs(BlockKey(h, key), Repeat(0x36, 64), inner);
      XorSeqIs(BlockKey(h, key), Repeat(0x5c, 64), outer);
    } else {
      assert BlockKey(h, h(key)) == h(key) + Zeros(32);
    }
  }

  lemma XorNatHalves(x: nat, y: nat)
    ensures XorNat(x, y) % 2 == (x + y) % 2
    ensures XorNat(x, y) / 2 == XorNat(x / 2, y / 2)
  {
    var b, q := (x + y) % 2, XorNat(x / 2, y / 2);
    assert XorNat(x, y) == b + 2 * q;
    Halves(b, q);
  }

  lemma Halves(b: nat, q: nat)
    requires b < 2
    ensures (b + 2 * q) % 2 == b && (b + 2 * q) / 2 == q
  {
  }

  lemma SameHalves(a: nat, b: nat)
    requires a / 2 == b / 2 && a % 2 == b % 2
    ensures a == b
  {
  }

  lemma Parity(x: nat, y: nat, z: nat, a: nat, b: nat)
    requires a % 2 == (x + y) % 2 && b % 2 == (y + z) % 2
    ensures (a + z) % 2 == (x + b) % 2
  {
  }

  lemma {:induction false} XorNatAssociates(x: nat, y: nat, z: nat)
    ensures XorNat(XorNat(x, y), z) == XorNat(x, XorNat(y, z))
    decreases x + y + z
  {
    if x + y + z > 0 {
      XorNatAssociates(x / 2, y / 2, z / 2);
      XorNatHalves(x, y);
      XorNatHalves(y, z);
      var a, b := XorNat(x, y), XorNat(y, z);
      XorNatHalves(a, z);
      XorNatHalves(x, b);
      Parity(x, y, z, a, b);
      hide XorNat;
      SameHalves(XorNat(a, z), XorNat(x, b));
    }
  }

  /** 0x6A is 0x36 XOR 0x5C: the second pass turns the inner pad into the outer one. */
  lemma OuterFromInner(x: byte)
    ensures Xor(Xor(x, 0x36), 0x6a) == Xor(x, 0x5c)
  {
    XorNatAssociates(x, 0x36, 0x6a);
    PadConstants();
    hide XorNat;
  }

  lemma PadConstants()
    ensures XorNat(0x36, 0x6a) == 0x5c
  {
    assert XorNat(0, 1) == 1;
    assert XorNat(1, 3) == 2;
    assert XorNat(3, 6) == 5;
    assert XorNat(6, 13) == 11;
    assert XorNat(13, 26) == 23;
    assert XorNat(27, 53) == 46;
  }

  lemma {:induction false} XorSeqTwice(k: seq<byte>, n: nat)
    requires |k| == n
    ensures XorSeq(XorSeq(k, Repeat(0x36, n)), Repeat(0x6a, n)) == XorSeq(k, Repeat(0x5c, n))
  {
    if n > 0 {
      OuterFromInner(k[0]);
      XorSeqTwice(k[1..], n - 1);
      assert Repeat(0x36, n)[1..] == Repeat(0x36, n - 1);
      assert Repeat(0x6a, n)[1..] == Repeat(0x6a, n - 1);
      assert Repeat(0x5c, n)[1..] == Repeat(0x5c, n - 1);
      hide Xor;
    }
  }

  /** memxor over a whole buffer. */
  method MemXorAll(x: array<byte>, y: seq<byte>)
    requires |y| == x.Length
    modifies x
    ensures x[..] == XorSeq(old(x[..]), y)
  {
    hide XorSeq;
    assert x[..] == x[0..|y|];
    MemXor(x, 0, y);
  }

  /** dtls_hmac_context_t: the pad buffer, and the hash context as the octets it has absorbed. */
  class HmacContext {
    const pad: array<byte>
    var data: seq<byte>

    /** Keyed with `key`, and fed `text` so far. */
    ghost predicate Holds(h: Hash, key: seq<byte>, text: seq<byte>)
      reads this, pad
    {
      && pad[..] == XorSeq(BlockKey(h, key), Repeat(0x5c, 64))
      && data == XorSeq(BlockKey(h, key), Repeat(0x36, 64)) + text
    }

    constructor ()
      ensures fresh(this) && fresh(pad) && pad.Length == 64
    {
      pad := new byte[64];
      data := [];
    }

    /** dtls_hmac_init */
    method Init(h: Hash, key: seq<byte>)
      requires pad.Length == 64
      modifies this, pad
      ensures Holds(h, key, [])
    {
      hide XorSeq, Repeat;
      Copy(pad, 0, Zeros(64));
      if |key| > 64 { Copy(pad, 0, h(key)); } else { Copy(pad, 0, key); }
      ghost var k := BlockKey(h, key);
      assert pad[..] == k;
      MemXorAll(pad, Repeat(0x36, 64));
      data := pad[..];
      MemXorAll(pad, Repeat(0x6a, 64));
      XorSeqTwice(k, 64);
    }

    /** dtls_hmac_update */
    method Update(ghost h: Hash, ghost key: seq<byte>, ghost text: seq<byte>, input: seq<byte>)
      requires Holds(h, key, text)
      modifies this`data
      ensures Holds(h, key, text + input)
    {
      data := data + input;
    }

    /** dtls_hmac_finalize: the HMAC of everything fed since Init. */
    method Finalize(h: Hash, ghost key: seq<byte>, ghost text: seq<byte>) returns (result: Digest)
      requires Holds(h, key, text)
      modifies this`data
      ensures result == Hmac(h, key, text)
    {
      var inner := h(data);
      data := pad[..];
      data := data + inner;
      result := h(data);
    }
  }

  // ---------------------------------------------------------------- P_hash (section 5 of RFC 5246)

  /** A(0) = seed, A(i) = HMAC(secret, A(i-1)). */
  function A(h: Hash, key: seq<byte>, seed: seq<byte>, i: nat): seq<byte> {
    if i == 0 then seed else Hmac(h, key, A(h, key, seed, i - 1))
  }

  /** The i-th block of the stream: HMAC(secret, A(i) + seed). */
  function StreamBlock(h: Hash, key: seq<byte>, seed: seq<byte>, i: nat): Digest {
    Hmac(h, key, A(h, key, seed, i) + seed)
  }

  /** `n` octets of the stream, from block `k` on. */
  function StreamFrom(h: Hash, key: seq<byte>, seed: seq<byte>, k: nat, n: nat): (s: seq<byte>)
    ensures |s| == n
    decreases n
  {
    if n <= 32 then StreamBlock(h, key, seed, k)[..n]
    else StreamBlock(h, key, seed, k) + StreamFrom(h, key, seed, k + 1, n - 32)
  }

  function PHash(h: Hash, key: seq<byte>, seed: seq<byte>, n: nat): (s: seq<byte>)
    ensures |s| == n
  {
    StreamFrom(h, key, seed, 1, n)
  }

  lemma FirstLink(h: Hash, key: seq<byte>, seed: seq<byte>)
    ensures A(h, key, seed, 1) == Hmac(h, key, seed)
  {
    hide Hmac;
    assert A(h, key, seed, 0) == seed;
  }

  lemma NextLink(h: Hash, key: seq<byte>, seed: seq<byte>, k: nat)
    ensures A(h, key, seed, k + 1) == Hmac(h, key, A(h, key, seed, k))
  {
    hide Hmac;
  }

  lemma StreamStarts(h: Hash, key: seq<byte>, seed: seq<byte>, n: nat)
    ensures PHash(h, key, seed, n)[0..] == StreamFrom(h, key, seed, 1, n)
  {
    hide StreamFrom;
  }

  /** Octet 32j + r of the stream is octet r of block j + 1, however much of the stream is asked for. */
  lemma {:induction false} StreamFromAt(h: Hash, key: seq<byte>, seed: seq<byte>, k: nat, n: nat, j: nat, r: nat)
    requires r < 32 && 32 * j + r < n
    ensures StreamFrom(h, key, seed, k, n)[32 * j + r] == StreamBlock(h, key, seed, k + j)[r]
    decreases j
  {
    hide StreamBlock;
    if j > 0 {
      StreamFromAt(h, key, seed, k + 1, n - 32, j - 1, r);
      assert StreamFrom(h, key, seed, k, n)[32 * j + r] == StreamFrom(h, key, seed, k + 1, n - 32)[32 * (j - 1) + r];
    }
  }

  /** P_hash is one infinite stream, cut: a shorter request is a prefix of a longer one. */
  lemma {:induction false} StreamFromPrefix(h: Hash, key: seq<byte>, seed: seq<byte>, k: nat, m: nat, n: nat)
    requires m <= n
    ensures StreamFrom(h, key, seed, k, m) == StreamFrom(h, key, seed, k, n)[..m]
    decreases n
  {
    hide StreamBlock;
    if m > 32 {
      StreamFromPrefix(h, key, seed, k + 1, m - 32, n - 32);
      var b: seq<byte> := StreamBlock(h, key, seed, k);
      var t := StreamFrom(h, key, seed, k + 1, n - 32);
      assert (b + t)[..m] == b + t[..m - 32];
    }
  }

  lemma PHashPrefix(h: Hash, key: seq<byte>, seed: seq<byte>, m: nat, n: nat)
    requires m <= n
    ensures PHash(h, key, seed, m) <= PHash(h, key, seed, n)
  {
    StreamFromPrefix(h, key, seed, 1, m, n);
  }

  lemma PHashAt(h: Hash, key: seq<byte>, seed: seq<byte>, n: nat, i: nat)
    requires i < n
    ensures PHash(h, key, seed, n)[i] == StreamBlock(h, key, seed, i / 32 + 1)[i % 32]
  {
    StreamFromAt(h, key, seed, 1, n, i / 32, i % 32);
  }

  /** `s` is the beginning of HMAC(key, A(1) + seed) + HMAC(key, A(2) + seed) + ..., octet by octet. */
  ghost predicate Expands(h: Hash, key: seq<byte>, seed: seq<byte>, s: seq<byte>) {
    forall i :: 0 <= i < |s| ==> s[i] == Hmac(h, key, A(h, key, seed, i / 32 + 1) + seed)[i % 32]
  }

  lemma PHashExpands(h: Hash, key: seq<byte>, seed: seq<byte>, n: nat)
    ensures Expands(h, key, seed, PHash(h, key, seed, n))
  {
    hide PHash, Hmac, A;
    var s := PHash(h, key, seed, n);
    forall i | 0 <= i < n ensures s[i] == Hmac(h, key, A(h, key, seed, i / 32 + 1) + seed)[i % 32] { PHashAt(h, key, seed, n, i); }
  }

  /** What the next block contributes. */
  lemma StreamSplits(h: Hash, key: seq<byte>, seed: seq<byte>, k: nat, all: seq<byte>, len: nat)
    requires len <= |all| && all[len..] == StreamFrom(h, key, seed, k, |all| - len)
    ensures |all| - len > 32 ==>
      all[len..len + 32] == StreamBlock(h, key, seed, k) && all[len + 32..] == StreamFrom(h, key, seed, k + 1, |all| - len - 32)
    ensures |all| - len <= 32 ==> all[len..] == StreamBlock(h, key, seed, k)[..|all| - len]
  {
    hide StreamBlock;
    if |all| - len > 32 {
      assert all[len..len + 32] == all[len..][..32] && all[len + 32..] == all[len..][32..];
    }
  }

  /** Feeds the label and both random values, as HMAC_UPDATE_SEED does three times. */
  method UpdateSeed(c: HmacContext, ghost h: Hash, ghost key: seq<byte>, ghost text: seq<byte>,
                    lbl: seq<byte>, random1: seq<byte>, random2: seq<byte>)
    requires c.Holds(h, key, text)
    modifies c`data
    ensures c.Holds(h, key, text + (lbl + random1 + random2))
  {
    FourInARow(text, lbl, random1, random2);
    c.Update(h, key, text, lbl);
    c.Update(h, key, text + lbl, random1);
    c.Update(h, key, text + lbl + random1, random2);
  }

  lemma FourInARow(a: seq<byte>, b: seq<byte>, d: seq<byte>, e: seq<byte>)
    ensures a + b + d + e == a + (b + d + e)
  {
  }

  lemma NothingFirst(s: seq<byte>)
    ensures [] + s == s
  {
  }

  /** `hmac_init(p); update(A); update(seed); finalize`: the next block of output. */
  method NextBlock(p: HmacContext, h: Hash, key: seq<byte>, a: seq<byte>, lbl: seq<byte>, random1: seq<byte>, random2: seq<byte>)
    returns (tmp: Digest)
    requires p.pad.Length == 64
    modifies p, p.pad
    ensures tmp == Hmac(h, key, a + (lbl + random1 + random2))
  {
    p.Init(h, key);
    p.Update(h, key, [], a);
    assert [] + a == a;
    UpdateSeed(p, h, key, a, lbl, random1, random2);
    tmp := p.Finalize(h, key, a + (lbl + random1 + random2));
  }

  /**
   * dtls_p_hash: exactly `buflen` octets of the stream at `off`. `roomA` and `roomP` say whether the two
   * context allocations succeed; without the first nothing is reported, without the second nothing is written.
   */
  method PHashInto(h: Hash, key: seq<byte>, lbl: seq<byte>, random1: seq<byte>, random2: seq<byte>,
                   buf: array<byte>, off: nat, buflen: nat, roomA: bool, roomP: bool) returns (result: nat)
    requires off + buflen <= buf.Length
    modifies buf
    ensures result == if roomA then buflen else 0
    ensures buf[..] == if roomA && roomP
                       then Splice(old(buf[..]), off, PHash(h, key, lbl + random1 + random2, buflen))
                       else old(buf[..])
  {
    hide Hmac, XorSeq, Done, Splice, StreamFrom, A, PHash;
    if !roomA { return 0; }
    ghost var seed := lbl + random1 + random2;
    var hmacA := new HmacContext();
    hmacA.Init(h, key);
    UpdateSeed(hmacA, h, key, [], lbl, random1, random2);
    NothingFirst(seed);
    var a: seq<byte> := hmacA.Finalize(h, key, seed);
    FirstLink(h, key, seed);
    if !roomP { return buflen; }
    var hmacP := new HmacContext();
    ghost var was, all := buf[..], PHash(h, key, seed, buflen);
    DoneNothing(was, all, off);
    StreamStarts(h, key, seed, buflen);
    ghost var k := 1;
    var len := 0;
    while len + 32 < buflen
      invariant 0 <= len <= buflen && 1 <= k
      invariant a == A(h, key, seed, k)
      invariant Done(buf[..], was, all, off, len)
      invariant all[len..] == StreamFrom(h, key, seed, k, buflen - len)
    {
      var tmp := NextBlock(hmacP, h, key, a, lbl, random1, random2);
      StreamSplits(h, key, seed, k, all, len);
      Continue(buf, was, all, off, len, tmp);
      hmacA.Init(h, key);
      hmacA.Update(h, key, [], a);
      NothingFirst(a);
      a := hmacA.Finalize(h, key, a);
      NextLink(h, key, seed, k);
      len, k := len + 32, k + 1;
    }
    var tmp := NextBlock(hmacP, h, key, a, lbl, random1, random2);
    StreamSplits(h, key, seed, k, all, len);
    assert all[len..] == all[len..buflen];
    Continue(buf, was, all, off, len, tmp[..buflen - len]);
    DoneIsSplice(buf[..], was, all, off);
    result := buflen;
  }

  // ---------------------------------------------------------------- pre-master secret (section 2 of RFC 4279)

  /** N, N zeroes, N, the key. */
  function PreMaster(key: seq<byte>): (p: seq<byte>)
    ensures |p| == 2 * (2 + |key|)
  {
    BigEndian(|key|, 2) + Zeros(|key|) + BigEndian(|key|, 2) + key
  }

  /** Different keys give different pre-master secrets. */
  lemma PreMasterInjective(k1: seq<byte>, k2: seq<byte>)
    requires PreMaster(k1) == PreMaster(k2)
    ensures k1 == k2
  {
    assert |k1| == |k2|;
    assert PreMaster(k1)[4 + |k1|..] == k1 && PreMaster(k2)[4 + |k2|..] == k2;
  }

  /** dtls_psk_pre_master_secret: fills `result`, or refuses and writes nothing when it is too short. */
  method PskPreMasterSecret(key: seq<byte>, result: array<byte>, resultLen: nat) returns (len: int)
    requires resultLen <= result.Length
    modifies result
    ensures len == if resultLen < |PreMaster(key)| then -1 else |PreMaster(key)|
    ensures result[..] == if len < 0 then old(result[..]) else Splice(old(result[..]), 0, PreMaster(key))
  {
    if resultLen < 2 * (2 + |key|) { return -1; }
    hide Splice, Done, BigEndian;
    var p := 0;
    ghost var was, all := result[..], PreMaster(key);
    PreMasterParts(key);
    DoneNothing(was, all, 0);
    var lengthField := BigEndian(|key|, 2);
    DoneStep(result[..], was, all, 0, p, lengthField);
    Copy(result, p, lengthField);
    p := p + 2;
    DoneStep(result[..], was, all, 0, p, Zeros(|key|));
    Copy(result, p, Zeros(|key|));
    p := p + |key|;
    FirstBytes(result[..], was, all, p);
    DoneStep(result[..], was, all, 0, p, result[..2]);
    Copy(result, p, result[..2]);
    p := p + 2;
    DoneStep(result[..], was, all, 0, p, key);
    Copy(result, p, key);
    DoneIsSplice(result[..], was, all, 0);
    len := 2 * (2 + |key|);
  }

  lemma PreMasterParts(key: seq<byte>)
    ensures var all, n := PreMaster(key), |key|;
      all[..2] == all[0..2] == all[2 + n..4 + n] == BigEndian(n, 2) && all[2..2 + n] == Zeros(n) && all[4 + n..4 + n + n] == key
  {
  }

  lemma FirstBytes(buf: seq<byte>, was: seq<byte>, all: seq<byte>, n: nat)
    requires Done(buf, was, all, 0, n) && n >= 2
    ensures buf[..2] == all[..2]
  {
    assert buf[..2] == buf[0..n][..2] && all[..2] == all[..n][..2];
  }

  const PSK_KEY_BLOCK_ROOM: nat := 40

  /** A pre-shared key has room in the key block up to 18 octets and not beyond. */
  lemma KeyBlockRoom(key: seq<byte>)
    ensures |PreMaster(key)| <= PSK_KEY_BLOCK_ROOM <==> |key| <= 18
  {
  }
}

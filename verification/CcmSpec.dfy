/** Counter with CBC-MAC as sections 2.2 to 2.5 of RFC 3610 define it, on values, and what it guarantees. */
module CcmSpec {
  import opened Bytes

  type Block = b: seq<byte> | |b| == 16 witness Zeros(16)

  /** rijndael_encrypt under one key. Nothing is assumed of it. */
  type BlockCipher = Block -> Block

  /** `M` octets of authentication field, `L` octets of length field. `MASK_L` shifts an int, hence L < 4. */
  ghost predicate Params(M: nat, L: nat) {
    4 <= M <= 16 && M % 2 == 0 && 2 <= L <= 3
  }

  function XorBlock(x: Block, y: Block): Block {
    XorSeq(x, y)
  }

  // ---------------------------------------------------------------- section 2.2: authentication

  /** CCM_FLAGS: the three bit fields do not overlap, so the macro's OR is a sum. */
  function Flags(la: nat, M: nat, L: nat): byte
    requires Params(M, L)
  {
    (if la > 0 then 64 else 0) + 8 * ((M - 2) / 2) + (L - 1)
  }

  function B0(M: nat, L: nat, nonce: Block, la: nat, lm: nat): Block
    requires Params(M, L)
  {
    [Flags(la, M, L)] + nonce[..15 - L] + BigEndian(lm, L)
  }

  /** The encoding of l(a) that precedes the additional data: two, six or ten octets. */
  function LengthPrefix(la: nat): (p: seq<byte>)
    ensures 2 <= |p| <= 10
  {
    if la < 0xFF00 then BigEndian(la, 2)
    else if la <= 0xFFFFFFFF then BigEndian(0xFFFE, 2) + BigEndian(la, 4)
    else BigEndian(0xFFFF, 2) + BigEndian(la, 8)
  }

  /** How many zeroes bring `n` octets to a multiple of 16. */
  function PadLength(n: nat): (z: nat)
    ensures z < 16
  {
    if n == 0 then 0 else if n <= 16 then 16 - n else PadLength(n - 16)
  }

  /** Zero padding up to the next multiple of 16. */
  function Pad(s: seq<byte>): (p: seq<byte>)
    ensures s <= p
  {
    s + Zeros(PadLength(|s|))
  }

  function AadBlocks(aad: seq<byte>): seq<byte> {
    if aad == [] then [] else Pad(LengthPrefix(|aad|) + aad)
  }

  /** B_1, ..., B_n: additional data, then the message. */
  function Body(aad: seq<byte>, m: seq<byte>): seq<byte> {
    AadBlocks(aad) + Pad(m)
  }

  /** All authentication blocks B_0, B_1, ..., B_n in one string. */
  function Formatted(M: nat, L: nat, nonce: Block, aad: seq<byte>, m: seq<byte>): seq<byte>
    requires Params(M, L)
  {
    B0(M, L, nonce, |aad|, |m|) + Body(aad, m)
  }

  /** X_{i+1} := E(X_i XOR B_i), starting from `x`. */
  function Cbc(E: BlockCipher, x: Block, s: seq<byte>): Block {
    if |s| < 16 then x else E(XorBlock(Cbc(E, x, s[..|s| - 16]), s[|s| - 16..]))
  }

  /** X_1 := E(B_0); T is the first M octets of X_{n+1}. */
  function Mac(E: BlockCipher, M: nat, L: nat, nonce: Block, aad: seq<byte>, m: seq<byte>): Block
    requires Params(M, L)
  {
    Cbc(E, E(B0(M, L, nonce, |aad|, |m|)), Body(aad, m))
  }

  // ---------------------------------------------------------------- sections 2.3 and 2.4: encryption

  function CounterBlock(L: nat, nonce: Block, i: nat): Block
    requires 2 <= L <= 3
  {
    [L - 1] + nonce[..15 - L] + BigEndian(i, L)
  }

  /** Octet-wise exclusive-or of `m` with S_k S_{k+1} S_{k+2} ... */
  function CryptFrom(E: BlockCipher, L: nat, nonce: Block, k: nat, m: seq<byte>): (c: seq<byte>)
    requires 2 <= L <= 3
    ensures |c| == |m|
    decreases |m|
  {
    var s := E(CounterBlock(L, nonce, k));
    if |m| <= 16 then XorSeq(m, s) else XorSeq(m[..16], s) + CryptFrom(E, L, nonce, k + 1, m[16..])
  }

  /** The message is masked with S_1 S_2 S_3 ...; S_0 is kept for the tag. */
  function Crypt(E: BlockCipher, L: nat, nonce: Block, m: seq<byte>): (c: seq<byte>)
    requires 2 <= L <= 3
    ensures |c| == |m|
  {
    CryptFrom(E, L, nonce, 1, m)
  }

  /** U := T XOR first M octets of S_0. */
  function Tag(E: BlockCipher, M: nat, L: nat, nonce: Block, aad: seq<byte>, m: seq<byte>): (u: seq<byte>)
    requires Params(M, L)
    ensures |u| == M
  {
    XorSeq(Mac(E, M, L, nonce, aad, m)[..M], E(CounterBlock(L, nonce, 0)))
  }

  function Encrypt(E: BlockCipher, M: nat, L: nat, nonce: Block, aad: seq<byte>, m: seq<byte>): (c: seq<byte>)
    requires Params(M, L)
    ensures |c| == |m| + M
  {
    Crypt(E, L, nonce, m) + Tag(E, M, L, nonce, aad, m)
  }

  datatype Opened = Rejected | Accepted(message: seq<byte>)

  /** Section 2.5: recover the message, recompute the MAC, reveal nothing on a mismatch. */
  function Decrypt(E: BlockCipher, M: nat, L: nat, nonce: Block, aad: seq<byte>, c: seq<byte>): Opened
    requires Params(M, L)
  {
    if |c| < M then Rejected
    else
      var m := Crypt(E, L, nonce, c[..|c| - M]);
      if XorSeq(c[|c| - M..], E(CounterBlock(L, nonce, 0))) == Mac(E, M, L, nonce, aad, m)[..M]
      then Accepted(m) else Rejected
  }

  /** Ciphertext and tag with the key stream and S_0 taken off: what decryption leaves in the buffer. */
  function Unmasked(E: BlockCipher, M: nat, L: nat, nonce: Block, c: seq<byte>): (u: seq<byte>)
    requires Params(M, L) && M <= |c|
    ensures |u| == |c|
  {
    Crypt(E, L, nonce, c[..|c| - M]) + XorSeq(c[|c| - M..], E(CounterBlock(L, nonce, 0)))
  }

  // ---------------------------------------------------------------- round trip and exact acceptance

  lemma {:induction false} CryptFromCancels(E: BlockCipher, L: nat, nonce: Block, k: nat, m: seq<byte>)
    requires 2 <= L <= 3
    ensures CryptFrom(E, L, nonce, k, CryptFrom(E, L, nonce, k, m)) == m
    decreases |m|
  {
    var s := E(CounterBlock(L, nonce, k));
    if |m| <= 16 {
      XorSeqCancels(m, s);
    } else {
      XorSeqCancels(m[..16], s);
      CryptFromCancels(E, L, nonce, k + 1, m[16..]);
      var c := CryptFrom(E, L, nonce, k, m);
      assert c[..16] == XorSeq(m[..16], s) && c[16..] == CryptFrom(E, L, nonce, k + 1, m[16..]);
      assert m == m[..16] + m[16..];
    }
  }

  lemma CryptCancels(E: BlockCipher, L: nat, nonce: Block, m: seq<byte>)
    requires 2 <= L <= 3
    ensures Crypt(E, L, nonce, Crypt(E, L, nonce, m)) == m
  {
    CryptFromCancels(E, L, nonce, 1, m);
  }

  /** What Encrypt produced, Decrypt accepts and gives back unchanged. */
  lemma RoundTrip(E: BlockCipher, M: nat, L: nat, nonce: Block, aad: seq<byte>, m: seq<byte>)
    requires Params(M, L)
    ensures Decrypt(E, M, L, nonce, aad, Encrypt(E, M, L, nonce, aad, m)) == Accepted(m)
  {
    hide Crypt, CounterBlock, Mac, XorSeq;
    var c := Encrypt(E, M, L, nonce, aad, m);
    assert c[..|c| - M] == Crypt(E, L, nonce, m);
    assert c[|c| - M..] == Tag(E, M, L, nonce, aad, m);
    CryptCancels(E, L, nonce, m);
    XorSeqCancels(Mac(E, M, L, nonce, aad, m)[..M], E(CounterBlock(L, nonce, 0)));
  }

  lemma DecryptSound(E: BlockCipher, M: nat, L: nat, nonce: Block, aad: seq<byte>, c: seq<byte>, m: seq<byte>)
    requires Params(M, L)
    requires Decrypt(E, M, L, nonce, aad, c) == Accepted(m)
    ensures c == Encrypt(E, M, L, nonce, aad, m)
  {
    hide Crypt, CounterBlock, Mac, XorSeq;
    var body, tag := c[..|c| - M], c[|c| - M..];
    CryptCancels(E, L, nonce, body);
    Unmask(tag, Mac(E, M, L, nonce, aad, m)[..M], E(CounterBlock(L, nonce, 0)));
    assert c == body + tag;
  }

  lemma Unmask(tag: seq<byte>, t: seq<byte>, s0: Block)
    requires |tag| <= 16 && XorSeq(tag, s0) == t
    ensures XorSeq(t, s0) == tag
  {
    hide XorSeq;
    XorSeqCancels(tag, s0);
  }

  /** Decrypt accepts a string exactly when it is the encryption of the message it returns. */
  lemma AcceptsOnlyEncryptions(E: BlockCipher, M: nat, L: nat, nonce: Block, aad: seq<byte>, c: seq<byte>, m: seq<byte>)
    requires Params(M, L)
    ensures Decrypt(E, M, L, nonce, aad, c) == Accepted(m) <==> c == Encrypt(E, M, L, nonce, aad, m)
  {
    if Decrypt(E, M, L, nonce, aad, c) == Accepted(m) {
      DecryptSound(E, M, L, nonce, aad, c, m);
    } else if c == Encrypt(E, M, L, nonce, aad, m) {
      RoundTrip(E, M, L, nonce, aad, m);
    }
  }

  // ---------------------------------------------------------------- formatting is injective

  /** Cuts the encoded length off a string of additional data; section 2.2 of RFC 3610 read backwards. */
  lemma LengthPrefixDecodes(la: nat, lb: nat, s: seq<byte>, t: seq<byte>)
    requires la < Pow256(8) && lb < Pow256(8)
    requires LengthPrefix(la) + s == LengthPrefix(lb) + t
    ensures la == lb && s == t
  {
    hide LengthPrefix, BigEndian, Value, Pow256;
    var p, q := LengthPrefix(la), LengthPrefix(lb);
    assert (p + s)[..2] == p[..2] && (q + t)[..2] == q[..2];
    PrefixTag(la);
    PrefixTag(lb);
    assert |p| == |q|;
    assert (p + s)[..|p|] == p && (q + t)[..|q|] == q;
    assert (p + s)[|p|..] == s && (q + t)[|q|..] == t;
    if |p| == 2 {
      BigEndianInjective(la, lb, 2);
    } else {
      assert p[2..] == BigEndian(la, |p| - 2) && q[2..] == BigEndian(lb, |p| - 2);
      BigEndianInjective(la, lb, |p| - 2);
    }
  }

  /** The first two octets say which of the three forms follows. */
  lemma PrefixTag(la: nat)
    requires la < Pow256(8)
    ensures Pow256(2) == 0x1_0000 && Pow256(4) == 0x1_0000_0000
    ensures var p := LengthPrefix(la); var v := Value(p[..2]);
            && |p| == (if v == 0xFFFF then 10 else if v == 0xFFFE then 6 else 2)
            && (|p| == 2 ==> la < Pow256(2) && p == BigEndian(la, 2)) && (|p| == 6 ==> la < Pow256(4))
            && (|p| > 2 ==> p[2..] == BigEndian(la, |p| - 2))
  {
    assert Pow256(2) == 0x1_0000 by { assert Pow256(1) == 256; }
    assert Pow256(3) == 0x100_0000;
    assert Pow256(4) == 0x1_0000_0000;
    var p := LengthPrefix(la);
    if la < 0xFF00 {
      ValueOfBigEndian(la, 2);
      assert p[..2] == p;
    } else if la <= 0xFFFFFFFF {
      ValueOfBigEndian(0xFFFE, 2);
      assert p[..2] == BigEndian(0xFFFE, 2);
    } else {
      ValueOfBigEndian(0xFFFF, 2);
      assert p[..2] == BigEndian(0xFFFF, 2);
    }
  }

  /** The first block determines the presence of additional data, the nonce and the message length. */
  lemma B0Injective(M: nat, L: nat, n1: Block, n2: Block, la1: nat, la2: nat, lm1: nat, lm2: nat)
    requires Params(M, L)
    requires lm1 < Pow256(L) && lm2 < Pow256(L)
    requires B0(M, L, n1, la1, lm1) == B0(M, L, n2, la2, lm2)
    ensures (la1 > 0) == (la2 > 0) && n1[..15 - L] == n2[..15 - L] && lm1 == lm2
  {
    var b1, b2 := B0(M, L, n1, la1, lm1), B0(M, L, n2, la2, lm2);
    assert b1[0] == Flags(la1, M, L) && b2[0] == Flags(la2, M, L);
    assert b1[1..16 - L] == n1[..15 - L] && b2[1..16 - L] == n2[..15 - L];
    assert b1[16 - L..] == BigEndian(lm1, L) && b2[16 - L..] == BigEndian(lm2, L);
    BigEndianInjective(lm1, lm2, L);
  }

  /** Splits `a + s == b + t` at a common length. */
  lemma SplitAt(a: seq<byte>, s: seq<byte>, b: seq<byte>, t: seq<byte>)
    requires |a| == |b| && a + s == b + t
    ensures a == b && s == t
  {
    assert (a + s)[..|a|] == a && (b + t)[..|a|] == b;
    assert (a + s)[|a|..] == s && (b + t)[|a|..] == t;
  }

  /** Additional data followed by anything is read back without ambiguity. */
  lemma AadBlocksInjective(a1: seq<byte>, s1: seq<byte>, a2: seq<byte>, s2: seq<byte>)
    requires |a1| < Pow256(8) && |a2| < Pow256(8)
    requires (a1 == []) == (a2 == [])
    requires AadBlocks(a1) + s1 == AadBlocks(a2) + s2
    ensures a1 == a2 && s1 == s2
  {
    if a1 != [] {
      var z1, z2 := PaddingOf(a1), PaddingOf(a2);
      AadBlocksUnfold(a1, s1);
      AadBlocksUnfold(a2, s2);
      LengthPrefixDecodes(|a1|, |a2|, a1 + (z1 + s1), a2 + (z2 + s2));
      SplitAt(a1, z1 + s1, a2, z2 + s2);
      SplitAt(z1, s1, z2, s2);
    } else {
      assert AadBlocks(a1) + s1 == s1 && AadBlocks(a2) + s2 == s2;
    }
  }

  function PaddingOf(a: seq<byte>): seq<byte> {
    Zeros(PadLength(|LengthPrefix(|a|)| + |a|))
  }

  lemma AadBlocksUnfold(a: seq<byte>, s: seq<byte>)
    requires a != []
    ensures AadBlocks(a) + s == LengthPrefix(|a|) + (a + (PaddingOf(a) + s))
  {
    var p := LengthPrefix(|a|);
    assert AadBlocks(a) == (p + a) + PaddingOf(a);
    assert ((p + a) + PaddingOf(a)) + s == p + (a + (PaddingOf(a) + s));
  }

  /**
   * For fixed M and L the authentication blocks determine nonce, additional data and message,
   * and no block string is a proper prefix of another: CBC-MAC never sees two inputs of which
   * one extends the other.
   */
  lemma FormattedPrefixFree(M: nat, L: nat, n1: Block, a1: seq<byte>, m1: seq<byte>, n2: Block, a2: seq<byte>, m2: seq<byte>)
    requires Params(M, L)
    requires |m1| < Pow256(L) && |m2| < Pow256(L) && |a1| < Pow256(8) && |a2| < Pow256(8)
    requires Formatted(M, L, n1, a1, m1) <= Formatted(M, L, n2, a2, m2)
    ensures n1[..15 - L] == n2[..15 - L] && a1 == a2 && m1 == m2
  {
    var b1, b2 := B0(M, L, n1, |a1|, |m1|), B0(M, L, n2, |a2|, |m2|);
    var extra := Remainder(b1 + Body(a1, m1), b2 + Body(a2, m2));
    Associate(b1, Body(a1, m1), extra);
    SplitAt(b1, Body(a1, m1) + extra, b2, Body(a2, m2));
    B0Injective(M, L, n1, n2, |a1|, |a2|, |m1|, |m2|);
    BodyInjective(a1, m1, extra, a2, m2);
  }

  lemma Associate(a: seq<byte>, b: seq<byte>, c: seq<byte>)
    ensures (a + b) + c == a + (b + c)
  {
  }

  lemma Remainder(a: seq<byte>, b: seq<byte>) returns (extra: seq<byte>)
    requires a <= b
    ensures a + extra == b
  {
    extra := b[|a|..];
  }

  lemma BodyInjective(a1: seq<byte>, m1: seq<byte>, extra: seq<byte>, a2: seq<byte>, m2: seq<byte>)
    requires |a1| < Pow256(8) && |a2| < Pow256(8) && |m1| == |m2| && (a1 == []) == (a2 == [])
    requires Body(a1, m1) + extra == Body(a2, m2)
    ensures a1 == a2 && m1 == m2
  {
    Associate(AadBlocks(a1), Pad(m1), extra);
    AadBlocksInjective(a1, Pad(m1) + extra, a2, Pad(m2));
    SamePrefix(m1, Pad(m1), extra, m2, Pad(m2));
  }

  lemma SamePrefix(m1: seq<byte>, p1: seq<byte>, extra: seq<byte>, m2: seq<byte>, p2: seq<byte>)
    requires m1 <= p1 && m2 <= p2 && |m1| == |m2| && p1 + extra == p2
    ensures m1 == m2
  {
    assert m1 == (p1 + extra)[..|m1|];
  }

  /** Counter blocks of different numbers differ, and none of them is ever used as B_0. */
  lemma CounterBlocksDistinct(M: nat, L: nat, nonce: Block, i: nat, j: nat, other: Block, la: nat, lm: nat)
    requires Params(M, L)
    requires i < Pow256(L) && j < Pow256(L)
    ensures CounterBlock(L, nonce, i) == CounterBlock(L, nonce, j) <==> i == j
    ensures CounterBlock(L, nonce, i) != B0(M, L, other, la, lm)
  {
    var a, b := CounterBlock(L, nonce, i), CounterBlock(L, nonce, j);
    assert a[16 - L..] == BigEndian(i, L) && b[16 - L..] == BigEndian(j, L);
    if a == b { BigEndianInjective(i, j, L); }
    assert a[0] == L - 1 && B0(M, L, other, la, lm)[0] >= 8;
  }

  // ---------------------------------------------------------------- the blocks, octet by octet

  /** The fields of B_0: a reserved bit, Adata, M' and L' in the first octet, then the nonce and the length. */
  lemma B0Decodes(M: nat, L: nat, nonce: Block, la: nat, lm: nat)
    requires Params(M, L)
    ensures var b := B0(M, L, nonce, la, lm);
      && b[0] / 128 == 0 && (b[0] / 64 % 2 == 1 <==> la > 0) && b[0] / 8 % 8 == (M - 2) / 2 && b[0] % 8 == L - 1
      && b[1..16 - L] == nonce[..15 - L] && (lm < Pow256(L) ==> Value(b[16 - L..]) == lm)
    ensures B0(8, 3, nonce, la, lm)[0] == if la > 0 then 0x5a else 0x1a
  {
    hide BigEndian, Value, Flags;
    FlagBits(M, L, la);
    var b := B0(M, L, nonce, la, lm);
    assert b[0] == Flags(la, M, L) && b[16 - L..] == BigEndian(lm, L);
    if lm < Pow256(L) { ValueOfBigEndian(lm, L); }
  }

  lemma FlagBits(M: nat, L: nat, la: nat)
    requires Params(M, L)
    ensures var f := Flags(la, M, L);
      f / 128 == 0 && (f / 64 % 2 == 1 <==> la > 0) && f / 8 % 8 == (M - 2) / 2 && f % 8 == L - 1
    ensures Flags(la, 8, 3) == if la > 0 then 0x5a else 0x1a
  {
    var f, m := Flags(la, M, L), (M - 2) / 2;
    assert f / 8 == (if la > 0 then 8 else 0) + m;
  }

  /** The length of additional data takes two octets, or six from 0xFF00 on, or ten from 2^32 on. */
  lemma LengthPrefixOctets(la: nat)
    requires la < Pow256(8)
    ensures var p := LengthPrefix(la);
      && (la < 65280 ==> p == [la / 256, la % 256])
      && (65280 <= la < 4294967296 ==> |p| == 6 && p[0] == 255 && p[1] == 254 && Value(p[2..]) == la)
      && (la >= 4294967296 ==> |p| == 10 && p[0] == 255 && p[1] == 255 && Value(p[2..]) == la)
  {
    hide BigEndian, Value, Pow256;
    PrefixTag(la);
    TwoBytes(0xfffe);
    TwoBytes(0xffff);
    if la < 65280 { TwoBytes(la); }
    else if la < 4294967296 { ValueOfBigEndian(la, 4); }
    else { ValueOfBigEndian(la, 8); }
  }

  lemma FirstBlockOfCbc(E: BlockCipher, b: Block)
    ensures Cbc(E, Zeros(16), b) == E(b)
  {
    XorSeqCommutes(b, Zeros(16));
    XorZeros(b);
    assert b[..0] == [] && b[0..] == b;
  }

  lemma {:induction false} XorZeros(a: seq<byte>)
    ensures XorSeq(a, Zeros(|a|)) == a
  {
    if a != [] {
      XorLaws(a[0], 0);
      XorZeros(a[1..]);
      assert Zeros(|a|)[1..] == Zeros(|a| - 1);
    }
  }
}

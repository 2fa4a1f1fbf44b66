/** ccm.c: the in-place loops, proved against the values of CcmSpec. */
module Ccm {
  import opened Bytes
  import opened CcmSpec

  // ---------------------------------------------------------------- facts the loops need

  lemma {:induction false} CbcConcat(E: BlockCipher, x: Block, s: seq<byte>, t: seq<byte>, k: nat)
    requires |t| == 16 * k
    ensures Cbc(E, x, s + t) == if k == 0 then Cbc(E, x, s) else Cbc(E, Cbc(E, x, s), t)
  {
    if k == 0 {
      assert s + t == s;
    } else {
      var t' := t[..|t| - 16];
      CbcConcat(E, x, s, t', k - 1);
      assert (s + t)[..|s + t| - 16] == s + t';
      assert (s + t)[|s + t| - 16..] == t[|t| - 16..];
    }
  }

  /** The CBC chain after the first `k` blocks of `p`: what the loops keep in `X`. */
  ghost function Chain(E: BlockCipher, x: Block, p: seq<byte>, k: nat): Block
    requires 16 * k <= |p|
  {
    if k == 0 then x else E(XorBlock(Chain(E, x, p, k - 1), p[16 * k - 16..16 * k]))
  }

  lemma {:induction false} ChainIsCbc(E: BlockCipher, x: Block, p: seq<byte>, k: nat)
    requires |p| == 16 * k
    ensures Chain(E, x, p, k) == Cbc(E, x, p)
  {
    if k > 0 {
      ChainIsCbc(E, x, p[..16 * k - 16], k - 1);
      ChainPrefix(E, x, p[..16 * k - 16], p, k - 1);
      assert p[16 * k - 16..16 * k] == p[|p| - 16..];
    }
  }

  lemma {:induction false} ChainPrefix(E: BlockCipher, x: Block, p: seq<byte>, q: seq<byte>, k: nat)
    requires p <= q && 16 * k <= |p|
    ensures Chain(E, x, p, k) == Chain(E, x, q, k)
  {
    if k > 0 {
      ChainPrefix(E, x, p, q, k - 1);
      assert p[16 * k - 16..16 * k] == q[16 * k - 16..16 * k];
    }
  }

  lemma {:induction false} PadLengthIs(n: nat, k: nat)
    requires 16 * k < n <= 16 * k + 16
    ensures PadLength(n) == 16 * k + 16 - n
  {
    if k > 0 { PadLengthIs(n - 16, k - 1); }
  }

  /** The last, possibly partial, block of a padded string. */
  lemma PadTail(s: seq<byte>, k: nat)
    requires 16 * k < |s| <= 16 * k + 16
    ensures |Pad(s)| == 16 * k + 16 && Pad(s)[16 * k..] == s[16 * k..] + Zeros(16 * k + 16 - |s|)
    ensures Pad(s)[..16 * k] == s[..16 * k]
  {
    PadLengthIs(|s|, k);
  }

  lemma PadWhole(s: seq<byte>, k: nat)
    requires |s| == 16 * k
    ensures Pad(s) == s
  {
    if k > 0 { PadLengthIs(|s|, k - 1); }
  }

  /** Padded strings consist of whole blocks. */
  lemma {:induction false} PadBlocks(n: nat) returns (k: nat)
    ensures n + PadLength(n) == 16 * k
  {
    if n == 0 { k := 0; } else if n <= 16 { k := 1; } else { k := PadBlocks(n - 16); k := k + 1; }
  }

  /** `X ^ msg` on the first bytes and `X` on the rest is `X` exclusive-or the zero-padded block. */
  lemma XorPartial(x: Block, b: seq<byte>, r: seq<byte>)
    requires |b| <= 16 == |r| && r[|b|..] == x[|b|..]
    requires forall i :: 0 <= i < |b| ==> r[i] == Xor(x[i], b[i])
    ensures r == XorBlock(x, b + Zeros(16 - |b|))
  {
    var y := b + Zeros(16 - |b|);
    forall i | 0 <= i < 16 ensures r[i] == Xor(x[i], y[i]) {
      if i >= |b| {
        XorLaws(x[i], 0);
        assert r[i] == r[|b|..][i - |b|] && x[i] == x[|b|..][i - |b|];
      }
    }
    XorSeqIs(x, y, r);
  }

  /** `len` octets of the output starting at block `k` come from S_{j+k}. */
  lemma {:induction false} CryptFromBlock(E: BlockCipher, L: nat, nonce: Block, j: nat, m: seq<byte>, k: nat, len: nat)
    requires 2 <= L <= 3 && len <= 16 && 16 * k + len <= |m| && (len == 16 || 16 * k + len == |m|)
    ensures CryptFrom(E, L, nonce, j, m)[16 * k..16 * k + len]
         == XorSeq(m[16 * k..16 * k + len], E(CounterBlock(L, nonce, j + k)))
    decreases k
  {
    hide XorSeq, CounterBlock;
    var s, c := E(CounterBlock(L, nonce, j)), CryptFrom(E, L, nonce, j, m);
    if len == 0 {
    } else if |m| <= 16 {
      assert m[0..len] == m && c[0..len] == c;
    } else if k == 0 {
      assert c[0..16] == XorSeq(m[..16], s) && m[0..16] == m[..16];
    } else {
      var rest, q := CryptFrom(E, L, nonce, j + 1, m[16..]), 16 * (k - 1);
      CryptFromBlock(E, L, nonce, j + 1, m[16..], k - 1, len);
      SliceOfTail(XorSeq(m[..16], s), rest, q, q + len);
      SliceOfTail(m[..16], m[16..], q, q + len);
      assert m == m[..16] + m[16..];
    }
  }

  lemma SliceOfTail(head: seq<byte>, tail: seq<byte>, a: nat, b: nat)
    requires |head| == 16 && a <= b <= |tail|
    ensures (head + tail)[16 + a..16 + b] == tail[a..b]
  {
  }

  lemma CryptBlock(E: BlockCipher, L: nat, nonce: Block, m: seq<byte>, k: nat, len: nat)
    requires 2 <= L <= 3 && len <= 16 && 16 * k + len <= |m| && (len == 16 || 16 * k + len == |m|)
    ensures Crypt(E, L, nonce, m)[16 * k..16 * k + len]
         == XorSeq(m[16 * k..16 * k + len], E(CounterBlock(L, nonce, k + 1)))
  {
    CryptFromBlock(E, L, nonce, 1, m, k, len);
  }

  /** Writing out a number from its low end. */
  lemma BigEndianPeel(v: nat, n: nat)
    requires n > 0
    ensures BigEndian(v, n) == BigEndian(v / 256, n - 1) + [v % 256]
  {
  }

  /** Adding a multiple of 256^n does not show in the low `n` octets. */
  lemma {:induction false} BigEndianLow(v: nat, n: nat, q: nat)
    ensures Pow256(n) * q >= 0 && BigEndian(v + Pow256(n) * q, n) == BigEndian(v, n)
  {
    if n > 0 {
      var x := Pow256(n - 1) * q;
      BigEndianLow(v / 256, n - 1, q);
      Regroup(Pow256(n - 1), q);
      ShiftOut(v, x);
      BigEndianPeel(v + 256 * x, n);
    }
  }

  lemma Regroup(p: nat, q: nat)
    ensures p * q >= 0 && (256 * p) * q == 256 * (p * q)
  {
  }

  lemma ShiftOut(v: nat, x: nat)
    ensures (v + 256 * x) / 256 == v / 256 + x && (v + 256 * x) % 256 == v % 256
  {
  }

  lemma DivMod(v: nat, p: nat)
    requires p > 0
    ensures v == v % p + p * (v / p) && v / p >= 0
  {
  }

  /** MASK_L only removes what the L octets cannot show. */
  lemma MaskIsHarmless(v: nat, L: nat)
    ensures BigEndian(v % Pow256(L), L) == BigEndian(v, L)
  {
    DivMod(v, Pow256(L));
    BigEndianLow(v % Pow256(L), L, v / Pow256(L));
  }

  // ---------------------------------------------------------------- the static helpers of ccm.c

  /** rijndael_encrypt(ctx, in, out). */
  method Rijndael(E: BlockCipher, inp: array<byte>, out: array<byte>)
    requires inp.Length == 16 && out.Length == 16 && inp != out
    modifies out
    ensures out[..] == E(inp[..])
  {
    Copy(out, 0, E(inp[..]));
  }

  /** SET_COUNTER: clears the counter octets and fills them from the low end while bits remain. */
  method SetCounter(A: array<byte>, L: nat, cnt: nat)
    requires A.Length == 16 && 2 <= L <= 3
    modifies A
    ensures A[..] == old(A[..16 - L]) + BigEndian(cnt, L)
  {
    hide BigEndian, Pow256;
    forall i | 16 - L <= i < 16 { A[i] := 0; }
    var C: nat := cnt % Pow256(L);
    var i := 15;
    NothingAfter(A[..]);
    while C != 0 && i > L
      invariant 15 - L <= i <= 15
      invariant C < Pow256(i - (15 - L))
      invariant A[..16 - L] == old(A[..16 - L])
      invariant forall k :: 16 - L <= k <= i ==> A[k] == 0
      invariant BigEndian(cnt % Pow256(L), L) == BigEndian(C, i - (15 - L)) + A[i + 1..]
    {
      ghost var before := A[i + 1..];
      PowDown(C, i - (15 - L));
      BigEndianPeel(C, i - (15 - L));
      A[i] := C % 256; // A[i] is zero here, so |= stores
      assert A[i..] == [C % 256] + before;
      i, C := i - 1, C / 256;
    }
    PowNothing();
    BigEndianOfZero(i - (15 - L));
    MaskIsHarmless(cnt, L);
    assert A[16 - L..i + 1] == Zeros(i - (15 - L));
    ThreeParts(A[..], 16 - L, i + 1);
  }

  lemma NothingAfter(s: seq<byte>)
    ensures forall b: seq<byte> :: b + s[|s|..] == b
  {
  }

  lemma PowDown(v: nat, n: nat)
    requires 0 < v < Pow256(n)
    ensures n > 0 && v / 256 < Pow256(n - 1)
  {
  }

  lemma PowNothing()
    ensures Pow256(0) == 1
  {
  }

  lemma ThreeParts(s: seq<byte>, a: nat, b: nat)
    requires a <= b <= |s|
    ensures s == s[..a] + (s[a..b] + s[b..])
  {
  }

  /** The loop of block0: the length from the low end. */
  method LengthField(L: nat, lm: nat, result: array<byte>)
    requires L <= 16 && result.Length == 16
    modifies result
    ensures result[..16 - L] == old(result[..16 - L]) && result[16 - L..] == BigEndian(lm, L)
  {
    hide BigEndian;
    var i, rest: nat := 0, lm;
    while i < L
      invariant 0 <= i <= L
      invariant result[..16 - L] == old(result[..16 - L])
      invariant BigEndian(lm, L) == BigEndian(rest, L - i) + result[16 - i..]
    {
      ghost var before := result[16 - i..];
      BigEndianPeel(rest, L - i);
      result[15 - i] := rest % 256;
      assert result[15 - i..] == [rest % 256] + before;
      rest, i := rest / 256, i + 1;
    }
  }

  /** block0: flags, nonce (one octet too many), then the length over that octet. */
  method Block0(M: nat, L: nat, la: nat, lm: nat, nonce: Block, result: array<byte>)
    requires Params(M, L) && result.Length == 16
    modifies result
    ensures result[..] == B0(M, L, nonce, la, lm)
    ensures result[0] / 128 == 0 && (result[0] / 64 % 2 == 1 <==> la > 0)
    ensures result[0] / 8 % 8 == (M - 2) / 2 && result[0] % 8 == L - 1
    ensures result[1..16 - L] == nonce[..15 - L] && (lm < Pow256(L) ==> Value(result[16 - L..]) == lm)
  {
    hide BigEndian, Flags, B0, Value;
    result[0] := Flags(la, M, L);
    Copy(result, 1, nonce[..16 - L]);
    assert result[..16 - L] == [Flags(la, M, L)] + nonce[..15 - L];
    LengthField(L, lm, result);
    assert result[..] == result[..16 - L] + result[16 - L..];
    B0Is(M, L, nonce, la, lm);
    B0Decodes(M, L, nonce, la, lm);
    assert result[1..16 - L] == result[..][1..16 - L] && result[16 - L..] == result[..][16 - L..];
  }

  lemma B0Is(M: nat, L: nat, nonce: Block, la: nat, lm: nat)
    requires Params(M, L)
    ensures B0(M, L, nonce, la, lm) == [Flags(la, M, L)] + nonce[..15 - L] + BigEndian(lm, L)
  {
    hide BigEndian, Flags;
  }

  /** mac: one CBC step over `len` message octets; the caller prepared the rest of `B`. */
  method MacStep(E: BlockCipher, msg: seq<byte>, len: nat, B: array<byte>, X: array<byte>)
    requires len <= 16 && len <= |msg| && B.Length == 16 && X.Length == 16 && B != X
    requires B[len..] == X[len..]
    modifies B, X
    ensures X[..] == E(XorBlock(old(X[..]), msg[..len] + Zeros(16 - len)))
  {
    var i := 0;
    while i < len
      invariant 0 <= i <= len
      invariant forall k :: 0 <= k < i ==> B[k] == Xor(X[k], msg[k])
      invariant B[len..] == X[len..] && X[..] == old(X[..])
    {
      B[i] := Xor(X[i], msg[i]);
      i := i + 1;
    }
    XorPartial(X[..], msg[..len], B[..]);
    Rijndael(E, B, X);
  }

  /** encrypt: masks `len` octets of `msg` with S_counter. */
  method CryptStep(E: BlockCipher, L: nat, counter: nat, msg: array<byte>, at: nat, len: nat, A: array<byte>, S: array<byte>)
    requires 2 <= L <= 3 && len <= 16 && at + len <= msg.Length && A.Length == 16 && S.Length == 16
    requires A != S && A != msg && S != msg
    modifies msg, A, S
    ensures A[..] == old(A[..16 - L]) + BigEndian(counter, L)
    ensures msg[..] == Splice(old(msg[..]), at, XorSeq(old(msg[at..at + len]), E(old(A[..16 - L]) + BigEndian(counter, L))))
  {
    hide XorSeq, BigEndian, Splice;
    SetCounter(A, L, counter);
    Rijndael(E, A, S);
    XorSeqPrefix(msg[at..at + len], S[..]);
    MemXor(msg, at, S[..len]);
  }


  /** The first block takes `i` octets of additional data; the rest is padded on its own. */
  lemma FirstAadBlock(p: seq<byte>, aad: seq<byte>, i: nat)
    requires 2 <= |p| <= 10 && i <= |aad| && i == (if 16 - |p| <= |aad| then 16 - |p| else |aad|)
    ensures Pad(p + aad) == (p + aad[..i] + Zeros(16 - |p| - i)) + Pad(aad[i..])
  {
    if |p| + |aad| <= 16 {
      PadTail(p + aad, 0);
      PadWhole(aad[i..], 0);
    } else {
      assert |aad[i..]| == |p| + |aad| - 16;
    }
  }

  /** A padded string, absorbed block by block: `k` whole blocks, then a last one with `0 < r <= 16` octets. */
  lemma ChainOfPadded(E: BlockCipher, x: Block, s: seq<byte>, k: nat)
    requires 16 * k < |s| <= 16 * k + 16
    ensures Cbc(E, x, Pad(s)) == E(XorBlock(Chain(E, x, s, k), s[16 * k..] + Zeros(16 * k + 16 - |s|)))
  {
    var P := Pad(s);
    PadTail(s, k);
    ChainIsCbc(E, x, P, k + 1);
    ChainPrefix(E, x, s[..16 * k], s, k);
    ChainPrefix(E, x, s[..16 * k], P, k);
    assert P[16 * k..16 * k + 16] == P[16 * k..];
  }

  lemma ChainOfWhole(E: BlockCipher, x: Block, s: seq<byte>, k: nat)
    requires 16 * k == |s|
    ensures Cbc(E, x, Pad(s)) == Chain(E, x, s, k)
  {
    PadWhole(s, k);
    ChainIsCbc(E, x, s, k);
  }

  /** `B ^= X; rijndael_encrypt(ctx, B, X)`: one CBC step over the block held in `B`. */
  method AbsorbBlock(E: BlockCipher, B: array<byte>, X: array<byte>)
    requires B.Length == 16 && X.Length == 16 && B != X
    modifies B, X
    ensures X[..] == E(XorBlock(old(X[..]), old(B[..])))
  {
    ghost var b := B[..];
    XorSeqCommutes(b, X[..]);
    MemXor(B, 0, X[..]);
    assert B[..] == XorSeq(b, X[..]) by { assert b == b[0..16]; }
    Rijndael(E, B, X);
  }

  lemma Cleared(s: seq<byte>)
    requires |s| == 16
    ensures Splice(s, 0, Zeros(16)) == Zeros(16) && |Zeros(16)| == 16
  {
  }

  lemma FirstFilled(p: seq<byte>)
    requires |p| <= 16
    ensures |Zeros(16)| == 16 && Splice(Zeros(16), 0, p) == p + Zeros(16 - |p|)
  {
    assert Zeros(16)[|p|..] == Zeros(16 - |p|);
  }

  lemma Filled(p: seq<byte>, a: seq<byte>)
    requires |p| + |a| <= 16
    ensures |p + Zeros(16 - |p|)| == 16 && Splice(p + Zeros(16 - |p|), |p|, a) == p + a + Zeros(16 - |p| - |a|)
  {
    var s := p + Zeros(16 - |p|);
    assert s[..|p|] == p && s[|p| + |a|..] == Zeros(16 - |p| - |a|);
  }

  lemma OneBlock(E: BlockCipher, x: Block, b: Block)
    ensures Cbc(E, x, b) == E(XorBlock(x, b))
  {
    hide XorSeq;
    assert b[..0] == [] && b[0..] == b;
    NothingAbsorbed(E, x);
  }

  lemma NoBlocks(E: BlockCipher, x: Block)
    ensures Cbc(E, x, AadBlocks([])) == x
  {
  }

  /** `memset(B, 0, 16); memcpy(B, msg, la)` and the CBC step. */
  method AbsorbLast(E: BlockCipher, msg: seq<byte>, B: array<byte>, X: array<byte>)
    requires |msg| <= 16 && B.Length == 16 && X.Length == 16 && B != X
    modifies B, X
    ensures X[..] == E(XorBlock(old(X[..]), msg + Zeros(16 - |msg|)))
  {
    hide XorSeq, Splice, Zeros;
    Copy(B, 0, Zeros(16));
    Cleared(old(B[..]));
    Copy(B, 0, msg);
    FirstFilled(msg);
    AbsorbBlock(E, B, X);
  }

  /** How many octets of additional data go into the first block. */
  function FirstPart(la: nat): (i: nat)
    ensures i <= la && i <= 14
  {
    var n := |LengthPrefix(la)|;
    if 16 - n <= la then 16 - n else la
  }

  ghost function FirstBlock(aad: seq<byte>): (b: seq<byte>)
    ensures |b| == 16
  {
    var p, i := LengthPrefix(|aad|), FirstPart(|aad|);
    assert |p| + i <= 16;
    p + aad[..i] + Zeros(16 - |p| - i)
  }

  /** The first block of additional data and the rest make up all of it. */
  lemma AadAssembled(E: BlockCipher, x: Block, aad: seq<byte>)
    requires aad != []
    ensures FirstPart(|aad|) <= |aad|
    ensures Cbc(E, E(XorBlock(x, FirstBlock(aad))), Pad(aad[FirstPart(|aad|)..])) == Cbc(E, x, AadBlocks(aad))
  {
    hide Cbc, XorSeq, LengthPrefix, PadLength, Zeros;
    var rest := aad[FirstPart(|aad|)..];
    OneBlock(E, x, FirstBlock(aad));
    FirstAadBlock(LengthPrefix(|aad|), aad, FirstPart(|aad|));
    var k := PadBlocks(|rest|);
    PadSize(rest);
    CbcConcat(E, x, FirstBlock(aad), Pad(rest), k);
    NothingAbsorbed(E, E(XorBlock(x, FirstBlock(aad))));
  }

  lemma NothingAbsorbed(E: BlockCipher, x: Block)
    ensures Cbc(E, x, []) == x
  {
  }

  lemma PadSize(s: seq<byte>)
    ensures |Pad(s)| == |s| + PadLength(|s|)
  {
  }

  /** add_auth_data: runs the CBC-MAC over B_0 (in `B`) and the length-prefixed, zero-padded additional data. */
  method AddAuthData(E: BlockCipher, aad: seq<byte>, B: array<byte>, X: array<byte>)
    requires B.Length == 16 && X.Length == 16 && B != X
    modifies B, X
    ensures X[..] == Cbc(E, E(old(B[..])), AadBlocks(aad))
  {
    hide XorSeq, Cbc, Zeros, Pad, FirstPart, FirstBlock, AadBlocks;
    Rijndael(E, B, X);
    Copy(B, 0, Zeros(16));
    Cleared(old(B[..]));
    NoBlocks(E, X[..]);
    if |aad| == 0 { return; }
    AadAssembled(E, X[..], aad);
    FillFirst(aad, B);
    AbsorbBlock(E, B, X);
    AddAadBlocks(E, aad[FirstPart(|aad|)..], B, X);
  }

  /** The length and as much additional data as fits behind it, over the zeroes in `B`. */
  method FillFirst(aad: seq<byte>, B: array<byte>)
    requires B.Length == 16 && B[..] == Zeros(16)
    modifies B
    ensures B[..] == FirstBlock(aad)
  {
    hide Splice, Zeros, LengthPrefix;
    var la := |aad|;
    var p := LengthPrefix(la);
    Copy(B, 0, p);
    FirstFilled(p);
    var i := if 16 - |p| <= la then 16 - |p| else la;
    Copy(B, |p|, aad[..i]);
    Filled(p, aad[..i]);
  }

  /** add_auth_data, after the first block: the remaining additional data in blocks, the last one zero-padded. */
  method AddAadBlocks(E: BlockCipher, msg: seq<byte>, B: array<byte>, X: array<byte>)
    requires B.Length == 16 && X.Length == 16 && B != X
    modifies B, X
    ensures X[..] == Cbc(E, old(X[..]), Pad(msg))
  {
    hide Cbc, XorSeq, Pad, Chain, BlockAt, PadLength;
    var k, la := 0, |msg|;
    ChainStarts(E, X[..], msg);
    while la > 16
      invariant 0 <= k && la == |msg| - 16 * k && (k > 0 ==> la > 0) && la >= 0
      invariant X[..] == Chain(E, old(X[..]), msg, k)
    {
      var block := msg[16 * k..16 * k + 16];
      BlockAtIs(msg, k, 16);
      assert block[..16] == block;
      MacStep(E, block, 16, B, X);
      ChainNext(E, old(X[..]), msg, k);
      la, k := la - 16, k + 1;
    }
    if la > 0 {
      AbsorbLast(E, msg[16 * k..], B, X);
      ChainOfPadded(E, old(X[..]), msg, k);
    } else {
      ChainOfWhole(E, old(X[..]), msg, k);
    }
  }

  // ---------------------------------------------------------------- encryption and decryption in place

  /** `A[0] = L-1; memcpy(A + 1, nonce, 16 - L)`: everything of the counter blocks but the counter. */
  method CounterTemplate(L: nat, nonce: Block, A: array<byte>)
    requires 2 <= L <= 3 && A.Length == 16
    modifies A
    ensures A[..16 - L] == [L - 1] + nonce[..15 - L]
  {
    A[0] := L - 1;
    Copy(A, 1, nonce[..16 - L]);
    assert A[..17 - L] == [L - 1] + nonce[..16 - L];
  }

  /** One round of dtls_ccm_encrypt_message: mac() over the next `len` octets, then encrypt() on them. */
  method EncryptRound(E: BlockCipher, L: nat, counter: nat, buf: array<byte>, at: nat, len: nat,
                      A: array<byte>, B: array<byte>, S: array<byte>, X: array<byte>)
    requires 2 <= L <= 3 && len <= 16 && at + len <= buf.Length && {A, B, S, X} !! {buf}
    requires A.Length == 16 && B.Length == 16 && S.Length == 16 && X.Length == 16
    requires A != B && A != S && A != X && B != S && B != X && S != X
    modifies buf, A, B, S, X
    ensures A[..16 - L] == old(A[..16 - L])
    ensures buf[..] == Splice(old(buf[..]), at, XorSeq(old(buf[at..at + len]), E(old(A[..16 - L]) + BigEndian(counter, L))))
    ensures X[..] == E(XorBlock(old(X[..]), old(buf[at..at + len]) + Zeros(16 - len)))
  {
    if len < 16 { Copy(B, len, X[len..]); }
    var msg := buf[at..at + len];
    assert msg[..len] == msg;
    MacStep(E, msg, len, B, X);
    CryptStep(E, L, counter, buf, at, len, A, S);
  }

  /** Octets not yet reached are those of the message. */
  lemma BlockOf(buf: seq<byte>, was: seq<byte>, c: seq<byte>, off: nat, lm: nat, n: nat, len: nat)
    requires Done(buf, was, c, off, n) && off + lm <= |was| && n + len <= lm
    ensures buf[off + n..off + n + len] == was[off..off + lm][n..n + len]
  {
    DoneTail(buf, was, c, off, n);
    hide Done;
    SameTail(buf, was, off + n, len);
    SliceOfSlice(was, off, off + lm, n, n + len);
  }

  lemma DoneTail(buf: seq<byte>, was: seq<byte>, c: seq<byte>, off: nat, n: nat)
    requires Done(buf, was, c, off, n)
    ensures off + n <= |buf| == |was| && buf[off + n..] == was[off + n..]
  {
  }

  lemma SameTail(s: seq<byte>, t: seq<byte>, k: nat, len: nat)
    requires |s| == |t| && k + len <= |s| && s[k..] == t[k..]
    ensures s[k..k + len] == t[k..k + len]
  {
    forall i | k <= i < k + len ensures s[i] == t[i] {
      assert s[k..][i - k] == t[k..][i - k];
    }
  }

  lemma SliceOfSlice(s: seq<byte>, a: nat, b: nat, i: nat, j: nat)
    requires a <= b <= |s| && i <= j <= b - a
    ensures s[a..b][i..j] == s[a + i..a + j]
  {
    var l, r := s[a..b][i..j], s[a + i..a + j];
    assert |l| == |r|;
    forall k | 0 <= k < |l| ensures l[k] == r[k] {
      assert l[k] == s[a..b][i + k];
    }
  }

  /** The next `len <= 16` octets at block `k`, padded with zeroes. */
  ghost function BlockAt(m: seq<byte>, k: nat, len: nat): Block
    requires len <= 16 && 16 * k + len <= |m|
  {
    var b := m[16 * k..16 * k + len];
    assert |b| == len;
    b + Zeros(16 - len)
  }

  lemma BlockAtIs(m: seq<byte>, k: nat, len: nat)
    requires len <= 16 && 16 * k + len <= |m|
    ensures BlockAt(m, k, len) == m[16 * k..16 * k + len] + Zeros(16 - len)
  {
  }

  lemma ChainStarts(E: BlockCipher, x: Block, s: seq<byte>)
    ensures Chain(E, x, s, 0) == x
  {
  }

  lemma ChainNext(E: BlockCipher, x: Block, s: seq<byte>, k: nat)
    requires 16 * k + 16 <= |s|
    ensures Chain(E, x, s, k + 1) == E(XorBlock(Chain(E, x, s, k), BlockAt(s, k, 16)))
  {
    assert s[16 * k..16 * k + 16] + Zeros(0) == s[16 * k..16 * k + 16];
  }

  lemma ChainLast(E: BlockCipher, x: Block, s: seq<byte>, k: nat, len: nat)
    requires 0 < len <= 16 && 16 * k + len == |s|
    ensures Cbc(E, x, Pad(s)) == E(XorBlock(Chain(E, x, s, k), BlockAt(s, k, len)))
  {
    ChainOfPadded(E, x, s, k);
    assert s[16 * k..16 * k + len] == s[16 * k..];
  }

  /** EncryptRound at block `k`, in terms of the whole message. */
  method EncryptNext(E: BlockCipher, L: nat, ghost nonce: Block, buf: array<byte>, off: nat, lm: nat, k: nat, len: nat,
                     ghost was: seq<byte>, A: array<byte>, B: array<byte>, S: array<byte>, X: array<byte>)
    requires 2 <= L <= 3 && off + lm <= |was| == buf.Length && {A, B, S, X} !! {buf}
    requires len <= 16 && 16 * k + len <= lm && (len == 16 || 16 * k + len == lm)
    requires A.Length == 16 && B.Length == 16 && S.Length == 16 && X.Length == 16
    requires A != B && A != S && A != X && B != S && B != X && S != X
    requires A[..16 - L] == [L - 1] + nonce[..15 - L]
    requires Done(buf[..], was, Crypt(E, L, nonce, was[off..off + lm]), off, 16 * k)
    modifies buf, A, B, S, X
    ensures A[..16 - L] == old(A[..16 - L])
    ensures Done(buf[..], was, Crypt(E, L, nonce, was[off..off + lm]), off, 16 * k + len)
    ensures X[..] == E(XorBlock(old(X[..]), BlockAt(was[off..off + lm], k, len)))
  {
    hide Crypt, XorSeq, CounterBlock, Done, BlockAt, Splice;
    ghost var now, m := buf[..], was[off..off + lm];
    ghost var c := Crypt(E, L, nonce, m);
    var at := off + 16 * k;
    BlockOf(now, was, c, off, lm, 16 * k, len);
    assert buf[at..at + len] == m[16 * k..16 * k + len];
    BlockAtIs(m, k, len);
    CounterBlockIs(L, nonce, k + 1);
    CryptBlock(E, L, nonce, m, k, len);
    DoneStep(now, was, c, off, 16 * k, c[16 * k..16 * k + len]);
    assert XorSeq(buf[at..at + len], E(A[..16 - L] + BigEndian(k + 1, L))) == c[16 * k..16 * k + len];
    EncryptRound(E, L, k + 1, buf, at, len, A, B, S, X);
  }

  /** The loop of dtls_ccm_encrypt_message and the partial block after it. */
  method EncryptBlocks(E: BlockCipher, L: nat, ghost nonce: Block, buf: array<byte>, off: nat, lm: nat,
                       A: array<byte>, B: array<byte>, S: array<byte>, X: array<byte>)
    requires 2 <= L <= 3 && off + lm <= buf.Length && {A, B, S, X} !! {buf}
    requires A.Length == 16 && B.Length == 16 && S.Length == 16 && X.Length == 16
    requires A != B && A != S && A != X && B != S && B != X && S != X
    requires A[..16 - L] == [L - 1] + nonce[..15 - L]
    modifies buf, A, B, S, X
    ensures A[..16 - L] == old(A[..16 - L])
    ensures Done(buf[..], old(buf[..]), Crypt(E, L, nonce, old(buf[off..off + lm])), off, lm)
    ensures X[..] == Cbc(E, old(X[..]), Pad(old(buf[off..off + lm])))
  {
    hide Cbc, Crypt, XorSeq, Pad, Chain, BlockAt, Done;
    ghost var was, x0 := buf[..], X[..];
    ghost var m := was[off..off + lm];
    DoneNothing(was, Crypt(E, L, nonce, m), off);
    ChainStarts(E, x0, m);
    var k, left: nat := 0, lm;
    while left >= 16
      invariant 0 <= k && left + 16 * k == lm
      invariant A[..16 - L] == [L - 1] + nonce[..15 - L]
      invariant Done(buf[..], was, Crypt(E, L, nonce, m), off, 16 * k)
      invariant X[..] == Chain(E, x0, m, k)
    {
      EncryptNext(E, L, nonce, buf, off, lm, k, 16, was, A, B, S, X);
      ChainNext(E, x0, m, k);
      left, k := left - 16, k + 1;
    }
    if left > 0 {
      EncryptNext(E, L, nonce, buf, off, lm, k, left, was, A, B, S, X);
      ChainLast(E, x0, m, k, left);
    } else {
      ChainOfWhole(E, x0, m, k);
    }
  }

  /** Additional data first, then the message. */
  lemma MacInTwoSteps(E: BlockCipher, M: nat, L: nat, nonce: Block, aad: seq<byte>, m: seq<byte>)
    requires Params(M, L)
    ensures Mac(E, M, L, nonce, aad, m) == Cbc(E, Cbc(E, E(B0(M, L, nonce, |aad|, |m|)), AadBlocks(aad)), Pad(m))
  {
    var k := PadBlocks(|m|);
    CbcConcat(E, E(B0(M, L, nonce, |aad|, |m|)), AadBlocks(aad), Pad(m), k);
  }

  /** The tag is the CBC-MAC, from a block of zeroes, of the whole string of authentication blocks. */
  lemma MacIsCbc(E: BlockCipher, M: nat, L: nat, nonce: Block, aad: seq<byte>, m: seq<byte>)
    requires Params(M, L)
    ensures Mac(E, M, L, nonce, aad, m) == Cbc(E, Zeros(16), Formatted(M, L, nonce, aad, m))
  {
    hide Cbc, B0, Pad;
    var b, body := B0(M, L, nonce, |aad|, |m|), Body(aad, m);
    var i := 0;
    var j := PadBlocks(|m|);
    if aad != [] {
      i := PadBlocks(|LengthPrefix(|aad|) + aad|);
      PadSize(LengthPrefix(|aad|) + aad);
    }
    PadSize(m);
    assert |body| == 16 * (i + j);
    FirstBlockOfCbc(E, b);
    NothingAbsorbed(E, E(b));
    CbcConcat(E, Zeros(16), b, body, i + j);
  }

  lemma CounterBlockIs(L: nat, nonce: Block, i: nat)
    requires 2 <= L <= 3
    ensures CounterBlock(L, nonce, i) == [L - 1] + nonce[..15 - L] + BigEndian(i, L)
  {
  }

  lemma EncryptIs(E: BlockCipher, M: nat, L: nat, nonce: Block, aad: seq<byte>, m: seq<byte>, tag: seq<byte>)
    requires Params(M, L) && tag == XorSeq(Mac(E, M, L, nonce, aad, m)[..M], E(CounterBlock(L, nonce, 0)))
    ensures Encrypt(E, M, L, nonce, aad, m) == Crypt(E, L, nonce, m) + tag && |tag| == M
  {
  }

  /** Everything but the tag: the blocks A, S and X as the loop leaves them. */
  method EncryptAndMac(E: BlockCipher, M: nat, L: nat, nonce: Block, buf: array<byte>, off: nat, lm: nat, aad: seq<byte>)
    returns (A: array<byte>, S: array<byte>, X: array<byte>)
    requires Params(M, L) && off + lm + M <= buf.Length
    modifies buf
    ensures fresh(A) && fresh(S) && fresh(X) && A != S && A != X && S != X
    ensures A.Length == 16 && S.Length == 16 && X.Length == 16 && A[..16 - L] == [L - 1] + nonce[..15 - L]
    ensures X[..] == Mac(E, M, L, nonce, aad, old(buf[off..off + lm]))
    ensures Done(buf[..], old(buf[..]), Crypt(E, L, nonce, old(buf[off..off + lm])), off, lm)
  {
    hide Cbc, Mac, Pad, AadBlocks, Crypt, XorSeq, Done, Splice, B0;
    A, S, X := new byte[16], new byte[16], new byte[16];
    var B := new byte[16];
    ghost var m := buf[off..off + lm];
    Block0(M, L, |aad|, lm, nonce, B);
    AddAuthData(E, aad, B, X);
    CounterTemplate(L, nonce, A);
    EncryptBlocks(E, L, nonce, buf, off, lm, A, B, S, X);
    MacInTwoSteps(E, M, L, nonce, aad, m);
  }

  /** dtls_ccm_encrypt_message: `lm` octets at `off` are encrypted in place and `M` octets of tag follow. */
  method EncryptMessage(E: BlockCipher, M: nat, L: nat, nonce: Block, buf: array<byte>, off: nat, lm: nat, aad: seq<byte>)
    returns (len: int)
    requires Params(M, L) && off + lm + M <= buf.Length
    modifies buf
    ensures len == lm + M
    ensures buf[..] == Splice(old(buf[..]), off, Encrypt(E, M, L, nonce, aad, old(buf[off..off + lm])))
  {
    hide Cbc, Mac, Pad, AadBlocks, Crypt, Encrypt, Tag, XorSeq, Done, Splice, B0, CounterBlock;
    ghost var was, m := buf[..], buf[off..off + lm];
    var A, S, X := EncryptAndMac(E, M, L, nonce, buf, off, lm, aad);
    SetCounter(A, L, 0);
    CounterBlockIs(L, nonce, 0);
    Rijndael(E, A, S);
    var tag := XorSeq(X[..M], S[..]);
    EncryptIs(E, M, L, nonce, aad, m, tag);
    Finish(was, buf[..], Crypt(E, L, nonce, m), off, off + lm, tag);
    Copy(buf, off + lm, tag);
    len := lm + M;
  }

  /** One round of dtls_ccm_decrypt_message: encrypt() over the next `len` octets, then mac() on the result. */
  method DecryptRound(E: BlockCipher, L: nat, counter: nat, buf: array<byte>, at: nat, len: nat,
                      A: array<byte>, B: array<byte>, S: array<byte>, X: array<byte>)
    requires 2 <= L <= 3 && len <= 16 && at + len <= buf.Length && {A, B, S, X} !! {buf}
    requires A.Length == 16 && B.Length == 16 && S.Length == 16 && X.Length == 16
    requires A != B && A != S && A != X && B != S && B != X && S != X
    modifies buf, A, B, S, X
    ensures A[..16 - L] == old(A[..16 - L])
    ensures buf[..] == Splice(old(buf[..]), at, XorSeq(old(buf[at..at + len]), E(old(A[..16 - L]) + BigEndian(counter, L))))
    ensures X[..] == E(XorBlock(old(X[..]), XorSeq(old(buf[at..at + len]), E(old(A[..16 - L]) + BigEndian(counter, L))) + Zeros(16 - len)))
  {
    CryptStep(E, L, counter, buf, at, len, A, S);
    if len < 16 { Copy(B, len, X[len..]); }
    var msg := buf[at..at + len];
    assert msg[..len] == msg;
    MacStep(E, msg, len, B, X);
  }

  /** DecryptRound at block `k`, in terms of the whole message. */
  method DecryptNext(E: BlockCipher, L: nat, ghost nonce: Block, buf: array<byte>, off: nat, lm: nat, k: nat, len: nat,
                     ghost was: seq<byte>, A: array<byte>, B: array<byte>, S: array<byte>, X: array<byte>)
    requires 2 <= L <= 3 && off + lm <= |was| == buf.Length && {A, B, S, X} !! {buf}
    requires len <= 16 && 16 * k + len <= lm && (len == 16 || 16 * k + len == lm)
    requires A.Length == 16 && B.Length == 16 && S.Length == 16 && X.Length == 16
    requires A != B && A != S && A != X && B != S && B != X && S != X
    requires A[..16 - L] == [L - 1] + nonce[..15 - L]
    requires Done(buf[..], was, Crypt(E, L, nonce, was[off..off + lm]), off, 16 * k)
    modifies buf, A, B, S, X
    ensures A[..16 - L] == old(A[..16 - L])
    ensures Done(buf[..], was, Crypt(E, L, nonce, was[off..off + lm]), off, 16 * k + len)
    ensures X[..] == E(XorBlock(old(X[..]), BlockAt(Crypt(E, L, nonce, was[off..off + lm]), k, len)))
  {
    hide Crypt, XorSeq, CounterBlock, Done, BlockAt, Splice;
    ghost var now, m := buf[..], was[off..off + lm];
    ghost var c := Crypt(E, L, nonce, m);
    var at := off + 16 * k;
    BlockOf(now, was, c, off, lm, 16 * k, len);
    assert buf[at..at + len] == m[16 * k..16 * k + len];
    CounterBlockIs(L, nonce, k + 1);
    CryptBlock(E, L, nonce, m, k, len);
    BlockAtIs(c, k, len);
    DoneStep(now, was, c, off, 16 * k, c[16 * k..16 * k + len]);
    assert XorSeq(buf[at..at + len], E(A[..16 - L] + BigEndian(k + 1, L))) == c[16 * k..16 * k + len];
    DecryptRound(E, L, k + 1, buf, at, len, A, B, S, X);
  }

  /** The loop of dtls_ccm_decrypt_message and the partial block after it. */
  method DecryptBlocks(E: BlockCipher, L: nat, ghost nonce: Block, buf: array<byte>, off: nat, lm: nat,
                       A: array<byte>, B: array<byte>, S: array<byte>, X: array<byte>)
    requires 2 <= L <= 3 && off + lm <= buf.Length && {A, B, S, X} !! {buf}
    requires A.Length == 16 && B.Length == 16 && S.Length == 16 && X.Length == 16
    requires A != B && A != S && A != X && B != S && B != X && S != X
    requires A[..16 - L] == [L - 1] + nonce[..15 - L]
    modifies buf, A, B, S, X
    ensures A[..16 - L] == old(A[..16 - L])
    ensures Done(buf[..], old(buf[..]), Crypt(E, L, nonce, old(buf[off..off + lm])), off, lm)
    ensures X[..] == Cbc(E, old(X[..]), Pad(Crypt(E, L, nonce, old(buf[off..off + lm]))))
  {
    hide Cbc, Crypt, XorSeq, Pad, Chain, BlockAt, Done;
    ghost var was, x0 := buf[..], X[..];
    ghost var c := Crypt(E, L, nonce, was[off..off + lm]);
    DoneNothing(was, c, off);
    ChainStarts(E, x0, c);
    var k, left: nat := 0, lm;
    while left >= 16
      invariant 0 <= k && left + 16 * k == lm
      invariant A[..16 - L] == [L - 1] + nonce[..15 - L]
      invariant Done(buf[..], was, c, off, 16 * k)
      invariant X[..] == Chain(E, x0, c, k)
    {
      DecryptNext(E, L, nonce, buf, off, lm, k, 16, was, A, B, S, X);
      ChainNext(E, x0, c, k);
      left, k := left - 16, k + 1;
    }
    if left > 0 {
      DecryptNext(E, L, nonce, buf, off, lm, k, left, was, A, B, S, X);
      ChainLast(E, x0, c, k, left);
    } else {
      ChainOfWhole(E, x0, c, k);
    }
  }

  /** `memxor(msg, S, M)` over the received tag. */
  method MaskTag(M: nat, buf: array<byte>, ghost was: seq<byte>, ghost m: seq<byte>, off: nat, n: nat, s0: Block)
    requires M <= 16 && |m| == n && off + n + M <= buf.Length == |was| && Done(buf[..], was, m, off, n)
    modifies buf
    ensures buf[..] == Splice(was, off, m + XorSeq(was[off + n..off + n + M], s0))
    ensures buf[off..off + n] == m && buf[off + n..off + n + M] == XorSeq(was[off + n..off + n + M], s0)
  {
    hide XorSeq, Splice, Done;
    ghost var tag := XorSeq(was[off + n..off + n + M], s0);
    TagInPlace(buf[..], was, m, off, n, M);
    Finish(was, buf[..], m, off, off + n, tag);
    XorSeqPrefix(was[off + n..off + n + M], s0);
    MemXor(buf, off + n, s0[..M]);
    TaggedSplice(was, off, m, tag);
  }

  lemma TagInPlace(buf: seq<byte>, was: seq<byte>, m: seq<byte>, off: nat, n: nat, M: nat)
    requires |m| == n && off + n + M <= |buf| == |was| && Done(buf, was, m, off, n)
    ensures buf[off + n..off + n + M] == was[off + n..off + n + M]
  {
    assert buf[off + n..off + n + M] == buf[off + n..][..M] && was[off + n..off + n + M] == was[off + n..][..M];
  }

  lemma TaggedSplice(s: seq<byte>, off: nat, m: seq<byte>, tag: seq<byte>)
    requires off + |m| + |tag| <= |s|
    ensures Splice(s, off, m + tag)[off..off + |m|] == m
    ensures Splice(s, off, m + tag)[off + |m|..off + |m| + |tag|] == tag
  {
  }

  /** Everything but the tag: the blocks A, S and X as the loop leaves them. */
  method DecryptAndMac(E: BlockCipher, M: nat, L: nat, nonce: Block, buf: array<byte>, off: nat, n: nat, aad: seq<byte>)
    returns (A: array<byte>, S: array<byte>, X: array<byte>)
    requires Params(M, L) && off + n + M <= buf.Length
    modifies buf
    ensures fresh(A) && fresh(S) && fresh(X) && A != S && A != X && S != X
    ensures A.Length == 16 && S.Length == 16 && X.Length == 16 && A[..16 - L] == [L - 1] + nonce[..15 - L]
    ensures X[..] == Mac(E, M, L, nonce, aad, Crypt(E, L, nonce, old(buf[off..off + n])))
    ensures Done(buf[..], old(buf[..]), Crypt(E, L, nonce, old(buf[off..off + n])), off, n)
  {
    hide Cbc, Mac, Pad, AadBlocks, Crypt, XorSeq, Done, Splice, B0;
    A, S, X := new byte[16], new byte[16], new byte[16];
    var B := new byte[16];
    ghost var m := Crypt(E, L, nonce, buf[off..off + n]);
    Block0(M, L, |aad|, n, nonce, B);
    AddAuthData(E, aad, B, X);
    CounterTemplate(L, nonce, A);
    DecryptBlocks(E, L, nonce, buf, off, n, A, B, S, X);
    MacInTwoSteps(E, M, L, nonce, aad, m);
  }

  /** dtls_ccm_decrypt_message once the buffer is known to hold a tag. */
  method OpenInPlace(E: BlockCipher, M: nat, L: nat, nonce: Block, buf: array<byte>, off: nat, lm: nat, aad: seq<byte>)
    returns (ok: bool)
    requires Params(M, L) && M <= lm && off + lm <= buf.Length
    modifies buf
    ensures ok == Decrypt(E, M, L, nonce, aad, old(buf[off..off + lm])).Accepted?
    ensures buf[..] == Splice(old(buf[..]), off, Unmasked(E, M, L, nonce, old(buf[off..off + lm])))
  {
    hide Cbc, Mac, Pad, AadBlocks, Crypt, Decrypt, Unmasked, XorSeq, Done, Splice, B0, CounterBlock;
    var n := lm - M;
    ghost var was, c := buf[..], buf[off..off + lm];
    SliceOfSlice(was, off, off + lm, 0, n);
    SliceOfSlice(was, off, off + lm, n, lm);
    ghost var m := Crypt(E, L, nonce, c[..n]);
    var A, S, X := DecryptAndMac(E, M, L, nonce, buf, off, n, aad);
    SetCounter(A, L, 0);
    CounterBlockIs(L, nonce, 0);
    Rijndael(E, A, S);
    MaskTag(M, buf, was, m, off, n, S[..]);
    var tag := buf[off + n..off + n + M];
    Verdict(E, M, L, nonce, aad, c, tag);
    ok := Equals(X[..], tag, M);
  }

  /** Decrypt, once ciphertext and tag are unmasked. */
  lemma Verdict(E: BlockCipher, M: nat, L: nat, nonce: Block, aad: seq<byte>, c: seq<byte>, tag: seq<byte>)
    requires Params(M, L) && M <= |c| && tag == XorSeq(c[|c| - M..], E(CounterBlock(L, nonce, 0)))
    ensures tag[..M] == tag && Unmasked(E, M, L, nonce, c) == Crypt(E, L, nonce, c[..|c| - M]) + tag
    ensures Decrypt(E, M, L, nonce, aad, c).Accepted? <==> Mac(E, M, L, nonce, aad, Crypt(E, L, nonce, c[..|c| - M]))[..M] == tag
  {
  }

  /**
   * dtls_ccm_decrypt_message: the length of the plaintext left at `off` when the tag is right, -1 otherwise.
   * The buffer is overwritten in both cases, the tag with itself exclusive-or S_0.
   */
  method DecryptMessage(E: BlockCipher, M: nat, L: nat, nonce: Block, buf: array<byte>, off: nat, lm: nat, aad: seq<byte>)
    returns (len: int)
    requires Params(M, L) && off + lm <= buf.Length
    modifies buf
    ensures match Decrypt(E, M, L, nonce, aad, old(buf[off..off + lm]))
            case Rejected => len == -1
            case Accepted(m) => len == |m| && off + |m| <= buf.Length && buf[off..off + |m|] == m
    ensures lm < M ==> buf[..] == old(buf[..])
    ensures lm >= M ==> buf[..] == Splice(old(buf[..]), off, Unmasked(E, M, L, nonce, old(buf[off..off + lm])))
  {
    hide Decrypt, Unmasked, Splice;
    ghost var c := buf[off..off + lm];
    Recovered(E, M, L, nonce, aad, c);
    if lm < M { return -1; }
    ghost var was, u := buf[..], Unmasked(E, M, L, nonce, buf[off..off + lm]);
    var ok := OpenInPlace(E, M, L, nonce, buf, off, lm, aad);
    SpliceFront(was, off, u, lm - M);
    len := if ok then lm - M else -1;
  }

  /** A message that is accepted stands at the front of what decryption leaves. */
  lemma Recovered(E: BlockCipher, M: nat, L: nat, nonce: Block, aad: seq<byte>, c: seq<byte>)
    requires Params(M, L)
    ensures |c| < M ==> Decrypt(E, M, L, nonce, aad, c) == Rejected
    ensures |c| >= M ==> match Decrypt(E, M, L, nonce, aad, c)
                         case Rejected => true
                         case Accepted(m) => |m| == |c| - M && m == Unmasked(E, M, L, nonce, c)[..|c| - M]
  {
    hide Crypt, Mac, XorSeq, CounterBlock;
  }

  lemma SpliceFront(s: seq<byte>, at: nat, b: seq<byte>, n: nat)
    requires at + |b| <= |s| && n <= |b|
    ensures Splice(s, at, b)[at..at + n] == b[..n]
  {
  }
}

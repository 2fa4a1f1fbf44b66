/** Octets, exclusive-or and big-endian integers: the vocabulary of global.h and numeric.h. */
module Bytes {

  type byte = x: int | 0 <= x < 256

  /** `memset(p, 0, n)` as a value. */
  function Zeros(n: nat): (s: seq<byte>)
    ensures |s| == n
    ensures forall i :: 0 <= i < n ==> s[i] == 0
  {
    seq(n, _ => 0)
  }

  // ---------------------------------------------------------------- exclusive-or

  function Pow2(n: nat): (p: nat)
    ensures p > 0
  {
    if n == 0 then 1 else 2 * Pow2(n - 1)
  }

  /** Exclusive-or, bit by bit from the low end. */
  function XorNat(x: nat, y: nat): nat
    decreases x + y
  {
    if x == 0 && y == 0 then 0 else (x + y) % 2 + 2 * XorNat(x / 2, y / 2)
  }

  lemma {:induction false} XorNatBound(x: nat, y: nat, n: nat)
    requires x < Pow2(n) && y < Pow2(n)
    ensures XorNat(x, y) < Pow2(n)
  {
    if n > 0 && !(x == 0 && y == 0) { XorNatBound(x / 2, y / 2, n - 1); }
  }

  lemma {:induction false} XorNatCommutes(x: nat, y: nat)
    ensures XorNat(x, y) == XorNat(y, x)
    decreases x + y
  {
    if !(x == 0 && y == 0) { XorNatCommutes(x / 2, y / 2); }
  }

  lemma {:induction false} XorNatZero(x: nat)
    ensures XorNat(x, 0) == x
  {
    if x > 0 { XorNatZero(x / 2); }
  }

  lemma {:induction false} XorNatInvolution(x: nat, y: nat)
    ensures XorNat(XorNat(x, y), y) == x
    decreases x + y
  {
    if !(x == 0 && y == 0) {
      var q := XorNat(x / 2, y / 2);
      XorNatInvolution(x / 2, y / 2);
      LowBit(x, y, q);
      if XorNat(x, y) == 0 && y == 0 { XorNatZero(x); }
    }
  }

  lemma LowBit(x: nat, y: nat, q: nat)
    ensures ((x + y) % 2 + 2 * q) / 2 == q
    ensures (((x + y) % 2 + 2 * q) + y) % 2 == x % 2
  {
    assert ((x + y) % 2 + y) % 2 == x % 2;
  }

  /** C's `^` on two unsigned chars. */
  function Xor(x: byte, y: byte): byte {
    assert Pow2(8) == 256;
    XorNatBound(x, y, 8);
    XorNat(x, y)
  }

  lemma XorLaws(x: byte, y: byte)
    ensures Xor(x, y) == Xor(y, x)
    ensures Xor(x, 0) == x
    ensures Xor(Xor(x, y), y) == x
  {
    XorNatCommutes(x, y);
    XorNatZero(x);
    XorNatInvolution(x, y);
  }

  /** Byte-wise exclusive-or of `a` with the first bytes of `b`. */
  function XorSeq(a: seq<byte>, b: seq<byte>): (r: seq<byte>)
    requires |a| <= |b|
    ensures |r| == |a|
  {
    if a == [] then [] else [Xor(a[0], b[0])] + XorSeq(a[1..], b[1..])
  }

  lemma {:induction false} XorSeqAt(a: seq<byte>, b: seq<byte>, i: nat)
    requires i < |a| <= |b|
    ensures XorSeq(a, b)[i] == Xor(a[i], b[i])
  {
    if i > 0 { XorSeqAt(a[1..], b[1..], i - 1); }
  }

  lemma XorSeqIs(a: seq<byte>, b: seq<byte>, r: seq<byte>)
    requires |r| == |a| <= |b|
    requires forall i :: 0 <= i < |a| ==> r[i] == Xor(a[i], b[i])
    ensures r == XorSeq(a, b)
  {
    forall i | 0 <= i < |a| ensures XorSeq(a, b)[i] == r[i] { XorSeqAt(a, b, i); }
  }

  /** Masking twice with the same key stream restores the data. */
  lemma {:induction false} XorSeqCancels(a: seq<byte>, b: seq<byte>)
    requires |a| <= |b|
    ensures XorSeq(XorSeq(a, b), b) == a
  {
    if a != [] {
      XorLaws(a[0], b[0]);
      XorSeqCancels(a[1..], b[1..]);
    }
  }

  lemma {:induction false} XorSeqCommutes(a: seq<byte>, b: seq<byte>)
    requires |a| == |b|
    ensures XorSeq(a, b) == XorSeq(b, a)
  {
    if a != [] {
      XorLaws(a[0], b[0]);
      XorSeqCommutes(a[1..], b[1..]);
    }
  }

  /** Only the first |a| bytes of the mask matter. */
  lemma {:induction false} XorSeqPrefix(a: seq<byte>, b: seq<byte>)
    requires |a| <= |b|
    ensures XorSeq(a, b[..|a|]) == XorSeq(a, b)
  {
    if a != [] {
      XorSeqPrefix(a[1..], b[1..]);
      assert b[..|a|][1..] == b[1..][..|a| - 1];
    }
  }

  // ---------------------------------------------------------------- big-endian integers

  function Pow256(n: nat): (p: nat)
    ensures p > 0
  {
    if n == 0 then 1 else 256 * Pow256(n - 1)
  }

  /** The low `n` octets of `v`, most significant first: dtls_int_to_uint8 .. dtls_int_to_uint64. */
  function BigEndian(v: nat, n: nat): (s: seq<byte>)
    ensures |s| == n
  {
    if n == 0 then [] else BigEndian(v / 256, n - 1) + [v % 256]
  }

  /** dtls_uint8_to_int .. dtls_uint64_to_int. */
  function Value(s: seq<byte>): nat {
    if s == [] then 0 else 256 * Value(s[..|s| - 1]) + s[|s| - 1]
  }

  lemma {:induction false} ValueOfBigEndian(v: nat, n: nat)
    requires v < Pow256(n)
    ensures Value(BigEndian(v, n)) == v
  {
    if n > 0 {
      ValueOfBigEndian(v / 256, n - 1);
      var s := BigEndian(v, n);
      assert s[..n - 1] == BigEndian(v / 256, n - 1);
    }
  }

  lemma {:induction false} BigEndianOfValue(s: seq<byte>)
    ensures Value(s) < Pow256(|s|)
    ensures BigEndian(Value(s), |s|) == s
  {
    if s != [] {
      var t := s[..|s| - 1];
      BigEndianOfValue(t);
      assert Value(s) / 256 == Value(t) && Value(s) % 256 == s[|s| - 1];
      assert s == t + [s[|s| - 1]];
    }
  }

  lemma BigEndianInjective(v: nat, w: nat, n: nat)
    requires v < Pow256(n) && w < Pow256(n)
    requires BigEndian(v, n) == BigEndian(w, n)
    ensures v == w
  {
    ValueOfBigEndian(v, n);
    ValueOfBigEndian(w, n);
  }

  lemma {:induction false} BigEndianOfZero(n: nat)
    ensures BigEndian(0, n) == Zeros(n)
  {
    if n > 0 { BigEndianOfZero(n - 1); }
  }

  lemma TwoBytes(n: nat)
    requires n < 0x1_0000
    ensures BigEndian(n, 2) == [n / 256, n % 256]
  {
    assert BigEndian(n / 256, 1) == [n / 256] by { assert BigEndian(n / 256 / 256, 0) == []; }
  }

  // ---------------------------------------------------------------- memory

  /** `s` with `b` written over it at `at`. */
  ghost function Splice(s: seq<byte>, at: nat, b: seq<byte>): (r: seq<byte>)
    requires at + |b| <= |s|
    ensures |r| == |s|
  {
    s[..at] + b + s[at + |b|..]
  }

  lemma SpliceReads(s: seq<byte>, at: nat, b: seq<byte>)
    requires at + |b| <= |s|
    ensures var r := Splice(s, at, b); r[..at] == s[..at] && r[at..at + |b|] == b && r[at + |b|..] == s[at + |b|..]
  {
  }

  /** `c` has replaced the first `n` octets from `off` on; everything else is as it was. */
  ghost predicate Done(buf: seq<byte>, was: seq<byte>, c: seq<byte>, off: nat, n: nat) {
    && off + n <= |buf| == |was| && n <= |c|
    && buf[..off] == was[..off] && buf[off + n..] == was[off + n..]
    && buf[off..off + n] == c[..n]
  }

  lemma DoneStep(buf: seq<byte>, was: seq<byte>, c: seq<byte>, off: nat, n: nat, b: seq<byte>)
    requires Done(buf, was, c, off, n) && off + n + |b| <= |buf| && n + |b| <= |c| && b == c[n..n + |b|]
    ensures Done(Splice(buf, off + n, b), was, c, off, n + |b|)
  {
    var next := Splice(buf, off + n, b);
    assert next[off..off + n + |b|] == buf[off..off + n] + b;
    assert c[..n + |b|] == c[..n] + b;
    assert next[off + n + |b|..] == buf[off + n..][|b|..];
    assert was[off + n + |b|..] == was[off + n..][|b|..];
  }

  lemma DoneNothing(buf: seq<byte>, c: seq<byte>, off: nat)
    requires off <= |buf|
    ensures Done(buf, buf, c, off, 0)
  {
  }

  lemma DoneIsSplice(buf: seq<byte>, was: seq<byte>, c: seq<byte>, off: nat)
    requires Done(buf, was, c, off, |c|)
    ensures buf == Splice(was, off, c)
  {
    assert buf == buf[..off] + buf[off..off + |c|] + buf[off + |c|..];
  }

  /** The last piece, written after everything of `c`. */
  lemma Finish(was: seq<byte>, buf: seq<byte>, c: seq<byte>, off: nat, at: nat, tag: seq<byte>)
    requires Done(buf, was, c, off, |c|) && at == off + |c| && at + |tag| <= |was|
    ensures Splice(buf, at, tag) == Splice(was, off, c + tag)
  {
    assert buf[..at] == buf[..off] + buf[off..at] && c[..|c|] == c;
    assert buf[..at] == was[..off] + c;
    assert buf[at + |tag|..] == buf[at..][|tag|..];
    assert was[at + |tag|..] == was[at..][|tag|..];
  }

  /** A byte of the received message; beyond its end, whatever the memory holds. */
  function At(buf: seq<byte>, stale: nat -> byte, i: nat): byte {
    if i < |buf| then buf[i] else stale(i)
  }

  /** size_t arithmetic on the 32-bit target. */
  function SizeT(x: int): nat {
    x % 0x1_0000_0000
  }

  lemma SizeTSmall(x: int)
    requires 0 <= x < 0x1_0000_0000
    ensures SizeT(x) == x
  {
  }

  // ---------------------------------------------------------------- global.h

  /** memxor: exclusive-ors `y` into `x[at..at + |y|]`, byte by byte, and touches nothing else. */
  method MemXor(x: array<byte>, at: nat, y: seq<byte>)
    requires at + |y| <= x.Length
    modifies x
    ensures x[..] == Splice(old(x[..]), at, XorSeq(old(x[at..at + |y|]), y))
  {
    var i := 0;
    while i < |y|
      invariant 0 <= i <= |y|
      invariant forall k :: 0 <= k < x.Length && !(at <= k < at + i) ==> x[k] == old(x[k])
      invariant forall k :: 0 <= k < i ==> x[at + k] == Xor(old(x[at + k]), y[k])
    {
      x[at + i] := Xor(x[at + i], y[i]);
      i := i + 1;
    }
    XorSeqIs(old(x[at..at + |y|]), y, x[at..at + |y|]);
  }

  /** equals: always runs over all `len` bytes, and says whether they agree. */
  method Equals(a: seq<byte>, b: seq<byte>, len: nat) returns (result: bool)
    requires len <= |a| && len <= |b|
    ensures result <==> a[..len] == b[..len]
  {
    result := true;
    var i := 0;
    while i < len
      invariant 0 <= i <= len
      invariant result <==> a[..i] == b[..i]
    {
      assert a[..i + 1] == a[..i] + [a[i]] && b[..i + 1] == b[..i] + [b[i]];
      result := result && a[i] == b[i];
      i := i + 1;
    }
  }

  /** memcpy into an array. */
  method Copy(dst: array<byte>, at: nat, src: seq<byte>)
    requires at + |src| <= dst.Length
    modifies dst
    ensures dst[..] == Splice(old(dst[..]), at, src)
  {
    forall i | 0 <= i < |src| { dst[at + i] := src[i]; }
  }

  /** The next piece of `c`, copied to where the last one ended. */
  method Continue(buf: array<byte>, ghost was: seq<byte>, ghost c: seq<byte>, off: nat, n: nat, piece: seq<byte>)
    requires Done(buf[..], was, c, off, n) && off + n + |piece| <= buf.Length && n + |piece| <= |c| && piece == c[n..n + |piece|]
    modifies buf
    ensures Done(buf[..], was, c, off, n + |piece|)
  {
    hide Done, Splice;
    DoneStep(buf[..], was, c, off, n, piece);
    Copy(buf, off + n, piece);
  }
}

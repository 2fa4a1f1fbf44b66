/** The ECDSA signature element: printed by dtls_add_ecdsa_signature_elem, read by dtls_check_ecdsa_signature_elem. */
module Signature {
  import opened Bytes
  import opened Peers

  type word = x: int | 0 <= x < 0x1_0000_0000

  // ---------------------------------------------------------------- integers, least significant word first

  /** dtls_ec_key_from_uint32: four octets a word, most significant word first. */
  function Fixed(key: seq<word>): (s: seq<byte>)
    ensures |s| == 4 * |key|
  {
    if key == [] then [] else BigEndian(key[|key| - 1], 4) + Fixed(key[..|key| - 1])
  }

  /** dtls_ec_key_to_uint32 */
  function Words(s: seq<byte>, n: nat): (key: seq<word>)
    requires |s| == 4 * n
    ensures |key| == n
  {
    if n == 0 then [] else
      FourOctets(s[..4]);
      Words(s[4..], n - 1) + [Value(s[..4])]
  }

  lemma FourOctets(s: seq<byte>)
    requires |s| == 4
    ensures Value(s) < 0x1_0000_0000
  {
    BigEndianOfValue(s);
    FourIs();
  }

  lemma FourIs()
    ensures Pow256(4) == 0x1_0000_0000
  {
    assert Pow256(1) == 256 && Pow256(2) == 0x1_0000 && Pow256(3) == 0x100_0000;
  }

  lemma {:induction false} WordsOfFixed(key: seq<word>)
    ensures Words(Fixed(key), |key|) == key
  {
    if key != [] {
      var n, w := |key|, key[|key| - 1];
      WordsOfFixed(key[..n - 1]);
      FourIs();
      ValueOfBigEndian(w, 4);
      assert Fixed(key)[..4] == BigEndian(w, 4) && Fixed(key)[4..] == Fixed(key[..n - 1]);
    }
  }

  lemma {:induction false} FixedOfWords(s: seq<byte>, n: nat)
    requires |s| == 4 * n
    ensures Fixed(Words(s, n)) == s
  {
    if n > 0 {
      FixedOfWords(s[4..], n - 1);
      BigEndianOfValue(s[..4]);
      var key := Words(s, n);
      assert key[..n - 1] == Words(s[4..], n - 1) && s == s[..4] + s[4..];
    }
  }

  /**
   * One word of an ASN.1 integer. The tests for two and for one octet come last in the code, where the one
   * for three has already applied.
   */
  function Encoded(w: word, first: bool): (s: seq<byte>)
    ensures 1 <= |s| <= 5
  {
    if first && w >= 0x8000_0000 then [0] + BigEndian(w, 4)
    else if first && w < 0x80_0000 then BigEndian(w, 3)
    else BigEndian(w, 4)
  }

  /** dtls_ec_key_from_uint32_asn1: every zero word is left out, not only leading ones. */
  function Print(key: seq<word>, first: bool): (s: seq<byte>)
    ensures |s| <= 4 * |key| + (if first then 1 else 0)
  {
    if key == [] then []
    else
      var w, rest := key[|key| - 1], key[..|key| - 1];
      if w == 0 then Print(rest, first) else Encoded(w, first) + Print(rest, false)
  }

  ghost predicate AllZero(key: seq<word>) { forall i :: 0 <= i < |key| ==> key[i] == 0 }

  ghost predicate NoZero(key: seq<word>) { forall i :: 0 <= i < |key| ==> key[i] != 0 }

  /** What the caller can check: the printed integer has at least 32 octets. */
  ghost predicate Printable(key: seq<word>)
    requires |key| == 8
  {
    NoZero(key) && key[7] >= 0x80_0000
  }

  lemma {:induction false} PrintNoZero(key: seq<word>)
    requires NoZero(key)
    ensures Print(key, false) == Fixed(key)
  {
    hide BigEndian;
    if key != [] { PrintNoZero(key[..|key| - 1]); }
  }

  lemma {:induction false} PrintAllZero(key: seq<word>, first: bool)
    requires AllZero(key)
    ensures Print(key, first) == []
  {
    if key != [] { PrintAllZero(key[..|key| - 1], first); }
  }

  /** Printing low and high words apart. */
  lemma {:induction false} PrintSplit(low: seq<word>, high: seq<word>, first: bool)
    ensures Print(low + high, first) == Print(high, first) + Print(low, first && AllZero(high))
    decreases |high|
  {
    hide Encoded;
    if high == [] {
      assert low + high == low;
    } else {
      var n := |high|;
      var rest := high[..n - 1];
      assert (low + high)[..|low + high| - 1] == low + rest && (low + high)[|low + high| - 1] == high[n - 1];
      if high[n - 1] == 0 {
        PrintSplit(low, rest, first);
        assert AllZero(high) == AllZero(rest);
      } else {
        PrintSplit(low, rest, false);
        assert !AllZero(high);
      }
    }
  }

  // ---------------------------------------------------------------- what the last 32 octets say

  ghost predicate EndsWith(s: seq<byte>, t: seq<byte>) {
    |t| <= |s| && s[|s| - |t|..] == t
  }

  ghost predicate ZeroEnd(s: seq<byte>) {
    |s| >= 4 && s[|s| - 4] == 0 && s[|s| - 3] == 0 && s[|s| - 2] == 0 && s[|s| - 1] == 0
  }

  lemma EndsWithAppend(s: seq<byte>, t: seq<byte>, u: seq<byte>)
    ensures EndsWith(s + u, t + u) <==> EndsWith(s, t)
  {
    if |t| <= |s| {
      assert (s + u)[|s + u| - |t + u|..] == s[|s| - |t|..] + u;
      if s[|s| - |t|..] + u == t + u {
        assert s[|s| - |t|..] == (s[|s| - |t|..] + u)[..|t|] && t == (t + u)[..|t|];
      }
    }
  }

  lemma EndsWithSuffix(s: seq<byte>, t: seq<byte>, u: seq<byte>)
    requires EndsWith(s, t + u)
    ensures EndsWith(s, u)
  {
    assert s[|s| - |u|..] == s[|s| - |t + u|..][|t|..];
  }

  lemma {:induction false} FixedSplit(low: seq<word>, high: seq<word>)
    ensures Fixed(low + high) == Fixed(high) + Fixed(low)
    decreases |high|
  {
    hide BigEndian;
    if high == [] {
      assert low + high == low;
    } else {
      var rest := high[..|high| - 1];
      assert (low + high)[..|low + high| - 1] == low + rest;
      FixedSplit(low, rest);
    }
  }

  lemma WordOctets(w: word)
    ensures BigEndian(w, 4) == [w / 0x100_0000, w / 0x1_0000 % 256, w / 256 % 256, w % 256]
    ensures BigEndian(w, 3) == [w / 0x1_0000 % 256, w / 256 % 256, w % 256]
  {
    Quotients(w);
    LowOctet(w, 4);
    LowOctet(w / 256, 3);
    TwoBytes(w / 0x1_0000);
    LowOctet(w, 3);
    LowOctet(w / 256, 2);
    LowOctet(w / 0x1_0000, 1);
    hide BigEndian;
  }

  lemma Quotients(w: word)
    ensures w / 256 / 256 == w / 0x1_0000 && w / 0x1_0000 / 256 == w / 0x100_0000 && w / 0x1_0000 < 0x1_0000
  {
  }

  lemma LowOctet(v: nat, n: nat)
    requires n > 0
    ensures BigEndian(v, n) == BigEndian(v / 256, n - 1) + [v % 256] && BigEndian(v / 256, 0) == []
  {
  }

  lemma NonzeroOctets(w: word)
    requires w != 0
    ensures !(w / 0x100_0000 == 0 && w / 0x1_0000 % 256 == 0 && w / 256 % 256 == 0 && w % 256 == 0)
  {
  }

  lemma EncodedNotZeroEnd(s: seq<byte>, w: word, first: bool)
    requires w != 0
    ensures !ZeroEnd(s + Encoded(w, first))
  {
    hide BigEndian;
    WordOctets(w);
    NonzeroOctets(w);
  }

  lemma {:induction false} PrintNotZeroEnd(s: seq<byte>, key: seq<word>, first: bool)
    requires !AllZero(key)
    ensures !ZeroEnd(s + Print(key, first))
    decreases |key|
  {
    hide Encoded, ZeroEnd;
    var w, rest := key[|key| - 1], key[..|key| - 1];
    if w == 0 {
      assert !AllZero(rest) by { var i :| 0 <= i < |key| && key[i] != 0; assert rest[i] != 0; }
      PrintNotZeroEnd(s, rest, first);
    } else {
      assert s + (Encoded(w, first) + Print(rest, false)) == (s + Encoded(w, first)) + Print(rest, false);
      if AllZero(rest) {
        PrintAllZero(rest, false);
        EncodedNotZeroEnd(s, w, first);
        assert (s + Encoded(w, first)) + [] == s + Encoded(w, first);
      } else {
        PrintNotZeroEnd(s + Encoded(w, first), rest, false);
      }
    }
  }

  /** An ASN.1 INTEGER of `key`, with whatever stands before it in the buffer. */
  function Tagged(q: seq<byte>, key: seq<word>): seq<byte>
    requires |key| <= 8
  {
    q + [0x02, |Print(key, true)|] + Print(key, true)
  }

  lemma PrintTop(low: seq<word>)
    requires low != [] && NoZero(low)
    ensures var w, rest := low[|low| - 1], Fixed(low[..|low| - 1]);
      && Fixed(low) == BigEndian(w, 4) + rest
      && Print(low, true) == (if w >= 0x8000_0000 then [0] + BigEndian(w, 4)
                                else if w < 0x80_0000 then BigEndian(w, 3) else BigEndian(w, 4)) + rest
  {
    PrintNoZero(low[..|low| - 1]);
  }

  lemma TopOctet(w: word)
    requires w < 0x80_0000
    ensures BigEndian(w, 4)[0] == 0
  {
    WordOctets(w);
  }

  lemma LengthOctetIsNoZero(q: seq<byte>, n: byte, three: seq<byte>, four: seq<byte>, rest: seq<byte>)
    requires n != 0 && |three| == 3 && |four| == 4 && four[0] == 0
    ensures !EndsWith(q + [0x02, n] + (three + rest), four + rest)
  {
    var a := q + [0x02, n] + three;
    assert q + [0x02, n] + (three + rest) == a + rest;
    EndsWithAppend(a, four, rest);
    assert a[|a| - 4..][0] == n;
  }

  /** A top word below 2^23 takes three octets; the length octet stands where its leading zero belongs. */
  lemma ShortTop(q: seq<byte>, n: byte, low: seq<word>)
    requires low != [] && NoZero(low) && low[|low| - 1] < 0x80_0000 && n != 0
    ensures !EndsWith(q + [0x02, n] + Print(low, true), Fixed(low))
  {
    var w := low[|low| - 1];
    PrintTop(low);
    TopOctet(w);
    hide Print, Fixed, BigEndian, EndsWith;
    LengthOctetIsNoZero(q, n, BigEndian(w, 3), BigEndian(w, 4), Fixed(low[..|low| - 1]));
  }

  lemma TagIsNoZero(q: seq<byte>, n: byte, lead: seq<byte>, rest: seq<byte>)
    requires |q| >= 2 && |lead| <= 1
    ensures !EndsWith(q + [0x02, n] + (lead + rest), [0, 0, 0, 0] + rest)
  {
    var a := q + [0x02, n] + lead;
    assert q + [0x02, n] + (lead + rest) == a + rest;
    EndsWithAppend(a, [0, 0, 0, 0], rest);
    NoFourZeroes(q, n, lead);
  }

  /** Below an omitted zero word stand the tag and length octets, not four zeroes. */
  lemma ZeroAbove(q: seq<byte>, n: byte, low: seq<word>)
    requires |q| >= 2 && NoZero(low) && (low == [] || low[|low| - 1] >= 0x80_0000)
    ensures !EndsWith(q + [0x02, n] + Print(low, true), [0, 0, 0, 0] + Fixed(low))
  {
    hide BigEndian, EndsWith, Print, Fixed, NoZero;
    var lead := PrintedWithLead(low);
    TagIsNoZero(q, n, lead, Fixed(low));
  }

  /** A top word of at least 2^23 is printed whole, with an octet before it when its top bit is set. */
  lemma PrintedWithLead(low: seq<word>) returns (lead: seq<byte>)
    requires NoZero(low) && (low == [] || low[|low| - 1] >= 0x80_0000)
    ensures Print(low, true) == lead + Fixed(low) && |lead| <= 1
  {
    hide BigEndian;
    if low == [] {
      lead := [];
    } else {
      PrintTop(low);
      hide Print, Fixed, NoZero;
      lead := if low[|low| - 1] >= 0x8000_0000 then [0] else [];
      var w, rest := BigEndian(low[|low| - 1], 4), Fixed(low[..|low| - 1]);
      assert [0] + w + rest == [0] + (w + rest);
    }
  }

  lemma NoFourZeroes(q: seq<byte>, n: byte, lead: seq<byte>)
    requires |q| >= 2 && |lead| <= 1
    ensures !EndsWith(q + [0x02, n] + lead, [0, 0, 0, 0])
  {
    var a := q + [0x02, n] + lead;
    var t := a[|a| - 4..];
    assert t[2 - |lead|] == 2;
  }

  lemma FourZeroes()
    ensures BigEndian(0, 4) == [0, 0, 0, 0]
  {
    WordOctets(0);
  }

  /** With a nonzero word above the lowest zero word, that word's octets stand where the zeroes belong. */
  lemma NonzeroAbove(h: seq<byte>, low: seq<word>, high: seq<word>)
    requires NoZero(low) && !AllZero(high)
    ensures !EndsWith(h + Print(low + [0] + high, true), [0, 0, 0, 0] + Fixed(low))
  {
    PrintSplit(low + [0], high, true);
    PrintSplit(low, [0], false);
    PrintAllZero([0], false);
    PrintNoZero(low);
    PrintNotZeroEnd(h, high, true);
    hide Print, Fixed, EndsWith, ZeroEnd;
    assert Print(low + [0] + high, true) == Print(high, true) + ([] + Fixed(low));
    WordIsNoZero(h, Print(high, true), Fixed(low));
  }

  lemma WordIsNoZero(h: seq<byte>, p: seq<byte>, rest: seq<byte>)
    requires !ZeroEnd(h + p)
    ensures !EndsWith(h + (p + ([] + rest)), [0, 0, 0, 0] + rest)
  {
    assert h + (p + ([] + rest)) == (h + p) + rest;
    EndsWithAppend(h + p, [0, 0, 0, 0], rest);
    var s := h + p;
    assert !EndsWith(s, [0, 0, 0, 0]);
  }

  lemma {:induction false} LowestZero(key: seq<word>) returns (z: nat)
    ensures z <= |key| && NoZero(key[..z]) && (z < |key| ==> key[z] == 0)
  {
    z := 0;
    while z < |key| && key[z] != 0
      invariant z <= |key| && NoZero(key[..z])
    {
      z := z + 1;
    }
  }

  lemma NotPrintableFails(q: seq<byte>, key: seq<word>)
    requires |key| == 8 && |q| >= 2 && !Printable(key)
    ensures !EndsWith(Tagged(q, key), Fixed(key))
  {
    var z := LowestZero(key);
    var low := key[..z];
    if z == 8 {
      assert low == key;
      NoZeroFails(q, key);
    } else {
      var high := key[z + 1..];
      assert key == low + [0] + high;
      ZeroFails(q, low, high);
    }
  }

  lemma NoZeroFails(q: seq<byte>, key: seq<word>)
    requires |key| == 8 && |q| >= 2 && !Printable(key) && NoZero(key)
    ensures !EndsWith(Tagged(q, key), Fixed(key))
  {
    PrintTop(key);
    hide Print, Fixed;
    ShortTop(q, |Print(key, true)|, key);
  }

  /** Above the lowest zero word the printed octets and the fixed ones are shifted against each other. */
  lemma ZeroFails(q: seq<byte>, low: seq<word>, high: seq<word>)
    requires |low + [0] + high| == 8 && |q| >= 2 && NoZero(low)
    ensures !EndsWith(Tagged(q, low + [0] + high), Fixed(low + [0] + high))
  {
    hide Print, Fixed, EndsWith, AllZero, NoZero;
    var key := low + [0] + high;
    var n := |Print(key, true)|;
    FixedAround(low, high);
    if EndsWith(Tagged(q, key), Fixed(key)) {
      EndsWithSuffix(Tagged(q, key), Fixed(high), [0, 0, 0, 0] + Fixed(low));
      if !AllZero(high) {
        NonzeroAbove(q + [0x02, n], low, high);
      } else {
        OnlyLowPrinted(low, high);
        LowFails(q, n, low);
      }
    }
  }

  lemma OnlyLowPrinted(low: seq<word>, high: seq<word>)
    requires AllZero(high)
    ensures Print(low + [0] + high, true) == Print(low, true)
  {
    hide Print;
    PrintSplit(low + [0], high, true);
    PrintAllZero(high, true);
    PrintSplit(low, [0], true);
    PrintAllZero([0], true);
    var none: seq<byte> := [];
    assert none + (none + Print(low, true)) == Print(low, true);
  }

  lemma FixedAround(low: seq<word>, high: seq<word>)
    ensures Fixed(low + [0] + high) == Fixed(high) + ([0, 0, 0, 0] + Fixed(low))
  {
    FixedSplit(low + [0], high);
    FixedSplit(low, [0]);
    FourZeroes();
    assert [0][..0] == [] && Fixed([0]) == BigEndian(0, 4) + Fixed([]);
  }

  lemma LowFails(q: seq<byte>, n: byte, low: seq<word>)
    requires |q| >= 2 && NoZero(low) && n == |Print(low, true)|
    ensures !EndsWith(q + [0x02, n] + Print(low, true), [0, 0, 0, 0] + Fixed(low))
  {
    if low != [] && low[|low| - 1] < 0x80_0000 {
      PrintTop(low);
      hide Print, Fixed;
      ShortTop(q, n, low);
      if EndsWith(q + [0x02, n] + Print(low, true), [0, 0, 0, 0] + Fixed(low)) {
        EndsWithSuffix(q + [0x02, n] + Print(low, true), [0, 0, 0, 0], Fixed(low));
      }
    } else {
      ZeroAbove(q, n, low);
    }
  }

  lemma PrintableEnds(q: seq<byte>, key: seq<word>)
    requires |key| == 8 && Printable(key)
    ensures EndsWith(Tagged(q, key), Fixed(key))
  {
    PrintTop(key);
    hide Print, Fixed, BigEndian;
    var lead: seq<byte> := if key[7] >= 0x8000_0000 then [0] else [];
    assert Print(key, true) == lead + Fixed(key);
    var t := q + [0x02, |Print(key, true)|] + (lead + Fixed(key));
    assert t[|t| - |Fixed(key)|..] == Fixed(key);
  }

  /** The 32 octets before the end of a printed integer are its value exactly when it has no zero word and a top word of at least 2^23. */
  lemma IntegerReadsBack(q: seq<byte>, key: seq<word>)
    requires |key| == 8 && |q| >= 2
    ensures EndsWith(Tagged(q, key), Fixed(key)) <==> Printable(key)
  {
    if Printable(key) { PrintableEnds(q, key); } else { NotPrintableFails(q, key); }
  }

  // ---------------------------------------------------------------- the element

  function ElementHead(r: seq<word>, s: seq<word>): (h: seq<byte>)
    requires |r| == 8 && |s| == 8
    ensures |h| == 6
  {
    var n := |Print(r, true)| + |Print(s, true)|;
    [4, 3] + BigEndian(n + 6, 2) + [0x30, n + 4]
  }

  /** SHA-256, ECDSA, a length, and a SEQUENCE of two INTEGERs. */
  function Element(r: seq<word>, s: seq<word>): seq<byte>
    requires |r| == 8 && |s| == 8
  {
    Tagged(Tagged(ElementHead(r, s), r), s)
  }

  /** Octet by octet: hash 4, signature 3, length, 0x30, length, and each integer behind 2 and its length. */
  lemma ElementInOctets(r: seq<word>, s: seq<word>)
    requires |r| == 8 && |s| == 8
    ensures var R, S := Print(r, true), Print(s, true); var n := |R| + |S|;
      Element(r, s) == [4, 3, 0, n + 6, 48, n + 4, 2, |R|] + R + ([2, |S|] + S)
  {
    hide Print, BigEndian;
    var n := |Print(r, true)| + |Print(s, true)|;
    TwoBytes(n + 6);
    assert (n + 6) / 256 == 0 && (n + 6) % 256 == n + 6;
    assert ElementHead(r, s) == [4, 3, 0, n + 6, 48, n + 4];
    assert ElementHead(r, s) + [2, |Print(r, true)|] == [4, 3, 0, n + 6, 48, n + 4, 2, |Print(r, true)|];
  }

  /** An integer that reads back: its 32 octets, behind a zero when the first of them has its high bit set. */
  lemma PrintableOctets(key: seq<word>)
    requires |key| == 8 && Printable(key)
    ensures |Fixed(key)| == 32 && Print(key, true) == (if Fixed(key)[0] >= 128 then [0] else []) + Fixed(key)
  {
    hide Fixed, Print;
    PrintTop(key);
    WordOctets(key[7]);
    assert Fixed(key)[0] == BigEndian(key[7], 4)[0];
  }

  datatype Parsed = Malformed(code: int) | Parsed(consumed: nat, r: int, s: int)

  /** dtls_check_ecdsa_signature_elem: where the element ends, and where the two 32-octet values are taken to begin. */
  function Parse(buf: seq<byte>, stale: nat -> byte, off: nat, dataLength: nat): Parsed {
    var l1 := SizeT(dataLength - 2);
    var l2 := SizeT(l1 - 3);
    var i := At(buf, stale, off + 7);
    var p := off + 8 + i;
    var j := At(buf, stale, p + 1);
    if At(buf, stale, off) != 4 then Malformed(Fatal(HANDSHAKE_FAILURE))
    else if At(buf, stale, off + 1) != 3 then Malformed(Fatal(HANDSHAKE_FAILURE))
    else if l1 < 256 * At(buf, stale, off + 2) as int + At(buf, stale, off + 3) as int then Malformed(Fatal(DECODE_ERROR))
    else if At(buf, stale, off + 4) != 0x30 then Malformed(Fatal(DECODE_ERROR))
    else if l2 < At(buf, stale, off + 5) then Malformed(Fatal(DECODE_ERROR))
    else if At(buf, stale, off + 6) != 0x02 then Malformed(Fatal(DECODE_ERROR))
    else if At(buf, stale, p) != 0x02 then Malformed(Fatal(DECODE_ERROR))
    else Parsed(p + 2 + j - off, off + 8 + i - 32, p + 2 + j - 32)
  }

  lemma EndsAt(b: seq<byte>, t: seq<byte>, rest: seq<byte>, end: nat)
    requires end == |b| && |t| <= end
    ensures EndsWith(b, t) <==> (b + rest)[end - |t|..end] == t
  {
    assert (b + rest)[end - |t|..end] == b[|b| - |t|..];
  }

  /** The layout the parser walks over. */
  lemma ElementLayout(pre: seq<byte>, r: seq<word>, s: seq<word>, post: seq<byte>)
    requires |r| == 8 && |s| == 8
    ensures var o, buf := |pre|, pre + Element(r, s) + post;
      var lr, ls := |Print(r, true)|, |Print(s, true)|;
      && |Element(r, s)| == lr + ls + 10
      && buf[o] == 4 && buf[o + 1] == 3 && 256 * buf[o + 2] as int + buf[o + 3] as int == lr + ls + 6
      && buf[o + 4] == 0x30 && buf[o + 5] == lr + ls + 4 && buf[o + 6] == 2 && buf[o + 7] == lr
      && buf[o + 8 + lr] == 2 && buf[o + 9 + lr] == ls
  {
    hide Print, BigEndian, Element;
    var n := |Print(r, true)| + |Print(s, true)|;
    TwoBytes(n + 6);
    var head := BigEndian(n + 6, 2);
    ElementUnfolds(r, s);
    ElementOctets(head, n + 4, Print(r, true), Print(s, true));
    Shifted(pre, Element(r, s), post);
  }

  lemma ElementOctets(head: seq<byte>, n: byte, R: seq<byte>, S: seq<byte>)
    requires |head| == 2 && |R| < 256 && |S| < 256
    ensures var e := [4, 3] + head + [0x30, n] + [0x02, |R|] + R + [0x02, |S|] + S;
      && |e| == 10 + |R| + |S| && e[0] == 4 && e[1] == 3 && e[2] == head[0] && e[3] == head[1] && e[4] == 0x30 && e[5] == n
      && e[6] == 2 && e[7] as nat == |R| && e[8 + |R|] == 2 && e[9 + |R|] as nat == |S|
  {
  }

  lemma Shifted(pre: seq<byte>, e: seq<byte>, post: seq<byte>)
    ensures forall k :: 0 <= k < |e| ==> (pre + e + post)[|pre| + k] == e[k]
  {
  }

  /** `buf` up to the end of the first and of the second integer. */
  lemma ElementSplits(pre: seq<byte>, r: seq<word>, s: seq<word>, post: seq<byte>)
    requires |r| == 8 && |s| == 8
    ensures var q := pre + ElementHead(r, s);
      && pre + Element(r, s) + post == Tagged(q, r) + ([0x02, |Print(s, true)|] + Print(s, true) + post)
      && pre + Element(r, s) + post == Tagged(Tagged(q, r), s) + post
      && |Tagged(q, r)| == |pre| + 8 + |Print(r, true)|
      && |Tagged(Tagged(q, r), s)| == |pre| + 10 + |Print(r, true)| + |Print(s, true)|
  {
    hide Print, BigEndian;
  }

  /**
   * Printing and parsing an element, anywhere in a buffer with 24 octets in front of it: the parser consumes
   * exactly what was printed, and each 32-octet slice it hands on converts back to the printed integer
   * exactly when that integer is Printable.
   */
  lemma ElementRoundTrip(pre: seq<byte>, r: seq<word>, s: seq<word>, post: seq<byte>, stale: nat -> byte, dataLength: nat)
    requires |r| == 8 && |s| == 8 && |pre| >= 24
    requires |Element(r, s)| <= dataLength < 0x1_0000_0000
    ensures var buf := pre + Element(r, s) + post;
      var p := Parse(buf, stale, |pre|, dataLength);
      && p.Parsed? && p.consumed == |Element(r, s)|
      && 0 <= p.r && p.r + 32 <= |buf| && 0 <= p.s && p.s + 32 <= |buf|
      && (Words(buf[p.r..p.r + 32], 8) == r <==> Printable(r))
      && (Words(buf[p.s..p.s + 32], 8) == s <==> Printable(s))
  {
    hide Print, BigEndian, ElementHead, Tagged, Printable, EndsWith, Fixed, Words, Element, Parse;
    ParsesTo(pre, r, s, post, stale, dataLength);
    ElementSplits(pre, r, s, post);
    var q := pre + ElementHead(r, s);
    ReadsBackAt(pre + Element(r, s) + post, q, r, [0x02, |Print(s, true)|] + Print(s, true) + post);
    ReadsBackAt(pre + Element(r, s) + post, Tagged(q, r), s, post);
  }

  /** A printed integer, followed by anything, as its reader sees it. */
  lemma ReadsBackAt(buf: seq<byte>, q: seq<byte>, key: seq<word>, rest: seq<byte>)
    requires |key| == 8 && |q| >= 30 && buf == Tagged(q, key) + rest
    ensures var end := |Tagged(q, key)|;
      32 <= end <= |buf| && (Words(buf[end - 32..end], 8) == key <==> Printable(key))
  {
    hide Printable, Words, Print, Fixed;
    IntegerReadsBack(q, key);
    EndsAt(Tagged(q, key), Fixed(key), rest, |Tagged(q, key)|);
    hide Tagged, EndsWith;
    SameWords(buf[|Tagged(q, key)| - 32..|Tagged(q, key)|], key);
  }

  lemma ParsesTo(pre: seq<byte>, r: seq<word>, s: seq<word>, post: seq<byte>, stale: nat -> byte, dataLength: nat)
    requires |r| == 8 && |s| == 8
    requires |Element(r, s)| <= dataLength < 0x1_0000_0000
    ensures var lr, ls := |Print(r, true)|, |Print(s, true)|;
      && |Element(r, s)| == lr + ls + 10
      && Parse(pre + Element(r, s) + post, stale, |pre|, dataLength)
         == Parsed(lr + ls + 10, |pre| + 8 + lr - 32, |pre| + 10 + lr + ls - 32)
  {
    hide Print, Element, SizeT;
    ElementLayout(pre, r, s, post);
    SizeTSmall(dataLength - 2);
    SizeTSmall(dataLength - 5);
  }

  lemma SameWords(b: seq<byte>, key: seq<word>)
    requires |b| == 32 && |key| == 8
    ensures Words(b, 8) == key <==> b == Fixed(key)
  {
    FixedOfWords(b, 8);
    WordsOfFixed(key);
  }

  // ---------------------------------------------------------------- in place

  /** dtls_ec_key_from_uint32_asn1 */
  method PrintInto(key: seq<word>, buf: array<byte>, at: nat) returns (len: nat)
    requires |key| == 8 && at + |Print(key, true)| <= buf.Length
    modifies buf
    ensures len == |Print(key, true)|
    ensures buf[..] == Splice(old(buf[..]), at, Print(key, true))
  {
    hide Splice, Done, Encoded;
    ghost var was, all := buf[..], Print(key, true);
    var i, first := 8, true;
    len := 0;
    DoneNothing(was, all, at);
    assert key[..8] == key;
    while i > 0
      invariant 0 <= i <= 8 && len <= |all|
      invariant Done(buf[..], was, all, at, len)
      invariant all[len..] == Print(key[..i], first)
    {
      i := i - 1;
      assert key[..i + 1][..i] == key[..i] && key[..i + 1][i] == key[i];
      if key[i] != 0 {
        var piece := Encoded(key[i], first);
        NextPiece(all, len, piece, Print(key[..i], false));
        DoneStep(buf[..], was, all, at, len, piece);
        Copy(buf, at + len, piece);
        len := len + |piece|;
        first := false;
      }
    }
    DoneIsSplice(buf[..], was, all, at);
  }

  lemma NextPiece(all: seq<byte>, n: nat, piece: seq<byte>, rest: seq<byte>)
    requires n <= |all| && all[n..] == piece + rest
    ensures n + |piece| <= |all| && all[n..n + |piece|] == piece && all[n + |piece|..] == rest
  {
    assert |all| == n + |piece| + |rest|;
    assert all[n..n + |piece|] == all[n..][..|piece|] && all[n + |piece|..] == all[n..][|piece|..];
  }

  /** dtls_add_ecdsa_signature_elem: the integers are written first, then everything around them. */
  method AddElement(buf: array<byte>, p: nat, r: seq<word>, s: seq<word>) returns (end: nat)
    requires |r| == 8 && |s| == 8 && p + |Element(r, s)| <= buf.Length
    modifies buf
    ensures end == p + |Element(r, s)|
    ensures buf[..] == Splice(old(buf[..]), p, Element(r, s))
  {
    hide Print, BigEndian, Element, ElementHead, Tagged, Splice;
    ElementLength(r, s);
    ghost var was, R, S := buf[..], Print(r, true), Print(s, true);
    var lenR := PrintInto(r, buf, p + 8);
    var lenS := PrintInto(s, buf, p + 10 + lenR);
    var head := [4, 3] + BigEndian(lenR + lenS + 6, 2) + [0x30, lenR + lenS + 4, 0x02, lenR];
    Copy(buf, p, head);
    Copy(buf, p + 8 + lenR, [0x02, lenS]);
    end := p + 10 + lenR + lenS;
    Assembled(was, p, head, R, [0x02, lenS], S);
    ElementIs(r, s, head);
  }

  lemma ElementLength(r: seq<word>, s: seq<word>)
    requires |r| == 8 && |s| == 8
    ensures |Element(r, s)| == |Print(r, true)| + |Print(s, true)| + 10
  {
    hide Print, BigEndian;
  }

  lemma ElementIs(r: seq<word>, s: seq<word>, head: seq<byte>)
    requires |r| == 8 && |s| == 8
    requires var n := |Print(r, true)| + |Print(s, true)|; head == [4, 3] + BigEndian(n + 6, 2) + [0x30, n + 4, 0x02, |Print(r, true)|]
    ensures Element(r, s) == head + Print(r, true) + [0x02, |Print(s, true)|] + Print(s, true)
  {
    hide Print, BigEndian, Element, ElementHead, Tagged;
    ElementUnfolds(r, s);
    var n := |Print(r, true)| + |Print(s, true)|;
    HeadWithTag(Element(r, s), head, BigEndian(n + 6, 2), n + 4, Print(r, true), Print(s, true));
  }

  lemma ElementUnfolds(r: seq<word>, s: seq<word>)
    requires |r| == 8 && |s| == 8
    ensures var n := |Print(r, true)| + |Print(s, true)|;
      Element(r, s) == [4, 3] + BigEndian(n + 6, 2) + [0x30, n + 4] + [0x02, |Print(r, true)|] + Print(r, true)
                       + [0x02, |Print(s, true)|] + Print(s, true)
  {
    hide Print, BigEndian;
  }

  lemma HeadWithTag(e: seq<byte>, head: seq<byte>, length: seq<byte>, n: byte, R: seq<byte>, S: seq<byte>)
    requires |R| < 256 && |S| < 256 && e == [4, 3] + length + [0x30, n] + [0x02, |R|] + R + [0x02, |S|] + S
    requires head == [4, 3] + length + [0x30, n, 0x02, |R|]
    ensures e == head + R + [0x02, |S|] + S
  {
    assert head == [4, 3] + length + [0x30, n] + [0x02, |R|];
  }

  /** The order in which the four parts are written does not matter. */
  lemma Assembled(was: seq<byte>, p: nat, head: seq<byte>, R: seq<byte>, tag: seq<byte>, S: seq<byte>)
    requires |head| == 8 && |tag| == 2 && p + 10 + |R| + |S| <= |was|
    ensures Splice(Splice(Splice(Splice(was, p + 8, R), p + 10 + |R|, S), p, head), p + 8 + |R|, tag)
         == Splice(was, p, head + R + tag + S)
  {
    var b1 := Splice(was, p + 8, R);
    var b2 := Splice(b1, p + 10 + |R|, S);
    var b3 := Splice(b2, p, head);
    var whole := head + R + tag + S;
    var b4, e := Splice(b3, p + 8 + |R|, tag), Splice(was, p, whole);
    forall i | 0 <= i < |was| ensures b4[i] == e[i] {
      SpliceAt(was, p + 8, R, i);
      SpliceAt(b1, p + 10 + |R|, S, i);
      SpliceAt(b2, p, head, i);
      SpliceAt(b3, p + 8 + |R|, tag, i);
      SpliceAt(was, p, whole, i);
      hide Splice;
      var k := i - p;
      if 0 <= k < |whole| {
        assert whole[k] == if k < 8 then head[k] else if k < 8 + |R| then R[k - 8]
                           else if k < 10 + |R| then tag[k - 8 - |R|] else S[k - 10 - |R|];
      }
    }
  }

  lemma SpliceAt(s: seq<byte>, at: nat, b: seq<byte>, i: nat)
    requires at + |b| <= |s| && i < |s|
    ensures Splice(s, at, b)[i] == if at <= i < at + |b| then b[i - at] else s[i]
  {
  }
}

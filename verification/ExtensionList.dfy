/**
 * Which extensions dtls_check_tls_extension accepts, said about the list of extensions that stands behind a hello and
 * not about the octets: section 7.4.1.4 of RFC 5246, section 3 of RFC 7250, section 5.1 of RFC 4492.
 */
module ExtensionList {
  import opened Bytes
  import opened Peers
  import opened Hello

  datatype Extension = Extension(kind: uint16, body: seq<byte>)

  /** Kind, length and body of one extension after the other. */
  function Printed(xs: seq<Extension>): seq<byte> {
    if xs == [] then []
    else [xs[0].kind / 256, xs[0].kind % 256, |xs[0].body| / 256 % 256, |xs[0].body| % 256] + xs[0].body + Printed(xs[1..])
  }

  /** The length fits, a list of curves is made of pairs, and a type named by a ServerHello is there: then nothing behind a body is read. */
  predicate Regular(x: Extension, hello: bool) {
    |x.body| < 65536 && (x.kind == 10 ==> |x.body| % 2 == 0) && (x.kind in {19, 20} && !hello ==> x.body != [])
  }

  /** A list of octets behind its length, with `v` in it. */
  predicate Lists(body: seq<byte>, v: byte) {
    body != [] && body[0] as int + 1 == |body| && v in body[1..]
  }

  /**
   * One that is accepted: secp256r1 (23) among the curves, raw public keys (2) among the certificate types or as the
   * one chosen, uncompressed (0) among the point formats; any of another kind.
   */
  ghost predicate Fine(x: Extension, hello: bool) {
    match x.kind
    case 10 => |x.body| >= 2 && 256 * x.body[0] as int + x.body[1] as int + 2 == |x.body|
               && exists i :: 1 <= i < |x.body| / 2 && x.body[2 * i] == 0 && x.body[2 * i + 1] == 23
    case 19 => if hello then Lists(x.body, 2) else x.body != [] && x.body[0] == 2
    case 20 => if hello then Lists(x.body, 2) else x.body != [] && x.body[0] == 2
    case 11 => Lists(x.body, 0)
    case _ => true
  }

  ghost predicate Has(xs: seq<Extension>, kind: uint16) {
    exists x :: x in xs && x.kind == kind
  }

  // ---------------------------------------------------------------- one body

  lemma {:induction false} OffersIn(m: Input, p: nat, n: nat, v: byte)
    requires p + n <= |m.data|
    ensures Offers(m, p, n, v) <==> v in m.data[p..p + n]
    decreases n
  {
    if n > 0 {
      OffersIn(m, p + 1, n - 1, v);
      assert m.data[p..p + n] == [m.data[p]] + m.data[p + 1..p + n];
    }
  }

  lemma ListOkIs(m: Input, p: nat, body: seq<byte>, v: byte)
    requires Holds(m, p, body) && p + |body| <= |m.data|
    ensures ListOk(m, p, |body|, v) <==> Lists(body, v)
  {
    if body != [] {
      HeldOctet(m, p, body, 0);
      OffersIn(m, p + 1, |body| - 1, v);
      assert m.data[p + 1..p + 1 + (|body| - 1)] == body[1..];
    } else {
      assert !ListOk(m, p, 0, v);
    }
  }

  /** secp256r1 stands at the i-th pair. */
  ghost predicate CurveAt(body: seq<byte>, i: nat)
    requires 2 * i + 1 < |body|
  {
    body[2 * i] == 0 && body[2 * i + 1] == 23
  }

  lemma {:induction false} CurveListed(m: Input, p: nat, body: seq<byte>, k: nat)
    requires Holds(m, p, body) && |body| % 2 == 0 && 2 * k <= |body|
    ensures OffersCurve(m, p + 2 * k, |body| - 2 * k) <==> exists i :: k <= i < |body| / 2 && CurveAt(body, i)
    decreases |body| - 2 * k
  {
    hide Octets2, Holds;
    if 2 * k < |body| {
      HeldPair(m, p, body, 2 * k);
      CurveListed(m, p, body, k + 1);
      assert (256 * body[2 * k] as int + body[2 * k + 1] as int == 23) <==> CurveAt(body, k);
      assert OffersCurve(m, p + 2 * k, |body| - 2 * k) <==> CurveAt(body, k) || OffersCurve(m, p + 2 * (k + 1), |body| - 2 * (k + 1));
    }
  }

  lemma CurvesOkIs(m: Input, p: nat, x: Extension)
    requires Holds(m, p, x.body) && x.kind == 10 && Regular(x, true)
    ensures Octets2(m, p) + 2 == |x.body| && OffersCurve(m, p + 2, |x.body| - 2) <==> Fine(x, true)
  {
    hide Octets2, Holds, OffersCurve;
    if |x.body| >= 2 {
      HeldPair(m, p, x.body, 0);
      CurveListed(m, p, x.body, 1);
      assert forall i :: 1 <= i < |x.body| / 2 ==> (CurveAt(x.body, i) <==> x.body[2 * i] == 0 && x.body[2 * i + 1] == 23);
    }
  }

  lemma BodyOkIs(m: Input, p: nat, x: Extension, hello: bool)
    requires Holds(m, p, x.body) && Regular(x, hello)
    ensures BodyOk(m, p, |x.body|, x.kind, hello) <==> Fine(x, hello)
  {
    hide Octets2, Octet, ListOk, OffersCurve, Lists;
    HeldInside(m, p, x.body);
    ListOkIs(m, p, x.body, 2);
    ListOkIs(m, p, x.body, 0);
    if x.kind == 10 { CurvesOkIs(m, p, x); CurvesFine(x, hello); }
    if x.body != [] { HeldOctet(m, p, x.body, 0); }
  }

  lemma HeldInside(m: Input, p: nat, x: seq<byte>)
    requires Holds(m, p, x)
    ensures p + |x| <= |m.data|
  {
  }

  lemma CurvesFine(x: Extension, hello: bool)
    requires x.kind == 10
    ensures Fine(x, hello) <==> Fine(x, true)
  {
  }

  // ---------------------------------------------------------------- the list

  function Met(xs: seq<Extension>, seen: Seen): Seen {
    if xs == [] then seen else Met(xs[1..], seen.With(xs[0].kind))
  }

  lemma {:induction false} MetIs(xs: seq<Extension>, seen: Seen)
    ensures var s := Met(xs, seen);
      && (s.curves <==> seen.curves || Has(xs, 10)) && (s.clientType <==> seen.clientType || Has(xs, 19))
      && (s.serverType <==> seen.serverType || Has(xs, 20)) && (s.points <==> seen.points || Has(xs, 11))
  {
    hide Has;
    if xs == [] {
      HasNone(10);
      HasNone(11);
      HasNone(19);
      HasNone(20);
    } else {
      MetIs(xs[1..], seen.With(xs[0].kind));
      HasFirst(xs, 10);
      HasFirst(xs, 11);
      HasFirst(xs, 19);
      HasFirst(xs, 20);
    }
  }

  lemma HasFirst(xs: seq<Extension>, kind: uint16)
    requires xs != []
    ensures Has(xs, kind) <==> xs[0].kind == kind || Has(xs[1..], kind)
  {
    assert xs == [xs[0]] + xs[1..];
  }

  lemma HasNone(kind: uint16)
    ensures !Has([], kind)
  {
  }

  /** The first extension, and the rest. */
  lemma Parts(m: Input, p: nat, xs: seq<Extension>, hello: bool)
    requires xs != [] && Holds(m, p, Printed(xs)) && Regular(xs[0], hello)
    ensures var n := |xs[0].body|;
      && |Printed(xs)| == 4 + n + |Printed(xs[1..])|
      && Octets2(m, p) == xs[0].kind && Octets2(m, p + 2) == n
      && Holds(m, p + 4, xs[0].body) && Holds(m, p + 4 + n, Printed(xs[1..]))
  {
    hide Octets2, Printed, Holds;
    var t, n := Printed(xs), |xs[0].body|;
    PrintedParts(xs);
    HeldPair(m, p, t, 0);
    HeldPair(m, p, t, 2);
    HoldsBetween(m, p, t, 4, 4 + n);
    HoldsBetween(m, p, t, 4 + n, |t|);
    Whole(xs[0].kind);
    Whole(n);
  }

  lemma Whole(v: nat)
    requires v < 65536
    ensures 256 * (v / 256 % 256) + v % 256 == v && v / 256 % 256 == v / 256
  {
  }

  lemma PrintedParts(xs: seq<Extension>)
    requires xs != []
    ensures var t, n := Printed(xs), |xs[0].body|;
      && |t| == 4 + n + |Printed(xs[1..])| && t[0] == xs[0].kind / 256 && t[1] == xs[0].kind % 256
      && t[2] == n / 256 % 256 && t[3] == n % 256 && t[4..4 + n] == xs[0].body && t[4 + n..|t|] == Printed(xs[1..])
  {
  }

  lemma HoldsBetween(m: Input, p: nat, t: seq<byte>, i: nat, j: nat)
    requires Holds(m, p, t) && i <= j <= |t|
    ensures Holds(m, p + i, t[i..j])
  {
    SliceOf(m.data, t, p, i, j);
  }

  lemma {:induction false} ScanReads(m: Input, p: nat, xs: seq<Extension>, hello: bool, seen: Seen)
    requires Holds(m, p, Printed(xs)) && forall x :: x in xs ==> Regular(x, hello)
    ensures Scan(m, p, |Printed(xs)|, hello, seen) == if forall x :: x in xs ==> Fine(x, hello) then Some(Met(xs, seen)) else None
    decreases |xs|
  {
    hide Printed, Holds, Octets2, BodyOk, Fine, Regular;
    if xs == [] {
      NothingPrinted();
    } else {
      var n := |xs[0].body|;
      Parts(m, p, xs, hello);
      BodyOkIs(m, p + 4, xs[0], hello);
      ScanReads(m, p + 4 + n, xs[1..], hello, seen.With(xs[0].kind));
      assert xs == [xs[0]] + xs[1..];
      assert (forall x :: x in xs ==> Fine(x, hello)) <==> Fine(xs[0], hello) && forall x :: x in xs[1..] ==> Fine(x, hello);
    }
  }

  lemma NothingPrinted()
    ensures Printed([]) == []
  {
  }

  /**
   * For every list of extensions: it is accepted if and only if each of them is fine and, with ECDHE-ECDSA, both
   * certificate types are among them and, in a ClientHello, curves and point formats as well.
   */
  lemma AcceptedExactly(m: Input, p: nat, xs: seq<Extension>, cipher: uint16, hello: bool)
    requires Holds(m, p, [|Printed(xs)| / 256 % 256, |Printed(xs)| % 256] + Printed(xs)) && |Printed(xs)| < 65536
    requires forall x :: x in xs ==> Regular(x, hello)
    ensures ExtensionsOk(m, p, 2 + |Printed(xs)|, cipher, hello) <==>
      && (forall x :: x in xs ==> Fine(x, hello))
      && (cipher == 0xc0ae ==> Has(xs, 19) && Has(xs, 20) && (hello ==> Has(xs, 10) && Has(xs, 11)))
  {
    hide Printed, Octets2, Scan, Fine, Regular, Has, Holds;
    var n := |Printed(xs)|;
    var t := [n / 256 % 256, n % 256] + Printed(xs);
    HeldPair(m, p, t, 0);
    HoldsBetween(m, p, t, 2, |t|);
    assert t[2..|t|] == Printed(xs);
    ScanReads(m, p + 2, xs, hello, NOTHING_SEEN);
    MetIs(xs, NOTHING_SEEN);
  }
}

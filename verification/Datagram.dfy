/** Cutting a datagram into records: is_record and the loop of dtls_handle_message. */
module Datagram {
  import opened Bytes
  import opened CcmSpec
  import opened Peers
  import opened RecordSpec

  /** is_record: the length of the record at the front, 0 if there is none. */
  function RecordLength(msg: seq<byte>): (n: nat)
    ensures n == 0 || HEADER_LENGTH <= n <= |msg|
  {
    if |msg| >= HEADER_LENGTH && msg[1] == 0xfe && msg[2] == 0xfd && HEADER_LENGTH + Value(msg[11..13]) <= |msg|
    then HEADER_LENGTH + Value(msg[11..13]) else 0
  }

  /** The records the loop of dtls_handle_message visits. */
  function Split(msg: seq<byte>): seq<seq<byte>>
    decreases |msg|
  {
    var n := RecordLength(msg);
    if n == 0 then [] else [msg[..n]] + Split(msg[n..])
  }

  function Concat(rs: seq<seq<byte>>): seq<byte> {
    if rs == [] then [] else rs[0] + Concat(rs[1..])
  }

  /** A string that is one record from end to end. */
  predicate WellFormed(r: seq<byte>) {
    |r| > 0 && RecordLength(r) == |r|
  }

  /** A record at the front is recognised whatever follows it. */
  lemma FrontRecord(r: seq<byte>, rest: seq<byte>)
    requires WellFormed(r)
    ensures RecordLength(r + rest) == |r|
  {
    assert (r + rest)[11..13] == r[11..13];
  }

  /** Well-formed records survive being sent together: they come out again, one by one, and nothing else. */
  lemma {:induction false} SplitOfConcat(rs: seq<seq<byte>>, tail: seq<byte>)
    requires forall r :: r in rs ==> WellFormed(r)
    requires RecordLength(tail) == 0
    ensures Split(Concat(rs) + tail) == rs
  {
    if rs == [] {
      assert Concat(rs) + tail == tail;
    } else {
      var rest := Concat(rs[1..]) + tail;
      assert Concat(rs) + tail == rs[0] + rest;
      FrontRecord(rs[0], rest);
      SplitOfConcat(rs[1..], tail);
      assert (rs[0] + rest)[..|rs[0]|] == rs[0] && (rs[0] + rest)[|rs[0]|..] == rest;
    }
  }

  /** The visited records are well formed, lie end to end at the front, and stop where no record follows. */
  lemma {:induction false} SplitCovers(msg: seq<byte>) returns (tail: seq<byte>)
    ensures msg == Concat(Split(msg)) + tail && RecordLength(tail) == 0
    ensures forall r :: r in Split(msg) ==> WellFormed(r)
    decreases |msg|
  {
    var n := RecordLength(msg);
    if n == 0 {
      tail := msg;
    } else {
      tail := SplitCovers(msg[n..]);
      assert msg[..n][11..13] == msg[11..13];
      assert WellFormed(msg[..n]);
      assert msg == msg[..n] + msg[n..];
      assert msg[..n] + (Concat(Split(msg[n..])) + tail) == (msg[..n] + Concat(Split(msg[n..]))) + tail;
      var rs := Split(msg);
      assert rs[0] == msg[..n] && rs[1..] == Split(msg[n..]);
    }
  }

  /** Every record dtls_prepare_record writes is well formed while its fragment fits the length field. */
  lemma ProtectedIsWellFormed(aes: Aes, role: Role, s: Option<Security>, ctype: byte, payload: seq<byte>)
    requires |payload| + 16 < 0x1_0000
    ensures WellFormed(Protect(aes, role, s, ctype, payload))
  {
    hide Sealed, BigEndian;
    var r := Protect(aes, role, s, ctype, payload);
    var number := if s.None? then Zeros(8) else RecordNumber(s.value.epoch, s.value.rseq);
    var f := if s.None? then payload else Fragment(aes, role, s.value, ctype, payload);
    assert r == Header(ctype, number, |f|) + f;
    HeaderWellFormed(ctype, number, f);
  }

  lemma HeaderWellFormed(ctype: byte, number: seq<byte>, f: seq<byte>)
    requires |number| == 8 && |f| < 0x1_0000
    ensures WellFormed(Header(ctype, number, |f|) + f)
  {
    var r := Header(ctype, number, |f|) + f;
    HeaderParts(ctype, number, |f|, f);
    assert Pow256(1) == 256 && Pow256(2) == 0x1_0000;
    ValueOfBigEndian(|f|, 2);
    VersionOctets();
    assert r[0..3][1] == r[1] && r[0..3][2] == r[2];
  }

  lemma VersionOctets()
    ensures BigEndian(VERSION, 2) == [0xfe, 0xfd]
  {
    assert BigEndian(0xfe, 1) == [0xfe] by { assert BigEndian(0, 0) == []; }
  }
}

/**
 * Which records an endpoint acts on: those that open under one of its slots. Any other is dropped with nothing but
 * the clock changed, or ends a handshake.
 */
module Authentic {
  import opened Bytes
  import opened CcmSpec
  import opened Prf
  import opened Peers
  import opened RecordSpec
  import opened Datagram
  import opened Reorder
  import opened Hello
  import opened Engine
  import opened Transport
  import opened Wire

  function Sender(e: Endpoint): Role { if e.role == Client then Server else Client }

  /** The slot whose epoch is in octets 3 and 4 of the record: slot 0, or else slot 1, or else none. */
  ghost predicate Addressed(e: Endpoint, record: seq<byte>, s: Option<Security>)
    requires |record| >= 13
  {
    var epoch := 256 * record[3] as int + record[4] as int;
    if e.s0.Some? && e.s0.value.epoch == epoch then s == e.s0
    else if e.s1.Some? && e.s1.value.epoch == epoch then s == e.s1
    else s == None
  }

  /** The endpoint reads `payload` in the record: the slot is there, and has no cipher, or its keys seal the payload. */
  ghost predicate Opens(aes: Aes, e: Endpoint, record: seq<byte>, payload: seq<byte>)
    requires |record| >= 13
  {
    exists s :: Addressed(e, record, Some(s)) &&
      if s.cipher == 0 then payload == record[13..] else Seals(aes, Sender(e), s.keyBlock, record, payload)
  }

  ghost predicate OpensNot(aes: Aes, e: Endpoint, record: seq<byte>)
    requires |record| >= 13
  {
    forall payload :: !Opens(aes, e, record, payload)
  }

  /** Both slots, as far as they are there, have keys. */
  ghost predicate AllKeyed(e: Endpoint) {
    (e.s0.Some? ==> e.s0.value.cipher != 0) && (e.s1.Some? ==> e.s1.value.cipher != 0)
  }

  /** With keys in every slot, what opens has been sealed with keys of one of them, which are those of its epoch. */
  lemma OpensSealed(aes: Aes, e: Endpoint, record: seq<byte>, payload: seq<byte>)
    requires |record| >= 13 && AllKeyed(e) && Opens(aes, e, record, payload)
    ensures (e.s0.Some? && Seals(aes, Sender(e), e.s0.value.keyBlock, record, payload))
         || (e.s1.Some? && Seals(aes, Sender(e), e.s1.value.keyBlock, record, payload))
  {
    hide Seals;
  }

  lemma SlotFound(e: Endpoint, record: seq<byte>)
    requires |record| >= 13
    ensures Addressed(e, record, ByEpoch(e.s0, e.s1, EpochOf(record)))
  {
    hide Value;
    TwoOctets(record[3..5]);
  }

  /** The slot that is found decides. */
  lemma OpensBySlot(aes: Aes, e: Endpoint, record: seq<byte>, payload: seq<byte>)
    requires |record| >= 13
    ensures var s := ByEpoch(e.s0, e.s1, EpochOf(record));
      Opens(aes, e, record, payload) <==> s.Some? && Unprotect(aes, e.role, s.value, record) == Accepted(payload)
  {
    hide Seals, Unprotect, EpochOf;
    SlotFound(e, record);
    var s := ByEpoch(e.s0, e.s1, EpochOf(record));
    if s.Some? { OpensExactly(aes, e.role, s.value, record, payload); }
  }

  lemma DecryptsExactly(c: Config, e: Endpoint, record: seq<byte>, payload: seq<byte>)
    requires |record| >= 13
    ensures DecryptVerify(c, e, record) == Accepted(payload) <==> Opens(c.aes, e, record, payload)
  {
    hide Opens, Unprotect, EpochOf, ByEpoch;
    OpensBySlot(c.aes, e, record, payload);
  }

  /** The states behind the handshake. */
  predicate Established(s: State) { s == Connected || s == Closing || s == Closed }

  /** What is left of a peer whose handshake met a record it cannot read: one alert, fatal (2), decrypt_error (51). */
  ghost predicate GivenUp(aes: Aes, a: Endpoint, b: Endpoint) {
    !b.known && b.s0.None? && b.s1.None? && b.hs.None? && b.made == a.made && Wrote(aes, a, b, 21, [2, 51])
  }

  /** From `a` to `b`, with result `err`, the record has been refused: dropped, or the handshake has been given up. */
  ghost predicate Refused(aes: Aes, a: Endpoint, b: Endpoint, err: int) {
    err == -563 && if Established(a.state) then b == a.(clock := a.clock + 1) else GivenUp(aes, a, b)
  }

  /** Every record that does not open, at every endpoint that knows the peer. */
  lemma UnopenedDropped(c: Config, w: World, e: Endpoint, record: seq<byte>)
    requires e.known && |record| >= 13 && OpensNot(c.aes, e, record)
    ensures var r := HandleRecord(c, w, e, record); r.err < 0 && Refused(c.aes, e, r.e, r.err)
  {
    hide DecryptVerify, Send, Wrote, Opens, HandlePayload;
    var e1 := e.(clock := e.clock + 1);
    match DecryptVerify(c, e1, record)
    case Accepted(payload) =>
      DecryptsExactly(c, e1, record, payload);
      OpensTicked(c.aes, e, record, payload);
      assert false;
    case Rejected =>
      if !Established(e.state) {
        ReportOctets(c, w, e1, -563);
        var f := ReportError(c, w, e1, -563);
        assert Wrote(c.aes, e1, f, 21, [2, 51]);
        WroteForgotten(c.aes, e, e1, f);
      }
  }

  lemma OpensTicked(aes: Aes, e: Endpoint, record: seq<byte>, payload: seq<byte>)
    requires |record| >= 13
    ensures Opens(aes, e.(clock := e.clock + 1), record, payload) <==> Opens(aes, e, record, payload)
  {
    hide Seals;
    var e1 := e.(clock := e.clock + 1);
    forall s ensures Addressed(e1, record, s) <==> Addressed(e, record, s) {}
    assert Sender(e1) == Sender(e);
    if Opens(aes, e1, record, payload) {
      var s :| Addressed(e1, record, Some(s)) &&
        if s.cipher == 0 then payload == record[13..] else Seals(aes, Sender(e1), s.keyBlock, record, payload);
      assert Addressed(e, record, Some(s));
    }
    if Opens(aes, e, record, payload) {
      var s :| Addressed(e, record, Some(s)) &&
        if s.cipher == 0 then payload == record[13..] else Seals(aes, Sender(e), s.keyBlock, record, payload);
      assert Addressed(e1, record, Some(s));
    }
  }

  lemma WroteForgotten(aes: Aes, a: Endpoint, d: Endpoint, f: Endpoint)
    requires Wrote(aes, d, f, 21, [2, 51]) && d.sent == a.sent && d.role == a.role && d.s0 == a.s0
    ensures Wrote(aes, a, Forgotten(f), 21, [2, 51])
  {
    hide Carries;
  }

  /** Every record that opens is handled as the payload it opens as, of the type and epoch in its header. */
  lemma OpenedHandled(c: Config, w: World, e: Endpoint, record: seq<byte>, payload: seq<byte>)
    requires e.known && |record| >= 13 && Opens(c.aes, e, record, payload)
    ensures HandleRecord(c, w, e, record)
      == HandlePayload(c, w, AfterDecrypt(e.(clock := e.clock + 1), record), record[0], 256 * record[3] as int + record[4] as int, payload)
  {
    hide DecryptVerify, HandlePayload, Opens, AfterDecrypt, Value;
    var e1 := e.(clock := e.clock + 1);
    OpensTicked(c.aes, e, record, payload);
    DecryptsExactly(c, e1, record, payload);
    TwoOctets(record[3..5]);
  }

  // ---------------------------------------------------------------- datagrams and runs

  /** The record at the front of the datagram, if there is one, does not open. */
  ghost predicate Unreadable(aes: Aes, e: Endpoint, msg: seq<byte>) {
    RecordLength(msg) > 0 ==> OpensNot(aes, e, msg[..RecordLength(msg)])
  }

  /** Such a datagram is dropped whole, with whatever stands behind its first record. */
  lemma DatagramDropped(c: Config, w: World, e: Endpoint, msg: seq<byte>)
    requires e.known && Unreadable(c.aes, e, msg)
    ensures var r := HandleMessage(c, w, e, msg);
      if RecordLength(msg) == 0 then r == Outcome(e, 0) else Refused(c.aes, e, r.e, r.err)
  {
    hide HandleRecord, OpensNot, Refused, RecordLength;
    if RecordLength(msg) > 0 { UnopenedDropped(c, w, e, msg[..RecordLength(msg)]); }
  }

  function Arrivals(msgs: seq<seq<byte>>): seq<Event> {
    if msgs == [] then [] else Arrivals(msgs[..|msgs| - 1]) + [Arrives(msgs[|msgs| - 1])]
  }

  /** Any number of such datagrams leave an endpoint behind its handshake as it is. */
  lemma {:induction false} RunUnmoved(c: Config, w: World, e: Endpoint, msgs: seq<seq<byte>>)
    requires e.known && Established(e.state) && forall msg :: msg in msgs ==> Unreadable(c.aes, e, msg)
    ensures var f := RunFrom(c, w, e, Arrivals(msgs)); f == e.(clock := f.clock)
  {
    hide HandleMessage, Unreadable, GivenUp;
    if msgs != [] {
      var before, msg := msgs[..|msgs| - 1], msgs[|msgs| - 1];
      RunUnmoved(c, w, e, before);
      var f := RunFrom(c, w, e, Arrivals(before));
      UnreadableStill(c.aes, e, f, msg);
      DatagramDropped(c, w, f, msg);
      var vs := Arrivals(msgs);
      assert vs[..|vs| - 1] == Arrivals(before) && vs[|vs| - 1] == Arrives(msg);
    }
  }

  lemma UnreadableStill(aes: Aes, e: Endpoint, f: Endpoint, msg: seq<byte>)
    requires f == e.(clock := f.clock) && Unreadable(aes, e, msg)
    ensures Unreadable(aes, f, msg)
  {
    hide RecordLength, Seals;
    if RecordLength(msg) > 0 {
      var record := msg[..RecordLength(msg)];
      forall payload ensures !Opens(aes, f, record, payload) {
        OpensStill(aes, e, f, record, payload);
      }
    }
  }

  lemma OpensStill(aes: Aes, e: Endpoint, f: Endpoint, record: seq<byte>, payload: seq<byte>)
    requires f == e.(clock := f.clock) && |record| >= 13 && !Opens(aes, e, record, payload)
    ensures !Opens(aes, f, record, payload)
  {
    hide Seals;
    forall s ensures Addressed(f, record, s) <==> Addressed(e, record, s) {}
  }

  /**
   * In every run, a datagram that changes anything but the clock of an established endpoint with keys in its slots,
   * as by closing the connection or beginning a handshake, begins with a record sealed with the keys its peer writes with.
   */
  lemma MovedBySealed(c: Config, w: World, vs: seq<Event>, msg: seq<byte>)
    requires var e := Run(c, w, vs); e.known && Established(e.state) && AllKeyed(e)
    requires var e, f := Run(c, w, vs), Run(c, w, vs + [Arrives(msg)]); f != e.(clock := f.clock)
    ensures var e, n := Run(c, w, vs), RecordLength(msg);
      n > 0 && exists payload ::
        || (e.s0.Some? && Seals(c.aes, Sender(e), e.s0.value.keyBlock, msg[..n], payload))
        || (e.s1.Some? && Seals(c.aes, Sender(e), e.s1.value.keyBlock, msg[..n], payload))
  {
    hide HandleMessage, RecordLength, Opens, Seals, GivenUp, AllKeyed;
    var e, n := Run(c, w, vs), RecordLength(msg);
    var us := vs + [Arrives(msg)];
    assert us[..|us| - 1] == vs;
    assert Run(c, w, us) == HandleMessage(c, w, e, msg).e;
    if Unreadable(c.aes, e, msg) { DatagramDropped(c, w, e, msg); }
    else {
      var payload :| Opens(c.aes, e, msg[..n], payload);
      OpensSealed(c.aes, e, msg[..n], payload);
    }
  }

  /** A record read under a cipher leaves slot 1 empty if it is not of a later epoch: from then on no slot is without keys. */
  lemma KeyedFromThen(c: Config, w: World, e: Endpoint, record: seq<byte>, payload: seq<byte>)
    requires e.known && e.s0.Some? && e.s0.value.cipher != 0 && |record| >= 13 && Opens(c.aes, e, record, payload)
    requires 256 * record[3] as int + record[4] as int == e.s0.value.epoch
    requires e.s1.Some? ==> e.s1.value.epoch <= e.s0.value.epoch
    ensures var f := AfterDecrypt(e.(clock := e.clock + 1), record); f.s1.None? && AllKeyed(f)
  {
    hide Opens, Value;
    TwoOctets(record[3..5]);
  }

  // ---------------------------------------------------------------- one record

  /** The alert close_notify in the clear, in epoch 0. */
  const PLAIN_ALERT: seq<byte> := [21, 254, 253, 0, 0, 0, 0, 0, 0, 0, 0, 0, 2, 2, 0]

  /** It moves a connection with keys in epoch 1 and nothing else by one tick of the clock; at a plain slot 1 of epoch 0 it frees the peer. */
  lemma PlainAlert(c: Config, w: World, e: Endpoint)
    requires e.known && e.state == Connected && e.s0.Some? && e.s0.value.epoch == 1 && e.s0.value.cipher != 0
    ensures e.s1.None? ==> HandleMessage(c, w, e, PLAIN_ALERT) == Outcome(e.(clock := e.clock + 1), -563)
    ensures e.s1.Some? && e.s1.value.epoch == 0 && e.s1.value.cipher == 0 ==> !HandleMessage(c, w, e, PLAIN_ALERT).e.known
  {
    hide HandleRecord, RecordLength;
    PlainAlertIsRecord();
    assert PLAIN_ALERT[..15] == PLAIN_ALERT;
    if e.s1.None? {
      UnopenedDropped(c, w, e, PLAIN_ALERT);
    } else if e.s1.value.epoch == 0 && e.s1.value.cipher == 0 {
      assert Addressed(e, PLAIN_ALERT, Some(e.s1.value));
      assert Opens(c.aes, e, PLAIN_ALERT, PLAIN_ALERT[13..]);
      OpenedHandled(c, w, e, PLAIN_ALERT, PLAIN_ALERT[13..]);
    }
  }

  lemma PlainAlertIsRecord()
    ensures RecordLength(PLAIN_ALERT) == 15
  {
    hide Value;
    TwoOctets(PLAIN_ALERT[11..13]);
  }
}

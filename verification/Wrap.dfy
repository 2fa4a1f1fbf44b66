/**
 * The epoch after 65535. A server renegotiates into it: its new slot is freed before it is switched to, slot 0 is
 * left empty, and what is written from then on goes out in the clear.
 */
module Wrap {
  import opened Bytes
  import opened CcmSpec
  import opened Prf
  import opened Peers
  import opened RecordSpec
  import opened Datagram
  import opened Reorder
  import opened Hello
  import opened Engine
  import opened Transport
  import opened Order
  import opened Crossing

  /** An established connection of a server, under a pre-shared key, with no handshake pending. */
  ghost predicate Serving(e: Endpoint, epoch: uint16) {
    && e.known && e.role == Server && e.state == Connected && e.hs.None?
    && e.s0.Some? && e.s0.value.cipher == PSK_CIPHER && e.s0.value.epoch == epoch
  }

  /** A server whose keys for the epoch after slot 0's are in slot 1. */
  ghost predicate Awaiting(e: Endpoint) {
    && e.known && e.role == Server && e.state == WaitFinished && e.hs.Some? && Queue(e) == []
    && e.s0.Some? && e.s1.Some? && e.s1.value.cipher != NULL_CIPHER && e.s1.value.epoch == Next(e.s0.value.epoch)
  }

  /** The client's Finished, as the server computes it. */
  function ClientsFinished(c: Config, e: Endpoint): Message
    requires e.hs.Some?
  {
    Msg(20, e.hs.value.mseqR, VerifyData(c.hash, e.hs.value.tmp[..48], Client, e.hs.value.transcript))
  }

  /** It arrives under the new keys. */
  function FinishedLetter(c: Config, e: Endpoint): Event
    requires e.hs.Some?
  {
    Arrives(Protect(c.aes, Client, e.s1, HANDSHAKE, ClientsFinished(c, e)))
  }

  lemma TakesClientsFinished(c: Config, w: World, e: Endpoint, m: Message)
    requires Perfect(w) && e.known && e.role == Server && e.state == WaitFinished && e.hs.Some?
    requires m == ClientsFinished(c, e)
    ensures var r := HandleHandshakeMsg(c, w, e, m);
      && r.err >= 0 && r.e.known && r.e.role == Server && r.e.state == Connected && r.e.hs.None? && SameSlot(e.s1, r.e.s0)
      && r.e.doneWrapped == e.hs.value.wrapped && r.e.doneCrossed == e.hs.value.crossed
  {
    hide VerifyData, HandshakeHeader, MessageSeq, SendServerFinished;
    var v := VerifyData(c.hash, e.hs.value.tmp[..48], Client, e.hs.value.transcript);
    FirstIs(20, e.hs.value.mseqR, v);
    assert m[12..24] == m[12..];
    var h := Tick(e).hs.value;
    var e1 := Tick(e).With(h.(trail := h.trail + [FinishedAccepted(h.tmp[..48], h.transcript, m[12..24], h.mseqR)]));
    AnswerSent(c, w, Absorbed(e1, m));
  }

  /**
   * The Finished is decrypted, accepted and answered. The keys it was read under become those of the connection,
   * unless they are for the epoch after 65535: then slot 0 is empty from here on.
   */
  lemma FinishedArrives(c: Config, w: World, e: Endpoint)
    requires Perfect(w) && Awaiting(e)
    ensures var f := Step(c, w, e, FinishedLetter(c, e));
      && f.known && f.role == Server && f.state == Connected && f.hs.None? && f.doneWrapped == e.hs.value.wrapped
      && (if e.s0.value.epoch < 0xffff then SameSlot(e.s1, f.s0) else f.s0.None?)
  {
    hide Protect, HandleMessage, HandlePayload, HandleHandshakeMsg, VerifyData, HandshakeHeader, MessageSeq;
    var m := ClientsFinished(c, e);
    FirstIs(20, e.hs.value.mseqR, VerifyData(c.hash, e.hs.value.tmp[..48], Client, e.hs.value.transcript));
    Carried(c, w, e, Client, e.s1.value, e.s1.value, HANDSHAKE, m);
    var a := FreedOther(Tick(e));
    TakesClientsFinished(c, w, a, m);
    InTurn(c, w, a, e.s1.value.epoch, m);
  }

  /** With slot 0 empty, application data is written as it is. */
  lemma WritesInTheClear(c: Config, w: World, e: Endpoint, data: seq<byte>)
    requires e.known && e.state == Connected && e.s0.None? && |data| <= MAX_BUF - 13
    ensures var f := Step(c, w, e, Writes(data));
      |f.sent| == |e.sent| + 1 && f.sent[|e.sent|].bytes == Header(APPLICATION_DATA, Zeros(8), |data|) + data
  {
    hide Header;
  }

  // ---------------------------------------------------------------- one renegotiation

  /** The server derives keys when the ChangeCipherSpec arrives. */
  lemma DerivesKeys(c: Config, w: World, e: Endpoint)
    requires Willing(w) && e.known && e.role == Server && e.state == WaitChangeCipherSpec && e.s0.Some?
    requires e.hs.Some? && e.hs.value.cipher == PSK_CIPHER && Queue(e) == []
    ensures var r := HandleCcs(c, w, e, [1]);
      r.err >= 0 && Awaiting(r.e) && r.e.s0 == e.s0 && r.e.hs.value.wrapped == (e.s0.value.epoch == 0xffff) && r.e.s1.value.cipher == PSK_CIPHER
  {
    hide CalculateKeyBlock;
    var reply := w.psk(e.clock, Key(e.hs.value.pskId));
    DerivedFrom(c, w, e);
  }

  /** A hello that this server takes for a pre-shared key. */
  ghost predicate Welcome(c: Config, w: World, e: Endpoint, m: Message) {
    && m[0] == 1 && |m| <= MAX_BUF && Acceptable(c, w, Tick(Receiving(e)), m) && Chosen(c, w, Tick(Receiving(e)), m) == PSK_CIPHER
  }

  /**
   * Four records from the client, and the connection is established anew: one epoch on, or, after epoch 65535, with
   * nothing in slot 0.
   */
  lemma Renegotiated(c: Config, w: World, e: Endpoint, epoch: uint16, m: Message) returns (vs: seq<Event>)
    requires Willing(w) && Serving(e, epoch) && Welcome(c, w, e, m)
    ensures var g := RunFrom(c, w, e, vs);
      if epoch < 0xffff then Serving(g, epoch + 1)
      else g.known && g.role == Server && g.state == Connected && g.hs.None? && g.s0.None? && g.doneWrapped
  {
    hide Step, HandshakeHeader, HandleHandshakeMsg, HandleCcs, MessageSeq, RunFrom, Receiving, Letter, Acceptable, Chosen, Willing,
      BigEndian, FinishedLetter;
    ReceivingIs(e);
    ClientHelloTaken(c, w, Receiving(e), m);
    HelloArrives(c, w, e, m);
    var e1 := HandleHandshakeMsg(c, w, Receiving(e), m).e;
    var k := e1.hs.value.mseqR;
    var x := Msg(16, k, BigEndian(0, 2) + []);
    FirstIs(16, k, BigEndian(0, 2) + []);
    ReceivingIs(e1);
    TakesExchange(c, w, Receiving(e1), k);
    MessageArrives(c, w, e1, x);
    var e2 := HandleHandshakeMsg(c, w, Receiving(e1), x).e;
    ReceivingIs(e2);
    DerivesKeys(c, w, Receiving(e2));
    ChangeArrives(c, w, e2);
    var e3 := HandleCcs(c, w, Receiving(e2), [1]).e;
    WillingPerfect(w);
    FinishedArrives(c, w, e3);
    vs := [Letter(c, e, HANDSHAKE, m), Letter(c, e1, HANDSHAKE, x), Letter(c, e2, CHANGE_CIPHER_SPEC, [1])] + [FinishedLetter(c, e3)];
    ThreeEvents(c, w, e, vs[0], vs[1], vs[2]);
    LastEvent(c, w, e, vs[..3], FinishedLetter(c, e3));
    assert vs[..3] == [vs[0], vs[1], vs[2]];
  }

  lemma LastEvent(c: Config, w: World, e: Endpoint, vs: seq<Event>, v: Event)
    ensures RunFrom(c, w, e, vs + [v]) == Step(c, w, RunFrom(c, w, e, vs), v)
  {
    hide Step;
    assert (vs + [v])[..|vs + [v]| - 1] == vs;
  }
}

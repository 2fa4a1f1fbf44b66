/**
 * The keys in use, over all runs in which callbacks fail with reported codes only. An established connection uses
 * the keys derived in its last handshake, except after a server's handshake begun in epoch 65535: there the new
 * slot counts as the older one, is freed when the client's Finished is decrypted, and nothing is left in slot 0.
 */
module Keys {
  import opened Bytes
  import opened CcmSpec
  import opened Prf
  import opened Peers
  import opened RecordSpec
  import opened Datagram
  import opened Reorder
  import opened Hello
  import opened Engine
  import opened Wire
  import opened Transport
  import opened Order

  /** `s` holds the keys whose derivation `t` records. */
  ghost predicate Keyed(h: Hash, s: Option<Security>, t: seq<Milestone>) {
    && |t| > 2 && t[2].KeysDerived? && s.Some? && s.value.cipher != NULL_CIPHER
    && s.value.keyBlock == KeyBlockOf(h, t[2].master, t[2].client, t[2].server)
  }

  /** A server that has derived keys and waits for the client's Finished. */
  ghost predicate Finishing(e: Endpoint) {
    e.role == Server && e.state == WaitFinished && e.hs.Some?
  }

  ghost predicate FinishingSlots(c: Config, e: Endpoint)
    requires e.hs.Some?
  {
    && e.s0.Some?
    && (if e.hs.value.wrapped
        then e.s0.value.epoch == 0xffff && (e.s1.Some? ==> e.s1.value.epoch == 0 && e.s1.value.cipher != NULL_CIPHER)
        else e.s1.Some? && e.s0.value.epoch < e.s1.value.epoch && (!e.hs.value.crossed ==> Keyed(c.hash, e.s1, e.hs.value.trail)))
  }

  /** What a server without anything in slot 0 is like. */
  ghost predicate Stranded(e: Endpoint) {
    && e.role == Server && (e.state == Closing || e.state == Closed || (e.state == Connected && e.doneWrapped))
    && (e.s1.Some? ==> e.s1.value.epoch == 0xffff)
  }

  ghost predicate ConnectedSlots(c: Config, e: Endpoint) {
    e.state == Connected ==>
      if e.role == Server && e.doneWrapped then e.s0.None? else !e.doneCrossed ==> Keyed(c.hash, e.s0, e.done)
  }

  /** A client's new keys are in slot 0 as soon as it has sent its Finished. */
  ghost predicate ClientSlots(c: Config, e: Endpoint) {
    e.hs.Some? && e.role == Client && (e.state == WaitChangeCipherSpec || e.state == WaitFinished) && !e.hs.value.crossed ==>
      Keyed(c.hash, e.s0, e.hs.value.trail)
  }

  ghost predicate Slotted(c: Config, e: Endpoint) {
    e.known ==>
      && (e.s0.None? ==> Stranded(e)) && ConnectedSlots(c, e) && ClientSlots(c, e)
      && (Finishing(e) ==> FinishingSlots(c, e))
  }

  /** What a handshake message finds: it has been read under slot 0, or under the new slot, which is freed if epoch 0 looks older. */
  ghost predicate Ripe(e: Endpoint) {
    e.known ==> e.s0.Some? && (Finishing(e) && e.hs.value.wrapped ==> e.s1.None?)
  }

  /** Fit to be closed. */
  ghost predicate Failing(e: Endpoint) {
    e.known ==> e.s0.None? ==> e.role == Server && (e.s1.Some? ==> e.s1.value.epoch == 0xffff)
  }

  ghost predicate Kept(c: Config, r: Outcome) {
    if r.err < 0 then Failing(r.e) else Slotted(c, r.e) && (r.e.hs.Some? ==> Ripe(r.e))
  }

  // ---------------------------------------------------------------- what does not touch the slots

  ghost predicate Untouched(a: Endpoint, b: Endpoint) {
    && b.known == a.known && b.role == a.role && SameSlot(a.s0, b.s0) && SameSlot(a.s1, b.s1)
    && b.done == a.done && b.doneCrossed == a.doneCrossed && b.doneWrapped == a.doneWrapped
  }

  ghost predicate Special(role: Role, s: State) {
    s == Connected || s == WaitFinished || (role == Client && s == WaitChangeCipherSpec)
  }

  lemma KeyedStill(h: Hash, a: Option<Security>, b: Option<Security>, t: seq<Milestone>, u: seq<Milestone>)
    requires Keyed(h, a, t) && SameSlot(a, b) && t <= u
    ensures Keyed(h, b, u)
  {
    hide KeyBlockOf;
    assert u[2] == t[2];
  }

  /** Into a state that asks nothing of the keys. */
  lemma Onward(c: Config, a: Endpoint, b: Endpoint)
    requires a.known && a.s0.Some? && Untouched(a, b) && !Special(b.role, b.state)
    ensures Slotted(c, b) && Ripe(b) && Failing(b)
  {
  }

  /** In the same state, with as much on record or more. */
  lemma Staying(c: Config, a: Endpoint, b: Endpoint)
    requires Slotted(c, a) && Untouched(a, b) && b.state == a.state
    requires b.hs.Some? && a.state != Connected ==>
      a.hs.Some? && b.hs.value.crossed == a.hs.value.crossed && b.hs.value.wrapped == a.hs.value.wrapped && a.hs.value.trail <= b.hs.value.trail
    ensures Slotted(c, b) && (a.known && a.s0.Some? ==> Failing(b)) && (Ripe(a) ==> Ripe(b))
  {
    hide Keyed;
    var t := if a.hs.Some? then a.hs.value.trail else [];
    var u := if b.hs.Some? then b.hs.value.trail else [];
    if Keyed(c.hash, a.s0, t) && t <= u { KeyedStill(c.hash, a.s0, b.s0, t, u); }
    if Keyed(c.hash, a.s1, t) && t <= u { KeyedStill(c.hash, a.s1, b.s1, t, u); }
    if Keyed(c.hash, a.s0, a.done) { KeyedStill(c.hash, a.s0, b.s0, a.done, b.done); }
  }

  /** A failing handler has left slot 0 as it was, but for the counter. */
  lemma FailingStill(a: Endpoint, b: Endpoint)
    requires a.known && a.s0.Some? && SameSlot(a.s0, b.s0)
    ensures Failing(b)
  {
  }

  // ---------------------------------------------------------------- keys derived and switched to

  lemma SecretNegotiated(w: World, e: Endpoint, h: Handshake)
    ensures PreMasterSecret(w, e, h).Secret? ==> h.cipher != NULL_CIPHER
  {
    hide PreMaster;
  }

  /** What a derivation puts into slot 1. */
  lemma Calculated(c: Config, w: World, e: Endpoint)
    requires e.hs.Some? && e.s0.Some?
    ensures var r := CalculateKeyBlock(c, w, e); var h := e.hs.value;
      && r.e == e.(s1 := r.e.s1, hs := r.e.hs, made := r.e.made) && r.e.s1.Some? && r.e.s1.value.epoch == Next(e.s0.value.epoch)
      && r.e.hs.Some? && r.e.hs.value.crossed == h.crossed
      && (r.err >= 0 ==>
            && r.e.s1.value.cipher != NULL_CIPHER && r.e.hs.value.wrapped == (e.s0.value.epoch == 0xffff)
            && h.trail <= r.e.hs.value.trail && |r.e.hs.value.trail| == |h.trail| + 1
            && (|h.trail| == 2 ==> Keyed(c.hash, r.e.s1, r.e.hs.value.trail)))
  {
    hide PreMasterSecret, MasterSecret, KeyBlockOf;
    SecretNegotiated(w, e, e.hs.value);
  }

  /** What has been sent in a handshake, with perhaps a milestone more. */
  ghost predicate Progressed(a: Endpoint, b: Endpoint) {
    && b == a.(s0 := b.s0, s1 := b.s1, hs := b.hs, clock := b.clock, sent := b.sent)
    && a.hs.Some? && b.hs.Some? && b.hs.value.crossed == a.hs.value.crossed && b.hs.value.wrapped == a.hs.value.wrapped
    && a.hs.value.trail <= b.hs.value.trail
  }

  lemma SentProgress(a: Endpoint, b: Endpoint)
    requires SameBut(a, b) && a.hs.Some?
    ensures Progressed(a, b) && SameSlot(a.s0, b.s0) && b.s1 == a.s1
  {
  }

  lemma FinishedProgress(c: Config, w: World, e: Endpoint)
    requires e.hs.Some?
    ensures var r := SendFinished(c, w, e); Progressed(e, r.e) && SameSlot(e.s0, r.e.s0) && r.e.s1 == e.s1
  {
    hide SendHandshake, VerifyData, SameBut;
    var h := e.hs.value;
    var e1 := e.With(h.(trail := h.trail + [OwnFinished(c, e)]));
    SentProgress(e1, SendHandshake(c, w, e1, 20, VerifyData(c.hash, h.tmp[..48], e.role, h.transcript), true).e);
  }

  /** ChangeCipherSpec, the switch, and one's own Finished: slot 1 becomes slot 0. */
  lemma Switching(c: Config, w: World, e: Endpoint)
    requires e.hs.Some?
    ensures var r := SendServerFinished(c, w, e);
      && Progressed(e, r.e)
      && (SameSlot(e.s0, r.e.s0) || (SameSlot(e.s1, r.e.s0) && SameSlot(e.s0, r.e.s1)))
      && (r.err >= 0 ==> SameSlot(e.s1, r.e.s0) && SameSlot(e.s0, r.e.s1))
  {
    hide Send, SendFinished, SameBut;
    var r1 := Send(c, w, e, CHANGE_CIPHER_SPEC, [1]);
    SentProgress(e, r1.e);
    FinishedProgress(c, w, Switched(r1.e));
  }

  lemma FlightKeeps(c: Config, w: World, e: Endpoint)
    requires e.hs.Some?
    ensures var r := SendKeyExchangeFlight(c, w, e);
      Untouched(e, r.e) && r.e.state == e.state && r.e.hs.Some?
      && r.e.hs.value.crossed == e.hs.value.crossed
  {
    hide SendKeyExchangeFlight;
  }

  /** The client's keys, or those of a server led to behave like one. */
  lemma HelloDoneKept(c: Config, w: World, e: Endpoint, m: Message)
    requires Tame(w) && e.hs.Some? && e.known && InOrder(c, e) && Slotted(c, e) && Ripe(e)
    ensures Kept(c, OnServerHelloDone(c, w, e, m))
  {
    hide Tame, SendKeyExchangeFlight, CalculateKeyBlock, SendServerFinished, CheckServerHelloDone, Keyed, InOrder, Count, Slotted;
    if e.state == WaitServerHelloDone {
      ServerHelloDoneIs(c, w, e, m);
      var e0 := Absorbed(e, m);
      FlightKeeps(c, w, e0);
      WaitingTrail(c, w, e, m);
      var r1 := SendKeyExchangeFlight(c, w, e0);
      if r1.err < 0 { FailingStill(e, r1.e); }
      else {
        Calculated(c, w, r1.e);
        var r2 := CalculateKeyBlock(c, w, r1.e);
        if r2.err < 0 { FailingStill(e, r2.e); }
        else {
          Switching(c, w, r2.e);
          var r3 := SendServerFinished(c, w, r2.e);
          if r3.err < 0 { FailingSome(r3.e); }
          else { ClientSwitched(c, r2.e, r3); }
        }
      }
    } else {
      FailingStill(e, e);
    }
  }

  lemma FailingSome(e: Endpoint)
    requires e.s0.Some?
    ensures Failing(e)
  {
  }

  lemma ClientSwitched(c: Config, a: Endpoint, r: Outcome)
    requires r.err >= 0 && a.hs.Some? && r.e.hs.Some? && a.s1.Some? && SameSlot(a.s1, r.e.s0) && r.e.role == a.role
    requires !a.hs.value.crossed ==> Keyed(c.hash, a.s1, a.hs.value.trail)
    requires r.e.hs.value.crossed == a.hs.value.crossed && a.hs.value.trail <= r.e.hs.value.trail
    ensures Kept(c, Count(Outcome(r.e.In(WaitChangeCipherSpec), r.err)))
  {
    hide Keyed;
    if !a.hs.value.crossed { KeyedStill(c.hash, a.s1, r.e.s0, a.hs.value.trail, r.e.hs.value.trail); }
  }

  /** Two milestones are on record when keys are derived. */
  lemma WaitingTrail(c: Config, w: World, e: Endpoint, m: Message)
    requires Tame(w) && e.hs.Some? && e.known && InOrder(c, e) && e.state == WaitServerHelloDone
    ensures var r := SendKeyExchangeFlight(c, w, Absorbed(e, m));
      r.err >= 0 && !e.hs.value.crossed ==> |r.e.hs.value.trail| == 2
  {
    hide Tame, SendKeyExchangeFlight, Lawful, Complete;
    FlightGood(c, w, Absorbed(e, m));
  }

  // ---------------------------------------------------------------- the Finished

  lemma FinishedKept(c: Config, w: World, e: Endpoint, m: Message)
    requires e.hs.Some? && e.known && Slotted(c, e) && Ripe(e)
    ensures Kept(c, OnFinished(c, w, e, m))
  {
    hide SendServerFinished, CheckFinished, Keyed, Slotted;
    if e.state == WaitFinished && CheckFinished(c, e, m) >= 0 {
      CheckFinishedIs(c, e, m);
      var h := e.hs.value;
      var e1 := e.With(h.(trail := h.trail + [FinishedAccepted(h.tmp[..48], h.transcript, m[12..24], h.mseqR)]));
      if e.role == Server {
        var e2 := Absorbed(e1, m);
        Switching(c, w, e2);
        ServerEnded(c, e, e2, SendServerFinished(c, w, e2));
      } else {
        ClientEnded(c, e, e1);
      }
    } else {
      FailingStill(e, e);
    }
  }

  lemma ClientEnded(c: Config, e: Endpoint, f: Endpoint)
    requires e.known && e.hs.Some? && Slotted(c, e) && Ripe(e) && e.role == Client && e.state == WaitFinished
    requires f.hs.Some? && f == e.With(e.hs.value.(trail := f.hs.value.trail)) && e.hs.value.trail <= f.hs.value.trail
    ensures Kept(c, Outcome(Ended(f), 0))
  {
    hide Keyed;
    if !e.hs.value.crossed { KeyedStill(c.hash, e.s0, e.s0, e.hs.value.trail, f.hs.value.trail); }
  }

  lemma ServerEnded(c: Config, e: Endpoint, a: Endpoint, r: Outcome)
    requires e.known && e.hs.Some? && Slotted(c, e) && Ripe(e) && e.role == Server && e.state == WaitFinished
    requires a.hs.Some? && a == e.With(a.hs.value) && e.hs.value.trail <= a.hs.value.trail
    requires a.hs.value.crossed == e.hs.value.crossed && a.hs.value.wrapped == e.hs.value.wrapped
    requires Progressed(a, r.e)
    requires SameSlot(a.s0, r.e.s0) || (SameSlot(a.s1, r.e.s0) && SameSlot(a.s0, r.e.s1))
    requires r.err >= 0 ==> SameSlot(a.s1, r.e.s0) && SameSlot(a.s0, r.e.s1)
    ensures Kept(c, if r.err < 0 then r else Outcome(Ended(r.e), r.err))
  {
    hide Keyed;
    if r.err >= 0 && !e.hs.value.wrapped && !e.hs.value.crossed {
      KeyedStill(c.hash, e.s1, r.e.s0, e.hs.value.trail, r.e.hs.value.trail);
    }
  }

  // ---------------------------------------------------------------- the other messages

  lemma CountKept(c: Config, r: Outcome)
    requires Kept(c, r)
    ensures Kept(c, Count(r))
  {
    hide Keyed;
  }

  lemma AcceptKept(c: Config, w: World, e: Endpoint, m: Message)
    requires Slotted(c, e) && Ripe(e) && (e.known ==> e.state == Connected)
    ensures Kept(c, AcceptClientHello(c, w, e, m))
  {
    hide UpdateParameters, SendServerHelloMessages, Keyed, Count, MessageSeq, Slotted;
    var a := Admitted(e, m);
    var r1 := UpdateParameters(c, w, a, m);
    assert a.known && a.s0.Some?;
    if r1.err < 0 { FailingStill(a, r1.e); }
    else {
      var r2 := SendServerHelloMessages(c, w, Absorbed(r1.e, m));
      if r2.err < 0 { FailingStill(a, r2.e); }
      else {
        var f := HelloAccepted(c, r2.e);
        Onward(c, a, f);
        CountKept(c, Outcome(f, 0));
      }
    }
  }

  lemma ClientHelloKept(c: Config, w: World, e: Endpoint, m: Message)
    requires Slotted(c, e) && Ripe(e)
    ensures Kept(c, OnClientHello(c, w, e, m))
  {
    hide VerifyPeer, AcceptClientHello, SendHandshake, Keyed, Slotted, Count, BigEndian;
    Unchanged(c, e);
    if e.known ==> e.state == Connected {
      AcceptKept(c, w, e, m);
      match VerifyPeer(c.hash, c.secret, c.session, Received(w, e, m))
      case Refused(_) =>
      case Good =>
      case Challenge(cookie, first) =>
        var r := SendHelloVerifyRequest(c, w, e, cookie);
        SentKept(c, e, r.e);
        CountKept(c, r);
        AcceptKept(c, w, r.e, m);
    }
  }

  lemma Unchanged(c: Config, e: Endpoint)
    requires Slotted(c, e) && Ripe(e)
    ensures Failing(e) && Kept(c, Outcome(e, 0)) && Kept(c, Outcome(e, -1))
  {
    hide Keyed;
  }

  /** Sending alone changes nothing that matters here. */
  lemma SentKept(c: Config, a: Endpoint, b: Endpoint)
    requires Slotted(c, a) && Ripe(a) && SameBut(a, b)
    ensures Slotted(c, b) && Ripe(b) && Failing(b)
  {
    hide Keyed;
    Staying(c, a, b);
  }

  lemma HelloRequestKept(c: Config, w: World, e: Endpoint)
    requires e.known && Slotted(c, e) && Ripe(e)
    ensures Kept(c, OnHelloRequest(c, w, e))
  {
    hide SendClientHello, Keyed, Count, Slotted;
    Unchanged(c, e);
    if e.state == Connected {
      var r := SendClientHello(c, w, HelloRequested(e), []);
      if r.err < 0 { FailingStill(e, r.e); }
      else {
        Onward(c, e, r.e.In(ClientHelloSent));
        CountKept(c, Outcome(r.e.In(ClientHelloSent), r.err));
      }
    }
  }

  lemma VerifyRequestKept(c: Config, w: World, e: Endpoint, m: Message)
    requires e.hs.Some? && e.known && Slotted(c, e) && Ripe(e)
    ensures Kept(c, OnHelloVerifyRequest(c, w, e, m))
  {
    hide SendClientHello, Keyed, Count, Slotted, Range;
    Unchanged(c, e);
    if e.state == ClientHelloSent && |m| >= 15 {
      var r := SendClientHello(c, w, e, Range(Received(w, e, m), 15, m[14]));
      Onward(c, e, r.e);
      CountKept(c, r);
    }
  }

  lemma ServerHelloKept(c: Config, w: World, e: Endpoint, m: Message)
    requires e.hs.Some? && e.known && Slotted(c, e) && Ripe(e)
    ensures Kept(c, OnServerHello(c, w, e, m))
  {
    hide CheckServerHello, Keyed, Count, Slotted;
    Unchanged(c, e);
    if e.state == ClientHelloSent {
      var r := CheckServerHello(c, w, e, m);
      if r.err < 0 { FailingStill(e, r.e); }
      else {
        Onward(c, e, HelloTaken(r.e));
        CountKept(c, Outcome(HelloTaken(r.e), 0));
      }
    }
  }

  lemma CertificateKept(c: Config, w: World, e: Endpoint, m: Message)
    requires e.hs.Some? && e.known && Slotted(c, e) && Ripe(e)
    ensures Kept(c, OnCertificate(w, e, m)) && Kept(c, OnCertificateRequest(w, e, m))
  {
    hide Judged, Keyed, Count, Slotted;
    Unchanged(c, e);
    var r := Judged(w, e, m);
    FailingStill(e, r.e);
    var f := r.e.In(if e.role == Client then WaitServerKeyExchange else WaitClientKeyExchange);
    Onward(c, e, f);
    CountKept(c, Outcome(f, 0));
    if e.state == WaitServerHelloDone {
      var g := r.e.With(r.e.hs.value.(clientAuth := true));
      Onward(c, e, g);
      CountKept(c, Outcome(g, 0));
    }
  }

  lemma ServerKeyExchangeKept(c: Config, w: World, e: Endpoint, m: Message)
    requires e.hs.Some? && e.known && Slotted(c, e) && Ripe(e)
    ensures Kept(c, OnServerKeyExchange(w, e, m))
  {
    hide Judged, CheckHint, Keyed, Count, Slotted;
    Unchanged(c, e);
    var cipher := e.hs.value.cipher;
    var r := if cipher == ECDHE_CIPHER then Judged(w, e, m) else if cipher == PSK_CIPHER then CheckHint(e, m) else Outcome(e, 0);
    FailingStill(e, r.e);
    Onward(c, e, r.e.In(WaitServerHelloDone));
    CountKept(c, Outcome(r.e.In(WaitServerHelloDone), 0));
  }

  lemma ClientKeyExchangeKept(c: Config, w: World, e: Endpoint, m: Message)
    requires e.hs.Some? && e.known && Slotted(c, e) && Ripe(e) && InOrder(c, e)
    ensures Kept(c, OnClientKeyExchange(c, w, e, m))
  {
    hide CheckClientKeyExchange, Keyed, Count, Slotted, InOrder;
    Unchanged(c, e);
    if e.state == WaitClientKeyExchange {
      ServersOwn(c, e);
      var r := CheckClientKeyExchange(w, e, m);
      FailingStill(e, r.e);
      var f := Exchanged(c, Absorbed(r.e, m));
      OnwardAsServer(c, e, f);
      CountKept(c, Outcome(f, 0));
    }
  }

  lemma CertificateVerifyKept(c: Config, w: World, e: Endpoint, m: Message)
    requires e.hs.Some? && e.known && Slotted(c, e) && Ripe(e) && InOrder(c, e)
    ensures Kept(c, OnCertificateVerify(w, e, m))
  {
    hide Judged, Keyed, Count, Slotted, InOrder;
    Unchanged(c, e);
    if e.state == WaitCertificateVerify {
      ServersOwn(c, e);
      var r := Judged(w, e, m);
      FailingStill(e, e);
      OnwardAsServer(c, e, r.e.In(WaitChangeCipherSpec));
      CountKept(c, Outcome(r.e.In(WaitChangeCipherSpec), 0));
    }
  }

  /** Only a server waits for these, unless its handshake began with a hello of the other role. */
  lemma ServersOwn(c: Config, e: Endpoint)
    requires e.known && e.hs.Some? && InOrder(c, e) && (e.state == WaitClientKeyExchange || e.state == WaitCertificateVerify)
    ensures e.role == Server || e.hs.value.crossed
  {
    hide Lawful, Complete;
  }

  lemma OnwardAsServer(c: Config, a: Endpoint, b: Endpoint)
    requires a.known && a.s0.Some? && Untouched(a, b) && a.hs.Some? && b.hs.Some? && b.hs.value.crossed == a.hs.value.crossed
    requires (b.role == Server || b.hs.value.crossed) && (b.state == WaitChangeCipherSpec || b.state == WaitCertificateVerify)
    ensures Kept(c, Outcome(b, 0))
  {
  }

  lemma HandshakeMsgKept(c: Config, w: World, was: Endpoint, m: Message)
    requires Tame(w) && InOrder(c, was) && Slotted(c, was) && Ripe(was) && LetThrough(was, m)
    ensures Kept(c, HandleHandshakeMsg(c, w, was, m))
  {
    hide Tame, InOrder, Slotted, Kept, Ripe, OnClientHello, OnHelloRequest, OnHelloVerifyRequest, OnServerHello, OnCertificate,
      OnServerKeyExchange, OnServerHelloDone, OnCertificateRequest, OnFinished, OnClientKeyExchange, OnCertificateVerify;
    var e := was.(clock := was.clock + 1);
    Ticked(c, was);
    Unchanged(c, e);
    if m[0] == 1 { ClientHelloKept(c, w, e, m); }
    else if m[0] == 0 { HelloRequestKept(c, w, e); }
    else if m[0] == 3 { VerifyRequestKept(c, w, e, m); }
    else if m[0] == 2 { ServerHelloKept(c, w, e, m); }
    else if m[0] == 11 || m[0] == 13 { CertificateKept(c, w, e, m); }
    else if m[0] == 12 { ServerKeyExchangeKept(c, w, e, m); }
    else if m[0] == 14 { HelloDoneKept(c, w, e, m); }
    else if m[0] == 20 { FinishedKept(c, w, e, m); }
    else if m[0] == 16 { ClientKeyExchangeKept(c, w, e, m); }
    else if m[0] == 15 { CertificateVerifyKept(c, w, e, m); }
    else { UnexpectedKept(c, e); }
  }

  lemma UnexpectedKept(c: Config, e: Endpoint)
    requires Slotted(c, e) && Ripe(e)
    ensures Kept(c, Unexpected(e))
  {
    hide Slotted;
  }

  lemma Ticked(c: Config, e: Endpoint)
    ensures var f := e.(clock := e.clock + 1);
      InOrder(c, f) == InOrder(c, e) && Slotted(c, f) == Slotted(c, e) && Ripe(f) == Ripe(e)
  {
    hide Keyed, Lawful, Complete;
  }

  // ---------------------------------------------------------------- records

  lemma {:induction false} DrainKept(c: Config, w: World, e: Endpoint, res: int)
    requires Tame(w) && InOrder(c, e) && Slotted(c, e) && (e.hs.Some? ==> Ripe(e)) && e.known && res >= 0
    ensures Kept(c, DrainQueue(c, w, e, res))
    decreases |Queue(e)|
  {
    hide Tame, InOrder, Slotted, Ripe, HandleHandshakeMsg, Find;
    if e.hs.Some? {
      var h := e.hs.value;
      var i := Find(h.queue, h.mseqR);
      if i < |h.queue| {
        var e1 := e.With(h.(queue := Removed(h.queue, i)));
        QueueOnly(c, e, Removed(h.queue, i));
        HandshakeMsgGood(c, w, e1, h.queue[i]);
        HandshakeMsgKept(c, w, e1, h.queue[i]);
        var r := HandleHandshakeMsg(c, w, e1, h.queue[i]);
        if r.err >= 0 { DrainKept(c, w, r.e, r.err); }
      }
    }
  }

  lemma QueueOnly(c: Config, e: Endpoint, q: seq<Message>)
    requires e.hs.Some?
    ensures var f := e.With(e.hs.value.(queue := q)); InOrder(c, f) == InOrder(c, e) && Slotted(c, f) == Slotted(c, e) && Ripe(f) == Ripe(e)
  {
    hide Keyed, Lawful, Complete;
  }

  lemma HandshakeKept(c: Config, w: World, e: Endpoint, data: seq<byte>)
    requires Tame(w) && InOrder(c, e) && Slotted(c, e) && Ripe(e)
    ensures Kept(c, HandleHandshake(c, w, e, data))
  {
    hide Tame, InOrder, Slotted, Ripe, HandleHandshakeMsg, DrainQueue, MessageSeq, Failing, Store;
    Unchanged(c, e);
    Broken(c, e);
    if |data| >= HS_LENGTH {
      var m: Message := data;
      if e.hs.Some? { QueueOnly(c, e, Store(e.hs.value.queue, m)); }
      if LetThrough(e, m) {
        HandshakeMsgGood(c, w, e, m);
        HandshakeMsgKept(c, w, e, m);
        var r := HandleHandshakeMsg(c, w, e, m);
        if e.known && r.err >= 0 { DrainKept(c, w, r.e, r.err); }
      }
    }
  }

  lemma Broken(c: Config, e: Endpoint)
    requires Slotted(c, e) && Ripe(e)
    ensures Failing(e)
  {
  }

  /** The server's keys, for the epoch after the current one. */
  lemma CcsKept(c: Config, w: World, e: Endpoint, data: seq<byte>)
    requires InOrder(c, e) && Slotted(c, e)
    ensures var r := HandleCcs(c, w, e, data); r.err >= 0 ==> Slotted(c, r.e)
  {
    hide CalculateKeyBlock, Keyed, Lawful, Complete;
    if e.known && e.state == WaitChangeCipherSpec && e.hs.Some? && |data| >= 1 && data[0] == 1 {
      var t := e.hs.value.trail;
      if e.role == Server {
        Calculated(c, w, e);
        var r := CalculateKeyBlock(c, w, e);
        if r.err >= 0 && |t| == 2 {
          KeyedStill(c.hash, r.e.s1, r.e.s1, r.e.hs.value.trail, r.e.hs.value.trail + [CipherChanged]);
        }
      } else if !e.hs.value.crossed {
        KeyedStill(c.hash, e.s0, e.s0, t, t + [CipherChanged]);
      }
    }
  }

  lemma ClosedKept(c: Config, e: Endpoint, s: State)
    requires Failing(e) && (s == Closing || s == Closed)
    ensures Slotted(c, e.In(s)) && Slotted(c, Forgotten(e))
  {
  }

  lemma FailingSlotted(c: Config, e: Endpoint)
    requires Slotted(c, e)
    ensures Failing(e)
  {
    hide Keyed;
  }

  lemma AlertKept(c: Config, w: World, e: Endpoint, level: byte, description: byte)
    requires Slotted(c, e)
    ensures Slotted(c, SendAlert(c, w, e, level, description))
  {
    hide SendAlert, Keyed;
    Staying(c, e, SendAlert(c, w, e, level, description));
  }

  lemma ReportKept(c: Config, w: World, e: Endpoint, err: int)
    requires Failing(e) && Reported(err)
    ensures Slotted(c, ReportError(c, w, e, err))
  {
    hide SendAlert, Slotted, Failing;
    if e.known {
      ClosedKept(c, e, Closing);
      AlertKept(c, w, e.In(Closing), FATAL, INTERNAL_ERROR);
      if err != -1 { AlertKept(c, w, e.In(Closing), -err / 256, -err % 256); }
    } else {
      NobodyKept(c, e);
    }
  }

  lemma NobodyKept(c: Config, e: Endpoint)
    requires !e.known
    ensures Slotted(c, e)
  {
  }

  /** What decryption under `epoch` leaves: nothing to read under an empty slot 0 in epoch 0, and no new slot in epoch 0 after 65535. */
  ghost predicate ReadIn(e: Endpoint, epoch: uint16) {
    && (e.s0.None? ==> epoch != 0)
    && (Finishing(e) && e.hs.value.wrapped && epoch == 0 ==> e.s1.None?)
  }

  lemma Decrypted(c: Config, e: Endpoint, record: seq<byte>)
    requires e.known && Slotted(c, e) && |record| >= HEADER_LENGTH && ByEpoch(e.s0, e.s1, EpochOf(record)).Some?
    ensures var f := AfterDecrypt(e, record); Slotted(c, f) && ReadIn(f, EpochOf(record))
  {
    hide Keyed, EpochOf;
  }

  lemma ReadRipe(c: Config, e: Endpoint, epoch: uint16)
    requires e.known && Slotted(c, e) && ReadIn(e, epoch) && RightEpoch(e, epoch)
    ensures Ripe(e)
  {
    hide Keyed;
  }

  lemma PayloadKept(c: Config, w: World, e: Endpoint, ctype: byte, epoch: uint16, data: seq<byte>)
    requires Tame(w) && InOrder(c, e) && Slotted(c, e) && (e.known ==> ReadIn(e, epoch))
    ensures Slotted(c, HandlePayload(c, w, e, ctype, epoch, data).e)
  {
    hide Tame, InOrder, Slotted, Ripe, ReadIn, RightEpoch, HandleCcs, HandleHandshake, HandleAlert, ReportError, SendAlert, Failing;
    if ctype == CHANGE_CIPHER_SPEC {
      CcsKept(c, w, e, data);
      NobodyKept(c, Destroyed(c, w, ReportError(c, w, HandleCcs(c, w, e, data).e, HandleCcs(c, w, e, data).err)));
    } else if ctype == ALERT {
      AlertHandled(c, w, e, data);
    } else if ctype == HANDSHAKE && !(e.known && !RightEpoch(e, epoch)) {
      if e.known { ReadRipe(c, e, epoch); } else { StrangerRipe(e); }
      HandshakeKept(c, w, e, data);
      HandshakeGood(c, w, e, data);
      var r := HandleHandshake(c, w, e, data);
      if r.err < 0 { ReportKept(c, w, r.e, r.err); }
    }
  }

  lemma StrangerRipe(e: Endpoint)
    requires !e.known
    ensures Ripe(e)
  {
  }

  lemma AlertHandled(c: Config, w: World, e: Endpoint, data: seq<byte>)
    requires Slotted(c, e)
    ensures Slotted(c, HandleAlert(c, w, e, data).e)
  {
    hide SendAlert, Slotted, Failing;
    FailingSlotted(c, e);
    ClosedKept(c, e, Closing);
    ClosedKept(c, e, Closed);
    AlertKept(c, w, e.In(Closing), FATAL, CLOSE_NOTIFY);
    NobodyKept(c, Forgotten(e));
    NobodyKept(c, Forgotten(e.In(Closed)));
    NobodyKept(c, Forgotten(SendAlert(c, w, e.In(Closing), FATAL, CLOSE_NOTIFY)));
  }

  lemma RecordKept(c: Config, w: World, was: Endpoint, record: seq<byte>)
    requires Tame(w) && InOrder(c, was) && Slotted(c, was) && |record| >= HEADER_LENGTH
    ensures Slotted(c, HandleRecord(c, w, was, record).e)
  {
    hide Tame, InOrder, Slotted, HandlePayload, Unprotect, EpochOf, ReportError, ReadIn, AfterDecrypt;
    var e := was.(clock := was.clock + 1);
    Ticked(c, was);
    if !e.known { PayloadKept(c, w, e, record[0], EpochOf(record), record[13..]); }
    else {
      match DecryptVerify(c, e, record)
      case Rejected => NobodyKept(c, Forgotten(ReportError(c, w, e, Fatal(DECRYPT_ERROR))));
      case Accepted(data) =>
        Decrypted(c, e, record);
        FreedInOrder(c, e, record);
        PayloadKept(c, w, AfterDecrypt(e, record), record[0], EpochOf(record), data);
    }
  }

  lemma FreedInOrder(c: Config, e: Endpoint, record: seq<byte>)
    requires InOrder(c, e) && |record| >= HEADER_LENGTH
    ensures InOrder(c, AfterDecrypt(e, record))
  {
    hide Lawful, Complete, EpochOf;
  }

  lemma {:induction false} MessageKept(c: Config, w: World, e: Endpoint, msg: seq<byte>)
    requires Tame(w) && InOrder(c, e) && Slotted(c, e)
    ensures Slotted(c, HandleMessage(c, w, e, msg).e)
    decreases |msg|
  {
    hide Tame, InOrder, Slotted, HandleRecord;
    var n := RecordLength(msg);
    if n > 0 {
      RecordKept(c, w, e, msg[..n]);
      RecordOrdered(c, w, e, msg[..n]);
      MessageKept(c, w, HandleRecord(c, w, e, msg[..n]).e, msg[n..]);
    }
  }

  // ---------------------------------------------------------------- calls

  lemma RenegotiateKept(c: Config, w: World, e: Endpoint)
    requires Slotted(c, e)
    ensures Slotted(c, Renegotiate(c, w, e).e)
  {
    hide Keyed, SendClientHello, SendHandshake, Slotted;
    if e.known && e.state == Connected {
      var e1 := e.With(NewHandshake(0, 0).(ready := false));
      Staying(c, e, e1);
      if e.role == Client {
        var r := SendClientHello(c, w, e1, []);
        ClientHasSlot(c, e);
        if r.err < 0 { Staying(c, e, r.e); } else { Onward(c, e, r.e.In(ClientHelloSent)); }
      } else {
        Staying(c, e, SendHandshake(c, w, e1, 0, [], false).e);
      }
    }
  }

  lemma ClientHasSlot(c: Config, e: Endpoint)
    requires Slotted(c, e) && e.known && e.role == Client
    ensures e.s0.Some?
  {
    hide Keyed;
  }

  lemma ConnectKept(c: Config, w: World, e: Endpoint)
    requires Slotted(c, e)
    ensures Slotted(c, Connect(c, w, e).e)
  {
    hide SendClientHello, Renegotiate, Slotted;
    RenegotiateKept(c, w, e);
    if !e.known {
      var e1 := NewPeer(e, Client, 0).With(NewHandshake(0, 0));
      var r := SendClientHello(c, w, e1, []);
      Onward(c, e1, if r.err < 0 then r.e else r.e.In(ClientHelloSent));
    }
  }

  lemma ResendKept(c: Config, w: World, e: Endpoint, epoch: uint16, ctype: byte, payload: seq<byte>)
    requires Slotted(c, e)
    ensures Slotted(c, Resend(c, w, e, epoch, ctype, payload).e)
  {
    hide Transmit, Slotted;
    Staying(c, e, Resend(c, w, e, epoch, ctype, payload).e);
  }

  lemma StepKept(c: Config, w: World, e: Endpoint, v: Event)
    requires Tame(w) && InOrder(c, e) && Slotted(c, e)
    ensures Slotted(c, Step(c, w, e, v))
  {
    hide Tame, InOrder, Slotted, HandleMessage, Connect, Renegotiate, Send, Resend, SendAlert, Failing;
    match v
    case Arrives(msg) => MessageKept(c, w, e, msg);
    case Connects => ConnectKept(c, w, e);
    case Renegotiates => RenegotiateKept(c, w, e);
    case Writes(data) => ConnectKept(c, w, e); Staying(c, e, Send(c, w, e, APPLICATION_DATA, data).e);
    case Closes =>
      AlertKept(c, w, e, FATAL, CLOSE_NOTIFY);
      FailingSlotted(c, SendAlert(c, w, e, FATAL, CLOSE_NOTIFY));
      ClosedKept(c, SendAlert(c, w, e, FATAL, CLOSE_NOTIFY), Closing);
    case Resends(epoch, ctype, payload) => ResendKept(c, w, e, epoch, ctype, payload);
  }

  lemma {:induction false} RunKept(c: Config, w: World, e: Endpoint, vs: seq<Event>)
    requires Tame(w) && InOrder(c, e) && Slotted(c, e)
    ensures Slotted(c, RunFrom(c, w, e, vs))
  {
    hide Tame, Step, InOrder, Slotted;
    if vs != [] {
      RunKept(c, w, e, vs[..|vs| - 1]);
      RunOrdered(c, w, e, vs[..|vs| - 1]);
      StepKept(c, w, RunFrom(c, w, e, vs[..|vs| - 1]), vs[|vs| - 1]);
    }
  }

  // ---------------------------------------------------------------- the theorems

  /**
   * In every run, an established connection whose last handshake began with a hello meant for its role uses the
   * keys derived in that handshake, unless it is a server's and was begun in epoch 65535.
   */
  lemma KeyedExactly(c: Config, w: World, vs: seq<Event>)
    requires Tame(w)
    ensures var e := Run(c, w, vs); e.known && e.state == Connected && !e.doneCrossed ==>
      && (Keyed(c.hash, e.s0, e.done) <==> !(e.role == Server && e.doneWrapped))
      && (KeyedInOctets(c.hash, e.s0, e.done) <==> !(e.role == Server && e.doneWrapped))
  {
    hide RunFrom, Tame, Keyed, Stranded, ClientSlots, FinishingSlots, KeyedInOctets, Weak, Phase;
    RunKept(c, w, NOBODY, vs);
    var e := Run(c, w, vs);
    ConnectedIsComplete(c, w, vs);
    if e.known && e.state == Connected && !e.doneCrossed { KeyedOctets(c.hash, e.role, e.s0, e.done); }
    EmptySlot(c.hash, e.done);
  }

  /** The same in octets: the key block is HMACs under the master secret over a string that is written out. */
  ghost predicate KeyedInOctets(h: Hash, s: Option<Security>, t: seq<Milestone>) {
    && |t| > 2 && t[0].HelloExchanged? && t[2].KeysDerived? && s.Some? && s.value.cipher != 0
    && IsKeyBlock(h, t[2].master, t[0].client, t[0].server, s.value.keyBlock)
  }

  lemma KeyedOctets(h: Hash, role: Role, s: Option<Security>, t: seq<Milestone>)
    requires Complete(h, role, t)
    ensures Keyed(h, s, t) ==> KeyedInOctets(h, s, t)
  {
    hide KeyBlockOf, IsKeyBlock, MasterSecret, Announced, Checked;
    KeyBlockOctets(h, t[2].master, t[2].client, t[2].server);
  }

  lemma EmptySlot(h: Hash, t: seq<Milestone>)
    ensures !Keyed(h, None, t) && !KeyedInOctets(h, None, t)
  {
  }

  /** In every run, slot 0 of an established connection is empty after such a handshake and after no other. */
  lemma SlotEmptyExactly(c: Config, w: World, vs: seq<Event>)
    requires Tame(w)
    ensures var e := Run(c, w, vs); e.known && e.state == Connected ==> (e.s0.None? <==> e.role == Server && e.doneWrapped)
    ensures var e := Run(c, w, vs); e.known && e.role == Client ==> e.s0.Some?
  {
    hide RunFrom, Tame, Keyed, ClientSlots, FinishingSlots;
    RunKept(c, w, NOBODY, vs);
  }
}

/** dtls_peer_t and what dtls.c does to it, field by field; each method does what the function of Engine it names says. */
module Connection {
  import opened Bytes
  import opened CcmSpec
  import opened Prf
  import opened Peers
  import opened RecordSpec
  import opened Datagram
  import opened Reorder
  import opened Hello
  import opened Engine
  import opened Wire
  import opened Record
  import Authentic

  /** dtls_handshake_parameters_t; `tmp` is the storage the random values and the master secret share. */
  class HandshakeParameters {
    const tmp: array<byte>
    var ready: bool
    var queue: seq<Message>
    var mseqR: uint16
    var mseqS: uint16
    var transcript: seq<byte>
    var cipher: uint16
    var compression: byte
    var clientAuth: bool
    var pskId: seq<byte>
    ghost var trail: seq<Milestone>
    ghost var crossed: bool
    ghost var wrapped: bool

    /** dtls_handshake_new, the two counters, and LIST_STRUCT_INIT if it is run */
    constructor (mseqR: uint16, mseqS: uint16, ready: bool)
      ensures fresh(tmp) && Valid() && Value() == NewHandshake(mseqR, mseqS).(ready := ready)
    {
      tmp := new byte[64](_ => 0);
      this.ready, queue, this.mseqR, this.mseqS, transcript := ready, [], mseqR, mseqS, [];
      cipher, compression, clientAuth, pskId := NULL_CIPHER, 0, false, [];
      trail, crossed, wrapped := [], false, false;
      new;
      assert tmp[..] == Zeros(64);
    }

    ghost predicate Valid() { tmp.Length == 64 }

    ghost function Value(): Handshake
      requires Valid()
      reads this, tmp
    {
      Handshake(tmp[..], ready, queue, mseqR, mseqS, transcript, cipher, compression, clientAuth, pskId, trail,
                crossed, wrapped)
    }
  }

  class Peer {
    var known: bool
    var role: Role
    var state: State
    var slot0: SecurityParameters?
    var slot1: SecurityParameters?
    var handshake: HandshakeParameters?
    var clock: nat
    ghost var done: seq<Milestone>
    ghost var doneCrossed: bool
    ghost var doneWrapped: bool
    var made: nat
    ghost var sent: seq<Sent>
    ghost var repr: set<object>

    /** The two slots and the handshake share no storage. */
    ghost predicate Valid()
      reads this
    {
      && this in repr && Footprint(slot0) <= repr && Footprint(slot1) <= repr
      && (handshake != null ==> handshake in repr && handshake.tmp in repr)
      && Usable(slot0) && Usable(slot1) && (handshake != null ==> handshake.Valid())
      && Footprint(slot0) !! Footprint(slot1)
      && (handshake != null ==> handshake.tmp !in Footprint(slot0) && handshake.tmp !in Footprint(slot1))
    }

    ghost function View(): Endpoint
      requires Valid()
      reads this, repr
    {
      Endpoint(known, role, state, ValueOf(slot0), ValueOf(slot1), if handshake == null then None else Some(handshake.Value()),
               done, doneCrossed, doneWrapped, clock, made, sent)
    }

    constructor ()
      ensures Valid() && fresh(repr) && View() == NOBODY
    {
      known, role, state, slot0, slot1, handshake, clock := false, Client, State.Init, null, null, null, 0;
      done, doneCrossed, doneWrapped, made, sent, repr := [], false, false, 0, [], {this};
    }

    // -------------------------------------------------------------- sending

    /** CALL(ctx, write, ...) */
    method CallWrite(w: World, ghost s: Option<Security>, ctype: byte, ghost payload: seq<byte>, bytes: seq<byte>) returns (n: int)
      requires Valid()
      modifies this`clock, this`sent
      ensures Valid() && repr == old(repr) && n == w.write(old(clock), bytes)
      ensures View() == old(View()).(clock := old(clock) + 1, sent := old(sent) + [Engine.Sent(role, s, ctype, payload, bytes)])
    {
      n := w.write(clock, bytes);
      sent := sent + [Engine.Sent(role, s, ctype, payload, bytes)];
      clock := clock + 1;
    }

    /**
     * dtls_prepare_record, for one of this peer's slots or for none, in a buffer of MAX_BUF octets. The eight
     * octets of `memory` behind them are not the buffer's: `overrun` tells whether they have been written to.
     */
    method Prepare(c: Config, security: SecurityParameters?, ctype: byte, pieces: seq<seq<byte>>)
      returns (err: int, bytes: seq<byte>, overrun: bool)
      requires Valid() && |pieces| >= 1 && (security == null || security == slot0 || security == slot1)
      modifies repr
      ensures Valid() && repr == old(repr)
      ensures View() == CountedUp(old(View()), security == old(slot0), security == old(slot1))
      ensures err == if Room(old(ValueOf(security)), |Flat(pieces)|) then 0 else Fatal(INTERNAL_ERROR)
      ensures err == 0 ==> bytes == Protect(c.aes, role, old(ValueOf(security)), ctype, Flat(pieces))
      ensures overrun <==> Keyed(old(ValueOf(security))) && 172 <= |Flat(pieces)| <= 179
    {
      hide Protect, Carries, Flat, Bumped;
      ghost var s, n := ValueOf(security), |Flat(pieces)|;
      var memory := new byte[MAX_BUF + 8];
      var len, spilt;
      err, len, spilt := PrepareRecord(c.aes, role, security, ctype, pieces, memory, MAX_BUF);
      ProtectLength(c.aes, role, s, ctype, Flat(pieces));
      bytes := if err == 0 then memory[..len] else [];
      overrun := |bytes| > MAX_BUF;
    }

    /** dtls_send_multi: the record is built, offered to the callback, and the result translated. */
    method SendMulti(c: Config, w: World, security: SecurityParameters?, ctype: byte, pieces: seq<seq<byte>>) returns (err: int)
      requires Valid() && |pieces| >= 1 && (security == null || security == slot0 || security == slot1)
      modifies repr
      ensures Valid() && repr == old(repr)
      ensures Outcome(View(), err) == Transmit(c, w, CountedUp(old(View()), security == old(slot0), security == old(slot1)),
                                               old(ValueOf(security)), ctype, Flat(pieces))
    {
      hide Protect, Flat, Bumped, Valid, View, ValueOf, Footprint;
      Fields();
      ghost var s := ValueOf(security);
      var res, bytes, overrun := Prepare(c, security, ctype, pieces);
      if res < 0 { return res; }
      var overall := |Flat(pieces)|;
      Fields();
      var n := CallWrite(w, s, ctype, Flat(pieces), bytes);
      err := if n <= 0 then n else overall - (|bytes| - n);
    }

    /** What a view shows of the fields. */
    lemma Fields()
      requires Valid()
      ensures Usable(slot0) && Usable(slot1) && (slot0 == slot1 ==> slot0 == null)
      ensures var e := View();
        && e.known == known && e.role == role && e.state == state && e.clock == clock && e.sent == sent && e.made == made
        && e.doneCrossed == doneCrossed && e.doneWrapped == doneWrapped && e.done == done && e.s0 == ValueOf(slot0) && e.s1 == ValueOf(slot1)
        && (e.hs.Some? <==> handshake != null) && (e.s0.Some? <==> slot0 != null) && (e.s1.Some? <==> slot1 != null)
      ensures handshake != null ==> handshake.Valid() && View().hs.value == handshake.Value()
      ensures handshake != null ==> handshake in repr && handshake.tmp in repr
      ensures this in repr && Footprint(slot0) <= repr && Footprint(slot1) <= repr
      ensures slot1 != null ==> slot1 in repr && slot1.keyBlock in repr
    {
    }

    /** dtls_send */
    method Send(c: Config, w: World, ctype: byte, buf: seq<byte>) returns (err: int)
      requires Valid()
      modifies repr
      ensures Valid() && repr == old(repr)
      ensures Outcome(View(), err) == Engine.Send(c, w, old(View()), ctype, buf)
    {
      hide Transmit, Flat, Valid, View, ValueOf, Footprint;
      Fields();
      FlatOne(buf);
      err := SendMulti(c, w, slot0, ctype, [buf]);
    }

    /** dtls_set_handshake_header, and the hashing of the message */
    method SetHandshakeHeader(kind: byte, data: seq<byte>, addHash: bool) returns (buf: seq<byte>)
      requires Valid()
      modifies handshake
      ensures Valid() && repr == old(repr) && slot0 == old(slot0)
      ensures View() == Counted(old(View()), kind, data, addHash) && buf + data == HandshakeMessage(old(View()), kind, data)
    {
      hide HandshakeHeader;
      buf := HandshakeHeader(kind, |data|, if handshake != null then handshake.mseqS else 0);
      HashedInTwo(View(), buf, data);
      if handshake != null {
        handshake.mseqS := Next(handshake.mseqS);
        if addHash {
          handshake.transcript := handshake.transcript + buf;
          handshake.transcript := handshake.transcript + data;
        }
      }
    }

    /** dtls_send_handshake_msg_hash */
    method SendHandshake(c: Config, w: World, kind: byte, data: seq<byte>, addHash: bool) returns (err: int)
      requires Valid()
      modifies repr
      ensures Valid() && repr == old(repr)
      ensures Outcome(View(), err) == Engine.SendHandshake(c, w, old(View()), kind, data, addHash)
    {
      hide Transmit, HandshakeMessage, Counted, Flat, Valid, View, ValueOf, Footprint;
      Fields();
      var buf := SetHandshakeHeader(kind, data, addHash);
      FlatTwo(buf, data);
      Fields();
      err := SendMulti(c, w, slot0, HANDSHAKE, [buf, data]);
    }

    // -------------------------------------------------------------- single changes

    method Become(s: State)
      requires Valid()
      modifies this`state
      ensures Valid() && repr == old(repr) && View() == old(View()).In(s)
    {
      state := s;
    }

    method Tick()
      requires Valid()
      modifies this`clock
      ensures Valid() && repr == old(repr) && View() == old(View()).(clock := old(clock) + 1)
    {
      clock := clock + 1;
    }

    /** For the record only. */
    ghost method Mark(x: Milestone)
      requires Valid() && handshake != null
      modifies handshake`trail
      ensures Valid() && repr == old(repr)
      ensures View() == old(View()).With(old(View()).hs.value.(trail := old(View()).hs.value.trail + [x]))
    {
      handshake.trail := handshake.trail + [x];
    }

    /** update_hs_hash */
    method Absorb(m: Message)
      requires Valid() && handshake != null
      modifies handshake`transcript
      ensures Valid() && repr == old(repr) && View() == Absorbed(old(View()), m)
    {
      handshake.transcript := handshake.transcript + m;
    }

    /** clear_hs_hash */
    method ClearHash()
      requires Valid() && handshake != null
      modifies handshake`transcript
      ensures Valid() && repr == old(repr) && View() == old(View()).With(old(View()).hs.value.(transcript := []))
    {
      handshake.transcript := [];
    }

    /** The end of handle_handshake_msg. */
    method CountMessage(err: int)
      requires Valid()
      modifies repr
      ensures Valid() && repr == old(repr) && Outcome(View(), err) == Count(Outcome(old(View()), err))
    {
      if handshake != null && err >= 0 { handshake.mseqR := Next(handshake.mseqR); }
    }

    /** The new state, and the count. */
    method Advance(s: State, err: int)
      requires Valid()
      modifies repr
      ensures Valid() && repr == old(repr) && Outcome(View(), err) == Count(Outcome(old(View()).In(s), err))
    {
      hide Valid, View, ValueOf, Footprint, Count;
      Fields();
      Become(s);
      Fields();
      CountMessage(err);
    }

    /** memcpy into tmp.random.client (at 0) or tmp.random.server (at 32). */
    method StoreRandom(at: nat, random: Random)
      requires Valid() && handshake != null && (at == 0 || at == 32)
      modifies handshake.tmp
      ensures Valid() && repr == old(repr)
      ensures var h := old(View()).hs.value;
        View() == old(View()).With(h.(tmp := if at == 0 then random + h.tmp[32..] else h.tmp[..32] + random))
    {
      Copy(handshake.tmp, at, random);
      assert handshake.tmp[..] == if at == 0 then random + old(handshake.tmp[..])[32..] else old(handshake.tmp[..])[..32] + random;
    }

    method SetPskId(id: seq<byte>)
      requires Valid() && handshake != null
      modifies handshake`pskId
      ensures Valid() && repr == old(repr) && View() == old(View()).With(old(View()).hs.value.(pskId := id))
    {
      handshake.pskId := id;
    }

    method SetCipher(cipher: uint16, compression: byte)
      requires Valid() && handshake != null
      modifies handshake`cipher, handshake`compression
      ensures Valid() && repr == old(repr)
      ensures View() == old(View()).With(old(View()).hs.value.(cipher := cipher, compression := compression))
    {
      handshake.cipher, handshake.compression := cipher, compression;
    }

    method AskClientAuth()
      requires Valid() && handshake != null
      modifies handshake`clientAuth
      ensures Valid() && repr == old(repr) && View() == old(View()).With(old(View()).hs.value.(clientAuth := true))
    {
      handshake.clientAuth := true;
    }

    method SetQueue(q: seq<Message>)
      requires Valid() && handshake != null
      modifies handshake`queue
      ensures Valid() && repr == old(repr) && View() == old(View()).With(old(View()).hs.value.(queue := q))
    {
      handshake.queue := q;
    }

    /** For the record only. */
    ghost method Cross(yes: bool)
      requires Valid() && handshake != null
      modifies handshake`crossed
      ensures Valid() && repr == old(repr)
      ensures var h := old(View()).hs.value; View() == old(View()).With(h.(crossed := h.crossed || yes))
    {
      handshake.crossed := handshake.crossed || yes;
    }

    /** dtls_handshake_new, hung into the peer */
    method StartHandshake(mseqR: uint16, mseqS: uint16, ready: bool)
      requires Valid()
      modifies this`handshake, this`repr
      ensures Valid() && fresh(repr - old(repr)) && View() == old(View()).With(NewHandshake(mseqR, mseqS).(ready := ready))
    {
      handshake := new HandshakeParameters(mseqR, mseqS, ready);
      repr := repr + {handshake, handshake.tmp};
    }

    /** dtls_handshake_free, and the new state */
    method EndHandshake()
      requires Valid() && handshake != null
      modifies this
      ensures Valid() && repr == old(repr) && View() == Ended(old(View()))
    {
      hide Valid, View, ValueOf, Footprint;
      Fields();
      Remember(handshake.trail, handshake.crossed, handshake.wrapped);
      Fields();
      DropHandshake();
      Fields();
      Become(Connected);
    }

    /** For the record only. */
    ghost method Remember(trail: seq<Milestone>, crossed: bool, wrapped: bool)
      requires Valid()
      modifies this`done, this`doneCrossed, this`doneWrapped
      ensures Valid() && repr == old(repr)
      ensures View() == old(View()).(done := trail, doneCrossed := crossed, doneWrapped := wrapped)
    {
      done, doneCrossed, doneWrapped := trail, crossed, wrapped;
    }

    method DropHandshake()
      requires Valid()
      modifies this`handshake
      ensures Valid() && repr == old(repr) && View() == old(View()).(hs := None)
      ensures handshake == null
    {
      handshake := null;
    }

    /** dtls_free_peer */
    method Forget()
      requires Valid()
      modifies this
      ensures Valid() && repr == old(repr) && View() == Forgotten(old(View()))
      ensures slot0 == null && slot1 == null && handshake == null && made == old(made)
    {
      hide Valid, View, ValueOf, Footprint;
      Unlink();
      Fields();
      Reset();
    }

    method Unlink()
      requires Valid()
      modifies this`slot0, this`slot1, this`handshake
      ensures Valid() && repr == old(repr) && View() == old(View()).(s0 := None, s1 := None, hs := None)
      ensures slot0 == null && slot1 == null && handshake == null
    {
      slot0, slot1, handshake := null, null, null;
    }

    method Reset()
      requires Valid()
      modifies this`known, this`role, this`state, this`done, this`doneCrossed, this`doneWrapped
      ensures Valid() && repr == old(repr)
      ensures View() == old(View()).(known := false, role := Client, state := State.Init, done := [], doneCrossed := false,
                                     doneWrapped := false)
    {
      hide Valid, View, ValueOf, Footprint;
      Remember([], false, false);
      Fields();
      Depart();
    }

    method Depart()
      requires Valid()
      modifies this`known, this`role, this`state
      ensures Valid() && repr == old(repr) && View() == old(View()).(known := false, role := Client, state := State.Init)
    {
      known, role, state := false, Client, State.Init;
    }

    /** dtls_new_peer */
    method NewPeer(role: Role, rseq: nat)
      requires Valid()
      modifies this
      ensures Valid() && fresh(repr - old(repr)) && View() == Engine.NewPeer(old(View()), role, rseq)
    {
      hide Valid, View, ValueOf, Footprint;
      Fields();
      Forget();
      Fields();
      FillPeer(role, rseq);
    }

    method FillPeer(role: Role, rseq: nat)
      requires Valid() && slot0 == null && slot1 == null && handshake == null
      modifies this
      ensures Valid() && fresh(repr - old(repr))
      ensures View() == old(View()).(known := true, role := role, s0 := Some(NewSecurity(old(made)).(rseq := rseq)), made := old(made) + 1)
    {
      var s := new SecurityParameters(made);
      s.rseq := rseq;
      known, this.role, slot0, made, repr := true, role, s, made + 1, repr + {s, s.keyBlock};
    }

    /** dtls_security_params_switch: the two pointers change places. */
    method Switch()
      requires Valid()
      modifies this`slot0, this`slot1
      ensures Valid() && repr == old(repr) && View() == Switched(old(View()))
    {
      slot0, slot1 := slot1, slot0;
    }

    /** dtls_security_params_free_other */
    method FreeOther()
      requires Valid()
      modifies this`slot1
      ensures Valid() && repr == old(repr) && View() == FreedOther(old(View()))
    {
      if slot0 == null || slot1 == null || slot0.epoch < slot1.epoch { return; }
      slot1 := null;
    }

    /** dtls_security_params_next */
    method NextSecurity()
      requires Valid()
      modifies this`slot1, this`made, this`repr
      ensures Valid() && fresh(repr - old(repr)) && slot1 != null && fresh(slot1) && fresh(slot1.keyBlock)
      ensures handshake == old(handshake) && slot0 == old(slot0) && View() == NextParams(old(View()))
    {
      hide Valid, View, ValueOf, Footprint;
      Fields();
      SlotEpoch(slot0);
      NewSlot(if slot0 != null then Next(slot0.epoch) else 1);
    }

    method NewSlot(epoch: uint16)
      requires Valid()
      modifies this`slot1, this`made, this`repr
      ensures Valid() && fresh(repr - old(repr)) && slot1 != null && fresh(slot1) && fresh(slot1.keyBlock)
      ensures View() == old(View()).(s1 := Some(NewSecurity(old(made)).(epoch := epoch)), made := old(made) + 1)
    {
      hide Valid, View, ValueOf, Footprint;
      Fields();
      var s := new SecurityParameters(made);
      s.epoch := epoch;
      SlotEpoch(s);
      PutSlot(s);
    }

    /** A new object in slot 1. */
    method PutSlot(s: SecurityParameters)
      requires Valid() && s.Valid() && s !in repr && s.keyBlock !in repr
      modifies this`slot1, this`made, this`repr
      ensures Valid() && repr == old(repr) + {s, s.keyBlock} && slot1 == s
      ensures View() == old(View()).(s1 := Some(s.Value()), made := old(made) + 1)
    {
      slot1, repr, made := s, repr + {s, s.keyBlock}, made + 1;
    }

    // -------------------------------------------------------------- keys

    /**
     * calculate_key_block: the pre-master secret is built in the new key block, the master secret beside it,
     * the keys over the former and the latter over the random values.
     */
    method CalculateKeyBlock(c: Config, w: World) returns (err: int)
      requires Valid() && handshake != null
      modifies this`slot1, this`made, this`repr, handshake, handshake.tmp
      ensures Valid() && fresh(repr - old(repr)) && handshake == old(handshake)
      ensures Outcome(View(), err) == Engine.CalculateKeyBlock(c, w, old(View()))
      ensures err >= 0 ==> Derives(c.hash, old(View()), View())
    {
      hide Derives, Engine.CalculateKeyBlock, NextParams, PreMasterSecret, KeysFrom, Wrapped, Valid, View, ValueOf, Footprint;
      ghost var e := View();
      Fields();
      DerivationOctets(c, w, e);
      NextSecurity();
      Fields();
      var code, secret := PreMasterInto(w);
      Fields();
      if code < 0 {
        NoKeyBlock(c, w, e, code);
        return code;
      }
      KeyBlockFrom(c, w, e, secret);
      InstallKeys(c, secret);
      err := 0;
    }

    /** The keys, and for the record whether their epoch is the one after 65535. */
    method InstallKeys(c: Config, secret: seq<byte>)
      requires Valid() && handshake != null && slot1 != null
      modifies slot1, slot1.keyBlock, handshake, handshake.tmp
      ensures Valid() && repr == old(repr) && View() == Wrapped(KeysFrom(c, old(View()), secret), LastEpoch(old(View())))
    {
      hide KeysFrom, Wrapped, Valid, View, ValueOf, Footprint;
      Fields();
      SlotEpoch(slot0);
      DeriveKeys(c, secret);
      Fields();
      SlotEpoch(slot0);
      Wrap(slot0 != null && slot0.epoch == 0xffff);
    }

    /** For the record only. */
    ghost method Wrap(yes: bool)
      requires Valid() && handshake != null
      modifies handshake`wrapped
      ensures Valid() && repr == old(repr) && View() == Wrapped(old(View()), yes)
    {
      handshake.wrapped := yes;
    }

    /** The pre-master secret, put together in the storage of the key block. */
    method PreMasterInto(w: World) returns (code: int, secret: seq<byte>)
      requires Valid() && handshake != null && slot1 != null
      modifies slot1.keyBlock
      ensures Valid() && repr == old(repr)
      ensures match PreMasterSecret(w, old(View()), old(View()).hs.value)
              case NoSecret(x) => code == x && View() == old(View())
              case Secret(x) => code == 0 && secret == x && SameButBlock(old(View()), View())
    {
      hide Splice, PreMaster;
      if handshake.cipher == PSK_CIPHER {
        match w.psk(clock, Key(handshake.pskId))
        case Failed(x) => return x, [];
        case Given(key) =>
          var len := PskPreMasterSecret(key, slot1.keyBlock, PSK_KEY_BLOCK_ROOM);
          if len < 0 { return Fatal(INTERNAL_ERROR), []; }
          SpliceReads(old(slot1.keyBlock[..]), 0, PreMaster(key));
          return 0, slot1.keyBlock[..len];
      } else if handshake.cipher == ECDHE_CIPHER {
        secret := w.ecc(clock).secret;
        Copy(slot1.keyBlock, 0, secret);
        return 0, secret;
      }
      return Fatal(INTERNAL_ERROR), [];
    }

    /** Master secret and key block, and the rest of the new security parameters. */
    method DeriveKeys(c: Config, secret: seq<byte>)
      requires Valid() && handshake != null && slot1 != null
      modifies slot1, slot1.keyBlock, handshake, handshake.tmp
      ensures Valid() && repr == old(repr)
      ensures View() == KeysFrom(c, old(View()), secret)
    {
      hide Splice, PHash;
      var client, server := handshake.tmp[..32], handshake.tmp[32..];
      var masterSecret := new byte[48];
      ghost var stale := masterSecret[..];
      var n := PHashInto(c.hash, secret, MASTER_SECRET, client, server, masterSecret, 0, 48, true, true);
      WholeSplice(stale, MasterSecret(c.hash, secret, client, server));
      var master := masterSecret[..];
      n := PHashInto(c.hash, master, KEY_EXPANSION, server, client, slot1.keyBlock, 0, 40, true, true);
      WholeSplice(old(slot1.keyBlock[..]), KeyBlockOf(c.hash, master, client, server));
      ghost var tmp := handshake.tmp[..];
      Copy(handshake.tmp, 0, master);
      FrontSplice(tmp, master);
      slot1.cipher, slot1.compression, slot1.rseq := handshake.cipher, handshake.compression, 0;
      handshake.trail := handshake.trail + [KeysDerived(client, server, secret, master)];
    }

    /** dtls_send_finished */
    method SendFinished(c: Config, w: World) returns (err: int)
      requires Valid() && handshake != null
      modifies repr
      ensures Valid() && repr == old(repr)
      ensures Outcome(View(), err) == Engine.SendFinished(c, w, old(View()))
    {
      hide VerifyData, Engine.SendHandshake, Valid, View, ValueOf, Footprint;
      Fields();
      var master := handshake.tmp[..48];
      var verifyData := VerifyData(c.hash, master, role, handshake.transcript);
      Mark(FinishedSent(master, handshake.transcript, verifyData, handshake.mseqS));
      err := SendHandshake(c, w, 20, verifyData, true);
    }

    /** ChangeCipherSpec, the switch, and Finished. */
    method SendServerFinished(c: Config, w: World) returns (err: int)
      requires Valid() && handshake != null
      modifies repr
      ensures Valid() && repr == old(repr)
      ensures Outcome(View(), err) == Engine.SendServerFinished(c, w, old(View()))
    {
      hide Engine.Send, Engine.SendFinished, Switched, Valid, View, ValueOf, Footprint;
      Fields();
      err := Send(c, w, CHANGE_CIPHER_SPEC, [1]);
      Fields();
      if err < 0 { return; }
      Switch();
      Fields();
      err := SendFinished(c, w);
    }

    // -------------------------------------------------------------- messages of the client

    /** A new random value, or a new transcript. */
    method ReadyHello(w: World, cookie: seq<byte>)
      requires Valid() && handshake != null
      modifies handshake, handshake.tmp
      ensures Valid() && repr == old(repr) && View() == HelloReady(w, old(View()), cookie)
    {
      hide Valid, View, ValueOf, Footprint;
      Fields();
      if cookie == [] { StoreRandom(0, w.random(clock)); } else { ClearHash(); }
    }

    /** dtls_send_client_hello */
    method SendClientHello(c: Config, w: World, cookie: seq<byte>) returns (err: int)
      requires Valid() && handshake != null && |cookie| < 256
      modifies repr
      ensures Valid() && repr == old(repr)
      ensures Outcome(View(), err) == Engine.SendClientHello(c, w, old(View()), cookie)
    {
      hide HelloReady, ClientHelloBody, Engine.SendHandshake, Valid, View, ValueOf, Footprint;
      Fields();
      if |cookie| > 32 { return Fatal(HANDSHAKE_FAILURE); }
      ReadyHello(w, cookie);
      Fields();
      var buf := ClientHelloBody(c.psk, c.verifiesKey, handshake.tmp[..32], cookie);
      err := SendHandshake(c, w, 1, buf, cookie != []);
    }

    /** The ClientKeyExchange with a pre-shared key */
    method SendIdentity(c: Config, w: World, id: Short) returns (err: int)
      requires Valid() && handshake != null
      modifies repr
      ensures Valid() && repr == old(repr)
      ensures Outcome(View(), err) == Engine.SendIdentity(c, w, old(View()), id)
    {
      hide Engine.SendHandshake, Valid, View, ValueOf, Footprint;
      Fields();
      SetPskId(id);
      Fields();
      err := SendHandshake(c, w, 16, BigEndian(|id|, 2) + id, true);
    }

    /** dtls_send_client_key_exchange */
    method SendClientKeyExchange(c: Config, w: World) returns (err: int)
      requires Valid() && handshake != null
      modifies repr
      ensures Valid() && repr == old(repr)
      ensures Outcome(View(), err) == Engine.SendClientKeyExchange(c, w, old(View()))
    {
      hide Engine.SendIdentity, Engine.SendHandshake, Valid, View, ValueOf, Footprint;
      Fields();
      if handshake.cipher == PSK_CIPHER {
        match w.psk(clock, Identity(handshake.pskId))
        case Failed(code) => return code;
        case Given(id) =>
          err := SendIdentity(c, w, id);
      } else if handshake.cipher == ECDHE_CIPHER {
        err := SendHandshake(c, w, 16, w.ecc(clock).exchange, true);
      } else {
        err := Fatal(INTERNAL_ERROR);
      }
    }

    /** dtls_send_certificate_ecdsa */
    method SendCertificate(c: Config, w: World) returns (err: int)
      requires Valid()
      modifies repr
      ensures Valid() && repr == old(repr)
      ensures Outcome(View(), err) == Engine.SendCertificate(c, w, old(View()))
    {
      hide Engine.SendHandshake, Valid, View, ValueOf, Footprint;
      Fields();
      err := w.ecc(clock).key;
      if err < 0 { return; }
      err := SendHandshake(c, w, 11, w.ecc(clock).certificate, true);
    }

    // -------------------------------------------------------------- messages of the server

    /** dtls_send_server_hello */
    method SendServerHello(c: Config, w: World) returns (err: int)
      requires Valid() && handshake != null
      modifies repr
      ensures Valid() && repr == old(repr)
      ensures Outcome(View(), err) == Engine.SendServerHello(c, w, old(View()))
    {
      hide ServerHelloBody, Engine.SendHandshake, Valid, View, ValueOf, Footprint;
      Fields();
      var random := w.random(clock);
      StoreRandom(32, random);
      Fields();
      err := SendHandshake(c, w, 2, ServerHelloBody(handshake.cipher, random), true);
    }

    /** Certificate, ServerKeyExchange and perhaps CertificateRequest. */
    method SendEcdheMessages(c: Config, w: World) returns (err: int)
      requires Valid()
      modifies repr
      ensures Valid() && repr == old(repr)
      ensures Outcome(View(), err) == Engine.SendEcdheMessages(c, w, old(View()))
    {
      hide Engine.SendCertificate, Engine.SendHandshake, Valid, View, ValueOf, Footprint;
      err := SendCertificate(c, w);
      if err < 0 { return; }
      Fields();
      err := SendHandshake(c, w, 12, w.ecc(clock).exchange, true);
      if err < 0 { return; }
      if c.ownKey && c.verifiesKey { err := SendHandshake(c, w, 13, [1, 64, 0, 2, 4, 3, 0, 0], true); }
    }

    /** dtls_send_server_key_exchange_psk, when there is a hint */
    method SendHint(c: Config, w: World) returns (err: int)
      requires Valid()
      modifies repr
      ensures Valid() && repr == old(repr)
      ensures Outcome(View(), err) == Engine.SendHint(c, w, old(View()))
    {
      hide Engine.SendHandshake, Valid, View, ValueOf, Footprint;
      Fields();
      match w.psk(clock, Hint)
      case Failed(code) => return code;
      case Given(hint) =>
        if hint == [] { return 0; }
        err := SendHandshake(c, w, 12, BigEndian(|hint|, 2) + hint, true);
    }

    /** dtls_send_server_hello_msgs */
    method SendServerHelloMessages(c: Config, w: World) returns (err: int)
      requires Valid() && handshake != null
      modifies repr
      ensures Valid() && repr == old(repr)
      ensures Outcome(View(), err) == Engine.SendServerHelloMessages(c, w, old(View()))
    {
      hide Engine.SendServerHello, Engine.SendEcdheMessages, Engine.SendHint, Engine.SendHandshake, Valid, View,
        ValueOf, Footprint;
      Fields();
      var cipher := handshake.cipher;
      err := SendServerHello(c, w);
      if err < 0 { return; }
      if cipher == ECDHE_CIPHER {
        err := SendEcdheMessages(c, w);
        if err < 0 { return; }
      }
      if cipher == PSK_CIPHER {
        err := SendHint(c, w);
        if err < 0 { return; }
      }
      err := SendHandshake(c, w, 14, [], true);
      if err < 0 { return; }
      err := 0;
    }

    // -------------------------------------------------------------- what the client receives

    /** check_server_hello_verify_request */
    method OnHelloVerifyRequest(c: Config, w: World, m: Message) returns (err: int)
      requires Valid() && handshake != null
      modifies repr
      ensures Valid() && fresh(repr - old(repr))
      ensures Outcome(View(), err) == Engine.OnHelloVerifyRequest(c, w, old(View()), m)
    {
      hide Engine.SendClientHello, Count, Range, Valid, View, ValueOf, Footprint;
      Fields();
      if state != ClientHelloSent { return Fatal(UNEXPECTED_MESSAGE); }
      if |m| < 15 { return Fatal(DECODE_ERROR); }
      err := SendClientHello(c, w, Range(Input(m, w.stale(clock)), 15, m[14]));
      Fields();
      CountMessage(err);
    }

    /** check_server_hello */
    method CheckServerHello(c: Config, w: World, m: Message) returns (err: int)
      requires Valid() && handshake != null
      modifies handshake, handshake.tmp
      ensures Valid() && repr == old(repr)
      ensures Outcome(View(), err) == Engine.CheckServerHello(c, w, old(View()), m)
    {
      hide Absorbed, ChosenParameters, Octets2, Range, Valid, View, ValueOf, Footprint;
      Fields();
      if |m| < 24 { return Fatal(DECODE_ERROR); }
      ghost var e := View();
      var i := Input(m, w.stale(clock));
      Absorb(m);
      Fields();
      HashOnly(e, m);
      if Octets2(i, 12) != VERSION { return Fatal(PROTOCOL_VERSION); }
      StoreRandom(32, Range(i, 14, 32));
      Fields();
      err := CheckParameters(c, w, i);
    }

    /** The second half of check_server_hello. */
    method CheckParameters(c: Config, w: World, i: Input) returns (err: int)
      requires Valid() && handshake != null
      modifies handshake`cipher, handshake`compression
      ensures Valid() && repr == old(repr)
      ensures Outcome(View(), err) == ChosenParameters(c, w, old(View()), i)
    {
      hide Octets2, Octet, Skip, SizeT, ExtensionsOk, Known, Valid, View, ValueOf, Footprint;
      Fields();
      match Skip(i, 46, SizeT(|i.data| - 46))
      case None => return Fatal(DECODE_ERROR);
      case Some((p, left)) =>
        var cipher := Octets2(i, p);
        SetCipher(cipher, handshake.compression);
        Fields();
        if !Known(c.psk, c.verifiesKey, cipher) { return Fatal(INSUFFICIENT_SECURITY); }
        if Octet(i, p + 2) != 0 { return Fatal(INSUFFICIENT_SECURITY); }
        var ok := CheckTlsExtension(i, p + 3, SizeT(left - 3), cipher, false);
        err := if ok then 0 else Fatal(HANDSHAKE_FAILURE);
    }

    /** SERVER_HELLO */
    method OnServerHello(c: Config, w: World, m: Message) returns (err: int)
      requires Valid() && handshake != null
      modifies repr
      ensures Valid() && fresh(repr - old(repr))
      ensures Outcome(View(), err) == Engine.OnServerHello(c, w, old(View()), m)
    {
      hide Engine.CheckServerHello, Count, Valid, View, ValueOf, Footprint;
      Fields();
      if state != ClientHelloSent { return Fatal(UNEXPECTED_MESSAGE); }
      err := CheckServerHello(c, w, m);
      Fields();
      if err < 0 { return; }
      Mark(HelloExchanged(handshake.tmp[..32], handshake.tmp[32..]));
      Fields();
      Advance(if handshake.cipher == ECDHE_CIPHER then WaitServerCertificate else WaitServerHelloDone, 0);
      err := 0;
    }

    /** A body the elliptic-curve half examines */
    method Judge(w: World, m: Message) returns (err: int)
      requires Valid() && handshake != null
      modifies handshake`transcript
      ensures Valid() && repr == old(repr)
      ensures Outcome(View(), err) == Engine.Judged(w, old(View()), m)
    {
      hide Valid, View, ValueOf, Footprint;
      Fields();
      Absorb(m);
      Fields();
      err := w.ecc(clock).verdict;
      if err >= 0 { err := 0; }
    }

    /** check_server_certificate, which servers use as well */
    method OnCertificate(w: World, m: Message) returns (err: int)
      requires Valid() && handshake != null
      modifies repr
      ensures Valid() && fresh(repr - old(repr))
      ensures Outcome(View(), err) == Engine.OnCertificate(w, old(View()), m)
    {
      hide Judged, Count, Valid, View, ValueOf, Footprint;
      Fields();
      if role == Client && state != WaitServerCertificate { return Fatal(UNEXPECTED_MESSAGE); }
      if role == Server && state != WaitClientCertificate { return Fatal(UNEXPECTED_MESSAGE); }
      err := Judge(w, m);
      Fields();
      if err < 0 { return; }
      Advance(if role == Client then WaitServerKeyExchange else WaitClientKeyExchange, 0);
      err := 0;
    }

    /** check_server_key_exchange_psk */
    method CheckHint(m: Message) returns (err: int)
      requires Valid() && handshake != null
      modifies handshake`transcript, handshake`pskId
      ensures Valid() && repr == old(repr)
      ensures Outcome(View(), err) == Engine.CheckHint(old(View()), m)
    {
      hide ShortField, Valid, View, ValueOf, Footprint;
      Fields();
      Absorb(m);
      Fields();
      match ShortField(m, Fatal(DECODE_ERROR))
      case NoSecret(code) => return code;
      case Secret(hint) =>
        SetPskId(hint);
        err := 0;
    }

    /** SERVER_KEY_EXCHANGE; with neither cipher negotiated nothing is looked at */
    method OnServerKeyExchange(w: World, m: Message) returns (err: int)
      requires Valid() && handshake != null
      modifies repr
      ensures Valid() && fresh(repr - old(repr))
      ensures Outcome(View(), err) == Engine.OnServerKeyExchange(w, old(View()), m)
    {
      hide Judged, Engine.CheckHint, Count, Valid, View, ValueOf, Footprint;
      Fields();
      err := 0;
      if handshake.cipher == ECDHE_CIPHER {
        if state != WaitServerKeyExchange { return Fatal(UNEXPECTED_MESSAGE); }
        err := Judge(w, m);
      } else if handshake.cipher == PSK_CIPHER {
        if state != WaitServerHelloDone { return Fatal(UNEXPECTED_MESSAGE); }
        err := CheckHint(m);
      }
      Fields();
      if err < 0 { return; }
      Advance(WaitServerHelloDone, 0);
      err := 0;
    }

    /** check_certificate_request */
    method OnCertificateRequest(w: World, m: Message) returns (err: int)
      requires Valid() && handshake != null
      modifies repr
      ensures Valid() && fresh(repr - old(repr))
      ensures Outcome(View(), err) == Engine.OnCertificateRequest(w, old(View()), m)
    {
      hide Judged, Count, Valid, View, ValueOf, Footprint;
      Fields();
      if state != WaitServerHelloDone { return Fatal(UNEXPECTED_MESSAGE); }
      err := Judge(w, m);
      Fields();
      if err < 0 { return; }
      AskClientAuth();
      Fields();
      CountMessage(0);
      err := 0;
    }

    /** The first half of check_server_hellodone: certificate, key exchange, proof of possession */
    method SendKeyExchangeFlight(c: Config, w: World) returns (err: int)
      requires Valid() && handshake != null
      modifies repr
      ensures Valid() && repr == old(repr)
      ensures Outcome(View(), err) == Engine.SendKeyExchangeFlight(c, w, old(View()))
    {
      hide Engine.SendCertificate, Engine.SendClientKeyExchange, Engine.SendHandshake, Valid, View, ValueOf, Footprint;
      Fields();
      var auth := handshake.clientAuth;
      if auth {
        err := SendCertificate(c, w);
        if err < 0 { return; }
      }
      Fields();
      err := SendClientKeyExchange(c, w);
      Fields();
      if err < 0 { return; }
      Mark(KeyExchanged);
      Fields();
      if !auth { return 0; }
      err := SendHandshake(c, w, 15, w.ecc(clock).verify, true);
    }

    /** check_server_hellodone */
    method CheckServerHelloDone(c: Config, w: World, m: Message) returns (err: int)
      requires Valid() && handshake != null
      modifies repr
      ensures Valid() && fresh(repr - old(repr))
      ensures Outcome(View(), err) == Engine.CheckServerHelloDone(c, w, old(View()), m)
    {
      hide Absorbed, Engine.SendKeyExchangeFlight, Engine.CalculateKeyBlock, Engine.Send, Engine.SendFinished,
        Switched, Valid, View, ValueOf, Footprint;
      Fields();
      Absorb(m);
      Fields();
      err := SendKeyExchangeFlight(c, w);
      Fields();
      if err < 0 { return; }
      err := CalculateKeyBlock(c, w);
      Fields();
      if err < 0 { return; }
      err := SendServerFinished(c, w);
    }

    /** SERVER_HELLO_DONE */
    method OnServerHelloDone(c: Config, w: World, m: Message) returns (err: int)
      requires Valid() && handshake != null
      modifies repr
      ensures Valid() && fresh(repr - old(repr))
      ensures Outcome(View(), err) == Engine.OnServerHelloDone(c, w, old(View()), m)
    {
      hide Engine.CheckServerHelloDone, Count, Valid, View, ValueOf, Footprint;
      Fields();
      if state != WaitServerHelloDone { return Fatal(UNEXPECTED_MESSAGE); }
      err := CheckServerHelloDone(c, w, m);
      Fields();
      if err < 0 { return; }
      Advance(WaitChangeCipherSpec, err);
    }

    // -------------------------------------------------------------- what the server receives

    /** check_client_keyexchange */
    method CheckClientKeyExchange(w: World, m: Message) returns (err: int)
      requires Valid() && handshake != null
      modifies handshake`pskId
      ensures Valid() && repr == old(repr)
      ensures Outcome(View(), err) == Engine.CheckClientKeyExchange(w, old(View()), m)
    {
      hide ShortField, Valid, View, ValueOf, Footprint;
      Fields();
      err := 0;
      if handshake.cipher == ECDHE_CIPHER {
        err := w.ecc(clock).verdict;
        if err >= 0 { err := 0; }
      } else if handshake.cipher == PSK_CIPHER {
        match ShortField(m, Fatal(HANDSHAKE_FAILURE))
        case NoSecret(code) => return code;
        case Secret(id) => SetPskId(id);
      }
    }

    /** CLIENT_KEY_EXCHANGE */
    method OnClientKeyExchange(c: Config, w: World, m: Message) returns (err: int)
      requires Valid() && handshake != null
      modifies repr
      ensures Valid() && fresh(repr - old(repr))
      ensures Outcome(View(), err) == Engine.OnClientKeyExchange(c, w, old(View()), m)
    {
      hide Engine.CheckClientKeyExchange, Exchanged, Count, Valid, View, ValueOf, Footprint;
      Fields();
      if state != WaitClientKeyExchange { return Fatal(UNEXPECTED_MESSAGE); }
      err := CheckClientKeyExchange(w, m);
      Fields();
      if err < 0 { return; }
      Absorb(m);
      Fields();
      ExchangeDone(c);
      Fields();
      CountMessage(0);
      err := 0;
    }

    method ExchangeDone(c: Config)
      requires Valid() && handshake != null
      modifies this`state, handshake`trail
      ensures Valid() && repr == old(repr) && View() == Exchanged(c, old(View()))
    {
      hide Valid, View, ValueOf, Footprint;
      Fields();
      Mark(KeyExchanged);
      Fields();
      Become(if handshake.cipher == ECDHE_CIPHER && c.ownKey && c.verifiesKey then WaitCertificateVerify else WaitChangeCipherSpec);
    }

    /** check_client_certificate_verify; only then is the message hashed */
    method OnCertificateVerify(w: World, m: Message) returns (err: int)
      requires Valid() && handshake != null
      modifies repr
      ensures Valid() && fresh(repr - old(repr))
      ensures Outcome(View(), err) == Engine.OnCertificateVerify(w, old(View()), m)
    {
      hide Count, Valid, View, ValueOf, Footprint;
      Fields();
      if state != WaitCertificateVerify { return Fatal(UNEXPECTED_MESSAGE); }
      err := w.ecc(clock).verdict;
      if err < 0 { return; }
      Absorb(m);
      Fields();
      Advance(WaitChangeCipherSpec, 0);
      err := 0;
    }

    /** check_finished, which changes nothing */
    method CheckFinished(c: Config, m: Message, ghost e: Endpoint) returns (err: int)
      requires Valid() && handshake != null && e == View()
      ensures Valid() && View() == e && repr == old(repr) && handshake == old(handshake)
      ensures err == Engine.CheckFinished(c, e, m) && (err >= 0 ==> |m| >= 24)
      ensures err >= 0 <==> |m| >= 24 && IsVerify(c.hash, e.hs.value.tmp[..48], if role == Client then Server else Client,
                                                  e.hs.value.transcript, m[12..24])
    {
      hide VerifyData, IsVerify;
      if |m| < 24 { return Fatal(HANDSHAKE_FAILURE); }
      var verifyData := VerifyData(c.hash, handshake.tmp[..48], Other(role), handshake.transcript);
      VerifyExactly(c.hash, e.hs.value.tmp[..48], Other(role), e.hs.value.transcript, m[12..24]);
      var received := m[12..];
      var same := Equals(received, verifyData, 12);
      assert received[..12] == m[12..24] && verifyData[..12] == verifyData;
      err := if same then 0 else Fatal(HANDSHAKE_FAILURE);
    }

    /** A good Finished is put on record; the server answers it. */
    method AnswerFinished(c: Config, w: World, m: Message) returns (err: int)
      requires Valid() && handshake != null && |m| >= 24
      modifies repr
      ensures Valid() && repr == old(repr)
      ensures Outcome(View(), err) == Engine.AnswerFinished(c, w, old(View()), m)
    {
      hide Engine.SendServerFinished, Absorbed, Valid, View, ValueOf, Footprint;
      Fields();
      Mark(FinishedAccepted(handshake.tmp[..48], handshake.transcript, m[12..24], handshake.mseqR));
      Fields();
      if role != Server { return 0; }
      Absorb(m);
      Fields();
      err := SendServerFinished(c, w);
    }

    /** FINISHED */
    method OnFinished(c: Config, w: World, m: Message) returns (err: int)
      requires Valid() && handshake != null
      modifies repr
      ensures Valid() && fresh(repr - old(repr))
      ensures Outcome(View(), err) == Engine.OnFinished(c, w, old(View()), m)
    {
      hide Engine.CheckFinished, Engine.OnFinished, Engine.AnswerFinished, Valid, View, ValueOf, Footprint;
      ghost var e := View();
      Fields();
      FinishedIs(c, w, e, m);
      if state != WaitFinished { return Fatal(UNEXPECTED_MESSAGE); }
      err := CheckFinished(c, m, e);
      Fields();
      if err < 0 { return; }
      err := AnswerFinished(c, w, m);
      Fields();
      if err < 0 { return; }
      EndHandshake();
    }

    method StoreOffer(o: Offer)
      requires Valid() && handshake != null
      modifies handshake, handshake.tmp
      ensures Valid() && repr == old(repr) && View() == Updated(old(View()), o)
    {
      Copy(handshake.tmp, 0, o.random);
      FrontSplice(old(handshake.tmp[..]), o.random);
      handshake.cipher, handshake.compression := o.cipher, o.compression;
    }

    /** dtls_update_parameters */
    method UpdateParameters(c: Config, w: World, m: Message) returns (err: int)
      requires Valid() && handshake != null
      modifies handshake, handshake.tmp
      ensures Valid() && repr == old(repr)
      ensures Outcome(View(), err) == Engine.UpdateParameters(c, w, old(View()), m)
    {
      hide ParseClientHello, Updated, ExtensionsOk, Valid, View, ValueOf, Footprint;
      Fields();
      var o := ReadClientHello(Input(m, w.stale(clock)), c.psk, c.ownKey, ValueOf(slot0), handshake.cipher,
                               handshake.compression, w.overrun(clock));
      StoreOffer(o);
      Fields();
      var ok := o.ok;
      if ok && o.extensions.Some? {
        ok := CheckTlsExtension(Input(m, w.stale(clock)), o.extensions.value.0, o.extensions.value.1, o.cipher, true);
      }
      err := if ok then 0 else if state == Connected then NO_RENEGOTIATION else Fatal(HANDSHAKE_FAILURE);
    }

    /** The peer of a good ClientHello, and its handshake: made, where they are missing. */
    method Admit(m: Message)
      requires Valid()
      modifies repr
      ensures Valid() && fresh(repr - old(repr)) && View() == Admitted(old(View()), m)
    {
      hide Valid, View, ValueOf, Footprint, MessageSeq;
      Fields();
      if !known { NewPeer(Server, 1); }
      Fields();
      if handshake == null { StartHandshake(MessageSeq(m), 1, true); }
      Fields();
      ClearHash();
      Fields();
      Cross(role == Client);
    }

    /** A ClientHello whose cookie is good */
    method AcceptClientHello(c: Config, w: World, m: Message) returns (err: int)
      requires Valid()
      modifies repr
      ensures Valid() && fresh(repr - old(repr))
      ensures Outcome(View(), err) == Engine.AcceptClientHello(c, w, old(View()), m)
    {
      hide Admitted, Engine.UpdateParameters, Absorbed, Engine.SendServerHelloMessages, HelloAccepted, Count, Valid,
        View, ValueOf, Footprint;
      Admit(m);
      Fields();
      err := UpdateParameters(c, w, m);
      Fields();
      if err < 0 { return; }
      Absorb(m);
      Fields();
      err := SendServerHelloMessages(c, w);
      Fields();
      if err < 0 { return; }
      AcceptHello(c);
      Fields();
      CountMessage(0);
      err := 0;
    }

    /** The hello messages are exchanged; who comes next depends on whether the client is to prove itself. */
    method AcceptHello(c: Config)
      requires Valid() && handshake != null
      modifies this`state, handshake`trail
      ensures Valid() && repr == old(repr) && View() == HelloAccepted(c, old(View()))
    {
      hide Valid, View, ValueOf, Footprint;
      Fields();
      Mark(HelloExchanged(handshake.tmp[..32], handshake.tmp[32..]));
      Fields();
      Become(if handshake.cipher == ECDHE_CIPHER && c.ownKey && c.verifiesKey then WaitClientCertificate else WaitClientKeyExchange);
    }

    /** CLIENT_HELLO */
    method OnClientHello(c: Config, w: World, m: Message) returns (err: int)
      requires Valid()
      modifies repr
      ensures Valid() && fresh(repr - old(repr))
      ensures Outcome(View(), err) == Engine.OnClientHello(c, w, old(View()), m)
    {
      hide VerifyPeer, Engine.AcceptClientHello, Challenged, Valid, View, ValueOf, Footprint;
      Fields();
      if known && state != Connected { return Fatal(UNEXPECTED_MESSAGE); }
      var v := CheckCookie(c.hash, c.secret, c.session, Input(m, w.stale(clock)));
      Fields();
      match v
      case Refused(code) => return code;
      case Good => err := AcceptClientHello(c, w, m);
      case Challenge(cookie, first) =>
        err := Challenge(c, w, m, cookie, first);
    }

    /** The answer to a ClientHello without a good cookie. */
    method Challenge(c: Config, w: World, m: Message, cookie: seq<byte>, first: bool) returns (err: int)
      requires Valid()
      modifies repr
      ensures Valid() && fresh(repr - old(repr))
      ensures Outcome(View(), err) == Challenged(c, w, old(View()), m, cookie, first)
    {
      hide Engine.AcceptClientHello, Engine.SendHandshake, Count, Valid, View, ValueOf, Footprint;
      Fields();
      err := SendHandshake(c, w, 3, BigEndian(VERSION, 2) + [16] + cookie, false);
      Fields();
      if err < 0 { return; }
      if err > 0 {
        CountMessage(err);
        return;
      }
      if first { return 0; }
      err := AcceptClientHello(c, w, m);
    }

    method ReadyForHello()
      requires Valid()
      modifies repr
      ensures Valid() && fresh(repr - old(repr)) && View() == HelloRequested(old(View()))
    {
      hide Valid, View, ValueOf, Footprint;
      Fields();
      if handshake == null { StartHandshake(0, 0, true); }
      Fields();
      Cross(role == Server);
    }

    /** HELLO_REQUEST */
    method OnHelloRequest(c: Config, w: World) returns (err: int)
      requires Valid()
      modifies repr
      ensures Valid() && fresh(repr - old(repr))
      ensures Outcome(View(), err) == Engine.OnHelloRequest(c, w, old(View()))
    {
      hide HelloRequested, Engine.SendClientHello, Count, Valid, View, ValueOf, Footprint;
      Fields();
      if state != Connected { return 0; }
      ReadyForHello();
      Fields();
      err := SendClientHello(c, w, []);
      Fields();
      if err < 0 { return; }
      Advance(ClientHelloSent, err);
    }

    /** handle_handshake_msg */
    method HandleHandshakeMsg(c: Config, w: World, m: Message) returns (err: int)
      requires Valid() && LetThrough(View(), m)
      modifies repr
      ensures Valid() && fresh(repr - old(repr))
      ensures Outcome(View(), err) == Engine.HandleHandshakeMsg(c, w, old(View()), m)
    {
      hide Engine.OnClientHello, Engine.OnHelloRequest, Engine.OnHelloVerifyRequest, Engine.OnServerHello,
        Engine.OnCertificate, Engine.OnServerKeyExchange, Engine.OnServerHelloDone, Engine.OnCertificateRequest,
        Engine.OnFinished, Engine.OnClientKeyExchange, Engine.OnCertificateVerify,
        Valid, View, ValueOf, Footprint;
      Fields();
      Tick();
      Fields();
      if m[0] == 1 { err := OnClientHello(c, w, m); }
      else if m[0] == 0 { err := OnHelloRequest(c, w); }
      else if m[0] == 3 { err := OnHelloVerifyRequest(c, w, m); }
      else if m[0] == 2 { err := OnServerHello(c, w, m); }
      else if m[0] == 11 { err := OnCertificate(w, m); }
      else if m[0] == 12 { err := OnServerKeyExchange(w, m); }
      else if m[0] == 14 { err := OnServerHelloDone(c, w, m); }
      else if m[0] == 13 { err := OnCertificateRequest(w, m); }
      else if m[0] == 20 { err := OnFinished(c, w, m); }
      else if m[0] == 16 { err := OnClientKeyExchange(c, w, m); }
      else if m[0] == 15 { err := OnCertificateVerify(w, m); }
      else { err := Fatal(UNEXPECTED_MESSAGE); }
    }

    // -------------------------------------------------------------- records

    /** A queued message whose turn has come: taken out and handled. */
    method HandleQueued(c: Config, w: World, i: nat) returns (err: int)
      requires Valid() && known && handshake != null && i < |handshake.queue|
      modifies repr
      ensures Valid() && fresh(repr - old(repr)) && known && View().known
      ensures Outcome(View(), err) == DrainedOne(c, w, old(View()), i)
    {
      hide Engine.HandleHandshakeMsg, Removed, Valid, View, ValueOf, Footprint;
      Fields();
      var m := handshake.queue[i];
      SetQueue(Removed(handshake.queue, i));
      Fields();
      err := HandleHandshakeMsg(c, w, m);
      Fields();
    }

    /** The two nested loops of handle_handshake over the reorder queue. */
    method DrainQueue(c: Config, w: World, res: int) returns (err: int)
      requires Valid() && known
      modifies repr
      ensures Valid() && fresh(repr - old(repr))
      ensures Outcome(View(), err) == Engine.DrainQueue(c, w, old(View()), res)
    {
      hide Engine.DrainQueue, DrainedOne, Find, Valid, View, ValueOf, Footprint;
      err := res;
      var next := true;
      Fields();
      while next && handshake != null
        invariant Valid() && fresh(repr - old(repr)) && known && View().known
        invariant Engine.DrainQueue(c, w, old(View()), res) == if next then Engine.DrainQueue(c, w, View(), err) else Outcome(View(), err)
        decreases |Queue(View())|, next
      {
        next := false;
        Fields();
        DrainStep(c, w, View(), err);
        var i := Search(handshake.queue, handshake.mseqR);
        Fields();
        if i < |handshake.queue| {
          next := true;
          err := HandleQueued(c, w, i);
          if err < 0 { return; }
        }
      }
      Fields();
      DrainStep(c, w, View(), err);
    }

    /** An early message is stored, unless it is too long or its number is there already. */
    method StoreEarly(m: Message)
      requires Valid() && handshake != null
      modifies handshake`queue
      ensures Valid() && repr == old(repr)
      ensures var e := old(View()); var h := e.hs.value;
        View() == if h.ready then e.With(h.(queue := Store(h.queue, m))) else e
    {
      hide Valid, View, ValueOf, Footprint, MessageSeq, Find;
      Fields();
      if |m| > MAX_BUF { return; }
      var i := Search(handshake.queue, MessageSeq(m));
      if i < |handshake.queue| { return; }
      if handshake.ready { SetQueue(handshake.queue + [m]); } // otherwise a null pointer is followed here
    }

    /** handle_handshake */
    method HandleHandshake(c: Config, w: World, data: seq<byte>) returns (err: int)
      requires Valid()
      modifies repr
      ensures Valid() && fresh(repr - old(repr))
      ensures Outcome(View(), err) == Engine.HandleHandshake(c, w, old(View()), data)
    {
      hide Engine.HandleHandshakeMsg, Engine.DrainQueue, MessageSeq, Store, Valid, View, ValueOf, Footprint;
      Fields();
      if |data| < HS_LENGTH { return Fatal(DECODE_ERROR); }
      var m: Message := data;
      if !known && m[0] != 1 { return Fatal(HANDSHAKE_FAILURE); }
      if !known || handshake == null {
        if m[0] == 1 || m[0] == 0 {
          err := HandleHandshakeMsg(c, w, m);
          return;
        }
        return 0;
      }
      if MessageSeq(m) < handshake.mseqR { return 0; }
      if MessageSeq(m) > handshake.mseqR {
        StoreEarly(m);
        return 0;
      }
      err := HandleHandshakeMsg(c, w, m);
      Fields();
      if err < 0 { return; }
      err := DrainQueue(c, w, err);
    }

    /** handle_ccs */
    method HandleCcs(c: Config, w: World, data: seq<byte>) returns (err: int)
      requires Valid()
      modifies repr
      ensures Valid() && fresh(repr - old(repr))
      ensures Outcome(View(), err) == Engine.HandleCcs(c, w, old(View()), data)
    {
      hide Engine.CalculateKeyBlock, Valid, View, ValueOf, Footprint;
      Fields();
      if !known || state != WaitChangeCipherSpec || handshake == null { return 0; }
      if |data| < 1 || data[0] != 1 { return Fatal(DECODE_ERROR); }
      if role == Server {
        err := CalculateKeyBlock(c, w);
        Fields();
        if err < 0 { return; }
      }
      Mark(CipherChanged);
      Fields();
      Become(WaitFinished);
      err := 0;
    }

    /** dtls_send_alert */
    method SendAlert(c: Config, w: World, level: byte, description: byte)
      requires Valid()
      modifies repr
      ensures Valid() && repr == old(repr) && View() == Engine.SendAlert(c, w, old(View()), level, description)
    {
      hide Engine.Send, Valid, View, ValueOf, Footprint;
      var err := Send(c, w, ALERT, [level, description]);
    }

    /** dtls_alert_send_from_err */
    method ReportError(c: Config, w: World, err: int)
      requires Valid()
      modifies repr
      ensures Valid() && repr == old(repr) && View() == Engine.ReportError(c, w, old(View()), err)
    {
      hide Engine.SendAlert, Valid, View, ValueOf, Footprint;
      Fields();
      if err < -0x100 && err > -0x300 {
        if known {
          Become(Closing);
          Fields();
          SendAlert(c, w, -err / 256, -err % 256);
        }
      } else if err == -1 {
        if known {
          Become(Closing);
          Fields();
          SendAlert(c, w, FATAL, INTERNAL_ERROR);
        }
      }
    }

    /** dtls_destroy_peer */
    method Destroy(c: Config, w: World)
      requires Valid()
      modifies repr
      ensures Valid() && repr == old(repr) && View() == Destroyed(c, w, old(View()))
    {
      hide Engine.SendAlert, Forgotten, Valid, View, ValueOf, Footprint;
      Fields();
      if state != Closed && state != Closing {
        Become(Closing);
        Fields();
        SendAlert(c, w, FATAL, CLOSE_NOTIFY);
      }
      Fields();
      Forget();
    }

    /** handle_alert */
    method HandleAlert(c: Config, w: World, data: seq<byte>) returns (err: int)
      requires Valid()
      modifies repr
      ensures Valid() && repr == old(repr)
      ensures Outcome(View(), err) == Engine.HandleAlert(c, w, old(View()), data)
    {
      hide Engine.SendAlert, Forgotten, Valid, View, ValueOf, Footprint;
      Fields();
      if |data| < 2 { return Fatal(DECODE_ERROR); }
      if !known { return 0; }
      if data[1] == CLOSE_NOTIFY {
        if state != Closing {
          Become(Closing);
          Fields();
          SendAlert(c, w, FATAL, CLOSE_NOTIFY);
        } else {
          Become(Closed);
        }
      }
      Fields();
      if data[0] == FATAL || data[1] == CLOSE_NOTIFY {
        Forget();
        return -1;
      }
      err := 0;
    }

    /** The switch of dtls_handle_message */
    method HandlePayload(c: Config, w: World, ctype: byte, messageEpoch: uint16, data: seq<byte>) returns (err: int)
      requires Valid()
      modifies repr
      ensures Valid() && fresh(repr - old(repr))
      ensures Outcome(View(), err) == Engine.HandlePayload(c, w, old(View()), ctype, messageEpoch, data)
    {
      hide Engine.HandleCcs, Engine.HandleAlert, Engine.HandleHandshake, Engine.ReportError, Destroyed, Valid, View,
        ValueOf, Footprint;
      Fields();
      if ctype == CHANGE_CIPHER_SPEC {
        err := HandleCcs(c, w, data);
        Fields();
        if err < 0 {
          ReportError(c, w, err);
          Fields();
          Destroy(c, w);
        }
      } else if ctype == ALERT {
        err := HandleAlert(c, w, data);
      } else if ctype == HANDSHAKE {
        if known {
          var expected := CurrentEpoch();
          if role == Server && state == WaitFinished { expected := Next(expected); }
          if expected != messageEpoch { return 0; }
        }
        err := HandleHandshake(c, w, data);
        Fields();
        if err < 0 { ReportError(c, w, err); }
      } else if ctype == APPLICATION_DATA {
        err := if known then 0 else -1;
      } else {
        err := 0;
      }
    }

    /** dtls_security_params(peer)->epoch */
    function CurrentEpoch(): (epoch: uint16)
      requires Valid()
      reads this, repr
      ensures epoch == if View().s0.Some? then View().s0.value.epoch else 0
    {
      if slot0 != null then slot0.epoch else 0
    }

    /** dtls_security_params_epoch */
    method FindParameters(epoch: uint16) returns (s: SecurityParameters?)
      requires Valid()
      ensures s == null || s == slot0 || s == slot1
      ensures s == if slot0 != null && slot0.epoch == epoch then slot0 else if slot1 != null && slot1.epoch == epoch then slot1 else null
      ensures Usable(s) && ValueOf(s) == ByEpoch(View().s0, View().s1, epoch) && View() == old(View()) && repr == old(repr)
    {
      if slot0 != null && slot0.epoch == epoch { return slot0; }
      if slot1 != null && slot1.epoch == epoch { return slot1; }
      s := null;
    }

    /** decrypt_verify */
    method Decrypt(c: Config, packet: array<byte>, off: nat, length: nat) returns (clen: int, cleartext: nat)
      requires Valid() && packet !in repr && HEADER_LENGTH <= length && off + length <= packet.Length
      modifies this`slot1, packet
      ensures Valid() && repr == old(repr)
      ensures match Engine.DecryptVerify(c, old(View()), old(packet[off..off + length]))
              case Rejected => clen < 0 && View() == old(View())
              case Accepted(m) =>
                && clen == |m| && cleartext + |m| <= packet.Length && packet[cleartext..cleartext + |m|] == m
                && View() == AfterDecrypt(old(View()), old(packet[off..off + length]))
      ensures packet[off..off + 13] == old(packet[off..off + 13]) && packet[off + length..] == old(packet[off + length..])
    {
      hide Unprotect, Value, Seals;
      ghost var e, was, r := View(), packet[..], packet[off..off + length];
      TwoOctets(packet[off + 3..off + 5]);
      var epoch: uint16 := Value(packet[off + 3..off + 5]);
      assert packet[off + 3..off + 5] == r[3..5];
      var security := FindParameters(epoch);
      if security == null { return -1, 0; }
      var cipher := security.cipher;
      clen, cleartext := Record.DecryptVerify(c.aes, role, security, packet, off, length);
      SliceBefore(packet[..], was, off, off + 13);
      if clen >= 0 && cipher != NULL_CIPHER { FreeOther(); }
    }

    /** One round of the loop of dtls_handle_message. */
    method HandleRecord(c: Config, w: World, msg: array<byte>, off: nat, rlen: nat) returns (err: int)
      requires Valid() && msg !in repr && HEADER_LENGTH <= rlen && off + rlen <= msg.Length
      modifies repr, msg
      ensures Valid() && fresh(repr - old(repr))
      ensures Outcome(View(), err) == Engine.HandleRecord(c, w, old(View()), old(msg[off..off + rlen]))
      ensures old(View()).known && Authentic.OpensNot(c.aes, old(View()), old(msg[off..off + rlen])) ==>
        Authentic.Refused(c.aes, old(View()), View(), err)
      ensures msg[off + rlen..] == old(msg[off + rlen..])
    {
      hide Authentic.OpensNot, Authentic.Refused, Engine.HandlePayload, Engine.DecryptVerify, AfterDecrypt, Engine.ReportError, EpochOf, Forgotten, Valid,
        View, ValueOf, Footprint;
      ghost var r := msg[off..off + rlen];
      ghost var before := View();
      if before.known && Authentic.OpensNot(c.aes, before, r) { Authentic.UnopenedDropped(c, w, before, r); }
      var ctype, epoch := msg[off], EpochOf(msg[off..off + rlen]);
      Fields();
      Tick();
      Fields();
      var data;
      if known {
        var clen, cleartext := Decrypt(c, msg, off, rlen);
        Fields();
        if clen < 0 {
          if BeforeConnected(state) {
            ReportError(c, w, Fatal(DECRYPT_ERROR));
            Fields();
            Forget();
          }
          return Fatal(DECRYPT_ERROR);
        }
        data := msg[cleartext..cleartext + clen];
      } else {
        data := msg[off + 13..off + rlen];
        assert data == r[13..];
      }
      err := HandlePayload(c, w, ctype, epoch, data);
    }

    /** dtls_handle_message: record after record, in place, up to the one that makes the peer known. */
    method HandleMessage(c: Config, w: World, msg: array<byte>) returns (err: int)
      requires Valid() && msg !in repr
      modifies repr, msg
      ensures Valid() && fresh(repr - old(repr))
      ensures Outcome(View(), err) == Engine.HandleMessage(c, w, old(View()), old(msg[..]))
      ensures old(View()).known && RecordLength(old(msg[..])) > 0 && Authentic.Unreadable(c.aes, old(View()), old(msg[..])) ==>
        Authentic.Refused(c.aes, old(View()), View(), err)
    {
      hide Authentic.Unreadable, Authentic.Refused, Engine.HandleRecord, RecordLength, Valid, View, ValueOf, Footprint;
      ghost var e, was := View(), msg[..];
      if e.known && Authentic.Unreadable(c.aes, e, was) { Authentic.DatagramDropped(c, w, e, was); }
      var pos := 0;
      assert msg[0..] == was[0..] == was;
      while true
        invariant Valid() && fresh(repr - old(repr)) && msg !in repr && 0 <= pos <= msg.Length
        invariant msg[pos..] == was[pos..]
        invariant Engine.HandleMessage(c, w, e, was) == Engine.HandleMessage(c, w, View(), was[pos..])
        decreases msg.Length - pos
      {
        Fields();
        var rlen := RecordLength(msg[pos..]);
        if rlen == 0 { return 0; }
        var peer := known;
        assert was[pos..][..rlen] == msg[pos..pos + rlen] && was[pos..][rlen..] == was[pos + rlen..];
        err := HandleRecord(c, w, msg, pos, rlen);
        Fields();
        if err < 0 { return; }
        if known && !peer { return 0; }
        pos := pos + rlen;
        assert msg[pos..] == was[pos..];
      }
    }

    // -------------------------------------------------------------- calls of the application

    /** dtls_renegotiate */
    method Renegotiate(c: Config, w: World) returns (err: int)
      requires Valid()
      modifies repr
      ensures Valid() && fresh(repr - old(repr))
      ensures Outcome(View(), err) == Engine.Renegotiate(c, w, old(View()))
    {
      hide Engine.SendClientHello, Engine.SendHandshake, Valid, View, ValueOf, Footprint;
      Fields();
      if !known || state != Connected { return -1; }
      StartHandshake(0, 0, false);
      Fields();
      if role == Client {
        err := SendClientHello(c, w, []);
        Fields();
        if err >= 0 { Become(ClientHelloSent); }
      } else {
        err := SendHandshake(c, w, 0, [], false);
      }
    }

    /** dtls_connect */
    method Connect(c: Config, w: World) returns (err: int)
      requires Valid()
      modifies repr
      ensures Valid() && fresh(repr - old(repr))
      ensures Outcome(View(), err) == Engine.Connect(c, w, old(View()))
    {
      hide Engine.Renegotiate, Engine.SendClientHello, Engine.NewPeer, Valid, View, ValueOf, Footprint;
      Fields();
      if known {
        err := Renegotiate(c, w);
        return;
      }
      NewPeer(Client, 0);
      Fields();
      StartHandshake(0, 0, true);
      Fields();
      err := SendClientHello(c, w, []);
      Fields();
      if err >= 0 { Become(ClientHelloSent); }
    }

    /** dtls_write */
    method Write(c: Config, w: World, buf: seq<byte>) returns (err: int)
      requires Valid()
      modifies repr
      ensures Valid() && fresh(repr - old(repr))
      ensures Outcome(View(), err) == Engine.Write(c, w, old(View()), buf)
    {
      hide Engine.Connect, Engine.Send, Valid, View, ValueOf, Footprint;
      Fields();
      if !known {
        var res := Connect(c, w);
        return if res >= 0 then 0 else res;
      }
      if state != Connected { return 0; }
      err := Send(c, w, APPLICATION_DATA, buf);
    }

    /** dtls_close */
    method Close(c: Config, w: World) returns (err: int)
      requires Valid()
      modifies repr
      ensures Valid() && repr == old(repr)
      ensures Outcome(View(), err) == Engine.Close(c, w, old(View()))
    {
      hide Engine.SendAlert, Valid, View, ValueOf, Footprint;
      Fields();
      if !known { return -1; }
      SendAlert(c, w, FATAL, CLOSE_NOTIFY);
      Fields();
      Become(Closing);
      err := 0;
    }

    /** One event of a run. */
    method Perform(c: Config, w: World, v: Event)
      requires Valid()
      modifies repr
      ensures Valid() && fresh(repr - old(repr)) && View() == Step(c, w, old(View()), v)
    {
      hide Engine.HandleMessage, Engine.Connect, Engine.Renegotiate, Engine.Write, Engine.Close, Engine.Resend, Valid, View,
        ValueOf, Footprint;
      Fields();
      var err;
      match v
      case Arrives(bytes) =>
        var msg := new byte[|bytes|];
        Copy(msg, 0, bytes);
        assert msg[..] == bytes;
        err := HandleMessage(c, w, msg);
      case Connects => err := Connect(c, w);
      case Renegotiates => err := Renegotiate(c, w);
      case Writes(data) => err := Write(c, w, data);
      case Closes => err := Close(c, w);
      case Resends(epoch, ctype, payload) => err := Retransmit(c, w, epoch, ctype, payload);
    }

    /** The sending half of dtls_retransmit */
    method Retransmit(c: Config, w: World, epoch: uint16, ctype: byte, payload: seq<byte>) returns (err: int)
      requires Valid()
      modifies repr
      ensures Valid() && repr == old(repr)
      ensures Outcome(View(), err) == Engine.Resend(c, w, old(View()), epoch, ctype, payload)
    {
      hide Transmit, Flat, Valid, View, ValueOf, Footprint;
      Fields();
      if !known { return 0; }
      FlatOne(payload);
      var security := FindParameters(epoch);
      WhichSlot(security, epoch);
      err := SendMulti(c, w, security, ctype, [payload]);
    }

    lemma WhichSlot(s: SecurityParameters?, epoch: uint16)
      requires Valid() && (s == null || s == slot0 || s == slot1) && ValueOf(s) == ByEpoch(View().s0, View().s1, epoch)
      requires s == if slot0 != null && slot0.epoch == epoch then slot0 else if slot1 != null && slot1.epoch == epoch then slot1 else null
      ensures var e := View();
        CountedUp(e, s == slot0, s == slot1)
        == if e.s0.Some? && e.s0.value.epoch == epoch then e.(s0 := Bumped(e.s0))
           else if e.s1.Some? && e.s1.value.epoch == epoch then e.(s1 := Bumped(e.s1)) else e
    {
    }
  }

  lemma FinishedIs(c: Config, w: World, e: Endpoint, m: Message)
    requires e.hs.Some?
    ensures e.state != WaitFinished ==> Engine.OnFinished(c, w, e, m) == Outcome(e, Fatal(UNEXPECTED_MESSAGE))
    ensures e.state == WaitFinished ==>
      var check := Engine.CheckFinished(c, e, m);
      if check < 0 then Engine.OnFinished(c, w, e, m) == Outcome(e, check)
      else
        |m| >= 24 && var r := Engine.AnswerFinished(c, w, e, m);
        Engine.OnFinished(c, w, e, m) == if r.err < 0 then r else Outcome(Ended(r.e), r.err)
  {
    hide VerifyData, Engine.SendServerFinished;
  }

  lemma SliceBefore(s: seq<byte>, t: seq<byte>, i: nat, j: nat)
    requires i <= j <= |s| && j <= |t| && s[..j] == t[..j]
    ensures s[i..j] == t[i..j]
  {
    assert s[i..j] == s[..j][i..] && t[i..j] == t[..j][i..];
  }

  lemma SlotEpoch(s: SecurityParameters?)
    requires Usable(s)
    ensures s != null ==> ValueOf(s) == Some(s.Value()) && ValueOf(s).value.epoch == s.epoch
  {
  }

  ghost function DrainedOne(c: Config, w: World, e: Endpoint, i: nat): Outcome
    requires e.known && e.hs.Some? && i < |e.hs.value.queue|
  {
    Engine.HandleHandshakeMsg(c, w, e.With(e.hs.value.(queue := Removed(e.hs.value.queue, i))), e.hs.value.queue[i])
  }

  lemma DrainStep(c: Config, w: World, e: Endpoint, res: int)
    requires e.known
    ensures e.hs.None? ==> Engine.DrainQueue(c, w, e, res) == Outcome(e, res)
    ensures e.hs.Some? ==>
      var i := Find(e.hs.value.queue, e.hs.value.mseqR);
      if i == |e.hs.value.queue| then Engine.DrainQueue(c, w, e, res) == Outcome(e, res)
      else
        var r := DrainedOne(c, w, e, i);
        r.e.known && |Queue(r.e)| < |Queue(e)|
        && Engine.DrainQueue(c, w, e, res) == if r.err < 0 then r else Engine.DrainQueue(c, w, r.e, r.err)
  {
    hide Engine.HandleHandshakeMsg, Find, Removed;
  }

  lemma HashOnly(e: Endpoint, m: Message)
    requires e.hs.Some?
    ensures Absorbed(e, m) == e.With(e.hs.value.(transcript := e.hs.value.transcript + m))
  {
  }

  ghost predicate SameButBlock(a: Endpoint, b: Endpoint) {
    a.s1.Some? && b.s1.Some? && b == a.(s1 := Some(a.s1.value.(keyBlock := b.s1.value.keyBlock)))
  }

  lemma NoKeyBlock(c: Config, w: World, e: Endpoint, code: int)
    requires e.hs.Some? && var s := PreMasterSecret(w, NextParams(e), e.hs.value); s.NoSecret? && s.code == code
    ensures Engine.CalculateKeyBlock(c, w, e) == Outcome(NextParams(e), code)
  {
    hide PreMaster;
  }

  /** Whatever the new key block was built from, the keys come out as specified. */
  lemma KeyBlockFrom(c: Config, w: World, e: Endpoint, secret: seq<byte>)
    requires e.hs.Some? && NextParams(e).hs.Some? && PreMasterSecret(w, NextParams(e), e.hs.value) == Secret(secret)
    ensures forall f: Endpoint :: SameButBlock(NextParams(e), f) ==>
      Engine.CalculateKeyBlock(c, w, e) == Outcome(Wrapped(KeysFrom(c, f, secret), LastEpoch(f)), 0)
  {
    hide PreMasterSecret, KeysFrom, Wrapped;
    SameSecret(w, e);
    forall f: Endpoint | SameButBlock(NextParams(e), f)
      ensures Engine.CalculateKeyBlock(c, w, e) == Outcome(Wrapped(KeysFrom(c, f, secret), LastEpoch(f)), 0)
    {
      BlockOverwritten(c, NextParams(e), f, secret);
    }
  }

  lemma SameSecret(w: World, e: Endpoint)
    requires e.hs.Some?
    ensures PreMasterSecret(w, NextParams(e), e.hs.value) == PreMasterSecret(w, e, e.hs.value)
  {
    hide PreMaster;
  }

  lemma BlockOverwritten(c: Config, e: Endpoint, f: Endpoint, secret: seq<byte>)
    requires e.hs.Some? && e.s1.Some? && SameButBlock(e, f)
    ensures f.hs.Some? && f.s1.Some? && KeysFrom(c, f, secret) == KeysFrom(c, e, secret)
  {
    hide MasterSecret, KeyBlockOf;
  }

  lemma WholeSplice(s: seq<byte>, b: seq<byte>)
    requires |s| == |b|
    ensures Splice(s, 0, b) == b
  {
  }

  lemma FrontSplice(s: seq<byte>, b: seq<byte>)
    requires |b| <= |s|
    ensures Splice(s, 0, b) == b + s[|b|..]
  {
  }

  /** One slot, or none, counted up. */
  ghost function CountedUp(e: Endpoint, first: bool, second: bool): Endpoint {
    e.(s0 := if first then Bumped(e.s0) else e.s0, s1 := if second then Bumped(e.s1) else e.s1)
  }

  lemma HashedInTwo(e: Endpoint, buf: seq<byte>, data: seq<byte>)
    ensures e.hs.Some? ==> (e.hs.value.transcript + buf) + data == e.hs.value.transcript + (buf + data)
  {
  }

  lemma FlatOne(a: seq<byte>)
    ensures Flat([a]) == a
  {
    assert [a][..0] == [] && Flat([]) == [];
  }

  lemma FlatTwo(a: seq<byte>, b: seq<byte>)
    ensures Flat([a, b]) == a + b
  {
    FlatOne(a);
    assert [a, b][..1] == [a];
  }
}

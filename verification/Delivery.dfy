/**
 * handle_handshake delivers as the reorder buffer does, whatever the messages do to the endpoint, and reordering
 * does not show in the endpoint; both exactly when the queue has been initialised.
 */
module Delivery {
  import opened Bytes
  import opened Peers
  import opened Reorder
  import opened Hello
  import opened Engine
  import opened Frame

  /** The reorder buffer of an endpoint in a handshake, with what has been handed on so far. */
  function BufferOf(e: Endpoint, handed: seq<Message>): Buffer
    requires e.hs.Some?
  {
    Buffer(e.hs.value.mseqR, e.hs.value.queue, handed)
  }

  /** The message is handled without error, is counted, and does not end the handshake. */
  ghost predicate Consumed(c: Config, w: World, e: Endpoint, m: Message)
    requires e.known && e.hs.Some?
  {
    var r := HandleHandshakeMsg(c, w, e, m);
    r.err >= 0 && r.e.hs.Some? && r.e.hs.value.mseqR == e.hs.value.mseqR + 1
  }

  function TakenOut(e: Endpoint, i: nat): Endpoint
    requires e.hs.Some? && i < |Queue(e)|
  {
    e.With(e.hs.value.(queue := Removed(e.hs.value.queue, i)))
  }

  /** Every message the drain loop takes out of the queue is consumed. */
  ghost predicate DrainConsumes(c: Config, w: World, e: Endpoint)
    requires e.known && e.hs.Some?
    decreases |Queue(e)|
  {
    var i := Find(Queue(e), e.hs.value.mseqR);
    i < |Queue(e)| ==>
      Consumed(c, w, TakenOut(e, i), Queue(e)[i])
      && DrainConsumes(c, w, HandleHandshakeMsg(c, w, TakenOut(e, i), Queue(e)[i]).e)
  }

  /** The messages the drain loop calls handle_handshake_msg with. */
  ghost function DrainCalls(c: Config, w: World, e: Endpoint): seq<Message>
    requires e.known && e.hs.Some? && DrainConsumes(c, w, e)
    decreases |Queue(e)|
  {
    var i := Find(Queue(e), e.hs.value.mseqR);
    if i == |Queue(e)| then []
    else [Queue(e)[i]] + DrainCalls(c, w, HandleHandshakeMsg(c, w, TakenOut(e, i), Queue(e)[i]).e)
  }

  /** One round of the drain loop, and of the buffer's. */
  lemma DrainRound(c: Config, w: World, e: Endpoint, res: int, handed: seq<Message>, i: nat)
    requires e.known && e.hs.Some? && DrainConsumes(c, w, e)
    requires i == Find(Queue(e), e.hs.value.mseqR) && i < |Queue(e)|
    ensures var m := Queue(e)[i]; var next := HandleHandshakeMsg(c, w, TakenOut(e, i), m);
      && next.e.known && next.e.hs.Some? && |Queue(next.e)| < |Queue(e)| && DrainConsumes(c, w, next.e)
      && DrainQueue(c, w, e, res) == DrainQueue(c, w, next.e, next.err)
      && DrainCalls(c, w, e) == [m] + DrainCalls(c, w, next.e)
      && Drain(BufferOf(e, handed)) == Drain(BufferOf(next.e, handed + [m]))
  {
    hide HandleHandshakeMsg, Find, Removed;
  }

  lemma {:induction false} DrainMatches(c: Config, w: World, e: Endpoint, res: int, handed: seq<Message>)
    requires e.known && e.hs.Some? && DrainConsumes(c, w, e)
    ensures var r := DrainQueue(c, w, e, res);
      r.e.hs.Some? && BufferOf(r.e, handed + DrainCalls(c, w, e)) == Drain(BufferOf(e, handed))
    decreases |Queue(e)|
  {
    hide HandleHandshakeMsg, Find, Removed, DrainQueue, DrainCalls, DrainConsumes, Drain, Consumed;
    var i := Find(Queue(e), e.hs.value.mseqR);
    if i < |Queue(e)| {
      var m, next := Queue(e)[i], HandleHandshakeMsg(c, w, TakenOut(e, i), Queue(e)[i]);
      DrainRound(c, w, e, res, handed, i);
      DrainMatches(c, w, next.e, next.err, handed + [m]);
      assert (handed + [m]) + DrainCalls(c, w, next.e) == handed + DrainCalls(c, w, e);
    } else {
      DrainNothing(c, w, e, res, handed);
    }
  }

  lemma DrainNothing(c: Config, w: World, e: Endpoint, res: int, handed: seq<Message>)
    requires e.known && e.hs.Some? && DrainConsumes(c, w, e) && Find(Queue(e), e.hs.value.mseqR) == |Queue(e)|
    ensures DrainQueue(c, w, e, res) == Outcome(e, res) && handed + DrainCalls(c, w, e) == handed
    ensures Drain(BufferOf(e, handed)) == BufferOf(e, handed)
  {
    hide HandleHandshakeMsg, Find;
  }

  /** What an arriving message needs: to be consumed, if it is the next, and so everything the loop then finds. */
  ghost predicate ArrivalConsumes(c: Config, w: World, e: Endpoint, m: Message)
    requires e.known && e.hs.Some?
  {
    MessageSeq(m) == e.hs.value.mseqR ==>
      Consumed(c, w, e, m) && DrainConsumes(c, w, HandleHandshakeMsg(c, w, e, m).e)
  }

  /** The calls of handle_handshake_msg while `m` is handled. */
  ghost function ArrivalCalls(c: Config, w: World, e: Endpoint, m: Message): seq<Message>
    requires e.known && e.hs.Some? && ArrivalConsumes(c, w, e, m)
  {
    if MessageSeq(m) != e.hs.value.mseqR then [] else [m] + DrainCalls(c, w, HandleHandshakeMsg(c, w, e, m).e)
  }

  /** One arrival at an endpoint is one arrival at its reorder buffer, call by call. */
  lemma ArrivalMatches(c: Config, w: World, e: Endpoint, m: Message, handed: seq<Message>)
    requires e.known && e.hs.Some? && Ready(e) && ArrivalConsumes(c, w, e, m)
    ensures var r := HandleHandshake(c, w, e, m);
      r.e.hs.Some? && BufferOf(r.e, handed + ArrivalCalls(c, w, e, m)) == Arrive(BufferOf(e, handed), m)
  {
    hide HandleHandshakeMsg, DrainQueue, Drain, MessageSeq, Find, DrainConsumes, DrainCalls;
    if MessageSeq(m) == e.hs.value.mseqR {
      var next := HandleHandshakeMsg(c, w, e, m);
      DrainMatches(c, w, next.e, next.err, handed + [m]);
      assert (handed + [m]) + DrainCalls(c, w, next.e) == handed + ArrivalCalls(c, w, e, m);
    } else {
      assert handed + [] == handed;
    }
  }

  // ---------------------------------------------------------------- whole flights

  function ArriveAllAt(c: Config, w: World, e: Endpoint, arrivals: seq<Message>): Endpoint {
    if arrivals == [] then e
    else HandleHandshake(c, w, ArriveAllAt(c, w, e, arrivals[..|arrivals| - 1]), arrivals[|arrivals| - 1]).e
  }

  /** At each arrival the endpoint is still in the handshake, and what is due is consumed. */
  ghost predicate AllConsumed(c: Config, w: World, e: Endpoint, arrivals: seq<Message>) {
    var f := ArriveAllAt(c, w, e, arrivals[..if |arrivals| == 0 then 0 else |arrivals| - 1]);
    arrivals != [] ==>
      AllConsumed(c, w, e, arrivals[..|arrivals| - 1])
      && f.known && f.hs.Some? && ArrivalConsumes(c, w, f, arrivals[|arrivals| - 1])
  }

  /** All calls of handle_handshake_msg, in order. */
  ghost function AllCalls(c: Config, w: World, e: Endpoint, arrivals: seq<Message>): seq<Message>
    requires AllConsumed(c, w, e, arrivals)
  {
    if arrivals == [] then []
    else
      var front := arrivals[..|arrivals| - 1];
      AllCalls(c, w, e, front) + ArrivalCalls(c, w, ArriveAllAt(c, w, e, front), arrivals[|arrivals| - 1])
  }

  lemma {:induction false} ArrivalsMatch(c: Config, w: World, e: Endpoint, arrivals: seq<Message>)
    requires e.known && e.hs.Some? && Ready(e) && Queue(e) == [] && AllConsumed(c, w, e, arrivals)
    ensures var f := ArriveAllAt(c, w, e, arrivals);
      f.hs.Some? && Ready(f) && BufferOf(f, AllCalls(c, w, e, arrivals)) == ArriveAll(e.hs.value.mseqR, arrivals)
  {
    if arrivals != [] {
      var front, m := arrivals[..|arrivals| - 1], arrivals[|arrivals| - 1];
      ArrivalsMatch(c, w, e, front);
      hide ArrivalConsumes, HandleHandshake, Arrive, ArrivalCalls;
      ArrivalMatches(c, w, ArriveAllAt(c, w, e, front), m, AllCalls(c, w, e, front));
    }
  }

  /**
   * In whatever order what arrives, as long as each message is consumed when its turn comes: the messages handled
   * are the first copies of the next ones, once each, up to the first one missing; the queue holds first copies of
   * later ones, with distinct numbers.
   */
  lemma HandledInOrder(c: Config, w: World, e: Endpoint, arrivals: seq<Message>)
    requires e.known && e.hs.Some? && Ready(e) && Queue(e) == [] && AllConsumed(c, w, e, arrivals)
    requires forall m :: m in arrivals ==> |m| <= MAX_BUF
    ensures var f := ArriveAllAt(c, w, e, arrivals);
      f.hs.Some? && AtRest(BufferOf(f, AllCalls(c, w, e, arrivals)), e.hs.value.mseqR, arrivals)
  {
    hide AllConsumed, AllCalls, ArriveAllAt, ArriveAll, AtRest;
    ArrivalsMatch(c, w, e, arrivals);
    DeliveryIsInOrder(e.hs.value.mseqR, arrivals);
  }

  // ---------------------------------------------------------------- reordering does not show

  /** What handle_handshake_msg makes of an endpoint, message after message. */
  function Handled(c: Config, w: World, e: Endpoint, ms: seq<Message>): Endpoint {
    if ms == [] then e
    else
      var f, m := Handled(c, w, e, ms[..|ms| - 1]), ms[|ms| - 1];
      if LetThrough(f, m) then HandleHandshakeMsg(c, w, f, m).e else f
  }

  /** Delivered one by one and in order, every message is consumed. */
  ghost predicate ConsumedInTurn(c: Config, w: World, e: Endpoint, ms: seq<Message>) {
    forall k :: 0 <= k < |ms| ==> Took(c, w, Handled(c, w, e, ms[..k]), ms[k])
  }

  ghost predicate Took(c: Config, w: World, f: Endpoint, m: Message) {
    f.known && f.hs.Some? && Consumed(c, w, f, m)
  }

  /** A flight, and an endpoint about to receive it. */
  ghost predicate Awaits(c: Config, w: World, e: Endpoint, flight: seq<Message>) {
    && e.known && e.hs.Some? && Ready(e) && Queue(e) == []
    && Consecutive(flight, e.hs.value.mseqR) && ConsumedInTurn(c, w, e, flight)
  }

  /** The endpoint after `k` messages of the flight, with `q` waiting in its queue. */
  ghost function After(c: Config, w: World, e: Endpoint, flight: seq<Message>, k: nat, q: seq<Message>): Endpoint
    requires k <= |flight|
  {
    Requeued(Handled(c, w, e, flight[..k]), q)
  }

  lemma {:induction false} AfterFacts(c: Config, w: World, e: Endpoint, flight: seq<Message>, k: nat)
    requires Awaits(c, w, e, flight) && k <= |flight|
    ensures var f := Handled(c, w, e, flight[..k]);
      f.known && f.hs.Some? && Ready(f) && Queue(f) == [] && f.hs.value.mseqR == e.hs.value.mseqR + k
  {
    hide HandleHandshakeMsg, Consecutive;
    if k > 0 {
      AfterFacts(c, w, e, flight, k - 1);
      assert flight[..k][..k - 1] == flight[..k - 1];
      assert Took(c, w, Handled(c, w, e, flight[..k - 1]), flight[k - 1]);
    }
  }

  /** The next message, whatever is waiting. */
  lemma NextTaken(c: Config, w: World, e: Endpoint, flight: seq<Message>, k: nat, q: seq<Message>)
    requires Awaits(c, w, e, flight) && k < |flight|
    ensures var f := After(c, w, e, flight, k, q);
      && f.known && f.hs.Some? && f.hs.value.mseqR == e.hs.value.mseqR + k && Queue(f) == q && Ready(f)
      && Consumed(c, w, f, flight[k]) && HandleHandshakeMsg(c, w, f, flight[k]).e == After(c, w, e, flight, k + 1, q)
  {
    hide HandleHandshakeMsg, Consecutive;
    AfterFacts(c, w, e, flight, k);
    var f := Handled(c, w, e, flight[..k]);
    assert Took(c, w, f, flight[k]);
    HandleFrame(c, w, f, q, flight[k]);
    assert flight[..k + 1][..k] == flight[..k];
  }

  lemma AfterIs(c: Config, w: World, e: Endpoint, flight: seq<Message>, k: nat, q: seq<Message>)
    requires Awaits(c, w, e, flight) && k <= |flight|
    ensures var f := After(c, w, e, flight, k, q);
      f.known && f.hs.Some? && f.hs.value.mseqR == e.hs.value.mseqR + k && Queue(f) == q && Ready(f)
    ensures forall q2 :: Requeued(After(c, w, e, flight, k, q), q2) == After(c, w, e, flight, k, q2)
  {
    hide Handled, Consecutive, ConsumedInTurn;
    AfterFacts(c, w, e, flight, k);
  }

  /** A message of the flight is known by its number. */
  lemma WhichMessage(flight: seq<Message>, start: nat, m: Message, k: nat)
    requires Consecutive(flight, start) && m in flight && MessageSeq(m) == start + k
    ensures k < |flight| && flight[k] == m
  {
    hide MessageSeq;
    var j :| 0 <= j < |flight| && flight[j] == m;
  }

  ghost predicate Part(q: seq<Message>, flight: seq<Message>) {
    forall m :: m in q ==> m in flight
  }

  lemma {:induction false} DrainsAlong(c: Config, w: World, e: Endpoint, flight: seq<Message>, k: nat, q: seq<Message>, res: int)
    returns (k2: nat, q2: seq<Message>)
    requires Awaits(c, w, e, flight) && k <= |flight| && Part(q, flight)
    ensures var f := After(c, w, e, flight, k, q);
      && f.known && f.hs.Some? && DrainConsumes(c, w, f) && k2 <= |flight| && Part(q2, flight)
      && DrainQueue(c, w, f, res).e == After(c, w, e, flight, k2, q2)
    decreases |q|
  {
    hide HandleHandshakeMsg, MessageSeq, After, Awaits, DrainQueue, DrainConsumes, Consecutive;
    AfterIs(c, w, e, flight, k, q);
    var start := StartOf(c, w, e, flight);
    var i := Find(q, start + k);
    if i == |q| {
      k2, q2 := k, q;
      DrainsNothing(c, w, After(c, w, e, flight, k, q), res);
    } else {
      assert q[i] in q;
      WhichMessage(flight, start, q[i], k);
      var rest := Removed(q, i);
      AfterIs(c, w, e, flight, k, rest);
      NextTaken(c, w, e, flight, k, rest);
      var f := After(c, w, e, flight, k, q);
      assert TakenOut(f, i) == Requeued(f, rest);
      var r := HandleHandshakeMsg(c, w, TakenOut(f, i), q[i]);
      k2, q2 := DrainsAlong(c, w, e, flight, k + 1, rest, r.err);
      DrainsOne(c, w, f, i, res);
    }
  }

  lemma DrainsNothing(c: Config, w: World, f: Endpoint, res: int)
    requires f.known && f.hs.Some? && Find(Queue(f), f.hs.value.mseqR) == |Queue(f)|
    ensures DrainConsumes(c, w, f) && DrainQueue(c, w, f, res) == Outcome(f, res)
  {
  }

  lemma DrainsOne(c: Config, w: World, f: Endpoint, i: nat, res: int)
    requires f.known && f.hs.Some? && i == Find(Queue(f), f.hs.value.mseqR) && i < |Queue(f)|
    requires Consumed(c, w, TakenOut(f, i), Queue(f)[i])
    requires DrainConsumes(c, w, HandleHandshakeMsg(c, w, TakenOut(f, i), Queue(f)[i]).e)
    ensures var r := HandleHandshakeMsg(c, w, TakenOut(f, i), Queue(f)[i]);
      DrainConsumes(c, w, f) && DrainQueue(c, w, f, res) == DrainQueue(c, w, r.e, r.err)
  {
    hide HandleHandshakeMsg, Find, Removed;
  }

  lemma StartOf(c: Config, w: World, e: Endpoint, flight: seq<Message>) returns (start: nat)
    requires Awaits(c, w, e, flight)
    ensures e.hs.Some? && start == e.hs.value.mseqR && Consecutive(flight, start)
  {
    start := e.hs.value.mseqR;
  }

  lemma ArrivesAlong(c: Config, w: World, e: Endpoint, flight: seq<Message>, k: nat, q: seq<Message>, m: Message)
    returns (k2: nat, q2: seq<Message>)
    requires Awaits(c, w, e, flight) && k <= |flight| && Part(q, flight) && m in flight
    ensures var f := After(c, w, e, flight, k, q);
      && f.known && f.hs.Some? && ArrivalConsumes(c, w, f, m) && k2 <= |flight| && Part(q2, flight)
      && HandleHandshake(c, w, f, m).e == After(c, w, e, flight, k2, q2)
  {
    hide HandleHandshakeMsg, MessageSeq, After, Awaits, DrainQueue, DrainConsumes;
    AfterIs(c, w, e, flight, k, q);
    var start := StartOf(c, w, e, flight);
    var f := After(c, w, e, flight, k, q);
    if MessageSeq(m) < start + k {
      k2, q2 := k, q;
    } else if MessageSeq(m) > start + k {
      k2, q2 := k, Store(q, m);
    } else {
      WhichMessage(flight, start, m, k);
      NextTaken(c, w, e, flight, k, q);
      k2, q2 := DrainsAlong(c, w, e, flight, k + 1, q, HandleHandshakeMsg(c, w, f, m).err);
    }
  }

  lemma {:induction false} ArriveAlong(c: Config, w: World, e: Endpoint, flight: seq<Message>, arrivals: seq<Message>)
    returns (k: nat, q: seq<Message>)
    requires Awaits(c, w, e, flight) && Part(arrivals, flight)
    ensures AllConsumed(c, w, e, arrivals) && k <= |flight| && Part(q, flight)
    ensures ArriveAllAt(c, w, e, arrivals) == After(c, w, e, flight, k, q)
  {
    hide HandleHandshake, After, Awaits, ArrivalConsumes;
    if arrivals == [] {
      k, q := 0, [];
      NothingYet(c, w, e, flight);
    } else {
      var front, m := arrivals[..|arrivals| - 1], arrivals[|arrivals| - 1];
      assert m in flight;
      k, q := ArriveAlong(c, w, e, flight, front);
      k, q := ArrivesAlong(c, w, e, flight, k, q, m);
    }
  }

  lemma NothingYet(c: Config, w: World, e: Endpoint, flight: seq<Message>)
    requires Awaits(c, w, e, flight)
    ensures After(c, w, e, flight, 0, []) == e
  {
    hide Consecutive, ConsumedInTurn;
    assert flight[..0] == [];
  }

  /**
   * If the messages of a flight are consumed when they arrive one by one and in order, then in whatever order and
   * however often they arrive the endpoint ends up exactly the same: same state, keys, transcript, counters and
   * records sent, with the next message awaited and nothing queued.
   */
  lemma FlightHandledInOrder(c: Config, w: World, e: Endpoint, arrivals: seq<Message>, flight: seq<Message>)
    requires Awaits(c, w, e, flight) && (forall m :: m in arrivals <==> m in flight)
    requires forall m :: m in flight ==> |m| <= MAX_BUF
    ensures AllConsumed(c, w, e, arrivals) && AllCalls(c, w, e, arrivals) == flight
    ensures var f := ArriveAllAt(c, w, e, arrivals);
      f == Handled(c, w, e, flight) && f.hs.Some? && f.hs.value.mseqR == e.hs.value.mseqR + |flight| && Queue(f) == []
  {
    hide AllConsumed, AllCalls, ArriveAllAt, ArriveAll, Consecutive, Awaits, After, Handled;
    var start := StartOf(c, w, e, flight);
    var k, q := ArriveAlong(c, w, e, flight, arrivals);
    ReadyToMatch(c, w, e, flight);
    ArrivalsMatch(c, w, e, arrivals);
    ReorderingIsInvisible(start, arrivals, flight);
    AfterIs(c, w, e, flight, k, q);
    WholeFlight(c, w, e, flight);
  }

  lemma ReadyToMatch(c: Config, w: World, e: Endpoint, flight: seq<Message>)
    requires Awaits(c, w, e, flight)
    ensures e.known && e.hs.Some? && Ready(e) && Queue(e) == []
  {
  }

  lemma WholeFlight(c: Config, w: World, e: Endpoint, flight: seq<Message>)
    requires Awaits(c, w, e, flight)
    ensures After(c, w, e, flight, |flight|, []) == Handled(c, w, e, flight)
  {
    hide Handled, Consecutive, ConsumedInTurn;
    AfterFacts(c, w, e, flight, |flight|);
    assert flight[..|flight|] == flight;
  }

  /** In particular, as if they had arrived in order. */
  lemma ReorderingDoesNotShow(c: Config, w: World, e: Endpoint, arrivals: seq<Message>, flight: seq<Message>)
    requires Awaits(c, w, e, flight) && (forall m :: m in arrivals <==> m in flight)
    requires forall m :: m in flight ==> |m| <= MAX_BUF
    ensures ArriveAllAt(c, w, e, arrivals) == ArriveAllAt(c, w, e, flight)
  {
    hide AllConsumed, AllCalls, ArriveAllAt, Awaits, Handled;
    FlightHandledInOrder(c, w, e, arrivals, flight);
    FlightHandledInOrder(c, w, e, flight, flight);
  }

  /**
   * With parts of the flight missing: the endpoint is as after the `k` messages that have arrived without a gap,
   * with exactly the later arrivals waiting.
   */
  lemma PartialFlight(c: Config, w: World, e: Endpoint, arrivals: seq<Message>, flight: seq<Message>)
    returns (k: nat, q: seq<Message>)
    requires Awaits(c, w, e, flight) && Part(arrivals, flight) && (forall m :: m in flight ==> |m| <= MAX_BUF)
    ensures k <= |flight| && ArriveAllAt(c, w, e, arrivals) == Requeued(Handled(c, w, e, flight[..k]), q)
    ensures (forall j :: 0 <= j < k ==> flight[j] in arrivals) && (k < |flight| ==> flight[k] !in arrivals)
    ensures forall j :: k < j < |flight| ==> (flight[j] in q <==> flight[j] in arrivals)
  {
    hide AllConsumed, AllCalls, ArriveAllAt, ArriveAll, Consecutive, Awaits, After, Handled;
    var start := StartOf(c, w, e, flight);
    k, q := ArriveAlong(c, w, e, flight, arrivals);
    assert After(c, w, e, flight, k, q) == Requeued(Handled(c, w, e, flight[..k]), q) by { AfterUnfolds(c, w, e, flight, k, q); }
    ReadyToMatch(c, w, e, flight);
    AfterIs(c, w, e, flight, k, q);
    HandledInOrder(c, w, e, arrivals);
    ArrivalsMatch(c, w, e, arrivals);
    GapAt(BufferOf(ArriveAllAt(c, w, e, arrivals), AllCalls(c, w, e, arrivals)), start, arrivals, flight, k);
  }

  lemma AfterUnfolds(c: Config, w: World, e: Endpoint, flight: seq<Message>, k: nat, q: seq<Message>)
    requires k <= |flight|
    ensures After(c, w, e, flight, k, q) == Requeued(Handled(c, w, e, flight[..k]), q)
  {
  }

  lemma GapAt(b: Buffer, start: nat, arrivals: seq<Message>, flight: seq<Message>, k: nat)
    requires AtRest(b, start, arrivals) && Consecutive(flight, start) && Part(arrivals, flight) && b.next == start + k && k <= |flight|
    ensures (forall j :: 0 <= j < k ==> flight[j] in arrivals) && (k < |flight| ==> flight[k] !in arrivals)
    ensures forall j :: k < j < |flight| ==> (flight[j] in b.queue <==> flight[j] in arrivals)
  {
    hide First, MessageSeq;
    forall j | 0 <= j < |flight| ensures First(arrivals, start + j) == (if flight[j] in arrivals then Some(flight[j]) else None) {
      FirstOfFlight(arrivals, flight, start, j);
    }
    assert b.next == start + |b.handed|;
    forall j | 0 <= j < k ensures flight[j] in arrivals { assert First(arrivals, start + j) == Some(b.handed[j]); }
    forall j | k < j < |flight| ensures flight[j] in b.queue <==> flight[j] in arrivals {
      assert MessageSeq(flight[j]) == start + j;
      if flight[j] in arrivals { assert First(arrivals, start + j).value in b.queue; }
      if flight[j] in b.queue {
        var i :| 0 <= i < |b.queue| && b.queue[i] == flight[j];
        assert First(arrivals, MessageSeq(b.queue[i])) == Some(b.queue[i]);
      }
    }
  }

  lemma FirstOfFlight(arrivals: seq<Message>, flight: seq<Message>, start: nat, j: nat)
    requires Consecutive(flight, start) && Part(arrivals, flight) && j < |flight|
    ensures First(arrivals, start + j) == if flight[j] in arrivals then Some(flight[j]) else None
  {
    FirstHasSeq(arrivals, start + j);
    var f := First(arrivals, start + j);
    if f.Some? { WhichMessage(flight, start, f.value, j); }
    assert MessageSeq(flight[j]) == start + j;
    if flight[j] in arrivals { FindStored(arrivals, flight[j], start + j); }
  }

  // ---------------------------------------------------------------- the uninitialised queue

  /** An early message that is not there yet is stored exactly when it has at most 200 octets and the queue has been initialised. */
  lemma EarlyStoredExactly(c: Config, w: World, e: Endpoint, m: Message)
    requires e.known && e.hs.Some? && MessageSeq(m) > e.hs.value.mseqR
    requires forall x :: x in Queue(e) ==> MessageSeq(x) != MessageSeq(m)
    ensures var r := HandleHandshake(c, w, e, m);
      r.err == 0 && Queue(r.e) == if Ready(e) && |m| <= 200 then Queue(e) + [m] else Queue(e)
  {
    hide MessageSeq, HandleHandshakeMsg;
  }

  /** A handshake that dtls_renegotiate has begun is without a queue, also when the hello could not be sent. */
  lemma RenegotiatedWithoutQueue(c: Config, w: World, e: Endpoint)
    requires e.known && e.state == Connected
    ensures var f := Renegotiate(c, w, e).e; f.known && f.hs.Some? && !Ready(f) && f.hs.value.mseqR == 0 && Queue(f) == []
  {
    hide SendClientHello, SendHandshake;
  }

  /** There the flight is lost when it arrives in any order but its own: of two messages swapped only the first is handled. */
  lemma SwappedFlightLost(c: Config, w: World, e: Endpoint, first: Message, second: Message)
    requires e.known && e.hs.Some? && !Ready(e) && Queue(e) == [] && ConsumedInTurn(c, w, e, [first, second])
    requires MessageSeq(first) == e.hs.value.mseqR && MessageSeq(second) == e.hs.value.mseqR + 1
    ensures ArriveAllAt(c, w, e, [second, first]) == Handled(c, w, e, [first])
  {
    hide HandleHandshakeMsg, MessageSeq, DrainQueue;
    var ms, late := [first, second], [second, first];
    assert ms[..0] == [] && ms[..1] == [first] && [first][..0] == [];
    assert late[..1] == [second] && [second][..0] == [];
    assert Took(c, w, Handled(c, w, e, ms[..0]), ms[0]);
    assert Handled(c, w, e, []) == e && ArriveAllAt(c, w, e, []) == e;
    assert ArriveAllAt(c, w, e, [second]) == HandleHandshake(c, w, e, second).e == e;
    var r := HandleHandshakeMsg(c, w, e, first);
    EmptyDrain(c, w, r.e, r.err);
  }

  lemma EmptyDrain(c: Config, w: World, e: Endpoint, res: int)
    requires e.known && Queue(e) == []
    ensures DrainQueue(c, w, e, res) == Outcome(e, res)
  {
    if e.hs.Some? { assert Find(e.hs.value.queue, e.hs.value.mseqR) == 0; }
  }

  // ---------------------------------------------------------------- and over runs

  /** Nothing but dtls_renegotiate makes a handshake without a queue. */
  lemma PayloadReady(c: Config, w: World, e: Endpoint, ctype: byte, epoch: uint16, data: seq<byte>)
    requires Ready(e)
    ensures Ready(HandlePayload(c, w, e, ctype, epoch, data).e)
  {
    hide HandleHandshake, CalculateKeyBlock, SendAlert;
  }

  lemma RecordReady(c: Config, w: World, e: Endpoint, record: seq<byte>)
    requires Ready(e) && |record| >= 13
    ensures Ready(HandleRecord(c, w, e, record).e)
  {
    hide HandlePayload, DecryptVerify, SendAlert;
    var e1 := e.(clock := e.clock + 1);
    if !e1.known { PayloadReady(c, w, e1, record[0], RecordSpec.EpochOf(record), record[13..]); }
    else {
      match DecryptVerify(c, e1, record)
      case Rejected =>
      case Accepted(data) => PayloadReady(c, w, AfterDecrypt(e1, record), record[0], RecordSpec.EpochOf(record), data);
    }
  }

  lemma {:induction false} MessageReady(c: Config, w: World, e: Endpoint, msg: seq<byte>)
    requires Ready(e)
    ensures Ready(HandleMessage(c, w, e, msg).e)
    decreases |msg|
  {
    hide HandleRecord, Ready;
    var n := Datagram.RecordLength(msg);
    if n > 0 {
      RecordReady(c, w, e, msg[..n]);
      MessageReady(c, w, HandleRecord(c, w, e, msg[..n]).e, msg[n..]);
    }
  }

  lemma StepReady(c: Config, w: World, e: Endpoint, v: Event)
    requires Ready(e) && !v.Renegotiates? && (v.Connects? ==> !e.known)
    ensures Ready(Step(c, w, e, v))
  {
    hide HandleMessage, SendClientHello, SendHandshake, Transmit, SendAlert;
    match v
    case Arrives(msg) => MessageReady(c, w, e, msg);
    case _ =>
  }

  /** In every run: a handshake without a queue was begun by dtls_renegotiate, called by itself or from dtls_connect. */
  lemma {:induction false} WithoutQueueByRenegotiation(c: Config, w: World, vs: seq<Event>) returns (i: nat)
    requires !Ready(Run(c, w, vs))
    ensures i < |vs| && (vs[i].Renegotiates? || vs[i].Connects?)
    ensures var e := Run(c, w, vs[..i]); e.known && e.state == Connected
  {
    hide Step;
    var front := vs[..|vs| - 1];
    if Ready(Run(c, w, front)) {
      i := |vs| - 1;
      StepUnready(c, w, Run(c, w, front), vs[i]);
    } else {
      i := WithoutQueueByRenegotiation(c, w, front);
      assert front[..i] == vs[..i];
    }
  }

  lemma StepUnready(c: Config, w: World, e: Endpoint, v: Event)
    requires Ready(e) && !Ready(Step(c, w, e, v))
    ensures (v.Renegotiates? || v.Connects?) && e.known && e.state == Connected
  {
    hide HandleMessage, SendClientHello, SendHandshake, Transmit, SendAlert;
    if !v.Renegotiates? && (v.Connects? ==> !e.known) { StepReady(c, w, e, v); }
  }
}

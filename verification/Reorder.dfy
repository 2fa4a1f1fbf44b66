/** The reorder buffer of handle_handshake: section 4.2.2 of RFC 6347. */
module Reorder {
  import opened Bytes
  import opened Peers
  import opened RecordSpec

  /** A handshake message, with at least its header. */
  type Message = m: seq<byte> | |m| >= HS_LENGTH witness Zeros(12)

  /** dtls_uint16_to_int(hs_header->message_seq) */
  function MessageSeq(m: Message): uint16 {
    TwoOctets(m[4..6]);
    Value(m[4..6])
  }

  /** The first queued message with sequence number `n`, |q| if there is none. */
  function Find(q: seq<Message>, n: int): (i: nat)
    ensures i <= |q|
    ensures i < |q| ==> MessageSeq(q[i]) == n
    ensures forall j :: 0 <= j < i ==> MessageSeq(q[j]) != n
  {
    if q == [] || MessageSeq(q[0]) == n then 0 else 1 + Find(q[1..], n)
  }

  /** Buffering an early message: dropped when too long or already stored. */
  function Store(q: seq<Message>, m: Message): (r: seq<Message>) {
    if |m| > MAX_BUF || Find(q, MessageSeq(m)) < |q| then q else q + [m]
  }

  function Removed(q: seq<Message>, i: nat): (r: seq<Message>)
    requires i < |q|
    ensures |r| == |q| - 1
    ensures forall m :: m in r ==> m in q
  {
    q[..i] + q[i + 1..]
  }

  /** The loop that looks for a stored message with this sequence number. */
  method Search(q: seq<Message>, n: int) returns (i: nat)
    ensures i == Find(q, n)
  {
    i := 0;
    while i < |q| && MessageSeq(q[i]) != n
      invariant i <= |q| && Find(q, n) == i + Find(q[i..], n)
    {
      i := i + 1;
    }
  }

  // ---------------------------------------------------------------- delivery when every message is consumed

  /** `next` is mseq_r; `handed` is what handle_handshake_msg has been called with. */
  datatype Buffer = Buffer(next: nat, queue: seq<Message>, handed: seq<Message>)

  function Deliver(b: Buffer, m: Message): Buffer {
    b.(next := b.next + 1, handed := b.handed + [m])
  }

  /** The drain loop. */
  function Drain(b: Buffer): Buffer
    decreases |b.queue|
  {
    var i := Find(b.queue, b.next);
    if i == |b.queue| then b
    else Drain(Deliver(b.(queue := Removed(b.queue, i)), b.queue[i]))
  }

  function Arrive(b: Buffer, m: Message): Buffer {
    if MessageSeq(m) < b.next then b
    else if MessageSeq(m) > b.next then b.(queue := Store(b.queue, m))
    else Drain(Deliver(b, m))
  }

  function ArriveAll(next: nat, arrivals: seq<Message>): (b: Buffer) {
    if arrivals == [] then Buffer(next, [], [])
    else
      Arrive(ArriveAll(next, arrivals[..|arrivals| - 1]), arrivals[|arrivals| - 1])
  }

  /** The copy of message `n` that arrived first. */
  function First(arrivals: seq<Message>, n: int): Option<Message> {
    var i := Find(arrivals, n);
    if i < |arrivals| then Some(arrivals[i]) else None
  }

  /** What holds whenever no message is being handled, `start` being mseq_r at the beginning. */
  ghost predicate AtRest(b: Buffer, start: nat, arrivals: seq<Message>) {
    && Delivered(b, start, arrivals)
    && First(arrivals, b.next).None?
  }

  /** AtRest, except that the message `next` may be waiting in the queue. */
  ghost predicate Delivered(b: Buffer, start: nat, arrivals: seq<Message>) {
    && b.next == start + |b.handed|
    && (forall j :: 0 <= j < |b.handed| ==> First(arrivals, start + j) == Some(b.handed[j]))
    && (forall j :: 0 <= j < |b.queue| ==>
          MessageSeq(b.queue[j]) >= b.next && First(arrivals, MessageSeq(b.queue[j])) == Some(b.queue[j]))
    && (forall n :: n >= b.next && First(arrivals, n).Some? ==> First(arrivals, n).value in b.queue)
    && (forall i, j :: 0 <= i < j < |b.queue| ==> MessageSeq(b.queue[i]) != MessageSeq(b.queue[j]))
  }

  lemma {:induction false} FindAppend(q: seq<Message>, m: Message, n: int)
    ensures Find(q + [m], n) == if Find(q, n) < |q| then Find(q, n) else if MessageSeq(m) == n then |q| else |q| + 1
  {
    if q == [] {
      assert q + [m] == [m] && [m][1..] == [];
    } else {
      assert (q + [m])[1..] == q[1..] + [m] && (q + [m])[0] == q[0];
      FindAppend(q[1..], m, n);
    }
  }

  lemma FirstAppend(arrivals: seq<Message>, m: Message, n: int)
    ensures First(arrivals + [m], n) == if First(arrivals, n).Some? || MessageSeq(m) != n then First(arrivals, n) else Some(m)
  {
    hide MessageSeq;
    FindAppend(arrivals, m, n);
  }

  lemma FirstHasSeq(arrivals: seq<Message>, n: int)
    ensures First(arrivals, n).Some? ==> First(arrivals, n).value in arrivals && MessageSeq(First(arrivals, n).value) == n
  {
  }

  /** A stored message is found. */
  lemma FindStored(q: seq<Message>, m: Message, n: int)
    requires m in q && MessageSeq(m) == n
    ensures Find(q, n) < |q|
  {
    var j :| 0 <= j < |q| && q[j] == m;
  }

  /** Draining hands on everything that has become deliverable and stops where the next message is missing. */
  lemma {:induction false} DrainRests(b: Buffer, start: nat, arrivals: seq<Message>)
    requires Delivered(b, start, arrivals)
    ensures AtRest(Drain(b), start, arrivals)
    decreases |b.queue|
  {
    hide MessageSeq, First;
    var i := Find(b.queue, b.next);
    if i == |b.queue| {
      if First(arrivals, b.next).Some? {
        FirstHasSeq(arrivals, b.next);
        FindStored(b.queue, First(arrivals, b.next).value, b.next);
        assert false;
      }
    } else {
      RemoveKeeps(b, start, arrivals, i);
      DrainRests(Deliver(b.(queue := Removed(b.queue, i)), b.queue[i]), start, arrivals);
    }
  }

  /** Taking out one of several messages with different sequence numbers. */
  lemma RemovedMembers(q: seq<Message>, i: nat)
    requires i < |q|
    requires forall j, k :: 0 <= j < k < |q| ==> MessageSeq(q[j]) != MessageSeq(q[k])
    ensures forall m :: m in Removed(q, i) <==> m in q && MessageSeq(m) != MessageSeq(q[i])
    ensures var r := Removed(q, i); forall j, k :: 0 <= j < k < |r| ==> MessageSeq(r[j]) != MessageSeq(r[k])
  {
    hide MessageSeq;
    var r := Removed(q, i);
    forall j | 0 <= j < |r| ensures r[j] == q[if j < i then j else j + 1] {}
    forall m | m in q && MessageSeq(m) != MessageSeq(q[i]) ensures m in r {
      var k :| 0 <= k < |q| && q[k] == m;
      assert r[if k < i then k else k - 1] == m;
    }
  }

  lemma RemoveKeeps(b: Buffer, start: nat, arrivals: seq<Message>, i: nat)
    requires Delivered(b, start, arrivals)
    requires i < |b.queue| && MessageSeq(b.queue[i]) == b.next
    ensures Delivered(Deliver(b.(queue := Removed(b.queue, i)), b.queue[i]), start, arrivals)
  {
    hide MessageSeq, First, Removed;
    var m, q := b.queue[i], Removed(b.queue, i);
    RemovedMembers(b.queue, i);
    assert First(arrivals, MessageSeq(m)) == Some(m);
    forall j | 0 <= j < |q| ensures MessageSeq(q[j]) >= b.next + 1 && First(arrivals, MessageSeq(q[j])) == Some(q[j]) {
      assert q[j] in b.queue && MessageSeq(q[j]) != b.next;
    }
    forall n | n >= b.next + 1 && First(arrivals, n).Some? ensures First(arrivals, n).value in q {
      FirstHasSeq(arrivals, n);
    }
  }

  /** Storing an early message. */
  lemma StoreKeeps(b: Buffer, start: nat, arrivals: seq<Message>, m: Message)
    requires AtRest(b, start, arrivals)
    requires |m| <= MAX_BUF && MessageSeq(m) > b.next
    ensures AtRest(b.(queue := Store(b.queue, m)), start, arrivals + [m])
  {
    hide MessageSeq, First;
    var n := MessageSeq(m);
    forall k ensures First(arrivals + [m], k) == if First(arrivals, k).Some? || n != k then First(arrivals, k) else Some(m) {
      FirstAppend(arrivals, m, k);
    }
    if Find(b.queue, n) < |b.queue| {
      assert First(arrivals, n).Some? by { assert First(arrivals, MessageSeq(b.queue[Find(b.queue, n)])).Some?; }
    } else if First(arrivals, n).Some? {
      FirstHasSeq(arrivals, n);
      FindStored(b.queue, First(arrivals, n).value, n);
      assert false;
    } else {
      forall i | 0 <= i < |b.queue| ensures MessageSeq(b.queue[i]) != n {}
    }
  }

  lemma LateKeeps(b: Buffer, start: nat, arrivals: seq<Message>, m: Message)
    requires AtRest(b, start, arrivals)
    requires MessageSeq(m) < b.next
    ensures AtRest(b, start, arrivals + [m])
  {
    hide MessageSeq, First;
    forall k ensures First(arrivals + [m], k) == if First(arrivals, k).Some? || MessageSeq(m) != k then First(arrivals, k) else Some(m) {
      FirstAppend(arrivals, m, k);
    }
    forall j | 0 <= j < |b.handed| ensures First(arrivals + [m], start + j) == Some(b.handed[j]) {}
  }

  lemma NextKeeps(b: Buffer, start: nat, arrivals: seq<Message>, m: Message)
    requires AtRest(b, start, arrivals)
    requires MessageSeq(m) == b.next
    ensures Delivered(Deliver(b, m), start, arrivals + [m])
  {
    hide MessageSeq, First;
    forall k ensures First(arrivals + [m], k) == if First(arrivals, k).Some? || MessageSeq(m) != k then First(arrivals, k) else Some(m) {
      FirstAppend(arrivals, m, k);
    }
  }

  /**
   * In any arrival order, with any duplicates: the messages handed on are the first copies of start,
   * start + 1, ... once each and in order, up to the first one still missing; the queue holds the first
   * copies of later ones, each once.
   */
  lemma {:induction false} DeliveryIsInOrder(start: nat, arrivals: seq<Message>)
    requires forall m :: m in arrivals ==> |m| <= MAX_BUF
    ensures AtRest(ArriveAll(start, arrivals), start, arrivals)
  {
    if arrivals != [] {
      var before, m := arrivals[..|arrivals| - 1], arrivals[|arrivals| - 1];
      assert arrivals == before + [m] && m in arrivals;
      DeliveryIsInOrder(start, before);
      var b := ArriveAll(start, before);
      hide MessageSeq, First, AtRest, Delivered;
      if MessageSeq(m) < b.next {
        LateKeeps(b, start, before, m);
      } else if MessageSeq(m) > b.next {
        StoreKeeps(b, start, before, m);
      } else {
        NextKeeps(b, start, before, m);
        DrainRests(Deliver(b, m), start, arrivals);
      }
    }
  }

  /** `ms` are the messages start, start + 1, ... in order, once each. */
  ghost predicate Consecutive(ms: seq<Message>, start: nat) {
    forall j :: 0 <= j < |ms| ==> MessageSeq(ms[j]) == start + j
  }

  /** Which messages of a flight can be met among its arrivals. */
  lemma FlightFirst(start: nat, arrivals: seq<Message>, ms: seq<Message>, n: int)
    requires Consecutive(ms, start)
    requires forall m :: m in arrivals <==> m in ms
    ensures First(arrivals, n) == if start <= n < start + |ms| then Some(ms[n - start]) else None
  {
    FirstHasSeq(arrivals, n);
    if start <= n < start + |ms| {
      assert ms[n - start] in arrivals;
      FindStored(arrivals, ms[n - start], n);
    }
    hide MessageSeq, Find;
    if First(arrivals, n).Some? {
      var k :| 0 <= k < |ms| && ms[k] == First(arrivals, n).value;
      assert MessageSeq(ms[k]) == start + k;
    }
  }

  lemma HandedIsFlight(b: Buffer, start: nat, arrivals: seq<Message>, ms: seq<Message>)
    requires AtRest(b, start, arrivals)
    requires forall n :: First(arrivals, n) == if start <= n < start + |ms| then Some(ms[n - start]) else None
    ensures b == Buffer(start + |ms|, [], ms)
  {
    hide First, MessageSeq;
    assert First(arrivals, b.next).None?;
    forall j | 0 <= j < |b.handed| ensures j < |ms| && b.handed[j] == ms[j] {
      assert First(arrivals, start + j) == Some(b.handed[j]);
    }
    if |b.handed| > 0 {
      var last := |b.handed| - 1;
      var m := b.handed[last];
      assert last < |ms| && m == ms[last];
    }
    assert |b.handed| >= |ms|;
    assert b.handed == ms;
    if b.queue != [] {
      var n := WaitingFor(b, start, arrivals);
      assert false;
    }
  }

  /** What is queued has arrived, and is not due yet. */
  lemma WaitingFor(b: Buffer, start: nat, arrivals: seq<Message>) returns (n: nat)
    requires AtRest(b, start, arrivals) && b.queue != []
    ensures n >= b.next && First(arrivals, n) == Some(b.queue[0])
  {
    hide First, MessageSeq;
    n := MessageSeq(b.queue[0]);
  }

  /** However often and in whatever order they arrive, the messages of a flight are handed on as if nothing was reordered. */
  lemma ReorderingIsInvisible(start: nat, arrivals: seq<Message>, ms: seq<Message>)
    requires Consecutive(ms, start)
    requires forall m :: m in arrivals <==> m in ms
    requires forall m :: m in ms ==> |m| <= MAX_BUF
    ensures ArriveAll(start, arrivals) == Buffer(start + |ms|, [], ms)
  {
    DeliveryIsInOrder(start, arrivals);
    hide First, MessageSeq, Consecutive, ArriveAll, AtRest;
    forall n: int ensures First(arrivals, n) == if start <= n < start + |ms| then Some(ms[n - start]) else None {
      FlightFirst(start, arrivals, ms, n);
    }
    HandedIsFlight(ArriveAll(start, arrivals), start, arrivals, ms);
  }
}

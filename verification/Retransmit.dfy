/** The retransmission queue: netq.c, and the timer functions at the end of dtls.c (section 4.2.4.1 of RFC 6347). */
module Retransmit {
  import opened Bytes

  const MAX_RETRANSMIT: nat := 7

  type Timeout = x: nat | x > 0 witness 1

  /** netq_t. `id` stands for the address of the node, `start` is when its message was first sent. */
  datatype Node = Node(id: nat, peer: nat, start: nat, t: nat, timeout: Timeout, retransmits: nat, data: seq<byte>)

  /** One call of the write callback from dtls_retransmit. */
  datatype Resend = Resend(id: nat, k: nat, start: nat, timeout: Timeout, time: nat)

  // ---------------------------------------------------------------- netq_insert_node

  /** Where the walk of netq_insert_node stops: at the first later node, or at the last one. */
  function StopAt(q: seq<Node>, t: nat, i: nat): (p: nat)
    requires i < |q|
    ensures i <= p < |q|
    ensures forall j :: i <= j < p ==> q[j].t <= t
    ensures q[p].t > t || p == |q| - 1
    decreases |q| - i
  {
    if q[i].t <= t && i + 1 < |q| then StopAt(q, t, i + 1) else i
  }

  /** list_insert puts the node behind the one the walk stopped at. */
  function Insert(q: seq<Node>, n: Node): (r: seq<Node>)
    ensures |r| == |q| + 1
  {
    if q == [] then [n] else
      var p := StopAt(q, n.t, 0);
      q[..p + 1] + [n] + q[p + 1..]
  }

  ghost predicate Sorted(q: seq<Node>) {
    forall i, j :: 0 <= i < j < |q| ==> q[i].t <= q[j].t
  }

  /**
   * The documentation promises a queue ordered by time stamp. An insertion keeps that order exactly when
   * no queued node is later than the new one.
   */
  lemma InsertKeepsOrder(q: seq<Node>, n: Node)
    requires Sorted(q)
    ensures Sorted(Insert(q, n)) <==> (q == [] || q[|q| - 1].t <= n.t)
  {
    if q != [] {
      var p, r := StopAt(q, n.t, 0), Insert(q, n);
      assert r[p] == q[p] && r[p + 1] == n;
      if q[|q| - 1].t <= n.t {
        assert p == |q| - 1;
        assert r == q + [n];
      } else if p == |q| - 1 {
        assert r[p].t > r[p + 1].t;
      }
    }
  }

  /** A node due earlier than the only queued one lands behind it. */
  lemma InsertBreaksOrder(a: Node, b: Node)
    requires b.t < a.t
    ensures Insert([a], b) == [a, b] && !Sorted(Insert([a], b))
  {
    assert StopAt([a], b.t, 0) == 0;
    assert Insert([a], b) == [a, b];
    assert [a, b][0].t > [a, b][1].t;
  }

  // ---------------------------------------------------------------- dtls_retransmit, dtls_check_retransmit

  ghost predicate Due(n: Node, now: nat) { n.t <= now }

  function CountDue(q: seq<Node>, now: nat): nat {
    if q == [] then 0 else (if q[0].t <= now then 1 else 0) + CountDue(q[1..], now)
  }

  /** The node as dtls_retransmit re-schedules it at time `time`. */
  function Rescheduled(n: Node, time: nat): Node {
    n.(retransmits := n.retransmits + 1, t := time + n.timeout * Pow2(n.retransmits + 1))
  }

  lemma RescheduledIsLater(n: Node, time: nat)
    ensures Rescheduled(n, time).t > time
  {
    assert n.timeout * Pow2(n.retransmits + 1) > 0 by { Positive(n.timeout, Pow2(n.retransmits + 1)); }
  }

  lemma Positive(a: nat, b: nat)
    requires a > 0 && b > 0
    ensures a * b > 0
  {
  }

  function ResendOf(n: Node, time: nat): Resend {
    Resend(n.id, n.retransmits + 1, n.start, n.timeout, time)
  }

  lemma {:induction false} CountDueSplit(a: seq<Node>, b: seq<Node>, now: nat)
    ensures CountDue(a + b, now) == CountDue(a, now) + CountDue(b, now)
  {
    if a == [] {
      assert a + b == b;
    } else {
      assert (a + b)[1..] == a[1..] + b;
      CountDueSplit(a[1..], b, now);
    }
  }

  /** Inserting a node that is not due does not change how many are. */
  lemma CountDueInsert(q: seq<Node>, n: Node, now: nat)
    requires n.t > now
    ensures CountDue(Insert(q, n), now) == CountDue(q, now)
  {
    if q != [] {
      var p := StopAt(q, n.t, 0);
      CountDueSplit(q[..p + 1] + [n], q[p + 1..], now);
      CountDueSplit(q[..p + 1], [n], now);
      CountDueSplit(q[..p + 1], q[p + 1..], now);
      assert q == q[..p + 1] + q[p + 1..];
      assert [n][1..] == [];
    } else {
      assert [n][1..] == [];
    }
  }

  /** Clock readings of successive dtls_retransmit calls, none of them before `now`. */
  ghost predicate Later(ticks: nat -> nat, now: nat) {
    forall i :: ticks(i) >= now
  }

  /** dtls_check_retransmit, from its `i`-th round on: the queue it leaves and the messages it sends. */
  function Check(q: seq<Node>, now: nat, ticks: nat -> nat, i: nat): (r: (seq<Node>, seq<Resend>))
    requires Later(ticks, now)
    decreases CountDue(q, now)
  {
    if q == [] || q[0].t > now then (q, [])
    else if q[0].retransmits < MAX_RETRANSMIT then
      var n := Rescheduled(q[0], ticks(i));
      RescheduledIsLater(q[0], ticks(i));
      CountDueInsert(q[1..], n, now);
      var r := Check(Insert(q[1..], n), now, ticks, i + 1);
      (r.0, [ResendOf(q[0], ticks(i))] + r.1)
    else Check(q[1..], now, ticks, i + 1)
  }

  lemma CheckRests(q: seq<Node>, now: nat, ticks: nat -> nat, i: nat)
    requires Later(ticks, now) && (q == [] || q[0].t > now)
    ensures Check(q, now, ticks, i) == (q, [])
  {
  }

  /** One round: the node at the head is handled, and fewer nodes are due. */
  lemma CheckRound(q: seq<Node>, now: nat, ticks: nat -> nat, i: nat)
    requires Later(ticks, now) && q != [] && q[0].t <= now
    ensures var n, again := Rescheduled(q[0], ticks(i)), q[0].retransmits < MAX_RETRANSMIT;
      var rest := if again then Insert(q[1..], n) else q[1..];
      && CountDue(rest, now) < CountDue(q, now)
      && Check(q, now, ticks, i).0 == Check(rest, now, ticks, i + 1).0
      && Check(q, now, ticks, i).1 == (if again then [ResendOf(q[0], ticks(i))] else []) + Check(rest, now, ticks, i + 1).1
  {
    hide Insert, Rescheduled, ResendOf;
    RescheduledIsLater(q[0], ticks(i));
    CountDueInsert(q[1..], Rescheduled(q[0], ticks(i)), now);
  }

  /** The nodes at the front that are due: the ones a call handles. */
  function DueFront(q: seq<Node>, now: nat): (k: nat)
    ensures k <= |q|
    ensures forall j :: 0 <= j < k ==> q[j].t <= now
    ensures k < |q| ==> q[k].t > now
  {
    if q == [] || q[0].t > now then 0 else 1 + DueFront(q[1..], now)
  }

  /** Handling `d` one after the other, with `r` behind them. */
  function Handled(d: seq<Node>, r: seq<Node>, ticks: nat -> nat, i: nat): (s: (seq<Node>, seq<Resend>)) {
    if d == [] then (r, [])
    else if d[0].retransmits < MAX_RETRANSMIT then
      var s := Handled(d[1..], Insert(r, Rescheduled(d[0], ticks(i))), ticks, i + 1);
      (s.0, [ResendOf(d[0], ticks(i))] + s.1)
    else Handled(d[1..], r, ticks, i + 1)
  }

  /** A node later than everything in `d` is inserted behind `d`. */
  lemma InsertBehind(d: seq<Node>, r: seq<Node>, n: Node)
    requires forall x :: x in d ==> x.t <= n.t
    ensures Insert(d + r, n) == d + Insert(r, n)
  {
    if r == [] {
      if d != [] {
        var p := StopAt(d, n.t, 0);
        assert d[p] in d;
        assert p == |d| - 1 && d + r == d;
      }
    } else {
      var s := StopAt(r, n.t, 0);
      StopBehind(d, r, n);
      CutBehind(d, r, s + 1, n);
    }
  }

  lemma CutBehind(d: seq<Node>, r: seq<Node>, i: nat, n: Node)
    requires i <= |r|
    ensures (d + r)[..|d| + i] + [n] + (d + r)[|d| + i..] == d + (r[..i] + [n] + r[i..])
  {
  }

  lemma StopBehind(d: seq<Node>, r: seq<Node>, n: Node)
    requires (forall x :: x in d ==> x.t <= n.t) && r != []
    ensures StopAt(d + r, n.t, 0) == |d| + StopAt(r, n.t, 0)
  {
    hide StopAt;
    var q, p, s := d + r, StopAt(d + r, n.t, 0), StopAt(r, n.t, 0);
    assert forall j :: 0 <= j < |d| ==> q[j] == d[j] && d[j] in d;
    assert forall j :: 0 <= j < |r| ==> q[|d| + j] == r[j];
    assert p >= |d|;
    assert q[p] == r[p - |d|] && q[|d| + s] == r[s];
  }

  /** What is not due stays behind what is. */
  ghost predicate FrontNotDue(r: seq<Node>, now: nat) {
    r != [] ==> r[0].t > now
  }

  lemma InsertFront(r: seq<Node>, n: Node, now: nat)
    requires FrontNotDue(r, now) && n.t > now
    ensures FrontNotDue(Insert(r, n), now)
  {
  }

  /** A call handles exactly the due nodes at the front, each once and in order, and nothing else. */
  lemma {:induction false} CheckHandlesFront(d: seq<Node>, r: seq<Node>, now: nat, ticks: nat -> nat, i: nat)
    requires Later(ticks, now) && FrontNotDue(r, now)
    requires forall x :: x in d ==> x.t <= now
    ensures Check(d + r, now, ticks, i) == Handled(d, r, ticks, i)
    decreases |d|
  {
    if d == [] {
      assert d + r == r;
    } else {
      assert (d + r)[0] == d[0] && (d + r)[1..] == d[1..] + r && d[0] in d;
      if d[0].retransmits < MAX_RETRANSMIT {
        var n := Rescheduled(d[0], ticks(i));
        RescheduledIsLater(d[0], ticks(i));
        InsertBehind(d[1..], r, n);
        InsertFront(r, n, now);
        CheckHandlesFront(d[1..], Insert(r, n), now, ticks, i + 1);
      } else {
        CheckHandlesFront(d[1..], r, now, ticks, i + 1);
      }
    }
  }

  lemma {:induction false} HandledDue(d: seq<Node>, r: seq<Node>, now: nat, ticks: nat -> nat, i: nat)
    requires Later(ticks, now)
    ensures CountDue(Handled(d, r, ticks, i).0, now) == CountDue(r, now)
    decreases |d|
  {
    if d != [] {
      if d[0].retransmits < MAX_RETRANSMIT {
        var n := Rescheduled(d[0], ticks(i));
        RescheduledIsLater(d[0], ticks(i));
        CountDueInsert(r, n, now);
        HandledDue(d[1..], Insert(r, n), now, ticks, i + 1);
      } else {
        HandledDue(d[1..], r, now, ticks, i + 1);
      }
    }
  }

  /**
   * A call leaves as many due nodes as stood behind the first node that was not due. So it leaves none
   * exactly when the due nodes were all at the front.
   */
  lemma CheckLeaves(q: seq<Node>, now: nat, ticks: nat -> nat)
    requires Later(ticks, now)
    ensures CountDue(Check(q, now, ticks, 0).0, now) == CountDue(q[DueFront(q, now)..], now)
  {
    var k := DueFront(q, now);
    assert q == q[..k] + q[k..];
    CheckHandlesFront(q[..k], q[k..], now, ticks, 0);
    HandledDue(q[..k], q[k..], now, ticks, 0);
  }

  lemma {:induction false} CountDueZero(q: seq<Node>, now: nat)
    ensures CountDue(q, now) == 0 <==> forall j :: 0 <= j < |q| ==> !Due(q[j], now)
  {
    if q != [] {
      CountDueZero(q[1..], now);
      assert forall j :: 0 < j < |q| ==> q[j] == q[1..][j - 1];
      assert CountDue(q, now) == 0 ==> !Due(q[0], now);
    }
  }

  lemma CheckLeavesNoneDue(q: seq<Node>, now: nat, ticks: nat -> nat)
    requires Later(ticks, now)
    ensures var left := Check(q, now, ticks, 0).0;
      (forall j :: 0 <= j < |left| ==> !Due(left[j], now)) <==> (forall j :: DueFront(q, now) <= j < |q| ==> !Due(q[j], now))
  {
    CheckLeaves(q, now, ticks);
    CountDueZero(Check(q, now, ticks, 0).0, now);
    var rest := q[DueFront(q, now)..];
    CountDueZero(rest, now);
    forall j | DueFront(q, now) <= j < |q| ensures q[j] == rest[j - DueFront(q, now)] {}
    forall j | 0 <= j < |rest| ensures rest[j] == q[j + DueFront(q, now)] {}
  }

  /** In an ordered queue the due nodes are at the front. */
  lemma SortedLeavesNoneDue(q: seq<Node>, now: nat, ticks: nat -> nat)
    requires Later(ticks, now) && Sorted(q)
    ensures var left := Check(q, now, ticks, 0).0; forall j :: 0 <= j < |left| ==> !Due(left[j], now)
  {
    hide Check;
    CheckLeavesNoneDue(q, now, ticks);
  }

  /** Without order, a due node can be left waiting behind one that is not due. */
  lemma DueNodeLeftWaiting(a: Node, b: Node, now: nat, ticks: nat -> nat)
    requires Later(ticks, now) && b.t <= now < a.t
    ensures Check(Insert([a], b), now, ticks, 0) == ([a, b], [])
  {
    InsertBreaksOrder(a, b);
  }

  // ---------------------------------------------------------------- whole runs

  datatype Event =
    | Send(peer: nat, now: nat, timeout: Timeout, data: seq<byte>)
    | Timer(now: nat, ticks: nat -> nat)
    | Stop(peer: nat)

  datatype Net = Net(queue: seq<Node>, log: seq<Resend>, nextId: nat)

  /** dtls_stop_retransmission drops every node of the peer. */
  function Without(q: seq<Node>, peer: nat): (r: seq<Node>)
    ensures forall n :: n in r <==> n in q && n.peer != peer
  {
    if q == [] then []
    else if q[0].peer == peer then Without(q[1..], peer)
    else [q[0]] + Without(q[1..], peer)
  }

  lemma WithoutFirst(q: seq<Node>, peer: nat)
    requires q != []
    ensures Without(q, peer) == (if q[0].peer == peer then [] else [q[0]]) + Without(q[1..], peer)
  {
  }

  lemma WithoutNothing(peer: nat)
    ensures Without([], peer) == []
  {
  }

  lemma RemovedAt(q: seq<Node>, i: nat)
    requires i < |q|
    ensures var r := q[..i] + q[i + 1..]; r[..i] == q[..i] && r[i..] == q[i + 1..]
  {
  }

  ghost predicate Possible(e: Event) {
    e.Timer? ==> Later(e.ticks, e.now)
  }

  function Step(s: Net, e: Event): Net
    requires Possible(e)
  {
    match e
    case Send(peer, now, timeout, data) =>
      Net(Insert(s.queue, Node(s.nextId, peer, now, now + timeout, timeout, 0, data)), s.log, s.nextId + 1)
    case Timer(now, ticks) =>
      var r := Check(s.queue, now, ticks, 0);
      Net(r.0, s.log + r.1, s.nextId)
    case Stop(peer) => s.(queue := Without(s.queue, peer))
  }

  function Run(es: seq<Event>): Net
    requires forall e :: e in es ==> Possible(e)
  {
    if es == [] then Net([], [], 0) else Step(Run(es[..|es| - 1]), es[|es| - 1])
  }

  /** How often a message has been sent again. */
  function Resends(log: seq<Resend>, id: nat): nat {
    if log == [] then 0 else Resends(log[..|log| - 1], id) + (if log[|log| - 1].id == id then 1 else 0)
  }

  /** The k-th resend of a message comes no earlier than 2^k - 1 timeouts after it was first sent. */
  ghost predicate BackedOff(e: Resend) {
    1 <= e.k <= MAX_RETRANSMIT && e.time >= e.start + e.timeout * (Pow2(e.k) - 1)
  }

  ghost predicate Waiting(s: Net, n: Node) {
    && n.id < s.nextId && n.retransmits <= MAX_RETRANSMIT
    && n.retransmits == Resends(s.log, n.id)
    && n.t >= n.start + n.timeout * (Pow2(n.retransmits + 1) - 1)
  }

  ghost predicate Distinct(q: seq<Node>) {
    forall i, j :: 0 <= i < j < |q| ==> q[i].id != q[j].id
  }

  ghost predicate QueueOk(s: Net) {
    Distinct(s.queue) && forall j :: 0 <= j < |s.queue| ==> Waiting(s, s.queue[j])
  }

  ghost predicate LogOk(log: seq<Resend>) {
    && (forall j :: 0 <= j < |log| ==> BackedOff(log[j]) && log[j].k == Resends(log[..j], log[j].id) + 1)
    && (forall id :: Resends(log, id) <= MAX_RETRANSMIT)
  }

  ghost predicate Consistent(s: Net) {
    && QueueOk(s) && LogOk(s.log)
    && (forall id :: id >= s.nextId ==> Resends(s.log, id) == 0)
  }

  lemma InsertMembers(q: seq<Node>, n: Node)
    ensures forall j :: 0 <= j <= |q| ==> Insert(q, n)[j] == n || Insert(q, n)[j] in q
    ensures Distinct(q) && (forall j :: 0 <= j < |q| ==> q[j].id != n.id) ==> Distinct(Insert(q, n))
  {
    if q != [] { InsertedMembers(q, n, StopAt(q, n.t, 0) + 1); }
  }

  lemma InsertedMembers(q: seq<Node>, n: Node, p: nat)
    requires p <= |q|
    ensures var r := q[..p] + [n] + q[p..];
      && (forall j :: 0 <= j < |r| ==> r[j] == n || r[j] in q)
      && (Distinct(q) && (forall j :: 0 <= j < |q| ==> q[j].id != n.id) ==> Distinct(r))
  {
    var r := q[..p] + [n] + q[p..];
    forall j | 0 <= j < |r| ensures r[j] == if j < p then q[j] else if j == p then n else q[j - 1] {}
  }

  lemma Doubling(start: nat, time: nat, timeout: nat, t: nat, p: nat)
    requires p > 0 && time >= t >= start + timeout * (p - 1)
    ensures time + timeout * p >= start + timeout * (2 * p - 1)
  {
    assert timeout * (2 * p - 1) == timeout * p + timeout * (p - 1);
  }

  lemma CountsGrow(log: seq<Resend>, e: Resend)
    ensures forall id :: Resends(log + [e], id) == Resends(log, id) + (if id == e.id then 1 else 0)
  {
    assert (log + [e])[..|log + [e]| - 1] == log;
  }

  lemma LogGrows(log: seq<Resend>, e: Resend)
    requires LogOk(log) && BackedOff(e) && e.k == Resends(log, e.id) + 1
    ensures LogOk(log + [e])
  {
    CountsGrow(log, e);
    hide Resends;
    var l := log + [e];
    forall j | 0 <= j < |l| ensures BackedOff(l[j]) && l[j].k == Resends(l[..j], l[j].id) + 1 {
      assert l[..j] == log[..j];
      if j == |log| { assert log[..j] == log; }
    }
  }

  lemma QueueAfterResend(s: Net, time: nat)
    requires QueueOk(s) && s.queue != [] && time >= s.queue[0].t && s.queue[0].retransmits < MAX_RETRANSMIT
    ensures QueueOk(Net(Insert(s.queue[1..], Rescheduled(s.queue[0], time)), s.log + [ResendOf(s.queue[0], time)], s.nextId))
  {
    hide Resends, Insert, Waiting, Rescheduled, ResendOf;
    var n, rest := s.queue[0], s.queue[1..];
    var m, e := Rescheduled(n, time), ResendOf(n, time);
    var next := Net(Insert(rest, m), s.log + [e], s.nextId);
    assert Waiting(s, n);
    NodeWaits(s, next, n, time);
    InsertMembers(rest, m);
    forall j | 0 <= j < |next.queue| ensures Waiting(next, next.queue[j]) {
      if next.queue[j] != m {
        var i :| 0 <= i < |rest| && rest[i] == next.queue[j];
        assert rest[i] == s.queue[i + 1] && Waiting(s, s.queue[i + 1]) && rest[i].id != n.id;
        OtherWaits(s, next, n, time, rest[i]);
      }
    }
  }

  /** The node sent again waits for its next time. */
  lemma NodeWaits(s: Net, next: Net, n: Node, time: nat)
    requires Waiting(s, n) && time >= n.t && n.retransmits < MAX_RETRANSMIT
    requires next.log == s.log + [ResendOf(n, time)] && next.nextId == s.nextId
    ensures Waiting(next, Rescheduled(n, time)) && Rescheduled(n, time).id == n.id
  {
    hide Resends;
    CountsGrow(s.log, ResendOf(n, time));
    Doubling(n.start, time, n.timeout, n.t, Pow2(n.retransmits + 1));
    assert Pow2(n.retransmits + 2) == 2 * Pow2(n.retransmits + 1);
  }

  lemma OtherWaits(s: Net, next: Net, n: Node, time: nat, x: Node)
    requires Waiting(s, x) && x.id != n.id && next.log == s.log + [ResendOf(n, time)] && next.nextId == s.nextId
    ensures Waiting(next, x)
  {
    hide Resends;
    CountsGrow(s.log, ResendOf(n, time));
  }

  /** One round of the loop: the first node is sent again and re-scheduled. */
  lemma ResendKeeps(s: Net, time: nat)
    requires Consistent(s) && s.queue != [] && s.queue[0].retransmits < MAX_RETRANSMIT && time >= s.queue[0].t
    ensures Consistent(Net(Insert(s.queue[1..], Rescheduled(s.queue[0], time)), s.log + [ResendOf(s.queue[0], time)], s.nextId))
  {
    hide Resends, Insert, Rescheduled, LogOk;
    var n := s.queue[0];
    assert Waiting(s, n);
    QueueAfterResend(s, time);
    CountsGrow(s.log, ResendOf(n, time));
    LogGrows(s.log, ResendOf(n, time));
  }

  lemma DropKeeps(s: Net)
    requires Consistent(s) && s.queue != []
    ensures Consistent(s.(queue := s.queue[1..]))
  {
    hide Resends, LogOk;
    var next := s.(queue := s.queue[1..]);
    forall j | 0 <= j < |next.queue| ensures Waiting(next, next.queue[j]) { assert Waiting(s, s.queue[j + 1]); }
  }

  lemma {:induction false} CheckKeeps(s: Net, now: nat, ticks: nat -> nat, i: nat)
    requires Consistent(s) && Later(ticks, now)
    ensures var r := Check(s.queue, now, ticks, i); Consistent(Net(r.0, s.log + r.1, s.nextId))
    decreases CountDue(s.queue, now)
  {
    hide Consistent, Insert, Rescheduled;
    var q := s.queue;
    if q == [] || q[0].t > now {
      assert s.log + [] == s.log;
    } else if q[0].retransmits < MAX_RETRANSMIT {
      var n, e := Rescheduled(q[0], ticks(i)), ResendOf(q[0], ticks(i));
      ResendKeeps(s, ticks(i));
      RescheduledIsLater(q[0], ticks(i));
      CountDueInsert(q[1..], n, now);
      var s' := Net(Insert(q[1..], n), s.log + [e], s.nextId);
      CheckKeeps(s', now, ticks, i + 1);
      var r := Check(s'.queue, now, ticks, i + 1);
      assert (s.log + [e]) + r.1 == s.log + ([e] + r.1);
    } else {
      DropKeeps(s);
      CheckKeeps(s.(queue := q[1..]), now, ticks, i + 1);
    }
  }

  lemma {:induction false} WithoutKeeps(q: seq<Node>, peer: nat)
    requires Distinct(q)
    ensures Distinct(Without(q, peer))
  {
    if q != [] {
      WithoutKeeps(q[1..], peer);
      var r := Without(q[1..], peer);
      forall j | 0 <= j < |r| ensures r[j].id != q[0].id {
        assert r[j] in q[1..];
        var i :| 0 <= i < |q| - 1 && q[1..][i] == r[j];
        assert q[i + 1] == r[j];
      }
    }
  }

  lemma SendKeeps(s: Net, n: Node)
    requires Consistent(s) && n.id == s.nextId && n.retransmits == 0 && n.t == n.start + n.timeout
    ensures Consistent(Net(Insert(s.queue, n), s.log, s.nextId + 1))
  {
    hide Resends, LogOk, Insert;
    var next := Net(Insert(s.queue, n), s.log, s.nextId + 1);
    assert forall j :: 0 <= j < |s.queue| ==> Waiting(s, s.queue[j]);
    InsertMembers(s.queue, n);
    assert Pow2(0) == 1 && Pow2(1) == 2;
    forall j | 0 <= j < |next.queue| ensures Waiting(next, next.queue[j]) {
      if next.queue[j] != n {
        var i :| 0 <= i < |s.queue| && s.queue[i] == next.queue[j];
        assert Waiting(s, s.queue[i]);
      }
    }
  }

  lemma StopKeeps(s: Net, peer: nat)
    requires Consistent(s)
    ensures Consistent(s.(queue := Without(s.queue, peer)))
  {
    hide Resends, LogOk;
    WithoutKeeps(s.queue, peer);
    var next := s.(queue := Without(s.queue, peer));
    forall j | 0 <= j < |next.queue| ensures Waiting(next, next.queue[j]) {
      assert next.queue[j] in s.queue;
      var i :| 0 <= i < |s.queue| && s.queue[i] == next.queue[j];
      assert Waiting(s, s.queue[i]);
    }
  }

  lemma StepKeeps(s: Net, e: Event)
    requires Consistent(s) && Possible(e)
    ensures Consistent(Step(s, e))
  {
    hide Consistent, Insert, Without, Check;
    match e
    case Send(peer, now, timeout, data) => SendKeeps(s, Node(s.nextId, peer, now, now + timeout, timeout, 0, data));
    case Timer(now, ticks) => CheckKeeps(s, now, ticks, 0);
    case Stop(peer) => StopKeeps(s, peer);
  }

  /**
   * Over any run of sends, timer calls and stops, whatever the order of the queue: a message is sent again
   * at most seven times, and its k-th resend comes at least timeout * (2^k - 1) after it was first sent.
   */
  lemma {:induction false} RunBounds(es: seq<Event>)
    requires forall e :: e in es ==> Possible(e)
    ensures Consistent(Run(es))
  {
    if es == [] {
      assert forall id :: Resends([], id) == 0;
    } else {
      RunBounds(es[..|es| - 1]);
      StepKeeps(Run(es[..|es| - 1]), es[|es| - 1]);
    }
  }

  lemma AtMostSeven(es: seq<Event>, id: nat, j: nat)
    requires forall e :: e in es ==> Possible(e)
    requires j < |Run(es).log|
    ensures Resends(Run(es).log, id) <= 7
    ensures var x := Run(es).log[j]; 1 <= x.k <= 7 && x.time >= x.start + x.timeout * (Pow2(x.k) - 1)
  {
    hide Run, LogOk, QueueOk;
    RunBounds(es);
    LogBounds(Run(es).log, id, j);
  }

  lemma LogBounds(log: seq<Resend>, id: nat, j: nat)
    requires LogOk(log) && j < |log|
    ensures Resends(log, id) <= 7 && 1 <= log[j].k <= 7 && log[j].time >= log[j].start + log[j].timeout * (Pow2(log[j].k) - 1)
  {
    hide Resends, Pow2;
    assert BackedOff(log[j]);
  }

  // ---------------------------------------------------------------- and seven times if nothing is heard

  /** When the node of a message falls due that has been sent again at each of `times`. */
  function DueTime(start: nat, timeout: Timeout, times: seq<nat>): nat {
    if times == [] then start + timeout else times[|times| - 1] + timeout * Pow2(|times|)
  }

  /** Each of `times` is not before the message falls due, given the earlier ones. */
  ghost predicate InTime(start: nat, timeout: Timeout, times: seq<nat>) {
    forall k :: 0 <= k < |times| ==> times[k] >= DueTime(start, timeout, times[..k])
  }

  /** The timer fires at each of `times`. */
  function Turns(times: seq<nat>): (es: seq<Event>)
    ensures |es| == |times|
    ensures forall e :: e in es ==> Possible(e)
  {
    if times == [] then [] else Turns(times[..|times| - 1]) + [Tick(times[|times| - 1])]
  }

  /** The resends at `times`, the k-th at times[k - 1]. */
  function ResendsAt(start: nat, timeout: Timeout, times: seq<nat>): (log: seq<Resend>)
    ensures |log| == |times|
  {
    if times == [] then []
    else ResendsAt(start, timeout, times[..|times| - 1]) + [Resend(0, |times|, start, timeout, times[|times| - 1])]
  }

  /** What becomes of a message that is sent, and then left alone but for the timer at `times`. */
  function LeftAlone(peer: nat, start: nat, timeout: Timeout, data: seq<byte>, times: seq<nat>): Net {
    if |times| <= 7
    then Net([Node(0, peer, start, DueTime(start, timeout, times), timeout, |times|, data)], ResendsAt(start, timeout, times), 1)
    else Net([], ResendsAt(start, timeout, times[..7]), 1)
  }

  /** A single node that is due: sent again if that has happened fewer than seven times, dropped otherwise. */
  lemma LoneNode(n: Node, now: nat, ticks: nat -> nat)
    requires Later(ticks, now) && n.t <= now
    ensures Check([n], now, ticks, 0) ==
      if n.retransmits < 7
      then ([n.(retransmits := n.retransmits + 1, t := ticks(0) + n.timeout * Pow2(n.retransmits + 1))],
            [Resend(n.id, n.retransmits + 1, n.start, n.timeout, ticks(0))])
      else ([], [])
  {
    hide Check, Pow2;
    var m := Rescheduled(n, ticks(0));
    CheckRound([n], now, ticks, 0);
    RescheduledIsLater(n, ticks(0));
    InsertFirst(m);
    assert [n][1..] == [];
    CheckRests(if n.retransmits < 7 then [m] else [], now, ticks, 1);
    var r := Check([n], now, ticks, 0);
    assert r.0 == (if n.retransmits < 7 then [m] else []) && r.1 == (if n.retransmits < 7 then [ResendOf(n, ticks(0))] else []);
  }

  /** One more turn of the timer. */
  lemma NextTurn(peer: nat, start: nat, timeout: Timeout, data: seq<byte>, times: seq<nat>, at: nat)
    requires |times| <= 7 && at >= DueTime(start, timeout, times)
    ensures Possible(Tick(at))
    ensures Step(LeftAlone(peer, start, timeout, data, times), Tick(at)) == LeftAlone(peer, start, timeout, data, times + [at])
  {
    hide Check, Pow2;
    var s := LeftAlone(peer, start, timeout, data, times);
    LoneNode(s.queue[0], at, Still(at));
    assert (times + [at])[..|times|] == times;
    assert s.log + [] == s.log;
  }

  /**
   * For every message and all times, however late the timer fires: while nothing else happens, the message is sent
   * again on each of seven turns, after the k-th of them it waits timeout * 2^k longer, and the eighth drops it.
   */
  lemma {:induction false} SevenTurns(peer: nat, start: nat, timeout: Timeout, data: seq<byte>, times: seq<nat>)
    requires |times| <= 8 && InTime(start, timeout, times)
    ensures var es := [Send(peer, start, timeout, data)] + Turns(times);
      (forall e :: e in es ==> Possible(e)) && Run(es) == LeftAlone(peer, start, timeout, data, times)
  {
    hide Step, DueTime, Tick, LeftAlone, Possible;
    var a := Send(peer, start, timeout, data);
    assert Possible(a) by { PossibleSend(peer, start, timeout, data); }
    if times == [] {
      FirstLeftAlone(peer, start, timeout, data);
      assert [a] + [] == [] + [a] && Run([]) == Net([], [], 0);
      RunNext([], a);
    } else {
      var before, at := times[..|times| - 1], times[|times| - 1];
      assert forall k :: 0 <= k < |before| ==> before[..k] == times[..k];
      SevenTurns(peer, start, timeout, data, before);
      NextTurn(peer, start, timeout, data, before, at);
      RunNext([a] + Turns(before), Tick(at));
      assert [a] + Turns(times) == ([a] + Turns(before)) + [Tick(at)];
      assert times == before + [at];
    }
  }

  lemma PossibleSend(peer: nat, start: nat, timeout: Timeout, data: seq<byte>)
    ensures Possible(Send(peer, start, timeout, data))
  {
  }

  lemma FirstLeftAlone(peer: nat, start: nat, timeout: Timeout, data: seq<byte>)
    ensures Step(Net([], [], 0), Send(peer, start, timeout, data)) == LeftAlone(peer, start, timeout, data, [])
  {
    InsertFirst(Node(0, peer, start, start + timeout, timeout, 0, data));
  }

  /** The run with the timeout the code uses: eight turns, seven resends, and an empty queue. */
  lemma EightTurns(peer: nat, data: seq<byte>)
    ensures var es := [Send(peer, 0, 2000, data)] + Turns([2000, 6000, 14000, 30000, 62000, 126000, 254000, 510000]);
      && (forall e :: e in es ==> Possible(e))
      && var s := Run(es); s.queue == [] && |s.log| == 7 && forall k :: 0 <= k < 7 ==> s.log[k].k == k + 1
  {
    hide Run, Turns, Pow2;
    var times := [2000, 6000, 14000, 30000, 62000, 126000, 254000, 510000];
    Powers();
    forall k | 0 <= k < 8 ensures times[k] >= DueTime(0, 2000, times[..k]) {}
    SevenTurns(peer, 0, 2000, data, times);
    ResendsAre(0, 2000, times[..7]);
  }

  lemma Powers()
    ensures Pow2(0) == 1 && Pow2(1) == 2 && Pow2(2) == 4 && Pow2(3) == 8 && Pow2(4) == 16
    ensures Pow2(5) == 32 && Pow2(6) == 64 && Pow2(7) == 128
  {
  }

  lemma {:induction false} ResendsAre(start: nat, timeout: Timeout, times: seq<nat>)
    ensures forall k :: 0 <= k < |times| ==> ResendsAt(start, timeout, times)[k] == Resend(0, k + 1, start, timeout, times[k])
  {
    if times != [] { ResendsAre(start, timeout, times[..|times| - 1]); }
  }

  lemma InsertHas(q: seq<Node>, n: Node, x: Node)
    ensures x in Insert(q, n) <==> x == n || x in q
  {
    if q != [] {
      var p := StopAt(q, n.t, 0) + 1;
      assert q == q[..p] + q[p..];
    }
  }

  lemma {:induction false} HandledKeeps(d: seq<Node>, r: seq<Node>, ticks: nat -> nat, i: nat, x: Node)
    requires x in r
    ensures x in Handled(d, r, ticks, i).0
    decreases |d|
  {
    hide Insert, Rescheduled;
    if d != [] {
      InsertHas(r, Rescheduled(d[0], ticks(i)), x);
      HandledKeeps(d[1..], if d[0].retransmits < MAX_RETRANSMIT then Insert(r, Rescheduled(d[0], ticks(i))) else r, ticks, i + 1, x);
    }
  }

  /** `n` is sent again at `time`, and waits on. */
  ghost predicate Again(s: (seq<Node>, seq<Resend>), n: Node, time: nat) {
    && Resend(n.id, n.retransmits + 1, n.start, n.timeout, time) in s.1
    && n.(retransmits := n.retransmits + 1, t := time + n.timeout * Pow2(n.retransmits + 1)) in s.0
  }

  /** Every due node that has been sent again fewer than seven times is sent, and back in the queue for its next time. */
  lemma {:induction false} DueNodeAgain(d: seq<Node>, r: seq<Node>, ticks: nat -> nat, i: nat, j: nat) returns (time: nat)
    requires j < |d| && d[j].retransmits < 7
    ensures Again(Handled(d, r, ticks, i), d[j], time)
    decreases |d|
  {
    hide Insert, Pow2;
    var m := Rescheduled(d[0], ticks(i));
    var rest := if d[0].retransmits < MAX_RETRANSMIT then Insert(r, m) else r;
    if j > 0 {
      time := DueNodeAgain(d[1..], rest, ticks, i + 1, j - 1);
    } else {
      time := ticks(i);
      InsertHas(r, m, m);
      HandledKeeps(d[1..], rest, ticks, i + 1, m);
    }
  }

  /** `id` is that of a due node that has been sent again fewer than seven times. */
  ghost predicate Young(d: seq<Node>, id: nat) {
    exists k :: 0 <= k < |d| && d[k].id == id && d[k].retransmits < 7
  }

  /** Nothing else is sent, and nothing else gets into the queue: a node that has been sent seven times is gone. */
  lemma {:induction false} OnlyYoungAgain(d: seq<Node>, r: seq<Node>, ticks: nat -> nat, i: nat)
    ensures forall x :: x in Handled(d, r, ticks, i).1 ==> Young(d, x.id)
    ensures forall x :: x in Handled(d, r, ticks, i).0 ==> x in r || Young(d, x.id)
    decreases |d|
  {
    hide Insert, Pow2, Young;
    if d != [] {
      var m := Rescheduled(d[0], ticks(i));
      var rest := if d[0].retransmits < MAX_RETRANSMIT then Insert(r, m) else r;
      OnlyYoungAgain(d[1..], rest, ticks, i + 1);
      forall id ensures Young(d[1..], id) ==> Young(d, id) { YoungInTail(d, id); }
      forall x ensures x in Insert(r, m) <==> x == m || x in r { InsertHas(r, m, x); }
      YoungFirst(d);
    }
  }

  lemma YoungInTail(d: seq<Node>, id: nat)
    requires d != []
    ensures Young(d[1..], id) ==> Young(d, id)
  {
    if Young(d[1..], id) {
      var k :| 0 <= k < |d[1..]| && d[1..][k].id == id && d[1..][k].retransmits < 7;
      assert d[k + 1] == d[1..][k];
    }
  }

  lemma YoungFirst(d: seq<Node>)
    requires d != []
    ensures d[0].retransmits < 7 ==> Young(d, d[0].id)
  {
  }

  /**
   * In any queue with distinct nodes, for any call: a due node at the front is sent again if and only if that has
   * happened fewer than seven times, and is in the queue afterwards under the same condition.
   */
  lemma DueNodeHandled(q: seq<Node>, now: nat, ticks: nat -> nat, j: nat)
    requires Later(ticks, now) && Distinct(q) && j < DueFront(q, now)
    ensures var s := Check(q, now, ticks, 0);
      && (q[j].retransmits < 7 ==> exists time :: Again(s, q[j], time))
      && ((exists x :: x in s.1 && x.id == q[j].id) <==> q[j].retransmits < 7)
      && ((exists x :: x in s.0 && x.id == q[j].id) <==> q[j].retransmits < 7)
  {
    hide Check, Handled, Pow2, Young;
    var k := DueFront(q, now);
    var d, r := q[..k], q[k..];
    assert q == d + r;
    CheckHandlesFront(d, r, now, ticks, 0);
    OnlyYoungAgain(d, r, ticks, 0);
    if q[j].retransmits < 7 {
      var time := DueNodeAgain(d, r, ticks, 0, j);
    } else {
      OldIsNotYoung(d, j);
      forall x | x in r ensures x.id != q[j].id {
        var i :| 0 <= i < |r| && r[i] == x;
        assert q[k + i] == x;
      }
    }
  }

  lemma OldIsNotYoung(d: seq<Node>, j: nat)
    requires j < |d| && Distinct(d) && d[j].retransmits >= 7
    ensures !Young(d, d[j].id)
  {
    forall k | 0 <= k < |d| && d[k].id == d[j].id ensures d[k].retransmits >= 7 {}
  }

  // ---------------------------------------------------------------- the queue in place

  class SendQueue {
    var nodes: seq<Node>
    var log: seq<Resend>

    constructor ()
      ensures nodes == [] && log == []
    {
      nodes, log := [], [];
    }

    /** netq_insert_node */
    method InsertNode(n: Node)
      modifies this`nodes
      ensures nodes == Insert(old(nodes), n)
    {
      if nodes == [] {
        nodes := [n];
      } else {
        var p := 0;
        while nodes[p].t <= n.t && p + 1 < |nodes|
          invariant 0 <= p < |nodes| && nodes == old(nodes)
          invariant StopAt(nodes, n.t, 0) == StopAt(nodes, n.t, p)
          decreases |nodes| - p
        {
          p := p + 1;
        }
        nodes := nodes[..p + 1] + [n] + nodes[p + 1..];
      }
    }

    /** dtls_stop_retransmission */
    method StopRetransmission(peer: nat)
      modifies this`nodes
      ensures nodes == Without(old(nodes), peer)
    {
      hide Without;
      var i := 0;
      ghost var kept := [];
      assert nodes[0..] == nodes;
      while i < |nodes|
        invariant 0 <= i <= |nodes| && nodes[..i] == kept
        invariant Without(old(nodes), peer) == kept + Without(nodes[i..], peer)
        decreases |nodes| - i
      {
        WithoutFirst(nodes[i..], peer);
        assert nodes[i..][1..] == nodes[i + 1..];
        if nodes[i].peer == peer {
          RemovedAt(nodes, i);
          nodes := nodes[..i] + nodes[i + 1..];
        } else {
          assert nodes[..i + 1] == kept + [nodes[i]];
          kept := kept + [nodes[i]];
          i := i + 1;
        }
      }
      assert nodes[i..] == [];
      WithoutNothing(peer);
    }

    /** dtls_retransmit, on a node already taken off the queue. */
    method Retransmit(n: Node, time: nat)
      modifies this
      ensures nodes == if n.retransmits < MAX_RETRANSMIT then Insert(old(nodes), Rescheduled(n, time)) else old(nodes)
      ensures log == old(log) + if n.retransmits < MAX_RETRANSMIT then [ResendOf(n, time)] else []
    {
      if n.retransmits < MAX_RETRANSMIT {
        InsertNode(Rescheduled(n, time));
        log := log + [ResendOf(n, time)];
      }
    }

    /** dtls_check_retransmit; `next` is the time stamp of the node then at the head. */
    method CheckRetransmit(now: nat, ticks: nat -> nat) returns (next: nat)
      requires Later(ticks, now)
      modifies this
      ensures nodes == Check(old(nodes), now, ticks, 0).0 && log == old(log) + Check(old(nodes), now, ticks, 0).1
      ensures nodes != [] ==> next == nodes[0].t && next > now
    {
      hide Insert, Rescheduled, ResendOf, Check, CountDue;
      var i := 0;
      next := 0;
      ghost var all := Check(nodes, now, ticks, 0);
      while nodes != [] && nodes[0].t <= now
        invariant 0 <= i
        invariant Check(nodes, now, ticks, i).0 == all.0
        invariant old(log) + all.1 == log + Check(nodes, now, ticks, i).1
        decreases CountDue(nodes, now)
      {
        var n, rest := nodes[0], nodes[1..];
        CheckRound(nodes, now, ticks, i);
        nodes := rest;
        Retransmit(n, ticks(i));
        i := i + 1;
      }
      CheckRests(nodes, now, ticks, i);
      if nodes != [] { next := nodes[0].t; }
    }
  }

  // ---------------------------------------------------------------- a run that leaves a due node waiting

  function Still(at: nat): nat -> nat { i => at }

  /** The timer fires at `at`, and the clock stands still meanwhile. */
  function Tick(at: nat): Event { Timer(at, Still(at)) }

  lemma RunNext(es: seq<Event>, e: Event)
    requires (forall x :: x in es ==> Possible(x)) && Possible(e)
    ensures (forall x :: x in es + [e] ==> Possible(x)) && Run(es + [e]) == Step(Run(es), e)
  {
    hide Step;
    assert (es + [e])[..|es + [e]| - 1] == es;
  }

  /** Check, with one due node in front that may be sent again. */
  lemma CheckOne(n: Node, at: nat)
    requires n.t <= at && n.retransmits == 0
    ensures Later(Still(at), at) && Check([n], at, Still(at), 0) == ([Rescheduled(n, at)], [ResendOf(n, at)])
  {
    var m := Rescheduled(n, at);
    RescheduledIsLater(n, at);
    assert [n][1..] == [] && Insert([], m) == [m];
    CheckRests([m], at, Still(at), 1);
    CheckRound([n], at, Still(at), 0);
    assert Still(at)(0) == at && [ResendOf(n, at)] + [] == [ResendOf(n, at)];
    var r := Check([n], at, Still(at), 0);
    assert r.0 == [m] && r.1 == [ResendOf(n, at)];
  }

  /**
   * Two messages with the timeout the code uses, the second sent while the first waits for its second resend: at
   * 5000 the second is due, the timer fires, and it stays behind the first, which is not due before 6000.
   */
  lemma DueNodeLeftInRun(peer: nat, data: seq<byte>)
    ensures var es := [Send(peer, 0, 2000, data), Tick(2000), Send(peer, 3000, 2000, data), Tick(5000)];
      && (forall e :: e in es ==> Possible(e))
      && var s := Run(es);
      && |s.queue| == 2 && Due(s.queue[1], 5000) && !Due(s.queue[0], 5000)
      && s.queue[0].t == 6000 && s.queue[1].t == 5000 && |s.log| == 1
  {
    hide Check, Insert, Run, Step, Rescheduled, Pow2, Tick;
    var a, b := Send(peer, 0, 2000, data), Send(peer, 3000, 2000, data);
    var n0, m := Node(0, peer, 0, 2000, 2000, 0, data), Node(1, peer, 3000, 5000, 2000, 0, data);
    FirstSent(peer, data);
    ResentOnce(n0, Net([n0], [], 1));
    var n1 := Rescheduled(n0, 2000);
    SecondSent(n1, m, Net([n1], [ResendOf(n0, 2000)], 1));
    LeftWaiting(n1, m, Net([n1, m], [ResendOf(n0, 2000)], 2));
    RunOfFour(a, Tick(2000), b, Tick(5000));
  }

  lemma RunOfFour(a: Event, b: Event, d: Event, f: Event)
    requires Possible(a) && Possible(b) && Possible(d) && Possible(f)
    ensures (forall e :: e in [a, b, d, f] ==> Possible(e))
    ensures Run([a, b, d, f]) == Step(Step(Step(Step(Net([], [], 0), a), b), d), f)
  {
    hide Step, Possible;
    RunNext([], a);
    assert [] + [a] == [a] && Run([]) == Net([], [], 0);
    RunNext([a], b);
    assert [a] + [b] == [a, b];
    RunNext([a, b], d);
    assert [a, b] + [d] == [a, b, d];
    RunNext([a, b, d], f);
    assert [a, b, d] + [f] == [a, b, d, f];
  }

  lemma FirstSent(peer: nat, data: seq<byte>)
    ensures Step(Net([], [], 0), Send(peer, 0, 2000, data)) == Net([Node(0, peer, 0, 2000, 2000, 0, data)], [], 1)
  {
    InsertFirst(Node(0, peer, 0, 2000, 2000, 0, data));
  }

  lemma ResentOnce(n: Node, s: Net)
    requires n.t == 2000 && n.timeout == 2000 && n.retransmits == 0 && s == Net([n], [], 1)
    ensures Possible(Tick(2000)) && Step(s, Tick(2000)) == Net([Rescheduled(n, 2000)], [ResendOf(n, 2000)], 1)
    ensures Rescheduled(n, 2000).t == 6000
  {
    hide Check;
    CheckOne(n, 2000);
    assert Pow2(1) == 2 * Pow2(0);
    assert [] + [ResendOf(n, 2000)] == [ResendOf(n, 2000)];
  }

  lemma SecondSent(n: Node, m: Node, s: Net)
    requires n.t == 6000 && m == Node(1, m.peer, 3000, 5000, 2000, 0, m.data) && s == Net([n], s.log, 1)
    ensures Step(s, Send(m.peer, 3000, 2000, m.data)) == Net([n, m], s.log, 2)
  {
    hide Insert;
    InsertBreaksOrder(n, m);
  }

  lemma LeftWaiting(n: Node, m: Node, s: Net)
    requires n.t == 6000 && s == Net([n, m], s.log, 2)
    ensures Possible(Tick(5000)) && Step(s, Tick(5000)) == s
  {
    hide Check;
    CheckRests([n, m], 5000, Still(5000), 0);
    assert s.log + [] == s.log;
  }

  lemma InsertFirst(n: Node)
    ensures Insert([], n) == [n]
  {
  }
}

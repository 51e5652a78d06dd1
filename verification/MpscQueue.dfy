/**
 The lock-free write queue of a connection: Vyukov's intrusive queue with many
 producers and one consumer. `Push` is two atomic steps (exchange the tail, then
 link the predecessor); `Pop` may put the embedded stub node back. The steps are
 functions on a snapshot of the shared memory, so that every interleaving is a
 run of `Next`; class `WriteQueue` is the code executed without interruption.
 */
module MpscQueue {
  import opened Base

  datatype Node = Stub | Item(id: nat)

  /** A producer between its exchange and its link; `at` is the place of `prev` in the exchange order. */
  datatype Pending = Pending(prev: Node, node: Node, at: nat)

  /** Where the consumer stands inside `pop`; `h` is the local of that name. */
  datatype Consumer =
    | Idle
    | Reload(h: Node)                          // skipped the stub, about to load h.next again
    | CheckTail(h: Node)                       // saw h.next null, about to load the tail
    | Reinsert(h: Node)                        // saw h == tail, about to exchange the stub in
    | Relink(h: Node, prev: Node, at: nat)     // exchanged the stub in, about to link it
    | Final(h: Node)                           // about to load h.next for the last time

  datatype Outcome = Running | Empty | Got(node: Node)

  /** Shared memory (a null `next` is an absent key), thread states, and history. */
  datatype Queue = Queue(
    next: map<Node, Node>,
    head: Node,
    tail: Node,
    producers: map<nat, Pending>,
    consumer: Consumer,
    order: seq<Node>,     // every node in the order of the tail exchanges, the stub first
    pos: nat,             // where the head stands in that order
    popped: seq<Node>,    // nodes returned by pop so far
    overlap: bool)        // some producer was unlinked at some moment of the current pop

  function Init(): Queue {
    Queue(map[], Stub, Stub, map[], Idle, [Stub], 0, [], false)
  }

  function Exchange(q: Queue, p: nat, n: Node): Queue {
    q.(next := q.next - {n}, tail := n,
       producers := q.producers[p := Pending(q.tail, n, Max(|q.order| - 1, 0))],
       order := q.order + [n], overlap := true)
  }

  function Link(q: Queue, p: nat): Queue
    requires p in q.producers
  {
    q.(next := q.next[q.producers[p].prev := q.producers[p].node], producers := q.producers - {p})
  }

  function Take(q: Queue, h: Node): (Queue, Outcome)
    requires h in q.next
  {
    (q.(head := q.next[h], pos := q.pos + 1, popped := q.popped + [h], consumer := Idle), Got(h))
  }

  function GiveUp(q: Queue): (Queue, Outcome) {
    (q.(consumer := Idle), Empty)
  }

  function TakeOrCheck(q: Queue, h: Node): (Queue, Outcome) {
    if h in q.next then Take(q, h) else (q.(consumer := CheckTail(h)), Running)
  }

  /** One atomic step of `pop`: at most one access to shared memory. */
  function ConsumerStep(q: Queue): (Queue, Outcome) {
    match q.consumer
    case Idle =>
      var q := q.(overlap := q.producers != map[]);
      if q.head != Stub then TakeOrCheck(q, q.head)
      else if Stub !in q.next then GiveUp(q)
      else (q.(head := q.next[Stub], pos := q.pos + 1, consumer := Reload(q.next[Stub])), Running)
    case Reload(h) => TakeOrCheck(q, h)
    case CheckTail(h) =>
      if h != q.tail then GiveUp(q) else (q.(consumer := Reinsert(h)), Running)
    case Reinsert(h) =>
      (q.(next := q.next - {Stub}, tail := Stub, order := q.order + [Stub],
          consumer := Relink(h, q.tail, Max(|q.order| - 1, 0))), Running)
    case Relink(h, prev, _) => (q.(next := q.next[prev := Stub], consumer := Final(h)), Running)
    case Final(h) => if h in q.next then Take(q, h) else GiveUp(q)
  }

  /** A producer pushes only a node it owns: a real node that is not in the queue. */
  ghost predicate Next(q: Queue, r: Queue) {
    || (exists p, n :: p !in q.producers && n != Stub && n !in Chain(q) && r == Exchange(q, p, n))
    || (exists p :: p in q.producers && r == Link(q, p))
    || r == ConsumerStep(q).0
  }

  // ---------------------------------------------------------------- the invariant

  /** The nodes from head to tail, linked or not. */
  function Chain(q: Queue): seq<Node> {
    if q.pos <= |q.order| then q.order[q.pos..] else []
  }

  /** What is in the queue for its user: the chain without the stub. */
  function Items(s: seq<Node>): seq<Node> {
    if s == [] then []
    else Items(s[..|s| - 1]) + if s[|s| - 1] == Stub then [] else [s[|s| - 1]]
  }

  ghost predicate GapAt(q: Queue, i: nat, prev: Node, node: Node) {
    q.pos <= i < |q.order| - 1 && q.order[i] == prev && q.order[i + 1] == node && prev !in q.next
  }

  /** A place of the order where the link is still missing. */
  ghost predicate IsGap(q: Queue, i: nat) {
    q.pos <= i < |q.order| - 1 && q.order[i] !in q.next
  }

  ghost predicate Owned(q: Queue, i: nat) {
    || (exists p :: p in q.producers && q.producers[p].at == i)
    || (q.consumer.Relink? && q.consumer.at == i)
  }

  ghost predicate Shape(q: Queue) {
    && q.pos < |q.order|
    && q.order[q.pos] == q.head
    && q.order[|q.order| - 1] == q.tail
    && q.tail !in q.next
    && (forall i, j :: q.pos <= i < j < |q.order| ==> q.order[i] != q.order[j])
    && (forall i :: q.pos <= i < |q.order| - 1 && q.order[i] in q.next ==> q.next[q.order[i]] == q.order[i + 1])
  }

  ghost predicate Gaps(q: Queue) {
    && (forall p :: p in q.producers ==> GapAt(q, q.producers[p].at, q.producers[p].prev, q.producers[p].node))
    && (forall p, p' :: p in q.producers && p' in q.producers && p != p' ==> q.producers[p].at != q.producers[p'].at)
    && (forall i :: IsGap(q, i) ==> Owned(q, i))
  }

  ghost predicate ConsumerOk(q: Queue) {
    match q.consumer
    case Idle => true
    case Reload(h) => h == q.head && h != Stub
    case CheckTail(h) => h == q.head && h != Stub && (h != q.tail ==> q.overlap)
    case Reinsert(h) => h == q.head && h != Stub && Stub !in Chain(q)
    case Relink(h, prev, at) =>
      && h == q.head && h != Stub && GapAt(q, at, prev, Stub)
      && (forall p :: p in q.producers ==> q.producers[p].at != at)
    case Final(h) => h == q.head && h != Stub && h != q.tail
  }

  ghost predicate Inv(q: Queue) {
    && Shape(q)
    && Gaps(q)
    && ConsumerOk(q)
    && q.popped == Items(q.order[..q.pos])
    && (q.consumer != Idle && q.producers != map[] ==> q.overlap)
  }

  lemma ItemsExtend(s: seq<Node>, n: Node)
    ensures Items(s + [n]) == Items(s) + if n == Stub then [] else [n]
  {
    assert (s + [n])[..|s|] == s;
  }

  lemma {:induction false} ItemsConcat(s: seq<Node>, t: seq<Node>)
    ensures Items(s + t) == Items(s) + Items(t)
    decreases |t|
  {
    if t == [] {
      assert s + t == s;
    } else {
      var t', n := t[..|t| - 1], t[|t| - 1];
      ItemsConcat(s, t');
      assert s + t == (s + t') + [n];
      ItemsExtend(s + t', n);
    }
  }

  lemma ChainMembers(q: Queue)
    ensures forall i :: q.pos <= i < |q.order| ==> q.order[i] in Chain(q)
  {
    forall i | q.pos <= i < |q.order| ensures q.order[i] in Chain(q) {
      assert Chain(q)[i - q.pos] == q.order[i];
    }
  }

  /** Appending a fresh node at the tail, by a producer or by the consumer with the stub. */
  lemma ShapeAppend(q: Queue, r: Queue, n: Node)
    requires Shape(q) && n !in Chain(q)
    requires r.next == q.next - {n} && r.tail == n && r.order == q.order + [n] && r.pos == q.pos && r.head == q.head
    ensures Shape(r) && IsGap(r, |q.order| - 1)
    ensures r.order[..r.pos] == q.order[..q.pos] && Chain(r) == Chain(q) + [n]
    ensures forall i: nat :: i < |q.order| - 1 ==> (IsGap(r, i) <==> IsGap(q, i))
    ensures forall i: nat, x, y :: i < |q.order| - 1 && GapAt(q, i, x, y) ==> GapAt(r, i, x, y)
  {
    ChainMembers(q);
  }

  lemma GapsExchange(q: Queue, r: Queue, p: nat)
    requires Gaps(q) && p !in q.producers && |q.order| > 0 && r.consumer == q.consumer
    requires r.producers.Keys == q.producers.Keys + {p}
    requires forall x :: x in q.producers ==> r.producers[x] == q.producers[x]
    requires var d := r.producers[p]; d.at == |q.order| - 1 && GapAt(r, d.at, d.prev, d.node)
    requires forall i: nat :: i < |q.order| - 1 ==> (IsGap(r, i) <==> IsGap(q, i))
    requires forall i: nat, x, y :: i < |q.order| - 1 && GapAt(q, i, x, y) ==> GapAt(r, i, x, y)
    requires |r.order| == |q.order| + 1
    ensures Gaps(r)
  {
    forall i: nat | IsGap(r, i) ensures Owned(r, i) {
      if i == |q.order| - 1 {
        assert r.producers[p].at == i;
      } else {
        assert Owned(q, i);
      }
    }
  }

  lemma ConsumerOkExchange(q: Queue, p: nat, n: Node)
    requires Shape(q) && ConsumerOk(q) && p !in q.producers && n != Stub && n !in Chain(q)
    ensures ConsumerOk(Exchange(q, p, n))
  {
    var r := Exchange(q, p, n);
    ShapeAppend(q, r, n);
    assert q.head == q.order[q.pos] && q.head in Chain(q) by { ChainMembers(q); }
    if q.consumer.Relink? {
      assert GapAt(q, q.consumer.at, q.consumer.prev, Stub);
    }
  }

  lemma InvExchange(q: Queue, p: nat, n: Node)
    requires Inv(q) && p !in q.producers && n != Stub && n !in Chain(q)
    ensures Inv(Exchange(q, p, n))
  {
    hide Shape, Gaps, ConsumerOk, Items, Owned, IsGap;
    var r := Exchange(q, p, n);
    ShapeFacts(q);
    ShapeAppend(q, r, n);
    ConsumerOkExchange(q, p, n);
    GapsExchange(q, r, p);
  }

  lemma ShapeFacts(q: Queue)
    requires Shape(q)
    ensures q.pos < |q.order| && q.order[q.pos] == q.head && q.order[|q.order| - 1] == q.tail && q.tail !in q.next
  {
  }

  lemma GapFacts(q: Queue, p: nat)
    requires Gaps(q) && p in q.producers
    ensures GapAt(q, q.producers[p].at, q.producers[p].prev, q.producers[p].node)
    ensures forall x :: x in q.producers && x != p ==> q.producers[x].at != q.producers[p].at
  {
  }

  /** Linking one gap, by its producer or by the consumer with the stub. */
  lemma ShapeLink(q: Queue, r: Queue, k: nat, prev: Node, node: Node)
    requires Shape(q) && GapAt(q, k, prev, node)
    requires r.next == q.next[prev := node] && r.tail == q.tail && r.order == q.order && r.pos == q.pos
    requires r.head == q.head
    ensures Shape(r)
    ensures forall i: nat :: IsGap(r, i) <==> IsGap(q, i) && i != k
    ensures forall i: nat, x, y :: i != k && GapAt(q, i, x, y) ==> GapAt(r, i, x, y)
  {
  }

  lemma GapsLink(q: Queue, r: Queue, p: nat)
    requires Gaps(q) && p in q.producers && r.producers == q.producers - {p}
    requires r.consumer == q.consumer
    requires forall i: nat :: IsGap(r, i) <==> IsGap(q, i) && i != q.producers[p].at
    requires forall i: nat, x, y :: i != q.producers[p].at && GapAt(q, i, x, y) ==> GapAt(r, i, x, y)
    ensures Gaps(r)
  {
    forall i: nat | IsGap(r, i) ensures Owned(r, i) {
      assert Owned(q, i);
      if x :| x in q.producers && q.producers[x].at == i {
        assert r.producers[x].at == i;
      }
    }
  }

  lemma InvLink(q: Queue, p: nat)
    requires Inv(q) && p in q.producers
    ensures Inv(Link(q, p))
  {
    hide Shape, Gaps, Items, IsGap, ConsumerOk;
    var r := Link(q, p);
    var d := q.producers[p];
    GapFacts(q, p);
    ShapeLink(q, r, d.at, d.prev, d.node);
    GapsLink(q, r, p);
    ConsumerOkLink(q, p);
  }

  lemma ConsumerOkLink(q: Queue, p: nat)
    requires Shape(q) && Gaps(q) && ConsumerOk(q) && p in q.producers
    ensures ConsumerOk(Link(q, p))
  {
    hide Gaps, IsGap;
    GapFacts(q, p);
    var r := Link(q, p);
    var d := q.producers[p];
    ShapeLink(q, r, d.at, d.prev, d.node);
    hide Shape;
    assert Chain(r) == Chain(q);
  }

  /** Moving the head over a linked node keeps everything about the rest of the chain. */
  lemma InvAdvance(q: Queue, r: Queue)
    requires Shape(q) && Gaps(q) && q.head in q.next && !q.consumer.Relink?
    requires r == q.(head := q.next[q.head], pos := q.pos + 1, popped := r.popped, consumer := r.consumer,
      overlap := r.overlap)
    ensures Shape(r) && Gaps(r)
    ensures r.order[..r.pos] == q.order[..q.pos] + [q.head]
    ensures q.head !in Chain(r) && q.head != r.tail
    ensures forall p :: p in r.producers ==> r.producers[p].prev != q.head
  {
    forall i: nat | IsGap(r, i) ensures Owned(r, i) {
      assert IsGap(q, i);
      if x :| x in q.producers && q.producers[x].at == i {
        assert r.producers[x].at == i;
      }
    }
  }

  /** Returning the head node, or finding that its link is missing. */
  lemma InvTakeOrCheck(q: Queue, s: Queue)
    requires Inv(q) && (q.consumer.Idle? || q.consumer.Reload?) && q.head != Stub
    requires s == q.(overlap := s.overlap) && (q.producers != map[] ==> s.overlap)
    ensures Inv(TakeOrCheck(s, s.head).0)
  {
    var r := TakeOrCheck(s, s.head).0;
    if q.head in q.next {
      InvAdvance(q, r);
      ItemsExtend(q.order[..q.pos], q.head);
    } else {
      InvKeep(q, r);
      assert q.head != q.tail ==> IsGap(q, q.pos);
    }
  }

  lemma InvConsumer(q: Queue)
    requires Inv(q)
    ensures Inv(ConsumerStep(q).0)
  {
    var r := ConsumerStep(q).0;
    match q.consumer {
      case Idle =>
        var s := q.(overlap := q.producers != map[]);
        if q.head != Stub {
          InvTakeOrCheck(q, s);
        } else if Stub in q.next {
          InvAdvance(q, r);
          ItemsExtend(q.order[..q.pos], Stub);
          assert r.head != Stub;
        } else {
          InvKeep(q, r);
        }
      case Reload(h) =>
        InvTakeOrCheck(q, q);
      case CheckTail(h) =>
        InvKeep(q, r);
        assert h == q.tail ==> Chain(q) == [h];
      case Reinsert(h) =>
        InvReinsert(q);
      case Relink(h, prev, at) =>
        InvRelink(q);
      case Final(h) =>
        InvFinal(q);
    }
  }

  lemma InvFinal(q: Queue)
    requires Inv(q) && q.consumer.Final?
    ensures Inv(ConsumerStep(q).0)
  {
    var r := ConsumerStep(q).0;
    if q.head in q.next {
      InvAdvance(q, r);
      ItemsExtend(q.order[..q.pos], q.head);
    } else {
      InvKeep(q, r);
    }
  }

  /** A consumer step that only moves its program counter. */
  lemma InvKeep(q: Queue, r: Queue)
    requires Shape(q) && Gaps(q) && !q.consumer.Relink? && !r.consumer.Relink?
    requires r == q.(consumer := r.consumer, overlap := r.overlap)
    ensures Shape(r) && Gaps(r)
  {
    forall i: nat | IsGap(r, i) ensures Owned(r, i) {
      assert IsGap(q, i);
      if x :| x in q.producers && q.producers[x].at == i {
        assert r.producers[x].at == i;
      }
    }
  }

  lemma InvReinsert(q: Queue)
    requires Inv(q) && q.consumer.Reinsert?
    ensures Inv(ConsumerStep(q).0)
  {
    var r := ConsumerStep(q).0;
    ShapeAppend(q, r, Stub);
    forall i: nat | IsGap(r, i) ensures Owned(r, i) {
      if i < |q.order| - 1 {
        if x :| x in q.producers && q.producers[x].at == i {
          assert r.producers[x].at == i;
        }
      }
    }
  }

  lemma InvRelink(q: Queue)
    requires Inv(q) && q.consumer.Relink?
    ensures Inv(ConsumerStep(q).0)
  {
    var r := ConsumerStep(q).0;
    ShapeLink(q, r, q.consumer.at, q.consumer.prev, Stub);
    assert r.head != r.tail;
    hide Shape;
    forall i: nat | IsGap(r, i) ensures Owned(r, i) {
      if x :| x in q.producers && q.producers[x].at == i {
        assert r.producers[x].at == i;
      }
    }
  }

  lemma InvNext(q: Queue, r: Queue)
    requires Inv(q) && Next(q, r)
    ensures Inv(r)
  {
    if p, n :| p !in q.producers && n != Stub && n !in Chain(q) && r == Exchange(q, p, n) {
      InvExchange(q, p, n);
    } else if p :| p in q.producers && r == Link(q, p) {
      InvLink(q, p);
    } else {
      InvConsumer(q);
    }
  }

  // ---------------------------------------------------------------- whole runs

  ghost predicate IsRun(run: seq<Queue>) {
    && run != []
    && run[0] == Init()
    && forall i :: 0 <= i < |run| - 1 ==> Next(run[i], run[i + 1])
  }

  lemma {:induction false} RunInv(run: seq<Queue>, i: nat)
    requires IsRun(run) && i < |run|
    ensures Inv(run[i])
  {
    if i == 0 {
      assert Init().order[..0] == [];
    } else {
      RunInv(run, i - 1);
      InvNext(run[i - 1], run[i]);
    }
  }

  /** Nothing is lost, duplicated or reordered: what `pop` has returned is a prefix of the exchange order. */
  lemma FifoPrefix(run: seq<Queue>, i: nat)
    requires IsRun(run) && i < |run|
    ensures var q := run[i];
      Items(q.order) == q.popped + Items(Chain(q))
  {
    RunInv(run, i);
    var q := run[i];
    ItemsConcat(q.order[..q.pos], Chain(q));
    assert q.order == q.order[..q.pos] + Chain(q);
  }

  /** The stub is in the chain at most once. */
  lemma StubAtMostOnce(run: seq<Queue>, i: nat, j: nat, k: nat)
    requires IsRun(run) && i < |run|
    requires j < k < |Chain(run[i])|
    ensures !(Chain(run[i])[j] == Stub && Chain(run[i])[k] == Stub)
  {
    RunInv(run, i);
    var q := run[i];
    assert q.order[q.pos + j] == Chain(q)[j] && q.order[q.pos + k] == Chain(q)[k];
  }

  lemma TakenNodeIsFree(q: Queue, r: Queue)
    requires Shape(q) && Gaps(q) && q.head in q.next && q.head != Stub && !q.consumer.Relink?
    requires r == Take(q.(overlap := r.overlap), q.head).0
    ensures Items(Chain(q)) == [q.head] + Items(Chain(r))
    ensures forall p :: p in r.producers ==> r.producers[p].prev != q.head && r.producers[p].node != q.head
  {
    InvAdvance(q, r);
    hide Shape;
    assert Chain(q) == [q.head] + Chain(r) by {
      assert r.order[..r.pos] == q.order[..q.pos] + [q.head];
      assert q.head == r.order[..r.pos][q.pos];
    }
    ItemsConcat([q.head], Chain(r));
    ItemsExtend([], q.head);
    assert [] + [q.head] == [q.head];
    ChainMembers(r);
    forall p | p in r.producers ensures r.producers[p].node != q.head {
      assert r.order[r.producers[p].at + 1] in Chain(r);
    }
  }

  /** A node returned by `pop` is the oldest real node, and nobody can reach it any more: it can be recycled. */
  lemma ReturnedNodeIsFree(run: seq<Queue>, i: nat)
    requires IsRun(run) && i < |run| && ConsumerStep(run[i]).1.Got?
    ensures var (r, out) := ConsumerStep(run[i]);
      && out.node != Stub
      && Items(Chain(run[i])) == [out.node] + Items(Chain(r))
      && out.node !in Chain(r) && out.node != r.tail
      && (forall p :: p in r.producers ==> r.producers[p].prev != out.node && r.producers[p].node != out.node)
  {
    RunInv(run, i);
    var q := run[i];
    hide Items, Shape, Gaps, IsRun;
    var (r, out) := ConsumerStep(q);
    InvAdvance(q, r);
    TakenNodeIsFree(q, r);
  }

  lemma StubAlone()
    ensures Items([Stub]) == []
  {
    assert [] + [Stub] == [Stub];
    ItemsExtend([], Stub);
  }

  lemma EmptyStep(q: Queue)
    requires Inv(q) && ConsumerStep(q).1 == Empty
    ensures var r := ConsumerStep(q).0;
      Chain(r) == Chain(q) && (Items(Chain(r)) == [] || r.overlap)
  {
    match q.consumer {
      case Idle =>
        if q.producers == map[] {
          assert !IsGap(q, q.pos);
          assert Chain(q) == [Stub];
          StubAlone();
        }
      case CheckTail(h) =>
      case Final(h) =>
        assert IsGap(q, q.pos);
      case Reload(h) => assert false;
      case Reinsert(h) => assert false;
      case Relink(_, _, _) => assert false;
    }
  }

  /**
   `pop` answers null only when the queue holds nothing at that moment, or when some
   producer stood between its exchange and its link at some moment of the call.
   */
  lemma EmptyAnswerIsHonest(run: seq<Queue>, i: nat)
    requires IsRun(run) && i < |run| && ConsumerStep(run[i]).1 == Empty
    ensures var r := ConsumerStep(run[i]).0;
      Items(Chain(r)) == [] || r.overlap
  {
    RunInv(run, i);
    EmptyStep(run[i]);
  }

  // ---------------------------------------------------------------- the code without interruption

  function StepsLeft(c: Consumer): nat {
    match c
    case Idle => 6
    case Reload(_) => 5
    case CheckTail(_) => 4
    case Reinsert(_) => 3
    case Relink(_, _, _) => 2
    case Final(_) => 1
  }

  /** A whole call of `pop` during which no producer moves. */
  function RunPop(q: Queue): (Queue, Outcome)
    decreases StepsLeft(q.consumer)
  {
    var (r, out) := ConsumerStep(q);
    if out == Running then RunPop(r) else (r, out)
  }

  /** The overlap flag says what it should while nobody else moves. */
  ghost predicate Alone(q: Queue) {
    q.consumer != Idle ==> q.overlap == (q.producers != map[])
  }

  lemma GotStep(q: Queue)
    requires Inv(q) && ConsumerStep(q).1.Got?
    ensures var (r, out) := ConsumerStep(q);
      Items(Chain(q)) == [out.node] + Items(Chain(r)) && r.producers == q.producers && r.consumer == Idle
  {
    hide Items, Chain, Shape, Gaps;
    TakenNodeIsFree(q, ConsumerStep(q).0);
  }

  lemma RunningStep(q: Queue)
    requires Inv(q) && Alone(q) && ConsumerStep(q).1 == Running
    ensures var r := ConsumerStep(q).0;
      && Items(Chain(r)) == Items(Chain(q)) && r.producers == q.producers && Alone(r)
      && StepsLeft(r.consumer) < StepsLeft(q.consumer)
  {
    hide Items, Chain, Gaps, ConsumerOk;
    StepKeepsItems(q);
  }

  lemma EmptyStepKeeps(q: Queue)
    requires Inv(q) && Alone(q) && ConsumerStep(q).1 == Empty
    ensures var r := ConsumerStep(q).0;
      && Items(Chain(r)) == Items(Chain(q)) && r.producers == q.producers && r.consumer == Idle
      && (Items(Chain(q)) == [] || q.producers != map[])
  {
    hide Items, Chain, Shape, Gaps, ConsumerOk;
    EmptyStep(q);
  }

  lemma RunPopUnfold(q: Queue)
    ensures var (r, out) := ConsumerStep(q); RunPop(q) == if out == Running then RunPop(r) else (r, out)
  {
    hide ConsumerStep;
  }

  lemma {:induction false} RunPopFifo(q: Queue)
    requires Inv(q) && Alone(q)
    ensures var (r, out) := RunPop(q);
      && Inv(r) && out != Running && r.producers == q.producers && r.consumer == Idle
      && (out.Got? ==> Items(Chain(q)) == [out.node] + Items(Chain(r)))
      && (out == Empty ==> Items(Chain(r)) == Items(Chain(q)) && (Items(Chain(q)) == [] || q.producers != map[]))
    decreases StepsLeft(q.consumer)
  {
    hide ConsumerStep, Inv, Items, Chain, Alone, RunPop, StepsLeft;
    var (r, out) := ConsumerStep(q);
    InvConsumer(q);
    RunPopUnfold(q);
    if out.Got? {
      GotStep(q);
    } else if out == Running {
      RunningStep(q);
      RunPopFifo(r);
    } else {
      EmptyStepKeeps(q);
    }
  }

  lemma StepKeepsItems(q: Queue)
    requires q.pos < |q.order| && q.head == q.order[q.pos] && ConsumerStep(q).1 == Running
    ensures Items(Chain(ConsumerStep(q).0)) == Items(Chain(q))
  {
    hide Items;
    var r := ConsumerStep(q).0;
    if q.consumer.Reinsert? {
      assert Chain(r) == Chain(q) + [Stub];
      ItemsExtend(Chain(q), Stub);
    } else if q.consumer.Idle? && q.head == Stub {
      assert Chain(q) == [Stub] + Chain(r);
      ItemsConcat([Stub], Chain(r));
      StubAlone();
    } else {
      assert Chain(r) == Chain(q);
    }
  }

  lemma PushInv(q: Queue, p: nat, n: Node)
    requires Inv(q) && p !in q.producers && n != Stub && n !in Chain(q)
    ensures Inv(Link(Exchange(q, p, n), p))
  {
    InvExchange(q, p, n);
    InvLink(Exchange(q, p, n), p);
  }

  lemma PushFifo(q: Queue, p: nat, n: Node)
    requires q.pos < |q.order| && p !in q.producers && n != Stub
    ensures var r := Link(Exchange(q, p, n), p);
      r.producers == q.producers && Items(Chain(r)) == Items(Chain(q)) + [n]
  {
    assert Chain(Link(Exchange(q, p, n), p)) == Chain(q) + [n];
    ItemsExtend(Chain(q), n);
  }

  class WriteQueue {
    var next: map<Node, Node>
    var head: Node
    var tail: Node
    ghost var q: Queue

    ghost predicate Synced()
      reads this
    {
      next == q.next && head == q.head && tail == q.tail
    }

    ghost predicate Valid()
      reads this
    {
      Inv(q) && q.consumer == Idle && Synced()
    }

    ghost function Contents(): seq<Node>
      reads this
    {
      Items(Chain(q))
    }

    constructor ()
      ensures Valid() && q == Init() && Contents() == []
    {
      next, head, tail, q := map[], Stub, Stub, Init();
      assert Init().order[..0] == [] && Chain(Init()) == [Stub];
      StubAlone();
    }

    method Push(node: Node, ghost p: nat)
      requires Valid() && p !in q.producers
      requires node != Stub && node !in Chain(q)
      modifies this
      ensures Valid() && q == Link(Exchange(old(q), p, node), p)
      ensures Contents() == old(Contents()) + [node]
    {
      PushInv(q, p, node);
      PushFifo(q, p, node);
      next := next - {node};
      var prev := tail;
      tail := node;
      next := next[prev := node];
      q := Link(Exchange(q, p, node), p);
    }

    method Pop() returns (r: Option<Node>)
      requires Valid()
      modifies this
      ensures Valid() && (q, if r.None? then Empty else Got(r.value)) == RunPop(old(q))
      ensures r.Some? ==> old(Contents()) == [r.value] + Contents()
      ensures r.None? ==> Contents() == old(Contents()) && (Contents() == [] || q.producers != map[])
    {
      hide Inv, Items;
      RunPopFifo(q);
      var h := head;
      q := ConsumerStep(q).0;
      if h == Stub {
        if h !in next {
          return None;
        }
        h := next[h];
        head := h;
        assert RunPop(old(q)) == RunPop(q);
        q := ConsumerStep(q).0;
      }
      if h in next {
        head := next[h];
        return Some(h);
      }
      assert RunPop(old(q)) == RunPop(q);
      r := PopLast(h);
    }

    /** The rest of `pop` once the successor of `h` was seen missing. */
    method PopLast(h: Node) returns (r: Option<Node>)
      requires Synced() && q.consumer == CheckTail(h)
      modifies this
      ensures Synced() && (q, if r.None? then Empty else Got(r.value)) == RunPop(old(q))
    {
      var t := tail;
      q := ConsumerStep(q).0;
      if h != t {
        return None;
      }
      assert RunPop(old(q)) == RunPop(q);
      q := ConsumerStep(q).0;
      next := next - {Stub};
      tail := Stub;
      assert RunPop(old(q)) == RunPop(q);
      q := ConsumerStep(q).0;
      next := next[t := Stub];
      assert RunPop(old(q)) == RunPop(q);
      q := ConsumerStep(q).0;
      if h in next {
        head := next[h];
        return Some(h);
      }
      return None;
    }
  }
}

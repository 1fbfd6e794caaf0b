/** What a rejected Enqueue does to the queue of `TicketQueue`: its ticket is burned, and the consumer stops at
    it until a ticket that is a whole buffer later fills the same slot. */
module BurnedTicket {
  import opened Agents
  import opened Arithmetic
  import opened TicketQueue

  /** The consumer is at the burned ticket `k`, and no producer is on the way to its slot. */
  predicate Blocked(s: State, k: nat) {
    && BufferSize(|s.q.slots|) && s.q.head == k < s.q.tail && k in s.q.rejected
    && !s.q.slots[Slot(k, |s.q.slots|)].isUsed
    && (s.consumer == CIdle || s.consumer == CCheck(k))
    && forall p :: 0 <= p < |s.producers| && Busy(s.producers[p]) ==>
         Slot(s.producers[p].t, |s.q.slots|) != Slot(k, |s.q.slots|)
  }

  lemma StepTail(s: State, a: Action)
    ensures s.q.tail <= Step(s, a).q.tail && |Step(s, a).q.slots| == |s.q.slots|
  {
  }

  lemma {:induction false} RunTail(s: State, actions: seq<Action>)
    ensures s.q.tail <= Run(s, actions).q.tail && |Run(s, actions).q.slots| == |s.q.slots|
    decreases |actions|
  {
    if actions != [] {
      StepTail(s, actions[0]);
      RunTail(Step(s, actions[0]), actions[1..]);
    }
  }

  lemma StepBlocked(s: State, k: nat, a: Action)
    requires Blocked(s, k) && Step(s, a).q.tail <= k + |s.q.slots|
    ensures Blocked(Step(s, a), k) && Step(s, a).q.out == s.q.out
  {
    if a.Produce? && a.p < |s.producers| && s.producers[a.p].PIdle? && s.q.tail < k + |s.q.slots| {
      SlotsDiffer(k, s.q.tail, |s.q.slots|);
    }
  }

  lemma {:induction false} RunBlocked(s: State, k: nat, actions: seq<Action>)
    requires Blocked(s, k) && Run(s, actions).q.tail <= k + |s.q.slots|
    ensures Blocked(Run(s, actions), k) && Run(s, actions).q.out == s.q.out
    decreases |actions|
  {
    if actions != [] {
      StepTail(s, actions[0]);
      RunTail(Step(s, actions[0]), actions[1..]);
      StepBlocked(s, k, actions[0]);
      RunBlocked(Step(s, actions[0]), k, actions[1..]);
    }
  }

  /** Whatever producers and consumer do, until ticket `k` plus the number of slots is taken nothing comes out
      any more, although `Size()` stays positive, whatever has been queued behind: RealSend, which goes on until
      it has dequeued something, spins. */
  lemma BurnedTicketBlocks(s: State, k: nat, actions: seq<Action>)
    requires Blocked(s, k) && |s.q.slots| < WORD / 2 && Run(s, actions).q.tail <= k + |s.q.slots|
    ensures
      var t := Run(s, actions);
      t.q.out == s.q.out && t.q.head == k && Size(t.q.head, t.q.tail) == t.q.tail - k > 0
  {
    RunBlocked(s, k, actions);
    RunTail(s, actions);
    SizeOfWords(k, Run(s, actions).q.tail);
  }

  // ---------------------------------------------------------------- whole operations

  lemma {:induction false} Then(s: State, actions: seq<Action>, a: Action, r: State) returns (more: seq<Action>)
    requires Step(Run(s, actions), a) == r
    ensures Run(s, more) == r
    decreases |actions|
  {
    if actions == [] {
      more := [a];
      assert more[1..] == [];
    } else {
      var rest := Then(Step(s, actions[0]), actions[1..], a, r);
      more := [actions[0]] + rest;
      assert more[1..] == rest;
    }
  }

  /** One producer, and nobody inside. */
  function Rest(q: Queue): State {
    State(q, [PIdle], CIdle)
  }

  /** The queue after a whole Enqueue that finds its slot free. */
  function Enqueued(q: Queue, x: Item): Queue
    requires |q.slots| > 0
  {
    q.(tail := q.tail + 1, items := q.items + [x], marked := q.marked + {q.tail},
       slots := q.slots[Slot(q.tail, |q.slots|) := Cell(true, x, q.tail)])
  }

  lemma WholeEnqueue(s: State, actions: seq<Action>, q: Queue, x: Item) returns (more: seq<Action>)
    requires Run(s, actions) == Rest(q) && !q.broken && |q.slots| > 0 && |q.items| == q.tail
    requires !q.slots[Slot(q.tail, |q.slots|)].isUsed
    ensures Run(s, more) == Rest(Enqueued(q, x))
  {
    var t, i, a := q.tail, Slot(q.tail, |q.slots|), Produce(0, x);
    var q1 := q.(tail := t + 1, items := q.items + [x]);
    var q2 := q1.(slots := q.slots[i := q.slots[i].(data := x)]);
    more := Then(s, actions, a, State(q1, [PCheck(t)], CIdle));
    more := Then(s, more, a, State(q1, [PWrite(t)], CIdle));
    more := Then(s, more, a, State(q2, [PMark(t)], CIdle));
    assert q2.slots[i := Cell(true, x, t)] == Enqueued(q, x).slots;
    more := Then(s, more, a, Rest(Enqueued(q, x)));
  }

  lemma WholeRejection(s: State, actions: seq<Action>, q: Queue, x: Item) returns (more: seq<Action>)
    requires Run(s, actions) == Rest(q) && !q.broken && |q.slots| > 0 && q.slots[Slot(q.tail, |q.slots|)].isUsed
    ensures Run(s, more) ==
            Rest(q.(tail := q.tail + 1, items := q.items + [x], rejected := q.rejected + {q.tail}))
  {
    var q1 := q.(tail := q.tail + 1, items := q.items + [x]);
    more := Then(s, actions, Produce(0, x), State(q1, [PCheck(q.tail)], CIdle));
    more := Then(s, more, Produce(0, x), Rest(q1.(rejected := q.rejected + {q.tail})));
  }

  /** The queue after a whole Dequeue that finds its slot used. */
  function Dequeued(q: Queue): Queue
    requires |q.slots| > 0
  {
    var i := Slot(q.head, |q.slots|);
    q.(head := q.head + 1, out := q.out + [q.slots[i].data], freed := q.freed + 1,
       slots := q.slots[i := q.slots[i].(isUsed := false)])
  }

  /** ... up to the freeing of the slot. */
  function TakenOut(q: Queue): Queue
    requires |q.slots| > 0
  {
    q.(head := q.head + 1, out := q.out + [q.slots[Slot(q.head, |q.slots|)].data])
  }

  lemma TakeOut(s: State, actions: seq<Action>, q: Queue) returns (more: seq<Action>)
    requires Run(s, actions) == Rest(q) && !q.broken && |q.slots| > 0 && q.slots[Slot(q.head, |q.slots|)].isUsed
    ensures Run(s, more) == State(TakenOut(q), [PIdle], CFree(q.head))
  {
    var h := q.head;
    var q1 := q.(head := h + 1);
    more := Then(s, actions, Consume, State(q, [PIdle], CCheck(h)));
    more := Then(s, more, Consume, State(q, [PIdle], CCas(h)));
    more := Then(s, more, Consume, State(q1, [PIdle], CTake(h)));
    more := Then(s, more, Consume, State(TakenOut(q), [PIdle], CFree(h)));
  }

  lemma WholeDequeue(s: State, actions: seq<Action>, q: Queue) returns (more: seq<Action>)
    requires Run(s, actions) == Rest(q) && !q.broken && |q.slots| > 0 && q.slots[Slot(q.head, |q.slots|)].isUsed
    ensures Run(s, more) == Rest(Dequeued(q))
  {
    more := TakeOut(s, actions, q);
    more := Then(s, more, Consume, Rest(Dequeued(q)));
  }

  // ---------------------------------------------------------------- out of order

  /** When the ticket a whole buffer after the burned one is taken, its item comes out next, before those of all
      the tickets in between. */
  lemma LateTicketOvertakes(s: State, actions: seq<Action>, q: Queue, k: nat, x: Item) returns (more: seq<Action>)
    requires Run(s, actions) == Rest(q) && Blocked(Rest(q), k) && !q.broken
    requires q.tail == k + |q.slots| == |q.items|
    ensures
      var t := Run(s, more);
      && t.q.out == q.out + [x] && t.q.items == q.items + [x] && t.q.head == k + 1
      && t.q.rejected == q.rejected && !t.q.broken
  {
    SlotIsRemainder(k, |q.slots|);
    SlotIsRemainder(k + |q.slots|, |q.slots|);
    NextRound(k, |q.slots|);
    more := WholeEnqueue(s, actions, q, x);
    more := WholeDequeue(s, more, Enqueued(q, x));
  }

  lemma NextRound(k: nat, size: nat)
    requires size > 0
    ensures (k + size) % size == k % size
  {
    RemainderUnique(k + size, size, k / size + 1, k % size);
  }

  /** Two slots, and what the first two Enqueues and a rejected third leave. */
  function Empty(): State {
    Rest(Queue(0, 0, [Cell(false, 0, 0), Cell(false, 0, 0)], [], {}, {}, 0, [], false))
  }

  lemma ReachRejected() returns (actions: seq<Action>)
    ensures Run(Empty(), actions) ==
            Rest(Queue(0, 3, [Cell(true, 10, 0), Cell(true, 11, 1)], [10, 11, 12], {0, 1}, {2}, 0, [], false))
  {
    var q0 := Empty().q;
    actions := WholeEnqueue(Empty(), [], q0, 10);
    actions := WholeEnqueue(Empty(), actions, Enqueued(q0, 10), 11);
    var q2 := Queue(0, 2, [Cell(true, 10, 0), Cell(true, 11, 1)], [10, 11], {0, 1}, {}, 0, [], false);
    assert Enqueued(Enqueued(q0, 10), 11) == q2;
    actions := WholeRejection(Empty(), actions, q2, 12);
    assert q2.items + [12] == [10, 11, 12];
  }

  /** ... and both items have been taken out: the consumer is at the burned ticket. */
  lemma ReachBlocked() returns (actions: seq<Action>, q: Queue)
    ensures Run(Empty(), actions) == Rest(q) && Blocked(Rest(q), 2) && !q.broken
    ensures q.tail == 3 && q.items == [10, 11, 12] && q.rejected == {2} && q.out == [10, 11] && |q.slots| == 2
    ensures !q.slots[0].isUsed && !q.slots[1].isUsed
  {
    actions := ReachRejected();
    var q3 := Queue(0, 3, [Cell(true, 10, 0), Cell(true, 11, 1)], [10, 11, 12], {0, 1}, {2}, 0, [], false);
    actions := WholeDequeue(Empty(), actions, q3);
    actions := WholeDequeue(Empty(), actions, Dequeued(q3));
    q := Dequeued(Dequeued(q3));
    assert q.slots == [Cell(false, 10, 0), Cell(false, 11, 1)] && q.out == [10, 11];
  }

  /** The order does fail after a rejection, with never more than one producer inside: of the tickets 3 and 4,
      both stored and none rejected, the item of 4 comes out first. */
  lemma RejectionReorders() returns (actions: seq<Action>)
    ensures Initial(Empty())
    ensures
      var t := Run(Empty(), actions);
      t.q.items == [10, 11, 12, 13, 14] && t.q.rejected == {2} && t.q.out == [10, 11, 14] && !t.q.broken
  {
    var q;
    actions, q := ReachBlocked();
    actions := WholeEnqueue(Empty(), actions, q, 13);
    var q4 := Enqueued(q, 13);
    assert Blocked(Rest(q4), 2) && q4.items == [10, 11, 12, 13];
    actions := LateTicketOvertakes(Empty(), actions, q4, 2, 14);
    assert [10, 11] + [14] == [10, 11, 14];
  }
}

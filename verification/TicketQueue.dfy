/** `LockFreeFixedQueue` (include/LockFreeFixedQueue.h): many producers, one consumer, a power-of-two
    number of slots. A producer takes its ticket before it looks whether the slot is free; the consumer
    moves the head before it frees the slot. Each atomic operation is one step. */
module TicketQueue {
  import opened Agents
  import opened Arithmetic

  const WORD := 0x1_0000_0000

  type Item = int

  /** `ticket` is history: the ticket whose producer marked the slot last. */
  datatype Cell = Cell(isUsed: bool, data: Item, ticket: nat)

  /** Head and tail are kept unbounded and reduced to 32-bit words where the code looks at them.
      History: the item of every ticket, the tickets whose slot was marked used, those that were turned
      away, how many slots the consumer has freed, and the items it has taken out. */
  datatype Queue = Queue(
    head: nat, tail: nat, slots: seq<Cell>,
    items: seq<Item>, marked: set<nat>, rejected: set<nat>, freed: nat, out: seq<Item>,
    broken: bool)   // a __debugbreak was reached

  datatype Producer =
    | PIdle
    | PCheck(t: nat)     // ticket taken; before isUsed.load
    | PWrite(t: nat)     // before writing data
    | PMark(t: nat)      // before isUsed.exchange(true)

  datatype Consumer =
    | CIdle
    | CCheck(h: nat)     // head loaded; before isUsed.load
    | CCas(h: nat)       // before the exchange of head
    | CTake(h: nat)      // before reading data
    | CFree(h: nat)      // before isUsed.exchange(false)

  datatype State = State(q: Queue, producers: seq<Producer>, consumer: Consumer)

  datatype Action = Produce(p: nat, x: Item) | Consume

  /** A power of two that an `int` can hold. */
  predicate BufferSize(b: nat) {
    b > 0 && WORD % b == 0
  }

  /** `ticket & indexMask` on the 32-bit word. */
  function Slot(ticket: nat, size: nat): (i: nat)
    requires size > 0
    ensures i < size
  {
    (ticket % WORD) % size
  }

  /** `tail - head` as a 32-bit signed difference. */
  function Size(head: nat, tail: nat): int {
    var d := (tail % WORD - head % WORD) % WORD;
    if d < WORD / 2 then d else d - WORD
  }

  function ProducerStep(q: Queue, pc: Producer, x: Item): (Queue, Producer)
    requires |q.slots| > 0
  {
    match pc
    case PIdle => (q.(tail := q.tail + 1, items := q.items + [x]), PCheck(q.tail))
    case PCheck(t) =>
      if q.slots[Slot(t, |q.slots|)].isUsed then (q.(rejected := q.rejected + {t}), PIdle) else (q, PWrite(t))
    case PWrite(t) =>
      var i := Slot(t, |q.slots|);
      if t >= |q.items| then (q, pc) else (q.(slots := q.slots[i := q.slots[i].(data := q.items[t])]), PMark(t))
    case PMark(t) =>
      var i := Slot(t, |q.slots|);
      if q.slots[i].isUsed then (q.(broken := true), pc)
      else (q.(slots := q.slots[i := q.slots[i].(isUsed := true, ticket := t)], marked := q.marked + {t}), PIdle)
  }

  function ConsumerStep(q: Queue, pc: Consumer): (Queue, Consumer)
    requires |q.slots| > 0
  {
    match pc
    case CIdle => (q, CCheck(q.head))
    case CCheck(h) => (q, if q.slots[Slot(h, |q.slots|)].isUsed then CCas(h) else CIdle)
    case CCas(h) => if q.head == h then (q.(head := h + 1), CTake(h)) else (q, CCheck(q.head))
    case CTake(h) => (q.(out := q.out + [q.slots[Slot(h, |q.slots|)].data]), CFree(h))
    case CFree(h) =>
      var i := Slot(h, |q.slots|);
      if !q.slots[i].isUsed then (q.(broken := true), pc)
      else (q.(slots := q.slots[i := q.slots[i].(isUsed := false)], freed := q.freed + 1), CIdle)
  }

  function Step(s: State, a: Action): State {
    if s.q.broken || |s.q.slots| == 0 then s else
    match a
    case Consume => var (q, pc) := ConsumerStep(s.q, s.consumer); State(q, s.producers, pc)
    case Produce(p, x) =>
      if p >= |s.producers| then s else
      var (q, pc) := ProducerStep(s.q, s.producers[p], x);
      State(q, s.producers[p := pc], s.consumer)
  }

  function Run(s: State, actions: seq<Action>): State
    decreases |actions|
  {
    if actions == [] then s else Run(Step(s, actions[0]), actions[1..])
  }

  predicate Initial(s: State) {
    && BufferSize(|s.q.slots|)
    && s.q == Queue(0, 0, s.q.slots, [], {}, {}, 0, [], false)
    && (forall i :: 0 <= i < |s.q.slots| ==> !s.q.slots[i].isUsed)
    && (forall p :: 0 <= p < |s.producers| ==> s.producers[p] == PIdle)
    && s.consumer == CIdle
  }

  // ---------------------------------------------------------------- every run

  predicate Busy(pc: Producer) {
    !pc.PIdle?
  }

  predicate Used(c: Cell) {
    c.isUsed
  }

  predicate HasTicket(pc: Producer, t: nat) {
    Busy(pc) && pc.t == t
  }

  function Holding(t: nat): Producer -> bool {
    pc => HasTicket(pc, t)
  }

  /** Items in the queue: used slots, less the one the consumer has already taken the head past. */
  ghost function Live(s: State): int {
    Count(s.q.slots, Used) - Bit(s.consumer.CTake? || s.consumer.CFree?)
  }

  ghost predicate Ticketed(s: State, t: nat) {
    Count(s.producers, Holding(t)) + Bit(t in s.q.marked) + Bit(t in s.q.rejected) == Bit(t < s.q.tail)
  }

  /** Each ticket is held by one producer, or marked, or rejected; and the totals. */
  ghost predicate Counted(s: State) {
    && |s.q.slots| > 0
    && |s.q.items| == s.q.tail
    && (forall t: nat :: Ticketed(s, t))
    && s.q.tail == |s.q.marked| + Count(s.producers, Busy) + |s.q.rejected|
    && |s.q.marked| == s.q.freed + Count(s.q.slots, Used)
    && s.q.head == s.q.freed + Bit(s.consumer.CTake? || s.consumer.CFree?)
  }

  lemma CountedProduce(s: State, p: nat, x: Item)
    requires Counted(s) && p < |s.producers|
    ensures Counted(Step(s, Produce(p, x)))
  {
    if !s.q.broken {
      var s' := Step(s, Produce(p, x));
      var pc := s.producers[p];
      CountMove(s.producers, p, s'.producers[p], Busy);
      forall t: nat
        ensures Ticketed(s', t)
      {
        assert Ticketed(s, t);
        CountMove(s.producers, p, s'.producers[p], Holding(t));
        if HasTicket(pc, t) {
          CountOne(s.producers, p, Holding(t));
        }
      }
      if Busy(pc) {
        CountOne(s.producers, p, Holding(pc.t));
        assert Ticketed(s, pc.t);
        var i := Slot(pc.t, |s.q.slots|);
        CountMove(s.q.slots, i, s'.q.slots[i], Used);
      }
    }
  }

  lemma CountedConsume(s: State)
    requires Counted(s)
    ensures Counted(Step(s, Consume))
  {
    forall t: nat
      ensures Ticketed(Step(s, Consume), t)
    {
      assert Ticketed(s, t);
    }
    if !s.q.broken && s.consumer.CFree? {
      var i := Slot(s.consumer.h, |s.q.slots|);
      CountMove(s.q.slots, i, Step(s, Consume).q.slots[i], Used);
    }
  }

  lemma CountedStep(s: State, a: Action)
    requires Counted(s)
    ensures Counted(Step(s, a))
  {
    match a
    case Consume => CountedConsume(s);
    case Produce(p, x) =>
      if p < |s.producers| {
        CountedProduce(s, p, x);
      }
  }

  lemma {:induction false} CountedRun(s: State, actions: seq<Action>)
    requires Counted(s)
    ensures Counted(Run(s, actions))
    decreases |actions|
  {
    if actions != [] {
      CountedStep(s, actions[0]);
      CountedRun(Step(s, actions[0]), actions[1..]);
    }
  }

  /** The word difference is the true one, of either sign, as long as it fits in an `int`. */
  lemma SizeOfWords(head: nat, tail: nat)
    requires -(WORD / 2) <= tail - head < WORD / 2
    ensures Size(head, tail) == tail - head
  {
  }

  /** On every run, with or without rejections, `Size()` counts the live items, the producers between
      taking a ticket and finishing, and every rejection there has ever been. */
  lemma SizeAccounts(s: State, actions: seq<Action>)
    requires Initial(s)
    ensures
      var t := Run(s, actions);
      && t.q.head <= t.q.tail
      && t.q.tail - t.q.head == Live(t) + Count(t.producers, Busy) + |t.q.rejected|
      && (t.q.tail - t.q.head < WORD / 2 ==>
           Size(t.q.head, t.q.tail) == Live(t) + Count(t.producers, Busy) + |t.q.rejected|)
  {
    CountedRun(s, actions);
    var t := Run(s, actions);
    if t.consumer.CTake? || t.consumer.CFree? {
      TakenIsUsed(s, actions);
    }
    if t.q.head <= t.q.tail < t.q.head + WORD / 2 {
      SizeOfWords(t.q.head, t.q.tail);
    }
  }

  /** Only the consumer frees slots, so the one it is working on stays used. */
  predicate TakingUsed(s: State) {
    |s.q.slots| > 0 &&
    (s.consumer.CCas? || s.consumer.CTake? || s.consumer.CFree? ==>
      s.q.slots[Slot(s.consumer.h, |s.q.slots|)].isUsed)
  }

  lemma {:induction false} TakingUsedRun(s: State, actions: seq<Action>)
    requires TakingUsed(s)
    ensures TakingUsed(Run(s, actions))
    decreases |actions|
  {
    if actions != [] {
      TakingUsedRun(Step(s, actions[0]), actions[1..]);
    }
  }

  lemma TakenIsUsed(s: State, actions: seq<Action>)
    requires Initial(s) && (Run(s, actions).consumer.CTake? || Run(s, actions).consumer.CFree?)
    ensures Live(Run(s, actions)) >= 0
  {
    TakingUsedRun(s, actions);
    var t := Run(s, actions);
    CountOne(t.q.slots, Slot(t.consumer.h, |t.q.slots|), Used);
  }

  /** An idle queue with every item taken out reports itself empty exactly when no Enqueue was ever
      rejected; otherwise it goes on reporting one item per rejection. */
  lemma DrainedIffNoRejection(s: State, actions: seq<Action>)
    requires Initial(s)
    requires
      var t := Run(s, actions);
      && t.consumer == CIdle && Count(t.producers, Busy) == 0 && Live(t) == 0
      && t.q.tail - t.q.head < WORD / 2
    ensures
      var t := Run(s, actions);
      && Size(t.q.head, t.q.tail) == |t.q.rejected|
      && (Size(t.q.head, t.q.tail) == 0 <==> t.q.rejected == {})
  {
    SizeAccounts(s, actions);
  }

  // ---------------------------------------------------------------- runs without a rejection

  /** The hypotheses: no ticket more than a full buffer ahead of the head, and nobody turned away. */
  predicate Tame(s: State) {
    s.q.tail - s.q.head <= |s.q.slots| && s.q.rejected == {}
  }

  predicate TameAlong(s: State, actions: seq<Action>)
    decreases |actions|
  {
    Tame(s) && (actions == [] || TameAlong(Step(s, actions[0]), actions[1..]))
  }

  lemma SlotIsRemainder(t: nat, size: nat)
    requires BufferSize(size)
    ensures Slot(t, size) == t % size
  {
    var k := WORD / size;
    var q := t / WORD;
    var r := t % WORD;
    var b := r / size;
    assert WORD == size * k;
    assert t == WORD * q + r == size * k * q + size * b + r % size;
    assert size * k * q == size * (k * q);
    assert size * (k * q) + size * b == size * (k * q + b);
    RemainderUnique(t, size, k * q + b, r % size);
  }

  /** Tickets less than a buffer apart have different slots. */
  lemma SlotsDiffer(t: nat, u: nat, size: nat)
    requires BufferSize(size) && t < u < t + size
    ensures Slot(t, size) != Slot(u, size)
  {
    SlotIsRemainder(t, size);
    SlotIsRemainder(u, size);
    RemaindersDiffer(t, u, size);
  }

  /** A marked ticket whose slot is not freed yet. */
  predicate Waiting(q: Queue, t: nat) {
    t in q.marked && q.freed <= t
  }

  /** A waiting ticket's slot is used and holds its item. */
  predicate WaitOk(q: Queue, t: nat)
    requires |q.slots| > 0
  {
    Waiting(q, t) ==>
      && t < |q.items|
      && q.slots[Slot(t, |q.slots|)] == Cell(true, q.items[t], t)
  }

  ghost predicate CellsOk(q: Queue)
    requires |q.slots| > 0
  {
    && (forall t: nat :: WaitOk(q, t))
    && (forall i :: 0 <= i < |q.slots| && q.slots[i].isUsed ==>
         Waiting(q, q.slots[i].ticket) && Slot(q.slots[i].ticket, |q.slots|) == i)
    && (forall t: nat :: t < q.head ==> t in q.marked)
  }

  predicate ProducerOk(q: Queue, pc: Producer)
    requires |q.slots| > 0
  {
    Busy(pc) ==>
      && q.head <= pc.t < q.tail && pc.t !in q.marked
      && (pc.PWrite? || pc.PMark? ==> !q.slots[Slot(pc.t, |q.slots|)].isUsed)
      && (pc.PMark? ==> pc.t < |q.items| && q.slots[Slot(pc.t, |q.slots|)].data == q.items[pc.t])
  }

  predicate ConsumerOk(q: Queue, pc: Consumer) {
    match pc
    case CIdle => q.freed == q.head
    case CCheck(h) => q.freed == q.head == h
    case CCas(h) => q.freed == q.head == h && h in q.marked
    case CTake(h) => q.head == h + 1 && q.freed == h
    case CFree(h) => q.head == h + 1 && q.freed == h
  }

  /** Items come out in ticket order: the consumer has taken a prefix of the tickets' items. */
  predicate InOrder(q: Queue, pc: Consumer) {
    q.freed <= q.head <= |q.items| && q.out == q.items[..if pc.CTake? then q.freed else q.head]
  }

  ghost predicate Fifo(s: State) {
    && BufferSize(|s.q.slots|) && !s.q.broken
    && CellsOk(s.q)
    && (forall p :: 0 <= p < |s.producers| ==> ProducerOk(s.q, s.producers[p]))
    && ConsumerOk(s.q, s.consumer)
    && InOrder(s.q, s.consumer)
  }

  /** Tickets at or after the head share no slot. */
  lemma AheadDiffer(q: Queue, t: nat, u: nat)
    requires BufferSize(|q.slots|) && q.tail - q.head <= |q.slots|
    requires q.head <= t < q.tail && q.head <= u < q.tail && t != u
    ensures Slot(t, |q.slots|) != Slot(u, |q.slots|)
  {
    if t < u {
      SlotsDiffer(t, u, |q.slots|);
    } else {
      SlotsDiffer(u, t, |q.slots|);
    }
  }

  lemma FifoConsume(s: State)
    requires Fifo(s) && Counted(s) && Tame(s) && Tame(Step(s, Consume))
    ensures Fifo(Step(s, Consume))
  {
    var q := s.q;
    var q' := Step(s, Consume).q;
    if s.consumer.CCheck? {
      var c := q.slots[Slot(s.consumer.h, |q.slots|)];
      assert Ticketed(s, c.ticket);
      if c.isUsed && c.ticket != s.consumer.h {
        AheadDiffer(q, c.ticket, s.consumer.h);
      }
    } else if !s.consumer.CIdle? {
      var h := s.consumer.h;
      assert Ticketed(s, h) && WaitOk(q, h);
      assert q.items[..h + 1] == q.items[..h] + [q.items[h]];
    }
    forall t: nat
      ensures WaitOk(q', t)
    {
      assert WaitOk(q, t);
    }
  }

  /** Nothing else is in flight for, or waiting in, the slot of a producer that got past the check. */
  lemma SlotIsMine(s: State, p: nat, u: nat)
    requires Fifo(s) && Counted(s) && Tame(s) && p < |s.producers| && u < |s.producers| && p != u
    requires Busy(s.producers[p]) && Busy(s.producers[u])
    ensures Slot(s.producers[p].t, |s.q.slots|) != Slot(s.producers[u].t, |s.q.slots|)
  {
    var t, t' := s.producers[p].t, s.producers[u].t;
    assert Ticketed(s, t);
    assert ProducerOk(s.q, s.producers[p]) && ProducerOk(s.q, s.producers[u]);
    if t == t' {
      CountTwo(s.producers, p, u, Holding(t));
    } else {
      AheadDiffer(s.q, t, t');
    }
  }

  lemma FifoProducers(s: State, p: nat, x: Item, u: nat)
    requires Fifo(s) && Counted(s) && Tame(s) && p < |s.producers| && u < |s.producers|
    requires Tame(Step(s, Produce(p, x)))
    ensures var s' := Step(s, Produce(p, x)); |s'.q.slots| > 0 && ProducerOk(s'.q, s'.producers[u])
  {
    var pc := s.producers[p];
    assert ProducerOk(s.q, pc) && ProducerOk(s.q, s.producers[u]);
    if p == u {
      if pc.PIdle? {
        assert Ticketed(s, s.q.tail);
      }
    } else if Busy(pc) && Busy(s.producers[u]) {
      SlotIsMine(s, p, u);
    }
  }

  lemma ProduceKeepsCells(q: Queue, pc: Producer, x: Item)
    requires |q.slots| > 0 && CellsOk(q) && ProducerOk(q, pc) && q.freed <= q.head && |q.items| == q.tail
    ensures
      var q' := ProducerStep(q, pc, x).0;
      |q'.slots| == |q.slots| && q'.broken == q.broken && CellsOk(q')
  {
    var q' := ProducerStep(q, pc, x).0;
    forall t: nat
      ensures WaitOk(q', t)
    {
      assert WaitOk(q, t);
    }
    if Busy(pc) {
      var i := Slot(pc.t, |q.slots|);
      forall j | 0 <= j < |q'.slots| && q'.slots[j].isUsed
        ensures Waiting(q', q'.slots[j].ticket) && Slot(q'.slots[j].ticket, |q'.slots|) == j
      {
        if j != i {
          assert q'.slots[j] == q.slots[j];
        }
      }
    }
  }

  lemma FifoStep(s: State, a: Action)
    requires Fifo(s) && Counted(s) && Tame(s) && Tame(Step(s, a))
    ensures Fifo(Step(s, a))
  {
    match a
    case Consume => FifoConsume(s);
    case Produce(p, x) =>
      if p < |s.producers| {
        assert ProducerOk(s.q, s.producers[p]);
        ProduceKeepsCells(s.q, s.producers[p], x);
        forall u | 0 <= u < |s.producers|
          ensures ProducerOk(Step(s, a).q, Step(s, a).producers[u])
        {
          FifoProducers(s, p, x, u);
        }
      }
  }

  lemma {:induction false} FifoRun(s: State, actions: seq<Action>)
    requires Fifo(s) && Counted(s) && TameAlong(s, actions)
    ensures Fifo(Run(s, actions)) && Counted(Run(s, actions))
    decreases |actions|
  {
    if actions != [] {
      assert Tame(Step(s, actions[0]));
      FifoStep(s, actions[0]);
      CountedStep(s, actions[0]);
      FifoRun(Step(s, actions[0]), actions[1..]);
    }
  }

  /** A run without rejections that stays within the buffer is a FIFO: the items taken out are, in order
      and each once, the items of the tickets, and neither `__debugbreak` is reached. */
  lemma RefinesFifo(s: State, actions: seq<Action>)
    requires Initial(s) && TameAlong(s, actions)
    ensures
      var t := Run(s, actions);
      && !t.q.broken
      && t.q.out <= t.q.items
      && t.q.head == |t.q.out| + Bit(t.consumer.CTake?)
  {
    FifoRun(s, actions);
  }

  // ---------------------------------------------------------------- calls left alone

  /** On every run: the `__debugbreak` of Enqueue is reached exactly by a producer that finds its slot marked although
      its test found it free; that of Dequeue never is. */
  lemma BreaksExactly(s: State, actions: seq<Action>, a: Action)
    requires Initial(s) && !Run(s, actions).q.broken
    ensures
      var t := Run(s, actions);
      && |t.q.slots| > 0
      && (Step(t, a).q.broken <==>
           a.Produce? && a.p < |t.producers| && t.producers[a.p].PMark?
           && t.q.slots[Slot(t.producers[a.p].t, |t.q.slots|)].isUsed)
  {
    TakingUsedRun(s, actions);
  }

  lemma RunOne(s: State, a: Action, rest: seq<Action>, s': State) returns (actions: seq<Action>)
    requires s' == Step(s, a)
    ensures actions == [a] + rest && Run(s, actions) == Run(s', rest)
  {
    actions := [a] + rest;
    assert actions[1..] == rest;
  }

  /** Enqueue left alone: it takes the next ticket; if that ticket's slot is in use it is turned away and changes
      nothing else, otherwise the slot is marked and holds the item. */
  lemma EnqueueAlone(s: State, p: nat, x: Item) returns (actions: seq<Action>)
    requires |s.q.slots| > 0 && !s.q.broken && |s.q.items| == s.q.tail
    requires p < |s.producers| && s.producers[p] == PIdle
    ensures
      var t := s.q.tail;
      var i := Slot(t, |s.q.slots|);
      var taken := s.q.(tail := t + 1, items := s.q.items + [x]);
      Run(s, actions) == s.(q :=
        if s.q.slots[i].isUsed then taken.(rejected := s.q.rejected + {t})
        else taken.(slots := s.q.slots[i := Cell(true, x, t)], marked := s.q.marked + {t}))
  {
    var t, a := s.q.tail, Produce(p, x);
    var i := Slot(t, |s.q.slots|);
    var s1, s2 := Step(s, a), Step(Step(s, a), a);
    actions := [];
    if !s.q.slots[i].isUsed {
      var s3 := Step(s2, a);
      var s4 := Step(s3, a);
      assert s4.producers == s.producers;
      actions := RunOne(s3, a, [], s4);
      actions := RunOne(s2, a, actions, s3);
    } else {
      assert s2.producers == s.producers;
    }
    actions := RunOne(s1, a, actions, s2);
    actions := RunOne(s, a, actions, s1);
  }

  /** Dequeue left alone: if the slot at the head is in use its item comes out and the slot is free, otherwise nothing
      changes. */
  lemma DequeueAlone(s: State) returns (actions: seq<Action>)
    requires |s.q.slots| > 0 && !s.q.broken && s.consumer == CIdle
    ensures
      var i := Slot(s.q.head, |s.q.slots|);
      Run(s, actions) ==
        if !s.q.slots[i].isUsed then s
        else s.(q := s.q.(head := s.q.head + 1, freed := s.q.freed + 1, out := s.q.out + [s.q.slots[i].data],
                          slots := s.q.slots[i := s.q.slots[i].(isUsed := false)]))
  {
    var h := s.q.head;
    var s1 := s.(consumer := CCheck(h));
    actions := [];
    if s.q.slots[Slot(h, |s.q.slots|)].isUsed {
      var s2 := s.(consumer := CCas(h));
      var s3 := s.(q := s.q.(head := h + 1), consumer := CTake(h));
      var s4 := s3.(q := s3.q.(out := s.q.out + [s.q.slots[Slot(h, |s.q.slots|)].data]), consumer := CFree(h));
      actions := RunOne(s4, Consume, [], Step(s4, Consume));
      actions := RunOne(s3, Consume, actions, s4);
      actions := RunOne(s2, Consume, actions, s3);
      actions := RunOne(s1, Consume, actions, s2);
    } else {
      actions := RunOne(s1, Consume, [], s);
    }
    actions := RunOne(s, Consume, actions, s1);
  }
}

/** Reference counts of send buffers (include/CSendBuffer.h: Alloc, IncreaseRef, Release; src/SendBuffer.cpp;
    src/NormalIOCP.cpp: ProcessBuffer; src/Session.cpp: RealSend, Reset; src/PostSendExecutable.cpp), for
    any number of threads, handles, buffers and sessions.

    A reference lives in a cell: a `SendBuffer` variable, a call in progress, a slot of a session's send
    queue, a place of its `_sendingQ`. A null handle is a cell that is not there. Sends of one session are
    serialised (`SendGate`), and a session is reset when nobody is inside it (`SlotLifetime`). The accesses
    of Enqueue and Dequeue to a slot (the test, the data, the mark) are steps of their own, as in
    `TicketQueue`. */
module BufferRefs {
  import opened Agents
  import TicketQueue

  const MAX_SEND_COUNT := 512

  /** `Drained` is the variable into which Reset takes a buffer off the queue. */
  datatype Cell = Handle(h: nat) | Mid(t: nat) | Queue(i: nat, slot: nat) | Sending(i: nat, k: nat) | Drained(i: nat)

  /** `_refCount` per buffer, the pool, buffers whose count became 0 and whose Free is still to come, and
      what the cells point at. */
  datatype Heap = Heap(refs: seq<int>, pool: set<nat>, freeing: set<nat>, cells: map<Cell, nat>)

  // ---------------------------------------------------------------- the four things that happen to a reference

  /** A new reference: IncreaseRef, or Alloc for a buffer of the pool. */
  function Keep(m: Heap, l: Cell, b: nat): Heap
    requires b < |m.refs|
  {
    m.(refs := m.refs[b := m.refs[b] + 1], pool := m.pool - {b}, cells := m.cells[l := b])
  }

  /** A reference changes place. */
  function Shift(m: Heap, l: Cell, l': Cell): Heap
    requires l in m.cells
  {
    m.(cells := (m.cells - {l})[l' := m.cells[l]])
  }

  /** Release: the thread whose decrement gives 0 goes on to Free. */
  function Drop(m: Heap, l: Cell): Heap
    requires l in m.cells && m.cells[l] < |m.refs|
  {
    var b := m.cells[l];
    Heap(m.refs[b := m.refs[b] - 1], m.pool, if m.refs[b] == 1 then m.freeing + {b} else m.freeing, m.cells - {l})
  }

  /** `std::swap` of two pointers. */
  function Swapped(m: Heap, l: Cell, l2: Cell): Heap
    requires l in m.cells && l2 in m.cells
  {
    m.(cells := m.cells[l := m.cells[l2]][l2 := m.cells[l]])
  }

  /** `_pool.Free(this)`. */
  function Recycle(m: Heap, b: nat): Heap {
    m.(pool := m.pool + {b}, freeing := m.freeing - {b})
  }

  ghost function Holders(cells: map<Cell, nat>, b: nat): set<Cell> {
    set l | l in cells && cells[l] == b
  }

  /** The count of a buffer is the number of its references; it is in the pool, or on the way there,
      exactly when there are none. */
  ghost predicate BufferOk(m: Heap, b: nat) {
    b < |m.refs| && (
      && m.refs[b] == |Holders(m.cells, b)|
      && (b in m.pool || b in m.freeing <==> Holders(m.cells, b) == {})
      && !(b in m.pool && b in m.freeing))
  }

  ghost predicate HeapOk(m: Heap) {
    && (forall b :: 0 <= b < |m.refs| ==> BufferOk(m, b))
    && (forall l :: l in m.cells ==> m.cells[l] < |m.refs|)
  }

  lemma KeepOk(m: Heap, l: Cell, b: nat)
    requires HeapOk(m) && b < |m.refs| && l !in m.cells && b !in m.freeing
    ensures HeapOk(Keep(m, l, b))
  {
    var m' := Keep(m, l, b);
    forall c | 0 <= c < |m.refs|
      ensures BufferOk(m', c)
    {
      assert BufferOk(m, c);
      assert Holders(m'.cells, c) == if c == b then Holders(m.cells, c) + {l} else Holders(m.cells, c);
    }
  }

  lemma ShiftOk(m: Heap, l: Cell, l': Cell)
    requires HeapOk(m) && l in m.cells && l' !in m.cells
    ensures HeapOk(Shift(m, l, l'))
  {
    var m' := Shift(m, l, l');
    forall c | 0 <= c < |m.refs|
      ensures BufferOk(m', c)
    {
      assert BufferOk(m, c);
      if c == m.cells[l] {
        assert l in Holders(m.cells, c);
        assert Holders(m'.cells, c) == Holders(m.cells, c) - {l} + {l'};
      } else {
        assert Holders(m'.cells, c) == Holders(m.cells, c);
      }
    }
  }

  lemma DropOk(m: Heap, l: Cell)
    requires HeapOk(m) && l in m.cells
    ensures HeapOk(Drop(m, l))
  {
    var m', b := Drop(m, l), m.cells[l];
    assert BufferOk(m, b);
    assert l in Holders(m.cells, b);
    forall c | 0 <= c < |m.refs|
      ensures BufferOk(m', c)
    {
      assert BufferOk(m, c);
      assert Holders(m'.cells, c) == if c == b then Holders(m.cells, c) - {l} else Holders(m.cells, c);
      if c == b && m.refs[b] > 1 {
        assert |Holders(m'.cells, c)| > 0;
      }
    }
  }

  lemma RecycleOk(m: Heap, b: nat)
    requires HeapOk(m) && b in m.freeing
    ensures HeapOk(Recycle(m, b))
  {
    forall c | 0 <= c < |m.refs|
      ensures BufferOk(Recycle(m, b), c)
    {
      assert BufferOk(m, c);
    }
  }

  // ---------------------------------------------------------------- the machine

  /** ProcessBuffer: the reference is taken; before each access to the queue. */
  datatype Pc =
    | TIdle
    | TTicket(i: nat)
    | TCheck(i: nat, k: nat)     // before isUsed.load
    | TWrite(i: nat, k: nat)     // before the slot's data is written
    | TMark(i: nat, k: nat)      // before isUsed.exchange(true)
    | TReject(i: nat)

  /** What the one sender of a session does, then its completion, then Reset. */
  datatype Phase =
    | SIdle
    | STake(n: nat)              // RealSend: n buffers taken; before the next Dequeue
    | SCopy(n: nat)              //   head moved; before the slot's data is read
    | SFree(n: nat)              //   before isUsed.exchange(false)
    | STry                       // before WSASend
    | SFlight                    // the send is outstanding
    | SRelease(k: nat)           // PostSendExecutable: k buffers released
    | SFailed                    // WSASend failed, or its completion did
    | ResetQ                     // Reset: before the next Dequeue
    | ResetCopy
    | ResetFree
    | ResetDrop                  //   before the drained buffer is released
    | ResetX                     // before dataNotSend is exchanged for 0
    | ResetS(k: nat, n: nat)     // k of n places of _sendingQ released

  /** `used` and `data` are the slots of `_sendQ`. History: the ticket each slot was marked for, the thread
      with each unused ticket, the thread past the test of each slot. */
  datatype Session = Session(
    head: nat, tail: nat, dataNotSend: nat, phase: Phase, used: set<nat>, data: map<nat, nat>,
    ticket: map<nat, nat>, open: map<nat, nat>, claim: map<nat, nat>)

  /** History: sessions whose queue ever had more tickets out than slots; whether a thread was ever turned away;
      whether two threads were ever past the test of one slot at once; `broken`, a `__debugbreak`, an
      overwritten reference, or the release of one that is not there. */
  datatype State = State(
    m: Heap, threads: seq<Pc>, sessions: seq<Session>,
    crowded: set<nat>, rejected: bool, clashed: bool, broken: bool)

  datatype Call =
    | Alloc(h: nat, b: nat)      // SendBuffer::Alloc into variable h; the pool gives b
    | Copy(h: nat, h2: nat)      // copy constructor: h2 from h
    | Move(h: nat, h2: nat)      // move constructor: h2 from h
    | Swap(h: nat, h2: nat)
    | Destroy(h: nat)
    | Send(h: nat, i: nat)       // SendPacket of h to session i

  datatype Actor = Thread(t: nat, call: Call) | Sender(i: nat, succeeds: bool, reset: bool) | Freer(b: nat)

  function Slot(k: nat): nat {
    TicketQueue.Slot(k, MAX_SEND_COUNT)
  }

  predicate InReset(p: Phase) {
    p.ResetQ? || p.ResetCopy? || p.ResetFree? || p.ResetDrop? || p.ResetX? || p.ResetS?
  }

  /** Nobody is inside the session. */
  predicate Quiet(s: State, i: nat) {
    forall t :: 0 <= t < |s.threads| ==> s.threads[t] == TIdle || s.threads[t].i != i
  }

  /** The handle operations. Preconditions of C++ (a variable that is there, a fresh one) are guards. */
  function CallStep(m: Heap, c: Call): Heap {
    match c
    case Alloc(h, b) => if b in m.pool && b < |m.refs| && Handle(h) !in m.cells then Keep(m, Handle(h), b) else m
    case Copy(h, h2) =>
      if Handle(h) in m.cells && Handle(h2) !in m.cells && m.cells[Handle(h)] < |m.refs|
      then Keep(m, Handle(h2), m.cells[Handle(h)]) else m
    case Move(h, h2) =>
      if Handle(h) in m.cells && Handle(h2) !in m.cells then Shift(m, Handle(h), Handle(h2)) else m
    case Swap(h, h2) =>
      if h == h2 then m
      else if Handle(h) in m.cells && Handle(h2) in m.cells
      then Swapped(m, Handle(h), Handle(h2))
      else if Handle(h) in m.cells then Shift(m, Handle(h), Handle(h2))
      else if Handle(h2) in m.cells then Shift(m, Handle(h2), Handle(h))
      else m
    case Destroy(h) =>
      if Handle(h) in m.cells && m.cells[Handle(h)] < |m.refs| then Drop(m, Handle(h)) else m
    case Send(_, _) => m
  }

  function SetThread(s: State, t: nat, pc: Pc): State
    requires t < |s.threads|
  {
    s.(threads := s.threads[t := pc])
  }

  function SetSession(s: State, i: nat, x: Session): State
    requires i < |s.sessions|
  {
    s.(sessions := s.sessions[i := x])
  }

  /** Dequeue is between moving the head and freeing the slot. */
  predicate Taking(p: Phase) {
    p.SCopy? || p.SFree? || p.ResetCopy? || p.ResetFree?
  }

  /** Slots not yet freed start at this ticket. */
  function Freed(x: Session): int {
    x.head - Bit(Taking(x.phase))
  }

  function BeginSend(s: State, t: nat, h: nat, i: nat): State
    requires t < |s.threads|
  {
    if Handle(h) in s.m.cells && s.m.cells[Handle(h)] < |s.m.refs| && Mid(t) !in s.m.cells
       && i < |s.sessions| && !InReset(s.sessions[i].phase)
    then SetThread(s, t, TTicket(i)).(m := Keep(s.m, Mid(t), s.m.cells[Handle(h)]))
    else s
  }

  function Ticket(x: Session, t: nat): Session {
    x.(tail := x.tail + 1, open := x.open[x.tail := t])
  }

  function Claimed(x: Session, q: nat, t: nat): Session {
    x.(claim := x.claim[q := t])
  }

  function Marked(x: Session, q: nat, k: nat): Session {
    x.(used := x.used + {q}, open := x.open - {k}, ticket := x.ticket[q := k], claim := x.claim - {q})
  }

  /** A write to a slot overwrites the reference in it, if there is one. */
  function Written(m: Heap, l: Cell, b: nat): Heap {
    if l in m.cells then m.(cells := m.cells[l := b]) else m
  }

  function ThreadStep(s: State, t: nat, c: Call): State
    requires t < |s.threads|
  {
    var pc := s.threads[t];
    if pc == TIdle then
      if c.Send? then BeginSend(s, t, c.h, c.i) else s.(m := CallStep(s.m, c))
    else if pc.i >= |s.sessions| || Mid(t) !in s.m.cells || s.m.cells[Mid(t)] >= |s.m.refs| then s.(broken := true)
    else
      var x := s.sessions[pc.i];
      match pc
      case TTicket(i) =>
        SetThread(SetSession(s, i, Ticket(x, t)), t, TCheck(i, x.tail))
        .(crowded := if x.tail + 1 > Freed(x) + MAX_SEND_COUNT then s.crowded + {i} else s.crowded)
      case TCheck(i, k) =>
        if Slot(k) in x.used then
          SetThread(SetSession(s, i, x.(open := x.open - {k})), t, TReject(i)).(rejected := true)
        else SetThread(SetSession(s, i, Claimed(x, Slot(k), t)), t, TWrite(i, k))
             .(clashed := s.clashed || Slot(k) in x.claim)
      case TWrite(i, k) =>
        SetThread(SetSession(s, i, x.(data := x.data[Slot(k) := s.m.cells[Mid(t)]])), t, TMark(i, k))
        .(m := Written(s.m, Queue(i, Slot(k)), s.m.cells[Mid(t)]))
      case TMark(i, k) =>
        if Slot(k) in x.used || Slot(k) !in x.data then s.(broken := true)
        else SetThread(SetSession(s, i, Marked(x, Slot(k), k)), t, TIdle)
             .(m := s.m.(cells := (s.m.cells - {Mid(t)})[Queue(i, Slot(k)) := x.data[Slot(k)]]))
      case TReject(i) => SetThread(s, t, TIdle).(m := Drop(s.m, Mid(t)))
  }

  function Goto(s: State, i: nat, p: Phase): State
    requires i < |s.sessions|
  {
    SetSession(s, i, s.sessions[i].(phase := p))
  }

  /** Release of a cell that must be there. */
  function DropCell(s: State, i: nat, l: Cell, p: Phase): State
    requires i < |s.sessions|
  {
    if l in s.m.cells && s.m.cells[l] < |s.m.refs| then Goto(s, i, p).(m := Drop(s.m, l)) else s.(broken := true)
  }

  /** Dequeue copies the pointer of the slot behind the head. */
  function CopyCell(s: State, i: nat, l: Cell, p: Phase): State
    requires i < |s.sessions|
  {
    var x := s.sessions[i];
    if x.head > 0 && Queue(i, Slot(x.head - 1)) in s.m.cells && l !in s.m.cells
    then Goto(s, i, p).(m := Shift(s.m, Queue(i, Slot(x.head - 1)), l))
    else s.(broken := true)
  }

  function FreeSlot(s: State, i: nat, p: Phase): State
    requires i < |s.sessions|
  {
    var x := s.sessions[i];
    if x.head > 0 && Slot(x.head - 1) in x.used
    then SetSession(s, i, x.(used := x.used - {Slot(x.head - 1)}, phase := p))
    else s.(broken := true)
  }

  function SenderStep(s: State, i: nat, succeeds: bool, reset: bool): State
    requires i < |s.sessions|
  {
    var x := s.sessions[i];
    match x.phase
    case SIdle => if !reset then Goto(s, i, STake(0)) else if Quiet(s, i) then Goto(s, i, ResetQ) else s
    case STake(n) =>
      if n < MAX_SEND_COUNT && Slot(x.head) in x.used
      then SetSession(s, i, x.(head := x.head + 1, phase := SCopy(n)))
      else if n == 0 then s
      else SetSession(s, i, x.(dataNotSend := n, phase := STry))
    case SCopy(n) => CopyCell(s, i, Sending(i, n), SFree(n))
    case SFree(n) => FreeSlot(s, i, STake(n + 1))
    case STry => Goto(s, i, if succeeds then SFlight else SFailed)
    case SFlight => Goto(s, i, if succeeds then SRelease(0) else SFailed)
    case SRelease(k) =>
      if k < x.dataNotSend then DropCell(s, i, Sending(i, k), SRelease(k + 1))
      else SetSession(s, i, x.(dataNotSend := 0, phase := SIdle))
    case SFailed => if reset && Quiet(s, i) then Goto(s, i, ResetQ) else s
    case ResetQ =>
      if Slot(x.head) in x.used then SetSession(s, i, x.(head := x.head + 1, phase := ResetCopy))
      else Goto(s, i, ResetX)
    case ResetCopy => CopyCell(s, i, Drained(i), ResetFree)
    case ResetFree => FreeSlot(s, i, ResetDrop)
    case ResetDrop => DropCell(s, i, Drained(i), ResetQ)
    case ResetX => SetSession(s, i, x.(dataNotSend := 0, phase := ResetS(0, x.dataNotSend)))
    case ResetS(k, n) => if k < n then DropCell(s, i, Sending(i, k), ResetS(k + 1, n)) else Goto(s, i, SIdle)
  }

  function Step(s: State, a: Actor): State {
    if s.broken then s else
    match a
    case Thread(t, c) => if t < |s.threads| then ThreadStep(s, t, c) else s
    case Sender(i, succeeds, reset) => if i < |s.sessions| then SenderStep(s, i, succeeds, reset) else s
    case Freer(b) => if b in s.m.freeing then s.(m := Recycle(s.m, b)) else s
  }

  function Run(s: State, sched: seq<Actor>): State
    decreases |sched|
  {
    if sched == [] then s else Run(Step(s, sched[0]), sched[1..])
  }

  function NewSession(): Session {
    Session(0, 0, 0, SIdle, {}, map[], map[], map[], map[])
  }

  predicate Initial(s: State) {
    && (forall b :: 0 <= b < |s.m.refs| ==> s.m.refs[b] == 0 && b in s.m.pool)
    && s.m.freeing == {} && s.m.cells == map[] && s.crowded == {} && !s.rejected && !s.clashed && !s.broken
    && (forall t :: 0 <= t < |s.threads| ==> s.threads[t] == TIdle)
    && (forall i :: 0 <= i < |s.sessions| ==> s.sessions[i] == NewSession())
  }

  // ---------------------------------------------------------------- handles

  lemma SwapHolders(m: Heap, l: Cell, l2: Cell, c: nat)
    requires l in m.cells && l2 in m.cells && m.cells[l] != m.cells[l2]
    ensures Holders(Swapped(m, l, l2).cells, c) ==
            if c == m.cells[l] then Holders(m.cells, c) - {l} + {l2}
            else if c == m.cells[l2] then Holders(m.cells, c) - {l2} + {l}
            else Holders(m.cells, c)
  {
  }

  lemma SwapOk(m: Heap, l: Cell, l2: Cell)
    requires HeapOk(m) && l in m.cells && l2 in m.cells
    ensures HeapOk(Swapped(m, l, l2))
  {
    if m.cells[l] == m.cells[l2] {
      assert Swapped(m, l, l2).cells == m.cells;
    } else {
      forall c | 0 <= c < |m.refs|
        ensures BufferOk(Swapped(m, l, l2), c)
      {
        assert BufferOk(m, c);
        SwapHolders(m, l, l2, c);
        assert l in Holders(m.cells, m.cells[l]) && l2 in Holders(m.cells, m.cells[l2]);
      }
    }
  }

  lemma HolderNotFree(m: Heap, l: Cell)
    requires HeapOk(m) && l in m.cells
    ensures m.cells[l] < |m.refs| && m.cells[l] !in m.pool && m.cells[l] !in m.freeing
  {
    assert BufferOk(m, m.cells[l]);
    assert l in Holders(m.cells, m.cells[l]);
  }

  lemma CallOk(m: Heap, c: Call)
    requires HeapOk(m)
    ensures HeapOk(CallStep(m, c))
  {
    match c {
      case Alloc(h, b) =>
        if b in m.pool && b < |m.refs| && Handle(h) !in m.cells {
          assert BufferOk(m, b);
          KeepOk(m, Handle(h), b);
        }
      case Copy(h, h2) =>
        if Handle(h) in m.cells && Handle(h2) !in m.cells {
          HolderNotFree(m, Handle(h));
          KeepOk(m, Handle(h2), m.cells[Handle(h)]);
        }
      case Move(h, h2) =>
        if Handle(h) in m.cells && Handle(h2) !in m.cells {
          ShiftOk(m, Handle(h), Handle(h2));
        }
      case Swap(h, h2) =>
        if h != h2 && Handle(h) in m.cells && Handle(h2) in m.cells {
          SwapOk(m, Handle(h), Handle(h2));
        } else if h != h2 && Handle(h) in m.cells {
          ShiftOk(m, Handle(h), Handle(h2));
        } else if h != h2 && Handle(h2) in m.cells {
          ShiftOk(m, Handle(h2), Handle(h));
        }
      case Destroy(h) =>
        if Handle(h) in m.cells {
          DropOk(m, Handle(h));
        }
      case Send(_, _) =>
    }
  }

  // ---------------------------------------------------------------- where the references are

  /** The places of `_sendingQ` that hold a reference. */
  function Lo(x: Session): nat {
    match x.phase
    case SRelease(k) => k
    case ResetS(k, _) => k
    case _ => 0
  }

  function Hi(x: Session): nat {
    match x.phase
    case STake(n) => n
    case SCopy(n) => n
    case SFree(n) => n + 1
    case ResetS(_, n) => n
    case _ => x.dataNotSend
  }

  predicate Filling(p: Phase) {
    p.SIdle? || p.STake? || p.SCopy? || p.SFree? || p.ResetS?
  }

  predicate PhaseOk(x: Session) {
    && Lo(x) <= Hi(x)
    && (Filling(x.phase) ==> x.dataNotSend == 0)
    && (Taking(x.phase) ==> x.head > 0 && Slot(x.head - 1) in x.used)
  }

  predicate SendingOk(s: State, i: nat, k: nat) {
    i < |s.sessions| && (Sending(i, k) in s.m.cells <==> Lo(s.sessions[i]) <= k < Hi(s.sessions[i]))
  }

  predicate Past(pc: Pc, i: nat, q: nat) {
    (pc.TWrite? || pc.TMark?) && pc.i == i && Slot(pc.k) == q
  }

  /** The slot's reference has been copied out, and the slot is not free yet. */
  predicate Emptied(x: Session, q: nat) {
    (x.phase.SFree? || x.phase.ResetFree?) && x.head > 0 && q == Slot(x.head - 1)
  }

  /** A used slot holds a reference until it is copied out, and a ticket that is not freed yet. */
  predicate SlotOk(s: State, i: nat, q: nat) {
    i < |s.sessions| && (
      var x := s.sessions[i];
      && (Queue(i, q) in s.m.cells <==> q in x.used && !Emptied(x, q))
      && (q in x.claim ==> x.claim[q] < |s.threads| && Past(s.threads[x.claim[q]], i, q))
      && (i !in s.crowded && q in x.used ==>
           q in x.ticket && Freed(x) <= x.ticket[q] < x.tail && Slot(x.ticket[q]) == q))
  }

  predicate Filled(x: Session, k: nat) {
    Slot(k) in x.used && Slot(k) in x.ticket && x.ticket[Slot(k)] == k
  }

  predicate HasTicket(pc: Pc, i: nat, k: nat) {
    (pc.TCheck? || pc.TWrite? || pc.TMark?) && pc.i == i && pc.k == k
  }

  /** A ticket that is not freed is filled, or open in the hands of one thread. */
  predicate TicketOk(s: State, i: nat, k: nat) {
    i < |s.sessions| && (
      var x := s.sessions[i];
      i !in s.crowded ==>
        && (Freed(x) <= k < x.tail ==> (k in x.open <==> !Filled(x, k)))
        && (k in x.open ==> x.head <= k < x.tail && x.open[k] < |s.threads| && HasTicket(s.threads[x.open[k]], i, k)))
  }

  ghost predicate QueueOk(s: State, i: nat) {
    i < |s.sessions| && (
      var x := s.sessions[i];
      && (i !in s.crowded ==> 0 <= Freed(x) && x.head <= x.tail <= Freed(x) + MAX_SEND_COUNT)
      && (forall q: nat :: SlotOk(s, i, q))
      && (forall k: nat :: TicketOk(s, i, k)))
  }

  ghost predicate SessionOk(s: State, i: nat) {
    i < |s.sessions| && (
      var x := s.sessions[i];
      && PhaseOk(x)
      && (i !in s.crowded && (x.phase.ResetX? || x.phase.ResetS?) ==> x.head == x.tail)
      && (InReset(x.phase) ==> Quiet(s, i))
      && (Drained(i) in s.m.cells <==> x.phase.ResetFree? || x.phase.ResetDrop?)
      && (forall k: nat :: SendingOk(s, i, k))
      && QueueOk(s, i))
  }

  /** A thread past the test of a slot has it to itself; before its mark, its buffer is what the slot has. */
  predicate ThreadOk(s: State, t: nat) {
    t < |s.threads| && (
      var pc := s.threads[t];
      && (Mid(t) in s.m.cells <==> pc != TIdle)
      && (pc != TIdle ==>
           && pc.i < |s.sessions|
           && (var x := s.sessions[pc.i];
               && ((pc.TCheck? || pc.TWrite? || pc.TMark?) && pc.i !in s.crowded ==>
                    pc.k in x.open && x.open[pc.k] == t)
               && (pc.TReject? ==> pc.i in s.crowded)
               && (pc.TWrite? || pc.TMark? ==>
                    Slot(pc.k) in x.claim && x.claim[Slot(pc.k)] == t && Slot(pc.k) !in x.used)
               && (pc.TMark? ==> Slot(pc.k) in x.data && x.data[Slot(pc.k)] == s.m.cells[Mid(t)]))))
  }

  ghost predicate Inv(s: State) {
    && HeapOk(s.m)
    && (forall t :: 0 <= t < |s.threads| ==> ThreadOk(s, t))
    && (forall i :: 0 <= i < |s.sessions| ==> SessionOk(s, i))
  }

  /** Tickets that are not freed have different slots. */
  lemma SlotsDiffer(x: Session, k: nat, k2: nat)
    requires Freed(x) <= k < Freed(x) + MAX_SEND_COUNT && Freed(x) <= k2 < Freed(x) + MAX_SEND_COUNT && k != k2
    ensures Slot(k) != Slot(k2)
  {
    assert TicketQueue.WORD % MAX_SEND_COUNT == 0;
    if k < k2 {
      TicketQueue.SlotsDiffer(k, k2, MAX_SEND_COUNT);
    } else {
      TicketQueue.SlotsDiffer(k2, k, MAX_SEND_COUNT);
    }
  }

  // ---------------------------------------------------------------- frames

  ghost predicate SameCells(s: State, s': State, j: nat) {
    && (forall q: nat :: Queue(j, q) in s'.m.cells <==> Queue(j, q) in s.m.cells)
    && (forall k: nat :: Sending(j, k) in s'.m.cells <==> Sending(j, k) in s.m.cells)
    && (Drained(j) in s'.m.cells <==> Drained(j) in s.m.cells)
  }

  predicate Ticketed(pc: Pc, j: nat) {
    (pc.TCheck? || pc.TWrite? || pc.TMark?) && pc.i == j
  }

  /** Only thread `t` moves, and it has no ticket of session `j` or keeps it where it was. */
  predicate Bystander(s: State, s': State, j: nat, t: nat) {
    && |s'.threads| == |s.threads| && (j in s'.crowded <==> j in s.crowded)
    && (forall u :: 0 <= u < |s.threads| && u != t ==> s'.threads[u] == s.threads[u])
    && (t < |s.threads| && Ticketed(s.threads[t], j) ==> s'.threads[t] == s.threads[t])
    && (t < |s.threads| && j < |s.sessions| && InReset(s.sessions[j].phase) ==>
         s'.threads[t] == TIdle || s'.threads[t].i != j)
  }

  /** A session stays as it is when only threads that have no ticket of it move. */
  lemma SessionFrame(s: State, s': State, j: nat, t: nat)
    requires j < |s.sessions| == |s'.sessions| && SessionOk(s, j) && Bystander(s, s', j, t)
    requires s'.sessions[j] == s.sessions[j] && SameCells(s, s', j)
    ensures SessionOk(s', j)
  {
    forall k: nat
      ensures SendingOk(s', j, k) && SlotOk(s', j, k) && TicketOk(s', j, k)
    {
      assert SendingOk(s, j, k) && SlotOk(s, j, k) && TicketOk(s, j, k);
    }
  }

  /** What thread `u` has open and claimed in a session stays so. */
  predicate Kept(s: State, s': State, i: nat, u: nat) {
    i < |s.sessions| == |s'.sessions| && (
      var x, x' := s.sessions[i], s'.sessions[i];
      && (i !in s'.crowded ==> forall k :: k in x.open && x.open[k] == u ==> k in x'.open && x'.open[k] == u)
      && (forall q :: q in x.claim && x.claim[q] == u ==>
           && q in x'.claim && x'.claim[q] == u && (q in x'.used ==> q in x.used)
           && (q in x.data ==> q in x'.data && x'.data[q] == x.data[q])))
  }

  /** A thread that does not move keeps what it knows. */
  lemma ThreadFrame(s: State, s': State, u: nat)
    requires u < |s.threads| == |s'.threads| && |s'.sessions| == |s.sessions| && ThreadOk(s, u)
    requires s'.threads[u] == s.threads[u] && (Mid(u) in s'.m.cells <==> Mid(u) in s.m.cells)
    requires Mid(u) in s.m.cells ==> s'.m.cells[Mid(u)] == s.m.cells[Mid(u)]
    requires s.crowded <= s'.crowded
    requires forall i :: 0 <= i < |s.sessions| ==> Kept(s, s', i, u)
    ensures ThreadOk(s', u)
  {
    assert s.threads[u] != TIdle ==> Kept(s, s', s.threads[u].i, u);
  }

  ghost predicate SameMid(s: State, s': State, u: nat) {
    && (Mid(u) in s'.m.cells <==> Mid(u) in s.m.cells)
    && (Mid(u) in s.m.cells ==> s'.m.cells[Mid(u)] == s.m.cells[Mid(u)])
  }

  /** A step of thread `t` that changes session `i` at most. */
  lemma ThreadsKeep(s: State, s': State, t: nat, i: nat)
    requires Inv(s) && t < |s.threads| == |s'.threads| && |s'.sessions| == |s.sessions| && ThreadOk(s', t)
    requires forall u :: 0 <= u < |s.threads| && u != t ==> s'.threads[u] == s.threads[u]
    requires forall u: nat :: u != t ==> SameMid(s, s', u)
    requires forall j :: 0 <= j < |s.sessions| && j != i ==> s'.sessions[j] == s.sessions[j]
    requires s.crowded <= s'.crowded
    requires forall u: nat :: i < |s.sessions| && u != t ==> Kept(s, s', i, u)
    ensures forall u :: 0 <= u < |s.threads| ==> ThreadOk(s', u)
  {
    forall u | 0 <= u < |s.threads|
      ensures ThreadOk(s', u)
    {
      assert ThreadOk(s, u);
      if u != t {
        assert SameMid(s, s', u);
        ThreadFrame(s, s', u);
      }
    }
  }

  /** A step of thread `t` in session `i`: the other sessions stay as they are. */
  lemma ThreadSessions(s: State, s': State, t: nat, i: nat)
    requires Inv(s) && t < |s.threads| && |s'.sessions| == |s.sessions| && |s'.threads| == |s.threads|
    requires forall u :: 0 <= u < |s.threads| && u != t ==> s'.threads[u] == s.threads[u]
    requires s.threads[t] == TIdle || s.threads[t].i == i
    requires s'.threads[t] == TIdle || s'.threads[t].i == i
    requires forall j :: 0 <= j < |s.sessions| && j != i ==> s'.sessions[j] == s.sessions[j]
    requires forall j: nat :: j != i ==> SameCells(s, s', j) && (j in s'.crowded <==> j in s.crowded)
    ensures forall j :: 0 <= j < |s.sessions| && j != i ==> SessionOk(s', j)
  {
    forall j | 0 <= j < |s.sessions| && j != i
      ensures SessionOk(s', j)
    {
      assert SessionOk(s, j) && SameCells(s, s', j);
      SessionFrame(s, s', j, t);
    }
  }

  // ---------------------------------------------------------------- steps of threads

  lemma CallInv(s: State, t: nat, c: Call)
    requires Inv(s) && t < |s.threads| && s.threads[t] == TIdle && !c.Send?
    ensures Inv(ThreadStep(s, t, c))
  {
    var s' := ThreadStep(s, t, c);
    CallOk(s.m, c);
    assert ThreadOk(s, t);
    ThreadsKeep(s, s', t, |s.sessions|);
    ThreadSessions(s, s', t, |s.sessions|);
  }

  lemma BeginInv(s: State, t: nat, h: nat, i: nat)
    requires Inv(s) && t < |s.threads| && s.threads[t] == TIdle
    ensures Inv(BeginSend(s, t, h, i))
  {
    var s' := BeginSend(s, t, h, i);
    assert ThreadOk(s, t);
    if s' != s {
      HolderNotFree(s.m, Handle(h));
      KeepOk(s.m, Mid(t), s.m.cells[Handle(h)]);
      ThreadsKeep(s, s', t, |s.sessions|);
      ThreadSessions(s, s', t, i);
      assert SessionOk(s, i);
      SessionFrame(s, s', i, t);
    }
  }

  lemma TicketSession(s: State, s': State, t: nat, i: nat)
    requires i < |s.sessions| && t < |s.threads| && s.threads[t] == TTicket(i) && SessionOk(s, i)
    requires
      var x := s.sessions[i];
      s' == SetThread(SetSession(s, i, Ticket(x, t)), t, TCheck(i, x.tail))
            .(crowded := if x.tail + 1 > Freed(x) + MAX_SEND_COUNT then s.crowded + {i} else s.crowded)
    ensures SessionOk(s', i)
  {
    var x := s.sessions[i];
    forall k: nat
      ensures SendingOk(s', i, k) && SlotOk(s', i, k) && TicketOk(s', i, k)
    {
      assert SendingOk(s, i, k) && SlotOk(s, i, k) && TicketOk(s, i, k);
      if k == x.tail {
        assert SlotOk(s, i, Slot(k));
      }
    }
  }

  lemma TicketInv(s: State, t: nat, i: nat, c: Call)
    requires Inv(s) && t < |s.threads| && s.threads[t] == TTicket(i) && !ThreadStep(s, t, c).broken && !s.broken
    ensures Inv(ThreadStep(s, t, c))
  {
    var s', x := ThreadStep(s, t, c), s.sessions[i];
    assert ThreadOk(s, t) && SessionOk(s, i) && TicketOk(s, i, x.tail);
    TicketSession(s, s', t, i);
    ThreadsKeep(s, s', t, i);
    ThreadSessions(s, s', t, i);
  }

  /** With no more tickets out than slots, the slot of an open ticket is free and nobody else is past its
      test: nothing is rejected and nobody clashes. */
  lemma SlotIsFree(s: State, t: nat)
    requires Inv(s) && t < |s.threads| && s.threads[t].TCheck?
    requires s.threads[t].i < |s.sessions| && s.threads[t].i !in s.crowded
    ensures
      var x, q := s.sessions[s.threads[t].i], Slot(s.threads[t].k);
      q !in x.used && q !in x.claim
  {
    var i, k := s.threads[t].i, s.threads[t].k;
    var x := s.sessions[i];
    assert ThreadOk(s, t) && SessionOk(s, i);
    assert TicketOk(s, i, k) && SlotOk(s, i, Slot(k));
    if Slot(k) in x.used && x.ticket[Slot(k)] != k {
      SlotsDiffer(x, x.ticket[Slot(k)], k);
    }
    if Slot(k) in x.claim {
      var u := x.claim[Slot(k)];
      assert ThreadOk(s, u) && TicketOk(s, i, s.threads[u].k);
      SlotsDiffer(x, s.threads[u].k, k);
    }
  }

  /** The thread with a ticket of the session moves; what changes is whether it holds the slot. */
  lemma CheckSession(s: State, s': State, t: nat, i: nat)
    requires i < |s.sessions| == |s'.sessions| && t < |s.threads| && SessionOk(s, i) && s'.m == s.m
    requires s.threads[t].TCheck? && s.threads[t].i == i && Slot(s.threads[t].k) !in s.sessions[i].claim
    requires s'.threads == s.threads[t := TWrite(i, s.threads[t].k)] && s'.crowded == s.crowded
    requires s'.sessions[i] == Claimed(s.sessions[i], Slot(s.threads[t].k), t)
    ensures SessionOk(s', i)
  {
    forall k: nat
      ensures SendingOk(s', i, k) && SlotOk(s', i, k) && TicketOk(s', i, k)
    {
      assert SendingOk(s, i, k) && SlotOk(s, i, k) && TicketOk(s, i, k);
    }
  }

  lemma RejectedSession(s: State, s': State, t: nat, i: nat)
    requires i < |s.sessions| == |s'.sessions| && t < |s.threads| && SessionOk(s, i) && s'.m == s.m
    requires s.threads[t].TCheck? && s.threads[t].i == i && i in s.crowded && s'.crowded == s.crowded
    requires s'.threads == s.threads[t := TReject(i)]
    requires s'.sessions[i] == s.sessions[i].(open := s'.sessions[i].open)
    ensures SessionOk(s', i)
  {
    forall k: nat
      ensures SendingOk(s', i, k) && SlotOk(s', i, k) && TicketOk(s', i, k)
    {
      assert SendingOk(s, i, k) && SlotOk(s, i, k);
    }
  }

  lemma CheckInv(s: State, t: nat, c: Call)
    requires Inv(s) && t < |s.threads| && s.threads[t].TCheck? && !ThreadStep(s, t, c).broken && !s.broken
    requires s.threads[t].i < |s.sessions| && !ThreadStep(s, t, c).clashed
    ensures Inv(ThreadStep(s, t, c))
  {
    var s', i := ThreadStep(s, t, c), s.threads[t].i;
    assert ThreadOk(s, t) && SessionOk(s, i);
    if i !in s.crowded {
      SlotIsFree(s, t);
    }
    if Slot(s.threads[t].k) in s.sessions[i].used {
      RejectedSession(s, s', t, i);
    } else {
      CheckSession(s, s', t, i);
    }
    ThreadsKeep(s, s', t, i);
    ThreadSessions(s, s', t, i);
  }

  lemma WriteInv(s: State, t: nat, c: Call)
    requires Inv(s) && t < |s.threads| && s.threads[t].TWrite? && !ThreadStep(s, t, c).broken && !s.broken
    ensures Inv(ThreadStep(s, t, c))
  {
    var s', i, q := ThreadStep(s, t, c), s.threads[t].i, Slot(s.threads[t].k);
    assert ThreadOk(s, t) && SessionOk(s, i) && SlotOk(s, i, q);
    assert s'.m == s.m;
    forall k: nat
      ensures SendingOk(s', i, k) && SlotOk(s', i, k) && TicketOk(s', i, k)
    {
      assert SendingOk(s, i, k) && SlotOk(s, i, k) && TicketOk(s, i, k);
    }
    ThreadsKeep(s, s', t, i);
    ThreadSessions(s, s', t, i);
  }

  lemma RejectInv(s: State, t: nat, c: Call)
    requires Inv(s) && t < |s.threads| && s.threads[t].TReject? && !ThreadStep(s, t, c).broken && !s.broken
    ensures Inv(ThreadStep(s, t, c))
  {
    var s', i := ThreadStep(s, t, c), s.threads[t].i;
    assert ThreadOk(s, t) && SessionOk(s, i);
    DropOk(s.m, Mid(t));
    ThreadsKeep(s, s', t, i);
    ThreadSessions(s, s', t, i);
    SessionFrame(s, s', i, t);
  }

  /** A marked slot: the ticket is no longer open, and the other slots do not change. */
  lemma MarkSession(s: State, s': State, t: nat, i: nat, k: nat)
    requires i < |s.sessions| == |s'.sessions| && t < |s.threads| && s.threads[t] == TMark(i, k)
    requires SessionOk(s, i) && ThreadOk(s, t) && s'.threads == s.threads[t := TIdle] && s'.crowded == s.crowded
    requires s'.sessions[i] == Marked(s.sessions[i], Slot(k), k)
    requires forall q: nat :: Queue(i, q) in s'.m.cells <==> Queue(i, q) in s.m.cells || q == Slot(k)
    requires forall j: nat :: Sending(i, j) in s'.m.cells <==> Sending(i, j) in s.m.cells
    requires Drained(i) in s'.m.cells <==> Drained(i) in s.m.cells
    ensures SessionOk(s', i)
  {
    var x := s.sessions[i];
    assert TicketOk(s, i, k) && SlotOk(s, i, Slot(k));
    forall k2: nat
      ensures SendingOk(s', i, k2) && SlotOk(s', i, k2) && TicketOk(s', i, k2)
    {
      assert SendingOk(s, i, k2) && SlotOk(s, i, k2) && TicketOk(s, i, k2);
      if i !in s.crowded && Freed(x) <= k2 < x.tail && k2 != k {
        SlotsDiffer(x, k, k2);
      }
    }
  }

  lemma MarkInv(s: State, t: nat, c: Call)
    requires Inv(s) && t < |s.threads| && s.threads[t].TMark? && !s.broken
    ensures Inv(ThreadStep(s, t, c)) && !ThreadStep(s, t, c).broken
  {
    var s', i, k := ThreadStep(s, t, c), s.threads[t].i, s.threads[t].k;
    assert ThreadOk(s, t) && SessionOk(s, i) && SlotOk(s, i, Slot(k));
    HolderNotFree(s.m, Mid(t));
    assert s'.m == Shift(s.m, Mid(t), Queue(i, Slot(k)));
    ShiftOk(s.m, Mid(t), Queue(i, Slot(k)));
    MarkSession(s, s', t, i, k);
    ThreadsKeep(s, s', t, i);
    ThreadSessions(s, s', t, i);
  }

  // ---------------------------------------------------------------- steps of a session's sender

  /** A step of the sender of session `i`: threads and other sessions stay as they are. */
  ghost predicate OnlySender(s: State, s': State, i: nat) {
    && i < |s.sessions| == |s'.sessions| && s'.threads == s.threads && s'.crowded == s.crowded
    && (forall j :: 0 <= j < |s.sessions| && j != i ==> s'.sessions[j] == s.sessions[j])
    && (forall j: nat :: j != i ==> SameCells(s, s', j))
    && (forall t: nat :: SameMid(s, s', t))
    && s'.sessions[i] == s.sessions[i].(
         head := s'.sessions[i].head, dataNotSend := s'.sessions[i].dataNotSend, phase := s'.sessions[i].phase,
         used := s'.sessions[i].used)
    && s'.sessions[i].used <= s.sessions[i].used
  }

  lemma SenderFrame(s: State, s': State, i: nat)
    requires Inv(s) && OnlySender(s, s', i) && HeapOk(s'.m) && SessionOk(s', i)
    ensures Inv(s')
  {
    forall u | 0 <= u < |s.threads|
      ensures ThreadOk(s', u)
    {
      assert ThreadOk(s, u) && SameMid(s, s', u);
      ThreadFrame(s, s', u);
    }
    forall j | 0 <= j < |s.sessions|
      ensures SessionOk(s', j)
    {
      assert SessionOk(s, j);
      if j != i {
        assert SameCells(s, s', j);
        SessionFrame(s, s', j, |s.threads|);
      }
    }
  }

  predicate SameRange(x: Session, x': Session) {
    (Lo(x) == Lo(x') && Hi(x) == Hi(x')) || (Lo(x) >= Hi(x) && Lo(x') >= Hi(x'))
  }

  /** Steps that only change the place in the code and the count of buffers to release. */
  lemma PhaseInv(s: State, s': State, i: nat)
    requires Inv(s) && OnlySender(s, s', i) && s'.m == s.m && s'.sessions[i].used == s.sessions[i].used
    requires s'.sessions[i].head == s.sessions[i].head
    requires !Taking(s.sessions[i].phase) && !Taking(s'.sessions[i].phase)
    requires !s.sessions[i].phase.ResetDrop? && !s'.sessions[i].phase.ResetDrop?
    requires PhaseOk(s'.sessions[i]) && (InReset(s'.sessions[i].phase) ==> Quiet(s, i))
    requires
      var x := s'.sessions[i];
      i !in s.crowded && (x.phase.ResetX? || x.phase.ResetS?) ==> x.head == x.tail
    requires SameRange(s.sessions[i], s'.sessions[i])
    ensures Inv(s')
  {
    assert SessionOk(s, i);
    forall k: nat
      ensures SendingOk(s', i, k) && SlotOk(s', i, k) && TicketOk(s', i, k)
    {
      assert SendingOk(s, i, k) && SlotOk(s, i, k) && TicketOk(s, i, k);
    }
    SenderFrame(s, s', i);
  }

  /** The ticket at the head, if its slot is used, is the one in the slot. */
  lemma HeadIsFilled(s: State, i: nat)
    requires i < |s.sessions| && QueueOk(s, i) && i !in s.crowded && !Taking(s.sessions[i].phase)
    requires Slot(s.sessions[i].head) in s.sessions[i].used
    ensures s.sessions[i].head < s.sessions[i].tail && Filled(s.sessions[i], s.sessions[i].head)
    ensures s.sessions[i].head !in s.sessions[i].open
  {
    var x := s.sessions[i];
    assert SlotOk(s, i, Slot(x.head)) && TicketOk(s, i, x.head);
    if x.ticket[Slot(x.head)] != x.head {
      SlotsDiffer(x, x.ticket[Slot(x.head)], x.head);
    }
  }

  /** Dequeue moves the head past a used slot. */
  lemma HeadInv(s: State, s': State, i: nat)
    requires Inv(s) && OnlySender(s, s', i) && s'.m == s.m && Slot(s.sessions[i].head) in s.sessions[i].used
    requires s.sessions[i].phase.STake? || s.sessions[i].phase.ResetQ?
    requires s'.sessions[i] == s.sessions[i].(head := s.sessions[i].head + 1,
               phase := if s.sessions[i].phase.STake? then SCopy(s.sessions[i].phase.n) else ResetCopy)
    ensures Inv(s')
  {
    assert SessionOk(s, i);
    if i !in s.crowded {
      HeadIsFilled(s, i);
    }
    forall k: nat
      ensures SendingOk(s', i, k) && SlotOk(s', i, k) && TicketOk(s', i, k)
    {
      assert SendingOk(s, i, k) && SlotOk(s, i, k) && TicketOk(s, i, k);
    }
    SenderFrame(s, s', i);
  }

  /** The step of a Dequeue that copies the pointer, and where it goes. */
  predicate Copies(x: Session, i: nat, l: Cell, p: Phase) {
    || (x.phase.SCopy? && l == Sending(i, x.phase.n) && p == SFree(x.phase.n))
    || (x.phase.ResetCopy? && l == Drained(i) && p == ResetFree)
  }

  lemma CopySession(s: State, s': State, i: nat, l: Cell, p: Phase)
    requires i < |s.sessions| && SessionOk(s, i) && Copies(s.sessions[i], i, l, p)
    requires s'.threads == s.threads && s'.sessions == s.sessions[i := s.sessions[i].(phase := p)]
    requires s'.crowded == s.crowded
    requires forall c :: c in s'.m.cells <==> c == l || (c in s.m.cells && c != Queue(i, Slot(s.sessions[i].head - 1)))
    ensures SessionOk(s', i)
  {
    forall k: nat
      ensures SendingOk(s', i, k) && SlotOk(s', i, k) && TicketOk(s', i, k)
    {
      assert SendingOk(s, i, k) && SlotOk(s, i, k) && TicketOk(s, i, k);
    }
  }

  lemma CopyInv(s: State, i: nat, l: Cell, p: Phase)
    requires Inv(s) && i < |s.sessions| && !s.broken && Copies(s.sessions[i], i, l, p)
    ensures Inv(CopyCell(s, i, l, p)) && !CopyCell(s, i, l, p).broken
  {
    var s', x := CopyCell(s, i, l, p), s.sessions[i];
    assert SessionOk(s, i) && SlotOk(s, i, Slot(x.head - 1));
    assert x.phase.SCopy? ==> SendingOk(s, i, x.phase.n);
    ShiftOk(s.m, Queue(i, Slot(x.head - 1)), l);
    CopySession(s, s', i, l, p);
    SenderFrame(s, s', i);
  }

  /** The slot behind the head is freed. */
  lemma FreeInv(s: State, i: nat, p: Phase)
    requires Inv(s) && i < |s.sessions| && !s.broken
    requires (s.sessions[i].phase.SFree? && p == STake(s.sessions[i].phase.n + 1)) ||
             (s.sessions[i].phase.ResetFree? && p == ResetDrop)
    ensures Inv(FreeSlot(s, i, p)) && !FreeSlot(s, i, p).broken
  {
    var s', x := FreeSlot(s, i, p), s.sessions[i];
    assert SessionOk(s, i);
    forall k: nat
      ensures SendingOk(s', i, k) && SlotOk(s', i, k) && TicketOk(s', i, k)
    {
      assert SendingOk(s, i, k) && SlotOk(s, i, k) && TicketOk(s, i, k);
      if i !in s.crowded && x.head <= k < x.tail {
        SlotsDiffer(x, x.head - 1, k);
      }
    }
    SenderFrame(s, s', i);
  }

  /** A Release by the sender, of which reference, and where it goes on. */
  predicate Drops(x: Session, i: nat, l: Cell, p: Phase) {
    || (x.phase.ResetDrop? && l == Drained(i) && p == ResetQ)
    || (x.phase.SRelease? && x.phase.k < x.dataNotSend && l == Sending(i, x.phase.k) && p == SRelease(x.phase.k + 1))
    || (x.phase.ResetS? && x.phase.k < x.phase.n && l == Sending(i, x.phase.k) && p == ResetS(x.phase.k + 1, x.phase.n))
  }

  lemma DropSession(s: State, s': State, i: nat, l: Cell, p: Phase)
    requires i < |s.sessions| && SessionOk(s, i) && Drops(s.sessions[i], i, l, p)
    requires s'.threads == s.threads && s'.sessions == s.sessions[i := s.sessions[i].(phase := p)]
    requires s'.crowded == s.crowded
    requires forall c :: c in s'.m.cells <==> c in s.m.cells && c != l
    ensures SessionOk(s', i)
  {
    forall k: nat
      ensures SendingOk(s', i, k) && SlotOk(s', i, k) && TicketOk(s', i, k)
    {
      assert SendingOk(s, i, k) && SlotOk(s, i, k) && TicketOk(s, i, k);
    }
  }

  /** The reference the sender releases is there. */
  lemma DropInv(s: State, i: nat, l: Cell, p: Phase)
    requires Inv(s) && i < |s.sessions| && !s.broken && Drops(s.sessions[i], i, l, p)
    ensures Inv(DropCell(s, i, l, p)) && !DropCell(s, i, l, p).broken
  {
    var s', x := DropCell(s, i, l, p), s.sessions[i];
    assert SessionOk(s, i) && SendingOk(s, i, Lo(x));
    DropOk(s.m, l);
    DropSession(s, s', i, l, p);
    SenderFrame(s, s', i);
  }

  /** When Reset's drain stops, every ticket has come out. */
  lemma DrainedAtStop(s: State, i: nat)
    requires Inv(s) && i < |s.sessions| && s.sessions[i].phase.ResetQ? && i !in s.crowded
    requires Slot(s.sessions[i].head) !in s.sessions[i].used
    ensures s.sessions[i].head == s.sessions[i].tail
  {
    var x := s.sessions[i];
    assert SessionOk(s, i) && TicketOk(s, i, x.head);
  }

  lemma TakePhase(s: State, i: nat, succeeds: bool, reset: bool)
    requires Inv(s) && i < |s.sessions| && !s.broken && s.sessions[i].phase.STake?
    ensures Inv(SenderStep(s, i, succeeds, reset)) && !SenderStep(s, i, succeeds, reset).broken
  {
    var s', x := SenderStep(s, i, succeeds, reset), s.sessions[i];
    assert SessionOk(s, i);
    if s'.sessions[i].head != x.head {
      HeadInv(s, s', i);
    } else if s' != s {
      PhaseInv(s, s', i);
    }
  }

  lemma DrainPhase(s: State, i: nat, succeeds: bool, reset: bool)
    requires Inv(s) && i < |s.sessions| && !s.broken && s.sessions[i].phase.ResetQ?
    ensures Inv(SenderStep(s, i, succeeds, reset)) && !SenderStep(s, i, succeeds, reset).broken
  {
    var s', x := SenderStep(s, i, succeeds, reset), s.sessions[i];
    assert SessionOk(s, i);
    if s'.sessions[i].head != x.head {
      HeadInv(s, s', i);
    } else if s' != s {
      if i !in s.crowded {
        DrainedAtStop(s, i);
      }
      PhaseInv(s, s', i);
    }
  }

  lemma SendPhases(s: State, i: nat, succeeds: bool, reset: bool)
    requires Inv(s) && i < |s.sessions| && !s.broken
    requires s.sessions[i].phase.STry? || s.sessions[i].phase.SFlight?
    ensures Inv(SenderStep(s, i, succeeds, reset)) && !SenderStep(s, i, succeeds, reset).broken
  {
    assert SessionOk(s, i);
    PhaseInv(s, SenderStep(s, i, succeeds, reset), i);
  }

  /** A send, or Reset, begins. */
  lemma BeginPhases(s: State, i: nat, succeeds: bool, reset: bool)
    requires Inv(s) && i < |s.sessions| && !s.broken && (s.sessions[i].phase.SIdle? || s.sessions[i].phase.SFailed?)
    ensures Inv(SenderStep(s, i, succeeds, reset)) && !SenderStep(s, i, succeeds, reset).broken
  {
    assert SessionOk(s, i);
    if SenderStep(s, i, succeeds, reset) != s {
      PhaseInv(s, SenderStep(s, i, succeeds, reset), i);
    }
  }

  lemma EndPhases(s: State, i: nat, succeeds: bool, reset: bool)
    requires Inv(s) && i < |s.sessions| && !s.broken
    requires
      var x := s.sessions[i];
      x.phase.ResetX? || ((x.phase.SRelease? || x.phase.ResetS?) && Lo(x) >= Hi(x))
    ensures Inv(SenderStep(s, i, succeeds, reset)) && !SenderStep(s, i, succeeds, reset).broken
  {
    assert SessionOk(s, i);
    PhaseInv(s, SenderStep(s, i, succeeds, reset), i);
  }

  lemma SenderInv(s: State, i: nat, succeeds: bool, reset: bool)
    requires Inv(s) && i < |s.sessions| && !s.broken
    ensures Inv(SenderStep(s, i, succeeds, reset)) && !SenderStep(s, i, succeeds, reset).broken
  {
    var x := s.sessions[i];
    match x.phase {
      case SCopy(n) => CopyInv(s, i, Sending(i, n), SFree(n));
      case ResetCopy => CopyInv(s, i, Drained(i), ResetFree);
      case SFree(n) => FreeInv(s, i, STake(n + 1));
      case ResetFree => FreeInv(s, i, ResetDrop);
      case ResetDrop => DropInv(s, i, Drained(i), ResetQ);
      case SRelease(k) =>
        if k < x.dataNotSend {
          DropInv(s, i, Sending(i, k), SRelease(k + 1));
        } else {
          EndPhases(s, i, succeeds, reset);
        }
      case ResetS(k, n) =>
        if k < n {
          DropInv(s, i, Sending(i, k), ResetS(k + 1, n));
        } else {
          EndPhases(s, i, succeeds, reset);
        }
      case ResetX => EndPhases(s, i, succeeds, reset);
      case STake(_) => TakePhase(s, i, succeeds, reset);
      case ResetQ => DrainPhase(s, i, succeeds, reset);
      case SIdle => BeginPhases(s, i, succeeds, reset);
      case SFailed => BeginPhases(s, i, succeeds, reset);
      case _ => SendPhases(s, i, succeeds, reset);
    }
  }

  // ---------------------------------------------------------------- runs

  lemma ThreadInv(s: State, t: nat, c: Call)
    requires Inv(s) && t < |s.threads| && !s.broken && !ThreadStep(s, t, c).clashed
    ensures Inv(ThreadStep(s, t, c)) && !ThreadStep(s, t, c).broken
  {
    assert ThreadOk(s, t);
    var pc := s.threads[t];
    if pc.TIdle? {
      if c.Send? {
        BeginInv(s, t, c.h, c.i);
      } else {
        CallInv(s, t, c);
      }
    } else {
      HolderNotFree(s.m, Mid(t));
      if pc.TTicket? {
        TicketInv(s, t, pc.i, c);
      } else if pc.TCheck? {
        CheckInv(s, t, c);
      } else if pc.TWrite? {
        WriteInv(s, t, c);
      } else if pc.TMark? {
        MarkInv(s, t, c);
      } else {
        RejectInv(s, t, c);
      }
    }
  }

  /** Every step of handles, producers, sender, completion, Reset and pool keeps where references are. */
  lemma StepInv(s: State, a: Actor)
    requires Inv(s) && !s.broken && !Step(s, a).clashed
    ensures Inv(Step(s, a)) && !Step(s, a).broken
  {
    if a.Thread? && a.t < |s.threads| {
      ThreadInv(s, a.t, a.call);
    } else if a.Sender? && a.i < |s.sessions| {
      SenderInv(s, a.i, a.succeeds, a.reset);
    } else if a.Freer? && a.b in s.m.freeing {
      var s' := Step(s, a);
      RecycleOk(s.m, a.b);
      forall u | 0 <= u < |s.threads|
        ensures ThreadOk(s', u)
      {
        assert ThreadOk(s, u);
      }
      forall j | 0 <= j < |s.sessions|
        ensures SessionOk(s', j)
      {
        assert SessionOk(s, j);
        SessionFrame(s, s', j, |s.threads|);
      }
    }
  }

  lemma SenderRemembers(s: State, i: nat, succeeds: bool, reset: bool)
    requires i < |s.sessions|
    ensures var s' := SenderStep(s, i, succeeds, reset); s'.crowded == s.crowded && s'.clashed == s.clashed
  {
  }

  lemma ThreadRemembers(s: State, t: nat, c: Call)
    requires t < |s.threads|
    ensures
      var s' := ThreadStep(s, t, c);
      && s.crowded <= s'.crowded && (s.clashed ==> s'.clashed)
      && (s'.clashed && !s.clashed ==>
           && s.threads[t].TCheck? && s.threads[t].i < |s.sessions|
           && Slot(s.threads[t].k) in s.sessions[s.threads[t].i].claim)
  {
  }

  /** What happened once stays recorded; not even Reset takes it back. */
  lemma StepRemembers(s: State, a: Actor)
    ensures s.crowded <= Step(s, a).crowded && (s.clashed ==> Step(s, a).clashed)
    ensures Step(s, a).clashed && !s.clashed ==>
            && a.Thread? && a.t < |s.threads| && s.threads[a.t].TCheck? && s.threads[a.t].i < |s.sessions|
            && Slot(s.threads[a.t].k) in s.sessions[s.threads[a.t].i].claim
  {
    if a.Thread? && a.t < |s.threads| {
      ThreadRemembers(s, a.t, a.call);
    } else if a.Sender? && a.i < |s.sessions| {
      SenderRemembers(s, a.i, a.succeeds, a.reset);
    }
  }

  lemma {:induction false} RunRemembers(s: State, sched: seq<Actor>)
    ensures s.crowded <= Run(s, sched).crowded && (s.clashed ==> Run(s, sched).clashed)
    decreases |sched|
  {
    if sched != [] {
      StepRemembers(s, sched[0]);
      RunRemembers(Step(s, sched[0]), sched[1..]);
    }
  }

  lemma {:induction false} RunInv(s: State, sched: seq<Actor>)
    requires Inv(s) && !s.broken && !Run(s, sched).clashed
    ensures Inv(Run(s, sched)) && !Run(s, sched).broken
    decreases |sched|
  {
    if sched != [] {
      RunRemembers(Step(s, sched[0]), sched[1..]);
      StepInv(s, sched[0]);
      RunInv(Step(s, sched[0]), sched[1..]);
    }
  }

  lemma InitialInv(s: State)
    requires Initial(s)
    ensures Inv(s)
  {
    forall i | 0 <= i < |s.sessions|
      ensures SessionOk(s, i)
    {
      forall k: nat
        ensures SendingOk(s, i, k) && TicketOk(s, i, k) && SlotOk(s, i, k)
      {
      }
    }
  }

  /** Two threads get past the test of one slot only if more tickets are out than the queue has slots. */
  lemma {:induction false} ClashNeedsCrowd(s: State, sched: seq<Actor>)
    requires Inv(s) && !s.broken && !s.clashed
    ensures Run(s, sched).clashed ==> Run(s, sched).crowded != {}
    decreases |sched|
  {
    if sched != [] {
      var a, s' := sched[0], Step(s, sched[0]);
      StepRemembers(s, a);
      RunRemembers(s', sched[1..]);
      if s'.clashed {
        if s.threads[a.t].i !in s.crowded {
          SlotIsFree(s, a.t);
        }
      } else {
        StepInv(s, a);
        ClashNeedsCrowd(s', sched[1..]);
      }
    }
  }

  ghost function Handles(cells: map<Cell, nat>, b: nat): set<Cell> {
    set l | l in cells && cells[l] == b && l.Handle?
  }

  ghost function Queued(cells: map<Cell, nat>, b: nat): set<Cell> {
    set l | l in cells && cells[l] == b && l.Queue?
  }

  ghost function InFlight(cells: map<Cell, nat>, b: nat): set<Cell> {
    set l | l in cells && cells[l] == b && l.Sending?
  }

  ghost function InCalls(cells: map<Cell, nat>, b: nat): set<Cell> {
    set l | l in cells && cells[l] == b && (l.Mid? || l.Drained?)
  }

  lemma HoldersSplit(cells: map<Cell, nat>, b: nat)
    ensures |Holders(cells, b)| ==
            |Handles(cells, b)| + |Queued(cells, b)| + |InFlight(cells, b)| + |InCalls(cells, b)|
  {
    assert Holders(cells, b) == Handles(cells, b) + Queued(cells, b) + InFlight(cells, b) + InCalls(cells, b);
  }

  /** On every run on which no two threads were past the test of one slot at once, rejected and failed sends
      included: the count of every buffer is the number of its live handles, its places in send queues and
      sending arrays, and the calls that hold it; and it is in the pool, or its Free is under way, but not
      both, exactly when there are none left. */
  lemma RefCountsConserved(s: State, sched: seq<Actor>, b: nat)
    requires Initial(s) && !Run(s, sched).clashed && b < |Run(s, sched).m.refs|
    ensures
      var m := Run(s, sched).m;
      && m.refs[b] == |Handles(m.cells, b)| + |Queued(m.cells, b)| + |InFlight(m.cells, b)| + |InCalls(m.cells, b)|
      && (b in m.pool || b in m.freeing <==> m.refs[b] == 0)
      && !(b in m.pool && b in m.freeing)
  {
    var m := Run(s, sched).m;
    InitialInv(s);
    RunInv(s, sched);
    assert BufferOk(m, b);
    HoldersSplit(m.cells, b);
  }

  /** Something breaks (a `__debugbreak`, a lost reference, a Release that finds none) only after two threads
      were past the test of one slot at once, and that only after more tickets were out than slots. */
  lemma NothingBreaks(s: State, sched: seq<Actor>)
    requires Initial(s)
    ensures Run(s, sched).broken ==> Run(s, sched).clashed
    ensures Run(s, sched).clashed ==> Run(s, sched).crowded != {}
  {
    InitialInv(s);
    if !Run(s, sched).clashed {
      RunInv(s, sched);
    }
    ClashNeedsCrowd(s, sched);
  }

  /** When Reset of a session has released the last place of `_sendingQ`, no reference of the session is
      left, in its queue or in its array, provided its queue never had more tickets out than slots. */
  lemma ResetDropsEverything(s: State, sched: seq<Actor>, i: nat)
    requires Initial(s) && !Run(s, sched).clashed
    requires i < |Run(s, sched).sessions| && i !in Run(s, sched).crowded
    requires Run(s, sched).sessions[i].phase.ResetS? && Lo(Run(s, sched).sessions[i]) == Hi(Run(s, sched).sessions[i])
    ensures forall l :: l in Run(s, sched).m.cells && (l.Queue? || l.Sending? || l.Drained?) ==> l.i != i
  {
    var r := Run(s, sched);
    InitialInv(s);
    RunInv(s, sched);
    assert SessionOk(r, i);
    forall q: nat
      ensures Queue(i, q) !in r.m.cells && Sending(i, q) !in r.m.cells
    {
      assert SlotOk(r, i, q) && SendingOk(r, i, q);
    }
    forall l | l in r.m.cells && (l.Queue? || l.Sending? || l.Drained?)
      ensures l.i != i
    {
      assert l == if l.Queue? then Queue(l.i, l.slot) else if l.Sending? then Sending(l.i, l.k) else Drained(l.i);
    }
  }

  // ---------------------------------------------------------------- the hypothesis is needed

  lemma RunCons(s: State, a: Actor, rest: seq<Actor>)
    ensures Run(s, [a] + rest) == Run(Step(s, a), rest)
  {
    assert ([a] + rest)[1..] == rest;
  }

  lemma {:induction false} RunCat(s: State, a: seq<Actor>, b: seq<Actor>)
    ensures Run(s, a + b) == Run(Run(s, a), b)
    decreases |a|
  {
    if a == [] {
      assert a + b == b;
    } else {
      assert a + b == [a[0]] + (a[1..] + b) && a == [a[0]] + a[1..];
      RunCons(s, a[0], a[1..] + b);
      RunCons(s, a[0], a[1..]);
      RunCat(Step(s, a[0]), a[1..], b);
    }
  }

  /** A thread past the test of a slot, ready for its next step. */
  predicate CanGoOn(s: State, t: nat, i: nat, k: nat) {
    && !s.broken && t < |s.threads| && i < |s.sessions|
    && Mid(t) in s.m.cells && s.m.cells[Mid(t)] < |s.m.refs|
    && (s.threads[t] == TWrite(i, k) || (s.threads[t] == TMark(i, k) && Slot(k) in s.sessions[i].data))
  }

  /** It goes on to mark the slot, or finds it marked and breaks. */
  lemma {:induction false} GoesOn(s: State, t: nat, i: nat, k: nat) returns (sched: seq<Actor>)
    requires CanGoOn(s, t, i, k)
    ensures Slot(k) in s.sessions[i].used ==> Run(s, sched).broken
    ensures
      var r := Run(s, sched);
      Slot(k) !in s.sessions[i].used ==>
        && i < |r.sessions| && Slot(k) in r.sessions[i].used
        && (forall u, k2 :: u != t && CanGoOn(s, u, i, k2) ==> CanGoOn(r, u, i, k2))
    decreases s.threads[t].TWrite?
  {
    var a := Thread(t, Destroy(0));
    var s' := Step(s, a);
    if s.threads[t].TWrite? {
      var rest := GoesOn(s', t, i, k);
      sched := [a] + rest;
      RunCons(s, a, rest);
    } else {
      sched := [a] + [];
      RunCons(s, a, []);
    }
  }

  /** The condition is exact: whenever a second thread gets past the test of a slot, the two of them can
      reach the `__debugbreak` without anybody else. */
  lemma ClashIsFatal(s: State, t: nat) returns (sched: seq<Actor>)
    requires Inv(s) && !s.broken && t < |s.threads| && s.threads[t].TCheck? && s.threads[t].i < |s.sessions|
    requires
      var x, q := s.sessions[s.threads[t].i], Slot(s.threads[t].k);
      q !in x.used && q in x.claim
    ensures Run(s, sched).broken
  {
    var i, k := s.threads[t].i, s.threads[t].k;
    var u := s.sessions[i].claim[Slot(k)];
    assert SessionOk(s, i) && SlotOk(s, i, Slot(k)) && ThreadOk(s, t) && ThreadOk(s, u);
    HolderNotFree(s.m, Mid(t));
    HolderNotFree(s.m, Mid(u));
    var a := Thread(t, Destroy(0));
    var s1 := Step(s, a);
    var first := GoesOn(s1, u, i, s.threads[u].k);
    assert CanGoOn(s1, t, i, k);
    var second := GoesOn(Run(s1, first), t, i, k);
    sched := [a] + (first + second);
    RunCons(s, a, first + second);
    RunCat(s1, first, second);
  }

  // ---------------------------------------------------------------- assignment

  /** `h = h2`, as the compiler makes it: copy, swap, destroy the copy. */
  function Assign(m: Heap, h: nat, h2: nat, copy: nat): Heap {
    CallStep(CallStep(CallStep(m, Copy(h2, copy)), Swap(h, copy)), Destroy(copy))
  }

  /** Assignment makes `h` another handle of `h2`'s buffer and drops the one it had, whatever `h` was: null,
      a handle of another buffer, of the same buffer, or `h2` itself. */
  lemma AssignReplaces(m: Heap, h: nat, h2: nat, copy: nat)
    requires HeapOk(m) && Handle(h2) in m.cells && Handle(copy) !in m.cells && copy != h
    ensures HeapOk(Assign(m, h, h2, copy))
    ensures Assign(m, h, h2, copy).cells == m.cells[Handle(h) := m.cells[Handle(h2)]]
  {
    var m1 := CallStep(m, Copy(h2, copy));
    var m2 := CallStep(m1, Swap(h, copy));
    CallOk(m, Copy(h2, copy));
    CallOk(m1, Swap(h, copy));
    CallOk(m2, Destroy(copy));
  }
}

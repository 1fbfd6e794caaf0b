/** A send queue with 513 tickets out: how the count of a buffer goes wrong without a rejection and without a
    `__debugbreak`, as a run of two threads and a sender of the machine in `BufferRefs`. */
module BufferOverrun {
  import opened BufferRefs

  /** Thread 0 is past the test of slot 0 with buffer 0 and stops there; thread 1 has since sent buffer 1 with
      the tickets 1 to `n` - 1. */
  predicate Stage(s: State, n: nat) {
    && !s.broken && !s.rejected && s.crowded == {}
    && |s.m.refs| == 2 && s.m.refs[0] == 2 && s.threads == [TWrite(0, 0), TIdle]
    && |s.sessions| == 1 && s.sessions[0].phase == SIdle && s.sessions[0].head == 0 && s.sessions[0].tail == n
    && (forall q :: q in s.sessions[0].used ==> 1 <= q < n)
    && CellsAre(s.m.cells, n) && Mid(1) !in s.m.cells
  }

  predicate CellsAre(cells: map<Cell, nat>, n: nat) {
    && Handle(0) in cells && cells[Handle(0)] == 0 && Handle(1) in cells && cells[Handle(1)] == 1
    && Mid(0) in cells && cells[Mid(0)] == 0
    && (forall l :: l in cells ==>
         && (if l == Handle(0) || l == Mid(0) then cells[l] == 0 else cells[l] == 1)
         && !l.Sending? && (l.Queue? ==> 1 <= l.slot < n))
  }

  lemma SmallSlot(n: nat)
    ensures n < MAX_SEND_COUNT ==> Slot(n) == n
    ensures Slot(MAX_SEND_COUNT) == 0
  {
  }

  /** Thread 1 has the ticket `n` and is past the test of its slot as well. */
  predicate Both(s: State, n: nat) {
    && !s.broken && !s.rejected && s.crowded == (if n < MAX_SEND_COUNT then {} else {0})
    && |s.m.refs| == 2 && s.m.refs[0] == 2 && s.threads == [TWrite(0, 0), TWrite(0, n)]
    && |s.sessions| == 1 && s.sessions[0].phase == SIdle && s.sessions[0].head == 0 && s.sessions[0].tail == n + 1
    && (forall q :: q in s.sessions[0].used ==> 1 <= q < n)
    && CellsAre(s.m.cells, n) && Mid(1) in s.m.cells
  }

  lemma ToWrite(s: State, n: nat) returns (sched: seq<Actor>)
    requires Stage(s, n) && 1 <= n <= MAX_SEND_COUNT
    ensures Both(Run(s, sched), n)
  {
    var a := Thread(1, Send(1, 0));
    SmallSlot(n);
    var s1 := Step(s, a);
    var s2 := Step(s1, a);
    assert s2.threads == [TWrite(0, 0), TCheck(0, n)];
    var s3 := Step(s2, a);
    assert s3.threads == [TWrite(0, 0), TWrite(0, n)];
    RunCons(s2, a, []);
    RunCons(s1, a, [a] + []);
    RunCons(s, a, [a] + ([a] + []));
    sched := [a] + ([a] + ([a] + []));
  }

  /** ... and has written its buffer into the slot. */
  predicate SlotWritten(s: State, n: nat) {
    && s.threads == [TWrite(0, 0), TMark(0, n)] && Both(s.(threads := [TWrite(0, 0), TWrite(0, n)]), n)
    && n in s.sessions[0].data && s.sessions[0].data[n] == 1
  }

  lemma FillSlot(s: State, n: nat)
    requires Both(s, n) && 1 <= n < MAX_SEND_COUNT
    ensures SlotWritten(Step(s, Thread(1, Send(1, 0))), n)
  {
    SmallSlot(n);
    var s' := Step(s, Thread(1, Send(1, 0)));
    assert s'.threads == [TWrite(0, 0), TMark(0, n)] && s'.m == s.m;
  }

  lemma MarkSlot(s: State, n: nat)
    requires SlotWritten(s, n) && 1 <= n < MAX_SEND_COUNT
    ensures Stage(Step(s, Thread(1, Send(1, 0))), n + 1)
  {
    SmallSlot(n);
    assert Step(s, Thread(1, Send(1, 0))).threads == [TWrite(0, 0), TIdle];
  }

  /** A whole SendPacket of thread 1. */
  lemma NextStage(s: State, n: nat) returns (sched: seq<Actor>)
    requires Stage(s, n) && 1 <= n < MAX_SEND_COUNT
    ensures Stage(Run(s, sched), n + 1)
  {
    var first := ToWrite(s, n);
    var a, s1 := Thread(1, Send(1, 0)), Run(s, first);
    FillSlot(s1, n);
    MarkSlot(Step(s1, a), n);
    RunCons(Step(s1, a), a, []);
    RunCons(s1, a, [a] + []);
    RunCat(s, first, [a] + ([a] + []));
    sched := first + ([a] + ([a] + []));
  }

  lemma {:induction false} LastStage(s: State, n: nat) returns (sched: seq<Actor>)
    requires Stage(s, n) && 1 <= n <= MAX_SEND_COUNT
    ensures Stage(Run(s, sched), MAX_SEND_COUNT)
    decreases MAX_SEND_COUNT - n
  {
    if n == MAX_SEND_COUNT {
      sched := [];
    } else {
      var first := NextStage(s, n);
      var rest := LastStage(Run(s, first), n + 1);
      sched := first + rest;
      RunCat(s, first, rest);
    }
  }

  /** Buffer 0 has a count of 2 and one holder. */
  predicate Lost(s: State) {
    && !s.broken && !s.rejected && s.crowded == {0}
    && |s.m.refs| == 2 && s.m.refs[0] == 2 && |s.sessions| == 1 && s.sessions[0].tail == MAX_SEND_COUNT + 1
    && Handle(0) in s.m.cells && (forall l :: l in s.m.cells ==> (s.m.cells[l] == 0 <==> l == Handle(0)))
  }

  /** Both write, then thread 0 marks the slot: its buffer is in no place any more. */
  lemma Overwrite(s: State) returns (sched: seq<Actor>)
    requires Both(s, MAX_SEND_COUNT)
    ensures
      var r := Run(s, sched);
      && Lost(r) && r.threads == [TIdle, TMark(0, MAX_SEND_COUNT)] && Mid(1) in r.m.cells && r.m.cells[Mid(1)] == 1
      && r.sessions[0].phase == SIdle && r.sessions[0].head == 0 && 0 in r.sessions[0].used
      && 0 in r.sessions[0].data && r.sessions[0].data[0] == 1
      && Queue(0, 0) in r.m.cells && r.m.cells[Queue(0, 0)] == 1 && Sending(0, 0) !in r.m.cells
  {
    var a, b := Thread(0, Send(0, 0)), Thread(1, Send(1, 0));
    SmallSlot(0);
    var s1 := Step(s, a);
    var s2 := Step(s1, b);
    BothWrite(s, s1, s2);
    var s3 := Step(s2, a);
    RunCons(s2, a, []);
    RunCons(s1, b, [a] + []);
    RunCons(s, a, [b] + ([a] + []));
    sched := [a] + ([b] + ([a] + []));
  }

  lemma BothWrite(s: State, s1: State, s2: State)
    requires Both(s, MAX_SEND_COUNT)
    requires s1 == Step(s, Thread(0, Send(0, 0))) && s2 == Step(s1, Thread(1, Send(1, 0)))
    ensures s2.threads == [TMark(0, 0), TMark(0, MAX_SEND_COUNT)] && s2.m == s.m
    ensures s2 == s.(threads := s2.threads, sessions := s2.sessions) && |s2.sessions| == 1
    ensures s2.sessions[0] == s.sessions[0].(data := s2.sessions[0].data)
    ensures 0 in s2.sessions[0].data && s2.sessions[0].data[0] == 1
  {
    SmallSlot(0);
    assert s1.threads == [TMark(0, 0), TWrite(0, MAX_SEND_COUNT)] && s1.m == s.m;
  }

  /** The sender takes buffer 1 out and frees the slot. */
  lemma TakeOut(s: State) returns (sched: seq<Actor>)
    requires Lost(s) && s.threads == [TIdle, TMark(0, MAX_SEND_COUNT)]
    requires s.sessions[0].phase == SIdle && s.sessions[0].head == 0 && 0 in s.sessions[0].used
    requires Queue(0, 0) in s.m.cells && s.m.cells[Queue(0, 0)] == 1 && Sending(0, 0) !in s.m.cells
    ensures
      var r := Run(s, sched);
      && Lost(r) && r.threads == s.threads && 0 !in r.sessions[0].used && r.sessions[0].data == s.sessions[0].data
      && SameMid(s, r, 1) && Sending(0, 0) in r.m.cells && r.m.cells[Sending(0, 0)] == 1
  {
    var c := Sender(0, true, false);
    SmallSlot(0);
    var s1 := Step(s, c);
    var s2 := Step(s1, c);
    var s3 := Step(s2, c);
    var s4 := Step(s3, c);
    RunCons(s3, c, []);
    RunCons(s2, c, [c] + []);
    RunCons(s1, c, [c] + ([c] + []));
    RunCons(s, c, [c] + ([c] + ([c] + [])));
    sched := [c] + ([c] + ([c] + ([c] + [])));
  }

  /** ... and buffer 1 has been taken out of the queue once and is in it again. */
  predicate Doubled(s: State) {
    && Lost(s) && Sending(0, 0) in s.m.cells && s.m.cells[Sending(0, 0)] == 1
    && Queue(0, 0) in s.m.cells && s.m.cells[Queue(0, 0)] == 1
  }

  lemma MarkAgain(s: State) returns (sched: seq<Actor>)
    requires Lost(s) && s.threads == [TIdle, TMark(0, MAX_SEND_COUNT)] && 0 !in s.sessions[0].used
    requires 0 in s.sessions[0].data && s.sessions[0].data[0] == 1 && Mid(1) in s.m.cells && s.m.cells[Mid(1)] == 1
    requires Sending(0, 0) in s.m.cells && s.m.cells[Sending(0, 0)] == 1
    ensures Doubled(Run(s, sched))
  {
    var b := Thread(1, Send(1, 0));
    SmallSlot(0);
    RunCons(s, b, []);
    sched := [b] + [];
  }

  lemma LoseCount(s: State) returns (sched: seq<Actor>)
    requires Stage(s, MAX_SEND_COUNT)
    ensures Doubled(Run(s, sched))
  {
    var p3 := ToWrite(s, MAX_SEND_COUNT);
    var s3 := Run(s, p3);
    var p4 := Overwrite(s3);
    var s4 := Run(s3, p4);
    var p5 := TakeOut(s4);
    var s5 := Run(s4, p5);
    var p6 := MarkAgain(s5);
    RunCat(s4, p5, p6);
    RunCat(s3, p4, p5 + p6);
    RunCat(s, p3, p4 + (p5 + p6));
    sched := p3 + (p4 + (p5 + p6));
  }

  function FreshStart(): State {
    State(Heap([0, 0], {0, 1}, {}, map[]), [TIdle, TIdle], [NewSession()], {}, false, false, false)
  }

  /** Both buffers are allocated into handles. */
  function TwoHandles(): State {
    FreshStart().(m := Heap([1, 1], {}, {}, map[Handle(0) := 0, Handle(1) := 1]))
  }

  lemma AllocTwo() returns (sched: seq<Actor>)
    ensures Run(FreshStart(), sched) == TwoHandles()
  {
    var s := FreshStart();
    var a0, a1 := Thread(0, Alloc(0, 0)), Thread(1, Alloc(1, 1));
    var s1 := Step(s, a0);
    assert s1.m == Heap([1, 0], {1}, {}, map[Handle(0) := 0]);
    var s2 := Step(s1, a1);
    assert s2.m == TwoHandles().m;
    RunCons(s1, a1, []);
    RunCons(s, a0, [a1] + []);
    sched := [a0] + ([a1] + []);
  }

  /** Thread 0 has entered SendPacket with buffer 0. */
  function HandedIn(): State {
    TwoHandles().(m := Keep(TwoHandles().m, Mid(0), 0), threads := [TTicket(0), TIdle])
  }

  lemma HandIn()
    ensures Step(TwoHandles(), Thread(0, Send(0, 0))) == HandedIn()
  {
    assert Step(TwoHandles(), Thread(0, Send(0, 0))).threads == [TTicket(0), TIdle];
  }

  /** Thread 0 has its ticket and has not tested the slot. */
  function FirstTicket(): State {
    HandedIn().(threads := [TCheck(0, 0), TIdle], sessions := [Ticket(NewSession(), 0)])
  }

  lemma TakeTicket()
    ensures Step(HandedIn(), Thread(0, Send(0, 0))) == FirstTicket()
  {
    var s1 := Step(HandedIn(), Thread(0, Send(0, 0)));
    assert s1.threads == [TCheck(0, 0), TIdle];
    assert s1.sessions == [Ticket(NewSession(), 0)];
  }

  lemma PassTest()
    ensures Stage(Step(FirstTicket(), Thread(0, Send(0, 0))), 1)
  {
    SmallSlot(0);
    var s1 := Step(FirstTicket(), Thread(0, Send(0, 0)));
    assert s1.threads == [TWrite(0, 0), TIdle];
  }

  lemma FirstStage() returns (sched: seq<Actor>)
    ensures Stage(Run(TwoHandles(), sched), 1)
  {
    var a := Thread(0, Send(0, 0));
    var s1, s2 := HandedIn(), FirstTicket();
    HandIn();
    TakeTicket();
    PassTest();
    RunCons(s2, a, []);
    RunCons(s1, a, [a] + []);
    RunCons(TwoHandles(), a, [a] + ([a] + []));
    sched := [a] + ([a] + ([a] + []));
  }

  /** With 513 tickets, all out at once, the count goes wrong without a rejection and without a `__debugbreak`:
      buffer 1 is being sent and is in the same slot of the queue again, buffer 0 keeps a reference that nobody
      holds. */
  lemma OverrunLosesCount() returns (s: State, sched: seq<Actor>)
    ensures Initial(s)
    ensures
      var r := Run(s, sched);
      && |r.sessions| == 1 && r.sessions[0].tail == MAX_SEND_COUNT + 1 && r.crowded == {0}
      && !r.rejected && !r.broken
      && Sending(0, 0) in r.m.cells && r.m.cells[Sending(0, 0)] == 1
      && Queue(0, 0) in r.m.cells && r.m.cells[Queue(0, 0)] == 1
      && |r.m.refs| == 2 && r.m.refs[0] == 2 && Holders(r.m.cells, 0) == {Handle(0)}
  {
    s := FreshStart();
    var p0 := AllocTwo();
    var p1 := FirstStage();
    var s1 := Run(TwoHandles(), p1);
    var p2 := LastStage(s1, 1);
    var p3 := LoseCount(Run(s1, p2));
    RunCat(s1, p2, p3);
    RunCat(TwoHandles(), p1, p2 + p3);
    RunCat(s, p0, p1 + (p2 + p3));
    sched := p0 + (p1 + (p2 + p3));
  }
}

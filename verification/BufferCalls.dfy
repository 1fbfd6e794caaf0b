/** What the operations on send buffers do to handles and counts (`BufferRefs`), one by one, and the way of one buffer
    through a session. */
module BufferCalls {
  import opened Wrappers
  import opened BufferRefs

  // ---------------------------------------------------------------- handles

  /** The buffer a `SendBuffer` variable points at; None if it is null or not there. */
  function Points(m: Heap, h: nat): Option<nat> {
    if Handle(h) in m.cells then Some(m.cells[Handle(h)]) else None
  }

  /** Nothing but these variables points elsewhere than before. */
  ghost predicate Only(m: Heap, m': Heap, hs: set<nat>) {
    forall l: Cell :: !(l.Handle? && l.h in hs) ==>
      (l in m'.cells <==> l in m.cells) && (l in m.cells ==> m'.cells[l] == m.cells[l])
  }

  /** A new buffer belongs to the variable alone. */
  lemma AllocPoints(m: Heap, h: nat, b: nat)
    requires HeapOk(m) && b in m.pool && b < |m.refs| && Points(m, h) == None
    ensures
      var m' := CallStep(m, Alloc(h, b));
      && Points(m', h) == Some(b) && Only(m, m', {h})
      && m'.refs == m.refs[b := 1] && m'.pool == m.pool - {b} && m'.freeing == m.freeing
  {
    assert BufferOk(m, b);
  }

  /** A copy points at the same buffer, which counts one reference more. */
  lemma CopyPoints(m: Heap, h: nat, h2: nat)
    requires HeapOk(m) && Points(m, h).Some? && Points(m, h2) == None
    ensures Points(m, h).value < |m.refs|
    ensures
      var m', b := CallStep(m, Copy(h, h2)), Points(m, h).value;
      && Points(m', h2) == Some(b) && Only(m, m', {h2})
      && m'.refs == m.refs[b := m.refs[b] + 1] && m'.pool == m.pool && m'.freeing == m.freeing
  {
    HolderNotFree(m, Handle(h));
  }

  /** A move leaves null behind and every count as it is. */
  lemma MovePoints(m: Heap, h: nat, h2: nat)
    requires Points(m, h).Some? && Points(m, h2) == None
    ensures
      var m' := CallStep(m, Move(h, h2));
      && Points(m', h2) == Points(m, h) && Points(m', h) == None && Only(m, m', {h, h2})
      && m'.refs == m.refs && m'.pool == m.pool && m'.freeing == m.freeing
  {
  }

  /** A swap exchanges what the two point at, null or not. */
  lemma SwapPoints(m: Heap, h: nat, h2: nat)
    ensures
      var m' := CallStep(m, Swap(h, h2));
      && Points(m', h2) == Points(m, h) && Points(m', h) == Points(m, h2) && Only(m, m', {h, h2})
      && m'.refs == m.refs && m'.pool == m.pool && m'.freeing == m.freeing
  {
  }

  /** The destructor takes one reference; the buffer is on its way to the pool if and only if it was the last. */
  lemma DestroyPoints(m: Heap, h: nat)
    requires HeapOk(m) && Points(m, h).Some?
    ensures Points(m, h).value < |m.refs|
    ensures
      var m', b := CallStep(m, Destroy(h)), Points(m, h).value;
      && Points(m', h) == None && Only(m, m', {h})
      && m'.refs == m.refs[b := m.refs[b] - 1] && m'.pool == m.pool
      && m'.freeing == (if Holders(m.cells, b) == {Handle(h)} then m.freeing + {b} else m.freeing)
  {
    var b := Points(m, h).value;
    HolderNotFree(m, Handle(h));
    assert BufferOk(m, b) && Handle(h) in Holders(m.cells, b);
    if m.refs[b] == 1 {
      OneHolder(Holders(m.cells, b), Handle(h));
    }
  }

  lemma OneHolder(hs: set<Cell>, l: Cell)
    requires l in hs && |hs| == 1
    ensures hs == {l}
  {
    assert |hs - {l}| == 0;
  }

  // ---------------------------------------------------------------- SendPacket

  lemma RunNext(s: State, a: Actor, rest: seq<Actor>, s': State) returns (sched: seq<Actor>)
    requires s' == Step(s, a)
    ensures sched == [a] + rest && Run(s, sched) == Run(s', rest)
  {
    sched := [a] + rest;
    RunCons(s, a, rest);
  }

  /** SendPacket takes a reference of its own and a ticket. */
  lemma SendBegins(s: State, t: nat, h: nat, i: nat, s1: State, s2: State)
    requires Inv(s) && !s.broken && t < |s.threads| && s.threads[t] == TIdle
    requires Points(s.m, h).Some? && i < |s.sessions| && !InReset(s.sessions[i].phase)
    requires s1 == Step(s, Thread(t, Send(h, i))) && s2 == Step(s1, Thread(t, Send(h, i)))
    ensures Points(s.m, h).value < |s.m.refs|
    ensures
      var b, x := Points(s.m, h).value, s.sessions[i];
      && s2 == s.(m := Keep(s.m, Mid(t), b), threads := s.threads[t := TCheck(i, x.tail)],
                  sessions := s.sessions[i := Ticket(x, t)], crowded := s2.crowded)
      && Mid(t) !in s.m.cells && b !in s.m.pool && b !in s.m.freeing
  {
    HolderNotFree(s.m, Handle(h));
    assert ThreadOk(s, t);
    var pc := TCheck(i, s.sessions[i].tail);
    assert s.threads[t := TTicket(i)][t := pc] == s.threads[t := pc];
  }

  /** A thread with a ticket of session `i`, and with its own reference of `b`. */
  predicate Ticketed(s: State, t: nat, b: nat, i: nat, k: nat, s2: State) {
    && t < |s.threads| && s.threads[t] == TIdle && b < |s.m.refs| && i < |s2.sessions| && !s2.broken
    && Mid(t) !in s.m.cells && b !in s.m.pool && b !in s.m.freeing && s.m.refs[b] > 0
    && s2.m == Keep(s.m, Mid(t), b) && s2.threads == s.threads[t := TCheck(i, k)]
  }

  /** If the slot of the ticket is in use it is turned away, and gives its reference back. */
  lemma TurnsAway(s: State, t: nat, b: nat, i: nat, k: nat, c: Call, s2: State) returns (sched: seq<Actor>)
    requires Ticketed(s, t, b, i, k, s2) && Slot(k) in s2.sessions[i].used
    ensures
      var r := Run(s2, sched);
      && r.m == s.m && r.threads == s.threads && r.rejected && !r.broken
      && r.sessions == s2.sessions[i := s2.sessions[i].(open := s2.sessions[i].open - {k})]
  {
    var a := Thread(t, c);
    var s3 := Step(s2, a);
    var s4 := Step(s3, a);
    assert s.m.cells[Mid(t) := b] - {Mid(t)} == s.m.cells;
    assert s4.threads == s.threads;
    sched := RunNext(s3, a, [], s4);
    sched := RunNext(s2, a, sched, s3);
  }

  /** Otherwise the reference goes into the slot. */
  lemma Queues(s: State, t: nat, b: nat, i: nat, k: nat, c: Call, s2: State) returns (sched: seq<Actor>)
    requires Ticketed(s, t, b, i, k, s2) && Slot(k) !in s2.sessions[i].used && Queue(i, Slot(k)) !in s.m.cells
    ensures
      var r := Run(s2, sched);
      && r.m == Keep(s.m, Queue(i, Slot(k)), b) && r.threads == s.threads && !r.broken && r.rejected == s2.rejected
      && |r.sessions| == |s2.sessions| && r.sessions == s2.sessions[i := r.sessions[i]]
      && r.sessions[i].used == s2.sessions[i].used + {Slot(k)}
      && r.sessions[i].head == s2.sessions[i].head && r.sessions[i].tail == s2.sessions[i].tail
      && r.sessions[i].phase == s2.sessions[i].phase
  {
    var a := Thread(t, c);
    var s3 := Step(s2, a);
    var s4 := Step(s3, a);
    WritesSlot(s, t, b, i, k, c, s2, s4);
    var s5 := Step(s4, a);
    assert (s.m.cells[Mid(t) := b] - {Mid(t)})[Queue(i, Slot(k)) := b] == s.m.cells[Queue(i, Slot(k)) := b];
    assert s5.threads == s.threads;
    sched := RunNext(s4, a, [], s5);
    sched := RunNext(s3, a, sched, s4);
    sched := RunNext(s2, a, sched, s3);
  }

  /** Before the mark. */
  lemma WritesSlot(s: State, t: nat, b: nat, i: nat, k: nat, c: Call, s2: State, s4: State)
    requires Ticketed(s, t, b, i, k, s2) && Slot(k) !in s2.sessions[i].used && Queue(i, Slot(k)) !in s.m.cells
    requires s4 == Step(Step(s2, Thread(t, c)), Thread(t, c))
    ensures s4.m == s2.m && s4.threads == s.threads[t := TMark(i, k)] && !s4.broken && s4.rejected == s2.rejected
    ensures |s4.sessions| == |s2.sessions| && s4.sessions == s2.sessions[i := s4.sessions[i]]
    ensures
      var x, x' := s2.sessions[i], s4.sessions[i];
      x' == x.(claim := x'.claim, data := x.data[Slot(k) := b])
  {
    assert s.threads[t := TCheck(i, k)][t := TWrite(i, k)][t := TMark(i, k)] == s.threads[t := TMark(i, k)];
  }

  /** SendPacket left alone takes the next ticket. If its slot is in use nothing else changes; otherwise the slot holds
      one more reference of the buffer. The variable keeps its own either way. */
  lemma SendAlone(s: State, t: nat, h: nat, i: nat) returns (sched: seq<Actor>)
    requires Inv(s) && !s.broken && t < |s.threads| && s.threads[t] == TIdle
    requires Points(s.m, h).Some? && i < |s.sessions| && !InReset(s.sessions[i].phase)
    ensures Points(s.m, h).value < |s.m.refs|
    ensures
      var r, b, x := Run(s, sched), Points(s.m, h).value, s.sessions[i];
      && r.threads == s.threads && !r.broken && |r.sessions| == |s.sessions|
      && r.sessions == s.sessions[i := r.sessions[i]]
      && r.sessions[i].tail == x.tail + 1 && r.sessions[i].head == x.head && r.sessions[i].phase == x.phase
      && if Slot(x.tail) in x.used then r.m == s.m && r.sessions[i].used == x.used && r.rejected
         else
           && r.m == Keep(s.m, Queue(i, Slot(x.tail)), b) && r.sessions[i].used == x.used + {Slot(x.tail)}
           && r.rejected == s.rejected
  {
    var a := Thread(t, Send(h, i));
    var s1 := Step(s, a);
    var s2 := Step(s1, a);
    SendBegins(s, t, h, i, s1, s2);
    var b, x := Points(s.m, h).value, s.sessions[i];
    assert BufferOk(s.m, b) && Handle(h) in Holders(s.m.cells, b);
    assert SessionOk(s, i) && SlotOk(s, i, Slot(x.tail));
    if Slot(x.tail) in x.used {
      sched := TurnsAway(s, t, b, i, x.tail, a.call, s2);
    } else {
      sched := Queues(s, t, b, i, x.tail, a.call, s2);
    }
    sched := RunNext(s1, a, sched, s2);
    sched := RunNext(s, a, sched, s1);
  }

  /** A write to a slot that another producer has marked meanwhile overwrites its reference: that buffer keeps a count
      of one more than it has holders. */
  lemma OverwriteLosesReference(s: State, t: nat, c: Call)
    requires !s.broken && HeapOk(s.m) && t < |s.threads| && s.threads[t].TWrite? && Mid(t) in s.m.cells
    requires
      var pc := s.threads[t];
      var l := Queue(pc.i, Slot(pc.k));
      pc.i < |s.sessions| && l in s.m.cells && s.m.cells[l] != s.m.cells[Mid(t)]
    ensures
      var pc, m' := s.threads[t], Step(s, Thread(t, c)).m;
      var l := Queue(pc.i, Slot(pc.k));
      var lost := s.m.cells[l];
      && l in m'.cells && m'.cells[l] == s.m.cells[Mid(t)] && m'.refs == s.m.refs
      && lost < |m'.refs| && m'.refs[lost] == |Holders(m'.cells, lost)| + 1 && !HeapOk(m')
  {
    var pc, m' := s.threads[t], Step(s, Thread(t, c)).m;
    var l := Queue(pc.i, Slot(pc.k));
    var lost := s.m.cells[l];
    HolderNotFree(s.m, l);
    HolderNotFree(s.m, Mid(t));
    assert BufferOk(s.m, lost) && l in Holders(s.m.cells, lost);
    assert Holders(m'.cells, lost) == Holders(s.m.cells, lost) - {l};
    assert !BufferOk(m', lost);
  }

  /** With its last handle a buffer goes back to the pool, with a count of 0. */
  lemma BufferReturns(s: State, t: nat, h: nat) returns (sched: seq<Actor>)
    requires HeapOk(s.m) && !s.broken && t < |s.threads| && s.threads[t] == TIdle && Points(s.m, h).Some?
    requires Holders(s.m.cells, Points(s.m, h).value) == {Handle(h)}
    ensures Points(s.m, h).value < |s.m.refs|
    ensures
      var r, b := Run(s, sched), Points(s.m, h).value;
      r == s.(m := Heap(s.m.refs[b := 0], s.m.pool + {b}, s.m.freeing, s.m.cells - {Handle(h)}))
  {
    var b := Points(s.m, h).value;
    DestroyPoints(s.m, h);
    assert BufferOk(s.m, b) && b !in s.m.freeing;
    var s1 := Step(s, Thread(t, Destroy(h)));
    var s2 := Step(s1, Freer(b));
    assert s.m.freeing + {b} - {b} == s.m.freeing;
    sched := RunNext(s1, Freer(b), [], s2);
    sched := RunNext(s, Thread(t, Destroy(h)), sched, s1);
  }

  // ---------------------------------------------------------------- RealSend, the completion, Reset

  /** How far the sender of a session is from being idle: which part it is in, how much of that is left, and where in
      the present turn it is. */
  function Part(p: Phase): nat {
    match p
    case SIdle => 0
    case SRelease(_) => 1
    case STry => 2
    case SFlight => 2
    case STake(_) => 3
    case SCopy(_) => 3
    case SFree(_) => 3
    case ResetS(_, _) => 4
    case ResetX => 5
    case SFailed => 7
    case _ => 6
  }

  function Amount(x: Session): nat {
    match x.phase
    case SRelease(k) => if k < x.dataNotSend then x.dataNotSend - k else 0
    case STake(n) => if n < MAX_SEND_COUNT then MAX_SEND_COUNT - n else 0
    case SCopy(n) => if n < MAX_SEND_COUNT then MAX_SEND_COUNT - n else 0
    case SFree(n) => if n < MAX_SEND_COUNT then MAX_SEND_COUNT - n else 0
    case ResetS(k, n) => if k < n then n - k else 0
    case _ => |x.used|
  }

  function Place(p: Phase): nat {
    match p
    case STake(_) => 2
    case SCopy(_) => 1
    case STry => 1
    case ResetQ => 3
    case ResetCopy => 2
    case ResetFree => 1
    case ResetDrop => 4
    case _ => 0
  }

  /** It does not wait for anybody: RealSend has found a buffer, Reset nobody inside. */
  predicate Going(s: State, i: nat) {
    i < |s.sessions| && (
      var x := s.sessions[i];
      && (x.phase == STake(0) ==> Slot(x.head) in x.used)
      && (x.phase.SCopy? || x.phase.SFree? ==> x.phase.n < MAX_SEND_COUNT)
      && (x.phase.SFailed? ==> Quiet(s, i)))
  }

  predicate Nearer(x: Session, x': Session) {
    || Part(x'.phase) < Part(x.phase)
    || (Part(x'.phase) == Part(x.phase) && Amount(x') < Amount(x))
    || (Part(x'.phase) == Part(x.phase) && Amount(x') == Amount(x) && Place(x'.phase) < Place(x.phase))
  }

  /** Sends and Resets move no reference but those of their session, and put none into its queue. */
  ghost predicate OnlySession(s: State, r: State, i: nat) {
    && r.threads == s.threads && |r.sessions| == |s.sessions|
    && (forall j :: 0 <= j < |s.sessions| && j != i ==> r.sessions[j] == s.sessions[j])
    && CellsKept(s.m.cells, r.m.cells, i)
  }

  ghost predicate CellsKept(c: map<Cell, nat>, d: map<Cell, nat>, i: nat) {
    && (forall l: Cell :: l.Handle? || l.Mid? || l.i != i ==> (l in d <==> l in c) && (l in c ==> d[l] == c[l]))
    && (forall q: nat :: Queue(i, q) in d ==> Queue(i, q) in c)
  }

  predicate OwnCell(l: Cell, i: nat) {
    (l.Queue? || l.Sending? || l.Drained?) && l.i == i
  }

  lemma MovedCell(c: map<Cell, nat>, from: Cell, to: Cell, b: nat, i: nat)
    requires OwnCell(from, i) && OwnCell(to, i) && !to.Queue?
    ensures CellsKept(c, (c - {from})[to := b], i)
  {
  }

  lemma DroppedCell(c: map<Cell, nat>, l: Cell, i: nat)
    requires OwnCell(l, i)
    ensures CellsKept(c, c - {l}, i)
  {
  }

  lemma FreeingShrinks(used: set<nat>, q: nat)
    requires q in used
    ensures |used - {q}| < |used|
  {
    assert used == (used - {q}) + {q};
  }

  /** RealSend. */
  lemma TakingMoves(s: State, i: nat, s': State)
    requires Going(s, i) && Part(s.sessions[i].phase) == 3
    requires s' == SenderStep(s, i, true, true) && !s'.broken
    ensures Going(s', i) && Nearer(s.sessions[i], s'.sessions[i]) && s'.crowded == s.crowded
  {
  }

  /** The send and its completion. */
  lemma FlightMoves(s: State, i: nat, s': State)
    requires Going(s, i) && (s.sessions[i].phase.STry? || s.sessions[i].phase.SFlight? || s.sessions[i].phase.SRelease?)
    requires s' == SenderStep(s, i, true, true) && !s'.broken
    ensures Going(s', i) && Nearer(s.sessions[i], s'.sessions[i]) && s'.crowded == s.crowded
  {
  }

  predicate SameEnds(x: Session, x': Session) {
    x'.head == x.head && x'.tail == x.tail
  }

  /** The end of Reset. */
  lemma ResetMoves(s: State, i: nat, s': State)
    requires Going(s, i) && (s.sessions[i].phase.ResetX? || s.sessions[i].phase.ResetS?)
    requires s' == SenderStep(s, i, true, true) && !s'.broken
    ensures i < |s'.sessions| && SameEnds(s.sessions[i], s'.sessions[i])
    ensures InReset(s'.sessions[i].phase) || s'.sessions[i].phase == SIdle
    ensures Going(s', i) && Nearer(s.sessions[i], s'.sessions[i]) && s'.crowded == s.crowded
  {
  }

  /** The draining of the queue. */
  lemma DrainMoves(s: State, i: nat, s': State)
    requires Going(s, i) && Part(s.sessions[i].phase) >= 6
    requires s' == SenderStep(s, i, true, true) && !s'.broken
    ensures i < |s'.sessions| && InReset(s'.sessions[i].phase)
    ensures Going(s', i) && Nearer(s.sessions[i], s'.sessions[i]) && s'.crowded == s.crowded
  {
    var x := s.sessions[i];
    if x.phase.ResetFree? {
      FreeingShrinks(x.used, Slot(x.head - 1));
    }
  }

  lemma SenderMoves(s: State, i: nat, s': State)
    requires Going(s, i) && !s.sessions[i].phase.SIdle?
    requires s' == SenderStep(s, i, true, true) && !s'.broken
    ensures i < |s'.sessions|
    ensures
      var x, x' := s.sessions[i], s'.sessions[i];
      InReset(x.phase) && !InReset(x'.phase) ==>
        (x.phase.ResetX? || x.phase.ResetS?) && x'.phase == SIdle && SameEnds(x, x')
    ensures Going(s', i) && Nearer(s.sessions[i], s'.sessions[i]) && s'.crowded == s.crowded
  {
    var p := Part(s.sessions[i].phase);
    if p == 3 {
      TakingMoves(s, i, s');
    } else if p >= 6 {
      DrainMoves(s, i, s');
    } else if p >= 4 {
      ResetMoves(s, i, s');
    } else {
      FlightMoves(s, i, s');
    }
  }

  lemma CopyTouches(s: State, i: nat, l: Cell, p: Phase)
    requires i < |s.sessions| && !CopyCell(s, i, l, p).broken && OwnCell(l, i) && !l.Queue?
    ensures OnlySession(s, CopyCell(s, i, l, p), i)
  {
    var x := s.sessions[i];
    if x.head > 0 && Queue(i, Slot(x.head - 1)) in s.m.cells {
      MovedCell(s.m.cells, Queue(i, Slot(x.head - 1)), l, s.m.cells[Queue(i, Slot(x.head - 1))], i);
    }
  }

  lemma DropTouches(s: State, i: nat, l: Cell, p: Phase)
    requires i < |s.sessions| && !DropCell(s, i, l, p).broken && OwnCell(l, i)
    ensures OnlySession(s, DropCell(s, i, l, p), i)
  {
    DroppedCell(s.m.cells, l, i);
  }

  lemma NoCellTouches(s: State, i: nat, s': State)
    requires i < |s.sessions| && s'.m == s.m && s'.threads == s.threads
    requires |s'.sessions| == |s.sessions| && s'.sessions == s.sessions[i := s'.sessions[i]]
    ensures OnlySession(s, s', i)
  {
  }

  /** Releases of `_sendingQ`. */
  predicate Dropping(x: Session) {
    (x.phase.SRelease? && x.phase.k < x.dataNotSend) || (x.phase.ResetS? && x.phase.k < x.phase.n)
  }

  lemma RestTouches(s: State, i: nat, s': State)
    requires i < |s.sessions| && s' == SenderStep(s, i, true, true) && !s'.broken
    requires var x := s.sessions[i]; !x.phase.SCopy? && !x.phase.ResetCopy? && !x.phase.ResetDrop? && !Dropping(x)
    ensures OnlySession(s, s', i)
  {
    NoCellTouches(s, i, s');
  }

  lemma SenderTouches(s: State, i: nat, s': State)
    requires i < |s.sessions| && s' == SenderStep(s, i, true, true) && !s'.broken
    ensures OnlySession(s, s', i)
  {
    var x := s.sessions[i];
    if x.phase.SCopy? {
      CopyTouches(s, i, Sending(i, x.phase.n), SFree(x.phase.n));
    } else if x.phase.ResetCopy? {
      CopyTouches(s, i, Drained(i), ResetFree);
    } else if x.phase.ResetDrop? {
      DropTouches(s, i, Drained(i), ResetQ);
    } else if Dropping(x) {
      var next := if x.phase.SRelease? then SRelease(x.phase.k + 1) else ResetS(x.phase.k + 1, x.phase.n);
      DropTouches(s, i, Sending(i, x.phase.k), next);
    } else {
      RestTouches(s, i, s');
    }
  }

  lemma OnlyTwice(s: State, s': State, r: State, i: nat)
    requires OnlySession(s, s', i) && OnlySession(s', r, i)
    ensures OnlySession(s, r, i)
  {
  }

  /** RealSend that has found a buffer, a completion, and a Reset with nobody inside come to their end. */
  lemma {:induction false} SenderEnds(s: State, i: nat) returns (sched: seq<Actor>)
    requires Inv(s) && !s.broken && Going(s, i)
    ensures
      var r := Run(s, sched);
      && Inv(r) && !r.broken && i < |r.sessions| && r.sessions[i].phase == SIdle && OnlySession(s, r, i)
      && r.crowded == s.crowded
      && (InReset(s.sessions[i].phase) && i !in s.crowded ==> r.sessions[i].head == r.sessions[i].tail)
    ensures s.sessions[i].phase.SIdle? ==> sched == []
    decreases Part(s.sessions[i].phase), Amount(s.sessions[i]), Place(s.sessions[i].phase)
  {
    if s.sessions[i].phase.SIdle? {
      sched := [];
    } else {
      var s' := Step(s, Sender(i, true, true));
      assert SessionOk(s, i);
      SenderInv(s, i, true, true);
      SenderMoves(s, i, s');
      SenderTouches(s, i, s');
      var rest := SenderEnds(s', i);
      sched := RunNext(s, Sender(i, true, true), rest, s');
      OnlyTwice(s, s', Run(s', rest), i);
    }
  }

  lemma NothingInFlight(s: State, i: nat)
    requires Inv(s) && i < |s.sessions| && s.sessions[i].phase.SIdle?
    ensures Drained(i) !in s.m.cells && forall k: nat :: Sending(i, k) !in s.m.cells
  {
    assert SessionOk(s, i);
    forall k: nat
      ensures Sending(i, k) !in s.m.cells
    {
      assert SendingOk(s, i, k);
    }
  }

  /** The first three steps of a send: the reference of the slot at the head is no longer in the queue. */
  lemma TakesFirst(s: State, i: nat) returns (s1: State, s2: State, s3: State)
    requires Inv(s) && !s.broken && i < |s.sessions|
    requires var x := s.sessions[i]; x.phase == SIdle && Slot(x.head) in x.used
    ensures s1 == Step(s, Sender(i, true, false)) && s2 == Step(s1, Sender(i, true, true))
    ensures s3 == Step(s2, Sender(i, true, true)) && Inv(s3) && !s3.broken && OnlySession(s, s3, i)
    ensures Going(s3, i) && Queue(i, Slot(s.sessions[i].head)) !in s3.m.cells
  {
    s1 := Step(s, Sender(i, true, false));
    SenderInv(s, i, true, false);
    NoCellTouches(s, i, s1);
    s2 := Step(s1, Sender(i, true, true));
    SenderInv(s1, i, true, true);
    SenderTouches(s1, i, s2);
    OnlyTwice(s, s1, s2, i);
    s3 := Step(s2, Sender(i, true, true));
    SenderInv(s2, i, true, true);
    SenderTouches(s2, i, s3);
    OnlyTwice(s, s2, s3, i);
  }

  /** A send left alone: the buffer at the head of the queue is sent and its reference released; when the completion
      is over the session has none in `_sendingQ`, and nothing else has moved. */
  lemma SendReleases(s: State, i: nat) returns (sched: seq<Actor>)
    requires Inv(s) && !s.broken && i < |s.sessions|
    requires var x := s.sessions[i]; x.phase == SIdle && Slot(x.head) in x.used
    ensures
      var r := Run(s, sched);
      && Inv(r) && !r.broken && OnlySession(s, r, i) && r.sessions[i].phase == SIdle
      && Queue(i, Slot(s.sessions[i].head)) !in r.m.cells
      && Drained(i) !in r.m.cells && forall k: nat :: Sending(i, k) !in r.m.cells
  {
    var s1, s2, s3 := TakesFirst(s, i);
    var rest := SenderEnds(s3, i);
    var r := Run(s3, rest);
    OnlyTwice(s, s3, r, i);
    NothingInFlight(r, i);
    sched := RunNext(s2, Sender(i, true, true), rest, s3);
    sched := RunNext(s1, Sender(i, true, true), sched, s2);
    sched := RunNext(s, Sender(i, true, false), sched, s1);
  }

  lemma NothingQueued(s: State, i: nat)
    requires Inv(s) && i < |s.sessions| && s.sessions[i].phase.SIdle? && i !in s.crowded
    requires s.sessions[i].head == s.sessions[i].tail
    ensures forall q: nat :: Queue(i, q) !in s.m.cells
  {
    assert SessionOk(s, i);
    forall q: nat
      ensures Queue(i, q) !in s.m.cells
    {
      assert SlotOk(s, i, q);
    }
  }

  /** Reset left alone, of a session with nobody inside, also after a failed send: it ends, and unless the queue was
      overrun the session has no reference left and no other reference has moved. */
  lemma ResetReleases(s: State, i: nat) returns (sched: seq<Actor>)
    requires Inv(s) && !s.broken && i < |s.sessions| && Quiet(s, i) && i !in s.crowded
    requires s.sessions[i].phase.SIdle? || s.sessions[i].phase.SFailed?
    ensures
      var r := Run(s, sched);
      && Inv(r) && !r.broken && OnlySession(s, r, i) && r.sessions[i].phase == SIdle
      && Drained(i) !in r.m.cells && forall k: nat :: Sending(i, k) !in r.m.cells && Queue(i, k) !in r.m.cells
  {
    var s1 := Step(s, Sender(i, true, true));
    SenderInv(s, i, true, true);
    SenderTouches(s, i, s1);
    var rest := SenderEnds(s1, i);
    var r := Run(s1, rest);
    OnlyTwice(s, s1, r, i);
    NothingInFlight(r, i);
    NothingQueued(r, i);
    sched := RunNext(s, Sender(i, true, true), rest, s1);
  }

  /** RealSend waits for the slot at the head; it never sends an empty array. */
  lemma SendWaits(s: State, i: nat, succeeds: bool, reset: bool)
    requires i < |s.sessions| && !s.broken && s.sessions[i].phase == STake(0)
    ensures
      var x, r := s.sessions[i], Step(s, Sender(i, succeeds, reset));
      && (r == s <==> Slot(x.head) !in x.used)
      && (r != s ==> |r.sessions| == |s.sessions| && r.sessions[i] == x.(head := x.head + 1, phase := SCopy(0)))
  {
  }

  /** The array goes to WSASend exactly when it is full or the next slot is not ready, with all that was taken. */
  lemma SendHandsOver(s: State, i: nat, succeeds: bool, reset: bool, n: nat)
    requires i < |s.sessions| && !s.broken && s.sessions[i].phase == STake(n) && 0 < n <= MAX_SEND_COUNT
    ensures
      var x, r := s.sessions[i], Step(s, Sender(i, succeeds, reset));
      && |r.sessions| == |s.sessions| && r.m == s.m
      && (r.sessions[i].phase == STry <==> n == MAX_SEND_COUNT || Slot(x.head) !in x.used)
      && (r.sessions[i].phase == STry ==> r.sessions[i] == x.(dataNotSend := n, phase := STry))
  {
  }

  /** A send that fails, or completes with an error, releases nothing; the Reset that follows when nobody is inside
      releases all. */
  lemma FailedSendReleases(s: State, i: nat) returns (sched: seq<Actor>)
    requires Inv(s) && !s.broken && i < |s.sessions| && Quiet(s, i) && i !in s.crowded
    requires s.sessions[i].phase.STry? || s.sessions[i].phase.SFlight?
    ensures Step(s, Sender(i, false, false)).m == s.m
    ensures
      var r := Run(Step(s, Sender(i, false, false)), sched);
      && Inv(r) && !r.broken && OnlySession(s, r, i) && r.sessions[i].phase == SIdle
      && Drained(i) !in r.m.cells && forall k: nat :: Sending(i, k) !in r.m.cells && Queue(i, k) !in r.m.cells
  {
    var s1 := Step(s, Sender(i, false, false));
    SenderInv(s, i, false, false);
    NoCellTouches(s, i, s1);
    sched := ResetReleases(s1, i);
    OnlyTwice(s, s1, Run(s1, sched), i);
  }
}

/** Calls of `LockFreeStack` (include/LockFreeStack.h) and the events of its log: each operation takes effect exactly
    once, between its call and its return, and returns what it took; and none can be kept from its end by threads
    that stand still. */
module StackCalls {
  import opened Wrappers
  import opened TaggedStack

  // ---------------------------------------------------------------- calls and events

  /** What can be seen of one thread: it calls Push or Pop, the operation takes effect, it returns, Pop with a value
      or without. */
  datatype Mark = Called(c: Choice) | Took(e: Event) | Left(r: Option<Data>)

  predicate Outside(pc: Pc) {
    pc.Idle? || pc.Returned?
  }

  function Result(pc: Pc): Option<Data> {
    if pc.Returned? then Some(pc.d) else None
  }

  /** What a step shows, from the program counter and the log before and after it. */
  function Shown(before: Memory, pc: Pc, after: Memory, pc': Pc, c: Choice): seq<Mark> {
    (if Outside(pc) && !Outside(pc') then [Called(c)] else []) +
    (if |after.log| > |before.log| then [Took(after.log[|before.log|])] else []) +
    (if !Outside(pc) && Outside(pc') then [Left(Result(pc'))] else [])
  }

  /** What a run shows of thread `t`. */
  function Seen(s: State, sched: Schedule, t: nat): seq<Mark>
    decreases |sched|
  {
    if sched == [] then [] else
      var (b, c) := sched[0];
      var s' := Step(s, b, c);
      (if b == t && t < |s.threads| && t < |s'.threads| then Shown(s.m, s.threads[t], s'.m, s'.threads[t], c) else [])
      + Seen(s', sched[1..], t)
  }

  /** Who took effect when. */
  function Takers(s: State, sched: Schedule): seq<nat>
    decreases |sched|
  {
    if sched == [] then [] else
      var s' := Step(s, sched[0].0, sched[0].1);
      (if |s'.m.log| > |s.m.log| then [sched[0].0] else []) + Takers(s', sched[1..])
  }

  /** How far the present operation of a thread is. */
  datatype Phase = Out | InPush(d: Data) | Pushed | InPop | Holds(d: Data) | Empty

  /** A call, its one effect, its return, and so on. */
  function Advance(p: Phase, m: Mark): Option<Phase> {
    match (p, m)
    case (Out, Called(Push(d))) => Some(InPush(d))
    case (Out, Called(Pop)) => Some(InPop)
    case (InPush(d), Took(Pushed(x))) => if x == d then Some(Phase.Pushed) else None
    case (Pushed, Left(r)) => if r.None? then Some(Out) else None
    case (InPop, Took(Popped(d))) => Some(Holds(d))
    case (InPop, Took(FoundEmpty)) => Some(Empty)
    case (Holds(d), Left(r)) => if r == Some(d) then Some(Out) else None
    case (Empty, Left(r)) => if r.None? then Some(Out) else None
    case _ => None
  }

  function Scan(p: Phase, marks: seq<Mark>): Option<Phase>
    decreases |marks|
  {
    if marks == [] then Some(p) else
      var next := Advance(p, marks[0]);
      if next.None? then None else Scan(next.value, marks[1..])
  }

  function PhaseOf(pc: Pc): Phase {
    if Outside(pc) then Out
    else if pc.PopRead? || pc.PopData? || pc.PopNext? || pc.PopCas? then InPop
    else if pc.FreeRead? || pc.FreeLink? || pc.FreeCas? then Holds(pc.d)
    else InPush(pc.d)
  }

  lemma {:induction false} ScanCat(p: Phase, a: seq<Mark>, b: seq<Mark>)
    requires Scan(p, a).Some?
    ensures Scan(p, a + b) == Scan(Scan(p, a).value, b)
    decreases |a|
  {
    if a == [] {
      assert a + b == b;
    } else {
      assert (a + b)[0] == a[0] && (a + b)[1..] == a[1..] + b;
      ScanCat(Advance(p, a[0]).value, a[1..], b);
    }
  }

  lemma ScanOne(p: Phase, m: Mark)
    ensures Scan(p, [m]) == Advance(p, m)
  {
    if Advance(p, m).Some? {
      assert [m][1..] == [];
    }
  }

  lemma ScanTwo(p: Phase, m: Mark, n: Mark)
    requires Advance(p, m).Some?
    ensures Scan(p, [m, n]) == Advance(Advance(p, m).value, n)
  {
    assert [m, n][1..] == [n];
    ScanOne(Advance(p, m).value, n);
  }

  /** No step logs more than one event, and none takes one back. */
  lemma LogGrows(m: Memory, pc: Pc, c: Choice)
    ensures
      var m' := Local(m, pc, c).0;
      m'.log == m.log || (|m'.log| == |m.log| + 1 && m'.log[..|m.log|] == m.log)
  {
  }

  /** One step of an operation shows what comes next in it, or nothing. */
  lemma StepShows(m: Memory, pc: Pc, c: Choice)
    ensures
      var (m', pc') := Local(m, pc, c);
      Scan(PhaseOf(pc), Shown(m, pc, m', pc', c)) == Some(PhaseOf(pc'))
  {
    var (m', pc') := Local(m, pc, c);
    var shown := Shown(m, pc, m', pc', c);
    if Outside(pc) {
      if !Outside(pc') {
        assert shown == [Called(c)];
        ScanOne(Out, Called(c));
      }
    } else if Outside(pc') && !pc.FreeCas? {
      assert shown == [Took(m'.log[|m.log|]), Left(None)];
      ScanTwo(PhaseOf(pc), Took(m'.log[|m.log|]), Left(None));
    } else if pc.FreeCas? && Outside(pc') {
      assert shown == [Left(Some(pc.d))];
      ScanOne(PhaseOf(pc), Left(Some(pc.d)));
    } else if pc.PopCas? && m.stack.top == pc.snap {
      assert shown == [Took(Popped(pc.d))];
      ScanOne(InPop, Took(Popped(pc.d)));
    } else {
      assert shown == [];
    }
  }

  /** In every interleaving, whatever the tags do: what a thread shows is a call, the effect of that call with its own
      value, the return of just that value, and so on; an operation that has not taken effect has not returned. */
  lemma {:induction false} CallsTakeEffectOnce(s: State, sched: Schedule, t: nat)
    requires t < |s.threads|
    ensures
      var r := Run(s, sched);
      |r.threads| == |s.threads| && Scan(PhaseOf(s.threads[t]), Seen(s, sched, t)) == Some(PhaseOf(r.threads[t]))
    decreases |sched|
  {
    if sched != [] {
      var (b, c) := sched[0];
      var s' := Step(s, b, c);
      CallsTakeEffectOnce(s', sched[1..], t);
      if b == t {
        StepShows(s.m, s.threads[t], c);
        ScanCat(PhaseOf(s.threads[t]), Shown(s.m, s.threads[t], s'.m, s'.threads[t], c), Seen(s', sched[1..], t));
      } else {
        assert [] + Seen(s', sched[1..], t) == Seen(s', sched[1..], t);
      }
    }
  }

  /** The effects among what a thread shows. */
  function Effects(marks: seq<Mark>): seq<Event> {
    if marks == [] then [] else
      (if marks[0].Took? then [marks[0].e] else []) + Effects(marks[1..])
  }

  /** The events of `log` that thread `t` is the taker of. */
  function Own(log: seq<Event>, takers: seq<nat>, t: nat): seq<Event>
    requires |log| == |takers|
  {
    if log == [] then [] else
      (if takers[0] == t then [log[0]] else []) + Own(log[1..], takers[1..], t)
  }

  lemma {:induction false} EffectsCat(a: seq<Mark>, b: seq<Mark>)
    ensures Effects(a + b) == Effects(a) + Effects(b)
  {
    if a == [] {
      assert a + b == b;
    } else {
      assert (a + b)[0] == a[0] && (a + b)[1..] == a[1..] + b;
      EffectsCat(a[1..], b);
    }
  }

  lemma EffectsShown(before: Memory, pc: Pc, after: Memory, pc': Pc, c: Choice)
    ensures Effects(Shown(before, pc, after, pc', c)) ==
            (if |after.log| > |before.log| then [after.log[|before.log|]] else [])
  {
    var a := if Outside(pc) && !Outside(pc') then [Called(c)] else [];
    var b := if |after.log| > |before.log| then [Took(after.log[|before.log|])] else [];
    var d := if !Outside(pc) && Outside(pc') then [Left(Result(pc'))] else [];
    EffectsCat(a + b, d);
    EffectsCat(a, b);
  }

  /** The log of a run is made of the effects of its threads: every event is that of exactly one operation, and each
      thread's events are in the order in which it showed them. */
  lemma {:induction false} LogIsEffects(s: State, sched: Schedule, t: nat)
    requires t < |s.threads|
    ensures
      var r, takers := Run(s, sched), Takers(s, sched);
      && |r.m.log| == |s.m.log| + |takers| && r.m.log[..|s.m.log|] == s.m.log
      && (forall k :: 0 <= k < |takers| ==> takers[k] < |s.threads|)
      && Own(r.m.log[|s.m.log|..], takers, t) == Effects(Seen(s, sched, t))
    decreases |sched|
  {
    if sched != [] {
      var (b, c) := sched[0];
      var s' := Step(s, b, c);
      LogIsEffects(s', sched[1..], t);
      if b < |s.threads| {
        LogGrows(s.m, s.threads[b], c);
      }
      LogTurn(s.m.log, s'.m.log, Run(s, sched).m.log, b, Takers(s', sched[1..]), t);
      if b == t {
        var shown := Shown(s.m, s.threads[t], s'.m, s'.threads[t], c);
        EffectsShown(s.m, s.threads[t], s'.m, s'.threads[t], c);
        EffectsCat(shown, Seen(s', sched[1..], t));
      } else {
        assert [] + Seen(s', sched[1..], t) == Seen(s', sched[1..], t);
      }
    }
  }

  /** One step's share of the log. */
  lemma LogTurn(log: seq<Event>, next: seq<Event>, end: seq<Event>, b: nat, rest: seq<nat>, t: nat)
    requires next == log || (|next| == |log| + 1 && next[..|log|] == log)
    requires |end| == |next| + |rest| && end[..|next|] == next
    ensures
      var takers := (if |next| > |log| then [b] else []) + rest;
      && |end| == |log| + |takers| && end[..|log|] == log
      && Own(end[|log|..], takers, t) ==
         (if |next| > |log| && b == t then [next[|log|]] else []) + Own(end[|next|..], rest, t)
  {
    if next == log {
      assert [] + rest == rest;
    } else {
      var takers := [b] + rest;
      assert takers[1..] == rest && end[|log|..][1..] == end[|next|..];
      assert end[|log|] == end[..|next|][|log|];
    }
  }

  // ---------------------------------------------------------------- operations left alone

  /** What an operation left alone ends with: the log, the values on the stack, and what it returns. */
  datatype Outcome = Outcome(log: seq<Event>, stack: seq<Data>, r: Option<Data>)

  /** The sequential operation on the values that are on the stack now. */
  function Expected(m: Memory, pc: Pc): Outcome {
    var a := Abstract(m);
    match PhaseOf(pc)
    case InPush(d) => Outcome(m.log + [Event.Pushed(d)], [d] + a, None)
    case InPop =>
      if a == [] then Outcome(m.log + [FoundEmpty], [], None) else Outcome(m.log + [Popped(a[0])], a[1..], Some(a[0]))
    case Holds(d) => Outcome(m.log, a, Some(d))
    case _ => Outcome(m.log, a, Result(pc))
  }

  /** How many steps it has to go: those of the attempt it is in, and of one more if the top has changed. */
  function ToGo(m: Memory, pc: Pc): nat {
    match pc
    case Idle => 0
    case Returned(_) => 0
    case AllocRead(_) => Allocating(m)
    case AllocNext(_, snap, _) => 2 + (if m.pool.top == snap then 4 else Allocating(m))
    case AllocCas(_, snap, _, _) => 1 + (if m.pool.top == snap then 4 else Allocating(m))
    case SetData(_, _) => 4
    case PushRead(_, _) => 3
    case PushLink(_, _, snap) => 2 + (if m.stack.top == snap then 0 else 3)
    case PushCas(_, _, snap) => 1 + (if m.stack.top == snap then 0 else 3)
    case PopRead => Popping(m)
    case PopData(snap, _) => 3 + (if m.stack.top == snap then 3 else Popping(m))
    case PopNext(snap, _, _) => 2 + (if m.stack.top == snap then 3 else Popping(m))
    case PopCas(snap, _, _, _) => 1 + (if m.stack.top == snap then 3 else Popping(m))
    case FreeRead(_, _) => 3
    case FreeLink(_, _, snap) => 2 + (if m.pool.top == snap then 0 else 3)
    case FreeCas(_, _, snap) => 1 + (if m.pool.top == snap then 0 else 3)
  }

  function Allocating(m: Memory): nat {
    if m.pool.top.ptr == 0 then 5 else 7
  }

  function Popping(m: Memory): nat {
    if m.stack.top.ptr == 0 then 1 else 7
  }

  /** The allocator gives a Push a node that does not exist yet, in case the pool is empty. */
  predicate Supplied(m: Memory, pc: Pc, c: Choice) {
    pc.AllocRead? || pc.AllocNext? || pc.AllocCas? ==> c.Fresh? && 0 < c.node < INDEX_INC && c.node !in m.data
  }

  /** What it reads through pointers is there. */
  predicate Reads(m: Memory, pc: Pc) {
    match pc
    case AllocNext(_, snap, _) => snap.ptr in m.pool.link
    case PopData(snap, _) => snap.ptr in m.data
    case PopNext(snap, _, _) => snap.ptr in m.stack.link
    case _ => true
  }

  lemma StepCounts(m: Memory, pc: Pc, c: Choice)
    requires !Outside(pc) && Reads(m, pc) && Supplied(m, pc, c)
    ensures
      var (m', pc') := Local(m, pc, c);
      ToGo(m', pc') + 1 == ToGo(m, pc) && Supplied(m', pc', c)
  {
  }

  /** The word that was read stays as old as it was. */
  lemma StepRecent(m: Memory, pc: Pc, c: Choice)
    requires !Outside(pc) && Recent(m, pc)
    ensures Recent(Local(m, pc, c).0, Local(m, pc, c).1)
  {
  }

  /** The operation has not taken effect, and its values, and the log, are as before. */
  predicate Same(m: Memory, pc: Pc, m': Memory, pc': Pc) {
    m'.log == m.log && Abstract(m') == Abstract(m) && PhaseOf(pc') == PhaseOf(pc)
  }

  lemma RestPhase(m: Memory, pc: Pc, c: Choice)
    requires !Outside(pc) && !pc.PushCas? && !pc.PopCas? && !pc.FreeCas? && !(pc.PopRead? && m.stack.top.ptr == 0)
    ensures PhaseOf(Local(m, pc, c).1) == PhaseOf(pc)
  {
  }

  /** A step before or after the effect. */
  lemma RestSame(m: Memory, pc: Pc, c: Choice)
    requires MemoryOk(m) && OffLists(m, pc) && !Outside(pc)
    requires !pc.PushCas? && !pc.PopCas? && !pc.FreeCas? && !(pc.PopRead? && m.stack.top.ptr == 0)
    ensures Same(m, pc, Local(m, pc, c).0, Local(m, pc, c).1)
  {
    RestFrame(m, pc, c);
    RestValues(m, pc, c);
    RestPhase(m, pc, c);
  }

  lemma SameExpected(m: Memory, pc: Pc, m': Memory, pc': Pc)
    requires Same(m, pc, m', pc') && !Outside(pc)
    ensures Expected(m', pc') == Expected(m, pc)
  {
  }

  lemma PushExpected(m: Memory, pc: Pc, c: Choice)
    requires ThreadOk(m, pc) && pc.PushCas? && Replay(m.log) == Some(Abstract(m))
    ensures Expected(Local(m, pc, c).0, Local(m, pc, c).1) == Expected(m, pc)
  {
    PushLinearizes(m, pc, c);
  }

  lemma PopExpected(m: Memory, pc: Pc, c: Choice)
    requires MemoryOk(m) && ThreadOk(m, pc) && Recent(m, pc) && pc.PopCas? && Replay(m.log) == Some(Abstract(m))
    ensures Expected(Local(m, pc, c).0, Local(m, pc, c).1) == Expected(m, pc)
  {
    RecentIsCurrent(m, pc);
    PopLinearizes(m, pc, c);
  }

  lemma EmptyExpected(m: Memory, pc: Pc, c: Choice)
    requires MemoryOk(m) && pc.PopRead? && m.stack.top.ptr == 0
    ensures Expected(Local(m, pc, c).0, Local(m, pc, c).1) == Expected(m, pc)
  {
    assert m.stack.chain == [];
  }

  lemma FreeExpected(m: Memory, pc: Pc, c: Choice)
    requires pc.FreeCas?
    ensures Expected(Local(m, pc, c).0, Local(m, pc, c).1) == Expected(m, pc)
  {
  }

  /** One step of an operation that nobody disturbs brings it nearer to its end and changes nothing about what it ends
      with. */
  lemma StepNearer(s: State, t: nat, c: Choice)
    requires Inv(s) && t < |s.threads| && !Outside(s.threads[t])
    requires Recent(s.m, s.threads[t]) && Supplied(s.m, s.threads[t], c)
    ensures
      var m, pc := s.m, s.threads[t];
      var (m', pc') := Local(m, pc, c);
      && ToGo(m', pc') + 1 == ToGo(m, pc) && Expected(m', pc') == Expected(m, pc)
      && Recent(m', pc') && Supplied(m', pc', c)
  {
    var m, pc := s.m, s.threads[t];
    var (m', pc') := Local(m, pc, c);
    Holding(s, t);
    ReadsThere(m, pc);
    StepCounts(m, pc, c);
    StepRecent(m, pc, c);
    if pc.PushCas? {
      PushExpected(m, pc, c);
    } else if pc.PopCas? {
      PopExpected(m, pc, c);
    } else if pc.FreeCas? {
      FreeExpected(m, pc, c);
    } else if pc.PopRead? && m.stack.top.ptr == 0 {
      EmptyExpected(m, pc, c);
    } else {
      RestSame(m, pc, c);
      SameExpected(m, pc, m', pc');
    }
  }

  lemma ReadsThere(m: Memory, pc: Pc)
    requires MemoryOk(m) && ThreadOk(m, pc)
    ensures Reads(m, pc)
  {
  }

  function Alone(t: nat, c: Choice, n: nat): Schedule {
    seq(n, _ => (t, c))
  }

  lemma AloneBegins(s: State, t: nat, c: Choice, n: nat, s': State)
    requires n > 0 && s' == Step(s, t, c)
    ensures Run(s, Alone(t, c, n)) == Run(s', Alone(t, c, n - 1))
  {
    assert Alone(t, c, n)[1..] == Alone(t, c, n - 1);
  }

  /** `s` after an operation of thread `t` alone, with this outcome. */
  predicate Ended(s: State, t: nat, r: State, o: Outcome) {
    && |r.threads| == |s.threads|
    && (forall u :: 0 <= u < |s.threads| && u != t ==> r.threads[u] == s.threads[u])
    && t < |r.threads| && Outside(r.threads[t]) && o == Outcome(r.m.log, Abstract(r.m), Result(r.threads[t]))
  }

  /** From every good state in which the others stand still wherever they are, an operation ends after the given
      number of steps, with the effect and the result of the sequential operation. */
  lemma {:induction false} LeftAloneItEnds(s: State, t: nat, c: Choice)
    requires Inv(s) && t < |s.threads| && Recent(s.m, s.threads[t]) && Supplied(s.m, s.threads[t], c)
    ensures Ended(s, t, Run(s, Alone(t, c, ToGo(s.m, s.threads[t]))), Expected(s.m, s.threads[t]))
    decreases ToGo(s.m, s.threads[t])
  {
    var n := ToGo(s.m, s.threads[t]);
    if n > 0 {
      var s' := StepAlone(s, t, c);
      AloneBegins(s, t, c, n, s');
      LeftAloneItEnds(s', t, c);
    } else {
      OutsideEnded(s, t);
    }
  }

  lemma StepAlone(s: State, t: nat, c: Choice) returns (s': State)
    requires Inv(s) && t < |s.threads| && !Outside(s.threads[t])
    requires Recent(s.m, s.threads[t]) && Supplied(s.m, s.threads[t], c)
    ensures
      && s' == Step(s, t, c) && Inv(s') && |s'.threads| == |s.threads| && s'.threads == s.threads[t := s'.threads[t]]
      && ToGo(s'.m, s'.threads[t]) + 1 == ToGo(s.m, s.threads[t])
      && Expected(s'.m, s'.threads[t]) == Expected(s.m, s.threads[t])
      && Recent(s'.m, s'.threads[t]) && Supplied(s'.m, s'.threads[t], c)
  {
    s' := Step(s, t, c);
    StepNearer(s, t, c);
    RecentIsCurrent(s.m, s.threads[t]);
    StepInv(s, t, c);
  }

  lemma OutsideEnded(s: State, t: nat)
    requires t < |s.threads| && ToGo(s.m, s.threads[t]) == 0
    ensures Ended(s, t, s, Expected(s.m, s.threads[t]))
  {
  }

  // ---------------------------------------------------------------- linearizability of calls

  /** In every interleaving each operation takes effect once between its call and its return, with the value it was
      given or returns; and one sequential stack accepts these effects in the order in which they occur. */
  lemma CallsLinearize(s: State, sched: Schedule, t: nat)
    requires Initial(s) && RecentAlong(s, sched) && t < |s.threads|
    ensures
      var r, takers := Run(s, sched), Takers(s, sched);
      && Replay(r.m.log) == Some(Abstract(r.m))
      && |takers| == |r.m.log| && Own(r.m.log, takers, t) == Effects(Seen(s, sched, t))
      && t < |r.threads| && Scan(Out, Seen(s, sched, t)) == Some(PhaseOf(r.threads[t]))
  {
    Linearizable(s, sched);
    LogIsEffects(s, sched, t);
    CallsTakeEffectOnce(s, sched, t);
    var log := Run(s, sched).m.log;
    assert log[0..] == log;
  }
}

/** The tag of the stack's top word comes round after 2^17 pushes: a run of two threads of the machine in
    `TaggedStack` on which a value that was pushed once is popped twice. */
module TagWrap {
  import opened Wrappers
  import opened TaggedStack

  /** Steps of one thread alone. */
  function Alone(m: Memory, pc: Pc, cs: seq<Choice>): (Memory, Pc) {
    if cs == [] then (m, pc) else
      var before := Alone(m, pc, cs[..|cs| - 1]);
      Local(before.0, before.1, cs[|cs| - 1])
  }

  lemma Then(m: Memory, pc: Pc, cs: seq<Choice>, c: Choice) returns (more: seq<Choice>)
    ensures Alone(m, pc, more) == Local(Alone(m, pc, cs).0, Alone(m, pc, cs).1, c)
  {
    more := cs + [c];
    assert more[..|cs|] == cs;
  }

  lemma {:induction false} AloneCat(m: Memory, pc: Pc, a: seq<Choice>, b: seq<Choice>)
    ensures Alone(m, pc, a + b) == Alone(Alone(m, pc, a).0, Alone(m, pc, a).1, b)
  {
    if b == [] {
      assert a + b == a;
    } else {
      var n := |b| - 1;
      AloneCat(m, pc, a, b[..n]);
      assert (a + b)[..|a| + n] == a + b[..n];
    }
  }

  lemma {:induction false} RunCat(s: State, a: Schedule, b: Schedule)
    ensures Run(s, a + b) == Run(Run(s, a), b)
    decreases |a|
  {
    if a == [] {
      assert a + b == b;
    } else {
      assert (a + b)[0] == a[0] && (a + b)[1..] == a[1..] + b;
      RunCat(Step(s, a[0].0, a[0].1), a[1..], b);
    }
  }

  lemma {:induction false} AloneRuns(s: State, t: nat, cs: seq<Choice>) returns (sched: Schedule)
    requires t < |s.threads|
    ensures
      var (m, pc) := Alone(s.m, s.threads[t], cs);
      Run(s, sched) == State(m, s.threads[t := pc])
  {
    if cs == [] {
      sched := [];
      assert s.threads[t := s.threads[t]] == s.threads;
    } else {
      var n := |cs| - 1;
      var first := AloneRuns(s, t, cs[..n]);
      var last := [(t, cs[n])];
      RunCat(s, first, last);
      var r := Run(s, first);
      assert last[1..] == [] && Run(r, last) == Step(r, t, cs[n]);
      sched := first + last;
    }
  }

  /** One node, with value `v`, after `n` pushes. It is on the stack ... */
  function OnStack(n: nat, v: Data, log: seq<Event>): Memory
    requires n > 0
  {
    Memory(List(Word(0, (n - 1) % TAGS), map[1 := 0], [], n - 1),
           List(Word(1, n % TAGS), map[1 := 0], [1], n), map[1 := v], log)
  }

  /** ... or has just been taken off it ... */
  function OffStack(n: nat, v: Data, log: seq<Event>): Memory
    requires n > 0
  {
    OnStack(n, v, log).(stack := List(Word(0, n % TAGS), map[1 := 0], [], n))
  }

  /** ... or is on the pool's free list ... */
  function InPool(n: nat, v: Data, log: seq<Event>): Memory
    requires n > 0
  {
    OffStack(n, v, log).(pool := List(Word(1, n % TAGS), map[1 := 0], [1], n))
  }

  /** ... or has just been allocated. */
  function OffPool(n: nat, v: Data, log: seq<Event>): Memory {
    Memory(List(Word(0, n % TAGS), map[1 := 0], [], n), List(Word(0, n % TAGS), map[1 := 0], [], n),
           map[1 := v], log)
  }

  /** Pop up to its exchange. */
  lemma PopReads(n: nat, v: Data, log: seq<Event>) returns (cs: seq<Choice>)
    requires n > 0
    ensures Alone(OnStack(n, v, log), Idle, cs) == (OnStack(n, v, log), PopCas(Word(1, n % TAGS), n, v, 0))
  {
    var m := OnStack(n, v, log);
    cs := Then(m, Idle, [], Pop);
    cs := Then(m, Idle, cs, Pop);
    cs := Then(m, Idle, cs, Pop);
    cs := Then(m, Idle, cs, Pop);
  }

  /** Its exchange. */
  lemma PopTakes(n: nat, v: Data, log: seq<Event>) returns (cs: seq<Choice>)
    requires n > 0
    ensures Alone(OnStack(n, v, log), PopCas(Word(1, n % TAGS), n, v, 0), cs) ==
            (OffStack(n, v, log + [Popped(v)]), FreeRead(v, 1))
  {
    assert [1 as nat][1..] == [];
    cs := Then(OnStack(n, v, log), PopCas(Word(1, n % TAGS), n, v, 0), [], Pop);
  }

  /** The rest of Pop. */
  lemma PopFrees(n: nat, v: Data, log: seq<Event>) returns (cs: seq<Choice>)
    requires n > 0
    ensures Alone(OffStack(n, v, log), FreeRead(v, 1), cs) == (InPool(n, v, log), Idle)
  {
    var m, pc, snap := OffStack(n, v, log), FreeRead(v, 1), Word(0, (n - 1) % TAGS);
    assert SetLink(m.pool, 1, 0) == m.pool;
    assert TryPush(m.pool, snap, 1) == InPool(n, v, log).pool by {
      TagAfterPush(n - 1);
      assert [1] + m.pool.chain == [1];
    }
    cs := Then(m, pc, [], Pop);
    cs := Then(m, pc, cs, Pop);
    assert Alone(m, pc, cs) == (m, FreeCas(v, 1, snap));
    cs := Then(m, pc, cs, Pop);
    cs := Then(m, pc, cs, Pop);
  }

  /** Push, as far as the pool goes. */
  lemma PushTakes(n: nat, v: Data, log: seq<Event>, d: Data) returns (cs: seq<Choice>)
    requires n > 0
    ensures Alone(InPool(n, v, log), Idle, cs) == (OffPool(n, v, log), SetData(d, 1))
  {
    var m := InPool(n, v, log);
    cs := Then(m, Idle, [], Push(d));
    cs := Then(m, Idle, cs, Pop);
    cs := Then(m, Idle, cs, Pop);
    assert Alone(m, Idle, cs) == (m, AllocCas(d, Word(1, n % TAGS), 0, n));
    cs := Then(m, Idle, cs, Pop);
  }

  /** The rest of Push. */
  lemma PushPuts(n: nat, v: Data, log: seq<Event>, d: Data) returns (cs: seq<Choice>)
    ensures Alone(OffPool(n, v, log), SetData(d, 1), cs) == (OnStack(n + 1, d, log + [Pushed(d)]), Idle)
  {
    var m, pc, snap := OffPool(n, d, log), SetData(d, 1), Word(0, n % TAGS);
    var m0 := OffPool(n, v, log);
    assert m0.data[1 := d] == m.data && SetLink(m.stack, 1, 0) == m.stack;
    assert TryPush(m.stack, snap, 1) == OnStack(n + 1, d, log).stack by {
      TagAfterPush(n);
      assert [1] + m.stack.chain == [1];
    }
    cs := Then(m0, pc, [], Pop);
    assert Alone(m0, pc, cs) == (m, PushRead(d, 1));
    cs := Then(m0, pc, cs, Pop);
    cs := Then(m0, pc, cs, Pop);
    assert Alone(m0, pc, cs) == (m, PushCas(d, 1, snap));
    cs := Then(m0, pc, cs, Pop);
  }

  /** A whole Pop and a whole Push: the same node is on the stack again. */
  lemma PopAndPush(n: nat, v: Data, log: seq<Event>, d: Data) returns (cs: seq<Choice>)
    requires n > 0
    ensures Alone(OnStack(n, v, log), Idle, cs) ==
            (OnStack(n + 1, d, log + [Popped(v)] + [Pushed(d)]), Idle)
  {
    var m, log1 := OnStack(n, v, log), log + [Popped(v)];
    var a := PopReads(n, v, log);
    var b := PopTakes(n, v, log);
    AloneCat(m, Idle, a, b);
    var f := PopFrees(n, v, log1);
    AloneCat(m, Idle, a + b, f);
    var x := PushTakes(n, v, log1, d);
    AloneCat(m, Idle, a + b + f, x);
    var y := PushPuts(n, v, log1, d);
    AloneCat(m, Idle, a + b + f + x, y);
    cs := a + b + f + x + y;
  }

  lemma ReplayBoth(log: seq<Event>, v: Data, d: Data)
    requires Replay(log) == Some([v])
    ensures Replay(log + [Popped(v)] + [Pushed(d)]) == Some([d])
  {
    ReplayAppend(log, Popped(v));
    assert [v][1..] == [] && [d] + [] == [d];
    ReplayAppend(log + [Popped(v)], Pushed(d));
  }

  /** How often value 0 was pushed and popped. */
  predicate Zeros(log: seq<Event>, pushed: nat, popped: nat) {
    multiset(log)[Pushed(0)] == pushed && multiset(log)[Popped(0)] == popped
  }

  lemma ZerosBoth(log: seq<Event>, v: Data)
    requires Zeros(log, 1, if v == 0 then 0 else 1)
    ensures Zeros(log + [Popped(v)] + [Pushed(1)], 1, 1)
  {
    assert multiset(log + [Popped(v)] + [Pushed(1)]) == multiset(log) + multiset([Popped(v)]) + multiset([Pushed(1)]);
  }

  /** The choices lead from `n` pushes to `n'`, with value 1 on the stack. */
  predicate Cycled(n: nat, log: seq<Event>, cs: seq<Choice>, n': nat, log': seq<Event>)
    requires n > 0 && n' > 0
  {
    Alone(OnStack(n, 1, log), Idle, cs) == (OnStack(n', 1, log'), Idle)
  }

  lemma CycledCat(
      n: nat, log: seq<Event>, a: seq<Choice>, n1: nat, log1: seq<Event>, b: seq<Choice>, n2: nat, log2: seq<Event>)
    requires n > 0 && n1 > 0 && n2 > 0 && Cycled(n, log, a, n1, log1) && Cycled(n1, log1, b, n2, log2)
    ensures Cycled(n, log, a + b, n2, log2)
  {
    AloneCat(OnStack(n, 1, log), Idle, a, b);
  }

  lemma {:induction false} Cycles(n: nat, end: nat, log: seq<Event>) returns (cs: seq<Choice>, log': seq<Event>)
    requires 0 < n <= end && Replay(log) == Some([1]) && Zeros(log, 1, 1)
    ensures Cycled(n, log, cs, end, log') && Replay(log') == Some([1]) && Zeros(log', 1, 1)
    decreases end - n
  {
    if n == end {
      cs, log' := [], log;
    } else {
      var log1 := log + [Popped(1)] + [Pushed(1)];
      var first := PopAndPush(n, 1, log, 1);
      ReplayBoth(log, 1, 1);
      ZerosBoth(log, 1);
      var rest;
      rest, log' := Cycles(n + 1, end, log1);
      CycledCat(n, log, first, n + 1, log1, rest, end, log');
      cs := first + rest;
    }
  }

  /** A stack and a pool without nodes, and two threads. */
  function Empty(): State {
    State(Memory(List(Word(0, 0), map[], [], 0), List(Word(0, 0), map[], [], 0), map[], []), [Idle, Idle])
  }

  /** Thread 1 pushes 0, on a new node. */
  lemma PushZero() returns (sched: Schedule)
    ensures Run(Empty(), sched) == State(OnStack(1, 0, [Pushed(0)]), [Idle, Idle])
  {
    var m := Empty().m;
    var a := Then(m, Idle, [], Push(0));
    a := Then(m, Idle, a, Fresh(1));
    assert Alone(m, Idle, a) == (OffPool(0, 0, []), SetData(0, 1));
    var b := PushPuts(0, 0, [], 0);
    AloneCat(m, Idle, a, b);
    assert [] + [Pushed(0)] == [Pushed(0)];
    sched := AloneRuns(Empty(), 1, a + b);
  }

  /** Thread 0 has begun to pop the 0; meanwhile thread 1 pops it and then pushes and pops 1 until 2^17
      pushes have succeeded. */
  lemma Overtaken() returns (sched: Schedule, log: seq<Event>)
    ensures Run(Empty(), sched) == State(OnStack(1 + TAGS, 1, log), [PopCas(Word(1, 1), 1, 0, 0), Idle])
    ensures Replay(log) == Some([1]) && Zeros(log, 1, 1)
  {
    var log0 := [Pushed(0)];
    var p0 := PushZero();
    var s0 := Run(Empty(), p0);
    var begin := PopReads(1, 0, log0);
    var p1 := AloneRuns(s0, 0, begin);
    var s1 := Run(s0, p1);
    var first := PopAndPush(1, 0, log0, 1);
    var log1 := log0 + [Popped(0)] + [Pushed(1)];
    ReplayAppend([], Pushed(0));
    assert [] + log0 == log0 && [0] + [] == [0 as Data];
    ReplayBoth(log0, 0, 1);
    ZerosBoth(log0, 0);
    var rest;
    rest, log := Cycles(2, 1 + TAGS, log1);
    AloneCat(OnStack(1, 0, log0), Idle, first, rest);
    var p2 := AloneRuns(s1, 1, first + rest);
    RunCat(Empty(), p0, p1);
    RunCat(Empty(), p0 + p1, p2);
    sched := p0 + p1 + p2;
  }

  /** Thread 0's exchange succeeds. */
  lemma StaleExchange(log: seq<Event>)
    ensures
      var s := State(OnStack(1 + TAGS, 1, log), [PopCas(Word(1, 1), 1, 0, 0), Idle]);
      Step(s, 0, Pop).m.log == log + [Popped(0)]
  {
  }

  /** The bound is sharp. In the reachable state `s` exactly 2^17 pushes have succeeded since thread 0 read
      the top word; its exchange succeeds, and the 0 that was pushed once has been popped twice. */
  lemma TagWrapBreaks() returns (sched: Schedule, s: State)
    ensures Initial(Empty()) && s == Run(Empty(), sched)
    ensures s.threads == [PopCas(Word(1, 1), 1, 0, 0), Idle] && s.m.stack.pushes == 1 + TAGS
    ensures Replay(s.m.log) == Some([1])
    ensures var r := Step(s, 0, Pop); Replay(r.m.log).None? && Zeros(r.m.log, 1, 2)
  {
    var log;
    sched, log := Overtaken();
    s := Run(Empty(), sched);
    StaleExchange(log);
    ReplayAppend(log, Popped(0));
  }
}

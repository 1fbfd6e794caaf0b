/** A posted SendExecutable holds no reference (src/NormalIOCP.cpp: SendPacket), so the session it was posted
    for can be released and its slot given to another one before it runs: `SendGate` stops where a lifetime
    ends, and here is what the completion meets in the next one. */
module StalePost {
  import opened Wrappers
  import opened SendGate

  /** Reset and accept: a new session with empty queues; completions stay in the completion port. */
  function NextLifetime(ss: Session): Session {
    Session(true, false, false, [], 0, ss.sendingQ, 0, ss.posted, None, [], [], 0, false, false)
  }

  lemma {:induction false} Then(s: State, sched: Schedule, c: Choice, r: State) returns (more: Schedule)
    requires Step(Run(s, sched), 0, c) == r
    ensures Run(s, more) == r
    decreases |sched|
  {
    if sched == [] {
      more := [(0, c)];
      assert more[1..] == [];
    } else {
      var rest := Then(Step(s, sched[0].0, sched[0].1), sched[1..], c, r);
      more := [sched[0]] + rest;
      assert more[1..] == rest;
    }
  }

  /** One thread, and a session in the given state of the gate. */
  function One(q: seq<Buf>, queue: seq<Entry>, sending: bool, posted: nat, pc: Pc): State {
    State(Session(true, false, sending, queue, 0, q, 0, posted, None, [], [], 0, false, false), [pc])
  }

  lemma ReachExchange(q: seq<Buf>, b: Buf) returns (sched: Schedule)
    ensures Run(One(q, [], false, 0, Idle), sched) == One(q, [Ready(b)], false, 0, CsExchange(ToPost))
  {
    var s := One(q, [], false, 0, Idle);
    assert [] + [Taken] == [Taken] && [Taken][0 := Ready(b)] == [Ready(b)];
    sched := Then(s, [], SendPacket(b), One(q, [], false, 0, Enqueue(b, ToPost)));
    sched := Then(s, sched, Succeeds, One(q, [Taken], false, 0, Publish(0, b, ToPost)));
    sched := Then(s, sched, Succeeds, One(q, [Ready(b)], false, 0, CsConnect(ToPost)));
    sched := Then(s, sched, Succeeds, One(q, [Ready(b)], false, 0, CsFlag(ToPost)));
    sched := Then(s, sched, Succeeds, One(q, [Ready(b)], false, 0, CsHead(ToPost)));
    sched := Then(s, sched, Succeeds, One(q, [Ready(b)], false, 0, CsTail(ToPost, 0)));
    sched := Then(s, sched, Succeeds, One(q, [Ready(b)], false, 0, CsExchange(ToPost)));
  }

  /** A whole SendPacket. */
  lemma ReachPosted(q: seq<Buf>, b: Buf) returns (sched: Schedule)
    ensures Run(One(q, [], false, 0, Idle), sched) == One(q, [Ready(b)], true, 1, Idle)
  {
    var s := One(q, [], false, 0, Idle);
    sched := ReachExchange(q, b);
    sched := Then(s, sched, Succeeds, One(q, [Ready(b)], true, 0, CsHead2(ToPost)));
    sched := Then(s, sched, Succeeds, One(q, [Ready(b)], true, 0, CsTail2(ToPost, 0)));
    sched := Then(s, sched, Succeeds, One(q, [Ready(b)], true, 0, Post));
    sched := Then(s, sched, Succeeds, One(q, [Ready(b)], true, 1, Idle));
  }

  /** After one SendPacket nobody is inside the session and its SendExecutable is posted. If the slot changes
      hands before that runs, RealSend finds the next session's queue empty, which is a `__debugbreak`. */
  lemma StalePostBreaks(q: seq<Buf>, b: Buf) returns (s: State, sched: Schedule, next: Schedule)
    requires |q| == MAX_SEND_COUNT
    ensures Initial(s)
    ensures
      var r := Run(s, sched);
      && r.agents == [Idle] && r.ss.posted == 1
      && Run(State(NextLifetime(r.ss), r.agents), next).ss.broken
  {
    s := One(q, [], false, 0, Idle);
    sched := ReachPosted(q, b);
    var t := One(q, [], false, 1, Idle);
    next := Then(t, [], RunPosted, One(q, [], false, 0, RsInc));
    next := Then(t, next, Succeeds, One(q, [], false, 0, RsSize));
    var last := One(q, [], false, 0, RsSize);
    next := Then(t, next, Succeeds, last.(ss := last.ss.(broken := true)));
  }
}

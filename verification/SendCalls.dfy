/** What the calls of the send path answer and do (`SendGate`): CanSend in every interleaving; SendPacket, RealSend and
    a completion when nobody disturbs them. */
module SendCalls {
  import opened Agents
  import opened Wrappers
  import opened SendGate

  // ---------------------------------------------------------------- CanSend in every interleaving

  /** During the run agent `a` makes no step outside CanSend. */
  predicate Within(s: State, sched: Schedule, a: nat)
    decreases |sched|
  {
    sched != [] ==>
      && (sched[0].0 == a ==> a < |s.agents| && InGate(s.agents[a]))
      && Within(Step(s, sched[0].0, sched[0].1), sched[1..], a)
  }

  /** Its steps leave the session as it is. */
  predicate Silent(s: State, sched: Schedule, a: nat)
    decreases |sched|
  {
    sched != [] ==>
      var s' := Step(s, sched[0].0, sched[0].1);
      (sched[0].0 == a ==> s'.ss == s.ss) && Silent(s', sched[1..], a)
  }

  function Own(sched: Schedule, a: nat): nat {
    if sched == [] then 0 else Bit(sched[0].0 == a) + Own(sched[1..], a)
  }

  /** A session never connects again, and its flag is not taken away within the lifetime. */
  lemma ClosedStays(s: State, b: nat, c: Choice)
    ensures !s.ss.connected ==> !Step(s, b, c).ss.connected
    ensures s.ss.flagged ==> Step(s, b, c).ss.flagged
  {
    if b < |s.agents| && !s.ss.broken {
      LocalCloses(s.ss, s.agents[b], c);
    }
  }

  lemma LocalCloses(ss: Session, pc: Pc, c: Choice)
    ensures !ss.connected ==> !Local(ss, pc, c).0.connected
    ensures ss.flagged ==> Local(ss, pc, c).0.flagged
  {
  }

  lemma OthersMove(s: State, b: nat, c: Choice, a: nat)
    requires a < |s.agents| && b != a
    ensures |Step(s, b, c).agents| == |s.agents| && Step(s, b, c).agents[a] == s.agents[a]
  {
  }

  /** CanSend on its way to a refusal, and the steps it makes until then. */
  predicate Refused(ss: Session, pc: Pc) {
    pc.Idle? || (pc.CsConnect? && (!ss.connected || ss.flagged)) || (pc.CsFlag? && ss.flagged)
  }

  function Reads(ss: Session, pc: Pc): nat {
    if pc.CsConnect? then (if ss.connected then 2 else 1) else if pc.CsFlag? then 1 else 0
  }

  lemma {:induction false} RefusedStays(s: State, sched: Schedule, a: nat)
    requires Inv(s) && a < |s.agents| && Refused(s.ss, s.agents[a]) && Within(s, sched, a)
    ensures
      var r := Run(s, sched);
      && |r.agents| == |s.agents| && Refused(r.ss, r.agents[a]) && Silent(s, sched, a)
      && Own(sched, a) + Reads(r.ss, r.agents[a]) <= Reads(s.ss, s.agents[a])
      && (Own(sched, a) == Reads(s.ss, s.agents[a]) ==> r.agents[a] == Idle)
    decreases |sched|
  {
    if sched != [] {
      var (b, c) := sched[0];
      var s' := Step(s, b, c);
      StepInv(s, b, c);
      ClosedStays(s, b, c);
      if b == a {
        RefusedReads(s.ss, s.agents[a], c);
      } else {
        OthersMove(s, b, c, a);
      }
      RefusedStays(s', sched[1..], a);
    }
  }

  lemma RefusedReads(ss: Session, pc: Pc, c: Choice)
    requires Refused(ss, pc) && InGate(pc)
    ensures
      var (ss', pc') := Local(ss, pc, c);
      ss' == ss && Refused(ss, pc') && Reads(ss, pc') + 1 == Reads(ss, pc)
  {
  }

  /** In every interleaving a CanSend that begins when the session is disconnected or flagged changes nothing, never has
      the token, and is over after reading `_connect` and, if that is still set, the flag. */
  lemma ClosedIsRefused(s: State, sched: Schedule, a: nat)
    requires Inv(s) && a < |s.agents| && s.agents[a].CsConnect? && (!s.ss.connected || s.ss.flagged)
    requires Within(s, sched, a)
    ensures
      var r := Run(s, sched);
      && |r.agents| == |s.agents| && Silent(s, sched, a) && Own(sched, a) <= (if s.ss.connected then 2 else 1)
      && (r.agents[a].CsConnect? || r.agents[a].CsFlag? || r.agents[a] == Idle)
      && (Own(sched, a) == (if s.ss.connected then 2 else 1) ==> r.agents[a] == Idle)
  {
    RefusedStays(s, sched, a);
  }

  lemma {:induction false} ClosedForGood(s: State, sched: Schedule)
    requires Inv(s)
    ensures Inv(Run(s, sched))
    ensures !s.ss.connected ==> !Run(s, sched).ss.connected
    ensures s.ss.flagged ==> Run(s, sched).ss.flagged
    decreases |sched|
  {
    if sched != [] {
      StepInv(s, sched[0].0, sched[0].1);
      ClosedStays(s, sched[0].0, sched[0].1);
      ClosedForGood(Step(s, sched[0].0, sched[0].1), sched[1..]);
    }
  }

  lemma Closes(s: State, b: nat, how: Choice)
    requires Inv(s) && b < |s.agents| && s.agents[b] == Idle && (how.Disconnect? || how.SetReleaseFlag?)
    ensures
      var ss := Step(s, b, how).ss;
      && (how.Disconnect? ==> !ss.connected) && (how.SetReleaseFlag? ==> ss.flagged)
      && ss == s.ss.(connected := ss.connected, flagged := ss.flagged)
  {
  }

  /** So once a session has been disconnected, or its release begun, every CanSend that begins is refused. */
  lemma NoSendAfterClose(s: State, b: nat, how: Choice, before: Schedule, sched: Schedule, a: nat)
    requires Inv(s) && b < |s.agents| && s.agents[b] == Idle && (how.Disconnect? || how.SetReleaseFlag?)
    requires
      var t := Run(Step(s, b, how), before);
      a < |t.agents| && t.agents[a].CsConnect? && Within(t, sched, a)
    ensures
      var t := Run(Step(s, b, how), before);
      var r := Run(t, sched);
      && Silent(t, sched, a) && |r.agents| == |t.agents| && !Token(r.agents[a])
      && (Own(sched, a) == 2 ==> r.agents[a] == Idle)
  {
    var s1 := Step(s, b, how);
    StepInv(s, b, how);
    Closes(s, b, how);
    var t := Run(s1, before);
    ClosedForGood(s1, before);
    RefusedThen(t, sched, a);
  }

  lemma RefusedThen(t: State, sched: Schedule, a: nat)
    requires Inv(t) && a < |t.agents| && t.agents[a].CsConnect? && (!t.ss.connected || t.ss.flagged)
    requires Within(t, sched, a)
    ensures
      var r := Run(t, sched);
      && Silent(t, sched, a) && |r.agents| == |t.agents| && !Token(r.agents[a])
      && (Own(sched, a) == 2 ==> r.agents[a] == Idle)
  {
    ClosedIsRefused(t, sched, a);
  }

  /** Some state of the run satisfies `p`. */
  ghost predicate Sometime(s: State, sched: Schedule, p: Session -> bool)
    decreases |sched|
  {
    p(s.ss) || (sched != [] && Sometime(Step(s, sched[0].0, sched[0].1), sched[1..], p))
  }

  /** At some step of the run agent `a` finds the token free and takes it. */
  predicate Takes(s: State, sched: Schedule, a: nat)
    decreases |sched|
  {
    sched != [] &&
      var s' := Step(s, sched[0].0, sched[0].1);
      || (sched[0].0 == a && !s.ss.isSending && s'.ss.isSending)
      || Takes(s', sched[1..], a)
  }

  function Unflagged(): Session -> bool {
    (ss: Session) => !ss.flagged
  }

  /** A reason to refuse. */
  function NothingToDo(): Session -> bool {
    (ss: Session) => !ss.connected || ss.flagged || ss.isSending || !HasWork(ss)
  }

  predicate SaysYes(pc: Pc) {
    pc.Post? || pc.RsInc?
  }

  lemma GateTakes(ss: Session, pc: Pc, c: Choice)
    requires InGate(pc)
    ensures
      var (ss', pc') := Local(ss, pc, c);
      && (pc.CsConnect? && !pc'.Idle? ==> ss.connected && pc'.CsFlag?)
      && (pc.CsFlag? && !pc'.Idle? ==> !ss.flagged && pc'.CsHead?)
      && (pc.CsHead? ==> pc'.CsTail?) && (pc.CsTail? && !pc'.Idle? ==> pc'.CsExchange?)
      && (pc.CsExchange? && !pc'.Idle? ==> !ss.isSending && ss'.isSending && pc'.CsHead2?)
      && (pc.CsHead2? ==> pc'.CsTail2?) && (pc.CsTail2? ==> pc'.CsStore? || SaysYes(pc'))
      && (pc.CsStore? ==> pc'.CsFlag?)
  {
  }

  /** The token was taken before these places. */
  predicate Took(pc: Pc) {
    pc.CsHead2? || pc.CsTail2? || SaysYes(pc)
  }

  lemma {:induction false} YesRun(s: State, sched: Schedule, a: nat)
    requires Inv(s) && a < |s.agents| && (InGate(s.agents[a]) || s.agents[a].Idle? || SaysYes(s.agents[a]))
    requires Within(s, sched, a)
    ensures |Run(s, sched).agents| == |s.agents| && Inv(Run(s, sched))
    ensures
      var pc := s.agents[a];
      SaysYes(Run(s, sched).agents[a]) ==>
        && !pc.Idle? && (pc.CsConnect? ==> s.ss.connected)
        && (pc.CsConnect? || pc.CsFlag? ==> Sometime(s, sched, Unflagged()))
        && (Took(pc) || Takes(s, sched, a))
    decreases |sched|
  {
    if sched != [] {
      var (b, c) := sched[0];
      var s' := Step(s, b, c);
      StepInv(s, b, c);
      ClosedStays(s, b, c);
      if b == a {
        GateTakes(s.ss, s.agents[a], c);
      } else {
        OthersMove(s, b, c, a);
      }
      YesRun(s', sched[1..], a);
    }
  }

  /** In every interleaving: when CanSend says yes the session was connected when it began and unflagged later, this
      thread found the token free and took it, and has it still, and the queue is not empty. */
  lemma YesIsRight(s: State, sched: Schedule, a: nat)
    requires Inv(s) && a < |s.agents| && s.agents[a].CsConnect? && Within(s, sched, a)
    requires a < |Run(s, sched).agents| && SaysYes(Run(s, sched).agents[a])
    ensures s.ss.connected && Sometime(s, sched, Unflagged()) && Takes(s, sched, a)
    ensures Run(s, sched).ss.isSending && HasWork(Run(s, sched).ss)
  {
    YesRun(s, sched, a);
    var r := Run(s, sched);
    CountOne(r.agents, a, Token);
    assert AgentOk(r.ss, r.agents[a]);
  }

  lemma GateRefuses(ss: Session, pc: Pc, c: Choice)
    requires ss.head <= |ss.queue| && (pc.CsTail? ==> pc.h <= ss.head)
    requires InGate(pc) && Local(ss, pc, c).1.Idle?
    ensures NothingToDo()(ss)
  {
    var p := NothingToDo();
    assert !ss.connected || ss.flagged || ss.isSending || !HasWork(ss);
    assert p(ss);
  }

  lemma {:induction false} NoRun(s: State, sched: Schedule, a: nat)
    requires Inv(s) && a < |s.agents| && Within(s, sched, a)
    ensures |Run(s, sched).agents| == |s.agents|
    ensures InGate(s.agents[a]) && Run(s, sched).agents[a].Idle? ==> Sometime(s, sched, NothingToDo())
    ensures !InGate(s.agents[a]) ==> Run(s, sched).agents[a] == s.agents[a]
    decreases |sched|
  {
    if sched != [] {
      var (b, c) := sched[0];
      StepInv(s, b, c);
      if b == a {
        assert AgentOk(s.ss, s.agents[a]);
        if Local(s.ss, s.agents[a], c).1.Idle? {
          GateRefuses(s.ss, s.agents[a], c);
        } else {
          GateTakes(s.ss, s.agents[a], c);
        }
      } else {
        OthersMove(s, b, c, a);
      }
      NoRun(Step(s, b, c), sched[1..], a);
    }
  }

  /** ... and when it says no there was a reason at some moment of the call: not connected, flagged, nothing queued, or
      somebody had the token. */
  lemma NoIsRight(s: State, sched: Schedule, a: nat)
    requires Inv(s) && a < |s.agents| && s.agents[a].CsConnect? && Within(s, sched, a)
    requires a < |Run(s, sched).agents| && Run(s, sched).agents[a].Idle?
    ensures Sometime(s, sched, NothingToDo())
  {
    NoRun(s, sched, a);
  }

  // ---------------------------------------------------------------- operations left alone

  /** Steps of one agent only. */
  predicate Of(sched: Schedule, a: nat) {
    forall k :: 0 <= k < |sched| ==> sched[k].0 == a
  }

  lemma {:induction false} Then(s: State, sched: Schedule, a: nat, c: Choice, r: State) returns (more: Schedule)
    requires Of(sched, a) && Step(Run(s, sched), a, c) == r
    ensures Of(more, a) && Run(s, more) == r
    decreases |sched|
  {
    if sched == [] {
      more := [(a, c)];
      assert more[1..] == [];
    } else {
      var rest := Then(Step(s, sched[0].0, sched[0].1), sched[1..], a, c, r);
      more := [sched[0]] + rest;
      assert more[1..] == rest;
    }
  }

  /** The session `ss`, with agent `a` at `pc` and the others where they are. */
  function Put(agents: seq<Pc>, a: nat, ss: Session, pc: Pc): State
    requires a < |agents|
  {
    State(ss, agents[a := pc])
  }

  lemma Goes(
      s: State, sched: Schedule, agents: seq<Pc>, a: nat, ss: Session, pc: Pc, c: Choice, ss': Session, pc': Pc)
      returns (more: Schedule)
    requires a < |agents| && Of(sched, a) && Run(s, sched) == Put(agents, a, ss, pc)
    requires !ss.broken && Local(ss, pc, c) == (ss', pc')
    ensures Of(more, a) && Run(s, more) == Put(agents, a, ss', pc')
  {
    assert agents[a := pc][a := pc'] == agents[a := pc'];
    more := Then(s, sched, a, c, Put(agents, a, ss', pc'));
  }

  /** CanSend left alone: what it answers, and the token. */
  function Asked(ss: Session): Session {
    if NothingToDo()(ss) then ss else ss.(isSending := true)
  }

  function Answer(ss: Session, k: Then): Pc {
    if NothingToDo()(ss) then Idle else if k.ToPost? then Post else RsInc
  }

  lemma CanSendBegins(s: State, sched: Schedule, agents: seq<Pc>, a: nat, ss: Session, k: Then, c: Choice)
      returns (more: Schedule)
    requires a < |agents| && Of(sched, a) && Run(s, sched) == Put(agents, a, ss, CsConnect(k))
    requires !ss.broken && ss.head <= |ss.queue|
    ensures Of(more, a)
    ensures
      var go := ss.connected && !ss.flagged && HasWork(ss);
      Run(s, more) == Put(agents, a, ss, if go then CsExchange(k) else Idle)
  {
    more := Goes(s, sched, agents, a, ss, CsConnect(k), c, ss, if ss.connected then CsFlag(k) else Idle);
    if ss.connected {
      more := Goes(s, more, agents, a, ss, CsFlag(k), c, ss, if ss.flagged then Idle else CsHead(k));
      if !ss.flagged {
        more := Goes(s, more, agents, a, ss, CsHead(k), c, ss, CsTail(k, ss.head));
        more := Goes(s, more, agents, a, ss, CsTail(k, ss.head), c, ss, if HasWork(ss) then CsExchange(k) else Idle);
      }
    }
  }

  lemma CanSendAlone(s: State, sched: Schedule, agents: seq<Pc>, a: nat, ss: Session, k: Then, c: Choice)
      returns (more: Schedule)
    requires a < |agents| && Of(sched, a) && Run(s, sched) == Put(agents, a, ss, CsConnect(k))
    requires !ss.broken && ss.head <= |ss.queue|
    ensures Of(more, a) && Run(s, more) == Put(agents, a, Asked(ss), Answer(ss, k))
  {
    more := CanSendBegins(s, sched, agents, a, ss, k, c);
    if ss.connected && !ss.flagged && HasWork(ss) {
      var held := ss.(isSending := true);
      more := Goes(s, more, agents, a, ss, CsExchange(k), c, held, if ss.isSending then Idle else CsHead2(k));
      if !ss.isSending {
        more := Goes(s, more, agents, a, held, CsHead2(k), c, held, CsTail2(k, ss.head));
        more := Goes(s, more, agents, a, held, CsTail2(k, ss.head), c, held, if k.ToPost? then Post else RsInc);
      }
    }
  }

  /** The first half of SendPacket: the buffer is queued. */
  lemma QueuesAlone(s: State, a: nat, b: Buf, k: Then, c: Choice) returns (sched: Schedule)
    requires Inv(s) && a < |s.agents| && s.agents[a] == Idle
    requires c == if k.ToPost? then SendPacket(b) else SendPacketBlocking(b)
    ensures Of(sched, a)
    ensures Run(s, sched) == Put(s.agents, a, s.ss.(queue := s.ss.queue + [Ready(b)]), CsConnect(k))
  {
    var ss, t := s.ss, |s.ss.queue|;
    var taken, queued := ss.(queue := ss.queue + [Taken]), ss.(queue := ss.queue + [Ready(b)]);
    assert s == Put(s.agents, a, ss, Idle);
    assert taken.queue[t := Ready(b)] == queued.queue;
    sched := Goes(s, [], s.agents, a, ss, Idle, c, ss, Enqueue(b, k));
    sched := Goes(s, sched, s.agents, a, ss, Enqueue(b, k), c, taken, Publish(t, b, k));
    sched := Goes(s, sched, s.agents, a, taken, Publish(t, b, k), c, queued, CsConnect(k));
  }

  /** SendPacket left alone: the buffer is queued, and a send is posted if the session is open and nobody sends;
      SendPacketBlocking goes on into RealSend instead. */
  lemma SendPacketAlone(s: State, a: nat, b: Buf, k: Then) returns (sched: Schedule)
    requires Inv(s) && a < |s.agents| && s.agents[a] == Idle
    ensures Of(sched, a)
    ensures
      var queued := s.ss.(queue := s.ss.queue + [Ready(b)]);
      var go := s.ss.connected && !s.ss.flagged && !s.ss.isSending;
      Run(s, sched) == Put(s.agents, a,
        if !go then queued
        else if k.ToPost? then queued.(isSending := true, posted := s.ss.posted + 1)
        else queued.(isSending := true),
        if go && k.ToSend? then RsInc else Idle)
  {
    var c := if k.ToPost? then SendPacket(b) else SendPacketBlocking(b);
    var queued := s.ss.(queue := s.ss.queue + [Ready(b)]);
    sched := QueuesAlone(s, a, b, k, c);
    sched := CanSendAlone(s, sched, s.agents, a, queued, k, c);
    if Answer(queued, k) == Post {
      var held := queued.(isSending := true);
      sched := Goes(s, sched, s.agents, a, held, Post, c, held.(posted := held.posted + 1), Idle);
    }
  }

  /** The buffers that are ready at the front of the queue, at most `max`. */
  function Batch(q: seq<Entry>, max: nat): (r: seq<Buf>)
    ensures |r| <= max && |r| <= |q|
    decreases |q|
  {
    if max == 0 || q == [] || !q[0].Ready? then [] else [q[0].b] + Batch(q[1..], max - 1)
  }

  /** `ss` with the batch `w` off the queue and in `_sendingQ`, behind the first `n`. */
  function Loaded(ss: Session, n: nat, w: seq<Buf>): Session
    requires n + |w| <= |ss.sendingQ|
  {
    ss.(sendingQ := ss.sendingQ[..n] + w + ss.sendingQ[n + |w|..], head := ss.head + |w|)
  }

  lemma LoadOne(ss: Session, n: nat, w: seq<Buf>)
    requires |w| > 0 && n + |w| <= |ss.sendingQ|
    ensures Loaded(ss.(sendingQ := ss.sendingQ[n := w[0]], head := ss.head + 1), n + 1, w[1..]) == Loaded(ss, n, w)
  {
  }

  /** The end of the batch. */
  lemma DequeueEnds(ss: Session, n: nat, c: Choice)
    requires ss.head <= |ss.queue| && 0 < n <= MAX_SEND_COUNT == |ss.sendingQ|
    requires Batch(ss.queue[ss.head..], MAX_SEND_COUNT - n) == []
    ensures Local(ss, RsDequeue(n), c) == (ss, RsCount(n)) && Loaded(ss, n, []) == ss
  {
  }

  /** One more buffer. */
  lemma DequeueOne(ss: Session, n: nat, w: seq<Buf>, c: Choice)
    requires ss.head <= |ss.queue| && n <= MAX_SEND_COUNT == |ss.sendingQ|
    requires w == Batch(ss.queue[ss.head..], MAX_SEND_COUNT - n) && w != []
    ensures n < MAX_SEND_COUNT && ss.head < |ss.queue|
    ensures
      var ss' := ss.(sendingQ := ss.sendingQ[n := w[0]], head := ss.head + 1);
      && Local(ss, RsDequeue(n), c) == (ss', RsDequeue(n + 1))
      && Batch(ss'.queue[ss'.head..], MAX_SEND_COUNT - (n + 1)) == w[1..]
  {
    assert ss.queue[ss.head..][1..] == ss.queue[ss.head + 1..];
  }

  lemma {:induction false} DequeueAlone(
      s: State, sched: Schedule, agents: seq<Pc>, a: nat, ss: Session, n: nat, w: seq<Buf>, end: Session, c: Choice)
      returns (more: Schedule)
    requires a < |agents| && Of(sched, a) && Run(s, sched) == Put(agents, a, ss, RsDequeue(n))
    requires !ss.broken && ss.head <= |ss.queue| && n <= MAX_SEND_COUNT == |ss.sendingQ|
    requires w == Batch(ss.queue[ss.head..], MAX_SEND_COUNT - n) && n + |w| > 0 && end == Loaded(ss, n, w)
    ensures Of(more, a) && Run(s, more) == Put(agents, a, end, RsCount(n + |w|))
    decreases |w|
  {
    if w == [] {
      DequeueEnds(ss, n, c);
      more := Goes(s, sched, agents, a, ss, RsDequeue(n), c, ss, RsCount(n));
    } else {
      DequeueOne(ss, n, w, c);
      LoadOne(ss, n, w);
      var ss' := ss.(sendingQ := ss.sendingQ[n := w[0]], head := ss.head + 1);
      more := Goes(s, sched, agents, a, ss, RsDequeue(n), c, ss', RsDequeue(n + 1));
      more := DequeueAlone(s, more, agents, a, ss', n + 1, w[1..], end, c);
    }
  }

  /** RealSend of an unflagged session up to the first Dequeue, and up to WSASend. */
  lemma RealSendBegins(s: State, sched: Schedule, agents: seq<Pc>, a: nat, ss: Session, c: Choice)
      returns (more: Schedule)
    requires a < |agents| && Of(sched, a) && Run(s, sched) == Put(agents, a, ss, RsInc) && !ss.flagged
    requires !ss.broken && HasWork(ss)
    ensures Of(more, a) && Run(s, more) == Put(agents, a, ss, RsDequeue(0))
  {
    more := Goes(s, sched, agents, a, ss, RsInc, c, ss, RsSize);
    more := Goes(s, more, agents, a, ss, RsSize, c, ss, RsDequeue(0));
  }

  lemma LoadAlone(s: State, sched: Schedule, agents: seq<Pc>, a: nat, ss: Session, w: seq<Buf>, c: Choice)
      returns (more: Schedule)
    requires a < |agents| && Of(sched, a) && Run(s, sched) == Put(agents, a, ss, RsDequeue(0))
    requires !ss.broken && |ss.sendingQ| == MAX_SEND_COUNT && ss.head <= |ss.queue|
    requires w == Batch(ss.queue[ss.head..], MAX_SEND_COUNT) && w != []
    ensures Of(more, a)
    ensures Run(s, more) == Put(agents, a, Loaded(ss, 0, w).(dataNotSend := |w|), RsSend(|w|))
  {
    var loaded := Loaded(ss, 0, w);
    more := DequeueAlone(s, sched, agents, a, ss, 0, w, loaded, c);
    more := Goes(s, more, agents, a, loaded, RsCount(|w|), c, loaded.(dataNotSend := |w|), RsSend(|w|));
  }

  /** RealSend left alone: of a flagged session it sends nothing; otherwise all buffers that are ready, 512 at most, go
      to the socket in queue order, or, if the send fails, nothing does. */
  lemma RealSendAlone(s: State, sched: Schedule, agents: seq<Pc>, a: nat, ss: Session, succeeds: bool)
      returns (more: Schedule)
    requires a < |agents| && Of(sched, a) && Run(s, sched) == Put(agents, a, ss, RsInc)
    requires !ss.broken && |ss.sendingQ| == MAX_SEND_COUNT && HasWork(ss) && ss.queue[ss.head].Ready?
    ensures Of(more, a)
    ensures
      var w := Batch(ss.queue[ss.head..], MAX_SEND_COUNT);
      var sent := Loaded(ss, 0, w).(dataNotSend := |w|);
      Run(s, more) == Put(agents, a,
        if ss.flagged then ss.(lost := ss.lost + 1)
        else if succeeds then sent.(outstanding := Some(w), wire := ss.wire + w)
        else sent.(failed := true, lost := ss.lost + 1),
        Idle)
  {
    var c := if succeeds then Succeeds else Fails;
    if ss.flagged {
      more := Goes(s, sched, agents, a, ss, RsInc, c, ss.(lost := ss.lost + 1), Idle);
    } else {
      var w := Batch(ss.queue[ss.head..], MAX_SEND_COUNT);
      var sent := Loaded(ss, 0, w).(dataNotSend := |w|);
      assert sent.sendingQ[..|w|] == w;
      more := RealSendBegins(s, sched, agents, a, ss, c);
      more := LoadAlone(s, more, agents, a, ss, w, c);
      var end := if succeeds then sent.(outstanding := Some(w), wire := ss.wire + w)
                 else sent.(failed := true, lost := ss.lost + 1);
      more := Goes(s, more, agents, a, sent, RsSend(|w|), c, end, Idle);
    }
  }

  /** A posted send, run alone. */
  lemma PostedAlone(s: State, a: nat, succeeds: bool) returns (sched: Schedule)
    requires Inv(s) && a < |s.agents| && s.agents[a] == Idle && s.ss.posted > 0
    requires HasWork(s.ss) ==> s.ss.queue[s.ss.head].Ready?
    ensures Of(sched, a)
    ensures
      var ss := s.ss.(posted := s.ss.posted - 1);
      var w := Batch(ss.queue[ss.head..], MAX_SEND_COUNT);
      var sent := Loaded(ss, 0, w).(dataNotSend := |w|);
      w != [] && Run(s, sched) == Put(s.agents, a,
        if ss.flagged then ss.(lost := ss.lost + 1)
        else if succeeds then sent.(outstanding := Some(w), wire := ss.wire + w)
        else sent.(failed := true, lost := ss.lost + 1),
        Idle)
  {
    var ss := s.ss.(posted := s.ss.posted - 1);
    assert s == Put(s.agents, a, s.ss, Idle);
    sched := Goes(s, [], s.agents, a, s.ss, Idle, RunPosted, ss, RsInc);
    sched := RealSendAlone(s, sched, s.agents, a, ss, succeeds);
  }

  lemma ReleaseOne(released: seq<Buf>, q: seq<Buf>, i: nat, n: nat)
    requires i < n <= |q|
    ensures (released + [q[i]]) + q[i + 1..n] == released + q[i..n]
  {
  }

  lemma {:induction false} ReleaseAlone(
      s: State, sched: Schedule, agents: seq<Pc>, a: nat, ss: Session, i: nat, c: Choice) returns (more: Schedule)
    requires a < |agents| && Of(sched, a) && Run(s, sched) == Put(agents, a, ss, PsRelease(i))
    requires !ss.broken && i <= ss.dataNotSend <= |ss.sendingQ|
    ensures Of(more, a)
    ensures Run(s, more) == Put(agents, a, ss.(released := ss.released + ss.sendingQ[i..ss.dataNotSend]), PsZero)
    decreases ss.dataNotSend - i
  {
    if i < ss.dataNotSend {
      var ss' := ss.(released := ss.released + [ss.sendingQ[i]]);
      ReleaseOne(ss.released, ss.sendingQ, i, ss.dataNotSend);
      more := Goes(s, sched, agents, a, ss, PsRelease(i), c, ss', PsRelease(i + 1));
      more := ReleaseAlone(s, more, agents, a, ss', i + 1, c);
    } else {
      assert ss.(released := ss.released + ss.sendingQ[i..ss.dataNotSend]) == ss;
      more := Goes(s, sched, agents, a, ss, PsRelease(i), c, ss, PsZero);
    }
  }

  /** A completion up to its own CanSend. */
  lemma CompletionReleases(s: State, a: nat, zero: Session) returns (sched: Schedule)
    requires Inv(s) && a < |s.agents| && s.agents[a] == Idle && s.ss.outstanding.Some?
    requires zero ==
             s.ss.(outstanding := None, released := s.ss.released + s.ss.outstanding.value, dataNotSend := 0)
    ensures Of(sched, a) && Run(s, sched) == Put(s.agents, a, zero, PsStore)
  {
    var taken := s.ss.(outstanding := None);
    var released := taken.(released := s.ss.released + s.ss.outstanding.value);
    assert s == Put(s.agents, a, s.ss, Idle);
    assert taken.sendingQ[0..taken.dataNotSend] == s.ss.outstanding.value;
    sched := Goes(s, [], s.agents, a, s.ss, Idle, Complete, taken, PsRelease(0));
    sched := ReleaseAlone(s, sched, s.agents, a, taken, 0, Complete);
    sched := Goes(s, sched, s.agents, a, released, PsZero, Complete, zero, PsStore);
  }

  /** A completion left alone: every buffer of the send is released, the token is given back, and if more is queued and
      the session is open it is taken again for the next send. */
  lemma CompletionAlone(s: State, a: nat) returns (sched: Schedule)
    requires Inv(s) && a < |s.agents| && s.agents[a] == Idle && s.ss.outstanding.Some?
    ensures Of(sched, a)
    ensures
      var ss := s.ss.(outstanding := None, released := s.ss.released + s.ss.outstanding.value, dataNotSend := 0);
      var go := ss.connected && !ss.flagged && HasWork(ss);
      Run(s, sched) == Put(s.agents, a, ss.(isSending := go), if go then RsInc else Idle)
  {
    var zero := s.ss.(outstanding := None, released := s.ss.released + s.ss.outstanding.value, dataNotSend := 0);
    var free := zero.(isSending := false);
    sched := CompletionReleases(s, a, zero);
    sched := Goes(s, sched, s.agents, a, zero, PsStore, Complete, free, CsConnect(ToSend));
    sched := CanSendAlone(s, sched, s.agents, a, free, ToSend, Complete);
  }

  /** A send that completes with an error: nothing is released, the token is given up, and from then on every CanSend
      finds it taken. */
  lemma AbortKeepsToken(s: State, a: nat)
    requires Inv(s) && a < |s.agents| && s.agents[a] == Idle && s.ss.outstanding.Some?
    ensures
      var r := Step(s, a, Abort);
      && r == s.(ss := s.ss.(outstanding := None, failed := true, lost := s.ss.lost + 1))
      && Inv(r) && r.ss.isSending && NothingToDo()(r.ss)
  {
    StepInv(s, a, Abort);
    assert s.agents[a := Idle] == s.agents;
  }

  /** The whole way: a packet sent on an open session with nothing queued and nobody sending reaches the socket, is
      released by the completion, and leaves the gate open. */
  lemma PacketGoesOut(s: State, a: nat, b: Buf) returns (sched: Schedule)
    requires Inv(s) && a < |s.agents| && s.agents[a] == Idle && s.ss.connected && !s.ss.flagged
    requires !HasWork(s.ss) && !s.ss.isSending
    ensures
      var r := Run(s, sched);
      && r.agents == s.agents && r.ss.wire == s.ss.wire + [b] && r.ss.released == s.ss.released + [b]
      && !HasWork(r.ss) && !r.ss.isSending && r.ss.posted == 0 && r.ss.outstanding.None? && r.ss.lost == 0
  {
    var x := SendPacketAlone(s, a, b, ToPost);
    var s1 := Run(s, x);
    RunInv(s, x);
    assert s1.ss.queue[s1.ss.head..] == [Ready(b)];
    assert Batch([Ready(b)], MAX_SEND_COUNT) == [b];
    assert s.agents[a := Idle] == s.agents;
    var y := PostedAlone(s1, a, true);
    var s2 := Run(s1, y);
    RunInv(s1, y);
    var z := CompletionAlone(s2, a);
    RunCat(s, x, y);
    RunCat(s, x + y, z);
    sched := x + y + z;
  }

  lemma {:induction false} RunCat(s: State, x: Schedule, y: Schedule)
    ensures Run(s, x + y) == Run(Run(s, x), y)
    decreases |x|
  {
    if x == [] {
      assert x + y == y;
    } else {
      assert (x + y)[0] == x[0] && (x + y)[1..] == x[1..] + y;
      RunCat(Step(s, x[0].0, x[0].1), x[1..], y);
    }
  }
}

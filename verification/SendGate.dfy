/** The send gate of a session (src/Session.cpp: CanSend, TrySend, RealSend; src/NormalIOCP.cpp:
    SendPacket, WorkerThread; src/SendExecutable.cpp; src/PostSendExecutable.cpp) within one lifetime of the
    slot.

    `_isSending` is a token. It passes from the thread that set it, through a posted SendExecutable or
    straight into RealSend, to the overlapped send, to the thread that handles its completion, which
    clears it and tries again. `_sendQ` is the ticket queue; `TicketQueue` proves that with a single
    consumer, and never more than 512 tickets out, it behaves like the list of tickets used here. */
module SendGate {
  import opened Agents
  import opened Wrappers

  const MAX_SEND_COUNT := 512

  type Buf = nat

  /** A ticket whose producer has not stored its buffer yet, or has. */
  datatype Entry = Taken | Ready(b: Buf)

  /** Shared fields. `posted` counts queued SendExecutable completions; `outstanding` is the array handed
      to WSASend. History: buffers handed to the socket, buffers released by completions, tokens given up
      for good (a send or its completion failed, or the session was already flagged), such a failure, a
      `__debugbreak`. */
  datatype Session = Session(
    connected: bool, flagged: bool, isSending: bool,
    queue: seq<Entry>, head: nat,
    sendingQ: seq<Buf>, dataNotSend: nat,
    posted: nat, outstanding: Option<seq<Buf>>,
    wire: seq<Buf>, released: seq<Buf>, lost: nat, failed: bool, broken: bool)

  /** What a thread does once CanSend says yes. */
  datatype Then = ToPost | ToSend

  datatype Pc =
    | Idle
    | Enqueue(b: Buf, k: Then)             // ProcessBuffer: before taking a ticket
    | Publish(t: nat, b: Buf, k: Then)     // before the slot is marked used
    | CsConnect(k: Then)                   // CanSend: before reading _connect
    | CsFlag(k: Then)                      // before reading _refCount
    | CsHead(k: Then)                      // first Size(): before reading head
    | CsTail(k: Then, h: nat)              //   before reading tail
    | CsExchange(k: Then)                  // before _isSending.exchange(true)
    | CsHead2(k: Then)                     // second Size()
    | CsTail2(k: Then, h: nat)
    | CsStore(k: Then)                     // before _isSending.store(false)
    | Post                                 // SendPacket: before posting the SendExecutable
    | RsInc                                // RealSend: before IncreaseRef
    | RsSize                               // before the queueSize test
    | RsDequeue(n: nat)                    // n buffers in _sendingQ
    | RsCount(n: nat)                      // before dataNotSend = sendPackets
    | RsSend(n: nat)                       // before WSASend
    | PsRelease(i: nat)                    // PostSendExecutable: i buffers released
    | PsZero                               // before dataNotSend = 0
    | PsStore                              // before _isSending.store(false)

  /** What an idle agent begins, whether WSASend succeeds, and what the rest of the program does. */
  datatype Choice =
    | SendPacket(b: Buf) | SendPacketBlocking(b: Buf)
    | RunPosted | Complete
    | Abort                          // a send completes with an error: PostSendExecutable does not run
    | Succeeds | Fails
    | Disconnect | SetReleaseFlag

  datatype State = State(ss: Session, agents: seq<Pc>)

  function Tail(ss: Session): nat {
    |ss.queue|
  }

  function Begin(ss: Session, c: Choice): (Session, Pc) {
    match c
    case SendPacket(b) => (ss, Enqueue(b, ToPost))
    case SendPacketBlocking(b) => (ss, Enqueue(b, ToSend))
    case RunPosted => if ss.posted > 0 then (ss.(posted := ss.posted - 1), RsInc) else (ss, Idle)
    case Complete => if ss.outstanding.Some? then (ss.(outstanding := None), PsRelease(0)) else (ss, Idle)
    case Abort =>
      (if ss.outstanding.Some? then ss.(outstanding := None, failed := true, lost := ss.lost + 1) else ss, Idle)
    case Disconnect => (ss.(connected := false), Idle)
    case SetReleaseFlag => (ss.(flagged := true), Idle)
    case _ => (ss, Idle)
  }

  /** ProcessBuffer takes a ticket and stores the buffer. */
  function ProducerStep(ss: Session, pc: Pc): (Session, Pc)
    requires pc.Enqueue? || pc.Publish?
  {
    match pc
    case Enqueue(b, k) => (ss.(queue := ss.queue + [Taken]), Publish(|ss.queue|, b, k))
    case Publish(t, b, k) =>
      if t < |ss.queue| then (ss.(queue := ss.queue[t := Ready(b)]), CsConnect(k)) else (ss, pc)
  }

  predicate InGate(pc: Pc) {
    pc.CsConnect? || pc.CsFlag? || pc.CsHead? || pc.CsTail? || pc.CsExchange? ||
    pc.CsHead2? || pc.CsTail2? || pc.CsStore?
  }

  /** CanSend. */
  function GateStep(ss: Session, pc: Pc): (Session, Pc)
    requires InGate(pc)
  {
    match pc
    case CsConnect(k) => (ss, if ss.connected then CsFlag(k) else Idle)
    case CsFlag(k) => (ss, if ss.flagged then Idle else CsHead(k))
    case CsHead(k) => (ss, CsTail(k, ss.head))
    case CsTail(k, h) => (ss, if Tail(ss) == h then Idle else CsExchange(k))
    case CsExchange(k) => (ss.(isSending := true), if ss.isSending then Idle else CsHead2(k))
    case CsHead2(k) => (ss, CsTail2(k, ss.head))
    case CsTail2(k, h) => (ss, if Tail(ss) == h then CsStore(k) else if k.ToPost? then Post else RsInc)
    case CsStore(k) => (ss.(isSending := false), CsFlag(k))
  }

  predicate InSend(pc: Pc) {
    pc.Post? || pc.RsInc? || pc.RsSize? || pc.RsDequeue? || pc.RsCount? || pc.RsSend?
  }

  /** The hand-over and RealSend. */
  function SendStep(ss: Session, pc: Pc, c: Choice): (Session, Pc)
    requires InSend(pc)
  {
    match pc
    case Post => (ss.(posted := ss.posted + 1), Idle)
    case RsInc => if ss.flagged then (ss.(lost := ss.lost + 1), Idle) else (ss, RsSize)
    case RsSize => if Tail(ss) - ss.head < 1 then (ss.(broken := true), pc) else (ss, RsDequeue(0))
    case RsDequeue(n) =>
      if n < MAX_SEND_COUNT && n < |ss.sendingQ| && ss.head < |ss.queue| && ss.queue[ss.head].Ready? then
        (ss.(sendingQ := ss.sendingQ[n := ss.queue[ss.head].b], head := ss.head + 1), RsDequeue(n + 1))
      else if n == 0 then (ss, pc)
      else (ss, RsCount(n))
    case RsCount(n) => (ss.(dataNotSend := n), RsSend(n))
    case RsSend(n) =>
      if n > |ss.sendingQ| then (ss, pc)
      else if c.Succeeds? then
        (ss.(outstanding := Some(ss.sendingQ[..n]), wire := ss.wire + ss.sendingQ[..n]), Idle)
      else if c.Fails? then (ss.(failed := true, lost := ss.lost + 1), Idle)
      else (ss, pc)
  }

  predicate InCompletion(pc: Pc) {
    pc.PsRelease? || pc.PsZero? || pc.PsStore?
  }

  /** PostSendExecutable. */
  function CompletionStep(ss: Session, pc: Pc): (Session, Pc)
    requires InCompletion(pc)
  {
    match pc
    case PsRelease(i) =>
      if i < ss.dataNotSend && i < |ss.sendingQ| then
        (ss.(released := ss.released + [ss.sendingQ[i]]), PsRelease(i + 1))
      else (ss, PsZero)
    case PsZero => (ss.(dataNotSend := 0), PsStore)
    case PsStore => (ss.(isSending := false), CsConnect(ToSend))
  }

  /** One atomic step. */
  function Local(ss: Session, pc: Pc, c: Choice): (Session, Pc) {
    if pc.Idle? then Begin(ss, c)
    else if pc.Enqueue? || pc.Publish? then ProducerStep(ss, pc)
    else if InGate(pc) then GateStep(ss, pc)
    else if InSend(pc) then SendStep(ss, pc, c)
    else CompletionStep(ss, pc)
  }

  function Step(s: State, a: nat, c: Choice): State {
    if a >= |s.agents| || s.ss.broken then s else
    var (ss, pc) := Local(s.ss, s.agents[a], c);
    State(ss, s.agents[a := pc])
  }

  type Schedule = seq<(nat, Choice)>

  function Run(s: State, sched: Schedule): State
    decreases |sched|
  {
    if sched == [] then s else Run(Step(s, sched[0].0, sched[0].1), sched[1..])
  }

  /** A connected session at the start of its lifetime. */
  predicate Initial(s: State) {
    && |s.ss.sendingQ| == MAX_SEND_COUNT
    && s.ss == Session(true, false, false, [], 0, s.ss.sendingQ, 0, 0, None, [], [], 0, false, false)
    && forall a :: 0 <= a < |s.agents| ==> s.agents[a] == Idle
  }

  /** Agents that hold the token. */
  predicate Token(pc: Pc) {
    pc.CsHead2? || pc.CsTail2? || pc.CsStore? || pc.Post? ||
    pc.RsInc? || pc.RsSize? || pc.RsDequeue? || pc.RsCount? || pc.RsSend? ||
    pc.PsRelease? || pc.PsZero? || pc.PsStore?
  }

  /** Agents without the token that will still look at the queue. */
  predicate WillLook(pc: Pc) {
    pc.Publish? || pc.CsConnect? || pc.CsFlag? || pc.CsHead? || pc.CsTail? || pc.CsExchange?
  }

  predicate HasTicket(pc: Pc, t: nat) {
    pc.Publish? && pc.t == t
  }

  function Holding(t: nat): Pc -> bool {
    pc => HasTicket(pc, t)
  }

  function Bufs(q: seq<Entry>): (r: seq<Buf>)
    ensures |r| == |q|
  {
    if q == [] then [] else Bufs(q[..|q| - 1]) + [if q[|q| - 1].Ready? then q[|q| - 1].b else 0]
  }

  /** Buffers taken off the queue so far, in order. */
  function Dequeued(ss: Session): seq<Buf>
    requires ss.head <= |ss.queue|
  {
    Bufs(ss.queue[..ss.head])
  }

  /** No buffer is in hand: everything dequeued went to the socket, and completions released it all. */
  predicate Settled(ss: Session)
    requires ss.head <= |ss.queue|
  {
    Dequeued(ss) == ss.wire == ss.released
  }

  predicate HasWork(ss: Session) {
    ss.head < |ss.queue|
  }

  /** What holding the token at each place means. */
  predicate AgentOk(ss: Session, pc: Pc)
    requires ss.head <= |ss.queue| && |ss.sendingQ| == MAX_SEND_COUNT
  {
    match pc
    case Publish(t, _, _) => ss.head <= t < |ss.queue| && ss.queue[t] == Taken
    case CsTail(_, h) => h <= ss.head
    case CsHead2(_) => Settled(ss)
    case CsTail2(_, h) => h == ss.head && Settled(ss)
    case CsStore(_) => Settled(ss)
    case Post => HasWork(ss) && Settled(ss)
    case RsInc => HasWork(ss) && Settled(ss)
    case RsSize => HasWork(ss) && Settled(ss)
    case RsDequeue(n) => n <= MAX_SEND_COUNT && InHand(ss, n)
    case RsCount(n) => 0 < n <= MAX_SEND_COUNT && InHand(ss, n)
    case RsSend(n) => 0 < n <= MAX_SEND_COUNT && InHand(ss, n) && ss.dataNotSend == n
    case PsRelease(i) => i <= ss.dataNotSend <= MAX_SEND_COUNT && Releasing(ss, i)
    case PsZero => Settled(ss)
    case PsStore => Settled(ss)
    case _ => true
  }

  /** The first `n` places of `_sendingQ` hold what was dequeued and not yet sent. */
  predicate InHand(ss: Session, n: nat)
    requires ss.head <= |ss.queue| && n <= |ss.sendingQ|
  {
    Dequeued(ss) == ss.wire + ss.sendingQ[..n] && ss.wire == ss.released
  }

  /** The array of the completed send is intact; its first `i` buffers have been released. */
  predicate Releasing(ss: Session, i: nat)
    requires ss.head <= |ss.queue| && i <= ss.dataNotSend <= |ss.sendingQ|
  {
    Dequeued(ss) == ss.wire == ss.released + ss.sendingQ[i..ss.dataNotSend]
  }

  /** What was handed to the socket was dequeued, what was released was handed over, all in order. */
  predicate Ordered(ss: Session)
    requires ss.head <= |ss.queue|
  {
    ss.wire <= Dequeued(ss) && ss.released <= ss.wire
  }

  /** The gate, given the number of agents that hold the token or will look, and per ticket. */
  predicate SessionOk(ss: Session, tokens: nat) {
    && ss.head <= |ss.queue| && |ss.sendingQ| == MAX_SEND_COUNT && !ss.broken
    && tokens + ss.posted + Bit(ss.outstanding.Some?) + ss.lost == Bit(ss.isSending)
    && (forall t :: 0 <= t < ss.head ==> ss.queue[t].Ready?)
    && (ss.posted > 0 ==> HasWork(ss))
    && (ss.posted > 0 || (ss.lost > 0 && !ss.failed) || !ss.isSending ==> Settled(ss))
    && (ss.outstanding.Some? ==>
         ss.dataNotSend <= MAX_SEND_COUNT && ss.outstanding.value == ss.sendingQ[..ss.dataNotSend] && Releasing(ss, 0))
    && (ss.lost > 0 ==> ss.flagged || ss.failed)
    && (ss.failed ==> ss.lost > 0 && Ordered(ss))
  }

  predicate Stranded(ss: Session, looking: nat) {
    ss.connected && !ss.flagged && !ss.failed && HasWork(ss) && !ss.isSending && looking == 0
  }

  ghost predicate TicketOk(s: State, t: nat) {
    Count(s.agents, Holding(t)) == Bit(t < |s.ss.queue| && s.ss.queue[t] == Taken)
  }

  ghost predicate Inv(s: State) {
    && SessionOk(s.ss, Count(s.agents, Token))
    && !Stranded(s.ss, Count(s.agents, WillLook))
    && (forall t: nat :: TicketOk(s, t))
    && (forall a :: 0 <= a < |s.agents| ==> AgentOk(s.ss, s.agents[a]))
  }

  // ---------------------------------------------------------------- one step

  /** Tickets at or after the head do not matter for what was dequeued. */
  lemma DequeuedFrame(ss: Session, ss': Session)
    requires ss.head == ss'.head <= |ss.queue| && ss.head <= |ss'.queue|
    requires ss.queue[..ss.head] == ss'.queue[..ss.head]
    ensures Dequeued(ss') == Dequeued(ss)
  {
  }

  lemma DequeuedNext(q: seq<Entry>, h: nat)
    requires h < |q| && q[h].Ready?
    ensures Bufs(q[..h + 1]) == Bufs(q[..h]) + [q[h].b]
  {
    assert q[..h + 1][..h] == q[..h];
  }

  /** Nothing changed but what the gate and the counters say. */
  predicate SameArray(ss: Session, ss': Session) {
    && ss'.queue == ss.queue && ss'.head == ss.head && ss'.sendingQ == ss.sendingQ
    && ss'.dataNotSend == ss.dataNotSend && ss'.wire == ss.wire && ss'.released == ss.released
  }

  lemma GateFrame(ss: Session, pc: Pc)
    requires InGate(pc)
    ensures SameArray(ss, GateStep(ss, pc).0) && !GateStep(ss, pc).1.Publish?
  {
  }

  lemma BeginFrame(ss: Session, c: Choice)
    ensures SameArray(ss, Begin(ss, c).0) && !Begin(ss, c).1.Publish?
  {
  }

  /** The holder of the token takes the ready ticket at the head at most, and leaves the others' alone. */
  predicate TicketsKept(ss: Session, ss': Session) {
    && ss'.queue == ss.queue && |ss'.sendingQ| == |ss.sendingQ|
    && (ss'.head == ss.head || (ss'.head == ss.head + 1 && ss.head < |ss.queue| && ss.queue[ss.head].Ready?))
  }

  lemma SendFrame(ss: Session, pc: Pc, c: Choice)
    requires InSend(pc)
    ensures TicketsKept(ss, SendStep(ss, pc, c).0) && !SendStep(ss, pc, c).1.Publish?
  {
  }

  lemma CompletionFrame(ss: Session, pc: Pc)
    requires InCompletion(pc)
    ensures TicketsKept(ss, CompletionStep(ss, pc).0) && !CompletionStep(ss, pc).1.Publish?
  {
  }

  lemma LocalFrame(ss: Session, pc: Pc, c: Choice)
    requires !pc.Enqueue? && !pc.Publish?
    ensures TicketsKept(ss, Local(ss, pc, c).0) && !Local(ss, pc, c).1.Publish?
    ensures !Token(pc) ==> SameArray(ss, Local(ss, pc, c).0)
  {
    if pc.Idle? {
      BeginFrame(ss, c);
    } else if InGate(pc) {
      GateFrame(ss, pc);
    } else if InSend(pc) {
      SendFrame(ss, pc, c);
    } else {
      CompletionFrame(ss, pc);
    }
  }

  /** The queue of producers' steps: a longer list, or a ticket at or after the head filled in. */
  lemma ProducerKeepsPrefix(ss: Session, pc: Pc)
    requires ss.head <= |ss.queue| && |ss.sendingQ| == MAX_SEND_COUNT && AgentOk(ss, pc) && (pc.Enqueue? || pc.Publish?)
    ensures var ss' := ProducerStep(ss, pc).0; ss.head <= |ss'.queue| && ss'.queue[..ss.head] == ss.queue[..ss.head]
  {
  }

  lemma TakeOne(ss: Session, n: nat)
    requires ss.head < |ss.queue| && ss.queue[ss.head].Ready? && n < |ss.sendingQ| && InHand(ss, n)
    ensures
      var b := ss.queue[ss.head].b;
      InHand(ss.(sendingQ := ss.sendingQ[n := b], head := ss.head + 1), n + 1)
  {
    var b := ss.queue[ss.head].b;
    DequeuedNext(ss.queue, ss.head);
    assert ss.sendingQ[n := b][..n + 1] == ss.sendingQ[..n] + [b];
  }

  /** The gate holds and `pc` is a right place to be, given how many other agents hold the token. */
  predicate PlaceOk(ss: Session, pc: Pc, others: nat) {
    SessionOk(ss, others + Bit(Token(pc))) && AgentOk(ss, pc)
  }

  lemma DequeueSession(ss: Session, pc: Pc, c: Choice, others: nat)
    requires PlaceOk(ss, pc, others) && pc.RsDequeue?
    ensures PlaceOk(SendStep(ss, pc, c).0, SendStep(ss, pc, c).1, others)
  {
    if pc.n < MAX_SEND_COUNT && ss.head < |ss.queue| && ss.queue[ss.head].Ready? {
      TakeOne(ss, pc.n);
    }
  }

  lemma SendSession(ss: Session, pc: Pc, c: Choice, others: nat)
    requires PlaceOk(ss, pc, others) && pc.RsSend?
    ensures PlaceOk(SendStep(ss, pc, c).0, SendStep(ss, pc, c).1, others)
  {
    assert ss.sendingQ[0..pc.n] == ss.sendingQ[..pc.n];
  }

  lemma HandOverSession(ss: Session, pc: Pc, c: Choice, others: nat)
    requires PlaceOk(ss, pc, others) && InSend(pc) && !pc.RsDequeue? && !pc.RsSend?
    ensures PlaceOk(SendStep(ss, pc, c).0, SendStep(ss, pc, c).1, others)
  {
    assert ss.sendingQ[..0] == [] && ss.wire + [] == ss.wire;
  }

  lemma MoveOne(done: seq<Buf>, q: seq<Buf>, i: nat, n: nat)
    requires i < n <= |q|
    ensures done + q[i..n] == done + [q[i]] + q[i + 1..n]
  {
  }

  lemma CompletionSession(ss: Session, pc: Pc, others: nat)
    requires PlaceOk(ss, pc, others) && InCompletion(pc)
    ensures PlaceOk(CompletionStep(ss, pc).0, CompletionStep(ss, pc).1, others)
  {
    if pc.PsRelease? {
      if pc.i < ss.dataNotSend {
        MoveOne(ss.released, ss.sendingQ, pc.i, ss.dataNotSend);
      } else {
        assert ss.released + ss.sendingQ[pc.i..ss.dataNotSend] == ss.released;
      }
    }
  }

  lemma ProducerSession(ss: Session, pc: Pc, others: nat)
    requires PlaceOk(ss, pc, others) && (pc.Enqueue? || pc.Publish?)
    ensures PlaceOk(ProducerStep(ss, pc).0, ProducerStep(ss, pc).1, others)
  {
    ProducerKeepsPrefix(ss, pc);
    DequeuedFrame(ss, ProducerStep(ss, pc).0);
  }

  lemma GateSession(ss: Session, pc: Pc, others: nat)
    requires PlaceOk(ss, pc, others) && InGate(pc)
    ensures PlaceOk(GateStep(ss, pc).0, GateStep(ss, pc).1, others)
  {
  }

  lemma BeginSession(ss: Session, c: Choice, others: nat)
    requires PlaceOk(ss, Idle, others)
    ensures PlaceOk(Begin(ss, c).0, Begin(ss, c).1, others)
  {
  }

  lemma ProducerOther(ss: Session, pc: Pc, other: Pc)
    requires ss.head <= |ss.queue| && |ss.sendingQ| == MAX_SEND_COUNT && AgentOk(ss, pc) && AgentOk(ss, other)
    requires pc.Enqueue? || pc.Publish?
    requires pc.Publish? ==> !HasTicket(other, pc.t)
    requires ProducerStep(ss, pc).0.head <= |ProducerStep(ss, pc).0.queue|
    ensures |ProducerStep(ss, pc).0.sendingQ| == MAX_SEND_COUNT && AgentOk(ProducerStep(ss, pc).0, other)
  {
    ProducerKeepsPrefix(ss, pc);
    DequeuedFrame(ss, ProducerStep(ss, pc).0);
  }

  lemma LocalOther(ss: Session, pc: Pc, c: Choice, other: Pc, tokens: nat)
    requires SessionOk(ss, tokens) && AgentOk(ss, pc) && AgentOk(ss, other)
    requires tokens >= Bit(Token(pc)) + Bit(Token(other))
    requires pc.Publish? ==> !HasTicket(other, pc.t)
    requires Local(ss, pc, c).0.head <= |Local(ss, pc, c).0.queue|
    ensures |Local(ss, pc, c).0.sendingQ| == MAX_SEND_COUNT && AgentOk(Local(ss, pc, c).0, other)
  {
    if pc.Enqueue? || pc.Publish? {
      ProducerOther(ss, pc, other);
    } else {
      LocalFrame(ss, pc, c);
    }
  }

  /** Whoever stops looking at the queue leaves it empty, closed, or with the token held. */
  lemma NobodyStrands(ss: Session, pc: Pc, c: Choice, tokens: nat, looking: nat)
    requires SessionOk(ss, tokens) && AgentOk(ss, pc) && (Token(pc) ==> tokens >= 1) && (WillLook(pc) ==> looking >= 1)
    requires !Stranded(ss, looking)
    ensures
      var (ss', pc') := Local(ss, pc, c);
      !Stranded(ss', looking + Bit(WillLook(pc')) - Bit(WillLook(pc)))
  {
  }

  /** A ticket is taken as long as one agent is about to fill it in. */
  predicate TicketKept(ss: Session, pc: Pc, ss': Session, pc': Pc, t: nat) {
    Bit(HasTicket(pc', t)) + Bit(t < |ss.queue| && ss.queue[t] == Taken) ==
    Bit(HasTicket(pc, t)) + Bit(t < |ss'.queue| && ss'.queue[t] == Taken)
  }

  lemma ProducerTicket(ss: Session, pc: Pc, t: nat)
    requires ss.head <= |ss.queue| && |ss.sendingQ| == MAX_SEND_COUNT && AgentOk(ss, pc) && (pc.Enqueue? || pc.Publish?)
    ensures TicketKept(ss, pc, ProducerStep(ss, pc).0, ProducerStep(ss, pc).1, t)
  {
  }

  lemma StepTicket(s: State, a: nat, c: Choice, t: nat)
    requires Inv(s) && a < |s.agents|
    ensures TicketOk(Step(s, a, c), t)
  {
    var pc := s.agents[a];
    assert TicketOk(s, t);
    CountMove(s.agents, a, Local(s.ss, pc, c).1, Holding(t));
    if pc.Enqueue? || pc.Publish? {
      ProducerTicket(s.ss, pc, t);
    } else {
      LocalFrame(s.ss, pc, c);
    }
  }

  lemma LocalSession(ss: Session, pc: Pc, c: Choice, others: nat)
    requires PlaceOk(ss, pc, others)
    ensures PlaceOk(Local(ss, pc, c).0, Local(ss, pc, c).1, others)
  {
    if pc.Enqueue? || pc.Publish? {
      ProducerSession(ss, pc, others);
    } else if pc.Idle? {
      BeginSession(ss, c, others);
    } else if InGate(pc) {
      GateSession(ss, pc, others);
    } else if pc.RsDequeue? {
      DequeueSession(ss, pc, c, others);
    } else if pc.RsSend? {
      SendSession(ss, pc, c, others);
    } else if InSend(pc) {
      HandOverSession(ss, pc, c, others);
    } else {
      CompletionSession(ss, pc, others);
    }
  }

  lemma StepSession(s: State, a: nat, c: Choice)
    requires Inv(s) && a < |s.agents|
    ensures
      var s' := Step(s, a, c);
      && SessionOk(s'.ss, Count(s'.agents, Token))
      && !Stranded(s'.ss, Count(s'.agents, WillLook))
      && AgentOk(s'.ss, s'.agents[a])
  {
    var pc := s.agents[a];
    var pc' := Local(s.ss, pc, c).1;
    CountMove(s.agents, a, pc', Token);
    CountMove(s.agents, a, pc', WillLook);
    if Token(pc) {
      CountOne(s.agents, a, Token);
    }
    if WillLook(pc) {
      CountOne(s.agents, a, WillLook);
    }
    LocalSession(s.ss, pc, c, Count(s.agents, Token) - Bit(Token(pc)));
    NobodyStrands(s.ss, pc, c, Count(s.agents, Token), Count(s.agents, WillLook));
  }

  lemma StepInv(s: State, a: nat, c: Choice)
    requires Inv(s)
    ensures Inv(Step(s, a, c))
  {
    if a < |s.agents| {
      var s' := Step(s, a, c);
      StepSession(s, a, c);
      forall t: nat
        ensures TicketOk(s', t)
      {
        StepTicket(s, a, c, t);
      }
      forall b | 0 <= b < |s'.agents|
        ensures AgentOk(s'.ss, s'.agents[b])
      {
        if b != a {
          OthersApart(s, a, b);
          LocalOther(s.ss, s.agents[a], c, s.agents[b], Count(s.agents, Token));
        }
      }
    }
  }

  lemma OthersApart(s: State, a: nat, b: nat)
    requires Inv(s) && a < |s.agents| && b < |s.agents| && a != b
    ensures Count(s.agents, Token) >= Bit(Token(s.agents[a])) + Bit(Token(s.agents[b]))
    ensures s.agents[a].Publish? ==> !HasTicket(s.agents[b], s.agents[a].t)
  {
    if Token(s.agents[a]) && Token(s.agents[b]) {
      CountTwo(s.agents, a, b, Token);
    } else if Token(s.agents[a]) {
      CountOne(s.agents, a, Token);
    } else if Token(s.agents[b]) {
      CountOne(s.agents, b, Token);
    }
    if s.agents[a].Publish? {
      var t := s.agents[a].t;
      assert TicketOk(s, t);
      if HasTicket(s.agents[b], t) {
        CountTwo(s.agents, a, b, Holding(t));
      }
    }
  }

  // ---------------------------------------------------------------- whole runs

  lemma {:induction false} RunInv(s: State, sched: Schedule)
    requires Inv(s)
    ensures Inv(Run(s, sched))
    decreases |sched|
  {
    if sched != [] {
      StepInv(s, sched[0].0, sched[0].1);
      RunInv(Step(s, sched[0].0, sched[0].1), sched[1..]);
    }
  }

  /** Exclusivity: `_isSending` is set exactly while the token is in one place: a thread between the
      exchange in CanSend and the hand-over, a posted SendExecutable, a running RealSend, an outstanding
      send, its completion, or given up for good. */
  lemma GateExclusive(s: State, sched: Schedule)
    requires Initial(s)
    ensures
      var t := Run(s, sched);
      Count(t.agents, Token) + t.ss.posted + Bit(t.ss.outstanding.Some?) + t.ss.lost == Bit(t.ss.isSending)
  {
    RunInv(s, sched);
  }

  /** While a send is outstanding no thread is anywhere in RealSend or in its completion, and `_sendingQ`
      and `dataNotSend` still describe exactly the array that was handed to WSASend. */
  lemma ArrayIntactWhileOutstanding(s: State, sched: Schedule, a: nat)
    requires Initial(s) && Run(s, sched).ss.outstanding.Some? && a < |Run(s, sched).agents|
    ensures
      var t := Run(s, sched);
      && !Token(t.agents[a]) && t.ss.posted == 0
      && t.ss.dataNotSend <= |t.ss.sendingQ| && t.ss.sendingQ[..t.ss.dataNotSend] == t.ss.outstanding.value
  {
    RunInv(s, sched);
    var t := Run(s, sched);
    if Token(t.agents[a]) {
      CountOne(t.agents, a, Token);
    }
  }

  /** No packet is stranded: while the session is connected, unflagged and no send failed, a nonempty queue
      means that a send is posted or outstanding, or some thread is still inside SendPacket,
      RealSend or a send completion. */
  lemma NoStrandedPacket(s: State, sched: Schedule)
    requires Initial(s)
    requires var t := Run(s, sched); t.ss.connected && !t.ss.flagged && !t.ss.failed && HasWork(t.ss)
    ensures
      var t := Run(s, sched);
      || t.ss.posted > 0
      || t.ss.outstanding.Some?
      || exists a :: 0 <= a < |t.agents| && (Token(t.agents[a]) || WillLook(t.agents[a]))
  {
    RunInv(s, sched);
    var t := Run(s, sched);
    if t.ss.posted == 0 && t.ss.outstanding.None? {
      if t.ss.isSending {
        var a := CountSome(t.agents, Token);
      } else {
        var a := CountSome(t.agents, WillLook);
      }
    }
  }

  lemma TokenOrdered(ss: Session, pc: Pc)
    requires ss.head <= |ss.queue| && |ss.sendingQ| == MAX_SEND_COUNT && Token(pc) && AgentOk(ss, pc)
    ensures Ordered(ss)
  {
  }

  /** Buffers reach the socket in ticket order, none twice and none skipped, and completions release them
      in that order, also when sends fail or are aborted; RealSend never finds the queue empty (`__debugbreak`
      at its size test). */
  lemma WireInTicketOrder(s: State, sched: Schedule)
    requires Initial(s)
    ensures
      var t := Run(s, sched);
      && !t.ss.broken && t.ss.head <= |t.ss.queue|
      && t.ss.released <= t.ss.wire <= Dequeued(t.ss)
  {
    RunInv(s, sched);
    var t := Run(s, sched);
    if Count(t.agents, Token) > 0 {
      var a := CountSome(t.agents, Token);
      TokenOrdered(t.ss, t.agents[a]);
    }
  }
}

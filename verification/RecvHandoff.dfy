/** Handing received bytes from the I/O thread to the group's runner (src/RecvExecutable.cpp: Execute;
    src/GroupManager.cpp: OnRecv; src/Group.cpp: HandleJob, RecvHandler; src/Session.cpp: RecvNotIncrease,
    recvHandleWaitInGroup, setRecvHandled, Reset), for one slot and the NET sessions it carries one after the
    other. Each enters the group before its first receive and stays in it.

    One receive is outstanding at a time, so there is one producer; `_isRun` gives one runner. Each access
    to `_isHandled`, to the job queue, to the size of the ring and, when the next receive is set up, to its
    front is a step. The bytes of a packet at the front belong to the runner alone, so peeking, deciphering
    and dequeuing them is part of its steps. The receive and the runner, from FindSession on, hold a reference
    each (`SlotLifetime`). */
module RecvHandoff {
  import opened Agents
  import opened Bytes
  import opened Cipher
  import opened Framing
  import opened RingBuffer

  /** Execute, for a completion whose bytes are in the ring or about to be, up to the next receive. */
  datatype Producer =
    | Receiving(r: Regions)   // the next receive is outstanding, into these regions
    | Test                    // MoveRear is done; before reading _isHandled
    | Claim                   // before setRecvHandled(true)
    | Notify                  // before OnRecv queues the job
    | Check                   // RecvNotIncrease: before reading _connect
    | Read1                   // before DirectEnqueueSize, the first reading of the front
    | Read2(len0: nat)        // before FreeSize, the second
    | Read3(len0: nat)        // before FreeSize again
    | Ended                   // the session was closed, and the receive's reference is dropped

  /** HandleJob on a Recv job of this session. */
  datatype Runner =
    | Idle
    | Clear          // before setRecvHandled(false)
    | Size           // top of the loop: before reading the ring's size
    | Peek           // before peeking the header
    | Size2          // before reading the size again
    | Open           // before Decode, ChecksumValid and the handler

  datatype Job = Recv(id: nat) | Leave(id: nat)

  datatype Life =
    | Alive
    | Released       // the flag is set; before the Leave is queued
    | Waiting        // the Leave is queued
    | Posted         // the Leave is handled; before Reset and the next accept

  /** What ends a run: received bytes that do not follow those in the ring, or the assertion that there is
      room for a receive. */
  datatype Fate = Running | Misplaced | NoRoom

  /** `ring` is what the ring buffer holds, up to the cell `rear`; `jobs` are the group's jobs of this slot.
      History, of the present lifetime: all bytes received, the packets handed to OnRecv, and `clear`, whether
      `_isHandled` was clear when it began; of all: the ids that had a Recv job dropped because FindSession did
      not find them. */
  datatype State = State(
    ring: seq<byte>, rear: nat, isHandled: bool, jobs: seq<Job>, closed: bool, producer: Producer, runner: Runner,
    id: nat, life: Life, fate: Fate,
    received: seq<byte>, delivered: seq<seq<byte>>, clear: bool, dropped: set<nat>)

  /** The next completion brings `chunk`; the group's runner; the end of a lifetime and the next. */
  datatype Actor = Produce(chunk: seq<byte>) | Consume | Slot

  predicate InRing(s: State) {
    s.rear < SIZE && |s.ring| < SIZE
  }

  /** The cell of the first byte. */
  function Front(s: State): (f: nat)
    requires InRing(s)
    ensures f < SIZE && Live(f, s.rear) == |s.ring|
  {
    Index(s.rear + SIZE - |s.ring|)
  }

  /** The session's `FreeSize`. */
  function Space(s: State): (n: nat)
    requires InRing(s)
    ensures n + |s.ring| + 1 == SIZE
  {
    Free(Front(s), s.rear)
  }

  /** A completion: the bytes go to the first region and then to the second, and MoveRear publishes the cells
      after the rear. */
  function Completion(s: State, x: Regions, chunk: seq<byte>): State {
    if !(0 < |chunk| <= x.len0 + x.len1) then s
    else if |chunk| > x.len0 && x.at + x.len0 != SIZE then s.(fate := Misplaced)
    else s.(ring := s.ring + chunk, rear := Index(s.rear + |chunk|), received := s.received + chunk, producer := Test)
  }

  /** The receive is outstanding or about to be, or there is none any more. */
  predicate Passive(p: Producer) {
    p.Receiving? || p.Check? || p.Read1? || p.Read2? || p.Read3? || p.Ended?
  }

  /** From the test of `_isHandled` to the job. */
  function ClaimStep(s: State): State
    requires !Passive(s.producer)
  {
    match s.producer
    case Test => s.(producer := if s.isHandled then Check else Claim)
    case Claim => s.(isHandled := true, producer := Notify)
    case Notify => s.(jobs := s.jobs + [Recv(s.id)], producer := Check)
  }

  /** RecvNotIncrease. */
  function ReadStep(s: State): State
    requires InRing(s) && Passive(s.producer) && !s.producer.Receiving?
  {
    match s.producer
    case Check => s.(producer := if s.closed then Ended else Read1)
    case Read1 => s.(producer := Read2(Straight(Front(s), s.rear)))
    case Read2(len0) =>
      if Space(s) > len0 then s.(producer := Read3(len0))
      else if len0 == 0 then s.(fate := NoRoom)
      else s.(producer := Receiving(Regions(s.rear, len0, 0)))
    case Read3(len0) =>
      s.(producer := Receiving(Regions(s.rear, len0, if Space(s) > len0 then Space(s) - len0 else 0)))
    case Ended => s
  }

  function ProducerStep(s: State, chunk: seq<byte>): State
    requires InRing(s)
  {
    if s.producer.Receiving? then Completion(s, s.producer.r, chunk)
    else if Passive(s.producer) then ReadStep(s)
    else ClaimStep(s)
  }

  /** HandleJob, up to the result of FindSession or the end of CheckPostRelease. */
  function TakeJob(s: State): State {
    if s.jobs == [] then s else
    var rest := s.(jobs := s.jobs[1..]);
    match s.jobs[0]
    case Recv(j) => if j == s.id && s.life.Alive? then rest.(runner := Clear) else rest.(dropped := s.dropped + {j})
    case Leave(j) => if j == s.id && s.life.Waiting? then rest.(life := Posted) else rest
  }

  /** Deciphering keeps the packet's length. */
  function InPlace(image: seq<byte>, plain: seq<byte>): (r: seq<byte>)
    ensures |r| == |image|
  {
    if |plain| == |image| then plain else image
  }

  function RunnerStep(s: State, open: Opener, maxLen: nat): State {
    match s.runner
    case Idle => TakeJob(s)
    case Clear => s.(isHandled := false, runner := Size)
    case Size => s.(runner := if |s.ring| < HEADER then Idle else Peek)
    case Peek =>
      if |s.ring| < HEADER then s
      else if BadHeader(s.ring, maxLen) then s.(closed := true, runner := Idle)
      else s.(runner := Size2)
    case Size2 =>
      if |s.ring| < HEADER then s
      else s.(runner := if |s.ring| < HEADER + LenField(s.ring) then Idle else Open)
    case Open =>
      if !HasPacket(s.ring, maxLen) then s else
        var n := HEADER + LenField(s.ring);
        var o := open(s.ring[..n]);
        if !o.valid then s.(ring := InPlace(s.ring[..n], o.plain) + s.ring[n..], closed := true, runner := Idle)
        else s.(ring := s.ring[n..], delivered := s.delivered + [Payload(o.plain)], runner := Size)
  }

  /** The regions of a lifetime's first receive. */
  function WholeRing(): Regions {
    RegionsRead(0, 0, 0, 0)
  }

  /** `Reset` empties the ring and leaves `_isHandled` alone. */
  function NextLifetime(s: State): State {
    State([], 0, s.isHandled, s.jobs, false, Receiving(WholeRing()), Idle, s.id + 1, Alive, s.fate,
          [], [], !s.isHandled, s.dropped)
  }

  function SlotStep(s: State): State {
    match s.life
    case Alive =>
      if (s.producer.Receiving? || s.producer.Ended?) && s.runner.Idle? then s.(life := Released) else s
    case Released => s.(life := Waiting, jobs := s.jobs + [Leave(s.id)])
    case Waiting => s
    case Posted => NextLifetime(s)
  }

  function Step(s: State, a: Actor, open: Opener, maxLen: nat): State {
    if !s.fate.Running? || !InRing(s) then s else
    match a
    case Produce(chunk) => if s.life.Alive? then ProducerStep(s, chunk) else s
    case Consume => RunnerStep(s, open, maxLen)
    case Slot => SlotStep(s)
  }

  function Run(s: State, sched: seq<Actor>, open: Opener, maxLen: nat): State
    decreases |sched|
  {
    if sched == [] then s else Run(Step(s, sched[0], open, maxLen), sched[1..], open, maxLen)
  }

  /** The first session of the slot. */
  function Start(): State {
    State([], 0, false, [], false, Receiving(WholeRing()), Idle, 1, Alive, Running, [], [], true, {})
  }

  // ---------------------------------------------------------------- the invariant

  /** The loop would not stop at once on these bytes. */
  predicate Actionable(ring: seq<byte>, maxLen: nat) {
    |ring| >= HEADER && (BadHeader(ring, maxLen) || |ring| >= HEADER + LenField(ring))
  }

  predicate Queued(s: State) {
    |s.jobs| > 0 && s.jobs[0] == Recv(s.id)
  }

  /** At most one Recv job and one Leave, in this order, both of the session in the slot. */
  predicate JobsOk(s: State) {
    && s.jobs == (if Queued(s) then [Recv(s.id)] else []) + (if s.life.Waiting? then [Leave(s.id)] else [])
    && (s.life.Posted? ==> !Queued(s))
    && (!s.life.Alive? ==> Passive(s.producer) && s.runner.Idle?)
  }

  /** In a lifetime that began with the flag clear it counts the one job that is queued, about to be queued,
      just taken, or dropped; otherwise it stays set and there is no job. */
  predicate FlagOk(s: State) {
    if s.clear then
      && Bit(Queued(s)) + Bit(s.producer.Notify?) + Bit(s.runner.Clear?) + Bit(s.id in s.dropped) == Bit(s.isHandled)
      && (s.producer.Claim? ==> !s.isHandled)
    else
      s.isHandled && !Queued(s) && (Passive(s.producer) || s.producer.Test?) && s.runner.Idle?
  }

  /** A lifetime begins with the flag set exactly if an earlier one had its job dropped. */
  predicate DroppedOk(s: State) {
    && (forall j :: j in s.dropped ==> j <= s.id)
    && (s.clear <==> forall j :: j in s.dropped ==> j == s.id)
    && (s.life.Alive? || !s.clear ==> s.id !in s.dropped)
  }

  predicate RunnerOk(s: State, maxLen: nat) {
    match s.runner
    case Peek => |s.ring| >= HEADER
    case Size2 => |s.ring| >= HEADER && !BadHeader(s.ring, maxLen)
    case Open => HasPacket(s.ring, maxLen)
    case _ => true
  }

  /** Bytes to act on are never forgotten: somebody is on the way to look at them. */
  predicate NotForgotten(s: State, maxLen: nat) {
    s.clear && s.life.Alive? && Actionable(s.ring, maxLen) && !s.closed ==>
      Queued(s) || !Passive(s.producer) || !s.runner.Idle?
  }

  /** Whatever comes next, the loop on the ring continues the loop on the whole stream. */
  ghost predicate Continues(s: State, open: Opener, maxLen: nat) {
    forall x: seq<byte> ::
      Frames(s.received + x, open, maxLen) == Prepend(s.delivered, Frames(s.ring + x, open, maxLen))
  }

  /** The loop on the whole stream closes too, whatever comes next, after no more packets than were delivered: a
      runner that is woken once more may go on after the packet that was refused. */
  ghost predicate Refuses(s: State, open: Opener, maxLen: nat) {
    forall x: seq<byte> ::
      Frames(s.received + x, open, maxLen).closed && Frames(s.received + x, open, maxLen).delivered <= s.delivered
  }

  ghost predicate StreamOk(s: State, open: Opener, maxLen: nat) {
    if s.closed then Refuses(s, open, maxLen) else Continues(s, open, maxLen)
  }

  /** What the readings of the front and the outstanding regions still say: the runner only makes room. */
  predicate RingOk(s: State) {
    InRing(s) &&
      match s.producer
      case Read2(len0) => s.rear + len0 <= SIZE && len0 <= Space(s)
      case Read3(len0) => s.rear + len0 <= SIZE && len0 < Space(s)
      case Receiving(x) =>
        x.at == s.rear && x.at + x.len0 <= SIZE && 0 < x.len0 + x.len1 <= Space(s)
      case _ => true
  }

  predicate ProtocolOk(s: State, maxLen: nat) {
    JobsOk(s) && FlagOk(s) && DroppedOk(s) && RunnerOk(s, maxLen) && NotForgotten(s, maxLen)
  }

  ghost predicate Inv(s: State, open: Opener, maxLen: nat) {
    ProtocolOk(s, maxLen) && RingOk(s) && StreamOk(s, open, maxLen)
  }

  // ---------------------------------------------------------------- steps

  lemma ReceiveContinues(s: State, chunk: seq<byte>, s': State, open: Opener, maxLen: nat)
    requires Continues(s, open, maxLen) && s'.delivered == s.delivered
    requires s'.ring == s.ring + chunk && s'.received == s.received + chunk
    ensures Continues(s', open, maxLen)
  {
    forall x: seq<byte>
      ensures Frames(s'.received + x, open, maxLen) == Prepend(s'.delivered, Frames(s'.ring + x, open, maxLen))
    {
      Assoc(s.received, chunk, x);
      Assoc(s.ring, chunk, x);
    }
  }

  /** Nothing but a completion that does not change the run's fate concerns flag and jobs. */
  lemma CompletionProtocol(s: State, chunk: seq<byte>, maxLen: nat)
    requires InRing(s) && ProtocolOk(s, maxLen) && s.life.Alive? && s.producer.Receiving?
    ensures ProtocolOk(Completion(s, s.producer.r, chunk), maxLen)
  {
    if s.runner.Size2? || s.runner.Open? {
      assert LenField(s.ring + chunk) == LenField(s.ring);
    }
  }

  lemma CompletionRing(s: State, chunk: seq<byte>)
    requires RingOk(s) && s.producer.Receiving?
    ensures RingOk(Completion(s, s.producer.r, chunk))
  {
  }

  lemma CompletionInv(s: State, chunk: seq<byte>, open: Opener, maxLen: nat)
    requires Inv(s, open, maxLen) && s.life.Alive? && s.producer.Receiving?
    ensures Inv(ProducerStep(s, chunk), open, maxLen)
  {
    CompletionProtocol(s, chunk, maxLen);
    CompletionRing(s, chunk);
    var s' := Completion(s, s.producer.r, chunk);
    if s'.producer.Test? {
      if s.closed {
        ReceiveRefuses(s, chunk, s', open, maxLen);
      } else {
        ReceiveContinues(s, chunk, s', open, maxLen);
      }
    }
  }

  lemma ReceiveRefuses(s: State, chunk: seq<byte>, s': State, open: Opener, maxLen: nat)
    requires Refuses(s, open, maxLen) && s'.delivered == s.delivered && s'.received == s.received + chunk
    ensures Refuses(s', open, maxLen)
  {
    forall x: seq<byte>
      ensures Frames(s'.received + x, open, maxLen).closed
      ensures Frames(s'.received + x, open, maxLen).delivered <= s'.delivered
    {
      Assoc(s.received, chunk, x);
    }
  }

  /** A header that the runner refuses, and a packet that does not decipher, are what the loop on the stream refuses. */
  lemma BadHeaderRefuses(s: State, s': State, open: Opener, maxLen: nat)
    requires Continues(s, open, maxLen) && s'.received == s.received && s'.delivered == s.delivered
    requires |s.ring| >= HEADER && BadHeader(s.ring, maxLen)
    ensures Refuses(s', open, maxLen)
  {
    forall x: seq<byte>
      ensures Frames(s'.received + x, open, maxLen).closed
      ensures Frames(s'.received + x, open, maxLen).delivered <= s'.delivered
    {
      LenFieldPrefix(s.ring, s.ring + x);
      FramesStop(s.ring + x, open, maxLen);
      assert s.delivered + [] == s.delivered;
    }
  }

  lemma BadPacketRefuses(s: State, s': State, open: Opener, maxLen: nat)
    requires Continues(s, open, maxLen) && s'.received == s.received && s'.delivered == s.delivered
    requires HasPacket(s.ring, maxLen) && !open(s.ring[..HEADER + LenField(s.ring)]).valid
    ensures Refuses(s', open, maxLen)
  {
    forall x: seq<byte>
      ensures Frames(s'.received + x, open, maxLen).closed
      ensures Frames(s'.received + x, open, maxLen).delivered <= s'.delivered
    {
      SplitInPacket(s.ring, x, open, maxLen);
      assert s.delivered + [] == s.delivered;
    }
  }

  lemma MoreRefuses(s: State, s': State, open: Opener, maxLen: nat)
    requires Refuses(s, open, maxLen) && s'.received == s.received && s.delivered <= s'.delivered
    ensures Refuses(s', open, maxLen)
  {
  }

  /** What the producer reads is right for the ring. */
  lemma ReadingOk(s: State)
    requires RingOk(s) && Passive(s.producer) && !s.producer.Receiving?
    ensures RingOk(ReadStep(s))
  {
  }

  /** Setting up the next receive touches nothing else. */
  lemma ReadingFrame(s: State)
    requires InRing(s) && Passive(s.producer) && !s.producer.Receiving?
    ensures
      var s' := ReadStep(s);
      s' == s.(producer := s'.producer, fate := s'.fate) && Passive(s'.producer)
  {
  }

  lemma ClaimProtocol(s: State, maxLen: nat)
    requires ProtocolOk(s, maxLen) && s.life.Alive? && !Passive(s.producer)
    ensures ProtocolOk(ClaimStep(s), maxLen)
  {
  }

  lemma ProducerInv(s: State, chunk: seq<byte>, open: Opener, maxLen: nat)
    requires Inv(s, open, maxLen) && s.life.Alive?
    ensures Inv(ProducerStep(s, chunk), open, maxLen)
  {
    if s.producer.Receiving? {
      CompletionInv(s, chunk, open, maxLen);
    } else if Passive(s.producer) {
      ReadingOk(s);
      ReadingFrame(s);
    } else {
      ClaimProtocol(s, maxLen);
    }
  }

  lemma DeliverContinuesAt(s: State, open: Opener, maxLen: nat, x: seq<byte>)
    requires HasPacket(s.ring, maxLen) && open(s.ring[..HEADER + LenField(s.ring)]).valid
    requires Frames(s.received + x, open, maxLen) == Prepend(s.delivered, Frames(s.ring + x, open, maxLen))
    ensures
      var n := HEADER + LenField(s.ring);
      var d := s.delivered + [Payload(open(s.ring[..n]).plain)];
      Frames(s.received + x, open, maxLen) == Prepend(d, Frames(s.ring[n..] + x, open, maxLen))
  {
    var n := HEADER + LenField(s.ring);
    var f, g := Frames(s.received + x, open, maxLen), Frames(s.ring + x, open, maxLen);
    var h := Frames(s.ring[n..] + x, open, maxLen);
    PacketAhead(s.ring, x, open, maxLen);
    PrependOn(f, s.delivered, g, [Payload(open(s.ring[..n]).plain)], h);
  }

  lemma PrependOn(f: Pass, a: seq<seq<byte>>, g: Pass, b: seq<seq<byte>>, h: Pass)
    requires f == Prepend(a, g) && g == Prepend(b, h)
    ensures f == Prepend(a + b, h)
  {
    PrependTwice(a, b, h);
  }

  lemma PacketAhead(ring: seq<byte>, x: seq<byte>, open: Opener, maxLen: nat)
    requires HasPacket(ring, maxLen) && open(ring[..HEADER + LenField(ring)]).valid
    ensures
      var n := HEADER + LenField(ring);
      Frames(ring + x, open, maxLen) ==
        Prepend([Payload(open(ring[..n]).plain)], Frames(ring[n..] + x, open, maxLen))
  {
    SplitInPacket(ring, x, open, maxLen);
  }

  lemma DeliverContinues(s: State, s': State, open: Opener, maxLen: nat)
    requires HasPacket(s.ring, maxLen) && open(s.ring[..HEADER + LenField(s.ring)]).valid && Continues(s, open, maxLen)
    requires s'.received == s.received && s'.ring == s.ring[HEADER + LenField(s.ring)..]
    requires s'.delivered == s.delivered + [Payload(open(s.ring[..HEADER + LenField(s.ring)]).plain)]
    ensures Continues(s', open, maxLen)
  {
    forall x: seq<byte>
      ensures Frames(s'.received + x, open, maxLen) == Prepend(s'.delivered, Frames(s'.ring + x, open, maxLen))
    {
      DeliverContinuesAt(s, open, maxLen, x);
    }
  }

  lemma OpenInv(s: State, open: Opener, maxLen: nat)
    requires Inv(s, open, maxLen) && s.runner.Open?
    ensures Inv(RunnerStep(s, open, maxLen), open, maxLen)
  {
    var s' := RunnerStep(s, open, maxLen);
    if s.closed {
      MoreRefuses(s, s', open, maxLen);
    } else if open(s.ring[..HEADER + LenField(s.ring)]).valid {
      DeliverContinues(s, s', open, maxLen);
    } else {
      BadPacketRefuses(s, s', open, maxLen);
    }
  }

  lemma TakeInv(s: State, open: Opener, maxLen: nat)
    requires Inv(s, open, maxLen) && s.runner.Idle?
    ensures Inv(TakeJob(s), open, maxLen)
  {
    var s' := TakeJob(s);
    assert s'.ring == s.ring && s'.received == s.received && s'.delivered == s.delivered;
  }

  lemma SlotInv(s: State, open: Opener, maxLen: nat)
    requires Inv(s, open, maxLen)
    ensures Inv(SlotStep(s), open, maxLen)
  {
    var s' := SlotStep(s);
    if s.life.Posted? {
      forall x: seq<byte>
        ensures Frames([] + x, open, maxLen) == Prepend([], Frames([] + x, open, maxLen))
      {
        var f := Frames([] + x, open, maxLen);
        assert [] + f.delivered == f.delivered;
      }
    } else {
      assert s'.ring == s.ring && s'.received == s.received && s'.delivered == s.delivered;
    }
  }

  /** The runner is in its loop, before a packet: it reads. */
  lemma LoopProtocol(s: State, open: Opener, maxLen: nat)
    requires InRing(s) && ProtocolOk(s, maxLen) && !s.runner.Idle? && !s.runner.Open?
    ensures ProtocolOk(RunnerStep(s, open, maxLen), maxLen)
  {
  }

  lemma RunnerInv(s: State, open: Opener, maxLen: nat)
    requires Inv(s, open, maxLen)
    ensures Inv(RunnerStep(s, open, maxLen), open, maxLen)
  {
    if s.runner.Open? {
      OpenInv(s, open, maxLen);
    } else if s.runner.Idle? {
      TakeInv(s, open, maxLen);
    } else {
      LoopProtocol(s, open, maxLen);
      var s' := RunnerStep(s, open, maxLen);
      assert s'.ring == s.ring && s'.rear == s.rear && s'.producer == s.producer;
      assert s'.received == s.received && s'.delivered == s.delivered;
      if s'.closed && !s.closed {
        BadHeaderRefuses(s, s', open, maxLen);
      }
    }
  }

  lemma StepInv(s: State, a: Actor, open: Opener, maxLen: nat)
    requires Inv(s, open, maxLen)
    ensures Inv(Step(s, a, open, maxLen), open, maxLen)
  {
    if s.fate.Running? {
      match a {
        case Produce(chunk) => if s.life.Alive? { ProducerInv(s, chunk, open, maxLen); }
        case Consume => RunnerInv(s, open, maxLen);
        case Slot => SlotInv(s, open, maxLen);
      }
    }
  }

  lemma {:induction false} RunInv(s: State, sched: seq<Actor>, open: Opener, maxLen: nat)
    requires Inv(s, open, maxLen)
    ensures Inv(Run(s, sched, open, maxLen), open, maxLen)
    decreases |sched|
  {
    if sched != [] {
      StepInv(s, sched[0], open, maxLen);
      RunInv(Step(s, sched[0], open, maxLen), sched[1..], open, maxLen);
    }
  }

  // ---------------------------------------------------------------- the theorems

  lemma ReachedInv(sched: seq<Actor>, open: Opener, maxLen: nat)
    ensures Inv(Run(Start(), sched, open, maxLen), open, maxLen)
  {
    assert Continues(Start(), open, maxLen) by {
      forall x: seq<byte>
        ensures Frames([] + x, open, maxLen) == Prepend([], Frames([] + x, open, maxLen))
      {
        var f := Frames([] + x, open, maxLen);
        assert [] + f.delivered == f.delivered;
      }
    }
    RunInv(Start(), sched, open, maxLen);
  }

  /** A state nobody is working in where a whole packet waits and no job will wake the runner. */
  predicate Stranded(s: State, maxLen: nat) {
    s.life.Alive? && Passive(s.producer) && s.runner.Idle? && !s.closed && HasPacket(s.ring, maxLen) && s.jobs == []
  }

  /** In every lifetime that began with `_isHandled` clear, on every run: no packet is ever left without a
      job; and there is never more than one Recv job. */
  lemma NoLostHandoff(sched: seq<Actor>, open: Opener, maxLen: nat)
    ensures
      var s := Run(Start(), sched, open, maxLen);
      && (s.clear ==> !Stranded(s, maxLen))
      && forall k, m :: 0 <= k < m < |s.jobs| ==> !(s.jobs[k].Recv? && s.jobs[m].Recv?)
  {
    ReachedInv(sched, open, maxLen);
  }

  /** Whenever both sides are at rest in such a lifetime, no job is queued and the session is open, the group
      has been given exactly the packets of the byte stream received so far, in order, and the ring holds
      the rest. */
  lemma HandoffDelivers(sched: seq<Actor>, open: Opener, maxLen: nat)
    ensures
      var s := Run(Start(), sched, open, maxLen);
      s.clear && s.life.Alive? && Passive(s.producer) && s.runner.Idle? && s.jobs == [] && !s.closed ==>
        Frames(s.received, open, maxLen) == Pass(s.delivered, s.ring, false)
  {
    var s := Run(Start(), sched, open, maxLen);
    ReachedInv(sched, open, maxLen);
    if s.clear && s.life.Alive? && Passive(s.producer) && s.runner.Idle? && s.jobs == [] && !s.closed {
      assert s.received + [] == s.received && s.ring + [] == s.ring;
      FramesStop(s.ring, open, maxLen);
      assert s.delivered + [] == s.delivered;
    }
  }

  /** On every run, a session that was closed is one that the loop on the bytes received so far closes, and every
      packet before the refused one was delivered. */
  lemma ClosedAsTheStream(sched: seq<Actor>, open: Opener, maxLen: nat)
    ensures
      var s := Run(Start(), sched, open, maxLen);
      s.closed ==>
        Frames(s.received, open, maxLen).closed && Frames(s.received, open, maxLen).delivered <= s.delivered
  {
    var s := Run(Start(), sched, open, maxLen);
    ReachedInv(sched, open, maxLen);
    assert s.received + [] == s.received;
  }

  /** The step that closes it has delivered exactly the packets before. */
  lemma ClosesExactly(before: seq<Actor>, a: Actor, open: Opener, maxLen: nat)
    ensures
      var s := Run(Start(), before, open, maxLen);
      var r := Step(s, a, open, maxLen);
      !s.closed && r.closed ==>
        && Frames(r.received, open, maxLen).closed && Frames(r.received, open, maxLen).delivered == r.delivered
        && r.runner.Idle? && r.id == s.id
  {
    var s := Run(Start(), before, open, maxLen);
    var r := Step(s, a, open, maxLen);
    ReachedInv(before, open, maxLen);
    if !s.closed && r.closed {
      ClosingStep(s, a, open, maxLen);
      assert s.received + [] == s.received && s.ring + [] == s.ring;
      RefusedNow(s.ring, s.delivered, Frames(s.received, open, maxLen), open, maxLen);
    }
  }

  /** A pass that continues with bytes the loop refuses closes without another packet. */
  lemma RefusedNow(ring: seq<byte>, delivered: seq<seq<byte>>, f: Pass, open: Opener, maxLen: nat)
    requires f == Prepend(delivered, Frames(ring, open, maxLen))
    requires (|ring| >= HEADER && BadHeader(ring, maxLen)) ||
             (HasPacket(ring, maxLen) && !open(ring[..HEADER + LenField(ring)]).valid)
    ensures f.closed && f.delivered == delivered
  {
    if HasPacket(ring, maxLen) {
      FramesTurn(ring, open, maxLen);
    } else {
      FramesStop(ring, open, maxLen);
    }
    assert delivered + [] == delivered;
  }

  /** Only the runner closes: at a header it refuses or a packet that does not decipher. */
  lemma ClosingStep(s: State, a: Actor, open: Opener, maxLen: nat)
    requires RunnerOk(s, maxLen) && !s.closed && Step(s, a, open, maxLen).closed
    ensures
      var r := Step(s, a, open, maxLen);
      && r.received == s.received && r.delivered == s.delivered && r.runner.Idle? && r.id == s.id
      && if s.runner.Peek? then |s.ring| >= HEADER && BadHeader(s.ring, maxLen)
         else HasPacket(s.ring, maxLen) && !open(s.ring[..HEADER + LenField(s.ring)]).valid
  {
    if a.Produce? && InRing(s) && Passive(s.producer) && !s.producer.Receiving? {
      ReadingFrame(s);
    }
  }

  /** Reassembly for a group: while the bytes received are a stream of encoded payloads and a proper beginning of one
      more packet the session is never closed and is given nothing but these payloads in order; and at rest all of
      them, with that beginning in the ring. */
  lemma GroupReassembly(
      sched: seq<Actor>, ps: seq<seq<byte>>, last: seq<byte>, n: nat, key: byte, open: Opener, maxLen: nat)
    requires Sendable(ps, maxLen) && |last| <= maxLen && |last| <= MAX_PAYLOAD && n < HEADER + |last|
    requires OpensWith(open, key)
    requires Run(Start(), sched, open, maxLen).received == Stream(ps, key) + Packet(last, key)[..n]
    ensures
      var s := Run(Start(), sched, open, maxLen);
      && !s.closed && s.delivered <= ps
      && (s.clear && s.life.Alive? && Passive(s.producer) && s.runner.Idle? && s.jobs == [] ==>
           s.delivered == ps && s.ring == Packet(last, key)[..n])
  {
    var s := Run(Start(), sched, open, maxLen);
    var begun := Packet(last, key)[..n];
    ReachedInv(sched, open, maxLen);
    assert s.received + [] == s.received;
    FramesStream(ps, begun, key, open, maxLen);
    FramesIncomplete(last, key, open, maxLen, n);
    assert ps + [] == ps && Frames(s.received, open, maxLen) == Pass(ps, begun, false);
    HandoffDelivers(sched, open, maxLen);
  }

  /** A lifetime begins with the flag set exactly if an earlier session of the slot was released with a Recv
      job in the queue: the runner drops that job without clearing the flag, and `Reset` does not clear it. */
  lemma DroppedJobSetsFlag(sched: seq<Actor>, open: Opener, maxLen: nat)
    ensures
      var s := Run(Start(), sched, open, maxLen);
      s.clear <==> forall j :: j in s.dropped ==> j == s.id
  {
    ReachedInv(sched, open, maxLen);
  }

  lemma StepClear(s: State, a: Actor, open: Opener, maxLen: nat)
    ensures
      var r := Step(s, a, open, maxLen);
      r.id >= s.id && (r.id == s.id ==> r.clear == s.clear)
  {
    if a.Produce? && InRing(s) && Passive(s.producer) && !s.producer.Receiving? {
      ReadingFrame(s);
    }
  }

  lemma {:induction false} ClearStays(s: State, sched: seq<Actor>, open: Opener, maxLen: nat)
    ensures
      var r := Run(s, sched, open, maxLen);
      r.id >= s.id && (r.id == s.id ==> r.clear == s.clear)
    decreases |sched|
  {
    if sched != [] {
      StepClear(s, sched[0], open, maxLen);
      ClearStays(Step(s, sched[0], open, maxLen), sched[1..], open, maxLen);
    }
  }

  lemma {:induction false} RunCat(s: State, a: seq<Actor>, b: seq<Actor>, open: Opener, maxLen: nat)
    ensures Run(s, a + b, open, maxLen) == Run(Run(s, a, open, maxLen), b, open, maxLen)
    decreases |a|
  {
    if a == [] {
      assert a + b == b;
    } else {
      assert (a + b)[0] == a[0] && (a + b)[1..] == a[1..] + b;
      RunCat(Step(s, a[0], open, maxLen), a[1..], b, open, maxLen);
    }
  }

  lemma RunCons(s: State, a: Actor, rest: seq<Actor>, open: Opener, maxLen: nat)
    ensures Run(s, [a] + rest, open, maxLen) == Run(Step(s, a, open, maxLen), rest, open, maxLen)
  {
    assert ([a] + rest)[1..] == rest;
  }

  /** The present session has received nothing yet. */
  predicate Fresh(s: State) {
    && s.life.Alive? && s.producer == Receiving(WholeRing()) && s.runner.Idle? && s.ring == [] && s.received == []
    && s.rear == 0 && !s.closed && s.fate.Running?
  }

  lemma FirstPacket(s: State, packet: seq<byte>, open: Opener, maxLen: nat)
    requires Fresh(s) && 0 < |packet| < SIZE
    ensures Step(s, Produce(packet), open, maxLen) ==
            s.(ring := packet, rear := Index(|packet|), received := packet, producer := Test)
  {
    assert [] + packet == packet;
  }

  /** A test that finds the flag set queues nothing. */
  lemma SeesFlag(s: State, open: Opener, maxLen: nat)
    requires InRing(s) && s.fate.Running? && s.life.Alive? && s.producer.Test? && s.isHandled
    ensures Step(s, Produce([]), open, maxLen) == s.(producer := Check)
  {
  }

  /** With the flag set, the first packet is stranded. */
  lemma FirstPacketStrands(s: State, open: Opener, maxLen: nat) returns (sched: seq<Actor>)
    requires FlagOk(s) && JobsOk(s) && Fresh(s) && !s.clear
    ensures
      var r := Run(s, sched, open, maxLen);
      Stranded(r, maxLen) && r.id == s.id && r.dropped == s.dropped
  {
    var packet := Packet([], 0);
    var s1 := s.(ring := packet, rear := Index(|packet|), received := packet, producer := Test);
    FirstPacket(s, packet, open, maxLen);
    SeesFlag(s1, open, maxLen);
    PacketHeader([], 0);
    RunCons(s1, Produce([]), [], open, maxLen);
    RunCons(s, Produce(packet), [Produce([])] + [], open, maxLen);
    sched := [Produce(packet)] + ([Produce([])] + []);
  }

  /** A session that begins with the flag clear strands no packet, whatever happens; one that begins with it
      set can strand its first. */
  lemma ClearStartIsExact(before: seq<Actor>, open: Opener, maxLen: nat)
    requires Fresh(Run(Start(), before, open, maxLen))
    ensures
      var s := Run(Start(), before, open, maxLen);
      s.clear <==>
        forall sched ::
          Run(s, sched, open, maxLen).id == s.id ==> !Stranded(Run(s, sched, open, maxLen), maxLen)
  {
    var s := Run(Start(), before, open, maxLen);
    ReachedInv(before, open, maxLen);
    if s.clear {
      forall sched | Run(s, sched, open, maxLen).id == s.id
        ensures !Stranded(Run(s, sched, open, maxLen), maxLen)
      {
        ClearStays(s, sched, open, maxLen);
        RunCat(Start(), before, sched, open, maxLen);
        NoLostHandoff(before + sched, open, maxLen);
      }
    } else {
      var sched := FirstPacketStrands(s, open, maxLen);
    }
  }

  // ---------------------------------------------------------------- room for the next receive

  /** The assertion on the next receive's size fails exactly when the ring is full at the second reading, and
      so at the first: the runner is a whole ring behind. */
  lemma NoRoomIsExact(before: seq<Actor>, c: seq<byte>, open: Opener, maxLen: nat)
    requires
      var s := Run(Start(), before, open, maxLen);
      s.fate.Running? && s.life.Alive? && s.producer.Read2?
    ensures
      var s := Run(Start(), before, open, maxLen);
      Step(s, Produce(c), open, maxLen).fate.NoRoom? <==> |s.ring| == SIZE - 1
  {
    ReachedInv(before, open, maxLen);
  }

  /** The second reading of the front finds room that the first did not, and the first region does not end at
      the end of the array. */
  predicate Torn(s: State) {
    InRing(s) && s.life.Alive? && s.producer.Read2? && Space(s) > s.producer.len0 && s.rear + s.producer.len0 != SIZE
  }

  predicate WholeAlong(s: State, sched: seq<Actor>, open: Opener, maxLen: nat)
    decreases |sched|
  {
    sched != [] ==>
      !(sched[0].Produce? && Torn(s)) && WholeAlong(Step(s, sched[0], open, maxLen), sched[1..], open, maxLen)
  }

  /** Regions that follow each other in ring order. */
  predicate Follow(s: State) {
    !s.fate.Misplaced? &&
      match s.producer
      case Read3(len0) => s.rear + len0 == SIZE
      case Receiving(x) => x.len1 > 0 ==> x.at + x.len0 == SIZE
      case _ => true
  }

  lemma ProducerFollows(s: State, chunk: seq<byte>)
    requires InRing(s) && Follow(s) && s.life.Alive? && !Torn(s)
    ensures Follow(ProducerStep(s, chunk))
  {
  }

  lemma RunnerFollows(s: State, open: Opener, maxLen: nat)
    requires Follow(s)
    ensures Follow(RunnerStep(s, open, maxLen))
  {
    var s' := RunnerStep(s, open, maxLen);
    assert s'.producer == s.producer && s'.rear == s.rear && s'.fate == s.fate;
  }

  lemma StepFollows(s: State, a: Actor, open: Opener, maxLen: nat)
    requires Follow(s) && !(a.Produce? && Torn(s))
    ensures Follow(Step(s, a, open, maxLen))
  {
    if s.fate.Running? && InRing(s) {
      match a {
        case Produce(chunk) => if s.life.Alive? { ProducerFollows(s, chunk); }
        case Consume => RunnerFollows(s, open, maxLen);
        case Slot =>
      }
    }
  }

  lemma {:induction false} RunFollows(s: State, sched: seq<Actor>, open: Opener, maxLen: nat)
    requires Follow(s) && WholeAlong(s, sched, open, maxLen)
    ensures Follow(Run(s, sched, open, maxLen))
    decreases |sched|
  {
    if sched != [] {
      StepFollows(s, sched[0], open, maxLen);
      RunFollows(Step(s, sched[0], open, maxLen), sched[1..], open, maxLen);
    }
  }

  /** After a torn pair of readings a completion that fills more than the first region puts bytes where they
      do not belong. */
  lemma TornMisplaces(s: State, open: Opener, maxLen: nat) returns (sched: seq<Actor>)
    requires s.fate.Running? && Torn(s)
    ensures
      var s1 := Step(s, Produce([]), open, maxLen);
      WholeAlong(s1, sched, open, maxLen) && Run(s1, sched, open, maxLen).fate.Misplaced?
  {
    var len0 := s.producer.len0;
    var s1 := Step(s, Produce([]), open, maxLen);
    var s2 := Step(s1, Produce([]), open, maxLen);
    var chunk: seq<byte> := seq(len0 + 1, _ => 0);
    RunCons(s2, Produce(chunk), [], open, maxLen);
    RunCons(s1, Produce([]), [Produce(chunk)] + [], open, maxLen);
    sched := [Produce([])] + ([Produce(chunk)] + []);
    assert sched[1..] == [Produce(chunk)] && sched[1..][1..] == [];
  }

  /** Exactly the torn readings put received bytes where they do not belong: as long as there is none they
      follow those in the ring, on every run, and after one a completion can misplace them. */
  lemma TornIsExact(before: seq<Actor>, open: Opener, maxLen: nat)
    requires WholeAlong(Start(), before, open, maxLen)
    requires
      var s := Run(Start(), before, open, maxLen);
      s.fate.Running? && s.life.Alive? && s.producer.Read2?
    ensures
      var s := Run(Start(), before, open, maxLen);
      var s1 := Step(s, Produce([]), open, maxLen);
      !Torn(s) <==>
        forall sched :: WholeAlong(s1, sched, open, maxLen) ==> !Run(s1, sched, open, maxLen).fate.Misplaced?
  {
    var s := Run(Start(), before, open, maxLen);
    var s1 := Step(s, Produce([]), open, maxLen);
    ReachedInv(before, open, maxLen);
    RunFollows(Start(), before, open, maxLen);
    if Torn(s) {
      var sched := TornMisplaces(s, open, maxLen);
    } else {
      StepFollows(s, Produce([]), open, maxLen);
      forall sched | WholeAlong(s1, sched, open, maxLen)
        ensures !Run(s1, sched, open, maxLen).fate.Misplaced?
      {
        RunFollows(s1, sched, open, maxLen);
      }
    }
  }
}

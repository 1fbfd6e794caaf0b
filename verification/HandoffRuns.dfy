/** Runs of the machine in `RecvHandoff` on which received bytes are stranded, misplaced, or find no room. */
module HandoffRuns {
  import opened Bytes
  import opened Cipher
  import opened Framing
  import opened RingBuffer
  import opened RecvHandoff

  lemma Extend(sched: seq<Actor>, a: Actor, r: State, open: Opener, maxLen: nat) returns (more: seq<Actor>)
    requires Step(Run(Start(), sched, open, maxLen), a, open, maxLen) == r
    ensures Run(Start(), more, open, maxLen) == r
  {
    assert [a] == [a] + [];
    RunCons(Run(Start(), sched, open, maxLen), a, [], open, maxLen);
    RunCat(Start(), sched, [a], open, maxLen);
    more := sched + [a];
  }

  /** The first session, open and unflagged, with what its ring holds and has held. */
  function At(
      ring: seq<byte>, rear: nat, got: seq<byte>, handed: seq<seq<byte>>,
      p: Producer, r: Runner, jobs: seq<Job>, flag: bool): State
  {
    State(ring, rear, flag, jobs, false, p, r, 1, Alive, Running, got, handed, true, {})
  }

  // ---------------------------------------------------------------- whole operations

  /** A completion, up to the setting up of the next receive. */
  lemma Receives(
      sched: seq<Actor>, ring: seq<byte>, rear: nat, got: seq<byte>, handed: seq<seq<byte>>, x: Regions,
      chunk: seq<byte>, open: Opener, maxLen: nat) returns (more: seq<Actor>)
    requires Run(Start(), sched, open, maxLen) == At(ring, rear, got, handed, Receiving(x), Idle, [], false)
    requires rear < SIZE && |ring| < SIZE && 0 < |chunk| <= x.len0 + x.len1
    requires |ring + chunk| < SIZE && (|chunk| <= x.len0 || x.at + x.len0 == SIZE)
    ensures Run(Start(), more, open, maxLen) ==
            At(ring + chunk, Index(rear + |chunk|), got + chunk, handed, Read1, Idle, [Recv(1)], true)
  {
    var ring', rear', got' := ring + chunk, Index(rear + |chunk|), got + chunk;
    more := Extend(sched, Produce(chunk), At(ring', rear', got', handed, Test, Idle, [], false), open, maxLen);
    more := Extend(more, Produce([]), At(ring', rear', got', handed, Claim, Idle, [], false), open, maxLen);
    more := Extend(more, Produce([]), At(ring', rear', got', handed, Notify, Idle, [], true), open, maxLen);
    assert [] + [Recv(1)] == [Recv(1)];
    more := Extend(more, Produce([]), At(ring', rear', got', handed, Check, Idle, [Recv(1)], true), open, maxLen);
    more := Extend(more, Produce([]), At(ring', rear', got', handed, Read1, Idle, [Recv(1)], true), open, maxLen);
  }

  /** The runner takes the job and comes to its loop. */
  lemma TakesJob(
      sched: seq<Actor>, ring: seq<byte>, rear: nat, got: seq<byte>, handed: seq<seq<byte>>, p: Producer,
      open: Opener, maxLen: nat) returns (more: seq<Actor>)
    requires Run(Start(), sched, open, maxLen) == At(ring, rear, got, handed, p, Idle, [Recv(1)], true)
    requires rear < SIZE && |ring| < SIZE
    ensures Run(Start(), more, open, maxLen) == At(ring, rear, got, handed, p, Size, [], false)
  {
    assert [Recv(1)][1..] == [];
    more := Extend(sched, Consume, At(ring, rear, got, handed, p, Clear, [], true), open, maxLen);
    more := Extend(more, Consume, At(ring, rear, got, handed, p, Size, [], false), open, maxLen);
  }

  lemma HandsOver(
      d: seq<byte>, tail: seq<byte>, rear: nat, got: seq<byte>, handed: seq<seq<byte>>, p: Producer,
      key: byte, open: Opener, maxLen: nat)
    requires |d| <= maxLen && |d| <= MAX_PAYLOAD && OpensWith(open, key)
    requires rear < SIZE && |Packet(d, key) + tail| < SIZE
    ensures HasPacket(Packet(d, key) + tail, maxLen)
    ensures Step(At(Packet(d, key) + tail, rear, got, handed, p, Open, [], false), Consume, open, maxLen) ==
            At(tail, rear, got, handed + [d], p, Size, [], false)
  {
    var packet := Packet(d, key);
    var ring := packet + tail;
    PacketHeader(d, key);
    LenFieldPrefix(packet, ring);
    OpensToPayload(d, key);
    assert ring[..HEADER + |d|] == packet && ring[HEADER + |d|..] == tail;
  }

  /** The runner hands one packet over. */
  lemma TakesPacket(
      sched: seq<Actor>, d: seq<byte>, tail: seq<byte>, rear: nat, got: seq<byte>, handed: seq<seq<byte>>,
      p: Producer, key: byte, open: Opener, maxLen: nat) returns (more: seq<Actor>)
    requires |d| <= maxLen && |d| <= MAX_PAYLOAD && OpensWith(open, key)
    requires rear < SIZE && |Packet(d, key) + tail| < SIZE
    requires Run(Start(), sched, open, maxLen) ==
             At(Packet(d, key) + tail, rear, got, handed, p, Size, [], false)
    ensures Run(Start(), more, open, maxLen) == At(tail, rear, got, handed + [d], p, Size, [], false)
  {
    var ring := Packet(d, key) + tail;
    HandsOver(d, tail, rear, got, handed, p, key, open, maxLen);
    more := Extend(sched, Consume, At(ring, rear, got, handed, p, Peek, [], false), open, maxLen);
    more := Extend(more, Consume, At(ring, rear, got, handed, p, Size2, [], false), open, maxLen);
    more := Extend(more, Consume, At(ring, rear, got, handed, p, Open, [], false), open, maxLen);
    more := Extend(more, Consume, At(tail, rear, got, handed + [d], p, Size, [], false), open, maxLen);
  }

  // ---------------------------------------------------------------- no room

  /** A session's first receive fills the ring before the runner looks at it: the next one finds no room. */
  lemma RunnerBehindLeavesNoRoom(open: Opener, maxLen: nat) returns (sched: seq<Actor>)
    ensures
      var r := Run(Start(), sched, open, maxLen);
      r.fate.NoRoom? && !r.closed && |r.ring| == SIZE - 1
  {
    var chunk: seq<byte> := seq(SIZE - 1, _ => 0);
    assert [] + chunk == chunk;
    sched := Receives([], [], 0, [], [], WholeRing(), chunk, open, maxLen);
    var s := At(chunk, SIZE - 1, chunk, [], Read1, Idle, [Recv(1)], true);
    assert Front(s) == 0;
    sched := Extend(sched, Produce([]), s.(producer := Read2(0)), open, maxLen);
    sched := Extend(sched, Produce([]), s.(producer := Read2(0), fate := NoRoom), open, maxLen);
  }

  // ---------------------------------------------------------------- misplaced bytes

  /** A completion of `chunk` would write over a live byte: one whose cell the second region's part covers. */
  predicate Overwrites(s: State, chunk: seq<byte>) {
    InRing(s) && s.producer.Receiving? && |chunk| <= s.producer.r.len0 + s.producer.r.len1
    && exists k :: 0 <= k < |s.ring| && RingBuffer.Cell(Front(s), k) < |chunk| - s.producer.r.len0
  }

  /** A payload of 2048 bytes, and three packets of them. */
  function Long(): (d: seq<byte>)
    ensures |d| == MAX_PAYLOAD
  {
    seq(MAX_PAYLOAD, _ => 0)
  }

  function Three(key: byte): seq<byte> {
    Packet(Long(), key) + (Packet(Long(), key) + (Packet(Long(), key) + []))
  }

  /** Three packets have come and gone, and the next receive is outstanding. */
  function Emptied(key: byte): State {
    At([], 6159, Three(key), [Long(), Long(), Long()], Receiving(Regions(6159, 2033, 6158)), Idle, [], false)
  }

  lemma ReachTaken(key: byte, open: Opener, maxLen: nat) returns (sched: seq<Actor>)
    requires OpensWith(open, key) && maxLen >= MAX_PAYLOAD
    ensures Run(Start(), sched, open, maxLen) == Emptied(key).(producer := Read1, runner := Size)
  {
    var d, three := Long(), Three(key);
    PacketHeader(d, key);
    assert [] + three == three;
    sched := Receives([], [], 0, [], [], WholeRing(), three, open, maxLen);
    sched := TakesJob(sched, three, 6159, three, [], Read1, open, maxLen);
    var two, one := Packet(d, key) + (Packet(d, key) + []), Packet(d, key) + [];
    sched := TakesPacket(sched, d, two, 6159, three, [], Read1, key, open, maxLen);
    sched := TakesPacket(sched, d, one, 6159, three, [] + [d], Read1, key, open, maxLen);
    sched := TakesPacket(sched, d, [], 6159, three, [] + [d] + [d], Read1, key, open, maxLen);
    assert [] + [d] + [d] + [d] == [d, d, d];
  }

  lemma ReachEmptied(key: byte, open: Opener, maxLen: nat) returns (sched: seq<Actor>)
    requires OpensWith(open, key) && maxLen >= MAX_PAYLOAD
    ensures Run(Start(), sched, open, maxLen) == Emptied(key)
  {
    var s := Emptied(key);
    sched := ReachTaken(key, open, maxLen);
    sched := Extend(sched, Consume, s.(producer := Read1), open, maxLen);
    assert Front(s) == 6159 && Space(s) == SIZE - 1;
    sched := Extend(sched, Produce([]), s.(producer := Read2(2033)), open, maxLen);
    sched := Extend(sched, Produce([]), s.(producer := Read3(2033)), open, maxLen);
    sched := Extend(sched, Produce([]), s, open, maxLen);
  }

  /** A packet that wraps and 30 bytes more have been received; between the first two readings of the front the
      runner has handed the packet over. */
  function Wrapped(key: byte, tail: seq<byte>, p: Producer): State {
    At(tail, 50, Three(key) + (Packet(Long(), key) + tail), [Long(), Long(), Long()] + [Long()], p, Size, [], false)
  }

  /** Before that, the first reading has been made. */
  function Received(key: byte, chunk: seq<byte>, p: Producer): State {
    At(chunk, 50, Three(key) + chunk, [Long(), Long(), Long()], p, Idle, [Recv(1)], true)
  }

  lemma ReachReceived(key: byte, chunk: seq<byte>, open: Opener, maxLen: nat) returns (sched: seq<Actor>)
    requires OpensWith(open, key) && maxLen >= MAX_PAYLOAD && |chunk| == 2083
    ensures Run(Start(), sched, open, maxLen) == Received(key, chunk, Read2(6108))
  {
    var handed := [Long(), Long(), Long()];
    sched := ReachEmptied(key, open, maxLen);
    sched := Receives(sched, [], 6159, Three(key), handed, Regions(6159, 2033, 6158), chunk, open, maxLen);
    assert [] + chunk == chunk && Index(6159 + 2083) == 50;
    assert Front(Received(key, chunk, Read1)) == 6159;
    sched := Extend(sched, Produce([]), Received(key, chunk, Read2(6108)), open, maxLen);
  }

  lemma ReachWrapped(key: byte, tail: seq<byte>, open: Opener, maxLen: nat) returns (sched: seq<Actor>)
    requires OpensWith(open, key) && maxLen >= MAX_PAYLOAD && |tail| == 30
    ensures Run(Start(), sched, open, maxLen) == Wrapped(key, tail, Read2(6108))
  {
    var d, handed := Long(), [Long(), Long(), Long()];
    var chunk := Packet(d, key) + tail;
    PacketHeader(d, key);
    sched := ReachReceived(key, chunk, open, maxLen);
    sched := TakesJob(sched, chunk, 50, Three(key) + chunk, handed, Read2(6108), open, maxLen);
    sched := TakesPacket(sched, d, tail, 50, Three(key) + chunk, handed, Read2(6108), key, open, maxLen);
  }

  /** The runner takes a packet off the ring between the first two readings of the front, and the next completion
      writes over bytes that have been received and not handed over. */
  lemma ConsumedBetweenReadings(key: byte, open: Opener, maxLen: nat) returns (sched: seq<Actor>, chunk: seq<byte>)
    requires OpensWith(open, key) && maxLen >= MAX_PAYLOAD
    ensures
      var s := Run(Start(), sched, open, maxLen);
      && !s.closed && Overwrites(s, chunk)
      && Step(s, Produce(chunk), open, maxLen).fate.Misplaced?
  {
    var tail: seq<byte> := seq(30, _ => 0);
    sched := ReachWrapped(key, tail, open, maxLen);
    var s := Wrapped(key, tail, Receiving(Regions(50, 6108, 2053)));
    assert Front(s) == 20 && Space(s) == 8161;
    sched := Extend(sched, Produce([]), s.(producer := Read3(6108)), open, maxLen);
    sched := Extend(sched, Produce([]), s, open, maxLen);
    chunk := seq(6138, _ => 0);
    assert RingBuffer.Cell(Front(s), 0) == 20;
  }

  // ---------------------------------------------------------------- a stranded packet

  /** The second session, with the flag as the first one left it. */
  function SecondStart(): State {
    Start().(id := 2, isHandled := true, clear := false, dropped := {1})
  }

  /** The first session has its first byte, a Recv job in the queue, and its second receive outstanding. */
  function HandedIn(): State {
    At([0], 1, [0], [], Receiving(Regions(1, SIZE - 2, 0)), Idle, [Recv(1)], true)
  }

  lemma ReachHandedIn(open: Opener, maxLen: nat) returns (sched: seq<Actor>)
    ensures Run(Start(), sched, open, maxLen) == HandedIn()
  {
    var s := HandedIn();
    assert [] + [0 as byte] == [0];
    sched := Receives([], [], 0, [], [], WholeRing(), [0], open, maxLen);
    assert Front(s) == 0;
    sched := Extend(sched, Produce([]), s.(producer := Read2(SIZE - 2)), open, maxLen);
    sched := Extend(sched, Produce([]), s, open, maxLen);
  }

  lemma ReachSecond(open: Opener, maxLen: nat) returns (sched: seq<Actor>)
    ensures Run(Start(), sched, open, maxLen) == SecondStart()
  {
    var s := HandedIn();
    sched := ReachHandedIn(open, maxLen);
    assert [Recv(1)] + [Leave(1)] == [Recv(1), Leave(1)];
    assert [Recv(1), Leave(1)][1..] == [Leave(1)] && [Leave(1)][1..] == [];
    sched := Extend(sched, Slot, s.(life := Released), open, maxLen);
    sched := Extend(sched, Slot, s.(life := Waiting, jobs := [Recv(1), Leave(1)]), open, maxLen);
    sched := Extend(sched, Consume, s.(life := Waiting, jobs := [Leave(1)], dropped := {1}), open, maxLen);
    sched := Extend(sched, Consume, s.(life := Posted, jobs := [], dropped := {1}), open, maxLen);
    sched := Extend(sched, Slot, SecondStart(), open, maxLen);
  }

  /** The first session is released while its Recv job is queued, and the second session of the slot strands
      its first packet. */
  lemma SecondSessionStrands(open: Opener, maxLen: nat) returns (sched: seq<Actor>)
    ensures
      var r := Run(Start(), sched, open, maxLen);
      Stranded(r, maxLen) && r.id == 2 && r.dropped == {1}
  {
    var first := ReachSecond(open, maxLen);
    ReachedInv(first, open, maxLen);
    var last := FirstPacketStrands(SecondStart(), open, maxLen);
    RunCat(Start(), first, last, open, maxLen);
    sched := first + last;
  }
}

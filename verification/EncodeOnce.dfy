/** `CSendBuffer::TryEncode` called by any number of threads on one broadcast buffer
    (src/CSendBuffer.cpp: WriteNetHeader, TryEncode, Encode): a flag tested outside and inside a lock.
    A step is one read of `isEncrypt`, one lock operation, or one byte read or rewritten. */
module EncodeOnce {
  import opened Agents
  import opened Bytes
  import opened Cipher

  /** The bytes from `_head` to `_rear`, the flag, the lock. History: how often Encode was entered. */
  datatype Buffer = Buffer(cells: seq<byte>, isEncrypt: nat, locked: bool, encodes: nat)

  datatype Pc =
    | Idle
    | FirstRead                                           // before reading isEncrypt
    | Acquire                                             // before taking the lock
    | SecondRead                                          // before reading isEncrypt again
    | Summing(i: nat, sum: byte)                          // WriteNetHeader: checksum of i bytes
    | Store(sum: byte)                                    //   before the header is stored
    | Enter                                               // Encode: before reading the header
    | Enciphering(n: nat, rnd: byte, i: nat, p: byte, e: byte) // before turn i of n
    | Bump                                                // before isEncrypt++
    | Unlock
    | Done                                                // the call has returned

  datatype State = State(b: Buffer, agents: seq<Pc>)

  /** One turn of Encode's loop. */
  function Turn(cells: seq<byte>, rnd: byte, i: nat, p: byte, e: byte, key: byte): (seq<byte>, byte, byte)
    requires 1 <= i && i + 3 < |cells|
  {
    var p' := Xor(cells[i + 3], p + rnd + i);
    var e' := Xor(p', e + key + i);
    (cells[i + 3 := e'], p', e')
  }

  /** One atomic step. */
  function Local(b: Buffer, pc: Pc, key: byte): (Buffer, Pc) {
    match pc
    case Idle => (b, FirstRead)
    case FirstRead => (b, if b.isEncrypt != 0 then Done else Acquire)
    case Acquire => if b.locked then (b, pc) else (b.(locked := true), SecondRead)
    case SecondRead => (b, if b.isEncrypt != 0 then Unlock else Summing(0, 0))
    case Summing(i, sum) =>
      (b, if HEADER + i < |b.cells| then Summing(i + 1, Low(sum + b.cells[HEADER + i])) else Store(sum))
    case Store(sum) =>
      if |b.cells| < HEADER then (b, pc)
      else (b.(cells := ClearHeader(|b.cells| - HEADER) + [sum] + b.cells[HEADER..]), Enter)
    case Enter =>
      if |b.cells| < HEADER then (b, pc)
      else (b.(encodes := b.encodes + 1), Enciphering(LenField(b.cells) + 1, b.cells[3], 1, 0, 0))
    case Enciphering(n, rnd, i, p, e) =>
      if i < 1 || i > n then (b, Bump)
      else if i + 3 >= |b.cells| then (b, pc)
      else
        var (cells, p', e') := Turn(b.cells, rnd, i, p, e, key);
        (b.(cells := cells), Enciphering(n, rnd, i + 1, p', e'))
    case Bump => (b.(isEncrypt := b.isEncrypt + 1), Unlock)
    case Unlock => (b.(locked := false), Done)
    case Done => (b, Idle)
  }

  function Step(s: State, a: nat, key: byte): State {
    if a >= |s.agents| then s else
      var (b, pc) := Local(s.b, s.agents[a], key);
      State(b, s.agents[a := pc])
  }

  function Run(s: State, sched: seq<nat>, key: byte): State
    decreases |sched|
  {
    if sched == [] then s else Run(Step(s, sched[0], key), sched[1..], key)
  }

  /** A buffer filled with `payload` and not yet encoded; what the header bytes hold does not matter. */
  predicate Initial(s: State, payload: seq<byte>) {
    && Raw(s.b, payload) && s.b.isEncrypt == 0 && !s.b.locked
    && forall a :: 0 <= a < |s.agents| ==> s.agents[a] == Idle
  }

  // ---------------------------------------------------------------- the invariant

  predicate Raw(b: Buffer, payload: seq<byte>) {
    |b.cells| == HEADER + |payload| && b.cells[HEADER..] == payload && b.encodes == 0
  }

  predicate Encoded(b: Buffer, payload: seq<byte>, key: byte) {
    b.cells == Packet(payload, key) && b.encodes == 1
  }

  /** Inside the lock. */
  predicate Critical(pc: Pc) {
    pc.SecondRead? || Writing(pc) || pc.Unlock?
  }

  predicate Writing(pc: Pc) {
    pc.Summing? || pc.Store? || pc.Enter? || pc.Enciphering? || pc.Bump?
  }

  ghost predicate AgentOk(b: Buffer, pc: Pc, payload: seq<byte>, key: byte)
    requires |payload| <= MAX_PAYLOAD
  {
    match pc
    case Summing(i, sum) => b.isEncrypt == 0 && Raw(b, payload) && i <= |payload| && sum == Sum(payload[..i])
    case Store(sum) => b.isEncrypt == 0 && Raw(b, payload) && sum == Sum(payload)
    case Enter => b.isEncrypt == 0 && b.encodes == 0 && b.cells == PlainPacket(payload)
    case Enciphering(n, rnd, i, p, e) =>
      && b.isEncrypt == 0 && b.encodes == 1 && n == |payload| + 1 && rnd == RANDOM_KEY && 1 <= i <= n + 1
      && Encoding(b.cells, PlainPacket(payload), n, i, p, e, key, rnd)
    case Bump => b.isEncrypt == 0 && Encoded(b, payload, key)
    case Unlock => b.isEncrypt == 1
    case Done => b.isEncrypt == 1
    case _ => true
  }

  /** The buffer, given how many agents are inside the lock and how many of them write. */
  predicate BufferOk(b: Buffer, payload: seq<byte>, key: byte, critical: nat, writing: nat) {
    && critical == Bit(b.locked) && writing <= critical && b.isEncrypt <= 1
    && (b.isEncrypt == 1 ==> Encoded(b, payload, key))
    && (b.isEncrypt == 0 && writing == 0 ==> Raw(b, payload))
  }

  ghost predicate Inv(s: State, payload: seq<byte>, key: byte)
    requires |payload| <= MAX_PAYLOAD
  {
    && BufferOk(s.b, payload, key, Count(s.agents, Critical), Count(s.agents, Writing))
    && (forall a :: 0 <= a < |s.agents| ==> AgentOk(s.b, s.agents[a], payload, key))
  }

  // ---------------------------------------------------------------- one step

  lemma SumStep(b: Buffer, pc: Pc, payload: seq<byte>, key: byte)
    requires |payload| <= MAX_PAYLOAD && AgentOk(b, pc, payload, key) && (pc.Summing? || pc.Store?)
    ensures var (b', pc') := Local(b, pc, key); AgentOk(b', pc', payload, key) && Writing(pc')
  {
    if pc.Summing? && HEADER + pc.i < |b.cells| {
      assert b.cells[HEADER..][pc.i] == b.cells[HEADER + pc.i];
      SumTurn(payload, pc.i);
    } else if pc.Summing? {
      assert payload[..pc.i] == payload;
    }
  }

  lemma EnterStep(b: Buffer, pc: Pc, payload: seq<byte>, key: byte)
    requires |payload| <= MAX_PAYLOAD && AgentOk(b, pc, payload, key) && pc.Enter?
    ensures var (b', pc') := Local(b, pc, key); AgentOk(b', pc', payload, key) && Writing(pc')
  {
    var was := PlainPacket(payload);
    assert was[..CHECKSUM_OFFSET] == ClearHeader(|payload|);
    LenFieldOf(payload, was);
    var enc := EncodeFrom(was[CHECKSUM_OFFSET..CHECKSUM_OFFSET + |payload| + 1], 1, 0, 0, key, RANDOM_KEY);
    assert was == Spliced(was, CHECKSUM_OFFSET, enc, 0);
  }

  lemma LoopStep(b: Buffer, pc: Pc, payload: seq<byte>, key: byte)
    requires |payload| <= MAX_PAYLOAD && AgentOk(b, pc, payload, key) && pc.Enciphering? && pc.i <= pc.n
    ensures var (b', pc') := Local(b, pc, key); AgentOk(b', pc', payload, key) && Writing(pc')
  {
    EncodingTurn(b.cells, PlainPacket(payload), pc.n, pc.i, pc.p, pc.e, key, pc.rnd);
  }

  /** After its last turn the loop has produced the packet. */
  lemma LoopExit(b: Buffer, pc: Pc, payload: seq<byte>, key: byte)
    requires |payload| <= MAX_PAYLOAD && AgentOk(b, pc, payload, key) && pc.Enciphering? && pc.i > pc.n
    ensures var (b', pc') := Local(b, pc, key); AgentOk(b', pc', payload, key) && Writing(pc')
  {
    var was := PlainPacket(payload);
    assert was[CHECKSUM_OFFSET..CHECKSUM_OFFSET + |payload| + 1] == [Sum(payload)] + payload;
  }

  lemma LocalKeeps(b: Buffer, pc: Pc, payload: seq<byte>, key: byte, critical: nat, writing: nat)
    requires |payload| <= MAX_PAYLOAD && AgentOk(b, pc, payload, key) && BufferOk(b, payload, key, critical, writing)
    requires Bit(Critical(pc)) <= critical && Bit(Writing(pc)) <= writing
    requires Critical(pc) && !Writing(pc) ==> writing == 0
    ensures
      var (b', pc') := Local(b, pc, key);
      && AgentOk(b', pc', payload, key)
      && critical + Bit(Critical(pc')) - Bit(Critical(pc)) >= 0 && writing + Bit(Writing(pc')) - Bit(Writing(pc)) >= 0
      && BufferOk(b', payload, key, critical + Bit(Critical(pc')) - Bit(Critical(pc)),
                  writing + Bit(Writing(pc')) - Bit(Writing(pc)))
  {
    if pc.Summing? || pc.Store? {
      SumStep(b, pc, payload, key);
    } else if pc.Enter? {
      EnterStep(b, pc, payload, key);
    } else if pc.Enciphering? && pc.i <= pc.n {
      LoopStep(b, pc, payload, key);
    } else if pc.Enciphering? {
      LoopExit(b, pc, payload, key);
    }
  }

  /** Whoever is inside the lock is alone in it. */
  lemma AloneInside(s: State, a: nat)
    requires a < |s.agents| && Count(s.agents, Critical) <= 1 && Critical(s.agents[a]) && !Writing(s.agents[a])
    ensures Count(s.agents, Writing) == 0
  {
    if Count(s.agents, Writing) >= 1 {
      var w := CountSome(s.agents, Writing);
      CountTwo(s.agents, a, w, Critical);
    }
  }

  /** Every step keeps the invariant. */
  lemma StepInv(s: State, a: nat, payload: seq<byte>, key: byte)
    requires |payload| <= MAX_PAYLOAD && Inv(s, payload, key)
    ensures Inv(Step(s, a, key), payload, key)
  {
    if a < |s.agents| {
      var pc := s.agents[a];
      var (b', pc') := Local(s.b, pc, key);
      var agents' := s.agents[a := pc'];
      var critical, writing := Count(s.agents, Critical), Count(s.agents, Writing);
      CountMove(s.agents, a, pc', Critical);
      CountMove(s.agents, a, pc', Writing);
      if Critical(pc) {
        CountOne(s.agents, a, Critical);
      }
      if Writing(pc) {
        CountOne(s.agents, a, Writing);
      } else if Critical(pc) {
        AloneInside(s, a);
      }
      LocalKeeps(s.b, pc, payload, key, critical, writing);
      forall j | 0 <= j < |s.agents|
        ensures AgentOk(b', agents'[j], payload, key)
      {
        if j != a {
          if Writing(pc) && Writing(s.agents[j]) {
            CountTwo(s.agents, a, j, Writing);
          }
        }
      }
    }
  }

  lemma {:induction false} RunInv(s: State, sched: seq<nat>, payload: seq<byte>, key: byte)
    requires |payload| <= MAX_PAYLOAD && Inv(s, payload, key)
    ensures Inv(Run(s, sched, key), payload, key)
    decreases |sched|
  {
    if sched != [] {
      StepInv(s, sched[0], payload, key);
      RunInv(Step(s, sched[0], key), sched[1..], payload, key);
    }
  }

  /** In every state of every run, with any number of threads: Encode has been entered at most once, and
      if any call has returned it was entered exactly once and the bytes are the encoded packet. Nobody
      rewrites them afterwards. */
  lemma EncodedExactlyOnce(s: State, sched: seq<nat>, payload: seq<byte>, key: byte)
    requires |payload| <= MAX_PAYLOAD && Initial(s, payload)
    ensures
      var r := Run(s, sched, key);
      && r.b.encodes <= 1
      && (r.b.isEncrypt > 0 ==>
           r.b.cells == Packet(payload, key) && forall a :: 0 <= a < |r.agents| ==> !Writing(r.agents[a]))
      && (forall a :: 0 <= a < |r.agents| && r.agents[a].Done? ==>
           r.b.encodes == 1 && r.b.isEncrypt == 1 && r.b.cells == Packet(payload, key))
  {
    CountZero(s.agents, Critical);
    CountZero(s.agents, Writing);
    RunInv(s, sched, payload, key);
    var r := Run(s, sched, key);
    if Count(r.agents, Writing) > 0 {
      var w := CountSome(r.agents, Writing);
      assert AgentOk(r.b, r.agents[w], payload, key);
    }
  }

  // ---------------------------------------------------------------- calls left alone

  /** Steps until the call is over, for a payload of `len` bytes. */
  function ToGo(b: Buffer, pc: Pc, len: nat): int {
    match pc
    case Idle => 0
    case FirstRead => if b.isEncrypt != 0 then 2 else 2 * len + 11
    case Acquire => if b.isEncrypt != 0 then 4 else 2 * len + 10
    case SecondRead => if b.isEncrypt != 0 then 3 else 2 * len + 9
    case Summing(i, _) => 2 * len + 8 - i
    case Store(_) => len + 7
    case Enter => len + 6
    case Enciphering(n, _, i, _, _) => n - i + 5
    case Bump => 3
    case Unlock => 2
    case Done => 1
  }

  lemma CallCounts(b: Buffer, pc: Pc, payload: seq<byte>, key: byte)
    requires |payload| <= MAX_PAYLOAD && AgentOk(b, pc, payload, key) && !pc.Idle?
    requires b.locked ==> Critical(pc)
    ensures
      var (b', pc') := Local(b, pc, key);
      ToGo(b', pc', |payload|) + 1 == ToGo(b, pc, |payload|) && (b'.locked ==> Critical(pc'))
  {
    if pc.Enter? {
      EnterStep(b, pc, payload, key);
    }
  }

  function Alone(a: nat, n: nat): seq<nat> {
    seq(n, _ => a)
  }

  lemma AloneBegins(s: State, a: nat, n: nat, key: byte, s': State)
    requires n > 0 && s' == Step(s, a, key)
    ensures Run(s, Alone(a, n), key) == Run(s', Alone(a, n - 1), key)
  {
    assert Alone(a, n)[1..] == Alone(a, n - 1);
  }

  lemma ToGoIsNat(b: Buffer, pc: Pc, payload: seq<byte>, key: byte)
    requires |payload| <= MAX_PAYLOAD && AgentOk(b, pc, payload, key)
    ensures ToGo(b, pc, |payload|) >= Bit(!pc.Idle?)
  {
  }

  /** A call that has the lock, or finds it free, and is left alone, is over after the given number of steps, and gives
      the lock back; the others, wherever they stand, are not touched. */
  lemma {:induction false} CallEnds(s: State, a: nat, payload: seq<byte>, key: byte)
    requires |payload| <= MAX_PAYLOAD && Inv(s, payload, key) && a < |s.agents|
    requires s.b.locked ==> Critical(s.agents[a])
    ensures ToGo(s.b, s.agents[a], |payload|) >= 0
    ensures
      var r := Run(s, Alone(a, ToGo(s.b, s.agents[a], |payload|)), key);
      && Inv(r, payload, key) && r.agents == s.agents[a := Idle] && !r.b.locked
      && (!s.agents[a].Idle? ==> r.b.isEncrypt == 1)
    decreases ToGo(s.b, s.agents[a], |payload|)
  {
    var pc := s.agents[a];
    assert AgentOk(s.b, pc, payload, key);
    ToGoIsNat(s.b, pc, payload, key);
    if !pc.Idle? {
      var s' := Step(s, a, key);
      CallCounts(s.b, pc, payload, key);
      StepInv(s, a, payload, key);
      AloneBegins(s, a, ToGo(s.b, pc, |payload|), key, s');
      CallEnds(s', a, payload, key);
      assert pc.Done? ==> s.b.isEncrypt == 1;
    }
  }

  /** So every call of TryEncode, at a moment when nobody has the lock, leaves the encoded packet: after two reads and
      one lock if another call encoded it meanwhile, after a single read if it was encoded when the call began. */
  lemma CallAlone(s: State, a: nat, payload: seq<byte>, key: byte)
    requires |payload| <= MAX_PAYLOAD && Inv(s, payload, key) && !s.b.locked
    requires a < |s.agents| && s.agents[a] == Idle
    ensures
      var r := Run(s, Alone(a, if s.b.isEncrypt != 0 then 3 else 2 * |payload| + 12), key);
      && r.agents == s.agents && !r.b.locked
      && r.b.cells == Packet(payload, key) && r.b.isEncrypt == 1 && r.b.encodes == 1
  {
    var s' := Step(s, a, key);
    StepInv(s, a, payload, key);
    AloneBegins(s, a, if s.b.isEncrypt != 0 then 3 else 2 * |payload| + 12, key, s');
    CallEnds(s', a, payload, key);
    assert s'.agents[a := Idle] == s.agents;
  }
}

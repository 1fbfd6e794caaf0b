/** The life of a session slot: `_refCount` carries a reference count and RELEASE_FLAG in one word
    (include/Session.h, src/Session.cpp, src/NormalIOCP.cpp, src/ReleaseExecutable.cpp).

    An agent is a thread inside one of these operations, or a reference parked in an outstanding
    overlapped operation. Every Interlocked operation and every plain read of a shared field is one step
    of one agent; a schedule is any list of steps, so a claim about every schedule is a claim about every
    interleaving. Sessions stay in the base group here. The free-index stack is atomic, which is what
    `TaggedStack` proves of it. */
module SlotLifetime {
  import opened Agents

  const RELEASE_FLAG := 0x10_0000
  const MAX_SESSIONS := 15000

  /** `SessionID`: a running number and the slot index in its top bits. */
  datatype SessionId = SessionId(serial: nat, index: nat)

  datatype Pc =
    | Idle
    | FindInc(id: SessionId)            // FindSession: before IncreaseRef
    | FindCheck(id: SessionId)          // counted, flag seen clear; before reading _sessionId
    | Pinned(index: nat)                // FindSession returned the slot, or a reference taken by accept or RealSend
    | TouchInc(index: nat)              // RealSend, CheckTimeout: before IncreaseRef
    | RelDec(index: nat)                // Release: before InterlockedDecrement
    | RelCas(index: nat)                // the decrement gave 0; before the compare-exchange
    | RelPost(index: nat)               // the exchange succeeded; before PostRelease
    | Posted(index: nat)                // the ReleaseExecutable completion is queued
    | RelReset(index: nat)              // ReleaseExecutable: before Reset
    | RelPush(index: nat)               // before ReleaseFreeIndex
    | AccReset(id: SessionId)           // AcceptThread popped a free index; before Reset
    | AccInc(id: SessionId)             // before IncreaseRef
    | AccSetId(id: SessionId)           // before SetSessionId
    | AccOff(id: SessionId)             // before OffReleaseFlag

  /** A slot, with history counters: OffReleaseFlag steps, successful 0-to-flag exchanges, Reset steps. */
  datatype Slot = Slot(refCount: nat, id: SessionId, lifetimes: nat, releases: nat, resets: nat)

  datatype State = State(slots: seq<Slot>, free: seq<nat>, serial: nat, agents: seq<Pc>)

  /** What an idle agent turns to; an agent inside an operation has no choice. */
  datatype Choice = Find(id: SessionId) | Touch(index: nat) | Accept | Release

  /** The constructor pushes 14999 down to 0, so the stack of free indices starts as 0, 1, 2 and so on. */
  predicate CountsUp(free: seq<nat>) {
    forall k :: 0 <= k < |free| ==> free[k] == k
  }

  /** The server before its first accept, with any number of agents. */
  predicate Initial(s: State) {
    && |s.slots| == MAX_SESSIONS && |s.free| == MAX_SESSIONS && CountsUp(s.free)
    && (forall i :: 0 <= i < |s.slots| ==> s.slots[i] == Slot(RELEASE_FLAG, SessionId(0, 0), 0, 0, 0))
    && (forall a :: 0 <= a < |s.agents| ==> s.agents[a] == Idle)
  }

  predicate Flagged(slot: Slot) {
    slot.refCount >= RELEASE_FLAG
  }

  /** `InterlockedBitTestAndReset(&_refCount, 20)`. */
  function ClearBit20(word: nat): nat {
    if (word / RELEASE_FLAG) % 2 == 1 then word - RELEASE_FLAG else word
  }

  /** Slot an operation works on. */
  function At(pc: Pc): nat {
    match pc
    case FindInc(id) => id.index
    case FindCheck(id) => id.index
    case AccReset(id) => id.index
    case AccInc(id) => id.index
    case AccSetId(id) => id.index
    case AccOff(id) => id.index
    case Idle => MAX_SESSIONS
    case _ => pc.index
  }

  /** One atomic step of an operation: what it does to its slot, and where the operation goes on. */
  function Local(slot: Slot, pc: Pc, c: Choice): (Slot, Pc)
    requires !pc.Idle?
  {
    var i := At(pc);
    match pc
    case FindInc(id) =>
      var word := slot.refCount + 1;
      (slot.(refCount := word), if word > RELEASE_FLAG then RelDec(i) else FindCheck(id))
    case FindCheck(id) =>
      (slot, if slot.id != id then RelDec(i) else Pinned(i))
    case TouchInc(_) =>
      var word := slot.refCount + 1;
      (slot.(refCount := word), if word >= RELEASE_FLAG then RelDec(i) else Pinned(i))
    case Pinned(_) => (slot, if c.Release? then RelDec(i) else pc)
    case RelDec(_) =>
      if slot.refCount == 0 then (slot, pc) else
      var word := slot.refCount - 1;
      (slot.(refCount := word), if word == 0 then RelCas(i) else Idle)
    case RelCas(_) =>
      if slot.refCount == 0 then (slot.(refCount := RELEASE_FLAG, releases := slot.releases + 1), RelPost(i))
      else (slot, Idle)
    case RelPost(_) => (slot, Posted(i))
    case Posted(_) => (slot, RelReset(i))
    case RelReset(_) => (slot.(resets := slot.resets + 1), RelPush(i))
    case RelPush(_) => (slot, Idle)
    case AccReset(id) => (slot.(resets := slot.resets + 1), AccInc(id))
    case AccInc(id) => (slot.(refCount := slot.refCount + 1), AccSetId(id))
    case AccSetId(id) => (slot.(id := id), AccOff(id))
    case AccOff(_) =>
      (slot.(refCount := ClearBit20(slot.refCount), lifetimes := slot.lifetimes + 1), Pinned(i))
  }

  /** One step of agent `a`. A step that is not possible leaves the state alone. */
  function Step(s: State, a: nat, c: Choice): State {
    if a >= |s.agents| then s
    else if s.agents[a].Idle? then Begin(s, a, c)
    else if At(s.agents[a]) >= |s.slots| then s
    else Advance(s, a, c)
  }

  function Advance(s: State, a: nat, c: Choice): State
    requires a < |s.agents| && !s.agents[a].Idle? && At(s.agents[a]) < |s.slots|
  {
    var pc := s.agents[a];
    var i := At(pc);
    var (slot, next) := Local(s.slots[i], pc, c);
    State(s.slots[i := slot], if pc.RelPush? then [i] + s.free else s.free, s.serial, s.agents[a := next])
  }

  function Begin(s: State, a: nat, c: Choice): State
    requires a < |s.agents|
  {
    match c
    case Find(id) => if id.index >= MAX_SESSIONS then s else s.(agents := s.agents[a := FindInc(id)])
    case Touch(i) => if i >= MAX_SESSIONS then s else s.(agents := s.agents[a := TouchInc(i)])
    case Accept =>
      if s.free == [] then s else
      State(s.slots, s.free[1..], s.serial + 1, s.agents[a := AccReset(SessionId(s.serial + 1, s.free[0]))])
    case Release => s
  }

  type Schedule = seq<(nat, Choice)>

  function Run(s: State, sched: Schedule): State
    decreases |sched|
  {
    if sched == [] then s else Run(Step(s, sched[0].0, sched[0].1), sched[1..])
  }

  /** An agent in one of these places has incremented `_refCount` and not yet decremented it. */
  predicate Holds(pc: Pc, i: nat) {
    At(pc) == i && (pc.FindCheck? || pc.Pinned? || pc.RelDec? || pc.AccSetId? || pc.AccOff?)
  }

  /** An agent in one of these places is taking the slot out of use or into use. */
  predicate Owns(pc: Pc, i: nat) {
    At(pc) == i && (pc.RelPost? || pc.Posted? || pc.RelReset? || pc.RelPush? ||
                    pc.AccReset? || pc.AccInc? || pc.AccSetId? || pc.AccOff?)
  }

  function HoldsAt(i: nat): Pc -> bool {
    pc => Holds(pc, i)
  }

  function OwnsAt(i: nat): Pc -> bool {
    pc => Owns(pc, i)
  }

  /** Outstanding references to slot `i`. */
  ghost function References(s: State, i: nat): nat {
    Count(s.agents, HoldsAt(i))
  }

  /** Places the index occupies outside its slot: entries on the free stack plus agents recycling it. */
  ghost function Places(s: State, i: nat): nat {
    Count(s.agents, OwnsAt(i)) + multiset(s.free)[i]
  }

  /** The hypothesis of the protocol: fewer than 2^20 references to a slot at once. */
  ghost predicate FewReferences(s: State) {
    forall i :: 0 <= i < |s.slots| ==> References(s, i) < RELEASE_FLAG
  }

  ghost predicate FewAlong(s: State, sched: Schedule)
    decreases |sched|
  {
    FewReferences(s) && (sched == [] || FewAlong(Step(s, sched[0].0, sched[0].1), sched[1..]))
  }

  /** The word is the flag plus the references, a flagged slot is in exactly one place and an unflagged
      one in none, and each lifetime but the current one has been released once. */
  predicate SlotOk(slot: Slot, references: nat, places: nat) {
    var flag := Bit(Flagged(slot));
    && slot.refCount == flag * RELEASE_FLAG + references
    && places == flag
    && slot.lifetimes + flag == slot.releases + 1
  }

  ghost predicate SlotInv(s: State, i: nat) {
    i < |s.slots| && (SlotOk(s.slots[i], References(s, i), Places(s, i)) && s.slots[i].id.serial <= s.serial)
  }

  ghost predicate AgentInv(s: State, a: nat) {
    a < |s.agents| && (
      var pc := s.agents[a];
      && (pc.Idle? || At(pc) < |s.slots|)
      && (pc.FindCheck? || pc.Pinned? ==> !Flagged(s.slots[At(pc)]))
      && (pc.AccReset? || pc.AccInc? || pc.AccSetId? ==> s.slots[At(pc)].id.serial < pc.id.serial <= s.serial)
      && (pc.AccOff? ==> s.slots[At(pc)].id == pc.id))
  }

  ghost predicate Inv(s: State) {
    && |s.slots| == MAX_SESSIONS
    && (forall i :: 0 <= i < |s.free| ==> s.free[i] < MAX_SESSIONS)
    && (forall i :: 0 <= i < |s.slots| ==> SlotInv(s, i))
    && (forall a :: 0 <= a < |s.agents| ==> AgentInv(s, a))
  }

  /** OffReleaseFlag takes exactly the flag away. */
  lemma ClearsFlag(word: nat)
    requires RELEASE_FLAG <= word < 2 * RELEASE_FLAG
    ensures ClearBit20(word) == word - RELEASE_FLAG
  {
  }

  /** Every step of every operation keeps its slot right, given how the step changes the number of
      references and places. */
  lemma LocalKeeps(slot: Slot, pc: Pc, c: Choice, references: nat, places: nat)
    requires !pc.Idle? && SlotOk(slot, references, places) && references < RELEASE_FLAG
    requires Holds(pc, At(pc)) ==> references >= 1
    requires Owns(pc, At(pc)) ==> places >= 1
    ensures
      var (slot', pc') := Local(slot, pc, c);
      var references' := references + Bit(Holds(pc', At(pc))) - Bit(Holds(pc, At(pc)));
      var places' := places + Bit(Owns(pc', At(pc))) - Bit(Owns(pc, At(pc))) + Bit(pc.RelPush?);
      references' < RELEASE_FLAG ==> SlotOk(slot', references', places')
  {
    if pc.AccOff? {
      ClearsFlag(slot.refCount);
    }
  }

  /** An agent that looked up or took the slot in this lifetime keeps it out of every recycling step. */
  lemma LocalStable(slot: Slot, pc: Pc, c: Choice, references: nat, places: nat)
    requires !pc.Idle? && SlotOk(slot, references, places) && references < RELEASE_FLAG
    requires Holds(pc, At(pc)) ==> references >= 1
    requires Owns(pc, At(pc)) ==> places >= 1
    ensures
      var (slot', pc') := Local(slot, pc, c);
      && (references > 0 && !Flagged(slot) && slot'.refCount < RELEASE_FLAG ==>
           slot' == slot.(refCount := slot'.refCount))
      && (references > 0 && !Flagged(slot) && !pc.FindInc? && !pc.TouchInc? ==> !Flagged(slot'))
      && (slot'.id != slot.id ==> pc.AccSetId? && slot'.id == pc.id)
  {
    if pc.AccOff? {
      ClearsFlag(slot.refCount);
    }
  }

  lemma PopCounts(free: seq<nat>, j: nat)
    requires free != []
    ensures multiset(free)[j] == multiset(free[1..])[j] + Bit(free[0] == j)
  {
    assert free == [free[0]] + free[1..];
  }

  /** What one step does to the references and places of a slot. */
  lemma CountStep(s: State, s': State, a: nat, j: nat)
    requires a < |s.agents| && |s'.agents| == |s.agents| && s'.agents == s.agents[a := s'.agents[a]]
    ensures References(s', j) + Bit(Holds(s.agents[a], j)) == References(s, j) + Bit(Holds(s'.agents[a], j))
    ensures Places(s', j) + Bit(Owns(s.agents[a], j)) + multiset(s.free)[j]
         == Places(s, j) + Bit(Owns(s'.agents[a], j)) + multiset(s'.free)[j]
    ensures Holds(s.agents[a], j) ==> References(s, j) >= 1
    ensures Owns(s.agents[a], j) ==> Places(s, j) >= 1
  {
    CountMove(s.agents, a, s'.agents[a], HoldsAt(j));
    CountMove(s.agents, a, s'.agents[a], OwnsAt(j));
    if Holds(s.agents[a], j) {
      CountOne(s.agents, a, HoldsAt(j));
    }
    if Owns(s.agents[a], j) {
      CountOne(s.agents, a, OwnsAt(j));
    }
  }

  lemma AdvanceSlot(s: State, a: nat, c: Choice, j: nat)
    requires Inv(s) && FewReferences(s) && j < |s.slots|
    requires a < |s.agents| && !s.agents[a].Idle? && At(s.agents[a]) < |s.slots|
    requires FewReferences(Advance(s, a, c))
    ensures SlotInv(Advance(s, a, c), j)
  {
    var s' := Advance(s, a, c);
    var pc := s.agents[a];
    assert SlotInv(s, j) && AgentInv(s, a);
    CountStep(s, s', a, j);
    if j == At(pc) {
      LocalKeeps(s.slots[j], pc, c, References(s, j), Places(s, j));
      LocalStable(s.slots[j], pc, c, References(s, j), Places(s, j));
      assert References(s', j) < RELEASE_FLAG;
    }
  }

  /** Two agents never recycle one slot. */
  lemma OwnersExclusive(s: State, a: nat, b: nat, i: nat)
    requires Inv(s) && a < |s.agents| && b < |s.agents| && a != b && i < |s.slots| && Owns(s.agents[a], i)
    ensures !Owns(s.agents[b], i)
  {
    assert SlotInv(s, i);
    if Owns(s.agents[b], i) {
      CountTwo(s.agents, a, b, OwnsAt(i));
    }
  }

  lemma AdvanceOther(s: State, a: nat, c: Choice, b: nat)
    requires Inv(s) && FewReferences(s) && b < |s.agents| && a != b
    requires a < |s.agents| && !s.agents[a].Idle? && At(s.agents[a]) < |s.slots|
    requires FewReferences(Advance(s, a, c))
    ensures AgentInv(Advance(s, a, c), b)
  {
    var s' := Advance(s, a, c);
    var pc := s.agents[a];
    var i := At(pc);
    assert AgentInv(s, b) && SlotInv(s, i);
    if !s.agents[b].Idle? && At(s.agents[b]) == i {
      CountStep(s, s', a, i);
      LocalStable(s.slots[i], pc, c, References(s, i), Places(s, i));
      assert References(s', i) < RELEASE_FLAG;
      if Holds(s.agents[b], i) {
        CountOne(s.agents, b, HoldsAt(i));
      }
      if Owns(pc, i) {
        OwnersExclusive(s, a, b, i);
      }
    }
  }

  lemma AdvanceSelf(s: State, a: nat, c: Choice)
    requires Inv(s) && FewReferences(s)
    requires a < |s.agents| && !s.agents[a].Idle? && At(s.agents[a]) < |s.slots|
    requires FewReferences(Advance(s, a, c))
    ensures AgentInv(Advance(s, a, c), a)
  {
    var pc := s.agents[a];
    var i := At(pc);
    assert AgentInv(s, a) && SlotInv(s, i);
    CountStep(s, Advance(s, a, c), a, i);
    assert References(Advance(s, a, c), i) < RELEASE_FLAG;
    if pc.AccOff? {
      ClearsFlag(s.slots[i].refCount);
    }
  }

  lemma BeginInv(s: State, a: nat, c: Choice)
    requires Inv(s) && a < |s.agents| && s.agents[a].Idle?
    ensures Inv(Begin(s, a, c))
  {
    var s' := Begin(s, a, c);
    forall j | 0 <= j < |s'.slots|
      ensures SlotInv(s', j)
    {
      assert SlotInv(s, j);
      CountStep(s, s', a, j);
      if s.free != [] {
        PopCounts(s.free, j);
      }
    }
    forall b | 0 <= b < |s'.agents|
      ensures AgentInv(s', b)
    {
      assert AgentInv(s, b);
      if c.Accept? && s.free != [] {
        assert SlotInv(s, s.free[0]);
      }
    }
  }

  lemma StepInv(s: State, a: nat, c: Choice)
    requires Inv(s) && FewReferences(s) && FewReferences(Step(s, a, c))
    ensures Inv(Step(s, a, c))
  {
    if a < |s.agents| {
      assert AgentInv(s, a);
      if s.agents[a].Idle? {
        BeginInv(s, a, c);
      } else {
        forall j | 0 <= j < |s.slots|
          ensures SlotInv(Advance(s, a, c), j)
        {
          AdvanceSlot(s, a, c, j);
        }
        forall b | 0 <= b < |s.agents|
          ensures AgentInv(Advance(s, a, c), b)
        {
          if a == b {
            AdvanceSelf(s, a, c);
          } else {
            AdvanceOther(s, a, c, b);
          }
        }
      }
    }
  }

  lemma {:induction false} EachOnce(free: seq<nat>, j: nat)
    requires CountsUp(free)
    ensures multiset(free)[j] == Bit(j < |free|)
  {
    if free != [] {
      var n := |free| - 1;
      EachOnce(free[..n], j);
      assert free == free[..n] + [n];
    }
  }

  lemma InitInv(s: State)
    requires Initial(s)
    ensures Inv(s)
  {
    forall i | 0 <= i < |s.slots|
      ensures SlotInv(s, i)
    {
      CountZero(s.agents, HoldsAt(i));
      CountZero(s.agents, OwnsAt(i));
      EachOnce(s.free, i);
    }
  }

  lemma {:induction false} RunInv(s: State, sched: Schedule)
    requires Inv(s) && FewAlong(s, sched)
    ensures Inv(Run(s, sched)) && |Run(s, sched).agents| == |s.agents|
    decreases |sched|
  {
    if sched != [] {
      var s' := Step(s, sched[0].0, sched[0].1);
      assert FewReferences(s');
      StepInv(s, sched[0].0, sched[0].1);
      RunInv(s', sched[1..]);
    }
  }

  /** In every reachable state `_refCount` is RELEASE_FLAG, when set, plus the outstanding references. */
  lemma RefCountIsExact(s: State, sched: Schedule, i: nat)
    requires Initial(s) && FewAlong(s, sched) && i < MAX_SESSIONS
    ensures
      var t := Run(s, sched);
      && |t.slots| == MAX_SESSIONS
      && t.slots[i].refCount == (if Flagged(t.slots[i]) then RELEASE_FLAG else 0) + References(t, i)
  {
    InitInv(s);
    RunInv(s, sched);
    assert SlotInv(Run(s, sched), i);
  }

  /** In every reachable state each index is in exactly one place: once on the free stack, in the hands
      of exactly one recycling agent, or in use. */
  lemma IndicesPartition(s: State, sched: Schedule, i: nat)
    requires Initial(s) && FewAlong(s, sched) && i < MAX_SESSIONS
    ensures
      var t := Run(s, sched);
      && |t.slots| == MAX_SESSIONS
      && multiset(t.free)[i] + Count(t.agents, OwnsAt(i)) + Bit(!Flagged(t.slots[i])) == 1
  {
    InitInv(s);
    RunInv(s, sched);
    assert SlotInv(Run(s, sched), i);
  }

  /** Over any stretch of a run, the exchanges of 0 for the flag that succeeded are the OffReleaseFlag
      steps, up to the lifetime that is open at either end. So within one lifetime it succeeds at most
      once, however long ago a thread decided to try it. */
  lemma OneReleasePerLifetime(s: State, before: Schedule, sched: Schedule, i: nat)
    requires Initial(s) && FewAlong(s, before) && FewAlong(Run(s, before), sched) && i < MAX_SESSIONS
    ensures
      var t, u := Run(s, before), Run(Run(s, before), sched);
      && |t.slots| == |u.slots| == MAX_SESSIONS
      && u.slots[i].releases - t.slots[i].releases ==
         u.slots[i].lifetimes - t.slots[i].lifetimes + Bit(Flagged(u.slots[i])) - Bit(Flagged(t.slots[i]))
      && (u.slots[i].lifetimes == t.slots[i].lifetimes ==> u.slots[i].releases <= t.slots[i].releases + 1)
  {
    InitInv(s);
    RunInv(s, before);
    RunInv(Run(s, before), sched);
    assert SlotInv(Run(s, before), i) && SlotInv(Run(Run(s, before), sched), i);
  }

  /** Agent `a` holds the slot in every state of the stretch. */
  predicate PinnedThroughout(s: State, sched: Schedule, a: nat, i: nat)
    decreases |sched|
  {
    && a < |s.agents| && s.agents[a] == Pinned(i)
    && (sched == [] || PinnedThroughout(Step(s, sched[0].0, sched[0].1), sched[1..], a, i))
  }

  /** While one agent is pinned, a step of any agent changes at most the count of that slot. */
  lemma StepKeepsPinned(s: State, b: nat, c: Choice, a: nat, i: nat)
    requires Inv(s) && FewReferences(s) && FewReferences(Step(s, b, c))
    requires a < |s.agents| && s.agents[a] == Pinned(i)
    ensures
      var s' := Step(s, b, c);
      i < |s.slots| == |s'.slots| && s'.slots[i] == s.slots[i].(refCount := s'.slots[i].refCount)
  {
    assert AgentInv(s, a) && SlotInv(s, i);
    CountOne(s.agents, a, HoldsAt(i));
    StepInv(s, b, c);
    if b < |s.agents| && !s.agents[b].Idle? {
      assert AgentInv(s, b);
      var pc := s.agents[b];
      if At(pc) == i {
        CountStep(s, Step(s, b, c), b, i);
        assert SlotInv(Step(s, b, c), i);
        LocalStable(s.slots[i], pc, c, References(s, i), Places(s, i));
        assert References(Step(s, b, c), i) < RELEASE_FLAG;
      }
    }
  }

  /** Slot pinning: from a successful FindSession until the matching Release, in every interleaving, the
      flag stays clear, the session id stays the same, and the slot is neither reset nor released nor
      put on the free stack. */
  lemma {:induction false} SlotPinning(s: State, sched: Schedule, a: nat, i: nat)
    requires Inv(s) && FewAlong(s, sched) && PinnedThroughout(s, sched, a, i)
    ensures
      var t := Run(s, sched);
      && i < |s.slots| == |t.slots|
      && !Flagged(t.slots[i]) && i !in t.free
      && t.slots[i].id == s.slots[i].id
      && t.slots[i].resets == s.slots[i].resets
      && t.slots[i].releases == s.slots[i].releases
      && t.slots[i].lifetimes == s.slots[i].lifetimes
    decreases |sched|
  {
    assert AgentInv(s, a) && SlotInv(s, i);
    if sched != [] {
      var s' := Step(s, sched[0].0, sched[0].1);
      assert FewReferences(s');
      StepKeepsPinned(s, sched[0].0, sched[0].1, a, i);
      StepInv(s, sched[0].0, sched[0].1);
      SlotPinning(s', sched[1..], a, i);
    }
  }

  /** FindSession hands out a slot only while it belongs to the session that was asked for. */
  lemma FindReturnsTheSession(s: State, a: nat, c: Choice, id: SessionId)
    requires Inv(s) && a < |s.agents| && s.agents[a] == FindCheck(id)
    requires Step(s, a, c).agents[a].Pinned?
    ensures id.index < |s.slots| && Step(s, a, c).agents[a] == Pinned(id.index)
    ensures s.slots[id.index].id == id && !Flagged(s.slots[id.index])
  {
    assert AgentInv(s, a);
  }

  /** A slot never gets an earlier session id back, so an old id cannot name a later session. */
  lemma {:induction false} IdsOnlyGrow(s: State, sched: Schedule, i: nat)
    requires Inv(s) && FewAlong(s, sched) && i < |s.slots|
    ensures
      var t := Run(s, sched);
      |t.slots| == |s.slots| && (t.slots[i].id == s.slots[i].id || t.slots[i].id.serial > s.slots[i].id.serial)
    decreases |sched|
  {
    if sched != [] {
      var (b, c) := sched[0];
      var s' := Step(s, b, c);
      assert FewReferences(s');
      StepInv(s, b, c);
      if b < |s.agents| {
        assert AgentInv(s, b);
      }
      IdsOnlyGrow(s', sched[1..], i);
    }
  }

  const SERIALS := 0x1_0000_0000_0000   // 2^48

  /** The 64-bit id: the index takes the place of the upper 16 bits of the serial number. */
  function IdWord(id: SessionId): nat {
    id.serial % SERIALS + id.index * SERIALS
  }

  lemma SameIdWord(a: SessionId, b: SessionId)
    ensures IdWord(a) == IdWord(b) <==> a.index == b.index && a.serial % SERIALS == b.serial % SERIALS
  {
    if IdWord(a) == IdWord(b) {
      assert (a.index - b.index) * SERIALS == b.serial % SERIALS - a.serial % SERIALS;
    }
  }

  /** ... not even by its 64-bit id, until 2^48 sessions have been accepted since. */
  lemma OldWordIsStale(s: State, sched: Schedule, i: nat)
    requires Inv(s) && FewAlong(s, sched) && i < |s.slots| && i < |Run(s, sched).slots|
    ensures
      var before, after := s.slots[i].id, Run(s, sched).slots[i].id;
      after != before && after.serial < before.serial + SERIALS ==> IdWord(after) != IdWord(before)
  {
    IdsOnlyGrow(s, sched, i);
    SameIdWord(Run(s, sched).slots[i].id, s.slots[i].id);
  }
}

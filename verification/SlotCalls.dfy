/** What FindSession, RealSend's and CheckTimeout's reference, Release and accept answer, in every interleaving and when
    nobody disturbs them (`SlotLifetime`). */
module SlotCalls {
  import opened Agents
  import opened SlotLifetime

  // ---------------------------------------------------------------- what each operation answers

  /** The first read of FindSession turns a lookup away if and only if the flag is set, however many references
      there are; either way the lookup counts. */
  lemma LookupCounts(s: State, a: nat, c: Choice, id: SessionId)
    requires Inv(s) && a < |s.agents| && s.agents[a] == FindInc(id)
    ensures
      var s', i := Step(s, a, c), id.index;
      && i < |s.slots| && s'.slots == s.slots[i := s.slots[i].(refCount := s.slots[i].refCount + 1)]
      && (s'.agents[a] == RelDec(i) <==> Flagged(s.slots[i]))
      && (s'.agents[a] == FindCheck(id) <==> !Flagged(s.slots[i]))
  {
    assert AgentInv(s, a);
  }

  /** The second turns it away if and only if the slot belongs to another session. */
  lemma LookupChecks(s: State, a: nat, c: Choice, id: SessionId)
    requires Inv(s) && a < |s.agents| && s.agents[a] == FindCheck(id)
    ensures
      var s', i := Step(s, a, c), id.index;
      && i < |s.slots| && s'.slots == s.slots
      && (s'.agents[a] == RelDec(i) <==> s.slots[i].id != id)
      && (s'.agents[a] == Pinned(i) <==> s.slots[i].id == id)
  {
    assert AgentInv(s, a);
  }

  /** So on every run a session that is there is found: a lookup that counts itself while the slot is unflagged and
      holds the id gets the slot, whatever the others do before its second read. */
  lemma {:induction false} FindFindsTheSession(s: State, sched: Schedule, a: nat, id: SessionId, c: Choice)
    requires Inv(s) && FewAlong(s, sched) && a < |s.agents| && s.agents[a] == FindCheck(id)
    requires id.index < |s.slots| && s.slots[id.index].id == id
    requires forall k :: 0 <= k < |sched| ==> sched[k].0 != a
    ensures
      var t := Run(s, sched);
      |t.agents| == |s.agents| && t.agents[a] == FindCheck(id) && Step(t, a, c).agents[a] == Pinned(id.index)
    decreases |sched|
  {
    assert AgentInv(s, a);
    if sched != [] {
      var (b, d) := sched[0];
      var s' := Step(s, b, d);
      assert FewReferences(s');
      StepInv(s, b, d);
      CheckedStays(s, b, d, a, id);
      FindFindsTheSession(s', sched[1..], a, id, c);
    }
  }

  /** A counted lookup keeps the id of its slot, as a pinned one does. */
  lemma CheckedStays(s: State, b: nat, c: Choice, a: nat, id: SessionId)
    requires Inv(s) && FewReferences(s) && FewReferences(Step(s, b, c)) && a < |s.agents| && b != a
    requires s.agents[a] == FindCheck(id) && id.index < |s.slots|
    ensures
      var s' := Step(s, b, c);
      |s'.agents| == |s.agents| && s'.agents[a] == FindCheck(id)
      && |s'.slots| == |s.slots| && s'.slots[id.index].id == s.slots[id.index].id
  {
    var i := id.index;
    assert AgentInv(s, a) && SlotInv(s, i);
    CountOne(s.agents, a, HoldsAt(i));
    StepInv(s, b, c);
    if b < |s.agents| && !s.agents[b].Idle? {
      assert AgentInv(s, b);
      var pc := s.agents[b];
      if At(pc) == i {
        CountStep(s, Step(s, b, c), b, i);
        assert SlotInv(Step(s, b, c), i);
        LocalStable(s.slots[i], pc, c, References(s, i), Places(s, i));
        assert References(Step(s, b, c), i) < RELEASE_FLAG;
      }
    }
  }

  /** RealSend and CheckTimeout: the reference is kept if and only if the flag is clear. */
  lemma TouchCounts(s: State, a: nat, c: Choice, i: nat)
    requires Inv(s) && a < |s.agents| && s.agents[a] == TouchInc(i) && References(s, i) < RELEASE_FLAG - 1
    ensures
      var s' := Step(s, a, c);
      && i < |s.slots| && s'.slots == s.slots[i := s.slots[i].(refCount := s.slots[i].refCount + 1)]
      && (s'.agents[a] == RelDec(i) <==> Flagged(s.slots[i]))
      && (s'.agents[a] == Pinned(i) <==> !Flagged(s.slots[i]))
  {
    assert AgentInv(s, a) && SlotInv(s, i);
  }

  /** A reference is kept until its holder decides to release it. */
  lemma PinnedUntilReleased(s: State, a: nat, c: Choice, i: nat)
    requires Inv(s) && a < |s.agents| && s.agents[a] == Pinned(i)
    ensures
      var s' := Step(s, a, c);
      && s'.slots == s.slots && s'.agents == s.agents[a := s'.agents[a]]
      && (s'.agents[a] == RelDec(i) <==> c.Release?) && (s'.agents[a] == Pinned(i) <==> !c.Release?)
  {
    assert AgentInv(s, a);
  }

  /** Release goes on to try the exchange if and only if it gave back the last reference of an unflagged slot. */
  lemma ReleaseCounts(s: State, a: nat, c: Choice, i: nat)
    requires Inv(s) && a < |s.agents| && s.agents[a] == RelDec(i)
    ensures
      var s' := Step(s, a, c);
      && i < |s.slots| && s.slots[i].refCount > 0
      && s'.slots == s.slots[i := s.slots[i].(refCount := s.slots[i].refCount - 1)]
      && (s'.agents[a] == RelCas(i) <==> !Flagged(s.slots[i]) && References(s, i) == 1)
      && (s'.agents[a] == Idle <==> Flagged(s.slots[i]) || References(s, i) > 1)
  {
    assert AgentInv(s, a) && SlotInv(s, i);
    CountOne(s.agents, a, HoldsAt(i));
  }

  /** The exchange succeeds, and sets the flag, if and only if nobody has taken a reference meanwhile and nobody
      else has succeeded. */
  lemma ReleaseExchanges(s: State, a: nat, c: Choice, i: nat)
    requires Inv(s) && a < |s.agents| && s.agents[a] == RelCas(i)
    ensures
      var s' := Step(s, a, c);
      && i < |s.slots| && |s'.slots| == |s.slots|
      && (s'.agents[a] == RelPost(i) <==> !Flagged(s.slots[i]) && References(s, i) == 0)
      && (s'.agents[a] == RelPost(i) ==> s'.slots[i].refCount == RELEASE_FLAG)
      && (s'.agents[a] == Idle <==> Flagged(s.slots[i]) || References(s, i) > 0)
      && (s'.agents[a] == Idle ==> s'.slots == s.slots)
  {
    assert AgentInv(s, a) && SlotInv(s, i);
  }

  /** Steps of one agent only. */
  predicate Of(sched: Schedule, a: nat) {
    forall k :: 0 <= k < |sched| ==> sched[k].0 == a
  }

  lemma {:induction false} Then(s: State, sched: Schedule, a: nat, c: Choice, r: State) returns (more: Schedule)
    requires Of(sched, a) && Step(Run(s, sched), a, c) == r
    ensures Of(more, a) && Run(s, more) == r
    decreases |sched|
  {
    if sched == [] {
      more := [(a, c)];
      assert more[1..] == [];
    } else {
      var rest := Then(Step(s, sched[0].0, sched[0].1), sched[1..], a, c, r);
      more := [sched[0]] + rest;
      assert more[1..] == rest;
    }
  }

  /** `s` with agent `a` at another place and slot `i` as given. */
  function Put(s: State, a: nat, pc: Pc, i: nat, slot: Slot): State
    requires a < |s.agents| && i < |s.slots|
  {
    s.(slots := s.slots[i := slot], agents := s.agents[a := pc])
  }

  /** One step of an operation on slot `i`. */
  lemma Goes(s: State, sched: Schedule, t: State, a: nat, i: nat, pc: Pc, slot: Slot, c: Choice, pc': Pc, slot': Slot)
      returns (more: Schedule)
    requires a < |t.agents| && i < |t.slots| && !pc.Idle? && At(pc) == i && !pc.RelPush?
    requires Of(sched, a) && Run(s, sched) == Put(t, a, pc, i, slot) && Local(slot, pc, c) == (slot', pc')
    ensures Of(more, a) && Run(s, more) == Put(t, a, pc', i, slot')
  {
    assert t.slots[i := slot][i := slot'] == t.slots[i := slot'];
    assert t.agents[a := pc][a := pc'] == t.agents[a := pc'];
    more := Then(s, sched, a, c, Put(t, a, pc', i, slot'));
  }

  lemma Pushes(s: State, a: nat, i: nat, slot: Slot, c: Choice)
    requires a < |s.agents| && i < |s.slots|
    ensures Step(Put(s, a, RelPush(i), i, slot), a, c) == Put(s, a, Idle, i, slot).(free := [i] + s.free)
  {
    assert s.slots[i := slot][i := slot] == s.slots[i := slot];
    assert s.agents[a := RelPush(i)][a := Idle] == s.agents[a := Idle];
  }

  /** The posted release of a slot up to its Reset. */
  lemma RecycleBegins(s: State, sched: Schedule, t: State, a: nat, i: nat, slot: Slot) returns (more: Schedule)
    requires a < |t.agents| && i < |t.slots|
    requires Of(sched, a) && Run(s, sched) == Put(t, a, RelPost(i), i, slot)
    ensures Of(more, a) && Run(s, more) == Put(t, a, RelReset(i), i, slot)
  {
    more := Goes(s, sched, t, a, i, RelPost(i), slot, Release, Posted(i), slot);
    more := Goes(s, more, t, a, i, Posted(i), slot, Release, RelReset(i), slot);
  }

  /** The recycling of a released slot: one Reset, and its index is on top of the free stack. */
  lemma Recycles(s: State, sched: Schedule, t: State, a: nat, i: nat, slot: Slot) returns (more: Schedule)
    requires a < |t.agents| && i < |t.slots|
    requires Of(sched, a) && Run(s, sched) == Put(t, a, RelPost(i), i, slot)
    ensures Of(more, a)
    ensures Run(s, more) == Put(t, a, Idle, i, slot.(resets := slot.resets + 1)).(free := [i] + t.free)
  {
    var reset, c := slot.(resets := slot.resets + 1), Release;
    more := RecycleBegins(s, sched, t, a, i, slot);
    more := Goes(s, more, t, a, i, RelReset(i), slot, c, RelPush(i), reset);
    Pushes(t, a, i, reset, c);
    more := Then(s, more, a, c, Put(t, a, Idle, i, reset).(free := [i] + t.free));
  }

  /** The index on top of the free stack belongs to a flagged slot; the accepting thread takes it. */
  lemma AcceptBegins(s: State, a: nat)
    requires Inv(s) && a < |s.agents| && s.agents[a] == Idle && s.free != [] && s.free[0] < |s.slots|
    ensures
      var i := s.free[0];
      && s.slots[i].refCount == RELEASE_FLAG + References(s, i)
      && Step(s, a, Accept) ==
         Put(s.(free := s.free[1..], serial := s.serial + 1), a, AccReset(SessionId(s.serial + 1, i)), i, s.slots[i])
  {
    var i := s.free[0];
    assert SlotInv(s, i) && multiset(s.free)[i] >= 1;
    assert s.slots[i := s.slots[i]] == s.slots;
  }

  /** The first two steps of an accept: Reset, and one reference. */
  lemma AcceptResets(
      s: State, sched: Schedule, t: State, a: nat, id: SessionId, slot: Slot, c: Choice) returns (more: Schedule)
    requires a < |t.agents| && id.index < |t.slots|
    requires Of(sched, a) && Run(s, sched) == Put(t, a, AccReset(id), id.index, slot)
    ensures Of(more, a)
    ensures Run(s, more) ==
            Put(t, a, AccSetId(id), id.index, slot.(refCount := slot.refCount + 1, resets := slot.resets + 1))
  {
    var reset := slot.(resets := slot.resets + 1);
    var counted := reset.(refCount := reset.refCount + 1);
    more := Goes(s, sched, t, a, id.index, AccReset(id), slot, c, AccInc(id), reset);
    more := Goes(s, more, t, a, id.index, AccInc(id), reset, c, AccSetId(id), counted);
  }

  /** The last two: the new id, and the flag off. */
  lemma AcceptOpens(
      s: State, sched: Schedule, t: State, a: nat, id: SessionId, slot: Slot, c: Choice) returns (more: Schedule)
    requires a < |t.agents| && id.index < |t.slots|
    requires Of(sched, a) && Run(s, sched) == Put(t, a, AccSetId(id), id.index, slot)
    ensures Of(more, a)
    ensures Run(s, more) ==
            Put(t, a, Pinned(id.index), id.index,
                Slot(ClearBit20(slot.refCount), id, slot.lifetimes + 1, slot.releases, slot.resets))
  {
    var named := slot.(id := id);
    var open := named.(refCount := ClearBit20(named.refCount), lifetimes := slot.lifetimes + 1);
    more := Goes(s, sched, t, a, id.index, AccSetId(id), slot, c, AccOff(id), named);
    more := Goes(s, more, t, a, id.index, AccOff(id), named, c, Pinned(id.index), open);
  }

  /** An accept that nobody disturbs: the index on top of the free stack, a new serial number, one Reset, the flag
      off, and one reference more, which the accepting thread has. */
  lemma AcceptTakesTheTop(s: State, a: nat, c: Choice) returns (sched: Schedule)
    requires Inv(s) && a < |s.agents| && s.agents[a] == Idle && s.free != []
    requires s.free[0] < |s.slots| && References(s, s.free[0]) < RELEASE_FLAG - 1
    ensures Of(sched, a)
    ensures
      var i := s.free[0];
      var slot := s.slots[i];
      Run(s, sched) ==
        Put(s.(free := s.free[1..], serial := s.serial + 1), a, Pinned(i), i,
            Slot(References(s, i) + 1, SessionId(s.serial + 1, i),
                 slot.lifetimes + 1, slot.releases, slot.resets + 1))
  {
    var i := s.free[0];
    var t, id := s.(free := s.free[1..], serial := s.serial + 1), SessionId(s.serial + 1, i);
    AcceptBegins(s, a);
    ClearsFlag(s.slots[i].refCount + 1);
    sched := Then(s, [], a, Accept, Put(t, a, AccReset(id), i, s.slots[i]));
    sched := AcceptResets(s, sched, t, a, id, s.slots[i], c);
    var slot := s.slots[i].(refCount := s.slots[i].refCount + 1, resets := s.slots[i].resets + 1);
    sched := AcceptOpens(s, sched, t, a, id, slot, c);
  }

  /** An operation of agent `a` begins. */
  lemma Begins(s: State, a: nat, c: Choice, i: nat)
    requires a < |s.agents| && s.agents[a] == Idle && i < |s.slots| == MAX_SESSIONS
    requires c == Touch(i) || (c.Find? && c.id.index == i)
    ensures Step(s, a, c) == Put(s, a, if c.Touch? then TouchInc(i) else FindInc(c.id), i, s.slots[i])
  {
    assert s.slots[i := s.slots[i]] == s.slots;
  }

  /** A lookup that nobody disturbs: if the slot is unflagged and holds the id, the slot with one reference more. If it
      is flagged, or holds another session that has references, null and nothing has changed. */
  lemma FindAlone(s: State, a: nat, id: SessionId) returns (sched: Schedule)
    requires Inv(s) && a < |s.agents| && s.agents[a] == Idle && id.index < MAX_SESSIONS
    requires id.index < |s.slots| && s.slots[id.index].refCount > 0
    ensures Of(sched, a)
    ensures
      var i := id.index;
      var slot := s.slots[i];
      Run(s, sched) ==
        if !Flagged(slot) && slot.id == id then Put(s, a, Pinned(i), i, slot.(refCount := slot.refCount + 1)) else s
  {
    var i, c := id.index, Find(id);
    var slot := s.slots[i];
    var counted := slot.(refCount := slot.refCount + 1);
    assert SlotInv(s, i);
    Begins(s, a, c, i);
    sched := Then(s, [], a, c, Put(s, a, FindInc(id), i, slot));
    if Flagged(slot) {
      sched := Goes(s, sched, s, a, i, FindInc(id), slot, c, RelDec(i), counted);
    } else {
      sched := Goes(s, sched, s, a, i, FindInc(id), slot, c, FindCheck(id), counted);
      var next := if slot.id != id then RelDec(i) else Pinned(i);
      sched := Goes(s, sched, s, a, i, FindCheck(id), counted, c, next, counted);
    }
    if Flagged(slot) || slot.id != id {
      sched := GivesBack(s, sched, a, i, c);
    }
  }

  /** A reference that was counted for nothing is given back, and nothing has changed. */
  lemma GivesBack(s: State, sched: Schedule, a: nat, i: nat, c: Choice) returns (more: Schedule)
    requires Inv(s) && a < |s.agents| && s.agents[a] == Idle && i < |s.slots| && s.slots[i].refCount > 0
    requires Of(sched, a)
    requires Run(s, sched) == Put(s, a, RelDec(i), i, s.slots[i].(refCount := s.slots[i].refCount + 1))
    ensures Of(more, a) && Run(s, more) == s
  {
    var slot := s.slots[i];
    more := Goes(s, sched, s, a, i, RelDec(i), slot.(refCount := slot.refCount + 1), c, Idle, slot);
    PutBack(s, a, i);
  }

  lemma PutBack(s: State, a: nat, i: nat)
    requires a < |s.agents| && s.agents[a] == Idle && i < |s.slots|
    ensures Put(s, a, Idle, i, s.slots[i]) == s
  {
    assert s.slots[i := s.slots[i]] == s.slots && s.agents[a := Idle] == s.agents;
  }

  /** RealSend and CheckTimeout: a reference to an unflagged slot, or nothing. */
  lemma TouchAlone(s: State, a: nat, i: nat) returns (sched: Schedule)
    requires Inv(s) && a < |s.agents| && s.agents[a] == Idle && i < MAX_SESSIONS
    requires References(s, i) < RELEASE_FLAG - 1
    ensures Of(sched, a)
    ensures
      var slot := s.slots[i];
      Run(s, sched) ==
        if !Flagged(slot) then Put(s, a, Pinned(i), i, slot.(refCount := slot.refCount + 1)) else s
  {
    var slot := s.slots[i];
    var counted := slot.(refCount := slot.refCount + 1);
    assert SlotInv(s, i);
    Begins(s, a, Touch(i), i);
    sched := Then(s, [], a, Touch(i), Put(s, a, TouchInc(i), i, slot));
    var next := if Flagged(slot) then RelDec(i) else Pinned(i);
    sched := Goes(s, sched, s, a, i, TouchInc(i), slot, Touch(i), next, counted);
    if Flagged(slot) {
      sched := GivesBack(s, sched, a, i, Touch(i));
    }
  }

  /** The release of a reference up to its end, or up to PostRelease if it was the last. */
  lemma ReleaseBegins(s: State, a: nat, i: nat) returns (sched: Schedule)
    requires Inv(s) && a < |s.agents| && s.agents[a] == Pinned(i)
    ensures i < |s.slots| && s.slots[i].refCount > 0 && Of(sched, a)
    ensures
      var slot := s.slots[i];
      Run(s, sched) ==
        if References(s, i) == 1 then
          Put(s, a, RelPost(i), i, slot.(refCount := RELEASE_FLAG, releases := slot.releases + 1))
        else Put(s, a, Idle, i, slot.(refCount := slot.refCount - 1))
  {
    assert AgentInv(s, a) && SlotInv(s, i);
    CountOne(s.agents, a, HoldsAt(i));
    var slot := s.slots[i];
    var less := slot.(refCount := slot.refCount - 1);
    assert s.slots[i := slot] == s.slots && s.agents[a := Pinned(i)] == s.agents && s == Put(s, a, Pinned(i), i, slot);
    sched := Goes(s, [], s, a, i, Pinned(i), slot, Release, RelDec(i), slot);
    sched := Goes(s, sched, s, a, i, RelDec(i), slot, Release, if References(s, i) == 1 then RelCas(i) else Idle, less);
    if References(s, i) == 1 {
      sched := Goes(s, sched, s, a, i, RelCas(i), less, Release, RelPost(i),
                    less.(refCount := RELEASE_FLAG, releases := slot.releases + 1));
    }
  }

  /** A Release that nobody disturbs: one reference less; and if it was the last, the slot is flagged, released once,
      reset once, and on top of the free stack. */
  lemma ReleaseAlone(s: State, a: nat, i: nat) returns (sched: Schedule)
    requires Inv(s) && FewReferences(s) && a < |s.agents| && s.agents[a] == Pinned(i)
    ensures i < |s.slots| && s.slots[i].refCount > 0
    ensures
      var slot := s.slots[i];
      Run(s, sched) ==
        if References(s, i) == 1 then
          Put(s, a, Idle, i, Slot(RELEASE_FLAG, slot.id, slot.lifetimes, slot.releases + 1, slot.resets + 1))
          .(free := [i] + s.free)
        else Put(s, a, Idle, i, slot.(refCount := slot.refCount - 1))
  {
    assert AgentInv(s, a);
    sched := ReleaseBegins(s, a, i);
    if References(s, i) == 1 {
      var slot := s.slots[i];
      sched := Recycles(s, sched, s, a, i, slot.(refCount := RELEASE_FLAG, releases := slot.releases + 1));
    }
  }
}

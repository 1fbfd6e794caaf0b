/** Runs of the machine in `GroupLeave` with safe moves only, to states where the next move is not safe; and a
    run of two movers in `ConcurrentMoves` that loses a session. */
module UnsafeMoves {
  import opened GroupLeave
  import opened ConcurrentMoves

  function Start(): State {
    State(0, BASE, true, MIdle, Free, [Group([], {}, RIdle), Group([], {}, RIdle), Group([], {}, RIdle)],
          [], {}, false, false)
  }

  /** A live session, with two groups besides the base group, of which the second is empty. */
  function Scene(group: nat, mover: Mover, one: Group, left: set<(nat, nat)>): State {
    State(1, group, false, mover, Live, [Group([], {}, RIdle), one, Group([], {}, RIdle)], [], left, false, false)
  }

  lemma Extend(sched: seq<Actor>, a: Actor, r: State) returns (more: seq<Actor>)
    requires SafeAlong(Start(), sched) && (a.TheMover? ==> SafeMove(Run(Start(), sched)))
    requires Step(Run(Start(), sched), a) == r
    ensures SafeAlong(Start(), more) && Run(Start(), more) == r
  {
    more := sched + [a];
    assert [a] == [a] + [];
    RunCons(Run(Start(), sched), a, []);
    RunCat(Start(), sched, [a]);
    SafeCat(Start(), sched, [a]);
  }

  lemma SceneMoves(group: nat, mover: Mover, one: Group, left: set<(nat, nat)>, dst: nat)
    requires dst < 3 && group < 2
    ensures
      var s := Scene(group, mover, one, left);
      var s' := MoverStep(s, dst);
      match mover
      case MIdle => s' == Scene(group, MSrc(dst), one, left)
      case MSrc(d) => s' == Scene(group, MLeave(d, group), one, left)
      case MLeave(d, src) =>
        src == 0 || src == 1 ==>
          s' == Scene(group, MSet(d, src), if src == 1 then one.(jobs := one.jobs + [Leave(1)]) else one, left)
      case MSet(d, _) => s' == Scene(d, if d == BASE then MRelease else MEnter(d), one, left)
      case MEnter(d) => d == 1 ==> s' == Scene(group, MRelease, one.(jobs := one.jobs + [Enter(1)]), left)
      case MRelease => s' == Scene(group, MIdle, one, left)
  {
    var s := Scene(group, mover, one, left);
    if mover.MLeave? && mover.src == 1 {
      assert MoverStep(s, dst).groups == Scene(group, mover, one.(jobs := one.jobs + [Leave(1)]), left).groups;
    } else if mover.MEnter? && mover.dst == 1 {
      assert MoverStep(s, dst).groups == Scene(group, mover, one.(jobs := one.jobs + [Enter(1)]), left).groups;
    }
  }

  lemma ScenePlays(mover: Mover, one: Group, left: set<(nat, nat)>, one': Group)
    requires one.runner.RIdle? && one.jobs != []
    requires one' == match one.jobs[0]
                     case Enter(j) => one.(jobs := one.jobs[1..], sessions := one.sessions + {j})
                     case Leave(j) => Group(one.jobs[1..], one.sessions - {j}, RGroup(j))
    requires one.jobs[0].Leave? ==> one.jobs[0].id in one.sessions
    ensures RunnerStep(Scene(1, mover, one, left), 1) ==
            Scene(1, mover, one', if one.jobs[0].Leave? then left + {(1, one.jobs[0].id)} else left)
  {
    assert RunnerStep(Scene(1, mover, one, left), 1).groups == Scene(1, mover, one', left).groups;
  }

  lemma SceneReads(mover: Mover, one: Group, left: set<(nat, nat)>)
    requires one.runner.RGroup? || one.runner == RId(1) || one.runner.RRef?
    ensures
      RunnerStep(Scene(1, mover, one, left), 1) ==
        Scene(1, mover,
              one.(runner := match one.runner
                             case RGroup(j) => RId(j)
                             case RRef(j) => RAssert(j, false)
                             case _ => RRef(1)),
              left)
  {
    var s := Scene(1, mover, one, left);
    assert RunnerStep(s, 1).groups == [s.groups[0], RunnerStep(s, 1).groups[1], s.groups[2]];
  }

  /** A move up to the point where the group is about to be written. */
  lemma ReachSet(sched: seq<Actor>, group: nat, one: Group, dst: nat) returns (more: seq<Actor>)
    requires dst < 3 && group < 2 && SafeAlong(Start(), sched) && Run(Start(), sched) == Scene(group, MIdle, one, {})
    ensures SafeAlong(Start(), more)
    ensures Run(Start(), more) ==
            Scene(group, MSet(dst, group), if group == 1 then one.(jobs := one.jobs + [Leave(1)]) else one, {})
  {
    SceneMoves(group, MIdle, one, {}, dst);
    more := Extend(sched, TheMover(dst), Scene(group, MSrc(dst), one, {}));
    SceneMoves(group, MSrc(dst), one, {}, dst);
    more := Extend(more, TheMover(dst), Scene(group, MLeave(dst, group), one, {}));
    SceneMoves(group, MLeave(dst, group), one, {}, dst);
    var one' := if group == 1 then one.(jobs := one.jobs + [Leave(1)]) else one;
    more := Extend(more, TheMover(dst), Scene(group, MSet(dst, group), one', {}));
  }

  /** The slot is accepted, in the base group. */
  lemma ReachLive() returns (sched: seq<Actor>)
    ensures SafeAlong(Start(), sched) && Run(Start(), sched) == Scene(0, MIdle, Group([], {}, RIdle), {})
  {
    sched := Extend([], TheSlot, Start().(id := 1, life := Accepting));
    sched := Extend(sched, TheSlot, Scene(0, MIdle, Group([], {}, RIdle), {}));
  }

  /** ... and moved to group 1, where its Enter is still queued. */
  lemma ReachGroupOne() returns (sched: seq<Actor>)
    ensures SafeAlong(Start(), sched) && Run(Start(), sched) == Scene(1, MIdle, Group([Enter(1)], {}, RIdle), {})
  {
    var none, entered := Group([], {}, RIdle), Group([Enter(1)], {}, RIdle);
    assert none.(jobs := none.jobs + [Enter(1)]) == entered;
    sched := ReachLive();
    sched := ReachSet(sched, 0, none, 1);
    SceneMoves(0, MSet(1, 0), none, {}, 1);
    sched := Extend(sched, TheMover(1), Scene(1, MEnter(1), none, {}));
    SceneMoves(1, MEnter(1), none, {}, 1);
    sched := Extend(sched, TheMover(1), Scene(1, MRelease, entered, {}));
    SceneMoves(1, MRelease, entered, {}, 1);
    sched := Extend(sched, TheMover(1), Scene(1, MIdle, entered, {}));
  }

  /** Moving back into a group that still holds a Leave of the session: reachable, and unsafe. */
  lemma ReentryIsUnsafe() returns (sched: seq<Actor>)
    ensures Initial(Start()) && SafeAlong(Start(), sched)
    ensures Run(Start(), sched) == Scene(1, MSet(1, 1), Group([Enter(1), Leave(1)], {}, RIdle), {})
    ensures !SafeMove(Run(Start(), sched))
  {
    sched := ReachGroupOne();
    sched := ReachSet(sched, 1, Group([Enter(1)], {}, RIdle), 1);
    assert [Enter(1)] + [Leave(1)] == [Enter(1), Leave(1)];
    assert [Enter(1), Leave(1)][..1] == [Enter(1)];
    assert Leaves([Enter(1), Leave(1)], 1) == 1;
  }

  /** Moving to another group while the old group's runner is inside CheckPostRelease: the Leave is
      queued before the new group is written, so this is reachable, and it is unsafe. */
  lemma RaceIsUnsafe() returns (sched: seq<Actor>)
    ensures Initial(Start()) && SafeAlong(Start(), sched)
    ensures Run(Start(), sched) == Scene(1, MSet(2, 1), Group([], {}, RId(1)), {(1, 1)})
    ensures !SafeMove(Run(Start(), sched))
  {
    var one, leaving, check := Group([], {1}, RIdle), Group([Leave(1)], {1}, RIdle), Group([], {}, RGroup(1));
    sched := ReachGroupOne();
    ScenePlays(MIdle, Group([Enter(1)], {}, RIdle), {}, one);
    sched := Extend(sched, TheRunner(1), Scene(1, MIdle, one, {}));
    sched := ReachSet(sched, 1, one, 2);
    assert one.(jobs := one.jobs + [Leave(1)]) == leaving;
    assert leaving.jobs[1..] == [] && leaving.sessions - {1} == {};
    ScenePlays(MSet(2, 1), leaving, {}, check);
    sched := Extend(sched, TheRunner(1), Scene(1, MSet(2, 1), check, {(1, 1)}));
    SceneReads(MSet(2, 1), check, {(1, 1)});
    sched := Extend(sched, TheRunner(1), Scene(1, MSet(2, 1), Group([], {}, RId(1)), {(1, 1)}));
    assert Checking(Run(Start(), sched).groups[1].runner, 1);
  }

  /** ... and so is moving when that check has read the count and has only the assertion before it. */
  lemma LateAssertionIsUnsafe() returns (sched: seq<Actor>)
    ensures Initial(Start()) && SafeAlong(Start(), sched)
    ensures Run(Start(), sched) == Scene(1, MSet(2, 1), Group([], {}, RAssert(1, false)), {(1, 1)})
    ensures !SafeMove(Run(Start(), sched))
  {
    sched := RaceIsUnsafe();
    SceneReads(MSet(2, 1), Group([], {}, RId(1)), {(1, 1)});
    sched := Extend(sched, TheRunner(1), Scene(1, MSet(2, 1), Group([], {}, RRef(1)), {(1, 1)}));
    SceneReads(MSet(2, 1), Group([], {}, RRef(1)), {(1, 1)});
    sched := Extend(sched, TheRunner(1), Scene(1, MSet(2, 1), Group([], {}, RAssert(1, false)), {(1, 1)}));
    assert Asserting(Run(Start(), sched).groups[1].runner, 1);
  }

  // ---------------------------------------------------------------- two movers

  /** The single mover as the first of two. */
  function Lift(s: GroupLeave.State): World {
    World(s.(mover := MIdle), [s.mover, MIdle])
  }

  function First(a: Actor): Who {
    match a
    case TheMover(dst) => AMover(0, dst)
    case TheSlot => ASlot
    case TheRunner(g) => ARunner(g)
  }

  lemma QueueFrame(s: GroupLeave.State, m: Mover)
    requires s.life.Enqueue? || s.life.Post1?
    ensures SlotStep(s.(mover := m)) == SlotStep(s).(mover := m)
  {
  }

  lemma ReleaseFrame(s: GroupLeave.State, m: Mover)
    requires s.life.Read1? || s.life.Read2? || s.life.Waiting?
    ensures SlotStep(s.(mover := m)) == SlotStep(s).(mover := m)
  {
  }

  lemma RecycleFrame(s: GroupLeave.State, m: Mover)
    requires s.life.Posted? || s.life.Free? || s.life.Accepting?
    ensures SlotStep(s.(mover := m)) == SlotStep(s).(mover := m)
  {
  }

  lemma LiftSlot(s: GroupLeave.State)
    ensures WStep(Lift(s), ASlot) == Lift(SlotStep(s))
  {
    assert AllIdle(Lift(s)) <==> s.mover.MIdle? by {
      assert Lift(s).movers[0] == s.mover && Lift(s).movers[1] == MIdle;
    }
    SlotKeepsMover(s);
    if s.life.Enqueue? || s.life.Post1? {
      QueueFrame(s, MIdle);
    } else if s.life.Read1? || s.life.Read2? || s.life.Waiting? {
      ReleaseFrame(s, MIdle);
    } else if !s.life.Live? {
      RecycleFrame(s, MIdle);
    }
  }

  lemma SlotKeepsMover(s: GroupLeave.State)
    ensures SlotStep(s).mover == s.mover
  {
  }

  lemma LiftStep(s: GroupLeave.State, a: Actor)
    ensures WStep(Lift(s), First(a)) == Lift(Step(s, a))
  {
    match a
    case TheMover(dst) =>
      assert s.(mover := MIdle).(mover := s.mover) == s;
    case TheSlot => LiftSlot(s);
    case TheRunner(g) => RunnerFrame(s, g, MIdle);
  }

  lemma {:induction false} LiftRun(s: GroupLeave.State, sched: seq<Actor>) returns (lifted: seq<Who>)
    ensures WRun(Lift(s), lifted) == Lift(Run(s, sched))
    decreases |sched|
  {
    if sched == [] {
      lifted := [];
    } else {
      LiftStep(s, sched[0]);
      var rest := LiftRun(Step(s, sched[0]), sched[1..]);
      WRunCons(Lift(s), First(sched[0]), rest);
      lifted := [First(sched[0])] + rest;
    }
  }

  lemma Then(w: World, sched: seq<Who>, who: Who, r: World) returns (more: seq<Who>)
    requires WStep(WRun(w, sched), who) == r
    ensures WRun(w, more) == r
    decreases |sched|
  {
    if sched == [] {
      WRunCons(w, who, []);
      more := [who] + [];
    } else {
      var rest := Then(WStep(w, sched[0]), sched[1..], who, r);
      WRunCons(w, sched[0], rest);
      more := [sched[0]] + rest;
    }
  }

  /** A session in group 1 and two movers. */
  function Duel(one: Group, left: set<(nat, nat)>, missing: bool, a: Mover, b: Mover): World {
    World(Scene(1, MIdle, one, left).(missing := missing), [a, b])
  }

  lemma ReachDuel() returns (sched: seq<Who>)
    ensures WRun(Lift(Start()), sched) == Duel(Group([], {1}, RIdle), {}, false, MIdle, MIdle)
  {
    var one := Group([], {1}, RIdle);
    var entered := ReachGroupOne();
    ScenePlays(MIdle, Group([Enter(1)], {}, RIdle), {}, one);
    entered := Extend(entered, TheRunner(1), Scene(1, MIdle, one, {}));
    sched := LiftRun(Start(), entered);
  }

  /** Both have read the group, and both have queued a Leave there. */
  lemma ReachTwoLeaves() returns (sched: seq<Who>)
    ensures WRun(Lift(Start()), sched) ==
            Duel(Group([Leave(1), Leave(1)], {1}, RIdle), {}, false, MSet(0, 1), MSet(0, 1))
  {
    var w, one := Lift(Start()), Group([], {1}, RIdle);
    sched := ReachDuel();
    sched := Then(w, sched, AMover(0, 0), Duel(one, {}, false, MSrc(0), MIdle));
    sched := Then(w, sched, AMover(1, 0), Duel(one, {}, false, MSrc(0), MSrc(0)));
    sched := Then(w, sched, AMover(0, 0), Duel(one, {}, false, MLeave(0, 1), MSrc(0)));
    sched := Then(w, sched, AMover(1, 0), Duel(one, {}, false, MLeave(0, 1), MLeave(0, 1)));
    assert [] + [Leave(1)] == [Leave(1)] && [Leave(1)] + [Leave(1)] == [Leave(1), Leave(1)];
    var l1, l2 := Group([Leave(1)], {1}, RIdle), Group([Leave(1), Leave(1)], {1}, RIdle);
    SceneMoves(1, MLeave(0, 1), one, {}, 0);
    sched := Then(w, sched, AMover(0, 0), Duel(l1, {}, false, MSet(0, 1), MLeave(0, 1)));
    SceneMoves(1, MLeave(0, 1), l1, {}, 0);
    sched := Then(w, sched, AMover(1, 0), Duel(l2, {}, false, MSet(0, 1), MSet(0, 1)));
  }

  /** The runner has found the session for the first Leave, and its check has read a count without the flag. */
  lemma ReachSecondLeave() returns (sched: seq<Who>)
    ensures WRun(Lift(Start()), sched) ==
            Duel(Group([Leave(1)], {}, RAssert(1, false)), {(1, 1)}, false, MSet(0, 1), MSet(0, 1))
  {
    var w, left := Lift(Start()), {(1, 1)};
    var l1, l2 := Group([Leave(1)], {}, RGroup(1)), Group([Leave(1), Leave(1)], {1}, RIdle);
    sched := ReachTwoLeaves();
    assert l2.jobs[1..] == [Leave(1)] && l2.sessions - {1} == {};
    ScenePlays(MIdle, l2, {}, l1);
    sched := Then(w, sched, ARunner(1), Duel(l1, left, false, MSet(0, 1), MSet(0, 1)));
    SceneReads(MIdle, l1, left);
    sched := Then(w, sched, ARunner(1), Duel(l1.(runner := RId(1)), left, false, MSet(0, 1), MSet(0, 1)));
    SceneReads(MIdle, l1.(runner := RId(1)), left);
    sched := Then(w, sched, ARunner(1), Duel(l1.(runner := RRef(1)), left, false, MSet(0, 1), MSet(0, 1)));
    SceneReads(MIdle, l1.(runner := RRef(1)), left);
    sched := Then(w, sched, ARunner(1), Duel(l1.(runner := RAssert(1, false)), left, false, MSet(0, 1), MSet(0, 1)));
  }

  /** Two threads move a session at the same time: the runner finds it for the first Leave and does not find it
      for the second, which is the `__debugbreak` of HandleJob. */
  lemma DoubleMoveLosesSession() returns (sched: seq<Who>)
    ensures WInitial(Lift(Start())) && WRun(Lift(Start()), sched).slot.missing
  {
    var w, a := Lift(Start()), ARunner(1);
    sched := ReachSecondLeave();
    var r := WStep(WRun(w, sched), a);
    assert r.slot.groups[1] == Group([Leave(1)], {}, RIdle);
    sched := Then(w, sched, a, r);
    sched := Then(w, sched, a, WStep(r, a));
  }
}

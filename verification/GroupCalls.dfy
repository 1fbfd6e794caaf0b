/** What a move, a release and a group's runner do when nobody disturbs them (`GroupLeave`), and the end of a session
    that is in a group. */
module GroupCalls {
  import opened Agents
  import opened GroupLeave
  import ConcurrentMoves

  lemma RunNext(s: State, a: Actor, rest: seq<Actor>, s': State) returns (sched: seq<Actor>)
    requires s' == Step(s, a)
    ensures sched == [a] + rest && Run(s, sched) == Run(s', rest)
  {
    sched := [a] + rest;
    assert sched[1..] == rest;
  }

  lemma {:induction false} RunCat(s: State, a: seq<Actor>, b: seq<Actor>)
    ensures Run(s, a + b) == Run(Run(s, a), b)
    decreases |a|
  {
    if a == [] {
      assert a + b == b;
    } else {
      assert (a + b)[0] == a[0] && (a + b)[1..] == a[1..] + b;
      RunCat(Step(s, a[0]), a[1..], b);
    }
  }

  // ---------------------------------------------------------------- a move

  /** A job at the end of a group's queue; the base group has none. */
  function Queued(groups: seq<Group>, g: nat, j: Job): (r: seq<Group>)
    ensures |r| == |groups|
  {
    if 0 < g < |groups| then groups[g := groups[g].(jobs := groups[g].jobs + [j])] else groups
  }

  /** MoveSession left alone: the old group gets a Leave, the session the new group, and that group an Enter. */
  lemma MoveAlone(s: State, dst: nat) returns (sched: seq<Actor>)
    requires s.mover.MIdle? && s.life.Live? && !s.flagged && dst < |s.groups|
    ensures Run(s, sched) ==
            s.(group := dst, groups := Queued(Queued(s.groups, s.group, Leave(s.id)), dst, Enter(s.id)))
  {
    var a := TheMover(dst);
    var left := Queued(s.groups, s.group, Leave(s.id));
    var s1, s2 := s.(mover := MSrc(dst)), s.(mover := MLeave(dst, s.group));
    var s3 := s.(groups := left, mover := MSet(dst, s.group));
    var s4 := s.(groups := left, group := dst, mover := if dst == BASE then MRelease else MEnter(dst));
    var s5 := s.(groups := Queued(left, dst, Enter(s.id)), group := dst, mover := MRelease);
    sched := RunNext(s5, a, [], s5.(mover := MIdle));
    if dst != BASE {
      sched := RunNext(s4, a, sched, s5);
    }
    sched := RunNext(s3, a, sched, s4);
    sched := RunNext(s2, a, sched, s3);
    sched := RunNext(s1, a, sched, s2);
    sched := RunNext(s, a, sched, s1);
  }

  lemma WorldNext(w: ConcurrentMoves.World, a: nat, dst: nat, rest: seq<ConcurrentMoves.Who>, w': ConcurrentMoves.World)
      returns (sched: seq<ConcurrentMoves.Who>)
    requires w' == ConcurrentMoves.WStep(w, ConcurrentMoves.AMover(a, dst))
    ensures sched == [ConcurrentMoves.AMover(a, dst)] + rest
    ensures ConcurrentMoves.WRun(w, sched) == ConcurrentMoves.WRun(w', rest)
  {
    sched := [ConcurrentMoves.AMover(a, dst)] + rest;
    assert sched[1..] == rest;
  }

  /** Among several movers each does the same when it is left alone, wherever the others stand. */
  lemma AnyMoverAlone(w: ConcurrentMoves.World, a: nat, dst: nat) returns (sched: seq<ConcurrentMoves.Who>)
    requires a < |w.movers| && w.movers[a].MIdle? && w.slot.mover.MIdle?
    requires w.slot.life.Live? && !w.slot.flagged && dst < |w.slot.groups|
    ensures
      var s := w.slot;
      ConcurrentMoves.WRun(w, sched) ==
        w.(slot := s.(group := dst, groups := Queued(Queued(s.groups, s.group, Leave(s.id)), dst, Enter(s.id))))
  {
    var s, m := w.slot, w.movers;
    var left := Queued(s.groups, s.group, Leave(s.id));
    var moved := s.(groups := left, group := dst);
    var entered := moved.(groups := Queued(left, dst, Enter(s.id)));
    var w1 := w.(movers := m[a := MSrc(dst)]);
    var w2 := w.(movers := m[a := MLeave(dst, s.group)]);
    var w3 := ConcurrentMoves.World(s.(groups := left), m[a := MSet(dst, s.group)]);
    var w4 := ConcurrentMoves.World(moved, m[a := if dst == BASE then MRelease else MEnter(dst)]);
    var w5 := ConcurrentMoves.World(entered, m[a := MRelease]);
    var w6 := ConcurrentMoves.World(entered, m);
    assert m[a := MIdle] == m;
    sched := WorldNext(w5, a, dst, [], w6);
    if dst != BASE {
      sched := WorldNext(w4, a, dst, sched, w5);
    }
    sched := WorldNext(w3, a, dst, sched, w4);
    sched := WorldNext(w2, a, dst, sched, w3);
    sched := WorldNext(w1, a, dst, sched, w2);
    sched := WorldNext(w, a, dst, sched, w1);
  }

  // ---------------------------------------------------------------- a release and the next lifetime

  /** The release of a session in the base group posts at once; that of one in another group queues its Leave there. */
  lemma ReleaseAlone(s: State) returns (sched: seq<Actor>)
    requires s.mover.MIdle? && s.life.Live?
    ensures Run(s, sched) ==
            if s.group == BASE then s.(flagged := true, life := Posted, posts := s.posts + [s.id])
            else s.(flagged := true, life := Waiting, groups := Queued(s.groups, s.group, Leave(s.id)))
  {
    var a := TheSlot;
    var s1 := s.(flagged := true, life := Read1);
    if s.group == BASE {
      var s2 := s1.(life := Post1);
      sched := RunNext(s2, a, [], s1.(life := Posted, posts := s.posts + [s.id]));
      sched := RunNext(s1, a, sched, s2);
    } else {
      var s2, s3 := s1.(life := Read2), s1.(life := Enqueue(s.group));
      sched := RunNext(s3, a, [], s1.(life := Waiting, groups := Queued(s.groups, s.group, Leave(s.id))));
      sched := RunNext(s2, a, sched, s3);
      sched := RunNext(s1, a, sched, s2);
    }
    sched := RunNext(s, a, sched, s1);
  }

  /** ReleaseExecutable and the next accept: the next id, in the base group, unflagged. */
  lemma RecycleAlone(s: State) returns (sched: seq<Actor>)
    requires s.life.Posted?
    ensures Run(s, sched) == s.(id := s.id + 1, group := BASE, flagged := false, life := Live)
  {
    var a := TheSlot;
    var s1 := s.(group := BASE, life := Free);
    var s2 := s1.(id := s.id + 1, life := Accepting);
    sched := RunNext(s2, a, [], s2.(flagged := false, life := Live));
    sched := RunNext(s1, a, sched, s2);
    sched := RunNext(s, a, sched, s1);
  }

  // ---------------------------------------------------------------- a runner

  /** Who is in the group once these jobs are handled. */
  function Handled(sessions: set<nat>, jobs: seq<Job>): set<nat>
    decreases |jobs|
  {
    if jobs == [] then sessions
    else Handled(if jobs[0].Enter? then sessions + {jobs[0].id} else sessions - {jobs[0].id}, jobs[1..])
  }

  function LeftBy(g: nat, jobs: seq<Job>): set<(nat, nat)> {
    if jobs == [] then {}
    else (if jobs[0].Leave? then {(g, jobs[0].id)} else {}) + LeftBy(g, jobs[1..])
  }

  /** CheckPostRelease of `j`, from where the runner is in it, posts for the session in the slot. */
  predicate Posts(s: State, g: nat, r: Runner) {
    match r
    case RIdle => false
    case RGroup(j) => s.group == g && s.id == j && s.flagged
    case RId(j) => s.id == j && s.flagged
    case RRef(j) => s.flagged
    case RAssert(j, f) => f
    case RPost(j) => true
  }

  /** How often the runner will post: for the Leave it is handling, and for those in the queue. */
  function PostCount(s: State, g: nat, r: Runner, jobs: seq<Job>): nat {
    Bit(Posts(s, g, r)) + (if s.group == g && s.flagged then FrontLeaves(jobs, s.id) else 0)
  }

  function FrontLeaves(jobs: seq<Job>, j: nat): nat {
    if jobs == [] then 0 else Bit(jobs[0] == Leave(j)) + FrontLeaves(jobs[1..], j)
  }

  function Copies(j: nat, n: nat): seq<nat> {
    seq(n, _ => j)
  }

  /** Steps that the check at hand still takes, at most. */
  function Ahead(r: Runner): nat {
    match r
    case RIdle => 0
    case RGroup(_) => 5
    case RId(_) => 4
    case RRef(_) => 3
    case RAssert(_, _) => 2
    case RPost(_) => 1
  }

  /** `r` is `s` after the runner of `g` has handled everything. */
  ghost predicate Drained(s: State, g: nat, r: State) {
    0 < g < |s.groups| && (
      var x := s.groups[g];
      var n := PostCount(s, g, x.runner, x.jobs);
      && r.groups == s.groups[g := Group([], Handled(x.sessions, x.jobs), RIdle)]
      && r.posts == s.posts + Copies(s.id, n)
      && r.life == (if n > 0 && s.life.Waiting? then Posted else s.life)
      && r.left == s.left + LeftBy(g, x.jobs)
      && r.id == s.id && r.group == s.group && r.flagged == s.flagged && r.mover == s.mover)
  }

  /** One read of the check leaves what it will post as it is; the post itself is one less to come. */
  lemma CheckDrains(s: State, g: nat, s': State, r: State)
    requires 0 < g < |s.groups| && !s.groups[g].runner.RIdle?
    requires s' == RunnerStep(s, g) && Drained(s', g, r)
    ensures Drained(s, g, r)
  {
    var x, x' := s.groups[g], s'.groups[g];
    CheckFrame(s, g);
    assert Bit(Posts(s, g, x.runner)) == Bit(Posts(s', g, x'.runner)) + Bit(x.runner.RPost?);
    if x.runner.RPost? {
      var n := PostCount(s', g, x'.runner, x'.jobs);
      assert [s.id] + Copies(s.id, n) == Copies(s.id, n + 1);
    }
  }

  lemma TakeDrains(s: State, g: nat, s': State, r: State)
    requires 0 < g < |s.groups| && s.groups[g].runner.RIdle? && s.groups[g].jobs != []
    requires s' == RunnerStep(s, g) && Drained(s', g, r)
    ensures Drained(s, g, r)
  {
    var x, x' := s.groups[g], s'.groups[g];
    assert PostCount(s', g, x'.runner, x'.jobs) == PostCount(s, g, x.runner, x.jobs);
    assert s'.left + LeftBy(g, x'.jobs) == s.left + LeftBy(g, x.jobs);
  }

  predicate Nearer(x: Group, x': Group) {
    |x'.jobs| < |x.jobs| || (|x'.jobs| == |x.jobs| && Ahead(x'.runner) < Ahead(x.runner))
  }

  lemma TakeWorks(s: State, g: nat, s': State)
    requires 0 < g < |s.groups| && s.groups[g].jobs != [] && s.groups[g].runner.RIdle?
    requires s' == RunnerStep(s, g)
    ensures |s'.groups| == |s.groups| && Nearer(s.groups[g], s'.groups[g])
  {
  }

  lemma CheckWorks(s: State, g: nat, s': State)
    requires 0 < g < |s.groups| && !s.groups[g].runner.RIdle?
    requires s' == RunnerStep(s, g)
    ensures |s'.groups| == |s.groups| && Nearer(s.groups[g], s'.groups[g])
  {
    CheckFrame(s, g);
  }

  /** A runner left alone handles all its jobs in order and comes to rest: the members are those its Enters and Leaves
      say, and it posts for the session in the slot once for each Leave of it, if that is flagged and in this group. */
  lemma {:induction false} RunnerDrains(s: State, g: nat) returns (sched: seq<Actor>)
    requires 0 < g < |s.groups|
    ensures Drained(s, g, Run(s, sched)) && forall k :: 0 <= k < |sched| ==> !sched[k].TheMover?
    decreases |s.groups[g].jobs|, Ahead(s.groups[g].runner)
  {
    var x := s.groups[g];
    if x.runner.RIdle? && x.jobs == [] {
      sched := [];
      assert s.groups[g := Group([], Handled(x.sessions, x.jobs), RIdle)] == s.groups;
    } else {
      var s' := Step(s, TheRunner(g));
      if x.runner.RIdle? {
        TakeWorks(s, g, s');
      } else {
        CheckWorks(s, g, s');
      }
      var rest := RunnerDrains(s', g);
      sched := RunNext(s, TheRunner(g), rest, s');
      if x.runner.RIdle? {
        TakeDrains(s, g, s', Run(s', rest));
      } else {
        CheckDrains(s, g, s', Run(s', rest));
      }
    }
  }

  // ---------------------------------------------------------------- the end of a session in a group

  lemma {:induction false} NoMoveIsSafe(s: State, sched: seq<Actor>)
    requires Safe(s) && forall k :: 0 <= k < |sched| ==> !sched[k].TheMover?
    ensures Safe(Run(s, sched))
    decreases |sched|
  {
    if sched != [] {
      StepSafe(s, sched[0]);
      NoMoveIsSafe(Step(s, sched[0]), sched[1..]);
    }
  }

  /** After a drain in which the session's Leave was pending there is exactly one post more. */
  lemma DrainPostsOnce(s: State, r: State)
    requires Safe(s) && s.life.Waiting? && Safe(r) && 0 < s.group < |s.groups| && Drained(s, s.group, r)
    ensures r.life.Posted? && r.posts == s.posts + [s.id]
  {
    var x := s.groups[s.group];
    var n := PostCount(s, s.group, x.runner, x.jobs);
    assert Pending(Group([], r.groups[s.group].sessions, RIdle), r.id) == 0;
    assert |r.posts| == |s.posts| + n && |r.posts| == r.id && |s.posts| == s.id - 1;
    assert Copies(s.id, 1) == [s.id];
  }

  /** A released session that waits for its group, on any run with safe moves: the group's runner alone comes to its
      Leave and posts once, its members are the others, and the slot goes on to the next lifetime in the base group. */
  lemma WaitingEnds(start: State, before: seq<Actor>) returns (sched: seq<Actor>)
    requires Initial(start) && |start.groups| > 0 && SafeAlong(start, before)
    requires Run(start, before).life.Waiting?
    ensures
      var s := Run(start, before);
      var r := Run(s, sched);
      && 0 < s.group < |s.groups| && r.posts == s.posts + [s.id] && r.life.Live? && !r.flagged
      && r.id == s.id + 1 && r.group == BASE
      && r.groups == s.groups[s.group :=
           Group([], Handled(s.groups[s.group].sessions, s.groups[s.group].jobs), RIdle)]
  {
    var s := Run(start, before);
    RunSafe(start, before);
    var a := RunnerDrains(s, s.group);
    var r := Run(s, a);
    NoMoveIsSafe(s, a);
    DrainPostsOnce(s, r);
    var b := RecycleAlone(r);
    RunCat(s, a, b);
    sched := a + b;
  }
}
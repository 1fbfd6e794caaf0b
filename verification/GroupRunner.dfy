/** The runner of a group (src/Group.cpp: Enqueue, Update, HandleJob): whoever queues a job and sees
    `_isRun` clear runs the group itself; the exchange on `_isRun` lets one thread in. Jobs are queued
    without a rejection, as one step (`TicketQueue`). */
module GroupRunner {
  import opened Agents

  const JOBS_PER_PASS := 1000

  type Job = nat

  /** History: all jobs ever queued, and those handled, in order. */
  datatype Group = Group(jobs: seq<Job>, isRun: bool, queued: seq<Job>, handled: seq<Job>)

  datatype Pc =
    | Idle
    | Queue(j: Job, update: bool)   // Enqueue: before the job is queued
    | Test                          // before reading _isRun
    | Exchange                      // Update: before the exchange of _isRun
    | Check                         // top of the loop: before hasJob() || NeedUpdate()
    | Handle(n: nat)                // HandleJob: n jobs handled in this pass; before the next Dequeue
    | Store                         // the loop has ended; before _isRun is cleared

  /** What an idle thread begins, whether the clock says that an update is due, and whether the next job is a Recv
      whose session FindSession does not find. */
  datatype Choice = Enqueue(j: Job, update: bool) | Update | Due(due: bool) | Dropped

  datatype State = State(g: Group, agents: seq<Pc>)

  /** One atomic step. */
  function Local(g: Group, pc: Pc, c: Choice): (Group, Pc) {
    match pc
    case Idle =>
      (g, match c case Enqueue(j, update) => Queue(j, update) case Update => Exchange case _ => Idle)
    case Queue(j, update) =>
      (g.(jobs := g.jobs + [j], queued := g.queued + [j]), if update then Test else Idle)
    case Test => (g, if g.isRun then Idle else Exchange)
    case Exchange => (g.(isRun := true), if g.isRun then Idle else Check)
    case Check => (g, if g.jobs != [] || c == Due(true) then Handle(0) else Store)
    case Handle(n) =>
      if g.jobs == [] then (g, Check)
      else
        (g.(jobs := g.jobs[1..], handled := g.handled + [g.jobs[0]]),
         if n + 1 == JOBS_PER_PASS && !c.Dropped? then Check else Handle(n + 1))
    case Store => (g.(isRun := false), Idle)
  }

  function Step(s: State, a: nat, c: Choice): State {
    if a >= |s.agents| then s else
      var (g, pc) := Local(s.g, s.agents[a], c);
      State(g, s.agents[a := pc])
  }

  type Schedule = seq<(nat, Choice)>

  function Run(s: State, sched: Schedule): State
    decreases |sched|
  {
    if sched == [] then s else Run(Step(s, sched[0].0, sched[0].1), sched[1..])
  }

  predicate Initial(s: State) {
    s.g == Group([], false, [], []) && forall a :: 0 <= a < |s.agents| ==> s.agents[a] == Idle
  }

  // ---------------------------------------------------------------- one runner, jobs in order

  predicate Inside(pc: Pc) {
    pc.Check? || pc.Handle? || pc.Store?
  }

  /** Agents that will still look whether there are jobs. */
  predicate Looking(pc: Pc) {
    pc.Test? || pc.Exchange? || pc.Check? || pc.Handle?
  }

  ghost predicate Inv(s: State) {
    Count(s.agents, Inside) == Bit(s.g.isRun) && s.g.queued == s.g.handled + s.g.jobs
  }

  lemma StepInv(s: State, a: nat, c: Choice)
    requires Inv(s)
    ensures Inv(Step(s, a, c))
  {
    if a < |s.agents| {
      var pc' := Local(s.g, s.agents[a], c).1;
      CountMove(s.agents, a, pc', Inside);
      if Inside(s.agents[a]) {
        CountOne(s.agents, a, Inside);
      }
    }
  }

  lemma {:induction false} RunInv(s: State, sched: Schedule)
    requires Inv(s)
    ensures Inv(Run(s, sched))
    decreases |sched|
  {
    if sched != [] {
      StepInv(s, sched[0].0, sched[0].1);
      RunInv(Step(s, sched[0].0, sched[0].1), sched[1..]);
    }
  }

  /** On every run at most one thread is in the group's loop, exactly when `_isRun` is set, and the jobs
      handled are the first ones queued, each once and in order. */
  lemma OneRunnerInOrder(s: State, sched: Schedule)
    requires Initial(s)
    ensures
      var t := Run(s, sched);
      Count(t.agents, Inside) == Bit(t.g.isRun) && t.g.queued == t.g.handled + t.g.jobs
  {
    CountZero(s.agents, Inside);
    RunInv(s, sched);
  }

  // ---------------------------------------------------------------- jobs that wait for the clock

  /** Jobs are queued and no thread will look at them: they wait until something calls Update again. */
  ghost predicate Forgotten(s: State) {
    s.g.jobs != [] && Count(s.agents, Looking) == 0
  }

  /** Two kinds of step leave jobs behind, with no other thread looking: queueing without asking for an
      update, and finding `_isRun` set. */
  ghost predicate Forgets(s: State, a: nat) {
    && a < |s.agents|
    && var pc := s.agents[a];
       || (pc.Queue? && !pc.update && Count(s.agents, Looking) == 0)
       || ((pc.Test? || pc.Exchange?) && s.g.isRun && s.g.jobs != [] && Count(s.agents, Looking) == 1)
  }

  lemma StepForgets(s: State, a: nat, c: Choice)
    requires Inv(s) && !Forgotten(s)
    ensures Forgotten(Step(s, a, c)) <==> Forgets(s, a)
  {
    if a < |s.agents| {
      var pc := s.agents[a];
      CountMove(s.agents, a, Local(s.g, pc, c).1, Looking);
      if Looking(pc) {
        CountOne(s.agents, a, Looking);
      }
    }
  }

  ghost predicate SometimeForgotten(s: State, sched: Schedule)
    decreases |sched|
  {
    Forgotten(s) || (sched != [] && SometimeForgotten(Step(s, sched[0].0, sched[0].1), sched[1..]))
  }

  ghost predicate SometimeForgets(s: State, sched: Schedule)
    decreases |sched|
  {
    sched != [] &&
      (Forgets(s, sched[0].0) || SometimeForgets(Step(s, sched[0].0, sched[0].1), sched[1..]))
  }

  lemma {:induction false} RunForgets(s: State, sched: Schedule)
    requires Inv(s) && !Forgotten(s)
    ensures SometimeForgotten(s, sched) <==> SometimeForgets(s, sched)
    decreases |sched|
  {
    if sched != [] {
      var s' := Step(s, sched[0].0, sched[0].1);
      StepForgets(s, sched[0].0, sched[0].1);
      if !Forgotten(s') {
        StepInv(s, sched[0].0, sched[0].1);
        RunForgets(s', sched[1..]);
      }
    }
  }

  /** On every run, jobs are at some time left behind if and only if one of the two kinds of step occurs. */
  lemma ForgettingIsExact(s: State, sched: Schedule)
    requires Initial(s)
    ensures SometimeForgotten(s, sched) <==> SometimeForgets(s, sched)
  {
    CountZero(s.agents, Inside);
    RunForgets(s, sched);
  }

  /** Jobs left behind stay so until a thread begins an Update or queues another job and asks for one. */
  lemma ForgottenUntilUpdate(s: State, a: nat, c: Choice)
    requires Forgotten(s) && a < |s.agents|
    ensures
      var pc := s.agents[a];
      Forgotten(Step(s, a, c)) <==> !((pc.Idle? && c.Update?) || (pc.Queue? && pc.update))
  {
    var pc := s.agents[a];
    CountMove(s.agents, a, Local(s.g, pc, c).1, Looking);
    if Looking(pc) {
      CountOne(s.agents, a, Looking);
    }
  }

  /** ... and in the second case the runner that holds `_isRun` is indeed past its loop. */
  lemma ForgetfulRunnerHasLeft(s: State, a: nat) returns (r: nat)
    requires Inv(s) && a < |s.agents| && (s.agents[a].Test? || s.agents[a].Exchange?)
    requires s.g.isRun && Count(s.agents, Looking) == 1
    ensures r < |s.agents| && s.agents[r] == Store
  {
    r := CountSome(s.agents, Inside);
    if Looking(s.agents[r]) {
      CountTwo(s.agents, a, r, Looking);
    }
  }

  lemma RunCons(s: State, a: nat, c: Choice, rest: Schedule)
    ensures Run(s, [(a, c)] + rest) == Run(Step(s, a, c), rest)
  {
    assert ([(a, c)] + rest)[1..] == rest;
  }

  /** The code does forget a job that was queued asking for an update: the runner has found nothing to do,
      the producer queues and reads `_isRun` before it is cleared, and at the end everybody is idle. */
  lemma JobForgotten(j: Job) returns (s: State, sched: Schedule)
    ensures Initial(s) && Forgotten(Run(s, sched))
    ensures Run(s, sched) == State(Group([j], false, [j], []), [Idle, Idle])
    ensures |sched| == 7 && sched[3] == (1, Enqueue(j, true))
  {
    var wait, give := Due(false), Enqueue(j, true);
    var none, one := Group([], true, [], []), Group([j], true, [j], []);
    s := State(Group([], false, [], []), [Idle, Idle]);
    var s1 := State(s.g, [Exchange, Idle]);
    var s2 := State(none, [Check, Idle]);
    var s3 := State(none, [Store, Idle]);
    var s4 := State(none, [Store, Queue(j, true)]);
    var s5 := State(one, [Store, Test]);
    var s6 := State(one, [Store, Idle]);
    var s7 := State(one.(isRun := false), [Idle, Idle]);
    assert Step(s, 0, Update) == s1 && Step(s1, 0, wait) == s2 && Step(s2, 0, wait) == s3;
    assert Step(s3, 1, give) == s4 && Step(s4, 1, wait) == s5 && Step(s5, 1, wait) == s6 && Step(s6, 0, wait) == s7;
    var last := [(0, wait)] + [];
    var middle := [(1, give)] + ([(1, wait)] + ([(1, wait)] + last));
    RunCons(s6, 0, wait, []);
    RunCons(s5, 1, wait, last);
    RunCons(s4, 1, wait, [(1, wait)] + last);
    RunCons(s3, 1, give, [(1, wait)] + ([(1, wait)] + last));
    RunCons(s2, 0, wait, middle);
    RunCons(s1, 0, wait, [(0, wait)] + middle);
    RunCons(s, 0, Update, [(0, wait)] + ([(0, wait)] + middle));
    sched := [(0, Update)] + ([(0, wait)] + ([(0, wait)] + middle));
    CountZero(s7.agents, Looking);
  }

  lemma StepGrows(s: State, a: nat, c: Choice)
    requires Inv(s)
    ensures s.g.handled <= Step(s, a, c).g.handled && s.g.queued <= Step(s, a, c).g.queued
  {
  }

  lemma {:induction false} HandledGrows(s: State, sched: Schedule)
    requires Inv(s)
    ensures s.g.handled <= Run(s, sched).g.handled
    decreases |sched|
  {
    if sched != [] {
      StepInv(s, sched[0].0, sched[0].1);
      StepGrows(s, sched[0].0, sched[0].1);
      HandledGrows(Step(s, sched[0].0, sched[0].1), sched[1..]);
    }
  }

  lemma {:induction false} RunUpdate(s: State, a: nat, sched: Schedule)
    requires Inv(s) && a < |s.agents| && s.agents[a] != Store
    requires a < |Run(s, sched).agents| && Run(s, sched).agents[a] == Store
    ensures s.g.queued <= Run(s, sched).g.handled
    decreases |sched|
  {
    var s' := Step(s, sched[0].0, sched[0].1);
    StepInv(s, sched[0].0, sched[0].1);
    StepGrows(s, sched[0].0, sched[0].1);
    if s'.agents[a] == Store {
      assert s.g.handled == s.g.handled + s.g.jobs;
      HandledGrows(s', sched[1..]);
    } else {
      RunUpdate(s', a, sched[1..]);
    }
  }

  /** Whatever the others do: when a thread that was not yet done at some time has run the loop to its end,
      every job that was queued at that time has been handled. So jobs left behind are handled by the next
      Update that gets in, such as the periodic one. */
  lemma UpdateHandlesAll(s: State, before: Schedule, a: nat, sched: Schedule)
    requires Initial(s)
    requires var was := Run(s, before).agents; a < |was| && was[a] != Store
    requires var now := Run(Run(s, before), sched).agents; a < |now| && now[a] == Store
    ensures Run(s, before).g.queued <= Run(Run(s, before), sched).g.handled
  {
    CountZero(s.agents, Inside);
    RunInv(s, before);
    RunUpdate(Run(s, before), a, sched);
  }

  /** A thread in the loop, left alone, handles everything that is queued and leaves. */
  lemma {:induction false} LoopDrains(s: State, a: nat) returns (sched: Schedule)
    requires a < |s.agents| && (s.agents[a].Check? || s.agents[a].Handle?)
    ensures
      var t := Run(s, sched);
      t.g == Group([], false, s.g.queued, s.g.handled + s.g.jobs) && t.agents == s.agents[a := Idle]
    decreases |s.g.jobs|, if s.agents[a].Check? then 1 else 0
  {
    var c, pc := Due(false), s.agents[a];
    var s1 := Step(s, a, c);
    if s.g.jobs == [] {
      var s2 := if pc.Handle? then Step(s1, a, c) else s1;
      assert s2.agents[a] == Store && s2.agents == s.agents[a := Store] && s2.g == s.g;
      var s3 := Step(s2, a, c);
      RunCons(s2, a, c, []);
      sched := [(a, c)] + [];
      if pc.Handle? {
        RunCons(s1, a, c, sched);
        sched := [(a, c)] + sched;
      }
      RunCons(s, a, c, sched);
      sched := [(a, c)] + sched;
      assert s.g.handled + s.g.jobs == s.g.handled;
    } else {
      if pc.Handle? {
        assert s.g.jobs == [s.g.jobs[0]] + s.g.jobs[1..];
        assert s.g.handled + s.g.jobs == s1.g.handled + s1.g.jobs;
      }
      var rest := LoopDrains(s1, a);
      sched := [(a, c)] + rest;
      RunCons(s, a, c, rest);
    }
  }

  /** ... and such an Update comes to its end: with nobody else running it handles all of them and leaves. */
  lemma NextUpdateDrains(s: State, a: nat) returns (sched: Schedule)
    requires a < |s.agents| && s.agents[a] == Idle && !s.g.isRun
    ensures
      var t := Run(s, sched);
      t.g == Group([], false, s.g.queued, s.g.handled + s.g.jobs) && t.agents == s.agents
  {
    var s1 := Step(s, a, Update);
    var s2 := Step(s1, a, Update);
    var rest := LoopDrains(s2, a);
    sched := [(a, Update)] + ([(a, Update)] + rest);
    RunCons(s, a, Update, [(a, Update)] + rest);
    RunCons(s1, a, Update, rest);
    assert s2.agents[a := Idle] == s.agents;
  }

  /** Enqueue with nobody else running: the producer handles its own job and all before it if it asks for an update;
      otherwise, and whenever another thread runs the group, the job is queued and nothing more. */
  lemma EnqueueAlone(s: State, a: nat, j: Job, update: bool) returns (sched: Schedule)
    requires a < |s.agents| && s.agents[a] == Idle
    ensures
      var t, g := Run(s, sched), s.g;
      var all := g.queued + [j];
      && t.agents == s.agents
      && t.g == if update && !g.isRun then Group([], false, all, g.handled + (g.jobs + [j]))
                else Group(g.jobs + [j], g.isRun, all, g.handled)
  {
    var c := Enqueue(j, update);
    var s1 := Step(s, a, c);
    var s2 := Step(s1, a, c);
    var rest: Schedule := [];
    if update {
      var s3 := Step(s2, a, c);
      if !s.g.isRun {
        var s4 := Step(s3, a, c);
        rest := LoopDrains(s4, a);
        RunCons(s3, a, c, rest);
        rest := [(a, c)] + rest;
        assert s4.agents[a := Idle] == s.agents;
      } else {
        assert s3.agents == s.agents;
      }
      RunCons(s2, a, c, rest);
      rest := [(a, c)] + rest;
    } else {
      assert s2.agents == s.agents;
    }
    RunCons(s1, a, c, rest);
    RunCons(s, a, c, [(a, c)] + rest);
    sched := [(a, c)] + ([(a, c)] + rest);
  }

  // ---------------------------------------------------------------- one pass

  /** Thread `a` is in HandleJob at all times of the run. */
  predicate InPass(s: State, sched: Schedule, a: nat)
    decreases |sched|
  {
    && a < |s.agents| && s.agents[a].Handle?
    && (sched != [] ==> InPass(Step(s, sched[0].0, sched[0].1), sched[1..], a))
  }

  lemma {:induction false} PassCounts(s: State, sched: Schedule, a: nat)
    requires Inv(s) && InPass(s, sched, a)
    ensures
      var r := Run(s, sched);
      && Inv(r) && a < |r.agents| && r.agents[a].Handle? && s.agents[a].n <= r.agents[a].n
      && |r.g.handled| == |s.g.handled| + (r.agents[a].n - s.agents[a].n)
    decreases |sched|
  {
    if sched != [] {
      var (b, c) := sched[0];
      StepInv(s, b, c);
      if b != a && b < |s.agents| && Inside(s.agents[b]) {
        CountTwo(s.agents, a, b, Inside);
      }
      PassCounts(Step(s, b, c), sched[1..], a);
    }
  }

  /** Whatever the producers do meanwhile, a pass that begins, because there are jobs or the clock asks for an update,
      ends exactly when it finds no job or has just handled its 1000th, unless that was dropped: the source counts a
      Recv of a session that is gone and skips the test of the count. */
  lemma PassEndsExactly(s: State, due: Choice, sched: Schedule, a: nat, c: Choice)
    requires Inv(s) && a < |s.agents| && s.agents[a] == Check && (s.g.jobs != [] || due == Due(true))
    requires InPass(Step(s, a, due), sched, a)
    ensures
      var r := Run(Step(s, a, due), sched);
      var r' := Step(r, a, c);
      && |s.g.handled| <= |r.g.handled| && a < |r.agents| == |r'.agents|
      && r'.g.handled == r.g.handled + (if r.g.jobs == [] then [] else [r.g.jobs[0]])
      && (r'.agents[a] == Check <==>
           r.g.jobs == [] || (|r.g.handled| + 1 == |s.g.handled| + JOBS_PER_PASS && c != Dropped))
      && (r'.agents[a] != Check ==> r'.agents[a].Handle?)
  {
    StepInv(s, a, due);
    PassCounts(Step(s, a, due), sched, a);
  }

  /** At some step of the run the thread drops the 1000th job of its pass. */
  predicate DropsTheLast(s: State, sched: Schedule, a: nat)
    decreases |sched|
  {
    && sched != []
    && ((a < |s.agents| && s.agents[a] == Handle(JOBS_PER_PASS - 1) && sched[0] == (a, Dropped) && s.g.jobs != [])
        || DropsTheLast(Step(s, sched[0].0, sched[0].1), sched[1..], a))
  }

  lemma {:induction false} LongCounts(s: State, sched: Schedule, a: nat)
    requires Inv(s) && InPass(s, sched, a) && s.agents[a].n < JOBS_PER_PASS
    ensures a < |Run(s, sched).agents| && Run(s, sched).agents[a].Handle?
    ensures Run(s, sched).agents[a].n >= JOBS_PER_PASS <==> DropsTheLast(s, sched, a)
    decreases |sched|
  {
    if sched != [] {
      var (b, c) := sched[0];
      var s' := Step(s, b, c);
      StepInv(s, b, c);
      if s'.agents[a].n < JOBS_PER_PASS {
        LongCounts(s', sched[1..], a);
      } else {
        PassCounts(s', sched[1..], a);
      }
    }
  }

  /** So a pass goes on after 1000 jobs if and only if its 1000th job was dropped. */
  lemma LongPassIsExact(s: State, due: Choice, sched: Schedule, a: nat)
    requires Inv(s) && a < |s.agents| && s.agents[a] == Check && (s.g.jobs != [] || due == Due(true))
    requires InPass(Step(s, a, due), sched, a)
    ensures
      var s1 := Step(s, a, due);
      |Run(s1, sched).g.handled| >= |s.g.handled| + JOBS_PER_PASS <==> DropsTheLast(s1, sched, a)
  {
    StepInv(s, a, due);
    PassCounts(Step(s, a, due), sched, a);
    LongCounts(Step(s, a, due), sched, a);
  }

  /** ... and then it ends only with an empty queue: all that is queued is handled before the clock is looked at. */
  lemma {:induction false} LongPassDrains(s: State, a: nat, n: nat) returns (sched: Schedule)
    requires Inv(s) && a < |s.agents| && s.agents[a] == Handle(JOBS_PER_PASS - 1) && 1 <= n <= |s.g.jobs|
    ensures InPass(s, sched, a)
    ensures Run(s, sched).g == s.g.(jobs := s.g.jobs[n..], handled := s.g.handled + s.g.jobs[..n])
  {
    var s1 := Step(s, a, Dropped);
    StepInv(s, a, Dropped);
    var rest := PassGoesOn(s1, a, n - 1);
    sched := [(a, Dropped)] + rest;
    RunCons(s, a, Dropped, rest);
    assert sched[1..] == rest;
    assert s.g.jobs[..n] == [s.g.jobs[0]] + s1.g.jobs[..n - 1];
  }

  lemma {:induction false} PassGoesOn(s: State, a: nat, n: nat) returns (sched: Schedule)
    requires Inv(s) && a < |s.agents| && s.agents[a].Handle? && s.agents[a].n >= JOBS_PER_PASS && n <= |s.g.jobs|
    ensures InPass(s, sched, a)
    ensures Run(s, sched).g == s.g.(jobs := s.g.jobs[n..], handled := s.g.handled + s.g.jobs[..n])
    decreases n
  {
    if n == 0 {
      sched := [];
      assert s.g.jobs[0..] == s.g.jobs && s.g.handled + [] == s.g.handled;
    } else {
      var c := Due(false);
      var s1 := Step(s, a, c);
      StepInv(s, a, c);
      var rest := PassGoesOn(s1, a, n - 1);
      sched := [(a, c)] + rest;
      RunCons(s, a, c, rest);
      assert sched[1..] == rest;
      assert s.g.jobs[..n] == [s.g.jobs[0]] + s1.g.jobs[..n - 1];
    }
  }

  lemma {:induction false} RunCat(s: State, x: Schedule, y: Schedule)
    ensures Run(s, x + y) == Run(Run(s, x), y)
    decreases |x|
  {
    if x == [] {
      assert x + y == y;
    } else {
      assert (x + y)[0] == x[0] && (x + y)[1..] == x[1..] + y;
      RunCat(Step(s, x[0].0, x[0].1), x[1..], y);
    }
  }

  /** Jobs queued without asking for an update pile up. */
  lemma {:induction false} QueuesMany(s: State, a: nat, n: nat) returns (sched: Schedule)
    requires Inv(s) && a < |s.agents| && s.agents[a] == Idle && !s.g.isRun
    ensures
      var r := Run(s, sched);
      && Inv(r) && r.agents == s.agents && !r.g.isRun && |r.g.jobs| == |s.g.jobs| + n
      && r.g.handled == s.g.handled
    decreases n
  {
    if n == 0 {
      sched := [];
    } else {
      var x := EnqueueAlone(s, a, 0, false);
      RunInv(s, x);
      var y := QueuesMany(Run(s, x), a, n - 1);
      RunCat(s, x, y);
      sched := x + y;
    }
  }

  /** The first jobs of a pass. */
  lemma {:induction false} PassGoesTo(s: State, a: nat, n: nat) returns (sched: Schedule)
    requires Inv(s) && a < |s.agents| && s.agents[a].Handle? && n <= |s.g.jobs|
    requires s.agents[a].n + n < JOBS_PER_PASS
    ensures InPass(s, sched, a)
    ensures
      var r := Run(s, sched);
      && Inv(r) && r.agents == s.agents[a := Handle(s.agents[a].n + n)] && |r.g.jobs| == |s.g.jobs| - n
      && |r.g.handled| == |s.g.handled| + n
    decreases n
  {
    if n == 0 {
      sched := [];
      assert s.agents[a := Handle(s.agents[a].n)] == s.agents;
    } else {
      var c := Due(false);
      var s1 := Step(s, a, c);
      StepInv(s, a, c);
      var rest := PassGoesTo(s1, a, n - 1);
      sched := [(a, c)] + rest;
      RunCons(s, a, c, rest);
      assert sched[1..] == rest;
    }
  }

  lemma {:induction false} InPassCat(s: State, x: Schedule, y: Schedule, a: nat)
    requires InPass(s, x, a) && InPass(Run(s, x), y, a)
    ensures InPass(s, x + y, a)
    decreases |x|
  {
    if x == [] {
      assert x + y == y;
    } else {
      assert (x + y)[0] == x[0] && (x + y)[1..] == x[1..] + y;
      InPassCat(Step(s, x[0].0, x[0].1), x[1..], y, a);
    }
  }

  /** The limit of 1000 is no limit: for every longer queue there is a run in which one pass handles all of it. */
  lemma LimitIsPassed(m: nat) returns (s: State, before: Schedule, sched: Schedule)
    requires m > JOBS_PER_PASS
    ensures Initial(s) && |s.agents| == 1
    ensures
      var t := Run(s, before);
      && |t.agents| == 1 && t.agents[0] == Handle(0) && t.g.handled == [] && |t.g.jobs| == m
      && InPass(t, sched, 0) && |Run(t, sched).g.handled| == m
  {
    s := State(Group([], false, [], []), [Idle]);
    CountZero(s.agents, Inside);
    var c := Due(false);
    var x := QueuesMany(s, 0, m);
    var s1 := Run(s, x);
    var s2 := Step(s1, 0, Update);
    var s3 := Step(s2, 0, c);
    var t := Step(s3, 0, c);
    StepInv(s1, 0, Update);
    StepInv(s2, 0, c);
    StepInv(s3, 0, c);
    RunCons(s3, 0, c, []);
    RunCons(s2, 0, c, [(0, c)] + []);
    RunCons(s1, 0, Update, [(0, c)] + ([(0, c)] + []));
    before := x + ([(0, Update)] + ([(0, c)] + ([(0, c)] + [])));
    RunCat(s, x, [(0, Update)] + ([(0, c)] + ([(0, c)] + [])));
    var first := PassGoesTo(t, 0, JOBS_PER_PASS - 1);
    var u := Run(t, first);
    var rest := LongPassDrains(u, 0, |u.g.jobs|);
    RunCat(t, first, rest);
    InPassCat(t, first, rest, 0);
    sched := first + rest;
  }

  /** A pass begins exactly then; otherwise the loop is over. */
  lemma PassBegins(s: State, a: nat, c: Choice)
    requires a < |s.agents| && s.agents[a] == Check
    ensures
      var s' := Step(s, a, c);
      && s'.g == s.g && |s'.agents| == |s.agents|
      && (InPass(s', [], a) <==> s.g.jobs != [] || c == Due(true))
      && (s'.agents[a] == Store <==> s.g.jobs == [] && c != Due(true))
  {
  }
}

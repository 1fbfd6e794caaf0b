/** Leaving a group and releasing a session (src/Group.cpp: HandleJob; src/GroupManager.cpp: MoveSession,
    SessionDisconnected; src/Session.cpp: Release; src/NormalIOCP.cpp: CheckPostRelease;
    src/ReleaseExecutable.cpp), for one slot and all the ids it carries one after the other.

    A group's jobs are a FIFO with one runner (`TicketQueue`, `_isRun`). There is one mover, which holds a
    reference while it works, so that the flag cannot be set under it (`SlotLifetime`): this is the case of
    moves that do not overlap, and `ConcurrentMoves` has the others. Every read and write of the slot's shared
    fields is a step of its own. */
module GroupLeave {
  import opened Agents

  datatype Job = Enter(id: nat) | Leave(id: nat)

  /** The runner of a group: handling a Leave, before each read of CheckPostRelease. */
  datatype Runner =
    | RIdle
    | RGroup(id: nat)                  // OnLeave is done; before reading the session's group
    | RId(id: nat)                     // before reading its id
    | RRef(id: nat)                    // GetRefCount: before reading the reference count
    | RAssert(id: nat, flagged: bool)  //   the flag has been read; before the id is read again and asserted
    | RPost(id: nat)                   // before PostRelease

  datatype Group = Group(jobs: seq<Job>, sessions: set<nat>, runner: Runner)

  /** MoveSession after FindSession succeeded. */
  datatype Mover =
    | MIdle
    | MSrc(dst: nat)               // before reading the group
    | MLeave(dst: nat, src: nat)   // before LeaveSession
    | MSet(dst: nat, src: nat)     // before SetGroupID
    | MEnter(dst: nat)             // before EnterSession
    | MRelease                     // before dropping the reference

  /** The slot: live, then what the thread whose CAS set the flag does, then its recycling. */
  datatype Life =
    | Live
    | Read1              // Release: before reading the group
    | Post1              //   it was the base group: before PostRelease
    | Read2              // SessionDisconnected: before reading the group again
    | Enqueue(src: nat)  //   before LeaveSession
    | Waiting            // the Leave is queued
    | Posted             // a ReleaseExecutable is queued
    | Free               // Reset is done
    | Accepting          // a new id is written, the flag still set

  /** History: the ids PostRelease was called for, in order; OnLeave calls as (group, id); a
      `__debugbreak` because a Leave did not find its session; a failed assertion on the id. */
  datatype State = State(
    id: nat, group: nat, flagged: bool, mover: Mover, life: Life, groups: seq<Group>,
    posts: seq<nat>, left: set<(nat, nat)>, missing: bool, wrongId: bool)

  const BASE := 0

  /** Who moves; a move needs a destination. */
  datatype Actor = TheMover(dst: nat) | TheSlot | TheRunner(g: nat)

  // ---------------------------------------------------------------- steps

  function Add(s: State, g: nat, j: Job): State {
    if 0 < g < |s.groups| then s.(groups := s.groups[g := s.groups[g].(jobs := s.groups[g].jobs + [j])]) else s
  }

  function SetRunner(s: State, g: nat, r: Runner): State
    requires g < |s.groups|
  {
    s.(groups := s.groups[g := s.groups[g].(runner := r)])
  }

  function MoverStep(s: State, dst: nat): State {
    match s.mover
    case MIdle => if !s.flagged && s.life.Live? && dst < |s.groups| then s.(mover := MSrc(dst)) else s
    case MSrc(dst) => s.(mover := MLeave(dst, s.group))
    case MLeave(dst, src) => Add(s, src, Leave(s.id)).(mover := MSet(dst, src))
    case MSet(dst, src) => s.(group := dst, mover := if dst == BASE then MRelease else MEnter(dst))
    case MEnter(dst) => Add(s, dst, Enter(s.id)).(mover := MRelease)
    case MRelease => s.(mover := MIdle)
  }

  function SlotStep(s: State): State {
    match s.life
    case Live => if s.mover.MIdle? then s.(flagged := true, life := Read1) else s
    case Read1 => s.(life := if s.group == BASE then Post1 else Read2)
    case Post1 => PostRelease(s.(life := Waiting))
    case Read2 => s.(life := if s.group == BASE then Waiting else Enqueue(s.group))
    case Enqueue(src) => Add(s, src, Leave(s.id)).(life := Waiting)
    case Waiting => s
    case Posted => s.(group := BASE, life := Free)
    case Free => s.(id := s.id + 1, life := Accepting)
    case Accepting => s.(flagged := false, life := Live)
  }

  /** PostRelease posts for whoever has the slot now. */
  function PostRelease(s: State): State {
    s.(posts := s.posts + [s.id], life := if s.life.Waiting? then Posted else s.life)
  }

  /** HandleJob, up to the end of OnEnter or OnLeave. */
  function TakeJob(s: State, g: nat): State
    requires 0 < g < |s.groups|
  {
    var x := s.groups[g];
    if x.jobs == [] then s else
    var rest := x.jobs[1..];
    match x.jobs[0]
    case Enter(j) => s.(groups := s.groups[g := x.(jobs := rest, sessions := x.sessions + {j})])
    case Leave(j) =>
      s.(groups := s.groups[g := Group(rest, x.sessions - {j}, RGroup(j))],
         left := s.left + {(g, j)}, missing := s.missing || j !in x.sessions)
  }

  /** The reads of CheckPostRelease. */
  function CheckStep(s: State, g: nat): State
    requires g < |s.groups| && !s.groups[g].runner.RIdle?
  {
    match s.groups[g].runner
    case RGroup(j) => SetRunner(s, g, if s.group == g then RId(j) else RIdle)
    case RId(j) => SetRunner(s, g, if s.id == j then RRef(j) else RIdle)
    case RRef(j) => SetRunner(s, g, RAssert(j, s.flagged))
    case RAssert(j, f) => SetRunner(s, g, if f then RPost(j) else RIdle).(wrongId := s.wrongId || s.id != j)
    case RPost(j) => PostRelease(SetRunner(s, g, RIdle))
  }

  function RunnerStep(s: State, g: nat): State
    requires 0 < g < |s.groups|
  {
    if s.groups[g].runner.RIdle? then TakeJob(s, g) else CheckStep(s, g)
  }

  function Step(s: State, a: Actor): State {
    match a
    case TheMover(dst) => MoverStep(s, dst)
    case TheSlot => SlotStep(s)
    case TheRunner(g) => if 0 < g < |s.groups| then RunnerStep(s, g) else s
  }

  function Run(s: State, sched: seq<Actor>): State
    decreases |sched|
  {
    if sched == [] then s else Run(Step(s, sched[0]), sched[1..])
  }

  /** A slot nobody has used, and empty groups. */
  predicate Initial(s: State) {
    && s == State(0, BASE, true, MIdle, Free, s.groups, [], {}, false, false)
    && forall g :: 0 <= g < |s.groups| ==> s.groups[g] == Group([], {}, RIdle)
  }

  // ---------------------------------------------------------------- hypotheses on moves

  function Leaves(jobs: seq<Job>, j: nat): nat {
    if jobs == [] then 0 else Leaves(jobs[..|jobs| - 1], j) + Bit(jobs[|jobs| - 1] == Leave(j))
  }

  /** In a check of `j` that may still post. */
  predicate Handling(r: Runner, j: nat) {
    !r.RIdle? && r.id == j && (r.RAssert? ==> r.flagged)
  }

  /** Leave jobs of `j` that group `g` has not finished with. */
  function Pending(x: Group, j: nat): nat {
    Leaves(x.jobs, j) + Bit(Handling(x.runner, j))
  }

  /** Between its read of the group and its read of the reference count. */
  predicate Checking(r: Runner, j: nat) {
    (r.RId? || r.RRef?) && r.id == j
  }

  /** Before the second read of the id. */
  predicate Asserting(r: Runner, j: nat) {
    r.RAssert? && r.id == j
  }

  /** When the mover is about to write the group: the destination has no unhandled Leave of the session, no
      runner is in the middle of a CheckPostRelease for it, and none but the destination's own is before the
      assertion at its end. */
  predicate SafeMove(s: State) {
    s.mover.MSet? ==>
      && (BASE < s.mover.dst < |s.groups| ==> Pending(s.groups[s.mover.dst], s.id) == 0)
      && (forall g :: 0 < g < |s.groups| ==>
            !Checking(s.groups[g].runner, s.id) && (g != s.mover.dst ==> !Asserting(s.groups[g].runner, s.id)))
  }

  predicate SafeAlong(s: State, sched: seq<Actor>)
    decreases |sched|
  {
    sched != [] ==> (sched[0].TheMover? ==> SafeMove(s)) && SafeAlong(Step(s, sched[0]), sched[1..])
  }

  // ---------------------------------------------------------------- membership

  datatype Where = Inside | Outside | Bad

  function Apply(w: Where, job: Job, j: nat): Where {
    if job.id != j then w
    else match (w, job)
         case (Outside, Enter(_)) => Inside
         case (Inside, Leave(_)) => Outside
         case _ => Bad
  }

  /** Where `j` is once the jobs are handled; Bad if one of them does not fit. */
  function Track(w: Where, jobs: seq<Job>, j: nat): Where {
    if jobs == [] then w else Apply(Track(w, jobs[..|jobs| - 1], j), jobs[|jobs| - 1], j)
  }

  function At(inside: bool): Where {
    if inside then Inside else Outside
  }

  /** What the jobs of a group will do to `j`. */
  function Fate(x: Group, j: nat): Where {
    Track(At(j in x.sessions), x.jobs, j)
  }

  /** The last Enter is queued and no Leave after it is. */
  predicate Belongs(s: State, g: nat, j: nat) {
    && j == s.id && g == s.group
    && !s.mover.MSet? && !s.mover.MEnter?
    && (s.life.Live? || s.life.Read1? || s.life.Read2? || s.life.Enqueue?)
  }

  predicate MemberOk(s: State, g: nat, j: nat)
    requires g < |s.groups|
  {
    Fate(s.groups[g], j) == At(Belongs(s, g, j))
  }

  /** How the fields of the slot go together. */
  predicate SlotOk(s: State) {
    && |s.groups| > 0 && s.group < |s.groups| && s.flagged == !s.life.Live?
    && (!s.mover.MIdle? ==> s.life.Live?)
    && (match s.mover
        case MSrc(dst) => dst < |s.groups|
        case MLeave(dst, src) => dst < |s.groups| && src == s.group
        case MSet(dst, src) => dst < |s.groups| && src == s.group
        case MEnter(dst) => dst == s.group && dst != BASE
        case _ => true)
    && (match s.life
        case Post1 => s.group == BASE
        case Read2 => s.group != BASE
        case Enqueue(src) => src == s.group != BASE
        case Waiting => s.group != BASE
        case Free => s.group == BASE
        case Accepting => s.group == BASE
        case _ => true)
  }

  ghost predicate Members(s: State) {
    SlotOk(s) && !s.missing && forall g, j: nat :: 0 < g < |s.groups| ==> MemberOk(s, g, j)
  }

  lemma {:induction false} TrackFirst(w: Where, jobs: seq<Job>, j: nat)
    requires jobs != []
    ensures Track(w, jobs, j) == Track(Apply(w, jobs[0], j), jobs[1..], j)
  {
    var n := |jobs| - 1;
    if n > 0 {
      TrackFirst(w, jobs[..n], j);
      assert jobs[..n][1..] == jobs[1..][..n - 1];
    }
  }

  lemma {:induction false} BadStays(jobs: seq<Job>, j: nat)
    ensures Track(Bad, jobs, j) == Bad
  {
    if jobs != [] {
      BadStays(jobs[..|jobs| - 1], j);
    }
  }

  /** Queueing a job adds its effect at the end. */
  lemma QueueMember(s: State, src: nat, job: Job, g: nat, j: nat)
    requires 0 < g < |s.groups|
    ensures |Add(s, src, job).groups| == |s.groups|
    ensures Fate(Add(s, src, job).groups[g], j) ==
            if g == src then Apply(Fate(s.groups[g], j), job, j) else Fate(s.groups[g], j)
  {
    assert (s.groups[g].jobs + [job])[..|s.groups[g].jobs|] == s.groups[g].jobs;
  }

  lemma MoverMember(s: State, dst: nat, g: nat, j: nat)
    requires SlotOk(s) && 0 < g < |s.groups| && MemberOk(s, g, j)
    ensures |MoverStep(s, dst).groups| == |s.groups| && MemberOk(MoverStep(s, dst), g, j)
  {
    if s.mover.MLeave? {
      QueueMember(s, s.mover.src, Leave(s.id), g, j);
    } else if s.mover.MEnter? {
      QueueMember(s, s.mover.dst, Enter(s.id), g, j);
    }
  }

  /** The next job always fits. */
  lemma TakeMember(s: State, g: nat, h: nat, j: nat)
    requires Members(s) && 0 < g < |s.groups| && 0 < h < |s.groups|
    ensures |TakeJob(s, g).groups| == |s.groups| && MemberOk(TakeJob(s, g), h, j)
  {
    assert MemberOk(s, h, j);
    var x := s.groups[g];
    if h == g && x.jobs != [] {
      TrackFirst(At(j in x.sessions), x.jobs, j);
      BadStays(x.jobs[1..], j);
    }
  }

  /** Inside a check the runner changes its own place, and what a post changes. */
  lemma CheckFrame(s: State, g: nat)
    requires 0 < g < |s.groups| && !s.groups[g].runner.RIdle?
    ensures
      var s' := CheckStep(s, g);
      && s'.groups == s.groups[g := s.groups[g].(runner := s'.groups[g].runner)]
      && s'.id == s.id && s'.group == s.group && s'.mover == s.mover && s'.flagged == s.flagged && s'.left == s.left
      && s'.life == (if s.groups[g].runner.RPost? && s.life.Waiting? then Posted else s.life)
  {
  }

  lemma RunnerMember(s: State, g: nat, h: nat, j: nat)
    requires SlotOk(s) && 0 < g < |s.groups| && 0 < h < |s.groups| && !s.groups[g].runner.RIdle? && MemberOk(s, h, j)
    ensures |CheckStep(s, g).groups| == |s.groups| && MemberOk(CheckStep(s, g), h, j)
  {
    CheckFrame(s, g);
    assert CheckStep(s, g).groups[h].(runner := RIdle) == s.groups[h].(runner := RIdle);
  }

  lemma MoverSlotOk(s: State, dst: nat)
    requires SlotOk(s)
    ensures SlotOk(MoverStep(s, dst)) && |MoverStep(s, dst).groups| == |s.groups|
  {
  }

  lemma StepSlotOk(s: State, a: Actor)
    requires SlotOk(s)
    ensures SlotOk(Step(s, a)) && |Step(s, a).groups| == |s.groups|
  {
    if a.TheMover? {
      MoverSlotOk(s, a.dst);
    } else if a.TheRunner? && 0 < a.g < |s.groups| && !s.groups[a.g].runner.RIdle? {
      CheckFrame(s, a.g);
    }
  }

  lemma StepMember(s: State, a: Actor, g: nat, j: nat)
    requires Members(s) && 0 < g < |s.groups|
    ensures |Step(s, a).groups| == |s.groups| && MemberOk(Step(s, a), g, j)
  {
    assert MemberOk(s, g, j);
    if a.TheMover? {
      MoverMember(s, a.dst, g, j);
    } else if a.TheSlot? {
      QueueMember(s, s.group, Leave(s.id), g, j);
    } else if 0 < a.g < |s.groups| && s.groups[a.g].runner.RIdle? {
      TakeMember(s, a.g, g, j);
    } else if 0 < a.g < |s.groups| {
      RunnerMember(s, a.g, g, j);
    }
  }

  lemma StepFinds(s: State, a: Actor)
    requires Members(s)
    ensures !Step(s, a).missing
  {
    if a.TheRunner? && 0 < a.g < |s.groups| && s.groups[a.g].runner.RIdle? {
      var x := s.groups[a.g];
      if x.jobs != [] {
        var j := x.jobs[0].id;
        assert MemberOk(s, a.g, j);
        TrackFirst(At(j in x.sessions), x.jobs, j);
        BadStays(x.jobs[1..], j);
      }
    }
  }

  /** With one mover every step, of anybody, keeps membership and queued jobs consistent. */
  lemma StepMembers(s: State, a: Actor)
    requires Members(s)
    ensures Members(Step(s, a))
  {
    StepSlotOk(s, a);
    StepFinds(s, a);
    forall g, j: nat | 0 < g < |s.groups|
      ensures MemberOk(Step(s, a), g, j)
    {
      StepMember(s, a, g, j);
    }
  }

  // ---------------------------------------------------------------- one release per lifetime

  /** In its group the session has no Leave pending, one once it is released, some while it moves away. */
  predicate QuietOk(s: State)
    requires SlotOk(s)
  {
    s.group != BASE && !s.mover.MSet? ==> Pending(s.groups[s.group], s.id) == Bit(s.life.Waiting?)
  }

  /** A check that got past the group read is about a session on its way out of this very group. */
  predicate RunnerOk(s: State, g: nat) {
    g < |s.groups| && (
      var r := s.groups[g].runner;
      && (r.RId? && r.id == s.id ==> s.group == g && (s.life.Waiting? || s.mover.MSet?))
      && (r.RRef? ==> r.id == s.id && s.group == g && (s.life.Waiting? || s.mover.MSet?))
      && (r.RAssert? ==> r.id == s.id && s.group == g && !s.life.Posted?)
      && (r.RPost? || (r.RAssert? && r.flagged) ==> r.id == s.id && s.group == g && s.life.Waiting?)
      && (!r.RIdle? ==> (g, r.id) in s.left))
  }

  predicate UnbornOk(s: State, g: nat, j: nat) {
    g < |s.groups| && (j > s.id ==> Pending(s.groups[g], j) == 0)
  }

  /** Ids 1, 2, 3 and so on were posted once each, in order. */
  predicate PostsOk(s: State) {
    && (forall k :: 0 <= k < |s.posts| ==> s.posts[k] == k + 1)
    && |s.posts| == if s.life.Posted? || s.life.Free? then s.id else s.id - 1
  }

  ghost predicate Safe(s: State) {
    && SlotOk(s) && QuietOk(s) && PostsOk(s) && !s.wrongId
    && (forall g :: 0 < g < |s.groups| ==> RunnerOk(s, g))
    && (forall g, j: nat :: 0 < g < |s.groups| ==> UnbornOk(s, g, j))
  }

  lemma {:induction false} LeavesFirst(jobs: seq<Job>, j: nat)
    requires jobs != []
    ensures Leaves(jobs, j) == Bit(jobs[0] == Leave(j)) + Leaves(jobs[1..], j)
  {
    var n := |jobs| - 1;
    if n > 0 {
      LeavesFirst(jobs[..n], j);
      assert jobs[..n][1..] == jobs[1..][..n - 1];
    }
  }

  lemma AddPending(s: State, src: nat, job: Job, g: nat, j: nat)
    requires 0 < g < |s.groups|
    ensures |Add(s, src, job).groups| == |s.groups| && Add(s, src, job).groups[g].runner == s.groups[g].runner
    ensures Pending(Add(s, src, job).groups[g], j) == Pending(s.groups[g], j) + Bit(g == src && job == Leave(j))
  {
    assert (s.groups[g].jobs + [job])[..|s.groups[g].jobs|] == s.groups[g].jobs;
  }

  lemma MoverSafe(s: State, dst: nat)
    requires Safe(s) && SafeMove(s)
    ensures Safe(MoverStep(s, dst))
  {
    var s' := MoverStep(s, dst);
    MoverSlotOk(s, dst);
    forall g, j: nat | 0 < g < |s.groups|
      ensures Pending(s'.groups[g], j) ==
              Pending(s.groups[g], j) + Bit(s.mover.MLeave? && g == s.mover.src && j == s.id)
      ensures s'.groups[g].runner == s.groups[g].runner
    {
      if s.mover.MLeave? {
        AddPending(s, s.mover.src, Leave(s.id), g, j);
      } else if s.mover.MEnter? {
        AddPending(s, s.mover.dst, Enter(s.id), g, j);
      }
    }
    forall g | 0 < g < |s.groups|
      ensures RunnerOk(s', g)
    {
      assert RunnerOk(s, g);
    }
    forall g, j: nat | 0 < g < |s.groups|
      ensures UnbornOk(s', g, j)
    {
      assert UnbornOk(s, g, j);
    }
  }

  lemma SlotPending(s: State, g: nat, j: nat)
    requires SlotOk(s) && 0 < g < |s.groups|
    ensures |SlotStep(s).groups| == |s.groups| && SlotStep(s).groups[g].runner == s.groups[g].runner
    ensures Pending(SlotStep(s).groups[g], j) ==
            Pending(s.groups[g], j) + Bit(s.life.Enqueue? && g == s.group && j == s.id)
  {
    if s.life.Enqueue? {
      AddPending(s, s.life.src, Leave(s.id), g, j);
    }
  }

  lemma SlotSafe(s: State)
    requires Safe(s)
    ensures Safe(SlotStep(s))
  {
    var s' := SlotStep(s);
    forall g | 0 < g < |s.groups|
      ensures |s'.groups| == |s.groups| && RunnerOk(s', g)
    {
      assert RunnerOk(s, g) && UnbornOk(s, g, s.id + 1);
      SlotPending(s, g, s.id);
    }
    forall g, j: nat | 0 < g < |s.groups|
      ensures |s'.groups| == |s.groups| && UnbornOk(s', g, j)
    {
      assert UnbornOk(s, g, j);
      SlotPending(s, g, j);
    }
  }

  /** Taking a job moves a Leave from the queue to the runner. */
  lemma TakePending(s: State, g: nat, h: nat, j: nat)
    requires 0 < g < |s.groups| && 0 < h < |s.groups| && s.groups[g].runner.RIdle?
    ensures |TakeJob(s, g).groups| == |s.groups|
    ensures Pending(TakeJob(s, g).groups[h], j) == Pending(s.groups[h], j)
  {
    if h == g && s.groups[g].jobs != [] {
      LeavesFirst(s.groups[g].jobs, j);
    }
  }

  lemma TakeSafe(s: State, g: nat)
    requires Safe(s) && 0 < g < |s.groups| && s.groups[g].runner.RIdle?
    ensures Safe(TakeJob(s, g))
  {
    var s' := TakeJob(s, g);
    forall h, j: nat | 0 < h < |s.groups|
      ensures Pending(s'.groups[h], j) == Pending(s.groups[h], j)
    {
      TakePending(s, g, h, j);
    }
    forall h | 0 < h < |s.groups|
      ensures RunnerOk(s', h)
    {
      assert RunnerOk(s, h);
    }
    forall h, j: nat | 0 < h < |s.groups|
      ensures UnbornOk(s', h, j)
    {
      assert UnbornOk(s, h, j);
    }
  }

  /** The runner is between two reads: only its own place changes, and `life` when it posts. */
  lemma CheckPending(s: State, g: nat, h: nat, j: nat)
    requires 0 < g < |s.groups| && 0 < h < |s.groups| && !s.groups[g].runner.RIdle?
    ensures |CheckStep(s, g).groups| == |s.groups|
    ensures Pending(CheckStep(s, g).groups[h], j) ==
            Pending(s.groups[h], j)
            - Bit(h == g && Handling(s.groups[g].runner, j) && !Handling(CheckStep(s, g).groups[g].runner, j))
  {
    CheckFrame(s, g);
  }

  lemma CheckRunner(s: State, g: nat, h: nat)
    requires SlotOk(s) && QuietOk(s) && 0 < g < |s.groups| && !s.groups[g].runner.RIdle?
    requires 0 < h < |s.groups| && RunnerOk(s, g) && RunnerOk(s, h)
    ensures |CheckStep(s, g).groups| == |s.groups| && RunnerOk(CheckStep(s, g), h)
  {
  }

  lemma CheckQuiet(s: State, g: nat)
    requires Safe(s) && 0 < g < |s.groups| && !s.groups[g].runner.RIdle?
    ensures SlotOk(CheckStep(s, g)) && QuietOk(CheckStep(s, g))
    ensures PostsOk(CheckStep(s, g)) && !CheckStep(s, g).wrongId
  {
    assert RunnerOk(s, g);
    CheckFrame(s, g);
    if s.group != BASE {
      CheckPending(s, g, s.group, s.id);
    }
  }

  lemma CheckSafe(s: State, g: nat)
    requires Safe(s) && 0 < g < |s.groups| && !s.groups[g].runner.RIdle?
    ensures Safe(CheckStep(s, g))
  {
    var s' := CheckStep(s, g);
    CheckQuiet(s, g);
    assert RunnerOk(s, g);
    forall h | 0 < h < |s.groups|
      ensures |s'.groups| == |s.groups| && RunnerOk(s', h)
    {
      assert RunnerOk(s, h);
      CheckRunner(s, g, h);
    }
    forall h, j: nat | 0 < h < |s.groups|
      ensures |s'.groups| == |s.groups| && UnbornOk(s', h, j)
    {
      assert UnbornOk(s, h, j);
      CheckPending(s, g, h, j);
    }
  }

  /** Every step keeps the invariant, as long as moves are safe. */
  lemma StepSafe(s: State, a: Actor)
    requires Safe(s) && (a.TheMover? ==> SafeMove(s))
    ensures Safe(Step(s, a))
  {
    if a.TheMover? {
      MoverSafe(s, a.dst);
    } else if a.TheSlot? {
      SlotSafe(s);
    } else if 0 < a.g < |s.groups| && s.groups[a.g].runner.RIdle? {
      TakeSafe(s, a.g);
    } else if 0 < a.g < |s.groups| {
      CheckSafe(s, a.g);
    }
  }

  // ---------------------------------------------------------------- runs

  lemma {:induction false} RunMembers(s: State, sched: seq<Actor>)
    requires Members(s)
    ensures Members(Run(s, sched))
    decreases |sched|
  {
    if sched != [] {
      StepMembers(s, sched[0]);
      RunMembers(Step(s, sched[0]), sched[1..]);
    }
  }

  lemma {:induction false} RunSafe(s: State, sched: seq<Actor>)
    requires Safe(s) && SafeAlong(s, sched)
    ensures Safe(Run(s, sched))
    decreases |sched|
  {
    if sched != [] {
      StepSafe(s, sched[0]);
      RunSafe(Step(s, sched[0]), sched[1..]);
    }
  }

  /** With one mover every handled Leave, on every run, finds its session in `_sessions`; no assumption on how
      the moves and the checks interleave. */
  lemma LeaveFindsSession(s: State, sched: seq<Actor>)
    requires Initial(s) && |s.groups| > 0
    ensures !Run(s, sched).missing
  {
    RunMembers(s, sched);
  }

  /** On every run with safe moves: each id that was released got exactly one PostRelease, in order of
      lifetimes, the current one included once its turn has come; and a session released in a group is
      never stranded, for as long as it is not posted its one Leave is still pending there. */
  lemma ReleasedExactlyOnce(s: State, sched: seq<Actor>)
    requires Initial(s) && |s.groups| > 0 && SafeAlong(s, sched)
    ensures
      var r := Run(s, sched);
      && (forall k :: 0 <= k < |r.posts| ==> r.posts[k] == k + 1)
      && |r.posts| == (if r.life.Posted? || r.life.Free? then r.id else r.id - 1)
      && !r.wrongId
      && (r.life.Waiting? ==> 0 < r.group < |r.groups| && Pending(r.groups[r.group], r.id) == 1)
  {
    RunSafe(s, sched);
  }

  lemma {:induction false} NoLeaveNoExit(jobs: seq<Job>, j: nat)
    requires Leaves(jobs, j) == 0
    ensures Track(Inside, jobs, j) != Outside
  {
    if jobs != [] {
      NoLeaveNoExit(jobs[..|jobs| - 1], j);
    }
  }

  /** Who posts: the releasing thread of a session in the base group, or the runner of the session's own
      group after OnLeave of the session's own id, when it is out of `_sessions` and nothing of it is
      queued there. So Leaves of earlier ids and of groups left before never post. */
  lemma OnlyTheFinalLeavePosts(s: State, sched: seq<Actor>, a: Actor)
    requires Initial(s) && |s.groups| > 0 && SafeAlong(s, sched)
    requires Step(Run(s, sched), a).posts != Run(s, sched).posts
    ensures
      var r := Run(s, sched);
      || (a.TheSlot? && r.life.Post1? && r.group == BASE)
      || (&& a.TheRunner? && 0 < a.g < |r.groups| && r.group == a.g && r.life.Waiting?
          && r.groups[a.g].runner == RPost(r.id) && (a.g, r.id) in r.left
          && r.id !in r.groups[a.g].sessions && Leaves(r.groups[a.g].jobs, r.id) == 0)
  {
    var r := Run(s, sched);
    RunSafe(s, sched);
    RunMembers(s, sched);
    if a.TheRunner? && 0 < a.g < |r.groups| && r.groups[a.g].runner.RPost? {
      assert RunnerOk(r, a.g) && MemberOk(r, a.g, r.id);
      NoLeaveNoExit(r.groups[a.g].jobs, r.id);
    }
  }

  // ---------------------------------------------------------------- the condition on moves is exact

  lemma RunCons(s: State, a: Actor, rest: seq<Actor>)
    ensures Run(s, [a] + rest) == Run(Step(s, a), rest)
    ensures SafeAlong(s, [a] + rest) <==> (a.TheMover? ==> SafeMove(s)) && SafeAlong(Step(s, a), rest)
  {
    assert ([a] + rest)[1..] == rest;
  }

  /** Past the first read of the id a check is about the session in the slot. */
  predicate Sound(r: Runner, id: nat) {
    r.RRef? || r.RAssert? || r.RPost? ==> r.id == id
  }

  /** A released session has a Leave in its group, or is in a check that does not look at the group again. */
  predicate WillPost(s: State, g: nat) {
    && 0 < g < |s.groups| && s.flagged && Sound(s.groups[g].runner, s.id)
    && if s.group == g then Pending(s.groups[g], s.id) >= 1
       else Handling(s.groups[g].runner, s.id) && !s.groups[g].runner.RGroup?
  }

  /** Reads still to come in a check. */
  function Reads(r: Runner): nat {
    match r
    case RGroup(_) => 4
    case RId(_) => 3
    case RRef(_) => 2
    case RAssert(_, _) => 1
    case _ => 0
  }

  /** One PostRelease more, and nothing else has changed but group `g` and what the post does to the slot. */
  predicate PostedOnce(s: State, r: State, g: nat) {
    && |r.groups| == |s.groups| && r.posts == s.posts + [s.id]
    && r.life == (if s.life.Waiting? then Posted else s.life)
    && r.id == s.id && r.group == s.group && r.flagged == s.flagged && r.mover == s.mover
    && (forall h :: 0 <= h < |s.groups| && h != g ==> r.groups[h] == s.groups[h])
    && g < |s.groups| && (g != BASE ==> r.groups[g].runner.RIdle?)
  }

  /** A step of the group's runner brings it nearer to the post. */
  lemma RunnerAdvances(s: State, g: nat)
    requires WillPost(s, g) && !s.groups[g].runner.RPost?
    ensures
      var s' := RunnerStep(s, g);
      && WillPost(s', g) && s'.posts == s.posts && s'.life == s.life && s'.id == s.id && s'.group == s.group
      && s'.flagged == s.flagged && s'.mover == s.mover && s'.groups == s.groups[g := s'.groups[g]]
      && (|| |s'.groups[g].jobs| < |s.groups[g].jobs|
          || (&& |s'.groups[g].jobs| == |s.groups[g].jobs|
              && Reads(s'.groups[g].runner) < Reads(s.groups[g].runner)))
  {
    var x := s.groups[g];
    if x.runner.RIdle? {
      LeavesFirst(x.jobs, s.id);
    }
  }

  /** The group's runner, left alone, gets to the session's Leave, whatever is queued before it, and posts. */
  lemma {:induction false} LeaveGoesThrough(s: State, g: nat) returns (sched: seq<Actor>)
    requires WillPost(s, g)
    ensures SafeAlong(s, sched) && PostedOnce(s, Run(s, sched), g)
    decreases |s.groups[g].jobs|, Reads(s.groups[g].runner)
  {
    var s' := Step(s, TheRunner(g));
    var rest := [];
    if !s.groups[g].runner.RPost? {
      RunnerAdvances(s, g);
      rest := LeaveGoesThrough(s', g);
    }
    sched := [TheRunner(g)] + rest;
    RunCons(s, TheRunner(g), rest);
  }

  /** The mover finishes and the session is released at once. */
  lemma FinishAndRelease(s: State) returns (sched: seq<Actor>, r: State)
    requires SlotOk(s) && (s.mover.MEnter? || s.mover.MRelease?)
    ensures r == Run(s, sched) && SafeAlong(s, sched)
    ensures SlotOk(r) && r.life.Read1? && r.id == s.id && r.group == s.group
    ensures |r.groups| == |s.groups| && r.posts == s.posts
    ensures forall g :: 0 < g < |s.groups| ==> r.groups[g].runner == s.groups[g].runner
    ensures forall g :: 0 < g < |s.groups| ==> Pending(r.groups[g], s.id) == Pending(s.groups[g], s.id)
    decreases s.mover.MEnter?
  {
    if s.mover.MEnter? {
      var s' := Step(s, TheMover(0));
      forall g | 0 < g < |s.groups|
        ensures s'.groups[g].runner == s.groups[g].runner && Pending(s'.groups[g], s.id) == Pending(s.groups[g], s.id)
      {
        AddPending(s, s.mover.dst, Enter(s.id), g, s.id);
      }
      var rest;
      MoverSlotOk(s, 0);
      rest, r := FinishAndRelease(s');
      sched := [TheMover(0)] + rest;
      RunCons(s, TheMover(0), rest);
    } else {
      var s1 := Step(s, TheMover(0));
      r := Step(s1, TheSlot);
      sched := [TheMover(0)] + ([TheSlot] + []);
      RunCons(s, TheMover(0), [TheSlot] + []);
      RunCons(s1, TheSlot, []);
    }
  }

  lemma {:induction false} RunCat(s: State, a: seq<Actor>, b: seq<Actor>)
    ensures Run(s, a + b) == Run(Run(s, a), b)
    decreases |a|
  {
    if a == [] {
      assert a + b == b;
    } else {
      assert a + b == [a[0]] + (a[1..] + b) && a == [a[0]] + a[1..];
      RunCons(s, a[0], a[1..] + b);
      RunCons(s, a[0], a[1..]);
      RunCat(Step(s, a[0]), a[1..], b);
    }
  }

  lemma {:induction false} SafeCat(s: State, a: seq<Actor>, b: seq<Actor>)
    requires SafeAlong(s, a) && SafeAlong(Run(s, a), b)
    ensures SafeAlong(s, a + b)
    decreases |a|
  {
    if a == [] {
      assert a + b == b;
    } else {
      assert a + b == [a[0]] + (a[1..] + b) && a == [a[0]] + a[1..];
      RunCons(s, a[0], a[1..] + b);
      RunCons(s, a[0], a[1..]);
      SafeCat(Step(s, a[0]), a[1..], b);
    }
  }

  /** Flagged, and the releasing thread has not looked at the group yet. */
  predicate Released(s: State) {
    SlotOk(s) && s.life.Read1? && (s.group != BASE ==> Sound(s.groups[s.group].runner, s.id))
  }

  /** A released session is posted, by the releasing thread or by the runner of its group. */
  lemma ReleaseGoesThrough(s: State) returns (sched: seq<Actor>)
    requires Released(s)
    ensures SafeAlong(s, sched) && PostedOnce(s.(life := Waiting), Run(s, sched), s.group)
  {
    var a, g := TheSlot, s.group;
    var s1 := Step(s, a);
    var s2 := Step(s1, a);
    var rest := [];
    if g != BASE {
      var s3 := Step(s2, a);
      AddPending(s2, g, Leave(s.id), g, s.id);
      var last := LeaveGoesThrough(s3, g);
      RunCons(s2, a, last);
      rest := [a] + last;
    }
    RunCons(s1, a, rest);
    RunCons(s, a, [a] + rest);
    sched := [a] + ([a] + rest);
  }

  /** A check of the old group that is before its assertion: the slot is recycled and the assertion fails. */
  lemma AssertionFails(s: State, g: nat) returns (sched: seq<Actor>)
    requires Released(s)
    requires 0 < g < |s.groups| && g != s.group && Asserting(s.groups[g].runner, s.id)
    ensures SafeAlong(s, sched) && Run(s, sched).wrongId
  {
    var first := ReleaseGoesThrough(s);
    var r := Run(s, first);
    var r1 := Step(r, TheSlot);
    var r2 := Step(r1, TheSlot);
    var last := [TheSlot] + ([TheSlot] + ([TheRunner(g)] + []));
    RunCons(r2, TheRunner(g), []);
    RunCons(r1, TheSlot, [TheRunner(g)] + []);
    RunCons(r, TheSlot, [TheSlot] + ([TheRunner(g)] + []));
    sched := first + last;
    RunCat(s, first, last);
    SafeCat(s, first, last);
  }

  /** A check that nothing stops posts, and then the session's own Leave, or its release, posts again. */
  lemma PostsTwice(s: State, g: nat) returns (sched: seq<Actor>)
    requires Released(s)
    requires WillPost(s, g)
    ensures SafeAlong(s, sched) && Run(s, sched).posts == s.posts + [s.id, s.id]
  {
    var first := LeaveGoesThrough(s, g);
    var r := Run(s, first);
    var last := ReleaseGoesThrough(r);
    sched := first + last;
    RunCat(s, first, last);
    SafeCat(s, first, last);
  }

  /** After an unsafe move the session can be released so that PostRelease is called for it twice, or that
      the assertion of an old check meets the next session. */
  lemma UnsafeMoveFails(s: State) returns (sched: seq<Actor>)
    requires Safe(s) && s.mover.MSet? && !SafeMove(s)
    ensures SafeAlong(Step(s, TheMover(0)), sched)
    ensures
      var r := Run(Step(s, TheMover(0)), sched);
      r.wrongId || r.posts == s.posts + [s.id, s.id]
  {
    var s1, dst := Step(s, TheMover(0)), s.mover.dst;
    MoverSlotOk(s, 0);
    var first, r := FinishAndRelease(s1);
    if dst != BASE {
      assert RunnerOk(s, dst) && Pending(s1.groups[dst], s.id) == Pending(s.groups[dst], s.id);
    }
    var second;
    if g :| 0 < g < |s.groups| && g != dst && Asserting(s.groups[g].runner, s.id) {
      assert r.groups[g].runner == s.groups[g].runner;
      second := AssertionFails(r, g);
    } else if g :| 0 < g < |s.groups| && Checking(s.groups[g].runner, s.id) {
      assert r.groups[g].runner == s.groups[g].runner;
      second := PostsTwice(r, g);
    } else {
      second := PostsTwice(r, dst);
    }
    sched := first + second;
    RunCat(s1, first, second);
    SafeCat(s1, first, second);
  }

  /** The hypothesis on moves is exact. In a state reached with safe moves where the mover is about to
      write the group, the move is safe if and only if every continuation whose later moves are safe
      releases every lifetime exactly once and never fails the assertion on the id. */
  lemma SafeMoveIsExact(s: State)
    requires Safe(s) && s.mover.MSet?
    ensures SafeMove(s) <==>
            forall sched :: SafeAlong(Step(s, TheMover(0)), sched) ==>
              PostsOk(Run(Step(s, TheMover(0)), sched)) && !Run(Step(s, TheMover(0)), sched).wrongId
  {
    var s1 := Step(s, TheMover(0));
    if SafeMove(s) {
      StepSafe(s, TheMover(0));
      forall sched | SafeAlong(s1, sched)
        ensures PostsOk(Run(s1, sched)) && !Run(s1, sched).wrongId
      {
        RunSafe(s1, sched);
      }
    } else {
      var sched := UnsafeMoveFails(s);
      assert Run(s1, sched).wrongId || Run(s1, sched).posts[s.id] == s.id;
    }
  }
}

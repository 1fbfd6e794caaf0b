/** Several threads that move one session (src/GroupManager.cpp: MoveSession takes the group lock shared and
    reads the session's group before it). The steps are those of `GroupLeave`; here each mover has its place.
    As long as no two moves overlap, every run is one of the machine with a single mover. */
module ConcurrentMoves {
  import opened GroupLeave

  /** `slot` has no mover of its own. */
  datatype World = World(slot: GroupLeave.State, movers: seq<Mover>)

  datatype Who = AMover(a: nat, dst: nat) | ASlot | ARunner(g: nat)

  function MoveStep(w: World, a: nat, dst: nat): World
    requires a < |w.movers|
  {
    var s := MoverStep(w.slot.(mover := w.movers[a]), dst);
    World(s.(mover := MIdle), w.movers[a := s.mover])
  }

  predicate AllIdle(w: World) {
    forall a :: 0 <= a < |w.movers| ==> w.movers[a].MIdle?
  }

  /** A mover holds a reference, so the flag is set only when there is none. */
  function WStep(w: World, who: Who): World {
    match who
    case AMover(a, dst) => if a < |w.movers| then MoveStep(w, a, dst) else w
    case ASlot => if w.slot.life.Live? && !AllIdle(w) then w else w.(slot := SlotStep(w.slot))
    case ARunner(g) => w.(slot := Step(w.slot, TheRunner(g)))
  }

  function WRun(w: World, sched: seq<Who>): World
    decreases |sched|
  {
    if sched == [] then w else WRun(WStep(w, sched[0]), sched[1..])
  }

  predicate WInitial(w: World) {
    Initial(w.slot) && |w.slot.groups| > 0 && AllIdle(w)
  }

  // ---------------------------------------------------------------- the hypothesis

  /** Between its read of the group and EnterSession. */
  predicate Section(m: Mover) {
    m.MLeave? || m.MSet? || m.MEnter?
  }

  /** A move from the base group to the base group. */
  predicate Void(m: Mover) {
    (m.MLeave? || m.MSet?) && m.dst == BASE && m.src == BASE
  }

  predicate Busy(m: Mover) {
    Section(m) && !Void(m)
  }

  /** When mover `a` is about to read the group, no other is between its read and EnterSession; moves within
      the base group aside. */
  predicate Apart(w: World, a: nat)
    requires a < |w.movers|
  {
    w.movers[a].MSrc? ==>
      forall b :: 0 <= b < |w.movers| && b != a && Section(w.movers[b]) ==>
        Void(w.movers[b]) && w.slot.group == BASE && w.movers[a].dst == BASE
  }

  predicate ApartAlong(w: World, sched: seq<Who>)
    decreases |sched|
  {
    sched != [] ==>
      && (sched[0].AMover? && sched[0].a < |w.movers| ==> Apart(w, sched[0].a))
      && ApartAlong(WStep(w, sched[0]), sched[1..])
  }

  predicate SafeMoves(w: World, sched: seq<Who>)
    decreases |sched|
  {
    sched != [] ==>
      && (sched[0].AMover? && sched[0].a < |w.movers| ==> SafeMove(w.slot.(mover := w.movers[sched[0].a])))
      && SafeMoves(WStep(w, sched[0]), sched[1..])
  }

  // ---------------------------------------------------------------- a single mover

  /** The one mover that is past its read, if there is one. */
  ghost function Holder(movers: seq<Mover>): Mover {
    if exists a :: 0 <= a < |movers| && Busy(movers[a]) then
      var a :| 0 <= a < |movers| && Busy(movers[a]); movers[a]
    else MIdle
  }

  ghost function Abs(w: World): GroupLeave.State {
    w.slot.(mover := Holder(w.movers))
  }

  predicate OneSection(w: World) {
    forall a, b :: 0 <= a < |w.movers| && 0 <= b < |w.movers| && Busy(w.movers[a]) && Section(w.movers[b]) ==> a == b
  }

  predicate PlaceOk(w: World, a: nat)
    requires a < |w.movers|
  {
    && (!w.movers[a].MIdle? ==> w.slot.life.Live?)
    && (Void(w.movers[a]) ==> w.slot.group == BASE)
    && (w.movers[a].MSrc? ==> w.movers[a].dst < |w.slot.groups|)
  }

  ghost predicate WorldOk(w: World) {
    && w.slot.mover == MIdle && OneSection(w) && Members(Abs(w))
    && (forall a :: 0 <= a < |w.movers| ==> PlaceOk(w, a))
  }

  lemma HolderIs(movers: seq<Mover>, a: nat)
    requires a < |movers| && Busy(movers[a])
    requires forall b, c :: 0 <= b < |movers| && 0 <= c < |movers| && Busy(movers[b]) && Section(movers[c]) ==> b == c
    ensures Holder(movers) == movers[a]
  {
  }

  lemma HolderNone(movers: seq<Mover>)
    requires forall a :: 0 <= a < |movers| ==> !Busy(movers[a])
    ensures Holder(movers) == MIdle
  {
  }

  /** No other mover is past its read. */
  predicate Alone(movers: seq<Mover>, a: nat) {
    forall b :: 0 <= b < |movers| && b != a ==> !Section(movers[b])
  }

  /** The steps of the single mover that one step of mover `a` stands for. */
  function Moves(w: World, a: nat): seq<Actor>
    requires a < |w.movers|
  {
    var m := w.movers[a];
    if Void(m) then [] else
    match m
    case MSrc(dst) => if dst == BASE && w.slot.group == BASE then [] else [TheMover(dst), TheMover(dst)]
    case MLeave(_, _) => [TheMover(0)]
    case MSet(dst, _) => if dst == BASE then [TheMover(0), TheMover(0)] else [TheMover(0)]
    case MEnter(_) => [TheMover(0), TheMover(0)]
    case _ => []
  }

  lemma RunTwo(s: GroupLeave.State, a: Actor, b: Actor)
    ensures Run(s, [a, b]) == Step(Step(s, a), b)
    ensures SafeAlong(s, [a, b]) <==> (a.TheMover? ==> SafeMove(s)) && (b.TheMover? ==> SafeMove(Step(s, a)))
  {
    assert [a, b] == [a] + ([b] + []);
    RunCons(s, a, [b] + []);
    RunCons(Step(s, a), b, []);
  }

  lemma RunOne(s: GroupLeave.State, a: Actor)
    ensures Run(s, [a]) == Step(s, a)
    ensures SafeAlong(s, [a]) <==> (a.TheMover? ==> SafeMove(s))
  {
    assert [a] == [a] + [];
    RunCons(s, a, []);
  }

  /** A mover that is not past its read, and stays so, changes nothing of the slot. */
  lemma QuietStep(w: World, a: nat, dst: nat)
    requires WorldOk(w) && a < |w.movers| && Apart(w, a)
    requires w.movers[a].MIdle? || w.movers[a].MRelease? || Void(w.movers[a])
             || (w.movers[a].MSrc? && w.movers[a].dst == BASE && w.slot.group == BASE)
    ensures var w' := MoveStep(w, a, dst); WorldOk(w') && Abs(w') == Abs(w)
  {
    var w' := MoveStep(w, a, dst);
    assert PlaceOk(w, a);
    assert w'.slot == w.slot;
    assert forall b :: 0 <= b < |w.movers| ==> Busy(w'.movers[b]) == Busy(w.movers[b]);
    assert OneSection(w');
    if b :| 0 <= b < |w.movers| && Busy(w.movers[b]) {
      HolderIs(w.movers, b);
      HolderIs(w'.movers, b);
    } else {
      HolderNone(w.movers);
      HolderNone(w'.movers);
    }
    forall b | 0 <= b < |w'.movers|
      ensures PlaceOk(w', b)
    {
      assert PlaceOk(w, b);
    }
  }

  /** A mover that comes past its read becomes the single mover. */
  lemma EnterStep(w: World, a: nat, dst: nat)
    requires WorldOk(w) && a < |w.movers| && Apart(w, a) && w.movers[a].MSrc?
    requires w.movers[a].dst != BASE || w.slot.group != BASE
    ensures var w' := MoveStep(w, a, dst); WorldOk(w') && Run(Abs(w), Moves(w, a)) == Abs(w')
  {
    var w', d := MoveStep(w, a, dst), w.movers[a].dst;
    assert PlaceOk(w, a) && Alone(w.movers, a);
    HolderNone(w.movers);
    RunTwo(Abs(w), TheMover(d), TheMover(d));
    StepMembers(Abs(w), TheMover(d));
    StepMembers(Step(Abs(w), TheMover(d)), TheMover(d));
    assert OneSection(w');
    HolderIs(w'.movers, a);
    forall b | 0 <= b < |w'.movers|
      ensures PlaceOk(w', b)
    {
      assert PlaceOk(w, b);
    }
  }

  /** The single mover moves on. */
  lemma BusyStep(w: World, a: nat, dst: nat)
    requires WorldOk(w) && a < |w.movers| && Busy(w.movers[a])
    ensures var w' := MoveStep(w, a, dst); WorldOk(w') && Run(Abs(w), Moves(w, a)) == Abs(w')
  {
    var w' := MoveStep(w, a, dst);
    HolderIs(w.movers, a);
    assert PlaceOk(w, a) && Alone(w.movers, a);
    assert MoverStep(w.slot.(mover := w.movers[a]), dst) == MoverStep(Abs(w), 0);
    var s1 := Step(Abs(w), TheMover(0));
    StepMembers(Abs(w), TheMover(0));
    if Busy(w'.movers[a]) {
      RunOne(Abs(w), TheMover(0));
      HolderIs(w'.movers, a);
    } else {
      RunTwo(Abs(w), TheMover(0), TheMover(0));
      StepMembers(s1, TheMover(0));
      HolderNone(w'.movers);
    }
    assert OneSection(w');
    forall b | 0 <= b < |w'.movers|
      ensures PlaceOk(w', b)
    {
      assert PlaceOk(w, b);
    }
  }

  lemma MoveSim(w: World, a: nat, dst: nat)
    requires WorldOk(w) && a < |w.movers| && Apart(w, a)
    ensures var w' := MoveStep(w, a, dst); WorldOk(w') && Run(Abs(w), Moves(w, a)) == Abs(w')
    ensures SafeMove(w.slot.(mover := w.movers[a])) ==> SafeAlong(Abs(w), Moves(w, a))
  {
    if Busy(w.movers[a]) {
      BusyStep(w, a, dst);
      HolderIs(w.movers, a);
      RunOne(Abs(w), TheMover(0));
      RunTwo(Abs(w), TheMover(0), TheMover(0));
    } else if w.movers[a].MSrc? && (w.movers[a].dst != BASE || w.slot.group != BASE) {
      EnterStep(w, a, dst);
      var d := w.movers[a].dst;
      assert Alone(w.movers, a);
      HolderNone(w.movers);
      RunTwo(Abs(w), TheMover(d), TheMover(d));
    } else {
      QuietStep(w, a, dst);
    }
  }

  lemma SlotSim(w: World) returns (sched: seq<Actor>)
    requires WorldOk(w)
    ensures WorldOk(WStep(w, ASlot)) && SafeAlong(Abs(w), sched) && Run(Abs(w), sched) == Abs(WStep(w, ASlot))
  {
    if w.slot.life.Live? && !AllIdle(w) {
      sched := [];
    } else {
      sched := [TheSlot];
      RunOne(Abs(w), TheSlot);
      StepMembers(Abs(w), TheSlot);
      forall a | 0 <= a < |w.movers|
        ensures w.movers[a].MIdle?
      {
        assert PlaceOk(w, a);
      }
      HolderNone(w.movers);
    }
  }

  lemma TakeFrame(s: GroupLeave.State, g: nat, m: Mover)
    requires 0 < g < |s.groups|
    ensures
      var s' := TakeJob(s, g);
      && TakeJob(s.(mover := m), g) == s'.(mover := m)
      && s'.mover == s.mover && s'.group == s.group && |s'.groups| == |s.groups| && s'.life == s.life
  {
  }

  lemma FirstReadsFrame(s: GroupLeave.State, g: nat, m: Mover)
    requires g < |s.groups| && (s.groups[g].runner.RGroup? || s.groups[g].runner.RId?)
    ensures CheckStep(s.(mover := m), g) == CheckStep(s, g).(mover := m)
  {
  }

  lemma LastReadsFrame(s: GroupLeave.State, g: nat, m: Mover)
    requires g < |s.groups| && (s.groups[g].runner.RRef? || s.groups[g].runner.RAssert?)
    ensures CheckStep(s.(mover := m), g) == CheckStep(s, g).(mover := m)
  {
  }

  lemma PostFrame(s: GroupLeave.State, g: nat, m: Mover)
    requires g < |s.groups| && s.groups[g].runner.RPost?
    ensures CheckStep(s.(mover := m), g) == CheckStep(s, g).(mover := m)
  {
  }

  lemma ReadFrame(s: GroupLeave.State, g: nat, m: Mover)
    requires 0 < g < |s.groups| && !s.groups[g].runner.RIdle?
    ensures CheckStep(s.(mover := m), g) == CheckStep(s, g).(mover := m)
    ensures CheckStep(s, g).life.Live? <== s.life.Live?
  {
    var r := s.groups[g].runner;
    if r.RGroup? || r.RId? {
      FirstReadsFrame(s, g, m);
    } else if r.RPost? {
      PostFrame(s, g, m);
    } else {
      LastReadsFrame(s, g, m);
    }
  }

  /** A runner does not look at the mover. */
  lemma RunnerFrame(s: GroupLeave.State, g: nat, m: Mover)
    ensures
      var s' := Step(s, TheRunner(g));
      && Step(s.(mover := m), TheRunner(g)) == s'.(mover := m)
      && s'.mover == s.mover && s'.group == s.group && |s'.groups| == |s.groups| && (s.life.Live? ==> s'.life.Live?)
  {
    if 0 < g < |s.groups| {
      if s.groups[g].runner.RIdle? {
        TakeFrame(s, g, m);
      } else {
        ReadFrame(s, g, m);
        CheckFrame(s, g);
      }
    }
  }

  lemma RunnerSim(w: World, g: nat)
    requires WorldOk(w)
    ensures WorldOk(WStep(w, ARunner(g)))
    ensures SafeAlong(Abs(w), [TheRunner(g)]) && Run(Abs(w), [TheRunner(g)]) == Abs(WStep(w, ARunner(g)))
  {
    var w' := WStep(w, ARunner(g));
    RunOne(Abs(w), TheRunner(g));
    StepMembers(Abs(w), TheRunner(g));
    RunnerFrame(w.slot, g, Holder(w.movers));
    forall a | 0 <= a < |w'.movers|
      ensures PlaceOk(w', a)
    {
      assert PlaceOk(w, a);
    }
  }

  /** As long as moves do not overlap, every run is one of the machine with a single mover. */
  lemma {:induction false} RunSim(w: World, sched: seq<Who>) returns (one: seq<Actor>)
    requires WorldOk(w) && ApartAlong(w, sched)
    ensures WorldOk(WRun(w, sched)) && Run(Abs(w), one) == Abs(WRun(w, sched))
    ensures SafeMoves(w, sched) ==> SafeAlong(Abs(w), one)
    decreases |sched|
  {
    if sched == [] {
      one := [];
    } else {
      var w' := WStep(w, sched[0]);
      var first := [];
      match sched[0] {
        case AMover(a, dst) =>
          if a < |w.movers| {
            first := Moves(w, a);
            MoveSim(w, a, dst);
          }
        case ASlot => first := SlotSim(w);
        case ARunner(g) =>
          first := [TheRunner(g)];
          RunnerSim(w, g);
      }
      var rest := RunSim(w', sched[1..]);
      one := first + rest;
      RunCat(Abs(w), first, rest);
      if SafeMoves(w, sched) {
        SafeCat(Abs(w), first, rest);
      }
    }
  }

  // ---------------------------------------------------------------- the theorems

  lemma InitialOk(w: World)
    requires WInitial(w)
    ensures WorldOk(w) && Abs(w) == w.slot
  {
    HolderNone(w.movers);
  }

  /** Any number of movers, on every run on which moves do not overlap: every handled Leave finds its session
      in `_sessions`. */
  lemma LeaveFindsSession(w: World, sched: seq<Who>)
    requires WInitial(w) && ApartAlong(w, sched)
    ensures !WRun(w, sched).slot.missing
  {
    InitialOk(w);
    var _ := RunSim(w, sched);
  }

  /** ... and if the moves are safe, each lifetime gets exactly one PostRelease. */
  lemma ReleasedExactlyOnce(w: World, sched: seq<Who>)
    requires WInitial(w) && ApartAlong(w, sched) && SafeMoves(w, sched)
    ensures
      var r := WRun(w, sched).slot;
      && (forall k :: 0 <= k < |r.posts| ==> r.posts[k] == k + 1)
      && |r.posts| == (if r.life.Posted? || r.life.Free? then r.id else r.id - 1)
      && !r.wrongId
      && (r.life.Waiting? ==> 0 < r.group < |r.groups| && Pending(r.groups[r.group], r.id) == 1)
  {
    InitialOk(w);
    var one := RunSim(w, sched);
    GroupLeave.ReleasedExactlyOnce(w.slot, one);
  }

  // ---------------------------------------------------------------- the condition is exact

  /** Every job fits, and with no move under way the session is, or will be once the jobs are handled, in its
      own group alone. */
  ghost predicate MemberRight(w: World) {
    && !w.slot.missing
    && (forall g, j: nat :: 0 < g < |w.slot.groups| ==> !Fate(w.slot.groups[g], j).Bad?)
    && (w.slot.life.Live? && (forall a :: 0 <= a < |w.movers| ==> !Busy(w.movers[a])) ==>
         forall g :: 0 < g < |w.slot.groups| ==> (Fate(w.slot.groups[g], w.slot.id).Inside? <==> g == w.slot.group))
  }

  lemma OkIsRight(w: World)
    requires WorldOk(w)
    ensures MemberRight(w)
  {
    forall g, j: nat | 0 < g < |w.slot.groups|
      ensures !Fate(w.slot.groups[g], j).Bad?
    {
      assert MemberOk(Abs(w), g, j);
    }
    if w.slot.life.Live? && forall a :: 0 <= a < |w.movers| ==> !Busy(w.movers[a]) {
      HolderNone(w.movers);
      forall g | 0 < g < |w.slot.groups|
        ensures Fate(w.slot.groups[g], w.slot.id).Inside? <==> g == w.slot.group
      {
        assert MemberOk(Abs(w), g, w.slot.id);
      }
    }
  }

  lemma WRunCons(w: World, who: Who, rest: seq<Who>)
    ensures WRun(w, [who] + rest) == WRun(WStep(w, who), rest)
    ensures ApartAlong(w, [who] + rest) <==>
            (who.AMover? && who.a < |w.movers| ==> Apart(w, who.a)) && ApartAlong(WStep(w, who), rest)
  {
    assert ([who] + rest)[1..] == rest;
  }

  lemma {:induction false} WRunCat(w: World, a: seq<Who>, b: seq<Who>)
    requires ApartAlong(w, a) && ApartAlong(WRun(w, a), b)
    ensures WRun(w, a + b) == WRun(WRun(w, a), b) && ApartAlong(w, a + b)
    decreases |a|
  {
    if a == [] {
      assert a + b == b;
    } else {
      assert a + b == [a[0]] + (a[1..] + b) && a == [a[0]] + a[1..];
      WRunCons(w, a[0], a[1..] + b);
      WRunCons(w, a[0], a[1..]);
      WRunCat(WStep(w, a[0]), a[1..], b);
    }
  }

  /** Mover `a` past its read goes through: the slot's group is its destination, and the Enter is queued. */
  lemma FinishMove(w: World, a: nat) returns (sched: seq<Who>)
    requires a < |w.movers| && w.movers[a].MSet? && w.movers[a].src == BASE && w.slot.mover == MIdle
    ensures ApartAlong(w, sched)
    ensures
      var r, d := WRun(w, sched), w.movers[a].dst;
      && r.movers == w.movers[a := MRelease]
      && r.slot == (if d == BASE then w.slot.(group := d) else Add(w.slot.(group := d), d, Enter(w.slot.id)))
  {
    var d := w.movers[a].dst;
    var w1 := WStep(w, AMover(a, 0));
    sched := [];
    if d != BASE {
      assert w1.movers[a] == MEnter(d);
      assert WStep(w1, AMover(a, 0)).movers == w.movers[a := MRelease];
      WRunCons(w1, AMover(a, 0), []);
      sched := [AMover(a, 0)] + [];
    }
    WRunCons(w, AMover(a, 0), sched);
    sched := [AMover(a, 0)] + sched;
  }

  /** The first of two moves out of the base group has entered its destination. */
  lemma FirstEnters(w: World, x: nat) returns (sched: seq<Who>)
    requires x < |w.movers| && w.slot.mover == MIdle && w.movers[x].MSet? && w.movers[x].src == BASE
    requires BASE < w.movers[x].dst < |w.slot.groups|
    requires Fate(w.slot.groups[w.movers[x].dst], w.slot.id) == Outside
    ensures ApartAlong(w, sched)
    ensures
      var r, d := WRun(w, sched), w.movers[x].dst;
      && r.movers == w.movers[x := MRelease] && r.slot.mover == MIdle && r.slot.life == w.slot.life
      && r.slot.id == w.slot.id && |r.slot.groups| == |w.slot.groups| && Fate(r.slot.groups[d], w.slot.id) == Inside
  {
    var d, s := w.movers[x].dst, w.slot;
    sched := FinishMove(w, x);
    QueueMember(s.(group := d), d, Enter(s.id), d, s.id);
  }

  /** Two moves out of the base group that overlap: the session is in two groups, or twice in one. */
  lemma BothEnter(w: World, x: nat, y: nat) returns (sched: seq<Who>)
    requires x < |w.movers| && y < |w.movers| && x != y && w.slot.mover == MIdle && w.slot.life.Live?
    requires w.movers[x].MSet? && w.movers[x].src == BASE && w.movers[x].dst != BASE
    requires w.movers[y].MSet? && w.movers[y].src == BASE
    requires w.movers[x].dst < |w.slot.groups| && w.movers[y].dst < |w.slot.groups|
    requires Fate(w.slot.groups[w.movers[x].dst], w.slot.id) == Outside
    requires forall b :: 0 <= b < |w.movers| && b != x && b != y ==> !Busy(w.movers[b])
    ensures ApartAlong(w, sched) && !MemberRight(WRun(w, sched))
  {
    var dx, dy, j := w.movers[x].dst, w.movers[y].dst, w.slot.id;
    var first := FirstEnters(w, x);
    var w1 := WRun(w, first);
    var second := FinishMove(w1, y);
    var w2 := WRun(w1, second);
    if dy != BASE {
      QueueMember(w1.slot.(group := dy), dy, Enter(j), dx, j);
    }
    sched := first + second;
    WRunCat(w, first, second);
    assert forall b :: 0 <= b < |w2.movers| ==> !Busy(w2.movers[b]);
    assert dx == dy ==> Fate(w2.slot.groups[dx], j).Bad?;
    assert dx != dy ==> Fate(w2.slot.groups[dx], j).Inside? && w2.slot.group == dy;
  }

  /** A move out of the base group gets to its SetGroupID without touching the slot. */
  lemma ToSet(w: World, a: nat) returns (sched: seq<Who>)
    requires a < |w.movers| && w.slot.mover == MIdle
    requires (w.movers[a].MLeave? || w.movers[a].MSet?) && w.movers[a].src == BASE
    ensures ApartAlong(w, sched) && WRun(w, sched) == w.(movers := w.movers[a := MSet(w.movers[a].dst, BASE)])
  {
    sched := [];
    assert w.movers[a].MSet? ==> w.movers == w.movers[a := w.movers[a]];
    if w.movers[a].MLeave? {
      WRunCons(w, AMover(a, 0), []);
      sched := [AMover(a, 0)] + [];
    }
  }

  lemma OverlapInBase(w: World, a: nat, b: nat) returns (sched: seq<Who>)
    requires WorldOk(w) && a < |w.movers| && b < |w.movers| && a != b && w.slot.group == BASE
    requires w.movers[a].MSrc? && Section(w.movers[b]) && !(Void(w.movers[b]) && w.movers[a].dst == BASE)
    ensures
      var w1 := WStep(w, AMover(a, 0));
      ApartAlong(w1, sched) && !MemberRight(WRun(w1, sched))
  {
    var w1, d := WStep(w, AMover(a, 0)), w.movers[a].dst;
    assert PlaceOk(w, a) && PlaceOk(w, b);
    if Busy(w.movers[b]) {
      HolderIs(w.movers, b);
    }
    var first := ToSet(w1, a);
    var w2 := WRun(w1, first);
    var second := ToSet(w2, b);
    var w3 := WRun(w2, second);
    var x, y := if w.movers[b].dst != BASE then b else a, if w.movers[b].dst != BASE then a else b;
    assert MemberOk(Abs(w), w3.movers[x].dst, w.slot.id);
    var third := BothEnter(w3, x, y);
    WRunCat(w2, second, third);
    WRunCat(w1, first, second + third);
    sched := first + (second + third);
  }

  lemma OverlapInGroup(w: World, a: nat, b: nat) returns (sched: seq<Who>)
    requires WorldOk(w) && a < |w.movers| && b < |w.movers| && a != b && w.slot.group != BASE
    requires w.movers[a].MSrc? && Section(w.movers[b])
    ensures
      var w1 := WStep(w, AMover(a, 0));
      ApartAlong(w1, sched) && !MemberRight(WRun(w1, sched))
  {
    var w1, g, j := WStep(w, AMover(a, 0)), w.slot.group, w.slot.id;
    assert PlaceOk(w, a) && PlaceOk(w, b);
    HolderIs(w.movers, b);
    assert MemberOk(Abs(w), g, j);
    var w2 := WStep(w1, AMover(a, 0));
    QueueMember(w.slot, g, Leave(j), g, j);
    assert Fate(w2.slot.groups[g], j) == Apply(Fate(w.slot.groups[g], j), Leave(j), j);
    sched := [];
    if w.movers[b].MLeave? {
      var w3 := WStep(w2, AMover(b, 0));
      QueueMember(w2.slot, g, Leave(j), g, j);
      assert Fate(w3.slot.groups[g], j).Bad?;
      WRunCons(w2, AMover(b, 0), []);
      sched := [AMover(b, 0)] + [];
    }
    WRunCons(w1, AMover(a, 0), sched);
    sched := [AMover(a, 0)] + sched;
  }

  lemma ApartDecides(w: World, a: nat)
    requires WorldOk(w) && a < |w.movers| && w.movers[a].MSrc?
    ensures
      var w1 := WStep(w, AMover(a, 0));
      Apart(w, a) <==> forall sched :: ApartAlong(w1, sched) ==> MemberRight(WRun(w1, sched))
  {
    var w1 := WStep(w, AMover(a, 0));
    if Apart(w, a) {
      MoveSim(w, a, 0);
      forall sched | ApartAlong(w1, sched)
        ensures MemberRight(WRun(w1, sched))
      {
        var _ := RunSim(w1, sched);
        OkIsRight(WRun(w1, sched));
      }
    } else {
      var b :| 0 <= b < |w.movers| && b != a && Section(w.movers[b])
               && !(Void(w.movers[b]) && w.slot.group == BASE && w.movers[a].dst == BASE);
      var sched;
      if w.slot.group == BASE {
        sched := OverlapInBase(w, a, b);
      } else {
        sched := OverlapInGroup(w, a, b);
      }
    }
  }

  /** The hypothesis is exact. After any run without overlapping moves, where a mover is about to read the
      group: every continuation whose later moves do not overlap keeps membership right if and only if this one
      does not overlap another. */
  lemma ApartIsExact(w: World, before: seq<Who>, a: nat)
    requires WInitial(w) && ApartAlong(w, before)
    requires a < |WRun(w, before).movers| && WRun(w, before).movers[a].MSrc?
    ensures
      var r := WRun(w, before);
      Apart(r, a) <==>
        forall sched ::
          ApartAlong(WStep(r, AMover(a, 0)), sched) ==> MemberRight(WRun(WStep(r, AMover(a, 0)), sched))
  {
    InitialOk(w);
    var _ := RunSim(w, before);
    ApartDecides(WRun(w, before), a);
  }
}

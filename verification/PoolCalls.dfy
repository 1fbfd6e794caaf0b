/** What one call of `TlsPool` does when no other thread moves meanwhile (`BucketPool`): where the node comes from, and
    where it goes. */
module PoolCalls {
  import opened BucketPool

  /** The free nodes of thread `t`, top first. */
  function List(s: State, t: nat): seq<nat> {
    Chain(s.g, Local(t))
  }

  /** The nodes of bucket `k` on the stack. */
  function Bucket(s: State, k: nat): seq<nat> {
    Chain(s.g, Shelf(k))
  }

  lemma RunOne(s: State, t: nat, x: nat, rest: seq<(nat, nat)>, s': State) returns (sched: seq<(nat, nat)>)
    requires Ranged(s) && s' == Step(s, t, x)
    ensures sched == [(t, x)] + rest && Ranged(s') && Run(s, sched) == Run(s', rest)
  {
    sched := [(t, x)] + rest;
    assert sched[1..] == rest;
  }

  /** Everything but thread `t`'s own list, and what was given out. */
  predicate SameElse(s: State, r: State) {
    && r.mem == s.mem && r.fallbacks == s.fallbacks && r.stack == s.stack
    && r.acquired == s.acquired && r.released == s.released && r.size == s.size
  }

  lemma TakesFirst(s: State, t: nat)
    requires Core(s) && t < |s.pcs| && s.pcs[t].Idle? && List(s, t) != []
    ensures
      var r := Take(s, t);
      && r.given == s.given + [List(s, t)[0]] && List(r, t) == List(s, t)[1..]
      && SameElse(s, r) && r.pcs == s.pcs
  {
    assert ThreadOk(s, t);
    TakeKeeps(s, t);
    assert s.pcs[t := Idle] == s.pcs;
  }

  lemma PopsTop(s: State, t: nat)
    requires Ranged(s) && t < |s.pcs| && s.pcs[t].Popping?
    ensures
      var r, n := Pop(s, t), |s.stack| - 1;
      if s.stack == [] then r == s.(pcs := s.pcs[t := Making])
      else
        && SameElse(s.(stack := s.stack[..n]), r) && r.given == s.given && r.pcs == s.pcs[t := Loading(s.stack[n])]
        && Chain(r.g, Held(t)) == Bucket(s, n)
  {
  }

  lemma LoadsBucket(s: State, t: nat)
    requires Ranged(s) && t < |s.pcs| && s.pcs[t].Loading?
    ensures
      var r := Load(s, t);
      SameElse(s, r) && r.given == s.given && r.pcs == s.pcs[t := Idle] && List(r, t) == Chain(s.g, Held(t))
  {
  }

  /** A local Alloc: no other thread can tell. */
  lemma AllocsLocally(s: State, t: nat) returns (sched: seq<(nat, nat)>)
    requires Inv(s) && t < |s.pcs| && s.pcs[t].Idle? && List(s, t) != []
    ensures
      var r := Run(s, sched);
      && r.given == s.given + [List(s, t)[0]] && List(r, t) == List(s, t)[1..]
      && SameElse(s, r) && r.pcs == s.pcs
  {
    assert ThreadOk(s, t);
    TakesFirst(s, t);
    sched := RunOne(s, t, 0, [], Take(s, t));
  }

  /** The last step of an Alloc that has a bucket. */
  lemma LoadsAndTakes(s: State, t: nat, s': State)
    requires Inv(s) && t < |s.pcs| && s.pcs[t].Loading? && s' == Step(s, t, 0)
    ensures Chain(s.g, Held(t)) != []
    ensures s'.given == s.given + [Chain(s.g, Held(t))[0]] && List(s', t) == Chain(s.g, Held(t))[1..]
    ensures SameElse(s, s') && s'.pcs == s.pcs[t := Idle]
  {
    assert ThreadOk(s, t);
    LoadsBucket(s, t);
    LoadCore(s, t);
    TakesFirst(Load(s, t), t);
  }

  lemma AllocBegins(s: State, t: nat, s': State)
    requires Inv(s) && t < |s.pcs| && s.pcs[t].Idle? && List(s, t) == [] && s' == Step(s, t, 0)
    ensures s' == s.(acquired := s.acquired + 1, pcs := s.pcs[t := Popping])
  {
    assert ThreadOk(s, t);
  }

  /** With an empty list and buckets on the stack, the bucket on top becomes the list and its first node is handed out;
      no memory is taken. */
  lemma AllocsFromStack(s: State, t: nat) returns (sched: seq<(nat, nat)>)
    requires Inv(s) && t < |s.pcs| && s.pcs[t].Idle? && List(s, t) == [] && s.stack != []
    ensures |Bucket(s, |s.stack| - 1)| == s.size >= 1
    ensures
      var r, b := Run(s, sched), Bucket(s, |s.stack| - 1);
      && r.given == s.given + [b[0]] && List(r, t) == b[1..] && r.pcs == s.pcs
      && SameElse(s.(stack := s.stack[..|s.stack| - 1], acquired := s.acquired + 1), r)
  {
    assert ShelfOk(s, |s.stack| - 1);
    var s1 := Step(s, t, 0);
    StepInv(s, t, 0);
    AllocBegins(s, t, s1);
    var s2 := Step(s1, t, 0);
    StepInv(s1, t, 0);
    PopsTop(s1, t);
    var s3 := Step(s2, t, 0);
    LoadsAndTakes(s2, t, s3);
    assert s3.pcs == s.pcs;
    sched := RunOne(s2, t, 0, [], s3);
    sched := RunOne(s1, t, 0, sched, s2);
    sched := RunOne(s, t, 0, sched, s1);
  }

  ghost predicate SameBuckets(s: State, r: State) {
    forall k: nat :: Bucket(r, k) == Bucket(s, k)
  }

  lemma LoadsAndTakesFrame(s: State, t: nat)
    requires Inv(s) && t < |s.pcs| && s.pcs[t].Loading?
    ensures SameBuckets(s, Step(s, t, 0))
  {
    assert ThreadOk(s, t);
    LoadCore(s, t);
    TakeKeeps(Load(s, t), t);
  }

  /** Two buckets of new nodes, one for the stack. */
  lemma MakesTwo(s: State, t: nat, s': State)
    requires Ranged(s) && t < |s.pcs| && s.pcs[t].Making? && s' == Step(s, t, 0)
    ensures s'.mem.unused == s.mem.unused + 2 * s.size && s'.pcs[t].Pushing?
    ensures s' == s.(mem := s'.mem, pcs := s.pcs[t := s'.pcs[t]], g := s'.g)
    ensures Chain(s'.g, Spare(t)) == FreshChain(s.mem, s.size)
    ensures |Chain(s'.g, Held(t))| == s.size
    ensures forall k :: 0 <= k < s.size ==> Chain(s'.g, Held(t))[k] == s.mem.unused + s.size + k
  {
    var m := Fresh(s.mem, s.size).0;
    FreshNodes(s.mem, s.size);
    FreshNodes(m, s.size);
  }

  lemma PushesSpare(s: State, t: nat, s': State)
    requires Ranged(s) && t < |s.pcs| && s.pcs[t].Pushing? && s' == Step(s, t, 0)
    ensures s' == s.(stack := s.stack + [s.pcs[t].spare], pcs := s.pcs[t := Loading(s.pcs[t].mine)], g := s'.g)
    ensures Bucket(s', |s.stack|) == Chain(s.g, Spare(t)) && Chain(s'.g, Held(t)) == Chain(s.g, Held(t))
  {
  }

  /** An Alloc that finds list and stack empty has made two buckets, and one of them is on the stack. */
  predicate TwoMade(s: State, t: nat, r: State) {
    var n := s.mem.unused;
    && Ranged(s) && t < |s.pcs| == |r.pcs| && r.pcs == s.pcs[t := r.pcs[t]] && r.pcs[t].Loading?
    && r.mem.unused == n + 2 * s.size && r.given == s.given && r.size == s.size
    && r.acquired == s.acquired + 1 && r.released == s.released
    && |Chain(r.g, Held(t))| == s.size && (forall k :: 0 <= k < s.size ==> Chain(r.g, Held(t))[k] == n + s.size + k)
    && |r.stack| == 1 && Bucket(r, 0) == FreshChain(s.mem, s.size)
  }

  lemma MakesAndPushes(s: State, t: nat) returns (s1: State, s2: State, s3: State, s4: State)
    requires Inv(s) && t < |s.pcs| && s.pcs[t].Idle? && List(s, t) == [] && s.stack == []
    ensures Ranged(s1) && Ranged(s2) && Ranged(s3)
    ensures s1 == Step(s, t, 0) && s2 == Step(s1, t, 0) && s3 == Step(s2, t, 0) && s4 == Step(s3, t, 0)
    ensures Inv(s4) && TwoMade(s, t, s4)
  {
    s1 := Step(s, t, 0);
    StepInv(s, t, 0);
    AllocBegins(s, t, s1);
    s2 := Step(s1, t, 0);
    StepInv(s1, t, 0);
    PopsTop(s1, t);
    s3 := Step(s2, t, 0);
    StepInv(s2, t, 0);
    MakesTwo(s2, t, s3);
    s4 := Step(s3, t, 0);
    StepInv(s3, t, 0);
    PushesSpare(s3, t, s4);
  }

  /** ... and of the other it hands out the first node; the rest becomes the list. */
  predicate OneTaken(s: State, t: nat, r: State) {
    var n := s.mem.unused;
    && Ranged(s) && r.given == s.given + [n + s.size] && r.mem.unused == n + 2 * s.size && r.pcs == s.pcs
    && |List(r, t)| == s.size - 1 && (forall k :: 0 <= k < s.size - 1 ==> List(r, t)[k] == n + s.size + 1 + k)
    && |r.stack| == 1 && Bucket(r, 0) == FreshChain(s.mem, s.size)
    && r.acquired == s.acquired + 1 && r.released == s.released
  }

  lemma TakesOfTwo(s: State, t: nat, s4: State, s5: State)
    requires TwoMade(s, t, s4) && Inv(s4) && s5 == Step(s4, t, 0) && s.pcs[t].Idle?
    ensures OneTaken(s, t, s5)
  {
    LoadsAndTakes(s4, t, s5);
    LoadsAndTakesFrame(s4, t);
    assert s5.pcs == s.pcs;
  }

  /** With an empty list and an empty stack two buckets are made: the first goes on the stack, and of the second the
      first node is handed out and the rest becomes the list. */
  lemma AllocsFromMemory(s: State, t: nat) returns (sched: seq<(nat, nat)>)
    requires Inv(s) && t < |s.pcs| && s.pcs[t].Idle? && List(s, t) == [] && s.stack == []
    ensures OneTaken(s, t, Run(s, sched))
  {
    var s1, s2, s3, s4 := MakesAndPushes(s, t);
    var s5 := Step(s4, t, 0);
    TakesOfTwo(s, t, s4, s5);
    sched := RunOne(s4, t, 0, [], s5);
    sched := RunOne(s3, t, 0, sched, s4);
    sched := RunOne(s2, t, 0, sched, s3);
    sched := RunOne(s1, t, 0, sched, s2);
    sched := RunOne(s, t, 0, sched, s1);
  }

  lemma StockAdds(s: State)
    requires Ranged(s)
    ensures
      var r, n := Stock(s), |s.stack|;
      && |r.stack| == n + 1 && r.mem.unused == s.mem.unused + s.size && r.given == s.given
      && Bucket(r, n) == FreshChain(s.mem, s.size) && forall k: nat :: k != n ==> Bucket(r, k) == Bucket(s, k)
  {
  }

  /** `multiplier` buckets of new nodes, in the order in which they were made. */
  ghost predicate Stocked(s: State, size: nat, multiplier: nat) {
    && |s.stack| == multiplier && s.mem.unused == 1 + multiplier * size && s.given == []
    && forall k: nat :: k < multiplier ==> |Bucket(s, k)| == size >= 1 && Bucket(s, k)[0] == 1 + k * size
  }

  lemma OneMoreStocked(s: State, n: nat)
    requires Ranged(s) && Stocked(s, s.size, n)
    ensures Stocked(Stock(s), s.size, n + 1)
  {
    StockAdds(s);
    assert (n + 1) * s.size == n * s.size + s.size;
  }

  /** The constructor puts exactly the given number of buckets on the stack. */
  lemma {:induction false} StartsStocked(threads: nat, size: nat, multiplier: nat)
    requires size >= 1
    ensures Stocked(Init(threads, size, multiplier), size, multiplier)
  {
    if multiplier > 0 {
      StartsStocked(threads, size, multiplier - 1);
      OneMoreStocked(Init(threads, size, multiplier - 1), multiplier - 1);
    }
  }

  // ---------------------------------------------------------------- Free

  /** The first step of Free: the node joins the list; a list longer than two buckets loses its first bucket. */
  lemma FreeBegins(s: State, t: nat, x: nat, s': State)
    requires Inv(s) && t < |s.pcs| && s.pcs[t].Idle? && x in s.g.live && s' == Step(s, t, x)
    ensures
      var c := [x] + List(s, t);
      && s'.stack == s.stack && s'.mem.unused == s.mem.unused && s'.given == s.given
      && s'.acquired == s.acquired && s'.released == s.released && s'.size == s.size && SameBuckets(s, s')
      && if |c| <= 2 * s.size then s'.pcs == s.pcs && List(s', t) == c
         else
           && |s'.pcs| == |s.pcs| && s'.pcs == s.pcs[t := s'.pcs[t]] && s'.pcs[t].Releasing?
           && List(s', t) == c[s.size..] && Chain(s'.g, Held(t)) == c[..s.size]
  {
    var s1 := Put(s, t, x);
    assert Short(s, t) && ThreadOk(s, t) && x in s.g.home;
    FreeCore(s, t, x);
    assert x != 0 by {
      assert HomeOk(s.mem, s.g, x);
    }
  }

  /** The rest of a Free that cut a bucket off. */
  lemma Releases(s: State, t: nat) returns (sched: seq<(nat, nat)>)
    requires Ranged(s) && t < |s.pcs| && s.pcs[t].Releasing?
    ensures
      var r := Run(s, sched);
      && r.pcs == s.pcs[t := Idle] && r.mem == s.mem && r.given == s.given && r.acquired == s.acquired
      && List(r, t) == List(s, t) && r.released == s.released + 1
      && |r.stack| == |s.stack| + 1 && r.stack[..|s.stack|] == s.stack && Bucket(r, |s.stack|) == Chain(s.g, Held(t))
  {
    var s2 := Step(s, t, 0);
    var s3 := Step(s2, t, 0);
    var s4 := Step(s3, t, 0);
    sched := RunOne(s3, t, 0, [], s4);
    sched := RunOne(s2, t, 0, sched, s3);
    sched := RunOne(s, t, 0, sched, s2);
  }

  /** Free: up to twice `localPoolSize` nodes stay with the thread; beyond that one whole bucket, the nodes freed last,
      goes on the stack for the others. */
  lemma FreesAlone(s: State, t: nat, x: nat) returns (sched: seq<(nat, nat)>)
    requires Inv(s) && t < |s.pcs| && s.pcs[t].Idle? && x in s.g.live
    ensures
      var r, c := Run(s, sched), [x] + List(s, t);
      && r.pcs == s.pcs && r.mem.unused == s.mem.unused && r.given == s.given && r.acquired == s.acquired
      && if |c| <= 2 * s.size then List(r, t) == c && r.stack == s.stack && r.released == s.released
         else
           && List(r, t) == c[s.size..] && r.released == s.released + 1
           && |r.stack| == |s.stack| + 1 && r.stack[..|s.stack|] == s.stack && Bucket(r, |s.stack|) == c[..s.size]
  {
    var s1 := Step(s, t, x);
    StepInv(s, t, x);
    FreeBegins(s, t, x, s1);
    sched := [];
    if s1.pcs[t].Releasing? {
      sched := Releases(s1, t);
      assert s1.pcs[t := Idle] == s.pcs;
    }
    sched := RunOne(s, t, x, sched, s1);
  }
}

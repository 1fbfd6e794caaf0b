/** `TlsPool` over `SingleThreadObjectPool` (include/TLSPool.h, include/SingleThreadObjectPool.h):
    thread-local free lists that exchange chains of exactly `localPoolSize` nodes with a global stack of
    buckets. Threads interleave at every access to shared data: the two counters and the bucket stack,
    whose Push and Pop are atomic (`TaggedStack`). Work on a thread's own list is part of the step next to
    it, because no other thread sees it. Addresses are numbers, 0 is null. */
module BucketPool {

  /** `controlData`. */
  datatype Control = Control(front: nat, end: nat)

  /** The `tail` field of every node, and the next address malloc gives. */
  datatype Memory = Memory(tail: map<nat, nat>, unused: nat)

  /** Where a thread is. Popping to Loading are inside Alloc, Releasing to Settling inside Free. */
  datatype Pc =
    | Idle
    | Popping
    | Making
    | Pushing(spare: Control, mine: Control)
    | Loading(mine: Control)
    | Releasing(cut: Control)
    | Counting
    | Settling

  /** Where a node is: with a caller, or in the chain of a local list, of a thread's hands, of a bucket. */
  datatype Home = Out | Local(t: nat) | Held(t: nat) | Spare(t: nat) | Shelf(k: nat)

  /** History only: the chain of every home, the home of every node, the nodes callers have. */
  datatype History = History(chains: map<Home, seq<nat>>, home: map<nat, Home>, live: set<nat>)

  /** Per thread `_top`, `_objectCount` and the place in the code; nodes made by the local fallback; the
      bucket stack, top last; the counters; the addresses Alloc returned so far. */
  datatype State = State(
    size: nat, mem: Memory, tops: seq<nat>, counts: seq<int>, pcs: seq<Pc>, fallbacks: nat,
    stack: seq<Control>, acquired: nat, released: nat, given: seq<nat>, g: History)

  // ---------------------------------------------------------------- memory

  /** `x->tail`. */
  function TailOf(tail: map<nat, nat>, x: nat): nat {
    if x in tail then tail[x] else 0
  }

  /** `n` steps along the tail fields. */
  function Walk(tail: map<nat, nat>, from: nat, n: nat): nat {
    if n == 0 then from
    else TailOf(tail, Walk(tail, from, n - 1))
  }

  /** From `top`, exactly `n` nodes come before null. */
  predicate IsList(tail: map<nat, nat>, top: nat, n: nat) {
    (forall j :: 0 <= j < n ==> Walk(tail, top, j) != 0) && Walk(tail, top, n) == 0
  }

  function NextIn(i: nat, end: nat): nat {
    if i + 1 < end then i + 1 else 0
  }

  /** Each of the nodes before `upto` linked to the next, the last before `end` to null. */
  function Link(tail: map<nat, nat>, from: nat, upto: nat, end: nat): (r: map<nat, nat>)
    ensures forall i: nat :: i in r <==> i in tail || from <= i < upto
    ensures forall i: nat :: i in r ==> r[i] == if from <= i < upto then NextIn(i, end) else tail[i]
    decreases upto
  {
    if upto <= from then tail else Link(tail, from, upto - 1, end)[upto - 1 := NextIn(upto - 1, end)]
  }

  /** MakeControl: `size` consecutive nodes, each linked to the next. */
  function Fresh(m: Memory, size: nat): (Memory, Control)
    requires size >= 1
  {
    var end := m.unused + size;
    (Memory(Link(m.tail, m.unused, end, end), end), Control(m.unused, end - 1))
  }

  /** Node memory with the two loops that run over it. */
  class Nodes {
    var tail: map<nat, nat>
    var unused: nat

    constructor ()
      ensures tail == map[] && unused == 1
    {
      tail, unused := map[], 1;
    }

    function View(): Memory
      reads this
    {
      Memory(tail, unused)
    }

    /** MakeControl: malloc of `size` nodes, linked in a loop. */
    method MakeControl(size: nat) returns (c: Control)
      requires size >= 1
      modifies this
      ensures (View(), c) == Fresh(old(View()), size)
    {
      var newTop := unused;
      var node := newTop;
      unused := unused + size;
      for i := 0 to size - 1
        invariant node == newTop + i && unused == newTop + size
        invariant tail == Link(old(tail), newTop, node, newTop + size)
      {
        tail := tail[node := node + 1];
        node := node + 1;
      }
      tail := tail[node := 0];
      c := Control(newTop, node);
    }

    /** The cut in TlsPool::Free: the loop finds the last node, whose link becomes null. */
    method CutFirst(top: nat, size: nat) returns (newHead: nat, last: nat)
      requires size >= 1
      modifies this
      ensures last == Walk(old(tail), top, size - 1) && newHead == TailOf(old(tail), last)
      ensures View() == old(View()).(tail := old(tail)[last := 0])
    {
      last := top;
      for i := 0 to size - 1
        invariant last == Walk(tail, top, i) && tail == old(tail) && unused == old(unused)
      {
        last := if last in tail then tail[last] else 0;
      }
      newHead := if last in tail then tail[last] else 0;
      tail := tail[last := 0];
    }
  }

  // ---------------------------------------------------------------- history

  function Chain(g: History, w: Home): seq<nat> {
    if w in g.chains then g.chains[w] else []
  }

  function Front(c: seq<nat>): nat {
    if c == [] then 0 else c[0]
  }

  function After(c: seq<nat>, k: nat): nat {
    if k + 1 < |c| then c[k + 1] else 0
  }

  /** All nodes of `c` are put at `w`. */
  function Moved(home: map<nat, Home>, c: seq<nat>, w: Home): (r: map<nat, Home>)
    ensures forall x :: x in r <==> x in home || x in c
    ensures forall x :: x in r ==> r[x] == if x in c then w else home[x]
  {
    map x | x in home.Keys + (set y | y in c) :: if x in c then w else home[x]
  }

  /** A whole chain changes hands. */
  function Relabel(g: History, w: Home, v: Home): History {
    g.(chains := g.chains[v := Chain(g, w)][w := []], home := Moved(g.home, Chain(g, w), v))
  }

  /** The first node of a chain goes to a caller. */
  function HandOut(g: History, w: Home): History
    requires Chain(g, w) != []
  {
    var x := Chain(g, w)[0];
    History(g.chains[w := Chain(g, w)[1..]], g.home[x := Out], g.live + {x})
  }

  function TakeBack(g: History, w: Home, x: nat): History {
    History(g.chains[w := [x] + Chain(g, w)], g.home[x := w], g.live - {x})
  }

  /** The first `n` nodes of chain `w` become chain `v`. */
  function Split(g: History, w: Home, v: Home, n: nat): History {
    var c := Chain(g, w);
    if |c| < n then g else
      g.(chains := g.chains[v := c[..n]][w := c[n..]], home := Moved(g.home, c[..n], v))
  }

  function Plus(a: nat, b: nat): nat {
    a + b
  }

  function FreshChain(m: Memory, size: nat): (c: seq<nat>)
    ensures |c| == size && forall k :: 0 <= k < |c| ==> c[k] == m.unused + k
  {
    seq(size, (k: nat) => Plus(m.unused, k))
  }

  function MakeAt(g: History, m: Memory, size: nat, v: Home): History {
    var c := FreshChain(m, size);
    g.(chains := g.chains[v := c], home := Moved(g.home, c, v))
  }

  // ---------------------------------------------------------------- steps

  /** SingleThreadObjectPool::Alloc, with its `new Node` when the list is empty; the call returns. */
  function Take(s: State, t: nat): State
    requires Ranged(s) && t < |s.pcs|
  {
    var top := s.tops[t];
    var s := s.(pcs := s.pcs[t := Idle]);
    if top != 0 then
      s.(tops := s.tops[t := TailOf(s.mem.tail, top)], counts := s.counts[t := s.counts[t] - 1],
         given := s.given + [top],
         g := if Chain(s.g, Local(t)) == [] then s.g else HandOut(s.g, Local(t)))
    else
      s.(mem := Memory(s.mem.tail[s.mem.unused := 0], s.mem.unused + 1), fallbacks := s.fallbacks + 1,
         given := s.given + [s.mem.unused],
         g := s.g.(home := s.g.home[s.mem.unused := Out], live := s.g.live + {s.mem.unused}))
  }

  /** TlsPool::Alloc up to the first shared access: the acquire counter, when the list is empty. */
  function Alloc(s: State, t: nat): State
    requires Ranged(s) && t < |s.pcs|
  {
    if s.counts[t] == 0 then s.(acquired := s.acquired + 1, pcs := s.pcs[t := Popping])
    else Take(s, t)
  }

  function Pop(s: State, t: nat): State
    requires Ranged(s) && t < |s.pcs|
  {
    if s.stack == [] then s.(pcs := s.pcs[t := Making])
    else
      var n := |s.stack| - 1;
      s.(stack := s.stack[..n], pcs := s.pcs[t := Loading(s.stack[n])], g := Relabel(s.g, Shelf(n), Held(t)))
  }

  /** Two calls of MakeControl. */
  function Make(s: State, t: nat): State
    requires Ranged(s) && t < |s.pcs|
  {
    var (m, spare) := Fresh(s.mem, s.size);
    var (m', mine) := Fresh(m, s.size);
    s.(mem := m', pcs := s.pcs[t := Pushing(spare, mine)],
       g := MakeAt(MakeAt(s.g, s.mem, s.size, Spare(t)), m, s.size, Held(t)))
  }

  function PushSpare(s: State, t: nat): State
    requires Ranged(s) && t < |s.pcs| && s.pcs[t].Pushing?
  {
    s.(stack := s.stack + [s.pcs[t].spare], pcs := s.pcs[t := Loading(s.pcs[t].mine)],
       g := Relabel(s.g, Spare(t), Shelf(|s.stack|)))
  }

  /** The end of TlsPool::Alloc: the bucket becomes the local list. */
  function Load(s: State, t: nat): State
    requires Ranged(s) && t < |s.pcs| && s.pcs[t].Loading?
  {
    s.(tops := s.tops[t := s.pcs[t].mine.front], counts := s.counts[t := s.size], pcs := s.pcs[t := Idle],
       g := Relabel(s.g, Held(t), Local(t)))
  }

  /** SingleThreadObjectPool::Free. */
  function Put(s: State, t: nat, x: nat): State
    requires Ranged(s) && t < |s.pcs|
  {
    s.(mem := s.mem.(tail := s.mem.tail[x := s.tops[t]]), tops := s.tops[t := x],
       counts := s.counts[t := s.counts[t] + 1], g := TakeBack(s.g, Local(t), x))
  }

  /** TlsPool::Free cuts the first `size` nodes off when the list is longer than twice that. */
  function Cut(s: State, t: nat): State
    requires Ranged(s) && t < |s.pcs|
  {
    if s.counts[t] <= 2 * s.size then s else
      var last := Walk(s.mem.tail, s.tops[t], s.size - 1);
      s.(tops := s.tops[t := TailOf(s.mem.tail, last)], mem := s.mem.(tail := s.mem.tail[last := 0]),
         pcs := s.pcs[t := Releasing(Control(s.tops[t], last))],
         g := Split(s.g, Local(t), Held(t), s.size))
  }

  /** ReleaseNode's Push. */
  function Release(s: State, t: nat): State
    requires Ranged(s) && t < |s.pcs| && s.pcs[t].Releasing?
  {
    s.(stack := s.stack + [s.pcs[t].cut], pcs := s.pcs[t := Counting],
       g := Relabel(s.g, Held(t), Shelf(|s.stack|)))
  }

  predicate Ranged(s: State) {
    s.size >= 1 && |s.tops| == |s.counts| == |s.pcs|
  }

  /** What thread `t` does next; an idle thread frees `x` if a caller has it, and allocates if `x` is 0. */
  function Step(s: State, t: nat, x: nat): State
    requires Ranged(s)
  {
    if t >= |s.pcs| then s else
      match s.pcs[t]
      case Idle => if x == 0 then Alloc(s, t) else if x in s.g.live then Cut(Put(s, t, x), t) else s
      case Popping => Pop(s, t)
      case Making => Make(s, t)
      case Pushing(_, _) => PushSpare(s, t)
      case Loading(_) => Take(Load(s, t), t)
      case Releasing(_) => Release(s, t)
      case Counting => s.(released := s.released + 1, pcs := s.pcs[t := Settling])
      case Settling => s.(counts := s.counts[t := s.counts[t] - s.size], pcs := s.pcs[t := Idle])
  }

  /** A run: which thread moves, and what it frees if it is idle. */
  function Run(s: State, sched: seq<(nat, nat)>): (r: State)
    requires Ranged(s)
    ensures Ranged(r)
    decreases |sched|
  {
    if sched == [] then s else Run(Step(s, sched[0].0, sched[0].1), sched[1..])
  }

  function Empty(threads: nat, size: nat): State {
    State(size, Memory(map[], 1), seq(threads, _ => 0), seq(threads, _ => 0), seq(threads, _ => Idle), 0,
          [], 0, 0, [], History(map[], map[], {}))
  }

  function Stock(s: State): State
    requires Ranged(s)
  {
    var (m, c) := Fresh(s.mem, s.size);
    s.(mem := m, stack := s.stack + [c], g := MakeAt(s.g, s.mem, s.size, Shelf(|s.stack|)))
  }

  /** The pool as constructed: `globalPoolMultiplier` buckets on the stack. */
  function Init(threads: nat, size: nat, multiplier: nat): (s: State)
    requires size >= 1
    ensures Ranged(s) && s.size == size
  {
    if multiplier == 0 then Empty(threads, size) else Stock(Init(threads, size, multiplier - 1))
  }

  // ---------------------------------------------------------------- the invariant

  predicate Distinct(c: seq<nat>) {
    forall j, k :: 0 <= j < k < |c| ==> c[j] != c[k]
  }

  predicate NodeOk(m: Memory, g: History, c: seq<nat>, k: nat, w: Home) {
    k < |c| && (
      && c[k] in g.home && g.home[c[k]] == w
      && c[k] in m.tail && m.tail[c[k]] == After(c, k))
  }

  /** The chain is what the tail fields link, and its nodes are nowhere else. */
  predicate ChainOk(m: Memory, g: History, w: Home) {
    var c := Chain(g, w);
    Distinct(c) && forall k :: 0 <= k < |c| ==> NodeOk(m, g, c, k, w)
  }

  /** A node is where `home` says. */
  predicate HomeOk(m: Memory, g: History, x: nat) {
    x in g.home ==>
      && 0 < x < m.unused
      && if g.home[x] == Out then x in g.live else x in Chain(g, g.home[x])
  }

  ghost predicate HeapOk(m: Memory, g: History) {
    && m.unused >= 1 && g.home.Keys == m.tail.Keys && Chain(g, Out) == []
    && (forall w :: ChainOk(m, g, w))
    && (forall x :: HomeOk(m, g, x))
    && (forall x :: x in g.live ==> x in g.home && g.home[x] == Out)
  }

  predicate IsBucket(c: seq<nat>, control: Control, size: nat) {
    |c| == size && c != [] && c[0] == control.front && c[|c| - 1] == control.end
  }

  predicate Unsettled(pc: Pc) {
    pc.Releasing? || pc.Counting? || pc.Settling?
  }

  predicate Refilling(pc: Pc) {
    pc.Popping? || pc.Making? || pc.Pushing? || pc.Loading?
  }

  predicate ThreadOk(s: State, t: nat) {
    Ranged(s) && t < |s.pcs| && (
      var pc, c := s.pcs[t], Chain(s.g, Local(t));
      && s.tops[t] == Front(c)
      && s.counts[t] == |c| + (if Unsettled(pc) then s.size else 0)
      && (Refilling(pc) ==> c == [])
      && (match pc
          case Pushing(spare, mine) =>
            IsBucket(Chain(s.g, Spare(t)), spare, s.size) && IsBucket(Chain(s.g, Held(t)), mine, s.size)
          case Loading(mine) => Chain(s.g, Spare(t)) == [] && IsBucket(Chain(s.g, Held(t)), mine, s.size)
          case Releasing(cut) => Chain(s.g, Spare(t)) == [] && IsBucket(Chain(s.g, Held(t)), cut, s.size)
          case _ => Chain(s.g, Spare(t)) == [] && Chain(s.g, Held(t)) == []))
  }

  predicate ShelfOk(s: State, k: nat) {
    if k < |s.stack| then IsBucket(Chain(s.g, Shelf(k)), s.stack[k], s.size)
    else Chain(s.g, Shelf(k)) == []
  }

  /** What the books owe to a thread: its list, and a bucket between a counter and the list. */
  function Weight(size: nat, count: int, pc: Pc): int {
    count + (if Refilling(pc) then size else 0) - (if pc.Settling? then size else 0)
  }

  function Weights(size: nat, counts: seq<int>, pcs: seq<Pc>): int
    requires |counts| == |pcs|
  {
    if counts == [] then 0
    else Weight(size, counts[0], pcs[0]) + Weights(size, counts[1..], pcs[1..])
  }

  predicate Balanced(s: State)
    requires Ranged(s)
  {
    s.acquired * s.size == s.released * s.size + |s.g.live| + Weights(s.size, s.counts, s.pcs)
  }

  /** What the threads and the stack know about the chains. */
  ghost predicate Books(s: State) {
    && Ranged(s) && s.fallbacks == 0
    && (forall t :: 0 <= t < |s.pcs| ==> ThreadOk(s, t))
    && (forall k: nat :: ShelfOk(s, k))
    && Balanced(s)
  }

  ghost predicate Core(s: State) {
    HeapOk(s.mem, s.g) && Books(s)
  }

  predicate Short(s: State, t: nat) {
    |Chain(s.g, Local(t))| <= 2 * s.size
  }

  ghost predicate Inv(s: State) {
    Core(s) && forall t: nat :: Short(s, t)
  }

  // ---------------------------------------------------------------- chains in memory

  lemma {:induction false} WeightsUpdate(size: nat, counts: seq<int>, pcs: seq<Pc>, t: nat, n: int, pc: Pc)
    requires t < |counts| == |pcs|
    ensures
      Weights(size, counts[t := n], pcs[t := pc]) + Weight(size, counts[t], pcs[t])
        == Weights(size, counts, pcs) + Weight(size, n, pc)
  {
    if t == 0 {
      assert counts[t := n][1..] == counts[1..] && pcs[t := pc][1..] == pcs[1..];
    } else {
      assert counts[t := n][1..] == counts[1..][t - 1 := n] && pcs[t := pc][1..] == pcs[1..][t - 1 := pc];
      WeightsUpdate(size, counts[1..], pcs[1..], t - 1, n, pc);
    }
  }

  /** Following the links of a chain visits its elements. */
  lemma {:induction false} WalkChain(m: Memory, g: History, w: Home, n: nat)
    requires ChainOk(m, g, w) && n < |Chain(g, w)|
    ensures Walk(m.tail, Chain(g, w)[0], n) == Chain(g, w)[n]
  {
    if n > 0 {
      WalkChain(m, g, w, n - 1);
      assert NodeOk(m, g, Chain(g, w), n - 1, w);
    }
  }

  /** A chain is a list in memory of its own length. */
  lemma ChainIsList(m: Memory, g: History, w: Home)
    requires HeapOk(m, g)
    ensures IsList(m.tail, Front(Chain(g, w)), |Chain(g, w)|)
  {
    var c := Chain(g, w);
    assert ChainOk(m, g, w);
    forall j | 0 <= j < |c|
      ensures Walk(m.tail, Front(c), j) != 0
    {
      WalkChain(m, g, w, j);
      assert NodeOk(m, g, c, j, w) && HomeOk(m, g, c[j]);
    }
    if c != [] {
      WalkChain(m, g, w, |c| - 1);
      assert NodeOk(m, g, c, |c| - 1, w);
    }
  }

  /** A chain whose nodes keep link and home. */
  lemma ChainFrame(m: Memory, g: History, m': Memory, g': History, u: Home)
    requires ChainOk(m, g, u) && Chain(g', u) == Chain(g, u)
    requires forall x :: x in Chain(g, u) && x in m.tail && x in g.home ==>
      x in m'.tail && x in g'.home && m'.tail[x] == m.tail[x] && g'.home[x] == g.home[x]
    ensures ChainOk(m', g', u)
  {
    var c := Chain(g, u);
    forall k | 0 <= k < |c|
      ensures NodeOk(m', g', c, k, u)
    {
      assert NodeOk(m, g, c, k, u);
    }
  }

  lemma Residents(m: Memory, g: History, w: Home)
    requires ChainOk(m, g, w)
    ensures forall x :: x in Chain(g, w) ==> x in g.home && g.home[x] == w && x in m.tail
  {
    var c := Chain(g, w);
    forall x | x in c
      ensures x in g.home && g.home[x] == w && x in m.tail
    {
      var k :| 0 <= k < |c| && c[k] == x;
      assert NodeOk(m, g, c, k, w);
    }
  }

  /** Chains of different homes share no node. */
  lemma Apart(m: Memory, g: History, w: Home, u: Home)
    requires ChainOk(m, g, w) && ChainOk(m, g, u) && w != u
    ensures forall x :: x in Chain(g, u) ==> x !in Chain(g, w)
  {
    Residents(m, g, w);
    Residents(m, g, u);
  }

  lemma InHome(m: Memory, g: History, w: Home, x: nat)
    requires HeapOk(m, g) && x in Chain(g, w)
    ensures x in g.home && g.home[x] == w && x in m.tail && x !in g.live
  {
    assert ChainOk(m, g, w);
    Residents(m, g, w);
  }

  // ---------------------------------------------------------------- Relabel

  lemma RelabelChain(m: Memory, g: History, w: Home, v: Home, u: Home)
    requires HeapOk(m, g) && w != v && Chain(g, v) == []
    ensures ChainOk(m, Relabel(g, w, v), u)
  {
    var g' := Relabel(g, w, v);
    assert ChainOk(m, g, w) && ChainOk(m, g, u);
    if u == v {
      var c := Chain(g, w);
      forall k | 0 <= k < |c|
        ensures NodeOk(m, g', c, k, v)
      {
        assert NodeOk(m, g, c, k, w);
      }
    } else if u != w {
      Apart(m, g, w, u);
      ChainFrame(m, g, m, g', u);
    }
  }

  lemma RelabelHome(m: Memory, g: History, w: Home, v: Home, x: nat)
    requires HeapOk(m, g) && w != v && w != Out && v != Out && Chain(g, v) == []
    ensures HomeOk(m, Relabel(g, w, v), x)
    ensures x in Chain(g, w) ==> x in g.home && x !in g.live
  {
    assert HomeOk(m, g, x);
    if x in Chain(g, w) {
      InHome(m, g, w, x);
    }
  }

  /** Moving a whole chain to an empty home keeps the heap. */
  lemma RelabelKeeps(m: Memory, g: History, w: Home, v: Home)
    requires HeapOk(m, g) && w != v && w != Out && v != Out && Chain(g, v) == []
    ensures HeapOk(m, Relabel(g, w, v))
  {
    var g' := Relabel(g, w, v);
    forall u
      ensures ChainOk(m, g', u)
    {
      RelabelChain(m, g, w, v, u);
    }
    forall x: nat
      ensures HomeOk(m, g', x) && (x in Chain(g, w) ==> x in g.home && x !in g.live)
    {
      RelabelHome(m, g, w, v, x);
    }
    assert g'.home.Keys == g.home.Keys;
  }

  // ---------------------------------------------------------------- HandOut

  lemma HandOutChain(m: Memory, g: History, w: Home, u: Home)
    requires HeapOk(m, g) && Chain(g, w) != []
    ensures ChainOk(m, HandOut(g, w), u)
  {
    var c, g' := Chain(g, w), HandOut(g, w);
    assert ChainOk(m, g, w) && ChainOk(m, g, u);
    if u == w {
      var d := c[1..];
      forall k | 0 <= k < |d|
        ensures NodeOk(m, g', d, k, w)
      {
        assert NodeOk(m, g, c, k + 1, w) && d[k] == c[k + 1];
      }
    } else {
      Apart(m, g, w, u);
      ChainFrame(m, g, m, g', u);
    }
  }

  /** The head of a chain was with nobody; its link is the new front. */
  lemma HandOutKeeps(m: Memory, g: History, w: Home)
    requires HeapOk(m, g) && Chain(g, w) != [] && w != Out
    ensures HeapOk(m, HandOut(g, w)) && Chain(g, w)[0] !in g.live && Chain(g, w)[0] != 0
    ensures TailOf(m.tail, Chain(g, w)[0]) == Front(Chain(HandOut(g, w), w))
  {
    var c, g' := Chain(g, w), HandOut(g, w);
    InHome(m, g, w, c[0]);
    assert ChainOk(m, g, w) && NodeOk(m, g, c, 0, w) && HomeOk(m, g, c[0]);
    forall u
      ensures ChainOk(m, g', u)
    {
      HandOutChain(m, g, w, u);
    }
    assert c == [c[0]] + c[1..];
    forall x: nat
      ensures HomeOk(m, g', x)
    {
      assert HomeOk(m, g, x);
    }
    assert g'.home.Keys == g.home.Keys;
  }

  // ---------------------------------------------------------------- TakeBack

  lemma TakeBackChain(m: Memory, g: History, w: Home, x: nat, u: Home)
    requires HeapOk(m, g) && x in g.live && w != Out
    ensures ChainOk(m.(tail := m.tail[x := Front(Chain(g, w))]), TakeBack(g, w, x), u)
  {
    var c, g', m' := Chain(g, w), TakeBack(g, w, x), m.(tail := m.tail[x := Front(Chain(g, w))]);
    assert ChainOk(m, g, w) && ChainOk(m, g, u);
    if x in Chain(g, u) {
      InHome(m, g, u, x);
    }
    if u == w {
      var d := [x] + c;
      forall k | 0 <= k < |d|
        ensures NodeOk(m', g', d, k, w)
      {
        if k > 0 {
          assert NodeOk(m, g, c, k - 1, w) && d[k] == c[k - 1];
        }
      }
    } else {
      ChainFrame(m, g, m', g', u);
    }
  }

  lemma TakeBackKeeps(m: Memory, g: History, w: Home, x: nat)
    requires HeapOk(m, g) && x in g.live && w != Out
    ensures HeapOk(m.(tail := m.tail[x := Front(Chain(g, w))]), TakeBack(g, w, x))
  {
    var c, g', m' := Chain(g, w), TakeBack(g, w, x), m.(tail := m.tail[x := Front(Chain(g, w))]);
    forall u
      ensures ChainOk(m', g', u)
    {
      TakeBackChain(m, g, w, x, u);
    }
    forall y: nat
      ensures HomeOk(m', g', y)
    {
      assert HomeOk(m, g, y);
    }
    assert g'.home.Keys == m'.tail.Keys;
  }

  // ---------------------------------------------------------------- Split

  /** The two parts of a chain cut after `n` nodes; the last node of the first gets a null link. */
  lemma SplitChain(m: Memory, g: History, w: Home, v: Home, n: nat, u: Home)
    requires HeapOk(m, g) && w != v && Chain(g, v) == [] && 0 < n < |Chain(g, w)|
    ensures ChainOk(m.(tail := m.tail[Chain(g, w)[n - 1] := 0]), Split(g, w, v, n), u)
  {
    var c, g', m' := Chain(g, w), Split(g, w, v, n), m.(tail := m.tail[Chain(g, w)[n - 1] := 0]);
    assert ChainOk(m, g, w) && ChainOk(m, g, u);
    if u == v {
      forall k | 0 <= k < n
        ensures NodeOk(m', g', c[..n], k, v)
      {
        assert NodeOk(m, g, c, k, w) && c[..n][k] == c[k];
      }
    } else if u == w {
      forall k | 0 <= k < |c| - n
        ensures NodeOk(m', g', c[n..], k, w)
      {
        assert NodeOk(m, g, c, n + k, w) && c[n..][k] == c[n + k];
      }
    } else {
      Apart(m, g, w, u);
      ChainFrame(m, g, m', g', u);
    }
  }

  lemma SplitHome(m: Memory, g: History, w: Home, v: Home, n: nat, x: nat)
    requires HeapOk(m, g) && w != v && w != Out && v != Out && Chain(g, v) == [] && 0 < n < |Chain(g, w)|
    ensures HomeOk(m.(tail := m.tail[Chain(g, w)[n - 1] := 0]), Split(g, w, v, n), x)
    ensures x in Chain(g, w)[..n] ==> x in g.home && x in m.tail && x !in g.live
  {
    var c := Chain(g, w);
    assert HomeOk(m, g, x);
    assert c == c[..n] + c[n..];
    if x in c {
      InHome(m, g, w, x);
    }
  }

  /** The walk along `n - 1` links ends at the last node to cut. */
  lemma SplitPoint(m: Memory, g: History, w: Home, n: nat)
    requires HeapOk(m, g) && 0 < n < |Chain(g, w)|
    ensures Walk(m.tail, Chain(g, w)[0], n - 1) == Chain(g, w)[n - 1]
    ensures TailOf(m.tail, Chain(g, w)[n - 1]) == Chain(g, w)[n]
  {
    assert ChainOk(m, g, w) && NodeOk(m, g, Chain(g, w), n - 1, w);
    WalkChain(m, g, w, n - 1);
  }

  lemma SplitKeeps(m: Memory, g: History, w: Home, v: Home, n: nat)
    requires HeapOk(m, g) && w != v && w != Out && v != Out && Chain(g, v) == [] && 0 < n < |Chain(g, w)|
    ensures HeapOk(m.(tail := m.tail[Chain(g, w)[n - 1] := 0]), Split(g, w, v, n))
  {
    var c, g', m' := Chain(g, w), Split(g, w, v, n), m.(tail := m.tail[Chain(g, w)[n - 1] := 0]);
    forall u
      ensures ChainOk(m', g', u)
    {
      SplitChain(m, g, w, v, n, u);
    }
    forall x: nat
      ensures HomeOk(m', g', x) && (x in c[..n] ==> x in g.home && x in m.tail && x !in g.live)
    {
      SplitHome(m, g, w, v, n, x);
    }
    assert g'.home.Keys == m'.tail.Keys;
  }

  // ---------------------------------------------------------------- MakeControl

  lemma FreshNodes(m: Memory, size: nat)
    requires size >= 1
    ensures forall x: nat :: x in FreshChain(m, size) <==> m.unused <= x < m.unused + size
  {
    var c := FreshChain(m, size);
    forall x: nat | m.unused <= x < m.unused + size
      ensures x in c
    {
      assert c[x - m.unused] == x;
    }
  }

  lemma MakeChain(m: Memory, g: History, size: nat, v: Home, u: Home)
    requires HeapOk(m, g) && size >= 1 && Chain(g, v) == []
    ensures ChainOk(Fresh(m, size).0, MakeAt(g, m, size, v), u)
  {
    var m', g', c := Fresh(m, size).0, MakeAt(g, m, size, v), FreshChain(m, size);
    FreshNodes(m, size);
    assert ChainOk(m, g, u);
    if u == v {
      forall k | 0 <= k < |c|
        ensures NodeOk(m', g', c, k, v)
      {
        assert c[k] == m.unused + k;
      }
    } else {
      forall x | x in Chain(g, u)
        ensures x < m.unused
      {
        InHome(m, g, u, x);
        assert HomeOk(m, g, x);
      }
      ChainFrame(m, g, m', g', u);
    }
  }

  lemma MakeHome(m: Memory, g: History, size: nat, v: Home, x: nat)
    requires HeapOk(m, g) && size >= 1 && v != Out && Chain(g, v) == []
    ensures HomeOk(Fresh(m, size).0, MakeAt(g, m, size, v), x)
    ensures x in g.live ==> x < m.unused
    ensures x in Fresh(m, size).0.tail <==> x in MakeAt(g, m, size, v).home
  {
    FreshNodes(m, size);
    assert HomeOk(m, g, x);
  }

  /** MakeControl gives a chain of exactly `size` linked nodes that nobody had. */
  lemma MakeKeeps(m: Memory, g: History, size: nat, v: Home)
    requires HeapOk(m, g) && size >= 1 && v != Out && Chain(g, v) == []
    ensures HeapOk(Fresh(m, size).0, MakeAt(g, m, size, v))
    ensures IsBucket(Chain(MakeAt(g, m, size, v), v), Fresh(m, size).1, size)
  {
    var m', g' := Fresh(m, size).0, MakeAt(g, m, size, v);
    FreshNodes(m, size);
    forall u
      ensures ChainOk(m', g', u)
    {
      MakeChain(m, g, size, v, u);
    }
    forall x: nat
      ensures HomeOk(m', g', x) && (x in g.live ==> x < m.unused) && (x in m'.tail <==> x in g'.home)
    {
      MakeHome(m, g, size, v, x);
    }
    assert g'.home.Keys == m'.tail.Keys;
  }

  // ---------------------------------------------------------------- every step keeps the invariant

  /** A step of thread `t` leaves the other threads as they were. */
  predicate OthersKept(s: State, s': State, t: nat) {
    && Ranged(s) && Ranged(s') && s'.size == s.size && |s'.pcs| == |s.pcs|
    && (forall u: nat :: u < |s.pcs| && u != t ==> SameThread(s, s', u))
  }

  predicate SameThread(s: State, s': State, u: nat)
    requires Ranged(s) && Ranged(s') && u < |s.pcs| == |s'.pcs|
  {
    && s'.tops[u] == s.tops[u] && s'.counts[u] == s.counts[u] && s'.pcs[u] == s.pcs[u]
    && Chain(s'.g, Local(u)) == Chain(s.g, Local(u)) && Chain(s'.g, Held(u)) == Chain(s.g, Held(u))
    && Chain(s'.g, Spare(u)) == Chain(s.g, Spare(u))
  }

  lemma ThreadsKeep(s: State, s': State, t: nat)
    requires Books(s) && OthersKept(s, s', t) && t < |s.pcs| && ThreadOk(s', t)
    ensures forall u :: 0 <= u < |s'.pcs| ==> ThreadOk(s', u)
  {
    forall u | 0 <= u < |s'.pcs|
      ensures ThreadOk(s', u)
    {
      assert ThreadOk(s, u);
      if u != t {
        assert SameThread(s, s', u);
      }
    }
  }

  lemma ShelvesKeep(s: State, s': State)
    requires Books(s) && s'.stack == s.stack && s'.size == s.size
    requires forall k: nat :: Chain(s'.g, Shelf(k)) == Chain(s.g, Shelf(k))
    ensures forall k: nat :: ShelfOk(s', k)
  {
    forall k: nat
      ensures ShelfOk(s', k)
    {
      assert ShelfOk(s, k);
    }
  }

  lemma TakeBooks(s: State, t: nat)
    requires Books(s) && t < |s.pcs| && s.pcs[t].Idle? && Chain(s.g, Local(t)) != []
    requires s.tops[t] != 0 && s.tops[t] !in s.g.live
    requires TailOf(s.mem.tail, s.tops[t]) == Front(Chain(HandOut(s.g, Local(t)), Local(t)))
    ensures Books(Take(s, t))
  {
    var s' := Take(s, t);
    assert ThreadOk(s, t);
    ThreadsKeep(s, s', t);
    ShelvesKeep(s, s');
    WeightsUpdate(s.size, s.counts, s.pcs, t, s.counts[t] - 1, Idle);
  }

  /** A local Alloc on a nonempty list never reaches `new Node`, and hands out a node no caller has. */
  lemma TakeKeeps(s: State, t: nat)
    requires Core(s) && t < |s.pcs| && s.pcs[t].Idle? && s.counts[t] != 0
    ensures Core(Take(s, t)) && Take(s, t).given == s.given + [s.tops[t]] && s.tops[t] !in s.g.live
    ensures Chain(s.g, Local(t)) != [] && Take(s, t).g == HandOut(s.g, Local(t))
  {
    assert ThreadOk(s, t);
    HandOutKeeps(s.mem, s.g, Local(t));
    TakeBooks(s, t);
  }

  /** Steps that change the place in the code but not what is owed. */
  lemma MovePc(s: State, t: nat, pc: Pc)
    requires Ranged(s) && t < |s.pcs|
    requires Weight(s.size, s.counts[t], pc) == Weight(s.size, s.counts[t], s.pcs[t])
    ensures Weights(s.size, s.counts, s.pcs[t := pc]) == Weights(s.size, s.counts, s.pcs)
  {
    WeightsUpdate(s.size, s.counts, s.pcs, t, s.counts[t], pc);
    assert s.counts[t := s.counts[t]] == s.counts;
  }

  lemma AllocKeeps(s: State, t: nat)
    requires Books(s) && t < |s.pcs| && s.pcs[t].Idle? && s.counts[t] == 0
    ensures Books(Alloc(s, t))
  {
    var s' := Alloc(s, t);
    assert ThreadOk(s, t);
    ThreadsKeep(s, s', t);
    ShelvesKeep(s, s');
    WeightsUpdate(s.size, s.counts, s.pcs, t, s.counts[t], Popping);
    assert s.counts[t := s.counts[t]] == s.counts;
    assert (s.acquired + 1) * s.size == s.acquired * s.size + s.size;
  }

  lemma PopBooks(s: State, t: nat)
    requires Books(s) && t < |s.pcs| && s.pcs[t].Popping?
    ensures Books(Pop(s, t))
  {
    var s' := Pop(s, t);
    assert ThreadOk(s, t);
    MovePc(s, t, s'.pcs[t]);
    if s.stack == [] {
      ThreadsKeep(s, s', t);
      ShelvesKeep(s, s');
    } else {
      assert ShelfOk(s, |s.stack| - 1);
      ThreadsKeep(s, s', t);
      forall k: nat
        ensures ShelfOk(s', k)
      {
        assert ShelfOk(s, k);
      }
    }
  }

  lemma PopKeeps(s: State, t: nat)
    requires Core(s) && t < |s.pcs| && s.pcs[t].Popping?
    ensures Core(Pop(s, t))
  {
    assert ThreadOk(s, t);
    PopBooks(s, t);
    if s.stack != [] {
      RelabelKeeps(s.mem, s.g, Shelf(|s.stack| - 1), Held(t));
    }
  }

  lemma MakeBooks(s: State, s': State, t: nat, a: seq<nat>, b: seq<nat>)
    requires Books(s) && t < |s.pcs| && s.pcs[t].Making?
    requires s' == s.(mem := s'.mem, pcs := s'.pcs, g := s'.g)
    requires s'.g == History(s.g.chains[Spare(t) := a][Held(t) := b], s'.g.home, s.g.live)
    requires |s'.pcs| == |s.pcs| && s'.pcs[t].Pushing? && s'.pcs == s.pcs[t := s'.pcs[t]]
    requires IsBucket(a, s'.pcs[t].spare, s.size) && IsBucket(b, s'.pcs[t].mine, s.size)
    ensures Books(s')
  {
    assert ThreadOk(s, t);
    MovePc(s, t, s'.pcs[t]);
    ThreadsKeep(s, s', t);
    ShelvesKeep(s, s');
  }

  lemma MakeStepKeeps(s: State, t: nat)
    requires Core(s) && t < |s.pcs| && s.pcs[t].Making?
    ensures Core(Make(s, t))
  {
    assert ThreadOk(s, t);
    var m := Fresh(s.mem, s.size).0;
    MakeKeeps(s.mem, s.g, s.size, Spare(t));
    MakeKeeps(m, MakeAt(s.g, s.mem, s.size, Spare(t)), s.size, Held(t));
    MakeBooks(s, Make(s, t), t, FreshChain(s.mem, s.size), FreshChain(m, s.size));
  }

  /** A whole bucket goes on the stack. */
  lemma ShelvesGrow(s: State, s': State, w: Home, c: Control)
    requires Books(s) && s'.size == s.size && s'.stack == s.stack + [c] && !w.Shelf?
    requires s'.g == Relabel(s.g, w, Shelf(|s.stack|)) && IsBucket(Chain(s.g, w), c, s.size)
    ensures forall k: nat :: ShelfOk(s', k)
  {
    forall k: nat
      ensures ShelfOk(s', k)
    {
      assert ShelfOk(s, k);
    }
  }

  lemma PushSpareKeeps(s: State, t: nat)
    requires Books(s) && t < |s.pcs| && s.pcs[t].Pushing?
    ensures Books(PushSpare(s, t))
  {
    var s' := PushSpare(s, t);
    assert ThreadOk(s, t);
    MovePc(s, t, s'.pcs[t]);
    ThreadsKeep(s, s', t);
    ShelvesGrow(s, s', Spare(t), s.pcs[t].spare);
  }

  lemma ReleaseKeeps(s: State, t: nat)
    requires Books(s) && t < |s.pcs| && s.pcs[t].Releasing?
    ensures Books(Release(s, t))
  {
    var s' := Release(s, t);
    assert ThreadOk(s, t);
    MovePc(s, t, s'.pcs[t]);
    ThreadsKeep(s, s', t);
    ShelvesGrow(s, s', Held(t), s.pcs[t].cut);
  }

  lemma LoadKeeps(s: State, t: nat)
    requires Books(s) && t < |s.pcs| && s.pcs[t].Loading?
    ensures Books(Load(s, t))
  {
    var s' := Load(s, t);
    assert ThreadOk(s, t);
    WeightsUpdate(s.size, s.counts, s.pcs, t, s.size, Idle);
    ThreadsKeep(s, s', t);
    ShelvesKeep(s, s');
  }

  /** Any thread may free any node a caller has: it joins that thread's list. */
  lemma PutKeeps(s: State, t: nat, x: nat)
    requires Books(s) && t < |s.pcs| && s.pcs[t].Idle? && x in s.g.live
    ensures Books(Put(s, t, x))
  {
    var s' := Put(s, t, x);
    assert ThreadOk(s, t);
    WeightsUpdate(s.size, s.counts, s.pcs, t, s.counts[t] + 1, Idle);
    assert s.pcs[t := Idle] == s.pcs;
    ThreadsKeep(s, s', t);
    ShelvesKeep(s, s');
  }

  lemma CutBooks(s: State, s': State, t: nat, a: seq<nat>, b: seq<nat>)
    requires Books(s) && t < |s.pcs| && s.pcs[t].Idle?
    requires a + b == Chain(s.g, Local(t)) && |a| == s.size
    requires s' == s.(mem := s'.mem, tops := s.tops[t := Front(b)], pcs := s'.pcs, g := s'.g)
    requires s'.g == History(s.g.chains[Held(t) := a][Local(t) := b], s'.g.home, s.g.live)
    requires s'.pcs == s.pcs[t := Releasing(Control(a[0], a[|a| - 1]))]
    ensures Books(s')
  {
    assert ThreadOk(s, t);
    MovePc(s, t, s'.pcs[t]);
    ThreadsKeep(s, s', t);
    ShelvesKeep(s, s');
  }

  /** The nodes cut off are a chain of exactly `size`, and more than `size` stay. */
  lemma CutKeeps(s: State, t: nat)
    requires Core(s) && t < |s.pcs| && s.pcs[t].Idle? && s.counts[t] > 2 * s.size
    ensures Core(Cut(s, t)) && |Chain(Cut(s, t).g, Local(t))| == s.counts[t] - s.size
  {
    assert ThreadOk(s, t);
    SplitPoint(s.mem, s.g, Local(t), s.size);
    SplitKeeps(s.mem, s.g, Local(t), Held(t), s.size);
    CutBooks(s, Cut(s, t), t, Chain(s.g, Local(t))[..s.size], Chain(s.g, Local(t))[s.size..]);
  }

  lemma CountKeeps(s: State, t: nat)
    requires Books(s) && t < |s.pcs| && s.pcs[t].Counting?
    ensures Books(s.(released := s.released + 1, pcs := s.pcs[t := Settling]))
  {
    var s' := s.(released := s.released + 1, pcs := s.pcs[t := Settling]);
    assert ThreadOk(s, t);
    WeightsUpdate(s.size, s.counts, s.pcs, t, s.counts[t], Settling);
    assert s.counts[t := s.counts[t]] == s.counts;
    assert (s.released + 1) * s.size == s.released * s.size + s.size;
    ThreadsKeep(s, s', t);
    ShelvesKeep(s, s');
  }

  lemma SettleKeeps(s: State, t: nat)
    requires Books(s) && t < |s.pcs| && s.pcs[t].Settling?
    ensures Books(s.(counts := s.counts[t := s.counts[t] - s.size], pcs := s.pcs[t := Idle]))
  {
    var s' := s.(counts := s.counts[t := s.counts[t] - s.size], pcs := s.pcs[t := Idle]);
    assert ThreadOk(s, t);
    WeightsUpdate(s.size, s.counts, s.pcs, t, s.counts[t] - s.size, Idle);
    ThreadsKeep(s, s', t);
    ShelvesKeep(s, s');
  }

  // ---------------------------------------------------------------- runs

  /** Both pushes of a whole bucket. */
  lemma PushCore(s: State, t: nat, x: nat)
    requires Core(s) && t < |s.pcs| && (s.pcs[t].Pushing? || s.pcs[t].Releasing?)
    ensures Core(Step(s, t, x)) && Chain(Step(s, t, x).g, Local(t)) == Chain(s.g, Local(t))
  {
    assert ThreadOk(s, t) && ShelfOk(s, |s.stack|);
    if s.pcs[t].Pushing? {
      PushSpareKeeps(s, t);
      RelabelKeeps(s.mem, s.g, Spare(t), Shelf(|s.stack|));
    } else {
      ReleaseKeeps(s, t);
      RelabelKeeps(s.mem, s.g, Held(t), Shelf(|s.stack|));
    }
  }

  lemma LoadCore(s: State, t: nat)
    requires Core(s) && t < |s.pcs| && s.pcs[t].Loading?
    ensures Core(Load(s, t)) && |Chain(Load(s, t).g, Local(t))| == s.size
  {
    assert ThreadOk(s, t);
    LoadKeeps(s, t);
    RelabelKeeps(s.mem, s.g, Held(t), Local(t));
  }

  lemma FreeCore(s: State, t: nat, x: nat)
    requires Core(s) && Short(s, t) && t < |s.pcs| && s.pcs[t].Idle? && x in s.g.live
    ensures Core(Cut(Put(s, t, x), t)) && Short(Cut(Put(s, t, x), t), t)
  {
    var s1 := Put(s, t, x);
    assert ThreadOk(s, t);
    PutKeeps(s, t, x);
    TakeBackKeeps(s.mem, s.g, Local(t), x);
    assert ThreadOk(s1, t);
    if s1.counts[t] > 2 * s.size {
      CutKeeps(s1, t);
    }
  }

  lemma StepCore(s: State, t: nat, x: nat)
    requires Core(s) && Short(s, t) && t < |s.pcs|
    ensures Core(Step(s, t, x)) && Short(Step(s, t, x), t)
  {
    assert ThreadOk(s, t);
    if s.pcs[t].Idle? {
      if x == 0 && s.counts[t] == 0 {
        AllocKeeps(s, t);
      } else if x == 0 {
        TakeKeeps(s, t);
      } else if x in s.g.live {
        FreeCore(s, t, x);
      }
    } else if s.pcs[t].Loading? {
      LoadCore(s, t);
      TakeKeeps(Load(s, t), t);
    } else if s.pcs[t].Popping? {
      PopKeeps(s, t);
    } else if s.pcs[t].Making? {
      MakeStepKeeps(s, t);
    } else if s.pcs[t].Counting? {
      CountKeeps(s, t);
    } else if s.pcs[t].Settling? {
      SettleKeeps(s, t);
    } else {
      PushCore(s, t, x);
    }
  }

  lemma FreeOthers(s: State, t: nat, x: nat, u: nat)
    requires Ranged(s) && u != t && t < |s.pcs|
    ensures Chain(Cut(Put(s, t, x), t).g, Local(u)) == Chain(s.g, Local(u)) && Cut(Put(s, t, x), t).size == s.size
  {
    assert Chain(Put(s, t, x).g, Local(u)) == Chain(s.g, Local(u));
  }

  lemma LoadOthers(s: State, t: nat, u: nat)
    requires Ranged(s) && u != t && t < |s.pcs| && s.pcs[t].Loading?
    ensures Chain(Take(Load(s, t), t).g, Local(u)) == Chain(s.g, Local(u)) && Take(Load(s, t), t).size == s.size
  {
    assert Chain(Load(s, t).g, Local(u)) == Chain(s.g, Local(u));
  }

  lemma StepOthers(s: State, t: nat, x: nat, u: nat)
    requires Ranged(s) && u != t && t < |s.pcs|
    ensures Chain(Step(s, t, x).g, Local(u)) == Chain(s.g, Local(u)) && Step(s, t, x).size == s.size
  {
    if s.pcs[t].Idle? {
      FreeOthers(s, t, x, u);
    } else if s.pcs[t].Loading? {
      LoadOthers(s, t, u);
    }
  }

  /** Every step of every thread keeps the invariant. */
  lemma StepInv(s: State, t: nat, x: nat)
    requires Inv(s)
    ensures Inv(Step(s, t, x))
  {
    if t < |s.pcs| {
      assert Short(s, t);
      StepCore(s, t, x);
      forall u: nat
        ensures Short(Step(s, t, x), u)
      {
        assert Short(s, u);
        if u != t {
          StepOthers(s, t, x, u);
        }
      }
    }
  }

  lemma {:induction false} RunInv(s: State, sched: seq<(nat, nat)>)
    requires Inv(s)
    ensures Inv(Run(s, sched))
    decreases |sched|
  {
    if sched != [] {
      StepInv(s, sched[0].0, sched[0].1);
      RunInv(Step(s, sched[0].0, sched[0].1), sched[1..]);
    }
  }

  lemma {:induction false} NoWeights(size: nat, threads: nat)
    ensures Weights(size, seq(threads, _ => 0), seq(threads, _ => Idle)) == 0
  {
    if threads > 0 {
      var counts: seq<int>, pcs: seq<Pc> := seq(threads, _ => 0), seq(threads, _ => Idle);
      assert counts[1..] == seq(threads - 1, _ => 0) && pcs[1..] == seq(threads - 1, _ => Idle);
      NoWeights(size, threads - 1);
    }
  }

  lemma EmptyInv(threads: nat, size: nat)
    requires size >= 1
    ensures Inv(Empty(threads, size))
  {
    NoWeights(size, threads);
  }

  lemma StockBooks(s: State, s': State, c: seq<nat>, control: Control)
    requires Books(s) && s' == s.(mem := s'.mem, stack := s.stack + [control], g := s'.g)
    requires s'.g == History(s.g.chains[Shelf(|s.stack|) := c], s'.g.home, s.g.live)
    requires IsBucket(c, control, s.size)
    ensures Books(s')
  {
    forall t | 0 <= t < |s.pcs|
      ensures ThreadOk(s', t)
    {
      assert ThreadOk(s, t);
    }
    forall k: nat
      ensures ShelfOk(s', k)
    {
      assert ShelfOk(s, k);
    }
  }

  lemma StockInv(s: State)
    requires Inv(s)
    ensures Inv(Stock(s))
  {
    assert ShelfOk(s, |s.stack|);
    MakeKeeps(s.mem, s.g, s.size, Shelf(|s.stack|));
    StockBooks(s, Stock(s), FreshChain(s.mem, s.size), Fresh(s.mem, s.size).1);
    forall t: nat
      ensures Short(Stock(s), t)
    {
      assert Short(s, t);
    }
  }

  lemma {:induction false} InitInv(threads: nat, size: nat, multiplier: nat)
    requires size >= 1
    ensures Inv(Init(threads, size, multiplier))
  {
    if multiplier == 0 {
      EmptyInv(threads, size);
    } else {
      InitInv(threads, size, multiplier - 1);
      StockInv(Init(threads, size, multiplier - 1));
    }
  }

  function Sum(s: seq<int>): int {
    if s == [] then 0 else s[0] + Sum(s[1..])
  }

  lemma {:induction false} QuietWeights(size: nat, counts: seq<int>, pcs: seq<Pc>)
    requires |counts| == |pcs| && forall t :: 0 <= t < |pcs| ==> pcs[t].Idle?
    ensures Weights(size, counts, pcs) == Sum(counts)
  {
    if counts != [] {
      QuietWeights(size, counts[1..], pcs[1..]);
    }
  }

  ghost predicate BucketsWhole(s: State) {
    forall k :: 0 <= k < |s.stack| && s.size >= 1 ==>
      && IsList(s.mem.tail, s.stack[k].front, s.size)
      && Walk(s.mem.tail, s.stack[k].front, s.size - 1) == s.stack[k].end
  }

  ghost predicate ListsCounted(s: State)
    requires Ranged(s)
  {
    forall t :: 0 <= t < |s.pcs| && s.pcs[t].Idle? ==>
      0 <= s.counts[t] <= 2 * s.size && IsList(s.mem.tail, s.tops[t], s.counts[t])
  }

  predicate Quiet(s: State) {
    forall t :: 0 <= t < |s.pcs| ==> s.pcs[t].Idle?
  }

  lemma InvBuckets(s: State)
    requires Inv(s)
    ensures BucketsWhole(s)
  {
    forall k | 0 <= k < |s.stack|
      ensures IsList(s.mem.tail, s.stack[k].front, s.size)
      ensures Walk(s.mem.tail, s.stack[k].front, s.size - 1) == s.stack[k].end
    {
      assert ShelfOk(s, k) && ChainOk(s.mem, s.g, Shelf(k));
      ChainIsList(s.mem, s.g, Shelf(k));
      WalkChain(s.mem, s.g, Shelf(k), s.size - 1);
    }
  }

  lemma InvLists(s: State)
    requires Inv(s)
    ensures ListsCounted(s)
  {
    forall t | 0 <= t < |s.pcs| && s.pcs[t].Idle?
      ensures 0 <= s.counts[t] <= 2 * s.size && IsList(s.mem.tail, s.tops[t], s.counts[t])
    {
      assert ThreadOk(s, t) && Short(s, t);
      ChainIsList(s.mem, s.g, Local(t));
    }
  }

  /** Every bucket is a list of exactly `size` nodes that ends where its control block says; an idle
      thread's list has `_objectCount` nodes, at most twice `size`; the fallback of the local pool was never
      used; and when nobody is inside a call, the buckets acquired and not released (AllocatedCount) account
      exactly for the nodes with callers and the nodes cached in local lists. */
  ghost predicate Conserved(s: State) {
    && Ranged(s) && s.fallbacks == 0 && BucketsWhole(s) && ListsCounted(s)
    && (Quiet(s) ==> (s.acquired - s.released) * s.size == |s.g.live| + Sum(s.counts))
  }

  lemma QuietBalance(s: State)
    requires Ranged(s) && Balanced(s) && Quiet(s)
    ensures (s.acquired - s.released) * s.size == |s.g.live| + Sum(s.counts)
  {
    QuietWeights(s.size, s.counts, s.pcs);
    assert (s.acquired - s.released) * s.size == s.acquired * s.size - s.released * s.size;
  }

  lemma InvConserves(s: State)
    requires Inv(s)
    ensures Conserved(s)
  {
    InvBuckets(s);
    InvLists(s);
    if Quiet(s) {
      QuietBalance(s);
    }
  }

  /** The books balance in every state of every run of any number of threads, whoever frees what. */
  lemma PoolConserves(start: State, threads: nat, size: nat, multiplier: nat, sched: seq<(nat, nat)>)
    requires size >= 1 && start == Init(threads, size, multiplier)
    ensures Conserved(Run(start, sched)) && Run(start, sched).size == size
  {
    InitInv(threads, size, multiplier);
    RunInv(start, sched);
    RunSize(start, sched);
    InvConserves(Run(start, sched));
  }

  lemma {:induction false} RunSize(s: State, sched: seq<(nat, nat)>)
    requires Ranged(s)
    ensures Run(s, sched).size == s.size
    decreases |sched|
  {
    if sched != [] {
      RunSize(Step(s, sched[0].0, sched[0].1), sched[1..]);
    }
  }

  /** Every address Alloc returns, in whatever thread, is one that no caller has at that moment. */
  lemma AllocGivesUnused(s: State, t: nat, x: nat)
    requires Inv(s)
    ensures
      var s' := Step(s, t, x);
      s'.given != s.given ==>
        && s'.given == s.given + [s'.given[|s'.given| - 1]]
        && s'.given[|s'.given| - 1] !in s.g.live
        && s'.g.live == s.g.live + {s'.given[|s'.given| - 1]}
  {
    if t < |s.pcs| {
      assert ThreadOk(s, t);
      if s.pcs[t].Loading? {
        LoadCore(s, t);
        TakeKeeps(Load(s, t), t);
        assert ThreadOk(Load(s, t), t);
      } else if s.pcs[t].Idle? && x == 0 && s.counts[t] != 0 {
        TakeKeeps(s, t);
      }
    }
  }
}

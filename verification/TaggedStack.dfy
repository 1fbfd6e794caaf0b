/** `LockFreeStack` on top of `MultiThreadObjectPool` (include/LockFreeStack.h,
    include/MultiThreadObjectPool.h, include/LockFreeData.h).

    Both are linked lists whose top word holds a pointer and a 17-bit tag that every push raises. A stack
    node lives inside a pool node, so it has two link fields, and it is recycled: popped off the stack, put
    on the pool's free list, handed out again and rewritten while other threads still look at it.
    Each read, write and compare-exchange is one step of one thread. */
module TaggedStack {
  import opened Agents
  import opened Wrappers

  const TAGS := 0x2_0000                  // 2^17
  const INDEX_INC := 0x8000_0000_0000     // 2^47
  const WORD := 0x1_0000_0000_0000_0000   // 2^64

  type Data = int

  /** The top word, unpacked. */
  datatype Word = Word(ptr: nat, tag: nat)

  /** The 64-bit value in memory. The masks take a value modulo 2^47, or that part away. */
  function Pack(w: Word): nat {
    w.ptr + w.tag * INDEX_INC
  }

  predicate Packable(w: Word) {
    w.ptr < INDEX_INC && w.tag < TAGS
  }

  lemma PackSplits(w: Word)
    requires Packable(w)
    ensures Pack(w) < WORD && Pack(w) % INDEX_INC == w.ptr && Pack(w) / INDEX_INC == w.tag
  {
  }

  /** Comparing packed words is comparing pointer and tag. */
  lemma PackInjective(v: Word, w: Word)
    requires Packable(v) && Packable(w) && Pack(v) == Pack(w)
    ensures v == w
  {
    PackSplits(v);
    PackSplits(w);
  }

  /** `node | ((top + indexInc) & indexMask)` in 64-bit arithmetic. */
  lemma PushWord(node: nat, top: Word)
    requires Packable(top) && node < INDEX_INC
    ensures
      var sum := (Pack(top) + INDEX_INC) % WORD;
      node + (sum - sum % INDEX_INC) == Pack(Word(node, (top.tag + 1) % TAGS))
  {
    var sum := (Pack(top) + INDEX_INC) % WORD;
    if top.tag + 1 == TAGS {
      assert Pack(top) + INDEX_INC == WORD + top.ptr;
      PackSplits(Word(top.ptr, 0));
    } else {
      assert sum == Pack(Word(top.ptr, top.tag + 1));
      PackSplits(Word(top.ptr, top.tag + 1));
    }
  }

  /** `next | (top & indexMask)`. */
  lemma PopWord(next: nat, top: Word)
    requires Packable(top) && next < INDEX_INC
    ensures next + (Pack(top) - Pack(top) % INDEX_INC) == Pack(Word(next, top.tag))
  {
    PackSplits(top);
  }

  /** A tagged list: its top word and the link field of every node. `chain` and `pushes` are history:
      the nodes on the list, and how many pushes have succeeded. */
  datatype List = List(top: Word, link: map<nat, nat>, chain: seq<nat>, pushes: nat)

  /** The compare-exchange of a pop, with the word and the link it read before. */
  function TryPop(l: List, snap: Word, nx: nat): List {
    if l.top == snap then
      l.(top := Word(nx, snap.tag), chain := if l.chain == [] then [] else l.chain[1..])
    else l
  }

  /** The compare-exchange of a push. */
  function TryPush(l: List, snap: Word, node: nat): List {
    if l.top == snap then
      l.(top := Word(node, (snap.tag + 1) % TAGS), chain := [node] + l.chain, pushes := l.pushes + 1)
    else l
  }

  function SetLink(l: List, node: nat, nx: nat): List {
    l.(link := l.link[node := nx])
  }

  datatype Event = Pushed(d: Data) | Popped(d: Data) | FoundEmpty

  /** Shared memory. `log` is history: the operations in the order in which they took effect. */
  datatype Memory = Memory(pool: List, stack: List, data: map<nat, Data>, log: seq<Event>)

  datatype Pc =
    | Idle
    | AllocRead(d: Data)                                // Push: Alloc, before reading the pool's top
    | AllocNext(d: Data, snap: Word, n: nat)            // before reading topNode->next
    | AllocCas(d: Data, snap: Word, nx: nat, n: nat)
    | SetData(d: Data, node: nat)                       // before node->data = data
    | PushRead(d: Data, node: nat)                      // before reading _top
    | PushLink(d: Data, node: nat, snap: Word)          // before node->next = top
    | PushCas(d: Data, node: nat, snap: Word)
    | PopRead                                           // Pop: before reading _top
    | PopData(snap: Word, n: nat)                       // before data = topNode->data
    | PopNext(snap: Word, n: nat, d: Data)              // before reading topNode->next
    | PopCas(snap: Word, n: nat, d: Data, nx: nat)
    | FreeRead(d: Data, node: nat)                      // Pop: Free, before reading the pool's top
    | FreeLink(d: Data, node: nat, snap: Word)
    | FreeCas(d: Data, node: nat, snap: Word)
    | Returned(d: Data)                                 // Pop returned true with this value

  /** `n` in a program counter is history: the pushes on that list when the word was read. */
  datatype State = State(m: Memory, threads: seq<Pc>)

  datatype Choice = Push(d: Data) | Pop | Fresh(node: nat)

  /** One atomic step of a thread. */
  function Local(m: Memory, pc: Pc, c: Choice): (Memory, Pc) {
    match pc
    case Idle => (m, match c case Push(d) => AllocRead(d) case Pop => PopRead case Fresh(_) => Idle)
    case AllocRead(d) =>
      if m.pool.top.ptr != 0 then (m, AllocNext(d, m.pool.top, m.pool.pushes))
      else if c.Fresh? && 0 < c.node < INDEX_INC && c.node !in m.data then
        (Memory(SetLink(m.pool, c.node, 0), SetLink(m.stack, c.node, 0), m.data[c.node := 0], m.log),
         SetData(d, c.node))
      else (m, pc)
    case AllocNext(d, snap, n) =>
      if snap.ptr !in m.pool.link then (m, pc) else (m, AllocCas(d, snap, m.pool.link[snap.ptr], n))
    case AllocCas(d, snap, nx, n) =>
      if m.pool.top == snap then (m.(pool := TryPop(m.pool, snap, nx)), SetData(d, snap.ptr))
      else (m, AllocRead(d))
    case SetData(d, node) => (m.(data := m.data[node := d]), PushRead(d, node))
    case PushRead(d, node) => (m, PushLink(d, node, m.stack.top))
    case PushLink(d, node, snap) => (m.(stack := SetLink(m.stack, node, snap.ptr)), PushCas(d, node, snap))
    case PushCas(d, node, snap) =>
      if m.stack.top == snap then (m.(stack := TryPush(m.stack, snap, node), log := m.log + [Pushed(d)]), Idle)
      else (m, PushRead(d, node))
    case PopRead =>
      if m.stack.top.ptr == 0 then (m.(log := m.log + [FoundEmpty]), Idle)
      else (m, PopData(m.stack.top, m.stack.pushes))
    case PopData(snap, n) =>
      if snap.ptr !in m.data then (m, pc) else (m, PopNext(snap, n, m.data[snap.ptr]))
    case PopNext(snap, n, d) =>
      if snap.ptr !in m.stack.link then (m, pc) else (m, PopCas(snap, n, d, m.stack.link[snap.ptr]))
    case PopCas(snap, n, d, nx) =>
      if m.stack.top == snap then
        (m.(stack := TryPop(m.stack, snap, nx), log := m.log + [Popped(d)]), FreeRead(d, snap.ptr))
      else (m, PopRead)
    case FreeRead(d, node) => (m, FreeLink(d, node, m.pool.top))
    case FreeLink(d, node, snap) => (m.(pool := SetLink(m.pool, node, snap.ptr)), FreeCas(d, node, snap))
    case FreeCas(d, node, snap) =>
      if m.pool.top == snap then (m.(pool := TryPush(m.pool, snap, node)), Returned(d))
      else (m, FreeRead(d, node))
    case Returned(_) => (m, Idle)
  }

  function Step(s: State, t: nat, c: Choice): State {
    if t >= |s.threads| then s else
    var (m, pc) := Local(s.m, s.threads[t], c);
    State(m, s.threads[t := pc])
  }

  type Schedule = seq<(nat, Choice)>

  function Run(s: State, sched: Schedule): State
    decreases |sched|
  {
    if sched == [] then s else Run(Step(s, sched[0].0, sched[0].1), sched[1..])
  }

  /** A thread that has taken a node off one list and not yet put it on the other. */
  predicate Carries(pc: Pc) {
    pc.SetData? || pc.PushRead? || pc.PushLink? || pc.PushCas? || pc.FreeRead? || pc.FreeLink? || pc.FreeCas?
  }

  predicate Has(pc: Pc, node: nat) {
    Carries(pc) && pc.node == node
  }

  function HasNode(node: nat): Pc -> bool {
    pc => Has(pc, node)
  }

  /** The tag hypothesis: between a thread's reading of a top word and its compare-exchange fewer than
      2^17 pushes succeed on that list. */
  predicate Recent(m: Memory, pc: Pc) {
    match pc
    case AllocNext(_, _, n) => m.pool.pushes - n < TAGS
    case AllocCas(_, _, _, n) => m.pool.pushes - n < TAGS
    case PopData(_, n) => m.stack.pushes - n < TAGS
    case PopNext(_, n, _) => m.stack.pushes - n < TAGS
    case PopCas(_, n, _, _) => m.stack.pushes - n < TAGS
    case _ => true
  }

  predicate AllRecent(s: State) {
    forall t :: 0 <= t < |s.threads| ==> Recent(s.m, s.threads[t])
  }

  predicate RecentAlong(s: State, sched: Schedule)
    decreases |sched|
  {
    AllRecent(s) && (sched == [] || RecentAlong(Step(s, sched[0].0, sched[0].1), sched[1..]))
  }

  /** The chain is what following links from the top word visits, without repetition. */
  predicate ListOk(l: List) {
    && l.top.tag == l.pushes % TAGS
    && l.top.ptr == (if l.chain == [] then 0 else l.chain[0])
    && (forall k :: 0 <= k < |l.chain| ==> l.chain[k] != 0 && l.chain[k] in l.link)
    && (forall k :: 0 <= k < |l.chain| ==> l.link[l.chain[k]] == After(l.chain, k))
    && (forall j, k :: 0 <= j < k < |l.chain| ==> l.chain[j] != l.chain[k])
  }

  function After(chain: seq<nat>, k: nat): nat {
    if k + 1 < |chain| then chain[k + 1] else 0
  }

  /** What a word read `n` pushes into the list's history still says: with no push since, its node is
      the top or has left the list. */
  predicate SnapOk(l: List, snap: Word, n: nat) {
    && snap.ptr != 0 && snap.ptr in l.link
    && n <= l.pushes && snap.tag == n % TAGS
    && (n == l.pushes && snap.ptr in l.chain ==> l.chain[0] == snap.ptr)
  }

  /** ... and while it is the top, the link and the data read from it are still right. */
  predicate StillTop(l: List, snap: Word, n: nat) {
    n == l.pushes && l.chain != [] && l.chain[0] == snap.ptr
  }

  predicate ThreadOk(m: Memory, pc: Pc) {
    match pc
    case AllocNext(_, snap, n) => SnapOk(m.pool, snap, n)
    case AllocCas(_, snap, nx, n) =>
      SnapOk(m.pool, snap, n) && (StillTop(m.pool, snap, n) ==> nx == After(m.pool.chain, 0))
    case PopData(snap, n) => SnapOk(m.stack, snap, n)
    case PopNext(snap, n, d) =>
      SnapOk(m.stack, snap, n) && (StillTop(m.stack, snap, n) ==> snap.ptr in m.data && d == m.data[snap.ptr])
    case PopCas(snap, n, d, nx) =>
      && SnapOk(m.stack, snap, n)
      && (StillTop(m.stack, snap, n) ==>
           snap.ptr in m.data && d == m.data[snap.ptr] && nx == After(m.stack.chain, 0))
    case PushRead(d, node) => node in m.data && m.data[node] == d
    case PushLink(d, node, snap) => node in m.data && m.data[node] == d && Packable(snap)
    case PushCas(d, node, snap) =>
      && node in m.data && m.data[node] == d && node in m.stack.link && m.stack.link[node] == snap.ptr
      && Packable(snap)
    case FreeLink(_, _, snap) => Packable(snap)
    case FreeCas(_, node, snap) => node in m.pool.link && m.pool.link[node] == snap.ptr && Packable(snap)
    case _ => true
  }

  /** Places a node is in: the pool's free list, the stack, or the hands of threads. */
  ghost function Places(s: State, node: nat): nat {
    Bit(node in s.m.pool.chain) + Bit(node in s.m.stack.chain) + Count(s.threads, HasNode(node))
  }

  ghost predicate Inv(s: State) {
    && ListOk(s.m.pool) && ListOk(s.m.stack)
    && s.m.pool.link.Keys == s.m.stack.link.Keys == s.m.data.Keys
    && 0 !in s.m.data && (forall x :: x in s.m.data ==> x < INDEX_INC)
    && (forall node :: Places(s, node) == Bit(node in s.m.data))
    && (forall t :: 0 <= t < |s.threads| ==> ThreadOk(s.m, s.threads[t]))
    && Replay(s.m.log) == Some(Abstract(s.m))
  }

  /** The stack of values: data of the chained nodes, top first. */
  function Abstract(m: Memory): seq<Data> {
    Values(m.data, m.stack.chain)
  }

  function Values(data: map<nat, Data>, chain: seq<nat>): (r: seq<Data>)
    ensures |r| == |chain|
  {
    if chain == [] then [] else [if chain[0] in data then data[chain[0]] else 0] + Values(data, chain[1..])
  }

  /** A sequential stack run on the logged operations: None once an operation does not fit. */
  function Replay(log: seq<Event>): Option<seq<Data>> {
    if log == [] then Some([]) else
      var before := Replay(log[..|log| - 1]);
      if before.None? then None else Apply(before.value, log[|log| - 1])
  }

  function Apply(stack: seq<Data>, e: Event): Option<seq<Data>> {
    match e
    case Pushed(d) => Some([d] + stack)
    case Popped(d) => if stack != [] && stack[0] == d then Some(stack[1..]) else None
    case FoundEmpty => if stack == [] then Some(stack) else None
  }

  // ---------------------------------------------------------------- one list

  /** Fewer than 2^17 pushes apart, equal tags mean no push at all. */
  lemma SameTag(n: nat, pushes: nat)
    requires n <= pushes < n + TAGS && n % TAGS == pushes % TAGS
    ensures n == pushes
  {
  }

  /** A successful exchange of a pop found the list exactly as it was when the word was read. */
  lemma PopFindsTop(l: List, snap: Word, n: nat)
    requires ListOk(l) && SnapOk(l, snap, n) && l.pushes - n < TAGS && l.top == snap
    ensures StillTop(l, snap, n)
  {
    SameTag(n, l.pushes);
  }

  lemma PopKeepsList(l: List, snap: Word, nx: nat)
    requires ListOk(l) && l.top == snap && l.chain != [] && nx == After(l.chain, 0)
    ensures ListOk(TryPop(l, snap, nx))
  {
    var rest := l.chain[1..];
    forall k | 0 <= k < |rest|
      ensures l.link[rest[k]] == After(rest, k)
    {
      assert rest[k] == l.chain[k + 1];
    }
  }

  lemma PushKeepsLinks(l: List, node: nat)
    requires ListOk(l) && node !in l.chain && node != 0 && node in l.link && l.link[node] == l.top.ptr
    ensures
      var chain := [node] + l.chain;
      && (forall k :: 0 <= k < |chain| ==> chain[k] != 0 && chain[k] in l.link)
      && (forall k :: 0 <= k < |chain| ==> l.link[chain[k]] == After(chain, k))
      && (forall j, k :: 0 <= j < k < |chain| ==> chain[j] != chain[k])
  {
    var chain := [node] + l.chain;
    assert forall k :: 0 < k < |chain| ==> chain[k] == l.chain[k - 1];
  }

  lemma PushKeepsList(l: List, snap: Word, node: nat)
    requires ListOk(l) && l.top == snap && node !in l.chain && node != 0
    requires node in l.link && l.link[node] == snap.ptr
    ensures ListOk(TryPush(l, snap, node))
  {
    PushKeepsLinks(l, node);
    TagAfterPush(l.pushes);
  }

  lemma TagAfterPush(pushes: nat)
    ensures (pushes % TAGS + 1) % TAGS == (pushes + 1) % TAGS
  {
  }

  lemma LinkKeepsList(l: List, node: nat, nx: nat)
    requires ListOk(l) && node !in l.chain
    ensures ListOk(SetLink(l, node, nx))
  {
  }

  /** Words read earlier keep their meaning when some thread pops... */
  lemma PopKeepsSnap(l: List, snap: Word, nx: nat, other: Word, n: nat)
    requires ListOk(l) && l.top == snap && l.chain != [] && SnapOk(l, other, n)
    ensures SnapOk(TryPop(l, snap, nx), other, n) && !StillTop(TryPop(l, snap, nx), other, n)
  {
    var rest := l.chain[1..];
    if other.ptr in rest {
      var k :| 0 <= k < |rest| && rest[k] == other.ptr;
      assert l.chain[k + 1] == other.ptr;
      assert other.ptr in l.chain;
    }
  }

  /** ... or pushes. */
  lemma PushKeepsSnap(l: List, snap: Word, node: nat, other: Word, n: nat)
    requires l.top == snap && SnapOk(l, other, n)
    ensures SnapOk(TryPush(l, snap, node), other, n) && !StillTop(TryPush(l, snap, node), other, n)
  {
  }

  // ---------------------------------------------------------------- one step

  ghost predicate MemoryOk(m: Memory) {
    && ListOk(m.pool) && ListOk(m.stack)
    && m.pool.link.Keys == m.stack.link.Keys == m.data.Keys
    && 0 !in m.data && (forall x :: x in m.data ==> x < INDEX_INC)
  }

  /** The node in a thread's hands is on neither list. */
  predicate OffLists(m: Memory, pc: Pc) {
    Carries(pc) ==> Loose(m, pc.node)
  }

  predicate Loose(m: Memory, x: nat) {
    x in m.data && x !in m.pool.chain && x !in m.stack.chain
  }

  /** The exact condition on an exchange: if it succeeds, the link, and the value, that were read before are
      those of the node that is on top now. */
  predicate Current(m: Memory, pc: Pc) {
    match pc
    case AllocCas(_, snap, nx, _) => m.pool.top == snap ==> nx == After(m.pool.chain, 0)
    case PopCas(snap, _, d, nx) =>
      m.stack.top == snap ==> nx == After(m.stack.chain, 0) && snap.ptr in m.data && d == m.data[snap.ptr]
    case _ => true
  }

  /** The tag hypothesis implies it. */
  lemma RecentIsCurrent(m: Memory, pc: Pc)
    requires MemoryOk(m) && ThreadOk(m, pc) && Recent(m, pc)
    ensures Current(m, pc)
  {
    if pc.AllocCas? && m.pool.top == pc.snap {
      PopFindsTop(m.pool, pc.snap, pc.n);
    }
    if pc.PopCas? && m.stack.top == pc.snap {
      PopFindsTop(m.stack, pc.snap, pc.n);
    }
  }

  lemma LocalMemory(m: Memory, pc: Pc, c: Choice)
    requires MemoryOk(m) && ThreadOk(m, pc) && Current(m, pc) && OffLists(m, pc)
    ensures MemoryOk(Local(m, pc, c).0)
  {
    match pc
    case AllocRead(d) =>
      if m.pool.top.ptr == 0 && c.Fresh? && 0 < c.node < INDEX_INC && c.node !in m.data {
        LinkKeepsList(m.pool, c.node, 0);
        LinkKeepsList(m.stack, c.node, 0);
      }
    case AllocCas(_, snap, nx, _) =>
      if m.pool.top == snap {
        PopKeepsList(m.pool, snap, nx);
      }
    case PushLink(_, node, snap) => LinkKeepsList(m.stack, node, snap.ptr);
    case PushCas(_, node, snap) =>
      if m.stack.top == snap {
        PushKeepsList(m.stack, snap, node);
      }
    case PopCas(snap, _, _, nx) =>
      if m.stack.top == snap {
        PopKeepsList(m.stack, snap, nx);
      }
    case FreeLink(_, node, snap) => LinkKeepsList(m.pool, node, snap.ptr);
    case FreeCas(_, node, snap) =>
      if m.pool.top == snap {
        PushKeepsList(m.pool, snap, node);
      }
    case _ =>
  }

  lemma HeadOut(chain: seq<nat>, x: nat)
    requires chain != [] && forall j, k :: 0 <= j < k < |chain| ==> chain[j] != chain[k]
    ensures Bit(x in chain) == Bit(x in chain[1..]) + Bit(x == chain[0])
  {
    assert chain == [chain[0]] + chain[1..];
    assert forall k :: 0 <= k < |chain[1..]| ==> chain[1..][k] == chain[k + 1];
  }

  lemma HeadIn(chain: seq<nat>, node: nat, x: nat)
    requires node !in chain
    ensures Bit(x in [node] + chain) == Bit(x in chain) + Bit(x == node)
  {
  }

  /** Node `x` is in as many places after a step as before, unless the step created it. */
  predicate Conserved(m: Memory, pc: Pc, m': Memory, pc': Pc, x: nat) {
    Bit(x in m'.pool.chain) + Bit(x in m'.stack.chain) + Bit(Has(pc', x)) + Bit(x in m.data) ==
    Bit(x in m.pool.chain) + Bit(x in m.stack.chain) + Bit(Has(pc, x)) + Bit(x in m'.data)
  }

  lemma TakingConserves(m: Memory, pc: Pc, c: Choice, x: nat)
    requires MemoryOk(m) && ThreadOk(m, pc) && (pc.AllocCas? || pc.PopCas?)
    ensures Conserved(m, pc, Local(m, pc, c).0, Local(m, pc, c).1, x)
  {
    if pc.AllocCas? && m.pool.top == pc.snap {
      HeadOut(m.pool.chain, x);
    }
    if pc.PopCas? && m.stack.top == pc.snap {
      HeadOut(m.stack.chain, x);
    }
  }

  lemma PuttingConserves(m: Memory, pc: Pc, c: Choice, x: nat)
    requires OffLists(m, pc) && (pc.PushCas? || pc.FreeCas?)
    ensures Conserved(m, pc, Local(m, pc, c).0, Local(m, pc, c).1, x)
  {
    HeadIn(m.stack.chain, pc.node, x);
    HeadIn(m.pool.chain, pc.node, x);
  }

  lemma RestConserves(m: Memory, pc: Pc, c: Choice, x: nat)
    requires OffLists(m, pc) && !pc.AllocCas? && !pc.PopCas? && !pc.PushCas? && !pc.FreeCas?
    ensures Conserved(m, pc, Local(m, pc, c).0, Local(m, pc, c).1, x)
  {
  }

  /** No step creates, loses or duplicates a node. */
  lemma LocalPlaces(m: Memory, pc: Pc, c: Choice, x: nat)
    requires MemoryOk(m) && ThreadOk(m, pc) && OffLists(m, pc)
    ensures Conserved(m, pc, Local(m, pc, c).0, Local(m, pc, c).1, x)
  {
    if pc.AllocCas? || pc.PopCas? {
      TakingConserves(m, pc, c, x);
    } else if pc.PushCas? || pc.FreeCas? {
      PuttingConserves(m, pc, c, x);
    } else {
      RestConserves(m, pc, c, x);
    }
  }

  lemma LocalSelf(m: Memory, pc: Pc, c: Choice)
    requires MemoryOk(m) && ThreadOk(m, pc) && OffLists(m, pc)
    ensures ThreadOk(Local(m, pc, c).0, Local(m, pc, c).1)
  {
  }

  /** No node is in two threads' hands. */
  predicate Apart(pc: Pc, other: Pc) {
    Carries(pc) ==> !Has(other, pc.node)
  }

  lemma PoolStepKeepsOther(m: Memory, pc: Pc, c: Choice, other: Pc)
    requires MemoryOk(m) && ThreadOk(m, pc) && OffLists(m, pc) && (pc.AllocCas? || pc.FreeCas?)
    requires ThreadOk(m, other)
    ensures ThreadOk(Local(m, pc, c).0, other)
  {
    if pc.AllocCas? && m.pool.top == pc.snap && (other.AllocNext? || other.AllocCas?) {
      PopKeepsSnap(m.pool, pc.snap, pc.nx, other.snap, other.n);
    }
    if pc.FreeCas? && m.pool.top == pc.snap && (other.AllocNext? || other.AllocCas?) {
      PushKeepsSnap(m.pool, pc.snap, pc.node, other.snap, other.n);
    }
  }

  lemma StackStepKeepsOther(m: Memory, pc: Pc, c: Choice, other: Pc)
    requires MemoryOk(m) && ThreadOk(m, pc) && OffLists(m, pc) && (pc.PopCas? || pc.PushCas?)
    requires ThreadOk(m, other)
    ensures ThreadOk(Local(m, pc, c).0, other)
  {
    if pc.PopCas? && m.stack.top == pc.snap && (other.PopData? || other.PopNext? || other.PopCas?) {
      PopKeepsSnap(m.stack, pc.snap, pc.nx, other.snap, other.n);
    }
    if pc.PushCas? && m.stack.top == pc.snap && (other.PopData? || other.PopNext? || other.PopCas?) {
      PushKeepsSnap(m.stack, pc.snap, pc.node, other.snap, other.n);
    }
  }

  /** Reads, writes to a node in one's own hands, and new nodes disturb nobody. */
  lemma RestKeepsOther(m: Memory, pc: Pc, c: Choice, other: Pc)
    requires MemoryOk(m) && OffLists(m, pc) && !pc.AllocCas? && !pc.PopCas? && !pc.PushCas? && !pc.FreeCas?
    requires ThreadOk(m, other) && OffLists(m, other) && Apart(pc, other)
    ensures ThreadOk(Local(m, pc, c).0, other)
  {
  }

  lemma LocalOther(m: Memory, pc: Pc, c: Choice, other: Pc)
    requires MemoryOk(m) && ThreadOk(m, pc) && OffLists(m, pc)
    requires ThreadOk(m, other) && OffLists(m, other) && Apart(pc, other)
    ensures ThreadOk(Local(m, pc, c).0, other)
  {
    if pc.AllocCas? || pc.FreeCas? {
      PoolStepKeepsOther(m, pc, c, other);
    } else if pc.PopCas? || pc.PushCas? {
      StackStepKeepsOther(m, pc, c, other);
    } else {
      RestKeepsOther(m, pc, c, other);
    }
  }

  // ---------------------------------------------------------------- the abstract stack

  lemma {:induction false} ValuesFrame(data: map<nat, Data>, node: nat, d: Data, chain: seq<nat>)
    requires node !in chain
    ensures Values(data[node := d], chain) == Values(data, chain)
  {
    if chain != [] {
      ValuesFrame(data, node, d, chain[1..]);
    }
  }

  lemma ReplayAppend(log: seq<Event>, e: Event)
    ensures Replay(log + [e]) == (if Replay(log).None? then None else Apply(Replay(log).value, e))
  {
    assert (log + [e])[..|log|] == log;
  }

  /** A successful exchange of Push is an atomic push of the value that was given. */
  lemma PushLinearizes(m: Memory, pc: Pc, c: Choice)
    requires ThreadOk(m, pc) && pc.PushCas? && Replay(m.log) == Some(Abstract(m))
    ensures
      var m' := Local(m, pc, c).0;
      && Replay(m'.log) == Some(Abstract(m'))
      && (m.stack.top == pc.snap ==> Abstract(m') == [pc.d] + Abstract(m))
  {
    if m.stack.top == pc.snap {
      ReplayAppend(m.log, Pushed(pc.d));
      assert ([pc.node] + m.stack.chain)[1..] == m.stack.chain;
    }
  }

  /** A successful exchange of Pop is an atomic pop, and the value Pop goes on to return is the one that
      was on top. */
  lemma PopLinearizes(m: Memory, pc: Pc, c: Choice)
    requires MemoryOk(m) && ThreadOk(m, pc) && Current(m, pc) && pc.PopCas? && Replay(m.log) == Some(Abstract(m))
    ensures
      var (m', pc') := Local(m, pc, c);
      && Replay(m'.log) == Some(Abstract(m'))
      && (m.stack.top == pc.snap ==> pc'.FreeRead? && Abstract(m) == [pc'.d] + Abstract(m'))
  {
    if m.stack.top == pc.snap {
      ReplayAppend(m.log, Popped(pc.d));
      assert Values(m.data, m.stack.chain)[1..] == Values(m.data, m.stack.chain[1..]);
    }
  }

  /** Only a Pop that finds nothing is an event of its own. */
  lemma RestFrame(m: Memory, pc: Pc, c: Choice)
    requires !pc.PushCas? && !pc.PopCas?
    ensures
      var (m', pc') := Local(m, pc, c);
      && m'.stack.chain == m.stack.chain
      && m'.log == (if pc.PopRead? && pc'.Idle? then m.log + [FoundEmpty] else m.log)
      && (pc.PopRead? && pc'.Idle? ==> m.stack.top.ptr == 0)
  {
  }

  lemma RestValues(m: Memory, pc: Pc, c: Choice)
    requires MemoryOk(m) && OffLists(m, pc) && !pc.PushCas? && !pc.PopCas?
    ensures Values(Local(m, pc, c).0.data, m.stack.chain) == Abstract(m)
  {
    if pc.AllocRead? && c.Fresh? && c.node !in m.data {
      assert c.node !in m.stack.chain;
      ValuesFrame(m.data, c.node, 0, m.stack.chain);
    }
    if pc.SetData? {
      ValuesFrame(m.data, pc.node, pc.d, m.stack.chain);
    }
  }

  /** Every other step leaves the values on the stack as they are; a Pop that finds nothing finds the
      stack empty. */
  lemma RestLinearizes(m: Memory, pc: Pc, c: Choice)
    requires MemoryOk(m) && OffLists(m, pc) && !pc.PushCas? && !pc.PopCas? && Replay(m.log) == Some(Abstract(m))
    ensures
      var m' := Local(m, pc, c).0;
      && Replay(m'.log) == Some(Abstract(m'))
      && Abstract(m') == Abstract(m)
      && (pc.PopRead? && Local(m, pc, c).1.Idle? ==> Abstract(m) == [])
  {
    RestFrame(m, pc, c);
    RestValues(m, pc, c);
    if pc.PopRead? && Local(m, pc, c).1.Idle? {
      ReplayAppend(m.log, FoundEmpty);
    }
  }

  /** Every step leaves the logged history explaining the values on the stack. */
  lemma LocalLinearizes(m: Memory, pc: Pc, c: Choice)
    requires MemoryOk(m) && ThreadOk(m, pc) && Current(m, pc) && OffLists(m, pc)
    requires Replay(m.log) == Some(Abstract(m))
    ensures var m' := Local(m, pc, c).0; Replay(m'.log) == Some(Abstract(m'))
  {
    if pc.PushCas? {
      PushLinearizes(m, pc, c);
    } else if pc.PopCas? {
      PopLinearizes(m, pc, c);
    } else {
      RestLinearizes(m, pc, c);
    }
  }

  // ---------------------------------------------------------------- whole runs

  lemma Holding(s: State, t: nat)
    requires Inv(s) && t < |s.threads|
    ensures OffLists(s.m, s.threads[t])
  {
    var pc := s.threads[t];
    if Carries(pc) {
      CountOne(s.threads, t, HasNode(pc.node));
      assert Places(s, pc.node) == Bit(pc.node in s.m.data);
    }
  }

  lemma HoldingApart(s: State, t: nat, u: nat)
    requires Inv(s) && t < |s.threads| && u < |s.threads| && t != u
    ensures Apart(s.threads[t], s.threads[u])
  {
    var pc := s.threads[t];
    if Carries(pc) {
      assert Places(s, pc.node) == Bit(pc.node in s.m.data);
      if Has(s.threads[u], pc.node) {
        CountTwo(s.threads, t, u, HasNode(pc.node));
      }
    }
  }

  lemma StepPlaces(s: State, t: nat, c: Choice, x: nat)
    requires Inv(s) && t < |s.threads| && Current(s.m, s.threads[t])
    ensures Places(Step(s, t, c), x) == Bit(x in Step(s, t, c).m.data)
  {
    Holding(s, t);
    assert Places(s, x) == Bit(x in s.m.data);
    LocalPlaces(s.m, s.threads[t], c, x);
    CountMove(s.threads, t, Step(s, t, c).threads[t], HasNode(x));
  }

  lemma StepThread(s: State, t: nat, c: Choice, u: nat)
    requires Inv(s) && t < |s.threads| && u < |s.threads| && Current(s.m, s.threads[t])
    ensures ThreadOk(Step(s, t, c).m, Step(s, t, c).threads[u])
  {
    Holding(s, t);
    if u == t {
      LocalSelf(s.m, s.threads[t], c);
    } else {
      Holding(s, u);
      HoldingApart(s, t, u);
      LocalOther(s.m, s.threads[t], c, s.threads[u]);
    }
  }

  lemma StepInv(s: State, t: nat, c: Choice)
    requires Inv(s) && (t < |s.threads| ==> Current(s.m, s.threads[t]))
    ensures Inv(Step(s, t, c))
  {
    if t < |s.threads| {
      var s' := Step(s, t, c);
      Holding(s, t);
      LocalMemory(s.m, s.threads[t], c);
      LocalLinearizes(s.m, s.threads[t], c);
      forall x
        ensures Places(s', x) == Bit(x in s'.m.data)
      {
        StepPlaces(s, t, c, x);
      }
      forall u | 0 <= u < |s'.threads|
        ensures ThreadOk(s'.m, s'.threads[u])
      {
        StepThread(s, t, c, u);
      }
    }
  }

  lemma {:induction false} RunInv(s: State, sched: Schedule)
    requires Inv(s) && RecentAlong(s, sched)
    ensures Inv(Run(s, sched))
    decreases |sched|
  {
    if sched != [] {
      if sched[0].0 < |s.threads| {
        RecentIsCurrent(s.m, s.threads[sched[0].0]);
      }
      StepInv(s, sched[0].0, sched[0].1);
      RunInv(Step(s, sched[0].0, sched[0].1), sched[1..]);
    }
  }

  /** A stack and its pool as constructed: some nodes on the free list, none on the stack. */
  ghost predicate Initial(s: State) {
    && s.m.stack.top == Word(0, 0) && s.m.stack.chain == [] && s.m.stack.pushes == 0
    && s.m.pool.top.tag == 0 && s.m.pool.pushes == 0 && ListOk(s.m.pool)
    && s.m.pool.link.Keys == s.m.stack.link.Keys == s.m.data.Keys
    && (forall x :: x in s.m.data <==> x in s.m.pool.chain) && (forall x :: x in s.m.data ==> x < INDEX_INC)
    && s.m.log == []
    && (forall t :: 0 <= t < |s.threads| ==> s.threads[t] == Idle)
  }

  lemma InitInv(s: State)
    requires Initial(s)
    ensures Inv(s)
  {
    assert ListOk(s.m.stack);
    assert 0 !in s.m.pool.chain && 0 !in s.m.data;
    assert Abstract(s.m) == [] && Replay([]) == Some([]);
    forall x
      ensures Places(s, x) == Bit(x in s.m.data)
    {
      CountZero(s.threads, HasNode(x));
    }
  }

  /** Linearizability: in every interleaving, a sequential stack that executes the operations in the
      order of their exchanges accepts them all, with the values the pops return, and holds the values
      that are on the list. */
  lemma Linearizable(s: State, sched: Schedule)
    requires Initial(s) && RecentAlong(s, sched)
    ensures var t := Run(s, sched); Replay(t.m.log) == Some(Abstract(t.m))
  {
    InitInv(s);
    RunInv(s, sched);
  }

  /** Ownership through both layers: in every interleaving each node that exists is in exactly one of the
      pool's free list, the stack, or the hands of one thread. */
  lemma NodeOwnership(s: State, sched: Schedule, node: nat)
    requires Initial(s) && RecentAlong(s, sched)
    ensures
      var t := Run(s, sched);
      Bit(node in t.m.pool.chain) + Bit(node in t.m.stack.chain) + Count(t.threads, HasNode(node)) ==
      Bit(node in t.m.data)
  {
    InitInv(s);
    RunInv(s, sched);
    assert Places(Run(s, sched), node) == Bit(node in Run(s, sched).m.data);
  }

  /** The two top words. */
  function Top(m: Memory, pc: Pc): Word {
    if pc.AllocNext? || pc.AllocCas? || pc.FreeLink? || pc.FreeCas? then m.pool.top else m.stack.top
  }

  predicate HoldsWord(pc: Pc) {
    || pc.AllocNext? || pc.AllocCas? || pc.PushLink? || pc.PushCas? || pc.PopData? || pc.PopNext? || pc.PopCas?
    || pc.FreeLink? || pc.FreeCas?
  }

  lemma TopsFit(m: Memory)
    requires MemoryOk(m)
    ensures Packable(m.pool.top) && Packable(m.stack.top)
  {
    assert m.pool.chain != [] ==> m.pool.chain[0] in m.pool.link.Keys;
    assert m.stack.chain != [] ==> m.stack.chain[0] in m.stack.link.Keys;
  }

  lemma SnapFits(l: List, snap: Word, n: nat)
    requires SnapOk(l, snap, n) && forall x :: x in l.link.Keys ==> x < INDEX_INC
    ensures Packable(snap)
  {
  }

  lemma HeldFits(m: Memory, pc: Pc)
    requires MemoryOk(m) && ThreadOk(m, pc) && HoldsWord(pc)
    ensures Packable(pc.snap)
  {
    if pc.AllocNext? || pc.AllocCas? {
      SnapFits(m.pool, pc.snap, pc.n);
    } else if pc.PopData? || pc.PopNext? || pc.PopCas? {
      SnapFits(m.stack, pc.snap, pc.n);
    }
  }

  lemma WordsCompare(m: Memory, pc: Pc)
    requires MemoryOk(m) && ThreadOk(m, pc) && HoldsWord(pc)
    ensures Packable(Top(m, pc)) && Packable(pc.snap)
    ensures Pack(Top(m, pc)) == Pack(pc.snap) <==> Top(m, pc) == pc.snap
  {
    TopsFit(m);
    HeldFits(m, pc);
    if Pack(Top(m, pc)) == Pack(pc.snap) {
      PackInjective(Top(m, pc), pc.snap);
    }
  }

  /** On every run the words of the lists and those that threads have read fit into 64 bits, so that an exchange
      that compares the 64-bit values compares pointer and tag. */
  lemma ExchangeComparesWords(s: State, sched: Schedule, t: nat)
    requires Initial(s) && RecentAlong(s, sched)
    requires t < |Run(s, sched).threads| && HoldsWord(Run(s, sched).threads[t])
    ensures
      var m, pc := Run(s, sched).m, Run(s, sched).threads[t];
      && Packable(Top(m, pc)) && Packable(pc.snap)
      && (Pack(Top(m, pc)) == Pack(pc.snap) <==> Top(m, pc) == pc.snap)
  {
    InitInv(s);
    RunInv(s, sched);
    WordsCompare(Run(s, sched).m, Run(s, sched).threads[t]);
  }

  // ---------------------------------------------------------------- the exact condition

  lemma StaleAlloc(m: Memory, pc: Pc, c: Choice)
    requires pc.AllocCas? && ListOk(m.pool) && SnapOk(m.pool, pc.snap, pc.n) && !Current(m, pc)
    ensures !ListOk(Local(m, pc, c).0.pool)
  {
    assert Local(m, pc, c).0.pool.top.ptr == pc.nx;
  }

  lemma StalePop(m: Memory, pc: Pc, c: Choice)
    requires pc.PopCas? && MemoryOk(m) && SnapOk(m.stack, pc.snap, pc.n) && !Current(m, pc)
    requires pc.snap.ptr in m.data && Replay(m.log) == Some(Abstract(m))
    ensures !ListOk(Local(m, pc, c).0.stack) || Replay(Local(m, pc, c).0.log).None?
  {
    assert Local(m, pc, c).0.stack.top.ptr == pc.nx;
    ReplayAppend(m.log, Popped(pc.d));
  }

  /** An exchange on something that has changed leaves a broken list, or a pop of the wrong value. */
  lemma StaleBreaks(s: State, t: nat, c: Choice)
    requires Inv(s) && t < |s.threads| && !Current(s.m, s.threads[t])
    ensures !Inv(Step(s, t, c))
  {
    var m, pc := s.m, s.threads[t];
    assert ThreadOk(m, pc);
    if pc.PopCas? {
      StalePop(m, pc, c);
    } else {
      StaleAlloc(m, pc, c);
    }
  }

  ghost predicate InvAlong(s: State, sched: Schedule)
    decreases |sched|
  {
    Inv(s) && (sched != [] ==> InvAlong(Step(s, sched[0].0, sched[0].1), sched[1..]))
  }

  predicate CurrentAlong(s: State, sched: Schedule)
    decreases |sched|
  {
    sched != [] ==>
      && (sched[0].0 < |s.threads| ==> Current(s.m, s.threads[sched[0].0]))
      && CurrentAlong(Step(s, sched[0].0, sched[0].1), sched[1..])
  }

  lemma {:induction false} RunExact(s: State, sched: Schedule)
    requires Inv(s)
    ensures InvAlong(s, sched) <==> CurrentAlong(s, sched)
    decreases |sched|
  {
    if sched != [] {
      var t, c := sched[0].0, sched[0].1;
      if t >= |s.threads| || Current(s.m, s.threads[t]) {
        StepInv(s, t, c);
        RunExact(Step(s, t, c), sched[1..]);
      } else {
        StaleBreaks(s, t, c);
      }
    }
  }

  /** Linearizability and ownership hold all along a run if and only if every successful exchange of a pop
      finds what it read before. */
  lemma CurrentIsExact(s: State, sched: Schedule)
    requires Initial(s)
    ensures InvAlong(s, sched) <==> CurrentAlong(s, sched)
  {
    InitInv(s);
    RunExact(s, sched);
  }
}

/** Rounds of the hand-off (`RecvHandoff`) that nobody disturbs: what the I/O thread makes of a completion, what the
    group's runner makes of the job, and what both make of the stream. */
module HandoffRounds {
  import opened Bytes
  import opened Cipher
  import opened Framing
  import opened RingBuffer
  import opened RecvHandoff
  import opened Wrappers

  // ---------------------------------------------------------------- the runner alone

  /** Reads and packets of the loop, from its top, on these bytes. */
  function Turns(ring: seq<byte>, open: Opener, maxLen: nat): (n: nat)
    ensures n >= 1 && (|ring| >= HEADER ==> n >= 2)
    ensures |ring| >= HEADER && !BadHeader(ring, maxLen) ==> n >= 3
    ensures HasPacket(ring, maxLen) ==> n >= 4
    decreases |ring|
  {
    if |ring| < HEADER then 1
    else if BadHeader(ring, maxLen) then 2
    else if |ring| < HEADER + LenField(ring) then 3
    else
      var n := HEADER + LenField(ring);
      if open(ring[..n]).valid then 4 + Turns(ring[n..], open, maxLen) else 4
  }

  /** Steps until the runner is idle. */
  function ToGo(s: State, open: Opener, maxLen: nat): nat
    requires RunnerOk(s, maxLen)
  {
    match s.runner
    case Idle => 0
    case Clear => 1 + Turns(s.ring, open, maxLen)
    case Size => Turns(s.ring, open, maxLen)
    case Peek => Turns(s.ring, open, maxLen) - 1
    case Size2 => Turns(s.ring, open, maxLen) - 2
    case Open => Turns(s.ring, open, maxLen) - 3
  }

  /** Deciphering keeps the length of a packet, as the cipher of this program does. */
  ghost predicate KeepsLength(open: Opener) {
    forall image: seq<byte> :: |open(image).plain| == |image|
  }

  lemma CipherKeepsLength(open: Opener, key: byte)
    requires OpensWith(open, key)
    ensures KeepsLength(open)
  {
    forall image: seq<byte>
      ensures |open(image).plain| == |image|
    {
      assert open(image) == OpenPacket(image, key);
    }
  }

  /** `s` after the loop: it has taken what the stream semantics takes off the ring, and closed if that closes. A packet
      that was refused for its checksum stays in the ring, deciphered. */
  ghost predicate Finished(s: State, r: State, open: Opener, maxLen: nat) {
    var f := Frames(s.ring, open, maxLen);
    && r == s.(ring := r.ring, isHandled := s.isHandled && !s.runner.Clear?, runner := Idle,
               closed := s.closed || f.closed, delivered := s.delivered + f.delivered)
    && (!f.closed || KeepsLength(open) ==> r.ring == f.rest) && |r.ring| <= |s.ring|
  }

  /** The steps of the loop that only look. */
  lemma LookCounts(s: State, open: Opener, maxLen: nat)
    requires InRing(s) && RunnerOk(s, maxLen) && !s.runner.Idle? && !s.runner.Open?
    ensures
      var s' := RunnerStep(s, open, maxLen);
      && RunnerOk(s', maxLen) && ToGo(s', open, maxLen) + 1 == ToGo(s, open, maxLen)
      && s' == s.(isHandled := s.isHandled && !s.runner.Clear?, runner := s'.runner, closed := s'.closed)
      && (s'.runner.Idle? ==> Finished(s, s', open, maxLen))
      && (!s'.runner.Idle? ==> s'.closed == s.closed && !s'.runner.Clear?)
  {
    if !HasPacket(s.ring, maxLen) {
      FramesStop(s.ring, open, maxLen);
      assert s.delivered + [] == s.delivered;
    }
  }

  /** The step that takes a packet. */
  lemma TakeCounts(s: State, open: Opener, maxLen: nat)
    requires InRing(s) && RunnerOk(s, maxLen) && s.runner.Open?
    ensures
      var s' := RunnerStep(s, open, maxLen);
      var n := HEADER + LenField(s.ring);
      var o := open(s.ring[..n]);
      && RunnerOk(s', maxLen) && ToGo(s', open, maxLen) + 1 == ToGo(s, open, maxLen)
      && (!o.valid ==> Finished(s, s', open, maxLen))
      && (o.valid ==>
           && s' == s.(ring := s.ring[n..], delivered := s.delivered + [Payload(o.plain)], runner := Size)
           && Frames(s.ring, open, maxLen) == Prepend([Payload(o.plain)], Frames(s'.ring, open, maxLen)))
  {
    FramesTurn(s.ring, open, maxLen);
    assert s.delivered + [] == s.delivered;
    assert |s.ring[..HEADER + LenField(s.ring)]| == HEADER + LenField(s.ring);
  }

  lemma StillFinishes(s: State, s': State, r: State, open: Opener, maxLen: nat)
    requires s' == s.(isHandled := s.isHandled && !s.runner.Clear?, runner := s'.runner) && !s'.runner.Clear?
    requires Finished(s', r, open, maxLen)
    ensures Finished(s, r, open, maxLen)
  {
  }

  lemma OneMoreFinishes(s: State, s': State, p: seq<byte>, r: State, open: Opener, maxLen: nat)
    requires s' == s.(ring := s'.ring, delivered := s.delivered + [p], runner := Size) && s.runner.Open?
    requires Frames(s.ring, open, maxLen) == Prepend([p], Frames(s'.ring, open, maxLen))
    requires Finished(s', r, open, maxLen) && |s'.ring| <= |s.ring|
    ensures Finished(s, r, open, maxLen)
  {
    PrependTwice(s.delivered, [p], Frames(s'.ring, open, maxLen));
  }

  lemma RunNext(s: State, a: Actor, rest: seq<Actor>, s': State, open: Opener, maxLen: nat) returns (sched: seq<Actor>)
    requires s' == Step(s, a, open, maxLen)
    ensures sched == [a] + rest && Run(s, sched, open, maxLen) == Run(s', rest, open, maxLen)
  {
    sched := [a] + rest;
    RunCons(s, a, rest, open, maxLen);
  }

  /** From any place in its loop a runner that is left alone comes to the end of it, with exactly what the stream
      semantics makes of the bytes in the ring. */
  lemma {:induction false} RunnerAlone(s: State, open: Opener, maxLen: nat) returns (sched: seq<Actor>)
    requires s.fate.Running? && InRing(s) && RunnerOk(s, maxLen) && !s.runner.Idle?
    ensures |sched| == ToGo(s, open, maxLen) && forall k :: 0 <= k < |sched| ==> sched[k] == Consume
    ensures Finished(s, Run(s, sched, open, maxLen), open, maxLen)
    decreases ToGo(s, open, maxLen)
  {
    var s' := Step(s, Consume, open, maxLen);
    if s.runner.Open? {
      TakeCounts(s, open, maxLen);
    } else {
      LookCounts(s, open, maxLen);
    }
    if s'.runner.Idle? {
      sched := RunNext(s, Consume, [], s', open, maxLen);
    } else {
      var rest := RunnerAlone(s', open, maxLen);
      var r := Run(s', rest, open, maxLen);
      sched := RunNext(s, Consume, rest, s', open, maxLen);
      if s.runner.Open? {
        OneMoreFinishes(s, s', Payload(open(s.ring[..HEADER + LenField(s.ring)]).plain), r, open, maxLen);
      } else {
        StillFinishes(s, s', r, open, maxLen);
      }
    }
  }

  /** A job of the session in the slot starts the loop; that of a released or earlier one is dropped, and a Leave
      that was waited for lets the slot go. */
  lemma JobsAreTaken(s: State, open: Opener, maxLen: nat)
    requires s.fate.Running? && InRing(s) && s.runner.Idle?
    ensures
      var r := Step(s, Consume, open, maxLen);
      if s.jobs == [] then r == s else
        var j := s.jobs[0];
        && r.jobs == s.jobs[1..]
        && (r.runner == Clear <==> j == Recv(s.id) && s.life.Alive?)
        && (r.runner == Idle <==> j != Recv(s.id) || !s.life.Alive?)
        && r.dropped == (if j.Recv? && r.runner.Idle? then s.dropped + {j.id} else s.dropped)
        && (j == Leave(s.id) && s.life.Waiting? <==> r.life.Posted? && !s.life.Posted?)
        && r == s.(jobs := r.jobs, runner := r.runner, dropped := r.dropped, life := r.life)
  {
  }

  // ---------------------------------------------------------------- the I/O thread alone

  /** After a completion: with `_isHandled` set nothing is queued; otherwise it is set and one job is. */
  lemma HandsOver(s: State, open: Opener, maxLen: nat) returns (sched: seq<Actor>)
    requires s.fate.Running? && InRing(s) && s.life.Alive? && s.producer.Test?
    ensures forall k :: 0 <= k < |sched| ==> sched[k].Produce?
    ensures Run(s, sched, open, maxLen) ==
            s.(producer := Check, isHandled := true, jobs := if s.isHandled then s.jobs else s.jobs + [Recv(s.id)])
  {
    var a := Produce([]);
    if s.isHandled {
      sched := RunNext(s, a, [], s.(producer := Check), open, maxLen);
    } else {
      var s2 := s.(producer := Notify, isHandled := true);
      sched := RunNext(s2, a, [], s2.(producer := Check, jobs := s.jobs + [Recv(s.id)]), open, maxLen);
      sched := RunNext(s.(producer := Claim), a, sched, s2, open, maxLen);
      sched := RunNext(s, a, sched, s.(producer := Claim), open, maxLen);
    }
  }

  /** The next receive of an open session whose ring is not full is offered all the room there is, from the rear on;
      a closed session gets none. */
  lemma ReceivesNext(s: State, open: Opener, maxLen: nat) returns (sched: seq<Actor>, p: Producer)
    requires s.fate.Running? && InRing(s) && s.life.Alive? && s.producer.Check? && |s.ring| < SIZE - 1
    ensures forall k :: 0 <= k < |sched| ==> sched[k].Produce?
    ensures Run(s, sched, open, maxLen) == s.(producer := p)
    ensures if s.closed then p == Ended
            else p.Receiving? && p.r.at == s.rear && p.r.len0 + p.r.len1 == Space(s)
                 && (p.r.len1 > 0 ==> p.r.at + p.r.len0 == SIZE) && p.r.len0 == Straight(Front(s), s.rear)
  {
    var a := Produce([]);
    if s.closed {
      p := Ended;
      sched := RunNext(s, a, [], s.(producer := Ended), open, maxLen);
    } else {
      var len0 := Straight(Front(s), s.rear);
      var s1, s2 := s.(producer := Read1), s.(producer := Read2(len0));
      assert Front(s1) == Front(s) && Front(s2) == Front(s);
      sched, p := ReadsRoom(s2, len0, open, maxLen);
      sched := RunNext(s1, a, sched, s2, open, maxLen);
      sched := RunNext(s, a, sched, s1, open, maxLen);
    }
  }

  lemma ReadsRoom(s: State, len0: nat, open: Opener, maxLen: nat) returns (sched: seq<Actor>, p: Producer)
    requires s.fate.Running? && InRing(s) && s.life.Alive? && s.producer == Read2(len0) && |s.ring| < SIZE - 1
    requires len0 == Straight(Front(s), s.rear)
    ensures forall k :: 0 <= k < |sched| ==> sched[k].Produce?
    ensures Run(s, sched, open, maxLen) == s.(producer := p)
    ensures p == Receiving(Regions(s.rear, len0, Space(s) - len0)) && (Space(s) > len0 ==> s.rear + len0 == SIZE)
  {
    var a := Produce([]);
    var room := Space(s);
    p := Receiving(Regions(s.rear, len0, room - len0));
    if room > len0 {
      var s3 := s.(producer := Read3(len0));
      assert Space(s3) == room;
      sched := RunNext(s3, a, [], s.(producer := p), open, maxLen);
      sched := RunNext(s, a, sched, s3, open, maxLen);
    } else {
      sched := RunNext(s, a, [], s.(producer := p), open, maxLen);
    }
  }

  // ---------------------------------------------------------------- a whole round

  /** At rest, with a receive outstanding that holds `chunk`. */
  predicate Rests(s: State, chunk: seq<byte>) {
    && s.fate.Running? && InRing(s) && s.life.Alive? && !s.closed && s.runner.Idle? && s.jobs == []
    && s.producer.Receiving? && 0 < |chunk| <= s.producer.r.len0 + s.producer.r.len1
    && (s.producer.r.len1 > 0 ==> s.producer.r.at + s.producer.r.len0 == SIZE)
    && |s.ring| + |chunk| < SIZE - 1
  }

  /** A round from rest in a lifetime that began with the flag clear: the completion, the hand-off, the next receive and
      the runner. The group is given what the stream semantics makes of ring and chunk, the session is closed if that
      closes it, and otherwise all is at rest again. */
  lemma RoundDelivers(before: seq<Actor>, chunk: seq<byte>, open: Opener, maxLen: nat) returns (sched: seq<Actor>)
    requires
      var s := Run(Start(), before, open, maxLen);
      s.clear && Rests(s, chunk)
    ensures
      var s := Run(Start(), before, open, maxLen);
      var r, f := Run(s, sched, open, maxLen), Frames(s.ring + chunk, open, maxLen);
      && r.received == s.received + chunk && r.delivered == s.delivered + f.delivered && r.closed == f.closed
      && r.runner.Idle? && r.jobs == [] && !r.isHandled && r.producer.Receiving? && r.life.Alive? && r.id == s.id
      && (!f.closed ==> r.ring == f.rest)
  {
    var s := Run(Start(), before, open, maxLen);
    ReachedInv(before, open, maxLen);
    var s1 := Completion(s, s.producer.r, chunk);
    assert !s.isHandled && s1.producer.Test?;
    var a := HandsOver(s1, open, maxLen);
    var s2 := Run(s1, a, open, maxLen);
    var b, p := ReceivesNext(s2, open, maxLen);
    var s3 := s2.(producer := p);
    var s4 := s3.(jobs := [], runner := Clear);
    assert Step(s3, Consume, open, maxLen) == s4;
    var c := RunnerAlone(s4, open, maxLen);
    RunCat(s2, b, [Consume] + c, open, maxLen);
    c := RunNext(s3, Consume, c, s4, open, maxLen);
    RunCat(s1, a, b + c, open, maxLen);
    sched := RunNext(s, Produce(chunk), a + (b + c), s1, open, maxLen);
  }

  // ---------------------------------------------------------------- the next session of the slot

  /** The end of a session that nobody is working for, and the accept of the next: a Recv job that was still queued is
      dropped, the ring is empty, and `_isHandled` is as the old session left it. */
  lemma NextSession(s: State, open: Opener, maxLen: nat) returns (sched: seq<Actor>)
    requires s.fate.Running? && InRing(s) && s.life.Alive? && s.runner.Idle?
    requires s.producer.Receiving? || s.producer.Ended?
    requires s.jobs == [] || s.jobs == [Recv(s.id)]
    ensures
      var r := Run(s, sched, open, maxLen);
      && Fresh(r) && r.id == s.id + 1 && r.jobs == [] && r.delivered == [] && r.isHandled == s.isHandled
      && r.clear == !s.isHandled && r.dropped == (if s.jobs == [] then s.dropped else s.dropped + {s.id})
  {
    var s1 := s.(life := Released);
    var s2 := s.(life := Waiting, jobs := s.jobs + [Leave(s.id)]);
    var s3 := s2.(jobs := [Leave(s.id)], dropped := if s.jobs == [] then s.dropped else s.dropped + {s.id});
    var s4 := s3.(jobs := [], life := Posted);
    assert [Leave(s.id)][1..] == [];
    sched := RunNext(s4, Slot, [], NextLifetime(s4), open, maxLen);
    sched := RunNext(s3, Consume, sched, s4, open, maxLen);
    if s.jobs != [] {
      assert s2.jobs[1..] == [Leave(s.id)];
      sched := RunNext(s2, Consume, sched, s3, open, maxLen);
    } else {
      assert s2.jobs == [Leave(s.id)];
    }
    sched := RunNext(s1, Slot, sched, s2, open, maxLen);
    sched := RunNext(s, Slot, sched, s1, open, maxLen);
  }
}

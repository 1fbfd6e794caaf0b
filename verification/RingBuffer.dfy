/** `CRingBuffer` (include/CRingBuffer.h, src/CRingBuffer.cpp): 8192 bytes addressed by two counters
    that only ever grow and are reduced to an index by masking. The counters are 32-bit words. */
module RingBuffer {
  import opened Bytes
  import opened Cipher

  const SIZE := 8192
  const WORD := 0x1_0000_0000

  /** `num & INDEX_MASK`. */
  function Index(num: nat): (r: nat)
    ensures r < SIZE
  {
    num % SIZE
  }

  /** The cell `k` places after cell `f`, going round. */
  function Cell(f: nat, k: nat): (r: nat)
    requires f < SIZE && k <= SIZE
    ensures r < SIZE
  {
    if f + k < SIZE then f + k else f + k - SIZE
  }

  /** Masking a counter after an addition moves its cell by that many places. */
  lemma IndexPlus(num: nat, k: nat)
    requires k <= SIZE
    ensures Index(num + k) == Cell(Index(num), k)
  {
  }

  lemma CellPlus(f: nat, k: nat, i: nat)
    requires f < SIZE && k + i <= SIZE
    ensures Index(Cell(f, k) + i) == Cell(f, k + i)
  {
  }

  /** A 32-bit counter moved forward by `n`. */
  function Advance(num: nat, n: nat): (r: nat)
    requires num < WORD && n < SIZE
    ensures r < WORD
  {
    (num + n) % WORD
  }

  /** The wrap of a counter at 2^32 does not show in its cell. */
  lemma IndexAdvance(num: nat, n: nat)
    requires num < WORD && n < SIZE
    ensures Index(Advance(num, n)) == Cell(Index(num), n)
  {
    assert WORD == SIZE * 524288;
    assert Advance(num, n) == num + n || Advance(num, n) == num + n - WORD;
  }

  /** The two buffers `RecvNotIncrease` offers to WSARecv: `len0` bytes at `at`, then `len1` bytes at 0. */
  datatype Regions = Regions(at: nat, len0: nat, len1: nat)

  /** The distance from the front cell `f` round to the rear cell `r`. */
  function Live(f: nat, r: nat): (n: nat)
    requires f < SIZE && r < SIZE
    ensures n < SIZE && Cell(f, n) == r
  {
    if r >= f then r - f else SIZE - (f - r)
  }

  function Free(f: nat, r: nat): nat
    requires f < SIZE && r < SIZE
  {
    SIZE - Live(f, r) - 1
  }

  /** Free cells from `r` on that can be filled without passing the end of the array. */
  function Straight(f: nat, r: nat): (n: nat)
    requires f < SIZE && r < SIZE
    ensures n <= Free(f, r) && r + n <= SIZE
    ensures n < Free(f, r) ==> r + n == SIZE
  {
    if Index(r + 1) == f then 0
    else if r < f then f - r - 1
    else if f == 0 then SIZE - r - 1
    else SIZE - r
  }

  /** `RecvNotIncrease` with its three readings of the front; the rear is its own. */
  function RegionsRead(r: nat, f1: nat, f2: nat, f3: nat): Regions
    requires r < SIZE && f1 < SIZE && f2 < SIZE && f3 < SIZE
  {
    var len0 := Straight(f1, r);
    Regions(r, len0, if Free(f2, r) > len0 && Free(f3, r) > len0 then Free(f3, r) - len0 else 0)
  }

  /** Regions for data that ends before cell `r`: they start there, follow each other in ring order and hold
      no live byte. */
  predicate Fits(x: Regions, f: nat, r: nat)
    requires f < SIZE && r < SIZE
  {
    && x.at == r
    && x.at + x.len0 <= SIZE
    && (x.len1 > 0 ==> x.at + x.len0 == SIZE)
    && x.len0 + x.len1 <= Free(f, r)
  }

  /** Live bytes are consumed meanwhile: `a` of them before the second reading of the front, `b` before the
      third. The regions are right if and only if the first ends at the end of the array or nothing was
      consumed between the first two readings. */
  lemma RegionsAreRight(r: nat, f: nat, a: nat, b: nat)
    requires r < SIZE && f < SIZE && a <= b <= Live(f, r)
    ensures
      var x := RegionsRead(r, f, Cell(f, a), Cell(f, b));
      Fits(x, Cell(f, b), r) <==> r + Straight(f, r) == SIZE || a == 0
  {
    assert Free(Cell(f, a), r) == Free(f, r) + a;
    assert Free(Cell(f, b), r) == Free(f, r) + b;
  }

  /** There is nothing to receive into exactly when the ring is full at the first two readings. */
  lemma NoRegionIffFull(r: nat, f: nat, a: nat, b: nat)
    requires r < SIZE && f < SIZE && a <= b <= Live(f, r)
    ensures
      var x := RegionsRead(r, f, Cell(f, a), Cell(f, b));
      x.len0 + x.len1 == 0 <==> Live(f, r) == SIZE - 1 && a == 0
  {
    assert Free(Cell(f, a), r) == Free(f, r) + a;
    assert Free(Cell(f, b), r) == Free(f, r) + b;
  }

  /** When they are wrong and the rear is before the front, the second region lies on live bytes. */
  lemma WrongRegionIsLive(r: nat, f: nat, a: nat, b: nat)
    requires 0 < r < f < SIZE && 0 < a <= b < Live(f, r)
    ensures
      var x := RegionsRead(r, f, Cell(f, a), Cell(f, b));
      x.len1 > 0 && exists k :: 0 <= k < Live(Cell(f, b), r) && Cell(Cell(f, b), k) < x.len1
  {
    var n := Live(Cell(f, b), r);
    assert n == Live(f, r) - b;
    var x := RegionsRead(r, f, Cell(f, a), Cell(f, b));
    var k := if Cell(f, b) < f then 0 else SIZE - Cell(f, b);
    assert Cell(Cell(f, b), k) < x.len1;
  }

  /** All cells of the array, listed from cell `f` round to the cell before it. */
  ghost function Rotated(b: seq<byte>, f: nat): (r: seq<byte>)
    requires |b| == SIZE && f < SIZE
    ensures |r| == SIZE
  {
    b[f..] + b[..f]
  }

  lemma SliceOfPrefix(s: seq<byte>, size: nat, a: nat, b: nat)
    requires a <= b <= size <= |s|
    ensures s[..size][a..b] == s[a..b]
  {
  }

  /** A cut behind the replaced front does not touch it. */
  lemma FrontReplaced(was: seq<byte>, d: seq<byte>, size: nat)
    requires |d| <= size <= |was|
    ensures (d + was[|d|..])[..size] == d + was[..size][|d|..]
  {
  }

  class CRingBuffer {
    const buffer: array<byte>
    var front: nat
    var rear: nat

    ghost predicate Valid()
      reads this
    {
      buffer.Length == SIZE && front < WORD && rear < WORD
    }

    /** The whole array in ring order from the front: live bytes first, then free cells. */
    ghost function Ring(): (r: seq<byte>)
      requires Valid()
      reads this, buffer
      ensures |r| == SIZE
    {
      Rotated(buffer[..], Index(front))
    }

    /** The bytes received and not yet consumed. */
    ghost function Contents(): (r: seq<byte>)
      requires Valid()
      reads this, buffer
      ensures |r| == Size()
    {
      Ring()[..Size()]
    }

    constructor ()
      ensures Valid() && Contents() == [] && fresh(buffer)
    {
      buffer := new byte[SIZE](_ => 0);
      front, rear := 0, 0;
    }

    /** Live bytes: the distance from the front cell round to the rear cell. */
    function Size(): (n: nat)
      requires Valid()
      reads this
      ensures n < SIZE && Cell(Index(front), n) == Index(rear)
    {
      Live(Index(front), Index(rear))
    }

    function FreeSize(): (n: nat)
      requires Valid()
      reads this
      ensures n + Size() + 1 == SIZE
    {
      Free(Index(front), Index(rear))
    }

    /** Free cells that can be filled without passing the end of the array. */
    function DirectEnqueueSize(): (n: nat)
      requires Valid()
      reads this
      ensures n <= FreeSize() && Index(rear) + n <= SIZE
      ensures n < FreeSize() ==> Index(rear) + n == SIZE
    {
      Straight(Index(front), Index(rear))
    }

    /** Live bytes that can be read without passing the end of the array. */
    function DirectDequeueSize(): (n: nat)
      requires Valid()
      reads this
      ensures n <= Size() && Index(front) + n <= SIZE
      ensures n < Size() ==> Index(front) + n == SIZE
    {
      var r := Index(rear);
      var f := Index(front);
      if r >= f then r - f else SIZE - f
    }

    /** Copies the first `size` live bytes out, in one or two pieces; refuses when fewer are there. */
    method Peek(size: nat) returns (ok: bool, dst: seq<byte>)
      requires Valid()
      ensures ok == (size <= Size())
      ensures ok ==> dst == Contents()[..size]
    {
      var f := Index(front);
      dst := [];
      ok := size <= Size();
      if !ok {
        return;
      }
      if DirectDequeueSize() >= size {
        dst := buffer[f..f + size];
      } else {
        var n := DirectDequeueSize();
        dst := buffer[f..f + n] + buffer[0..size - n];
        assert buffer[f..f + n] == buffer[..][f..];
      }
      assert dst == Ring()[..size];
      assert Ring()[..Size()][..size] == Ring()[..size];
    }

    /** Drops bytes from the front; a request for too many, unless the ring is empty, is a `__debugbreak`, and
        is cut down to what is there. */
    method Dequeue(deqSize: nat) returns (size: nat, broke: bool)
      requires Valid()
      modifies this`front
      ensures Valid()
      ensures size == if deqSize > old(Size()) then old(Size()) else deqSize
      ensures broke == (0 < old(Size()) < deqSize)
      ensures Contents() == old(Contents())[size..]
      ensures FreeSize() == old(FreeSize()) + size
    {
      if Size() == 0 {
        return 0, false;
      }
      size, broke := deqSize, false;
      if deqSize > Size() {
        size, broke := Size(), true;
      }
      IndexAdvance(front, size);
      front := Advance(front, size);
    }

    /** Publishes the `size` cells after the live data: exactly the bytes now in them are appended. */
    method MoveRear(size: nat)
      requires Valid() && size <= FreeSize()
      modifies this`rear
      ensures Valid()
      ensures Size() == old(Size()) + size
      ensures Contents() == old(Contents()) + old(Ring())[old(Size())..old(Size()) + size]
    {
      IndexAdvance(rear, size);
      rear := Advance(rear, size);
    }

    method Clear()
      requires Valid()
      modifies this`front, this`rear
      ensures Valid() && Contents() == []
    {
      front, rear := 0, 0;
    }

    /** What `RecvNotIncrease` hands to the socket when nobody consumes meanwhile: everything that is free, and
        nothing else. */
    function RecvRegions(): (r: Regions)
      requires Valid()
      reads this
      ensures Offered(r) && r.len0 + r.len1 == FreeSize()
    {
      var f := Index(front);
      RegionsRead(Index(rear), f, f, f)
    }

    predicate Offered(r: Regions)
      requires Valid()
      reads this
    {
      Fits(r, Index(front), Index(rear))
    }

    /** `_buffer[at] = v`, seen from the front. */
    method Write(ghost k: nat, at: nat, v: byte)
      requires Valid() && k < SIZE && at == Cell(Index(front), k)
      modifies buffer
      ensures Ring() == old(Ring())[k := v]
    {
      ghost var b := buffer[..];
      buffer[at] := v;
      assert buffer[..] == b[at := v];
    }

    /** The operating system's part of a receive: `chunk` is spread over the offered regions. */
    method Fill(r: Regions, chunk: seq<byte>)
      requires Valid() && Offered(r) && |chunk| <= r.len0 + r.len1
      modifies buffer
      ensures Ring() == Spliced(old(Ring()), Size(), chunk, |chunk|)
    {
      ghost var was := Ring();
      for k := 0 to |chunk|
        invariant Ring() == Spliced(was, Size(), chunk, k)
      {
        var at := if k < r.len0 then r.at + k else k - r.len0;
        Write(Size() + k, at, chunk[k]);
        SplicedTurn(was, Size(), chunk, k);
      }
    }

    /** One receive completion: the chunk lands in the regions, then MoveRear(transferred).
        The regions may have been taken before some later `Dequeue`: those only free more cells. */
    method CompleteRecv(r: Regions, chunk: seq<byte>)
      requires Valid() && Offered(r) && |chunk| <= r.len0 + r.len1
      modifies buffer, this`rear
      ensures Valid()
      ensures Contents() == old(Contents()) + chunk
    {
      Fill(r, chunk);
      MoveRear(|chunk|);
    }

    /** The deciphering loop over `decodeLen` cells from the checksum on. */
    method DecodeCells(decodeLen: nat, key: byte, randomKey: byte)
      requires Valid() && CHECKSUM_OFFSET + decodeLen < SIZE
      modifies buffer
      ensures
        var enc := old(Ring())[CHECKSUM_OFFSET..CHECKSUM_OFFSET + decodeLen];
        Ring() == Spliced(old(Ring()), CHECKSUM_OFFSET, DecodeFrom(enc, 1, 0, 0, key, randomKey), decodeLen)
    {
      ghost var was := Ring();
      ghost var f := Index(front);
      IndexPlus(front, CHECKSUM_OFFSET);
      var decodeStart := Index(front + CHECKSUM_OFFSET);
      var e: byte, oldP: byte := 0, 0;
      for i := 1 to decodeLen + 1
        invariant decodeStart == Cell(f, i + 3)
        invariant Decoding(Ring(), was, decodeLen, i, e, oldP, key, randomKey)
      {
        DecodingTurn(Ring(), was, decodeLen, i, e, oldP, key, randomKey);
        var tmp := buffer[decodeStart];
        var p := Xor(tmp, e + key + i);
        Write(i + 3, decodeStart, Xor(p, oldP + randomKey + i));
        e, oldP := tmp, p;
        CellPlus(f, i + 3, 1);
        decodeStart := Index(decodeStart + 1);
      }
    }

    /** Deciphers the packet at the front in place. Every cell outside checksum and payload keeps
        its byte, wherever the packet lies relative to the end of the array. */
    method Decode(key: byte)
      requires Valid() && Size() >= HEADER && Size() >= HEADER + LenField(Contents())
      modifies buffer
      ensures
        var n := HEADER + LenField(old(Contents()));
        && Ring() == DecodedPacket(old(Ring())[..n], key) + old(Ring())[n..]
        && Contents() == DecodedPacket(old(Contents())[..n], key) + old(Contents())[n..]
    {
      ghost var was := Ring();
      var _, header := Peek(HEADER);
      LenFieldPrefix(header, Contents());
      var len := LenField(header);
      ghost var n := HEADER + len;
      DecodeCells(len + (HEADER - CHECKSUM_OFFSET), key, header[3]);
      assert was[..n][CHECKSUM_OFFSET..] == was[CHECKSUM_OFFSET..n];
      assert was[..n][..CHECKSUM_OFFSET] == was[..CHECKSUM_OFFSET];
      assert was[..Size()][..n] == was[..n];
      FrontReplaced(was, DecodedPacket(was[..n], key), Size());
    }

    /** The summing loop over the `n` cells after the header. */
    method SumCells(n: nat) returns (sum: byte)
      requires Valid() && HEADER + n < SIZE
      ensures sum == Sum(Ring()[HEADER..HEADER + n])
    {
      sum := 0;
      IndexPlus(front, HEADER);
      var payloadIndex := Index(front + HEADER);
      ghost var f := Index(front);
      ghost var payload := Ring()[HEADER..HEADER + n];
      for i := 0 to n
        invariant sum == Sum(payload[..i])
      {
        CellPlus(f, HEADER, i);
        SumTurn(payload, i);
        sum := Low(sum + buffer[Index(payloadIndex + i)]);
      }
      assert payload[..n] == payload;
    }

    /** Adds up the payload bytes of the packet at the front and compares with its checksum. */
    method ChecksumValid() returns (ok: bool)
      requires Valid() && Size() >= HEADER && Size() >= HEADER + LenField(Contents())
      ensures
        var c := Contents();
        ok == (Sum(c[HEADER..HEADER + LenField(c)]) == c[CHECKSUM_OFFSET])
    {
      var _, header := Peek(HEADER);
      LenFieldPrefix(header, Contents());
      var packetLen := LenField(header);
      var payloadChecksum := SumCells(packetLen);
      SliceOfPrefix(Ring(), Size(), HEADER, HEADER + packetLen);
      ok := payloadChecksum == header[CHECKSUM_OFFSET];
    }
  }
}

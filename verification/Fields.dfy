/** Fields written with `CSendBuffer::operator<<` and read with `CRecvBuffer::operator>>`
    (include/CSendBuffer.h, src/CSendBuffer.cpp, include/CRecvBuffer.h, src/CRecvBuffer.cpp). */
module Fields {
  import opened Bytes
  import opened Cipher
  import opened RingBuffer
  import opened SendBuffer

  /** A scalar is its unsigned memory image; text is UTF-16 code units. */
  datatype Field = Scalar(width: nat, value: nat) | Text(chars: seq<nat>)

  datatype Kind = ScalarOf(width: nat) | TextKind

  predicate WellFormed(f: Field) {
    match f
    case Scalar(w, v) => w in {1, 2, 4, 8} && v < Span(w)
    case Text(chars) => |chars| < 65536 && forall i :: 0 <= i < |chars| ==> chars[i] < 65536
  }

  predicate AllWellFormed(fs: seq<Field>) {
    forall i :: 0 <= i < |fs| ==> WellFormed(fs[i])
  }

  function KindOf(f: Field): Kind {
    match f
    case Scalar(w, _) => ScalarOf(w)
    case Text(_) => TextKind
  }

  function Kinds(fs: seq<Field>): (r: seq<Kind>)
    ensures |r| == |fs|
  {
    if fs == [] then [] else [KindOf(fs[0])] + Kinds(fs[1..])
  }

  /** The bytes one field occupies. */
  function Image(f: Field): seq<byte> {
    match f
    case Scalar(w, v) => ToLE(v, w)
    case Text(chars) => ToLE(|chars| % 65536, 2) + Units(chars)
  }

  function Images(fs: seq<Field>): seq<byte> {
    if fs == [] then [] else Image(fs[0]) + Images(fs[1..])
  }

  function FromUnits(s: seq<byte>): seq<nat> {
    if |s| < 2 then [] else [FromLE(s[..2])] + FromUnits(s[2..])
  }

  lemma {:induction false} UnitsRoundTrip(chars: seq<nat>)
    requires forall i :: 0 <= i < |chars| ==> chars[i] < 65536
    ensures FromUnits(Units(chars)) == chars
  {
    if chars != [] {
      var s := Units(chars);
      assert s[..2] == ToLE(chars[0], 2) && s[2..] == Units(chars[1..]);
      assert Span(1) == 256 && Span(2) == 65536;
      LERoundTrip(chars[0], 2);
      UnitsRoundTrip(chars[1..]);
    }
  }

  datatype Got<T> = Got(value: T, rest: seq<byte>) | CannotPop

  /** Reading one field off a byte sequence. */
  function ParseOne(k: Kind, s: seq<byte>): Got<Field> {
    match k
    case ScalarOf(w) => if |s| < w then CannotPop else Got(Scalar(w, FromLE(s[..w])), s[w..])
    case TextKind =>
      if |s| < 2 then CannotPop else
        var n := 2 * FromLE(s[..2]);
        if |s| - 2 < n then CannotPop else Got(Text(FromUnits(s[2..][..n])), s[2..][n..])
  }

  function Parse(ks: seq<Kind>, s: seq<byte>): Got<seq<Field>> {
    if ks == [] then Got([], s) else
      match ParseOne(ks[0], s)
      case CannotPop => CannotPop
      case Got(f, rest) =>
        match Parse(ks[1..], rest)
        case CannotPop => CannotPop
        case Got(fs, end) => Got([f] + fs, end)
  }

  lemma ScalarInverts(w: nat, v: nat, tail: seq<byte>)
    requires WellFormed(Scalar(w, v))
    ensures ParseOne(ScalarOf(w), Image(Scalar(w, v)) + tail) == Got(Scalar(w, v), tail)
  {
    var s := ToLE(v, w) + tail;
    assert s[..w] == ToLE(v, w) && s[w..] == tail;
    LERoundTrip(v, w);
  }

  lemma TextInverts(chars: seq<nat>, tail: seq<byte>)
    requires WellFormed(Text(chars))
    ensures ParseOne(TextKind, Image(Text(chars)) + tail) == Got(Text(chars), tail)
  {
    var s := Image(Text(chars)) + tail;
    var n := 2 * |chars|;
    assert s[..2] == ToLE(|chars|, 2);
    assert Span(1) == 256 && Span(2) == 65536;
    LERoundTrip(|chars|, 2);
    assert s[2..] == Units(chars) + tail;
    assert s[2..][..n] == Units(chars) && s[2..][n..] == tail;
    UnitsRoundTrip(chars);
  }

  lemma ParseOneInverts(f: Field, tail: seq<byte>)
    requires WellFormed(f)
    ensures ParseOne(KindOf(f), Image(f) + tail) == Got(f, tail)
  {
    match f
    case Scalar(w, v) => ScalarInverts(w, v, tail);
    case Text(chars) => TextInverts(chars, tail);
  }

  /** Reading the same kinds back returns the fields that were written and stops right after them. */
  lemma {:induction false} ParseInverts(fs: seq<Field>, tail: seq<byte>)
    requires AllWellFormed(fs)
    ensures Parse(Kinds(fs), Images(fs) + tail) == Got(fs, tail)
  {
    if fs == [] {
      assert Images(fs) + tail == tail;
    } else {
      var more := Images(fs[1..]) + tail;
      assert Images(fs) + tail == Image(fs[0]) + more;
      ParseOneInverts(fs[0], more);
      ParseInverts(fs[1..], tail);
      assert Kinds(fs)[1..] == Kinds(fs[1..]) && Kinds(fs)[0] == KindOf(fs[0]);
      assert [fs[0]] + fs[1..] == fs;
    }
  }

  /** `CRecvBuffer`: the payload of one packet, read off the front of the ring. */
  class CRecvBuffer {
    const ring: CRingBuffer
    var size: nat

    ghost predicate Valid()
      reads this, ring
    {
      ring.Valid() && size <= ring.Size()
    }

    /** The bytes of the packet not read yet. */
    ghost function Window(): (r: seq<byte>)
      requires Valid()
      reads this, ring, ring.buffer
      ensures |r| == size
    {
      ring.Contents()[..size]
    }

    /** What was read is gone from the ring, and nothing else. */
    ghost predicate Consumed(before: seq<byte>, sizeBefore: nat)
      requires Valid()
      reads this, ring, ring.buffer
    {
      size <= sizeBefore <= |before| && ring.Contents() == before[sizeBefore - size..]
    }

    constructor (ring: CRingBuffer, size: nat)
      requires ring.Valid() && size <= ring.Size()
      ensures this.ring == ring && this.size == size && Valid()
    {
      this.ring := ring;
      this.size := size;
    }

    /** `CanPop`, `Peek`, `Dequeue` and `_size -= n`: every reader is built from this. */
    method GetBytes(n: nat) returns (ok: bool, bytes: seq<byte>)
      requires Valid()
      modifies this`size, ring`front
      ensures Valid() && ok == (n <= old(size))
      ensures ok ==> bytes == old(Window())[..n] && Window() == old(Window())[n..]
      ensures size == (if ok then old(size) - n else old(size)) && Consumed(old(ring.Contents()), old(size))
    {
      bytes := [];
      ok := n <= size;
      if !ok {
        return;
      }
      ghost var c := ring.Contents();
      var _, b := ring.Peek(n);
      var _, _ := ring.Dequeue(n);
      bytes := b;
      size := size - n;
      assert c[..size + n][..n] == c[..n] && c[..size + n][n..] == c[n..][..size];
    }

    /** One `operator>>`. */
    method GetField(k: Kind) returns (r: Got<Field>)
      requires Valid()
      modifies this`size, ring`front
      ensures Valid()
      ensures r.Got? == ParseOne(k, old(Window())).Got?
      ensures r.Got? ==> r.value == ParseOne(k, old(Window())).value
      ensures r.Got? ==> Window() == ParseOne(k, old(Window())).rest
      ensures Consumed(old(ring.Contents()), old(size))
    {
      match k
      case ScalarOf(w) =>
        var ok, bytes := GetBytes(w);
        r := if ok then Got(Scalar(w, FromLE(bytes)), []) else CannotPop;
      case TextKind =>
        var ok, bytes := GetBytes(2);
        if !ok {
          return CannotPop;
        }
        var len := FromLE(bytes);
        ok, bytes := GetBytes(2 * len);
        r := if ok then Got(Text(FromUnits(bytes)), []) else CannotPop;
    }

    /** A content handler that reads a list of fields. */
    method GetFields(ks: seq<Kind>) returns (ok: bool, fs: seq<Field>)
      requires Valid()
      modifies this`size, ring`front
      ensures Valid() && ok == Parse(ks, old(Window())).Got?
      ensures ok ==> Got(fs, Window()) == Parse(ks, old(Window()))
      ensures Consumed(old(ring.Contents()), old(size))
      decreases |ks|
    {
      if ks == [] {
        return true, [];
      }
      var first := GetField(ks[0]);
      if first.CannotPop? {
        return false, [];
      }
      ok, fs := GetFields(ks[1..]);
      fs := [first.value] + fs;
    }
  }

  /** One `operator<<`; a field whose bytes fit is always taken. */
  method PutField(out: CSendBuffer, f: Field) returns (r: Push)
    requires out.Valid() && |Image(f)| <= out.CanPushSize()
    modifies out, out.buffer
    ensures out.Valid() && r.Pushed? && out.Content() == old(out.Content()) + Image(f)
  {
    match f
    case Scalar(w, v) => r := out.PutBytes(ToLE(v, w));
    case Text(chars) =>
      r := out.PutString(chars);
      Assoc(old(out.Content()), ToLE(|chars| % 65536, 2), Units(chars));
  }

  /** Serialising a list of fields into an empty buffer. */
  method PutFields(out: CSendBuffer, fs: seq<Field>)
    requires out.Valid() && out.Content() == [] && |Images(fs)| <= MAX_PAYLOAD
    modifies out, out.buffer
    ensures out.Valid() && out.Content() == Images(fs)
  {
    for k := 0 to |fs|
      invariant out.Valid() && out.Content() + Images(fs[k..]) == Images(fs)
    {
      assert fs[k..][1..] == fs[k + 1..];
      Assoc(out.Content(), Image(fs[k]), Images(fs[k + 1..]));
      var _ := PutField(out, fs[k]);
    }
  }

  /** The fields of a packet that lies anywhere in the ring come back unchanged, and the reader ends
      with nothing left to pop, as the `UnuseData` assertion of the receive loop demands. */
  method ReadBack(recv: CRecvBuffer, ghost fs: seq<Field>, ks: seq<Kind>) returns (got: seq<Field>)
    requires recv.Valid() && AllWellFormed(fs) && ks == Kinds(fs) && recv.Window() == Images(fs)
    modifies recv`size, recv.ring`front
    ensures recv.Valid() && got == fs && recv.size == 0
    ensures recv.ring.Contents() == old(recv.ring.Contents())[|Images(fs)|..]
  {
    ParseInverts(fs, []);
    assert Images(fs) + [] == Images(fs);
    var ok;
    ok, got := recv.GetFields(ks);
  }
}

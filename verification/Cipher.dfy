/** The wire format of a NET packet (include/Protocol.h) and the chained exclusive-or cipher
    that `CSendBuffer::Encode` writes and `CRingBuffer::Decode` undoes. */
module Cipher {
  import opened Bytes

  const HEADER := 5            // sizeof(NetHeader), packed: code, len (2), randomKey, checkSum
  const CHECKSUM_OFFSET := 4   // offsetof(NetHeader, checkSum)
  const PACKET_CODE: byte := 0x77
  const RANDOM_KEY: byte := 0x31
  const MAX_PAYLOAD := 2048

  /** Both ciphers carry two bytes from one position to the next; `i` counts from one. */
  function EncodeFrom(d: seq<byte>, i: nat, p: byte, e: byte, key: byte, rnd: byte): (r: seq<byte>)
    ensures |r| == |d|
  {
    if d == [] then [] else
      var p' := Xor(d[0], p + rnd + i);
      var e' := Xor(p', e + key + i);
      [e'] + EncodeFrom(d[1..], i + 1, p', e', key, rnd)
  }

  function DecodeFrom(d: seq<byte>, i: nat, e: byte, oldP: byte, key: byte, rnd: byte): (r: seq<byte>)
    ensures |r| == |d|
  {
    if d == [] then [] else
      var p := Xor(d[0], e + key + i);
      [Xor(p, oldP + rnd + i)] + DecodeFrom(d[1..], i + 1, d[0], p, key, rnd)
  }

  /** The byte that is carried besides the cell: after `k` places it is the plain byte there, mixed with the one
      before it, the random key and the place. */
  function Mixed(d: seq<byte>, i: nat, p: byte, rnd: byte, k: nat): byte
    requires k <= |d|
  {
    if k == 0 then p else Xor(d[k - 1], Mixed(d, i, p, rnd, k - 1) + rnd + (i + k - 1))
  }

  lemma {:induction false} MixedTail(d: seq<byte>, i: nat, p: byte, rnd: byte, k: nat)
    requires 1 <= k <= |d|
    ensures Mixed(d, i, p, rnd, k) == Mixed(d[1..], i + 1, Xor(d[0], p + rnd + i), rnd, k - 1)
  {
    if k > 1 {
      MixedTail(d, i, p, rnd, k - 1);
      assert d[1..][k - 2] == d[k - 1];
    }
  }

  /** The cipher, place by place: a cell of the wire is the mixed byte, exclusive or with the cell before it plus
      the key plus the place. */
  lemma {:induction false} EncodedAt(d: seq<byte>, i: nat, p: byte, e: byte, key: byte, rnd: byte, k: nat)
    requires 1 <= k <= |d|
    ensures
      var r := EncodeFrom(d, i, p, e, key, rnd);
      r[k - 1] == Xor(Mixed(d, i, p, rnd, k), (if k == 1 then e else r[k - 2]) + key + (i + k - 1))
  {
    var p' := Xor(d[0], p + rnd + i);
    var e' := Xor(p', e + key + i);
    var r, r' := EncodeFrom(d, i, p, e, key, rnd), EncodeFrom(d[1..], i + 1, p', e', key, rnd);
    assert r == [e'] + r';
    if k > 1 {
      EncodedAt(d[1..], i + 1, p', e', key, rnd, k - 1);
      MixedTail(d, i, p, rnd, k);
      assert r[k - 1] == r'[k - 2];
    }
  }

  /** The whole packet on the wire: header in clear, then the places of checksum and payload. */
  lemma WireAt(payload: seq<byte>, key: byte, k: nat)
    requires |payload| < 65536 && 1 <= k <= |payload| + 1
    ensures
      var w, d := Packet(payload, key), [Sum(payload)] + payload;
      && w[..CHECKSUM_OFFSET] == [PACKET_CODE, |payload| % 256, |payload| / 256, RANDOM_KEY]
      && w[CHECKSUM_OFFSET + k - 1] ==
         Xor(Mixed(d, 1, 0, RANDOM_KEY, k), (if k == 1 then 0 else w[CHECKSUM_OFFSET + k - 2]) + key + k)
  {
    var d := [Sum(payload)] + payload;
    EncodedAt(d, 1, 0, 0, key, RANDOM_KEY, k);
    PacketHeader(payload, key);
    assert ToLE(|payload|, 2) == [|payload| % 256, |payload| / 256] by {
      LEDigit(|payload|, 2, 0);
      LEDigit(|payload|, 2, 1);
    }
  }

  /** A deciphering loop over `n` cells of `cells`, which was `was` at the start, before its turn `i`:
      the cells before it are plain, `e` and `oldP` are the bytes carried from the last one. */
  ghost predicate Decoding(cells: seq<byte>, was: seq<byte>, n: nat, i: nat, e: byte, oldP: byte, key: byte, rnd: byte)
    requires CHECKSUM_OFFSET + n <= |was| && 1 <= i <= n + 1
  {
    var enc := was[CHECKSUM_OFFSET..CHECKSUM_OFFSET + n];
    var dec := DecodeFrom(enc, 1, 0, 0, key, rnd);
    && cells == Spliced(was, CHECKSUM_OFFSET, dec, i - 1)
    && dec[i - 1..] == DecodeFrom(enc[i - 1..], i, e, oldP, key, rnd)
  }

  lemma DecodingTurn(cells: seq<byte>, was: seq<byte>, n: nat, i: nat, e: byte, oldP: byte, key: byte, rnd: byte)
    requires CHECKSUM_OFFSET + n <= |was| && 1 <= i <= n
    requires Decoding(cells, was, n, i, e, oldP, key, rnd)
    ensures |cells| == |was|
    ensures
      var tmp := cells[i + 3];
      var p := Xor(tmp, e + key + i);
      Decoding(cells[i + 3 := Xor(p, oldP + rnd + i)], was, n, i + 1, tmp, p, key, rnd)
  {
    var enc := was[CHECKSUM_OFFSET..CHECKSUM_OFFSET + n];
    var dec := DecodeFrom(enc, 1, 0, 0, key, rnd);
    SplicedTurn(was, CHECKSUM_OFFSET, dec, i - 1);
  }

  /** The same for an enciphering loop. */
  ghost predicate Encoding(cells: seq<byte>, was: seq<byte>, n: nat, i: nat, p: byte, e: byte, key: byte, rnd: byte)
    requires CHECKSUM_OFFSET + n <= |was| && 1 <= i <= n + 1
  {
    var d := was[CHECKSUM_OFFSET..CHECKSUM_OFFSET + n];
    var enc := EncodeFrom(d, 1, 0, 0, key, rnd);
    && cells == Spliced(was, CHECKSUM_OFFSET, enc, i - 1)
    && enc[i - 1..] == EncodeFrom(d[i - 1..], i, p, e, key, rnd)
  }

  lemma EncodingTurn(cells: seq<byte>, was: seq<byte>, n: nat, i: nat, p: byte, e: byte, key: byte, rnd: byte)
    requires CHECKSUM_OFFSET + n <= |was| && 1 <= i <= n
    requires Encoding(cells, was, n, i, p, e, key, rnd)
    ensures |cells| == |was|
    ensures
      var p' := Xor(cells[i + 3], p + rnd + i);
      var e' := Xor(p', e + key + i);
      Encoding(cells[i + 3 := e'], was, n, i + 1, p', e', key, rnd)
  {
    var d := was[CHECKSUM_OFFSET..CHECKSUM_OFFSET + n];
    var enc := EncodeFrom(d, 1, 0, 0, key, rnd);
    SplicedTurn(was, CHECKSUM_OFFSET, enc, i - 1);
  }

  /** Decoding from the carried bytes an encoder had at the same position gives the plain text back. */
  lemma {:induction false} CipherRoundTrip(d: seq<byte>, i: nat, p: byte, e: byte, key: byte, rnd: byte)
    ensures DecodeFrom(EncodeFrom(d, i, p, e, key, rnd), i, e, p, key, rnd) == d
  {
    if d != [] {
      var p' := Xor(d[0], p + rnd + i);
      var e' := Xor(p', e + key + i);
      XorCancel(d[0], p + rnd + i);
      XorCancel(p', e + key + i);
      assert EncodeFrom(d, i, p, e, key, rnd)[1..] == EncodeFrom(d[1..], i + 1, p', e', key, rnd);
      CipherRoundTrip(d[1..], i + 1, p', e', key, rnd);
    }
  }

  /** Sum of the payload bytes kept in an `unsigned char`. */
  function Sum(d: seq<byte>): byte {
    if d == [] then 0 else Low(Sum(d[..|d| - 1]) + d[|d| - 1])
  }

  /** All of them added up. */
  function Total(d: seq<byte>): nat {
    if d == [] then 0 else Total(d[..|d| - 1]) + d[|d| - 1]
  }

  /** The checksum is the sum of the bytes modulo 256. */
  lemma {:induction false} SumIsTotal(d: seq<byte>)
    ensures Sum(d) == Total(d) % 256
  {
    if d != [] {
      SumIsTotal(d[..|d| - 1]);
    }
  }

  /** One turn of a summing loop. */
  lemma SumTurn(d: seq<byte>, i: nat)
    requires i < |d|
    ensures Sum(d[..i + 1]) == Low(Sum(d[..i]) + d[i])
  {
    assert d[..i + 1][..i] == d[..i];
  }

  /** The clear part of the header. */
  function ClearHeader(len: nat): (h: seq<byte>)
    ensures |h| == CHECKSUM_OFFSET
  {
    [PACKET_CODE] + ToLE(len, 2) + [RANDOM_KEY]
  }

  /** The packet as `WriteNetHeader` leaves it, before `Encode`. */
  function PlainPacket(payload: seq<byte>): (r: seq<byte>)
    ensures |r| == HEADER + |payload|
  {
    ClearHeader(|payload|) + [Sum(payload)] + payload
  }

  /** The bytes one payload puts on the wire. */
  function Packet(payload: seq<byte>, key: byte): (r: seq<byte>)
    ensures |r| == HEADER + |payload|
  {
    ClearHeader(|payload|) + EncodeFrom([Sum(payload)] + payload, 1, 0, 0, key, RANDOM_KEY)
  }

  /** Header fields read back from the first bytes of a packet. */
  function LenField(h: seq<byte>): (n: nat)
    requires |h| >= HEADER
    ensures n < 65536
  {
    (h[1] as int) + 256 * (h[2] as int)
  }

  lemma LenFieldPrefix(s: seq<byte>, t: seq<byte>)
    requires |s| >= HEADER && |t| >= HEADER && s[..HEADER] == t[..HEADER]
    ensures LenField(s) == LenField(t)
  {
    assert s[1] == s[..HEADER][1] && s[2] == s[..HEADER][2];
    assert t[1] == t[..HEADER][1] && t[2] == t[..HEADER][2];
  }

  /** What `CRingBuffer::Decode` turns a packet image into: the clear header stays, checksum and
      payload are deciphered with the random key of the header. */
  function DecodedPacket(s: seq<byte>, key: byte): (r: seq<byte>)
    requires |s| >= HEADER
    ensures |r| == |s|
  {
    s[..CHECKSUM_OFFSET] + DecodeFrom(s[CHECKSUM_OFFSET..], 1, 0, 0, key, s[3])
  }

  lemma LenFieldOf(payload: seq<byte>, s: seq<byte>)
    requires |payload| < 65536 && |s| >= HEADER && s[..CHECKSUM_OFFSET] == ClearHeader(|payload|)
    ensures LenField(s) == |payload| && s[0] == PACKET_CODE && s[3] == RANDOM_KEY
  {
    var h := s[..CHECKSUM_OFFSET];
    assert h[1] == ToLE(|payload|, 2)[0] && h[2] == ToLE(|payload|, 2)[1];
    assert ToLE(|payload|, 2)[1] == ToLE(|payload| / 256, 1)[0];
    assert s[0] == h[0] && s[1] == h[1] && s[2] == h[2] && s[3] == h[3];
  }

  /** The length a receiver reads from an encoded packet is the length of its payload. */
  lemma PacketHeader(payload: seq<byte>, key: byte)
    requires |payload| < 65536
    ensures Packet(payload, key)[..CHECKSUM_OFFSET] == ClearHeader(|payload|)
    ensures LenField(Packet(payload, key)) == |payload|
    ensures Packet(payload, key)[0] == PACKET_CODE && Packet(payload, key)[3] == RANDOM_KEY
  {
    LenFieldOf(payload, Packet(payload, key));
  }

  /** Decode inverts Encode on a whole packet, whatever the key and the payload. */
  lemma PacketRoundTrip(payload: seq<byte>, key: byte)
    requires |payload| < 65536
    ensures DecodedPacket(Packet(payload, key), key) == PlainPacket(payload)
  {
    PacketHeader(payload, key);
    var d := [Sum(payload)] + payload;
    CipherRoundTrip(d, 1, 0, 0, key, RANDOM_KEY);
    assert Packet(payload, key)[CHECKSUM_OFFSET..] == EncodeFrom(d, 1, 0, 0, key, RANDOM_KEY);
    assert PlainPacket(payload) == ClearHeader(|payload|) + d;
  }

  /** The receiver takes the random key from the header it received, whatever the sender put there. */
  lemma AnyRandomKey(header: seq<byte>, d: seq<byte>, key: byte)
    requires |header| == CHECKSUM_OFFSET && d != []
    ensures DecodedPacket(header + EncodeFrom(d, 1, 0, 0, key, header[3]), key) == header + d
  {
    var image := header + EncodeFrom(d, 1, 0, 0, key, header[3]);
    CipherRoundTrip(d, 1, 0, 0, key, header[3]);
    assert image[3] == header[3] && image[..CHECKSUM_OFFSET] == header;
    assert image[CHECKSUM_OFFSET..] == EncodeFrom(d, 1, 0, 0, key, header[3]);
  }
}

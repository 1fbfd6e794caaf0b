/** `CSendBuffer` (include/CSendBuffer.h, src/CSendBuffer.cpp) as one thread uses it: serialisation
    into a fixed array, the header, and the cipher applied in place. Pointers are offsets. */
module SendBuffer {
  import opened Bytes
  import opened Cipher

  const DATA := 5         // _data: room for a NetHeader in front
  const LAN_HEADER := 2   // sizeof(LANHeader)

  /** What became of a push: `Refused` is the exception `CanPush` throws. `Overrun` is a write past the
      end of the array, which C++ leaves undefined. */
  datatype Push = Pushed | Refused | Overrun

  /** Memory image of UTF-16 code units. */
  function Units(chars: seq<nat>): (s: seq<byte>)
    ensures |s| == 2 * |chars|
  {
    if chars == [] then [] else ToLE(chars[0], 2) + Units(chars[1..])
  }

  class CSendBuffer {
    const buffer: array<byte>
    var head: nat
    var rear: nat
    var isEncrypt: nat

    ghost predicate Valid()
      reads this
    {
      && buffer.Length == DATA + MAX_PAYLOAD
      && DATA <= rear <= buffer.Length
      && (head == 0 || head == DATA - LAN_HEADER)
    }

    /** The serialised fields. */
    ghost function Content(): (r: seq<byte>)
      requires Valid()
      reads this, buffer
      ensures |r| == rear - DATA
    {
      buffer[DATA..rear]
    }

    /** What RealSend hands to the socket: `GetHead()` and `SendDataSize()`. */
    ghost function Wire(): seq<byte>
      requires Valid()
      reads this, buffer
    {
      buffer[head..rear]
    }

    constructor ()
      ensures Valid() && Content() == [] && head == 0 && isEncrypt == 0 && fresh(buffer)
    {
      buffer := new byte[DATA + MAX_PAYLOAD](_ => 0);
      head, rear, isEncrypt := 0, DATA, 0;
    }

    method Clear()
      requires Valid()
      modifies this
      ensures Valid() && Content() == [] && head == 0 && isEncrypt == 0
    {
      head, rear, isEncrypt := 0, DATA, 0;
    }

    function GetDataSize(): (n: nat)
      requires Valid()
      reads this
      ensures n <= MAX_PAYLOAD && DATA + n == rear
    {
      rear - DATA
    }

    function CanPushSize(): (n: nat)
      requires Valid()
      reads this
      ensures n + GetDataSize() == MAX_PAYLOAD
    {
      MAX_PAYLOAD - (rear - DATA)
    }

    /** `memcpy` of `bytes` to `_rear`, then `_rear += |bytes|`. */
    method Append(bytes: seq<byte>)
      requires Valid() && |bytes| <= CanPushSize()
      modifies buffer, this`rear
      ensures Valid() && Content() == old(Content()) + bytes
      ensures buffer[..DATA] == old(buffer[..DATA])
    {
      ghost var was := buffer[..];
      for k := 0 to |bytes|
        modifies buffer
        invariant buffer[..] == Spliced(was, rear, bytes, k)
      {
        SplicedTurn(was, rear, bytes, k);
        ghost var b := buffer[..];
        buffer[rear + k] := bytes[k];
        assert buffer[..] == b[rear + k := bytes[k]];
      }
      rear := rear + |bytes|;
      assert buffer[DATA..rear] == buffer[..][DATA..rear];
    }

    /** Scalar `operator<<` and `SetCstr`: the check counts the bytes that are written. */
    method PutBytes(bytes: seq<byte>) returns (r: Push)
      requires Valid()
      modifies buffer, this`rear
      ensures Valid()
      ensures r == if |bytes| <= old(CanPushSize()) then Pushed else Refused
      ensures Content() == old(Content()) + (if r.Pushed? then bytes else [])
    {
      if CanPushSize() < |bytes| {
        return Refused;
      }
      Append(bytes);
      r := Pushed;
    }

    /** `SetWstr`: the check counts characters, the copy writes two bytes for each. It is right exactly when the
        bytes fit; it refuses exactly when not even one byte per character fits, and in between it writes past
        the array. */
    method SetWstr(chars: seq<nat>) returns (r: Push)
      requires Valid()
      modifies buffer, this`rear
      ensures Valid()
      ensures r.Pushed? <==> 2 * |chars| <= old(CanPushSize())
      ensures r.Refused? <==> |chars| > old(CanPushSize())
      ensures r.Overrun? <==> |chars| <= old(CanPushSize()) < 2 * |chars|
      ensures Content() == old(Content()) + (if r.Pushed? then Units(chars) else [])
    {
      if CanPushSize() < |chars| {
        return Refused;
      }
      if CanPushSize() < 2 * |chars| {
        return Overrun;
      }
      Append(Units(chars));
      r := Pushed;
    }

    /** `operator<<(const String&)`: a 16-bit length, then the characters. When only the characters do
        not fit, the length stays behind. */
    method PutString(chars: seq<nat>) returns (r: Push)
      requires Valid()
      modifies buffer, this`rear
      ensures Valid()
      ensures r.Pushed? <==> 2 + 2 * |chars| <= old(CanPushSize())
      ensures r.Refused? <==> old(CanPushSize()) < 2 || 2 + |chars| > old(CanPushSize())
      ensures Content() ==
              if old(CanPushSize()) < 2 then old(Content())
              else old(Content()) + ToLE(|chars| % 65536, 2) + (if r.Pushed? then Units(chars) else [])
    {
      r := PutBytes(ToLE(|chars| % 65536, 2));
      if r.Pushed? {
        r := SetWstr(chars);
      }
    }

    /** The summing loop of `WriteNetHeader`. */
    method Checksum() returns (sum: byte)
      requires Valid()
      ensures sum == Sum(Content())
    {
      sum := 0;
      ghost var c := Content();
      for i := 0 to GetDataSize()
        invariant sum == Sum(c[..i])
      {
        SumTurn(c, i);
        sum := Low(sum + buffer[DATA + i]);
      }
      assert c[..GetDataSize()] == c;
    }

    method WriteNetHeader(code: byte)
      requires Valid() && head == 0
      modifies buffer
      ensures Content() == old(Content())
      ensures Wire() == [code] + ToLE(GetDataSize(), 2) + [RANDOM_KEY, Sum(Content())] + Content()
    {
      ghost var c := Content();
      var sum := Checksum();
      var len := ToLE(GetDataSize(), 2);
      buffer[0] := code;
      buffer[1] := len[0];
      buffer[2] := len[1];
      buffer[3] := RANDOM_KEY;
      buffer[4] := sum;
      assert Content() == c;
      assert Wire() == buffer[..DATA] + Content();
    }

    /** LAN sessions put a two-byte length right before the data. */
    method WriteLanHeader()
      requires Valid()
      modifies buffer, this`head
      ensures Valid() && Content() == old(Content())
      ensures Wire() == ToLE(GetDataSize(), LAN_HEADER) + Content()
    {
      ghost var c := Content();
      var len := ToLE(GetDataSize(), LAN_HEADER);
      buffer[3] := len[0];
      buffer[4] := len[1];
      head := DATA - LAN_HEADER;
      assert Content() == c;
      assert Wire() == buffer[3..DATA] + Content();
    }

    /** The enciphering loop over `encodeLen` bytes from the checksum on. */
    method EncodeBytes(encodeLen: nat, key: byte, randomKey: byte)
      requires Valid() && CHECKSUM_OFFSET + encodeLen == rear
      modifies buffer
      ensures buffer[..rear] ==
        old(buffer[..CHECKSUM_OFFSET]) + EncodeFrom(old(buffer[CHECKSUM_OFFSET..rear]), 1, 0, 0, key, randomKey)
    {
      ghost var was := buffer[..rear];
      var p: byte, e: byte := 0, 0;
      for i := 1 to encodeLen + 1
        invariant Encoding(buffer[..rear], was, encodeLen, i, p, e, key, randomKey)
      {
        EncodingTurn(buffer[..rear], was, encodeLen, i, p, e, key, randomKey);
        ghost var b := buffer[..rear];
        p := Xor(buffer[i + 3], p + randomKey + i);
        e := Xor(p, e + key + i);
        buffer[i + 3] := e;
        assert buffer[..rear] == b[i + 3 := e];
      }
      assert was[CHECKSUM_OFFSET..rear] == old(buffer[CHECKSUM_OFFSET..rear]);
    }

    /** Enciphers checksum and payload in place, with the keys and the length of the header. */
    method Encode(key: byte)
      requires Valid() && head == 0
      requires buffer[..CHECKSUM_OFFSET] == ClearHeader(GetDataSize())
      modifies buffer, this`isEncrypt
      ensures Valid() && isEncrypt == old(isEncrypt) + 1
      ensures
        Wire() == ClearHeader(GetDataSize()) +
                  EncodeFrom(old(buffer[CHECKSUM_OFFSET..rear]), 1, 0, 0, key, RANDOM_KEY)
    {
      var header := buffer[..HEADER];
      assert header[..CHECKSUM_OFFSET] == buffer[..CHECKSUM_OFFSET];
      LenFieldOf(Content(), header);
      EncodeBytes(LenField(header) + 1, key, header[3]);
      isEncrypt := isEncrypt + 1;
    }

    /** `TryEncode` by a single caller: afterwards the wire image is the encoded packet, however often
        it is called. */
    method TryEncode(key: byte)
      requires Valid() && head == 0
      modifies buffer, this`isEncrypt
      ensures Valid() && isEncrypt > 0
      ensures old(isEncrypt) == 0 ==> isEncrypt == 1 && Wire() == Packet(old(Content()), key)
      ensures old(isEncrypt) > 0 ==> isEncrypt == old(isEncrypt) && Wire() == old(Wire())
    {
      if isEncrypt == 0 {
        ghost var c := Content();
        WriteNetHeader(PACKET_CODE);
        assert buffer[CHECKSUM_OFFSET..rear] == [Sum(c)] + c;
        assert buffer[..CHECKSUM_OFFSET] == ClearHeader(GetDataSize());
        Encode(key);
      }
    }
  }
}

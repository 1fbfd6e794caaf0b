/** Bytes as the C++ code sees them: unsigned eight-bit values, bitwise exclusive or,
    arithmetic that keeps only the low eight bits, and little-endian integers. */
module Bytes {
  import opened Arithmetic

  type byte = x: int | 0 <= x < 256

  function Pow2(n: nat): (r: nat)
    ensures r > 0
  {
    if n == 0 then 1 else 2 * Pow2(n - 1)
  }

  /** Bitwise exclusive or of the low `n` bits, one bit per step. */
  function XorBits(a: nat, b: nat, n: nat): (r: nat)
    ensures r < Pow2(n)
  {
    if n == 0 then 0 else 2 * XorBits(a / 2, b / 2, n - 1) + (a + b) % 2
  }

  lemma {:induction false} XorBitsCancel(a: nat, b: nat, n: nat)
    requires a < Pow2(n)
    ensures XorBits(XorBits(a, b, n), b, n) == a
  {
    if n > 0 {
      var x := XorBits(a, b, n);
      HalfAndBit(XorBits(a / 2, b / 2, n - 1), a, b);
      assert x / 2 == XorBits(a / 2, b / 2, n - 1);
      XorBitsCancel(a / 2, b / 2, n - 1);
    }
  }

  lemma HalfAndBit(y: nat, a: nat, b: nat)
    ensures (2 * y + (a + b) % 2) / 2 == y
    ensures (2 * y + (a + b) % 2 + b) % 2 == a % 2
    ensures a == 2 * (a / 2) + a % 2
  {
  }

  lemma Pow2Of8()
    ensures Pow2(8) == 256
  {
    assert Pow2(4) == 16;
    assert Pow2(6) == 64;
  }

  /** `a ^ k` stored in an `unsigned char`: only the low eight bits of `k` count. */
  function Xor(a: byte, k: nat): byte {
    Pow2Of8();
    XorBits(a, k, 8)
  }

  /** The law both halves of the cipher rest on. */
  lemma XorCancel(a: byte, k: nat)
    ensures Xor(Xor(a, k), k) == a
  {
    Pow2Of8();
    XorBitsCancel(a, k, 8);
  }

  /** Bit `k` of a number. */
  function BitAt(a: nat, k: nat): (b: nat)
    ensures b < 2
  {
    a / Pow2(k) % 2
  }

  lemma {:induction false} XorBitsAt(a: nat, b: nat, n: nat, k: nat)
    requires k < n
    ensures BitAt(XorBits(a, b, n), k) == (BitAt(a, k) + BitAt(b, k)) % 2
  {
    var y := XorBits(a / 2, b / 2, n - 1);
    var x := XorBits(a, b, n);
    HalfAndBit(y, a, b);
    if k == 0 {
      assert x % 2 == (a + b) % 2;
    } else {
      XorBitsAt(a / 2, b / 2, n - 1, k - 1);
      DivideTwice(a, 2, Pow2(k - 1));
      DivideTwice(b, 2, Pow2(k - 1));
      DivideTwice(x, 2, Pow2(k - 1));
    }
  }

  /** Exclusive or, bit by bit: bit `k` changes if and only if it is set in the second operand. */
  lemma XorFlips(a: byte, n: nat, k: nat)
    requires k < 8
    ensures BitAt(Xor(a, n), k) != BitAt(a, k) <==> BitAt(n, k) == 1
  {
    XorBitsAt(a, n, 8, k);
  }

  /** Conversion to `unsigned char`. */
  function Low(n: nat): byte {
    n % 256
  }

  /** Size in values of a `w`-byte unsigned integer. */
  function Span(w: nat): (r: nat)
    ensures r > 0
  {
    if w == 0 then 1 else 256 * Span(w - 1)
  }

  /** Memory image of a `w`-byte integer on a little-endian machine. */
  function ToLE(v: nat, w: nat): (s: seq<byte>)
    ensures |s| == w
  {
    if w == 0 then [] else [Low(v)] + ToLE(v / 256, w - 1)
  }

  function FromLE(s: seq<byte>): (v: nat)
    ensures v < Span(|s|)
  {
    if s == [] then 0 else s[0] + 256 * FromLE(s[1..])
  }

  lemma {:induction false} LERoundTrip(v: nat, w: nat)
    requires v < Span(w)
    ensures FromLE(ToLE(v, w)) == v
  {
    if w > 0 {
      assert ToLE(v, w)[1..] == ToLE(v / 256, w - 1);
      LERoundTrip(v / 256, w - 1);
    }
  }

  /** Byte `k` of the image is the `k`-th digit to the base 256, the lowest first. */
  lemma {:induction false} LEDigit(v: nat, w: nat, k: nat)
    requires k < w
    ensures ToLE(v, w)[k] == v / Span(k) % 256
  {
    if k > 0 {
      LEDigit(v / 256, w - 1, k - 1);
      DivideTwice(v, 256, Span(k - 1));
    }
  }

  lemma Assoc<T>(a: seq<T>, b: seq<T>, c: seq<T>)
    ensures (a + b) + c == a + (b + c)
  {
  }

  /** `base` with the first `k` elements of `piece` written at `at`: the state of a copying loop. */
  function Spliced(base: seq<byte>, at: nat, piece: seq<byte>, k: nat): (r: seq<byte>)
    requires at + |piece| <= |base| && k <= |piece|
    ensures |r| == |base|
  {
    base[..at] + piece[..k] + base[at + k..]
  }

  lemma SplicedTurn(base: seq<byte>, at: nat, piece: seq<byte>, k: nat)
    requires at + |piece| <= |base| && k < |piece|
    ensures Spliced(base, at, piece, k)[at + k] == base[at + k]
    ensures Spliced(base, at, piece, k)[at + k := piece[k]] == Spliced(base, at, piece, k + 1)
  {
  }
}

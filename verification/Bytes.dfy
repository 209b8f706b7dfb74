/** Bytes, bits and the 32-bit shift operators of JavaScript. */
module Bytes {

  type Byte = b: int | 0 <= b < 256

  /** An accumulator as >>> and & see it: 32 bits, unsigned. */
  type Word = w: int | 0 <= w < 0x1_0000_0000

  function Pow2(k: nat): (p: nat)
    ensures p > 0
  {
    if k == 0 then 1 else 2 * Pow2(k - 1)
  }

  /** v << k: bits shifted past the 32nd are lost. */
  function Shl(v: Word, k: nat): Word {
    v * Pow2(k) % 0x1_0000_0000
  }

  /** v >>> k: k single-bit shifts to the right. */
  function UShr(v: nat, k: nat): nat {
    if k == 0 then v else UShr(v / 2, k - 1)
  }

  /** The lowest n bits of v, most significant first. */
  function LowBits(v: nat, n: nat): (bits: seq<bool>)
    ensures |bits| == n
  {
    if n == 0 then [] else LowBits(v / 2, n - 1) + [v % 2 == 1]
  }

  function Zeros(n: nat): (z: seq<bool>)
    ensures |z| == n && forall i :: 0 <= i < n ==> !z[i]
  {
    seq(n, _ => false)
  }

  /** The bits of a byte string, each byte most significant bit first. */
  function Bits(bytes: seq<Byte>): (bits: seq<bool>)
    ensures |bits| == 8 * |bytes|
  {
    if bytes == [] then [] else LowBits(bytes[0], 8) + Bits(bytes[1..])
  }

  lemma {:induction false} BitsAppend(a: seq<Byte>, b: seq<Byte>)
    ensures Bits(a + b) == Bits(a) + Bits(b)
  {
    if a == [] {
      assert a + b == b;
    } else {
      assert (a + b)[1..] == a[1..] + b;
      BitsAppend(a[1..], b);
    }
  }

  lemma {:induction false} LowBitsSplit(v: nat, n: nat, k: nat)
    requires k <= n
    ensures LowBits(v, n) == LowBits(UShr(v, k), n - k) + LowBits(v, k)
  {
    if k > 0 {
      LowBitsSplit(v / 2, n - 1, k - 1);
    }
  }

  /** Adding a multiple of 2^n leaves the lowest n bits alone. */
  lemma {:induction false} LowBitsAgree(y: nat, c: nat, n: nat)
    ensures y + c * Pow2(n) >= 0
    ensures LowBits(y + c * Pow2(n), n) == LowBits(y, n)
  {
    if n > 0 {
      var t := c * Pow2(n - 1);
      assert c * Pow2(n) == 2 * t;
      LowBitsAgree(y / 2, c, n - 1);
      assert (y + 2 * t) / 2 == y / 2 + t;
    }
  }

  lemma {:induction false} UShrMul(v: nat, b: nat, k: nat)
    requires b < Pow2(k)
    ensures v * Pow2(k) + b >= 0 && UShr(v * Pow2(k) + b, k) == v
  {
    if k > 0 {
      var t := v * Pow2(k - 1);
      assert v * Pow2(k) == 2 * t;
      UShrMul(v, b / 2, k - 1);
      assert (2 * t + b) / 2 == t + b / 2;
    }
  }

  lemma {:induction false} Pow2Add(a: nat, b: nat)
    ensures Pow2(a + b) == Pow2(a) * Pow2(b)
  {
    if a > 0 {
      Pow2Add(a - 1, b);
    }
  }

  lemma Pow2Is()
    ensures Pow2(5) == 32 && Pow2(8) == 256 && Pow2(32) == 0x1_0000_0000
  {
    assert Pow2(5) == 2 * Pow2(4) == 32;
    assert Pow2(8) == 8 * Pow2(5);
    Pow2Add(8, 8);
    Pow2Add(16, 16);
  }

  /** The wrap at 32 bits does not touch the low bits. */
  lemma WrapBits(x: nat, n: nat)
    requires n <= 32
    ensures LowBits(x % 0x1_0000_0000, n) == LowBits(x, n)
  {
    Pow2Is();
    LowBitsAgree(x % 0x1_0000_0000, x / 0x1_0000_0000, 32);
    SameLow(x, x % 0x1_0000_0000, 32, n);
  }

  /** Numbers that agree in their m lowest bits agree in fewer. */
  lemma SameLow(x: nat, y: nat, m: nat, n: nat)
    requires n <= m && LowBits(x, m) == LowBits(y, m)
    ensures LowBits(x, n) == LowBits(y, n)
  {
    LowBitsSplit(x, m, n);
    LowBitsSplit(y, m, n);
    assert LowBits(x, m)[m - n..] == LowBits(x, n);
    assert LowBits(y, m)[m - n..] == LowBits(y, n);
  }

  /** Shifting a byte in: the low bits grow by the bits of the byte. */
  lemma ShiftByteIn(v: Word, b: Byte, n: nat)
    requires n <= 24
    ensures (Shl(v, 8) + b) < 0x1_0000_0000
    ensures LowBits(Shl(v, 8) + b, n + 8) == LowBits(v, n) + LowBits(b, 8)
  {
    Pow2Is();
    var x := v * 256 + b;
    assert Shl(v, 8) + b == x % 0x1_0000_0000;
    WrapBits(x, n + 8);
    LowBitsSplit(x, n + 8, 8);
    UShrMul(v, b, 8);
    LowBitsAgree(b, v, 8);
  }

  lemma {:induction false} LowBitsZero(n: nat)
    ensures LowBits(0, n) == Zeros(n)
  {
    if n > 0 {
      LowBitsZero(n - 1);
      assert Zeros(n) == Zeros(n - 1) + [false];
    }
  }

  /** Shifting left appends zeros to the low bits. */
  lemma ShlBits(v: Word, n: nat, k: nat)
    requires n + k <= 32
    ensures LowBits(Shl(v, k), n + k) == LowBits(v, n) + Zeros(k)
  {
    var x := v * Pow2(k);
    WrapBits(x, n + k);
    LowBitsSplit(x, n + k, k);
    UShrMul(v, 0, k);
    LowBitsAgree(0, v, k);
    LowBitsZero(k);
  }

  // ── The number a bit string spells ─────────────────────────────────────

  function Value(bits: seq<bool>): (n: nat)
    ensures n < Pow2(|bits|)
  {
    if bits == [] then 0
    else 2 * Value(bits[..|bits| - 1]) + if bits[|bits| - 1] then 1 else 0
  }

  lemma {:induction false} LowBitsOfValue(bits: seq<bool>)
    ensures LowBits(Value(bits), |bits|) == bits
  {
    if bits != [] {
      LowBitsOfValue(bits[..|bits| - 1]);
    }
  }

  lemma {:induction false} ValueOfLowBits(w: nat, n: nat)
    requires w < Pow2(n)
    ensures Value(LowBits(w, n)) == w
  {
    if n > 0 {
      ValueOfLowBits(w / 2, n - 1);
      assert LowBits(w, n)[..n - 1] == LowBits(w / 2, n - 1);
    }
  }
}

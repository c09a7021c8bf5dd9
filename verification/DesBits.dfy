/** 32-bit words as the cipher uses them: sequences of bits, the most significant first, never added or multiplied. */
module DesBits {

  type Word = w: seq<bool> | |w| == 32 witness seq(32, i => false)

  function Zero(): Word { seq(32, i => false) }

  function Or(a: Word, b: Word): Word { seq(32, i requires 0 <= i < 32 => a[i] || b[i]) }

  function And(a: Word, b: Word): Word { seq(32, i requires 0 <= i < 32 => a[i] && b[i]) }

  function Xor(a: Word, b: Word): Word { seq(32, i requires 0 <= i < 32 => a[i] != b[i]) }

  /** Left shift: bits pushed past the most significant one are lost. */
  function Shl(w: Word, k: nat): Word
    requires k <= 32
  {
    seq(32, i requires 0 <= i < 32 => i + k < 32 && w[i + k])
  }

  /** Right shift of an unsigned word. */
  function Shr(w: Word, k: nat): Word
    requires k <= 32
  {
    seq(32, i requires 0 <= i < 32 => k <= i && w[i - k])
  }

  /** The n-th one-bit mask: 0x80000000 shifted right n times. */
  function Bit32(n: nat): Word
    requires n < 32
  {
    seq(32, i => i == n)
  }

  /** The mask with ones from bit lo up to, but not including, bit hi. */
  function Ones(lo: nat, hi: nat): Word { seq(32, i => lo <= i < hi) }

  /** The number written with the given binary digits, as an unsigned word or part of one is read. */
  function Value(bits: seq<bool>): (v: nat) {
    if bits == [] then 0 else 2 * Value(bits[..|bits| - 1]) + (if bits[|bits| - 1] then 1 else 0)
  }

  function Pow2(n: nat): (p: nat)
    ensures 0 < p
  {
    if n == 0 then 1 else 2 * Pow2(n - 1)
  }

  lemma {:induction false} ValueBound(bits: seq<bool>)
    ensures Value(bits) < Pow2(|bits|)
  {
    if bits != [] {
      ValueBound(bits[..|bits| - 1]);
    }
  }

  /** Bit j of an index of w bits, from the most significant one. */
  predicate IndexBit(i: nat, w: nat, j: nat)
    requires j < w
    decreases w
  {
    if j == w - 1 then i % 2 == 1 else IndexBit(i / 2, w - 1, j)
  }

  /** The last digit is the remainder, the others are the half. */
  lemma LastDigit(bits: seq<bool>)
    requires bits != []
    ensures Value(bits) / 2 == Value(bits[..|bits| - 1])
    ensures Value(bits) % 2 == 1 <==> bits[|bits| - 1]
  {
    var half := Value(bits[..|bits| - 1]);
    assert Value(bits) == 2 * half + if bits[|bits| - 1] then 1 else 0;
  }

  /** The index bits of a number are the digits it was read from. */
  lemma {:induction false} IndexBitOfValue(bits: seq<bool>, j: nat)
    requires j < |bits|
    ensures IndexBit(Value(bits), |bits|, j) <==> bits[j]
  {
    hide Value;
    var p := bits[..|bits| - 1];
    LastDigit(bits);
    if j < |bits| - 1 {
      IndexBitOfValue(p, j);
    }
  }

  /** The bits of an index put together from a first part of a bits and a second part of b bits. */
  lemma {:induction false} IndexJoin(hi: nat, lo: nat, a: nat, b: nat, j: nat)
    requires j < a + b && lo < Pow2(b)
    ensures IndexBit(hi * Pow2(b) + lo, a + b, j) <==> if j < a then IndexBit(hi, a, j) else IndexBit(lo, b, j - a)
    decreases b
  {
    if b == 0 {
      assert hi * Pow2(b) + lo == hi;
    } else {
      var x := hi * Pow2(b - 1);
      assert hi * Pow2(b) == 2 * x;
      assert (2 * x + lo) % 2 == lo % 2 && (2 * x + lo) / 2 == x + lo / 2;
      if j < a + b - 1 {
        IndexJoin(hi, lo / 2, a, b - 1, j);
      }
    }
  }

  lemma XorTwice(a: Word, b: Word)
    ensures Xor(Xor(a, b), b) == a
  {
  }
}

/** The save file's encryption: every write is XORed with a key stream of its own, which starts afresh each time. */
module SaveCipher {

  type Byte = b: int | 0 <= b < 256

  /** Exclusive or of the low n bits. */
  function XorBits(a: nat, b: nat, n: nat): nat
    decreases n
  {
    if n == 0 then 0 else 2 * XorBits(a / 2, b / 2, n - 1) + (if a % 2 == b % 2 then 0 else 1)
  }

  function Pow2(n: nat): nat { if n == 0 then 1 else 2 * Pow2(n - 1) }

  lemma {:induction false} XorBitsBound(a: nat, b: nat, n: nat)
    ensures XorBits(a, b, n) < Pow2(n)
    decreases n
  {
    if n != 0 {
      XorBitsBound(a / 2, b / 2, n - 1);
    }
  }

  lemma {:induction false} XorBitsTwice(a: nat, b: nat, n: nat)
    requires a < Pow2(n)
    ensures XorBits(XorBits(a, b, n), b, n) == a
    decreases n
  {
    if n != 0 {
      XorBitsTwice(a / 2, b / 2, n - 1);
    }
  }

  function Xor(a: Byte, b: Byte): Byte {
    XorBitsBound(a, b, 8);
    assert Pow2(8) == 2 * Pow2(7) && Pow2(7) == 2 * Pow2(6) && Pow2(6) == 2 * Pow2(5) && Pow2(5) == 2 * Pow2(4);
    XorBits(a, b, 8)
  }

  lemma XorTwice(a: Byte, b: Byte)
    ensures Xor(Xor(a, b), b) == a
  {
    assert Pow2(8) == 2 * Pow2(7) && Pow2(7) == 2 * Pow2(6) && Pow2(6) == 2 * Pow2(5) && Pow2(5) == 2 * Pow2(4);
    XorBitsTwice(a, b, 8);
  }

  /** The two key strings, without the terminators they wrap at. */
  const ENCSTR: seq<Byte> :=
    [192, 107, 124, 124, 96, 169, 89, 46, 39, 197, 209, 129, 43, 191, 126, 114, 34, 93, 160, 95,
     147, 61, 49, 225, 41, 146, 138, 161, 116, 59, 9, 36, 184, 204, 47, 60, 35, 129, 172]
  const STATLIST: seq<Byte> :=
    [237, 107, 108, 123, 43, 132, 173, 203, 105, 100, 74, 241, 140, 61, 52, 58, 201, 185, 225,
     119, 75, 60, 202, 209, 139, 44, 44, 55, 185, 47, 82, 107, 37, 8, 202, 12, 166]

  /** The feedback byte: a product and a sum, each cut to a byte. */
  function Feedback(fb: int, a: int, b: int): Byte { (fb + a * b) % 256 }

  /** Where the key stream stands: two places in the strings and the feedback byte. */
  datatype Pad = Pad(e1: nat, e2: nat, fb: Byte) {
    predicate Valid() { e1 < |ENCSTR| && e2 < |STATLIST| }

    function KeyByte(): Byte
      requires Valid()
    {
      Xor(Xor(ENCSTR[e1], STATLIST[e2]), fb)
    }

    function Next(): (p: Pad)
      requires Valid()
      ensures p.Valid()
    {
      Pad(if e1 + 1 == |ENCSTR| then 0 else e1 + 1, if e2 + 1 == |STATLIST| then 0 else e2 + 1,
          Feedback(fb, ENCSTR[e1], STATLIST[e2]))
    }
  }

  const START := Pad(0, 0, 0)

  /** A run of bytes under the key stream from p on. */
  function CryptFrom(s: seq<Byte>, p: Pad): (c: seq<Byte>)
    requires p.Valid()
    ensures |c| == |s|
  {
    if s == [] then [] else [Xor(s[0], p.KeyByte())] + CryptFrom(s[1..], p.Next())
  }

  /** One write, as it appears in the file. */
  function Crypt(s: seq<Byte>): (c: seq<Byte>)
    ensures |c| == |s|
  {
    CryptFrom(s, START)
  }

  lemma {:induction false} CryptFromTwice(s: seq<Byte>, p: Pad)
    requires p.Valid()
    ensures CryptFrom(CryptFrom(s, p), p) == s
  {
    if s != [] {
      XorTwice(s[0], p.KeyByte());
      CryptFromTwice(s[1..], p.Next());
    }
  }

  /** Reading back what one write produced gives the bytes written. */
  lemma CryptTwice(s: seq<Byte>)
    ensures Crypt(Crypt(s)) == s
  {
    CryptFromTwice(s, START);
  }

  // ----- the stream, byte by byte

  /** Bit j of a number, the least significant first. */
  predicate Bit(a: nat, j: nat)
    decreases j
  {
    if j == 0 then a % 2 == 1 else Bit(a / 2, j - 1)
  }

  lemma {:induction false} XorBitsBit(a: nat, b: nat, n: nat, j: nat)
    requires j < n
    ensures Bit(XorBits(a, b, n), j) <==> Bit(a, j) != Bit(b, j)
    decreases n
  {
    var half := XorBits(a / 2, b / 2, n - 1);
    var digit := if a % 2 == b % 2 then 0 else 1;
    assert (2 * half + digit) / 2 == half && (2 * half + digit) % 2 == digit;
    if j != 0 {
      XorBitsBit(a / 2, b / 2, n - 1, j - 1);
    }
  }

  /** Exclusive or is what it is called, bit by bit. */
  lemma XorBit(a: Byte, b: Byte, j: nat)
    requires j < 8
    ensures Bit(Xor(a, b), j) <==> Bit(a, j) != Bit(b, j)
  {
    XorBitsBit(a, b, 8, j);
  }

  /** The bytes of the two strings, either string starting over at its end. */
  function EncAt(i: nat): Byte { ENCSTR[i % |ENCSTR|] }

  function StatAt(i: nat): Byte { STATLIST[i % |STATLIST|] }

  function Product(a: nat, b: nat): nat { a * b }

  /** The sum of the products of the first i pairs. */
  function Products(i: nat): nat {
    if i == 0 then 0 else Products(i - 1) + Product(EncAt(i - 1), StatAt(i - 1))
  }

  function PadAfter(i: nat): (p: Pad)
    ensures p.Valid()
  {
    if i == 0 then START else PadAfter(i - 1).Next()
  }

  lemma {:induction false} PadIs(i: nat)
    ensures PadAfter(i) == Pad(i % |ENCSTR|, i % |STATLIST|, Products(i) % 256)
  {
    hide Pad.Next, Products;
    if i == 0 {
      NoProducts();
    } else {
      PadIs(i - 1);
      PadNext(i - 1, PadAfter(i - 1));
    }
  }

  lemma NoProducts()
    ensures Products(0) == 0
  {
  }

  lemma PadNext(i: nat, p: Pad)
    requires p == Pad(i % |ENCSTR|, i % |STATLIST|, Products(i) % 256)
    ensures p.Next() == Pad((i + 1) % |ENCSTR|, (i + 1) % |STATLIST|, Products(i + 1) % 256)
  {
    hide Xor, Products;
    WrapStep(i, |ENCSTR|);
    WrapStep(i, |STATLIST|);
    SumStep(Products(i), Product(EncAt(i), StatAt(i)));
    OneMoreProduct(i);
    hide *;
  }

  lemma OneMoreProduct(i: nat)
    ensures Products(i + 1) == Products(i) + Product(EncAt(i), StatAt(i))
  {
    hide EncAt, StatAt, Product;
  }

  lemma WrapStep(i: nat, n: nat)
    requires 1 < n
    ensures (i + 1) % n == if i % n + 1 == n then 0 else i % n + 1
  {
    var q, r := i / n, i % n;
    assert i == n * q + r;
    if r + 1 == n {
      assert i + 1 == n * (q + 1);
      ModIs(i + 1, n, q + 1, 0);
    } else {
      ModIs(i + 1, n, q, r + 1);
    }
  }

  lemma ModIs(a: nat, n: nat, q: nat, r: nat)
    requires 0 < n && a == n * q + r && r < n
    ensures a % n == r
  {
    var d := a / n - q;
    assert n * d == r - a % n;
    BigMultiple(n, d);
  }

  lemma BigMultiple(n: int, d: int)
    requires 0 < n
    ensures (d >= 1 ==> n * d >= n) && (d <= -1 ==> n * d <= 0 - n)
  {
    if d >= 1 {
      assert n * (d - 1) >= 0;
    }
    if d <= -1 {
      assert n * (-1 - d) >= 0;
    }
  }

  lemma SumStep(a: nat, b: nat)
    ensures (a % 256 + b) % 256 == (a + b) % 256
  {
  }

  lemma {:induction false} CryptFromAt(s: seq<Byte>, n: nat, i: nat)
    requires i < |s|
    ensures CryptFrom(s, PadAfter(n))[i] == Xor(s[i], PadAfter(n + i).KeyByte())
    decreases i
  {
    hide Xor, PadAfter, Pad.Next, Pad.KeyByte, CryptFrom;
    CryptFromStep(s, PadAfter(n));
    PadStep(n);
    if i != 0 {
      CryptFromAt(s[1..], n + 1, i - 1);
    }
  }

  lemma CryptFromStep(s: seq<Byte>, p: Pad)
    requires s != [] && p.Valid()
    ensures CryptFrom(s, p) == [Xor(s[0], p.KeyByte())] + CryptFrom(s[1..], p.Next())
  {
    hide Xor, Pad.KeyByte, Pad.Next;
  }

  lemma PadStep(i: nat)
    ensures PadAfter(i + 1) == PadAfter(i).Next()
  {
  }

  /** Every bit of a write is masked with one bit of each string and one of the sum of the products before it. */
  lemma CryptBit(s: seq<Byte>, i: nat, j: nat)
    requires i < |s| && j < 8
    ensures Bit(Crypt(s)[i], j)
       <==> (Bit(s[i], j) != Bit(EncAt(i), j)) != (Bit(StatAt(i), j) != Bit(Products(i) % 256, j))
  {
    hide Xor, Bit, Products, CryptFrom;
    CryptFromAt(s, 0, i);
    PadIs(i);
    var e, t, fb := EncAt(i), StatAt(i), Products(i) % 256;
    assert PadAfter(i).KeyByte() == Xor(Xor(e, t), fb);
    XorBit(s[i], Xor(Xor(e, t), fb), j);
    XorBit(Xor(e, t), fb, j);
    XorBit(e, t, j);
  }

  /** Bit j of a hexadecimal digit, the most significant first. */
  predicate HexBit(d: nat, j: nat) {
    match j
    case 0 => d >= 8
    case 1 => d == 4 || d == 5 || d == 6 || d == 7 || d == 12 || d == 13 || d == 14 || d == 15
    case 2 => d == 2 || d == 3 || d == 6 || d == 7 || d == 10 || d == 11 || d == 14 || d == 15
    case _ => d == 1 || d == 3 || d == 5 || d == 7 || d == 9 || d == 11 || d == 13 || d == 15
  }

  /** Exclusive or of two hexadecimal digits. */
  function HexXor(a: nat, b: nat): nat {
    (if HexBit(a, 0) != HexBit(b, 0) then 8 else 0) + (if HexBit(a, 1) != HexBit(b, 1) then 4 else 0)
    + (if HexBit(a, 2) != HexBit(b, 2) then 2 else 0) + (if HexBit(a, 3) != HexBit(b, 3) then 1 else 0)
  }

  lemma HexHalves(a: nat)
    requires a < 16
    ensures (a % 2 == 1 <==> HexBit(a, 3)) && (a / 2 % 2 == 1 <==> HexBit(a, 2))
    ensures (a / 2 / 2 % 2 == 1 <==> HexBit(a, 1)) && (a / 2 / 2 / 2 % 2 == 1 <==> HexBit(a, 0))
  {
  }

  lemma XorBitsStep(a: nat, b: nat, n: nat)
    requires n != 0
    ensures XorBits(a, b, n) == 2 * XorBits(a / 2, b / 2, n - 1) + (if a % 2 == b % 2 then 0 else 1)
  {
  }

  lemma FourBits(a: nat, b: nat, n: nat)
    requires 4 <= n
    ensures XorBits(a, b, n) == 16 * XorBits(a / 2 / 2 / 2 / 2, b / 2 / 2 / 2 / 2, n - 4)
      + 8 * (if a / 2 / 2 / 2 % 2 == b / 2 / 2 / 2 % 2 then 0 else 1) + 4 * (if a / 2 / 2 % 2 == b / 2 / 2 % 2 then 0 else 1)
      + 2 * (if a / 2 % 2 == b / 2 % 2 then 0 else 1) + (if a % 2 == b % 2 then 0 else 1)
  {
    hide XorBits;
    XorBitsStep(a, b, n);
    XorBitsStep(a / 2, b / 2, n - 1);
    XorBitsStep(a / 2 / 2, b / 2 / 2, n - 2);
    XorBitsStep(a / 2 / 2 / 2, b / 2 / 2 / 2, n - 3);
  }

  lemma LowDigit(p: nat, q: nat)
    requires q < 16
    ensures var a := 16 * p + q;
      && a % 2 == q % 2 && a / 2 % 2 == q / 2 % 2 && a / 2 / 2 % 2 == q / 2 / 2 % 2
      && a / 2 / 2 / 2 % 2 == q / 2 / 2 / 2 % 2 && a / 2 / 2 / 2 / 2 == p
  {
    var a := 16 * p + q;
    assert a / 2 == 8 * p + q / 2;
    assert a / 2 / 2 == 4 * p + q / 2 / 2;
    assert a / 2 / 2 / 2 == 2 * p + q / 2 / 2 / 2;
  }

  lemma XorLow(p: nat, q: nat, r: nat, s: nat, n: nat)
    requires q < 16 && s < 16 && 4 <= n
    ensures XorBits(16 * p + q, 16 * r + s, n) == 16 * XorBits(p, r, n - 4) + HexXor(q, s)
  {
    hide XorBits, HexBit;
    LowDigit(p, q);
    LowDigit(r, s);
    FourBits(16 * p + q, 16 * r + s, n);
    HexHalves(q);
    HexHalves(s);
  }

  /** Exclusive or digit by digit. */
  lemma XorDigits(p: nat, q: nat, r: nat, s: nat)
    requires p < 16 && q < 16 && r < 16 && s < 16
    ensures Xor(16 * p + q, 16 * r + s) == 16 * HexXor(p, r) + HexXor(q, s)
  {
    hide XorBits, HexXor;
    XorLow(p, q, r, s, 8);
    XorLow(0, p, 0, r, 4);
    NoBits(0, 0);
  }

  lemma NoBits(a: nat, b: nat)
    ensures XorBits(a, b, 0) == 0
  {
  }

  /** One more byte of the stream, in hexadecimal. */
  lemma StreamStep(i: nat, a: nat, b: nat, e1: nat, e0: nat, t1: nat, t0: nat, f1: nat, f0: nat, k1: nat, k0: nat)
    requires e1 < 16 && e0 < 16 && t1 < 16 && t0 < 16 && f1 < 16 && f0 < 16 && k1 < 16 && k0 < 16
    requires a < |ENCSTR| && b < |STATLIST| && ENCSTR[a] == 16 * e1 + e0 && STATLIST[b] == 16 * t1 + t0
    requires PadAfter(i) == Pad(a, b, 16 * f1 + f0)
    requires HexXor(HexXor(e1, t1), f1) == k1 && HexXor(HexXor(e0, t0), f0) == k0
    ensures PadAfter(i).KeyByte() == 16 * k1 + k0
    ensures PadAfter(i + 1) == Pad(if a + 1 == |ENCSTR| then 0 else a + 1, if b + 1 == |STATLIST| then 0 else b + 1,
                                   Feedback(16 * f1 + f0, 16 * e1 + e0, 16 * t1 + t0))
  {
    hide Xor, Feedback, HexBit;
    XorDigits(e1, e0, t1, t0);
    XorDigits(HexXor(e1, t1), HexXor(e0, t0), f1, f0);
  }

  lemma NoStep()
    ensures PadAfter(0) == Pad(0, 0, 0)
  {
  }

  lemma Stream4()
    ensures PadAfter(4) == Pad(4, 4, 0x5D)
    ensures PadAfter(0).KeyByte() == 0x2D && PadAfter(1).KeyByte() == 0xC0
    ensures PadAfter(2).KeyByte() == 0x69 && PadAfter(3).KeyByte() == 0xCE
  {
    hide PadAfter, Pad.KeyByte;
    NoStep();
    StreamStep(0, 0, 0, 12, 0, 14, 13, 0, 0, 2, 13);
    StreamStep(1, 1, 1, 6, 11, 6, 11, 12, 0, 12, 0);
    StreamStep(2, 2, 2, 7, 12, 6, 12, 7, 9, 6, 9);
    StreamStep(3, 3, 3, 7, 12, 7, 11, 12, 9, 12, 14);
  }

  lemma Stream8()
    ensures PadAfter(8) == Pad(8, 8, 0x40)
    ensures PadAfter(4).KeyByte() == 0x16 && PadAfter(5).KeyByte() == 0x50
    ensures PadAfter(6).KeyByte() == 0x55 && PadAfter(7).KeyByte() == 0x23
  {
    hide PadAfter, Pad.KeyByte;
    Stream4();
    StreamStep(4, 4, 4, 6, 0, 2, 11, 5, 13, 1, 6);
    StreamStep(5, 5, 5, 10, 9, 8, 4, 7, 13, 5, 0);
    StreamStep(6, 6, 6, 5, 9, 10, 13, 10, 1, 5, 5);
    StreamStep(7, 7, 7, 2, 14, 12, 11, 12, 6, 2, 3);
  }

  lemma Stream12()
    ensures PadAfter(12) == Pad(12, 12, 0x0E)
    ensures PadAfter(8).KeyByte() == 0x0E && PadAfter(9).KeyByte() == 0x9E
    ensures PadAfter(10).KeyByte() == 0xA8 && PadAfter(11).KeyByte() == 0xED
  {
    hide PadAfter, Pad.KeyByte;
    Stream8();
    StreamStep(8, 8, 8, 2, 7, 6, 9, 4, 0, 0, 14);
    StreamStep(9, 9, 9, 12, 5, 6, 4, 3, 15, 9, 14);
    StreamStep(10, 10, 10, 13, 1, 4, 10, 3, 3, 10, 8);
    StreamStep(11, 11, 11, 8, 1, 15, 1, 9, 13, 14, 13);
  }

  lemma Stream16()
    ensures PadAfter(16) == Pad(16, 16, 0x81)
    ensures PadAfter(12).KeyByte() == 0xA9 && PadAfter(13).KeyByte() == 0x10
    ensures PadAfter(14).KeyByte() == 0x5F && PadAfter(15).KeyByte() == 0xE5
  {
    hide PadAfter, Pad.KeyByte;
    Stream12();
    StreamStep(12, 12, 12, 2, 11, 8, 12, 0, 14, 10, 9);
    StreamStep(13, 13, 13, 11, 15, 3, 13, 9, 2, 1, 0);
    StreamStep(14, 14, 14, 7, 14, 3, 4, 1, 5, 5, 15);
    StreamStep(15, 15, 15, 7, 2, 3, 10, 10, 13, 14, 5);
  }

  lemma Stream20()
    ensures PadAfter(20) == Pad(20, 20, 0x31)
    ensures PadAfter(16).KeyByte() == 0x6A && PadAfter(17).KeyByte() == 0xD7
    ensures PadAfter(18).KeyByte() == 0x29 && PadAfter(19).KeyByte() == 0x20
  {
    hide PadAfter, Pad.KeyByte;
    Stream16();
    StreamStep(16, 16, 16, 2, 2, 12, 9, 8, 1, 6, 10);
    StreamStep(17, 17, 17, 5, 13, 11, 9, 3, 3, 13, 7);
    StreamStep(18, 18, 18, 10, 0, 14, 1, 6, 8, 2, 9);
    StreamStep(19, 19, 19, 5, 15, 7, 7, 0, 8, 2, 0);
  }

  lemma Stream24()
    ensures PadAfter(24) == Pad(24, 24, 0xE9)
    ensures PadAfter(20).KeyByte() == 0xE9 && PadAfter(21).KeyByte() == 0x43
    ensures PadAfter(22).KeyByte() == 0x75 && PadAfter(23).KeyByte() == 0x08
  {
    hide PadAfter, Pad.KeyByte;
    Stream20();
    StreamStep(20, 20, 20, 9, 3, 4, 11, 3, 1, 14, 9);
    StreamStep(21, 21, 21, 3, 13, 3, 12, 4, 2, 4, 3);
    StreamStep(22, 22, 22, 3, 1, 12, 10, 8, 14, 7, 5);
    StreamStep(23, 23, 23, 14, 1, 13, 1, 3, 8, 0, 8);
  }

  lemma Stream28()
    ensures PadAfter(28) == Pad(28, 28, 0x93)
    ensures PadAfter(24).KeyByte() == 0x4B && PadAfter(25).KeyByte() == 0x92
    ensures PadAfter(26).KeyByte() == 0xE2 && PadAfter(27).KeyByte() == 0x6A
  {
    hide PadAfter, Pad.KeyByte;
    Stream24();
    StreamStep(24, 24, 24, 2, 9, 8, 11, 14, 9, 4, 11);
    StreamStep(25, 25, 25, 9, 2, 2, 12, 2, 12, 9, 2);
    StreamStep(26, 26, 26, 8, 10, 2, 12, 4, 4, 14, 2);
    StreamStep(27, 27, 27, 10, 1, 3, 7, 15, 12, 6, 10);
  }

  lemma Stream32()
    ensures PadAfter(32) == Pad(32, 32, 0x2A)
    ensures PadAfter(28).KeyByte() == 0x5E && PadAfter(29).KeyByte() == 0x73
    ensures PadAfter(30).KeyByte() == 0x67 && PadAfter(31).KeyByte() == 0x51
  {
    hide PadAfter, Pad.KeyByte;
    Stream28();
    StreamStep(28, 28, 28, 7, 4, 11, 9, 9, 3, 5, 14);
    StreamStep(29, 29, 29, 3, 11, 2, 15, 6, 7, 7, 3);
    StreamStep(30, 30, 30, 0, 9, 5, 2, 3, 12, 6, 7);
    StreamStep(31, 31, 31, 2, 4, 6, 11, 1, 14, 5, 1);
  }

  lemma Stream36()
    ensures PadAfter(36) == Pad(36, 36, 0x08)
    ensures PadAfter(32).KeyByte() == 0xB7 && PadAfter(33).KeyByte() == 0x06
    ensures PadAfter(34).KeyByte() == 0xC7 && PadAfter(35).KeyByte() == 0x08
  {
    hide PadAfter, Pad.KeyByte;
    Stream32();
    StreamStep(32, 32, 32, 11, 8, 2, 5, 2, 10, 11, 7);
    StreamStep(33, 33, 33, 12, 12, 0, 8, 12, 2, 0, 6);
    StreamStep(34, 34, 34, 2, 15, 12, 10, 2, 2, 12, 7);
    StreamStep(35, 35, 35, 3, 12, 0, 12, 3, 8, 0, 8);
  }

  lemma Stream40()
    ensures PadAfter(40) == Pad(1, 3, 0x0B)
    ensures PadAfter(36).KeyByte() == 0x8D && PadAfter(37).KeyByte() == 0xD6
    ensures PadAfter(38).KeyByte() == 0xE0 && PadAfter(39).KeyByte() == 0xA7
  {
    hide PadAfter, Pad.KeyByte;
    Stream36();
    StreamStep(36, 36, 36, 2, 3, 10, 6, 0, 8, 8, 13);
    StreamStep(37, 37, 0, 8, 1, 14, 13, 11, 10, 13, 6);
    StreamStep(38, 38, 1, 10, 12, 6, 11, 2, 7, 14, 0);
    StreamStep(39, 0, 2, 12, 0, 6, 12, 0, 11, 10, 7);
  }

  /** Every byte of a write under the byte of the stream that stands in its place. */
  lemma CryptAt(s: seq<Byte>, i: nat)
    requires i < |s|
    ensures Crypt(s)[i] == Xor(s[i], PadAfter(i).KeyByte())
  {
    hide Xor, CryptFrom, Pad.KeyByte;
    CryptFromAt(s, 0, i);
  }

  /** One step of either loop: the first byte moves from what is left to what is done. */
  lemma CryptStep(done: seq<Byte>, s: seq<Byte>, i: nat, p: Pad, all: seq<Byte>)
    requires i < |s| && p.Valid() && done + CryptFrom(s[i..], p) == all
    ensures (done + [Xor(s[i], p.KeyByte())]) + CryptFrom(s[i + 1..], p.Next()) == all
  {
    assert s[i..][1..] == s[i + 1..];
    assert CryptFrom(s[i..], p) == [Xor(s[i], p.KeyByte())] + CryptFrom(s[i + 1..], p.Next());
  }

  /** The decrypting loop. */
  method Decrypt(raw: seq<Byte>) returns (s: seq<Byte>)
    ensures s == Crypt(raw)
  {
    hide CryptFrom, Xor;
    s := [];
    var p, i := START, 0;
    while i < |raw|
      invariant 0 <= i <= |raw| && |s| == i && p.Valid()
      invariant s + CryptFrom(raw[i..], p) == Crypt(raw)
    {
      CryptStep(s, raw, i, p, Crypt(raw));
      s := s + [Xor(raw[i], p.KeyByte())];
      p := p.Next();
      i := i + 1;
    }
  }
}

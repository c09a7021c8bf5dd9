/**
 * What the cipher's tables hold, said without naming an entry: the design rules they obey, and known blocks and keys
 * with what the standard makes of them.
 */
module DesAnswers {
  import opened DesBits
  import opened DesTables
  import opened DesStandard

  /** A word in hexadecimal. */
  datatype Hex = Hex(a: Nibble, b: Nibble, c: Nibble, d: Nibble, e: Nibble, f: Nibble, g: Nibble, h: Nibble) {
    function At(i: nat): Nibble {
      match i
      case 0 => a case 1 => b case 2 => c case 3 => d case 4 => e case 5 => f case 6 => g case _ => h
    }

    function Word(): Word { seq(32, i requires 0 <= i < 32 => DigitBit(At(i / 4), i % 4)) }
  }

  /** Bit j of a hexadecimal digit, the most significant first. */
  predicate DigitBit(d: Nibble, j: nat) {
    match j
    case 0 => d >= 8
    case 1 => d == 4 || d == 5 || d == 6 || d == 7 || d == 12 || d == 13 || d == 14 || d == 15
    case 2 => d == 2 || d == 3 || d == 6 || d == 7 || d == 10 || d == 11 || d == 14 || d == 15
    case _ => d == 1 || d == 3 || d == 5 || d == 7 || d == 9 || d == 11 || d == 13 || d == 15
  }

  lemma DigitValue(d: Nibble)
    ensures d == (if DigitBit(d, 0) then 8 else 0) + (if DigitBit(d, 1) then 4 else 0)
                 + (if DigitBit(d, 2) then 2 else 0) + (if DigitBit(d, 3) then 1 else 0)
  {
  }

  lemma DigitIndex(d: Nibble, j: nat)
    requires j < 4
    ensures IndexBit(d, 4, j) <==> DigitBit(d, j)
  {
  }

  // ----- one round without a key

  /** Without a key, a digit of the word goes into a box, with the nearest bits of its neighbours on either side. */
  function Plain(b: nat, before: Nibble, at: Nibble, behind: Nibble): (v: Nibble)
    requires b < 8
  {
    Cell(b, (if DigitBit(before, 3) then 2 else 0) + (if DigitBit(behind, 0) then 1 else 0), at)
  }

  predicate Substituted(r: Hex, s: Hex) {
    && Plain(0, r.h, r.a, r.b) == s.a && Plain(1, r.a, r.b, r.c) == s.b && Plain(2, r.b, r.c, r.d) == s.c
    && Plain(3, r.c, r.d, r.e) == s.d && Plain(4, r.d, r.e, r.f) == s.e && Plain(5, r.e, r.f, r.g) == s.f
    && Plain(6, r.f, r.g, r.h) == s.g && Plain(7, r.g, r.h, r.a) == s.h
  }

  /** Bit o of a word the P-box has permuted, read from the digits before it. */
  predicate Placed(s: Hex, o: nat) {
    match o
    case 0 => DigitBit(s.d, 3) case 1 => DigitBit(s.b, 2) case 2 => DigitBit(s.e, 3) case 3 => DigitBit(s.f, 0)
    case 4 => DigitBit(s.h, 0) case 5 => DigitBit(s.c, 3) case 6 => DigitBit(s.g, 3) case 7 => DigitBit(s.e, 0)
    case 8 => DigitBit(s.a, 0) case 9 => DigitBit(s.d, 2) case 10 => DigitBit(s.f, 2) case 11 => DigitBit(s.g, 1)
    case 12 => DigitBit(s.b, 0) case 13 => DigitBit(s.e, 1) case 14 => DigitBit(s.h, 2) case 15 => DigitBit(s.c, 1)
    case 16 => DigitBit(s.a, 1) case 17 => DigitBit(s.b, 3) case 18 => DigitBit(s.f, 3) case 19 => DigitBit(s.d, 1)
    case 20 => DigitBit(s.h, 3) case 21 => DigitBit(s.g, 2) case 22 => DigitBit(s.a, 2) case 23 => DigitBit(s.c, 0)
    case 24 => DigitBit(s.e, 2) case 25 => DigitBit(s.d, 0) case 26 => DigitBit(s.h, 1) case 27 => DigitBit(s.b, 1)
    case 28 => DigitBit(s.f, 1) case 29 => DigitBit(s.c, 2) case 30 => DigitBit(s.a, 3) case _ => DigitBit(s.g, 0)
  }

  predicate MixedDigit(l: Nibble, s: Hex, t: Nibble, o: nat) {
    && DigitBit(t, 0) == (DigitBit(l, 0) != Placed(s, o)) && DigitBit(t, 1) == (DigitBit(l, 1) != Placed(s, o + 1))
    && DigitBit(t, 2) == (DigitBit(l, 2) != Placed(s, o + 2)) && DigitBit(t, 3) == (DigitBit(l, 3) != Placed(s, o + 3))
  }

  /** t is l with the permuted s added. */
  predicate Mixed(l: Hex, s: Hex, t: Hex) {
    && DigitBit(t.a, 0) == (DigitBit(l.a, 0) != DigitBit(s.d, 3)) && DigitBit(t.a, 1) == (DigitBit(l.a, 1) != DigitBit(s.b, 2))
    && DigitBit(t.a, 2) == (DigitBit(l.a, 2) != DigitBit(s.e, 3)) && DigitBit(t.a, 3) == (DigitBit(l.a, 3) != DigitBit(s.f, 0))
    && DigitBit(t.b, 0) == (DigitBit(l.b, 0) != DigitBit(s.h, 0)) && DigitBit(t.b, 1) == (DigitBit(l.b, 1) != DigitBit(s.c, 3))
    && DigitBit(t.b, 2) == (DigitBit(l.b, 2) != DigitBit(s.g, 3)) && DigitBit(t.b, 3) == (DigitBit(l.b, 3) != DigitBit(s.e, 0))
    && DigitBit(t.c, 0) == (DigitBit(l.c, 0) != DigitBit(s.a, 0)) && DigitBit(t.c, 1) == (DigitBit(l.c, 1) != DigitBit(s.d, 2))
    && DigitBit(t.c, 2) == (DigitBit(l.c, 2) != DigitBit(s.f, 2)) && DigitBit(t.c, 3) == (DigitBit(l.c, 3) != DigitBit(s.g, 1))
    && DigitBit(t.d, 0) == (DigitBit(l.d, 0) != DigitBit(s.b, 0)) && DigitBit(t.d, 1) == (DigitBit(l.d, 1) != DigitBit(s.e, 1))
    && DigitBit(t.d, 2) == (DigitBit(l.d, 2) != DigitBit(s.h, 2)) && DigitBit(t.d, 3) == (DigitBit(l.d, 3) != DigitBit(s.c, 1))
    && DigitBit(t.e, 0) == (DigitBit(l.e, 0) != DigitBit(s.a, 1)) && DigitBit(t.e, 1) == (DigitBit(l.e, 1) != DigitBit(s.b, 3))
    && DigitBit(t.e, 2) == (DigitBit(l.e, 2) != DigitBit(s.f, 3)) && DigitBit(t.e, 3) == (DigitBit(l.e, 3) != DigitBit(s.d, 1))
    && DigitBit(t.f, 0) == (DigitBit(l.f, 0) != DigitBit(s.h, 3)) && DigitBit(t.f, 1) == (DigitBit(l.f, 1) != DigitBit(s.g, 2))
    && DigitBit(t.f, 2) == (DigitBit(l.f, 2) != DigitBit(s.a, 2)) && DigitBit(t.f, 3) == (DigitBit(l.f, 3) != DigitBit(s.c, 0))
    && DigitBit(t.g, 0) == (DigitBit(l.g, 0) != DigitBit(s.e, 2)) && DigitBit(t.g, 1) == (DigitBit(l.g, 1) != DigitBit(s.d, 0))
    && DigitBit(t.g, 2) == (DigitBit(l.g, 2) != DigitBit(s.h, 1)) && DigitBit(t.g, 3) == (DigitBit(l.g, 3) != DigitBit(s.b, 1))
    && DigitBit(t.h, 0) == (DigitBit(l.h, 0) != DigitBit(s.f, 1)) && DigitBit(t.h, 1) == (DigitBit(l.h, 1) != DigitBit(s.c, 2))
    && DigitBit(t.h, 2) == (DigitBit(l.h, 2) != DigitBit(s.a, 3)) && DigitBit(t.h, 3) == (DigitBit(l.h, 3) != DigitBit(s.g, 0))
  }

  lemma MixedFront(l: Hex, s: Hex, t: Hex)
    requires Mixed(l, s, t)
    ensures MixedDigit(l.a, s, t.a, 0) && MixedDigit(l.b, s, t.b, 4)
    ensures MixedDigit(l.c, s, t.c, 8) && MixedDigit(l.d, s, t.d, 12)
  {
    hide DigitBit;
  }

  lemma MixedBack(l: Hex, s: Hex, t: Hex)
    requires Mixed(l, s, t)
    ensures MixedDigit(l.e, s, t.e, 16) && MixedDigit(l.f, s, t.f, 20)
  {
    hide DigitBit;
  }

  lemma MixedEnd(l: Hex, s: Hex, t: Hex)
    requires Mixed(l, s, t)
    ensures MixedDigit(l.g, s, t.g, 24) && MixedDigit(l.h, s, t.h, 28)
  {
    hide DigitBit;
  }

  function NoKey(): RoundKey { RoundKey(Zero(), Zero()) }

  lemma SixSources(b: nat)
    requires b < 8
    ensures ESource(6 * b) == 4 * ((b + 7) % 8) + 3 && ESource(6 * b + 5) == 4 * ((b + 1) % 8)
    ensures ESource(6 * b + 1) == 4 * b && ESource(6 * b + 2) == 4 * b + 1
    ensures ESource(6 * b + 3) == 4 * b + 2 && ESource(6 * b + 4) == 4 * b + 3
  {
    assert (b + 7) % 8 == if b == 0 then 7 else b - 1;
    assert (b + 1) % 8 == if b == 7 then 0 else b + 1;
    assert (4 * b + 31) % 32 == if b == 0 then 31 else 4 * b - 1;
    assert (4 * b + 36) % 32 == if b == 7 then 0 else 4 * b + 4;
  }

  lemma PlainBit(r: Hex, b: nat, j: nat)
    requires b < 8 && j < 6
    ensures BoxInput(r.Word(), Zero(), NoKey(), b)[j] == r.Word()[ESource(6 * b + j)]
  {
    hide DigitBit, ESource;
    var n := 6 * b + j;
    assert !Zero()[8 + n % 24];
    assert Expanded(r.Word(), Zero(), n) == r.Word()[ESource(n)];
    assert !NoKey().Bit(n);
  }

  /** The six bits, as the digit and its neighbours give them. */
  lemma PlainSix(r: Hex, b: nat)
    requires b < 8
    ensures var six := BoxInput(r.Word(), Zero(), NoKey(), b);
      && six[0] == DigitBit(r.At((b + 7) % 8), 3) && six[5] == DigitBit(r.At((b + 1) % 8), 0)
      && six[1] == DigitBit(r.At(b), 0) && six[2] == DigitBit(r.At(b), 1)
      && six[3] == DigitBit(r.At(b), 2) && six[4] == DigitBit(r.At(b), 3)
  {
    hide DigitBit, ESource, BoxInput, Hex.At;
    SixSources(b);
    PlainBit(r, b, 0);
    PlainBit(r, b, 1);
    PlainBit(r, b, 2);
    PlainBit(r, b, 3);
    PlainBit(r, b, 4);
    PlainBit(r, b, 5);
  }

  lemma ValueStep(s: seq<bool>)
    requires s != []
    ensures Value(s) == 2 * Value(s[..|s| - 1]) + if s[|s| - 1] then 1 else 0
  {
  }

  lemma TwoDigits(s: seq<bool>)
    requires |s| == 2
    ensures Value(s) == (if s[0] then 2 else 0) + (if s[1] then 1 else 0)
  {
    ValueStep(s);
    ValueStep(s[..1]);
    assert s[..1][..0] == [] && Value([]) == 0;
  }

  lemma FourDigits(s: seq<bool>)
    requires |s| == 4
    ensures Value(s) == (if s[0] then 8 else 0) + (if s[1] then 4 else 0) + (if s[2] then 2 else 0) + (if s[3] then 1 else 0)
  {
    hide Value;
    ValueStep(s);
    ValueStep(s[..3]);
    TwoDigits(s[..2]);
    assert s[..3][..2] == s[..2];
  }

  lemma PlainBox(r: Hex, b: nat)
    requires b < 8
    ensures BoxOutput(b, BoxInput(r.Word(), Zero(), NoKey(), b)) == Plain(b, r.At((b + 7) % 8), r.At(b), r.At((b + 1) % 8))
  {
    hide Cell, DigitBit, BoxInput, Value, Hex.At;
    var six := BoxInput(r.Word(), Zero(), NoKey(), b);
    PlainSix(r, b);
    DigitValue(r.At(b));
    TwoDigits([six[0], six[5]]);
    FourDigits(six[1..5]);
  }

  lemma SubstitutedIs(r: Hex, s: Hex, b: nat)
    requires Substituted(r, s) && b < 8
    ensures BoxOutput(b, BoxInput(r.Word(), Zero(), NoKey(), b)) == s.At(b)
  {
    hide Plain, BoxOutput, BoxInput, DigitBit;
    PlainBox(r, b);
  }

  lemma PlacedIs(s: Hex, o: nat)
    requires o < 32
    ensures 1 <= PboxEntry(o) <= 32
    ensures var n := PboxEntry(o) - 1; Placed(s, o) == DigitBit(s.At(n / 4), n % 4)
  {
    hide DigitBit;
  }

  lemma MixedIs(l: Hex, s: Hex, t: Hex, o: nat)
    requires Mixed(l, s, t) && o < 32
    ensures t.Word()[o] == (l.Word()[o] != Placed(s, o))
  {
    hide DigitBit, Placed, Mixed;
    MixedFront(l, s, t);
    MixedBack(l, s, t);
    MixedEnd(l, s, t);
    assert MixedDigit(l.At(o / 4), s, t.At(o / 4), o - o % 4);
  }

  /** One round with neither key nor salt. */
  lemma RoundAnswer(l: Hex, r: Hex, s: Hex, t: Hex)
    requires Substituted(r, s) && Mixed(l, s, t)
    ensures Round(Block(l.Word(), r.Word()), Zero(), NoKey()) == Block(r.Word(), t.Word())
  {
    hide Substituted, Mixed, DigitBit, BoxOutput, BoxInput, Placed, Hex.At;
    var f := CipherFunction(r.Word(), Zero(), NoKey());
    forall o | 0 <= o < 32
      ensures (f[o] != l.Word()[o]) == t.Word()[o]
    {
      MixedIs(l, s, t, o);
      PlacedIs(s, o);
      var n := PboxEntry(o) - 1;
      SubstitutedIs(r, s, n / 4);
      DigitIndex(s.At(n / 4), n % 4);
    }
    assert Xor(f, l.Word()) == t.Word();
  }

  // ----- known blocks

  /** Where n rounds take a permuted block under a key that has nothing but parity bits, without salt. */
  ghost predicate Reached(key: Block, p: Block, n: nat, l: Hex, r: Hex) {
    n <= 16 && Rounds(p, key, Zero(), false, n) == Block(l.Word(), r.Word())
  }

  /** Only the eighth bit of each byte of the key may be set. */
  ghost predicate ParityOnly(key: Block) { forall n :: 0 <= n < 64 && key.Bit(n) ==> n % 8 == 7 }

  lemma ParityIsNoKey(key: Block, n: nat)
    requires ParityOnly(key) && n < 16
    ensures Subkey(key, n) == NoKey() && SaltBits(Zero()) == Zero()
  {
    hide KeyEntry, CompEntry;
    forall o | 0 <= o < 48
      ensures !ScheduleBit(key, n, o)
    {
      KeyTables();
      assert CompPerm()[o] == CompEntry(o);
      NotRotatedIn(key, n + 1, CompEntry(o) - 1);
    }
    hide ScheduleBit;
    assert Subkey(key, n).l == Zero() && Subkey(key, n).r == Zero();
  }

  lemma NotRotatedIn(key: Block, n: nat, m: nat)
    requires ParityOnly(key) && m < 56
    ensures !RotatedBit(key, n, m)
  {
    hide KeyEntry;
    var from := if m < 28 then (m + Rotation(n)) % 28 else 28 + (m - 28 + Rotation(n)) % 28;
    NoParityEntry(from);
  }

  lemma NoParityEntry(m: nat)
    requires m < 56
    ensures 1 <= KeyEntry(m) <= 64 && (KeyEntry(m) - 1) % 8 != 7
  {
  }

  lemma Next(key: Block, p: Block, n: nat, l: Hex, r: Hex, s: Hex, t: Hex)
    requires ParityOnly(key) && n < 16 && Reached(key, p, n, l, r) && Substituted(r, s) && Mixed(l, s, t)
    ensures Reached(key, p, n + 1, r, t)
  {
    hide Substituted, Mixed, Subkey, SaltBits;
    RoundAnswer(l, r, s, t);
    ParityIsNoKey(key, n);
  }

  /** Bit j of a byte written in two digits. */
  predicate ByteBit(hi: Nibble, lo: Nibble, j: nat) { if j < 4 then DigitBit(hi, j) else DigitBit(lo, j - 4) }

  /** One byte of the permuted block takes bit j of every byte, those of r and of l in turn. */
  predicate FinalByte(l: Hex, r: Hex, hi: Nibble, lo: Nibble, j: nat) {
    && DigitBit(hi, 0) == ByteBit(r.a, r.b, j) && DigitBit(hi, 1) == ByteBit(l.a, l.b, j)
    && DigitBit(hi, 2) == ByteBit(r.c, r.d, j) && DigitBit(hi, 3) == ByteBit(l.c, l.d, j)
    && DigitBit(lo, 0) == ByteBit(r.e, r.f, j) && DigitBit(lo, 1) == ByteBit(l.e, l.f, j)
    && DigitBit(lo, 2) == ByteBit(r.g, r.h, j) && DigitBit(lo, 3) == ByteBit(l.g, l.h, j)
  }

  /** The final permutation turns l and r into c and d. */
  predicate Final(l: Hex, r: Hex, c: Hex, d: Hex) {
    && FinalByte(l, r, c.a, c.b, 7) && FinalByte(l, r, c.c, c.d, 6) && FinalByte(l, r, c.e, c.f, 5)
    && FinalByte(l, r, c.g, c.h, 4) && FinalByte(l, r, d.a, d.b, 3) && FinalByte(l, r, d.c, d.d, 2)
    && FinalByte(l, r, d.e, d.f, 1) && FinalByte(l, r, d.g, d.h, 0)
  }

  /** The standard's table in rows of eight. */
  lemma FpRow(row: nat, column: nat)
    requires row < 4 && column < 8
    ensures FpEntry(8 * row + column) == 8 * (column / 2) + (if column % 2 == 0 then 40 else 8) - row
  {
  }

  lemma FpLowerRow(row: nat, column: nat)
    requires 4 <= row < 8 && column < 8
    ensures FpEntry(8 * row + column) == 8 * (column / 2) + (if column % 2 == 0 then 40 else 8) - row
  {
  }

  lemma FinalRow(l: Hex, r: Hex, c: Hex, d: Hex, row: nat)
    requires Final(l, r, c, d) && row < 8
    ensures var (out, k) := if row < 4 then (c, 2 * row) else (d, 2 * row - 8);
      FinalByte(l, r, out.At(k), out.At(k + 1), 7 - row)
  {
    hide FinalByte, DigitBit;
  }

  lemma FinalColumn(l: Hex, r: Hex, hi: Nibble, lo: Nibble, j: nat, column: nat)
    requires FinalByte(l, r, hi, lo, j) && column < 8
    ensures var (half, k) := (if column % 2 == 0 then r else l, column / 2);
      DigitBit(if column < 4 then hi else lo, column % 4) == ByteBit(half.At(2 * k), half.At(2 * k + 1), j)
  {
    hide DigitBit, ByteBit;
  }

  lemma WordByte(w: Hex, k: nat, j: nat)
    requires k < 4 && j < 8
    ensures w.Word()[8 * k + j] == ByteBit(w.At(2 * k), w.At(2 * k + 1), j)
  {
    hide DigitBit, Hex.At;
  }

  lemma FinalSource(row: nat, column: nat)
    requires row < 8 && column < 8
    ensures FromFp(8 * row + column) == (if column % 2 == 0 then 32 else 0) + 8 * (column / 2) + 7 - row
  {
    hide FpEntry;
    if row < 4 { FpRow(row, column); } else { FpLowerRow(row, column); }
  }

  lemma FinalBitIs(l: Hex, r: Hex, c: Hex, d: Hex, row: nat, column: nat)
    requires Final(l, r, c, d) && row < 8 && column < 8
    ensures FinalPermuted(Block(l.Word(), r.Word())).Bit(8 * row + column) == Block(c.Word(), d.Word()).Bit(8 * row + column)
  {
    hide Final, FinalByte, DigitBit, ByteBit, Hex.At, Hex.Word, FromFp, FinalPermuted;
    var n := 8 * row + column;
    FinalBit(Block(l.Word(), r.Word()), n);
    FinalSource(row, column);
    var half := if column % 2 == 0 then r else l;
    WordByte(half, column / 2, 7 - row);
    FinalRow(l, r, c, d, row);
    var (out, k) := if row < 4 then (c, 2 * row) else (d, 2 * row - 8);
    FinalColumn(l, r, out.At(k), out.At(k + 1), 7 - row, column);
    WordDigit(out, k, column);
  }

  lemma WordDigit(w: Hex, k: nat, column: nat)
    requires k < 8 && k % 2 == 0 && column < 8
    ensures w.Word()[4 * k + column] == DigitBit(if column < 4 then w.At(k) else w.At(k + 1), column % 4)
  {
    hide DigitBit, Hex.At;
  }

  lemma FinalIs(l: Hex, r: Hex, c: Hex, d: Hex)
    requires Final(l, r, c, d)
    ensures FinalPermuted(Block(l.Word(), r.Word())) == Block(c.Word(), d.Word())
  {
    hide Final, FinalPermuted, Hex.Word;
    forall n | 0 <= n < 64
      ensures FinalPermuted(Block(l.Word(), r.Word())).Bit(n) == Block(c.Word(), d.Word()).Bit(n)
    {
      FinalBitIs(l, r, c, d, n / 8, n % 8);
    }
    SameBlock(FinalPermuted(Block(l.Word(), r.Word())), Block(c.Word(), d.Word()));
  }

  function Digits(l: Hex, r: Hex): Block { Block(l.Word(), r.Word()) }

  lemma Starts(key: Block, x: Hex, y: Hex, l: Hex, r: Hex)
    requires Final(l, r, x, y)
    ensures Reached(key, InitialPermuted(Digits(x, y)), 0, l, r)
  {
    hide Final, InitialPermuted, FinalPermuted, Hex.Word;
    FinalIs(l, r, x, y);
    PermutationsInverse(Digits(l, r));
  }

  lemma Answered(key: Block, x: Hex, y: Hex, l: Hex, r: Hex, c: Hex, d: Hex)
    requires Reached(key, InitialPermuted(Digits(x, y)), 16, l, r) && Final(r, l, c, d)
    ensures Cipher(Digits(x, y), key, Zero(), 1) == Digits(c, d)
  {
    hide Final, InitialPermuted, FinalPermuted, Hex.Word, Rounds;
    FinalIs(r, l, c, d);
    var p := InitialPermuted(Digits(x, y));
    assert Repeated(p, key, Zero(), false, 0) == p;
    assert Repeated(p, key, Zero(), false, 1) == Rounds(p, key, Zero(), false, 16).Swap();
  }

  lemma Nought0(key: Block, p: Block)
    requires ParityOnly(key) && Reached(key, p, 0, Hex(0, 0, 0, 0, 0, 0, 0, 0), Hex(0, 0, 0, 0, 0, 0, 0, 0))
    ensures Reached(key, p, 8, Hex(1, 9, 13, 15, 0, 11, 5, 12), Hex(9, 0, 7, 10, 1, 3, 15, 0))
  {
    hide Reached, ParityOnly;
    var w0 := Hex(0, 0, 0, 0, 0, 0, 0, 0);
    var w1 := Hex(0, 0, 0, 0, 0, 0, 0, 0);
    var w2 := Hex(13, 8, 13, 8, 13, 11, 11, 12);
    var w3 := Hex(14, 7, 3, 10, 14, 13, 4, 15);
    var w4 := Hex(5, 11, 15, 10, 6, 11, 10, 6);
    var w5 := Hex(5, 14, 4, 5, 14, 2, 5, 7);
    var w6 := Hex(8, 11, 1, 9, 7, 11, 14, 0);
    var w7 := Hex(15, 13, 14, 9, 8, 9, 4, 10);
    var w8 := Hex(1, 9, 13, 15, 0, 11, 5, 12);
    var w9 := Hex(9, 0, 7, 10, 1, 3, 15, 0);
    Next(key, p, 0, w0, w1, Hex(14, 15, 10, 7, 2, 12, 4, 13), w2);
    Next(key, p, 1, w1, w2, Hex(5, 11, 11, 9, 9, 7, 15, 3), w3);
    Next(key, p, 2, w2, w3, Hex(5, 4, 0, 5, 8, 7, 1, 2), w4);
    Next(key, p, 3, w3, w4, Hex(2, 12, 12, 3, 13, 14, 6, 11), w5);
    Next(key, p, 4, w4, w5, Hex(9, 2, 6, 15, 0, 10, 0, 2), w6);
    Next(key, p, 5, w5, w6, Hex(10, 13, 10, 1, 13, 7, 9, 1), w7);
    Next(key, p, 6, w6, w7, Hex(8, 5, 2, 7, 6, 13, 1, 6), w8);
    Next(key, p, 7, w7, w8, Hex(15, 6, 5, 4, 11, 4, 4, 15), w9);
  }

  lemma Nought8(key: Block, p: Block)
    requires ParityOnly(key) && Reached(key, p, 8, Hex(1, 9, 13, 15, 0, 11, 5, 12), Hex(9, 0, 7, 10, 1, 3, 15, 0))
    ensures Reached(key, p, 16, Hex(11, 11, 14, 10, 0, 13, 12, 2), Hex(1, 12, 2, 0, 8, 7, 15, 12))
  {
    hide Reached, ParityOnly;
    var w8 := Hex(1, 9, 13, 15, 0, 11, 5, 12);
    var w9 := Hex(9, 0, 7, 10, 1, 3, 15, 0);
    var w10 := Hex(8, 8, 1, 9, 0, 12, 5, 0);
    var w11 := Hex(2, 5, 13, 1, 5, 1, 7, 12);
    var w12 := Hex(15, 3, 14, 15, 9, 1, 7, 14);
    var w13 := Hex(9, 6, 14, 3, 9, 7, 1, 2);
    var w14 := Hex(5, 10, 5, 13, 10, 3, 4, 10);
    var w15 := Hex(0, 5, 8, 12, 10, 13, 0, 10);
    var w16 := Hex(11, 11, 14, 10, 0, 13, 12, 2);
    var w17 := Hex(1, 12, 2, 0, 8, 7, 15, 12);
    Next(key, p, 8, w8, w9, Hex(10, 0, 10, 3, 12, 12, 2, 2), w10);
    Next(key, p, 9, w9, w10, Hex(10, 9, 7, 1, 11, 14, 0, 2), w11);
    Next(key, p, 10, w10, w11, Hex(13, 2, 10, 6, 13, 14, 7, 15), w12);
    Next(key, p, 11, w11, w12, Hex(7, 1, 2, 9, 9, 14, 7, 6), w13);
    Next(key, p, 12, w12, w13, Hex(10, 4, 2, 5, 9, 3, 4, 14), w14);
    Next(key, p, 13, w13, w14, Hex(2, 12, 4, 7, 12, 15, 1, 3), w15);
    Next(key, p, 14, w14, w15, Hex(14, 2, 4, 1, 15, 7, 6, 3), w16);
    Next(key, p, 15, w15, w16, Hex(11, 12, 2, 8, 14, 11, 0, 13), w17);
  }

  lemma NoughtAnswer(key: Block)
    requires ParityOnly(key)
    ensures Cipher(Digits(Hex(0, 0, 0, 0, 0, 0, 0, 0), Hex(0, 0, 0, 0, 0, 0, 0, 0)), key, Zero(), 1)
         == Digits(Hex(8, 12, 10, 6, 4, 13, 14, 9), Hex(12, 1, 11, 1, 2, 3, 10, 7))
  {
    hide Reached, ParityOnly, Final, Cipher, InitialPermuted;
    var x, y := Hex(0, 0, 0, 0, 0, 0, 0, 0), Hex(0, 0, 0, 0, 0, 0, 0, 0);
    var l, r := Hex(0, 0, 0, 0, 0, 0, 0, 0), Hex(0, 0, 0, 0, 0, 0, 0, 0);
    var p := InitialPermuted(Digits(x, y));
    NoughtEnds();
    Starts(key, x, y, l, r);
    Nought0(key, p);
    Nought8(key, p);
    Answered(key, x, y, Hex(11, 11, 14, 10, 0, 13, 12, 2), Hex(1, 12, 2, 0, 8, 7, 15, 12), Hex(8, 12, 10, 6, 4, 13, 14, 9), Hex(12, 1, 11, 1, 2, 3, 10, 7));
  }

  lemma NoughtEnds()
    ensures Final(Hex(0, 0, 0, 0, 0, 0, 0, 0), Hex(0, 0, 0, 0, 0, 0, 0, 0), Hex(0, 0, 0, 0, 0, 0, 0, 0), Hex(0, 0, 0, 0, 0, 0, 0, 0))
    ensures Final(Hex(1, 12, 2, 0, 8, 7, 15, 12), Hex(11, 11, 14, 10, 0, 13, 12, 2), Hex(8, 12, 10, 6, 4, 13, 14, 9), Hex(12, 1, 11, 1, 2, 3, 10, 7))
  {
  }

  lemma First0(key: Block, p: Block)
    requires ParityOnly(key) && Reached(key, p, 0, Hex(0, 0, 0, 0, 0, 0, 0, 0), Hex(0, 1, 0, 0, 0, 0, 0, 0))
    ensures Reached(key, p, 8, Hex(6, 6, 14, 3, 0, 8, 4, 1), Hex(9, 14, 2, 5, 12, 7, 8, 14))
  {
    hide Reached, ParityOnly;
    var w0 := Hex(0, 0, 0, 0, 0, 0, 0, 0);
    var w1 := Hex(0, 1, 0, 0, 0, 0, 0, 0);
    var w2 := Hex(9, 12, 13, 1, 13, 11, 10, 8);
    var w3 := Hex(8, 9, 6, 5, 11, 2, 6, 8);
    var w4 := Hex(6, 2, 3, 5, 10, 9, 13, 4);
    var w5 := Hex(0, 3, 15, 12, 9, 9, 6, 14);
    var w6 := Hex(2, 10, 11, 4, 7, 14, 10, 5);
    var w7 := Hex(3, 13, 7, 15, 12, 1, 0, 11);
    var w8 := Hex(6, 6, 14, 3, 0, 8, 4, 1);
    var w9 := Hex(9, 14, 2, 5, 12, 7, 8, 14);
    Next(key, p, 0, w0, w1, Hex(14, 1, 13, 7, 2, 12, 4, 13), w2);
    Next(key, p, 1, w1, w2, Hex(6, 0, 4, 15, 4, 7, 0, 12), w3);
    Next(key, p, 2, w2, w3, Hex(10, 7, 3, 15, 5, 15, 1, 12), w4);
    Next(key, p, 3, w3, w4, Hex(11, 8, 14, 1, 0, 1, 5, 9), w5);
    Next(key, p, 4, w4, w5, Hex(14, 7, 12, 12, 0, 0, 10, 12), w6);
    Next(key, p, 5, w5, w6, Hex(8, 1, 7, 12, 1, 8, 9, 15), w7);
    Next(key, p, 6, w6, w7, Hex(2, 3, 7, 14, 6, 1, 6, 14), w8);
    Next(key, p, 7, w7, w8, Hex(2, 8, 2, 3, 11, 0, 15, 2), w9);
  }

  lemma First8(key: Block, p: Block)
    requires ParityOnly(key) && Reached(key, p, 8, Hex(6, 6, 14, 3, 0, 8, 4, 1), Hex(9, 14, 2, 5, 12, 7, 8, 14))
    ensures Reached(key, p, 16, Hex(5, 15, 2, 14, 5, 2, 0, 0), Hex(5, 10, 7, 3, 1, 13, 7, 13))
  {
    hide Reached, ParityOnly;
    var w8 := Hex(6, 6, 14, 3, 0, 8, 4, 1);
    var w9 := Hex(9, 14, 2, 5, 12, 7, 8, 14);
    var w10 := Hex(10, 8, 10, 7, 11, 3, 8, 8);
    var w11 := Hex(2, 4, 14, 8, 4, 6, 11, 7);
    var w12 := Hex(5, 14, 3, 8, 5, 4, 1, 12);
    var w13 := Hex(14, 9, 8, 10, 5, 13, 5, 7);
    var w14 := Hex(6, 4, 3, 13, 15, 10, 15, 4);
    var w15 := Hex(0, 7, 4, 10, 6, 6, 12, 5);
    var w16 := Hex(5, 15, 2, 14, 5, 2, 0, 0);
    var w17 := Hex(5, 10, 7, 3, 1, 13, 7, 13);
    Next(key, p, 8, w8, w9, Hex(6, 2, 9, 15, 6, 5, 9, 9), w10);
    Next(key, p, 9, w9, w10, Hex(12, 12, 12, 3, 5, 12, 9, 12), w11);
    Next(key, p, 10, w10, w11, Hex(14, 15, 15, 1, 7, 9, 7, 2), w12);
    Next(key, p, 11, w11, w12, Hex(2, 2, 9, 15, 10, 2, 0, 15), w13);
    Next(key, p, 12, w12, w13, Hex(6, 0, 4, 8, 7, 13, 3, 13), w14);
    Next(key, p, 13, w13, w14, Hex(11, 6, 9, 7, 3, 1, 1, 9), w15);
    Next(key, p, 14, w14, w15, Hex(4, 4, 6, 8, 11, 9, 5, 15), w16);
    Next(key, p, 15, w15, w16, Hex(2, 15, 13, 4, 10, 15, 4, 13), w17);
  }

  lemma FirstAnswer(key: Block)
    requires ParityOnly(key)
    ensures Cipher(Digits(Hex(8, 0, 0, 0, 0, 0, 0, 0), Hex(0, 0, 0, 0, 0, 0, 0, 0)), key, Zero(), 1)
         == Digits(Hex(9, 5, 15, 8, 10, 5, 14, 5), Hex(13, 13, 3, 1, 13, 9, 0, 0))
  {
    hide Reached, ParityOnly, Final, Cipher, InitialPermuted;
    var x, y := Hex(8, 0, 0, 0, 0, 0, 0, 0), Hex(0, 0, 0, 0, 0, 0, 0, 0);
    var l, r := Hex(0, 0, 0, 0, 0, 0, 0, 0), Hex(0, 1, 0, 0, 0, 0, 0, 0);
    var p := InitialPermuted(Digits(x, y));
    FirstEnds();
    Starts(key, x, y, l, r);
    First0(key, p);
    First8(key, p);
    Answered(key, x, y, Hex(5, 15, 2, 14, 5, 2, 0, 0), Hex(5, 10, 7, 3, 1, 13, 7, 13), Hex(9, 5, 15, 8, 10, 5, 14, 5), Hex(13, 13, 3, 1, 13, 9, 0, 0));
  }

  lemma FirstEnds()
    ensures Final(Hex(0, 0, 0, 0, 0, 0, 0, 0), Hex(0, 1, 0, 0, 0, 0, 0, 0), Hex(8, 0, 0, 0, 0, 0, 0, 0), Hex(0, 0, 0, 0, 0, 0, 0, 0))
    ensures Final(Hex(5, 10, 7, 3, 1, 13, 7, 13), Hex(5, 15, 2, 14, 5, 2, 0, 0), Hex(9, 5, 15, 8, 10, 5, 14, 5), Hex(13, 13, 3, 1, 13, 9, 0, 0))
  {
  }

  lemma Second0(key: Block, p: Block)
    requires ParityOnly(key) && Reached(key, p, 0, Hex(0, 1, 0, 0, 0, 0, 0, 0), Hex(0, 0, 0, 0, 0, 0, 0, 0))
    ensures Reached(key, p, 8, Hex(11, 10, 14, 3, 2, 9, 5, 11), Hex(5, 8, 11, 14, 4, 10, 15, 14))
  {
    hide Reached, ParityOnly;
    var w0 := Hex(0, 1, 0, 0, 0, 0, 0, 0);
    var w1 := Hex(0, 0, 0, 0, 0, 0, 0, 0);
    var w2 := Hex(13, 9, 13, 8, 13, 11, 11, 12);
    var w3 := Hex(14, 7, 3, 3, 10, 12, 5, 11);
    var w4 := Hex(12, 15, 11, 8, 4, 10, 10, 7);
    var w5 := Hex(7, 1, 15, 7, 13, 14, 2, 6);
    var w6 := Hex(13, 3, 1, 7, 6, 6, 14, 3);
    var w7 := Hex(8, 9, 6, 10, 10, 8, 14, 2);
    var w8 := Hex(11, 10, 14, 3, 2, 9, 5, 11);
    var w9 := Hex(5, 8, 11, 14, 4, 10, 15, 14);
    Next(key, p, 0, w0, w1, Hex(14, 15, 10, 7, 2, 12, 4, 13), w2);
    Next(key, p, 1, w1, w2, Hex(5, 6, 5, 9, 9, 7, 15, 3), w3);
    Next(key, p, 2, w2, w3, Hex(5, 4, 9, 6, 0, 14, 9, 0), w4);
    Next(key, p, 3, w3, w4, Hex(10, 5, 3, 15, 4, 13, 9, 4), w5);
    Next(key, p, 4, w4, w5, Hex(8, 8, 7, 8, 4, 11, 2, 11), w6);
    Next(key, p, 5, w5, w6, Hex(10, 11, 6, 13, 7, 9, 6, 8), w7);
    Next(key, p, 6, w6, w7, Hex(10, 7, 8, 2, 15, 6, 6, 13), w8);
    Next(key, p, 7, w7, w8, Hex(14, 7, 2, 3, 12, 13, 4, 0), w9);
  }

  lemma Second8(key: Block, p: Block)
    requires ParityOnly(key) && Reached(key, p, 8, Hex(11, 10, 14, 3, 2, 9, 5, 11), Hex(5, 8, 11, 14, 4, 10, 15, 14))
    ensures Reached(key, p, 16, Hex(1, 1, 1, 2, 8, 11, 4, 6), Hex(4, 3, 12, 15, 5, 11, 11, 3))
  {
    hide Reached, ParityOnly;
    var w8 := Hex(11, 10, 14, 3, 2, 9, 5, 11);
    var w9 := Hex(5, 8, 11, 14, 4, 10, 15, 14);
    var w10 := Hex(14, 10, 15, 14, 4, 6, 3, 7);
    var w11 := Hex(7, 4, 8, 10, 8, 4, 1, 7);
    var w12 := Hex(11, 9, 3, 12, 2, 0, 3, 0);
    var w13 := Hex(14, 4, 1, 4, 9, 2, 1, 12);
    var w14 := Hex(12, 9, 5, 10, 0, 8, 6, 8);
    var w15 := Hex(2, 11, 13, 0, 13, 3, 10, 14);
    var w16 := Hex(1, 1, 1, 2, 8, 11, 4, 6);
    var w17 := Hex(4, 3, 12, 15, 5, 11, 11, 3);
    Next(key, p, 8, w8, w9, Hex(2, 11, 14, 8, 4, 13, 6, 5), w10);
    Next(key, p, 9, w9, w10, Hex(6, 1, 1, 8, 7, 6, 14, 13), w11);
    Next(key, p, 10, w10, w11, Hex(11, 3, 2, 2, 8, 9, 11, 2), w12);
    Next(key, p, 11, w11, w12, Hex(11, 8, 0, 5, 4, 12, 14, 2), w13);
    Next(key, p, 12, w12, w13, Hex(0, 6, 0, 10, 5, 15, 0, 3), w14);
    Next(key, p, 13, w13, w14, Hex(9, 7, 9, 3, 14, 0, 1, 12), w15);
    Next(key, p, 14, w14, w15, Hex(7, 10, 10, 3, 0, 12, 0, 12), w16);
    Next(key, p, 15, w15, w16, Hex(4, 14, 6, 0, 5, 4, 12, 11), w17);
  }

  lemma SecondAnswer(key: Block)
    requires ParityOnly(key)
    ensures Cipher(Digits(Hex(4, 0, 0, 0, 0, 0, 0, 0), Hex(0, 0, 0, 0, 0, 0, 0, 0)), key, Zero(), 1)
         == Digits(Hex(13, 13, 7, 15, 1, 2, 1, 12), Hex(10, 5, 0, 1, 5, 6, 1, 9))
  {
    hide Reached, ParityOnly, Final, Cipher, InitialPermuted;
    var x, y := Hex(4, 0, 0, 0, 0, 0, 0, 0), Hex(0, 0, 0, 0, 0, 0, 0, 0);
    var l, r := Hex(0, 1, 0, 0, 0, 0, 0, 0), Hex(0, 0, 0, 0, 0, 0, 0, 0);
    var p := InitialPermuted(Digits(x, y));
    SecondEnds();
    Starts(key, x, y, l, r);
    Second0(key, p);
    Second8(key, p);
    Answered(key, x, y, Hex(1, 1, 1, 2, 8, 11, 4, 6), Hex(4, 3, 12, 15, 5, 11, 11, 3), Hex(13, 13, 7, 15, 1, 2, 1, 12), Hex(10, 5, 0, 1, 5, 6, 1, 9));
  }

  lemma SecondEnds()
    ensures Final(Hex(0, 1, 0, 0, 0, 0, 0, 0), Hex(0, 0, 0, 0, 0, 0, 0, 0), Hex(4, 0, 0, 0, 0, 0, 0, 0), Hex(0, 0, 0, 0, 0, 0, 0, 0))
    ensures Final(Hex(4, 3, 12, 15, 5, 11, 11, 3), Hex(1, 1, 1, 2, 8, 11, 4, 6), Hex(13, 13, 7, 15, 1, 2, 1, 12), Hex(10, 5, 0, 1, 5, 6, 1, 9))
  {
  }

  lemma Fourth0(key: Block, p: Block)
    requires ParityOnly(key) && Reached(key, p, 0, Hex(0, 0, 0, 1, 0, 0, 0, 0), Hex(0, 0, 0, 0, 0, 0, 0, 0))
    ensures Reached(key, p, 8, Hex(1, 1, 13, 13, 4, 7, 14, 2), Hex(14, 15, 8, 0, 2, 2, 0, 3))
  {
    hide Reached, ParityOnly;
    var w0 := Hex(0, 0, 0, 1, 0, 0, 0, 0);
    var w1 := Hex(0, 0, 0, 0, 0, 0, 0, 0);
    var w2 := Hex(13, 8, 13, 9, 13, 11, 11, 12);
    var w3 := Hex(4, 6, 3, 14, 15, 13, 0, 15);
    var w4 := Hex(8, 12, 0, 15, 3, 6, 1, 6);
    var w5 := Hex(15, 9, 15, 7, 14, 10, 13, 6);
    var w6 := Hex(15, 0, 8, 10, 1, 2, 4, 11);
    var w7 := Hex(14, 0, 12, 9, 8, 2, 8, 10);
    var w8 := Hex(1, 1, 13, 13, 4, 7, 14, 2);
    var w9 := Hex(14, 15, 8, 0, 2, 2, 0, 3);
    Next(key, p, 0, w0, w1, Hex(14, 15, 10, 7, 2, 12, 4, 13), w2);
    Next(key, p, 1, w1, w2, Hex(5, 11, 11, 4, 4, 7, 15, 3), w3);
    Next(key, p, 2, w2, w3, Hex(13, 3, 9, 2, 6, 13, 6, 7), w4);
    Next(key, p, 3, w3, w4, Hex(10, 12, 13, 15, 11, 12, 11, 8), w5);
    Next(key, p, 4, w4, w5, Hex(8, 6, 7, 8, 5, 13, 10, 8), w6);
    Next(key, p, 5, w5, w6, Hex(0, 13, 2, 8, 12, 15, 4, 11), w7);
    Next(key, p, 6, w6, w7, Hex(0, 3, 12, 7, 15, 4, 14, 6), w8);
    Next(key, p, 7, w7, w8, Hex(4, 8, 5, 2, 10, 5, 9, 8), w9);
  }

  lemma Fourth8(key: Block, p: Block)
    requires ParityOnly(key) && Reached(key, p, 8, Hex(1, 1, 13, 13, 4, 7, 14, 2), Hex(14, 15, 8, 0, 2, 2, 0, 3))
    ensures Reached(key, p, 16, Hex(2, 14, 1, 8, 15, 13, 8, 11), Hex(11, 11, 6, 10, 13, 8, 12, 11))
  {
    hide Reached, ParityOnly;
    var w8 := Hex(1, 1, 13, 13, 4, 7, 14, 2);
    var w9 := Hex(14, 15, 8, 0, 2, 2, 0, 3);
    var w10 := Hex(8, 13, 10, 9, 9, 4, 15, 6);
    var w11 := Hex(5, 4, 4, 9, 5, 1, 0, 7);
    var w12 := Hex(15, 10, 12, 5, 1, 14, 15, 10);
    var w13 := Hex(0, 9, 9, 9, 0, 12, 1, 3);
    var w14 := Hex(4, 13, 6, 4, 9, 1, 7, 5);
    var w15 := Hex(3, 5, 14, 13, 9, 8, 3, 14);
    var w16 := Hex(2, 14, 1, 8, 15, 13, 8, 11);
    var w17 := Hex(11, 11, 6, 10, 13, 8, 12, 11);
    Next(key, p, 8, w8, w9, Hex(6, 5, 11, 7, 4, 10, 4, 8), w10);
    Next(key, p, 9, w9, w10, Hex(10, 9, 14, 7, 9, 9, 1, 8), w11);
    Next(key, p, 10, w10, w11, Hex(6, 10, 3, 2, 13, 14, 1, 1), w12);
    Next(key, p, 11, w11, w12, Hex(8, 7, 11, 6, 8, 8, 6, 9), w13);
    Next(key, p, 12, w12, w13, Hex(15, 0, 15, 1, 11, 14, 11, 1), w14);
    Next(key, p, 13, w13, w14, Hex(4, 0, 3, 6, 5, 14, 14, 12), w15);
    Next(key, p, 14, w14, w15, Hex(1, 15, 2, 10, 15, 7, 7, 5), w16);
    Next(key, p, 15, w15, w16, Hex(8, 5, 7, 9, 6, 0, 9, 14), w17);
  }

  lemma FourthAnswer(key: Block)
    requires ParityOnly(key)
    ensures Cipher(Digits(Hex(1, 0, 0, 0, 0, 0, 0, 0), Hex(0, 0, 0, 0, 0, 0, 0, 0)), key, Zero(), 1)
         == Digits(Hex(4, 11, 13, 3, 8, 8, 15, 15), Hex(6, 12, 13, 8, 1, 13, 4, 15))
  {
    hide Reached, ParityOnly, Final, Cipher, InitialPermuted;
    var x, y := Hex(1, 0, 0, 0, 0, 0, 0, 0), Hex(0, 0, 0, 0, 0, 0, 0, 0);
    var l, r := Hex(0, 0, 0, 1, 0, 0, 0, 0), Hex(0, 0, 0, 0, 0, 0, 0, 0);
    var p := InitialPermuted(Digits(x, y));
    FourthEnds();
    Starts(key, x, y, l, r);
    Fourth0(key, p);
    Fourth8(key, p);
    Answered(key, x, y, Hex(2, 14, 1, 8, 15, 13, 8, 11), Hex(11, 11, 6, 10, 13, 8, 12, 11), Hex(4, 11, 13, 3, 8, 8, 15, 15), Hex(6, 12, 13, 8, 1, 13, 4, 15));
  }

  lemma FourthEnds()
    ensures Final(Hex(0, 0, 0, 1, 0, 0, 0, 0), Hex(0, 0, 0, 0, 0, 0, 0, 0), Hex(1, 0, 0, 0, 0, 0, 0, 0), Hex(0, 0, 0, 0, 0, 0, 0, 0))
    ensures Final(Hex(11, 11, 6, 10, 13, 8, 12, 11), Hex(2, 14, 1, 8, 15, 13, 8, 11), Hex(4, 11, 13, 3, 8, 8, 15, 15), Hex(6, 12, 13, 8, 1, 13, 4, 15))
  {
  }

  /** Four blocks and what the standard's cipher makes of them under a key without key bits, such as 0101010101010101. */
  lemma KnownBlocks(key: Block)
    requires ParityOnly(key)
    ensures Cipher(Digits(Hex(0, 0, 0, 0, 0, 0, 0, 0), Hex(0, 0, 0, 0, 0, 0, 0, 0)), key, Zero(), 1)
         == Digits(Hex(8, 12, 10, 6, 4, 13, 14, 9), Hex(12, 1, 11, 1, 2, 3, 10, 7))
    ensures Cipher(Digits(Hex(8, 0, 0, 0, 0, 0, 0, 0), Hex(0, 0, 0, 0, 0, 0, 0, 0)), key, Zero(), 1)
         == Digits(Hex(9, 5, 15, 8, 10, 5, 14, 5), Hex(13, 13, 3, 1, 13, 9, 0, 0))
    ensures Cipher(Digits(Hex(4, 0, 0, 0, 0, 0, 0, 0), Hex(0, 0, 0, 0, 0, 0, 0, 0)), key, Zero(), 1)
         == Digits(Hex(13, 13, 7, 15, 1, 2, 1, 12), Hex(10, 5, 0, 1, 5, 6, 1, 9))
    ensures Cipher(Digits(Hex(1, 0, 0, 0, 0, 0, 0, 0), Hex(0, 0, 0, 0, 0, 0, 0, 0)), key, Zero(), 1)
         == Digits(Hex(4, 11, 13, 3, 8, 8, 15, 15), Hex(6, 12, 13, 8, 1, 13, 4, 15))
  {
    hide Cipher, Digits, ParityOnly;
    NoughtAnswer(key);
    FirstAnswer(key);
    SecondAnswer(key);
    FourthAnswer(key);
  }
}

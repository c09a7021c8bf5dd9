/** The rows of the key permutation, and the round keys of a known key: together they fix the schedule's tables. */
module DesKeyAnswers {
  import opened DesAnswers
  import opened DesBits
  import opened DesStandard
  import opened DesTables

  // ----- choosing 56 bits

  /** The left half of the key permutation: the first bits of the bytes from the last to the first, the second bits, and so on. */
  lemma KeyLeft(m: nat)
    requires m < 28
    ensures KeyEntry(m) == 57 - 8 * (m % 8) + m / 8
  {
  }

  /** The right half: the seventh bits, then the sixth and the fifth; the fourth bits are shared between the halves. */
  lemma KeyRight(m: nat)
    requires m < 28
    ensures KeyEntry(28 + m) == if m < 24 then 63 - 8 * (m % 8) - m / 8 else 28 - 8 * (m - 24)
  {
  }

  /** Bit j of the four bytes of a word, from the last to the first. */
  predicate Column(w: Hex, x: Nibble, j: nat) {
    && DigitBit(x, 0) == ByteBit(w.g, w.h, j) && DigitBit(x, 1) == ByteBit(w.e, w.f, j)
    && DigitBit(x, 2) == ByteBit(w.c, w.d, j) && DigitBit(x, 3) == ByteBit(w.a, w.b, j)
  }

  /** The two halves the key permutation makes of a key, 28 bits each. */
  predicate Chosen(l: Hex, r: Hex, c: Hex, d: Hex) {
    && Column(r, c.a, 0) && Column(l, c.b, 0) && Column(r, c.c, 1) && Column(l, c.d, 1) && Column(r, c.e, 2)
    && Column(l, c.f, 2) && Column(r, c.g, 3) && Column(r, d.a, 6) && Column(l, d.b, 6) && Column(r, d.c, 5)
    && Column(l, d.d, 5) && Column(r, d.e, 4) && Column(l, d.f, 4) && Column(l, d.g, 3)
  }

  /** Bit m of a half. */
  predicate HalfBit(c: Hex, m: nat)
    requires m < 28
  {
    DigitBit(c.At(m / 4), m % 4)
  }

  /** The halves after n rounds of rotating. */
  ghost predicate Kept(key: Block, n: nat, c: Hex, d: Hex) {
    forall m :: 0 <= m < 28 ==> RotatedBit(key, n, m) == HalfBit(c, m) && RotatedBit(key, n, 28 + m) == HalfBit(d, m)
  }

  lemma ColumnBit(w: Hex, x: Nibble, j: nat, q: nat)
    requires Column(w, x, j) && q < 4 && j < 8
    ensures DigitBit(x, q) == w.Word()[8 * (3 - q) + j]
  {
    hide DigitBit, ByteBit, Hex.Word;
    WordByte(w, 3 - q, j);
  }

  lemma ChosenLeft(l: Hex, r: Hex, c: Hex, d: Hex, m: nat)
    requires Chosen(l, r, c, d) && m < 28
    ensures HalfBit(c, m) == Digits(l, r).Bit(KeyEntry(m) - 1)
  {
    hide DigitBit, ByteBit, Hex.Word, KeyEntry, Column;
    KeyLeft(m);
    ColumnBit(if m % 8 < 4 then r else l, c.At(m / 4), m / 8, m % 4);
  }

  lemma ChosenRight(l: Hex, r: Hex, c: Hex, d: Hex, m: nat)
    requires Chosen(l, r, c, d) && m < 28
    ensures HalfBit(d, m) == Digits(l, r).Bit(KeyEntry(28 + m) - 1)
  {
    hide DigitBit, ByteBit, Hex.Word, KeyEntry, Column;
    KeyRight(m);
    ColumnBit(if m < 24 && m % 8 < 4 then r else l, d.At(m / 4), if m < 24 then 6 - m / 8 else 3, m % 4);
  }

  lemma ChosenIsKept(l: Hex, r: Hex, c: Hex, d: Hex)
    requires Chosen(l, r, c, d)
    ensures Kept(Digits(l, r), 0, c, d)
  {
    hide Chosen, HalfBit, KeyEntry, Digits;
    forall m | 0 <= m < 28
      ensures RotatedBit(Digits(l, r), 0, m) == HalfBit(c, m) && RotatedBit(Digits(l, r), 0, 28 + m) == HalfBit(d, m)
    {
      ChosenLeft(l, r, c, d, m);
      ChosenRight(l, r, c, d, m);
    }
  }

  // ----- rotating

  /** z is two digits put together, without the first k bits of the first. */
  predicate Shifted(x: Nibble, y: Nibble, z: Nibble, k: nat) {
    if k == 1 then
      && DigitBit(z, 0) == DigitBit(x, 1) && DigitBit(z, 1) == DigitBit(x, 2)
      && DigitBit(z, 2) == DigitBit(x, 3) && DigitBit(z, 3) == DigitBit(y, 0)
    else
      && DigitBit(z, 0) == DigitBit(x, 2) && DigitBit(z, 1) == DigitBit(x, 3)
      && DigitBit(z, 2) == DigitBit(y, 0) && DigitBit(z, 3) == DigitBit(y, 1)
  }

  /** t is a half turned by k bits. */
  predicate Turned(c: Hex, t: Hex, k: nat) {
    && Shifted(c.a, c.b, t.a, k) && Shifted(c.b, c.c, t.b, k) && Shifted(c.c, c.d, t.c, k) && Shifted(c.d, c.e, t.d, k)
    && Shifted(c.e, c.f, t.e, k) && Shifted(c.f, c.g, t.f, k) && Shifted(c.g, c.a, t.g, k)
  }

  lemma ShiftedBit(x: Nibble, y: Nibble, z: Nibble, k: nat, q: nat)
    requires (k == 1 || k == 2) && q < 4 && Shifted(x, y, z, k)
    ensures DigitBit(z, q) == if q + k < 4 then DigitBit(x, q + k) else DigitBit(y, q + k - 4)
  {
    hide DigitBit;
  }

  lemma TurnedBit(c: Hex, t: Hex, k: nat, m: nat)
    requires (k == 1 || k == 2) && m < 28 && Turned(c, t, k)
    ensures HalfBit(t, m) == HalfBit(c, (m + k) % 28)
  {
    hide DigitBit, Shifted;
    TurnedPlace(k, m);
    ShiftedBit(c.At(m / 4), c.At(if m / 4 == 6 then 0 else m / 4 + 1), t.At(m / 4), k, m % 4);
  }

  lemma TurnedPlace(k: nat, m: nat)
    requires (k == 1 || k == 2) && m < 28
    ensures
      var q, j, t := m / 4, m % 4, (m + k) % 28;
      if j + k < 4 then t / 4 == q && t % 4 == j + k else t / 4 == (if q == 6 then 0 else q + 1) && t % 4 == j + k - 4
  {
  }

  lemma KeptStep(key: Block, n: nat, c: Hex, d: Hex, c': Hex, d': Hex)
    requires Kept(key, n, c, d) && n < 16 && Turned(c, c', KeyShift(n)) && Turned(d, d', KeyShift(n))
    ensures Kept(key, n + 1, c', d')
  {
    hide HalfBit, Turned, KeyEntry, RotatedBit;
    var k := KeyShift(n);
    forall m | 0 <= m < 28
      ensures RotatedBit(key, n + 1, m) == HalfBit(c', m)
      ensures RotatedBit(key, n + 1, 28 + m) == HalfBit(d', m)
    {
      TurnedBit(c, c', k, m);
      TurnedBit(d, d', k, m);
      RotatedOn(key, n, m);
    }
  }

  lemma RotatedOn(key: Block, n: nat, m: nat)
    requires m < 28
    ensures var t := (m + KeyShift(n)) % 28;
      RotatedBit(key, n + 1, m) == RotatedBit(key, n, t) && RotatedBit(key, n + 1, 28 + m) == RotatedBit(key, n, 28 + t)
  {
    hide KeyEntry, KeyShift;
    RotationStep(n + 1);
    var k, s := KeyShift(n), Rotation(n);
    Wraps(m, k, s);
  }

  lemma Wraps(m: nat, k: nat, s: nat)
    ensures (m + (s + k)) % 28 == ((m + k) % 28 + s) % 28
  {
    var t := m + k;
    assert t == 28 * (t / 28) + t % 28;
    assert t + s == 28 * (t / 28) + (t % 28 + s);
    Multiples(t / 28, t % 28 + s);
  }

  lemma {:induction false} Multiples(q: nat, r: nat)
    ensures (28 * q + r) % 28 == r % 28
  {
    if q != 0 {
      Multiples(q - 1, r);
      assert (28 * (q - 1) + r + 28) % 28 == (28 * (q - 1) + r) % 28;
    }
  }

  // ----- choosing 48 bits

  /** Bit o of each half of a round key, read from the digits of the half it is taken from. */
  predicate PickedLeft(w: Hex, o: nat) {
    match o
    case 0 => DigitBit(w.d, 1) case 1 => DigitBit(w.e, 0) case 2 => DigitBit(w.c, 2) case 3 => DigitBit(w.f, 3)
    case 4 => DigitBit(w.a, 0) case 5 => DigitBit(w.b, 0) case 6 => DigitBit(w.a, 2) case 7 => DigitBit(w.g, 3)
    case 8 => DigitBit(w.d, 2) case 9 => DigitBit(w.b, 1) case 10 => DigitBit(w.f, 0) case 11 => DigitBit(w.c, 1)
    case 12 => DigitBit(w.f, 2) case 13 => DigitBit(w.e, 2) case 14 => DigitBit(w.c, 3) case 15 => DigitBit(w.a, 3)
    case 16 => DigitBit(w.g, 1) case 17 => DigitBit(w.b, 3) case 18 => DigitBit(w.d, 3) case 19 => DigitBit(w.b, 2)
    case 20 => DigitBit(w.g, 2) case 21 => DigitBit(w.e, 3) case 22 => DigitBit(w.d, 0) case _ => DigitBit(w.a, 1)
  }

  predicate PickedRight(w: Hex, o: nat) {
    match o
    case 0 => DigitBit(w.d, 0) case 1 => DigitBit(w.f, 3) case 2 => DigitBit(w.a, 2) case 3 => DigitBit(w.c, 0)
    case 4 => DigitBit(w.e, 2) case 5 => DigitBit(w.g, 2) case 6 => DigitBit(w.a, 1) case 7 => DigitBit(w.c, 3)
    case 8 => DigitBit(w.f, 2) case 9 => DigitBit(w.e, 0) case 10 => DigitBit(w.b, 0) case 11 => DigitBit(w.e, 3)
    case 12 => DigitBit(w.d, 3) case 13 => DigitBit(w.f, 0) case 14 => DigitBit(w.c, 2) case 15 => DigitBit(w.g, 3)
    case 16 => DigitBit(w.b, 1) case 17 => DigitBit(w.g, 0) case 18 => DigitBit(w.e, 1) case 19 => DigitBit(w.d, 1)
    case 20 => DigitBit(w.f, 1) case 21 => DigitBit(w.b, 3) case 22 => DigitBit(w.a, 0) case _ => DigitBit(w.a, 3)
  }

  lemma PickedLeftIs(w: Hex, o: nat)
    requires o < 24
    ensures 1 <= CompEntry(o) <= 28 && PickedLeft(w, o) == HalfBit(w, CompEntry(o) - 1)
  {
    hide DigitBit;
  }

  lemma PickedRightIs(w: Hex, o: nat)
    requires o < 24
    ensures 29 <= CompEntry(24 + o) <= 56 && PickedRight(w, o) == HalfBit(w, CompEntry(24 + o) - 29)
  {
    hide DigitBit;
  }

  /** k holds the bits picked from the left half, and the bits picked from the right half. */
  predicate LeftKey(c: Hex, k: Hex) {
    && DigitBit(k.c, 0) == DigitBit(c.d, 1) && DigitBit(k.c, 1) == DigitBit(c.e, 0)
    && DigitBit(k.c, 2) == DigitBit(c.c, 2) && DigitBit(k.c, 3) == DigitBit(c.f, 3)
    && DigitBit(k.d, 0) == DigitBit(c.a, 0) && DigitBit(k.d, 1) == DigitBit(c.b, 0)
    && DigitBit(k.d, 2) == DigitBit(c.a, 2) && DigitBit(k.d, 3) == DigitBit(c.g, 3)
    && DigitBit(k.e, 0) == DigitBit(c.d, 2) && DigitBit(k.e, 1) == DigitBit(c.b, 1)
    && DigitBit(k.e, 2) == DigitBit(c.f, 0) && DigitBit(k.e, 3) == DigitBit(c.c, 1)
    && DigitBit(k.f, 0) == DigitBit(c.f, 2) && DigitBit(k.f, 1) == DigitBit(c.e, 2)
    && DigitBit(k.f, 2) == DigitBit(c.c, 3) && DigitBit(k.f, 3) == DigitBit(c.a, 3)
    && DigitBit(k.g, 0) == DigitBit(c.g, 1) && DigitBit(k.g, 1) == DigitBit(c.b, 3)
    && DigitBit(k.g, 2) == DigitBit(c.d, 3) && DigitBit(k.g, 3) == DigitBit(c.b, 2)
    && DigitBit(k.h, 0) == DigitBit(c.g, 2) && DigitBit(k.h, 1) == DigitBit(c.e, 3)
    && DigitBit(k.h, 2) == DigitBit(c.d, 0) && DigitBit(k.h, 3) == DigitBit(c.a, 1)
  }

  predicate RightKey(d: Hex, k: Hex) {
    && DigitBit(k.c, 0) == DigitBit(d.d, 0) && DigitBit(k.c, 1) == DigitBit(d.f, 3)
    && DigitBit(k.c, 2) == DigitBit(d.a, 2) && DigitBit(k.c, 3) == DigitBit(d.c, 0)
    && DigitBit(k.d, 0) == DigitBit(d.e, 2) && DigitBit(k.d, 1) == DigitBit(d.g, 2)
    && DigitBit(k.d, 2) == DigitBit(d.a, 1) && DigitBit(k.d, 3) == DigitBit(d.c, 3)
    && DigitBit(k.e, 0) == DigitBit(d.f, 2) && DigitBit(k.e, 1) == DigitBit(d.e, 0)
    && DigitBit(k.e, 2) == DigitBit(d.b, 0) && DigitBit(k.e, 3) == DigitBit(d.e, 3)
    && DigitBit(k.f, 0) == DigitBit(d.d, 3) && DigitBit(k.f, 1) == DigitBit(d.f, 0)
    && DigitBit(k.f, 2) == DigitBit(d.c, 2) && DigitBit(k.f, 3) == DigitBit(d.g, 3)
    && DigitBit(k.g, 0) == DigitBit(d.b, 1) && DigitBit(k.g, 1) == DigitBit(d.g, 0)
    && DigitBit(k.g, 2) == DigitBit(d.e, 1) && DigitBit(k.g, 3) == DigitBit(d.d, 1)
    && DigitBit(k.h, 0) == DigitBit(d.f, 1) && DigitBit(k.h, 1) == DigitBit(d.b, 3)
    && DigitBit(k.h, 2) == DigitBit(d.a, 0) && DigitBit(k.h, 3) == DigitBit(d.a, 3)
  }

  lemma DigitOfWord(w: Hex, q: nat, j: nat)
    requires q < 8 && j < 4
    ensures w.Word()[4 * q + j] == DigitBit(w.At(q), j)
  {
    hide DigitBit, Hex.At;
  }

  predicate LeftDigit(w: Hex, x: Nibble, o: nat) {
    && DigitBit(x, 0) == PickedLeft(w, o) && DigitBit(x, 1) == PickedLeft(w, o + 1)
    && DigitBit(x, 2) == PickedLeft(w, o + 2) && DigitBit(x, 3) == PickedLeft(w, o + 3)
  }

  lemma LeftDigits(c: Hex, k: Hex)
    requires LeftKey(c, k)
    ensures LeftDigit(c, k.c, 0) && LeftDigit(c, k.d, 4) && LeftDigit(c, k.e, 8)
  {
    hide DigitBit;
  }

  lemma LeftDigitsToo(c: Hex, k: Hex)
    requires LeftKey(c, k)
    ensures LeftDigit(c, k.f, 12) && LeftDigit(c, k.g, 16) && LeftDigit(c, k.h, 20)
  {
    hide DigitBit;
  }

  lemma LeftKeyIs(c: Hex, k: Hex, o: nat)
    requires LeftKey(c, k) && o < 24
    ensures k.Word()[8 + o] == PickedLeft(c, o)
  {
    hide DigitBit, PickedLeft, LeftKey, Hex.Word;
    LeftDigits(c, k);
    LeftDigitsToo(c, k);
    var q, j := o / 4, o % 4;
    DigitOfWord(k, 2 + q, j);
    assert LeftDigit(c, k.At(2 + q), 4 * q);
  }

  predicate RightDigit(w: Hex, x: Nibble, o: nat) {
    && DigitBit(x, 0) == PickedRight(w, o) && DigitBit(x, 1) == PickedRight(w, o + 1)
    && DigitBit(x, 2) == PickedRight(w, o + 2) && DigitBit(x, 3) == PickedRight(w, o + 3)
  }

  lemma RightDigits(d: Hex, k: Hex)
    requires RightKey(d, k)
    ensures RightDigit(d, k.c, 0) && RightDigit(d, k.d, 4) && RightDigit(d, k.e, 8)
  {
    hide DigitBit;
  }

  lemma RightDigitsToo(d: Hex, k: Hex)
    requires RightKey(d, k)
    ensures RightDigit(d, k.f, 12) && RightDigit(d, k.g, 16) && RightDigit(d, k.h, 20)
  {
    hide DigitBit;
  }

  lemma RightKeyIs(d: Hex, k: Hex, o: nat)
    requires RightKey(d, k) && o < 24
    ensures k.Word()[8 + o] == PickedRight(d, o)
  {
    hide DigitBit, PickedRight, RightKey, Hex.Word;
    RightDigits(d, k);
    RightDigitsToo(d, k);
    var q, j := o / 4, o % 4;
    DigitOfWord(k, 2 + q, j);
    assert RightDigit(d, k.At(2 + q), 4 * q);
  }

  /** The round key of the rotated halves. */
  lemma RoundKeyIs(key: Block, n: nat, c: Hex, d: Hex, k: Hex, m: Hex)
    requires Kept(key, n + 1, c, d) && LeftKey(c, k) && RightKey(d, m) && k.a == k.b == m.a == m.b == 0
    ensures Subkey(key, n) == RoundKey(k.Word(), m.Word())
  {
    hide LeftKey, RightKey, Kept, Hex.Word, ScheduleBit;
    LeadingZeros(k);
    LeadingZeros(m);
    var sub := Subkey(key, n);
    forall i | 0 <= i < 32
      ensures sub.l[i] == k.Word()[i] && sub.r[i] == m.Word()[i]
    {
      if 8 <= i {
        KeyBitIs(key, n, c, d, k, m, i - 8);
      }
    }
    assert sub.l == k.Word() && sub.r == m.Word();
  }

  lemma KeyBitIs(key: Block, n: nat, c: Hex, d: Hex, k: Hex, m: Hex, o: nat)
    requires Kept(key, n + 1, c, d) && LeftKey(c, k) && RightKey(d, m) && o < 24
    ensures ScheduleBit(key, n, o) == k.Word()[8 + o] && ScheduleBit(key, n, o + 24) == m.Word()[8 + o]
  {
    hide LeftKey, RightKey, PickedLeft, PickedRight, HalfBit, CompEntry, RotatedBit, Hex.Word;
    LeftKeyIs(c, k, o);
    RightKeyIs(d, m, o);
    PickedLeftIs(c, o);
    PickedRightIs(d, o);
  }

  lemma LeadingZeros(k: Hex)
    requires k.a == 0 && k.b == 0
    ensures forall i :: 0 <= i < 8 ==> !k.Word()[i]
  {
  }

  // ----- a known key

  const KNOWN := Digits(Hex(1, 3, 3, 4, 5, 7, 7, 9), Hex(9, 11, 11, 12, 13, 15, 15, 1))

  /** One more round: the halves turn, and the round key is picked from them. */
  lemma NextRoundKey(n: nat, c: Hex, d: Hex, c': Hex, d': Hex, k: Hex, m: Hex)
    requires n < 16 && Kept(KNOWN, n, c, d) && Turned(c, c', KeyShift(n)) && Turned(d, d', KeyShift(n))
    requires LeftKey(c', k) && RightKey(d', m) && k.a == k.b == m.a == m.b == 0
    ensures Kept(KNOWN, n + 1, c', d')
    ensures Subkey(KNOWN, n) == RoundKey(k.Word(), m.Word())
  {
    hide Kept, LeftKey, RightKey, Turned;
    KeptStep(KNOWN, n, c, d, c', d');
    RoundKeyIs(KNOWN, n, c', d', k, m);
  }

  lemma Schedule0()
    ensures Kept(KNOWN, 0, Hex(15, 0, 12, 12, 10, 10, 15, 0), Hex(5, 5, 6, 6, 7, 8, 15, 0))
  {
    ChosenIsKept(Hex(1, 3, 3, 4, 5, 7, 7, 9), Hex(9, 11, 11, 12, 13, 15, 15, 1), Hex(15, 0, 12, 12, 10, 10, 15, 0), Hex(5, 5, 6, 6, 7, 8, 15, 0));
  }

  lemma Schedule1()
    ensures Kept(KNOWN, 1, Hex(14, 1, 9, 9, 5, 5, 15, 0), Hex(10, 10, 12, 12, 15, 1, 14, 0))
    ensures Subkey(KNOWN, 0) == RoundKey(Hex(0, 0, 1, 11, 0, 2, 14, 15).Word(), Hex(0, 0, 15, 12, 7, 0, 7, 2).Word())
  {
    hide Kept, Subkey;
    Schedule0();
    NextRoundKey(0, Hex(15, 0, 12, 12, 10, 10, 15, 0), Hex(5, 5, 6, 6, 7, 8, 15, 0),
      Hex(14, 1, 9, 9, 5, 5, 15, 0), Hex(10, 10, 12, 12, 15, 1, 14, 0),
      Hex(0, 0, 1, 11, 0, 2, 14, 15), Hex(0, 0, 15, 12, 7, 0, 7, 2));
  }

  lemma Schedule2()
    ensures Kept(KNOWN, 2, Hex(12, 3, 3, 2, 10, 11, 15, 0), Hex(5, 5, 9, 9, 14, 3, 13, 0))
    ensures Subkey(KNOWN, 1) == RoundKey(Hex(0, 0, 7, 9, 10, 14, 13, 9).Word(), Hex(0, 0, 13, 11, 12, 9, 14, 5).Word())
  {
    hide Kept, Subkey;
    Schedule1();
    NextRoundKey(1, Hex(14, 1, 9, 9, 5, 5, 15, 0), Hex(10, 10, 12, 12, 15, 1, 14, 0),
      Hex(12, 3, 3, 2, 10, 11, 15, 0), Hex(5, 5, 9, 9, 14, 3, 13, 0),
      Hex(0, 0, 7, 9, 10, 14, 13, 9), Hex(0, 0, 13, 11, 12, 9, 14, 5));
  }

  lemma Schedule3()
    ensures Kept(KNOWN, 3, Hex(0, 12, 12, 10, 10, 15, 15, 0), Hex(5, 6, 6, 7, 8, 15, 5, 0))
    ensures Subkey(KNOWN, 2) == RoundKey(Hex(0, 0, 5, 5, 15, 12, 8, 10).Word(), Hex(0, 0, 4, 2, 12, 15, 9, 9).Word())
  {
    hide Kept, Subkey;
    Schedule2();
    NextRoundKey(2, Hex(12, 3, 3, 2, 10, 11, 15, 0), Hex(5, 5, 9, 9, 14, 3, 13, 0),
      Hex(0, 12, 12, 10, 10, 15, 15, 0), Hex(5, 6, 6, 7, 8, 15, 5, 0),
      Hex(0, 0, 5, 5, 15, 12, 8, 10), Hex(0, 0, 4, 2, 12, 15, 9, 9));
  }

  lemma Schedule4()
    ensures Kept(KNOWN, 4, Hex(3, 3, 2, 10, 11, 15, 12, 0), Hex(5, 9, 9, 14, 3, 13, 5, 0))
    ensures Subkey(KNOWN, 3) == RoundKey(Hex(0, 0, 7, 2, 10, 13, 13, 6).Word(), Hex(0, 0, 13, 11, 3, 5, 1, 13).Word())
  {
    hide Kept, Subkey;
    Schedule3();
    NextRoundKey(3, Hex(0, 12, 12, 10, 10, 15, 15, 0), Hex(5, 6, 6, 7, 8, 15, 5, 0),
      Hex(3, 3, 2, 10, 11, 15, 12, 0), Hex(5, 9, 9, 14, 3, 13, 5, 0),
      Hex(0, 0, 7, 2, 10, 13, 13, 6), Hex(0, 0, 13, 11, 3, 5, 1, 13));
  }

  lemma Schedule5()
    ensures Kept(KNOWN, 5, Hex(12, 12, 10, 10, 15, 15, 0, 0), Hex(6, 6, 7, 8, 15, 5, 5, 0))
    ensures Subkey(KNOWN, 4) == RoundKey(Hex(0, 0, 7, 12, 14, 12, 0, 7).Word(), Hex(0, 0, 14, 11, 5, 3, 10, 8).Word())
  {
    hide Kept, Subkey;
    Schedule4();
    NextRoundKey(4, Hex(3, 3, 2, 10, 11, 15, 12, 0), Hex(5, 9, 9, 14, 3, 13, 5, 0),
      Hex(12, 12, 10, 10, 15, 15, 0, 0), Hex(6, 6, 7, 8, 15, 5, 5, 0),
      Hex(0, 0, 7, 12, 14, 12, 0, 7), Hex(0, 0, 14, 11, 5, 3, 10, 8));
  }

  lemma Schedule6()
    ensures Kept(KNOWN, 6, Hex(3, 2, 10, 11, 15, 12, 3, 0), Hex(9, 9, 14, 3, 13, 5, 5, 0))
    ensures Subkey(KNOWN, 5) == RoundKey(Hex(0, 0, 6, 3, 10, 5, 3, 14).Word(), Hex(0, 0, 5, 0, 7, 11, 2, 15).Word())
  {
    hide Kept, Subkey;
    Schedule5();
    NextRoundKey(5, Hex(12, 12, 10, 10, 15, 15, 0, 0), Hex(6, 6, 7, 8, 15, 5, 5, 0),
      Hex(3, 2, 10, 11, 15, 12, 3, 0), Hex(9, 9, 14, 3, 13, 5, 5, 0),
      Hex(0, 0, 6, 3, 10, 5, 3, 14), Hex(0, 0, 5, 0, 7, 11, 2, 15));
  }

  lemma Schedule7()
    ensures Kept(KNOWN, 7, Hex(12, 10, 10, 15, 15, 0, 12, 0), Hex(6, 7, 8, 15, 5, 5, 6, 0))
    ensures Subkey(KNOWN, 6) == RoundKey(Hex(0, 0, 14, 12, 8, 4, 11, 7).Word(), Hex(0, 0, 15, 6, 1, 8, 11, 12).Word())
  {
    hide Kept, Subkey;
    Schedule6();
    NextRoundKey(6, Hex(3, 2, 10, 11, 15, 12, 3, 0), Hex(9, 9, 14, 3, 13, 5, 5, 0),
      Hex(12, 10, 10, 15, 15, 0, 12, 0), Hex(6, 7, 8, 15, 5, 5, 6, 0),
      Hex(0, 0, 14, 12, 8, 4, 11, 7), Hex(0, 0, 15, 6, 1, 8, 11, 12));
  }

  lemma Schedule8()
    ensures Kept(KNOWN, 8, Hex(2, 10, 11, 15, 12, 3, 3, 0), Hex(9, 14, 3, 13, 5, 5, 9, 0))
    ensures Subkey(KNOWN, 7) == RoundKey(Hex(0, 0, 15, 7, 8, 10, 3, 10).Word(), Hex(0, 0, 12, 1, 3, 11, 15, 11).Word())
  {
    hide Kept, Subkey;
    Schedule7();
    NextRoundKey(7, Hex(12, 10, 10, 15, 15, 0, 12, 0), Hex(6, 7, 8, 15, 5, 5, 6, 0),
      Hex(2, 10, 11, 15, 12, 3, 3, 0), Hex(9, 14, 3, 13, 5, 5, 9, 0),
      Hex(0, 0, 15, 7, 8, 10, 3, 10), Hex(0, 0, 12, 1, 3, 11, 15, 11));
  }

  lemma Schedule9()
    ensures Kept(KNOWN, 9, Hex(5, 5, 7, 15, 8, 6, 6, 0), Hex(3, 12, 7, 10, 10, 11, 3, 0))
    ensures Subkey(KNOWN, 8) == RoundKey(Hex(0, 0, 14, 0, 13, 11, 14, 11).Word(), Hex(0, 0, 14, 13, 14, 7, 8, 1).Word())
  {
    hide Kept, Subkey;
    Schedule8();
    NextRoundKey(8, Hex(2, 10, 11, 15, 12, 3, 3, 0), Hex(9, 14, 3, 13, 5, 5, 9, 0),
      Hex(5, 5, 7, 15, 8, 6, 6, 0), Hex(3, 12, 7, 10, 10, 11, 3, 0),
      Hex(0, 0, 14, 0, 13, 11, 14, 11), Hex(0, 0, 14, 13, 14, 7, 8, 1));
  }

  lemma Schedule10()
    ensures Kept(KNOWN, 10, Hex(5, 5, 15, 14, 1, 9, 9, 0), Hex(15, 1, 14, 10, 10, 12, 12, 0))
    ensures Subkey(KNOWN, 9) == RoundKey(Hex(0, 0, 11, 1, 15, 3, 4, 7).Word(), Hex(0, 0, 11, 10, 4, 6, 4, 15).Word())
  {
    hide Kept, Subkey;
    Schedule9();
    NextRoundKey(9, Hex(5, 5, 7, 15, 8, 6, 6, 0), Hex(3, 12, 7, 10, 10, 11, 3, 0),
      Hex(5, 5, 15, 14, 1, 9, 9, 0), Hex(15, 1, 14, 10, 10, 12, 12, 0),
      Hex(0, 0, 11, 1, 15, 3, 4, 7), Hex(0, 0, 11, 10, 4, 6, 4, 15));
  }

  lemma Schedule11()
    ensures Kept(KNOWN, 11, Hex(5, 7, 15, 8, 6, 6, 5, 0), Hex(12, 7, 10, 10, 11, 3, 3, 0))
    ensures Subkey(KNOWN, 10) == RoundKey(Hex(0, 0, 2, 1, 5, 15, 13, 3).Word(), Hex(0, 0, 13, 14, 13, 3, 8, 6).Word())
  {
    hide Kept, Subkey;
    Schedule10();
    NextRoundKey(10, Hex(5, 5, 15, 14, 1, 9, 9, 0), Hex(15, 1, 14, 10, 10, 12, 12, 0),
      Hex(5, 7, 15, 8, 6, 6, 5, 0), Hex(12, 7, 10, 10, 11, 3, 3, 0),
      Hex(0, 0, 2, 1, 5, 15, 13, 3), Hex(0, 0, 13, 14, 13, 3, 8, 6));
  }

  lemma Schedule12()
    ensures Kept(KNOWN, 12, Hex(5, 15, 14, 1, 9, 9, 5, 0), Hex(1, 14, 10, 10, 12, 12, 15, 0))
    ensures Subkey(KNOWN, 11) == RoundKey(Hex(0, 0, 7, 5, 7, 1, 15, 5).Word(), Hex(0, 0, 9, 4, 6, 7, 14, 9).Word())
  {
    hide Kept, Subkey;
    Schedule11();
    NextRoundKey(11, Hex(5, 7, 15, 8, 6, 6, 5, 0), Hex(12, 7, 10, 10, 11, 3, 3, 0),
      Hex(5, 15, 14, 1, 9, 9, 5, 0), Hex(1, 14, 10, 10, 12, 12, 15, 0),
      Hex(0, 0, 7, 5, 7, 1, 15, 5), Hex(0, 0, 9, 4, 6, 7, 14, 9));
  }

  lemma Schedule13()
    ensures Kept(KNOWN, 13, Hex(7, 15, 8, 6, 6, 5, 5, 0), Hex(7, 10, 10, 11, 3, 3, 12, 0))
    ensures Subkey(KNOWN, 12) == RoundKey(Hex(0, 0, 9, 7, 12, 5, 13, 1).Word(), Hex(0, 0, 15, 10, 11, 10, 4, 1).Word())
  {
    hide Kept, Subkey;
    Schedule12();
    NextRoundKey(12, Hex(5, 15, 14, 1, 9, 9, 5, 0), Hex(1, 14, 10, 10, 12, 12, 15, 0),
      Hex(7, 15, 8, 6, 6, 5, 5, 0), Hex(7, 10, 10, 11, 3, 3, 12, 0),
      Hex(0, 0, 9, 7, 12, 5, 13, 1), Hex(0, 0, 15, 10, 11, 10, 4, 1));
  }

  lemma Schedule14()
    ensures Kept(KNOWN, 14, Hex(15, 14, 1, 9, 9, 5, 5, 0), Hex(14, 10, 10, 12, 12, 15, 1, 0))
    ensures Subkey(KNOWN, 13) == RoundKey(Hex(0, 0, 5, 15, 4, 3, 11, 7).Word(), Hex(0, 0, 15, 2, 14, 7, 3, 10).Word())
  {
    hide Kept, Subkey;
    Schedule13();
    NextRoundKey(13, Hex(7, 15, 8, 6, 6, 5, 5, 0), Hex(7, 10, 10, 11, 3, 3, 12, 0),
      Hex(15, 14, 1, 9, 9, 5, 5, 0), Hex(14, 10, 10, 12, 12, 15, 1, 0),
      Hex(0, 0, 5, 15, 4, 3, 11, 7), Hex(0, 0, 15, 2, 14, 7, 3, 10));
  }

  lemma Schedule15()
    ensures Kept(KNOWN, 15, Hex(15, 8, 6, 6, 5, 5, 7, 0), Hex(10, 10, 11, 3, 3, 12, 7, 0))
    ensures Subkey(KNOWN, 14) == RoundKey(Hex(0, 0, 11, 15, 9, 1, 8, 13).Word(), Hex(0, 0, 3, 13, 3, 15, 0, 10).Word())
  {
    hide Kept, Subkey;
    Schedule14();
    NextRoundKey(14, Hex(15, 14, 1, 9, 9, 5, 5, 0), Hex(14, 10, 10, 12, 12, 15, 1, 0),
      Hex(15, 8, 6, 6, 5, 5, 7, 0), Hex(10, 10, 11, 3, 3, 12, 7, 0),
      Hex(0, 0, 11, 15, 9, 1, 8, 13), Hex(0, 0, 3, 13, 3, 15, 0, 10));
  }

  lemma Schedule16()
    ensures Kept(KNOWN, 16, Hex(15, 0, 12, 12, 10, 10, 15, 0), Hex(5, 5, 6, 6, 7, 8, 15, 0))
    ensures Subkey(KNOWN, 15) == RoundKey(Hex(0, 0, 12, 11, 3, 13, 8, 11).Word(), Hex(0, 0, 0, 14, 1, 7, 15, 5).Word())
  {
    hide Kept, Subkey;
    Schedule15();
    NextRoundKey(15, Hex(15, 8, 6, 6, 5, 5, 7, 0), Hex(10, 10, 11, 3, 3, 12, 7, 0),
      Hex(15, 0, 12, 12, 10, 10, 15, 0), Hex(5, 5, 6, 6, 7, 8, 15, 0),
      Hex(0, 0, 12, 11, 3, 13, 8, 11), Hex(0, 0, 0, 14, 1, 7, 15, 5));
  }
}

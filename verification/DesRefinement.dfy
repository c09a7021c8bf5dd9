/** The compiled tables compute what the standard says: bit by bit, for all blocks, keys and salts. */
module DesRefinement {
  import opened DesBits
  import opened DesTables
  import opened DesStandard

  /** Inverting a table makes every listed position feed the place that lists it. */
  lemma InvertedFeeds(p: seq<int>, size: nat, i: nat, h: Half)
    requires Places(p, size) && i < |p| < 255 && h.Valid() && h.lo <= i < h.hi
    ensures Feeds(Inverted(p, size, |p|), p[i] - 1, h, i - h.lo + h.at)
  {
    InvertedInverts(p, size, |p|);
  }

  // ----- permutations of a block

  /** The eight bytes of a block, as the look-ups take them. */
  function ByteGroups(b: Block): (g: seq<seq<bool>>)
    ensures |g| == 8 && Groups(g, 8)
  {
    [Field(b.l, 24, 8), Field(b.l, 16, 8), Field(b.l, 8, 8), Field(b.l, 0, 8),
     Field(b.r, 24, 8), Field(b.r, 16, 8), Field(b.r, 8, 8), Field(b.r, 0, 8)]
  }

  lemma ByteGroupBit(b: Block, n: nat)
    requires n < 64
    ensures ByteGroups(b)[n / 8][n % 8] == b.Bit(n)
  {
  }

  /** The table pair for a permutation of 64 bits, applied. */
  function Permute(perm: seq<int>, b: Block): Block
    requires |perm| == 64
  {
    TableFits(perm, ByteGroups(b), 8, 8, LEFT32);
    TableFits(perm, ByteGroups(b), 8, 8, RIGHT32);
    Block(Gather(Masks(perm, 8, 8, 8, LEFT32), ByteGroups(b)), Gather(Masks(perm, 8, 8, 8, RIGHT32), ByteGroups(b)))
  }

  /** Such a table moves bit n of the block to bit perm[n]. */
  lemma PermuteMoves(perm: seq<int>, b: Block, n: nat)
    requires |perm| == 64 && n < 64 && 0 <= perm[n] < 64
    requires forall m :: 0 <= m < 64 && perm[m] == perm[n] ==> m == n
    ensures Permute(perm, b).Bit(perm[n]) == b.Bit(n)
  {
    hide Masks, Gather, ByteGroups;
    var o := perm[n];
    assert Covers(perm, 8, 8, 8);
    ByteGroupBit(b, n);
    if o < 32 {
      GatherMoves(perm, ByteGroups(b), 8, 8, LEFT32, n, o, n / 8);
    } else {
      GatherMoves(perm, ByteGroups(b), 8, 8, RIGHT32, n, o - 32, n / 8);
    }
  }

  function InitPerm(): (p: seq<int>)
    ensures |p| == 64
  {
    DataTables();
    Inverted(Ip(), 64, 64)
  }

  function FinalPerm(): (p: seq<int>)
    ensures |p| == 64
  {
    seq(64, i requires 0 <= i < 64 => IpEntry(i) - 1)
  }

  /** The mask tables for IP implement the initial permutation. */
  lemma InitialTables(b: Block)
    ensures Permute(InitPerm(), b) == InitialPermuted(b)
  {
    forall o | 0 <= o < 64
      ensures Permute(InitPerm(), b).Bit(o) == InitialPermuted(b).Bit(o)
    {
      InitialTableBit(b, o);
    }
    SameBlock(Permute(InitPerm(), b), InitialPermuted(b));
  }

  lemma InitialTableBit(b: Block, o: nat)
    requires o < 64
    ensures Permute(InitPerm(), b).Bit(o) == InitialPermuted(b).Bit(o)
  {
    hide IpEntry, Inverted;
    DataTables();
    InvertedInverts(Ip(), 64, 64);
    assert Ip()[o] == FromIp(o) + 1 && InitPerm()[FromIp(o)] == o;
    forall m | 0 <= m < 64 && InitPerm()[m] == o
      ensures m == FromIp(o)
    {
      assert Ip()[InitPerm()[m]] == m + 1;
    }
    PermuteMoves(InitPerm(), b, FromIp(o));
    InitialBit(b, o);
  }

  /** The mask tables for the final permutation implement it. */
  lemma FinalTables(b: Block)
    ensures Permute(FinalPerm(), b) == FinalPermuted(b)
  {
    forall o | 0 <= o < 64
      ensures Permute(FinalPerm(), b).Bit(o) == FinalPermuted(b).Bit(o)
    {
      FinalTableBit(b, o);
    }
    SameBlock(Permute(FinalPerm(), b), FinalPermuted(b));
  }

  lemma FinalTableBit(b: Block, o: nat)
    requires o < 64
    ensures Permute(FinalPerm(), b).Bit(o) == FinalPermuted(b).Bit(o)
  {
    hide IpEntry, FpEntry;
    SourcesInverse(o);
    assert FinalPerm()[FromFp(o)] == FromIp(FromFp(o)) == o;
    forall m | 0 <= m < 64 && FinalPerm()[m] == o
      ensures m == FromFp(o)
    {
      assert FromIp(m) == o;
      SourcesInverse(m);
    }
    PermuteMoves(FinalPerm(), b, FromFp(o));
    FinalBit(b, o);
  }

  // ----- the key schedule

  /** The first seven bits of every key byte: the eighth is for parity and is never read. */
  function KeyGroups(key: Block): (g: seq<seq<bool>>)
    ensures |g| == 8 && Groups(g, 7)
  {
    [Field(key.l, 25, 7), Field(key.l, 17, 7), Field(key.l, 9, 7), Field(key.l, 1, 7),
     Field(key.r, 25, 7), Field(key.r, 17, 7), Field(key.r, 9, 7), Field(key.r, 1, 7)]
  }

  lemma KeyGroupBit(key: Block, n: nat)
    requires n < 64 && n % 8 != 7
    ensures KeyGroups(key)[n / 8][n % 8] == key.Bit(n)
  {
  }

  lemma NoParity(m: nat)
    requires m < 56
    ensures 1 <= KeyEntry(m) <= 64 && (KeyEntry(m) - 1) % 8 != 7
  {
  }

  function InvKeyPerm(): (p: seq<int>)
    ensures |p| == 64
  {
    KeyTables();
    Inverted(KeyPerm(), 64, 56)
  }

  function InvCompPerm(): (p: seq<int>)
    ensures |p| == 56
  {
    KeyTables();
    Inverted(CompPerm(), 56, 48)
  }

  /** One 28-bit half of the permuted key, right-aligned in a word. */
  function KeyHalf(key: Block, h: Half): Word
    requires h == LEFT28 || h == RIGHT28
  {
    TableFits(InvKeyPerm(), KeyGroups(key), 8, 7, h);
    Gather(Masks(InvKeyPerm(), 8, 8, 7, h), KeyGroups(key))
  }

  lemma KeyHalfBit(key: Block, h: Half, m: nat)
    requires (h == LEFT28 || h == RIGHT28) && m < 28
    ensures 1 <= KeyEntry(h.lo + m) <= 64
    ensures KeyHalf(key, h)[4 + m] == key.Bit(KeyEntry(h.lo + m) - 1)
  {
    hide KeyEntry, Inverted, Masks, Gather, Feeds, Places, KeyGroups, Fits;
    var n := KeyEntry(h.lo + m) - 1;
    NoParity(h.lo + m);
    KeyTables();
    assert KeyPerm()[h.lo + m] == n + 1;
    InvertedFeeds(KeyPerm(), 64, h.lo + m, h);
    KeyGroupBit(key, n);
    GatherMoves(InvKeyPerm(), KeyGroups(key), 8, 7, h, n, 4 + m, n / 8);
  }

  lemma KeyHalfTop(key: Block, h: Half, i: nat)
    requires (h == LEFT28 || h == RIGHT28) && i < 4
    ensures !KeyHalf(key, h)[i]
  {
    GatherUnfed(InvKeyPerm(), KeyGroups(key), 8, 7, h, i);
  }

  /** What the source computes as (k << s) | (k >> (28 - s)): above its low 28 bits it holds left-overs. */
  function Rotated(k: Word, s: nat): Word
    requires s <= 28
  {
    Or(Shl(k, s), Shr(k, 28 - s))
  }

  lemma RotatedHalfBit(key: Block, h: Half, s: nat, m: nat)
    requires (h == LEFT28 || h == RIGHT28) && m < 28 && s <= 28
    ensures 1 <= KeyEntry(h.lo + (m + s) % 28) <= 64
    ensures Rotated(KeyHalf(key, h), s)[4 + m] == key.Bit(KeyEntry(h.lo + (m + s) % 28) - 1)
  {
    hide KeyEntry, KeyHalf;
    KeyHalfBit(key, h, (m + s) % 28);
    if m + s < 28 && s + m >= 24 {
      KeyHalfTop(key, h, s + m - 24);
    }
  }

  /** The seven-bit groups of two rotated halves. */
  function CompGroups(t: Block): (g: seq<seq<bool>>)
    ensures |g| == 8 && Groups(g, 7)
  {
    [Field(t.l, 21, 7), Field(t.l, 14, 7), Field(t.l, 7, 7), Field(t.l, 0, 7),
     Field(t.r, 21, 7), Field(t.r, 14, 7), Field(t.r, 7, 7), Field(t.r, 0, 7)]
  }

  lemma CompGroupBit(t: Block, n: nat)
    requires n < 56
    ensures CompGroups(t)[n / 7][n % 7] == if n < 28 then t.l[4 + n] else t.r[4 + n - 28]
  {
  }

  /** One half of a round key. */
  function Compressed(t: Block, h: Half): Word
    requires h == LEFT24 || h == RIGHT24
  {
    TableFits(InvCompPerm(), CompGroups(t), 7, 7, h);
    Gather(Masks(InvCompPerm(), 8, 7, 7, h), CompGroups(t))
  }

  lemma CompressedBit(t: Block, h: Half, o: nat)
    requires (h == LEFT24 || h == RIGHT24) && o < 24
    ensures 1 <= CompEntry(h.lo + o) <= 56
    ensures Compressed(t, h)[8 + o] ==
      var n := CompEntry(h.lo + o) - 1; if n < 28 then t.l[4 + n] else t.r[4 + n - 28]
  {
    hide CompEntry, Inverted, Masks, Gather, Feeds, CompGroups;
    KeyTables();
    assert CompPerm()[h.lo + o] == CompEntry(h.lo + o);
    var n := CompEntry(h.lo + o) - 1;
    hide Places;
    InvertedFeeds(CompPerm(), 56, h.lo + o, h);
    CompGroupBit(t, n);
    GatherMoves(InvCompPerm(), CompGroups(t), 7, 7, h, n, 8 + o, n / 7);
  }

  lemma CompressedTop(t: Block, h: Half, i: nat)
    requires (h == LEFT24 || h == RIGHT24) && i < 8
    ensures !Compressed(t, h)[i]
  {
    GatherUnfed(InvCompPerm(), CompGroups(t), 7, 7, h, i);
  }

  /** The two halves of the permuted key, rotated for round n. */
  function Halves(key: Block, n: nat): Block
    requires n < 16
  {
    RotationLimit(n + 1);
    Block(Rotated(KeyHalf(key, LEFT28), Rotation(n + 1)), Rotated(KeyHalf(key, RIGHT28), Rotation(n + 1)))
  }

  lemma ScheduleHalf(key: Block, n: nat, h: Half, o: nat)
    requires n < 16 && (h == LEFT24 || h == RIGHT24) && o < 24
    ensures Compressed(Halves(key, n), h)[8 + o] == ScheduleBit(key, n, h.lo + o)
  {
    hide CompEntry, KeyEntry, Compressed, KeyHalf, Rotated, Rotation;
    CompressedBit(Halves(key, n), h, o);
    RotationLimit(n + 1);
    var c := CompEntry(h.lo + o) - 1;
    if c < 28 {
      RotatedHalfBit(key, LEFT28, Rotation(n + 1), c);
    } else {
      RotatedHalfBit(key, RIGHT28, Rotation(n + 1), c - 28);
    }
  }

  /** The round keys the tables produce are the standard's, for every key and round. */
  lemma ScheduleTables(key: Block, n: nat)
    requires n < 16
    ensures RoundKey(Compressed(Halves(key, n), LEFT24), Compressed(Halves(key, n), RIGHT24)) == Subkey(key, n)
    ensures Subkey(key, n).Aligned()
  {
    hide Compressed, Halves, ScheduleBit;
    var t := Halves(key, n);
    forall i | 0 <= i < 32
      ensures Compressed(t, LEFT24)[i] == Subkey(key, n).l[i] && Compressed(t, RIGHT24)[i] == Subkey(key, n).r[i]
    {
      if i < 8 {
        CompressedTop(t, LEFT24, i);
        CompressedTop(t, RIGHT24, i);
      } else {
        ScheduleHalf(key, n, LEFT24, i - 8);
        ScheduleHalf(key, n, RIGHT24, i - 8);
      }
    }
  }

  // ----- one round

  /** The first 24 expanded bits: the E table as five masks and shifts. */
  function ExpandLeft(r: Word): Word {
    Or(Or(Or(Or(Shl(And(r, Ones(31, 32)), 23), Shr(And(r, Ones(0, 5)), 9)), Shr(And(r, Ones(3, 9)), 11)),
          Shr(And(r, Ones(7, 13)), 13)), Shr(And(r, Ones(11, 17)), 15))
  }

  /** The last 24 expanded bits. */
  function ExpandRight(r: Word): Word {
    Or(Or(Or(Or(Shl(And(r, Ones(15, 21)), 7), Shl(And(r, Ones(19, 25)), 5)), Shl(And(r, Ones(23, 29)), 3)),
          Shl(And(r, Ones(27, 32)), 1)), Shr(And(r, Ones(0, 1)), 31))
  }

  /** The masks and shifts are the E bit-selection table, and leave the top byte of each word clear. */
  lemma ExpandBit(r: Word, n: nat)
    requires n < 24
    ensures ExpandLeft(r)[8 + n] == r[ESource(n)]
    ensures ExpandRight(r)[8 + n] == r[ESource(24 + n)]
  {
    ExpandLeftBit(r, n);
    ExpandRightBit(r, n);
  }

  lemma ExpandLeftBit(r: Word, n: nat)
    requires n < 24
    ensures ExpandLeft(r)[8 + n] == r[ESource(n)]
  {
    hide ESource;
    LeftSource(n);
  }

  /** The table in groups of six, each four further on than the last. */
  lemma LeftSource(n: nat)
    requires n < 24
    ensures ESource(n) == if n == 0 then 31 else if n < 6 then n - 1 else if n < 12 then n - 3
                          else if n < 18 then n - 5 else n - 7
  {
    SixesAndThirtyTwos(n);
  }

  lemma ExpandRightBit(r: Word, n: nat)
    requires n < 24
    ensures ExpandRight(r)[8 + n] == r[ESource(24 + n)]
  {
    hide ESource;
    RightSource(n);
  }

  lemma RightSource(n: nat)
    requires n < 24
    ensures ESource(24 + n) == if n < 6 then n + 15 else if n < 12 then n + 13 else if n < 18 then n + 11
                               else if n < 23 then n + 9 else 0
  {
    SixesAndThirtyTwos(24 + n);
  }

  lemma SixesAndThirtyTwos(n: nat)
    requires n < 48
    ensures ESource(n) == if n == 0 then 31 else if n == 47 then 0 else 4 * (n / 6) + n % 6 - 1
    ensures var row := if n < 6 then 0 else if n < 12 then 1 else if n < 18 then 2 else if n < 24 then 3
                       else if n < 30 then 4 else if n < 36 then 5 else if n < 42 then 6 else 7;
      n / 6 == row && n % 6 == n - 6 * row
  {
    var row := n / 6;
    assert n == 6 * row + n % 6;
  }

  lemma ExpandTop(r: Word, i: nat)
    requires i < 8
    ensures !ExpandLeft(r)[i] && !ExpandRight(r)[i]
  {
  }

  /** The expanded word after salting and adding the round key. */
  function Keyed(r: Word, salt: Word, k: RoundKey): RoundKey {
    var f := And(Xor(ExpandLeft(r), ExpandRight(r)), salt);
    RoundKey(Xor(ExpandLeft(r), Xor(f, k.l)), Xor(ExpandRight(r), Xor(f, k.r)))
  }

  /** Masking the difference of the halves swaps exactly the salted bits. */
  lemma KeyedBit(r: Word, salt: Word, k: RoundKey, n: nat)
    requires n < 48
    ensures Keyed(r, salt, k).Bit(n) == (Expanded(r, salt, n) != k.Bit(n))
  {
    hide ExpandLeft, ExpandRight, ESource;
    ExpandBit(r, n % 24);
  }

  lemma KeyedAligned(r: Word, salt: Word, k: RoundKey)
    requires k.Aligned() && forall i :: 0 <= i < 8 ==> !salt[i]
    ensures Keyed(r, salt, k).Aligned()
  {
    hide ExpandLeft, ExpandRight;
    forall i | 0 <= i < 8
      ensures !Keyed(r, salt, k).l[i] && !Keyed(r, salt, k).r[i]
    {
      ExpandTop(r, i);
    }
  }

  /** An S-box index as the bits come in, turned into one with the row bits first. */
  function Reordered(j: nat): (b: nat)
    ensures j < 64 ==> b < 64
  {
    j / 32 * 32 + j % 2 * 16 + j / 2 % 16
  }

  /** One of the four tables that answer for two S-boxes at once. */
  function PairBox(b: nat): (m: seq<nat>)
    requires b < 4
    ensures |m| == 4096
  {
    seq(4096, i requires 0 <= i < 4096 => 16 * Box(2 * b, Reordered(i / 64)) + Box(2 * b + 1, Reordered(i % 64)))
  }

  /** Numbers written one after the other. */
  lemma {:induction false} ValueJoin(a: seq<bool>, b: seq<bool>)
    ensures Value(a + b) == Value(a) * Pow2(|b|) + Value(b)
  {
    if b == [] {
      assert a + b == a;
    } else {
      assert (a + b)[..|a| + |b| - 1] == a + b[..|b| - 1];
      ValueJoin(a, b[..|b| - 1]);
      DoubleProduct(Value(a), Pow2(|b| - 1));
    }
  }

  lemma DoubleProduct(x: nat, y: nat)
    ensures x * (2 * y) == 2 * (x * y)
  {
  }

  lemma ReorderedParts(first: nat, column: nat, last: nat)
    requires first < 2 && column < 16 && last < 2
    ensures Reordered((first * 16 + column) * 2 + last) == 16 * (first * 2 + last) + column
  {
  }

  /** Reordering the index is the standard's choice of row and column. */
  lemma RowAndColumn(box: nat, six: seq<bool>)
    requires box < 8 && |six| == 6
    ensures Value(six) < 64 && Box(box, Reordered(Value(six))) == BoxOutput(box, six)
  {
    hide Value, Box, Reordered;
    var first, column, last := six[..1], six[1..5], six[5..];
    assert six == (first + column) + last && [six[0], six[5]] == first + last;
    ValueJoin(first + column, last);
    ValueJoin(first, column);
    ValueJoin(first, last);
    ValueBound(first);
    ValueBound(column);
    ValueBound(last);
    PowersOfTwo();
    assert Pow2(1) == 2 * Pow2(0);
    ReorderedParts(Value(first), Value(column), Value(last));
  }

  /** One look-up in a double table is two S-box look-ups. */
  lemma PairLookup(b: nat, hi: seq<bool>, lo: seq<bool>)
    requires b < 4 && |hi| == 6 && |lo| == 6
    ensures Value(hi + lo) < 4096
    ensures PairBox(b)[Value(hi + lo)] == 16 * BoxOutput(2 * b, hi) + BoxOutput(2 * b + 1, lo)
  {
    hide BoxOutput, Reordered, Value, Box, Pow2;
    ValueJoin(hi, lo);
    PowersOfTwo();
    RowAndColumn(2 * b, hi);
    RowAndColumn(2 * b + 1, lo);
  }

  function UnPbox(): (p: seq<int>)
    ensures |p| == 32
  {
    DataTables();
    Inverted(Pbox(), 32, 32)
  }

  /** S-boxes 2b and 2b+1 and their share of the P-box, for twelve bits of the keyed word. */
  function Substituted(b: nat, bits: seq<bool>): Word
    requires b < 4 && |bits| == 12
  {
    PairLookup(b, bits[..6], bits[6..]);
    assert bits == bits[..6] + bits[6..];
    PowersOfTwo();
    MaskRow(UnPbox(), 8 * b, 8, LEFT32)[PairBox(b)[Value(bits)]]
  }

  lemma SubstitutedRow(b: nat, hi: seq<bool>, lo: seq<bool>)
    requires b < 4 && |hi| == 6 && |lo| == 6
    ensures 16 * BoxOutput(2 * b, hi) + BoxOutput(2 * b + 1, lo) < 256
    ensures Substituted(b, hi + lo)
      == OrMask(UnPbox(), 8 * b, 8, 16 * BoxOutput(2 * b, hi) + BoxOutput(2 * b + 1, lo), LEFT32, 8)
  {
    hide BoxOutput, PairBox, UnPbox, OrMask, Value, Pow2;
    assert (hi + lo)[..6] == hi && (hi + lo)[6..] == lo;
    PairLookup(b, hi, lo);
    PowersOfTwo();
  }

  lemma PboxFeeds(o: nat)
    requires o < 32
    ensures 1 <= PboxEntry(o) <= 32 && Feeds(UnPbox(), PboxEntry(o) - 1, LEFT32, o)
  {
    hide PboxEntry, Inverted, Feeds;
    DataTables();
    assert Pbox()[o] == PboxEntry(o);
    InvertedFeeds(Pbox(), 32, o, LEFT32);
  }

  /** The P-box sends every S-box bit to its place. */
  lemma SubstitutedBit(b: nat, hi: seq<bool>, lo: seq<bool>, o: nat)
    requires b < 4 && |hi| == 6 && |lo| == 6 && o < 32
    ensures 1 <= PboxEntry(o) <= 32
    ensures Substituted(b, hi + lo)[o] <==>
      var n := PboxEntry(o) - 1;
      (n / 4 == 2 * b && IndexBit(BoxOutput(2 * b, hi), 4, n % 4))
        || (n / 4 == 2 * b + 1 && IndexBit(BoxOutput(2 * b + 1, lo), 4, n % 4))
  {
    hide *;
    PboxFeeds(o);
    var n := PboxEntry(o) - 1;
    var x, y := BoxOutput(2 * b, hi), BoxOutput(2 * b + 1, lo);
    SubstitutedRow(b, hi, lo);
    MaskBit(UnPbox(), 8 * b, 8, 16 * x + y, LEFT32, 8, n, o);
    if 8 * b <= n < 8 * b + 8 {
      PowersOfTwo();
      IndexJoin(x, y, 4, 4, n - 8 * b);
    }
  }

  /** Twelve bits of the keyed word: the index into one double table. */
  function Index(x: RoundKey, b: nat): (bits: seq<bool>)
    requires b < 4
    ensures |bits| == 12
  {
    Field(if b < 2 then x.l else x.r, if b % 2 == 0 then 12 else 0, 12)
  }

  lemma IndexBit12(x: RoundKey, b: nat, i: nat)
    requires b < 4 && i < 12
    ensures Index(x, b)[i] == x.Bit(12 * b + i)
  {
  }

  lemma IndexBits(r: Word, salt: Word, k: RoundKey, b: nat, j: nat)
    requires b < 4 && j < 6
    ensures Index(Keyed(r, salt, k), b)[j] == BoxInput(r, salt, k, 2 * b)[j]
    ensures Index(Keyed(r, salt, k), b)[6 + j] == BoxInput(r, salt, k, 2 * b + 1)[j]
  {
    hide Keyed, Expanded, Index, RoundKey.Bit;
    var x := Keyed(r, salt, k);
    IndexBit12(x, b, j);
    IndexBit12(x, b, 6 + j);
    KeyedBit(r, salt, k, 12 * b + j);
    KeyedBit(r, salt, k, 12 * b + 6 + j);
    assert 6 * (2 * b) + j == 12 * b + j && 6 * (2 * b + 1) + j == 12 * b + 6 + j;
  }

  lemma IndexIsInputs(r: Word, salt: Word, k: RoundKey, b: nat)
    requires b < 4
    ensures Index(Keyed(r, salt, k), b) == BoxInput(r, salt, k, 2 * b) + BoxInput(r, salt, k, 2 * b + 1)
  {
    hide *;
    var bits, hi, lo := Index(Keyed(r, salt, k), b), BoxInput(r, salt, k, 2 * b), BoxInput(r, salt, k, 2 * b + 1);
    forall j | 0 <= j < 6
      ensures bits[j] == hi[j] && bits[6 + j] == lo[j]
    {
      IndexBits(r, salt, k, b, j);
    }
    assert bits[..6] == hi && bits[6..] == lo;
    assert bits == bits[..6] + bits[6..];
  }

  /** One round's f as the tables compute it. */
  function TableFunction(r: Word, salt: Word, k: RoundKey): Word {
    var x := Keyed(r, salt, k);
    Or(Or(Or(Substituted(0, Index(x, 0)), Substituted(1, Index(x, 1))), Substituted(2, Index(x, 2))),
       Substituted(3, Index(x, 3)))
  }

  /** One table-driven round computes the standard's cipher function, for every half-block, salt and round key. */
  lemma RoundTables(r: Word, salt: Word, k: RoundKey)
    ensures TableFunction(r, salt, k) == CipherFunction(r, salt, k)
  {
    hide Substituted, BoxOutput, Keyed, BoxInput, Index, PboxEntry;
    IndexIsInputs(r, salt, k, 0);
    IndexIsInputs(r, salt, k, 1);
    IndexIsInputs(r, salt, k, 2);
    IndexIsInputs(r, salt, k, 3);
    forall o | 0 <= o < 32
      ensures TableFunction(r, salt, k)[o] == CipherFunction(r, salt, k)[o]
    {
      SubstitutedBit(0, BoxInput(r, salt, k, 0), BoxInput(r, salt, k, 1), o);
      SubstitutedBit(1, BoxInput(r, salt, k, 2), BoxInput(r, salt, k, 3), o);
      SubstitutedBit(2, BoxInput(r, salt, k, 4), BoxInput(r, salt, k, 5), o);
      SubstitutedBit(3, BoxInput(r, salt, k, 6), BoxInput(r, salt, k, 7), o);
    }
  }
}

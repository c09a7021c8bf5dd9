/**
 * The cipher bit by bit, in the terms of FIPS PUB 46-3 ("Enciphering", "Deciphering", "The Cipher Function f"),
 * with the one change crypt(3) makes: the salt, which swaps bits between the halves of the expanded word.
 */
module DesStandard {
  import opened DesBits
  import opened DesTables

  /** A 64-bit block or key, as two words. */
  datatype Block = Block(l: Word, r: Word) {
    predicate Bit(n: nat)
      requires n < 64
    {
      if n < 32 then l[n] else r[n - 32]
    }

    function Swap(): Block { Block(r, l) }
  }

  lemma SameBlock(a: Block, b: Block)
    requires forall n :: 0 <= n < 64 ==> a.Bit(n) == b.Bit(n)
    ensures a == b
  {
    forall o | 0 <= o < 32
      ensures a.l[o] == b.l[o] && a.r[o] == b.r[o]
    {
      assert a.Bit(o) == b.Bit(o) && a.Bit(32 + o) == b.Bit(32 + o);
    }
  }

  // ----- the initial and the final permutation

  /** Where bit i of the permuted block comes from. */
  function FromIp(i: nat): (n: nat)
    requires i < 64
    ensures n < 64
  {
    FpInvertsBack(i);
    IpEntry(i) - 1
  }

  function FromFp(i: nat): (n: nat)
    requires i < 64
    ensures n < 64
  {
    FpInverts(i);
    FpEntry(i) - 1
  }

  lemma FpInvertsBack(i: nat)
    requires i < 64
    ensures 1 <= IpEntry(i) <= 64 && FpEntry(IpEntry(i) - 1) == i + 1
  {
    hide IpEntry, FpEntry;
    DataTables();
    assert Ip()[i] == IpEntry(i);
    var j := FpEntry(IpEntry(i) - 1) - 1;
    FpInverts(IpEntry(i) - 1);
    assert Ip()[j] == IpEntry(j);
  }

  function InitialPermuted(b: Block): Block {
    Block(seq(32, o requires 0 <= o < 32 => b.Bit(FromIp(o))), seq(32, o requires 0 <= o < 32 => b.Bit(FromIp(32 + o))))
  }

  function FinalPermuted(b: Block): Block {
    Block(seq(32, o requires 0 <= o < 32 => b.Bit(FromFp(o))), seq(32, o requires 0 <= o < 32 => b.Bit(FromFp(32 + o))))
  }

  lemma InitialBit(b: Block, n: nat)
    requires n < 64
    ensures InitialPermuted(b).Bit(n) == b.Bit(FromIp(n))
  {
  }

  lemma FinalBit(b: Block, n: nat)
    requires n < 64
    ensures FinalPermuted(b).Bit(n) == b.Bit(FromFp(n))
  {
  }

  lemma SourcesInverse(n: nat)
    requires n < 64
    ensures FromIp(FromFp(n)) == n && FromFp(FromIp(n)) == n
  {
    hide IpEntry, FpEntry;
    FpInverts(n);
    FpInvertsBack(n);
  }

  /** The two permutations undo each other on every block. */
  lemma PermutationsInverse(b: Block)
    ensures FinalPermuted(InitialPermuted(b)) == b
    ensures InitialPermuted(FinalPermuted(b)) == b
  {
    hide *;
    forall n | 0 <= n < 64
      ensures FinalPermuted(InitialPermuted(b)).Bit(n) == b.Bit(n)
      ensures InitialPermuted(FinalPermuted(b)).Bit(n) == b.Bit(n)
    {
      FinalBit(InitialPermuted(b), n);
      InitialBit(b, FromFp(n));
      InitialBit(FinalPermuted(b), n);
      FinalBit(b, FromIp(n));
      SourcesInverse(n);
    }
    SameBlock(FinalPermuted(InitialPermuted(b)), b);
    SameBlock(InitialPermuted(FinalPermuted(b)), b);
  }

  // ----- the cipher function

  /** The E bit-selection table: eight rows of six, each sharing its first and last two bits with its neighbours. */
  function ESource(n: nat): (e: nat)
    requires n < 48
    ensures e < 32
  {
    (4 * (n / 6) + n % 6 + 31) % 32
  }

  /** Bit n of the expanded word after salting: a salt bit swaps the bits n and n + 24. */
  predicate Expanded(r: Word, salt: Word, n: nat)
    requires n < 48
  {
    if salt[8 + n % 24] then r[ESource((n + 24) % 48)] else r[ESource(n)]
  }

  /** The two 24-bit halves of a round key, right-aligned in a word each. */
  datatype RoundKey = RoundKey(l: Word, r: Word) {
    predicate Bit(n: nat)
      requires n < 48
    {
      if n < 24 then l[8 + n] else r[8 + n - 24]
    }

    predicate Aligned() { forall i :: 0 <= i < 8 ==> !l[i] && !r[i] }
  }

  /** The six bits that go into one S-box. */
  function BoxInput(r: Word, salt: Word, k: RoundKey, box: nat): (six: seq<bool>)
    requires box < 8
    ensures |six| == 6
  {
    seq(6, j requires 0 <= j < 6 => Expanded(r, salt, 6 * box + j) != k.Bit(6 * box + j))
  }

  /** S-box lookup: the first and the last bit select the row, the four between them the column. */
  function BoxOutput(box: nat, six: seq<bool>): (v: nat)
    requires box < 8 && |six| == 6
    ensures v < 16
  {
    var row, column := Value([six[0], six[5]]), Value(six[1..5]);
    ValueBound([six[0], six[5]]);
    ValueBound(six[1..5]);
    PowersOfTwo();
    Box(box, 16 * row + column)
  }

  /** f(R, K): expand, add the key, substitute, permute. */
  function CipherFunction(r: Word, salt: Word, k: RoundKey): Word {
    seq(32, o requires 0 <= o < 32 => PermutedBit(r, salt, k, o))
  }

  predicate PermutedBit(r: Word, salt: Word, k: RoundKey, o: nat)
    requires o < 32
  {
    var n := PboxEntry(o) - 1;
    IndexBit(BoxOutput(n / 4, BoxInput(r, salt, k, n / 4)), 4, n % 4)
  }

  // ----- the key schedule

  /** How far the key halves have been rotated after n rounds. */
  function Rotation(n: nat): nat { if n == 0 then 0 else Rotation(n - 1) + KeyShift(n - 1) }

  lemma RotationStep(n: nat)
    ensures Rotation(n) == if n == 0 then 0 else Rotation(n - 1) + KeyShift(n - 1)
  {
  }

  lemma {:induction false} RotationBound(n: nat)
    requires n <= 16
    ensures Rotation(n) == 2 * n - (if n >= 16 then 4 else if n >= 9 then 3 else if n >= 2 then 2 else n)
  {
    if n != 0 {
      RotationBound(n - 1);
    }
  }

  lemma RotationLimit(n: nat)
    requires n <= 16
    ensures Rotation(n) <= 28
  {
    RotationBound(n);
  }

  /** Bit m of the permuted key after n rounds, its two 28-bit halves each rotated left. */
  predicate RotatedBit(key: Block, n: nat, m: nat)
    requires m < 56
  {
    KeyTables();
    var from := if m < 28 then (m + Rotation(n)) % 28 else 28 + (m - 28 + Rotation(n)) % 28;
    assert KeyPerm()[from] == KeyEntry(from);
    key.Bit(KeyEntry(from) - 1)
  }

  /** Bit o of the key for round n. */
  predicate ScheduleBit(key: Block, n: nat, o: nat)
    requires o < 48
  {
    KeyTables();
    assert CompPerm()[o] == CompEntry(o);
    RotatedBit(key, n + 1, CompEntry(o) - 1)
  }

  function Subkey(key: Block, n: nat): RoundKey {
    RoundKey(seq(32, i requires 0 <= i < 32 => 8 <= i && ScheduleBit(key, n, i - 8)),
             seq(32, i requires 0 <= i < 32 => 8 <= i && ScheduleBit(key, n, i - 8 + 24)))
  }

  /** The salt with its low 24 bits reversed into the positions they swap. */
  function SaltBits(salt: Word): Word { seq(32, i requires 0 <= i < 32 => 8 <= i && salt[39 - i]) }

  // ----- enciphering and deciphering

  function Round(b: Block, salt: Word, k: RoundKey): Block {
    Block(b.r, Xor(CipherFunction(b.r, salt, k), b.l))
  }

  /** The key used in round n: deciphering takes the schedule backwards. */
  function KeyFor(key: Block, backwards: bool, n: nat): RoundKey
    requires n < 16
  {
    Subkey(key, if backwards then 15 - n else n)
  }

  function Rounds(b: Block, key: Block, salt: Word, backwards: bool, n: nat): Block
    requires n <= 16
  {
    if n == 0 then b else Round(Rounds(b, key, salt, backwards, n - 1), SaltBits(salt), KeyFor(key, backwards, n - 1))
  }

  /** Sixteen rounds and the exchange of the halves, repeated. */
  function Repeated(b: Block, key: Block, salt: Word, backwards: bool, times: nat): Block {
    if times == 0 then b else Rounds(Repeated(b, key, salt, backwards, times - 1), key, salt, backwards, 16).Swap()
  }

  /** The whole cipher: a positive count enciphers that many times over, a negative one deciphers. */
  function Cipher(b: Block, key: Block, salt: Word, count: int): Block {
    FinalPermuted(Repeated(InitialPermuted(b), key, salt, count < 0, if count < 0 then -count else count))
  }

  /** Going backwards from the exchanged end of sixteen rounds passes the same states, exchanged. */
  lemma {:induction false} RoundsUndone(b: Block, key: Block, salt: Word, backwards: bool, n: nat)
    requires n <= 16
    ensures Rounds(Rounds(b, key, salt, backwards, 16).Swap(), key, salt, !backwards, n)
         == Rounds(b, key, salt, backwards, 16 - n).Swap()
  {
    if n != 0 {
      RoundsUndone(b, key, salt, backwards, n - 1);
      var before := Rounds(b, key, salt, backwards, 16 - n);
      var k := KeyFor(key, backwards, 16 - n);
      assert KeyFor(key, !backwards, n - 1) == k;
      assert Rounds(b, key, salt, backwards, 16 - n + 1) == Round(before, SaltBits(salt), k);
      RoundUndone(before, SaltBits(salt), k);
    }
  }

  lemma RoundUndone(b: Block, salt: Word, k: RoundKey)
    ensures Round(Round(b, salt, k).Swap(), salt, k) == b.Swap()
  {
    XorTwice(b.l, CipherFunction(b.r, salt, k));
    assert Xor(CipherFunction(b.r, salt, k), Xor(CipherFunction(b.r, salt, k), b.l)) == b.l;
  }

  lemma SixteenUndone(b: Block, key: Block, salt: Word, backwards: bool)
    ensures Rounds(Rounds(b, key, salt, backwards, 16).Swap(), key, salt, !backwards, 16).Swap() == b
  {
    RoundsUndone(b, key, salt, backwards, 16);
    assert Rounds(b, key, salt, backwards, 0) == b;
  }

  /** One more repetition may as well come first. */
  lemma {:induction false} RepeatedFirst(b: Block, key: Block, salt: Word, backwards: bool, times: nat)
    ensures Repeated(b, key, salt, backwards, times + 1)
         == Repeated(Rounds(b, key, salt, backwards, 16).Swap(), key, salt, backwards, times)
    decreases times
  {
    hide Rounds;
    if times != 0 {
      RepeatedFirst(b, key, salt, backwards, times - 1);
    }
  }

  lemma {:induction false} RepeatedUndone(b: Block, key: Block, salt: Word, backwards: bool, times: nat)
    ensures Repeated(Repeated(b, key, salt, backwards, times), key, salt, !backwards, times) == b
    decreases times
  {
    hide Rounds;
    if times != 0 {
      var before := Repeated(b, key, salt, backwards, times - 1);
      RepeatedFirst(Rounds(before, key, salt, backwards, 16).Swap(), key, salt, !backwards, times - 1);
      SixteenUndone(before, key, salt, backwards);
      RepeatedUndone(b, key, salt, backwards, times - 1);
    }
  }

  /** Deciphering with the same key, salt and count undoes enciphering, and the other way round, on every block. */
  lemma CipherUndone(b: Block, key: Block, salt: Word, count: int)
    ensures Cipher(Cipher(b, key, salt, count), key, salt, -count) == b
  {
    var times := if count < 0 then -count else count;
    var p := InitialPermuted(b);
    PermutationsInverse(b);
    PermutationsInverse(Repeated(p, key, salt, count < 0, times));
    if count != 0 {
      RepeatedUndone(p, key, salt, count < 0, times);
    }
  }
}

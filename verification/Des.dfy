/** The cipher's tables, caches and operations, as the program keeps them. */
module Des {
  import opened DesBits
  import opened DesTables
  import opened DesStandard
  import opened DesRefinement

  function NoKey(): Block { Block(Zero(), Zero()) }

  /** The table builder's loops over both S-box indices. */
  method BuildPairBox(b: nat) returns (m: seq<nat>)
    requires b < 4
    ensures m == PairBox(b)
  {
    hide PairBox, Box, Reordered;
    m := [];
    var i := 0;
    while i < 64
      invariant 0 <= i <= 64 && m == PairBox(b)[..64 * i]
    {
      var j := 0;
      while j < 64
        invariant 0 <= j <= 64 && m == PairBox(b)[..64 * i + j]
      {
        PairBoxEntry(b, i, j);
        m := m + [16 * Box(2 * b, Reordered(i)) + Box(2 * b + 1, Reordered(j))];
        j := j + 1;
      }
      i := i + 1;
    }
  }

  lemma PairBoxEntry(b: nat, i: nat, j: nat)
    requires b < 4 && i < 64 && j < 64
    ensures PairBox(b)[64 * i + j] == 16 * Box(2 * b, Reordered(i)) + Box(2 * b + 1, Reordered(j))
  {
    hide Box, Reordered;
    assert (64 * i + j) / 64 == i && (64 * i + j) % 64 == j;
  }

  /** The loops that invert the five permutations. */
  method BuildPerms()
    returns (initPerm: seq<int>, finalPerm: seq<int>, invKeyPerm: seq<int>, invCompPerm: seq<int>, unPbox: seq<int>)
    ensures initPerm == InitPerm() && finalPerm == FinalPerm() && invKeyPerm == InvKeyPerm()
    ensures invCompPerm == InvCompPerm() && unPbox == UnPbox()
  {
    hide Inverted, IpEntry, KeyEntry, CompEntry, PboxEntry;
    DataTables();
    KeyTables();
    initPerm := Invert(Ip(), 64);
    finalPerm := [];
    var i := 0;
    while i < 64
      invariant 0 <= i <= 64 && finalPerm == FinalPerm()[..i]
    {
      finalPerm := finalPerm + [IpEntry(i) - 1];
      i := i + 1;
    }
    invKeyPerm := Invert(KeyPerm(), 64);
    invCompPerm := Invert(CompPerm(), 56);
    unPbox := Invert(Pbox(), 32);
  }

  lemma NoScheduleBit(n: nat, o: nat)
    requires o < 48
    ensures !ScheduleBit(NoKey(), n, o)
  {
    hide KeyEntry, CompEntry, Rotation;
    KeyTables();
    assert CompPerm()[o] == CompEntry(o);
    var m := CompEntry(o) - 1;
    var from := if m < 28 then (m + Rotation(n + 1)) % 28 else 28 + (m - 28 + Rotation(n + 1)) % 28;
    assert KeyPerm()[from] == KeyEntry(from);
  }

  /** Nothing is set in the schedule of an all-zero key. */
  lemma NoSchedule(n: nat)
    ensures Subkey(NoKey(), n) == RoundKey(Zero(), Zero())
  {
    hide ScheduleBit;
    forall o: nat | o < 48
      ensures !ScheduleBit(NoKey(), n, o)
    {
      NoScheduleBit(n, o);
    }
  }

  lemma NoSchedules()
    ensures forall n :: 0 <= n < 16 ==> Subkey(NoKey(), n) == RoundKey(Zero(), Zero())
  {
    forall n | 0 <= n < 16
      ensures Subkey(NoKey(), n) == RoundKey(Zero(), Zero())
    {
      NoSchedule(n);
    }
  }

  lemma NoSalt()
    ensures SaltBits(Zero()) == Zero()
  {
  }

  /** The salt bits the first i turns of the loop set. */
  function SaltBitsUpTo(salt: Word, i: nat): Word {
    seq(32, o requires 0 <= o < 32 => 8 <= o < 8 + i && salt[39 - o])
  }

  lemma SaltBitsStep(salt: Word, i: nat)
    requires i < 24
    ensures SaltBitsUpTo(salt, 0) == Zero()
    ensures SaltBitsUpTo(salt, i + 1)
      == if salt[31 - i] then Or(SaltBitsUpTo(salt, i), Bit32(8 + i)) else SaltBitsUpTo(salt, i)
  {
  }

  lemma SaltBitsAll(salt: Word)
    ensures SaltBitsUpTo(salt, 24) == SaltBits(salt)
  {
  }

  /** Everything the start-up code compiles. */
  datatype Tables = Tables(
    mSbox: seq<seq<nat>>, psbox: seq<seq<Word>>,
    ipMaskL: seq<seq<Word>>, ipMaskR: seq<seq<Word>>, fpMaskL: seq<seq<Word>>, fpMaskR: seq<seq<Word>>,
    keyPermMaskL: seq<seq<Word>>, keyPermMaskR: seq<seq<Word>>, compMaskL: seq<seq<Word>>, compMaskR: seq<seq<Word>>)

  function Compiled(): Tables {
    assert Covers(InitPerm(), 8, 8, 8) && Covers(FinalPerm(), 8, 8, 8) && Covers(InvKeyPerm(), 8, 8, 7);
    assert Covers(InvCompPerm(), 8, 7, 7) && Covers(UnPbox(), 4, 8, 8);
    Tables([PairBox(0), PairBox(1), PairBox(2), PairBox(3)], Masks(UnPbox(), 4, 8, 8, LEFT32),
           Masks(InitPerm(), 8, 8, 8, LEFT32), Masks(InitPerm(), 8, 8, 8, RIGHT32),
           Masks(FinalPerm(), 8, 8, 8, LEFT32), Masks(FinalPerm(), 8, 8, 8, RIGHT32),
           Masks(InvKeyPerm(), 8, 8, 7, LEFT28), Masks(InvKeyPerm(), 8, 8, 7, RIGHT28),
           Masks(InvCompPerm(), 8, 7, 7, LEFT24), Masks(InvCompPerm(), 8, 7, 7, RIGHT24))
  }

  lemma BlockTablesReady(b: Block)
    ensures var t := Compiled();
      && Fits(t.ipMaskL, ByteGroups(b)) && Fits(t.ipMaskR, ByteGroups(b))
      && Fits(t.fpMaskL, ByteGroups(b)) && Fits(t.fpMaskR, ByteGroups(b))
      && Block(Gather(t.ipMaskL, ByteGroups(b)), Gather(t.ipMaskR, ByteGroups(b))) == InitialPermuted(b)
      && Block(Gather(t.fpMaskL, ByteGroups(b)), Gather(t.fpMaskR, ByteGroups(b))) == FinalPermuted(b)
  {
    hide Masks, InitPerm, FinalPerm, InitialPermuted, FinalPermuted, Gather, ByteGroups, Groups, Fits;
    TableFits(InitPerm(), ByteGroups(b), 8, 8, LEFT32);
    TableFits(InitPerm(), ByteGroups(b), 8, 8, RIGHT32);
    TableFits(FinalPerm(), ByteGroups(b), 8, 8, LEFT32);
    TableFits(FinalPerm(), ByteGroups(b), 8, 8, RIGHT32);
    InitialTables(b);
    FinalTables(b);
  }

  lemma KeyTablesReady(key: Block)
    ensures var t := Compiled();
      && Fits(t.keyPermMaskL, KeyGroups(key)) && Fits(t.keyPermMaskR, KeyGroups(key))
      && Gather(t.keyPermMaskL, KeyGroups(key)) == KeyHalf(key, LEFT28)
      && Gather(t.keyPermMaskR, KeyGroups(key)) == KeyHalf(key, RIGHT28)
  {
    hide Masks, InvKeyPerm, Gather, KeyGroups, Groups, Fits;
    TableFits(InvKeyPerm(), KeyGroups(key), 8, 7, LEFT28);
    TableFits(InvKeyPerm(), KeyGroups(key), 8, 7, RIGHT28);
  }

  lemma CompTablesReady(key: Block, round: nat, t: Block)
    requires round < 16 && t == Halves(key, round)
    ensures var c := Compiled();
      && Fits(c.compMaskL, CompGroups(t)) && Fits(c.compMaskR, CompGroups(t))
      && RoundKey(Gather(c.compMaskL, CompGroups(t)), Gather(c.compMaskR, CompGroups(t))) == Subkey(key, round)
  {
    hide Masks, InvCompPerm, Gather, CompGroups, Groups, Fits, Halves, Subkey;
    TableFits(InvCompPerm(), CompGroups(t), 7, 7, LEFT24);
    TableFits(InvCompPerm(), CompGroups(t), 7, 7, RIGHT24);
    ScheduleTables(key, round);
  }

  /** The S-box tables answer for every twelve bits, the P-box tables for every byte. */
  ghost predicate RoundFits(t: Tables) {
    && |t.mSbox| == 4 && |t.psbox| == 4
    && forall b :: 0 <= b < 4 ==> DoubleFits(t.mSbox[b], t.psbox[b])
  }

  ghost predicate DoubleFits(m: seq<nat>, p: seq<Word>) {
    |m| == 4096 && |p| == 256 && forall i :: 0 <= i < 4096 ==> m[i] < 256
  }

  function LookupTwice(m: seq<nat>, p: seq<Word>, bits: seq<bool>): Word
    requires DoubleFits(m, p) && |bits| == 12
  {
    ValueBound(bits);
    PowersOfTwo();
    p[m[Value(bits)]]
  }

  /** The body of the round loop: expansion, salt, key, S-boxes and P-box. */
  function RoundFunction(t: Tables, r: Word, salt: Word, k: RoundKey): Word
    requires RoundFits(t)
  {
    var x := Keyed(r, salt, k);
    Or(Or(Or(LookupTwice(t.mSbox[0], t.psbox[0], Index(x, 0)), LookupTwice(t.mSbox[1], t.psbox[1], Index(x, 1))),
          LookupTwice(t.mSbox[2], t.psbox[2], Index(x, 2))), LookupTwice(t.mSbox[3], t.psbox[3], Index(x, 3)))
  }

  lemma DoubleReady(b: nat, bits: seq<bool>)
    requires b < 4 && |bits| == 12
    ensures |Compiled().mSbox| == 4 && |Compiled().psbox| == 4
    ensures DoubleFits(Compiled().mSbox[b], Compiled().psbox[b])
    ensures LookupTwice(Compiled().mSbox[b], Compiled().psbox[b], bits) == Substituted(b, bits)
  {
    hide InitPerm, FinalPerm, InvKeyPerm, InvCompPerm, UnPbox, OrMask, Value, Pow2, Reordered, Box;
    PowersOfTwo();
  }

  /** With the compiled tables, the loop body is the standard's cipher function. */
  lemma RoundReady(r: Word, salt: Word, k: RoundKey)
    ensures RoundFits(Compiled())
    ensures RoundFunction(Compiled(), r, salt, k) == CipherFunction(r, salt, k)
  {
    hide Compiled, Substituted, LookupTwice, Keyed, Index, DoubleFits, CipherFunction;
    var x := Keyed(r, salt, k);
    DoubleReady(0, Index(x, 0));
    DoubleReady(1, Index(x, 1));
    DoubleReady(2, Index(x, 2));
    DoubleReady(3, Index(x, 3));
    RoundTables(r, salt, k);
  }

  /** The four indices, as the shifts and masks of the two keyed words that the source writes. */
  lemma IndicesAsWritten(r: Word, salt: Word, k: RoundKey)
    requires k.Aligned() && forall i :: 0 <= i < 8 ==> !salt[i]
    ensures var x := Keyed(r, salt, k);
      && Value(Index(x, 0)) == Value(Shr(x.l, 12)) && Value(Index(x, 1)) == Value(And(x.l, Ones(20, 32)))
      && Value(Index(x, 2)) == Value(Shr(x.r, 12)) && Value(Index(x, 3)) == Value(And(x.r, Ones(20, 32)))
  {
    hide Keyed, Value;
    KeyedAligned(r, salt, k);
    var x := Keyed(r, salt, k);
    TopFieldIsShift(x.l, 12, 12);
    TopFieldIsShift(x.r, 12, 12);
    FieldIsShift(x.l, 0, 12);
    FieldIsShift(x.r, 0, 12);
    assert Shr(x.l, 0) == x.l && Shr(x.r, 0) == x.r;
  }

  method BuildTables() returns (t: Tables)
    ensures t == Compiled()
  {
    hide PairBox, Masks, InitPerm, FinalPerm, InvKeyPerm, InvCompPerm, UnPbox;
    var initPerm, finalPerm, invKeyPerm, invCompPerm, unPbox := BuildPerms();
    var m0 := BuildPairBox(0);
    var m1 := BuildPairBox(1);
    var m2 := BuildPairBox(2);
    var m3 := BuildPairBox(3);
    var il := BuildMasks(initPerm, 8, 8, 8, LEFT32);
    var ir := BuildMasks(initPerm, 8, 8, 8, RIGHT32);
    var fl := BuildMasks(finalPerm, 8, 8, 8, LEFT32);
    var fr := BuildMasks(finalPerm, 8, 8, 8, RIGHT32);
    var kl := BuildMasks(invKeyPerm, 8, 8, 7, LEFT28);
    var kr := BuildMasks(invKeyPerm, 8, 8, 7, RIGHT28);
    var cl := BuildMasks(invCompPerm, 8, 7, 7, LEFT24);
    var cr := BuildMasks(invCompPerm, 8, 7, 7, RIGHT24);
    var p := BuildMasks(unPbox, 4, 8, 8, LEFT32);
    t := Tables([m0, m1, m2, m3], p, il, ir, fl, fr, kl, kr, cl, cr);
  }

  /** The key set-up loop: rotates the halves of the permuted key and compresses them, round by round. */
  method BuildSchedule(tables: Tables, key: Block) returns (enKeys: seq<RoundKey>, deKeys: seq<RoundKey>)
    requires tables == Compiled()
    ensures |enKeys| == 16 && |deKeys| == 16
    ensures forall n :: 0 <= n < 16 ==> enKeys[n] == Subkey(key, n)
    ensures forall n :: 0 <= n < 16 ==> deKeys[n] == Subkey(key, 15 - n)
  {
    hide Compiled, Subkey, KeyHalf, Rotated, Gather, KeyGroups, CompGroups, Groups, Fits, Rotation, KeyShift;
    RotationStep(0);
    KeyTablesReady(key);
    var k0 := Gather(tables.keyPermMaskL, KeyGroups(key));
    var k1 := Gather(tables.keyPermMaskR, KeyGroups(key));
    enKeys := seq(16, i => RoundKey(Zero(), Zero()));
    deKeys := seq(16, i => RoundKey(Zero(), Zero()));
    var shifts, round := 0, 0;
    while round < 16
      invariant 0 <= round <= 16 && shifts == Rotation(round)
      invariant |enKeys| == 16 && |deKeys| == 16
      invariant forall n :: 0 <= n < round ==> enKeys[n] == Subkey(key, n)
      invariant forall n :: 16 - round <= n < 16 ==> deKeys[n] == Subkey(key, 15 - n)
    {
      shifts := shifts + KeyShift(round);
      RotationStep(round + 1);
      RotationLimit(round + 1);
      var t := Block(Rotated(k0, shifts), Rotated(k1, shifts));
      CompTablesReady(key, round, t);
      var k := RoundKey(Gather(tables.compMaskL, CompGroups(t)), Gather(tables.compMaskR, CompGroups(t)));
      deKeys, enKeys := deKeys[15 - round := k], enKeys[round := k];
      round := round + 1;
    }
  }

  /** The round loop, and the exchange of the halves after it. */
  method SixteenRounds(tables: Tables, l0: Word, r0: Word, saltbits: Word, keys: seq<RoundKey>,
                       ghost key: Block, ghost salt: Word, ghost backwards: bool)
    returns (l: Word, r: Word)
    requires tables == Compiled() && saltbits == SaltBits(salt) && |keys| == 16
    requires forall n :: 0 <= n < 16 ==> keys[n] == KeyFor(key, backwards, n)
    ensures Block(l, r) == Rounds(Block(l0, r0), key, salt, backwards, 16).Swap()
  {
    hide Compiled, SaltBits, CipherFunction, KeyFor;
    l, r := l0, r0;
    var f := Zero();
    var round := 0;
    while round < 16
      invariant 0 <= round <= 16 && (round != 0 ==> f == r)
      invariant Block(l, r) == Rounds(Block(l0, r0), key, salt, backwards, round)
    {
      RoundReady(r, saltbits, keys[round]);
      f := RoundFunction(tables, r, saltbits, keys[round]);
      f := Xor(f, l);
      l := r;
      r := f;
      round := round + 1;
    }
    r := l;
    l := f;
  }

  class Cipherer {
    var initialised: bool
    var tables: Tables
    var saltbits: Word
    var oldSalt: Word
    var oldKey: Block
    var enKeys: seq<RoundKey>
    var deKeys: seq<RoundKey>

    /** Whatever calls came before: the cached keys are the schedule of the last key, the salt bits those of the last salt. */
    ghost predicate Valid()
      reads this
    {
      && |enKeys| == 16 && |deKeys| == 16
      && (forall n :: 0 <= n < 16 ==> enKeys[n] == Subkey(oldKey, n))
      && (forall n :: 0 <= n < 16 ==> deKeys[n] == Subkey(oldKey, 15 - n))
      && saltbits == SaltBits(oldSalt)
      && (initialised ==> tables == Compiled())
      && (!initialised ==> oldKey == NoKey() && oldSalt == Zero())
    }

    constructor ()
      ensures Valid() && !initialised
    {
      hide Compiled, Subkey;
      initialised := false;
      tables := Tables([], [], [], [], [], [], [], [], [], []);
      saltbits, oldSalt, oldKey := Zero(), Zero(), NoKey();
      enKeys := seq(16, i => RoundKey(Zero(), Zero()));
      deKeys := seq(16, i => RoundKey(Zero(), Zero()));
      NoSalt();
      NoSchedules();
    }

    /** Compiles the tables. */
    method DesInit()
      requires Valid() && !initialised
      modifies this
      ensures Valid() && initialised && oldKey == old(oldKey) && oldSalt == old(oldSalt)
    {
      hide Compiled, Subkey;
      oldKey, saltbits, oldSalt := NoKey(), Zero(), Zero();
      NoSalt();
      tables := BuildTables();
      initialised := true;
    }

    /** Expands the salt, unless it is the one already set up. */
    method SetupSalt(salt: Word)
      requires Valid() && initialised
      modifies this
      ensures Valid() && initialised && oldSalt == salt && oldKey == old(oldKey)
    {
      hide Compiled, Subkey;
      if salt == oldSalt {
        return;
      }
      oldSalt := salt;
      saltbits := Zero();
      var i := 0;
      while i < 24
        invariant 0 <= i <= 24 && saltbits == SaltBitsUpTo(salt, i)
        invariant |enKeys| == 16 && |deKeys| == 16 && initialised && tables == Compiled()
        invariant oldSalt == salt && oldKey == old(oldKey) && enKeys == old(enKeys) && deKeys == old(deKeys)
      {
        if salt[31 - i] {
          saltbits := Or(saltbits, Bit32(8 + i));
        }
        SaltBitsStep(salt, i);
        i := i + 1;
      }
      SaltBitsAll(salt);
    }

    /** Sets up the schedule of a key, unless it is the one already there; a zero key is always set up anew. */
    method DesSetkey(key: Block)
      requires Valid()
      modifies this
      ensures Valid() && initialised && oldKey == key && oldSalt == old(oldSalt)
    {
      hide Compiled, Subkey;
      if !initialised {
        DesInit();
      }
      if key != NoKey() && key == oldKey {
        return;
      }
      var en, de := BuildSchedule(tables, key);
      oldKey, enKeys, deKeys := key, en, de;
    }

    /** Enciphers count times over, or deciphers for a negative count; a count of zero is refused. */
    method DoDes(input: Block, count: int) returns (rc: int, output: Block)
      requires Valid() && initialised
      ensures count == 0 ==> rc == 1
      ensures count != 0 ==> rc == 0 && output == Cipher(input, oldKey, oldSalt, count)
    {
      hide Compiled, Subkey, InitialPermuted, FinalPermuted, SaltBits, Rounds, Gather, ByteGroups;
      output := input;
      if count == 0 {
        return 1, output;
      }
      var keys, times := if count > 0 then enKeys else deKeys, if count > 0 then count else -count;
      ghost var backwards := count < 0;
      BlockTablesReady(input);
      var l := Gather(tables.ipMaskL, ByteGroups(input));
      var r := Gather(tables.ipMaskR, ByteGroups(input));
      ghost var start := Block(l, r);
      var left := times;
      while left != 0
        invariant 0 <= left <= times
        invariant Block(l, r) == Repeated(start, oldKey, oldSalt, backwards, times - left)
      {
        l, r := SixteenRounds(tables, l, r, saltbits, keys, oldKey, oldSalt, backwards);
        left := left - 1;
      }
      BlockTablesReady(Block(l, r));
      output := Block(Gather(tables.fpMaskL, ByteGroups(Block(l, r))), Gather(tables.fpMaskR, ByteGroups(Block(l, r))));
      rc := 0;
    }

    /** One block under the current key, with a salt of its own. */
    method DesCipher(input: Block, salt: Word, count: int) returns (rc: int, output: Block)
      requires Valid()
      modifies this
      ensures Valid() && initialised && oldKey == old(oldKey) && oldSalt == salt
      ensures count == 0 ==> rc == 1
      ensures count != 0 ==> rc == 0 && output == Cipher(input, oldKey, salt, count)
    {
      hide Cipher;
      if !initialised {
        DesInit();
      }
      SetupSalt(salt);
      rc, output := DoDes(input, count);
    }
  }
}

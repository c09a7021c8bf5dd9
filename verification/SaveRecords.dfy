/** What the save file says about a level: records, and the typed writes each of them becomes. */
module SaveRecords {
  import opened SaveCipher
  import opened SaveStream

  /** The markers, as the ints they are stored in. */
  const MARK_STATS: Int32 := 0xABCD_0001 - 0x1_0000_0000
  const MARK_THING: Int32 := 0xABCD_0002 - 0x1_0000_0000
  const MARK_OBJECT: Int32 := 0xABCD_0003 - 0x1_0000_0000
  const MARK_OBJECTLIST: Int32 := 0xABCD_0007 - 0x1_0000_0000
  const MARK_MONSTERLIST: Int32 := 0xABCD_0009 - 0x1_0000_0000

  datatype Position = Position(x: Int32, y: Int32)

  type Chars8 = s: seq<Byte> | |s| == 8 witness [0, 0, 0, 0, 0, 0, 0, 0]
  type Chars13 = s: seq<Byte> | |s| == 13 witness [0, 0, 0, 0, 0, 0, 0, 0, 0, 0, 0, 0, 0]

  /** The saved part of an object: everything but its text. */
  datatype ObjectData = ObjectData(
    kind: Int32, pos: Position, launch: Int32, packch: Byte, damage: Chars8, hurldmg: Chars8,
    count: Int32, which: Int32, hplus: Int32, dplus: Int32, arm: Int32, flags: Int32, group: Int32, name: Text)

  datatype Stats = Stats(
    str: UInt32, exp: Int32, lvl: Int32, arm: Int32, hpt: Int32, dmg: Chars13, maxhp: Int32)

  /** The fields of a creature that hold no pointers. */
  datatype Body = Body(
    pos: Position, turn: bool, kind: Byte, disguise: Byte, oldch: Byte, flags: Int16, stats: Stats)

  /** A creature in the file: pointers have become numbers. */
  datatype CreatureRec = CreatureRec(
    body: Body, destList: Int32, destIndex: Int32, room: Int32, pack: seq<ObjectData>)

  datatype PlaceRec = PlaceRec(ch: Byte, flags: Byte, monst: Int32)

  datatype LevelRec = LevelRec(
    player: CreatureRec, carried: seq<Int32>, objs: seq<ObjectData>, mons: seq<CreatureRec>, places: seq<PlaceRec>)

  function PosCells(p: Position): (cs: seq<Cell>)
    ensures |cs| == 2
  {
    [IntCell(p.x), IntCell(p.y)]
  }

  function StatsCells(s: Stats): (cs: seq<Cell>)
    ensures |cs| == 8
  {
    [IntCell(MARK_STATS), UIntCell(s.str), IntCell(s.exp), IntCell(s.lvl), IntCell(s.arm), IntCell(s.hpt), CharsCell(s.dmg),
     IntCell(s.maxhp)]
  }

  function ObjectCells(d: ObjectData): (cs: seq<Cell>)
    ensures |cs| == 16
  {
    [IntCell(MARK_OBJECT), IntCell(d.kind), IntCell(d.pos.x), IntCell(d.pos.y), IntCell(d.launch), CharCell(d.packch),
     CharsCell(d.damage), CharsCell(d.hurldmg), IntCell(d.count), IntCell(d.which), IntCell(d.hplus), IntCell(d.dplus),
     IntCell(d.arm), IntCell(d.flags), IntCell(d.group), StringCell(d.name)]
  }

  function ObjectsCells(ds: seq<ObjectData>): seq<Cell> {
    if ds == [] then [] else ObjectCells(ds[0]) + ObjectsCells(ds[1..])
  }

  lemma {:induction false} ObjectsCellsMore(ds: seq<ObjectData>, d: ObjectData)
    ensures ObjectsCells(ds + [d]) == ObjectsCells(ds) + ObjectCells(d)
  {
    hide ObjectCells;
    if ds == [] {
      assert ObjectsCells([d]) == ObjectCells(d) + ObjectsCells([]);
    } else {
      assert (ds + [d])[1..] == ds[1..] + [d];
      ObjectsCellsMore(ds[1..], d);
    }
  }

  function ObjectListCells(ds: seq<ObjectData>): seq<Cell>
    requires |ds| < 0x8000_0000
  {
    [IntCell(MARK_OBJECTLIST), IntCell(|ds|)] + ObjectsCells(ds)
  }

  function LooksCells(b: Body): (cs: seq<Cell>)
    ensures |cs| == 6
  {
    [IntCell(b.pos.x), IntCell(b.pos.y), BoolCell(b.turn), CharCell(b.kind), CharCell(b.disguise), CharCell(b.oldch)]
  }

  /** Everything about a creature before its pack. */
  function HeadCells(r: CreatureRec): (cs: seq<Cell>)
    ensures |cs| == 20
  {
    [IntCell(MARK_THING), IntCell(1)] + LooksCells(r.body) + [IntCell(r.destList), IntCell(r.destIndex)]
    + [ShortCell(r.body.flags)] + StatsCells(r.body.stats) + [IntCell(r.room)]
  }

  function CreatureCells(r: CreatureRec): seq<Cell>
    requires |r.pack| < 0x8000_0000
  {
    HeadCells(r) + ObjectListCells(r.pack)
  }

  predicate SmallPacks(rs: seq<CreatureRec>) { forall i :: 0 <= i < |rs| ==> |rs[i].pack| < 0x8000_0000 }

  function CreaturesCells(rs: seq<CreatureRec>): seq<Cell>
    requires SmallPacks(rs)
  {
    if rs == [] then [] else CreatureCells(rs[0]) + CreaturesCells(rs[1..])
  }

  lemma {:induction false} CreaturesCellsMore(rs: seq<CreatureRec>, r: CreatureRec)
    requires SmallPacks(rs) && |r.pack| < 0x8000_0000
    ensures SmallPacks(rs + [r]) && CreaturesCells(rs + [r]) == CreaturesCells(rs) + CreatureCells(r)
  {
    hide CreatureCells;
    if rs == [] {
      assert CreaturesCells([r]) == CreatureCells(r) + CreaturesCells([]);
    } else {
      assert (rs + [r])[1..] == rs[1..] + [r];
      CreaturesCellsMore(rs[1..], r);
    }
  }

  function CreatureListCells(rs: seq<CreatureRec>): seq<Cell>
    requires SmallPacks(rs) && |rs| < 0x8000_0000
  {
    [IntCell(MARK_MONSTERLIST), IntCell(|rs|)] + CreaturesCells(rs)
  }

  function PlaceCells(p: PlaceRec): (cs: seq<Cell>)
    ensures |cs| == 3
  {
    [CharCell(p.ch), CharCell(p.flags), IntCell(p.monst)]
  }

  function PlacesCells(ps: seq<PlaceRec>): seq<Cell> {
    if ps == [] then [] else PlaceCells(ps[0]) + PlacesCells(ps[1..])
  }

  lemma {:induction false} PlacesCellsMore(ps: seq<PlaceRec>, p: PlaceRec)
    ensures PlacesCells(ps + [p]) == PlacesCells(ps) + PlaceCells(p)
  {
    if ps == [] {
      assert PlacesCells([p]) == PlaceCells(p) + PlacesCells([]);
    } else {
      assert (ps + [p])[1..] == ps[1..] + [p];
      PlacesCellsMore(ps[1..], p);
    }
  }

  function RefCells(indices: seq<Int32>): (cs: seq<Cell>)
    ensures |cs| == |indices|
  {
    seq(|indices|, k requires 0 <= k < |indices| => IntCell(indices[k]))
  }

  ghost predicate Writable(l: LevelRec) {
    |l.player.pack| < 0x8000_0000 && |l.carried| == 6 && |l.objs| < 0x8000_0000 && |l.mons| < 0x8000_0000 && SmallPacks(l.mons)
  }

  /** The part of the save file that holds the level. */
  function LevelCells(l: LevelRec): seq<Cell>
    requires Writable(l)
  {
    CreatureCells(l.player) + RefCells(l.carried) + ObjectListCells(l.objs) + CreatureListCells(l.mons) + PlacesCells(l.places)
  }

  // ----- as it stands in the file

  /** The five markers, as they stand in every save file. */
  lemma MarkersInFile()
    ensures CellBytes(IntCell(MARK_STATS)) == [0x2C, 0xC0, 0xA4, 0x65]
    ensures CellBytes(IntCell(MARK_THING)) == [0x2F, 0xC0, 0xA4, 0x65]
    ensures CellBytes(IntCell(MARK_OBJECT)) == [0x2E, 0xC0, 0xA4, 0x65]
    ensures CellBytes(IntCell(MARK_OBJECTLIST)) == [0x2A, 0xC0, 0xA4, 0x65]
    ensures CellBytes(IntCell(MARK_MONSTERLIST)) == [0x24, 0xC0, 0xA4, 0x65]
  {
    hide Crypt, IntBytes;
    MarkerBytes(1);
    MarkerBytes(2);
    MarkerBytes(3);
    MarkerBytes(7);
    MarkerBytes(9);
    MarkerEncrypted(1);
    MarkerEncrypted(2);
    MarkerEncrypted(3);
    MarkerEncrypted(7);
    MarkerEncrypted(9);
    HexXors();
  }

  lemma HexXors()
    ensures HexXor(1, 13) == 12 && HexXor(2, 13) == 15 && HexXor(3, 13) == 14 && HexXor(7, 13) == 10 && HexXor(9, 13) == 4
  {
  }

  lemma MarkerBytes(k: nat)
    requires k < 16
    ensures IntBytes(0xABCD_0000 + k - 0x1_0000_0000) == [k, 0x00, 0xCD, 0xAB]
  {
    var v := 0xABCD_0000 + k;
    LeStep(v, 4);
    LeStep(0xABCD00, 3);
    LeStep(0xABCD, 2);
    LeStep(0xAB, 1);
    assert v / 256 == 0xABCD00 && v % 256 == k;
  }

  lemma LeStep(v: nat, n: nat)
    requires n != 0
    ensures Le(v, n) == [v % 256] + Le(v / 256, n - 1)
  {
  }

  lemma MarkerEncrypted(k: Byte)
    requires k < 16
    ensures Crypt([k, 0x00, 0xCD, 0xAB]) == [0x20 + HexXor(k, 13), 0xC0, 0xA4, 0x65]
  {
    hide Xor, Crypt, PadAfter, Pad.KeyByte, HexXor;
    var s: seq<Byte> := [k, 0x00, 0xCD, 0xAB];
    Stream4();
    CryptAt(s, 0);
    CryptAt(s, 1);
    CryptAt(s, 2);
    CryptAt(s, 3);
    XorDigits(0, k, 2, 13);
    XorDigits(0, 0, 12, 0);
    XorDigits(12, 13, 6, 9);
    XorDigits(10, 11, 12, 14);
    MaskedDigits();
  }

  lemma MaskedDigits()
    ensures HexXor(0, 2) == 2 && HexXor(0, 12) == 12 && HexXor(0, 0) == 0 && HexXor(12, 6) == 10 && HexXor(13, 9) == 4
    ensures HexXor(10, 12) == 6 && HexXor(11, 14) == 5
  {
  }

  /** A level's part of a file begins with the encrypted marker of a creature, the player. */
  lemma LevelBegins(l: LevelRec)
    requires Writable(l)
    ensures |Enc(LevelCells(l))| >= 4 && Enc(LevelCells(l))[..4] == [0x2F, 0xC0, 0xA4, 0x65]
  {
    hide CellBytes, ObjectListCells, RefCells, CreatureListCells, PlacesCells, LooksCells, StatsCells;
    var cs := LevelCells(l);
    assert cs[0] == HeadCells(l.player)[0] == IntCell(MARK_THING);
    MarkersInFile();
    assert Enc(cs) == CellBytes(cs[0]) + Enc(cs[1..]);
  }
}

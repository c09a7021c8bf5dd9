/** The whole trip: what a saved level looks like once it has been restored. */
module SaveRoundTrip {
  import opened SaveCipher
  import opened SaveStream
  import opened SaveRecords
  import opened SaveHeap
  import opened SaveWrite
  import opened SaveRead
  import opened SaveLevel

  /** The pointer points at nothing the save file can name. */
  ghost predicate Nowhere(d: Dest, mons: seq<Creature>, objs: seq<Item>) {
    match d
    case NoDest => false
    case ToHero => false
    case ToCreature(c) => c !in mons
    case ToItem(o) => o !in objs
    case ToGold(i) => !(0 <= i < MAXROOMS)
    case ToElsewhere => true
  }

  /** The copy of a chase target: the counterpart of whatever the original points at; the hero if nothing can be named. */
  ghost predicate DestCopied(d: Dest, e: Dest, mons: seq<Creature>, mons2: seq<Creature>, objs: seq<Item>, objs2: seq<Item>)
    requires |mons2| == |mons| && |objs2| == |objs|
  {
    && (d == NoDest ==> e == NoDest)
    && (d == ToHero ==> e == ToHero)
    && (forall i :: 0 <= i < |mons| && d == ToCreature(mons[i]) ==> e == ToCreature(mons2[i]))
    && (forall i :: 0 <= i < |objs| && d == ToItem(objs[i]) ==> e == ToItem(objs2[i]))
    && (d.ToGold? && 0 <= d.room < MAXROOMS ==> e == d)
    && (Nowhere(d, mons, objs) ==> e == ToHero)
  }

  /** A pointer into the rooms is kept; any other becomes a pointer to just before the first room. */
  predicate RoomCopied(r: RoomRef, s: RoomRef) {
    if r.InRooms? && 0 <= r.i < MAXROOMS then s == r else s == InRooms(-1)
  }

  ghost predicate PackCopied(xs: seq<Item>, ys: seq<Item>)
    reads xs, ys
  {
    |ys| == |xs| && forall i :: 0 <= i < |xs| ==> ys[i].data == xs[i].data && ys[i].text == NoText
  }

  /** Everything about a creature but its chase target. */
  ghost predicate CreatureCopied(a: Creature, b: Creature)
    reads a, b, a.items, b.items
  {
    b.body == a.body && RoomCopied(a.room, b.room) && ItemList(b.pack, b.items) && PackCopied(a.items, b.items)
  }

  /** Distinct nodes: a pointer's place in a list is the only one. */
  lemma DestIsCopied(d: Dest, mons: seq<Creature>, mons2: seq<Creature>, objs: seq<Item>, objs2: seq<Item>)
    requires |mons2| == |mons| && |objs2| == |objs| && SmallLists(mons, objs)
    requires forall i, j :: 0 <= i < j < |mons| ==> mons[i] != mons[j]
    requires forall i, j :: 0 <= i < j < |objs| ==> objs[i] != objs[j]
    ensures var code := DestCode(d, mons, objs);
      var r := CreatureRec(BLANK_BODY, code.0, code.1, 0, []);
      DestCopied(d, DestFinal(r, mons2, objs2, NoDest), mons, mons2, objs, objs2)
  {
    if d.ToCreature? {
      var k := CreatureIndex(mons, d.c);
      assert forall i :: 0 <= i < |mons| && mons[i] == d.c ==> i == k;
    } else if d.ToItem? {
      var k := ItemIndex(objs, d.o);
      assert forall i :: 0 <= i < |objs| && objs[i] == d.o ==> i == k;
    }
  }

  /** The player is read before the objects on the floor: only a pointer to one of those is lost. */
  lemma PlayerDestIsCopied(d: Dest, mons: seq<Creature>, mons2: seq<Creature>, objs: seq<Item>, objs2: seq<Item>)
    requires |mons2| == |mons| && |objs2| == |objs| && SmallLists(mons, objs)
    requires forall i, j :: 0 <= i < j < |mons| ==> mons[i] != mons[j]
    requires forall i, j :: 0 <= i < j < |objs| ==> objs[i] != objs[j]
    ensures var code := DestCode(d, mons, objs);
      var r := CreatureRec(BLANK_BODY, code.0, code.1, 0, []);
      var e := DestFinal(r, mons2, [], NoDest);
      if d.ToItem? && d.o in objs then e == NoDest && !DestCopied(d, e, mons, mons2, objs, objs2)
      else DestCopied(d, e, mons, mons2, objs, objs2)
  {
    DestIsCopied(d, mons, mons2, objs, objs2);
    if d.ToItem? && d.o in objs {
      var k := ItemIndex(objs, d.o);
      assert objs[k] == d.o;
    }
  }

  lemma CreatureIsCopied(a: Creature, b: Creature, mons: seq<Creature>, mons2: seq<Creature>, objs: seq<Item>,
                         objs2: seq<Item>, before: Dest)
    requires SmallLists(mons, objs) && Restored(b, Rec(a, mons, objs), mons2, objs2, before)
    ensures CreatureCopied(a, b)
  {
    hide ItemList, DestFinal, DestCode;
    forall i | 0 <= i < |a.items|
      ensures b.items[i].data == a.items[i].data && b.items[i].text == NoText
    {
      DataAt(a.items, i);
    }
  }

  /** The places of the map, each with its monster's counterpart. */
  ghost predicate PlaceCopied(p: Place, q: Place, mons: seq<Creature>, mons2: seq<Creature>)
    requires |mons2| == |mons|
  {
    && q.ch == p.ch && q.flags == p.flags
    && (forall i :: 0 <= i < |mons| && p.monst == mons[i] ==> q.monst == mons2[i])
    && (p.monst == null || p.monst !in mons ==> q.monst == null)
  }

  /** A reference into a pack, to the counterpart in the copied pack; to nothing if it was not into the pack. */
  ghost predicate RefCopied(x: Item?, y: Item?, xs: seq<Item>, ys: seq<Item>)
    requires |ys| == |xs|
  {
    && (forall i :: 0 <= i < |xs| && x == xs[i] ==> y == ys[i])
    && (x == null || x !in xs ==> y == null)
  }

  /** The second level is a copy of the first: same lists in the same order, every pointer to the counterpart. */
  ghost predicate LevelCopied(w: World, v: World)
    reads *
  {
    && ItemList(v.lvlObj, v.objs) && PackCopied(w.objs, v.objs)
    && CreatureList(v.mlist, v.mons) && |v.mons| == |w.mons|
    && (forall i :: 0 <= i < |w.mons| ==> CreatureCopied(w.mons[i], v.mons[i]))
    && (forall i :: 0 <= i < |w.mons| ==> DestCopied(w.mons[i].dest, v.mons[i].dest, w.mons, v.mons, w.objs, v.objs))
    && CreatureCopied(w.player, v.player)
    && (DestCopied(w.player.dest, v.player.dest, w.mons, v.mons, w.objs, v.objs)
        <==> !(w.player.dest.ToItem? && w.player.dest.o in w.objs))
    && |v.carried| == |w.carried|
    && (forall k :: 0 <= k < |w.carried| ==> RefCopied(w.carried[k], v.carried[k], w.player.items, v.player.items))
    && |v.places| == |w.places|
    && forall i :: 0 <= i < |w.places| ==> PlaceCopied(w.places[i], v.places[i], w.mons, v.mons)
  }

  lemma MonsterIsCopied(w: World, v: World, lr: LevelRec, pool: set<Item>, i: nat)
    requires Describes(w, lr, pool) && LevelRestored(v, lr, NoDest) && i < |w.mons|
    ensures |v.mons| == |w.mons| && |v.objs| == |w.objs|
    ensures CreatureCopied(w.mons[i], v.mons[i])
    ensures DestCopied(w.mons[i].dest, v.mons[i].dest, w.mons, v.mons, w.objs, v.objs)
  {
    hide Restored, CreatureCopied, DestCopied, Rec, DestCode, DestFinal, Holds;
    RecordedAt(w.mons, lr.mons, w.mons, w.objs, pool, i);
    CreatureIsCopied(w.mons[i], v.mons[i], w.mons, v.mons, w.objs, v.objs, NoDest);
    DestIsCopied(w.mons[i].dest, w.mons, v.mons, w.objs, v.objs);
    RestoredDest(v.mons[i], w.mons[i], w.mons, w.objs, v.mons, v.objs);
  }

  lemma RestoredDest(b: Creature, a: Creature, mons: seq<Creature>, objs: seq<Item>, mons2: seq<Creature>, objs2: seq<Item>)
    requires SmallLists(mons, objs) && Restored(b, Rec(a, mons, objs), mons2, objs2, NoDest)
    ensures var code := DestCode(a.dest, mons, objs);
      b.dest == DestFinal(CreatureRec(BLANK_BODY, code.0, code.1, 0, []), mons2, objs2, NoDest)
  {
  }

  lemma FloorIsCopied(w: World, v: World, lr: LevelRec, pool: set<Item>)
    requires Describes(w, lr, pool) && LevelRestored(v, lr, NoDest)
    ensures PackCopied(w.objs, v.objs)
  {
    hide Restored, Recorded, AllRecorded, AllRestored;
    forall i | 0 <= i < |w.objs|
      ensures v.objs[i].data == w.objs[i].data && v.objs[i].text == NoText
    {
      DataAt(w.objs, i);
    }
  }

  lemma PlacesAreCopied(w: World, v: World, lr: LevelRec, pool: set<Item>, i: nat)
    requires Describes(w, lr, pool) && LevelRestored(v, lr, NoDest) && i < |w.places|
    ensures |v.mons| == |w.mons| && |v.places| == |w.places|
    ensures PlaceCopied(w.places[i], v.places[i], w.mons, v.mons)
  {
    hide Restored, Recorded;
    var k := CreatureIndex(w.mons, w.places[i].monst);
    assert forall j :: 0 <= j < |w.mons| && w.mons[j] == w.places[i].monst ==> j == k;
    assert lr.places[i] == PlaceOf(w.places[i], w.mons);
  }

  lemma ReferenceIsCopied(w: World, v: World, lr: LevelRec, pool: set<Item>, k: nat)
    requires Describes(w, lr, pool) && LevelRestored(v, lr, NoDest) && k < |w.carried|
    ensures |v.carried| == |w.carried| && |v.player.items| == |w.player.items|
    ensures RefCopied(w.carried[k], v.carried[k], w.player.items, v.player.items)
  {
    var xs := w.player.items;
    var n := ItemIndex(xs, w.carried[k]);
    assert forall j :: 0 <= j < |xs| && xs[j] == w.carried[k] ==> j == n;
    assert lr.carried[k] == n;
  }

  lemma PlayerIsCopied(w: World, v: World, lr: LevelRec, pool: set<Item>)
    requires Describes(w, lr, pool) && LevelRestored(v, lr, NoDest)
    ensures |v.mons| == |w.mons| && |v.objs| == |w.objs| && CreatureCopied(w.player, v.player)
    ensures DestCopied(w.player.dest, v.player.dest, w.mons, v.mons, w.objs, v.objs)
      <==> !(w.player.dest.ToItem? && w.player.dest.o in w.objs)
  {
    hide Restored, CreatureCopied, DestCopied, Rec, DestCode, DestFinal, Holds;
    RecordedAt(w.mons, lr.mons, w.mons, w.objs, pool, 0);
    CreatureIsCopied(w.player, v.player, w.mons, v.mons, w.objs, [], NoDest);
    PlayerDestIsCopied(w.player.dest, w.mons, v.mons, w.objs, v.objs);
    RestoredDest(v.player, w.player, w.mons, w.objs, v.mons, []);
  }

  /** Restoring the record of a level makes a copy of the level. */
  lemma RestoredIsCopy(w: World, v: World, lr: LevelRec, pool: set<Item>)
    requires Describes(w, lr, pool) && LevelRestored(v, lr, NoDest)
    ensures LevelCopied(w, v)
  {
    FloorIsCopied(w, v, lr, pool);
    PlayerIsCopied(w, v, lr, pool);
    forall i | 0 <= i < |w.mons|
      ensures CreatureCopied(w.mons[i], v.mons[i])
      ensures DestCopied(w.mons[i].dest, v.mons[i].dest, w.mons, v.mons, w.objs, v.objs)
    {
      MonsterIsCopied(w, v, lr, pool, i);
    }
    forall k | 0 <= k < |w.carried|
      ensures |v.carried| == |w.carried|
      ensures RefCopied(w.carried[k], v.carried[k], w.player.items, v.player.items)
    {
      ReferenceIsCopied(w, v, lr, pool, k);
    }
    forall i | 0 <= i < |w.places|
      ensures |v.places| == |w.places| && PlaceCopied(w.places[i], v.places[i], w.mons, v.mons)
    {
      PlacesAreCopied(w, v, lr, pool, i);
    }
  }

  // ----- node for node

  /** A place for a thing: in the floor's list, the player's pack, or a monster's. */
  datatype Slot = OnFloor(k: nat) | InPack(k: nat) | InHoard(i: nat, k: nat)

  ghost predicate Has(w: World, s: Slot)
    reads w, w.player`items, w.mons`items
  {
    match s
    case OnFloor(k) => k < |w.objs|
    case InPack(k) => k < |w.player.items|
    case InHoard(i, k) => i < |w.mons| && k < |w.mons[i].items|
  }

  ghost function ItemIn(w: World, s: Slot): Item
    reads w, w.player`items, w.mons`items
    requires Has(w, s)
  {
    match s
    case OnFloor(k) => w.objs[k]
    case InPack(k) => w.player.items[k]
    case InHoard(i, k) => w.mons[i].items[k]
  }

  /** Pairing the nodes that stand in the same places is a bijection between the two levels. */
  ghost predicate OneToOne(w: World, v: World)
    reads *
  {
    && (forall s :: Has(w, s) <==> Has(v, s))
    && (forall s, t :: Has(w, s) && Has(v, s) && Has(w, t) && Has(v, t) ==>
          (ItemIn(w, s) == ItemIn(w, t) <==> ItemIn(v, s) == ItemIn(v, t)))
    && |w.mons| == |v.mons|
    && (forall i, j :: 0 <= i < j < |w.mons| ==> (w.mons[i] == w.mons[j] <==> v.mons[i] == v.mons[j]))
    && forall i :: 0 <= i < |w.mons| ==> (w.mons[i] == w.player <==> v.mons[i] == v.player)
  }

  /** Every list of the level is linked both ways. */
  ghost predicate Linked(w: World)
    reads *
  {
    && ItemList(w.lvlObj, w.objs) && CreatureList(w.mlist, w.mons) && ItemList(w.player.pack, w.player.items)
    && forall i :: 0 <= i < |w.mons| ==> ItemList(w.mons[i].pack, w.mons[i].items)
  }

  /** In a level without sharing a node stands in one place only. */
  lemma OnePlaceEach(w: World, s: Slot, t: Slot)
    requires Linked(w) && Unshared(w) && Has(w, s) && Has(w, t) && ItemIn(w, s) == ItemIn(w, t)
    ensures s == t
  {
    var x := ItemIn(w, s);
    assert s.OnFloor? ==> x in w.objs;
    assert t.OnFloor? ==> x in w.objs;
    assert s.InPack? ==> x in w.player.items;
    assert t.InPack? ==> x in w.player.items;
    assert s.InHoard? ==> x in w.mons[s.i].items;
    assert t.InHoard? ==> x in w.mons[t.i].items;
  }

  lemma CopyHasSame(w: World, v: World, s: Slot)
    requires LevelCopied(w, v)
    ensures Has(w, s) <==> Has(v, s)
  {
    if s.InHoard? && s.i < |w.mons| {
      assert CreatureCopied(w.mons[s.i], v.mons[s.i]);
    }
  }

  /** A copy without sharing corresponds node for node exactly if there was no sharing in the original. */
  lemma CopyIsOneToOne(w: World, v: World)
    requires LevelCopied(w, v) && Linked(w) && Linked(v) && Unshared(v)
    ensures OneToOne(w, v) <==> Unshared(w)
  {
    hide LevelCopied, Linked, Unshared;
    if Unshared(w) {
      forall s
        ensures Has(w, s) <==> Has(v, s)
      {
        CopyHasSame(w, v, s);
      }
      forall s, t | Has(w, s) && Has(v, s) && Has(w, t) && Has(v, t)
        ensures ItemIn(w, s) == ItemIn(w, t) <==> ItemIn(v, s) == ItemIn(v, t)
      {
        if ItemIn(w, s) == ItemIn(w, t) { OnePlaceEach(w, s, t); }
        if ItemIn(v, s) == ItemIn(v, t) { OnePlaceEach(v, s, t); }
      }
      CreaturesMatch(w, v);
    }
    if OneToOne(w, v) {
      NoneShared(w, v);
    }
  }

  lemma CreaturesMatch(w: World, v: World)
    requires LevelCopied(w, v) && Linked(w) && Linked(v) && Unshared(v) && Unshared(w)
    ensures |w.mons| == |v.mons|
    ensures forall i, j :: 0 <= i < j < |w.mons| ==> (w.mons[i] == w.mons[j] <==> v.mons[i] == v.mons[j])
    ensures forall i :: 0 <= i < |w.mons| ==> (w.mons[i] == w.player <==> v.mons[i] == v.player)
  {
    hide CreatureCopied, DestCopied;
  }

  lemma SlotsApart(w: World, v: World, s: Slot, t: Slot)
    requires OneToOne(w, v) && Linked(v) && Unshared(v) && Has(w, s) && Has(w, t) && s != t
    ensures ItemIn(w, s) != ItemIn(w, t)
  {
    hide Linked, Unshared;
    if ItemIn(w, s) == ItemIn(w, t) {
      OnePlaceEach(v, s, t);
    }
  }

  lemma NoneShared(w: World, v: World)
    requires OneToOne(w, v) && Linked(v) && Unshared(v)
    ensures Unshared(w)
  {
    hide Linked, OneToOne;
    assert w.player !in w.mons by { PlayerApart(w, v); }
    forall k, l | 0 <= k < |w.player.items| && 0 <= l < |w.objs|
      ensures w.player.items[k] != w.objs[l]
    {
      SlotsApart(w, v, InPack(k), OnFloor(l));
    }
    forall i, k, l | 0 <= i < |w.mons| && 0 <= k < |w.mons[i].items| && 0 <= l < |w.objs|
      ensures w.mons[i].items[k] != w.objs[l]
    {
      SlotsApart(w, v, InHoard(i, k), OnFloor(l));
    }
    forall i, k, l | 0 <= i < |w.mons| && 0 <= k < |w.mons[i].items| && 0 <= l < |w.player.items|
      ensures w.mons[i].items[k] != w.player.items[l]
    {
      SlotsApart(w, v, InHoard(i, k), InPack(l));
    }
    forall i, j, k, l | 0 <= i < j < |w.mons| && 0 <= k < |w.mons[i].items| && 0 <= l < |w.mons[j].items|
      ensures w.mons[i].items[k] != w.mons[j].items[l]
    {
      SlotsApart(w, v, InHoard(i, k), InHoard(j, l));
    }
  }

  lemma PlayerApart(w: World, v: World)
    requires OneToOne(w, v) && v.player !in v.mons
    ensures w.player !in w.mons
  {
  }

  // ----- every sound level has a record

  ghost predicate SoundCreature(t: Creature, pool: set<Item>)
    reads t, pool
  {
    (forall x :: x in t.items ==> x in pool) && ItemList(t.pack, t.items) && |t.items| < 0x8000_0000
  }

  /** Lists are linked both ways, packs are lists, and counts fit the ints they are written as. */
  ghost predicate Sound(w: World, pool: set<Item>)
    reads w, w.player, w.objs, w.mons, pool
  {
    && SmallLists(w.mons, w.objs) && |w.carried| == 6
    && ItemList(w.lvlObj, w.objs) && CreatureList(w.mlist, w.mons) && SoundCreature(w.player, pool)
    && forall i :: 0 <= i < |w.mons| ==> SoundCreature(w.mons[i], pool)
  }

  ghost function Recs(ts: seq<Creature>, mons: seq<Creature>, objs: seq<Item>, pool: set<Item>): (rs: seq<CreatureRec>)
    requires SmallLists(mons, objs) && forall i :: 0 <= i < |ts| ==> SoundCreature(ts[i], pool)
    reads ts, pool
    ensures |rs| == |ts| && forall i :: 0 <= i < |ts| ==> rs[i] == Rec(ts[i], mons, objs)
  {
    if ts == [] then [] else
      assert forall i :: 0 <= i < |ts| - 1 ==> ts[..|ts| - 1][i] == ts[i];
      assert SoundCreature(ts[|ts| - 1], pool);
      Recs(ts[..|ts| - 1], mons, objs, pool) + [Rec(ts[|ts| - 1], mons, objs)]
  }

  ghost function RecordOf(w: World, pool: set<Item>): LevelRec
    requires Sound(w, pool)
    reads w, w.player, w.objs, w.mons, pool
  {
    LevelRec(Rec(w.player, w.mons, w.objs), Indices(w.player.items, w.carried), Datas(w.objs),
             Recs(w.mons, w.mons, w.objs, pool), PlacesOf(w.places, w.mons))
  }

  lemma SoundIsDescribed(w: World, pool: set<Item>)
    requires Sound(w, pool)
    ensures Describes(w, RecordOf(w, pool), pool)
  {
    hide ItemList, CreatureList, Rec, Indices, Datas, PlacesOf;
    var rs := Recs(w.mons, w.mons, w.objs, pool);
    forall i | 0 <= i < |w.mons|
      ensures (forall x :: x in w.mons[i].items ==> x in pool) && Recorded(w.mons[i], rs[i], w.mons, w.objs)
    {
      assert SoundCreature(w.mons[i], pool);
    }
  }

  /** Writing the level to a new file: it comes out whole if and only if the disk has room for it. */
  method SaveToFile(w: World, capacity: nat, ghost lr: LevelRec, ghost pool: set<Item>) returns (ok: bool, bytes: seq<Byte>)
    requires Describes(w, lr, pool)
    ensures Writable(lr) && (ok <==> |Enc(LevelCells(lr))| <= capacity)
    ensures ok ==> bytes == Enc(LevelCells(lr))
  {
    hide Describes, LevelCells, Enc, Writable;
    var f := new SaveFile(capacity);
    Save(w, f, lr, pool);
    assert f.log == LevelCells(lr);
    ok, bytes := !f.out.failed, f.out.bytes;
  }

  /** Restoring into a program that has just started. */
  method LoadFromFile(bytes: seq<Byte>, count: nat, ghost lr: LevelRec) returns (v: World)
    requires Writable(lr) && |lr.places| == count
    ensures fresh(v) && fresh(v.player) && fresh(v.player.items) && fresh(v.objs) && fresh(v.mons)
    ensures (forall i :: 0 <= i < |v.mons| ==> fresh(v.mons[i].items)) && Unshared(v)
    ensures bytes == Enc(LevelCells(lr)) ==> LevelRestored(v, lr, NoDest)
  {
    hide LevelCells, Stands, Enc, LevelRestored, Writable, ItemList, Unshared;
    v := new World(count);
    var g := new LoadFile(bytes, LevelCells(lr));
    assert g.script[0..] == g.script;
    WholeScript(g.script);
    NoItems();
    Restore(v, g, lr);
  }

  lemma WholeScript(script: seq<Cell>)
    ensures Stands(script, 0, script)
  {
  }

  lemma NoItems()
    ensures ItemList(null, [])
  {
  }

  /**
   * Saving to a disk and restoring into a new process: if everything fitted, the new level is a copy of the old, all of
   * it new and nothing in it shared, and the copy is an isomorphism exactly if nothing was shared in the original.
   */
  method SaveAndRestore(w: World, capacity: nat, ghost pool: set<Item>) returns (ok: bool, v: World?)
    requires Sound(w, pool)
    ensures var lr := old(RecordOf(w, pool)); Writable(lr) && (ok <==> |Enc(LevelCells(lr))| <= capacity)
    ensures ok ==> v != null && fresh(v) && fresh(v.player) && fresh(v.player.items) && fresh(v.objs) && fresh(v.mons)
    ensures ok ==> (forall i :: 0 <= i < |v.mons| ==> fresh(v.mons[i].items)) && Unshared(v)
    ensures ok ==> LevelCopied(w, v) && (OneToOne(w, v) <==> Unshared(w))
  {
    hide LevelCells, Enc, RecordOf, LevelRestored, LevelCopied, Writable, Sound, Unshared, OneToOne, Describes;
    ghost var lr := RecordOf(w, pool);
    SoundIsDescribed(w, pool);
    SameManyPlaces(w, lr, pool);
    var bytes;
    ok, bytes := SaveToFile(w, capacity, lr, pool);
    v := null;
    if ok {
      v := LoadFromFile(bytes, |w.places|, lr);
      RestoredIsFaithful(w, v, lr, pool);
    }
  }

  lemma SameManyPlaces(w: World, lr: LevelRec, pool: set<Item>)
    requires Describes(w, lr, pool)
    ensures |lr.places| == |w.places|
  {
  }

  /** A level restored from its record is a copy, and one to one with the original unless that shares something. */
  lemma RestoredIsFaithful(w: World, v: World, lr: LevelRec, pool: set<Item>)
    requires Sound(w, pool) && Describes(w, lr, pool) && LevelRestored(v, lr, NoDest) && Unshared(v)
    ensures LevelCopied(w, v) && (OneToOne(w, v) <==> Unshared(w))
  {
    hide Sound, Describes, LevelRestored, LevelCopied, Unshared, OneToOne, Linked;
    RestoredIsCopy(w, v, lr, pool);
    SoundIsLinked(w, pool);
    CopyIsLinked(w, v);
    CopyIsOneToOne(w, v);
  }

  lemma SoundIsLinked(w: World, pool: set<Item>)
    requires Sound(w, pool)
    ensures Linked(w)
  {
    forall i | 0 <= i < |w.mons|
      ensures ItemList(w.mons[i].pack, w.mons[i].items)
    {
      assert SoundCreature(w.mons[i], pool);
    }
  }

  lemma CopyIsLinked(w: World, v: World)
    requires LevelCopied(w, v)
    ensures Linked(v)
  {
    forall i | 0 <= i < |v.mons|
      ensures ItemList(v.mons[i].pack, v.mons[i].items)
    {
      assert CreatureCopied(w.mons[i], v.mons[i]);
    }
  }
}

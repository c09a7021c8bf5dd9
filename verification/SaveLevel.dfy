/** Saving a level and restoring it: the restored heap is a copy of the saved one, pointers and all. */
module SaveLevel {
  import opened SaveCipher
  import opened SaveStream
  import opened SaveRecords
  import opened SaveHeap
  import opened SaveWrite
  import opened SaveRead

  datatype Place = Place(ch: Byte, flags: Byte, monst: Creature?)

  class World {
    var player: Creature
    /** The six pointers into the player's pack: armor, two rings, weapon, last two things picked. */
    var carried: seq<Item?>
    var lvlObj: Item?
    var mlist: Creature?
    var places: seq<Place>
    ghost var objs: seq<Item>
    ghost var mons: seq<Creature>

    /** The state of a program that has just started. */
    constructor (count: nat)
      ensures fresh(player) && player.dest == NoDest && player.pack == null && player.items == []
      ensures lvlObj == null && mlist == null && objs == [] && mons == [] && |places| == count && |carried| == 6
    {
      player := new Creature(BLANK_BODY);
      carried, lvlObj, mlist, objs, mons := [null, null, null, null, null, null], null, null, [], [];
      places := seq(count, i => Place(0, 0, null));
    }
  }

  // ----- saving

  /** The record says how the creature stands. */
  ghost predicate Recorded(t: Creature, r: CreatureRec, mons: seq<Creature>, objs: seq<Item>)
    reads t, t.items
  {
    SmallLists(mons, objs) && r == Rec(t, mons, objs) && ItemList(t.pack, t.items) && |t.items| < 0x8000_0000
  }

  lemma RecordedPack(t: Creature, r: CreatureRec, mons: seq<Creature>, objs: seq<Item>)
    requires Recorded(t, r, mons, objs)
    ensures |r.pack| == |t.items| < 0x8000_0000
  {
  }

  /** The same for a list of creatures that carry nothing outside the pool. */
  ghost predicate AllRecorded(ts: seq<Creature>, rs: seq<CreatureRec>, mons: seq<Creature>, objs: seq<Item>, pool: set<Item>)
    reads ts, pool
  {
    |ts| == |rs| && forall i :: 0 <= i < |ts| ==> (forall x :: x in ts[i].items ==> x in pool) && Recorded(ts[i], rs[i], mons, objs)
  }

  lemma RecordedAt(ts: seq<Creature>, rs: seq<CreatureRec>, mons: seq<Creature>, objs: seq<Item>, pool: set<Item>, k: nat)
    requires AllRecorded(ts, rs, mons, objs, pool) && k <= |ts|
    ensures |rs| == |ts|
    ensures k < |ts| ==> SmallLists(mons, objs) && rs[k] == Rec(ts[k], mons, objs) && |rs[k].pack| < 0x8000_0000
    ensures k < |ts| ==> ItemList(ts[k].pack, ts[k].items) && |ts[k].items| < 0x8000_0000
  {
    hide ItemList;
    if k < |ts| {
      assert Recorded(ts[k], rs[k], mons, objs);
    }
  }

  ghost predicate CreaturesLogged(start: seq<Cell>, rs: seq<CreatureRec>, k: nat, log: seq<Cell>) {
    k <= |rs| && SmallPacks(rs[..k]) && log == start + CreaturesCells(rs[..k])
  }

  lemma MoreCreaturesLogged(start: seq<Cell>, rs: seq<CreatureRec>, k: nat, log: seq<Cell>)
    requires CreaturesLogged(start, rs, k, log) && k < |rs| && |rs[k].pack| < 0x8000_0000
    ensures CreaturesLogged(start, rs, k + 1, log + CreatureCells(rs[k]))
  {
    hide CreatureCells;
    CreaturesCellsMore(rs[..k], rs[k]);
    assert rs[..k] + [rs[k]] == rs[..k + 1];
  }

  lemma CreaturesLoggedEnds(start: seq<Cell>, rs: seq<CreatureRec>, log: seq<Cell>)
    ensures CreaturesLogged(start, rs, 0, start)
    ensures CreaturesLogged(start, rs, |rs|, log) ==> SmallPacks(rs) && log == start + CreaturesCells(rs)
  {
    assert rs[..|rs|] == rs;
  }

  method WriteThings(f: SaveFile, l: Creature?, lvlObj: Item?, ghost mons: seq<Creature>, ghost objs: seq<Item>,
                     ghost rs: seq<CreatureRec>, ghost pool: set<Item>)
    requires f.Valid() && CreatureList(l, mons) && ItemList(lvlObj, objs) && AllRecorded(mons, rs, mons, objs, pool)
    modifies f`out, f`log
    ensures f.Valid() && SmallPacks(rs) && f.log == old(f.log) + CreaturesCells(rs)
  {
    hide SaveFile.Valid, CreatureCells, CreaturesCells, CreaturesLogged, CreatureList, ItemList, Rec, AllRecorded;
    var p := l;
    ghost var k := 0;
    NextCreature(l, mons, k);
    RecordedAt(mons, rs, mons, objs, pool, k);
    CreaturesLoggedEnds(f.log, rs, f.log);
    while p != null
      invariant 0 <= k <= |mons| && p == CreatureAt(mons, k)
      invariant f.Valid() && CreaturesLogged(old(f.log), rs, k, f.log)
      decreases |mons| - k
    {
      NextCreature(l, mons, k);
      RecordedAt(mons, rs, mons, objs, pool, k);
      MoreCreaturesLogged(old(f.log), rs, k, f.log);
      WriteThing(f, p, l, lvlObj, mons, objs);
      p := p.next;
      k := k + 1;
    }
    CreaturesLoggedEnds(old(f.log), rs, f.log);
  }

  method WriteThingList(f: SaveFile, l: Creature?, lvlObj: Item?, ghost mons: seq<Creature>, ghost objs: seq<Item>,
                        ghost rs: seq<CreatureRec>, ghost pool: set<Item>)
    requires f.Valid() && CreatureList(l, mons) && ItemList(lvlObj, objs) && AllRecorded(mons, rs, mons, objs, pool)
    requires |rs| < 0x8000_0000
    modifies f`out, f`log
    ensures f.Valid() && SmallPacks(rs) && f.log == old(f.log) + CreatureListCells(rs)
  {
    hide SaveFile.Valid, CreaturesCells, CreatureList, ItemList, AllRecorded;
    RecordedAt(mons, rs, mons, objs, pool, 0);
    f.RsWriteMarker(MARK_MONSTERLIST);
    var cnt := CreatureListSize(l, mons);
    f.RsWriteInt(cnt);
    if cnt < 1 {
      assert rs == [] && CreaturesCells([]) == [] by { NoCells(); }
      return;
    }
    WriteThings(f, l, lvlObj, mons, objs, rs, pool);
  }

  lemma NoCells()
    ensures CreaturesCells([]) == []
  {
  }

  /** Saved by number: where the thing stands in the list, -1 when it is nowhere. */
  method WriteThingReference(f: SaveFile, list: Creature?, item: Creature?, ghost mons: seq<Creature>)
    requires f.Valid() && CreatureList(list, mons) && |mons| < 0x8000_0000
    modifies f`out, f`log
    ensures f.Valid() && f.log == old(f.log) + [IntCell(CreatureIndex(mons, item))]
  {
    hide SaveFile.Valid, CreatureList, CreatureIndex;
    if item == null {
      NoIndex(mons);
      f.RsWriteInt(-1);
    } else {
      var i := FindCreature(list, item, mons);
      f.RsWriteInt(i);
    }
  }

  lemma {:induction false} NoIndex(mons: seq<Creature>)
    ensures CreatureIndex(mons, null) == -1
  {
    if mons != [] {
      NoIndex(mons[..|mons| - 1]);
    }
  }

  ghost function PlaceOf(p: Place, mons: seq<Creature>): PlaceRec
    requires |mons| < 0x8000_0000
  {
    PlaceRec(p.ch, p.flags, CreatureIndex(mons, p.monst))
  }

  ghost function PlacesOf(ps: seq<Place>, mons: seq<Creature>): (rs: seq<PlaceRec>)
    requires |mons| < 0x8000_0000
    ensures |rs| == |ps|
  {
    seq(|ps|, i requires 0 <= i < |ps| => PlaceOf(ps[i], mons))
  }

  method WritePlaces(f: SaveFile, ps: seq<Place>, mlist: Creature?, ghost mons: seq<Creature>)
    requires f.Valid() && CreatureList(mlist, mons) && |mons| < 0x8000_0000
    modifies f`out, f`log
    ensures f.Valid() && f.log == old(f.log) + PlacesCells(PlacesOf(ps, mons))
  {
    hide SaveFile.Valid, CreatureList, PlacesCells, CreatureIndex;
    ghost var rs := PlacesOf(ps, mons);
    NoPlaceCells(rs);
    var i := 0;
    while i < |ps|
      invariant 0 <= i <= |ps| && f.Valid() && f.log == old(f.log) + PlacesCells(rs[..i])
    {
      f.RsWriteChar(ps[i].ch);
      f.RsWriteChar(ps[i].flags);
      WriteThingReference(f, mlist, ps[i].monst, mons);
      PlacesCellsMore(rs[..i], rs[i]);
      assert rs[..i] + [rs[i]] == rs[..i + 1];
      i := i + 1;
    }
    assert rs[..i] == rs;
  }

  lemma NoPlaceCells(rs: seq<PlaceRec>)
    ensures PlacesCells(rs[..0]) == []
  {
  }

  ghost function Indices(nodes: seq<Item>, xs: seq<Item?>): (ks: seq<Int32>)
    requires |nodes| < 0x8000_0000
    ensures |ks| == |xs|
  {
    seq(|xs|, k requires 0 <= k < |xs| => ItemIndex(nodes, xs[k]))
  }

  /** The six references to the player's pack. */
  method WriteCarried(f: SaveFile, pack: Item?, xs: seq<Item?>, ghost nodes: seq<Item>)
    requires f.Valid() && ItemList(pack, nodes) && |nodes| < 0x8000_0000
    modifies f`out, f`log
    ensures f.Valid() && f.log == old(f.log) + RefCells(Indices(nodes, xs))
  {
    hide SaveFile.Valid, ItemList, ItemIndex;
    ghost var all := RefCells(Indices(nodes, xs));
    var k := 0;
    while k < |xs|
      invariant 0 <= k <= |xs| && f.Valid() && f.log == old(f.log) + all[..k]
    {
      var i := FindItem(pack, xs[k], nodes);
      f.RsWriteInt(i);
      k := k + 1;
    }
  }

  /** The record says how the level stands. */
  ghost predicate Describes(w: World, lr: LevelRec, pool: set<Item>)
    reads w, w.player, w.player.items, w.objs, w.mons, pool
  {
    && SmallLists(w.mons, w.objs) && |w.carried| == 6
    && ItemList(w.lvlObj, w.objs) && CreatureList(w.mlist, w.mons)
    && Recorded(w.player, lr.player, w.mons, w.objs)
    && lr.carried == Indices(w.player.items, w.carried)
    && lr.objs == Datas(w.objs)
    && AllRecorded(w.mons, lr.mons, w.mons, w.objs, pool)
    && lr.places == PlacesOf(w.places, w.mons)
  }

  /** The part of the save routine that writes the level. */
  method Save(w: World, f: SaveFile, ghost lr: LevelRec, ghost pool: set<Item>)
    requires f.Valid() && Describes(w, lr, pool)
    modifies f`out, f`log
    ensures f.Valid() && Writable(lr) && f.log == old(f.log) + LevelCells(lr)
  {
    hide SaveFile.Valid, CreatureList, ItemList, AllRecorded, CreatureCells, ObjectListCells, CreatureListCells;
    hide PlacesCells, RefCells, Indices, PlacesOf, Rec, Datas;
    RecordedAt(w.mons, lr.mons, w.mons, w.objs, pool, 0);
    RecordedPack(w.player, lr.player, w.mons, w.objs);
    WriteThing(f, w.player, w.mlist, w.lvlObj, w.mons, w.objs);
    WriteCarried(f, w.player.pack, w.carried, w.player.items);
    WriteObjectList(f, w.lvlObj, w.objs);
    WriteThingList(f, w.mlist, w.lvlObj, w.mons, w.objs, lr.mons, pool);
    WritePlaces(f, w.places, w.mlist, w.mons);
  }

  // ----- restoring

  method ReadObjectReference(f: LoadFile, list: Item?, ghost nodes: seq<Item>) returns (item: Item?)
    requires ItemList(list, nodes)
    modifies f`state, f`at
    ensures old(f.state.Failed()) ==> f.state.Failed()
    ensures old(f.Due()) && f.script[old(f.at)].IntCell? ==>
      f.OnTrack() && f.at == old(f.at) + 1 && item == ItemAt(nodes, f.script[old(f.at)].i)
  {
    hide LoadFile.OnTrack, ItemList;
    item := null;
    if f.Due() {
      InStep(f);
    }
    if f.state.Failed() {
      return;
    }
    var i := f.RsReadInt();
    item := GetItem(list, i, nodes);
  }

  method ReadThingReference(f: LoadFile, list: Creature?, ghost nodes: seq<Creature>) returns (item: Creature?)
    requires CreatureList(list, nodes)
    modifies f`state, f`at
    ensures old(f.state.Failed()) ==> f.state.Failed()
    ensures old(f.Due()) && f.script[old(f.at)].IntCell? ==>
      f.OnTrack() && f.at == old(f.at) + 1 && item == CreatureAt(nodes, f.script[old(f.at)].i)
  {
    hide LoadFile.OnTrack, CreatureList;
    item := null;
    var i := f.RsReadInt();
    if i != -1 {
      item := GetCreature(list, i, nodes);
    }
  }

  /** Points a creature at the monster whose number it was saved with. */
  method FixThing(t: Creature, mlist: Creature?, ghost mons: seq<Creature>)
    requires CreatureList(mlist, mons)
    modifies t`dest
    ensures t.dest == Fixed(old(t.dest), t.reserved, mons)
  {
    hide CreatureList;
    if t.reserved < 0 {
      return;
    }
    var item := GetCreature(mlist, t.reserved, mons);
    if item != null {
      t.dest := ToCreature(item);
    }
  }

  ghost function Fixed(d: Dest, reserved: int, mons: seq<Creature>): Dest {
    if 0 <= reserved < |mons| then ToCreature(mons[reserved]) else d
  }

  method FixThingList(mlist: Creature?, ghost mons: seq<Creature>)
    requires CreatureList(mlist, mons)
    modifies mons`dest
    ensures forall i :: 0 <= i < |mons| ==> mons[i].dest == Fixed(old(mons[i].dest), mons[i].reserved, mons)
  {
    var p := mlist;
    ghost var k := 0;
    while p != null
      invariant 0 <= k <= |mons| && p == CreatureAt(mons, k)
      invariant forall i :: 0 <= i < k ==> mons[i].dest == Fixed(old(mons[i].dest), mons[i].reserved, mons)
      invariant forall i :: k <= i < |mons| ==> mons[i].dest == old(mons[i].dest)
      decreases |mons| - k
    {
      FixThing(p, mlist, mons);
      p := p.next;
      k := k + 1;
    }
  }

  method ReadPlaces(f: LoadFile, before: seq<Place>, mlist: Creature?, ghost mons: seq<Creature>, ghost rs: seq<PlaceRec>)
    returns (ps: seq<Place>)
    requires CreatureList(mlist, mons)
    modifies f`state, f`at
    ensures old(f.state.Failed()) ==> f.state.Failed()
    ensures |ps| == |before|
    ensures old(Upcoming(f, PlacesCells(rs))) && |rs| == |before| ==>
      && f.OnTrack() && f.at == old(f.at) + |PlacesCells(rs)|
      && forall i :: 0 <= i < |ps| ==> ps[i] == Place(rs[i].ch, rs[i].flags, CreatureAt(mons, rs[i].monst))
  {
    hide LoadFile.OnTrack, CreatureList, PlacesCells, Stands, PlacesStand;
    ghost var good := Upcoming(f, PlacesCells(rs)) && |rs| == |before|;
    ghost var end := f.at + |PlacesCells(rs)|;
    if good {
      InStep(f);
      AllPlacesStand(f.script, f.at, rs);
    }
    ps := before;
    if f.state.Failed() {
      return;
    }
    var i := 0;
    while i < |before|
      invariant 0 <= i <= |before| && |ps| == |before|
      invariant good ==> f.OnTrack() && PlacesStand(f.script, f.at, rs, i, end)
      invariant good ==>
        forall k :: 0 <= k < i ==> ps[k] == Place(rs[k].ch, rs[k].flags, CreatureAt(mons, rs[k].monst))
    {
      if good {
        NextPlaceStands(f.script, f.at, rs, i, end);
      }
      var ch := f.RsReadChar();
      var flags := f.RsReadChar();
      var monst := ReadThingReference(f, mlist, mons);
      ps := ps[i := Place(ch, flags, monst)];
      i := i + 1;
    }
    if good {
      NextPlaceStands(f.script, f.at, rs, i, end);
    }
  }

  ghost predicate PlacesStand(script: seq<Cell>, at: nat, rs: seq<PlaceRec>, k: nat, end: nat) {
    k <= |rs| && Stands(script, at, PlacesCells(rs[k..])) && at + |PlacesCells(rs[k..])| == end
  }

  lemma AllPlacesStand(script: seq<Cell>, at: nat, rs: seq<PlaceRec>)
    requires Stands(script, at, PlacesCells(rs))
    ensures PlacesStand(script, at, rs, 0, at + |PlacesCells(rs)|)
  {
    assert rs[0..] == rs;
  }

  lemma NextPlaceStands(script: seq<Cell>, at: nat, rs: seq<PlaceRec>, k: nat, end: nat)
    requires PlacesStand(script, at, rs, k, end)
    ensures k < |rs| ==> at + 3 <= |script| && script[at] == CharCell(rs[k].ch) && script[at + 1] == CharCell(rs[k].flags)
    ensures k < |rs| ==> script[at + 2] == IntCell(rs[k].monst) && PlacesStand(script, at + 3, rs, k + 1, end)
    ensures k == |rs| ==> at == end
  {
    if k < |rs| {
      assert rs[k..][1..] == rs[k + 1..];
      assert PlacesCells(rs[k..]) == PlaceCells(rs[k]) + PlacesCells(rs[k + 1..]);
      StandsBoth(script, at, PlaceCells(rs[k]), PlacesCells(rs[k + 1..]));
      StandsAt(script, at, PlaceCells(rs[k]), 0);
      StandsAt(script, at, PlaceCells(rs[k]), 1);
      StandsAt(script, at, PlaceCells(rs[k]), 2);
    }
  }

  /** What a creature chases after the fix-up. */
  ghost function DestFinal(r: CreatureRec, mons: seq<Creature>, objs: seq<Item>, before: Dest): Dest {
    if r.destList == 1 then Fixed(NoDest, r.destIndex, mons) else DestRead(r.destList, r.destIndex, objs, before)
  }

  /** The creature is as its record says, with every pointer in place. */
  ghost predicate Restored(t: Creature, r: CreatureRec, mons: seq<Creature>, objs: seq<Item>, before: Dest)
    reads t, t.items
  {
    Bodied(t, r) && Packed(t, r) && t.dest == DestFinal(r, mons, objs, before)
  }

  ghost function AllCarried(ts: seq<Creature>): (xs: set<Item>)
    reads ts`items
    ensures forall i, x :: 0 <= i < |ts| && x in ts[i].items ==> x in xs
  {
    set t, x | t in ts && x in t.items :: x
  }

  ghost predicate AllRestored(ts: seq<Creature>, rs: seq<CreatureRec>, mons: seq<Creature>, objs: seq<Item>)
    reads ts, AllCarried(ts)
  {
    |ts| == |rs| && forall i :: 0 <= i < |ts| ==> Restored(ts[i], rs[i], mons, objs, NoDest)
  }

  /** The level is as the record says. */
  ghost predicate LevelRestored(w: World, lr: LevelRec, before: Dest)
    reads *
  {
    && ItemList(w.lvlObj, w.objs) && CreatureList(w.mlist, w.mons)
    && |w.objs| == |lr.objs| && Holds(w.objs, lr.objs)
    && AllRestored(w.mons, lr.mons, w.mons, w.objs)
    && Restored(w.player, lr.player, w.mons, [], before)
    && |w.carried| == |lr.carried| && (forall k :: 0 <= k < |w.carried| ==> w.carried[k] == ItemAt(w.player.items, lr.carried[k]))
    && |w.places| == |lr.places|
    && forall i :: 0 <= i < |w.places| ==>
      w.places[i] == Place(lr.places[i].ch, lr.places[i].flags, CreatureAt(w.mons, lr.places[i].monst))
  }

  method ReadCarried(f: LoadFile, pack: Item?, ghost nodes: seq<Item>, ghost ks: seq<Int32>) returns (xs: seq<Item?>)
    requires ItemList(pack, nodes) && |ks| == 6
    modifies f`state, f`at
    ensures old(f.state.Failed()) ==> f.state.Failed()
    ensures |xs| == 6
    ensures old(Upcoming(f, RefCells(ks))) ==>
      f.OnTrack() && f.at == old(f.at) + 6 && forall k :: 0 <= k < 6 ==> xs[k] == ItemAt(nodes, ks[k])
  {
    hide LoadFile.OnTrack, ItemList, ItemAt, Stands;
    ghost var good := Upcoming(f, RefCells(ks));
    if good {
      RefsStand(f.script, f.at, ks);
    }
    ghost var start := f.at;
    xs := [];
    var k := 0;
    while k < 6
      invariant 0 <= k <= 6 && |xs| == k
      invariant old(f.state.Failed()) ==> f.state.Failed()
      invariant good ==> f.OnTrack() && f.at == old(f.at) + k && forall j :: 0 <= j < k ==> xs[j] == ItemAt(nodes, ks[j])
    {
      assert good ==> f.script[start + k] == IntCell(ks[k]);
      var x := ReadObjectReference(f, pack, nodes);
      xs := xs + [x];
      k := k + 1;
    }
  }

  lemma RefsStand(script: seq<Cell>, at: nat, ks: seq<Int32>)
    requires Stands(script, at, RefCells(ks))
    ensures at + |ks| <= |script| && forall k :: 0 <= k < |ks| ==> script[at + k] == IntCell(ks[k])
  {
    forall k | 0 <= k < |ks|
      ensures script[at + k] == IntCell(ks[k])
    {
      StandsAt(script, at, RefCells(ks), k);
    }
  }

  /** No thing is in two lists, and the player is not on the list of monsters. */
  ghost predicate Unshared(w: World)
    reads w, w.player`items, w.mons`items
  {
    && w.player !in w.mons && Apart(w.player.items, w.objs)
    && (forall i :: 0 <= i < |w.mons| ==> Apart(w.mons[i].items, w.player.items) && Apart(w.mons[i].items, w.objs))
    && forall i, j :: 0 <= i < j < |w.mons| ==> Apart(w.mons[i].items, w.mons[j].items)
  }

  lemma SeparateIsUnshared(w: World, pool: set<Item>)
    requires w.player !in w.mons && Separate(w.mons, pool) && Apart(w.player.items, w.objs)
    requires forall x :: x in pool ==> x !in w.player.items && x !in w.objs
    ensures Unshared(w)
  {
  }

  lemma InPool(mons: seq<Creature>, pool: set<Item>, i: nat)
    requires Separate(mons, pool) && i < |mons|
    ensures forall k :: 0 <= k < |mons[i].items| ==> mons[i].items[k] in pool
  {
  }

  lemma LevelIs(w: World, lr: LevelRec, before: Dest)
    requires ItemList(w.lvlObj, w.objs) && CreatureList(w.mlist, w.mons)
    requires |w.objs| == |lr.objs| && Holds(w.objs, lr.objs) && AllRestored(w.mons, lr.mons, w.mons, w.objs)
    requires Restored(w.player, lr.player, w.mons, [], before)
    requires |w.carried| == |lr.carried|
    requires forall k :: 0 <= k < |w.carried| ==> w.carried[k] == ItemAt(w.player.items, lr.carried[k])
    requires |w.places| == |lr.places|
    requires forall i :: 0 <= i < |w.places| ==>
      w.places[i] == Place(lr.places[i].ch, lr.places[i].flags, CreatureAt(w.mons, lr.places[i].monst))
    ensures LevelRestored(w, lr, before)
  {
    hide ItemList, CreatureList, Holds, AllRestored, Restored;
  }

  lemma LevelStands(script: seq<Cell>, at: nat, lr: LevelRec)
    requires Writable(lr) && Stands(script, at, LevelCells(lr))
    ensures Stands(script, at, CreatureCells(lr.player))
    ensures var a := at + |CreatureCells(lr.player)|;
      && Stands(script, a, RefCells(lr.carried)) && Stands(script, a + 6, ObjectListCells(lr.objs))
      && Stands(script, a + 6 + |ObjectListCells(lr.objs)|, CreatureListCells(lr.mons))
      && Stands(script, a + 6 + |ObjectListCells(lr.objs)| + |CreatureListCells(lr.mons)|, PlacesCells(lr.places))
  {
    hide Stands, CreatureCells, RefCells, ObjectListCells, CreatureListCells, PlacesCells;
    var c1, c2, c3, c4, c5 := CreatureCells(lr.player), RefCells(lr.carried), ObjectListCells(lr.objs),
      CreatureListCells(lr.mons), PlacesCells(lr.places);
    StandsBoth(script, at, c1 + c2 + c3 + c4, c5);
    StandsBoth(script, at, c1 + c2 + c3, c4);
    StandsBoth(script, at, c1 + c2, c3);
    StandsBoth(script, at, c1, c2);
  }

  /** Chase targets are final once the monsters' numbers have been looked up. */
  lemma FixedIsFinal(r: CreatureRec, mons: seq<Creature>, objs: seq<Item>, before: Dest)
    ensures Fixed(DestRead(r.destList, r.destIndex, objs, before), if r.destList == 1 then r.destIndex else -1, mons)
      == DestFinal(r, mons, objs, before)
  {
  }

  lemma RaisedIsRestored(t: Creature, r: CreatureRec, mons: seq<Creature>, objs: seq<Item>, before: Dest)
    requires Bodied(t, r) && Packed(t, r) && t.dest == DestFinal(r, mons, objs, before)
    ensures Restored(t, r, mons, objs, before)
  {
  }

  /** The two fix-up calls, for the player and for the monsters. */
  method FixAll(player: Creature, mlist: Creature?, ghost mons: seq<Creature>, ghost objs: seq<Item>, ghost lr: LevelRec,
                ghost before: Dest, ghost good: bool)
    requires CreatureList(mlist, mons) && player !in mons
    requires good ==> |mons| == |lr.mons| && Raised(player, lr.player, [], before)
    requires good ==> forall i :: 0 <= i < |mons| ==> Raised(mons[i], lr.mons[i], objs, NoDest)
    modifies player`dest, mons`dest
    ensures good ==> Restored(player, lr.player, mons, [], before)
    ensures good ==> AllRestored(mons, lr.mons, mons, objs)
  {
    hide CreatureList, Bodied, Packed, DestRead;
    FixThing(player, mlist, mons);
    FixThingList(mlist, mons);
    if good {
      FixedIsFinal(lr.player, mons, [], before);
      RaisedIsRestored(player, lr.player, mons, [], before);
      forall i | 0 <= i < |mons|
        ensures Restored(mons[i], lr.mons[i], mons, objs, NoDest)
      {
        assert old(Raised(mons[i], lr.mons[i], objs, NoDest));
        FixedIsFinal(lr.mons[i], mons, objs, NoDest);
        RaisedIsRestored(mons[i], lr.mons[i], mons, objs, NoDest);
      }
    }
  }

  /** The things on the floor, then the monsters. */
  method ReadFloorAndMonsters(f: LoadFile, ghost ds: seq<ObjectData>, ghost rs: seq<CreatureRec>)
    returns (lvlObj: Item?, ghost objs: seq<Item>, mlist: Creature?, ghost mons: seq<Creature>, ghost pool: set<Item>)
    requires |ds| < 0x8000_0000 && |rs| < 0x8000_0000 && SmallPacks(rs)
    modifies f`state, f`at
    ensures old(f.state.Failed()) ==> f.state.Failed()
    ensures fresh(objs) && fresh(mons) && fresh(pool) && Separate(mons, pool) && forall x :: x in pool ==> x !in objs
    ensures ItemList(lvlObj, objs) && CreatureList(mlist, mons)
    ensures old(f.OnTrack() && Stands(f.script, f.at, ObjectListCells(ds))
                && Stands(f.script, f.at + |ObjectListCells(ds)|, CreatureListCells(rs))) ==>
      && f.OnTrack() && f.at == old(f.at) + |ObjectListCells(ds)| + |CreatureListCells(rs)|
      && |objs| == |ds| && Holds(objs, ds) && |mons| == |rs|
      && forall i :: 0 <= i < |mons| ==> Raised(mons[i], rs[i], objs, NoDest)
  {
    hide LoadFile.OnTrack, ObjectListCells, CreatureListCells, Stands;
    hide ItemList, CreatureList, Raised, Holds, Separate, SmallPacks;
    lvlObj, objs := ReadObjectList(f, ds);
    mlist, mons, pool := ReadThingList(f, lvlObj, objs, rs);
  }

  /** The calls of the restore routine that concern the lists of the level, in order. */
  method ReadLists(f: LoadFile, player: Creature, lvlObj0: Item?, ghost objs0: seq<Item>, ghost lr: LevelRec)
    returns (carried: seq<Item?>, lvlObj: Item?, ghost objs: seq<Item>, mlist: Creature?, ghost mons: seq<Creature>,
             ghost pool: set<Item>)
    requires Writable(lr) && ItemList(lvlObj0, objs0) && ItemList(player.pack, player.items)
    modifies f`state, f`at, player
    ensures old(f.state.Failed()) ==> f.state.Failed()
    ensures fresh(objs) && fresh(mons) && fresh(pool) && Separate(mons, pool)
    ensures player.items == old(player.items) || fresh(player.items)
    ensures Apart(player.items, objs) && forall x :: x in pool ==> x !in player.items && x !in objs
    ensures ItemList(lvlObj, objs) && CreatureList(mlist, mons)
    ensures old(Upcoming(f, LevelCells(lr))) && objs0 == [] ==>
      && Upcoming(f, PlacesCells(lr.places))
      && |objs| == |lr.objs| && Holds(objs, lr.objs) && AllRestored(mons, lr.mons, mons, objs)
      && Restored(player, lr.player, mons, [], old(player.dest))
      && |carried| == 6 && (forall k :: 0 <= k < 6 ==> carried[k] == ItemAt(player.items, lr.carried[k]))
  {
    hide LoadFile.OnTrack, CreatureCells, RefCells, ObjectListCells, CreatureListCells, PlacesCells, LevelCells, Stands;
    hide ItemList, CreatureList, Raised, Restored, AllRestored, Holds, Separate, ItemAt, CreatureAt, SmallPacks;
    ghost var good := Upcoming(f, LevelCells(lr)) && objs0 == [];
    if good {
      LevelStands(f.script, f.at, lr);
    }
    ReadThing(f, player, lvlObj0, objs0, lr.player);
    carried := ReadCarried(f, player.pack, player.items, lr.carried);
    lvlObj, objs, mlist, mons, pool := ReadFloorAndMonsters(f, lr.objs, lr.mons);
    FixAll(player, mlist, mons, objs, lr, old(player.dest), good);
  }

  /** All the calls of the restore routine that concern the level. */
  method ReadLevel(f: LoadFile, player: Creature, before: seq<Place>, lvlObj0: Item?, ghost objs0: seq<Item>, ghost lr: LevelRec)
    returns (carried: seq<Item?>, lvlObj: Item?, ghost objs: seq<Item>, mlist: Creature?, ghost mons: seq<Creature>,
             ghost pool: set<Item>, places: seq<Place>)
    requires Writable(lr) && |lr.places| == |before|
    requires ItemList(lvlObj0, objs0) && ItemList(player.pack, player.items)
    modifies f`state, f`at, player
    ensures old(f.state.Failed()) ==> f.state.Failed()
    ensures fresh(objs) && fresh(mons) && fresh(pool) && Separate(mons, pool)
    ensures player.items == old(player.items) || fresh(player.items)
    ensures Apart(player.items, objs) && forall x :: x in pool ==> x !in player.items && x !in objs
    ensures old(Upcoming(f, LevelCells(lr))) && objs0 == [] ==>
      && f.OnTrack() && ItemList(lvlObj, objs) && CreatureList(mlist, mons)
      && |objs| == |lr.objs| && Holds(objs, lr.objs) && AllRestored(mons, lr.mons, mons, objs)
      && Restored(player, lr.player, mons, [], old(player.dest))
      && |carried| == 6 && (forall k :: 0 <= k < 6 ==> carried[k] == ItemAt(player.items, lr.carried[k]))
      && |places| == |lr.places|
      && forall i :: 0 <= i < |places| ==>
        places[i] == Place(lr.places[i].ch, lr.places[i].flags, CreatureAt(mons, lr.places[i].monst))
  {
    hide LoadFile.OnTrack, PlacesCells, LevelCells, Upcoming;
    hide ItemList, CreatureList, Restored, AllRestored, Holds, Separate, Apart, ItemAt, CreatureAt;
    carried, lvlObj, objs, mlist, mons, pool := ReadLists(f, player, lvlObj0, objs0, lr);
    ghost var all := AllCarried(mons); // what they carry stays as it is
    places := ReadPlaces(f, before, mlist, mons, lr.places);
  }

  /** What has been read becomes the level. */
  method SetLevel(w: World, carried: seq<Item?>, lvlObj: Item?, ghost objs: seq<Item>, mlist: Creature?,
                  ghost mons: seq<Creature>, ghost pool: set<Item>, places: seq<Place>, ghost lr: LevelRec,
                  ghost before: Dest, ghost good: bool)
    requires w.player !in mons && Separate(mons, pool) && Apart(w.player.items, objs)
    requires forall x :: x in pool ==> x !in w.player.items && x !in objs
    requires good ==>
      && ItemList(lvlObj, objs) && CreatureList(mlist, mons)
      && |objs| == |lr.objs| && Holds(objs, lr.objs) && AllRestored(mons, lr.mons, mons, objs)
      && Restored(w.player, lr.player, mons, [], before)
      && |carried| == |lr.carried|
      && (forall k :: 0 <= k < |carried| ==> carried[k] == ItemAt(w.player.items, lr.carried[k]))
      && |places| == |lr.places|
      && forall i :: 0 <= i < |places| ==>
        places[i] == Place(lr.places[i].ch, lr.places[i].flags, CreatureAt(mons, lr.places[i].monst))
    modifies w`carried, w`lvlObj, w`objs, w`mlist, w`mons, w`places
    ensures w.objs == objs && w.mons == mons && Unshared(w)
    ensures good ==> LevelRestored(w, lr, before)
  {
    hide ItemList, CreatureList, Restored, Holds, LevelRestored, Separate, Apart, Unshared, AllRestored;
    hide ItemAt, CreatureAt;
    ghost var all := AllCarried(mons); // what they carry stays as it is
    w.carried, w.lvlObj, w.objs, w.mlist, w.mons, w.places := carried, lvlObj, objs, mlist, mons, places;
    SeparateIsUnshared(w, pool);
    if good {
      LevelIs(w, lr, before);
    }
  }

  /** The part of the restore routine that reads the level, into a program that has just started. */
  method Restore(w: World, f: LoadFile, ghost lr: LevelRec)
    requires Writable(lr) && |lr.places| == |w.places|
    requires ItemList(w.lvlObj, w.objs) && ItemList(w.player.pack, w.player.items)
    modifies f`state, f`at, w, w.player
    ensures old(f.state.Failed()) ==> f.state.Failed()
    ensures w.player == old(w.player)
    ensures fresh(w.objs) && fresh(w.mons) && (forall i :: 0 <= i < |w.mons| ==> fresh(w.mons[i].items)) && Unshared(w)
    ensures w.player.items == old(w.player.items) || fresh(w.player.items)
    ensures old(Upcoming(f, LevelCells(lr)) && w.objs == []) ==>
      f.OnTrack() && LevelRestored(w, lr, old(w.player.dest))
  {
    hide LoadFile.OnTrack, LevelCells, Stands, ItemList, CreatureList, Restored, Holds, LevelRestored;
    hide Separate, Apart, Unshared, AllRestored, ItemAt, CreatureAt;
    ghost var good := Upcoming(f, LevelCells(lr)) && w.objs == [];
    ghost var before := w.player.dest;
    var carried, lvlObj, objs, mlist, mons, pool, places := ReadLevel(f, w.player, w.places, w.lvlObj, w.objs, lr);
    forall i | 0 <= i < |mons|
      ensures fresh(mons[i].items)
    {
      InPool(mons, pool, i);
    }
    SetLevel(w, carried, lvlObj, objs, mlist, mons, pool, places, lr, before, good);
  }
}

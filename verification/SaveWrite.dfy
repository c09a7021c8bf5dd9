/** Writing the level: lists node by node, pointers as numbers. */
module SaveWrite {
  import opened SaveCipher
  import opened SaveStream
  import opened SaveRecords
  import opened SaveHeap

  /** The record of what a creature chases; a place that cannot be named becomes the hero's. */
  ghost function DestCode(d: Dest, mons: seq<Creature>, objs: seq<Item>): (code: (int, int))
    ensures 0 <= code.0 <= 3
    ensures 0 <= code.1 < if code.0 == 0 then 2 else if code.0 == 1 then |mons| else if code.0 == 2 then |objs| else MAXROOMS
  {
    match d
    case NoDest => (0, 0)
    case ToHero => (0, 1)
    case ToCreature(c) => if CreatureIndex(mons, c) >= 0 then (1, CreatureIndex(mons, c)) else (0, 1)
    case ToItem(o) => if ItemIndex(objs, o) >= 0 then (2, ItemIndex(objs, o)) else (0, 1)
    case ToGold(i) => if 0 <= i < MAXROOMS then (3, i) else (0, 1)
    case ToElsewhere => (0, 1)
  }

  /** Rooms are written by number, passages not at all. */
  function RoomCode(r: RoomRef): Int32 { if r.InRooms? && 0 <= r.i < MAXROOMS then r.i else -1 }

  ghost predicate SmallLists(mons: seq<Creature>, objs: seq<Item>) { |mons| < 0x8000_0000 && |objs| < 0x8000_0000 }

  /** The record a creature is written as. */
  ghost function Rec(t: Creature, mons: seq<Creature>, objs: seq<Item>): CreatureRec
    requires SmallLists(mons, objs)
    reads t, t.items
  {
    var code := DestCode(t.dest, mons, objs);
    CreatureRec(t.body, code.0, code.1, RoomCode(t.room), Datas(t.items))
  }

  method WritePosition(f: SaveFile, p: Position)
    requires f.Valid()
    modifies f`out, f`log
    ensures f.Valid() && f.log == old(f.log) + PosCells(p)
  {
    hide SaveFile.Valid;
    f.RsWriteInt(p.x);
    f.RsWriteInt(p.y);
  }

  /** Eight cells written one by one. */
  lemma EightCells(log: seq<Cell>, cs: seq<Cell>)
    requires |cs| == 8
    ensures log + [cs[0]] + [cs[1]] + [cs[2]] + [cs[3]] + [cs[4]] + [cs[5]] + [cs[6]] + [cs[7]] == log + cs
  {
  }

  method WriteStats(f: SaveFile, s: Stats)
    requires f.Valid()
    modifies f`out, f`log
    ensures f.Valid() && f.log == old(f.log) + StatsCells(s)
  {
    hide SaveFile.Valid;
    f.RsWriteMarker(MARK_STATS);
    f.RsWriteUInt(s.str);
    f.RsWriteInt(s.exp);
    f.RsWriteInt(s.lvl);
    f.RsWriteInt(s.arm);
    f.RsWriteInt(s.hpt);
    f.RsWriteChars(s.dmg);
    f.RsWriteInt(s.maxhp);
  }

  method WriteObjectFront(f: SaveFile, d: ObjectData)
    requires f.Valid()
    modifies f`out, f`log
    ensures f.Valid() && f.log == old(f.log) + ObjectCells(d)[..8]
  {
    hide SaveFile.Valid;
    f.RsWriteMarker(MARK_OBJECT);
    f.RsWriteInt(d.kind);
    WritePosition(f, d.pos);
    f.RsWriteInt(d.launch);
    f.RsWriteChar(d.packch);
    f.RsWriteChars(d.damage);
    f.RsWriteChars(d.hurldmg);
  }

  method WriteObjectBack(f: SaveFile, d: ObjectData)
    requires f.Valid()
    modifies f`out, f`log
    ensures f.Valid() && f.log == old(f.log) + ObjectCells(d)[8..]
  {
    hide SaveFile.Valid;
    f.RsWriteInt(d.count);
    f.RsWriteInt(d.which);
    f.RsWriteInt(d.hplus);
    f.RsWriteInt(d.dplus);
    f.RsWriteInt(d.arm);
    f.RsWriteInt(d.flags);
    f.RsWriteInt(d.group);
    f.RsWriteString(d.name);
    EightCells(old(f.log), ObjectCells(d)[8..]);
  }

  method WriteObject(f: SaveFile, o: Item)
    requires f.Valid()
    modifies f`out, f`log
    ensures f.Valid() && f.log == old(f.log) + ObjectCells(o.data)
  {
    hide SaveFile.Valid, ObjectCells;
    WriteObjectFront(f, o.data);
    WriteObjectBack(f, o.data);
    assert ObjectCells(o.data) == ObjectCells(o.data)[..8] + ObjectCells(o.data)[8..];
  }

  /** The loop over a list of objects. */
  method WriteObjects(f: SaveFile, l: Item?, ghost nodes: seq<Item>)
    requires f.Valid() && ItemList(l, nodes)
    modifies f`out, f`log
    ensures f.Valid() && f.log == old(f.log) + ObjectsCells(Datas(nodes))
  {
    hide SaveFile.Valid, ObjectCells, ObjectsCells, ObjectsLogged, Datas, ItemList;
    ghost var ds := Datas(nodes);
    var p := l;
    ghost var k := 0;
    NextItem(l, nodes, k);
    NoObjectsLogged(f.log, ds);
    while p != null
      invariant 0 <= k <= |nodes| && p == ItemAt(nodes, k) && ds == Datas(nodes)
      invariant f.Valid() && ObjectsLogged(old(f.log), ds, k, f.log)
      decreases |nodes| - k
    {
      NextItem(l, nodes, k);
      DataAt(nodes, k);
      MoreObjectsLogged(old(f.log), ds, k, f.log);
      WriteObject(f, p);
      p := p.next;
      k := k + 1;
    }
    AllObjectsLogged(old(f.log), ds, f.log);
  }

  /** The log after k objects of a list. */
  ghost predicate ObjectsLogged(start: seq<Cell>, ds: seq<ObjectData>, k: nat, log: seq<Cell>) {
    k <= |ds| && log == start + ObjectsCells(ds[..k])
  }

  lemma NoObjectsLogged(start: seq<Cell>, ds: seq<ObjectData>)
    ensures ObjectsLogged(start, ds, 0, start)
  {
  }

  lemma MoreObjectsLogged(start: seq<Cell>, ds: seq<ObjectData>, k: nat, log: seq<Cell>)
    requires ObjectsLogged(start, ds, k, log) && k < |ds|
    ensures ObjectsLogged(start, ds, k + 1, log + ObjectCells(ds[k]))
  {
    hide ObjectCells;
    ObjectsCellsMore(ds[..k], ds[k]);
    assert ds[..k] + [ds[k]] == ds[..k + 1];
  }

  lemma AllObjectsLogged(start: seq<Cell>, ds: seq<ObjectData>, log: seq<Cell>)
    requires ObjectsLogged(start, ds, |ds|, log)
    ensures log == start + ObjectsCells(ds)
  {
    assert ds[..|ds|] == ds;
  }

  method WriteObjectList(f: SaveFile, l: Item?, ghost nodes: seq<Item>)
    requires f.Valid() && ItemList(l, nodes) && |nodes| < 0x8000_0000
    modifies f`out, f`log
    ensures f.Valid() && f.log == old(f.log) + ObjectListCells(Datas(nodes))
  {
    hide SaveFile.Valid, ObjectsCells, ItemList;
    f.RsWriteMarker(MARK_OBJECTLIST);
    var size := ListSize(l, nodes);
    f.RsWriteInt(size);
    WriteObjects(f, l, nodes);
  }

  method WriteRoomReference(f: SaveFile, r: RoomRef)
    requires f.Valid()
    modifies f`out, f`log
    ensures f.Valid() && f.log == old(f.log) + [IntCell(RoomCode(r))]
  {
    var room := -1;
    for i := 0 to MAXROOMS
      invariant room == if r.InRooms? && 0 <= r.i < i then r.i else -1
    {
      if r == InRooms(i) {
        room := i;
      }
    }
    f.RsWriteInt(room);
  }

  /** Finds what a pointer points to: the hero, a monster, an object on the floor, the gold of a room. */
  method WriteDest(f: SaveFile, d: Dest, mlist: Creature?, lvlObj: Item?, ghost mons: seq<Creature>, ghost objs: seq<Item>)
    requires f.Valid() && CreatureList(mlist, mons) && ItemList(lvlObj, objs) && SmallLists(mons, objs)
    modifies f`out, f`log
    ensures var code := DestCode(d, mons, objs);
      f.Valid() && f.log == old(f.log) + [IntCell(code.0), IntCell(code.1)]
  {
    hide SaveFile.Valid;
    var list, index := 0, 0;
    if d == ToHero {
      index := 1;
    } else if d != NoDest {
      var i := -1;
      if d.ToCreature? {
        i := FindCreature(mlist, d.c, mons);
      }
      if i >= 0 {
        list, index := 1, i;
      } else {
        if d.ToItem? {
          i := FindItem(lvlObj, d.o, objs);
        }
        if i >= 0 {
          list, index := 2, i;
        } else {
          i := FindGold(d);
          if i >= 0 {
            list, index := 3, i;
          } else {
            index := 1;
          }
        }
      }
    }
    f.RsWriteInt(list);
    f.RsWriteInt(index);
  }

  /** The room whose gold the pointer points to, or -1. */
  method FindGold(d: Dest) returns (i: int)
    ensures i == if d.ToGold? && 0 <= d.room < MAXROOMS then d.room else -1
  {
    i := 0;
    while i < MAXROOMS
      invariant 0 <= i <= MAXROOMS && (d.ToGold? && 0 <= d.room < MAXROOMS ==> i <= d.room)
    {
      if d == ToGold(i) {
        return;
      }
      i := i + 1;
    }
    i := -1;
  }

  method WriteLooks(f: SaveFile, b: Body)
    requires f.Valid()
    modifies f`out, f`log
    ensures f.Valid() && f.log == old(f.log) + LooksCells(b)
  {
    hide SaveFile.Valid;
    WritePosition(f, b.pos);
    f.RsWriteBoolean(b.turn);
    f.RsWriteChar(b.kind);
    f.RsWriteChar(b.disguise);
    f.RsWriteChar(b.oldch);
  }

  /** Everything about a creature before its pack. */
  method WriteHead(f: SaveFile, t: Creature, mlist: Creature?, lvlObj: Item?, ghost mons: seq<Creature>, ghost objs: seq<Item>)
    requires f.Valid() && CreatureList(mlist, mons) && ItemList(lvlObj, objs) && SmallLists(mons, objs)
    modifies f`out, f`log
    ensures f.Valid() && f.log == old(f.log) + HeadCells(Rec(t, mons, objs))
  {
    hide SaveFile.Valid, LooksCells, StatsCells, HeadCells, DestCode, RoomCode, CreatureList, ItemList, SmallLists;
    var b, d, room := t.body, t.dest, t.room;
    f.RsWriteMarker(MARK_THING);
    f.RsWriteInt(1);
    WriteLooks(f, b);
    WriteDest(f, d, mlist, lvlObj, mons, objs);
    f.RsWriteShort(b.flags);
    WriteStats(f, b.stats);
    WriteRoomReference(f, room);
    HeadJoins(old(f.log), Rec(t, mons, objs));
  }

  lemma HeadJoins(log: seq<Cell>, r: CreatureRec)
    ensures log + [IntCell(MARK_THING)] + [IntCell(1)] + LooksCells(r.body) + [IntCell(r.destList), IntCell(r.destIndex)]
              + [ShortCell(r.body.flags)] + StatsCells(r.body.stats) + [IntCell(r.room)]
         == log + HeadCells(r)
  {
    hide LooksCells, StatsCells;
  }

  method WriteThing(f: SaveFile, t: Creature, mlist: Creature?, lvlObj: Item?, ghost mons: seq<Creature>, ghost objs: seq<Item>)
    requires f.Valid() && CreatureList(mlist, mons) && ItemList(lvlObj, objs) && SmallLists(mons, objs)
    requires ItemList(t.pack, t.items) && |t.items| < 0x8000_0000
    modifies f`out, f`log
    ensures f.Valid() && f.log == old(f.log) + CreatureCells(Rec(t, mons, objs))
  {
    hide SaveFile.Valid, HeadCells, ObjectListCells, DestCode, RoomCode, CreatureList, ItemList, Datas;
    WriteHead(f, t, mlist, lvlObj, mons, objs);
    WriteObjectList(f, t.pack, t.items);
  }
}

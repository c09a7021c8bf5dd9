/** Reading a level back: lists built node by node, numbers turned into pointers. */
module SaveRead {
  import opened SaveCipher
  import opened SaveStream
  import opened SaveRecords
  import opened SaveHeap
  import opened SaveWrite

  /** The cells stand in the script from a place on. */
  ghost predicate Stands(script: seq<Cell>, at: nat, cs: seq<Cell>) {
    at + |cs| <= |script| && script[at..at + |cs|] == cs
  }

  lemma StandsBoth(script: seq<Cell>, at: nat, a: seq<Cell>, b: seq<Cell>)
    requires Stands(script, at, a + b)
    ensures Stands(script, at, a) && Stands(script, at + |a|, b)
  {
    var all := script[at..at + |a + b|];
    assert all[..|a|] == a && all[|a|..] == b;
    assert script[at..at + |a|] == all[..|a|];
    assert script[at + |a|..at + |a| + |b|] == all[|a|..];
  }

  lemma StandsAt(script: seq<Cell>, at: nat, cs: seq<Cell>, k: nat)
    requires Stands(script, at, cs) && k < |cs|
    ensures at + k < |script| && script[at + k] == cs[k]
  {
    assert script[at..at + |cs|][k] == script[at + k];
  }

  /** Reading is in step, and these cells come next. */
  ghost predicate Upcoming(f: LoadFile, cs: seq<Cell>)
    reads f
  {
    f.OnTrack() && Stands(f.script, f.at, cs)
  }

  lemma InStep(f: LoadFile)
    requires f.OnTrack()
    ensures !f.state.Failed()
  {
  }

  lemma PosStand(script: seq<Cell>, at: nat, p: Position)
    requires Stands(script, at, PosCells(p))
    ensures script[at] == IntCell(p.x) && script[at + 1] == IntCell(p.y)
  {
    StandsAt(script, at, PosCells(p), 0);
    StandsAt(script, at, PosCells(p), 1);
  }

  lemma PosStands(script: seq<Cell>, at: nat, p: Position)
    requires at + 2 <= |script| && script[at] == IntCell(p.x) && script[at + 1] == IntCell(p.y)
    ensures Stands(script, at, PosCells(p))
  {
  }

  lemma StatsStand(script: seq<Cell>, at: nat, s: Stats)
    requires Stands(script, at, StatsCells(s))
    ensures script[at] == IntCell(MARK_STATS) && script[at + 1] == UIntCell(s.str) && script[at + 2] == IntCell(s.exp)
    ensures script[at + 3] == IntCell(s.lvl) && script[at + 4] == IntCell(s.arm) && script[at + 5] == IntCell(s.hpt)
    ensures script[at + 6] == CharsCell(s.dmg) && script[at + 7] == IntCell(s.maxhp)
  {
    hide Stands;
    var all := StatsCells(s);
    StandsAt(script, at, all, 0); StandsAt(script, at, all, 1); StandsAt(script, at, all, 2);
    StandsAt(script, at, all, 3); StandsAt(script, at, all, 4); StandsAt(script, at, all, 5);
    StandsAt(script, at, all, 6); StandsAt(script, at, all, 7);
  }

  method ReadPosition(f: LoadFile, before: Position, ghost p: Position) returns (r: Position)
    modifies f`state, f`at
    ensures old(f.state.Failed()) ==> f.state.Failed()
    ensures old(Upcoming(f, PosCells(p))) ==> r == p && f.OnTrack() && f.at == old(f.at) + 2
  {
    hide LoadFile.OnTrack, PosCells;
    if Upcoming(f, PosCells(p)) {
      InStep(f);
      PosStand(f.script, f.at, p);
    }
    r := before;
    if f.state.Failed() {
      return;
    }
    var x := f.RsReadInt();
    var y := f.RsReadInt();
    if f.OnTrack() {
      InStep(f);
    }
    if !f.state.Failed() {
      r := Position(x, y);
    }
  }

  method ReadStats(f: LoadFile, before: Stats, ghost s: Stats) returns (r: Stats)
    modifies f`state, f`at
    ensures old(f.state.Failed()) ==> f.state.Failed()
    ensures old(Upcoming(f, StatsCells(s))) ==> r == s && f.OnTrack() && f.at == old(f.at) + 8
  {
    hide LoadFile.OnTrack;
    if Upcoming(f, StatsCells(s)) {
      InStep(f);
      StatsStand(f.script, f.at, s);
    }
    hide StatsCells;
    r := before;
    if f.state.Failed() {
      return;
    }
    f.RsReadMarker(MARK_STATS);
    var str := f.RsReadUInt();
    var exp := f.RsReadInt();
    var lvl := f.RsReadInt();
    var arm := f.RsReadInt();
    var hpt := f.RsReadInt();
    var dmg := f.RsReadChars(13);
    var maxhp := f.RsReadInt();
    r := Stats(str, exp, lvl, arm, hpt, if |dmg| == 13 then dmg else before.dmg, maxhp);
  }

  lemma ObjectStands(script: seq<Cell>, at: nat, d: ObjectData)
    requires Stands(script, at, ObjectCells(d))
    ensures script[at] == IntCell(MARK_OBJECT) && script[at + 1] == IntCell(d.kind)
    ensures Stands(script, at + 2, PosCells(d.pos))
    ensures script[at + 4] == IntCell(d.launch) && script[at + 5] == CharCell(d.packch)
    ensures script[at + 6] == CharsCell(d.damage) && script[at + 7] == CharsCell(d.hurldmg)
    ensures script[at + 8] == IntCell(d.count) && script[at + 9] == IntCell(d.which) && script[at + 10] == IntCell(d.hplus)
    ensures script[at + 11] == IntCell(d.dplus) && script[at + 12] == IntCell(d.arm) && script[at + 13] == IntCell(d.flags)
    ensures script[at + 14] == IntCell(d.group) && script[at + 15] == StringCell(d.name)
  {
    hide Stands;
    var all := ObjectCells(d);
    StandsAt(script, at, all, 0); StandsAt(script, at, all, 1); StandsAt(script, at, all, 2);
    StandsAt(script, at, all, 3); StandsAt(script, at, all, 4); StandsAt(script, at, all, 5);
    StandsAt(script, at, all, 6); StandsAt(script, at, all, 7); StandsAt(script, at, all, 8);
    StandsAt(script, at, all, 9); StandsAt(script, at, all, 10); StandsAt(script, at, all, 11);
    StandsAt(script, at, all, 12); StandsAt(script, at, all, 13); StandsAt(script, at, all, 14);
    StandsAt(script, at, all, 15);
    PosStands(script, at + 2, d.pos);
  }

  method ReadObject(f: LoadFile, o: Item, ghost d: ObjectData)
    modifies f`state, f`at, o`data
    ensures old(f.state.Failed()) ==> f.state.Failed()
    ensures old(Upcoming(f, ObjectCells(d))) ==> o.data == d && f.OnTrack() && f.at == old(f.at) + 16
  {
    hide LoadFile.OnTrack, ObjectCells, PosCells;
    if Upcoming(f, ObjectCells(d)) {
      InStep(f);
      ObjectStands(f.script, f.at, d);
    }
    hide Stands;
    if f.state.Failed() {
      return;
    }
    var before := o.data;
    f.RsReadMarker(MARK_OBJECT);
    var kind := f.RsReadInt();
    var pos := ReadPosition(f, before.pos, d.pos);
    var launch := f.RsReadInt();
    var packch := f.RsReadChar();
    var damage := f.RsReadChars(8);
    var hurldmg := f.RsReadChars(8);
    var count := f.RsReadInt();
    var which := f.RsReadInt();
    var hplus := f.RsReadInt();
    var dplus := f.RsReadInt();
    var arm := f.RsReadInt();
    var flags := f.RsReadInt();
    var group := f.RsReadInt();
    var name := f.RsReadNewString();
    o.data := ObjectData(kind, pos, launch, packch, if |damage| == 8 then damage else before.damage,
      if |hurldmg| == 8 then hurldmg else before.hurldmg, count, which, hplus, dplus, arm, flags, group, name);
  }

  const BLANK: ObjectData := ObjectData(
    0, Position(0, 0), 0, 0, [0, 0, 0, 0, 0, 0, 0, 0], [0, 0, 0, 0, 0, 0, 0, 0], 0, 0, 0, 0, 0, 0, 0, NoText)

  /** Linking a node in behind the last one, before anything is read into it. */
  method AppendItem(head: Item?, previous: Item?, ghost nodes: seq<Item>) returns (l: Item, newHead: Item?)
    requires ItemList(head, nodes) && previous == ItemAt(nodes, |nodes| - 1)
    modifies (if previous == null then {} else {previous})`next
    ensures fresh(l) && ItemList(newHead, nodes + [l]) && l.text == NoText
  {
    l := new Item(BLANK);
    l.prev := previous;
    if previous != null {
      previous.next := l;
    }
    newHead := if previous == null then l else head;
    AppendedItem(nodes, l, newHead);
  }

  /** A list whose last node points on to one more. */
  lemma AppendedItem(nodes: seq<Item>, l: Item, newHead: Item)
    requires l !in nodes && (forall i, j :: 0 <= i < j < |nodes| ==> nodes[i] != nodes[j])
    requires forall i :: 0 <= i < |nodes| - 1 ==> nodes[i].next == ItemAt(nodes, i + 1)
    requires nodes != [] ==> nodes[|nodes| - 1].next == l
    requires forall i :: 0 <= i < |nodes| ==> nodes[i].prev == ItemAt(nodes, i - 1)
    requires l.next == null && l.prev == ItemAt(nodes, |nodes| - 1)
    requires newHead == if nodes == [] then l else nodes[0]
    ensures ItemList(newHead, nodes + [l])
  {
  }

  /** The objects from number k on stand next in the script, up to a given end. */
  ghost predicate ObjectsStand(script: seq<Cell>, at: nat, ds: seq<ObjectData>, k: nat, end: nat) {
    k <= |ds| && Stands(script, at, ObjectsCells(ds[k..])) && at + |ObjectsCells(ds[k..])| == end
  }

  lemma NextObjectStands(script: seq<Cell>, at: nat, ds: seq<ObjectData>, k: nat, end: nat)
    requires ObjectsStand(script, at, ds, k, end)
    ensures k < |ds| ==> Stands(script, at, ObjectCells(ds[k])) && ObjectsStand(script, at + 16, ds, k + 1, end)
    ensures k == |ds| ==> at == end
  {
    if k < |ds| {
      assert ds[k..][1..] == ds[k + 1..];
      assert ObjectsCells(ds[k..]) == ObjectCells(ds[k]) + ObjectsCells(ds[k + 1..]);
      hide ObjectCells, ObjectsCells;
      StandsBoth(script, at, ObjectCells(ds[k]), ObjectsCells(ds[k + 1..]));
    }
  }

  lemma ObjectListStands(script: seq<Cell>, at: nat, ds: seq<ObjectData>)
    requires |ds| < 0x8000_0000 && Stands(script, at, ObjectListCells(ds))
    ensures at + 2 <= |script| && script[at] == IntCell(MARK_OBJECTLIST) && script[at + 1] == IntCell(|ds|)
    ensures ObjectsStand(script, at + 2, ds, 0, at + |ObjectListCells(ds)|)
  {
    hide ObjectsCells;
    var front: seq<Cell> := [IntCell(MARK_OBJECTLIST), IntCell(|ds|)];
    StandsBoth(script, at, front, ObjectsCells(ds));
    StandsAt(script, at, front, 0);
    StandsAt(script, at, front, 1);
    assert ds[0..] == ds;
  }

  /** The nodes read so far are the first objects of the list. */
  ghost predicate Holds(nodes: seq<Item>, ds: seq<ObjectData>)
    reads nodes`data, nodes`text
  {
    |nodes| <= |ds| && forall i :: 0 <= i < |nodes| ==> nodes[i].data == ds[i] && nodes[i].text == NoText
  }

  lemma HoldsMore(nodes: seq<Item>, l: Item, ds: seq<ObjectData>)
    requires Holds(nodes, ds) && |nodes| < |ds| && l.data == ds[|nodes|] && l.text == NoText
    ensures Holds(nodes + [l], ds)
  {
  }

  lemma EmptyList()
    ensures ItemList(null, []) && forall ds :: Holds([], ds)
  {
  }

  /** One round of the loop that reads a list of objects. */
  method NextObject(f: LoadFile, head: Item?, previous: Item?, ghost nodes: seq<Item>, ghost ds: seq<ObjectData>,
                    ghost end: nat, ghost good: bool) returns (l: Item, newHead: Item?)
    requires ItemList(head, nodes) && previous == ItemAt(nodes, |nodes| - 1)
    requires good ==> |nodes| < |ds| && Holds(nodes, ds) && f.OnTrack() && ObjectsStand(f.script, f.at, ds, |nodes|, end)
    modifies f`state, f`at, (if previous == null then {} else {previous})`next
    ensures fresh(l) && ItemList(newHead, nodes + [l])
    ensures old(f.state.Failed()) ==> f.state.Failed()
    ensures good ==> Holds(nodes + [l], ds) && f.OnTrack() && ObjectsStand(f.script, f.at, ds, |nodes| + 1, end)
  {
    hide LoadFile.OnTrack, ObjectListCells, ObjectCells, Stands, ObjectsStand, ItemList, Holds;
    ghost var i := |nodes|;
    if good {
      NextObjectStands(f.script, f.at, ds, i, end);
    }
    l, newHead := AppendItem(head, previous, nodes);
    ReadObject(f, l, if i < |ds| then ds[i] else BLANK);
    if good {
      HoldsMore(nodes, l, ds);
    }
  }

  /** Reads as many objects as the count says. */
  method ReadObjectList(f: LoadFile, ghost ds: seq<ObjectData>) returns (head: Item?, ghost nodes: seq<Item>)
    requires |ds| < 0x8000_0000
    modifies f`state, f`at
    ensures fresh(nodes) && ItemList(head, nodes)
    ensures old(f.state.Failed()) ==> f.state.Failed()
    ensures old(Upcoming(f, ObjectListCells(ds))) ==>
      f.OnTrack() && f.at == old(f.at) + |ObjectListCells(ds)| && |nodes| == |ds| && Holds(nodes, ds)
  {
    hide LoadFile.OnTrack, ObjectListCells, ObjectCells, Stands, ObjectsStand, ItemList, Holds;
    ghost var good := Upcoming(f, ObjectListCells(ds));
    ghost var end := f.at + |ObjectListCells(ds)|;
    head, nodes := null, [];
    EmptyList();
    if good {
      InStep(f);
      ObjectListStands(f.script, f.at, ds);
    }
    if f.state.Failed() {
      return;
    }
    f.RsReadMarker(MARK_OBJECTLIST);
    var cnt := f.RsReadInt();
    var previous: Item? := null;
    var i := 0;
    while i < cnt
      invariant |nodes| == i && fresh(nodes) && ItemList(head, nodes) && previous == ItemAt(nodes, |nodes| - 1)
      invariant good ==> cnt == |ds| && i <= |ds| && Holds(nodes, ds)
      invariant good ==> f.OnTrack() && ObjectsStand(f.script, f.at, ds, i, end)
    {
      var l, newHead := NextObject(f, head, previous, nodes, ds, end, good);
      head, previous, nodes := newHead, l, nodes + [l];
      i := i + 1;
    }
    if good {
      NextObjectStands(f.script, f.at, ds, |ds|, end);
    }
  }

  // ----- creatures

  lemma LooksStand(script: seq<Cell>, at: nat, b: Body)
    requires Stands(script, at, LooksCells(b))
    ensures Stands(script, at, PosCells(b.pos)) && script[at + 2] == BoolCell(b.turn) && script[at + 3] == CharCell(b.kind)
    ensures script[at + 4] == CharCell(b.disguise) && script[at + 5] == CharCell(b.oldch)
  {
    hide Stands;
    var all := LooksCells(b);
    StandsAt(script, at, all, 0); StandsAt(script, at, all, 1); StandsAt(script, at, all, 2);
    StandsAt(script, at, all, 3); StandsAt(script, at, all, 4); StandsAt(script, at, all, 5);
    PosStands(script, at, b.pos);
  }

  method ReadLooks(f: LoadFile, before: Body, ghost b: Body) returns (r: Body)
    modifies f`state, f`at
    ensures old(f.state.Failed()) ==> f.state.Failed()
    ensures old(Upcoming(f, LooksCells(b))) ==>
      r == b.(flags := before.flags, stats := before.stats) && f.OnTrack() && f.at == old(f.at) + 6
  {
    hide LoadFile.OnTrack, LooksCells, PosCells;
    if Upcoming(f, LooksCells(b)) {
      LooksStand(f.script, f.at, b);
    }
    var pos := ReadPosition(f, before.pos, b.pos);
    var turn := f.RsReadBoolean();
    var kind := f.RsReadChar();
    var disguise := f.RsReadChar();
    var oldch := f.RsReadChar();
    r := before.(pos := pos, turn := turn, kind := kind, disguise := disguise, oldch := oldch);
  }

  lemma HeadStands(script: seq<Cell>, at: nat, r: CreatureRec)
    requires Stands(script, at, HeadCells(r))
    ensures at + 20 <= |script| && script[at] == IntCell(MARK_THING) && script[at + 1] == IntCell(1)
    ensures Stands(script, at + 2, LooksCells(r.body))
    ensures Stands(script, at + 8, [IntCell(r.destList), IntCell(r.destIndex)])
    ensures script[at + 10] == ShortCell(r.body.flags) && Stands(script, at + 11, StatsCells(r.body.stats))
    ensures script[at + 19] == IntCell(r.room)
  {
    hide LooksCells, StatsCells;
    var cs := HeadCells(r);
    forall k | 0 <= k < 20
      ensures script[at + k] == cs[k]
    {
      StandsAt(script, at, cs, k);
    }
    assert cs[0] == IntCell(MARK_THING) && cs[1] == IntCell(1) && cs[8] == IntCell(r.destList) && cs[9] == IntCell(r.destIndex);
    assert cs[10] == ShortCell(r.body.flags) && cs[19] == IntCell(r.room);
    assert script[at..at + 20] == cs;
    assert cs[2..8] == LooksCells(r.body) && cs[11..19] == StatsCells(r.body.stats);
    assert script[at + 2..at + 8] == cs[2..8] && script[at + 11..at + 19] == cs[11..19];
  }

  /** What a creature is made to chase as it is read; monsters have to wait until all of them are there. */
  ghost function DestRead(list: int, index: int, objs: seq<Item>, before: Dest): Dest {
    if list == 0 then (if index == 1 then ToHero else NoDest)
    else if list == 1 then NoDest
    else if list == 2 then (if 0 <= index < |objs| then ToItem(objs[index]) else before)
    else if list == 3 then ToGold(index)
    else NoDest
  }

  method ReadDest(f: LoadFile, t: Creature, lvlObj: Item?, ghost objs: seq<Item>, ghost list: Int32, ghost index: Int32)
    requires ItemList(lvlObj, objs)
    modifies f`state, f`at, t`dest, t`reserved
    ensures old(f.state.Failed()) ==> f.state.Failed()
    ensures old(Upcoming(f, [IntCell(list), IntCell(index)])) ==>
      && f.OnTrack() && f.at == old(f.at) + 2 && t.dest == DestRead(list, index, objs, old(t.dest))
      && t.reserved == if list == 1 then index else -1
  {
    hide LoadFile.OnTrack;
    if Upcoming(f, [IntCell(list), IntCell(index)]) {
      StandsAt(f.script, f.at, [IntCell(list), IntCell(index)], 0);
      StandsAt(f.script, f.at, [IntCell(list), IntCell(index)], 1);
    }
    var listid := f.RsReadInt();
    var i := f.RsReadInt();
    t.reserved := -1;
    if listid == 0 {
      t.dest := if i == 1 then ToHero else NoDest;
    } else if listid == 1 {
      t.dest := NoDest;
      t.reserved := i;
    } else if listid == 2 {
      var item := GetItem(lvlObj, i, objs);
      if item != null {
        t.dest := ToItem(item);
      }
    } else if listid == 3 {
      t.dest := ToGold(i);
    } else {
      t.dest := NoDest;
    }
  }

  ghost predicate Bodied(t: Creature, r: CreatureRec)
    reads t`body, t`room
  {
    t.body == r.body && t.room == InRooms(r.room)
  }

  /** The chase target is set, but for a chased monster, which is only a number yet. */
  ghost predicate Aimed(t: Creature, r: CreatureRec, objs: seq<Item>, before: Dest)
    reads t`dest, t`reserved
  {
    && t.dest == DestRead(r.destList, r.destIndex, objs, before)
    && t.reserved == if r.destList == 1 then r.destIndex else -1
  }

  ghost predicate Packed(t: Creature, r: CreatureRec)
    reads t`pack, t`items, t.items
  {
    ItemList(t.pack, t.items) && |t.items| == |r.pack| && Holds(t.items, r.pack)
  }

  /** The creature is as its record says, but for the fix-up still to come. */
  ghost predicate Raised(t: Creature, r: CreatureRec, objs: seq<Item>, before: Dest)
    reads t`body, t`dest, t`room, t`pack, t`reserved, t`items, t.items
  {
    Bodied(t, r) && Aimed(t, r, objs, before) && Packed(t, r)
  }

  /** Everything about a creature before its pack; false for a record of no creature. */
  method ReadHead(f: LoadFile, t: Creature, lvlObj: Item?, ghost objs: seq<Item>, ghost r: CreatureRec) returns (some: bool)
    requires ItemList(lvlObj, objs)
    modifies f`state, f`at, t`body, t`dest, t`room, t`reserved
    ensures old(f.state.Failed()) ==> f.state.Failed()
    ensures old(Upcoming(f, HeadCells(r))) ==>
      some && f.OnTrack() && f.at == old(f.at) + 20 && Bodied(t, r) && Aimed(t, r, objs, old(t.dest))
  {
    hide LoadFile.OnTrack, HeadCells, LooksCells, StatsCells, ItemList, DestRead;
    some := true;
    if Upcoming(f, HeadCells(r)) {
      InStep(f);
      HeadStands(f.script, f.at, r);
    }
    hide Stands;
    f.RsReadMarker(MARK_THING);
    var index := f.RsReadInt();
    if index == 0 {
      return false;
    }
    var b := ReadLooks(f, t.body, r.body);
    ReadDest(f, t, lvlObj, objs, r.destList, r.destIndex);
    var flags := f.RsReadShort();
    var stats := ReadStats(f, b.stats, r.body.stats);
    t.body := b.(flags := flags, stats := stats);
    var room := f.RsReadInt();
    t.room := InRooms(room);
  }

  method ReadThing(f: LoadFile, t: Creature, lvlObj: Item?, ghost objs: seq<Item>, ghost r: CreatureRec)
    requires ItemList(lvlObj, objs) && |r.pack| < 0x8000_0000
    modifies f`state, f`at, t`body, t`dest, t`room, t`pack, t`reserved, t`items
    ensures old(f.state.Failed()) ==> f.state.Failed()
    ensures old(ItemList(t.pack, t.items)) ==> ItemList(t.pack, t.items)
    ensures t.items == old(t.items) || fresh(t.items)
    ensures old(Upcoming(f, CreatureCells(r))) ==>
      f.OnTrack() && f.at == old(f.at) + |CreatureCells(r)| && Raised(t, r, objs, old(t.dest)) && fresh(t.items)
  {
    hide LoadFile.OnTrack, HeadCells, ObjectListCells, ItemList, Holds, Bodied, Aimed;
    if Upcoming(f, CreatureCells(r)) {
      InStep(f);
      StandsBoth(f.script, f.at, HeadCells(r), ObjectListCells(r.pack));
    }
    hide Stands;
    if f.state.Failed() {
      return;
    }
    var some := ReadHead(f, t, lvlObj, objs, r);
    if !some {
      return;
    }
    var pack, items := ReadObjectList(f, r.pack);
    t.pack, t.items := pack, items;
  }

  const BLANK_BODY: Body := Body(
    Position(0, 0), false, 0, 0, 0, 0, Stats(0, 0, 0, 0, 0, [0, 0, 0, 0, 0, 0, 0, 0, 0, 0, 0, 0, 0], 0))

  method AppendCreature(head: Creature?, previous: Creature?, ghost nodes: seq<Creature>)
    returns (l: Creature, newHead: Creature?)
    requires CreatureList(head, nodes) && previous == CreatureAt(nodes, |nodes| - 1)
    modifies (if previous == null then {} else {previous})`next
    ensures fresh(l) && CreatureList(newHead, nodes + [l]) && l.dest == NoDest && l.items == []
  {
    l := new Creature(BLANK_BODY);
    l.prev := previous;
    if previous != null {
      previous.next := l;
    }
    newHead := if previous == null then l else head;
    AppendedCreature(nodes, l, newHead);
  }

  lemma AppendedCreature(nodes: seq<Creature>, l: Creature, newHead: Creature)
    requires l !in nodes && (forall i, j :: 0 <= i < j < |nodes| ==> nodes[i] != nodes[j])
    requires forall i :: 0 <= i < |nodes| - 1 ==> nodes[i].next == CreatureAt(nodes, i + 1)
    requires nodes != [] ==> nodes[|nodes| - 1].next == l
    requires forall i :: 0 <= i < |nodes| ==> nodes[i].prev == CreatureAt(nodes, i - 1)
    requires l.next == null && l.prev == CreatureAt(nodes, |nodes| - 1)
    requires newHead == if nodes == [] then l else nodes[0]
    ensures CreatureList(newHead, nodes + [l])
  {
  }

  ghost predicate CreaturesStand(script: seq<Cell>, at: nat, rs: seq<CreatureRec>, k: nat, end: nat) {
    k <= |rs| && SmallPacks(rs[k..]) && Stands(script, at, CreaturesCells(rs[k..])) && at + |CreaturesCells(rs[k..])| == end
  }

  lemma NextCreatureStands(script: seq<Cell>, at: nat, rs: seq<CreatureRec>, k: nat, end: nat)
    requires CreaturesStand(script, at, rs, k, end)
    ensures k < |rs| ==> |rs[k].pack| < 0x8000_0000
    ensures k < |rs| ==> Stands(script, at, CreatureCells(rs[k]))
    ensures k < |rs| ==> CreaturesStand(script, at + |CreatureCells(rs[k])|, rs, k + 1, end)
    ensures k == |rs| ==> at == end
  {
    hide CreatureCells;
    if k < |rs| {
      assert rs[k..][0] == rs[k] && rs[k..][1..] == rs[k + 1..];
      assert CreaturesCells(rs[k..]) == CreatureCells(rs[k]) + CreaturesCells(rs[k + 1..]);
      hide CreaturesCells;
      StandsBoth(script, at, CreatureCells(rs[k]), CreaturesCells(rs[k + 1..]));
    }
  }

  lemma CreatureListStands(script: seq<Cell>, at: nat, rs: seq<CreatureRec>)
    requires |rs| < 0x8000_0000 && SmallPacks(rs) && Stands(script, at, CreatureListCells(rs))
    ensures at + 2 <= |script| && script[at] == IntCell(MARK_MONSTERLIST) && script[at + 1] == IntCell(|rs|)
    ensures CreaturesStand(script, at + 2, rs, 0, at + |CreatureListCells(rs)|)
  {
    hide CreaturesCells;
    var front: seq<Cell> := [IntCell(MARK_MONSTERLIST), IntCell(|rs|)];
    StandsBoth(script, at, front, CreaturesCells(rs));
    StandsAt(script, at, front, 0);
    StandsAt(script, at, front, 1);
    assert rs[0..] == rs;
  }

  /** The creatures so far are as their records say, and carry nothing outside the pool. */
  ghost predicate RaisedAll(nodes: seq<Creature>, rs: seq<CreatureRec>, objs: seq<Item>, pool: set<Item>)
    reads nodes`body, nodes`dest, nodes`room, nodes`pack, nodes`reserved, nodes`items, pool
  {
    |nodes| <= |rs| && forall i :: 0 <= i < |nodes| ==>
      (forall x :: x in nodes[i].items ==> x in pool) && Raised(nodes[i], rs[i], objs, NoDest)
  }

  lemma RaisedMore(nodes: seq<Creature>, l: Creature, rs: seq<CreatureRec>, objs: seq<Item>, pool: set<Item>)
    requires RaisedAll(nodes, rs, objs, pool) && |nodes| < |rs| && Raised(l, rs[|nodes|], objs, NoDest)
    ensures RaisedAll(nodes + [l], rs, objs, pool + set x | x in l.items)
  {
    hide Raised;
  }

  lemma NoCreatures(rs: seq<CreatureRec>, objs: seq<Item>)
    ensures CreatureList(null, []) && RaisedAll([], rs, objs, {}) && Separate([], {})
  {
  }

  ghost predicate Apart(xs: seq<Item>, ys: seq<Item>) { forall x :: x in xs ==> x !in ys }

  /** No two of the creatures carry the same thing, and all they carry is in the pool. */
  ghost predicate Separate(nodes: seq<Creature>, pool: set<Item>)
    reads nodes`items
  {
    && (forall i, x :: 0 <= i < |nodes| && x in nodes[i].items ==> x in pool)
    && forall i, j :: 0 <= i < j < |nodes| ==> Apart(nodes[i].items, nodes[j].items)
  }

  lemma SeparateMore(nodes: seq<Creature>, l: Creature, pool: set<Item>)
    requires Separate(nodes, pool) && forall x :: x in l.items ==> x !in pool
    ensures Separate(nodes + [l], pool + set x | x in l.items)
  {
  }

  const BLANK_REC: CreatureRec := CreatureRec(BLANK_BODY, 0, 0, 0, [])

  /** One turn of the loop: a creature is linked in behind the last, and read. */
  method NextThing(f: LoadFile, head: Creature?, previous: Creature?, lvlObj: Item?, ghost nodes: seq<Creature>,
                   ghost objs: seq<Item>, ghost r: CreatureRec) returns (l: Creature, newHead: Creature?)
    requires CreatureList(head, nodes) && previous == CreatureAt(nodes, |nodes| - 1)
    requires ItemList(lvlObj, objs) && |r.pack| < 0x8000_0000
    modifies f`state, f`at, (if previous == null then {} else {previous})`next
    ensures fresh(l) && fresh(l.items) && CreatureList(newHead, nodes + [l])
    ensures old(f.state.Failed()) ==> f.state.Failed()
    ensures old(Upcoming(f, CreatureCells(r))) ==>
      f.OnTrack() && f.at == old(f.at) + |CreatureCells(r)| && Raised(l, r, objs, NoDest)
  {
    hide LoadFile.OnTrack, CreatureCells, Stands, ItemList, Raised;
    l, newHead := AppendCreature(head, previous, nodes);
    ReadThing(f, l, lvlObj, objs, r);
  }

  /** One round of the loop that reads the list of monsters. */
  method NextInList(f: LoadFile, head: Creature?, previous: Creature?, lvlObj: Item?, ghost nodes: seq<Creature>,
                    ghost objs: seq<Item>, ghost rs: seq<CreatureRec>, ghost pool: set<Item>, ghost end: nat,
                    ghost good: bool) returns (l: Creature, newHead: Creature?)
    requires CreatureList(head, nodes) && previous == CreatureAt(nodes, |nodes| - 1)
    requires ItemList(lvlObj, objs) && Separate(nodes, pool)
    requires good ==> |nodes| < |rs| && RaisedAll(nodes, rs, objs, pool)
    requires good ==> f.OnTrack() && CreaturesStand(f.script, f.at, rs, |nodes|, end)
    modifies f`state, f`at, (if previous == null then {} else {previous})`next
    ensures fresh(l) && fresh(l.items) && CreatureList(newHead, nodes + [l])
    ensures old(f.state.Failed()) ==> f.state.Failed()
    ensures Separate(nodes + [l], pool + set x | x in l.items)
    ensures good ==> RaisedAll(nodes + [l], rs, objs, pool + set x | x in l.items)
    ensures good ==> f.OnTrack() && CreaturesStand(f.script, f.at, rs, |nodes| + 1, end)
  {
    hide LoadFile.OnTrack, CreatureCells, Stands, CreaturesStand, CreatureList, ItemList;
    hide RaisedAll, Raised, Separate;
    ghost var i := |nodes|;
    if good {
      NextCreatureStands(f.script, f.at, rs, i, end);
    }
    l, newHead := NextThing(f, head, previous, lvlObj, nodes, objs, if good then rs[i] else BLANK_REC);
    if good {
      RaisedMore(nodes, l, rs, objs, pool);
    }
    SeparateMore(nodes, l, pool);
  }

  /** Reads as many creatures as the count says, linking each to the one before. */
  method ReadThingList(f: LoadFile, lvlObj: Item?, ghost objs: seq<Item>, ghost rs: seq<CreatureRec>)
    returns (head: Creature?, ghost nodes: seq<Creature>, ghost pool: set<Item>)
    requires ItemList(lvlObj, objs) && |rs| < 0x8000_0000 && SmallPacks(rs)
    modifies f`state, f`at
    ensures fresh(nodes) && CreatureList(head, nodes) && fresh(pool) && Separate(nodes, pool)
    ensures old(f.state.Failed()) ==> f.state.Failed()
    ensures old(Upcoming(f, CreatureListCells(rs))) ==>
      && f.OnTrack() && f.at == old(f.at) + |CreatureListCells(rs)| && |nodes| == |rs|
      && forall i :: 0 <= i < |nodes| ==> Raised(nodes[i], rs[i], objs, NoDest)
  {
    hide LoadFile.OnTrack, CreatureListCells, CreatureCells, Stands, CreaturesStand, CreatureList, ItemList;
    hide RaisedAll, Raised, Separate, SmallPacks;
    ghost var good := Upcoming(f, CreatureListCells(rs));
    ghost var end := f.at + |CreatureListCells(rs)|;
    head, nodes, pool := null, [], {};
    NoCreatures(rs, objs);
    if good {
      InStep(f);
      CreatureListStands(f.script, f.at, rs);
    }
    if f.state.Failed() {
      return;
    }
    f.RsReadMarker(MARK_MONSTERLIST);
    var cnt := f.RsReadInt();
    var previous: Creature? := null;
    var i := 0;
    while i < cnt
      invariant |nodes| == i && fresh(nodes) && CreatureList(head, nodes) && previous == CreatureAt(nodes, |nodes| - 1)
      invariant good ==> cnt == |rs| && i <= |rs| && RaisedAll(nodes, rs, objs, pool)
      invariant good ==> f.OnTrack() && CreaturesStand(f.script, f.at, rs, i, end)
      invariant ItemList(lvlObj, objs) && fresh(pool) && Separate(nodes, pool)
    {
      var l, newHead := NextInList(f, head, previous, lvlObj, nodes, objs, rs, pool, end, good);
      pool := pool + set x | x in l.items;
      head, previous, nodes := newHead, l, nodes + [l];
      i := i + 1;
    }
    if good {
      NextCreatureStands(f.script, f.at, rs, |rs|, end);
      RaisedEach(nodes, rs, objs, pool);
    }
  }

  lemma RaisedEach(nodes: seq<Creature>, rs: seq<CreatureRec>, objs: seq<Item>, pool: set<Item>)
    requires RaisedAll(nodes, rs, objs, pool)
    ensures |nodes| <= |rs| && forall i :: 0 <= i < |nodes| ==> Raised(nodes[i], rs[i], objs, NoDest)
  {
    hide Raised;
  }
}

/** The level as it stands in memory: doubly linked lists, and pointers to what the monsters chase. */
module SaveHeap {
  import opened SaveCipher
  import opened SaveStream
  import opened SaveRecords

  const MAXROOMS: nat := 9

  class Item {
    var next: Item?
    var prev: Item?
    var data: ObjectData
    /** What a scroll says; never saved. */
    var text: Text

    constructor (d: ObjectData)
      ensures next == null && prev == null && data == d && text == NoText
    {
      next, prev, data, text := null, null, d, NoText;
    }
  }

  /** A pointer to the place a creature runs to: the coordinate inside another structure, or somewhere unknown. */
  datatype Dest = NoDest | ToHero | ToCreature(c: Creature) | ToItem(o: Item) | ToGold(room: int) | ToElsewhere

  /** A pointer into the array of rooms (or just outside it), or into the array of passages. */
  datatype RoomRef = NoRoom | InRooms(i: int) | InPassages(i: int)

  class Creature {
    var next: Creature?
    var prev: Creature?
    var body: Body
    var dest: Dest
    var room: RoomRef
    var pack: Item?
    var reserved: int
    ghost var items: seq<Item>

    constructor (b: Body)
      ensures next == null && prev == null && body == b && dest == NoDest && room == NoRoom
      ensures pack == null && reserved == 0 && items == []
    {
      next, prev, body, dest, room, pack, reserved, items := null, null, b, NoDest, NoRoom, null, 0, [];
    }
  }

  /** The nodes, in order, of a list that is linked both ways and ends in nothing. */
  ghost predicate ItemList(head: Item?, nodes: seq<Item>)
    reads nodes`next, nodes`prev
  {
    && (head == if nodes == [] then null else nodes[0])
    && (forall i, j :: 0 <= i < j < |nodes| ==> nodes[i] != nodes[j])
    && (forall i :: 0 <= i < |nodes| ==> nodes[i].next == ItemAt(nodes, i + 1))
    && (forall i :: 0 <= i < |nodes| ==> nodes[i].prev == ItemAt(nodes, i - 1))
  }

  ghost predicate CreatureList(head: Creature?, nodes: seq<Creature>)
    reads nodes`next, nodes`prev
  {
    && (head == if nodes == [] then null else nodes[0])
    && (forall i, j :: 0 <= i < j < |nodes| ==> nodes[i] != nodes[j])
    && (forall i :: 0 <= i < |nodes| ==> nodes[i].next == CreatureAt(nodes, i + 1))
    && (forall i :: 0 <= i < |nodes| ==> nodes[i].prev == CreatureAt(nodes, i - 1))
  }

  ghost function ItemAt(nodes: seq<Item>, i: int): Item? { if 0 <= i < |nodes| then nodes[i] else null }

  ghost function CreatureAt(nodes: seq<Creature>, i: int): Creature? { if 0 <= i < |nodes| then nodes[i] else null }

  ghost function Datas(nodes: seq<Item>): (ds: seq<ObjectData>)
    reads nodes`data
    ensures |ds| == |nodes|
  {
    if nodes == [] then [] else Datas(nodes[..|nodes| - 1]) + [nodes[|nodes| - 1].data]
  }

  lemma {:induction false} DataAt(nodes: seq<Item>, k: nat)
    requires k < |nodes|
    ensures Datas(nodes)[k] == nodes[k].data
  {
    if k < |nodes| - 1 {
      DataAt(nodes[..|nodes| - 1], k);
    }
  }

  /** Where a node stands in a list, or -1. */
  ghost function ItemIndex(nodes: seq<Item>, x: Item?): (k: int)
    ensures -1 <= k < |nodes|
    ensures k == -1 ==> forall i :: 0 <= i < |nodes| ==> nodes[i] != x
    ensures k != -1 ==> nodes[k] == x
  {
    if nodes == [] then -1
    else if nodes[|nodes| - 1] == x then |nodes| - 1
    else ItemIndex(nodes[..|nodes| - 1], x)
  }

  ghost function CreatureIndex(nodes: seq<Creature>, x: Creature?): (k: int)
    ensures -1 <= k < |nodes|
    ensures k == -1 ==> forall i :: 0 <= i < |nodes| ==> nodes[i] != x
    ensures k != -1 ==> nodes[k] == x
  {
    if nodes == [] then -1
    else if nodes[|nodes| - 1] == x then |nodes| - 1
    else CreatureIndex(nodes[..|nodes| - 1], x)
  }

  /** The step every walk along a list takes. */
  lemma NextItem(head: Item?, nodes: seq<Item>, k: nat)
    requires ItemList(head, nodes) && k <= |nodes|
    ensures head == ItemAt(nodes, 0)
    ensures k < |nodes| ==> nodes[k].next == ItemAt(nodes, k + 1)
  {
  }

  lemma NextCreature(head: Creature?, nodes: seq<Creature>, k: nat)
    requires CreatureList(head, nodes) && k <= |nodes|
    ensures head == CreatureAt(nodes, 0)
    ensures k < |nodes| ==> nodes[k].next == CreatureAt(nodes, k + 1)
  {
  }

  // ----- walking a list

  method ListSize(l: Item?, ghost nodes: seq<Item>) returns (count: nat)
    requires ItemList(l, nodes)
    ensures count == |nodes|
  {
    count := 0;
    var p := l;
    while p != null
      invariant 0 <= count <= |nodes| && p == ItemAt(nodes, count)
      decreases |nodes| - count
    {
      p := p.next;
      count := count + 1;
    }
  }

  method CreatureListSize(l: Creature?, ghost nodes: seq<Creature>) returns (count: nat)
    requires CreatureList(l, nodes)
    ensures count == |nodes|
  {
    count := 0;
    var p := l;
    while p != null
      invariant 0 <= count <= |nodes| && p == CreatureAt(nodes, count)
      decreases |nodes| - count
    {
      p := p.next;
      count := count + 1;
    }
  }

  method FindItem(l: Item?, x: Item?, ghost nodes: seq<Item>) returns (k: int)
    requires ItemList(l, nodes)
    ensures k == ItemIndex(nodes, x)
  {
    k := 0;
    var p := l;
    while p != null
      invariant 0 <= k <= |nodes| && p == ItemAt(nodes, k)
      invariant forall i :: 0 <= i < k ==> nodes[i] != x
      decreases |nodes| - k
    {
      if p == x {
        return;
      }
      p := p.next;
      k := k + 1;
    }
    k := -1;
  }

  method FindCreature(l: Creature?, x: Creature?, ghost nodes: seq<Creature>) returns (k: int)
    requires CreatureList(l, nodes)
    ensures k == CreatureIndex(nodes, x)
  {
    k := 0;
    var p := l;
    while p != null
      invariant 0 <= k <= |nodes| && p == CreatureAt(nodes, k)
      invariant forall i :: 0 <= i < k ==> nodes[i] != x
      decreases |nodes| - k
    {
      if p == x {
        return;
      }
      p := p.next;
      k := k + 1;
    }
    k := -1;
  }

  method GetItem(l: Item?, i: int, ghost nodes: seq<Item>) returns (x: Item?)
    requires ItemList(l, nodes)
    ensures x == ItemAt(nodes, i)
  {
    var count := 0;
    x := l;
    while x != null
      invariant 0 <= count <= |nodes| && x == ItemAt(nodes, count)
      invariant i < 0 || count <= i
      decreases |nodes| - count
    {
      if count == i {
        return;
      }
      x := x.next;
      count := count + 1;
    }
  }

  method GetCreature(l: Creature?, i: int, ghost nodes: seq<Creature>) returns (x: Creature?)
    requires CreatureList(l, nodes)
    ensures x == CreatureAt(nodes, i)
  {
    var count := 0;
    x := l;
    while x != null
      invariant 0 <= count <= |nodes| && x == CreatureAt(nodes, count)
      invariant i < 0 || count <= i
      decreases |nodes| - count
    {
      if count == i {
        return;
      }
      x := x.next;
      count := count + 1;
    }
  }
}

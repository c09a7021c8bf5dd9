/** Making a level: placing rooms, digging corridors between them and numbering the passages. */
module Dungeon {
  import opened Walks
  import opened DungeonMap
  import opened PassageNumbers

  /** rnd(n): any value below n, and 0 when n is 0. */
  method Rnd(n: int) returns (r: int)
    requires 0 <= n
    ensures if n == 0 then r == 0 else 0 <= r < n
  {
    if n == 0 {
      r := 0;
    } else {
      r :| 0 <= r < n;
    }
  }

  /** Both directions of every corridor. */
  ghost function Edges(cs: seq<Corridor>): set<(int, int)> {
    (set c | c in cs :: (c.a, c.b)) + (set c | c in cs :: (c.b, c.a))
  }

  /** Every exit on record is the end of some corridor. */
  ghost predicate ExitsOnCorridors(rooms: seq<Room>, cs: seq<Corridor>) {
    forall i, e :: 0 <= i < |rooms| && e in rooms[i].exits ==> OnSomeCorridor(cs, e)
  }

  ghost predicate OnSomeCorridor(cs: seq<Corridor>, e: Coord) {
    exists k :: 0 <= k < |cs| && e in cs[k].path
  }

  predicate Touches(c: Corridor, i: int) { c.a == i || c.b == i }

  /** How many corridors meet a room. */
  ghost function Degree(cs: seq<Corridor>, i: int): nat {
    if cs == [] then 0 else Degree(cs[..|cs| - 1], i) + if Touches(cs[|cs| - 1], i) then 1 else 0
  }

  /** A room has no more exits than corridors. */
  ghost predicate FewExits(rooms: seq<Room>, cs: seq<Corridor>) {
    forall i :: 0 <= i < |rooms| ==> |rooms[i].exits| <= Degree(cs, i)
  }

  /** Each of the two rooms may have got one more exit, no other room has. */
  ghost predicate OneExitEach(rooms: seq<Room>, rooms': seq<Room>, a: int, b: int) {
    && |rooms'| == |rooms|
    && forall i :: 0 <= i < |rooms| ==>
         |rooms'[i].exits| <= |rooms[i].exits| + if i == a || i == b then 1 else 0
  }

  /** Corridors run between rooms that share a side. */
  ghost predicate BetweenNeighbours(cs: seq<Corridor>) { forall c :: c in cs ==> Neighbours(c.a, c.b) }

  ghost predicate AllDrawn(g: Grid, rooms: seq<Room>, cs: seq<Corridor>) {
    forall c :: c in cs ==> Drawn(g, rooms, c)
  }

  /** Exits that have been added are among the given cells. */
  ghost predicate ExitsFrom(rooms: seq<Room>, rooms': seq<Room>, ends: seq<Coord>) {
    && |rooms'| == |rooms|
    && forall i, e :: 0 <= i < |rooms| && e in rooms'[i].exits ==> e in rooms[i].exits || e in ends
  }

  /** The passage as it is dug: plain, or hidden with its character left alone. */
  function PlainPassage(p: Place): Place { p.(ch := PASSAGE, pass := true) }

  function HiddenPassage(p: Place): Place { p.(pass := true, honest := false) }

  /** The door as it is put: plain, or hidden as a piece of wall. */
  function PlainDoor(p: Place): Place { p.(ch := DOOR) }

  function HiddenDoor(p: Place, r: Room, c: Coord): Place {
    p.(ch := if c.y == r.pos.y || c.y == r.pos.y + r.max.y - 1 then '-' else '|', honest := false)
  }

  /** What digging does: exactly the given cells become passage, keeping their numbers. */
  ghost predicate Dug(g: Grid, g': Grid, cells: seq<Coord>) {
    && g.Keys == g'.Keys
    && forall c :: c in g ==>
      && (c !in cells ==> g'[c] == g[c])
      && (c in cells ==> g'[c].pass && g'[c].num == g[c].num && LooksDug(g'[c]))
  }

  class Level {
    var places: Grid
    var rooms: seq<Room>
    var passages: seq<seq<Coord>>
    var level: int
    var pnum: int
    var newpnum: bool
    ghost var corridors: seq<Corridor>

    ghost predicate Valid()
      reads this
    {
      && |rooms| == MAXROOMS
      && |passages| == MAXPASS
      && FullGrid(places)
    }

    constructor (level: int)
      ensures Valid() && places == map c | c in places :: Place(' ', false, false, false, true, 0)
      ensures corridors == [] && this.level == level && |passages| == 13
    {
      places := map x, y | 0 <= x < MAXCOLS && 0 <= y < MAXLINES :: Coord(x, y) := BLANK;
      rooms := seq(MAXROOMS, i => Room(Coord(0, 0), Coord(0, 0), false, false, false, []));
      passages := seq(MAXPASS, i => []);
      this.level := level;
      pnum, newpnum := 0, false;
      corridors := [];
    }

    method Put(c: Coord, p: Place)
      requires Valid() && OnGrid(c)
      modifies this`places
      ensures Valid()
      ensures places == old(places)[c := p]
    {
      places := places[c := p];
    }

    /** putpass: only levels past the first can hide a passage. */
    method Putpass(c: Coord)
      requires Valid() && OnGrid(c)
      modifies this`places
      ensures Valid()
      ensures
        var g := old(places);
        || places == g[c := PlainPassage(g[c])]
        || (2 <= level && places == g[c := HiddenPassage(g[c])])
      ensures LooksDug(places[c])
      ensures level < 2 && AllHonest(old(places)) ==> AllHonest(places)
    {
      var p := places[c];
      var hidden := Rnd(10);
      if hidden + 1 < level {
        var luck := Rnd(40);
        if luck == 0 {
          Put(c, HiddenPassage(p));
          return;
        }
      }
      Put(c, PlainPassage(p));
    }

    /** door: the exit is recorded, and a door is put on the map unless the room is a maze. */
    method Door(i: int, c: Coord)
      requires Valid() && 0 <= i < MAXROOMS && OnGrid(c)
      modifies this`places, this`rooms
      ensures Valid()
      ensures rooms == old(rooms)[i := old(rooms)[i].(exits := old(rooms)[i].exits + [c])]
      ensures
        var g, r := old(places), old(rooms)[i];
        if r.maze then places == g
        else places == g[c := PlainDoor(g[c])] || (2 <= level && places == g[c := HiddenDoor(g[c], r, c)])
      ensures !old(rooms)[i].maze ==> LooksLikeDoor(old(rooms)[i], c, places[c])
      ensures level < 2 && AllHonest(old(places)) ==> AllHonest(places)
    {
      var r := rooms[i];
      rooms := rooms[i := r.(exits := r.exits + [c])];
      if r.maze {
        return;
      }
      var p := places[c];
      var hidden := Rnd(10);
      if hidden + 1 < level {
        var luck := Rnd(5);
        if luck == 0 {
          Put(c, HiddenDoor(p, r, c));
          return;
        }
      }
      Put(c, PlainDoor(p));
    }

    /** Picks where a corridor leaves a room downwards or to the right; a maze's exit must be on a maze passage. */
    method PickExit(i: int, down: bool, patience: nat) returns (ok: bool, c: Coord, left: nat)
      requires Valid() && LegalRooms(rooms) && 0 <= i < MAXROOMS
      ensures left <= patience && (!ok ==> left == 0)
      ensures LeavesFrom(down, rooms[i], c) && InBounds(c)
      ensures ok && rooms[i].maze ==> places[c].pass
    {
      var r := rooms[i];
      RoomSpan(i, rooms[i]);
      left := patience;
      ok := true;
      c := r.pos;
      if !r.gone {
        var a := if down then r.max.x else r.max.y;
        var k := Rnd(a - 2);
        c := if down then Coord(r.pos.x + k + 1, r.pos.y + r.max.y - 1) else Coord(r.pos.x + r.max.x - 1, r.pos.y + k + 1);
        while r.maze && !places[c].pass
          invariant LeavesFrom(down, r, c) && InBounds(c) && left <= patience
          decreases left
        {
          if left == 0 {
            ok := false;
            return;
          }
          left := left - 1;
          k := Rnd(a - 2);
          c := if down then Coord(r.pos.x + k + 1, r.pos.y + r.max.y - 1) else Coord(r.pos.x + r.max.x - 1, r.pos.y + k + 1);
        }
      }
    }

    /** Picks where a corridor enters a room from above or from the left. */
    method PickEntry(i: int, down: bool, patience: nat) returns (ok: bool, c: Coord, left: nat)
      requires Valid() && LegalRooms(rooms) && 0 <= i < MAXROOMS
      ensures left <= patience && (!ok ==> left == 0)
      ensures Enters(down, rooms[i], c) && InBounds(c)
      ensures ok && rooms[i].maze ==> places[c].pass
    {
      var r := rooms[i];
      RoomSpan(i, rooms[i]);
      left := patience;
      ok := true;
      c := r.pos;
      if !r.gone {
        var a := if down then r.max.x else r.max.y;
        var k := Rnd(a - 2);
        c := if down then Coord(r.pos.x + k + 1, r.pos.y) else Coord(r.pos.x, r.pos.y + k + 1);
        while r.maze && !places[c].pass
          invariant Enters(down, r, c) && InBounds(c) && left <= patience
          decreases left
        {
          if left == 0 {
            ok := false;
            return;
          }
          left := left - 1;
          k := Rnd(a - 2);
          c := if down then Coord(r.pos.x + k + 1, r.pos.y) else Coord(r.pos.x, r.pos.y + k + 1);
        }
      }
    }

    /**
     * The digging loop of conn, from the cell `s` on: straight on, with one turn of `turnDistance` cells
     * when `turnSpot` lines are left. Returns where the digging stands after the loop.
     */
    method Dig(down: bool, s: Coord, distance: nat, turnSpot: nat, d: int, turnDistance: nat) returns (curr: Coord)
      requires Valid()
      requires forall c :: c in DigCells(down, s, distance, turnSpot, d, turnDistance) ==> OnGrid(c)
      modifies this`places
      ensures Valid()
      ensures Dug(old(places), places, DigCells(down, s, distance, turnSpot, d, turnDistance))
      ensures curr == DigEnd(down, s, distance, turnSpot, d, turnDistance)
      ensures level < 2 && AllHonest(old(places)) ==> AllHonest(places)
    {
      hide AllHonest, LooksDug;
      hide Dug, FullGrid, OnGrid, DigCells, DigEnd, TurnCells, TurnEnd;
      ghost var all := DigCells(down, s, distance, turnSpot, d, turnDistance);
      ghost var g := places;
      NoneDug(g);
      ghost var done: seq<Coord> := [];
      var left := distance;
      curr := s;
      while left > 0
        invariant Valid() && 0 <= left
        invariant done + DigCells(down, curr, left, turnSpot, d, turnDistance) == all
        invariant DigEnd(down, curr, left, turnSpot, d, turnDistance) == DigEnd(down, s, distance, turnSpot, d, turnDistance)
        invariant Dug(g, places, done)
        invariant level < 2 && AllHonest(g) ==> AllHonest(places)
      {
        DigMore(down, curr, left, turnSpot, d, turnDistance);
        curr := Forward(down, curr);
        if left == turnSpot {
          ghost var before, turn := places, TurnCells(down, curr, d, turnDistance);
          ghost var end := TurnEnd(down, curr, d, turnDistance);
          MoveOver(done, turn, [end] + DigCells(down, end, left - 1, turnSpot, d, turnDistance), all);
          curr := DigTurn(down, curr, d, turnDistance);
          DugMore(g, before, places, done, turn);
          done := done + turn;
        }
        ghost var before := places;
        MoveOver(done, [curr], DigCells(down, curr, left - 1, turnSpot, d, turnDistance), all);
        Putpass(curr);
        DugOne(g, before, places, done, curr);
        done := done + [curr];
        left := left - 1;
      }
      NothingDug(down, curr, turnSpot, d, turnDistance);
      assert done + [] == done;
    }

    /** The inner loop of conn: the one turn of a corridor. */
    method DigTurn(down: bool, corner: Coord, d: int, turnDistance: nat) returns (curr: Coord)
      requires Valid()
      requires forall c :: c in TurnCells(down, corner, d, turnDistance) ==> OnGrid(c)
      modifies this`places
      ensures Valid()
      ensures Dug(old(places), places, TurnCells(down, corner, d, turnDistance))
      ensures curr == TurnEnd(down, corner, d, turnDistance)
      ensures level < 2 && AllHonest(old(places)) ==> AllHonest(places)
    {
      hide AllHonest, LooksDug;
      hide Dug, FullGrid, OnGrid, TurnCells, TurnEnd;
      ghost var all := TurnCells(down, corner, d, turnDistance);
      ghost var g := places;
      NoneDug(g);
      ghost var done: seq<Coord> := [];
      var left := turnDistance;
      curr := corner;
      while left > 0
        invariant Valid() && 0 <= left
        invariant done + TurnCells(down, curr, d, left) == all
        invariant TurnEnd(down, curr, d, left) == TurnEnd(down, corner, d, turnDistance)
        invariant Dug(g, places, done)
        invariant level < 2 && AllHonest(g) ==> AllHonest(places)
      {
        ghost var before := places;
        TurnMore(down, curr, d, left);
        MoveOver(done, [curr], TurnCells(down, Sideways(down, curr, d), d, left - 1), all);
        Putpass(curr);
        DugOne(g, before, places, done, curr);
        done := done + [curr];
        curr := Sideways(down, curr, d);
        left := left - 1;
      }
      NothingTurned(down, curr, d);
      assert done + [] == done;
    }

    /** One end of a corridor: a door, or just passage when the room is gone. */
    method DrawEnd(i: int, c: Coord)
      requires Valid() && LegalRooms(rooms) && 0 <= i < MAXROOMS && InBounds(c)
      requires if rooms[i].gone then c == rooms[i].pos else OnWall(rooms[i], c)
      requires rooms[i].maze ==> places[c].pass
      modifies this`places, this`rooms
      ensures Valid()
      ensures rooms == old(rooms)[i := rooms[i]]
      ensures rooms[i] == if old(rooms)[i].gone then old(rooms)[i] else old(rooms)[i].(exits := old(rooms)[i].exits + [c])
      ensures EndsAt(places, rooms[i], c) && Grows(old(rooms), old(places), places)
      ensures forall c' :: c' in places && c' != c ==> places[c'] == old(places)[c']
      ensures DoorsLook(old(places), old(rooms)) ==> DoorsLook(places, rooms)
      ensures level < 2 && AllHonest(old(places)) ==> AllHonest(places)
    {
      hide AllHonest;
      ghost var all, g := rooms, places;
      if !rooms[i].gone {
        Door(i, c);
        DoorAdded(all, g, places, i, c);
      } else {
        Putpass(c);
        GonePassed(all, g, places, i, c);
        forall k | 0 <= k < MAXROOMS && !all[k].gone
          ensures !all[k].Covers(c)
        {
          GoneAvoidsRooms(all, i, k);
        }
      }
    }

    /** Both ends of a corridor. */
    method DrawEnds(rm: int, rmt: int, s: Coord, e: Coord)
      requires Valid() && LegalRooms(rooms) && 0 <= rm < MAXROOMS && 0 <= rmt < MAXROOMS && rm != rmt
      requires InBounds(s) && InBounds(e) && s != e
      requires if rooms[rm].gone then s == rooms[rm].pos else OnWall(rooms[rm], s)
      requires if rooms[rmt].gone then e == rooms[rmt].pos else OnWall(rooms[rmt], e)
      requires (rooms[rm].maze ==> places[s].pass) && (rooms[rmt].maze ==> places[e].pass)
      modifies this`places, this`rooms
      ensures Valid() && LegalRooms(rooms)
      ensures EndsAt(places, rooms[rm], s) && EndsAt(places, rooms[rmt], e)
      ensures Grows(old(rooms), old(places), places) && MoreExits(old(rooms), rooms)
      ensures ExitsFrom(old(rooms), rooms, [s, e]) && OneExitEach(old(rooms), rooms, rm, rmt)
      ensures DoorsLook(old(places), old(rooms)) ==> DoorsLook(places, rooms)
      ensures level < 2 && AllHonest(old(places)) ==> AllHonest(places)
    {
      hide DoorsLook, AllHonest, Grows;
      ghost var rooms0, places0 := rooms, places;
      DrawEnd(rm, s);
      ghost var rooms1, places1 := rooms, places;
      OneExit(rooms0, rooms1, rm, s);
      DrawEnd(rmt, e);
      OneExit(rooms1, rooms, rmt, e);
      TwoEnds(rooms0, rooms1, rooms, places0, places1, places, rm, s, e);
    }

    /** All corridors dug so far are still there, and every exit belongs to one of them. */
    ghost predicate CorridorsIntact()
      requires Valid()
      reads this
    {
      && AllDrawn(places, rooms, corridors) && ExitsOnCorridors(rooms, corridors)
      && FewExits(rooms, corridors) && BetweenNeighbours(corridors) && DoorsLook(places, rooms)
    }

    /** conn: draws a corridor between two neighbouring rooms, unless patience runs out looking for a maze exit. */
    method Conn(r1: int, r2: int, patience: nat) returns (ok: bool, left: nat, ghost c: Corridor)
      requires Valid() && LegalRooms(rooms) && CorridorsIntact()
      requires Neighbours(r1, r2)
      modifies this`places, this`corridors, this`rooms
      ensures Valid() && LegalRooms(rooms) && CorridorsIntact()
      ensures left <= patience && (!ok ==> left == 0)
      ensures !ok ==> corridors == old(corridors)
      ensures ok ==> corridors == old(corridors) + [c]
      ensures ok ==> c.a == (if r1 < r2 then r1 else r2) && c.b == (if r1 < r2 then r2 else r1)
      ensures Grows(old(rooms), old(places), places) && MoreExits(old(rooms), rooms)
      ensures level < 2 && AllHonest(old(places)) ==> AllHonest(places)
    {
      hide AllHonest, DoorsLook;
      var rm := if r1 < r2 then r1 else r2;
      var rmt := if r1 < r2 then r2 else r1;
      var down := rm + 1 != rmt;
      ghost var rooms0, places0 := rooms, places;
      GrowsRefl(rooms0, places0);
      c := Corridor(rm, rmt, []);

      var s, e;
      ok, s, left := PickExit(rm, down, patience);
      if !ok {
        return;
      }
      ok, e, left := PickEntry(rmt, down, left);
      if !ok {
        return;
      }
      RoomBetween(rooms0, rm, rmt, down, s, e);
      var distance := Along(down, e) - Along(down, s) - 1;
      var turnSpot := Rnd(distance - 1);
      turnSpot := turnSpot + 1;

      c := DrawCorridor(rm, rmt, down, s, e, turnSpot);
    }

    /** The drawing half of conn: both ends, then the cells between them. */
    method DrawCorridor(rm: int, rmt: int, down: bool, s: Coord, e: Coord, turnSpot: int) returns (ghost c: Corridor)
      requires Valid() && LegalRooms(rooms) && CorridorsIntact()
      requires if down then Below(rm, rmt) else RightOf(rm, rmt)
      requires LeavesFrom(down, rooms[rm], s) && Enters(down, rooms[rmt], e) && InBounds(s) && InBounds(e)
      requires (rooms[rm].maze ==> places[s].pass) && (rooms[rmt].maze ==> places[e].pass)
      requires 1 <= turnSpot <= Along(down, e) - Along(down, s) - 1
      modifies this`places, this`corridors, this`rooms
      ensures Valid() && LegalRooms(rooms) && CorridorsIntact()
      ensures corridors == old(corridors) + [c] && c.a == rm && c.b == rmt
      ensures Grows(old(rooms), old(places), places) && MoreExits(old(rooms), rooms)
      ensures level < 2 && AllHonest(old(places)) ==> AllHonest(places)
    {
      hide AllHonest, DoorsLook;
      hide Grows, AllDrawn, ExitsOnCorridors, FewExits, BetweenNeighbours, MoreExits, ExitsFrom, OneExitEach, Dug;
      hide EndsAt, LegalRooms, LeavesFrom, Enters;
      ghost var rooms0, places0 := rooms, places;
      EndInRoom(rooms0, rm, rmt, down, s, e);
      var distance := Along(down, e) - Along(down, s) - 1;
      var d := if Across(down, s) < Across(down, e) then 1 else -1;
      var turnDistance := if d == 1 then Across(down, e) - Across(down, s) else Across(down, s) - Across(down, e);

      DrawEnds(rm, rmt, s, e);
      ghost var rooms1, places1 := rooms, places;

      ghost var cells := DigCells(down, s, distance, turnSpot, d, turnDistance);
      DigArrives(down, s, e, distance, turnSpot, d, turnDistance);
      var curr := Dig(down, s, distance, turnSpot, d, turnDistance);
      var warn := Forward(down, curr) != e;
      assert !warn;

      c := Corridor(rm, rmt, [s] + cells + [e]);
      CorridorAdded(rooms0, rooms1, places0, places1, places, corridors, c, down, s, e, distance, turnSpot, d, turnDistance);
      CorridorCounted(rooms0, rooms1, corridors, c);
      DiggingKeepsDoors(rooms0, rooms1, places1, places, rm, rmt, down, s, e, distance, turnSpot, d, turnDistance);
      corridors := corridors + [c];
    }

    /** numpass: numbers a passage square and its brethren, if it has no number yet. */
    method Numpass(y: int, x: int)
      requires Valid() && DoorLists(passages, places)
      requires (newpnum || 0 < pnum) && 0 <= pnum < MAXPASS
      requires newpnum && !(InBounds(Coord(x, y)) && places[Coord(x, y)].num != 0) ==> pnum + 1 < MAXPASS
      modifies this`places, this`pnum, this`newpnum, this`passages
      ensures Valid() && DoorLists(passages, places)
      ensures Flooded(old(places), places, Coord(x, y), pnum)
      ensures newpnum ==> old(newpnum) && pnum == old(pnum) && places == old(places)
      ensures !newpnum ==> pnum == old(pnum) + (if old(newpnum) then 1 else 0)
      ensures InBounds(Coord(x, y)) && old(places)[Coord(x, y)].num != 0 ==>
        newpnum == old(newpnum) && pnum == old(pnum) && places == old(places)
      ensures Coord(x, y) in NumberableCells(old(places)) && old(places)[Coord(x, y)].num == 0 ==> !newpnum
      decreases |NumberableCells(places) - Numbered(places)|, 0
    {
      hide DoorLists, Numbered, Flooded, NumberableCells;
      ghost var g, start := places, Coord(x, y);
      NumberableAt(g, start);
      if x >= NUMCOLS || x < 0 || y >= NUMLINES || y <= 0 {
        NothingFlooded(g, start, pnum);
        return;
      }
      var p := places[Coord(x, y)];
      if p.num != 0 {
        NothingFlooded(g, start, pnum);
        return;
      }
      if newpnum {
        pnum := pnum + 1;
        newpnum := false;
      }
      ghost var lists := passages;
      if p.IsDoor() {
        passages := passages[pnum := passages[pnum] + [Coord(x, y)]];
      } else if !p.pass {
        NothingFlooded(g, start, pnum);
        return;
      }
      places := places[Coord(x, y) := p.(num := pnum)];
      NumberedOne(lists, g, start, pnum, passages, places);
      OneLess(g, places, start, pnum);
      Brethren(y, x, g);
    }

    /** The recursive calls of numpass, on the places around a square that has just been numbered. */
    method Brethren(y: int, x: int, ghost g: Grid)
      requires Valid() && DoorLists(passages, places)
      requires !newpnum && 0 < pnum < MAXPASS
      requires Coord(x, y) in NumberableCells(g) && g[Coord(x, y)].num == 0 && Started(g, places, Coord(x, y), pnum)
      modifies this`places, this`pnum, this`newpnum, this`passages
      ensures Valid() && DoorLists(passages, places)
      ensures Flooded(g, places, Coord(x, y), pnum) && !newpnum && pnum == old(pnum)
      decreases |NumberableCells(places) - Numbered(places)|, 5
    {
      hide DoorLists, Started, Filling, Flooded, Numbered, NumberableCells, FullGrid;
      ghost var start := Coord(x, y);
      StartFills(g, places, start, pnum);
      Brother(y + 1, x, start, 0, g, places);
      Brother(y - 1, x, start, 1, g, places);
      BrethrenAcross(y, x, g);
      FillingDone(g, places, start, pnum);
    }

    /** The last two of them. */
    method BrethrenAcross(y: int, x: int, ghost g: Grid)
      requires Valid() && DoorLists(passages, places)
      requires !newpnum && 0 < pnum < MAXPASS
      requires Coord(x, y) in NumberableCells(g) && g[Coord(x, y)].num == 0 && Filling(g, places, Coord(x, y), 2, pnum)
      modifies this`places, this`pnum, this`newpnum, this`passages
      ensures Valid() && DoorLists(passages, places)
      ensures Filling(g, places, Coord(x, y), 4, pnum) && !newpnum && pnum == old(pnum)
      decreases |NumberableCells(places) - Numbered(places)|, 4
    {
      hide DoorLists, Filling, Numbered, NumberableCells, FullGrid;
      Brother(y, x + 1, Coord(x, y), 2, g, places);
      Brother(y, x - 1, Coord(x, y), 3, g, places);
    }

    /** One of them. */
    method Brother(y: int, x: int, ghost start: Coord, ghost k: int, ghost g: Grid, ghost g2: Grid)
      requires Valid() && DoorLists(passages, places)
      requires !newpnum && 0 < pnum < MAXPASS
      requires start in NumberableCells(g) && g[start].num == 0
      requires 0 <= k < 4 && Coord(x, y) == Neighbour(start, k)
      requires g2 == places && Filling(g, places, start, k, pnum)
      modifies this`places, this`pnum, this`newpnum, this`passages
      ensures Valid() && DoorLists(passages, places)
      ensures Filling(g, places, start, k + 1, pnum) && !newpnum && pnum == old(pnum)
      ensures |NumberableCells(places) - Numbered(places)| <= |NumberableCells(g2) - Numbered(g2)|
      decreases |NumberableCells(places) - Numbered(places)|, 3
    {
      hide DoorLists, Numbered, NumberableCells, FullGrid;
      Numpass(y, x);
      FloodThen(g, g2, places, start, k, pnum);
      FewerLeft(g2, places);
    }

    /** The body of passnum's loops: numbers the passage behind one exit, unless it has a number already. */
    method NumberExit(e: Coord, ghost g: Grid, ghost used: set<int>) returns (ghost used': set<int>)
      requires Valid() && NumberingSoFar(g, places, pnum, corridors, used) && DoorLists(passages, places)
      requires AllDrawn(g, rooms, corridors) && |corridors| < MAXPASS
      requires OnSomeCorridor(corridors, e)
      modifies this`places, this`pnum, this`newpnum, this`passages
      ensures Valid() && NumberingSoFar(g, places, pnum, corridors, used') && DoorLists(passages, places)
      ensures e in Numbered(places) && Numbered(old(places)) <= Numbered(places)
    {
      hide DoorLists, AllDrawn, WellNumbered, SameButNums, UsedCorridors, FullGrid, Flooded, OnSomeCorridor;
      newpnum := true;
      ghost var before := places;
      MayNumber(g, places, rooms, corridors, used, e);
      Numpass(e.y, e.x);
      used' := ExitNumbered(g, before, places, rooms, corridors, used, e);
    }

    /** passnum's inner loop: the exits of one room. */
    method NumberRoom(i: int, ghost g: Grid, ghost used: set<int>) returns (ghost used': set<int>)
      requires Valid() && 0 <= i < MAXROOMS && NumberingSoFar(g, places, pnum, corridors, used) && DoorLists(passages, places)
      requires AllDrawn(g, rooms, corridors) && ExitsOnCorridors(rooms, corridors) && |corridors| < MAXPASS
      modifies this`places, this`pnum, this`newpnum, this`passages
      ensures Valid() && NumberingSoFar(g, places, pnum, corridors, used') && DoorLists(passages, places)
      ensures Numbered(old(places)) <= Numbered(places)
      ensures forall e :: e in rooms[i].exits ==> e in Numbered(places)
    {
      hide DoorLists, AllDrawn, NumberingSoFar, FullGrid, Numbered, OnSomeCorridor;
      used' := used;
      var j := 0;
      while j < |rooms[i].exits|
        invariant 0 <= j <= |rooms[i].exits| && Valid()
        invariant NumberingSoFar(g, places, pnum, corridors, used') && DoorLists(passages, places)
        invariant Numbered(old(places)) <= Numbered(places)
        invariant forall k :: 0 <= k < j ==> rooms[i].exits[k] in Numbered(places)
      {
        assert rooms[i].exits[j] in rooms[i].exits;
        used' := NumberExit(rooms[i].exits[j], g, used');
        j := j + 1;
      }
    }

    /**
     * passnum: numbers every passage that can be reached from an exit. Each corridor adds at most one number,
     * so the numbers fit their table and their four bits.
     */
    method Passnum()
      requires Valid() && LegalRooms(rooms) && CorridorsIntact() && Unnumbered(places)
      requires |corridors| < MAXPASS
      modifies this`places, this`pnum, this`newpnum, this`passages
      ensures Valid() && CorridorsIntact()
      ensures SameButNums(old(places), places)
      ensures WellNumbered(places, pnum) && 0 <= pnum <= |corridors|
      ensures forall i, e :: 0 <= i < |rooms| && e in rooms[i].exits ==> e in Numbered(places)
      ensures DoorLists(passages, places)
    {
      hide NumberingSoFar, DoorLists, DoorsLook, Unnumbered, WellNumbered, SameButNums, Numbered, AllDrawn, FullGrid, LegalRooms;
      pnum, newpnum := 0, false;
      passages := seq(MAXPASS, i => []);
      ghost var g := places;
      ghost var used: set<int> := {};
      NothingNumbered(g, corridors, passages);
      var i := 0;
      while i < MAXROOMS
        invariant 0 <= i <= MAXROOMS && Valid() && DoorLists(passages, places)
        invariant NumberingSoFar(g, places, pnum, corridors, used)
        invariant forall k, e :: 0 <= k < i && e in rooms[k].exits ==> e in Numbered(places)
      {
        used := NumberRoom(i, g, used);
        i := i + 1;
      }
      NumberingEnds(g, places, pnum, corridors, used);
      NumbersKeepCorridors(g, places, rooms, corridors);
    }

    /** Scans the neighbours of room r1 that are not to be skipped and settles on a random one; j counts them. */
    method PickNeighbour(r1: int, skip: seq<bool>) returns (j: int, r2: int)
      requires 0 <= r1 < MAXROOMS && |skip| == MAXROOMS
      ensures j == 0 <==> forall i :: 0 <= i < MAXROOMS && Connectable(r1, i) ==> skip[i]
      ensures j != 0 ==> 0 <= r2 < MAXROOMS && Connectable(r1, r2) && !skip[r2]
    {
      j, r2 := 0, 0;
      var i := 0;
      while i < MAXROOMS
        invariant 0 <= i <= MAXROOMS && 0 <= j
        invariant j == 0 <==> forall k :: 0 <= k < i && Connectable(r1, k) ==> skip[k]
        invariant j != 0 ==> 0 <= r2 < MAXROOMS && Connectable(r1, r2) && !skip[r2]
      {
        if Connectable(r1, i) && !skip[i] {
          j := j + 1;
          var luck := Rnd(j);
          if luck == 0 {
            r2 := i;
          }
        }
        i := i + 1;
      }
    }

    /** Picks a random room until one that is in the graph comes up. */
    method PickInside(ingraph: seq<bool>, patience: nat) returns (ok: bool, r1: int, left: nat)
      requires |ingraph| == MAXROOMS && 0 < patience
      ensures left < patience && 0 <= r1 < MAXROOMS && (if ok then ingraph[r1] else left == 0)
    {
      r1 := Rnd(MAXROOMS);
      left := patience - 1;
      while !ingraph[r1]
        invariant left < patience && 0 <= r1 < MAXROOMS
        decreases left
      {
        if left == 0 {
          return false, r1, left;
        }
        r1 := Rnd(MAXROOMS);
        left := left - 1;
      }
      ok := true;
    }

    /** A fresh level: rooms are placed, and no corridor has been dug or numbered. */
    ghost predicate Placed()
      reads this
    {
      && Valid() && LegalRooms(rooms)
      && corridors == [] && (forall i :: 0 <= i < |rooms| ==> rooms[i].exits == [])
      && Unnumbered(places)
    }

    /** Corridor drawing in progress: everything do_passages keeps from one corridor to the next. */
    ghost predicate Digging(isconn: set<(int, int)>)
      reads this
    {
      && Valid() && LegalRooms(rooms) && CorridorsIntact() && Unnumbered(places)
      && isconn == Edges(corridors) && OnePerPair(corridors)
    }

    /** The first loop of do_passages: grows a spanning tree of corridors from a random room. */
    method GrowTree(patience: nat) returns (ok: bool, isconn: set<(int, int)>, left: nat)
      requires Placed()
      modifies this`places, this`corridors, this`rooms
      ensures ok ==> Digging(isconn) && |corridors| == MAXROOMS - 1 && Spanning(isconn)
      ensures !ok ==> left == 0
      ensures level < 2 && AllHonest(old(places)) ==> AllHonest(places)
    {
      hide AllHonest;
      isconn := {};
      left := patience;
      var roomcount := 1;
      var r1 := Rnd(MAXROOMS);
      ghost var start := r1;
      var ingraph := seq(MAXROOMS, i => i == r1);
      LinkedRefl(isconn, start);
      NoCorridors(rooms, places);
      InsideSize(ingraph, start);
      while roomcount < MAXROOMS
        invariant 1 <= roomcount <= MAXROOMS && |ingraph| == MAXROOMS && 0 <= r1 < MAXROOMS && ingraph[r1]
        invariant roomcount == |InGraph(ingraph)| && |corridors| == roomcount - 1
        invariant Digging(isconn) && TreeFrom(isconn, ingraph, start)
        invariant level < 2 && AllHonest(old(places)) ==> AllHonest(places)
        decreases MAXROOMS - roomcount, left
      {
        var j, r2 := PickNeighbour(r1, ingraph);
        if j == 0 {
          if left == 0 {
            return false, isconn, left;
          }
          ok, r1, left := PickInside(ingraph, left);
          if !ok {
            return;
          }
        } else {
          ConnIsNeighbours(r1, r2);
          ghost var before := corridors;
          ghost var c;
          var enough;
          enough, left, c := Conn(r1, r2, left);
          if !enough {
            return false, isconn, left;
          }
          TreeGrows(isconn, ingraph, start, r1, r2, before, c);
          ingraph := ingraph[r2 := true];
          isconn := isconn + {(r1, r2), (r2, r1)};
          roomcount := roomcount + 1;
        }
      }
      TreeSpans(isconn, ingraph, start);
      ok := true;
    }

    /** The second loop of do_passages: up to four more corridors between neighbours that have none. */
    method AddLoops(patience: nat, isconn: set<(int, int)>) returns (ok: bool, left: nat)
      requires Digging(isconn) && Spanning(isconn)
      modifies this`places, this`corridors, this`rooms
      ensures ok ==> Digging(Edges(corridors)) && Spanning(Edges(corridors))
      ensures |old(corridors)| <= |corridors| <= |old(corridors)| + 4
      ensures !ok ==> left == 0
      ensures level < 2 && AllHonest(old(places)) ==> AllHonest(places)
    {
      hide AllHonest;
      var conns := isconn;
      left := patience;
      var roomcount := Rnd(5);
      while roomcount > 0
        invariant 0 <= roomcount <= 4 && Digging(conns) && Spanning(conns)
        invariant level < 2 && AllHonest(old(places)) ==> AllHonest(places)
        invariant |old(corridors)| <= |corridors| <= |old(corridors)| + 4 - roomcount
      {
        var r1 := Rnd(MAXROOMS);
        var j, r2 := PickNeighbour(r1, seq(MAXROOMS, i => (r1, i) in conns));
        if j != 0 {
          ConnIsNeighbours(r1, r2);
          ghost var before := corridors;
          ghost var c;
          var enough;
          enough, left, c := Conn(r1, r2, left);
          if !enough {
            return false, left;
          }
          MoreConnections(conns, before, c, r1, r2);
          conns := conns + {(r1, r2), (r2, r1)};
        }
        roomcount := roomcount - 1;
      }
      ok := true;
    }

    /** A finished set of passages. */
    ghost predicate Finished()
      reads this
    {
      && Valid() && LegalRooms(rooms)
      && AllDrawn(places, rooms, corridors) && OnePerPair(corridors)
      && Spanning(Edges(corridors))
      && 8 <= |corridors| <= 12
      && WellNumbered(places, pnum) && 0 <= pnum <= |corridors|
      && (forall i, e :: 0 <= i < |rooms| && e in rooms[i].exits ==> e in Numbered(places))
      && (forall i :: 0 <= i < |rooms| ==> |rooms[i].exits| <= 4)
      && DoorLists(passages, places) && DoorsLook(places, rooms)
    }

    /**
     * do_passages: after it, and only spent patience can keep it from getting there, corridors connect all nine rooms, each an unbroken
     * run of passage from room to room, and the passages carry their numbers.
     */
    method DoPassages(patience: nat) returns (ok: bool, left: nat)
      requires Placed()
      modifies this`places, this`corridors, this`rooms, this`pnum, this`newpnum, this`passages
      ensures if ok then Finished() else left == 0
      ensures ok && level < 2 && AllHonest(old(places)) ==> AllHonest(places)
    {
      hide AllHonest;
      var isconn;
      ok, isconn, left := GrowTree(patience);
      if !ok {
        return;
      }
      ok, left := AddLoops(left, isconn);
      if !ok {
        return;
      }
      forall i | 0 <= i < |rooms|
        ensures |rooms[i].exits| <= 4
      {
        FourExits(rooms, corridors, i);
      }
      ghost var unnumbered := places;
      Passnum();
      NumbersHideNothing(unnumbered, places);
    }

    /** rnd_room: a random room that is there. */
    method RndRoom(patience: nat) returns (ok: bool, rm: int, left: nat)
      requires Valid()
      ensures left <= patience && 0 <= rm < MAXROOMS && (if ok then !rooms[rm].gone else left == 0)
    {
      rm := Rnd(MAXROOMS);
      left := patience;
      while rooms[rm].gone
        invariant 0 <= rm < MAXROOMS && left <= patience
        decreases left
      {
        if left == 0 {
          return false, rm, left;
        }
        rm := Rnd(MAXROOMS);
        left := left - 1;
      }
      ok := true;
    }

    /** The placing arithmetic of do_rooms for a gone room. Its retry is never needed: the first try is always good. */
    method PlaceGone(i: int) returns (r: Room)
      requires 0 <= i < MAXROOMS
      ensures LegalRoom(i, r) && r.gone && r.exits == []
    {
      var top := Top(i);
      var x := Rnd(BOX_WIDTH - 2);
      var y := Rnd(BOX_HEIGHT - 2);
      r := Room(Coord(top.x + x + 1, top.y + y + 1), Coord(-NUMCOLS, -NUMLINES), true, false, false, []);
      RoomSpan(i, r);
      var again := !(0 < r.pos.y < NUMLINES - 1);
      assert !again;
    }

    /** The placing arithmetic of do_rooms for an ordinary room or a maze. */
    method PlaceRoom(i: int, patience: nat) returns (ok: bool, r: Room, left: nat)
      requires 0 <= i < MAXROOMS
      ensures left <= patience && (!ok ==> left == 0)
      ensures ok ==> LegalRoom(i, r) && !r.gone && r.exits == []
    {
      var top := Top(i);
      var dark, maze := false, false;
      var kind := Rnd(10);
      if kind < level - 1 {
        dark := true;
        var luck := Rnd(15);
        if luck == 0 {
          dark, maze := false, true;
        }
      }
      left := patience;
      ok := true;
      if maze {
        var max := Coord(BOX_WIDTH - 1, BOX_HEIGHT - 1);
        var pos := Coord(if top.x == 1 then 0 else top.x, top.y);
        if pos.y == 0 {
          pos, max := Coord(pos.x, 1), Coord(max.x, max.y - 1);
        }
        r := Room(pos, max, false, dark, maze, []);
      } else {
        r := TryRoom(top, dark);
        while r.pos.y == 0
          invariant left <= patience
          invariant RoomFits(top, r) && !r.gone && !r.maze && r.exits == []
          decreases left
        {
          if left == 0 {
            ok := false;
            return;
          }
          r := TryRoom(top, dark);
          left := left - 1;
        }
      }
    }

    /** One try at an ordinary room. */
    method TryRoom(top: Coord, dark: bool) returns (r: Room)
      ensures RoomFits(top, r) && !r.gone && !r.maze && r.exits == []
    {
      var w := Rnd(BOX_WIDTH - 4);
      var h := Rnd(BOX_HEIGHT - 4);
      var x := Rnd(BOX_WIDTH - (w + 4));
      var y := Rnd(BOX_HEIGHT - (h + 4));
      r := Room(Coord(top.x + x, top.y + y), Coord(w + 4, h + 4), false, dark, false, []);
    }

    /** The rooms that are gone are the ones in the set. */
    ghost predicate GoneAre(out: set<int>)
      requires Valid()
      reads this
    {
      forall k :: 0 <= k < MAXROOMS ==> (rooms[k].gone <==> k in out)
    }

    /** The first loop of do_rooms: up to three rooms are marked as gone. */
    method MarkGone(patience: nat) returns (ok: bool, left: nat, ghost out: set<int>)
      requires Valid() && GoneAre({})
      modifies this`rooms
      ensures Valid() && left <= patience && (!ok ==> left == 0)
      ensures |out| <= 3 && (forall k :: k in out ==> 0 <= k < MAXROOMS) && GoneAre(out)
    {
      ok, left := true, patience;
      var leftOut := Rnd(4);
      out := {};
      var i := 0;
      while i < leftOut
        invariant 0 <= i <= leftOut <= 3 && Valid() && left <= patience
        invariant |out| == i && GoneAre(out) && forall k :: k in out ==> 0 <= k < MAXROOMS
      {
        var rm;
        ok, rm, left := RndRoom(left);
        if !ok {
          return;
        }
        rooms := rooms[rm := rooms[rm].(gone := true)];
        out := out + {rm};
        i := i + 1;
      }
      ok := true;
    }

    /** The second loop of do_rooms: every room is placed in its box. */
    method PlaceAll(patience: nat, ghost out: set<int>) returns (ok: bool, left: nat)
      requires Valid() && GoneAre(out)
      modifies this`rooms
      ensures Valid() && left <= patience && (!ok ==> left == 0)
      ensures ok ==> LegalRooms(rooms) && GoneAre(out) && forall i :: 0 <= i < |rooms| ==> rooms[i].exits == []
    {
      hide LegalRoom;
      left := patience;
      var i := 0;
      while i < MAXROOMS
        invariant 0 <= i <= MAXROOMS && Valid() && left <= patience
        invariant forall k :: 0 <= k < i ==> LegalRoom(k, rooms[k]) && rooms[k].exits == []
        invariant GoneAre(out)
      {
        var r;
        if rooms[i].gone {
          r := PlaceGone(i);
        } else {
          ok, r, left := PlaceRoom(i, left);
          if !ok {
            return;
          }
        }
        rooms := rooms[i := r];
        i := i + 1;
      }
      ok := true;
    }

    /** do_rooms, as far as it places rooms: every room fits its box, and at most three are gone. */
    method DoRooms(patience: nat) returns (ok: bool, left: nat)
      requires Valid()
      modifies this`rooms
      ensures Valid() && left <= patience && (!ok ==> left == 0)
      ensures ok ==> LegalRooms(rooms) && forall i :: 0 <= i < |rooms| ==> rooms[i].exits == []
      ensures ok ==> |set i | 0 <= i < |rooms| && rooms[i].gone| <= 3
    {
      hide LegalRooms;
      rooms := seq(MAXROOMS, i => Room(Coord(0, 0), Coord(0, 0), false, false, false, []));
      ghost var out;
      ok, left, out := MarkGone(patience);
      if !ok {
        return;
      }
      ok, left := PlaceAll(left, out);
      if ok {
        assert (set k | 0 <= k < |rooms| && rooms[k].gone) == out;
      }
    }

    /**
     * new_level, as far as rooms and passages go. What drawing walls, floors and mazes leaves on the map is
     * an argument: anything without passage numbers.
     */
    method NewLevel(patience: nat, drawn: Grid) returns (ok: bool, left: nat)
      requires Valid() && FullGrid(drawn) && Unnumbered(drawn)
      modifies this
      ensures if ok then Finished() else left == 0
      ensures level == old(level)
      ensures ok && level < 2 && AllHonest(drawn) ==> AllHonest(places)
    {
      places := map x, y | 0 <= x < MAXCOLS && 0 <= y < MAXLINES :: Coord(x, y) := BLANK;
      corridors := [];
      ok, left := DoRooms(patience);
      if !ok {
        return;
      }
      places := drawn;
      ok, left := DoPassages(left);
    }
  }

  /** The cells between two corridor ends, all together. */
  lemma CellsBetween(down: bool, s: Coord, e: Coord, distance: nat, turnSpot: nat, d: int, n: nat)
    requires InBounds(s) && InBounds(e) && Turns(d, n, Across(down, s), Across(down, e))
    requires distance == Along(down, e) - Along(down, s) - 1
    requires 1 <= turnSpot <= distance
    ensures var cells := DigCells(down, s, distance, turnSpot, d, n);
      && Contiguous([s] + cells)
      && Forward(down, ([s] + cells)[|cells|]) == e
      && ([s] + cells)[|cells|] == DigEnd(down, s, distance, turnSpot, d, n)
      && (forall k :: 0 <= k < |cells| ==> Inside(down, s, e, cells[k]))
  {
    DigLeads(down, s, e, s, distance, turnSpot, d, n);
    LeadsFacts(down, s, e, s, DigCells(down, s, distance, turnSpot, d, n), DigEnd(down, s, distance, turnSpot, d, n));
  }

  /** Digging from one end arrives at the other without leaving the map. */
  lemma DigArrives(down: bool, s: Coord, e: Coord, distance: nat, turnSpot: nat, d: int, n: nat)
    requires InBounds(s) && InBounds(e) && Turns(d, n, Across(down, s), Across(down, e))
    requires distance == Along(down, e) - Along(down, s) - 1
    requires 1 <= turnSpot <= distance
    ensures Forward(down, DigEnd(down, s, distance, turnSpot, d, n)) == e
    ensures forall c :: c in DigCells(down, s, distance, turnSpot, d, n) ==> OnGrid(c)
  {
    CellsBetween(down, s, e, distance, turnSpot, d, n);
    forall c | c in DigCells(down, s, distance, turnSpot, d, n)
      ensures OnGrid(c)
    {
      InsideBounds(down, s, e, c);
    }
  }

  /** Digging only cells that lie strictly between two corridor ends never harms a room's door. */
  lemma DugGrows(rooms: seq<Room>, i: int, j: int, down: bool, s: Coord, e: Coord, g: Grid, g': Grid, cells: seq<Coord>)
    requires LegalRooms(rooms) && (if down then Below(i, j) else RightOf(i, j))
    requires LeavesFrom(down, rooms[i], s) && Enters(down, rooms[j], e)
    requires Dug(g, g', cells) && forall k :: 0 <= k < |cells| ==> Inside(down, s, e, cells[k])
    ensures Grows(rooms, g, g')
  {
    forall c | c in g
      ensures CellGrows(InSomeRoom(rooms, c), g[c], g'[c])
    {
      if c in cells && InSomeRoom(rooms, c) {
        var k :| 0 <= k < |rooms| && !rooms[k].gone && rooms[k].Covers(c);
        CorridorAvoidsRooms(rooms, i, j, down, s, e, c, k);
        assert false;
      }
    }
  }

  /** Cells strictly between two corridor ends are in no room, whatever exits have been added. */
  lemma CellsOutside(rooms: seq<Room>, rooms': seq<Room>, i: int, j: int, down: bool, s: Coord, e: Coord, cells: seq<Coord>)
    requires LegalRooms(rooms) && MoreExits(rooms, rooms') && (if down then Below(i, j) else RightOf(i, j))
    requires LeavesFrom(down, rooms[i], s) && Enters(down, rooms[j], e)
    requires forall k :: 0 <= k < |cells| ==> Inside(down, s, e, cells[k])
    ensures forall k :: 0 <= k < |cells| ==> !InSomeRoom(rooms', cells[k])
  {
    hide LeavesFrom, Enters, Inside, MoreExits, Below, RightOf;
    forall k | 0 <= k < |cells|
      ensures !InSomeRoom(rooms', cells[k])
    {
      SameRects(rooms, rooms', cells[k]);
      if InSomeRoom(rooms, cells[k]) {
        var r :| 0 <= r < |rooms| && !rooms[r].gone && rooms[r].Covers(cells[k]);
        CorridorAvoidsRooms(rooms, i, j, down, s, e, cells[k], r);
      }
    }
  }

  /** Digging outside the rooms leaves the doors as they are. */
  lemma DiggingKeepsDoors(rooms: seq<Room>, rooms': seq<Room>, g: Grid, g': Grid, i: int, j: int, down: bool,
                          s: Coord, e: Coord, distance: nat, turnSpot: nat, d: int, n: nat)
    requires LegalRooms(rooms) && MoreExits(rooms, rooms') && (if down then Below(i, j) else RightOf(i, j))
    requires LeavesFrom(down, rooms[i], s) && Enters(down, rooms[j], e) && InBounds(s) && InBounds(e)
    requires Turns(d, n, Across(down, s), Across(down, e))
    requires distance == Along(down, e) - Along(down, s) - 1 && 1 <= turnSpot <= distance
    requires Dug(g, g', DigCells(down, s, distance, turnSpot, d, n)) && DoorsLook(g, rooms')
    ensures DoorsLook(g', rooms')
  {
    hide LegalRooms, MoreExits, LeavesFrom, Enters, Turns, InBounds, DigCells, Below, RightOf, Inside;
    var cells := DigCells(down, s, distance, turnSpot, d, n);
    CellsBetween(down, s, e, distance, turnSpot, d, n);
    CellsOutside(rooms, rooms', i, j, down, s, e, cells);
    forall k, x | 0 <= k < |rooms'| && x in rooms'[k].exits
      ensures DoorLooks(g', rooms'[k], x)
    {
      assert DoorLooks(g, rooms'[k], x);
      assert InSomeRoom(rooms', x);
    }
  }

  /** A door put into the wall of a room looks like it, and the others are as they were. */
  lemma DoorAdded(rooms: seq<Room>, g: Grid, g': Grid, i: int, c: Coord)
    requires LegalRooms(rooms) && 0 <= i < MAXROOMS && !rooms[i].gone && OnWall(rooms[i], c) && c in g && g'.Keys == g.Keys
    requires forall x :: x in g && x != c ==> g'[x] == g[x]
    requires !rooms[i].maze ==> LooksLikeDoor(rooms[i], c, g'[c])
    ensures DoorsLook(g, rooms) ==> DoorsLook(g', rooms[i := rooms[i].(exits := rooms[i].exits + [c])])
  {
    hide LegalRooms, LooksLikeDoor, OnTopOrBottom;
    SameMany(rooms);
    var rooms' := rooms[i := rooms[i].(exits := rooms[i].exits + [c])];
    SameWall(rooms[i], rooms'[i], c, g'[c]);
    if DoorsLook(g, rooms) {
      forall k, x | 0 <= k < |rooms'| && x in rooms'[k].exits
        ensures DoorLooks(g', rooms'[k], x)
      {
        if x == c {
          if k != i {
            assert DoorLooks(g, rooms[k], c);
            RoomsApart(rooms, i, k, c);
          }
        } else {
          assert DoorLooks(g, rooms[k], x);
          SameWall(rooms[k], rooms'[k], x, g[x]);
        }
      }
    }
  }

  lemma SameMany(rooms: seq<Room>)
    requires LegalRooms(rooms)
    ensures |rooms| == MAXROOMS
  {
  }

  lemma SameWall(r: Room, r': Room, c: Coord, p: Place)
    requires r' == r.(exits := r'.exits)
    ensures OnWall(r', c) == OnWall(r, c) && LooksLikeDoor(r', c, p) == LooksLikeDoor(r, c, p)
  {
  }

  /** So are all of them when the place of a gone room is dug. */
  lemma GonePassed(rooms: seq<Room>, g: Grid, g': Grid, i: int, c: Coord)
    requires LegalRooms(rooms) && 0 <= i < MAXROOMS && rooms[i].gone && c == rooms[i].pos && g'.Keys == g.Keys
    requires forall x :: x in g && x != c ==> g'[x] == g[x]
    ensures DoorsLook(g, rooms) ==> DoorsLook(g', rooms)
  {
    hide LegalRooms;
    SameMany(rooms);
    if DoorsLook(g, rooms) {
      forall k, x | 0 <= k < |rooms| && x in rooms[k].exits
        ensures DoorLooks(g', rooms[k], x)
      {
        assert DoorLooks(g, rooms[k], x);
        GoneAvoidsRooms(rooms, i, k);
      }
    }
  }

  lemma GrowsBack(rooms: seq<Room>, rooms': seq<Room>, g: Grid, g': Grid)
    requires Grows(rooms, g, g') && MoreExits(rooms, rooms')
    ensures Grows(rooms', g, g')
  {
    forall c | c in g
      ensures CellGrows(InSomeRoom(rooms', c), g[c], g'[c])
    {
      SameRects(rooms, rooms', c);
      assert CellGrows(InSomeRoom(rooms, c), g[c], g'[c]);
    }
  }

  /** A finished corridor is drawn from room to room. */
  lemma NewDrawn(rooms: seq<Room>, g: Grid, g': Grid, a: int, b: int, down: bool, s: Coord, e: Coord, cells: seq<Coord>)
    requires 0 <= a < |rooms| && 0 <= b < |rooms| && FullGrid(g') && Grows(rooms, g, g') && Dug(g, g', cells)
    requires EndsAt(g, rooms[a], s) && EndsAt(g, rooms[b], e)
    requires Contiguous([s] + cells) && Forward(down, ([s] + cells)[|cells|]) == e
    requires forall k :: 0 <= k < |cells| ==> Inside(down, s, e, cells[k]) && !InSomeRoom(rooms, cells[k])
    ensures Drawn(g', rooms, Corridor(a, b, [s] + cells + [e]))
  {
    var p := [s] + cells + [e];
    ContiguousAppend([s] + cells, e);
    GrowsRefl(rooms, g);
    EndsAtKept(g, rooms, g', rooms, a, s);
    EndsAtKept(g, rooms, g', rooms, b, e);
    forall k | 0 < k < |p| - 1
      ensures DugAt(g', rooms, p[k])
    {
      assert p[k] == cells[k - 1];
      InsideBounds(down, s, e, p[k]);
    }
  }

  /** The exits on record after a corridor has been added belong to it or to an earlier one. */
  lemma ExitsStillOnCorridors(rooms: seq<Room>, rooms': seq<Room>, cs: seq<Corridor>, c: Corridor, ends: seq<Coord>)
    requires ExitsOnCorridors(rooms, cs) && ExitsFrom(rooms, rooms', ends)
    requires forall x :: x in ends ==> x in c.path
    ensures ExitsOnCorridors(rooms', cs + [c])
  {
    var cs' := cs + [c];
    forall i, x | 0 <= i < |rooms'| && x in rooms'[i].exits
      ensures OnSomeCorridor(cs', x)
    {
      if x in rooms[i].exits {
        assert OnSomeCorridor(cs, x);
        var k :| 0 <= k < |cs| && x in cs[k].path;
        assert x in cs'[k].path;
      } else {
        assert x in cs'[|cs|].path;
      }
    }
  }

  /** A corridor drawn from room c.a to room c.b joins the earlier ones, which are all still there. */
  lemma CorridorAdded(rooms: seq<Room>, rooms': seq<Room>, g: Grid, g1: Grid, g2: Grid,
                      cs: seq<Corridor>, c: Corridor, down: bool, s: Coord, e: Coord,
                      distance: nat, turnSpot: nat, d: int, n: nat)
    requires LegalRooms(rooms) && MoreExits(rooms, rooms') && ExitsFrom(rooms, rooms', [s, e])
    requires Grows(rooms, g, g1) && Dug(g1, g2, DigCells(down, s, distance, turnSpot, d, n)) && FullGrid(g2)
    requires (if down then Below(c.a, c.b) else RightOf(c.a, c.b))
    requires c.path == [s] + DigCells(down, s, distance, turnSpot, d, n) + [e]
    requires LeavesFrom(down, rooms[c.a], s) && Enters(down, rooms[c.b], e) && InBounds(s) && InBounds(e)
    requires EndsAt(g1, rooms'[c.a], s) && EndsAt(g1, rooms'[c.b], e)
    requires Turns(d, n, Across(down, s), Across(down, e))
    requires distance == Along(down, e) - Along(down, s) - 1 && 1 <= turnSpot <= distance
    requires AllDrawn(g, rooms, cs) && ExitsOnCorridors(rooms, cs)
    ensures AllDrawn(g2, rooms', cs + [c])
    ensures ExitsOnCorridors(rooms', cs + [c])
    ensures Grows(rooms, g, g2)
  {
    hide LegalRooms, MoreExits, ExitsFrom, Grows, Dug, FullGrid, LeavesFrom, Enters, EndsAt, Turns, InBounds;
    hide ExitsOnCorridors, DigCells, Drawn, AllDrawn, Inside;
    SameCount(rooms, rooms');
    var cells := DigCells(down, s, distance, turnSpot, d, n);
    CellsBetween(down, s, e, distance, turnSpot, d, n);
    GrowsRefl(rooms, g);
    DugGrows(rooms, c.a, c.b, down, s, e, g1, g2, cells);
    GrowsBack(rooms, rooms', g1, g2);
    CellsOutside(rooms, rooms', c.a, c.b, down, s, e, cells);
    NewDrawn(rooms', g1, g2, c.a, c.b, down, s, e, cells);
    ExitsStillOnCorridors(rooms, rooms', cs, c, [s, e]);
    GrowsTrans(rooms, rooms, g, g1, g2);
    OneMoreDrawn(rooms, rooms', g, g2, cs, c);
  }

  lemma OneMoreDrawn(rooms: seq<Room>, rooms': seq<Room>, g: Grid, g': Grid, cs: seq<Corridor>, c: Corridor)
    requires AllDrawn(g, rooms, cs) && Grows(rooms, g, g') && MoreExits(rooms, rooms') && Drawn(g', rooms', c)
    ensures AllDrawn(g', rooms', cs + [c])
  {
    hide Drawn, Grows, MoreExits;
    forall c' | c' in cs
      ensures Drawn(g', rooms', c')
    {
      DrawnKept(g, rooms, g', rooms', c');
    }
  }

  lemma SameCount(rooms: seq<Room>, rooms': seq<Room>)
    requires LegalRooms(rooms) && MoreExits(rooms, rooms')
    ensures |rooms| == |rooms'| == MAXROOMS
  {
  }

  lemma CorridorCounted(rooms: seq<Room>, rooms': seq<Room>, cs: seq<Corridor>, c: Corridor)
    requires FewExits(rooms, cs) && OneExitEach(rooms, rooms', c.a, c.b)
    requires BetweenNeighbours(cs) && Neighbours(c.a, c.b)
    ensures FewExits(rooms', cs + [c]) && BetweenNeighbours(cs + [c])
  {
    assert (cs + [c])[..|cs|] == cs;
  }

  function Other(c: Corridor, i: int): int { if c.a == i then c.b else c.a }

  /** The rooms at the other ends of a room's corridors. */
  ghost function Partners(cs: seq<Corridor>, i: int): set<int> {
    if cs == [] then {}
    else
      var c := cs[|cs| - 1];
      Partners(cs[..|cs| - 1], i) + if Touches(c, i) then {Other(c, i)} else {}
  }

  lemma {:induction false} PartnersAreEnds(cs: seq<Corridor>, i: int, j: int)
    requires j in Partners(cs, i)
    ensures exists k :: 0 <= k < |cs| && Touches(cs[k], i) && Other(cs[k], i) == j
  {
    var n := |cs| - 1;
    if Touches(cs[n], i) && Other(cs[n], i) == j {
    } else {
      PartnersAreEnds(cs[..n], i, j);
      var k :| 0 <= k < n && Touches(cs[..n][k], i) && Other(cs[..n][k], i) == j;
      assert Touches(cs[k], i) && Other(cs[k], i) == j;
    }
  }

  lemma {:induction false} NoPartner(cs: seq<Corridor>, i: int, j: int)
    requires forall k :: 0 <= k < |cs| ==> !(Touches(cs[k], i) && Other(cs[k], i) == j)
    ensures j !in Partners(cs, i)
  {
    if cs != [] {
      var rest := cs[..|cs| - 1];
      assert forall k :: 0 <= k < |rest| ==> rest[k] == cs[k];
      NoPartner(rest, i, j);
    }
  }

  /** With one corridor to a pair, a room has as many corridors as partners. */
  lemma {:induction false} DegreeIsPartners(cs: seq<Corridor>, i: int)
    requires OnePerPair(cs)
    ensures Degree(cs, i) == |Partners(cs, i)|
  {
    if cs != [] {
      var n := |cs| - 1;
      var c := cs[n];
      DegreeIsPartners(cs[..n], i);
      if Touches(c, i) {
        forall k | 0 <= k < n
          ensures !(Touches(cs[..n][k], i) && Other(cs[..n][k], i) == Other(c, i))
        {
          assert cs[..n][k] == cs[k];
        }
        NoPartner(cs[..n], i, Other(c, i));
      }
    }
  }

  /** No room has more than four exits: far fewer than there is room for. */
  lemma FourExits(rooms: seq<Room>, cs: seq<Corridor>, i: int)
    requires FewExits(rooms, cs) && BetweenNeighbours(cs) && OnePerPair(cs) && 0 <= i < |rooms|
    ensures |rooms[i].exits| <= 4
  {
    DegreeIsPartners(cs, i);
    var around := {i - 1, i + 1, i - 3, i + 3};
    forall j | j in Partners(cs, i)
      ensures j in around
    {
      PartnersAreEnds(cs, i, j);
      var k :| 0 <= k < |cs| && Touches(cs[k], i) && Other(cs[k], i) == j;
      assert cs[k] in cs;
    }
    SubsetSize(Partners(cs, i), around);
    assert |around| == 4;
  }

  /** Recording an exit changes nothing else about the rooms. */
  lemma OneExit(rooms: seq<Room>, rooms': seq<Room>, i: int, c: Coord)
    requires LegalRooms(rooms) && 0 <= i < |rooms| == |rooms'| && rooms' == rooms[i := rooms'[i]]
    requires rooms'[i] == rooms[i] || rooms'[i] == rooms[i].(exits := rooms[i].exits + [c])
    ensures LegalRooms(rooms') && MoreExits(rooms, rooms') && ExitsFrom(rooms, rooms', [c])
    ensures forall k :: 0 <= k < |rooms| ==> |rooms'[k].exits| <= |rooms[k].exits| + if k == i then 1 else 0
  {
    forall k | 0 <= k < |rooms|
      ensures MoreExitsOf(rooms[k], rooms'[k]) && LegalRoom(k, rooms'[k])
    {
      assert LegalRoom(k, rooms[k]);
    }
  }

  lemma TwoEnds(
    rooms: seq<Room>, rooms1: seq<Room>, rooms2: seq<Room>, g: Grid, g1: Grid, g2: Grid, i: int, s: Coord, e: Coord)
    requires 0 <= i < |rooms| && MoreExits(rooms, rooms1) && MoreExits(rooms1, rooms2)
    requires Grows(rooms, g, g1) && Grows(rooms1, g1, g2) && EndsAt(g1, rooms1[i], s)
    requires ExitsFrom(rooms, rooms1, [s]) && ExitsFrom(rooms1, rooms2, [e])
    ensures Grows(rooms, g, g2) && MoreExits(rooms, rooms2) && EndsAt(g2, rooms2[i], s)
    ensures ExitsFrom(rooms, rooms2, [s, e])
  {
    EndsAtKept(g1, rooms1, g2, rooms2, i, s);
    GrowsTrans(rooms, rooms1, g, g1, g2);
    MoreExitsTrans(rooms, rooms1, rooms2);
    forall k, x | 0 <= k < |rooms| && x in rooms2[k].exits
      ensures x in rooms[k].exits || x in [s, e]
    {
      assert x in rooms1[k].exits || x in [e];
    }
  }

  /** Corridors that have used up a number: all their cells are numbered. */
  ghost predicate UsedCorridors(cs: seq<Corridor>, used: set<int>, g: Grid) {
    forall k :: k in used ==> 0 <= k < |cs| && forall c :: c in cs[k].path ==> c in Numbered(g)
  }

  ghost function Indices(n: nat): (s: set<int>)
    ensures |s| == n && forall k :: k in s <==> 0 <= k < n
  {
    if n == 0 then {} else Indices(n - 1) + {n - 1}
  }

  lemma UsedBoundAll(cs: seq<Corridor>, used: set<int>)
    requires forall k :: k in used ==> 0 <= k < |cs|
    ensures |used| <= |cs|
  {
    SubsetSize(used, Indices(|cs|));
  }

  /** A corridor with an unnumbered cell has used no number yet. */
  lemma UsedBound(cs: seq<Corridor>, used: set<int>, c: int, e: Coord, g: Grid)
    requires UsedCorridors(cs, used, g) && 0 <= c < |cs| && e in cs[c].path
    ensures e !in Numbered(g) ==> c !in used && |used| < |cs|
    ensures |used| <= |cs|
  {
    UsedBoundAll(cs, used);
    if e !in Numbered(g) {
      UsedBoundAll(cs, used + {c});
    }
  }

  /** The numbering so far: each number has used up a corridor of its own. */
  ghost predicate NumberingSoFar(g: Grid, g': Grid, pnum: int, cs: seq<Corridor>, used: set<int>) {
    && SameButNums(g, g')
    && WellNumbered(g', pnum) && |used| == pnum
    && UsedCorridors(cs, used, g')
  }

  lemma NothingNumbered(g: Grid, cs: seq<Corridor>, lists: seq<seq<Coord>>)
    requires Unnumbered(g) && |lists| == MAXPASS && forall k :: 0 <= k < |lists| ==> lists[k] == []
    ensures NumberingSoFar(g, g, 0, cs, {}) && DoorLists(lists, g)
  {
    assert Numbered(g) == {};
  }

  lemma NumberingEnds(g: Grid, g': Grid, pnum: int, cs: seq<Corridor>, used: set<int>)
    requires NumberingSoFar(g, g', pnum, cs, used)
    ensures SameButNums(g, g') && WellNumbered(g', pnum) && 0 <= pnum <= |cs|
  {
    hide SameButNums, WellNumbered;
    UsedBoundAll(cs, used);
  }

  /** An exit can carry a number, and when it has none yet there is a number left for it. */
  lemma MayNumber(g: Grid, g': Grid, rooms: seq<Room>, cs: seq<Corridor>, used: set<int>, e: Coord)
    requires SameButNums(g, g') && AllDrawn(g, rooms, cs) && UsedCorridors(cs, used, g') && OnSomeCorridor(cs, e)
    ensures e in NumberableCells(g') && |used| <= |cs|
    ensures e !in Numbered(g') ==> |used| < |cs|
  {
    var c :| 0 <= c < |cs| && e in cs[c].path;
    PathNumberable(g, rooms, cs[c]);
    SameCells(g, g');
    UsedBound(cs, used, c, e, g');
  }

  /** Flooding from an exit keeps the numbering good. */
  lemma ExitNumbered(g: Grid, g1: Grid, g2: Grid, rooms: seq<Room>, cs: seq<Corridor>, used: set<int>, e: Coord)
    returns (used': set<int>)
    requires NumberingSoFar(g, g1, |used|, cs, used) && AllDrawn(g, rooms, cs) && OnSomeCorridor(cs, e)
    requires if e in Numbered(g1) then g2 == g1 else Flooded(g1, g2, e, |used| + 1)
    ensures NumberingSoFar(g, g2, |used| + (if e in Numbered(g1) then 0 else 1), cs, used')
    ensures e in Numbered(g2) && Numbered(g1) <= Numbered(g2)
  {
    hide WellNumbered, SameButNums, Drawn, UsedCorridors, Flooded;
    used' := used;
    FloodAdds(g1, g2, e, |used| + 1);
    if e !in Numbered(g1) {
      var c :| 0 <= c < |cs| && e in cs[c].path;
      MayNumber(g, g1, rooms, cs, used, e);
      FloodNumbers(g1, g2, e, |used|);
      SameTwice(g, g1, g2);
      SameCells(g, g2);
      PathNumberable(g, rooms, cs[c]);
      PathNumbered(g2, cs[c].path, e, |used| + 1);
      UsedBound(cs, used, c, e, g1);
      used' := used + {c};
      OneMoreUsed(cs, used, c, g1, g2);
    }
  }

  lemma FloodAdds(g: Grid, g': Grid, e: Coord, n: int)
    ensures Flooded(g, g', e, n) ==> SameButNums(g, g') && Numbered(g) <= Numbered(g')
  {
  }

  lemma SameTwice(g: Grid, g1: Grid, g2: Grid)
    requires SameButNums(g, g1) && SameButNums(g1, g2)
    ensures SameButNums(g, g2)
  {
  }

  lemma OneMoreUsed(cs: seq<Corridor>, used: set<int>, c: int, g: Grid, g': Grid)
    requires UsedCorridors(cs, used, g) && Numbered(g) <= Numbered(g')
    requires 0 <= c < |cs| && forall p :: p in cs[c].path ==> p in Numbered(g')
    ensures UsedCorridors(cs, used + {c}, g')
  {
    hide Numbered;
  }

  /** Every cell of a drawn corridor can carry a number. */
  lemma PathNumberable(g: Grid, rooms: seq<Room>, c: Corridor)
    requires Drawn(g, rooms, c)
    ensures Contiguous(c.path) && forall p :: p in c.path ==> p in NumberableCells(g)
  {
    forall p | p in c.path
      ensures p in NumberableCells(g)
    {
      var k :| 0 <= k < |c.path| && c.path[k] == p;
      if k == 0 {
      } else if k == |c.path| - 1 {
      } else {
      }
    }
  }

  /** A corridor with one numbered cell is numbered throughout. */
  lemma PathNumbered(g: Grid, path: seq<Coord>, e: Coord, top: int)
    requires WellNumbered(g, top) && e in Numbered(g) && e in path
    requires Contiguous(path) && forall p :: p in path ==> p in NumberableCells(g)
    ensures forall p :: p in path ==> p in Numbered(g)
  {
    var i :| 0 <= i < |path| && path[i] == e;
    forall p | p in path
      ensures p in Numbered(g)
    {
      var j :| 0 <= j < |path| && path[j] == p;
      ContiguousLinks(NumberableCells(g), path, i, j);
      ConnectedNumbers(g, top, e, p);
    }
  }

  /** In a good numbering a corridor has one number from end to end, or none at all. */
  lemma OneNumberPerCorridor(g: Grid, top: int, rooms: seq<Room>, c: Corridor, p: Coord, q: Coord)
    requires WellNumbered(g, top) && Drawn(g, rooms, c) && p in c.path && q in c.path
    ensures p in g && q in g && g[p].num == g[q].num
  {
    PathNumberable(g, rooms, c);
    if p in Numbered(g) {
      PathNumbered(g, c.path, p, top);
      var i :| 0 <= i < |c.path| && c.path[i] == p;
      var j :| 0 <= j < |c.path| && c.path[j] == q;
      ContiguousLinks(NumberableCells(g), c.path, i, j);
      ConnectedNumbers(g, top, p, q);
    } else if q in Numbered(g) {
      PathNumbered(g, c.path, q, top);
    }
  }

  lemma NumbersKeepCorridors(g: Grid, g': Grid, rooms: seq<Room>, cs: seq<Corridor>)
    requires SameButNums(g, g') && AllDrawn(g, rooms, cs) && DoorsLook(g, rooms)
    ensures AllDrawn(g', rooms, cs) && DoorsLook(g', rooms)
  {
    forall i, e | 0 <= i < |rooms| && e in rooms[i].exits
      ensures DoorLooks(g', rooms[i], e)
    {
      assert DoorLooks(g, rooms[i], e);
    }
    hide InSomeRoom;
    forall c | c in cs
      ensures Drawn(g', rooms, c)
    {
      assert Drawn(g, rooms, c);
      forall k | 0 < k < |c.path| - 1
        ensures DugAt(g', rooms, c.path[k])
      {
        assert DugAt(g, rooms, c.path[k]);
      }
    }
  }

  lemma NumbersHideNothing(g: Grid, g': Grid)
    requires SameButNums(g, g')
    ensures AllHonest(g) ==> AllHonest(g')
  {
  }

  ghost function InGraph(ingraph: seq<bool>): set<int> {
    set i | 0 <= i < |ingraph| && ingraph[i]
  }

  /** No two corridors join the same two rooms. */
  ghost predicate OnePerPair(cs: seq<Corridor>) {
    forall k, l :: 0 <= k < l < |cs| ==>
      !((cs[k].a == cs[l].a && cs[k].b == cs[l].b) || (cs[k].a == cs[l].b && cs[k].b == cs[l].a))
  }

  /** Every room of the graph, and no other, is connected to the start, and the edges stay among them. */
  ghost predicate TreeFrom(isconn: set<(int, int)>, ingraph: seq<bool>, start: int) {
    && |ingraph| == MAXROOMS && 0 <= start < MAXROOMS && ingraph[start]
    && Symmetric(isconn)
    && (forall i :: 0 <= i < MAXROOMS && ingraph[i] ==> Linked(isconn, start, i))
    && (forall i, j :: (i, j) in isconn ==> 0 <= i < MAXROOMS && 0 <= j < MAXROOMS && ingraph[i] && ingraph[j])
  }

  /** Any two rooms are connected by a chain of corridors. */
  ghost predicate Spanning(isconn: set<(int, int)>) {
    forall i, j :: 0 <= i < MAXROOMS && 0 <= j < MAXROOMS ==> Linked(isconn, i, j)
  }

  lemma NoCorridors(rooms: seq<Room>, g: Grid)
    requires forall i :: 0 <= i < |rooms| ==> rooms[i].exits == []
    ensures Edges([]) == {} && AllDrawn(g, rooms, []) && ExitsOnCorridors(rooms, [])
    ensures FewExits(rooms, []) && BetweenNeighbours([]) && DoorsLook(g, rooms)
  {
  }

  lemma InsideSize(ingraph: seq<bool>, start: int)
    requires 0 <= start < |ingraph| && forall i :: 0 <= i < |ingraph| ==> (ingraph[i] <==> i == start)
    ensures |InGraph(ingraph)| == 1
  {
    assert InGraph(ingraph) == {start};
  }

  lemma EdgesAppend(cs: seq<Corridor>, c: Corridor)
    ensures Edges(cs + [c]) == Edges(cs) + {(c.a, c.b), (c.b, c.a)}
  {
  }

  lemma EdgesBothWays(cs: seq<Corridor>, r1: int, r2: int)
    ensures (r1, r2) in Edges(cs) <==> (r2, r1) in Edges(cs)
  {
  }

  /** A new corridor joins a pair of rooms that no earlier one joins. */
  lemma NewPair(cs: seq<Corridor>, c: Corridor)
    requires OnePerPair(cs) && (c.a, c.b) !in Edges(cs)
    ensures OnePerPair(cs + [c])
  {
    forall k | 0 <= k < |cs|
      ensures !((cs[k].a == c.a && cs[k].b == c.b) || (cs[k].a == c.b && cs[k].b == c.a))
    {
      assert cs[k] in cs;
    }
  }

  lemma TreeExtends(isconn: set<(int, int)>, ingraph: seq<bool>, start: int, r1: int, r2: int)
    requires TreeFrom(isconn, ingraph, start)
    requires 0 <= r1 < MAXROOMS && 0 <= r2 < MAXROOMS && ingraph[r1] && !ingraph[r2]
    ensures TreeFrom(isconn + {(r1, r2), (r2, r1)}, ingraph[r2 := true], start)
  {
    var isconn' := isconn + {(r1, r2), (r2, r1)};
    forall i | 0 <= i < MAXROOMS && ingraph[r2 := true][i]
      ensures Linked(isconn', start, i)
    {
      if i == r2 {
        LinkedMono(isconn, isconn', start, r1);
        LinkedEdge(isconn', r1, r2);
        LinkedTrans(isconn', start, r1, r2);
      } else {
        LinkedMono(isconn, isconn', start, i);
      }
    }
  }

  lemma OneRoomMore(ingraph: seq<bool>, r: int)
    requires 0 <= r < |ingraph| && !ingraph[r]
    ensures |InGraph(ingraph[r := true])| == |InGraph(ingraph)| + 1
  {
    assert InGraph(ingraph[r := true]) == InGraph(ingraph) + {r};
  }

  /** Connecting a room of the graph to one outside it grows the tree by that room. */
  lemma TreeGrows(
    isconn: set<(int, int)>, ingraph: seq<bool>, start: int, r1: int, r2: int, cs: seq<Corridor>, c: Corridor)
    requires TreeFrom(isconn, ingraph, start) && isconn == Edges(cs) && OnePerPair(cs)
    requires 0 <= r1 < MAXROOMS && 0 <= r2 < MAXROOMS && ingraph[r1] && !ingraph[r2]
    requires (c.a == r1 && c.b == r2) || (c.a == r2 && c.b == r1)
    ensures var isconn' := isconn + {(r1, r2), (r2, r1)};
      TreeFrom(isconn', ingraph[r2 := true], start) && isconn' == Edges(cs + [c]) && OnePerPair(cs + [c])
    ensures |InGraph(ingraph[r2 := true])| == |InGraph(ingraph)| + 1
  {
    hide Linked, OnePerPair, Edges, InGraph;
    EdgesAppend(cs, c);
    NewPair(cs, c);
    TreeExtends(isconn, ingraph, start, r1, r2);
    OneRoomMore(ingraph, r2);
  }

  lemma AllInside(ingraph: seq<bool>)
    requires |ingraph| == |InGraph(ingraph)|
    ensures forall i :: 0 <= i < |ingraph| ==> ingraph[i]
  {
    var all := Indices(|ingraph|);
    SubsetSize(InGraph(ingraph), all);
    forall i | 0 <= i < |ingraph|
      ensures ingraph[i]
    {
      assert i in all && i in InGraph(ingraph);
    }
  }

  /** A tree with as many rooms as there are reaches them all. */
  lemma TreeSpans(isconn: set<(int, int)>, ingraph: seq<bool>, start: int)
    requires TreeFrom(isconn, ingraph, start) && |InGraph(ingraph)| == MAXROOMS
    ensures Spanning(isconn)
  {
    hide Linked, InGraph;
    AllInside(ingraph);
    forall i, j | 0 <= i < MAXROOMS && 0 <= j < MAXROOMS
      ensures Linked(isconn, i, j)
    {
      LinkedSym(isconn, start, i);
      LinkedTrans(isconn, i, start, j);
    }
  }

  /** A size and place for an ordinary room in the box with the given corner. */
  predicate RoomFits(top: Coord, r: Room) {
    && 4 <= r.max.x && 4 <= r.max.y
    && top.x <= r.pos.x && r.pos.x + r.max.x < top.x + BOX_WIDTH
    && top.y <= r.pos.y && r.pos.y + r.max.y < top.y + BOX_HEIGHT
  }

  lemma MoreConnections(isconn: set<(int, int)>, cs: seq<Corridor>, c: Corridor, r1: int, r2: int)
    requires isconn == Edges(cs) && OnePerPair(cs) && Spanning(isconn) && (r1, r2) !in isconn
    requires (c.a == r1 && c.b == r2) || (c.a == r2 && c.b == r1)
    ensures isconn + {(r1, r2), (r2, r1)} == Edges(cs + [c])
    ensures OnePerPair(cs + [c]) && Spanning(Edges(cs + [c]))
  {
    EdgesAppend(cs, c);
    EdgesBothWays(cs, r1, r2);
    NewPair(cs, c);
    forall i, j | 0 <= i < MAXROOMS && 0 <= j < MAXROOMS
      ensures Linked(Edges(cs + [c]), i, j)
    {
      LinkedMono(isconn, Edges(cs + [c]), i, j);
    }
  }

  lemma MoveOver<T>(done: seq<T>, next: seq<T>, rest: seq<T>, all: seq<T>)
    requires done + (next + rest) == all
    ensures done + next + rest == all
    ensures forall c :: c in next ==> c in all
  {
    assert forall k :: 0 <= k < |next| ==> all[|done| + k] == next[k];
  }

  lemma NoneDug(g: Grid)
    ensures Dug(g, g, [])
  {
  }

  lemma DugOne(g: Grid, g1: Grid, g2: Grid, done: seq<Coord>, c: Coord)
    requires Dug(g, g1, done) && FullGrid(g) && OnGrid(c)
    requires g2 == g1[c := PlainPassage(g1[c])] || g2 == g1[c := HiddenPassage(g1[c])]
    ensures Dug(g, g2, done + [c])
  {
  }

  lemma DugMore(g: Grid, g1: Grid, g2: Grid, done: seq<Coord>, more: seq<Coord>)
    requires Dug(g, g1, done) && Dug(g1, g2, more)
    ensures Dug(g, g2, done + more)
  {
  }
}

/** The level's data: cells, rooms and the 3x3 layout, with the box arithmetic the corridors rely on. */
module DungeonMap {
  import opened Walks

  const MAXROOMS := 9
  const MAXPASS := 13
  const NUMLINES := 24
  const NUMCOLS := 80
  const MAXLINES := 32
  const MAXCOLS := 80

  const BOX_WIDTH := NUMCOLS / 3
  const BOX_HEIGHT := NUMLINES / 3

  const PASSAGE := '#'
  const DOOR := '+'

  const F_PASS: bv8 := 0x80
  const F_SEEN: bv8 := 0x40
  const F_DROPPED: bv8 := 0x20
  const F_REAL: bv8 := 0x10
  const F_PNUM: bv8 := 0x0f

  datatype Coord = Coord(x: int, y: int)

  /** Passage numbers share the flag byte: four bits are all they have. */
  type PassNum = n: int | 0 <= n <= 15

  /** A map cell: its character, and its flag byte taken apart (`honest` is the bit that says the cell is what it seems). */
  datatype Place = Place(ch: char, pass: bool, seen: bool, dropped: bool, honest: bool, num: PassNum) {
    /** A door, or a secret door: a wall character that is not what it seems. */
    predicate IsDoor() { ch == DOOR || (!honest && (ch == '|' || ch == '-')) }

    predicate Numberable() { IsDoor() || pass }

    /** The flag byte the fields are taken from. */
    function Flags(): bv8 {
      (if pass then F_PASS else 0) | (if seen then F_SEEN else 0) | (if dropped then F_DROPPED else 0)
      | (if honest then F_REAL else 0) | Nibble(num)
    }
  }

  function Nibble(n: PassNum): (b: bv8)
    ensures b & F_PNUM == b
    ensures b == 0 <==> n == 0
  {
    match n
    case 0 => 0 case 1 => 1 case 2 => 2 case 3 => 3 case 4 => 4 case 5 => 5 case 6 => 6 case 7 => 7
    case 8 => 8 case 9 => 9 case 10 => 10 case 11 => 11 case 12 => 12 case 13 => 13 case 14 => 14 case _ => 15
  }

  /** The field updates of this model are the bit operations on the flag byte, as long as a number fits its four bits. */
  lemma FlagsAreBits(p: Place, n: PassNum)
    ensures p.pass <==> p.Flags() & F_PASS != 0
    ensures p.honest <==> p.Flags() & F_REAL != 0
    ensures p.num == 0 <==> p.Flags() & F_PNUM == 0
    ensures p.(pass := true).Flags() == p.Flags() | F_PASS
    ensures p.(honest := false).Flags() == p.Flags() & !F_REAL
    ensures p.num == 0 ==> p.(num := n).Flags() == p.Flags() | Nibble(n)
  {
  }

  /** The flag byte from its top bit down: passage, seen, dropped, real, and the number in binary. */
  lemma FlagsInBits(p: Place)
    ensures p.Flags() & 0x80 == (if p.pass then 0x80 else 0) && p.Flags() & 0x40 == (if p.seen then 0x40 else 0)
    ensures p.Flags() & 0x20 == (if p.dropped then 0x20 else 0) && p.Flags() & 0x10 == (if p.honest then 0x10 else 0)
    ensures p.Flags() & 0x0f == Nibble(p.num) && Nibble(0) == 0
    ensures p.num < 15 ==> Nibble(p.num + 1) == Nibble(p.num) + 1
  {
  }

  const BLANK := Place(' ', false, false, false, true, 0)

  /** A room's upper left corner, size, kind and the doors it has been given. */
  datatype Room = Room(pos: Coord, max: Coord, gone: bool, dark: bool, maze: bool, exits: seq<Coord>) {
    /** The room's rectangle, walls included. */
    predicate Covers(c: Coord) {
      && pos.x <= c.x < pos.x + max.x
      && pos.y <= c.y < pos.y + max.y
    }
  }

  type Grid = map<Coord, Place>

  predicate OnGrid(c: Coord) {
    0 <= c.x < MAXCOLS && 0 <= c.y < MAXLINES
  }

  /** The part of the array the passage numbering looks at: the top line is excluded. */
  predicate InBounds(c: Coord) {
    0 <= c.x < NUMCOLS && 0 < c.y < NUMLINES
  }

  ghost predicate FullGrid(g: Grid) {
    forall c :: OnGrid(c) <==> c in g
  }

  predicate Adjacent(a: Coord, b: Coord) {
    (a.x == b.x && (a.y == b.y + 1 || b.y == a.y + 1)) || (a.y == b.y && (a.x == b.x + 1 || b.x == a.x + 1))
  }

  /** A nonempty sequence of cells, each orthogonally next to the one before it. */
  predicate Contiguous(p: seq<Coord>) {
    && 0 < |p|
    && forall i :: 0 <= i < |p| - 1 ==> StepAt(p, i)
  }

  predicate StepAt(p: seq<Coord>, i: int)
    requires 0 <= i < |p| - 1
  {
    Adjacent(p[i], p[i + 1])
  }

  lemma ContiguousAppend(p: seq<Coord>, c: Coord)
    requires Contiguous(p) && Adjacent(p[|p| - 1], c)
    ensures Contiguous(p + [c])
  {
    var q := p + [c];
    forall i | 0 <= i < |q| - 1
      ensures StepAt(q, i)
    {
      if i < |p| - 1 {
        assert StepAt(p, i);
      }
    }
  }

  /** The cells of g that can carry a passage number. */
  ghost function NumberableCells(g: Grid): set<Coord> {
    set c | c in g && InBounds(c) && g[c].Numberable()
  }

  /** Steps between orthogonal neighbours of a set of cells. */
  ghost function Steps(cells: set<Coord>): set<(Coord, Coord)> {
    set a, b | a in cells && b in cells && Adjacent(a, b) :: (a, b)
  }

  lemma StepsSymmetric(cells: set<Coord>)
    ensures Symmetric(Steps(cells))
  {
  }

  /** A contiguous run of cells of a set is a walk over the steps of that set. */
  lemma ContiguousLinks(cells: set<Coord>, p: seq<Coord>, i: int, j: int)
    requires Contiguous(p) && (forall c :: c in p ==> c in cells)
    requires 0 <= i < |p| && 0 <= j < |p|
    ensures Linked(Steps(cells), p[i], p[j])
  {
    if i <= j {
      var q := p[i..j + 1];
      forall k | 0 <= k < |q| - 1
        ensures (q[k], q[k + 1]) in Steps(cells)
      {
        assert StepAt(p, i + k);
      }
      assert WalkBetween(Steps(cells), q, p[i], p[j]);
    } else {
      ContiguousLinks(cells, p, j, i);
      StepsSymmetric(cells);
      LinkedSym(Steps(cells), p[j], p[i]);
    }
  }

  // ----- the 3x3 layout

  /** Upper left corner of the box that room i goes in. */
  function Top(i: int): Coord {
    Coord((i % 3) * BOX_WIDTH + 1, (i / 3) * BOX_HEIGHT)
  }

  /** What room placement promises about room i: it fits its box and leaves the box's last line and column free. */
  predicate LegalRoom(i: int, r: Room) {
    var top := Top(i);
    && 0 <= i < MAXROOMS
    && (r.gone ==>
      && !r.maze
      && top.x < r.pos.x < top.x + BOX_WIDTH - 1
      && top.y < r.pos.y < top.y + BOX_HEIGHT - 1
      && r.max == Coord(-NUMCOLS, -NUMLINES))
    && (!r.gone ==>
      && 4 <= r.max.x && 4 <= r.max.y
      && 0 <= r.pos.x && (top.x <= r.pos.x || (r.maze && r.pos.x == 0 && top.x == 1))
      && 0 < r.pos.y && top.y <= r.pos.y
      && r.pos.x + r.max.x < top.x + BOX_WIDTH
      && r.pos.y + r.max.y < top.y + BOX_HEIGHT)
  }

  lemma RoomSpan(i: int, r: Room)
    requires LegalRoom(i, r)
    ensures r.gone ==> InBounds(r.pos) && !r.maze
    ensures !r.gone ==> 4 <= r.max.x && 4 <= r.max.y && 0 <= r.pos.x && 0 < r.pos.y
    ensures !r.gone ==> r.pos.x + r.max.x < NUMCOLS && r.pos.y + r.max.y < NUMLINES
  {
    assert i % 3 <= 2 && i / 3 <= 2;
  }

  predicate LegalRooms(rooms: seq<Room>) {
    && |rooms| == MAXROOMS
    && forall i :: 0 <= i < MAXROOMS ==> LegalRoom(i, rooms[i])
  }

  /** Two boxes of the layout share a side: j is directly to the right of i, or directly below it. */
  predicate RightOf(i: int, j: int) {
    0 <= i < MAXROOMS && 0 <= j < MAXROOMS && j == i + 1 && i % 3 != 2
  }

  predicate Below(i: int, j: int) {
    0 <= i < MAXROOMS && 0 <= j < MAXROOMS && j == i + 3
  }

  predicate Neighbours(i: int, j: int) {
    RightOf(i, j) || RightOf(j, i) || Below(i, j) || Below(j, i)
  }

  /** A corridor drawn from room `a` to room `b`, with every cell it runs through from end to end. */
  datatype Corridor = Corridor(a: int, b: int, path: seq<Coord>)

  /** What stands at the end of a corridor at room r: a recorded exit, or just passage when the room is gone. */
  predicate EndsAt(g: Grid, r: Room, c: Coord) {
    && c in g && InBounds(c)
    && if r.gone then c == r.pos && g[c].pass
       else c in r.exits && r.Covers(c) && (if r.maze then g[c].pass else g[c].IsDoor())
  }

  /** A passage cell is seen as one on the map, unless it is hidden. */
  predicate LooksDug(p: Place) { p.ch == '#' || !p.honest }

  /** A cell in the wall of a room. */
  predicate OnWall(r: Room, c: Coord) {
    r.Covers(c) && (OnTopOrBottom(r, c) || c.x == r.pos.x || c.x == r.pos.x + r.max.x - 1)
  }

  predicate OnTopOrBottom(r: Room, c: Coord) { c.y == r.pos.y || c.y == r.pos.y + r.max.y - 1 }

  /** A door is seen as one, or, if it is hidden, as the piece of wall it stands in. */
  predicate LooksLikeDoor(r: Room, c: Coord, p: Place) {
    p.ch == '+' || (!p.honest && p.ch == if OnTopOrBottom(r, c) then '-' else '|')
  }

  /** Every exit is in the wall of its room, and looks like it, except in mazes. */
  ghost predicate DoorsLook(g: Grid, rooms: seq<Room>) {
    forall i, e :: 0 <= i < |rooms| && e in rooms[i].exits ==> DoorLooks(g, rooms[i], e)
  }

  predicate DoorLooks(g: Grid, r: Room, e: Coord) {
    !r.gone && OnWall(r, e) && e in g && (!r.maze ==> LooksLikeDoor(r, e, g[e]))
  }

  /** No cell is other than it seems. */
  ghost predicate AllHonest(g: Grid) { forall c :: c in g ==> g[c].honest }

  /** A cell of a corridor between its ends. */
  predicate DugAt(g: Grid, rooms: seq<Room>, c: Coord) {
    c in g && InBounds(c) && g[c].pass && LooksDug(g[c]) && !InSomeRoom(rooms, c)
  }

  /** A corridor is an unbroken run of passage cells from an exit of one room to an exit of the other, seen outside all rooms. */
  predicate Drawn(g: Grid, rooms: seq<Room>, c: Corridor) {
    && 0 <= c.a < |rooms| && 0 <= c.b < |rooms|
    && Contiguous(c.path)
    && EndsAt(g, rooms[c.a], c.path[0])
    && EndsAt(g, rooms[c.b], c.path[|c.path| - 1])
    && forall k :: 0 < k < |c.path| - 1 ==> DugAt(g, rooms, c.path[k])
  }

  /** c lies in the rectangle of a room that is there. */
  predicate InSomeRoom(rooms: seq<Room>, c: Coord) {
    exists i :: 0 <= i < |rooms| && !rooms[i].gone && rooms[i].Covers(c)
  }

  /** What corridor drawing keeps: passages, the doors of rooms and passage numbers are never lost. */
  ghost predicate Grows(rooms: seq<Room>, g: Grid, g': Grid) {
    && g.Keys == g'.Keys
    && forall c :: c in g ==> CellGrows(InSomeRoom(rooms, c), g[c], g'[c])
  }

  predicate CellGrows(inRoom: bool, p: Place, p': Place) {
    && p'.num == p.num
    && (p.pass ==> p'.pass)
    && (p.IsDoor() && inRoom ==> p'.IsDoor())
    && (LooksDug(p) && !inRoom ==> LooksDug(p'))
  }

  /** Same rooms, except that exits may have been added. */
  predicate MoreExits(rooms: seq<Room>, rooms': seq<Room>) {
    && |rooms'| == |rooms|
    && forall i :: 0 <= i < |rooms| ==> MoreExitsOf(rooms[i], rooms'[i])
  }

  predicate MoreExitsOf(r: Room, r': Room) {
    && r' == r.(exits := r'.exits)
    && r.exits <= r'.exits
  }

  lemma SameRects(rooms: seq<Room>, rooms': seq<Room>, c: Coord)
    requires MoreExits(rooms, rooms')
    ensures InSomeRoom(rooms, c) <==> InSomeRoom(rooms', c)
  {
    if InSomeRoom(rooms, c) {
      var i :| 0 <= i < |rooms| && !rooms[i].gone && rooms[i].Covers(c);
      assert MoreExitsOf(rooms[i], rooms'[i]);
      assert rooms'[i].Covers(c);
    }
    if InSomeRoom(rooms', c) {
      var i :| 0 <= i < |rooms'| && !rooms'[i].gone && rooms'[i].Covers(c);
      assert MoreExitsOf(rooms[i], rooms'[i]);
      assert rooms[i].Covers(c);
    }
  }

  lemma GrowsRefl(rooms: seq<Room>, g: Grid)
    ensures Grows(rooms, g, g) && MoreExits(rooms, rooms)
  {
    forall i | 0 <= i < |rooms|
      ensures MoreExitsOf(rooms[i], rooms[i])
    {
    }
  }

  lemma MoreExitsTrans(rooms: seq<Room>, rooms1: seq<Room>, rooms2: seq<Room>)
    requires MoreExits(rooms, rooms1) && MoreExits(rooms1, rooms2)
    ensures MoreExits(rooms, rooms2)
  {
    forall i | 0 <= i < |rooms|
      ensures MoreExitsOf(rooms[i], rooms2[i])
    {
      assert MoreExitsOf(rooms[i], rooms1[i]) && MoreExitsOf(rooms1[i], rooms2[i]);
    }
  }

  lemma GrowsTrans(rooms: seq<Room>, rooms': seq<Room>, g: Grid, g1: Grid, g2: Grid)
    requires Grows(rooms, g, g1) && Grows(rooms', g1, g2) && MoreExits(rooms, rooms')
    ensures Grows(rooms, g, g2)
  {
    forall c | c in g
      ensures CellGrows(InSomeRoom(rooms, c), g[c], g2[c])
    {
      SameRects(rooms, rooms', c);
      assert CellGrows(InSomeRoom(rooms, c), g[c], g1[c]);
      assert CellGrows(InSomeRoom(rooms', c), g1[c], g2[c]);
    }
  }

  lemma EndsAtKept(g: Grid, rooms: seq<Room>, g': Grid, rooms': seq<Room>, i: int, c: Coord)
    requires Grows(rooms, g, g') && MoreExits(rooms, rooms') && 0 <= i < |rooms|
    requires EndsAt(g, rooms[i], c)
    ensures EndsAt(g', rooms'[i], c)
  {
    assert MoreExitsOf(rooms[i], rooms'[i]);
    assert CellGrows(InSomeRoom(rooms, c), g[c], g'[c]);
  }

  lemma DrawnKept(g: Grid, rooms: seq<Room>, g': Grid, rooms': seq<Room>, c: Corridor)
    requires Drawn(g, rooms, c) && Grows(rooms, g, g') && MoreExits(rooms, rooms')
    ensures Drawn(g', rooms', c)
  {
    EndsAtKept(g, rooms, g', rooms', c.a, c.path[0]);
    EndsAtKept(g, rooms, g', rooms', c.b, c.path[|c.path| - 1]);
    forall k | 0 < k < |c.path| - 1
      ensures DugAt(g', rooms', c.path[k])
    {
      SameRects(rooms, rooms', c.path[k]);
      assert DugAt(g, rooms, c.path[k]);
      assert CellGrows(InSomeRoom(rooms, c.path[k]), g[c.path[k]], g'[c.path[k]]);
    }
  }

  /** How far a cell lies in a corridor's direction, and across it. */
  function Along(down: bool, c: Coord): int { if down then c.y else c.x }

  function Across(down: bool, c: Coord): int { if down then c.x else c.y }

  predicate Between(a: int, x: int, b: int) {
    a <= x <= b || b <= x <= a
  }

  /** The cells strictly between two corridor ends: beyond one, before the other, and not off to a side. */
  predicate Inside(down: bool, s: Coord, e: Coord, c: Coord) {
    Along(down, s) < Along(down, c) < Along(down, e) && Between(Across(down, s), Across(down, c), Across(down, e))
  }

  lemma InsideBounds(down: bool, s: Coord, e: Coord, c: Coord)
    requires InBounds(s) && InBounds(e) && Inside(down, s, e, c)
    ensures InBounds(c)
  {
  }

  function Forward(down: bool, c: Coord): Coord {
    if down then Coord(c.x, c.y + 1) else Coord(c.x + 1, c.y)
  }

  function Sideways(down: bool, c: Coord, d: int): Coord {
    if down then Coord(c.x + d, c.y) else Coord(c.x, c.y + d)
  }

  /** n steps in direction d take a corridor from one line across to the other. */
  predicate Turns(d: int, n: int, from: int, to: int) {
    (d == 1 && to == from + n) || (d == -1 && to == from - n)
  }

  /** The n cells of a turn starting at c. */
  function TurnCells(down: bool, c: Coord, d: int, n: nat): seq<Coord>
    decreases n
  {
    if n == 0 then [] else [c] + TurnCells(down, Sideways(down, c, d), d, n - 1)
  }

  /** The cell after them. */
  function TurnEnd(down: bool, c: Coord, d: int, n: nat): Coord
    decreases n
  {
    if n == 0 then c else TurnEnd(down, Sideways(down, c, d), d, n - 1)
  }

  /** The cells dug after cell c with `distance` lines to go, turning n cells sideways with `turn` lines to go. */
  function DigCells(down: bool, c: Coord, distance: nat, turn: nat, d: int, n: nat): seq<Coord>
    decreases distance
  {
    if distance == 0 then []
    else
      var f := Forward(down, c);
      if distance == turn then
        TurnCells(down, f, d, n) + ([TurnEnd(down, f, d, n)] + DigCells(down, TurnEnd(down, f, d, n), distance - 1, turn, d, n))
      else
        [f] + DigCells(down, f, distance - 1, turn, d, n)
  }

  /** Where the digging stands after the last of them. */
  function DigEnd(down: bool, c: Coord, distance: nat, turn: nat, d: int, n: nat): Coord
    decreases distance
  {
    if distance == 0 then c
    else
      var f := Forward(down, c);
      DigEnd(down, if distance == turn then TurnEnd(down, f, d, n) else f, distance - 1, turn, d, n)
  }

  lemma NothingTurned(down: bool, c: Coord, d: int)
    ensures TurnCells(down, c, d, 0) == [] && TurnEnd(down, c, d, 0) == c
  {
  }

  lemma TurnMore(down: bool, c: Coord, d: int, n: nat)
    requires 0 < n
    ensures TurnCells(down, c, d, n) == [c] + TurnCells(down, Sideways(down, c, d), d, n - 1)
    ensures TurnEnd(down, c, d, n) == TurnEnd(down, Sideways(down, c, d), d, n - 1)
  {
  }

  lemma NothingDug(down: bool, c: Coord, turn: nat, d: int, n: nat)
    ensures DigCells(down, c, 0, turn, d, n) == [] && DigEnd(down, c, 0, turn, d, n) == c
  {
  }

  lemma DigMore(down: bool, c: Coord, distance: nat, turn: nat, d: int, n: nat)
    requires 0 < distance
    ensures var f := Forward(down, c);
      var t := if distance == turn then TurnEnd(down, f, d, n) else f;
      && DigEnd(down, c, distance, turn, d, n) == DigEnd(down, t, distance - 1, turn, d, n)
      && DigCells(down, c, distance, turn, d, n)
         == (if distance == turn then TurnCells(down, f, d, n) else [])
            + ([t] + DigCells(down, t, distance - 1, turn, d, n))
  {
  }

  /** p starts next to c (unless it is empty), is contiguous, ends at or next to e, and lies between the corridor ends. */
  ghost predicate Leads(down: bool, lo: Coord, hi: Coord, c: Coord, p: seq<Coord>, e: Coord)
    decreases p
  {
    if p == [] then c == e
    else Adjacent(c, p[0]) && Inside(down, lo, hi, p[0]) && Leads(down, lo, hi, p[0], p[1..], e)
  }

  lemma {:induction false} LeadsConcat(
    down: bool, lo: Coord, hi: Coord, c: Coord, p: seq<Coord>, m: Coord, q: seq<Coord>, e: Coord)
    requires Leads(down, lo, hi, c, p, m) && Leads(down, lo, hi, m, q, e)
    ensures Leads(down, lo, hi, c, p + q, e)
    decreases p
  {
    if p == [] {
      assert p + q == q;
    } else {
      LeadsConcat(down, lo, hi, p[0], p[1..], m, q, e);
      assert (p + q)[0] == p[0] && (p + q)[1..] == p[1..] + q;
    }
  }

  lemma {:induction false} LeadsFacts(down: bool, lo: Coord, hi: Coord, c: Coord, p: seq<Coord>, e: Coord)
    requires Leads(down, lo, hi, c, p, e)
    ensures Contiguous([c] + p) && ([c] + p)[|p|] == e
    ensures forall k :: 0 <= k < |p| ==> Inside(down, lo, hi, p[k])
    decreases p
  {
    var w := [c] + p;
    if p != [] {
      var v := [p[0]] + p[1..];
      LeadsFacts(down, lo, hi, p[0], p[1..], e);
      assert v == p;
      forall i | 0 <= i < |w| - 1
        ensures StepAt(w, i)
      {
        assert 0 < i ==> StepAt(v, i - 1);
      }
    }
  }

  /** A turn leads across to the other end's line. */
  lemma {:induction false} TurnLeads(down: bool, lo: Coord, hi: Coord, c: Coord, f: Coord, d: int, n: nat)
    requires Turns(d, n, Across(down, f), Across(down, hi))
    requires Adjacent(c, f) && Inside(down, lo, hi, f)
    ensures var e := TurnEnd(down, f, d, n);
      && Along(down, e) == Along(down, f) && Across(down, e) == Across(down, hi)
      && Leads(down, lo, hi, c, TurnCells(down, f, d, n) + [e], e)
    decreases n
  {
    var e := TurnEnd(down, f, d, n);
    if n == 0 {
      assert TurnCells(down, f, d, n) + [e] == [f];
    } else {
      var f' := Sideways(down, f, d);
      TurnLeads(down, lo, hi, f, f', d, n - 1);
      var rest := TurnCells(down, f', d, n - 1) + [e];
      assert TurnCells(down, f, d, n) + [e] == [f] + rest;
      assert ([f] + rest)[1..] == rest;
    }
  }

  /**
   * Digging from c leads, through cells strictly between the ends, to the cell just before the far end,
   * provided the turn is still to come or has been made.
   */
  lemma {:induction false} DigLeads(down: bool, lo: Coord, hi: Coord, c: Coord, distance: nat, turn: nat, d: int, n: nat)
    requires 1 <= turn
    requires Along(down, lo) <= Along(down, c) && Along(down, c) + distance + 1 == Along(down, hi)
    requires Turns(d, n, Across(down, lo), Across(down, hi))
    requires Across(down, c) == Across(down, if turn <= distance then lo else hi)
    ensures var e := DigEnd(down, c, distance, turn, d, n);
      Forward(down, e) == hi && Leads(down, lo, hi, c, DigCells(down, c, distance, turn, d, n), e)
    decreases distance
  {
    hide DigCells, DigEnd, TurnCells, TurnEnd, Leads;
    if distance == 0 {
      NothingDug(down, c, turn, d, n);
      NothingLeads(down, lo, hi, c);
    } else {
      DigMore(down, c, distance, turn, d, n);
      var f := Forward(down, c);
      var e := DigEnd(down, c, distance, turn, d, n);
      if distance == turn {
        TurnLeads(down, lo, hi, c, f, d, n);
        var t := TurnEnd(down, f, d, n);
        DigLeads(down, lo, hi, t, distance - 1, turn, d, n);
        var rest := DigCells(down, t, distance - 1, turn, d, n);
        LeadsConcat(down, lo, hi, c, TurnCells(down, f, d, n) + [t], t, rest, e);
        assert TurnCells(down, f, d, n) + [t] + rest == TurnCells(down, f, d, n) + ([t] + rest);
      } else {
        DigLeads(down, lo, hi, f, distance - 1, turn, d, n);
        var rest := DigCells(down, f, distance - 1, turn, d, n);
        LeadsOn(down, lo, hi, c, f, rest, e);
        assert [] + ([f] + rest) == [f] + rest;
      }
    }
  }

  lemma NothingLeads(down: bool, lo: Coord, hi: Coord, c: Coord)
    ensures Leads(down, lo, hi, c, [], c)
  {
  }

  lemma LeadsOn(down: bool, lo: Coord, hi: Coord, c: Coord, f: Coord, p: seq<Coord>, e: Coord)
    requires Adjacent(c, f) && Inside(down, lo, hi, f) && Leads(down, lo, hi, f, p, e)
    ensures Leads(down, lo, hi, c, [f] + p, e)
  {
    assert ([f] + p)[1..] == p;
  }

  /** Where a corridor may leave room r downwards or to the right. */
  predicate LeavesFrom(down: bool, r: Room, c: Coord) {
    if r.gone then c == r.pos
    else if down then r.pos.x < c.x < r.pos.x + r.max.x - 1 && c.y == r.pos.y + r.max.y - 1
    else c.x == r.pos.x + r.max.x - 1 && r.pos.y < c.y < r.pos.y + r.max.y - 1
  }

  /** Where a corridor may enter room r from above or from the left. */
  predicate Enters(down: bool, r: Room, c: Coord) {
    if r.gone then c == r.pos
    else if down then r.pos.x < c.x < r.pos.x + r.max.x - 1 && c.y == r.pos.y
    else c.x == r.pos.x && r.pos.y < c.y < r.pos.y + r.max.y - 1
  }

  /** Inside box i, short of its last line and column; a room at the left edge of the map may begin one column early. */
  predicate Boxed(i: int, c: Coord) {
    && Top(i).x - 1 <= c.x < Top(i).x + BOX_WIDTH - 1 && Top(i).y <= c.y < Top(i).y + BOX_HEIGHT - 1
    && (c.x == Top(i).x - 1 ==> Top(i).x == 1)
  }

  /** A room's rectangle, and a gone room's place, stay inside the room's box, which ends with a free line and column. */
  lemma InBox(i: int, r: Room, c: Coord)
    requires LegalRoom(i, r) && if r.gone then c == r.pos else r.Covers(c)
    ensures Boxed(i, c)
  {
  }

  /** The map in numbers: 80 columns and 32 lines, of which passages are looked for on lines 1 to 23. */
  lemma MapInNumbers(c: Coord)
    ensures OnGrid(c) <==> 0 <= c.x <= 79 && 0 <= c.y <= 31
    ensures InBounds(c) <==> 0 <= c.x <= 79 && 1 <= c.y <= 23
  {
  }

  /** The layout in numbers: a box is 26 columns by 8 lines, and a room keeps off its last line, and off column 0 unless it is a maze. */
  lemma BoxInNumbers(i: int, r: Room, c: Coord)
    requires LegalRoom(i, r) && if r.gone then c == r.pos else r.Covers(c)
    ensures 26 * (i % 3) + (if r.maze && i % 3 == 0 then 0 else 1) <= c.x <= 26 * (i % 3) + 25
    ensures 8 * (i / 3) <= c.y <= 8 * (i / 3) + 6 && 1 <= c.y
  {
  }

  /**
   * What digging and door-setting leave is a door, for the numbering, exactly where a door was set:
   * a dug cell is none, unless it is hidden in a wall.
   */
  lemma DoorsByLooks(p: Place)
    ensures p.IsDoor() <==> p.ch == '+' || (!p.honest && p.ch in {'-', '|'})
    ensures p.honest && p.ch == '#' ==> !p.IsDoor()
    ensures forall r: Room, c: Coord :: LooksLikeDoor(r, c, p) ==> p.IsDoor()
  {
  }

  /** Boxes of different columns do not overlap, nor do boxes of different rows. */
  lemma BoxesApart(i: int, k: int)
    requires 0 <= i && 0 <= k
    ensures i % 3 < k % 3 ==> Top(i).x + BOX_WIDTH <= Top(k).x
    ensures i / 3 < k / 3 ==> Top(i).y + BOX_HEIGHT <= Top(k).y
    ensures i % 3 == k % 3 ==> Top(i).x == Top(k).x
    ensures i / 3 == k / 3 ==> Top(i).y == Top(k).y
  {
    assert BOX_WIDTH == 26 && BOX_HEIGHT == 8;
    assert Top(i) == Coord(26 * (i % 3) + 1, 8 * (i / 3)) && Top(k) == Coord(26 * (k % 3) + 1, 8 * (k / 3));
    hide *;
  }

  /** There is always at least one cell between the two ends, so the corridor always reaches its turning place. */
  lemma RoomBetween(rooms: seq<Room>, i: int, j: int, down: bool, s: Coord, e: Coord)
    requires LegalRooms(rooms) && (if down then Below(i, j) else RightOf(i, j))
    requires LeavesFrom(down, rooms[i], s) && Enters(down, rooms[j], e)
    ensures InBounds(s) && InBounds(e)
    ensures 1 <= Along(down, e) - Along(down, s) - 1
  {
    assert LegalRoom(i, rooms[i]) && LegalRoom(j, rooms[j]);
    RoomSpan(i, rooms[i]);
    RoomSpan(j, rooms[j]);
    InBox(i, rooms[i], s);
    InBox(j, rooms[j], e);
    BoxesApart(i, j);
  }

  /** A cell where a corridor leaves or enters a room is that room's place, or lies in its rectangle. */
  lemma EndInRoom(rooms: seq<Room>, i: int, j: int, down: bool, s: Coord, e: Coord)
    requires LegalRooms(rooms) && 0 <= i < MAXROOMS && 0 <= j < MAXROOMS
    requires LeavesFrom(down, rooms[i], s) && Enters(down, rooms[j], e)
    ensures if rooms[i].gone then s == rooms[i].pos else OnWall(rooms[i], s)
    ensures if rooms[j].gone then e == rooms[j].pos else OnWall(rooms[j], e)
  {
    RoomSpan(i, rooms[i]);
    RoomSpan(j, rooms[j]);
  }

  /** Rooms do not overlap. */
  lemma RoomsApart(rooms: seq<Room>, i: int, j: int, c: Coord)
    requires LegalRooms(rooms) && 0 <= i < MAXROOMS && 0 <= j < MAXROOMS && !rooms[i].gone && !rooms[j].gone
    requires rooms[i].Covers(c) && rooms[j].Covers(c)
    ensures i == j
  {
    hide LegalRoom, Top;
    InBox(i, rooms[i], c);
    InBox(j, rooms[j], c);
    BoxesApart(i, j);
    BoxesApart(j, i);
  }

  /** The cells strictly between two corridor ends belong to no room. */
  lemma CorridorAvoidsRooms(rooms: seq<Room>, i: int, j: int, down: bool, s: Coord, e: Coord, c: Coord, k: int)
    requires LegalRooms(rooms) && (if down then Below(i, j) else RightOf(i, j))
    requires LeavesFrom(down, rooms[i], s) && Enters(down, rooms[j], e) && Inside(down, s, e, c)
    requires 0 <= k < MAXROOMS && !rooms[k].gone
    ensures !rooms[k].Covers(c)
  {
    hide LegalRoom, Boxed, LeavesFrom, Enters, Inside;
    EndInRoom(rooms, i, j, down, s, e);
    InBox(i, rooms[i], s);
    InBox(j, rooms[j], e);
    if rooms[k].Covers(c) {
      InBox(k, rooms[k], c);
      BetweenBoxes(i, j, down, s, e, c, k);
      NotBeyond(rooms[i], rooms[j], down, s, e, c);
    }
  }

  /** A cell strictly between two corridor ends is in no box but those of the two rooms. */
  lemma BetweenBoxes(i: int, j: int, down: bool, s: Coord, e: Coord, c: Coord, k: int)
    requires (if down then Below(i, j) else RightOf(i, j)) && 0 <= k < MAXROOMS
    requires Boxed(i, s) && Boxed(j, e) && Boxed(k, c) && Inside(down, s, e, c)
    ensures k == i || k == j
  {
    hide Top;
    BoxesApart(i, k);
    BoxesApart(k, i);
    BoxesApart(j, k);
    BoxesApart(k, j);
  }

  /** It is beyond the room the corridor leaves and before the one it enters. */
  lemma NotBeyond(r: Room, r': Room, down: bool, s: Coord, e: Coord, c: Coord)
    requires LeavesFrom(down, r, s) && Enters(down, r', e) && Inside(down, s, e, c)
    ensures !r.gone ==> !r.Covers(c)
    ensures !r'.gone ==> !r'.Covers(c)
  {
  }

  /** A gone room's place lies in no other room. */
  lemma GoneAvoidsRooms(rooms: seq<Room>, i: int, k: int)
    requires LegalRooms(rooms) && 0 <= i < MAXROOMS && rooms[i].gone
    requires 0 <= k < MAXROOMS && !rooms[k].gone
    ensures !rooms[k].Covers(rooms[i].pos)
  {
    assert LegalRoom(i, rooms[i]) && LegalRoom(k, rooms[k]);
  }

  /** The connection tables of the passage code, one row per room. */
  const CONN: seq<seq<bool>> := [
    [false, true, false, true, false, false, false, false, false],
    [true, false, true, false, true, false, false, false, false],
    [false, true, false, false, false, true, false, false, false],
    [true, false, false, false, true, false, true, false, false],
    [false, true, false, true, false, true, false, true, false],
    [false, false, true, false, true, false, false, false, true],
    [false, false, false, true, false, false, false, true, false],
    [false, false, false, false, true, false, true, false, true],
    [false, false, false, false, false, true, false, true, false]]

  predicate Connectable(i: int, j: int)
    requires 0 <= i < MAXROOMS && 0 <= j < MAXROOMS
  {
    assert |CONN[i]| == MAXROOMS;
    CONN[i][j]
  }

  /** The tables say exactly which boxes share a side. */
  lemma ConnIsNeighbours(i: int, j: int)
    requires 0 <= i < MAXROOMS && 0 <= j < MAXROOMS
    ensures Connectable(i, j) <==> Neighbours(i, j)
  {
    if i == 0 {} else if i == 1 {} else if i == 2 {} else if i == 3 {} else if i == 4 {}
    else if i == 5 {} else if i == 6 {} else if i == 7 {} else {}
  }

  ghost predicate NeighbourClosed(inside: set<int>) {
    forall i, j :: i in inside && Neighbours(i, j) ==> j in inside
  }

  /** Walking left and up inside a set closed under neighbours reaches the first room. */
  lemma {:induction false} CornerInside(inside: set<int>, a: int)
    requires NeighbourClosed(inside) && a in inside && 0 <= a < MAXROOMS
    ensures 0 in inside
    decreases a
  {
    if a % 3 != 0 {
      assert Neighbours(a, a - 1);
      CornerInside(inside, a - 1);
    } else if 3 <= a {
      assert Neighbours(a, a - 3);
      CornerInside(inside, a - 3);
    }
  }

  /** The layout is connected: a nonempty set of rooms closed under neighbours is all of them. */
  lemma LayoutConnected(inside: set<int>, start: int)
    requires NeighbourClosed(inside) && start in inside && 0 <= start < MAXROOMS
    ensures forall j :: 0 <= j < MAXROOMS ==> j in inside
  {
    CornerInside(inside, start);
    assert Neighbours(0, 1) && Neighbours(1, 2) && Neighbours(0, 3) && Neighbours(1, 4) && Neighbours(2, 5);
    assert Neighbours(3, 6) && Neighbours(4, 7) && Neighbours(5, 8);
  }

  /** Growing the graph can never get stuck: some room inside has a neighbour outside. */
  lemma CandidateExists(inside: set<int>, start: int, missing: int)
    requires start in inside && 0 <= start < MAXROOMS
    requires 0 <= missing < MAXROOMS && missing !in inside
    ensures exists i, j :: i in inside && Neighbours(i, j) && j !in inside
  {
    if NeighbourClosed(inside) {
      LayoutConnected(inside, start);
      assert false;
    }
  }
}

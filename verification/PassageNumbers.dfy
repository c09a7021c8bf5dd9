/** What a passage numbering means, and why one flood fill after another computes it. */
module PassageNumbers {
  import opened Walks
  import opened DungeonMap

  /** Nothing but passage numbers differs. */
  ghost predicate SameButNums(g: Grid, g': Grid) {
    && g.Keys == g'.Keys
    && forall c :: c in g ==> g'[c] == g[c].(num := g'[c].num)
  }

  ghost function Numbered(g: Grid): set<Coord> {
    set c | c in g && g[c].num != 0
  }

  ghost predicate Unnumbered(g: Grid) {
    forall c :: c in g ==> g[c].num == 0
  }

  lemma SameCells(g: Grid, g': Grid)
    requires SameButNums(g, g')
    ensures NumberableCells(g) == NumberableCells(g')
  {
  }

  /**
   * A numbering of the map with the numbers 1 to top: the numbered cells are whole connected pieces of
   * doors and passages, and two of them carry the same number exactly when they are connected.
   */
  ghost predicate WellNumbered(g: Grid, top: int) {
    var cells := NumberableCells(g);
    && Numbered(g) <= cells
    && Closed(Steps(cells), Numbered(g))
    && (forall a :: a in Numbered(g) ==> g[a].num <= top)
    && (forall a, b :: a in Numbered(g) && b in Numbered(g) ==> SameNumber(g, a, b))
  }

  ghost predicate SameNumber(g: Grid, a: Coord, b: Coord)
    requires a in g && b in g
  {
    g[a].num == g[b].num <==> Linked(Steps(NumberableCells(g)), a, b)
  }

  /** What one flood fill from `start` with number n does to the map. */
  ghost predicate Flooded(g: Grid, g': Grid, start: Coord, n: int) {
    && SameButNums(g, g')
    && (forall c :: c in g && g[c].num != 0 ==> g'[c].num == g[c].num)
    && (forall c :: c in g && g[c].num == 0 && g'[c].num != 0 ==> Reached(g, g', start, n, c))
    && (start in NumberableCells(g) ==> g'[start].num != 0)
  }

  /** A cell the fill has numbered is connected to the start, and all its neighbours have numbers too. */
  ghost predicate Reached(g: Grid, g': Grid, start: Coord, n: int, c: Coord)
    requires c in g' && g.Keys == g'.Keys
  {
    var cells := NumberableCells(g);
    && g'[c].num == n
    && start in cells && c in cells
    && Linked(Steps(cells), start, c)
    && forall d :: d in cells && Adjacent(c, d) ==> g'[d].num != 0
  }

  lemma NumberableAt(g: Grid, c: Coord)
    ensures c in NumberableCells(g) <==> c in g && InBounds(c) && g[c].Numberable()
  {
  }

  lemma NothingFlooded(g: Grid, start: Coord, n: int)
    requires start in NumberableCells(g) ==> g[start].num != 0
    ensures Flooded(g, g, start, n)
  {
  }

  function Neighbour(c: Coord, k: int): Coord
    requires 0 <= k < 4
  {
    if k == 0 then Coord(c.x, c.y + 1) else if k == 1 then Coord(c.x, c.y - 1)
    else if k == 2 then Coord(c.x + 1, c.y) else Coord(c.x - 1, c.y)
  }

  /** One more neighbour filled: what was reached stays reached. */
  lemma FloodThen(g: Grid, g2: Grid, g3: Grid, start: Coord, k: int, n: int)
    requires 0 <= k < 4 && start in NumberableCells(g) && g[start].num == 0 && n != 0
    requires Filling(g, g2, start, k, n) && Flooded(g2, g3, Neighbour(start, k), n)
    ensures Filling(g, g3, start, k + 1, n)
  {
    SameCells(g, g2);
    var cells := NumberableCells(g);
    var nb := Neighbour(start, k);
    forall c | c in g && g[c].num == 0 && g3[c].num != 0 && c != start
      ensures Reached(g, g3, start, n, c)
    {
      if g2[c].num != 0 {
        assert Reached(g, g2, start, n, c);
      } else {
        assert Reached(g2, g3, nb, n, c);
        LinkedEdge(Steps(cells), start, nb);
        LinkedTrans(Steps(cells), start, nb, c);
      }
    }
  }

  /** The start has been given its number. */
  ghost predicate Started(g: Grid, g1: Grid, start: Coord, n: int) {
    start in g && 0 < n <= 15 && g1 == g[start := g[start].(num := n)]
  }

  /** The fill of the start's first k neighbours is done. */
  ghost predicate Filling(g: Grid, g': Grid, start: Coord, k: int, n: int) {
    && 0 <= k <= 4
    && SameButNums(g, g')
    && start in g && g'[start].num == n
    && (forall c :: c in g && g[c].num != 0 ==> g'[c].num == g[c].num)
    && (forall c :: c in g && g[c].num == 0 && g'[c].num != 0 && c != start ==> Reached(g, g', start, n, c))
    && (forall j :: 0 <= j < k && Neighbour(start, j) in NumberableCells(g) ==> g'[Neighbour(start, j)].num != 0)
  }

  lemma StartFills(g: Grid, g1: Grid, start: Coord, n: int)
    requires Started(g, g1, start, n) && start in NumberableCells(g) && g[start].num == 0
    ensures Filling(g, g1, start, 0, n)
  {
  }

  lemma FillingDone(g: Grid, g': Grid, start: Coord, n: int)
    requires start in NumberableCells(g) && g[start].num == 0 && n != 0
    requires Filling(g, g', start, 4, n)
    ensures Flooded(g, g', start, n)
  {
    var cells := NumberableCells(g);
    forall d | d in cells && Adjacent(start, d)
      ensures g'[d].num != 0
    {
      assert d == Neighbour(start, 0) || d == Neighbour(start, 1) || d == Neighbour(start, 2) || d == Neighbour(start, 3);
    }
    LinkedRefl(Steps(cells), start);
    assert Reached(g, g', start, n, start);
  }

  /** Flooding from a new exit with a new number numbers exactly one more connected piece. */
  lemma FloodNumbers(g: Grid, g': Grid, start: Coord, top: int)
    requires WellNumbered(g, top) && Flooded(g, g', start, top + 1)
    requires start in NumberableCells(g) && g[start].num == 0
    ensures WellNumbered(g', top + 1) && start in Numbered(g')
  {
    SameCells(g, g');
    var cells := NumberableCells(g);
    var steps := Steps(cells);
    StepsSymmetric(cells);
    forall a, b | (a, b) in steps && a in Numbered(g')
      ensures b in Numbered(g')
    {
      if g[a].num == 0 {
        assert Reached(g, g', start, top + 1, a);
      } else {
        assert a in Numbered(g) && b in Numbered(g);
      }
    }
    forall a, b | a in Numbered(g') && b in Numbered(g')
      ensures SameNumber(g', a, b)
    {
      if a in Numbered(g) && b in Numbered(g) {
        assert SameNumber(g, a, b);
      } else if a in Numbered(g) {
        assert Reached(g, g', start, top + 1, b);
        if Linked(steps, a, b) {
          LinkedStaysIn(steps, Numbered(g), a, b);
        }
      } else if b in Numbered(g) {
        assert Reached(g, g', start, top + 1, a);
        if Linked(steps, a, b) {
          LinkedSym(steps, a, b);
          LinkedStaysIn(steps, Numbered(g), b, a);
        }
      } else {
        assert Reached(g, g', start, top + 1, a) && Reached(g, g', start, top + 1, b);
        LinkedSym(steps, start, a);
        LinkedTrans(steps, a, start, b);
      }
    }
  }

  /** In a good numbering everything connected to a numbered cell is numbered, with the same number. */
  lemma ConnectedNumbers(g: Grid, top: int, a: Coord, b: Coord)
    requires WellNumbered(g, top) && a in Numbered(g) && Linked(Steps(NumberableCells(g)), a, b)
    ensures b in Numbered(g) && g[b].num == g[a].num
  {
    LinkedStaysIn(Steps(NumberableCells(g)), Numbered(g), a, b);
    assert SameNumber(g, a, b);
  }

  /** Each passage's list holds exactly the doors that carry its number, each once. */
  ghost predicate DoorLists(lists: seq<seq<Coord>>, g: Grid) {
    && |lists| == MAXPASS
    && forall k :: 0 <= k < |lists| ==> DoorList(lists[k], g, k)
  }

  ghost predicate DoorList(list: seq<Coord>, g: Grid, k: int) {
    && (forall c :: c in list <==> c in g && g[c].IsDoor() && g[c].num == k && k != 0)
    && (forall i, j :: 0 <= i < j < |list| ==> list[i] != list[j])
  }

  /** The doors that carry a number. */
  ghost function DoorsOf(g: Grid, k: int): set<Coord> {
    set c | c in g && g[c].IsDoor() && g[c].num == k
  }

  /** A passage's list is as long as its number has doors, so it fits the record's twelve exits exactly if they do. */
  lemma PassageExits(lists: seq<seq<Coord>>, g: Grid, k: int)
    requires DoorLists(lists, g) && 0 < k < MAXPASS
    ensures |lists[k]| == |DoorsOf(g, k)|
  {
    assert DoorList(lists[k], g, k);
    DistinctSize(lists[k]);
    assert DoorsOf(g, k) == set c | c in lists[k];
  }

  lemma {:induction false} DistinctSize<T>(list: seq<T>)
    requires forall i, j :: 0 <= i < j < |list| ==> list[i] != list[j]
    ensures |set c | c in list| == |list|
  {
    if list != [] {
      var last := |list| - 1;
      DistinctSize(list[..last]);
      assert (set c | c in list) == (set c | c in list[..last]) + {list[last]};
    }
  }

  lemma NumberedOne(lists: seq<seq<Coord>>, g: Grid, c: Coord, n: int, lists': seq<seq<Coord>>, g': Grid)
    requires DoorLists(lists, g) && c in g && g[c].num == 0 && 0 < n < MAXPASS
    requires g' == g[c := g[c].(num := n)]
    requires lists' == if g[c].IsDoor() then lists[n := lists[n] + [c]] else lists
    ensures DoorLists(lists', g')
  {
    forall k | 0 <= k < |lists'|
      ensures DoorList(lists'[k], g', k)
    {
      assert DoorList(lists[k], g, k);
    }
  }

  lemma FewerLeft(g: Grid, g': Grid)
    requires SameButNums(g, g') && (forall c :: c in g && g[c].num != 0 ==> g'[c].num != 0)
    ensures NumberableCells(g') - Numbered(g') <= NumberableCells(g) - Numbered(g)
    ensures |NumberableCells(g') - Numbered(g')| <= |NumberableCells(g) - Numbered(g)|
  {
    SameCells(g, g');
    SubsetSize(NumberableCells(g') - Numbered(g'), NumberableCells(g) - Numbered(g));
  }

  /** The measure of the flood fill: numbering a cell leaves one fewer to number. */
  lemma OneLess(g: Grid, g': Grid, c: Coord, n: int)
    requires c in NumberableCells(g) && g[c].num == 0 && 0 < n <= 15
    requires g' == g[c := g[c].(num := n)]
    ensures |NumberableCells(g') - Numbered(g')| < |NumberableCells(g) - Numbered(g)|
  {
    NumberedMore(g, g', c, n);
    SameCells(g, g');
    hide NumberableCells, Numbered;
    var left, left' := NumberableCells(g) - Numbered(g), NumberableCells(g') - Numbered(g');
    assert left' <= left && c in left && c !in left';
    SubsetSize(left', left);
  }

  lemma NumberedMore(g: Grid, g': Grid, c: Coord, n: int)
    requires c in g && g[c].num == 0 && 0 < n <= 15 && g' == g[c := g[c].(num := n)]
    ensures SameButNums(g, g') && Numbered(g') == Numbered(g) + {c} && c !in Numbered(g)
  {
  }

  lemma SubsetSize<T>(a: set<T>, b: set<T>)
    requires a <= b
    ensures |a| <= |b|
    ensures a != b ==> |a| < |b|
  {
    assert b == a + (b - a);
    assert |b| == |a| + |b - a|;
  }
}

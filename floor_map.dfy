/** The N x N floor plan that owns every cell. */
module Floor {
  import opened Wrappers
  import opened Direction
  import opened Cells

  predicate InBounds(n: int, p: Pos) {
    0 <= p.x < n && 0 <= p.y < n
  }

  /** Every coordinate of an n x n grid. */
  function Positions(n: nat): (ps: set<Pos>)
    ensures forall p {:trigger p in ps} :: p in ps <==> InBounds(n, p)
  {
    var ps := set x, y | 0 <= x < n && 0 <= y < n :: Pos(x, y);
    assert forall p :: InBounds(n, p) ==> Pos(p.x, p.y) in ps;
    ps
  }

  function Row(i: int, n: nat): set<Pos> {
    set y | 0 <= y < n :: Pos(i, y)
  }

  function Block(k: nat, n: nat): set<Pos> {
    set x, y | 0 <= x < k && 0 <= y < n :: Pos(x, y)
  }

  lemma {:induction false} RowCount(i: int, n: nat)
    ensures |Row(i, n)| == n
  {
    if n > 0 {
      RowCount(i, n - 1);
      assert Row(i, n) == Row(i, n - 1) + {Pos(i, n - 1)};
    }
  }

  lemma BlockSplit(k: nat, n: nat)
    requires k > 0
    ensures Block(k, n) == Block(k - 1, n) + Row(k - 1, n)
    ensures Block(k - 1, n) !! Row(k - 1, n)
  {
    var row, before := Row(k - 1, n), Block(k - 1, n);
    assert forall p :: p in row ==> p !in before;
  }

  lemma {:induction false} BlockCount(k: nat, n: nat)
    ensures |Block(k, n)| == k * n
  {
    if k > 0 {
      BlockCount(k - 1, n);
      RowCount(k - 1, n);
      BlockSplit(k, n);
      var before := Block(k - 1, n);
      assert |Block(k, n)| == |before| + n;
      assert (k - 1) * n + n == k * n;
    }
  }

  /** An n x n grid has exactly n * n cells. */
  lemma PositionsCount(n: nat)
    ensures |Positions(n)| == n * n
  {
    BlockCount(n, n);
    assert Positions(n) == Block(n, n);
  }

  /** The attribute values every cell starts with. */
  predicate IsDefault(c: Cell)
    reads c
  {
    c.floorType == BareFloor && !c.isVisited && !c.isChargingStation && !c.isObstacle
    && !c.isStairs && c.dirtLevel == 0 && c.wayToChargingStation == None
    && c.distanceToStation == 0
  }

  class FloorMap {
    var cells: array2<Cell?>
    /** Every cell object the floor map owns. */
    ghost var CellSet: set<Cell>

    ghost predicate Valid()
      reads this, cells
    {
      cells.Length0 == cells.Length1 &&
      forall i, j :: 0 <= i < cells.Length0 && 0 <= j < cells.Length1 ==>
        cells[i, j] != null && cells[i, j] in CellSet && cells[i, j].x == i && cells[i, j].y == j
    }

    function Size(): nat
      reads this
    {
      cells.Length0
    }

    /** The cell stored at a coordinate; it carries that coordinate. */
    function CellAt(p: Pos): (c: Cell)
      requires Valid() && InBounds(Size(), p)
      reads this, cells
      ensures c in CellSet && c.x == p.x && c.y == p.y
    {
      cells[p.x, p.y]
    }

    /** Distinct coordinates hold distinct cell objects. */
    lemma CellsDistinct(p: Pos, q: Pos)
      requires Valid() && InBounds(Size(), p) && InBounds(Size(), q)
      ensures CellAt(p) == CellAt(q) <==> p == q
    {
    }

    ghost function VisitedSet(): (v: set<Pos>)
      requires Valid()
      reads this, cells, CellSet`isVisited
      ensures forall p {:trigger p in v} {:trigger CellAt(p)} :: p in v <==> InBounds(Size(), p) && CellAt(p).isVisited
    {
      set p | p in Positions(Size()) && CellAt(p).isVisited
    }

    ghost function DirtLevels(): (m: map<Pos, int>)
      requires Valid()
      reads this, cells, CellSet`dirtLevel
      ensures m.Keys == Positions(Size())
      ensures forall p :: p in m ==> m[p] == CellAt(p).dirtLevel
    {
      map p | p in Positions(Size()) :: CellAt(p).dirtLevel
    }

    function Floors(): (m: map<Pos, FloorType>)
      requires Valid()
      reads this, cells, CellSet`floorType
      ensures m.Keys == Positions(Size())
      ensures forall p :: p in m ==> m[p] == CellAt(p).floorType
    {
      map p | p in Positions(Size()) :: CellAt(p).floorType
    }

    function Obstacles(): (v: set<Pos>)
      requires Valid()
      reads this, cells, CellSet`isObstacle
      ensures forall p {:trigger p in v} {:trigger CellAt(p)} :: p in v <==> InBounds(Size(), p) && CellAt(p).isObstacle
    {
      set p | p in Positions(Size()) && CellAt(p).isObstacle
    }

    ghost function Stations(): (v: set<Pos>)
      requires Valid()
      reads this, cells, CellSet`isChargingStation
      ensures forall p {:trigger p in v} {:trigger CellAt(p)} :: p in v <==> InBounds(Size(), p) && CellAt(p).isChargingStation
    {
      set p | p in Positions(Size()) && CellAt(p).isChargingStation
    }

    ghost function Ways(): (m: map<Pos, Option<seq<Pos>>>)
      requires Valid()
      reads this, cells, CellSet`wayToChargingStation
      ensures m.Keys == Positions(Size())
      ensures forall p :: p in m ==> m[p] == CellAt(p).wayToChargingStation
    {
      map p | p in Positions(Size()) :: CellAt(p).wayToChargingStation
    }

    /** Every stored way to a station runs over the grid. */
    ghost predicate WaysOnGrid()
      requires Valid()
      reads this, cells, CellSet`wayToChargingStation
    {
      var ways := Ways();
      forall p, i :: p in ways && ways[p].Some? && 0 <= i < |ways[p].value| ==> InBounds(Size(), ways[p].value[i])
    }

    ghost function Distances(): (m: map<Pos, int>)
      requires Valid()
      reads this, cells, CellSet`distanceToStation
      ensures m.Keys == Positions(Size())
      ensures forall p :: p in m ==> m[p] == CellAt(p).distanceToStation
    {
      map p | p in Positions(Size()) :: CellAt(p).distanceToStation
    }

    /** The visited flags mark exactly the given cells. */
    ghost predicate VisitedIs(visited: set<Pos>)
      requires Valid()
      reads this, cells, CellSet`isVisited
    {
      && (forall p {:trigger p in visited} :: p in visited ==> InBounds(Size(), p))
      && forall p {:trigger CellAt(p)} {:trigger p in visited} :: InBounds(Size(), p) ==> (CellAt(p).isVisited <==> p in visited)
    }

    /** The cells hold the given dirt levels. */
    ghost predicate DirtIs(dirt: map<Pos, int>)
      requires Valid()
      reads this, cells, CellSet`dirtLevel
    {
      dirt.Keys == Positions(Size()) && forall p {:trigger CellAt(p)} {:trigger dirt[p]} :: InBounds(Size(), p) ==> CellAt(p).dirtLevel == dirt[p]
    }

    /** The visited set and the dirt levels the cells hold. */
    lemma Mirrors() returns (visited: set<Pos>, dirt: map<Pos, int>)
      requires Valid()
      ensures VisitedIs(visited) && DirtIs(dirt)
    {
      visited, dirt := VisitedSet(), DirtLevels();
    }

    /** `setVisited(true)` on the cell at p. */
    method SetVisited(p: Pos, ghost visited: set<Pos>)
      requires Valid() && InBounds(Size(), p) && VisitedIs(visited)
      modifies CellAt(p)`isVisited
      ensures VisitedIs(visited + {p})
    {
      cells[p.x, p.y].isVisited := true;
    }

    /** The cells hold the given ways and distances. */
    ghost predicate Records(ways: map<Pos, Option<seq<Pos>>>, distances: map<Pos, int>)
      requires Valid()
      reads this, cells, CellSet`wayToChargingStation, CellSet`distanceToStation
    {
      forall p {:trigger CellAt(p)} {:trigger ways[p]} :: InBounds(Size(), p) ==>
        p in ways && p in distances
        && CellAt(p).wayToChargingStation == ways[p] && CellAt(p).distanceToStation == distances[p]
    }

    /** Stores a way and its distance in the cell at p. */
    method SetWay(p: Pos, way: Option<seq<Pos>>, distance: int,
                  ghost ways: map<Pos, Option<seq<Pos>>>, ghost distances: map<Pos, int>)
      requires Valid() && InBounds(Size(), p) && Records(ways, distances)
      modifies CellAt(p)`wayToChargingStation, CellAt(p)`distanceToStation
      ensures Valid() && Records(ways[p := way], distances[p := distance])
    {
      var cell := cells[p.x, p.y];
      cell.wayToChargingStation := way;
      cell.distanceToStation := distance;
    }

    /** The grid before `initializeGrid` allocates it. */
    constructor ()
      ensures Valid() && Size() == 0 && CellSet == {}
    {
      cells := new Cell?[0, 0];
      CellSet := {};
    }

    /**
     * Allocates a size x size grid; the cell at (i, j) carries coordinates (i, j)
     * and starts as clean, unvisited bare floor with no station path.
     */
    method InitializeGrid(size: nat)
      modifies this
      ensures Valid() && Size() == size && fresh(cells) && fresh(CellSet)
      ensures forall p :: InBounds(size, p) ==> IsDefault(CellAt(p))
    {
      cells := new Cell?[size, size];
      CellSet := {};
      var i := 0;
      while i < size
        invariant 0 <= i <= size
        invariant fresh(cells) && cells.Length0 == size && cells.Length1 == size
        invariant fresh(CellSet)
        invariant forall a, b :: 0 <= a < i && 0 <= b < size ==>
          cells[a, b] != null && cells[a, b] in CellSet && cells[a, b].x == a && cells[a, b].y == b
          && IsDefault(cells[a, b])
      {
        var j := 0;
        while j < size
          invariant 0 <= j <= size
          invariant fresh(cells) && cells.Length0 == size && cells.Length1 == size
          invariant fresh(CellSet)
          invariant forall a, b :: (0 <= a < i && 0 <= b < size) || (a == i && 0 <= b < j) ==>
            cells[a, b] != null && cells[a, b] in CellSet && cells[a, b].x == a && cells[a, b].y == b
            && IsDefault(cells[a, b])
        {
          var c := new Cell(i, j, BareFloor, false, false, false, false, 0, None, 0);
          cells[i, j] := c;
          CellSet := CellSet + {c};
          j := j + 1;
        }
        i := i + 1;
      }
    }
  }
}

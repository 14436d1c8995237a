/**
 * The surface cost model and the scenario generator of the simulated sensor.
 *
 * Every cost is an integer number of HALF power units: a surface unit is 1, 2
 * or 3, a move costs the average of two units (a multiple of 0.5) and a
 * cleaning costs one unit, so doubling makes every quantity an integer.
 * `Halves` reads such a number back in the source's power units.
 */
module Sensor {
  import opened Wrappers
  import opened Direction
  import opened Cells
  import opened Floor

  /** A quantity in half units, read in power units. */
  function Halves(h: int): real {
    h as real / 2.0
  }

  /** `Math.round(r * 10) / 10.0`: round half up to one decimal. */
  function RoundToTenth(r: real): real {
    ((r * 10.0 + 0.5).Floor as real) / 10.0
  }

  /** Any multiple of 0.5 is left unchanged by the rounding to one decimal. */
  lemma RoundToTenthOfHalves(k: int)
    ensures RoundToTenth(k as real / 2.0) == k as real / 2.0
  {
    var r := k as real / 2.0 * 10.0 + 0.5;
    assert r == (5 * k) as real + 0.5;
    assert r.Floor == 5 * k;
  }

  /** Power units a floor type costs to cross or to clean. */
  function SurfaceUnit(f: FloorType): (u: int)
    ensures 1 <= u <= 3
  {
    match f
    case BareFloor => 1
    case LowPileCarpet => 2
    case HighPileCarpet => 3
  }

  /**
   * `getMovingPowerCost`, in half units: nothing at the start of a trip,
   * otherwise the average of the two surface units rounded to one decimal.
   */
  function MovingPowerCost(prev: Option<FloorType>, cur: FloorType): (h: nat)
    ensures prev.None? ==> h == 0
    ensures prev.Some? ==>
      Halves(h) == RoundToTenth((SurfaceUnit(prev.value) + SurfaceUnit(cur)) as real / 2.0)
  {
    match prev
    case None => 0
    case Some(f) =>
      RoundToTenthOfHalves(SurfaceUnit(f) + SurfaceUnit(cur));
      SurfaceUnit(f) + SurfaceUnit(cur)
  }

  /** A move costs the same in both directions and lies between the two units. */
  lemma MovingPowerCostSymmetricAndBetween(a: FloorType, b: FloorType)
    ensures MovingPowerCost(Some(a), b) == MovingPowerCost(Some(b), a)
    ensures 2 * SurfaceUnit(a) <= MovingPowerCost(Some(a), b) <= 2 * SurfaceUnit(b)
         || 2 * SurfaceUnit(b) <= MovingPowerCost(Some(a), b) <= 2 * SurfaceUnit(a)
  {
  }

  /** `getCleaningPowerCost`, in half units: one surface unit on a dirty cell, nothing on a clean one. */
  function CleaningPowerCost(f: FloorType, dirtLevel: int): (h: nat)
    ensures Halves(h) == if dirtLevel > 0 then SurfaceUnit(f) as real else 0.0
  {
    if dirtLevel > 0 then 2 * SurfaceUnit(f) else 0
  }

  /** The four corners of an n x n grid: the charging stations. */
  predicate Corner(n: int, x: int, y: int) {
    (x == 0 || x == n - 1) && (y == 0 || y == n - 1)
  }

  /** The cells `generateObstacles` never draws for, as the source tests them. */
  predicate SkippedByObstacleDraw(x: int, y: int, width: int, height: int) {
    (x == 0 && y == 0) || (x == 0 && y == width - 1) || (x == height - 1 && y == 0)
    || (x == height - 1 && y == width - 1)
  }

  /** The floor type a draw of `nextInt(4)` selects; any other value leaves the default. */
  function FloorFromDraw(d: int): FloorType {
    if d == 2 then LowPileCarpet
    else if d == 3 then HighPileCarpet
    else BareFloor
  }

  /** What scenario generation gives one cell. */
  datatype Generated = Generated(obstacle: bool, station: bool, floor: FloorType, dirt: int)

  /**
   * The attributes of cell (x, y) of an n x n grid, given the random draws:
   * `obstacleDraw` is `nextInt(7)`, `floorDraw` is `nextInt(4)` and
   * `dirtDraw` is `nextInt(3)` at that cell.
   */
  function Generate(n: int, x: int, y: int, obstacleDraw: (int, int) -> int,
                    floorDraw: (int, int) -> int, dirtDraw: (int, int) -> int): Generated
  {
    var obstacle := !SkippedByObstacleDraw(x, y, n, n) && obstacleDraw(x, y) == 0;
    if obstacle then Generated(true, false, BareFloor, 0)
    else if Corner(n, x, y) then Generated(false, true, BareFloor, 0)
    else Generated(false, false, FloorFromDraw(floorDraw(x, y)), if dirtDraw(x, y) != 0 then 1 else 0)
  }

  /**
   * Whatever the draws: exactly the corners are charging stations, no corner
   * is an obstacle, and neither obstacles nor stations receive dirt.
   */
  lemma GenerationFacts(n: int, x: int, y: int, obstacleDraw: (int, int) -> int,
                        floorDraw: (int, int) -> int, dirtDraw: (int, int) -> int)
    requires 0 <= x < n && 0 <= y < n
    ensures var g := Generate(n, x, y, obstacleDraw, floorDraw, dirtDraw);
      (g.station <==> Corner(n, x, y)) && (Corner(n, x, y) ==> !g.obstacle)
      && (g.obstacle || g.station ==> g.dirt == 0) && (g.dirt == 0 || g.dirt == 1)
  {
    if Corner(n, x, y) {
      assert SkippedByObstacleDraw(x, y, n, n);
    }
  }

  /** The cell carries what generation gave it, and is otherwise as initialised. */
  predicate Matches(c: Cell, g: Generated)
    reads c
  {
    c.isObstacle == g.obstacle && c.isChargingStation == g.station && c.floorType == g.floor
    && c.dirtLevel == g.dirt && !c.isVisited && !c.isStairs
    && c.wayToChargingStation == None && c.distanceToStation == 0
  }

  /** The positions whose dirt level is positive. */
  function Dirty(levels: map<Pos, int>): set<Pos> {
    set p | p in levels && levels[p] > 0
  }

  /** Positions before (i, j) in row-major order that generation makes dirty. */
  ghost function DirtyBefore(n: nat, i: int, j: int, obstacleDraw: (int, int) -> int,
                             floorDraw: (int, int) -> int, dirtDraw: (int, int) -> int): set<Pos>
  {
    set p | p in Positions(n) && (p.x < i || (p.x == i && p.y < j))
      && Generate(n, p.x, p.y, obstacleDraw, floorDraw, dirtDraw).dirt > 0
  }

  lemma DirtyBeforeStep(n: nat, x: int, y: int, obstacleDraw: (int, int) -> int,
                        floorDraw: (int, int) -> int, dirtDraw: (int, int) -> int)
    requires 0 <= x < n && 0 <= y < n
    ensures var g := Generate(n, x, y, obstacleDraw, floorDraw, dirtDraw);
      |DirtyBefore(n, x, y + 1, obstacleDraw, floorDraw, dirtDraw)|
      == |DirtyBefore(n, x, y, obstacleDraw, floorDraw, dirtDraw)| + (if g.dirt > 0 then 1 else 0)
  {
    var before := DirtyBefore(n, x, y, obstacleDraw, floorDraw, dirtDraw);
    var after := DirtyBefore(n, x, y + 1, obstacleDraw, floorDraw, dirtDraw);
    if Generate(n, x, y, obstacleDraw, floorDraw, dirtDraw).dirt > 0 {
      assert after == before + {Pos(x, y)};
    } else {
      assert after == before;
    }
  }

  lemma DirtyBeforeNextRow(n: nat, x: int, obstacleDraw: (int, int) -> int,
                           floorDraw: (int, int) -> int, dirtDraw: (int, int) -> int)
    ensures DirtyBefore(n, x + 1, 0, obstacleDraw, floorDraw, dirtDraw)
         == DirtyBefore(n, x, n, obstacleDraw, floorDraw, dirtDraw)
  {
  }

  /** Once every row is generated, the dirty positions are those generation made dirty. */
  lemma DirtyBeforeAll(n: nat, levels: map<Pos, int>, obstacleDraw: (int, int) -> int,
                       floorDraw: (int, int) -> int, dirtDraw: (int, int) -> int)
    requires levels.Keys == Positions(n)
    requires forall p :: p in levels ==> levels[p] == Generate(n, p.x, p.y, obstacleDraw, floorDraw, dirtDraw).dirt
    ensures Dirty(levels) == DirtyBefore(n, n, 0, obstacleDraw, floorDraw, dirtDraw)
  {
  }

  class SensorSimulatorService {
    const floorMap: FloorMap
    const gridSize: int
    var numberOfDirtCell: int

    constructor (floorMap: FloorMap, gridSize: int)
      ensures this.floorMap == floorMap && this.gridSize == gridSize && numberOfDirtCell == 0
    {
      this.floorMap := floorMap;
      this.gridSize := gridSize;
      numberOfDirtCell := 0;
    }

    /**
     * Cells before (x, y) in row-major order carry what generation gives
     * them; the others are still at their defaults.
     */
    ghost predicate GeneratedBefore(x: int, y: int, obstacleDraw: (int, int) -> int,
                                    floorDraw: (int, int) -> int, dirtDraw: (int, int) -> int)
      requires floorMap.Valid()
      reads this, floorMap, floorMap.cells, floorMap.CellSet
    {
      forall p :: InBounds(floorMap.Size(), p) ==>
        if p.x < x || (p.x == x && p.y < y)
        then Matches(floorMap.cells[p.x, p.y], Generate(floorMap.Size(), p.x, p.y, obstacleDraw, floorDraw, dirtDraw))
        else IsDefault(floorMap.cells[p.x, p.y])
    }

    /**
     * Obstacle flags of a width x height grid: never at the four corners,
     * elsewhere exactly where the draw of `nextInt(7)` is 0.
     */
    static method GenerateObstacles(width: nat, height: nat, draw: (int, int) -> int)
      returns (grid: array2<bool>)
      ensures fresh(grid) && grid.Length0 == width && grid.Length1 == height
      ensures forall x, y :: 0 <= x < width && 0 <= y < height ==>
        grid[x, y] == (!SkippedByObstacleDraw(x, y, width, height) && draw(x, y) == 0)
    {
      grid := new bool[width, height]((_, _) => false);
      var x := 0;
      while x < width
        invariant 0 <= x <= width
        invariant forall a, b :: 0 <= a < width && 0 <= b < height ==>
          grid[a, b] == (a < x && !SkippedByObstacleDraw(a, b, width, height) && draw(a, b) == 0)
      {
        var y := 0;
        while y < height
          invariant 0 <= y <= height
          invariant forall a, b :: 0 <= a < width && 0 <= b < height ==>
            grid[a, b] == ((a < x || (a == x && b < y))
                           && !SkippedByObstacleDraw(a, b, width, height) && draw(a, b) == 0)
        {
          if !SkippedByObstacleDraw(x, y, width, height) {
            grid[x, y] := draw(x, y) == 0;
          }
          y := y + 1;
        }
        x := x + 1;
      }
    }

    /** Station flags: exactly the four corners of the square grid. */
    static method GenerateChargingStations(width: nat, height: nat) returns (grid: array2<bool>)
      requires 1 <= width && width == height
      ensures fresh(grid) && grid.Length0 == width && grid.Length1 == height
      ensures forall x, y :: 0 <= x < width && 0 <= y < height ==> grid[x, y] == Corner(width, x, y)
    {
      grid := new bool[width, height]((_, _) => false);
      grid[0, 0] := true;
      grid[0, width - 1] := true;
      grid[height - 1, 0] := true;
      grid[height - 1, width - 1] := true;
    }

    /**
     * Builds the scenario: a fresh grid whose every cell carries what
     * `Generate` gives it for the draws, and the number of dirty cells.
     */
    method InitializeObstacleAndDirt(obstacleDraw: (int, int) -> int, floorDraw: (int, int) -> int,
                                     dirtDraw: (int, int) -> int)
      requires gridSize >= 1
      modifies floorMap, this`numberOfDirtCell
      ensures floorMap.Valid() && floorMap.Size() == gridSize
      ensures fresh(floorMap.cells) && fresh(floorMap.CellSet)
      ensures forall p :: InBounds(gridSize, p) ==>
        Matches(floorMap.CellAt(p), Generate(gridSize, p.x, p.y, obstacleDraw, floorDraw, dirtDraw))
      ensures numberOfDirtCell == |Dirty(floorMap.DirtLevels())|
    {
      floorMap.InitializeGrid(gridSize);
      var obstacleGrid := GenerateObstacles(gridSize, gridSize, obstacleDraw);
      var chargingStationGrid := GenerateChargingStations(gridSize, gridSize);
      numberOfDirtCell := 0;
      PopulateGrid(obstacleGrid, chargingStationGrid, obstacleDraw, floorDraw, dirtDraw);
    }

    /** The generation loop over the rows of a freshly initialised grid. */
    method PopulateGrid(obstacleGrid: array2<bool>, chargingStationGrid: array2<bool>,
                        obstacleDraw: (int, int) -> int, floorDraw: (int, int) -> int,
                        dirtDraw: (int, int) -> int)
      requires floorMap.Valid() && floorMap.Size() == gridSize
      requires obstacleGrid.Length0 == gridSize && obstacleGrid.Length1 == gridSize
      requires chargingStationGrid.Length0 == gridSize && chargingStationGrid.Length1 == gridSize
      requires forall a, b :: 0 <= a < gridSize && 0 <= b < gridSize ==>
        obstacleGrid[a, b] == Generate(gridSize, a, b, obstacleDraw, floorDraw, dirtDraw).obstacle
        && chargingStationGrid[a, b] == Corner(gridSize, a, b)
      requires GeneratedBefore(0, 0, obstacleDraw, floorDraw, dirtDraw)
      requires numberOfDirtCell == 0
      modifies floorMap.CellSet, this`numberOfDirtCell
      ensures GeneratedBefore(gridSize, 0, obstacleDraw, floorDraw, dirtDraw)
      ensures numberOfDirtCell == |Dirty(floorMap.DirtLevels())|
    {
      ghost var n: nat := gridSize;
      var x := 0;
      while x < gridSize
        invariant 0 <= x <= gridSize
        invariant GeneratedBefore(x, 0, obstacleDraw, floorDraw, dirtDraw)
        invariant numberOfDirtCell == |DirtyBefore(n, x, 0, obstacleDraw, floorDraw, dirtDraw)|
      {
        InitializeRow(x, obstacleGrid, chargingStationGrid, obstacleDraw, floorDraw, dirtDraw);
        DirtyBeforeNextRow(n, x, obstacleDraw, floorDraw, dirtDraw);
        x := x + 1;
      }
      DirtyBeforeAll(n, floorMap.DirtLevels(), obstacleDraw, floorDraw, dirtDraw);
    }

    /** The inner loop of the generation: row `x`, column by column. */
    method InitializeRow(x: int, obstacleGrid: array2<bool>, chargingStationGrid: array2<bool>,
                         obstacleDraw: (int, int) -> int, floorDraw: (int, int) -> int,
                         dirtDraw: (int, int) -> int)
      requires floorMap.Valid() && floorMap.Size() == gridSize && 0 <= x < gridSize
      requires obstacleGrid.Length0 == gridSize && obstacleGrid.Length1 == gridSize
      requires chargingStationGrid.Length0 == gridSize && chargingStationGrid.Length1 == gridSize
      requires forall a, b :: 0 <= a < gridSize && 0 <= b < gridSize ==>
        obstacleGrid[a, b] == Generate(gridSize, a, b, obstacleDraw, floorDraw, dirtDraw).obstacle
        && chargingStationGrid[a, b] == Corner(gridSize, a, b)
      requires GeneratedBefore(x, 0, obstacleDraw, floorDraw, dirtDraw)
      requires numberOfDirtCell == |DirtyBefore(gridSize, x, 0, obstacleDraw, floorDraw, dirtDraw)|
      modifies floorMap.CellSet, this`numberOfDirtCell
      ensures GeneratedBefore(x + 1, 0, obstacleDraw, floorDraw, dirtDraw)
      ensures numberOfDirtCell == |DirtyBefore(gridSize, x, gridSize, obstacleDraw, floorDraw, dirtDraw)|
    {
      ghost var n: nat := gridSize;
      var y := 0;
      while y < gridSize
        invariant 0 <= y <= gridSize
        invariant GeneratedBefore(x, y, obstacleDraw, floorDraw, dirtDraw)
        invariant numberOfDirtCell == |DirtyBefore(n, x, y, obstacleDraw, floorDraw, dirtDraw)|
      {
        InitializeCell(x, y, obstacleGrid[x, y], chargingStationGrid[x, y], floorDraw(x, y), dirtDraw(x, y),
                       obstacleDraw, floorDraw, dirtDraw);
        DirtyBeforeStep(n, x, y, obstacleDraw, floorDraw, dirtDraw);
        y := y + 1;
      }
    }

    /**
     * One iteration of the generation loop, on the first cell still at its
     * defaults: an obstacle, else a station, else a floor type and a dirt
     * draw, which counts the cell as dirty.  The draws that produced the
     * arguments are passed as ghosts to state the effect.
     */
    method InitializeCell(x: int, y: int, obstacle: bool, station: bool, floorTypeRandom: int, dirtRandom: int,
                          ghost obstacleDraw: (int, int) -> int, ghost floorDraw: (int, int) -> int,
                          ghost dirtDraw: (int, int) -> int)
      requires floorMap.Valid() && InBounds(floorMap.Size(), Pos(x, y))
      requires GeneratedBefore(x, y, obstacleDraw, floorDraw, dirtDraw)
      requires obstacle == Generate(floorMap.Size(), x, y, obstacleDraw, floorDraw, dirtDraw).obstacle
      requires station == Corner(floorMap.Size(), x, y)
      requires floorTypeRandom == floorDraw(x, y) && dirtRandom == dirtDraw(x, y)
      modifies floorMap.CellAt(Pos(x, y)), this`numberOfDirtCell
      ensures GeneratedBefore(x, y + 1, obstacleDraw, floorDraw, dirtDraw)
      ensures numberOfDirtCell
           == old(numberOfDirtCell) + Generate(floorMap.Size(), x, y, obstacleDraw, floorDraw, dirtDraw).dirt
    {
      var cell := floorMap.cells[x, y];
      if obstacle {
        cell.isObstacle := true;
      } else if station {
        cell.isChargingStation := true;
      } else {
        if floorTypeRandom == 0 || floorTypeRandom == 1 {
          cell.floorType := BareFloor;
        } else if floorTypeRandom == 2 {
          cell.floorType := LowPileCarpet;
        } else if floorTypeRandom == 3 {
          cell.floorType := HighPileCarpet;
        }
        if dirtRandom != 0 {
          cell.dirtLevel := 1;
          numberOfDirtCell := numberOfDirtCell + 1;
        }
      }
      assert Matches(cell, Generate(floorMap.Size(), x, y, obstacleDraw, floorDraw, dirtDraw));
      forall p | InBounds(floorMap.Size(), p)
        ensures if p.x < x || (p.x == x && p.y < y + 1)
                then Matches(floorMap.cells[p.x, p.y], Generate(floorMap.Size(), p.x, p.y, obstacleDraw, floorDraw, dirtDraw))
                else IsDefault(floorMap.cells[p.x, p.y])
      {
        if p != Pos(x, y) {
          assert floorMap.cells[p.x, p.y] != cell;
        }
      }
    }

    /** `isObstacle(x, y)`: the single obstacle flag of the cell. */
    function IsObstacle(x: int, y: int): (r: bool)
      requires floorMap.Valid() && InBounds(floorMap.Size(), Pos(x, y))
      reads floorMap, floorMap.cells, floorMap.CellSet`isObstacle
      ensures r <==> Pos(x, y) in floorMap.Obstacles()
    {
      floorMap.CellAt(Pos(x, y)).isObstacle
    }

    /** `isChargingStation(x, y)`. */
    function IsChargingStation(x: int, y: int): (r: bool)
      requires floorMap.Valid() && InBounds(floorMap.Size(), Pos(x, y))
      reads floorMap, floorMap.cells, floorMap.CellSet`isChargingStation
      ensures r <==> Pos(x, y) in floorMap.Stations()
    {
      floorMap.CellAt(Pos(x, y)).isChargingStation
    }

    /** All dirt is cleaned exactly when the cleaned count equals the generated dirty-cell count. */
    function IsCleanAll(cleanedDirtCellCount: int): (r: bool)
      reads this
      ensures r <==> cleanedDirtCellCount == numberOfDirtCell
    {
      numberOfDirtCell == cleanedDirtCellCount
    }

    /** `cleanDirt(x, y)` of the sensor: a dirty cell ends at dirt level 0. */
    method CleanDirt(x: int, y: int)
      requires floorMap.Valid() && InBounds(floorMap.Size(), Pos(x, y))
      modifies floorMap.CellAt(Pos(x, y))`dirtLevel
      ensures floorMap.CellAt(Pos(x, y)).dirtLevel == Reduced(old(floorMap.CellAt(Pos(x, y)).dirtLevel))
    {
      var cell := floorMap.cells[x, y];
      if cell.dirtLevel > 0 {
        cell.ReduceDirtLevel();
      }
    }
  }
}

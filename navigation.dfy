/**
 * The navigation service: a depth-first sweep of the floor that heads for
 * the cheapest charging station whenever the bin is full, the battery runs
 * low or all dirt is cleaned, and comes back to where it stopped.
 *
 * The stack holds the positions of the `Cell[]` pairs the service pushes
 * (a cell is identified by its coordinates), with its top at the end;
 * `stationPath` is None for `null`.  `Abs()` reads the service and the
 * heap it drives as a `Robot`, `Env()` reads what stays fixed while it
 * runs, and every operation is proved to perform the transition of the
 * Traversal module.
 */
module Navigation {
  import opened Wrappers
  import opened Direction
  import opened Cells
  import opened Floor
  import opened Sensor
  import opened Paths
  import opened Battery
  import opened Dirt
  import opened Planner
  import opened Traversal
  import opened Ways
  import opened TraversalFacts

  /** The world the services show: the terrain, stations and ways on the floor map, and the configuration. */
  ghost function WorldOf(floorMap: FloorMap, dirtService: DirtService, batteryService: BatteryService,
                         sensorSimulatorService: SensorSimulatorService): World
    requires floorMap.Valid()
    reads floorMap, floorMap.cells, floorMap.CellSet`isObstacle, floorMap.CellSet`floorType,
          floorMap.CellSet`isChargingStation, floorMap.CellSet`wayToChargingStation,
          floorMap.CellSet`distanceToStation, sensorSimulatorService
  {
    World(TerrainOf(floorMap), floorMap.Stations(), floorMap.Ways(), floorMap.Distances(),
          batteryService.FullCharge(), dirtService.dirtCapacity, sensorSimulatorService.numberOfDirtCell)
  }

  class NavigationService {
    const floorMap: FloorMap
    const dirtService: DirtService
    const batteryService: BatteryService
    const sensorSimulatorService: SensorSimulatorService

    var stack: seq<Entry>
    var stationPath: Option<seq<Pos>>
    var stationIdx: nat
    var isNavigationCompleted: bool
    var currentX: int
    var currentY: int
    var lastCleaningX: int
    var lastCleaningY: int
    var isReturningFromStation: bool

    /** What stays fixed while the robot runs, as last read from the heap. */
    ghost var world: World
    /** The cells whose visited flag is set. */
    ghost var visited: set<Pos>
    /** The dirt level of every cell. */
    ghost var dirt: map<Pos, int>

    /** The services share one allocated, non-empty floor map. */
    ghost predicate MapReady()
      reads floorMap, floorMap.cells
    {
      && floorMap.Valid() && floorMap.Size() >= 1
      && dirtService.floorMap == floorMap && sensorSimulatorService.floorMap == floorMap
    }

    /** What stays fixed while the robot runs, read from the heap. */
    ghost function Env(): World
      requires floorMap.Valid()
      reads floorMap, floorMap.cells, floorMap.CellSet`isObstacle, floorMap.CellSet`floorType,
            floorMap.CellSet`isChargingStation, floorMap.CellSet`wayToChargingStation,
            floorMap.CellSet`distanceToStation, sensorSimulatorService
    {
      WorldOf(floorMap, dirtService, batteryService, sensorSimulatorService)
    }

    /** The state one navigation step changes. */
    ghost function Abs(): Robot
      reads this, batteryService, dirtService
    {
      Robot(stack, stationPath, stationIdx, isNavigationCompleted, Pos(currentX, currentY),
            Pos(lastCleaningX, lastCleaningY), isReturningFromStation, batteryService.battery,
            dirtService.CurrentBin(), dirtService.IsCleaningActive(), Marks(visited, dirt))
    }

    /** The ghost fields mirror the heap. */
    ghost predicate Coupled()
      reads this`world, this`visited, this`dirt, floorMap, floorMap.cells, floorMap.CellSet, sensorSimulatorService
    {
      MapReady() && world == Env() && floorMap.VisitedIs(visited) && floorMap.DirtIs(dirt)
    }

    /** The mirrors hold and every position the service indexes the grid with lies on it. */
    ghost predicate Valid()
      reads this, floorMap, floorMap.cells, floorMap.CellSet, batteryService, dirtService, sensorSimulatorService
    {
      Coupled() && Wf(world, Abs())
    }

    /**
     * The service as Spring creates it: an empty stack and station list,
     * at (0, 0), navigation not completed.
     */
    constructor (floorMap: FloorMap, dirtService: DirtService, batteryService: BatteryService,
                 sensorSimulatorService: SensorSimulatorService)
      requires floorMap.Valid() && floorMap.Size() >= 1
      requires dirtService.floorMap == floorMap && sensorSimulatorService.floorMap == floorMap
      requires floorMap.WaysOnGrid()
      ensures Valid()
      ensures this.floorMap == floorMap && this.dirtService == dirtService
      ensures this.batteryService == batteryService && this.sensorSimulatorService == sensorSimulatorService
      ensures stack == [] && stationPath == Some([]) && stationIdx == 0 && !isNavigationCompleted
      ensures Pos(currentX, currentY) == Origin && Pos(lastCleaningX, lastCleaningY) == Origin
      ensures !isReturningFromStation
    {
      this.floorMap := floorMap;
      this.dirtService := dirtService;
      this.batteryService := batteryService;
      this.sensorSimulatorService := sensorSimulatorService;
      stack := [];
      stationPath := Some([]);
      stationIdx := 0;
      isNavigationCompleted := false;
      currentX, currentY := 0, 0;
      lastCleaningX, lastCleaningY := 0, 0;
      isReturningFromStation := false;
      world := WorldOf(floorMap, dirtService, batteryService, sensorSimulatorService);
      ghost var v, d := floorMap.Mirrors();
      visited, dirt := v, d;
      new;
      InitiallyValid();
    }

    /** A service at the origin with no stack and no trip, its mirrors in place, is valid. */
    lemma InitiallyValid()
      requires MapReady() && floorMap.WaysOnGrid() && world == Env()
      requires floorMap.VisitedIs(visited) && floorMap.DirtIs(dirt)
      requires stack == [] && stationPath == Some([]) && currentX == currentY == lastCleaningX == lastCleaningY == 0
      ensures Valid()
    {
      assert world.way == floorMap.Ways() && world.terrain.n == floorMap.Size();
      WfInitially(world, Abs());
    }

    /** `isValidMove`: the coordinates lie on the grid. */
    function IsValidMove(x: int, y: int): (r: bool)
      requires floorMap.Valid()
      reads floorMap, floorMap.cells
      ensures r <==> InBounds(floorMap.Size(), Pos(x, y))
    {
      x >= 0 && y >= 0 && x < floorMap.cells.Length0 && y < floorMap.cells.Length1
    }

    /** `isAtAnyChargingStation`: the robot's cell is flagged as a station. */
    function IsAtAnyChargingStation(): (r: bool)
      requires floorMap.Valid() && InBounds(floorMap.Size(), Pos(currentX, currentY))
      reads this, floorMap, floorMap.cells, floorMap.CellSet`isChargingStation
      ensures r <==> Pos(currentX, currentY) in floorMap.Stations()
    {
      floorMap.cells[currentX, currentY].isChargingStation
    }

    /** `getCurrentPosition`. */
    function GetCurrentPosition(): (r: Pos)
      reads this
      ensures r.x == currentX && r.y == currentY
    {
      Pos(currentX, currentY)
    }

    /** `isNavigationCompleted`. */
    function IsNavigationCompleted(): (r: bool)
      reads this, batteryService, dirtService
      ensures r <==> Abs().completed
    {
      isNavigationCompleted
    }

    /**
     * `findAllChargingStations`: the four corners, top-left first, the order
     * in which `initializeAllPaths` tries them.
     */
    function FindAllChargingStations(): (r: seq<Pos>)
      reads floorMap
      ensures |r| == 4 && r[0] == Origin
      ensures forall p :: p in r <==> p in CornerSet(floorMap.Size())
      ensures floorMap.Size() >= 1 ==> forall p :: p in r ==> InBounds(floorMap.Size(), p) && Corner(floorMap.Size(), p.x, p.y)
    {
      var size := floorMap.cells.Length0;
      [Pos(0, 0), Pos(0, size - 1), Pos(size - 1, 0), Pos(size - 1, size - 1)]
    }

    /**
     * `getNeighborCell`: the first neighbour of the robot's cell, in the
     * order UP, DOWN, LEFT, RIGHT, that is on the grid, not visited and not
     * an obstacle; None for `null`.
     */
    method GetNeighborCell() returns (r: Option<Pos>)
      requires MapReady() && floorMap.VisitedIs(visited)
      requires world.terrain.n == floorMap.Size() && world.terrain.blocked == floorMap.Obstacles()
      ensures r == FirstFree(world, visited, Pos(currentX, currentY), 0)
    {
      ghost var c := Pos(currentX, currentY);
      var i := 0;
      while i < |Values|
        invariant 0 <= i <= |Values|
        invariant FirstFree(world, visited, c, 0) == FirstFree(world, visited, c, i)
      {
        var direction := Values[i];
        var q := Move(Pos(currentX, currentY), direction);
        var newX, newY := q.x, q.y;
        if IsValidMove(newX, newY) {
          var neighborCell := floorMap.cells[newX, newY];
          assert neighborCell == floorMap.CellAt(q);
          if !neighborCell.isVisited && !sensorSimulatorService.IsObstacle(newX, newY) {
            assert Free(world, visited, q);
            return Some(Pos(newX, newY));
          }
        }
        assert !Free(world, visited, q);
        i := i + 1;
      }
      return None;
    }

    /**
     * `startNavigation`: when navigation is not completed and the stack is
     * empty, record the ways to the stations, push the origin's frame with
     * no previous cell, mark the origin visited and stand on it; otherwise
     * nothing happens.  The start coordinates passed in are overridden by
     * (0, 0).
     */
    method StartNavigation(startX: int, startY: int)
      requires Valid()
      modifies this`world, this`stack, this`visited, this`currentX, this`currentY,
               floorMap.CellSet`wayToChargingStation, floorMap.CellSet`distanceToStation, floorMap.CellSet`isVisited
      ensures Valid()
      ensures old(isNavigationCompleted) || old(stack) != [] ==> Abs() == old(Abs()) && world == old(world)
      ensures !old(isNavigationCompleted) && old(stack) == [] ==>
        && Abs() == Start(old(Abs()))
        && world == old(world).(way := world.way, distance := world.distance)
        && forall p :: InBounds(world.terrain.n, p) ==>
             WayRecorded(world.terrain, FindAllChargingStations(), p, WayAt(old(world), p), DistanceAt(old(world), p),
                         WayAt(world, p), DistanceAt(world, p))
    {
      if !isNavigationCompleted && stack == [] {
        ghost var s, w0 := Abs(), world;
        PrepareWays();
        PushOrigin();
        StartWf(w0, world, s, FindAllChargingStations());
      }
    }

    /** `initializeAllPaths`, after which the world shows the recorded ways and distances. */
    method PrepareWays()
      requires Coupled()
      modifies this`world, floorMap.CellSet`wayToChargingStation, floorMap.CellSet`distanceToStation
      ensures Coupled() && Abs() == old(Abs())
      ensures world == old(world).(way := world.way, distance := world.distance)
      ensures forall p :: p in world.way ==> InBounds(world.terrain.n, p)
      ensures forall p :: InBounds(world.terrain.n, p) ==>
        WayRecorded(world.terrain, FindAllChargingStations(), p, WayAt(old(world), p), DistanceAt(old(world), p),
                    WayAt(world, p), DistanceAt(world, p))
    {
      ghost var e := RecordWaysOnMap();
      world := e;
    }

    /** `initializeAllPaths`, read as the world it leaves: the old world with the recorded ways and distances. */
    method RecordWaysOnMap() returns (ghost e: World)
      requires Coupled()
      modifies floorMap.CellSet`wayToChargingStation, floorMap.CellSet`distanceToStation
      ensures MapReady() && e == Env() && floorMap.VisitedIs(visited) && floorMap.DirtIs(dirt)
      ensures e == world.(way := e.way, distance := e.distance)
      ensures forall p :: p in e.way ==> InBounds(e.terrain.n, p)
      ensures forall p :: InBounds(e.terrain.n, p) ==>
        WayRecorded(e.terrain, FindAllChargingStations(), p, WayAt(world, p), DistanceAt(world, p),
                    WayAt(e, p), DistanceAt(e, p))
    {
      label Before:
      InitializeAllPaths();
      WaysShown@Before();
      MirrorsKept@Before();
      e := Env();
    }

    /** The mirrors still follow the visited flags and dirt levels when neither has changed. */
    twostate lemma MirrorsKept()
      requires old(floorMap.Valid()) && old(floorMap.VisitedIs(visited)) && old(floorMap.DirtIs(dirt))
      requires unchanged(this`visited, this`dirt, floorMap) && unchanged(floorMap.cells)
      requires unchanged(floorMap.CellSet`isVisited, floorMap.CellSet`dirtLevel)
      ensures floorMap.Valid() && floorMap.VisitedIs(visited) && floorMap.DirtIs(dirt)
    {
    }

    /** What `initializeAllPaths` records in the cells, read through the worlds before and after. */
    twostate lemma WaysShown()
      requires old(MapReady()) && MapReady()
      requires unchanged(floorMap, sensorSimulatorService) && unchanged(floorMap.cells)
      requires unchanged(floorMap.CellSet`isObstacle, floorMap.CellSet`floorType, floorMap.CellSet`isChargingStation)
      requires forall p :: InBounds(floorMap.Size(), p) ==>
        WayRecorded(old(TerrainOf(floorMap)), old(FindAllChargingStations()), p,
                    old(floorMap.Ways())[p], old(floorMap.Distances())[p],
                    floorMap.CellAt(p).wayToChargingStation, floorMap.CellAt(p).distanceToStation)
      ensures Env() == old(Env()).(way := Env().way, distance := Env().distance)
      ensures forall p :: p in Env().way ==> InBounds(Env().terrain.n, p)
      ensures forall p :: InBounds(Env().terrain.n, p) ==>
        WayRecorded(Env().terrain, FindAllChargingStations(), p, WayAt(old(Env()), p), DistanceAt(old(Env()), p),
                    WayAt(Env(), p), DistanceAt(Env(), p))
    {
      FixedKept();
      var w0, w := old(Env()), Env();
      forall p | InBounds(w.terrain.n, p)
        ensures WayRecorded(w.terrain, FindAllChargingStations(), p, WayAt(w0, p), DistanceAt(w0, p), WayAt(w, p), DistanceAt(w, p))
      {
        assert p in Positions(floorMap.Size());
        assert WayAt(w0, p) == old(floorMap.Ways())[p] && DistanceAt(w0, p) == old(floorMap.Distances())[p];
        assert WayAt(w, p) == floorMap.CellAt(p).wayToChargingStation;
        assert DistanceAt(w, p) == floorMap.CellAt(p).distanceToStation;
      }
    }

    /**
     * The terrain, the stations and the configuration stay as they were when
     * no cell flag they read has changed: the world differs at most in its
     * ways and distances.
     */
    twostate lemma FixedKept()
      requires old(floorMap.Valid())
      requires unchanged(floorMap, sensorSimulatorService) && unchanged(floorMap.cells)
      requires unchanged(floorMap.CellSet`isObstacle, floorMap.CellSet`floorType, floorMap.CellSet`isChargingStation)
      ensures floorMap.Valid() && TerrainOf(floorMap) == old(TerrainOf(floorMap)) && floorMap.Stations() == old(floorMap.Stations())
      ensures Env() == old(Env()).(way := Env().way, distance := Env().distance)
    {
    }

    /** Pushes the origin's frame, with no previous cell, marks the origin visited and stands on it. */
    method PushOrigin()
      requires Coupled() && stack == []
      modifies this`stack, this`visited, this`currentX, this`currentY, floorMap.CellSet`isVisited
      ensures Coupled() && Abs() == Start(old(Abs()))
    {
      MarkOrigin();
      VisitsMarked();
    }

    /** The marking half of `PushOrigin`, with only the visited flags in view. */
    method MarkOrigin()
      requires floorMap.Valid() && floorMap.Size() >= 1 && floorMap.VisitedIs(visited)
      modifies this`stack, this`visited, this`currentX, this`currentY, floorMap.CellSet`isVisited
      ensures floorMap.VisitedIs(visited) && Abs() == Start(old(Abs()))
      ensures unchanged(floorMap.CellSet`isObstacle, floorMap.CellSet`floorType, floorMap.CellSet`isChargingStation,
                        floorMap.CellSet`wayToChargingStation, floorMap.CellSet`distanceToStation,
                        floorMap.CellSet`dirtLevel)
    {
      stack := [Entry(None, Origin)];
      floorMap.SetVisited(Origin, visited);
      visited := visited + {Origin};
      currentX, currentY := 0, 0;
    }

    /**
     * `stepNavigation`: a step along the trip while one is set, otherwise a
     * sweep step while cleaning mode is on.
     */
    method StepNavigation()
      requires Valid()
      modifies this`stack, this`stationPath, this`stationIdx, this`currentX, this`currentY, this`lastCleaningX,
               this`lastCleaningY, this`isNavigationCompleted, this`isReturningFromStation, this`visited, this`dirt,
               batteryService`battery, dirtService`currentCapacity, dirtService`cleanedDirtCellCount, dirtService`mode,
               floorMap.CellSet`isVisited, floorMap.CellSet`dirtLevel
      ensures Valid()
      ensures Abs() == StepNav(world, old(Abs()))
    {
      if stationPath.Some? && |stationPath.value| > 0 {
        StationNavigation();
      } else if dirtService.IsCleaningActive() {
        CleaningNavigation();
      }
    }

    /**
     * `stationNavigation`: one step along the trip.  Without a trip, or past
     * its end, the trip is dropped.
     */
    method StationNavigation()
      requires Valid()
      modifies this`stationPath, this`stationIdx, this`currentX, this`currentY, this`isNavigationCompleted,
               this`isReturningFromStation, batteryService`battery, dirtService`currentCapacity, dirtService`mode
      ensures Valid()
      ensures Abs() == StationStep(world, old(Abs()))
    {
      StationStepWf(world, Abs());
      if stationPath.None? || |stationPath.value| == 0 || stationIdx >= |stationPath.value| {
        DropTrip();
      } else {
        StationStepSplit(world, Abs());
        FollowTrip();
      }
    }

    /** The mirrors still hold when nothing they read has changed. */
    twostate lemma CoupledKept()
      requires old(Coupled())
      requires unchanged(this`world, this`visited, this`dirt, floorMap, sensorSimulatorService)
      requires unchanged(floorMap.cells) && unchanged(floorMap.CellSet)
      ensures Coupled()
    {
    }

    /** Without a trip, or past its end, the trip is dropped. */
    method DropTrip()
      requires Coupled()
      modifies this`stationPath, this`stationIdx
      ensures Coupled()
      ensures Abs() == old(Abs()).(stationPath := None, stationIdx := 0)
    {
      stationPath := None;
      stationIdx := 0;
      CoupledKept();
    }

    /** `stationNavigation` along a trip: the move onto its current cell, then what that cell asks for. */
    method FollowTrip()
      requires Coupled()
      requires stationPath.Some? && stationIdx < |stationPath.value|
      requires forall i :: 0 <= i < |stationPath.value| ==> InBounds(floorMap.Size(), stationPath.value[i])
      requires InBounds(floorMap.Size(), Pos(lastCleaningX, lastCleaningY))
      modifies this`stationPath, this`stationIdx, this`currentX, this`currentY, this`isNavigationCompleted,
               this`isReturningFromStation, batteryService`battery, dirtService`currentCapacity, dirtService`mode
      ensures Coupled()
      ensures Abs() == TripStep(world, TripMove(world, old(Abs())))
    {
      StepAlongTrip();
      CoupledKept();
    }

    /** The move onto the trip's current cell, then what that cell asks for. */
    method StepAlongTrip()
      requires floorMap.Valid() && world.terrain == TerrainOf(floorMap) && world.stations == floorMap.Stations()
      requires world.way == floorMap.Ways() && world.fullCharge == batteryService.FullCharge()
      requires stationPath.Some? && stationIdx < |stationPath.value|
      requires forall i :: 0 <= i < |stationPath.value| ==> InBounds(floorMap.Size(), stationPath.value[i])
      requires InBounds(floorMap.Size(), Pos(lastCleaningX, lastCleaningY))
      modifies this`stationPath, this`stationIdx, this`currentX, this`currentY, this`isNavigationCompleted,
               this`isReturningFromStation, batteryService`battery, dirtService`currentCapacity, dirtService`mode
      ensures Abs() == TripStep(world, TripMove(world, old(Abs())))
    {
      MoveOnTrip();
      TripStepAtCell();
    }

    /**
     * The move onto the trip's current cell, paid for with the moving cost
     * from the cell before it unless it is the cell where cleaning stopped.
     */
    method MoveOnTrip()
      requires floorMap.Valid() && world.terrain == TerrainOf(floorMap) && world.fullCharge == batteryService.FullCharge()
      requires stationPath.Some? && stationIdx < |stationPath.value|
      requires forall i :: 0 <= i < |stationPath.value| ==> InBounds(floorMap.Size(), stationPath.value[i])
      modifies this`currentX, this`currentY, batteryService`battery
      ensures Abs() == TripMove(world, old(Abs()))
    {
      var path := stationPath.value;
      var currCell := path[stationIdx];
      currentX, currentY := currCell.x, currCell.y;
      if currentX != lastCleaningX || currentY != lastCleaningY {
        var currentCell := floorMap.cells[currentX, currentY];
        assert currentCell == floorMap.CellAt(currCell);
        var previousCell: Option<FloorType> := None;
        if stationIdx > 0 {
          var preCell := path[stationIdx - 1];
          assert floorMap.cells[preCell.x, preCell.y] == floorMap.CellAt(preCell);
          previousCell := Some(floorMap.cells[preCell.x, preCell.y].floorType);
        }
        var movingPowerCost := MovingPowerCost(previousCell, currentCell.floorType);
        assert movingPowerCost == TripStepCost(world, path, stationIdx);
        batteryService.ConsumePower(movingPowerCost);
      }
    }

    /** What `stationNavigation` does once the robot stands on the trip's current cell. */
    method TripStepAtCell()
      requires floorMap.Valid() && world.stations == floorMap.Stations() && world.way == floorMap.Ways()
      requires world.fullCharge == batteryService.FullCharge()
      requires stationPath.Some? && stationIdx < |stationPath.value|
      requires InBounds(floorMap.Size(), Pos(currentX, currentY)) && InBounds(floorMap.Size(), Pos(lastCleaningX, lastCleaningY))
      modifies this`stationPath, this`stationIdx, this`isNavigationCompleted, this`isReturningFromStation,
               batteryService`battery, dirtService`currentCapacity, dirtService`mode
      ensures Abs() == TripStep(world, old(Abs()))
    {
      if IsAtAnyChargingStation() && !isReturningFromStation {
        var lastCleaningCell := floorMap.cells[lastCleaningX, lastCleaningY];
        assert lastCleaningCell == floorMap.CellAt(Pos(lastCleaningX, lastCleaningY));
        ArriveAtStation(lastCleaningCell.wayToChargingStation);
      } else if isReturningFromStation && currentX == lastCleaningX && currentY == lastCleaningY {
        stationPath := None;
        stationIdx := 0;
        isReturningFromStation := false;
      } else if stationIdx < |stationPath.value| - 1 {
        stationIdx := stationIdx + 1;
      }
    }

    /**
     * At a station on the way there: empty the bin, recharge, then complete
     * when the stack is empty, or resume cleaning and take the way back to
     * where cleaning stopped, which the caller read from that cell.
     */
    method ArriveAtStation(lastCleaningWay: Option<seq<Pos>>)
      requires lastCleaningWay == WayAt(world, Pos(lastCleaningX, lastCleaningY))
      requires world.fullCharge == batteryService.FullCharge()
      modifies this`stationPath, this`stationIdx, this`isNavigationCompleted, this`isReturningFromStation,
               batteryService`battery, dirtService`currentCapacity, dirtService`mode
      ensures Abs() == Arrive(world, old(Abs()))
    {
      dirtService.RemoveDirt();
      batteryService.Recharge();
      if stack == [] {
        isNavigationCompleted := true;
        stationPath := None;
        stationIdx := 0;
      } else {
        dirtService.SetCleaningMode();
        if lastCleaningWay.None? {
          // copying the missing way throws: the step ends here
          return;
        }
        stationPath := lastCleaningWay;
        stationIdx := 0;
        isReturningFromStation := true;
      }
    }

    /** Nothing the world or the dirt mirror reads has changed: at most the visited flags have. */
    twostate predicate FloorKept()
      reads this, floorMap, floorMap.cells, floorMap.CellSet, sensorSimulatorService
    {
      && unchanged(this`world, this`dirt, floorMap, sensorSimulatorService) && unchanged(floorMap.cells)
      && unchanged(floorMap.CellSet`isObstacle, floorMap.CellSet`floorType, floorMap.CellSet`isChargingStation,
                   floorMap.CellSet`wayToChargingStation, floorMap.CellSet`distanceToStation, floorMap.CellSet`dirtLevel)
    }

    /** Marking cells visited, and nothing else, keeps the mirrors in place. */
    twostate lemma VisitsMarked()
      requires old(Coupled()) && FloorKept() && floorMap.VisitedIs(visited)
      ensures Coupled()
    {
    }

    /** The mirrors follow the visited flags and dirt levels when nothing else they read has changed. */
    twostate lemma CoupledMarked()
      requires old(Coupled())
      requires unchanged(this`world, floorMap, sensorSimulatorService)
      requires unchanged(floorMap.cells)
      requires unchanged(floorMap.CellSet`isObstacle, floorMap.CellSet`floorType, floorMap.CellSet`isChargingStation,
                         floorMap.CellSet`wayToChargingStation, floorMap.CellSet`distanceToStation)
      requires floorMap.VisitedIs(visited) && floorMap.DirtIs(dirt)
      ensures Coupled()
    {
    }

    /**
     * `cleaningNavigation`: one step of the depth-first sweep from the top
     * of the stack.
     */
    method CleaningNavigation()
      requires Valid()
      modifies this`stack, this`stationPath, this`stationIdx, this`currentX, this`currentY, this`lastCleaningX,
               this`lastCleaningY, this`isNavigationCompleted, this`isReturningFromStation, this`visited, this`dirt,
               batteryService`battery, dirtService`currentCapacity, dirtService`cleanedDirtCellCount, dirtService`mode,
               floorMap.CellSet`isVisited, floorMap.CellSet`dirtLevel
      ensures Valid()
      ensures Abs() == CleaningStep(world, old(Abs()))
    {
      CleaningStepWf(world, Abs());
      Sweep();
    }

    /** `cleaningNavigation` on a service whose top frame lies on the grid. */
    method Sweep()
      requires Coupled()
      requires stack != [] ==> InBounds(floorMap.Size(), Top(stack).cur)
      requires stack != [] && Top(stack).prev.Some? ==> InBounds(floorMap.Size(), Top(stack).prev.value)
      modifies this`stack, this`stationPath, this`stationIdx, this`currentX, this`currentY, this`lastCleaningX,
               this`lastCleaningY, this`isNavigationCompleted, this`isReturningFromStation, this`visited, this`dirt,
               batteryService`battery, dirtService`currentCapacity, dirtService`cleanedDirtCellCount, dirtService`mode,
               floorMap.CellSet`isVisited, floorMap.CellSet`dirtLevel
      ensures Coupled()
      ensures Abs() == CleaningStep(world, old(Abs()))
    {
      if stack == [] || isNavigationCompleted {
        return;
      }
      ghost var s := Abs();
      var cellPair := stack[|stack| - 1];
      assert cellPair == Top(s.stack);
      MoveTo(cellPair.cur);
      assert Abs() == s.(cur := cellPair.cur);
      if sensorSimulatorService.IsObstacle(currentX, currentY) {
        assert cellPair.cur in world.terrain.blocked;
        DropObstacle();
        return;
      }
      assert cellPair.cur !in world.terrain.blocked;
      Visit(cellPair);
    }

    /** An obstacle's frame is popped. */
    method DropObstacle()
      requires Coupled() && stack != []
      modifies this`stack
      ensures Coupled()
      ensures Abs() == old(Abs()).(stack := Pop(old(Abs()).stack))
    {
      PopFrame();
      CoupledKept();
    }

    /** `cleaningNavigation` once the robot stands on the frame's cell and it is no obstacle. */
    method Visit(cellPair: Entry)
      requires Coupled() && cellPair.cur == Pos(currentX, currentY) && InBounds(floorMap.Size(), cellPair.cur)
      requires cellPair.prev.Some? ==> InBounds(floorMap.Size(), cellPair.prev.value)
      modifies this`stack, this`stationPath, this`stationIdx, this`lastCleaningX, this`lastCleaningY,
               this`isNavigationCompleted, this`isReturningFromStation, this`visited, this`dirt,
               batteryService`battery, dirtService`currentCapacity, dirtService`cleanedDirtCellCount, dirtService`mode,
               floorMap.CellSet`isVisited, floorMap.CellSet`dirtLevel
      ensures Coupled()
      ensures Abs() == CellStep(world, old(Abs()), cellPair)
    {
      ReadyAtCell();
      ServeCell(cellPair);
      label Served:
      ContinueSweep();
      VisitsMarked@Served();
    }

    /** The robot stands on p. */
    method MoveTo(p: Pos)
      requires Coupled()
      modifies this`currentX, this`currentY
      ensures Coupled() && Pos(currentX, currentY) == p
      ensures Abs() == old(Abs()).(cur := p)
    {
      currentX, currentY := p.x, p.y;
      CoupledKept();
    }

    /** With the mirrors in place, what the sweep reads from a cell on the grid agrees with the world. */
    lemma ReadyAtCell()
      requires Coupled() && InBounds(floorMap.Size(), Pos(currentX, currentY))
      ensures Ready() && world.terrain == TerrainOf(floorMap)
      ensures world.fullCharge == batteryService.FullCharge() && world.capacity == dirtService.dirtCapacity
      ensures world.dirtTotal == sensorSimulatorService.numberOfDirtCell
    {
      var c := Pos(currentX, currentY);
      assert c in floorMap.Ways() && c in floorMap.Distances();
    }

    /**
     * Pays for moving onto the frame's cell and cleaning it, then cleans it
     * when it is dirty.
     */
    method ServeCell(cellPair: Entry)
      requires Coupled() && Ready() && world.terrain == TerrainOf(floorMap)
      requires world.fullCharge == batteryService.FullCharge() && world.capacity == dirtService.dirtCapacity
      requires cellPair.cur == Pos(currentX, currentY)
      requires cellPair.prev.Some? ==> InBounds(floorMap.Size(), cellPair.prev.value)
      modifies this`dirt, batteryService`battery, dirtService`currentCapacity, dirtService`cleanedDirtCellCount,
               floorMap.CellSet`dirtLevel
      ensures Coupled() && Ready()
      ensures Abs() == Serve(world, old(Abs()), cellPair)
    {
      PayForCell(cellPair);
      CleanCell();
      CoupledMarked();
    }

    /** `consumePower` with the moving cost from the frame's previous cell plus the cleaning cost. */
    method PayForCell(cellPair: Entry)
      requires floorMap.Valid() && world.terrain == TerrainOf(floorMap) && world.fullCharge == batteryService.FullCharge()
      requires floorMap.DirtIs(dirt)
      requires cellPair.cur == Pos(currentX, currentY) && InBounds(floorMap.Size(), cellPair.cur)
      requires cellPair.prev.Some? ==> InBounds(floorMap.Size(), cellPair.prev.value)
      modifies batteryService`battery
      ensures floorMap.DirtIs(dirt) && unchanged(this`dirt, floorMap.CellSet`dirtLevel)
      ensures unchanged(this`world, this`visited, this`currentX, this`currentY, floorMap, sensorSimulatorService)
      ensures unchanged(floorMap.cells)
      ensures unchanged(floorMap.CellSet`isVisited, floorMap.CellSet`isObstacle, floorMap.CellSet`floorType,
                        floorMap.CellSet`isChargingStation, floorMap.CellSet`wayToChargingStation,
                        floorMap.CellSet`distanceToStation)
      ensures Abs() == Pay(world, old(Abs()), cellPair)
    {
      var currentCell := floorMap.cells[currentX, currentY];
      assert currentCell == floorMap.CellAt(cellPair.cur);
      var previousCell: Option<FloorType> := None;
      if cellPair.prev.Some? {
        var p := cellPair.prev.value;
        assert floorMap.cells[p.x, p.y] == floorMap.CellAt(p);
        previousCell := Some(floorMap.cells[p.x, p.y].floorType);
      }
      var movingPowerCost := MovingPowerCost(previousCell, currentCell.floorType);
      var cleaningPowerCost := CleaningPowerCost(currentCell.floorType, currentCell.dirtLevel);
      assert movingPowerCost + cleaningPowerCost == ServeCost(world, cellPair.prev, cellPair.cur, DirtAt(Abs(), cellPair.cur));
      batteryService.ConsumePower(movingPowerCost + cleaningPowerCost);
    }

    /** `cleanDirt` on the robot's cell when it is dirty. */
    method CleanCell()
      requires floorMap.Valid() && dirtService.floorMap == floorMap && world.capacity == dirtService.dirtCapacity
      requires floorMap.DirtIs(dirt) && InBounds(floorMap.Size(), Pos(currentX, currentY))
      modifies this`dirt, dirtService`currentCapacity, dirtService`cleanedDirtCellCount, floorMap.CellSet`dirtLevel
      ensures floorMap.DirtIs(dirt)
      ensures unchanged(this`world, this`visited, this`currentX, this`currentY, floorMap, sensorSimulatorService)
      ensures unchanged(floorMap.cells)
      ensures unchanged(floorMap.CellSet`isVisited, floorMap.CellSet`isObstacle, floorMap.CellSet`floorType,
                        floorMap.CellSet`isChargingStation, floorMap.CellSet`wayToChargingStation,
                        floorMap.CellSet`distanceToStation)
      ensures Abs() == Clean(world, old(Abs()), Pos(currentX, currentY))
    {
      var currentCell := floorMap.cells[currentX, currentY];
      assert currentCell == floorMap.CellAt(Pos(currentX, currentY));
      ghost var bin := dirtService.CurrentBin();
      ghost var level := dirt[Pos(currentX, currentY)];
      if currentCell.dirtLevel > 0 {
        dirtService.CleanDirt(currentX, currentY, dirt);
      }
      dirt := dirt[Pos(currentX, currentY) := LevelAfterClean(world.capacity, bin, level)];
    }

    /**
     * After the robot's cell is served: head for a station when all dirt is
     * cleaned, the bin is full or the battery needs recharging and the cell
     * has a way; otherwise explore on.
     */
    method ContinueSweep()
      requires Ready()
      requires world.capacity == dirtService.dirtCapacity && world.dirtTotal == sensorSimulatorService.numberOfDirtCell
      modifies this`stack, this`stationPath, this`stationIdx, this`lastCleaningX, this`lastCleaningY,
               this`isNavigationCompleted, this`isReturningFromStation, this`visited, dirtService`mode,
               floorMap.CellSet`isVisited
      ensures floorMap.VisitedIs(visited) && FloorKept()
      ensures var s := old(Abs());
        Abs() == if ReturnNeeded(world, s, s.cur) then GoHome(world, s, s.cur) else Advance(world, s)
    {
      var currentCell := floorMap.cells[currentX, currentY];
      assert currentCell == floorMap.CellAt(Pos(currentX, currentY));
      var isCleanAll := sensorSimulatorService.IsCleanAll(dirtService.cleanedDirtCellCount);
      if isCleanAll || dirtService.IsFullDirt() || batteryService.IsRechargeNeeded(currentCell.distanceToStation) {
        ReturnToStation(isCleanAll);
      } else {
        ExploreOn();
      }
    }

    /**
     * A return is needed: stop cleaning where the robot stands and set off
     * along the cell's way, or explore on when the cell has none.
     */
    method ReturnToStation(isCleanAll: bool)
      requires Ready() && (isCleanAll <==> CleanAll(world, Abs()))
      modifies this`stack, this`stationPath, this`stationIdx, this`lastCleaningX, this`lastCleaningY,
               this`isNavigationCompleted, this`isReturningFromStation, this`visited, dirtService`mode,
               floorMap.CellSet`isVisited
      ensures floorMap.VisitedIs(visited) && FloorKept()
      ensures Abs() == GoHome(world, old(Abs()), old(Abs()).cur)
    {
      var currentCell := floorMap.cells[currentX, currentY];
      assert currentCell == floorMap.CellAt(Pos(currentX, currentY));
      StopForStation(isCleanAll);
      if currentCell.wayToChargingStation.Some? {
        SetOff(currentCell.wayToChargingStation.value);
      } else {
        ExploreOn();
      }
    }

    /** Remembers the robot's cell, clears the stack when everything is clean, and stops cleaning. */
    method StopForStation(isCleanAll: bool)
      requires Ready() && (isCleanAll <==> CleanAll(world, Abs()))
      modifies this`lastCleaningX, this`lastCleaningY, this`stack, dirtService`mode
      ensures Ready()
      ensures Abs() == StopCleaning(world, old(Abs()), old(Abs()).cur)
    {
      lastCleaningX, lastCleaningY := currentX, currentY;
      if isCleanAll {
        stack := [];
      }
      dirtService.StopCleaningMode();
    }

    /** Remembers the robot's cell as the last cleaning position and stops cleaning. */
    method HaltHere()
      modifies this`lastCleaningX, this`lastCleaningY, dirtService`mode
      ensures Abs() == Halt(old(Abs()))
    {
      lastCleaningX, lastCleaningY := currentX, currentY;
      dirtService.StopCleaningMode();
    }

    /** Takes the reversed way as the trip to a station. */
    method SetOff(way: seq<Pos>)
      modifies this`stationPath, this`stationIdx, this`isReturningFromStation
      ensures Abs() == HeadFor(world, old(Abs()), way)
    {
      stationPath := Some(Reverse(way));
      stationIdx := 0;
      isReturningFromStation := false;
    }

    /** `Explore`, with what it leaves alone spelled out for the callers. */
    method ExploreOn()
      requires Ready()
      modifies this`stack, this`stationPath, this`stationIdx, this`lastCleaningX, this`lastCleaningY,
               this`isNavigationCompleted, this`isReturningFromStation, this`visited, dirtService`mode,
               floorMap.CellSet`isVisited
      ensures floorMap.VisitedIs(visited) && FloorKept()
      ensures Abs() == Advance(world, old(Abs()))
    {
      Explore();
    }

    /**
     * Pushes the first free neighbour and marks it visited, or pops the
     * robot's frame; popping an empty stack throws and ends the step.
     */
    method Explore()
      requires Ready()
      modifies this`stack, this`stationPath, this`stationIdx, this`lastCleaningX, this`lastCleaningY,
               this`isNavigationCompleted, this`isReturningFromStation, this`visited, dirtService`mode,
               floorMap.CellSet`isVisited
      ensures floorMap.VisitedIs(visited)
      ensures Abs() == Advance(world, old(Abs()))
    {
      var nextCell := GetNeighborCell();
      if nextCell.Some? {
        PushNeighbour(nextCell.value);
      } else {
        if stack == [] {
          // popping the empty stack throws
          return;
        }
        PopFrame();
      }
      FinishSweep();
    }

    /** The robot's cell lies on the grid, and the world shows its station flag, its way and its distance. */
    ghost predicate CellShown()
      reads this`world, this`currentX, this`currentY, floorMap, floorMap.cells, floorMap.CellSet`isChargingStation,
            floorMap.CellSet`wayToChargingStation, floorMap.CellSet`distanceToStation
    {
      && floorMap.Valid() && InBounds(floorMap.Size(), Pos(currentX, currentY))
      && (Pos(currentX, currentY) in world.stations <==> floorMap.CellAt(Pos(currentX, currentY)).isChargingStation)
      && WayAt(world, Pos(currentX, currentY)) == floorMap.CellAt(Pos(currentX, currentY)).wayToChargingStation
      && DistanceAt(world, Pos(currentX, currentY)) == floorMap.CellAt(Pos(currentX, currentY)).distanceToStation
    }

    /** What the sweep reads from the robot's cell on agrees with the world and the visited mirror. */
    ghost predicate Ready()
      reads this`world, this`visited, this`currentX, this`currentY, floorMap, floorMap.cells,
            floorMap.CellSet`isVisited, floorMap.CellSet`isObstacle, floorMap.CellSet`isChargingStation,
            floorMap.CellSet`wayToChargingStation, floorMap.CellSet`distanceToStation
    {
      && MapReady() && floorMap.VisitedIs(visited)
      && world.terrain.n == floorMap.Size() && world.terrain.blocked == floorMap.Obstacles()
      && CellShown()
    }

    /** Pushes the frame for the free neighbour q and marks q visited. */
    method PushNeighbour(q: Pos)
      requires floorMap.Valid() && floorMap.VisitedIs(visited) && InBounds(floorMap.Size(), q) && CellShown()
      modifies this`stack, this`visited, floorMap.CellSet`isVisited
      ensures floorMap.VisitedIs(visited) && CellShown()
      ensures Abs() == Push(old(Abs()), q)
    {
      stack := stack + [Entry(Some(Pos(currentX, currentY)), q)];
      floorMap.SetVisited(q, visited);
      visited := visited + {q};
    }

    /** Pops the robot's frame. */
    method PopFrame()
      requires stack != []
      modifies this`stack
      ensures Abs() == old(Abs()).(stack := Pop(old(Abs()).stack))
    {
      stack := stack[..|stack| - 1];
    }

    /**
     * With the stack empty: away from a station, stop cleaning and head for
     * one along the cell's way; at a station, the navigation is complete.
     */
    method FinishSweep()
      requires CellShown() && floorMap.VisitedIs(visited)
      ensures floorMap.VisitedIs(visited)
      modifies this`stationPath, this`stationIdx, this`lastCleaningX, this`lastCleaningY,
               this`isNavigationCompleted, this`isReturningFromStation, dirtService`mode
      ensures Abs() == Finish(world, old(Abs()))
    {
      if stack == [] {
        if !IsAtAnyChargingStation() {
          HaltHere();
          var currentCell := floorMap.cells[currentX, currentY];
          assert currentCell == floorMap.CellAt(Pos(currentX, currentY));
          if currentCell.wayToChargingStation.Some? {
            SetOff(currentCell.wayToChargingStation.value);
          }
        } else {
          isNavigationCompleted := true;
        }
      }
    }

    /**
     * `findPathWithLowestPower`: Dijkstra's search from the start over the
     * open cells, weighted by the moving power cost.  When the target is
     * settled its path is rebuilt from the parent links; when the queue runs
     * dry there is no path and the distance is 0.  The answer is never the
     * `null` the rebuilding can return, and the path found is a cheapest one.
     * The search reads the grid through the terrain it shows, which nothing
     * changes while it runs.
     */
    method FindPathWithLowestPower(startX: int, startY: int, targetX: int, targetY: int) returns (r: Option<Found>)
      requires MapReady()
      requires InBounds(floorMap.Size(), Pos(startX, startY)) && InBounds(floorMap.Size(), Pos(targetX, targetY))
      ensures r.Some?
      ensures var t, s, e := TerrainOf(floorMap), Pos(startX, startY), Pos(targetX, targetY);
        match r.value.path
        case Some(path) =>
          PathFromTo(t, path, s, e) && r.value.distance == PathCost(t, path)
          && forall q :: PathFromTo(t, q, s, e) ==> r.value.distance <= PathCost(t, q)
        case None => r.value.distance == 0 && !Reachable(t, s, e)
    {
      var t := TerrainOf(floorMap);
      r := LowestPowerPath(t, Pos(startX, startY), Pos(targetX, targetY));
    }

    /**
     * `initializeAllPaths`: every cell of the grid, row by row, gets the
     * cheapest way from the charging stations and its cost; a cell no
     * station reaches keeps what it had.
     */
    method InitializeAllPaths()
      requires MapReady()
      modifies floorMap.CellSet`wayToChargingStation, floorMap.CellSet`distanceToStation
      ensures MapReady()
      ensures unchanged(floorMap.CellSet`isVisited, floorMap.CellSet`dirtLevel, floorMap.CellSet`isObstacle,
                        floorMap.CellSet`floorType, floorMap.CellSet`isChargingStation)
      ensures forall p :: InBounds(floorMap.Size(), p) ==>
        WayRecorded(old(TerrainOf(floorMap)), old(FindAllChargingStations()), p,
                    old(floorMap.Ways())[p], old(floorMap.Distances())[p],
                    floorMap.CellAt(p).wayToChargingStation, floorMap.CellAt(p).distanceToStation)
    {
      var t := TerrainOf(floorMap);
      var chargingStations := FindAllChargingStations();
      RecordWays(t, chargingStations);
    }

    /** The loops of `initializeAllPaths` over the rows of the grid. */
    method RecordWays(t: Terrain, chargingStations: seq<Pos>)
      requires floorMap.Valid() && t.n == floorMap.Size()
      requires forall k :: 0 <= k < |chargingStations| ==> InBounds(t.n, chargingStations[k])
      modifies floorMap.CellSet`wayToChargingStation, floorMap.CellSet`distanceToStation
      ensures floorMap.Valid()
      ensures forall p :: InBounds(floorMap.Size(), p) ==>
        WayRecorded(t, chargingStations, p, old(floorMap.Ways())[p], old(floorMap.Distances())[p],
                    floorMap.CellAt(p).wayToChargingStation, floorMap.CellAt(p).distanceToStation)
    {
      ghost var oldWays, oldDistances := floorMap.Ways(), floorMap.Distances();
      ghost var ways, distances := oldWays, oldDistances;
      var size := floorMap.cells.Length0;
      ScanStart(t, chargingStations, size, oldWays, oldDistances);
      var i := 0;
      while i < size
        invariant 0 <= i <= size && floorMap.Valid() && floorMap.Records(ways, distances)
        invariant ScannedUpTo(t, chargingStations, size, i, 0, oldWays, oldDistances, ways, distances)
      {
        ways, distances := RecordRow(t, chargingStations, i, oldWays, oldDistances, ways, distances);
        i := i + 1;
      }
      ScanDone(t, chargingStations, size, oldWays, oldDistances, ways, distances);
    }

    /** The inner loop of `initializeAllPaths`: row i, cell by cell. */
    method RecordRow(t: Terrain, chargingStations: seq<Pos>, i: int,
                     ghost oldWays: map<Pos, Option<seq<Pos>>>, ghost oldDistances: map<Pos, int>,
                     ghost ways: map<Pos, Option<seq<Pos>>>, ghost distances: map<Pos, int>)
      returns (ghost ways': map<Pos, Option<seq<Pos>>>, ghost distances': map<Pos, int>)
      requires floorMap.Valid() && t.n == floorMap.Size() && 0 <= i < t.n
      requires forall k :: 0 <= k < |chargingStations| ==> InBounds(t.n, chargingStations[k])
      requires floorMap.Records(ways, distances)
      requires ScannedUpTo(t, chargingStations, t.n, i, 0, oldWays, oldDistances, ways, distances)
      modifies floorMap.CellSet`wayToChargingStation, floorMap.CellSet`distanceToStation
      ensures floorMap.Valid() && floorMap.Records(ways', distances')
      ensures ScannedUpTo(t, chargingStations, t.n, i + 1, 0, oldWays, oldDistances, ways', distances')
    {
      ways', distances' := ways, distances;
      var size := floorMap.cells.Length1;
      assert size == t.n;
      var j := 0;
      while j < size
        invariant 0 <= j <= size && floorMap.Valid() && t.n == floorMap.Size() && floorMap.Records(ways', distances')
        invariant ScannedUpTo(t, chargingStations, t.n, i, j, oldWays, oldDistances, ways', distances')
      {
        ways', distances' := RecordCell(t, chargingStations, i, j, oldWays, oldDistances, ways', distances');
        j := j + 1;
      }
      ScanRow(t, chargingStations, t.n, i, oldWays, oldDistances, ways', distances');
    }

    /** The body of the inner loop: the scan over the stations for one cell, stored when a path was found. */
    method RecordCell(t: Terrain, chargingStations: seq<Pos>, i: int, j: int,
                      ghost oldWays: map<Pos, Option<seq<Pos>>>, ghost oldDistances: map<Pos, int>,
                      ghost ways: map<Pos, Option<seq<Pos>>>, ghost distances: map<Pos, int>)
      returns (ghost ways': map<Pos, Option<seq<Pos>>>, ghost distances': map<Pos, int>)
      requires floorMap.Valid() && t.n == floorMap.Size() && InBounds(t.n, Pos(i, j))
      requires forall k :: 0 <= k < |chargingStations| ==> InBounds(t.n, chargingStations[k])
      requires floorMap.Records(ways, distances)
      requires ScannedUpTo(t, chargingStations, t.n, i, j, oldWays, oldDistances, ways, distances)
      modifies floorMap.CellSet`wayToChargingStation, floorMap.CellSet`distanceToStation
      ensures floorMap.Valid() && floorMap.Records(ways', distances')
      ensures ScannedUpTo(t, chargingStations, t.n, i, j + 1, oldWays, oldDistances, ways', distances')
    {
      var p := Pos(i, j);
      var shortestPath, shortestDistance := ShortestFromStations(t, chargingStations, p);
      ScanCell(t, chargingStations, t.n, p.x, p.y, oldWays, oldDistances, ways, distances, shortestPath, shortestDistance);
      if shortestPath.Some? {
        floorMap.SetWay(p, shortestPath, shortestDistance.value, ways, distances);
      }
      ways' := if shortestPath.Some? then ways[p := shortestPath] else ways;
      distances' := if shortestPath.Some? then distances[p := shortestDistance.value] else distances;
    }
  }
}

# Clean-sweep navigation engine, in Dafny

This project models the navigation core of a simulated cleaning robot on an
N x N floor and proves properties of it. The robot starts at the charging
station in corner (0, 0). It covers the floor with a stack-based depth-first
search, scanning neighbours in the fixed order UP, DOWN, LEFT, RIGHT. On every
cell it pays power for the move and for cleaning, then cleans the dirt. When
all dirt is cleaned, the bin is full or the battery gets low, it walks a
precomputed cheapest way to a corner station. There it empties the bin,
recharges, and walks the same way forward back to where it stopped. The ways
come from Dijkstra's search run from each of the four corners, with
the moving power cost of each move as its weight.

The modules follow the source files:

| module | file | models |
|---|---|---|
| `Direction` | direction.dfy | `Direction`: the four moves, their offsets and their scan order |
| `Cells` | cell.dfy | `Cell`: a class with the cell's fields and `reduceDirtLevel` |
| `Floor` | floor_map.dfy | `FloorMap`: the `array2` of cells and `initializeGrid` |
| `Sensor` | sensor.dfy | `SensorSimulatorService`: surface units, power costs and scenario generation |
| `Battery` | battery.dfy | `BatteryService` |
| `Dirt` | dirt.dfy | `DirtService`: the bin, the cleaned count and the cleaning mode |
| `Navigation` | navigation.dfy | `NavigationService`: a class whose methods update its fields and the cells in place |
| `Paths`, `Planner` | paths.dfy, planner.dfy | walks, their cost, and `findPathWithLowestPower` / `reconstructPath` as loops over maps and a queue |
| `Ways` | ways.dfy | what `initializeAllPaths` records in each cell |
| `Traversal` | traversal.dfy | one navigation step as a function on values, `StepNav`, and the run invariant `Inv` |
| `TraversalFacts`, `Runs`, `StepFacts` | traversal_facts.dfy, runs.dfy, step_facts.dfy | the properties of single steps and of whole runs |

Each method of `NavigationService` is proved to do, on the heap, the matching
transition of `Traversal`. For example, `StepNavigation` ensures
`Abs() == StepNav(world, old(Abs()))`, where `Abs()` reads the service, the
battery, the bin and the cells as a `Robot` value. The properties of those
transitions are proved as lemmas on values. Among them: the invariant holds
from `startNavigation` on, the stack is a walk from the origin, every cell is
pushed at most once, and trips to a station are cheapest ways.

Every cost, distance and battery level is an integer number of HALF power
units. A surface unit is 1, 2 or 3. A move costs the average of two units
rounded to one decimal, which is always a multiple of 0.5, so it is `u1 + u2`
half units. Cleaning costs `2 * u`, and the recharge margin of 7 units is 14.
`Sensor.Halves` reads such a number back in power units. `Sensor.RoundToTenthOfHalves`
proves that the rounding never changes a multiple of 0.5.

## Model

All source paths are relative to the repository root. Cited lines are those
the member models.

| member | source | states |
|---|---|---|
| Direction.Ordinal | src/main/java/com/cleanSweep/backend/common/Direction.java:8-12 | each move has exactly one position in the scan order UP, DOWN, LEFT, RIGHT |
| Direction.Move | src/main/java/com/cleanSweep/backend/common/Direction.java:9-23 | applying a move's offsets gives a cell that shares an edge with the start |
| Direction.UnitStep | src/main/java/com/cleanSweep/backend/common/Direction.java:9-12 | every offset pair moves exactly one step: abs(dx) + abs(dy) = 1 |
| Direction.Opposite | src/main/java/com/cleanSweep/backend/common/Direction.java:9-12 | UP/DOWN and LEFT/RIGHT have negated offsets and are distinct |
| Direction.MovesAreAdjacency | src/main/java/com/cleanSweep/backend/common/Direction.java:9-23 | the neighbours the four moves reach are exactly the 4-adjacent cells, and adjacency is symmetric |
| Direction.MoveBack | src/main/java/com/cleanSweep/backend/common/Direction.java:9-12 | the opposite move undoes a move, and taking the opposite twice gives the move back |
| Cells.Reduced | src/main/java/com/cleanSweep/backend/domain/Cell.java:25-29 | a positive dirt level becomes 0; a non-positive level is unchanged |
| Cells.ReducedIdempotent | src/main/java/com/cleanSweep/backend/domain/Cell.java:25-29 | cleaning a cell twice is the same as cleaning it once |
| Cells.Cell.constructor | src/main/java/com/cleanSweep/backend/domain/Cell.java:10-23 | the all-arguments constructor sets every field to its argument |
| Cells.Cell.ReduceDirtLevel | src/main/java/com/cleanSweep/backend/domain/Cell.java:25-29 | the dirt level becomes `Reduced` of the old one, and no other field of the cell may change |
| Floor.Positions | src/main/java/com/cleanSweep/backend/domain/FloorMap.java:24-25 | the coordinates the grid loops visit are exactly the in-bounds positions |
| Floor.PositionsCount | src/main/java/com/cleanSweep/backend/domain/FloorMap.java:22-28 | an n x n grid has exactly n * n positions |
| Floor.FloorMap.constructor | src/main/java/com/cleanSweep/backend/domain/FloorMap.java:14-16 | before `initializeGrid` the floor map holds an empty grid |
| Floor.FloorMap.InitializeGrid | src/main/java/com/cleanSweep/backend/domain/FloorMap.java:22-28 | a fresh size x size grid in which every entry is populated, cell (i, j) has coordinates (i, j), and every cell starts as clean, unvisited bare floor with all flags false, no way and distance 0 |
| Floor.FloorMap.CellAt | src/main/java/com/cleanSweep/backend/domain/FloorMap.java:26 | the cell stored at (x, y) carries the coordinates (x, y) |
| Floor.FloorMap.CellsDistinct | src/main/java/com/cleanSweep/backend/domain/FloorMap.java:26 | distinct coordinates hold distinct cell objects, so updating one cell never changes another |
| Floor.FloorMap.SetVisited | src/main/java/com/cleanSweep/backend/application/NavigationService.java:263 | marking a cell visited adds exactly that cell to the visited cells |
| Floor.FloorMap.SetWay | src/main/java/com/cleanSweep/backend/application/NavigationService.java:351-354 | storing a way and distance in one cell changes the recorded ways and distances at that cell only |
| Sensor.RoundToTenthOfHalves | src/main/java/com/cleanSweep/backend/application/SensorSimulatorService.java:145-146 | rounding to one decimal leaves any multiple of 0.5 unchanged, so the half-unit encoding of the moving cost is exact |
| Sensor.SurfaceUnit | src/main/java/com/cleanSweep/backend/application/SensorSimulatorService.java:161-173 | a floor type costs 1, 2 or 3 units |
| Sensor.MovingPowerCost | src/main/java/com/cleanSweep/backend/application/SensorSimulatorService.java:139-147 | with no previous cell a move is free; otherwise, read in power units, it is the average of the two surface units rounded to one decimal |
| Sensor.MovingPowerCostSymmetricAndBetween | src/main/java/com/cleanSweep/backend/application/SensorSimulatorService.java:143-146 | a move costs the same in both directions and lies between the two cells' units |
| Sensor.CleaningPowerCost | src/main/java/com/cleanSweep/backend/application/SensorSimulatorService.java:153-159 | cleaning costs the surface unit on a dirty cell and nothing on a clean one |
| Sensor.GenerationFacts | src/main/java/com/cleanSweep/backend/application/SensorSimulatorService.java:40-106 | whatever the random draws: exactly the corners are stations, no corner is an obstacle, obstacles and stations get no dirt, and dirt is 0 or 1 |
| Sensor.SensorSimulatorService.constructor | src/main/java/com/cleanSweep/backend/application/SensorSimulatorService.java:16-30 | the service holds the floor map and the grid size, with no dirty cells counted |
| Sensor.SensorSimulatorService.GenerateObstacles | src/main/java/com/cleanSweep/backend/application/SensorSimulatorService.java:76-89 | a fresh width x height grid in which a cell is an obstacle exactly when it is not one of the four skipped corners and its draw of `nextInt(7)` is 0 |
| Sensor.SensorSimulatorService.GenerateChargingStations | src/main/java/com/cleanSweep/backend/application/SensorSimulatorService.java:97-106 | a fresh grid flagging exactly the four corners |
| Sensor.SensorSimulatorService.InitializeObstacleAndDirt | src/main/java/com/cleanSweep/backend/application/SensorSimulatorService.java:33-68 | a fresh, valid gridSize x gridSize floor in which every cell carries what `Generate` gives it for the draws, and `numberOfDirtCell` is the number of dirty cells on the floor |
| Sensor.SensorSimulatorService.PopulateGrid | src/main/java/com/cleanSweep/backend/application/SensorSimulatorService.java:40-67 | after the row loop every cell carries its generated attributes and the counter equals the number of dirty cells |
| Sensor.SensorSimulatorService.InitializeRow | src/main/java/com/cleanSweep/backend/application/SensorSimulatorService.java:41-66 | after row x every cell up to that row is generated, the rest are still defaults, and the counter counts the dirty cells generated so far |
| Sensor.SensorSimulatorService.InitializeCell | src/main/java/com/cleanSweep/backend/application/SensorSimulatorService.java:42-65 | one more cell, in row-major order, gets its obstacle flag, else its station flag, else its floor type and dirt; the counter rises by exactly its dirt |
| Sensor.SensorSimulatorService.IsObstacle | src/main/java/com/cleanSweep/backend/application/SensorSimulatorService.java:114-116 | true exactly for the obstacle cells of the floor |
| Sensor.SensorSimulatorService.IsChargingStation | src/main/java/com/cleanSweep/backend/application/SensorSimulatorService.java:185-187 | true exactly for the station cells of the floor |
| Sensor.SensorSimulatorService.IsCleanAll | src/main/java/com/cleanSweep/backend/application/SensorSimulatorService.java:178-180 | true exactly when the cleaned count equals the number of dirty cells generated |
| Sensor.SensorSimulatorService.CleanDirt | src/main/java/com/cleanSweep/backend/application/SensorSimulatorService.java:119-127 | a dirty cell ends at dirt level 0; a clean one is unchanged; no other cell or field changes |
| Battery.ConsumedStaysCharged | src/main/java/com/cleanSweep/backend/application/BatteryService.java:35-43 | with a non-negative demand and a charge in (0, full], the charge stays in (0, full]: it drops by exactly the demand or is refilled, and a zero demand leaves it unchanged |
| Battery.BatteryService.constructor | src/main/java/com/cleanSweep/backend/application/BatteryService.java:11-24 | the configured threshold and full charge, and a charge of 0 before `init` |
| Battery.BatteryService.Init | src/main/java/com/cleanSweep/backend/application/BatteryService.java:27-29 | the charge equals the full charge, so it is charged when the full charge is positive |
| Battery.BatteryService.ConsumePower | src/main/java/com/cleanSweep/backend/application/BatteryService.java:35-43 | the charge drops by the demand when it exceeds it, else it is reset to full; a charged battery stays charged |
| Battery.BatteryService.IsRechargeNeeded | src/main/java/com/cleanSweep/backend/application/BatteryService.java:49-51 | true exactly when the charge is at most the cost to the station plus 7 units |
| Battery.BatteryService.IsBatteryDepleted | src/main/java/com/cleanSweep/backend/application/BatteryService.java:56-58 | true exactly when the charge is at most 0, so never while the battery is charged |
| Battery.BatteryService.HasSufficientPower | src/main/java/com/cleanSweep/backend/application/BatteryService.java:63-65 | true exactly when the charge exceeds the low threshold |
| Battery.BatteryService.Recharge | src/main/java/com/cleanSweep/backend/application/BatteryService.java:70-73 | the charge is the full charge whatever it was, so recharging twice is recharging once |
| Dirt.AfterCleanFacts | src/main/java/com/cleanSweep/backend/application/DirtService.java:39-54 | cleaning keeps the fill within [0, capacity]; the cleaned count rises by one exactly when the cell was dirty and the bin had room, and the fill rises with it; a cleaned cell ends clean; otherwise nothing changes |
| Dirt.DirtService.constructor | src/main/java/com/cleanSweep/backend/application/DirtService.java:28-34 | an empty bin, no cells cleaned, cleaning mode on |
| Dirt.DirtService.CleanDirt | src/main/java/com/cleanSweep/backend/application/DirtService.java:39-54 | the bin and the cell's dirt change as `AfterClean` says and no other cell changes; a bin within capacity stays within it |
| Dirt.DirtService.RemoveDirt | src/main/java/com/cleanSweep/backend/application/DirtService.java:59-61 | the fill is 0; the cleaned count and the mode may not change |
| Dirt.DirtService.SetCleaningMode | src/main/java/com/cleanSweep/backend/application/DirtService.java:66-68 | cleaning is active afterwards |
| Dirt.DirtService.StopCleaningMode | src/main/java/com/cleanSweep/backend/application/DirtService.java:73-75 | cleaning is not active afterwards |
| Dirt.DirtService.IsCleaningActive | src/main/java/com/cleanSweep/backend/application/DirtService.java:80-82 | true exactly in cleaning mode |
| Dirt.DirtService.IsFullDirt | src/main/java/com/cleanSweep/backend/application/DirtService.java:87-89 | true exactly when the fill has reached the capacity; within bounds, exactly when it equals it |
| Paths.StepCostSymmetric | src/main/java/com/cleanSweep/backend/application/NavigationService.java:423 | the search's edge weight is the same both ways and at least one power unit |
| Paths.Reverse | src/main/java/com/cleanSweep/backend/application/NavigationService.java:250-251 | the reversed list has the same length, with element i taken from the other end |
| Paths.ReverseReverse | src/main/java/com/cleanSweep/backend/application/NavigationService.java:250-251 | reversing twice gives back the way, so the trip back is the trip there in opposite order |
| Paths.PathCostReverse | src/main/java/com/cleanSweep/backend/application/NavigationService.java:250-251 | a walk costs the same in either direction, so a trip to a station and the trip back cost the same |
| Paths.TerrainOf | src/main/java/com/cleanSweep/backend/application/NavigationService.java:420-423 | the planner's grid has the floor map's size, a cell is open exactly when it is not an obstacle, and it has the cell's floor type |
| Planner.MinIndex | src/main/java/com/cleanSweep/backend/application/NavigationService.java:396-402 | a least entry of a non-empty queue exists: the witness that the poll, a choice of any least entry, can be made |
| Planner.RemoveAt | src/main/java/com/cleanSweep/backend/application/NavigationService.java:402 | polling removes exactly one copy of the polled entry: the queue's multiset loses that one element and keeps every other, with multiplicity |
| Planner.PollSettles | src/main/java/com/cleanSweep/backend/application/NavigationService.java:401-409 | the unsettled cell with the least queue entry has its final distance: no walk from the start to it is cheaper |
| Planner.PollStale | src/main/java/com/cleanSweep/backend/application/NavigationService.java:407-408 | skipping an entry whose cell is already settled keeps the search invariant |
| Planner.PollNew | src/main/java/com/cleanSweep/backend/application/NavigationService.java:402-409 | settling the polled cell keeps the invariant, with its four moves still to relax |
| Planner.RelaxImproves | src/main/java/com/cleanSweep/backend/application/NavigationService.java:416-428 | a strictly cheaper distance for an open, unsettled neighbour is recorded with its parent and queued, and the move counts as relaxed |
| Planner.RelaxSkip | src/main/java/com/cleanSweep/backend/application/NavigationService.java:420-424 | a move to a closed or settled cell, or one that is not cheaper, changes nothing and counts as relaxed |
| Planner.RelaxDone | src/main/java/com/cleanSweep/backend/application/NavigationService.java:416-431 | after all four moves the search invariant holds again |
| Planner.TargetSettled | src/main/java/com/cleanSweep/backend/application/NavigationService.java:411-413 | once the target is settled its distance is final and every cell with a distance hangs from parent links rooted at the start |
| Planner.ExhaustedUnreachable | src/main/java/com/cleanSweep/backend/application/NavigationService.java:401-433 | when the queue runs dry, a target never settled cannot be reached from the start |
| Planner.LowestPowerPath | src/main/java/com/cleanSweep/backend/application/NavigationService.java:380-434 | the search always answers; a path found is a walk of open, adjacent cells from start to target whose distance is its cost and no more than that of any such walk; no path, with distance 0, exactly when the target is unreachable |
| Planner.ReconstructPath | src/main/java/com/cleanSweep/backend/application/NavigationService.java:439-462 | a path returned runs from start to target and costs the target's distance; whenever every cell with a distance but the start has a parent, a path is returned |
| Ways.ShortestFromStations | src/main/java/com/cleanSweep/backend/application/NavigationService.java:335-349 | scanning the stations in order with strict `<` keeps, of the cheapest walks from any station, the one from the first station that has it; none when no station reaches the cell |
| Ways.ScanStep | src/main/java/com/cleanSweep/backend/application/NavigationService.java:339-349 | one more station scanned: its path replaces the best so far exactly when it exists and is strictly cheaper |
| Ways.ScanCell | src/main/java/com/cleanSweep/backend/application/NavigationService.java:351-354 | storing the scan's result only when a path was found records the cell and moves the row-major scan on by one |
| Ways.ScanDone | src/main/java/com/cleanSweep/backend/application/NavigationService.java:333-356 | after every row each cell holds its first cheapest way, or its old way and distance when no station reaches it |
| Ways.CheapestAvoidsStations | src/main/java/com/cleanSweep/backend/application/NavigationService.java:339-349 | a first cheapest way meets no station after its first cell |
| Ways.RecordedOnGrid | src/main/java/com/cleanSweep/backend/application/NavigationService.java:351-354 | a recorded way runs over the grid when the way it replaces did |
| Ways.WaysReadyAfterInit | src/main/java/com/cleanSweep/backend/application/NavigationService.java:329-357 | over cells that held no ways: a cell has a way exactly when a station reaches it, each way starts at a station, ends at the cell and costs the recorded distance, and none is beaten by a walk from any station |
| Ways.StartWf | src/main/java/com/cleanSweep/backend/application/NavigationService.java:87-102 | after the ways are recorded and the origin pushed, every position the service indexes the grid with is on the grid |
| Traversal.FirstFree | src/main/java/com/cleanSweep/backend/application/NavigationService.java:290-302 | the answer is a neighbour in bounds, not visited and not an obstacle, and no earlier direction in scan order gives one; None exactly when no direction does |
| TraversalFacts.DirtyAfterClean | src/main/java/com/cleanSweep/backend/application/NavigationService.java:233-235 | cleaning a dirty cell removes exactly that cell from the dirty cells |
| TraversalFacts.ServeKeeps | src/main/java/com/cleanSweep/backend/application/NavigationService.java:229-235 | paying for and cleaning the top cell keeps the invariant, and the robot stands on it |
| TraversalFacts.GoHomeKeeps | src/main/java/com/cleanSweep/backend/application/NavigationService.java:240-256 | heading home from the top cell keeps the invariant |
| TraversalFacts.PushKeeps | src/main/java/com/cleanSweep/backend/application/NavigationService.java:260-263 | pushing the first free neighbour keeps the invariant |
| TraversalFacts.PushStack | src/main/java/com/cleanSweep/backend/application/NavigationService.java:260-263 | the pushed entry's previous cell is the old top's cell, adjacent to the new one, which is open, visited and has a way home |
| TraversalFacts.PopCovers | src/main/java/com/cleanSweep/backend/application/NavigationService.java:264-265 | a popped cell has no free neighbour left, so every visited cell off the stack stays fully explored |
| TraversalFacts.PopStack | src/main/java/com/cleanSweep/backend/application/NavigationService.java:264-265 | popping above the bottom entry leaves the robot on or next to the new top |
| TraversalFacts.PopToEmptyHome | src/main/java/com/cleanSweep/backend/application/NavigationService.java:265-283 | popping the bottom entry leaves the robot at the start cell, a station, so the navigation completes and the invariant holds |
| TraversalFacts.PopKeeps | src/main/java/com/cleanSweep/backend/application/NavigationService.java:264-283 | popping a fully explored top and running the empty-stack rule keeps the invariant |
| TraversalFacts.CleaningKeeps | src/main/java/com/cleanSweep/backend/application/NavigationService.java:212-284 | a sweep step keeps the invariant |
| TraversalFacts.TripStationAtEnd | src/main/java/com/cleanSweep/backend/application/NavigationService.java:169-192 | on the way to a station the only station on the trip is its last cell, the first cell of the stopping cell's way |
| TraversalFacts.ArriveSupplies | src/main/java/com/cleanSweep/backend/application/NavigationService.java:169-184 | arriving at a station leaves the robot on the grid, charged, with the bin within capacity and a consistent mode |
| TraversalFacts.ArriveTrip | src/main/java/com/cleanSweep/backend/application/NavigationService.java:169-184 | arriving either completes the navigation or sets the trip back to where cleaning stopped, keeping the stack and coverage invariants |
| TraversalFacts.ArriveKeeps | src/main/java/com/cleanSweep/backend/application/NavigationService.java:149-184 | arriving at a station keeps the invariant |
| TraversalFacts.WalkBackKeeps | src/main/java/com/cleanSweep/backend/application/NavigationService.java:185-189 | reaching the cell where cleaning stopped ends the trip and the sweep resumes there with the invariant |
| TraversalFacts.WalkOnTrip | src/main/java/com/cleanSweep/backend/application/NavigationService.java:190-192 | any other trip cell is followed by another, and moving the index on keeps the trip consistent |
| TraversalFacts.WalkKeeps | src/main/java/com/cleanSweep/backend/application/NavigationService.java:143-192 | every step along a trip that is not an arrival keeps the invariant |
| TraversalFacts.StepKeeps | src/main/java/com/cleanSweep/backend/application/NavigationService.java:199-205 | one `stepNavigation` keeps the invariant |
| TraversalFacts.StartKeeps | src/main/java/com/cleanSweep/backend/application/NavigationService.java:87-102 | `startNavigation` on a fresh robot with the ways ready establishes the invariant |
| TraversalFacts.StationStepSplit | src/main/java/com/cleanSweep/backend/application/NavigationService.java:149-192 | a step along a trip is the move onto its current cell followed by what that cell asks for |
| TraversalFacts.StepNavWf | src/main/java/com/cleanSweep/backend/application/NavigationService.java:199-205 | a step keeps every position the service indexes `cells` with on the grid |
| Runs.RunKeeps | src/main/java/com/cleanSweep/backend/application/NavigationService.java:199-205 | the invariant holds after any number of steps |
| Runs.StartedFresh | src/main/java/com/cleanSweep/backend/application/NavigationService.java:87-102 | `startNavigation` on a fresh service whose cells held no ways establishes the invariant |
| Runs.RunFromStart | src/main/java/com/cleanSweep/backend/application/NavigationService.java:87-205 | from a fresh start, the invariant holds after any number of steps |
| Runs.MarkedOnce | src/main/java/com/cleanSweep/backend/application/NavigationService.java:260-263 | visited marks are never cleared, and a cell marked in a step was unmarked at every earlier step, so each cell is pushed at most once |
| Runs.MarksOnGrid | src/main/java/com/cleanSweep/backend/application/NavigationService.java:260-263 | the visited cells stay on the grid, so at most N * N cells are ever pushed |
| Runs.InvSafe | src/main/java/com/cleanSweep/backend/application/NavigationService.java:240-283 | under the invariant a step never reaches the empty-stack `pop` nor the copy of a missing way, the robot is never stalled, and the top cell of a sweep has a way home |
| Runs.StalledStays | src/main/java/com/cleanSweep/backend/application/NavigationService.java:199-205 | a stalled robot (not completed, no trip, and not cleaning or with an empty stack) stays as it is for any number of steps |
| Runs.SafeFromStart | src/main/java/com/cleanSweep/backend/application/NavigationService.java:87-205 | from a fresh start no step of any run throws either exception and the robot never stalls |
| Runs.CompletedCovers | src/main/java/com/cleanSweep/backend/application/NavigationService.java:258-283 | when the navigation completes with dirt left, every cell that a walk from the origin reaches has been visited |
| Runs.CleanedGrows | src/main/java/com/cleanSweep/backend/application/NavigationService.java:229-235 | along a run the count of cleaned cells never falls, and it rises by at most one per step |
| StepFacts.StepCleaned | src/main/java/com/cleanSweep/backend/application/NavigationService.java:229-235 | a step never lowers the cleaned count and raises it by at most one |
| Runs.CompletedIsFinal | src/main/java/com/cleanSweep/backend/application/NavigationService.java:199-214 | once the navigation is completed, no number of further steps changes anything |
| StepFacts.StepMarks | src/main/java/com/cleanSweep/backend/application/NavigationService.java:260-266 | a step marks at most one cell, never unmarks one, and the newly marked cell is the open, unvisited cell just pushed |
| StepFacts.AdvanceMarks | src/main/java/com/cleanSweep/backend/application/NavigationService.java:260-283 | the push-or-pop part of a step marks at most the cell it pushes |
| StepFacts.ObstacleOnlyPops | src/main/java/com/cleanSweep/backend/application/NavigationService.java:223-227 | with an obstacle on top the step only pops it: no power is paid, nothing is cleaned, pushed or marked |
| StepFacts.ReturnStops | src/main/java/com/cleanSweep/backend/application/NavigationService.java:240-255 | a return at a cell with a way remembers the cell, stops cleaning, clears the stack exactly when all dirt is cleaned, takes the reversed way from index 0 not returning, and expands no neighbour |
| StepFacts.WaylessReturnStalls | src/main/java/com/cleanSweep/backend/application/NavigationService.java:240-256 | a return at a cell without a way stops cleaning but sets no trip; unless the stack empties, every later step does nothing |
| StepFacts.ArriveFacts | src/main/java/com/cleanSweep/backend/application/NavigationService.java:149-184 | arriving at a station on the way there empties the bin and recharges; with an empty stack the navigation completes and the trip is dropped, else cleaning resumes along the stopping cell's way forwards, from index 0, returning |
| StepFacts.TripIndexStep | src/main/java/com/cleanSweep/backend/application/NavigationService.java:185-192 | along a trip the index restarts at 0, stays, or moves on by one, never past the last cell |
| StepFacts.CompletedStays | src/main/java/com/cleanSweep/backend/application/NavigationService.java:199-214 | a completed navigation's step changes nothing |
| Navigation.NavigationService.constructor | src/main/java/com/cleanSweep/backend/application/NavigationService.java:52-80 | an empty stack and station list, at (0, 0), navigation not completed, not returning |
| Navigation.NavigationService.IsValidMove | src/main/java/com/cleanSweep/backend/application/NavigationService.java:307-309 | true exactly for coordinates on the grid |
| Navigation.NavigationService.IsAtAnyChargingStation | src/main/java/com/cleanSweep/backend/application/NavigationService.java:467-469 | true exactly when the robot's cell is a station |
| Navigation.NavigationService.GetCurrentPosition | src/main/java/com/cleanSweep/backend/application/NavigationService.java:314-316 | the robot's coordinates |
| Navigation.NavigationService.IsNavigationCompleted | src/main/java/com/cleanSweep/backend/application/NavigationService.java:321-323 | true exactly when the robot's state says completed |
| Navigation.NavigationService.FindAllChargingStations | src/main/java/com/cleanSweep/backend/application/NavigationService.java:362-373 | four stations, (0, 0) first, exactly the grid's corners |
| Navigation.NavigationService.GetNeighborCell | src/main/java/com/cleanSweep/backend/application/NavigationService.java:290-302 | the first free neighbour in scan order, as `FirstFree` states it, or None |
| Navigation.NavigationService.StartNavigation | src/main/java/com/cleanSweep/backend/application/NavigationService.java:87-102 | nothing changes when completed or the stack is non-empty; otherwise the ways are recorded, then the origin is pushed with no previous cell, marked visited and stood on, whatever the arguments |
| Navigation.NavigationService.PrepareWays | src/main/java/com/cleanSweep/backend/application/NavigationService.java:93 | the robot's state is unchanged and the world differs only in the ways and distances `initializeAllPaths` records |
| Navigation.NavigationService.PushOrigin | src/main/java/com/cleanSweep/backend/application/NavigationService.java:95-100 | the origin's entry is pushed, the origin marked visited and stood on |
| Navigation.NavigationService.StepNavigation | src/main/java/com/cleanSweep/backend/application/NavigationService.java:199-205 | the service performs `StepNav` and stays valid |
| Navigation.NavigationService.StationNavigation | src/main/java/com/cleanSweep/backend/application/NavigationService.java:143-193 | the service performs `StationStep` and stays valid |
| Navigation.NavigationService.DropTrip | src/main/java/com/cleanSweep/backend/application/NavigationService.java:144-148 | the trip becomes null with index 0 and nothing else changes |
| Navigation.NavigationService.FollowTrip | src/main/java/com/cleanSweep/backend/application/NavigationService.java:149-192 | the move onto the trip's current cell, then what that cell asks for |
| Navigation.NavigationService.MoveOnTrip | src/main/java/com/cleanSweep/backend/application/NavigationService.java:149-163 | the robot stands on the trip's current cell, paying the moving cost unless it is the cell where cleaning stopped |
| Navigation.NavigationService.TripStepAtCell | src/main/java/com/cleanSweep/backend/application/NavigationService.java:168-192 | arrival, end of the trip back, or the index moved on, as `TripStep` states |
| Navigation.NavigationService.ArriveAtStation | src/main/java/com/cleanSweep/backend/application/NavigationService.java:169-184 | the service performs `Arrive` |
| Navigation.NavigationService.CleaningNavigation | src/main/java/com/cleanSweep/backend/application/NavigationService.java:212-284 | the service performs `CleaningStep` and stays valid |
| Navigation.NavigationService.DropObstacle | src/main/java/com/cleanSweep/backend/application/NavigationService.java:223-226 | the top entry is popped and nothing else changes |
| Navigation.NavigationService.Visit | src/main/java/com/cleanSweep/backend/application/NavigationService.java:229-283 | on a free top cell the service performs `CellStep` |
| Navigation.NavigationService.MoveTo | src/main/java/com/cleanSweep/backend/application/NavigationService.java:220-221 | the robot stands on the given cell and nothing else changes |
| Navigation.NavigationService.ServeCell | src/main/java/com/cleanSweep/backend/application/NavigationService.java:229-235 | the service pays for the cell and cleans it, as `Serve` states |
| Navigation.NavigationService.PayForCell | src/main/java/com/cleanSweep/backend/application/NavigationService.java:229-231 | the battery pays the moving plus the cleaning cost, and no cell changes |
| Navigation.NavigationService.CleanCell | src/main/java/com/cleanSweep/backend/application/NavigationService.java:233-235 | the robot's cell is cleaned as `Clean` states, and no other field or flag changes |
| Navigation.NavigationService.ContinueSweep | src/main/java/com/cleanSweep/backend/application/NavigationService.java:237-283 | heads home when a return is needed, else explores on, leaving the floor but the visited flags as it was |
| Navigation.NavigationService.ReturnToStation | src/main/java/com/cleanSweep/backend/application/NavigationService.java:240-256 | the service performs `GoHome` from the robot's cell |
| Navigation.NavigationService.StopForStation | src/main/java/com/cleanSweep/backend/application/NavigationService.java:242-248 | remembers the cell, clears the stack when all is clean, and stops cleaning |
| Navigation.NavigationService.HaltHere | src/main/java/com/cleanSweep/backend/application/NavigationService.java:270-272 | remembers the robot's cell as where cleaning stopped and stops cleaning |
| Navigation.NavigationService.SetOff | src/main/java/com/cleanSweep/backend/application/NavigationService.java:249-254 | the trip becomes the reversed way, from index 0, not returning |
| Navigation.NavigationService.Explore | src/main/java/com/cleanSweep/backend/application/NavigationService.java:260-283 | pushes and marks the first free neighbour or pops, then applies the empty-stack rule, as `Advance` states |
| Navigation.NavigationService.PushNeighbour | src/main/java/com/cleanSweep/backend/application/NavigationService.java:261-263 | the entry from the robot's cell to the neighbour is pushed and the neighbour marked visited |
| Navigation.NavigationService.PopFrame | src/main/java/com/cleanSweep/backend/application/NavigationService.java:264-265 | the top entry is popped |
| Navigation.NavigationService.FinishSweep | src/main/java/com/cleanSweep/backend/application/NavigationService.java:268-283 | with the stack empty: away from a station, stop and head for one; at a station, complete |
| Navigation.NavigationService.FindPathWithLowestPower | src/main/java/com/cleanSweep/backend/application/NavigationService.java:380-434 | on the floor's terrain: a cheapest walk from start to target with its cost, or no path with distance 0 exactly when the target is unreachable |
| Navigation.NavigationService.InitializeAllPaths | src/main/java/com/cleanSweep/backend/application/NavigationService.java:329-357 | every cell holds the first cheapest way from the four stations and its cost, or keeps what it had when no station reaches it; no other cell field changes |
| Navigation.NavigationService.RecordWays | src/main/java/com/cleanSweep/backend/application/NavigationService.java:333-356 | the row loop leaves every cell recorded as the station scan says |
| Navigation.NavigationService.RecordRow | src/main/java/com/cleanSweep/backend/application/NavigationService.java:334-355 | one more row recorded |
| Navigation.NavigationService.RecordCell | src/main/java/com/cleanSweep/backend/application/NavigationService.java:335-354 | one more cell recorded, its way and distance stored only when a path was found |

## Left out

- Logging (`ActivityLogger` calls) and the `System.out.println` in `consumePower` have no effect on the state and are left out, as are the UI, the Spring bootstrap, the timer, persistence and the unused JSON records of `FloorMap`.
- `java.util.Random` is replaced by arbitrary draw functions `(x, y) -> int` passed to generation; its distribution is not modelled.
- Floating point is not modelled: costs, distances and the battery are integer half units, as explained above. `Battery.BatteryService` keeps its configured threshold and full charge in whole units and compares them after doubling.
- Sensor.SensorSimulatorService.IsObstacle and IsChargingStation read the cells' flags instead of the service's private `obstacleGrid` and `chargingStationGrid`; `InitializeObstacleAndDirt` proves that the cells carry exactly those flags.
- Planner.LowestPowerPath: the priority queue is a sequence polled at any least entry, so the contract holds for every tie order, but which of several cheapest walks is returned is not pinned down. The `double[][]` and `Point[][]` arrays of the search are maps, and the initial `Integer.MAX_VALUE` distance is a missing key.
- Ways.ShortestFromStations: `Double.MAX_VALUE` as the best distance so far is `None`.
- `initializeWayToChargingStation`, the BFS way builder, is not part of this model: no code of the core calls it.
- `isDirtPresent` and `getSurfaceType` of the sensor and `isDirtPresent` of the dirt service are one-line readers that no modelled operation calls; they are left out.
- `getSurfaceUnit`'s `default` branch, which answers 0, cannot be taken by the three floor types; `FloorType.java` is not part of this model.
- Two Java exceptions are modelled as a step that ends where it is thrown: `pop` on an empty stack in `cleaningNavigation`, and copying a missing way in `stationNavigation`. `Runs.SafeFromStart` proves that no step of a run from a fresh start reaches either one (`Traversal.StepThrows`).
- Termination is not proved, because the code does not guarantee it (see below). Proved instead: the invariant of every run, that each cell is pushed at most once, that at most N * N cells are pushed, and that the cleaned count only grows, by at most one per step (`Runs.CleanedGrows`).
- Battery monotonicity between recharges is stated for one `consumePower` call (`ConsumedStaysCharged`), not across a run.
- Sensor.SensorSimulatorService.GenerateChargingStations: requires a square grid of side at least 1. For width 0, or width different from height, the Java throws `ArrayIndexOutOfBoundsException` at SensorSimulatorService.java:101-104. That throw is not modelled; the only caller passes `(gridSize, gridSize)`.
- Sensor.SensorSimulatorService.InitializeObstacleAndDirt: requires `gridSize >= 1`. For a configured size of 0 the Java throws `ArrayIndexOutOfBoundsException` in `generateChargingStations`. For a negative size it throws `NegativeArraySizeException` in `initializeGrid`. Neither throw is modelled.
- Floor.FloorMap.InitializeGrid: takes a `nat` size. The `NegativeArraySizeException` the Java throws at FloorMap.java:23 for a negative size is not modelled.
- Navigation.NavigationService.constructor: requires a floor of size at least 1. With a smaller configured size the Java has already thrown while the sensor initialised the floor, so no navigation service runs on it.
- `Traversal.WorldOk` assumes a positive full charge and a non-negative bin capacity; every run lemma (`Runs.RunFromStart`, `Runs.SafeFromStart`, `Runs.CompletedCovers` and those built on the invariant) depends on it. The code reads both from configuration and does not check them.
- The Spring wiring that builds the services, calls `init` on the battery and generates the floor before `startNavigation` is not composed into one proved sequence. Each piece states its own result: `InitializeObstacleAndDirt`, `BatteryService.Init`, the `DirtService` and `NavigationService` constructors. No lemma shows that the heap after that wiring satisfies `TraversalFacts.Fresh`, the starting hypothesis of the run lemmas.
- Java `int` overflow is not modelled; grid sizes and counters are unbounded integers.

## Where the code and its description differ

The model follows the code in each of these cases.

- A cell no station reaches keeps the distance 0 it was created with, not an infinite one. `isRechargeNeeded` therefore compares the battery with 0 plus the margin on such a cell.
- A return needed at a cell with no way stops cleaning without setting a trip, so the robot stalls instead of treating the cell as a dead end (`StepFacts.WaylessReturnStalls`). From a fresh start this cannot happen: `Runs.SafeFromStart` proves the robot never stalls.
- `startNavigation` ignores its arguments and always starts at (0, 0).
- The navigation need not complete. Whether it does depends on the configured full charge compared with the costs home. After a recharge the robot walks back to the cell where it stopped, then pays again to serve that cell's frame. If the charge left is still at most that cell's distance plus the margin of 7, `isRechargeNeeded` at NavigationService.java:240 fires at once. The stack is as it was, so the trip repeats without end. A full charge below roughly twice the largest distance plus 7 allows this. The model follows the code and proves no termination.
- No distinct error is raised when no station reaches the start; the start cell (0, 0) is itself a station.

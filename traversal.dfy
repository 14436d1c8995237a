/**
 * The navigation engine as a state machine on values.
 *
 * `World` is what stays fixed while the robot runs: the terrain, the
 * charging stations, each cell's way to a station and its cost, the
 * battery's full charge, the bin capacity and the number of dirty cells
 * generated.  `Robot` is what one navigation step changes: the
 * depth-first stack, the trip to or from a station, the position, the
 * battery, the bin, the cleaning mode, the visited flags and the dirt
 * levels.  `StepNav` is one timer tick; the class in the Navigation
 * module is proved to perform exactly these transitions on the heap.
 */
module Traversal {
  import opened Wrappers
  import opened Direction
  import opened Cells
  import opened Floor
  import opened Sensor
  import opened Paths
  import opened Battery
  import opened Dirt

  /** A stack frame: the cell the robot came from (None for the start) and the cell itself. */
  datatype Entry = Entry(prev: Option<Pos>, cur: Pos)

  datatype World = World(terrain: Terrain, stations: set<Pos>, way: map<Pos, Option<seq<Pos>>>,
                         distance: map<Pos, int>, fullCharge: int, capacity: int, dirtTotal: int)

  /**
   * `stack` has its top at the end; `stationPath` is None for null and
   * Some([]) for the empty list the service starts with.
   */
  datatype Robot = Robot(stack: seq<Entry>, stationPath: Option<seq<Pos>>, stationIdx: nat,
                         completed: bool, cur: Pos, lastCleaning: Pos, returning: bool,
                         battery: int, bin: Bin, cleaning: bool, marks: Marks)

  /** What the sweep leaves on the floor: the visited flags and the dirt level of every cell. */
  datatype Marks = Marks(visited: set<Pos>, dirt: map<Pos, int>)

  function WayAt(w: World, p: Pos): Option<seq<Pos>> {
    if p in w.way then w.way[p] else None
  }

  function DistanceAt(w: World, p: Pos): int {
    if p in w.distance then w.distance[p] else 0
  }

  function DirtAt(s: Robot, p: Pos): int {
    if p in s.marks.dirt then s.marks.dirt[p] else 0
  }

  /** The station trip being walked; empty when there is none. */
  function Trip(s: Robot): seq<Pos> {
    if s.stationPath.Some? then s.stationPath.value else []
  }

  function Top(stack: seq<Entry>): Entry
    requires stack != []
  {
    stack[|stack| - 1]
  }

  function Pop(stack: seq<Entry>): seq<Entry>
    requires stack != []
  {
    stack[..|stack| - 1]
  }

  /** All generated dirt has been cleaned (`isCleanAll`). */
  predicate CleanAll(w: World, s: Robot) {
    s.bin.cleaned == w.dirtTotal
  }

  /** A cell the depth-first search may enter: in bounds, not an obstacle, not yet visited. */
  predicate Free(w: World, visited: set<Pos>, q: Pos) {
    Open(w.terrain, q) && q !in visited
  }

  /**
   * `getNeighborCell`, scanning the directions from index j on: the first
   * free neighbour of c in scan order, or None when there is none.
   */
  function FirstFree(w: World, visited: set<Pos>, c: Pos, j: nat): (r: Option<Pos>)
    requires j <= |Values|
    ensures r.Some? ==> exists k :: (j <= k < |Values| && r.value == Move(c, Values[k])
      && Free(w, visited, r.value) && forall i :: j <= i < k ==> !Free(w, visited, Move(c, Values[i])))
    ensures r.None? <==> forall k :: j <= k < |Values| ==> !Free(w, visited, Move(c, Values[k]))
    decreases |Values| - j
  {
    if j == |Values| then None
    else if Free(w, visited, Move(c, Values[j])) then Some(Move(c, Values[j]))
    else FirstFree(w, visited, c, j + 1)
  }

  /** Moving onto c from prev (None at the start) and cleaning it at the given dirt level. */
  function ServeCost(w: World, prev: Option<Pos>, c: Pos, level: int): nat {
    var from := if prev.Some? then Some(FloorOf(w.terrain, prev.value)) else None;
    MovingPowerCost(from, FloorOf(w.terrain, c)) + CleaningPowerCost(FloorOf(w.terrain, c), level)
  }

  /** The robot pays for moving onto the frame's cell and cleaning it. */
  function Pay(w: World, s: Robot, e: Entry): Robot {
    s.(battery := Consumed(s.battery, ServeCost(w, e.prev, e.cur, DirtAt(s, e.cur)), w.fullCharge))
  }

  /** The robot cleans c if the bin has room. */
  function Clean(w: World, s: Robot, c: Pos): Robot {
    var level := DirtAt(s, c);
    s.(bin := AfterClean(w.capacity, s.bin, level),
       marks := s.marks.(dirt := s.marks.dirt[c := LevelAfterClean(w.capacity, s.bin, level)]))
  }

  /** The robot pays for reaching and cleaning the frame's cell, and cleans it if the bin has room. */
  function Serve(w: World, s: Robot, e: Entry): Robot {
    Clean(w, Pay(w, s, e), e.cur)
  }

  /** All dirt cleaned, the bin full, or the charge down to the cost home plus the margin. */
  predicate ReturnNeeded(w: World, s: Robot, c: Pos) {
    CleanAll(w, s) || s.bin.load >= w.capacity || s.battery <= DistanceAt(w, c) + RechargeMargin
  }

  /** Remembers c as where cleaning stopped, drops the stack when everything is clean, and stops cleaning. */
  function StopCleaning(w: World, s: Robot, c: Pos): Robot {
    s.(lastCleaning := c, stack := if CleanAll(w, s) then [] else s.stack, cleaning := false)
  }

  /** Remembers the robot's cell as where cleaning stopped, and stops cleaning. */
  function Halt(s: Robot): Robot {
    s.(lastCleaning := s.cur, cleaning := false)
  }

  /** Begins the trip from c to its station: c's way, reversed. */
  function HeadFor(w: World, s: Robot, way: seq<Pos>): Robot {
    s.(stationPath := Some(Reverse(way)), stationIdx := 0, returning := false)
  }

  /**
   * A return was needed at c: remember c, drop the stack when everything is
   * clean, stop cleaning, and head for the station; without a way, carry on
   * exploring.
   */
  function GoHome(w: World, s: Robot, c: Pos): Robot {
    var s1 := StopCleaning(w, s, c);
    match WayAt(w, c)
    case Some(way) => HeadFor(w, s1, way)
    case None => Advance(w, s1)
  }

  /** Pushes the frame for q, entered from the robot's cell, and marks q visited. */
  function Push(s: Robot, q: Pos): Robot {
    s.(stack := s.stack + [Entry(Some(s.cur), q)], marks := s.marks.(visited := s.marks.visited + {q}))
  }

  /**
   * Pushes the first free neighbour and marks it visited, or pops the
   * current frame when there is none; popping an empty stack throws, which
   * ends the step where it is.
   */
  function Advance(w: World, s: Robot): Robot {
    match FirstFree(w, s.marks.visited, s.cur, 0)
    case Some(q) => Finish(w, Push(s, q))
    case None => if s.stack == [] then s else Finish(w, s.(stack := Pop(s.stack)))
  }

  /**
   * Once the stack is empty: away from a station the robot stops cleaning
   * and heads for a station; at a station the navigation is complete.
   */
  function Finish(w: World, s: Robot): Robot {
    if s.stack != [] then s
    else if s.cur !in w.stations then
      var s1 := Halt(s);
      match WayAt(w, s.cur)
      case Some(way) => HeadFor(w, s1, way)
      case None => s1
    else s.(completed := true)
  }

  /** `cleaningNavigation`: one step of the depth-first sweep. */
  function CleaningStep(w: World, s: Robot): Robot {
    if s.stack == [] || s.completed then s
    else
      var e := Top(s.stack);
      var s1 := s.(cur := e.cur);
      if e.cur in w.terrain.blocked then s1.(stack := Pop(s.stack)) else CellStep(w, s1, e)
  }

  /**
   * The sweep on the frame's cell once it is known to be free: serve it,
   * then head home if a return is needed, else explore on.
   */
  function CellStep(w: World, s: Robot, e: Entry): Robot {
    var s2 := Serve(w, s, e);
    if ReturnNeeded(w, s2, e.cur) then GoHome(w, s2, e.cur) else Advance(w, s2)
  }

  /** The moving cost of step i of a trip; the first step costs nothing. */
  function TripStepCost(w: World, path: seq<Pos>, i: nat): nat
    requires i < |path|
  {
    MovingPowerCost(if i > 0 then Some(FloorOf(w.terrain, path[i - 1])) else None, FloorOf(w.terrain, path[i]))
  }

  /**
   * At a station on the way there: empty the bin and recharge; with nothing
   * left on the stack the navigation is complete, otherwise cleaning resumes
   * and the robot walks the way back to where it stopped.  Without a way
   * back the copy of the null list throws after the recharge.
   */
  function Arrive(w: World, s: Robot): Robot {
    var s1 := s.(bin := s.bin.(load := 0), battery := w.fullCharge);
    if s.stack == [] then s1.(completed := true, stationPath := None, stationIdx := 0)
    else
      var s2 := s1.(cleaning := true);
      match WayAt(w, s.lastCleaning)
      case Some(way) => s2.(stationPath := Some(way), stationIdx := 0, returning := true)
      case None => s2
  }

  /**
   * The move onto the trip's current cell; it costs nothing onto the cell
   * where cleaning stopped.
   */
  function TripMove(w: World, s: Robot): Robot
    requires s.stationIdx < |Trip(s)|
  {
    var path := Trip(s);
    var c := path[s.stationIdx];
    var battery :=
      if c != s.lastCleaning then Consumed(s.battery, TripStepCost(w, path, s.stationIdx), w.fullCharge)
      else s.battery;
    s.(cur := c, battery := battery)
  }

  /**
   * Once the robot stands on the trip's current cell: arrive at a station
   * on the way there, drop the trip back at the cleaning cell, or advance
   * the index, never past the last cell.
   */
  function TripStep(w: World, s: Robot): Robot {
    if s.cur in w.stations && !s.returning then Arrive(w, s)
    else if s.returning && s.cur == s.lastCleaning then s.(stationPath := None, stationIdx := 0, returning := false)
    else if s.stationIdx < |Trip(s)| - 1 then s.(stationIdx := s.stationIdx + 1)
    else s
  }

  /** `stationNavigation`: one step along the trip to or from a station. */
  function StationStep(w: World, s: Robot): Robot {
    var path := Trip(s);
    if |path| == 0 || s.stationIdx >= |path| then s.(stationPath := None, stationIdx := 0)
    else
      var c := path[s.stationIdx];
      var s1 := TripMove(w, s);
      if c in w.stations && !s.returning then Arrive(w, s1)
      else if s.returning && c == s.lastCleaning then s1.(stationPath := None, stationIdx := 0, returning := false)
      else if s.stationIdx < |path| - 1 then s1.(stationIdx := s.stationIdx + 1)
      else s1
  }

  /** `stepNavigation`: walk the trip if there is one, otherwise sweep while cleaning is on. */
  function StepNav(w: World, s: Robot): Robot {
    if |Trip(s)| > 0 then StationStep(w, s)
    else if s.cleaning then CleaningStep(w, s)
    else s
  }

  /**
   * An unfinished robot that no step moves on: no trip, and either cleaning
   * is off or nothing is left on the stack.
   */
  predicate Stalled(s: Robot) {
    !s.completed && |Trip(s)| == 0 && (!s.cleaning || s.stack == [])
  }

  /**
   * The step reaches one of the two places where the Java code throws:
   * copying the missing way of the last cleaning cell on arrival at a
   * station, or `pop` on the stack that a return without a way has cleared.
   */
  predicate StepThrows(w: World, s: Robot) {
    var path := Trip(s);
    if |path| > 0 then
      && s.stationIdx < |path| && path[s.stationIdx] in w.stations && !s.returning
      && s.stack != [] && WayAt(w, s.lastCleaning).None?
    else if s.cleaning && s.stack != [] && !s.completed then
      var e := Top(s.stack);
      var s2 := Serve(w, s.(cur := e.cur), e);
      && e.cur !in w.terrain.blocked
      && ReturnNeeded(w, s2, e.cur) && WayAt(w, e.cur).None?
      && CleanAll(w, s2) && FirstFree(w, s2.marks.visited, e.cur, 0).None?
    else false
  }

  /** `startNavigation` after the ways are computed: push the origin and mark it visited. */
  function Start(s: Robot): Robot {
    s.(stack := [Entry(None, Origin)], marks := s.marks.(visited := s.marks.visited + {Origin}), cur := Origin)
  }

  /** k timer ticks. */
  function Run(w: World, s: Robot, k: nat): Robot
    decreases k
  {
    if k == 0 then s else StepNav(w, Run(w, s, k - 1))
  }

  // ---------------------------------------------------------------------
  // The invariant of a run
  // ---------------------------------------------------------------------

  /** The four corners of an n x n grid. */
  function CornerSet(n: int): set<Pos> {
    {Pos(0, 0), Pos(0, n - 1), Pos(n - 1, 0), Pos(n - 1, n - 1)}
  }

  /** What generation and configuration guarantee about the world. */
  ghost predicate WorldOk(w: World) {
    && w.terrain.n >= 1 && w.stations == CornerSet(w.terrain.n)
    && (forall p :: p in w.stations ==> p !in w.terrain.blocked)
    && w.fullCharge > 0 && w.capacity >= 0
  }

  /** Some charging station reaches p. */
  ghost predicate StationReachable(w: World, p: Pos) {
    exists s :: s in w.stations && Reachable(w.terrain, s, p)
  }

  /** A way to p: a walk from a station to p that meets no other station after its first cell. */
  ghost predicate WayShape(w: World, p: Pos, way: seq<Pos>) {
    ValidPath(w.terrain, way) && way[0] in w.stations && way[|way| - 1] == p
    && forall i :: 1 <= i < |way| ==> way[i] !in w.stations
  }

  /** A cell has a way exactly when a station reaches it. */
  ghost predicate WaysComplete(w: World) {
    forall p :: InBounds(w.terrain.n, p) ==> (WayAt(w, p).Some? <==> StationReachable(w, p))
  }

  /** Each way has the shape above and its cost is the recorded distance. */
  ghost predicate WaysShaped(w: World) {
    forall p :: WayAt(w, p).Some? ==>
      WayShape(w, p, WayAt(w, p).value) && DistanceAt(w, p) == PathCost(w.terrain, WayAt(w, p).value)
  }

  /** No walk from any station to a cell is cheaper than its way. */
  ghost predicate WaysCheapest(w: World) {
    forall p, s, path :: WayAt(w, p).Some? && s in w.stations && PathFromTo(w.terrain, path, s, p) ==>
      DistanceAt(w, p) <= PathCost(w.terrain, path)
  }

  /** What `initializeAllPaths` leaves in the cells, as the navigation relies on it. */
  ghost predicate WaysReady(w: World) {
    WaysComplete(w) && WaysShaped(w) && WaysCheapest(w)
  }

  /** Every position the heap is indexed with lies on the grid. */
  ghost predicate Wf(w: World, s: Robot) {
    var n := w.terrain.n;
    && InBounds(n, s.cur) && InBounds(n, s.lastCleaning)
    && s.marks.dirt.Keys == Positions(n)
    && (forall i :: 0 <= i < |s.stack| ==>
          InBounds(n, s.stack[i].cur) && (s.stack[i].prev.Some? ==> InBounds(n, s.stack[i].prev.value)))
    && (forall i :: 0 <= i < |Trip(s)| ==> InBounds(n, Trip(s)[i]))
    && (forall p, i :: WayAt(w, p).Some? && 0 <= i < |WayAt(w, p).value| ==> InBounds(n, WayAt(w, p).value[i]))
  }

  /**
   * The stack is a walk from the origin; every frame's cell is visited,
   * open and has a way home; while sweeping the robot stands on the top
   * cell or next to it.
   */
  ghost predicate StackOk(w: World, s: Robot) {
    && Origin in s.marks.visited
    && (s.stack != [] ==> s.stack[0] == Entry(None, Origin))
    && (forall i :: 1 <= i < |s.stack| ==>
          s.stack[i].prev == Some(s.stack[i - 1].cur) && Adjacent(s.stack[i - 1].cur, s.stack[i].cur))
    && (forall i :: 0 <= i < |s.stack| ==>
          s.stack[i].cur in s.marks.visited && Open(w.terrain, s.stack[i].cur) && WayAt(w, s.stack[i].cur).Some?)
    && (s.stack != [] && |Trip(s)| == 0 ==> s.cur == Top(s.stack).cur || Adjacent(s.cur, Top(s.stack).cur))
  }

  predicate OnStack(stack: seq<Entry>, v: Pos) {
    exists i :: 0 <= i < |stack| && stack[i].cur == v
  }

  /** The cells one move from v that a walk may enter. */
  function OpenNeighbours(t: Terrain, v: Pos): set<Pos> {
    set j | 0 <= j < |Values| && Open(t, Move(v, Values[j])) :: Move(v, Values[j])
  }

  /** Every open neighbour of v has been visited. */
  ghost predicate Explored(w: World, visited: set<Pos>, v: Pos) {
    OpenNeighbours(w.terrain, v) <= visited
  }

  /** While dirt remains, a visited cell is either on the stack or fully explored. */
  ghost predicate CoverageOk(w: World, s: Robot) {
    s.bin.cleaned < w.dirtTotal ==> forall v {:trigger Explored(w, s.marks.visited, v)} :: v in s.marks.visited ==> OnStack(s.stack, v) || Explored(w, s.marks.visited, v)
  }

  /**
   * A trip to a station is the last cleaning cell's way reversed; a trip
   * back is that way itself.  The robot stands on the trip's current cell
   * or the one before it, and the stack's top is where cleaning resumes.
   */
  ghost predicate TripOk(w: World, s: Robot) {
    var path := Trip(s);
    && (|path| > 0 ==>
          s.stationIdx < |path| && WayAt(w, s.lastCleaning).Some?
          && (s.cur == path[s.stationIdx] || (s.stationIdx > 0 && s.cur == path[s.stationIdx - 1])))
    && (|path| > 0 && !s.returning ==> path == Reverse(WayAt(w, s.lastCleaning).value))
    && (s.returning ==> |path| > 0 && path == WayAt(w, s.lastCleaning).value && s.cleaning && s.stack != [])
    && (|path| > 0 && s.stack != [] ==> s.lastCleaning == Top(s.stack).cur)
  }

  /** Without a trip an unfinished robot is sweeping; a finished one has nothing left to do. */
  ghost predicate ModeOk(s: Robot) {
    && (!s.completed && |Trip(s)| == 0 ==> s.cleaning && s.stack != [])
    && (s.completed ==> s.stack == [] && |Trip(s)| == 0)
  }

  /** The battery is charged, the bin within capacity, and the cleaned cells plus the dirty ones are all generated dirt. */
  ghost predicate Supplies(w: World, s: Robot) {
    && 0 < s.battery <= w.fullCharge
    && 0 <= s.bin.load <= w.capacity
    && 0 <= s.bin.cleaned
    && s.bin.cleaned + |Dirty(s.marks.dirt)| == w.dirtTotal
  }

  /** The part of the invariant about the robot. */
  ghost predicate Sound(w: World, s: Robot) {
    Wf(w, s) && StackOk(w, s) && CoverageOk(w, s) && TripOk(w, s) && ModeOk(s) && Supplies(w, s)
  }

  /** The invariant of a run: a well-formed world with its ways ready, and a sound robot. */
  ghost predicate Inv(w: World, s: Robot) {
    WorldOk(w) && WaysReady(w) && Sound(w, s)
  }
}

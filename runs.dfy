/**
 * What a whole run of `stepNavigation` calls guarantees: the invariant
 * holds after any number of steps, and the properties it carries.
 */
module Runs {
  import opened Wrappers
  import opened Direction
  import opened Floor
  import opened Sensor
  import opened Planner
  import opened Paths
  import opened Ways
  import opened Traversal
  import opened TraversalFacts
  import opened StepFacts

  /** The invariant holds after any number of steps. */
  lemma RunKeeps(w: World, s: Robot, k: nat)
    requires Inv(w, s)
    ensures Inv(w, Run(w, s, k))
  {
    var i := 0;
    while i < k
      invariant 0 <= i <= k && Inv(w, Run(w, s, i))
    {
      RunStepKeeps(w, s, i + 1);
      i := i + 1;
    }
  }

  /**
   * `startNavigation` on a fresh robot over cells that held no ways: once
   * `initializeAllPaths` has recorded them, the invariant holds from the
   * first step on.
   */
  lemma StartedFresh(w0: World, w: World, s: Robot, stations: seq<Pos>)
    requires WorldOk(w0) && Fresh(w0, s)
    requires w == w0.(way := w.way, distance := w.distance)
    requires forall p :: WayAt(w0, p) == None
    requires forall q :: q in w.stations <==> q in stations
    requires forall p :: p in w.way ==> InBounds(w.terrain.n, p)
    requires forall p :: InBounds(w.terrain.n, p) ==>
      WayRecorded(w.terrain, stations, p, WayAt(w0, p), DistanceAt(w0, p), WayAt(w, p), DistanceAt(w, p))
    ensures Inv(w, Start(s))
  {
    forall p | InBounds(w.terrain.n, p)
      ensures WayRecorded(w.terrain, stations, p, None, DistanceAt(w, p), WayAt(w, p), DistanceAt(w, p))
    {
      assert WayRecorded(w.terrain, stations, p, WayAt(w0, p), DistanceAt(w0, p), WayAt(w, p), DistanceAt(w, p));
    }
    WaysReadyAfterInit(w, stations);
    StartKeeps(w, s);
  }

  /** From a fresh start, the invariant holds after any number of steps. */
  lemma RunFromStart(w0: World, w: World, s: Robot, stations: seq<Pos>, k: nat)
    requires WorldOk(w0) && Fresh(w0, s)
    requires w == w0.(way := w.way, distance := w.distance)
    requires forall p :: WayAt(w0, p) == None
    requires forall q :: q in w.stations <==> q in stations
    requires forall p :: p in w.way ==> InBounds(w.terrain.n, p)
    requires forall p :: InBounds(w.terrain.n, p) ==>
      WayRecorded(w.terrain, stations, p, WayAt(w0, p), DistanceAt(w0, p), WayAt(w, p), DistanceAt(w, p))
    ensures Inv(w, Run(w, Start(s), k))
  {
    StartedFresh(w0, w, s, stations);
    RunKeeps(w, Start(s), k);
  }

  /**
   * Visited marks are never cleared, and a cell marked in step i + 1 was
   * unmarked at every earlier step: the search pushes each cell at most once.
   */
  lemma {:induction false} MarkedOnce(w: World, s: Robot, i: nat, j: nat)
    requires j <= i
    ensures Run(w, s, j).marks.visited <= Run(w, s, i).marks.visited
    ensures (Run(w, s, i + 1).marks.visited - Run(w, s, i).marks.visited) !! Run(w, s, j).marks.visited
    decreases i - j
  {
    StepMarks(w, Run(w, s, i));
    if j < i {
      MarkedOnce(w, s, i - 1, j);
      StepMarks(w, Run(w, s, i - 1));
    }
  }

  /**
   * The visited cells stay on the n x n grid, so there are at most n * n of
   * them and the search pushes at most n * n frames.
   */
  lemma MarksOnGrid(w: World, s: Robot, k: nat)
    requires s.marks.visited <= Positions(w.terrain.n)
    ensures Run(w, s, k).marks.visited <= Positions(w.terrain.n)
    ensures |Run(w, s, k).marks.visited| <= w.terrain.n * w.terrain.n
  {
    var i := 0;
    while i < k
      invariant 0 <= i <= k && Run(w, s, i).marks.visited <= Positions(w.terrain.n)
    {
      StepOnGrid(w, Run(w, s, i));
      i := i + 1;
    }
    PositionsCount(w.terrain.n);
    SubsetCard(Run(w, s, k).marks.visited, Positions(w.terrain.n));
  }

  lemma StepOnGrid(w: World, s: Robot)
    requires s.marks.visited <= Positions(w.terrain.n)
    ensures StepNav(w, s).marks.visited <= Positions(w.terrain.n)
  {
    StepMarks(w, s);
    var r := StepNav(w, s);
    if r.marks.visited != s.marks.visited {
      assert Top(r.stack).cur in Positions(w.terrain.n);
    }
  }

  lemma SubsetCard<T>(a: set<T>, b: set<T>)
    requires a <= b
    ensures |a| <= |b|
  {
    assert b == a + (b - a);
  }

  /**
   * Under the invariant no step throws, no robot is stalled, and a sweep's
   * top cell has a way home, so a return needed there always sets off.
   */
  lemma InvSafe(w: World, s: Robot)
    requires Inv(w, s)
    ensures !StepThrows(w, s) && !Stalled(s)
    ensures !s.completed && |Trip(s)| == 0 ==> s.cleaning && s.stack != [] && WayAt(w, Top(s.stack).cur).Some?
  {
    if |Trip(s)| == 0 && s.cleaning && s.stack != [] && !s.completed {
      assert WayAt(w, s.stack[|s.stack| - 1].cur).Some?;
    }
  }

  /** A stalled robot stays where it is for any number of steps. */
  lemma {:induction false} StalledStays(w: World, s: Robot, k: nat)
    requires Stalled(s)
    ensures Run(w, s, k) == s
  {
    if k > 0 {
      StalledStays(w, s, k - 1);
    }
  }

  /**
   * From a fresh start no step of a run reaches either Java exception and
   * the robot never stalls before the navigation completes.
   */
  lemma SafeFromStart(w0: World, w: World, s: Robot, stations: seq<Pos>, k: nat)
    requires WorldOk(w0) && Fresh(w0, s)
    requires w == w0.(way := w.way, distance := w.distance)
    requires forall p :: WayAt(w0, p) == None
    requires forall q :: q in w.stations <==> q in stations
    requires forall p :: p in w.way ==> InBounds(w.terrain.n, p)
    requires forall p :: InBounds(w.terrain.n, p) ==>
      WayRecorded(w.terrain, stations, p, WayAt(w0, p), DistanceAt(w0, p), WayAt(w, p), DistanceAt(w, p))
    ensures !StepThrows(w, Run(w, Start(s), k)) && !Stalled(Run(w, Start(s), k))
  {
    RunFromStart(w0, w, s, stations, k);
    InvSafe(w, Run(w, Start(s), k));
  }

  /** An open cell next to v is one of v's open neighbours. */
  lemma OpenNeighbour(t: Terrain, v: Pos, q: Pos)
    requires Adjacent(v, q) && Open(t, q)
    ensures q in OpenNeighbours(t, v)
  {
    MovesAreAdjacency(v, q);
    var d :| Move(v, d) == q;
    var j := Ordinal(d);
    assert Move(v, Values[j]) == q;
  }

  /** A set of cells that holds the origin and every open neighbour of its members holds every cell a walk from the origin reaches. */
  lemma {:induction false} ClosedCovers(t: Terrain, visited: set<Pos>, path: seq<Pos>)
    requires Origin in visited && forall v :: v in visited ==> OpenNeighbours(t, v) <= visited
    requires ValidPath(t, path) && path[0] == Origin
    ensures path[|path| - 1] in visited
  {
    var i := 0;
    while i < |path| - 1
      invariant 0 <= i < |path| && path[i] in visited
    {
      OpenNeighbour(t, path[i], path[i + 1]);
      i := i + 1;
    }
  }

  /**
   * When the navigation completes with dirt left, the sweep has visited
   * every cell a walk from the origin reaches: what remains lies beyond
   * obstacles.
   */
  lemma CompletedCovers(w: World, s: Robot, path: seq<Pos>)
    requires Inv(w, s) && s.completed && ValidPath(w.terrain, path) && path[0] == Origin
    ensures |Dirty(s.marks.dirt)| == 0 || path[|path| - 1] in s.marks.visited
  {
    if |Dirty(s.marks.dirt)| > 0 {
      assert s.stack == [] && s.bin.cleaned < w.dirtTotal;
      forall v | v in s.marks.visited
        ensures OpenNeighbours(w.terrain, v) <= s.marks.visited
      {
        assert !OnStack(s.stack, v);
        assert Explored(w, s.marks.visited, v);
      }
      ClosedCovers(w.terrain, s.marks.visited, path);
    }
  }

  /**
   * The count of cleaned cells only grows along a run, and by at most one
   * per step: from step j to step i it rises by at most i - j.
   */
  lemma {:induction false} CleanedGrows(w: World, s: Robot, i: nat, j: nat)
    requires j <= i
    ensures Run(w, s, j).bin.cleaned <= Run(w, s, i).bin.cleaned <= Run(w, s, j).bin.cleaned + (i - j)
    decreases i - j
  {
    if j < i {
      CleanedGrows(w, s, i - 1, j);
      StepCleaned(w, Run(w, s, i - 1));
    }
  }

  /** Once the navigation is completed, no number of further steps changes anything. */
  lemma CompletedIsFinal(w: World, s: Robot, k: nat)
    requires ModeOk(s) && s.completed
    ensures Run(w, s, k) == s
  {
    var i := 0;
    while i < k
      invariant 0 <= i <= k && Run(w, s, i) == s
    {
      CompletedStays(w, s);
      i := i + 1;
    }
  }
}

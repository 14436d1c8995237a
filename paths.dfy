/**
 * Walks on the grid and what they cost.
 *
 * The planner moves between 4-adjacent cells that are inside the grid and
 * not obstacles; crossing from one cell to the next costs the moving power
 * cost of the two cells, in half units.  The first cell of a walk is where
 * the search starts (a charging station) and is never tested for obstacles.
 */
module Paths {
  import opened Wrappers
  import opened Direction
  import opened Cells
  import opened Floor
  import opened Sensor

  /** What the planner sees of the floor: its size, the obstacle cells and each cell's floor type. */
  datatype Terrain = Terrain(n: nat, blocked: set<Pos>, floor: map<Pos, FloorType>)

  /** A cell a walk may enter: in bounds and not an obstacle. */
  predicate Open(t: Terrain, p: Pos) {
    InBounds(t.n, p) && p !in t.blocked
  }

  function FloorOf(t: Terrain, p: Pos): FloorType {
    if p in t.floor then t.floor[p] else BareFloor
  }

  /** The weight of the move from p to q. */
  function StepCost(t: Terrain, p: Pos, q: Pos): nat {
    MovingPowerCost(Some(FloorOf(t, p)), FloorOf(t, q))
  }

  /** A move costs the same both ways and at least one power unit. */
  lemma StepCostSymmetric(t: Terrain, p: Pos, q: Pos)
    ensures StepCost(t, p, q) == StepCost(t, q, p)
    ensures StepCost(t, p, q) >= 2
  {
    MovingPowerCostSymmetricAndBetween(FloorOf(t, p), FloorOf(t, q));
  }

  /**
   * A walk the planner can produce: it starts inside the grid and every
   * later cell is open and adjacent to the one before.
   */
  predicate ValidPath(t: Terrain, path: seq<Pos>) {
    |path| >= 1 && InBounds(t.n, path[0])
    && (forall i :: 1 <= i < |path| ==> Open(t, path[i]) && Adjacent(path[i - 1], path[i]))
  }

  predicate PathFromTo(t: Terrain, path: seq<Pos>, s: Pos, e: Pos) {
    ValidPath(t, path) && path[0] == s && path[|path| - 1] == e
  }

  /** Some walk leads from s to e. */
  ghost predicate Reachable(t: Terrain, s: Pos, e: Pos) {
    exists path :: PathFromTo(t, path, s, e)
  }

  /** The sum of the moving costs along a walk. */
  function PathCost(t: Terrain, path: seq<Pos>): nat
    decreases |path|
  {
    if |path| <= 1 then 0
    else PathCost(t, path[..|path| - 1]) + StepCost(t, path[|path| - 2], path[|path| - 1])
  }

  lemma PathCostAppend(t: Terrain, path: seq<Pos>, q: Pos)
    requires |path| >= 1
    ensures PathCost(t, path + [q]) == PathCost(t, path) + StepCost(t, path[|path| - 1], q)
  {
    assert (path + [q])[..|path|] == path;
  }

  lemma {:induction false} PathCostPrepend(t: Terrain, a: Pos, path: seq<Pos>)
    requires |path| >= 1
    ensures PathCost(t, [a] + path) == StepCost(t, a, path[0]) + PathCost(t, path)
    decreases |path|
  {
    if |path| > 1 {
      var init := path[..|path| - 1];
      PathCostPrepend(t, a, init);
      assert ([a] + path)[..|path|] == [a] + init;
    }
  }

  /** A prefix of a walk costs no more than the walk. */
  lemma {:induction false} PathCostPrefix(t: Terrain, path: seq<Pos>, k: nat)
    requires 1 <= k <= |path|
    ensures PathCost(t, path[..k]) <= PathCost(t, path)
    decreases |path|
  {
    if k < |path| {
      var init := path[..|path| - 1];
      assert path[..k] == init[..k];
      PathCostPrefix(t, init, k);
    } else {
      assert path[..k] == path;
    }
  }

  lemma ValidPathPrefix(t: Terrain, path: seq<Pos>, k: nat)
    requires ValidPath(t, path) && 1 <= k <= |path|
    ensures ValidPath(t, path[..k])
  {
  }

  lemma ValidPathAppend(t: Terrain, path: seq<Pos>, q: Pos)
    requires ValidPath(t, path) && Open(t, q) && Adjacent(path[|path| - 1], q)
    ensures ValidPath(t, path + [q])
  {
  }

  /** Extending a walk to an open neighbour of its end reaches that neighbour. */
  lemma ReachableStep(t: Terrain, s: Pos, e: Pos, q: Pos)
    requires Reachable(t, s, e) && Open(t, q) && Adjacent(e, q)
    ensures Reachable(t, s, q)
  {
    var path :| PathFromTo(t, path, s, e);
    ValidPathAppend(t, path, q);
    assert PathFromTo(t, path + [q], s, q);
  }

  /** `Collections.reverse`. */
  function Reverse<T>(s: seq<T>): (r: seq<T>)
    ensures |r| == |s|
    ensures forall i :: 0 <= i < |s| ==> r[i] == s[|s| - 1 - i]
  {
    if s == [] then [] else Reverse(s[1..]) + [s[0]]
  }

  lemma ReverseReverse<T>(s: seq<T>)
    ensures Reverse(Reverse(s)) == s
  {
    assert forall i :: 0 <= i < |s| ==> Reverse(Reverse(s))[i] == s[i];
  }

  /** Reversing puts the last element first. */
  lemma {:induction false} ReverseInit<T>(s: seq<T>)
    requires s != []
    ensures Reverse(s) == [s[|s| - 1]] + Reverse(s[..|s| - 1])
    decreases |s|
  {
    if |s| > 1 {
      var init := s[..|s| - 1];
      ReverseInit(s[1..]);
      assert s[1..][..|s| - 2] == init[1..];
      assert s[1..][|s| - 2] == s[|s| - 1];
      assert init[0] == s[0];
    }
  }

  /**
   * Walking a path backwards costs what walking it forwards costs, so the
   * trip to a station and the trip back from it are priced the same.
   */
  lemma {:induction false} PathCostReverse(t: Terrain, path: seq<Pos>)
    ensures PathCost(t, Reverse(path)) == PathCost(t, path)
    decreases |path|
  {
    if |path| > 1 {
      var init := path[..|path| - 1];
      var last := path[|path| - 1];
      PathCostReverse(t, init);
      ReverseInit(path);
      PathCostPrepend(t, last, Reverse(init));
      StepCostSymmetric(t, last, init[|init| - 1]);
    }
  }

  /** The terrain a floor map shows the planner. */
  function TerrainOf(fm: FloorMap): (t: Terrain)
    requires fm.Valid()
    reads fm, fm.cells, fm.CellSet`isObstacle, fm.CellSet`floorType
    ensures t.n == fm.Size()
    ensures forall p {:trigger Open(t, p)} {:trigger fm.CellAt(p)} :: InBounds(t.n, p) ==> (Open(t, p) <==> !fm.CellAt(p).isObstacle)
    ensures forall p {:trigger FloorOf(t, p)} {:trigger fm.CellAt(p)} :: InBounds(t.n, p) ==> FloorOf(t, p) == fm.CellAt(p).floorType
  {
    Terrain(fm.Size(), fm.Obstacles(), fm.Floors())
  }
}

/**
 * What `initializeAllPaths` records in each cell: of the cheapest walks
 * from the charging stations to the cell, the one found from the first
 * station in list order, and its cost.  The stations are scanned in order
 * and a later station replaces the best so far only when strictly cheaper.
 */
module Ways {
  import opened Wrappers
  import opened Direction
  import opened Floor
  import opened Paths
  import opened Traversal
  import opened Planner

  /** Some station among the first k reaches p. */
  ghost predicate AnyReaches(t: Terrain, stations: seq<Pos>, k: nat, p: Pos)
    requires k <= |stations|
  {
    exists m :: 0 <= m < k && Reachable(t, stations[m], p)
  }

  /**
   * `way`, of cost d, is a walk to p from one of the first k stations; no
   * walk from an earlier station is as cheap, and no walk from any of the
   * first k stations is cheaper.
   */
  ghost predicate FirstCheapest(t: Terrain, stations: seq<Pos>, k: nat, p: Pos, way: seq<Pos>, d: int)
    requires k <= |stations|
  {
    && d == PathCost(t, way)
    && (exists m :: 0 <= m < k && PathFromTo(t, way, stations[m], p)
          && forall j, q :: 0 <= j < m && PathFromTo(t, q, stations[j], p) ==> d < PathCost(t, q))
    && (forall m, q :: 0 <= m < k && PathFromTo(t, q, stations[m], p) ==> d <= PathCost(t, q))
  }

  /** The best way and distance after scanning the first k stations; None stands for none found yet. */
  ghost predicate BestAmong(t: Terrain, stations: seq<Pos>, k: nat, p: Pos,
                            best: Option<seq<Pos>>, bestDistance: Option<int>)
    requires k <= |stations|
  {
    && (best.Some? <==> bestDistance.Some?)
    && (best.None? <==> !AnyReaches(t, stations, k, p))
    && (best.Some? ==> FirstCheapest(t, stations, k, p, best.value, bestDistance.value))
  }

  /**
   * What a cell holds after the scan: a cheapest way from the first station
   * that has one, with its cost, when some station reaches the cell; the
   * old way and distance, untouched, when none does.
   */
  ghost predicate WayRecorded(t: Terrain, stations: seq<Pos>, p: Pos, oldWay: Option<seq<Pos>>, oldDistance: int,
                              way: Option<seq<Pos>>, distance: int)
  {
    if AnyReaches(t, stations, |stations|, p)
    then way.Some? && FirstCheapest(t, stations, |stations|, p, way.value, distance)
    else way == oldWay && distance == oldDistance
  }

  /**
   * Row by row, the cells before (i, j) hold what the scan records and the
   * others still hold what they held.
   */
  ghost predicate Scanned(t: Terrain, stations: seq<Pos>, p: Pos, i: int, j: int,
                          oldWay: Option<seq<Pos>>, oldDistance: int, way: Option<seq<Pos>>, distance: int)
  {
    if p.x < i || (p.x == i && p.y < j)
    then WayRecorded(t, stations, p, oldWay, oldDistance, way, distance)
    else way == oldWay && distance == oldDistance
  }

  /** Scanned holds at every cell of an n x n grid. */
  ghost predicate ScannedUpTo(t: Terrain, stations: seq<Pos>, n: nat, i: int, j: int,
                              oldWays: map<Pos, Option<seq<Pos>>>, oldDistances: map<Pos, int>,
                              ways: map<Pos, Option<seq<Pos>>>, distances: map<Pos, int>)
  {
    && oldWays.Keys == oldDistances.Keys == ways.Keys == distances.Keys == Positions(n)
    && forall p :: InBounds(n, p) ==> Scanned(t, stations, p, i, j, oldWays[p], oldDistances[p], ways[p], distances[p])
  }

  lemma ScanStart(t: Terrain, stations: seq<Pos>, n: nat,
                  oldWays: map<Pos, Option<seq<Pos>>>, oldDistances: map<Pos, int>)
    requires oldWays.Keys == oldDistances.Keys == Positions(n)
    ensures ScannedUpTo(t, stations, n, 0, 0, oldWays, oldDistances, oldWays, oldDistances)
  {
  }

  /** Recording the scan's result at (i, j), only when a path was found, moves the scan on by one cell. */
  lemma ScanCell(t: Terrain, stations: seq<Pos>, n: nat, i: int, j: int,
                 oldWays: map<Pos, Option<seq<Pos>>>, oldDistances: map<Pos, int>,
                 ways: map<Pos, Option<seq<Pos>>>, distances: map<Pos, int>,
                 best: Option<seq<Pos>>, bestDistance: Option<int>)
    requires ScannedUpTo(t, stations, n, i, j, oldWays, oldDistances, ways, distances)
    requires InBounds(n, Pos(i, j)) && BestAmong(t, stations, |stations|, Pos(i, j), best, bestDistance)
    ensures ScannedUpTo(t, stations, n, i, j + 1, oldWays, oldDistances,
                        if best.Some? then ways[Pos(i, j) := best] else ways,
                        if best.Some? then distances[Pos(i, j) := bestDistance.value] else distances)
  {
    var ways', distances' := if best.Some? then ways[Pos(i, j) := best] else ways,
                             if best.Some? then distances[Pos(i, j) := bestDistance.value] else distances;
    forall p | InBounds(n, p)
      ensures Scanned(t, stations, p, i, j + 1, oldWays[p], oldDistances[p], ways'[p], distances'[p])
    {
      if p != Pos(i, j) {
        assert Scanned(t, stations, p, i, j, oldWays[p], oldDistances[p], ways[p], distances[p]);
      } else {
        assert Scanned(t, stations, p, i, j, oldWays[p], oldDistances[p], ways[p], distances[p]);
      }
    }
  }

  /** The end of a row is the start of the next. */
  lemma ScanRow(t: Terrain, stations: seq<Pos>, n: nat, i: int,
                oldWays: map<Pos, Option<seq<Pos>>>, oldDistances: map<Pos, int>,
                ways: map<Pos, Option<seq<Pos>>>, distances: map<Pos, int>)
    requires ScannedUpTo(t, stations, n, i, n, oldWays, oldDistances, ways, distances)
    ensures ScannedUpTo(t, stations, n, i + 1, 0, oldWays, oldDistances, ways, distances)
  {
    forall p | InBounds(n, p)
      ensures Scanned(t, stations, p, i + 1, 0, oldWays[p], oldDistances[p], ways[p], distances[p])
    {
      assert Scanned(t, stations, p, i, n, oldWays[p], oldDistances[p], ways[p], distances[p]);
    }
  }

  /** Once every row is scanned, every cell holds what the scan records. */
  lemma ScanDone(t: Terrain, stations: seq<Pos>, n: nat,
                 oldWays: map<Pos, Option<seq<Pos>>>, oldDistances: map<Pos, int>,
                 ways: map<Pos, Option<seq<Pos>>>, distances: map<Pos, int>)
    requires ScannedUpTo(t, stations, n, n, 0, oldWays, oldDistances, ways, distances)
    ensures forall p :: InBounds(n, p) ==> WayRecorded(t, stations, p, oldWays[p], oldDistances[p], ways[p], distances[p])
  {
    forall p | InBounds(n, p)
      ensures WayRecorded(t, stations, p, oldWays[p], oldDistances[p], ways[p], distances[p])
    {
      assert Scanned(t, stations, p, n, 0, oldWays[p], oldDistances[p], ways[p], distances[p]);
    }
  }

  /** Before any station is scanned nothing is found. */
  lemma ScanNone(t: Terrain, stations: seq<Pos>, p: Pos)
    ensures BestAmong(t, stations, 0, p, None, None)
  {
  }

  /**
   * One scan step: the planner's answer for station k either reports no
   * walk, or an optimal walk from that station; keeping the old best unless
   * the new walk is strictly cheaper gives the best among the first k + 1.
   */
  lemma ScanStep(t: Terrain, stations: seq<Pos>, k: nat, p: Pos,
                 best: Option<seq<Pos>>, bestDistance: Option<int>, found: Option<seq<Pos>>, distance: int)
    requires k < |stations| && BestAmong(t, stations, k, p, best, bestDistance)
    requires found.Some? ==> PathFromTo(t, found.value, stations[k], p) && distance == PathCost(t, found.value)
    requires found.Some? ==> forall q :: PathFromTo(t, q, stations[k], p) ==> distance <= PathCost(t, q)
    requires found.None? ==> !Reachable(t, stations[k], p)
    ensures var take := found.Some? && (bestDistance.None? || distance < bestDistance.value);
      BestAmong(t, stations, k + 1, p, if take then found else best,
                if take then Some(distance) else bestDistance)
  {
    var take := found.Some? && (bestDistance.None? || distance < bestDistance.value);
    if found.Some? {
      assert Reachable(t, stations[k], p);
    }
    if take {
      forall j, q | 0 <= j < k && PathFromTo(t, q, stations[j], p)
        ensures distance < PathCost(t, q)
      {
        assert Reachable(t, stations[j], p);
      }
      assert PathFromTo(t, found.value, stations[k], p);
    } else if best.Some? {
      var m :| 0 <= m < k && PathFromTo(t, best.value, stations[m], p)
        && forall j, q :: 0 <= j < m && PathFromTo(t, q, stations[j], p) ==> bestDistance.value < PathCost(t, q);
      assert 0 <= m < k + 1;
    } else {
      forall m | 0 <= m < k + 1
        ensures !Reachable(t, stations[m], p)
      {
        if m < k {
          assert !AnyReaches(t, stations, k, p);
        }
      }
    }
  }

  /**
   * The scan over the stations inside `initializeAllPaths` for the cell p:
   * a station's path replaces the best so far only when it exists and is
   * strictly cheaper, so the first of the cheapest stations wins.  None
   * stands for the `null` path and the `Double.MAX_VALUE` distance.
   */
  method ShortestFromStations(t: Terrain, chargingStations: seq<Pos>, p: Pos)
    returns (shortestPath: Option<seq<Pos>>, shortestDistance: Option<int>)
    requires InBounds(t.n, p) && forall k :: 0 <= k < |chargingStations| ==> InBounds(t.n, chargingStations[k])
    ensures BestAmong(t, chargingStations, |chargingStations|, p, shortestPath, shortestDistance)
  {
    shortestPath, shortestDistance := None, None;
    ScanNone(t, chargingStations, p);
    var k := 0;
    while k < |chargingStations|
      invariant k <= |chargingStations|
      invariant BestAmong(t, chargingStations, k, p, shortestPath, shortestDistance)
    {
      var pathFromStationAndDistance := LowestPowerPath(t, chargingStations[k], p);
      var pathFromStation := pathFromStationAndDistance.value.path;
      var distance := pathFromStationAndDistance.value.distance;
      ScanStep(t, chargingStations, k, p, shortestPath, shortestDistance, pathFromStation, distance);
      if pathFromStation.Some? && (shortestDistance.None? || distance < shortestDistance.value) {
        shortestDistance := Some(distance);
        shortestPath := pathFromStation;
      }
      k := k + 1;
    }
  }

  /** Splitting a walk at cell i: the cost before plus the cost after. */
  lemma {:induction false} PathCostSplit(t: Terrain, path: seq<Pos>, i: nat)
    requires i < |path|
    ensures PathCost(t, path) == PathCost(t, path[..i + 1]) + PathCost(t, path[i..])
    decreases |path|
  {
    if i == |path| - 1 {
      assert path[..i + 1] == path;
    } else {
      var init := path[..|path| - 1];
      PathCostSplit(t, init, i);
      SplitSlices(path, i);
    }
  }

  lemma SplitSlices(path: seq<Pos>, i: nat)
    requires i < |path| - 1
    ensures path[..|path| - 1][..i + 1] == path[..i + 1]
    ensures path[i..][..|path| - i - 1] == path[..|path| - 1][i..]
    ensures path[i..][|path| - i - 2] == path[|path| - 2] && path[i..][|path| - i - 1] == path[|path| - 1]
  {
  }

  /** A walk of two or more cells costs at least one power unit. */
  lemma PathCostPositive(t: Terrain, path: seq<Pos>)
    requires |path| >= 2
    ensures PathCost(t, path) >= 2
  {
    StepCostSymmetric(t, path[|path| - 2], path[|path| - 1]);
  }

  /**
   * A cheapest way from the stations meets no station after its first
   * cell: from a later station the rest of the walk would be cheaper.
   */
  lemma CheapestAvoidsStations(t: Terrain, stations: seq<Pos>, p: Pos, way: seq<Pos>, d: int, i: nat)
    requires FirstCheapest(t, stations, |stations|, p, way, d)
    requires 1 <= i < |way| && ValidPath(t, way) && way[|way| - 1] == p
    ensures way[i] !in stations
  {
    if way[i] in stations {
      var m :| 0 <= m < |stations| && stations[m] == way[i];
      var rest := way[i..];
      assert PathFromTo(t, rest, stations[m], p);
      PathCostSplit(t, way, i);
      PathCostPositive(t, way[..i + 1]);
    }
  }

  /**
   * The ways every cell holds after `initializeAllPaths` over a grid whose
   * cells started with none: this is what the navigation relies on.
   */
  lemma WaysReadyAfterInit(w: World, stations: seq<Pos>)
    requires forall s :: s in w.stations <==> s in stations
    requires forall p :: p in w.way ==> InBounds(w.terrain.n, p)
    requires forall p :: InBounds(w.terrain.n, p) ==>
      WayRecorded(w.terrain, stations, p, None, DistanceAt(w, p), WayAt(w, p), DistanceAt(w, p))
    ensures WaysReady(w)
  {
    var t := w.terrain;
    forall p | InBounds(t.n, p)
      ensures WayAt(w, p).Some? <==> StationReachable(w, p)
    {
      if AnyReaches(t, stations, |stations|, p) {
        var m :| 0 <= m < |stations| && Reachable(t, stations[m], p);
        assert stations[m] in w.stations;
      }
    }
    forall p | WayAt(w, p).Some?
      ensures WayShape(w, p, WayAt(w, p).value) && DistanceAt(w, p) == PathCost(t, WayAt(w, p).value)
    {
      var way, d := WayAt(w, p).value, DistanceAt(w, p);
      assert AnyReaches(t, stations, |stations|, p);
      var m :| 0 <= m < |stations| && PathFromTo(t, way, stations[m], p)
        && forall j, q :: 0 <= j < m && PathFromTo(t, q, stations[j], p) ==> d < PathCost(t, q);
      forall i | 1 <= i < |way|
        ensures way[i] !in w.stations
      {
        CheapestAvoidsStations(t, stations, p, way, d, i);
      }
    }
    forall p, s, path | WayAt(w, p).Some? && s in w.stations && PathFromTo(t, path, s, p)
      ensures DistanceAt(w, p) <= PathCost(t, path)
    {
      assert AnyReaches(t, stations, |stations|, p);
      var m :| 0 <= m < |stations| && stations[m] == s;
    }
  }

  /** A recorded way runs over the grid when the way it replaces did. */
  lemma RecordedOnGrid(t: Terrain, stations: seq<Pos>, p: Pos, oldWay: Option<seq<Pos>>, oldDistance: int,
                       way: Option<seq<Pos>>, distance: int)
    requires WayRecorded(t, stations, p, oldWay, oldDistance, way, distance)
    requires oldWay.Some? ==> forall i :: 0 <= i < |oldWay.value| ==> InBounds(t.n, oldWay.value[i])
    ensures way.Some? ==> forall i :: 0 <= i < |way.value| ==> InBounds(t.n, way.value[i])
  {
    if AnyReaches(t, stations, |stations|, p) {
      var m :| 0 <= m < |stations| && PathFromTo(t, way.value, stations[m], p)
        && forall j, q :: 0 <= j < m && PathFromTo(t, q, stations[j], p) ==> distance < PathCost(t, q);
    }
  }

  /**
   * After the ways are recorded over an unchanged terrain, `startNavigation`
   * leaves every position the service indexes on the grid.
   */
  lemma StartWf(w0: World, w: World, s: Robot, stations: seq<Pos>)
    requires Wf(w0, s) && w.terrain == w0.terrain && w.terrain.n >= 1
    requires forall p :: p in w.way ==> InBounds(w.terrain.n, p)
    requires forall p :: InBounds(w.terrain.n, p) ==>
      WayRecorded(w.terrain, stations, p, WayAt(w0, p), DistanceAt(w0, p), WayAt(w, p), DistanceAt(w, p))
    ensures Wf(w, Start(s))
  {
    forall p | WayAt(w, p).Some?
      ensures forall i :: 0 <= i < |WayAt(w, p).value| ==> InBounds(w.terrain.n, WayAt(w, p).value[i])
    {
      RecordedOnGrid(w.terrain, stations, p, WayAt(w0, p), DistanceAt(w0, p), WayAt(w, p), DistanceAt(w, p));
    }
    assert Trip(Start(s)) == Trip(s);
  }
}

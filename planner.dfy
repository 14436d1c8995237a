/**
 * The invariants of the lowest-power path search and the facts that make
 * it correct.
 *
 * The search keeps tentative distances (`dist`, a missing key is the
 * initial "infinite" distance), the set of settled cells (`visited`),
 * parent links and a priority queue of (distance, cell) entries that may
 * hold stale entries.  A ghost `rank` orders the parent links so that
 * following them from any cell ends at the start.
 */
module Planner {
  import opened Wrappers
  import opened Direction
  import opened Floor
  import opened Paths
  import opened Sensor

  /** A queue entry: a tentative distance and the cell it was offered for. */
  datatype Node = Node(dist: int, pos: Pos)

  /** What the search hands back: a path (None when there is none) and its cost. */
  datatype Found = Found(path: Option<seq<Pos>>, distance: int)

  /** The direction index j (in scan order) that leads from p to an adjacent q. */
  lemma NeighbourIndex(p: Pos, q: Pos) returns (j: nat)
    requires Adjacent(p, q)
    ensures j < |Values| && Move(p, Values[j]) == q
  {
    MovesAreAdjacency(p, q);
    var d :| Move(p, d) == q;
    j := Ordinal(d);
  }

  /** Every open neighbour of a member of S is in S. */
  ghost predicate Closed(t: Terrain, S: set<Pos>) {
    forall a, j :: a in S && 0 <= j < |Values| && Open(t, Move(a, Values[j])) ==> Move(a, Values[j]) in S
  }

  /** A walk that starts inside a closed set never leaves it. */
  lemma {:induction false} ClosedContainsPath(t: Terrain, S: set<Pos>, path: seq<Pos>)
    requires Closed(t, S) && ValidPath(t, path) && path[0] in S
    ensures forall i :: 0 <= i < |path| ==> path[i] in S
    decreases |path|
  {
    if |path| > 1 {
      var init := path[..|path| - 1];
      ClosedContainsPath(t, S, init);
      assert path[|path| - 2] == init[|init| - 1];
      var j := NeighbourIndex(path[|path| - 2], path[|path| - 1]);
      assert Open(t, Move(path[|path| - 2], Values[j]));
    }
  }

  /** A cell reachable from a member of a closed set belongs to it. */
  lemma ClosedContainsReachable(t: Terrain, S: set<Pos>, s: Pos, e: Pos)
    requires Closed(t, S) && s in S && Reachable(t, s, e)
    ensures e in S
  {
    var path :| PathFromTo(t, path, s, e);
    ClosedContainsPath(t, S, path);
  }

  /** A walk from inside S to outside S has a first step that leaves S. */
  lemma {:induction false} FirstExit(path: seq<Pos>, S: set<Pos>) returns (m: nat)
    requires |path| >= 1 && path[0] in S && path[|path| - 1] !in S
    ensures 1 <= m < |path| && path[m - 1] in S && path[m] !in S
    decreases |path|
  {
    if path[|path| - 2] in S {
      m := |path| - 1;
    } else {
      m := FirstExit(path[..|path| - 1], S);
    }
  }

  /**
   * Parent links: each child is open, adjacent to an in-bounds parent, and
   * ranked above it.
   */
  ghost predicate ParentLinks(t: Terrain, parent: map<Pos, Pos>, rank: map<Pos, nat>) {
    forall v :: v in parent ==>
      Open(t, v) && InBounds(t.n, parent[v]) && Adjacent(parent[v], v)
      && v in rank && parent[v] in rank && rank[parent[v]] < rank[v]
  }

  /** A child's tentative distance is its parent's plus the step between them. */
  ghost predicate DistAlongParents(t: Terrain, parent: map<Pos, Pos>, dist: map<Pos, int>) {
    forall v :: v in parent ==>
      v in dist && parent[v] in dist && dist[v] == dist[parent[v]] + StepCost(t, parent[v], v)
  }

  /** Where the start, the settled cells and the parent links sit among the tentative distances. */
  ghost predicate TreeShape(t: Terrain, start: Pos, dist: map<Pos, int>, visited: set<Pos>,
                            parent: map<Pos, Pos>, rank: map<Pos, nat>)
  {
    && InBounds(t.n, start) && start in dist && dist[start] == 0 && start in rank && start !in parent
    && (forall v :: v in dist ==> InBounds(t.n, v) && dist[v] >= 0)
    && visited <= dist.Keys
    && (visited != {} ==> start in visited)
    && (forall v :: v in dist && v != start ==> v in parent)
    && (forall v :: v in parent ==> parent[v] in visited)
  }

  /** The shape of the search state between queue polls. */
  ghost predicate SearchTree(t: Terrain, start: Pos, dist: map<Pos, int>, visited: set<Pos>,
                             parent: map<Pos, Pos>, rank: map<Pos, nat>)
  {
    TreeShape(t, start, dist, visited, parent, rank) && ParentLinks(t, parent, rank) && DistAlongParents(t, parent, dist)
  }

  /**
   * Every queue entry is no better than the cell's tentative distance, and
   * every unsettled cell with a distance is queued at exactly that distance.
   */
  ghost predicate QueueCovers(dist: map<Pos, int>, visited: set<Pos>, pq: seq<Node>) {
    && (forall k :: 0 <= k < |pq| ==> pq[k].pos in dist && pq[k].dist >= dist[pq[k].pos])
    && (forall v :: v in dist && v !in visited ==> Node(dist[v], v) in pq)
  }

  /** The move from a in direction d has been relaxed. */
  predicate RelaxedAt(t: Terrain, dist: map<Pos, int>, visited: set<Pos>, a: Pos, d: Direction) {
    a in dist &&
    var b := Move(a, d);
    Open(t, b) && b !in visited ==> b in dist && dist[b] <= dist[a] + StepCost(t, a, b)
  }

  /** Every settled cell is relaxed in all directions, except u, relaxed in the first k. */
  ghost predicate RelaxedUpTo(t: Terrain, dist: map<Pos, int>, visited: set<Pos>, u: Pos, k: int) {
    forall a, j :: a in visited && 0 <= j < |Values| && (a != u || j < k) ==> RelaxedAt(t, dist, visited, a, Values[j])
  }

  /** A settled cell's distance is no more than the cost of any walk from the start to it. */
  ghost predicate Settled(t: Terrain, start: Pos, dist: map<Pos, int>, visited: set<Pos>) {
    forall v, p :: v in visited && v in dist && PathFromTo(t, p, start, v) ==> dist[v] <= PathCost(t, p)
  }

  /** The loop invariant of the search between queue polls. */
  ghost predicate Searching(t: Terrain, start: Pos, dist: map<Pos, int>, visited: set<Pos>,
                            parent: map<Pos, Pos>, rank: map<Pos, nat>, pq: seq<Node>)
  {
    SearchTree(t, start, dist, visited, parent, rank) && QueueCovers(dist, visited, pq)
    && RelaxedUpTo(t, dist, visited, start, |Values|) && Settled(t, start, dist, visited)
  }

  /** The invariant while the moves out of the just-settled cell u are relaxed, the first j of them done. */
  ghost predicate Relaxing(t: Terrain, start: Pos, dist: map<Pos, int>, visited: set<Pos>,
                           parent: map<Pos, Pos>, rank: map<Pos, nat>, pq: seq<Node>, u: Pos, j: int)
  {
    SearchTree(t, start, dist, visited, parent, rank) && QueueCovers(dist, visited, pq)
    && RelaxedUpTo(t, dist, visited, u, j) && Settled(t, start, dist, visited) && u in visited
  }

  /** Settling one more cell leaves fewer unsettled ones: the outer loop of the search terminates. */
  lemma SettlingShrinks(all: set<Pos>, visited: set<Pos>, u: Pos)
    requires u in all && u !in visited
    ensures |all - (visited + {u})| < |all - visited|
  {
    assert all - visited == (all - (visited + {u})) + {u};
  }

  /** Index of an entry with the least distance. */
  function MinIndex(pq: seq<Node>): (i: nat)
    requires pq != []
    ensures i < |pq| && forall k :: 0 <= k < |pq| ==> pq[i].dist <= pq[k].dist
  {
    if |pq| == 1 then 0
    else
      var i := MinIndex(pq[1..]);
      if pq[0].dist <= pq[i + 1].dist then 0 else i + 1
  }

  /** Removing entry i from the queue takes out exactly one copy of it and keeps every other entry. */
  function RemoveAt(pq: seq<Node>, i: nat): (r: seq<Node>)
    requires i < |pq|
    ensures |r| == |pq| - 1
    ensures multiset(r) == multiset(pq) - multiset{pq[i]}
    ensures forall x :: x in pq && x != pq[i] ==> x in r
    ensures forall x :: x in r ==> x in pq
  {
    assert pq == pq[..i] + [pq[i]] + pq[i + 1..];
    assert forall x :: x in pq && x != pq[i] ==> x in pq[..i] || x in pq[i + 1..] by {
      forall x | x in pq && x != pq[i]
        ensures x in pq[..i] || x in pq[i + 1..]
      {
        var k :| 0 <= k < |pq| && pq[k] == x;
        if k < i { assert pq[..i][k] == x; } else { assert pq[i + 1..][k - i - 1] == x; }
      }
    }
    pq[..i] + pq[i + 1..]
  }

  /** A walk costs at least a prefix of it plus the step that follows the prefix. */
  lemma PathCostStep(t: Terrain, p: seq<Pos>, m: nat)
    requires 1 <= m < |p|
    ensures PathCost(t, p[..m]) + StepCost(t, p[m - 1], p[m]) <= PathCost(t, p)
  {
    assert p[..m + 1] == p[..m] + [p[m]];
    PathCostAppend(t, p[..m], p[m]);
    PathCostPrefix(t, p, m + 1);
  }

  /**
   * A walk from the settled start to an unsettled cell leaves the settled
   * cells at some step; the cell it steps onto has a tentative distance no
   * more than the walk's cost.
   */
  lemma ExitStep(t: Terrain, start: Pos, dist: map<Pos, int>, visited: set<Pos>, p: seq<Pos>, v: Pos)
    returns (b: Pos)
    requires start in visited && v !in visited && PathFromTo(t, p, start, v)
    requires RelaxedUpTo(t, dist, visited, start, |Values|) && Settled(t, start, dist, visited)
    ensures b in dist && b !in visited && dist[b] <= PathCost(t, p)
  {
    var m := FirstExit(p, visited);
    var a := p[m - 1];
    b := p[m];
    ValidPathPrefix(t, p, m);
    assert PathFromTo(t, p[..m], start, a);
    PathCostStep(t, p, m);
    var j := NeighbourIndex(a, b);
    assert RelaxedAt(t, dist, visited, a, Values[j]);
  }

  /** The least queue entry costs no more than any walk from the start to its unsettled cell. */
  lemma LeastEntryBound(t: Terrain, start: Pos, dist: map<Pos, int>, visited: set<Pos>,
                        pq: seq<Node>, i: nat, p: seq<Pos>)
    requires start in dist && dist[start] == 0 && (visited != {} ==> start in visited)
    requires QueueCovers(dist, visited, pq)
    requires RelaxedUpTo(t, dist, visited, start, |Values|) && Settled(t, start, dist, visited)
    requires i < |pq| && (forall k :: 0 <= k < |pq| ==> pq[i].dist <= pq[k].dist)
    requires pq[i].pos !in visited && PathFromTo(t, p, start, pq[i].pos)
    ensures pq[i].dist <= PathCost(t, p)
  {
    if start !in visited {
      assert Node(dist[start], start) in pq;
    } else {
      var b := ExitStep(t, start, dist, visited, p, pq[i].pos);
      assert Node(dist[b], b) in pq;
    }
  }

  /**
   * Dijkstra's key step: the unsettled cell polled with the least queue
   * distance has its final distance, no more than the cost of any walk
   * from the start to it.
   */
  lemma PollSettles(t: Terrain, start: Pos, dist: map<Pos, int>, visited: set<Pos>,
                    parent: map<Pos, Pos>, rank: map<Pos, nat>, pq: seq<Node>, i: nat)
    requires Searching(t, start, dist, visited, parent, rank, pq)
    requires i < |pq| && (forall k :: 0 <= k < |pq| ==> pq[i].dist <= pq[k].dist)
    requires pq[i].pos !in visited
    ensures pq[i].pos in dist && pq[i].dist == dist[pq[i].pos]
    ensures forall p :: PathFromTo(t, p, start, pq[i].pos) ==> dist[pq[i].pos] <= PathCost(t, p)
    ensures visited == {} ==> pq[i].pos == start
  {
    var u := pq[i].pos;
    assert Node(dist[u], u) in pq;
    forall p | PathFromTo(t, p, start, u)
      ensures dist[u] <= PathCost(t, p)
    {
      LeastEntryBound(t, start, dist, visited, pq, i, p);
    }
    if visited == {} {
      assert parent == map[];
    }
  }

  /** Polling an entry whose cell is already settled keeps the invariant. */
  lemma PollStale(t: Terrain, start: Pos, dist: map<Pos, int>, visited: set<Pos>,
                  parent: map<Pos, Pos>, rank: map<Pos, nat>, pq: seq<Node>, i: nat)
    requires Searching(t, start, dist, visited, parent, rank, pq)
    requires i < |pq| && pq[i].pos in visited
    ensures Searching(t, start, dist, visited, parent, rank, RemoveAt(pq, i))
  {
    var r := RemoveAt(pq, i);
    forall k | 0 <= k < |r|
      ensures r[k].pos in dist && r[k].dist >= dist[r[k].pos]
    {
      assert r[k] in pq;
    }
  }

  /** Settling a polled cell keeps the invariant, with that cell not yet relaxed. */
  lemma PollNew(t: Terrain, start: Pos, dist: map<Pos, int>, visited: set<Pos>,
                parent: map<Pos, Pos>, rank: map<Pos, nat>, pq: seq<Node>, i: nat)
    requires Searching(t, start, dist, visited, parent, rank, pq)
    requires i < |pq| && (forall k :: 0 <= k < |pq| ==> pq[i].dist <= pq[k].dist)
    requires pq[i].pos !in visited
    ensures Relaxing(t, start, dist, visited + {pq[i].pos}, parent, rank, RemoveAt(pq, i), pq[i].pos, 0)
    ensures pq[i].pos in dist && pq[i].dist == dist[pq[i].pos]
  {
    var u := pq[i].pos;
    var visited' := visited + {u};
    PollSettles(t, start, dist, visited, parent, rank, pq, i);
    var r := RemoveAt(pq, i);
    forall k | 0 <= k < |r|
      ensures r[k].pos in dist && r[k].dist >= dist[r[k].pos]
    {
      assert r[k] in pq;
    }
    forall a, j | a in visited' && 0 <= j < |Values| && a != u
      ensures RelaxedAt(t, dist, visited', a, Values[j])
    {
      assert RelaxedAt(t, dist, visited, a, Values[j]);
    }
  }

  /** A move that is not an improvement leaves the state as it is and counts as relaxed. */
  lemma RelaxSkip(t: Terrain, start: Pos, dist: map<Pos, int>, visited: set<Pos>,
                  parent: map<Pos, Pos>, rank: map<Pos, nat>, pq: seq<Node>, u: Pos, j: nat)
    requires Relaxing(t, start, dist, visited, parent, rank, pq, u, j) && j < |Values|
    requires var b := Move(u, Values[j]);
      !Open(t, b) || b in visited || (b in dist && dist[u] + StepCost(t, u, b) >= dist[b])
    ensures Relaxing(t, start, dist, visited, parent, rank, pq, u, j + 1)
  {
    assert RelaxedAt(t, dist, visited, u, Values[j]);
  }

  /** Linking b under a parent other than b's children keeps the links ranked. */
  lemma ImproveKeepsLinks(t: Terrain, parent: map<Pos, Pos>, rank: map<Pos, nat>, u: Pos, b: Pos)
    requires ParentLinks(t, parent, rank) && u in rank && InBounds(t.n, u)
    requires Open(t, b) && Adjacent(u, b) && forall v :: v in parent ==> parent[v] != b
    ensures ParentLinks(t, parent[b := u], rank[b := rank[u] + 1])
  {
  }

  /** A new distance for b, a cell nobody hangs from, agrees with its new parent. */
  lemma ImproveKeepsDistances(t: Terrain, parent: map<Pos, Pos>, dist: map<Pos, int>, u: Pos, b: Pos)
    requires DistAlongParents(t, parent, dist) && u in dist && u != b
    requires forall v :: v in parent ==> parent[v] != b
    ensures DistAlongParents(t, parent[b := u], dist[b := dist[u] + StepCost(t, u, b)])
  {
  }

  /** Linking an unsettled open cell b under a settled cell u keeps the tree's shape. */
  lemma ImproveKeepsShape(t: Terrain, start: Pos, dist: map<Pos, int>, visited: set<Pos>,
                          parent: map<Pos, Pos>, rank: map<Pos, nat>, u: Pos, b: Pos, nd: nat)
    requires TreeShape(t, start, dist, visited, parent, rank) && u in visited && u in rank && Open(t, b) && b !in visited
    ensures forall v :: v in parent ==> parent[v] != b
    ensures TreeShape(t, start, dist[b := nd], visited, parent[b := u], rank[b := rank[u] + 1])
  {
  }

  /** Recording a cheaper distance for an unsettled open neighbour keeps the tree shape. */
  lemma ImproveKeepsTree(t: Terrain, start: Pos, dist: map<Pos, int>, visited: set<Pos>,
                         parent: map<Pos, Pos>, rank: map<Pos, nat>, u: Pos, b: Pos)
    requires u in visited && SearchTree(t, start, dist, visited, parent, rank)
    requires Open(t, b) && Adjacent(u, b) && b !in visited
    ensures u in rank
    ensures var nd := dist[u] + StepCost(t, u, b);
      SearchTree(t, start, dist[b := nd], visited, parent[b := u], rank[b := rank[u] + 1])
  {
    assert u == start || u in parent;
    ImproveKeepsShape(t, start, dist, visited, parent, rank, u, b, dist[u] + StepCost(t, u, b));
    ImproveKeepsLinks(t, parent, rank, u, b);
    ImproveKeepsDistances(t, parent, dist, u, b);
  }

  /** ... and keeps every unsettled cell queued at its distance. */
  lemma ImproveKeepsQueue(dist: map<Pos, int>, visited: set<Pos>, pq: seq<Node>, b: Pos, nd: int)
    requires QueueCovers(dist, visited, pq)
    requires b !in dist || nd < dist[b]
    ensures QueueCovers(dist[b := nd], visited, pq + [Node(nd, b)])
  {
    var dist', pq' := dist[b := nd], pq + [Node(nd, b)];
    forall v | v in dist' && v !in visited
      ensures Node(dist'[v], v) in pq'
    {
      if v != b { assert Node(dist[v], v) in pq; }
      else { assert pq'[|pq|] == Node(nd, b); }
    }
    forall k | 0 <= k < |pq'|
      ensures pq'[k].pos in dist' && pq'[k].dist >= dist'[pq'[k].pos]
    {
      if k < |pq| { assert pq'[k] == pq[k]; }
    }
  }

  /** ... relaxes the move from u in direction j and keeps settled distances. */
  lemma ImproveRelaxes(t: Terrain, start: Pos, dist: map<Pos, int>, visited: set<Pos>, u: Pos, j: nat)
    requires u in visited && j < |Values| && visited <= dist.Keys
    requires RelaxedUpTo(t, dist, visited, u, j) && Settled(t, start, dist, visited)
    requires var b := Move(u, Values[j]);
      b !in visited && (b !in dist || dist[u] + StepCost(t, u, b) < dist[b])
    ensures var b := Move(u, Values[j]); var dist' := dist[b := dist[u] + StepCost(t, u, b)];
      RelaxedUpTo(t, dist', visited, u, j + 1) && Settled(t, start, dist', visited)
  {
    var b := Move(u, Values[j]);
    var dist' := dist[b := dist[u] + StepCost(t, u, b)];
    forall a, i | a in visited && 0 <= i < |Values| && (a != u || i < j + 1)
      ensures RelaxedAt(t, dist', visited, a, Values[i])
    {
      if a != u || i < j { assert RelaxedAt(t, dist, visited, a, Values[i]); }
    }
  }

  /**
   * Relaxing move j out of u: when the move reaches an open, unsettled cell
   * b at cost nd below b's tentative distance, record nd, link b to u and
   * queue b; otherwise change nothing.  Either way the move is relaxed.
   */
  lemma RelaxImproves(t: Terrain, start: Pos, dist: map<Pos, int>, visited: set<Pos>,
                      parent: map<Pos, Pos>, rank: map<Pos, nat>, pq: seq<Node>, u: Pos, j: nat, b: Pos, nd: int)
    requires Relaxing(t, start, dist, visited, parent, rank, pq, u, j) && j < |Values|
    requires b == Move(u, Values[j]) && Open(t, b) && b !in visited
    requires nd == dist[u] + StepCost(t, u, b) && (b !in dist || nd < dist[b])
    ensures u in rank
    ensures Relaxing(t, start, dist[b := nd], visited, parent[b := u], rank[b := rank[u] + 1], pq + [Node(nd, b)], u, j + 1)
  {
    ImproveKeepsTree(t, start, dist, visited, parent, rank, u, b);
    ImproveKeepsQueue(dist, visited, pq, b, nd);
    ImproveRelaxes(t, start, dist, visited, u, j);
  }

  /** With all four moves out of u relaxed the search invariant holds again. */
  lemma RelaxDone(t: Terrain, start: Pos, dist: map<Pos, int>, visited: set<Pos>,
                  parent: map<Pos, Pos>, rank: map<Pos, nat>, pq: seq<Node>, u: Pos)
    requires Relaxing(t, start, dist, visited, parent, rank, pq, u, |Values|)
    ensures Searching(t, start, dist, visited, parent, rank, pq)
  {
  }

  /**
   * Once the target is settled its distance is final, and every cell with
   * a distance hangs from the tree of parent links rooted at the start.
   */
  lemma TargetSettled(t: Terrain, start: Pos, dist: map<Pos, int>, visited: set<Pos>,
                      parent: map<Pos, Pos>, rank: map<Pos, nat>, pq: seq<Node>, u: Pos, target: Pos)
    requires Relaxing(t, start, dist, visited, parent, rank, pq, u, 0) && target in visited
    ensures ParentLinks(t, parent, rank) && DistAlongParents(t, parent, dist)
    ensures start in dist && dist[start] == 0 && target in dist
    ensures forall v :: v in dist && v != start ==> v in parent
    ensures forall q :: PathFromTo(t, q, start, target) ==> dist[target] <= PathCost(t, q)
  {
  }

  /**
   * When the queue runs dry the settled cells are closed under open moves,
   * so a target never settled cannot be reached.
   */
  lemma ExhaustedUnreachable(t: Terrain, start: Pos, dist: map<Pos, int>, visited: set<Pos>,
                             parent: map<Pos, Pos>, rank: map<Pos, nat>, target: Pos)
    requires Searching(t, start, dist, visited, parent, rank, [])
    requires target !in visited
    ensures !Reachable(t, start, target)
  {
    assert dist.Keys <= visited;
    forall a, j | a in visited && 0 <= j < |Values| && Open(t, Move(a, Values[j]))
      ensures Move(a, Values[j]) in visited
    {
      assert RelaxedAt(t, dist, visited, a, Values[j]);
    }
    if Reachable(t, start, target) {
      ClosedContainsReachable(t, visited, start, target);
    }
  }

  // ---------------------------------------------------------------------
  // The search itself
  // ---------------------------------------------------------------------

  /**
   * Dijkstra's search from start to target over the open cells of t: poll
   * a least entry, skip it when its cell is settled, settle it, stop at the
   * target, and otherwise relax the four moves out of it in scan order.  A
   * settled target's path is rebuilt from the parent links; an exhausted
   * queue means there is no path, reported with distance 0.
   */
  method LowestPowerPath(t: Terrain, start: Pos, target: Pos) returns (r: Option<Found>)
    requires InBounds(t.n, start) && InBounds(t.n, target)
    ensures r.Some?
    ensures match r.value.path
      case Some(path) =>
        PathFromTo(t, path, start, target) && r.value.distance == PathCost(t, path)
        && forall q :: PathFromTo(t, q, start, target) ==> r.value.distance <= PathCost(t, q)
      case None => r.value.distance == 0 && !Reachable(t, start, target)
  {
    var distances: map<Pos, int> := map[start := 0];
    var visited: set<Pos> := {};
    var parent: map<Pos, Pos> := map[];
    ghost var rank: map<Pos, nat> := map[start := 0];
    var pq: seq<Node> := [Node(0, start)];
    while pq != []
      invariant Searching(t, start, distances, visited, parent, rank, pq)
      invariant target !in visited
      decreases |Positions(t.n) - visited|, |pq|
    {
      ghost var least := MinIndex(pq);
      var i :| 0 <= i < |pq| && forall k :: 0 <= k < |pq| ==> pq[i].dist <= pq[k].dist;
      var current := pq[i];
      var currentCost := current.dist;
      var u := current.pos;
      if u in visited {
        PollStale(t, start, distances, visited, parent, rank, pq, i);
        pq := RemoveAt(pq, i);
        continue;
      }
      PollNew(t, start, distances, visited, parent, rank, pq, i);
      SettlingShrinks(Positions(t.n), visited, u);
      pq := RemoveAt(pq, i);
      visited := visited + {u};
      if u == target {
        TargetSettled(t, start, distances, visited, parent, rank, pq, u, target);
        r := ReconstructPath(t, parent, start, target, rank, distances);
        return;
      }
      var j := 0;
      while j < |Values|
        invariant 0 <= j <= |Values|
        invariant Relaxing(t, start, distances, visited, parent, rank, pq, u, j)
        invariant u in distances && distances[u] == currentCost && target !in visited
      {
        var b := Move(u, Values[j]);
        if InBounds(t.n, b) && b !in visited && b !in t.blocked {
          var newDist := currentCost + MovingPowerCost(Some(FloorOf(t, u)), FloorOf(t, b));
          if b !in distances || newDist < distances[b] {
            RelaxImproves(t, start, distances, visited, parent, rank, pq, u, j, b, newDist);
            distances := distances[b := newDist];
            parent := parent[b := u];
            rank := rank[b := rank[u] + 1];
            pq := pq + [Node(newDist, b)];
          } else {
            RelaxSkip(t, start, distances, visited, parent, rank, pq, u, j);
          }
        } else {
          RelaxSkip(t, start, distances, visited, parent, rank, pq, u, j);
        }
        j := j + 1;
      }
      RelaxDone(t, start, distances, visited, parent, rank, pq, u);
    }
    ExhaustedUnreachable(t, start, distances, visited, parent, rank, target);
    r := Some(Found(None, 0));
  }

  /**
   * `reconstructPath`: follows the parent links from the target back to
   * the start, adding the moving cost of each link.  It answers None (the
   * source's `null`) when a cell on the way has no parent; when every cell
   * with a distance other than the start has one, it answers the walk to
   * the target and that walk's cost, the target's distance.
   */
  method ReconstructPath(t: Terrain, parent: map<Pos, Pos>, start: Pos, target: Pos,
                         ghost rank: map<Pos, nat>, ghost dist: map<Pos, int>)
    returns (r: Option<Found>)
    requires ParentLinks(t, parent, rank) && DistAlongParents(t, parent, dist)
    requires InBounds(t.n, target) && start in dist && dist[start] == 0
    ensures r.Some? ==>
      && r.value.path.Some? && target in dist && PathFromTo(t, r.value.path.value, start, target)
      && r.value.distance == PathCost(t, r.value.path.value) == dist[target]
    ensures target in dist && (forall v :: v in dist && v != start ==> v in parent) ==> r.Some?
  {
    var path: seq<Pos> := [];
    var current := target;
    var distance := 0;
    while current != start
      invariant InBounds(t.n, current)
      invariant PathFromTo(t, [current] + path, current, target) && distance == PathCost(t, [current] + path)
      invariant target in dist ==> current in dist && dist[target] == dist[current] + distance
      invariant target !in dist ==> current == target
      decreases if current in rank then rank[current] + 1 else 0
    {
      path := [current] + path;
      if current !in parent {
        return None;
      }
      var p := parent[current];
      StepCostSymmetric(t, p, current);
      distance := distance + MovingPowerCost(Some(FloorOf(t, current)), FloorOf(t, p));
      PathCostPrepend(t, p, path);
      assert ([p] + path)[1..] == path;
      current := p;
    }
    path := [start] + path;
    r := Some(Found(Some(path), distance));
  }
}

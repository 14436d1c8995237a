/**
 * What one step of the navigation engine keeps: `Inv` holds after
 * `startNavigation` and is preserved by every step.  The consequences for
 * whole runs (coverage of the reachable floor, no stalls, no exception)
 * are stated in `Runs`.
 */
module TraversalFacts {
  import opened Wrappers
  import opened Direction
  import opened Cells
  import opened Floor
  import opened Sensor
  import opened Paths
  import opened Battery
  import opened Dirt
  import opened Planner
  import opened Traversal

  /** Cleaning one dirty cell removes exactly that cell from the dirty set. */
  lemma DirtyAfterClean(dirt: map<Pos, int>, c: Pos)
    requires c in dirt && dirt[c] > 0
    ensures Dirty(dirt[c := 0]) == Dirty(dirt) - {c}
    ensures |Dirty(dirt[c := 0])| == |Dirty(dirt)| - 1
  {
    assert Dirty(dirt[c := 0]) == Dirty(dirt) - {c};
  }

  /** Serving the top frame keeps the invariant; the robot then stands on the top cell. */
  lemma ServeKeeps(w: World, s: Robot)
    requires WorldOk(w) && WaysShaped(w) && Sound(w, s) && |Trip(s)| == 0 && s.cleaning && !s.completed && s.stack != []
    requires Top(s.stack).cur !in w.terrain.blocked
    ensures var s2 := Serve(w, s.(cur := Top(s.stack).cur), Top(s.stack));
      Sound(w, s2) && s2.cur == Top(s2.stack).cur && s2.stack == s.stack && |Trip(s2)| == 0
      && s2.cleaning && !s2.completed
  {
    var e := Top(s.stack);
    var s1 := s.(cur := e.cur);
    var s2 := Serve(w, s1, e);
    var level := DirtAt(s1, e.cur);
    assert e.cur in s.marks.dirt;
    ConsumedStaysCharged(s.battery, ServeCost(w, e.prev, e.cur, level), w.fullCharge);
    AfterCleanFacts(w.capacity, s.bin, level);
    if CanClean(w.capacity, s.bin, level) {
      DirtyAfterClean(s.marks.dirt, e.cur);
    } else {
      assert s2.marks.dirt == s.marks.dirt;
    }
    assert Supplies(w, s2);
    assert CoverageOk(w, s2);
  }

  /** Heading home from the top cell keeps the invariant. */
  lemma GoHomeKeeps(w: World, s: Robot)
    requires WorldOk(w) && WaysShaped(w) && Sound(w, s) && s.stack != [] && s.cur == Top(s.stack).cur && |Trip(s)| == 0 && !s.completed
    ensures Sound(w, GoHome(w, s, s.cur))
  {
    var c := s.cur;
    var way := WayAt(w, c).value;
    var s1 := s.(lastCleaning := c, stack := if CleanAll(w, s) then [] else s.stack, cleaning := false);
    var s3 := HeadFor(w, s1, way);
    assert Reverse(way)[0] == c;
    assert TripOk(w, s3);
    assert StackOk(w, s3);
    assert CoverageOk(w, s3);
  }

  /** Pushing the first free neighbour keeps the invariant. */
  lemma PushKeeps(w: World, s: Robot, q: Pos)
    requires WorldOk(w) && WaysComplete(w) && WaysShaped(w) && Sound(w, s) && s.stack != [] && s.cur == Top(s.stack).cur && |Trip(s)| == 0 && !s.completed
    requires FirstFree(w, s.marks.visited, s.cur, 0) == Some(q)
    ensures Sound(w, Advance(w, s))
  {
    var s' := s.(stack := s.stack + [Entry(Some(s.cur), q)], marks := s.marks.(visited := s.marks.visited + {q}));
    assert Advance(w, s) == s';
    assert Open(w.terrain, q) && Adjacent(s.cur, q);
    assert WayAt(w, q).Some? by {
      var p := s.cur;
      assert WayAt(w, p).Some?;
      var st :| st in w.stations && Reachable(w.terrain, st, p);
      ReachableStep(w.terrain, st, p, q);
    }
    PushStack(w, s, q);
    PushCovers(w, s, Entry(Some(s.cur), q));
  }

  /** The pushed frame links to the old top and leads to an open, visited cell that has a way home. */
  lemma PushStack(w: World, s: Robot, q: Pos)
    requires Wf(w, s) && StackOk(w, s) && s.stack != [] && s.cur == Top(s.stack).cur
    requires Open(w.terrain, q) && Adjacent(s.cur, q) && WayAt(w, q).Some?
    ensures var s' := s.(stack := s.stack + [Entry(Some(s.cur), q)], marks := s.marks.(visited := s.marks.visited + {q}));
      StackOk(w, s') && Wf(w, s')
  {
    var s' := s.(stack := s.stack + [Entry(Some(s.cur), q)], marks := s.marks.(visited := s.marks.visited + {q}));
    forall i | 1 <= i < |s'.stack|
      ensures s'.stack[i].prev == Some(s'.stack[i - 1].cur) && Adjacent(s'.stack[i - 1].cur, s'.stack[i].cur)
    {
      if i < |s.stack| { assert s'.stack[i] == s.stack[i] && s'.stack[i - 1] == s.stack[i - 1]; }
    }
    forall i | 0 <= i < |s'.stack|
      ensures s'.stack[i].cur in s'.marks.visited && Open(w.terrain, s'.stack[i].cur) && WayAt(w, s'.stack[i].cur).Some?
    {
      if i < |s.stack| { assert s'.stack[i] == s.stack[i]; }
    }
    assert StackOk(w, s');
    assert Trip(s') == Trip(s);
    assert Wf(w, s');
  }

  /** Pushing a frame for a newly visited cell keeps every visited cell on the stack or explored. */
  lemma PushCovers(w: World, s: Robot, e: Entry)
    requires CoverageOk(w, s)
    ensures CoverageOk(w, s.(stack := s.stack + [e], marks := s.marks.(visited := s.marks.visited + {e.cur})))
  {
    var s' := s.(stack := s.stack + [e], marks := s.marks.(visited := s.marks.visited + {e.cur}));
    if s.bin.cleaned < w.dirtTotal {
      forall v | v in s'.marks.visited
        ensures OnStack(s'.stack, v) || Explored(w, s'.marks.visited, v)
      {
        if v == e.cur {
          assert s'.stack[|s.stack|].cur == v;
        } else if OnStack(s.stack, v) {
          var i :| 0 <= i < |s.stack| && s.stack[i].cur == v;
          assert s'.stack[i].cur == v;
        } else {
          assert Explored(w, s.marks.visited, v);
        }
      }
    }
  }

  /** After popping a fully explored top, the visited cells off the stack are still explored. */
  lemma PopCovers(w: World, s: Robot)
    requires CoverageOk(w, s) && s.stack != [] && s.cur == Top(s.stack).cur
    requires FirstFree(w, s.marks.visited, s.cur, 0).None?
    ensures CoverageOk(w, s.(stack := Pop(s.stack)))
  {
    var s' := s.(stack := Pop(s.stack));
    if s.bin.cleaned < w.dirtTotal {
      forall v | v in s'.marks.visited
        ensures OnStack(s'.stack, v) || Explored(w, s'.marks.visited, v)
      {
        if v == s.cur {
          forall x | x in OpenNeighbours(w.terrain, v)
            ensures x in s'.marks.visited
          {
            var j :| 0 <= j < |Values| && Open(w.terrain, Move(v, Values[j])) && x == Move(v, Values[j]);
            assert !Free(w, s.marks.visited, Move(s.cur, Values[j]));
          }
        } else if OnStack(s.stack, v) {
          var i :| 0 <= i < |s.stack| && s.stack[i].cur == v;
          assert i < |s'.stack| && s'.stack[i].cur == v;
        }
      }
    }
  }

  /** Popping a frame above the first leaves the robot next to the new top. */
  lemma PopStack(w: World, s: Robot)
    requires StackOk(w, s) && |s.stack| > 1 && s.cur == Top(s.stack).cur && |Trip(s)| == 0
    ensures StackOk(w, s.(stack := Pop(s.stack)))
  {
    var k := |s.stack| - 1;
    assert Adjacent(s.stack[k - 1].cur, s.stack[k].cur);
    MovesAreAdjacency(s.stack[k - 1].cur, s.stack[k].cur);
  }

  /** Popping down to a non-empty stack keeps the invariant. */
  lemma PopToFrame(w: World, s: Robot)
    requires WorldOk(w) && WaysShaped(w) && Sound(w, s) && s.stack != [] && s.cur == Top(s.stack).cur && |Trip(s)| == 0 && !s.completed
    requires |s.stack| > 1 && CoverageOk(w, s.(stack := Pop(s.stack)))
    ensures Sound(w, s.(stack := Pop(s.stack)))
  {
    PopStack(w, s);
  }

  /** Popping the last frame at a station completes the navigation. */
  lemma PopToEmptyHome(w: World, s: Robot)
    requires WorldOk(w) && WaysShaped(w) && Sound(w, s) && s.stack != [] && s.cur == Top(s.stack).cur && |Trip(s)| == 0 && !s.completed
    requires |s.stack| == 1 && CoverageOk(w, s.(stack := Pop(s.stack)))
    ensures s.cur == Origin
    ensures var r := Finish(w, s.(stack := Pop(s.stack)));
      r.completed && r.cur == Origin && r.stack == [] && Sound(w, r)
  {
    var s' := s.(stack := Pop(s.stack));
    assert s.cur == Origin by {
      assert s.stack[0] == Entry(None, Origin);
    }
    assert Origin in CornerSet(w.terrain.n);
    var r := s'.(completed := true);
    assert s'.stack == [];
    assert Finish(w, s') == r;
    assert CoverageOk(w, r) && StackOk(w, r) && TripOk(w, r) && ModeOk(r);
  }

  /** Popping a fully explored top keeps the invariant once the empty-stack rule has run. */
  lemma PopKeeps(w: World, s: Robot)
    requires WorldOk(w) && WaysComplete(w) && WaysShaped(w) && Sound(w, s) && s.stack != [] && s.cur == Top(s.stack).cur && |Trip(s)| == 0 && !s.completed
    requires FirstFree(w, s.marks.visited, s.cur, 0).None?
    ensures Sound(w, Advance(w, s))
  {
    PopCovers(w, s);
    if |s.stack| > 1 {
      PopToFrame(w, s);
    } else {
      PopToEmptyHome(w, s);
    }
  }

  /** A sweeping step keeps the invariant. */
  lemma CleaningKeeps(w: World, s: Robot)
    requires WorldOk(w) && WaysComplete(w) && WaysShaped(w) && Sound(w, s) && |Trip(s)| == 0 && s.cleaning
    ensures Sound(w, CleaningStep(w, s))
  {
    if s.stack != [] && !s.completed {
      var e := Top(s.stack);
      var s2 := Serve(w, s.(cur := e.cur), e);
      ServeKeeps(w, s);
      if ReturnNeeded(w, s2, e.cur) {
        GoHomeKeeps(w, s2);
      } else {
        match FirstFree(w, s2.marks.visited, s2.cur, 0)
        case Some(q) => PushKeeps(w, s2, q);
        case None => PopKeeps(w, s2);
      }
    }
  }

  /** On a trip to a station, the only station is its last cell. */
  lemma TripStationAtEnd(w: World, s: Robot)
    requires WaysShaped(w) && TripOk(w, s) && |Trip(s)| > 0 && !s.returning
    requires Trip(s)[s.stationIdx] in w.stations
    ensures s.stationIdx == |Trip(s)| - 1
    ensures Trip(s)[s.stationIdx] == WayAt(w, s.lastCleaning).value[0]
  {
    var way := WayAt(w, s.lastCleaning).value;
    assert Trip(s)[s.stationIdx] == way[|way| - 1 - s.stationIdx];
  }

  /** Arriving at a station leaves the robot on the grid, charged, with an empty bin, and in a consistent mode. */
  lemma ArriveSupplies(w: World, s: Robot)
    requires WorldOk(w) && Wf(w, s) && Supplies(w, s) && ModeOk(s) && s.stationIdx < |Trip(s)|
    ensures var r := Arrive(w, TripMove(w, s)); Wf(w, r) && Supplies(w, r) && ModeOk(r)
  {
    var s1 := TripMove(w, s);
    TripMoveSupplies(w, s, s.stationIdx);
    assert s1.(stationIdx := s.stationIdx) == s1;
    var r := Arrive(w, s1);
    if s.stack == [] {
      assert r == s1.(bin := s.bin.(load := 0), battery := w.fullCharge, completed := true, stationPath := None, stationIdx := 0);
    } else if WayAt(w, s.lastCleaning).Some? {
      var way := WayAt(w, s.lastCleaning).value;
      assert r == s1.(bin := s.bin.(load := 0), battery := w.fullCharge, cleaning := true,
                      stationPath := Some(way), stationIdx := 0, returning := true);
    } else {
      assert r == s1.(bin := s.bin.(load := 0), battery := w.fullCharge, cleaning := true);
    }
  }

  /** Arriving at a station either ends the navigation or turns the trip round towards where cleaning stopped. */
  lemma ArriveTrip(w: World, s: Robot)
    requires WaysShaped(w) && StackOk(w, s) && CoverageOk(w, s) && TripOk(w, s) && |Trip(s)| > 0 && !s.returning
    requires Trip(s)[s.stationIdx] in w.stations
    ensures var r := Arrive(w, TripMove(w, s)); StackOk(w, r) && CoverageOk(w, r) && TripOk(w, r)
  {
    TripStationAtEnd(w, s);
    var s1 := TripMove(w, s);
    var r := Arrive(w, s1);
    CoverageFrame(w, s, r);
    if s.stack == [] {
      assert r == s1.(bin := s.bin.(load := 0), battery := w.fullCharge, completed := true, stationPath := None, stationIdx := 0);
    } else {
      var way := WayAt(w, s.lastCleaning).value;
      assert r == s1.(bin := s.bin.(load := 0), battery := w.fullCharge, cleaning := true,
                      stationPath := Some(way), stationIdx := 0, returning := true);
      assert StackOk(w, r);
    }
  }

  /** Arriving at a station keeps the invariant. */
  lemma ArriveKeeps(w: World, s: Robot)
    requires WorldOk(w) && WaysShaped(w) && Sound(w, s) && |Trip(s)| > 0 && !s.returning
    requires Trip(s)[s.stationIdx] in w.stations
    ensures Sound(w, Arrive(w, TripMove(w, s)))
  {
    ArriveSupplies(w, s);
    ArriveTrip(w, s);
  }

  /** Reaching the cell where cleaning stopped ends the trip back and the sweep resumes there. */
  lemma WalkBackKeeps(w: World, s: Robot)
    requires WorldOk(w) && WaysShaped(w) && Sound(w, s) && |Trip(s)| > 0 && s.returning && Trip(s)[s.stationIdx] == s.lastCleaning
    ensures Sound(w, TripMove(w, s).(stationPath := None, stationIdx := 0, returning := false))
  {
    var r := TripMove(w, s).(stationPath := None, stationIdx := 0, returning := false);
    assert r.battery == s.battery;
    assert StackOk(w, r);
  }

  /** Any other cell of a trip is followed by another, and moving on keeps the trip consistent. */
  lemma WalkOnTrip(w: World, s: Robot)
    requires WaysShaped(w) && Wf(w, s) && TripOk(w, s) && |Trip(s)| > 0
    requires !(Trip(s)[s.stationIdx] in w.stations && !s.returning)
    requires !(s.returning && Trip(s)[s.stationIdx] == s.lastCleaning)
    ensures s.stationIdx < |Trip(s)| - 1
    ensures TripOk(w, TripMove(w, s).(stationIdx := s.stationIdx + 1))
  {
    var path := Trip(s);
    var way := WayAt(w, s.lastCleaning).value;
    assert WayShape(w, s.lastCleaning, way);
    if !s.returning {
      assert path[|path| - 1] == way[0];
    }
  }

  /** The coverage invariant reads only the cleaned count, the visited cells and the stack. */
  lemma CoverageFrame(w: World, s: Robot, r: Robot)
    requires CoverageOk(w, s) && r.bin.cleaned == s.bin.cleaned && r.marks.visited == s.marks.visited && r.stack == s.stack
    ensures CoverageOk(w, r)
  {
  }

  /** The stack invariant on a trip reads only the stack and the visited cells. */
  lemma StackFrameOnTrip(w: World, s: Robot, r: Robot)
    requires StackOk(w, s) && r.marks.visited == s.marks.visited && r.stack == s.stack && |Trip(r)| > 0
    ensures StackOk(w, r)
  {
  }

  /** A step onto a trip cell keeps the robot on the grid and charged. */
  lemma TripMoveSupplies(w: World, s: Robot, idx: nat)
    requires Wf(w, s) && Supplies(w, s) && s.stationIdx < |Trip(s)|
    ensures Wf(w, TripMove(w, s).(stationIdx := idx)) && Supplies(w, TripMove(w, s).(stationIdx := idx))
  {
    ConsumedStaysCharged(s.battery, TripStepCost(w, Trip(s), s.stationIdx), w.fullCharge);
  }

  /** Moving on along a trip keeps the invariant. */
  lemma WalkOnKeeps(w: World, s: Robot)
    requires WorldOk(w) && WaysShaped(w) && Sound(w, s) && |Trip(s)| > 0
    requires !(Trip(s)[s.stationIdx] in w.stations && !s.returning)
    requires !(s.returning && Trip(s)[s.stationIdx] == s.lastCleaning)
    ensures s.stationIdx < |Trip(s)| - 1
    ensures Sound(w, TripMove(w, s).(stationIdx := s.stationIdx + 1))
  {
    var r := TripMove(w, s).(stationIdx := s.stationIdx + 1);
    TripMoveSupplies(w, s, s.stationIdx + 1);
    WalkOnTrip(w, s);
    StackFrameOnTrip(w, s, r);
    CoverageFrame(w, s, r);
  }

  /** Any other step along a trip keeps the invariant. */
  lemma WalkKeeps(w: World, s: Robot)
    requires WorldOk(w) && WaysShaped(w) && Sound(w, s) && |Trip(s)| > 0
    requires !(Trip(s)[s.stationIdx] in w.stations && !s.returning)
    ensures Sound(w, StationStep(w, s))
  {
    if s.returning && Trip(s)[s.stationIdx] == s.lastCleaning {
      WalkBackKeeps(w, s);
      assert StationStep(w, s) == TripMove(w, s).(stationPath := None, stationIdx := 0, returning := false);
    } else {
      WalkOnKeeps(w, s);
      assert StationStep(w, s) == TripMove(w, s).(stationIdx := s.stationIdx + 1);
    }
  }

  /** One step of `stepNavigation` keeps the invariant. */
  lemma StepKeeps(w: World, s: Robot)
    requires Inv(w, s)
    ensures Inv(w, StepNav(w, s))
  {
    if |Trip(s)| > 0 {
      if Trip(s)[s.stationIdx] in w.stations && !s.returning {
        ArriveKeeps(w, s);
      } else {
        WalkKeeps(w, s);
      }
    } else if s.cleaning {
      CleaningKeeps(w, s);
    }
  }

  /** The step from k - 1 to k steps keeps the invariant. */
  lemma RunStepKeeps(w: World, s: Robot, k: nat)
    requires k > 0 && Inv(w, Run(w, s, k - 1))
    ensures Inv(w, Run(w, s, k))
  {
    StepKeeps(w, Run(w, s, k - 1));
  }

  /**
   * The robot as the service starts out: an empty stack and station list,
   * at the origin, fully charged, the bin empty, cleaning on, nothing
   * visited, and the generated dirt on the floor.
   */
  ghost predicate Fresh(w: World, s: Robot) {
    && s.stack == [] && s.stationPath == Some([]) && s.stationIdx == 0 && !s.completed
    && s.cur == Origin && s.lastCleaning == Origin && !s.returning
    && s.battery == w.fullCharge && s.bin == Bin(0, 0) && s.cleaning
    && s.marks.visited == {} && s.marks.dirt.Keys == Positions(w.terrain.n) && |Dirty(s.marks.dirt)| == w.dirtTotal
  }

  /** `startNavigation` on a fresh robot, once the ways are ready, establishes the invariant. */
  lemma StartKeeps(w: World, s: Robot)
    requires WorldOk(w) && WaysReady(w) && Fresh(w, s)
    ensures Inv(w, Start(s))
  {
    var r := Start(s);
    assert Origin in CornerSet(w.terrain.n);
    assert PathFromTo(w.terrain, [Origin], Origin, Origin);
    assert StationReachable(w, Origin);
    forall p, i | WayAt(w, p).Some? && 0 <= i < |WayAt(w, p).value|
      ensures InBounds(w.terrain.n, WayAt(w, p).value[i])
    {
      assert WayShape(w, p, WayAt(w, p).value);
    }
    assert Wf(w, r);
    assert StackOk(w, r);
    assert OnStack(r.stack, Origin);
    assert CoverageOk(w, r);
  }

  // ---------------------------------------------------------------------
  // Well-formedness alone: what the heap-level service needs to index the
  // grid, before the full invariant holds
  // ---------------------------------------------------------------------

  /** A step along a trip is the move onto its current cell followed by what happens there. */
  lemma StationStepSplit(w: World, s: Robot)
    requires 0 < |Trip(s)| && s.stationIdx < |Trip(s)|
    ensures StationStep(w, s) == TripStep(w, TripMove(w, s))
  {
    assert Trip(TripMove(w, s)) == Trip(s);
  }

  /** A step along a trip keeps every position on the grid. */
  lemma StationStepWf(w: World, s: Robot)
    requires Wf(w, s)
    ensures Wf(w, StationStep(w, s))
  {
    var path := Trip(s);
    if |path| == 0 || s.stationIdx >= |path| {
      WfTrip(w, s, s.(stationPath := None, stationIdx := 0));
    } else {
      var s1 := TripMove(w, s);
      WfFrame(w, s, s1);
      var c := path[s.stationIdx];
      if c in w.stations && !s.returning {
        var s2 := s1.(bin := s1.bin.(load := 0), battery := w.fullCharge);
        if s1.stack == [] {
          WfTrip(w, s1, s2.(completed := true, stationPath := None, stationIdx := 0));
        } else if WayAt(w, s1.lastCleaning).Some? {
          WfTrip(w, s1, s2.(cleaning := true, stationPath := WayAt(w, s1.lastCleaning), stationIdx := 0, returning := true));
        } else {
          WfFrame(w, s1, s2.(cleaning := true));
        }
      } else if s.returning && c == s.lastCleaning {
        WfTrip(w, s1, s1.(stationPath := None, stationIdx := 0, returning := false));
      } else if s.stationIdx < |path| - 1 {
        WfFrame(w, s1, s1.(stationIdx := s.stationIdx + 1));
      }
    }
  }

  /** A new trip that is none or a recorded way, with nothing else moved, keeps every position on the grid. */
  lemma WfTrip(w: World, s: Robot, r: Robot)
    requires Wf(w, s) && r.stack == s.stack && r.cur == s.cur && r.lastCleaning == s.lastCleaning && r.marks.dirt == s.marks.dirt
    requires r.stationPath.None? || r.stationPath == WayAt(w, s.lastCleaning)
    ensures Wf(w, r)
  {
  }

  /** A change that leaves the trip alone and keeps the stack and both positions on the grid keeps every position on it. */
  lemma WfFrame(w: World, s: Robot, r: Robot)
    requires Wf(w, s) && r.stationPath == s.stationPath && r.marks.dirt.Keys == s.marks.dirt.Keys
    requires InBounds(w.terrain.n, r.cur) && InBounds(w.terrain.n, r.lastCleaning)
    requires forall i :: 0 <= i < |r.stack| ==>
      InBounds(w.terrain.n, r.stack[i].cur) && (r.stack[i].prev.Some? ==> InBounds(w.terrain.n, r.stack[i].prev.value))
    ensures Wf(w, r)
  {
    assert Trip(r) == Trip(s);
  }

  /** Heading for a station from the robot's cell keeps every position on the grid. */
  lemma FinishWf(w: World, s: Robot)
    requires Wf(w, s)
    ensures Wf(w, Finish(w, s))
  {
    if s.stack == [] && s.cur !in w.stations {
      var s1 := s.(lastCleaning := s.cur, cleaning := false);
      WfFrame(w, s, s1);
      if WayAt(w, s.cur).Some? {
        var way := WayAt(w, s.cur).value;
        assert forall i :: 0 <= i < |Reverse(way)| ==> InBounds(w.terrain.n, Reverse(way)[i]);
      }
    } else if s.stack == [] {
      WfFrame(w, s, s.(completed := true));
    }
  }

  /** Pushing a free neighbour or popping, then finishing, keeps every position on the grid. */
  lemma AdvanceWf(w: World, s: Robot)
    requires Wf(w, s)
    ensures Wf(w, Advance(w, s))
  {
    var next := FirstFree(w, s.marks.visited, s.cur, 0);
    if next.Some? {
      var r := s.(stack := s.stack + [Entry(Some(s.cur), next.value)], marks := s.marks.(visited := s.marks.visited + {next.value}));
      WfFrame(w, s, r);
      FinishWf(w, r);
    } else if s.stack != [] {
      var r := s.(stack := Pop(s.stack));
      WfFrame(w, s, r);
      FinishWf(w, r);
    }
  }

  /** A sweep step keeps every position on the grid. */
  lemma CleaningStepWf(w: World, s: Robot)
    requires Wf(w, s)
    ensures Wf(w, CleaningStep(w, s))
  {
    if s.stack != [] && !s.completed {
      var e := Top(s.stack);
      var s1 := s.(cur := e.cur);
      if e.cur in w.terrain.blocked {
        WfFrame(w, s, s1.(stack := Pop(s.stack)));
      } else {
        var s2 := Serve(w, s1, e);
        assert e.cur in s.marks.dirt;
        WfFrame(w, s, s2);
        if ReturnNeeded(w, s2, e.cur) {
          var s3 := s2.(lastCleaning := e.cur, stack := if CleanAll(w, s2) then [] else s2.stack, cleaning := false);
          WfFrame(w, s2, s3);
          if WayAt(w, e.cur).Some? {
            var way := WayAt(w, e.cur).value;
            assert forall i :: 0 <= i < |Reverse(way)| ==> InBounds(w.terrain.n, Reverse(way)[i]);
          } else {
            AdvanceWf(w, s3);
          }
        } else {
          AdvanceWf(w, s2);
        }
      }
    }
  }

  /** A timer tick keeps every position on the grid. */
  lemma StepNavWf(w: World, s: Robot)
    requires Wf(w, s)
    ensures Wf(w, StepNav(w, s))
  {
    if |Trip(s)| > 0 {
      StationStepWf(w, s);
    } else if s.cleaning {
      CleaningStepWf(w, s);
    }
  }

  /** A robot at the origin with no stack and no trip indexes only the grid, once the ways run over it. */
  lemma WfInitially(w: World, s: Robot)
    requires w.terrain.n >= 1 && s.cur == Origin && s.lastCleaning == Origin && s.stack == [] && Trip(s) == []
    requires s.marks.dirt.Keys == Positions(w.terrain.n)
    requires forall p, i :: p in w.way && w.way[p].Some? && 0 <= i < |w.way[p].value| ==> InBounds(w.terrain.n, w.way[p].value[i])
    ensures Wf(w, s)
  {
  }
}

/**
 * What a single call of `stepNavigation` does, read off the step functions:
 * the depth-first search marks each cell it enters once, an obstacle on
 * top of the stack is only popped, a return stops where the robot stands,
 * the trip index moves forward one cell at a time, and a completed
 * navigation does nothing more.
 */
module StepFacts {
  import opened Wrappers
  import opened Direction
  import opened Floor
  import opened Paths
  import opened Dirt
  import opened Traversal

  /**
   * A step marks at most one new cell visited, never unmarks one, and the
   * newly marked cell is the open cell just pushed on top of the stack.
   */
  lemma StepMarks(w: World, s: Robot)
    ensures var r := StepNav(w, s);
      && s.marks.visited <= r.marks.visited
      && (r.marks.visited == s.marks.visited
          || (r.stack != [] && Top(r.stack).cur !in s.marks.visited && Open(w.terrain, Top(r.stack).cur)
              && r.marks.visited == s.marks.visited + {Top(r.stack).cur}))
  {
    if |Trip(s)| == 0 && s.cleaning && s.stack != [] && !s.completed {
      var e := Top(s.stack);
      var s1 := s.(cur := e.cur);
      if e.cur !in w.terrain.blocked {
        var s2 := Serve(w, s1, e);
        assert s2.marks.visited == s.marks.visited && s2.cur == e.cur;
        if ReturnNeeded(w, s2, e.cur) {
          var s3 := StopCleaning(w, s2, e.cur);
          if WayAt(w, e.cur).None? {
            AdvanceMarks(w, s3);
          }
        } else {
          AdvanceMarks(w, s2);
        }
      }
    }
  }

  /** Advancing marks at most the one cell it pushes, and only an open cell not yet visited. */
  lemma AdvanceMarks(w: World, s: Robot)
    ensures var r := Advance(w, s);
      && s.marks.visited <= r.marks.visited
      && (r.marks.visited == s.marks.visited
          || (r.stack != [] && Top(r.stack).cur !in s.marks.visited && Open(w.terrain, Top(r.stack).cur)
              && r.marks.visited == s.marks.visited + {Top(r.stack).cur}))
  {
  }

  /**
   * With an obstacle on top of the stack the step only pops it: the robot
   * stands on it, but no power is paid, nothing is cleaned and nothing is
   * pushed or marked.
   */
  lemma ObstacleOnlyPops(w: World, s: Robot)
    requires |Trip(s)| == 0 && s.cleaning && s.stack != [] && !s.completed
    requires Top(s.stack).cur in w.terrain.blocked
    ensures var r := StepNav(w, s);
      && r.stack == s.stack[..|s.stack| - 1] && r.cur == Top(s.stack).cur
      && r.battery == s.battery && r.bin == s.bin && r.marks == s.marks
      && r.cleaning && r.stationPath == s.stationPath && !r.completed
  {
  }

  /**
   * When a return is needed at c: c becomes the last cleaning cell,
   * cleaning stops, the stack is dropped exactly when all dirt is clean,
   * and with a way the trip is that way reversed from its first cell, with
   * nothing explored and nothing marked.
   */
  lemma ReturnStops(w: World, s: Robot, c: Pos)
    requires WayAt(w, c).Some?
    ensures var r := GoHome(w, s, c);
      && r.lastCleaning == c && !r.cleaning
      && r.stack == (if CleanAll(w, s) then [] else s.stack)
      && r.stationPath == Some(Reverse(WayAt(w, c).value)) && r.stationIdx == 0 && !r.returning
      && r.marks == s.marks && r.cur == s.cur && r.battery == s.battery && r.bin == s.bin
  {
  }

  /**
   * Arriving at a station on the way there: the robot stands on it, the
   * bin is empty and the battery full; with an empty stack the navigation
   * is complete and the trip dropped, otherwise cleaning resumes along the
   * last cleaning cell's way, forwards from its first cell.  The stack and
   * the floor are left as they were.
   */
  lemma ArriveFacts(w: World, s: Robot)
    requires s.stationIdx < |Trip(s)| && Trip(s)[s.stationIdx] in w.stations && !s.returning
    requires s.stack != [] ==> WayAt(w, s.lastCleaning).Some?
    ensures var r := StepNav(w, s);
      && r.cur == Trip(s)[s.stationIdx] && r.bin == Bin(0, s.bin.cleaned) && r.battery == w.fullCharge
      && r.stack == s.stack && r.marks == s.marks
      && (s.stack == [] ==> r.completed && r.stationPath == None && r.stationIdx == 0)
      && (s.stack != [] ==> r.completed == s.completed && r.cleaning && r.returning
                            && r.stationPath == WayAt(w, s.lastCleaning) && r.stationIdx == 0)
  {
  }

  /**
   * A return needed at a cell without a way stops cleaning but sets no
   * trip; unless that step empties the stack, every later step does
   * nothing: the robot stalls.
   */
  lemma WaylessReturnStalls(w: World, s: Robot, c: Pos)
    requires WayAt(w, c).None? && |Trip(s)| == 0
    ensures var r := GoHome(w, s, c);
      !r.cleaning && (r.stack != [] ==> |Trip(r)| == 0 && StepNav(w, r) == r)
  {
  }

  /**
   * Along a trip the index either stays, starts over at 0 when the trip
   * ends, or moves on by exactly one, and never past the trip's last cell.
   */
  lemma TripIndexStep(w: World, s: Robot)
    requires 0 < |Trip(s)| && s.stationIdx < |Trip(s)|
    ensures var r := StepNav(w, s);
      || r.stationIdx == 0
      || r.stationIdx == s.stationIdx
      || (r.stationIdx == s.stationIdx + 1 && r.stationIdx < |Trip(s)| && r.stationPath == s.stationPath)
  {
  }

  /** A step never lowers the count of cleaned cells and raises it by at most one. */
  lemma StepCleaned(w: World, s: Robot)
    ensures s.bin.cleaned <= StepNav(w, s).bin.cleaned <= s.bin.cleaned + 1
  {
  }

  /** A completed navigation stays as it is: neither a trip step nor a sweep step is taken. */
  lemma CompletedStays(w: World, s: Robot)
    requires ModeOk(s) && s.completed
    ensures StepNav(w, s) == s
  {
  }
}

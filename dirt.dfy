/** The dirt bin and the cleaning mode. */
module Dirt {
  import opened Direction
  import opened Cells
  import opened Floor

  /** Bin fill (`currentCapacity`) and the number of cells cleaned so far. */
  datatype Bin = Bin(load: int, cleaned: int)

  /** `mode`: 0 is cleaning, 1 is stopped. */
  datatype Mode = Cleaning | Stopped

  /** A cell is cleaned only when it is dirty and the bin has room. */
  predicate CanClean(capacity: int, bin: Bin, level: int) {
    level > 0 && bin.load < capacity
  }

  /** The bin after `cleanDirt` on a cell with the given dirt level. */
  function AfterClean(capacity: int, bin: Bin, level: int): Bin {
    if CanClean(capacity, bin, level) then Bin(bin.load + 1, bin.cleaned + 1) else bin
  }

  /** The cell's dirt level after `cleanDirt`. */
  function LevelAfterClean(capacity: int, bin: Bin, level: int): int {
    if CanClean(capacity, bin, level) then Reduced(level) else level
  }

  /**
   * Cleaning keeps the fill within [0, capacity], never lowers the cleaned
   * count, raises it by one exactly when a cell was cleaned, and a cleaned
   * cell ends clean.
   */
  lemma AfterCleanFacts(capacity: int, bin: Bin, level: int)
    ensures var b := AfterClean(capacity, bin, level);
      && (0 <= bin.load <= capacity ==> 0 <= b.load <= capacity)
      && bin.cleaned <= b.cleaned <= bin.cleaned + 1
      && (b.cleaned == bin.cleaned + 1 <==> CanClean(capacity, bin, level))
      && (b.load - bin.load == b.cleaned - bin.cleaned)
      && (CanClean(capacity, bin, level) ==> LevelAfterClean(capacity, bin, level) == 0)
      && (!CanClean(capacity, bin, level) ==> b == bin && LevelAfterClean(capacity, bin, level) == level)
  {
  }

  class DirtService {
    const floorMap: FloorMap
    /** `clean-sweep.dirt.capacity`. */
    const dirtCapacity: int
    var currentCapacity: int
    var mode: Mode
    var cleanedDirtCellCount: int

    constructor (floorMap: FloorMap, dirtCapacity: int)
      ensures this.floorMap == floorMap && this.dirtCapacity == dirtCapacity
      ensures currentCapacity == 0 && mode == Cleaning && cleanedDirtCellCount == 0
    {
      this.floorMap := floorMap;
      this.dirtCapacity := dirtCapacity;
      currentCapacity := 0;
      mode := Cleaning;
      cleanedDirtCellCount := 0;
    }

    function CurrentBin(): Bin
      reads this
    {
      Bin(currentCapacity, cleanedDirtCellCount)
    }

    /** The fill lies within [0, dirtCapacity]. */
    ghost predicate BinBounded()
      reads this
    {
      0 <= currentCapacity <= dirtCapacity
    }

    /**
     * Cleans cell (x, y) when it is dirty and the bin has room: its dirt
     * goes to 0 and both the fill and the cleaned count go up by one.
     * Otherwise nothing changes.  `dirt` is the floor's dirt levels before
     * the call.
     */
    method CleanDirt(x: int, y: int, ghost dirt: map<Pos, int>)
      requires floorMap.Valid() && InBounds(floorMap.Size(), Pos(x, y)) && floorMap.DirtIs(dirt)
      modifies this`currentCapacity, this`cleanedDirtCellCount, floorMap.CellAt(Pos(x, y))`dirtLevel
      ensures CurrentBin() == AfterClean(dirtCapacity, old(CurrentBin()), dirt[Pos(x, y)])
      ensures floorMap.DirtIs(dirt[Pos(x, y) := LevelAfterClean(dirtCapacity, old(CurrentBin()), dirt[Pos(x, y)])])
      ensures old(BinBounded()) ==> BinBounded()
    {
      var cell := floorMap.cells[x, y];
      var dirtLevel := cell.dirtLevel;
      if dirtLevel > 0 && currentCapacity < dirtCapacity {
        cell.ReduceDirtLevel();
        currentCapacity := currentCapacity + 1;
        cleanedDirtCellCount := cleanedDirtCellCount + 1;
      }
    }

    /** Empties the bin; the cleaned count and the mode are untouched. */
    method RemoveDirt()
      modifies this`currentCapacity
      ensures currentCapacity == 0
      ensures dirtCapacity >= 0 ==> BinBounded()
    {
      currentCapacity := 0;
    }

    method SetCleaningMode()
      modifies this`mode
      ensures IsCleaningActive()
    {
      mode := Cleaning;
    }

    method StopCleaningMode()
      modifies this`mode
      ensures !IsCleaningActive()
    {
      mode := Stopped;
    }

    function IsCleaningActive(): (r: bool)
      reads this
      ensures r <==> mode == Cleaning
    {
      mode == Cleaning
    }

    /** The bin is full when the fill has reached the capacity; within bounds, exactly at it. */
    function IsFullDirt(): (r: bool)
      reads this
      ensures r <==> currentCapacity >= dirtCapacity
      ensures BinBounded() ==> (r <==> currentCapacity == dirtCapacity)
    {
      currentCapacity >= dirtCapacity
    }
  }
}

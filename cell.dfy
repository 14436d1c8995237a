/** One grid position of the floor plan, a mutable record. */
module Cells {
  import opened Wrappers
  import opened Direction

  datatype FloorType = BareFloor | LowPileCarpet | HighPileCarpet

  /** The dirt level after `reduceDirtLevel`: a dirty cell is cleaned completely. */
  function Reduced(level: int): (r: int)
    ensures level > 0 ==> r == 0
    ensures level <= 0 ==> r == level
  {
    if level > 0 then 0 else level
  }

  /** Cleaning twice is the same as cleaning once. */
  lemma ReducedIdempotent(level: int)
    ensures Reduced(Reduced(level)) == Reduced(level)
  {
  }

  class Cell {
    const x: int
    const y: int
    var floorType: FloorType
    var isVisited: bool
    var isChargingStation: bool
    var isObstacle: bool
    var isStairs: bool
    var dirtLevel: int
    /** Cheapest known path from a charging station to this cell; None when no station reaches it. */
    var wayToChargingStation: Option<seq<Pos>>
    /** Cost of that path, in half power units. */
    var distanceToStation: int

    constructor (x: int, y: int, floorType: FloorType, isVisited: bool, isChargingStation: bool,
                 isObstacle: bool, isStairs: bool, dirtLevel: int,
                 wayToChargingStation: Option<seq<Pos>>, distanceToStation: int)
      ensures this.x == x && this.y == y && this.floorType == floorType
      ensures this.isVisited == isVisited && this.isChargingStation == isChargingStation
      ensures this.isObstacle == isObstacle && this.isStairs == isStairs
      ensures this.dirtLevel == dirtLevel && this.wayToChargingStation == wayToChargingStation
      ensures this.distanceToStation == distanceToStation
    {
      this.x, this.y := x, y;
      this.floorType := floorType;
      this.isVisited := isVisited;
      this.isChargingStation := isChargingStation;
      this.isObstacle := isObstacle;
      this.isStairs := isStairs;
      this.dirtLevel := dirtLevel;
      this.wayToChargingStation := wayToChargingStation;
      this.distanceToStation := distanceToStation;
    }

    /** Cleans the cell: a positive dirt level drops to 0; no other field changes. */
    method ReduceDirtLevel()
      modifies this`dirtLevel
      ensures dirtLevel == Reduced(old(dirtLevel))
    {
      if dirtLevel > 0 {
        dirtLevel := 0;
      }
    }
  }
}

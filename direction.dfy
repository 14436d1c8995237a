/**
 * Grid coordinates and the four moves of the robot.
 *
 * A cell is addressed `cells[x][y]`: `x` is the row index, `y` the column
 * index.  The enumeration order UP, DOWN, LEFT, RIGHT is the scan order used
 * by every neighbour search of the navigation engine (depth-first expansion
 * and Dijkstra relaxation), so it is a named constant here.
 */
module Direction {

  datatype Pos = Pos(x: int, y: int)

  /** The robot's starting cell and the first charging station. */
  const Origin: Pos := Pos(0, 0)

  datatype Direction = Up | Down | Left | Right

  /** `Direction.values()`: the declaration order, which is the scan order. */
  const Values: seq<Direction> := [Up, Down, Left, Right]

  /** Row offset of a move. */
  function XOffset(d: Direction): int {
    match d
    case Up => -1
    case Down => 1
    case Left => 0
    case Right => 0
  }

  /** Column offset of a move. */
  function YOffset(d: Direction): int {
    match d
    case Up => 0
    case Down => 0
    case Left => -1
    case Right => 1
  }

  /** Position of a move's declaration in the enumeration. */
  function Ordinal(d: Direction): (i: nat)
    ensures i < |Values| && Values[i] == d
    ensures forall j :: 0 <= j < |Values| && Values[j] == d ==> j == i
  {
    match d
    case Up => 0
    case Down => 1
    case Left => 2
    case Right => 3
  }

  function Abs(n: int): nat {
    if n < 0 then -n else n
  }

  /** Two cells that share an edge. */
  predicate Adjacent(p: Pos, q: Pos) {
    Abs(p.x - q.x) + Abs(p.y - q.y) == 1
  }

  /** The cell one move away from `p`. */
  function Move(p: Pos, d: Direction): (q: Pos)
    ensures Adjacent(p, q)
  {
    Pos(p.x + XOffset(d), p.y + YOffset(d))
  }

  /** Every offset moves exactly one step. */
  lemma UnitStep(d: Direction)
    ensures Abs(XOffset(d)) + Abs(YOffset(d)) == 1
  {
  }

  /** The move that undoes `d`: UP/DOWN and LEFT/RIGHT negate each other. */
  function Opposite(d: Direction): (e: Direction)
    ensures XOffset(e) == -XOffset(d) && YOffset(e) == -YOffset(d)
    ensures e != d
  {
    match d
    case Up => Down
    case Down => Up
    case Left => Right
    case Right => Left
  }

  /**
   * The neighbour relation generated by the four offsets is exactly
   * adjacency, and it is symmetric: stepping back with the opposite
   * move returns to the start.
   */
  lemma MovesAreAdjacency(p: Pos, q: Pos)
    ensures Adjacent(p, q) <==> exists d :: Move(p, d) == q
    ensures Adjacent(p, q) ==> Adjacent(q, p)
  {
    if Adjacent(p, q) {
      var d := if q.x == p.x - 1 then Up
               else if q.x == p.x + 1 then Down
               else if q.y == p.y - 1 then Left
               else Right;
      assert Move(p, d) == q;
    }
  }

  lemma MoveBack(p: Pos, d: Direction)
    ensures Move(Move(p, d), Opposite(d)) == p
    ensures Opposite(Opposite(d)) == d
  {
  }
}

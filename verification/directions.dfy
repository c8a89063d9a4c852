/** The four cardinal directions of the cursor and the arithmetic on them.
    The enum order is Right, Down, Left, Up (values 0 to 3), turns are
    modular arithmetic on that cycle, and the grid's y axis grows downward,
    so "Up" decreases y. */
module Directions {

  datatype Dir = Right | Down | Left | Up

  /** The enum value of a direction. */
  function Ord(d: Dir): (n: int)
    ensures 0 <= n < 4
  {
    match d
    case Right => 0
    case Down => 1
    case Left => 2
    case Up => 3
  }

  /** Unit vector of a direction: x component. */
  function Dx(d: Dir): int {
    match d
    case Right => 1
    case Left => -1
    case _ => 0
  }

  /** Unit vector of a direction: y component (y grows downward). */
  function Dy(d: Dir): int {
    match d
    case Down => 1
    case Up => -1
    case _ => 0
  }

  /** A left turn: one step back along the cycle. Its enum value is the
      source's `(d - 1 + 4) % 4`, and geometrically it rotates the unit
      vector a quarter turn counter-clockwise as seen on screen. */
  function RotateLeft(d: Dir): (r: Dir)
    ensures Ord(r) == (Ord(d) - 1 + 4) % 4
    ensures Dx(r) == Dy(d) && Dy(r) == -Dx(d)
  {
    match d
    case Right => Up
    case Down => Right
    case Left => Down
    case Up => Left
  }

  /** A right turn: one step forward along the cycle. Its enum value is the
      source's `(d + 1) % 4`: a quarter turn clockwise as seen on screen. */
  function RotateRight(d: Dir): (r: Dir)
    ensures Ord(r) == (Ord(d) + 1) % 4
    ensures Dx(r) == -Dy(d) && Dy(r) == Dx(d)
  {
    match d
    case Right => Down
    case Down => Left
    case Left => Up
    case Up => Right
  }

  /** The direction a cell is entered from after a move along `d`: the
      source's switch that caches the previous direction. */
  function Opposite(d: Dir): (r: Dir)
    ensures Dx(r) == -Dx(d) && Dy(r) == -Dy(d)
  {
    match d
    case Right => Left
    case Left => Right
    case Down => Up
    case Up => Down
  }

  /** Left and right turns undo each other and four turns the same way are
      the identity. */
  lemma {:induction false} TurnArithmetic(d: Dir)
    ensures RotateLeft(RotateRight(d)) == d && RotateRight(RotateLeft(d)) == d
    ensures RotateLeft(RotateLeft(RotateLeft(RotateLeft(d)))) == d
    ensures RotateRight(RotateRight(RotateRight(RotateRight(d)))) == d
  {
  }

  /** Opposite is an involution without fixed points, and it is a half turn. */
  lemma {:induction false} OppositeFacts(d: Dir)
    ensures Opposite(Opposite(d)) == d
    ensures Opposite(d) != d
    ensures Opposite(d) == RotateRight(RotateRight(d)) == RotateLeft(RotateLeft(d))
  {
  }

  /** A grid coordinate; cells are 0-indexed and y grows downward. */
  datatype Pos = Pos(x: int, y: int)

  /** One unit move of the cursor along `d`, written as the source's switch:
      Up decrements y, Down increments it, Left and Right change x. */
  function Move(p: Pos, d: Dir): (r: Pos)
    ensures r.x == p.x + Dx(d) && r.y == p.y + Dy(d)
  {
    match d
    case Up => p.(y := p.y - 1)
    case Down => p.(y := p.y + 1)
    case Left => p.(x := p.x - 1)
    case Right => p.(x := p.x + 1)
  }

  /** The signed distance from `p` to `q` measured along `d`. */
  function Along(q: Pos, p: Pos, d: Dir): int {
    match d
    case Right => q.x - p.x
    case Left => p.x - q.x
    case Down => q.y - p.y
    case Up => p.y - q.y
  }
}

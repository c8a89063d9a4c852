/** Cell shapes and the classifier that names the shape of a cell from the
    direction a path enters it and the direction it leaves it. */
module Cells {
  import opened Directions

  /** The source's cell enum, in its order. `Blank` is the "none" value of
      an unvisited cell; each of the other six is the tile drawn for a path
      that passes through the two sides its name gives. */
  datatype Cell = Blank | Vert | Horz | UpRight | DownRight | DownLeft | UpLeft

  /** The sides of the cell the drawn path touches. */
  function Sides(c: Cell): set<Dir> {
    match c
    case Blank => {}
    case Vert => {Up, Down}
    case Horz => {Left, Right}
    case UpRight => {Up, Right}
    case DownRight => {Down, Right}
    case DownLeft => {Down, Left}
    case UpLeft => {Up, Left}
  }

  /** The classifier, written as the source's nested switch. A pair of equal
      directions is not a path through a cell: the source logs a warning for
      it and yields the blank cell. Every other pair yields the tile whose
      two sides are exactly the pair. */
  function Classify(from: Dir, to: Dir): (r: Cell)
    ensures r == Blank <==> from == to
    ensures from != to ==> Sides(r) == {from, to}
  {
    match from
    case Up =>
      (match to
       case Down => Vert
       case Left => UpLeft
       case Right => UpRight
       case Up => Blank)
    case Down =>
      (match to
       case Up => Vert
       case Left => DownLeft
       case Right => DownRight
       case Down => Blank)
    case Left =>
      (match to
       case Up => UpLeft
       case Down => DownLeft
       case Right => Horz
       case Left => Blank)
    case Right =>
      (match to
       case Up => UpRight
       case Down => DownRight
       case Left => Horz
       case Right => Blank)
  }

  /** Different tiles touch different sides. */
  lemma {:induction false} SidesInjective(c: Cell, c': Cell)
    ensures Sides(c) == Sides(c') ==> c == c'
  {
    if Sides(c) == Sides(c') {
      match c
      case Blank => assert Sides(c') == {};
      case Vert => assert Up in Sides(c') && Down in Sides(c');
      case Horz => assert Left in Sides(c') && Right in Sides(c');
      case UpRight => assert Up in Sides(c') && Right in Sides(c');
      case DownRight => assert Down in Sides(c') && Right in Sides(c');
      case DownLeft => assert Down in Sides(c') && Left in Sides(c');
      case UpLeft => assert Up in Sides(c') && Left in Sides(c');
    }
  }

  /** Classification does not depend on which side is the entry. */
  lemma {:induction false} ClassifySymmetric(a: Dir, b: Dir)
    ensures Classify(a, b) == Classify(b, a)
  {
    if a != b {
      assert {a, b} == {b, a};
      SidesInjective(Classify(a, b), Classify(b, a));
    }
  }

  /** Two proper pairs get the same tile exactly when they are the same
      unordered pair, so the six unordered pairs give six distinct tiles. */
  lemma {:induction false} ClassifyInjective(a: Dir, b: Dir, c: Dir, d: Dir)
    requires a != b && c != d
    ensures Classify(a, b) == Classify(c, d) <==> {a, b} == {c, d}
  {
    if {a, b} == {c, d} {
      SidesInjective(Classify(a, b), Classify(c, d));
    }
  }

  /** A straight pass is Vert on the vertical axis and Horz on the
      horizontal one, whichever end it enters from. */
  lemma {:induction false} ClassifyStraight(d: Dir)
    ensures Classify(d, Opposite(d)) == (if d == Up || d == Down then Vert else Horz)
  {
  }
}

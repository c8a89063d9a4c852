/** The graph-affecting part of the interpreter: the cursor, what one
    action does to it and to the grid, and what a run of actions does. The
    renderer's blit and the log are not called: the segments handed to the
    renderer and the warnings logged are returned instead. */
module Turtle {
  import opened Directions
  import opened Cells
  import opened Grid
  import opened Grammar
  import opened Seqs

  /** The cursor: the cell it is on, the direction it faces and the
      direction it entered its cell from. */
  datatype Cursor = Cursor(x: int, y: int, curr: Dir, prev: Dir)

  /** The cell the cursor is on. */
  function At(c: Cursor): Pos {
    Pos(c.x, c.y)
  }

  /** A classified cell handed to the renderer. */
  datatype Segment = Segment(x: int, y: int, shape: Cell)

  /** The warnings the interpreter logs: an unclassifiable direction pair,
      entering a cell that is already drawn, and touching a cell outside
      the grid's storage (undefined behaviour in the source, which has no
      check for it). */
  datatype Warning = BadPair(from: Dir, to: Dir) | Revisit(x: int, y: int) | OutOfRange(x: int, y: int)

  /** The result of interpreting actions: the grid and the cursor after
      them, the segments handed to the renderer and the warnings logged,
      both in order. */
  datatype Out = Out(graph: Graph, cursor: Cursor, drawn: seq<Segment>, warnings: seq<Warning>)

  /** The warning the classifier logs. */
  function ClassifyWarnings(from: Dir, to: Dir): (w: seq<Warning>)
    ensures w == [] <==> from != to
  {
    if Classify(from, to) == Blank then [BadPair(from, to)] else []
  }

  /** Stores a shape into the cell at `p`. A position outside `cells`
      stores nothing and is logged. */
  function Store(g: Graph, p: Pos, shape: Cell): (r: (Graph, seq<Warning>))
    ensures r.0.order == g.order && r.0.sidelen == g.sidelen && |r.0.cells| == |g.cells|
  {
    var i := Index(g, p);
    if 0 <= i < |g.cells| then (g.(cells := g.cells[i := shape]), []) else (g, [OutOfRange(p.x, p.y)])
  }

  /** A store into a cell of the grid lands there, logs nothing, and
      leaves every other cell as it was. */
  lemma {:induction false} StoreElsewhere(g: Graph, p: Pos, shape: Cell)
    requires GraphValid(g)
    ensures OnGrid(g, p) ==> Store(g, p, shape).1 == [] && CellAt(Store(g, p, shape).0, p) == shape
    ensures OnGrid(g, p) ==> forall q :: OnGrid(g, q) && q != p ==> CellAt(Store(g, p, shape).0, q) == CellAt(g, q)
  {
    if OnGrid(g, p) {
      IndexInRange(g, p);
      forall q | OnGrid(g, q) && q != p
        ensures CellAt(Store(g, p, shape).0, q) == CellAt(g, q)
      {
        IndexInRange(g, q);
        IndexInjective(g, q, p);
      }
    }
  }

  /** The check on a cell entered after a store elsewhere on the grid sees
      the cell as it was before the store. */
  lemma {:induction false} EnteredAfterStore(g: Graph, p: Pos, shape: Cell, q: Pos)
    requires GraphValid(g)
    ensures OnGrid(g, p) && OnGrid(g, q) && q != p
            ==> (CheckEntered(Store(g, p, shape).0, q) == [] <==> CellAt(g, q) == Blank)
  {
    if OnGrid(g, p) && OnGrid(g, q) && q != p {
      IndexInRange(g, q);
      StoreElsewhere(g, p, shape);
    }
  }

  /** The check made on the cell just entered. */
  function CheckEntered(g: Graph, p: Pos): seq<Warning> {
    var i := Index(g, p);
    if 0 <= i < |g.cells| then (if g.cells[i] != Blank then [Revisit(p.x, p.y)] else [])
    else [OutOfRange(p.x, p.y)]
  }

  /** The `F` symbol: classify the cursor's cell from the direction it was
      entered from and the direction it is left by, store it, hand it to
      the renderer, move one unit, check the cell entered, and remember the
      side it was entered from. */
  function DrawForward(g: Graph, c: Cursor): (o: Out)
    requires GraphValid(g)
    ensures GraphValid(o.graph) && o.graph.order == g.order
    ensures o.cursor.curr == c.curr
    ensures Along(At(o.cursor), At(c), c.curr) == 1
    ensures Move(At(o.cursor), o.cursor.prev) == At(c)
    ensures o.drawn == [Segment(c.x, c.y, Classify(c.prev, c.curr))]
    ensures OnGrid(g, At(c)) ==> CellAt(o.graph, At(c)) == Classify(c.prev, c.curr)
    ensures OnGrid(g, At(c)) ==> forall q :: OnGrid(g, q) && q != At(c) ==> CellAt(o.graph, q) == CellAt(g, q)
    ensures OnGrid(g, At(c)) && OnGrid(g, Move(At(c), c.curr))
            ==> (o.warnings == [] <==> c.prev != c.curr && CellAt(g, Move(At(c), c.curr)) == Blank)
  {
    var shape := Classify(c.prev, c.curr);
    var (g', stored) := Store(g, At(c), shape);
    var p := Move(At(c), c.curr);
    var entered := CheckEntered(g', p);
    StoreElsewhere(g, At(c), shape);
    EnteredAfterStore(g, At(c), shape, p);
    Out(g', Cursor(p.x, p.y, c.curr, Opposite(c.curr)), [Segment(c.x, c.y, shape)],
        ClassifyWarnings(c.prev, c.curr) + stored + entered)
  }

  /** What one action does. Turns change the facing direction only. */
  function Act(g: Graph, c: Cursor, a: Action): (o: Out)
    requires GraphValid(g)
    ensures GraphValid(o.graph) && o.graph.order == g.order
    ensures a != Forward ==> o.graph == g && o.drawn == [] && o.warnings == []
    ensures a == TurnLeft ==> o.cursor == c.(curr := RotateLeft(c.curr))
    ensures a == TurnRight ==> o.cursor == c.(curr := RotateRight(c.curr))
  {
    match a
    case Forward => DrawForward(g, c)
    case TurnLeft => Out(g, c.(curr := RotateLeft(c.curr)), [], [])
    case TurnRight => Out(g, c.(curr := RotateRight(c.curr)), [], [])
  }

  /** Prepends the output of earlier actions to that of later ones. */
  function Then(drawn: seq<Segment>, warnings: seq<Warning>, o: Out): Out {
    Out(o.graph, o.cursor, drawn + o.drawn, warnings + o.warnings)
  }

  /** What a run of actions does, one after the other. */
  function Run(g: Graph, c: Cursor, acts: seq<Action>): (o: Out)
    requires GraphValid(g)
    ensures GraphValid(o.graph) && o.graph.order == g.order
    decreases |acts|
  {
    if acts == [] then Out(g, c, [], [])
    else
      var first := Act(g, c, acts[0]);
      Then(first.drawn, first.warnings, Run(first.graph, first.cursor, acts[1..]))
  }

  /** A run of actions after one more action. */
  lemma {:induction false} RunCons(g: Graph, c: Cursor, a: Action, acts: seq<Action>)
    requires GraphValid(g)
    ensures var first := Act(g, c, a);
            Run(g, c, [a] + acts) == Then(first.drawn, first.warnings, Run(first.graph, first.cursor, acts))
  {
    assert ([a] + acts)[0] == a;
    assert ([a] + acts)[1..] == acts;
  }

  /** The end of the curve: the grammar has no `F` after the last cell, so
      the cursor's cell is classified and stored in place. The source hands
      nothing to the renderer for it. */
  function Finish(g: Graph, c: Cursor): (o: Out)
    requires GraphValid(g)
    ensures GraphValid(o.graph) && o.graph.order == g.order
    ensures o.cursor == c && o.drawn == []
    ensures OnGrid(g, At(c)) ==> CellAt(o.graph, At(c)) == Classify(c.prev, c.curr)
    ensures OnGrid(g, At(c)) ==> o.warnings == ClassifyWarnings(c.prev, c.curr)
    ensures OnGrid(g, At(c)) ==> forall q :: OnGrid(g, q) && q != At(c) ==> CellAt(o.graph, q) == CellAt(g, q)
  {
    var (g', stored) := Store(g, At(c), Classify(c.prev, c.curr));
    StoreElsewhere(g, At(c), Classify(c.prev, c.curr));
    Out(g', c, [], ClassifyWarnings(c.prev, c.curr) + stored)
  }

  /** Prepending nothing changes nothing; prepending twice is prepending
      the concatenation. */
  lemma {:induction false} ThenFacts(d1: seq<Segment>, w1: seq<Warning>, d2: seq<Segment>, w2: seq<Warning>, o: Out)
    ensures Then([], [], o) == o
    ensures Then(d1, w1, Then(d2, w2, o)) == Then(d1 + d2, w1 + w2, o)
  {
    ConcatNil(o.drawn);
    ConcatNil(o.warnings);
    ConcatAssoc(d1, d2, o.drawn);
    ConcatAssoc(w1, w2, o.warnings);
  }
}

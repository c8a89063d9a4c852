/** What the engine draws from a fresh grid: the order-n Hilbert curve.
    Every cell of the grid is visited once, each one is given a real
    shape whose openings join it to the cells before and after it, the
    curve enters at the bottom-left corner from below and leaves at the
    bottom-right corner to the right, and no warning is logged on the
    way. */
module Correctness {
  import opened Options
  import opened Seqs
  import opened Directions
  import opened Cells
  import opened Grid
  import opened Grammar
  import opened Turtle
  import opened Curve
  import opened Drawing
  import opened Machine

  /** The cell a segment is drawn in. */
  function Where(sg: Segment): Pos {
    Pos(sg.x, sg.y)
  }

  /** The whole curve a finished run leaves behind, in drawing order: the
      segments handed to the renderer, then the cursor's last cell with the
      shape it is classified into in place. */
  function Path(o: Out): seq<Segment> {
    o.drawn + [Segment(o.cursor.x, o.cursor.y, Classify(o.cursor.prev, o.cursor.curr))]
  }

  /** Two segments are neighbours whose shapes open towards each other. */
  ghost predicate Joins(a: Segment, b: Segment) {
    exists d :: Move(Where(a), d) == Where(b) && d in Sides(a.shape) && Opposite(d) in Sides(b.shape)
  }

  /** What the run of some actions ends in once the last cell is
      classified in place. */
  function Finished(r: Out): Out
    requires GraphValid(r.graph)
  {
    var f := Finish(r.graph, r.cursor);
    Out(f.graph, f.cursor, r.drawn, r.warnings + f.warnings)
  }

  /** The direction cell `i` of a track is left by: the recorded step for
      every cell but the last, the final facing for the last. */
  function Exit(t: Track, i: int): Dir
    requires 0 <= i <= |t.dirs|
  {
    if i < |t.dirs| then t.dirs[i] else t.endDir
  }

  /** A fresh engine still has to carry out A's curve of the grid's
      order. */
  lemma {:induction false} StartRemaining(g: Graph)
    requires GraphValid(g)
    ensures Remaining(CreateEngine(g)) == Sub(A, g.order)
  {
    var e := CreateEngine(g);
    TopActions(e);
    assert Rest(Top(e)) == ProdA by {
      assert ProdA[0..] == ProdA;
    }
    assert e.frames[..0] == [];
    ConcatNil(Expand(ProdA, g.order - 1));
  }

  /** The cursor a fresh engine starts with: the bottom-left cell, facing
      right, entered from below. */
  function StartCursor(g: Graph): Cursor {
    Cursor(0, g.sidelen - 1, Right, Down)
  }

  /** A track from the start cursor that covers exactly the grid, each
      cell once, and ends at the bottom-right cell facing right. */
  ghost predicate Covers(g: Graph, t: Track) {
    && |t.cells| + 1 == g.sidelen * g.sidelen
    && Distinct(Visited(t))
    && (forall q :: q in Visited(t) <==> OnGrid(g, q))
    && t.end == Pos(g.sidelen - 1, g.sidelen - 1) && t.endDir == Right
  }

  /** A's curve of the grid's order from the start cursor covers the
      grid. */
  lemma {:induction false} StartSquare(g: Graph)
    requires GraphValid(g)
    ensures Covers(g, Trace(Sub(A, g.order), At(StartCursor(g)), Right))
  {
    var s, p := g.sidelen, At(StartCursor(g));
    Hilbert(A, g.order, p, Right);
    assert Side(A, Right) == Up;
    forall q
      ensures InSquare(q, p, Right, Up, s) <==> OnGrid(g, q)
    {
    }
  }

  /** A fresh engine goes on to run its remaining actions from the start
      cursor on its grid, then to finish. */
  lemma {:induction false} StartOutcome(g: Graph)
    requires GraphValid(g)
    ensures var e := CreateEngine(g);
            Outcome(e) == Finished(Run(g, StartCursor(g), Remaining(e)))
  {
  }

  /** On a blank grid a covering track starts cleanly: its first step
      cannot go down out of the bottom row, where the cursor was entered
      from. */
  lemma {:induction false} StartClean(g: Graph, acts: seq<Action>)
    requires GraphValid(g)
    requires forall i :: 0 <= i < |g.cells| ==> g.cells[i] == Blank
    requires Covers(g, Trace(acts, At(StartCursor(g)), Right))
    ensures var c := StartCursor(g);
            CleanStart(g, c, Trace(acts, At(c), c.curr))
  {
    var c := StartCursor(g);
    var t := Trace(acts, At(c), c.curr);
    TraceWalks(acts, At(c), c.curr);
    var V := Visited(t);
    forall i | 0 <= i < |V|
      ensures OnGrid(g, V[i])
    {
      assert V[i] in V;
    }
    forall i | 1 <= i < |V|
      ensures CellAt(g, V[i]) == Blank
    {
      IndexInRange(g, V[i]);
    }
    if |t.dirs| > 0 {
      assert V[1] in V;
    }
  }

  /** The last cell of a covering track is not entered from its right:
      that would need a cell to the right of the grid's last column. */
  lemma {:induction false} LastEntry(g: Graph, acts: seq<Action>)
    requires GraphValid(g)
    requires Covers(g, Trace(acts, At(StartCursor(g)), Right))
    ensures var t := Trace(acts, At(StartCursor(g)), Right);
            EntrySide(t, Down, |t.dirs|) != Right
  {
    var p := At(StartCursor(g));
    var t := Trace(acts, p, Right);
    TraceWalks(acts, p, Right);
    var n, V := |t.dirs|, Visited(t);
    if n > 0 {
      assert V[n] == t.end;
      assert V[n - 1] in V;
    }
  }

  /** Finishing a cleanly drawn track: nothing more is logged when the
      last cell's entry and exit differ, and the path holds the track's
      cells in order, each with its shape, stored in the grid. */
  lemma {:induction false} PathCells(g: Graph, c: Cursor, t: Track, r: Out)
    requires GraphValid(g) && GraphValid(r.graph) && r.graph.order == g.order
    requires DrawsCleanly(g, c, t, r)
    requires Distinct(Visited(t)) && OnGrid(g, t.end)
    requires EntrySide(t, c.prev, |t.dirs|) != t.endDir
    ensures var o, P := Finished(r), Path(Finished(r));
            && GraphValid(o.graph) && o.graph.order == g.order
            && o.warnings == []
            && |P| == |Visited(t)|
            && (forall i :: 0 <= i < |P| ==> Where(P[i]) == Visited(t)[i])
            && (forall i :: 0 <= i < |P| ==> P[i].shape == Classify(EntrySide(t, c.prev, i), Exit(t, i)))
            && (forall i :: 0 <= i < |P| ==> OnGrid(o.graph, Where(P[i])))
            && (forall i :: 0 <= i < |P| ==> P[i].shape != Blank && CellAt(o.graph, Where(P[i])) == P[i].shape)
            && (forall q :: OnGrid(g, q) && q !in Visited(t) ==> CellAt(o.graph, q) == CellAt(g, q))
  {
    var o, P, V, n := Finished(r), Path(Finished(r)), Visited(t), |t.dirs|;
    assert At(r.cursor) == t.end;
    assert V[n] == t.end;
    forall i | 0 <= i < n
      ensures Where(P[i]) == V[i] && P[i].shape == Classify(EntrySide(t, c.prev, i), Exit(t, i))
      ensures P[i].shape != Blank && CellAt(o.graph, Where(P[i])) == P[i].shape
    {
      assert P[i] == r.drawn[i];
      assert V[i] == t.cells[i];
      assert V[i] != V[n];
    }
    forall q | OnGrid(g, q) && q !in V
      ensures CellAt(o.graph, q) == CellAt(g, q)
    {
      assert q != V[n];
    }
  }

  /** Consecutive cells of a walked track, shaped by the sides they are
      entered from and left by, open towards each other. */
  lemma {:induction false} PathJoins(t: Track, prev: Dir, P: seq<Segment>)
    requires |t.cells| == |t.dirs| && |P| == |Visited(t)|
    requires forall i :: 0 <= i < |t.dirs| ==> Visited(t)[i + 1] == Move(Visited(t)[i], t.dirs[i])
    requires forall i :: 0 <= i < |P| ==> Where(P[i]) == Visited(t)[i]
    requires forall i :: 0 <= i < |P| ==> P[i].shape == Classify(EntrySide(t, prev, i), Exit(t, i))
    requires forall i :: 0 <= i < |P| ==> P[i].shape != Blank
    ensures forall i :: 0 <= i < |P| - 1 ==> Joins(P[i], P[i + 1])
  {
    forall i | 0 <= i < |P| - 1
      ensures Joins(P[i], P[i + 1])
    {
      var d := t.dirs[i];
      assert Exit(t, i) == d && EntrySide(t, prev, i + 1) == Opposite(d);
      assert Move(Where(P[i]), d) == Where(P[i + 1]);
    }
  }

  /** Drawing a covering track from the start cursor on a blank grid, then
      classifying its last cell in place, logs nothing and lays the
      track's cells in order, each with a real shape stored in the grid. */
  lemma {:induction false} StartPath(g: Graph, acts: seq<Action>)
    requires GraphValid(g)
    requires forall i :: 0 <= i < |g.cells| ==> g.cells[i] == Blank
    requires Covers(g, Trace(acts, At(StartCursor(g)), Right))
    ensures var c := StartCursor(g);
            var o, t := Finished(Run(g, c, acts)), Trace(acts, At(c), c.curr);
            var P := Path(o);
            && GraphValid(o.graph) && o.graph.order == g.order
            && o.warnings == []
            && |P| == |Visited(t)|
            && (forall i :: 0 <= i < |P| ==> Where(P[i]) == Visited(t)[i])
            && (forall i :: 0 <= i < |P| ==> P[i].shape == Classify(EntrySide(t, Down, i), Exit(t, i)))
            && (forall i :: 0 <= i < |P| ==> OnGrid(o.graph, Where(P[i])))
            && (forall i :: 0 <= i < |P| ==> P[i].shape != Blank && CellAt(o.graph, Where(P[i])) == P[i].shape)
  {
    var c := StartCursor(g);
    var t, r := Trace(acts, At(c), c.curr), Run(g, c, acts);
    var V := Visited(t);
    StartClean(g, acts);
    RunClean(g, c, acts);
    LastEntry(g, acts);
    assert OnGrid(g, t.end) by {
      assert V[|t.cells|] in V;
    }
    PathCells(g, c, t, r);
  }

  /** The ends of a drawn curve on a grid of side `s`: nothing logged,
      one cell of the path per cell of the grid, entered at the
      bottom-left cell from below and left at the bottom-right cell to the
      right. */
  ghost predicate PathEnds(o: Out, s: int) {
    var P := Path(o);
    && GraphValid(o.graph) && o.graph.sidelen == s
    && o.warnings == []
    && |P| == s * s
    && Where(P[0]) == Pos(0, s - 1) && Down in Sides(P[0].shape)
    && Where(P[|P| - 1]) == Pos(s - 1, s - 1) && Right in Sides(P[|P| - 1].shape)
  }

  /** The body of a drawn curve: its cells are distinct cells of the grid,
      each holds a real shape, the one stored for it, consecutive cells
      open towards each other, and no cell of the grid is left blank. */
  ghost predicate PathLaid(o: Out) {
    var P := Path(o);
    && GraphValid(o.graph)
    && (forall i, j :: 0 <= i < j < |P| ==> Where(P[i]) != Where(P[j]))
    && (forall i :: 0 <= i < |P| ==> OnGrid(o.graph, Where(P[i])))
    && (forall i :: 0 <= i < |P| ==> P[i].shape != Blank && CellAt(o.graph, Where(P[i])) == P[i].shape)
    && (forall i :: 0 <= i < |P| - 1 ==> Joins(P[i], P[i + 1]))
    && (forall q :: OnGrid(o.graph, q) ==> CellAt(o.graph, q) != Blank)
  }

  /** Drawing a covering track from the start cursor on a blank grid and
      finishing it starts and ends the path at the grid's bottom corners
      without a warning. */
  lemma {:induction false} CoveringEnds(g: Graph, acts: seq<Action>)
    requires GraphValid(g)
    requires forall i :: 0 <= i < |g.cells| ==> g.cells[i] == Blank
    requires Covers(g, Trace(acts, At(StartCursor(g)), Right))
    ensures PathEnds(Finished(Run(g, StartCursor(g), acts)), g.sidelen)
  {
    var c := StartCursor(g);
    var t := Trace(acts, At(c), Right);
    StartPath(g, acts);
    TraceWalks(acts, At(c), Right);
    var P := Path(Finished(Run(g, c, acts)));
    assert Exit(t, |P| - 1) == Right;
    assert Visited(t)[|P| - 1] == t.end;
  }

  /** Drawing a covering track from the start cursor on a blank grid and
      finishing it lays a path through every cell of the grid once, each
      cell joined to the next. */
  lemma {:induction false} CoveringLaid(g: Graph, acts: seq<Action>)
    requires GraphValid(g)
    requires forall i :: 0 <= i < |g.cells| ==> g.cells[i] == Blank
    requires Covers(g, Trace(acts, At(StartCursor(g)), Right))
    ensures PathLaid(Finished(Run(g, StartCursor(g), acts)))
  {
    var c := StartCursor(g);
    var t := Trace(acts, At(c), Right);
    StartPath(g, acts);
    TraceWalks(acts, At(c), Right);
    var o := Finished(Run(g, c, acts));
    var P, V := Path(o), Visited(t);
    PathJoins(t, Down, P);
    assert o.graph.sidelen == g.sidelen;
    NoneBlank(o.graph, V, P);
  }

  /** A grid whose cells all lie on a path, each holding the path's real
      shape for it, has no blank cell. */
  lemma {:induction false} NoneBlank(g: Graph, V: seq<Pos>, P: seq<Segment>)
    requires GraphValid(g) && |P| == |V|
    requires forall i :: 0 <= i < |P| ==> Where(P[i]) == V[i]
    requires forall i :: 0 <= i < |P| ==> OnGrid(g, Where(P[i]))
    requires forall i :: 0 <= i < |P| ==> P[i].shape != Blank && CellAt(g, Where(P[i])) == P[i].shape
    requires forall q :: OnGrid(g, q) ==> q in V
    ensures forall q :: OnGrid(g, q) ==> CellAt(g, q) != Blank
  {
    forall q | OnGrid(g, q)
      ensures CellAt(g, q) != Blank
    {
      var i :| 0 <= i < |V| && V[i] == q;
      assert Where(P[i]) == q;
    }
  }

  /** The order-n curve. For every order the factory accepts, what a fresh
      engine goes on to produce (what `Complete` returns): no warning; a
      path of one segment per cell of the grid, the last being the cell
      classified in place; the path starts in the bottom-left cell open
      downward and ends in the bottom-right cell open to the right; no
      cell appears twice; every cell of the path holds a real shape, the
      one stored in the grid; consecutive cells are neighbours whose
      shapes open towards each other; and no cell of the grid is left
      blank. */
  lemma {:induction false} CurveFillsGrid(order: int)
    requires MinOrder <= order <= MaxOrder
    ensures var o := Outcome(CreateEngine(CreateGraph(order).value));
            && o.graph.order == order
            && PathEnds(o, Pow2(order))
            && PathLaid(o)
  {
    var g := CreateGraph(order).value;
    var e := CreateEngine(g);
    var acts := Remaining(e);
    assert Covers(g, Trace(acts, At(StartCursor(g)), Right)) by {
      StartRemaining(g);
      StartSquare(g);
    }
    StartOutcome(g);
    CoveringEnds(g, acts);
    CoveringLaid(g, acts);
  }
}


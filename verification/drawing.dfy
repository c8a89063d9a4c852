/** What the interpreter draws along a track: under the conditions the
    Hilbert property provides, every `F` classifies its cell into a real
    shape, no warning is logged, and the grid records exactly the track. */
module Drawing {
  import opened Directions
  import opened Cells
  import opened Grid
  import opened Grammar
  import opened Turtle
  import opened Curve

  /** The side cell `i` of a track was entered from: the cursor's initial
      `prev` for the first cell, the reverse of the step before for the
      others. */
  function EntrySide(t: Track, prev: Dir, i: int): Dir
    requires 0 <= i <= |t.dirs|
  {
    if i == 0 then prev else Opposite(t.dirs[i - 1])
  }

  /** The shape the interpreter gives cell `i` of a track. */
  function ShapeAt(t: Track, prev: Dir, i: int): Cell
    requires 0 <= i < |t.dirs|
  {
    Classify(EntrySide(t, prev, i), t.dirs[i])
  }

  /** Moving back the way one came returns to the start. */
  lemma {:induction false} MoveBack(p: Pos, d: Dir)
    ensures Move(Move(p, d), Opposite(d)) == p
  {
  }

  /** The conditions under which a track is drawn cleanly: its cells are
      distinct, on the grid and blank except the first, and the first step
      does not leave by the side the cursor entered from. */
  predicate CleanStart(g: Graph, c: Cursor, t: Track)
    requires GraphValid(g)
  {
    var V := Visited(t);
    && V[0] == At(c)
    && Distinct(V)
    && (forall i :: 0 <= i < |V| ==> OnGrid(g, V[i]))
    && (forall i :: 1 <= i < |V| ==> CellAt(g, V[i]) == Blank)
    && (|t.dirs| > 0 ==> t.dirs[0] != c.prev)
  }

  /** What drawing a track cleanly produces: no warning, the cursor at the
      end of the track, the renderer handed each cell of the track once
      with a real shape, those shapes stored, and every other cell left
      alone. */
  ghost predicate DrawsCleanly(g: Graph, c: Cursor, t: Track, o: Out)
    requires GraphValid(g) && GraphValid(o.graph) && o.graph.order == g.order
  {
    && |t.cells| == |t.dirs|
    && o.warnings == []
    && o.cursor == Cursor(t.end.x, t.end.y, t.endDir, EntrySide(t, c.prev, |t.dirs|))
    && |o.drawn| == |t.cells|
    && (forall i :: 0 <= i < |t.cells| ==> o.drawn[i] == Segment(t.cells[i].x, t.cells[i].y, ShapeAt(t, c.prev, i)))
    && (forall i :: 0 <= i < |t.cells| ==> ShapeAt(t, c.prev, i) != Blank)
    && (forall i :: 0 <= i < |t.cells| ==> OnGrid(g, t.cells[i]) && CellAt(o.graph, t.cells[i]) == ShapeAt(t, c.prev, i))
    && (forall q :: OnGrid(g, q) && q !in t.cells ==> CellAt(o.graph, q) == CellAt(g, q))
  }

  /** Running actions whose track starts cleanly draws it cleanly. */
  lemma {:induction false} RunClean(g: Graph, c: Cursor, acts: seq<Action>)
    requires GraphValid(g)
    requires CleanStart(g, c, Trace(acts, At(c), c.curr))
    ensures DrawsCleanly(g, c, Trace(acts, At(c), c.curr), Run(g, c, acts))
    decreases |acts|
  {
    if acts != [] {
      if acts[0] == Forward {
        var first := DrawForward(g, c);
        ForwardStart(g, c, acts);
        RunClean(first.graph, first.cursor, acts[1..]);
        ForwardCombine(g, c, acts);
      } else {
        var c' := c.(curr := Turned(acts[0], c.curr));
        TurnSame(g, c, acts);
        RunClean(g, c', acts[1..]);
      }
    }
  }

  /** After the first `F` of a cleanly starting run nothing has been
      logged and the rest of the run starts cleanly. */
  lemma {:induction false} ForwardStart(g: Graph, c: Cursor, acts: seq<Action>)
    requires GraphValid(g) && acts != [] && acts[0] == Forward
    requires CleanStart(g, c, Trace(acts, At(c), c.curr))
    ensures var first := DrawForward(g, c);
            && first.warnings == []
            && CleanStart(first.graph, first.cursor, Trace(acts[1..], At(first.cursor), first.cursor.curr))
  {
    var rest, p, d := acts[1..], At(c), c.curr;
    assert acts == [Forward] + rest;
    TraceCons(Forward, rest, p, d);
    TraceWalks(rest, Move(p, d), d);
    StepStart(g, c, Trace(rest, Move(p, d), d));
  }

  /** A cleanly starting run whose first action is `F` draws cleanly when
      the rest of it does. */
  lemma {:induction false} ForwardCombine(g: Graph, c: Cursor, acts: seq<Action>)
    requires GraphValid(g) && acts != [] && acts[0] == Forward
    requires CleanStart(g, c, Trace(acts, At(c), c.curr))
    requires var first := DrawForward(g, c);
             && first.warnings == []
             && DrawsCleanly(first.graph, first.cursor, Trace(acts[1..], At(first.cursor), first.cursor.curr),
                             Run(first.graph, first.cursor, acts[1..]))
    ensures DrawsCleanly(g, c, Trace(acts, At(c), c.curr), Run(g, c, acts))
  {
    var rest, p, d := acts[1..], At(c), c.curr;
    var first := DrawForward(g, c);
    assert acts == [Forward] + rest;
    TraceCons(Forward, rest, p, d);
    RunCons(g, c, Forward, rest);
    TraceWalks(rest, Move(p, d), d);
    StepCombine(g, c, Trace(rest, Move(p, d), d), Run(first.graph, first.cursor, rest));
  }

  /** A turn only changes the direction the rest of a run starts in. */
  lemma {:induction false} TurnSame(g: Graph, c: Cursor, acts: seq<Action>)
    requires GraphValid(g) && acts != [] && acts[0] != Forward
    ensures var c' := c.(curr := Turned(acts[0], c.curr));
            && Trace(acts, At(c), c.curr) == Trace(acts[1..], At(c'), c'.curr)
            && Run(g, c, acts) == Run(g, c', acts[1..])
  {
    var a, rest := acts[0], acts[1..];
    var c' := c.(curr := Turned(a, c.curr));
    assert acts == [a] + rest;
    TraceCons(a, rest, At(c), c.curr);
    RunCons(g, c, a, rest);
    assert Act(g, c, a) == Out(g, c', [], []);
  }

  /** The cells of a track after one `F` step are the step's cell followed
      by the track's. */
  lemma {:induction false} StepCells(p: Pos, d: Dir, t: Track)
    ensures Visited(Step(p, d, t)) == [p] + Visited(t)
    ensures forall i :: 0 <= i < |Visited(t)| ==> Visited(Step(p, d, t))[i + 1] == Visited(t)[i]
  {
  }

  /** On a track without repeated cells, the first cell does not occur
      again in the rest of the track. */
  lemma {:induction false} StepFresh(p: Pos, d: Dir, t: Track)
    requires Distinct(Visited(Step(p, d, t)))
    ensures p !in t.cells
  {
    var V := Visited(Step(p, d, t));
    StepCells(p, d, t);
    forall i | 0 <= i < |t.cells|
      ensures t.cells[i] != p
    {
      assert V[0] == p && V[i + 1] == t.cells[i];
    }
  }

  /** After the first `F` of a cleanly starting track, nothing has been
      logged and the rest of the track starts cleanly. */
  lemma {:induction false} StepStart(g: Graph, c: Cursor, t: Track)
    requires GraphValid(g) && |t.cells| == |t.dirs|
    requires Visited(t)[0] == Move(At(c), c.curr)
    requires |t.dirs| > 0 ==> Visited(t)[1] == Move(Visited(t)[0], t.dirs[0])
    requires CleanStart(g, c, Step(At(c), c.curr, t))
    ensures var first := DrawForward(g, c);
            && first.warnings == []
            && CleanStart(first.graph, first.cursor, t)
  {
    var p, d := At(c), c.curr;
    var V, V' := Visited(Step(p, d, t)), Visited(t);
    StepCells(p, d, t);
    var first := DrawForward(g, c);
    var g' := first.graph;
    assert OnGrid(g, V[0]) && OnGrid(g, V[1]);
    forall i | 0 <= i < |V'|
      ensures OnGrid(g', V'[i])
    {
      assert V'[i] == V[i + 1];
    }
    forall i | 1 <= i < |V'|
      ensures CellAt(g', V'[i]) == Blank
    {
      assert V'[i] == V[i + 1];
      assert V[i + 1] != V[0];
    }
    MoveBack(p, d);
    assert |V| > 2 ==> V[2] != V[0];
  }

  /** Drawing a cleanly starting track whose first action is `F`: the
      first cell's segment followed by the rest drawn cleanly. */
  lemma {:induction false} StepCombine(g: Graph, c: Cursor, t: Track, o: Out)
    requires GraphValid(g)
    requires Visited(t)[0] == Move(At(c), c.curr)
    requires CleanStart(g, c, Step(At(c), c.curr, t))
    requires GraphValid(o.graph) && o.graph.order == g.order
    requires var first := DrawForward(g, c);
             && first.warnings == []
             && DrawsCleanly(first.graph, first.cursor, t, o)
    ensures var first := DrawForward(g, c);
            DrawsCleanly(g, c, Step(At(c), c.curr, t), Then(first.drawn, first.warnings, o))
  {
    var p, d := At(c), c.curr;
    var T := Step(p, d, t);
    var first := DrawForward(g, c);
    var o' := Then(first.drawn, first.warnings, o);
    StepFresh(p, d, t);
    StepShapes(c, t, o);
    StepGrid(g, c, t, o);
  }

  /** The segments and shapes of a track after one `F` step. */
  lemma {:induction false} StepShapes(c: Cursor, t: Track, o: Out)
    requires |t.cells| == |t.dirs| && |o.drawn| == |t.cells|
    requires c.prev != c.curr
    requires forall i :: 0 <= i < |t.cells| ==> o.drawn[i] == Segment(t.cells[i].x, t.cells[i].y, ShapeAt(t, Opposite(c.curr), i))
    requires forall i :: 0 <= i < |t.cells| ==> ShapeAt(t, Opposite(c.curr), i) != Blank
    ensures var T, drawn := Step(At(c), c.curr, t), [Segment(c.x, c.y, Classify(c.prev, c.curr))] + o.drawn;
            && (forall i :: 0 <= i < |T.cells| ==> drawn[i] == Segment(T.cells[i].x, T.cells[i].y, ShapeAt(T, c.prev, i)))
            && (forall i :: 0 <= i < |T.cells| ==> ShapeAt(T, c.prev, i) != Blank)
  {
    var T := Step(At(c), c.curr, t);
    forall i | 1 <= i < |T.cells|
      ensures ShapeAt(T, c.prev, i) == ShapeAt(t, Opposite(c.curr), i - 1)
      ensures T.cells[i] == t.cells[i - 1]
    {
    }
  }

  /** The grid after a track with one more `F` step in front. */
  lemma {:induction false} StepGrid(g: Graph, c: Cursor, t: Track, o: Out)
    requires GraphValid(g) && GraphValid(o.graph) && o.graph.order == g.order
    requires |t.cells| == |t.dirs| && OnGrid(g, At(c)) && At(c) !in t.cells
    requires var first := DrawForward(g, c);
             && (forall i :: 0 <= i < |t.cells| ==> OnGrid(g, t.cells[i]) && CellAt(o.graph, t.cells[i]) == ShapeAt(t, Opposite(c.curr), i))
             && (forall q :: OnGrid(g, q) && q !in t.cells ==> CellAt(o.graph, q) == CellAt(first.graph, q))
    ensures var T := Step(At(c), c.curr, t);
            && (forall i :: 0 <= i < |T.cells| ==> OnGrid(g, T.cells[i]) && CellAt(o.graph, T.cells[i]) == ShapeAt(T, c.prev, i))
            && (forall q :: OnGrid(g, q) && q !in T.cells ==> CellAt(o.graph, q) == CellAt(g, q))
  {
    var T := Step(At(c), c.curr, t);
    var first := DrawForward(g, c);
    forall i | 0 <= i < |T.cells|
      ensures OnGrid(g, T.cells[i]) && CellAt(o.graph, T.cells[i]) == ShapeAt(T, c.prev, i)
    {
      if i == 0 {
        assert CellAt(o.graph, At(c)) == CellAt(first.graph, At(c));
      } else {
        assert ShapeAt(T, c.prev, i) == ShapeAt(t, Opposite(c.curr), i - 1);
        assert T.cells[i] == t.cells[i - 1];
      }
    }
    forall q | OnGrid(g, q) && q !in T.cells
      ensures CellAt(o.graph, q) == CellAt(g, q)
    {
      assert q != At(c) && q !in t.cells;
      assert CellAt(o.graph, q) == CellAt(first.graph, q);
    }
  }
}

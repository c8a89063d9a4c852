/** The path a run of actions traces, and the theorem that the grammar's
    expansion of a non-terminal to depth L visits every cell of a square
    of side 2^L exactly once, entering at one corner and leaving at the
    next. */
module Curve {
  import opened Seqs
  import opened Directions
  import opened Grammar
  import opened Grid

  /** The cells a run of actions leaves by an `F` step, with the direction
      of each step, and where the run ends and faces. */
  datatype Track = Track(cells: seq<Pos>, dirs: seq<Dir>, end: Pos, endDir: Dir)

  /** The facing direction after an action. */
  function Turned(a: Action, d: Dir): Dir {
    match a
    case Forward => d
    case TurnLeft => RotateLeft(d)
    case TurnRight => RotateRight(d)
  }

  /** One `F` step from `p` along `d`, followed by track `t`. */
  function Step(p: Pos, d: Dir, t: Track): Track {
    Track([p] + t.cells, [d] + t.dirs, t.end, t.endDir)
  }

  /** Track `t1` followed by track `t2`. */
  function Join(t1: Track, t2: Track): Track {
    Track(t1.cells + t2.cells, t1.dirs + t2.dirs, t2.end, t2.endDir)
  }

  /** The track of `acts` started at `p` facing `d`. */
  function Trace(acts: seq<Action>, p: Pos, d: Dir): (t: Track)
    ensures |t.cells| == |t.dirs|
    decreases |acts|
  {
    if acts == [] then Track([], [], p, d)
    else if acts[0] == Forward then Step(p, d, Trace(acts[1..], Move(p, d), d))
    else Trace(acts[1..], p, Turned(acts[0], d))
  }

  /** Every cell a track is on, the last one included. */
  function Visited(t: Track): seq<Pos> {
    t.cells + [t.end]
  }

  /** No cell occurs twice. */
  predicate Distinct(s: seq<Pos>) {
    forall i, j :: 0 <= i < j < |s| ==> s[i] != s[j]
  }

  /** The track of one action followed by more. */
  lemma {:induction false} TraceCons(a: Action, acts: seq<Action>, p: Pos, d: Dir)
    ensures Trace([a] + acts, p, d)
         == if a == Forward then Step(p, d, Trace(acts, Move(p, d), d)) else Trace(acts, p, Turned(a, d))
  {
    assert ([a] + acts)[0] == a;
    assert ([a] + acts)[1..] == acts;
  }

  /** Tracing two runs one after the other joins their tracks. */
  lemma {:induction false} TraceAppend(a: seq<Action>, b: seq<Action>, p: Pos, d: Dir)
    ensures var ta := Trace(a, p, d);
            Trace(a + b, p, d) == Join(ta, Trace(b, ta.end, ta.endDir))
    decreases |a|
  {
    if a == [] {
      ConcatNil(b);
    } else {
      var x, rest := a[0], a[1..];
      assert a == [x] + rest;
      ConcatAssoc([x], rest, b);
      TraceCons(x, rest + b, p, d);
      TraceCons(x, rest, p, d);
      if x == Forward {
        TraceAppend(rest, b, Move(p, d), d);
        var tr := Trace(rest, Move(p, d), d);
        var tb := Trace(b, tr.end, tr.endDir);
        ConcatAssoc([p], tr.cells, tb.cells);
        ConcatAssoc([d], tr.dirs, tb.dirs);
      } else {
        TraceAppend(rest, b, p, Turned(x, d));
      }
    }
  }

  /** Each cell of a track is one unit move from the one before it, in the
      recorded direction; the track starts where it was started. */
  lemma {:induction false} TraceWalks(acts: seq<Action>, p: Pos, d: Dir)
    ensures var t := Trace(acts, p, d);
            && Visited(t)[0] == p
            && forall i :: 0 <= i < |t.dirs| ==> Visited(t)[i + 1] == Move(Visited(t)[i], t.dirs[i])
    decreases |acts|
  {
    if acts != [] {
      if acts[0] == Forward {
        TraceWalks(acts[1..], Move(p, d), d);
        var t' := Trace(acts[1..], Move(p, d), d);
        assert Visited(Trace(acts, p, d)) == [p] + Visited(t');
      } else {
        TraceWalks(acts[1..], p, Turned(acts[0], d));
      }
    }
  }

  /** The visited cells of composite tracks. */
  lemma {:induction false} VisitedParts(p: Pos, d: Dir, t1: Track, t2: Track)
    ensures Visited(Step(p, d, t2)) == [p] + Visited(t2)
    ensures Visited(Join(t1, t2)) == t1.cells + Visited(t2)
  {
  }

  // ---------------------------------------------------------------------
  // Squares

  /** The side a non-terminal's square lies on, seen from its start
      direction: left of it for A, right of it for B. */
  function Side(k: Kind, d: Dir): Dir {
    if k == A then RotateLeft(d) else RotateRight(d)
  }

  /** `q` lies in the box [i0, i1) x [j0, j1) measured from `p` along `u`
      and `v`. */
  predicate InBox(q: Pos, p: Pos, u: Dir, v: Dir, i0: int, i1: int, j0: int, j1: int) {
    i0 <= Along(q, p, u) < i1 && j0 <= Along(q, p, v) < j1
  }

  /** `q` lies in the square of side `s` with corner `p` spanned by `u`
      and `v`. */
  predicate InSquare(q: Pos, p: Pos, u: Dir, v: Dir, s: int) {
    InBox(q, p, u, v, 0, s, 0, s)
  }

  /** Two directions at right angles. */
  predicate Perpendicular(u: Dir, v: Dir) {
    v != u && v != Opposite(u)
  }

  /** `t` is a Hilbert-style filling of the square of side `s` with corner
      `p` spanned by `u` and `v`: it visits each of its cells once and no
      other, and ends at the far corner along `u`, facing `u` again. */
  ghost predicate Fills(t: Track, p: Pos, u: Dir, v: Dir, s: int) {
    && t.endDir == u
    && Along(t.end, p, u) == s - 1
    && Along(t.end, p, v) == 0
    && |t.cells| + 1 == s * s
    && Distinct(Visited(t))
    && (forall q :: q in Visited(t) ==> InSquare(q, p, u, v, s))
    && (forall q :: InSquare(q, p, u, v, s) ==> q in Visited(t))
  }

  /** Measuring from another origin shifts every distance by the same
      amount; measuring backwards negates it. */
  lemma {:induction false} AlongFacts(q: Pos, p: Pos, p': Pos, e: Dir)
    ensures Along(q, p', e) == Along(q, p, e) - Along(p', p, e)
    ensures Along(q, p, Opposite(e)) == -Along(q, p, e)
    ensures Along(p, p, e) == 0
  {
  }

  /** A unit move changes the distance along its own line by one and
      leaves the distance along a perpendicular line alone. */
  lemma {:induction false} AlongMove(q: Pos, p: Pos, d: Dir, e: Dir)
    ensures e == d ==> Along(Move(q, d), p, e) == Along(q, p, e) + 1
    ensures e == Opposite(d) ==> Along(Move(q, d), p, e) == Along(q, p, e) - 1
    ensures Perpendicular(d, e) ==> Along(Move(q, d), p, e) == Along(q, p, e)
  {
  }

  /** Two perpendicular distances fix a cell. */
  lemma {:induction false} AlongDetermines(q: Pos, q': Pos, p: Pos, u: Dir, v: Dir)
    requires Perpendicular(u, v)
    requires Along(q, p, u) == Along(q', p, u) && Along(q, p, v) == Along(q', p, v)
    ensures q == q'
  {
  }

  /** How the turns of a production place its four sub-squares. */
  lemma {:induction false} TurnFacts(k: Kind, u: Dir)
    ensures var v := Side(k, u);
            && Perpendicular(u, v)
            && Perpendicular(v, u)
            && Perpendicular(Opposite(v), u)
            && Turned(Outer(k), u) == v
            && Side(Other(k), v) == u
            && Turned(Inner(k), v) == u
            && Turned(Inner(k), u) == Opposite(v)
            && Side(Other(k), Opposite(v)) == Opposite(u)
            && Turned(Outer(k), Opposite(v)) == u
  {
  }

  /** Concatenating sequences in a different grouping. */
  lemma {:induction false} VisitedThen(t: Track, rest: seq<Pos>)
    ensures t.cells + ([t.end] + rest) == Visited(t) + rest
  {
  }

  /** Two runs of distinct cells with no cell in common form one. */
  lemma {:induction false} DistinctAppend(a: seq<Pos>, b: seq<Pos>)
    requires Distinct(a) && Distinct(b)
    requires forall x :: x in a ==> x !in b
    ensures Distinct(a + b)
  {
    forall i, j | 0 <= i < j < |a + b|
      ensures (a + b)[i] != (a + b)[j]
    {
      if j < |a| {
        assert (a + b)[i] == a[i] && (a + b)[j] == a[j];
      } else if i < |a| {
        assert (a + b)[i] == a[i] && (a + b)[j] == b[j - |a|];
        assert a[i] in a && b[j - |a|] in b;
      } else {
        assert (a + b)[i] == b[i - |a|] && (a + b)[j] == b[j - |a|];
      }
    }
  }

  /** The four sub-tracks a production's expansion is made of: the
      non-terminals in the order they are read, each started where the
      `F` before it leaves the cursor, facing where the turns point it. */
  datatype Quarters = Quarters(t1: Track, t2: Track, t3: Track, t4: Track)

  function Split(k: Kind, n: nat, p: Pos, u: Dir): Quarters {
    var t1 := Trace(Sub(Other(k), n), p, Turned(Outer(k), u));
    var t2 := Trace(Sub(k, n), Move(t1.end, t1.endDir), Turned(Inner(k), t1.endDir));
    var t3 := Trace(Sub(k, n), Move(t2.end, t2.endDir), t2.endDir);
    var d4 := Turned(Inner(k), t3.endDir);
    var t4 := Trace(Sub(Other(k), n), Move(t3.end, d4), d4);
    Quarters(t1, t2, t3, t4)
  }

  /** A non-terminal one level up visits the cells of its four sub-tracks,
      in order, and ends where the last one ends, turned by the closing
      turn. */
  lemma {:induction false} Compose(k: Kind, n: nat, p: Pos, u: Dir)
    ensures var q := Split(k, n, p, u);
            var t := Trace(Sub(k, n + 1), p, u);
            && Visited(t) == Visited(q.t1) + (Visited(q.t2) + (Visited(q.t3) + Visited(q.t4)))
            && t.end == q.t4.end
            && t.endDir == Turned(Outer(k), q.t4.endDir)
  {
    var q := Split(k, n, p, u);
    var t1, t2, t3, t4 := q.t1, q.t2, q.t3, q.t4;
    var S, S' := Sub(k, n), Sub(Other(k), n);
    var O, I := Outer(k), Inner(k);
    assert O != Forward && I != Forward;
    var d4 := Turned(I, t3.endDir);
    var p2 := Move(t1.end, t1.endDir);
    var p3 := Move(t2.end, t2.endDir);
    var p4 := Move(t3.end, d4);
    var y10 := [O];
    var y9 := S' + y10;
    var y8 := [Forward] + y9;
    var y7 := [I] + y8;
    var y6 := S + y7;
    var y5 := [Forward] + y6;
    var y4 := S + y5;
    var y3 := [I] + y4;
    var y2 := [Forward] + y3;
    var y1 := S' + y2;
    var y0 := [O] + y1;
    assert Sub(k, n + 1) == y0 by {
      ExpandProduction(k, n);
    }
    var T10 := Track([], [], t4.end, Turned(O, t4.endDir));
    assert Trace(y10, t4.end, t4.endDir) == T10 by {
      TraceCons(O, [], t4.end, t4.endDir);
      ConcatNil([O]);
    }
    var T9 := Join(t4, T10);
    assert Trace(y9, p4, d4) == T9 by {
      TraceAppend(S', y10, p4, d4);
    }
    var T8 := Step(t3.end, d4, T9);
    assert Trace(y8, t3.end, d4) == T8 by {
      TraceCons(Forward, y9, t3.end, d4);
    }
    assert Trace(y7, t3.end, t3.endDir) == T8 by {
      TraceCons(I, y8, t3.end, t3.endDir);
    }
    var T6 := Join(t3, T8);
    assert Trace(y6, p3, t2.endDir) == T6 by {
      TraceAppend(S, y7, p3, t2.endDir);
    }
    var T5 := Step(t2.end, t2.endDir, T6);
    assert Trace(y5, t2.end, t2.endDir) == T5 by {
      TraceCons(Forward, y6, t2.end, t2.endDir);
    }
    var T4 := Join(t2, T5);
    assert Trace(y4, p2, Turned(I, t1.endDir)) == T4 by {
      TraceAppend(S, y5, p2, Turned(I, t1.endDir));
    }
    assert Trace(y3, p2, t1.endDir) == T4 by {
      TraceCons(I, y4, p2, t1.endDir);
    }
    var T2 := Step(t1.end, t1.endDir, T4);
    assert Trace(y2, t1.end, t1.endDir) == T2 by {
      TraceCons(Forward, y3, t1.end, t1.endDir);
    }
    var T1 := Join(t1, T2);
    assert Trace(y1, p, Turned(O, u)) == T1 by {
      TraceAppend(S', y2, p, Turned(O, u));
    }
    assert Trace(y0, p, u) == T1 by {
      TraceCons(O, y1, p, u);
    }
    assert Visited(T6) == Visited(t3) + Visited(t4) by {
      VisitedParts(t3.end, d4, t4, T10);
      VisitedParts(t3.end, d4, t3, T8);
      VisitedParts(t3.end, d4, t4, T9);
      VisitedThen(t3, Visited(T9));
    }
    assert Visited(T4) == Visited(t2) + Visited(T6) by {
      VisitedParts(t2.end, t2.endDir, t2, T5);
      VisitedParts(t2.end, t2.endDir, t3, T6);
      VisitedThen(t2, Visited(T6));
    }
    assert Visited(T1) == Visited(t1) + Visited(T4) by {
      VisitedParts(t1.end, t1.endDir, t1, T2);
      VisitedParts(t1.end, t1.endDir, t2, T4);
      VisitedThen(t1, Visited(T4));
    }
  }

  /** The square at `p'` spanned by `u` and `v` is a box of the square at
      `p` when `p'` sits at (i0, j0). */
  lemma {:induction false} ShiftedSquare(p: Pos, p': Pos, u: Dir, v: Dir, s: int, i0: int, j0: int)
    requires Along(p', p, u) == i0 && Along(p', p, v) == j0
    ensures forall x :: InSquare(x, p', u, v, s) <==> InBox(x, p, u, v, i0, i0 + s, j0, j0 + s)
  {
    forall x
      ensures InSquare(x, p', u, v, s) <==> InBox(x, p, u, v, i0, i0 + s, j0, j0 + s)
    {
      AlongFacts(x, p, p', u);
      AlongFacts(x, p, p', v);
    }
  }

  /** The same for a square drawn backwards from its far corner. */
  lemma {:induction false} ReversedSquare(p: Pos, p': Pos, u: Dir, v: Dir, s: int, i0: int, j0: int)
    requires Along(p', p, u) == i0 + s - 1 && Along(p', p, v) == j0 + s - 1
    ensures forall x :: InSquare(x, p', Opposite(v), Opposite(u), s) <==> InBox(x, p, u, v, i0, i0 + s, j0, j0 + s)
  {
    forall x
      ensures InSquare(x, p', Opposite(v), Opposite(u), s) <==> InBox(x, p, u, v, i0, i0 + s, j0, j0 + s)
    {
      AlongFacts(x, p, p', u);
      AlongFacts(x, p, p', v);
      AlongFacts(x, p', p', u);
      AlongFacts(x, p', p', v);
    }
  }

  /** Where the four quarters of a square start and end, measured in the
      big square. */
  lemma {:induction false} QuarterCorners(t1: Track, t2: Track, t3: Track, t4: Track, p: Pos, u: Dir, v: Dir, s: int)
    requires Perpendicular(u, v) && Perpendicular(v, u) && Perpendicular(Opposite(v), u)
    requires Fills(t1, p, v, u, s)
    requires Fills(t2, Move(t1.end, v), u, v, s)
    requires Fills(t3, Move(t2.end, u), u, v, s)
    requires Fills(t4, Move(t3.end, Opposite(v)), Opposite(v), Opposite(u), s)
    ensures Along(Move(t1.end, v), p, u) == 0 && Along(Move(t1.end, v), p, v) == s
    ensures Along(Move(t2.end, u), p, u) == s && Along(Move(t2.end, u), p, v) == s
    ensures Along(Move(t3.end, Opposite(v)), p, u) == 2 * s - 1
    ensures Along(Move(t3.end, Opposite(v)), p, v) == s - 1
    ensures Along(t4.end, p, u) == 2 * s - 1 && Along(t4.end, p, v) == 0
  {
    var w := Opposite(v);
    var p2, p3, p4 := Move(t1.end, v), Move(t2.end, u), Move(t3.end, w);
    AlongMove(t1.end, p, v, v);
    AlongMove(t1.end, p, v, u);
    AlongFacts(t2.end, p, p2, u);
    AlongFacts(t2.end, p, p2, v);
    AlongMove(t2.end, p, u, u);
    AlongMove(t2.end, p, u, v);
    AlongFacts(t3.end, p, p3, u);
    AlongFacts(t3.end, p, p3, v);
    OppositeFacts(v);
    AlongMove(t3.end, p, w, v);
    AlongMove(t3.end, p, w, u);
    AlongFacts(t4.end, p, p4, u);
    AlongFacts(t4.end, p, p4, v);
    AlongFacts(t4.end, p4, p4, u);
    AlongFacts(t4.end, p4, p4, v);
  }

  /** Four quarters laid out as a production lays them out fill the square
      of twice their side. */
  lemma {:induction false} Assemble(t: Track, t1: Track, t2: Track, t3: Track, t4: Track, p: Pos, u: Dir, v: Dir, s: int)
    requires s >= 1
    requires Perpendicular(u, v) && Perpendicular(v, u) && Perpendicular(Opposite(v), u)
    requires Fills(t1, p, v, u, s)
    requires Fills(t2, Move(t1.end, v), u, v, s)
    requires Fills(t3, Move(t2.end, u), u, v, s)
    requires Fills(t4, Move(t3.end, Opposite(v)), Opposite(v), Opposite(u), s)
    requires Visited(t) == Visited(t1) + (Visited(t2) + (Visited(t3) + Visited(t4)))
    requires t.end == t4.end && t.endDir == u
    ensures Fills(t, p, u, v, 2 * s)
  {
    var w := Opposite(v);
    var p2, p3, p4 := Move(t1.end, v), Move(t2.end, u), Move(t3.end, w);
    var V1, V2, V3, V4 := Visited(t1), Visited(t2), Visited(t3), Visited(t4);
    QuarterCorners(t1, t2, t3, t4, p, u, v, s);
    ShiftedSquare(p, p2, u, v, s, 0, s);
    ShiftedSquare(p, p3, u, v, s, s, s);
    ReversedSquare(p, p4, u, v, s, s, 0);
    assert forall x :: x in V1 <==> InBox(x, p, u, v, 0, s, 0, s);
    assert forall x :: x in V2 <==> InBox(x, p, u, v, 0, s, s, 2 * s);
    assert forall x :: x in V3 <==> InBox(x, p, u, v, s, 2 * s, s, 2 * s);
    assert forall x :: x in V4 <==> InBox(x, p, u, v, s, 2 * s, 0, s);
    DistinctAppend(V3, V4);
    DistinctAppend(V2, V3 + V4);
    DistinctAppend(V1, V2 + (V3 + V4));
    assert |Visited(t)| == 4 * (s * s);
    assert (2 * s) * (2 * s) == 4 * (s * s);
  }

  /** The Hilbert property: the expansion of a non-terminal to depth `n`,
      started at `p` facing `u`, fills the square of side 2^n spanned by
      `u` and the non-terminal's side, visiting each of its cells exactly
      once, and ends at the far corner along `u`, facing `u`. */
  lemma {:induction false} Hilbert(k: Kind, n: nat, p: Pos, u: Dir)
    ensures Fills(Trace(Sub(k, n), p, u), p, u, Side(k, u), Pow2(n))
    decreases n
  {
    var v := Side(k, u);
    TurnFacts(k, u);
    if n == 0 {
      var t := Trace(Sub(k, 0), p, u);
      assert Visited(t) == [p];
      forall q | InSquare(q, p, u, v, 1)
        ensures q in Visited(t)
      {
        AlongDetermines(q, p, p, u, v);
      }
    } else {
      var m := n - 1;
      var qs := Split(k, m, p, u);
      Compose(k, m, p, u);
      Hilbert(Other(k), m, p, v);
      Hilbert(k, m, Move(qs.t1.end, v), u);
      Hilbert(k, m, Move(qs.t2.end, u), u);
      Hilbert(Other(k), m, Move(qs.t3.end, Opposite(v)), Opposite(v));
      Assemble(Trace(Sub(k, n), p, u), qs.t1, qs.t2, qs.t3, qs.t4, p, u, v, Pow2(m));
    }
  }
}

/** The curve grid: a square of `2^order` by `2^order` cells held row by
    row in one sequence, and its factory. */
module Grid {
  import opened Options
  import opened Directions
  import opened Cells

  /** The grid. `cells` holds row `y` at positions `y * sidelen` to
      `y * sidelen + sidelen - 1`. */
  datatype Graph = Graph(order: int, sidelen: int, cells: seq<Cell>)

  /** Why the factory refused. */
  datatype GraphError = InvalidOrder

  /** Smallest and largest order accepted: with order 15 a side is 2^15 and
      the cell count 2^30, which a signed 32-bit int holds. */
  const MinOrder: int := 1
  const MaxOrder: int := 15

  function Pow2(n: nat): (r: nat)
    ensures r >= 1
  {
    if n == 0 then 1 else 2 * Pow2(n - 1)
  }

  lemma {:induction false} Pow2Monotone(m: nat, n: nat)
    requires m <= n
    ensures Pow2(m) <= Pow2(n)
    decreases n - m
  {
    if m < n {
      Pow2Monotone(m, n - 1);
    }
  }

  /** The side of the largest grid. */
  lemma {:induction false} Pow2Max()
    ensures Pow2(MaxOrder) == 0x8000
  {
    assert Pow2(0) == 1;
    assert Pow2(1) == 2;
    assert Pow2(2) == 4;
    assert Pow2(3) == 8;
    assert Pow2(4) == 16;
    assert Pow2(5) == 32;
    assert Pow2(6) == 64;
    assert Pow2(7) == 128;
    assert Pow2(8) == 256;
    assert Pow2(9) == 512;
    assert Pow2(10) == 1024;
    assert Pow2(11) == 2048;
    assert Pow2(12) == 4096;
    assert Pow2(13) == 8192;
    assert Pow2(14) == 16384;
  }

  /** A grid as the factory builds it. */
  predicate GraphValid(g: Graph) {
    && MinOrder <= g.order <= MaxOrder
    && g.sidelen == Pow2(g.order)
    && |g.cells| == g.sidelen * g.sidelen
  }

  /** The grid factory: refuses an order outside 1 to 15, otherwise a
      grid of side `1 << order` (the C shift is exact in that range) whose
      `sidelen * sidelen` cells, at most 2^30 of them, all start blank. */
  function CreateGraph(order: int): (r: Result<Graph, GraphError>)
    ensures r.Success? <==> MinOrder <= order <= MaxOrder
    ensures r.Failure? ==> r.error == InvalidOrder
    ensures r.Success? ==> GraphValid(r.value) && r.value.order == order
    ensures r.Success? ==> r.value.sidelen * r.value.sidelen <= 0x4000_0000
    ensures r.Success? ==> forall i :: 0 <= i < |r.value.cells| ==> r.value.cells[i] == Blank
  {
    if order < MinOrder || order > MaxOrder then
      Failure(InvalidOrder)
    else
      var side := Pow2(order);
      assert side * side <= 0x4000_0000 by {
        Pow2Monotone(order, MaxOrder);
        Pow2Max();
        MulMonotone(side, 0x8000, side);
        MulMonotone(side, 0x8000, 0x8000);
      }
      Success(Graph(order, side, seq(side * side, _ => Blank)))
  }

  /** The position of cell (x, y) in `cells`. */
  function Index(g: Graph, p: Pos): int {
    p.y * g.sidelen + p.x
  }

  /** (x, y) lies on the grid. */
  predicate OnGrid(g: Graph, p: Pos) {
    0 <= p.x < g.sidelen && 0 <= p.y < g.sidelen
  }

  /** Multiplication by a non-negative factor is monotone. */
  lemma {:induction false} MulMonotone(a: int, b: int, c: int)
    requires a <= b && 0 <= c
    ensures a * c <= b * c
  {
    assert b * c - a * c == (b - a) * c;
  }

  /** Row-major positions of a square of side `s` stay inside it. */
  lemma {:induction false} RowMajorBounds(s: int, x: int, y: int)
    requires 0 <= x < s && 0 <= y < s
    ensures 0 <= y * s + x < s * s
  {
    MulMonotone(y, s - 1, s);
    MulMonotone(0, y, s);
    assert (s - 1) * s == s * s - s;
  }

  /** A smaller row starts at least one row earlier. */
  lemma {:induction false} MulStrict(a: int, b: int, c: int)
    requires 0 <= c
    ensures a < b ==> a * c + c <= b * c
  {
    if a < b {
      MulMonotone(a + 1, b, c);
      assert (a + 1) * c == a * c + c;
    }
  }

  /** A row-major position determines its row and column. */
  lemma {:induction false} RowMajorUnique(s: int, x: int, y: int, x': int, y': int)
    requires 0 <= x < s && 0 <= x' < s && 0 <= y && 0 <= y'
    requires y * s + x == y' * s + x'
    ensures x == x' && y == y'
  {
    MulStrict(y, y', s);
    MulStrict(y', y, s);
  }

  /** A cell on the grid has a position in `cells`. */
  lemma {:induction false} IndexInRange(g: Graph, p: Pos)
    requires GraphValid(g) && OnGrid(g, p)
    ensures 0 <= Index(g, p) < |g.cells|
  {
    RowMajorBounds(g.sidelen, p.x, p.y);
  }

  /** Distinct cells of the grid have distinct positions in `cells`. */
  lemma {:induction false} IndexInjective(g: Graph, p: Pos, q: Pos)
    requires GraphValid(g) && OnGrid(g, p) && OnGrid(g, q)
    ensures Index(g, p) == Index(g, q) <==> p == q
  {
    if Index(g, p) == Index(g, q) {
      RowMajorUnique(g.sidelen, p.x, p.y, q.x, q.y);
    }
  }

  /** Row and column of a position in a square of side `s`. */
  lemma {:induction false} RowMajorSplit(s: int, j: int)
    requires 0 < s && 0 <= j < s * s
    ensures 0 <= j % s < s && 0 <= j / s < s
    ensures (j / s) * s + j % s == j
  {
    var q, r := j / s, j % s;
    assert q * s + r == j;
    MulStrict(q, 0, s);
    MulStrict(s - 1, q, s);
    assert (s - 1) * s + s == s * s;
  }

  /** Every position of `cells` belongs to a cell of the grid. */
  lemma {:induction false} IndexOnto(g: Graph, j: int)
    requires GraphValid(g) && 0 <= j < |g.cells|
    ensures OnGrid(g, Pos(j % g.sidelen, j / g.sidelen))
    ensures Index(g, Pos(j % g.sidelen, j / g.sidelen)) == j
  {
    RowMajorSplit(g.sidelen, j);
  }

  /** The shape stored for cell (x, y). */
  function CellAt(g: Graph, p: Pos): Cell
    requires GraphValid(g) && OnGrid(g, p)
  {
    IndexInRange(g, p);
    g.cells[Index(g, p)]
  }
}

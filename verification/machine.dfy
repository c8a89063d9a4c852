/** The interpreter: a stack of frames, each reading one production, that
    rewrites non-terminals by pushing frames up to the curve's order and
    moves the cursor on `F` and the turns. `Advance` reads symbols until
    one segment is drawn or the curve is finished; `Complete` advances
    until finished. */
module Machine {
  import opened Options
  import opened Seqs
  import opened Directions
  import opened Cells
  import opened Grid
  import opened Grammar
  import opened Turtle

  /** One entry of the recursion stack: the production it reads (none once
      cleared, or once the bottom frame has finished) and the index of the
      next symbol. */
  datatype Frame = Frame(prod: Option<string>, index: int)

  /** A frame as zeroed memory holds it. */
  const Cleared: Frame := Frame(None, 0)

  /** The interpreter's state: the grid it draws on, the cursor, the stack
      of `order` frames and the index of the top frame. */
  datatype Engine = Engine(graph: Graph, cursor: Cursor, frames: seq<Frame>, depth: int)

  /** A frame reading a string, at most at its terminator. */
  predicate Live(f: Frame) {
    f.prod.Some? && 0 <= f.index <= |f.prod.value|
  }

  /** The states the interpreter can be in: a grid as the factory builds
      it, one frame per order, the frames up to the top live and those
      above it cleared; once the bottom frame is finished it is the top. */
  predicate Valid(e: Engine) {
    && GraphValid(e.graph)
    && |e.frames| == e.graph.order
    && 0 <= e.depth < e.graph.order
    && (forall i :: e.depth < i < |e.frames| ==> e.frames[i] == Cleared)
    && (if e.frames[e.depth].prod.None? then e.depth == 0
        else forall i :: 0 <= i <= e.depth ==> Live(e.frames[i]))
  }

  /** The curve is finished: the top frame has no production. */
  predicate Done(e: Engine)
    requires 0 <= e.depth < |e.frames|
  {
    e.frames[e.depth].prod.None?
  }

  /** The top frame exists and reads a string. */
  predicate Reading(e: Engine) {
    0 <= e.depth < |e.frames| && Live(e.frames[e.depth])
  }

  /** The engine factory: the cursor in the bottom-left cell facing right,
      entered from below, and one frame reading A's production from its
      start. */
  function CreateEngine(g: Graph): (e: Engine)
    requires GraphValid(g)
    ensures Valid(e) && !Done(e) && e.graph == g && e.depth == 0
    ensures At(e.cursor) == Pos(0, g.sidelen - 1) && e.cursor.curr == Right && e.cursor.prev == Down
    ensures e.frames[0] == Frame(Some(Production(A)), 0)
  {
    Engine(g, Cursor(0, g.sidelen - 1, Right, Down),
           [Frame(ProdStr(SymSub(A)), 0)] + seq(g.order - 1, _ => Cleared), 0)
  }

  /** The level of the frame at index `i`: how many frames may still be
      pushed above it. */
  function Level(order: int, i: int): nat {
    if 0 <= i < order then order - 1 - i else 0
  }

  /** The part of a frame's production it has not read yet; nothing for a
      frame that reads no string. */
  function Rest(f: Frame): string {
    if Live(f) then f.prod.value[f.index..] else []
  }

  /** The actions the live frames `fs` (bottom first) of a stack of
      `order` frames still stand for: the rest of the top frame's
      production, then the rest of each frame below it. */
  function Stacked(fs: seq<Frame>, order: int): seq<Action>
    decreases |fs|
  {
    if fs == [] then []
    else
      var i := |fs| - 1;
      Expand(Rest(fs[i]), Level(order, i)) + Stacked(fs[..i], order)
  }

  /** The symbol reads the live frames `fs` still have to do. */
  function StackReads(fs: seq<Frame>, order: int): nat
    decreases |fs|
  {
    if fs == [] then 0
    else
      var i := |fs| - 1;
      Reads(Rest(fs[i]), Level(order, i)) + StackReads(fs[..i], order)
  }

  /** The actions a state still has to carry out. */
  function Remaining(e: Engine): seq<Action> {
    if Reading(e) then Stacked(e.frames[..e.depth + 1], e.graph.order) else []
  }

  /** The symbol reads a state still has to do. */
  function Pending(e: Engine): nat {
    if Reading(e) then StackReads(e.frames[..e.depth + 1], e.graph.order) else 0
  }

  /** What a state goes on to produce: its remaining actions run on its
      grid and cursor, then the last cell classified in place. */
  function Outcome(e: Engine): Out
    requires GraphValid(e.graph)
  {
    if !Reading(e) then Out(e.graph, e.cursor, [], [])
    else
      var r := Run(e.graph, e.cursor, Remaining(e));
      var f := Finish(r.graph, r.cursor);
      Out(f.graph, f.cursor, r.drawn, r.warnings + f.warnings)
  }

  /** The result of reading one symbol: the new state, what it drew and
      logged, and whether the read ends a call of `Advance`. */
  datatype Read = Read(engine: Engine, drawn: seq<Segment>, warnings: seq<Warning>, stops: bool)

  /** One pass of the loop in `Advance`: read the top frame's next symbol
      and act on it. A non-terminal pushes a frame reading its production
      unless the stack is full, when it is skipped. The terminator pops a
      frame, or, in the bottom frame, classifies the last cell and marks
      the curve finished. */
  function ReadSymbol(e: Engine): (r: Read)
    requires Valid(e) && !Done(e)
  {
    var f := e.frames[e.depth];
    var p := f.prod.value;
    var sym := SymbolAt(p, f.index);
    var frames := e.frames[e.depth := Frame(f.prod, f.index + 1)];
    var e1 := e.(frames := frames);
    match sym
    case SymSub(k) =>
      if e.depth < e.graph.order - 1 then
        Read(e1.(frames := frames[e.depth + 1 := Frame(ProdStr(sym), 0)], depth := e.depth + 1), [], [], false)
      else
        Read(e1, [], [], false)
    case SymNull =>
      if e.depth > 0 then
        Read(e.(frames := e.frames[e.depth := Cleared], depth := e.depth - 1), [], [], false)
      else
        var o := Finish(e.graph, e.cursor);
        Read(e.(graph := o.graph, frames := e.frames[0 := Frame(None, f.index + 1)]), [], o.warnings, true)
    case SymForward =>
      var o := DrawForward(e.graph, e.cursor);
      Read(e1.(graph := o.graph, cursor := o.cursor), o.drawn, o.warnings, true)
    case SymLeft =>
      Read(e1.(cursor := e.cursor.(curr := RotateLeft(e.cursor.curr))), [], [], false)
    case SymRight =>
      Read(e1.(cursor := e.cursor.(curr := RotateRight(e.cursor.curr))), [], [], false)
    case SymOther(_) =>
      Read(e1, [], [], false)
  }

  /** The top frame of a running state. */
  function Top(e: Engine): Frame
    requires 0 <= e.depth < |e.frames|
  {
    e.frames[e.depth]
  }

  /** The symbol the top frame of a running state reads next. */
  function NextSymbol(e: Engine): Sym
    requires Reading(e)
  {
    SymbolAt(Top(e).prod.value, Top(e).index)
  }

  /** The remaining actions of a running state split into the rest of its
      top frame and the frames below. */
  lemma {:induction false} TopActions(e: Engine)
    requires Reading(e)
    ensures Remaining(e) == Expand(Rest(Top(e)), Level(e.graph.order, e.depth)) + Stacked(e.frames[..e.depth], e.graph.order)
  {
    var fs := e.frames[..e.depth + 1];
    assert fs[..e.depth] == e.frames[..e.depth];
    assert fs[e.depth] == e.frames[e.depth];
  }

  /** The pending reads of a running state split into the rest of its top
      frame and the frames below. */
  lemma {:induction false} TopReads(e: Engine)
    requires Reading(e)
    ensures Pending(e) == Reads(Rest(Top(e)), Level(e.graph.order, e.depth)) + StackReads(e.frames[..e.depth], e.graph.order)
  {
    var fs := e.frames[..e.depth + 1];
    assert fs[..e.depth] == e.frames[..e.depth];
    assert fs[e.depth] == e.frames[e.depth];
  }

  /** Runs from states with the same remaining actions, grid and cursor
      produce the same. */
  lemma {:induction false} OutcomeSame(e: Engine, e': Engine)
    requires GraphValid(e.graph) && Reading(e) && Reading(e')
    requires Remaining(e) == Remaining(e') && e.graph == e'.graph && e.cursor == e'.cursor
    ensures Outcome(e) == Then([], [], Outcome(e'))
  {
    ConcatNil(Outcome(e').drawn);
    ConcatNil(Outcome(e').warnings);
  }

  /** A state whose remaining actions are one action more than another's,
      on the grid and cursor that action leads from, produces what the
      action produces followed by what the other state produces. */
  lemma {:induction false} OutcomeCons(e: Engine, e': Engine, a: Action)
    requires GraphValid(e.graph) && Reading(e) && Reading(e')
    requires Remaining(e) == [a] + Remaining(e')
    requires var o := Act(e.graph, e.cursor, a); e'.graph == o.graph && e'.cursor == o.cursor
    ensures var o := Act(e.graph, e.cursor, a); Outcome(e) == Then(o.drawn, o.warnings, Outcome(e'))
  {
    var o := Act(e.graph, e.cursor, a);
    RunCons(e.graph, e.cursor, a, Remaining(e'));
    var r := Run(e'.graph, e'.cursor, Remaining(e'));
    var f := Finish(r.graph, r.cursor);
    ConcatAssoc(o.warnings, r.warnings, f.warnings);
  }

  /** The state after the top frame consumes one symbol, before acting on
      it. */
  function Consumed(e: Engine): Engine
    requires 0 <= e.depth < |e.frames|
  {
    e.(frames := e.frames[e.depth := Frame(Top(e).prod, Top(e).index + 1)])
  }

  /** Consuming a symbol before the terminator keeps the state valid. */
  lemma {:induction false} ConsumedValid(e: Engine)
    requires Valid(e) && !Done(e)
    requires Top(e).index < |Top(e).prod.value|
    ensures Valid(Consumed(e)) && !Done(Consumed(e))
    ensures Top(Consumed(e)) == Frame(Top(e).prod, Top(e).index + 1)
  {
    var e1 := Consumed(e);
    assert Live(e.frames[e.depth]);
    assert forall j :: 0 <= j < |e.frames| && j != e.depth ==> e1.frames[j] == e.frames[j];
  }

  /** Consuming a symbol moves the top frame one symbol on and leaves the
      frames below it alone. */
  lemma {:induction false} ConsumedFrames(e: Engine)
    requires Reading(e) && Top(e).index < |Top(e).prod.value|
    ensures var e1 := Consumed(e);
            && Reading(e1) && e1.depth == e.depth && e1.graph == e.graph
            && e1.frames[..e.depth] == e.frames[..e.depth]
            && Rest(Top(e)) == [Top(e).prod.value[Top(e).index]] + Rest(Top(e1))
  {
    var e1, p, i := Consumed(e), Top(e).prod.value, Top(e).index;
    assert e1.frames[..e.depth] == e.frames[..e.depth];
    assert p[i..] == [p[i]] + p[i + 1..];
  }

  /** Consuming a symbol before the terminator takes that symbol's
      actions off the front of the remaining ones. */
  lemma {:induction false} ConsumeActions(e: Engine)
    requires Reading(e) && Top(e).index < |Top(e).prod.value|
    ensures Reading(Consumed(e))
    ensures Remaining(e) == SymActions(NextSymbol(e), Level(e.graph.order, e.depth)) + Remaining(Consumed(e))
  {
    var e1, n := Consumed(e), Level(e.graph.order, e.depth);
    ConsumedFrames(e);
    TopActions(e);
    TopActions(e1);
    var c, rest := Top(e).prod.value[Top(e).index], Rest(Top(e1));
    ExpandCons(c, rest, n);
    ConcatAssoc(SymActions(Decode(c), n), Expand(rest, n), Stacked(e.frames[..e.depth], e.graph.order));
  }

  /** Consuming a symbol before the terminator takes one read and the
      reads of that symbol's frames off what is pending. */
  lemma {:induction false} ConsumeReads(e: Engine)
    requires Reading(e) && Top(e).index < |Top(e).prod.value|
    ensures Reading(Consumed(e))
    ensures Pending(e) == 1 + SymReads(NextSymbol(e), Level(e.graph.order, e.depth)) + Pending(Consumed(e))
  {
    var e1, n := Consumed(e), Level(e.graph.order, e.depth);
    ConsumedFrames(e);
    TopReads(e);
    TopReads(e1);
    ReadsCons(Top(e).prod.value[Top(e).index], Rest(Top(e1)), n);
  }

  /** The state after a frame reading `q` from its start is pushed. */
  function Pushed(e: Engine, q: string): Engine
    requires 0 <= e.depth < |e.frames| - 1
  {
    e.(frames := e.frames[e.depth + 1 := Frame(Some(q), 0)], depth := e.depth + 1)
  }

  /** Pushing a frame keeps the state valid and running, with the frames
      below it as they were. */
  lemma {:induction false} PushedValid(e: Engine, q: string)
    requires Valid(e) && !Done(e) && e.depth < e.graph.order - 1
    ensures var e' := Pushed(e, q);
            && Valid(e') && !Done(e') && Top(e') == Frame(Some(q), 0)
            && e'.frames[..e'.depth] == e.frames[..e.depth + 1]
  {
    var e' := Pushed(e, q);
    assert forall j :: 0 <= j <= e.depth ==> e'.frames[j] == e.frames[j];
    assert e'.frames[..e.depth + 1] == e.frames[..e.depth + 1];
  }

  /** Pushing a frame that reads `q` from its start puts the actions of
      `q`, one level further down, in front of the remaining ones. */
  lemma {:induction false} PushActions(e: Engine, q: string)
    requires Reading(e) && e.depth < |e.frames| - 1 && |e.frames| == e.graph.order
    ensures Reading(Pushed(e, q))
    ensures Remaining(Pushed(e, q)) == Expand(q, Level(e.graph.order, e.depth) - 1) + Remaining(e)
  {
    var e' := Pushed(e, q);
    assert e'.frames[..e'.depth] == e.frames[..e.depth + 1];
    TopActions(e');
    assert q[0..] == q;
  }

  /** Pushing a frame that reads `q` from its start adds the reads of `q`,
      one level further down, to what is pending. */
  lemma {:induction false} PushReads(e: Engine, q: string)
    requires Reading(e) && e.depth < |e.frames| - 1 && |e.frames| == e.graph.order
    ensures Reading(Pushed(e, q))
    ensures Pending(Pushed(e, q)) == Reads(q, Level(e.graph.order, e.depth) - 1) + Pending(e)
  {
    var e' := Pushed(e, q);
    assert e'.frames[..e'.depth] == e.frames[..e.depth + 1];
    TopReads(e');
    assert q[0..] == q;
  }

  /** A non-terminal read below the top of the stack is replaced by a new
      frame reading its production one level down. */
  lemma {:induction false} ReadPush(e: Engine)
    requires Valid(e) && !Done(e)
    requires NextSymbol(e).SymSub? && e.depth < e.graph.order - 1
    ensures ReadSymbol(e).engine == Pushed(Consumed(e), Production(NextSymbol(e).kind))
    ensures var r := ReadSymbol(e);
            && Valid(r.engine) && !Done(r.engine) && r.engine.graph.order == e.graph.order
            && Pending(r.engine) == Pending(e) - 1
            && Outcome(e) == Then(r.drawn, r.warnings, Outcome(r.engine))
            && !r.stops && r.drawn == [] && r.warnings == []
  {
    var k := NextSymbol(e).kind;
    assert Live(Top(e)) && Top(e).index < |Top(e).prod.value| by {
      TopActions(e);
    }
    ConsumedValid(e);
    assert ReadSymbol(e) == Read(Pushed(Consumed(e), Production(k)), [], [], false);
    var n := Level(e.graph.order, e.depth);
    SubExpands(k, n);
    PushSound(e, Production(k), Expand(Production(k), n - 1), Reads(Production(k), n - 1));
    OutcomeSame(e, Pushed(Consumed(e), Production(k)));
  }

  /** Consuming a symbol that stands for the actions `xs` and the reads
      `m`, and pushing a frame for a string `q` with the same actions and
      reads one level down, keeps the state valid, takes one read off what
      is pending, and leaves the actions still to carry out unchanged. */
  lemma {:induction false} PushSound(e: Engine, q: string, xs: seq<Action>, m: nat)
    requires Valid(e) && !Done(e) && e.depth < e.graph.order - 1
    requires Top(e).index < |Top(e).prod.value|
    requires var n := Level(e.graph.order, e.depth);
             && n >= 1
             && SymActions(NextSymbol(e), n) == xs && Expand(q, n - 1) == xs
             && SymReads(NextSymbol(e), n) == m && Reads(q, n - 1) == m
    ensures Valid(Consumed(e)) && Consumed(e).depth == e.depth
    ensures var e' := Pushed(Consumed(e), q);
            && Valid(e') && !Done(e') && e'.graph == e.graph && e'.cursor == e.cursor
            && Pending(e') == Pending(e) - 1
            && Remaining(e') == Remaining(e)
  {
    ConsumedValid(e);
    PushedValid(Consumed(e), q);
    ConsumeActions(e);
    ConsumeReads(e);
    PushActions(Consumed(e), q);
    PushReads(Consumed(e), q);
  }

  /** A non-terminal read at the top of a full stack is skipped. */
  lemma {:induction false} ReadSkip(e: Engine)
    requires Valid(e) && !Done(e)
    requires NextSymbol(e).SymSub? && e.depth == e.graph.order - 1
    ensures ReadSymbol(e).engine == Consumed(e)
    ensures var r := ReadSymbol(e);
            && Valid(r.engine) && !Done(r.engine) && r.engine.graph.order == e.graph.order
            && Pending(r.engine) == Pending(e) - 1
            && Outcome(e) == Then(r.drawn, r.warnings, Outcome(r.engine))
            && !r.stops && r.drawn == [] && r.warnings == []
  {
    SkipConsumes(e);
    ConsumeSilent(e);
  }

  /** Reading a non-terminal at the top of a full stack only consumes it. */
  lemma {:induction false} SkipConsumes(e: Engine)
    requires Valid(e) && !Done(e)
    requires NextSymbol(e).SymSub? && e.depth == e.graph.order - 1
    ensures Top(e).index < |Top(e).prod.value| && Level(e.graph.order, e.depth) == 0
    ensures ReadSymbol(e) == Read(Consumed(e), [], [], false)
  {
  }

  /** Consuming a symbol that stands for no action and no reads changes
      nothing about what the state goes on to produce. */
  lemma {:induction false} ConsumeSilent(e: Engine)
    requires Valid(e) && !Done(e) && Top(e).index < |Top(e).prod.value|
    requires SymActions(NextSymbol(e), Level(e.graph.order, e.depth)) == []
    requires SymReads(NextSymbol(e), Level(e.graph.order, e.depth)) == 0
    ensures Valid(Consumed(e)) && !Done(Consumed(e))
    ensures Pending(Consumed(e)) == Pending(e) - 1
    ensures Outcome(e) == Then([], [], Outcome(Consumed(e)))
  {
    ConsumedValid(e);
    ConsumeActions(e);
    ConsumeReads(e);
    ConcatNil(Remaining(Consumed(e)));
    OutcomeSame(e, Consumed(e));
  }

  /** A symbol that is no action of the grammar is consumed and ignored. */
  lemma {:induction false} ReadOther(e: Engine)
    requires Valid(e) && !Done(e)
    requires NextSymbol(e).SymOther?
    ensures ReadSymbol(e).engine == Consumed(e)
    ensures var r := ReadSymbol(e);
            && Valid(r.engine) && !Done(r.engine) && r.engine.graph.order == e.graph.order
            && Pending(r.engine) == Pending(e) - 1
            && Outcome(e) == Then(r.drawn, r.warnings, Outcome(r.engine))
            && !r.stops && r.drawn == [] && r.warnings == []
  {
    OtherConsumes(e);
    ConsumeSilent(e);
  }

  /** Reading a symbol that is no action of the grammar only consumes it. */
  lemma {:induction false} OtherConsumes(e: Engine)
    requires Valid(e) && !Done(e) && NextSymbol(e).SymOther?
    ensures Top(e).index < |Top(e).prod.value|
    ensures ReadSymbol(e) == Read(Consumed(e), [], [], false)
  {
  }

  /** An action symbol is carried out on the grid and cursor. */
  lemma {:induction false} ReadAction(e: Engine, a: Action)
    requires Valid(e) && !Done(e)
    requires NextSymbol(e) == ActionSym(a)
    ensures var o := Act(e.graph, e.cursor, a);
            ReadSymbol(e) == Read(Consumed(e).(graph := o.graph, cursor := o.cursor), o.drawn, o.warnings, a == Forward)
    ensures var r := ReadSymbol(e);
            && Valid(r.engine) && !Done(r.engine) && r.engine.graph.order == e.graph.order
            && Pending(r.engine) == Pending(e) - 1
            && Outcome(e) == Then(r.drawn, r.warnings, Outcome(r.engine))
            && (r.stops <==> a == Forward)
            && (!r.stops ==> r.drawn == [] && r.warnings == [])
            && (r.stops ==> |r.drawn| == 1)
  {
    var e1, o := Consumed(e), Act(e.graph, e.cursor, a);
    var e' := e1.(graph := o.graph, cursor := o.cursor);
    ConsumedValid(e);
    ConsumeActions(e);
    ConsumeReads(e);
    Regraphed(e1, o.graph, o.cursor);
    ReadActs(e, a);
    OutcomeCons(e, e', a);
  }

  /** The symbol of an action. */
  function ActionSym(a: Action): Sym {
    match a
    case Forward => SymForward
    case TurnLeft => SymLeft
    case TurnRight => SymRight
  }

  /** Reading an action symbol consumes it and does the action. */
  lemma {:induction false} ReadActs(e: Engine, a: Action)
    requires Valid(e) && !Done(e)
    requires NextSymbol(e) == ActionSym(a)
    ensures var o := Act(e.graph, e.cursor, a);
            ReadSymbol(e) == Read(Consumed(e).(graph := o.graph, cursor := o.cursor), o.drawn, o.warnings, a == Forward)
  {
  }

  /** A valid state stays valid, with the same actions and reads to come,
      on another grid of the same order. */
  lemma {:induction false} Regraphed(e: Engine, g: Graph, c: Cursor)
    requires Valid(e) && GraphValid(g) && g.order == e.graph.order
    ensures var e' := e.(graph := g, cursor := c);
            && Valid(e') && Done(e') == Done(e) && Reading(e') == Reading(e)
            && Remaining(e') == Remaining(e) && Pending(e') == Pending(e)
  {
  }

  /** The terminator of a frame above the bottom pops it. */
  lemma {:induction false} ReadPop(e: Engine)
    requires Valid(e) && !Done(e)
    requires NextSymbol(e) == SymNull && e.depth > 0
    ensures ReadSymbol(e).engine == e.(frames := e.frames[e.depth := Cleared], depth := e.depth - 1)
    ensures var r := ReadSymbol(e);
            && Valid(r.engine) && !Done(r.engine) && r.engine.graph.order == e.graph.order
            && Pending(r.engine) == Pending(e) - 1
            && Outcome(e) == Then(r.drawn, r.warnings, Outcome(r.engine))
            && !r.stops && r.drawn == [] && r.warnings == []
  {
    var e' := e.(frames := e.frames[e.depth := Cleared], depth := e.depth - 1);
    assert ReadSymbol(e).engine == e';
    PopFrame(e);
    OutcomeSame(e, e');
  }

  /** Popping a finished frame above the bottom keeps the state valid and
      running, leaves the remaining actions as they were and takes the
      terminator's read off what is pending. */
  lemma {:induction false} PopFrame(e: Engine)
    requires Valid(e) && !Done(e) && e.depth > 0
    requires Top(e).index == |Top(e).prod.value|
    ensures var e' := e.(frames := e.frames[e.depth := Cleared], depth := e.depth - 1);
            && Valid(e') && !Done(e') && Reading(e')
            && Remaining(e') == Remaining(e) && Pending(e') + 1 == Pending(e)
  {
    var e' := e.(frames := e.frames[e.depth := Cleared], depth := e.depth - 1);
    assert Rest(Top(e)) == [];
    assert e'.frames[..e.depth] == e.frames[..e.depth];
    assert Valid(e') by {
      assert forall j :: 0 <= j < e.depth ==> e'.frames[j] == e.frames[j];
      assert Live(e.frames[e.depth - 1]);
    }
    TopActions(e);
    TopReads(e);
    ConcatNil(Stacked(e.frames[..e.depth], e.graph.order));
  }

  /** The terminator of the bottom frame classifies the last cell and
      finishes the curve. */
  lemma {:induction false} ReadFinish(e: Engine)
    requires Valid(e) && !Done(e)
    requires NextSymbol(e) == SymNull && e.depth == 0
    ensures var r, o := ReadSymbol(e), Finish(e.graph, e.cursor);
            r.engine == e.(graph := o.graph, frames := e.frames[0 := Frame(None, Top(e).index + 1)]) && r.warnings == o.warnings
    ensures var r := ReadSymbol(e);
            && Valid(r.engine) && Done(r.engine) && r.engine.graph.order == e.graph.order
            && Pending(r.engine) == Pending(e) - 1
            && Outcome(e) == Then(r.drawn, r.warnings, Outcome(r.engine))
            && r.stops && r.drawn == []
  {
    TopActions(e);
    TopReads(e);
    var f := Top(e);
    assert f.prod.value[f.index..] == [];
    assert e.frames[..0] == [];
    var fin := Finish(e.graph, e.cursor);
    ConcatNil(fin.warnings);
  }

  /** Reading one symbol keeps the state valid, takes one read off what is
      pending, and changes nothing about what the state goes on to
      produce: what the read draws and logs, followed by what the new
      state produces, is what the old state produces. */
  lemma {:induction false} ReadSymbolSound(e: Engine)
    requires Valid(e) && !Done(e)
    ensures var r := ReadSymbol(e);
            && Valid(r.engine) && r.engine.graph.order == e.graph.order
            && Pending(r.engine) == Pending(e) - 1
            && Outcome(e) == Then(r.drawn, r.warnings, Outcome(r.engine))
            && (r.stops <==> NextSymbol(e) == SymForward || (NextSymbol(e) == SymNull && e.depth == 0))
            && (Done(r.engine) <==> NextSymbol(e) == SymNull && e.depth == 0)
            && (!r.stops ==> r.drawn == [] && r.warnings == [])
            && (r.stops && !Done(r.engine) ==> |r.drawn| == 1)
            && (Done(r.engine) ==> r.drawn == [])
            && (!r.stops ==> r.engine.graph == e.graph && r.engine.cursor == e.cursor.(curr := r.engine.cursor.curr))
            && (r.stops && !Done(r.engine) ==>
                  var o := DrawForward(e.graph, e.cursor);
                  r.engine.graph == o.graph && r.engine.cursor == o.cursor && r.drawn == o.drawn && r.warnings == o.warnings)
            && (Done(r.engine) ==>
                  var o := Finish(e.graph, e.cursor);
                  r.engine.graph == o.graph && r.engine.cursor == e.cursor && r.warnings == o.warnings)
  {
    match NextSymbol(e)
    case SymSub(_) =>
      if e.depth < e.graph.order - 1 {
        ReadPush(e);
      } else {
        ReadSkip(e);
      }
    case SymNull =>
      if e.depth > 0 {
        ReadPop(e);
      } else {
        ReadFinish(e);
      }
    case SymForward => ReadAction(e, Forward);
    case SymLeft => ReadAction(e, TurnLeft);
    case SymRight => ReadAction(e, TurnRight);
    case SymOther(_) => ReadOther(e);
  }

  /** The result of `Advance`: the new state, what it drew and logged, and
      the source's return value, whether the curve is finished. */
  datatype Advanced = Advanced(engine: Engine, drawn: seq<Segment>, warnings: seq<Warning>, finished: bool)

  /** Reads symbols until one segment is drawn or the curve is finished,
      and reports whether it is finished. A finished state is returned as
      it is. Every call that does not finish draws exactly one segment;
      the call that finishes draws none, since the last cell is classified
      in place. */
  function Advance(e: Engine): (r: Advanced)
    requires Valid(e)
    ensures Valid(r.engine) && r.engine.graph.order == e.graph.order
    ensures r.finished <==> Done(r.engine)
    ensures Outcome(e) == Then(r.drawn, r.warnings, Outcome(r.engine))
    ensures !Done(e) ==> Pending(r.engine) < Pending(e)
    ensures !Done(e) && !r.finished ==>
              var c, d := e.cursor, r.engine.cursor.curr;
              && r.drawn == [Segment(c.x, c.y, Classify(c.prev, d))]
              && At(r.engine.cursor) == Move(At(c), d) && r.engine.cursor.prev == Opposite(d)
              && r.engine.graph == Store(e.graph, At(c), Classify(c.prev, d)).0
              && r.warnings == DrawForward(e.graph, c.(curr := d)).warnings
    ensures !Done(e) && r.finished ==>
              var c, d := e.cursor, r.engine.cursor.curr;
              && r.engine.cursor == c.(curr := d) && r.drawn == []
              && r.engine.graph == Store(e.graph, At(c), Classify(c.prev, d)).0
              && r.warnings == Finish(e.graph, c.(curr := d)).warnings
    decreases Pending(e)
  {
    if Done(e) then Advanced(e, [], [], true)
    else
      ReadSymbolSound(e);
      var s := ReadSymbol(e);
      if s.stops then Advanced(s.engine, s.drawn, s.warnings, Done(s.engine))
      else
        var r := Advance(s.engine);
        SkipRead(e, s, r);
        r
  }

  /** A read that does not end the call leaves what the rest of the call
      returns as the result of the whole call. */
  lemma {:induction false} SkipRead(e: Engine, s: Read, r: Advanced)
    requires Valid(e) && Valid(s.engine) && Valid(r.engine)
    requires s.engine.graph.order == e.graph.order && r.engine.graph.order == s.engine.graph.order
    requires s.drawn == [] && s.warnings == []
    requires Outcome(e) == Then(s.drawn, s.warnings, Outcome(s.engine))
    requires Outcome(s.engine) == Then(r.drawn, r.warnings, Outcome(r.engine))
    ensures Outcome(e) == Then(r.drawn, r.warnings, Outcome(r.engine))
  {
    ThenFacts([], [], r.drawn, r.warnings, Outcome(r.engine));
    ConcatNil(r.drawn);
    ConcatNil(r.warnings);
  }

  /** A finished state is returned as it is. Every call of `Advance` that
      does not finish draws exactly one segment; the call that finishes
      draws none, since the last cell is classified in place. */
  lemma {:induction false} AdvanceDrawsOne(e: Engine)
    requires Valid(e)
    ensures var r := Advance(e);
            && (Done(e) ==> r == Advanced(e, [], [], true))
            && (r.finished ==> r.drawn == [])
            && (!r.finished ==> |r.drawn| == 1)
    decreases Pending(e)
  {
    if !Done(e) {
      ReadSymbolSound(e);
      var s := ReadSymbol(e);
      if !s.stops {
        AdvanceDrawsOne(s.engine);
      }
    }
  }

  /** Advances until the curve is finished, returning the final state with
      everything drawn and logged on the way. */
  method Complete(e: Engine) returns (r: Engine, drawn: seq<Segment>, warnings: seq<Warning>)
    requires Valid(e)
    ensures Valid(r) && Done(r) && r.graph.order == e.graph.order
    ensures Outcome(e) == Out(r.graph, r.cursor, drawn, warnings)
  {
    r, drawn, warnings := e, [], [];
    ThenFacts([], [], [], [], Outcome(e));
    var finished := false;
    while !finished
      invariant Valid(r) && r.graph.order == e.graph.order
      invariant finished ==> Done(r)
      invariant Outcome(e) == Then(drawn, warnings, Outcome(r))
      decreases Pending(r) + (if finished then 0 else 1)
    {
      var a := Advance(r);
      ThenFacts(drawn, warnings, a.drawn, a.warnings, Outcome(a.engine));
      r, drawn, warnings, finished := a.engine, drawn + a.drawn, warnings + a.warnings, a.finished;
    }
    ConcatNil(drawn);
    ConcatNil(warnings);
  }
}

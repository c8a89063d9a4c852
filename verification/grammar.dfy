/** The Hilbert L-system: the two production strings, the symbols they are
    written in, and the depth-bounded expansion of a production into the
    turtle actions it stands for. */
module Grammar {
  import opened Options

  /** The two non-terminals. */
  datatype Kind = A | B

  /** The production of A. A C string: its terminator is not part of the
      sequence and is read at index |ProdA|. */
  const ProdA: string := "-BF+AFA+FB-"

  /** The production of B. */
  const ProdB: string := "+AF-BFB-FA+"

  /** The production a non-terminal is rewritten to. */
  function Production(k: Kind): string {
    match k
    case A => ProdA
    case B => ProdB
  }

  /** The other non-terminal. */
  function Other(k: Kind): Kind {
    match k
    case A => B
    case B => A
  }

  /** The source's symbol enum: the end-of-string NULL, the two
      non-terminals, forward, left and right turns, and any other character,
      which the interpreter consumes without effect. */
  datatype Sym = SymNull | SymSub(kind: Kind) | SymForward | SymLeft | SymRight | SymOther(c: char)

  /** The character each symbol's enum value is. */
  function SymChar(s: Sym): char {
    match s
    case SymNull => '\0'
    case SymSub(k) => if k == A then 'A' else 'B'
    case SymForward => 'F'
    case SymLeft => '-'
    case SymRight => '+'
    case SymOther(c) => c
  }

  /** The cast of a character of a production to a symbol. A character
      inside a C string is never its terminator, so it never reads as NULL. */
  function Decode(c: char): (s: Sym)
    ensures SymChar(s) == c
    ensures s != SymNull
    ensures s.SymOther? <==> c != 'A' && c != 'B' && c != 'F' && c != '-' && c != '+'
  {
    match c
    case 'A' => SymSub(A)
    case 'B' => SymSub(B)
    case 'F' => SymForward
    case '-' => SymLeft
    case '+' => SymRight
    case _ => SymOther(c)
  }

  /** The symbol at position `i` of a production; position |p| holds the
      terminator, which reads as NULL. */
  function SymbolAt(p: string, i: int): (s: Sym)
    requires 0 <= i <= |p|
    ensures s == SymNull <==> i == |p|
    ensures i < |p| ==> SymChar(s) == p[i]
  {
    if i == |p| then SymNull else Decode(p[i])
  }

  /** The production-string lookup: a string for a non-terminal, no string
      (NULL) for every other symbol. */
  function ProdStr(s: Sym): (r: Option<string>)
    ensures r.Some? <==> s.SymSub?
    ensures s.SymSub? ==> r.value == Production(s.kind)
  {
    match s
    case SymSub(A) => Some(ProdA)
    case SymSub(B) => Some(ProdB)
    case _ => None
  }

  /** Exchanges the two non-terminals and the two turns. */
  function MirrorChar(c: char): char {
    match c
    case 'A' => 'B'
    case 'B' => 'A'
    case '-' => '+'
    case '+' => '-'
    case _ => c
  }

  /** A production with every character mirrored. */
  function Mirror(p: string): (r: string)
    ensures |r| == |p|
  {
    seq(|p|, i requires 0 <= i < |p| => MirrorChar(p[i]))
  }

  /** B's production is A's with the non-terminals and the turns swapped,
      and the other way round. */
  lemma {:induction false} ProductionsMirror()
    ensures ProdB == Mirror(ProdA) && ProdA == Mirror(ProdB)
  {
  }

  /** What the interpreter does to the cursor: draw one segment and move
      forward, or turn a quarter left or right. */
  datatype Action = Forward | TurnLeft | TurnRight

  /** The actions a non-terminal read by a frame at `level` stands for. A
      frame's level is the number of frames that may still be pushed above
      it. At level 0 the non-terminal is consumed without expansion; above
      that it is rewritten to its production, read one level further down. */
  function Sub(k: Kind, level: nat): seq<Action>
    decreases level, 0, 0
  {
    if level == 0 then [] else Expand(Production(k), level - 1)
  }

  /** The actions the rest `p` of a production stands for when read by a
      frame at `level`. */
  function Expand(p: string, level: nat): seq<Action>
    decreases level, |p|, 1
  {
    if p == [] then [] else SymActions(Decode(p[0]), level) + Expand(p[1..], level)
  }

  /** The actions one symbol stands for. */
  function SymActions(s: Sym, level: nat): seq<Action>
    decreases level, 0, 1
  {
    match s
    case SymSub(k) => Sub(k, level)
    case SymForward => [Forward]
    case SymLeft => [TurnLeft]
    case SymRight => [TurnRight]
    case _ => []
  }

  /** The symbol reads (the terminator included) the interpreter spends on
      a non-terminal read at `level`. */
  function SubReads(k: Kind, level: nat): nat
    decreases level, 0, 0
  {
    if level == 0 then 0 else Reads(Production(k), level - 1)
  }

  /** The symbol reads the interpreter spends on the rest `p` of a
      production read at `level`, its terminator and nested frames included. */
  function Reads(p: string, level: nat): (n: nat)
    decreases level, |p|, 1
    ensures n >= 1
  {
    if p == [] then 1 else 1 + SymReads(Decode(p[0]), level) + Reads(p[1..], level)
  }

  /** The reads spent on the frames one symbol pushes. */
  function SymReads(s: Sym, level: nat): nat
    decreases level, 0, 1
  {
    if s.SymSub? then SubReads(s.kind, level) else 0
  }

  /** A non-terminal read above level 0 stands for its production read
      one level down. */
  lemma {:induction false} SubExpands(k: Kind, level: nat)
    requires level >= 1
    ensures SymActions(SymSub(k), level) == Expand(Production(k), level - 1)
    ensures SymReads(SymSub(k), level) == Reads(Production(k), level - 1)
  {
  }

  /** The first and last turn of a production. */
  function Outer(k: Kind): Action {
    if k == A then TurnLeft else TurnRight
  }

  /** The two inner turns of a production. */
  function Inner(k: Kind): Action {
    if k == A then TurnRight else TurnLeft
  }

  /** The actions of a string one character longer: those of the
      character, then the rest. */
  lemma {:induction false} ExpandCons(c: char, p: string, level: nat)
    ensures Expand([c] + p, level) == SymActions(Decode(c), level) + Expand(p, level)
  {
    assert ([c] + p)[0] == c;
    assert ([c] + p)[1..] == p;
  }

  /** The reads of a string one character longer: one for the character,
      those its frames spend, and those of the rest. */
  lemma {:induction false} ReadsCons(c: char, p: string, level: nat)
    ensures Reads([c] + p, level) == 1 + SymReads(Decode(c), level) + Reads(p, level)
  {
    assert ([c] + p)[0] == c;
    assert ([c] + p)[1..] == p;
  }

  /** The actions of the rest of a production from position `i`. */
  lemma {:induction false} ExpandAt(p: string, i: nat, level: nat)
    requires i < |p|
    ensures Expand(p[i..], level) == SymActions(Decode(p[i]), level) + Expand(p[i + 1..], level)
  {
    assert p[i..] == [p[i]] + p[i + 1..];
    ExpandCons(p[i], p[i + 1..], level);
  }

  /** The character of a non-terminal. */
  function KindChar(k: Kind): char {
    SymChar(SymSub(k))
  }

  /** The first and last character of a production. */
  function OuterChar(k: Kind): char {
    if k == A then '-' else '+'
  }

  /** The two inner turn characters of a production. */
  function InnerChar(k: Kind): char {
    if k == A then '+' else '-'
  }

  /** Both productions have one layout: an outer turn, the other
      non-terminal, a segment, an inner turn, the non-terminal itself, a
      segment, itself again, the inner turn, a segment, the other
      non-terminal and the outer turn. So each holds three `F`s and four
      non-terminals, and turns left exactly as often as right. */
  lemma {:induction false} ProductionShape(k: Kind)
    ensures Production(k)
         == [OuterChar(k), KindChar(Other(k)), 'F', InnerChar(k), KindChar(k), 'F',
             KindChar(k), InnerChar(k), 'F', KindChar(Other(k)), OuterChar(k)]
    ensures OuterChar(k) != InnerChar(k) && {OuterChar(k), InnerChar(k)} == {'-', '+'}
  {
  }

  /** The actions of any eleven-symbol string with the production layout,
      given the actions of its symbols. */
  lemma {:induction false} ExpandLayout(p: string, level: nat,
                     outer: seq<Action>, inner: seq<Action>, s: seq<Action>, t: seq<Action>)
    requires |p| == 11
    requires SymActions(Decode(p[0]), level) == outer && SymActions(Decode(p[10]), level) == outer
    requires SymActions(Decode(p[3]), level) == inner && SymActions(Decode(p[7]), level) == inner
    requires SymActions(Decode(p[4]), level) == s && SymActions(Decode(p[6]), level) == s
    requires SymActions(Decode(p[1]), level) == t && SymActions(Decode(p[9]), level) == t
    requires p[2] == 'F' && p[5] == 'F' && p[8] == 'F'
    ensures Expand(p, level)
         == outer + (t + ([Forward] + (inner + (s + ([Forward] + (s + (inner + ([Forward] + (t + outer)))))))))
  {
    var f := [Forward];
    var x10 := outer;
    assert Expand(p[10..], level) == x10 by { ExpandAt(p, 10, level); assert p[11..] == []; }
    var x9 := t + x10;
    assert Expand(p[9..], level) == x9 by { ExpandAt(p, 9, level); }
    var x8 := f + x9;
    assert Expand(p[8..], level) == x8 by { ExpandAt(p, 8, level); }
    var x7 := inner + x8;
    assert Expand(p[7..], level) == x7 by { ExpandAt(p, 7, level); }
    var x6 := s + x7;
    assert Expand(p[6..], level) == x6 by { ExpandAt(p, 6, level); }
    var x5 := f + x6;
    assert Expand(p[5..], level) == x5 by { ExpandAt(p, 5, level); }
    var x4 := s + x5;
    assert Expand(p[4..], level) == x4 by { ExpandAt(p, 4, level); }
    var x3 := inner + x4;
    assert Expand(p[3..], level) == x3 by { ExpandAt(p, 3, level); }
    var x2 := f + x3;
    assert Expand(p[2..], level) == x2 by { ExpandAt(p, 2, level); }
    var x1 := t + x2;
    assert Expand(p[1..], level) == x1 by { ExpandAt(p, 1, level); }
    var x0 := outer + x1;
    assert Expand(p[0..], level) == x0 by { ExpandAt(p, 0, level); }
    assert p[0..] == p;
  }

  /** One level of rewriting: a production stands for its outer turn, the
      other non-terminal's curve, a segment, the inner turn, its own curve
      twice with a segment between, the inner turn, a segment, the other
      curve again and the outer turn. */
  lemma {:induction false} ExpandProduction(k: Kind, level: nat)
    ensures Expand(Production(k), level)
         == [Outer(k)] + (Sub(Other(k), level) + ([Forward] + ([Inner(k)] + (Sub(k, level)
            + ([Forward] + (Sub(k, level) + ([Inner(k)] + ([Forward] + (Sub(Other(k), level)
            + [Outer(k)])))))))))
  {
    ProductionShape(k);
    var o, n, a, b := OuterChar(k), InnerChar(k), KindChar(k), KindChar(Other(k));
    assert SymActions(Decode(o), level) == [Outer(k)];
    assert SymActions(Decode(n), level) == [Inner(k)];
    assert SymActions(Decode(a), level) == Sub(k, level);
    assert SymActions(Decode(b), level) == Sub(Other(k), level);
    ExpandLayout(Production(k), level, [Outer(k)], [Inner(k)], Sub(k, level), Sub(Other(k), level));
  }

  /** The curve of order 1: with no level left to expand to, both
      non-terminals of a production stand for nothing, leaving its turns
      and its three segments. */
  lemma {:induction false} FirstOrder(k: Kind)
    ensures Sub(k, 1) == [Outer(k), Forward, Inner(k), Forward, Inner(k), Forward, Outer(k)]
  {
    var s, t := Sub(k, 0), Sub(Other(k), 0);
    assert s == [] && t == [];
    assert Sub(k, 1) == [Outer(k)] + (t + ([Forward] + ([Inner(k)] + (s + ([Forward] + (s
        + ([Inner(k)] + ([Forward] + (t + [Outer(k)])))))))))
    by {
      ExpandProduction(k, 0);
    }
    LayoutWithoutCurves(k, s, t, Sub(k, 1));
  }

  /** The production layout with both inner curves empty. */
  lemma {:induction false} LayoutWithoutCurves(k: Kind, s: seq<Action>, t: seq<Action>, x: seq<Action>)
    requires s == [] && t == []
    requires x == [Outer(k)] + (t + ([Forward] + ([Inner(k)] + (s + ([Forward] + (s
        + ([Inner(k)] + ([Forward] + (t + [Outer(k)])))))))))
    ensures x == [Outer(k), Forward, Inner(k), Forward, Inner(k), Forward, Outer(k)]
  {
  }
}

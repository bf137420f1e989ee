/** What the C text of a body is made of, read off the expressions: how many statements a list
    is written as, which labels are written behind their blocks, and when every `else` has
    the statement it needs and governs all that it should. */
module Statements {
  import opened Ir
  import opened Typing
  import opened CLang

  // ----- labels that are jumped to -----

  /** The name of a branch target; the function label has the empty one. */
  function TargetName(v: Var): string { if v.Name? then v.name else "" }

  /** The names of the labels that the written branches of a list jump to. */
  function Targets(es: seq<Expr>): set<string>
    decreases es, 0
  {
    if es == [] then {} else TargetsOf(es[0]) + if Ends(es[0]) then {} else Targets(es[1..])
  }

  function TargetsOf(e: Expr): set<string>
    decreases e, 1
  {
    match e
    case Br(v) => {TargetName(v)}
    case BrIf(v) => {TargetName(v)}
    case BrTable(vs, d) => {TargetName(d)} + set v | v in vs :: TargetName(v)
    case Return => {""}
    case Block(_, _, body) => Targets(body)
    case Loop(_, _, body) => Targets(body)
    case If(_, _, thn, els) => Targets(thn) + Targets(els)
    case Try(_, _, body, kind, cs, _) => Targets(body) + if kind == CatchTry then TargetsIn(cs) else {}
    case _ => {}
  }

  /** The clauses of a try, up to its catch_all. */
  function TargetsIn(cs: seq<Catch>): set<string>
    decreases cs, 0
  {
    if cs == [] then {} else Targets(cs[0].exprs) + if cs[0].tag == None then {} else TargetsIn(cs[1..])
  }

  // ----- statements -----

  const NOTHING := Shape(0, false)

  const SINGLE := Shape(1, false)

  const DOUBLE := Shape(2, false)

  /** The declaration `l:;` behind a block, if something in the block jumps to it. */
  function Decl(l: string, targets: set<string>): Shape { if l in targets then SINGLE else NOTHING }

  /** The statements of a list. `near` holds the labels to which a branch does not leave a
      try's body; leaving one takes a statement that restores the unwind target. The copies
      that a branch makes of its operands are not counted. */
  function Text(trace: bool, near: set<string>, es: seq<Expr>): Shape
    decreases es, 0
  {
    if es == [] then NOTHING
    else Join(TextOf(trace, near, es[0]), if Ends(es[0]) then NOTHING else Text(trace, near, es[1..]))
  }

  function TextOf(trace: bool, near: set<string>, e: Expr): Shape
    decreases e, 1
  {
    match e
    case Plain(i) =>
      if i.Drop? || i.Nop? then NOTHING
      else if trace && (i.Load? || i.Store?) then Join(DOUBLE, SINGLE)
      else SINGLE
    case Br(v) => if TargetName(v) in near then SINGLE else DOUBLE
    case Return => if "" in near then SINGLE else DOUBLE
    case Throw(_) => DOUBLE
    case Rethrow(_) => DOUBLE
    case Block(l, _, body) => Join(Text(trace, near + {l}, body), Decl(l, Targets(body)))
    case Loop(l, _, body) => if body == [] then NOTHING else Join(Shape(0, true), Text(trace, near + {l}, body))
    case If(l, _, thn, els) => Join(SINGLE, Decl(l, Targets(thn) + Targets(els)))
    case Try(l, _, body, kind, cs, _) =>
      if kind == PlainTry then Join(Text(trace, near + {l}, body), Decl(l, Targets(body)))
      else Join(SINGLE, Decl(l, TargetsOf(e)))
    case _ => SINGLE
  }

  /** What stands behind the `else` of a clause whose successors are `cs`: the expressions of
      a catch_all as they are, otherwise one statement. */
  function LastText(trace: bool, near: set<string>, cs: seq<Catch>): Shape
    decreases cs, 0
  {
    if cs == [] then SINGLE
    else if cs[0].tag == None then Text(trace, near, cs[0].exprs)
    else LastText(trace, near, cs[1..])
  }

  // ----- well-formed and well-bound text -----

  /** Whatever is between braces ends in a statement, not in a label, and the clauses of every
      try are bound. */
  predicate WellBound(trace: bool, near: set<string>, es: seq<Expr>)
    decreases es, 0
  {
    es == [] || (WellBoundExpr(trace, near, es[0]) && (Ends(es[0]) || WellBound(trace, near, es[1..])))
  }

  predicate WellBoundExpr(trace: bool, near: set<string>, e: Expr)
    decreases e, 1
  {
    match e
    case Block(l, _, body) => WellBound(trace, near + {l}, body)
    case Loop(l, _, body) => WellBound(trace, near + {l}, body)
    case If(l, _, thn, els) =>
      && WellBound(trace, near + {l}, thn) && !Text(trace, near + {l}, thn).hangs
      && WellBound(trace, near + {l}, els) && !Text(trace, near + {l}, els).hangs
    case Try(l, _, body, kind, cs, _) =>
      if kind == PlainTry then WellBound(trace, near + {l}, body)
      else
        && WellBound(trace, {}, body)
        && (kind == CatchTry ==> WellBoundCatches(trace, near + {l}, cs) && !LastText(trace, near + {l}, cs).hangs)
    case _ => true
  }

  /** A catch_all behind other clauses is a single statement, or at least one if control does
      not get to the end of any clause in front of it. */
  predicate WellBoundCatches(trace: bool, near: set<string>, cs: seq<Catch>)
    decreases cs, 0
  {
    cs == [] ||
    (&& WellBound(trace, near, cs[0].exprs)
     && (cs[0].tag.Some? ==>
           && !Text(trace, near, cs[0].exprs).hangs
           && (var last := LastText(trace, near, cs[1..]);
               last.n >= 1 && (last == SINGLE || LeavesList(cs[0].exprs)))
           && WellBoundCatches(trace, near, cs[1..])))
  }

  // ----- tracing only adds statements -----

  /** The shapes of a list with and without tracing: none, one or more statements. */
  predicate Fewer(a: Shape, b: Shape) {
    a.hangs == b.hangs && a.n <= b.n && (a.n == 0 ==> b.n == 0)
  }

  lemma JoinFewer(a1: Shape, a2: Shape, b1: Shape, b2: Shape)
    requires Fewer(a1, b1) && Fewer(a2, b2)
    ensures Fewer(Join(a1, a2), Join(b1, b2))
  {}

  lemma {:induction false} TextFewer(near: set<string>, es: seq<Expr>)
    ensures Fewer(Text(false, near, es), Text(true, near, es))
    decreases es, 0
  {
    if es != [] {
      ExprFewer(near, es[0]);
      var rest1 := if Ends(es[0]) then NOTHING else Text(false, near, es[1..]);
      var rest2 := if Ends(es[0]) then NOTHING else Text(true, near, es[1..]);
      if !Ends(es[0]) { TextFewer(near, es[1..]); }
      JoinFewer(TextOf(false, near, es[0]), rest1, TextOf(true, near, es[0]), rest2);
    }
  }

  lemma {:induction false} ExprFewer(near: set<string>, e: Expr)
    ensures Fewer(TextOf(false, near, e), TextOf(true, near, e))
    decreases e, 1
  {
    match e
    case Block(l, _, body) => TextFewer(near + {l}, body);
    case Loop(l, _, body) => TextFewer(near + {l}, body);
    case Try(l, _, body, kind, _, _) => if kind == PlainTry { TextFewer(near + {l}, body); }
    case _ =>
  }

  lemma {:induction false} LastFewer(near: set<string>, cs: seq<Catch>)
    ensures Fewer(LastText(false, near, cs), LastText(true, near, cs))
    decreases cs
  {
    if cs != [] {
      if cs[0].tag == None { TextFewer(near, cs[0].exprs); } else { LastFewer(near, cs[1..]); }
    }
  }

  /** What is well bound with tracing is well bound without. */
  lemma {:induction false} UntracedBound(near: set<string>, es: seq<Expr>)
    requires WellBound(true, near, es)
    ensures WellBound(false, near, es)
    decreases es, 0
  {
    if es != [] {
      UntracedExpr(near, es[0]);
      if !Ends(es[0]) { UntracedBound(near, es[1..]); }
    }
  }

  lemma {:induction false} UntracedExpr(near: set<string>, e: Expr)
    requires WellBoundExpr(true, near, e)
    ensures WellBoundExpr(false, near, e)
    decreases e, 1
  {
    match e
    case Block(l, _, body) => UntracedBound(near + {l}, body);
    case Loop(l, _, body) => UntracedBound(near + {l}, body);
    case If(l, _, thn, els) =>
      UntracedBound(near + {l}, thn);
      UntracedBound(near + {l}, els);
      TextFewer(near + {l}, thn);
      TextFewer(near + {l}, els);
    case Try(l, _, body, kind, cs, _) =>
      if kind == PlainTry {
        UntracedBound(near + {l}, body);
      } else {
        UntracedBound({}, body);
        if kind == CatchTry {
          UntracedCatches(near + {l}, cs);
          LastFewer(near + {l}, cs);
        }
      }
    case _ =>
  }

  lemma {:induction false} UntracedCatches(near: set<string>, cs: seq<Catch>)
    requires WellBoundCatches(true, near, cs)
    ensures WellBoundCatches(false, near, cs)
    decreases cs, 0
  {
    if cs != [] {
      UntracedBound(near, cs[0].exprs);
      if cs[0].tag.Some? {
        TextFewer(near, cs[0].exprs);
        LastFewer(near, cs[1..]);
        UntracedCatches(near, cs[1..]);
      }
    }
  }
}

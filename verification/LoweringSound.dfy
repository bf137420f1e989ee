/** The writer's output is sound exactly if the predicates of StackTypes and Statements hold of
    the expressions. */
module LoweringSound {
  import opened Ir
  import opened Wasm
  import opened Typing
  import opened StackTypes
  import opened Validation
  import opened CLang
  import opened Statements
  import opened Lowering
  import opened LoweringShape
  import opened LoweringBranch
  import opened LoweringScope
  import opened LoweringText

  // ----- leaving a try takes a statement -----

  /** `near` holds the names of the labels in scope with the same tries open as now. */
  ghost predicate NearOk(w: Writer, near: set<string>) {
    forall i {:trigger w.labels[i]} | 0 <= i < |w.labels| ::
      w.labels[i].tryStackSize <= |w.tries| && (w.labels[i].frame.name in near <==>
          w.labels[i].tryStackSize == |w.tries|)
  }

  /** What a proof about the text of code written from `w` starts from. */
  ghost predicate TextOk(w: Writer, near: set<string>, used: set<string>) {
    NamesOk(w, used) && NearOk(w, near)
  }

  lemma TextGrown(w: Writer, w1: Writer, near: set<string>, used: set<string>, more: set<string>)
    requires TextOk(w, near, used) && Grown(w, w1) && used <= more
    ensures TextOk(w1, near, more)
  {
    GrownFrames(w, w1);
    NamesGrown(w, w1, used, more);
    forall i | 0 <= i < |w1.labels|
      ensures w1.labels[i].tryStackSize <= |w1.tries| && (w1.labels[i].frame.name in near <==>
          w1.labels[i].tryStackSize == |w1.tries|)
    {
      assert w1.labels[i] == w.labels[i].(used := w1.labels[i].used);
    }
  }

  lemma TextEnter(w: Writer, w0: Writer, f: Frame, kind: LabelKind, params: seq<Type>, near: set<string>,
      used: set<string>)
    requires TextOk(w, near, used) && w0 == w.(ts := w0.ts) && f.name !in used && f.name != ""
    ensures TextOk(Enter(w0, f, kind, params), near + {f.name}, used + {f.name})
    ensures TextOk(EnterTry(w0, f, params), {}, used + {f.name})
  {
    EnterFrames(w0, f, kind, params);
    NamesEnter(w, Enter(w0, f, kind, params), f, used);
    EnterFrames(w0, f, TryKindL, params);
    NamesEnter(w, EnterTry(w0, f, params), f, used);
  }

  /** The clauses of a try are outside it. */
  lemma TextCatches(w: Writer, w0: Writer, w2: Writer, f: Frame, params: seq<Type>, near: set<string>,
      used: set<string>, more: set<string>)
    requires TextOk(w, near, used) && w0 == w.(ts := w0.ts) && f.name !in used && f.name != ""
    requires Grown(EnterTry(w0, f, params), w2) && used + {f.name} <= more
    ensures TextOk(PopTry(BeginCatches(w2, w0)), near + {f.name}, more)
    ensures Frames(PopTry(BeginCatches(w2, w0)).labels) == Frames(w.labels) + [f]
    ensures MarksOf(PopTry(BeginCatches(w2, w0)).labels) == MarksOf(w.labels) + [Mark(f, |w0.ts|)]
  {
    var w1 := EnterTry(w0, f, params);
    var wh := PopTry(BeginCatches(w2, w0));
    EnterFrames(w0, f, TryKindL, params);
    EnterMarks(w0, f, TryKindL, params);
    NamesEnter(w, w1, f, used);
    GrownFrames(w1, w2);
    GrownMarks(w1, w2);
    CatchMarks(w2, w0);
    NamesGrown(w1, wh, used + {f.name}, more);
    forall i | 0 <= i < |wh.labels|
      ensures wh.labels[i].tryStackSize <= |wh.tries| && (wh.labels[i].frame.name in near + {f.name} <==>
          wh.labels[i].tryStackSize == |wh.tries|)
    {
      assert w2.labels[i] == w1.labels[i].(used := w2.labels[i].used);
      assert wh.labels[i].tryStackSize == w2.labels[i].tryStackSize && wh.labels[i].frame == w2.labels[i].frame;
      if i < |w.labels| { assert w1.labels[i] == w.labels[i]; }
    }
  }

  // ----- the statements written -----

  /** The two shapes are both empty or both not, and hang alike. */
  predicate Alike(a: Shape, b: Shape) {
    (a.n == 0 <==> b.n == 0) && a.hangs == b.hangs
  }

  /** The two shapes are also both a single statement or both not. */
  predicate Equal(a: Shape, b: Shape) {
    Alike(a, b) && (a.n == 1 <==> b.n == 1)
  }

  lemma JoinAlike(a1: Shape, a2: Shape, b1: Shape, b2: Shape)
    requires Alike(a1, b1) && Alike(a2, b2)
    ensures Alike(Join(a1, a2), Join(b1, b2))
    ensures Equal(a1, b1) && (b1.n == 0 ==> Equal(a2, b2)) ==> Equal(Join(a1, a2), Join(b1, b2))
  {}

  lemma {:induction false} MovesShape(dst: int, to: seq<Type>, src: int, from: seq<Type>)
    ensures !ShapeOf(Moves(dst, to, src, from)).hangs
    decreases |to|
  {
    if to != [] && from != [] { MovesShape(dst + 1, to[1..], src + 1, from[1..]); }
  }

  lemma OneShape(st: Stmt)
    requires !st.LabelHere?
    ensures ShapeOf(One(st)) == SINGLE
  {
    assert ShapeOf(Nil) == NOTHING;
  }

  /** A branch is one statement, or two if it leaves a try, apart from its moves. */
  lemma GotoShape(v: Var, w: Writer, near: set<string>, used: set<string>)
    requires TextOk(w, near, used) && Resolve(Frames(w.labels), v).Some?
    ensures Alike(ShapeOf(LowerGoto(v, w).0), SINGLE)
    ensures w.labels[FindLabel(w.labels, v)].frame.sig == [] ==>
        ShapeOf(LowerGoto(v, w).0) == if TargetName(v) in near then SINGLE else DOUBLE
  {
    hide Moves, Join, ShapeOf, TopN;
    MarkedGoto(v, w, used);
    var l := w.labels[FindLabel(w.labels, v)];
    var moves := BranchMoves(w.ts, l.typeStackSize, l.frame.sig);
    MovesShape(l.typeStackSize, l.frame.sig, |w.ts| - |l.frame.sig|, TopN(w.ts, |l.frame.sig|));
    NoMoves(l.typeStackSize, |w.ts| - |l.frame.sig|, TopN(w.ts, |l.frame.sig|));
    var unwind, goto := UnwindCode(w.tries, l.tryStackSize), One(Goto(GotoTarget(v)));
    OneShape(Goto(GotoTarget(v)));
    if l.tryStackSize < |w.tries| { OneShape(UnwindOuter(w.tries[l.tryStackSize].name)); }
    ShapeAppend(unwind, goto);
    ShapeAppend(moves, Append(unwind, goto));
    EmptyShape();
    JoinedGoto(ShapeOf(moves), ShapeOf(unwind));
  }

  lemma NoMoves(dst: int, src: int, from: seq<Type>)
    ensures Moves(dst, [], src, from) == Nil
  {}

  lemma EmptyShape()
    ensures ShapeOf(Nil) == NOTHING
  {}

  lemma JoinedGoto(moves: Shape, unwind: Shape)
    requires !moves.hangs && (unwind == NOTHING || unwind == SINGLE)
    ensures Alike(Join(moves, Join(unwind, SINGLE)), SINGLE)
    ensures moves == NOTHING ==> Join(moves, Join(unwind, SINGLE)) == if unwind == NOTHING then SINGLE else DOUBLE
  {}

  lemma InstrShape(cfg: Config, i: Instr, ts: seq<Type>, near: set<string>)
    ensures ShapeOf(LowerInstr(cfg, i, ts).0) == TextOf(cfg.trace, near, Plain(i))
  {
    hide InstrCode;
    if i.Load? || i.Store? { TraceShape(cfg, i, ts); } else { SimpleShape(cfg, i, ts); }
  }

  lemma SimpleShape(cfg: Config, i: Instr, ts: seq<Type>)
    requires !i.Load? && !i.Store?
    ensures ShapeOf(InstrCode(cfg, i, ts)) == if i.Drop? || i.Nop? then NOTHING else SINGLE
  {
    hide VarX, StackVar, BinaryX, CompareX, TypeAt, ShapeOf, TraceCode, TopSlots, SlotsFrom;
    if i.Drop? || i.Nop? {
      EmptyShape();
    } else {
      var st := InstrCode(cfg, i, ts).hd;
      assert InstrCode(cfg, i, ts) == One(st);
      OneShape(st);
    }
  }

  lemma TraceShape(cfg: Config, i: Instr, ts: seq<Type>)
    requires i.Load? || i.Store?
    ensures ShapeOf(InstrCode(cfg, i, ts)) == if cfg.trace then Join(DOUBLE, SINGLE) else SINGLE
  {
    hide VarX, StackVar, Join;
    var st := if i.Load? then LoadMem(StackVar(ts, 0).0, i.acc.ty, i.acc, i.memidx, VarX(StackVar(ts, 0)), i.offset)
              else StoreMem(i.acc, i.memidx, VarX(StackVar(ts, 1)), i.offset, VarX(StackVar(ts, 0)));
    var x := VarX(StackVar(ts, if i.Load? then 0 else 1));
    assert InstrCode(cfg, i, ts) == Append(TraceCode(cfg.trace, i.Store?, x), One(st));
    OneShape(st);
    ShapeAppend(TraceCode(cfg.trace, i.Store?, x), One(st));
    PrintShape(cfg.trace, i.Store?, x);
    JoinNothing(SINGLE);
  }

  lemma PrintShape(trace: bool, store: bool, x: CExpr)
    ensures ShapeOf(TraceCode(trace, store, x)) == if trace then DOUBLE else NOTHING
  {
    OneShape(Print(LogFile, store, x));
  }

  lemma ThrowShape(st: Stmt, w: Writer)
    requires !st.LabelHere?
    ensures ShapeOf(LowerThrow(w).0) == SINGLE && ShapeOf(Cons(st, LowerThrow(w).0)) == DOUBLE
  {
    OneShape(RtThrow);
    if w.tries != [] { OneShape(Goto(CatchLabel(w.tries[|w.tries| - 1].name))); }
    HeadShape(Cons(st, LowerThrow(w).0));
  }

  /** What is written for a list has statements, and ends in a label, as the expressions say. */
  lemma {:induction false} ListAlike(cfg: Config, es: seq<Expr>, w: Writer, near: set<string>, used: set<string>)
    requires TextOk(w, near, used) && Scoped(es, Frames(w.labels)) && Fresh(es, used)
    ensures Alike(ShapeOf(LowerList(cfg, es, w).0), Text(cfg.trace, near, es))
    decreases es, 0
  {
    hide TextOk, LowerExpr, ScopedExpr, FreshExpr, TextOf, ExprNames, Join, ShapeOf, Append, Alike;
    if es == [] {
      EmptyShape();
      AlikeSame(NOTHING);
    } else {
      var (c1, w1) := LowerExpr(cfg, es[0], w);
      ExprAlike(cfg, es[0], w, near, used);
      if Ends(es[0]) {
        JoinNothing(TextOf(cfg.trace, near, es[0]));
      } else {
        GrownExpr(cfg, es[0], w);
        GrownFrames(w, w1);
        TextGrown(w, w1, near, used, used + ExprNames(es[0]));
        ListAlike(cfg, es[1..], w1, near, used + ExprNames(es[0]));
        var c2 := LowerList(cfg, es[1..], w1).0;
        ShapeAppend(c1, c2);
        JoinAlike(ShapeOf(c1), ShapeOf(c2), TextOf(cfg.trace, near, es[0]), Text(cfg.trace, near, es[1..]));
      }
    }
  }

  lemma AlikeSame(a: Shape)
    ensures Alike(a, a) && Equal(a, a)
  {}

  lemma {:induction false} ExprAlike(cfg: Config, e: Expr, w: Writer, near: set<string>, used: set<string>)
    requires TextOk(w, near, used) && ScopedExpr(e, Frames(w.labels)) && FreshExpr(e, used)
    ensures Alike(ShapeOf(LowerExpr(cfg, e, w).0), TextOf(cfg.trace, near, e))
    decreases e, 2
  {
    hide LowerList, LowerGoto, LowerCases, LowerBlock, LowerLoop, LowerIf, LowerTry, LowerInstr, Scoped,
        ScopedCatches, Fresh, FreshCatches, Text, Targets, TargetsIn, ShapeOf, TextOk, LowerThrow, TopSlots, Resolve;
    match e
    case Plain(i) => InstrShape(cfg, i, w.ts, near);
    case Br(v) => GotoShape(v, w, near, used);
    case Return => ReturnShape(w, near, used);
    case Throw(t) => ThrowShape(LoadExn(t, TopSlots(w.ts, |TagOf(cfg.env, t)|)), w);
    case Rethrow(v) => ThrowShape(ReloadExn(if v.Name? then v.name else ""), w);
    case Block(l, d, body) => BlockAlike(cfg, l, d, body, w, near, used);
    case Loop(_, _, _) => LoopAlike(cfg, e, w, near, used);
    case If(_, _, _, _) => IfAlike(cfg, e, w, near, used);
    case Try(l, d, body, kind, _, _) =>
      if kind == PlainTry { BlockAlike(cfg, l, d, body, w, near, used); } else { TryAlike(cfg, e, w, near, used); }
    case BrIf(v) => OneShape(LowerExpr(cfg, e, w).0.hd);
    case BrTable(_, _) => OneShape(LowerExpr(cfg, e, w).0.hd);
    case Unreachable => OneShape(Abort);
  }

  lemma ReturnShape(w: Writer, near: set<string>, used: set<string>)
    requires TextOk(w, near, used)
    ensures w.labels != [] && Resolve(Frames(w.labels), Index(|w.labels| - 1)) == Some(0)
    ensures var s := ShapeOf(LowerGoto(Index(|w.labels| - 1), w).0);
            Alike(s, SINGLE) && (w.labels[0].frame.sig == [] ==> s == if "" in near then SINGLE else DOUBLE)
  {
    GotoShape(Index(|w.labels| - 1), w, near, used);
  }

  lemma {:induction false} BlockAlike(cfg: Config, l: string, d: BlockDecl, body: seq<Expr>, w: Writer,
      near: set<string>, used: set<string>)
    requires TextOk(w, near, used) && Scoped(body, Frames(w.labels) + [Frame(l, d.sig.results)])
    requires l != "" && l !in used && Fresh(body, used + {l})
    ensures Alike(ShapeOf(LowerBlock(cfg, l, d, body, w).0),
        Join(Text(cfg.trace, near + {l}, body), Decl(l, Targets(body))))
    decreases body, 1
  {
    hide TextOk, LowerList, Text, Targets, ShapeOf, LabelDecl, Join, Alike, TopLabelUsed, Decl;
    var f := Frame(l, d.sig.results);
    var w0 := w.(ts := DropN(w.ts, |d.sig.params|));
    var w1 := Enter(w0, f, BlockKind, d.sig.params);
    TextEnter(w, w0, f, BlockKind, d.sig.params, near, used);
    EnterFrames(w0, f, BlockKind, d.sig.params);
    ListAlike(cfg, body, w1, near + {l}, used + {l});
    BlockShape(cfg, l, d, body, w, near, used);
    AlikeSame(Decl(l, Targets(body)));
    JoinAlike(ShapeOf(LowerList(cfg, body, w1).0), Decl(l, Targets(body)), Text(cfg.trace, near + {l}, body),
        Decl(l, Targets(body)));
  }

  /** A block's label is declared behind its body if it is used. */
  lemma BlockShape(cfg: Config, l: string, d: BlockDecl, body: seq<Expr>, w: Writer, near: set<string>,
      used: set<string>)
    requires TextOk(w, near, used) && Scoped(body, Frames(w.labels) + [Frame(l, d.sig.results)])
    requires l != "" && l !in used && Fresh(body, used + {l})
    ensures var w1 := Enter(w.(ts := DropN(w.ts, |d.sig.params|)), Frame(l, d.sig.results), BlockKind, d.sig.params);
            ShapeOf(LowerBlock(cfg, l, d, body, w).0) == Join(ShapeOf(LowerList(cfg, body, w1).0),
                Decl(l, Targets(body)))
  {
    hide LowerList, Targets, ShapeOf, LabelDecl, Join, TopLabelUsed, Decl, Scoped, Fresh, NamesOk;
    MarkedBlock(cfg, l, d, body, w, used);
    var (c, w2) := LowerList(cfg, body, Enter(w.(ts := DropN(w.ts, |d.sig.params|)), Frame(l, d.sig.results),
        BlockKind, d.sig.params));
    ShapeAppend(c, LabelDecl(w2, UserLabel(l)));
    DeclShape(w2, l, Targets(body));
  }

  lemma {:induction false} LoopAlike(cfg: Config, e: Expr, w: Writer, near: set<string>, used: set<string>)
    requires e.Loop? && TextOk(w, near, used) && ScopedExpr(e, Frames(w.labels)) && FreshExpr(e, used)
    ensures Alike(ShapeOf(LowerLoop(cfg, e, w).0), TextOf(cfg.trace, near, e))
    ensures e.body != [] ==>
              var sig := e.decl.sig;
              var w1 := Enter(w.(ts := DropN(w.ts, |sig.params|)), Frame(e.name, sig.params), LoopKind, sig.params);
              ShapeOf(LowerLoop(cfg, e, w).0) == Join(Shape(0, true), ShapeOf(LowerList(cfg, e.body, w1).0))
    decreases e, 1
  {
    hide TextOk, LowerList, Text, ShapeOf, Join, Scoped, Fresh, Alike;
    var sig := e.decl.sig;
    var f := Frame(e.name, sig.params);
    var w0 := w.(ts := DropN(w.ts, |sig.params|));
    if e.body == [] {
      EmptyShape();
      AlikeSame(NOTHING);
    } else {
      TextEnter(w, w0, f, LoopKind, sig.params, near, used);
      EnterFrames(w0, f, LoopKind, sig.params);
      var w1 := Enter(w0, f, LoopKind, sig.params);
      ListAlike(cfg, e.body, w1, near + {e.name}, used + {e.name});
      var c := LowerList(cfg, e.body, w1).0;
      PrefixShape(e.name, c);
      AlikeSame(Shape(0, true));
      JoinAlike(Shape(0, true), ShapeOf(c), Shape(0, true), Text(cfg.trace, near + {e.name}, e.body));
    }
  }

  lemma PrefixShape(l: string, c: Code)
    ensures ShapeOf(Cons(LabelHere(UserLabel(l), false), c)) == Join(Shape(0, true), ShapeOf(c))
  {
    hide Join;
    assert StmtShape(LabelHere(UserLabel(l), false)) == Shape(0, true);
  }

  lemma IfAlike(cfg: Config, e: Expr, w: Writer, near: set<string>, used: set<string>)
    requires e.If? && TextOk(w, near, used) && ScopedExpr(e, Frames(w.labels)) && FreshExpr(e, used)
    ensures ShapeOf(LowerIf(cfg, e, w).0) == TextOf(cfg.trace, near, e)
  {
    MarkedIf(cfg, e, w, used);
    hide LowerIf, ShapeOf, Targets;
  }

  lemma TryAlike(cfg: Config, e: Expr, w: Writer, near: set<string>, used: set<string>)
    requires e.Try? && e.kind != PlainTry && TextOk(w, near, used) && ScopedExpr(e, Frames(w.labels))
        && FreshExpr(e, used)
    ensures ShapeOf(LowerTry(cfg, e, w).0) == TextOf(cfg.trace, near, e)
  {
    MarkedTry(cfg, e, w, used);
    hide LowerTry, ShapeOf, TargetsOf;
  }

  // ----- code that starts on an empty stack -----

  /** A list that starts on an empty stack is written as one statement exactly if the expressions
      say so: until something is written the stack stays empty, so its first branch has nothing
      to move. */
  lemma {:induction false} ListEqual(cfg: Config, es: seq<Expr>, w: Writer, near: set<string>, used: set<string>,
      ex: set<string>)
    requires TextOk(w, near, used) && Scoped(es, Frames(w.labels)) && Fresh(es, used)
    requires TypeList(cfg.env, es, Frames(w.labels), ex, []) != Ill
    ensures Equal(ShapeOf(LowerList(cfg, es, w).0), Text(cfg.trace, near, es))
    ensures Text(cfg.trace, near, es).n == 0 ==> TypeList(cfg.env, es, Frames(w.labels), ex, []) == Live([])
    decreases es, 0
  {
    hide TextOk, LowerExpr, ScopedExpr, FreshExpr, TextOf, ExprNames, ShapeOf, Append, TypeExpr, Alike, Equal, Join;
    if es == [] {
      EmptyShape();
      AlikeSame(NOTHING);
    } else {
      var (c1, w1) := LowerExpr(cfg, es[0], w);
      ExprEqual(cfg, es[0], w, near, used, ex);
      var t1 := TextOf(cfg.trace, near, es[0]);
      if Ends(es[0]) {
        JoinNothing(t1);
        if t1.n == 0 { LiveGoesOn(cfg.env, es[0], Frames(w.labels), ex, []); }
      } else {
        GrownExpr(cfg, es[0], w);
        GrownFrames(w, w1);
        TextGrown(w, w1, near, used, used + ExprNames(es[0]));
        ListAlike(cfg, es[1..], w1, near, used + ExprNames(es[0]));
        var c2 := LowerList(cfg, es[1..], w1).0;
        var t2 := Text(cfg.trace, near, es[1..]);
        if t1.n == 0 { ListEqual(cfg, es[1..], w1, near, used + ExprNames(es[0]), ex); }
        ShapeAppend(c1, c2);
        EqualAlike(ShapeOf(c1), t1);
        JoinAlike(ShapeOf(c1), ShapeOf(c2), t1, t2);
        JoinNone(t1, t2);
      }
    }
  }

  lemma JoinNone(a: Shape, b: Shape)
    ensures Join(a, b).n == 0 ==> a.n == 0 && b.n == 0
  {}

  lemma EqualAlike(a: Shape, b: Shape)
    requires Equal(a, b)
    ensures Alike(a, b)
  {}

  lemma {:induction false} ExprEqual(cfg: Config, e: Expr, w: Writer, near: set<string>, used: set<string>,
      ex: set<string>)
    requires TextOk(w, near, used) && ScopedExpr(e, Frames(w.labels)) && FreshExpr(e, used)
    requires TypeExpr(cfg.env, e, Frames(w.labels), ex, []) != Ill
    ensures Equal(ShapeOf(LowerExpr(cfg, e, w).0), TextOf(cfg.trace, near, e))
    ensures TextOf(cfg.trace, near, e).n == 0 ==> TypeExpr(cfg.env, e, Frames(w.labels), ex, []) == Live([])
    decreases e, 2
  {
    match e
    case Plain(i) => PlainEqual(cfg, i, w, near, used, ex);
    case Block(_, _, _) => BlockEqual(cfg, e, w, near, used, ex);
    case Loop(_, _, _) => LoopEqual(cfg, e, w, near, used, ex);
    case Try(_, _, _, kind, _, _) =>
      if kind == PlainTry { BlockEqual(cfg, e, w, near, used, ex); } else { TryAlike(cfg, e, w, near, used); }
    case _ => LeafEqual(cfg, e, w, near, used, ex);
  }

  lemma PlainEqual(cfg: Config, i: Instr, w: Writer, near: set<string>, used: set<string>, ex: set<string>)
    requires TypeExpr(cfg.env, Plain(i), Frames(w.labels), ex, []) != Ill
    ensures Equal(ShapeOf(LowerExpr(cfg, Plain(i), w).0), TextOf(cfg.trace, near, Plain(i)))
    ensures TextOf(cfg.trace, near, Plain(i)).n == 0 ==>
        TypeExpr(cfg.env, Plain(i), Frames(w.labels), ex, []) == Live([])
  {
    hide ShapeOf, LowerInstr;
    InstrShape(cfg, i, w.ts, near);
  }

  lemma LeafEqual(cfg: Config, e: Expr, w: Writer, near: set<string>, used: set<string>, ex: set<string>)
    requires !e.Plain? && !e.Block? && !e.Loop? && !e.Try?
    requires TextOk(w, near, used) && ScopedExpr(e, Frames(w.labels)) && FreshExpr(e, used)
    requires TypeExpr(cfg.env, e, Frames(w.labels), ex, []) != Ill
    ensures Equal(ShapeOf(LowerExpr(cfg, e, w).0), TextOf(cfg.trace, near, e)) && TextOf(cfg.trace, near, e).n != 0
  {
    hide TextOk, ShapeOf, LowerGoto, LowerThrow, LowerIf, LowerCases, Resolve, TopSlots, TypeBody;
    match e
    case Br(v) =>
      GotoShape(v, w, near, used);
      TargetIs(w, v, near, used);
    case Return => ReturnShape(w, near, used);
    case Throw(t) => ThrowShape(LoadExn(t, TopSlots(w.ts, |TagOf(cfg.env, t)|)), w);
    case Rethrow(v) => ThrowShape(ReloadExn(if v.Name? then v.name else ""), w);
    case Unreachable => OneShape(Abort);
    case _ =>
  }

  lemma TargetIs(w: Writer, v: Var, near: set<string>, used: set<string>)
    requires TextOk(w, near, used) && Resolve(Frames(w.labels), v).Some?
    ensures Resolve(Frames(w.labels), v) == Some(FindLabel(w.labels, v)) && FindLabel(w.labels, v) < |w.labels|
  {
    if v.Name? { FindNamedFrame(w.labels, v.name); }
  }

  lemma {:induction false} BlockEqual(cfg: Config, e: Expr, w: Writer, near: set<string>, used: set<string>,
      ex: set<string>)
    requires e.Block? || (e.Try? && e.kind == PlainTry)
    requires TextOk(w, near, used) && ScopedExpr(e, Frames(w.labels)) && FreshExpr(e, used)
    requires TypeExpr(cfg.env, e, Frames(w.labels), ex, []) != Ill
    ensures Equal(ShapeOf(LowerExpr(cfg, e, w).0), TextOf(cfg.trace, near, e))
    ensures TextOf(cfg.trace, near, e).n == 0 ==> TypeExpr(cfg.env, e, Frames(w.labels), ex, []) == Live([])
    decreases e, 1
  {
    hide TextOk, LowerList, ShapeOf, Scoped, Fresh, Text, Targets, TypeList, TypeExpr, LowerBlock, Decl, Join, Alike,
        Equal;
    var (l, sig) := (e.name, e.decl.sig);
    var f := Frame(l, sig.results);
    var w0 := w.(ts := DropN(w.ts, |sig.params|));
    var w1 := Enter(w0, f, BlockKind, sig.params);
    TextEnter(w, w0, f, BlockKind, sig.params, near, used);
    EnterFrames(w0, f, BlockKind, sig.params);
    BlockTyped(cfg.env, e, Frames(w.labels), ex);
    ListEqual(cfg, e.body, w1, near + {l}, used + {l}, ex);
    BlockShape(cfg, l, e.decl, e.body, w, near, used);
    var t, decl := Text(cfg.trace, near + {l}, e.body), Decl(l, Targets(e.body));
    EqualAlike(ShapeOf(LowerList(cfg, e.body, w1).0), t);
    AlikeSame(decl);
    JoinAlike(ShapeOf(LowerList(cfg, e.body, w1).0), decl, t, decl);
    JoinNone(t, decl);
  }

  /** On an empty stack a block has no parameters. */
  lemma BlockTyped(env: Env, e: Expr, fs: seq<Frame>, ex: set<string>)
    requires e.Block? || e.Loop? || (e.Try? && e.kind == PlainTry)
    requires TypeExpr(env, e, fs, ex, []) != Ill
    ensures var fs1 := fs + [Frame(e.name, if e.Loop? then e.decl.sig.params else e.decl.sig.results)];
            && e.decl.sig.params == [] && TypeList(env, e.body, fs1, ex, []) != Ill
            && (TypeList(env, e.body, fs1, ex, []) == Live([]) ==> TypeExpr(env, e, fs, ex, []) == Live([]))
  {
    hide TypeList;
    assert e.decl.sig.params == [];
  }

  lemma {:induction false} LoopEqual(cfg: Config, e: Expr, w: Writer, near: set<string>, used: set<string>,
      ex: set<string>)
    requires e.Loop? && TextOk(w, near, used) && ScopedExpr(e, Frames(w.labels)) && FreshExpr(e, used)
    requires TypeExpr(cfg.env, e, Frames(w.labels), ex, []) != Ill
    ensures Equal(ShapeOf(LowerExpr(cfg, e, w).0), TextOf(cfg.trace, near, e))
    ensures TextOf(cfg.trace, near, e).n == 0 ==> TypeExpr(cfg.env, e, Frames(w.labels), ex, []) == Live([])
    decreases e, 1
  {
    hide TextOk, LowerList, ShapeOf, Scoped, Fresh, Text, LowerLoop, TypeExpr, Join, Alike, Equal;
    var (l, sig) := (e.name, e.decl.sig);
    var f := Frame(l, sig.params);
    var w0 := w.(ts := DropN(w.ts, |sig.params|));
    BlockTyped(cfg.env, e, Frames(w.labels), ex);
    if e.body == [] {
      assert TypeList(cfg.env, e.body, Frames(w.labels) + [f], ex, []) == Live([]);
      EmptyLoopShape(cfg, e, w);
      AlikeSame(NOTHING);
    } else {
      hide TypeList;
      var w1 := Enter(w0, f, LoopKind, sig.params);
      TextEnter(w, w0, f, LoopKind, sig.params, near, used);
      EnterFrames(w0, f, LoopKind, sig.params);
      LoopAlike(cfg, e, w, near, used);
      ListEqual(cfg, e.body, w1, near + {l}, used + {l}, ex);
      var a, t := ShapeOf(LowerList(cfg, e.body, w1).0), Text(cfg.trace, near + {l}, e.body);
      EqualAlike(a, t);
      AlikeSame(Shape(0, true));
      JoinAlike(Shape(0, true), a, Shape(0, true), t);
      JoinNone(Shape(0, true), t);
    }
  }

  lemma EmptyLoopShape(cfg: Config, e: Expr, w: Writer)
    requires e.Loop? && e.body == []
    ensures ShapeOf(LowerLoop(cfg, e, w).0) == NOTHING
  {}

  // ----- clauses -----

  /** What stands behind an `else` is a single statement exactly if the expressions say so. */
  lemma {:induction false} LastEqual(cfg: Config, cs: seq<Catch>, w0: Writer, w: Writer, near: set<string>,
      used: set<string>, ex: set<string>, results: seq<Type>)
    requires TextOk(w, near, used) && ScopedCatches(cs, Frames(w.labels)) && FreshCatches(cs, used)
    requires TypeCatches(cfg.env, cs, Frames(w.labels), ex, results)
    requires cs == [] || cs[0].tag == None || LastText(cfg.trace, near, cs).n >= 1
    ensures Equal(ShapeOf(LowerCatches(cfg, cs, w0, w).0), LastText(cfg.trace, near, cs))
    decreases cs
  {
    hide TextOk, LowerList, Scoped, Fresh, Text, ShapeOf, TypeList, ElseBound, ElseLeft, UnpackCode, Equal, Join,
        Chained, ResetTs;
    if cs == [] {
      ThrowShape(Abort, w);
      AlikeSame(SINGLE);
    } else if cs[0].tag == None {
      GrownReset(w, w0, []);
      GrownFrames(w, ResetTs(w, w0, []));
      TextGrown(w, ResetTs(w, w0, []), near, used, used);
      BodyNotIll(cfg.env, cs[0].exprs, Frames(w.labels), ex, [], results);
      ListEqual(cfg, cs[0].exprs, ResetTs(w, w0, []), near, used, ex);
    } else {
      var w1 := ResetTs(w, w0, TagOf(cfg.env, cs[0].tag.value));
      var (c1, w2) := LowerList(cfg, cs[0].exprs, w1);
      ClauseGrown(cfg, cs[0].exprs, w0, w, TagOf(cfg.env, cs[0].tag.value));
      TextGrown(w, w2, near, used, used + Names(cs[0].exprs));
      LastEqual(cfg, cs[1..], w0, w2, near, used + Names(cs[0].exprs), ex, results);
      var c2 := LowerCatches(cfg, cs[1..], w0, w2).0;
      EqualSome(ShapeOf(c2), LastText(cfg.trace, near, cs[1..]));
      ElseSplits(c2);
      HeadShape(LowerCatches(cfg, cs, w0, w).0);
    }
  }

  lemma BodyNotIll(env: Env, es: seq<Expr>, fs: seq<Frame>, ex: set<string>, ts: seq<Type>, results: seq<Type>)
    requires TypeBody(env, es, fs, ex, ts, results)
    ensures TypeList(env, es, fs, ex, ts) != Ill
  {}

  lemma EqualSome(a: Shape, b: Shape)
    requires Equal(a, b)
    ensures a.n >= 1 <==> b.n >= 1
    ensures a == SINGLE <==> b == SINGLE
    ensures a.hangs == b.hangs
  {}

  lemma ClauseGrown(cfg: Config, es: seq<Expr>, w0: Writer, w: Writer, tys: seq<Type>)
    ensures var w2 := LowerList(cfg, es, ResetTs(w, w0, tys)).1;
            Grown(w, w2) && Frames(w2.labels) == Frames(w.labels) && MarksOf(w2.labels) == MarksOf(w.labels)
    ensures var w1 := ResetTs(w, w0, tys);
            Grown(w, w1) && Frames(w1.labels) == Frames(w.labels) && MarksOf(w1.labels) == MarksOf(w.labels)
  {
    hide LowerList;
    var w1 := ResetTs(w, w0, tys);
    var w2 := LowerList(cfg, es, w1).1;
    GrownReset(w, w0, tys);
    GrownList(cfg, es, w1);
    GrownTrans(w, w1, w2);
    GrownFrames(w, w2);
    GrownMarks(w, w2);
  }

  // ----- soundness -----

  /** Code written from `w` to `w1` is sound if what was written before is, the text is, and
      the types below its blocks are kept. */
  ghost predicate SoundIf(w: Writer, w1: Writer, bound: bool, kept: bool) {
    w1.sound <==> w.sound && bound && kept
  }

  /** Where code that `e` is followed by is behind a throw. */
  lemma DeadAfter(cfg: Config, e: Expr, w: Writer)
    ensures !Ends(e) ==> (LowerExpr(cfg, e, w).1.dead <==> w.dead || Leaves(e))
  {
    hide LowerList, LowerCatches, LowerDelegate, ShapeOf, LowerInstr;
    match e
    case BrIf(v) => GrownGoto(v, w.(ts := DropN(w.ts, 1)));
    case _ =>
  }

  lemma {:induction false} SoundList(cfg: Config, es: seq<Expr>, w: Writer, near: set<string>, used: set<string>,
      ex: set<string>, st: Stack)
    requires TextOk(w, near, used) && Fresh(es, used) && ValidList(cfg.env, es, Frames(w.labels), ex, st).Some?
    requires StackList(cfg.env, false, es, MarksOf(w.labels), w.ts).Some?
    ensures SoundIf(w, LowerList(cfg, es, w).1, WellBound(cfg.trace, near, es),
        StackList(cfg.env, !w.dead, es, MarksOf(w.labels), w.ts).Some?)
    decreases es, 0
  {
    hide TextOk, LowerExpr, ValidExpr, FreshExpr, WellBoundExpr, ExprNames, Append, StackExpr;
    if es != [] {
      var e := es[0];
      var w1 := LowerExpr(cfg, e, w).1;
      var ms := MarksOf(w.labels);
      SoundExpr(cfg, e, w, near, used, ex, st);
      StackExprIs(cfg, e, w);
      if StackExpr(cfg.env, !w.dead, e, ms, w.ts).Some? { KeepExpr(cfg.env, !w.dead, e, ms, w.ts); }
      if !Ends(e) {
        GrownExpr(cfg, e, w);
        GrownFrames(w, w1);
        GrownMarks(w, w1);
        DeadAfter(cfg, e, w);
        TextGrown(w, w1, near, used, used + ExprNames(e));
        GrownList(cfg, es[1..], w1);
        SoundList(cfg, es[1..], w1, near, used + ExprNames(e), ex,
            ValidExpr(cfg.env, e, Frames(w.labels), ex, st).value);
      }
    }
  }

  lemma {:induction false} SoundExpr(cfg: Config, e: Expr, w: Writer, near: set<string>, used: set<string>,
      ex: set<string>, st: Stack)
    requires TextOk(w, near, used) && FreshExpr(e, used) && ValidExpr(cfg.env, e, Frames(w.labels), ex, st).Some?
    requires StackExpr(cfg.env, false, e, MarksOf(w.labels), w.ts).Some?
    ensures SoundIf(w, LowerExpr(cfg, e, w).1, WellBoundExpr(cfg.trace, near, e),
        StackExpr(cfg.env, !w.dead, e, MarksOf(w.labels), w.ts).Some?)
    decreases e, 2
  {
    hide LowerExpr, StackExpr, WellBoundExpr, ValidExpr, SoundIf;
    match e
    case Block(_, _, _) => SoundBlock(cfg, e, w, near, used, ex, st);
    case Loop(_, _, _) => SoundBlock(cfg, e, w, near, used, ex, st);
    case If(_, _, _, _) => SoundConditional(cfg, e, w, near, used, ex, st);
    case Try(_, _, _, kind, _, _) =>
      if kind == PlainTry {
        SoundBlock(cfg, e, w, near, used, ex, st);
      } else {
        SoundTry(cfg, e, w, near, used, ex, st);
      }
    case _ => SoundLeaf(cfg, e, w, near);
  }

  lemma SoundLeaf(cfg: Config, e: Expr, w: Writer, near: set<string>)
    requires !e.Block? && !e.Loop? && !e.If? && !e.Try?
    requires StackExpr(cfg.env, false, e, MarksOf(w.labels), w.ts).Some?
    ensures SoundIf(w, LowerExpr(cfg, e, w).1, WellBoundExpr(cfg.trace, near, e),
        StackExpr(cfg.env, !w.dead, e, MarksOf(w.labels), w.ts).Some?)
  {
    hide BranchFits, Effect, After, LowerInstr, BranchMoves;
    match e
    case BrTable(vs, d) => CasesSound(vs, d, w.(ts := DropN(w.ts, 1)));
    case _ =>
  }

  lemma {:induction false} CasesSound(vs: seq<Var>, d: Var, w: Writer)
    ensures LowerCases(vs, d, w).1.sound == w.sound
    decreases |vs|
  {
    if vs != [] { CasesSound(vs[1..], d, LowerGoto(vs[0], w).1); }
  }

  /** Closing a block: what the analysis asks for is what keeps the writer's state sound. */
  lemma ResetSound(w2: Writer, w0: Writer, ts: seq<Type>)
    requires |w0.ts| <= |w2.ts|
    ensures ResetTs(w2, w0, ts).sound <==> w2.sound && Reset(!w0.dead, w0.ts, w2.ts).Some?
    ensures PopBlock(w2, w0, ts).sound == ResetTs(w2, w0, ts).sound == BeginCatches(w2, w0).sound
    ensures Reset(!w0.dead, w0.ts, w2.ts).Some? ==> Reset(!w0.dead, w0.ts, w2.ts).value == w2.ts[..|w0.ts|]
    ensures ResetTs(w2, w0, ts).ts == w2.ts[..|w0.ts|] + ts && ResetTs(w2, w0, ts).dead == w0.dead
  {}

  /** A body written from `w1` and the closing of its block at `w0`. */
  lemma {:induction false} SoundBody(cfg: Config, body: seq<Expr>, w0: Writer, w1: Writer, near: set<string>,
      used: set<string>, ex: set<string>, params: seq<Type>, results: seq<Type>)
    requires TextOk(w1, near, used) && Fresh(body, used)
        && ValidBody(cfg.env, body, Frames(w1.labels), ex, params, results)
    requires w1.dead == w0.dead
    requires var ts := StackList(cfg.env, false, body, MarksOf(w1.labels), w1.ts); ts.Some? && |w0.ts| <= |ts.value|
    ensures var ts := StackList(cfg.env, !w0.dead, body, MarksOf(w1.labels), w1.ts);
            var w2 := LowerList(cfg, body, w1).1;
            && |w0.ts| <= |w2.ts| && Grown(w1, w2) && Frames(w2.labels) == Frames(w1.labels)
                && MarksOf(w2.labels) == MarksOf(w1.labels)
            && StackList(cfg.env, false, body, MarksOf(w1.labels), w1.ts) == Some(w2.ts)
            && SoundIf(w1, w2, WellBound(cfg.trace, near, body), ts.Some?)
            && (ts.Some? ==> ts.value == w2.ts)
    decreases body, 1
  {
    hide LowerList, StackList, WellBound, TextOk, Fresh, SoundIf, Grown;
    SoundList(cfg, body, w1, near, used, ex, Stack(false, Known(params))) by {
      BodyValid(cfg.env, body, Frames(w1.labels), ex, params, results);
    }
    StackIs(cfg, body, w1);
    GrownList(cfg, body, w1);
    GrownFrames(w1, LowerList(cfg, body, w1).1);
    GrownMarks(w1, LowerList(cfg, body, w1).1);
    if StackList(cfg.env, !w0.dead, body, MarksOf(w1.labels), w1.ts).Some? {
      KeepList(cfg.env, !w0.dead, body, MarksOf(w1.labels), w1.ts);
    }
  }

  lemma BodyValid(env: Env, es: seq<Expr>, fs: seq<Frame>, ex: set<string>, params: seq<Type>, results: seq<Type>)
    requires ValidBody(env, es, fs, ex, params, results)
    ensures ValidList(env, es, fs, ex, Stack(false, Known(params))).Some?
  {}

  lemma {:induction false} SoundBlock(cfg: Config, e: Expr, w: Writer, near: set<string>, used: set<string>,
      ex: set<string>, st: Stack)
    requires e.Block? || e.Loop? || (e.Try? && e.kind == PlainTry)
    requires TextOk(w, near, used) && FreshExpr(e, used) && ValidExpr(cfg.env, e, Frames(w.labels), ex, st).Some?
    requires StackExpr(cfg.env, false, e, MarksOf(w.labels), w.ts).Some?
    ensures SoundIf(w, LowerExpr(cfg, e, w).1, WellBoundExpr(cfg.trace, near, e),
        StackExpr(cfg.env, !w.dead, e, MarksOf(w.labels), w.ts).Some?)
    decreases e, 1
  {
    hide LowerList, StackList, TextOk, Fresh, Grown, ValidBody, Apply, Reset, ResetTs, Text, Targets;
    if e.Loop? && e.body == [] {
      assert WellBound(cfg.trace, near + {e.name}, e.body);
    } else {
      hide WellBound;
      var (l, sig) := (e.name, e.decl.sig);
      var f := Frame(l, if e.Loop? then sig.params else sig.results);
      var kind := if e.Loop? then LoopKind else BlockKind;
      var w0 := w.(ts := DropN(w.ts, |sig.params|));
      var w1 := Enter(w0, f, kind, sig.params);
      TextEnter(w, w0, f, kind, sig.params, near, used);
      EnterFrames(w0, f, kind, sig.params);
      EnterMarks(w0, f, kind, sig.params);
      ResetLess(w0, StackList(cfg.env, false, e.body, MarksOf(w1.labels), w1.ts));
      SoundBody(cfg, e.body, w0, w1, near + {l}, used + {l}, ex, sig.params, sig.results);
      var w2 := LowerList(cfg, e.body, w1).1;
      ResetSound(w2, w0, sig.results);
    }
  }

  lemma ResetLess(w0: Writer, ts: Option<seq<Type>>)
    ensures ts.Some? && Reset(false, w0.ts, ts.value).Some? ==>
        |w0.ts| <= |ts.value| && Reset(false, w0.ts, ts.value).value == ts.value[..|w0.ts|]
  {}

  // ----- conditionals -----

  lemma BracedTwo(w: Writer, a: Code, b: Code)
    ensures Braced(w, [a, b]).sound <==> w.sound && !ShapeOf(a).hangs && !ShapeOf(b).hangs
  {
    hide ShapeOf;
    assert a in [a, b] && b in [a, b];
  }

  /** Reading the analysis of a conditional arm by arm. */
  lemma StackIf(env: Env, keep: bool, e: Expr, ms: seq<Mark>, ts: seq<Type>)
    requires e.If? && |ts| >= 1 + |e.decl.sig.params|
    ensures var sig := e.decl.sig;
            var base := DropN(DropN(ts, 1), |sig.params|);
            var ms1 := ms + [Mark(Frame(e.name, sig.results), |base|)];
            var ts1 := StackList(env, keep, e.thn, ms1, base + sig.params);
            StackExpr(env, keep, e, ms, ts).Some? <==>
              && ts1.Some? && Reset(keep, base, ts1.value).Some?
              && (e.els != [] ==>
                    var ts2 := StackList(env, keep, e.els, ms1, Reset(keep, base, ts1.value).value + sig.params);
                    ts2.Some? && Reset(keep, base, ts2.value).Some?)
  {
    hide StackList, Reset;
  }

  lemma {:induction false} SoundConditional(cfg: Config, e: Expr, w: Writer, near: set<string>, used: set<string>,
      ex: set<string>, st: Stack)
    requires e.If?
    requires TextOk(w, near, used) && FreshExpr(e, used) && ValidExpr(cfg.env, e, Frames(w.labels), ex, st).Some?
    requires StackExpr(cfg.env, false, e, MarksOf(w.labels), w.ts).Some?
    ensures SoundIf(w, LowerExpr(cfg, e, w).1, WellBoundExpr(cfg.trace, near, e),
        StackExpr(cfg.env, !w.dead, e, MarksOf(w.labels), w.ts).Some?)
    decreases e, 1
  {
    hide LowerList, StackList, StackExpr, TextOk, Fresh, Grown, ValidBody, Pop, Apply, Reset, ResetTs, PopBlock, Text,
        Targets, WellBound, ShapeOf, LabelDecl, Braced;
    var (l, sig) := (e.name, e.decl.sig);
    var f := Frame(l, sig.results);
    var w0 := w.(ts := DropN(DropN(w.ts, 1), |sig.params|));
    var w1 := Enter(w0, f, IfKind, sig.params);
    assert |w.ts| >= 1 + |sig.params| by { IfOperands(cfg.env, e, MarksOf(w.labels), w.ts); }
    StackIf(cfg.env, false, e, MarksOf(w.labels), w.ts);
    StackIf(cfg.env, !w.dead, e, MarksOf(w.labels), w.ts);
    TextEnter(w, w0, f, IfKind, sig.params, near, used);
    EnterFrames(w0, f, IfKind, sig.params);
    EnterMarks(w0, f, IfKind, sig.params);
    ResetLess(w0, StackList(cfg.env, false, e.thn, MarksOf(w1.labels), w1.ts));
    SoundBody(cfg, e.thn, w0, w1, near + {l}, used + {l}, ex, sig.params, sig.results);
    var (c1, w2) := LowerList(cfg, e.thn, w1);
    var w2' := ResetTs(w2, w0, sig.params);
    ResetSound(w2, w0, sig.params);
    ArmAlike(cfg, e.thn, w1, near + {l}, used + {l}, ex, sig.params, sig.results);
    if e.els == [] {
      ResetSound(w2, w0, sig.results);
      BracedTwo(PopBlock(w2, w0, sig.results), c1, Nil);
      EmptyShape();
      NoArm(cfg.trace, near + {l});
    } else {
      var used1 := used + {l} + Names(e.thn);
      GrownReset(w2, w0, sig.params);
      GrownTrans(w1, w2, w2');
      TextGrown(w1, w2', near + {l}, used + {l}, used1);
      GrownFrames(w2, w2');
      GrownMarks(w2, w2');
      ResetLess(w0, StackList(cfg.env, false, e.els, MarksOf(w2'.labels), w2'.ts));
      SoundBody(cfg, e.els, w0, w2', near + {l}, used1, ex, sig.params, sig.results);
      var (c2, w3) := LowerList(cfg, e.els, w2');
      ResetSound(w3, w0, sig.results);
      BracedTwo(PopBlock(w3, w0, sig.results), c1, c2);
      ArmAlike(cfg, e.els, w2', near + {l}, used1, ex, sig.params, sig.results);
    }
  }

  lemma IfOperands(env: Env, e: Expr, ms: seq<Mark>, ts: seq<Type>)
    requires e.If? && StackExpr(env, false, e, ms, ts).Some?
    ensures |ts| >= 1 + |e.decl.sig.params|
  {}

  lemma NoArm(trace: bool, near: set<string>)
    ensures WellBound(trace, near, []) && !Text(trace, near, []).hangs
  {}

  lemma ArmAlike(cfg: Config, es: seq<Expr>, w: Writer, near: set<string>, used: set<string>, ex: set<string>,
      params: seq<Type>, results: seq<Type>)
    requires TextOk(w, near, used) && Fresh(es, used) && ValidBody(cfg.env, es, Frames(w.labels), ex, params, results)
    ensures ShapeOf(LowerList(cfg, es, w).0).hangs == Text(cfg.trace, near, es).hangs
  {
    hide LowerList, Text, ShapeOf, TextOk, Fresh;
    ValidScoped(cfg.env, es, Frames(w.labels), ex, Stack(false, Known(params)));
    ListAlike(cfg, es, w, near, used);
  }

  // ----- tries -----

  lemma BracedOne(w: Writer, a: Code)
    ensures Braced(w, [a]).sound <==> w.sound && !ShapeOf(a).hangs
  {
    hide ShapeOf;
    assert a in [a];
  }

  /** Reading the analysis of a try part by part. */
  lemma StackTry(env: Env, keep: bool, e: Expr, ms: seq<Mark>, ts: seq<Type>)
    requires e.Try? && e.kind != PlainTry && |ts| >= |e.decl.sig.params|
    ensures var sig := e.decl.sig;
            var base := DropN(ts, |sig.params|);
            var ms1 := ms + [Mark(Frame(e.name, sig.results), |base|)];
            var ts1 := StackList(env, keep, e.body, ms1, base + sig.params);
            StackExpr(env, keep, e, ms, ts).Some? <==>
              && ts1.Some? && Reset(keep, base, ts1.value).Some?
              && (e.kind == DelegateTry ==> Resolve(FramesOf(ms), e.delegate).Some?)
              && (e.kind == CatchTry ==>
                    && e.catches != []
                    && var ts2 := StackCatches(env, keep, e.catches, ms1, base, Reset(keep, base, ts1.value).value);
                       ts2.Some? && Reset(keep, base, ts2.value).Some?)
  {
    hide StackList, StackCatches, Reset, Resolve;
  }

  lemma TryOperands(env: Env, e: Expr, ms: seq<Mark>, ts: seq<Type>)
    requires e.Try? && StackExpr(env, false, e, ms, ts).Some?
    ensures |ts| >= |e.decl.sig.params|
  {
    hide StackList, StackCatches, Reset, Resolve;
  }

  lemma {:induction false} SoundTry(cfg: Config, e: Expr, w: Writer, near: set<string>, used: set<string>,
      ex: set<string>, st: Stack)
    requires e.Try? && e.kind != PlainTry
    requires TextOk(w, near, used) && FreshExpr(e, used) && ValidExpr(cfg.env, e, Frames(w.labels), ex, st).Some?
    requires StackExpr(cfg.env, false, e, MarksOf(w.labels), w.ts).Some?
    ensures SoundIf(w, LowerExpr(cfg, e, w).1, WellBoundExpr(cfg.trace, near, e),
        StackExpr(cfg.env, !w.dead, e, MarksOf(w.labels), w.ts).Some?)
    decreases e, 1
  {
    hide LowerList, LowerCatches, LowerDelegate, StackList, StackCatches, StackExpr, TextOk, Fresh, FreshCatches,
        Grown, ValidBody, ValidCatches, Apply, Reset, ResetTs, PopBlock, BeginCatches, Text, LastText, Targets,
        WellBound, WellBoundCatches, ShapeOf, LabelDecl, Braced, TryCode, Landing, SaveCode, Resolve;
    var (l, sig) := (e.name, e.decl.sig);
    var f := Frame(l, sig.results);
    var w0 := w.(ts := DropN(w.ts, |sig.params|));
    var w1 := EnterTry(w0, f, sig.params);
    TryOperands(cfg.env, e, MarksOf(w.labels), w.ts);
    StackTry(cfg.env, false, e, MarksOf(w.labels), w.ts);
    StackTry(cfg.env, !w.dead, e, MarksOf(w.labels), w.ts);
    TextEnter(w, w0, f, TryKindL, sig.params, near, used);
    EnterFrames(w0, f, TryKindL, sig.params);
    EnterMarks(w0, f, TryKindL, sig.params);
    ResetLess(w0, StackList(cfg.env, false, e.body, MarksOf(w1.labels), w1.ts));
    SoundBody(cfg, e.body, w0, w1, {}, used + {l}, ex, sig.params, sig.results);
    var w2 := LowerList(cfg, e.body, w1).1;
    var w3 := BeginCatches(w2, w0);
    ResetSound(w2, w0, []);
    if e.kind == CatchTry {
      var wh := PopTry(w3);
      var used1 := used + {l} + Names(e.body);
      BeginIs(w2, w0);
      TextCatches(w, w0, w2, f, sig.params, near, used, used1);
      SoundHandler(cfg, e.catches, w0, wh, near + {l}, used1, ex + {l}, sig.results);
      var (c2, w4) := LowerCatches(cfg, e.catches, w0, wh);
      ResetSound(w4, w0, sig.results);
      BracedOne(PopBlock(w4, w0, sig.results), c2);
    } else {
      BeginIs(w2, w0);
      GrownDelegate(e.delegate, w3);
      var w4 := PopTry(LowerDelegate(e.delegate, w3).1);
      DelegateSound(e.delegate, w3);
      ResetSound(w4, w0, sig.results);
      ResetAgain(w2, w0, w4);
      MarkFrames(w.labels);
    }
  }

  /** The state in which clauses are written. */
  lemma BeginIs(w2: Writer, w0: Writer)
    requires |w0.ts| <= |w2.ts|
    ensures BeginCatches(w2, w0).ts == w2.ts[..|w0.ts|] && BeginCatches(w2, w0).dead == w0.dead
    ensures Reset(!w0.dead, w0.ts, w2.ts).Some? ==> Reset(!w0.dead, w0.ts, w2.ts).value == BeginCatches(w2, w0).ts
    ensures Reset(false, w0.ts, w2.ts) == Some(BeginCatches(w2, w0).ts)
  {}

  lemma DelegateSound(v: Var, w: Writer)
    ensures LowerDelegate(v, w).1.sound == w.sound
  {}

  /** Cut back once, a stack is kept. */
  lemma ResetAgain(w2: Writer, w0: Writer, w4: Writer)
    requires |w0.ts| <= |w2.ts| && w4.ts == w2.ts[..|w0.ts|]
    ensures Reset(!w0.dead, w0.ts, w2.ts).Some? ==> Reset(!w0.dead, w0.ts, w4.ts).Some?
  {}

  /** The clauses of a try and the brace behind them. */
  lemma {:induction false} SoundHandler(cfg: Config, cs: seq<Catch>, w0: Writer, w: Writer, near: set<string>,
      used: set<string>, ex: set<string>, results: seq<Type>)
    requires TextOk(w, near, used) && FreshCatches(cs, used) && ValidCatches(cfg.env, cs, Frames(w.labels), ex, results)
    requires w.dead == w0.dead
    requires var ts := StackCatches(cfg.env, false, cs, MarksOf(w.labels), w0.ts, w.ts);
        ts.Some? && Reset(false, w0.ts, ts.value).Some?
    ensures var (c, w9) := LowerCatches(cfg, cs, w0, w);
            var ts := StackCatches(cfg.env, !w0.dead, cs, MarksOf(w.labels), w0.ts, w.ts);
            && |w0.ts| <= |w9.ts|
            && SoundIf(w, w9, WellBoundCatches(cfg.trace, near, cs), ts.Some?)
            && (ts.Some? ==> ts.value == w9.ts)
            && (WellBoundCatches(cfg.trace, near, cs) ==> ShapeOf(c).hangs == LastText(cfg.trace, near, cs).hangs)
    decreases cs, 1
  {
    hide LowerCatches, StackCatches, TextOk, FreshCatches, ValidCatches, WellBoundCatches, ShapeOf, LastText, SoundIf;
    SoundCatches(cfg, cs, w0, w, near, used, ex, results);
    StackCatchesIs(cfg, cs, w0, w);
    if StackCatches(cfg.env, !w0.dead, cs, MarksOf(w.labels), w0.ts, w.ts).Some? {
      KeepCatches(cfg.env, !w0.dead, cs, MarksOf(w.labels), w0.ts, w.ts);
    }
    if WellBoundCatches(cfg.trace, near, cs) {
      CatchesAgree(cfg.env, cs, Frames(w.labels), ex, results);
      CatchesScoped(cfg.env, cs, Frames(w.labels), ex, results);
      LastSome(cfg.trace, near, cs);
      LastEqual(cfg, cs, w0, w, near, used, ex, results);
      EqualSome(ShapeOf(LowerCatches(cfg, cs, w0, w).0), LastText(cfg.trace, near, cs));
    }
  }

  lemma LastSome(trace: bool, near: set<string>, cs: seq<Catch>)
    requires WellBoundCatches(trace, near, cs)
    ensures cs == [] || cs[0].tag == None || LastText(trace, near, cs).n >= 1
  {}

  lemma {:induction false} SoundCatches(cfg: Config, cs: seq<Catch>, w0: Writer, w: Writer, near: set<string>,
      used: set<string>, ex: set<string>, results: seq<Type>)
    requires TextOk(w, near, used) && FreshCatches(cs, used) && ValidCatches(cfg.env, cs, Frames(w.labels), ex, results)
    requires StackCatches(cfg.env, false, cs, MarksOf(w.labels), w0.ts, w.ts).Some?
    ensures SoundIf(w, LowerCatches(cfg, cs, w0, w).1, WellBoundCatches(cfg.trace, near, cs),
                    StackCatches(cfg.env, !w0.dead, cs, MarksOf(w.labels), w0.ts, w.ts).Some?)
    decreases cs, 0
  {
    hide LowerList, StackList, TextOk, Fresh, Grown, ValidBody, Reset, ResetTs, Text, WellBound, ShapeOf, UnpackCode,
        ElseBound, ElseLeft, TypeCatches, LastText, LeavesList;
    if cs != [] {
      var (es, tys) := (cs[0].exprs, if cs[0].tag == None then [] else TagOf(cfg.env, cs[0].tag.value));
      var w1 := ResetTs(w, w0, tys);
      ResetLess(w0, Some(w.ts));
      ResetSome(w0, w.ts);
      ResetSound(w, w0, tys);
      ClauseGrown(cfg, es, w0, w, tys);
      TextGrown(w, w1, near, used, used);
      assert w.ts[..|w0.ts|] + [] == w.ts[..|w0.ts|];
      ClauseSound(cfg, es, w0, w1, near, used, ex, tys, results);
      var (c1, w2) := LowerList(cfg, es, w1);
      if cs[0].tag.Some? {
        var used1 := used + Names(es);
        TextGrown(w, w2, near, used, used1);
        SoundCatches(cfg, cs[1..], w0, w2, near, used1, ex, results);
        ArmAlike(cfg, es, w1, near, used, ex, tys, results);
        var (c2, w3) := LowerCatches(cfg, cs[1..], w0, w2);
        if WellBoundCatches(cfg.trace, near, cs[1..]) {
          CatchesAgree(cfg.env, cs[1..], Frames(w2.labels), ex, results);
          CatchesScoped(cfg.env, cs[1..], Frames(w2.labels), ex, results);
          LastSome(cfg.trace, near, cs[1..]);
          LastEqual(cfg, cs[1..], w0, w2, near, used1, ex, results);
          EqualSome(ShapeOf(c2), LastText(cfg.trace, near, cs[1..]));
          ElseSplits(c2);
        }
        GrownCatches(cfg, cs[1..], w0, w2);
      }
    }
  }

  lemma ResetSome(w0: Writer, ts: seq<Type>)
    ensures Reset(false, w0.ts, ts).Some? <==> |w0.ts| <= |ts|
  {}

  /** A clause's expressions. */
  lemma {:induction false} ClauseSound(cfg: Config, es: seq<Expr>, w0: Writer, w1: Writer, near: set<string>,
      used: set<string>, ex: set<string>, params: seq<Type>, results: seq<Type>)
    requires TextOk(w1, near, used) && Fresh(es, used) && ValidBody(cfg.env, es, Frames(w1.labels), ex, params, results)
    requires w1.dead == w0.dead
    requires StackList(cfg.env, false, es, MarksOf(w1.labels), w1.ts).Some?
    ensures var ts := StackList(cfg.env, !w0.dead, es, MarksOf(w1.labels), w1.ts);
            var w2 := LowerList(cfg, es, w1).1;
            && StackList(cfg.env, false, es, MarksOf(w1.labels), w1.ts) == Some(w2.ts)
            && SoundIf(w1, w2, WellBound(cfg.trace, near, es), ts.Some?)
            && (ts.Some? ==> ts.value == w2.ts)
    decreases es, 1
  {
    hide LowerList, StackList, WellBound, TextOk, Fresh, SoundIf;
    SoundList(cfg, es, w1, near, used, ex, Stack(false, Known(params))) by {
      BodyValid(cfg.env, es, Frames(w1.labels), ex, params, results);
    }
    StackIs(cfg, es, w1);
    if StackList(cfg.env, !w0.dead, es, MarksOf(w1.labels), w1.ts).Some? {
      KeepList(cfg.env, !w0.dead, es, MarksOf(w1.labels), w1.ts);
    }
  }
}

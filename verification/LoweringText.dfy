/** When the writer's output is sound: the writer's own type stack is the one that StackTypes
    reads off the expressions, the text has the statements that Statements counts, and what
    has been written is C that runs the right clauses and keeps the types below every block
    exactly if the predicates on the expressions say so. */
module LoweringText {
  import opened Ir
  import opened Wasm
  import opened Typing
  import opened StackTypes
  import opened CLang
  import opened Statements
  import opened Lowering
  import opened LoweringShape
  import opened LoweringBranch

  // ----- the type stack -----

  function MarksOf(ls: seq<LabelEntry>): (ms: seq<Mark>)
    ensures |ms| == |ls| && forall i | 0 <= i < |ls| :: ms[i] == Mark(ls[i].frame, ls[i].typeStackSize)
  {
    seq(|ls|, i requires 0 <= i < |ls| => Mark(ls[i].frame, ls[i].typeStackSize))
  }

  lemma MarkFrames(ls: seq<LabelEntry>)
    ensures FramesOf(MarksOf(ls)) == Frames(ls)
  {}

  lemma GrownMarks(w: Writer, w1: Writer)
    requires Grown(w, w1)
    ensures MarksOf(w1.labels) == MarksOf(w.labels)
  {
    forall i | 0 <= i < |w.labels| ensures w1.labels[i].frame == w.labels[i].frame
        && w1.labels[i].typeStackSize == w.labels[i].typeStackSize {
      var e := w1.labels[i];
    }
  }

  lemma EnterMarks(w0: Writer, f: Frame, kind: LabelKind, params: seq<Type>)
    ensures MarksOf(Enter(w0, f, kind, params).labels) == MarksOf(w0.labels) + [Mark(f, |w0.ts|)]
  {}

  lemma ResetNone(w: Writer, w0: Writer)
    requires |w0.ts| <= |w.ts|
    ensures ResetTs(w, w0, []).ts == w.ts[..|w0.ts|]
  {}

  /** What the labels are after a try's body, for the clauses. */
  lemma CatchMarks(w2: Writer, w0: Writer)
    ensures MarksOf(BeginCatches(w2, w0).labels) == MarksOf(w2.labels)
    ensures Frames(BeginCatches(w2, w0).labels) == Frames(w2.labels)
  {}

  /** The writer's type stack is the one the analysis computes. */
  lemma {:induction false} StackIs(cfg: Config, es: seq<Expr>, w: Writer)
    requires StackList(cfg.env, false, es, MarksOf(w.labels), w.ts).Some?
    ensures LowerList(cfg, es, w).1.ts == StackList(cfg.env, false, es, MarksOf(w.labels), w.ts).value
    decreases es, 0
  {
    if es != [] {
      StackExprIs(cfg, es[0], w);
      GrownExpr(cfg, es[0], w);
      GrownMarks(w, LowerExpr(cfg, es[0], w).1);
      if !Ends(es[0]) { StackIs(cfg, es[1..], LowerExpr(cfg, es[0], w).1); }
    }
  }

  lemma {:induction false} StackExprIs(cfg: Config, e: Expr, w: Writer)
    requires StackExpr(cfg.env, false, e, MarksOf(w.labels), w.ts).Some?
    ensures LowerExpr(cfg, e, w).1.ts == StackExpr(cfg.env, false, e, MarksOf(w.labels), w.ts).value
    decreases e, 2
  {
    match e
    case Br(v) => GrownGoto(v, w);
    case BrIf(v) => GrownGoto(v, w.(ts := DropN(w.ts, 1)));
    case BrTable(vs, d) => GrownCases(vs, d, w.(ts := DropN(w.ts, 1)));
    case Block(l, d, body) => StackBlockIs(cfg, l, d, body, w);
    case Loop(_, _, body) => if body != [] { StackLoopIs(cfg, e, w); }
    case If(_, _, _, _) => StackIfIs(cfg, e, w);
    case Try(l, d, body, kind, _, _) =>
      if kind == PlainTry { StackBlockIs(cfg, l, d, body, w); } else { StackTryIs(cfg, e, w); }
    case _ =>
  }

  lemma {:induction false} StackBlockIs(cfg: Config, l: string, d: BlockDecl, body: seq<Expr>, w: Writer)
    requires StackBlock(cfg.env, false, Frame(l, d.sig.results), body, d.sig, MarksOf(w.labels), w.ts).Some?
    ensures LowerBlock(cfg, l, d, body, w).1.ts == StackBlock(cfg.env, false, Frame(l, d.sig.results), body, d.sig,
        MarksOf(w.labels), w.ts).value
    decreases body, 1
  {
    var w0 := w.(ts := DropN(w.ts, |d.sig.params|));
    EnterMarks(w0, Frame(l, d.sig.results), BlockKind, d.sig.params);
    StackIs(cfg, body, Enter(w0, Frame(l, d.sig.results), BlockKind, d.sig.params));
  }

  lemma {:induction false} StackLoopIs(cfg: Config, e: Expr, w: Writer)
    requires e.Loop? && e.body != []
    requires StackBlock(cfg.env, false, Frame(e.name, e.decl.sig.params), e.body, e.decl.sig, MarksOf(w.labels),
        w.ts).Some?
    ensures LowerLoop(cfg, e, w).1.ts == StackBlock(cfg.env, false, Frame(e.name, e.decl.sig.params), e.body,
        e.decl.sig, MarksOf(w.labels), w.ts).value
    decreases e, 1
  {
    var sig := e.decl.sig;
    var w0 := w.(ts := DropN(w.ts, |sig.params|));
    EnterMarks(w0, Frame(e.name, sig.params), LoopKind, sig.params);
    StackIs(cfg, e.body, Enter(w0, Frame(e.name, sig.params), LoopKind, sig.params));
  }

  lemma {:induction false} StackIfIs(cfg: Config, e: Expr, w: Writer)
    requires e.If? && StackExpr(cfg.env, false, e, MarksOf(w.labels), w.ts).Some?
    ensures LowerIf(cfg, e, w).1.ts == StackExpr(cfg.env, false, e, MarksOf(w.labels), w.ts).value
    decreases e, 1
  {
    hide LabelDecl, ShapeOf;
    var sig := e.decl.sig;
    var w0 := w.(ts := DropN(DropN(w.ts, 1), |sig.params|));
    var w1 := Enter(w0, Frame(e.name, sig.results), IfKind, sig.params);
    EnterMarks(w0, Frame(e.name, sig.results), IfKind, sig.params);
    StackIs(cfg, e.thn, w1);
    GrownList(cfg, e.thn, w1);
    var w2 := LowerList(cfg, e.thn, w1).1;
    GrownMarks(w1, w2);
    if e.els != [] { StackIs(cfg, e.els, ResetTs(w2, w0, sig.params)); }
  }

  lemma {:induction false} StackTryIs(cfg: Config, e: Expr, w: Writer)
    requires e.Try? && e.kind != PlainTry && StackExpr(cfg.env, false, e, MarksOf(w.labels), w.ts).Some?
    ensures LowerTry(cfg, e, w).1.ts == StackExpr(cfg.env, false, e, MarksOf(w.labels), w.ts).value
    decreases e, 1
  {
    hide LowerList, LowerCatches, LowerDelegate, LabelDecl, ShapeOf, TryCode, Landing, SaveCode, Resolve, StackList,
        StackCatches;
    var sig := e.decl.sig;
    var w0 := w.(ts := DropN(w.ts, |sig.params|));
    var w1 := EnterTry(w0, Frame(e.name, sig.results), sig.params);
    EnterMarks(w0, Frame(e.name, sig.results), TryKindL, sig.params);
    StackIs(cfg, e.body, w1);
    GrownList(cfg, e.body, w1);
    var w2 := LowerList(cfg, e.body, w1).1;
    GrownMarks(w1, w2);
    CatchMarks(w2, w0);
    var w3 := BeginCatches(w2, w0);
    ResetNone(w2, w0);
    if e.kind == CatchTry { StackCatchesIs(cfg, e.catches, w0, PopTry(w3)); } else { GrownDelegate(e.delegate, w3); }
  }

  lemma {:induction false} StackCatchesIs(cfg: Config, cs: seq<Catch>, w0: Writer, w: Writer)
    requires StackCatches(cfg.env, false, cs, MarksOf(w.labels), w0.ts, w.ts).Some?
    ensures LowerCatches(cfg, cs, w0, w).1.ts == StackCatches(cfg.env, false, cs, MarksOf(w.labels), w0.ts, w.ts).value
    decreases cs, 0
  {
    hide ShapeOf, ElseBound, ElseLeft, UnpackCode;
    if cs != [] {
      match cs[0].tag
      case None =>
        ResetNone(w, w0);
        StackIs(cfg, cs[0].exprs, ResetTs(w, w0, []));
      case Some(t) =>
        var w1 := ResetTs(w, w0, TagOf(cfg.env, t));
        StackIs(cfg, cs[0].exprs, w1);
        GrownList(cfg, cs[0].exprs, w1);
        var w2 := LowerList(cfg, cs[0].exprs, w1).1;
        GrownMarks(w1, w2);
        StackCatchesIs(cfg, cs[1..], w0, w2);
    }
  }

  // ----- which labels are used -----

  /** Labels in scope have distinct names, all in `used` but the function label's. */
  ghost predicate NamesOk(w: Writer, used: set<string>) {
    && w.labels != [] && w.labels[0].frame.name == ""
    && (forall i {:trigger w.labels[i]} | 0 < i < |w.labels| ::
        w.labels[i].frame.name in used && w.labels[i].frame.name != "")
    && (forall i, j | 0 <= i < j < |w.labels| :: w.labels[i].frame.name != w.labels[j].frame.name)
  }

  lemma NamesGrown(w: Writer, w1: Writer, used: set<string>, more: set<string>)
    requires NamesOk(w, used) && used <= more && Frames(w1.labels) == Frames(w.labels)
    ensures NamesOk(w1, more)
  {
    forall i | 0 <= i < |w.labels| ensures w1.labels[i].frame
        == w.labels[i].frame { assert Frames(w1.labels)[i] == Frames(w.labels)[i]; }
  }

  lemma NamesEnter(w: Writer, w1: Writer, f: Frame, used: set<string>)
    requires NamesOk(w, used) && f.name !in used && f.name != "" && Frames(w1.labels) == Frames(w.labels) + [f]
    ensures NamesOk(w1, used + {f.name})
  {
    forall i | 0 <= i < |w.labels| ensures w1.labels[i].frame
        == w.labels[i].frame { assert Frames(w1.labels)[i] == Frames(w.labels)[i]; }
    assert Frames(w1.labels)[|w.labels|] == f;
  }

  /** The labels marked between `w` and `w1` are those with names in `targets`. */
  ghost predicate Marked(w: Writer, w1: Writer, targets: set<string>) {
    && Frames(w1.labels) == Frames(w.labels)
    && forall i {:trigger w1.labels[i]} {:trigger w.labels[i]} | 0 <= i < |w.labels| ::
         w1.labels[i].used <==> w.labels[i].used || w.labels[i].frame.name in targets
  }

  lemma MarkedBoth(w: Writer, w1: Writer, w2: Writer, a: set<string>, b: set<string>)
    requires Marked(w, w1, a) && Marked(w1, w2, b)
    ensures Marked(w, w2, a + b)
  {
    forall i | 0 <= i < |w.labels|
      ensures w2.labels[i].used <==> w.labels[i].used || w.labels[i].frame.name in a + b
    {
      assert Frames(w1.labels)[i] == Frames(w.labels)[i];
      assert w1.labels[i].used <==> w.labels[i].used || w.labels[i].frame.name in a;
    }
  }

  lemma MarkedSame(w: Writer, w1: Writer)
    requires w1.labels == w.labels
    ensures Marked(w, w1, {})
  {}

  /** Outside a block what its body marks is marked, and its own label is gone. */
  lemma MarkedPop(w: Writer, w1: Writer, w2: Writer, w3: Writer, e: LabelEntry, targets: set<string>)
    requires w1.labels == w.labels + [e] && Marked(w1, w2, targets) && w3.labels == DropN(w2.labels, 1)
    ensures Marked(w, w3, targets)
    ensures |w2.labels| == |w.labels| + 1 && w2.labels[|w.labels|].frame == e.frame
    ensures w2.labels[|w.labels|].used <==> e.used || e.frame.name in targets
  {
    assert Frames(w2.labels)[|w.labels|] == Frames(w1.labels)[|w.labels|];
    forall i | 0 <= i < |w.labels|
      ensures w3.labels[i].frame == w.labels[i].frame && (w3.labels[i].used <==>
          w.labels[i].used || w.labels[i].frame.name in targets)
    {
      assert w1.labels[i] == w.labels[i] && w3.labels[i] == w2.labels[i];
      assert Frames(w2.labels)[i] == Frames(w1.labels)[i];
    }
  }

  lemma MarkedGoto(v: Var, w: Writer, used: set<string>)
    requires NamesOk(w, used) && Resolve(Frames(w.labels), v).Some?
    ensures Marked(w, LowerGoto(v, w).1, {TargetName(v)})
    ensures FindLabel(w.labels, v) < |w.labels| && w.labels[FindLabel(w.labels, v)].frame.name == TargetName(v)
  {
    hide BranchMoves, UnwindCode;
    if v.Name? { FindNamedFrame(w.labels, v.name); }
    var k := FindLabel(w.labels, v);
    var w1 := LowerGoto(v, w).1;
    assert w1 == MarkLabel(w, k);
    forall i | 0 <= i < |w.labels|
      ensures w1.labels[i].frame == w.labels[i].frame && (w1.labels[i].used <==>
          w.labels[i].used || w.labels[i].frame.name == TargetName(v))
    {}
  }

  lemma {:induction false} MarkedCases(vs: seq<Var>, d: Var, w: Writer, used: set<string>)
    requires NamesOk(w, used) && Resolve(Frames(w.labels), d).Some?
        && forall v | v in vs :: Resolve(Frames(w.labels), v).Some?
    ensures Marked(w, LowerCases(vs, d, w).1, {TargetName(d)} + set v | v in vs :: TargetName(v))
    decreases |vs|
  {
    hide LowerGoto, Resolve, NamesOk, Marked;
    if vs == [] {
      MarkedGoto(d, w, used);
      assert {TargetName(d)} + (set v | v in vs :: TargetName(v)) == {TargetName(d)};
    } else {
      MarkedGoto(vs[0], w, used);
      var w1 := LowerGoto(vs[0], w).1;
      MarkedFrames(w, w1, {TargetName(vs[0])});
      NamesGrown(w, w1, used, used);
      MarkedCases(vs[1..], d, w1, used);
      var rest := {TargetName(d)} + set v | v in vs[1..] :: TargetName(v);
      MarkedBoth(w, w1, LowerCases(vs[1..], d, w1).1, {TargetName(vs[0])}, rest);
      assert forall v :: v in vs <==> v == vs[0] || v in vs[1..];
      assert {TargetName(vs[0])} + rest == {TargetName(d)} + set v | v in vs :: TargetName(v);
    }
  }

  lemma MarkedFrames(w: Writer, w1: Writer, targets: set<string>)
    requires Marked(w, w1, targets)
    ensures Frames(w1.labels) == Frames(w.labels)
  {}

  lemma {:induction false} MarkedList(cfg: Config, es: seq<Expr>, w: Writer, used: set<string>)
    requires NamesOk(w, used) && Scoped(es, Frames(w.labels)) && Fresh(es, used)
    ensures Marked(w, LowerList(cfg, es, w).1, Targets(es))
    decreases es, 0
  {
    hide NamesOk, Marked, LowerExpr, ScopedExpr, FreshExpr, TargetsOf, ExprNames;
    if es == [] {
      MarkedSame(w, w);
    } else {
      var w1 := LowerExpr(cfg, es[0], w).1;
      MarkedExpr(cfg, es[0], w, used);
      MarkedFrames(w, w1, TargetsOf(es[0]));
      if !Ends(es[0]) {
        NamesGrown(w, w1, used, used + ExprNames(es[0]));
        MarkedList(cfg, es[1..], w1, used + ExprNames(es[0]));
        MarkedBoth(w, w1, LowerList(cfg, es[1..], w1).1, TargetsOf(es[0]), Targets(es[1..]));
      } else {
        assert TargetsOf(es[0]) + {} == TargetsOf(es[0]);
      }
    }
  }

  lemma {:induction false} MarkedExpr(cfg: Config, e: Expr, w: Writer, used: set<string>)
    requires NamesOk(w, used) && ScopedExpr(e, Frames(w.labels)) && FreshExpr(e, used)
    ensures Marked(w, LowerExpr(cfg, e, w).1, TargetsOf(e))
    decreases e, 2
  {
    hide Marked, LowerList, LowerGoto, LowerCases, LowerBlock, LowerLoop, LowerIf, LowerTry, Scoped, ScopedCatches,
        Fresh, FreshCatches, Targets, TargetsIn;
    match e
    case Br(v) => MarkedGoto(v, w, used);
    case BrIf(v) =>
      var w0 := w.(ts := DropN(w.ts, 1));
      MarkedGoto(v, w0, used);
      MarkedSame(w, w0);
      MarkedBoth(w, w0, LowerGoto(v, w0).1, {}, {TargetName(v)});
      assert {} + {TargetName(v)} == {TargetName(v)};
    case BrTable(vs, d) => MarkedTable(cfg, vs, d, w, used);
    case Return =>
      assert Resolve(Frames(w.labels), Index(|w.labels| - 1)) == Some(0);
      MarkedGoto(Index(|w.labels| - 1), w, used);
    case Block(l, d, body) => MarkedBlock(cfg, l, d, body, w, used);
    case Loop(_, _, _) => MarkedLoop(cfg, e, w, used);
    case If(_, _, _, _) => MarkedIf(cfg, e, w, used);
    case Try(l, d, body, kind, _, _) =>
      if kind == PlainTry {
        MarkedBlock(cfg, l, d, body, w, used);
        assert Targets(body) + {} == Targets(body);
      } else {
        MarkedTry(cfg, e, w, used);
      }
    case _ => MarkedSame(w, LowerExpr(cfg, e, w).1);
  }

  lemma MarkedTable(cfg: Config, vs: seq<Var>, d: Var, w: Writer, used: set<string>)
    requires NamesOk(w, used) && ScopedExpr(BrTable(vs, d), Frames(w.labels))
    ensures Marked(w, LowerExpr(cfg, BrTable(vs, d), w).1, TargetsOf(BrTable(vs, d)))
  {
    hide Marked, LowerCases, Resolve;
    var w0 := w.(ts := DropN(w.ts, 1));
    MarkedSame(w, w0);
    MarkedCases(vs, d, w0, used);
    var targets := TargetsOf(BrTable(vs, d));
    MarkedBoth(w, w0, LowerCases(vs, d, w0).1, {}, targets);
    assert {} + targets == targets;
  }

  lemma {:induction false} MarkedBlock(cfg: Config, l: string, d: BlockDecl, body: seq<Expr>, w: Writer,
      used: set<string>)
    requires NamesOk(w, used) && Scoped(body, Frames(w.labels) + [Frame(l, d.sig.results)])
    requires l != "" && l !in used && Fresh(body, used + {l})
    ensures Marked(w, LowerBlock(cfg, l, d, body, w).1, Targets(body))
    ensures var w0 := w.(ts := DropN(w.ts, |d.sig.params|));
            var w2 := LowerList(cfg, body, Enter(w0, Frame(l, d.sig.results), BlockKind, d.sig.params)).1;
            TopLabelUsed(w2) <==> l in Targets(body)
    decreases body, 1
  {
    hide NamesOk, Marked, LowerList;
    var w0 := w.(ts := DropN(w.ts, |d.sig.params|));
    var f := Frame(l, d.sig.results);
    var w1 := Enter(w0, f, BlockKind, d.sig.params);
    EnterFrames(w0, f, BlockKind, d.sig.params);
    NamesEnter(w, w1, f, used);
    MarkedList(cfg, body, w1, used + {l});
    var w2 := LowerList(cfg, body, w1).1;
    MarkedPop(w, w1, w2, PopBlock(w2, w0, d.sig.results), LabelEntry(f, BlockKind, |w0.ts|, |w0.tries|, false),
        Targets(body));
  }

  lemma {:induction false} MarkedLoop(cfg: Config, e: Expr, w: Writer, used: set<string>)
    requires e.Loop? && NamesOk(w, used) && ScopedExpr(e, Frames(w.labels)) && FreshExpr(e, used)
    ensures Marked(w, LowerLoop(cfg, e, w).1, TargetsOf(e))
    decreases e, 1
  {
    hide NamesOk, Marked, LowerList, Scoped, Fresh;
    var sig := e.decl.sig;
    var w0 := w.(ts := DropN(w.ts, |sig.params|));
    var f := Frame(e.name, sig.params);
    var w1 := Enter(w0, f, LoopKind, sig.params);
    if e.body == [] {
      MarkedSame(w, w);
    } else {
      EnterFrames(w0, f, LoopKind, sig.params);
      NamesEnter(w, w1, f, used);
      MarkedList(cfg, e.body, w1, used + {e.name});
      var w2 := LowerList(cfg, e.body, w1).1;
      MarkedPop(w, w1, w2, PopBlock(w2, w0, sig.results), LabelEntry(f, LoopKind, |w0.ts|, |w0.tries|, false),
          Targets(e.body));
    }
  }

  /** The label behind a conditional is written if one of its arms jumps to it. */
  lemma {:induction false} MarkedIf(cfg: Config, e: Expr, w: Writer, used: set<string>)
    requires e.If? && NamesOk(w, used) && ScopedExpr(e, Frames(w.labels)) && FreshExpr(e, used)
    ensures Marked(w, LowerIf(cfg, e, w).1, TargetsOf(e))
    ensures ShapeOf(LowerIf(cfg, e, w).0) == Join(SINGLE, Decl(e.name, Targets(e.thn) + Targets(e.els)))
    decreases e, 1
  {
    hide NamesOk, Marked, LowerList, Scoped, Fresh, ShapeOf;
    var (l, sig) := (e.name, e.decl.sig);
    var w0 := w.(ts := DropN(DropN(w.ts, 1), |sig.params|));
    var f := Frame(l, sig.results);
    var w1 := Enter(w0, f, IfKind, sig.params);
    EnterFrames(w0, f, IfKind, sig.params);
    NamesEnter(w, w1, f, used);
    MarkedList(cfg, e.thn, w1, used + {l});
    var w2 := LowerList(cfg, e.thn, w1).1;
    var w2' := ResetTs(w2, w0, sig.params);
    MarkedFrames(w1, w2, Targets(e.thn));
    NamesGrown(w1, w2', used + {l}, used + {l} + Names(e.thn));
    MarkedSame(w2, w2');
    MarkedBoth(w1, w2, w2', Targets(e.thn), {});
    MarkedList(cfg, e.els, w2', used + {l} + Names(e.thn));
    var w3 := LowerList(cfg, e.els, w2').1;
    var targets := Targets(e.thn) + Targets(e.els);
    MarkedBoth(w1, w2', w3, Targets(e.thn) + {}, Targets(e.els));
    assert Targets(e.thn) + {} + Targets(e.els) == targets;
    var w4 := LowerIf(cfg, e, w).1;
    IfEnds(cfg, e, w, w0, w1, w2, w3);
    MarkedPop(w, w1, w3, w4, LabelEntry(f, IfKind, |w0.ts|, |w0.tries|, false), targets);
    DeclShape(w3, l, targets);
    HeadShape(LowerIf(cfg, e, w).0);
  }

  lemma IfEnds(cfg: Config, e: Expr, w: Writer, w0: Writer, w1: Writer, w2: Writer, w3: Writer)
    requires e.If? && w0 == w.(ts := DropN(DropN(w.ts, 1), |e.decl.sig.params|))
    requires w1 == Enter(w0, Frame(e.name, e.decl.sig.results), IfKind, e.decl.sig.params)
    requires w2 == LowerList(cfg, e.thn, w1).1 && w3 == LowerList(cfg, e.els, ResetTs(w2, w0, e.decl.sig.params)).1
    ensures LowerIf(cfg, e, w).1.labels == DropN(w3.labels, 1)
    ensures var c := LowerIf(cfg, e, w).0; c.Cons? && c.hd.IfElse? && c.tl == LabelDecl(w3, UserLabel(e.name))
  {
    hide ShapeOf;
  }

  lemma DeclShape(w: Writer, l: string, targets: set<string>)
    requires TopLabelUsed(w) <==> l in targets
    ensures ShapeOf(LabelDecl(w, UserLabel(l))) == Decl(l, targets)
  {}

  lemma HeadShape(c: Code)
    requires c.Cons? && !c.hd.LabelHere?
    ensures ShapeOf(c) == Join(SINGLE, ShapeOf(c.tl))
  {}

  lemma {:induction false} MarkedTry(cfg: Config, e: Expr, w: Writer, used: set<string>)
    requires e.Try? && e.kind != PlainTry && NamesOk(w, used) && ScopedExpr(e, Frames(w.labels)) && FreshExpr(e, used)
    ensures Marked(w, LowerTry(cfg, e, w).1, TargetsOf(e))
    ensures ShapeOf(LowerTry(cfg, e, w).0) == Join(SINGLE, Decl(e.name, TargetsOf(e)))
    decreases e, 1
  {
    hide NamesOk, Marked, LowerList, LowerCatches, LowerDelegate, Scoped, ScopedCatches, Fresh, FreshCatches, ShapeOf,
        Resolve, Landing, SaveCode, LabelDecl;
    var (l, sig) := (e.name, e.decl.sig);
    var w0 := w.(ts := DropN(w.ts, |sig.params|));
    var f := Frame(l, sig.results);
    var w1 := EnterTry(w0, f, sig.params);
    EnterFrames(w0, f, TryKindL, sig.params);
    NamesEnter(w, w1, f, used);
    MarkedList(cfg, e.body, w1, used + {l});
    var w2 := LowerList(cfg, e.body, w1).1;
    var w3 := BeginCatches(w2, w0);
    MarkedFrames(w1, w2, Targets(e.body));
    MarkedKind(w1, w2, w0, Targets(e.body));
    var en := LabelEntry(f, TryKindL, |w0.ts|, |w0.tries|, false);
    if e.kind == CatchTry {
      CatchMarks(w2, w0);
      var wh := PopTry(w3);
      NamesGrown(w1, wh, used + {l}, used + {l} + Names(e.body));
      MarkedCatches(cfg, e.catches, w0, wh, used + {l} + Names(e.body));
      var w4 := LowerCatches(cfg, e.catches, w0, wh).1;
      MarkedBoth(w1, wh, w4, Targets(e.body), TargetsIn(e.catches));
      MarkedPop(w, w1, w4, LowerTry(cfg, e, w).1, en, TargetsOf(e));
      DeclShape(w4, l, TargetsOf(e));
    } else {
      var w4 := LowerDelegate(e.delegate, w3).1;
      DelegateMarks(e.delegate, w3);
      MarkedSame(w3, w4);
      MarkedBoth(w1, w3, w4, Targets(e.body), {});
      MarkedPop(w, w1, w4, LowerTry(cfg, e, w).1, en, TargetsOf(e));
      DeclShape(w4, l, TargetsOf(e));
    }
    HeadShape(LowerTry(cfg, e, w).0);
  }

  lemma DelegateMarks(v: Var, w: Writer)
    ensures LowerDelegate(v, w).1.labels == w.labels
  {}

  /** The label of a try changes its kind only. */
  lemma MarkedKind(w1: Writer, w2: Writer, w0: Writer, targets: set<string>)
    requires Marked(w1, w2, targets)
    ensures Marked(w1, BeginCatches(w2, w0), targets) && Marked(w1, PopTry(BeginCatches(w2, w0)), targets)
  {
    CatchMarks(w2, w0);
    var w3 := BeginCatches(w2, w0);
    forall i | 0 <= i < |w2.labels| ensures w3.labels[i].used == w2.labels[i].used {}
  }

  lemma {:induction false} MarkedCatches(cfg: Config, cs: seq<Catch>, w0: Writer, w: Writer, used: set<string>)
    requires NamesOk(w, used) && ScopedCatches(cs, Frames(w.labels)) && FreshCatches(cs, used)
    ensures Marked(w, LowerCatches(cfg, cs, w0, w).1, TargetsIn(cs))
    decreases cs, 0
  {
    hide NamesOk, Marked, LowerList, Scoped, Fresh, ShapeOf, UnpackCode, ElseBound, ElseLeft;
    if cs == [] {
      MarkedSame(w, LowerThrow(w).1);
    } else {
      var tys := if cs[0].tag == None then [] else TagOf(cfg.env, cs[0].tag.value);
      var w1 := ResetTs(w, w0, tys);
      var w2 := LowerList(cfg, cs[0].exprs, w1).1;
      var t1 := Targets(cs[0].exprs);
      MarkedSame(w, w1);
      NamesGrown(w, w1, used, used);
      MarkedList(cfg, cs[0].exprs, w1, used);
      MarkedBoth(w, w1, w2, {}, t1);
      assert {} + t1 == t1;
      if cs[0].tag == None {
        assert t1 + {} == t1;
      } else {
        MarkedFrames(w, w2, t1);
        NamesGrown(w, w2, used, used + Names(cs[0].exprs));
        MarkedCatches(cfg, cs[1..], w0, w2, used + Names(cs[0].exprs));
        var w3 := LowerCatches(cfg, cs[1..], w0, w2).1;
        MarkedBoth(w, w2, w3, t1, TargetsIn(cs[1..]));
        MarkedSame(w3, LowerCatches(cfg, cs, w0, w).1);
        MarkedBoth(w, w3, LowerCatches(cfg, cs, w0, w).1, t1 + TargetsIn(cs[1..]), {});
        assert t1 + TargetsIn(cs[1..]) + {} == TargetsIn(cs);
      }
    }
  }
}
